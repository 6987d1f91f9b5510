/**
 * What the contract's transitions guarantee: the order of their error checks, their exact
 * effect, what they conserve, that Redeem undoes Subscribe, that solvency survives any
 * sequence of transactions with non-negative arguments, what happens when the shared
 * keyspace is misused, and what the portfolio summary lists.
 */
module Properties {
  import opened Wrappers
  import opened Records
  import opened Format
  import opened Contract

  /** An investor record under `investorId` and an asset record under `isin` (so the keys differ). */
  predicate WellTyped(s: Store, investorId: string, isin: string) {
    investorId in s && s[investorId].InvestorRec? && isin in s && s[isin].AssetRec?
  }

  // ---------------------------------------------------------------- error order

  /**
   * Subscribe checks, in this order: role, investor present, asset present, funds, inventory.
   * With both records of the right kind it succeeds exactly when the funds and inventory
   * checks pass.
   */
  lemma SubscribeErrorOrder(s: Store, role: Option<string>, investorId: string, isin: string, units: int)
    ensures var r := Subscribe(s, role, investorId, isin, units);
      && (!Authorized(role) ==> r == Failure(Unauthorized))
      && (Authorized(role) && investorId !in s ==> r == Failure(InvestorNotFound))
      && (Authorized(role) && investorId in s && isin !in s ==> r == Failure(AssetNotFound))
    ensures Authorized(role) && WellTyped(s, investorId, isin) ==>
      var r := Subscribe(s, role, investorId, isin, units);
      var investor := s[investorId].investor;
      var asset := s[isin].asset;
      var totalCost := units * asset.pricePerUnit;
      && (investor.balance < totalCost ==> r == Failure(InsufficientFunds))
      && (investor.balance >= totalCost && units > asset.availableUnits ==> r == Failure(InsufficientInventory))
      && (r.Success? <==> investor.balance >= totalCost && units <= asset.availableUnits)
  {
  }

  /**
   * Redeem checks, in this order: role, investor present, asset present, holdings. With both
   * records of the right kind it succeeds exactly when the investor holds at least `units`.
   */
  lemma RedeemErrorOrder(s: Store, role: Option<string>, investorId: string, isin: string, units: int)
    ensures var r := Redeem(s, role, investorId, isin, units);
      && (!Authorized(role) ==> r == Failure(Unauthorized))
      && (Authorized(role) && investorId !in s ==> r == Failure(InvestorNotFound))
      && (Authorized(role) && investorId in s && isin !in s ==> r == Failure(AssetNotFound))
    ensures Authorized(role) && WellTyped(s, investorId, isin) ==>
      var r := Redeem(s, role, investorId, isin, units);
      var held := Held(s[investorId].investor.subscribed, isin);
      && (held < units ==> r == Failure(InsufficientHoldings))
      && (r.Success? <==> units <= held)
  {
  }

  // ---------------------------------------------------------------- effects

  /**
   * A successful Subscribe moves `units` into the investor's holding of `isin` (an absent entry
   * counting as 0), charges units * price to the balance and takes `units` from the asset's
   * inventory; every other field, holdings entry and key is as before.
   */
  lemma SubscribeEffect(s: Store, role: Option<string>, investorId: string, isin: string, units: int)
    requires WellTyped(s, investorId, isin)
    requires Subscribe(s, role, investorId, isin, units).Success?
    ensures var s' := Subscribe(s, role, investorId, isin, units).value;
      var investor := s[investorId].investor;
      var asset := s[isin].asset;
      && s'[investorId].InvestorRec? && s'[isin].AssetRec?
      && s'[investorId].investor.investorId == investor.investorId
      && s'[investorId].investor.balance == investor.balance - units * asset.pricePerUnit
      && Held(s'[investorId].investor.subscribed, isin) == Held(investor.subscribed, isin) + units
      && s'[investorId].investor.subscribed.Keys == investor.subscribed.Keys + {isin}
      && (forall j :: j in investor.subscribed && j != isin ==>
            s'[investorId].investor.subscribed[j] == investor.subscribed[j])
      && s'[isin].asset == asset.(availableUnits := asset.availableUnits - units)
      && (forall k :: k in s && k != investorId && k != isin ==> s'[k] == s[k])
  {
  }

  /**
   * A successful Redeem takes `units` from the investor's holding of `isin`, credits
   * units * price to the balance and returns `units` to the asset's inventory; every other
   * field, holdings entry and key is as before.
   */
  lemma RedeemEffect(s: Store, role: Option<string>, investorId: string, isin: string, units: int)
    requires WellTyped(s, investorId, isin)
    requires Redeem(s, role, investorId, isin, units).Success?
    ensures var s' := Redeem(s, role, investorId, isin, units).value;
      var investor := s[investorId].investor;
      var asset := s[isin].asset;
      && s'[investorId].InvestorRec? && s'[isin].AssetRec?
      && s'[investorId].investor.investorId == investor.investorId
      && s'[investorId].investor.balance == investor.balance + units * asset.pricePerUnit
      && Held(s'[investorId].investor.subscribed, isin) == Held(investor.subscribed, isin) - units
      && s'[investorId].investor.subscribed.Keys == investor.subscribed.Keys + {isin}
      && (forall j :: j in investor.subscribed && j != isin ==>
            s'[investorId].investor.subscribed[j] == investor.subscribed[j])
      && s'[isin].asset == asset.(availableUnits := asset.availableUnits + units)
      && (forall k :: k in s && k != investorId && k != isin ==> s'[k] == s[k])
  {
  }

  // ---------------------------------------------------------------- conservation

  /** Units held plus units available, and balance plus the value of the holding at the asset's price. */
  function UnitsInPlay(s: Store, investorId: string, isin: string): int
    requires WellTyped(s, investorId, isin)
  {
    Held(s[investorId].investor.subscribed, isin) + s[isin].asset.availableUnits
  }

  function Wealth(s: Store, investorId: string, isin: string): int
    requires WellTyped(s, investorId, isin)
  {
    s[investorId].investor.balance + Held(s[investorId].investor.subscribed, isin) * s[isin].asset.pricePerUnit
  }

  /** Subscribe, for any integer `units`, conserves units in play and the investor's wealth at the asset's price. */
  lemma SubscribeConserves(s: Store, role: Option<string>, investorId: string, isin: string, units: int)
    requires WellTyped(s, investorId, isin)
    requires Subscribe(s, role, investorId, isin, units).Success?
    ensures var s' := Subscribe(s, role, investorId, isin, units).value;
      && WellTyped(s', investorId, isin)
      && s'[isin].asset.pricePerUnit == s[isin].asset.pricePerUnit
      && UnitsInPlay(s', investorId, isin) == UnitsInPlay(s, investorId, isin)
      && Wealth(s', investorId, isin) == Wealth(s, investorId, isin)
  {
    var s' := Subscribe(s, role, investorId, isin, units).value;
    var held := Held(s[investorId].investor.subscribed, isin);
    var price := s[isin].asset.pricePerUnit;
    SubscribeEffect(s, role, investorId, isin, units);
    assert (held + units) * price == held * price + units * price;
  }

  /** Redeem, for any integer `units`, conserves the same two quantities. */
  lemma RedeemConserves(s: Store, role: Option<string>, investorId: string, isin: string, units: int)
    requires WellTyped(s, investorId, isin)
    requires Redeem(s, role, investorId, isin, units).Success?
    ensures var s' := Redeem(s, role, investorId, isin, units).value;
      && WellTyped(s', investorId, isin)
      && s'[isin].asset.pricePerUnit == s[isin].asset.pricePerUnit
      && UnitsInPlay(s', investorId, isin) == UnitsInPlay(s, investorId, isin)
      && Wealth(s', investorId, isin) == Wealth(s, investorId, isin)
  {
    var held := Held(s[investorId].investor.subscribed, isin);
    var price := s[isin].asset.pricePerUnit;
    RedeemEffect(s, role, investorId, isin, units);
    assert (held - units) * price == held * price - units * price;
  }

  // ---------------------------------------------------------------- round trip

  /**
   * Redeeming what was just subscribed succeeds whenever the holding of `isin` was not negative,
   * and then restores the store, except that a holdings entry for `isin` that was absent is now
   * present with 0 units (and the store is restored exactly when the entry was present). From a
   * negative holding the redeem fails for insufficient holdings.
   */
  lemma SubscribeRedeemRoundTrip(s: Store, role: Option<string>, investorId: string, isin: string, units: int)
    requires WellTyped(s, investorId, isin)
    requires Subscribe(s, role, investorId, isin, units).Success?
    ensures var s1 := Subscribe(s, role, investorId, isin, units).value;
      var investor := s[investorId].investor;
      var held := Held(investor.subscribed, isin);
      && (held >= 0 ==> Redeem(s1, role, investorId, isin, units)
                          == Success(s[investorId := InvestorRec(investor.(subscribed := investor.subscribed[isin := held]))]))
      && (held >= 0 && isin in investor.subscribed ==> Redeem(s1, role, investorId, isin, units) == Success(s))
      && (held < 0 ==> Redeem(s1, role, investorId, isin, units) == Failure(InsufficientHoldings))
  {
    var s1 := Subscribe(s, role, investorId, isin, units).value;
    var investor := s[investorId].investor;
    var held := Held(investor.subscribed, isin);
    SubscribeEffect(s, role, investorId, isin, units);
    assert Authorized(role) && WellTyped(s1, investorId, isin);
    assert Held(InvestorView(s1[investorId]).subscribed, isin) == held + units;
    if held >= 0 {
      var restored := s[investorId := InvestorRec(investor.(subscribed := investor.subscribed[isin := held]))];
      var s2 := Redeem(s1, role, investorId, isin, units);
      assert s2.Success?;
      RedeemEffect(s1, role, investorId, isin, units);
      var investor2 := s2.value[investorId].investor;
      assert investor2.subscribed == investor.subscribed[isin := held];
      assert investor2 == investor.(subscribed := investor.subscribed[isin := held]);
      assert s2.value[isin] == s[isin];
      assert s2.value == restored;
      if isin in investor.subscribed {
        assert investor.subscribed[isin := held] == investor.subscribed;
        assert restored == s;
      }
    }
  }

  // ---------------------------------------------------------------- the shared keyspace

  /**
   * Subscribe only succeeds when the investor key holds an investor record. When the investor
   * identifier and the ISIN are the same key, a successful Subscribe (possible only with
   * units <= 0) replaces the investor by an empty asset whose available units are -units.
   */
  lemma SubscribeSharedKey(s: Store, role: Option<string>, investorId: string, isin: string, units: int)
    requires Subscribe(s, role, investorId, isin, units).Success?
    ensures s[investorId].InvestorRec?
    ensures investorId == isin ==>
      && units <= 0
      && s[investorId].investor.balance >= 0
      && Subscribe(s, role, investorId, isin, units).value == s[isin := AssetRec(Asset("", "", "", 0, 0, -units))]
    ensures investorId != isin && s[isin].InvestorRec? ==>
      var investor := s[investorId].investor;
      && units <= 0
      && investor.balance >= 0
      && Subscribe(s, role, investorId, isin, units).value ==
        s[investorId := InvestorRec(investor.(subscribed := investor.subscribed[isin := Held(investor.subscribed, isin) + units]))]
         [isin := AssetRec(Asset("", "", "", 0, 0, -units))]
  {
  }

  /**
   * The same keyspace misuse on the redeem side. A successful Redeem needs an investor record
   * under the investor key. When the ISIN is that same key, the asset write replaces the
   * investor by an empty asset whose available units are `units`; when the ISIN is another
   * investor's key, that investor is replaced the same way and the redeemer is paid nothing.
   */
  lemma RedeemSharedKey(s: Store, role: Option<string>, investorId: string, isin: string, units: int)
    requires Redeem(s, role, investorId, isin, units).Success?
    ensures s[investorId].InvestorRec?
    ensures units <= Held(s[investorId].investor.subscribed, isin)
    ensures investorId == isin ==>
      Redeem(s, role, investorId, isin, units).value == s[isin := AssetRec(Asset("", "", "", 0, 0, units))]
    ensures investorId != isin && s[isin].InvestorRec? ==>
      var investor := s[investorId].investor;
      Redeem(s, role, investorId, isin, units).value ==
        s[investorId := InvestorRec(investor.(subscribed := investor.subscribed[isin := Held(investor.subscribed, isin) - units]))]
         [isin := AssetRec(Asset("", "", "", 0, 0, units))]
  {
  }

  // ---------------------------------------------------------------- solvency

  ghost predicate SolventRecord(r: Record) {
    match r
    case InvestorRec(i) => i.balance >= 0 && forall j :: j in i.subscribed ==> i.subscribed[j] >= 0
    case AssetRec(a) => a.availableUnits >= 0 && a.pricePerUnit >= 0
  }

  /** No negative balance, holding, inventory or price anywhere in the store. */
  ghost predicate Solvent(s: Store) {
    forall k :: k in s ==> SolventRecord(s[k])
  }

  /** One transaction as the ledger host applies it: a failed one commits nothing. */
  datatype Call =
    | CreateUserCall(investorId: string, balance: int)
    | RegisterAssetCall(isin: string, companyName: string, assetType: string, totalUnits: int, pricePerUnit: int)
    | SubscribeCall(role: Option<string>, investorId: string, isin: string, units: int)
    | RedeemCall(role: Option<string>, investorId: string, isin: string, units: int)

  function Apply(s: Store, c: Call): Store {
    match c
    case CreateUserCall(id, balance) => CreateUser(s, id, balance)
    case RegisterAssetCall(isin, name, kind, total, price) => RegisterAsset(s, isin, name, kind, total, price)
    case SubscribeCall(role, id, isin, units) =>
      (match Subscribe(s, role, id, isin, units) case Success(s') => s' case Failure(_) => s)
    case RedeemCall(role, id, isin, units) =>
      (match Redeem(s, role, id, isin, units) case Success(s') => s' case Failure(_) => s)
  }

  /** Transactions applied one after the other. */
  function Run(s: Store, calls: seq<Call>): Store
    decreases |calls|
  {
    if calls == [] then s else Run(Apply(s, calls[0]), calls[1..])
  }

  /** The arguments callers are expected to pass; the contract itself checks none of them. */
  predicate NonNegativeArgs(c: Call) {
    match c
    case CreateUserCall(_, balance) => balance >= 0
    case RegisterAssetCall(_, _, _, total, price) => total >= 0 && price >= 0
    case SubscribeCall(_, _, _, units) => units >= 0
    case RedeemCall(_, _, _, units) => units >= 0
  }

  /** A successful Subscribe with units >= 0 keeps the store solvent (wrong-kind records included). */
  lemma SubscribeKeepsSolvent(s: Store, role: Option<string>, investorId: string, isin: string, units: int)
    requires Solvent(s) && units >= 0
    requires Subscribe(s, role, investorId, isin, units).Success?
    ensures Solvent(Subscribe(s, role, investorId, isin, units).value)
  {
    var s' := Subscribe(s, role, investorId, isin, units).value;
    assert SolventRecord(s[investorId]) && SolventRecord(s[isin]);
    forall k | k in s' ensures SolventRecord(s'[k]) {
      if k != investorId && k != isin {
        assert SolventRecord(s[k]);
      }
    }
  }

  /** A successful Redeem with units >= 0 keeps the store solvent (wrong-kind records included). */
  lemma RedeemKeepsSolvent(s: Store, role: Option<string>, investorId: string, isin: string, units: int)
    requires Solvent(s) && units >= 0
    requires Redeem(s, role, investorId, isin, units).Success?
    ensures Solvent(Redeem(s, role, investorId, isin, units).value)
  {
    var s' := Redeem(s, role, investorId, isin, units).value;
    assert SolventRecord(s[investorId]) && SolventRecord(s[isin]);
    forall k | k in s' ensures SolventRecord(s'[k]) {
      if k != investorId && k != isin {
        assert SolventRecord(s[k]);
      }
    }
  }

  /** One transaction with non-negative arguments keeps a solvent store solvent. */
  lemma ApplyKeepsSolvent(s: Store, c: Call)
    requires Solvent(s) && NonNegativeArgs(c)
    ensures Solvent(Apply(s, c))
  {
    match c
    case CreateUserCall(id, balance) =>
      assert SolventRecord(InvestorRec(Investor(id, balance, map[])));
    case RegisterAssetCall(isin, name, kind, total, price) =>
      assert SolventRecord(AssetRec(Asset(isin, name, kind, total, price, total)));
    case SubscribeCall(role, id, isin, units) =>
      if Subscribe(s, role, id, isin, units).Success? {
        SubscribeKeepsSolvent(s, role, id, isin, units);
      }
    case RedeemCall(role, id, isin, units) =>
      if Redeem(s, role, id, isin, units).Success? {
        RedeemKeepsSolvent(s, role, id, isin, units);
      }
  }

  /** Any sequence of transactions with non-negative arguments keeps a solvent store solvent. */
  lemma {:induction false} SolventRun(s: Store, calls: seq<Call>)
    requires Solvent(s)
    requires forall i :: 0 <= i < |calls| ==> NonNegativeArgs(calls[i])
    ensures Solvent(Run(s, calls))
    decreases |calls|
  {
    if calls != [] {
      ApplyKeepsSolvent(s, calls[0]);
      assert forall i :: 0 <= i < |calls[1..]| ==> NonNegativeArgs(calls[1..][i]) by {
        forall i | 0 <= i < |calls[1..]| ensures NonNegativeArgs(calls[1..][i]) {
          assert calls[1..][i] == calls[i + 1];
        }
      }
      SolventRun(Apply(s, calls[0]), calls[1..]);
    }
  }

  /**
   * The code does not keep available units within total units: re-registering an asset resets
   * its inventory while holdings remain, and redeeming them then pushes available units past
   * the total.
   */
  lemma AvailableCanExceedTotal()
    ensures var s0 := CreateUser(map[], "i", 100);
      var s1 := RegisterAsset(s0, "a", "", "", 10, 1);
      var s2 := Subscribe(s1, Some(InvestorRole), "i", "a", 10);
      s2.Success? &&
      var s3 := RegisterAsset(s2.value, "a", "", "", 10, 1);
      var s4 := Redeem(s3, Some(InvestorRole), "i", "a", 10);
      && s4.Success?
      && s4.value["a"].asset.availableUnits == 20 > s4.value["a"].asset.totalUnits
  {
    assert "i" != "a";
  }

  // ---------------------------------------------------------------- portfolio

  /** A duplicate-free listing of a key set is exactly as long as the set is large. */
  lemma {:induction false} EnumerationLength(order: seq<string>, keys: set<string>)
    requires Enumerates(order, keys)
    ensures |order| == |keys|
    decreases |order|
  {
    if order != [] {
      var n := |order| - 1;
      var last := order[n];
      assert last in keys;
      assert forall k :: k in order[..n] <==> k in keys - {last} by {
        forall k ensures k in order[..n] <==> k in keys - {last} {
          if k in order[..n] {
            var i :| 0 <= i < n && order[..n][i] == k;
            assert order[i] == k && i < n;
          }
          if k in keys - {last} {
            assert k in order;
            var i :| 0 <= i < |order| && order[i] == k;
            assert i != n;
            assert order[..n][i] == k;
          }
        }
      }
      EnumerationLength(order[..n], keys - {last});
    }
  }

  /** Every holdings entry's line is among the lines of an enumeration of the holdings. */
  lemma LinesCoverHoldings(h: map<string, int>, order: seq<string>)
    requires Enumerates(order, h.Keys)
    ensures forall k :: k in h ==> HoldingLine(k, h[k]) in HoldingLines(h, order)
  {
    var lines := HoldingLines(h, order);
    forall k | k in h ensures HoldingLine(k, h[k]) in lines {
      assert k in order;
      var i :| 0 <= i < |order| && order[i] == k;
      assert lines[i] == HoldingLine(k, h[k]);
    }
  }

  /** Every line of an enumeration of the holdings is some entry's line. */
  lemma LinesComeFromHoldings(h: map<string, int>, order: seq<string>, i: int)
    requires Enumerates(order, h.Keys)
    requires 0 <= i < |HoldingLines(h, order)|
    ensures exists k :: k in h && HoldingLines(h, order)[i] == HoldingLine(k, h[k])
  {
    var k := order[i];
    assert k in h;
    assert HoldingLines(h, order)[i] == HoldingLine(k, h[k]);
  }

  /**
   * The portfolio summary lists each holdings entry exactly once, zero-unit entries included:
   * as many lines as entries, every entry's line among them, and every line some entry's.
   */
  lemma PortfolioListsEveryHolding(investor: Investor, order: seq<string>)
    requires Enumerates(order, investor.subscribed.Keys)
    ensures var lines := HoldingLines(investor.subscribed, order);
      && PortfolioText(investor, order) == Header(investor.investorId, investor.balance) + Concat(lines)
      && |lines| == |investor.subscribed|
      && (forall k :: k in investor.subscribed ==> HoldingLine(k, investor.subscribed[k]) in lines)
      && (forall i :: 0 <= i < |lines| ==> exists k :: k in investor.subscribed && lines[i] == HoldingLine(k, investor.subscribed[k]))
  {
    EnumerationLength(order, investor.subscribed.Keys);
    LinesCoverHoldings(investor.subscribed, order);
    forall i | 0 <= i < |HoldingLines(investor.subscribed, order)|
      ensures exists k ::
        k in investor.subscribed && HoldingLines(investor.subscribed, order)[i] == HoldingLine(k, investor.subscribed[k])
    {
      LinesComeFromHoldings(investor.subscribed, order, i);
    }
  }

  /** With a single holdings entry the summary is the header followed by that entry's line. */
  lemma PortfolioOfSingleHolding(investor: Investor, isin: string, order: seq<string>)
    requires investor.subscribed.Keys == {isin}
    requires Enumerates(order, investor.subscribed.Keys)
    ensures order == [isin]
    ensures PortfolioText(investor, order)
         == Header(investor.investorId, investor.balance) + HoldingLine(isin, investor.subscribed[isin])
  {
    EnumerationLength(order, investor.subscribed.Keys);
    assert order[0] in investor.subscribed.Keys;
    var line := HoldingLine(isin, investor.subscribed[isin]);
    assert HoldingLines(investor.subscribed, order) == [line];
    ConcatSingle(line);
  }

  /** An investor record with one holdings entry has exactly one possible portfolio. */
  lemma SingleHoldingPortfolio(s: Store, investorId: string, isin: string, r: Result<string, Error>)
    requires investorId in s && s[investorId].InvestorRec?
    requires s[investorId].investor.subscribed.Keys == {isin}
    requires IsPortfolio(s, investorId, r)
    ensures var investor := s[investorId].investor;
      r == Success(Header(investor.investorId, investor.balance) + HoldingLine(isin, investor.subscribed[isin]))
  {
    var investor := s[investorId].investor;
    var order :| Enumerates(order, investor.subscribed.Keys) && r == Success(PortfolioText(investor, order));
    PortfolioOfSingleHolding(investor, isin, order);
  }

  /** Right after CreateUser the only possible portfolio is the bare header: no holdings lines. */
  lemma CreateUserThenPortfolio(s: Store, investorId: string, balance: int, r: Result<string, Error>)
    ensures IsPortfolio(CreateUser(s, investorId, balance), investorId, r)
        <==> r == Success(Header(investorId, balance))
  {
    var s' := CreateUser(s, investorId, balance);
    var investor := Investor(investorId, balance, map[]);
    assert InvestorView(s'[investorId]) == investor;
    assert PortfolioText(investor, []) == Header(investorId, balance);
    forall order | Enumerates(order, investor.subscribed.Keys) ensures order == [] {
      EnumerationLength(order, investor.subscribed.Keys);
    }
    if r == Success(Header(investorId, balance)) {
      assert Enumerates([], investor.subscribed.Keys) && r == Success(PortfolioText(investor, []));
    }
  }

  /**
   * Right after RegisterAsset the whole supply is on offer: an authorized subscribe by another
   * key's investor succeeds exactly when the funds cover units * price and units <= totalUnits.
   */
  lemma RegisterThenSubscribe(s: Store, isin: string, companyName: string, assetType: string,
                              totalUnits: int, pricePerUnit: int,
                              role: Option<string>, investorId: string, units: int)
    requires Authorized(role)
    requires investorId != isin && investorId in s && s[investorId].InvestorRec?
    ensures var s1 := RegisterAsset(s, isin, companyName, assetType, totalUnits, pricePerUnit);
      var r := Subscribe(s1, role, investorId, isin, units);
      && (r.Success? <==> s[investorId].investor.balance >= units * pricePerUnit && units <= totalUnits)
      && (r.Success? ==> r.value[isin].asset.availableUnits == totalUnits - units)
  {
  }
}
