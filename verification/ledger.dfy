/**
 * AssetManagementContract (chaincode/assetcc.go:26-252) run against a ledger: the world state
 * is one keyed store shared by investors and assets, plus the events emitted so far. Each
 * method is one transaction, written as the source writes it: load the records into locals,
 * check, update the locals, put both records back, emit the event.
 */
module Chaincode {
  import opened Wrappers
  import opened Records
  import opened Format
  import Contract

  class Ledger {
    var store: Store
    var events: seq<Event>

    constructor ()
      ensures store == map[] && events == []
    {
      store := map[];
      events := [];
    }

    /** CreateUser (chaincode/assetcc.go:31-44). */
    method CreateUser(investorId: string, balance: int)
      modifies this
      ensures store == Contract.CreateUser(old(store), investorId, balance)
      ensures events == old(events)
    {
      var investor := Investor(investorId, balance, map[]);
      store := store[investorId := InvestorRec(investor)];
    }

    /** RegisterAsset (chaincode/assetcc.go:47-63). */
    method RegisterAsset(isin: string, companyName: string, assetType: string, totalUnits: int, pricePerUnit: int)
      modifies this
      ensures store == Contract.RegisterAsset(old(store), isin, companyName, assetType, totalUnits, pricePerUnit)
      ensures events == old(events)
    {
      var asset := Asset(isin, companyName, assetType, totalUnits, pricePerUnit, totalUnits);
      store := store[isin := AssetRec(asset)];
    }

    /**
     * SubscribeAsset (chaincode/assetcc.go:66-147). `role` is what the identity provider
     * answers for the caller's "role" attribute (None when the lookup fails).
     */
    method SubscribeAsset(role: Option<string>, investorId: string, isin: string, units: int) returns (r: Outcome<Error>)
      modifies this
      ensures match Contract.Subscribe(old(store), role, investorId, isin, units)
        case Success(s') =>
          r == Pass && store == s' && events == old(events) + [Event(SubscriptionEvent, investorId, units, isin)]
        case Failure(e) =>
          r == Fail(e) && store == old(store) && events == old(events)
    {
      if !Authorized(role) {
        return Fail(Unauthorized);
      }
      if investorId !in store {
        return Fail(InvestorNotFound);
      }
      var investorRecord := store[investorId];
      var investor := InvestorView(investorRecord);
      if isin !in store {
        return Fail(AssetNotFound);
      }
      var asset := AssetView(store[isin]);

      var totalCost := units * asset.pricePerUnit;
      if investor.balance < totalCost {
        return Fail(InsufficientFunds);
      }
      if units > asset.availableUnits {
        return Fail(InsufficientInventory);
      }

      if !HoldingsWritable(investorRecord) {
        return Fail(HoldingsMapNil);
      }
      investor := investor.(subscribed := investor.subscribed[isin := Held(investor.subscribed, isin) + units]);
      investor := investor.(balance := investor.balance - totalCost);
      asset := asset.(availableUnits := asset.availableUnits - units);

      store := store[investorId := InvestorRec(investor)];
      store := store[isin := AssetRec(asset)];
      events := events + [Event(SubscriptionEvent, investorId, units, isin)];
      r := Pass;
    }

    /** RedeemAsset (chaincode/assetcc.go:150-227). */
    method RedeemAsset(role: Option<string>, investorId: string, isin: string, units: int) returns (r: Outcome<Error>)
      modifies this
      ensures match Contract.Redeem(old(store), role, investorId, isin, units)
        case Success(s') =>
          r == Pass && store == s' && events == old(events) + [Event(RedemptionEvent, investorId, units, isin)]
        case Failure(e) =>
          r == Fail(e) && store == old(store) && events == old(events)
    {
      if !Authorized(role) {
        return Fail(Unauthorized);
      }
      if investorId !in store {
        return Fail(InvestorNotFound);
      }
      var investorRecord := store[investorId];
      var investor := InvestorView(investorRecord);
      if isin !in store {
        return Fail(AssetNotFound);
      }
      var asset := AssetView(store[isin]);

      if Held(investor.subscribed, isin) < units {
        return Fail(InsufficientHoldings);
      }

      if !HoldingsWritable(investorRecord) {
        return Fail(HoldingsMapNil);
      }
      investor := investor.(subscribed := investor.subscribed[isin := Held(investor.subscribed, isin) - units]);
      investor := investor.(balance := investor.balance + units * asset.pricePerUnit);
      asset := asset.(availableUnits := asset.availableUnits + units);

      store := store[investorId := InvestorRec(investor)];
      store := store[isin := AssetRec(asset)];
      events := events + [Event(RedemptionEvent, investorId, units, isin)];
      r := Pass;
    }

    /**
     * GetPortfolio (chaincode/assetcc.go:230-252): the header, then one line per holdings
     * entry. Go visits a map in an unspecified order; here each step takes any key not yet
     * visited, and the ghost `order` records the order taken.
     */
    method GetPortfolio(investorId: string) returns (r: Result<string, Error>)
      ensures Contract.IsPortfolio(store, investorId, r)
    {
      if investorId !in store {
        return Failure(InvestorNotFound);
      }
      var investor := InvestorView(store[investorId]);
      var holdings := investor.subscribed;

      var portfolio := Header(investor.investorId, investor.balance);
      var rest := holdings.Keys;
      ghost var order: seq<string> := [];
      while rest != {}
        invariant forall k :: k in order ==> k in holdings && k !in rest
        invariant forall k :: k in holdings ==> k in order || k in rest
        invariant rest <= holdings.Keys
        invariant forall i, j :: 0 <= i < j < |order| ==> order[i] != order[j]
        invariant portfolio == Contract.PortfolioText(investor, order)
        decreases rest
      {
        var isin :| isin in rest;
        Contract.PortfolioTextSnoc(investor, order, isin);
        portfolio := portfolio + HoldingLine(isin, holdings[isin]);
        order := order + [isin];
        rest := rest - {isin};
      }
      assert Enumerates(order, holdings.Keys);
      r := Success(portfolio);
    }
  }
}
