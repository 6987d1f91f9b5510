/**
 * The five operations of AssetManagementContract (chaincode/assetcc.go:31-252) as functions
 * of the store before the transaction. A transaction that fails commits nothing, so a
 * transition either fails with an error or gives the whole store after it.
 */
module Contract {
  import opened Wrappers
  import opened Records
  import opened Format

  /**
   * CreateUser: an investor with the given balance and no holdings, under its identifier.
   * There is no existence check, so whatever the key held before is replaced.
   */
  function CreateUser(s: Store, investorId: string, balance: int): (s': Store)
    ensures s'.Keys == s.Keys + {investorId}
    ensures s'[investorId] == InvestorRec(Investor(investorId, balance, map[]))
    ensures forall k :: k in s && k != investorId ==> s'[k] == s[k]
  {
    s[investorId := InvestorRec(Investor(investorId, balance, map[]))]
  }

  /**
   * RegisterAsset: an asset whose available units start at its total units, under its ISIN.
   * There is no duplicate check, so a registered asset is reset.
   */
  function RegisterAsset(s: Store, isin: string, companyName: string, assetType: string,
                         totalUnits: int, pricePerUnit: int): (s': Store)
    ensures s'.Keys == s.Keys + {isin}
    ensures s'[isin] == AssetRec(Asset(isin, companyName, assetType, totalUnits, pricePerUnit, totalUnits))
    ensures forall k :: k in s && k != isin ==> s'[k] == s[k]
  {
    s[isin := AssetRec(Asset(isin, companyName, assetType, totalUnits, pricePerUnit, totalUnits))]
  }

  /**
   * SubscribeAsset: the role check, the two loads, the funds check, the inventory check,
   * then the investor and the asset written back (investor first, so when both
   * identifiers are the same key the asset write is the one that stays).
   */
  function Subscribe(s: Store, role: Option<string>, investorId: string, isin: string, units: int): (r: Result<Store, Error>)
    ensures r.Success? ==> r.value.Keys == s.Keys
  {
    if !Authorized(role) then Failure(Unauthorized)
    else if investorId !in s then Failure(InvestorNotFound)
    else if isin !in s then Failure(AssetNotFound)
    else
      var investor := InvestorView(s[investorId]);
      var asset := AssetView(s[isin]);
      var totalCost := units * asset.pricePerUnit;
      if investor.balance < totalCost then Failure(InsufficientFunds)
      else if units > asset.availableUnits then Failure(InsufficientInventory)
      else if !HoldingsWritable(s[investorId]) then Failure(HoldingsMapNil)
      else
        var investor' := investor.(subscribed := investor.subscribed[isin := Held(investor.subscribed, isin) + units],
                                   balance := investor.balance - totalCost);
        var asset' := asset.(availableUnits := asset.availableUnits - units);
        Success(s[investorId := InvestorRec(investor')][isin := AssetRec(asset')])
  }

  /**
   * RedeemAsset: the role check, the two loads, the holdings check, then the investor and
   * the asset written back in the same order as Subscribe.
   */
  function Redeem(s: Store, role: Option<string>, investorId: string, isin: string, units: int): (r: Result<Store, Error>)
    ensures r.Success? ==> r.value.Keys == s.Keys
  {
    if !Authorized(role) then Failure(Unauthorized)
    else if investorId !in s then Failure(InvestorNotFound)
    else if isin !in s then Failure(AssetNotFound)
    else
      var investor := InvestorView(s[investorId]);
      var asset := AssetView(s[isin]);
      if Held(investor.subscribed, isin) < units then Failure(InsufficientHoldings)
      else if !HoldingsWritable(s[investorId]) then Failure(HoldingsMapNil)
      else
        var investor' := investor.(subscribed := investor.subscribed[isin := Held(investor.subscribed, isin) - units],
                                   balance := investor.balance + units * asset.pricePerUnit);
        var asset' := asset.(availableUnits := asset.availableUnits + units);
        Success(s[investorId := InvestorRec(investor')][isin := AssetRec(asset')])
  }

  /** The portfolio summary of `investor` with its holdings visited in `order`. */
  function PortfolioText(investor: Investor, order: seq<string>): (text: string)
    requires forall k :: k in order ==> k in investor.subscribed
    ensures var header := Header(investor.investorId, investor.balance);
      |text| >= |header| && text[..|header|] == header
    ensures order == [] ==> text == Header(investor.investorId, investor.balance)
  {
    Header(investor.investorId, investor.balance) + Concat(HoldingLines(investor.subscribed, order))
  }

  /** Visiting one more holdings entry appends its line to the summary. */
  lemma PortfolioTextSnoc(investor: Investor, order: seq<string>, isin: string)
    requires forall k :: k in order ==> k in investor.subscribed
    requires isin in investor.subscribed
    ensures PortfolioText(investor, order + [isin])
         == PortfolioText(investor, order) + HoldingLine(isin, investor.subscribed[isin])
  {
    var h := investor.subscribed;
    HoldingLinesSnoc(h, order, isin);
    ConcatSnoc(HoldingLines(h, order), HoldingLine(isin, h[isin]));
  }

  /**
   * `r` is a possible answer of GetPortfolio: "investor not found" for a missing key, else the
   * summary of the decoded investor with its holdings in some iteration order of the map.
   */
  ghost predicate IsPortfolio(s: Store, investorId: string, r: Result<string, Error>) {
    if investorId !in s then r == Failure(InvestorNotFound)
    else
      var investor := InvestorView(s[investorId]);
      exists order :: Enumerates(order, investor.subscribed.Keys) && r == Success(PortfolioText(investor, order))
  }
}
