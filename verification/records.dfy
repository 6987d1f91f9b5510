/**
 * The ledger's records (chaincode/assetcc.go:11-24), the shared keyspace they live in,
 * the events the contract emits and the errors it returns.
 */
module Records {
  import opened Wrappers

  /** An asset, stored under its ISIN. */
  datatype Asset = Asset(
    isin: string,
    companyName: string,
    assetType: string,
    totalUnits: int,
    pricePerUnit: int,
    availableUnits: int)

  /** An investor, stored under its identifier; `subscribed` maps an ISIN to the units held. */
  datatype Investor = Investor(investorId: string, balance: int, subscribed: map<string, int>)

  /**
   * What one key of the store holds. Investors and assets share one keyspace: an investor
   * identifier and an ISIN are both plain keys.
   */
  datatype Record = InvestorRec(investor: Investor) | AssetRec(asset: Asset)

  type Store = map<string, Record>

  /** The notification a successful Subscribe or Redeem emits: its name and what it describes. */
  datatype Event = Event(name: string, investorId: string, units: int, isin: string)

  const SubscriptionEvent: string := "SubscriptionEvent"
  const RedemptionEvent: string := "RedemptionEvent"

  /** The only role allowed to subscribe and redeem. */
  const InvestorRole: string := "Investor"

  datatype Error =
    | Unauthorized           // role attribute missing, unreadable or not "Investor"
    | InvestorNotFound
    | AssetNotFound
    | InsufficientFunds
    | InsufficientInventory
    | InsufficientHoldings
    | HoldingsMapNil         // runtime panic: assignment to an entry of a nil holdings map

  /** The caller may subscribe and redeem: the role lookup succeeded and gave "Investor". */
  predicate Authorized(role: Option<string>): (ok: bool)
    ensures role == None ==> !ok
    ensures role.Some? ==> (ok <==> role.value == InvestorRole)
  {
    role == Some(InvestorRole)
  }

  /**
   * A record decoded as an investor. The JSON field names of the two kinds are disjoint,
   * so decoding an asset document as an investor matches no field and leaves the zero
   * investor, whose holdings map is nil (it reads as empty).
   */
  function InvestorView(r: Record): (i: Investor)
    ensures r.InvestorRec? ==> i == r.investor
    ensures r.AssetRec? ==> i.investorId == "" && i.balance == 0 && i.subscribed == map[]
  {
    match r
    case InvestorRec(i) => i
    case AssetRec(_) => Investor("", 0, map[])
  }

  /** A record decoded as an asset; an investor document decodes to the zero asset. */
  function AssetView(r: Record): (a: Asset)
    ensures r.AssetRec? ==> a == r.asset
    ensures r.InvestorRec? ==>
      && a.isin == "" && a.companyName == "" && a.assetType == ""
      && a.totalUnits == 0 && a.pricePerUnit == 0 && a.availableUnits == 0
  {
    match r
    case AssetRec(a) => a
    case InvestorRec(_) => Asset("", "", "", 0, 0, 0)
  }

  /** The decoded investor has an allocated holdings map, so an entry can be assigned. */
  predicate HoldingsWritable(r: Record): (ok: bool)
    ensures r.InvestorRec? ==> ok
    ensures ok ==> r == InvestorRec(InvestorView(r))
    ensures !ok ==> InvestorView(r).subscribed == map[]
  {
    r.InvestorRec?
  }

  /** Units held of `isin`; an absent entry reads as 0, as Go's map index does. */
  function Held(holdings: map<string, int>, isin: string): (n: int)
    ensures isin in holdings ==> n == holdings[isin]
    ensures isin !in holdings ==> n == 0
  {
    if isin in holdings then holdings[isin] else 0
  }
}
