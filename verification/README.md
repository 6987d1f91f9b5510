# Asset-management chaincode, modelled in Dafny

This project models the accounting contract of a tokenized-asset ledger (`AssetManagementContract`
in `chaincode/assetcc.go`). Investors hold a cash balance and per-ISIN unit holdings. Assets have a
total supply, a price per unit and an available inventory. Both kinds of record live in one keyed
store: an investor identifier and an ISIN are both plain keys. The contract has five operations.
`CreateUser` and `RegisterAsset` write records. `SubscribeAsset` and `RedeemAsset` check the
caller's role, load an investor and an asset, check funds, inventory or holdings, update both
records and emit one event. `GetPortfolio` formats an investor's holdings as text.

Layout:

- `wrappers.dfy`: `Option`, `Result`, `Outcome` (the Go `error` results).
- `records.dfy`: `Asset`, `Investor`, the shared-keyspace `Record`, `Event`, `Error`, and how a
  record is decoded as an investor or as an asset.
- `format.dfy`: Go's `%d`, proved to round-trip through its decimal value, and the lines of the
  portfolio text.
- `contract.dfy`: each operation as a function of the store before the transaction. A transition
  either fails with an error or gives the whole store after it.
- `ledger.dfy`: class `Ledger`, holding the store (`map<string, Record>`) and the event log
  (`seq<Event>`). Its methods follow the Go code step by step: load into locals, check, update the
  locals, put both records back, emit the event. Each method's postcondition ties the new store
  and event log to the function in `contract.dfy`. `GetPortfolio` builds its text with a loop
  over the holdings.
- `properties.dfy`: the lemmas. They cover the error order, the exact effects, conservation, the
  Subscribe/Redeem round trip, the shared keyspace, solvency over any transaction sequence, and
  what the portfolio lists.
- `driver.dfy`: the client's fixed script (`client/client.go`) run against a fresh `Ledger`.

Modelling decisions:

- **Role.** The caller's role attribute is a parameter `Option<string>`; `None` means the lookup
  failed. An absent attribute and a failed lookup both fail the `"Investor"` check.
- **Compilation.** As written, the chaincode does not compile. Lines 68 and 153 take two results
  from the identity library's `GetAttributeValue`, which returns three (value, found, error).
  The imports `bytes` and `time` are unused. The model follows the evident intent: a failed
  lookup is refused (`None`), and a missing attribute reads as `""` and is refused too
  (`Some("")`).
- **Shared keyspace.** Records are abstract values, not JSON. The JSON field names of investors
  and assets are disjoint, so when a key holds the other kind of record, Go's `json.Unmarshal`
  gives the zero struct. `InvestorView` and `AssetView` model exactly that. A zero investor's
  holdings map is nil. Go panics when code assigns to an entry of a nil map, which happens after
  the funds/inventory (or holdings) checks pass and before any write. That panic is the error
  `HoldingsMapNil`, and nothing is written.
- **Same key for investor and asset.** When `investorID == isin`, both writes go to one key and
  the asset write, which comes second, stays. `Properties.SubscribeSharedKey` shows the result:
  the investor is replaced by an empty asset. The same happens when the ISIN is another
  investor's identifier: that record decodes as the zero asset (price 0, nothing available), so
  a subscribe can succeed only with 0 or fewer units (it then also needs a non-negative
  balance); it costs nothing and overwrites the other investor with an empty asset.
  `Properties.SubscribeSharedKey` states both cases. `Properties.RedeemSharedKey` states the
  same two cases for a redeem: it pays nothing, and the overwritten record becomes an empty
  asset whose available units are the redeemed units.
- **Unit counts.** Zero and negative `units` are accepted, as in the code. The invariant lemmas
  assume non-negative arguments; the conservation lemmas hold for every integer.
- **Portfolio line order.** Go visits a map in an unspecified order. `GetPortfolio` therefore
  picks any unvisited key at each step, and its postcondition says the text is the header plus
  one line per holdings entry in some duplicate-free order of the keys.

What the code does and does not guarantee, as modelled:

- The code does not keep `0 <= available <= total`. Re-registering an asset resets its inventory
  while holdings remain, and a later redeem pushes the inventory past the total
  (`Properties.AvailableCanExceedTotal`).
- No operation checks the sign of its arguments. Balances, holdings, inventories and prices
  stay non-negative when every argument is non-negative (`Properties.SolventRun`).
- A subscribe followed by a redeem of the same units restores the store only when the holding
  was not negative. An absent holdings entry comes back present with 0 units.
- The portfolio line is `- Asset: <isin>, Units: <n>`. Lines appear in map iteration order, not
  sorted.

## Model

| member | source | states |
|---|---|---|
| `Contract.CreateUser` | chaincode/assetcc.go:31-44 | the key set grows by the investor identifier only; that key now holds an investor with the given balance and empty holdings, whatever it held before; every other key keeps its record |
| `Chaincode.Ledger.CreateUser` | chaincode/assetcc.go:31-44 | the store becomes the one `Contract.CreateUser` gives; the event log is unchanged |
| `Contract.RegisterAsset` | chaincode/assetcc.go:47-63 | the key set grows by the ISIN only; that key now holds the asset with available units equal to total units and the other fields as given; every other key keeps its record |
| `Chaincode.Ledger.RegisterAsset` | chaincode/assetcc.go:47-63 | the store becomes the one `Contract.RegisterAsset` gives; the event log is unchanged |
| `Contract.Subscribe` | chaincode/assetcc.go:66-147 | a successful subscribe neither creates nor deletes a key |
| `Chaincode.Ledger.SubscribeAsset` | chaincode/assetcc.go:66-147 | on success: returns nil, commits the store `Contract.Subscribe` gives and appends exactly one SubscriptionEvent (investor, units, isin); on each error: returns that error and leaves store and event log unchanged |
| `Contract.Redeem` | chaincode/assetcc.go:150-227 | a successful redeem neither creates nor deletes a key |
| `Chaincode.Ledger.RedeemAsset` | chaincode/assetcc.go:150-227 | on success: returns nil, commits the store `Contract.Redeem` gives and appends exactly one RedemptionEvent; on each error: returns it and changes nothing |
| `Chaincode.Ledger.GetPortfolio` | chaincode/assetcc.go:230-252 | "investor not found" for a missing key, and it never writes; otherwise the header (the decoded record's identifier and balance) followed by one line per holdings entry, for some duplicate-free order of the holdings keys |
| `Properties.SubscribeErrorOrder` | chaincode/assetcc.go:68-112 | the role check comes first, then a missing investor, then a missing asset; with both records present and of the right kind, insufficient funds comes before insufficient inventory, and success holds exactly when balance >= units * price and units <= available |
| `Properties.RedeemErrorOrder` | chaincode/assetcc.go:153-192 | role, then investor, then asset; with both records of the right kind, insufficient holdings exactly when the holding (absent = 0) is below units, and success otherwise |
| `Properties.SubscribeEffect` | chaincode/assetcc.go:114-119 | a successful subscribe raises the holding of the ISIN by units (absent = 0), lowers the balance by units * price and the available units by units; every other field, holdings entry and key is unchanged |
| `Properties.RedeemEffect` | chaincode/assetcc.go:194-199 | a successful redeem lowers the holding by units, raises the balance by units * price and the available units by units; everything else is unchanged |
| `Properties.SubscribeConserves` | chaincode/assetcc.go:104-119 | for any integer units, holding + available and balance + holding * price are the same after a successful subscribe, and the price is unchanged |
| `Properties.RedeemConserves` | chaincode/assetcc.go:190-199 | the same two quantities are conserved by a successful redeem, for any integer units |
| `Properties.SubscribeRedeemRoundTrip` | chaincode/assetcc.go:104-199 | redeeming the units just subscribed succeeds iff the earlier holding was not negative; it then restores the store, except that an absent holdings entry is now present with 0 (exact restoration when the entry existed); from a negative holding it fails with insufficient holdings |
| `Properties.SubscribeSharedKey` | chaincode/assetcc.go:97-138 | a successful subscribe needs an investor record under the investor key; when investor identifier and ISIN are the same key it succeeds only for units <= 0 and a non-negative balance and replaces the investor with an empty asset whose available units are -units; when the ISIN is another investor's key it succeeds only for units <= 0 and a non-negative balance, records the units in the subscriber's holdings at no cost, and replaces that other investor with an empty asset whose available units are -units |
| `Properties.RedeemSharedKey` | chaincode/assetcc.go:160-218 | a successful redeem needs an investor record under the investor key and units at most its holding (absent = 0); when investor identifier and ISIN are the same key the investor is replaced by an empty asset whose available units are the redeemed units; when the ISIN is another investor's key the redeemer's holding drops by units at no payment and that other investor is replaced by the same empty asset |
| `Properties.SubscribeKeepsSolvent` | chaincode/assetcc.go:103-119 | with units >= 0, a successful subscribe keeps every balance, holding, inventory and price in the store non-negative |
| `Properties.RedeemKeepsSolvent` | chaincode/assetcc.go:189-199 | the same for a successful redeem with units >= 0 |
| `Properties.ApplyKeepsSolvent` | chaincode/assetcc.go:31-63 | each of the four writing operations with non-negative arguments keeps a solvent store solvent (a failed transaction commits nothing) |
| `Properties.SolventRun` | chaincode/assetcc.go:31-227 | any sequence of transactions with non-negative arguments keeps a solvent store solvent |
| `Properties.AvailableCanExceedTotal` | chaincode/assetcc.go:47-63 | re-registering an asset while holdings exist and then redeeming them leaves available units (20) above total units (10) |
| `Properties.PortfolioListsEveryHolding` | chaincode/assetcc.go:246-249 | for any iteration order of the holdings, the text is the header followed by the lines, there are exactly as many lines as holdings entries, each entry's line (zero-unit entries included) is among them, and each line belongs to an entry |
| `Properties.PortfolioOfSingleHolding` | chaincode/assetcc.go:246-249 | with one holdings entry the only iteration order is that key and the text is the header followed by its line |
| `Properties.SingleHoldingPortfolio` | chaincode/assetcc.go:230-252 | for an investor record with a single holdings entry, every possible GetPortfolio result is the header followed by that entry's line |
| `Properties.CreateUserThenPortfolio` | chaincode/assetcc.go:31-44 | right after CreateUser, the only possible portfolio is the bare header with the new identifier and balance |
| `Properties.RegisterThenSubscribe` | chaincode/assetcc.go:47-63 | right after RegisterAsset, an authorized subscribe by an investor under another key succeeds iff its funds cover units * price and units <= total units, and leaves total - units available |
| `Format.Decimal` | chaincode/assetcc.go:248 | `%d` of a natural number is a non-empty digit string without a leading zero whose decimal value is the number |
| `Format.FormatInt` | chaincode/assetcc.go:248 | `%d` of an int reads back as the same int; it starts with '-' exactly for negative values, and what follows the sign is a non-empty digit string without a leading zero (so the text is unique) |
| `Format.Header` | chaincode/assetcc.go:246 | the header is "Investor ID: ", the identifier, "\nBalance: ", then text that reads back as the balance, then "\nSubscribed Assets:\n" |
| `Format.HoldingLine` | chaincode/assetcc.go:248 | a holdings line is "- Asset: ", the ISIN, ", Units: ", then text that reads back as the units, then a newline |
| `Contract.PortfolioText` | chaincode/assetcc.go:246-249 | the summary starts with the investor's header, and with no holdings visited it is exactly the header |
| `Records.Authorized` | chaincode/assetcc.go:68-71 | a failed role lookup is refused; a role that was read is accepted exactly when it equals "Investor" (same check at lines 153-156) |
| `Records.InvestorView` | chaincode/assetcc.go:82-86 | an investor record decodes to itself; an asset document decodes to the zero investor (empty identifier, balance 0, no holdings), as at lines 168-172 and 240-244 |
| `Records.AssetView` | chaincode/assetcc.go:97-101 | an asset record decodes to itself; an investor document decodes to the zero asset (empty strings, all counts and the price 0), as at lines 183-187 |
| `Records.HoldingsWritable` | chaincode/assetcc.go:115 | an entry can be assigned only when the key holds a real investor record; otherwise the decoded holdings map is the nil map, which reads as empty (assigning to it panics, also at line 195) |
| `Records.Held` | chaincode/assetcc.go:190 | the holding of an ISIN is its entry, or 0 when the entry is absent (Go's zero value, also read at lines 115 and 195) |
| `Driver.ClientSetup` | client/client.go:37-71 | creating investor1 with 10000 and registering US1234567890 (1000 units at 50) gives a store with exactly those two records, 1000 units available |
| `Driver.ClientSubscribe` | client/client.go:73-87 | subscribing 100 then leaves balance 5000, holding 100, available 900 |
| `Driver.ClientRedeem` | client/client.go:89-103 | redeeming 50 then leaves balance 7500, holding 50, available 950 |
| `Driver.ClientPortfolio` | client/client.go:105-116 | the only possible portfolio of that store is the header for investor1 with balance 7500 followed by the single line for US1234567890 with 50 units |
| `Driver.RunClientScript` | client/client.go:37-116 | the whole client script run against a fresh `Ledger` ends with exactly the two records above (balance 7500, holding 50, available 950) and that portfolio |

## Left out

- `main()` (chaincode/assetcc.go:254-264) only starts the chaincode; it is not modelled.
- The client's wallet, gateway and channel set-up and its printing (client/client.go:12-35) are
  network and I/O. Only the sequence of calls is modelled, and the caller is taken to have role
  "Investor".
- JSON encoding and decoding: records are values. Decoding a record of the other kind is modelled
  by its Go result, the zero struct.
- Failures of the store and event channel (`GetState`, `PutState` and `SetEvent` errors) are not
  modelled. Discarding writes staged before such a failure belongs to the ledger host.
- Conversion of decimal-text arguments to integers before the call is not modelled: arguments
  arrive as `int`.
- Concurrent transactions and multi-version conflict resolution belong to the ledger host. Each
  operation is one sequential, atomic transition.
- Event payload text: an event keeps its name and the (investor, units, ISIN) triple, not the
  formatted sentence.
- Contract.Subscribe: all of its `int` arithmetic is unbounded. This covers the product
  `units * pricePerUnit` and the updates `Subscribed[isin] += units`, `Balance -= totalCost` and
  `AvailableUnits -= units`. Go's 64-bit `int` wraps around in each of them, and the model does
  not capture that.
- Contract.Redeem: the same for `units * pricePerUnit` and the updates `Subscribed[isin] -= units`,
  `Balance += ...` and `AvailableUnits += units`.
- A nil-map panic is modelled as an error result (`HoldingsMapNil`). In Go the panic aborts the
  invocation and returns no `error` value. In both cases nothing is committed.
