/**
 * The client's fixed script (client/client.go:37-116) against a fresh ledger: create
 * investor1 with 10000, register US1234567890 (1000 units at 50), subscribe 100, redeem 50,
 * then read the portfolio. The caller's role attribute is taken to be "Investor".
 */
module Driver {
  import opened Wrappers
  import opened Records
  import opened Format
  import opened Contract
  import Properties
  import opened Chaincode

  const ClientInvestor: string := "investor1"
  const ClientIsin: string := "US1234567890"

  /** The two records of the script's store, at a given balance, holding and inventory. */
  function ClientStore(balance: int, holdings: map<string, int>, available: int): Store {
    map[ClientInvestor := InvestorRec(Investor(ClientInvestor, balance, holdings)),
        ClientIsin := AssetRec(Asset(ClientIsin, "Tech Corp", "Equity", 1000, 50, available))]
  }

  /** Two stores over the script's two keys agree on both keys. */
  lemma SameClientStore(s: Store, t: Store)
    requires s.Keys == t.Keys == {ClientInvestor, ClientIsin}
    requires s[ClientInvestor] == t[ClientInvestor] && s[ClientIsin] == t[ClientIsin]
    ensures s == t
  {
  }

  lemma ClientKeysDiffer()
    ensures ClientInvestor != ClientIsin
  {
    assert |ClientInvestor| != |ClientIsin|;
  }

  lemma ClientSetup()
    ensures RegisterAsset(CreateUser(map[], ClientInvestor, 10000), ClientIsin, "Tech Corp", "Equity", 1000, 50)
         == ClientStore(10000, map[], 1000)
  {
    ClientKeysDiffer();
    SameClientStore(RegisterAsset(CreateUser(map[], ClientInvestor, 10000), ClientIsin, "Tech Corp", "Equity", 1000, 50),
                    ClientStore(10000, map[], 1000));
  }

  lemma ClientSubscribe()
    ensures Subscribe(ClientStore(10000, map[], 1000), Some(InvestorRole), ClientInvestor, ClientIsin, 100)
         == Success(ClientStore(5000, map[ClientIsin := 100], 900))
  {
    ClientKeysDiffer();
    var r := Subscribe(ClientStore(10000, map[], 1000), Some(InvestorRole), ClientInvestor, ClientIsin, 100);
    assert r.Success?;
    assert map[][ClientIsin := 0 + 100] == map[ClientIsin := 100];
    SameClientStore(r.value, ClientStore(5000, map[ClientIsin := 100], 900));
  }

  lemma ClientRedeem()
    ensures Redeem(ClientStore(5000, map[ClientIsin := 100], 900), Some(InvestorRole), ClientInvestor, ClientIsin, 50)
         == Success(ClientStore(7500, map[ClientIsin := 50], 950))
  {
    ClientKeysDiffer();
    var r := Redeem(ClientStore(5000, map[ClientIsin := 100], 900), Some(InvestorRole), ClientInvestor, ClientIsin, 50);
    assert r.Success?;
    assert map[ClientIsin := 100][ClientIsin := 100 - 50] == map[ClientIsin := 50];
    SameClientStore(r.value, ClientStore(7500, map[ClientIsin := 50], 950));
  }

  lemma ClientPortfolio(r: Result<string, Error>)
    requires IsPortfolio(ClientStore(7500, map[ClientIsin := 50], 950), ClientInvestor, r)
    ensures r == Success(Header(ClientInvestor, 7500) + HoldingLine(ClientIsin, 50))
  {
    var s := ClientStore(7500, map[ClientIsin := 50], 950);
    assert s[ClientInvestor] == InvestorRec(Investor(ClientInvestor, 7500, map[ClientIsin := 50]));
    Properties.SingleHoldingPortfolio(s, ClientInvestor, ClientIsin, r);
  }

  /**
   * The script's end state: balance 10000 - 100 * 50 + 50 * 50, inventory 1000 - 100 + 50,
   * holding 100 - 50, and a portfolio with that one holding.
   */
  method RunClientScript() returns (finalStore: Store, portfolio: Result<string, Error>)
    ensures finalStore == ClientStore(7500, map[ClientIsin := 50], 950)
    ensures portfolio == Success(Header(ClientInvestor, 7500) + HoldingLine(ClientIsin, 50))
  {
    var ledger := new Ledger();
    ledger.CreateUser(ClientInvestor, 10000);
    ledger.RegisterAsset(ClientIsin, "Tech Corp", "Equity", 1000, 50);
    ClientSetup();

    var subscribed := ledger.SubscribeAsset(Some(InvestorRole), ClientInvestor, ClientIsin, 100);
    ClientSubscribe();
    assert subscribed == Pass;

    var redeemed := ledger.RedeemAsset(Some(InvestorRole), ClientInvestor, ClientIsin, 50);
    ClientRedeem();
    assert redeemed == Pass;
    assert ledger.events == [Event(SubscriptionEvent, ClientInvestor, 100, ClientIsin),
                             Event(RedemptionEvent, ClientInvestor, 50, ClientIsin)];
    finalStore := ledger.store;

    portfolio := ledger.GetPortfolio(ClientInvestor);
    ClientPortfolio(portfolio);
  }
}
