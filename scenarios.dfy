/** The API tests (tests/test_api.py) as clients of the engine: each
    scenario starts from a fresh store, submits the test's trades and
    states what the test observes. */
module Scenarios {
  import opened Results
  import opened Trades
  import opened Portfolio

  function BtcTrade(id: int, side: Side, price: real, quantity: real, timestamp: int): (t: Trade)
    requires price > 0.0 && quantity > 0.0
    ensures t.WellFormed() && t.symbol == "BTC"
  {
    assert IsUpperAscii("BTC") by {
      assert forall i :: 0 <= i < 3 ==> "BTC"[i] in {'B', 'T', 'C'};
    }
    Trade(id, "BTC", side, price, quantity, timestamp)
  }

  /** test_portfolio_empty: a fresh store has no open positions. */
  method PortfolioEmpty() returns (holdings: map<string, Holding>)
    ensures holdings == map[]
  {
    var manager := new PortfolioManager();
    holdings := manager.GetPortfolio();
  }

  /** test_add_buy_trade: a buy into a fresh store is accepted and logged. */
  method AddBuyTrade() returns (outcome: Outcome<LedgerError>, logged: nat)
    ensures outcome == Pass && logged == 1
  {
    var manager := new PortfolioManager();
    outcome := manager.AddTrade(BtcTrade(1, Buy, 40000.0, 1.0, 123456));
    logged := |manager.trades|;
  }

  /** test_add_sell_without_position: selling an untraded symbol is
      rejected, nothing is logged, and the `setdefault` has still created an
      empty position for it. */
  method SellWithoutPosition() returns (outcome: Outcome<LedgerError>, logged: nat, created: Position)
    ensures outcome == Fail(InsufficientQuantity("BTC")) && logged == 0
    ensures created == NewPosition("BTC")
  {
    var manager := new PortfolioManager();
    outcome := manager.AddTrade(BtcTrade(1, Sell, 40000.0, 1.0, 123456));
    logged := |manager.trades|;
    created := manager.positions["BTC"];
  }

  /** test_portfolio_after_buys: 1 @ 40000 then 1 @ 42000 holds 2 at 41000. */
  method PortfolioAfterBuys() returns (holdings: map<string, Holding>)
    ensures holdings == map["BTC" := Holding(2.0, 41000.0, 0.0)]
  {
    var manager := new PortfolioManager();
    var first := manager.AddTrade(BtcTrade(1, Buy, 40000.0, 1.0, 1));
    var second := manager.AddTrade(BtcTrade(2, Buy, 42000.0, 1.0, 2));
    holdings := manager.GetPortfolio();
  }

  /** test_realized_pnl_after_sell: selling 1 @ 43000 against an average of
      41000 realises 2000. */
  method RealizedPnlAfterSell() returns (report: Result<PnlReport, LedgerError>)
    ensures report.Success? && report.value.realizedPnl == 2000.0
  {
    var manager := new PortfolioManager();
    var first := manager.AddTrade(BtcTrade(1, Buy, 40000.0, 1.0, 1));
    var second := manager.AddTrade(BtcTrade(2, Buy, 42000.0, 1.0, 2));
    var third := manager.AddTrade(BtcTrade(3, Sell, 43000.0, 1.0, 3));
    report := manager.GetPnl();
  }

  /** test_unrealized_pnl: 1 bought @ 41000 against the BTC price of 44000. */
  method UnrealizedPnl() returns (report: Result<PnlReport, LedgerError>)
    ensures report.Success? && report.value.unrealizedPnl == 3000.0
  {
    var manager := new PortfolioManager();
    var first := manager.AddTrade(BtcTrade(1, Buy, 41000.0, 1.0, 1));
    report := manager.GetPnl();
  }

  /** test_oversell_error: selling 2 while holding 1 is rejected and the
      holding is untouched. */
  method OversellError() returns (outcome: Outcome<LedgerError>, holdings: map<string, Holding>)
    ensures outcome.Fail?
    ensures holdings == map["BTC" := Holding(1.0, 40000.0, 0.0)]
  {
    var manager := new PortfolioManager();
    var first := manager.AddTrade(BtcTrade(1, Buy, 40000.0, 1.0, 1));
    outcome := manager.AddTrade(BtcTrade(2, Sell, 42000.0, 2.0, 2));
    holdings := manager.GetPortfolio();
  }

  /** test_multi_symbol: positions in two symbols are both open. */
  method MultiSymbol() returns (holdings: map<string, Holding>)
    ensures "BTC" in holdings && "ETH" in holdings
  {
    var manager := new PortfolioManager();
    var first := manager.AddTrade(BtcTrade(1, Buy, 40000.0, 1.0, 1));
    assert IsUpperAscii("ETH") by {
      assert forall i :: 0 <= i < 3 ==> "ETH"[i] in {'E', 'T', 'H'};
    }
    var second := manager.AddTrade(Trade(2, "ETH", Buy, 1500.0, 2.0, 2));
    holdings := manager.GetPortfolio();
  }

  /** test_position_closed: selling everything held closes the position,
      which leaves the portfolio empty while its realised PnL is kept. */
  method PositionClosed() returns (holdings: map<string, Holding>, report: Result<PnlReport, LedgerError>)
    ensures holdings == map[]
    ensures report.Success? && report.value.realizedPnl == 1000.0 && report.value.unrealizedPnl == 0.0
  {
    var manager := new PortfolioManager();
    var first := manager.AddTrade(BtcTrade(1, Buy, 40000.0, 1.0, 1));
    var second := manager.AddTrade(BtcTrade(2, Sell, 41000.0, 1.0, 2));
    holdings := manager.GetPortfolio();
    report := manager.GetPnl();
  }
}
