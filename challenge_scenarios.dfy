/** Runs of the challenge engine through its own methods, showing what the
    engine does on concrete inputs: the limits tripping, the target waiting
    for trading days, and the behaviours the engine shows on close, update
    and reload. */
module ChallengeScenarios {
  import opened Wrappers
  import opened ChallengeRules
  import opened Challenge

  function Day(d: int): Timestamp {
    Timestamp(Date(2025, 3, d), 0.0)
  }

  /** $100K, 10% target, 5% daily and 10% total limits, 30 days. */
  function Standard(minTradingDays: int): ChallengeConfig {
    ChallengeConfig("FTMO Style $100K", 100000.0, 0.10, 0.05, 0.10, 30, minTradingDays)
  }

  /** A 1-lot buy closed 10 points lower loses 100 and stays in progress. */
  method SmallLossStaysInProgress() returns (balance: real, status: ChallengeStatus)
    ensures balance == 99900.0 && status == InProgress
  {
    var c := new SimulatedChallenge(Standard(4), Day(3));
    var t := c.OpenTrade("EURUSD", "BUY", 1.0, 100.0, 0.0, Day(3));
    var profit := c.CloseTrade(t, 90.0, Day(3));
    assert profit == -100.0;
    balance, status := c.balance, c.status;
  }

  /** Three closes on one day, each losing 2% of the initial balance: the
      third takes the daily loss to 6% and fails the challenge on the daily
      limit, after which no trade opens. */
  method ThreeLossesFailDaily() returns (status: ChallengeStatus, reason: Option<FailReason>, rejected: int)
    ensures status == FailedDailyDd
    ensures reason == Some(DailyDrawdownExceeded(0.06, 0.05))
    ensures rejected == -1
  {
    var c := new SimulatedChallenge(Standard(4), Day(3));
    var t := c.OpenTrade("XAUUSD", "BUY", 2.0, 100.0, 0.0, Day(3));
    var p := c.CloseTrade(t, 0.0, Day(3));
    assert c.balance == 98000.0 && c.status == InProgress;
    t := c.OpenTrade("XAUUSD", "BUY", 2.0, 100.0, 0.0, Day(3));
    p := c.CloseTrade(t, 0.0, Day(3));
    assert c.balance == 96000.0 && c.status == InProgress;
    t := c.OpenTrade("XAUUSD", "BUY", 2.0, 100.0, 0.0, Day(3));
    p := c.CloseTrade(t, 0.0, Day(3));
    assert c.balance == 94000.0;
    status, reason := c.status, c.failReason;
    rejected := c.OpenTrade("XAUUSD", "BUY", 2.0, 100.0, 0.0, Day(3));
  }

  /** Reaching the profit target on one trading day when four are required
      leaves the challenge in progress. */
  method TargetWaitsForTradingDays() returns (balance: real, status: ChallengeStatus)
    ensures balance == 110000.0 && status == InProgress
  {
    var c := new SimulatedChallenge(Standard(4), Day(3));
    var t := c.OpenTrade("BTCUSD", "BUY", 10.0, 100.0, 0.0, Day(3));
    var p := c.CloseTrade(t, 200.0, Day(3));
    balance, status := c.balance, c.status;
  }

  /** The checks run whatever the status: a challenge failed on a floating
      loss by `UpdateTrade` is turned into PASSED by a later profitable close,
      and keeps its failure reason. */
  method FailureOverturnedByClose() returns (failed: ChallengeStatus, final: ChallengeStatus, reason: Option<FailReason>)
    ensures failed == FailedDailyDd && final == Passed && reason.Some?
  {
    var c := new SimulatedChallenge(Standard(0), Day(3));
    var t := c.OpenTrade("XAUUSD", "BUY", 1.0, 2000.0, 0.0, Day(3));
    c.UpdateTrade(t, 1400.0);
    assert c.equity == 94000.0;
    failed := c.status;
    var p := c.CloseTrade(t, 3000.0, Day(3));
    assert c.balance == 110000.0;
    final, reason := c.status, c.failReason;
  }

  /** Closing one trade sets equity to the balance although another trade
      is still open at a loss: the equity no longer counts that loss. */
  method CloseDropsFloatingLoss() returns (equity: real, balance: real, floating: real)
    ensures equity == balance && floating == -1000.0
  {
    var c := new SimulatedChallenge(Standard(4), Day(3));
    var a := c.OpenTrade("EURUSD", "BUY", 1.0, 100.0, 0.0, Day(3));
    var b := c.OpenTrade("EURUSD", "SELL", 1.0, 100.0, 0.0, Day(3));
    c.UpdateTrade(b, 200.0);
    assert c.OpenProfit() == -1000.0;
    var p := c.CloseTrade(a, 100.0, Day(3));
    equity, balance, floating := c.equity, c.balance, c.OpenProfit();
  }

  /** A challenge whose only trade was closed reloads with the counter back
      at the first ticket, so the next trade receives the ticket of the
      closed one. */
  method TicketReissuedAfterReload() returns (first: int, reissued: int)
    ensures first == reissued == FirstTicket
  {
    var c := new SimulatedChallenge(Standard(4), Day(3));
    first := c.OpenTrade("EURUSD", "BUY", 1.0, 100.0, 0.0, Day(3));
    var p := c.CloseTrade(first, 101.0, Day(3));
    var snapshot := c.Save();
    assert snapshot.trades[0].status == Closed;
    ReissueExample(snapshot.trades[0]);
    var restored := new SimulatedChallenge.Load(snapshot, Day(4));
    reissued := restored.OpenTrade("EURUSD", "BUY", 1.0, 100.0, 0.0, Day(4));
  }
}
