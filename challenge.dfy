/** The simulated challenge engine: balance, equity, the two drawdown
    references, the trading days, the trade ledger with its open-trade
    index, the ticket counter and the status, changed step by step by
    opening, re-marking and closing trades. */
module Challenge {
  import opened Wrappers
  import opened ChallengeRules

  /** The numeric part of the statistics report. The profit, target and
      drawdown percentages are fractions of 1; progress is in percent, capped at 100. */
  datatype Stats = Stats(
    challenge: string,
    status: ChallengeStatus,
    balance: real,
    equity: real,
    profit: real,
    profitPct: real,
    targetPct: real,
    progress: real,
    dailyDrawdown: real,
    totalDrawdown: real,
    tradingDays: nat,
    minTradingDays: int,
    totalTrades: nat,
    openTrades: nat)

  /** The facts a certificate reports, or the refusal when not passed. */
  datatype Certificate =
    | NotPassed(message: string)
    | PassedCertificate(
        challenge: string,
        startingBalance: real,
        finalBalance: real,
        profit: real,
        tradingDays: nat,
        totalTrades: nat,
        started: Timestamp)

  const NotPassedMessage: string := "Challenge not passed yet."

  /** The progress figure reaches 100% exactly when the profit fraction
      reaches a positive target fraction, or falls to or below a negative
      one. */
  lemma ProgressReachesTarget(profitPct: real, targetPct: real)
    requires targetPct != 0.0
    ensures targetPct > 0.0 ==> ((profitPct / targetPct) * 100.0 >= 100.0 <==> profitPct >= targetPct)
    ensures targetPct < 0.0 ==> ((profitPct / targetPct) * 100.0 >= 100.0 <==> profitPct <= targetPct)
  {
    if targetPct > 0.0 {
      FractionAtLeast(profitPct, targetPct, 1.0);
    } else {
      var q := profitPct / targetPct;
      assert q * targetPct == profitPct;
      if q >= 1.0 {
        assert q * targetPct <= 1.0 * targetPct;
      } else {
        assert q * targetPct > 1.0 * targetPct;
      }
    }
  }

  class SimulatedChallenge {
    const config: ChallengeConfig

    var balance: real
    var equity: real
    var highWaterMark: real
    var dailyStartBalance: real

    var startTime: Timestamp
    var currentDay: Date
    var tradingDays: set<Date>

    /** The ledger, open and closed, in the order the trades were opened or loaded. */
    var trades: seq<SimulatedTrade>
    /** The open trades by ticket: each maps to the position of the very
        trade record in the ledger, so a change through the index is a
        change of the ledger entry. */
    var openTrades: map<int, int>
    var nextTicket: int

    var status: ChallengeStatus
    var failReason: Option<FailReason>

    /** Holds from construction and from loading any snapshot. */
    ghost predicate Valid()
      reads this
    {
      && ValidConfig(config)
      && IndexWellFormed(trades, openTrades)
      && nextTicket >= FirstTicket
      && forall k :: k in openTrades ==> k < nextTicket
    }

    /** Every OPEN ledger entry is in the index: holds from construction on,
        but not after loading a snapshot with two OPEN trades on one ticket. */
    ghost predicate Indexed()
      reads this
    {
      IndexMatchesLedger(trades, openTrades)
    }

    /** The floating profit of the indexed open trades. */
    function OpenProfit(): real
      reads this
    {
      FloatingProfit(trades, openTrades)
    }

    ghost predicate EquityConsistent()
      reads this
    {
      equity == balance + OpenProfit()
    }

    constructor (config: ChallengeConfig, now: Timestamp)
      requires ValidConfig(config)
      ensures Valid() && Indexed() && EquityConsistent()
      ensures this.config == config
      ensures balance == config.initialBalance && equity == config.initialBalance
      ensures highWaterMark == config.initialBalance && dailyStartBalance == config.initialBalance
      ensures startTime == now && currentDay == now.date && tradingDays == {}
      ensures trades == [] && openTrades == map[] && nextTicket == FirstTicket
      ensures status == InProgress && failReason == None
    {
      this.config := config;
      balance := config.initialBalance;
      equity := config.initialBalance;
      highWaterMark := config.initialBalance;
      dailyStartBalance := config.initialBalance;
      startTime := now;
      currentDay := now.date;
      tradingDays := {};
      trades := [];
      openTrades := map[];
      nextTicket := FirstTicket;
      status := InProgress;
      failReason := None;
    }

    /** Rebuilds a challenge from a snapshot: the stored fields verbatim, the
        current day from the clock, and the open-trade index and the ticket
        counter recomputed from the OPEN entries of the ledger. */
    constructor Load(snapshot: Snapshot, now: Timestamp)
      requires ValidConfig(snapshot.config)
      ensures Valid()
      ensures config == snapshot.config
      ensures balance == snapshot.state.balance && equity == snapshot.state.equity
      ensures highWaterMark == snapshot.state.highWaterMark
      ensures dailyStartBalance == snapshot.state.dailyStartBalance
      ensures startTime == snapshot.state.startTime && currentDay == now.date
      ensures tradingDays == snapshot.state.tradingDays
      ensures status == snapshot.state.status && failReason == snapshot.state.failReason
      ensures trades == snapshot.trades
      ensures openTrades == OpenIndex(snapshot.trades)
      ensures nextTicket == ReloadedNextTicket(snapshot.trades)
      ensures OpenTicketsDistinct(snapshot.trades) ==> Indexed()
    {
      config := snapshot.config;
      var state := snapshot.state;
      balance := state.balance;
      equity := state.equity;
      highWaterMark := state.highWaterMark;
      dailyStartBalance := state.dailyStartBalance;
      startTime := state.startTime;
      currentDay := now.date;
      tradingDays := state.tradingDays;
      status := state.status;
      failReason := state.failReason;
      var ledger: seq<SimulatedTrade> := [];
      var index: map<int, int> := map[];
      var next := FirstTicket;
      var i := 0;
      while i < |snapshot.trades|
        invariant 0 <= i <= |snapshot.trades|
        invariant ledger == snapshot.trades[..i]
        invariant index == OpenIndex(snapshot.trades[..i])
        invariant next == ReloadedNextTicket(snapshot.trades[..i])
      {
        var t := snapshot.trades[i];
        assert snapshot.trades[..i + 1][..i] == snapshot.trades[..i];
        ledger := ledger + [t];
        if t.status == Open {
          index := index[t.ticket := i];
          next := MaxInt(next, t.ticket + 1);
        }
        i := i + 1;
      }
      assert snapshot.trades[..i] == snapshot.trades;
      trades := ledger;
      openTrades := index;
      nextTicket := next;
      OpenIndexExact(snapshot.trades);
      ReloadedNextTicketBounds(snapshot.trades);
      if OpenTicketsDistinct(snapshot.trades) {
        DistinctOpenIndexMatches(snapshot.trades);
      }
    }

    /** The snapshot record of the current state. */
    function Save(): (snapshot: Snapshot)
      reads this
      ensures snapshot.config == config && snapshot.trades == trades
      ensures snapshot.state.balance == balance && snapshot.state.equity == equity
      ensures snapshot.state.highWaterMark == highWaterMark
      ensures snapshot.state.dailyStartBalance == dailyStartBalance
      ensures snapshot.state.startTime == startTime && snapshot.state.tradingDays == tradingDays
      ensures snapshot.state.status == status && snapshot.state.failReason == failReason
    {
      Snapshot(config,
        SavedState(balance, equity, highWaterMark, dailyStartBalance, startTime,
                   tradingDays, status, failReason),
        trades)
    }

    /** Saving and reloading a consistent challenge restores its open-trade
        index, but the ticket counter may go back. */
    lemma SaveLoadRestoresIndex()
      requires Valid() && Indexed()
      ensures OpenIndex(Save().trades) == openTrades
      ensures ReloadedNextTicket(Save().trades) <= nextTicket
      ensures OpenTicketsDistinct(Save().trades)
    {
      MatchedLedgerDistinct(trades, openTrades);
      ReloadRebuildsIndex(trades, openTrades);
      ReloadNeverAdvancesTicket(trades, openTrades, nextTicket);
    }

    /** Starts a new day's drawdown reference when the date has changed. */
    method CheckNewDay(today: Date)
      modifies this`currentDay, this`dailyStartBalance
      ensures currentDay == today
      ensures dailyStartBalance == if today != old(currentDay) then balance else old(dailyStartBalance)
    {
      if today != currentDay {
        currentDay := today;
        dailyStartBalance := balance;
      }
    }

    /** Fails the challenge when equity is too far below the day's start
        balance or below the high-water mark; the daily limit is tested first.
        Runs whatever the current status. */
    method CheckDrawdown() returns (ok: bool)
      requires ValidConfig(config)
      modifies this`status, this`failReason
      ensures ok == DrawdownBreach(config, dailyStartBalance, highWaterMark, equity).NoBreach?
      ensures status == StatusAfterDrawdown(DrawdownBreach(config, dailyStartBalance, highWaterMark, equity), old(status))
      ensures failReason == ReasonAfterDrawdown(config, DrawdownBreach(config, dailyStartBalance, highWaterMark, equity), old(failReason))
    {
      var dailyDd := (dailyStartBalance - equity) / config.initialBalance;
      if dailyDd >= config.maxDailyDrawdownPct {
        status := FailedDailyDd;
        failReason := Some(DailyDrawdownExceeded(dailyDd, config.maxDailyDrawdownPct));
        return false;
      }
      var totalDd := (highWaterMark - equity) / config.initialBalance;
      if totalDd >= config.maxTotalDrawdownPct {
        status := FailedMaxDd;
        failReason := Some(TotalDrawdownExceeded(totalDd, config.maxTotalDrawdownPct));
        return false;
      }
      return true;
    }

    /** Passes the challenge when the profit target and the minimum number of
        trading days are both reached; otherwise leaves the status alone. */
    method CheckProfitTarget() returns (passed: bool)
      requires ValidConfig(config)
      modifies this`status
      ensures passed == TargetReached(config, balance, |tradingDays|)
      ensures status == if passed then Passed else old(status)
    {
      var profitPct := (balance - config.initialBalance) / config.initialBalance;
      if profitPct >= config.profitTargetPct {
        if |tradingDays| >= config.minTradingDays {
          status := Passed;
          return true;
        }
      }
      return false;
    }

    /** Opens a trade at `price` and returns its ticket, or -1 when the
        challenge is no longer in progress. The telemetry notification the
        engine sends here is best-effort and has no effect on the state. */
    method OpenTrade(symbol: string, direction: string, volume: real, price: real, confidence: real, now: Timestamp)
      returns (ticket: int)
      requires Valid()
      modifies this
      ensures Valid()
      ensures old(status) != InProgress ==> ticket == -1 && unchanged(this)
      ensures old(status) == InProgress ==>
        && ticket == old(nextTicket) && nextTicket == old(nextTicket) + 1
        && currentDay == now.date
        && dailyStartBalance == (if now.date != old(currentDay) then old(balance) else old(dailyStartBalance))
        && tradingDays == old(tradingDays) + {now.date}
        && trades == old(trades) + [SimulatedTrade(ticket, symbol, direction, volume, price, None, now, None, 0.0, Open)]
        && openTrades == old(openTrades)[ticket := |old(trades)|]
        && balance == old(balance) && equity == old(equity) && highWaterMark == old(highWaterMark)
        && startTime == old(startTime) && status == old(status) && failReason == old(failReason)
      ensures ticket != -1 ==> ticket >= FirstTicket && ticket !in old(openTrades)
      ensures OpenProfit() == old(OpenProfit())
      ensures old(Indexed()) ==> Indexed()
      ensures old(EquityConsistent()) ==> EquityConsistent()
    {
      if status != InProgress {
        return -1;
      }
      CheckNewDay(now.date);
      tradingDays := tradingDays + {currentDay};
      ticket := nextTicket;
      nextTicket := nextTicket + 1;
      var trade := SimulatedTrade(ticket, symbol, direction, volume, price, None, now, None, 0.0, Open);
      AppendFloatingProfit(trades, openTrades, trade);
      openTrades := openTrades[ticket := |trades|];
      trades := trades + [trade];
    }

    /** Re-marks an open trade at `currentPrice`, recomputes equity over all
        open trades and runs the drawdown check, whatever the status; an
        unknown or closed ticket is ignored. */
    method UpdateTrade(ticket: int, currentPrice: real)
      requires Valid()
      modifies this
      ensures Valid()
      ensures ticket !in old(openTrades) ==> unchanged(this)
      ensures ticket in old(openTrades) ==>
        var p := old(openTrades)[ticket];
        var t := old(trades)[p];
        && trades == old(trades)[p := t.(profit := TradeProfit(t.direction, t.openPrice, currentPrice, t.volume))]
        && openTrades == old(openTrades)
        && balance == old(balance) && highWaterMark == old(highWaterMark)
        && dailyStartBalance == old(dailyStartBalance) && tradingDays == old(tradingDays)
        && currentDay == old(currentDay) && startTime == old(startTime) && nextTicket == old(nextTicket)
        && equity == balance + OpenProfit()
        && OpenProfit() == old(OpenProfit()) + trades[p].profit - t.profit
        && status == StatusAfterDrawdown(DrawdownBreach(config, dailyStartBalance, highWaterMark, equity), old(status))
        && failReason == ReasonAfterDrawdown(config, DrawdownBreach(config, dailyStartBalance, highWaterMark, equity), old(failReason))
      ensures old(Indexed()) ==> Indexed()
    {
      if ticket !in openTrades {
        return;
      }
      Remark(ticket, currentPrice);
      var _ := CheckDrawdown();
    }

    /** The marking half of updating a trade: the trade's profit at the
        current price and equity over all open trades. */
    method Remark(ticket: int, currentPrice: real)
      requires Valid() && ticket in openTrades
      modifies this`trades, this`equity
      ensures Valid()
      ensures
        var p := openTrades[ticket];
        var t := old(trades)[p];
        && trades == old(trades)[p := t.(profit := TradeProfit(t.direction, t.openPrice, currentPrice, t.volume))]
        && equity == balance + OpenProfit()
        && OpenProfit() == old(OpenProfit()) + trades[p].profit - t.profit
      ensures old(Indexed()) ==> Indexed()
    {
      var p := openTrades[ticket];
      var trade := trades[p];
      var profit := TradeProfit(trade.direction, trade.openPrice, currentPrice, trade.volume);
      RemarkFloatingProfit(trades, openTrades, ticket, profit);
      trades := trades[p := trade.(profit := profit)];
      var totalFloating := FloatingProfit(trades, openTrades);
      equity := balance + totalFloating;
    }

    /** The booking half of closing a trade: the ledger entry, the balance,
        equity, the high-water mark and the index. */
    method BookClose(ticket: int, closePrice: real, now: Timestamp) returns (profit: real)
      requires Valid() && ticket in openTrades
      modifies this
      ensures Valid()
      ensures
        var p := old(openTrades)[ticket];
        var t := old(trades)[p];
        && profit == TradeProfit(t.direction, t.openPrice, closePrice, t.volume)
        && trades == old(trades)[p := t.(profit := profit, closePrice := Some(closePrice),
                                         closeTime := Some(now), status := Closed)]
        && OpenProfit() == old(OpenProfit()) - t.profit
      ensures openTrades == old(openTrades) - {ticket}
      ensures balance == old(balance) + profit && equity == balance
      ensures highWaterMark == Max(old(highWaterMark), balance)
      ensures dailyStartBalance == old(dailyStartBalance) && tradingDays == old(tradingDays)
      ensures currentDay == old(currentDay) && startTime == old(startTime) && nextTicket == old(nextTicket)
      ensures status == old(status) && failReason == old(failReason)
      ensures old(Indexed()) ==> Indexed()
    {
      var p := openTrades[ticket];
      var trade := trades[p];
      profit := TradeProfit(trade.direction, trade.openPrice, closePrice, trade.volume);
      var closed := trade.(profit := profit, closePrice := Some(closePrice), closeTime := Some(now), status := Closed);
      CloseFloatingProfit(trades, openTrades, ticket, closed);
      CloseKeepsIndex(trades, openTrades, ticket, closed);
      trades := trades[p := closed];

      balance := balance + profit;
      equity := balance;
      if balance > highWaterMark {
        highWaterMark := balance;
      }
      openTrades := openTrades - {ticket};
    }

    /** Closes an open trade at `closePrice`: books its profit into the
        balance, sets equity to the balance (dropping the floating profit of
        any other open trade), raises the high-water mark, then runs the
        drawdown check and the profit-target check, whatever the status.
        Returns the booked profit, or 0 for an unknown or closed ticket. */
    method CloseTrade(ticket: int, closePrice: real, now: Timestamp) returns (profit: real)
      requires Valid()
      modifies this
      ensures Valid()
      ensures ticket !in old(openTrades) ==> profit == 0.0 && unchanged(this)
      ensures ticket in old(openTrades) ==>
        var p := old(openTrades)[ticket];
        var t := old(trades)[p];
        && profit == TradeProfit(t.direction, t.openPrice, closePrice, t.volume)
        && trades == old(trades)[p := t.(profit := profit, closePrice := Some(closePrice),
                                         closeTime := Some(now), status := Closed)]
        && OpenProfit() == old(OpenProfit()) - t.profit
      ensures ticket in old(openTrades) ==>
        && openTrades == old(openTrades) - {ticket}
        && balance == old(balance) + profit
        && equity == balance
        && highWaterMark == Max(old(highWaterMark), balance)
        && dailyStartBalance == old(dailyStartBalance) && tradingDays == old(tradingDays)
        && currentDay == old(currentDay) && startTime == old(startTime) && nextTicket == old(nextTicket)
      ensures ticket in old(openTrades) ==>
        var breach := DrawdownBreach(config, dailyStartBalance, highWaterMark, equity);
        && status == (if TargetReached(config, balance, |tradingDays|) then Passed
                      else StatusAfterDrawdown(breach, old(status)))
        && failReason == ReasonAfterDrawdown(config, breach, old(failReason))
      ensures old(highWaterMark) <= highWaterMark
      ensures old(highWaterMark) >= old(balance) ==> highWaterMark >= balance
      ensures ticket in old(openTrades) ==> (EquityConsistent() <==> OpenProfit() == 0.0)
      ensures old(Indexed()) ==> Indexed()
    {
      if ticket !in openTrades {
        return 0.0;
      }
      profit := BookClose(ticket, closePrice, now);
      var _ := CheckDrawdown();
      var _ := CheckProfitTarget();
    }

    /** The figures of the statistics report. */
    function GetStats(): (stats: Stats)
      reads this
      requires ValidConfig(config) && config.profitTargetPct != 0.0
      ensures stats.challenge == config.name && stats.status == status
      ensures stats.balance == balance && stats.equity == equity
      ensures stats.profit == balance - config.initialBalance
      ensures stats.profitPct * config.initialBalance == stats.profit
      ensures stats.progress <= 100.0
      ensures stats.progress < 100.0 ==> stats.progress * config.profitTargetPct == stats.profitPct * 100.0
      ensures config.profitTargetPct > 0.0 ==>
        (stats.progress == 100.0 <==> stats.profit >= config.profitTargetPct * config.initialBalance)
      ensures config.profitTargetPct < 0.0 ==>
        (stats.progress == 100.0 <==> stats.profit <= config.profitTargetPct * config.initialBalance)
      ensures stats.dailyDrawdown >= config.maxDailyDrawdownPct <==>
        DrawdownBreach(config, dailyStartBalance, highWaterMark, equity).DailyBreach?
      ensures stats.targetPct == config.profitTargetPct
      ensures stats.dailyDrawdown * config.initialBalance == dailyStartBalance - equity
      ensures stats.totalDrawdown * config.initialBalance == highWaterMark - equity
      ensures stats.totalDrawdown >= config.maxTotalDrawdownPct <==> highWaterMark - equity >= config.maxTotalDrawdownPct * config.initialBalance
      ensures stats.tradingDays == |tradingDays| && stats.minTradingDays == config.minTradingDays
      ensures stats.totalTrades == |trades| && stats.openTrades == |openTrades|
    {
      var profit := balance - config.initialBalance;
      var profitPct := profit / config.initialBalance;
      var targetPct := config.profitTargetPct;
      var ratio := (profitPct / targetPct) * 100.0;
      var dailyDd := (dailyStartBalance - equity) / config.initialBalance;
      var totalDd := (highWaterMark - equity) / config.initialBalance;
      ProgressReachesTarget(profitPct, targetPct);
      assert ratio * targetPct == profitPct * 100.0 by {
        assert (profitPct / targetPct) * targetPct == profitPct;
      }
      FractionAtLeast(profit, config.initialBalance, targetPct);
      FractionAtMost(profit, config.initialBalance, targetPct);
      FractionAtLeast(dailyStartBalance - equity, config.initialBalance, config.maxDailyDrawdownPct);
      FractionAtLeast(highWaterMark - equity, config.initialBalance, config.maxTotalDrawdownPct);
      Stats(config.name, status, balance, equity, profit, profitPct, targetPct,
            if ratio <= 100.0 then ratio else 100.0,
            dailyDd, totalDd, |tradingDays|, config.minTradingDays, |trades|, |openTrades|)
    }

    /** The certificate of a passed challenge, or the refusal message. */
    function GenerateCertificate(): (certificate: Certificate)
      reads this
      requires ValidConfig(config)
      requires status == Passed ==> config.profitTargetPct != 0.0
      ensures certificate.NotPassed? <==> status != Passed
      ensures certificate.NotPassed? ==> certificate.message == NotPassedMessage
      ensures certificate.PassedCertificate? ==>
        && certificate.challenge == config.name
        && certificate.startingBalance == config.initialBalance
        && certificate.started == startTime
        && certificate.finalBalance == balance
        && certificate.profit == balance - config.initialBalance
        && certificate.tradingDays == |tradingDays| && certificate.totalTrades == |trades|
    {
      if status != Passed then
        NotPassed(NotPassedMessage)
      else
        var stats := GetStats();
        PassedCertificate(config.name, config.initialBalance, balance, stats.profit,
                          |tradingDays|, |trades|, startTime)
    }
  }

  /** Saving a consistent challenge and loading the snapshot gives a
      challenge with the same configuration, state, ledger and open-trade
      index; only the current day comes from the clock, and the ticket
      counter may go back. The reloaded challenge is consistent again. */
  method SaveAndLoad(c: SimulatedChallenge, now: Timestamp) returns (restored: SimulatedChallenge)
    requires c.Valid() && c.Indexed()
    ensures fresh(restored)
    ensures restored.Valid() && restored.Indexed()
    ensures restored.config == c.config && restored.status == c.status && restored.failReason == c.failReason
    ensures restored.balance == c.balance && restored.equity == c.equity
    ensures restored.highWaterMark == c.highWaterMark && restored.dailyStartBalance == c.dailyStartBalance
    ensures restored.startTime == c.startTime && restored.tradingDays == c.tradingDays
    ensures restored.currentDay == now.date
    ensures restored.trades == c.trades && restored.openTrades == c.openTrades
    ensures FirstTicket <= restored.nextTicket <= c.nextTicket
  {
    c.SaveLoadRestoresIndex();
    restored := new SimulatedChallenge.Load(c.Save(), now);
  }
}
