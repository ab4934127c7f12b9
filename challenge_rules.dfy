/** The values of the simulated prop-firm challenge (configuration, trades,
    snapshots) and the expression-level rules the engine applies to them:
    trade profit, the two drawdown limits, the profit target, the floating
    profit of the open trades and the index rebuilt when a snapshot is loaded. */
module ChallengeRules {
  import opened Wrappers

  datatype ChallengeStatus = InProgress | Passed | FailedDailyDd | FailedMaxDd | FailedTime

  /** Fractions are of the initial balance: 0.08 stands for 8%. */
  datatype ChallengeConfig = ChallengeConfig(
    name: string,
    initialBalance: real,
    profitTargetPct: real,
    maxDailyDrawdownPct: real,
    maxTotalDrawdownPct: real,
    timeLimitDays: int,
    minTradingDays: int)

  /** Every ratio the engine computes divides by the initial balance. */
  predicate ValidConfig(config: ChallengeConfig) {
    config.initialBalance > 0.0
  }

  /** A calendar date and a point in time; the engine only compares dates. */
  datatype Date = Date(year: int, month: int, day: int)
  datatype Timestamp = Timestamp(date: Date, secondOfDay: real)

  datatype TradeStatus = Open | Closed

  datatype SimulatedTrade = SimulatedTrade(
    ticket: int,
    symbol: string,
    direction: string,
    volume: real,
    openPrice: real,
    closePrice: Option<real>,
    openTime: Timestamp,
    closeTime: Option<Timestamp>,
    profit: real,
    status: TradeStatus)

  /** The structured content of the failure message. */
  datatype FailReason =
    | DailyDrawdownExceeded(drawdown: real, limit: real)
    | TotalDrawdownExceeded(drawdown: real, limit: real)

  /** The fields a snapshot stores besides the configuration and the ledger. */
  datatype SavedState = SavedState(
    balance: real,
    equity: real,
    highWaterMark: real,
    dailyStartBalance: real,
    startTime: Timestamp,
    tradingDays: set<Date>,
    status: ChallengeStatus,
    failReason: Option<FailReason>)

  datatype Snapshot = Snapshot(config: ChallengeConfig, state: SavedState, trades: seq<SimulatedTrade>)

  /** Account currency per price point per lot, the same for every symbol. */
  const PointValue: real := 10.0

  /** The ticket issued first by a fresh challenge. */
  const FirstTicket: int := 1000

  /** Profit of a trade marked at `price`: any direction other than "BUY"
      is treated as a sell. */
  function TradeProfit(direction: string, openPrice: real, price: real, volume: real): (profit: real)
    ensures price == openPrice ==> profit == 0.0
    ensures volume > 0.0 && direction == "BUY" ==> (profit > 0.0 <==> price > openPrice)
    ensures volume > 0.0 && direction != "BUY" ==> (profit > 0.0 <==> price < openPrice)
  {
    var points := if direction == "BUY" then price - openPrice else openPrice - price;
    ProductSign(points, volume);
    points * volume * PointValue
  }

  lemma ProductSign(points: real, volume: real)
    ensures volume > 0.0 ==> (points * volume * PointValue > 0.0 <==> points > 0.0)
    ensures points == 0.0 ==> points * volume * PointValue == 0.0
  {
    if volume > 0.0 && points <= 0.0 {
      assert points * volume <= 0.0 * volume;
    }
  }

  /** `x / b >= c` compares a fraction of `b`; for positive `b` it is `x >= c * b`. */
  lemma FractionAtLeast(x: real, b: real, c: real)
    requires b > 0.0
    ensures x / b >= c <==> x >= c * b
  {
    assert (x / b) * b == x;
    if x / b >= c {
      assert (x / b) * b >= c * b;
    } else {
      assert (x / b) * b < c * b;
    }
  }

  /** The same comparison from above: for positive `b`, `x / b <= c` is `x <= c * b`. */
  lemma FractionAtMost(x: real, b: real, c: real)
    requires b > 0.0
    ensures x / b <= c <==> x <= c * b
  {
    assert (x / b) * b == x;
    if x / b <= c {
      assert (x / b) * b <= c * b;
    } else {
      assert (x / b) * b > c * b;
    }
  }

  /** The outcome of the drawdown check; the daily limit is tested first. */
  datatype Breach = NoBreach | DailyBreach(drawdown: real) | TotalBreach(drawdown: real)

  function DrawdownBreach(config: ChallengeConfig, dailyStartBalance: real, highWaterMark: real, equity: real): (b: Breach)
    requires ValidConfig(config)
    ensures b.DailyBreach? <==>
      dailyStartBalance - equity >= config.maxDailyDrawdownPct * config.initialBalance
    ensures b.TotalBreach? <==>
      && dailyStartBalance - equity < config.maxDailyDrawdownPct * config.initialBalance
      && highWaterMark - equity >= config.maxTotalDrawdownPct * config.initialBalance
    ensures b.DailyBreach? ==> b.drawdown * config.initialBalance == dailyStartBalance - equity
    ensures b.TotalBreach? ==> b.drawdown * config.initialBalance == highWaterMark - equity
  {
    var daily := (dailyStartBalance - equity) / config.initialBalance;
    FractionAtLeast(dailyStartBalance - equity, config.initialBalance, config.maxDailyDrawdownPct);
    if daily >= config.maxDailyDrawdownPct then
      DailyBreach(daily)
    else
      var total := (highWaterMark - equity) / config.initialBalance;
      FractionAtLeast(highWaterMark - equity, config.initialBalance, config.maxTotalDrawdownPct);
      if total >= config.maxTotalDrawdownPct then TotalBreach(total) else NoBreach
  }

  /** The status once the drawdown check has seen `b`: a breach overwrites
      whatever the status was, no breach leaves it alone. */
  function StatusAfterDrawdown(b: Breach, status: ChallengeStatus): ChallengeStatus {
    match b
    case NoBreach => status
    case DailyBreach(_) => FailedDailyDd
    case TotalBreach(_) => FailedMaxDd
  }

  function ReasonAfterDrawdown(config: ChallengeConfig, b: Breach, reason: Option<FailReason>): Option<FailReason> {
    match b
    case NoBreach => reason
    case DailyBreach(dd) => Some(DailyDrawdownExceeded(dd, config.maxDailyDrawdownPct))
    case TotalBreach(dd) => Some(TotalDrawdownExceeded(dd, config.maxTotalDrawdownPct))
  }

  /** The pass condition: profit of at least the target fraction, on at
      least the minimum number of distinct trading days. */
  function TargetReached(config: ChallengeConfig, balance: real, tradingDays: nat): (passed: bool)
    requires ValidConfig(config)
    ensures passed <==>
      && balance - config.initialBalance >= config.profitTargetPct * config.initialBalance
      && tradingDays >= config.minTradingDays
  {
    FractionAtLeast(balance - config.initialBalance, config.initialBalance, config.profitTargetPct);
    (balance - config.initialBalance) / config.initialBalance >= config.profitTargetPct
      && tradingDays >= config.minTradingDays
  }

  // ---------------------------------------------------------------------
  // The open-trade index

  /** The open-trade index maps a ticket to the position of its trade in the
      ledger: both refer to the same trade record. */
  ghost predicate IndexWellFormed(trades: seq<SimulatedTrade>, index: map<int, int>) {
    forall k :: k in index ==>
      0 <= index[k] < |trades| && trades[index[k]].ticket == k && trades[index[k]].status == Open
  }

  /** Every OPEN ledger entry is the one the index holds for its ticket. */
  ghost predicate IndexMatchesLedger(trades: seq<SimulatedTrade>, index: map<int, int>) {
    && IndexWellFormed(trades, index)
    && forall i :: 0 <= i < |trades| && trades[i].status == Open ==>
         trades[i].ticket in index && index[trades[i].ticket] == i
  }

  /** No two OPEN ledger entries carry the same ticket. */
  ghost predicate OpenTicketsDistinct(trades: seq<SimulatedTrade>) {
    forall i, j :: 0 <= i < j < |trades| && trades[i].status == Open && trades[j].status == Open ==>
      trades[i].ticket != trades[j].ticket
  }

  /** A ledger consistent with an index never has two OPEN entries on one ticket. */
  lemma MatchedLedgerDistinct(trades: seq<SimulatedTrade>, index: map<int, int>)
    requires IndexMatchesLedger(trades, index)
    ensures OpenTicketsDistinct(trades)
  {
  }

  /** Closing the trade the index holds for `k` and dropping `k` keeps the
      index consistent with the ledger. */
  lemma CloseKeepsIndex(trades: seq<SimulatedTrade>, index: map<int, int>, k: int, closed: SimulatedTrade)
    requires IndexWellFormed(trades, index) && k in index
    requires closed.ticket == k && closed.status == Closed
    ensures IndexWellFormed(trades[index[k] := closed], index - {k})
    ensures IndexMatchesLedger(trades, index) ==> IndexMatchesLedger(trades[index[k] := closed], index - {k})
  {
  }

  /** The index `load` rebuilds: each OPEN entry, in ledger order, is stored
      under its ticket, a later entry replacing an earlier one. */
  function OpenIndex(trades: seq<SimulatedTrade>): map<int, int>
  {
    if |trades| == 0 then map[]
    else
      var index := OpenIndex(trades[..|trades| - 1]);
      var t := trades[|trades| - 1];
      if t.status == Open then index[t.ticket := |trades| - 1] else index
  }

  /** The next ticket `load` derives: one past the largest OPEN ticket, and
      never below the first ticket. Closed trades are not consulted. */
  function ReloadedNextTicket(trades: seq<SimulatedTrade>): int
  {
    if |trades| == 0 then FirstTicket
    else
      var next := ReloadedNextTicket(trades[..|trades| - 1]);
      var t := trades[|trades| - 1];
      if t.status == Open then MaxInt(next, t.ticket + 1) else next
  }

  /** The rebuilt index holds exactly the tickets of OPEN entries, each at
      the last OPEN entry carrying it. */
  lemma {:induction false} OpenIndexExact(trades: seq<SimulatedTrade>)
    ensures IndexWellFormed(trades, OpenIndex(trades))
    ensures forall i :: 0 <= i < |trades| && trades[i].status == Open ==> trades[i].ticket in OpenIndex(trades)
    ensures forall k, j :: k in OpenIndex(trades) && OpenIndex(trades)[k] < j < |trades| ==>
              !(trades[j].status == Open && trades[j].ticket == k)
  {
    if |trades| > 0 {
      var init := trades[..|trades| - 1];
      OpenIndexExact(init);
      assert forall i :: 0 <= i < |init| ==> init[i] == trades[i];
    }
  }

  /** For a ledger whose OPEN entries carry distinct tickets and are all
      indexed, reloading rebuilds exactly the same index. */
  lemma {:induction false} ReloadRebuildsIndex(trades: seq<SimulatedTrade>, index: map<int, int>)
    requires IndexMatchesLedger(trades, index)
    ensures OpenIndex(trades) == index
  {
    if |trades| == 0 {
      assert forall k :: k !in index;
    } else {
      var n := |trades| - 1;
      var init := trades[..n];
      var t := trades[n];
      var smaller := if t.status == Open then index - {t.ticket} else index;
      assert forall i :: 0 <= i < n ==> init[i] == trades[i];
      assert IndexMatchesLedger(init, smaller) by {
        forall k | k in smaller ensures 0 <= smaller[k] < n {
          assert index[k] != n;
        }
      }
      ReloadRebuildsIndex(init, smaller);
      if t.status == Open {
        assert index == smaller[t.ticket := n];
      }
    }
  }

  /** When the OPEN entries carry distinct tickets, the rebuilt index holds
      every OPEN entry at its own position. */
  lemma DistinctOpenIndexMatches(trades: seq<SimulatedTrade>)
    requires OpenTicketsDistinct(trades)
    ensures IndexMatchesLedger(trades, OpenIndex(trades))
  {
    OpenIndexExact(trades);
  }

  /** The reloaded counter is at least the first ticket, above every OPEN
      ticket, and is either the first ticket or one past an OPEN ticket. */
  lemma {:induction false} ReloadedNextTicketBounds(trades: seq<SimulatedTrade>)
    ensures ReloadedNextTicket(trades) >= FirstTicket
    ensures forall i :: 0 <= i < |trades| && trades[i].status == Open ==> trades[i].ticket < ReloadedNextTicket(trades)
    ensures ReloadedNextTicket(trades) == FirstTicket ||
            exists i :: 0 <= i < |trades| && trades[i].status == Open && ReloadedNextTicket(trades) == trades[i].ticket + 1
  {
    if |trades| > 0 {
      var init := trades[..|trades| - 1];
      ReloadedNextTicketBounds(init);
      assert forall i :: 0 <= i < |init| ==> init[i] == trades[i];
      if ReloadedNextTicket(trades) != FirstTicket && ReloadedNextTicket(trades) == ReloadedNextTicket(init) {
        var i :| 0 <= i < |init| && init[i].status == Open && ReloadedNextTicket(init) == init[i].ticket + 1;
        assert trades[i] == init[i];
      }
    }
  }

  /** Reloading never moves the counter past where a consistent engine had
      it: closed tickets above every open one are forgotten. */
  lemma ReloadNeverAdvancesTicket(trades: seq<SimulatedTrade>, index: map<int, int>, nextTicket: int)
    requires IndexMatchesLedger(trades, index)
    requires nextTicket >= FirstTicket && forall k :: k in index ==> k < nextTicket
    ensures ReloadedNextTicket(trades) <= nextTicket
  {
    ReloadedNextTicketBounds(trades);
  }

  /** A closed ticket that is at least the first ticket and above every OPEN
      ticket is not excluded by the reloaded counter: the engine reissues
      tickets up to it. */
  lemma ReloadCanReissueClosedTicket(trades: seq<SimulatedTrade>, i: int)
    requires 0 <= i < |trades| && trades[i].status == Closed && trades[i].ticket >= FirstTicket
    requires forall j :: 0 <= j < |trades| && trades[j].status == Open ==> trades[j].ticket < trades[i].ticket
    ensures ReloadedNextTicket(trades) <= trades[i].ticket
  {
    ReloadedNextTicketBounds(trades);
  }

  /** A ledger holding only the closed first trade reloads with the counter
      back at that same ticket. */
  lemma ReissueExample(t: SimulatedTrade)
    requires t.ticket == FirstTicket && t.status == Closed
    ensures ReloadedNextTicket([t]) == t.ticket
  {
    assert [t][..0] == [];
  }

  // ---------------------------------------------------------------------
  // Floating profit

  /** The profit ledger entry `i` adds to the floating total: its own profit
      when the index holds it for its ticket, nothing otherwise. */
  function Contribution(trades: seq<SimulatedTrade>, index: map<int, int>, i: int): real
    requires 0 <= i < |trades|
  {
    var k := trades[i].ticket;
    if k in index && index[k] == i then trades[i].profit else 0.0
  }

  /** The sum of the profits of the trades the index holds, in ledger order. */
  function FloatingProfit(trades: seq<SimulatedTrade>, index: map<int, int>): real
  {
    if |trades| == 0 then 0.0
    else FloatingProfit(trades[..|trades| - 1], index) + Contribution(trades, index, |trades| - 1)
  }

  /** Two ledgers of one length whose entries contribute alike except at
      position `p` have floating totals that differ by the change at `p`. */
  lemma {:induction false} FloatingProfitPointwise(
    trades: seq<SimulatedTrade>, index: map<int, int>,
    trades': seq<SimulatedTrade>, index': map<int, int>, p: int)
    requires |trades| == |trades'|
    requires forall i :: 0 <= i < |trades| && i != p ==>
               Contribution(trades, index, i) == Contribution(trades', index', i)
    ensures FloatingProfit(trades', index') - FloatingProfit(trades, index) ==
            if 0 <= p < |trades| then Contribution(trades', index', p) - Contribution(trades, index, p) else 0.0
  {
    var n := |trades| - 1;
    if n >= 0 {
      var init, init' := trades[..n], trades'[..n];
      forall i | 0 <= i < n && i != p
        ensures Contribution(init, index, i) == Contribution(init', index', i)
      {
        assert init[i] == trades[i] && init'[i] == trades'[i];
        assert Contribution(trades, index, i) == Contribution(trades', index', i);
      }
      FloatingProfitPointwise(init, index, init', index', if p < n then p else -1);
    }
  }

  /** Re-marking an indexed trade moves the floating total by its change of profit. */
  lemma RemarkFloatingProfit(trades: seq<SimulatedTrade>, index: map<int, int>, k: int, profit: real)
    requires IndexWellFormed(trades, index) && k in index
    ensures FloatingProfit(trades[index[k] := trades[index[k]].(profit := profit)], index) ==
            FloatingProfit(trades, index) + profit - trades[index[k]].profit
  {
    var p := index[k];
    var trades' := trades[p := trades[p].(profit := profit)];
    forall i | 0 <= i < |trades| && i != p
      ensures Contribution(trades, index, i) == Contribution(trades', index, i)
    {
      assert trades'[i] == trades[i];
    }
    FloatingProfitPointwise(trades, index, trades', index, p);
  }

  /** Recording a new trade under a ticket the index does not hold adds its profit. */
  lemma AppendFloatingProfit(trades: seq<SimulatedTrade>, index: map<int, int>, t: SimulatedTrade)
    requires t.ticket !in index
    ensures FloatingProfit(trades + [t], index[t.ticket := |trades|]) ==
            FloatingProfit(trades, index) + t.profit
  {
    var trades' := trades + [t];
    var index' := index[t.ticket := |trades|];
    assert trades'[..|trades|] == trades;
    forall i | 0 <= i < |trades|
      ensures Contribution(trades, index, i) == Contribution(trades, index', i)
    {
    }
    FloatingProfitPointwise(trades, index, trades, index', -1);
  }

  /** Closing an indexed trade and dropping its ticket removes its old profit
      from the floating total, whatever the closed entry now holds. */
  lemma CloseFloatingProfit(trades: seq<SimulatedTrade>, index: map<int, int>, k: int, closed: SimulatedTrade)
    requires IndexWellFormed(trades, index) && k in index && closed.ticket == k
    ensures FloatingProfit(trades[index[k] := closed], index - {k}) ==
            FloatingProfit(trades, index) - trades[index[k]].profit
  {
    var p := index[k];
    var trades' := trades[p := closed];
    var index' := index - {k};
    forall i | 0 <= i < |trades| && i != p
      ensures Contribution(trades, index, i) == Contribution(trades', index', i)
    {
      assert trades'[i] == trades[i];
    }
    FloatingProfitPointwise(trades, index, trades', index', p);
  }
}
