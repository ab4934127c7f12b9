/** The computations inside the collection server's report endpoints, taken
    apart from the database queries that feed them. Rows arrive as the pnl
    column of the outcomes table, where a missing value counts as 0. */
module ServerReports {
  import opened Wrappers

  /** A row's pnl, a missing value counting as 0. */
  function PnlOf(pnl: Option<real>): real {
    pnl.GetOr(0.0)
  }

  // ---------------------------------------------------------------------
  // Win rate

  /** The number of rows with a strictly positive pnl. */
  function Wins(rows: seq<Option<real>>): (wins: nat)
    ensures wins <= |rows|
    ensures wins == 0 <==> forall i :: 0 <= i < |rows| ==> PnlOf(rows[i]) <= 0.0
  {
    if rows == [] then 0
    else (if PnlOf(rows[0]) > 0.0 then 1 else 0) + Wins(rows[1..])
  }

  /** The win rate in percent; `ifEmpty` when there are no rows (0 in the
      performance report, 50 in the alerts). */
  function WinRate(rows: seq<Option<real>>, ifEmpty: real): (rate: real)
    ensures rows == [] ==> rate == ifEmpty
    ensures rows != [] ==> 0.0 <= rate <= 100.0
    ensures rows != [] ==> (rate == 100.0 <==> forall i :: 0 <= i < |rows| ==> PnlOf(rows[i]) > 0.0)
  {
    if |rows| > 0 then
      var wins := Wins(rows);
      WinsAllPositive(rows);
      PercentBounds(wins as real, |rows| as real);
      wins as real / |rows| as real * 100.0
    else ifEmpty
  }

  /** A part of a positive whole, in percent, lies in [0, 100] and is 100
      only for the whole. */
  lemma PercentBounds(part: real, whole: real)
    requires 0.0 <= part <= whole && whole > 0.0
    ensures 0.0 <= part / whole * 100.0 <= 100.0
    ensures part / whole * 100.0 == 100.0 <==> part == whole
  {
    var q := part / whole;
    assert q * whole == part;
  }

  /** Every row wins exactly when the win count is the row count. */
  lemma {:induction false} WinsAllPositive(rows: seq<Option<real>>)
    ensures Wins(rows) == |rows| <==> forall i :: 0 <= i < |rows| ==> PnlOf(rows[i]) > 0.0
  {
    if rows != [] {
      WinsAllPositive(rows[1..]);
      assert forall i :: 1 <= i < |rows| ==> rows[i] == rows[1..][i - 1];
    }
  }

  // ---------------------------------------------------------------------
  // Equity curve

  /** The cumulative pnl of the rows, in order. */
  function Cumulative(rows: seq<Option<real>>): real {
    if rows == [] then 0.0 else Cumulative(rows[..|rows| - 1]) + PnlOf(rows[|rows| - 1])
  }

  /** The cumulative pnl of a concatenation is the sum of the parts'. */
  lemma {:induction false} CumulativeAppend(a: seq<Option<real>>, b: seq<Option<real>>)
    ensures Cumulative(a + b) == Cumulative(a) + Cumulative(b)
  {
    if b != [] {
      var n := |b| - 1;
      assert (a + b)[..|a + b| - 1] == a + b[..n];
      CumulativeAppend(a, b[..n]);
    } else {
      assert a + b == a;
    }
  }

  /** The equity curve: one point per row, holding the cumulative pnl up to
      and including that row. */
  method EquityCurve(rows: seq<Option<real>>) returns (curve: seq<real>)
    ensures |curve| == |rows|
    ensures forall i :: 0 <= i < |rows| ==> curve[i] == Cumulative(rows[..i + 1])
    ensures forall i :: 0 < i < |rows| ==> curve[i] - curve[i - 1] == PnlOf(rows[i])
    ensures |rows| > 0 ==> curve[|rows| - 1] == Cumulative(rows)
  {
    var cumulative := 0.0;
    curve := [];
    var k := 0;
    while k < |rows|
      invariant 0 <= k <= |rows|
      invariant |curve| == k
      invariant cumulative == Cumulative(rows[..k])
      invariant forall i :: 0 <= i < k ==> curve[i] == Cumulative(rows[..i + 1])
    {
      assert rows[..k + 1][..k] == rows[..k];
      cumulative := cumulative + PnlOf(rows[k]);
      curve := curve + [cumulative];
      k := k + 1;
    }
    forall i | 0 < i < |rows| ensures curve[i] - curve[i - 1] == PnlOf(rows[i]) {
      assert rows[..i + 1][..i] == rows[..i];
    }
    assert rows[..|rows|] == rows;
  }

  // ---------------------------------------------------------------------
  // Alerts

  /** The rows start with at least `n` losses. */
  predicate LeadingLosses(recent: seq<Option<real>>, n: nat) {
    |recent| >= n && forall i :: 0 <= i < n ==> PnlOf(recent[i]) < 0.0
  }

  /** The length of the run of losses the newest-first rows start with. */
  method LosingStreak(recent: seq<Option<real>>) returns (streak: nat)
    ensures streak <= |recent|
    ensures LeadingLosses(recent, streak)
    ensures streak < |recent| ==> PnlOf(recent[streak]) >= 0.0
  {
    streak := 0;
    var k := 0;
    while k < |recent|
      invariant 0 <= k <= |recent| && streak == k
      invariant LeadingLosses(recent, streak)
    {
      if PnlOf(recent[k]) < 0.0 {
        streak := streak + 1;
      } else {
        break;
      }
      k := k + 1;
    }
  }

  datatype Severity = Medium | High

  /** The DRAWDOWN alert: raised on a losing streak of 3 or more, high at 5 or more. */
  method DrawdownAlert(recent: seq<Option<real>>) returns (alert: Option<Severity>)
    ensures alert.Some? <==> LeadingLosses(recent, 3)
    ensures alert == Some(High) <==> LeadingLosses(recent, 5)
  {
    var streak := LosingStreak(recent);
    if streak >= 3 {
      alert := Some(if streak >= 5 then High else Medium);
    } else {
      alert := None;
    }
    StreakBounds(recent, streak, 3);
    StreakBounds(recent, streak, 5);
  }

  /** A maximal losing streak is at least `n` exactly when the rows start with `n` losses. */
  lemma StreakBounds(recent: seq<Option<real>>, streak: nat, n: nat)
    requires streak <= |recent| && LeadingLosses(recent, streak)
    requires streak < |recent| ==> PnlOf(recent[streak]) >= 0.0
    ensures streak >= n <==> LeadingLosses(recent, n)
  {
  }

  /** Outcomes compared against the overall win rate. */
  const RecentWindow: nat := 20

  /** The WIN_RATE_DROP alert: outcomes are newest first; the rate of the
      newest 20 is compared with the overall rate, each 50 when empty. */
  function WinRateDrop(outcomes: seq<Option<real>>): (drop: bool)
    ensures |outcomes| <= RecentWindow ==> !drop
    ensures drop <==>
      WinRate(outcomes, 50.0) - WinRate(outcomes[..MinInt(RecentWindow, |outcomes|)], 50.0) > 10.0
    ensures drop ==> exists i :: 0 <= i < MinInt(RecentWindow, |outcomes|) && PnlOf(outcomes[i]) <= 0.0
  {
    var newest := outcomes[..MinInt(RecentWindow, |outcomes|)];
    var overall := WinRate(outcomes, 50.0);
    var recent := WinRate(newest, 50.0);
    assert |outcomes| <= RecentWindow ==> newest == outcomes;
    assert forall i :: 0 <= i < |newest| ==> newest[i] == outcomes[i];
    overall - recent > 10.0
  }

  // ---------------------------------------------------------------------
  // Backtest

  const DefaultBacktestDays: int := 30
  const MaxBacktestDays: int := 90

  /** The requested period, 30 days when absent, capped at 90. */
  function BacktestDays(requested: Option<int>): (days: int)
    ensures days <= MaxBacktestDays
    ensures requested.None? ==> days == DefaultBacktestDays
    ensures requested.Some? && requested.value <= MaxBacktestDays ==> days == requested.value
    ensures requested.Some? && requested.value > MaxBacktestDays ==> days == MaxBacktestDays
  {
    MinInt(requested.GetOr(DefaultBacktestDays), MaxBacktestDays)
  }

  /** The cumulative pnl after the first `j` rows. */
  function RunningPnl(rows: seq<Option<real>>, j: nat): real
    requires j <= |rows|
  {
    if j == 0 then 0.0 else RunningPnl(rows, j - 1) + PnlOf(rows[j - 1])
  }

  /** The running pnl after `j` rows is the cumulative pnl of those rows. */
  lemma {:induction false} RunningPnlIsCumulative(rows: seq<Option<real>>, j: nat)
    requires j <= |rows|
    ensures RunningPnl(rows, j) == Cumulative(rows[..j])
  {
    if j > 0 {
      RunningPnlIsCumulative(rows, j - 1);
      assert rows[..j][..j - 1] == rows[..j - 1];
    }
  }

  /** The running peak of the cumulative pnl (starting at 0) and the largest
      drop from that peak: the largest fall from an earlier cumulative value
      (or 0) to a later one. */
  method MaxDrawdown(rows: seq<Option<real>>) returns (peak: real, maxDd: real)
    ensures forall j :: 0 <= j <= |rows| ==> RunningPnl(rows, j) <= peak
    ensures exists j :: 0 <= j <= |rows| && peak == RunningPnl(rows, j)
    ensures forall i, j :: 0 <= i <= j <= |rows| ==> RunningPnl(rows, i) - RunningPnl(rows, j) <= maxDd
    ensures exists i, j :: 0 <= i <= j <= |rows| && maxDd == RunningPnl(rows, i) - RunningPnl(rows, j)
    ensures maxDd >= 0.0
  {
    var running := 0.0;
    peak, maxDd := 0.0, 0.0;
    ghost var sums: seq<real> := [0.0];
    ghost var peakAt, ddFrom, ddTo := 0, 0, 0;
    var k := 0;
    while k < |rows|
      invariant 0 <= k <= |rows| && |sums| == k + 1
      invariant forall j {:trigger sums[j]} :: 0 <= j <= k ==> sums[j] == RunningPnl(rows, j)
      invariant running == sums[k]
      invariant forall j :: 0 <= j <= k ==> sums[j] <= peak
      invariant 0 <= peakAt <= k && peak == sums[peakAt]
      invariant forall i, j :: 0 <= i <= j <= k ==> sums[i] - sums[j] <= maxDd
      invariant 0 <= ddFrom <= ddTo <= k && maxDd == sums[ddFrom] - sums[ddTo]
    {
      ghost var oldSums, oldPeak, oldMaxDd := sums, peak, maxDd;
      running := running + PnlOf(rows[k]);
      sums := sums + [running];
      if running > peak {
        peak := running;
        peakAt := k + 1;
      }
      var dd := peak - running;
      if dd > maxDd {
        maxDd := dd;
        ddFrom, ddTo := peakAt, k + 1;
      }
      ScanStep(oldSums, oldPeak, oldMaxDd, running, peak, maxDd);
      k := k + 1;
    }
    assert sums[0] - sums[0] <= maxDd;
    forall j | 0 <= j <= |rows| ensures RunningPnl(rows, j) <= peak {
      assert sums[j] == RunningPnl(rows, j);
    }
    forall i, j | 0 <= i <= j <= |rows| ensures RunningPnl(rows, i) - RunningPnl(rows, j) <= maxDd {
      assert sums[i] == RunningPnl(rows, i) && sums[j] == RunningPnl(rows, j);
    }
    assert sums[peakAt] == RunningPnl(rows, peakAt);
    assert sums[ddFrom] == RunningPnl(rows, ddFrom) && sums[ddTo] == RunningPnl(rows, ddTo);
  }

  /** One step of the drawdown scan over the running values `sums`: raising
      the peak to the new value `x` and the maximum to the new fall from the
      peak keeps both bounds for the extended sequence. */
  lemma ScanStep(sums: seq<real>, peak: real, maxDd: real, x: real, peak': real, maxDd': real)
    requires forall j :: 0 <= j < |sums| ==> sums[j] <= peak
    requires forall i, j :: 0 <= i <= j < |sums| ==> sums[i] - sums[j] <= maxDd
    requires peak' == Max(peak, x) && maxDd' == Max(maxDd, peak' - x)
    ensures forall j :: 0 <= j < |sums + [x]| ==> (sums + [x])[j] <= peak'
    ensures forall i, j :: 0 <= i <= j < |sums + [x]| ==> (sums + [x])[i] - (sums + [x])[j] <= maxDd'
  {
    var s := sums + [x];
    forall i, j | 0 <= i <= j < |s| ensures s[i] - s[j] <= maxDd' {
      if j == |sums| {
        assert s[i] <= peak';
      } else {
        assert s[i] == sums[i] && s[j] == sums[j];
      }
    }
  }

  /** The fall of the cumulative pnl from after row i to after row j is the
      loss of the run of rows i .. j-1: the maximum drawdown is the worst
      run of consecutive trades. */
  lemma DeclineIsRunLoss(rows: seq<Option<real>>, i: nat, j: nat)
    requires i <= j <= |rows|
    ensures RunningPnl(rows, i) - RunningPnl(rows, j) == -Cumulative(rows[i..j])
  {
    RunningPnlIsCumulative(rows, i);
    RunningPnlIsCumulative(rows, j);
    assert rows[..j] == rows[..i] + rows[i..j];
    CumulativeAppend(rows[..i], rows[i..j]);
  }

  datatype BacktestSummary = BacktestSummary(
    periodDays: int, totalTrades: nat, wins: nat, losses: nat, winRate: real, totalPnl: real, maxDrawdown: real)

  datatype BacktestError = NoTradeData(days: int)

  /** The backtest summary over the period's rows, oldest first; no rows is an error. */
  method Backtest(rows: seq<Option<real>>, requestedDays: Option<int>) returns (result: Result<BacktestSummary, BacktestError>)
    ensures rows == [] <==> result.Err?
    ensures result.Err? ==> result.error.days == BacktestDays(requestedDays)
    ensures result.Ok? ==>
      && result.value.periodDays == BacktestDays(requestedDays)
      && result.value.totalTrades == |rows|
      && result.value.wins == Wins(rows)
      && result.value.wins + result.value.losses == |rows|
      && result.value.winRate == WinRate(rows, 0.0)
      && 0.0 <= result.value.winRate <= 100.0
      && (result.value.winRate == 100.0 <==> result.value.losses == 0)
      && result.value.totalPnl == Cumulative(rows)
      && result.value.maxDrawdown >= 0.0
      && (forall i, j :: 0 <= i <= j <= |rows| ==> RunningPnl(rows, i) - RunningPnl(rows, j) <= result.value.maxDrawdown)
      && (exists i, j :: 0 <= i <= j <= |rows| && result.value.maxDrawdown == RunningPnl(rows, i) - RunningPnl(rows, j))
  {
    var days := BacktestDays(requestedDays);
    if rows == [] {
      return Err(NoTradeData(days));
    }
    var wins := Wins(rows);
    var losses := |rows| - wins;
    var _, maxDd := MaxDrawdown(rows);
    var winRate := WinRate(rows, 0.0);
    WinsAllPositive(rows);
    result := Ok(BacktestSummary(days, |rows|, wins, losses, winRate, Cumulative(rows), maxDd));
  }

  // ---------------------------------------------------------------------
  // Compile request

  /** ASCII letters and digits, underscore and hyphen. */
  predicate IsEaNameChar(c: char) {
    ('a' <= c <= 'z') || ('A' <= c <= 'Z') || ('0' <= c <= '9') || c == '_' || c == '-'
  }

  function ValidEaName(name: string): (ok: bool)
    ensures ok <==> forall i :: 0 <= i < |name| ==> IsEaNameChar(name[i])
  {
    if name == [] then true
    else IsEaNameChar(name[0]) && ValidEaName(name[1..])
  }

  datatype CompileError = EaNameRequired | InvalidEaName

  /** The name a compile request queues: the request must carry a name made
      only of name characters (the empty name passes). */
  function CompileRequestName(eaName: Option<string>): (result: Result<string, CompileError>)
    ensures eaName.None? ==> result == Err(EaNameRequired)
    ensures eaName.Some? ==>
      (result.Ok? <==> forall i :: 0 <= i < |eaName.value| ==> IsEaNameChar(eaName.value[i]))
    ensures result.Ok? ==> eaName == Some(result.value)
    ensures result.Err? ==> (result.error == InvalidEaName <==> eaName.Some?)
  {
    match eaName
    case None => Err(EaNameRequired)
    case Some(name) => if ValidEaName(name) then Ok(name) else Err(InvalidEaName)
  }
}
