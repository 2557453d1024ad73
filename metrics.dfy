/** The three meters of the page (balance, flow, surplus) and the per-person
    and per-day measures they are built from. Each loop of the page is a
    method proved equal to a specification function; the properties the page
    relies on are proved about those functions. */
module Metrics {
  import opened Store

  // ---------------------------------------------------------------------
  // Numeric helpers
  // ---------------------------------------------------------------------

  /** `Math.max` on integers. */
  function Max(a: int, b: int): (r: int)
    ensures r >= a && r >= b && (r == a || r == b)
  {
    if a < b then b else a
  }

  /** `Math.min` on integers. */
  function Min(a: int, b: int): (r: int)
    ensures r <= a && r <= b && (r == a || r == b)
  {
    if a < b then a else b
  }

  /** `clamp(n, a, b)`, that is `Math.max(a, Math.min(b, n))`, on integers. */
  function Clamp(n: int, a: int, b: int): (r: int)
    ensures a <= b ==> a <= r <= b
    ensures a <= n <= b ==> r == n
    ensures n < a ==> r == a
    ensures a <= b < n ==> r == b
  {
    Max(a, if b < n then b else n)
  }

  /** `clamp(n, a, b)` on the real-valued intermediate scores of the flow meter. */
  function ClampReal(n: real, a: real, b: real): (r: real)
    ensures a <= b ==> a <= r <= b
    ensures a <= n <= b ==> r == n
    ensures n < a ==> r == a
    ensures a <= b < n ==> r == b
  {
    var m := if b < n then b else n;
    if m < a then a else m
  }

  /** `Math.abs` on reals. */
  function AbsReal(x: real): (r: real)
    ensures r >= 0.0 && (r == x || r == -x)
  {
    if x < 0.0 then -x else x
  }

  /** `Math.round`: the nearest integer, halves rounded up. */
  function Round(x: real): (r: int)
    ensures x - 0.5 < r as real <= x + 0.5
  {
    (x + 0.5).Floor
  }

  lemma RoundBounds(x: real, lo: int, hi: int)
    requires lo as real <= x <= hi as real
    ensures lo <= Round(x) <= hi
  {
  }

  /** 0 <= x <= n with n > 0 gives 0 <= x / n <= 1. */
  lemma UnitQuotient(x: real, n: real)
    requires 0.0 <= x <= n && n > 0.0
    ensures 0.0 <= x / n <= 1.0
  {
  }

  // ---------------------------------------------------------------------
  // Streaks and rest gaps of one person
  // ---------------------------------------------------------------------

  /** Slots i .. i+n-1 all exist and are all work. */
  ghost predicate RunAt(s: seq<Slot>, i: nat, n: nat) {
    i + n <= |s| && forall k :: i <= k < i + n ==> s[k] == Work
  }

  /** The length of the work run that ends at the last slot (0 if it is rest). */
  function TrailingRun(s: seq<Slot>): (r: nat)
    ensures r <= |s|
  {
    if |s| == 0 || s[|s| - 1] == Rest then 0 else TrailingRun(s[..|s| - 1]) + 1
  }

  /** The whole trailing run is work, and it is preceded by rest or the start. */
  lemma {:induction false} TrailingRunIsRun(s: seq<Slot>)
    ensures RunAt(s, |s| - TrailingRun(s), TrailingRun(s))
    ensures TrailingRun(s) < |s| ==> s[|s| - TrailingRun(s) - 1] == Rest
  {
    if |s| > 0 && s[|s| - 1] == Work {
      var t := s[..|s| - 1];
      TrailingRunIsRun(t);
    }
  }

  /** A counter of at least two work slots before slot |s| means s ends in two work slots. */
  lemma TrailingRunAtLeastTwo(s: seq<Slot>)
    ensures TrailingRun(s) >= 2 <==> |s| >= 2 && s[|s| - 2] == Work && s[|s| - 1] == Work
  {
  }

  /** The longest run of consecutive work slots (the specification of `countStreaks`). */
  function LongestStreak(s: seq<Slot>): (r: nat)
    ensures TrailingRun(s) <= r <= |s|
  {
    if |s| == 0 then 0 else Max(LongestStreak(s[..|s| - 1]), TrailingRun(s))
  }

  /** LongestStreak(s) is the length of some work run of s, and no work run of s is longer. */
  lemma {:induction false} LongestStreakIsLongestRun(s: seq<Slot>)
    ensures exists i: nat :: RunAt(s, i, LongestStreak(s))
    ensures forall i: nat, n: nat :: RunAt(s, i, n) ==> n <= LongestStreak(s)
  {
    if |s| == 0 {
      assert RunAt(s, 0, LongestStreak(s));
    } else {
      var t := s[..|s| - 1];
      LongestStreakIsLongestRun(t);
      TrailingRunIsRun(s);
      var tr := TrailingRun(s);
      if LongestStreak(s) == LongestStreak(t) {
        var i: nat :| RunAt(t, i, LongestStreak(t));
        assert RunAt(s, i, LongestStreak(s));
      } else {
        assert RunAt(s, |s| - tr, LongestStreak(s));
      }
      forall i: nat, n: nat | RunAt(s, i, n) ensures n <= LongestStreak(s) {
        if i + n < |s| {
          assert RunAt(t, i, n);
        }
      }
    }
  }

  /** A schedule row with no work slot has streak 0, and conversely. */
  lemma {:induction false} LongestStreakZero(s: seq<Slot>)
    ensures LongestStreak(s) == 0 <==> forall k :: 0 <= k < |s| ==> s[k] == Rest
  {
    LongestStreakIsLongestRun(s);
    if LongestStreak(s) == 0 {
      forall k | 0 <= k < |s| ensures s[k] == Rest {
        if s[k] == Work {
          assert RunAt(s, k, 1);
        }
      }
    } else {
      var i: nat :| RunAt(s, i, LongestStreak(s));
      assert s[i] == Work;
    }
  }

  /** The number of slots j that are rest and are preceded by two work slots:
      exactly one for every maximal work run of length at least 2 that is
      followed by a rest slot (the specification of `restGaps`). */
  function GapCount(s: seq<Slot>): (r: nat)
  {
    if |s| < 3 then 0
    else GapCount(s[..|s| - 1])
         + (if s[|s| - 3] == Work && s[|s| - 2] == Work && s[|s| - 1] == Rest then 1 else 0)
  }

  /** Each counted gap uses up three slots of its own, so at most a third of the slots are gaps. */
  lemma {:induction false} GapCountBound(s: seq<Slot>)
    ensures 3 * GapCount(s) + (if TrailingRun(s) < 2 then TrailingRun(s) else 2) <= |s|
    ensures GapCount(s) <= |s| / 3
  {
    if |s| > 0 {
      var t := s[..|s| - 1];
      GapCountBound(t);
      TrailingRunAtLeastTwo(t);
      if |s| >= 3 {
        assert s[|s| - 3] == t[|t| - 2] && s[|s| - 2] == t[|t| - 1];
      }
    }
  }

  /** A work run at the end of a row, never followed by rest, adds no gap. */
  lemma {:induction false} TrailingWorkNotCounted(s: seq<Slot>, n: nat)
    ensures GapCount(s + Filled(n, Work)) == GapCount(s)
    ensures LongestStreak(s + Filled(n, Work)) >= n
  {
    var w := s + Filled(n, Work);
    if n == 0 {
      assert w == s;
    } else {
      TrailingWorkNotCounted(s, n - 1);
      assert w[..|w| - 1] == s + Filled(n - 1, Work);
      assert w[|w| - 1] == Work;
      TrailingWorkRun(s, n);
    }
  }

  lemma TrailingWorkRun(s: seq<Slot>, n: nat)
    ensures TrailingRun(s + Filled(n, Work)) >= n
  {
    var w := s + Filled(n, Work);
    for k := 0 to n
      invariant TrailingRun(s + Filled(k, Work)) >= k
    {
      var u := s + Filled(k + 1, Work);
      assert u[..|u| - 1] == s + Filled(k, Work);
    }
  }

  /** The row of a resting person has no streak and no gap. */
  lemma {:induction false} RestingRow(n: nat)
    ensures LongestStreak(Filled(n, Rest)) == 0
    ensures GapCount(Filled(n, Rest)) == 0
  {
    var s := Filled(n, Rest);
    LongestStreakZero(s);
    if n >= 3 {
      RestingRow(n - 1);
      assert s[..n - 1] == Filled(n - 1, Rest);
    }
  }

  // ---------------------------------------------------------------------
  // The balance meter
  // ---------------------------------------------------------------------

  /** `Math.max(0, countStreaks(arr) - 3) * 8`: 8 points per work day past the third in a row. */
  function Penalty(row: seq<Slot>): (r: nat)
  {
    Max(0, LongestStreak(row) - 3) * 8
  }

  /** `restGaps(arr) * 4`: 4 points per rest slot that breaks a run of two or more. */
  function Reward(row: seq<Slot>): (r: nat)
  {
    GapCount(row) * 4
  }

  /** The sum of the penalties of persons 0 .. k-1. */
  function TotalPenalty(g: Grid, k: nat): (r: nat)
    requires k <= |g|
  {
    if k == 0 then 0 else TotalPenalty(g, k - 1) + Penalty(g[k - 1])
  }

  /** The sum of the rewards of persons 0 .. k-1. */
  function TotalReward(g: Grid, k: nat): (r: nat)
    requires k <= |g|
  {
    if k == 0 then 0 else TotalReward(g, k - 1) + Reward(g[k - 1])
  }

  /** The balance meter: a baseline of 70, plus rewards, minus penalties, kept within 0..100. */
  function Balance(g: Grid): (b: int)
    ensures 0 <= b <= 100
  {
    Clamp(70 + TotalReward(g, |g|) - TotalPenalty(g, |g|), 0, 100)
  }

  /** With nobody working, no penalty and no reward is collected. */
  lemma {:induction false} BlankTotals(g: Grid, k: nat)
    requires k <= |g|
    requires forall q :: 0 <= q < k ==> g[q] == Filled(|g[q]|, Rest)
    ensures TotalPenalty(g, k) == 0 && TotalReward(g, k) == 0
  {
    if k > 0 {
      BlankTotals(g, k - 1);
      RestingRow(|g[k - 1]|);
    }
  }

  /** Five work days followed by two rest days: a streak of five and one gap,
      so this person costs (5 - 3) * 8 = 16 points and earns 4. */
  lemma FiveWorkTwoRest()
    ensures var row := [Work, Work, Work, Work, Work, Rest, Rest];
      LongestStreak(row) == 5 && GapCount(row) == 1 && Penalty(row) == 16 && Reward(row) == 4
  {
    var w1, w2, w3, w4, w5 := [Work], [Work, Work], [Work, Work, Work], [Work, Work, Work, Work], [Work, Work, Work, Work, Work];
    var r6 := w5 + [Rest];
    var row := r6 + [Rest];
    assert w1[..0] == [] && w2[..1] == w1 && w3[..2] == w2 && w4[..3] == w3 && w5[..4] == w4;
    assert r6[..5] == w5 && row[..6] == r6;
    assert TrailingRun(w5) == 5 && LongestStreak(w5) == 5;
    assert LongestStreak(r6) == 5 && LongestStreak(row) == 5;
    assert GapCount(w3) == 0 && GapCount(w4) == 0 && GapCount(w5) == 0;
    assert GapCount(r6) == 1;
    assert row == [Work, Work, Work, Work, Work, Rest, Rest];
  }

  // ---------------------------------------------------------------------
  // The flow meter
  // ---------------------------------------------------------------------

  /** The number of persons among 0 .. k-1 who work on day h. */
  function Working(g: Grid, hours: nat, k: nat, h: nat): (r: nat)
    requires Shaped(g, hours) && k <= |g| && h < hours
    ensures r <= k
  {
    if k == 0 then 0
    else Working(g, hours, k - 1, h) + (if g[k - 1][h] == Work then 1 else 0)
  }

  /** The fraction of the roster working on day h (the specification of `utilizationAtHour`). */
  function Utilization(g: Grid, hours: nat, h: nat): (u: real)
    requires Shaped(g, hours) && h < hours
    ensures 0.0 <= u <= 1.0
  {
    var w := Working(g, hours, |g|, h);
    UnitQuotient(w as real, |g| as real);
    w as real / |g| as real
  }

  /** The sum of the utilizations of days 0 .. k-1. */
  function SumUtil(g: Grid, hours: nat, k: nat): (r: real)
    requires Shaped(g, hours) && k <= hours
    ensures 0.0 <= r <= k as real
  {
    if k == 0 then 0.0 else SumUtil(g, hours, k - 1) + Utilization(g, hours, k - 1)
  }

  /** The mean daily utilization: within [0, 1]. */
  function Average(g: Grid, hours: nat): (avg: real)
    requires Shaped(g, hours)
    ensures 0.0 <= avg <= 1.0
  {
    var sum := SumUtil(g, hours, hours);
    UnitQuotient(sum, hours as real);
    sum / hours as real
  }

  /** The sum over days 0 .. k-1 of the distance of the utilization from `avg`
      (what the page calls `variance`: a total absolute deviation). */
  function Deviation(g: Grid, hours: nat, avg: real, k: nat): (r: real)
    requires Shaped(g, hours) && k <= hours
    ensures r >= 0.0
  {
    if k == 0 then 0.0
    else Deviation(g, hours, avg, k - 1) + AbsReal(Utilization(g, hours, k - 1) - avg)
  }

  /** 100 minus the mean absolute deviation in percent, kept within 0..100. */
  function Stability(g: Grid, hours: nat): (r: real)
    requires Shaped(g, hours)
    ensures 0.0 <= r <= 100.0
  {
    ClampReal(100.0 - Deviation(g, hours, Average(g, hours), hours) * 100.0 / hours as real, 0.0, 100.0)
  }

  /** 100 minus 220 points per unit of distance from the 70% target, kept within 0..100. */
  function Proximity(g: Grid, hours: nat): (r: real)
    requires Shaped(g, hours)
    ensures 0.0 <= r <= 100.0
  {
    ClampReal(100.0 - AbsReal(Average(g, hours) - 0.7) * 220.0, 0.0, 100.0)
  }

  /** The flow meter: `Math.round(0.6 * stability + 0.4 * proximity)`, an integer within 0..100. */
  function Flow(g: Grid, hours: nat): (f: int)
    requires Shaped(g, hours)
    ensures 0 <= f <= 100
  {
    var x := 0.6 * Stability(g, hours) + 0.4 * Proximity(g, hours);
    RoundBounds(x, 0, 100);
    Round(x)
  }

  /** Nobody at work on any day: every day has utilization 0. */
  lemma {:induction false} BlankWorking(g: Grid, hours: nat, k: nat, h: nat)
    requires Shaped(g, hours) && k <= |g| && h < hours
    requires forall q, j :: 0 <= q < |g| && 0 <= j < hours ==> g[q][j] == Rest
    ensures Working(g, hours, k, h) == 0
  {
    if k > 0 {
      BlankWorking(g, hours, k - 1, h);
    }
  }

  lemma {:induction false} BlankSums(g: Grid, hours: nat, k: nat)
    requires Shaped(g, hours) && k <= hours
    requires forall q, j :: 0 <= q < |g| && 0 <= j < hours ==> g[q][j] == Rest
    ensures SumUtil(g, hours, k) == 0.0 && Deviation(g, hours, 0.0, k) == 0.0
  {
    if k > 0 {
      BlankSums(g, hours, k - 1);
      BlankWorking(g, hours, |g|, k - 1);
    }
  }

  /** With nobody working: stability 100, proximity 0 (the average 0 is 0.7 from the
      target, and 0.7 * 220 > 100), hence flow round(60) = 60. */
  lemma BlankFlow(g: Grid, hours: nat)
    requires Shaped(g, hours)
    requires forall q, j :: 0 <= q < |g| && 0 <= j < hours ==> g[q][j] == Rest
    ensures Stability(g, hours) == 100.0 && Proximity(g, hours) == 0.0
    ensures Flow(g, hours) == 60
  {
    BlankSums(g, hours, hours);
    assert Average(g, hours) == 0.0;
  }

  // ---------------------------------------------------------------------
  // The surplus meter and the three meters together
  // ---------------------------------------------------------------------

  /** The surplus meter: `Math.round(0.5 * balance + 0.5 * flow)`. It is the mean of the two,
      rounded up on a half, and so lies between them. */
  function Surplus(b: int, f: int): (s: int)
    ensures s == (b + f + 1) / 2
    ensures (if b < f then b else f) <= s <= (if b < f then f else b)
  {
    Round(0.5 * b as real + 0.5 * f as real)
  }

  /** The readings of the three bars. */
  datatype Meters = Meters(balance: int, flow: int, surplus: int)

  /** What `updateMeters` computes for a schedule. */
  function MetersOf(g: Grid, hours: nat): (m: Meters)
    requires Shaped(g, hours)
    ensures 0 <= m.balance <= 100 && 0 <= m.flow <= 100 && 0 <= m.surplus <= 100
    ensures Min(m.balance, m.flow) <= m.surplus <= Max(m.balance, m.flow)
  {
    var b := Balance(g);
    var f := Flow(g, hours);
    Meters(b, f, Surplus(b, f))
  }

  /** The all-rest schedule, for any roster and any number of days, reads 70, 60 and 65. */
  lemma BlankMeters(people: nat, hours: nat)
    requires people >= 1 && hours >= 1
    ensures MetersOf(Blank(people, hours), hours) == Meters(70, 60, 65)
  {
    var g := Blank(people, hours);
    forall q | 0 <= q < |g| ensures g[q] == Filled(|g[q]|, Rest) {
    }
    BlankTotals(g, |g|);
    BlankFlow(g, hours);
  }

  // ---------------------------------------------------------------------
  // The loops of the page
  // ---------------------------------------------------------------------

  /** `countStreaks`: one pass keeping the current run and the best run seen. */
  method CountStreaks(arr: seq<Slot>) returns (best: nat)
    ensures best == LongestStreak(arr)
  {
    best := 0;
    var cur := 0;
    for k := 0 to |arr|
      invariant cur == TrailingRun(arr[..k])
      invariant best == LongestStreak(arr[..k])
    {
      assert arr[..k + 1][..k] == arr[..k];
      if arr[k] == Work {
        cur := cur + 1;
        best := Max(best, cur);
      } else {
        cur := 0;
      }
    }
    assert arr[..|arr|] == arr;
  }

  /** `restGaps`: one pass counting the rest slots met while the work counter is at least 2. */
  method RestGaps(arr: seq<Slot>) returns (gaps: nat)
    ensures gaps == GapCount(arr)
  {
    gaps := 0;
    var cur := 0;
    for k := 0 to |arr|
      invariant cur == TrailingRun(arr[..k])
      invariant gaps == GapCount(arr[..k])
    {
      var s := arr[..k + 1];
      assert s[..k] == arr[..k];
      if arr[k] == Work {
        cur := cur + 1;
      } else {
        TrailingRunAtLeastTwo(arr[..k]);
        if cur >= 2 {
          gaps := gaps + 1;
        }
        cur := 0;
      }
    }
    assert arr[..|arr|] == arr;
  }

  /** `utilizationAtHour(h)`: count the persons working on day h, divide by the roster size. */
  method UtilizationAtHour(s: Schedule, h: nat) returns (u: real)
    requires s.Valid() && h < s.hours
    ensures u == Utilization(s.Snapshot(), s.hours, h)
  {
    ghost var g := s.Snapshot();
    var working := 0;
    for q := 0 to |s.rows|
      invariant working == Working(g, s.hours, q, h)
    {
      if s.rows[q][h] == Work {
        working := working + 1;
      }
    }
    u := working as real / |s.rows| as real;
  }

  /** The balance part of `updateMeters`: total penalties and rewards over the roster, then clamp. */
  method BalanceMeter(s: Schedule) returns (balance: int)
    requires s.Valid()
    ensures balance == Balance(s.Snapshot())
  {
    ghost var g := s.Snapshot();
    var penalties, rewards: int := 0, 0;
    for q := 0 to |s.rows|
      invariant penalties == TotalPenalty(g, q) && rewards == TotalReward(g, q)
    {
      var row := s.rows[q][..];
      var streak := CountStreaks(row);
      var gaps := RestGaps(row);
      penalties := penalties + Max(0, streak as int - 3) * 8;
      rewards := rewards + gaps * 4;
    }
    balance := Clamp(70 + rewards - penalties, 0, 100);
  }

  /** The first loop of the flow part of `updateMeters`: the mean daily utilization. */
  method MeanUtilization(s: Schedule) returns (avg: real)
    requires s.Valid()
    ensures avg == Average(s.Snapshot(), s.hours)
  {
    ghost var g := s.Snapshot();
    var sum := 0.0;
    for h := 0 to s.hours
      invariant sum == SumUtil(g, s.hours, h)
    {
      var u := UtilizationAtHour(s, h);
      sum := sum + u;
    }
    avg := sum / s.hours as real;
  }

  /** The second loop of the flow part of `updateMeters`: the total distance of the
      daily utilizations from `avg`. */
  method TotalDeviation(s: Schedule, avg: real) returns (variance: real)
    requires s.Valid()
    ensures variance == Deviation(s.Snapshot(), s.hours, avg, s.hours)
  {
    ghost var g := s.Snapshot();
    variance := 0.0;
    for h := 0 to s.hours
      invariant variance == Deviation(g, s.hours, avg, h)
    {
      var u := UtilizationAtHour(s, h);
      variance := variance + AbsReal(u - avg);
    }
  }

  /** The flow part of `updateMeters`: stability and proximity from the mean and the
      deviation, then the rounded weighted sum. */
  method FlowMeter(s: Schedule) returns (flow: int)
    requires s.Valid()
    ensures flow == Flow(s.Snapshot(), s.hours)
  {
    var avg := MeanUtilization(s);
    var variance := TotalDeviation(s, avg);
    var stability := ClampReal(100.0 - variance * 100.0 / s.hours as real, 0.0, 100.0);
    var proximity := ClampReal(100.0 - AbsReal(avg - 0.7) * 220.0, 0.0, 100.0);
    flow := Round(0.6 * stability + 0.4 * proximity);
  }

  /** The metric computation of `updateMeters`: balance, flow, and their rounded mean. */
  method UpdateMeters(s: Schedule) returns (m: Meters)
    requires s.Valid()
    ensures m == MetersOf(s.Snapshot(), s.hours)
  {
    var balance := BalanceMeter(s);
    var flow := FlowMeter(s);
    var surplus := Round(0.5 * balance as real + 0.5 * flow as real);
    m := Meters(balance, flow, surplus);
  }
}
