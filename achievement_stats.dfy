/**
 * Achievement and streak statistics over a per-day XP series
 * (src/hooks/useAchievementStats.ts).
 *
 * Dates are whole day numbers: the source parses ISO date strings and takes
 * rounded day differences, which on well-formed keys is exact integer
 * subtraction. "Today" is a parameter instead of a clock read.
 */
module AchievementStats {
  import opened Wrappers

  /** One entry of the series: the day, the XP earned, optional minutes. */
  datatype DailyXp = DailyXp(date: int, xp: int, time: Option<int>)

  /** The hook's result. Each milestone map goes from threshold to the day it was first met. */
  datatype Stats = Stats(
    maxStreak: int,
    currentStreak: int,
    maxDailyXp: int,
    totalDays: int,
    totalXp: int,
    streakMilestones: map<int, int>,
    dailyXpMilestones: map<int, int>,
    totalDaysMilestones: map<int, int>,
    totalXpMilestones: map<int, int>)

  const StreakThresholds: seq<int> := [7, 30, 60, 100, 365]
  const DailyXpThresholds: seq<int> := [500, 1000, 2000, 5000]
  const TotalDaysThresholds: seq<int> := [50, 100, 200, 365]
  const TotalXpThresholds: seq<int> := [10000, 50000, 100000, 500000]

  /** Safety bound of the backward walk for the current streak (ten years). */
  const MaxStreakCheck: int := 3650

  // ---------------------------------------------------------------------
  // Active days, their sum, and the date order
  // ---------------------------------------------------------------------

  /** The entries with positive XP, in input order (`data.filter(d => d.xp > 0)`). */
  function Active(data: seq<DailyXp>): (r: seq<DailyXp>)
    ensures |r| <= |data|
    ensures forall e :: e in r <==> e in data && e.xp > 0
  {
    if data == [] then []
    else if data[|data| - 1].xp > 0 then Active(data[..|data| - 1]) + [data[|data| - 1]]
    else Active(data[..|data| - 1])
  }

  function SumXp(s: seq<DailyXp>): int
  {
    if s == [] then 0 else SumXp(s[..|s| - 1]) + s[|s| - 1].xp
  }

  /** `data.reduce((sum, d) => sum + (d.xp > 0 ? d.xp : 0), 0)` */
  function PositiveXpSum(data: seq<DailyXp>): int
  {
    if data == [] then 0
    else PositiveXpSum(data[..|data| - 1]) + (if data[|data| - 1].xp > 0 then data[|data| - 1].xp else 0)
  }

  /** The total of positive XP is the sum over the active entries. */
  lemma {:induction false} PositiveXpSumIsActiveSum(data: seq<DailyXp>)
    ensures PositiveXpSum(data) == SumXp(Active(data))
  {
    if data != [] {
      var init := data[..|data| - 1];
      PositiveXpSumIsActiveSum(init);
      if data[|data| - 1].xp > 0 {
        assert (Active(init) + [data[|data| - 1]])[..|Active(init)|] == Active(init);
      }
    }
  }

  ghost predicate SortedByDate(s: seq<DailyXp>)
  {
    forall i, j :: 0 <= i < j < |s| ==> s[i].date <= s[j].date
  }

  /** Places `x` after every entry of `s` whose date is not later than its own. */
  function InsertByDate(s: seq<DailyXp>, x: DailyXp): (r: seq<DailyXp>)
    requires SortedByDate(s)
    ensures SortedByDate(r)
    ensures multiset(r) == multiset(s) + multiset{x}
    ensures |r| == |s| + 1
    ensures SumXp(r) == SumXp(s) + x.xp
    decreases |s|
  {
    if s == [] || s[|s| - 1].date <= x.date then
      AppendSorted(s, x);
      s + [x]
    else
      var init, last := s[..|s| - 1], s[|s| - 1];
      assert s == init + [last];
      var r' := InsertByDate(init, x);
      BoundedByLast(s, r', x);
      InsertBeforeLast(init, last, r', x);
      r' + [last]
  }

  /** Putting the last entry back after the insertion into the prefix keeps every property. */
  lemma InsertBeforeLast(init: seq<DailyXp>, last: DailyXp, r: seq<DailyXp>, x: DailyXp)
    requires SortedByDate(r) && forall e :: e in r ==> e.date <= last.date
    requires multiset(r) == multiset(init) + multiset{x}
    requires SumXp(r) == SumXp(init) + x.xp
    ensures SortedByDate(r + [last])
    ensures multiset(r + [last]) == multiset(init + [last]) + multiset{x}
    ensures SumXp(r + [last]) == SumXp(init + [last]) + x.xp
  {
    AppendSorted(r, last);
    assert (init + [last])[..|init|] == init;
    assert multiset(init + [last]) == multiset(init) + multiset{last};
  }

  /** Every entry of the insertion into the prefix is dated no later than the last entry. */
  lemma BoundedByLast(s: seq<DailyXp>, r: seq<DailyXp>, x: DailyXp)
    requires SortedByDate(s) && s != [] && x.date < s[|s| - 1].date
    requires multiset(r) == multiset(s[..|s| - 1]) + multiset{x}
    ensures forall e :: e in r ==> e.date <= s[|s| - 1].date
  {
    var init := s[..|s| - 1];
    forall e | e in r ensures e.date <= s[|s| - 1].date {
      assert e in multiset(r);
      if e != x {
        assert e in multiset(init);
        var k :| 0 <= k < |init| && init[k] == e;
        assert s[k] == e;
      }
    }
  }

  /** Appending an entry dated no earlier than every entry keeps the order. */
  lemma AppendSorted(s: seq<DailyXp>, x: DailyXp)
    requires SortedByDate(s)
    requires forall e :: e in s ==> e.date <= x.date
    ensures SortedByDate(s + [x])
    ensures SumXp(s + [x]) == SumXp(s) + x.xp
  {
    assert (s + [x])[..|s|] == s;
    forall i, j | 0 <= i < j < |s| + 1
      ensures (s + [x])[i].date <= (s + [x])[j].date
    {
      if j < |s| {
        assert (s + [x])[i] == s[i] && (s + [x])[j] == s[j];
      } else {
        assert (s + [x])[i] == s[i] && s[i] in s;
      }
    }
  }

  /**
   * The stable sort by date that `Array.prototype.sort` performs with the
   * comparator `new Date(a.date) - new Date(b.date)`.
   */
  function SortByDate(s: seq<DailyXp>): (r: seq<DailyXp>)
    ensures SortedByDate(r)
    ensures multiset(r) == multiset(s)
    ensures |r| == |s|
    ensures SumXp(r) == SumXp(s)
  {
    if s == [] then []
    else
      assert s == s[..|s| - 1] + [s[|s| - 1]];
      InsertByDate(SortByDate(s[..|s| - 1]), s[|s| - 1])
  }

  /** The view the streak and the day/total milestones walk: active entries by date. */
  function SortedActive(data: seq<DailyXp>): (r: seq<DailyXp>)
    ensures SortedByDate(r)
    ensures multiset(r) == multiset(Active(data))
    ensures forall e :: e in r <==> e in data && e.xp > 0
    ensures |r| == |Active(data)|
    ensures SumXp(r) == SumXp(Active(data))
  {
    var r := SortByDate(Active(data));
    assert forall e :: e in r <==> e in multiset(r);
    r
  }

  // ---------------------------------------------------------------------
  // The one rule behind all four milestone maps
  // ---------------------------------------------------------------------

  predicate Meets(value: int, threshold: int, exact: bool)
  {
    if exact then value == threshold else value >= threshold
  }

  /**
   * One milestone check: every threshold met by `value` and not yet recorded
   * gets `date`; thresholds already recorded keep their date.
   */
  function Reached(ms: map<int, int>, value: int, date: int, ths: seq<int>, exact: bool): (r: map<int, int>)
    ensures forall t :: t in r <==> t in ms || (t in ths && Meets(value, t, exact))
    ensures forall t :: t in ms ==> r[t] == ms[t]
    ensures forall t :: t in r && t !in ms ==> r[t] == date
  {
    ms + map t | t in ths && Meets(value, t, exact) && t !in ms :: date
  }

  /**
   * `[7, 30, ...].forEach(m => { if (value >= m && !ms[m]) ms[m] = date; })`,
   * with `value === m` instead of `>=` when `exact`.
   */
  method RecordMilestones(ms: map<int, int>, value: int, date: int, ths: seq<int>, exact: bool)
    returns (ms': map<int, int>)
    ensures ms' == Reached(ms, value, date, ths, exact)
  {
    ms' := ms;
    for j := 0 to |ths|
      invariant ms' == Reached(ms, value, date, ths[..j], exact)
    {
      ReachedStep(ms, value, date, ths[..j], ths[j], exact);
      assert ths[..j + 1] == ths[..j] + [ths[j]];
      if Meets(value, ths[j], exact) && ths[j] !in ms' {
        ms' := ms'[ths[j] := date];
      }
    }
    assert ths[..|ths|] == ths;
  }

  /** Checking one more threshold either records it now or changes nothing. */
  lemma ReachedStep(ms: map<int, int>, value: int, date: int, ths: seq<int>, t: int, exact: bool)
    ensures Reached(ms, value, date, ths + [t], exact)
         == var r := Reached(ms, value, date, ths, exact);
            if Meets(value, t, exact) && t !in r then r[t := date] else r
  {
    var r := Reached(ms, value, date, ths, exact);
    var r' := Reached(ms, value, date, ths + [t], exact);
    var expected := if Meets(value, t, exact) && t !in r then r[t := date] else r;
    assert forall u :: u in ths + [t] <==> u in ths || u == t;
    assert r'.Keys == expected.Keys;
    forall u | u in r' ensures r'[u] == expected[u] {
      if u in ms {
        assert r'[u] == ms[u] == r[u];
      }
    }
  }

  /** The first index at which `vals` reaches `t`, or `|vals|` if it never does. */
  function FirstReach(vals: seq<int>, t: int): (k: nat)
    ensures k <= |vals|
    ensures forall i :: 0 <= i < k ==> vals[i] < t
    ensures k < |vals| ==> vals[k] >= t
  {
    if vals == [] then 0
    else if vals[0] >= t then 0
    else 1 + FirstReach(vals[1..], t)
  }

  /**
   * Reference definition of a milestone map: threshold `t` is present iff
   * some observed value reaches it, and maps to the date of the first one.
   */
  function Crossings(vals: seq<int>, dates: seq<int>, ths: seq<int>): (r: map<int, int>)
    requires |vals| == |dates|
  {
    map t | t in ths && FirstReach(vals, t) < |vals| :: dates[FirstReach(vals, t)]
  }

  /** `FirstReach` is the unique least index reaching `t`. */
  lemma FirstReachIs(vals: seq<int>, t: int, k: nat)
    requires k <= |vals|
    requires forall i :: 0 <= i < k ==> vals[i] < t
    requires k < |vals| ==> vals[k] >= t
    ensures FirstReach(vals, t) == k
  {
  }

  /** How the first reaching index moves when one observation is appended. */
  lemma FirstReachStep(vals: seq<int>, t: int, i: nat)
    requires i < |vals|
    ensures FirstReach(vals[..i], t) < i ==> FirstReach(vals[..i + 1], t) == FirstReach(vals[..i], t)
    ensures FirstReach(vals[..i], t) == i && vals[i] >= t ==> FirstReach(vals[..i + 1], t) == i
    ensures FirstReach(vals[..i], t) == i && vals[i] < t ==> FirstReach(vals[..i + 1], t) == i + 1
  {
    var v, v' := vals[..i], vals[..i + 1];
    assert forall m :: 0 <= m < i ==> v'[m] == v[m];
    var k := FirstReach(v, t);
    if k < i {
      FirstReachIs(v', t, k);
    } else if vals[i] >= t {
      FirstReachIs(v', t, i);
    } else {
      FirstReachIs(v', t, i + 1);
    }
  }

  /** Processing one more observation is exactly one milestone check. */
  lemma CrossingsStep(vals: seq<int>, dates: seq<int>, ths: seq<int>, i: nat)
    requires |vals| == |dates| && i < |vals|
    ensures Crossings(vals[..i + 1], dates[..i + 1], ths)
         == Reached(Crossings(vals[..i], dates[..i], ths), vals[i], dates[i], ths, false)
  {
    var before := Crossings(vals[..i], dates[..i], ths);
    var after := Crossings(vals[..i + 1], dates[..i + 1], ths);
    var step := Reached(before, vals[i], dates[i], ths, false);
    forall t | t in ths
      ensures t in after <==> t in step
      ensures t in after ==> after[t] == step[t]
    {
      FirstReachStep(vals, t, i);
      var k := FirstReach(vals[..i], t);
      if k < i {
        assert dates[..i + 1][k] == dates[..i][k];
      } else {
        assert dates[..i + 1][i] == dates[i];
      }
    }
    assert after.Keys == step.Keys;
  }

  /** The milestone map a scan builds by checking `vals[k]` on `dates[k]` for each `k < n` in turn. */
  ghost function CheckedMilestones(vals: seq<int>, dates: seq<int>, ths: seq<int>, n: nat): map<int, int>
    requires |vals| == |dates| && n <= |vals|
  {
    if n == 0 then map[]
    else Reached(CheckedMilestones(vals, dates, ths, n - 1), vals[n - 1], dates[n - 1], ths, false)
  }

  /** Checking every observation in order yields the reference crossings. */
  lemma {:induction false} CheckedMilestonesAreCrossings(vals: seq<int>, dates: seq<int>, ths: seq<int>, n: nat)
    requires |vals| == |dates| && n <= |vals|
    ensures CheckedMilestones(vals, dates, ths, n) == Crossings(vals[..n], dates[..n], ths)
  {
    if n > 0 {
      CheckedMilestonesAreCrossings(vals, dates, ths, n - 1);
      CheckedMilestoneStep(vals, dates, ths, n);
    }
  }

  /** One more checked observation is one more crossing step. */
  lemma CheckedMilestoneStep(vals: seq<int>, dates: seq<int>, ths: seq<int>, n: nat)
    requires |vals| == |dates| && 0 < n <= |vals|
    requires CheckedMilestones(vals, dates, ths, n - 1) == Crossings(vals[..n - 1], dates[..n - 1], ths)
    ensures CheckedMilestones(vals, dates, ths, n) == Crossings(vals[..n], dates[..n], ths)
  {
    CrossingsStep(vals, dates, ths, n - 1);
  }

  /**
   * First write wins across the whole scan: a milestone recorded after the
   * first `i` observations keeps its date after any later ones.
   */
  lemma CrossingsNeverOverwritten(vals: seq<int>, dates: seq<int>, ths: seq<int>, i: nat, j: nat)
    requires |vals| == |dates| && i <= j <= |vals|
    ensures forall t :: t in Crossings(vals[..i], dates[..i], ths) ==>
      t in Crossings(vals[..j], dates[..j], ths) &&
      Crossings(vals[..j], dates[..j], ths)[t] == Crossings(vals[..i], dates[..i], ths)[t]
  {
    forall t | t in Crossings(vals[..i], dates[..i], ths)
      ensures t in Crossings(vals[..j], dates[..j], ths)
      ensures Crossings(vals[..j], dates[..j], ths)[t] == Crossings(vals[..i], dates[..i], ths)[t]
    {
      var k := FirstReach(vals[..i], t);
      assert vals[..j][k] == vals[..i][k];
      assert forall m :: 0 <= m < k ==> vals[..j][m] == vals[..i][m];
      assert FirstReach(vals[..j], t) == k;
      assert dates[..j][k] == dates[..i][k];
    }
  }

  /** A threshold above zero is reached iff the largest observation reaches it. */
  lemma CrossingsIffMax(vals: seq<int>, dates: seq<int>, ths: seq<int>, top: int, t: int)
    requires |vals| == |dates|
    requires forall k :: 0 <= k < |vals| ==> vals[k] <= top
    requires top == 0 || exists k :: 0 <= k < |vals| && vals[k] == top
    requires t > 0
    ensures t in Crossings(vals, dates, ths) <==> t in ths && top >= t
  {
    if t in ths && top >= t {
      var k :| 0 <= k < |vals| && vals[k] == top;
      assert FirstReach(vals, t) <= k;
    }
  }

  /** `CrossingsIffMax` for every threshold of a list of positive thresholds. */
  lemma CrossingsAllIffMax(vals: seq<int>, dates: seq<int>, ths: seq<int>, top: int)
    requires |vals| == |dates|
    requires forall k :: 0 <= k < |vals| ==> vals[k] <= top
    requires top == 0 || exists k :: 0 <= k < |vals| && vals[k] == top
    requires forall k :: 0 <= k < |ths| ==> ths[k] > 0
    ensures forall t :: t in Crossings(vals, dates, ths) <==> t in ths && top >= t
  {
    forall t | t in ths
      ensures t in Crossings(vals, dates, ths) <==> top >= t
    {
      CrossingsIffMax(vals, dates, ths, top, t);
    }
  }

  function Dates(s: seq<DailyXp>): (r: seq<int>)
    ensures |r| == |s| && forall k :: 0 <= k < |s| ==> r[k] == s[k].date
  {
    seq(|s|, k requires 0 <= k < |s| => s[k].date)
  }

  function Xps(s: seq<DailyXp>): (r: seq<int>)
    ensures |r| == |s| && forall k :: 0 <= k < |s| ==> r[k] == s[k].xp
  {
    seq(|s|, k requires 0 <= k < |s| => s[k].xp)
  }

  // ---------------------------------------------------------------------
  // Longest streak
  // ---------------------------------------------------------------------

  /** Length of the run of consecutive days that ends at index `j` (the loop's `tempStreak`). */
  function RunEndingAt(s: seq<DailyXp>, j: int): (r: int)
    requires 0 <= j < |s|
    ensures 1 <= r <= j + 1
  {
    if j == 0 then 1
    else if s[j].date - s[j - 1].date == 1 then RunEndingAt(s, j - 1) + 1
    else 1
  }

  function RunLengths(s: seq<DailyXp>): (r: seq<int>)
    ensures |r| == |s| && forall k :: 0 <= k < |s| ==> r[k] == RunEndingAt(s, k)
  {
    seq(|s|, k requires 0 <= k < |s| => RunEndingAt(s, k))
  }

  /** Entries `i..j` are one-day steps apart: a run of consecutive active days. */
  ghost predicate ConsecutiveRun(s: seq<DailyXp>, i: int, j: int)
  {
    0 <= i <= j < |s| && forall k :: i < k <= j ==> s[k].date == s[k - 1].date + 1
  }

  /** Every run of consecutive days ending at `j` is counted by `RunEndingAt`. */
  lemma {:induction false} RunCoversConsecutive(s: seq<DailyXp>, i: int, j: int)
    requires ConsecutiveRun(s, i, j)
    ensures RunEndingAt(s, j) >= j - i + 1
    decreases j
  {
    if i < j {
      assert ConsecutiveRun(s, i, j - 1);
      RunCoversConsecutive(s, i, j - 1);
    }
  }

  /** `RunEndingAt` measures a genuine run: its entries are one day apart. */
  lemma {:induction false} RunIsConsecutive(s: seq<DailyXp>, j: int)
    requires 0 <= j < |s|
    ensures ConsecutiveRun(s, j - RunEndingAt(s, j) + 1, j)
    decreases j
  {
    if j > 0 && s[j].date - s[j - 1].date == 1 {
      RunIsConsecutive(s, j - 1);
    }
  }

  /**
   * The `for (i = 1; i < n; i++)` scan: `tempStreak` grows on a day gap of
   * exactly one and restarts at 1 otherwise (a repeated date included);
   * `maxStreak` starts at 0 but `tempStreak` at 1, so an empty series gives 1.
   */
  method ScanLongestStreak(s: seq<DailyXp>) returns (maxStreak: int, milestones: map<int, int>)
    ensures maxStreak >= 1
    ensures forall j :: 0 <= j < |s| ==> RunEndingAt(s, j) <= maxStreak
    ensures |s| == 0 ==> maxStreak == 1
    ensures |s| > 0 ==> exists j :: 0 <= j < |s| && RunEndingAt(s, j) == maxStreak
    ensures milestones == Crossings(RunLengths(s), Dates(s), StreakThresholds)
    ensures maxStreak == LongestStreak(s)
  {
    maxStreak := 0;
    var tempStreak := 1;
    milestones := map[];
    if |s| == 0 {
      maxStreak := 1;
      assert RunLengths(s) == [];
      return;
    }
    ghost var best := 0;
    var i := 1;
    while i < |s|
      invariant 1 <= i <= |s|
      invariant tempStreak == RunEndingAt(s, i - 1)
      invariant maxStreak >= 0
      invariant forall j :: 0 <= j < i ==> RunEndingAt(s, j) <= Max(maxStreak, tempStreak)
      invariant maxStreak == 0 || (0 <= best < i && RunEndingAt(s, best) == maxStreak)
      invariant milestones == StreakMilestonesAfter(s, i)
    {
      if s[i].date - s[i - 1].date == 1 {
        tempStreak := tempStreak + 1;
        milestones := RecordMilestones(milestones, tempStreak, s[i].date, StreakThresholds, false);
      } else {
        if tempStreak > maxStreak {
          maxStreak, best := tempStreak, i - 1;
        }
        tempStreak := 1;
      }
      i := i + 1;
    }
    if tempStreak > maxStreak {
      maxStreak, best := tempStreak, i - 1;
    }
    StreakMilestonesCoverAll(s);
    MaxFromIs(1, RunLengths(s), maxStreak);
  }

  /**
   * The streak milestone map as the scan builds it, after the first `i`
   * sorted entries: a one-day step is one milestone check with the new run length.
   */
  ghost function StreakMilestonesAfter(s: seq<DailyXp>, i: nat): map<int, int>
    requires 1 <= i <= |s|
  {
    if i == 1 then map[]
    else
      var before := StreakMilestonesAfter(s, i - 1);
      if s[i - 1].date - s[i - 2].date == 1
      then Reached(before, RunEndingAt(s, i - 1), s[i - 1].date, StreakThresholds, false)
      else before
  }

  /**
   * The scan's streak milestones are the reference crossings of the run
   * lengths: a threshold is present iff some run reaches it, dated by the
   * day the first such run reached it.
   */
  lemma {:induction false} StreakMilestonesAreCrossings(s: seq<DailyXp>, i: nat)
    requires 1 <= i <= |s|
    ensures StreakMilestonesAfter(s, i) == Crossings(RunLengths(s)[..i], Dates(s)[..i], StreakThresholds)
  {
    if i == 1 {
      FirstDayCrossesNothing(s);
    } else {
      StreakMilestonesAreCrossings(s, i - 1);
      StreakMilestoneStep(s, i);
    }
  }

  /** A single day is a run of one, which reaches no streak threshold. */
  lemma FirstDayCrossesNothing(s: seq<DailyXp>)
    requires 1 <= |s|
    ensures StreakMilestonesAfter(s, 1) == Crossings(RunLengths(s)[..1], Dates(s)[..1], StreakThresholds)
  {
    var c := Crossings(RunLengths(s)[..1], Dates(s)[..1], StreakThresholds);
    assert RunLengths(s)[..1] == [1];
    forall t | t in StreakThresholds ensures t !in c {
      assert FirstReach([1], t) == 1;
    }
  }

  /** One more sorted day moves the scan's milestones as one crossing step. */
  lemma StreakMilestoneStep(s: seq<DailyXp>, i: nat)
    requires 2 <= i <= |s|
    requires StreakMilestonesAfter(s, i - 1) == Crossings(RunLengths(s)[..i - 1], Dates(s)[..i - 1], StreakThresholds)
    ensures StreakMilestonesAfter(s, i) == Crossings(RunLengths(s)[..i], Dates(s)[..i], StreakThresholds)
  {
    CrossingsStep(RunLengths(s), Dates(s), StreakThresholds, i - 1);
    if s[i - 1].date - s[i - 2].date != 1 {
      ShortRunRecordsNothing(StreakMilestonesAfter(s, i - 1), s[i - 1].date);
    }
  }

  lemma StreakMilestonesCoverAll(s: seq<DailyXp>)
    requires |s| > 0
    ensures StreakMilestonesAfter(s, |s|) == Crossings(RunLengths(s), Dates(s), StreakThresholds)
  {
    StreakMilestonesAreCrossings(s, |s|);
    assert RunLengths(s)[..|s|] == RunLengths(s) && Dates(s)[..|s|] == Dates(s);
  }

  function Max(a: int, b: int): int
  {
    if a >= b then a else b
  }

  /** The largest of `init` and the elements of `vals` (`Math.max` folded over a scan). */
  function MaxFrom(init: int, vals: seq<int>): (m: int)
    ensures m >= init
    ensures forall k :: 0 <= k < |vals| ==> vals[k] <= m
    ensures m == init || exists k :: 0 <= k < |vals| && vals[k] == m
  {
    if vals == [] then init
    else
      var init', last := vals[..|vals| - 1], vals[|vals| - 1];
      assert forall k :: 0 <= k < |init'| ==> init'[k] == vals[k];
      Max(MaxFrom(init, init'), last)
  }

  /** A value that bounds the scan and is attained (or is `init`) is the maximum. */
  lemma MaxFromIs(init: int, vals: seq<int>, m: int)
    requires m >= init
    requires forall k :: 0 <= k < |vals| ==> vals[k] <= m
    requires m == init || exists k :: 0 <= k < |vals| && vals[k] == m
    ensures MaxFrom(init, vals) == m
  {
  }

  /** The longest streak as the hook reports it: 1 on an empty series, else the longest run. */
  function LongestStreak(s: seq<DailyXp>): int
  {
    MaxFrom(1, RunLengths(s))
  }

  /** A run of one day reaches no streak threshold. */
  lemma ShortRunRecordsNothing(ms: map<int, int>, date: int)
    ensures Reached(ms, 1, date, StreakThresholds, false) == ms
  {
    var r := Reached(ms, 1, date, StreakThresholds, false);
    assert r.Keys == ms.Keys;
  }

  // ---------------------------------------------------------------------
  // Current streak
  // ---------------------------------------------------------------------

  /** `new Map(data.map(d => [d.date, d.xp]))`: later entries overwrite earlier ones. */
  function XpByDate(data: seq<DailyXp>): map<int, int>
  {
    if data == [] then map[]
    else XpByDate(data[..|data| - 1])[data[|data| - 1].date := data[|data| - 1].xp]
  }

  /** No later entry of `data` has the date of entry `k`. */
  ghost predicate LastWithDate(data: seq<DailyXp>, k: int)
    requires 0 <= k < |data|
  {
    forall k' :: k < k' < |data| ==> data[k'].date != data[k].date
  }

  /** Every date of the series is a key, and a repeated date keeps the XP of its last entry. */
  lemma {:induction false} XpByDateSpec(data: seq<DailyXp>)
    ensures XpByDate(data).Keys == set e | e in data :: e.date
    ensures forall k :: 0 <= k < |data| && LastWithDate(data, k) ==> XpByDate(data)[data[k].date] == data[k].xp
  {
    if data != [] {
      var init, last := data[..|data| - 1], data[|data| - 1];
      XpByDateSpec(init);
      assert data == init + [last];
      assert (set e | e in data :: e.date) == (set e | e in init :: e.date) + {last.date};
      forall k | 0 <= k < |data| && LastWithDate(data, k)
        ensures XpByDate(data)[data[k].date] == data[k].xp
      {
        if k < |data| - 1 {
          assert data[k].date != last.date;
          assert LastWithDate(init, k);
        }
      }
    }
  }

  predicate DayActive(byDate: map<int, int>, day: int)
  {
    day in byDate && byDate[day] > 0
  }

  /** Where the walk starts: today, unless today's XP is missing or zero. */
  function WalkStart(byDate: map<int, int>, today: int): int
  {
    if today in byDate && byDate[today] != 0 then today else today - 1
  }

  /**
   * Reference definition of the capped backward walk: the number of active
   * days counted from `day` going back, stopping at the first inactive day
   * or after `steps` days.
   */
  function WalkFrom(byDate: map<int, int>, day: int, steps: nat): (n: nat)
    ensures n <= steps
    decreases steps
  {
    if steps == 0 || !DayActive(byDate, day) then 0
    else 1 + WalkFrom(byDate, day - 1, steps - 1)
  }

  /** The walk counts exactly the unbroken block of active days ending at `day`, up to the cap. */
  lemma {:induction false} WalkFromCounts(byDate: map<int, int>, day: int, steps: nat)
    ensures forall d :: day - WalkFrom(byDate, day, steps) < d <= day ==> DayActive(byDate, d)
    ensures WalkFrom(byDate, day, steps) < steps ==> !DayActive(byDate, day - WalkFrom(byDate, day, steps))
    decreases steps
  {
    if steps > 0 && DayActive(byDate, day) {
      WalkFromCounts(byDate, day - 1, steps - 1);
    }
  }

  /** The hook's `while (iterations < MAX_STREAK_CHECK)` loop from the start day. */
  method WalkCurrentStreak(byDate: map<int, int>, today: int) returns (currentStreak: int)
    ensures currentStreak == WalkFrom(byDate, WalkStart(byDate, today), MaxStreakCheck)
  {
    currentStreak := 0;
    var checkDate := today;
    if !(today in byDate) || byDate[today] == 0 {
      checkDate := checkDate - 1;
    }
    var iterations := 0;
    while iterations < MaxStreakCheck
      invariant 0 <= currentStreak == iterations <= MaxStreakCheck
      invariant checkDate == WalkStart(byDate, today) - currentStreak
      invariant currentStreak + WalkFrom(byDate, checkDate, MaxStreakCheck - iterations)
             == WalkFrom(byDate, WalkStart(byDate, today), MaxStreakCheck)
    {
      iterations := iterations + 1;
      if checkDate in byDate && byDate[checkDate] > 0 {
        currentStreak := currentStreak + 1;
        checkDate := checkDate - 1;
      } else {
        return;
      }
    }
  }

  // ---------------------------------------------------------------------
  // Best day, active-day count, cumulative XP
  // ---------------------------------------------------------------------

  /** `data.forEach`: running maximum of single-day XP and the daily-XP milestones, in input order. */
  method ScanDailyXp(data: seq<DailyXp>) returns (maxDailyXp: int, milestones: map<int, int>)
    ensures maxDailyXp >= 0
    ensures forall k :: 0 <= k < |data| ==> data[k].xp <= maxDailyXp
    ensures maxDailyXp == 0 || exists k :: 0 <= k < |data| && data[k].xp == maxDailyXp
    ensures forall t :: t in milestones <==> t in DailyXpThresholds && maxDailyXp >= t
    ensures milestones == Crossings(Xps(data), Dates(data), DailyXpThresholds)
    ensures maxDailyXp == MaxFrom(0, Xps(data))
  {
    maxDailyXp := 0;
    milestones := map[];
    ghost var best := 0;
    for i := 0 to |data|
      invariant maxDailyXp >= 0
      invariant forall k :: 0 <= k < i ==> data[k].xp <= maxDailyXp
      invariant maxDailyXp == 0 || (0 <= best < i && data[best].xp == maxDailyXp)
      invariant milestones == CheckedMilestones(Xps(data), Dates(data), DailyXpThresholds, i)
    {
      if data[i].xp > maxDailyXp {
        maxDailyXp, best := data[i].xp, i;
      }
      DailyXpCheckStep(data, i);
      milestones := RecordMilestones(milestones, data[i].xp, data[i].date, DailyXpThresholds, false);
    }
    DailyXpMilestonesFacts(data, maxDailyXp, milestones);
    MaxFromIs(0, Xps(data), maxDailyXp);
  }

  /** Checking day `i` of the input is one more step of the checked milestones. */
  lemma DailyXpCheckStep(data: seq<DailyXp>, i: nat)
    requires i < |data|
    ensures CheckedMilestones(Xps(data), Dates(data), DailyXpThresholds, i + 1)
         == Reached(CheckedMilestones(Xps(data), Dates(data), DailyXpThresholds, i), data[i].xp, data[i].date, DailyXpThresholds, false)
  {
    assert Xps(data)[i] == data[i].xp && Dates(data)[i] == data[i].date;
  }

  /** The scanned daily-XP milestones are the crossings, and a threshold is in them iff the best day reaches it. */
  lemma DailyXpMilestonesFacts(data: seq<DailyXp>, maxDailyXp: int, milestones: map<int, int>)
    requires forall k :: 0 <= k < |data| ==> data[k].xp <= maxDailyXp
    requires maxDailyXp == 0 || exists k :: 0 <= k < |data| && data[k].xp == maxDailyXp
    requires milestones == CheckedMilestones(Xps(data), Dates(data), DailyXpThresholds, |data|)
    ensures milestones == Crossings(Xps(data), Dates(data), DailyXpThresholds)
    ensures forall t :: t in milestones <==> t in DailyXpThresholds && maxDailyXp >= t
  {
    CheckedMilestonesCoverAll(Xps(data), Dates(data), DailyXpThresholds);
    DailyXpCrossingsIffMax(data, maxDailyXp);
  }

  /** A scan over the whole series gives the crossings of the whole series. */
  lemma CheckedMilestonesCoverAll(vals: seq<int>, dates: seq<int>, ths: seq<int>)
    requires |vals| == |dates|
    ensures CheckedMilestones(vals, dates, ths, |vals|) == Crossings(vals, dates, ths)
  {
    CheckedMilestonesAreCrossings(vals, dates, ths, |vals|);
    assert vals[..|vals|] == vals && dates[..|dates|] == dates;
  }

  lemma DailyXpCrossingsIffMax(data: seq<DailyXp>, maxDailyXp: int)
    requires forall k :: 0 <= k < |data| ==> data[k].xp <= maxDailyXp
    requires maxDailyXp == 0 || exists k :: 0 <= k < |data| && data[k].xp == maxDailyXp
    ensures forall t :: t in Crossings(Xps(data), Dates(data), DailyXpThresholds) <==> t in DailyXpThresholds && maxDailyXp >= t
  {
    var vals := Xps(data);
    if maxDailyXp != 0 {
      var k :| 0 <= k < |data| && data[k].xp == maxDailyXp;
      assert vals[k] == maxDailyXp;
    }
    CrossingsAllIffMax(vals, Dates(data), DailyXpThresholds, maxDailyXp);
  }

  /**
   * `sortedData.forEach` with `dayCount++`: the threshold `m` is recorded
   * exactly when the count equals `m`, so it maps to the m-th entry's date.
   */
  method ScanTotalDays(s: seq<DailyXp>) returns (milestones: map<int, int>)
    ensures forall t :: t in milestones <==> t in TotalDaysThresholds && |s| >= t
    ensures forall t :: t in milestones ==> milestones[t] == s[t - 1].date
    ensures milestones == CountMilestones(s, TotalDaysThresholds)
  {
    milestones := map[];
    var dayCount := 0;
    for i := 0 to |s|
      invariant dayCount == i
      invariant forall t :: t in milestones <==> t in TotalDaysThresholds && i >= t
      invariant forall t :: t in milestones ==> 1 <= t <= i && milestones[t] == s[t - 1].date
    {
      dayCount := dayCount + 1;
      milestones := RecordMilestones(milestones, dayCount, s[i].date, TotalDaysThresholds, true);
    }
    assert milestones.Keys == CountMilestones(s, TotalDaysThresholds).Keys;
  }

  /** Reference definition of an exact-count milestone map: threshold `t` maps to the `t`-th entry's day. */
  function CountMilestones(s: seq<DailyXp>, ths: seq<int>): map<int, int>
  {
    map t | t in ths && 1 <= t <= |s| :: s[t - 1].date
  }

  /** The running totals `runningXp` takes after each entry of `s`. */
  function RunningTotals(s: seq<DailyXp>): (r: seq<int>)
    ensures |r| == |s| && forall k :: 0 <= k < |s| ==> r[k] == SumXp(s[..k + 1])
  {
    seq(|s|, k requires 0 <= k < |s| => SumXp(s[..k + 1]))
  }

  /** `sortedData.forEach` with `runningXp += d.xp`, recording the cumulative milestones. */
  method ScanTotalXp(s: seq<DailyXp>) returns (milestones: map<int, int>)
    ensures milestones == Crossings(RunningTotals(s), Dates(s), TotalXpThresholds)
  {
    milestones := map[];
    var runningXp := 0;
    for i := 0 to |s|
      invariant runningXp == SumXp(s[..i])
      invariant milestones == CheckedMilestones(RunningTotals(s), Dates(s), TotalXpThresholds, i)
    {
      assert s[..i + 1][..i] == s[..i];
      runningXp := runningXp + s[i].xp;
      milestones := RecordMilestones(milestones, runningXp, s[i].date, TotalXpThresholds, false);
    }
    CheckedMilestonesAreCrossings(RunningTotals(s), Dates(s), TotalXpThresholds, |s|);
    assert RunningTotals(s)[..|s|] == RunningTotals(s);
    assert Dates(s)[..|s|] == Dates(s);
  }

  /**
   * Over entries with positive XP the running total strictly increases and
   * never exceeds the final sum.
   */
  lemma {:induction false} RunningTotalsIncrease(s: seq<DailyXp>)
    requires forall k :: 0 <= k < |s| ==> s[k].xp > 0
    ensures forall k :: 0 < k < |s| ==> RunningTotals(s)[k - 1] < RunningTotals(s)[k]
    ensures forall k :: 0 <= k < |s| ==> RunningTotals(s)[k] <= SumXp(s)
    ensures |s| > 0 ==> RunningTotals(s)[|s| - 1] == SumXp(s)
  {
    forall k | 0 < k < |s|
      ensures RunningTotals(s)[k - 1] < RunningTotals(s)[k]
    {
      assert s[..k + 1][..k] == s[..k];
    }
    if |s| > 0 {
      assert s[..|s|] == s;
      PrefixSumBelowTotal(s);
    }
  }

  lemma {:induction false} PrefixSumBelowTotal(s: seq<DailyXp>)
    requires forall k :: 0 <= k < |s| ==> s[k].xp > 0
    ensures forall k :: 0 <= k <= |s| ==> SumXp(s[..k]) <= SumXp(s)
  {
    if s != [] {
      var init := s[..|s| - 1];
      PrefixSumBelowTotal(init);
      forall k | 0 <= k <= |s|
        ensures SumXp(s[..k]) <= SumXp(s)
      {
        if k < |s| {
          assert s[..k] == init[..k];
        } else {
          assert s[..k] == s;
        }
      }
    }
  }

  // ---------------------------------------------------------------------
  // The hook
  // ---------------------------------------------------------------------

  /** Reference definition of the hook's result, one field per statistic. */
  function StatsOf(data: seq<DailyXp>, today: int): Stats
  {
    var s := SortedActive(data);
    var byDate := XpByDate(data);
    Stats(
      LongestStreak(s),
      WalkFrom(byDate, WalkStart(byDate, today), MaxStreakCheck),
      MaxFrom(0, Xps(data)),
      |Active(data)|,
      SumXp(Active(data)),
      Crossings(RunLengths(s), Dates(s), StreakThresholds),
      Crossings(Xps(data), Dates(data), DailyXpThresholds),
      CountMilestones(s, TotalDaysThresholds),
      Crossings(RunningTotals(s), Dates(s), TotalXpThresholds))
  }

  /** `useAchievementStats(data)` evaluated with `today` as the current day. */
  method ComputeStats(data: seq<DailyXp>, today: int) returns (st: Stats)
    ensures st == StatsOf(data, today)
  {
    var sortedData := SortedActive(data);
    var maxStreak, streakMilestones := ScanLongestStreak(sortedData);
    var currentStreak := WalkCurrentStreak(XpByDate(data), today);
    var maxDailyXp, dailyXpMilestones := ScanDailyXp(data);
    var totalDays := |Active(data)|;
    var totalDaysMilestones := ScanTotalDays(sortedData);
    var totalXp := PositiveXpSum(data);
    PositiveXpSumIsActiveSum(data);
    var totalXpMilestones := ScanTotalXp(sortedData);
    st := Stats(maxStreak, currentStreak, maxDailyXp, totalDays, totalXp,
                streakMilestones, dailyXpMilestones, totalDaysMilestones, totalXpMilestones);
  }

  /**
   * `maxStreak` is the length of the longest run of consecutive active days
   * (1 when there is none).
   */
  lemma LongestStreakIsLongestRun(data: seq<DailyXp>, today: int)
    ensures var s, m := SortedActive(data), StatsOf(data, today).maxStreak;
      && m >= 1
      && (forall i, j :: ConsecutiveRun(s, i, j) ==> m >= j - i + 1)
      && (|s| > 0 ==> exists i, j :: ConsecutiveRun(s, i, j) && m == j - i + 1)
      && (|s| == 0 ==> m == 1)
  {
    var s := SortedActive(data);
    var m := LongestStreak(s);
    if |s| > 0 && m == 1 {
      assert RunLengths(s)[0] == 1;
    }
    StreakFacts(s, m);
  }

  /** A streak milestone is recorded iff the longest streak reaches it. */
  lemma StreakMilestonesIffLongest(data: seq<DailyXp>, today: int)
    ensures var st := StatsOf(data, today);
      forall t :: t in st.streakMilestones <==> t in StreakThresholds && st.maxStreak >= t
  {
    var s := SortedActive(data);
    var m := LongestStreak(s);
    if |s| > 0 && m == 1 {
      assert RunLengths(s)[0] == 1;
    }
    StreakCrossingsIffMax(s, m);
  }

  /**
   * `currentStreak` counts the unbroken block of active days ending at the
   * start day (today, or yesterday when today has no XP), capped at 3650.
   */
  lemma CurrentStreakIsActiveBlock(data: seq<DailyXp>, today: int)
    ensures var byDate, c := XpByDate(data), StatsOf(data, today).currentStreak;
      var start := WalkStart(byDate, today);
      && 0 <= c <= MaxStreakCheck
      && (forall d :: start - c < d <= start ==> DayActive(byDate, d))
      && (c < MaxStreakCheck ==> !DayActive(byDate, start - c))
  {
    var byDate := XpByDate(data);
    var start := WalkStart(byDate, today);
    assert StatsOf(data, today).currentStreak == WalkFrom(byDate, start, MaxStreakCheck);
    WalkFromCounts(byDate, start, MaxStreakCheck);
  }

  /** A daily-XP milestone is recorded iff the best single day reaches it. */
  lemma DailyXpMilestonesIffBestDay(data: seq<DailyXp>, today: int)
    ensures var st := StatsOf(data, today);
      && st.maxDailyXp >= 0
      && (forall k :: 0 <= k < |data| ==> data[k].xp <= st.maxDailyXp)
      && (forall t :: t in st.dailyXpMilestones <==> t in DailyXpThresholds && st.maxDailyXp >= t)
  {
    var m := MaxFrom(0, Xps(data));
    assert forall k :: 0 <= k < |data| ==> data[k].xp == Xps(data)[k];
    if m != 0 {
      var k :| 0 <= k < |Xps(data)| && Xps(data)[k] == m;
      assert data[k].xp == m;
    }
    DailyXpCrossingsIffMax(data, m);
  }

  /** A total-days milestone is recorded iff there are that many active days, dated by the last of them. */
  lemma TotalDaysMilestonesIffCount(data: seq<DailyXp>, today: int)
    ensures var st, s := StatsOf(data, today), SortedActive(data);
      && (forall t :: t in st.totalDaysMilestones <==> t in TotalDaysThresholds && st.totalDays >= t)
      && (forall t :: t in st.totalDaysMilestones ==> st.totalDaysMilestones[t] == s[t - 1].date)
  {
  }

  /** `totalXp` sums the positive XP, and a total-XP milestone is recorded iff that sum reaches it. */
  lemma TotalXpMilestonesIffTotal(data: seq<DailyXp>, today: int)
    ensures var st := StatsOf(data, today);
      && st.totalXp == PositiveXpSum(data)
      && (forall t :: t in st.totalXpMilestones <==> t in TotalXpThresholds && st.totalXp >= t)
  {
    PositiveXpSumIsActiveSum(data);
    TotalXpCrossingsIffMax(SortedActive(data));
  }

  /** A streak threshold is reached iff the longest run reaches it. */
  lemma StreakCrossingsIffMax(s: seq<DailyXp>, maxStreak: int)
    requires forall k :: 0 <= k < |RunLengths(s)| ==> RunLengths(s)[k] <= maxStreak
    requires |s| > 0 ==> exists k :: 0 <= k < |RunLengths(s)| && RunLengths(s)[k] == maxStreak
    requires |s| == 0 ==> maxStreak == 1
    ensures forall t :: t in Crossings(RunLengths(s), Dates(s), StreakThresholds) <==> t in StreakThresholds && maxStreak >= t
  {
    if |s| == 0 {
      CrossingsAllIffMax(RunLengths(s), Dates(s), StreakThresholds, 0);
    } else {
      CrossingsAllIffMax(RunLengths(s), Dates(s), StreakThresholds, maxStreak);
    }
  }

  /** Over the positive-XP entries a cumulative threshold is reached iff the total reaches it. */
  lemma TotalXpCrossingsIffMax(s: seq<DailyXp>)
    requires forall e :: e in s ==> e.xp > 0
    ensures forall t :: t in Crossings(RunningTotals(s), Dates(s), TotalXpThresholds) <==> t in TotalXpThresholds && SumXp(s) >= t
  {
    assert forall k :: 0 <= k < |s| ==> s[k].xp > 0 by {
      forall k | 0 <= k < |s| ensures s[k].xp > 0 {
        assert s[k] in s;
      }
    }
    RunningTotalsIncrease(s);
    if |s| == 0 {
      assert Crossings(RunningTotals(s), Dates(s), TotalXpThresholds) == map[];
    } else {
      CrossingsAllIffMax(RunningTotals(s), Dates(s), TotalXpThresholds, SumXp(s));
    }
  }

  /** Translates the scan's result into statements about runs of consecutive days. */
  lemma StreakFacts(s: seq<DailyXp>, maxStreak: int)
    requires forall j :: 0 <= j < |s| ==> RunEndingAt(s, j) <= maxStreak
    requires |s| > 0 ==> exists j :: 0 <= j < |s| && RunEndingAt(s, j) == maxStreak
    ensures forall i, j :: ConsecutiveRun(s, i, j) ==> maxStreak >= j - i + 1
    ensures |s| > 0 ==> exists i, j :: ConsecutiveRun(s, i, j) && maxStreak == j - i + 1
    ensures forall k :: 0 <= k < |RunLengths(s)| ==> RunLengths(s)[k] <= maxStreak
    ensures |s| > 0 ==> exists k :: 0 <= k < |RunLengths(s)| && RunLengths(s)[k] == maxStreak
  {
    forall i, j | ConsecutiveRun(s, i, j) ensures maxStreak >= j - i + 1 {
      RunCoversConsecutive(s, i, j);
    }
    if |s| > 0 {
      var j :| 0 <= j < |s| && RunEndingAt(s, j) == maxStreak;
      RunIsConsecutive(s, j);
      assert RunLengths(s)[j] == maxStreak;
    }
  }
}
