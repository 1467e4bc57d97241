/**
 * `transformDuolingoData` (src/services/duolingoService.ts): the upstream
 * user record normalized into the dashboard's `UserData`.
 */
module DuolingoService {
  import opened Wrappers
  import opened DuolingoTypes
  import opened DuolingoFields
  import opened DuolingoCourses
  import opened DuolingoHistory

  // ---------------------------------------------------------------------
  // Today's activity
  // ---------------------------------------------------------------------

  /** `xpToday` and the `lessonsToday` counter before `|| undefined`. */
  datatype Today = Today(xp: int, lessons: nat)

  /** Inside the local day that starts at `start`. */
  predicate InDay(t: int, start: int)
  {
    start <= t < start + MsPerDay
  }

  /** `calendar.filter(...)` on the local day. */
  function EventsToday(events: seq<CalendarEvent>, start: int): (r: seq<CalendarEvent>)
    ensures |r| <= |events|
    ensures forall e :: e in r <==> e in events && InDay(e.datetime, start)
    ensures forall e :: multiset(r)[e] == if InDay(e.datetime, start) then multiset(events)[e] else 0
  {
    if events == [] then []
    else
      var init := EventsToday(events[..|events| - 1], start);
      var e := events[|events| - 1];
      assert events == events[..|events| - 1] + [e];
      assert forall x :: x in events <==> x in events[..|events| - 1] || x == e;
      if InDay(e.datetime, start) then init + [e] else init
  }

  /** `reduce((acc, e) => acc + (e.improvement || 0), 0)`. */
  function SumEventXp(events: seq<CalendarEvent>): int
  {
    if events == [] then 0 else SumEventXp(events[..|events| - 1]) + EventXp(events[|events| - 1])
  }

  /** `xpGains.filter(...)` on the local day; gain times are seconds. */
  function GainsToday(gains: seq<XpGain>, start: int): (r: seq<XpGain>)
    ensures |r| <= |gains|
    ensures forall g :: g in r <==> g in gains && InDay(g.time * 1000, start)
    ensures forall g :: multiset(r)[g] == if InDay(g.time * 1000, start) then multiset(gains)[g] else 0
  {
    if gains == [] then []
    else
      var init := GainsToday(gains[..|gains| - 1], start);
      var g := gains[|gains| - 1];
      assert gains == gains[..|gains| - 1] + [g];
      assert forall x :: x in gains <==> x in gains[..|gains| - 1] || x == g;
      if InDay(g.time * 1000, start) then init + [g] else init
  }

  /** `reduce((acc, g) => acc + (g.xp || 0), 0)`. */
  function SumGainXp(gains: seq<XpGain>): int
  {
    if gains == [] then 0 else SumGainXp(gains[..|gains| - 1]) + OrNum(gains[|gains| - 1].xp, 0)
  }

  /**
   * The first chain: the stated `xp_today`; else today's XP in the history;
   * else, from the streak end date, 1 when it falls today and the streak was
   * extended; else today's calendar events.
   */
  function StatedToday(env: Env, raw: RawUser, history: Totals): Today
  {
    var start := env.startOfDay(env.now);
    var fromHistory := Get(history.xp, DateKey(env, Some(env.now)));
    if raw.xp_today.Some? then Today(raw.xp_today.value, 0)
    else if fromHistory > 0 then Today(fromHistory, 0)
    else if raw.streakData.Some? && TruthyStr(raw.streakData.value.endDate) then
      var end := ParsedTime(env, raw.streakData.value.endDate.value);
      if end.Some? && InDay(end.value, start) then Today(if TruthyStr(raw.streakData.value.lastExtendedDate) then 1 else 0, 0)
      else Today(0, 0)
    else if raw.calendar.Some? && |raw.calendar.value| > 0 then
      var events := EventsToday(raw.calendar.value, start);
      Today(SumEventXp(events), |events|)
    else Today(0, 0)
  }

  /** `xpToday` and `lessonsToday`: a zero from the first chain gives way to today's XP gains. */
  function TodayActivity(env: Env, raw: RawUser, history: Totals): (r: Today)
    ensures raw.xp_today.Some? && raw.xp_today.value != 0 ==> r == Today(raw.xp_today.value, 0)
    ensures StatedToday(env, raw, history).xp != 0 ==> r == StatedToday(env, raw, history)
  {
    var first := StatedToday(env, raw, history);
    if first.xp == 0 && raw.xpGains.Some? && |raw.xpGains.value| > 0 then
      var gains := GainsToday(raw.xpGains.value, env.startOfDay(env.now));
      Today(SumGainXp(gains), |gains|)
    else first
  }

  /** `lessonsToday || undefined`. */
  function LessonsToday(t: Today): (r: Option<int>)
    ensures r.None? <==> t.lessons == 0
    ensures r.Some? ==> r.value == t.lessons > 0
  {
    if t.lessons == 0 then None else Some(t.lessons)
  }

  /**
   * When the stated sources give no XP for today, the XP and the lesson
   * count are those of the gains inside today's window, and each of them
   * lies in it.
   */
  lemma GainsFillZeroDay(env: Env, raw: RawUser, history: Totals)
    requires StatedToday(env, raw, history).xp == 0
    requires raw.xpGains.Some? && |raw.xpGains.value| > 0
    ensures var r := TodayActivity(env, raw, history);
      var gains := GainsToday(raw.xpGains.value, env.startOfDay(env.now));
      && r.lessons == |gains|
      && r.xp == SumGainXp(gains)
      && forall g :: g in gains ==> g in raw.xpGains.value && InDay(g.time * 1000, env.startOfDay(env.now))
  {
  }

  /** Gains whose XP is never negative sum to a non-negative amount. */
  lemma {:induction false} SumGainXpNonNegative(gains: seq<XpGain>)
    requires forall i :: 0 <= i < |gains| ==> OrNum(gains[i].xp, 0) >= 0
    ensures SumGainXp(gains) >= 0
  {
    if gains != [] {
      SumGainXpNonNegative(gains[..|gains| - 1]);
    }
  }

  // ---------------------------------------------------------------------
  // The normalized record
  // ---------------------------------------------------------------------

  /** `transformDuolingoData(raw)`, the clock and the locale taken from `env`. */
  function Transformed(env: Env, raw: RawUser): UserData
  {
    var courses := CoursesOf(raw);
    var history := HistoryTotals(env, raw);
    var tier := ResolveTierIndex(raw);
    var creation := ParseCreationDate(env, CreationTs(raw), raw.created);
    var extended := StreakExtendedToday(raw);
    var today := TodayActivity(env, raw, history);
    UserData(
      Streak(raw), TotalXp(raw), Gems(raw), LeagueName(tier), tier, courses,
      XpWindow(env, history), TimeWindow(env, history), YearlyOf(history),
      LearningLanguage(raw, courses), creation.dateStr, creation.ageDays,
      IsPlus(raw), DailyGoal(raw), EstimatedLearningTime(VisibleTotalXp(courses)),
      today.xp, LessonsToday(today), extended,
      ResolveStreakExtendedTime(env, extended, raw, env.startOfDay(env.now)),
      raw.weeklyXp, raw.numSessionsCompleted, raw.streakFreezeCount)
  }

  /** The normalizer, step by step as the source runs it. */
  method Transform(env: Env, raw: RawUser) returns (u: UserData)
    ensures u == Transformed(env, raw)
  {
    var courses := BuildCourses(raw);
    var history := BuildHistory(env, raw);
    var xpDays, timeDays := Window(env, history);
    var yearly := Yearly(history);
    var tier := ResolveTierIndex(raw);
    var creation := ParseCreationDate(env, CreationTs(raw), raw.created);
    var extended := StreakExtendedToday(raw);
    var today := TodayActivity(env, raw, history);
    u := UserData(
      Streak(raw), TotalXp(raw), Gems(raw), LeagueName(tier), tier, courses,
      xpDays, timeDays, yearly,
      LearningLanguage(raw, courses), creation.dateStr, creation.ageDays,
      IsPlus(raw), DailyGoal(raw), EstimatedLearningTime(VisibleTotalXp(courses)),
      today.xp, LessonsToday(today), extended,
      ResolveStreakExtendedTime(env, extended, raw, env.startOfDay(env.now)),
      raw.weeklyXp, raw.numSessionsCompleted, raw.streakFreezeCount);
  }

  /**
   * The record is consistent: seven days in each window, the league named
   * after its tier, a yearly list naming each day once, no lesson count of
   * zero, a non-negative account age, and no streak time unless the streak
   * was extended today.
   */
  lemma TransformedIsConsistent(env: Env, raw: RawUser)
    ensures var u := Transformed(env, raw);
      && |u.dailyXpHistory| == 7 && |u.dailyTimeHistory| == 7
      && (0 <= u.leagueTier < |LeagueTiers| ==> u.league == LeagueTiers[u.leagueTier])
      && (!(0 <= u.leagueTier < |LeagueTiers|) ==> u.league == NoLeague)
      && (forall i, j :: 0 <= i < j < |u.yearlyXpHistory| ==> u.yearlyXpHistory[i].date != u.yearlyXpHistory[j].date)
      && (forall i :: 0 <= i < |u.yearlyXpHistory| ==> u.yearlyXpHistory[i].time.Some?)
      && (u.lessonsToday.None? || u.lessonsToday.value > 0)
      && u.accountAgeDays >= 0
      && (!u.streakExtendedToday ==> u.streakExtendedTime.None?)
  {
    YearlyListsEachDayOnce(HistoryTotals(env, raw));
  }

  /**
   * Without a stated `xp_today`, a day with XP in the history shows the same
   * XP as today's bar of the seven-day chart.
   */
  lemma TodayMatchesChart(env: Env, raw: RawUser)
    requires env.daysAgo(0) == env.now
    requires raw.xp_today.None?
    requires Get(HistoryTotals(env, raw).xp, DateKey(env, Some(env.now))) > 0
    ensures var u := Transformed(env, raw);
      u.xpToday == u.dailyXpHistory[6].xp > 0 && u.lessonsToday.None?
  {
  }
}
