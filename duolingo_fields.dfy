/**
 * The single-field resolvers of the normalizer (src/services/duolingoService.ts):
 * each output field is the first usable value of an ordered chain of
 * upstream fields.
 */
module DuolingoFields {
  import opened Wrappers
  import opened Text
  import opened DuolingoTypes

  // ---------------------------------------------------------------------
  // Reference chains
  // ---------------------------------------------------------------------

  /** The first defined value of a chain of `!== undefined` tests. */
  function FirstDefined(xs: seq<Option<int>>): (r: Option<int>)
    ensures r.None? <==> forall i :: 0 <= i < |xs| ==> xs[i].None?
    ensures r.Some? ==> exists i :: 0 <= i < |xs| && xs[i] == r && forall j :: 0 <= j < i ==> xs[j].None?
  {
    if xs == [] then None
    else if xs[0].Some? then xs[0]
    else
      var r := FirstDefined(xs[1..]);
      assert forall i :: 1 <= i < |xs| ==> xs[i] == xs[1..][i - 1];
      r
  }

  /** The first non-zero value of a chain of `||`, or 0. */
  function FirstNonZero(xs: seq<int>): (r: int)
    ensures r == 0 <==> forall i :: 0 <= i < |xs| ==> xs[i] == 0
    ensures r != 0 ==> exists i :: 0 <= i < |xs| && xs[i] == r && forall j :: 0 <= j < i ==> xs[j] == 0
  {
    if xs == [] then 0
    else if xs[0] != 0 then xs[0]
    else
      var r := FirstNonZero(xs[1..]);
      assert forall i :: 1 <= i < |xs| ==> xs[i] == xs[1..][i - 1];
      r
  }

  // ---------------------------------------------------------------------
  // League
  // ---------------------------------------------------------------------

  /** `LEAGUE_TIERS`. */
  const LeagueTiers: seq<string> := ["青铜", "白银", "黄金", "蓝宝石", "红宝石", "祖母绿", "紫水晶", "珍珠", "黑曜石", "钻石"]

  const NoLeague: string := "暂无数据"

  /** The first `language_data` value whose `current_learning` is truthy (`find`). */
  function CurrentLanguage(values: seq<LanguageDetail>): (r: Option<LanguageDetail>)
    ensures r.None? <==> forall i :: 0 <= i < |values| ==> !TruthyBool(values[i].current_learning)
    ensures r.Some? ==> exists i :: (0 <= i < |values| && values[i] == r.value && TruthyBool(r.value.current_learning)
      && forall j :: 0 <= j < i ==> !TruthyBool(values[j].current_learning))
  {
    if values == [] then None
    else if TruthyBool(values[0].current_learning) then Some(values[0])
    else
      var r := CurrentLanguage(values[1..]);
      assert forall i :: 1 <= i < |values| ==> values[i] == values[1..][i - 1];
      r
  }

  /** `tp?.field` for an optional tracking record. */
  function LeagueTierOf(tp: Option<TrackingProperties>): Option<int>
  {
    if tp.Some? then tp.value.league_tier else None
  }

  function LeaderboardLeagueOf(tp: Option<TrackingProperties>): Option<int>
  {
    if tp.Some? then tp.value.leaderboard_league else None
  }

  /** The tier of the current `language_data` language, when there is one. */
  function CurrentLanguageTier(raw: RawUser): Option<int>
  {
    if raw.language_data.None? then None
    else
      var current := CurrentLanguage(LanguageValues(raw.language_data.value));
      if current.Some? then current.value.tier else None
  }

  /** `resolveTierIndex(rawAny, rawData)`. */
  function ResolveTierIndex(raw: RawUser): int
  {
    if raw.tier.Some? && 0 <= raw.tier.value <= 10 then raw.tier.value
    else if LeagueTierOf(raw.trackingProperties).Some? then LeagueTierOf(raw.trackingProperties).value
    else if LeaderboardLeagueOf(raw.trackingProperties).Some? then LeaderboardLeagueOf(raw.trackingProperties).value
    else if LeagueTierOf(raw.tracking_properties).Some? then LeagueTierOf(raw.tracking_properties).value
    else if LeaderboardLeagueOf(raw.tracking_properties).Some? then LeaderboardLeagueOf(raw.tracking_properties).value
    else if CurrentLanguageTier(raw).Some? then CurrentLanguageTier(raw).value
    else -1
  }

  /** The tier sources in the order they are tried; the top-level tier counts only within [0, 10]. */
  function TierSources(raw: RawUser): seq<Option<int>>
  {
    [ if raw.tier.Some? && 0 <= raw.tier.value <= 10 then raw.tier else None,
      LeagueTierOf(raw.trackingProperties),
      LeaderboardLeagueOf(raw.trackingProperties),
      LeagueTierOf(raw.tracking_properties),
      LeaderboardLeagueOf(raw.tracking_properties),
      CurrentLanguageTier(raw) ]
  }

  /** The first defined source wins, and -1 means none is defined. */
  lemma TierIsFirstDefined(raw: RawUser)
    ensures ResolveTierIndex(raw) == FirstDefined(TierSources(raw)).GetOr(-1)
  {
    var xs := TierSources(raw);
    var x1 := xs[1..];
    var x2 := x1[1..];
    var x3 := x2[1..];
    var x4 := x3[1..];
    var x5 := x4[1..];
    assert x5 == [CurrentLanguageTier(raw)] && x5[1..] == [];
    assert FirstDefined(x5) == CurrentLanguageTier(raw);
    assert FirstDefined(x4) == if x4[0].Some? then x4[0] else FirstDefined(x5);
    assert FirstDefined(x3) == if x3[0].Some? then x3[0] else FirstDefined(x4);
    assert FirstDefined(x2) == if x2[0].Some? then x2[0] else FirstDefined(x3);
    assert FirstDefined(x1) == if x1[0].Some? then x1[0] else FirstDefined(x2);
  }

  /** `leagueName`: the tier's name only for 0 <= t < 10. */
  function LeagueName(t: int): string
  {
    if 0 <= t < |LeagueTiers| then LeagueTiers[t] else NoLeague
  }

  /** The name is missing exactly outside [0, 10), for tier 10 and for -1 as well. */
  lemma LeagueNameMissing(t: int)
    ensures LeagueName(t) == NoLeague <==> !(0 <= t < 10)
    ensures LeagueName(10) == NoLeague && LeagueName(-1) == NoLeague
  {
  }

  // ---------------------------------------------------------------------
  // Totals and counters
  // ---------------------------------------------------------------------

  /** What `sumPoints` reads of an item. */
  datatype Scored = Scored(points: Option<int>, xp: Option<int>)

  /** `item.points || item.xp || 0`. */
  function ItemPoints(s: Scored): int
  {
    OrNum(s.points, OrNum(s.xp, 0))
  }

  /** The reduction of `sumPoints` over an array. */
  function SumScored(items: seq<Scored>): (r: int)
  {
    if items == [] then 0 else SumScored(items[..|items| - 1]) + ItemPoints(items[|items| - 1])
  }

  /** `sumPoints(items)`: 0 for a missing array. */
  function SumPoints(items: Option<seq<Scored>>): (r: int)
    ensures items.None? ==> r == 0
  {
    if items.None? then 0 else SumScored(items.value)
  }

  /** Items with no positive points and no positive xp add nothing negative. */
  lemma {:induction false} SumScoredNonNegative(items: seq<Scored>)
    requires forall i :: 0 <= i < |items| ==> ItemPoints(items[i]) >= 0
    ensures SumScored(items) >= 0
  {
    if items != [] {
      SumScoredNonNegative(items[..|items| - 1]);
    }
  }

  /** Summing a concatenation sums the parts. */
  lemma {:induction false} SumScoredAppend(a: seq<Scored>, b: seq<Scored>)
    ensures SumScored(a + b) == SumScored(a) + SumScored(b)
    decreases |b|
  {
    if b == [] {
      assert a + b == a;
    } else {
      assert (a + b)[..|a + b| - 1] == a + b[..|b| - 1];
      assert (a + b)[|a + b| - 1] == b[|b| - 1];
      SumScoredAppend(a, b[..|b| - 1]);
    }
  }

  function LanguageScores(ls: seq<Language>): (r: seq<Scored>)
    ensures |r| == |ls|
  {
    seq(|ls|, i requires 0 <= i < |ls| => Scored(ls[i].points, None))
  }

  function DetailScores(ds: seq<LanguageDetail>): (r: seq<Scored>)
    ensures |r| == |ds|
  {
    seq(|ds|, i requires 0 <= i < |ds| => Scored(ds[i].points, None))
  }

  function CourseScores(cs: seq<RawCourse>): (r: seq<Scored>)
    ensures |r| == |cs|
  {
    seq(|cs|, i requires 0 <= i < |cs| => Scored(None, cs[i].xp))
  }

  /** The stated total, `total_xp ?? totalXp ?? 0`. */
  function StatedTotalXp(raw: RawUser): int
  {
    raw.total_xp.GetOr(raw.totalXp.GetOr(0))
  }

  /** The three sums the total falls back to, in order. */
  function FallbackSums(raw: RawUser): seq<int>
  {
    [ SumPoints(if raw.languages.Some? then Some(LanguageScores(raw.languages.value)) else None),
      if raw.language_data.Some? then SumPoints(Some(DetailScores(LanguageValues(raw.language_data.value)))) else 0,
      SumPoints(if raw.courses.Some? then Some(CourseScores(raw.courses.value)) else None) ]
  }

  /**
   * `totalXp`: the stated total, then the `languages` sum, the
   * `language_data` sum and the `courses` sum, each tried only while the
   * value so far is exactly 0.
   */
  function TotalXp(raw: RawUser): int
  {
    var sums := FallbackSums(raw);
    var t0 := StatedTotalXp(raw);
    var t1 := if t0 == 0 then sums[0] else t0;
    var t2 := if t1 == 0 && raw.language_data.Some? then sums[1] else t1;
    if t2 == 0 then sums[2] else t2
  }

  /** The total is the first non-zero value of the stated total and the fallback sums. */
  lemma TotalXpIsFirstNonZero(raw: RawUser)
    ensures TotalXp(raw) == FirstNonZero([StatedTotalXp(raw)] + FallbackSums(raw))
  {
    var xs := [StatedTotalXp(raw)] + FallbackSums(raw);
    assert xs[1..] == FallbackSums(raw);
    assert xs[1..][1..][1..] == [FallbackSums(raw)[2]];
  }

  /** A non-zero stated total is never replaced. */
  lemma StatedTotalWins(raw: RawUser)
    requires StatedTotalXp(raw) != 0
    ensures TotalXp(raw) == StatedTotalXp(raw)
  {
  }

  /** The gem sources of `gemsTotalCount || totalGems || gems || tracking_properties?.gems || lingots || rupees || 0`. */
  function GemSources(raw: RawUser): seq<int>
  {
    [ raw.gemsTotalCount.GetOr(0), raw.totalGems.GetOr(0), raw.gems.GetOr(0),
      (if raw.tracking_properties.Some? then raw.tracking_properties.value.gems else None).GetOr(0),
      raw.lingots.GetOr(0), raw.rupees.GetOr(0) ]
  }

  function Gems(raw: RawUser): int
  {
    OrNum(raw.gemsTotalCount, OrNum(raw.totalGems, OrNum(raw.gems,
      OrNum(if raw.tracking_properties.Some? then raw.tracking_properties.value.gems else None,
      OrNum(raw.lingots, OrNum(raw.rupees, 0))))))
  }

  /** Gems are the first non-zero source, 0 when there is none. */
  lemma GemsIsFirstNonZero(raw: RawUser)
    ensures Gems(raw) == FirstNonZero(GemSources(raw))
  {
    var xs := GemSources(raw);
    var x1 := xs[1..];
    var x2 := x1[1..];
    var x3 := x2[1..];
    var x4 := x3[1..];
    var x5 := x4[1..];
    assert x5 == [raw.rupees.GetOr(0)] && x5[1..] == [];
    assert FirstNonZero(x5) == raw.rupees.GetOr(0);
    assert FirstNonZero(x4) == if x4[0] != 0 then x4[0] else FirstNonZero(x5);
    assert FirstNonZero(x3) == if x3[0] != 0 then x3[0] else FirstNonZero(x4);
    assert FirstNonZero(x2) == if x2[0] != 0 then x2[0] else FirstNonZero(x3);
    assert FirstNonZero(x1) == if x1[0] != 0 then x1[0] else FirstNonZero(x2);
  }

  /** `site_streak ?? streak`. */
  function Streak(raw: RawUser): (r: Option<int>)
    ensures r == FirstDefined([raw.site_streak, raw.streak])
  {
    assert [raw.site_streak, raw.streak][1..] == [raw.streak];
    assert [raw.streak][1..] == [];
    if raw.site_streak.Some? then raw.site_streak else raw.streak
  }

  /** `dailyGoal ?? daily_goal ?? xpGoal ?? 0`. */
  function DailyGoal(raw: RawUser): int
  {
    raw.dailyGoal.GetOr(raw.daily_goal.GetOr(raw.xpGoal.GetOr(0)))
  }

  /** `??` keeps a stated 0, unlike `||`. */
  lemma DailyGoalKeepsZero(raw: RawUser)
    ensures raw.dailyGoal == Some(0) ==> DailyGoal(raw) == 0
    ensures raw.dailyGoal.None? && raw.daily_goal.None? && raw.xpGoal.None? ==> DailyGoal(raw) == 0
  {
  }

  /** `streak_extended_today ?? streakExtendedToday ?? false`. */
  function StreakExtendedToday(raw: RawUser): (b: bool)
    ensures raw.streak_extended_today.Some? ==> b == raw.streak_extended_today.value
    ensures raw.streak_extended_today.None? ==> (b <==> raw.streakExtendedToday == Some(true))
  {
    raw.streak_extended_today.GetOr(raw.streakExtendedToday.GetOr(false))
  }

  /** The nine subscription signals the source consults. */
  function PlusFlags(raw: RawUser): seq<bool>
  {
    [ TruthyBool(raw.hasPlus), TruthyBool(raw.hasSuper), raw.plusStatus == Some("active"),
      TruthyBool(raw.has_plus), TruthyBool(raw.is_plus),
      raw.inventory.Some? && TruthyBool(raw.inventory.value.premium_subscription),
      raw.inventory.Some? && TruthyBool(raw.inventory.value.super_subscription),
      TruthyBool(raw.has_item_premium_subscription), TruthyBool(raw.has_item_immersive_subscription) ]
  }

  /** The subscription flags; any one of them makes the user Plus. */
  function IsPlus(raw: RawUser): (b: bool)
    ensures b <==> true in PlusFlags(raw)
  {
    var inventoryPremium := raw.inventory.Some? &&
      (TruthyBool(raw.inventory.value.premium_subscription) || TruthyBool(raw.inventory.value.super_subscription));
    var itemPremium := TruthyBool(raw.has_item_premium_subscription) || TruthyBool(raw.has_item_immersive_subscription);
    var flags := PlusFlags(raw);
    assert inventoryPremium <==> flags[5] || flags[6];
    TruthyBool(raw.hasPlus) || TruthyBool(raw.hasSuper) || raw.plusStatus == Some("active")
      || TruthyBool(raw.has_plus) || TruthyBool(raw.is_plus) || inventoryPremium || itemPremium
  }

  // ---------------------------------------------------------------------
  // Creation date
  // ---------------------------------------------------------------------

  /** `creation_date || creationDate`. */
  function CreationTs(raw: RawUser): Option<int>
  {
    if raw.creation_date.Some? && raw.creation_date.value != 0 then raw.creation_date else raw.creationDate
  }

  /** `calcDaysSince(t)`: whole local days from the day of `t` to today, never negative. */
  function CalcDaysSince(env: Env, t: int): (days: int)
    ensures days >= 0
    ensures env.startOfDay(env.now) - env.startOfDay(t) >= 0 ==>
      days * MsPerDay <= env.startOfDay(env.now) - env.startOfDay(t) < (days + 1) * MsPerDay
  {
    var diff := env.startOfDay(env.now) - env.startOfDay(t);
    var d := diff / MsPerDay;
    if d < 0 then 0 else d
  }

  datatype Creation = Creation(dateStr: string, ageDays: int)

  const Unknown: string := "未知"

  /** Timestamps below 10^10 are taken as seconds. */
  function CreationMillis(ts: int): int
  {
    if ts < 10000000000 then ts * 1000 else ts
  }

  /**
   * `parseCreationDate(creationTs, created)`: a truthy timestamp that gives a
   * valid date, else a `created` text that parses, else unknown.
   */
  function ParseCreationDate(env: Env, creationTs: Option<int>, created: Option<string>): (c: Creation)
    ensures c.ageDays >= 0
  {
    if creationTs.Some? && creationTs.value != 0 && ValidTime(CreationMillis(creationTs.value)) then
      var t := CreationMillis(creationTs.value);
      Creation(env.dateLabel(t), CalcDaysSince(env, t))
    else if TruthyStr(created) && ParsedTime(env, created.value).Some? then
      var t := ParsedTime(env, created.value).value;
      Creation(env.dateLabel(t), CalcDaysSince(env, t))
    else Creation(Unknown, 0)
  }

  /** A timestamp in seconds is scaled to milliseconds before it is formatted. */
  lemma CreationSecondsGuess(env: Env, seconds: int, created: Option<string>)
    requires seconds != 0 && seconds < 10000000000 && ValidTime(seconds * 1000)
    ensures ParseCreationDate(env, Some(seconds), created) ==
      Creation(env.dateLabel(seconds * 1000), CalcDaysSince(env, seconds * 1000))
  {
  }

  /** The date is unknown, with age 0, exactly when neither source gives a valid date. */
  lemma CreationUnknownIffNeitherParses(env: Env, creationTs: Option<int>, created: Option<string>)
    requires forall t :: env.dateLabel(t) != Unknown
    ensures ParseCreationDate(env, creationTs, created).dateStr == Unknown <==>
      !(creationTs.Some? && creationTs.value != 0 && ValidTime(CreationMillis(creationTs.value)))
      && !(TruthyStr(created) && ParsedTime(env, created.value).Some?)
    ensures ParseCreationDate(env, creationTs, created).dateStr == Unknown ==> ParseCreationDate(env, creationTs, created).ageDays == 0
  {
  }

  // ---------------------------------------------------------------------
  // Estimated learning time
  // ---------------------------------------------------------------------

  /** `courses.reduce((acc, c) => acc + c.xp, 0)`: a course without xp makes the sum NaN (`None`). */
  function VisibleTotalXp(courses: seq<Course>): (r: Option<int>)
    ensures r.None? <==> exists i :: 0 <= i < |courses| && courses[i].xp.None?
  {
    if courses == [] then Some(0)
    else
      var init := VisibleTotalXp(courses[..|courses| - 1]);
      var last := courses[|courses| - 1];
      assert forall i :: 0 <= i < |courses| - 1 ==> courses[..|courses| - 1][i] == courses[i];
      if init.Some? && last.xp.Some? then Some(init.value + last.xp.value) else None
  }

  /** `Math.floor(visibleTotalXp / 6)` minutes, split into hours and minutes as the text shows them. */
  function EstimateParts(visible: int): (hm: (int, int))
  {
    var totalMinutes := visible / 6;
    (totalMinutes / 60, JsRem(totalMinutes, 60))
  }

  /** `estimatedLearningTime`: "<h>小时 <m>分钟", or NaN parts when the total is NaN. */
  function EstimatedLearningTime(visible: Option<int>): string
  {
    if visible.None? then "NaN小时 NaN分钟"
    else
      var (h, m) := EstimateParts(visible.value);
      IntToString(h) + "小时 " + IntToString(m) + "分钟"
  }

  /** For a non-negative total the minutes part is below 60 and the parts recombine to the total. */
  lemma EstimateMinutesBelow60(visible: int)
    requires visible >= 0
    ensures var (h, m) := EstimateParts(visible);
      0 <= m < 60 && 0 <= h && 60 * h + m == visible / 6
  {
  }

  // ---------------------------------------------------------------------
  // Streak extension time
  // ---------------------------------------------------------------------

  /** The least value of a non-empty list (the head after an ascending sort). */
  function Least(xs: seq<int>): (m: int)
    requires xs != []
    ensures m in xs && forall i :: 0 <= i < |xs| ==> m <= xs[i]
  {
    if |xs| == 1 then xs[0]
    else
      var rest := Least(xs[1..]);
      assert forall i :: 1 <= i < |xs| ==> xs[i] == xs[1..][i - 1];
      if xs[0] <= rest then xs[0] else rest
  }

  /** `new Date(t).toDateString() === new Date().toDateString()`. */
  predicate SameLocalDay(env: Env, t: int)
  {
    ValidTime(t) && env.startOfDay(t) == env.startOfDay(env.now)
  }

  /** The times of the calendar events that fall on today's local date. */
  function TodayEventTimes(env: Env, events: seq<CalendarEvent>): (r: seq<int>)
    ensures forall t :: t in r <==> exists i :: 0 <= i < |events| && events[i].datetime == t && SameLocalDay(env, t)
  {
    if events == [] then []
    else
      var init := TodayEventTimes(env, events[..|events| - 1]);
      var e := events[|events| - 1];
      assert forall i :: 0 <= i < |events| - 1 ==> events[..|events| - 1][i] == events[i];
      if SameLocalDay(env, e.datetime) then init + [e.datetime] else init
  }

  /** The `xpGains` times, in milliseconds, at or after today's local midnight. */
  function GainTimesSince(gains: seq<XpGain>, start: int): (r: seq<int>)
    ensures forall t :: t in r <==> exists i :: 0 <= i < |gains| && gains[i].time * 1000 == t && t >= start
  {
    if gains == [] then []
    else
      var init := GainTimesSince(gains[..|gains| - 1], start);
      var g := gains[|gains| - 1];
      assert forall i :: 0 <= i < |gains| - 1 ==> gains[..|gains| - 1][i] == gains[i];
      if g.time * 1000 >= start then init + [g.time * 1000] else init
  }

  /**
   * `resolveStreakExtendedTime`: nothing unless the streak was extended
   * today; then the last-extended stamp, else today's earliest calendar
   * event, else today's earliest XP gain.
   */
  function ResolveStreakExtendedTime(env: Env, extended: bool, raw: RawUser, todayStart: int): (r: Option<string>)
    ensures !extended ==> r.None?
  {
    if !extended then None
    else if raw.streakData.Some? && TruthyStr(raw.streakData.value.lastExtendedDate) then
      Some(TimeLabel(env, ParsedTime(env, raw.streakData.value.lastExtendedDate.value)))
    else
      var fromCalendar := if raw.calendar.Some? && |raw.calendar.value| > 0 then TodayEventTimes(env, raw.calendar.value) else [];
      if fromCalendar != [] then Some(TimeLabel(env, Some(Least(fromCalendar))))
      else
        var fromGains := if raw.xpGains.Some? && |raw.xpGains.value| > 0 then GainTimesSince(raw.xpGains.value, todayStart) else [];
        if fromGains != [] then Some(TimeLabel(env, Some(Least(fromGains))))
        else None
  }

  /**
   * Without a last-extended stamp, the time shown is that of the earliest
   * calendar event of today: no event of today is earlier.
   */
  lemma ExtendedTimeIsEarliestEvent(env: Env, raw: RawUser, todayStart: int)
    requires !(raw.streakData.Some? && TruthyStr(raw.streakData.value.lastExtendedDate))
    requires raw.calendar.Some? && exists i :: 0 <= i < |raw.calendar.value| && SameLocalDay(env, raw.calendar.value[i].datetime)
    ensures exists t :: (ResolveStreakExtendedTime(env, true, raw, todayStart) == Some(TimeLabel(env, Some(t)))
      && (exists i :: 0 <= i < |raw.calendar.value| && raw.calendar.value[i].datetime == t && SameLocalDay(env, t))
      && forall i :: 0 <= i < |raw.calendar.value| && SameLocalDay(env, raw.calendar.value[i].datetime) ==> t <= raw.calendar.value[i].datetime)
  {
    var events := raw.calendar.value;
    var i :| 0 <= i < |events| && SameLocalDay(env, events[i].datetime);
    var times := TodayEventTimes(env, events);
    assert events[i].datetime in times;
    var t := Least(times);
    forall k | 0 <= k < |events| && SameLocalDay(env, events[k].datetime) ensures t <= events[k].datetime {
      assert events[k].datetime in times;
    }
  }
}
