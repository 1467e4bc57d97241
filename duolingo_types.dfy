/**
 * The shapes the normalizer reads and produces (src/types.ts), with the
 * JavaScript coercions it relies on.
 *
 * A missing or `null` upstream field is `None`. Timestamps are integer
 * milliseconds; the clock, the local calendar and the locale formatting are
 * fields of `Env`.
 */
module DuolingoTypes {
  import opened Wrappers

  /** `MS_PER_DAY`. */
  const MsPerDay: int := 1000 * 60 * 60 * 24

  /** The largest magnitude of a valid `Date` time value. */
  const MaxTime: int := 8640000000000000

  /** `!isNaN(new Date(t).getTime())` for an integer `t`. */
  predicate ValidTime(t: int)
  {
    -MaxTime <= t <= MaxTime
  }

  /**
   * The clock and the locale: `now` is `Date.now()`; `startOfDay(t)` the
   * local midnight before `t`; `dateKey(t)` the `YYYY-MM-DD` key of `t` in
   * the configured time zone; `daysAgo(i)` the time `i` local calendar days
   * before now; `dayLabel`, `dateLabel` and `timeLabel` the `zh-CN` month-day,
   * long-date and hour-minute labels; `parseDate(s)` the time of `new Date(s)`.
   */
  datatype Env = Env(
    now: int,
    startOfDay: int -> int,
    dateKey: int -> string,
    daysAgo: nat -> int,
    dayLabel: int -> string,
    dateLabel: int -> string,
    timeLabel: int -> string,
    parseDate: string -> Option<int>)

  /** `new Date(s)` as a valid time, or `None` for an Invalid Date. */
  function ParsedTime(env: Env, s: string): (r: Option<int>)
    ensures r.Some? ==> ValidTime(r.value)
  {
    match env.parseDate(s)
    case Some(t) => if ValidTime(t) then Some(t) else None
    case None => None
  }

  /**
   * `toLocalDateKey(new Date(t))`: formatting an Invalid Date throws, and
   * the fallback prints its NaN fields.
   */
  function DateKey(env: Env, t: Option<int>): string
  {
    if t.Some? && ValidTime(t.value) then env.dateKey(t.value) else "NaN-NaN-NaN"
  }

  /** `new Date(t).toLocaleTimeString(...)`. */
  function TimeLabel(env: Env, t: Option<int>): string
  {
    if t.Some? && ValidTime(t.value) then env.timeLabel(t.value) else "Invalid Date"
  }

  /** `a || b` on numbers: `undefined` and 0 are falsy. */
  function OrNum(a: Option<int>, b: int): (r: int)
    ensures a.Some? && a.value != 0 ==> r == a.value
    ensures a.None? || a.value == 0 ==> r == b
  {
    if a.Some? && a.value != 0 then a.value else b
  }

  /** `a || b` on strings: `undefined` and "" are falsy. */
  function OrStr(a: Option<string>, b: string): (r: string)
    ensures TruthyStr(a) ==> r == a.value
    ensures !TruthyStr(a) ==> r == b
  {
    if TruthyStr(a) then a.value else b
  }

  predicate TruthyStr(s: Option<string>)
  {
    s.Some? && s.value != ""
  }

  predicate TruthyBool(b: Option<bool>)
  {
    b == Some(true)
  }

  /** `Math.ceil(x / 3)`. */
  function CeilDiv3(x: int): (r: int)
    ensures 3 * r - 3 < x <= 3 * r
  {
    (x + 2) / 3
  }

  /** `Math.round(x / 60)`: halves round up. */
  function RoundDiv60(x: int): (r: int)
    ensures 60 * r - 30 <= x < 60 * r + 30
  {
    (x + 30) / 60
  }

  /** `a % b` in JavaScript: the remainder takes the sign of `a`. */
  function JsRem(a: int, b: int): (r: int)
    requires b > 0
    ensures a >= 0 ==> 0 <= r < b
    ensures a < 0 ==> -b < r <= 0
  {
    if a >= 0 then a % b else -((-a) % b)
  }

  // ---------------------------------------------------------------------
  // The upstream record
  // ---------------------------------------------------------------------

  datatype TrackingProperties = TrackingProperties(
    gems: Option<int>,
    league_tier: Option<int>,
    leaderboard_league: Option<int>)

  datatype RawCourse = RawCourse(
    title: Option<string>,
    xp: Option<int>,
    fromLanguage: Option<string>,
    learningLanguage: Option<string>,
    crowns: Option<int>,
    id: Option<string>,
    current_learning: Option<bool>)

  /** A V1 `languages` entry. */
  datatype Language = Language(
    language: Option<string>,
    language_string: Option<string>,
    points: Option<int>,
    crowns: Option<int>,
    current_learning: Option<bool>)

  datatype Skill = Skill(levels_finished: Option<int>, crowns: Option<int>, finishedLevels: Option<int>)

  datatype CalendarEvent = CalendarEvent(datetime: int, improvement: Option<int>)

  /** A `language_data` value. */
  datatype LanguageDetail = LanguageDetail(
    points: Option<int>,
    level_progress: Option<int>,
    crowns: Option<int>,
    skills: Option<seq<Skill>>,
    language_string: Option<string>,
    learning_language: Option<string>,
    from_language: Option<string>,
    current_learning: Option<bool>,
    tier: Option<int>,
    calendar: Option<seq<CalendarEvent>>)

  /** The `date` of an XP summary: epoch seconds, a `YYYY/MM/DD` text, or anything else. */
  datatype SummaryDate = EpochSeconds(seconds: int) | DateText(text: string) | OtherDate

  datatype XpSummary = XpSummary(
    date: SummaryDate,
    gainedXp: Option<int>,
    gained_xp: Option<int>,
    totalSessionTime: Option<int>,
    total_session_time: Option<int>)

  /** An `xpGains` entry; `time` is in seconds. */
  datatype XpGain = XpGain(time: int, xp: Option<int>)

  datatype CurrentStreak = CurrentStreak(endDate: Option<string>, lastExtendedDate: Option<string>)

  datatype Inventory = Inventory(premium_subscription: Option<bool>, super_subscription: Option<bool>)

  /** The fields of the upstream user record that the normalizer reads. */
  datatype RawUser = RawUser(
    streak: Option<int>,
    site_streak: Option<int>,
    totalXp: Option<int>,
    total_xp: Option<int>,
    gems: Option<int>,
    gemsTotalCount: Option<int>,
    totalGems: Option<int>,
    lingots: Option<int>,
    rupees: Option<int>,
    tier: Option<int>,
    courses: Option<seq<RawCourse>>,
    languages: Option<seq<Language>>,
    language_data: Option<seq<(string, LanguageDetail)>>,   // the entries, in key order
    currentCourse: Option<RawCourse>,
    calendar: Option<seq<CalendarEvent>>,
    creationDate: Option<int>,
    creation_date: Option<int>,
    created: Option<string>,
    hasPlus: Option<bool>,
    hasSuper: Option<bool>,
    plusStatus: Option<string>,
    has_plus: Option<bool>,
    is_plus: Option<bool>,
    inventory: Option<Inventory>,
    has_item_premium_subscription: Option<bool>,
    has_item_immersive_subscription: Option<bool>,
    dailyGoal: Option<int>,
    daily_goal: Option<int>,
    xpGoal: Option<int>,
    xp_today: Option<int>,
    streak_extended_today: Option<bool>,
    streakExtendedToday: Option<bool>,
    trackingProperties: Option<TrackingProperties>,
    tracking_properties: Option<TrackingProperties>,
    streakData: Option<CurrentStreak>,               // `streakData.currentStreak`
    xpGains: Option<seq<XpGain>>,
    xpSummaries: Option<seq<XpSummary>>,              // `_xpSummaries`
    weeklyXp: Option<int>,
    numSessionsCompleted: Option<int>,
    streakFreezeCount: Option<int>)

  /** The `language_data` values, in key order. */
  function LanguageValues(entries: seq<(string, LanguageDetail)>): (r: seq<LanguageDetail>)
    ensures |r| == |entries| && forall i :: 0 <= i < |entries| ==> r[i] == entries[i].1
  {
    seq(|entries|, i requires 0 <= i < |entries| => entries[i].1)
  }

  // ---------------------------------------------------------------------
  // The normalized record
  // ---------------------------------------------------------------------

  datatype Course = Course(
    title: Option<string>,
    xp: Option<int>,
    fromLanguage: Option<string>,
    learningLanguage: Option<string>,
    crowns: int,
    id: Option<string>)

  datatype DayXp = DayXp(date: string, xp: int)

  datatype DayTime = DayTime(date: string, time: int)

  datatype YearEntry = YearEntry(date: string, xp: int, time: Option<int>)

  datatype UserData = UserData(
    streak: Option<int>,
    totalXp: int,
    gems: int,
    league: string,
    leagueTier: int,
    courses: seq<Course>,
    dailyXpHistory: seq<DayXp>,
    dailyTimeHistory: seq<DayTime>,
    yearlyXpHistory: seq<YearEntry>,
    learningLanguage: Option<string>,
    creationDate: string,
    accountAgeDays: int,
    isPlus: bool,
    dailyGoal: int,
    estimatedLearningTime: string,
    xpToday: int,
    lessonsToday: Option<int>,
    streakExtendedToday: bool,
    streakExtendedTime: Option<string>,
    weeklyXp: Option<int>,
    numSessionsCompleted: Option<int>,
    streakFreezeCount: Option<int>)
}
