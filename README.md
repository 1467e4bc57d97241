# duodash core in Dafny

This project models the deterministic core of duodash, a Duolingo statistics
dashboard, and proves properties of it. There are five parts.

- **Achievement statistics** (`useAchievementStats`), in `achievement_stats.dfy`:
  - the active days, sorted by date;
  - the longest run of consecutive days;
  - the current streak, walked backwards with a cap of 3650 days;
  - the best day, the number of active days and the total XP;
  - four milestone maps, where the first date that reaches a threshold is
    recorded and never overwritten.

  Dates are integer day numbers, and "today" is a parameter. The scans are
  methods with loop invariants. Each is proved equal to a specification
  function, and the lemmas are stated about those functions.
- **The raw-user normalizer** (`transformDuolingoData` and its helpers), in
  `duolingo_types.dfy`, `duolingo_fields.dfy`, `duolingo_courses.dfy`,
  `duolingo_history.dfy` and `duolingo_service.dfy`:
  - each output field resolved through its ordered chain of fallbacks;
  - the three-source course merge;
  - the per-day XP and time totals, built from exactly one of three
    history shapes;
  - the seven-day window and the yearly list;
  - today's XP and lesson count;
  - the creation date, with its seconds-versus-milliseconds guess.

  The upstream record is a datatype with `Option` fields, where `None`
  means missing or `null`. The clock, the local calendar, `Intl` date keys
  and the locale labels are fields of `Env`.
- **The gzip middleware** (`src/middleware.ts`), in `middleware.dfy`:
  - which content types and sizes are compressible;
  - `appendVary`, on a `Headers` class that holds a lower-cased field map;
  - the guard sequence of `onRequest`, with the gzip function as a
    parameter.
- **The data route** (`src/pages/api/data.ts`), in `data_api.dfy`:
  - the response sanitizer, with its field promotions, the deletion of
    sensitive fields and the anonymized friend ranking;
  - the five-minute cache rule;
  - the V1/V2 merge precedence;
  - the `GET` handler, as a `DataRoute` class whose `cache` field it
    updates.

  The upstream responses and the extra fetches are parameters.
- **The authorization helpers** (`src/utils/auth-helpers.ts`), in
  `auth_helpers.dfy`: `timingSafeEqual`, `isSameOrigin` and the `checkToken`
  chain (query token, then Bearer header, then same host). URL parsing and
  the `NODE_ENV` check are fields of `Env`.

`wrappers.dfy` holds the `Option` type. `text.dfy` holds the JavaScript
string operations the code relies on, among them `split`, `trim`,
`toLowerCase` (as ASCII lower-casing, which is all the core's header names,
tokens and media types need), `includes`, `replace` and `String(n)`.

Several places follow the code rather than its documentation or comments:

- `maxStreak` is 1 on an empty series. `tempStreak` starts at 1 and is
  folded into the maximum after the loop.
- `timingSafeEqual` is string equality for strings of every length. Padding
  to 128 characters does nothing to a longer string, so two equal long
  tokens compare true.

The model departs from the code in one general way: the upstream record's
`Option` fields cannot tell `null` from a missing field, so a `null` field
counts as missing everywhere. The places where the source treats `null`
differently (`xp_today`, the tier sources, a course's `xp`) are listed under
"Left out".

## Model

| member | source | states |
|---|---|---|
| AchievementStats.SortedActive | src/hooks/useAchievementStats.ts:27-29 | the sorted data holds exactly the entries with xp > 0, as a permutation of them, in date order |
| AchievementStats.PositiveXpSumIsActiveSum | src/hooks/useAchievementStats.ts:112 | `totalXp` (the sum of the positive xp values) equals the XP of the active days |
| AchievementStats.RecordMilestones | src/hooks/useAchievementStats.ts:36-41 | one milestone check adds exactly the thresholds met that are not yet set, dated with this entry, and leaves every existing entry unchanged |
| AchievementStats.CrossingsNeverOverwritten | src/hooks/useAchievementStats.ts:36-41 | first write wins: a milestone set after i entries is still set, with the same date, after any later entry |
| AchievementStats.ScanLongestStreak | src/hooks/useAchievementStats.ts:32-57 | `maxStreak` is at least 1 and is 1 on empty input. It is at least every run length and equal to one of them. The streak milestones are the first dates each run length reaches a threshold |
| AchievementStats.LongestStreakIsLongestRun | src/hooks/useAchievementStats.ts:32-57 | `maxStreak` is at least the length of every run of consecutive days (gap exactly 1) and equals the length of some run; it is 1 when no day is active |
| AchievementStats.StreakMilestonesIffLongest | src/hooks/useAchievementStats.ts:36-57 | a streak milestone is set iff it is a threshold and `maxStreak` reaches it |
| AchievementStats.XpByDateSpec | src/hooks/useAchievementStats.ts:64 | the date map has exactly the dates of the data, each with the xp of its last entry |
| AchievementStats.WalkCurrentStreak | src/hooks/useAchievementStats.ts:60-84 | the capped backward walk returns the specified count from the start day |
| AchievementStats.CurrentStreakIsActiveBlock | src/hooks/useAchievementStats.ts:59-84 | `currentStreak` is in [0, 3650]. The walk starts today, or yesterday when today has no or zero xp. Every one of the counted days is active, and when the cap is not hit the next day back is not |
| AchievementStats.ScanDailyXp | src/hooks/useAchievementStats.ts:86-96 | `maxDailyXp` is non-negative, bounds every entry and is 0 or some entry's xp. A daily milestone is set iff `maxDailyXp` reaches it, dated with the first entry in input order that does |
| AchievementStats.DailyXpMilestonesIffBestDay | src/hooks/useAchievementStats.ts:86-96 | daily-XP milestone set iff threshold ≤ best single-day XP |
| AchievementStats.ScanTotalDays | src/hooks/useAchievementStats.ts:98-109 | milestone m set iff there are at least m active days, dated with the m-th active day in date order |
| AchievementStats.TotalDaysMilestonesIffCount | src/hooks/useAchievementStats.ts:98-109 | the same, for the computed statistics: iff `totalDays ≥ m`, valued at the m-th sorted date |
| AchievementStats.ScanTotalXp | src/hooks/useAchievementStats.ts:111-122 | the total-XP milestones are the first crossings of each threshold by the running sum |
| AchievementStats.RunningTotalsIncrease | src/hooks/useAchievementStats.ts:113-122 | over positive entries the running sum strictly increases, never exceeds the total and ends at it |
| AchievementStats.TotalXpMilestonesIffTotal | src/hooks/useAchievementStats.ts:111-122 | `totalXp` is the positive-xp sum and a total-XP milestone is set iff `totalXp` reaches it |
| AchievementStats.ComputeStats | src/hooks/useAchievementStats.ts:25-135 | the whole computation returns the specified statistics |
| DuolingoTypes.CeilDiv3 | src/services/duolingoService.ts:212 | `Math.ceil(x / 3)`: the least r with x ≤ 3r |
| DuolingoTypes.RoundDiv60 | src/services/duolingoService.ts:231 | `Math.round(x / 60)`: the r with 60r − 30 ≤ x < 60r + 30 |
| DuolingoFields.FirstDefined | src/services/duolingoService.ts:43-54 | the first defined source wins: None iff all are missing, else the first present one |
| DuolingoFields.CurrentLanguage | src/services/duolingoService.ts:51 | `find(l => l.current_learning)`: None iff no language is current, else the first current one |
| DuolingoFields.TierIsFirstDefined | src/services/duolingoService.ts:43-54 | the tier index is the first defined among: `tier` in [0,10], the two `trackingProperties` fields, the two `tracking_properties` fields, the current language's tier; else −1 |
| DuolingoFields.LeagueNameMissing | src/services/duolingoService.ts:258-260 | the league is "暂无数据" iff the tier is outside [0,10), including 10 and −1 |
| DuolingoFields.SumPoints | src/services/duolingoService.ts:116-119 | a missing list sums to 0 |
| DuolingoFields.SumScoredAppend | src/services/duolingoService.ts:116-119 | the points sum is additive over concatenation |
| DuolingoFields.SumScoredNonNegative | src/services/duolingoService.ts:116-119 | items whose score (points, else xp, else 0) is non-negative sum to a non-negative total |
| DuolingoFields.TotalXpIsFirstNonZero | src/services/duolingoService.ts:127-130 | total XP is the first non-zero of: the stated total, the `languages` sum, the `language_data` sum, the `courses` sum |
| DuolingoFields.StatedTotalWins | src/services/duolingoService.ts:127-130 | a non-zero stated total is never replaced by a sum |
| DuolingoFields.GemsIsFirstNonZero | src/services/duolingoService.ts:125 | gems are the first non-zero of the six sources, else 0 |
| DuolingoFields.Streak | src/services/duolingoService.ts:124 | the streak is the first defined of `site_streak` and `streak` |
| DuolingoFields.StreakExtendedToday | src/services/duolingoService.ts:274 | a stated `streak_extended_today` wins, even when false; otherwise true iff `streakExtendedToday` is true |
| DuolingoFields.IsPlus | src/services/duolingoService.ts:264-266 | Plus iff any of the nine subscription signals is set |
| DuolingoFields.DailyGoalKeepsZero | src/services/duolingoService.ts:132 | `??` keeps an explicit 0 goal; with no source the goal is 0 |
| DuolingoFields.CalcDaysSince | src/services/duolingoService.ts:38-41 | the age is ≥ 0 and is the floor of the day difference between the two local midnights |
| DuolingoFields.ParseCreationDate | src/services/duolingoService.ts:56-77 | `ageDays` is never negative |
| DuolingoFields.CreationSecondsGuess | src/services/duolingoService.ts:56-65 | a timestamp below 10,000,000,000 is read as seconds (×1000) |
| DuolingoFields.CreationUnknownIffNeitherParses | src/services/duolingoService.ts:56-77 | the date is "未知" iff neither the timestamp nor the `created` text gives a valid date, and then the age is 0 |
| DuolingoFields.VisibleTotalXp | src/services/duolingoService.ts:268 | the visible sum is NaN (None) iff some course has no xp |
| DuolingoFields.EstimateMinutesBelow60 | src/services/duolingoService.ts:268-270 | for a non-negative visible XP the estimate's minutes are in [0,60) and hours·60 + minutes = ⌊xp/6⌋ |
| DuolingoFields.ResolveStreakExtendedTime | src/services/duolingoService.ts:79-85 | no time when the streak was not extended today |
| DuolingoFields.TodayEventTimes | src/services/duolingoService.ts:92-96 | exactly the calendar times that fall on today's local date |
| DuolingoFields.GainTimesSince | src/services/duolingoService.ts:103-106 | exactly the gain times (seconds × 1000) at or after today's start |
| DuolingoFields.ExtendedTimeIsEarliestEvent | src/services/duolingoService.ts:92-100 | without a last-extended stamp, the time shown is that of one of today's calendar events, and no event of today is earlier |
| DuolingoCourses.PrimaryCoursesMembers | src/services/duolingoService.ts:137-148 | every primary course with xp > 0 or `current_learning` is listed, converted, and nothing else is; with nothing filtered out the length is kept |
| DuolingoCourses.PrimaryCoursesAppend | src/services/duolingoService.ts:137-148 | filter and map keep order: the primary courses of a concatenation are those of each part, in turn |
| DuolingoCourses.PrimaryCoursesNoneKept | src/services/duolingoService.ts:138 | a list whose every course the filter rejects gives no primary course |
| DuolingoCourses.PrimaryCoursesHead | src/services/duolingoService.ts:137-148 | the first primary course is the conversion of the first course the filter keeps |
| DuolingoCourses.V1CoursesMembers | src/services/duolingoService.ts:150-160 | every V1 language with points > 0 or `current_learning` becomes a course, and nothing else does |
| DuolingoCourses.V1CoursesAppend | src/services/duolingoService.ts:150-160 | the V1 conversion keeps the languages' order: a concatenation converts part by part |
| DuolingoCourses.MergeV1 | src/services/duolingoService.ts:162-169 | the merge loop computes the specified merge |
| DuolingoCourses.MergedV1Facts | src/services/duolingoService.ts:162-169 | primary courses stay first and in order; each V1 course is listed or matched (same title, same learning language or id contained); each appended course is a V1 course matching no earlier entry |
| DuolingoCourses.MergedV1AllMatched | src/services/duolingoService.ts:162-169 | when every V1 course is already matched the list is unchanged |
| DuolingoCourses.DetailCrowns | src/services/duolingoService.ts:179-183 | non-zero stated crowns are kept; only zero crowns fall back to the skill sum |
| DuolingoCourses.LanguageDataCoursesMembers | src/services/duolingoService.ts:172-193 | exactly the `language_data` entries whose XP (points, else level_progress) is positive or that are `current_learning`, converted |
| DuolingoCourses.LanguageDataCoursesAppend | src/services/duolingoService.ts:172-193 | the `language_data` conversion keeps the entry order: a concatenation converts part by part |
| DuolingoCourses.BuildCourses | src/services/duolingoService.ts:135-193 | the course list is built as specified |
| DuolingoCourses.CoursesPrecedence | src/services/duolingoService.ts:135-193 | primary courses come first; every kept V1 language is listed or matched when primary courses exist; `language_data` is used only when the other sources give nothing |
| DuolingoCourses.LearningLanguage | src/services/duolingoService.ts:195-203 | with `language_data`: the current language's name when it has one, else the first course's title when it has one, else "None"; without it: the current course's title, else the first course's title, else "None" |
| DuolingoCourses.LearningLanguageIsFirstKeptCourse | src/services/duolingoService.ts:195-203 | without `language_data` or a current course, the learning language is the title of the first raw course the primary filter keeps |
| DuolingoHistory.Put | src/services/duolingoService.ts:211-212 | setting a key in both maps keeps them well formed and only appends new keys to the iteration order |
| DuolingoHistory.EventMinutes | src/services/duolingoService.ts:212 | an event without improvement counts as 10 XP, i.e. 4 minutes |
| DuolingoHistory.CalendarTotals | src/services/duolingoService.ts:208-213 | adding calendar events keeps the two maps over the same keys, each listed once |
| DuolingoHistory.CalendarXpAddsUp | src/services/duolingoService.ts:208-211 | each day's XP grows by the sum of the improvements of that day's events (0 when missing) |
| DuolingoHistory.CalendarMinutesAddUp | src/services/duolingoService.ts:208-212 | each day's time grows by the sum, over that day's events, of a third of the improvement (10 when missing), rounded up |
| DuolingoHistory.CalendarKeys | src/services/duolingoService.ts:208-213 | a day has a key iff it had one or an event falls on it |
| DuolingoHistory.SummaryMinutes | src/services/duolingoService.ts:230-232 | with s = `totalSessionTime ?? total_session_time ?? 0` seconds: from 30 s on, the time is the positive m with 60m − 30 ≤ s < 60m + 30 (Math.round of s/60); below 30 s it is ⌈xp/3⌉ |
| DuolingoHistory.LastSummaryWins | src/services/duolingoService.ts:215-233 | summaries overwrite: a day holds the XP and time of the last summary for it |
| DuolingoHistory.UnnamedDayKept | src/services/duolingoService.ts:215-233 | a day no summary names keeps its value, and a summary with a non-number, non-string date changes nothing |
| DuolingoHistory.HistoryTotals | src/services/duolingoService.ts:215-240 | the totals are always well formed |
| DuolingoHistory.BuildHistory | src/services/duolingoService.ts:215-240 | exactly one source is used, summaries before calendar before per-language calendars |
| DuolingoHistory.AddEvents | src/services/duolingoService.ts:234-235 | the `forEach(addCalendarEvent)` loop computes the specified totals |
| DuolingoHistory.CalendarHistoryIsSum | src/services/duolingoService.ts:234-235 | with a calendar and no summaries, each day's XP and time are the sums over that day's events, and the days are exactly the events' days |
| DuolingoHistory.XpWindow | src/services/duolingoService.ts:242-253 | seven entries, oldest first: entry j is the day 6 − j days ago with its XP or 0 |
| DuolingoHistory.TimeWindow | src/services/duolingoService.ts:242-253 | seven entries, oldest first: entry j is the day 6 − j days ago with its minutes or 0 |
| DuolingoHistory.Window | src/services/duolingoService.ts:242-253 | the `i = 6 … 0` loop produces the two windows |
| DuolingoHistory.YearlyOf | src/services/duolingoService.ts:255-256 | one entry per key, in insertion order |
| DuolingoHistory.Yearly | src/services/duolingoService.ts:255-256 | the `forEach` loop produces the yearly list |
| DuolingoHistory.YearlyListsEachDayOnce | src/services/duolingoService.ts:255-256 | every day with XP appears exactly once, with its XP and a defined time |
| DuolingoService.EventsToday | src/services/duolingoService.ts:295-297 | exactly the calendar events inside today's local window, each as many times as it occurs in the calendar |
| DuolingoService.GainsToday | src/services/duolingoService.ts:303-306 | exactly the gains whose time × 1000 is inside today's local window, each as many times as it occurs in the gains |
| DuolingoService.TodayActivity | src/services/duolingoService.ts:283-309 | a stated non-zero `xp_today` wins; any non-zero XP from the first chain is kept |
| DuolingoService.LessonsToday | src/services/duolingoService.ts:318 | `lessonsToday` is undefined iff the count is 0, else the positive count |
| DuolingoService.GainsFillZeroDay | src/services/duolingoService.ts:302-309 | when the first chain gives 0 XP, XP and lessons come from today's gains |
| DuolingoService.SumGainXpNonNegative | src/services/duolingoService.ts:307 | gains with non-negative XP sum to a non-negative total |
| DuolingoService.Transform | src/services/duolingoService.ts:121-325 | the normalizer returns the specified record |
| DuolingoService.TransformedIsConsistent | src/services/duolingoService.ts:242-318 | seven-day windows; the league named after the tier; yearly days listed once with a time; no zero lesson count; age ≥ 0; no streak time unless extended today |
| DuolingoService.TodayMatchesChart | src/services/duolingoService.ts:242-289 | without `xp_today`, a day with history XP shows the same XP as today's chart bar |
| Middleware.IsInCompressRange | src/middleware.ts:38-40 | a size is in range iff 1024 ≤ size ≤ 3145728 (1 KiB to 3 MiB, both included) |
| Middleware.Headers.AppendVary | src/middleware.ts:26-36 | only the `vary` entry can change; it becomes the appended value (the value itself when absent or empty, the existing text when a trimmed, lower-cased token already equals it, else the text + ", " + value); stored names stay lower case |
| Middleware.IsCompressible | src/middleware.ts:20-24 | a missing or empty type is not compressible; otherwise compressible iff the media type (before `;`, trimmed, lower-cased) starts with `text/` or is in the fixed set |
| Middleware.CompressibleIgnoresParameters | src/middleware.ts:22 | parameters after `;` never change the decision |
| Middleware.AppendVaryAbsent | src/middleware.ts:26-31 | a missing or empty `Vary` becomes exactly the value |
| Middleware.AppendVaryKeepsExisting | src/middleware.ts:32-35 | an existing `Vary` is kept or extended by `", " + value`, and kept iff the value is among its trimmed, lower-cased tokens |
| Middleware.AppendVaryIdempotent | src/middleware.ts:26-36 | appending the same value twice equals appending it once |
| Middleware.VaryListsValue | src/middleware.ts:26-36 | after appending, the value is among the header's tokens |
| Middleware.LengthGuardsAgreeWhenPresent | src/middleware.ts:54-57 | with a Content-Length present, the corrected guard is the written one |
| Middleware.CompressedHeaders | src/middleware.ts:71-74 | the gzipped response says `gzip`, gives the gzipped length, and keeps every other header |
| Middleware.CompressedAsWrittenIff | src/middleware.ts:42-81 | as written, the body is compressed iff every guard passes and the response also declares a Content-Length |
| Middleware.CompressedIffEligible | src/middleware.ts:42-81 | the body is replaced by its gzip iff the method is GET, gzip is accepted, there is no encoding, the type is compressible, the length is in range and the gzip is below 95%; the result carries the gzipped headers |
| Middleware.CompressedHeadersVary | src/middleware.ts:74 | the compressed response varies on Accept-Encoding |
| Middleware.NeverAltersBodyUnlessCompressed | src/middleware.ts:59-69 | a rebuilt response keeps the body; HEAD passes through |
| Middleware.MissingLengthNeverCompressed | src/middleware.ts:54-57 | a compressible 2 KiB response without Content-Length passes through as written, but is compressed by the corrected guard |
| DataApi.SensitiveFieldListIsSet | src/pages/api/data.ts:154-162 | the deleted set is exactly the 31 listed fields |
| DataApi.DeleteSensitive | src/pages/api/data.ts:164-166 | the delete loop removes exactly the sensitive fields |
| DataApi.RankedFriends | src/pages/api/data.ts:169-175 | the ranking fails (a thrown TypeError) iff an entry is null; otherwise entry i is the anonymized friend i, same length |
| DataApi.FriendEntry | src/pages/api/data.ts:170-174 | each entry keeps `points_data`, has rank i+1 and display name "你" or "用户 {i+1}" |
| DataApi.RankFriends | src/pages/api/data.ts:169-175 | the `map` loop computes the specified ranking |
| DataApi.Promote | src/pages/api/data.ts:122-151 | the promotions compute the specified copy |
| DataApi.Sanitize | src/pages/api/data.ts:121-178 | the sanitizer computes the specified result |
| DataApi.SanitizedHasNoSensitiveFields | src/pages/api/data.ts:154-166 | no sensitive field survives, including `trackingProperties`, `id`, `user_id`, `username` |
| DataApi.SanitizedKeepsOtherFields | src/pages/api/data.ts:122 | a field neither sensitive nor rewritten keeps its value |
| DataApi.SanitizedKeepsWeeklyMonthly | src/pages/api/data.ts:146-151 | `weeklyXp` and `monthlyXp` keep their values |
| DataApi.SanitizedTier | src/pages/api/data.ts:125-129 | `tier` is the tracking `leaderboard_league` when defined, else unchanged |
| DataApi.SanitizedGems | src/pages/api/data.ts:133-135 | tracking gems replace `gems` only when the top-level value is falsy |
| DataApi.SanitizedRanking | src/pages/api/data.ts:169-175 | the ranking keeps its length and gives entry i rank i+1 and its display name; sanitizing fails iff a truthy ranking is not an array or holds null |
| DataApi.SanitizedIdempotent | src/pages/api/data.ts:121-178 | sanitizing a sanitized record changes nothing |
| DataApi.StoredServedWithinTtl | src/pages/api/data.ts:38-41 | a stored entry is served iff its age is below 5 minutes |
| DataApi.V2Data | src/pages/api/data.ts:65 | the V2 record is `users[0]` when that is truthy, else the raw reply; a falsy reply is kept as is |
| DataApi.MergePrecedence | src/pages/api/data.ts:72-81 | V2 is the base; V1 `languages` and `language_data` overwrite when truthy; every other field is V2's |
| DataApi.MergeFallsBackToV1 | src/pages/api/data.ts:72 | without V2 data the V1 record is used as is |
| DataApi.UserId | src/pages/api/data.ts:84 | the first truthy of `id`, `user_id`, `tracking_properties.user_id` |
| DataApi.Status | src/pages/api/data.ts:31-117 | status 200 iff the reply is cached or fresh |
| DataApi.Load | src/pages/api/data.ts:60-102 | loading computes the specified result |
| DataApi.LoadedIsSanitized | src/pages/api/data.ts:60-102 | a loaded record has no sensitive field |
| DataApi.UnconfiguredFirst | src/pages/api/data.ts:31-36 | without username or JWT the reply is "not configured" and the cache is untouched |
| DataApi.CacheDiscipline | src/pages/api/data.ts:38-110 | a cached reply is served iff the entry is fresh, with its data; only a fresh reply writes the cache, with that data |
| DataApi.RepliesAreSanitized | src/pages/api/data.ts:38-110 | the cache stays free of sensitive fields and every 200 reply is too |
| DataApi.Merge | src/pages/api/data.ts:72-81 | the merge statements compute the specified merge |
| DataApi.WithExtras | src/pages/api/data.ts:93-98 | `_xpSummaries` holds `xpData.summaries` when that is truthy and is otherwise untouched; `_leaderboardHistory` holds the history when truthy and is otherwise untouched; every other field is unchanged |
| DataApi.AttachExtras | src/pages/api/data.ts:93-98 | the two conditional assignments compute `WithExtras` |
| DataApi.DataRoute.Get | src/pages/api/data.ts:26-118 | the handler's reply and new cache are the specified ones |
| AuthHelpers.RequestOrigin | src/utils/auth-helpers.ts:29-31 | the origin header when truthy, else the referer; truthy iff one of them is |
| AuthHelpers.TimingSafeEqualIsEquality | src/utils/auth-helpers.ts:7-23 | the comparison is true iff the strings are equal |
| AuthHelpers.TimingSafeEqualLengths | src/utils/auth-helpers.ts:19 | strings of different lengths never compare equal |
| AuthHelpers.IsSameOrigin | src/utils/auth-helpers.ts:28-49 | with neither origin nor referer, true only in development; otherwise true iff both URLs parse and the hostnames agree or the origin is a loopback name |
| AuthHelpers.QueryTokenDecides | src/utils/auth-helpers.ts:58-68 | a `token` query parameter alone decides: false without a secret, else equality with it |
| AuthHelpers.BearerDecides | src/utils/auth-helpers.ts:72-77 | otherwise a Bearer header decides: false without a secret, else the text after `Bearer ` equals it |
| AuthHelpers.NoTokenNeedsSameHost | src/utils/auth-helpers.ts:80-108 | with no token, access iff same host (loopback only in development), which implies `isSameOrigin`, and never depends on the secret |
| AuthHelpers.NoSecretOnlySameHost | src/utils/auth-helpers.ts:54-110 | without a configured secret only same-host requests without a query token pass |
| AuthHelpers.SameHostMatchesSameOrigin | src/utils/auth-helpers.ts:80-101 | outside development, for a non-loopback origin, the same-host rule agrees with `isSameOrigin` |

## Left out

- Network and I/O: the upstream fetches, their time-outs and `Promise.all` concurrency, and reading the environment. Upstream replies, the extra fetches and configuration are parameters.
- `Intl.DateTimeFormat`, `toLocaleDateString` / `toLocaleTimeString`, `new Date(string)`, `setHours` / `setDate`: fields of `Env` (date key, labels, start of day, days ago, parsing). One `now` stands for every `new Date()` of one call.
- The gzip compressor is a parameter; `crypto.timingSafeEqual` is modelled by its result (equality of the padded buffers).
- URL parsing (`new URL`) is an `Env` field returning the hostname or failure.
- JavaScript numbers are integers: no NaN, no fractions, no `Infinity`; a non-numeric `date` in an XP summary is the `OtherDate` case.
- `Text.Lower`: lower-cases ASCII letters only; `toLowerCase` also maps other scripts, which never occur in the header names, tokens and media types the core compares.
- `Middleware.NumberOf`: reads only decimal digit text as `Number(...)`; other spellings give NaN.
- `DataApi.Respond`: the model answers 500 for every upstream record that is not a JSON object. The source answers 200 with the spread value for most such records (an array, a string), and fails with 500 only where it assigns a property on a primitive (a TypeError).
- `DataApi.FriendEntry`: an undefined `points_data` is left out of the entry, as the JSON serialisation drops it.
- `DuolingoService.Transformed`: `xp_today: null` counts as missing; the source would pass `null` through.
- `DuolingoFields.ResolveTierIndex`: a `null` tier source counts as missing and the next source is tried; the source's `!== undefined` tests accept `null` (a `null` `tier` also passes its `>= 0 && <= 10` check), so it returns `null` and shows `LEAGUE_TIERS[null]`, which is undefined.
- `DuolingoFields.VisibleTotalXp`: a course with `xp: null` makes the sum NaN (`None`); JavaScript adds `null` as 0, so the source gives a number.
- `AuthHelpers.CheckToken`: the `console.warn` logged when no secret is configured (src/utils/auth-helpers.ts:104-106) is output only and is not modelled.
- The Monday-to-Sunday weekly history is not produced by the normalizer and is not modelled; the leaderboard history is only attached as opaque data.
- The React components, charts, export hooks and styles are presentation only.

## Findings

| source | as written | input that shows it | evidently intended | confidence | as-written member | corrected member |
|---|---|---|---|---|---|---|
| src/middleware.ts:54-57 | `Number(null)` is 0, so a response without Content-Length counts as length 0 and is returned uncompressed | GET, `Accept-Encoding: gzip, deflate`, `text/html`, no Content-Length, 2048-byte body that gzips to 100 bytes | skip only when a Content-Length is present and out of range; the body length is checked after reading it anyway | not executed | Middleware.MissingLengthNeverCompressed | Middleware.CompressedIffEligible |
