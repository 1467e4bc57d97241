/**
 * The per-day XP and study-time totals of the normalizer
 * (src/services/duolingoService.ts): `xpByDate` and `timeByDate` filled from
 * the XP summaries, else the calendar, else the per-language calendars; the
 * seven-day window and the yearly list read from them.
 */
module DuolingoHistory {
  import opened Wrappers
  import opened Text
  import opened DuolingoTypes

  /**
   * `xpByDate` and `timeByDate`, with the order in which their keys were
   * first set (a `Map` iterates in that order).
   */
  datatype Totals = Totals(order: seq<string>, xp: map<string, int>, time: map<string, int>)

  const NoTotals: Totals := Totals([], map[], map[])

  /** Both maps have the same keys, listed once each in `order`. */
  ghost predicate WellFormed(t: Totals)
  {
    (forall k :: k in t.xp <==> k in t.order)
    && t.time.Keys == t.xp.Keys
    && (forall i, j :: 0 <= i < j < |t.order| ==> t.order[i] != t.order[j])
  }

  /** `m.get(k) || 0`. */
  function Get(m: map<string, int>, k: string): int
  {
    if k in m then m[k] else 0
  }

  function Lookup(m: map<string, int>, k: string): Option<int>
  {
    if k in m then Some(m[k]) else None
  }

  /** `xpByDate.set(key, xp)` and `timeByDate.set(key, time)`. */
  function Put(t: Totals, key: string, xp: int, time: int): (r: Totals)
    ensures WellFormed(t) ==> WellFormed(r)
    ensures r.xp == t.xp[key := xp] && r.time == t.time[key := time]
    ensures t.order <= r.order
  {
    Totals(if key in t.xp then t.order else t.order + [key], t.xp[key := xp], t.time[key := time])
  }

  // ---------------------------------------------------------------------
  // Calendar events
  // ---------------------------------------------------------------------

  function EventKey(env: Env, e: CalendarEvent): string
  {
    DateKey(env, Some(e.datetime))
  }

  /** `event.improvement || 0`. */
  function EventXp(e: CalendarEvent): int
  {
    OrNum(e.improvement, 0)
  }

  /** `Math.ceil((improvement || 10) / 3)`: ten XP when the event records none. */
  function EventMinutes(e: CalendarEvent): (m: int)
    ensures EventXp(e) == 0 ==> m == 4
  {
    var imp := EventXp(e);
    CeilDiv3(if imp != 0 then imp else 10)
  }

  /** `addCalendarEvent(event)`. */
  function AddEvent(env: Env, t: Totals, e: CalendarEvent): Totals
  {
    var key := EventKey(env, e);
    Put(t, key, Get(t.xp, key) + EventXp(e), Get(t.time, key) + EventMinutes(e))
  }

  /** `events.forEach(addCalendarEvent)`. */
  function CalendarTotals(env: Env, t: Totals, events: seq<CalendarEvent>): (r: Totals)
    ensures WellFormed(t) ==> WellFormed(r)
  {
    if events == [] then t else AddEvent(env, CalendarTotals(env, t, events[..|events| - 1]), events[|events| - 1])
  }

  /** The XP the events record on day `k`. */
  function XpOn(env: Env, events: seq<CalendarEvent>, k: string): int
  {
    if events == [] then 0
    else XpOn(env, events[..|events| - 1], k) + (if EventKey(env, events[|events| - 1]) == k then EventXp(events[|events| - 1]) else 0)
  }

  /** The minutes the events credit to day `k`. */
  function MinutesOn(env: Env, events: seq<CalendarEvent>, k: string): int
  {
    if events == [] then 0
    else MinutesOn(env, events[..|events| - 1], k) + (if EventKey(env, events[|events| - 1]) == k then EventMinutes(events[|events| - 1]) else 0)
  }

  /**
   * Calendar events add up: each day's XP grows by the XP of that day's
   * events.
   */
  lemma {:induction false} CalendarXpAddsUp(env: Env, t: Totals, events: seq<CalendarEvent>, k: string)
    ensures Get(CalendarTotals(env, t, events).xp, k) == Get(t.xp, k) + XpOn(env, events, k)
  {
    if events != [] {
      CalendarXpAddsUp(env, t, events[..|events| - 1], k);
    }
  }

  /** Each day's time grows by the minutes of that day's events. */
  lemma {:induction false} CalendarMinutesAddUp(env: Env, t: Totals, events: seq<CalendarEvent>, k: string)
    ensures Get(CalendarTotals(env, t, events).time, k) == Get(t.time, k) + MinutesOn(env, events, k)
  {
    if events != [] {
      CalendarMinutesAddUp(env, t, events[..|events| - 1], k);
    }
  }

  /** A day gets a key exactly when it had one or one of the events falls on it. */
  lemma {:induction false} CalendarKeys(env: Env, t: Totals, events: seq<CalendarEvent>, k: string)
    ensures k in CalendarTotals(env, t, events).xp <==> k in t.xp || exists i :: 0 <= i < |events| && EventKey(env, events[i]) == k
  {
    if events != [] {
      var init := events[..|events| - 1];
      CalendarKeys(env, t, init, k);
      if exists i :: 0 <= i < |events| && EventKey(env, events[i]) == k {
        var i :| 0 <= i < |events| && EventKey(env, events[i]) == k;
        if i < |init| {
          assert init[i] == events[i];
        }
      }
      if exists i :: 0 <= i < |init| && EventKey(env, init[i]) == k {
        var i :| 0 <= i < |init| && EventKey(env, init[i]) == k;
        assert events[i] == init[i];
      }
    }
  }

  // ---------------------------------------------------------------------
  // XP summaries
  // ---------------------------------------------------------------------

  /**
   * The day of a summary: epoch seconds, or a `YYYY/MM/DD` text read as UTC
   * midnight; any other `date` skips the summary.
   */
  function SummaryKey(env: Env, d: SummaryDate): Option<string>
  {
    match d
    case EpochSeconds(n) => Some(DateKey(env, Some(n * 1000)))
    case DateText(s) => Some(DateKey(env, ParsedTime(env, ReplaceAll(s, '/', '-') + "T00:00:00Z")))
    case OtherDate => None
  }

  /** `gainedXp ?? gained_xp ?? 0`. */
  function SummaryXp(s: XpSummary): int
  {
    s.gainedXp.GetOr(s.gained_xp.GetOr(0))
  }

  /** `totalSessionTime ?? total_session_time ?? 0`, in seconds. */
  function SessionSeconds(s: XpSummary): int
  {
    s.totalSessionTime.GetOr(s.total_session_time.GetOr(0))
  }

  /**
   * The session time rounded to minutes when that is positive (from 30
   * seconds on), else a third of the XP, rounded up.
   */
  function SummaryMinutes(s: XpSummary): (m: int)
    ensures SessionSeconds(s) >= 30 ==> m > 0 && 60 * m - 30 <= SessionSeconds(s) < 60 * m + 30
    ensures SessionSeconds(s) < 30 ==> 3 * m - 3 < SummaryXp(s) <= 3 * m
  {
    var minutes := RoundDiv60(SessionSeconds(s));
    if minutes > 0 then minutes else CeilDiv3(SummaryXp(s))
  }

  function PutSummary(env: Env, t: Totals, s: XpSummary): Totals
  {
    match SummaryKey(env, s.date)
    case None => t
    case Some(k) => Put(t, k, SummaryXp(s), SummaryMinutes(s))
  }

  /** The `for (const summary of _xpSummaries)` loop. */
  function SummaryTotals(env: Env, t: Totals, ss: seq<XpSummary>): (r: Totals)
    ensures WellFormed(t) ==> WellFormed(r)
  {
    if ss == [] then t else PutSummary(env, SummaryTotals(env, t, ss[..|ss| - 1]), ss[|ss| - 1])
  }

  /** Summaries overwrite: a day holds the XP and minutes of the last summary for it. */
  lemma {:induction false} LastSummaryWins(env: Env, t: Totals, ss: seq<XpSummary>, i: nat, k: string)
    requires i < |ss| && SummaryKey(env, ss[i].date) == Some(k)
    requires forall j :: i < j < |ss| ==> SummaryKey(env, ss[j].date) != Some(k)
    ensures var r := SummaryTotals(env, t, ss);
      k in r.xp && r.xp[k] == SummaryXp(ss[i]) && k in r.time && r.time[k] == SummaryMinutes(ss[i])
  {
    var init := ss[..|ss| - 1];
    if i < |init| {
      assert SummaryKey(env, ss[|ss| - 1].date) != Some(k);
      forall j | i < j < |init| ensures SummaryKey(env, init[j].date) != Some(k) {
        assert init[j] == ss[j];
      }
      assert init[i] == ss[i];
      LastSummaryWins(env, t, init, i, k);
    }
  }

  /** A day that no summary names keeps what it had. */
  lemma {:induction false} UnnamedDayKept(env: Env, t: Totals, ss: seq<XpSummary>, k: string)
    requires forall i :: 0 <= i < |ss| ==> SummaryKey(env, ss[i].date) != Some(k)
    ensures var r := SummaryTotals(env, t, ss);
      Lookup(r.xp, k) == Lookup(t.xp, k) && Lookup(r.time, k) == Lookup(t.time, k)
  {
    if ss != [] {
      var init := ss[..|ss| - 1];
      forall i | 0 <= i < |init| ensures SummaryKey(env, init[i].date) != Some(k) {
        assert init[i] == ss[i];
      }
      UnnamedDayKept(env, t, init, k);
    }
  }

  // ---------------------------------------------------------------------
  // The history
  // ---------------------------------------------------------------------

  /** Every language's calendar, one language after another. */
  function LanguageTotals(env: Env, t: Totals, values: seq<LanguageDetail>): (r: Totals)
    ensures WellFormed(t) ==> WellFormed(r)
  {
    if values == [] then t
    else
      var prev := LanguageTotals(env, t, values[..|values| - 1]);
      var cal := values[|values| - 1].calendar;
      if cal.Some? && |cal.value| > 0 then CalendarTotals(env, prev, cal.value) else prev
  }

  /** The totals: the summaries if any, else the calendar if any, else the per-language calendars. */
  function HistoryTotals(env: Env, raw: RawUser): (r: Totals)
    ensures WellFormed(r)
  {
    if raw.xpSummaries.Some? && |raw.xpSummaries.value| > 0 then SummaryTotals(env, NoTotals, raw.xpSummaries.value)
    else if raw.calendar.Some? && |raw.calendar.value| > 0 then CalendarTotals(env, NoTotals, raw.calendar.value)
    else if raw.language_data.Some? then LanguageTotals(env, NoTotals, LanguageValues(raw.language_data.value))
    else NoTotals
  }

  /** The totals, filled as the source fills them. */
  method BuildHistory(env: Env, raw: RawUser) returns (t: Totals)
    ensures t == HistoryTotals(env, raw)
  {
    t := NoTotals;
    if raw.xpSummaries.Some? && |raw.xpSummaries.value| > 0 {
      var ss := raw.xpSummaries.value;
      for i := 0 to |ss|
        invariant t == SummaryTotals(env, NoTotals, ss[..i])
      {
        assert ss[..i + 1][..i] == ss[..i];
        match SummaryKey(env, ss[i].date)
        case None =>
        case Some(k) =>
          t := Put(t, k, SummaryXp(ss[i]), SummaryMinutes(ss[i]));
      }
      assert ss[..|ss|] == ss;
    } else if raw.calendar.Some? && |raw.calendar.value| > 0 {
      t := AddEvents(env, t, raw.calendar.value);
    } else if raw.language_data.Some? {
      var values := LanguageValues(raw.language_data.value);
      for i := 0 to |values|
        invariant t == LanguageTotals(env, NoTotals, values[..i])
      {
        assert values[..i + 1][..i] == values[..i];
        var cal := values[i].calendar;
        if cal.Some? && |cal.value| > 0 {
          t := AddEvents(env, t, cal.value);
        }
      }
      assert values[..|values|] == values;
    }
  }

  /** `events.forEach(addCalendarEvent)`. */
  method AddEvents(env: Env, t0: Totals, events: seq<CalendarEvent>) returns (t: Totals)
    ensures t == CalendarTotals(env, t0, events)
  {
    t := t0;
    for i := 0 to |events|
      invariant t == CalendarTotals(env, t0, events[..i])
    {
      assert events[..i + 1][..i] == events[..i];
      t := AddEvent(env, t, events[i]);
    }
    assert events[..|events|] == events;
  }

  /**
   * With a calendar and no summaries, each day's XP is the sum of that
   * day's events, its time the sum of their minutes, and the days with a
   * key are exactly the days of the events.
   */
  lemma CalendarHistoryIsSum(env: Env, raw: RawUser, k: string)
    requires raw.xpSummaries.None? || |raw.xpSummaries.value| == 0
    requires raw.calendar.Some? && |raw.calendar.value| > 0
    ensures var r := HistoryTotals(env, raw);
      && Get(r.xp, k) == XpOn(env, raw.calendar.value, k)
      && Get(r.time, k) == MinutesOn(env, raw.calendar.value, k)
      && (k in r.xp <==> exists i :: 0 <= i < |raw.calendar.value| && EventKey(env, raw.calendar.value[i]) == k)
  {
    CalendarXpAddsUp(env, NoTotals, raw.calendar.value, k);
    CalendarMinutesAddUp(env, NoTotals, raw.calendar.value, k);
    CalendarKeys(env, NoTotals, raw.calendar.value, k);
  }

  // ---------------------------------------------------------------------
  // Views
  // ---------------------------------------------------------------------

  /** The key of the day `i` days before today. */
  function DayKey(env: Env, i: nat): string
  {
    DateKey(env, Some(env.daysAgo(i)))
  }

  /**
   * The seven-day XP window, oldest first: entry `j` is the day `6 - j` days
   * ago, with the XP recorded for it, or 0.
   */
  function XpWindow(env: Env, t: Totals): (r: seq<DayXp>)
    ensures |r| == 7
    ensures forall j :: 0 <= j < 7 ==> r[j] == DayXp(env.dayLabel(env.daysAgo(6 - j)), Get(t.xp, DayKey(env, 6 - j)))
  {
    seq(7, j requires 0 <= j < 7 => DayXp(env.dayLabel(env.daysAgo(6 - j)), Get(t.xp, DayKey(env, 6 - j))))
  }

  /** The seven-day time window, alongside the XP window. */
  function TimeWindow(env: Env, t: Totals): (r: seq<DayTime>)
    ensures |r| == 7
    ensures forall j :: 0 <= j < 7 ==> r[j] == DayTime(env.dayLabel(env.daysAgo(6 - j)), Get(t.time, DayKey(env, 6 - j)))
  {
    seq(7, j requires 0 <= j < 7 => DayTime(env.dayLabel(env.daysAgo(6 - j)), Get(t.time, DayKey(env, 6 - j))))
  }

  /** The `for (let i = 6; i >= 0; i--)` loop. */
  method Window(env: Env, t: Totals) returns (xpDays: seq<DayXp>, timeDays: seq<DayTime>)
    ensures xpDays == XpWindow(env, t) && timeDays == TimeWindow(env, t)
  {
    xpDays, timeDays := [], [];
    var i := 6;
    while i >= 0
      invariant -1 <= i <= 6 && |xpDays| == 6 - i && |timeDays| == 6 - i
      invariant forall j :: 0 <= j < 6 - i ==> xpDays[j] == XpWindow(env, t)[j]
      invariant forall j :: 0 <= j < 6 - i ==> timeDays[j] == TimeWindow(env, t)[j]
    {
      var d := env.daysAgo(i);
      var key := DateKey(env, Some(d));
      var dayLabel := env.dayLabel(d);
      xpDays := xpDays + [DayXp(dayLabel, Get(t.xp, key))];
      timeDays := timeDays + [DayTime(dayLabel, Get(t.time, key))];
      i := i - 1;
    }
  }

  /** `yearlyXpHistory`: one entry per day with a key, in key order. */
  function YearlyOf(t: Totals): (r: seq<YearEntry>)
    ensures |r| == |t.order|
    ensures forall i :: 0 <= i < |r| ==> r[i].date == t.order[i]
  {
    seq(|t.order|, i requires 0 <= i < |t.order| => YearEntry(t.order[i], Get(t.xp, t.order[i]), Lookup(t.time, t.order[i])))
  }

  /** The `xpByDate.forEach` loop. */
  method Yearly(t: Totals) returns (ys: seq<YearEntry>)
    ensures ys == YearlyOf(t)
  {
    ys := [];
    for i := 0 to |t.order|
      invariant ys == YearlyOf(t)[..i]
    {
      var k := t.order[i];
      ys := ys + [YearEntry(k, Get(t.xp, k), Lookup(t.time, k))];
    }
  }

  /**
   * On well-formed totals the yearly list names every day with a key exactly
   * once, with its XP and, always present, its minutes.
   */
  lemma YearlyListsEachDayOnce(t: Totals)
    requires WellFormed(t)
    ensures var ys := YearlyOf(t);
      && (forall k :: k in t.xp <==> exists i :: 0 <= i < |ys| && ys[i].date == k)
      && (forall i, j :: 0 <= i < j < |ys| ==> ys[i].date != ys[j].date)
      && (forall i :: 0 <= i < |ys| ==>
            (ys[i].date in t.xp && ys[i].xp == t.xp[ys[i].date] && ys[i].time == Some(t.time[ys[i].date])))
  {
    var ys := YearlyOf(t);
    forall k | k in t.xp ensures exists i :: 0 <= i < |ys| && ys[i].date == k {
      var i :| 0 <= i < |t.order| && t.order[i] == k;
      assert ys[i].date == k;
    }
  }
}
