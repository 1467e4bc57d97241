/**
 * The data API route (src/pages/api/data.ts): the V1/V2 merge, the user-id
 * lookup, the sanitizer that strips private fields, and the five-minute
 * response cache.
 *
 * Upstream payloads are JSON values; a failed fetch is `JNull`, as
 * `fetchWithTimeout` returns `null`. The clock readings and the fetch results
 * are parameters.
 */
module DataApi {
  import opened Wrappers
  import opened Text

  /** A parsed JSON value (numbers are integers). */
  datatype Json =
    | JNull
    | JBool(b: bool)
    | JNum(n: int)
    | JStr(s: string)
    | JArr(items: seq<Json>)
    | JObj(fields: map<string, Json>)

  /** JavaScript truthiness of a JSON value. */
  predicate Truthy(j: Json)
  {
    match j
    case JNull => false
    case JBool(b) => b
    case JNum(n) => n != 0
    case JStr(s) => s != ""
    case _ => true
  }

  /** Truthiness of a value that may be `undefined` (`None`). */
  predicate TruthyOpt(o: Option<Json>)
  {
    o.Some? && Truthy(o.value)
  }

  /** `j?.key`: only objects have named properties. */
  function Field(j: Json, key: string): (r: Option<Json>)
    ensures r.Some? <==> j.JObj? && key in j.fields
  {
    if j.JObj? && key in j.fields then Some(j.fields[key]) else None
  }

  /** `m[key]` on a record. */
  function Lookup(m: map<string, Json>, key: string): (r: Option<Json>)
    ensures r.Some? <==> key in m
  {
    if key in m then Some(m[key]) else None
  }

  /** `a || b`. */
  function Or(a: Option<Json>, b: Option<Json>): (r: Option<Json>)
    ensures TruthyOpt(a) ==> r == a
    ensures !TruthyOpt(a) ==> r == b
  {
    if TruthyOpt(a) then a else b
  }

  // ---------------------------------------------------------------------
  // sanitizeUserData
  // ---------------------------------------------------------------------

  /** The fields deleted from every response, in the order of the source. */
  const SensitiveFieldList: seq<string> := [
    "email", "phone", "googleId", "facebookId", "appleId", "twitterId",
    "username", "name", "fullname", "bio", "location", "profileCountry",
    "timezone", "betaStatus", "inviteURL", "privacySettings",
    "notificationSettings", "emailVerified", "hasPhoneNumber",
    "trackingProperties", "acquisitionSurveyReason", "canUseModerationTools",
    "hasObserver", "observedBy", "blockerUserIds", "blockedUserIds",
    "id", "user_id", "learnerContext", "picture", "avatar"
  ]

  const SensitiveFields: set<string> := {
    "email", "phone", "googleId", "facebookId", "appleId", "twitterId",
    "username", "name", "fullname", "bio", "location", "profileCountry",
    "timezone", "betaStatus", "inviteURL", "privacySettings",
    "notificationSettings", "emailVerified", "hasPhoneNumber",
    "trackingProperties", "acquisitionSurveyReason", "canUseModerationTools",
    "hasObserver", "observedBy", "blockerUserIds", "blockedUserIds",
    "id", "user_id", "learnerContext", "picture", "avatar"
  }

  /** The list holds exactly the set's fields. */
  lemma SensitiveFieldListIsSet()
    ensures (set f | f in SensitiveFieldList) == SensitiveFields
  {
  }

  /** The keys the sanitizer may write. */
  const RewrittenFields: set<string> := {
    "tier", "total_session_time", "gems", "numSessionsCompleted", "streakFreezeCount",
    "weeklyXp", "monthlyXp", "points_ranking_data"
  }

  /** `m[key] = v` when `v` is defined. */
  function SetIfDefined(m: map<string, Json>, key: string, v: Option<Json>): (r: map<string, Json>)
    ensures v.Some? ==> r == m[key := v.value]
    ensures v.None? ==> r == m
  {
    if v.Some? then m[key := v.value] else m
  }

  /** The truthy `trackingProperties` of the record, or `JNull` when it has none. */
  function Tracking(raw: map<string, Json>): Json
  {
    if "trackingProperties" in raw && Truthy(raw["trackingProperties"]) then raw["trackingProperties"] else JNull
  }

  /** The record after the promotions from `trackingProperties` and the `weeklyXp`/`monthlyXp` copies. */
  function Promoted(raw: map<string, Json>): map<string, Json>
  {
    var s6 := SetIfDefined(PromotedTracking(raw, Tracking(raw)), "weeklyXp", Lookup(raw, "weeklyXp"));
    SetIfDefined(s6, "monthlyXp", Lookup(raw, "monthlyXp"))
  }

  /** The promotions from the tracking properties `tp`, in the order the source applies them. */
  function PromotedTracking(raw: map<string, Json>, tp: Json): map<string, Json>
  {
    var s1 := SetIfDefined(raw, "tier", Field(tp, "leaderboard_league"));
    var s2 := SetIfDefined(s1, "total_session_time", Field(tp, "total_session_time"));
    var s3 := if Field(tp, "gems").Some? && !TruthyOpt(Lookup(s2, "gems")) then s2["gems" := Field(tp, "gems").value] else s2;
    var s4 := SetIfDefined(s3, "numSessionsCompleted", Field(tp, "num_sessions_completed"));
    SetIfDefined(s4, "streakFreezeCount", Field(tp, "num_item_streak_freeze"))
  }

  /** The anonymised entry `i` of the friends ranking. */
  function FriendEntry(i: nat, friend: Json): (r: Json)
    ensures r.JObj? && Field(r, "points_data") == Field(friend, "points_data")
    ensures Field(r, "rank") == Some(JNum(i + 1))
    ensures Field(r, "display_name") == Some(JStr(DisplayName(i)))
  {
    var m := map["display_name" := JStr(DisplayName(i)), "rank" := JNum(i + 1)];
    JObj(SetIfDefined(m, "points_data", Field(friend, "points_data")))
  }

  /** "你" for the first entry, "用户 n" for the n-th otherwise. */
  function DisplayName(i: nat): string
  {
    if i == 0 then "你" else "用户 " + NatToString(i + 1)
  }

  /** `ranking.map(...)`: fails (a `TypeError`) on a `null` entry, whose `points_data` cannot be read. */
  function RankedFriends(items: seq<Json>): (r: Option<seq<Json>>)
    ensures r.None? <==> JNull in items
    ensures r.Some? ==> |r.value| == |items| && forall i :: 0 <= i < |items| ==> r.value[i] == FriendEntry(i, items[i])
  {
    if JNull in items then None else Some(seq(|items|, i requires 0 <= i < |items| => FriendEntry(i, items[i])))
  }

  /**
   * `sanitizeUserData(raw)`: the promoted record without the sensitive
   * fields, with the ranking anonymised; `None` when the ranking is truthy
   * but not an array, or holds a `null` (the `TypeError` the route reports
   * as a 500).
   */
  function Sanitized(raw: map<string, Json>): Option<map<string, Json>>
  {
    var s := Promoted(raw) - SensitiveFields;
    if !TruthyOpt(Lookup(s, "points_ranking_data")) then Some(s)
    else match s["points_ranking_data"]
      case JArr(items) =>
        (match RankedFriends(items)
         case Some(friends) => Some(s["points_ranking_data" := JArr(friends)])
         case None => None)
      case _ => None
  }

  /** Deleting the fields of `fs` one after the other. */
  ghost function DeleteAll(m: map<string, Json>, fs: seq<string>): map<string, Json>
  {
    if fs == [] then m else DeleteAll(m, fs[..|fs| - 1]) - {fs[|fs| - 1]}
  }

  /** Deleting one by one removes exactly the listed keys. */
  lemma {:induction false} DeleteAllIs(m: map<string, Json>, fs: seq<string>)
    ensures DeleteAll(m, fs) == m - (set f | f in fs)
  {
    if fs != [] {
      var init := fs[..|fs| - 1];
      DeleteAllIs(m, init);
      assert (set f | f in fs) == (set f | f in init) + {fs[|fs| - 1]} by {
        assert fs == init + [fs[|fs| - 1]];
      }
    }
  }

  /** The sanitizer: copy, promote, delete, then anonymise the ranking, as the source does. */
  method Sanitize(raw: map<string, Json>) returns (r: Option<map<string, Json>>)
    ensures r == Sanitized(raw)
  {
    var sanitized := Promote(raw);
    sanitized := DeleteSensitive(sanitized);
    if "points_ranking_data" in sanitized && Truthy(sanitized["points_ranking_data"]) {
      var ranking := sanitized["points_ranking_data"];
      if !ranking.JArr? {
        return None;
      }
      var friends := RankFriends(ranking.items);
      if friends.None? {
        return None;
      }
      sanitized := sanitized["points_ranking_data" := JArr(friends.value)];
    }
    return Some(sanitized);
  }

  /** The copy and the conditional assignments. */
  method Promote(raw: map<string, Json>) returns (sanitized: map<string, Json>)
    ensures sanitized == Promoted(raw)
  {
    sanitized := raw;
    if "trackingProperties" in raw && Truthy(raw["trackingProperties"]) {
      var tp := raw["trackingProperties"];
      if Field(tp, "leaderboard_league").Some? {
        sanitized := sanitized["tier" := Field(tp, "leaderboard_league").value];
      }
      assert sanitized == SetIfDefined(raw, "tier", Field(tp, "leaderboard_league"));
      if Field(tp, "total_session_time").Some? {
        sanitized := sanitized["total_session_time" := Field(tp, "total_session_time").value];
      }
      ghost var s2 := sanitized;
      if Field(tp, "gems").Some? && !TruthyOpt(Lookup(sanitized, "gems")) {
        sanitized := sanitized["gems" := Field(tp, "gems").value];
      }
      assert sanitized == if Field(tp, "gems").Some? && !TruthyOpt(Lookup(s2, "gems")) then s2["gems" := Field(tp, "gems").value] else s2;
      if Field(tp, "num_sessions_completed").Some? {
        sanitized := sanitized["numSessionsCompleted" := Field(tp, "num_sessions_completed").value];
      }
      if Field(tp, "num_item_streak_freeze").Some? {
        sanitized := sanitized["streakFreezeCount" := Field(tp, "num_item_streak_freeze").value];
      }
      assert sanitized == PromotedTracking(raw, tp);
    } else {
      PromotedWithoutTracking(raw);
    }
    assert sanitized == PromotedTracking(raw, Tracking(raw));
    if "weeklyXp" in raw {
      sanitized := sanitized["weeklyXp" := raw["weeklyXp"]];
    }
    if "monthlyXp" in raw {
      sanitized := sanitized["monthlyXp" := raw["monthlyXp"]];
    }
  }

  /** `sensitiveFields.forEach((field) => delete sanitized[field])`. */
  method DeleteSensitive(m: map<string, Json>) returns (s: map<string, Json>)
    ensures s == m - SensitiveFields
  {
    s := m;
    for i := 0 to |SensitiveFieldList|
      invariant s == DeleteAll(m, SensitiveFieldList[..i])
    {
      assert SensitiveFieldList[..i + 1][..i] == SensitiveFieldList[..i];
      s := s - {SensitiveFieldList[i]};
    }
    assert SensitiveFieldList[..|SensitiveFieldList|] == SensitiveFieldList;
    DeleteAllIs(m, SensitiveFieldList);
    SensitiveFieldListIsSet();
  }

  /** The `map` over the ranking, stopping at the first `null` entry. */
  method RankFriends(items: seq<Json>) returns (r: Option<seq<Json>>)
    ensures r == RankedFriends(items)
  {
    var friends: seq<Json> := [];
    for i := 0 to |items|
      invariant |friends| == i
      invariant forall j :: 0 <= j < i ==> friends[j] == FriendEntry(j, items[j])
      invariant JNull !in items[..i]
    {
      if items[i] == JNull {
        assert JNull in items;
        return None;
      }
      assert items[..i + 1] == items[..i] + [items[i]];
      friends := friends + [FriendEntry(i, items[i])];
    }
    assert items[..|items|] == items;
    assert friends == RankedFriends(items).value;
    return Some(friends);
  }

  /** No sensitive field survives, `trackingProperties`, `id`, `user_id` and `username` included. */
  lemma SanitizedHasNoSensitiveFields(raw: map<string, Json>)
    ensures Sanitized(raw).Some? ==> forall k :: k in SensitiveFields ==> k !in Sanitized(raw).value
    ensures Sanitized(raw).Some? ==>
      ("trackingProperties" !in Sanitized(raw).value && "id" !in Sanitized(raw).value
       && "user_id" !in Sanitized(raw).value && "username" !in Sanitized(raw).value)
  {
    assert "trackingProperties" in SensitiveFields && "id" in SensitiveFields;
    assert "user_id" in SensitiveFields && "username" in SensitiveFields;
  }

  /** A field neither sensitive nor rewritten is copied unchanged. */
  lemma SanitizedKeepsOtherFields(raw: map<string, Json>, k: string)
    requires k in raw && k !in SensitiveFields && k !in RewrittenFields
    ensures Sanitized(raw).Some? ==> k in Sanitized(raw).value && Sanitized(raw).value[k] == raw[k]
  {
  }

  /** `weeklyXp` and `monthlyXp` keep their values: the copies change nothing. */
  lemma SanitizedKeepsWeeklyMonthly(raw: map<string, Json>)
    ensures Sanitized(raw).Some? && "weeklyXp" in raw ==> Lookup(Sanitized(raw).value, "weeklyXp") == Some(raw["weeklyXp"])
    ensures Sanitized(raw).Some? && "monthlyXp" in raw ==> Lookup(Sanitized(raw).value, "monthlyXp") == Some(raw["monthlyXp"])
  {
    assert "weeklyXp" !in SensitiveFields && "monthlyXp" !in SensitiveFields;
  }

  /**
   * `tier` is the league from `trackingProperties` whenever that is defined,
   * and otherwise the record's own `tier`.
   */
  lemma SanitizedTier(raw: map<string, Json>)
    requires Sanitized(raw).Some?
    ensures Field(Tracking(raw), "leaderboard_league").Some? ==>
      Lookup(Sanitized(raw).value, "tier") == Field(Tracking(raw), "leaderboard_league")
    ensures Field(Tracking(raw), "leaderboard_league").None? ==>
      Lookup(Sanitized(raw).value, "tier") == Lookup(raw, "tier")
  {
    PromotedKeepsFirst(raw);
    assert "tier" !in SensitiveFields;
    assert "tier" != "points_ranking_data";
  }

  /** Without tracking properties nothing is promoted from them. */
  lemma PromotedWithoutTracking(raw: map<string, Json>)
    requires !("trackingProperties" in raw && Truthy(raw["trackingProperties"]))
    ensures PromotedTracking(raw, Tracking(raw)) == raw
  {
    assert Tracking(raw) == JNull;
  }

  /** The later promotions never touch `tier`. */
  lemma PromotedKeepsFirst(raw: map<string, Json>)
    ensures Lookup(Promoted(raw), "tier") == Lookup(SetIfDefined(raw, "tier", Field(Tracking(raw), "leaderboard_league")), "tier")
  {
    var tp := Tracking(raw);
    var s1 := SetIfDefined(raw, "tier", Field(tp, "leaderboard_league"));
    var s2 := SetIfDefined(s1, "total_session_time", Field(tp, "total_session_time"));
    var s3 := if Field(tp, "gems").Some? && !TruthyOpt(Lookup(s2, "gems")) then s2["gems" := Field(tp, "gems").value] else s2;
    var s4 := SetIfDefined(s3, "numSessionsCompleted", Field(tp, "num_sessions_completed"));
    var s5 := SetIfDefined(s4, "streakFreezeCount", Field(tp, "num_item_streak_freeze"));
    assert PromotedTracking(raw, tp) == s5;
    var s6 := SetIfDefined(s5, "weeklyXp", Lookup(raw, "weeklyXp"));
    assert Promoted(raw) == SetIfDefined(s6, "monthlyXp", Lookup(raw, "monthlyXp"));
    assert "tier" != "total_session_time" && "tier" != "gems" && "tier" != "numSessionsCompleted";
    assert "tier" != "streakFreezeCount" && "tier" != "weeklyXp" && "tier" != "monthlyXp";
  }

  /** A truthy `gems` of the record wins; otherwise the one from `trackingProperties`, when defined. */
  lemma SanitizedGems(raw: map<string, Json>)
    requires Sanitized(raw).Some?
    ensures TruthyOpt(Lookup(raw, "gems")) ==> Lookup(Sanitized(raw).value, "gems") == Lookup(raw, "gems")
    ensures !TruthyOpt(Lookup(raw, "gems")) && Field(Tracking(raw), "gems").Some? ==>
      Lookup(Sanitized(raw).value, "gems") == Field(Tracking(raw), "gems")
    ensures Field(Tracking(raw), "gems").None? ==> Lookup(Sanitized(raw).value, "gems") == Lookup(raw, "gems")
  {
    PromotedGems(raw);
    SanitizedKeepsPromoted(raw, "gems");
  }

  /** The `gems` promotion reads the record's own `gems`, which the earlier promotions leave alone. */
  lemma PromotedGems(raw: map<string, Json>)
    ensures var g := Field(Tracking(raw), "gems");
      Lookup(Promoted(raw), "gems") == if g.Some? && !TruthyOpt(Lookup(raw, "gems")) then g else Lookup(raw, "gems")
  {
    var tp := Tracking(raw);
    var s1 := SetIfDefined(raw, "tier", Field(tp, "leaderboard_league"));
    var s2 := SetIfDefined(s1, "total_session_time", Field(tp, "total_session_time"));
    assert Lookup(s2, "gems") == Lookup(raw, "gems");
    var s3 := if Field(tp, "gems").Some? && !TruthyOpt(Lookup(s2, "gems")) then s2["gems" := Field(tp, "gems").value] else s2;
    var s4 := SetIfDefined(s3, "numSessionsCompleted", Field(tp, "num_sessions_completed"));
    var s5 := SetIfDefined(s4, "streakFreezeCount", Field(tp, "num_item_streak_freeze"));
    assert PromotedTracking(raw, tp) == s5;
    assert Lookup(s5, "gems") == Lookup(s3, "gems");
  }

  /** A field that is neither sensitive nor the ranking leaves sanitizing as promotion left it. */
  lemma SanitizedKeepsPromoted(raw: map<string, Json>, k: string)
    requires Sanitized(raw).Some?
    requires k !in SensitiveFields && k != "points_ranking_data"
    ensures Lookup(Sanitized(raw).value, k) == Lookup(Promoted(raw), k)
  {
  }

  /**
   * The ranking fails the sanitizer iff it is truthy and not an array of
   * non-null entries; otherwise an array keeps its length and entry `i` gets
   * rank `i + 1`, the anonymous name and only its `points_data`.
   */
  lemma SanitizedRanking(raw: map<string, Json>)
    ensures var p := Lookup(Promoted(raw), "points_ranking_data");
      Sanitized(raw).None? <==> TruthyOpt(p) && (!p.value.JArr? || JNull in p.value.items)
    ensures var p := Lookup(Promoted(raw), "points_ranking_data");
      p.Some? && p.value.JArr? && Sanitized(raw).Some? ==>
        var q := Lookup(Sanitized(raw).value, "points_ranking_data");
        && q.Some? && q.value.JArr? && |q.value.items| == |p.value.items|
        && forall i :: 0 <= i < |p.value.items| ==>
             && Field(q.value.items[i], "rank") == Some(JNum(i + 1))
             && Field(q.value.items[i], "display_name") == Some(JStr(DisplayName(i)))
             && Field(q.value.items[i], "points_data") == Field(p.value.items[i], "points_data")
  {
    assert "points_ranking_data" !in SensitiveFields;
  }

  /** A sanitized record has nothing left to promote or delete, and its ranking is rebuilt identically. */
  lemma SanitizedIdempotent(raw: map<string, Json>)
    requires Sanitized(raw).Some?
    ensures Sanitized(Sanitized(raw).value) == Sanitized(raw)
  {
    var s := Sanitized(raw).value;
    SanitizedHasNoSensitiveFields(raw);
    assert Tracking(s) == JNull;
    assert Promoted(s) == s;
    assert s - SensitiveFields == s;
    var p := Promoted(raw) - SensitiveFields;
    if TruthyOpt(Lookup(p, "points_ranking_data")) {
      var friends := RankedFriends(p["points_ranking_data"].items).value;
      assert s == p["points_ranking_data" := JArr(friends)];
      forall i | 0 <= i < |friends| ensures friends[i] == FriendEntry(i, friends[i]) {
        FriendEntryStable(i, p["points_ranking_data"].items[i]);
      }
      FriendEntriesStable(friends);
      assert s["points_ranking_data" := JArr(friends)] == s;
    } else {
      assert s == p;
    }
  }

  lemma FriendEntryStable(i: nat, friend: Json)
    ensures FriendEntry(i, FriendEntry(i, friend)) == FriendEntry(i, friend)
  {
  }

  /** Re-ranking already anonymised entries changes nothing. */
  lemma FriendEntriesStable(items: seq<Json>)
    requires forall i :: 0 <= i < |items| ==> items[i] == FriendEntry(i, items[i])
    ensures RankedFriends(items) == Some(items)
  {
    forall i | 0 <= i < |items| ensures items[i] != JNull {
      assert items[i].JObj?;
    }
    assert RankedFriends(items).value == items;
  }

  // ---------------------------------------------------------------------
  // The route: cache, merge and response
  // ---------------------------------------------------------------------

  /** `CACHE_TTL`, five minutes in milliseconds. */
  const CacheTtl: int := 5 * 60 * 1000

  datatype CacheEntry = CacheEntry(data: map<string, Json>, timestamp: int)

  /** `cached && Date.now() - cached.timestamp < CACHE_TTL`. */
  predicate Serves(cache: map<string, CacheEntry>, key: string, now: int)
  {
    key in cache && now - cache[key].timestamp < CacheTtl
  }

  /** An entry stored at `t` is served exactly while less than five minutes have passed. */
  lemma StoredServedWithinTtl(cache: map<string, CacheEntry>, key: string, data: map<string, Json>, t: int, now: int)
    ensures Serves(cache[key := CacheEntry(data, t)], key, now) <==> now < t + CacheTtl
    ensures now >= t + 5 * 60 * 1000 ==> !Serves(cache[key := CacheEntry(data, t)], key, now)
  {
  }

  /** `v2Raw?.users?.[0] || v2Raw`. */
  function V2Data(v2Raw: Json): (r: Json)
    ensures r == v2Raw || Some(r) == Index0(Field(v2Raw, "users"))
    ensures TruthyOpt(Index0(Field(v2Raw, "users"))) ==> r == Index0(Field(v2Raw, "users")).value
    ensures !TruthyOpt(Index0(Field(v2Raw, "users"))) ==> r == v2Raw
    ensures !Truthy(v2Raw) ==> r == v2Raw
  {
    var first := Index0(Field(v2Raw, "users"));
    if TruthyOpt(first) then first.value else v2Raw
  }

  /** `x?.[0]`: an array's first item, a string's first character, an object's `"0"` property. */
  function Index0(x: Option<Json>): Option<Json>
  {
    match x
    case Some(JArr(items)) => if |items| > 0 then Some(items[0]) else None
    case Some(JStr(s)) => if |s| > 0 then Some(JStr([s[0]])) else None
    case Some(JObj(f)) => Lookup(f, "0")
    case _ => None
  }

  /**
   * `userData`: the V2 record, else the V1 record, with the V1 `languages` and
   * `language_data` written over it when truthy, and the V2 `courses` when
   * truthy. `None` when the chosen record is not an object.
   */
  function Merged(v1: Json, v2: Json): Option<map<string, Json>>
  {
    var base := if Truthy(v2) then v2 else v1;
    if !base.JObj? then None
    else
      var u1 := if Truthy(v1) && TruthyOpt(Field(v1, "languages")) then base.fields["languages" := Field(v1, "languages").value] else base.fields;
      var u2 := if Truthy(v1) && TruthyOpt(Field(v1, "language_data")) then u1["language_data" := Field(v1, "language_data").value] else u1;
      Some(if Truthy(v2) && TruthyOpt(Field(v2, "courses")) then u2["courses" := Field(v2, "courses").value] else u2)
  }

  /**
   * Merge precedence: with a V2 record, every field is the V2 one except
   * `languages` and `language_data`, which the V1 record's truthy values
   * replace.
   */
  lemma MergePrecedence(v1: Json, v2: Json, k: string)
    requires v2.JObj?
    ensures Merged(v1, v2).Some?
    ensures k == "languages" || k == "language_data" ==>
      Lookup(Merged(v1, v2).value, k) == (if TruthyOpt(Field(v1, k)) then Field(v1, k) else Field(v2, k))
    ensures k != "languages" && k != "language_data" ==> Lookup(Merged(v1, v2).value, k) == Field(v2, k)
  {
  }

  /** Without a V2 record the V1 record is used unchanged. */
  lemma MergeFallsBackToV1(v1: Json, v2: Json)
    requires !Truthy(v2) && v1.JObj?
    ensures Merged(v1, v2) == Some(v1.fields)
  {
    var f := v1.fields;
    if TruthyOpt(Field(v1, "languages")) {
      assert f["languages" := f["languages"]] == f;
    }
    if TruthyOpt(Field(v1, "language_data")) {
      assert f["language_data" := f["language_data"]] == f;
    }
  }

  /** `userData.id || userData.user_id || userData.tracking_properties?.user_id`. */
  function UserId(u: map<string, Json>): (r: Option<Json>)
    ensures TruthyOpt(Lookup(u, "id")) ==> r == Lookup(u, "id")
    ensures !TruthyOpt(Lookup(u, "id")) && TruthyOpt(Lookup(u, "user_id")) ==> r == Lookup(u, "user_id")
    ensures !TruthyOpt(Lookup(u, "id")) && !TruthyOpt(Lookup(u, "user_id")) ==>
      r == (if "tracking_properties" in u then Field(u["tracking_properties"], "user_id") else None)
  {
    var tracking := if "tracking_properties" in u then Field(u["tracking_properties"], "user_id") else None;
    Or(Or(Lookup(u, "id"), Lookup(u, "user_id")), tracking)
  }

  /** The XP summaries and leaderboard history attached to the record when they were fetched. */
  function WithExtras(u: map<string, Json>, xpData: Json, history: Json): (r: map<string, Json>)
    ensures TruthyOpt(Field(xpData, "summaries")) ==> Lookup(r, "_xpSummaries") == Field(xpData, "summaries")
    ensures !TruthyOpt(Field(xpData, "summaries")) ==> Lookup(r, "_xpSummaries") == Lookup(u, "_xpSummaries")
    ensures Truthy(history) ==> Lookup(r, "_leaderboardHistory") == Some(history)
    ensures !Truthy(history) ==> Lookup(r, "_leaderboardHistory") == Lookup(u, "_leaderboardHistory")
    ensures forall k :: k != "_xpSummaries" && k != "_leaderboardHistory" ==> Lookup(r, k) == Lookup(u, k)
  {
    var u1 := if TruthyOpt(Field(xpData, "summaries")) then u["_xpSummaries" := Field(xpData, "summaries").value] else u;
    if Truthy(history) then u1["_leaderboardHistory" := history] else u1
  }

  /** The route's responses. */
  datatype Reply =
    | NotConfigured                          // 400
    | Cached(data: map<string, Json>)        // 200, served from the cache
    | FetchFailed                            // 500, neither record fetched
    | Failed                                 // 500, an exception was caught
    | Fresh(data: map<string, Json>)         // 200, fetched and sanitized

  function Status(r: Reply): (code: int)
    ensures code == 200 <==> r.Cached? || r.Fresh?
  {
    match r
    case NotConfigured => 400
    case Cached(_) => 200
    case FetchFailed => 500
    case Failed => 500
    case Fresh(_) => 200
  }

  /** What the fetch-and-sanitize part of `GET` yields. */
  datatype LoadResult = NoRecord | Thrown | Loaded(data: map<string, Json>)

  /**
   * Fetch-and-sanitize: `NoRecord` when neither record was fetched,
   * `Thrown` when the merge or the sanitizer throws, else the sanitized record.
   * `fetchExtras` gives the XP summaries and the leaderboard history of a user id.
   */
  function LoadUser(v1: Json, v2Raw: Json, fetchExtras: Json -> (Json, Json)): LoadResult
  {
    var v2 := V2Data(v2Raw);
    if !Truthy(v1) && !Truthy(v2) then NoRecord
    else match Merged(v1, v2)
      case None => Thrown
      case Some(u) =>
        match Sanitized(WithFetchedExtras(u, fetchExtras))
        case None => Thrown
        case Some(d) => Loaded(d)
  }

  /** The merged record with its extras attached when it has a truthy user id. */
  function WithFetchedExtras(u: map<string, Json>, fetchExtras: Json -> (Json, Json)): map<string, Json>
  {
    var id := UserId(u);
    if TruthyOpt(id) then WithExtras(u, fetchExtras(id.value).0, fetchExtras(id.value).1) else u
  }

  /** A loaded record never carries a sensitive field. */
  lemma LoadedIsSanitized(v1: Json, v2Raw: Json, fetchExtras: Json -> (Json, Json))
    ensures LoadUser(v1, v2Raw, fetchExtras).Loaded? ==>
      forall f :: f in SensitiveFields ==> f !in LoadUser(v1, v2Raw, fetchExtras).data
  {
    var v2 := V2Data(v2Raw);
    if LoadUser(v1, v2Raw, fetchExtras).Loaded? {
      SanitizedHasNoSensitiveFields(WithFetchedExtras(Merged(v1, v2).value, fetchExtras));
    }
  }

  /**
   * `GET`: its reply and the cache afterwards. `now` is the clock at the
   * cache check, `storedAt` at the cache write.
   */
  function Respond(cache: map<string, CacheEntry>, username: string, jwt: string, now: int,
                   v1: Json, v2Raw: Json, fetchExtras: Json -> (Json, Json), storedAt: int)
    : (Reply, map<string, CacheEntry>)
  {
    if username == "" || jwt == "" then (NotConfigured, cache)
    else
      var key := "user:" + username;
      if Serves(cache, key, now) then (Cached(cache[key].data), cache)
      else match LoadUser(v1, v2Raw, fetchExtras)
        case NoRecord => (FetchFailed, cache)
        case Thrown => (Failed, cache)
        case Loaded(d) => (Fresh(d), cache[key := CacheEntry(d, storedAt)])
  }

  /** Every cached record is free of sensitive fields. */
  ghost predicate CacheClean(cache: map<string, CacheEntry>)
  {
    forall k, f :: k in cache && f in SensitiveFields ==> f !in cache[k].data
  }

  /** Without a username or token nothing is read or written. */
  lemma UnconfiguredFirst(cache: map<string, CacheEntry>, username: string, jwt: string, now: int,
                          v1: Json, v2Raw: Json, fetchExtras: Json -> (Json, Json), storedAt: int)
    requires username == "" || jwt == ""
    ensures Respond(cache, username, jwt, now, v1, v2Raw, fetchExtras, storedAt) == (NotConfigured, cache)
  {
  }

  /**
   * A configured request is answered from the cache iff its entry is younger
   * than five minutes; the cache changes only on a fresh reply, and then only
   * at the user's key, with the reply's data.
   */
  lemma CacheDiscipline(cache: map<string, CacheEntry>, username: string, jwt: string, now: int,
                        v1: Json, v2Raw: Json, fetchExtras: Json -> (Json, Json), storedAt: int)
    requires username != "" && jwt != ""
    ensures var (reply, after) := Respond(cache, username, jwt, now, v1, v2Raw, fetchExtras, storedAt);
      && (reply.Cached? <==> Serves(cache, "user:" + username, now))
      && (reply.Cached? ==> reply.data == cache["user:" + username].data)
      && (!reply.Fresh? ==> after == cache)
      && (reply.Fresh? ==> after == cache["user:" + username := CacheEntry(reply.data, storedAt)])
  {
  }

  /** Replies never carry sensitive fields, and the cache stays clean. */
  lemma RepliesAreSanitized(cache: map<string, CacheEntry>, username: string, jwt: string, now: int,
                            v1: Json, v2Raw: Json, fetchExtras: Json -> (Json, Json), storedAt: int)
    requires CacheClean(cache)
    ensures var (reply, after) := Respond(cache, username, jwt, now, v1, v2Raw, fetchExtras, storedAt);
      && CacheClean(after)
      && ((reply.Cached? || reply.Fresh?) ==> forall f :: f in SensitiveFields ==> f !in reply.data)
  {
    LoadedIsSanitized(v1, v2Raw, fetchExtras);
  }

  /** The merge as the handler performs it, assigning into the chosen record. */
  method Merge(v1: Json, v2: Json) returns (r: Option<map<string, Json>>)
    ensures r == Merged(v1, v2)
  {
    var base := if Truthy(v2) then v2 else v1;
    if !base.JObj? {
      return None;
    }
    var userData := base.fields;
    if Truthy(v1) && TruthyOpt(Field(v1, "languages")) {
      userData := userData["languages" := Field(v1, "languages").value];
    }
    if Truthy(v1) && TruthyOpt(Field(v1, "language_data")) {
      userData := userData["language_data" := Field(v1, "language_data").value];
    }
    if Truthy(v2) && TruthyOpt(Field(v2, "courses")) {
      userData := userData["courses" := Field(v2, "courses").value];
    }
    return Some(userData);
  }

  /** Attaches the fetched XP summaries and leaderboard history. */
  method AttachExtras(u: map<string, Json>, xpData: Json, history: Json) returns (r: map<string, Json>)
    ensures r == WithExtras(u, xpData, history)
  {
    r := u;
    if TruthyOpt(Field(xpData, "summaries")) {
      r := r["_xpSummaries" := Field(xpData, "summaries").value];
    }
    if Truthy(history) {
      r := r["_leaderboardHistory" := history];
    }
  }

  /** Fetch-and-sanitize as the handler runs it. */
  method Load(v1: Json, v2Raw: Json, fetchExtras: Json -> (Json, Json)) returns (r: LoadResult)
    ensures r == LoadUser(v1, v2Raw, fetchExtras)
  {
    var v2 := V2Data(v2Raw);
    if !Truthy(v1) && !Truthy(v2) {
      return NoRecord;
    }
    var merged := Merge(v1, v2);
    if merged.None? {
      return Thrown;
    }
    var userData := merged.value;
    var userId := UserId(userData);
    if TruthyOpt(userId) {
      var (xpData, history) := fetchExtras(userId.value);
      userData := AttachExtras(userData, xpData, history);
    }
    assert userData == WithFetchedExtras(merged.value, fetchExtras);
    var sanitized := Sanitize(userData);
    if sanitized.None? {
      return Thrown;
    }
    return Loaded(sanitized.value);
  }

  /** The route with its module-level cache. */
  class DataRoute {
    var cache: map<string, CacheEntry>

    constructor()
      ensures cache == map[]
    {
      cache := map[];
    }

    /** `GET`, step by step as the handler runs. */
    method Get(username: string, jwt: string, now: int, v1: Json, v2Raw: Json,
               fetchExtras: Json -> (Json, Json), storedAt: int) returns (reply: Reply)
      modifies this
      ensures reply == Respond(old(cache), username, jwt, now, v1, v2Raw, fetchExtras, storedAt).0
      ensures cache == Respond(old(cache), username, jwt, now, v1, v2Raw, fetchExtras, storedAt).1
    {
      if username == "" || jwt == "" {
        return NotConfigured;
      }
      var key := "user:" + username;
      if Serves(cache, key, now) {
        return Cached(cache[key].data);
      }
      var loaded := Load(v1, v2Raw, fetchExtras);
      match loaded
      case NoRecord => return FetchFailed;
      case Thrown => return Failed;
      case Loaded(d) =>
        cache := cache[key := CacheEntry(d, storedAt)];
        return Fresh(d);
    }
  }
}
