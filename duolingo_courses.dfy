/**
 * The course list of the normalizer (src/services/duolingoService.ts): the
 * primary courses, the V1 languages appended unless already present, and the
 * `language_data` fallback; and the learning language.
 */
module DuolingoCourses {
  import opened Wrappers
  import opened Text
  import opened DuolingoTypes
  import opened DuolingoFields

  // ---------------------------------------------------------------------
  // Primary courses
  // ---------------------------------------------------------------------

  /** The filter on `courses`: some xp, or the course being learnt. */
  predicate KeepPrimary(c: RawCourse)
  {
    OrNum(c.xp, 0) > 0 || TruthyBool(c.current_learning)
  }

  function ToCourse(c: RawCourse): Course
  {
    Course(c.title, c.xp, c.fromLanguage, c.learningLanguage, OrNum(c.crowns, 0), c.id)
  }

  /** `courses.filter(...).map(...)`: the kept courses, converted, in their order. */
  function PrimaryCourses(cs: seq<RawCourse>): (r: seq<Course>)
    ensures |r| <= |cs|
  {
    if cs == [] then []
    else
      var init := PrimaryCourses(cs[..|cs| - 1]);
      var c := cs[|cs| - 1];
      if KeepPrimary(c) then init + [ToCourse(c)] else init
  }

  /** Every kept course is listed, converted, and nothing else is; with nothing filtered out the length is kept. */
  lemma {:induction false} PrimaryCoursesMembers(cs: seq<RawCourse>)
    ensures var r := PrimaryCourses(cs);
      && (forall i :: 0 <= i < |cs| && KeepPrimary(cs[i]) ==> ToCourse(cs[i]) in r)
      && (forall x :: x in r ==> exists i :: 0 <= i < |cs| && KeepPrimary(cs[i]) && ToCourse(cs[i]) == x)
      && ((forall i :: 0 <= i < |cs| ==> KeepPrimary(cs[i])) ==> |r| == |cs|)
  {
    if cs != [] {
      var init := cs[..|cs| - 1];
      PrimaryCoursesMembers(init);
      assert forall i :: 0 <= i < |init| ==> init[i] == cs[i];
    }
  }

  /** The filter and the map keep order: converting a concatenation converts each part in turn. */
  lemma {:induction false} PrimaryCoursesAppend(a: seq<RawCourse>, b: seq<RawCourse>)
    ensures PrimaryCourses(a + b) == PrimaryCourses(a) + PrimaryCourses(b)
  {
    if b == [] {
      assert a + b == a;
    } else {
      var init, c := b[..|b| - 1], b[|b| - 1];
      var tail := if KeepPrimary(c) then [ToCourse(c)] else [];
      assert b == init + [c];
      assert a + b == (a + init) + [c];
      calc {
        PrimaryCourses(a + b);
        { PrimaryCoursesSnoc(a + init, c); }
        PrimaryCourses(a + init) + tail;
        { PrimaryCoursesAppend(a, init); }
        (PrimaryCourses(a) + PrimaryCourses(init)) + tail;
        PrimaryCourses(a) + (PrimaryCourses(init) + tail);
        { PrimaryCoursesSnoc(init, c); }
        PrimaryCourses(a) + PrimaryCourses(b);
      }
    }
  }

  lemma PrimaryCoursesSnoc(s: seq<RawCourse>, c: RawCourse)
    ensures PrimaryCourses(s + [c]) == PrimaryCourses(s) + (if KeepPrimary(c) then [ToCourse(c)] else [])
  {
    assert (s + [c])[..|s|] == s;
  }

  /** A list the filter keeps nothing of converts to nothing. */
  lemma {:induction false} PrimaryCoursesNoneKept(cs: seq<RawCourse>)
    requires forall i :: 0 <= i < |cs| ==> !KeepPrimary(cs[i])
    ensures PrimaryCourses(cs) == []
  {
    if cs != [] {
      PrimaryCoursesNoneKept(cs[..|cs| - 1]);
    }
  }

  /** The first primary course is the conversion of the first course the filter keeps. */
  lemma PrimaryCoursesHead(cs: seq<RawCourse>, k: nat)
    requires k < |cs| && KeepPrimary(cs[k])
    requires forall i :: 0 <= i < k ==> !KeepPrimary(cs[i])
    ensures PrimaryCourses(cs) != [] && PrimaryCourses(cs)[0] == ToCourse(cs[k])
  {
    PrimaryCoursesNoneKept(cs[..k]);
    assert cs == cs[..k] + ([cs[k]] + cs[k + 1..]);
    PrimaryCoursesAppend(cs[..k], [cs[k]] + cs[k + 1..]);
    PrimaryCoursesAppend([cs[k]], cs[k + 1..]);
    assert PrimaryCourses([cs[k]]) == [ToCourse(cs[k])];
  }


  // ---------------------------------------------------------------------
  // V1 languages
  // ---------------------------------------------------------------------

  /** The filter on V1 languages: positive points, or the language being learnt. */
  predicate KeepLanguage(l: Language)
  {
    (l.points.Some? && l.points.value > 0) || TruthyBool(l.current_learning)
  }

  function LanguageCourse(l: Language): Course
  {
    Course(l.language_string, Some(OrNum(l.points, 0)), Some("en"), l.language, OrNum(l.crowns, 0), l.language)
  }

  /** The V1 courses, in order. */
  function V1Courses(ls: seq<Language>): (r: seq<Course>)
    ensures |r| <= |ls|
  {
    if ls == [] then []
    else
      var init := V1Courses(ls[..|ls| - 1]);
      var l := ls[|ls| - 1];
      if KeepLanguage(l) then init + [LanguageCourse(l)] else init
  }

  /** Every kept V1 language becomes a course, and nothing else does. */
  lemma {:induction false} V1CoursesMembers(ls: seq<Language>)
    ensures var r := V1Courses(ls);
      && (forall i :: 0 <= i < |ls| && KeepLanguage(ls[i]) ==> LanguageCourse(ls[i]) in r)
      && (forall x :: x in r ==> exists i :: 0 <= i < |ls| && KeepLanguage(ls[i]) && LanguageCourse(ls[i]) == x)
  {
    if ls != [] {
      var init := ls[..|ls| - 1];
      V1CoursesMembers(init);
      assert forall i :: 0 <= i < |init| ==> init[i] == ls[i];
    }
  }

  /** The V1 conversion keeps order: a concatenation converts part by part. */
  lemma {:induction false} V1CoursesAppend(a: seq<Language>, b: seq<Language>)
    ensures V1Courses(a + b) == V1Courses(a) + V1Courses(b)
  {
    if b == [] {
      assert a + b == a;
    } else {
      var init, c := b[..|b| - 1], b[|b| - 1];
      var tail := if KeepLanguage(c) then [LanguageCourse(c)] else [];
      assert b == init + [c];
      assert a + b == (a + init) + [c];
      calc {
        V1Courses(a + b);
        { V1CoursesSnoc(a + init, c); }
        V1Courses(a + init) + tail;
        { V1CoursesAppend(a, init); }
        (V1Courses(a) + V1Courses(init)) + tail;
        V1Courses(a) + (V1Courses(init) + tail);
        { V1CoursesSnoc(init, c); }
        V1Courses(a) + V1Courses(b);
      }
    }
  }

  lemma V1CoursesSnoc(s: seq<Language>, c: Language)
    ensures V1Courses(s + [c]) == V1Courses(s) + (if KeepLanguage(c) then [LanguageCourse(c)] else [])
  {
    assert (s + [c])[..|s|] == s;
  }


  /** An existing course matches a V1 course by title, by learning language, or by an id containing the V1 id. */
  predicate Matches(c: Course, v: Course)
  {
    c.title == v.title || c.learningLanguage == v.learningLanguage
    || (TruthyStr(c.id) && TruthyStr(v.id) && Includes(c.id.value, v.id.value))
  }

  predicate AnyMatches(cs: seq<Course>, v: Course)
  {
    exists i :: 0 <= i < |cs| && Matches(cs[i], v)
  }

  /** The list after the `for (const v1c of v1Courses)` loop over `vs`. */
  function MergedV1(base: seq<Course>, vs: seq<Course>): seq<Course>
  {
    if vs == [] then base
    else
      var r := MergedV1(base, vs[..|vs| - 1]);
      if AnyMatches(r, vs[|vs| - 1]) then r else r + [vs[|vs| - 1]]
  }

  /** The loop: push every V1 course that no course so far matches. */
  method MergeV1(base: seq<Course>, vs: seq<Course>) returns (courses: seq<Course>)
    ensures courses == MergedV1(base, vs)
  {
    courses := base;
    for i := 0 to |vs|
      invariant courses == MergedV1(base, vs[..i])
    {
      assert vs[..i + 1][..i] == vs[..i];
      var exists_ := false;
      for j := 0 to |courses|
        invariant exists_ <==> exists k :: 0 <= k < j && Matches(courses[k], vs[i])
      {
        if Matches(courses[j], vs[i]) {
          exists_ := true;
        }
      }
      if !exists_ {
        courses := courses + [vs[i]];
      }
    }
    assert vs[..|vs|] == vs;
  }

  /**
   * The primary courses stay first and in order; every V1 course ends up
   * listed or matched by a listed course; only V1 courses are added, and
   * each added course matches none listed before it.
   */
  lemma {:induction false} MergedV1Facts(base: seq<Course>, vs: seq<Course>)
    ensures var r := MergedV1(base, vs);
      && |base| <= |r| <= |base| + |vs|
      && r[..|base|] == base
      && (forall i :: 0 <= i < |vs| ==> AnyMatches(r, vs[i]) || vs[i] in r)
      && (forall j :: |base| <= j < |r| ==> r[j] in vs && !AnyMatches(r[..j], r[j]))
  {
    if vs != [] {
      var init := vs[..|vs| - 1];
      var v := vs[|vs| - 1];
      MergedV1Facts(base, init);
      var prev := MergedV1(base, init);
      var r := MergedV1(base, vs);
      forall i | 0 <= i < |vs| ensures AnyMatches(r, vs[i]) || vs[i] in r {
        if i < |vs| - 1 {
          assert vs[i] == init[i];
          if AnyMatches(prev, vs[i]) {
            var k :| 0 <= k < |prev| && Matches(prev[k], vs[i]);
            assert r[k] == prev[k];
          }
        }
      }
      forall j | |base| <= j < |r| ensures r[j] in vs && !AnyMatches(r[..j], r[j]) {
        if j < |prev| {
          assert r[..j] == prev[..j] && r[j] == prev[j];
          assert prev[j] in init;
        } else {
          assert r[..j] == prev;
        }
      }
    }
  }

  /** Merging V1 courses never changes a list that already matches all of them. */
  lemma {:induction false} MergedV1AllMatched(base: seq<Course>, vs: seq<Course>)
    requires forall i :: 0 <= i < |vs| ==> AnyMatches(base, vs[i])
    ensures MergedV1(base, vs) == base
  {
    if vs != [] {
      MergedV1AllMatched(base, vs[..|vs| - 1]);
    }
  }

  // ---------------------------------------------------------------------
  // language_data fallback
  // ---------------------------------------------------------------------

  /** `levels_finished || crowns || finishedLevels || 0`. */
  function SkillCrowns(s: Skill): int
  {
    OrNum(s.levels_finished, OrNum(s.crowns, OrNum(s.finishedLevels, 0)))
  }

  function SumSkillCrowns(skills: seq<Skill>): int
  {
    if skills == [] then 0 else SumSkillCrowns(skills[..|skills| - 1]) + SkillCrowns(skills[|skills| - 1])
  }

  /** `points || level_progress || 0`. */
  function DetailXp(d: LanguageDetail): int
  {
    OrNum(d.points, OrNum(d.level_progress, 0))
  }

  predicate KeepDetail(d: LanguageDetail)
  {
    DetailXp(d) > 0 || TruthyBool(d.current_learning)
  }

  /** The crowns of a language: its own, else the sum over its skills. */
  function DetailCrowns(d: LanguageDetail): (n: int)
    ensures OrNum(d.crowns, 0) != 0 ==> n == d.crowns.value
  {
    var crowns := OrNum(d.crowns, 0);
    if crowns == 0 && d.skills.Some? && |d.skills.value| > 0 then SumSkillCrowns(d.skills.value) else crowns
  }

  function DetailCourse(code: string, d: LanguageDetail): Course
  {
    var language := OrStr(d.learning_language, code);
    Course(d.language_string, Some(DetailXp(d)), Some(OrStr(d.from_language, "en")), Some(language), DetailCrowns(d), Some(language))
  }

  /** `Object.entries(language_data).filter(...).map(...)`. */
  function LanguageDataCourses(entries: seq<(string, LanguageDetail)>): (r: seq<Course>)
    ensures |r| <= |entries|
  {
    if entries == [] then []
    else
      var init := LanguageDataCourses(entries[..|entries| - 1]);
      var (code, d) := entries[|entries| - 1];
      if KeepDetail(d) then init + [DetailCourse(code, d)] else init
  }

  /** Exactly the entries the filter keeps become courses. */
  lemma {:induction false} LanguageDataCoursesMembers(entries: seq<(string, LanguageDetail)>)
    ensures var r := LanguageDataCourses(entries);
      && (forall i :: 0 <= i < |entries| && KeepDetail(entries[i].1) ==> DetailCourse(entries[i].0, entries[i].1) in r)
      && (forall x :: x in r ==> exists i :: 0 <= i < |entries| && KeepDetail(entries[i].1) && DetailCourse(entries[i].0, entries[i].1) == x)
  {
    if entries != [] {
      var init := entries[..|entries| - 1];
      LanguageDataCoursesMembers(init);
      assert forall i :: 0 <= i < |init| ==> init[i] == entries[i];
    }
  }

  /** The `language_data` conversion keeps the entry order: a concatenation converts part by part. */
  lemma {:induction false} LanguageDataCoursesAppend(a: seq<(string, LanguageDetail)>, b: seq<(string, LanguageDetail)>)
    ensures LanguageDataCourses(a + b) == LanguageDataCourses(a) + LanguageDataCourses(b)
  {
    if b == [] {
      assert a + b == a;
    } else {
      var init, c := b[..|b| - 1], b[|b| - 1];
      var tail := if KeepDetail(c.1) then [DetailCourse(c.0, c.1)] else [];
      assert b == init + [c];
      assert a + b == (a + init) + [c];
      calc {
        LanguageDataCourses(a + b);
        { LanguageDataCoursesSnoc(a + init, c); }
        LanguageDataCourses(a + init) + tail;
        { LanguageDataCoursesAppend(a, init); }
        (LanguageDataCourses(a) + LanguageDataCourses(init)) + tail;
        LanguageDataCourses(a) + (LanguageDataCourses(init) + tail);
        { LanguageDataCoursesSnoc(init, c); }
        LanguageDataCourses(a) + LanguageDataCourses(b);
      }
    }
  }

  lemma LanguageDataCoursesSnoc(s: seq<(string, LanguageDetail)>, c: (string, LanguageDetail))
    ensures LanguageDataCourses(s + [c]) == LanguageDataCourses(s) + (if KeepDetail(c.1) then [DetailCourse(c.0, c.1)] else [])
  {
    assert (s + [c])[..|s|] == s;
  }


  // ---------------------------------------------------------------------
  // The whole list
  // ---------------------------------------------------------------------

  function PrimaryOf(raw: RawUser): seq<Course>
  {
    if raw.courses.Some? && |raw.courses.value| > 0 then PrimaryCourses(raw.courses.value) else []
  }

  function AfterV1(raw: RawUser): seq<Course>
  {
    if raw.languages.Some? && |raw.languages.value| > 0 then MergedV1(PrimaryOf(raw), V1Courses(raw.languages.value))
    else PrimaryOf(raw)
  }

  /** The `courses` of the normalized record. */
  function CoursesOf(raw: RawUser): seq<Course>
  {
    var courses := AfterV1(raw);
    if |courses| == 0 && raw.language_data.Some? then LanguageDataCourses(raw.language_data.value) else courses
  }

  /** The list, built as the source builds it. */
  method BuildCourses(raw: RawUser) returns (courses: seq<Course>)
    ensures courses == CoursesOf(raw)
  {
    courses := [];
    if raw.courses.Some? && |raw.courses.value| > 0 {
      courses := PrimaryCourses(raw.courses.value);
    }
    if raw.languages.Some? && |raw.languages.value| > 0 {
      courses := MergeV1(courses, V1Courses(raw.languages.value));
    }
    if |courses| == 0 && raw.language_data.Some? {
      courses := LanguageDataCourses(raw.language_data.value);
    }
  }

  /**
   * The primary courses come first, in order; every kept V1 language is
   * listed or matched; the `language_data` courses appear only when the
   * other two sources give nothing.
   */
  lemma CoursesPrecedence(raw: RawUser)
    ensures var cs := CoursesOf(raw);
      && |PrimaryOf(raw)| <= |cs| && cs[..|PrimaryOf(raw)|] == PrimaryOf(raw)
      && (raw.languages.Some? && PrimaryOf(raw) != [] ==>
            forall i :: 0 <= i < |raw.languages.value| && KeepLanguage(raw.languages.value[i]) ==>
              AnyMatches(cs, LanguageCourse(raw.languages.value[i])) || LanguageCourse(raw.languages.value[i]) in cs)
      && (AfterV1(raw) != [] ==> cs == AfterV1(raw))
  {
    if raw.languages.Some? && |raw.languages.value| > 0 {
      var vs := V1Courses(raw.languages.value);
      V1CoursesMembers(raw.languages.value);
      MergedV1Facts(PrimaryOf(raw), vs);
      forall i | 0 <= i < |raw.languages.value| && KeepLanguage(raw.languages.value[i])
        ensures AnyMatches(CoursesOf(raw), LanguageCourse(raw.languages.value[i])) || LanguageCourse(raw.languages.value[i]) in CoursesOf(raw)
      {
        var k :| 0 <= k < |vs| && vs[k] == LanguageCourse(raw.languages.value[i]);
      }
    }
  }

  // ---------------------------------------------------------------------
  // Learning language
  // ---------------------------------------------------------------------

  /**
   * `learningLanguage`: with `language_data`, the current language's name,
   * else the first course's title, else "None"; otherwise the current
   * course's title; otherwise the first course's title; otherwise "None".
   */
  function LearningLanguage(raw: RawUser, courses: seq<Course>): (r: Option<string>)
    ensures raw.language_data.Some? ==>
      var current := CurrentLanguage(LanguageValues(raw.language_data.value));
      && (current.Some? && current.value.language_string.Some? ==> r == current.value.language_string)
      && (!(current.Some? && current.value.language_string.Some?) && courses != [] && courses[0].title.Some? ==> r == courses[0].title)
      && (!(current.Some? && current.value.language_string.Some?) && (courses == [] || courses[0].title.None?) ==> r == Some("None"))
    ensures raw.language_data.None? && raw.currentCourse.Some? ==> r == raw.currentCourse.value.title
    ensures raw.language_data.None? && raw.currentCourse.None? && courses != [] ==> r == courses[0].title
    ensures raw.language_data.None? && raw.currentCourse.None? && courses == [] ==> r == Some("None")
  {
    if raw.language_data.Some? then
      var current := CurrentLanguage(LanguageValues(raw.language_data.value));
      if current.Some? && current.value.language_string.Some? then current.value.language_string
      else if courses != [] && courses[0].title.Some? then courses[0].title
      else Some("None")
    else if raw.currentCourse.Some? then raw.currentCourse.value.title
    else if courses != [] then courses[0].title
    else Some("None")
  }

  /**
   * Without `language_data` or a current course, the learning language is
   * the title of the first course the primary filter keeps.
   */
  lemma LearningLanguageIsFirstKeptCourse(raw: RawUser, k: nat)
    requires raw.language_data.None? && raw.currentCourse.None?
    requires raw.courses.Some? && k < |raw.courses.value| && KeepPrimary(raw.courses.value[k])
    requires forall i :: 0 <= i < k ==> !KeepPrimary(raw.courses.value[i])
    ensures LearningLanguage(raw, CoursesOf(raw)) == raw.courses.value[k].title
  {
    PrimaryCoursesHead(raw.courses.value, k);
    CoursesPrecedence(raw);
    var cs := CoursesOf(raw);
    assert cs[..|PrimaryOf(raw)|][0] == cs[0];
  }
}
