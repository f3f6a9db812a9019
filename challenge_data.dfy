/**
 * The functions of data/data.ts that derive state from the catalog and the configuration:
 * seeding the challenge entries, the enabled courses and challenges, and the default course
 * parameters. `stringHash` is an external library function; the model takes it as a parameter.
 */
module ChallengeData {
  import opened Wrappers
  import opened Records
  import opened Types
  import opened ValidatorTypes

  /** A deterministic hash from texts to numbers (`stringHash`). */
  type Hash = string -> nat

  /** The hashes of some texts. */
  function HashSet(hash: Hash, texts: seq<string>): set<nat>
  {
    set t | t in texts :: hash(t)
  }

  // ---------------------------------------------------------------------------------------
  // hashManualValidators and getManualValidatorsForChallenge

  /**
   * `hashManualValidators(texts, courses)`: one `{valid: false, courses}` record under the hash of
   * each text; equal hashes collapse into one key.
   */
  function HashManualValidators(hash: Hash, texts: seq<string>, courses: Option<seq<Course>>): (m: map<nat, ManualValidator>)
    ensures m.Keys == HashSet(hash, texts)
    ensures forall h :: h in m ==> m[h] == ManualValidator(false, courses)
    decreases |texts|
  {
    if |texts| == 0 then map[]
    else
      var init := texts[..|texts| - 1];
      var last := texts[|texts| - 1];
      assert texts == init + [last];
      assert HashSet(hash, texts) == HashSet(hash, init) + {hash(last)};
      HashManualValidators(hash, init, courses)[hash(last) := ManualValidator(false, courses)]
  }

  /** `getManualValidatorsForChallenge`: the challenge's manual criteria, then the course's. */
  function GetManualValidatorsForChallenge(cat: Catalog, challengeId: string, course: Course): (r: seq<string>)
    requires challengeId in Keys(cat.challengeList)
    ensures forall t :: t in r <==>
      t in Lookup(cat.challengeList, challengeId).value.manualValidators || t in cat.courseData(course).manualValidators
  {
    Lookup(cat.challengeList, challengeId).value.manualValidators + cat.courseData(course).manualValidators
  }

  // ---------------------------------------------------------------------------------------
  // generateChallengeData

  /** `defaultExtraInfo?.map((key) => ({key, value: '', required: true})) ?? []` */
  function DefaultExtraInfo(keys: Option<seq<string>>): (r: seq<ExtraInfo>)
    ensures keys.None? ==> r == []
    ensures keys.Some? ==> |r| == |keys.value|
    ensures keys.Some? ==> forall i :: 0 <= i < |r| ==> r[i] == ExtraInfo(keys.value[i], "", true, None)
  {
    match keys
    case None => []
    case Some(ks) => seq(|ks|, i requires 0 <= i < |ks| => ExtraInfo(ks[i], "", true, None))
  }

  /** The items one course pushes: its extra-info labels, empty, required, scoped to that course. */
  function CourseLabels(labels: seq<string>, course: Course): (r: seq<ExtraInfo>)
    ensures |r| == |labels|
    ensures forall i :: 0 <= i < |r| ==> r[i] == ExtraInfo(labels[i], "", true, Some([course]))
  {
    seq(|labels|, i requires 0 <= i < |labels| => ExtraInfo(labels[i], "", true, Some([course])))
  }

  /** The items the courses push, course by course in order. */
  function CoursesExtraInfo(cat: Catalog, courses: seq<Course>): seq<ExtraInfo>
    decreases |courses|
  {
    if |courses| == 0 then []
    else
      var last := courses[|courses| - 1];
      CoursesExtraInfo(cat, courses[..|courses| - 1]) + CourseLabels(cat.courseData(last).extraInfo, last)
  }

  /** The course-level manual validators, merged course by course; a later course wins a shared hash. */
  function CoursesManualValidators(cat: Catalog, hash: Hash, courses: seq<Course>): map<nat, ManualValidator>
    decreases |courses|
  {
    if |courses| == 0 then map[]
    else
      var last := courses[|courses| - 1];
      CoursesManualValidators(cat, hash, courses[..|courses| - 1])
      + HashManualValidators(hash, cat.courseData(last).manualValidators, Some([last]))
  }

  /** The entry `generateChallengeData` seeds for one challenge. */
  function InitialEntry(cat: Catalog, hash: Hash, id: string, value: Challenge): ChallengeEntry
  {
    ChallengeEntry(
      id, "", "", "",
      DefaultExtraInfo(value.defaultExtraInfo) + CoursesExtraInfo(cat, value.courses),
      HashManualValidators(hash, value.manualValidators, None) + CoursesManualValidators(cat, hash, value.courses),
      value.courses,
      None)
  }

  /** One seeded entry per challenge, under the challenge's id, in catalog order. */
  function InitialData(cat: Catalog, hash: Hash, list: Assoc<Challenge>): (r: ChallengeData)
    ensures |r| == |list|
    ensures forall i :: 0 <= i < |list| ==> r[i] == (list[i].0, InitialEntry(cat, hash, list[i].0, list[i].1))
  {
    seq(|list|, i requires 0 <= i < |list| => (list[i].0, InitialEntry(cat, hash, list[i].0, list[i].1)))
  }

  /** The entry after the first `k` courses of the challenge have pushed their items. */
  function PartialEntry(cat: Catalog, hash: Hash, id: string, value: Challenge, k: nat): ChallengeEntry
    requires k <= |value.courses|
  {
    ChallengeEntry(
      id, "", "", "",
      DefaultExtraInfo(value.defaultExtraInfo) + CoursesExtraInfo(cat, value.courses[..k]),
      HashManualValidators(hash, value.manualValidators, None) + CoursesManualValidators(cat, hash, value.courses[..k]),
      value.courses,
      None)
  }

  lemma PartialEntryStep(cat: Catalog, hash: Hash, id: string, value: Challenge, k: nat)
    requires k < |value.courses|
    ensures var e := PartialEntry(cat, hash, id, value, k);
      var c := value.courses[k];
      PartialEntry(cat, hash, id, value, k + 1) ==
        e.(extraInfo := e.extraInfo + CourseLabels(cat.courseData(c).extraInfo, c),
           manualValidators := e.manualValidators + HashManualValidators(hash, cat.courseData(c).manualValidators, Some([c])))
  {
    var c := value.courses[k];
    CoursesExtraInfoSnoc(cat, value.courses, k);
    CoursesManualValidatorsSnoc(cat, hash, value.courses, k);
    var base := HashManualValidators(hash, value.manualValidators, None);
    var prev := CoursesManualValidators(cat, hash, value.courses[..k]);
    var mine := HashManualValidators(hash, cat.courseData(c).manualValidators, Some([c]));
    UnionAssociative(base, prev, mine);
  }

  /** Merging maps is associative: a later map wins over both earlier ones either way. */
  lemma UnionAssociative<K, V>(a: map<K, V>, b: map<K, V>, c: map<K, V>)
    ensures a + (b + c) == (a + b) + c
  {
  }

  /** One more course appends its labels to the items of the courses before it. */
  lemma CoursesExtraInfoSnoc(cat: Catalog, courses: seq<Course>, k: nat)
    requires k < |courses|
    ensures CoursesExtraInfo(cat, courses[..k + 1])
      == CoursesExtraInfo(cat, courses[..k]) + CourseLabels(cat.courseData(courses[k]).extraInfo, courses[k])
  {
    assert courses[..k + 1][..k] == courses[..k];
  }

  /** One more course merges its manual validators over those of the courses before it. */
  lemma CoursesManualValidatorsSnoc(cat: Catalog, hash: Hash, courses: seq<Course>, k: nat)
    requires k < |courses|
    ensures CoursesManualValidators(cat, hash, courses[..k + 1])
      == CoursesManualValidators(cat, hash, courses[..k])
         + HashManualValidators(hash, cat.courseData(courses[k]).manualValidators, Some([courses[k]]))
  {
    assert courses[..k + 1][..k] == courses[..k];
  }

  lemma InitialDataStep(cat: Catalog, hash: Hash, list: Assoc<Challenge>, n: nat)
    requires n < |list|
    ensures InitialData(cat, hash, list[..n + 1]) ==
      InitialData(cat, hash, list[..n]) + [(list[n].0, InitialEntry(cat, hash, list[n].0, list[n].1))]
  {
    assert list[..n + 1] == list[..n] + [list[n]];
  }

  /** A key not among the first `n` challenge ids is not a key of their seeded entries. */
  lemma InitialDataFreshKey(cat: Catalog, hash: Hash, list: Assoc<Challenge>, n: nat)
    requires DistinctKeys(list) && n < |list|
    ensures list[n].0 !in Keys(InitialData(cat, hash, list[..n]))
  {
    var data := InitialData(cat, hash, list[..n]);
    forall j | 0 <= j < |data| ensures Keys(data)[j] != list[n].0 {
      assert data[j].0 == list[j].0;
    }
  }

  /**
   * `generateChallengeData`: the nested loops of the source, pushing each course's extra-info
   * items onto the entry and merging each course's manual validators into it.
   */
  method GenerateChallengeData(cat: Catalog, hash: Hash) returns (data: ChallengeData)
    requires DistinctKeys(cat.challengeList)
    ensures data == InitialData(cat, hash, cat.challengeList)
  {
    var list := cat.challengeList;
    data := [];
    var n := 0;
    while n < |list|
      invariant 0 <= n <= |list|
      invariant data == InitialData(cat, hash, list[..n])
    {
      var (id, value) := list[n];
      var entry := ChallengeEntry(
        id, "", "", "",
        DefaultExtraInfo(value.defaultExtraInfo),
        HashManualValidators(hash, value.manualValidators, None),
        value.courses,
        None);
      assert entry == PartialEntry(cat, hash, id, value, 0);
      var k := 0;
      while k < |value.courses|
        invariant 0 <= k <= |value.courses|
        invariant entry == PartialEntry(cat, hash, id, value, k)
      {
        var course := value.courses[k];
        var labels := cat.courseData(course).extraInfo;
        ghost var start := entry;
        var e := 0;
        while e < |labels|
          invariant 0 <= e <= |labels|
          invariant entry == start.(extraInfo := start.extraInfo + CourseLabels(labels[..e], course))
        {
          assert CourseLabels(labels[..e + 1], course) == CourseLabels(labels[..e], course) + [ExtraInfo(labels[e], "", true, Some([course]))];
          entry := entry.(extraInfo := entry.extraInfo + [ExtraInfo(labels[e], "", true, Some([course]))]);
          e := e + 1;
        }
        assert labels[..e] == labels;
        entry := entry.(manualValidators :=
          entry.manualValidators + HashManualValidators(hash, cat.courseData(course).manualValidators, Some([course])));
        PartialEntryStep(cat, hash, id, value, k);
        k := k + 1;
      }
      assert value.courses[..k] == value.courses;
      InitialDataFreshKey(cat, hash, list, n);
      PutKeys(data, id, entry);
      data := Put(data, id, entry);
      InitialDataStep(cat, hash, list, n);
      n := n + 1;
    }
    assert list[..n] == list;
  }

  /** Every seeded entry carries its own id, empty user fields, no anime and the catalog's courses. */
  lemma InitialDataShape(cat: Catalog, hash: Hash)
    ensures Keys(InitialData(cat, hash, cat.challengeList)) == Keys(cat.challengeList)
    ensures forall i :: 0 <= i < |cat.challengeList| ==>
      var e := InitialData(cat, hash, cat.challengeList)[i].1;
      e.id == cat.challengeList[i].0 && e.malId == "" && e.startDate == "" && e.endDate == ""
      && e.courses == cat.challengeList[i].1.courses && e.animeData.None?
  {
  }

  /** Each course contributes its own labels, in order, all empty, required and scoped to it. */
  lemma {:induction false} CoursesExtraInfoItems(cat: Catalog, courses: seq<Course>)
    ensures forall x :: x in CoursesExtraInfo(cat, courses) ==>
      x.value == "" && x.required && x.courses.Some? && |x.courses.value| == 1
      && x.courses.value[0] in courses && x.key in cat.courseData(x.courses.value[0]).extraInfo
    decreases |courses|
  {
    if |courses| > 0 {
      var init, last := courses[..|courses| - 1], courses[|courses| - 1];
      CoursesExtraInfoItems(cat, init);
      forall x | x in CoursesExtraInfo(cat, courses)
        ensures x.value == "" && x.required && x.courses.Some? && |x.courses.value| == 1
          && x.courses.value[0] in courses && x.key in cat.courseData(x.courses.value[0]).extraInfo
      {
        if x in CoursesExtraInfo(cat, init) {
          assert x.courses.value[0] in init;
        } else {
          var labels := CourseLabels(cat.courseData(last).extraInfo, last);
          assert x in labels;
          var i :| 0 <= i < |labels| && labels[i] == x;
        }
      }
    }
  }

  /**
   * A seeded entry's extra info: first the challenge's default labels, unscoped, then the
   * course-scoped labels of its courses; every item starts empty and required.
   */
  lemma SeededExtraInfo(cat: Catalog, hash: Hash, id: string, value: Challenge)
    ensures var items := InitialEntry(cat, hash, id, value).extraInfo;
      var d := if value.defaultExtraInfo.Some? then |value.defaultExtraInfo.value| else 0;
      d <= |items|
      && (forall i :: 0 <= i < d ==> items[i] == ExtraInfo(value.defaultExtraInfo.value[i], "", true, None))
      && (forall i :: d <= i < |items| ==>
            items[i].value == "" && items[i].required && items[i].courses.Some? && |items[i].courses.value| == 1
            && items[i].courses.value[0] in value.courses
            && items[i].key in cat.courseData(items[i].courses.value[0]).extraInfo)
  {
    var items := InitialEntry(cat, hash, id, value).extraInfo;
    var defaults := DefaultExtraInfo(value.defaultExtraInfo);
    var pushed := CoursesExtraInfo(cat, value.courses);
    CoursesExtraInfoItems(cat, value.courses);
    assert items == defaults + pushed;
    forall i | |defaults| <= i < |items| ensures items[i] in pushed {
      assert items[i] == pushed[i - |defaults|];
    }
  }

  /** The keys of the merged course-level map are the hashes of all course-level texts. */
  lemma {:induction false} CoursesManualValidatorsShape(cat: Catalog, hash: Hash, courses: seq<Course>)
    ensures var m := CoursesManualValidators(cat, hash, courses);
      forall h :: h in m ==>
        !m[h].valid
        && exists k :: 0 <= k < |courses| && m[h].courses == Some([courses[k]])
             && h in HashSet(hash, cat.courseData(courses[k]).manualValidators)
    ensures var m := CoursesManualValidators(cat, hash, courses);
      forall k :: 0 <= k < |courses| ==> HashSet(hash, cat.courseData(courses[k]).manualValidators) <= m.Keys
    decreases |courses|
  {
    if |courses| > 0 {
      var init, last := courses[..|courses| - 1], courses[|courses| - 1];
      var prev := CoursesManualValidators(cat, hash, init);
      var mine := HashManualValidators(hash, cat.courseData(last).manualValidators, Some([last]));
      var m := CoursesManualValidators(cat, hash, courses);
      CoursesManualValidatorsShape(cat, hash, init);
      assert m == prev + mine;
      forall h | h in m
        ensures !m[h].valid
        ensures exists k :: (0 <= k < |courses| && m[h].courses == Some([courses[k]])
             && h in HashSet(hash, cat.courseData(courses[k]).manualValidators))
      {
        if h in mine {
          assert m[h].courses == Some([courses[|courses| - 1]]);
        } else {
          var k :| 0 <= k < |init| && prev[h].courses == Some([init[k]])
             && h in HashSet(hash, cat.courseData(init[k]).manualValidators);
          assert init[k] == courses[k];
        }
      }
      forall k | 0 <= k < |courses|
        ensures HashSet(hash, cat.courseData(courses[k]).manualValidators) <= m.Keys
      {
        if k < |init| {
          assert courses[k] == init[k];
        }
      }
    }
  }

  /**
   * A seeded entry's manual validators: one unattested record per hash of the challenge's and
   * the courses' texts. Course-level records are scoped to their course and overwrite a
   * challenge-level record with the same hash; the rest are unscoped.
   */
  lemma SeededManualValidators(cat: Catalog, hash: Hash, id: string, value: Challenge)
    ensures var m := InitialEntry(cat, hash, id, value).manualValidators;
      HashSet(hash, value.manualValidators) <= m.Keys
      && (forall k :: 0 <= k < |value.courses| ==> HashSet(hash, cat.courseData(value.courses[k]).manualValidators) <= m.Keys)
      && (forall h :: h in m ==> !m[h].valid)
      && (forall h :: h in m ==> m[h].courses == None ==> h in HashSet(hash, value.manualValidators))
      && (forall h :: h in m && h in CoursesManualValidators(cat, hash, value.courses) ==>
            exists k :: 0 <= k < |value.courses| && m[h].courses == Some([value.courses[k]]))
  {
    CoursesManualValidatorsShape(cat, hash, value.courses);
  }

  /**
   * The manual criteria the editor lists for a challenge under one of its courses all have a
   * record in the seeded entry.
   */
  lemma ManualCriteriaAreSeeded(cat: Catalog, hash: Hash, challengeId: string, course: Course)
    requires challengeId in Keys(cat.challengeList)
    requires course in Lookup(cat.challengeList, challengeId).value.courses
    ensures var m := InitialEntry(cat, hash, challengeId, Lookup(cat.challengeList, challengeId).value).manualValidators;
      forall t :: t in GetManualValidatorsForChallenge(cat, challengeId, course) ==> hash(t) in m
  {
    var value := Lookup(cat.challengeList, challengeId).value;
    SeededManualValidators(cat, hash, challengeId, value);
    var k :| 0 <= k < |value.courses| && value.courses[k] == course;
    forall t | t in GetManualValidatorsForChallenge(cat, challengeId, course)
      ensures hash(t) in InitialEntry(cat, hash, challengeId, value).manualValidators
    {
      if t in value.manualValidators {
        assert hash(t) in HashSet(hash, value.manualValidators);
      } else {
        assert hash(t) in HashSet(hash, cat.courseData(value.courses[k]).manualValidators);
      }
    }
  }

  // ---------------------------------------------------------------------------------------
  // getEnabledCourses and getEnabledChallenges

  /** `isCourseEnabled`: the enum test chain of the source. */
  predicate IsCourseEnabled(courses: CoursesConfig, course: Course)
  {
    if course in GroupValues(Drink) then courses.drink.enabled && courses.drink.value == course
    else if course in GroupValues(Starter) then courses.starter.enabled && courses.starter.value == course
    else if course in GroupValues(Main) then courses.main.enabled && courses.main.value == course
    else if course in GroupValues(Side) then courses.side.enabled && courses.side.value == course
    else courses.dessert.enabled && courses.dessert.value == course
  }

  /** The `reduce` of `getEnabledCourses` over some courses. */
  function EnabledFold(courses: CoursesConfig, cs: seq<Course>): (r: map<Course, bool>)
    ensures forall c :: c in r <==> c in cs
    ensures forall c :: c in r ==> r[c] == IsCourseEnabled(courses, c)
    decreases |cs|
  {
    if |cs| == 0 then map[]
    else
      var init, last := cs[..|cs| - 1], cs[|cs| - 1];
      assert cs == init + [last];
      EnabledFold(courses, init)[last := IsCourseEnabled(courses, last)]
  }

  /**
   * `getEnabledCourses`: every course has a key; it is true exactly when its group is enabled
   * and the group's selected course is that course.
   */
  function GetEnabledCourses(courses: CoursesConfig): (r: map<Course, bool>)
    ensures forall c: Course :: c in r
    ensures forall c: Course :: r[c] <==> courses.ForGroup(GroupOf(c)).enabled && courses.ForGroup(GroupOf(c)).value == c
  {
    var r := EnabledFold(courses, COURSE_VALUES);
    assert forall c: Course :: c in r by {
      CourseValuesEnumerate();
    }
    assert forall c: Course :: r[c] <==> courses.ForGroup(GroupOf(c)).enabled && courses.ForGroup(GroupOf(c)).value == c by {
      forall c: Course
        ensures IsCourseEnabled(courses, c) <==> courses.ForGroup(GroupOf(c)).enabled && courses.ForGroup(GroupOf(c)).value == c
      {
        IsCourseEnabledByGroup(courses, c);
      }
    }
    r
  }

  /** The enum test chain picks the setting of the course's own group. */
  lemma IsCourseEnabledByGroup(courses: CoursesConfig, c: Course)
    ensures IsCourseEnabled(courses, c) <==> courses.ForGroup(GroupOf(c)).enabled && courses.ForGroup(GroupOf(c)).value == c
  {
    GroupValuesMembership(c, Drink);
    GroupValuesMembership(c, Starter);
    GroupValuesMembership(c, Main);
    GroupValuesMembership(c, Side);
  }

  /** At most one course per group is enabled, and an enabled group's own selection is. */
  lemma EnabledCoursesPerGroup(courses: CoursesConfig, c1: Course, c2: Course)
    ensures GetEnabledCourses(courses)[c1] && GetEnabledCourses(courses)[c2] && GroupOf(c1) == GroupOf(c2) ==> c1 == c2
    ensures courses.ForGroup(GroupOf(c1)).enabled && courses.ForGroup(GroupOf(c1)).value == c1 ==> GetEnabledCourses(courses)[c1]
  {
  }

  /** The entry lists some enabled course (`value.courses.some(...)`). */
  predicate HasEnabledCourse(enabled: map<Course, bool>, entry: ChallengeEntry)
  {
    exists i :: 0 <= i < |entry.courses| && entry.courses[i] in enabled && enabled[entry.courses[i]]
  }

  /** The entries with an enabled course, in order. */
  function EnabledEntries(enabled: map<Course, bool>, data: ChallengeData): (r: ChallengeData)
    ensures forall i :: 0 <= i < |r| ==> r[i] in data && HasEnabledCourse(enabled, r[i].1)
    decreases |data|
  {
    if |data| == 0 then []
    else
      var init, last := data[..|data| - 1], data[|data| - 1];
      EnabledEntries(enabled, init) + (if HasEnabledCourse(enabled, last.1) then [last] else [])
  }

  /** `getEnabledChallenges`: the loop that copies the entries having an enabled course. */
  method GetEnabledChallenges(courses: CoursesConfig, challengeData: ChallengeData) returns (enabledChallenges: ChallengeData)
    requires DistinctKeys(challengeData)
    ensures enabledChallenges == EnabledEntries(GetEnabledCourses(courses), challengeData)
  {
    var enabledCourses := GetEnabledCourses(courses);
    enabledChallenges := [];
    var n := 0;
    while n < |challengeData|
      invariant 0 <= n <= |challengeData|
      invariant enabledChallenges == EnabledEntries(enabledCourses, challengeData[..n])
    {
      var (id, value) := challengeData[n];
      EnabledEntriesStep(enabledCourses, challengeData, n);
      if HasEnabledCourse(enabledCourses, value) {
        enabledChallenges := Put(enabledChallenges, id, value);
      }
      n := n + 1;
    }
    assert challengeData[..n] == challengeData;
  }

  /** One loop step: an entry with an enabled course is put under its key, which is new. */
  lemma EnabledEntriesStep(enabled: map<Course, bool>, data: ChallengeData, n: nat)
    requires DistinctKeys(data) && n < |data|
    ensures EnabledEntries(enabled, data[..n + 1]) ==
      if HasEnabledCourse(enabled, data[n].1) then Put(EnabledEntries(enabled, data[..n]), data[n].0, data[n].1)
      else EnabledEntries(enabled, data[..n])
  {
    assert data[..n + 1][..n] == data[..n];
    EnabledEntriesFreshKey(enabled, data, n);
    PutKeys(EnabledEntries(enabled, data[..n]), data[n].0, data[n].1);
  }

  /** The entries kept from before position `n` do not hold the key at `n`. */
  lemma EnabledEntriesFreshKey(enabled: map<Course, bool>, data: ChallengeData, n: nat)
    requires DistinctKeys(data) && n < |data|
    ensures data[n].0 !in Keys(EnabledEntries(enabled, data[..n]))
  {
    var kept := EnabledEntries(enabled, data[..n]);
    forall j | 0 <= j < |kept| ensures kept[j].0 != data[n].0 {
      assert kept[j] in data[..n];
      var i :| 0 <= i < n && data[..n][i] == kept[j];
      assert data[i] == kept[j];
    }
  }

  /** With distinct keys, the last key does not occur earlier. */
  lemma LastKeyFresh<V>(r: Assoc<V>)
    requires DistinctKeys(r) && |r| > 0
    ensures DistinctKeys(r[..|r| - 1])
    ensures r[|r| - 1].0 !in Keys(r[..|r| - 1])
  {
    var init := r[..|r| - 1];
    forall j | 0 <= j < |init| ensures Keys(init)[j] != r[|r| - 1].0 {
      assert init[j] == r[j];
    }
  }

  /** The enabled entries keep exactly the keys whose entry has an enabled course. */
  lemma {:induction false} EnabledEntriesKeys(enabled: map<Course, bool>, data: ChallengeData, k: string)
    requires DistinctKeys(data)
    ensures k in Keys(EnabledEntries(enabled, data)) <==> k in Keys(data) && HasEnabledCourse(enabled, Lookup(data, k).value)
    decreases |data|
  {
    if |data| > 0 {
      var init, last := data[..|data| - 1], data[|data| - 1];
      LastKeyFresh(data);
      EnabledEntriesKeys(enabled, init, k);
      assert data == init + [last];
      LookupSnoc(init, last, k);
      var tail := if HasEnabledCourse(enabled, last.1) then [last] else [];
      LookupAppend(EnabledEntries(enabled, init), tail, k);
      LookupAppend(init, [last], k);
    }
  }

  /** The enabled entries form a sub-map of the input: a kept key keeps its value. */
  lemma {:induction false} EnabledEntriesSubMap(enabled: map<Course, bool>, data: ChallengeData, k: string)
    requires DistinctKeys(data)
    ensures Lookup(EnabledEntries(enabled, data), k).Some? ==> Lookup(EnabledEntries(enabled, data), k) == Lookup(data, k)
    decreases |data|
  {
    if |data| > 0 {
      var init, last := data[..|data| - 1], data[|data| - 1];
      var kept := EnabledEntries(enabled, init);
      var r := EnabledEntries(enabled, data);
      LastKeyFresh(data);
      assert data == init + [last];
      LookupSnoc(init, last, k);
      if HasEnabledCourse(enabled, last.1) {
        assert r == kept + [last];
        LookupSnoc(kept, last, k);
      } else {
        assert r == kept + [];
        assert kept + [] == kept;
      }
      if k in Keys(kept) {
        EnabledEntriesSubMap(enabled, init, k);
        EnabledEntriesKeys(enabled, init, k);
      }
    }
  }

  /** A lookup in `r + [p]`: the first pair with the key. */
  lemma LookupSnoc<V>(r: Assoc<V>, p: (string, V), k: string)
    ensures Lookup(r + [p], k) == if k in Keys(r) then Lookup(r, k) else if p.0 == k then Some(p.1) else None
  {
    LookupAppend(r, [p], k);
  }

  lemma {:induction false} LookupAppend<V>(r: Assoc<V>, s: Assoc<V>, k: string)
    ensures Lookup(r + s, k) == if k in Keys(r) then Lookup(r, k) else Lookup(s, k)
    ensures k in Keys(r + s) <==> k in Keys(r) || k in Keys(s)
    decreases |r|
  {
    if |r| == 0 {
      assert r + s == s;
    } else {
      assert (r + s)[1..] == r[1..] + s;
      assert Keys(r) == [r[0].0] + Keys(r[1..]);
      assert Keys(r + s) == [r[0].0] + Keys(r[1..] + s);
      LookupAppend(r[1..], s, k);
    }
  }

  // ---------------------------------------------------------------------------------------
  // generateCourseValidatorInfo

  /** `curr.values?.[0] ?? ''` */
  function ParamDefault(info: CourseValidatorInfo): string
  {
    match info.values
    case Some(vs) => if |vs| > 0 then vs[0] else ""
    case None => ""
  }

  /** The inner `reduce`: each declared name mapped to its default, by spread. */
  function DefaultParams(infos: seq<CourseValidatorInfo>): Assoc<string>
    decreases |infos|
  {
    if |infos| == 0 then []
    else
      var last := infos[|infos| - 1];
      Put(DefaultParams(infos[..|infos| - 1]), last.name, ParamDefault(last))
  }

  /** An undeclared name is undefined in the defaults. */
  lemma {:induction false} DefaultParamsUndeclared(infos: seq<CourseValidatorInfo>, name: string)
    requires forall i :: 0 <= i < |infos| ==> infos[i].name != name
    ensures Lookup(DefaultParams(infos), name) == None
    decreases |infos|
  {
    if |infos| > 0 {
      var init, last := infos[..|infos| - 1], infos[|infos| - 1];
      assert forall i :: 0 <= i < |init| ==> init[i].name != name by {
        forall i | 0 <= i < |init| ensures init[i].name != name { assert init[i] == infos[i]; }
      }
      DefaultParamsUndeclared(init, name);
      PutLookup(DefaultParams(init), last.name, ParamDefault(last), name);
    }
  }

  /** A declared name maps to the default of its last declaration. */
  lemma {:induction false} DefaultParamsDeclared(infos: seq<CourseValidatorInfo>, i: nat)
    requires i < |infos|
    requires forall j :: i < j < |infos| ==> infos[j].name != infos[i].name
    ensures Lookup(DefaultParams(infos), infos[i].name) == Some(ParamDefault(infos[i]))
    decreases |infos|
  {
    var init, last := infos[..|infos| - 1], infos[|infos| - 1];
    PutLookup(DefaultParams(init), last.name, ParamDefault(last), infos[i].name);
    if i < |infos| - 1 {
      assert init[i] == infos[i];
      assert forall j :: i < j < |init| ==> init[j].name != init[i].name by {
        forall j | i < j < |init| ensures init[j].name != init[i].name { assert init[j] == infos[j]; }
      }
      DefaultParamsDeclared(init, i);
    }
  }

  /** The outer `reduce` over some courses; a course without declarations gets no record. */
  function ValidatorInfoFold(cat: Catalog, cs: seq<Course>): (r: map<Course, Assoc<string>>)
    ensures forall c :: c in r <==> c in cs && cat.courseData(c).courseValidatorInfo.Some?
    ensures forall c :: c in r ==> r[c] == DefaultParams(cat.courseData(c).courseValidatorInfo.value)
    decreases |cs|
  {
    if |cs| == 0 then map[]
    else
      var init, last := cs[..|cs| - 1], cs[|cs| - 1];
      assert cs == init + [last];
      var prev := ValidatorInfoFold(cat, init);
      match cat.courseData(last).courseValidatorInfo
      case None => prev - {last}
      case Some(infos) => prev[last := DefaultParams(infos)]
  }

  /**
   * `generateCourseValidatorInfo`: a record for exactly the courses that declare parameters,
   * holding their defaults.
   */
  function GenerateCourseValidatorInfo(cat: Catalog): (r: map<Course, Assoc<string>>)
    ensures forall c: Course :: c in r <==> cat.courseData(c).courseValidatorInfo.Some?
    ensures forall c: Course :: c in r ==> r[c] == DefaultParams(cat.courseData(c).courseValidatorInfo.value)
  {
    CourseValuesEnumerate();
    ValidatorInfoFold(cat, COURSE_VALUES)
  }
}
