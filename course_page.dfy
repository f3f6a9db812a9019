/**
 * The state updates and scoping filters of the course page (challenges/Course.tsx): editing an
 * entry's MAL id or dates, and the items and challenges shown under the current course.
 */
module CoursePage {
  import opened Wrappers
  import opened Records
  import opened Types
  import opened ValidatorTypes

  /** The entry fields the page's text inputs edit. */
  datatype EntryField = MalId | StartDate | EndDate

  /** `{ ...entry, [key]: value }` */
  function SetField(entry: ChallengeEntry, key: EntryField, value: string): (r: ChallengeEntry)
    ensures r.id == entry.id && r.courses == entry.courses && r.extraInfo == entry.extraInfo
    ensures r.manualValidators == entry.manualValidators && r.animeData == entry.animeData
    ensures r.malId == (if key == MalId then value else entry.malId)
    ensures r.startDate == (if key == StartDate then value else entry.startDate)
    ensures r.endDate == (if key == EndDate then value else entry.endDate)
  {
    match key
    case MalId => entry.(malId := value)
    case StartDate => entry.(startDate := value)
    case EndDate => entry.(endDate := value)
  }

  /** `extraInfo.map((i) => ({ ...i, value: '' }))` */
  function ClearedExtraInfo(items: seq<ExtraInfo>): (r: seq<ExtraInfo>)
    ensures |r| == |items|
    ensures forall i :: 0 <= i < |items| ==> r[i] == items[i].(value := "")
  {
    seq(|items|, i requires 0 <= i < |items| => items[i].(value := ""))
  }

  /** Every manual validator of the map, marked as not met. */
  function ClearedManualValidators(m: map<nat, ManualValidator>): (r: map<nat, ManualValidator>)
    ensures r.Keys == m.Keys
    ensures forall h :: h in r ==> r[h] == m[h].(valid := false)
  {
    map h | h in m :: m[h].(valid := false)
  }

  /**
   * `handleChange`: the entry of `challengeId` gets the new value for `key`; a new MAL id also
   * drops the loaded anime, empties every extra-info value and clears every manual validator.
   * Every other entry, and the order of the entries, is kept.
   */
  method HandleChange(challengeData: ChallengeData, challengeId: string, key: EntryField, value: string)
    returns (newData: ChallengeData)
    requires challengeId in Keys(challengeData)
    ensures Keys(newData) == Keys(challengeData)
    ensures forall k :: k != challengeId ==> Lookup(newData, k) == Lookup(challengeData, k)
    ensures Lookup(newData, challengeId).Some?
    ensures var before := Lookup(challengeData, challengeId).value;
      var after := Lookup(newData, challengeId).value;
      after.id == before.id && after.courses == before.courses
      && after.malId == (if key == MalId then value else before.malId)
      && after.startDate == (if key == StartDate then value else before.startDate)
      && after.endDate == (if key == EndDate then value else before.endDate)
    ensures var before := Lookup(challengeData, challengeId).value;
      var after := Lookup(newData, challengeId).value;
      key == MalId ==>
        after.animeData.None?
        && |after.extraInfo| == |before.extraInfo|
        && (forall i :: 0 <= i < |before.extraInfo| ==>
              after.extraInfo[i].key == before.extraInfo[i].key
              && after.extraInfo[i].required == before.extraInfo[i].required
              && after.extraInfo[i].courses == before.extraInfo[i].courses
              && after.extraInfo[i].value == "")
        && after.manualValidators.Keys == before.manualValidators.Keys
        && (forall h :: h in after.manualValidators ==>
              !after.manualValidators[h].valid
              && after.manualValidators[h].courses == before.manualValidators[h].courses)
    ensures var before := Lookup(challengeData, challengeId).value;
      var after := Lookup(newData, challengeId).value;
      key != MalId ==>
        after.animeData == before.animeData && after.extraInfo == before.extraInfo
        && after.manualValidators == before.manualValidators
  {
    var first := SetField(Lookup(challengeData, challengeId).value, key, value);
    PutKeys(challengeData, challengeId, first);
    newData := Put(challengeData, challengeId, first);
    ghost var spread := newData;
    var entry := first;
    if key == MalId {
      entry := entry.(animeData := None);
      entry := entry.(extraInfo := ClearedExtraInfo(entry.extraInfo));
      entry := entry.(manualValidators := ClearedManualValidators(entry.manualValidators));
      PutKeys(newData, challengeId, entry);
      newData := Put(newData, challengeId, entry);
    }
    forall k ensures Lookup(newData, k) == (if k == challengeId then Some(entry) else Lookup(challengeData, k)) {
      PutLookup(challengeData, challengeId, first, k);
      if key == MalId { PutLookup(spread, challengeId, entry, k); }
    }
  }

  /** `getExtraInfo(challengeId, requiredOnly)`: the items in scope, only the required ones if asked. */
  function GetExtraInfo(challengeData: ChallengeData, challengeId: string, course: Course, requiredOnly: bool): (r: seq<ExtraInfo>)
    requires challengeId in Keys(challengeData)
    ensures var items := Lookup(challengeData, challengeId).value.extraInfo;
      forall x :: x in r <==> x in items && InScope(x.courses, course) && (requiredOnly ==> x.required)
  {
    var scoped := ScopedExtraInfo(Lookup(challengeData, challengeId).value.extraInfo, course);
    if requiredOnly then RequiredExtraInfo(scoped) else scoped
  }

  /** `getManualValidators(challengeId)`: the manual validators in scope for the course. */
  function GetManualValidators(challengeData: ChallengeData, challengeId: string, course: Course): (r: map<nat, ManualValidator>)
    requires challengeId in Keys(challengeData)
    ensures var m := Lookup(challengeData, challengeId).value.manualValidators;
      forall h :: h in r <==> h in m && InScope(m[h].courses, course)
    ensures forall h :: h in r ==> r[h] == Lookup(challengeData, challengeId).value.manualValidators[h]
  {
    ScopedManualValidators(Lookup(challengeData, challengeId).value.manualValidators, course)
  }

  /** `getCurrentCourse()`: the catalog's challenges that belong to the course, in catalog order. */
  function GetCurrentCourse(challengeList: Assoc<Challenge>, course: Course): (r: Assoc<Challenge>)
    ensures forall p :: p in r <==> p in challengeList && course in p.1.courses
    ensures |r| <= |challengeList|
    decreases |challengeList|
  {
    if challengeList == [] then []
    else
      var rest := GetCurrentCourse(challengeList[1..], course);
      assert forall p :: p in challengeList <==> p == challengeList[0] || p in challengeList[1..];
      if course in challengeList[0].1.courses then [challengeList[0]] + rest else rest
  }

  /** The challenges listed under a course keep their catalog order. */
  lemma {:induction false} GetCurrentCourseKeepsOrder(challengeList: Assoc<Challenge>, course: Course, i: nat, j: nat)
    requires i < j < |challengeList|
    requires course in challengeList[i].1.courses && course in challengeList[j].1.courses
    ensures exists a, b :: (0 <= a < b < |GetCurrentCourse(challengeList, course)|
      && GetCurrentCourse(challengeList, course)[a] == challengeList[i]
      && GetCurrentCourse(challengeList, course)[b] == challengeList[j])
    decreases |challengeList|
  {
    var r := GetCurrentCourse(challengeList, course);
    var tail := challengeList[1..];
    if i == 0 {
      assert challengeList[j] == tail[j - 1];
      assert challengeList[j] in GetCurrentCourse(tail, course);
      var b :| 0 <= b < |GetCurrentCourse(tail, course)| && GetCurrentCourse(tail, course)[b] == challengeList[j];
      assert r == [challengeList[0]] + GetCurrentCourse(tail, course);
      assert r[0] == challengeList[i] && r[b + 1] == challengeList[j];
    } else {
      assert challengeList[i] == tail[i - 1] && challengeList[j] == tail[j - 1];
      GetCurrentCourseKeepsOrder(tail, course, i - 1, j - 1);
      var a, b :| 0 <= a < b < |GetCurrentCourse(tail, course)|
        && GetCurrentCourse(tail, course)[a] == challengeList[i]
        && GetCurrentCourse(tail, course)[b] == challengeList[j];
      if course in challengeList[0].1.courses {
        assert r[a + 1] == challengeList[i] && r[b + 1] == challengeList[j];
      } else {
        assert r == GetCurrentCourse(tail, course);
      }
    }
  }
}
