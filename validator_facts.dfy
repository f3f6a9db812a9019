/**
 * Properties of the validator library as written: how its text comparisons behave on concrete
 * inputs, and how the structural checks judge an entry that was just seeded or just given a
 * new MAL id.
 */
module ValidatorFacts {
  import opened Wrappers
  import opened Strings
  import opened Records
  import opened Types
  import opened ValidatorTypes
  import opened Validators
  import opened ChallengeData
  import opened CoursePage

  // ---------------------------------------------------------------------------------------
  // Dates compared as text

  lemma DateTextOfSeptember()
    ensures DateText(DateParts(2009, 9, 1)) == "2009-9-1"
  {
    assert NatToString(2009) == "2009" by {
      assert NatToString(2009) == NatToString(200) + [DigitChar(9)];
      assert NatToString(200) == NatToString(20) + [DigitChar(0)];
      assert NatToString(20) == NatToString(2) + [DigitChar(0)];
    }
  }

  /**
   * `validateStartDate` compares the unpadded "year-month-day" text with its argument as
   * strings: an anime that started on 1 September 2009 does not count as starting on or before
   * "2009-12-31", because "9" sorts after "1".
   */
  lemma UnpaddedStartDateFailsBound(p: ValidatorParams)
    requires p.anime.aired.from == DateParts(2009, 9, 1)
    ensures !Eval(ValidateStartDate("2009-12-31", Lte), p).valid
  {
    DateTextOfSeptember();
    UnpaddedMonthSortsLater("2009-12-31", "2009-9-1");
    StartDateAfterBoundFails(p, "2009-12-31");
  }

  /** The on-or-before check fails once the anime's date text sorts after the bound. */
  lemma StartDateAfterBoundFails(p: ValidatorParams, date: string)
    requires LexLt(date, DateText(p.anime.aired.from))
    ensures !Eval(ValidateStartDate(date, Lte), p).valid
  {
  }

  /** "2009-12-31" sorts before "2009-9-1": the texts first differ at "1" against "9". */
  lemma UnpaddedMonthSortsLater(a: string, b: string)
    requires a == "2009-12-31" && b == "2009-9-1"
    ensures LexLt(a, b)
  {
    assert LexLt(a[5..], b[5..]);
    assert LexLt(a[4..], b[4..]);
    assert LexLt(a[3..], b[3..]);
    assert LexLt(a[2..], b[2..]);
    assert LexLt(a[1..], b[1..]);
  }

  /** The year checks test the "2026" prefix of a date text that starts with a four-character year. */
  lemma StartYearTestsYearPrefix(p: ValidatorParams, year: string, rest: string)
    requires |year| == 4 && p.entry.startDate == year + rest
    ensures Eval(ValidateStartYear, p).valid <==> year == "2026"
  {
    if year == "2026" {
      assert "2026" == p.entry.startDate[..4];
    }
    if "2026" <= p.entry.startDate {
      assert p.entry.startDate[..4] == year;
    }
  }

  /** An entry whose start date is not filled in passes the start-year check. */
  lemma StartYearAcceptsEmptyDate(p: ValidatorParams)
    requires p.entry.startDate == ""
    ensures Eval(ValidateStartYear, p).valid
  {
  }

  /**
   * `cvalidateStartYear` with no first year but a second one: `join` prints the missing first
   * year as the empty text, so the criterion reads "... in  or <year 2>".
   */
  lemma StartYearListsMissingFirstYearAsEmpty(p: ValidatorParams, c: Course, y: string)
    requires c in p.config.courseValidatorInfo
    requires Param(p, c, "Year #1") == None && Param(p, c, "Year #2") == Some(y) && y != ""
    ensures Eval(CValidateStartYear(c), p).criterion == "Anime must start airing in  or " + y
  {
    assert ArrayToList(["", y]) == Join([""], ", ") + " or " + y;
  }

  // ---------------------------------------------------------------------------------------
  // Score texts

  /** The threshold of a score check prints as JavaScript prints the number. */
  lemma ScoreTextExamples()
    ensures ScoreText(785) == "7.85"
    ensures ScoreText(750) == "7.5"
    ensures ScoreText(700) == "7"
    ensures ScoreText(1000) == "10"
  {
    assert NatToString(7) == "7";
    assert NatToString(10) == NatToString(1) + [DigitChar(0)];
  }

  // ---------------------------------------------------------------------------------------
  // Case sensitivity

  /** `validateSource` ignores the case of both sides. */
  lemma SourceIgnoresCase(sources: seq<string>, p: ValidatorParams)
    ensures Eval(ValidateSource(sources), p).valid <==>
      exists i :: 0 <= i < |sources| && ToLower(sources[i]) == ToLower(p.anime.source)
  {
    var lowered := LowerAll(sources);
    if ToLower(p.anime.source) in lowered {
      var i :| 0 <= i < |lowered| && lowered[i] == ToLower(p.anime.source);
      assert ToLower(sources[i]) == ToLower(p.anime.source);
    }
  }

  lemma LowerMappa()
    ensures ToLower("MAPPA") == "mappa" && ToLower("mappa") == "mappa"
  {
  }

  /** `validateCompany` compares exactly: "mappa" does not match a studio named "MAPPA". */
  lemma CompanyIsCaseSensitive(p: ValidatorParams)
    requires Companies(p.anime) == ["MAPPA"]
    ensures !Eval(ValidateCompany(["mappa"]), p).valid
  {
  }

  /** `cvalidateCompany` ignores the case of its parameter and of the anime's companies. */
  lemma CourseCompanyIgnoresCase(p: ValidatorParams, c: Course)
    requires c in p.config.courseValidatorInfo && Param(p, c, "Licensor/Producor/Studio").Some?
    ensures Eval(CValidateCompany(c), p).valid <==>
      exists i :: 0 <= i < |Companies(p.anime)| &&
        ToLower(Companies(p.anime)[i]) == ToLower(Param(p, c, "Licensor/Producor/Studio").value)
  {
    var company := Param(p, c, "Licensor/Producor/Studio").value;
    var lowered := LowerAll(Companies(p.anime));
    assert Eval(CValidateCompany(c), p).valid == (ToLower(company) in lowered);
    if ToLower(company) in lowered {
      var i :| 0 <= i < |lowered| && lowered[i] == ToLower(company);
      assert ToLower(Companies(p.anime)[i]) == ToLower(company);
    }
  }

  /** So the parameter "mappa" matches a studio named "MAPPA", where `validateCompany` does not. */
  lemma CourseCompanyMatchesOtherCase(p: ValidatorParams, c: Course)
    requires Companies(p.anime) == ["MAPPA"]
    requires c in p.config.courseValidatorInfo && Param(p, c, "Licensor/Producor/Studio") == Some("mappa")
    ensures Eval(CValidateCompany(c), p).valid
  {
    LowerMappa();
    CourseCompanyIgnoresCase(p, c);
    assert ToLower(Companies(p.anime)[0]) == "mappa";
  }

  // ---------------------------------------------------------------------------------------
  // Tags and seasons

  /** `validateTags` counts occurrences, so a tag listed twice counts twice. */
  lemma TagsCountRepeats(p: ValidatorParams)
    requires Tags(p.anime) == ["Action", "Action"]
    ensures Eval(ValidateTags(["Action"], 2), p).valid
  {
    CountTwice(Tags(p.anime));
  }

  /** Each of the two listed occurrences is counted. */
  lemma CountTwice(tags: seq<string>)
    requires tags == ["Action", "Action"]
    ensures CountMatching(tags, ["Action"]) == 2
  {
    assert CountMatching(tags[1..], ["Action"]) == 1 by {
      assert tags[1..] == ["Action"];
      assert CountMatching(tags[1..][1..], ["Action"]) == 0;
    }
  }

  /** The four seasons of `cvalidateSeason` split the twelve months: each month lies in exactly one. */
  lemma SeasonsPartitionMonths(m: nat, s1: string, s2: string)
    requires 1 <= m <= 12
    ensures exists s :: SeasonMonths(s).Some? && m in SeasonMonths(s).value
    ensures SeasonMonths(s1).Some? && SeasonMonths(s2).Some? && m in SeasonMonths(s1).value && m in SeasonMonths(s2).value
      ==> s1 == s2
  {
    if m <= 3 {
      assert m in SeasonMonths("Winter").value;
    } else if m <= 6 {
      assert m in SeasonMonths("Spring").value;
    } else if m <= 9 {
      assert m in SeasonMonths("Summer").value;
    } else {
      assert m in SeasonMonths("Fall").value;
    }
    if SeasonMonths(s1).Some? && SeasonMonths(s2).Some? && m in SeasonMonths(s1).value && m in SeasonMonths(s2).value {
      MonthDeterminesSeason(m, s1);
      MonthDeterminesSeason(m, s2);
    }
  }

  /** The season a month lies in. */
  function SeasonOfMonth(m: nat): string
  {
    if m <= 3 then "Winter" else if m <= 6 then "Spring" else if m <= 9 then "Summer" else "Fall"
  }

  /** A season whose months include `m` is the season of `m`. */
  lemma MonthDeterminesSeason(m: nat, s: string)
    requires SeasonMonths(s).Some? && m in SeasonMonths(s).value
    ensures s == SeasonOfMonth(m)
  {
    if s == "Winter" {
    } else if s == "Spring" {
    } else if s == "Summer" {
    } else {
    }
  }

  // ---------------------------------------------------------------------------------------
  // Uniqueness

  /** The anime is unique exactly when no other entry holds an anime with its MAL id. */
  lemma UniqueAnimeIff(challengeData: Types.ChallengeData, anime: AnimeDetails, entry: ChallengeEntry)
    ensures UniqueAnimeStatus(challengeData, anime, entry).valid <==>
      forall k :: 0 <= k < |challengeData| ==> !Conflicts(challengeData[k].1, entry.id, anime.malId)
  {
    var challenges := Values(challengeData);
    assert forall k :: 0 <= k < |challengeData| ==> challenges[k] == challengeData[k].1;
  }

  // ---------------------------------------------------------------------------------------
  // Unattested and emptied entries

  /** With no manual validator attested, the manual check passes only when none applies to the course. */
  lemma UnattestedManualCheck(p: ValidatorParams)
    requires forall h :: h in p.entry.manualValidators ==> !p.entry.manualValidators[h].valid
    ensures Eval(ValidateManualValidators, p).valid <==>
      forall h :: h in p.entry.manualValidators ==> !InScope(p.entry.manualValidators[h].courses, p.course)
  {
    var scoped := ScopedManualValidators(p.entry.manualValidators, p.course);
    if exists h :: h in p.entry.manualValidators && InScope(p.entry.manualValidators[h].courses, p.course) {
      var h :| h in p.entry.manualValidators && InScope(p.entry.manualValidators[h].courses, p.course);
      assert h in scoped && !scoped[h].valid;
    }
  }

  /** With every extra-info value empty, the extra-info check passes only when no item is required here. */
  lemma EmptiedExtraInfoCheck(p: ValidatorParams)
    requires forall i :: 0 <= i < |p.entry.extraInfo| ==> p.entry.extraInfo[i].value == ""
    ensures Eval(ValidateExtraInfo, p).valid <==>
      forall i :: 0 <= i < |p.entry.extraInfo| ==>
        !(p.entry.extraInfo[i].required && InScope(p.entry.extraInfo[i].courses, p.course))
  {
    ExtraInfoCheckReadsScopedItems(p, ScopedExtraInfo(RequiredExtraInfo(p.entry.extraInfo), p.course));
    EmptiedItemsInScope(p.entry.extraInfo, p.course);
  }

  /** `validateExtraInfo` passes exactly when every required item in scope holds a value. */
  lemma ExtraInfoCheckReadsScopedItems(p: ValidatorParams, items: seq<ExtraInfo>)
    requires items == ScopedExtraInfo(RequiredExtraInfo(p.entry.extraInfo), p.course)
    ensures Eval(ValidateExtraInfo, p).valid <==> forall i :: 0 <= i < |items| ==> items[i].value != ""
  {
    assert Eval(ValidateExtraInfo, p) == EvalAnime(ValidateExtraInfo, p);
  }

  /** With every value empty, some item is in scope and required exactly when one is listed. */
  lemma EmptiedItemsInScope(infos: seq<ExtraInfo>, course: Course)
    requires forall i :: 0 <= i < |infos| ==> infos[i].value == ""
    ensures var items := ScopedExtraInfo(RequiredExtraInfo(infos), course);
      (forall i :: 0 <= i < |items| ==> items[i].value != "") <==>
      forall i :: 0 <= i < |infos| ==> !(infos[i].required && InScope(infos[i].courses, course))
  {
    var items := ScopedExtraInfo(RequiredExtraInfo(infos), course);
    forall x | x in items ensures x.value == "" {
      var i :| 0 <= i < |infos| && infos[i] == x;
    }
    if exists i :: 0 <= i < |infos| && infos[i].required && InScope(infos[i].courses, course) {
      var i :| 0 <= i < |infos| && infos[i].required && InScope(infos[i].courses, course);
      assert infos[i] in items;
      assert items[0] in items;
    }
  }

  /**
   * After `handleChange` sets a new MAL id, its entry holds the cleared manual validators: the
   * entry then fails the manual check under any course some validator applies to.
   */
  lemma NewMalIdFailsManualCheck(p: ValidatorParams, before: ChallengeEntry)
    requires p.entry.manualValidators == ClearedManualValidators(before.manualValidators)
    requires exists h :: h in before.manualValidators && InScope(before.manualValidators[h].courses, p.course)
    ensures !Eval(ValidateManualValidators, p).valid
  {
    var h :| h in before.manualValidators && InScope(before.manualValidators[h].courses, p.course);
    UnattestedInScopeFails(p, h);
  }

  /**
   * After `handleChange` sets a new MAL id, its entry holds the emptied extra info: the entry
   * then fails the extra-info check under any course some required item applies to.
   */
  lemma NewMalIdFailsExtraInfoCheck(p: ValidatorParams, before: ChallengeEntry)
    requires p.entry.extraInfo == ClearedExtraInfo(before.extraInfo)
    requires exists i :: (0 <= i < |before.extraInfo| && before.extraInfo[i].required
      && InScope(before.extraInfo[i].courses, p.course))
    ensures !Eval(ValidateExtraInfo, p).valid
  {
    EmptiedExtraInfoCheck(p);
    var i :| 0 <= i < |before.extraInfo| && before.extraInfo[i].required && InScope(before.extraInfo[i].courses, p.course);
    assert p.entry.extraInfo[i].required && InScope(p.entry.extraInfo[i].courses, p.course);
  }

  /** One unattested manual validator in scope is enough to fail the manual check. */
  lemma UnattestedInScopeFails(p: ValidatorParams, h: nat)
    requires h in p.entry.manualValidators && InScope(p.entry.manualValidators[h].courses, p.course)
    requires !p.entry.manualValidators[h].valid
    ensures !Eval(ValidateManualValidators, p).valid
  {
    assert h in ScopedManualValidators(p.entry.manualValidators, p.course);
  }

  /**
   * A freshly seeded entry, once an anime is loaded into it, fails the manual check while a
   * challenge-level criterion whose hash no course-level criterion shares is unattested: that
   * record is unscoped, so it applies under every course.
   */
  lemma SeededEntryFailsManualCheck(cat: Catalog, hash: Hash, id: string, value: Challenge, t: string, p: ValidatorParams)
    requires p.entry.manualValidators == InitialEntry(cat, hash, id, value).manualValidators
    requires t in value.manualValidators
    requires forall k :: 0 <= k < |value.courses| ==> hash(t) !in HashSet(hash, cat.courseData(value.courses[k]).manualValidators)
    ensures !Eval(ValidateManualValidators, p).valid
  {
    var own := HashManualValidators(hash, value.manualValidators, None);
    var pushed := CoursesManualValidators(cat, hash, value.courses);
    assert p.entry.manualValidators == own + pushed;
    CoursesManualValidatorsShape(cat, hash, value.courses);
    assert hash(t) in own;
    assert hash(t) !in pushed;
    assert p.entry.manualValidators[hash(t)] == own[hash(t)];
    UnattestedInScopeFails(p, hash(t));
  }

  /** `validateAnime` rejects an entry while a manual validator in scope is unattested. */
  lemma UnattestedManualValidatorRejects(cat: Catalog, config: ConfigData, challengeData: Types.ChallengeData, challengeId: string, course: Course, h: nat)
    requires CanValidate(cat, config, challengeData, challengeId, course)
    requires Lookup(challengeData, challengeId).value.animeData.Some?
    requires var m := Lookup(challengeData, challengeId).value.manualValidators;
      h in m && InScope(m[h].courses, course) && !m[h].valid
    ensures !ValidateAnime(cat, config, challengeData, challengeId, course).valid
  {
    var vs := AllValidators(cat, challengeData, challengeId, course);
    var p := ParamsFor(config, challengeData, challengeId, course);
    UnattestedInScopeFails(p, h);
    assert vs[4] == ValidateManualValidators;
    assert vs[4] in vs;
  }
}
