/**
 * Properties of the concrete catalog: the challenge ids, the whole-course validators of the
 * course records, and how they read the parameters the configuration page stores.
 */
module CatalogFacts {
  import opened Wrappers
  import opened Strings
  import opened Records
  import opened Types
  import opened ValidatorTypes
  import opened Validators
  import opened ChallengeData
  import opened Catalog

  /** The challenge ids "1" to "192" are distinct, so the list is a well-formed object. */
  lemma ChallengeIdsDistinct()
    ensures DistinctKeys(CATALOG.challengeList)
  {
    var r := CATALOG.challengeList;
    forall i, j | 0 <= i < j < |r| ensures r[i].0 != r[j].0 {
      if r[i].0 == r[j].0 {
        NatToStringInjective(i + 1, j + 1);
      }
    }
  }

  /** Every whole-course validator of a course record reads that course's own parameters. */
  lemma CourseValidatorsReadOwnCourse(c: Course, i: nat)
    requires i < |CourseValidators(c)| && IsCourseValidator(CourseValidators(c)[i])
    ensures CourseValidators(c)[i].course == c
    ensures CourseParams(c).Some?
  {
    match c
    case Coffee =>
    case Tea =>
    case Soda =>
    case Lemonade =>
    case Soup =>
    case Salad =>
    case Gyoza =>
    case SpringRolls =>
    case Prawns =>
    case ChickenWings =>
    case Burger =>
    case Sushi =>
    case Spaghetti =>
    case Pizza =>
    case Lasagna =>
    case Sandwich =>
    case Omurice =>
    case FishAndChips =>
    case Fries =>
    case Onigiri =>
    case OnionRings =>
    case GarlicBread =>
    case TheMelon =>
    case Tofu =>
    case Cake =>
    case IceCream =>
    case Cookie =>
    case ApplePie =>
    case Milkshake =>
    case Dango =>
  }

  /** The record the configuration page starts from: every declared parameter at its default. */
  function DefaultRecord(c: Course): (r: Assoc<string>)
    requires CourseParams(c).Some?
  {
    DefaultParams(CourseParams(c).value)
  }

  /**
   * `generateCourseValidatorInfo` stores the default record of every course that declares
   * parameters. Only the course records are read, so this holds for every catalog sharing
   * COURSE_DATA, CATALOG among them.
   */
  lemma DefaultRecordStored(cat: ValidatorTypes.Catalog, p: ValidatorParams, c: Course)
    requires cat.courseData == CourseData
    requires p.config.courseValidatorInfo == GenerateCourseValidatorInfo(cat)
    requires CourseParams(c).Some?
    ensures c in p.config.courseValidatorInfo && p.config.courseValidatorInfo[c] == DefaultRecord(c)
  {
    assert cat.courseData(c).courseValidatorInfo == CourseParams(c);
  }

  /** Soda's company parameter defaults to the empty text. */
  lemma SodaDefaults(cat: ValidatorTypes.Catalog, p: ValidatorParams)
    requires cat.courseData == CourseData
    requires p.config.courseValidatorInfo == GenerateCourseValidatorInfo(cat)
    ensures Soda in p.config.courseValidatorInfo
    ensures Param(p, Soda, "Licensor/Producor/Studio") == Some("")
  {
    DefaultRecordStored(cat, p, Soda);
    var infos := CourseParams(Soda).value;
    DefaultParamsDeclared(infos, 0);
  }

  /** Lasagna's season parameter defaults to "Winter", a season `cvalidateSeason` knows. */
  lemma LasagnaDefaults(cat: ValidatorTypes.Catalog, p: ValidatorParams)
    requires cat.courseData == CourseData
    requires p.config.courseValidatorInfo == GenerateCourseValidatorInfo(cat)
    ensures Lasagna in p.config.courseValidatorInfo
    ensures Param(p, Lasagna, "Season") == Some("Winter")
  {
    DefaultRecordStored(cat, p, Lasagna);
    var infos := CourseParams(Lasagna).value;
    DefaultParamsDeclared(infos, 0);
  }

  /** Both genre/theme parameters of Fish and Chips default to the empty text. */
  lemma FishAndChipsDefaults(cat: ValidatorTypes.Catalog, p: ValidatorParams)
    requires cat.courseData == CourseData
    requires p.config.courseValidatorInfo == GenerateCourseValidatorInfo(cat)
    ensures FishAndChips in p.config.courseValidatorInfo
    ensures Param(p, FishAndChips, "Genre/Theme #1") == Some("")
    ensures Param(p, FishAndChips, "Genre/Theme #2") == Some("")
  {
    DefaultRecordStored(cat, p, FishAndChips);
    TwoTextParamsDefaultEmpty(CourseParams(FishAndChips).value, "Genre/Theme #1", "Genre/Theme #2");
  }

  /**
   * With the records `generateCourseValidatorInfo` builds, every validator of every course record
   * runs without throwing.
   */
  lemma DefaultRecordsDefineCourseValidators(cat: ValidatorTypes.Catalog, p: ValidatorParams, c: Course, i: nat)
    requires cat.courseData == CourseData
    requires p.config.courseValidatorInfo == GenerateCourseValidatorInfo(cat)
    requires i < |CourseData(c).validators|
    ensures Defined(CourseData(c).validators[i], p)
  {
    var v := CourseValidators(c)[i];
    if IsCourseValidator(v) {
      CourseValidatorsReadOwnCourse(c, i);
      DefaultRecordStored(cat, p, c);
      ParameterReadingValidatorsCourse(c, i);
      if v.CValidateCompany? {
        SodaDefaults(cat, p);
      } else if v.CValidateSeason? {
        LasagnaDefaults(cat, p);
      } else if v.CValidateGenreTheme? {
        FishAndChipsDefaults(cat, p);
      }
    }
  }

  /**
   * The three whole-course validators that throw on a bad parameter belong to one course each:
   * the company check to Soda, the season check to Lasagna, the genre/theme check to Fish and Chips.
   */
  lemma ParameterReadingValidatorsCourse(c: Course, i: nat)
    requires i < |CourseValidators(c)|
    ensures CourseValidators(c)[i].CValidateCompany? ==> c == Soda
    ensures CourseValidators(c)[i].CValidateSeason? ==> c == Lasagna
    ensures CourseValidators(c)[i].CValidateGenreTheme? ==> c == FishAndChips
  {
    match c
    case Coffee =>
    case Tea =>
    case Soda =>
    case Lemonade =>
    case Soup =>
    case Salad =>
    case Gyoza =>
    case SpringRolls =>
    case Prawns =>
    case ChickenWings =>
    case Burger =>
    case Sushi =>
    case Spaghetti =>
    case Pizza =>
    case Lasagna =>
    case Sandwich =>
    case Omurice =>
    case FishAndChips =>
    case Fries =>
    case Onigiri =>
    case OnionRings =>
    case GarlicBread =>
    case TheMelon =>
    case Tofu =>
    case Cake =>
    case IceCream =>
    case Cookie =>
    case ApplePie =>
    case Milkshake =>
    case Dango =>
  }

  /** Two text parameters with distinct names both default to the empty text. */
  lemma TwoTextParamsDefaultEmpty(infos: seq<CourseValidatorInfo>, a: string, b: string)
    requires infos == [CourseValidatorInfo(a, Text, None), CourseValidatorInfo(b, Text, None)] && a != b
    ensures Lookup(DefaultParams(infos), a) == Some("") && Lookup(DefaultParams(infos), b) == Some("")
  {
    DefaultParamsDeclared(infos, 0);
    DefaultParamsDeclared(infos, 1);
  }

  /**
   * The Sandwich record declares its parameter as "Number of Epidodes" while its validator reads
   * "Number of Episodes": with a record holding only declared names, the check never passes.
   */
  lemma SandwichEpisodeCountNeverPasses(p: ValidatorParams)
    requires Sandwich in p.config.courseValidatorInfo
    requires forall k :: k in Keys(p.config.courseValidatorInfo[Sandwich]) ==> k == "Number of Epidodes"
    ensures !Eval(CValidateEpisodeCount(Sandwich), p).valid
  {
    assert "Number of Episodes" !in Keys(p.config.courseValidatorInfo[Sandwich]);
  }

  /** Sandwich's declared parameter, as the configuration page stores it under its name. */
  lemma SandwichDeclaresEpidodes()
    ensures CourseData(Sandwich).courseValidatorInfo == Some([CourseValidatorInfo("Number of Epidodes", Text, None)])
    ensures CourseData(Sandwich).validators == [CValidateEpisodeCount(Sandwich)]
  {
  }
}
