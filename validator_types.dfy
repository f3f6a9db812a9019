/**
 * The types of the validation engine: validator descriptors (one constructor per factory of
 * validators.ts), their inputs and results, and the catalog records of data/types.ts.
 */
module ValidatorTypes {
  import opened Wrappers
  import opened Records
  import opened Types

  /** The inclusive comparison operators `'gte' | 'lte'`. */
  datatype Exp = Gte | Lte

  /** The strict comparison operators `'gt' | 'lt'`. */
  datatype StrictExp = Gt | Lt

  /** A key of `AnimeDetails['statistics']`. */
  datatype Stat = Watching | Completed | OnHold | Ptw | Dropped

  /** The outcome of one validator (`ValidatorStatus`). */
  datatype ValidatorStatus = ValidatorStatus(criterion: string, valid: bool)

  /** The folded outcome of all validators (`ValidationStatus`). */
  datatype ValidationStatus = ValidationStatus(valid: bool, success: seq<string>, error: seq<string>)

  /** What every validator is applied to (`ValidatorParams`). */
  datatype ValidatorParams = ValidatorParams(anime: AnimeDetails, config: ConfigData, entry: ChallengeEntry, course: Course)

  /**
   * A validator, described by the factory that builds it and the factory's arguments. The
   * constructor names are the factory names; what each one checks is `Validators.Eval`.
   * `ValidateScore` holds its threshold in hundredths (`ValidateScore(785, Gte)` is
   * `validateScore(7.85, 'gte')`).
   */
  datatype Validator =
    // the structural checks that every validation runs first
    | ValidateUniqueAnime(challengeData: ChallengeData)
    | ValidateStartYear
    | ValidateEndYear
    | ValidateStartEndDates
    | ValidateManualValidators
    | ValidateExtraInfo
    // challenge and course validators with constant parameters
    | ValidateType(allowedTypes: seq<string>)
    | ValidateEpisodeCount(episodeCount: nat, exp: Exp)
    | ValidateRuntime(runtime: nat, exp: Exp)
    | ValidateEpisodeDuration(duration: nat, exp: Exp)
    | ValidateStartDate(date: string, exp: Exp)
    | ValidateBroadcastDate(days: seq<string>)
    | ValidateStartMonth(months: seq<nat>)
    | ValidateTitleUsername
    | ValidateSource(sources: seq<string>)
    | ValidateRating(ratings: seq<string>)
    | ValidateGenreCount(genreCount: nat, exp: Exp)
    | ValidateTags(requiredTags: seq<string>, requiredCount: nat)
    | ValidateFinishedAiring
    | ValidateSongCountEquals(openings: nat, endings: nat)
    | ValidateSongCountAtLeast(openings: nat, endings: nat)
    | ValidateAirTime(times: seq<string>)
    | ValidateMainCharacterCountEquals(mainCount: nat)
    | ValidateMainCharacterCountAtLeast(mainCount: nat)
    | ValidateMoreMainThanSupporting
    | ValidatePopularity(popularity: nat, strictExp: StrictExp)
    | ValidateScore(hundredths: nat, exp: Exp)
    | ValidateScoreContains(texts: seq<string>)
    | ValidateFavorites(favorites: nat, exp: Exp)
    | ValidateRankingPopularityDiff(diff: nat, exp: Exp)
    | ValidateMALIdContains(digits: string)
    | ValidateWordsWithSameLetter(wordCount: nat)
    | ValidateTitleStartsWith(letters: seq<string>, other: bool)
    | ValidateCompanyStartsWith(letters: seq<string>, other: bool)
    | ValidateCompany(companies: seq<string>)
    | ValidateStudioProducerStartInUsername
    | ValidateStatistics(stat: Stat, statCount: nat, strictExp: StrictExp)
    | ValidateTitleNonAlphanumericCount(charCount: nat, exp: Exp)
    | ValidateTitleUsernameShareCount(charCount: nat, exp: Exp)
    // whole-course validators, reading their parameters from the configuration
    | CValidateBroadcastDate(course: Course)
    | CValidateCompany(course: Course)
    | CValidateDemographic(course: Course)
    | CValidateStartMonth(course: Course)
    | CValidateSeason(course: Course)
    | CValidateEpisodeCount(course: Course)
    | CValidateGenreTheme(course: Course)
    | CValidateStartYear(course: Course)
    | CValidateType(course: Course)
    | CValidateStartsWith(course: Course)

  /** A catalog challenge (`Challenge`); its bbCode, description and addlInfo texts are not modelled. */
  datatype Challenge = Challenge(
    defaultExtraInfo: Option<seq<string>>,
    courses: seq<Course>,
    validators: seq<Validator>,
    manualValidators: seq<string>)

  datatype ParamKind = Select | Text

  /** The declaration of one runtime course parameter (`CourseValidatorInfo`). */
  datatype CourseValidatorInfo = CourseValidatorInfo(name: string, kind: ParamKind, values: Option<seq<string>>)

  /** The catalog record of one course (`CourseDatum`). */
  datatype CourseDatum = CourseDatum(
    courseLabel: string,
    requiredChallenges: nat,
    extraInfo: seq<string>,
    validators: seq<Validator>,
    manualValidators: seq<string>,
    courseValidatorInfo: Option<seq<CourseValidatorInfo>>)

  /**
   * The two catalog tables, `COURSE_DATA` (total over courses) and `CHALLENGE_LIST` (keyed by
   * challenge id, in key order). `Catalog.CATALOG` is the concrete one.
   */
  datatype Catalog = Catalog(courseData: Course -> CourseDatum, challengeList: Assoc<Challenge>)
}
