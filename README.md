# AWC2026 challenge tracker — a verified Dafny model

AWC2026 is a browser app for the Anime Watching Challenge 2026. A player picks one course from each
of the five groups of a menu: drink, starter, main, side and dessert. Each course holds numbered
challenges ("watch an anime with at least 13 episodes"). For every challenge the player records
an anime, its start and end dates, free-text extra info and self-attested manual criteria. The
app checks each entry against the challenge's validators. It then renders a sign-up post, in
BBCode, of the enabled courses.

This project models the core of that app:

- The validator library and its orchestrator (`src/pages/challenges/data/validators.ts`). There
  is one `Validator` constructor per factory. `Eval` is the closure each factory returns.
  `ValidateAnime` runs the six structural checks, then the course's validators, then the
  challenge's.
- The catalog and the derived state (`src/pages/challenges/data/data.ts`):
  - the 30 course records and the 192 challenges;
  - the seeding of the per-challenge entries;
  - the enabled-course map and the enabled-challenge filter;
  - the default course-parameter records.
- The sign-up post generator (`src/pages/settings/utils.ts`): template substitution, date
  formatting, the date range, the entry lines, the course sections and the final post.
- The course page's state update and scoping filters (`src/pages/challenges/Course.tsx`).

Modules:

- Supporting modules:
  - `Wrappers`: `Option`.
  - `Strings`: JavaScript string operations: case mapping, `split`/`join`, `indexOf`, number
    text, unary `+`, and `<` on strings.
  - `Records`: JavaScript objects with string keys. They are association lists whose `Put` is the
    object spread: an existing key is replaced in place, a new key is appended.
- Data:
  - `Types`, `ValidatorTypes`: the records of the app.
  - `Catalog`: the 30 course records and the 192 challenges of `data.ts`, entry for entry.
- Operations:
  - `Validators`: the validator library and its orchestrator.
  - `ChallengeData`: seeding, course enablement and the default parameter records.
  - `Templates`: `replaceTemplates`.
  - `Report`: the rest of `settings/utils.ts`.
  - `CoursePage`: the course page's operations.
- Properties: `ValidatorFacts` and `CatalogFacts` prove properties of the model as written.

Loops that update variables in the source are methods with loop invariants, each proved equal to
a specification function:

- `UniqueAnime`, `CompanyStartsWith`, `WordsWithSameLetter` and its key loop `AnyCountReaches`;
- `GenerateChallengeData`, `GetEnabledChallenges`;
- `ReplaceTemplates`.

Three more operations are methods without loops:

- `GenerateCourseText` and `GenerateBBCode` build their template data and call `ReplaceTemplates`.
  Their ensures give the result as the rendered template.
- `HandleChange` performs the spread, then the updates for a new MAL id. Its ensures give the
  whole new state.

Everything else is a function.

Several behaviours of the source are reproduced exactly as written, and lemmas exhibit them:

- Start dates are compared as unpadded `year-month-day` text.
- `validateCompany` is case-sensitive.
- The Sandwich course declares a parameter as "Number of Epidodes" but reads "Number of Episodes".
- `replaceTemplates` replaces the first occurrence in the current output.

## Model

| member | source | states |
|---|---|---|
| Validators.ArrayToList | src/pages/challenges/data/validators.ts:55-59 | no items give "", one item gives that item, more items end with " or " and the last item |
| Validators.NumberToMonth | src/pages/challenges/data/validators.ts:61-63 | months 1..12 give their English name, NaN gives "Invalid Date" |
| Validators.NumberToMonthWraps | src/pages/challenges/data/validators.ts:61-63 | month numbers roll over with period 12: 0 is December and 13 is January |
| Validators.ScoreText | src/pages/challenges/data/validators.ts:374-384 | a whole-number threshold prints without a decimal point |
| Validators.CountMatching | src/pages/challenges/data/validators.ts:268-278 | the count is at most the number of tags, and zero exactly when no tag is required |
| Validators.CountMatchingAppend | src/pages/challenges/data/validators.ts:268-278 | the count over concatenated tag lists is the sum of the counts |
| Validators.FirstConflict | src/pages/challenges/data/validators.ts:65-80 | the result is the first other entry holding the same MAL id; none is found exactly when no such entry exists |
| Validators.UniqueAnime | src/pages/challenges/data/validators.ts:65-80 | the loop with its early return gives the status of the first conflict, or "unique" |
| Validators.CompanyStartsWith | src/pages/challenges/data/validators.ts:470-498 | the loop passes exactly when some company's uppercased first character is listed, or is a non-capital while symbols are allowed |
| Validators.Initials | src/pages/challenges/data/validators.ts:434-453 | one single-character initial per word that holds a letter, at most one per word |
| Validators.InitialsAppend | src/pages/challenges/data/validators.ts:436-440 | the initials of a concatenation are those of each part, in order |
| Validators.InitialsOfWord | src/pages/challenges/data/validators.ts:436-440 | a word gives its first character exactly when it contains a letter, otherwise nothing |
| Validators.WordsWithSameLetter | src/pages/challenges/data/validators.ts:434-453 | the counting dictionary's loop passes exactly when some initial is shared by `count` words |
| Validators.AnyCountReaches | src/pages/challenges/data/validators.ts:450 | the loop over the dictionary passes exactly when some counted initial reaches `count` |
| Validators.CountsDecideSameLetter | src/pages/challenges/data/validators.ts:441-450 | a dictionary that counts every initial has a value reaching `count` exactly when some initial is shared by `count` words |
| Validators.SeasonMonths | src/pages/challenges/data/validators.ts:627-643 | a month table exists exactly for Winter, Spring, Summer and Fall |
| Validators.Criteria | src/pages/challenges/data/validators.ts:43-53 | the criterion texts of the statuses, position by position |
| Validators.PartitionLengths | src/pages/challenges/data/validators.ts:43-53 | success and error together are as long as the criteria |
| Validators.PartitionMultiset | src/pages/challenges/data/validators.ts:43-53 | success and error together hold exactly the criterion texts |
| Validators.PartitionNoErrors | src/pages/challenges/data/validators.ts:43-53 | error is empty exactly when every criterion passes |
| Validators.SuccessesAppend | src/pages/challenges/data/validators.ts:43-53 | the success list of concatenated criteria is the concatenation |
| Validators.ErrorsAppend | src/pages/challenges/data/validators.ts:43-53 | the error list of concatenated criteria is the concatenation |
| Validators.SuccessKeepsOrder | src/pages/challenges/data/validators.ts:43-53 | a passing criterion sits in success between the passing criteria before it and after it |
| Validators.ErrorKeepsOrder | src/pages/challenges/data/validators.ts:43-53 | a failing criterion sits in error between the failing criteria before it and after it |
| Validators.BuildResponse | src/pages/challenges/data/validators.ts:43-53 | success is the ordered list of passing texts and error the ordered list of failing ones; valid exactly when each criterion passes and exactly when error is empty |
| Validators.StructuralValidators | src/pages/challenges/data/validators.ts:30-35 | the six structural checks run first |
| Validators.AllValidators | src/pages/challenges/data/validators.ts:29-38 | the structural, course and challenge validators in that order |
| Validators.EvalAll | src/pages/challenges/data/validators.ts:40 | each validator's status, at its own position |
| Validators.EvalAllValid | src/pages/challenges/data/validators.ts:40 | every status of the run passes exactly when every validator passes |
| Validators.ValidateAnime | src/pages/challenges/data/validators.ts:12-41 | an entry without an anime fails with "Anime not found"; otherwise it is valid exactly when every validator passes, and success and error hold the passing and failing criterion texts of the run, in validator order |
| ValidatorFacts.UnpaddedStartDateFailsBound | src/pages/challenges/data/validators.ts:185-194 | an anime that started on 1 September 2009 fails "start on or before 2009-12-31", because the dates compare as unpadded text |
| ValidatorFacts.StartDateAfterBoundFails | src/pages/challenges/data/validators.ts:185-194 | the on-or-before start-date check fails whenever the anime's date text sorts after the bound |
| ValidatorFacts.StartYearTestsYearPrefix | src/pages/challenges/data/validators.ts:82-89 | for a date text beginning with a four-character year, the start-year check passes exactly when that year is "2026" |
| ValidatorFacts.StartYearAcceptsEmptyDate | src/pages/challenges/data/validators.ts:82-89 | an entry without a start date passes the start-year check |
| ValidatorFacts.StartYearListsMissingFirstYearAsEmpty | src/pages/challenges/data/validators.ts:671-681 | with no first year and a second year y, the course start-year criterion reads "Anime must start airing in  or y", since `join` prints a missing element as "" |
| ValidatorFacts.ScoreTextExamples | src/pages/challenges/data/validators.ts:374-384 | thresholds print as JavaScript prints them: 7.85, 7.5, 7 and 10 |
| ValidatorFacts.SourceIgnoresCase | src/pages/challenges/data/validators.ts:236-245 | the source check passes exactly when some listed source equals the anime's source ignoring case |
| ValidatorFacts.CompanyIsCaseSensitive | src/pages/challenges/data/validators.ts:500-512 | "mappa" does not match a studio named "MAPPA" |
| ValidatorFacts.CourseCompanyIgnoresCase | src/pages/challenges/data/validators.ts:591-605 | the course company check passes exactly when some company equals the parameter ignoring case |
| ValidatorFacts.CourseCompanyMatchesOtherCase | src/pages/challenges/data/validators.ts:591-605 | the course parameter "mappa" matches a studio named "MAPPA" |
| ValidatorFacts.TagsCountRepeats | src/pages/challenges/data/validators.ts:268-278 | a tag listed twice counts twice towards the required number |
| ValidatorFacts.SeasonsPartitionMonths | src/pages/challenges/data/validators.ts:627-643 | every month 1..12 lies in exactly one season |
| ValidatorFacts.UniqueAnimeIff | src/pages/challenges/data/validators.ts:65-80 | the anime is unique exactly when no other entry holds an anime with its MAL id |
| ValidatorFacts.UnattestedInScopeFails | src/pages/challenges/data/validators.ts:110-119 | one unattested manual validator in scope fails the manual check |
| ValidatorFacts.UnattestedManualCheck | src/pages/challenges/data/validators.ts:110-119 | with nothing attested, the manual check passes exactly when no manual validator applies to the course |
| ValidatorFacts.EmptiedExtraInfoCheck | src/pages/challenges/data/validators.ts:121-131 | with every value empty, the extra-info check passes exactly when no required item applies to the course |
| ValidatorFacts.ExtraInfoCheckReadsScopedItems | src/pages/challenges/data/validators.ts:121-131 | the extra-info check passes exactly when every required item in scope holds a value |
| ValidatorFacts.NewMalIdFailsManualCheck | src/pages/challenges/Course.tsx:61-74 | after a MAL id change, an entry fails the manual check under any course some validator applies to |
| ValidatorFacts.NewMalIdFailsExtraInfoCheck | src/pages/challenges/Course.tsx:61-74 | after a MAL id change, an entry fails the extra-info check under any course some required item applies to |
| ValidatorFacts.SeededEntryFailsManualCheck | src/pages/challenges/data/data.ts:2747-2782 | a seeded entry fails the manual check under every course while an unshadowed challenge-level criterion exists |
| ValidatorFacts.UnattestedManualValidatorRejects | src/pages/challenges/data/validators.ts:12-41 | validateAnime rejects an entry while an in-scope manual validator is unattested |
| Catalog.ChallengeList | src/pages/challenges/data/data.ts:361-2722 | the catalog lists 192 challenges |
| CatalogFacts.ChallengeIdsDistinct | src/pages/challenges/data/data.ts:361-2722 | the challenge ids are distinct |
| CatalogFacts.CourseValidatorsReadOwnCourse | src/pages/challenges/data/data.ts:61-359 | each whole-course validator of a course record reads its own course's parameters, and that course declares parameters |
| CatalogFacts.DefaultRecordStored | src/pages/challenges/data/data.ts:2824-2838 | for any catalog whose course records are COURSE_DATA (CATALOG is one), every course declaring parameters gets its default record |
| CatalogFacts.SodaDefaults | src/pages/challenges/data/data.ts:83-90 | Soda's company parameter defaults to "" |
| CatalogFacts.LasagnaDefaults | src/pages/challenges/data/data.ts:185-198 | Lasagna's season defaults to "Winter" |
| CatalogFacts.FishAndChipsDefaults | src/pages/challenges/data/data.ts:217-227 | both genre/theme parameters default to "" |
| CatalogFacts.DefaultRecordsDefineCourseValidators | src/pages/challenges/data/data.ts:2824-2838 | with the default records built from COURSE_DATA, no course validator of any course throws |
| CatalogFacts.ParameterReadingValidatorsCourse | src/pages/challenges/data/data.ts:61-359 | the company, season and genre/theme checks appear only in the Soda, Lasagna and Fish and Chips records |
| CatalogFacts.TwoTextParamsDefaultEmpty | src/pages/challenges/data/data.ts:2824-2838 | two text parameters with distinct names both default to "" |
| CatalogFacts.SandwichEpisodeCountNeverPasses | src/pages/challenges/data/data.ts:199-206 | with a record holding only the declared name "Number of Epidodes", the episode-count check never passes |
| CatalogFacts.SandwichDeclaresEpidodes | src/pages/challenges/data/data.ts:199-206 | Sandwich declares "Number of Epidodes" and runs the episode-count check |
| ChallengeData.HashManualValidators | src/pages/challenges/data/data.ts:2724-2735 | one unattested record with the given scope under the hash of each text, and no other key |
| ChallengeData.GetManualValidatorsForChallenge | src/pages/challenges/data/data.ts:2737-2745 | exactly the challenge's and the course's manual criteria |
| ChallengeData.DefaultExtraInfo | src/pages/challenges/data/data.ts:2755-2760 | one empty, required, unscoped item per default label, or none |
| ChallengeData.CourseLabels | src/pages/challenges/data/data.ts:2766-2773 | one empty, required item scoped to the course per course label |
| ChallengeData.InitialData | src/pages/challenges/data/data.ts:2747-2782 | one seeded entry under each challenge id, in catalog order |
| ChallengeData.GenerateChallengeData | src/pages/challenges/data/data.ts:2747-2782 | the nested loops build exactly the seeded data |
| ChallengeData.InitialDataShape | src/pages/challenges/data/data.ts:2750-2763 | seeded entries have their own id, empty user fields, no anime and the challenge's courses |
| ChallengeData.CoursesExtraInfoItems | src/pages/challenges/data/data.ts:2765-2773 | every pushed item is empty, required, and scoped to one of the challenge's courses that declares its label |
| ChallengeData.SeededExtraInfo | src/pages/challenges/data/data.ts:2755-2773 | the default labels come first and unscoped; the course labels follow, one course each |
| ChallengeData.CoursesManualValidatorsShape | src/pages/challenges/data/data.ts:2775-2778 | every merged record is unattested and scoped to a course whose criteria hash to its key, and every course's hashes are keys |
| ChallengeData.SeededManualValidators | src/pages/challenges/data/data.ts:2762-2778 | every challenge and course hash is a key, nothing is attested, and unscoped records come from the challenge |
| ChallengeData.ManualCriteriaAreSeeded | src/pages/challenges/data/data.ts:2737-2782 | every manual criterion listed for a challenge under one of its courses has a seeded record |
| ChallengeData.EnabledFold | src/pages/challenges/data/data.ts:2797-2803 | the folded map holds exactly the folded courses, each mapped to its enablement |
| ChallengeData.GetEnabledCourses | src/pages/challenges/data/data.ts:2784-2804 | every course is a key, and it is enabled exactly when its group is enabled and has it selected |
| ChallengeData.IsCourseEnabledByGroup | src/pages/challenges/data/data.ts:2785-2794 | the enum test chain picks the group the course belongs to |
| ChallengeData.EnabledCoursesPerGroup | src/pages/challenges/data/data.ts:2784-2804 | at most one course per group is enabled, and the selected course of an enabled group is |
| ChallengeData.EnabledEntries | src/pages/challenges/data/data.ts:2806-2822 | every kept entry comes from the data and has an enabled course |
| ChallengeData.GetEnabledChallenges | src/pages/challenges/data/data.ts:2806-2822 | the loop keeps exactly the entries with an enabled course, in order |
| ChallengeData.EnabledEntriesKeys | src/pages/challenges/data/data.ts:2806-2822 | an id is kept exactly when its entry has an enabled course |
| ChallengeData.EnabledEntriesSubMap | src/pages/challenges/data/data.ts:2806-2822 | a kept id keeps its entry |
| ChallengeData.DefaultParamsUndeclared | src/pages/challenges/data/data.ts:2828-2834 | an undeclared name has no default |
| ChallengeData.DefaultParamsDeclared | src/pages/challenges/data/data.ts:2828-2834 | a declared name, not declared again later, defaults to its first value or "" |
| ChallengeData.ValidatorInfoFold | src/pages/challenges/data/data.ts:2824-2838 | the folded map holds the folded courses that declare parameters, each with its default record |
| ChallengeData.GenerateCourseValidatorInfo | src/pages/challenges/data/data.ts:2824-2838 | exactly the courses that declare parameters get a record, and it is their default record |
| Templates.MatchAtStart | src/pages/settings/utils.ts:57 | a match anchored at the start is a non-empty key without "}" that the text starts with in braces |
| Templates.MatchAtStartIff | src/pages/settings/utils.ts:57 | the anchored match succeeds exactly on a text beginning with a placeholder |
| Templates.Templates | src/pages/settings/utils.ts:57 | every key the global scan captures is non-empty and free of "}" |
| Templates.TemplatesPlain | src/pages/settings/utils.ts:57 | a text without "{" has no matches |
| Templates.TemplatesAfterPlaceholder | src/pages/settings/utils.ts:57 | a text beginning with a placeholder yields its key, then the keys of the text behind it |
| Templates.TemplatesOfPair | src/pages/settings/utils.ts:57 | two adjacent placeholders yield both keys in order |
| Templates.TemplatesAfterPlain | src/pages/settings/utils.ts:57 | the scan skips plain text and finds the placeholder after it |
| Templates.ReplaceFirst | src/pages/settings/utils.ts:63 | a string pattern that does not occur leaves the text as it is |
| Templates.ReplaceFirstAt | src/pages/settings/utils.ts:63 | only the first occurrence of the pattern is replaced |
| Templates.Get | src/pages/settings/utils.ts:62 | a missing key gives "" |
| Templates.ReplaceFirstAtStart | src/pages/settings/utils.ts:63 | a text starting with the pattern has that prefix replaced and the rest kept |
| Templates.ApplyAllSnoc | src/pages/settings/utils.ts:61-64 | each further key replaces its placeholder in the output of the keys before it |
| Templates.ReplaceTemplates | src/pages/settings/utils.ts:56-67 | the loop returns the text with each match replaced in turn in the current output |
| Templates.RenderedPlain | src/pages/settings/utils.ts:56-67 | a text without placeholders is returned unchanged |
| Templates.RenderedOne | src/pages/settings/utils.ts:56-67 | one placeholder between plain texts is replaced by its value, or "" for a missing key |
| Templates.RenderedValueCapturesLaterPlaceholder | src/pages/settings/utils.ts:56-67 | a value that holds a later placeholder receives that placeholder's value, and the template's own later placeholder stays |
| Report.CourseColor | src/pages/settings/utils.ts:13-19 | each group's colour is six hex digits |
| Report.LegendToColor | src/pages/settings/utils.ts:69-77 | no start date gives the to-watch colour, a start without end the watching colour, both the completed colour |
| Report.FormatDate | src/pages/settings/utils.ts:79-101 | only the empty date formats as "" |
| Report.MonthAbbreviationOfPad2 | src/pages/settings/utils.ts:84-100 | a two-digit month 01..12 maps to its abbreviation |
| Report.FormatIsoDate | src/pages/settings/utils.ts:79-101 | an ISO date formats as the month abbreviation, a space and the day |
| Report.FormatDateWithoutDashes | src/pages/settings/utils.ts:79-101 | a non-empty date without "-" formats as "undefined undefined" |
| Report.Dates | src/pages/settings/utils.ts:104-109 | the date list holds exactly the non-empty dates of the entries that have a MAL id |
| Report.ReduceMin | src/pages/settings/utils.ts:112-114 | the reduce returns a date it saw that no other date precedes |
| Report.ReduceMax | src/pages/settings/utils.ts:115-117 | the reduce returns a date it saw that no other date follows |
| Report.CalculateStartEndDates | src/pages/settings/utils.ts:103-119 | the start is the earliest start date and the finish the latest end date, or "" when no entry has one |
| Report.DatesBounds | src/pages/settings/utils.ts:103-119 | an extreme of the date list is a bound of the entries |
| Report.ItemTexts | src/pages/settings/utils.ts:141 | one text per extra-info item, in order |
| Report.FormatEntry | src/pages/settings/utils.ts:121-143 | the entry line starts with its head, and nothing follows exactly when no extra info applies to the course |
| Report.ScopedExtraInfoSkipsOtherCourses | src/pages/settings/utils.ts:129-131 | an item scoped to other courses does not change the filtered list |
| Report.FormatEntryIgnoresOtherCourses | src/pages/settings/utils.ts:121-143 | inserting an item scoped to other courses leaves the entry line unchanged |
| Report.ParamLines | src/pages/settings/utils.ts:145-157 | one line per parameter, in record order |
| Report.FormatCourseValidatorInfo | src/pages/settings/utils.ts:145-157 | a course without parameters gives "", and otherwise the text ends with a newline |
| Report.FormatCourseValidatorInfoLines | src/pages/settings/utils.ts:145-157 | splitting the text at newlines gives back one line per parameter |
| Report.CourseChallenges | src/pages/settings/utils.ts:166-168 | the course's challenges are the entries of that course with a MAL id |
| Report.CourseChallengesAppend | src/pages/settings/utils.ts:166-168 | the listed entries of a concatenation are those of each part, in order |
| Report.CourseChallengesOfOne | src/pages/settings/utils.ts:166-168 | one entry is listed exactly when it belongs to the course and has a MAL id |
| Report.EntryTexts | src/pages/settings/utils.ts:178-188 | one formatted entry per challenge, in order |
| Report.GenerateCourseText | src/pages/settings/utils.ts:159-190 | the course text is the course template rendered with the course's number, title, colour, parameters and challenges |
| Report.GroupNumber | src/pages/settings/utils.ts:25-39 | the groups are numbered 1 to 5 |
| Report.NonEmpty | src/pages/settings/utils.ts:40-41 | exactly the non-empty sections are kept |
| Report.NonEmptyAppend | src/pages/settings/utils.ts:40-41 | the kept texts of a concatenation are those of each part, in order |
| Report.NonEmptyOfOne | src/pages/settings/utils.ts:40-41 | one text is kept exactly when it is non-empty |
| Report.CoursesKeepGroupOrder | src/pages/settings/utils.ts:40-42 | the kept sections are listed in drink, starter, main, side, dessert order |
| Report.NonEmptyOfBlanks | src/pages/settings/utils.ts:40-42 | blank sections are all dropped |
| Report.Sections | src/pages/settings/utils.ts:25-39 | there is one section per group |
| Report.CoursesTextAllDisabled | src/pages/settings/utils.ts:25-42 | with every group disabled, the courses text is empty |
| Report.CourseSectionListed | src/pages/settings/utils.ts:25-39 | a disabled group contributes an empty section |
| Report.CourseSectionText | src/pages/settings/utils.ts:25-39 | the section of one group as the generator builds it |
| Report.CoursesTextOf | src/pages/settings/utils.ts:25-42 | the joined courses text |
| Report.GenerateBBCode | src/pages/settings/utils.ts:21-54 | the post is the sign-up template rendered with the courses text, the date range of the enabled entries and the config fields |
| Report.SignupStartDateIsEarliest | src/pages/settings/utils.ts:21-54 | the post's start date is at most the start date of every enabled, started entry |
| CoursePage.SetField | src/pages/challenges/Course.tsx:53-59 | exactly the edited field takes the new value |
| CoursePage.ClearedExtraInfo | src/pages/challenges/Course.tsx:63-68 | every item keeps its place and fields, with an empty value |
| CoursePage.ClearedManualValidators | src/pages/challenges/Course.tsx:69-74 | the same keys, each record marked unattested |
| CoursePage.HandleChange | src/pages/challenges/Course.tsx:51-79 | only the edited entry changes; it takes the value; a new MAL id also drops the anime and clears extra info and manual validators; ids and order are kept |
| CoursePage.GetExtraInfo | src/pages/challenges/Course.tsx:126-131 | exactly the items in scope for the course, only required ones when asked |
| CoursePage.GetManualValidators | src/pages/challenges/Course.tsx:132-137 | exactly the manual validators in scope for the course, unchanged |
| CoursePage.GetCurrentCourse | src/pages/challenges/Course.tsx:139-143 | exactly the catalog entries whose courses include the current course |
| CoursePage.GetCurrentCourseKeepsOrder | src/pages/challenges/Course.tsx:139-143 | the filtered challenges keep the catalog order |
| Types.GroupValuesMembership | src/types.ts:1-45 | a course is a member of exactly the enum of its own group |
| Types.CourseIndexInverse | src/types.ts:48-54 | each position of `COURSE_VALUES` holds the course whose index it is |
| Types.CourseValuesEnumerate | src/types.ts:48-54 | `COURSE_VALUES` lists each of the thirty courses exactly once |
| Types.ScopedExtraInfo | src/pages/challenges/data/validators.ts:121-131 | exactly the items unscoped or scoped to the course |
| Types.RequiredExtraInfo | src/pages/challenges/data/validators.ts:121-131 | exactly the required items |
| Types.ScopedExtraInfoAppend | src/pages/challenges/data/validators.ts:121-131 | the in-scope items of a concatenation are those of each part, in order |
| Types.ScopedExtraInfoOfOne | src/pages/challenges/data/validators.ts:121-131 | one item is kept exactly when it is in scope |
| Types.RequiredExtraInfoAppend | src/pages/challenges/data/validators.ts:121-131 | the required items of a concatenation are those of each part, in order |
| Types.RequiredExtraInfoOfOne | src/pages/challenges/data/validators.ts:121-131 | one item is kept exactly when it is required |
| Types.ScopedManualValidators | src/pages/challenges/data/validators.ts:110-119 | exactly the manual validators unscoped or scoped to the course |

## Left out

- Network and storage are not modelled: the anime metadata lookups, `localStorage`, and the React
  rendering and modals of the course page. The handlers `onLoadAnime`, `extraInfoModalOnSave`,
  `infoModalOnSave` and `manualValidatorsOnSave` are not modelled; they perform I/O or modal
  state changes.
- `stringHash` comes from an external library. It is a parameter, `hash: string -> nat`.
- Converting episode durations from the API's text form to minutes is not modelled. The anime
  record carries `episodeDurationMinutes` as a real number.
- Validators.ScoreText: covers thresholds given in hundredths. General JavaScript
  number-to-text conversion is not modelled.
- Validators.Eval: `validateScoreContains` reads a given `scoreText`. The anime's score is not
  converted to text.
- The `bbCode` text filters, the template bodies and the sign-up and course templates are
  parameters. Their fixed texts are not part of this model.
- Strings.ToLower: case mapping covers ASCII letters only; Unicode case folding is not modelled.
  Strings are sequences of characters, not UTF-16 code units.
- Strings.ToNumber: unary `+` is modelled for decimal digit strings and the empty string. Other
  numeric syntaxes become NaN.
- Templates.ReplaceFirst: `$` patterns in a replacement value are not interpreted, as
  `String.prototype.replace` would interpret them.
- `lodash.get` with dotted paths is modelled as a lookup in a flattened record whose keys are
  those paths.
- Fields of the anime record that null values would throw on are modelled as present. Object
  prototype keys are not modelled.
- Objects with integer-like keys: JavaScript enumerates those keys first, in numeric order. The
  model keeps insertion order for all keys. The challenge ids are integer-like, so the catalog is
  stored in numeric id order, which matches what JavaScript enumerates.
- Validators.Defined: a validator that would throw is excluded by a precondition. Such cases are
  a missing course record, a missing company parameter, an unknown season, or a missing first
  genre/theme tag when the second is needed.
- CoursePage.HandleChange: the challenge being edited must exist. An id with no entry would make
  the source spread `undefined`.
- Report.GenerateBBCode: an unset `enabled` flag is treated as `false`.
