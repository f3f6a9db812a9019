/**
 * The predicate library and the orchestrator of validators.ts. Every factory becomes a
 * `Validator` constructor and `Eval` is the closure it returns. The three loops of the library
 * (uniqueness, company initials, word-initial counting) are methods proved equal to the
 * specification functions that `Eval` uses.
 */
module Validators {
  import opened Wrappers
  import opened Strings
  import opened Records
  import opened Types
  import opened ValidatorTypes

  // ---------------------------------------------------------------------------------------
  // Text helpers

  /** `arrayToList`: "", the single item, or "a, b or c". */
  function ArrayToList(arr: seq<string>): (r: string)
    ensures |arr| == 0 ==> r == ""
    ensures |arr| == 1 ==> r == arr[0]
    ensures |arr| >= 2 ==> |r| >= 4 + |arr[|arr| - 1]| && r[|r| - 4 - |arr[|arr| - 1]|..] == " or " + arr[|arr| - 1]
  {
    if |arr| == 0 then ""
    else if |arr| == 1 then arr[0]
    else Join(arr[..|arr| - 1], ", ") + " or " + arr[|arr| - 1]
  }

  const MONTH_NAMES: seq<string> := [
    "January", "February", "March", "April", "May", "June",
    "July", "August", "September", "October", "November", "December"]

  /**
   * `numberToMonth`: the English month name of `new Date(0, num - 1)`. Month numbers outside
   * 1..12 roll over into the neighbouring years; NaN gives "Invalid Date".
   */
  function NumberToMonth(num: Option<int>): (r: string)
    ensures num.Some? && 1 <= num.value <= 12 ==> r == MONTH_NAMES[num.value - 1]
    ensures num.None? ==> r == "Invalid Date"
  {
    match num
    case None => "Invalid Date"
    case Some(n) => MONTH_NAMES[(n - 1) % 12]
  }

  /** Month numbers wrap around: 13 is January again, 0 is December. */
  lemma NumberToMonthWraps(n: int)
    ensures NumberToMonth(Some(n + 12)) == NumberToMonth(Some(n))
    ensures NumberToMonth(Some(0)) == "December" && NumberToMonth(Some(13)) == "January"
  {
    assert (n + 12 - 1) % 12 == (n - 1) % 12;
  }

  /** `${year}-${month}-${day}`: no zero padding. */
  function DateText(d: DateParts): string
  {
    NatToString(d.year) + "-" + NatToString(d.month) + "-" + NatToString(d.day)
  }

  /** `${n}` for a score threshold given in hundredths, as JavaScript prints the number. */
  function ScoreText(hundredths: nat): (r: string)
    ensures hundredths % 100 == 0 ==> r == NatToString(hundredths / 100)
  {
    var whole := NatToString(hundredths / 100);
    var frac := hundredths % 100;
    if frac == 0 then whole
    else if frac % 10 == 0 then whole + "." + [DigitChar(frac / 10)]
    else whole + "." + [DigitChar(frac / 10), DigitChar(frac % 10)]
  }

  function AtLeastText(exp: Exp): string
  {
    match exp
    case Gte => "at least"
    case Lte => "at most"
  }

  function OnOrText(exp: Exp): string
  {
    match exp
    case Gte => "at or above"
    case Lte => "at or below"
  }

  /** `exp === 'gte' ? x >= n : x <= n` */
  predicate Holds(x: int, exp: Exp, n: int)
  {
    match exp
    case Gte => x >= n
    case Lte => x <= n
  }

  predicate HoldsReal(x: real, exp: Exp, n: real)
  {
    match exp
    case Gte => x >= n
    case Lte => x <= n
  }

  /** `exp === 'gt' ? x > n : x < n` */
  predicate HoldsStrict(x: int, exp: StrictExp, n: int)
  {
    match exp
    case Gt => x > n
    case Lt => x < n
  }

  function Abs(x: int): (r: nat)
    ensures r == x || r == -x
  {
    if x < 0 then -x else x
  }

  // The character-class regular expressions of the library, as tests for some matching character.

  /** `s.match(/[a-z0-9]/i)` */
  predicate HasAlnum(s: string) { exists i :: 0 <= i < |s| && IsAlnum(s[i]) }
  /** `s.match(/[^a-zA-Z0-9]/)` */
  predicate HasNonAlnum(s: string) { exists i :: 0 <= i < |s| && !IsAlnum(s[i]) }
  /** `s.match(/[a-z]/i)` */
  predicate HasLetter(s: string) { exists i :: 0 <= i < |s| && IsAsciiLetter(s[i]) }
  /** `s.match(/[A-Z]/)` */
  predicate HasUpper(s: string) { exists i :: 0 <= i < |s| && IsAsciiUpper(s[i]) }
  /** `s.match(/[^A-Z]/)` */
  predicate HasNonUpper(s: string) { exists i :: 0 <= i < |s| && !IsAsciiUpper(s[i]) }

  function StatName(s: Stat): string
  {
    match s
    case Watching => "watching"
    case Completed => "completed"
    case OnHold => "onHold"
    case Ptw => "ptw"
    case Dropped => "dropped"
  }

  function StatValue(st: Statistics, s: Stat): int
  {
    match s
    case Watching => st.watching
    case Completed => st.completed
    case OnHold => st.onHold
    case Ptw => st.ptw
    case Dropped => st.dropped
  }

  /** `[...licensors, ...producers, ...studios]` */
  function Companies(a: AnimeDetails): seq<string>
  {
    a.licensors + a.producers + a.studios
  }

  /** `[...genres, ...themes, ...demographics]` */
  function Tags(a: AnimeDetails): seq<string>
  {
    a.genres + a.themes + a.demographics
  }

  /** `tags.filter((g) => required.includes(g)).length`: every occurrence counts. */
  function CountMatching(tags: seq<string>, required: seq<string>): (n: nat)
    ensures n <= |tags|
    ensures n == 0 <==> forall i :: 0 <= i < |tags| ==> tags[i] !in required
    decreases |tags|
  {
    if |tags| == 0 then 0
    else (if tags[0] in required then 1 else 0) + CountMatching(tags[1..], required)
  }

  lemma {:induction false} CountMatchingAppend(xs: seq<string>, ys: seq<string>, required: seq<string>)
    ensures CountMatching(xs + ys, required) == CountMatching(xs, required) + CountMatching(ys, required)
    decreases |xs|
  {
    if |xs| == 0 {
      assert xs + ys == ys;
    } else {
      assert (xs + ys)[1..] == xs[1..] + ys;
      CountMatchingAppend(xs[1..], ys, required);
    }
  }

  /** The labels `arrayToList` joins for a starts-with check. */
  function StartLabels(letters: seq<string>, other: bool): seq<string>
  {
    letters + (if other then ["a number/symbol"] else [])
  }

  /** The first-character test of the title and company starts-with checks. */
  predicate StartQualifies(first: string, letters: seq<string>, other: bool)
  {
    first in letters || (other && HasNonUpper(first))
  }

  // ---------------------------------------------------------------------------------------
  // validateUniqueAnime

  /** Another entry (by id) that holds the anime with this MAL id. */
  predicate Conflicts(challenge: ChallengeEntry, entryId: string, malId: nat)
  {
    challenge.id != entryId && challenge.animeData.Some? && challenge.animeData.value.malId == malId
  }

  /** The position of the first conflicting entry, in iteration order. */
  function FirstConflict(challenges: seq<ChallengeEntry>, entryId: string, malId: nat): (r: Option<nat>)
    ensures r.Some? ==> r.value < |challenges| && Conflicts(challenges[r.value], entryId, malId)
    ensures r.Some? ==> forall j :: 0 <= j < r.value ==> !Conflicts(challenges[j], entryId, malId)
    ensures r.None? <==> forall j :: 0 <= j < |challenges| ==> !Conflicts(challenges[j], entryId, malId)
    decreases |challenges|
  {
    if |challenges| == 0 then None
    else if Conflicts(challenges[0], entryId, malId) then Some(0)
    else
      match FirstConflict(challenges[1..], entryId, malId)
      case None => None
      case Some(k) => Some(k + 1)
  }

  /** What `validateUniqueAnime(challengeData)` gives for this anime and entry. */
  function UniqueAnimeStatus(challengeData: ChallengeData, anime: AnimeDetails, entry: ChallengeEntry): ValidatorStatus
  {
    var challenges := Values(challengeData);
    match FirstConflict(challenges, entry.id, anime.malId)
    case Some(k) => ValidatorStatus("Anime already used in challenge " + challenges[k].id, false)
    case None => ValidatorStatus("Anime must be unique", true)
  }

  /** The loop of `validateUniqueAnime`, with its early return. */
  method UniqueAnime(challengeData: ChallengeData, anime: AnimeDetails, entry: ChallengeEntry) returns (status: ValidatorStatus)
    ensures status == UniqueAnimeStatus(challengeData, anime, entry)
  {
    var challenges := Values(challengeData);
    var i := 0;
    while i < |challenges|
      invariant 0 <= i <= |challenges|
      invariant forall j :: 0 <= j < i ==> !Conflicts(challenges[j], entry.id, anime.malId)
    {
      var challenge := challenges[i];
      if entry.id == challenge.id {
        i := i + 1;
        continue;
      }
      if challenge.animeData.Some? && challenge.animeData.value.malId == anime.malId {
        return ValidatorStatus("Anime already used in challenge " + challenge.id, false);
      }
      i := i + 1;
    }
    return ValidatorStatus("Anime must be unique", true);
  }

  // ---------------------------------------------------------------------------------------
  // validateCompanyStartsWith

  /** Some company's uppercased first character qualifies. */
  predicate AnyCompanyStartsWith(companies: seq<string>, letters: seq<string>, other: bool)
  {
    exists i :: 0 <= i < |companies| && StartQualifies(CharAt0(ToUpper(companies[i])), letters, other)
  }

  function CompanyStartsWithStatus(anime: AnimeDetails, letters: seq<string>, other: bool): ValidatorStatus
  {
    ValidatorStatus(
      "A Licensor/Producer/Studio must start with " + ArrayToList(StartLabels(letters, other)),
      AnyCompanyStartsWith(Companies(anime), letters, other))
  }

  /** The loop of `validateCompanyStartsWith`: the first qualifying company ends the search. */
  method CompanyStartsWith(anime: AnimeDetails, letters: seq<string>, other: bool) returns (status: ValidatorStatus)
    ensures status == CompanyStartsWithStatus(anime, letters, other)
  {
    var criterion := "A Licensor/Producer/Studio must start with " + ArrayToList(StartLabels(letters, other));
    var companies := Companies(anime);
    var i := 0;
    while i < |companies|
      invariant 0 <= i <= |companies|
      invariant forall j :: 0 <= j < i ==> !StartQualifies(CharAt0(ToUpper(companies[j])), letters, other)
    {
      var companyFirstLetter := CharAt0(ToUpper(companies[i]));
      if companyFirstLetter in letters || (other && HasNonUpper(companyFirstLetter)) {
        return ValidatorStatus(criterion, true);
      }
      i := i + 1;
    }
    return ValidatorStatus(criterion, false);
  }

  // ---------------------------------------------------------------------------------------
  // validateWordsWithSameLetter

  /** `.filter((w) => w.match(/[a-z]/i)).map((w) => w.charAt(0))` */
  function Initials(words: seq<string>): (r: seq<string>)
    ensures |r| <= |words|
    ensures forall i :: 0 <= i < |r| ==> |r[i]| == 1
    decreases |words|
  {
    if |words| == 0 then []
    else if HasLetter(words[0]) then [CharAt0(words[0])] + Initials(words[1..])
    else Initials(words[1..])
  }

  /** The initials of a concatenation are the initials of each part, in order. */
  lemma {:induction false} InitialsAppend(xs: seq<string>, ys: seq<string>)
    ensures Initials(xs + ys) == Initials(xs) + Initials(ys)
    decreases |xs|
  {
    if |xs| == 0 {
      assert xs + ys == ys;
    } else {
      assert (xs + ys)[1..] == xs[1..] + ys;
      InitialsAppend(xs[1..], ys);
    }
  }

  /** One word contributes its first character exactly when it contains a letter. */
  lemma InitialsOfWord(w: string)
    ensures Initials([w]) == if HasLetter(w) then [CharAt0(w)] else []
  {
    assert [w][1..] == [];
  }

  /** The initials of the space-separated words of the lowercased title that contain a letter. */
  function TitleInitials(title: string): seq<string>
  {
    Initials(Split(ToLower(title), ' '))
  }

  /** Some initial is shared by at least `count` words. */
  predicate SameLetterCount(initials: seq<string>, count: nat)
  {
    exists i :: 0 <= i < |initials| && multiset(initials)[initials[i]] >= count
  }

  /**
   * The counting `reduce` of `validateWordsWithSameLetter` and the `some` over its values. The
   * dictionary is a map the loop updates one word at a time.
   */
  method WordsWithSameLetter(title: string, count: nat) returns (valid: bool)
    ensures valid == SameLetterCount(TitleInitials(title), count)
  {
    var words := TitleInitials(title);
    var letterCount: map<string, nat> := map[];
    var i := 0;
    while i < |words|
      invariant 0 <= i <= |words|
      invariant forall x :: x in letterCount <==> x in words[..i]
      invariant forall x :: x in letterCount ==> letterCount[x] == multiset(words[..i])[x]
    {
      var letter := words[i];
      var old_count := if letter in letterCount then letterCount[letter] else 0;
      assert words[..i + 1] == words[..i] + [letter];
      letterCount := letterCount[letter := old_count + 1];
      i := i + 1;
    }
    assert words[..i] == words;
    valid := AnyCountReaches(letterCount, count);
    CountsDecideSameLetter(words, letterCount, count);
  }

  /** `Object.values(letterCount).some((count) => count >= wordCount)` */
  method AnyCountReaches(letterCount: map<string, nat>, count: nat) returns (valid: bool)
    ensures valid <==> exists x :: x in letterCount.Keys && letterCount[x] >= count
  {
    valid := false;
    var pending := letterCount.Keys;
    while pending != {}
      invariant pending <= letterCount.Keys
      invariant valid <==> exists x :: x in letterCount.Keys - pending && letterCount[x] >= count
      decreases |pending|
    {
      var x :| x in pending;
      if letterCount[x] >= count {
        valid := true;
      }
      pending := pending - {x};
    }
    assert letterCount.Keys - pending == letterCount.Keys;
  }

  /** A dictionary that counts every initial decides whether some initial reaches `count`. */
  lemma CountsDecideSameLetter(words: seq<string>, letterCount: map<string, nat>, count: nat)
    requires forall x :: x in letterCount <==> x in words
    requires forall x :: x in letterCount ==> letterCount[x] == multiset(words)[x]
    ensures (exists x :: x in letterCount.Keys && letterCount[x] >= count) <==> SameLetterCount(words, count)
  {
    if exists x :: x in letterCount.Keys && letterCount[x] >= count {
      var x :| x in letterCount.Keys && letterCount[x] >= count;
      var k :| 0 <= k < |words| && words[k] == x;
      assert multiset(words)[words[k]] >= count;
    }
    if SameLetterCount(words, count) {
      var k :| 0 <= k < |words| && multiset(words)[words[k]] >= count;
      assert words[k] in letterCount.Keys;
    }
  }

  // ---------------------------------------------------------------------------------------
  // Whole-course parameters

  /** `config.courseValidatorInfo[course][name]`, undefined when the record lacks the key. */
  function Param(p: ValidatorParams, course: Course, name: string): Option<string>
    requires course in p.config.courseValidatorInfo
  {
    Lookup(p.config.courseValidatorInfo[course], name)
  }

  /** The seasons' month lists of `cvalidateSeason`. */
  function SeasonMonths(season: string): (r: Option<seq<nat>>)
    ensures r.Some? <==> season in ["Winter", "Spring", "Summer", "Fall"]
  {
    if season == "Winter" then Some([1, 2, 3])
    else if season == "Spring" then Some([4, 5, 6])
    else if season == "Summer" then Some([7, 8, 9])
    else if season == "Fall" then Some([10, 11, 12])
    else None
  }

  /** A string value is truthy when it is defined and not empty. */
  /** An array element as `join` renders it: a missing value becomes "". */
  function Joined(o: Option<string>): string
  {
    if o.Some? then o.value else ""
  }

  predicate Truthy(o: Option<string>)
  {
    o.Some? && o.value != ""
  }

  /**
   * The validator runs without throwing. Every whole-course validator reads its course's record
   * in `config.courseValidatorInfo`; the company check lowercases its parameter, the season check
   * indexes its month table, and the genre/theme check lowercases the first tag and, when that
   * one is not among the anime's tags, the second.
   */
  predicate Defined(v: Validator, p: ValidatorParams)
  {
    IsCourseValidator(v) ==>
      var c := v.course;
      c in p.config.courseValidatorInfo
      && (v.CValidateCompany? ==> Param(p, c, "Licensor/Producor/Studio").Some?)
      && (v.CValidateSeason? ==>
            Param(p, c, "Season").Some? && SeasonMonths(Param(p, c, "Season").value).Some?)
      && (v.CValidateGenreTheme? ==>
            Param(p, c, "Genre/Theme #1").Some?
            && (ToLower(Param(p, c, "Genre/Theme #1").value) in LowerAll(p.anime.genres + p.anime.themes)
                || Param(p, c, "Genre/Theme #2").Some?))
  }

  // ---------------------------------------------------------------------------------------
  // The closures

  /** A validator that reads the course's runtime parameters (one of the `cvalidate*` family). */
  predicate IsCourseValidator(v: Validator)
  {
    v.CValidateBroadcastDate? || v.CValidateCompany? || v.CValidateDemographic? || v.CValidateStartMonth?
    || v.CValidateSeason? || v.CValidateEpisodeCount? || v.CValidateGenreTheme? || v.CValidateStartYear?
    || v.CValidateType? || v.CValidateStartsWith?
  }

  /** What the closure built by `v`'s factory returns for `p`. */
  function Eval(v: Validator, p: ValidatorParams): ValidatorStatus
    requires Defined(v, p)
  {
    if IsCourseValidator(v) then EvalCourse(v, p) else EvalAnime(v, p)
  }

  /** What the closure built by a `validate*` factory returns for `p`. */
  function EvalAnime(v: Validator, p: ValidatorParams): ValidatorStatus
    requires !IsCourseValidator(v)
  {
    var a := p.anime;
    match v
    case ValidateUniqueAnime(data) => UniqueAnimeStatus(data, a, p.entry)
    case ValidateStartYear =>
      ValidatorStatus("Anime must be started in 2026", p.entry.startDate == "" || "2026" <= p.entry.startDate)
    case ValidateEndYear =>
      ValidatorStatus("Anime must be finished in 2026", p.entry.endDate == "" || "2026" <= p.entry.endDate)
    case ValidateStartEndDates =>
      ValidatorStatus("Anime must be started before it is finished",
        p.entry.startDate == "" || p.entry.endDate == "" || JsLe(p.entry.startDate, p.entry.endDate))
    case ValidateManualValidators =>
      var scoped := ScopedManualValidators(p.entry.manualValidators, p.course);
      ValidatorStatus("All manual validators must be validated", forall h :: h in scoped ==> scoped[h].valid)
    case ValidateExtraInfo =>
      var items := ScopedExtraInfo(RequiredExtraInfo(p.entry.extraInfo), p.course);
      ValidatorStatus("All default extra info must be specified", forall i :: 0 <= i < |items| ==> items[i].value != "")
    case ValidateType(types) =>
      ValidatorStatus("Anime must be of type " + ArrayToList(types), a.mediaType in types)
    case ValidateEpisodeCount(n, exp) =>
      ValidatorStatus("Anime must have " + AtLeastText(exp) + " " + NatToString(n) + " episodes",
        Holds(a.episodes, exp, n))
    case ValidateRuntime(n, exp) =>
      ValidatorStatus("Anime must have " + AtLeastText(exp) + " " + NatToString(n) + " minutes of runtime",
        HoldsReal(a.episodeDurationMinutes * a.episodes as real, exp, n as real))
    case ValidateEpisodeDuration(n, exp) =>
      ValidatorStatus("Anime must have " + AtLeastText(exp) + " " + NatToString(n) + " minutes per episode",
        HoldsReal(a.episodeDurationMinutes, exp, n as real))
    case ValidateStartDate(date, exp) =>
      var startDate := DateText(a.aired.from);
      ValidatorStatus(
        "Anime must " + (if exp == Gte then "start airing on or after" else "start airing on or before") + " " + date,
        if exp == Gte then JsLe(date, startDate) else JsLe(startDate, date))
    case ValidateBroadcastDate(days) =>
      ValidatorStatus("Anime must air on " + ArrayToList(days), a.aired.day in days)
    case ValidateStartMonth(months) =>
      ValidatorStatus(
        "Anime must start airing in " + ArrayToList(seq(|months|, i requires 0 <= i < |months| => NumberToMonth(Some(months[i])))),
        a.aired.from.month in months)
    case ValidateTitleUsername =>
      var animeFirstLetter := CharAt0(a.title);
      var usernameFirstLetter := CharAt0(p.config.username);
      ValidatorStatus("Username must start with same letter as anime title",
        if !HasAlnum(animeFirstLetter) then HasAlnum(usernameFirstLetter)
        else ToLower(animeFirstLetter) == ToLower(usernameFirstLetter))
    case ValidateSource(sources) =>
      ValidatorStatus("Anime must be from " + ArrayToList(sources), ToLower(a.source) in LowerAll(sources))
    case ValidateRating(ratings) =>
      ValidatorStatus("Anime must have a rating of " + ArrayToList(ratings), a.rating in ratings)
    case ValidateGenreCount(n, exp) =>
      ValidatorStatus("Anime must have " + AtLeastText(exp) + " " + NatToString(n) + " genres",
        Holds(|a.genres|, exp, n))
    case ValidateTags(required, n) =>
      ValidatorStatus(
        "Anime must have " + NatToString(n) + " of the following tags: " + ArrayToList(required),
        CountMatching(Tags(a), required) >= n)
    case ValidateFinishedAiring =>
      ValidatorStatus("Anime must have finished airing before you started it",
        p.entry.startDate == "" || JsLe(DateText(a.aired.to), p.entry.startDate))
    case ValidateSongCountEquals(op, ed) =>
      ValidatorStatus("Anime must have " + NatToString(op) + " openings and " + NatToString(ed) + " endings",
        a.openingCount == op && a.endingCount == ed)
    case ValidateSongCountAtLeast(op, ed) =>
      ValidatorStatus("Anime must have at least " + NatToString(op) + " openings or " + NatToString(ed) + " endings",
        a.openingCount >= op || a.endingCount >= ed)
    case ValidateAirTime(times) =>
      ValidatorStatus("Anime must air in one of the following hours: " + ArrayToList(times),
        Split(a.aired.time, ':')[0] in times)
    case ValidateMainCharacterCountEquals(n) =>
      ValidatorStatus("Anime must have " + NatToString(n) + " main characters", a.mainCharacters == n)
    case ValidateMainCharacterCountAtLeast(n) =>
      ValidatorStatus("Anime must have at least " + NatToString(n) + " main characters", a.mainCharacters >= n)
    case ValidateMoreMainThanSupporting =>
      ValidatorStatus("Anime must have more main characters than supporting characters",
        a.mainCharacters > a.supportingCharacters)
    case ValidatePopularity(n, exp) =>
      ValidatorStatus(
        "Anime must be " + (if exp == Gt then "lower than" else "higher than") + " " + NatToString(n) + " in popularity",
        HoldsStrict(a.popularity, exp, n))
    case ValidateScore(h, exp) =>
      ValidatorStatus("Anime must be " + OnOrText(exp) + " " + ScoreText(h) + " in rating",
        HoldsReal(a.score, exp, h as real / 100.0))
    case ValidateScoreContains(texts) =>
      ValidatorStatus("Anime score must contain one of the following: " + ArrayToList(texts),
        exists i :: 0 <= i < |texts| && Contains(a.scoreText, texts[i]))
    case ValidateFavorites(n, exp) =>
      ValidatorStatus("Anime must have " + AtLeastText(exp) + " " + NatToString(n) + " favorites",
        Holds(a.favorites, exp, n))
    case ValidateRankingPopularityDiff(n, exp) =>
      ValidatorStatus(
        "Anime must have a ranking/popularity difference of " + AtLeastText(exp) + " " + NatToString(n),
        Holds(Abs(a.rank - a.popularity), exp, n))
    case ValidateMALIdContains(s) =>
      ValidatorStatus("Anime must have MAL ID containing " + s, Contains(NatToString(a.malId), s))
    case ValidateWordsWithSameLetter(n) =>
      ValidatorStatus(
        "Anime must have at least " + NatToString(n) + " words starting with the same letter",
        SameLetterCount(TitleInitials(a.title), n))
    case ValidateTitleStartsWith(letters, other) =>
      ValidatorStatus("Anime title must start with " + ArrayToList(StartLabels(letters, other)),
        StartQualifies(CharAt0(ToUpper(a.title)), letters, other))
    case ValidateCompanyStartsWith(letters, other) => CompanyStartsWithStatus(a, letters, other)
    case ValidateCompany(companies) =>
      ValidatorStatus("Anime must be from one of: " + ArrayToList(companies),
        exists i :: 0 <= i < |companies| && companies[i] in Companies(a))
    case ValidateStudioProducerStartInUsername =>
      var makers := a.studios + a.producers;
      ValidatorStatus(
        "Anime must be made by a studio/producer which starts with a letter in your username.",
        exists i :: 0 <= i < |makers| && HasUpper(ToUpper(CharAt0(makers[i])))
          && Contains(ToUpper(p.config.username), ToUpper(CharAt0(makers[i]))))
    case ValidateStatistics(stat, n, exp) =>
      ValidatorStatus(
        "Anime must have " + (if exp == Gt then "more than" else "less than") + " " + NatToString(n) + " " + StatName(stat) + " members",
        HoldsStrict(StatValue(a.statistics, stat), exp, n))
    case ValidateTitleNonAlphanumericCount(n, exp) =>
      ValidatorStatus(
        "Anime title must have " + AtLeastText(exp) + " " + NatToString(n) + " different non-alphanumeric characters",
        Holds(|set c | c in a.title && !IsAlnum(c) && c != ' '|, exp, n))
    case ValidateTitleUsernameShareCount(n, exp) =>
      var username := ToUpper(p.config.username);
      ValidatorStatus(
        "Anime title must have " + AtLeastText(exp) + " " + NatToString(n) + " shared characters",
        Holds(|set c | c in ToUpper(a.title) && c in username|, exp, n))
    case _ => assert false; ValidatorStatus("", false)
  }

  /** `cvalidateCompany`: the stored company, compared without case against the anime's companies. */
  function CourseCompanyStatus(p: ValidatorParams, c: Course): ValidatorStatus
    requires c in p.config.courseValidatorInfo && Param(p, c, "Licensor/Producor/Studio").Some?
  {
    var company := Param(p, c, "Licensor/Producor/Studio").value;
    ValidatorStatus("Anime must be from " + company, ToLower(company) in LowerAll(Companies(p.anime)))
  }

  /** `cvalidateSeason`: the anime starts airing in a month of the stored season. */
  function CourseSeasonStatus(p: ValidatorParams, c: Course): ValidatorStatus
    requires c in p.config.courseValidatorInfo && Param(p, c, "Season").Some?
    requires SeasonMonths(Param(p, c, "Season").value).Some?
  {
    var season := Param(p, c, "Season").value;
    ValidatorStatus("Anime must start airing in " + season, p.anime.aired.from.month in SeasonMonths(season).value)
  }

  /**
   * `cvalidateGenreTheme`: one of the two stored tags is among the anime's genres and themes; the
   * second is read only when the first is not found.
   */
  function CourseGenreThemeStatus(p: ValidatorParams, c: Course): ValidatorStatus
    requires c in p.config.courseValidatorInfo && Param(p, c, "Genre/Theme #1").Some?
    requires ToLower(Param(p, c, "Genre/Theme #1").value) in LowerAll(p.anime.genres + p.anime.themes)
      || Param(p, c, "Genre/Theme #2").Some?
  {
    var tags := LowerAll(p.anime.genres + p.anime.themes);
    var tag1 := Param(p, c, "Genre/Theme #1").value;
    var tag2 := Param(p, c, "Genre/Theme #2");
    ValidatorStatus(
      "Anime must be tagged with " + (if Truthy(tag2) then ArrayToList([tag1, tag2.value]) else tag1),
      ToLower(tag1) in tags || ToLower(tag2.value) in tags)
  }

  /** What the closure built by a `cvalidate*` factory returns for `p`. */
  function EvalCourse(v: Validator, p: ValidatorParams): ValidatorStatus
    requires IsCourseValidator(v) && Defined(v, p)
  {
    var a := p.anime;
    var c := v.course;
    if v.CValidateBroadcastDate? then
      var day := Param(p, c, "Day");
      ValidatorStatus("Anime must air on " + Interp(day), day == Some(a.aired.day))
    else if v.CValidateCompany? then
      CourseCompanyStatus(p, c)
    else if v.CValidateDemographic? then
      var demographic := Param(p, c, "Demographic");
      ValidatorStatus("Anime must be tagged with " + Interp(demographic),
        demographic.Some? && demographic.value in a.demographics)
    else if v.CValidateStartMonth? then
      var month := ToNumber(Param(p, c, "Month"));
      ValidatorStatus("Anime must have start airing in " + NumberToMonth(if month.Some? then Some(month.value) else None),
        month == Some(a.aired.from.month))
    else if v.CValidateSeason? then
      CourseSeasonStatus(p, c)
    else if v.CValidateEpisodeCount? then
      var count := ToNumber(Param(p, c, "Number of Episodes"));
      ValidatorStatus("Anime must have " + NumberText(count) + " episodes", count.Some? && count.value == a.episodes)
    else if v.CValidateGenreTheme? then
      CourseGenreThemeStatus(p, c)
    else if v.CValidateStartYear? then
      var year := NatToString(a.aired.from.year);
      var year1 := Param(p, c, "Year #1");
      var year2 := Param(p, c, "Year #2");
      ValidatorStatus(
        "Anime must start airing in " + (if Truthy(year2) then ArrayToList([Joined(year1), year2.value]) else Interp(year1)),
        year1 == Some(year) || year2 == Some(year))
    else if v.CValidateType? then
      var kind := Param(p, c, "Type");
      ValidatorStatus("Anime must be of type " + Interp(kind), kind == Some(a.mediaType))
    else // CValidateStartsWith, the last of the family
      var letter := Param(p, c, "Letter");
      var titleFirstChar := CharAt0(ToUpper(a.title));
      ValidatorStatus(
        "Anime title must start with " + (if letter == Some("Other") then "a symbol" else Interp(letter)),
        if letter == Some("Other") then HasNonAlnum(titleFirstChar) else letter == Some(titleFirstChar))
  }

  // ---------------------------------------------------------------------------------------
  // buildResponse and validateAnime

  /** The criterion texts of the passing statuses, in order. */
  function Successes(criteria: seq<ValidatorStatus>): seq<string>
    decreases |criteria|
  {
    if |criteria| == 0 then []
    else (if criteria[0].valid then [criteria[0].criterion] else []) + Successes(criteria[1..])
  }

  /** The criterion texts of the failing statuses, in order. */
  function Errors(criteria: seq<ValidatorStatus>): seq<string>
    decreases |criteria|
  {
    if |criteria| == 0 then []
    else (if criteria[0].valid then [] else [criteria[0].criterion]) + Errors(criteria[1..])
  }

  /** All criterion texts, in order. */
  function Criteria(criteria: seq<ValidatorStatus>): (r: seq<string>)
    ensures |r| == |criteria| && forall i :: 0 <= i < |criteria| ==> r[i] == criteria[i].criterion
  {
    seq(|criteria|, i requires 0 <= i < |criteria| => criteria[i].criterion)
  }

  lemma {:induction false} PartitionLengths(criteria: seq<ValidatorStatus>)
    ensures |Successes(criteria)| + |Errors(criteria)| == |criteria|
    decreases |criteria|
  {
    if |criteria| > 0 {
      PartitionLengths(criteria[1..]);
    }
  }

  lemma {:induction false} PartitionMultiset(criteria: seq<ValidatorStatus>)
    ensures multiset(Successes(criteria)) + multiset(Errors(criteria)) == multiset(Criteria(criteria))
    decreases |criteria|
  {
    if |criteria| > 0 {
      PartitionMultiset(criteria[1..]);
      assert Criteria(criteria) == [criteria[0].criterion] + Criteria(criteria[1..]);
    }
  }

  lemma {:induction false} PartitionNoErrors(criteria: seq<ValidatorStatus>)
    ensures Errors(criteria) == [] <==> forall i :: 0 <= i < |criteria| ==> criteria[i].valid
    decreases |criteria|
  {
    if |criteria| > 0 {
      PartitionNoErrors(criteria[1..]);
      if !criteria[0].valid {
        assert Errors(criteria)[0] == criteria[0].criterion;
      } else {
        assert Errors(criteria) == Errors(criteria[1..]);
        if forall i :: 1 <= i < |criteria| ==> criteria[i].valid {
          assert forall i :: 0 <= i < |criteria[1..]| ==> criteria[1..][i].valid;
        } else {
          var i :| 1 <= i < |criteria| && !criteria[i].valid;
          assert !criteria[1..][i - 1].valid;
        }
      }
    }
  }

  lemma {:induction false} SuccessesAppend(xs: seq<ValidatorStatus>, ys: seq<ValidatorStatus>)
    ensures Successes(xs + ys) == Successes(xs) + Successes(ys)
    decreases |xs|
  {
    if |xs| == 0 {
      assert xs + ys == ys;
    } else {
      assert (xs + ys)[1..] == xs[1..] + ys;
      SuccessesAppend(xs[1..], ys);
    }
  }

  lemma {:induction false} ErrorsAppend(xs: seq<ValidatorStatus>, ys: seq<ValidatorStatus>)
    ensures Errors(xs + ys) == Errors(xs) + Errors(ys)
    decreases |xs|
  {
    if |xs| == 0 {
      assert xs + ys == ys;
    } else {
      assert (xs + ys)[1..] == xs[1..] + ys;
      ErrorsAppend(xs[1..], ys);
    }
  }

  /**
   * `success` keeps the order of the criteria: a passing criterion sits in `success` after
   * exactly the passing criteria before it and before the passing criteria after it.
   */
  lemma SuccessKeepsOrder(criteria: seq<ValidatorStatus>, i: nat)
    requires i < |criteria| && criteria[i].valid
    ensures Successes(criteria) == Successes(criteria[..i]) + [criteria[i].criterion] + Successes(criteria[i + 1..])
  {
    var pre, rest := criteria[..i], criteria[i..];
    assert criteria == pre + rest;
    SuccessesAppend(pre, rest);
    assert rest[1..] == criteria[i + 1..];
  }

  /** The same for a failing criterion and `error`. */
  lemma ErrorKeepsOrder(criteria: seq<ValidatorStatus>, i: nat)
    requires i < |criteria| && !criteria[i].valid
    ensures Errors(criteria) == Errors(criteria[..i]) + [criteria[i].criterion] + Errors(criteria[i + 1..])
  {
    var pre, rest := criteria[..i], criteria[i..];
    assert criteria == pre + rest;
    ErrorsAppend(pre, rest);
    assert rest[1..] == criteria[i + 1..];
  }

  /**
   * `buildResponse`: every criterion passes; `success` lists the passing texts and `error` the
   * failing ones, each in criterion order (see SuccessKeepsOrder and ErrorKeepsOrder).
   */
  function BuildResponse(criteria: seq<ValidatorStatus>): (r: ValidationStatus)
    ensures r.success == Successes(criteria) && r.error == Errors(criteria)
    ensures r.valid <==> forall i :: 0 <= i < |criteria| ==> criteria[i].valid
    ensures r.valid <==> r.error == []
    ensures |r.success| + |r.error| == |criteria|
    ensures multiset(r.success) + multiset(r.error) == multiset(Criteria(criteria))
  {
    PartitionLengths(criteria);
    PartitionMultiset(criteria);
    PartitionNoErrors(criteria);
    ValidationStatus(forall i :: 0 <= i < |criteria| ==> criteria[i].valid, Successes(criteria), Errors(criteria))
  }

  /** The six structural checks that precede the course's and the challenge's validators. */
  function StructuralValidators(challengeData: ChallengeData): (r: seq<Validator>)
    ensures |r| == 6
  {
    [ValidateUniqueAnime(challengeData), ValidateStartYear, ValidateEndYear,
     ValidateStartEndDates, ValidateManualValidators, ValidateExtraInfo]
  }

  /** `allValidators` of `validateAnime`. */
  function AllValidators(cat: Catalog, challengeData: ChallengeData, challengeId: string, course: Course): (r: seq<Validator>)
    requires challengeId in Keys(cat.challengeList)
    ensures |r| == 6 + |cat.courseData(course).validators| + |Lookup(cat.challengeList, challengeId).value.validators|
  {
    StructuralValidators(challengeData) + cat.courseData(course).validators
    + Lookup(cat.challengeList, challengeId).value.validators
  }

  function ParamsFor(config: ConfigData, challengeData: ChallengeData, challengeId: string, course: Course): ValidatorParams
    requires Lookup(challengeData, challengeId).Some? && Lookup(challengeData, challengeId).value.animeData.Some?
  {
    var entry := Lookup(challengeData, challengeId).value;
    ValidatorParams(entry.animeData.value, config, entry, course)
  }

  /**
   * `validateAnime` runs without throwing: the entry exists and, once it has an anime, the
   * challenge is in the catalog and every validator it runs is defined.
   */
  predicate CanValidate(cat: Catalog, config: ConfigData, challengeData: ChallengeData, challengeId: string, course: Course)
  {
    Lookup(challengeData, challengeId).Some?
    && (Lookup(challengeData, challengeId).value.animeData.Some? ==>
          challengeId in Keys(cat.challengeList)
          && forall v :: v in AllValidators(cat, challengeData, challengeId, course) ==>
               Defined(v, ParamsFor(config, challengeData, challengeId, course)))
  }

  /** `allValidators.map((validator) => validator(params))` */
  function EvalAll(vs: seq<Validator>, p: ValidatorParams): (r: seq<ValidatorStatus>)
    requires forall v :: v in vs ==> Defined(v, p)
    ensures |r| == |vs| && forall i :: 0 <= i < |vs| ==> r[i] == Eval(vs[i], p)
  {
    seq(|vs|, i requires 0 <= i < |vs| => Eval(vs[i], p))
  }

  /** Every status of the run passes exactly when every validator passes. */
  lemma EvalAllValid(vs: seq<Validator>, p: ValidatorParams)
    requires forall v :: v in vs ==> Defined(v, p)
    ensures (forall i :: 0 <= i < |vs| ==> EvalAll(vs, p)[i].valid) <==> forall v :: v in vs ==> Eval(v, p).valid
  {
    var statuses := EvalAll(vs, p);
    if forall i :: 0 <= i < |vs| ==> statuses[i].valid {
      forall v | v in vs ensures Eval(v, p).valid {
        var i :| 0 <= i < |vs| && vs[i] == v;
        assert statuses[i].valid;
      }
    }
  }

  /**
   * `validateAnime`: an entry without an anime fails with the single error "Anime not found";
   * otherwise the entry is valid exactly when every validator passes, and each of the
   * 6 + |course validators| + |challenge validators| criteria lands in `success` when it passes
   * and in `error` when it fails, in the order of the run.
   */
  function ValidateAnime(cat: Catalog, config: ConfigData, challengeData: ChallengeData, challengeId: string, course: Course): (r: ValidationStatus)
    requires CanValidate(cat, config, challengeData, challengeId, course)
    ensures Lookup(challengeData, challengeId).value.animeData.None? ==>
      r == ValidationStatus(false, [], ["Anime not found"])
    ensures Lookup(challengeData, challengeId).value.animeData.Some? ==>
      |r.success| + |r.error| == 6 + |cat.courseData(course).validators| + |Lookup(cat.challengeList, challengeId).value.validators|
    ensures Lookup(challengeData, challengeId).value.animeData.Some? ==>
      (r.valid <==> forall v :: v in AllValidators(cat, challengeData, challengeId, course) ==>
         Eval(v, ParamsFor(config, challengeData, challengeId, course)).valid)
    ensures Lookup(challengeData, challengeId).value.animeData.Some? ==>
      var statuses := EvalAll(AllValidators(cat, challengeData, challengeId, course),
                              ParamsFor(config, challengeData, challengeId, course));
      r.success == Successes(statuses) && r.error == Errors(statuses)
  {
    if Lookup(challengeData, challengeId).value.animeData.None? then
      ValidationStatus(false, [], ["Anime not found"])
    else
      var p := ParamsFor(config, challengeData, challengeId, course);
      var vs := AllValidators(cat, challengeData, challengeId, course);
      var statuses := EvalAll(vs, p);
      EvalAllValid(vs, p);
      BuildResponse(statuses)
  }
}
