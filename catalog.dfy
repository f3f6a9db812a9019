/**
 * The catalog of data/data.ts: the thirty course records (`COURSE_DATA`) and the 192 challenges
 * (`CHALLENGE_LIST`). Challenge ids are "1" to "192", in that order.
 */
module Catalog {
  import opened Wrappers
  import opened Strings
  import opened Records
  import opened Types
  import opened ValidatorTypes

  /** `range(1, 32).map((n) => n.toString())` */
  const DAY_VALUES: seq<string> := [
    "1", "2", "3", "4", "5", "6", "7", "8", "9", "10", "11", "12", "13", "14", "15", "16",
    "17", "18", "19", "20", "21", "22", "23", "24", "25", "26", "27", "28", "29", "30", "31"]

  /** `range(1, 13).map((n) => n.toString())` */
  const MONTH_VALUES: seq<string> := ["1", "2", "3", "4", "5", "6", "7", "8", "9", "10", "11", "12"]

  /** The letters A to Z, the digits 0 to 9 and "Other". */
  const LETTER_VALUES: seq<string> := [
    "A", "B", "C", "D", "E", "F", "G", "H", "I", "J", "K", "L", "M",
    "N", "O", "P", "Q", "R", "S", "T", "U", "V", "W", "X", "Y", "Z",
    "0", "1", "2", "3", "4", "5", "6", "7", "8", "9", "Other"]

  /** `COURSE_DATA[course]`, assembled from one table per field. */
  function CourseData(c: Course): CourseDatum
  {
    CourseDatum(CourseLabel(c), RequiredChallenges(c), CourseExtraInfo(c), CourseValidators(c),
      CourseManualValidators(c), CourseParams(c))
  }

  /** `COURSE_DATA[course].label` */
  function CourseLabel(c: Course): string
  {
    match c
    case Coffee => "AIRED SAME DAY"
    case Tea => "MAL/ANIME+ RECS"
    case Soda => "SAME LICENSOR/PRODUCER/STUDIO"
    case Lemonade => "TITLE 5+ WORDS"
    case Soup => "SAME DEMOGRAPHIC"
    case Salad => "MEAN SCORE 7.50 OR LESS"
    case Gyoza => "EPISODE DURATION OF 23 MINS OR MORE"
    case SpringRolls => "AIRED IN SAME MONTH"
    case Prawns => "STARTED AIRING BETWEEN 2000 AND 2009"
    case ChickenWings => "TV-TYPE ONLY"
    case Burger => "MEAN SCORE OF 7.00 OR GREATER"
    case Sushi => "NON-ALPHANUMERIC CHARACTER IN MAIN TITLE"
    case Spaghetti => "PG-13 RATING"
    case Pizza => "3+ HOURS WATCH TIME"
    case Lasagna => "STARTED AIRING SAME SEASON"
    case Sandwich => "SAME NUMBER OF EPISODES"
    case Omurice => "STARTED AIRING BETWEEN 2021 and 2026"
    case FishAndChips => "SHARED GENRE/THEME"
    case Fries => "SHARED STAFF"
    case Onigiri => "15 MINUTE OR LESS EPISODES"
    case OnionRings => "SHIRITORI CHAIN"
    case GarlicBread => "R-17/R+/Rx RATING"
    case TheMelon => "STARTED AIRING BETWEEN 2011 AND 2020"
    case Tofu => "MOVIES ONLY"
    case Cake => "STARTED AIRING SAME YEAR"
    case IceCream => "SAME TYPE"
    case Cookie => "MAIN TITLE 5 WORDS OR LESS"
    case ApplePie => "MAIN TITLE STARTS WITH SAME LETTER"
    case Milkshake => "MC WITH UNNATURAL HAIR COLOR"
    case Dango => "STARTED AIRING 1999 OR EARLIER"
  }

  /** `COURSE_DATA[course].requiredChallenges` */
  function RequiredChallenges(c: Course): nat
  {
    match c
    case Coffee => 5
    case Tea => 5
    case Soda => 5
    case Lemonade => 5
    case Soup => 20
    case Salad => 20
    case Gyoza => 20
    case SpringRolls => 20
    case Prawns => 20
    case ChickenWings => 20
    case Burger => 25
    case Sushi => 25
    case Spaghetti => 25
    case Pizza => 25
    case Lasagna => 25
    case Sandwich => 25
    case Omurice => 25
    case FishAndChips => 25
    case Fries => 15
    case Onigiri => 15
    case OnionRings => 15
    case GarlicBread => 15
    case TheMelon => 15
    case Tofu => 15
    case Cake => 10
    case IceCream => 10
    case Cookie => 10
    case ApplePie => 10
    case Milkshake => 10
    case Dango => 10
  }

  /** `COURSE_DATA[course].extraInfo` */
  function CourseExtraInfo(c: Course): seq<string>
  {
    match c
    case Coffee => []
    case Tea => ["MAL/Anime+ Screenshot:"]
    case Soda => []
    case Lemonade => []
    case Soup => []
    case Salad => []
    case Gyoza => []
    case SpringRolls => []
    case Prawns => []
    case ChickenWings => []
    case Burger => []
    case Sushi => []
    case Spaghetti => []
    case Pizza => []
    case Lasagna => []
    case Sandwich => []
    case Omurice => []
    case FishAndChips => []
    case Fries => []
    case Onigiri => []
    case OnionRings => []
    case GarlicBread => []
    case TheMelon => []
    case Tofu => []
    case Cake => []
    case IceCream => []
    case Cookie => []
    case ApplePie => []
    case Milkshake => []
    case Dango => []
  }

  /** `COURSE_DATA[course].validators` */
  function CourseValidators(c: Course): seq<Validator>
  {
    match c
    case Coffee => [CValidateBroadcastDate(Coffee)]
    case Tea => []
    case Soda => [CValidateCompany(Soda)]
    case Lemonade => []
    case Soup => [CValidateDemographic(Soup)]
    case Salad => [ValidateScore(750, Lte)]
    case Gyoza => [ValidateEpisodeDuration(23, Gte)]
    case SpringRolls => [CValidateStartMonth(SpringRolls)]
    case Prawns => [ValidateStartDate("2000-01-01", Gte), ValidateStartDate("2009-12-31", Lte)]
    case ChickenWings => [ValidateType(["TV"])]
    case Burger => [ValidateScore(700, Gte)]
    case Sushi => [ValidateTitleNonAlphanumericCount(1, Gte)]
    case Spaghetti => [ValidateRating(["PG-13 - Teens 13 or older"])]
    case Pizza => [ValidateRuntime(180, Gte)]
    case Lasagna => [CValidateSeason(Lasagna)]
    case Sandwich => [CValidateEpisodeCount(Sandwich)]
    case Omurice => [ValidateStartDate("2021-01-01", Gte), ValidateStartDate("2026-12-10", Lte)]
    case FishAndChips => [CValidateGenreTheme(FishAndChips)]
    case Fries => []
    case Onigiri => [ValidateEpisodeDuration(15, Lte)]
    case OnionRings => []
    case GarlicBread =>
      [ValidateRating(["R - 17+ (violence & profanity)", "R+ - Mild Nudity", "Rx - Hentai"])]
    case TheMelon => [ValidateStartDate("2011-01-01", Gte), ValidateStartDate("2020-12-31", Lte)]
    case Tofu => [ValidateType(["Movie"])]
    case Cake => [CValidateStartYear(Cake)]
    case IceCream => [CValidateType(IceCream)]
    case Cookie => []
    case ApplePie => [CValidateStartsWith(ApplePie)]
    case Milkshake => []
    case Dango => [ValidateStartDate("1999-12-31", Lte)]
  }

  /** `COURSE_DATA[course].manualValidators` */
  function CourseManualValidators(c: Course): seq<string>
  {
    match c
    case Coffee => []
    case Tea => ["Anime recommended by MAL or Anime+"]
    case Soda => []
    case Lemonade => ["Anime title has >=5 words"]
    case Soup => []
    case Salad => []
    case Gyoza => []
    case SpringRolls => []
    case Prawns => []
    case ChickenWings => []
    case Burger => []
    case Sushi => []
    case Spaghetti => []
    case Pizza => []
    case Lasagna => []
    case Sandwich => []
    case Omurice => []
    case FishAndChips => []
    case Fries => ["Anime shares a staff member with other sides"]
    case Onigiri => []
    case OnionRings => ["Anime valid for shiritori chain"]
    case GarlicBread => []
    case TheMelon => []
    case Tofu => []
    case Cake => []
    case IceCream => []
    case Cookie => ["Anime title has <=5 words"]
    case ApplePie => []
    case Milkshake => ["Anime has main character with blue, green, pink, or purple hair"]
    case Dango => []
  }

  /** `COURSE_DATA[course].courseValidatorInfo` */
  function CourseParams(c: Course): Option<seq<CourseValidatorInfo>>
  {
    match c
    case Coffee => Some([CourseValidatorInfo("Day", Select, Some(DAY_VALUES))])
    case Tea => None
    case Soda => Some([CourseValidatorInfo("Licensor/Producor/Studio", Text, None)])
    case Lemonade => None
    case Soup =>
      Some([CourseValidatorInfo("Demographic", Select, Some(["Josei", "Kids", "Seinen", "Shoujo", "Shounen"]))])
    case Salad => None
    case Gyoza => None
    case SpringRolls => Some([CourseValidatorInfo("Month", Select, Some(MONTH_VALUES))])
    case Prawns => None
    case ChickenWings => None
    case Burger => None
    case Sushi => None
    case Spaghetti => None
    case Pizza => None
    case Lasagna =>
      Some([CourseValidatorInfo("Season", Select, Some(["Winter", "Spring", "Summer", "Fall"]))])
    case Sandwich => Some([CourseValidatorInfo("Number of Epidodes", Text, None)])
    case Omurice => None
    case FishAndChips =>
      Some([CourseValidatorInfo("Genre/Theme #1", Text, None), CourseValidatorInfo("Genre/Theme #2", Text, None)])
    case Fries =>
      Some([CourseValidatorInfo("Staff #1", Text, None), CourseValidatorInfo("Staff #2", Text, None)])
    case Onigiri => None
    case OnionRings => None
    case GarlicBread => None
    case TheMelon => None
    case Tofu => None
    case Cake =>
      Some([CourseValidatorInfo("Year #1", Text, None), CourseValidatorInfo("Year #2", Text, None)])
    case IceCream =>
      Some([CourseValidatorInfo("Type", Select, Some(["TV", "OVA", "Movie", "Special", "ONA", "Music", "TV Special", "PV", "CM"]))])
    case Cookie => None
    case ApplePie => Some([CourseValidatorInfo("Letter", Select, Some(LETTER_VALUES))])
    case Milkshake => None
    case Dango => None
  }

  /** The challenge table of data.ts:361-2722, in key order; entry i has id NatToString(i + 1).
      The bbCode, description and addlInfo texts are not modelled (they are opaque per-id texts). */
  const CHALLENGES: seq<Challenge> := [
    // 1 (data.ts:362)
    Challenge(Some(["MAL Staff:", "Screenshot:"]), [Burger, Lasagna, Pizza],
      [],
      ["Active MAL staff member has anime listed in 'MAL Score vs Anime Score'"]),
    // 2 (data.ts:377)
    Challenge(Some(["AWC Staff Stack:"]), [ChickenWings, Gyoza],
      [],
      ["Anime in one of the listed stacks"]),
    // 3 (data.ts:388)
    Challenge(Some(["AWC Staff:"]), [Burger, FishAndChips, Omurice, Spaghetti, Sushi],
      [],
      ["Anime completed by AWC Staff Member prior to starting", "Anime rated >= 8.00 by AWC Staff Member"]),
    // 4 (data.ts:408)
    Challenge(Some(["Staff Rec Link:"]), [ApplePie, IceCream, Milkshake],
      [],
      ["Anime recommended to you in AWC 2026 Staff Recs"]),
    // 5 (data.ts:419)
    Challenge(Some(["Participant Rec Link:"]), [GarlicBread, Onigiri, TheMelon, Tofu],
      [],
      ["Anime recommended to you in AWC 2026 Participant Recs"]),
    // 6 (data.ts:430)
    Challenge(Some(["Participant:", "Link to Their Post:", "Link to Their Completed List:"]), [FishAndChips, Lasagna, Omurice, Sandwich],
      [],
      ["Anime completed by participant prior to starting", "Anime rated >= 9.00 by participant", "Participant on page 1-3 of the sign-up post"]),
    // 7 (data.ts:449)
    Challenge(Some(["Participant:", "Item Used For:", "Link to Their Post:"]), [GarlicBread, Onigiri],
      [],
      ["Anime completed by participant prior to starting"]),
    // 8 (data.ts:460)
    Challenge(Some(["AWC Participant:", "Their Post Link:", "Screenshot of Their Dropped/On-Hold:"]), [ChickenWings, Gyoza, Soup, SpringRolls],
      [],
      ["Anime dropped/put on-hold prior to September 30, 2025"]),
    // 9 (data.ts:482)
    Challenge(Some(["Participant:", "Link to Their Post:"]), [Burger, Sushi],
      [],
      ["Character from avatar or signature appears in the anime"]),
    // 10 (data.ts:497)
    Challenge(Some(["Participant:", "Their Post Link:", "Screenshot:"]), [ChickenWings],
      [],
      ["Participant has anime listed in 'Popularity vs Anime Score'"]),
    // 11 (data.ts:512)
    Challenge(Some([]), [Lasagna, Pizza],
      [ValidateType(["TV"]), ValidateEpisodeDuration(25, Gte)],
      []),
    // 12 (data.ts:523)
    Challenge(Some([]), [Salad, Soup],
      [ValidateType(["ONA", "OVA", "Special"]), ValidateEpisodeCount(10, Gte)],
      []),
    // 13 (data.ts:535)
    Challenge(Some([]), [Cake, Cookie],
      [ValidateType(["Movie"]), ValidateRuntime(90, Gte)],
      []),
    // 14 (data.ts:546)
    Challenge(Some([]), [GarlicBread, TheMelon],
      [ValidateType(["TV"])],
      ["Anime has an irregular release schedule"]),
    // 15 (data.ts:559)
    Challenge(Some([]), [Fries, GarlicBread, TheMelon],
      [ValidateEpisodeCount(2, Gte), ValidateEpisodeCount(6, Lte)],
      []),
    // 16 (data.ts:571)
    Challenge(Some([]), [Burger, Lasagna, Omurice, Spaghetti, Sushi],
      [ValidateEpisodeCount(10, Gte)],
      []),
    // 17 (data.ts:586)
    Challenge(Some([]), [Burger, FishAndChips, Lasagna, Omurice, Pizza],
      [ValidateEpisodeCount(17, Gte)],
      []),
    // 18 (data.ts:601)
    Challenge(Some([]), [Cake, Dango],
      [ValidateEpisodeCount(26, Gte)],
      []),
    // 19 (data.ts:610)
    Challenge(Some([]), [ChickenWings, Gyoza, Prawns],
      [ValidateEpisodeCount(40, Gte)],
      []),
    // 20 (data.ts:619)
    Challenge(Some([]), [ChickenWings, Salad],
      [ValidateEpisodeCount(52, Gte)],
      []),
    // 21 (data.ts:628)
    Challenge(Some([]), [FishAndChips, Omurice, Pizza, Spaghetti],
      [ValidateType(["TV"])],
      ["Sequel for this anime is used in item 22"]),
    // 22 (data.ts:639)
    Challenge(Some([]), [FishAndChips, Omurice, Pizza, Spaghetti],
      [],
      ["This anime is a sequel to the anime used in item 21"]),
    // 23 (data.ts:652)
    Challenge(Some([]), [Burger, FishAndChips, Pizza, Sandwich, Sushi],
      [ValidateStartDate("2020-01-01", Gte), ValidateStartDate("2025-12-31", Lte)],
      []),
    // 24 (data.ts:672)
    Challenge(Some([]), [Fries, GarlicBread, Onigiri, OnionRings, Tofu],
      [ValidateStartDate("2015-01-01", Gte), ValidateStartDate("2019-12-31", Lte)],
      []),
    // 25 (data.ts:692)
    Challenge(Some([]), [Burger, FishAndChips, Lasagna, Spaghetti, Sushi],
      [ValidateStartDate("2010-01-01", Gte), ValidateStartDate("2014-12-31", Lte)],
      []),
    // 26 (data.ts:712)
    Challenge(Some([]), [Cookie, Milkshake],
      [ValidateStartDate("2000-01-01", Gte), ValidateStartDate("2009-12-31", Lte)],
      []),
    // 27 (data.ts:726)
    Challenge(Some([]), [OnionRings, Tofu],
      [ValidateStartDate("1990-01-01", Gte), ValidateStartDate("1999-12-31", Lte)],
      []),
    // 28 (data.ts:740)
    Challenge(Some([]), [Gyoza, Salad, SpringRolls],
      [ValidateStartDate("1960-01-01", Gte), ValidateStartDate("1989-12-31", Lte)],
      []),
    // 29 (data.ts:754)
    Challenge(Some([]), [FishAndChips, Omurice, Pizza, Sandwich, Sushi],
      [ValidateBroadcastDate(["Monday"])],
      []),
    // 30 (data.ts:769)
    Challenge(Some([]), [Fries, GarlicBread, OnionRings],
      [ValidateBroadcastDate(["Tuesday"])],
      []),
    // 31 (data.ts:778)
    Challenge(Some([]), [ApplePie, Cake, Dango],
      [ValidateBroadcastDate(["Wednesday"])],
      []),
    // 32 (data.ts:788)
    Challenge(Some([]), [Salad],
      [ValidateBroadcastDate(["Thursday"])],
      []),
    // 33 (data.ts:797)
    Challenge(Some([]), [ChickenWings, Prawns, Soup],
      [ValidateBroadcastDate(["Friday"])],
      []),
    // 34 (data.ts:806)
    Challenge(Some([]), [Burger, FishAndChips, Lasagna, Omurice],
      [ValidateBroadcastDate(["Saturday"])],
      []),
    // 35 (data.ts:815)
    Challenge(Some([]), [Fries, GarlicBread],
      [ValidateBroadcastDate(["Sunday"])],
      []),
    // 36 (data.ts:824)
    Challenge(Some([]), [Omurice, Pizza, Sushi],
      [ValidateStartMonth([1])],
      []),
    // 37 (data.ts:833)
    Challenge(Some([]), [Gyoza, Salad],
      [ValidateStartMonth([2])],
      []),
    // 38 (data.ts:842)
    Challenge(Some([]), [Onigiri, OnionRings, Tofu],
      [ValidateStartMonth([3])],
      []),
    // 39 (data.ts:851)
    Challenge(Some([]), [Prawns, Salad, Soup],
      [ValidateStartMonth([4])],
      []),
    // 40 (data.ts:860)
    Challenge(Some([]), [IceCream],
      [ValidateStartMonth([5])],
      []),
    // 41 (data.ts:869)
    Challenge(Some([]), [Milkshake],
      [ValidateStartMonth([6])],
      []),
    // 42 (data.ts:878)
    Challenge(Some([]), [Fries, Onigiri, OnionRings, TheMelon, Tofu],
      [ValidateStartMonth([7])],
      []),
    // 43 (data.ts:893)
    Challenge(Some([]), [Prawns, Soup],
      [ValidateStartMonth([8])],
      []),
    // 44 (data.ts:902)
    Challenge(Some([]), [Gyoza],
      [ValidateStartMonth([9])],
      []),
    // 45 (data.ts:911)
    Challenge(Some([]), [Burger, FishAndChips, Omurice, Sandwich],
      [ValidateStartMonth([10])],
      []),
    // 46 (data.ts:920)
    Challenge(Some([]), [Sandwich, Spaghetti],
      [ValidateStartMonth([11])],
      []),
    // 47 (data.ts:929)
    Challenge(Some([]), [FishAndChips, Omurice, Spaghetti, Sushi],
      [ValidateStartMonth([12])],
      []),
    // 48 (data.ts:938)
    Challenge(Some(["Join Year:"]), [ChickenWings, Gyoza, Soup],
      [],
      ["Anime began airing the same year you joined MAL"]),
    // 49 (data.ts:951)
    Challenge(Some(["Join Month:"]), [Dango],
      [],
      ["Anime began airing the same month you joined MAL"]),
    // 50 (data.ts:964)
    Challenge(Some(["Join Day:"]), [FishAndChips, Sandwich, Spaghetti, Sushi],
      [],
      ["Anime began airing the same day you joined MAL"]),
    // 51 (data.ts:977)
    Challenge(Some([]), [Lasagna, Sandwich],
      [ValidateTitleUsername],
      []),
    // 52 (data.ts:990)
    Challenge(Some([]), [ChickenWings, Prawns, Soup, SpringRolls],
      [],
      ["Anime has 7 or more words in the title"]),
    // 53 (data.ts:1008)
    Challenge(Some([]), [Fries, Onigiri, OnionRings, Tofu],
      [],
      ["Anime contains an English number in the title"]),
    // 54 (data.ts:1019)
    Challenge(Some([]), [Gyoza, Prawns, Salad, SpringRolls],
      [],
      ["Anime has a one-word title"]),
    // 55 (data.ts:1036)
    Challenge(Some(["Character:"]), [Cake, Milkshake],
      [],
      ["Anime has main character's name in the title"]),
    // 56 (data.ts:1049)
    Challenge(Some([]), [Burger, FishAndChips, Omurice, Pizza, Spaghetti],
      [ValidateTitleNonAlphanumericCount(2, Gte)],
      []),
    // 57 (data.ts:1066)
    Challenge(Some([]), [Fries, GarlicBread],
      [ValidateWordsWithSameLetter(3)],
      []),
    // 58 (data.ts:1077)
    Challenge(Some(["Color Used:"]), [Lasagna, Pizza, Spaghetti],
      [],
      ["Anime uses an English or Japanese color in title"]),
    // 59 (data.ts:1090)
    Challenge(Some(["Animal Used:"]), [Salad],
      [],
      ["Anime uses an English or Japanese animal in title"]),
    // 60 (data.ts:1103)
    Challenge(Some([]), [Cookie, Dango],
      [],
      ["Anime has a non-Japanese title"]),
    // 61 (data.ts:1112)
    Challenge(Some([]), [Burger, Pizza, Sandwich, Spaghetti],
      [ValidateTitleUsernameShareCount(3, Gte)],
      []),
    // 62 (data.ts:1123)
    Challenge(Some([]), [Burger, Omurice, Pizza, Sandwich, Spaghetti],
      [ValidateTitleStartsWith(["S", "Z"], false)],
      []),
    // 63 (data.ts:1139)
    Challenge(Some([]), [Burger, Lasagna, Omurice, Pizza],
      [ValidateTitleStartsWith(["A", "G", "N"], false)],
      []),
    // 64 (data.ts:1150)
    Challenge(Some([]), [Fries, GarlicBread, Onigiri, TheMelon, Tofu],
      [ValidateTitleStartsWith(["C", "D", "O"], false)],
      []),
    // 65 (data.ts:1167)
    Challenge(Some([]), [Dango, IceCream],
      [ValidateTitleStartsWith(["F", "I", "M"], false)],
      []),
    // 66 (data.ts:1178)
    Challenge(Some([]), [Fries, Onigiri, Tofu],
      [ValidateTitleStartsWith(["B", "J", "P", "U"], false)],
      []),
    // 67 (data.ts:1189)
    Challenge(Some([]), [Dango, Milkshake],
      [ValidateTitleStartsWith(["E", "R", "T", "X"], false)],
      []),
    // 68 (data.ts:1200)
    Challenge(Some([]), [Prawns, Salad],
      [ValidateTitleStartsWith(["H", "L", "Q", "Y"], false)],
      []),
    // 69 (data.ts:1211)
    Challenge(Some([]), [Gyoza, SpringRolls],
      [ValidateTitleStartsWith(["K", "V", "W"], true)],
      []),
    // 70 (data.ts:1222)
    Challenge(Some(["Lowest Ranked G/T/D 1:", "Lowest Ranked G/T/D 2:", "MAL Stats Screenshot:"]), [Gyoza, Salad],
      [],
      ["Anime is tagged with one of your two lowest ranked tags"]),
    // 71 (data.ts:1243)
    Challenge(Some([]), [FishAndChips, Sushi],
      [ValidateMALIdContains("26")],
      []),
    // 72 (data.ts:1256)
    Challenge(Some(["Review Link:", "Review Screenshot:"]), [Burger, Sushi],
      [],
      ["Anime was reviewed on the same day you started"]),
    // 73 (data.ts:1270)
    Challenge(Some(["Review Link:", "Review Screenshot:"]), [Coffee, Soda, Tea],
      [],
      ["Anime has review with >=4 different reaction emojis"]),
    // 74 (data.ts:1281)
    Challenge(Some(["Ranking When Started:", "Popularity When Started:"]), [Coffee],
      [ValidateRankingPopularityDiff(1000, Gte)],
      []),
    // 75 (data.ts:1292)
    Challenge(Some([]), [ApplePie],
      [ValidateFinishedAiring],
      ["Anime has no recommendations"]),
    // 76 (data.ts:1303)
    Challenge(Some(["Completed Members When Started:"]), [Prawns, Soup, SpringRolls],
      [ValidateFinishedAiring, ValidateStatistics(Completed, 50000, Lt)],
      []),
    // 77 (data.ts:1317)
    Challenge(Some([]), [ChickenWings, Prawns, Soup, SpringRolls],
      [ValidateEpisodeCount(10, Gte)],
      ["Anime has synopsis by MAL Rewrite"]),
    // 78 (data.ts:1333)
    Challenge(Some(["Favorites When Started:"]), [Fries, GarlicBread, Onigiri, Tofu],
      [ValidateFavorites(150, Lte)],
      []),
    // 79 (data.ts:1344)
    Challenge(Some(["Anime Score:", "Adaptation Score:"]), [FishAndChips, Lasagna, Omurice, Spaghetti],
      [],
      ["Anime has a higher score than a listed adaptation"]),
    // 80 (data.ts:1355)
    Challenge(Some(["Popularity When Started:"]), [Coffee, Lemonade, Soda, Tea],
      [ValidatePopularity(500, Gt)],
      []),
    // 81 (data.ts:1364)
    Challenge(Some(["Popularity When Started:"]), [Fries, GarlicBread, Onigiri, TheMelon],
      [ValidatePopularity(2026, Gt)],
      []),
    // 82 (data.ts:1373)
    Challenge(Some(["Popularity When Started:"]), [Burger, FishAndChips, Omurice, Sandwich, Spaghetti, Sushi],
      [ValidatePopularity(3211, Gt)],
      []),
    // 83 (data.ts:1389)
    Challenge(Some(["Popularity When Started:"]), [Prawns, SpringRolls],
      [ValidatePopularity(4015, Gt)],
      []),
    // 84 (data.ts:1398)
    Challenge(Some(["Score Screenshot:"]), [Lemonade, Tea],
      [ValidateScoreContains(["2", "6"])],
      []),
    // 85 (data.ts:1409)
    Challenge(Some(["Score When Started:"]), [FishAndChips, Lasagna, Sandwich, Spaghetti],
      [ValidateScore(785, Gte)],
      []),
    // 86 (data.ts:1420)
    Challenge(Some(["Score When Started:"]), [Coffee, Soda],
      [ValidateScore(750, Lte)],
      []),
    // 87 (data.ts:1431)
    Challenge(Some(["Score When Started:"]), [TheMelon, Tofu],
      [ValidateScore(626, Lte)],
      []),
    // 88 (data.ts:1442)
    Challenge(Some(["List Used:"]), [OnionRings],
      [],
      ["Anime is listed under specified tags"]),
    // 89 (data.ts:1453)
    Challenge(Some(["Character:"]), [ChickenWings, Soup, SpringRolls],
      [],
      ["Anime has a character with specified tag"]),
    // 90 (data.ts:1466)
    Challenge(Some([]), [GarlicBread, TheMelon],
      [ValidateMainCharacterCountEquals(1)],
      []),
    // 91 (data.ts:1475)
    Challenge(Some([]), [Burger, Omurice, Pizza, Spaghetti, Sushi],
      [ValidateMainCharacterCountAtLeast(8)],
      []),
    // 92 (data.ts:1490)
    Challenge(Some(["# of Mains:", "# of Supporting:"]), [IceCream],
      [ValidateMoreMainThanSupporting],
      []),
    // 93 (data.ts:1501)
    Challenge(Some([""]), [Burger, FishAndChips, Lasagna, Omurice, Sandwich],
      [],
      ["Anime has >=3 main characters of the same gender"]),
    // 94 (data.ts:1518)
    Challenge(Some(["Voice Actor 1:", "Character 1:", "Character 2:"]), [ChickenWings, Salad],
      [],
      ["Anime has VA credited under >=2 different characters"]),
    // 95 (data.ts:1531)
    Challenge(Some(["Character:"]), [ChickenWings, Prawns, Soup, SpringRolls],
      [],
      ["Main character has majority blue, green, pink, or purple hair"]),
    // 96 (data.ts:1552)
    Challenge(Some([]), [IceCream],
      [],
      ["Anime has a main character with specified tag"]),
    // 97 (data.ts:1563)
    Challenge(Some(["Character:"]), [Burger, FishAndChips, Omurice, Spaghetti, Sushi],
      [],
      ["Anime has a character who wears glasses"]),
    // 98 (data.ts:1582)
    Challenge(Some(["Studio/Producer:"]), [Onigiri, TheMelon, Tofu],
      [ValidateStudioProducerStartInUsername],
      ["Anime is made by a Studio/Producer starting with same letter as your MAL username"]),
    // 99 (data.ts:1595)
    Challenge(Some(["Studio:"]), [FishAndChips, Sushi],
      [],
      ["Anime by studio with <45 anime"]),
    // 100 (data.ts:1608)
    Challenge(Some(["Studio:"]), [Gyoza],
      [],
      ["Anime by studio you haven't seen anything from"]),
    // 101 (data.ts:1622)
    Challenge(Some(["Licensor/Producer/Studio:"]), [ApplePie, Dango],
      [ValidateCompanyStartsWith(["A"], false)],
      []),
    // 102 (data.ts:1633)
    Challenge(Some(["Licensor/Producer/Studio:"]), [Fries],
      [ValidateCompanyStartsWith(["S"], false)],
      []),
    // 103 (data.ts:1644)
    Challenge(Some(["Licensor/Producer/Studio:"]), [Fries, GarlicBread, OnionRings, Tofu],
      [ValidateCompanyStartsWith(["T"], false)],
      []),
    // 104 (data.ts:1655)
    Challenge(Some(["Licensor/Producer/Studio:"]), [Prawns, Salad, Soup],
      [ValidateCompanyStartsWith(["B", "O"], false)],
      []),
    // 105 (data.ts:1666)
    Challenge(Some(["Licensor/Producer/Studio:"]), [Burger, FishAndChips, Sushi],
      [ValidateCompanyStartsWith(["D", "R"], false)],
      []),
    // 106 (data.ts:1677)
    Challenge(Some(["Licensor/Producer/Studio:"]), [Cake],
      [ValidateCompanyStartsWith(["E", "P"], false)],
      []),
    // 107 (data.ts:1688)
    Challenge(Some(["Licensor/Producer/Studio:"]), [Prawns, Soup],
      [ValidateCompanyStartsWith(["G", "L"], false)],
      []),
    // 108 (data.ts:1699)
    Challenge(Some(["Licensor/Producer/Studio:"]), [Sandwich, Sushi],
      [ValidateCompanyStartsWith(["H", "I"], false)],
      []),
    // 109 (data.ts:1710)
    Challenge(Some(["Licensor/Producer/Studio:"]), [ChickenWings, Gyoza],
      [ValidateCompanyStartsWith(["M", "X"], false)],
      []),
    // 110 (data.ts:1721)
    Challenge(Some(["Licensor/Producer/Studio:"]), [GarlicBread, OnionRings, Tofu],
      [ValidateCompanyStartsWith(["C", "Z"], true)],
      []),
    // 111 (data.ts:1732)
    Challenge(Some(["Licensor/Producer/Studio:"]), [FishAndChips, Lasagna, Omurice, Pizza],
      [ValidateCompanyStartsWith(["F", "J", "Y"], false)],
      []),
    // 112 (data.ts:1743)
    Challenge(Some(["Licensor/Producer/Studio:"]), [ChickenWings, SpringRolls],
      [ValidateCompanyStartsWith(["K", "Q", "U"], false)],
      []),
    // 113 (data.ts:1754)
    Challenge(Some(["Licensor/Producer/Studio:"]), [Lasagna, Omurice, Pizza, Spaghetti],
      [ValidateCompanyStartsWith(["N", "V", "W"], false)],
      []),
    // 114 (data.ts:1765)
    Challenge(Some([]), [ChickenWings, Soup],
      [ValidateCompany(["Funimation"])],
      []),
    // 115 (data.ts:1776)
    Challenge(Some([]), [Onigiri, OnionRings],
      [ValidateCompany(["NHK"])],
      []),
    // 116 (data.ts:1787)
    Challenge(Some([]), [Cookie],
      [ValidateCompany(["ADV Films", "Sentai Filmworks"])],
      []),
    // 117 (data.ts:1798)
    Challenge(Some([]), [FishAndChips, Pizza, Sandwich, Spaghetti],
      [ValidateCompany(["OLM", "Toei Animation"])],
      []),
    // 118 (data.ts:1809)
    Challenge(Some([]), [Gyoza, Soup, SpringRolls],
      [ValidateCompany(["Aniplex", "Studio Deen", "Tencent Video"])],
      []),
    // 119 (data.ts:1820)
    Challenge(Some([]), [Lemonade],
      [ValidateCompany(["Aniplex of America", "Kadokawa", "Production I.G"])],
      []),
    // 120 (data.ts:1833)
    Challenge(Some([]), [ChickenWings, Prawns],
      [ValidateCompany(["Bandai Entertainment", "Discotek Media", "J.C.Staff"])],
      []),
    // 121 (data.ts:1846)
    Challenge(Some([]), [Salad, Soup, SpringRolls],
      [ValidateCompany(["bilibili", "Fuji TV", "Pony Canyon"])],
      []),
    // 122 (data.ts:1857)
    Challenge(Some([""]), [OnionRings],
      [ValidateCompany(["Bandai Visual", "Movic", "Shin-Ei Animation"])],
      []),
    // 123 (data.ts:1870)
    Challenge(Some([]), [ApplePie, IceCream],
      [ValidateCompany(["DLE", "Shueisha", "Sunrise"])],
      []),
    // 124 (data.ts:1881)
    Challenge(Some([]), [FishAndChips, Lasagna, Pizza],
      [ValidateCompany(["Lantis", "Madhouse", "TBS"])],
      []),
    // 125 (data.ts:1892)
    Challenge(Some([""]), [Lasagna, Sandwich, Spaghetti],
      [ValidateCompany(["Studio Pierrot", "Tatsunoko Production", "TV Tokyo"])],
      []),
    // 126 (data.ts:1905)
    Challenge(Some([]), [Lemonade],
      [ValidateCompany(["A-1 Pictures", "AT-X", "Crunchyroll", "Magic Capsule"])],
      []),
    // 127 (data.ts:1918)
    Challenge(Some([]), [ApplePie, Cake],
      [ValidateCompany(["AIC", "Kadokawa Shoten", "TMS Entertainment", "VIZ Media"])],
      []),
    // 128 (data.ts:1936)
    Challenge(Some(["Participant:", "Their Post Link:", "Screenshot:"]), [Burger, Omurice, Pizza, Sandwich],
      [],
      ["Anime on participant's recommendations"]),
    // 129 (data.ts:1947)
    Challenge(Some(["Screenshot Showing Username:"]), [ChickenWings, Gyoza, Soup],
      [],
      ["Anime suggested by MAL or Anime+"]),
    // 130 (data.ts:1958)
    Challenge(Some(["Screenshot:", "Lowest Ranked Studios:"]), [Sushi],
      [],
      ["Anime from applicable studios"]),
    // 131 (data.ts:1972)
    Challenge(Some([]), [Sandwich],
      [],
      ["Anime tagged with lowest scored by mean"]),
    // 132 (data.ts:1987)
    Challenge(Some(["MAL Favorite:", "Interest Stack:"]), [IceCream, Milkshake],
      [],
      ["Anime found in same public interest stack as one of your favorites"]),
    // 133 (data.ts:2000)
    Challenge(Some(["MAL Favorite:", "Season/Year:"]), [Salad, SpringRolls],
      [],
      ["Anime began airing the same season/year as one of your favorites", "Favorite anime completed before starting"]),
    // 134 (data.ts:2017)
    Challenge(Some(["MAL Favorite:", "Date Favorite Completed:"]), [Burger, Lasagna, Sandwich, Sushi],
      [],
      ["Anime recommended to a completed anime in your favorites"]),
    // 135 (data.ts:2030)
    Challenge(Some(["Favorite Person:"]), [Lasagna, Pizza, Sandwich],
      [],
      ["Favorite person participated in anime"]),
    // 136 (data.ts:2043)
    Challenge(Some([]), [Soda],
      [ValidateSongCountEquals(0, 0)],
      []),
    // 137 (data.ts:2056)
    Challenge(Some([]), [GarlicBread, TheMelon],
      [ValidateSongCountEquals(1, 1)],
      []),
    // 138 (data.ts:2069)
    Challenge(Some([]), [Cookie, Milkshake],
      [ValidateSongCountAtLeast(5, 5)],
      []),
    // 139 (data.ts:2082)
    Challenge(Some(["Artist/Group:"]), [Burger, Omurice, Pizza, Spaghetti],
      [],
      [">=2 different OP/ED themes are by the same artist/group"]),
    // 140 (data.ts:2098)
    Challenge(Some(["Voice Actor:"]), [Salad, Soup, SpringRolls],
      [],
      ["VA is credited with a Theme/Insert song performance in anime"]),
    // 141 (data.ts:2113)
    Challenge(Some([]), [ChickenWings, Prawns, Soup, SpringRolls],
      [ValidateTags(["Action"], 1)],
      []),
    // 142 (data.ts:2129)
    Challenge(Some([]), [ApplePie, Cake, Cookie, Dango],
      [ValidateTags(["Adventure"], 1)],
      []),
    // 143 (data.ts:2140)
    Challenge(Some([]), [Coffee, Lemonade, Soda, Tea],
      [ValidateTags(["Comedy"], 1)],
      []),
    // 144 (data.ts:2151)
    Challenge(Some([]), [Coffee],
      [ValidateTags(["Fantasy"], 1)],
      []),
    // 145 (data.ts:2162)
    Challenge(Some([]), [Fries, Onigiri, OnionRings, TheMelon, Tofu],
      [ValidateTags(["Music"], 1)],
      []),
    // 146 (data.ts:2179)
    Challenge(Some([]), [Gyoza, Prawns, SpringRolls],
      [ValidateTags(["Kids"], 1)],
      []),
    // 147 (data.ts:2190)
    Challenge(Some([]), [ApplePie, Cookie],
      [ValidateTags(["Anthropomorphic", "Mecha"], 1)],
      []),
    // 148 (data.ts:2201)
    Challenge(Some([]), [Sandwich, Spaghetti, Sushi],
      [ValidateTags(["Avant Garde", "Seinen"], 1)],
      []),
    // 149 (data.ts:2212)
    Challenge(Some([]), [Burger, Lasagna, Omurice, Pizza, Spaghetti],
      [ValidateTags(["Historical", "Shounen"], 1)],
      []),
    // 150 (data.ts:2229)
    Challenge(Some([]), [Prawns, Soup, SpringRolls],
      [ValidateTags(["Slice of Life", "Supernatural"], 1)],
      []),
    // 151 (data.ts:2240)
    Challenge(Some([]), [Lasagna, Pizza, Spaghetti],
      [ValidateTags(["Adult Cast", "Reverse Harem", "Showbiz"], 1)],
      []),
    // 152 (data.ts:2251)
    Challenge(Some([]), [Burger],
      [ValidateTags(["Boys Love", "Mystery", "Villainess"], 1)],
      []),
    // 153 (data.ts:2262)
    Challenge(Some([]), [Lasagna, Sandwich],
      [ValidateTags(["Childcare", "Parody", "Magical Sex Shift"], 1)],
      []),
    // 154 (data.ts:2273)
    Challenge(Some([]), [Cookie, IceCream],
      [ValidateTags(["Combat Sports", "Love Status Quo", "Martial Arts"], 1)],
      []),
    // 155 (data.ts:2286)
    Challenge(Some([]), [Sandwich, Spaghetti, Sushi],
      [ValidateTags(["Crossdressing", "Military", "Visual Arts"], 1)],
      []),
    // 156 (data.ts:2297)
    Challenge(Some([]), [Cake],
      [ValidateTags(["Delinquents", "Super Power", "Survival"], 1)],
      []),
    // 157 (data.ts:2308)
    Challenge(Some([]), [Milkshake],
      [ValidateTags(["Educational", "Urban Fantasy", "Vampire"], 1)],
      []),
    // 158 (data.ts:2319)
    Challenge(Some([]), [Cake, IceCream],
      [ValidateTags(["Gag Humor", "Harem", "Time Travel"], 1)],
      []),
    // 159 (data.ts:2330)
    Challenge(Some([]), [Sandwich, Sushi],
      [ValidateTags(["Girls Love", "Horror", "Performing Arts"], 1)],
      []),
    // 160 (data.ts:2341)
    Challenge(Some([]), [GarlicBread, OnionRings],
      [ValidateTags(["Gore", "Psychological", "Video Game"], 1)],
      []),
    // 161 (data.ts:2352)
    Challenge(Some([""]), [Gyoza, Salad, SpringRolls],
      [ValidateTags(["High Stakes Game", "Mythology", "Organized Crime"], 1)],
      []),
    // 162 (data.ts:2365)
    Challenge(Some([]), [Salad],
      [ValidateTags(["Idols (Female)", "Mahou Shoujo", "Reincarnation"], 1)],
      []),
    // 163 (data.ts:2378)
    Challenge(Some([]), [Sushi],
      [ValidateTags(["Idols (Male)", "Isekai", "Racing"], 1)],
      []),
    // 164 (data.ts:2389)
    Challenge(Some([]), [Gyoza, Salad],
      [ValidateTags(["Josei", "Pets", "Shoujo"], 1)],
      []),
    // 165 (data.ts:2400)
    Challenge(Some([]), [Cookie, Milkshake],
      [ValidateTags(["Love Polygon", "Otaku Culture", "Space"], 1)],
      []),
    // 166 (data.ts:2411)
    Challenge(Some([]), [OnionRings, TheMelon],
      [ValidateTags(["Award Winning", "CGDCT", "Suspense"], 1)],
      []),
    // 167 (data.ts:2422)
    Challenge(Some([]), [Lasagna, Sandwich, Sushi],
      [ValidateTags(["Detective", "Iyashikei", "Team Sports"], 1)],
      []),
    // 168 (data.ts:2433)
    Challenge(Some([]), [Burger, Lasagna],
      [ValidateTags(["Gourmet", "Medical", "Sports"], 1)],
      []),
    // 169 (data.ts:2444)
    Challenge(Some([]), [Gyoza, Salad],
      [ValidateTags(["Samurai", "Strategy Game", "Workplace"], 1)],
      []),
    // 170 (data.ts:2455)
    Challenge(Some(["Tagged With 1:", "Tagged With 2:"]), [ChickenWings, Gyoza, Prawns],
      [ValidateTags(["Drama", "Romance", "School", "Sci-Fi"], 2)],
      []),
    // 171 (data.ts:2466)
    Challenge(Some([""]), [Tea],
      [ValidateGenreCount(2, Gte)],
      []),
    // 172 (data.ts:2475)
    Challenge(Some([]), [Dango, IceCream],
      [ValidateGenreCount(3, Gte)],
      []),
    // 173 (data.ts:2484)
    Challenge(Some([]), [Burger, Lasagna, Omurice, Pizza, Sushi],
      [ValidateRating(["G - All Ages", "PG - Children"])],
      []),
    // 174 (data.ts:2493)
    Challenge(Some([]), [Soda, Tea],
      [ValidateRating(["PG-13 - Teens 13 or older"])],
      []),
    // 175 (data.ts:2502)
    Challenge(Some([]), [ChickenWings, Prawns, Salad, SpringRolls],
      [ValidateRating(["R - 17+ (violence & profanity)", "R+ - Mild Nudity", "Rx - Hentai"])],
      []),
    // 176 (data.ts:2524)
    Challenge(Some([]), [FishAndChips, Omurice, Pizza, Spaghetti],
      [ValidateSource(["Game"])],
      []),
    // 177 (data.ts:2533)
    Challenge(Some([]), [Gyoza, Prawns, Soup, SpringRolls],
      [ValidateSource(["Manga"])],
      []),
    // 178 (data.ts:2542)
    Challenge(Some([]), [ApplePie, Cake, Dango],
      [ValidateSource(["Original"])],
      []),
    // 179 (data.ts:2551)
    Challenge(Some([]), [Fries, Onigiri, OnionRings, TheMelon, Tofu],
      [ValidateSource(["Unknown"])],
      []),
    // 180 (data.ts:2566)
    Challenge(Some([]), [TheMelon],
      [ValidateSource(["4-koma Manga", "Novel"])],
      []),
    // 181 (data.ts:2577)
    Challenge(Some([]), [Lemonade],
      [ValidateSource(["Book", "Light Novel"])],
      []),
    // 182 (data.ts:2588)
    Challenge(Some([]), [Prawns, Salad],
      [ValidateSource(["Mixed Media", "Visual Novel"])],
      []),
    // 183 (data.ts:2599)
    Challenge(Some([]), [Onigiri, TheMelon],
      [ValidateSource(["Music", "Picture Book", "Web Manga"])],
      []),
    // 184 (data.ts:2610)
    Challenge(Some([]), [FishAndChips, Lasagna, Pizza, Sandwich],
      [ValidateSource(["Other", "Web Novel"])],
      []),
    // 185 (data.ts:2621)
    Challenge(Some(["Screenshot:"]), [Cookie, IceCream],
      [],
      ["Anime generated using spin.moe"]),
    // 186 (data.ts:2632)
    Challenge(Some([]), [Onigiri, Tofu],
      [],
      ["Anime present on HOF challenge"]),
    // 187 (data.ts:2643)
    Challenge(Some(["Original Anime Start Date:", "Last Watched Episode Date:", "Eps Previously Watched:", "Screenshot:"]), [Sandwich, Sushi],
      [],
      ["Anime dropped/put on-hold before September 30, 2025", "Anime has more than one episode", "At least one episode watched previously"]),
    // 188 (data.ts:2665)
    Challenge(Some([]), [ApplePie, Milkshake],
      [],
      ["Anime present under Anime Relations on club page"]),
    // 189 (data.ts:2678)
    Challenge(Some([]), [ChickenWings, Gyoza],
      [],
      ["Anime has specified tag on AniDB"]),
    // 190 (data.ts:2689)
    Challenge(Some([]), [Dango, Milkshake],
      [],
      ["Anime has no related anime listed"]),
    // 191 (data.ts:2700)
    Challenge(Some([]), [Fries, OnionRings, TheMelon],
      [ValidateAirTime(["17", "18", "19", "20", "21", "22"])],
      []),
    // 192 (data.ts:2711)
    Challenge(Some([]), [ApplePie, Cake, Cookie],
      [ValidateAirTime(["23", "00", "01", "02", "03"])],
      [])
  ]

  /** `CHALLENGE_LIST`: challenge i + 1 under the id NatToString(i + 1). */
  function ChallengeList(): (r: Assoc<Challenge>)
    ensures |r| == 192
  {
    seq(192, i requires 0 <= i < 192 => (NatToString(i + 1), CHALLENGES[i]))
  }

  const CATALOG: Catalog := Catalog(CourseData, ChallengeList())
}
