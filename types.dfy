/**
 * The entities of the challenge tracker: the thirty courses in five groups, the anime record
 * fetched from MyAnimeList, a user's challenge entry and the user's configuration.
 */
module Types {
  import opened Wrappers
  import opened Records

  /** The five course groups (the enums Drink, Starter, Main, Side and Dessert). */
  datatype Group = Drink | Starter | Main | Side | Dessert

  /** A course identifier (`CourseItem`). */
  datatype Course =
    | Coffee | Tea | Soda | Lemonade
    | Soup | Salad | Gyoza | SpringRolls | Prawns | ChickenWings
    | Burger | Sushi | Spaghetti | Pizza | Lasagna | Sandwich | Omurice | FishAndChips
    | Fries | Onigiri | OnionRings | GarlicBread | TheMelon | Tofu
    | Cake | IceCream | Cookie | ApplePie | Milkshake | Dango

  /** The group whose enum declares the course. */
  function GroupOf(c: Course): Group
  {
    match c
    case Coffee | Tea | Soda | Lemonade => Drink
    case Soup | Salad | Gyoza | SpringRolls | Prawns | ChickenWings => Starter
    case Burger | Sushi | Spaghetti | Pizza | Lasagna | Sandwich | Omurice | FishAndChips => Main
    case Fries | Onigiri | OnionRings | GarlicBread | TheMelon | Tofu => Side
    case Cake | IceCream | Cookie | ApplePie | Milkshake | Dango => Dessert
  }

  /** The string value of the enum member. */
  function CourseName(c: Course): string
  {
    match c
    case Coffee => "Coffee"
    case Tea => "Tea"
    case Soda => "Soda"
    case Lemonade => "Lemonade"
    case Soup => "Soup"
    case Salad => "Salad"
    case Gyoza => "Gyoza"
    case SpringRolls => "Spring Rolls"
    case Prawns => "Prawns"
    case ChickenWings => "Chicken Wings"
    case Burger => "Burger"
    case Sushi => "Sushi"
    case Spaghetti => "Spaghetti"
    case Pizza => "Pizza"
    case Lasagna => "Lasagna"
    case Sandwich => "Sandwich"
    case Omurice => "Omurice"
    case FishAndChips => "Fish & Chips"
    case Fries => "Fries"
    case Onigiri => "Onigiri"
    case OnionRings => "Onion Rings"
    case GarlicBread => "Garlic Bread"
    case TheMelon => "The Melon"
    case Tofu => "Tofu"
    case Cake => "Cake"
    case IceCream => "Ice Cream"
    case Cookie => "Cookie"
    case ApplePie => "Apple Pie"
    case Milkshake => "Milkshake"
    case Dango => "Dango"
  }

  /** `Object.values(Drink)` and its siblings: the members of one group's enum, in declaration order. */
  function GroupValues(g: Group): seq<Course>
  {
    match g
    case Drink => [Coffee, Tea, Soda, Lemonade]
    case Starter => [Soup, Salad, Gyoza, SpringRolls, Prawns, ChickenWings]
    case Main => [Burger, Sushi, Spaghetti, Pizza, Lasagna, Sandwich, Omurice, FishAndChips]
    case Side => [Fries, Onigiri, OnionRings, GarlicBread, TheMelon, Tofu]
    case Dessert => [Cake, IceCream, Cookie, ApplePie, Milkshake, Dango]
  }

  /** Every member of a group's enum belongs to that group. */
  lemma GroupValuesOfGroup(g: Group, i: nat)
    requires i < |GroupValues(g)|
    ensures GroupOf(GroupValues(g)[i]) == g
  {
    match g
    case Drink =>
    case Starter =>
    case Main =>
    case Side =>
    case Dessert =>
  }

  /** The position of a course in its group's enum. */
  function PositionInGroup(c: Course): (i: nat)
    ensures i < |GroupValues(GroupOf(c))| && GroupValues(GroupOf(c))[i] == c
  {
    match c
    case Coffee => 0 case Tea => 1 case Soda => 2 case Lemonade => 3
    case Soup => 0 case Salad => 1 case Gyoza => 2 case SpringRolls => 3 case Prawns => 4
    case ChickenWings => 5
    case Burger => 0 case Sushi => 1 case Spaghetti => 2 case Pizza => 3 case Lasagna => 4
    case Sandwich => 5 case Omurice => 6 case FishAndChips => 7
    case Fries => 0 case Onigiri => 1 case OnionRings => 2 case GarlicBread => 3
    case TheMelon => 4 case Tofu => 5
    case Cake => 0 case IceCream => 1 case Cookie => 2 case ApplePie => 3 case Milkshake => 4
    case Dango => 5
  }

  /** A course is in exactly the enum of its group. */
  lemma GroupValuesMembership(c: Course, g: Group)
    ensures c in GroupValues(g) <==> GroupOf(c) == g
  {
    if c in GroupValues(g) {
      var i :| 0 <= i < |GroupValues(g)| && GroupValues(g)[i] == c;
      GroupValuesOfGroup(g, i);
    }
    if GroupOf(c) == g {
      var i := PositionInGroup(c);
    }
  }

  /** `COURSE_VALUES`: the five enums' members, group by group. */
  const COURSE_VALUES: seq<Course> :=
    GroupValues(Drink) + GroupValues(Starter) + GroupValues(Main) + GroupValues(Side) + GroupValues(Dessert)

  /** The position of a course in `COURSE_VALUES`. */
  function CourseIndex(c: Course): (i: nat)
    ensures i < |COURSE_VALUES| && COURSE_VALUES[i] == c
  {
    match c
    case Coffee => 0 case Tea => 1 case Soda => 2 case Lemonade => 3
    case Soup => 4 case Salad => 5 case Gyoza => 6 case SpringRolls => 7 case Prawns => 8
    case ChickenWings => 9
    case Burger => 10 case Sushi => 11 case Spaghetti => 12 case Pizza => 13 case Lasagna => 14
    case Sandwich => 15 case Omurice => 16 case FishAndChips => 17
    case Fries => 18 case Onigiri => 19 case OnionRings => 20 case GarlicBread => 21
    case TheMelon => 22 case Tofu => 23
    case Cake => 24 case IceCream => 25 case Cookie => 26 case ApplePie => 27 case Milkshake => 28
    case Dango => 29
  }

  /** Each position of `COURSE_VALUES` is the index of the course found there. */
  lemma CourseIndexInverse(i: nat)
    requires i < |COURSE_VALUES|
    ensures CourseIndex(COURSE_VALUES[i]) == i
  {
    var g, k := GroupAt(i);
    var c := COURSE_VALUES[i];
    GroupValuesOfGroup(g, k);
    PositionOfMember(g, k);
    CourseIndexByGroup(c);
  }

  /** The index of a course is its group's offset plus its position in the group. */
  lemma CourseIndexByGroup(c: Course)
    ensures CourseIndex(c) == GroupOffset(GroupOf(c)) + PositionInGroup(c)
  {
  }

  /** The course at position `k` of a group's enum has position `k`. */
  lemma PositionOfMember(g: Group, k: nat)
    requires k < |GroupValues(g)|
    ensures PositionInGroup(GroupValues(g)[k]) == k
  {
    match g
    case Drink =>
    case Starter => if k < 3 {} else {}
    case Main => if k < 4 {} else {}
    case Side => if k < 3 {} else {}
    case Dessert => if k < 3 {} else {}
  }

  /** The group and position at which index `i` of `COURSE_VALUES` falls. */
  lemma GroupAt(i: nat) returns (g: Group, k: nat)
    requires i < |COURSE_VALUES|
    ensures k < |GroupValues(g)| && i == GroupOffset(g) + k
    ensures COURSE_VALUES[i] == GroupValues(g)[k]
  {
    var d, s, m, e := GroupValues(Drink), GroupValues(Starter), GroupValues(Main), GroupValues(Side);
    if i < 4 {
      g, k := Drink, i;
    } else if i < 10 {
      g, k := Starter, i - 4;
    } else if i < 18 {
      g, k := Main, i - 10;
    } else if i < 24 {
      g, k := Side, i - 18;
    } else {
      g, k := Dessert, i - 24;
    }
  }

  /** Where a group's enum begins in `COURSE_VALUES`. */
  function GroupOffset(g: Group): (n: nat)
    ensures n + |GroupValues(g)| <= |COURSE_VALUES|
  {
    match g
    case Drink => 0
    case Starter => 4
    case Main => 10
    case Side => 18
    case Dessert => 24
  }

  /** `COURSE_VALUES` lists each of the thirty courses exactly once. */
  lemma CourseValuesEnumerate()
    ensures |COURSE_VALUES| == 30
    ensures forall c: Course :: c in COURSE_VALUES
    ensures forall i, j :: 0 <= i < j < |COURSE_VALUES| ==> COURSE_VALUES[i] != COURSE_VALUES[j]
  {
    forall c: Course ensures c in COURSE_VALUES {
      assert COURSE_VALUES[CourseIndex(c)] == c;
    }
    forall i, j | 0 <= i < j < |COURSE_VALUES| ensures COURSE_VALUES[i] != COURSE_VALUES[j] {
      CourseIndexInverse(i);
      CourseIndexInverse(j);
    }
  }

  /** A year/month/day triple from the metadata service (`aired.from`, `aired.to`). */
  datatype DateParts = DateParts(year: nat, month: nat, day: nat)

  datatype Aired = Aired(day: string, time: string, from: DateParts, to: DateParts)

  datatype Statistics = Statistics(watching: int, completed: int, onHold: int, ptw: int, dropped: int)

  /**
   * The anime record (`AnimeDetails`) as the metadata lookup delivers it. `episodeDurationMinutes`
   * and `score` are JavaScript numbers and are modelled as reals; `scoreText` is the text
   * JavaScript prints for `score`, taken as given.
   */
  datatype AnimeDetails = AnimeDetails(
    malId: nat,
    title: string,
    mediaType: string,
    source: string,
    episodes: int,
    aired: Aired,
    episodeDurationMinutes: real,
    rating: string,
    score: real,
    scoreText: string,
    rank: int,
    popularity: int,
    members: int,
    favorites: int,
    producers: seq<string>,
    licensors: seq<string>,
    studios: seq<string>,
    genres: seq<string>,
    themes: seq<string>,
    demographics: seq<string>,
    openingCount: int,
    endingCount: int,
    mainCharacters: int,
    supportingCharacters: int,
    statistics: Statistics)

  /** A free-text field of an entry; `courses`, when present, scopes it to those courses. */
  datatype ExtraInfo = ExtraInfo(key: string, value: string, required: bool, courses: Option<seq<Course>>)

  /** The attestation state of one manual criterion. */
  datatype ManualValidator = ManualValidator(valid: bool, courses: Option<seq<Course>>)

  /** The user's progress on one challenge (`ChallengeEntry`). */
  datatype ChallengeEntry = ChallengeEntry(
    id: string,
    malId: string,
    startDate: string,
    endDate: string,
    extraInfo: seq<ExtraInfo>,
    manualValidators: map<nat, ManualValidator>,
    courses: seq<Course>,
    animeData: Option<AnimeDetails>)

  /** All entries, keyed by challenge id (`ChallengeData`). */
  type ChallengeData = Assoc<ChallengeEntry>

  /** `!courses || courses.includes(course)`: an unscoped item applies to every course. */
  predicate InScope(courses: Option<seq<Course>>, course: Course)
  {
    courses.None? || course in courses.value
  }

  /** The extra-info items that apply under `course`, in order. */
  function ScopedExtraInfo(items: seq<ExtraInfo>, course: Course): (r: seq<ExtraInfo>)
    ensures forall x :: x in r <==> x in items && InScope(x.courses, course)
    ensures |r| <= |items|
    decreases |items|
  {
    if |items| == 0 then []
    else
      var rest := ScopedExtraInfo(items[1..], course);
      assert forall x :: x in items <==> x == items[0] || x in items[1..];
      if InScope(items[0].courses, course) then [items[0]] + rest else rest
  }

  /** The required items among `items`, in order. */
  function RequiredExtraInfo(items: seq<ExtraInfo>): (r: seq<ExtraInfo>)
    ensures forall x :: x in r <==> x in items && x.required
    ensures |r| <= |items|
    decreases |items|
  {
    if |items| == 0 then []
    else
      var rest := RequiredExtraInfo(items[1..]);
      assert forall x :: x in items <==> x == items[0] || x in items[1..];
      if items[0].required then [items[0]] + rest else rest
  }

  /** The items in scope of a concatenation are those of each part, in order. */
  lemma {:induction false} ScopedExtraInfoAppend(xs: seq<ExtraInfo>, ys: seq<ExtraInfo>, course: Course)
    ensures ScopedExtraInfo(xs + ys, course) == ScopedExtraInfo(xs, course) + ScopedExtraInfo(ys, course)
    decreases |xs|
  {
    if |xs| == 0 {
      assert xs + ys == ys;
    } else {
      assert (xs + ys)[1..] == xs[1..] + ys;
      ScopedExtraInfoAppend(xs[1..], ys, course);
    }
  }

  /** One item is kept exactly when it is in scope. */
  lemma ScopedExtraInfoOfOne(x: ExtraInfo, course: Course)
    ensures ScopedExtraInfo([x], course) == if InScope(x.courses, course) then [x] else []
  {
    assert [x][1..] == [];
  }

  /** The required items of a concatenation are those of each part, in order. */
  lemma {:induction false} RequiredExtraInfoAppend(xs: seq<ExtraInfo>, ys: seq<ExtraInfo>)
    ensures RequiredExtraInfo(xs + ys) == RequiredExtraInfo(xs) + RequiredExtraInfo(ys)
    decreases |xs|
  {
    if |xs| == 0 {
      assert xs + ys == ys;
    } else {
      assert (xs + ys)[1..] == xs[1..] + ys;
      RequiredExtraInfoAppend(xs[1..], ys);
    }
  }

  /** One item is kept exactly when it is required. */
  lemma RequiredExtraInfoOfOne(x: ExtraInfo)
    ensures RequiredExtraInfo([x]) == if x.required then [x] else []
  {
    assert [x][1..] == [];
  }

  /** The manual validators that apply under `course`. */
  function ScopedManualValidators(m: map<nat, ManualValidator>, course: Course): (r: map<nat, ManualValidator>)
    ensures forall h :: h in r <==> h in m && InScope(m[h].courses, course)
    ensures forall h :: h in r ==> r[h] == m[h]
  {
    map h | h in m && InScope(m[h].courses, course) :: m[h]
  }

  datatype Legend = Legend(ptw: string, watching: string, completed: string)

  /** One group's setting: whether it is enabled and which course is selected (`CourseConfigItem`). */
  datatype CourseConfigItem = CourseConfigItem(enabled: bool, value: Course)

  datatype CoursesConfig = CoursesConfig(
    drink: CourseConfigItem,
    starter: CourseConfigItem,
    main: CourseConfigItem,
    side: CourseConfigItem,
    dessert: CourseConfigItem)
  {
    /** `courses[group]` */
    function ForGroup(g: Group): CourseConfigItem
    {
      match g
      case Drink => drink
      case Starter => starter
      case Main => main
      case Side => side
      case Dessert => dessert
    }
  }

  /**
   * The user's configuration (`ConfigData`). `courseValidatorInfo` holds, per course that has one,
   * the runtime parameters of its course validators; a course without a record is absent.
   */
  datatype ConfigData = ConfigData(
    username: string,
    completedAnime: string,
    timeZone: string,
    animeInForum: string,
    initialPostNumber: string,
    legend: Legend,
    courses: CoursesConfig,
    courseValidatorInfo: map<Course, Assoc<string>>)
}
