/**
 * The sign-up post of settings/utils.ts: the BBCode text built from the configuration and the
 * challenge entries. The sign-up and course templates and each challenge's BBCode line are
 * given as parameters.
 */
module Report {
  import opened Wrappers
  import opened Strings
  import opened Records
  import opened Types
  import opened ValidatorTypes
  import opened ChallengeData
  import opened Templates

  predicate IsHexDigit(c: char)
  {
    IsDigit(c) || 'A' <= c <= 'F'
  }

  /** `COURSE_COLORS`: the colour used for the items of each course group. */
  function CourseColor(g: Group): (r: string)
    ensures |r| == 6 && forall i :: 0 <= i < 6 ==> IsHexDigit(r[i])
  {
    match g
    case Drink => "5B2C6F"
    case Starter => "3B6C4C"
    case Main => "943126"
    case Side => "916247"
    case Dessert => "CA5C2B"
  }

  /**
   * `legendToColor`: an entry that was not started shows the plan-to-watch colour, a started
   * entry without an end date the watching colour, and a finished one the completed colour.
   */
  function LegendToColor(legend: Legend, entry: ChallengeEntry): (r: string)
    ensures entry.startDate == "" ==> r == legend.ptw
    ensures entry.startDate != "" && entry.endDate == "" ==> r == legend.watching
    ensures entry.startDate != "" && entry.endDate != "" ==> r == legend.completed
  {
    if entry.startDate == "" then legend.ptw
    else if entry.endDate == "" then legend.watching
    else legend.completed
  }

  const MONTH_ABBREVIATIONS: seq<string> :=
    ["Jan", "Feb", "Mar", "Apr", "May", "Jun", "Jul", "Aug", "Sep", "Oct", "Nov", "Dec"]

  /** `dateMap[month]` of `formatDate`: only the two-digit month numbers are keys. */
  function MonthAbbreviation(month: Option<string>): Option<string>
  {
    match month
    case None => None
    case Some(m) =>
      if m == "01" then Some("Jan") else if m == "02" then Some("Feb")
      else if m == "03" then Some("Mar") else if m == "04" then Some("Apr")
      else if m == "05" then Some("May") else if m == "06" then Some("Jun")
      else if m == "07" then Some("Jul") else if m == "08" then Some("Aug")
      else if m == "09" then Some("Sep") else if m == "10" then Some("Oct")
      else if m == "11" then Some("Nov") else if m == "12" then Some("Dec")
      else None
  }

  /** The element `i` of a destructured array, `undefined` past its end. */
  function Part(parts: seq<string>, i: nat): (o: Option<string>)
    ensures o.Some? <==> i < |parts|
  {
    if i < |parts| then Some(parts[i]) else None
  }

  /**
   * `formatDate`: "" for an empty date, otherwise the month name and the day of a
   * `year-month-day` text; a missing part prints as `undefined`.
   */
  function FormatDate(date: string): (r: string)
    ensures date == "" <==> r == ""
  {
    if date == "" then ""
    else
      var parts := Split(date, '-');
      Interp(MonthAbbreviation(Part(parts, 1))) + " " + Interp(Part(parts, 2))
  }

  /** Two decimal digits, with a leading zero below ten. */
  function Pad2(n: nat): (r: string)
    requires n < 100
    ensures |r| == 2 && IsDigit(r[0]) && IsDigit(r[1])
  {
    [DigitChar(n / 10), DigitChar(n % 10)]
  }

  /** The `yyyy-mm-dd` text of a date input. */
  function IsoDate(year: nat, month: nat, day: nat): string
    requires month < 100 && day < 100
  {
    NatToString(year) + "-" + Pad2(month) + "-" + Pad2(day)
  }

  lemma MonthAbbreviationOfPad2(m: nat)
    requires 1 <= m <= 12
    ensures MonthAbbreviation(Some(Pad2(m))) == Some(MONTH_ABBREVIATIONS[m - 1])
  {
    var p := Pad2(m);
    if m < 10 {
      assert p == ['0', DigitChar(m)];
    } else {
      assert p == ['1', DigitChar(m - 10)];
    }
  }

  /** A date from a date input prints as its abbreviated month name and its two-digit day. */
  lemma FormatIsoDate(year: nat, month: nat, day: nat)
    requires 1 <= month <= 12 && day < 100
    ensures FormatDate(IsoDate(year, month, day)) == MONTH_ABBREVIATIONS[month - 1] + " " + Pad2(day)
  {
    var y, m, d := NatToString(year), Pad2(month), Pad2(day);
    var parts := [y, m, d];
    forall i | 0 <= i < |parts| ensures '-' !in parts[i] {
      assert forall j :: 0 <= j < |parts[i]| ==> IsDigit(parts[i][j]);
    }
    assert Join(parts, "-") == IsoDate(year, month, day) by {
      assert Join(parts[2..], "-") == d;
      assert Join(parts[1..], "-") == m + "-" + d;
    }
    SplitJoin(parts, '-');
    MonthAbbreviationOfPad2(month);
  }

  /** A date that is not split by `-` prints with both parts undefined. */
  lemma FormatDateWithoutDashes(date: string)
    requires date != "" && '-' !in date
    ensures FormatDate(date) == "undefined undefined"
  {
    SplitNoSeparator(date, '-');
  }

  /** `c.malId && c.startDate` (or `endDate`): the date of an entry that has an anime. */
  function EntryDate(c: ChallengeEntry, start: bool): string
  {
    if c.malId == "" then "" else if start then c.startDate else c.endDate
  }

  /** The non-empty dates of the entries, in order (`map` then `filter((c) => !!c)`). */
  function Dates(cs: seq<ChallengeEntry>, start: bool): (r: seq<string>)
    ensures forall i :: 0 <= i < |cs| && EntryDate(cs[i], start) != "" ==> EntryDate(cs[i], start) in r
    ensures forall d :: d in r ==> d != "" && exists i :: 0 <= i < |cs| && EntryDate(cs[i], start) == d
    decreases |cs|
  {
    if cs == [] then []
    else
      var rest := Dates(cs[1..], start);
      assert forall i :: 1 <= i < |cs| ==> cs[i] == cs[1..][i - 1];
      var d := EntryDate(cs[0], start);
      if d != "" then [d] + rest else rest
  }

  /** A string before another is also at most that other. */
  lemma LexLtJsLe(a: string, b: string)
    ensures LexLt(a, b) ==> JsLe(a, b)
  {
    if LexLt(a, b) { LexLtAsymmetric(a, b); }
  }

  /** `reduce((min, date) => (date < min ? date : min))` from `acc`: the first smallest date. */
  function ReduceMin(acc: string, ds: seq<string>): (r: string)
    ensures r == acc || r in ds
    ensures JsLe(r, acc) && forall i :: 0 <= i < |ds| ==> JsLe(r, ds[i])
    decreases |ds|
  {
    if ds == [] then
      JsLeTotalOrder(acc, acc, acc);
      acc
    else
      var next := if LexLt(ds[0], acc) then ds[0] else acc;
      var r := ReduceMin(next, ds[1..]);
      assert forall i :: 1 <= i < |ds| ==> JsLe(r, ds[i]) by {
        forall i | 1 <= i < |ds| ensures JsLe(r, ds[i]) { assert ds[1..][i - 1] == ds[i]; }
      }
      JsLeTotalOrder(r, next, acc);
      JsLeTotalOrder(r, next, ds[0]);
      LexLtJsLe(ds[0], acc);
      r
  }

  /** `reduce((max, date) => (date > max ? date : max))` from `acc`: the first largest date. */
  function ReduceMax(acc: string, ds: seq<string>): (r: string)
    ensures r == acc || r in ds
    ensures JsLe(acc, r) && forall i :: 0 <= i < |ds| ==> JsLe(ds[i], r)
    decreases |ds|
  {
    if ds == [] then
      JsLeTotalOrder(acc, acc, acc);
      acc
    else
      var next := if LexLt(acc, ds[0]) then ds[0] else acc;
      var r := ReduceMax(next, ds[1..]);
      assert forall i :: 1 <= i < |ds| ==> JsLe(ds[i], r) by {
        forall i | 1 <= i < |ds| ensures JsLe(ds[i], r) { assert ds[1..][i - 1] == ds[i]; }
      }
      JsLeTotalOrder(acc, next, r);
      JsLeTotalOrder(ds[0], next, r);
      LexLtJsLe(acc, ds[0]);
      r
  }

  datatype DateRange = DateRange(startDate: string, finishDate: string)

  /** An entry with an anime and a non-empty date of the given kind. */
  predicate Dated(c: ChallengeEntry, start: bool)
  {
    EntryDate(c, start) != ""
  }

  /**
   * `r` is the bound of the dates of the dated entries (of the given kind): the earliest start
   * date or the latest end date, in string order, taken from one of the entries; "" when no
   * entry is dated.
   */
  predicate IsDateBound(cs: seq<ChallengeEntry>, start: bool, r: string)
  {
    (r == "" <==> forall i :: 0 <= i < |cs| ==> !Dated(cs[i], start))
    && (r != "" ==> exists i :: 0 <= i < |cs| && Dated(cs[i], start) && EntryDate(cs[i], start) == r)
    && (forall i :: 0 <= i < |cs| && Dated(cs[i], start) ==>
          if start then JsLe(r, EntryDate(cs[i], start)) else JsLe(EntryDate(cs[i], start), r))
  }

  /**
   * `calculateStartEndDates`: the earliest start date and the latest end date among the entries
   * that have an anime, in string order; "" when no such entry has that date.
   */
  function CalculateStartEndDates(cs: seq<ChallengeEntry>): (r: DateRange)
    ensures IsDateBound(cs, true, r.startDate)
    ensures IsDateBound(cs, false, r.finishDate)
  {
    var starts := Dates(cs, true);
    var ends := Dates(cs, false);
    var s := if |starts| > 0 then ReduceMin(starts[0], starts[1..]) else "";
    var f := if |ends| > 0 then ReduceMax(ends[0], ends[1..]) else "";
    DatesBounds(cs, true, s);
    DatesBounds(cs, false, f);
    DateRange(s, f)
  }

  /** The reduction over the dates bounds the date of every dated entry. */
  lemma DatesBounds(cs: seq<ChallengeEntry>, start: bool, r: string)
    requires var ds := Dates(cs, start);
      r == (if |ds| > 0 then (if start then ReduceMin(ds[0], ds[1..]) else ReduceMax(ds[0], ds[1..])) else "")
    ensures IsDateBound(cs, start, r)
  {
    var ds := Dates(cs, start);
    if |ds| > 0 {
      assert ds[0] in ds;
      assert r in ds by {
        if r != ds[0] { assert r in ds[1..]; }
      }
      forall i | 0 <= i < |cs| && Dated(cs[i], start)
        ensures if start then JsLe(r, EntryDate(cs[i], start)) else JsLe(EntryDate(cs[i], start), r)
      {
        var d := EntryDate(cs[i], start);
        assert d in ds;
        var j :| 0 <= j < |ds| && ds[j] == d;
        if j > 0 { assert ds[1..][j - 1] == d; }
      }
    }
  }

  /** The `key value` text of an extra-info item. */
  function ItemText(x: ExtraInfo): string
  {
    x.key + " " + x.value
  }

  function ItemTexts(items: seq<ExtraInfo>): (r: seq<string>)
    ensures |r| == |items| && forall i :: 0 <= i < |items| ==> r[i] == ItemText(items[i])
  {
    seq(|items|, i requires 0 <= i < |items| => ItemText(items[i]))
  }

  /** The extra-info line under an entry: empty when no item applies. */
  function ExtraInfoLine(items: seq<ExtraInfo>, color: string): string
  {
    if |items| > 0 then "\n[color=#" + color + "][" + Join(ItemTexts(items), " | ") + "][/color]" else ""
  }

  /** The head of an entry: status colour, dates, BBCode line and the anime's link. */
  function EntryHead(bbCode: string, anime: Option<AnimeDetails>, challenge: ChallengeEntry, legend: Legend): string
  {
    "[*]" + "[color=" + LegendToColor(legend, challenge) + "]"
    + "[Started: " + FormatDate(challenge.startDate) + "] [Finished: " + FormatDate(challenge.endDate) + "]"
    + "[/color] " + bbCode + "\n"
    + "[url=https://myanimelist.net/anime/" + challenge.malId + "]"
    + (if anime.Some? then anime.value.title else "ANIME_TITLE")
    + "[/url]"
  }

  /**
   * `formatEntry`: the entry's head followed by the line of the extra-info items in scope for
   * `course`. `bbCode` is the challenge's own BBCode line.
   */
  function FormatEntry(bbCode: string, anime: Option<AnimeDetails>, challenge: ChallengeEntry, legend: Legend,
                       extraInfoColor: string, course: Course): (r: string)
    ensures EntryHead(bbCode, anime, challenge, legend) <= r
    ensures ScopedExtraInfo(challenge.extraInfo, course) == [] <==> r == EntryHead(bbCode, anime, challenge, legend)
  {
    EntryHead(bbCode, anime, challenge, legend) + ExtraInfoLine(ScopedExtraInfo(challenge.extraInfo, course), extraInfoColor)
  }

  /** An item scoped to other courses does not show, wherever it stands in the list. */
  lemma {:induction false} ScopedExtraInfoSkipsOtherCourses(items: seq<ExtraInfo>, x: ExtraInfo, rest: seq<ExtraInfo>, course: Course)
    requires !InScope(x.courses, course)
    ensures ScopedExtraInfo(items + [x] + rest, course) == ScopedExtraInfo(items + rest, course)
    decreases |items|
  {
    if items == [] {
      assert items + [x] + rest == [x] + rest;
      assert ([x] + rest)[1..] == rest;
      assert items + rest == rest;
    } else {
      assert (items + [x] + rest)[1..] == items[1..] + [x] + rest;
      assert (items + rest)[1..] == items[1..] + rest;
      ScopedExtraInfoSkipsOtherCourses(items[1..], x, rest, course);
    }
  }

  /** Adding an extra-info item scoped to other courses leaves the entry's text unchanged. */
  lemma FormatEntryIgnoresOtherCourses(bbCode: string, anime: Option<AnimeDetails>, challenge: ChallengeEntry,
                                       legend: Legend, color: string, course: Course, i: nat, x: ExtraInfo)
    requires i <= |challenge.extraInfo| && !InScope(x.courses, course)
    ensures var items := challenge.extraInfo[..i] + [x] + challenge.extraInfo[i..];
      FormatEntry(bbCode, anime, challenge.(extraInfo := items), legend, color, course)
        == FormatEntry(bbCode, anime, challenge, legend, color, course)
  {
    ScopedExtraInfoSkipsOtherCourses(challenge.extraInfo[..i], x, challenge.extraInfo[i..], course);
    assert challenge.extraInfo[..i] + challenge.extraInfo[i..] == challenge.extraInfo;
  }

  /** The `[b]name Used :[/b] value` line of one course parameter. */
  function ParamLine(kv: (string, string), color: string): string
  {
    "[color=#" + color + "][b]" + kv.0 + " Used :[/b][/color] " + kv.1
  }

  function ParamLines(info: Assoc<string>, color: string): (r: seq<string>)
    ensures |r| == |info| && forall i :: 0 <= i < |info| ==> r[i] == ParamLine(info[i], color)
  {
    seq(|info|, i requires 0 <= i < |info| => ParamLine(info[i], color))
  }

  /**
   * `formatCourseValidatorInfo`: one line per course parameter, in order, each ending with a
   * line break; "" when the course has no record (an empty record still gives one line break).
   */
  function FormatCourseValidatorInfo(info: Option<Assoc<string>>, color: string): (r: string)
    ensures info.None? <==> r == ""
    ensures info.Some? ==> r[|r| - 1] == '\n'
  {
    match info
    case None => ""
    case Some(kv) => Join(ParamLines(kv, color), "\n") + "\n"
  }

  /** The parameter lines can be read back by splitting at line breaks. */
  lemma FormatCourseValidatorInfoLines(info: Assoc<string>, color: string)
    requires |info| > 0 && '\n' !in color
    requires forall i :: 0 <= i < |info| ==> '\n' !in info[i].0 && '\n' !in info[i].1
    ensures var r := FormatCourseValidatorInfo(Some(info), color);
      Split(r[..|r| - 1], '\n') == ParamLines(info, color)
  {
    var lines := ParamLines(info, color);
    forall i | 0 <= i < |lines| ensures '\n' !in lines[i] {
      var kv := info[i];
      assert lines[i] == "[color=#" + color + "][b]" + kv.0 + " Used :[/b][/color] " + kv.1;
    }
    var r := FormatCourseValidatorInfo(Some(info), color);
    assert r[..|r| - 1] == Join(lines, "\n");
    SplitJoin(lines, '\n');
  }

  /** The entries of `data` that are set up for `course` and have an anime, in order. */
  function CourseChallenges(entries: seq<ChallengeEntry>, course: Course): (r: seq<ChallengeEntry>)
    ensures forall e :: e in r <==> e in entries && course in e.courses && e.malId != ""
    decreases |entries|
  {
    if entries == [] then []
    else
      var rest := CourseChallenges(entries[1..], course);
      assert forall e :: e in entries <==> e == entries[0] || e in entries[1..];
      var e := entries[0];
      if course in e.courses && e.malId != "" then [e] + rest else rest
  }

  /** The listed entries of a concatenation are those of each part, in order. */
  lemma {:induction false} CourseChallengesAppend(xs: seq<ChallengeEntry>, ys: seq<ChallengeEntry>, course: Course)
    ensures CourseChallenges(xs + ys, course) == CourseChallenges(xs, course) + CourseChallenges(ys, course)
    decreases |xs|
  {
    if xs == [] {
      assert xs + ys == ys;
    } else {
      assert (xs + ys)[1..] == xs[1..] + ys;
      CourseChallengesAppend(xs[1..], ys, course);
    }
  }

  /** One entry is listed exactly when it belongs to the course and has a MAL id. */
  lemma CourseChallengesOfOne(e: ChallengeEntry, course: Course)
    ensures CourseChallenges([e], course) == if course in e.courses && e.malId != "" then [e] else []
  {
    assert [e][1..] == [];
  }

  /** The text of every listed entry, for the course of `group`. */
  function EntryTexts(bbCode: string -> string, entries: seq<ChallengeEntry>, legend: Legend, group: Group, course: Course): (r: seq<string>)
    ensures |r| == |entries|
    ensures forall i :: 0 <= i < |entries| ==>
      r[i] == FormatEntry(bbCode(entries[i].id), entries[i].animeData, entries[i], legend, CourseColor(group), course)
  {
    seq(|entries|, i requires 0 <= i < |entries| =>
      FormatEntry(bbCode(entries[i].id), entries[i].animeData, entries[i], legend, CourseColor(group), course))
  }

  /** The template data of `generateCourseText`, under its keys. */
  function CourseTemplateData(cat: Catalog, bbCode: string -> string, data: Types.ChallengeData, config: ConfigData,
                              group: Group, courseNumber: nat): (r: Assoc<string>)
  {
    var course := config.courses.ForGroup(group).value;
    var challenges := CourseChallenges(Values(data), course);
    [("courseNumber", NatToString(courseNumber)),
     ("courseTitle", ToUpper(CourseName(course)) + ": " + cat.courseData(course).courseLabel),
     ("courseColor", CourseColor(group)),
     ("courseValidatorInfo", FormatCourseValidatorInfo(
        if course in config.courseValidatorInfo then Some(config.courseValidatorInfo[course]) else None,
        CourseColor(group))),
     ("courseChallenges", Join(EntryTexts(bbCode, challenges, config.legend, group, course), "\n\n"))]
  }

  /** `generateCourseText`: the course template filled for the course selected in `group`. */
  method GenerateCourseText(cat: Catalog, courseTemplate: string, bbCode: string -> string, data: Types.ChallengeData,
                            config: ConfigData, group: Group, courseNumber: nat) returns (text: string)
    ensures text == Rendered(courseTemplate, CourseTemplateData(cat, bbCode, data, config, group, courseNumber))
  {
    var templateData := CourseTemplateData(cat, bbCode, data, config, group, courseNumber);
    text := ReplaceTemplates(courseTemplate, templateData);
  }

  /** The number of each group in the post: drink 1 to dessert 5. */
  function GroupNumber(g: Group): (n: nat)
    ensures 1 <= n <= 5
  {
    match g
    case Drink => 1
    case Starter => 2
    case Main => 3
    case Side => 4
    case Dessert => 5
  }

  /** A course's section of the post: its filled template when its group is enabled, else "". */
  function CourseSection(cat: Catalog, courseTemplate: string, bbCode: string -> string, data: Types.ChallengeData,
                         config: ConfigData, g: Group): string
  {
    if config.courses.ForGroup(g).enabled
    then Rendered(courseTemplate, CourseTemplateData(cat, bbCode, data, config, g, GroupNumber(g)))
    else ""
  }

  /** `filter((m) => !!m)`: the non-empty texts in order. */
  function NonEmpty(parts: seq<string>): (r: seq<string>)
    ensures forall t :: t in r <==> t in parts && t != ""
    decreases |parts|
  {
    if parts == [] then []
    else
      assert forall t :: t in parts <==> t == parts[0] || t in parts[1..];
      (if parts[0] != "" then [parts[0]] else []) + NonEmpty(parts[1..])
  }

  /** The kept texts of a concatenation are those of each part, in order. */
  lemma {:induction false} NonEmptyAppend(xs: seq<string>, ys: seq<string>)
    ensures NonEmpty(xs + ys) == NonEmpty(xs) + NonEmpty(ys)
    decreases |xs|
  {
    if xs == [] {
      assert xs + ys == ys;
    } else {
      assert (xs + ys)[1..] == xs[1..] + ys;
      NonEmptyAppend(xs[1..], ys);
    }
  }

  /** One text is kept exactly when it is non-empty. */
  lemma NonEmptyOfOne(t: string)
    ensures NonEmpty([t]) == if t != "" then [t] else []
  {
    assert [t][1..] == [];
  }

  lemma {:induction false} NonEmptyOfBlanks(parts: seq<string>)
    requires forall i :: 0 <= i < |parts| ==> parts[i] == ""
    ensures NonEmpty(parts) == []
    decreases |parts|
  {
    if parts != [] {
      assert forall i :: 0 <= i < |parts[1..]| ==> parts[1..][i] == parts[i + 1];
      NonEmptyOfBlanks(parts[1..]);
    }
  }

  /** The sections of the five groups, drink first. */
  function Sections(cat: Catalog, courseTemplate: string, bbCode: string -> string, data: Types.ChallengeData,
                    config: ConfigData): (r: seq<string>)
    ensures |r| == 5
  {
    [CourseSection(cat, courseTemplate, bbCode, data, config, Drink),
     CourseSection(cat, courseTemplate, bbCode, data, config, Starter),
     CourseSection(cat, courseTemplate, bbCode, data, config, Main),
     CourseSection(cat, courseTemplate, bbCode, data, config, Side),
     CourseSection(cat, courseTemplate, bbCode, data, config, Dessert)]
  }

  /** `coursesText`: the non-empty course sections separated by a blank line. */
  function CoursesText(cat: Catalog, courseTemplate: string, bbCode: string -> string, data: Types.ChallengeData,
                       config: ConfigData): string
  {
    Join(NonEmpty(Sections(cat, courseTemplate, bbCode, data, config)), "\n\n")
  }

  /**
   * The post lists the non-empty sections in group order: drink, starter, main, side, dessert.
   */
  lemma CoursesKeepGroupOrder(sections: seq<string>)
    requires |sections| == 5
    ensures NonEmpty(sections) == NonEmpty([sections[0]]) + NonEmpty([sections[1]]) + NonEmpty([sections[2]])
      + NonEmpty([sections[3]]) + NonEmpty([sections[4]])
  {
    assert sections == [sections[0]] + [sections[1]] + [sections[2]] + [sections[3]] + [sections[4]];
    NonEmptyAppend([sections[0]] + [sections[1]] + [sections[2]] + [sections[3]], [sections[4]]);
    NonEmptyAppend([sections[0]] + [sections[1]] + [sections[2]], [sections[3]]);
    NonEmptyAppend([sections[0]] + [sections[1]], [sections[2]]);
    NonEmptyAppend([sections[0]], [sections[1]]);
  }

  /** With every group disabled the post lists no course. */
  lemma CoursesTextAllDisabled(cat: Catalog, courseTemplate: string, bbCode: string -> string, data: Types.ChallengeData, config: ConfigData)
    requires forall g: Group :: !config.courses.ForGroup(g).enabled
    ensures CoursesText(cat, courseTemplate, bbCode, data, config) == ""
  {
    NonEmptyOfBlanks(Sections(cat, courseTemplate, bbCode, data, config));
  }

  /** A section is kept in the post exactly when it is non-empty, whatever the other groups do. */
  lemma CourseSectionListed(cat: Catalog, courseTemplate: string, bbCode: string -> string, data: Types.ChallengeData,
                            config: ConfigData, g: Group)
    ensures var s := CourseSection(cat, courseTemplate, bbCode, data, config, g);
      s != "" ==> s in NonEmpty(Sections(cat, courseTemplate, bbCode, data, config))
    ensures !config.courses.ForGroup(g).enabled ==> CourseSection(cat, courseTemplate, bbCode, data, config, g) == ""
  {
    var sections := Sections(cat, courseTemplate, bbCode, data, config);
    var i := match g case Drink => 0 case Starter => 1 case Main => 2 case Side => 3 case Dessert => 4;
    assert sections[i] == CourseSection(cat, courseTemplate, bbCode, data, config, g);
  }

  /** The template data of `generateBBCode`: the course list, the dates and the configuration. */
  function SignupTemplateData(coursesText: string, dates: DateRange, config: ConfigData): (r: Assoc<string>)
  {
    [("coursesText", coursesText),
     ("startDate", dates.startDate),
     ("finishDate", dates.finishDate),
     ("configData.username", config.username),
     ("configData.completedAnime", config.completedAnime),
     ("configData.timeZone", config.timeZone),
     ("configData.animeInForum", config.animeInForum),
     ("configData.initialPostNumber", config.initialPostNumber),
     ("configData.legend.ptw", config.legend.ptw),
     ("configData.legend.watching", config.legend.watching),
     ("configData.legend.completed", config.legend.completed)]
  }

  /** The post's dates: over the entries that count for an enabled course. */
  function SignupDates(data: Types.ChallengeData, config: ConfigData): DateRange
  {
    CalculateStartEndDates(Values(EnabledEntries(GetEnabledCourses(config.courses), data)))
  }

  /** `courses[group].enabled ? generateCourseText(...) : ''` */
  method CourseSectionText(cat: Catalog, courseTemplate: string, bbCode: string -> string, data: Types.ChallengeData,
                           config: ConfigData, g: Group) returns (section: string)
    ensures section == CourseSection(cat, courseTemplate, bbCode, data, config, g)
  {
    section := "";
    if config.courses.ForGroup(g).enabled {
      section := GenerateCourseText(cat, courseTemplate, bbCode, data, config, g, GroupNumber(g));
    }
  }

  /** The five course sections of `generateBBCode`, joined. */
  method CoursesTextOf(cat: Catalog, courseTemplate: string, bbCode: string -> string,
                       challengeDetails: Types.ChallengeData, configData: ConfigData) returns (coursesText: string)
    ensures coursesText == CoursesText(cat, courseTemplate, bbCode, challengeDetails, configData)
  {
    var drink := CourseSectionText(cat, courseTemplate, bbCode, challengeDetails, configData, Drink);
    var starter := CourseSectionText(cat, courseTemplate, bbCode, challengeDetails, configData, Starter);
    var main := CourseSectionText(cat, courseTemplate, bbCode, challengeDetails, configData, Main);
    var side := CourseSectionText(cat, courseTemplate, bbCode, challengeDetails, configData, Side);
    var dessert := CourseSectionText(cat, courseTemplate, bbCode, challengeDetails, configData, Dessert);
    var sections := [drink, starter, main, side, dessert];
    coursesText := Join(NonEmpty(sections), "\n\n");
  }

  /**
   * `generateBBCode`: the sign-up template filled with the five course sections and the dates
   * of the entries of enabled courses.
   */
  method GenerateBBCode(cat: Catalog, signupTemplate: string, courseTemplate: string, bbCode: string -> string,
                        challengeDetails: Types.ChallengeData, configData: ConfigData) returns (text: string)
    requires DistinctKeys(challengeDetails)
    ensures text == Rendered(signupTemplate, SignupTemplateData(
      CoursesText(cat, courseTemplate, bbCode, challengeDetails, configData),
      SignupDates(challengeDetails, configData), configData))
  {
    var coursesText := CoursesTextOf(cat, courseTemplate, bbCode, challengeDetails, configData);
    var enabled := GetEnabledChallenges(configData.courses, challengeDetails);
    var dates := CalculateStartEndDates(Values(enabled));
    assert dates == SignupDates(challengeDetails, configData);
    var templateData := SignupTemplateData(coursesText, dates, configData);
    text := ReplaceTemplates(signupTemplate, templateData);
  }

  /**
   * The post's start date is the earliest start date of an entry with an anime that counts for
   * an enabled course, and "" when there is none.
   */
  lemma SignupStartDateIsEarliest(data: Types.ChallengeData, config: ConfigData, k: string)
    requires DistinctKeys(data)
    requires k in Keys(data) && HasEnabledCourse(GetEnabledCourses(config.courses), Lookup(data, k).value)
    requires Dated(Lookup(data, k).value, true)
    ensures SignupDates(data, config).startDate != ""
    ensures JsLe(SignupDates(data, config).startDate, Lookup(data, k).value.startDate)
  {
    var enabled := GetEnabledCourses(config.courses);
    var kept := EnabledEntries(enabled, data);
    EnabledEntriesKeys(enabled, data, k);
    EnabledEntriesSubMap(enabled, data, k);
    LookupFound(kept, k);
    var i :| 0 <= i < |kept| && kept[i] == (k, Lookup(kept, k).value);
    assert Values(kept)[i] == Lookup(data, k).value;
  }
}
