/** The report builder: the parser input assembled from the date and time text, the age
    rule, and the record `generate_report` returns. The date parser, the ISO rendering of
    its result and the current time are parameters of the model. */
module Report {
  import opened Wrappers
  import opened Dates
  import opened Text
  import opened Zodiac

  /** The date parser: the parsed value, or the text of the parser's complaint. */
  type Parser = string -> Result<DateTime, string>

  /** What `generate_report` returns: an error record, or the full profile. Fields that
      the source fills from `dict.get` lookups are optional. */
  datatype Report =
    | ErrorReport(error: string)
    | Profile(name: string, birthDatetime: string, place: string, sunSign: string,
              element: Option<string>, mode: Option<string>, age: int,
              shortProfile: Option<string>, fullText: string)

  const ErrorPrefix: string := "Invalid date/time format: "

  /** The text handed to the parser: the date with the time after one blank when a
      non-empty time is given, the date alone otherwise. */
  function ParserInput(date: string, time: Option<string>): (full: string)
    ensures |full| >= |date| && full[..|date|] == date
    ensures time.Some? && time.value != [] ==> full == date + " " + time.value
    ensures time.None? || time.value == [] ==> full == date
  {
    if time.Some? && time.value != [] then date + " " + time.value else date
  }

  /** `parse_datetime`. */
  function ParseDateTime(date: string, time: Option<string>, parse: Parser): Result<DateTime, string> {
    parse(ParserInput(date, time))
  }

  /** Age in whole years: the year difference, less one when the birthday is still ahead
      in the current year. */
  function Age(birth: DateTime, now: DateTime): int {
    now.year - birth.year - (if MonthDayLt(MonthDayOf(now), MonthDayOf(birth)) then 1 else 0)
  }

  /** The `k`-th birthday after `birth` falls on or before the date of `now`. */
  predicate BirthdayReached(birth: DateTime, now: DateTime, k: int) {
    now.year > birth.year + k
    || (now.year == birth.year + k && MonthDayLe(MonthDayOf(birth), MonthDayOf(now)))
  }

  /** The age is the number of birthdays reached: the `Age`-th has been reached and the
      next one has not. */
  lemma AgeCountsBirthdays(birth: DateTime, now: DateTime)
    ensures BirthdayReached(birth, now, Age(birth, now))
    ensures !BirthdayReached(birth, now, Age(birth, now) + 1)
  {
  }

  /** On the birth date itself the age is zero. */
  lemma AgeOnBirthDate(birth: DateTime, now: DateTime)
    requires now.year == birth.year && MonthDayOf(now) == MonthDayOf(birth)
    ensures Age(birth, now) == 0
  {
  }

  /** A birth date not after the current date gives a non-negative age. */
  lemma AgeNonNegative(birth: DateTime, now: DateTime)
    requires DateLe(birth, now)
    ensures Age(birth, now) >= 0
  {
  }

  /** Python's `str(x)` of an optional text: the text, or `None`. */
  function Show(o: Option<string>): string {
    o.GetOr("None")
  }

  /** `info.get(field)` on `SIGN_INFO.get(sign, {})`. */
  function InfoOf(sign: string): Option<SignAttributes> {
    if sign in SignInfo then Some(SignInfo[sign]) else None
  }

  /** The one-sentence summary of a profile. */
  function FullText(name: string, sign: string, element: Option<string>, mode: Option<string>,
                    short: Option<string>): string
  {
    name + ", your Sun sign is " + Title(sign) + " — " + Show(short) + " ("
      + Show(element) + " element, " + Show(mode) + " modality)."
  }

  /** `generate_report`. */
  function GenerateReport(name: string, date: string, time: Option<string>, place: string,
                          parse: Parser, iso: DateTime -> string, now: DateTime): Report
  {
    match ParseDateTime(date, time, parse)
    case Failure(e) => ErrorReport(ErrorPrefix + e)
    case Success(dt) =>
      var sign := CalculateSunSign(dt);
      var info := InfoOf(sign);
      var element := if info.Some? then Some(info.value.element) else None;
      var mode := if info.Some? then Some(info.value.mode) else None;
      var short := if info.Some? then Some(info.value.short) else None;
      Profile(name, iso(dt), place, sign, element, mode, Age(dt, now), short,
              FullText(name, sign, element, mode, short))
  }

  /** Every sign name is a lower-case word. */
  lemma SignNamesLowerWords()
    ensures forall s :: s in SignInfo ==> IsLowerWord(s)
  {
    InfoKeySet();
  }

  /** The resolved sign appears in the summary with its first letter raised and the rest
      as in the table. */
  lemma ResolvedSignTitle(birth: DateTime)
    ensures var sign := CalculateSunSign(birth);
            Title(sign) == [UpperChar(sign[0])] + sign[1..] && IsUpper(Title(sign)[0])
  {
    SignNamesLowerWords();
    TitleOfLowerWord(CalculateSunSign(birth));
  }

  /** A failed parse gives an error record, and only then; its text is the fixed prefix
      followed by the parser's complaint. */
  lemma BuildError(name: string, date: string, time: Option<string>, place: string,
                   parse: Parser, iso: DateTime -> string, now: DateTime)
    ensures GenerateReport(name, date, time, place, parse, iso, now).ErrorReport?
            <==> parse(ParserInput(date, time)).Failure?
    ensures parse(ParserInput(date, time)).Failure? ==>
              var err := GenerateReport(name, date, time, place, parse, iso, now).error;
              |err| >= |ErrorPrefix| && err[..|ErrorPrefix|] == ErrorPrefix
              && err[|ErrorPrefix|..] == parse(ParserInput(date, time)).error
  {
  }

  /** A successful parse gives a profile whose sign is the resolved sign of the parsed
      date, whose element, mode and phrase are that sign's table entry (never absent),
      whose name and place are the inputs and whose age follows the age rule. */
  lemma BuildSuccess(name: string, date: string, time: Option<string>, place: string,
                     parse: Parser, iso: DateTime -> string, now: DateTime)
    requires parse(ParserInput(date, time)).Success?
    ensures var dt := parse(ParserInput(date, time)).value;
            var r := GenerateReport(name, date, time, place, parse, iso, now);
            var sign := CalculateSunSign(dt);
            && r.Profile?
            && r.sunSign == sign && sign in SignInfo
            && r.element == Some(SignInfo[sign].element) && r.element.value in Elements
            && r.mode == Some(SignInfo[sign].mode) && r.mode.value in Modes
            && r.shortProfile == Some(SignInfo[sign].short)
            && r.name == name && r.place == place && r.birthDatetime == iso(dt)
            && r.age == Age(dt, now)
            && r.fullText == name + ", your Sun sign is " + Title(sign) + " — "
                 + SignInfo[sign].short + " (" + SignInfo[sign].element + " element, "
                 + SignInfo[sign].mode + " modality)."
  {
    var dt := parse(ParserInput(date, time)).value;
    TableCorrespondence();
  }

  /** The worked example: 1 August 1995 at 09:30 gives a Leo, Fire, Fixed profile. */
  lemma AshaExample(parse: Parser, iso: DateTime -> string, now: DateTime)
    requires parse("1995-08-01 09:30") == Success(DateTime(1995, 8, 1, 9, 30, 0))
    ensures var r := GenerateReport("Asha", "1995-08-01", Some("09:30"), "Mumbai, India", parse, iso, now);
            r.Profile? && r.sunSign == "leo" && r.element == Some("Fire") && r.mode == Some("Fixed")
            && r.age == Age(DateTime(1995, 8, 1, 9, 30, 0), now)
  {
    AshaParserInput();
    LeoInAugust(DateTime(1995, 8, 1, 9, 30, 0));
    BuildSuccess("Asha", "1995-08-01", Some("09:30"), "Mumbai, India", parse, iso, now);
  }

  /** The date and time of the worked example are joined with one blank. */
  lemma AshaParserInput()
    ensures ParserInput("1995-08-01", Some("09:30")) == "1995-08-01 09:30"
  {
  }

  /** A birth on 1 August is a Leo of the Fire element and Fixed modality. */
  lemma LeoInAugust(birth: DateTime)
    requires birth.month == 8 && birth.day == 1
    ensures CalculateSunSign(birth) == "leo"
    ensures SignInfo["leo"].element == "Fire" && SignInfo["leo"].mode == "Fixed"
  {
    assert Matches(ZodiacRanges[7], MonthDayOf(birth));
  }
}
