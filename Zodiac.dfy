/** The two static tables of the backend (the twelve date ranges and the per-sign
    attributes) and the sun-sign resolver that searches the first of them. */
module Zodiac {
  import opened Dates

  /** One entry of the range table: a sign and its inclusive first and last (month, day). */
  datatype ZodiacRange = ZodiacRange(sign: string, start: MonthDay, end: MonthDay)

  /** The range table, in the order the resolver searches it. */
  const ZodiacRanges: seq<ZodiacRange> := [
    ZodiacRange("capricorn",   MonthDay(12, 22), MonthDay(1, 19)),
    ZodiacRange("aquarius",    MonthDay(1, 20),  MonthDay(2, 18)),
    ZodiacRange("pisces",      MonthDay(2, 19),  MonthDay(3, 20)),
    ZodiacRange("aries",       MonthDay(3, 21),  MonthDay(4, 19)),
    ZodiacRange("taurus",      MonthDay(4, 20),  MonthDay(5, 20)),
    ZodiacRange("gemini",      MonthDay(5, 21),  MonthDay(6, 21)),
    ZodiacRange("cancer",      MonthDay(6, 22),  MonthDay(7, 22)),
    ZodiacRange("leo",         MonthDay(7, 23),  MonthDay(8, 22)),
    ZodiacRange("virgo",       MonthDay(8, 23),  MonthDay(9, 22)),
    ZodiacRange("libra",       MonthDay(9, 23),  MonthDay(10, 23)),
    ZodiacRange("scorpio",     MonthDay(10, 24), MonthDay(11, 21)),
    ZodiacRange("sagittarius", MonthDay(11, 22), MonthDay(12, 21))
  ]

  /** What the sign table says about one sign. */
  datatype SignAttributes = SignAttributes(element: string, mode: string, short: string)

  /** The sign attribute table, keyed by sign name. */
  const SignInfo: map<string, SignAttributes> := map[
    "aries"       := SignAttributes("Fire",  "Cardinal", "Bold, energetic, initiating."),
    "taurus"      := SignAttributes("Earth", "Fixed",    "Practical, steady, sensual."),
    "gemini"      := SignAttributes("Air",   "Mutable",  "Curious, communicative, adaptable."),
    "cancer"      := SignAttributes("Water", "Cardinal", "Caring, intuitive, home-oriented."),
    "leo"         := SignAttributes("Fire",  "Fixed",    "Confident, expressive, generous."),
    "virgo"       := SignAttributes("Earth", "Mutable",  "Analytical, service-oriented, detail-focused."),
    "libra"       := SignAttributes("Air",   "Cardinal", "Diplomatic, partnership-focused, balanced."),
    "scorpio"     := SignAttributes("Water", "Fixed",    "Intense, transformative, private."),
    "sagittarius" := SignAttributes("Fire",  "Mutable",  "Adventurous, philosophical, freedom-loving."),
    "capricorn"   := SignAttributes("Earth", "Cardinal", "Ambitious, disciplined, practical."),
    "aquarius"    := SignAttributes("Air",   "Fixed",    "Innovative, community-minded, unconventional."),
    "pisces"      := SignAttributes("Water", "Mutable",  "Compassionate, imaginative, dreamy.")
  ]

  /** The twelve sign names. */
  const SignNames: set<string> := {
    "aries", "taurus", "gemini", "cancer", "leo", "virgo",
    "libra", "scorpio", "sagittarius", "capricorn", "aquarius", "pisces"
  }

  const Elements: set<string> := {"Fire", "Earth", "Air", "Water"}

  const Modes: set<string> := {"Cardinal", "Fixed", "Mutable"}

  /** The sign returned when no range matches. */
  const FallbackSign: string := "capricorn"

  /** The resolver's test of one range. A range whose start month is not after its end
      month is read as lying within one year; any other range wraps the year boundary and
      matches a date on or after its start or on or before its end. */
  predicate Matches(r: ZodiacRange, md: MonthDay) {
    if r.start.month <= r.end.month then MonthDayLe(r.start, md) && MonthDayLe(md, r.end)
    else MonthDayLe(r.start, md) || MonthDayLe(md, r.end)
  }

  /** The same test with the wrap decided on the full (month, day) pairs. */
  predicate MatchesByPairs(r: ZodiacRange, md: MonthDay) {
    if MonthDayLe(r.start, r.end) then MonthDayLe(r.start, md) && MonthDayLe(md, r.end)
    else MonthDayLe(r.start, md) || MonthDayLe(md, r.end)
  }

  /** The resolver's loop: the sign of the first matching range, else the fallback. */
  function SearchRanges(ranges: seq<ZodiacRange>, md: MonthDay): string {
    if ranges == [] then FallbackSign
    else if Matches(ranges[0], md) then ranges[0].sign
    else SearchRanges(ranges[1..], md)
  }

  /** Entry `i` is the first that matches `md`. */
  ghost predicate FirstMatchAt(ranges: seq<ZodiacRange>, md: MonthDay, i: int) {
    0 <= i < |ranges| && Matches(ranges[i], md) && forall j :: 0 <= j < i ==> !Matches(ranges[j], md)
  }

  /** The search returns the sign of the first matching range, and the fallback when no
      range matches. */
  lemma {:induction false} SearchRangesFirstMatch(ranges: seq<ZodiacRange>, md: MonthDay)
    ensures (exists i :: 0 <= i < |ranges| && Matches(ranges[i], md)) ==>
              exists i :: FirstMatchAt(ranges, md, i) && SearchRanges(ranges, md) == ranges[i].sign
    ensures (forall i :: 0 <= i < |ranges| ==> !Matches(ranges[i], md)) ==>
              SearchRanges(ranges, md) == FallbackSign
  {
    if ranges != [] && !Matches(ranges[0], md) {
      var rest := ranges[1..];
      SearchRangesFirstMatch(rest, md);
      if i :| 0 <= i < |ranges| && Matches(ranges[i], md) {
        assert Matches(rest[i - 1], md);
        var k :| FirstMatchAt(rest, md, k) && SearchRanges(rest, md) == rest[k].sign;
        assert FirstMatchAt(ranges, md, k + 1);
      }
      if forall i :: 0 <= i < |ranges| ==> !Matches(ranges[i], md) {
        assert forall i :: 0 <= i < |rest| ==> rest[i] == ranges[i + 1];
      }
    } else if ranges != [] {
      assert FirstMatchAt(ranges, md, 0);
    }
  }

  /** Every (month, day) pair, whatever its values, matches exactly one range. */
  lemma Partition(md: MonthDay)
    ensures exists i :: 0 <= i < |ZodiacRanges| && Matches(ZodiacRanges[i], md)
    ensures forall i, j ::
              (0 <= i < |ZodiacRanges| && 0 <= j < |ZodiacRanges| &&
               Matches(ZodiacRanges[i], md) && Matches(ZodiacRanges[j], md)) ==> i == j
  {
    var t := ZodiacRanges;
    if Matches(t[0], md) {} else if Matches(t[1], md) {} else if Matches(t[2], md) {}
    else if Matches(t[3], md) {} else if Matches(t[4], md) {} else if Matches(t[5], md) {}
    else if Matches(t[6], md) {} else if Matches(t[7], md) {} else if Matches(t[8], md) {}
    else if Matches(t[9], md) {} else if Matches(t[10], md) {} else {
      assert Matches(t[11], md);
    }
  }

  /** `calculate_sun_sign`: the sign of the one range the birth date falls in. The
      result is in the attribute table, and it is the sign of every matching range, so the
      order of the table does not change it. */
  function CalculateSunSign(birth: DateTime): (sign: string)
    ensures sign in SignInfo
    ensures exists i :: 0 <= i < |ZodiacRanges| && Matches(ZodiacRanges[i], MonthDayOf(birth))
                        && sign == ZodiacRanges[i].sign
    ensures forall i :: 0 <= i < |ZodiacRanges| && Matches(ZodiacRanges[i], MonthDayOf(birth))
                        ==> sign == ZodiacRanges[i].sign
  {
    var md := MonthDayOf(birth);
    SearchRangesFirstMatch(ZodiacRanges, md);
    Partition(md);
    TableCorrespondence();
    SearchRanges(ZodiacRanges, md)
  }

  /** In a table where some range matches and every matching range carries the sign
      `s`, every reordering of the table is searched to `s`. */
  lemma SameSign(t: seq<ZodiacRange>, perm: seq<ZodiacRange>, md: MonthDay, s: string)
    requires multiset(perm) == multiset(t)
    requires exists i :: 0 <= i < |t| && Matches(t[i], md)
    requires forall j :: 0 <= j < |t| && Matches(t[j], md) ==> t[j].sign == s
    ensures SearchRanges(perm, md) == s
  {
    var i :| 0 <= i < |t| && Matches(t[i], md);
    assert t[i] in multiset(perm);
    SearchRangesFirstMatch(perm, md);
    var k :| FirstMatchAt(perm, md, k) && SearchRanges(perm, md) == perm[k].sign;
    assert perm[k] in multiset(t);
    var j :| 0 <= j < |t| && t[j] == perm[k];
  }

  /** The order of the range table does not matter: searching any permutation of it
      resolves every birth date to the same sign. */
  lemma OrderIrrelevant(perm: seq<ZodiacRange>, birth: DateTime)
    requires multiset(perm) == multiset(ZodiacRanges)
    ensures SearchRanges(perm, MonthDayOf(birth)) == CalculateSunSign(birth)
  {
    SameSign(ZodiacRanges, perm, MonthDayOf(birth), CalculateSunSign(birth));
  }

  /** The two tables correspond one to one: twelve distinct signs in the range table,
      exactly those twelve as keys of the attribute table, and every element and mode drawn
      from its fixed set. */
  lemma TableCorrespondence()
    ensures |ZodiacRanges| == 12 && |SignInfo| == 12
    ensures forall i, j :: 0 <= i < j < |ZodiacRanges| ==> ZodiacRanges[i].sign != ZodiacRanges[j].sign
    ensures forall i :: 0 <= i < |ZodiacRanges| ==> ZodiacRanges[i].sign in SignInfo
    ensures forall s :: s in SignInfo ==> exists i :: 0 <= i < |ZodiacRanges| && ZodiacRanges[i].sign == s
    ensures forall s :: s in SignInfo ==> SignInfo[s].element in Elements && SignInfo[s].mode in Modes
  {
    SignsDistinct();
    RangeSignsKnown();
    InfoSignsRanged();
    InfoCardinality();
    InfoValues();
  }

  lemma SignsDistinct()
    ensures forall i, j :: 0 <= i < j < |ZodiacRanges| ==> ZodiacRanges[i].sign != ZodiacRanges[j].sign
  {
  }

  lemma RangeSignsKnown()
    ensures forall i :: 0 <= i < |ZodiacRanges| ==> ZodiacRanges[i].sign in SignInfo
  {
  }

  lemma InfoSignsRanged()
    ensures forall s :: s in SignInfo ==> exists i :: 0 <= i < |ZodiacRanges| && ZodiacRanges[i].sign == s
  {
    InfoKeySet();
    forall s | s in SignNames
      ensures exists i :: 0 <= i < |ZodiacRanges| && ZodiacRanges[i].sign == s
    {
      var i := RangeIndex(s);
    }
  }

  /** The position of a sign name in the range table. */
  ghost function RangeIndex(s: string): (i: nat)
    requires s in SignNames
    ensures i < |ZodiacRanges| && ZodiacRanges[i].sign == s
  {
    if s == "capricorn" then 0 else if s == "aquarius" then 1 else if s == "pisces" then 2
    else if s == "aries" then 3 else if s == "taurus" then 4 else if s == "gemini" then 5
    else if s == "cancer" then 6 else if s == "leo" then 7 else if s == "virgo" then 8
    else if s == "libra" then 9 else if s == "scorpio" then 10 else 11
  }

  lemma InfoKeySet()
    ensures SignInfo.Keys == SignNames
  {
  }

  lemma SignNamesCount()
    ensures |SignNames| == 12
  {
  }

  lemma InfoCardinality()
    ensures |SignInfo| == 12
  {
    InfoKeySet();
    SignNamesCount();
    assert |SignInfo| == |SignInfo.Keys|;
  }

  lemma InfoValues()
    ensures forall s :: s in SignInfo ==> SignInfo[s].element in Elements && SignInfo[s].mode in Modes
  {
  }

  /** The boundary days of the ranges are inclusive on both ends. */
  lemma Boundaries(birth: DateTime)
    ensures MonthDayOf(birth) == MonthDay(12, 22) ==> CalculateSunSign(birth) == "capricorn"
    ensures MonthDayOf(birth) == MonthDay(1, 19) ==> CalculateSunSign(birth) == "capricorn"
    ensures MonthDayOf(birth) == MonthDay(12, 21) ==> CalculateSunSign(birth) == "sagittarius"
    ensures MonthDayOf(birth) == MonthDay(1, 20) ==> CalculateSunSign(birth) == "aquarius"
    ensures MonthDayOf(birth) == MonthDay(4, 19) ==> CalculateSunSign(birth) == "aries"
    ensures MonthDayOf(birth) == MonthDay(4, 20) ==> CalculateSunSign(birth) == "taurus"
  {
    var md := MonthDayOf(birth);
    assert Matches(ZodiacRanges[0], MonthDay(12, 22)) && Matches(ZodiacRanges[0], MonthDay(1, 19));
    assert Matches(ZodiacRanges[11], MonthDay(12, 21)) && Matches(ZodiacRanges[1], MonthDay(1, 20));
    assert Matches(ZodiacRanges[3], MonthDay(4, 19)) && Matches(ZodiacRanges[4], MonthDay(4, 20));
  }

  /** Deciding the wrap on months alone agrees with deciding it on full pairs whenever a
      range starts and ends in different months. */
  lemma MonthTestAgrees(r: ZodiacRange, md: MonthDay)
    requires r.start.month != r.end.month
    ensures Matches(r, md) == MatchesByPairs(r, md)
  {
  }

  /** In the table no range starts and ends in the same month, so the month-only wrap
      test of the resolver is the pair test; only the first entry, capricorn, wraps. */
  lemma WrapTestOnTable(md: MonthDay)
    ensures forall i :: 0 <= i < |ZodiacRanges| ==> ZodiacRanges[i].start.month != ZodiacRanges[i].end.month
    ensures forall i :: 0 <= i < |ZodiacRanges| ==>
              (ZodiacRanges[i].start.month > ZodiacRanges[i].end.month <==> i == 0)
    ensures forall i :: 0 <= i < |ZodiacRanges| ==>
              Matches(ZodiacRanges[i], md) == MatchesByPairs(ZodiacRanges[i], md)
  {
    forall i | 0 <= i < |ZodiacRanges|
      ensures Matches(ZodiacRanges[i], md) == MatchesByPairs(ZodiacRanges[i], md)
    {
      MonthTestAgrees(ZodiacRanges[i], md);
    }
  }

  /** A range that starts and ends in one month with a start day after the end day shows
      why the table needs that property: the month-only test reads it as a within-year
      range that matches no date at all, while the pair test reads it as a wrapping range
      that holds both of its ends. */
  lemma MonthTestNeedsDistinctMonths(r: ZodiacRange, md: MonthDay)
    requires r.start.month == r.end.month && r.start.day > r.end.day
    ensures !Matches(r, md)
    ensures MatchesByPairs(r, r.start) && MatchesByPairs(r, r.end)
  {
  }
}
