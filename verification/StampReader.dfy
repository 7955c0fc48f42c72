/** A reader of the `created` stamp that knows nothing of how it is printed: RFC 3339, section 5.6, in UTC
    with nine places of a second, and a year of four digits or more. */
module StampReader {
  import opened Wrappers
  import opened Calendar
  import opened Timestamps
  import opened StartTime

  datatype Reading = Reading(civil: Civil, nanos: nat)

  predicate AllDigits(s: string) {
    forall c | c in s :: IsDigit(c)
  }

  /** The fields of a stamp; the 26 characters after the year are "-MM-DDTHH:MM:SS.nnnnnnnnnZ". */
  function Read(s: string): Option<Reading> {
    if |s| < 30 then None
    else
      var year, rest := s[..|s| - 26], s[|s| - 26..];
      if AllDigits(year) && Shaped(rest) then
        Some(Reading(
               Civil(Date(Number(year), Number(rest[1..3]), Number(rest[4..6])),
                     Number(rest[7..9]), Number(rest[10..12]), Number(rest[13..15])),
               Number(rest[16..25])))
      else None
  }

  predicate Shaped(rest: string) {
    && |rest| == 26
    && rest[0] == '-' && AllDigits(rest[1..3]) && rest[3] == '-' && AllDigits(rest[4..6])
    && rest[6] == 'T' && AllDigits(rest[7..9]) && rest[9] == ':' && AllDigits(rest[10..12])
    && rest[12] == ':' && AllDigits(rest[13..15])
    && rest[15] == '.' && AllDigits(rest[16..25]) && rest[25] == 'Z'
  }

  // ---- The printed fields are where the reader looks ------------------------------------------------------

  lemma TwoPlaces(n: nat)
    requires n < 100
    ensures |Padded(n, 2)| == 2 && AllDigits(Padded(n, 2)) && Number(Padded(n, 2)) == n
  {
    assert Pow10(2) == 100;
    PaddedLength(n, 2);
    NumberOfDecimal(n, 2);
  }

  lemma ClockPartReads(c: Civil, nanos: nat)
    requires ValidTime(c) && nanos < 1_000_000_000
    ensures var s := ClockPart(c, nanos);
            && |s| == 19
            && s[..2] == Padded(c.hour, 2) && s[2] == ':' && s[3..5] == Padded(c.minute, 2) && s[5] == ':'
            && s[6..8] == Padded(c.second, 2) && s[8] == '.' && s[9..18] == Padded(nanos, 9) && s[18] == 'Z'
  {
    TwoPlaces(c.hour);
    TwoPlaces(c.minute);
    TwoPlaces(c.second);
    NinePlaces();
    PaddedLength(nanos, 9);
  }

  lemma DayPartReads(c: Civil, nanos: nat)
    requires ValidDate(c.date) && ValidTime(c) && nanos < 1_000_000_000
    ensures var s := DayPart(c, nanos);
            && |s| == 25
            && s[..2] == Padded(c.date.month, 2) && s[2] == '-' && s[3..5] == Padded(c.date.day, 2) && s[5] == 'T'
            && s[6..] == ClockPart(c, nanos)
  {
    TwoPlaces(c.date.month);
    TwoPlaces(c.date.day);
    ClockPartReads(c, nanos);
  }

  /** The part after the year. */
  lemma RestIsShaped(c: Civil, nanos: nat)
    requires ValidDate(c.date) && ValidTime(c) && nanos < 1_000_000_000
    ensures var rest := ['-'] + DayPart(c, nanos);
            && Shaped(rest)
            && Number(rest[1..3]) == c.date.month && Number(rest[4..6]) == c.date.day
            && Number(rest[7..9]) == c.hour && Number(rest[10..12]) == c.minute && Number(rest[13..15]) == c.second
            && Number(rest[16..25]) == nanos
  {
    var day, clock := DayPart(c, nanos), ClockPart(c, nanos);
    var rest := ['-'] + day;
    DayPartReads(c, nanos);
    ClockPartReads(c, nanos);
    assert rest[1..3] == day[..2] && rest[3] == day[2] && rest[4..6] == day[3..5] && rest[6] == day[5];
    assert rest[7..9] == clock[..2] && rest[9] == clock[2] && rest[10..12] == clock[3..5] && rest[12] == clock[5];
    assert rest[13..15] == clock[6..8] && rest[15] == clock[8] && rest[16..25] == clock[9..18] && rest[25] == clock[18];
    TwoPlaces(c.date.month);
    TwoPlaces(c.date.day);
    TwoPlaces(c.hour);
    TwoPlaces(c.minute);
    TwoPlaces(c.second);
    NumberOfDecimal(nanos, 9);
  }

  /** Every stamp is read back as the fields it was printed from. */
  lemma StampComesBack(t: Instant)
    requires ValidInstant(t)
    ensures Read(Rfc3339(t)) == Some(Reading(CivilFromUnix(t.secs), t.nanos))
    ensures YearOf(t) <= 9_999 <==> |Rfc3339(t)| == 30
  {
    var c := CivilFromUnix(t.secs);
    CivilFromUnixIsExact(t.secs);
    YearIsAtLeast1970(t.secs);
    var year, rest := Padded(c.date.year, 4), ['-'] + DayPart(c, t.nanos);
    assert Rfc3339(t) == year + rest;
    PaddedAtPlaces(c.date.year);
    PlacesBound(c.date.year);
    PaddedLength(c.date.year, Places(c.date.year));
    NumberOfDecimal(c.date.year, 4);
    RestIsShaped(c, t.nanos);
    assert (year + rest)[..|year|] == year && (year + rest)[|year|..] == rest;
  }

  /** So a stamp denotes its instant: the date and time it names are valid ones, and counting them back, day
      by day and year by year, gives the second; no two instants share a stamp. */
  lemma StampDenotesItsInstant(t: Instant, u: Instant)
    requires ValidInstant(t) && ValidInstant(u)
    ensures var reading := Read(Rfc3339(t));
            && reading.Some? && ValidDate(reading.value.civil.date) && ValidTime(reading.value.civil)
            && UnixFromCivil(reading.value.civil) == t.secs && reading.value.nanos == t.nanos
    ensures Rfc3339(t) == Rfc3339(u) ==> t == u
  {
    StampComesBack(t);
    StampComesBack(u);
    CivilFromUnixIsExact(t.secs);
    CivilFromUnixIsExact(u.secs);
  }
}
