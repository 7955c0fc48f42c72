/** The `created` stamp and the order in which containers are listed.

    Containers are sorted by the bytes of their stamps. The results below say exactly when that
    order is the order of creation. */
module Timestamps {
  import opened Calendar
  import opened Wrappers

  // ---- Byte order on strings --------------------------------------------------------------------

  predicate Less(a: string, b: string) {
    b != [] && (a == [] || a[0] < b[0] || (a[0] == b[0] && Less(a[1..], b[1..])))
  }

  lemma {:induction false} LessIsIrreflexive(a: string)
    ensures !Less(a, a)
  {
    if a != [] { LessIsIrreflexive(a[1..]); }
  }

  lemma {:induction false} LessIsTransitive(a: string, b: string, c: string)
    requires !Less(b, a) && !Less(c, b)
    ensures !Less(c, a)
  {
    if a != [] && b != [] && c != [] && a[0] == b[0] == c[0] {
      LessIsTransitive(a[1..], b[1..], c[1..]);
    }
  }

  /** Strings with heads of one length compare by head first. */
  lemma {:induction false} LessByHead(a: string, b: string, x: string, y: string)
    requires |a| == |b|
    ensures Less(a + x, b + y) <==> Less(a, b) || (a == b && Less(x, y))
  {
    if a == [] {
      assert a + x == x && b + y == y;
    } else {
      assert (a + x)[1..] == a[1..] + x && (b + y)[1..] == b[1..] + y;
      LessByHead(a[1..], b[1..], x, y);
      assert a == [a[0]] + a[1..] && b == [b[0]] + b[1..];
    }
  }

  // ---- Zero-padded numbers ----------------------------------------------------------------------

  function Digit(d: nat): char
    requires d < 10
  {
    '0' + d as char
  }

  /** Decimal digits of `n`, at least `width` of them and at least one; never truncated. */
  function Padded(n: nat, width: nat): string {
    if n < 10 && width <= 1 then [Digit(n)]
    else Padded(n / 10, if width > 0 then width - 1 else 0) + [Digit(n % 10)]
  }

  function Pow10(k: nat): nat
    ensures Pow10(k) >= 1
  {
    if k == 0 then 1 else 10 * Pow10(k - 1)
  }

  lemma {:induction false} PaddedLength(n: nat, width: nat)
    requires width >= 1 && n < Pow10(width)
    ensures |Padded(n, width)| == width
  {
    if width > 1 { PaddedLength(n / 10, width - 1); }
  }

  lemma {:induction false} PaddedOrder(n: nat, m: nat, width: nat)
    requires width >= 1 && n < Pow10(width) && m < Pow10(width)
    ensures Less(Padded(n, width), Padded(m, width)) <==> n < m
    ensures Padded(n, width) == Padded(m, width) ==> n == m
  {
    if width > 1 {
      PaddedOrder(n / 10, m / 10, width - 1);
      PaddedLength(n / 10, width - 1);
      PaddedLength(m / 10, width - 1);
      var a, b := Padded(n / 10, width - 1), Padded(m / 10, width - 1);
      var x, y := [Digit(n % 10)], [Digit(m % 10)];
      LessByHead(a, b, x, y);
      assert Less(x, y) <==> n % 10 < m % 10;
      if a + x == b + y {
        assert (a + x)[..|a|] == a && (b + y)[..|b|] == b;
        assert (a + x)[|a|] == x[0] && (b + y)[|b|] == y[0];
      }
    }
  }

  /** A field of fixed width decides the comparison unless it is equal. */
  lemma FieldOrder(n: nat, m: nat, width: nat, x: string, y: string)
    requires width >= 1 && n < Pow10(width) && m < Pow10(width)
    ensures Less(Padded(n, width) + x, Padded(m, width) + y) <==> n < m || (n == m && Less(x, y))
  {
    PaddedLength(n, width);
    PaddedLength(m, width);
    PaddedOrder(n, m, width);
    LessByHead(Padded(n, width), Padded(m, width), x, y);
    LessIsIrreflexive(Padded(n, width));
  }

  lemma SeparatorOrder(c: char, x: string, y: string)
    ensures Less([c] + x, [c] + y) <==> Less(x, y)
  {
    assert ([c] + x)[1..] == x && ([c] + y)[1..] == y;
  }

  // ---- The stamp --------------------------------------------------------------------------------

  datatype Instant = Instant(secs: nat, nanos: nat)

  predicate ValidInstant(t: Instant) {
    t.nanos < 1_000_000_000
  }

  predicate Earlier(a: Instant, b: Instant) {
    a.secs < b.secs || (a.secs == b.secs && a.nanos < b.nanos)
  }

  function YearOf(t: Instant): int {
    CivilFromUnix(t.secs).date.year
  }

  function ClockPart(c: Civil, nanos: nat): string
    requires ValidTime(c)
  {
    Padded(c.hour, 2) + ([':'] + (Padded(c.minute, 2) + ([':'] + (Padded(c.second, 2)
    + (['.'] + (Padded(nanos, 9) + ['Z']))))))
  }

  function DayPart(c: Civil, nanos: nat): string
    requires ValidDate(c.date) && ValidTime(c)
  {
    Padded(c.date.month, 2) + (['-'] + (Padded(c.date.day, 2) + (['T'] + ClockPart(c, nanos))))
  }

  function StampOf(c: Civil, nanos: nat): string
    requires ValidDate(c.date) && ValidTime(c) && c.date.year >= 0
  {
    Padded(c.date.year, 4) + (['-'] + DayPart(c, nanos))
  }

  /** `year-month-dayThour:minute:second.nanosZ`. The clock starts at the epoch, so the year is
      never negative. */
  function Rfc3339(t: Instant): string {
    CivilFromUnixIsExact(t.secs);
    YearIsAtLeast1970(t.secs);
    StampOf(CivilFromUnix(t.secs), t.nanos)
  }

  lemma YearIsAtLeast1970(secs: nat)
    ensures CivilFromUnix(secs).date.year >= 1970
  {
    var c := CivilFromUnix(secs);
    CivilFromUnixIsExact(secs);
    if c.date.year < 1970 {
      CivilOrder(c, Civil(Date(1970, 1, 1), 0, 0, 0));
    }
  }

  predicate TimeBefore(a: Civil, b: Civil) {
    a.hour < b.hour
    || (a.hour == b.hour && (a.minute < b.minute || (a.minute == b.minute && a.second < b.second)))
  }

  predicate CivilBefore(a: Civil, b: Civil) {
    DateBefore(a.date, b.date) || (a.date == b.date && TimeBefore(a, b))
  }

  /** Calendar order of the fields is the order of the seconds they denote. */
  lemma CivilOrder(a: Civil, b: Civil)
    requires ValidDate(a.date) && ValidTime(a) && ValidDate(b.date) && ValidTime(b)
    ensures CivilBefore(a, b) <==> UnixFromCivil(a) < UnixFromCivil(b)
  {
    if DateBefore(a.date, b.date) {
      DayNumberIsMonotone(a.date, b.date);
    } else if DateBefore(b.date, a.date) {
      DayNumberIsMonotone(b.date, a.date);
    }
  }

  lemma ClockPartOrder(a: Civil, m: nat, b: Civil, n: nat)
    requires ValidTime(a) && ValidTime(b) && m < 1_000_000_000 && n < 1_000_000_000
    ensures Less(ClockPart(a, m), ClockPart(b, n)) <==>
            TimeBefore(a, b) || (a.hour == b.hour && a.minute == b.minute && a.second == b.second && m < n)
  {
    assert Pow10(2) == 100;
    NinePlaces();
    var an, bn := Padded(m, 9) + ['Z'], Padded(n, 9) + ['Z'];
    FieldOrder(m, n, 9, ['Z'], ['Z']);
    SeparatorOrder('.', an, bn);
    var as', bs := Padded(a.second, 2) + (['.'] + an), Padded(b.second, 2) + (['.'] + bn);
    FieldOrder(a.second, b.second, 2, ['.'] + an, ['.'] + bn);
    SeparatorOrder(':', as', bs);
    var am, bm := Padded(a.minute, 2) + ([':'] + as'), Padded(b.minute, 2) + ([':'] + bs);
    FieldOrder(a.minute, b.minute, 2, [':'] + as', [':'] + bs);
    SeparatorOrder(':', am, bm);
    FieldOrder(a.hour, b.hour, 2, [':'] + am, [':'] + bm);
  }

  lemma NinePlaces()
    ensures Pow10(9) == 1_000_000_000
  {
    assert Pow10(3) == 1_000;
    assert Pow10(6) == 1_000_000;
  }

  lemma DayPartOrder(a: Civil, m: nat, b: Civil, n: nat)
    requires ValidDate(a.date) && ValidTime(a) && ValidDate(b.date) && ValidTime(b)
    requires m < 1_000_000_000 && n < 1_000_000_000
    ensures Less(DayPart(a, m), DayPart(b, n)) <==>
            CivilBefore(a.(date := a.date.(year := 0)), b.(date := b.date.(year := 0)))
            || (a.(date := a.date.(year := 0)) == b.(date := b.date.(year := 0)) && m < n)
  {
    assert Pow10(2) == 100;
    ClockPartOrder(a, m, b, n);
    var ac, bc := ClockPart(a, m), ClockPart(b, n);
    SeparatorOrder('T', ac, bc);
    var ad, bd := Padded(a.date.day, 2) + (['T'] + ac), Padded(b.date.day, 2) + (['T'] + bc);
    FieldOrder(a.date.day, b.date.day, 2, ['T'] + ac, ['T'] + bc);
    SeparatorOrder('-', ad, bd);
    FieldOrder(a.date.month, b.date.month, 2, ['-'] + ad, ['-'] + bd);
  }

  // ---- When byte order is chronological -----------------------------------------------------------

  /** How many characters a year takes in the stamp. */
  function Places(year: nat): nat
    ensures Places(year) >= 4
  {
    if year < 10_000 then 4 else 1 + Places(year / 10)
  }

  /** The number formed by the first `k` digits of `n`. */
  function Leading(n: nat, k: nat): nat
    ensures Leading(n, k) < Pow10(k)
    ensures Leading(n, k) <= n
  {
    if n < Pow10(k) then n else Leading(n / 10, k)
  }

  function Trailing(n: nat, k: nat): string {
    if n < Pow10(k) then [] else Trailing(n / 10, k) + [Digit(n % 10)]
  }

  lemma {:induction false} ZeroWidth(n: nat)
    ensures Padded(n, 0) == Padded(n, 1)
  {
  }

  lemma {:induction false} WidthIsOnlyAMinimum(n: nat, width: nat)
    requires width >= 1 && n >= Pow10(width)
    ensures Padded(n, width) == Padded(n, width + 1)
  {
    if width == 1 {
      ZeroWidth(n / 10);
    } else {
      WidthIsOnlyAMinimum(n / 10, width - 1);
    }
  }

  lemma {:induction false} PlacesBound(year: nat)
    ensures year < Pow10(Places(year))
    ensures Places(year) > 4 ==> year >= Pow10(Places(year) - 1)
  {
    assert Pow10(4) == 10_000;
    if year >= 10_000 { PlacesBound(year / 10); }
  }

  lemma {:induction false} Pow10Monotone(j: nat, k: nat)
    requires j <= k
    ensures Pow10(j) <= Pow10(k)
  {
    if j < k { Pow10Monotone(j, k - 1); }
  }

  lemma {:induction false} YearSplits(year: nat, k: nat)
    requires 4 <= k <= Places(year)
    ensures Padded(year, 4) == Padded(Leading(year, k), k) + Trailing(year, k)
    ensures |Trailing(year, k)| == Places(year) - k
    ensures forall c | c in Trailing(year, k) :: '0' <= c
  {
    assert Pow10(4) == 10_000 && Pow10(3) == 1_000;
    PlacesBound(year);
    if year < Pow10(k) {
      if k < Places(year) {
        Pow10Monotone(k, Places(year) - 1);
        assert false;
      }
      PaddedAtPlaces(year);
    } else {
      Pow10Monotone(4, k);
      if k == Places(year) { assert false; }
      YearSplits(year / 10, k);
      WidthIsOnlyAMinimum(year / 10, 3);
    }
  }

  lemma {:induction false} PaddedAtPlaces(year: nat)
    ensures Padded(year, 4) == Padded(year, Places(year))
  {
    assert Pow10(3) == 1_000;
    if year >= 10_000 {
      PaddedAtPlaces(year / 10);
      WidthIsOnlyAMinimum(year / 10, 3);
    }
  }

  lemma YearFieldSameWidth(p: nat, q: nat, x: string, y: string)
    requires Places(p) == Places(q)
    ensures Less(Padded(p, 4) + (['-'] + x), Padded(q, 4) + (['-'] + y)) <==> p < q || (p == q && Less(x, y))
  {
    PaddedAtPlaces(p);
    PaddedAtPlaces(q);
    PlacesBound(p);
    PlacesBound(q);
    FieldOrder(p, q, Places(p), ['-'] + x, ['-'] + y);
    SeparatorOrder('-', x, y);
  }

  /** A narrower year compares with the leading digits of a wider one, and wins a tie because '-'
      precedes every digit. */
  lemma YearFieldNarrower(p: nat, q: nat, x: string, y: string)
    requires Places(p) < Places(q)
    ensures Less(Padded(p, 4) + (['-'] + x), Padded(q, 4) + (['-'] + y)) <==> p <= Leading(q, Places(p))
  {
    var k := Places(p);
    var head, rest, tail := Padded(Leading(q, k), k), Trailing(q, k), ['-'] + y;
    PaddedAtPlaces(p);
    PlacesBound(p);
    YearSplits(q, k);
    assert (head + rest) + tail == head + (rest + tail);
    FieldOrder(p, Leading(q, k), k, ['-'] + x, rest + tail);
    assert (rest + tail)[0] == rest[0] && rest[0] in rest;
  }

  lemma LeadingAtFullWidth(q: nat)
    ensures Leading(q, Places(q)) == q
  {
    PlacesBound(q);
  }

  lemma {:induction false} PlacesMonotone(p: nat, q: nat)
    requires p <= q
    ensures Places(p) <= Places(q)
  {
    if p >= 10_000 { PlacesMonotone(p / 10, q / 10); }
  }

  lemma StampOfOrder(a: Civil, m: nat, b: Civil, n: nat)
    requires ValidDate(a.date) && ValidTime(a) && ValidDate(b.date) && ValidTime(b)
    requires 0 <= a.date.year <= b.date.year && m < 1_000_000_000 && n < 1_000_000_000
    ensures Less(StampOf(a, m), StampOf(b, n)) <==>
            if a.date.year == b.date.year then CivilBefore(a, b) || (a == b && m < n)
            else a.date.year <= Leading(b.date.year, Places(a.date.year))
  {
    PlacesMonotone(a.date.year, b.date.year);
    DayPartOrder(a, m, b, n);
    if Places(a.date.year) == Places(b.date.year) {
      YearFieldSameWidth(a.date.year, b.date.year, DayPart(a, m), DayPart(b, n));
      LeadingAtFullWidth(b.date.year);
    } else {
      YearFieldNarrower(a.date.year, b.date.year, DayPart(a, m), DayPart(b, n));
    }
  }

  lemma YearsAreOrdered(a: nat, b: nat)
    requires a <= b
    ensures 1970 <= CivilFromUnix(a).date.year <= CivilFromUnix(b).date.year
  {
    CivilFromUnixIsExact(a);
    CivilFromUnixIsExact(b);
    YearIsAtLeast1970(a);
    CivilOrder(CivilFromUnix(b), CivilFromUnix(a));
  }

  /** The exact condition under which the stamps of two instants sort in the order of the
      instants: the earlier year is at most the number the later year starts with. */
  lemma StampOrder(a: Instant, b: Instant)
    requires ValidInstant(a) && ValidInstant(b) && Earlier(a, b)
    ensures Less(Rfc3339(a), Rfc3339(b)) <==> YearOf(a) <= Leading(YearOf(b), Places(YearOf(a)))
  {
    var ca, cb := CivilFromUnix(a.secs), CivilFromUnix(b.secs);
    CivilFromUnixIsExact(a.secs);
    CivilFromUnixIsExact(b.secs);
    YearsAreOrdered(a.secs, b.secs);
    CivilOrder(ca, cb);
    StampOfOrder(ca, a.nanos, cb, b.nanos);
    PlacesBound(ca.date.year);
  }

  /** Up to the year 9999 the byte order of stamps is the order of the instants, both ways. */
  lemma StampsSortChronologically(a: Instant, b: Instant)
    requires ValidInstant(a) && ValidInstant(b)
    requires YearOf(a) <= 9_999 && YearOf(b) <= 9_999
    ensures Less(Rfc3339(a), Rfc3339(b)) <==> Earlier(a, b)
  {
    assert Pow10(4) == 10_000;
    if Earlier(a, b) {
      YearsAreOrdered(a.secs, b.secs);
      StampOrder(a, b);
    } else if Earlier(b, a) {
      YearsAreOrdered(b.secs, a.secs);
      StampOrder(b, a);
      LessIsAsymmetric(Rfc3339(b), Rfc3339(a));
    } else {
      LessIsIrreflexive(Rfc3339(a));
    }
  }

  lemma {:induction false} LessIsAsymmetric(a: string, b: string)
    requires Less(a, b)
    ensures !Less(b, a)
  {
    if a != [] && a[0] == b[0] { LessIsAsymmetric(a[1..], b[1..]); }
  }

  const LAST_SECOND_OF_9999 := 253_402_300_799

  lemma LastSecondOf9999(last: Civil, first: Civil)
    requires last == Civil(Date(9_999, 12, 31), 23, 59, 59) && first == Civil(Date(10_000, 1, 1), 0, 0, 0)
    ensures ValidDate(last.date) && UnixFromCivil(last) == LAST_SECOND_OF_9999
    ensures ValidDate(first.date) && UnixFromCivil(first) == LAST_SECOND_OF_9999 + 1
  {
    DaysBeforeYearClosed(9_999);
    DaysBeforeYearClosed(10_000);
    DaysBeforeMonthClosed(9_999, 12);
    assert DayNumber(first.date) == 2_932_897;
    assert DayNumber(last.date) == 2_932_896;
  }

  lemma LeadingOf10000()
    ensures Places(9_999) == 4 && Leading(10_000, 4) == 1_000
  {
    assert Pow10(4) == 10_000;
  }

  lemma YearsAround(a: Instant, b: Instant, last: Civil, first: Civil)
    requires a.secs == LAST_SECOND_OF_9999 && b.secs == a.secs + 1
    requires last == Civil(Date(9_999, 12, 31), 23, 59, 59) && first == Civil(Date(10_000, 1, 1), 0, 0, 0)
    ensures YearOf(a) == 9_999 && YearOf(b) == 10_000
  {
    LastSecondOf9999(last, first);
    CivilFromUnixInverts(last);
    CivilFromUnixInverts(first);
  }

  /** The first second of the year 10000 sorts before the last second of the year 9999. */
  lemma TheYear10000SortsEarly() returns (a: Instant, b: Instant)
    ensures a == Instant(LAST_SECOND_OF_9999, 0) && b == Instant(LAST_SECOND_OF_9999 + 1, 0)
    ensures Earlier(a, b) && YearOf(a) == 9_999 && YearOf(b) == 10_000 && !Less(Rfc3339(a), Rfc3339(b))
  {
    a, b := Instant(LAST_SECOND_OF_9999, 0), Instant(LAST_SECOND_OF_9999 + 1, 0);
    SortsEarly(a, b);
  }

  lemma SortsEarly(a: Instant, b: Instant)
    requires a.secs == LAST_SECOND_OF_9999 && b.secs == a.secs + 1 && a.nanos == b.nanos == 0
    ensures YearOf(a) == 9_999 && YearOf(b) == 10_000 && !Less(Rfc3339(a), Rfc3339(b))
  {
    YearsAround(a, b, Civil(Date(9_999, 12, 31), 23, 59, 59), Civil(Date(10_000, 1, 1), 0, 0, 0));
    LeadingOf10000();
    StampOrder(a, b);
  }

  // ---- The list of containers ---------------------------------------------------------------------

  datatype Container = Container(id: string, created: string)

  /** One entry of the state directory: unreadable, with a name that is not UTF-8, or named. */
  datatype Entry = Unreadable | NotUtf8 | Named(id: string)

  datatype ListError = ReadError

  /** The containers the entries load to, in directory order; entries without a loadable state
      are skipped. */
  function Loaded(entries: seq<Entry>, state: map<string, Container>): seq<Container> {
    if entries == [] then []
    else
      (if entries[0].Named? && entries[0].id in state then [state[entries[0].id]] else [])
      + Loaded(entries[1..], state)
  }

  predicate SortedByCreated(xs: seq<Container>) {
    forall i, j | 0 <= i < j < |xs| :: !Less(xs[j].created, xs[i].created)
  }

  /** The elements of `xs` stamped `created`, in order. */
  function WithStamp(xs: seq<Container>, created: string): seq<Container> {
    if xs == [] then []
    else (if xs[0].created == created then [xs[0]] else []) + WithStamp(xs[1..], created)
  }

  lemma {:induction false} WithStampConcat(xs: seq<Container>, ys: seq<Container>, created: string)
    ensures WithStamp(xs + ys, created) == WithStamp(xs, created) + WithStamp(ys, created)
  {
    if xs == [] {
      assert xs + ys == ys;
    } else {
      var rest, head := xs[1..], if xs[0].created == created then [xs[0]] else [];
      assert (xs + ys)[1..] == rest + ys;
      WithStampConcat(rest, ys, created);
      assert WithStamp(xs + ys, created) == head + WithStamp(rest + ys, created);
      assert head + (WithStamp(rest, created) + WithStamp(ys, created))
             == (head + WithStamp(rest, created)) + WithStamp(ys, created);
    }
  }

  /** Inserts `x` after every element that does not sort above it. */
  function Insert(x: Container, xs: seq<Container>): seq<Container> {
    if xs == [] || !Less(x.created, xs[|xs| - 1].created) then xs + [x]
    else Insert(x, xs[..|xs| - 1]) + [xs[|xs| - 1]]
  }

  /** The stable library sort of the listing, as repeated insertion. */
  function StableSort(xs: seq<Container>): seq<Container> {
    if xs == [] then [] else Insert(xs[|xs| - 1], StableSort(xs[..|xs| - 1]))
  }

  lemma {:induction false} InsertPermutes(x: Container, xs: seq<Container>)
    ensures multiset(Insert(x, xs)) == multiset(xs) + multiset{x}
  {
    if xs != [] && Less(x.created, xs[|xs| - 1].created) {
      InsertPermutes(x, xs[..|xs| - 1]);
      assert xs == xs[..|xs| - 1] + [xs[|xs| - 1]];
    }
  }

  lemma {:induction false} InsertKeepsSorted(x: Container, xs: seq<Container>)
    requires SortedByCreated(xs)
    ensures SortedByCreated(Insert(x, xs))
  {
    if xs != [] && Less(x.created, xs[|xs| - 1].created) {
      var front, last := xs[..|xs| - 1], xs[|xs| - 1];
      InsertKeepsSorted(x, front);
      InsertPermutes(x, front);
      LessIsAsymmetric(x.created, last.created);
      forall i | 0 <= i < |Insert(x, front)| ensures !Less(last.created, Insert(x, front)[i].created) {
        assert Insert(x, front)[i] in multiset(Insert(x, front));
      }
    } else {
      forall i | 0 <= i < |xs| ensures !Less(x.created, xs[i].created) {
        if i < |xs| - 1 {
          LessIsTransitive(xs[i].created, xs[|xs| - 1].created, x.created);
        }
      }
    }
  }

  lemma {:induction false} InsertIsStable(x: Container, xs: seq<Container>, created: string)
    ensures WithStamp(Insert(x, xs), created) == WithStamp(xs, created) + WithStamp([x], created)
  {
    if xs != [] && Less(x.created, xs[|xs| - 1].created) {
      var front, last := xs[..|xs| - 1], xs[|xs| - 1];
      InsertIsStable(x, front, created);
      WithStampConcat(Insert(x, front), [last], created);
      assert xs == front + [last];
      WithStampConcat(front, [last], created);
      LessIsIrreflexive(x.created);
    } else {
      WithStampConcat(xs, [x], created);
    }
  }

  lemma {:induction false} StableSortIsCorrect(xs: seq<Container>, created: string)
    ensures multiset(StableSort(xs)) == multiset(xs)
    ensures SortedByCreated(StableSort(xs))
    ensures WithStamp(StableSort(xs), created) == WithStamp(xs, created)
  {
    if xs != [] {
      var front, last := xs[..|xs| - 1], xs[|xs| - 1];
      StableSortIsCorrect(front, created);
      InsertPermutes(last, StableSort(front));
      InsertKeepsSorted(last, StableSort(front));
      InsertIsStable(last, StableSort(front), created);
      assert xs == front + [last];
      WithStampConcat(front, [last], created);
    }
  }

  lemma {:induction false} LoadedConcat(a: seq<Entry>, b: seq<Entry>, state: map<string, Container>)
    ensures Loaded(a + b, state) == Loaded(a, state) + Loaded(b, state)
  {
    if a == [] {
      assert a + b == b;
    } else {
      assert (a + b)[1..] == a[1..] + b;
      LoadedConcat(a[1..], b, state);
    }
  }

  /** An entry with a name that is UTF-8 and a state that loads. */
  predicate Loadable(entry: Entry, state: map<string, Container>) {
    entry.Named? && entry.id in state
  }

  /** What is loaded, and nothing else, is the container of every loadable entry, once an entry and in
      directory order: `at` are the positions of the loadable entries. */
  lemma {:induction false} LoadedExactly(entries: seq<Entry>, state: map<string, Container>) returns (at: seq<nat>)
    ensures forall i | 0 <= i < |entries| :: Loadable(entries[i], state) <==> i in at
    ensures forall j, k | 0 <= j < k < |at| :: at[j] < at[k]
    ensures |Loaded(entries, state)| == |at|
    ensures forall j | 0 <= j < |at| ::
              at[j] < |entries| && Loadable(entries[at[j]], state)
              && Loaded(entries, state)[j] == state[entries[at[j]].id]
  {
    if entries == [] {
      at := [];
    } else {
      var front, last := entries[..|entries| - 1], [entries[|entries| - 1]];
      assert entries == front + last;
      LoadedConcat(front, last, state);
      assert last[1..] == [];
      at := LoadedExactly(front, state);
      if Loadable(last[0], state) {
        at := at + [|front|];
      }
    }
  }

  /** Lists the state directory: fails on an unreadable entry, skips what does not load, and
      returns the loaded containers sorted by stamp, those with one stamp in directory order. */
  method List(rootIsDirectory: bool, entries: seq<Entry>, state: map<string, Container>)
    returns (result: Result<seq<Container>, ListError>)
    ensures result.Err? <==> rootIsDirectory && Unreadable in entries
    ensures !rootIsDirectory ==> result == Ok([])
    ensures result.Ok? && rootIsDirectory ==>
            && multiset(result.value) == multiset(Loaded(entries, state))
            && SortedByCreated(result.value)
            && forall created :: WithStamp(result.value, created) == WithStamp(Loaded(entries, state), created)
  {
    if !rootIsDirectory {
      return Ok([]);
    }
    var found: seq<Container> := [];
    for i := 0 to |entries|
      invariant Unreadable !in entries[..i]
      invariant found == Loaded(entries[..i], state)
    {
      assert entries[..i + 1] == entries[..i] + [entries[i]];
      LoadedConcat(entries[..i], [entries[i]], state);
      match entries[i] {
        case Unreadable => return Err(ReadError);
        case NotUtf8 =>
        case Named(id) =>
          if id in state {
            found := found + [state[id]];
          }
      }
    }
    assert entries[..|entries|] == entries;
    forall created ensures WithStamp(StableSort(found), created) == WithStamp(found, created) {
      StableSortIsCorrect(found, created);
    }
    StableSortIsCorrect(found, "");
    result := Ok(StableSort(found));
  }

  /** A listing sorted by stamp is in creation order when every stamp was produced by the runtime
      at an instant no later than the year 9999. */
  lemma ListingIsInCreationOrder(listing: seq<Container>, at: seq<Instant>)
    requires SortedByCreated(listing) && |at| == |listing|
    requires forall i | 0 <= i < |at| ::
      ValidInstant(at[i]) && YearOf(at[i]) <= 9_999 && listing[i].created == Rfc3339(at[i])
    ensures forall i, j | 0 <= i < j < |at| :: !Earlier(at[j], at[i])
  {
    forall i, j | 0 <= i < j < |at| ensures !Earlier(at[j], at[i]) {
      StampsSortChronologically(at[j], at[i]);
    }
  }
}
