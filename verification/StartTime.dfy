/** The start time of a process, read from its `/proc/<pid>/stat` line. The second field is the command
    name in parentheses, and a process may choose any name, with spaces and parentheses of its own. */
module StartTime {
  import opened Wrappers
  import Timestamps

  const U64_MAX := 0xFFFF_FFFF_FFFF_FFFF

  // ---- Library calls -----------------------------------------------------------------------------

  /** `str::rfind`: the position of the last `c`. */
  function LastIndex(s: string, c: char): (k: Option<nat>)
    ensures k.Some? ==> k.value < |s|
  {
    if s == [] then None
    else if s[|s| - 1] == c then Some(|s| - 1)
    else LastIndex(s[..|s| - 1], c)
  }

  /** Unicode White_Space. */
  predicate IsSpace(c: char) {
    var n := c as int;
    || 9 <= n <= 13 || n == 32 || n == 0x85 || n == 0xA0 || n == 0x1680 || 0x2000 <= n <= 0x200A
    || n == 0x2028 || n == 0x2029 || n == 0x202F || n == 0x205F || n == 0x3000
  }

  /** The words of `s`, with `current` read so far. */
  function WordsFrom(s: string, current: string): seq<string> {
    if s == [] then (if current == [] then [] else [current])
    else if IsSpace(s[0]) then (if current == [] then [] else [current]) + WordsFrom(s[1..], [])
    else WordsFrom(s[1..], current + [s[0]])
  }

  /** `str::split_whitespace`. */
  function Words(s: string): seq<string> {
    WordsFrom(s, [])
  }

  predicate IsDigit(c: char) {
    '0' <= c <= '9'
  }

  function DigitValue(c: char): nat
    requires IsDigit(c)
  {
    c as int - '0' as int
  }

  function Number(digits: string): nat
    requires forall c | c in digits :: IsDigit(c)
  {
    if digits == [] then 0
    else
      assert digits[|digits| - 1] in digits;
      10 * Number(digits[..|digits| - 1]) + DigitValue(digits[|digits| - 1])
  }

  /** `str::parse::<u64>`: a leading "+" is allowed, an empty number is not, and it must fit. */
  function ParseU64(s: string): Option<nat> {
    var digits := if s != [] && s[0] == '+' then s[1..] else s;
    if digits != [] && (forall c | c in digits :: IsDigit(c)) && Number(digits) <= U64_MAX
    then Some(Number(digits))
    else None
  }

  // ---- The parser ------------------------------------------------------------------------------------

  function ParseStartTime(stat: string): Option<nat> {
    match LastIndex(stat, ')')
    case None => None
    case Some(k) =>
      var words := Words(stat[k + 1..]);
      if |words| <= 19 then None else ParseU64(words[19])
  }

  // ---- The line the kernel writes ---------------------------------------------------------------------

  function Decimal(n: nat): string {
    Timestamps.Padded(n, 1)
  }

  /** Fields three and up: the process state and the numbers after it. */
  predicate ValidField(f: string) {
    f != "" && ')' !in f && forall c | c in f :: !IsSpace(c)
  }

  function FieldsText(fields: seq<string>): string {
    if fields == [] then ['\n'] else [' '] + (fields[0] + FieldsText(fields[1..]))
  }

  /** The whole line; `fields[i]` is what proc(5) numbers `i + 3`. */
  function StatLine(pid: nat, comm: string, fields: seq<string>): string {
    Decimal(pid) + " (" + comm + ")" + FieldsText(fields)
  }

  // ---- Facts ---------------------------------------------------------------------------------------------

  lemma {:induction false} LastIndexOf(a: string, c: char, b: string)
    requires c !in b
    ensures LastIndex(a + [c] + b, c) == Some(|a|)
  {
    var s := a + [c] + b;
    if b != [] {
      assert s[..|s| - 1] == a + [c] + b[..|b| - 1];
      LastIndexOf(a, c, b[..|b| - 1]);
    }
  }

  lemma {:induction false} WordThenSpace(word: string, space: char, rest: string, current: string)
    requires IsSpace(space) && (forall c | c in word :: !IsSpace(c)) && current + word != []
    ensures WordsFrom(word + ([space] + rest), current) == [current + word] + Words(rest)
  {
    if word == [] {
      assert word + ([space] + rest) == [space] + rest && ([space] + rest)[1..] == rest;
      assert current + word == current;
    } else {
      assert (word + ([space] + rest))[1..] == word[1..] + ([space] + rest);
      assert current + [word[0]] + word[1..] == current + word;
      WordThenSpace(word[1..], space, rest, current + [word[0]]);
    }
  }

  /** Splitting gives back the fields. */
  lemma {:induction false} WordsOfFields(fields: seq<string>)
    requires forall f | f in fields :: ValidField(f)
    ensures Words(FieldsText(fields)) == fields
  {
    if fields == [] {
      assert IsSpace('\n') && ['\n'][1..] == [];
      assert WordsFrom(['\n'], []) == [] + WordsFrom([], []);
    } else {
      var rest := FieldsText(fields[1..]);
      WordsOfFields(fields[1..]);
      assert ([' '] + (fields[0] + rest))[1..] == fields[0] + rest;
      assert rest == [rest[0]] + rest[1..];
      assert ValidField(fields[0]);
      WordThenSpace(fields[0], rest[0], rest[1..], []);
      assert [] + fields[0] == fields[0];
      assert Words(rest) == Words(rest[1..]);
    }
  }

  lemma {:induction false} FieldsHaveNoParenthesis(fields: seq<string>)
    requires forall f | f in fields :: ValidField(f)
    ensures ')' !in FieldsText(fields)
  {
    if fields != [] {
      FieldsHaveNoParenthesis(fields[1..]);
      assert ValidField(fields[0]);
    }
  }

  lemma {:induction false} NumberOfDecimal(n: nat, width: nat)
    ensures forall c | c in Timestamps.Padded(n, width) :: IsDigit(c)
    ensures Number(Timestamps.Padded(n, width)) == n
    ensures Timestamps.Padded(n, width) != []
  {
    if n >= 10 || width > 1 {
      NumberOfDecimal(n / 10, if width == 0 then 0 else width - 1);
    }
  }

  /** A number comes back if it fits into 64 bits, with or without a plus sign. */
  lemma ParseOfDecimal(n: nat)
    ensures ParseU64(Decimal(n)) == if n <= 0xFFFF_FFFF_FFFF_FFFF then Some(n) else None
    ensures ParseU64(['+'] + Decimal(n)) == ParseU64(Decimal(n))
  {
    NumberOfDecimal(n, 1);
    assert Decimal(n)[0] in Decimal(n);
    assert (['+'] + Decimal(n))[1..] == Decimal(n);
  }

  lemma SignsAreNoNumbers(n: nat)
    ensures ParseU64(['-'] + Decimal(n)) == None
    ensures ParseU64("+") == None && ParseU64("") == None
  {
    var s := ['-'] + Decimal(n);
    assert s[0] in s && !IsDigit(s[0]);
  }

  /** Letters, digits and minus signs are what the kernel writes into a field. */
  lemma KernelFieldIsValid(f: string)
    requires f != "" && forall c | c in f :: 'A' <= c <= 'Z' || 'a' <= c <= 'z' || '0' <= c <= '9' || c == '-'
    ensures ValidField(f)
  {
  }

  /** Whatever the command name is, what the parser reads is field 22. */
  lemma StartTimeIsField22(pid: nat, comm: string, fields: seq<string>)
    requires forall f | f in fields :: ValidField(f)
    ensures ParseStartTime(StatLine(pid, comm, fields)) ==
            if |fields| <= 19 then None else ParseU64(fields[22 - 3])
  {
    var head := Decimal(pid) + " (" + comm;
    var tail := FieldsText(fields);
    assert StatLine(pid, comm, fields) == head + [')'] + tail;
    FieldsHaveNoParenthesis(fields);
    LastIndexOf(head, ')', tail);
    assert StatLine(pid, comm, fields)[|head| + 1..] == tail;
    WordsOfFields(fields);
  }

  /** A 64-bit start tick comes back from every line that carries it. */
  lemma StartTimeComesBack(pid: nat, comm: string, fields: seq<string>, start: nat)
    requires forall f | f in fields :: ValidField(f)
    requires |fields| > 19 && fields[19] == Decimal(start) && start <= 0xFFFF_FFFF_FFFF_FFFF
    ensures ParseStartTime(StatLine(pid, comm, fields)) == Some(start)
  {
    StartTimeIsField22(pid, comm, fields);
    ParseOfDecimal(start);
  }
}
