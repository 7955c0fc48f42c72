/** The overlay option compiler: escaping, printing, splitting, and the rewriting of layers to paths
    relative to their deepest common parent when the option string exceeds one page. */
module Overlay {
  import opened Wrappers
  import opened Paths

  const MAX_OPTION_BYTES := 4096

  datatype Layers = Layers(lower: seq<string>, upper: Option<string>, work: Option<string>)

  datatype OverlayError = CommaInPath | TooLong(bytes: nat) | ChdirFailed | MountFailed

  // ---- Escaping and printing ----------------------------------------------------------------------

  function ReplaceChar(text: string, from: char, to: string): string {
    if text == [] then [] else (if text[0] == from then to else [text[0]]) + ReplaceChar(text[1..], from, to)
  }

  /** Backslashes are doubled first, then colons are escaped. */
  function EscapeText(text: string): string {
    ReplaceChar(ReplaceChar(text, '\\', ['\\', '\\']), ':', ['\\', ':'])
  }

  function Escape(text: string): Result<string, OverlayError> {
    if ',' in text then Err(CommaInPath) else Ok(EscapeText(text))
  }

  function JoinColon(parts: seq<string>): string {
    if parts == [] then []
    else if |parts| == 1 then parts[0]
    else parts[0] + ([':'] + JoinColon(parts[1..]))
  }

  function EscapeAll(paths: seq<string>): seq<string> {
    if paths == [] then [] else [EscapeText(paths[0])] + EscapeAll(paths[1..])
  }

  function PathsOf(layers: Layers): seq<string> {
    layers.lower
    + (if layers.upper.Some? then [layers.upper.value] else [])
    + (if layers.work.Some? then [layers.work.value] else [])
  }

  predicate CommaFree(layers: Layers) {
    forall p | p in PathsOf(layers) :: ',' !in p
  }

  const LOWER := "lowerdir="
  const UPPER := "upperdir="
  const WORK := "workdir="

  function Fields(layers: Layers): seq<string> {
    [LOWER + JoinColon(EscapeAll(layers.lower))]
    + (if layers.upper.Some? then [UPPER + EscapeText(layers.upper.value)] else [])
    + (if layers.work.Some? then [WORK + EscapeText(layers.work.value)] else [])
  }

  function JoinComma(parts: seq<string>): string {
    if parts == [] then []
    else if |parts| == 1 then parts[0]
    else parts[0] + ([','] + JoinComma(parts[1..]))
  }

  /** The text of comma-free layers. */
  function OptionText(layers: Layers): string {
    JoinComma(Fields(layers))
  }

  // ---- Splitting -----------------------------------------------------------------------------------

  /** What the splitter has yet to produce, with `current` read so far. */
  function SplitFrom(s: string, current: string): seq<string>
    decreases |s|
  {
    if s == [] then [current]
    else if s[0] == '\\' then (if |s| == 1 then [current] else SplitFrom(s[2..], current + [s[1]]))
    else if s[0] == ':' then [current] + SplitFrom(s[1..], [])
    else SplitFrom(s[1..], current + [s[0]])
  }

  function NonEmpty(parts: seq<string>): seq<string> {
    if parts == [] then [] else (if parts[0] == "" then [] else [parts[0]]) + NonEmpty(parts[1..])
  }

  function Split(s: string): seq<string> {
    NonEmpty(SplitFrom(s, []))
  }

  // ---- What the kernel reads -------------------------------------------------------------------------

  /** Splits mount options at commas; there is no escape for one. */
  function SplitCommas(s: string): seq<string> {
    if s == [] then [[]]
    else if s[0] == ',' then [[]] + SplitCommas(s[1..])
    else
      var rest := SplitCommas(s[1..]);
      if rest == [] then [[s[0]]] else [[s[0]] + rest[0]] + rest[1..]
  }

  function Unescape(s: string): string
    decreases |s|
  {
    if s == [] then []
    else if s[0] == '\\' && |s| > 1 then [s[1]] + Unescape(s[2..])
    else if s[0] == '\\' then []
    else [s[0]] + Unescape(s[1..])
  }

  /** What follows `key` in `field`, if that is how the field begins. */
  function ValueOf(key: string, field: string): Option<string> {
    if key <= field then Some(field[|key|..]) else None
  }

  /** The layers the fields stand for, whatever their order; the keys are overlayfs's own. */
  function DecodeFields(fields: seq<string>): Option<Layers> {
    if fields == [] then Some(Layers([], None, None))
    else
      match DecodeFields(fields[..|fields| - 1])
      case None => None
      case Some(layers) => DecodeField(layers, fields[|fields| - 1])
  }

  function DecodeField(layers: Layers, field: string): Option<Layers> {
    match (ValueOf("lowerdir=", field), ValueOf("upperdir=", field), ValueOf("workdir=", field))
    case (Some(value), _, _) => Some(layers.(lower := Split(value)))
    case (_, Some(value), _) => Some(layers.(upper := Some(Unescape(value))))
    case (_, _, Some(value)) => Some(layers.(work := Some(Unescape(value))))
    case _ => None
  }

  function Decode(data: string): Option<Layers> {
    DecodeFields(SplitCommas(data))
  }

  // ---- Escaping, character by character ----------------------------------------------------------------

  function EscapeChar(c: char): string {
    if c == '\\' then ['\\', '\\'] else if c == ':' then ['\\', ':'] else [c]
  }

  lemma {:induction false} ReplaceConcat(a: string, b: string, from: char, to: string)
    ensures ReplaceChar(a + b, from, to) == ReplaceChar(a, from, to) + ReplaceChar(b, from, to)
  {
    if a == [] {
      assert a + b == b;
    } else {
      assert (a + b)[1..] == a[1..] + b;
      ReplaceConcat(a[1..], b, from, to);
    }
  }

  /** Two passes escape each character once. */
  lemma EscapeStep(text: string)
    requires text != []
    ensures EscapeText(text) == EscapeChar(text[0]) + EscapeText(text[1..])
  {
    var first := if text[0] == '\\' then ['\\', '\\'] else [text[0]];
    var rest := ReplaceChar(text[1..], '\\', ['\\', '\\']);
    ReplaceConcat(first, rest, ':', ['\\', ':']);
    if text[0] == '\\' {
      assert first[1..] == ['\\'] && first[1..][1..] == [];
      assert ReplaceChar(first[1..], ':', ['\\', ':']) == ['\\'];
      assert ReplaceChar(first, ':', ['\\', ':']) == ['\\', '\\'];
    } else {
      assert first[1..] == [];
    }
  }

  // ---- The splitter inverts the printer ------------------------------------------------------------------

  lemma SplitOfEscapedChar(c: char, tail: string, current: string)
    ensures SplitFrom(EscapeChar(c) + tail, current) == SplitFrom(tail, current + [c])
  {
    if c == '\\' || c == ':' {
      assert (EscapeChar(c) + tail)[2..] == tail;
    } else {
      assert (EscapeChar(c) + tail)[1..] == tail;
    }
  }

  lemma SplitOfEscapeStep(p: string, rest: string, current: string)
    requires p != []
    ensures SplitFrom(EscapeText(p) + rest, current) == SplitFrom(EscapeText(p[1..]) + rest, current + [p[0]])
  {
    EscapeStep(p);
    ConcatAssociates(EscapeChar(p[0]), EscapeText(p[1..]), rest);
    SplitOfEscapedChar(p[0], EscapeText(p[1..]) + rest, current);
  }

  lemma ConcatAssociates(a: string, b: string, c: string)
    ensures (a + b) + c == a + (b + c)
  {
  }

  lemma {:induction false} SplitOfEscape(p: string, rest: string, current: string)
    ensures SplitFrom(EscapeText(p) + rest, current) == SplitFrom(rest, current + p)
  {
    if p == [] {
      assert EscapeText(p) + rest == rest && current + p == current;
    } else {
      SplitOfEscapeStep(p, rest, current);
      SplitOfEscape(p[1..], rest, current + [p[0]]);
      assert current + [p[0]] + p[1..] == current + p;
    }
  }

  lemma {:induction false} SplitOfJoin(paths: seq<string>)
    requires paths != []
    ensures SplitFrom(JoinColon(EscapeAll(paths)), []) == paths
  {
    var first := EscapeText(paths[0]);
    assert [] + paths[0] == paths[0];
    if |paths| == 1 {
      assert EscapeAll(paths) == [first];
      SplitOfEscape(paths[0], [], []);
      assert first + [] == first;
    } else {
      var rest := JoinColon(EscapeAll(paths[1..]));
      SplitOfJoin(paths[1..]);
      assert EscapeAll(paths)[1..] == EscapeAll(paths[1..]);
      SplitOfEscape(paths[0], [':'] + rest, []);
      assert ([':'] + rest)[1..] == rest;
    }
  }

  /** Splitting the printed list gives the list back, without its empty paths. */
  lemma SplitInvertsPrint(paths: seq<string>)
    ensures Split(JoinColon(EscapeAll(paths))) == NonEmpty(paths)
  {
    if paths != [] {
      SplitOfJoin(paths);
    }
  }

  lemma {:induction false} NonEmptyExactly(paths: seq<string>)
    ensures NonEmpty(paths) == paths <==> "" !in paths
    ensures |NonEmpty(paths)| <= |paths| && "" !in NonEmpty(paths)
  {
    if paths != [] {
      NonEmptyExactly(paths[1..]);
      assert paths == [paths[0]] + paths[1..];
    }
  }

  /** The round trip holds for exactly the lists without an empty path. */
  lemma LowerRoundTripExactly(paths: seq<string>)
    ensures Split(JoinColon(EscapeAll(paths))) == paths <==> "" !in paths
  {
    SplitInvertsPrint(paths);
    NonEmptyExactly(paths);
  }

  /** Printing what was split and splitting again changes nothing. */
  lemma SplitIsStable(s: string)
    ensures Split(JoinColon(EscapeAll(Split(s)))) == Split(s)
  {
    NonEmptyExactly(SplitFrom(s, []));
    LowerRoundTripExactly(Split(s));
  }

  lemma {:induction false} UnescapeInvertsEscape(p: string)
    ensures Unescape(EscapeText(p)) == p
  {
    if p != [] {
      EscapeStep(p);
      UnescapeInvertsEscape(p[1..]);
      var tail := EscapeText(p[1..]);
      if p[0] == '\\' || p[0] == ':' {
        assert (EscapeChar(p[0]) + tail)[2..] == tail;
      } else {
        assert (EscapeChar(p[0]) + tail)[1..] == tail;
      }
    }
  }

  // ---- The whole string -----------------------------------------------------------------------------------

  lemma {:induction false} EscapeAddsNoComma(p: string)
    ensures ',' in EscapeText(p) <==> ',' in p
  {
    if p != [] {
      EscapeStep(p);
      EscapeAddsNoComma(p[1..]);
      assert p == [p[0]] + p[1..];
    }
  }

  lemma {:induction false} JoinAddsNoComma(paths: seq<string>)
    requires forall p | p in paths :: ',' !in p
    ensures ',' !in JoinColon(EscapeAll(paths))
  {
    if paths != [] {
      EscapeAddsNoComma(paths[0]);
      JoinAddsNoComma(paths[1..]);
      assert EscapeAll(paths)[1..] == EscapeAll(paths[1..]);
    }
  }

  lemma {:induction false} CommaField(field: string, rest: string)
    requires ',' !in field
    ensures SplitCommas(field) == [field]
    ensures SplitCommas(field + ([','] + rest)) == [field] + SplitCommas(rest)
  {
    if field == [] {
      assert field + ([','] + rest) == [','] + rest;
      assert ([','] + rest)[1..] == rest;
    } else {
      assert (field + ([','] + rest))[1..] == field[1..] + ([','] + rest);
      CommaField(field[1..], rest);
      assert field == [field[0]] + field[1..];
    }
  }

  lemma FieldHasNoComma(key: string, path: string)
    requires (key == UPPER || key == WORK) && ',' !in path
    ensures ',' !in key + EscapeText(path)
  {
    EscapeAddsNoComma(path);
  }

  lemma {:induction false} SplitOfJoinComma(parts: seq<string>)
    requires parts != [] && forall p | p in parts :: ',' !in p
    ensures SplitCommas(JoinComma(parts)) == parts
  {
    if |parts| == 1 {
      CommaField(parts[0], []);
    } else {
      SplitOfJoinComma(parts[1..]);
      CommaField(parts[0], JoinComma(parts[1..]));
    }
  }

  /** The string splits back into its fields. */
  lemma FieldsComeBack(layers: Layers)
    requires CommaFree(layers)
    ensures SplitCommas(OptionText(layers))
            == ["lowerdir=" + JoinColon(EscapeAll(layers.lower))]
               + (if layers.upper.Some? then ["upperdir=" + EscapeText(layers.upper.value)] else [])
               + (if layers.work.Some? then ["workdir=" + EscapeText(layers.work.value)] else [])
  {
    forall p | p in layers.lower ensures ',' !in p { assert p in PathsOf(layers); }
    JoinAddsNoComma(layers.lower);
    if layers.upper.Some? {
      assert layers.upper.value in PathsOf(layers);
      FieldHasNoComma(UPPER, layers.upper.value);
    }
    if layers.work.Some? {
      assert layers.work.value in PathsOf(layers);
      FieldHasNoComma(WORK, layers.work.value);
    }
    SplitOfJoinComma(Fields(layers));
  }

  lemma FieldValue(key: string, value: string)
    ensures ValueOf(key, key + value) == Some(value)
    ensures forall other: string | other != [] && key != [] && other[0] != key[0] :: ValueOf(other, key + value) == None
  {
  }

  lemma LowerField(value: string, layers: Layers)
    ensures DecodeField(layers, LOWER + value) == Some(layers.(lower := Split(value)))
  {
    FieldValue(LOWER, value);
  }

  lemma UpperField(value: string, layers: Layers)
    ensures DecodeField(layers, UPPER + value) == Some(layers.(upper := Some(Unescape(value))))
  {
    FieldValue(UPPER, value);
    assert "lowerdir="[0] != UPPER[0];
  }

  lemma WorkField(value: string, layers: Layers)
    ensures DecodeField(layers, WORK + value) == Some(layers.(work := Some(Unescape(value))))
  {
    FieldValue(WORK, value);
    assert "lowerdir="[0] != WORK[0] && "upperdir="[0] != WORK[0];
  }

  lemma DecodeOneMore(fields: seq<string>, field: string)
    ensures DecodeFields(fields + [field]) ==
            match DecodeFields(fields) case None => None case Some(layers) => DecodeField(layers, field)
  {
    assert (fields + [field])[..|fields|] == fields;
  }

  /** What the kernel reads is what was printed, without empty lower layers. */
  lemma DecodeInvertsPrint(layers: Layers)
    requires CommaFree(layers)
    ensures Decode(OptionText(layers)) == Some(layers.(lower := NonEmpty(layers.lower)))
  {
    FieldsComeBack(layers);
    SplitInvertsPrint(layers.lower);
    var lower := JoinColon(EscapeAll(layers.lower));
    var fields := [LOWER + lower];
    var read := Layers(NonEmpty(layers.lower), None, None);
    assert DecodeFields(fields) == Some(read) by {
      assert [] + fields == fields;
      DecodeOneMore([], LOWER + lower);
      LowerField(lower, Layers([], None, None));
    }
    if layers.upper.Some? {
      var value := EscapeText(layers.upper.value);
      UnescapeInvertsEscape(layers.upper.value);
      DecodeOneMore(fields, UPPER + value);
      UpperField(value, read);
      fields, read := fields + [UPPER + value], read.(upper := layers.upper);
    }
    if layers.work.Some? {
      var value := EscapeText(layers.work.value);
      UnescapeInvertsEscape(layers.work.value);
      DecodeOneMore(fields, WORK + value);
      WorkField(value, read);
      fields, read := fields + [WORK + value], read.(work := layers.work);
    }
    assert fields == Fields(layers);
  }

  /** Different layers print differently. */
  lemma PrintIsInjective(a: Layers, b: Layers)
    requires CommaFree(a) && CommaFree(b) && "" !in a.lower && "" !in b.lower
    requires OptionText(a) == OptionText(b)
    ensures a == b
  {
    DecodeInvertsPrint(a);
    DecodeInvertsPrint(b);
    NonEmptyExactly(a.lower);
    NonEmptyExactly(b.lower);
  }

  // ---- The loops of the runtime ---------------------------------------------------------------------------

  lemma {:induction false} NonEmptyConcat(a: seq<string>, b: seq<string>)
    ensures NonEmpty(a + b) == NonEmpty(a) + NonEmpty(b)
  {
    if a == [] {
      assert a + b == b;
    } else {
      assert (a + b)[1..] == a[1..] + b;
      NonEmptyConcat(a[1..], b);
    }
  }

  method SplitLowerdir(value: string) returns (parts: seq<string>)
    ensures parts == Split(value)
  {
    var out: seq<string>, current: string := [], [];
    var i := 0;
    while i < |value|
      invariant 0 <= i <= |value|
      invariant SplitFrom(value, []) == out + SplitFrom(value[i..], current)
    {
      var c := value[i];
      i := i + 1;
      assert value[i - 1..][1..] == value[i..];
      if c == '\\' {
        if i < |value| {
          current := current + [value[i]];
          i := i + 1;
          assert value[i - 2..][2..] == value[i..];
        }
      } else if c == ':' {
        out := out + [current];
        current := [];
      } else {
        current := current + [c];
      }
    }
    out := out + [current];
    parts := [];
    for k := 0 to |out|
      invariant parts == NonEmpty(out[..k])
    {
      assert out[..k + 1] == out[..k] + [out[k]];
      NonEmptyConcat(out[..k], [out[k]]);
      if out[k] != "" {
        parts := parts + [out[k]];
      }
    }
    assert out[..|out|] == out;
  }

  lemma {:induction false} EscapeAllConcat(a: seq<string>, b: seq<string>)
    ensures EscapeAll(a + b) == EscapeAll(a) + EscapeAll(b)
  {
    if a == [] {
      assert a + b == b;
    } else {
      assert (a + b)[1..] == a[1..] + b;
      EscapeAllConcat(a[1..], b);
    }
  }

  /** Prints the layers, or fails on the first path with a comma. */
  method Options(layers: Layers) returns (result: Result<string, OverlayError>)
    ensures result == if CommaFree(layers) then Ok(OptionText(layers)) else Err(CommaInPath)
    ensures result.Ok? ==> Decode(result.value) == Some(layers.(lower := NonEmpty(layers.lower)))
  {
    var lower: seq<string> := [];
    for i := 0 to |layers.lower|
      invariant lower == EscapeAll(layers.lower[..i])
      invariant forall p | p in layers.lower[..i] :: ',' !in p
    {
      assert layers.lower[..i + 1] == layers.lower[..i] + [layers.lower[i]];
      EscapeAllConcat(layers.lower[..i], [layers.lower[i]]);
      match Escape(layers.lower[i]) {
        case Ok(text) => lower := lower + [text];
        case Err(error) =>
          assert layers.lower[i] in PathsOf(layers);
          return Err(error);
      }
    }
    assert layers.lower[..|layers.lower|] == layers.lower;
    var parts := [LOWER + JoinColon(lower)];
    if layers.upper.Some? {
      assert layers.upper.value in PathsOf(layers);
      match Escape(layers.upper.value) {
        case Ok(text) => parts := parts + [UPPER + text];
        case Err(error) => return Err(error);
      }
    }
    if layers.work.Some? {
      assert layers.work.value in PathsOf(layers);
      match Escape(layers.work.value) {
        case Ok(text) => parts := parts + [WORK + text];
        case Err(error) => return Err(error);
      }
    }
    assert parts == Fields(layers);
    DecodeInvertsPrint(layers);
    result := Ok(JoinComma(parts));
  }
}
