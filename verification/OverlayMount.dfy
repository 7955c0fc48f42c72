/** Mounting an overlay: the option string is measured, and when it exceeds one page the layers are
    named relative to their deepest common parent, which becomes the working directory. */
module OverlayMount {
  import opened Wrappers
  import opened Paths
  import opened Overlay

  // ---- Bytes ------------------------------------------------------------------------------------------

  /** The length of a character in UTF-8. */
  function CharBytes(c: char): nat {
    var n := c as int;
    if n < 0x80 then 1 else if n < 0x800 then 2 else if n < 0x1_0000 then 3 else 4
  }

  function Pow2(k: nat): nat {
    if k == 0 then 1 else 2 * Pow2(k - 1)
  }

  /** How many code points `k` bytes of UTF-8 can hold: seven bits, or five and a bit for every byte. */
  function Holds(k: nat): nat {
    if k == 0 then 0 else if k == 1 then Pow2(7) else Pow2(5 * k + 1)
  }

  /** A character takes the fewest bytes that hold it. */
  lemma CharBytesIsLeast(c: char)
    ensures var k := CharBytes(c); k > 0 && Holds(k - 1) <= c as int < Holds(k)
  {
    assert Pow2(7) == 0x80;
    assert Pow2(11) == 0x800;
    assert Pow2(16) == 0x1_0000;
    assert Pow2(21) == 0x20_0000;
  }

  function Bytes(s: string): nat {
    if s == [] then 0 else CharBytes(s[0]) + Bytes(s[1..])
  }

  lemma {:induction false} BytesOfConcat(a: string, b: string)
    ensures Bytes(a + b) == Bytes(a) + Bytes(b)
  {
    if a == [] {
      assert a + b == b;
    } else {
      assert (a + b)[1..] == a[1..] + b;
      BytesOfConcat(a[1..], b);
    }
  }

  function EscapedBytes(s: string): nat {
    Bytes(EscapeText(s))
  }

  lemma EscapedBytesStep(s: string)
    requires s != []
    ensures EscapedBytes(s) > EscapedBytes(s[1..])
  {
    EscapeStep(s);
    BytesOfConcat(EscapeChar(s[0]), EscapeText(s[1..]));
    assert EscapeChar(s[0]) != [];
  }

  lemma {:induction false} EscapedBytesOfSuffix(s: string, n: nat)
    requires n <= |s|
    ensures EscapedBytes(s[n..]) <= EscapedBytes(s)
  {
    if n == 0 {
      assert s[0..] == s;
    } else {
      EscapedBytesStep(s);
      EscapedBytesOfSuffix(s[1..], n - 1);
      assert s[1..][n - 1..] == s[n..];
    }
  }

  lemma {:induction false} EscapedBytesOfPrefix(s: string, n: nat)
    requires n <= |s|
    ensures EscapedBytes(s[..n]) <= EscapedBytes(s)
  {
    if n == 0 {
      assert s[..0] == [];
    } else {
      EscapeStep(s);
      EscapeStep(s[..n]);
      BytesOfConcat(EscapeChar(s[0]), EscapeText(s[1..]));
      BytesOfConcat(EscapeChar(s[0]), EscapeText(s[..n][1..]));
      assert s[..n][1..] == s[1..][..n - 1];
      EscapedBytesOfPrefix(s[1..], n - 1);
    }
  }

  lemma {:induction false} ConsumeShrinks(t: string, n: nat)
    ensures EscapedBytes(Consume(t, n)) <= EscapedBytes(t)
    ensures IsAbsolute(t) ==> EscapedBytes(Consume(t, n)) < EscapedBytes(t)
    ensures forall c | c in Consume(t, n) :: c in t
    decreases |t|
  {
    if t != [] {
      EscapedBytesStep(t);
      if t[0] == '/' || Head(t) == "." {
        ConsumeShrinks(t[1..], n);
      } else if n > 0 {
        EscapedBytesOfSuffix(t, |Head(t)|);
        ConsumeShrinks(t[|Head(t)|..], n - 1);
      }
    }
  }

  lemma {:induction false} TrimRightShrinks(t: string)
    ensures EscapedBytes(TrimRight(t)) <= EscapedBytes(t)
    ensures forall c | c in TrimRight(t) :: c in t
    decreases |t|
  {
    if |t| >= 1 && t[|t| - 1] == '/' {
      EscapedBytesOfPrefix(t, |t| - 1);
      TrimRightShrinks(t[..|t| - 1]);
    } else if |t| >= 2 && t[|t| - 1] == '.' && t[|t| - 2] == '/' {
      EscapedBytesOfPrefix(t, |t| - 2);
      TrimRightShrinks(t[..|t| - 2]);
    }
  }

  // ---- The deepest common parent -------------------------------------------------------------------------

  function CommonPrefix(a: seq<Component>, b: seq<Component>): seq<Component> {
    if a != [] && b != [] && a[0] == b[0] then [a[0]] + CommonPrefix(a[1..], b[1..]) else []
  }

  lemma {:induction false} CommonPrefixIsGreatest(a: seq<Component>, b: seq<Component>, c: seq<Component>)
    ensures CommonPrefix(a, b) <= a && CommonPrefix(a, b) <= b
    ensures c <= a && c <= b <==> c <= CommonPrefix(a, b)
  {
    if a != [] && b != [] && a[0] == b[0] && c != [] {
      CommonPrefixIsGreatest(a[1..], b[1..], c[1..]);
      assert c == [c[0]] + c[1..] && a == [a[0]] + a[1..] && b == [b[0]] + b[1..];
    } else if a != [] && b != [] && a[0] == b[0] {
      CommonPrefixIsGreatest(a[1..], b[1..], []);
      assert a == [a[0]] + a[1..] && b == [b[0]] + b[1..];
    }
  }

  /** What is shared with the parents of all of `paths`, if all have one. */
  function SharedWith(shared: seq<Component>, paths: seq<string>): Option<seq<Component>>
    decreases |paths|
  {
    if paths == [] then Some(shared)
    else
      match ParentComponents(paths[0])
      case None => None
      case Some(candidate) => SharedWith(CommonPrefix(shared, candidate), paths[1..])
  }

  function SharedParent(paths: seq<string>): Option<seq<Component>> {
    if paths == [] || ParentComponents(paths[0]).None? then None
    else SharedWith(ParentComponents(paths[0]).value, paths[1..])
  }

  function CommonParentOf(layers: Layers): Option<string> {
    match SharedParent(PathsOf(layers))
    case None => None
    case Some(shared) => if shared != [] && shared[0] == RootDir then Some(Render(shared)) else None
  }

  /** `cs` leads to a directory above or equal to the parent of every layer. */
  ghost predicate IsAncestor(cs: seq<Component>, paths: seq<string>) {
    forall p | p in paths :: ParentComponents(p).Some? && cs <= ParentComponents(p).value
  }

  lemma {:induction false} SharedWithIsGreatest(shared: seq<Component>, paths: seq<string>, cs: seq<Component>)
    ensures SharedWith(shared, paths).None? <==> exists p :: p in paths && ParentComponents(p).None?
    ensures SharedWith(shared, paths).Some? ==>
            (cs <= SharedWith(shared, paths).value <==> cs <= shared && IsAncestor(cs, paths))
    decreases |paths|
  {
    if paths != [] && ParentComponents(paths[0]).Some? {
      var candidate := ParentComponents(paths[0]).value;
      SharedWithIsGreatest(CommonPrefix(shared, candidate), paths[1..], cs);
      CommonPrefixIsGreatest(shared, candidate, cs);
      assert paths == [paths[0]] + paths[1..];
    }
  }

  lemma SharedParentIsGreatest(paths: seq<string>, cs: seq<Component>)
    requires paths != []
    ensures SharedParent(paths).None? <==> exists p :: p in paths && ParentComponents(p).None?
    ensures SharedParent(paths).Some? ==> (cs <= SharedParent(paths).value <==> IsAncestor(cs, paths))
  {
    assert paths == [paths[0]] + paths[1..];
    if ParentComponents(paths[0]).Some? {
      SharedWithIsGreatest(ParentComponents(paths[0]).value, paths[1..], cs);
    }
  }

  lemma RelativePathsStartElsewhere(p: string)
    requires !IsAbsolute(p) && Components(p) != []
    ensures Components(p)[0] != RootDir
  {
    ScanIsProper(p, []);
    assert Components(p)[0] == CurDir || Components(p)[0] in Body(p);
  }

  lemma ComponentsAreProper(p: string, k: nat)
    requires 1 <= k <= |Components(p)| && Components(p)[0] == RootDir
    ensures IsAbsolute(p)
    ensures forall c | c in Components(p)[1..k] :: ProperName(c)
  {
    if !IsAbsolute(p) { RelativePathsStartElsewhere(p); }
    ScanIsProper(p, []);
    ComponentsOfAbsolute(p);
    assert forall c | c in Components(p)[1..k] :: c in Components(p)[1..];
  }

  /** There is a common parent exactly when every layer is an absolute path below the root; it is then
      absolute, above every layer, and below every other directory that is above every layer. */
  lemma CommonParentIsGreatest(layers: Layers, cs: seq<Component>)
    ensures CommonParentOf(layers).Some? <==> PathsOf(layers) != [] && IsAncestor([RootDir], PathsOf(layers))
    ensures CommonParentOf(layers).Some? ==>
            && IsAbsolute(CommonParentOf(layers).value)
            && IsAncestor(Components(CommonParentOf(layers).value), PathsOf(layers))
            && (IsAncestor(cs, PathsOf(layers)) ==> cs <= Components(CommonParentOf(layers).value))
  {
    var paths := PathsOf(layers);
    if paths != [] {
      SharedParentIsGreatest(paths, [RootDir]);
      SharedParentIsGreatest(paths, cs);
      if SharedParent(paths).Some? {
        var shared := SharedParent(paths).value;
        SharedParentIsGreatest(paths, shared);
        assert [RootDir] <= shared <==> shared != [] && shared[0] == RootDir;
        if [RootDir] <= shared {
          assert paths[0] in paths;
          var parent := ParentComponents(paths[0]).value;
          assert shared <= parent && parent <= Components(paths[0]);
          ComponentsAreProper(paths[0], |shared|);
          assert Components(paths[0])[1..|shared|] == shared[1..];
          ComponentsOfRender(shared);
        }
      } else {
        assert !IsAncestor([RootDir], paths);
      }
    }
  }

  // ---- Relative layers ----------------------------------------------------------------------------------

  function Strip(path: string, base: string): Option<string> {
    match StripPrefix(path, base)
    case Some(rest) => if rest == "" then None else Some(rest)
    case None => None
  }

  function StripAll(paths: seq<string>, base: string): Option<seq<string>> {
    if paths == [] then Some([])
    else
      match (Strip(paths[0], base), StripAll(paths[1..], base))
      case (Some(first), Some(rest)) => Some([first] + rest)
      case _ => None
  }

  function StripOption(path: Option<string>, base: string): Option<Option<string>> {
    match path
    case None => Some(None)
    case Some(p) => (match Strip(p, base) case Some(rest) => Some(Some(rest)) case None => None)
  }

  function RelativeTo(layers: Layers, base: string): Option<Layers> {
    match (StripAll(layers.lower, base), StripOption(layers.upper, base), StripOption(layers.work, base))
    case (Some(lower), Some(upper), Some(work)) => Some(Layers(lower, upper, work))
    case _ => None
  }

  /** `rest` names from `base` what `path` names, without a comma of its own and in fewer bytes. */
  ghost predicate Shortens(rest: string, path: string, base: string) {
    && rest != "" && !IsAbsolute(rest)
    && Components(Join(base, rest)) == Components(path)
    && (',' !in path ==> ',' !in rest)
    && EscapedBytes(rest) < EscapedBytes(path)
  }

  ghost predicate ShortensAll(rest: seq<string>, paths: seq<string>, base: string) {
    |rest| == |paths| && forall i | 0 <= i < |paths| :: Shortens(rest[i], paths[i], base)
  }

  lemma StripShortens(path: string, base: string)
    requires IsAbsolute(base) && ParentComponents(path).Some? && Components(base) <= ParentComponents(path).value
    ensures Strip(path, base).Some? && Shortens(Strip(path, base).value, path, base)
  {
    ComponentsOfAbsolute(base);
    assert Components(base)[0] == RootDir && Components(path)[0] == Components(base)[0];
    ComponentsAreProper(path, 1);
    assert Components(base) <= Components(path);
    StripThenJoin(path, base);
    var n := |Components(base)| - 1;
    ConsumeShrinks(path, n);
    TrimRightShrinks(Consume(path, n));
  }

  /** A layer can be named from a base exactly if it lies below it; the base itself has no name there. */
  lemma StripExactly(path: string, base: string)
    requires IsAbsolute(base)
    ensures Strip(path, base).Some? <==> Components(base) < Components(path)
  {
    ComponentsOfAbsolute(base);
    if Components(base) <= Components(path) {
      assert Components(path)[0] == RootDir;
      ComponentsAreProper(path, 1);
      StripThenJoin(path, base);
    }
  }

  lemma ShortensCons(first: string, rest: seq<string>, paths: seq<string>, base: string)
    requires paths != [] && Shortens(first, paths[0], base) && ShortensAll(rest, paths[1..], base)
    ensures ShortensAll([first] + rest, paths, base)
  {
    forall i | 0 <= i < |paths| ensures Shortens(([first] + rest)[i], paths[i], base) {
      if i > 0 { assert Shortens(rest[i - 1], paths[1..][i - 1], base); }
    }
  }

  lemma {:induction false} StripAllShortens(paths: seq<string>, base: string)
    requires IsAbsolute(base) && IsAncestor(Components(base), paths)
    ensures StripAll(paths, base).Some?
    ensures ShortensAll(StripAll(paths, base).value, paths, base)
  {
    if paths != [] {
      StripShortens(paths[0], base);
      StripAllShortens(paths[1..], base);
      ShortensCons(Strip(paths[0], base).value, StripAll(paths[1..], base).value, paths, base);
    }
  }

  ghost predicate ShortensOption(rest: Option<string>, path: Option<string>, base: string) {
    (rest.Some? <==> path.Some?) && (path.Some? ==> Shortens(rest.value, path.value, base))
  }

  function AsList(path: Option<string>): seq<string> {
    if path.Some? then [path.value] else []
  }

  lemma StripOptionShortens(path: Option<string>, base: string)
    requires IsAbsolute(base) && IsAncestor(Components(base), AsList(path))
    ensures StripOption(path, base).Some? && ShortensOption(StripOption(path, base).value, path, base)
  {
    if path.Some? {
      assert path.value in AsList(path);
      StripShortens(path.value, base);
    }
  }

  lemma AncestorOfParts(layers: Layers, cs: seq<Component>)
    requires IsAncestor(cs, PathsOf(layers))
    ensures IsAncestor(cs, layers.lower)
    ensures IsAncestor(cs, AsList(layers.upper)) && IsAncestor(cs, AsList(layers.work))
  {
    assert PathsOf(layers) == layers.lower + AsList(layers.upper) + AsList(layers.work);
    assert forall p | p in layers.lower :: p in PathsOf(layers);
    assert forall p | p in AsList(layers.upper) :: p in PathsOf(layers);
    assert forall p | p in AsList(layers.work) :: p in PathsOf(layers);
  }

  /** Stripping a directory above every layer always succeeds, layer by layer. */
  lemma RelativeToShortens(layers: Layers, base: string)
    requires IsAbsolute(base) && IsAncestor(Components(base), PathsOf(layers))
    ensures RelativeTo(layers, base).Some?
    ensures var relative := RelativeTo(layers, base).value;
            && ShortensAll(relative.lower, layers.lower, base)
            && ShortensOption(relative.upper, layers.upper, base)
            && ShortensOption(relative.work, layers.work, base)
  {
    AncestorOfParts(layers, Components(base));
    StripAllShortens(layers.lower, base);
    StripOptionShortens(layers.upper, base);
    StripOptionShortens(layers.work, base);
  }

  // ---- The relative string is shorter ---------------------------------------------------------------------

  function TotalBytes(parts: seq<string>): nat {
    if parts == [] then 0 else Bytes(parts[0]) + TotalBytes(parts[1..])
  }

  lemma {:induction false} BytesOfJoinColon(parts: seq<string>)
    requires parts != []
    ensures Bytes(JoinColon(parts)) == TotalBytes(parts) + |parts| - 1
  {
    if |parts| > 1 {
      BytesOfJoinColon(parts[1..]);
      BytesOfConcat([':'], JoinColon(parts[1..]));
      BytesOfConcat(parts[0], [':'] + JoinColon(parts[1..]));
    }
  }

  lemma {:induction false} BytesOfJoinComma(parts: seq<string>)
    requires parts != []
    ensures Bytes(JoinComma(parts)) == TotalBytes(parts) + |parts| - 1
  {
    if |parts| > 1 {
      BytesOfJoinComma(parts[1..]);
      BytesOfConcat([','], JoinComma(parts[1..]));
      BytesOfConcat(parts[0], [','] + JoinComma(parts[1..]));
    }
  }

  /** Lists of one length whose elements all shrink have a smaller total. */
  lemma {:induction false} TotalShrinks(a: seq<string>, b: seq<string>)
    requires |a| == |b| && forall i | 0 <= i < |a| :: Bytes(a[i]) <= Bytes(b[i])
    ensures TotalBytes(a) <= TotalBytes(b)
    ensures (exists i :: 0 <= i < |a| && Bytes(a[i]) < Bytes(b[i])) ==> TotalBytes(a) < TotalBytes(b)
  {
    if a != [] {
      TotalShrinks(a[1..], b[1..]);
      if i :| 0 <= i < |a| && Bytes(a[i]) < Bytes(b[i]) {
        if i > 0 { assert Bytes(a[1..][i - 1]) < Bytes(b[1..][i - 1]); }
      }
    }
  }

  lemma {:induction false} EscapeAllIsElementwise(paths: seq<string>)
    ensures |EscapeAll(paths)| == |paths|
    ensures forall i | 0 <= i < |paths| :: EscapeAll(paths)[i] == EscapeText(paths[i])
  {
    if paths != [] { EscapeAllIsElementwise(paths[1..]); }
  }

  lemma LowerFieldShrinks(a: seq<string>, b: seq<string>, base: string)
    requires ShortensAll(a, b, base)
    ensures Bytes(LOWER + JoinColon(EscapeAll(a))) <= Bytes(LOWER + JoinColon(EscapeAll(b)))
    ensures a != [] ==> Bytes(LOWER + JoinColon(EscapeAll(a))) < Bytes(LOWER + JoinColon(EscapeAll(b)))
  {
    BytesOfConcat(LOWER, JoinColon(EscapeAll(a)));
    BytesOfConcat(LOWER, JoinColon(EscapeAll(b)));
    if a != [] {
      EscapeAllIsElementwise(a);
      EscapeAllIsElementwise(b);
      BytesOfJoinColon(EscapeAll(a));
      BytesOfJoinColon(EscapeAll(b));
      forall i | 0 <= i < |a| ensures Bytes(EscapeAll(a)[i]) < Bytes(EscapeAll(b)[i]) {
        assert Shortens(a[i], b[i], base);
      }
      assert Bytes(EscapeAll(a)[0]) < Bytes(EscapeAll(b)[0]);
      TotalShrinks(EscapeAll(a), EscapeAll(b));
    }
  }

  function OptionField(key: string, path: Option<string>): seq<string> {
    if path.Some? then [key + EscapeText(path.value)] else []
  }

  lemma OptionFieldShrinks(key: string, a: Option<string>, b: Option<string>, base: string)
    requires ShortensOption(a, b, base)
    ensures |OptionField(key, a)| == |OptionField(key, b)| <= 1
    ensures TotalBytes(OptionField(key, a)) <= TotalBytes(OptionField(key, b))
    ensures b.Some? ==> TotalBytes(OptionField(key, a)) < TotalBytes(OptionField(key, b))
  {
    if b.Some? {
      BytesOfConcat(key, EscapeText(a.value));
      BytesOfConcat(key, EscapeText(b.value));
      assert Shortens(a.value, b.value, base);
      assert OptionField(key, a)[1..] == [] && OptionField(key, b)[1..] == [];
    }
  }

  lemma {:induction false} TotalOfConcat(a: seq<string>, b: seq<string>)
    ensures TotalBytes(a + b) == TotalBytes(a) + TotalBytes(b)
  {
    if a == [] {
      assert a + b == b;
    } else {
      assert (a + b)[1..] == a[1..] + b;
      TotalOfConcat(a[1..], b);
    }
  }

  lemma BytesOfOptionText(layers: Layers)
    ensures var first := LOWER + JoinColon(EscapeAll(layers.lower));
            var upper, work := OptionField(UPPER, layers.upper), OptionField(WORK, layers.work);
            Bytes(OptionText(layers)) ==
            Bytes(first) + TotalBytes(upper) + TotalBytes(work) + |upper| + |work|
  {
    var first := LOWER + JoinColon(EscapeAll(layers.lower));
    var upper, work := OptionField(UPPER, layers.upper), OptionField(WORK, layers.work);
    assert Fields(layers) == [first] + upper + work;
    TotalOfConcat([first] + upper, work);
    TotalOfConcat([first], upper);
    assert [first][1..] == [];
    BytesOfJoinComma(Fields(layers));
  }

  /** The relative option string is strictly shorter than the absolute one. */
  lemma RelativeIsShorter(layers: Layers, base: string)
    requires IsAbsolute(base) && PathsOf(layers) != [] && IsAncestor(Components(base), PathsOf(layers))
    ensures RelativeTo(layers, base).Some?
    ensures Bytes(OptionText(RelativeTo(layers, base).value)) < Bytes(OptionText(layers))
  {
    RelativeToShortens(layers, base);
    var relative := RelativeTo(layers, base).value;
    BytesOfOptionText(layers);
    BytesOfOptionText(relative);
    LowerFieldShrinks(relative.lower, layers.lower, base);
    OptionFieldShrinks(UPPER, relative.upper, layers.upper, base);
    OptionFieldShrinks(WORK, relative.work, layers.work, base);
  }

  // ---- What layers mean in a working directory ------------------------------------------------------------

  datatype Meaning = Meaning(lower: seq<seq<Component>>, upper: Option<seq<Component>>, work: Option<seq<Component>>)

  function Resolve(cwd: string, path: string): seq<Component> {
    Components(Join(cwd, path))
  }

  function ResolveAll(cwd: string, paths: seq<string>): seq<seq<Component>> {
    seq(|paths|, i requires 0 <= i < |paths| => Resolve(cwd, paths[i]))
  }

  function ResolveOption(cwd: string, path: Option<string>): Option<seq<Component>> {
    match path case None => None case Some(p) => Some(Resolve(cwd, p))
  }

  function MeaningOf(cwd: string, layers: Layers): Meaning {
    Meaning(ResolveAll(cwd, layers.lower), ResolveOption(cwd, layers.upper), ResolveOption(cwd, layers.work))
  }

  /** Names that start at the root mean the same in every working directory. */
  lemma ResolveAllIsTheSame(rest: seq<string>, paths: seq<string>, base: string, cwd: string)
    requires ShortensAll(rest, paths, base) && forall p | p in paths :: IsAbsolute(p)
    ensures ResolveAll(base, rest) == ResolveAll(cwd, paths)
  {
    forall i | 0 <= i < |paths| ensures Resolve(base, rest[i]) == Resolve(cwd, paths[i]) {
      assert Shortens(rest[i], paths[i], base);
    }
  }

  /** From the common parent, the relative layers mean what the layers meant from anywhere. */
  lemma RelativeMeansTheSame(layers: Layers, base: string, cwd: string)
    requires CommonParentOf(layers) == Some(base)
    ensures RelativeTo(layers, base).Some?
    ensures MeaningOf(base, RelativeTo(layers, base).value) == MeaningOf(cwd, layers)
    ensures Bytes(OptionText(RelativeTo(layers, base).value)) < Bytes(OptionText(layers))
  {
    CommonParentIsGreatest(layers, []);
    RelativeToShortens(layers, base);
    RelativeIsShorter(layers, base);
    LayersAreAbsolute(layers);
    var relative := RelativeTo(layers, base).value;
    forall p | p in layers.lower ensures IsAbsolute(p) { assert p in PathsOf(layers); }
    ResolveAllIsTheSame(relative.lower, layers.lower, base, cwd);
    assert layers.upper.Some? ==> layers.upper.value in PathsOf(layers);
    assert layers.work.Some? ==> layers.work.value in PathsOf(layers);
  }

  lemma ShortenedPathsStayPrintable(rest: seq<string>, paths: seq<string>, base: string)
    requires ShortensAll(rest, paths, base)
    ensures "" !in rest
    ensures (forall p | p in paths :: ',' !in p) ==> forall p | p in rest :: ',' !in p
  {
    forall i | 0 <= i < |rest| ensures rest[i] != "" && (',' !in paths[i] ==> ',' !in rest[i]) {
      assert Shortens(rest[i], paths[i], base);
    }
  }

  /** Shortening adds neither a comma nor an empty path, so the relative layers print and decode. */
  lemma RelativeStaysPrintable(layers: Layers, base: string)
    requires CommonParentOf(layers) == Some(base)
    ensures RelativeTo(layers, base).Some?
    ensures "" !in layers.lower && "" !in RelativeTo(layers, base).value.lower
    ensures CommaFree(layers) ==> CommaFree(RelativeTo(layers, base).value)
  {
    CommonParentIsGreatest(layers, []);
    RelativeToShortens(layers, base);
    var relative := RelativeTo(layers, base).value;
    LayersAreAbsolute(layers);
    assert forall p | p in layers.lower :: p in PathsOf(layers);
    ShortenedPathsStayPrintable(relative.lower, layers.lower, base);
    CommaFreeByParts(layers);
    CommaFreeByParts(relative);
  }

  lemma CommaFreeByParts(layers: Layers)
    ensures CommaFree(layers) <==>
            && (forall p | p in layers.lower :: ',' !in p)
            && (layers.upper.Some? ==> ',' !in layers.upper.value)
            && (layers.work.Some? ==> ',' !in layers.work.value)
  {
    assert PathsOf(layers) == layers.lower + AsList(layers.upper) + AsList(layers.work);
    assert forall p | p in layers.lower :: p in PathsOf(layers);
    assert layers.upper.Some? ==> layers.upper.value in PathsOf(layers);
    assert layers.work.Some? ==> layers.work.value in PathsOf(layers);
  }

  lemma LayersAreAbsolute(layers: Layers)
    requires IsAncestor([RootDir], PathsOf(layers))
    ensures forall p | p in PathsOf(layers) :: IsAbsolute(p)
  {
    forall p | p in PathsOf(layers) ensures IsAbsolute(p) {
      assert [RootDir] <= ParentComponents(p).value;
      assert ParentComponents(p).value[0] == RootDir;
      ComponentsAreProper(p, 1);
    }
  }

  // ---- The runtime ----------------------------------------------------------------------------------------

  lemma SharedWithStep(shared: seq<Component>, all: seq<string>, i: nat)
    requires i < |all|
    ensures SharedWith(shared, all[i..]) ==
            match ParentComponents(all[i])
            case None => None
            case Some(candidate) => SharedWith(CommonPrefix(shared, candidate), all[i + 1..])
  {
    assert all[i..][0] == all[i] && all[i..][1..] == all[i + 1..];
  }

  lemma CommonPrefixAt(a: seq<Component>, b: seq<Component>, k: nat)
    requires k < |a| && k < |b| && a[k] == b[k]
    ensures |CommonPrefix(a[k..], b[k..])| == 1 + |CommonPrefix(a[k + 1..], b[k + 1..])|
  {
    assert a[k..][1..] == a[k + 1..] && b[k..][1..] == b[k + 1..];
  }

  lemma NothingInCommon(a: seq<Component>, b: seq<Component>)
    requires a == [] || b == [] || a[0] != b[0]
    ensures CommonPrefix(a, b) == []
  {
  }

  /** Drops from `shared` what `candidate` does not share, as the iterator chain does: count, then cut. */
  method Truncate(shared: seq<Component>, candidate: seq<Component>) returns (kept: seq<Component>)
    ensures kept == CommonPrefix(shared, candidate)
  {
    var keep := 0;
    assert shared[0..] == shared && candidate[0..] == candidate;
    while keep < |shared| && keep < |candidate| && shared[keep] == candidate[keep]
      invariant keep <= |shared| && keep <= |candidate|
      invariant |CommonPrefix(shared, candidate)| == keep + |CommonPrefix(shared[keep..], candidate[keep..])|
    {
      CommonPrefixAt(shared, candidate, keep);
      keep := keep + 1;
    }
    NothingInCommon(shared[keep..], candidate[keep..]);
    CommonPrefixIsGreatest(shared, candidate, []);
    kept := shared[..keep];
  }

  method CommonParent(layers: Layers) returns (result: Option<string>)
    ensures result == CommonParentOf(layers)
  {
    var all := layers.lower + AsList(layers.upper) + AsList(layers.work);
    assert all == PathsOf(layers);
    if all == [] || ParentComponents(all[0]).None? {
      return None;
    }
    var shared := ParentComponents(all[0]).value;
    var i := 1;
    while i < |all|
      invariant 1 <= i <= |all|
      invariant SharedWith(shared, all[i..]) == SharedParent(all)
    {
      SharedWithStep(shared, all, i);
      var parent := ParentComponents(all[i]);
      if parent.None? {
        return None;
      }
      shared := Truncate(shared, parent.value);
      i := i + 1;
    }
    if shared != [] && shared[0] == RootDir {
      return Some(Render(shared));
    }
    return None;
  }

  datatype MountCall = MountCall(cwd: string, target: string, data: string)

  /** What the kernel answers to the three calls `MountAt` may make. */
  datatype Answers = Answers(chdir: bool, mount: bool, back: bool)

  /** The working directory of the process and the overlay mounts it asked for. */
  class Process {
    var cwd: string
    var calls: seq<MountCall>

    constructor (cwd: string)
      ensures this.cwd == cwd && calls == []
    {
      this.cwd := cwd;
      calls := [];
    }
  }

  /** The layers are named so that the kernel reads at most one page. */
  predicate Fits(layers: Layers) {
    || Bytes(OptionText(layers)) <= 4_096
    || (CommonParentOf(layers).Some?
        && RelativeTo(layers, CommonParentOf(layers).value).Some?
        && Bytes(OptionText(RelativeTo(layers, CommonParentOf(layers).value).value)) <= 4_096)
  }

  /** Mounts the layers. Whatever string reaches the kernel is at most one page and, read in the
      working directory of that moment, names exactly the layers asked for, in order; an empty lower
      path names nothing. */
  method MountAt(process: Process, target: string, layers: Layers, answers: Answers)
    returns (result: Result<(), OverlayError>)
    modifies process
    ensures process.calls == old(process.calls)
            || (|process.calls| == |old(process.calls)| + 1 && old(process.calls) <= process.calls)
    ensures process.calls != old(process.calls) ==>
            var call := process.calls[|old(process.calls)|];
            && call.target == target
            && Bytes(call.data) <= 4_096
            && Decode(call.data).Some?
            && MeaningOf(call.cwd, Decode(call.data).value)
               == MeaningOf(old(process.cwd), layers.(lower := NonEmpty(layers.lower)))
    ensures process.calls != old(process.calls) ==> CommaFree(layers) && Fits(layers)
    ensures CommaFree(layers) && Fits(layers) && answers == Answers(true, true, true) ==>
            result == Ok(()) && process.calls != old(process.calls)
    ensures result.Ok? ==> process.calls != old(process.calls) && answers.mount
    ensures result == Err(CommaInPath) <==> !CommaFree(layers)
    ensures result.Err? && result.error.TooLong? <==> CommaFree(layers) && !Fits(layers)
    ensures result.Err? && result.error.TooLong? ==> result.error.bytes > 4_096
    ensures Bytes(OptionText(layers)) <= 4_096 ==> process.cwd == old(process.cwd)
    ensures result.Ok? && Bytes(OptionText(layers)) > 4_096 ==> process.cwd == "/"
  {
    var absolute := Options(layers);
    if absolute.Err? {
      return Err(absolute.error);
    }
    var data, base: Option<string> := absolute.value, None;
    DecodeInvertsPrint(layers);
    NonEmptyExactly(layers.lower);
    if Bytes(absolute.value) > MAX_OPTION_BYTES {
      base := CommonParent(layers);
      if base.None? {
        return Err(TooLong(Bytes(absolute.value)));
      }
      RelativeMeansTheSame(layers, base.value, process.cwd);
      var relative := RelativeTo(layers, base.value);
      // Neither `relative_to` nor the second `options` can fail here.
      RelativeStaysPrintable(layers, base.value);
      var shortened := Options(relative.value);
      if Bytes(shortened.value) > MAX_OPTION_BYTES {
        return Err(TooLong(Bytes(shortened.value)));
      }
      data := shortened.value;
      DecodeInvertsPrint(relative.value);
      NonEmptyExactly(relative.value.lower);
      if !answers.chdir {
        return Err(ChdirFailed);
      }
      process.cwd := base.value;
    }
    process.calls := process.calls + [MountCall(process.cwd, target, data)];
    if base.Some? {
      if !answers.back {
        return Err(ChdirFailed);
      }
      process.cwd := "/";
    }
    result := if answers.mount then Ok(()) else Err(MountFailed);
  }
}
