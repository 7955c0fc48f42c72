/** Path text and its components, as `std::path` reads them on Unix: repeated separators and interior
    "." segments do not count, ".." does, and the text kept by an operation is a slice of the input. */
module Paths {
  import opened Wrappers

  datatype Component = RootDir | CurDir | ParentDir | Normal(name: string)

  // ---- Reading a path ----------------------------------------------------------------------------

  /** The component a finished segment stands for, if any. */
  function Flush(segment: string): seq<Component> {
    if segment == "" || segment == "." then []
    else if segment == ".." then [ParentDir]
    else [Normal(segment)]
  }

  /** The components of `t`, with `segment` read so far. */
  function Scan(t: string, segment: string): seq<Component> {
    if t == [] then Flush(segment)
    else if t[0] == '/' then Flush(segment) + Scan(t[1..], [])
    else Scan(t[1..], segment + [t[0]])
  }

  /** The components of a path after its start. */
  function Body(t: string): seq<Component> {
    Scan(t, [])
  }

  /** The text before the first separator. */
  function Head(t: string): (h: string)
    ensures |h| <= |t|
  {
    if t == [] || t[0] == '/' then [] else [t[0]] + Head(t[1..])
  }

  function Components(p: string): seq<Component> {
    if p != [] && p[0] == '/' then [RootDir] + Body(p)
    else if p != [] && Head(p) == "." then [CurDir] + Body(p)
    else Body(p)
  }

  predicate IsAbsolute(p: string) {
    p != [] && p[0] == '/'
  }

  /** The components of the parent, if the path has one. */
  function ParentComponents(p: string): Option<seq<Component>> {
    var cs := Components(p);
    if cs == [] || cs[|cs| - 1] == RootDir then None else Some(cs[..|cs| - 1])
  }

  // ---- Text of components, joins and slices ----------------------------------------------------------

  function NameOf(c: Component): string {
    match c
    case RootDir => "/"
    case CurDir => "."
    case ParentDir => ".."
    case Normal(name) => name
  }

  function RenderBody(cs: seq<Component>): string {
    if cs == [] then [] else ['/'] + (NameOf(cs[0]) + RenderBody(cs[1..]))
  }

  /** The path collected from components that start at the root. */
  function Render(cs: seq<Component>): string {
    if |cs| <= 1 then ['/'] else RenderBody(cs[1..])
  }

  /** `base.join(path)`. */
  function Join(base: string, path: string): string {
    if IsAbsolute(path) then path
    else if base == [] || base[|base| - 1] == '/' then base + path
    else base + ['/'] + path
  }

  /** What is left after the first `n` components of the body, from the start of the next one. */
  function Consume(t: string, n: nat): string
    decreases |t|
  {
    if t == [] then []
    else if t[0] == '/' then Consume(t[1..], n)
    else if Head(t) == "." then Consume(t[1..], n)
    else if n == 0 then t
    else
      assert |Head(t)| > 0;
      Consume(t[|Head(t)|..], n - 1)
  }

  /** Drops trailing separators and "." segments. */
  function TrimRight(t: string): string
    decreases |t|
  {
    if |t| >= 1 && t[|t| - 1] == '/' then TrimRight(t[..|t| - 1])
    else if |t| >= 2 && t[|t| - 1] == '.' && t[|t| - 2] == '/' then TrimRight(t[..|t| - 2])
    else t
  }

  /** `path.strip_prefix(base)` for absolute paths: the slice of `path` after the components of
      `base`, if those come first. */
  function StripPrefix(path: string, base: string): Option<string> {
    var cs, bs := Components(path), Components(base);
    if bs <= cs && bs != [] && bs[0] == RootDir then Some(TrimRight(Consume(path, |bs| - 1))) else None
  }

  // ---- Facts --------------------------------------------------------------------------------------------

  /** A separator splits the components. */
  lemma {:induction false} ScanOfConcat(a: string, b: string, segment: string)
    requires b == [] || b[0] == '/'
    ensures Scan(a + b, segment) == Scan(a, segment) + Scan(b, [])
  {
    if a == [] {
      assert a + b == b;
    } else {
      assert (a + b)[1..] == a[1..] + b;
      ScanOfConcat(a[1..], b, if a[0] == '/' then [] else segment + [a[0]]);
    }
  }

  lemma BodyPastSeparator(t: string)
    ensures Body(['/'] + t) == Body(t)
  {
    assert (['/'] + t)[1..] == t;
  }

  lemma BodyOfConcat(a: string, t: string)
    ensures Body(a + (['/'] + t)) == Body(a) + Body(t)
  {
    ScanOfConcat(a, ['/'] + t, []);
    BodyPastSeparator(t);
  }

  /** A segment is read up to its separator. */
  lemma {:induction false} ScanOfSegment(t: string, segment: string)
    ensures Scan(t, segment) == Flush(segment + Head(t)) + Body(t[|Head(t)|..])
  {
    if t == [] || t[0] == '/' {
      assert segment + [] == segment && t[0..] == t;
    } else {
      ScanOfSegment(t[1..], segment + [t[0]]);
      assert segment + [t[0]] + Head(t[1..]) == segment + Head(t);
      assert t[1..][|Head(t[1..])|..] == t[|Head(t)|..];
    }
  }

  predicate ProperName(c: Component) {
    || c.ParentDir?
    || (c.Normal? && c.name != "" && c.name != "." && c.name != ".." && '/' !in c.name)
  }

  lemma {:induction false} ScanIsProper(t: string, segment: string)
    requires '/' !in segment
    ensures forall c | c in Scan(t, segment) :: ProperName(c)
  {
    if t != [] {
      ScanIsProper(t[1..], if t[0] == '/' then [] else segment + [t[0]]);
    }
  }

  lemma {:induction false} ScanOfName(name: string, segment: string)
    requires '/' !in name
    ensures Scan(name, segment) == Flush(segment + name)
  {
    if name == [] {
      assert segment + name == segment;
    } else {
      assert segment + [name[0]] + name[1..] == segment + name;
      ScanOfName(name[1..], segment + [name[0]]);
    }
  }

  lemma {:induction false} BodyOfRender(cs: seq<Component>)
    requires forall c | c in cs :: ProperName(c)
    ensures Body(RenderBody(cs)) == cs
  {
    if cs != [] {
      var name, rest := NameOf(cs[0]), RenderBody(cs[1..]);
      BodyOfRender(cs[1..]);
      BodyPastSeparator(name + rest);
      ScanOfConcat(name, rest, []);
      assert ProperName(cs[0]);
      ScanOfName(name, []);
      assert [] + name == name;
    }
  }

  lemma ComponentsOfAbsolute(p: string)
    requires IsAbsolute(p)
    ensures Components(p) == [RootDir] + Body(p) && Components(p)[1..] == Body(p)
  {
  }

  lemma ComponentsOfRender(cs: seq<Component>)
    requires |cs| >= 1 && cs[0] == RootDir && forall c | c in cs[1..] :: ProperName(c)
    ensures IsAbsolute(Render(cs)) && Components(Render(cs)) == cs
  {
    if |cs| == 1 {
      BodyPastSeparator([]);
      assert ['/'] + [] == ['/'];
    } else {
      BodyOfRender(cs[1..]);
    }
    ComponentsOfAbsolute(Render(cs));
  }

  /** The parent of a path is all of it but the last name; only the root has none. */
  lemma ParentOfRender(cs: seq<Component>)
    requires |cs| >= 1 && cs[0] == RootDir && forall c | c in cs[1..] :: ProperName(c)
    ensures ParentComponents(Render(cs)) == if |cs| == 1 then None else Some(cs[..|cs| - 1])
  {
    ComponentsOfRender(cs);
    if |cs| > 1 {
      assert cs[1..][|cs| - 2] == cs[|cs| - 1];
      assert ProperName(cs[|cs| - 1]);
    }
  }

  lemma {:induction false} HeadOfName(name: string, rest: string)
    requires '/' !in name && (rest == [] || rest[0] == '/')
    ensures Head(name + rest) == name
  {
    if name == [] {
      assert name + rest == rest;
    } else {
      assert (name + rest)[1..] == name[1..] + rest;
      HeadOfName(name[1..], rest);
      assert name == [name[0]] + name[1..];
    }
  }

  /** A relative path comes back as well, with a leading "." as the only one that counts. */
  lemma RelativeComesBack(cs: seq<Component>)
    requires |cs| >= 1 && (cs[0].CurDir? || ProperName(cs[0])) && forall c | c in cs[1..] :: ProperName(c)
    ensures var p := NameOf(cs[0]) + RenderBody(cs[1..]); !IsAbsolute(p) && Components(p) == cs
  {
    var name, rest := NameOf(cs[0]), RenderBody(cs[1..]);
    var p := name + rest;
    HeadOfName(name, rest);
    BodyOfSegment(p);
    assert p[|name|..] == rest;
    BodyOfRender(cs[1..]);
  }

  /** A text that starts with a segment: its component, if any, and then the rest. */
  lemma BodyOfSegment(t: string)
    requires t != [] && t[0] != '/'
    ensures Head(t) != [] && Head(t)[0] == t[0]
    ensures Body(t) == Flush(Head(t)) + Body(t[|Head(t)|..])
  {
    ScanOfSegment(t, []);
    assert [] + Head(t) == Head(t);
  }

  lemma {:induction false} BodyOfConsume(t: string, n: nat)
    requires n <= |Body(t)|
    ensures Body(Consume(t, n)) == Body(t)[n..]
    ensures n == |Body(t)| <==> Consume(t, n) == []
    ensures Consume(t, n) != [] ==> Consume(t, n)[0] != '/' && Head(Consume(t, n)) != "."
    decreases |t|
  {
    if t != [] && t[0] == '/' {
      BodyOfConsume(t[1..], n);
    } else if t != [] {
      BodyOfSegment(t);
      if Head(t) == "." {
        BodyOfConsume(t[1..], n);
      } else if n > 0 {
        BodyOfConsume(t[|Head(t)|..], n - 1);
        DropOne(Body(t), Body(t[|Head(t)|..]), n);
      }
    }
  }

  lemma DropOne(whole: seq<Component>, rest: seq<Component>, n: nat)
    requires 1 <= n <= |whole| && |whole| == 1 + |rest| && whole[1..] == rest
    ensures whole[n..] == rest[n - 1..]
  {
  }

  lemma {:induction false} BodyOfTrimRight(t: string)
    ensures Body(TrimRight(t)) == Body(t)
    decreases |t|
  {
    if |t| >= 1 && t[|t| - 1] == '/' {
      var x := t[..|t| - 1];
      assert t == x + (['/'] + []);
      BodyOfConcat(x, []);
      BodyOfTrimRight(x);
    } else if |t| >= 2 && t[|t| - 1] == '.' && t[|t| - 2] == '/' {
      var x := t[..|t| - 2];
      assert t == x + (['/'] + ['.']);
      BodyOfConcat(x, ['.']);
      ScanOfName(['.'], []);
      BodyOfTrimRight(x);
    }
  }

  /** What is trimmed ends in no separator and no "." segment, and is a beginning of the text. */
  lemma {:induction false} TrimRightEndsClean(t: string)
    ensures var r := TrimRight(t);
            && r <= t
            && (r != [] ==> r[|r| - 1] != '/')
            && (|r| >= 2 ==> r[|r| - 2] != '/' || r[|r| - 1] != '.')
    decreases |t|
  {
    if |t| >= 1 && t[|t| - 1] == '/' {
      TrimRightEndsClean(t[..|t| - 1]);
    } else if |t| >= 2 && t[|t| - 1] == '.' && t[|t| - 2] == '/' {
      TrimRightEndsClean(t[..|t| - 2]);
    }
  }

  /** Trimming on the right keeps the first character of a text that does not start with a separator. */
  lemma {:induction false} TrimRightKeepsStart(t: string)
    requires t != [] && t[0] != '/'
    ensures TrimRight(t) != [] && TrimRight(t)[0] == t[0]
    decreases |t|
  {
    if |t| >= 1 && t[|t| - 1] == '/' {
      TrimRightKeepsStart(t[..|t| - 1]);
    } else if |t| >= 2 && t[|t| - 1] == '.' && t[|t| - 2] == '/' {
      TrimRightKeepsStart(t[..|t| - 2]);
    }
  }

  lemma BodyOfRest(path: string, n: nat)
    requires n <= |Body(path)|
    ensures var rest := TrimRight(Consume(path, n));
            && !IsAbsolute(rest) && Body(rest) == Body(path)[n..]
            && (rest == [] <==> n == |Body(path)|)
  {
    var rest := Consume(path, n);
    BodyOfConsume(path, n);
    BodyOfTrimRight(rest);
    if rest != [] {
      TrimRightKeepsStart(rest);
    }
  }

  lemma BodyOfJoin(base: string, rest: string)
    requires IsAbsolute(base) && !IsAbsolute(rest)
    ensures IsAbsolute(Join(base, rest)) && Body(Join(base, rest)) == Body(base) + Body(rest)
  {
    if base[|base| - 1] == '/' {
      var x := base[..|base| - 1];
      assert base == x + (['/'] + []) && base + rest == x + (['/'] + rest);
      BodyOfConcat(x, []);
      BodyOfConcat(x, rest);
    } else {
      assert base + ['/'] + rest == base + (['/'] + rest);
      BodyOfConcat(base, rest);
    }
  }

  /** Stripping a base and joining it again names the same file: the components are those of the
      original path; and the rest is empty only if the base was the whole path. */
  lemma StripThenJoin(path: string, base: string)
    requires IsAbsolute(path) && IsAbsolute(base) && Components(base) <= Components(path)
    ensures StripPrefix(path, base).Some?
    ensures var rest := StripPrefix(path, base).value;
            && !IsAbsolute(rest)
            && Components(Join(base, rest)) == Components(path)
            && (rest == [] <==> |Components(base)| == |Components(path)|)
  {
    ComponentsOfAbsolute(path);
    ComponentsOfAbsolute(base);
    var n := |Body(base)|;
    assert Body(base) == Body(path)[..n];
    BodyOfRest(path, n);
    var rest := TrimRight(Consume(path, n));
    BodyOfJoin(base, rest);
    ComponentsOfAbsolute(Join(base, rest));
    assert Body(path) == Body(path)[..n] + Body(path)[n..];
  }
}
