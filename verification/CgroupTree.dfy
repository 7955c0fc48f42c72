/** The cgroup v2 tree: what a cgroup offers its children is what its parent enables, so `create` walks
    from the root to the leaf and enables the wanted controllers at every level on the way. */
module CgroupTree {
  import opened Wrappers
  import opened Paths

  datatype Controller = Memory | Pids | Cpu | Cpuset | Io | Unwanted(name: string)

  const WANTED: set<Controller> := {Memory, Pids, Cpu, Cpuset, Io}

  type Node = seq<string>

  /** The controllers of the root and the `cgroup.subtree_control` of every directory. */
  datatype Tree = Tree(root: set<Controller>, control: map<Node, set<Controller>>)

  /** `cgroup.controllers`: all of the root's, else what the parent enables. */
  function Offers(t: Tree, p: Node): set<Controller>
    requires p == [] || p[..|p| - 1] in t.control
  {
    if p == [] then t.root else t.control[p[..|p| - 1]]
  }

  /** The directory has its parent, and enables only what it is offered. */
  predicate Fits(t: Tree, p: Node) {
    && (p != [] ==> p[..|p| - 1] in t.control)
    && (p in t.control ==> t.control[p] <= Offers(t, p))
  }

  ghost predicate WellFormed(t: Tree) {
    [] in t.control && forall p {:trigger Fits(t, p)} | p in t.control :: Fits(t, p)
  }

  // ---- Names ----------------------------------------------------------------------------------------------

  function NormalNames(cs: seq<Component>): seq<string> {
    if cs == [] then []
    else (if cs[0].Normal? then [cs[0].name] else []) + NormalNames(cs[1..])
  }

  /** The cgroup of a container, below the mount point. */
  function RelativePath(cgroupsPath: Option<string>, id: string): Node {
    if cgroupsPath.Some? && cgroupsPath.value != "" then NormalNames(Components(cgroupsPath.value))
    else ["mars", id]
  }

  lemma {:induction false} NormalNamesEmpty(cs: seq<Component>)
    ensures NormalNames(cs) == [] <==> forall c | c in cs :: !c.Normal?
  {
    if cs != [] {
      NormalNamesEmpty(cs[1..]);
      assert cs == [cs[0]] + cs[1..];
      assert cs[0] in cs;
    }
  }

  /** A container gets the root cgroup exactly if its `cgroupsPath` is given but names no directory, such
      as "/" or "..". */
  lemma RootCgroupExactly(cgroupsPath: Option<string>, id: string)
    ensures RelativePath(cgroupsPath, id) == [] <==>
            cgroupsPath.Some? && cgroupsPath.value != "" && forall c | c in Components(cgroupsPath.value) :: !c.Normal?
  {
    if cgroupsPath.Some? {
      NormalNamesEmpty(Components(cgroupsPath.value));
    }
  }

  /** For example "/", and also "..", which is dropped rather than followed. */
  lemma SlashIsTheRootCgroup(id: string)
    ensures RelativePath(Some("/"), id) == [] && RelativePath(Some("/.."), id) == []
  {
    assert "/" == ['/'] + [] && "/.." == ['/'] + "..";
    BodyPastSeparator([]);
    BodyPastSeparator("..");
    ScanOfName("..", []);
    assert [] + ".." == "..";
    ComponentsOfAbsolute("/");
    ComponentsOfAbsolute("/..");
    RootCgroupExactly(Some("/"), id);
    RootCgroupExactly(Some("/.."), id);
  }

  lemma {:induction false} NormalNamesAre(names: seq<string>)
    ensures NormalNames(Normals(names)) == names
  {
    if names != [] {
      assert Normals(names)[1..] == Normals(names[1..]);
      NormalNamesAre(names[1..]);
    }
  }

  function Normals(names: seq<string>): seq<Component> {
    seq(|names|, i requires 0 <= i < |names| => Normal(names[i]))
  }

  /** An absolute path leads to the cgroup of its names, below the mount point and in order; without a path,
      or with an empty one, the cgroup is that of the id in the runtime's own directory. */
  lemma NamesLeadToTheirCgroup(names: seq<string>, id: string)
    requires forall n | n in names :: n != "" && n != "." && n != ".." && '/' !in n
    ensures RelativePath(Some(Render([RootDir] + Normals(names))), id) == names
    ensures RelativePath(None, id) == ["mars", id] && RelativePath(Some(""), id) == ["mars", id]
  {
    var cs := [RootDir] + Normals(names);
    forall c | c in cs[1..] ensures ProperName(c) {
      var i :| 0 <= i < |names| && c == Normal(names[i]);
      assert names[i] in names;
    }
    ComponentsOfRender(cs);
    assert cs[1..] == Normals(names);
    NormalNamesAre(names);
    assert NormalNames(cs) == NormalNames(cs[1..]);
  }

  /** ".." and "." lead nowhere: what is left of any path is its names. */
  lemma {:induction false} OnlyNamesCount(cs: seq<Component>, name: string)
    ensures name in NormalNames(cs) <==> Normal(name) in cs
    ensures |NormalNames(cs)| <= |cs|
  {
    if cs != [] {
      OnlyNamesCount(cs[1..], name);
      assert cs == [cs[0]] + cs[1..];
    }
  }

  // ---- Delegation -----------------------------------------------------------------------------------------

  /** What `delegate` leaves behind when the write is accepted. */
  function Delegated(t: Tree, p: Node): Tree
    requires p in t.control && (p == [] || p[..|p| - 1] in t.control)
  {
    t.(control := t.control[p := t.control[p] + WANTED * Offers(t, p)])
  }

  function WithDirectory(t: Tree, p: Node): Tree {
    if p in t.control then t else t.(control := t.control[p := {}])
  }

  /** Nothing that was enabled is disabled, and no directory goes away. */
  ghost predicate Extends(t: Tree, u: Tree) {
    && u.root == t.root
    && forall p | p in t.control :: p in u.control && t.control[p] <= u.control[p]
  }

  /** Nothing but wanted controllers was enabled, in old directories or new ones. */
  predicate AddsWanted(t: Tree, u: Tree, p: Node) {
    p in u.control ==> u.control[p] <= ControlOf(t, p) + WANTED
  }

  ghost predicate AddsOnlyWanted(t: Tree, u: Tree) {
    forall p {:trigger AddsWanted(t, u, p)} :: AddsWanted(t, u, p)
  }

  ghost predicate Prefixes(t: Tree, path: Node, k: nat) {
    k <= |path| && forall i | 0 <= i <= k :: path[..i] in t.control
  }

  /** `p` passes down every wanted controller of the root. */
  predicate PassesDown(t: Tree, p: Node) {
    p in t.control && WANTED * t.root <= t.control[p]
  }

  /** The first `k` directories above the leaf do. */
  ghost predicate PassedDown(t: Tree, path: Node, k: nat) {
    k <= |path| && forall i | 0 <= i < k :: PassesDown(t, path[..i])
  }

  /** Only the directories above level `k` of the path, and new ones up to it, differ. */
  ghost predicate TouchesOnly(t: Tree, u: Tree, path: Node, k: nat) {
    && k <= |path|
    && (forall p | p in t.control :: p in u.control && (u.control[p] == t.control[p] || (|p| < k && p == path[..|p|])))
    && (forall p | p in u.control && p !in t.control :: |p| <= k && p == path[..|p|])
  }

  /** `u` is `t` with more directories and more enabled controllers on the way to the leaf, at most. */
  ghost predicate Grown(t: Tree, u: Tree, path: Node) {
    WellFormed(u) && Extends(t, u) && AddsOnlyWanted(t, u) && TouchesOnly(t, u, path, |path|)
  }

  function ControlOf(t: Tree, p: Node): set<Controller> {
    if p in t.control then t.control[p] else {}
  }

  /** The walk has reached level `k`. */
  ghost predicate OnTheWay(t: Tree, u: Tree, path: Node, k: nat) {
    && WellFormed(u) && Extends(t, u) && AddsOnlyWanted(t, u)
    && Prefixes(u, path, k) && PassedDown(u, path, k) && TouchesOnly(t, u, path, k)
    && ControlOf(u, path[..k]) == ControlOf(t, path[..k])
  }

  lemma ParentOfPrefix(path: Node, i: nat)
    requires 0 < i <= |path|
    ensures path[..i][..|path[..i]| - 1] == path[..i - 1]
  {
  }

  lemma DelegatedAddsWanted(t: Tree, u: Tree, p: Node)
    requires AddsOnlyWanted(t, u) && p in u.control && Fits(u, p)
    ensures AddsOnlyWanted(t, Delegated(u, p))
  {
    forall q ensures AddsWanted(t, Delegated(u, p), q) {
      assert AddsWanted(t, u, q);
    }
  }

  lemma DirectoryAddsNothing(t: Tree, u: Tree, p: Node)
    requires AddsOnlyWanted(t, u)
    ensures AddsOnlyWanted(t, WithDirectory(u, p))
  {
    forall q ensures AddsWanted(t, WithDirectory(u, p), q) {
      assert AddsWanted(t, u, q);
    }
  }

  lemma DelegatedIsWellFormed(t: Tree, p: Node)
    requires WellFormed(t) && p in t.control && Fits(t, p)
    ensures WellFormed(Delegated(t, p)) && Extends(t, Delegated(t, p))
  {
    forall q | q in Delegated(t, p).control ensures Fits(Delegated(t, p), q) {
      assert Fits(t, q);
    }
  }

  lemma NothingToDelegate(t: Tree, p: Node)
    requires p in t.control && Fits(t, p) && WANTED * Offers(t, p) <= t.control[p]
    ensures Delegated(t, p) == t
  {
    assert t.control[p] + WANTED * Offers(t, p) == t.control[p];
    assert t.control[p := t.control[p]] == t.control;
  }

  lemma WithDirectoryIsWellFormed(t: Tree, p: Node)
    requires WellFormed(t) && p != [] && p[..|p| - 1] in t.control
    ensures WellFormed(WithDirectory(t, p)) && Extends(t, WithDirectory(t, p))
  {
    forall q | q in WithDirectory(t, p).control ensures Fits(WithDirectory(t, p), q) {
      if q in t.control { assert Fits(t, q); }
    }
  }

  lemma GrownOnTheWay(t: Tree, u: Tree, path: Node, k: nat)
    requires OnTheWay(t, u, path, k)
    ensures Grown(t, u, path)
  {
  }

  /** A directory whose parent passes down all of the root's wanted controllers is offered them, and
      passes them down itself once it is delegated. */
  lemma DelegatedPassesDown(t: Tree, path: Node, k: nat)
    requires WellFormed(t) && k < |path| && Prefixes(t, path, k) && PassedDown(t, path, k)
    ensures path[..k] in t.control && Fits(t, path[..k]) && PassesDown(Delegated(t, path[..k]), path[..k])
  {
    assert path[..k] in t.control;
    if k > 0 {
      ParentOfPrefix(path, k);
      assert PassesDown(t, path[..k - 1]);
    }
    assert WANTED * t.root <= Offers(t, path[..k]);
  }

  lemma DelegatedOnTheWay(t: Tree, u: Tree, path: Node, k: nat)
    requires OnTheWay(t, u, path, k) && k < |path|
    ensures path[..k] in u.control && Fits(u, path[..k])
    ensures var v := Delegated(u, path[..k]);
            && WellFormed(v) && Extends(t, v) && AddsOnlyWanted(t, v)
            && Prefixes(v, path, k) && PassedDown(v, path, k + 1)
            && TouchesOnly(t, v, path, k + 1) && ControlOf(v, path[..k + 1]) == ControlOf(t, path[..k + 1])
            && Grown(t, v, path)
  {
    DelegatedPassesDown(u, path, k);
    DelegatedIsWellFormed(u, path[..k]);
    DelegatedAddsWanted(t, u, path[..k]);
    var v := Delegated(u, path[..k]);
    forall i | 0 <= i < k + 1 ensures PassesDown(v, path[..i]) {
      if i < k { assert PassesDown(u, path[..i]); }
    }
    forall i | 0 <= i <= k ensures path[..i] in v.control { assert path[..i] in u.control; }
    TouchesOneMore(t, u, path, k);
    assert ControlOf(u, path[..k + 1]) == ControlOf(t, path[..k + 1]);
  }

  lemma TouchesOneMore(t: Tree, u: Tree, path: Node, k: nat)
    requires k < |path| && TouchesOnly(t, u, path, k) && path[..k] in u.control && Fits(u, path[..k])
    ensures TouchesOnly(t, Delegated(u, path[..k]), path, k + 1)
    ensures TouchesOnly(t, Delegated(u, path[..k]), path, |path|)
  {
  }

  lemma TouchesOneMoreDirectory(t: Tree, u: Tree, path: Node, k: nat)
    requires k < |path| && TouchesOnly(t, u, path, k + 1)
    ensures TouchesOnly(t, WithDirectory(u, path[..k + 1]), path, k + 1)
  {
  }

  /** One turn of the loop. */
  lemma StepOnTheWay(t: Tree, u: Tree, path: Node, k: nat)
    requires OnTheWay(t, u, path, k) && k < |path|
    ensures path[..k] in u.control && Fits(u, path[..k])
    ensures OnTheWay(t, WithDirectory(Delegated(u, path[..k]), path[..k + 1]), path, k + 1)
  {
    DelegatedOnTheWay(t, u, path, k);
    var v := Delegated(u, path[..k]);
    ParentOfPrefix(path, k + 1);
    assert path[..k] in v.control;
    WithDirectoryIsWellFormed(v, path[..k + 1]);
    DirectoryAddsNothing(t, v, path[..k + 1]);
    TouchesOneMoreDirectory(t, v, path, k);
    var w := WithDirectory(v, path[..k + 1]);
    forall i | 0 <= i < k + 1 ensures PassesDown(w, path[..i]) { assert PassesDown(v, path[..i]); }
    forall i | 0 <= i <= k + 1 ensures path[..i] in w.control {
      if i <= k { assert path[..i] in v.control; }
    }
  }

  lemma OneTurn(t: Tree, u: Tree, path: Node, k: nat, current: Node, next: Node)
    requires OnTheWay(t, u, path, k) && k < |path| && current == path[..k] && next == path[..k + 1]
    ensures current in u.control && Fits(u, current)
    ensures Grown(t, u, path) && Grown(t, Delegated(u, current), path)
    ensures OnTheWay(t, WithDirectory(Delegated(u, current), next), path, k + 1)
  {
    GrownOnTheWay(t, u, path, k);
    DelegatedOnTheWay(t, u, path, k);
    StepOnTheWay(t, u, path, k);
  }

  /** What the end of the walk means for the leaf. */
  lemma ArrivedAtTheLeaf(t: Tree, u: Tree, path: Node)
    requires OnTheWay(t, u, path, |path|)
    ensures Grown(t, u, path) && path in u.control && u.control[path] == ControlOf(t, path)
    ensures path != [] ==> path[..|path| - 1] in u.control && WANTED * u.root <= Offers(u, path)
  {
    assert path[..|path|] in u.control && path[..|path|] == path;
    if path != [] {
      assert PassesDown(u, path[..|path| - 1]);
    }
  }

  // ---- The walk -------------------------------------------------------------------------------------------

  datatype CgroupError = NoCgroupV2 | ReadRefused(node: Node) | WriteRefused(node: Node) | MkdirRefused(node: Node)

  /** What the kernel refuses: to read `cgroup.controllers` or `cgroup.subtree_control`, to write the latter,
      and new directories. */
  datatype Refusals = Refusals(offers: set<Node>, enabled: set<Node>, writes: set<Node>, mkdirs: set<Node>)

  const NO_REFUSALS := Refusals({}, {}, {}, {})

  /** What `delegate` takes to be enabled: nothing, if it cannot be read. */
  function Known(t: Tree, p: Node, refusals: Refusals): set<Controller> {
    if p in refusals.enabled then {} else ControlOf(t, p)
  }

  class Hierarchy {
    var tree: Tree

    constructor (tree: Tree)
      ensures this.tree == tree
    {
      this.tree := tree;
    }

    /** Adds the wanted controllers that are available and not known to be enabled. */
    method Delegate(p: Node, refusals: Refusals) returns (result: Result<(), CgroupError>)
      requires p in tree.control && Fits(tree, p)
      modifies this
      ensures result.Ok? ==> tree == Delegated(old(tree), p)
      ensures result.Err? ==> tree == old(tree)
      ensures result.Err? <==>
              || p in refusals.offers
              || (p in refusals.writes && !(WANTED * Offers(old(tree), p) <= Known(old(tree), p, refusals)))
      ensures result == Err(ReadRefused(p)) <==> p in refusals.offers
    {
      if p in refusals.offers {
        return Err(ReadRefused(p));
      }
      var known := if p in refusals.enabled then {} else tree.control[p];
      var missing := WANTED * Offers(tree, p) - known;
      if missing == {} {
        assert forall c | c in WANTED * Offers(tree, p) :: c in known || c in missing;
        NothingToDelegate(tree, p);
        return Ok(());
      }
      if p in refusals.writes {
        return Err(WriteRefused(p));
      }
      assert tree.control[p] + missing == tree.control[p] + WANTED * Offers(tree, p);
      tree := tree.(control := tree.control[p := tree.control[p] + missing]);
      result := Ok(());
    }

    /** One level down: delegates `current` and makes sure that `next` exists. */
    method Descend(current: Node, next: Node, refusals: Refusals) returns (result: Result<(), CgroupError>)
      requires current in tree.control && Fits(tree, current)
      modifies this
      ensures result.Ok? ==> tree == WithDirectory(Delegated(old(tree), current), next)
      ensures result.Err? ==> tree == old(tree) || tree == Delegated(old(tree), current)
      ensures result.Err? ==> current in refusals.offers || current in refusals.writes || next in refusals.mkdirs
    {
      result := Delegate(current, refusals);
      if result.Err? {
        return;
      }
      if next !in tree.control {
        if next in refusals.mkdirs {
          return Err(MkdirRefused(next));
        }
        tree := tree.(control := tree.control[next := {}]);
      }
    }

    /** The loop over the components; only names lead down. */
    method Walk(relative: seq<Component>, refusals: Refusals) returns (result: Result<Node, CgroupError>)
      requires WellFormed(tree)
      modifies this
      ensures result.Err? ==> Grown(old(tree), tree, NormalNames(relative)) && refusals != NO_REFUSALS
      ensures result.Ok? ==> result.value == NormalNames(relative)
      ensures result.Ok? ==> OnTheWay(old(tree), tree, result.value, |result.value|)
    {
      ghost var path, t := NormalNames(relative), tree;
      StartOfTheWay(tree, path);
      var current: Node := [];
      var i := 0;
      assert path[0..] == path && relative[0..] == relative && path[..0] == [];
      while i < |relative|
        invariant i <= |relative| && |current| <= |path| && current == path[..|current|]
        invariant path[|current|..] == NormalNames(relative[i..])
        invariant OnTheWay(t, tree, path, |current|)
      {
        NextName(relative, i);
        if relative[i].Normal? {
          ghost var k := |current|;
          var next := current + [relative[i].name];
          NextPrefix(path, k, relative[i].name, NormalNames(relative[i + 1..]));
          OneTurn(t, tree, path, k, current, next);
          var descended := Descend(current, next, refusals);
          if descended.Err? {
            return Err(descended.error);
          }
          current := next;
        }
        i := i + 1;
      }
      result := Ok(current);
    }

    /** Walks to the leaf. On success the leaf offers every wanted controller that the root offers; and
        success or not, nothing is disabled anywhere and the leaf itself enables nothing new. */
    method Create(unified: bool, relative: seq<Component>, refusals: Refusals)
      returns (result: Result<Node, CgroupError>)
      requires WellFormed(tree)
      modifies this
      ensures Grown(old(tree), tree, NormalNames(relative))
      ensures !unified ==> result == Err(NoCgroupV2) && tree == old(tree)
      ensures result.Ok? ==>
              && result.value == NormalNames(relative) && result.value in tree.control
              && tree.control[result.value] == ControlOf(old(tree), result.value)
      ensures result.Ok? && result.value != [] ==>
              && result.value[..|result.value| - 1] in tree.control
              && {Memory, Pids, Cpu, Cpuset, Io} * tree.root <= Offers(tree, result.value)
      ensures forall p | p in tree.control ::
                tree.control[p] <= ControlOf(old(tree), p) + {Memory, Pids, Cpu, Cpuset, Io}
      ensures unified && refusals == NO_REFUSALS ==> result.Ok?
    {
      ghost var t := tree;
      StartOfTheWay(t, NormalNames(relative));
      if !unified {
        return Err(NoCgroupV2);
      }
      result := Walk(relative, refusals);
      if result.Ok? {
        ArrivedAtTheLeaf(t, tree, result.value);
      }
      forall p | p in tree.control
        ensures tree.control[p] <= ControlOf(t, p) + {Memory, Pids, Cpu, Cpuset, Io}
      {
        assert AddsWanted(t, tree, p);
      }
    }
  }

  lemma NextName(relative: seq<Component>, i: nat)
    requires i < |relative|
    ensures NormalNames(relative[i..])
            == (if relative[i].Normal? then [relative[i].name] else []) + NormalNames(relative[i + 1..])
  {
    assert relative[i..][0] == relative[i] && relative[i..][1..] == relative[i + 1..];
  }

  lemma NextPrefix(path: Node, k: nat, name: string, rest: Node)
    requires k <= |path| && path[k..] == [name] + rest
    ensures k < |path| && path[..k + 1] == path[..k] + [name] && path[k + 1..] == rest
  {
    assert path == path[..k] + path[k..];
  }

  lemma StartOfTheWay(t: Tree, path: Node)
    requires WellFormed(t)
    ensures OnTheWay(t, t, path, 0) && Grown(t, t, path)
  {
    assert path[..0] == [];
  }
}
