/** The security phase of the container init: the order in which it drops the bounding set, changes
    user, sets the other capability sets, and loads the seccomp filter. */
module Capabilities {
  import opened Wrappers
  import opened Credentials

  /** `process.capabilities`. */
  datatype CapSpec = CapSpec(bnd: set<Cap>, perm: set<Cap>, eff: set<Cap>, inh: set<Cap>, amb: set<Cap>)

  datatype ProcessSpec = ProcessSpec(uid: nat, gid: nat, groups: seq<nat>, noNewPrivileges: bool, caps: Option<CapSpec>)

  datatype Plan = Plan(process: Option<ProcessSpec>, seccomp: bool)

  /** The sets that `Apply` must establish. */
  predicate Matches(c: Creds, spec: CapSpec) {
    c.eff == spec.eff && c.perm == spec.perm && c.inh == spec.inh && c.amb == spec.amb
  }

  // ---- Which specifications pass --------------------------------------------------------------------------

  /** The sets a process with credentials `c` can reach at all. */
  predicate Reachable(c: Creds, spec: CapSpec) {
    && spec.perm <= c.perm && spec.eff <= spec.perm
    && spec.inh <= c.inh + c.bnd
    && (SETPCAP in c.perm || spec.inh <= c.inh + c.perm)
    && spec.amb <= spec.perm * spec.inh
  }

  /** Inheritable comes after permitted and effective: without CAP_SETPCAP among the new effective set it
      must be covered by the old inheritable and the new permitted set. */
  predicate OrderAllows(c: Creds, spec: CapSpec) {
    SETPCAP in spec.eff || spec.inh <= c.inh + spec.perm
  }

  predicate IsCapCall(call: Call) {
    call.SetEffective? || call.SetPermitted? || call.SetInheritable? || call.ClearAmbient? || call.RaiseAmbient?
  }

  /** No order of calls reaches more than `Reachable` says. */
  lemma {:induction false} CallsStayReachable(c: Creds, d: Creds, calls: seq<Call>)
    requires Sound(d) && d.perm <= c.perm && d.bnd == c.bnd && d.inh <= c.inh + c.bnd
    requires SETPCAP in c.perm || d.inh <= c.inh + c.perm
    requires (forall call | call in calls :: IsCapCall(call)) && Exec(d, calls).Some?
    ensures var e := Exec(d, calls).value; Reachable(c, CapSpec(e.bnd, e.perm, e.eff, e.inh, e.amb))
    decreases |calls|
  {
    if calls != [] {
      assert IsCapCall(calls[0]);
      SysKeepsSound(d, calls[0]);
      CallsStayReachable(c, Sys(d, calls[0]).value, calls[1..]);
    }
  }

  lemma ListOf(caps: set<Cap>) returns (list: seq<Cap>)
    ensures forall cap :: cap in list <==> cap in caps
  {
    if caps == {} {
      list := [];
    } else {
      var cap :| cap in caps;
      var rest := ListOf(caps - {cap});
      list := [cap] + rest;
    }
  }

  function Raises(list: seq<Cap>): seq<Call> {
    if list == [] then [] else [RaiseAmbient(list[0])] + Raises(list[1..])
  }

  lemma {:induction false} RaisesSucceed(c: Creds, list: seq<Cap>)
    requires forall cap | cap in list :: cap in c.perm && cap in c.inh
    ensures Exec(c, Raises(list)) == Some(c.(amb := c.amb + (set cap | cap in list)))
    ensures forall call | call in Raises(list) :: IsCapCall(call)
    decreases |list|
  {
    if list == [] {
      assert c.amb + (set cap | cap in list) == c.amb;
    } else {
      var after := c.(amb := c.amb + {list[0]});
      RaisesSucceed(after, list[1..]);
      assert Raises(list)[1..] == Raises(list[1..]);
      assert after.amb + (set cap | cap in list[1..]) == c.amb + (set cap | cap in list);
    }
  }

  lemma ExecStep(c: Creds, call: Call, rest: seq<Call>)
    requires Sys(c, call).Some?
    ensures Exec(c, [call] + rest) == Exec(Sys(c, call).value, rest)
  {
    assert ([call] + rest)[1..] == rest;
  }

  lemma ExecFour(c: Creds, k1: Call, c1: Creds, k2: Call, c2: Creds, k3: Call, c3: Creds, k4: Call, c4: Creds,
                 rest: seq<Call>)
    requires Sys(c, k1) == Some(c1) && Sys(c1, k2) == Some(c2) && Sys(c2, k3) == Some(c3) && Sys(c3, k4) == Some(c4)
    ensures Exec(c, [k1] + ([k2] + ([k3] + ([k4] + rest)))) == Exec(c4, rest)
  {
    ExecStep(c, k1, [k2] + ([k3] + ([k4] + rest)));
    ExecStep(c1, k2, [k3] + ([k4] + rest));
    ExecStep(c2, k3, [k4] + rest);
    ExecStep(c3, k4, rest);
  }

  lemma RaisedThenInherited(c: Creds, spec: CapSpec)
    requires Sound(c) && Reachable(c, spec)
    ensures Sys(c, SetEffective(c.perm)) == Some(c.(eff := c.perm))
    ensures Sys(c.(eff := c.perm), SetInheritable(spec.inh))
            == Some(c.(eff := c.perm, inh := spec.inh, amb := c.amb * spec.inh))
  {
    assert c.amb * c.perm * c.inh == c.amb;
    assert c.amb * c.perm * spec.inh == c.amb * spec.inh;
  }

  lemma LoweredThenPermitted(d: Creds, spec: CapSpec)
    requires Sound(d) && d.inh == spec.inh && spec.eff <= spec.perm <= d.perm
    ensures Sys(d, SetEffective(spec.eff)) == Some(d.(eff := spec.eff))
    ensures Sys(d.(eff := spec.eff), SetPermitted(spec.perm))
            == Some(d.(eff := spec.eff, perm := spec.perm, amb := d.amb * spec.perm))
  {
    assert d.amb * d.perm * d.inh == d.amb;
    assert d.amb * spec.perm * d.inh == d.amb * spec.perm;
  }

  /** Five calls in the right order bring a process to every reachable set but ambient. */
  lemma FiveCalls(c: Creds, spec: CapSpec)
    requires Sound(c) && Reachable(c, spec)
    ensures Exec(c, [SetEffective(c.perm), SetInheritable(spec.inh), SetEffective(spec.eff),
                     SetPermitted(spec.perm), ClearAmbient])
            == Some(c.(eff := spec.eff, perm := spec.perm, inh := spec.inh, amb := {}))
  {
    var c1 := c.(eff := c.perm);
    var c2 := c.(eff := c.perm, inh := spec.inh, amb := c.amb * spec.inh);
    var c3 := c2.(eff := spec.eff);
    var c4 := c2.(eff := spec.eff, perm := spec.perm, amb := c2.amb * spec.perm);
    RaisedThenInherited(c, spec);
    LoweredThenPermitted(c2, spec);
    ExecFour(c, SetEffective(c.perm), c1, SetInheritable(spec.inh), c2, SetEffective(spec.eff), c3,
             SetPermitted(spec.perm), c4, [ClearAmbient]);
    ExecStep(c4, ClearAmbient, []);
    assert [SetEffective(c.perm)] + ([SetInheritable(spec.inh)] + ([SetEffective(spec.eff)] + ([SetPermitted(spec.perm)]
           + [ClearAmbient])))
           == [SetEffective(c.perm), SetInheritable(spec.inh), SetEffective(spec.eff), SetPermitted(spec.perm),
               ClearAmbient];
  }

  /** Every specification that `Reachable` admits is reached by some order of calls. */
  lemma ReachableIsReached(c: Creds, spec: CapSpec) returns (calls: seq<Call>)
    requires Sound(c) && Reachable(c, spec)
    ensures forall call | call in calls :: IsCapCall(call)
    ensures Exec(c, calls).Some? && Matches(Exec(c, calls).value, spec)
  {
    var list := ListOf(spec.amb);
    var first := [SetEffective(c.perm), SetInheritable(spec.inh), SetEffective(spec.eff),
                  SetPermitted(spec.perm), ClearAmbient];
    FiveCalls(c, spec);
    var at := c.(eff := spec.eff, perm := spec.perm, inh := spec.inh, amb := {});
    RaisesSucceed(at, list);
    ExecOfConcat(c, first, Raises(list));
    calls := first + Raises(list);
    assert (set cap | cap in list) == spec.amb;
    assert {} + spec.amb == spec.amb;
  }

  /** `apply` accepts exactly the reachable specifications whose inheritable set its order allows. */
  predicate ApplyAccepts(c: Creds, spec: CapSpec) {
    Reachable(c, spec) && OrderAllows(c, spec)
  }

  /** A specification that another order of the same calls establishes, but that `apply` refuses: a
      capability that is inheritable and bounding but not permitted. */
  lemma ReachableYetRefused(c: Creds, cap: Cap) returns (spec: CapSpec, calls: seq<Call>)
    requires Sound(c) && SETPCAP in c.perm && cap in c.bnd && cap !in c.inh
    ensures spec == CapSpec(c.bnd, {}, {}, {cap}, {})
    ensures (forall call | call in calls :: IsCapCall(call)) && Exec(c, calls).Some?
    ensures Matches(Exec(c, calls).value, spec) && !ApplyAccepts(c, spec)
  {
    spec := CapSpec(c.bnd, {}, {}, {cap}, {});
    calls := ReachableIsReached(c, spec);
    assert cap in spec.inh;
  }

  // ---- The runtime --------------------------------------------------------------------------------------

  datatype Refusal =
    | BoundingRefused | EffectiveNotPermitted | SetRefused | AmbientNotCovered | IdsRefused | FilterRefused

  /** Drops from the bounding set what the specification does not list, in any order. */
  method DropBounding(thread: Thread, spec: CapSpec) returns (result: Result<(), Refusal>)
    requires thread.Valid()
    modifies thread
    ensures thread.Valid()
    ensures result.Ok? <==> old(thread.creds).bnd <= spec.bnd || SETPCAP in old(thread.creds).eff
    ensures result.Ok? ==> thread.creds == old(thread.creds).(bnd := old(thread.creds).bnd * spec.bnd)
    ensures result.Err? ==> thread.creds == old(thread.creds)
  {
    ghost var was := thread.creds;
    var extra := thread.creds.bnd - spec.bnd;
    while extra != {}
      invariant thread.Valid()
      invariant thread.creds == was.(bnd := was.bnd * spec.bnd + extra)
      invariant extra <= was.bnd - spec.bnd
      invariant SETPCAP in was.eff || extra == was.bnd - spec.bnd
      decreases extra
    {
      var cap :| cap in extra;
      var ok := thread.Do(CapBsetDrop(cap));
      if !ok {
        return Err(BoundingRefused);
      }
      extra := extra - {cap};
    }
    result := Ok(());
  }

  /** Credentials after the user change, when it is not refused. */
  function Dropped(c: Creds, process: ProcessSpec): Option<Creds> {
    var leaving := c.euid == 0 && process.uid != 0;
    var kept := c.(groups := process.groups, keep := if leaving then true else c.keep, gid := process.gid);
    if SETGID !in c.eff || Sys(kept, SetUid(process.uid)).None? then None
    else
      var after := Sys(kept, SetUid(process.uid)).value;
      Some(if leaving then after.(keep := false) else after)
  }

  /** Groups first, the user last; keepcaps is on only across the change of user. */
  method DropPrivileges(thread: Thread, process: ProcessSpec) returns (result: Result<(), Refusal>)
    requires thread.Valid()
    modifies thread
    ensures thread.Valid()
    ensures result.Ok? <==> Dropped(old(thread.creds), process).Some?
    ensures result.Ok? ==> thread.creds == Dropped(old(thread.creds), process).value
  {
    var leaving := thread.creds.euid == 0 && process.uid != 0;
    var ok := thread.Do(SetGroups(process.groups));
    if !ok {
      return Err(IdsRefused);
    }
    if leaving {
      ok := thread.Do(KeepCaps(true));
    }
    if ok {
      ok := thread.Do(SetGid(process.gid));
    }
    if ok {
      ok := thread.Do(SetUid(process.uid));
    }
    if ok && leaving {
      ok := thread.Do(KeepCaps(false));
    }
    result := if ok then Ok(()) else Err(IdsRefused);
  }

  /** The change of user keeps the permitted and inheritable sets whatever users it is between, if it
      starts from root; effective and ambient are emptied on leaving root, and keepcaps is off again then. */
  lemma DroppedKeepsPermitted(c: Creds, process: ProcessSpec)
    requires c.euid == 0 && Dropped(c, process).Some?
    ensures var d := Dropped(c, process).value;
            && d.perm == c.perm && d.inh == c.inh && d.bnd == c.bnd
            && d.eff == (if process.uid == 0 then c.eff else {})
            && d.euid == process.uid && d.gid == process.gid && d.groups == process.groups
            && d.keep == (process.uid == 0 && c.keep)
            && (SETUID in c.eff ==> d.ruid == d.suid == process.uid && d.amb == if process.uid == 0 then c.amb else {})
            && (SETUID !in c.eff ==> process.uid == c.ruid || process.uid == c.suid)
  {
  }

  /** A change of user that does not start from root keeps the permitted set unless it leaves the last root id
      without keepcaps, and makes it effective if it regains root. */
  lemma DroppedFromUser(c: Creds, process: ProcessSpec)
    requires c.euid != 0 && Dropped(c, process).Some?
    ensures var d := Dropped(c, process).value;
            && d.perm == (if AnyRoot(c) && !AnyRoot(d) && !c.keep then {} else c.perm)
            && (process.uid == 0 ==> d.eff == d.perm == c.perm)
            && d.inh == c.inh && d.bnd == c.bnd && d.keep == c.keep && d.euid == process.uid
  {
  }

  /** Effective, permitted and inheritable in this order, then ambient from nothing, in any order. */
  method Apply(thread: Thread, spec: CapSpec) returns (result: Result<(), Refusal>)
    requires thread.Valid()
    modifies thread
    ensures thread.Valid()
    ensures result.Ok? <==> ApplyAccepts(old(thread.creds), spec)
    ensures result.Ok? ==> Matches(thread.creds, spec)
    ensures result.Ok? ==>
            thread.creds
            == old(thread.creds).(eff := spec.eff, perm := spec.perm, inh := spec.inh, amb := spec.amb)
    ensures !(spec.eff <= spec.perm) ==> result == Err(EffectiveNotPermitted) && thread.creds == old(thread.creds)
  {
    ghost var was := thread.creds;
    if !(spec.eff <= spec.perm) {
      return Err(EffectiveNotPermitted);
    }
    var ok := thread.Do(SetEffective(spec.eff));
    if ok {
      ok := thread.Do(SetPermitted(spec.perm));
    }
    if ok {
      ok := thread.Do(SetInheritable(spec.inh));
    }
    if !ok {
      return Err(SetRefused);
    }
    ok := thread.Do(ClearAmbient);
    var left := spec.amb;
    while left != {}
      invariant thread.Valid()
      invariant left <= spec.amb
      invariant spec.amb - left <= spec.perm * spec.inh
      invariant thread.creds == was.(eff := spec.eff, perm := spec.perm, inh := spec.inh, amb := spec.amb - left)
      decreases left
    {
      var cap :| cap in left;
      if cap !in spec.perm || cap !in spec.inh {
        return Err(AmbientNotCovered);
      }
      ok := thread.Do(RaiseAmbient(cap));
      left := left - {cap};
    }
    result := Ok(());
  }

  // ---- The whole phase -----------------------------------------------------------------------------------

  predicate WantsNoNewPrivs(plan: Plan) {
    plan.process.Some? && plan.process.value.noNewPrivileges
  }

  function Bounded(c: Creds, caps: Option<CapSpec>): Creds {
    if caps.Some? then c.(bnd := c.bnd * caps.value.bnd) else c
  }

  predicate BoundingAccepts(c: Creds, caps: Option<CapSpec>) {
    caps.Some? ==> c.bnd <= caps.value.bnd || SETPCAP in c.eff
  }

  function Applied(c: Creds, caps: Option<CapSpec>): Option<Creds> {
    if caps.None? then Some(c)
    else if !ApplyAccepts(c, caps.value) then None
    else Some(c.(eff := caps.value.eff, perm := caps.value.perm, inh := caps.value.inh, amb := caps.value.amb))
  }

  function Switched(c: Creds, noNewPrivs: bool): Creds {
    if noNewPrivs then c.(noNewPrivs := true) else c
  }

  /** The credentials the program will have, if nothing is refused. */
  function ProcessResult(c: Creds, process: ProcessSpec): Option<Creds> {
    if !BoundingAccepts(c, process.caps) then None
    else
      match Dropped(Bounded(c, process.caps), process)
      case None => None
      case Some(dropped) =>
        match Applied(dropped, process.caps)
        case None => None
        case Some(applied) => Some(Switched(applied, process.noNewPrivileges))
  }

  /** Without no_new_privs the filter needs CAP_SYS_ADMIN, which only the undiminished process has. */
  predicate FilterAccepts(c: Creds, plan: Plan) {
    plan.seccomp && !WantsNoNewPrivs(plan) ==> c.noNewPrivs || SYS_ADMIN in c.eff
  }

  /** The plans that go through. */
  predicate PhaseAccepts(c: Creds, plan: Plan) {
    FilterAccepts(c, plan) && (plan.process.Some? ==> ProcessResult(c, plan.process.value).Some?)
  }

  lemma DroppedChangesOnlyIds(c: Creds, process: ProcessSpec)
    requires Dropped(c, process).Some?
    ensures var d := Dropped(c, process).value;
            && d.bnd == c.bnd && d.noNewPrivs == c.noNewPrivs && d.filtered == c.filtered
            && d.groups == process.groups && d.gid == process.gid && d.euid == process.uid
            && (SETUID in c.eff ==> d.ruid == d.suid == process.uid)
            && (c.euid == 0 && process.uid != 0 ==> !d.keep)
  {
  }

  /** A phase that goes through ends with the ids and the five sets of the plan. */
  lemma ProcessResultMatches(c: Creds, process: ProcessSpec)
    requires ProcessResult(c, process).Some?
    ensures var d := ProcessResult(c, process).value;
            && d.groups == process.groups && d.gid == process.gid && d.euid == process.uid
            && d.noNewPrivs == (c.noNewPrivs || process.noNewPrivileges)
            && (process.caps.Some? ==> Matches(d, process.caps.value) && d.bnd == c.bnd * process.caps.value.bnd)
            && (SETUID in c.eff ==> d.ruid == d.suid == process.uid)
            && (c.euid == 0 && process.uid != 0 ==> !d.keep)
  {
    DroppedChangesOnlyIds(Bounded(c, process.caps), process);
  }

  method SecurityPhase(thread: Thread, plan: Plan) returns (result: Result<(), Refusal>)
    requires thread.Valid()
    modifies thread
    ensures thread.Valid()
    ensures result.Ok? <==> PhaseAccepts(old(thread.creds), plan)
    ensures result.Ok? ==>
            thread.creds == var c := old(thread.creds).(filtered := old(thread.creds).filtered || plan.seccomp);
                          if plan.process.None? then c
                          else ProcessResult(old(thread.creds), plan.process.value).value.(filtered := c.filtered)
  {
    ghost var was := thread.creds;
    var noNewPrivs := WantsNoNewPrivs(plan);
    if !noNewPrivs && plan.seccomp {
      var ok := thread.Do(LoadFilter);
      if !ok {
        return Err(FilterRefused);
      }
    }
    if plan.process.Some? {
      FilterDoesNotMatter(was, plan.process.value, thread.creds.filtered);
      result := ApplyProcess(thread, plan.process.value);
      if result.Err? {
        return;
      }
      ProcessResultMatches(was, plan.process.value);
    }
    if noNewPrivs && plan.seccomp {
      var ok := thread.Do(LoadFilter);
    }
    result := Ok(());
  }

  lemma FilterDoesNotMatter(c: Creds, process: ProcessSpec, filtered: bool)
    ensures ProcessResult(c.(filtered := filtered), process)
            == match ProcessResult(c, process) case None => None case Some(d) => Some(d.(filtered := filtered))
    ensures ProcessResult(c, process).Some? ==> ProcessResult(c, process).value.filtered == c.filtered
  {
    var f := c.(filtered := filtered);
    DroppedIgnoresFilter(Bounded(c, process.caps), process, filtered);
    assert Bounded(f, process.caps) == Bounded(c, process.caps).(filtered := filtered);
  }

  lemma DroppedIgnoresFilter(c: Creds, process: ProcessSpec, filtered: bool)
    ensures Dropped(c.(filtered := filtered), process)
            == match Dropped(c, process) case None => None case Some(d) => Some(d.(filtered := filtered))
    ensures Dropped(c, process).Some? ==> Dropped(c, process).value.filtered == c.filtered
  {
  }

  method ApplyProcess(thread: Thread, process: ProcessSpec) returns (result: Result<(), Refusal>)
    requires thread.Valid()
    modifies thread
    ensures thread.Valid()
    ensures result.Ok? <==> ProcessResult(old(thread.creds), process).Some?
    ensures result.Ok? ==> thread.creds == ProcessResult(old(thread.creds), process).value
  {
    if process.caps.Some? {
      result := DropBounding(thread, process.caps.value);
      if result.Err? {
        return;
      }
    }
    assert thread.creds == Bounded(old(thread.creds), process.caps);
    result := DropPrivileges(thread, process);
    if result.Err? {
      return;
    }
    ghost var dropped := thread.creds;
    if process.caps.Some? {
      result := Apply(thread, process.caps.value);
      if result.Err? {
        return;
      }
    }
    assert Applied(dropped, process.caps) == Some(thread.creds);
    if process.noNewPrivileges {
      var ok := thread.Do(NoNewPrivs);
    }
    result := Ok(());
  }

  // ---- Starting as root -----------------------------------------------------------------------------------

  /** Root as the runtime starts it: all ids zero, every capability of its bounding set in hand. */
  predicate FullRoot(c: Creds) {
    && c.ruid == c.euid == c.suid == 0 && c.eff == c.perm == c.bnd
    && {SETPCAP, SETGID, SETUID, SYS_ADMIN} <= c.eff
  }

  /** From full root, a plan passes exactly if its sets fit each other and root's own, with inheritable
      covered by what is permitted unless CAP_SETPCAP stays effective; the user and the filter do not
      matter. */
  lemma FullRootAcceptsExactly(c: Creds, plan: Plan)
    requires FullRoot(c)
    ensures PhaseAccepts(c, plan) <==>
            (plan.process.Some? && plan.process.value.caps.Some? ==>
             var spec := plan.process.value.caps.value;
             && spec.perm <= c.perm && spec.eff <= spec.perm && spec.amb <= spec.perm * spec.inh
             && spec.inh <= c.inh + c.bnd * spec.bnd
             && (SETPCAP in spec.eff || spec.inh <= c.inh + spec.perm))
  {
    if plan.process.Some? {
      var process := plan.process.value;
      var b := Bounded(c, process.caps);
      assert SETUID in c.eff && SETGID in c.eff && SETPCAP in c.eff && SYS_ADMIN in c.eff;
      DroppedKeepsPermitted(b, process);
    }
  }
}
