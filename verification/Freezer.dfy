/** `kill --all`: the cgroup is frozen so that nobody can fork away from the listing, every listed
    process is signalled, and the freezer is put back. Outside, members fork while they are not frozen,
    and exit; the freezer reaches what was last written to it in its own time. */
module Freezer {
  type Pid = nat

  // ---- The cgroup --------------------------------------------------------------------------------------

  /** `wanted` is what was last written to `cgroup.freeze`, `frozen` what `cgroup.events` reports, and
      `used` the pids handed out so far. */
  datatype World = World(members: set<Pid>, wanted: bool, frozen: bool, used: set<Pid>)

  datatype Event = Fork(child: Pid) | Exit(pid: Pid) | Settle

  function Happen(w: World, e: Event): World {
    match e
    case Fork(child) =>
      if w.frozen || w.members == {} || child in w.used then w
      else w.(members := w.members + {child}, used := w.used + {child})
    case Exit(pid) => w.(members := w.members - {pid})
    case Settle => w.(frozen := w.wanted)
  }

  function HappenAll(w: World, es: seq<Event>): World
    decreases |es|
  {
    if es == [] then w else HappenAll(Happen(w, es[0]), es[1..])
  }

  /** Frozen, and asked to be: no thaw is on its way. */
  predicate Held(w: World) {
    w.frozen && w.wanted
  }

  lemma {:induction false} HeldStaysHeld(w: World, es: seq<Event>)
    requires Held(w)
    ensures Held(HappenAll(w, es)) && HappenAll(w, es).members <= w.members
    decreases |es|
  {
    if es != [] { HeldStaysHeld(Happen(w, es[0]), es[1..]); }
  }

  lemma {:induction false} WantedIsOurs(w: World, es: seq<Event>)
    ensures HappenAll(w, es).wanted == w.wanted
    ensures w.frozen == w.wanted ==> HappenAll(w, es).frozen == w.frozen
    decreases |es|
  {
    if es != [] { WantedIsOurs(Happen(w, es[0]), es[1..]); }
  }

  lemma FreshPid(used: set<Pid>) returns (pid: Pid)
    ensures pid !in used && forall p | p in used :: p < pid
  {
    if used == {} {
      pid := 0;
    } else {
      var p :| p in used;
      var q := FreshPid(used - {p});
      pid := if q <= p then p + 1 else q;
      assert forall r | r in used :: r == p || r in used - {p};
    }
  }

  // ---- The command as a function of what happens ---------------------------------------------------------

  datatype Outcome = Signalled | FreezeFailed | ThawFailed | ListingFailed | KillFailed

  const POLLS := 500

  /** What is going to happen: one batch of events before each look at the cgroup. After the schedule is
      used up nothing more happens. */
  type Schedule = seq<seq<Event>>

  function Seen(w: World, s: Schedule): World {
    HappenAll(w, if s == [] then [] else s[0])
  }

  function Rest(s: Schedule): Schedule {
    if s == [] then [] else s[1..]
  }

  /** Where a system call or a loop of them leads: whether, or how often, it succeeded, and what is left. */
  datatype Polls = Polls(ok: bool, world: World, rest: Schedule)
  datatype Signals = Signals(count: nat, world: World, rest: Schedule)

  /** Up to `polls` looks for the requested state. */
  function Polled(w: World, s: Schedule, request: bool, polls: nat): Polls
    decreases polls
  {
    if polls == 0 then Polls(false, w, s)
    else if Seen(w, s).frozen == request then Polls(true, Seen(w, s), Rest(s))
    else Polled(Seen(w, s), Rest(s), request, polls - 1)
  }

  lemma {:induction false} PolledAsRequested(w: World, s: Schedule, request: bool, polls: nat)
    ensures Polled(w, s, request, polls).world.wanted == w.wanted
    ensures Polled(w, s, request, polls).ok ==> Polled(w, s, request, polls).world.frozen == request
    decreases polls
  {
    if polls > 0 {
      WantedIsOurs(w, if s == [] then [] else s[0]);
      PolledAsRequested(Seen(w, s), Rest(s), request, polls - 1);
    }
  }

  /** The cgroup at the `k`-th look from now. */
  function AtLook(w: World, s: Schedule, k: nat): World
    decreases k
  {
    if k == 0 then w else AtLook(Seen(w, s), Rest(s), k - 1)
  }

  lemma {:induction false} PolledFinds(w: World, s: Schedule, request: bool, polls: nat) returns (k: nat)
    requires Polled(w, s, request, polls).ok
    ensures 1 <= k <= polls && AtLook(w, s, k).frozen == request
    decreases polls
  {
    if Seen(w, s).frozen == request {
      k := 1;
      assert AtLook(Seen(w, s), Rest(s), 0) == Seen(w, s);
    } else {
      k := PolledFinds(Seen(w, s), Rest(s), request, polls - 1);
      k := k + 1;
    }
  }

  lemma {:induction false} FoundIsPolled(w: World, s: Schedule, request: bool, polls: nat, k: nat)
    requires 1 <= k <= polls && AtLook(w, s, k).frozen == request
    ensures Polled(w, s, request, polls).ok
    decreases polls
  {
    if k > 1 {
      FoundIsPolled(Seen(w, s), Rest(s), request, polls - 1, k - 1);
    } else {
      assert AtLook(Seen(w, s), Rest(s), 0) == Seen(w, s);
    }
  }

  /** Polling succeeds exactly if one of the looks finds what was asked for. */
  lemma PolledExactly(w: World, s: Schedule, request: bool, polls: nat)
    ensures Polled(w, s, request, polls).ok <==> exists k :: 1 <= k <= polls && AtLook(w, s, k).frozen == request
  {
    if Polled(w, s, request, polls).ok {
      var k := PolledFinds(w, s, request, polls);
    }
    if k :| 1 <= k <= polls && AtLook(w, s, k).frozen == request {
      FoundIsPolled(w, s, request, polls, k);
    }
  }

  /** Signalling `pids` one by one, up to the first that is gone. */
  function Signalling(w: World, s: Schedule, pids: seq<Pid>): Signals
    decreases |pids|
  {
    if pids == [] then Signals(0, w, s)
    else if pids[0] !in Seen(w, s).members then Signals(0, Seen(w, s), Rest(s))
    else Later(1, Signalling(Seen(w, s), Rest(s), pids[1..]))
  }

  /** The same run, when `i` were signalled before. */
  function Later(i: nat, run: Signals): Signals {
    run.(count := i + run.count)
  }

  /** The signalling stops at the first that is gone when its turn comes, and gets through exactly if none
      is. */
  lemma {:induction false} SignallingExactly(w: World, s: Schedule, pids: seq<Pid>)
    ensures var n := Signalling(w, s, pids).count;
            && n <= |pids|
            && (forall i | 0 <= i < n :: pids[i] in AtLook(w, s, i + 1).members)
            && (n < |pids| ==> pids[n] !in AtLook(w, s, n + 1).members)
    decreases |pids|
  {
    if pids != [] {
      assert AtLook(Seen(w, s), Rest(s), 0) == Seen(w, s);
      if pids[0] in Seen(w, s).members {
        SignallingExactly(Seen(w, s), Rest(s), pids[1..]);
        var n := Signalling(w, s, pids).count;
        forall i | 0 <= i < n ensures pids[i] in AtLook(w, s, i + 1).members {
          if i > 0 { assert pids[1..][i - 1] in AtLook(Seen(w, s), Rest(s), i - 1 + 1).members; }
        }
      }
    }
  }

  lemma SignallingAt(w: World, s: Schedule, pids: seq<Pid>, i: nat)
    requires i < |pids|
    ensures Signalling(w, s, pids[i..])
            == if pids[i] !in Seen(w, s).members then Signals(0, Seen(w, s), Rest(s))
               else Later(1, Signalling(Seen(w, s), Rest(s), pids[i + 1..]))
  {
    assert pids[i..][0] == pids[i] && pids[i..][1..] == pids[i + 1..];
  }

  /** What one `kill --all` comes to: the cgroup at the last moment before any thaw, the cgroup at the
      end, and how many of the listed processes were signalled. */
  datatype Run = Run(outcome: Outcome, last: World, end: World, rest: Schedule, signalled: nat)

  /** The state of the cgroup before its members are listed. */
  function FreezeFirst(seen: World, s: Schedule): Polls {
    if seen.frozen then Polls(true, seen, s) else Polled(seen.(wanted := true), s, true, POLLS)
  }

  function ThawLast(seen: World, r: Run): Run {
    if seen.frozen then r
    else
      var thaw := Polled(r.last.(wanted := false), r.rest, false, POLLS);
      r.(outcome := if thaw.ok then r.outcome else ThawFailed, end := thaw.world, rest := thaw.rest)
  }

  function SignalRun(w: World, s: Schedule, readable: bool, pids: seq<Pid>): Run {
    if !readable then Run(ListingFailed, Seen(w, s), Seen(w, s), Rest(s), 0)
    else
      var done := Signalling(Seen(w, s), Rest(s), pids);
      Run(if done.count == |pids| then Signalled else KillFailed, done.world, done.world, done.rest, done.count)
  }

  /** The whole command after its first look `seen` at the freezer, when the kernel lists the members in
      the order `pids`. */
  function KillAllRun(seen: World, s: Schedule, readable: bool, pids: seq<Pid>): Run {
    var freeze := FreezeFirst(seen, s);
    if !freeze.ok then Run(FreezeFailed, freeze.world, freeze.world, freeze.rest, 0)
    else ThawLast(seen, SignalRun(freeze.world, freeze.rest, readable, pids))
  }

  /** `pids` lists the members as the command finds them. */
  ghost predicate Lists(pids: seq<Pid>, seen: World, s: Schedule) {
    var freeze := FreezeFirst(seen, s);
    freeze.ok ==> forall p :: p in pids <==> p in Seen(freeze.world, freeze.rest).members
  }

  // ---- Exactly when nobody is missed ----------------------------------------------------------------------

  /** Everyone who is in the cgroup at the last moment was signalled. */
  ghost predicate NobodyMissed(r: Run, pids: seq<Pid>) {
    r.outcome == Signalled ==> r.signalled == |pids| && forall p | p in r.last.members :: p in pids
  }

  /** From this first look, whatever happens and in whatever order the members are listed. */
  ghost predicate NeverMisses(seen: World) {
    forall s: Schedule, readable: bool, pids: seq<Pid> | Lists(pids, seen, s) ::
      NobodyMissed(KillAllRun(seen, s, readable, pids), pids)
  }

  lemma {:induction false} SignallingWhileHeld(w: World, s: Schedule, pids: seq<Pid>)
    requires Held(w)
    ensures var done := Signalling(w, s, pids);
            done.count <= |pids| && Held(done.world) && done.world.members <= w.members
    decreases |pids|
  {
    HeldStaysHeld(w, if s == [] then [] else s[0]);
    if pids != [] && pids[0] in Seen(w, s).members {
      SignallingWhileHeld(Seen(w, s), Rest(s), pids[1..]);
    }
  }

  lemma HeldMissesNobody(w: World, s: Schedule, readable: bool, pids: seq<Pid>)
    requires Held(w) && forall p :: p in pids <==> p in Seen(w, s).members
    ensures NobodyMissed(SignalRun(w, s, readable, pids), pids) && Held(SignalRun(w, s, readable, pids).last)
  {
    HeldStaysHeld(w, if s == [] then [] else s[0]);
    SignallingWhileHeld(Seen(w, s), Rest(s), pids);
  }

  lemma KillAllMissesNobody(seen: World, s: Schedule, readable: bool, pids: seq<Pid>)
    requires (seen.frozen ==> seen.wanted) && Lists(pids, seen, s)
    ensures NobodyMissed(KillAllRun(seen, s, readable, pids), pids)
  {
    var freeze := FreezeFirst(seen, s);
    PolledAsRequested(seen.(wanted := true), s, true, POLLS);
    if freeze.ok {
      HeldMissesNobody(freeze.world, freeze.rest, readable, pids);
    }
  }

  lemma MembersListed(members: set<Pid>) returns (pids: seq<Pid>)
    ensures forall p :: p in pids <==> p in members
    ensures |pids| == |members|
  {
    if members == {} {
      pids := [];
    } else {
      var p :| p in members;
      var rest := MembersListed(members - {p});
      pids := [p] + rest;
    }
  }

  lemma {:induction false} SignallingInPeace(w: World, pids: seq<Pid>)
    requires forall p | p in pids :: p in w.members
    ensures Signalling(w, [], pids) == Signals(|pids|, w, [])
    decreases |pids|
  {
    if pids != [] { SignallingInPeace(w, pids[1..]); }
  }

  /** A pending thaw takes effect after the listing and a member forks: the command reports success, and
      the child was not signalled. */
  lemma PendingThawMissesAChild(seen: World) returns (s: Schedule, pids: seq<Pid>, child: Pid)
    requires seen.frozen && !seen.wanted && seen.members != {}
    ensures s == [[], [Settle, Fork(child)]] && Lists(pids, seen, s)
    ensures var r := KillAllRun(seen, s, true, pids);
            r.outcome == Signalled && child in r.last.members && child !in pids
  {
    child := FreshPid(seen.used + seen.members);
    pids := MembersListed(seen.members);
    s := [[], [Settle, Fork(child)]];
    var batch := [Settle, Fork(child)];
    var tail: Schedule := [batch];
    assert s[1..] == tail && tail[1..] == [];
    assert HappenAll(seen, []) == seen;
    var thawed := Happen(seen, Settle);
    var forked := Happen(thawed, Fork(child));
    assert batch[1..] == [Fork(child)] && [Fork(child)][1..] == [];
    assert HappenAll(thawed, [Fork(child)]) == HappenAll(forked, []);
    assert HappenAll(seen, batch) == HappenAll(thawed, batch[1..]) == forked;
    assert Seen(seen, s) == seen && Rest(s) == tail;
    assert Seen(seen, tail) == forked && Rest(tail) == [];
    assert pids != [] && pids[0] in forked.members;
    SignallingInPeace(forked, pids[1..]);
    assert Signalling(seen, tail, pids) == Signals(|pids|, forked, []);
  }

  /** The exact condition: a `kill --all` that reports success has missed nobody, whatever happens
      meanwhile, if and only if no thaw was pending at its first look, or nobody was there to fork. */
  lemma KillAllNeverMissesExactly(seen: World)
    ensures NeverMisses(seen) <==> (seen.members == {} || (seen.frozen ==> seen.wanted))
  {
    if seen.frozen ==> seen.wanted {
      forall s: Schedule, readable: bool, pids: seq<Pid> | Lists(pids, seen, s)
        ensures NobodyMissed(KillAllRun(seen, s, readable, pids), pids)
      {
        KillAllMissesNobody(seen, s, readable, pids);
      }
    } else if seen.members == {} {
      forall s: Schedule, readable: bool, pids: seq<Pid> | Lists(pids, seen, s)
        ensures NobodyMissed(KillAllRun(seen, s, readable, pids), pids)
      {
        EmptyStaysEmpty(seen, if s == [] then [] else s[0]);
        TheFirstIsAMember(pids, Seen(seen, s).members);
      }
    } else {
      var s, pids, child := PendingThawMissesAChild(seen);
      assert !NobodyMissed(KillAllRun(seen, s, true, pids), pids);
    }
  }

  lemma TheFirstIsAMember(pids: seq<Pid>, members: set<Pid>)
    requires forall p :: p in pids <==> p in members
    ensures pids == [] || pids[0] in members
  {
    if pids != [] {
      assert pids[0] in pids;
    }
  }

  lemma {:induction false} EmptyStaysEmpty(w: World, es: seq<Event>)
    requires w.members == {}
    ensures HappenAll(w, es).members == {}
    decreases |es|
  {
    if es != [] { EmptyStaysEmpty(Happen(w, es[0]), es[1..]); }
  }

  // ---- The runtime ---------------------------------------------------------------------------------------

  class Cgroup {
    var world: World
    var schedule: Schedule
    var sent: seq<Pid>

    constructor (world: World, schedule: Schedule)
      ensures this.world == world && this.schedule == schedule && sent == []
    {
      this.world, this.schedule, sent := world, schedule, [];
    }

    /** One look at a file of the cgroup, before which the next batch happens. */
    method Look()
      modifies this`world, this`schedule
      ensures world == Seen(old(world), old(schedule)) && schedule == Rest(old(schedule))
    {
      world, schedule := Seen(world, schedule), Rest(schedule);
    }

    method IsFrozen() returns (frozen: bool)
      modifies this`world, this`schedule
      ensures world == Seen(old(world), old(schedule)) && schedule == Rest(old(schedule)) && frozen == world.frozen
    {
      Look();
      frozen := world.frozen;
    }

    /** Looks up to `polls` times for the requested state. */
    method Poll(request: bool, polls: nat) returns (ok: bool)
      modifies this`world, this`schedule
      ensures Polls(ok, world, schedule) == Polled(old(world), old(schedule), request, polls)
    {
      ghost var run := Polled(world, schedule, request, polls);
      for attempt := 0 to polls
        invariant run == Polled(world, schedule, request, polls - attempt)
      {
        var frozen := IsFrozen();
        if frozen == request {
          return true;
        }
      }
      ok := false;
    }

    /** Writes the request and polls for five seconds. */
    method Freeze(request: bool) returns (ok: bool)
      modifies this`world, this`schedule
      ensures Polls(ok, world, schedule) == Polled(old(world).(wanted := request), old(schedule), request, POLLS)
      ensures ok <==> exists k :: 1 <= k <= 500
                                  && AtLook(old(world).(wanted := request), old(schedule), k).frozen == request
      ensures world.wanted == request && (ok ==> world.frozen == request)
    {
      world := world.(wanted := request);
      PolledExactly(world, schedule, request, POLLS);
      PolledAsRequested(world, schedule, request, POLLS);
      ok := Poll(request, POLLS);
    }

    /** The members in some order. */
    method Procs(readable: bool) returns (ok: bool, pids: seq<Pid>)
      modifies this`world, this`schedule
      ensures world == Seen(old(world), old(schedule)) && schedule == Rest(old(schedule)) && ok == readable
      ensures forall p :: p in pids <==> p in world.members
    {
      Look();
      pids := [];
      var left := world.members;
      while left != {}
        invariant left <= world.members
        invariant forall p :: p in pids <==> p in world.members - left
        decreases left
      {
        var p :| p in left;
        pids := pids + [p];
        left := left - {p};
      }
      ok := readable;
    }

    /** Fails when the process is gone. */
    method Kill(pid: Pid) returns (ok: bool)
      modifies this
      ensures world == Seen(old(world), old(schedule)) && schedule == Rest(old(schedule))
      ensures ok <==> pid in world.members
      ensures sent == if ok then old(sent) + [pid] else old(sent)
    {
      Look();
      ok := pid in world.members;
      if ok {
        sent := sent + [pid];
      }
    }

    /** Signals one after the other, up to the first that is gone; `n` is how many were signalled. */
    method SignalEach(listed: seq<Pid>) returns (ok: bool, ghost n: nat)
      modifies this
      ensures Signals(n, world, schedule) == Signalling(old(world), old(schedule), listed)
      ensures n <= |listed| && (ok <==> n == |listed|) && sent == old(sent) + listed[..n]
    {
      ghost var whole := Signalling(world, schedule, listed);
      n := 0;
      assert listed[0..] == listed;
      for i := 0 to |listed|
        invariant n == i && sent == old(sent) + listed[..i]
        invariant whole == Later(i, Signalling(world, schedule, listed[i..]))
      {
        SignallingAt(world, schedule, listed, i);
        var alive := Kill(listed[i]);
        if !alive {
          return false, n;
        }
        assert listed[..i + 1] == listed[..i] + [listed[i]];
        n := n + 1;
      }
      assert listed[|listed|..] == [] && listed[..|listed|] == listed;
      ok := true;
    }

    /** Lists the members and signals them. */
    method SignalListed(readable: bool) returns (outcome: Outcome, ghost pids: seq<Pid>)
      modifies this
      ensures var run := SignalRun(old(world), old(schedule), readable, pids);
              && outcome == run.outcome && world == run.last && schedule == run.rest
              && run.signalled <= |pids| && sent == old(sent) + pids[..run.signalled]
      ensures forall p :: p in pids <==> p in Seen(old(world), old(schedule)).members
    {
      var ok, listed := Procs(readable);
      pids := listed;
      if !ok {
        assert sent == old(sent) + pids[..0];
        return ListingFailed, pids;
      }
      ghost var n;
      ok, n := SignalEach(listed);
      outcome := if ok then Signalled else KillFailed;
    }

    /** `kill --all`: what it does is `KillAllRun`, from its first look `seen`, for the order `pids` in which
        the members are listed. */
    method KillAll(readable: bool) returns (outcome: Outcome, ghost seen: World, ghost pids: seq<Pid>)
      modifies this
      ensures seen == Seen(old(world), old(schedule)) && Lists(pids, seen, Rest(old(schedule)))
      ensures var run := KillAllRun(seen, Rest(old(schedule)), readable, pids);
              && outcome == run.outcome && world == run.end && schedule == run.rest
              && run.signalled <= |pids| && sent == old(sent) + pids[..run.signalled]
    {
      var wasFrozen := IsFrozen();
      seen, pids := world, [];
      if !wasFrozen {
        var ok := Freeze(true);
        if !ok {
          return FreezeFailed, seen, pids;
        }
      }
      outcome, pids := SignalListed(readable);
      if !wasFrozen {
        var ok := Freeze(false);
        if !ok {
          outcome := ThawFailed;
        }
      }
    }
  }

  /** The freezer is as it was, in what it reports and in what was last asked of it. */
  predicate EndsAsFound(seen: World, r: Run) {
    r.outcome != FreezeFailed && r.outcome != ThawFailed ==>
      r.end.frozen == seen.frozen && r.end.wanted == seen.wanted
  }

  lemma FreezerEndsAsFound(seen: World, s: Schedule, readable: bool, pids: seq<Pid>)
    requires seen.frozen == seen.wanted
    ensures EndsAsFound(seen, KillAllRun(seen, s, readable, pids))
  {
    if !seen.frozen {
      var run := SignalRun(FreezeFirst(seen, s).world, FreezeFirst(seen, s).rest, readable, pids);
      PolledAsRequested(run.last.(wanted := false), run.rest, false, POLLS);
    } else {
      HeldStaysHeld(seen, if s == [] then [] else s[0]);
      SignallingWhileHeld(Seen(seen, s), Rest(s), pids);
    }
  }

  lemma OneSettle(w: World)
    ensures HappenAll(w, [Settle]) == w.(frozen := w.wanted)
  {
    assert [Settle][1..] == [] && HappenAll(Happen(w, Settle), []) == Happen(w, Settle);
  }

  /** A pending thaw takes effect on the way: a freezer that reported frozen ends thawed. */
  lemma PendingThawEndsThawed(seen: World)
    requires seen.frozen && !seen.wanted
    ensures !EndsAsFound(seen, KillAllRun(seen, [[Settle]], false, []))
  {
    var s: Schedule := [[Settle]];
    OneSettle(seen);
    assert Seen(seen, s) == seen.(frozen := false);
  }

  /** A pending freeze takes effect on the way and is undone: nobody asks for it any more. */
  lemma PendingFreezeIsCancelled(seen: World)
    requires !seen.frozen && seen.wanted
    ensures var run := KillAllRun(seen, [[Settle], [], [Settle]], false, []);
            run.outcome == ListingFailed && !run.end.wanted && !EndsAsFound(seen, run)
  {
    var s: Schedule := [[Settle], [], [Settle]];
    var frozen, thawing := seen.(frozen := true), seen.(frozen := true, wanted := false);
    OneSettle(seen);
    OneSettle(thawing);
    assert Rest(s) == [[], [Settle]] && Rest(Rest(s)) == [[Settle]];
    assert seen.(wanted := true) == seen && Seen(seen, s) == frozen;
    assert FreezeFirst(seen, s) == Polls(true, frozen, Rest(s)) by { FirstLookIsEnough(seen, s, true, POLLS); }
    assert Seen(frozen, Rest(s)) == frozen;
    assert Seen(thawing, Rest(Rest(s))) == thawing.(frozen := false);
    FirstLookIsEnough(thawing, Rest(Rest(s)), false, POLLS);
  }

  lemma FirstLookIsEnough(w: World, s: Schedule, request: bool, polls: nat)
    requires polls > 0 && Seen(w, s).frozen == request
    ensures Polled(w, s, request, polls) == Polls(true, Seen(w, s), Rest(s))
  {
  }

  /** The same with one member and full success: a pause that was on its way is lost. */
  lemma SuccessCancelsAPendingFreeze()
    ensures var seen := World({1}, true, false, {1});
            var s: Schedule := [[Settle], [], [], [Settle]];
            var run := KillAllRun(seen, s, true, [1]);
            && Lists([1], seen, s) && run.outcome == Signalled && run.signalled == 1 && !run.end.wanted
  {
    var seen := World({1}, true, false, {1});
    var frozen, thawing := seen.(frozen := true), seen.(frozen := true, wanted := false);
    var s: Schedule := [[Settle], [], [], [Settle]];
    var s1: Schedule, s2: Schedule, s3: Schedule := [[], [], [Settle]], [[], [Settle]], [[Settle]];
    assert Rest(s) == s1 && Rest(s1) == s2 && Rest(s2) == s3;
    OneSettle(seen);
    OneSettle(thawing);
    assert seen.(wanted := true) == seen && Seen(seen, s) == frozen;
    FirstLookIsEnough(seen, s, true, POLLS);
    assert Seen(frozen, s1) == frozen && Seen(frozen, s2) == frozen;
    assert [1][1..] == [] && Signalling(frozen, s3, []) == Signals(0, frozen, s3);
    assert Signalling(frozen, s2, [1]) == Signals(1, frozen, s3);
    assert Seen(thawing, s3).frozen == false;
    FirstLookIsEnough(thawing, s3, false, POLLS);
  }

  /** Unless the freezer itself fails, it ends as it was found, request and all, also when the signalling
      failed; and that is so, whatever happens, exactly if neither a thaw nor a freeze was pending. */
  lemma FreezerEndsAsFoundExactly(seen: World)
    ensures (forall s: Schedule, readable: bool, pids: seq<Pid> ::
               EndsAsFound(seen, KillAllRun(seen, s, readable, pids)))
            <==> seen.frozen == seen.wanted
  {
    if seen.frozen == seen.wanted {
      forall s: Schedule, readable: bool, pids: seq<Pid>
        ensures EndsAsFound(seen, KillAllRun(seen, s, readable, pids))
      {
        FreezerEndsAsFound(seen, s, readable, pids);
      }
    } else if seen.frozen {
      PendingThawEndsThawed(seen);
    } else {
      PendingFreezeIsCancelled(seen);
    }
  }
}
