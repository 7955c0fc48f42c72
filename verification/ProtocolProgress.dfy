/** Termination of every run of the create/start protocol, and the two ways in which create can block. */
module ProtocolProgress {
  import opened Wrappers
  import opened Protocol
  import opened ProtocolInvariant

  // ---- Every run ends -------------------------------------------------------------------------------------

  function StarterRanks(ps: seq<Starter>): nat {
    if ps == [] then 0 else StarterRank(ps[0].at) + StarterRanks(ps[1..])
  }

  function Rank(s: State): nat {
    BaseRank(s) + StarterRanks(s.starters)
  }

  lemma {:induction false} RanksAfterMove(ps: seq<Starter>, k: nat, p: Starter)
    requires k < |ps|
    ensures StarterRanks(ps[k := p]) == StarterRanks(ps) - StarterRank(ps[k].at) + StarterRank(p.at)
  {
    if k == 0 {
      assert ps[0 := p] == [p] + ps[1..];
    } else {
      assert ps[k := p][1..] == ps[1..][k - 1 := p];
      RanksAfterMove(ps[1..], k - 1, p);
    }
  }

  lemma KillLowersRank(s: State, who: Process, t: State)
    requires KillProcess(s, who) == Some(t)
    ensures Rank(t) < Rank(s)
  {
    if who.TheStarter? {
      RanksAfterMove(s.starters, who.k, s.starters[who.k].(at := StarterKilled));
    } else {
      KillingLowersBaseRank(s, who, t);
    }
  }

  lemma KillingLowersBaseRank(s: State, who: Process, t: State)
    requires KillProcess(s, who) == Some(t) && !who.TheStarter?
    ensures BaseRank(t) < BaseRank(s) && t.starters == s.starters
  {
  }

  lemma DoLowersRank(s: State, a: Action, t: State)
    requires Inv(s) && Do(s, a) == Some(t)
    ensures Rank(t) < Rank(s)
  {
    match a
    case Kill(who) => KillLowersRank(s, who, t);
    case Step(TheRuntime, ok) => RuntimeKeepsInv(s, ok, t);
    case Step(TheIntermediate, ok) => IntermediateKeepsInv(s, ok, t);
    case Step(TheInit, ok) => InitKeepsInv(s, ok, t);
    case Step(TheStarter(k), ok) =>
      StarterKeepsInv(s, k, ok, t);
      RanksAfterMove(s.starters, k, t.starters[k]);
  }

  lemma {:induction false} RunIsNoLongerThanRank(s: State, actions: seq<Action>)
    requires Inv(s) && After(s, actions).Some?
    ensures |actions| <= Rank(s)
    decreases |actions|
  {
    if actions != [] {
      var t := Do(s, actions[0]).value;
      DoKeepsInv(s, actions[0], t);
      DoLowersRank(s, actions[0], t);
      RunIsNoLongerThanRank(t, actions[1..]);
    }
  }

  lemma {:induction false} RanksAtLoad(ps: seq<Starter>)
    requires forall k | 0 <= k < |ps| :: ps[k].at == Load
    ensures StarterRanks(ps) == 6 * |ps|
  {
    if ps != [] { RanksAtLoad(ps[1..]); }
  }

  /** Whatever fails and whoever is killed, no interleaving takes more steps than this. */
  lemma EveryRunIsBounded(s: State, actions: seq<Action>)
    requires Initial(s) && After(s, actions).Some?
    ensures |actions| <= 310 + 6 * |s.starters|
  {
    InvInitially(s);
    RunIsNoLongerThanRank(s, actions);
    RanksAtLoad(s.starters);
  }

  // ---- When create cannot go on ---------------------------------------------------------------------------

  /** `create` has not returned and none of its three processes can take a step. */
  predicate Stuck(s: State) {
    !Finished(s.r) && !CanStep(s, TheRuntime) && !CanStep(s, TheIntermediate) && !CanStep(s, TheInit)
  }

  /** The runtime and the init wait for each other: the pid the one waits for died with the
      intermediate, and the other keeps the socket open. */
  predicate WaitingForALostPid(s: State) {
    s.pidLost && (s.r.RecvFirst? || s.r.RecvSecond?) && s.i.AwaitApplied? && s.toParent == []
  }

  /** The runtime waits for an init that it has put in a frozen cgroup. */
  predicate WaitingForAFrozenInit(s: State) {
    s.cfg.frozen && s.r.ExpectReady? && s.i.AwaitApplied?
  }

  lemma IntermediateCanStep(s: State)
    requires Inv(s) && !s.m.Gone? && (s.r.RecvFirst? || s.r.RecvSecond?) && s.toParent == []
    ensures CanStep(s, TheIntermediate)
  {
    if s.m.AwaitMapped? {
      assert UpInv(Place(s.r), s.toParent, s.up, s.initPid);
      assert s.r.RecvSecond?;
      assert DownInv(s.toChild, s.down, s.initPid);
    }
  }

  lemma WaitingForPidIsStuckOnlyIfLost(s: State)
    requires Inv(s) && Stuck(s) && (s.r.RecvFirst? || s.r.RecvSecond?)
    ensures WaitingForALostPid(s)
  {
    assert s.toParent == [] && ChildEndOpen(s);
    if !s.m.Gone? {
      IntermediateCanStep(s);
    }
    assert UpInv(Place(s.r), s.toParent, s.up, s.initPid);
    assert !s.up.pidSent;
  }

  lemma WaitingForReadyIsNotStuck(s: State)
    requires Inv(s) && s.r.ExpectReady? && !WaitingForAFrozenInit(s)
    ensures !Stuck(s)
  {
    if s.toParent == [] && ChildEndOpen(s) {
      assert !s.up.readySent && s.m.Gone? && !Halted(s);
      if s.i.AwaitApplied? {
        assert DownInv(s.toChild, s.down, s.initPid);
      }
      assert CanStep(s, TheInit);
    }
  }

  lemma FrozenInitIsStuck(s: State)
    requires Inv(s) && WaitingForAFrozenInit(s)
    ensures Stuck(s)
  {
    assert UpInv(Place(s.r), s.toParent, s.up, s.initPid);
    assert s.toParent == [] && s.m.Gone? && Halted(s);
  }

  lemma ReapIsNotStuck(s: State)
    requires Inv(s) && s.r.Reap?
    ensures !Stuck(s)
  {
    if !s.m.Gone? {
      assert CanStep(s, TheIntermediate);
    }
  }

  lemma OtherwiseTheRuntimeSteps(s: State)
    requires !Finished(s.r) && !s.r.RecvFirst? && !s.r.RecvSecond? && !s.r.ExpectReady? && !s.r.Reap?
    ensures CanStep(s, TheRuntime)
  {
    assert StepRuntime(s, true).Some?;
  }

  /** The exact condition of deadlock: create blocks if and only if the intermediate was killed after
      forking the init and before sending its pid, and the two that are left wait for each other; or the
      runtime waits for an init that it has put in a frozen cgroup. */
  lemma DeadlockExactly(s: State)
    requires Reachable(s)
    ensures Stuck(s) <==> WaitingForALostPid(s) || WaitingForAFrozenInit(s)
  {
    ReachableInv(s);
    if Stuck(s) {
      if s.r.RecvFirst? || s.r.RecvSecond? {
        WaitingForPidIsStuckOnlyIfLost(s);
      } else if s.r.ExpectReady? {
        if !WaitingForAFrozenInit(s) { WaitingForReadyIsNotStuck(s); }
      } else if s.r.Reap? {
        ReapIsNotStuck(s);
      } else {
        OtherwiseTheRuntimeSteps(s);
      }
    }
    if WaitingForALostPid(s) {
      LostPidIsStuck(s);
    } else if WaitingForAFrozenInit(s) {
      FrozenInitIsStuck(s);
    }
  }

  lemma LostPidIsStuck(s: State)
    requires Inv(s) && WaitingForALostPid(s)
    ensures Stuck(s)
  {
    assert DownInv(s.toChild, s.down, s.initPid);
    assert s.m.Gone?;
    assert s.toChild == [];
  }

  /** Without that kill, and in a cgroup that is not frozen, create is deadlock-free: with
      `EveryRunIsBounded`, it returns. */
  lemma CreateIsDeadlockFree(s: State)
    requires Reachable(s) && !s.pidLost && !s.cfg.frozen && !Finished(s.r)
    ensures CanStep(s, TheRuntime) || CanStep(s, TheIntermediate) || CanStep(s, TheInit)
  {
    DeadlockExactly(s);
  }

  function LostPid(s: State): State {
    s.(m := Gone, i := AwaitApplied, pidLost := true)
  }

  lemma LosingThePid(s: State)
    requires Initial(s) && !s.cfg.userNs
    ensures After(s, [Step(TheIntermediate, true), Step(TheIntermediate, true), Kill(TheIntermediate)])
            == Some(LostPid(s))
  {
    var a, b := Step(TheIntermediate, true), Kill(TheIntermediate);
    var s1, s2 := s.(m := ForkInit), s.(m := SendPid, i := AwaitApplied);
    assert Do(s, a) == Some(s1) && Do(s1, a) == Some(s2) && Do(s2, b) == Some(LostPid(s));
    assert [a, a, b][1..] == [a, b] && [a, b][1..] == [b] && [b][1..] == [];
    assert After(LostPid(s), []) == Some(LostPid(s));
    assert After(s2, [b]) == Some(LostPid(s));
    assert After(s1, [a, b]) == Some(LostPid(s));
  }

  /** The deadlock does happen: without a user namespace, three actions are enough. */
  lemma DeadlockIsReachable(s: State)
    requires Initial(s) && !s.cfg.userNs
    ensures Reachable(LostPid(s)) && Stuck(LostPid(s))
  {
    LosingThePid(s);
    DeadlockExactly(LostPid(s));
  }

  /** Both are permanent until the runtime or the init is killed. */
  lemma DeadlockIsPermanent(s: State, actions: seq<Action>)
    requires Reachable(s) && Stuck(s) && After(s, actions).Some?
    requires Kill(TheRuntime) !in actions && Kill(TheInit) !in actions
    ensures Stuck(After(s, actions).value)
  {
    ReachableInv(s);
    DeadlockExactly(s);
    DeadlockGoesOn(s, actions);
  }

  predicate Deadlocked(s: State) {
    WaitingForALostPid(s) || WaitingForAFrozenInit(s)
  }

  lemma {:induction false} DeadlockGoesOn(s: State, actions: seq<Action>)
    requires Inv(s) && Deadlocked(s) && After(s, actions).Some?
    requires Kill(TheRuntime) !in actions && Kill(TheInit) !in actions
    ensures Stuck(After(s, actions).value)
    decreases |actions|
  {
    if actions == [] {
      if WaitingForALostPid(s) { LostPidIsStuck(s); } else { FrozenInitIsStuck(s); }
    } else {
      var t := Do(s, actions[0]).value;
      DoKeepsInv(s, actions[0], t);
      OneStepLeavesItDeadlocked(s, actions[0], t);
      DeadlockGoesOn(t, actions[1..]);
    }
  }

  lemma OneStepLeavesItDeadlocked(s: State, a: Action, t: State)
    requires Inv(s) && Deadlocked(s) && Do(s, a) == Some(t) && a != Kill(TheRuntime) && a != Kill(TheInit)
    ensures Deadlocked(t)
  {
    if WaitingForALostPid(s) { LostPidIsStuck(s); } else { FrozenInitIsStuck(s); }
    assert a.Step? ==> a.who.TheStarter?;
    if a.Step? {
      StarterKeepsInv(s, a.who.k, a.ok, t);
    }
  }

  // ---- A frozen cgroup ------------------------------------------------------------------------------------

  /** In a frozen cgroup create never succeeds: no state is saved, nobody starts, and nothing runs. */
  lemma FrozenCreateNeverSucceeds(s: State)
    requires Reachable(s) && s.cfg.frozen
    ensures s.r != ReturnedOk && !s.rec.everSaved && !s.saved && s.pipe.readerOpens == 0 && !s.built.executed
  {
    ReachableInv(s);
  }
}
