/** What create comes to when nothing fails and nobody is killed. */
module ProtocolSuccess {
  import opened Wrappers
  import opened Protocol
  import opened ProtocolInvariant
  import opened ProtocolProgress
  import opened ProtocolSafety

  /** A step of one of the three processes of create, in which nothing fails. */
  predicate Undisturbed(a: Action) {
    a == Step(TheRuntime, true) || a == Step(TheIntermediate, true) || a == Step(TheInit, true)
  }

  /** None of the three can take a step. */
  predicate AtRest(s: State) {
    !CanStep(s, TheRuntime) && !CanStep(s, TheIntermediate) && !CanStep(s, TheInit)
  }

  // ---- Nobody leaves the straight way ---------------------------------------------------------------------

  /** No process is on its way out, and nobody has come to the pipe. */
  predicate Smooth(s: State) {
    && Place(s.r) <= 13 && PlaceI(s.i) <= 9
    && !s.m.Report? && (PlaceM(s.m) >= 7 ==> s.up.pidSent)
    && !s.pidLost && !s.up.reported && !s.up.initReported
    && s.pipe.readerOpens == 0 && !AnyReader(s)
  }

  lemma SmoothInitially(s: State)
    requires Initial(s)
    ensures Smooth(s)
  {
  }

  /** Until it has all it waits for, the runtime finds a message or somebody who will send one. */
  lemma SomebodyHoldsTheSocket(s: State)
    requires Inv(s) && Smooth(s) && (Place(s.r) <= 3 || s.r.SendApplied? || s.r.ExpectReady?)
    ensures s.toParent != [] || ChildEndOpen(s)
    ensures s.r.SendMapped? || s.r.SendApplied? ==> ChildEndOpen(s)
  {
    assert UpInv(Place(s.r), s.toParent, s.up, s.initPid);
  }

  lemma NothingFailed(s: State)
    requires Inv(s) && Smooth(s) && s.toParent != []
    ensures s.r.RecvFirst? ==> s.toParent[0].RequestUserMapping? || s.toParent[0].InitPid?
    ensures s.r.RecvSecond? ==> s.toParent[0].InitPid?
    ensures s.r.ExpectReady? ==> s.toParent[0].InitReady?
  {
    assert UpInv(Place(s.r), s.toParent, s.up, s.initPid);
  }

  lemma ReceivingStaysSmooth(s: State, t: State)
    requires Inv(s) && Smooth(s) && Place(s.r) <= 3 && ReceivePid(s, true) == Some(t)
    ensures Smooth(t)
  {
    SomebodyHoldsTheSocket(s);
    if s.toParent != [] { NothingFailed(s); }
    assert AnyReader(t) ==> AnyReader(s);
  }

  lemma PlacingStaysSmooth(s: State, t: State)
    requires Inv(s) && Smooth(s) && 4 <= Place(s.r) <= 8 && PlaceInit(s, true) == Some(t)
    ensures Smooth(t)
  {
    if s.r.SendApplied? { SomebodyHoldsTheSocket(s); }
    assert AnyReader(t) ==> AnyReader(s);
  }

  lemma RecordingStaysSmooth(s: State, t: State)
    requires Inv(s) && Smooth(s) && 9 <= Place(s.r) <= 12 && RecordState(s, true) == Some(t)
    ensures Smooth(t)
  {
    if s.r.ExpectReady? {
      SomebodyHoldsTheSocket(s);
      if s.toParent != [] { NothingFailed(s); }
    }
    assert AnyReader(t) ==> AnyReader(s);
  }

  lemma PreparingStaysSmooth(s: State, t: State)
    requires Inv(s) && Smooth(s) && Prepare(s, true) == Some(t)
    ensures Smooth(t)
  {
    assert DownInv(s.toChild, s.down, s.initPid);
    assert !RuntimeClosed(s.r);
    assert AnyReader(t) ==> AnyReader(s);
  }

  lemma ForkingStaysSmooth(s: State, t: State)
    requires Inv(s) && Smooth(s) && ForkTheInit(s, true) == Some(t)
    ensures Smooth(t)
  {
    assert s.m.SendPid? ==> !RuntimeClosed(s.r);
    assert AnyReader(t) ==> AnyReader(s);
  }

  lemma BeingAppliedStaysSmooth(s: State, t: State)
    requires Inv(s) && Smooth(s) && !Halted(s) && s.i.AwaitApplied? && Build(s, true) == Some(t)
    ensures Smooth(t)
  {
    assert DownInv(s.toChild, s.down, s.initPid);
    assert !RuntimeClosed(s.r);
    if s.toChild != [] { GotApplied(s); }
    assert AnyReader(t) ==> AnyReader(s);
  }

  lemma BuildingStaysSmooth(s: State, t: State)
    requires Inv(s) && Smooth(s) && 2 <= PlaceI(s.i) <= 4 && Build(s, true) == Some(t)
    ensures Smooth(t)
  {
    assert AnyReader(t) ==> AnyReader(s);
  }

  lemma GettingReadyStaysSmooth(s: State, t: State)
    requires Inv(s) && Smooth(s) && 5 <= PlaceI(s.i) <= 7 && GetReady(s, true) == Some(t)
    ensures Smooth(t)
  {
    assert !RuntimeClosed(s.r);
    assert AnyReader(t) ==> AnyReader(s);
  }

  lemma ParkingStaysSmooth(s: State, t: State)
    requires Inv(s) && Smooth(s) && 8 <= PlaceI(s.i) && Park(s, true) == Some(t)
    ensures Smooth(t)
  {
    assert AnyReader(t) ==> AnyReader(s);
  }

  lemma RuntimeStaysSmooth(s: State, t: State)
    requires Inv(s) && Smooth(s) && StepRuntime(s, true) == Some(t)
    ensures Smooth(t)
  {
    if Place(s.r) <= 3 {
      ReceivingStaysSmooth(s, t);
    } else if Place(s.r) <= 8 {
      PlacingStaysSmooth(s, t);
    } else {
      assert Place(s.r) <= 12;
      RecordingStaysSmooth(s, t);
    }
  }

  lemma InitStaysSmooth(s: State, t: State)
    requires Inv(s) && Smooth(s) && StepInit(s, true) == Some(t)
    ensures Smooth(t)
  {
    if s.i.AwaitApplied? {
      BeingAppliedStaysSmooth(s, t);
    } else if PlaceI(s.i) <= 4 {
      BuildingStaysSmooth(s, t);
    } else if PlaceI(s.i) <= 7 {
      GettingReadyStaysSmooth(s, t);
    } else {
      ParkingStaysSmooth(s, t);
    }
  }

  lemma StepStaysSmooth(s: State, a: Action, t: State)
    requires Inv(s) && Smooth(s) && Undisturbed(a) && Do(s, a) == Some(t)
    ensures Smooth(t)
  {
    if a.who.TheRuntime? {
      RuntimeStaysSmooth(s, t);
    } else if a.who.TheInit? {
      InitStaysSmooth(s, t);
    } else if PlaceM(s.m) <= 2 {
      PreparingStaysSmooth(s, t);
    } else {
      ForkingStaysSmooth(s, t);
    }
  }

  lemma StepKeepsConfig(s: State, a: Action, t: State)
    requires Inv(s) && Undisturbed(a) && Do(s, a) == Some(t)
    ensures t.cfg == s.cfg
  {
    DoMoves(s, a, t);
  }

  lemma {:induction false} RunStaysSmooth(s: State, actions: seq<Action>)
    requires Inv(s) && Smooth(s) && After(s, actions).Some? && forall a | a in actions :: Undisturbed(a)
    ensures Inv(After(s, actions).value) && Smooth(After(s, actions).value)
    ensures After(s, actions).value.cfg == s.cfg
    decreases |actions|
  {
    if actions != [] {
      var t := Do(s, actions[0]).value;
      assert Undisturbed(actions[0]);
      DoKeepsInv(s, actions[0], t);
      StepKeepsConfig(s, actions[0], t);
      StepStaysSmooth(s, actions[0], t);
      RunStaysSmooth(t, actions[1..]);
    }
  }

  // ---- Where it ends --------------------------------------------------------------------------------------

  lemma SmoothRest(s: State)
    requires Reachable(s) && Smooth(s) && AtRest(s)
    ensures s.r == ReturnedOk <==> !s.cfg.frozen
    ensures Deadlocked(s) <==> s.cfg.frozen
  {
    DeadlockExactly(s);
    if s.cfg.frozen {
      FrozenCreateNeverSucceeds(s);
    }
  }

  /** If nothing fails and nobody is killed, every way of interleaving the three processes ends with create
      returning success, or every one ends with the runtime waiting for a frozen init; which of the two is
      decided by the cgroup alone. */
  lemma UndisturbedCreate(s0: State, actions: seq<Action>)
    requires Initial(s0) && After(s0, actions).Some? && (forall a | a in actions :: Undisturbed(a))
    requires AtRest(After(s0, actions).value)
    ensures After(s0, actions).value.r == ReturnedOk <==> !s0.cfg.frozen
    ensures WaitingForAFrozenInit(After(s0, actions).value) <==> s0.cfg.frozen
  {
    InvInitially(s0);
    SmoothInitially(s0);
    RunStaysSmooth(s0, actions);
    assert Reachable(After(s0, actions).value);
    SmoothRest(After(s0, actions).value);
  }

  /** Whether a process can step does not depend on whether the step succeeds. */
  lemma WhoeverCanStepCanSucceed(s: State, who: Process)
    requires CanStep(s, who) && (who.TheRuntime? || who.TheIntermediate? || who.TheInit?)
    ensures Do(s, Step(who, true)).Some?
  {
    match who
    case TheRuntime =>
      if Place(s.r) <= 3 {
        assert ReceivePid(s, true).Some? <==> ReceivePid(s, false).Some?;
      }
    case TheIntermediate =>
    case TheInit =>
      if !Halted(s) && 8 <= PlaceI(s.i) <= 11 {
        assert Park(s, true).Some? <==> Park(s, false).Some?;
      }
  }

  /** Such a run exists from every state: the three step, in any order, until they are at rest. */
  lemma UndisturbedRunExists(s: State) returns (actions: seq<Action>)
    requires Inv(s)
    ensures (forall a | a in actions :: Undisturbed(a)) && After(s, actions).Some? && AtRest(After(s, actions).value)
    decreases Rank(s)
  {
    if AtRest(s) {
      actions := [];
    } else {
      var who := if CanStep(s, TheRuntime) then TheRuntime
                 else if CanStep(s, TheIntermediate) then TheIntermediate else TheInit;
      var a := Step(who, true);
      WhoeverCanStepCanSucceed(s, who);
      var t := Do(s, a).value;
      DoKeepsInv(s, a, t);
      DoLowersRank(s, a, t);
      var rest := UndisturbedRunExists(t);
      actions := [a] + rest;
      assert actions[1..] == rest;
    }
  }
}
