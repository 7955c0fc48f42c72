/** What becomes of a create that fails, and of a start to which no writer comes. */
module ProtocolFailure {
  import opened Wrappers
  import opened Protocol
  import opened ProtocolInvariant
  import opened ProtocolSafety

  /** After an error return the pipe and the state are gone, unless the directory could not be
      removed; and the init is dead or was never told to go on, unless it could not be signalled. */
  lemma FailedCreateCleansUp(s: State)
    requires Reachable(s) && s.r == ReturnedErr
    ensures !s.missed.cleanup ==> !s.fifoPresent && !s.saved
    ensures !s.missed.kill ==>
            || s.i == InitGone
            || (!s.rec.attached && CgroupApplied(s.initPid) !in s.toChild
                && (s.i == Unborn || s.i == AwaitApplied || s.i == InitReport || s.i == InitLeave))
  {
    ReachableInv(s);
  }

  // ---- Exactly when a failed create can still run the program --------------------------------------------

  /** A releaser that may yet open the pipe, as long as it is there. */
  predicate MayOpen(p: Starter, saved: bool) {
    p.at.CheckPath? || p.at.OpenPath? || (p.at.Load? && p.command.StartCommand? && saved)
  }

  predicate AnyMayOpen(s: State) {
    exists k :: 0 <= k < |s.starters| && MayOpen(s.starters[k], s.saved)
  }

  /** The init has reported ready, is not gone and can take a step, and its byte was written, or has a
      reader, or may yet get one. */
  predicate CanStillRun(s: State) {
    && 8 <= PlaceI(s.i) <= 14 && !Halted(s)
    && (PlaceI(s.i) >= 11 || AnyReader(s) || (s.fifoPresent && AnyMayOpen(s)))
  }

  /** Some continuation runs the user program. */
  ghost predicate SomeRunExecutes(s: State) {
    exists actions :: After(s, actions).Some? && After(s, actions).value.built.executed
  }

  lemma SomeRunFromNext(s: State, a: Action, actions: seq<Action>)
    requires Do(s, a).Some? && After(Do(s, a).value, actions).Some?
    requires After(Do(s, a).value, actions).value.built.executed
    ensures After(s, [a] + actions).Some? && After(s, [a] + actions).value.built.executed
  {
    assert ([a] + actions)[1..] == actions;
  }

  /** With a reader at hand, or past the write, the init goes all the way by its own steps. */
  lemma {:induction false} TheInitRuns(s: State) returns (actions: seq<Action>)
    requires 8 <= PlaceI(s.i) <= 14 && (PlaceI(s.i) >= 11 || AnyReader(s)) && !Halted(s)
    ensures After(s, actions).Some? && After(s, actions).value.built.executed
    decreases 15 - PlaceI(s.i)
  {
    var a := Step(TheInit, true);
    var t := InitGoesOn(s);
    if s.i.Exec? {
      actions := [];
      assert After(t, []) == Some(t);
    } else {
      actions := TheInitRuns(t);
    }
    SomeRunFromNext(s, a, actions);
    actions := [a] + actions;
  }

  lemma InitParksOn(s: State) returns (t: State)
    requires 8 <= PlaceI(s.i) <= 11 && (PlaceI(s.i) == 11 || AnyReader(s))
    ensures Park(s, true) == Some(t)
    ensures PlaceI(t.i) == PlaceI(s.i) + 1 && t.starters == s.starters && Halted(t) == Halted(s)
  {
    t := Park(s, true).value;
  }

  lemma InitLaunchesOn(s: State) returns (t: State)
    requires 12 <= PlaceI(s.i) <= 14
    ensures Launch(s, true) == Some(t)
    ensures PlaceI(t.i) == PlaceI(s.i) + 1 && t.starters == s.starters && Halted(t) == Halted(s)
    ensures s.i.Exec? ==> t.built.executed
  {
    t := Launch(s, true).value;
  }

  lemma InitGoesOn(s: State) returns (t: State)
    requires 8 <= PlaceI(s.i) <= 14 && (PlaceI(s.i) >= 11 || AnyReader(s)) && !Halted(s)
    ensures Do(s, Step(TheInit, true)) == Some(t)
    ensures PlaceI(t.i) == PlaceI(s.i) + 1 && t.starters == s.starters && Halted(t) == Halted(s)
    ensures s.i.Exec? ==> t.built.executed
  {
    if PlaceI(s.i) <= 11 {
      t := InitParksOn(s);
    } else {
      t := InitLaunchesOn(s);
    }
  }

  /** A releaser that may open the pipe does so in at most three steps. */
  lemma {:induction false} TheStarterOpens(s: State, k: nat) returns (actions: seq<Action>)
    requires 8 <= PlaceI(s.i) <= 14 && s.fifoPresent && k < |s.starters| && !Halted(s)
    requires MayOpen(s.starters[k], s.saved)
    ensures After(s, actions).Some? && After(s, actions).value.built.executed
    decreases StarterRank(s.starters[k].at)
  {
    var a := Step(TheStarter(k), true);
    var t := StarterGoesOn(s, k);
    if s.starters[k].at.OpenPath? {
      assert ReaderOpen(t.starters[k]);
      actions := TheInitRuns(t);
    } else {
      actions := TheStarterOpens(t, k);
    }
    SomeRunFromNext(s, a, actions);
    actions := [a] + actions;
  }

  lemma StarterGoesOn(s: State, k: nat) returns (t: State)
    requires s.fifoPresent && k < |s.starters| && MayOpen(s.starters[k], s.saved)
    ensures Do(s, Step(TheStarter(k), true)) == Some(t)
    ensures t.i == s.i && t.fifoPresent && t.saved == s.saved && |t.starters| == |s.starters|
    ensures Halted(t) == Halted(s)
    ensures StarterRank(t.starters[k].at) < StarterRank(s.starters[k].at)
    ensures if s.starters[k].at.OpenPath? then t.starters[k].at.Opening? else MayOpen(t.starters[k], t.saved)
  {
    t := StepStarter(s, k, true).value;
  }

  /** The create has failed for good. */
  predicate Doomed(s: State) {
    s.r == ReturnedErr && !s.built.executed && !CanStillRun(s)
  }

  /** `t` differs from `s` in nothing that the condition looks at, except that the init may have left
      the steps in question, or moved on before the write. */
  predicate NoNearer(s: State, t: State) {
    && t.r == s.r && t.built.executed == s.built.executed && Halted(t) == Halted(s)
    && t.starters == s.starters && t.fifoPresent == s.fifoPresent && t.saved == s.saved
    && (t.i == s.i || PlaceI(t.i) < 8 || PlaceI(t.i) > 14 || (8 <= PlaceI(s.i) <= 10 && PlaceI(t.i) <= 10))
  }

  lemma NoNearerKeepsDoomed(s: State, t: State)
    requires Doomed(s) && NoNearer(s, t)
    ensures Doomed(t)
  {
    assert AnyReader(t) ==> AnyReader(s);
    assert AnyMayOpen(t) ==> AnyMayOpen(s);
  }

  lemma PreparingIsNoNearer(s: State, ok: bool, t: State)
    requires (s.m.Setup? || s.m.Request?) && Prepare(s, ok) == Some(t)
    ensures NoNearer(s, t)
  {
  }

  lemma AwaitingIsNoNearer(s: State, ok: bool, t: State)
    requires s.m.AwaitMapped? && Prepare(s, ok) == Some(t)
    ensures NoNearer(s, t)
  {
  }

  lemma ForkingIsNoNearer(s: State, ok: bool, t: State)
    requires (s.m.BecomeRoot? || s.m.ForkInit?) && ForkTheInit(s, ok) == Some(t)
    ensures NoNearer(s, t)
  {
  }

  lemma LeavingTheForkIsNoNearer(s: State, ok: bool, t: State)
    requires s.m.Leave? && ForkTheInit(s, ok) == Some(t)
    ensures NoNearer(s, t)
  {
  }

  lemma SendingThePidIsNoNearer(s: State, ok: bool, t: State)
    requires s.m.SendPid? && ForkTheInit(s, ok) == Some(t)
    ensures NoNearer(s, t)
  {
  }

  lemma ReportingIsNoNearer(s: State, ok: bool, t: State)
    requires s.m.Report? && ForkTheInit(s, ok) == Some(t)
    ensures NoNearer(s, t)
  {
  }

  lemma IntermediateIsNoNearer(s: State, ok: bool, t: State)
    requires StepIntermediate(s, ok) == Some(t)
    ensures NoNearer(s, t)
  {
    if s.m.AwaitMapped? {
      AwaitingIsNoNearer(s, ok, t);
    } else if PlaceM(s.m) <= 2 {
      PreparingIsNoNearer(s, ok, t);
    } else if s.m.BecomeRoot? || s.m.ForkInit? {
      ForkingIsNoNearer(s, ok, t);
    } else if s.m.Leave? {
      LeavingTheForkIsNoNearer(s, ok, t);
    } else if s.m.SendPid? {
      SendingThePidIsNoNearer(s, ok, t);
    } else {
      ReportingIsNoNearer(s, ok, t);
    }
  }

  lemma ReceivingIsNoNearer(s: State, ok: bool, t: State)
    requires s.i.AwaitApplied? && Build(s, ok) == Some(t)
    ensures NoNearer(s, t)
  {
  }

  lemma BuildingIsNoNearer(s: State, ok: bool, t: State)
    requires (s.i.UnshareCgroup? || s.i.MountRootfs?) && Build(s, ok) == Some(t)
    ensures NoNearer(s, t)
  {
  }

  lemma HookingIsNoNearer(s: State, ok: bool, t: State)
    requires s.i.ContainerHooks? && Build(s, ok) == Some(t)
    ensures NoNearer(s, t)
  {
  }

  lemma GettingReadyIsNoNearer(s: State, ok: bool, t: State)
    requires s.r == ReturnedErr && GetReady(s, ok) == Some(t)
    ensures NoNearer(s, t)
  {
  }

  lemma LeavingIsNoNearer(s: State, ok: bool, t: State)
    requires (s.i.InitReport? || s.i.InitLeave?) && Launch(s, ok) == Some(t)
    ensures NoNearer(s, t)
  {
  }

  lemma ParkingIsNoNearer(s: State, ok: bool, t: State)
    requires (s.i.ParkJoin? || s.i.ParkWait?) && Park(s, ok) == Some(t)
    ensures NoNearer(s, t)
  {
  }

  lemma WritingIsNoNearer(s: State, ok: bool, t: State)
    requires s.i.ParkWrite? && !AnyReader(s) && Park(s, ok) == Some(t)
    ensures NoNearer(s, t)
  {
    assert t == Settle(s.(i := InitReport));
  }

  lemma InitKeepsDoomed(s: State, ok: bool, t: State)
    requires Doomed(s) && StepInit(s, ok) == Some(t)
    ensures Doomed(t)
  {
    if PlaceI(s.i) <= 4 {
      if s.i.AwaitApplied? {
        ReceivingIsNoNearer(s, ok, t);
      } else if s.i.ContainerHooks? {
        HookingIsNoNearer(s, ok, t);
      } else {
        BuildingIsNoNearer(s, ok, t);
      }
      NoNearerKeepsDoomed(s, t);
    } else if PlaceI(s.i) <= 7 {
      GettingReadyIsNoNearer(s, ok, t);
      NoNearerKeepsDoomed(s, t);
    } else if PlaceI(s.i) <= 11 {
      if s.i.ParkWrite? {
        WritingIsNoNearer(s, ok, t);
      } else {
        ParkingIsNoNearer(s, ok, t);
      }
      NoNearerKeepsDoomed(s, t);
    } else {
      LeavingIsNoNearer(s, ok, t);
      NoNearerKeepsDoomed(s, t);
    }
  }

  /** Only releaser `k` differs, and is no nearer to the pipe. */
  predicate StarterNoNearer(s: State, k: nat, t: State)
    requires k < |s.starters|
  {
    && t.r == s.r && t.built == s.built && t.i == s.i && t.saved == s.saved && Halted(t) == Halted(s)
    && (t.fifoPresent ==> s.fifoPresent)
    && |t.starters| == |s.starters| && t.starters == s.starters[k := t.starters[k]]
    && (ReaderOpen(t.starters[k]) ==> ReaderOpen(s.starters[k]) || (s.fifoPresent && MayOpen(s.starters[k], s.saved)))
    && (t.fifoPresent && MayOpen(t.starters[k], t.saved) ==> MayOpen(s.starters[k], s.saved))
  }

  lemma MovingIsNoNearer(s: State, k: nat, at: StarterAt, pipe: Pipe)
    requires k < |s.starters|
    requires ReaderOpen(Starter(s.starters[k].command, at)) ==>
               ReaderOpen(s.starters[k]) || (s.fifoPresent && MayOpen(s.starters[k], s.saved))
    requires s.fifoPresent && MayOpen(Starter(s.starters[k].command, at), s.saved) ==> MayOpen(s.starters[k], s.saved)
    ensures StarterNoNearer(s, k, Move(s, k, at).(pipe := pipe))
    ensures StarterNoNearer(s, k, Move(s, k, at).(fifoPresent := false, pipe := pipe))
  {
  }

  lemma LoadingIsNoNearer(s: State, k: nat, ok: bool, t: State)
    requires s.r == ReturnedErr && k < |s.starters| && s.starters[k].at.Load? && StepStarter(s, k, ok) == Some(t)
    ensures StarterNoNearer(s, k, t)
  {
  }

  lemma CheckingIsNoNearer(s: State, k: nat, ok: bool, t: State)
    requires s.r == ReturnedErr && k < |s.starters| && s.starters[k].at.CheckPath? && StepStarter(s, k, ok) == Some(t)
    ensures StarterNoNearer(s, k, t)
  {
  }

  lemma OpeningIsNoNearer(s: State, k: nat, ok: bool, t: State)
    requires s.r == ReturnedErr && k < |s.starters| && StepStarter(s, k, ok) == Some(t)
    requires s.starters[k].at.OpenPath? || s.starters[k].at.Opening?
    ensures StarterNoNearer(s, k, t)
  {
  }

  lemma ReadingIsNoNearer(s: State, k: nat, ok: bool, t: State)
    requires s.r == ReturnedErr && k < |s.starters| && s.starters[k].at.Read? && StepStarter(s, k, ok) == Some(t)
    ensures StarterNoNearer(s, k, t)
  {
  }

  lemma UnlinkingIsNoNearer(s: State, k: nat, ok: bool, t: State)
    requires s.r == ReturnedErr && k < |s.starters| && s.starters[k].at.Unlink? && StepStarter(s, k, ok) == Some(t)
    ensures StarterNoNearer(s, k, t)
  {
  }

  lemma StarterIsNoNearer(s: State, k: nat, ok: bool, t: State)
    requires s.r == ReturnedErr && k < |s.starters| && StepStarter(s, k, ok) == Some(t)
    ensures StarterNoNearer(s, k, t)
  {
    match s.starters[k].at
    case Load => LoadingIsNoNearer(s, k, ok, t);
    case CheckPath => CheckingIsNoNearer(s, k, ok, t);
    case OpenPath => OpeningIsNoNearer(s, k, ok, t);
    case Opening(_) => OpeningIsNoNearer(s, k, ok, t);
    case Read => ReadingIsNoNearer(s, k, ok, t);
    case Unlink => UnlinkingIsNoNearer(s, k, ok, t);
    case _ =>
  }

  lemma StarterKeepsDoomed(s: State, k: nat, ok: bool, t: State)
    requires Doomed(s) && k < |s.starters| && StepStarter(s, k, ok) == Some(t)
    ensures Doomed(t)
  {
    StarterIsNoNearer(s, k, ok, t);
    if 8 <= PlaceI(s.i) <= 10 && !Halted(s) {
      NobodyIsNearer(s, t, k);
    }
  }

  lemma NobodyIsNearer(s: State, t: State, k: nat)
    requires k < |s.starters| && StarterNoNearer(s, k, t)
    requires !AnyReader(s) && !(s.fifoPresent && AnyMayOpen(s))
    ensures !AnyReader(t) && !(t.fifoPresent && AnyMayOpen(t))
  {
    forall j | 0 <= j < |t.starters|
      ensures !ReaderOpen(t.starters[j]) && !(t.fifoPresent && MayOpen(t.starters[j], t.saved))
    {
      assert !ReaderOpen(s.starters[j]) && !(s.fifoPresent && MayOpen(s.starters[j], s.saved));
    }
  }

  lemma KillKeepsDoomed(s: State, who: Process, t: State)
    requires Doomed(s) && KillProcess(s, who) == Some(t)
    ensures Doomed(t)
  {
    if who.TheStarter? {
      MovingIsNoNearer(s, who.k, StarterKilled, t.pipe);
      if 8 <= PlaceI(s.i) <= 10 && !Halted(s) {
        NobodyIsNearer(s, t, who.k);
      }
    } else {
      KillingIsNoNearer(s, who, t);
      NoNearerKeepsDoomed(s, t);
    }
  }

  lemma KillingIsNoNearer(s: State, who: Process, t: State)
    requires s.r == ReturnedErr && !who.TheStarter? && KillProcess(s, who) == Some(t)
    ensures NoNearer(s, t)
  {
  }

  lemma {:induction false} DoomedNeverRuns(s: State, actions: seq<Action>)
    requires Doomed(s) && After(s, actions).Some?
    ensures !After(s, actions).value.built.executed
    decreases |actions|
  {
    if actions != [] {
      var t := Do(s, actions[0]).value;
      match actions[0] {
        case Kill(who) => KillKeepsDoomed(s, who, t);
        case Step(TheRuntime, ok) =>
        case Step(TheIntermediate, ok) =>
          IntermediateIsNoNearer(s, ok, t);
          NoNearerKeepsDoomed(s, t);
        case Step(TheInit, ok) => InitKeepsDoomed(s, ok, t);
        case Step(TheStarter(k), ok) => StarterKeepsDoomed(s, k, ok, t);
      }
      DoomedNeverRuns(t, actions[1..]);
    }
  }

  /** The exact condition: a create that returned an error can still run the user program if and only
      if its init has reported ready and lives, and its byte can still be taken. */
  lemma FailedCreateRunsExactly(s: State)
    requires s.r == ReturnedErr && !s.built.executed
    ensures SomeRunExecutes(s) <==> CanStillRun(s)
  {
    if CanStillRun(s) {
      var actions;
      if PlaceI(s.i) >= 11 || AnyReader(s) {
        actions := TheInitRuns(s);
      } else {
        var k :| 0 <= k < |s.starters| && MayOpen(s.starters[k], s.saved);
        actions := TheStarterOpens(s, k);
      }
    } else {
      forall actions | After(s, actions).Some? ensures !After(s, actions).value.built.executed {
        DoomedNeverRuns(s, actions);
      }
    }
  }

  /** What it takes: a create that failed and ran the program, or still can, failed on the pid file, after
      state.json was saved; if the program has yet to run, the init could not be signalled; and if no
      start is on the pipe yet, the pipe could not be removed. */
  lemma FailedCreateThatRuns(s: State)
    requires Reachable(s) && s.r == ReturnedErr && (s.built.executed || SomeRunExecutes(s))
    ensures s.rec.everSaved && s.rec.pidFileFailed
    ensures s.built.executed ==> s.pipe.readerOpens > 0
    ensures !s.built.executed ==> s.missed.kill
    ensures !s.built.executed && s.pipe.readerOpens == 0 ==> s.missed.cleanup
  {
    ReachableInv(s);
    if !s.built.executed {
      FailedCreateRunsExactly(s);
      StillRunningTakes(s);
    }
  }

  lemma StillRunningTakes(s: State)
    requires Inv(s) && s.r == ReturnedErr && CanStillRun(s)
    ensures s.rec.everSaved && s.rec.pidFileFailed && s.missed.kill
    ensures s.pipe.readerOpens == 0 ==> s.missed.cleanup
  {
    if s.pipe.readerOpens == 0 {
      NobodyReads(s);
    }
  }

  lemma NobodyReads(s: State)
    requires Inv(s) && CanStillRun(s) && s.pipe.readerOpens == 0
    ensures s.fifoPresent && s.rec.everSaved
  {
    assert !AnyReader(s) by {
      forall k | 0 <= k < |s.starters| ensures !ReaderOpen(s.starters[k]) {
        assert StarterInv(s.starters[k].at, s.pipe.readerOpens, s.rec.everSaved);
      }
    }
    var k :| 0 <= k < |s.starters| && MayOpen(s.starters[k], s.saved);
    assert StarterInv(s.starters[k].at, s.pipe.readerOpens, s.rec.everSaved);
  }

  /** So a create whose teardown signals the members of the cgroup never runs the program afterwards. */
  lemma FailedCreateNeverRuns(s: State, actions: seq<Action>)
    requires Reachable(s) && s.r == ReturnedErr && !s.built.executed && !s.missed.kill
    requires After(s, actions).Some?
    ensures !After(s, actions).value.built.executed
  {
    if After(s, actions).value.built.executed {
      FailedCreateThatRuns(s);
      assert false;
    }
  }

  // ---- A start to which no writer comes -----------------------------------------------------------------

  /** Releaser `k` waits in open(2), and the init will not open its end any more: it did so before and
      closed it, or ended without doing so. */
  predicate NoWriterToCome(s: State, k: nat) {
    && k < |s.starters| && s.starters[k].at.Opening?
    && s.starters[k].at.seen >= s.pipe.writerOpens
    && PlaceI(s.i) >= 12
  }

  lemma DoKeepsNoWriter(s: State, k: nat, a: Action, t: State)
    requires Inv(s) && NoWriterToCome(s, k) && Do(s, a) == Some(t)
    ensures NoWriterToCome(t, k) || a == Kill(TheStarter(k))
  {
    DoMoves(s, a, t);
  }

  lemma {:induction false} NoWriterStaysSo(s: State, k: nat, actions: seq<Action>)
    requires Inv(s) && NoWriterToCome(s, k) && After(s, actions).Some? && Kill(TheStarter(k)) !in actions
    ensures NoWriterToCome(After(s, actions).value, k)
    decreases |actions|
  {
    if actions != [] {
      var t := Do(s, actions[0]).value;
      DoKeepsInv(s, actions[0], t);
      DoKeepsNoWriter(s, k, actions[0], t);
      NoWriterStaysSo(t, k, actions[1..]);
    }
  }

  /** Such a `start` waits until it is killed. */
  lemma StartWithoutWriterBlocksForever(s: State, k: nat, actions: seq<Action>)
    requires Reachable(s) && NoWriterToCome(s, k) && After(s, actions).Some? && Kill(TheStarter(k)) !in actions
    ensures NoWriterToCome(After(s, actions).value, k)
  {
    ReachableInv(s);
    NoWriterStaysSo(s, k, actions);
  }

  /** The releaser has something left to do, and is not `run` waiting for its own create. */
  predicate Releasing(p: Starter) {
    !StarterDone(p.at) && (p.at.Load? ==> p.command.StartCommand?)
  }

  /** The exact condition under which a releaser is stuck: neither it nor the init can take a step, if and
      only if no writer is to come and the init has ended or runs the program. As every run is bounded,
      every other start returns. */
  lemma StartIsStuckExactly(s: State, k: nat)
    requires Reachable(s) && k < |s.starters| && Releasing(s.starters[k])
    ensures !CanStep(s, TheStarter(k)) && !CanStep(s, TheInit)
            <==> NoWriterToCome(s, k) && (s.i.RunningProgram? || s.i.InitGone?)
  {
    ReachableInv(s);
    assert StarterInv(s.starters[k].at, s.pipe.readerOpens, s.rec.everSaved);
    if s.starters[k].at.Opening? {
      assert PlaceI(s.i) >= 8 && !s.cfg.frozen;
      OpeningIsStuckExactly(s, k);
    } else {
      assert s.starters[k].at.Read? ==> !s.cfg.frozen;
      OthersAct(s, k);
    }
  }

  lemma OpeningIsStuckExactly(s: State, k: nat)
    requires k < |s.starters| && s.starters[k].at.Opening? && PlaceI(s.i) >= 8 && !s.cfg.frozen
    ensures !CanStep(s, TheStarter(k)) && !CanStep(s, TheInit)
            <==> NoWriterToCome(s, k) && (s.i.RunningProgram? || s.i.InitGone?)
  {
    if PlaceI(s.i) == 8 {
      assert Park(s, true).Some?;
    } else if PlaceI(s.i) >= 12 && !s.i.RunningProgram? && !s.i.InitGone? {
      assert Launch(s, true).Some?;
    }
  }

  lemma OthersAct(s: State, k: nat)
    requires k < |s.starters| && Releasing(s.starters[k]) && !s.starters[k].at.Opening?
    requires s.starters[k].at.Read? ==> !s.cfg.frozen
    ensures CanStep(s, TheStarter(k)) || CanStep(s, TheInit)
  {
    if s.starters[k].at.Read? && s.i.ParkWait? {
      assert AnyReader(s);
    }
  }
}
