/** The commands that release the init: what a success has behind it, and when there is one. */
module ProtocolStart {
  import opened Wrappers
  import opened Protocol
  import opened ProtocolInvariant
  import opened ProtocolSafety
  import opened ProtocolTrace

  // ---- A failed step refuses ------------------------------------------------------------------------------

  /** A release gives up on every failure; the look at the path fails if and only if it is gone, and the wait
      in the open of the pipe cannot fail. */
  lemma StarterFailureRefuses(s: State, k: nat, t: State)
    requires k < |s.starters| && Do(s, Step(TheStarter(k), false)) == Some(t)
    ensures |t.starters| == |s.starters|
    ensures t.starters[k].at == (if s.starters[k].at.Opening? then Read
                                 else if s.starters[k].at.CheckPath? && s.fifoPresent then OpenPath
                                 else Refused)
  {
    match s.starters[k].at
    case Read => ReadFailureRefuses(s, k, t);
    case Unlink => UnlinkFailureRefuses(s, k, t);
    case _ =>
  }

  lemma ReadFailureRefuses(s: State, k: nat, t: State)
    requires k < |s.starters| && s.starters[k].at.Read? && StepStarter(s, k, false) == Some(t)
    ensures |t.starters| == |s.starters| && t.starters[k].at == Refused
  {
  }

  lemma UnlinkFailureRefuses(s: State, k: nat, t: State)
    requires k < |s.starters| && s.starters[k].at.Unlink? && StepStarter(s, k, false) == Some(t)
    ensures |t.starters| == |s.starters| && t.starters[k].at == Refused
  {
  }

  /** Before it has an end of the pipe a start waits only for its own `run`; then for the init to open the
      other end, and then for a byte as long as there is a writer. */
  lemma StarterWaitsExactly(s: State, k: nat, ok: bool)
    requires k < |s.starters|
    ensures Do(s, Step(TheStarter(k), ok)).None? <==>
            var p := s.starters[k];
            || StarterDone(p.at)
            || (p.at.Load? && p.command.RunCommand? && !Finished(s.r))
            || (p.at.Opening? && !WriterOpen(s.i) && s.pipe.writerOpens <= p.at.seen)
            || (p.at.Read? && s.pipe.buffered == 0 && WriterOpen(s.i))
  {
  }

  /** `start` goes to the pipe exactly if there is a saved state that is not started yet, and `run` exactly
      after its own create has returned Ok. */
  lemma LoadExactly(s: State, k: nat, ok: bool, t: State)
    requires k < |s.starters| && s.starters[k].at.Load? && Do(s, Step(TheStarter(k), ok)) == Some(t)
    ensures |t.starters| == |s.starters|
    ensures t.starters[k].at == CheckPath <==>
            ok && s.saved && (if s.starters[k].command.StartCommand? then s.fifoPresent else s.r.ReturnedOk?)
    ensures t.starters[k].at == CheckPath || t.starters[k].at == Refused
  {
  }

  // ---- The trace of a release -----------------------------------------------------------------------------

  const START_WAY: seq<nat> := [0, 1, 2, 3, 4, 5]

  /** The look at the path and the wait do not fail by themselves. */
  const START_SPARED: set<nat> := {1, 3}

  ghost predicate StarterHistory(s: State, k: nat, h: seq<Taken>) {
    && k < |s.starters|
    && Follows(h, START_WAY)
    && (PlaceS(s.starters[k].at) <= 6 ==>
          |h| == PlaceS(s.starters[k].at) && Succeeded(h, START_SPARED, |h|))
  }

  lemma EnteringAdvances(s: State, k: nat, ok: bool, t: State)
    requires k < |s.starters| && StepStarter(s, k, ok) == Some(t)
    requires s.starters[k].at.Load? || s.starters[k].at.CheckPath?
    ensures |t.starters| == |s.starters|
    ensures t.starters[k].at == Refused
            || ((ok || s.starters[k].at.CheckPath?) && PlaceS(t.starters[k].at) == PlaceS(s.starters[k].at) + 1)
  {
  }

  lemma OpeningAdvances(s: State, k: nat, ok: bool, t: State)
    requires k < |s.starters| && StepStarter(s, k, ok) == Some(t)
    requires s.starters[k].at.OpenPath? || s.starters[k].at.Opening?
    ensures |t.starters| == |s.starters|
    ensures t.starters[k].at == Refused
            || ((ok || s.starters[k].at.Opening?) && PlaceS(t.starters[k].at) == PlaceS(s.starters[k].at) + 1)
  {
  }

  lemma ReadingAdvances(s: State, k: nat, ok: bool, t: State)
    requires k < |s.starters| && StepStarter(s, k, ok) == Some(t) && s.starters[k].at.Read?
    ensures |t.starters| == |s.starters|
    ensures t.starters[k].at == Refused || (ok && t.starters[k].at == Unlink)
  {
  }

  lemma UnlinkingAdvances(s: State, k: nat, ok: bool, t: State)
    requires k < |s.starters| && StepStarter(s, k, ok) == Some(t) && s.starters[k].at.Unlink?
    ensures |t.starters| == |s.starters|
    ensures t.starters[k].at == Refused || (ok && t.starters[k].at == Started && !t.fifoPresent)
  {
  }

  /** A step of a release leads to the next place of its way, or to its refusal. */
  lemma StarterAdvances(s: State, k: nat, ok: bool, t: State)
    requires k < |s.starters| && StepStarter(s, k, ok) == Some(t)
    ensures |t.starters| == |s.starters| && PlaceS(s.starters[k].at) <= 5
    ensures t.starters[k].at == Refused
            || ((ok || PlaceS(s.starters[k].at) in START_SPARED)
                && PlaceS(t.starters[k].at) == PlaceS(s.starters[k].at) + 1)
    ensures t.starters[k].at.Started? ==> !t.fifoPresent
  {
    match s.starters[k].at
    case Load | CheckPath => EnteringAdvances(s, k, ok, t);
    case OpenPath | Opening(_) => OpeningAdvances(s, k, ok, t);
    case Read => ReadingAdvances(s, k, ok, t);
    case _ => UnlinkingAdvances(s, k, ok, t);
  }

  lemma StarterStepKeepsHistory(s: State, k: nat, ok: bool, t: State, h: seq<Taken>)
    requires StarterHistory(s, k, h) && StepStarter(s, k, ok) == Some(t)
    ensures StarterHistory(t, k, h + TakenBy(TheStarter(k), s, Step(TheStarter(k), ok)))
  {
    StarterAdvances(s, k, ok, t);
    OneStepMore(h, START_WAY, START_SPARED, |h|, Taken(PlaceS(s.starters[k].at), ok));
  }

  lemma DoKeepsStarterHistory(s: State, a: Action, t: State, k: nat, h: seq<Taken>)
    requires Inv(s) && Do(s, a) == Some(t) && StarterHistory(s, k, h)
    ensures StarterHistory(t, k, h + TakenBy(TheStarter(k), s, a))
  {
    if a == Step(TheStarter(k), true) || a == Step(TheStarter(k), false) {
      StarterStepKeepsHistory(s, k, a.ok, t, h);
    } else {
      DoMoves(s, a, t);
      assert h + [] == h;
    }
  }

  lemma {:induction false} RunKeepsStarterHistory(s: State, actions: seq<Action>, k: nat, h: seq<Taken>)
    requires Inv(s) && After(s, actions).Some? && StarterHistory(s, k, h)
    ensures StarterHistory(After(s, actions).value, k, h + StepsOf(TheStarter(k), s, actions))
    decreases |actions|
  {
    FirstStep(TheStarter(k), s, actions, h);
    if actions != [] {
      var t, grown := Do(s, actions[0]).value, h + TakenBy(TheStarter(k), s, actions[0]);
      assert Inv(t) by { DoKeepsInv(s, actions[0], t); }
      assert StarterHistory(t, k, grown) by { DoKeepsStarterHistory(s, actions[0], t, k, h); }
      RunKeepsStarterHistory(t, actions[1..], k, grown);
    }
  }

  // ---- A success ------------------------------------------------------------------------------------------

  /** Whoever has released the init has removed the pipe. */
  ghost predicate StartedRemoved(s: State) {
    forall k | 0 <= k < |s.starters| && s.starters[k].at.Started? :: !s.fifoPresent
  }

  lemma DoKeepsStartedRemoved(s: State, a: Action, t: State)
    requires Inv(s) && Do(s, a) == Some(t) && StartedRemoved(s)
    ensures StartedRemoved(t)
  {
    DoMoves(s, a, t);
    if a.Step? && a.who.TheStarter? { StarterAdvances(s, a.who.k, a.ok, t); }
  }

  lemma {:induction false} RunKeepsStartedRemoved(s: State, actions: seq<Action>)
    requires Inv(s) && After(s, actions).Some? && StartedRemoved(s)
    ensures StartedRemoved(After(s, actions).value)
    decreases |actions|
  {
    if actions != [] {
      var t := Do(s, actions[0]).value;
      DoKeepsInv(s, actions[0], t);
      DoKeepsStartedRemoved(s, actions[0], t);
      RunKeepsStartedRemoved(t, actions[1..]);
    }
  }

  lemma StarterHistoryFromTheStart(s0: State, actions: seq<Action>, s: State, k: nat)
    requires Initial(s0) && After(s0, actions) == Some(s) && k < |s.starters|
    ensures StarterHistory(s, k, StepsOf(TheStarter(k), s0, actions))
  {
    InvInitially(s0);
    StartersStay(s0, actions);
    assert StarterHistory(s0, k, []);
    RunKeepsStarterHistory(s0, actions, k, []);
    assert [] + StepsOf(TheStarter(k), s0, actions) == StepsOf(TheStarter(k), s0, actions);
  }

  /** Whoever took the byte, nobody else takes one. */
  lemma StartedTookTheByte(s: State, k: nat)
    requires Inv(s) && k < |s.starters| && s.starters[k].at.Started?
    ensures s.pipe.written == s.pipe.bytesRead == 1 && s.pipe.buffered == 0
    ensures s.rec.everSaved && s.up.readySent
  {
    OneHolder(s.starters, k);
  }

  /** A start that succeeded took every step of its way with success; it took the init's byte, after the state
      was saved and so after every step of create up to there; and the pipe is gone for good. */
  lemma StartTookEveryStep(s0: State, actions: seq<Action>, s: State, k: nat)
    requires Initial(s0) && After(s0, actions) == Some(s) && k < |s.starters| && s.starters[k].at.Started?
    ensures Behind(StepsOf(TheStarter(k), s0, actions), START_WAY, START_SPARED, 6)
    ensures RuntimePassed(s0, actions, 12) && InitPassed(s0, actions, 8)
    ensures s.pipe.written == s.pipe.bytesRead == 1 && s.pipe.buffered == 0 && !s.fifoPresent
  {
    StarterHistoryFromTheStart(s0, actions, s, k);
    StarterBehind(s, k, StepsOf(TheStarter(k), s0, actions));
    StartedFollows(s0, actions, s, k);
    Marks(s0, actions, s);
  }

  lemma StarterBehind(s: State, k: nat, h: seq<Taken>)
    requires StarterHistory(s, k, h) && s.starters[k].at.Started?
    ensures Behind(h, START_WAY, START_SPARED, 6)
  {
  }

  lemma StartedFollows(s0: State, actions: seq<Action>, s: State, k: nat)
    requires Initial(s0) && After(s0, actions) == Some(s) && k < |s.starters| && s.starters[k].at.Started?
    ensures s.pipe.written == s.pipe.bytesRead == 1 && s.pipe.buffered == 0 && !s.fifoPresent
    ensures s.rec.everSaved && s.up.readySent
  {
    InvInitially(s0);
    RunKeepsInv(s0, actions);
    RunKeepsStartedRemoved(s0, actions);
    StartedTookTheByte(s, k);
  }

  /** After a failed step of a start it never succeeds. */
  lemma StarterFailureEndsTheStart(s0: State, actions: seq<Action>, s: State, k: nat, place: nat)
    requires Initial(s0) && After(s0, actions) == Some(s) && k < |s.starters|
    requires Taken(place, false) in StepsOf(TheStarter(k), s0, actions) && place !in START_SPARED
    ensures !s.starters[k].at.Started?
  {
    if s.starters[k].at.Started? {
      StartTookEveryStep(s0, actions, s, k);
      FailureIsAhead(StepsOf(TheStarter(k), s0, actions), START_WAY, START_SPARED, 6, place);
    }
  }

  lemma {:induction false} StartersStay(s: State, actions: seq<Action>)
    requires Inv(s) && After(s, actions).Some?
    ensures |After(s, actions).value.starters| == |s.starters|
    decreases |actions|
  {
    if actions != [] {
      var t := Do(s, actions[0]).value;
      DoKeepsInv(s, actions[0], t);
      DoMoves(s, actions[0], t);
      StartersStay(t, actions[1..]);
    }
  }

  // ---- A start that nothing disturbs succeeds -------------------------------------------------------------

  /** A release under way: the start at place `a`, the init at place `i`, and what they need of the rest. */
  ghost predicate Releasing(s: State, k: nat, a: nat, i: nat) {
    && k < |s.starters| && PlaceS(s.starters[k].at) == a && PlaceI(s.i) == i && !Halted(s)
    && (a <= 5 ==> s.fifoPresent)
    && (a <= 2 ==> s.saved && s.r.ReturnedOk?)
    && (a == 4 && i == 11 ==> s.pipe.buffered > 0)
    && (i == 15 ==> s.built.executed)
  }

  /** The places that the two pass together when nobody else acts. */
  predicate InTurn(a: nat, i: nat) {
    (a <= 3 && i == 8) || (3 <= a <= 4 && i == 9) || (a == 4 && i == 10) || (4 <= a <= 6 && i == 11)
    || (a == 6 && 12 <= i <= 15)
  }

  lemma StarterEntersPipe(s: State, k: nat, a: nat)
    requires Releasing(s, k, a, 8) && a <= 2
    ensures var t := Do(s, Step(TheStarter(k), true)); t.Some? && Releasing(t.value, k, a + 1, 8)
  {
  }

  lemma StarterJoins(s: State, k: nat)
    requires Releasing(s, k, 3, 9)
    ensures var t := Do(s, Step(TheStarter(k), true)); t.Some? && Releasing(t.value, k, 4, 9)
  {
  }

  lemma StarterGetsByte(s: State, k: nat)
    requires Releasing(s, k, 4, 11)
    ensures var t := Do(s, Step(TheStarter(k), true)); t.Some? && Releasing(t.value, k, 5, 11)
  {
  }

  lemma StarterRemovesPipe(s: State, k: nat)
    requires Releasing(s, k, 5, 11)
    ensures var t := Do(s, Step(TheStarter(k), true)); t.Some? && Releasing(t.value, k, 6, 11)
  {
  }

  lemma InitJoins(s: State, k: nat)
    requires Releasing(s, k, 3, 8)
    ensures var t := Do(s, Step(TheInit, true)); t.Some? && Releasing(t.value, k, 3, 9)
  {
  }

  lemma InitSeesTheReader(s: State, k: nat)
    requires Releasing(s, k, 4, 9)
    ensures var t := Do(s, Step(TheInit, true)); t.Some? && Releasing(t.value, k, 4, 10)
  {
    assert ReaderOpen(s.starters[k]);
  }

  lemma InitWritesByte(s: State, k: nat)
    requires Releasing(s, k, 4, 10)
    ensures var t := Do(s, Step(TheInit, true)); t.Some? && Releasing(t.value, k, 4, 11)
  {
    assert ReaderOpen(s.starters[k]);
  }

  lemma InitCloses(s: State, k: nat)
    requires Releasing(s, k, 6, 11)
    ensures var t := Do(s, Step(TheInit, true)); t.Some? && Releasing(t.value, k, 6, 12)
  {
    ParkCloses(s, true);
  }

  lemma InitGoesOn(s: State, k: nat, i: nat)
    requires Releasing(s, k, 6, i) && 12 <= i <= 14
    ensures var t := Do(s, Step(TheInit, true)); t.Some? && Releasing(t.value, k, 6, i + 1)
  {
  }

  /** One step of the release. */
  lemma ReleaseGoesOn(s: State, k: nat, a: nat, i: nat) returns (who: Process, b: nat, j: nat)
    requires Releasing(s, k, a, i)
    requires InTurn(a, i) && i <= 14
    ensures who == TheInit || who == TheStarter(k)
    ensures b + j == a + i + 1
    ensures InTurn(b, j)
    ensures Do(s, Step(who, true)).Some? && Releasing(Do(s, Step(who, true)).value, k, b, j)
  {
    if a <= 2 {
      StarterEntersPipe(s, k, a);
    } else if a == 3 && i == 8 {
      InitJoins(s, k);
    } else if a == 3 {
      StarterJoins(s, k);
    } else if a == 4 && i == 9 {
      InitSeesTheReader(s, k);
    } else if a == 4 && i == 10 {
      InitWritesByte(s, k);
    } else if a == 4 {
      StarterGetsByte(s, k);
    } else if a == 5 {
      StarterRemovesPipe(s, k);
    } else if i == 11 {
      InitCloses(s, k);
    } else {
      InitGoesOn(s, k, i);
    }
    var turn := a <= 2 || (a == 3 && i == 9) || (i == 11 && a <= 5);
    who, b, j := if turn then TheStarter(k) else TheInit, if turn then a + 1 else a, if turn then i else i + 1;
  }

  lemma {:induction false} ReleaseRunsOn(s: State, k: nat, a: nat, i: nat) returns (actions: seq<Action>)
    requires Releasing(s, k, a, i)
    requires InTurn(a, i)
    ensures forall x | x in actions :: x == Step(TheInit, true) || x == Step(TheStarter(k), true)
    ensures After(s, actions).Some? && Releasing(After(s, actions).value, k, 6, 15)
    decreases 21 - a - i
  {
    if i == 15 {
      actions := [];
    } else {
      var who, b, j := ReleaseGoesOn(s, k, a, i);
      var t := Do(s, Step(who, true)).value;
      var rest := ReleaseRunsOn(t, k, b, j);
      actions := [Step(who, true)] + rest;
      assert actions[1..] == rest;
    }
  }

  /** From a created container whose init is about to open the pipe and is not frozen, a start that nobody
      disturbs succeeds: it and the init alone lead to the program. */
  lemma StartSucceeds(s: State, k: nat) returns (actions: seq<Action>)
    requires k < |s.starters| && s.starters[k].at.Load?
    requires s.r.ReturnedOk? && s.saved && s.fifoPresent && s.i.ParkJoin? && !Halted(s)
    ensures forall x | x in actions :: x == Step(TheInit, true) || x == Step(TheStarter(k), true)
    ensures After(s, actions).Some?
    ensures var t := After(s, actions).value;
            k < |t.starters| && t.starters[k].at.Started? && t.i.RunningProgram? && t.built.executed
  {
    actions := ReleaseRunsOn(s, k, 0, 8);
  }

  // ---- What a closed pipe holds -----------------------------------------------------------------------------

  /** A pipe of which no end is open holds no byte. */
  ghost predicate NothingStale(s: State) {
    !AnyReader(s) && !WriterOpen(s.i) ==> s.pipe.buffered == 0
  }

  lemma SettledHoldsNothing(s: State)
    ensures NothingStale(Settle(s))
  {
  }

  /** Whoever leaves the bytes and both kinds of ends alone, or opens one, leaves nothing stale. */
  lemma NothingStaleLater(s: State, t: State)
    requires NothingStale(s) && t.pipe.buffered == s.pipe.buffered
    requires AnyReader(s) ==> AnyReader(t)
    requires WriterOpen(s.i) ==> WriterOpen(t.i)
    ensures NothingStale(t)
  {
  }

  lemma ReceivingLeavesThePipe(s: State, ok: bool, t: State)
    requires Place(s.r) <= 3 && ReceivePid(s, ok) == Some(t)
    ensures t.pipe.buffered == s.pipe.buffered && t.i == s.i && t.starters == s.starters
  {
  }

  lemma PlacingLeavesThePipe(s: State, ok: bool, t: State)
    requires 4 <= Place(s.r) <= 8 && PlaceInit(s, ok) == Some(t)
    ensures t.pipe.buffered == s.pipe.buffered && t.i == s.i && t.starters == s.starters
  {
  }

  lemma RecordingLeavesThePipe(s: State, ok: bool, t: State)
    requires 9 <= Place(s.r) <= 12 && RecordState(s, ok) == Some(t)
    ensures t.pipe.buffered == s.pipe.buffered && t.i == s.i && t.starters == s.starters
  {
  }

  lemma KillingSettlesThePipe(s: State, ok: bool, t: State)
    requires s.r.KillMembers? && WayOut(s, ok) == Some(t) && NothingStale(s)
    ensures NothingStale(t)
  {
    if ok && s.rec.attached && !s.i.Unborn? {
      SettledHoldsNothing(s.(r := Drain(250), i := InitGone));
    } else {
      NothingStaleLater(s, t);
    }
  }

  lemma LeavingLeavesThePipe(s: State, ok: bool, t: State)
    requires Place(s.r) >= 20 && !s.r.KillMembers? && WayOut(s, ok) == Some(t)
    ensures t.pipe.buffered == s.pipe.buffered && t.i == s.i && t.starters == s.starters
  {
  }

  lemma RuntimeKeepsNothingStale(s: State, ok: bool, t: State)
    requires NothingStale(s) && StepRuntime(s, ok) == Some(t)
    ensures NothingStale(t)
  {
    if s.r.KillMembers? {
      KillingSettlesThePipe(s, ok, t);
    } else {
      if Place(s.r) <= 3 {
        ReceivingLeavesThePipe(s, ok, t);
      } else if Place(s.r) <= 8 {
        PlacingLeavesThePipe(s, ok, t);
      } else if Place(s.r) <= 12 {
        RecordingLeavesThePipe(s, ok, t);
      } else {
        LeavingLeavesThePipe(s, ok, t);
      }
      NothingStaleLater(s, t);
    }
  }

  lemma IntermediateKeepsNothingStale(s: State, ok: bool, t: State)
    requires Inv(s) && NothingStale(s) && StepIntermediate(s, ok) == Some(t)
    ensures NothingStale(t)
  {
    IntermediateKeepsInv(s, ok, t);
    if PlaceM(s.m) <= 2 {
      PreparingLeavesThePipe(s, ok, t);
    } else {
      ForkingLeavesThePipe(s, ok, t);
    }
    RequestIsAskedFor(s);
    NothingStaleLater(s, t);
  }

  lemma PreparingLeavesThePipe(s: State, ok: bool, t: State)
    requires Prepare(s, ok) == Some(t)
    ensures t.pipe.buffered == s.pipe.buffered
  {
  }

  lemma ForkingLeavesThePipe(s: State, ok: bool, t: State)
    requires ForkTheInit(s, ok) == Some(t)
    ensures t.pipe.buffered == s.pipe.buffered
  {
  }

  lemma BuildingLeavesThePipe(s: State, ok: bool, t: State)
    requires Build(s, ok) == Some(t)
    ensures t.pipe.buffered == s.pipe.buffered && !WriterOpen(s.i) && t.starters == s.starters
  {
  }

  lemma GettingReadyLeavesThePipe(s: State, ok: bool, t: State)
    requires GetReady(s, ok) == Some(t)
    ensures t.pipe.buffered == s.pipe.buffered && !WriterOpen(s.i) && t.starters == s.starters
  {
  }

  lemma LaunchingLeavesThePipe(s: State, ok: bool, t: State)
    requires Launch(s, ok) == Some(t)
    ensures t.pipe.buffered == s.pipe.buffered && !WriterOpen(s.i) && t.starters == s.starters
  {
  }

  lemma OpeningLeavesThePipe(s: State, ok: bool, t: State)
    requires (s.i.ParkJoin? || s.i.ParkWait?) && Park(s, ok) == Some(t)
    ensures t.pipe.buffered == s.pipe.buffered && t.starters == s.starters
    ensures WriterOpen(s.i) ==> WriterOpen(t.i)
  {
  }

  lemma WritingSettlesThePipe(s: State, ok: bool, t: State)
    requires (s.i.ParkWrite? || s.i.ParkClose?) && Park(s, ok) == Some(t)
    ensures NothingStale(t)
  {
    if s.i.ParkClose? {
      ParkCloses(s, ok);
      SettledHoldsNothing(s.(i := StartHooks));
    } else if !(ok && AnyReader(s)) {
      SettledHoldsNothing(s.(i := InitReport));
    }
  }

  lemma InitKeepsNothingStale(s: State, ok: bool, t: State)
    requires NothingStale(s) && StepInit(s, ok) == Some(t)
    ensures NothingStale(t)
  {
    if s.i.ParkWrite? || s.i.ParkClose? {
      WritingSettlesThePipe(s, ok, t);
    } else {
      if PlaceI(s.i) <= 4 {
        BuildingLeavesThePipe(s, ok, t);
      } else if PlaceI(s.i) <= 7 {
        GettingReadyLeavesThePipe(s, ok, t);
      } else if PlaceI(s.i) <= 11 {
        OpeningLeavesThePipe(s, ok, t);
      } else {
        LaunchingLeavesThePipe(s, ok, t);
      }
      NothingStaleLater(s, t);
    }
  }

  lemma EnteringLeavesThePipe(s: State, k: nat, ok: bool, t: State)
    requires k < |s.starters| && StepStarter(s, k, ok) == Some(t) && PlaceS(s.starters[k].at) <= 1
    ensures t.pipe.buffered == s.pipe.buffered && t.i == s.i && |t.starters| == |s.starters|
    ensures t.starters == s.starters[k := t.starters[k]] && !ReaderOpen(s.starters[k])
  {
  }

  lemma JoiningLeavesThePipe(s: State, k: nat, ok: bool, t: State)
    requires k < |s.starters| && StepStarter(s, k, ok) == Some(t)
    requires s.starters[k].at.OpenPath? || s.starters[k].at.Opening?
    ensures t.pipe.buffered == s.pipe.buffered && t.i == s.i && |t.starters| == |s.starters|
    ensures t.starters == s.starters[k := t.starters[k]]
    ensures ReaderOpen(s.starters[k]) ==> ReaderOpen(t.starters[k])
  {
  }

  lemma ReadersStay(s: State, k: nat, t: State)
    requires k < |s.starters| == |t.starters| && t.starters == s.starters[k := t.starters[k]]
    requires ReaderOpen(s.starters[k]) ==> ReaderOpen(t.starters[k])
    ensures AnyReader(s) ==> AnyReader(t)
  {
    if AnyReader(s) {
      var j :| 0 <= j < |s.starters| && ReaderOpen(s.starters[j]);
      assert ReaderOpen(t.starters[j]);
    }
  }

  lemma ReadingSettlesThePipe(s: State, k: nat, ok: bool, t: State)
    requires k < |s.starters| && StepStarter(s, k, ok) == Some(t) && s.starters[k].at.Read?
    ensures NothingStale(t)
  {
    if ok && s.pipe.buffered > 0 {
      assert ReaderOpen(t.starters[k]);
    } else {
      SettledHoldsNothing(Move(s, k, Refused));
    }
  }

  lemma UnlinkingSettlesThePipe(s: State, k: nat, ok: bool, t: State)
    requires k < |s.starters| && StepStarter(s, k, ok) == Some(t) && s.starters[k].at.Unlink?
    ensures NothingStale(t)
  {
    if ok && s.fifoPresent {
      SettledHoldsNothing(Move(s, k, Started).(fifoPresent := false));
    } else {
      SettledHoldsNothing(Move(s, k, Refused));
    }
  }

  lemma StarterKeepsNothingStale(s: State, k: nat, ok: bool, t: State)
    requires NothingStale(s) && k < |s.starters| && StepStarter(s, k, ok) == Some(t)
    ensures NothingStale(t)
  {
    match s.starters[k].at
    case Load | CheckPath =>
      EnteringLeavesThePipe(s, k, ok, t);
      ReadersStay(s, k, t);
      NothingStaleLater(s, t);
    case OpenPath | Opening(_) =>
      JoiningLeavesThePipe(s, k, ok, t);
      ReadersStay(s, k, t);
      NothingStaleLater(s, t);
    case Read => ReadingSettlesThePipe(s, k, ok, t);
    case _ => UnlinkingSettlesThePipe(s, k, ok, t);
  }

  lemma KillKeepsNothingStale(s: State, who: Process, t: State)
    requires NothingStale(s) && KillProcess(s, who) == Some(t)
    ensures NothingStale(t)
  {
    match who
    case TheInit => SettledHoldsNothing(s.(i := InitGone));
    case TheStarter(k) => SettledHoldsNothing(Move(s, k, StarterKilled));
    case _ => NothingStaleLater(s, t);
  }

  lemma DoKeepsNothingStale(s: State, a: Action, t: State)
    requires Inv(s) && NothingStale(s) && Do(s, a) == Some(t)
    ensures NothingStale(t)
  {
    match a
    case Kill(who) => KillKeepsNothingStale(s, who, t);
    case Step(TheRuntime, ok) => RuntimeKeepsNothingStale(s, ok, t);
    case Step(TheIntermediate, ok) => IntermediateKeepsNothingStale(s, ok, t);
    case Step(TheInit, ok) => InitKeepsNothingStale(s, ok, t);
    case Step(TheStarter(k), ok) => StarterKeepsNothingStale(s, k, ok, t);
  }

  lemma {:induction false} RunKeepsNothingStale(s: State, actions: seq<Action>)
    requires Inv(s) && NothingStale(s) && After(s, actions).Some?
    ensures NothingStale(After(s, actions).value)
    decreases |actions|
  {
    if actions != [] {
      var t := Do(s, actions[0]).value;
      DoKeepsInv(s, actions[0], t);
      DoKeepsNothingStale(s, actions[0], t);
      RunKeepsNothingStale(t, actions[1..]);
    }
  }

  /** A byte that nobody holds an end for is lost: in no reachable state does a pipe without an open end hold
      one, so no later start finds what an earlier one left. */
  lemma AClosedPipeIsEmpty(s: State)
    requires Reachable(s) && !AnyReader(s) && !WriterOpen(s.i)
    ensures s.pipe.buffered == 0
  {
    var s0, actions :| Initial(s0) && After(s0, actions) == Some(s);
    InvInitially(s0);
    RunKeepsNothingStale(s0, actions);
  }
}
