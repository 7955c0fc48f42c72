/** Runs of the create/start protocol that show that what is not promised does happen. */
module ProtocolWitness {
  import opened Wrappers
  import opened Protocol
  import opened ProtocolInvariant
  import opened ProtocolFailure
  import opened ProtocolProgress

  // ---- Reaching a state step by step -------------------------------------------------------------------

  lemma {:induction false} AfterOneMore(s: State, actions: seq<Action>, a: Action)
    requires After(s, actions).Some?
    ensures After(s, actions + [a]) == Do(After(s, actions).value, a)
    decreases |actions|
  {
    if actions == [] {
      assert [a][1..] == [] && [] + [a] == [a];
    } else {
      assert (actions + [a])[1..] == actions[1..] + [a];
      AfterOneMore(Do(s, actions[0]).value, actions[1..], a);
    }
  }

  lemma OneMoreStep(s: State, a: Action, t: State)
    requires Reachable(s) && Do(s, a) == Some(t)
    ensures Reachable(t)
  {
    var s0, actions :| Initial(s0) && After(s0, actions) == Some(s);
    AfterOneMore(s0, actions, a);
    assert After(s0, actions + [a]) == Some(t);
  }

  lemma RuntimeReceives(s: State, t: State)
    requires Reachable(s) && Place(s.r) <= 3 && ReceivePid(s, true) == Some(t)
    ensures Reachable(t)
  {
    OneMoreStep(s, Step(TheRuntime, true), t);
  }

  lemma RuntimePlaces(s: State, t: State)
    requires Reachable(s) && 4 <= Place(s.r) <= 8 && PlaceInit(s, true) == Some(t)
    ensures Reachable(t)
  {
    OneMoreStep(s, Step(TheRuntime, true), t);
  }

  lemma RuntimeRecords(s: State, ok: bool, t: State)
    requires Reachable(s) && 9 <= Place(s.r) <= 12 && RecordState(s, ok) == Some(t)
    ensures Reachable(t)
  {
    OneMoreStep(s, Step(TheRuntime, ok), t);
  }

  lemma RuntimeGivesUp(s: State, t: State)
    requires Reachable(s) && Place(s.r) >= 20 && WayOut(s, false) == Some(t)
    ensures Reachable(t)
  {
    OneMoreStep(s, Step(TheRuntime, false), t);
  }

  lemma IntermediateSteps(s: State, t: State)
    requires Reachable(s) && StepIntermediate(s, true) == Some(t)
    ensures Reachable(t)
  {
    OneMoreStep(s, Step(TheIntermediate, true), t);
  }

  lemma InitBuilds(s: State, t: State)
    requires Reachable(s) && !Halted(s) && PlaceI(s.i) <= 4 && Build(s, true) == Some(t)
    ensures Reachable(t)
  {
    OneMoreStep(s, Step(TheInit, true), t);
  }

  lemma InitGetsReady(s: State, t: State)
    requires Reachable(s) && !Halted(s) && 5 <= PlaceI(s.i) <= 7 && GetReady(s, true) == Some(t)
    ensures Reachable(t)
  {
    OneMoreStep(s, Step(TheInit, true), t);
  }

  lemma InitParks(s: State, t: State)
    requires Reachable(s) && !Halted(s) && 8 <= PlaceI(s.i) <= 11 && Park(s, true) == Some(t)
    ensures Reachable(t)
  {
    OneMoreStep(s, Step(TheInit, true), t);
  }

  lemma StarterSteps(s: State, k: nat, t: State)
    requires Reachable(s) && k < |s.starters| && StepStarter(s, k, true) == Some(t)
    ensures Reachable(t)
  {
    OneMoreStep(s, Step(TheStarter(k), true), t);
  }

  // ---- A container that is ready to start ----------------------------------------------------------------

  /** A bundle without namespaces, a cgroup that may be frozen, and any releasers. */
  function Forked(ps: seq<Starter>, frozen: bool): State {
    State(Config(false, false, false, frozen), RecvFirst, Setup, Unborn, 1, 0, 0, [], [], true, false,
          Uplink(false, false, false, false, false), Downlink(false, false, false, false),
          Record(false, false, false, false, false), Missed(false, false), Built(false, false, false, false),
          false, false, Pipe(0, 0, 0, 0, 0), ps)
  }

  predicate AllAtLoad(ps: seq<Starter>) {
    forall k | 0 <= k < |ps| :: ps[k].at == Load
  }

  function PidSent(ps: seq<Starter>, frozen: bool): State {
    Forked(ps, frozen).(m := Gone, i := AwaitApplied, toParent := [InitPid(1)],
                        up := Uplink(false, false, true, false, false))
  }

  lemma ReachPidSent(ps: seq<Starter>, frozen: bool)
    requires AllAtLoad(ps)
    ensures Reachable(PidSent(ps, frozen))
  {
    var s := Forked(ps, frozen);
    assert After(s, []) == Some(s);
    var s1 := s.(m := ForkInit);
    var s2 := s1.(m := SendPid, i := AwaitApplied);
    assert [] + [InitPid(1)] == [InitPid(1)];
    var s3 := s2.(m := Leave, toParent := [InitPid(1)], up := Uplink(false, false, true, false, false));
    IntermediateSteps(s, s1);
    IntermediateSteps(s1, s2);
    IntermediateSteps(s2, s3);
    IntermediateSteps(s3, PidSent(ps, frozen));
  }

  function Placed(ps: seq<Starter>, frozen: bool): State {
    PidSent(ps, frozen).(r := ExpectReady, adopted := 1, toParent := [], toChild := [CgroupApplied(1)],
                 rec := Record(true, true, false, false, false), down := Downlink(false, false, true, false))
  }

  lemma ReachPlaced(ps: seq<Starter>, frozen: bool)
    requires AllAtLoad(ps)
    ensures Reachable(Placed(ps, frozen))
  {
    ReachPidSent(ps, frozen);
    var s := PidSent(ps, frozen);
    var s1 := s.(r := Reap, adopted := 1, toParent := []);
    var s2 := s1.(r := Attach);
    var s3 := s2.(r := Prestart, rec := Record(true, false, false, false, false));
    var s4 := s3.(r := CreateRuntime);
    var s5 := s4.(r := SendApplied, rec := Record(true, true, false, false, false));
    assert s.toParent[1..] == [];
    RuntimeReceives(s, s1);
    RuntimePlaces(s1, s2);
    RuntimePlaces(s2, s3);
    RuntimePlaces(s3, s4);
    RuntimePlaces(s4, s5);
    assert [] + [CgroupApplied(1)] == [CgroupApplied(1)];
    RuntimePlaces(s5, Placed(ps, frozen));
  }

  /** The second deadlock happens: nobody fails and nobody is killed, but the cgroup is frozen. */
  lemma FrozenDeadlockHappens(ps: seq<Starter>)
    requires AllAtLoad(ps)
    ensures var s := Placed(ps, true); Reachable(s) && Stuck(s) && !s.pidLost && WaitingForAFrozenInit(s)
  {
    ReachPlaced(ps, true);
    DeadlockExactly(Placed(ps, true));
  }

  function Ready(ps: seq<Starter>): State {
    Placed(ps, false).(i := ParkJoin, hostPid := 1, toChild := [], toParent := [InitReady],
                down := Downlink(false, false, true, true), up := Uplink(false, false, true, true, false))
  }

  lemma ReachReady(ps: seq<Starter>)
    requires AllAtLoad(ps)
    ensures Reachable(Ready(ps))
  {
    ReachPlaced(ps, false);
    var s := Placed(ps, false);
    var s1 := s.(i := UnshareCgroup, hostPid := 1, toChild := [], down := Downlink(false, false, true, true));
    var s2 := s1.(i := ContainerHooks);
    var s3 := s2.(i := Secure);
    var s4 := s3.(i := SendReady);
    assert s.toChild[1..] == [];
    InitBuilds(s, s1);
    InitBuilds(s1, s2);
    InitBuilds(s2, s3);
    InitGetsReady(s3, s4);
    assert [] + [InitReady] == [InitReady];
    InitGetsReady(s4, Ready(ps));
  }

  /** The state is saved, the pid file is not written yet, and the init is about to park. */
  function Saved(ps: seq<Starter>): State {
    Ready(ps).(r := WritePidFile, toParent := [], saved := true, rec := Record(true, true, true, true, false))
  }

  lemma ReachSaved(ps: seq<Starter>)
    requires AllAtLoad(ps)
    ensures Reachable(Saved(ps))
  {
    ReachReady(ps);
    var s := Ready(ps);
    var s1 := s.(r := ReadStartTime, toParent := [], rec := Record(true, true, true, false, false));
    var s2 := s1.(r := Save);
    assert s.toParent[1..] == [];
    RuntimeRecords(s, true, s1);
    RuntimeRecords(s1, true, s2);
    RuntimeRecords(s2, true, Saved(ps));
  }

  // ---- A create that fails and whose program runs nevertheless --------------------------------------------

  /** The pid file could not be written, and no part of the cleanup worked. */
  function NothingCleanedUp(ps: seq<Starter>): State {
    Saved(ps).(r := ReturnedErr, rec := Record(true, true, true, true, true), missed := Missed(true, true))
  }

  lemma ReachGivingUp(ps: seq<Starter>)
    requires AllAtLoad(ps)
    ensures Reachable(Saved(ps).(r := KillMembers, rec := Record(true, true, true, true, true)))
  {
    ReachSaved(ps);
    var s := Saved(ps);
    var s1 := s.(r := RemoveFifo, rec := Record(true, true, true, true, true));
    RuntimeRecords(s, false, s1);
    RuntimeGivesUp(s1, s1.(r := KillMembers));
  }

  lemma ReachUnkilled(ps: seq<Starter>)
    requires AllAtLoad(ps)
    ensures Reachable(NothingCleanedUp(ps).(r := DestroyCgroup, missed := Missed(true, false)))
  {
    ReachGivingUp(ps);
    var s2 := Saved(ps).(r := KillMembers, rec := Record(true, true, true, true, true));
    var s3 := s2.(r := Drain(250), missed := Missed(true, false));
    RuntimeGivesUp(s2, s3);
    RuntimeGivesUp(s3, s3.(r := DestroyCgroup));
  }

  lemma ReachNothingCleanedUp(ps: seq<Starter>)
    requires AllAtLoad(ps)
    ensures Reachable(NothingCleanedUp(ps))
  {
    ReachUnkilled(ps);
    var s4 := NothingCleanedUp(ps).(r := DestroyCgroup, missed := Missed(true, false));
    RuntimeGivesUp(s4, s4.(r := RemoveDir));
    RuntimeGivesUp(s4.(r := RemoveDir), NothingCleanedUp(ps));
  }

  lemma StartMayStillOpen()
    ensures CanStillRun(NothingCleanedUp([Starter(StartCommand, Load)]))
  {
    var s := NothingCleanedUp([Starter(StartCommand, Load)]);
    assert s.starters[0] == Starter(StartCommand, Load) && s.fifoPresent && s.saved && s.i == ParkJoin;
    assert MayOpen(s.starters[0], s.saved);
  }

  /** The failure happens: create has returned an error, nobody ever opened the pipe, and a `start` that
      comes only now still runs the program. */
  lemma FailedCreateRuns()
    ensures var s := NothingCleanedUp([Starter(StartCommand, Load)]);
            && Reachable(s) && s.r == ReturnedErr && !s.built.executed && s.pipe.readerOpens == 0
            && SomeRunExecutes(s)
  {
    ReachNothingCleanedUp([Starter(StartCommand, Load)]);
    StartMayStillOpen();
    FailedCreateRunsExactly(NothingCleanedUp([Starter(StartCommand, Load)]));
  }

  // ---- A start to which no writer comes -------------------------------------------------------------------

  function Two(first: StarterAt, second: StarterAt): seq<Starter> {
    [Starter(StartCommand, first), Starter(StartCommand, second)]
  }

  /** Two starts of a container whose init is at `i`. */
  function Pair(first: StarterAt, second: StarterAt, i: Init, pipe: Pipe): State {
    Saved(Two(first, second)).(i := i, pipe := pipe)
  }

  function Opened(s: State, k: nat): State
    requires k < |s.starters|
  {
    Move(s, k, Opening(s.pipe.writerOpens)).(pipe := s.pipe.(readerOpens := s.pipe.readerOpens + 1))
  }

  lemma Loads(s: State, k: nat)
    requires Reachable(s) && k < |s.starters| && s.starters[k] == Starter(StartCommand, Load)
    requires s.saved && s.fifoPresent
    ensures Reachable(Move(s, k, CheckPath))
  {
    StarterSteps(s, k, Move(s, k, CheckPath));
  }

  lemma Checks(s: State, k: nat)
    requires Reachable(s) && k < |s.starters| && s.starters[k].at == CheckPath && s.fifoPresent
    ensures Reachable(Move(s, k, OpenPath))
  {
    StarterSteps(s, k, Move(s, k, OpenPath));
  }

  lemma Opens(s: State, k: nat)
    requires Reachable(s) && k < |s.starters| && s.starters[k].at == OpenPath && s.fifoPresent
    ensures Reachable(Opened(s, k))
  {
    StarterSteps(s, k, Opened(s, k));
  }

  lemma MovesOver(s: State, k: nat, at: StarterAt)
    requires k < |s.starters|
    ensures Opened(Move(s, k, at), k) == Opened(s, k)
    ensures Move(Move(s, k, at), k, OpenPath) == Move(s, k, OpenPath)
  {
    assert s.starters[k := s.starters[k].(at := at)][k := s.starters[k].(at := OpenPath)]
           == s.starters[k := s.starters[k].(at := OpenPath)];
  }

  /** A start finds the container created and opens the pipe. */
  lemma StartOpens(s: State, k: nat)
    requires Reachable(s) && k < |s.starters| && s.starters[k] == Starter(StartCommand, Load)
    requires s.saved && s.fifoPresent
    ensures Reachable(Opened(s, k))
  {
    Loads(s, k);
    Checks(Move(s, k, CheckPath), k);
    MovesOver(s, k, CheckPath);
    Opens(Move(s, k, OpenPath), k);
    MovesOver(s, k, OpenPath);
  }

  lemma FirstOfPairOpens(at: StarterAt, i: Init, pipe: Pipe)
    ensures Opened(Pair(Load, at, i, pipe), 0)
            == Pair(Opening(pipe.writerOpens), at, i, pipe.(readerOpens := pipe.readerOpens + 1))
  {
    var opening := Starter(StartCommand, Opening(pipe.writerOpens));
    assert Two(Load, at)[0 := opening] == Two(Opening(pipe.writerOpens), at);
  }

  lemma SecondOfPairOpens(at: StarterAt, i: Init, pipe: Pipe)
    ensures Opened(Pair(at, Load, i, pipe), 1)
            == Pair(at, Opening(pipe.writerOpens), i, pipe.(readerOpens := pipe.readerOpens + 1))
  {
    var opening := Starter(StartCommand, Opening(pipe.writerOpens));
    assert Two(at, Load)[1 := opening] == Two(at, Opening(pipe.writerOpens));
  }

  lemma ReachPair()
    ensures Reachable(Pair(Load, Load, ParkJoin, Pipe(0, 0, 0, 0, 0)))
  {
    ReachSaved(Two(Load, Load));
    assert Saved(Two(Load, Load)) == Pair(Load, Load, ParkJoin, Pipe(0, 0, 0, 0, 0));
  }

  /** With the first start on the pipe, the init opens its end and finds the reader, */
  lemma InitOpens(second: StarterAt)
    requires Reachable(Pair(Opening(0), second, ParkJoin, Pipe(0, 0, 0, 1, 0)))
    ensures Reachable(Pair(Opening(0), second, ParkWrite, Pipe(0, 0, 0, 1, 1)))
  {
    var s1 := Pair(Opening(0), second, ParkWait(1), Pipe(0, 0, 0, 1, 1));
    assert ReaderOpen(s1.starters[0]);
    InitParks(Pair(Opening(0), second, ParkJoin, Pipe(0, 0, 0, 1, 0)), s1);
    InitParks(s1, Pair(Opening(0), second, ParkWrite, Pipe(0, 0, 0, 1, 1)));
  }

  lemma Writes(s: State)
    requires Reachable(s) && !Halted(s) && s.i.ParkWrite? && AnyReader(s)
    ensures Reachable(s.(i := ParkClose,
                         pipe := s.pipe.(written := s.pipe.written + 1, buffered := s.pipe.buffered + 1)))
  {
    InitParks(s, s.(i := ParkClose,
                    pipe := s.pipe.(written := s.pipe.written + 1, buffered := s.pipe.buffered + 1)));
  }

  lemma Closes(s: State)
    requires Reachable(s) && !Halted(s) && s.i.ParkClose? && AnyReader(s)
    ensures Reachable(s.(i := StartHooks))
  {
    assert AnyReader(s.(i := StartHooks)) by {
      var k :| 0 <= k < |s.starters| && ReaderOpen(s.starters[k]);
      assert ReaderOpen(s.(i := StartHooks).starters[k]);
    }
    InitParks(s, s.(i := StartHooks));
  }

  /** writes and closes. */
  lemma InitWritesAndCloses(second: StarterAt)
    requires Reachable(Pair(Opening(0), second, ParkWrite, Pipe(0, 0, 0, 1, 1)))
    ensures Reachable(Pair(Opening(0), second, StartHooks, Pipe(1, 1, 0, 1, 1)))
  {
    var s := Pair(Opening(0), second, ParkWrite, Pipe(0, 0, 0, 1, 1));
    assert ReaderOpen(s.starters[0]);
    Writes(s);
    var t := Pair(Opening(0), second, ParkClose, Pipe(1, 1, 0, 1, 1));
    assert ReaderOpen(t.starters[0]);
    Closes(t);
  }

  lemma FirstOpensEarly()
    ensures Reachable(Pair(Opening(0), Load, ParkJoin, Pipe(0, 0, 0, 1, 0)))
  {
    ReachPair();
    StartOpens(Pair(Load, Load, ParkJoin, Pipe(0, 0, 0, 0, 0)), 0);
    FirstOfPairOpens(Load, ParkJoin, Pipe(0, 0, 0, 0, 0));
  }

  lemma ReachBothOpen()
    ensures Reachable(Pair(Opening(0), Opening(1), StartHooks, Pipe(1, 1, 0, 2, 1)))
  {
    FirstOpensEarly();
    InitOpens(Load);
    InitWritesAndCloses(Load);
    StartOpens(Pair(Opening(0), Load, StartHooks, Pipe(1, 1, 0, 1, 1)), 1);
    SecondOfPairOpens(Opening(0), StartHooks, Pipe(1, 1, 0, 1, 1));
  }

  /** It happens: while the first start has yet to read and unlink, a second one opens the pipe, and waits
      for ever. */
  lemma LateStartHappens()
    ensures var s := Pair(Opening(0), Opening(1), StartHooks, Pipe(1, 1, 0, 2, 1));
            Reachable(s) && NoWriterToCome(s, 1)
  {
    ReachBothOpen();
  }

  /** And so does this: a start opens the pipe of a ready container whose init is then killed before it
      gets to its own end. */
  lemma StartOfADyingInitHappens()
    ensures var s := Pair(Opening(0), Load, InitGone, Pipe(0, 0, 0, 1, 0));
            Reachable(s) && NoWriterToCome(s, 0) && s.pipe.writerOpens == 0
  {
    FirstOpensEarly();
    var s := Pair(Opening(0), Load, ParkJoin, Pipe(0, 0, 0, 1, 0));
    var t := Pair(Opening(0), Load, InitGone, Pipe(0, 0, 0, 1, 0));
    assert ReaderOpen(t.starters[0]);
    assert KillProcess(s, TheInit) == Some(t);
    OneMoreStep(s, Kill(TheInit), t);
  }
}
