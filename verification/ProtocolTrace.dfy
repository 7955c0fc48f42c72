/** What a run has behind it. A step that fails leaves the straight way, and a process that is still on it
    has taken every step of it in order, with success. */
module ProtocolTrace {
  import opened Wrappers
  import opened Protocol
  import opened ProtocolInvariant
  import opened ProtocolSafety

  // ---- A failed step leaves the straight way --------------------------------------------------------------

  /** The runtime gives up on every failure up to the pid file, except that a send depends on its peer
      alone. */
  lemma RuntimeFailureGivesUp(s: State, t: State)
    requires Place(s.r) <= 12 && Do(s, Step(TheRuntime, false)) == Some(t)
    ensures if s.r.SendMapped? || s.r.SendApplied? then t.r == RemoveFifo <==> !ChildEndOpen(s) else t.r == RemoveFifo
  {
  }

  /** The intermediate reports every failure, except that a send depends on its peer alone. */
  lemma IntermediateFailureReports(s: State, t: State)
    requires PlaceM(s.m) <= 5 && Do(s, Step(TheIntermediate, false)) == Some(t)
    ensures if s.m.Request? || s.m.SendPid? then t.m == Report <==> RuntimeClosed(s.r) else t.m == Report
    ensures t.i == s.i
  {
  }

  /** The init reports every failure up to the program, except of what cannot fail: a cgroup namespace that
      is not asked for, a send to an open peer, the wait for a reader, and the closing of the pipe. */
  lemma InitFailureReports(s: State, t: State)
    requires 1 <= PlaceI(s.i) <= 14 && Do(s, Step(TheInit, false)) == Some(t)
    ensures if (s.i.UnshareCgroup? && !s.cfg.cgroupNs) || s.i.ParkWait? || s.i.ParkClose? then t.i != InitReport
            else if s.i.SendReady? then t.i == InitReport <==> RuntimeClosed(s.r)
            else t.i == InitReport
  {
    if PlaceI(s.i) <= 7 { BuildingFailureReports(s, t); }
  }

  lemma BuildingFailureReports(s: State, t: State)
    requires 1 <= PlaceI(s.i) <= 7 && Do(s, Step(TheInit, false)) == Some(t)
    ensures if s.i.UnshareCgroup? && !s.cfg.cgroupNs then t.i != InitReport
            else if s.i.SendReady? then t.i == InitReport <==> RuntimeClosed(s.r)
            else t.i == InitReport
  {
  }

  /** Whoever reports does so to a runtime that is still there, and then exits. */
  lemma ReportsAreSent(s: State, ok: bool)
    requires !RuntimeClosed(s.r)
    ensures s.m.Report? ==>
            var t := Do(s, Step(TheIntermediate, ok));
            t.Some? && t.value.m == Leave && t.value.toParent == s.toParent + [Failed]
    ensures s.i.InitReport? && !Halted(s) ==>
            var t := Do(s, Step(TheInit, ok));
            t.Some? && t.value.i == InitLeave && t.value.toParent == s.toParent + [Failed]
  {
  }

  /** Nothing is sent to a runtime that has returned or has left `spawn`; whoever would send fails instead. */
  lemma NothingIsSentToALeftRuntime(s: State, who: Process, ok: bool, t: State)
    requires (who.TheIntermediate? || who.TheInit?) && Do(s, Step(who, ok)) == Some(t)
    requires s.r.ReturnedOk? || Place(s.r) >= 23
    ensures t.toParent == s.toParent
    ensures who.TheIntermediate? && (s.m.Request? || s.m.SendPid?) ==> t.m == Report
    ensures who.TheInit? && s.i.SendReady? ==> t.i == InitReport
  {
    if who.TheInit? { InitSendsNothing(s, ok, t); }
  }

  lemma InitSendsNothing(s: State, ok: bool, t: State)
    requires StepInit(s, ok) == Some(t) && (s.r.ReturnedOk? || Place(s.r) >= 23)
    ensures t.toParent == s.toParent && (s.i.SendReady? ==> t.i == InitReport)
  {
    if PlaceI(s.i) <= 4 {
      BuildSendsNothing(s, ok, t);
    } else if 8 <= PlaceI(s.i) <= 11 {
      ParkSendsNothing(s, ok, t);
    } else if PlaceI(s.i) >= 12 {
      LaunchSendsNothing(s, ok, t);
    }
  }

  lemma BuildSendsNothing(s: State, ok: bool, t: State)
    requires Build(s, ok) == Some(t)
    ensures t.toParent == s.toParent
  {
  }

  lemma ParkSendsNothing(s: State, ok: bool, t: State)
    requires Park(s, ok) == Some(t)
    ensures t.toParent == s.toParent
  {
  }

  lemma LaunchSendsNothing(s: State, ok: bool, t: State)
    requires Launch(s, ok) == Some(t) && RuntimeClosed(s.r)
    ensures t.toParent == s.toParent
  {
  }

  // ---- The straight ways ----------------------------------------------------------------------------------

  /** One step taken on the way: where, and whether what could fail in it did not. */
  datatype Taken = Taken(place: nat, ok: bool)

  /** 0..5 in the order of a release, 6 when it succeeded, 7 and above after an error. */
  function PlaceS(at: StarterAt): nat {
    match at
    case Load => 0 case CheckPath => 1 case OpenPath => 2 case Opening(_) => 3 case Read => 4 case Unlink => 5
    case Started => 6 case Refused => 7 case StarterKilled => 8
  }

  /** What `who` adds to its trace by an action. */
  function TakenBy(who: Process, s: State, a: Action): seq<Taken> {
    if !a.Step? || a.who != who then []
    else if who.TheRuntime? && Place(s.r) <= 12 then [Taken(Place(s.r), a.ok)]
    else if who.TheIntermediate? && PlaceM(s.m) <= 5 then [Taken(PlaceM(s.m), a.ok)]
    else if who.TheInit? && 1 <= PlaceI(s.i) <= 14 then [Taken(PlaceI(s.i), a.ok)]
    else if who.TheStarter? && who.k < |s.starters| && PlaceS(s.starters[who.k].at) <= 5 then
      [Taken(PlaceS(s.starters[who.k].at), a.ok)]
    else []
  }

  /** The steps of `who` on its way in a run, in order. */
  function StepsOf(who: Process, s: State, actions: seq<Action>): seq<Taken>
    decreases |actions|
  {
    if actions == [] then []
    else
      match Do(s, actions[0])
      case None => []
      case Some(t) => TakenBy(who, s, actions[0]) + StepsOf(who, t, actions[1..])
  }

  /** The places of the runtime: the mapping of users comes only with a user namespace. */
  function RuntimeWay(cfg: Config): seq<nat> {
    if cfg.userNs then [0, 1, 2, 3, 4, 5, 6, 7, 8, 9, 10, 11, 12] else [0, 4, 5, 6, 7, 8, 9, 10, 11, 12]
  }

  function IntermediateWay(cfg: Config): seq<nat> {
    if cfg.userNs then [0, 1, 2, 3, 4, 5] else [0, 4, 5]
  }

  /** Mounts and the pivot come only with a mount namespace. */
  function InitWay(cfg: Config): seq<nat> {
    if cfg.mountNs then [1, 2, 3, 4, 5, 6, 7, 8, 9, 10, 11, 12, 13, 14]
    else [1, 2, 4, 6, 7, 8, 9, 10, 11, 12, 13, 14]
  }

  /** How many steps come before a place, for the runtime and the intermediate. */
  function Before(cfg: Config, place: nat): nat {
    if cfg.userNs || place < 4 then place else place - 3
  }

  function InitBefore(cfg: Config, place: nat): nat
    requires place >= 1
  {
    if cfg.mountNs || place <= 3 then place - 1 else if place <= 5 then 2 else place - 3
  }

  /** What cannot fail although its step is marked so: sends, whose peer alone matters. */
  const RUNTIME_SENDS: set<nat> := {2, 8}
  const INTERMEDIATE_SENDS: set<nat> := {1, 5}

  /** The send, the wait for a reader, the close, and a cgroup namespace that is not asked for. */
  function InitSpared(cfg: Config): set<nat> {
    {7, 9, 11} + (if cfg.cgroupNs then {} else {2})
  }

  /** The trace is the beginning of the way. */
  predicate Follows(h: seq<Taken>, way: seq<nat>) {
    |h| <= |way| && forall k | 0 <= k < |h| :: h[k].place == way[k]
  }

  /** None of the first `n` steps failed. */
  predicate Succeeded(h: seq<Taken>, spared: set<nat>, n: nat) {
    n <= |h| && forall k | 0 <= k < n :: h[k].ok || h[k].place in spared
  }

  /** The trace grows by one step of the way. */
  lemma OneStepMore(h: seq<Taken>, way: seq<nat>, spared: set<nat>, n: nat, taken: Taken)
    requires Follows(h, way) && |h| < |way| && taken.place == way[|h|]
    ensures Follows(h + [taken], way)
    ensures Succeeded(h, spared, n) ==> Succeeded(h + [taken], spared, n)
    ensures Succeeded(h, spared, |h|) && (taken.ok || taken.place in spared) ==>
            Succeeded(h + [taken], spared, |h| + 1)
  {
  }

  // ---- The runtime ----------------------------------------------------------------------------------------

  /** The runtime is where its trace says, and the trace holds what was recorded. */
  ghost predicate RuntimeHistory(s: State, h: seq<Taken>) {
    && Follows(h, RuntimeWay(s.cfg))
    && (Place(s.r) <= 13 ==> |h| == Before(s.cfg, Place(s.r)) && Succeeded(h, RUNTIME_SENDS, |h|))
    && (s.rec.attached ==> Succeeded(h, RUNTIME_SENDS, Before(s.cfg, 6)))
    && (s.rec.hooksOk ==> Succeeded(h, RUNTIME_SENDS, Before(s.cfg, 8)))
    && (s.down.applied ==> Succeeded(h, RUNTIME_SENDS, Before(s.cfg, 9)))
    && (s.rec.everSaved ==> Succeeded(h, RUNTIME_SENDS, Before(s.cfg, 12)))
  }

  /** What a step of the runtime records, and only that step. */
  ghost predicate Records(s: State, ok: bool, t: State) {
    && t.rec.attached == (s.rec.attached || (s.r.Attach? && ok))
    && t.rec.hooksOk == (s.rec.hooksOk || (s.r.CreateRuntime? && ok))
    && t.down.applied == (s.down.applied || (s.r.SendApplied? && ChildEndOpen(s)))
    && t.rec.everSaved == (s.rec.everSaved || (s.r.Save? && ok))
  }

  lemma ReceivingRecords(s: State, ok: bool, t: State)
    requires (s.r.RecvFirst? || s.r.RecvSecond?) && ReceivePid(s, ok) == Some(t)
    ensures Records(s, ok, t)
  {
  }

  lemma MappingRecords(s: State, ok: bool, t: State)
    requires (s.r.WriteMapping? || s.r.SendMapped?) && ReceivePid(s, ok) == Some(t)
    ensures Records(s, ok, t)
  {
  }

  lemma PlacingRecords(s: State, ok: bool, t: State)
    requires (s.r.Reap? || s.r.Attach?) && PlaceInit(s, ok) == Some(t)
    ensures Records(s, ok, t)
  {
  }

  lemma HooksRecord(s: State, ok: bool, t: State)
    requires (s.r.Prestart? || s.r.CreateRuntime? || s.r.SendApplied?) && PlaceInit(s, ok) == Some(t)
    ensures Records(s, ok, t)
  {
  }

  lemma ReadyRecords(s: State, t: State)
    requires s.r.ExpectReady? && RecordState(s, true) == Some(t)
    ensures Records(s, true, t)
  {
    if s.toParent == [] {
      assert t == FailCreate(s);
    } else {
      var u := s.(toParent := s.toParent[1..]);
      assert t.rec == u.rec || t.rec == u.rec.(readyReceived := true);
    }
  }

  lemma NotReadyRecords(s: State, t: State)
    requires s.r.ExpectReady? && RecordState(s, false) == Some(t)
    ensures Records(s, false, t)
  {
  }

  lemma SavingRecords(s: State, ok: bool, t: State)
    requires (s.r.ReadStartTime? || s.r.Save?) && RecordState(s, ok) == Some(t)
    ensures Records(s, ok, t)
  {
  }

  lemma PidFileRecords(s: State, ok: bool, t: State)
    requires s.r.WritePidFile? && RecordState(s, ok) == Some(t)
    ensures Records(s, ok, t)
  {
  }

  lemma KillingRecords(s: State, ok: bool, t: State)
    requires s.r.KillMembers? && WayOut(s, ok) == Some(t)
    ensures Records(s, ok, t) && Place(t.r) >= 20
  {
  }

  lemma DrainRecords(s: State, ok: bool, t: State)
    requires (s.r.RemoveFifo? || s.r.Drain?) && WayOut(s, ok) == Some(t)
    ensures Records(s, ok, t) && Place(t.r) >= 20
  {
  }

  lemma RemovalRecords(s: State, ok: bool, t: State)
    requires (s.r.DestroyCgroup? || s.r.RemoveDir?) && WayOut(s, ok) == Some(t)
    ensures Records(s, ok, t) && Place(t.r) >= 20
  {
  }

  lemma RuntimeRecords(s: State, ok: bool, t: State)
    requires StepRuntime(s, ok) == Some(t)
    ensures Records(s, ok, t)
    ensures Place(s.r) > 12 ==> Place(t.r) >= 20
  {
    match s.r
    case RecvFirst | RecvSecond => ReceivingRecords(s, ok, t);
    case WriteMapping | SendMapped => MappingRecords(s, ok, t);
    case Reap | Attach => PlacingRecords(s, ok, t);
    case Prestart | CreateRuntime | SendApplied => HooksRecord(s, ok, t);
    case ExpectReady => if ok { ReadyRecords(s, t); } else { NotReadyRecords(s, t); }
    case ReadStartTime | Save => SavingRecords(s, ok, t);
    case WritePidFile => PidFileRecords(s, ok, t);
    case KillMembers => KillingRecords(s, ok, t);
    case RemoveFifo | Drain(_) => DrainRecords(s, ok, t);
    case _ => RemovalRecords(s, ok, t);
  }

  /** The next place of the runtime's way. */
  function NextPlace(cfg: Config, place: nat): nat {
    if place == 0 && !cfg.userNs then 4 else place + 1
  }

  lemma ReceivingAdvances(s: State, ok: bool, t: State)
    requires Inv(s) && Place(s.r) <= 3 && ReceivePid(s, ok) == Some(t)
    ensures t.r == RemoveFifo || ((ok || s.r.SendMapped?) && Place(t.r) == NextPlace(s.cfg, Place(s.r)))
  {
    if s.r.RecvFirst? && s.toParent != [] { WaitsForTheRuntime(s); }
  }

  lemma PlacingAdvances(s: State, ok: bool, t: State)
    requires 4 <= Place(s.r) <= 8 && PlaceInit(s, ok) == Some(t)
    ensures t.r == RemoveFifo || ((ok || s.r.SendApplied?) && Place(t.r) == Place(s.r) + 1)
  {
  }

  lemma ReadyAdvances(s: State, ok: bool, t: State)
    requires s.r.ExpectReady? && RecordState(s, ok) == Some(t)
    ensures t.r == RemoveFifo || (ok && t.r == ReadStartTime)
  {
  }

  lemma RecordingAdvances(s: State, ok: bool, t: State)
    requires 10 <= Place(s.r) <= 12 && RecordState(s, ok) == Some(t)
    ensures t.r == RemoveFifo || (ok && Place(t.r) == Place(s.r) + 1)
  {
  }

  /** A step of the runtime leads to the next place of its way, or out. */
  lemma RuntimeAdvances(s: State, ok: bool, t: State)
    requires Inv(s) && Place(s.r) <= 12 && StepRuntime(s, ok) == Some(t)
    ensures t.r == RemoveFifo || ((ok || Place(s.r) in RUNTIME_SENDS) && Place(t.r) == NextPlace(s.cfg, Place(s.r)))
  {
    if Place(s.r) <= 3 {
      ReceivingAdvances(s, ok, t);
    } else if Place(s.r) <= 8 {
      PlacingAdvances(s, ok, t);
    } else if Place(s.r) == 9 {
      ReadyAdvances(s, ok, t);
    } else {
      RecordingAdvances(s, ok, t);
    }
  }

  lemma RuntimeTraceGrows(s: State, t: State, h: seq<Taken>, taken: Taken)
    requires RuntimeHistory(s, h) && Place(s.r) <= 12 && t.cfg == s.cfg && Records(s, taken.ok, t)
    requires taken.place == Place(s.r) && (1 <= taken.place <= 3 ==> s.cfg.userNs)
    requires t.r == RemoveFifo
             || ((taken.ok || Place(s.r) in RUNTIME_SENDS) && Place(t.r) == NextPlace(s.cfg, Place(s.r)))
    requires RuntimeInv(Place(t.r), t.up.pidSent, t.adopted == t.initPid, t.up.requested, t.up.readySent,
                  t.down.mapped, t.down.applied, t.rec)
    ensures RuntimeHistory(t, h + [taken])
  {
    var way := RuntimeWay(s.cfg);
    OneStepMore(h, way, RUNTIME_SENDS, |h|, taken);
  }

  lemma RuntimeStepKeepsHistory(s: State, ok: bool, t: State, h: seq<Taken>)
    requires Inv(s) && RuntimeHistory(s, h) && StepRuntime(s, ok) == Some(t)
    ensures RuntimeHistory(t, h + TakenBy(TheRuntime, s, Step(TheRuntime, ok)))
  {
    RuntimeRecords(s, ok, t);
    RuntimeKeepsInv(s, ok, t);
    if Place(s.r) <= 12 {
      RuntimeAdvances(s, ok, t);
      MappingIsAskedFor(s);
      RuntimeTraceGrows(s, t, h, Taken(Place(s.r), ok));
    } else {
      assert h + [] == h;
    }
  }

  lemma MappingIsAskedFor(s: State)
    requires Inv(s)
    ensures 1 <= Place(s.r) <= 3 ==> s.cfg.userNs
  {
  }

  // ---- The intermediate -----------------------------------------------------------------------------------

  ghost predicate IntermediateHistory(s: State, h: seq<Taken>) {
    && Follows(h, IntermediateWay(s.cfg))
    && (PlaceM(s.m) <= 5 ==> |h| == Before(s.cfg, PlaceM(s.m)) && Succeeded(h, INTERMEDIATE_SENDS, |h|))
    && (!s.i.Unborn? ==> Succeeded(h, INTERMEDIATE_SENDS, Before(s.cfg, 5)))
    && (s.up.pidSent ==> Succeeded(h, INTERMEDIATE_SENDS, Before(s.cfg, 6)))
  }

  /** The one step that forks the init, and the one that sends its pid. */
  ghost predicate Begets(s: State, ok: bool, t: State) {
    && t.i.Unborn? == (s.i.Unborn? && !(s.m.ForkInit? && ok))
    && t.up.pidSent == (s.up.pidSent || (s.m.SendPid? && !RuntimeClosed(s.r)))
  }

  lemma PreparingAdvances(s: State, ok: bool, t: State)
    requires (s.m.Setup? || s.m.Request?) && Prepare(s, ok) == Some(t)
    ensures Begets(s, ok, t)
    ensures t.m == Report || ((ok || s.m.Request?) && PlaceM(t.m) == NextPlace(s.cfg, PlaceM(s.m)))
  {
  }

  lemma MappedAdvances(s: State, ok: bool, t: State)
    requires s.m.AwaitMapped? && Prepare(s, ok) == Some(t)
    ensures Begets(s, ok, t)
    ensures t.m == Report || (ok && PlaceM(t.m) == PlaceM(s.m) + 1)
  {
  }

  lemma ForkingAdvances(s: State, ok: bool, t: State)
    requires (s.m.BecomeRoot? || s.m.ForkInit?) && ForkTheInit(s, ok) == Some(t)
    ensures Begets(s, ok, t)
    ensures t.m == Report || (ok && PlaceM(t.m) == PlaceM(s.m) + 1)
  {
  }

  lemma LeavingAdvances(s: State, ok: bool, t: State)
    requires (s.m.SendPid? || s.m.Report? || s.m.Leave?) && ForkTheInit(s, ok) == Some(t)
    ensures Begets(s, ok, t) && PlaceM(t.m) >= 6
  {
  }

  /** A step of the intermediate leads to the next place of its way, or to its report. */
  lemma IntermediateAdvances(s: State, ok: bool, t: State)
    requires StepIntermediate(s, ok) == Some(t)
    ensures Begets(s, ok, t)
    ensures PlaceM(s.m) >= 5 ==> PlaceM(t.m) >= 6
    ensures PlaceM(s.m) <= 4 ==>
            t.m == Report
            || ((ok || PlaceM(s.m) in INTERMEDIATE_SENDS) && PlaceM(t.m) == NextPlace(s.cfg, PlaceM(s.m)))
  {
    match s.m
    case Setup | Request => PreparingAdvances(s, ok, t);
    case AwaitMapped => MappedAdvances(s, ok, t);
    case BecomeRoot | ForkInit => ForkingAdvances(s, ok, t);
    case _ => LeavingAdvances(s, ok, t);
  }

  lemma IntermediateTraceGrows(s: State, t: State, h: seq<Taken>, taken: Taken)
    requires IntermediateHistory(s, h) && PlaceM(s.m) <= 5 && t.cfg == s.cfg && Begets(s, taken.ok, t)
    requires taken.place == PlaceM(s.m) && (1 <= taken.place <= 3 ==> s.cfg.userNs)
    requires PlaceM(s.m) >= 5 ==> PlaceM(t.m) >= 6
    requires PlaceM(s.m) <= 4 ==>
             t.m == Report
             || ((taken.ok || PlaceM(s.m) in INTERMEDIATE_SENDS) && PlaceM(t.m) == NextPlace(s.cfg, PlaceM(s.m)))
    requires PlaceM(s.m) <= 4 ==> s.i.Unborn?
    ensures IntermediateHistory(t, h + [taken])
  {
    OneStepMore(h, IntermediateWay(s.cfg), INTERMEDIATE_SENDS, |h|, taken);
  }

  lemma RequestIsAskedFor(s: State)
    requires Inv(s)
    ensures 1 <= PlaceM(s.m) <= 3 ==> s.cfg.userNs
    ensures PlaceM(s.m) <= 4 ==> s.i.Unborn?
  {
  }

  lemma IntermediateStepKeepsHistory(s: State, ok: bool, t: State, h: seq<Taken>)
    requires Inv(s) && IntermediateHistory(s, h) && StepIntermediate(s, ok) == Some(t)
    ensures IntermediateHistory(t, h + TakenBy(TheIntermediate, s, Step(TheIntermediate, ok)))
  {
    IntermediateAdvances(s, ok, t);
    IntermediateKeepsInv(s, ok, t);
    if PlaceM(s.m) <= 5 {
      RequestIsAskedFor(s);
      IntermediateTraceGrows(s, t, h, Taken(PlaceM(s.m), ok));
    } else {
      assert h + [] == h;
    }
  }

  // ---- The init -------------------------------------------------------------------------------------------

  ghost predicate InitHistory(s: State, h: seq<Taken>) {
    && Follows(h, InitWay(s.cfg))
    && (s.i.Unborn? ==> h == [])
    && (1 <= PlaceI(s.i) <= 15 ==> |h| == InitBefore(s.cfg, PlaceI(s.i)) && Succeeded(h, InitSpared(s.cfg), |h|))
    && (s.up.readySent ==> Succeeded(h, InitSpared(s.cfg), InitBefore(s.cfg, 8)))
    && (s.built.executed ==> Succeeded(h, InitSpared(s.cfg), InitBefore(s.cfg, 15)))
  }

  /** The one step that reports readiness, and the one that runs the program. */
  ghost predicate Shows(s: State, ok: bool, t: State) {
    && t.up.readySent == (s.up.readySent || (s.i.SendReady? && !RuntimeClosed(s.r)))
    && t.built.executed == (s.built.executed || (s.i.Exec? && ok))
  }

  /** The next place of the init's way. */
  function NextPlaceI(cfg: Config, place: nat): nat {
    if (place == 2 || place == 4) && !cfg.mountNs then place + 2 else place + 1
  }

  lemma AwaitingAdvances(s: State, ok: bool, t: State)
    requires s.i.AwaitApplied? && Build(s, ok) == Some(t)
    ensures Shows(s, ok, t)
    ensures t.i == InitReport || (ok && PlaceI(t.i) == 2)
  {
  }

  lemma BuildingAdvances(s: State, ok: bool, t: State)
    requires (s.i.UnshareCgroup? || s.i.MountRootfs? || s.i.ContainerHooks?) && Build(s, ok) == Some(t)
    ensures Shows(s, ok, t)
    ensures t.i == InitReport
            || ((ok || PlaceI(s.i) in InitSpared(s.cfg)) && PlaceI(t.i) == NextPlaceI(s.cfg, PlaceI(s.i)))
  {
  }

  lemma GettingReadyAdvances(s: State, ok: bool, t: State)
    requires (s.i.Pivot? || s.i.Secure? || s.i.SendReady?) && GetReady(s, ok) == Some(t)
    ensures Shows(s, ok, t)
    ensures t.i == InitReport || ((ok || s.i.SendReady?) && PlaceI(t.i) == PlaceI(s.i) + 1)
  {
  }

  lemma ParkingAdvances(s: State, ok: bool, t: State)
    requires (s.i.ParkJoin? || s.i.ParkWait?) && Park(s, ok) == Some(t)
    ensures Shows(s, ok, t)
    ensures t.i == InitReport || ((ok || s.i.ParkWait?) && PlaceI(t.i) == PlaceI(s.i) + 1)
  {
  }

  lemma ReleaseAdvances(s: State, ok: bool, t: State)
    requires (s.i.ParkWrite? || s.i.ParkClose?) && Park(s, ok) == Some(t)
    ensures Shows(s, ok, t)
    ensures t.i == InitReport || ((ok || s.i.ParkClose?) && PlaceI(t.i) == PlaceI(s.i) + 1)
  {
  }

  lemma LaunchingAdvances(s: State, ok: bool, t: State)
    requires (s.i.StartHooks? || s.i.Unblock? || s.i.Exec?) && Launch(s, ok) == Some(t)
    ensures Shows(s, ok, t)
    ensures t.i == InitReport || (ok && PlaceI(t.i) == PlaceI(s.i) + 1)
  {
  }

  lemma ReportingAdvances(s: State, ok: bool, t: State)
    requires (s.i.InitReport? || s.i.InitLeave?) && Launch(s, ok) == Some(t)
    ensures Shows(s, ok, t) && PlaceI(t.i) >= 20
  {
  }

  /** A step of the init leads to the next place of its way, or to its report. */
  lemma InitAdvances(s: State, ok: bool, t: State)
    requires StepInit(s, ok) == Some(t)
    ensures Shows(s, ok, t)
    ensures 1 <= PlaceI(s.i) <= 14 || PlaceI(t.i) >= 20
    ensures 1 <= PlaceI(s.i) <= 14 ==>
            t.i == InitReport
            || ((ok || PlaceI(s.i) in InitSpared(s.cfg)) && PlaceI(t.i) == NextPlaceI(s.cfg, PlaceI(s.i)))
  {
    match s.i
    case AwaitApplied => AwaitingAdvances(s, ok, t);
    case UnshareCgroup | MountRootfs | ContainerHooks => BuildingAdvances(s, ok, t);
    case Pivot | Secure | SendReady => GettingReadyAdvances(s, ok, t);
    case ParkJoin | ParkWait(_) => ParkingAdvances(s, ok, t);
    case ParkWrite | ParkClose => ReleaseAdvances(s, ok, t);
    case StartHooks | Unblock | Exec => LaunchingAdvances(s, ok, t);
    case _ => ReportingAdvances(s, ok, t);
  }

  lemma InitTraceGrows(s: State, t: State, h: seq<Taken>, taken: Taken)
    requires InitHistory(s, h) && 1 <= PlaceI(s.i) <= 14 && t.cfg == s.cfg && Shows(s, taken.ok, t)
    requires taken.place == PlaceI(s.i) && (taken.place == 3 || taken.place == 5 ==> s.cfg.mountNs)
    requires t.i == InitReport
             || ((taken.ok || PlaceI(s.i) in InitSpared(s.cfg)) && PlaceI(t.i) == NextPlaceI(s.cfg, PlaceI(s.i)))
    requires PlaceI(t.i) <= 15 && t.up.readySent ==> PlaceI(t.i) >= 8
    ensures InitHistory(t, h + [taken])
  {
    PlacesOfTheInit(s.cfg, taken.place);
    OneStepMore(h, InitWay(s.cfg), InitSpared(s.cfg), |h|, taken);
  }

  lemma PlacesOfTheInit(cfg: Config, place: nat)
    requires 1 <= place <= 14 && (place == 3 || place == 5 ==> cfg.mountNs)
    ensures InitBefore(cfg, place) < |InitWay(cfg)| && InitWay(cfg)[InitBefore(cfg, place)] == place
    ensures InitBefore(cfg, NextPlaceI(cfg, place)) == InitBefore(cfg, place) + 1
  {
  }

  lemma MountIsAskedFor(s: State)
    requires Inv(s)
    ensures s.i.MountRootfs? || s.i.Pivot? ==> s.cfg.mountNs
    ensures 1 <= PlaceI(s.i) <= 15 && s.up.readySent ==> PlaceI(s.i) >= 8
  {
  }

  lemma InitStepKeepsHistory(s: State, ok: bool, t: State, h: seq<Taken>)
    requires Inv(s) && InitHistory(s, h) && StepInit(s, ok) == Some(t)
    ensures InitHistory(t, h + TakenBy(TheInit, s, Step(TheInit, ok)))
  {
    InitAdvances(s, ok, t);
    InitKeepsInv(s, ok, t);
    if 1 <= PlaceI(s.i) <= 14 {
      MountIsAskedFor(s);
      MountIsAskedFor(t);
      InitTraceGrows(s, t, h, Taken(PlaceI(s.i), ok));
    } else {
      assert h + [] == h;
    }
  }

  // ---- A whole run ----------------------------------------------------------------------------------------

  lemma DoKeepsRuntimeHistory(s: State, a: Action, t: State, h: seq<Taken>)
    requires Inv(s) && Do(s, a) == Some(t) && RuntimeHistory(s, h)
    ensures RuntimeHistory(t, h + TakenBy(TheRuntime, s, a))
  {
    if a.Step? && a.who.TheRuntime? {
      RuntimeStepKeepsHistory(s, a.ok, t, h);
    } else {
      DoMoves(s, a, t);
      assert h + [] == h;
    }
  }

  lemma DoKeepsIntermediateHistory(s: State, a: Action, t: State, h: seq<Taken>)
    requires Inv(s) && Do(s, a) == Some(t) && IntermediateHistory(s, h)
    ensures IntermediateHistory(t, h + TakenBy(TheIntermediate, s, a))
  {
    if a.Step? && a.who.TheIntermediate? {
      IntermediateStepKeepsHistory(s, a.ok, t, h);
    } else {
      DoMoves(s, a, t);
      if a.Step? && a.who.TheInit? { OnlyABornInitSteps(s, a.ok); }
      assert h + [] == h;
    }
  }

  lemma OnlyABornInitSteps(s: State, ok: bool)
    requires StepInit(s, ok).Some?
    ensures !s.i.Unborn?
  {
  }

  lemma DoKeepsInitHistory(s: State, a: Action, t: State, h: seq<Taken>)
    requires Inv(s) && Do(s, a) == Some(t) && InitHistory(s, h)
    ensures InitHistory(t, h + TakenBy(TheInit, s, a))
  {
    if a.Step? && a.who.TheInit? {
      InitStepKeepsHistory(s, a.ok, t, h);
    } else {
      DoMoves(s, a, t);
      RequestIsAskedFor(s);
      assert h + [] == h;
    }
  }

  /** A trace grows by the first step and then by the rest. */
  lemma FirstStep(who: Process, s: State, actions: seq<Action>, h: seq<Taken>)
    requires After(s, actions).Some?
    ensures actions == [] ==> After(s, actions) == Some(s) && h + StepsOf(who, s, actions) == h
    ensures actions != [] ==>
            && Do(s, actions[0]).Some?
            && After(s, actions) == After(Do(s, actions[0]).value, actions[1..])
            && h + StepsOf(who, s, actions)
               == h + TakenBy(who, s, actions[0]) + StepsOf(who, Do(s, actions[0]).value, actions[1..])
  {
  }

  lemma {:induction false} RunKeepsRuntimeHistory(s: State, actions: seq<Action>, h: seq<Taken>)
    requires Inv(s) && After(s, actions).Some? && RuntimeHistory(s, h)
    ensures RuntimeHistory(After(s, actions).value, h + StepsOf(TheRuntime, s, actions))
    decreases |actions|
  {
    FirstStep(TheRuntime, s, actions, h);
    if actions != [] {
      var t, grown := Do(s, actions[0]).value, h + TakenBy(TheRuntime, s, actions[0]);
      assert Inv(t) by { DoKeepsInv(s, actions[0], t); }
      assert RuntimeHistory(t, grown) by { DoKeepsRuntimeHistory(s, actions[0], t, h); }
      RunKeepsRuntimeHistory(t, actions[1..], grown);
    }
  }

  lemma {:induction false} RunKeepsIntermediateHistory(s: State, actions: seq<Action>, h: seq<Taken>)
    requires Inv(s) && After(s, actions).Some? && IntermediateHistory(s, h)
    ensures IntermediateHistory(After(s, actions).value, h + StepsOf(TheIntermediate, s, actions))
    decreases |actions|
  {
    FirstStep(TheIntermediate, s, actions, h);
    if actions != [] {
      var t, grown := Do(s, actions[0]).value, h + TakenBy(TheIntermediate, s, actions[0]);
      assert Inv(t) by { DoKeepsInv(s, actions[0], t); }
      assert IntermediateHistory(t, grown) by { DoKeepsIntermediateHistory(s, actions[0], t, h); }
      RunKeepsIntermediateHistory(t, actions[1..], grown);
    }
  }

  lemma {:induction false} RunKeepsInitHistory(s: State, actions: seq<Action>, h: seq<Taken>)
    requires Inv(s) && After(s, actions).Some? && InitHistory(s, h)
    ensures InitHistory(After(s, actions).value, h + StepsOf(TheInit, s, actions))
    decreases |actions|
  {
    FirstStep(TheInit, s, actions, h);
    if actions != [] {
      var t, grown := Do(s, actions[0]).value, h + TakenBy(TheInit, s, actions[0]);
      assert Inv(t) by { DoKeepsInv(s, actions[0], t); }
      assert InitHistory(t, grown) by { DoKeepsInitHistory(s, actions[0], t, h); }
      RunKeepsInitHistory(t, actions[1..], grown);
    }
  }

  lemma InitialHistories(s: State)
    requires Initial(s)
    ensures RuntimeHistory(s, []) && IntermediateHistory(s, []) && InitHistory(s, [])
  {
  }

  lemma RuntimeFromTheStart(s0: State, actions: seq<Action>, s: State)
    requires Initial(s0) && After(s0, actions) == Some(s)
    ensures RuntimeHistory(s, StepsOf(TheRuntime, s0, actions))
  {
    InvInitially(s0);
    InitialHistories(s0);
    RunKeepsRuntimeHistory(s0, actions, []);
    assert [] + StepsOf(TheRuntime, s0, actions) == StepsOf(TheRuntime, s0, actions);
  }

  lemma IntermediateFromTheStart(s0: State, actions: seq<Action>, s: State)
    requires Initial(s0) && After(s0, actions) == Some(s)
    ensures IntermediateHistory(s, StepsOf(TheIntermediate, s0, actions))
  {
    InvInitially(s0);
    InitialHistories(s0);
    RunKeepsIntermediateHistory(s0, actions, []);
    assert [] + StepsOf(TheIntermediate, s0, actions) == StepsOf(TheIntermediate, s0, actions);
  }

  lemma InitFromTheStart(s0: State, actions: seq<Action>, s: State)
    requires Initial(s0) && After(s0, actions) == Some(s)
    ensures InitHistory(s, StepsOf(TheInit, s0, actions))
  {
    InvInitially(s0);
    InitialHistories(s0);
    RunKeepsInitHistory(s0, actions, []);
    assert [] + StepsOf(TheInit, s0, actions) == StepsOf(TheInit, s0, actions);
  }

  /** Every step of the way before a place was taken, in order, and none of them failed; and the trace holds
      nothing that is not on the way. */
  ghost predicate Behind(h: seq<Taken>, way: seq<nat>, spared: set<nat>, place: nat) {
    && Follows(h, way)
    && forall k | 0 <= k < |way| && way[k] < place :: k < |h| && (h[k].ok || way[k] in spared)
  }

  lemma RuntimeBehind(cfg: Config, h: seq<Taken>, place: nat)
    requires 6 <= place <= 13
    requires Follows(h, RuntimeWay(cfg)) && Succeeded(h, RUNTIME_SENDS, Before(cfg, place))
    ensures Behind(h, RuntimeWay(cfg), RUNTIME_SENDS, place)
  {
  }

  lemma InitBehind(cfg: Config, h: seq<Taken>, place: nat)
    requires 6 <= place <= 15
    requires Follows(h, InitWay(cfg)) && Succeeded(h, InitSpared(cfg), InitBefore(cfg, place))
    ensures Behind(h, InitWay(cfg), InitSpared(cfg), place)
  {
  }

  // What each mark in the state shows of the run behind it.

  ghost predicate RuntimePassed(s0: State, actions: seq<Action>, place: nat) {
    Behind(StepsOf(TheRuntime, s0, actions), RuntimeWay(s0.cfg), RUNTIME_SENDS, place)
  }

  ghost predicate IntermediatePassed(s0: State, actions: seq<Action>) {
    Behind(StepsOf(TheIntermediate, s0, actions), IntermediateWay(s0.cfg), INTERMEDIATE_SENDS, 6)
  }

  ghost predicate InitPassed(s0: State, actions: seq<Action>, place: nat) {
    Behind(StepsOf(TheInit, s0, actions), InitWay(s0.cfg), InitSpared(s0.cfg), place)
  }

  lemma MarksOfTheRuntime(s0: State, actions: seq<Action>, s: State)
    requires Inv(s) && s.cfg == s0.cfg && RuntimeHistory(s, StepsOf(TheRuntime, s0, actions))
    ensures s.r.ReturnedOk? ==> RuntimePassed(s0, actions, 13)
    ensures s.down.applied ==> RuntimePassed(s0, actions, 9)
    ensures s.rec.everSaved ==> RuntimePassed(s0, actions, 12)
  {
    var h := StepsOf(TheRuntime, s0, actions);
    if s.r.ReturnedOk? { RuntimeBehind(s.cfg, h, 13); }
    if s.down.applied { RuntimeBehind(s.cfg, h, 9); }
    if s.rec.everSaved { RuntimeBehind(s.cfg, h, 12); }
  }

  lemma MarksOfTheChildren(s0: State, actions: seq<Action>, s: State)
    requires s.cfg == s0.cfg
    requires IntermediateHistory(s, StepsOf(TheIntermediate, s0, actions))
    requires InitHistory(s, StepsOf(TheInit, s0, actions))
    ensures s.up.pidSent ==> IntermediatePassed(s0, actions)
    ensures s.up.readySent ==> InitPassed(s0, actions, 8)
    ensures s.built.executed ==> InitPassed(s0, actions, 15)
  {
    var h := StepsOf(TheInit, s0, actions);
    if s.up.readySent { InitBehind(s.cfg, h, 8); }
    if s.built.executed { InitBehind(s.cfg, h, 15); }
  }

  lemma MarksFollow(s: State)
    requires Inv(s)
    ensures s.built.cgroupUnshared || s.built.mounted || s.built.pivoted || s.built.executed ==> s.down.applied
    ensures s.down.applied || s.rec.everSaved ==> s.up.pidSent
    ensures s.built.executed ==> s.rec.everSaved
    ensures s.r.ReturnedOk? ==> s.rec.everSaved && s.saved
    ensures s.rec.everSaved ==> s.up.readySent
  {
  }

  lemma {:induction false} ConfigStays(s: State, actions: seq<Action>)
    requires Inv(s) && After(s, actions).Some?
    ensures After(s, actions).value.cfg == s.cfg
    decreases |actions|
  {
    if actions != [] {
      var t := Do(s, actions[0]).value;
      DoKeepsInv(s, actions[0], t);
      DoMoves(s, actions[0], t);
      ConfigStays(t, actions[1..]);
    }
  }

  lemma Marks(s0: State, actions: seq<Action>, s: State)
    requires Initial(s0) && After(s0, actions) == Some(s)
    ensures s.r.ReturnedOk? ==> RuntimePassed(s0, actions, 13)
    ensures s.down.applied ==> RuntimePassed(s0, actions, 9)
    ensures s.rec.everSaved ==> RuntimePassed(s0, actions, 12)
    ensures s.up.pidSent ==> IntermediatePassed(s0, actions)
    ensures s.up.readySent ==> InitPassed(s0, actions, 8)
    ensures s.built.executed ==> InitPassed(s0, actions, 15)
  {
    RuntimeFromTheStart(s0, actions, s);
    IntermediateFromTheStart(s0, actions, s);
    InitFromTheStart(s0, actions, s);
    InvInitially(s0);
    RunKeepsInv(s0, actions);
    ConfigStays(s0, actions);
    MarksOfTheRuntime(s0, actions, s);
    MarksOfTheChildren(s0, actions, s);
  }

  /** A create that returned Ok took every step of its way with success, and so did its intermediate; the
      init built the container up to its report; and the state is recorded. */
  lemma CreateTookEveryStep(s0: State, actions: seq<Action>, s: State)
    requires Initial(s0) && After(s0, actions) == Some(s) && s.r.ReturnedOk?
    ensures RuntimePassed(s0, actions, 13) && IntermediatePassed(s0, actions) && InitPassed(s0, actions, 8)
    ensures s.saved
  {
    Marks(s0, actions, s);
    InvInitially(s0);
    RunKeepsInv(s0, actions);
    MarksFollow(s);
  }

  /** The container is touched only after the runtime has placed its init, run every prestart and
      createRuntime hook with success, and told the init so. */
  lemma ContainerComesAfterTheHooks(s0: State, actions: seq<Action>, s: State)
    requires Initial(s0) && After(s0, actions) == Some(s)
    requires s.built.cgroupUnshared || s.built.mounted || s.built.pivoted
    ensures RuntimePassed(s0, actions, 9) && IntermediatePassed(s0, actions)
  {
    Marks(s0, actions, s);
    InvInitially(s0);
    RunKeepsInv(s0, actions);
    MarksFollow(s);
  }

  /** The program runs only after every step of the init, and after the state was saved. */
  lemma ProgramComesLast(s0: State, actions: seq<Action>, s: State)
    requires Initial(s0) && After(s0, actions) == Some(s) && s.built.executed
    ensures InitPassed(s0, actions, 15) && RuntimePassed(s0, actions, 12) && IntermediatePassed(s0, actions)
  {
    Marks(s0, actions, s);
    InvInitially(s0);
    RunKeepsInv(s0, actions);
    MarksFollow(s);
  }

  // A run in which a step failed never gets past it.

  lemma FailureIsAhead(h: seq<Taken>, way: seq<nat>, spared: set<nat>, passed: nat, place: nat)
    requires Behind(h, way, spared, passed) && Taken(place, false) in h && place !in spared
    ensures place in way && place >= passed
  {
  }

  /** After a failed step of the runtime create does not return Ok; before the state is saved the program does
      not run either, and up to the createRuntime hooks the container is not touched. */
  lemma RuntimeFailureEndsTheRun(s0: State, actions: seq<Action>, s: State, place: nat)
    requires Initial(s0) && After(s0, actions) == Some(s)
    requires Taken(place, false) in StepsOf(TheRuntime, s0, actions) && place !in RUNTIME_SENDS
    ensures !s.r.ReturnedOk?
    ensures place <= 11 ==> !s.built.executed
    ensures place <= 7 ==> !s.built.cgroupUnshared && !s.built.mounted && !s.built.pivoted
  {
    var h, way := StepsOf(TheRuntime, s0, actions), RuntimeWay(s0.cfg);
    if s.r.ReturnedOk? {
      CreateTookEveryStep(s0, actions, s);
      FailureIsAhead(h, way, RUNTIME_SENDS, 13, place);
    }
    if s.built.executed {
      ProgramComesLast(s0, actions, s);
      FailureIsAhead(h, way, RUNTIME_SENDS, 12, place);
    }
    if s.built.cgroupUnshared || s.built.mounted || s.built.pivoted {
      ContainerComesAfterTheHooks(s0, actions, s);
      FailureIsAhead(h, way, RUNTIME_SENDS, 9, place);
    }
  }

  /** After a failed step of the intermediate there is no container and no success. */
  lemma IntermediateFailureEndsTheRun(s0: State, actions: seq<Action>, s: State, place: nat)
    requires Initial(s0) && After(s0, actions) == Some(s)
    requires Taken(place, false) in StepsOf(TheIntermediate, s0, actions) && place !in INTERMEDIATE_SENDS
    ensures !s.r.ReturnedOk? && s.built == Built(false, false, false, false)
  {
    var h, way := StepsOf(TheIntermediate, s0, actions), IntermediateWay(s0.cfg);
    if s.r.ReturnedOk? {
      CreateTookEveryStep(s0, actions, s);
      FailureIsAhead(h, way, INTERMEDIATE_SENDS, 6, place);
    }
    if s.built.executed {
      ProgramComesLast(s0, actions, s);
      FailureIsAhead(h, way, INTERMEDIATE_SENDS, 6, place);
    }
    if s.built.cgroupUnshared || s.built.mounted || s.built.pivoted {
      ContainerComesAfterTheHooks(s0, actions, s);
      FailureIsAhead(h, way, INTERMEDIATE_SENDS, 6, place);
    }
  }

  /** After a failed step of the init the program never runs, and up to its report create does not return
      Ok. */
  lemma InitFailureEndsTheRun(s0: State, actions: seq<Action>, s: State, place: nat)
    requires Initial(s0) && After(s0, actions) == Some(s)
    requires Taken(place, false) in StepsOf(TheInit, s0, actions) && place !in InitSpared(s0.cfg)
    ensures !s.built.executed
    ensures place <= 7 ==> !s.r.ReturnedOk?
  {
    var h, way := StepsOf(TheInit, s0, actions), InitWay(s0.cfg);
    if s.r.ReturnedOk? {
      CreateTookEveryStep(s0, actions, s);
      FailureIsAhead(h, way, InitSpared(s0.cfg), 8, place);
    }
    if s.built.executed {
      ProgramComesLast(s0, actions, s);
      FailureIsAhead(h, way, InitSpared(s0.cfg), 15, place);
    }
  }

  // ---- The way out ----------------------------------------------------------------------------------------

  function RuntimeSteps(n: nat): seq<Action> {
    seq(n, _ => Step(TheRuntime, true))
  }

  /** The teardown waits for an init that lives on: as long as polls are left it takes nothing apart. */
  lemma {:induction false} DrainWaits(s: State, n: nat)
    requires s.r.Drain? && s.rec.attached && !s.i.InitGone? && n <= s.r.polls
    ensures After(s, RuntimeSteps(n)) == Some(s.(r := Drain(s.r.polls - n)))
    decreases n
  {
    if n > 0 {
      var t := s.(r := Drain(s.r.polls - 1));
      assert Do(s, Step(TheRuntime, true)) == Some(t);
      assert RuntimeSteps(n)[1..] == RuntimeSteps(n - 1);
      DrainWaits(t, n - 1);
    }
  }

  /** A runtime on its way out, with a placed init dead once the members were signalled. */
  ghost predicate Leaving(s: State) {
    && 20 <= Place(s.r) <= 25
    && (s.rec.attached ==> if Place(s.r) >= 22 then s.i.InitGone? else !s.i.Unborn?)
    && (s.r.ReturnedErr? ==> !s.fifoPresent && !s.saved)
  }

  lemma KillStepOut(s: State)
    requires Leaving(s) && s.r.KillMembers?
    ensures var t := WayOut(s, true);
            t.Some? && Leaving(t.value) && Place(t.value.r) == 22 && t.value.rec.attached == s.rec.attached
  {
  }

  lemma WaitStepOut(s: State)
    requires Leaving(s) && (s.r.RemoveFifo? || s.r.Drain?)
    ensures var t := WayOut(s, true);
            t.Some? && Leaving(t.value) && Place(t.value.r) == Place(s.r) + 1 && t.value.rec.attached == s.rec.attached
  {
  }

  lemma LastStepsOut(s: State)
    requires Leaving(s) && (s.r.DestroyCgroup? || s.r.RemoveDir?)
    ensures var t := WayOut(s, true);
            t.Some? && Leaving(t.value) && Place(t.value.r) == Place(s.r) + 1 && t.value.rec.attached == s.rec.attached
  {
  }

  lemma OneStepOut(s: State)
    requires Leaving(s) && Place(s.r) <= 24
    ensures var t := WayOut(s, true);
            t.Some? && Leaving(t.value) && Place(t.value.r) == Place(s.r) + 1 && t.value.rec.attached == s.rec.attached
  {
    match s.r
    case KillMembers => KillStepOut(s);
    case RemoveFifo | Drain(_) => WaitStepOut(s);
    case _ => LastStepsOut(s);
  }

  /** The pipe goes first. */
  lemma PipeGoesFirst(s: State)
    requires s.r.RemoveFifo?
    ensures Do(s, Step(TheRuntime, true)) == Some(s.(r := KillMembers, fifoPresent := false))
  {
  }

  /** A way out on which nothing fails ends in at most five steps, with the error returned, the pipe and the
      state gone and a placed init dead. */
  lemma {:induction false} CleanWayOut(s: State)
    requires Leaving(s)
    ensures var t := After(s, RuntimeSteps(25 - Place(s.r)));
            && t.Some? && t.value.r.ReturnedErr? && !t.value.fifoPresent && !t.value.saved
            && (s.rec.attached ==> t.value.i.InitGone?)
    decreases 25 - Place(s.r)
  {
    var n := 25 - Place(s.r);
    if n > 0 {
      OneStepOut(s);
      assert RuntimeSteps(n)[1..] == RuntimeSteps(n - 1);
      CleanWayOut(WayOut(s, true).value);
    }
  }
}
