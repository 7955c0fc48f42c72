/** The inductive invariant of the create/start protocol.

    Each group takes exactly the fields it constrains, so that a step that leaves those fields alone
    keeps the group without further argument. */
module ProtocolInvariant {
  import opened Wrappers
  import opened Protocol

  // ---- The groups of the invariant ----------------------------------------------------------------------

  /** The intermediate's counter against what was sent; `born`: the init was forked. */
  ghost predicate IntermediateInv(cfg: Config, m: nat, born: bool, closed: bool, up: Uplink, down: Downlink,
                                  pidLost: bool)
  {
    && (up.requested ==> cfg.userNs)
    && (down.mappedTaken ==> down.mapped)
    && (down.mapped ==> up.requested)
    && (m <= 1 ==> !up.requested)
    && (m == 1 ==> cfg.userNs)
    && (m == 2 ==> up.requested && !down.mappedTaken)
    && (m == 3 ==> down.mappedTaken)
    && (m <= 6 ==> !up.pidSent && !up.reported)
    && (m <= 4 ==> !born)
    && (m == 5 ==> born)
    && (m == 4 || born ==> (cfg.userNs ==> down.mappedTaken))
    && (up.pidSent ==> born && !up.reported)
    && (up.reported ==> !born)
    && (m >= 6 && born && !up.pidSent ==> pidLost || closed)
    && (pidLost ==> m == 8 && born && !up.pidSent)
  }

  /** The runtime's counter against what it sent and did. */
  ghost predicate RuntimeInv(r: nat, pidSent: bool, pidOk: bool, requested: bool, readySent: bool, mapped: bool,
                             applied: bool, rec: Record)
  {
    && (rec.attached ==> pidSent)
    && (rec.hooksOk ==> rec.attached)
    && (applied ==> rec.hooksOk && pidOk)
    && (rec.readyReceived ==> readySent && applied)
    && (rec.everSaved ==> rec.readyReceived)
    && (rec.pidFileFailed ==> rec.everSaved)
    && (r == 0 ==> !mapped)
    && (1 <= r <= 3 ==> requested)
    && (1 <= r <= 2 ==> !mapped)
    && (r == 3 ==> mapped)
    && (4 <= r <= 13 ==> pidSent && pidOk)
    && (r <= 13 ==> (rec.attached <==> 6 <= r) && (rec.hooksOk <==> 8 <= r) && (applied <==> 9 <= r)
                    && (rec.readyReceived <==> 10 <= r) && (rec.everSaved <==> 12 <= r))
    && (rec.pidFileFailed ==> r >= 20)
    && (20 <= r <= 25 && rec.everSaved ==> rec.pidFileFailed)
  }

  /** Everything sent after the request, as the facts determine it. */
  function Sent(up: Uplink, initPid: int): seq<Message> {
    if up.reported then [Failed] else if up.pidSent then [InitPid(initPid)] + AfterPid(up) else []
  }

  function AfterPid(up: Uplink): seq<Message> {
    (if up.readySent then [InitReady] else []) + (if up.initReported then [Failed] else [])
  }

  /** The queue to a runtime that is still receiving holds what was sent and not consumed. */
  ghost predicate UpInv(r: nat, toParent: seq<Message>, up: Uplink, initPid: int) {
    && (up.initReported || up.readySent ==> up.pidSent)
    && (r == 0 ==> toParent == (if up.requested then [RequestUserMapping] else []) + Sent(up, initPid))
    && (1 <= r <= 3 ==> toParent == Sent(up, initPid))
    && (4 <= r <= 9 ==> toParent == AfterPid(up))
  }

  ghost predicate DownInv(toChild: seq<Message>, down: Downlink, initPid: int) {
    && toChild == (if down.mapped && !down.mappedTaken then [UserMappingDone] else [])
                  + (if down.applied && !down.appliedTaken then [CgroupApplied(initPid)] else [])
    && (down.appliedTaken ==> down.applied)
  }

  /** The init's counter against what it received, built and sent. */
  ghost predicate InitInv(cfg: Config, i: nat, closed: bool, down: Downlink, up: Uplink, hostOk: bool, built: Built) {
    && (i <= 1 ==> !down.appliedTaken)
    && (2 <= i <= 15 ==> down.appliedTaken && hostOk)
    && (i <= 2 ==> !built.cgroupUnshared)
    && (i == 3 || i == 5 ==> cfg.mountNs)
    && (i <= 3 ==> !built.mounted)
    && (i <= 5 ==> !built.pivoted)
    && (3 <= i <= 15 ==> (cfg.cgroupNs ==> built.cgroupUnshared))
    && (4 <= i <= 15 ==> (cfg.mountNs ==> built.mounted))
    && (6 <= i <= 15 ==> (cfg.mountNs ==> built.pivoted))
    && (built.cgroupUnshared || built.mounted || built.pivoted || up.readySent ==> down.applied)
    && (built.mounted || built.pivoted ==> cfg.mountNs && (cfg.cgroupNs ==> built.cgroupUnshared))
    && (built.pivoted ==> built.mounted)
    && (up.readySent ==> (cfg.cgroupNs ==> built.cgroupUnshared) && (cfg.mountNs ==> built.pivoted))
    && (i <= 7 ==> !up.readySent)
    && (8 <= i <= 15 ==> up.readySent)
    && (up.initReported ==> i >= 21)
    && (i == 20 || i == 21 ==> down.applied || closed)
  }

  predicate HoldsByte(p: Starter) {
    p.at.Unlink? || p.at.Started?
  }

  /** How many releasers read the handshake byte and have not failed since. */
  function Holders(ps: seq<Starter>): nat {
    if ps == [] then 0 else (if HoldsByte(ps[0]) then 1 else 0) + Holders(ps[1..])
  }

  ghost predicate PipeInv(i: nat, readySent: bool, executed: bool, pipe: Pipe) {
    && pipe.bytesRead + pipe.buffered <= pipe.written <= 1
    && (i <= 10 ==> pipe.written == 0)
    && (11 <= i <= 15 ==> pipe.written == 1)
    && (10 <= i <= 15 || pipe.written > 0 ==> pipe.readerOpens > 0)
    && (i <= 14 ==> !executed)
    && (executed ==> pipe.written == 1 && readySent)
  }

  ghost predicate StartersInv(starters: seq<Starter>, bytesRead: nat, readerOpens: nat, everSaved: bool) {
    && Holders(starters) <= bytesRead
    && (readerOpens > 0 ==> everSaved)
    && (forall k | 0 <= k < |starters| :: StarterInv(starters[k].at, readerOpens, everSaved))
  }

  ghost predicate StarterInv(at: StarterAt, readerOpens: nat, everSaved: bool) {
    && (at.CheckPath? || at.OpenPath? ==> everSaved)
    && (at.Opening? || at.Read? || at.Unlink? || at.Started? ==> readerOpens > 0)
  }

  ghost predicate FilesInv(r: Runtime, fifoPresent: bool, saved: bool, everSaved: bool, missed: Missed) {
    && (saved ==> everSaved)
    && (r.Drain? ==> r.polls <= 250)
    && (r.ReturnedErr? && !missed.cleanup ==> !fifoPresent && !saved)
    && (r.WritePidFile? || r.ReturnedOk? ==> saved)
  }

  /** Once the members of the cgroup were signalled, a placed init is dead. */
  ghost predicate TeardownInv(r: nat, attached: bool, killMissed: bool, dead: bool) {
    22 <= r <= 25 && attached && !killMissed ==> dead
  }

  /** The intermediate was reaped before the init was placed, and an init placed in a frozen cgroup is
      where it was then, or dead. */
  ghost predicate PlacedInv(r: nat, m: nat, i: nat, frozen: bool, attached: bool, readySent: bool) {
    && (5 <= r <= 13 ==> m == 8)
    && (frozen && attached ==> i == 1 || i == 22)
    && (frozen ==> !readySent)
  }

  ghost predicate Inv(s: State) {
    && IntermediateInv(s.cfg, PlaceM(s.m), !s.i.Unborn?, RuntimeClosed(s.r), s.up, s.down, s.pidLost)
    && RuntimeInv(Place(s.r), s.up.pidSent, s.adopted == s.initPid, s.up.requested, s.up.readySent,
                  s.down.mapped, s.down.applied, s.rec)
    && UpInv(Place(s.r), s.toParent, s.up, s.initPid)
    && DownInv(s.toChild, s.down, s.initPid)
    && InitInv(s.cfg, PlaceI(s.i), RuntimeClosed(s.r), s.down, s.up, s.hostPid == s.initPid, s.built)
    && PipeInv(PlaceI(s.i), s.up.readySent, s.built.executed, s.pipe)
    && StartersInv(s.starters, s.pipe.bytesRead, s.pipe.readerOpens, s.rec.everSaved)
    && FilesInv(s.r, s.fifoPresent, s.saved, s.rec.everSaved, s.missed)
    && TeardownInv(Place(s.r), s.rec.attached, s.missed.kill, s.i.InitGone?)
    && PlacedInv(Place(s.r), PlaceM(s.m), PlaceI(s.i), s.cfg.frozen, s.rec.attached, s.up.readySent)
    && !s.mismatch
  }

  // ---- It holds at the start ------------------------------------------------------------------------------

  lemma {:induction false} NobodyHoldsAtLoad(ps: seq<Starter>)
    requires forall k | 0 <= k < |ps| :: ps[k].at == Load
    ensures Holders(ps) == 0
  {
    if ps != [] { NobodyHoldsAtLoad(ps[1..]); }
  }

  lemma InvInitially(s: State)
    requires Initial(s)
    ensures Inv(s)
  {
    NobodyHoldsAtLoad(s.starters);
  }

  // ---- How one step moves the system on -------------------------------------------------------------------

  // The counters of the three processes only ever move on, except that teardown polls in one place.

  function RuntimeRank(r: Runtime): nat {
    if r.Drain? then 4 + r.polls else if Place(r) < 22 then 280 - Place(r) else 26 - Place(r)
  }

  function IntermediateRank(m: Intermediate): nat {
    8 - PlaceM(m)
  }

  function InitRank(i: Init): nat {
    22 - PlaceI(i)
  }

  function StarterRank(at: StarterAt): nat {
    match at
    case Load => 6 case CheckPath => 5 case OpenPath => 4 case Opening(_) => 3 case Read => 2 case Unlink => 1
    case _ => 0
  }

  function BaseRank(s: State): nat {
    RuntimeRank(s.r) + IntermediateRank(s.m) + InitRank(s.i)
  }

  /** What a step of the runtime, the intermediate or the init does to everything but the queues. */
  ghost predicate MovesOn(s: State, t: State) {
    && BaseRank(t) < BaseRank(s)
    && t.cfg == s.cfg
    && t.starters == s.starters
    && (t.fifoPresent ==> s.fifoPresent)
    && t.pipe.readerOpens == s.pipe.readerOpens
    && PlaceI(s.i) <= PlaceI(t.i)
    && (PlaceI(s.i) >= 12 ==> t.pipe.writerOpens == s.pipe.writerOpens)
    && (s.r.ReturnedErr? ==> t.r.ReturnedErr? && t.rec == s.rec)
  }

  predicate Receiving(r: Runtime) {
    r.RecvFirst? || r.RecvSecond? || r.ExpectReady?
  }

  ghost predicate RuntimeMoves(s: State, t: State) {
    && MovesOn(s, t) && |s.toChild| <= |t.toChild|
    && t.m == s.m && t.built == s.built && t.up == s.up
    && (t.i == s.i || (!s.i.Unborn? && t.i == InitGone))
    && (t.toParent == s.toParent || (Receiving(s.r) && s.toParent != [] && t.toParent == s.toParent[1..]))
  }

  ghost predicate IntermediateMoves(s: State, t: State) {
    && MovesOn(s, t) && |s.toParent| <= |t.toParent|
    && t.r == s.r && t.rec == s.rec && t.built == s.built && t.down.applied == s.down.applied
    && (t.i == s.i || (s.m.ForkInit? && t.i == AwaitApplied)) && t.up.readySent == s.up.readySent
    && (t.toChild == s.toChild || (s.m.AwaitMapped? && s.toChild != [] && t.toChild == s.toChild[1..]))
  }

  ghost predicate InitMoves(s: State, t: State) {
    && MovesOn(s, t) && |s.toParent| <= |t.toParent|
    && t.r == s.r && t.rec == s.rec && t.m == s.m && t.down.applied == s.down.applied
    && t.up.pidSent == s.up.pidSent
    && (t.toChild == s.toChild || (s.i.AwaitApplied? && s.toChild != [] && t.toChild == s.toChild[1..]))
  }

  ghost predicate StarterMoves(s: State, k: nat, t: State)
    requires k < |s.starters| == |t.starters|
  {
    && t.cfg == s.cfg && t.r == s.r && t.m == s.m && t.i == s.i && t.rec == s.rec && t.pidLost == s.pidLost
    && t.toParent == s.toParent && t.toChild == s.toChild
    && t.built == s.built && t.up == s.up && t.down == s.down && t.saved == s.saved
    && t.starters == s.starters[k := t.starters[k]]
    && StarterRank(t.starters[k].at) < StarterRank(s.starters[k].at)
    && t.pipe.writerOpens == s.pipe.writerOpens
    && (t.fifoPresent ==> s.fifoPresent)
    && (t.pipe.readerOpens == s.pipe.readerOpens || (s.fifoPresent && s.starters[k].at.OpenPath?))
    && (s.starters[k].at.Opening? ==> WriterOpen(s.i) || s.pipe.writerOpens > s.starters[k].at.seen)
  }

  // ---- Every step keeps it --------------------------------------------------------------------------------

  lemma {:induction false} HoldersAfterMove(ps: seq<Starter>, k: nat, p: Starter)
    requires k < |ps|
    ensures Holders(ps[k := p]) == Holders(ps) - (if HoldsByte(ps[k]) then 1 else 0) + (if HoldsByte(p) then 1 else 0)
  {
    if k == 0 {
      assert ps[0 := p] == [p] + ps[1..];
    } else {
      assert ps[k := p][1..] == ps[1..][k - 1 := p];
      HoldersAfterMove(ps[1..], k - 1, p);
    }
  }

  /** A releaser's move keeps its group if it keeps the counts. */
  lemma MoveKeepsStarters(ps: seq<Starter>, k: nat, at: StarterAt, bytesRead: nat, readerOpens: nat,
                          bytesRead': nat, readerOpens': nat, everSaved: bool)
    requires StartersInv(ps, bytesRead, readerOpens, everSaved) && k < |ps|
    requires readerOpens <= readerOpens' && (readerOpens' > 0 ==> everSaved)
    requires StarterInv(at, readerOpens', everSaved)
    requires bytesRead <= bytesRead'
    requires (at.Unlink? || at.Started?) && !HoldsByte(ps[k]) ==> bytesRead < bytesRead'
    ensures StartersInv(ps[k := ps[k].(at := at)], bytesRead', readerOpens', everSaved)
  {
    HoldersAfterMove(ps, k, ps[k].(at := at));
  }

  /** Closing the last end of the pipe. */
  lemma SettleKeepsInv(s: State)
    requires Inv(s)
    ensures Inv(Settle(s))
  {
  }

  /** Any error before state.json is saved, whatever became of the message at hand. */
  lemma FailKeepsInv(s: State, queue: seq<Message>)
    requires Inv(s) && Place(s.r) <= 11
    ensures Inv(s.(r := RemoveFifo, toParent := queue))
    ensures MovesOn(s, s.(r := RemoveFifo, toParent := queue))
  {
    FailMovesOn(s, queue);
  }

  lemma FailMovesOn(s: State, queue: seq<Message>)
    requires Place(s.r) <= 12
    ensures MovesOn(s, s.(r := RemoveFifo, toParent := queue))
  {
  }

  /** A step of the way out that only moves the counter. */
  lemma WayOutKeepsInv(s: State, next: Runtime)
    requires Inv(s) && 20 <= Place(s.r) <= Place(next) <= 24
    requires next.Drain? ==> next.polls <= 250
    requires Place(s.r) <= 21 && 22 <= Place(next) ==> s.missed.kill || !s.rec.attached || s.i.InitGone?
    ensures Inv(s.(r := next))
    ensures RuntimeRank(next) < RuntimeRank(s.r) ==> MovesOn(s, s.(r := next))
  {
  }

  lemma InitDies(s: State)
    requires Inv(s) && !s.i.Unborn?
    ensures Inv(s.(i := InitGone))
  {
  }

  /** Any error of the init after it was placed. */
  lemma InitFailKeepsInv(s: State)
    requires Inv(s) && 2 <= PlaceI(s.i) <= 15
    ensures Inv(s.(i := InitReport))
    ensures MovesOn(s, s.(i := InitReport))
  {
  }

  lemma SettleMovesNobody(s: State, k: nat, t: State)
    requires k < |s.starters| == |t.starters| && StarterMoves(s, k, t)
    ensures StarterMoves(s, k, Settle(t))
  {
  }

  lemma StarterDrops(s: State, k: nat, at: StarterAt)
    requires Inv(s) && k < |s.starters| && (at.Refused? || at.StarterKilled?)
    ensures Inv(Move(s, k, at))
    ensures StarterRank(s.starters[k].at) > 0 && !s.starters[k].at.Opening? ==> StarterMoves(s, k, Move(s, k, at))
  {
    MoveKeepsStarters(s.starters, k, at, s.pipe.bytesRead, s.pipe.readerOpens,
                      s.pipe.bytesRead, s.pipe.readerOpens, s.rec.everSaved);
  }

  lemma GotRequest(s: State)
    requires Inv(s) && s.r.RecvFirst? && s.toParent != [] && s.toParent[0].RequestUserMapping?
    ensures var t := s.(toParent := s.toParent[1..], r := WriteMapping);
            Inv(t) && MovesOn(s, t)
  {
  }

  lemma GotPid(s: State)
    requires Inv(s) && (s.r.RecvFirst? || s.r.RecvSecond?) && s.toParent != [] && s.toParent[0].InitPid?
    ensures var t := s.(toParent := s.toParent[1..], r := Reap, adopted := s.toParent[0].pid);
            Inv(t) && MovesOn(s, t)
  {
  }

  /** What waits for the runtime is never out of order. */
  lemma WaitsForTheRuntime(s: State)
    requires Inv(s) && s.toParent != []
    ensures s.r.RecvFirst? ==>
            !s.toParent[0].UserMappingDone? && !s.toParent[0].CgroupApplied? && !s.toParent[0].InitReady?
    ensures s.r.RecvSecond? ==> s.toParent[0].InitPid? || s.toParent[0].Failed?
  {
  }

  lemma RuntimeRecvFirstStep(s: State, ok: bool, t: State)
    requires Inv(s) && s.r.RecvFirst? && ReceivePid(s, ok) == Some(t)
    ensures Inv(t)
    ensures RuntimeMoves(s, t)
  {
    if s.toParent != [] { WaitsForTheRuntime(s); }
    if t.r.RemoveFifo? {
      FailKeepsInv(s, t.toParent);
    } else if t.r.WriteMapping? {
      GotRequest(s);
    } else {
      GotPid(s);
    }
  }

  lemma RuntimeMappingStep(s: State, ok: bool, t: State)
    requires Inv(s) && s.r.WriteMapping? && ReceivePid(s, ok) == Some(t)
    ensures Inv(t)
    ensures RuntimeMoves(s, t)
  {
    if t.r.RemoveFifo? {
      FailKeepsInv(s, t.toParent);
    }
  }

  lemma RuntimeSendMappedStep(s: State, ok: bool, t: State)
    requires Inv(s) && s.r.SendMapped? && ReceivePid(s, ok) == Some(t)
    ensures Inv(t)
    ensures RuntimeMoves(s, t)
  {
    if t.r.RemoveFifo? {
      FailKeepsInv(s, t.toParent);
    }
  }

  lemma RuntimeRecvSecondStep(s: State, ok: bool, t: State)
    requires Inv(s) && s.r.RecvSecond? && ReceivePid(s, ok) == Some(t)
    ensures Inv(t)
    ensures RuntimeMoves(s, t)
  {
    if s.toParent != [] { WaitsForTheRuntime(s); }
    if t.r.RemoveFifo? {
      FailKeepsInv(s, t.toParent);
    } else {
      GotPid(s);
    }
  }

  lemma RuntimePlacingStep(s: State, ok: bool, t: State)
    requires Inv(s) && (s.r.Reap? || s.r.Attach?) && PlaceInit(s, ok) == Some(t)
    ensures Inv(t)
    ensures RuntimeMoves(s, t)
  {
    if t.r.RemoveFifo? {
      FailKeepsInv(s, t.toParent);
    }
  }

  lemma RuntimeHooksStep(s: State, ok: bool, t: State)
    requires Inv(s) && (s.r.Prestart? || s.r.CreateRuntime?) && PlaceInit(s, ok) == Some(t)
    ensures Inv(t)
    ensures RuntimeMoves(s, t)
  {
    if t.r.RemoveFifo? {
      FailKeepsInv(s, t.toParent);
    }
  }

  lemma SentApplied(s: State)
    requires Inv(s) && s.r.SendApplied?
    ensures var t := s.(r := ExpectReady, toChild := s.toChild + [CgroupApplied(s.adopted)],
                        down := s.down.(applied := true));
            Inv(t) && MovesOn(s, t)
  {
  }

  lemma RuntimeSendAppliedStep(s: State, ok: bool, t: State)
    requires Inv(s) && s.r.SendApplied? && PlaceInit(s, ok) == Some(t)
    ensures Inv(t)
    ensures RuntimeMoves(s, t)
  {
    if ChildEndOpen(s) {
      SentApplied(s);
    } else {
      FailKeepsInv(s, s.toParent);
    }
  }

  lemma GotReady(s: State)
    requires Inv(s) && s.r.ExpectReady? && s.toParent != [] && s.toParent[0].InitReady?
    ensures var t := s.(toParent := s.toParent[1..], r := ReadStartTime, rec := s.rec.(readyReceived := true));
            Inv(t) && MovesOn(s, t)
  {
  }

  lemma RuntimeExpectReadyStep(s: State, ok: bool, t: State)
    requires Inv(s) && s.r.ExpectReady? && RecordState(s, ok) == Some(t)
    ensures Inv(t)
    ensures RuntimeMoves(s, t)
  {
    if t.r.RemoveFifo? {
      FailKeepsInv(s, t.toParent);
    } else {
      GotReady(s);
    }
  }

  lemma RuntimeSavingStep(s: State, ok: bool, t: State)
    requires Inv(s) && (s.r.ReadStartTime? || s.r.Save?) && RecordState(s, ok) == Some(t)
    ensures Inv(t)
    ensures RuntimeMoves(s, t)
  {
    if t.r.RemoveFifo? {
      FailKeepsInv(s, t.toParent);
    }
  }

  lemma CreateSucceeds(s: State)
    requires Inv(s) && s.r.WritePidFile?
    ensures Inv(s.(r := ReturnedOk)) && MovesOn(s, s.(r := ReturnedOk))
  {
  }

  lemma RuntimePidFileStep(s: State, ok: bool, t: State)
    requires Inv(s) && s.r.WritePidFile? && RecordState(s, ok) == Some(t)
    ensures Inv(t)
    ensures RuntimeMoves(s, t)
  {
    if ok {
      CreateSucceeds(s);
    }
  }

  lemma RuntimeRemoveFifoStep(s: State, ok: bool, t: State)
    requires Inv(s) && s.r.RemoveFifo? && WayOut(s, ok) == Some(t)
    ensures Inv(t)
    ensures RuntimeMoves(s, t)
  {
    WayOutKeepsInv(s, KillMembers);
  }

  lemma TeardownKills(s: State)
    requires Inv(s) && s.r.KillMembers? && !s.i.Unborn?
    ensures Inv(Settle(s.(r := Drain(250), i := InitGone)))
  {
    InitDies(s);
    WayOutKeepsInv(s.(i := InitGone), Drain(250));
    SettleKeepsInv(s.(r := Drain(250), i := InitGone));
  }

  lemma MissingAKillKeepsInv(s: State)
    requires Inv(s)
    ensures Inv(s.(missed := s.missed.(kill := true)))
  {
  }

  lemma TeardownMovesOn(s: State)
    requires s.r.KillMembers? && !s.i.Unborn?
    ensures RuntimeMoves(s, Settle(s.(r := Drain(250), i := InitGone)))
  {
  }

  lemma RuntimeKillMembersStep(s: State, ok: bool, t: State)
    requires Inv(s) && s.r.KillMembers? && WayOut(s, ok) == Some(t)
    ensures Inv(t)
    ensures RuntimeMoves(s, t)
  {
    if !ok {
      MissingAKillKeepsInv(s);
      WayOutKeepsInv(s.(missed := s.missed.(kill := true)), Drain(250));
    } else if s.rec.attached && !s.i.Unborn? {
      TeardownKills(s);
      TeardownMovesOn(s);
    } else {
      WayOutKeepsInv(s, Drain(250));
    }
  }

  lemma DrainKeepsInv(s: State, next: Runtime)
    requires Inv(s) && s.r.Drain?
    requires next == DestroyCgroup || (s.r.polls > 0 && next == Drain(s.r.polls - 1))
    ensures Inv(s.(r := next)) && RuntimeMoves(s, s.(r := next))
  {
    WayOutKeepsInv(s, next);
  }

  lemma RuntimeDrainStep(s: State, ok: bool, t: State)
    requires Inv(s) && s.r.Drain? && WayOut(s, ok) == Some(t)
    ensures Inv(t)
    ensures RuntimeMoves(s, t)
  {
    DrainKeepsInv(s, t.r);
  }

  lemma LastStepKeepsInv(s: State, ok: bool)
    requires Inv(s) && s.r.RemoveDir?
    ensures Inv(WayOut(s, ok).value) && MovesOn(s, WayOut(s, ok).value)
  {
  }

  lemma RuntimeRemovalStep(s: State, ok: bool, t: State)
    requires Inv(s) && (s.r.DestroyCgroup? || s.r.RemoveDir?) && WayOut(s, ok) == Some(t)
    ensures Inv(t)
    ensures RuntimeMoves(s, t)
  {
    if s.r.DestroyCgroup? {
      WayOutKeepsInv(s, RemoveDir);
    } else {
      LastStepKeepsInv(s, ok);
    }
  }

  lemma RuntimeKeepsInv(s: State, ok: bool, t: State)
    requires Inv(s) && StepRuntime(s, ok) == Some(t)
    ensures Inv(t)
    ensures RuntimeMoves(s, t)
  {
    if s.r.RecvFirst? {
      RuntimeRecvFirstStep(s, ok, t);
    } else if s.r.WriteMapping? {
      RuntimeMappingStep(s, ok, t);
    } else if s.r.SendMapped? {
      RuntimeSendMappedStep(s, ok, t);
    } else if s.r.RecvSecond? {
      RuntimeRecvSecondStep(s, ok, t);
    } else if s.r.Reap? || s.r.Attach? {
      RuntimePlacingStep(s, ok, t);
    } else if s.r.Prestart? || s.r.CreateRuntime? {
      RuntimeHooksStep(s, ok, t);
    } else if s.r.SendApplied? {
      RuntimeSendAppliedStep(s, ok, t);
    } else if s.r.ExpectReady? {
      RuntimeExpectReadyStep(s, ok, t);
    } else if s.r.ReadStartTime? || s.r.Save? {
      RuntimeSavingStep(s, ok, t);
    } else if s.r.WritePidFile? {
      RuntimePidFileStep(s, ok, t);
    } else if s.r.RemoveFifo? {
      RuntimeRemoveFifoStep(s, ok, t);
    } else if s.r.KillMembers? {
      RuntimeKillMembersStep(s, ok, t);
    } else if s.r.Drain? {
      RuntimeDrainStep(s, ok, t);
    } else {
      RuntimeRemovalStep(s, ok, t);
    }
  }

  lemma IntermediateSetupStep(s: State, ok: bool, t: State)
    requires Inv(s) && (s.m.Setup? || s.m.Request?) && Prepare(s, ok) == Some(t)
    ensures Inv(t)
    ensures IntermediateMoves(s, t)
  {
  }

  lemma IntermediateAwaitMappedStep(s: State, ok: bool, t: State)
    requires Inv(s) && s.m.AwaitMapped? && Prepare(s, ok) == Some(t)
    ensures Inv(t)
    ensures IntermediateMoves(s, t)
  {
  }

  lemma IntermediateForkStep(s: State, ok: bool, t: State)
    requires Inv(s) && (s.m.BecomeRoot? || s.m.ForkInit?) && ForkTheInit(s, ok) == Some(t)
    ensures Inv(t)
    ensures IntermediateMoves(s, t)
  {
  }

  lemma IntermediateSendPidStep(s: State, ok: bool, t: State)
    requires Inv(s) && s.m.SendPid? && ForkTheInit(s, ok) == Some(t)
    ensures Inv(t)
    ensures IntermediateMoves(s, t)
  {
  }

  lemma IntermediateReportStep(s: State, ok: bool, t: State)
    requires Inv(s) && s.m.Report? && ForkTheInit(s, ok) == Some(t)
    ensures Inv(t)
    ensures IntermediateMoves(s, t)
  {
  }

  lemma IntermediateLeaveStep(s: State, ok: bool, t: State)
    requires Inv(s) && s.m.Leave? && ForkTheInit(s, ok) == Some(t)
    ensures Inv(t)
    ensures IntermediateMoves(s, t)
  {
  }

  lemma IntermediateKeepsInv(s: State, ok: bool, t: State)
    requires Inv(s) && StepIntermediate(s, ok) == Some(t)
    ensures Inv(t)
    ensures IntermediateMoves(s, t)
  {
    if s.m.Setup? || s.m.Request? {
      IntermediateSetupStep(s, ok, t);
    } else if s.m.AwaitMapped? {
      IntermediateAwaitMappedStep(s, ok, t);
    } else if s.m.BecomeRoot? || s.m.ForkInit? {
      IntermediateForkStep(s, ok, t);
    } else if s.m.SendPid? {
      IntermediateSendPidStep(s, ok, t);
    } else if s.m.Report? {
      IntermediateReportStep(s, ok, t);
    } else {
      IntermediateLeaveStep(s, ok, t);
    }
  }

  lemma GotApplied(s: State)
    requires Inv(s) && !Halted(s) && s.i.AwaitApplied? && s.toChild != []
    ensures s.toChild[0] == CgroupApplied(s.initPid)
    ensures var t := s.(toChild := s.toChild[1..], down := s.down.(appliedTaken := true), i := UnshareCgroup,
                        hostPid := s.toChild[0].pid);
            Inv(t) && MovesOn(s, t)
  {
  }

  lemma MissedApplied(s: State)
    requires Inv(s) && !Halted(s) && s.i.AwaitApplied? && s.toChild != []
    ensures var t := s.(toChild := s.toChild[1..], down := s.down.(appliedTaken := true), i := InitReport);
            Inv(t) && MovesOn(s, t)
  {
  }

  lemma InitAwaitAppliedStep(s: State, ok: bool, t: State)
    requires Inv(s) && !Halted(s) && s.i.AwaitApplied? && Build(s, ok) == Some(t)
    ensures Inv(t)
    ensures InitMoves(s, t)
  {
    if s.toChild != [] {
      GotApplied(s);
      MissedApplied(s);
    }
  }

  lemma InitUnshareStep(s: State, ok: bool, t: State)
    requires Inv(s) && (s.i.UnshareCgroup? || s.i.MountRootfs?) && Build(s, ok) == Some(t)
    ensures Inv(t)
    ensures InitMoves(s, t)
  {
    if t.i.InitReport? {
      InitFailKeepsInv(s);
    }
  }

  lemma InitHooksStep(s: State, ok: bool, t: State)
    requires Inv(s) && s.i.ContainerHooks? && Build(s, ok) == Some(t)
    ensures Inv(t)
    ensures InitMoves(s, t)
  {
    if t.i.InitReport? {
      InitFailKeepsInv(s);
    }
  }

  lemma InitPivotStep(s: State, ok: bool, t: State)
    requires Inv(s) && s.i.Pivot? && GetReady(s, ok) == Some(t)
    ensures Inv(t)
    ensures InitMoves(s, t)
  {
    if t.i.InitReport? {
      InitFailKeepsInv(s);
    }
  }

  lemma InitReadyStep(s: State, ok: bool, t: State)
    requires Inv(s) && (s.i.Secure? || s.i.SendReady?) && GetReady(s, ok) == Some(t)
    ensures Inv(t)
    ensures InitMoves(s, t)
  {
    if t.i.InitReport? {
      InitFailKeepsInv(s);
    }
  }

  lemma InitParkOpenStep(s: State, ok: bool, t: State)
    requires Inv(s) && (s.i.ParkJoin? || s.i.ParkWait?) && Park(s, ok) == Some(t)
    ensures Inv(t)
    ensures InitMoves(s, t)
  {
    if t.i.InitReport? {
      InitFailKeepsInv(s);
    }
  }

  lemma InitParkWriteStep(s: State, ok: bool, t: State)
    requires Inv(s) && s.i.ParkWrite? && Park(s, ok) == Some(t)
    ensures Inv(t)
    ensures InitMoves(s, t)
  {
    if t.i.InitReport? {
      InitFailKeepsInv(s);
      SettleKeepsInv(s.(i := InitReport));
    }
  }

  lemma InitStartsHooks(s: State)
    requires Inv(s) && s.i.ParkClose?
    ensures Inv(s.(i := StartHooks))
  {
  }

  lemma ParkCloseMovesOn(s: State)
    requires s.i.ParkClose?
    ensures InitMoves(s, Settle(s.(i := StartHooks)))
  {
  }

  lemma ParkCloseKeepsInv(s: State)
    requires Inv(s) && s.i.ParkClose?
    ensures Inv(Settle(s.(i := StartHooks)))
  {
    InitStartsHooks(s);
    SettleKeepsInv(s.(i := StartHooks));
  }

  lemma ParkCloses(s: State, ok: bool)
    requires s.i.ParkClose?
    ensures Park(s, ok) == Some(Settle(s.(i := StartHooks)))
  {
  }

  lemma InitParkCloseStep(s: State, ok: bool, t: State)
    requires Inv(s) && s.i.ParkClose? && Park(s, ok) == Some(t)
    ensures Inv(t)
    ensures InitMoves(s, t)
  {
    ParkCloses(s, ok);
    ParkCloseKeepsInv(s);
    ParkCloseMovesOn(s);
  }

  lemma InitExecStep(s: State, ok: bool, t: State)
    requires Inv(s) && (s.i.StartHooks? || s.i.Unblock?) && Launch(s, ok) == Some(t)
    ensures Inv(t)
    ensures InitMoves(s, t)
  {
    if t.i.InitReport? {
      InitFailKeepsInv(s);
    }
  }

  lemma InitRunStep(s: State, ok: bool, t: State)
    requires Inv(s) && s.i.Exec? && Launch(s, ok) == Some(t)
    ensures Inv(t)
    ensures InitMoves(s, t)
  {
    if t.i.InitReport? {
      InitFailKeepsInv(s);
    }
  }

  lemma InitLeaves(s: State)
    requires Inv(s) && s.i.InitReport?
    ensures Inv(s.(i := InitLeave))
  {
  }

  lemma InitReportStep(s: State, ok: bool, t: State)
    requires Inv(s) && s.i.InitReport? && Launch(s, ok) == Some(t)
    ensures Inv(t)
    ensures InitMoves(s, t)
  {
    if RuntimeClosed(s.r) {
      InitLeaves(s);
    }
  }

  lemma InitLeaveStep(s: State, ok: bool, t: State)
    requires Inv(s) && s.i.InitLeave? && Launch(s, ok) == Some(t)
    ensures Inv(t)
    ensures InitMoves(s, t)
  {
    InitDies(s);
  }

  lemma InitKeepsInv(s: State, ok: bool, t: State)
    requires Inv(s) && StepInit(s, ok) == Some(t)
    ensures Inv(t)
    ensures InitMoves(s, t)
  {
    if s.i.AwaitApplied? {
      InitAwaitAppliedStep(s, ok, t);
    } else if s.i.UnshareCgroup? || s.i.MountRootfs? {
      InitUnshareStep(s, ok, t);
    } else if s.i.ContainerHooks? {
      InitHooksStep(s, ok, t);
    } else if s.i.Pivot? {
      InitPivotStep(s, ok, t);
    } else if s.i.Secure? || s.i.SendReady? {
      InitReadyStep(s, ok, t);
    } else if s.i.ParkJoin? || s.i.ParkWait? {
      InitParkOpenStep(s, ok, t);
    } else if s.i.ParkWrite? {
      InitParkWriteStep(s, ok, t);
    } else if s.i.ParkClose? {
      InitParkCloseStep(s, ok, t);
    } else if s.i.StartHooks? || s.i.Unblock? {
      InitExecStep(s, ok, t);
    } else if s.i.Exec? {
      InitRunStep(s, ok, t);
    } else if s.i.InitReport? {
      InitReportStep(s, ok, t);
    } else {
      InitLeaveStep(s, ok, t);
    }
  }

  lemma StarterEnters(s: State, k: nat, ok: bool, t: State)
    requires Inv(s) && k < |s.starters| && StepStarter(s, k, ok) == Some(t)
    requires s.starters[k].at.Load? || s.starters[k].at.CheckPath?
    ensures Inv(t)
    ensures |t.starters| == |s.starters| && StarterMoves(s, k, t)
  {
    var u := t.pipe;
    MoveKeepsStarters(s.starters, k, t.starters[k].at, s.pipe.bytesRead, s.pipe.readerOpens,
                      u.bytesRead, u.readerOpens, s.rec.everSaved);
  }

  lemma StarterOpens(s: State, k: nat, ok: bool, t: State)
    requires Inv(s) && k < |s.starters| && StepStarter(s, k, ok) == Some(t)
    requires s.starters[k].at.OpenPath? || s.starters[k].at.Opening?
    ensures Inv(t)
    ensures |t.starters| == |s.starters| && StarterMoves(s, k, t)
  {
    var u := t.pipe;
    MoveKeepsStarters(s.starters, k, t.starters[k].at, s.pipe.bytesRead, s.pipe.readerOpens,
                      u.bytesRead, u.readerOpens, s.rec.everSaved);
  }

  lemma StarterTakesByte(s: State, k: nat)
    requires Inv(s) && k < |s.starters| && s.starters[k].at.Read? && s.pipe.buffered > 0
    ensures var pipe := s.pipe.(buffered := s.pipe.buffered - 1, bytesRead := s.pipe.bytesRead + 1);
            var t := Move(s, k, Unlink).(pipe := pipe);
            Inv(t) && StarterMoves(s, k, t)
  {
    MoveKeepsStarters(s.starters, k, Unlink, s.pipe.bytesRead, s.pipe.readerOpens,
                      s.pipe.bytesRead + 1, s.pipe.readerOpens, s.rec.everSaved);
  }

  lemma StarterReads(s: State, k: nat, ok: bool, t: State)
    requires Inv(s) && k < |s.starters| && (s.starters[k].at.Read?) && StepStarter(s, k, ok) == Some(t)
    ensures Inv(t)
    ensures |t.starters| == |s.starters| && StarterMoves(s, k, t)
  {
    if ok && s.pipe.buffered > 0 {
      StarterTakesByte(s, k);
    } else {
      StarterDrops(s, k, Refused);
      SettleKeepsInv(Move(s, k, Refused));
      SettleMovesNobody(s, k, Move(s, k, Refused));
    }
  }

  lemma StarterSucceeds(s: State, k: nat)
    requires Inv(s) && k < |s.starters| && s.starters[k].at.Unlink?
    ensures Inv(Move(s, k, Started).(fifoPresent := false))
    ensures StarterMoves(s, k, Move(s, k, Started).(fifoPresent := false))
  {
    MoveKeepsStarters(s.starters, k, Started, s.pipe.bytesRead, s.pipe.readerOpens,
                      s.pipe.bytesRead, s.pipe.readerOpens, s.rec.everSaved);
  }

  lemma StarterUnlinks(s: State, k: nat, ok: bool, t: State)
    requires Inv(s) && k < |s.starters| && (s.starters[k].at.Unlink?) && StepStarter(s, k, ok) == Some(t)
    ensures Inv(t)
    ensures |t.starters| == |s.starters| && StarterMoves(s, k, t)
  {
    var u := if ok && s.fifoPresent then Move(s, k, Started).(fifoPresent := false) else Move(s, k, Refused);
    if ok && s.fifoPresent {
      StarterSucceeds(s, k);
    } else {
      StarterDrops(s, k, Refused);
    }
    SettleKeepsInv(u);
    SettleMovesNobody(s, k, u);
  }

  lemma StarterKeepsInv(s: State, k: nat, ok: bool, t: State)
    requires Inv(s) && k < |s.starters| && StepStarter(s, k, ok) == Some(t)
    ensures Inv(t)
    ensures |t.starters| == |s.starters| && StarterMoves(s, k, t)
  {
    if s.starters[k].at.Load? || s.starters[k].at.CheckPath? {
      StarterEnters(s, k, ok, t);
    } else if s.starters[k].at.OpenPath? || s.starters[k].at.Opening? {
      StarterOpens(s, k, ok, t);
    } else if s.starters[k].at.Read? {
      StarterReads(s, k, ok, t);
    } else {
      StarterUnlinks(s, k, ok, t);
    }
  }

  lemma KillRuntime(s: State, t: State)
    requires Inv(s) && KillProcess(s, TheRuntime) == Some(t)
    ensures Inv(t)
  {
  }

  lemma KillIntermediate(s: State, t: State)
    requires Inv(s) && KillProcess(s, TheIntermediate) == Some(t)
    ensures Inv(t)
  {
  }

  lemma KillInit(s: State, t: State)
    requires Inv(s) && KillProcess(s, TheInit) == Some(t)
    ensures Inv(t)
  {
    InitDies(s);
    SettleKeepsInv(s.(i := InitGone));
  }

  lemma KillStarter(s: State, k: nat, t: State)
    requires Inv(s) && KillProcess(s, TheStarter(k)) == Some(t)
    ensures Inv(t)
  {
    StarterDrops(s, k, StarterKilled);
    SettleKeepsInv(Move(s, k, StarterKilled));
  }

  lemma DoKeepsInv(s: State, a: Action, t: State)
    requires Inv(s) && Do(s, a) == Some(t)
    ensures Inv(t)
  {
    match a
    case Kill(TheRuntime) => KillRuntime(s, t);
    case Kill(TheIntermediate) => KillIntermediate(s, t);
    case Kill(TheInit) => KillInit(s, t);
    case Kill(TheStarter(k)) => KillStarter(s, k, t);
    case Step(TheRuntime, ok) => RuntimeKeepsInv(s, ok, t);
    case Step(TheIntermediate, ok) => IntermediateKeepsInv(s, ok, t);
    case Step(TheInit, ok) => InitKeepsInv(s, ok, t);
    case Step(TheStarter(k), ok) => StarterKeepsInv(s, k, ok, t);
  }

  lemma {:induction false} RunKeepsInv(s: State, actions: seq<Action>)
    requires Inv(s) && After(s, actions).Some?
    ensures Inv(After(s, actions).value)
    decreases |actions|
  {
    if actions != [] {
      var t := Do(s, actions[0]).value;
      DoKeepsInv(s, actions[0], t);
      RunKeepsInv(t, actions[1..]);
    }
  }

  lemma ReachableInv(s: State)
    requires Reachable(s)
    ensures Inv(s)
  {
    var s0, actions :| Initial(s0) && After(s0, actions) == Some(s);
    InvInitially(s0);
    RunKeepsInv(s0, actions);
  }
}
