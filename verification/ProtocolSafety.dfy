/** What holds in every reachable state of the create/start protocol. */
module ProtocolSafety {
  import opened Wrappers
  import opened Protocol
  import opened ProtocolInvariant

  // ---- Routing on the shared socket ----------------------------------------------------------------------

  predicate ConsumesFromRuntime(s: State, t: State) {
    |t.toChild| < |s.toChild|
  }

  predicate ConsumedByRuntime(s: State, t: State) {
    |t.toParent| < |s.toParent|
  }

  /** What the process that acts may change. */
  lemma DoMoves(s: State, a: Action, t: State)
    requires Inv(s) && Do(s, a) == Some(t)
    ensures a.Step? && a.who.TheRuntime? ==> RuntimeMoves(s, t)
    ensures a.Step? && a.who.TheIntermediate? ==> IntermediateMoves(s, t)
    ensures a.Step? && a.who.TheInit? ==> InitMoves(s, t)
    ensures a.Step? && a.who.TheStarter? ==>
            a.who.k < |s.starters| == |t.starters| && StarterMoves(s, a.who.k, t)
    ensures a.Kill? ==> KillMoves(s, a.who, t)
  {
    match a
    case Kill(who) => KillOnlyKills(s, who, t);
    case Step(TheRuntime, ok) => RuntimeKeepsInv(s, ok, t);
    case Step(TheIntermediate, ok) => IntermediateKeepsInv(s, ok, t);
    case Step(TheInit, ok) => InitKeepsInv(s, ok, t);
    case Step(TheStarter(k), ok) => StarterKeepsInv(s, k, ok, t);
  }

  ghost predicate KillMoves(s: State, who: Process, t: State) {
    && t.toParent == s.toParent && t.toChild == s.toChild && t.rec == s.rec && t.fifoPresent == s.fifoPresent
    && t.cfg == s.cfg && t.up == s.up && t.down == s.down && t.built == s.built
    && (t.r == s.r || t.r == RuntimeKilled) && (t.m == s.m || t.m == Gone)
    && t.pipe.readerOpens == s.pipe.readerOpens && t.pipe.writerOpens == s.pipe.writerOpens
    && (s.r.ReturnedErr? ==> t.r == s.r)
    && (t.i == s.i || (!s.i.Unborn? && t.i == InitGone))
    && (t.starters == s.starters || (who.TheStarter? && who.k < |s.starters|
                                     && t.starters == s.starters[who.k := s.starters[who.k].(at := StarterKilled)]))
  }

  lemma KillOnlyKills(s: State, who: Process, t: State)
    requires KillProcess(s, who) == Some(t)
    ensures KillMoves(s, who, t)
  {
  }

  /** Both children read one end of one socket, yet each message from the runtime is taken by the
      process it is meant for, and names the init's own pid. */
  lemma MessagesToChildrenAreRouted(s: State, a: Action, t: State)
    requires Reachable(s) && Do(s, a) == Some(t) && ConsumesFromRuntime(s, t)
    ensures a.Step?
    ensures a.who == TheIntermediate <==> s.toChild[0] == UserMappingDone
    ensures a.who == TheInit <==> s.toChild[0] == CgroupApplied(s.initPid)
    ensures a.who == TheIntermediate || a.who == TheInit
    ensures t.toChild == s.toChild[1..]
  {
    ReachableInv(s);
    DoMoves(s, a, t);
    assert DownInv(s.toChild, s.down, s.initPid);
  }

  /** What the runtime takes is the message it waits for, or a report of failure. */
  lemma MessagesToTheRuntimeAreExpected(s: State, a: Action, t: State)
    requires Reachable(s) && Do(s, a) == Some(t) && ConsumedByRuntime(s, t)
    ensures a.Step? && a.who == TheRuntime && t.toParent == s.toParent[1..]
    ensures var head := s.toParent[0];
            || head == Failed
            || (s.r == RecvFirst && head == (if s.cfg.userNs then RequestUserMapping else InitPid(s.initPid)))
            || (s.r == RecvSecond && head == InitPid(s.initPid))
            || (s.r == ExpectReady && head == InitReady)
  {
    ReachableInv(s);
    DoMoves(s, a, t);
    assert UpInv(Place(s.r), s.toParent, s.up, s.initPid);
    if s.r.RecvFirst? && s.toParent[0].InitPid? && s.cfg.userNs {
      RequestPrecedesPid(s);
    }
  }

  lemma RequestPrecedesPid(s: State)
    requires Inv(s) && s.up.pidSent && s.cfg.userNs
    ensures s.up.requested
  {
  }

  /** No receive ever fails because of a message out of order. */
  lemma NoMessageIsOutOfOrder(s: State)
    requires Reachable(s)
    ensures !s.mismatch
  {
    ReachableInv(s);
  }

  // ---- Order ----------------------------------------------------------------------------------------------

  /** The init unshares its cgroup namespace, mounts or pivots only after its pid is in the cgroup and
      every prestart and createRuntime hook succeeded; and it does the three in that order. */
  lemma PlacementPrecedesTheContainer(s: State)
    requires Reachable(s)
    ensures s.built.cgroupUnshared || s.built.mounted || s.built.pivoted ==>
            s.rec.attached && s.rec.hooksOk && s.adopted == s.initPid
    ensures s.built.pivoted ==> s.built.mounted
    ensures s.built.mounted ==> s.cfg.mountNs && (s.cfg.cgroupNs ==> s.built.cgroupUnshared)
  {
    ReachableInv(s);
  }

  /** The user program runs only after a releaser opened the pipe, which needs state.json, which
      needs InitReady, which needs a complete container. */
  lemma ProgramRunsOnlyWhenReleased(s: State)
    requires Reachable(s)
    ensures s.built.executed ==> s.pipe.readerOpens > 0 && s.pipe.written == 1
    ensures s.pipe.readerOpens > 0 ==> s.rec.everSaved
    ensures s.rec.everSaved ==> s.rec.readyReceived
    ensures s.rec.readyReceived ==>
            && s.up.readySent && s.rec.hooksOk && s.rec.attached
            && (s.cfg.cgroupNs ==> s.built.cgroupUnshared) && (s.cfg.mountNs ==> s.built.pivoted)
  {
    ReachableInv(s);
  }

  // ---- Started at most once -------------------------------------------------------------------------------

  lemma {:induction false} TwoHolders(ps: seq<Starter>, j: nat, k: nat)
    requires j < k < |ps| && HoldsByte(ps[j]) && HoldsByte(ps[k])
    ensures Holders(ps) >= 2
  {
    if j == 0 {
      OneHolder(ps[1..], k - 1);
    } else {
      TwoHolders(ps[1..], j - 1, k - 1);
    }
  }

  lemma {:induction false} OneHolder(ps: seq<Starter>, k: nat)
    requires k < |ps| && HoldsByte(ps[k])
    ensures Holders(ps) >= 1
  {
    if k > 0 { OneHolder(ps[1..], k - 1); }
  }

  /** The handshake byte is written at most once and never duplicated; so, however many `start` and
      `run` commands race, at most one of them succeeds. */
  lemma StartedAtMostOnce(s: State)
    requires Reachable(s)
    ensures s.pipe.bytesRead + s.pipe.buffered <= s.pipe.written <= 1
    ensures forall j, k | 0 <= j < |s.starters| && 0 <= k < |s.starters| ::
              s.starters[j].at == Started && s.starters[k].at == Started ==> j == k
  {
    ReachableInv(s);
    forall j, k | 0 <= j < k < |s.starters| && s.starters[j].at == Started && s.starters[k].at == Started
      ensures false
    {
      TwoHolders(s.starters, j, k);
    }
  }
}
