/** The create command of the lifecycle is the outcome of the create handshake. */
module CreateOutcome {
  import opened Wrappers
  import Lifecycle
  import opened Protocol
  import opened ProtocolProgress
  import opened ProtocolSuccess

  /** Where an undisturbed handshake for the container ends, whatever the interleaving: `s0` is the state
      after the fork, with the freezer of the cgroup as the lifecycle has it. */
  ghost predicate HandshakeEnds(m: Lifecycle.Machine, s0: State, actions: seq<Action>, s: State) {
    && Initial(s0) && s0.cfg.frozen == m.wanted
    && (forall a | a in actions :: Undisturbed(a)) && After(s0, actions) == Some(s) && AtRest(s)
  }

  /** The command is done, or hangs, exactly if every such handshake returns success, or is stuck. */
  lemma CreateIsTheHandshake(m: Lifecycle.Machine, age: nat, name: string, s0: State, actions: seq<Action>, s: State)
    requires m.recorded.None? && HandshakeEnds(m, s0, actions, s)
    ensures Lifecycle.CreateContainer(m, age, name).1 == Lifecycle.Done <==> s.r == ReturnedOk
    ensures Lifecycle.CreateContainer(m, age, name).1 == Lifecycle.Hangs <==> Stuck(s)
  {
    UndisturbedCreate(s0, actions);
    assert Reachable(s);
    DeadlockExactly(s);
  }

  /** A container that is deleted while the rest of its cgroup stays frozen cannot be created again until
      somebody thaws what is left: whatever happens outside, the next handshake gets stuck. */
  lemma FrozenLeftoverBlocksCreate(m: Lifecycle.Machine, thaw: Lifecycle.Answer, dies: bool,
                                   es: seq<Lifecycle.Event>, s0: State, actions: seq<Action>, s: State)
    requires Lifecycle.StatusOf(m) == Some(Lifecycle.Stopped) && m.wanted
    requires forall e | e in es :: !Lifecycle.IsCommand(e)
    requires var deleted := Lifecycle.Command(m, Lifecycle.Delete(false, thaw, dies, false, Lifecycle.Complete)).0;
             HandshakeEnds(Lifecycle.Run(deleted, es), s0, actions, s)
    ensures Stuck(s) && WaitingForAFrozenInit(s)
  {
    var deleted := Lifecycle.Command(m, Lifecycle.Delete(false, thaw, dies, false, Lifecycle.Complete)).0;
    Lifecycle.LeftoverStaysWanted(deleted, es);
    CreateIsTheHandshake(Lifecycle.Run(deleted, es), 0, "", s0, actions, s);
    UndisturbedCreate(s0, actions);
  }
}
