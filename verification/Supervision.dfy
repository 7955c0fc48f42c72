/** The supervisor of `run`: it waits for blocked signals, forwards them to the container init, and
    reaps children when SIGCHLD arrives.

    The kernel is a class with the pending set (one bit a signal, so arrivals coalesce), the table of
    children, and an arbitrary schedule of what happens outside. One batch of the schedule happens
    before every system call; when the schedule is used up nothing more happens, so a wait with
    nothing pending then blocks for ever. Any finite behaviour of the outside is some schedule. */
module Supervision {
  import opened Wrappers

  datatype Signal =
    | SIGTERM | SIGINT | SIGQUIT | SIGHUP | SIGUSR1 | SIGUSR2 | SIGWINCH
    | SIGCHLD
    | OtherSignal(number: nat)

  const FORWARDED: seq<Signal> := [SIGTERM, SIGINT, SIGQUIT, SIGHUP, SIGUSR1, SIGUSR2, SIGWINCH]

  datatype ExitStatus = Exited(code: nat) | Signaled(number: nat)

  /** The end of a child, as its parent reaps it. */
  datatype End = End(pid: int, status: ExitStatus)

  datatype Child = Alive | Zombie(status: ExitStatus)

  datatype Event = Arrives(signal: Signal) | Adopts(pid: int) | Dies(pid: int, status: ExitStatus)

  datatype Entry =
    | Arrived(signal: Signal)
    | Took(signal: Signal)
    | Forwarded(pid: int, signal: Signal)
    | Died(pid: int, status: ExitStatus)

  /** `log` is what happened and what was forwarded, `reaped` the children reaped, in order. */
  datatype World = World(
    blocked: set<Signal>, pending: set<Signal>, children: map<int, Child>, log: seq<Entry>,
    reaped: seq<End>)

  // ---- What happens outside --------------------------------------------------------------------------

  /** A blocked signal becomes pending; any other is not the supervisor's business. A death makes the
      child a zombie and raises SIGCHLD, which is lost if it is not blocked. */
  function Happen(w: World, e: Event): World {
    match e
    case Arrives(signal) =>
      if signal in w.blocked then w.(pending := w.pending + {signal}, log := w.log + [Arrived(signal)]) else w
    case Adopts(pid) => if pid in w.children then w else w.(children := w.children[pid := Alive])
    case Dies(pid, status) =>
      if pid in w.children && w.children[pid].Alive? then
        w.(children := w.children[pid := Zombie(status)],
           pending := if SIGCHLD in w.blocked then w.pending + {SIGCHLD} else w.pending,
           log := w.log + [Died(pid, status)])
      else w
  }

  function HappenAll(w: World, batch: seq<Event>): World
    decreases |batch|
  {
    if batch == [] then w else HappenAll(Happen(w, batch[0]), batch[1..])
  }

  // ---- The invariants of the supervisor ----------------------------------------------------------------

  predicate NoZombies(w: World) {
    forall p | p in w.children :: w.children[p].Alive?
  }

  /** A dead child that was not reaped has its SIGCHLD pending. */
  predicate NoLostDeath(w: World) {
    SIGCHLD in w.pending || NoZombies(w)
  }

  /** Every zombie died as its status says. */
  predicate StatusesAreReal(w: World) {
    forall p | p in w.children && w.children[p].Zombie? :: Died(p, w.children[p].status) in w.log
  }

  function TakenToForward(log: seq<Entry>): seq<Signal> {
    if log == [] then []
    else
      var e := log[|log| - 1];
      TakenToForward(log[..|log| - 1]) + (if e.Took? && e.signal != SIGCHLD then [e.signal] else [])
  }

  function Forwards(log: seq<Entry>): seq<(int, Signal)> {
    if log == [] then []
    else
      var e := log[|log| - 1];
      Forwards(log[..|log| - 1]) + (if e.Forwarded? then [(e.pid, e.signal)] else [])
  }

  function To(pid: int, signals: seq<Signal>): seq<(int, Signal)> {
    seq(|signals|, i requires 0 <= i < |signals| => (pid, signals[i]))
  }

  predicate ForwardedAfter(log: seq<Entry>, i: nat, signal: Signal) {
    exists j :: i < j < |log| && log[j].Forwarded? && log[j].signal == signal
  }

  /** Every signal that arrived to be forwarded is still pending or was forwarded since; `but` may be
      in the supervisor's hands. */
  predicate NoSignalLost(w: World, but: Option<Signal>) {
    forall i | 0 <= i < |w.log| && w.log[i].Arrived? && w.log[i].signal != SIGCHLD && but != Some(w.log[i].signal) ::
      w.log[i].signal in w.pending || ForwardedAfter(w.log, i, w.log[i].signal)
  }

  ghost predicate Sound(w: World, but: Option<Signal>) {
    && w.pending <= w.blocked
    && SIGCHLD in w.blocked
    && StatusesAreReal(w)
    && NoSignalLost(w, but)
  }

  lemma NoSignalLostLonger(w: World, w': World, but: Option<Signal>)
    requires NoSignalLost(w, but) && |w'.log| == |w.log| + 1 && w'.log[..|w.log|] == w.log
    requires w.pending <= w'.pending
    requires w'.log[|w.log|].Arrived? ==> w'.log[|w.log|].signal in w'.pending
    ensures NoSignalLost(w', but)
  {
    forall i | 0 <= i < |w'.log| && w'.log[i].Arrived? && w'.log[i].signal != SIGCHLD && but != Some(w'.log[i].signal)
      ensures w'.log[i].signal in w'.pending || ForwardedAfter(w'.log, i, w'.log[i].signal)
    {
      if i < |w.log| {
        assert w'.log[..|w.log|][i] == w.log[i];
        if ForwardedAfter(w.log, i, w.log[i].signal) {
          var j :| i < j < |w.log| && w.log[j].Forwarded? && w.log[j].signal == w.log[i].signal;
          assert w'.log[..|w.log|][j] == w.log[j];
        }
      }
    }
  }

  lemma HappenKeepsSound(w: World, e: Event, but: Option<Signal>)
    requires Sound(w, but)
    ensures Sound(Happen(w, e), but)
    ensures NoLostDeath(w) ==> NoLostDeath(Happen(w, e))
    ensures Forwards(Happen(w, e).log) == Forwards(w.log)
    ensures TakenToForward(Happen(w, e).log) == TakenToForward(w.log)
    ensures w.log <= Happen(w, e).log && w.children.Keys <= Happen(w, e).children.Keys
  {
    var t := Happen(w, e);
    if t.log != w.log {
      assert t.log[..|w.log|] == w.log;
      NoSignalLostLonger(w, t, but);
    }
  }

  lemma {:induction false} HappenAllKeepsSound(w: World, batch: seq<Event>, but: Option<Signal>)
    requires Sound(w, but)
    ensures Sound(HappenAll(w, batch), but)
    ensures NoLostDeath(w) ==> NoLostDeath(HappenAll(w, batch))
    ensures Forwards(HappenAll(w, batch).log) == Forwards(w.log)
    ensures TakenToForward(HappenAll(w, batch).log) == TakenToForward(w.log)
    ensures w.log <= HappenAll(w, batch).log && w.children.Keys <= HappenAll(w, batch).children.Keys
    decreases |batch|
  {
    if batch != [] {
      HappenKeepsSound(w, batch[0], but);
      HappenAllKeepsSound(Happen(w, batch[0]), batch[1..], but);
    }
  }

  /** What blocking the forwarded signals is for: one that arrives is pending until it is taken. */
  lemma BlockedArrivalIsPending(w: World, signal: Signal, batch: seq<Event>)
    requires Sound(w, None) && signal in w.blocked
    ensures var later := HappenAll(Happen(w, Arrives(signal)), batch);
            signal in later.pending && Arrived(signal) in later.log
  {
    HappenKeepsSound(w, Arrives(signal), None);
    PendingStays(Happen(w, Arrives(signal)), batch);
    HappenAllKeepsSound(Happen(w, Arrives(signal)), batch, None);
  }

  lemma {:induction false} PendingStays(w: World, batch: seq<Event>)
    ensures w.pending <= HappenAll(w, batch).pending
    decreases |batch|
  {
    if batch != [] { PendingStays(Happen(w, batch[0]), batch[1..]); }
  }

  /** What blocking SIGCHLD before the fork is for: without it a death leaves nothing pending. */
  lemma UnblockedDeathIsLost(w: World, pid: int, status: ExitStatus)
    requires SIGCHLD !in w.blocked && w.pending <= w.blocked && pid in w.children && w.children[pid].Alive?
    ensures !NoLostDeath(Happen(w, Dies(pid, status)))
    ensures Happen(w, Dies(pid, status)).children == w.children[pid := Zombie(status)]
    ensures Happen(w, Dies(pid, status)).log == w.log + [Died(pid, status)]
  {
    assert Happen(w, Dies(pid, status)).children[pid].Zombie?;
  }

  // ---- Who is accounted for ----------------------------------------------------------------------------

  /** Every zombie of `was` is still there as it was, or was reaped; and reaping is recorded in order. */
  ghost predicate Accounts(was: World, now: World) {
    && was.reaped <= now.reaped
    && forall p | p in was.children && was.children[p].Zombie? ::
         (p in now.children && now.children[p] == was.children[p]) || End(p, was.children[p].status) in now.reaped
  }

  /** Nobody died in between: the living live, the zombies are old ones, and only such were reaped. */
  ghost predicate Quiet(was: World, now: World) {
    && was.reaped <= now.reaped
    && (forall p | p in was.children && was.children[p].Alive? :: p in now.children && now.children[p].Alive?)
    && (forall p | p in now.children && now.children[p].Zombie? ::
          p in was.children && was.children[p] == now.children[p])
    && (forall e | e in now.reaped ::
          e in was.reaped || (e.pid in was.children && was.children[e.pid] == Zombie(e.status)))
  }

  lemma AccountsTransitive(a: World, b: World, c: World)
    requires Accounts(a, b) && Accounts(b, c)
    ensures Accounts(a, c)
  {
  }

  lemma QuietTransitive(a: World, b: World, c: World)
    requires Quiet(a, b) && Quiet(b, c)
    ensures Quiet(a, c)
  {
    forall e | e in c.reaped && e !in a.reaped ensures e.pid in a.children && a.children[e.pid] == Zombie(e.status) {
      if e !in b.reaped {
        assert e.pid in b.children && b.children[e.pid].Zombie?;
      }
    }
  }

  /** What a stretch of supervision comes to: who was there is accounted for, and the living live on if
      nothing was left to happen. */
  ghost predicate Supervised(was: World, quiet: bool, now: World) {
    Accounts(was, now) && (quiet ==> Quiet(was, now))
  }

  lemma SupervisedTransitive(a: World, b: World, c: World, quiet: bool)
    requires Supervised(a, quiet, b) && Supervised(b, quiet, c)
    ensures Supervised(a, quiet, c)
  {
    AccountsTransitive(a, b, c);
    if quiet { QuietTransitive(a, b, c); }
  }

  lemma SameChildren(w: World, quiet: bool, now: World)
    requires now.children == w.children && now.reaped == w.reaped
    ensures Supervised(w, quiet, now)
  {
  }

  lemma {:induction false} HappenAllAccounts(w: World, batch: seq<Event>)
    ensures Accounts(w, HappenAll(w, batch)) && HappenAll(w, batch).reaped == w.reaped
    decreases |batch|
  {
    if batch != [] {
      HappenAllAccounts(Happen(w, batch[0]), batch[1..]);
      AccountsTransitive(w, Happen(w, batch[0]), HappenAll(w, batch));
    }
  }

  // ---- System calls -----------------------------------------------------------------------------------

  datatype WaitResult =
    | ReapedExited(pid: int, code: nat)
    | ReapedSignaled(pid: int, number: nat)
    | StillAlive
    | NoChildren
    | WaitFailed

  /** Signal numbers the signal type of the runtime can name; a wait status with any other fails to
      decode, after the child was reaped. */
  const NAMED_SIGNALS := 31

  function Decode(pid: int, status: ExitStatus): WaitResult {
    match status
    case Exited(code) => ReapedExited(pid, code)
    case Signaled(number) => if number <= NAMED_SIGNALS then ReapedSignaled(pid, number) else WaitFailed
  }

  /** The last child reaped is `pid`, which had died with `status`. */
  predicate JustReaped(w: World, pid: int, status: ExitStatus) {
    w.reaped != [] && w.reaped[|w.reaped| - 1] == End(pid, status) && Died(pid, status) in w.log
  }

  /** The runtime has a name for the way the child ended: the named signals end at SIGSYS, number 31. */
  predicate Decodable(status: ExitStatus) {
    status.Signaled? ==> status.number <= 31
  }

  predicate AllDecodable(reaped: seq<End>) {
    forall e | e in reaped :: Decodable(e.status)
  }

  class Kernel {
    var w: World
    var future: seq<seq<Event>>

    constructor (w: World, future: seq<seq<Event>>)
      ensures this.w == w && this.future == future
    {
      this.w := w;
      this.future := future;
    }

    /** The next batch of the schedule happens. */
    method Elapse()
      modifies this
      ensures Supervised(old(w), old(future) == [], w) && w.reaped == old(w.reaped)
      ensures old(future) == [] ==> w == old(w) && future == []
      ensures old(future) != [] ==> w == HappenAll(old(w), old(future)[0]) && future == old(future)[1..]
    {
      if future == [] {
        SameChildren(w, true, w);
      } else {
        HappenAllAccounts(w, future[0]);
        w := HappenAll(w, future[0]);
        future := future[1..];
      }
    }

    /** The same, with what the supervisor relies on. */
    method Pass()
      requires Sound(w, None)
      modifies this
      ensures Sound(w, None) && (NoLostDeath(old(w)) ==> NoLostDeath(w))
      ensures Forwards(w.log) == Forwards(old(w.log)) && TakenToForward(w.log) == TakenToForward(old(w.log))
      ensures old(w.log) <= w.log && old(w.children).Keys <= w.children.Keys
      ensures Supervised(old(w), old(future) == [], w) && w.reaped == old(w.reaped)
      ensures |future| < |old(future)| || (future == old(future) == [] && w == old(w))
    {
      HappenAllKeepsSound(w, if future == [] then [] else future[0], None);
      Elapse();
    }

    /** Lets time pass until a signal of `awaited` is pending, as long as anything can happen. */
    method Linger(awaited: set<Signal>)
      requires Sound(w, None) && NoLostDeath(w)
      modifies this
      ensures Sound(w, None) && NoLostDeath(w)
      ensures w.pending * awaited == {} ==> future == []
      ensures Forwards(w.log) == Forwards(old(w.log)) && TakenToForward(w.log) == TakenToForward(old(w.log))
      ensures old(w.log) <= w.log && old(w.children).Keys <= w.children.Keys
      ensures Supervised(old(w), old(future) == [], w) && w.reaped == old(w.reaped)
      ensures |future| < |old(future)| || (future == old(future) == [] && w == old(w))
    {
      ghost var start, quiet := w, future == [];
      Pass();
      while w.pending * awaited == {} && future != []
        invariant Sound(w, None) && NoLostDeath(w)
        invariant Forwards(w.log) == Forwards(start.log) && TakenToForward(w.log) == TakenToForward(start.log)
        invariant start.log <= w.log && start.children.Keys <= w.children.Keys
        invariant Supervised(start, quiet, w) && w.reaped == start.reaped
        invariant |future| < |old(future)| || (future == old(future) == [] && w == start)
        decreases |future|
      {
        ghost var before := w;
        Pass();
        SupervisedTransitive(start, before, w, false);
      }
    }

    /** Takes some pending signal of `awaited`. */
    method Take(awaited: set<Signal>) returns (signal: Signal)
      requires Sound(w, None) && NoLostDeath(w) && w.pending * awaited != {}
      modifies this`w
      ensures Sound(w, Some(signal)) && signal in awaited && (signal != SIGCHLD ==> NoLostDeath(w))
      ensures Forwards(w.log) == Forwards(old(w.log)) && old(w.log) <= w.log
      ensures TakenToForward(w.log) == TakenToForward(old(w.log)) + (if signal == SIGCHLD then [] else [signal])
      ensures w.children == old(w.children) && w.reaped == old(w.reaped) && |w.pending| < |old(w.pending)|
    {
      signal :| signal in w.pending * awaited;
      TakingKeepsSound(w, signal);
      w := w.(pending := w.pending - {signal}, log := w.log + [Took(signal)]);
    }

    /** sigwait: takes some pending signal of `set`, waiting for one as long as anything can happen. */
    method SigWait(awaited: set<Signal>) returns (signal: Option<Signal>)
      requires Sound(w, None) && NoLostDeath(w)
      modifies this
      ensures Sound(w, signal)
      ensures signal.None? ==>
              && future == [] && w.pending * awaited == {} && (SIGCHLD in awaited ==> NoZombies(w))
              && TakenToForward(w.log) == TakenToForward(old(w.log))
      ensures signal.Some? ==>
              && signal.value in awaited
              && TakenToForward(w.log)
                 == TakenToForward(old(w.log)) + (if signal.value == SIGCHLD then [] else [signal.value])
              && (signal.value != SIGCHLD ==> NoLostDeath(w))
      ensures Forwards(w.log) == Forwards(old(w.log))
      ensures old(w.log) <= w.log && old(w.children).Keys <= w.children.Keys
      ensures Supervised(old(w), old(future) == [], w) && w.reaped == old(w.reaped)
      ensures |future| < |old(future)|
              || (future == old(future) == [] && w.children == old(w.children)
                  && (signal.Some? ==> |w.pending| < |old(w.pending)|))
    {
      Linger(awaited);
      if w.pending * awaited == {} {
        assert SIGCHLD in w.pending && SIGCHLD in awaited ==> SIGCHLD in w.pending * awaited;
        return None;
      }
      ghost var start, before := old(w), w;
      var taken := Take(awaited);
      signal := Some(taken);
      SameChildren(before, old(future) == [], w);
      SupervisedTransitive(start, before, w, old(future) == []);
    }

    /** kill(2): the attempt is what counts, its result is discarded. */
    method Kill(pid: int, signal: Signal)
      requires Sound(w, Some(signal)) && signal != SIGCHLD && NoLostDeath(w)
      modifies this`w
      ensures Sound(w, None) && NoLostDeath(w)
      ensures w == old(w).(log := old(w.log) + [Forwarded(pid, signal)])
      ensures Forwards(w.log) == Forwards(old(w.log)) + [(pid, signal)]
      ensures TakenToForward(w.log) == TakenToForward(old(w.log))
    {
      ghost var before := w;
      w := w.(log := w.log + [Forwarded(pid, signal)]);
      ForwardingKeepsSound(before, pid, signal);
    }

    /** waitpid(None, WNOHANG). */
    method WaitNoHang() returns (result: WaitResult, ghost pid: int, ghost status: ExitStatus)
      requires Sound(w, None)
      modifies this
      ensures Sound(w, None)
      ensures Forwards(w.log) == Forwards(old(w.log)) && TakenToForward(w.log) == TakenToForward(old(w.log))
      ensures old(w.log) <= w.log
      ensures Supervised(old(w), old(future) == [], w)
      ensures result.StillAlive? || result.NoChildren? ==>
              NoZombies(w) && old(w.children).Keys <= w.children.Keys && w.reaped == old(w.reaped)
      ensures result.NoChildren? <==> w.children == map[] && NoZombies(w) && (result.StillAlive? || result.NoChildren?)
      ensures !result.StillAlive? && !result.NoChildren? ==>
              && JustReaped(w, pid, status) && result == Decode(pid, status)
              && w.reaped == old(w.reaped) + [End(pid, status)]
              && old(w.children).Keys <= w.children.Keys + {pid}
      ensures |future| < |old(future)|
              || (future == old(future) == [] && w.pending == old(w.pending)
                  && (result.StillAlive? || result.NoChildren? ==> w.children == old(w.children))
                  && (!result.StillAlive? && !result.NoChildren? ==> |w.children| < |old(w.children)|))
    {
      ghost var start := w;
      Pass();
      ghost var before := w;
      result, pid, status := Collect();
      SupervisedTransitive(start, before, w, old(future) == []);
    }

    /** Reaps some zombie, if there is one. */
    method Collect() returns (result: WaitResult, ghost pid: int, ghost status: ExitStatus)
      requires Sound(w, None)
      modifies this`w
      ensures Sound(w, None) && w.log == old(w.log) && w.pending == old(w.pending)
      ensures Supervised(old(w), true, w) && Supervised(old(w), false, w)
      ensures result.StillAlive? || result.NoChildren? ==> NoZombies(w) && w == old(w)
      ensures result.NoChildren? <==> w.children == map[] && NoZombies(w) && (result.StillAlive? || result.NoChildren?)
      ensures !result.StillAlive? && !result.NoChildren? ==>
              && JustReaped(w, pid, status) && result == Decode(pid, status)
              && w.reaped == old(w.reaped) + [End(pid, status)]
              && old(w.children).Keys <= w.children.Keys + {pid} && |w.children| < |old(w.children)|
    {
      pid, status := 0, Exited(0);
      if zombie :| zombie in w.children && w.children[zombie].Zombie? {
        ReapingKeepsSound(w, zombie);
        ReapingAccounts(w, zombie);
        pid, status := zombie, w.children[zombie].status;
        result := Decode(zombie, w.children[zombie].status);
        w := w.(children := w.children - {zombie}, reaped := w.reaped + [End(zombie, w.children[zombie].status)]);
      } else {
        SameChildren(w, true, w);
        SameChildren(w, false, w);
        result := if w.children == map[] then NoChildren else StillAlive;
      }
    }
  }

  lemma TakingKeepsSound(w: World, s: Signal)
    requires Sound(w, None) && s in w.pending
    ensures var t := w.(pending := w.pending - {s}, log := w.log + [Took(s)]);
            && Sound(t, Some(s)) && Forwards(t.log) == Forwards(w.log)
            && TakenToForward(t.log) == TakenToForward(w.log) + (if s == SIGCHLD then [] else [s])
  {
    var t := w.(pending := w.pending - {s}, log := w.log + [Took(s)]);
    assert t.log[..|w.log|] == w.log;
    forall i | 0 <= i < |t.log| && t.log[i].Arrived? && t.log[i].signal != SIGCHLD && Some(s) != Some(t.log[i].signal)
      ensures t.log[i].signal in t.pending || ForwardedAfter(t.log, i, t.log[i].signal)
    {
      assert w.log[i] == t.log[i];
      if ForwardedAfter(w.log, i, w.log[i].signal) {
        var j :| i < j < |w.log| && w.log[j].Forwarded? && w.log[j].signal == w.log[i].signal;
        assert t.log[j] == w.log[j];
      }
    }
  }

  lemma ForwardingKeepsSound(w: World, pid: int, s: Signal)
    requires Sound(w, Some(s)) && s != SIGCHLD
    ensures var t := w.(log := w.log + [Forwarded(pid, s)]);
            && Sound(t, None) && Forwards(t.log) == Forwards(w.log) + [(pid, s)]
            && TakenToForward(t.log) == TakenToForward(w.log)
  {
    var t := w.(log := w.log + [Forwarded(pid, s)]);
    assert t.log[..|w.log|] == w.log;
    forall i | 0 <= i < |t.log| && t.log[i].Arrived? && t.log[i].signal != SIGCHLD
      ensures t.log[i].signal in t.pending || ForwardedAfter(t.log, i, t.log[i].signal)
    {
      assert w.log[i] == t.log[i];
      if t.log[i].signal == s {
        assert t.log[|w.log|] == Forwarded(pid, s);
      } else if ForwardedAfter(w.log, i, w.log[i].signal) {
        var j :| i < j < |w.log| && w.log[j].Forwarded? && w.log[j].signal == w.log[i].signal;
        assert t.log[j] == w.log[j];
      }
    }
  }

  lemma ReapingKeepsSound(w: World, pid: int)
    requires Sound(w, None) && pid in w.children && w.children[pid].Zombie?
    ensures var t := w.(children := w.children - {pid}, reaped := w.reaped + [End(pid, w.children[pid].status)]);
            && Sound(t, None) && JustReaped(t, pid, w.children[pid].status)
            && |t.children| < |w.children| && w.children.Keys <= t.children.Keys + {pid}
  {
    var t := w.(children := w.children - {pid}, reaped := w.reaped + [End(pid, w.children[pid].status)]);
    assert NoSignalLost(t, None);
    assert w.children.Keys == t.children.Keys + {pid};
    assert |w.children.Keys| == |t.children.Keys| + 1;
  }

  lemma ReapingAccounts(w: World, pid: int)
    requires pid in w.children && w.children[pid].Zombie?
    ensures var t := w.(children := w.children - {pid}, reaped := w.reaped + [End(pid, w.children[pid].status)]);
            Supervised(w, true, t) && Supervised(w, false, t)
  {
  }

  // ---- The runtime ----------------------------------------------------------------------------------------

  /** Blocks the forwarded signals and SIGCHLD. */
  method BlockForwardable(k: Kernel) returns (blocked: set<Signal>)
    modifies k`w
    ensures blocked == {SIGTERM, SIGINT, SIGQUIT, SIGHUP, SIGUSR1, SIGUSR2, SIGWINCH, SIGCHLD}
    ensures k.w == old(k.w).(blocked := old(k.w.blocked) + blocked)
  {
    blocked := {};
    for i := 0 to |FORWARDED|
      invariant blocked == set s | s in FORWARDED[..i]
    {
      assert FORWARDED[..i + 1] == FORWARDED[..i] + [FORWARDED[i]];
      blocked := blocked + {FORWARDED[i]};
    }
    assert FORWARDED[..|FORWARDED|] == FORWARDED;
    assert FORWARDED == [SIGTERM, SIGINT, SIGQUIT, SIGHUP, SIGUSR1, SIGUSR2, SIGWINCH];
    blocked := blocked + {SIGCHLD};
    k.w := k.w.(blocked := k.w.blocked + blocked);
  }

  datatype Outcome = Code(code: nat) | Failure | BlocksForever

  /** What was taken was forwarded, in order, and to the init. */
  ghost predicate Forwarding(w: World, init: int) {
    Sound(w, None) && Forwards(w.log) == To(init, TakenToForward(w.log))
  }

  /** The inner loop of the supervisor: reaps until nothing is left to reap, or the init was. */
  method Drain(k: Kernel, init: int)
    returns (done: Option<Outcome>, ghost pid: int, ghost status: ExitStatus)
    requires Forwarding(k.w, init) && init in k.w.children && AllDecodable(k.w.reaped)
    modifies k
    ensures Forwarding(k.w, init)
    ensures Supervised(old(k.w), old(k.future) == [], k.w)
    ensures done.None? ==> NoZombies(k.w) && init in k.w.children
    ensures done.Some? ==> done.value != BlocksForever && JustReaped(k.w, pid, status)
    ensures done.Some? && done.value.Code? ==>
            pid == init && (match status
                            case Exited(code) => done.value.code == code % 256
                            case Signaled(number) => done.value.code == 128 + number && number <= 31)
    ensures done == Some(Failure) <==> !AllDecodable(k.w.reaped)
    ensures done == Some(Failure) ==> !Decodable(status)
    ensures |k.future| < |old(k.future)|
            || (k.future == old(k.future) && k.w.pending == old(k.w.pending) && |k.w.children| <= |old(k.w.children)|)
  {
    pid, status := init, Exited(0);
    ghost var quiet := k.future == [];
    SameChildren(k.w, quiet, k.w);
    while true
      invariant Forwarding(k.w, init) && init in k.w.children && AllDecodable(k.w.reaped)
      invariant Supervised(old(k.w), quiet, k.w) && (quiet ==> k.future == [])
      invariant |k.future| < |old(k.future)|
                || (k.future == old(k.future) && k.w.pending == old(k.w.pending)
                    && |k.w.children| <= |old(k.w.children)|)
      decreases |k.future|, |k.w.children|
    {
      ghost var before := k.w;
      var result;
      result, pid, status := k.WaitNoHang();
      SupervisedTransitive(old(k.w), before, k.w, quiet);
      match result {
        case ReapedExited(child, code) =>
          if child == init {
            return Some(Code(code % 256)), pid, status;
          }
        case ReapedSignaled(child, number) =>
          if child == init {
            return Some(Code((128 + number) % 256)), pid, status;
          }
        case StillAlive => return None, pid, status;
        case NoChildren => return None, pid, status;
        case WaitFailed =>
          assert k.w.reaped[|k.w.reaped| - 1] == End(pid, status);
          return Some(Failure), pid, status;
      }
    }
  }

  /** The supervisor. It gives up with an error if and only if it reaps a child, the init or any other,
      that was killed by a signal the runtime cannot name; else it returns the init's own exit code, or
      128 plus the signal that killed it; and it blocks for ever only on a live init, with nobody left to
      reap. Each signal it takes is forwarded exactly once, in order, and none that arrived is dropped. */
  method Supervise(k: Kernel, blocked: set<Signal>, init: int)
    returns (outcome: Outcome, ghost pid: int, ghost status: ExitStatus)
    requires Forwarding(k.w, init) && NoLostDeath(k.w) && init in k.w.children && SIGCHLD in blocked
    requires AllDecodable(k.w.reaped)
    modifies k
    ensures Forwarding(k.w, init)
    ensures Supervised(old(k.w), old(k.future) == [], k.w)
    ensures outcome.Failure? <==> !AllDecodable(k.w.reaped)
    ensures outcome.Code? ==>
            && JustReaped(k.w, pid, status) && pid == init
            && (match status
                case Exited(code) => outcome.code == code % 256
                case Signaled(number) => outcome.code == 128 + number && number <= 31)
    ensures outcome.Failure? ==> JustReaped(k.w, pid, status) && !Decodable(status)
    ensures outcome.BlocksForever? ==>
            && k.future == [] && k.w.pending * blocked == {} && NoZombies(k.w)
            && init in k.w.children && k.w.children[init] == Alive
  {
    pid, status := init, Exited(0);
    ghost var quiet := k.future == [];
    SameChildren(k.w, quiet, k.w);
    while true
      invariant Forwarding(k.w, init) && NoLostDeath(k.w) && init in k.w.children && AllDecodable(k.w.reaped)
      invariant Supervised(old(k.w), quiet, k.w) && (quiet ==> k.future == [])
      decreases |k.future|, |k.w.children| + |k.w.pending|
    {
      ghost var before := k.w;
      var signal := k.SigWait(blocked);
      SupervisedTransitive(old(k.w), before, k.w, quiet);
      if signal.None? {
        return BlocksForever, pid, status;
      }
      if signal.value != SIGCHLD {
        before := k.w;
        k.Kill(init, signal.value);
        SameChildren(before, quiet, k.w);
        SupervisedTransitive(old(k.w), before, k.w, quiet);
        continue;
      }
      before := k.w;
      var done;
      done, pid, status := Drain(k, init);
      SupervisedTransitive(old(k.w), before, k.w, quiet);
      if done.Some? {
        return done.value, pid, status;
      }
    }
  }

  /** `run` blocks the signals before it forks, so the supervisor starts with no death lost, whatever
      happened between the fork and the first wait. */
  method RunAndSupervise(k: Kernel, init: int)
    returns (outcome: Outcome, ghost pid: int, ghost status: ExitStatus)
    requires NoZombies(k.w) && k.w.pending <= k.w.blocked && k.w.log == [] && k.w.reaped == []
    requires init !in k.w.children
    modifies k
    ensures Forwarding(k.w, init)
    ensures outcome.Failure? <==> !AllDecodable(k.w.reaped)
    ensures outcome.Code? ==>
            && JustReaped(k.w, pid, status) && pid == init
            && (match status
                case Exited(code) => outcome.code == code % 256
                case Signaled(number) => outcome.code == 128 + number && number <= 31)
    ensures outcome.BlocksForever? ==> NoZombies(k.w) && init in k.w.children && k.w.children[init] == Alive
  {
    var blocked := BlockForwardable(k);
    k.w := Happen(k.w, Adopts(init));
    HappenAllKeepsSound(k.w, if k.future == [] then [] else k.future[0], None);
    k.Elapse();
    outcome, pid, status := Supervise(k, blocked, init);
  }

  // ---- What the error looks like --------------------------------------------------------------------------

  /** A kernel in which child `dead` was killed by signal `number` and the other child, if any, lives, and
      nothing more is going to happen. */
  method KernelWithDeath(init: int, dead: int, number: nat) returns (k: Kernel)
    ensures fresh(k) && k.future == [] && Forwarding(k.w, init) && NoLostDeath(k.w) && k.w.reaped == []
    ensures dead in k.w.children && k.w.children[dead] == Zombie(Signaled(number))
    ensures init in k.w.children && (init != dead ==> k.w.children[init] == Alive)
  {
    var children: map<int, Child> := map[init := Alive][dead := Zombie(Signaled(number))];
    var w := World({SIGCHLD}, {SIGCHLD}, children, [Died(dead, Signaled(number))], []);
    assert w.log[..0] == [];
    k := new Kernel(w, []);
  }

  /** An adopted orphan that dies of a real-time signal ends the supervisor with an error, while the init
      lives on. */
  method OrphanEndsTheSupervisor(init: int, orphan: int, number: nat) returns (outcome: Outcome, k: Kernel)
    requires init != orphan && number > 31
    ensures outcome == Failure && init in k.w.children && k.w.children[init] == Alive
  {
    k := KernelWithDeath(init, orphan, number);
    ghost var pid, status;
    outcome, pid, status := Supervise(k, {SIGCHLD}, init);
    assert outcome == Failure || End(orphan, Signaled(number)) !in k.w.reaped;
  }

  /** And an init killed by such a signal gives an error instead of 128 plus its number. */
  method RealTimeDeathIsAnError(init: int, number: nat) returns (outcome: Outcome)
    requires number > 31
    ensures outcome == Failure
  {
    var k := KernelWithDeath(init, init, number);
    ghost var pid, status;
    outcome, pid, status := Supervise(k, {SIGCHLD}, init);
    assert outcome == Failure || End(init, Signaled(number)) !in k.w.reaped;
  }
}
