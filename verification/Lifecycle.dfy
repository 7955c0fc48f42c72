/** The lifecycle of one container. Its status is stored nowhere: every command derives it again from
    the recorded pid and start time, the freezer and the exec fifo, while outside the runtime processes
    exit, are reaped, change their names and take over pids, and the clock moves on. */
module Lifecycle {
  import opened Wrappers
  import StartTime

  datatype Status = Created | Running | Paused | Stopped

  // ---- The world ---------------------------------------------------------------------------------------

  /** What has the recorded pid. `comm` is `None` while the command name is not UTF-8, which makes the
      whole stat line unreadable as text. */
  datatype Process = Process(start: nat, comm: Option<string>, init: bool, exited: bool)

  /** `recorded` is the start time in the saved state; `parked` says that the init waits at the fifo for a
      start; `wanted` is what was last written to the freezer and `frozen` what it reports, also of a
      cgroup that outlives its container; `now` is the clock in ticks since boot. */
  datatype Machine = Machine(
    recorded: Option<nat>, fifo: bool, parked: bool, wanted: bool, frozen: bool, process: Option<Process>, now: nat)

  /** What `start_time` returns for the recorded pid. */
  function ObservedStart(process: Option<Process>): Option<nat> {
    if process.None? || process.value.comm.None? then None else Some(process.value.start)
  }

  /** That is what the parser makes of any line the kernel writes for the process. */
  lemma ObservedStartIsParsed(process: Process, pid: nat, fields: seq<string>)
    requires process.comm.Some? && process.start <= StartTime.U64_MAX
    requires |fields| > 19 && fields[19] == StartTime.Decimal(process.start)
    requires forall f | f in fields :: StartTime.ValidField(f)
    ensures StartTime.ParseStartTime(StartTime.StatLine(pid, process.comm.value, fields))
            == ObservedStart(Some(process))
  {
    StartTime.StartTimeComesBack(pid, process.comm.value, fields, process.start);
  }

  predicate Alive(m: Machine) {
    m.recorded.Some? && ObservedStart(m.process) == m.recorded
  }

  /** The status `mars state` reports, if there is a saved state. */
  function StatusOf(m: Machine): Option<Status> {
    if m.recorded.None? then None
    else if !Alive(m) then Some(Stopped)
    else if m.frozen then Some(Paused)
    else if m.fifo then Some(Created)
    else Some(Running)
  }

  // ---- What can happen --------------------------------------------------------------------------------

  /** What becomes of a write to the freezer: refused, or not reached within five seconds, or reached. */
  datatype Answer = WriteRefused | TimesOut | Settles

  /** What the removal of the container directory leaves behind. */
  datatype Removal = Complete | Partial(state: bool, fifo: bool)

  /** The commands, each with what the kernel answers to it, and what happens outside them. `age` is how
      many ticks ago the init of a new container started; `Finish` is the end of `run`. */
  datatype Event =
    | Create(age: nat, name: string)
    | Start(readOk: bool, unlinkOk: bool)
    | Pause(answer: Answer)
    | Resume(answer: Answer)
    | KillAll(freeze: Answer, signals: bool, thaw: Answer)
    | Delete(force: bool, thaw: Answer, dies: bool, rmdir: bool, removal: Removal)
    | Finish(keep: bool, rmdir: bool, removal: Removal)
    | Tick
    | Settle
    | Rename(comm: Option<string>)
    | Exit
    | Reap
    | Reuse(comm: Option<string>)

  datatype Outcome =
    | Done
    | AlreadyExists
    | NotFound
    | BadState(actual: Status)
    | FreezerFailed
    | SignalFailed
    | ReleaseFailed
    | RemoveFailed
    | Hangs

  predicate ParkedInit(m: Machine) {
    m.parked && m.process.Some? && m.process.value.init && !m.process.value.exited
  }

  function Killed(process: Option<Process>, dies: bool): Option<Process> {
    if process.Some? && process.value.init && dies then Some(process.value.(exited := true)) else process
  }

  /** The freezer after a request. */
  function Requested(m: Machine, request: bool, answer: Answer): Machine {
    match answer
    case WriteRefused => m
    case TimesOut => m.(wanted := request)
    case Settles => m.(wanted := request, frozen := request)
  }

  function WithoutCgroup(m: Machine, rmdir: bool): Machine {
    m.(wanted := m.wanted && !rmdir, frozen := m.frozen && !rmdir)
  }

  function Removed(m: Machine, removal: Removal): Machine {
    match removal
    case Complete => m.(recorded := None, fifo := false)
    case Partial(state, fifo) => m.(recorded := if state then m.recorded else None, fifo := m.fifo && fifo)
  }

  /** The commands. */
  predicate IsCommand(e: Event) {
    e.Create? || e.Start? || e.Pause? || e.Resume? || e.KillAll? || e.Delete? || e.Finish?
  }

  /** A new container in a cgroup that a former one left frozen never gets ready; that the handshake comes
      to this is shown apart from the lifecycle. */
  function CreateContainer(m: Machine, age: nat, name: string): (Machine, Outcome) {
    var start := if age <= m.now then m.now - age else 0;
    if m.recorded.Some? then (m, AlreadyExists)
    else if m.wanted then (m, Hangs)
    else (Machine(Some(start), true, true, false, false, Some(Process(start, Some(name), true, false)), m.now), Done)
  }

  /** Opening the fifo lets the init go on, whatever becomes of the read and the unlink. */
  function Release(m: Machine, readOk: bool, unlinkOk: bool): (Machine, Outcome) {
    if !ParkedInit(m) then (m, Hangs)
    else if !readOk || !unlinkOk then (m.(parked := false), ReleaseFailed)
    else (m.(parked := false, fifo := false), Done)
  }

  function SignalEveryone(m: Machine, freeze: Answer, signals: bool, thaw: Answer): (Machine, Outcome) {
    var result := if signals then Done else SignalFailed;
    if m.frozen then (m, result)
    else if !freeze.Settles? then (Requested(m, true, freeze), FreezerFailed)
    else
      var thawed := Requested(Requested(m, true, Settles), false, thaw);
      (thawed, if thaw.Settles? then result else FreezerFailed)
  }

  function Remove(m: Machine, rmdir: bool, removal: Removal): (Machine, Outcome) {
    (Removed(WithoutCgroup(m, rmdir), removal), if removal.Complete? then Done else RemoveFailed)
  }

  /** Deleting a container that is not stopped: thaw, kill, wait, and go on in any case. */
  function DeleteByForce(m: Machine, thaw: Answer, dies: bool, rmdir: bool, removal: Removal): (Machine, Outcome) {
    if m.frozen && !thaw.Settles? then (Requested(m, false, thaw), FreezerFailed)
    else
      var thawed := if m.frozen then Requested(m, false, Settles) else m;
      Remove(thawed.(process := Killed(m.process, dies)), rmdir, removal)
  }

  function Command(m: Machine, e: Event): (Machine, Outcome)
    requires IsCommand(e)
  {
    var status := StatusOf(m);
    match e
    case Create(age, name) => CreateContainer(m, age, name)
    case Start(readOk, unlinkOk) =>
      if status.None? then (m, NotFound)
      else if status.value != Created then (m, BadState(status.value))
      else Release(m, readOk, unlinkOk)
    case Pause(answer) =>
      if status.None? then (m, NotFound)
      else if status.value != Created && status.value != Running then (m, BadState(status.value))
      else (Requested(m, true, answer), if answer.Settles? then Done else FreezerFailed)
    case Resume(answer) =>
      if status.None? then (m, NotFound)
      else if status.value != Paused then (m, BadState(status.value))
      else (Requested(m, false, answer), if answer.Settles? then Done else FreezerFailed)
    case KillAll(freeze, signals, thaw) =>
      if status.None? then (m, NotFound)
      else if status.value == Stopped then (m, BadState(Stopped))
      else SignalEveryone(m, freeze, signals, thaw)
    case Delete(force, thaw, dies, rmdir, removal) =>
      if status.None? then (m, if force then Done else NotFound)
      else if status.value == Stopped then Remove(m, rmdir, removal)
      else if !force then (m, BadState(status.value))
      else DeleteByForce(m, thaw, dies, rmdir, removal)
    case Finish(keep, rmdir, removal) =>
      // errors are ignored, and nothing is asked about the status
      (if keep then WithoutCgroup(m, rmdir) else Remove(m, rmdir, removal).0, Done)
  }

  /** What happens outside. */
  function Outside(m: Machine, e: Event): Machine
    requires !IsCommand(e)
  {
    match e
    case Tick => m.(now := m.now + 1)
    case Settle => m.(frozen := m.wanted)
    case Rename(comm) =>
      if m.process.Some? && !m.process.value.exited then m.(process := Some(m.process.value.(comm := comm))) else m
    case Exit => if m.process.Some? then m.(process := Some(m.process.value.(exited := true))) else m
    case Reap => if m.process.Some? && m.process.value.exited then m.(process := None) else m
    case Reuse(comm) => if m.process.None? then m.(process := Some(Process(m.now, comm, false, false))) else m
  }

  function Next(m: Machine, e: Event): Machine {
    if IsCommand(e) then Command(m, e).0 else Outside(m, e)
  }

  function Run(m: Machine, es: seq<Event>): Machine
    decreases |es|
  {
    if es == [] then m else Run(Next(m, es[0]), es[1..])
  }

  // ---- Every event follows the OCI lifecycle, except a revival --------------------------------------------

  /** The moves of the lifecycle: `None` is a container that does not exist. */
  predicate Allowed(from: Option<Status>, to: Option<Status>) {
    || from == to
    || to == None
    || (from == None && to == Some(Created))
    || (from == Some(Created) && to == Some(Running))
    || (from == Some(Paused) && (to == Some(Created) || to == Some(Running)))
    || (to == Some(Paused) && (from == Some(Created) || from == Some(Running)))
    || (from.Some? && to == Some(Stopped))
  }

  /** A stopped container comes back: a new process takes the pid in the very tick in which the old init
      started, or a process that was there all along gets a readable name again. */
  predicate Revives(m: Machine, e: Event) {
    && StatusOf(m) == Some(Stopped)
    && match e
       case Reuse(comm) => m.process.None? && comm.Some? && m.recorded == Some(m.now)
       case Rename(comm) =>
         && m.process.Some? && !m.process.value.exited && comm.Some?
         && m.process.value.comm.None? && m.recorded == Some(m.process.value.start)
       case _ => false
  }

  lemma CommandFollowsTheLifecycle(m: Machine, e: Event)
    requires IsCommand(e)
    ensures Allowed(StatusOf(m), StatusOf(Command(m, e).0))
  {
  }

  /** Every command and every outside event follows the lifecycle, exactly if it is not a revival. */
  lemma EventsFollowTheLifecycleExactly(m: Machine, e: Event)
    ensures Allowed(StatusOf(m), StatusOf(Next(m, e))) <==> !Revives(m, e)
  {
    if IsCommand(e) {
      CommandFollowsTheLifecycle(m, e);
    }
  }

  /** Which commands the lifecycle admits in which status. */
  predicate Admits(e: Event, status: Status) {
    match e
    case Start(_, _) => status == Created
    case Pause(_) => status == Created || status == Running
    case Resume(_) => status == Paused
    case KillAll(_, _, _) => status != Stopped
    case Delete(force, _, _, _, _) => status == Stopped || force
    case Finish(_, _, _) => true
    case _ => false
  }

  predicate Refused(outcome: Outcome) {
    outcome.NotFound? || outcome.BadState? || outcome.AlreadyExists?
  }

  /** A command on an existing container is refused exactly in the statuses that do not admit it, names
      the status it found, and then changes nothing; so does a start that waits for nobody. */
  lemma CommandsAreRefusedExactly(m: Machine, e: Event)
    requires IsCommand(e) && StatusOf(m).Some?
    ensures var (after, outcome) := Command(m, e);
            && (Refused(outcome) <==> !Admits(e, StatusOf(m).value))
            && (Refused(outcome) ==> after == m && (outcome == AlreadyExists || outcome == BadState(StatusOf(m).value)))
            && (outcome == Hangs ==> after == m && e.Start? && !ParkedInit(m))
  {
  }

  predicate LosesState(removal: Removal) {
    removal.Complete? || !removal.state
  }

  /** A container goes away exactly by a delete that finds it stopped, or is forced and need not wait in
      vain for a thaw, or by the end of its `run`; and only if the removal gets as far as its state. */
  lemma GoesAwayExactly(m: Machine, e: Event)
    requires StatusOf(m).Some?
    ensures StatusOf(Next(m, e)) == None <==>
            || (e.Delete? && LosesState(e.removal)
                && (StatusOf(m) == Some(Stopped) || (e.force && (m.frozen ==> e.thaw.Settles?))))
            || (e.Finish? && !e.keep && LosesState(e.removal))
  {
  }

  lemma {:induction false} LeftoverStaysWanted(m: Machine, es: seq<Event>)
    requires m.recorded.None? && m.wanted && forall e | e in es :: !IsCommand(e)
    ensures Run(m, es).recorded.None? && Run(m, es).wanted
    decreases |es|
  {
    if es != [] {
      assert es[0] in es;
      LeftoverStaysWanted(Next(m, es[0]), es[1..]);
    }
  }

  // ---- Who is killed --------------------------------------------------------------------------------------

  /** The container's own init is there and lives. */
  predicate OwnInitLives(m: Machine) {
    m.process.Some? && m.process.value.init && !m.process.value.exited
  }

  /** A delete that gets as far as the signal, which the init does not survive. */
  predicate KillsItsInit(m: Machine, e: Event) {
    && e.Delete? && e.force && e.dies
    && (StatusOf(m) == Some(Created) || StatusOf(m) == Some(Running) || StatusOf(m) == Some(Paused))
    && (m.frozen ==> e.thaw.Settles?)
  }

  /** Exactly the forced delete of a container that is not stopped, once it is thawed, ends the init if the
      signal does; every other command, a refused delete or the delete of a stopped container among them,
      leaves what has the pid alone, except that a new container has a new init. */
  lemma CommandsKillExactly(m: Machine, e: Event)
    requires IsCommand(e)
    ensures OwnInitLives(m) ==> (OwnInitLives(Command(m, e).0) <==> !KillsItsInit(m, e))
    ensures !e.Create? ==>
            Command(m, e).0.process
            == if KillsItsInit(m, e) && m.process.Some? && m.process.value.init
               then Some(m.process.value.(exited := true)) else m.process
  {
    if e.Delete? { DeleteKillsExactly(m, e); }
  }

  lemma DeleteKillsExactly(m: Machine, e: Event)
    requires e.Delete?
    ensures Command(m, e).0.process
            == if KillsItsInit(m, e) && m.process.Some? && m.process.value.init
               then Some(m.process.value.(exited := true)) else m.process
  {
  }

  /** Outside the runtime only its exit ends an init, and the pid is free only after the exited one was
      reaped. */
  lemma OutsideEndsExactly(m: Machine, e: Event)
    requires !IsCommand(e) && OwnInitLives(m)
    ensures OwnInitLives(Outside(m, e)) <==> !e.Exit?
    ensures Outside(m, e).process.Some? && Outside(m, e).process.value.start == m.process.value.start
    ensures var gone := Outside(Outside(m, Exit), Reap);
            gone.process.None? && forall comm :: !OwnInitLives(Outside(gone, Reuse(comm)))
  {
  }

  lemma OneEventBringsNoInit(m: Machine, e: Event)
    requires !OwnInitLives(m) && !e.Create?
    ensures !OwnInitLives(Next(m, e))
  {
    if IsCommand(e) {
      CommandsKillExactly(m, e);
    } else {
      OutsideBringsNoInit(m, e);
    }
  }

  lemma OutsideBringsNoInit(m: Machine, e: Event)
    requires !OwnInitLives(m) && !IsCommand(e)
    ensures !OwnInitLives(Outside(m, e))
  {
  }

  /** Only a create brings an init. */
  lemma {:induction false} NoInitComesBack(m: Machine, es: seq<Event>)
    requires !OwnInitLives(m) && forall e | e in es :: !e.Create?
    ensures !OwnInitLives(Run(m, es))
    decreases |es|
  {
    if es != [] {
      assert es[0] in es;
      OneEventBringsNoInit(m, es[0]);
      NoInitComesBack(Next(m, es[0]), es[1..]);
    }
  }

  /** After a forced delete that went as far as its signal no init of the container lives, whatever happens,
      until the next create; and if the removal succeeded there is no container, no pipe and, if its cgroup
      could be removed, nothing frozen. */
  lemma ForcedDeleteLeavesNobody(m: Machine, thaw: Answer, rmdir: bool, removal: Removal, es: seq<Event>)
    requires StatusOf(m).Some? && StatusOf(m) != Some(Stopped) && (m.frozen ==> thaw.Settles?)
    requires forall e | e in es :: !e.Create?
    ensures var (after, outcome) := Command(m, Delete(true, thaw, true, rmdir, removal));
            && !OwnInitLives(Run(after, es))
            && (outcome == Done <==> removal.Complete?)
            && (outcome == Done ==> StatusOf(after) == None && !after.fifo)
            && (rmdir ==> !after.wanted && !after.frozen)
  {
    NoInitComesBack(Command(m, Delete(true, thaw, true, rmdir, removal)).0, es);
  }

  // ---- What an outcome says about the state ---------------------------------------------------------------

  /** Without a container there is nothing to command but a create, and a forced delete is content; a create
      makes a container whose init waits at the pipe, and whose recorded start time is its init's. */
  lemma OutcomesWithoutAContainer(m: Machine, e: Event)
    requires IsCommand(e) && StatusOf(m) == None && !e.Finish?
    ensures var (after, outcome) := Command(m, e);
            && (outcome == Hangs <==> e.Create? && m.wanted)
            && (outcome == Done <==> (e.Create? && !m.wanted) || (e.Delete? && e.force))
            && (outcome == Done || outcome == Hangs || outcome == NotFound)
            && (!e.Create? || outcome == Hangs ==> after == m)
            && (e.Create? && outcome == Done ==>
                  && StatusOf(after) == Some(Created) && ParkedInit(after)
                  && after.recorded == Some(after.process.value.start) && after.process.value.start <= m.now
                  && (e.age <= m.now ==> after.process.value.start + e.age == m.now))
  {
  }

  /** The end of `run` is done whatever the status, and says nothing of what failed: the container is gone
      unless it was to be kept or its state could not be removed, and the freezer goes with its cgroup. */
  lemma FinishOutcomes(m: Machine, e: Event)
    requires e.Finish?
    ensures var (after, outcome) := Command(m, e);
            && outcome == Done
            && (e.keep || (e.removal.Partial? && e.removal.state) ==> after.recorded == m.recorded)
            && (!e.keep && LosesState(e.removal) ==> StatusOf(after) == None)
            && after.fifo == (m.fifo && (e.keep || (e.removal.Partial? && e.removal.fifo)))
            && after.wanted == (m.wanted && !e.rmdir) && after.frozen == (m.frozen && !e.rmdir)
            && after.process == m.process && after.parked == m.parked && after.now == m.now
  {
  }

  /** A successful pause or resume is what it says; one that timed out leaves its request behind, and one that
      was refused nothing. */
  lemma FreezerOutcomes(m: Machine, e: Event)
    requires (e.Pause? || e.Resume?) && StatusOf(m).Some? && Admits(e, StatusOf(m).value)
    ensures var (after, outcome) := Command(m, e);
            && after.wanted == (if e.answer.WriteRefused? then m.wanted else e.Pause?)
            && (outcome == Done || outcome == FreezerFailed)
            && (outcome == Done ==>
                  StatusOf(after) == Some(if e.Pause? then Paused else if m.fifo then Created else Running))
            && (outcome == FreezerFailed ==> StatusOf(after) == StatusOf(m))
            && after.process == m.process && after.parked == m.parked && after.now == m.now
  {
  }

  /** `kill --all` that has nothing to say about the freezer leaves the status as it was; when the freezer
      fails, the container is left paused exactly if it was running or created and could be frozen but not
      thawed. */
  lemma KillAllOutcomes(m: Machine, e: Event)
    requires e.KillAll? && StatusOf(m).Some? && StatusOf(m) != Some(Stopped)
    ensures var (after, outcome) := Command(m, e);
            && (outcome == FreezerFailed <==> StatusOf(m) != Some(Paused) && !(e.freeze.Settles? && e.thaw.Settles?))
            && (outcome == Done <==> e.signals && outcome != FreezerFailed)
            && (outcome != FreezerFailed ==> outcome == Done || outcome == SignalFailed)
            && (outcome != FreezerFailed ==> StatusOf(after) == StatusOf(m) && (m.frozen ==> after == m))
            && (outcome != FreezerFailed && !m.frozen ==> !after.wanted)
            && (outcome == FreezerFailed ==>
                  StatusOf(after) == if e.freeze.Settles? then Some(Paused) else StatusOf(m))
            && after.process == m.process && after.parked == m.parked && after.now == m.now
  {
  }

  /** A successful start makes the container run and its init go on, one that failed after the open leaves it
      created with its init gone on. */
  lemma StartOutcomes(m: Machine, e: Event)
    requires e.Start? && StatusOf(m) == Some(Created)
    ensures var (after, outcome) := Command(m, e);
            && (outcome == Hangs <==> !ParkedInit(m))
            && (outcome == Done <==> ParkedInit(m) && e.readOk && e.unlinkOk)
            && (outcome == Done ==> StatusOf(after) == Some(Running) && !after.parked)
            && (outcome == ReleaseFailed ==> StatusOf(after) == Some(Created) && !after.parked)
            && (outcome == Done || outcome == Hangs || outcome == ReleaseFailed)
            && after.process == m.process && after.wanted == m.wanted
  {
  }

  /** A delete that had to thaw and could not has done nothing but ask; one that got through reports what the
      removal comes to, and takes the freezer with the cgroup. */
  lemma DeleteOutcomes(m: Machine, e: Event)
    requires e.Delete? && StatusOf(m).Some? && Admits(e, StatusOf(m).value)
    ensures var (after, outcome) := Command(m, e);
            && (outcome == FreezerFailed <==> StatusOf(m) == Some(Paused) && !e.thaw.Settles?)
            && (outcome == FreezerFailed ==>
                  after == m.(wanted := m.wanted && !e.thaw.TimesOut?) && StatusOf(after) == Some(Paused))
            && (outcome != FreezerFailed ==> outcome == if e.removal.Complete? then Done else RemoveFailed)
            && (outcome == Done ==> StatusOf(after) == None && !after.fifo)
            && (outcome != FreezerFailed && e.rmdir ==> !after.wanted && !after.frozen)
            && (outcome != FreezerFailed && !e.rmdir && StatusOf(m) != Some(Paused) ==>
                  after.wanted == m.wanted && after.frozen == m.frozen)
  {
  }

  // ---- Running never becomes Created ---------------------------------------------------------------------

  predicate NoRemoval(es: seq<Event>) {
    forall e | e in es :: !e.Delete? && !e.Finish?
  }

  lemma {:induction false} StartedStaysStarted(m: Machine, es: seq<Event>)
    requires m.recorded.Some? && !m.fifo && NoRemoval(es)
    ensures Run(m, es).recorded == m.recorded && !Run(m, es).fifo
    decreases |es|
  {
    if es != [] {
      assert es[0] in es;
      StartedStaysStarted(Next(m, es[0]), es[1..]);
    }
  }

  /** A running container is never created again, however often it is paused, resumed, killed, and
      whatever happens to its process and its pid, until it is removed. */
  lemma RunningNeverBecomesCreated(m: Machine, es: seq<Event>)
    requires StatusOf(m) == Some(Running) && NoRemoval(es)
    ensures StatusOf(Run(m, es)).Some? && StatusOf(Run(m, es)) != Some(Created)
  {
    StartedStaysStarted(m, es);
  }

  // ---- When a created container can be started ------------------------------------------------------------

  /** The starts that let the init go on but fail to read or to unlink the fifo. */
  function FailedReleases(m: Machine, es: seq<Event>): nat
    decreases |es|
  {
    if es == [] then 0
    else
      (if es[0].Start? && Command(m, es[0]).1 == ReleaseFailed then 1 else 0)
      + FailedReleases(Next(m, es[0]), es[1..])
  }

  lemma {:induction false} ParkedUntilReleased(m: Machine, es: seq<Event>)
    requires m.recorded.Some? && NoRemoval(es) && Run(m, es).fifo
    ensures Run(m, es).parked <==> m.parked && FailedReleases(m, es) == 0
    decreases |es|
  {
    if es != [] {
      assert es[0] in es;
      if !Next(m, es[0]).fifo {
        StartedStaysStarted(Next(m, es[0]), es[1..]);
      }
      ParkedUntilReleased(Next(m, es[0]), es[1..]);
    }
  }

  /** The exact condition, over every run since the create: the status says created while the init no
      longer waits at the fifo, if and only if a start has failed after it let the init go on; and a start
      then succeeds, if read and unlink do, if and only if none has and the init is still there, and waits
      for ever otherwise. */
  lemma CreatedIsParkedExactly(m: Machine, age: nat, name: string, es: seq<Event>)
    requires m.recorded.None? && !m.wanted && NoRemoval(es)
    requires StatusOf(Run(Next(m, Create(age, name)), es)) == Some(Created)
    ensures var created := Next(m, Create(age, name));
            var now := Run(created, es);
            var hasInit := now.process.Some? && now.process.value.init && !now.process.value.exited;
            && (now.parked <==> FailedReleases(created, es) == 0)
            && Command(now, Start(true, true)).1
               == (if FailedReleases(created, es) == 0 && hasInit then Done else Hangs)
  {
    ParkedUntilReleased(Next(m, Create(age, name)), es);
  }

  /** It happens: an unlink fails, the init goes on, and the next start waits for ever. */
  lemma FailedUnlinkHappens(m: Machine, name: string)
    requires m.recorded.None? && !m.wanted
    ensures var created := Next(m, Create(0, name));
            var now := Run(created, [Start(true, false)]);
            && FailedReleases(created, [Start(true, false)]) == 1
            && StatusOf(now) == Some(Created) && !now.parked && Command(now, Start(true, true)).1 == Hangs
  {
    var created := Next(m, Create(0, name));
    var one := [Start(true, false)];
    assert one[1..] == [];
    assert Run(created, one) == Run(Next(created, one[0]), []);
    assert FailedReleases(Next(created, one[0]), []) == 0;
  }

  /** The starts that return success. */
  function Starts(m: Machine, es: seq<Event>): nat
    decreases |es|
  {
    if es == [] then 0
    else (if es[0].Start? && Command(m, es[0]).1 == Done then 1 else 0) + Starts(Next(m, es[0]), es[1..])
  }

  lemma {:induction false} NoStartWithoutFifo(m: Machine, es: seq<Event>)
    requires m.recorded.Some? && !m.fifo && NoRemoval(es)
    ensures Starts(m, es) == 0
    decreases |es|
  {
    if es != [] {
      assert es[0] in es;
      NoStartWithoutFifo(Next(m, es[0]), es[1..]);
    }
  }

  /** Between a create and its removal at most one start succeeds. */
  lemma {:induction false} AtMostOneStart(m: Machine, es: seq<Event>)
    requires m.recorded.Some? && NoRemoval(es)
    ensures Starts(m, es) <= 1
    decreases |es|
  {
    if es != [] {
      assert es[0] in es;
      if es[0].Start? && Command(m, es[0]).1 == Done {
        NoStartWithoutFifo(Next(m, es[0]), es[1..]);
      } else {
        AtMostOneStart(Next(m, es[0]), es[1..]);
      }
    }
  }

  // ---- Stopped is absorbing -------------------------------------------------------------------------------

  predicate ReadableNames(es: seq<Event>) {
    forall e | e in es :: e.Rename? ==> e.comm.Some?
  }

  /** The clock has left the tick in which the init started, so no later process can have its start time,
      and whatever has the pid now has a readable name. */
  predicate Settled(m: Machine) {
    && m.recorded.Some? && m.recorded.value < m.now
    && (m.process.Some? ==> m.process.value.comm.Some?)
  }

  lemma {:induction false} StoppedIsAbsorbing(m: Machine, es: seq<Event>)
    requires StatusOf(m) == Some(Stopped) && NoRemoval(es) && ReadableNames(es) && Settled(m)
    requires forall e | e in es :: e.Reuse? ==> e.comm.Some?
    ensures StatusOf(Run(m, es)) == Some(Stopped)
    decreases |es|
  {
    if es != [] {
      assert es[0] in es;
      StoppedIsAbsorbing(Next(m, es[0]), es[1..]);
    }
  }

  /** A reused pid revives a stopped container exactly if the new process starts in the recorded tick. */
  lemma ReusedPidRevivesExactly(m: Machine, name: string)
    requires StatusOf(m) == Some(Stopped) && m.process.None?
    ensures StatusOf(Next(m, Reuse(Some(name)))) != Some(Stopped) <==> m.recorded == Some(m.now)
  {
  }

  /** It happens: a container is created, its init dies and is reaped, and within the same tick another
      process gets its pid. */
  lemma RevivalHappens(m: Machine, name: string, other: string)
    requires m.recorded.None? && !m.wanted
    ensures var dead := Run(m, [Create(0, name), Exit, Reap]);
            && StatusOf(dead) == Some(Stopped)
            && StatusOf(Next(dead, Reuse(Some(other)))) == Some(Created)
  {
    var created := Next(m, Create(0, name));
    var dead := Next(Next(created, Exit), Reap);
    assert [Create(0, name), Exit, Reap][1..] == [Exit, Reap] && [Exit, Reap][1..] == [Reap] && [Reap][1..] == [];
    assert Run(dead, []) == dead;
    assert Run(Next(created, Exit), [Reap]) == dead;
    assert Run(created, [Exit, Reap]) == dead;
    ReusedPidRevivesExactly(dead, other);
  }

  // ---- Names that are not text ----------------------------------------------------------------------------

  /** The recorded pid still belongs to the container's own init, a zombie at worst. */
  predicate HasOwnInit(m: Machine) {
    m.recorded.Some? && m.process.Some? && m.process.value.init
  }

  predicate InitIsRecorded(m: Machine) {
    HasOwnInit(m) ==> m.recorded == Some(m.process.value.start)
  }

  /** A command keeps the process and the recorded start time, or drops the latter, or kills, or starts anew. */
  lemma CommandKeepsInitRecorded(m: Machine, e: Event)
    requires InitIsRecorded(m) && IsCommand(e)
    ensures InitIsRecorded(Command(m, e).0)
  {
    if e.Delete? {
      var quelled := m.(process := Killed(m.process, e.dies));
      assert InitIsRecorded(quelled);
    }
  }

  lemma OutsideKeepsInitRecorded(m: Machine, e: Event)
    requires InitIsRecorded(m) && !IsCommand(e)
    ensures InitIsRecorded(Outside(m, e))
  {
  }

  lemma {:induction false} InitStaysRecorded(m: Machine, es: seq<Event>)
    requires InitIsRecorded(m)
    ensures InitIsRecorded(Run(m, es))
    decreases |es|
  {
    if es != [] {
      if IsCommand(es[0]) {
        CommandKeepsInitRecorded(m, es[0]);
      } else {
        OutsideKeepsInitRecorded(m, es[0]);
      }
      InitStaysRecorded(Next(m, es[0]), es[1..]);
    }
  }

  /** The exact condition, over every run since before the container was created: while the recorded pid
      belongs to its own init, it reads as stopped if and only if the init's name is not UTF-8. */
  lemma ReadsAsStoppedExactly(m: Machine, es: seq<Event>)
    requires m.recorded.None? && HasOwnInit(Run(m, es))
    ensures StatusOf(Run(m, es)) == Some(Stopped) <==> Run(m, es).process.value.comm.None?
  {
    InitStaysRecorded(m, es);
  }

  /** It happens: a container is created and started, its init takes such a name, and the container is
      deleted without `--force`, while its init runs on. */
  lemma UnreadableNameIsDeleted(m: Machine, name: string, thaw: Answer, rmdir: bool)
    requires m.recorded.None? && !m.wanted
    ensures var es := [Create(0, name), Start(true, true), Rename(None)];
            var renamed := Run(m, es);
            var deleted := Command(renamed, Delete(false, thaw, false, rmdir, Complete));
            && StatusOf(renamed) == Some(Stopped)
            && deleted.1 == Done && StatusOf(deleted.0) == None
            && deleted.0.process == Some(Process(m.now, None, true, false))
  {
    var es := [Create(0, name), Start(true, true), Rename(None)];
    var created := Next(m, es[0]);
    var started := Next(created, es[1]);
    var renamed := Next(started, es[2]);
    assert es[1..] == [Start(true, true), Rename(None)] && es[1..][1..] == [Rename(None)] && [Rename(None)][1..] == [];
    assert Run(renamed, []) == renamed;
    assert Run(started, [Rename(None)]) == renamed;
    assert Run(created, es[1..]) == renamed;
  }

  // ---- Pause and resume -----------------------------------------------------------------------------------

  predicate WhilePaused(es: seq<Event>) {
    forall e | e in es :: !e.Delete? && !e.Finish? && !e.Resume?
  }

  lemma {:induction false} PausedStaysFrozen(m: Machine, es: seq<Event>)
    requires m.recorded.Some? && m.frozen && m.wanted && WhilePaused(es)
    ensures var after := Run(m, es);
            after.recorded == m.recorded && after.fifo == m.fifo && after.frozen && after.wanted
    decreases |es|
  {
    if es != [] {
      assert es[0] in es;
      PausedStaysFrozen(Next(m, es[0]), es[1..]);
    }
  }

  /** Resuming brings back the status from before the pause, whatever was tried in between, exactly if
      the init is still there; `start` in particular is refused while the container is paused. */
  lemma ResumeRestoresTheStatus(m: Machine, es: seq<Event>)
    requires StatusOf(m) == Some(Created) || StatusOf(m) == Some(Running)
    requires WhilePaused(es)
    ensures var paused := Command(m, Pause(Settles));
            var later := Run(paused.0, es);
            var resumed := Command(later, Resume(Settles));
            && paused.1 == Done && StatusOf(paused.0) == Some(Paused)
            && (StatusOf(later) == if Alive(later) then Some(Paused) else Some(Stopped))
            && (resumed.1 == if Alive(later) then Done else BadState(Stopped))
            && (StatusOf(resumed.0) == if Alive(later) then StatusOf(m) else Some(Stopped))
  {
    PausedStaysFrozen(Command(m, Pause(Settles)).0, es);
  }

  /** A pause or resume that timed out takes effect when the freezer gets there, unless it is overridden. */
  lemma TimedOutRequestTakesEffect(m: Machine, e: Event)
    requires (e.Pause? || e.Resume?) && e.answer.TimesOut? && StatusOf(m).Some? && Admits(e, StatusOf(m).value)
    ensures var inTime := if e.Pause? then Pause(Settles) else Resume(Settles);
            StatusOf(Next(Next(m, e), Settle)) == StatusOf(Command(m, inTime).0)
  {
  }

  // ---- The commands, step by step -------------------------------------------------------------------------

  class Host {
    var recorded: Option<nat>
    var fifo: bool
    var parked: bool
    var wanted: bool
    var frozen: bool
    var process: Option<Process>
    var now: nat

    constructor ()
      ensures State() == Machine(None, false, false, false, false, None, 0)
    {
      recorded, fifo, parked, wanted, frozen, process, now := None, false, false, false, false, None, 0;
    }

    function State(): Machine
      reads this
    {
      Machine(recorded, fifo, parked, wanted, frozen, process, now)
    }

    method IsAlive() returns (alive: bool)
      ensures alive == Alive(State())
    {
      alive := false;
      if recorded.Some? {
        match ObservedStart(process) {
          case Some(observed) => alive := observed == recorded.value;
          case None =>
        }
      }
    }

    method GetStatus() returns (status: Status)
      requires recorded.Some?
      ensures Some(status) == StatusOf(State())
    {
      var alive := IsAlive();
      if !alive {
        return Stopped;
      }
      if frozen {
        return Paused;
      }
      status := if fifo then Created else Running;
    }

    /** Loads the saved state and requires one of `expected`. */
    method Require(expected: set<Status>) returns (refusal: Option<Outcome>)
      ensures refusal ==
              match StatusOf(State())
              case None => Some(NotFound)
              case Some(status) => if status in expected then None else Some(BadState(status))
    {
      if recorded.None? {
        return Some(NotFound);
      }
      var actual := GetStatus();
      refusal := if actual in expected then None else Some(BadState(actual));
    }

    /** Writes the request and polls until the freezer reports it or five seconds are over. */
    method Freeze(request: bool, answer: Answer) returns (ok: bool)
      modifies this`wanted, this`frozen
      ensures State() == Requested(old(State()), request, answer)
      ensures ok <==> answer.Settles? || (answer.TimesOut? && frozen == request)
    {
      if answer.WriteRefused? {
        return false;
      }
      wanted := request;
      if answer.Settles? {
        frozen := request;
      }
      ok := frozen == request;
    }

    method StartContainer(readOk: bool, unlinkOk: bool) returns (outcome: Outcome)
      modifies this
      ensures (State(), outcome) == Command(old(State()), Start(readOk, unlinkOk))
    {
      var refusal := Require({Created});
      if refusal.Some? {
        return refusal.value;
      }
      // The open of the fifo returns only when the init opens the other end.
      if !ParkedInit(State()) {
        return Hangs;
      }
      parked := false;
      if !readOk {
        return ReleaseFailed;
      }
      if !unlinkOk {
        return ReleaseFailed;
      }
      fifo := false;
      outcome := Done;
    }

    method PauseContainer(paused: bool, answer: Answer) returns (outcome: Outcome)
      modifies this
      ensures (State(), outcome) == Command(old(State()), if paused then Pause(answer) else Resume(answer))
    {
      var refusal := Require(if paused then {Created, Running} else {Paused});
      if refusal.Some? {
        return refusal.value;
      }
      var ok := Freeze(paused, answer);
      outcome := if ok then Done else FreezerFailed;
    }

    /** `kill --all`; whom it signals is another matter. */
    method KillEverything(freeze: Answer, signals: bool, thaw: Answer) returns (outcome: Outcome)
      modifies this
      ensures (State(), outcome) == Command(old(State()), KillAll(freeze, signals, thaw))
    {
      var refusal := Require({Created, Running, Paused});
      if refusal.Some? {
        return refusal.value;
      }
      var was := frozen;
      if !was {
        var ok := Freeze(true, freeze);
        if !ok {
          return FreezerFailed;
        }
      }
      outcome := if signals then Done else SignalFailed;
      if !was {
        var ok := Freeze(false, thaw);
        if !ok {
          return FreezerFailed;
        }
      }
    }

    method DeleteContainer(force: bool, thaw: Answer, dies: bool, rmdir: bool, removal: Removal)
      returns (outcome: Outcome)
      modifies this
      ensures (State(), outcome) == Command(old(State()), Delete(force, thaw, dies, rmdir, removal))
      ensures OwnInitLives(old(State())) ==>
              (process == Some(old(process).value.(exited := true))
               <==> force && dies && old(recorded).Some? && StatusOf(old(State())) != Some(Stopped)
                    && (old(frozen) ==> thaw.Settles?))
    {
      if recorded.None? {
        return if force then Done else NotFound;
      }
      var status := GetStatus();
      if status != Stopped {
        if !force {
          return BadState(status);
        }
        if frozen {
          var ok := Freeze(false, thaw);
          if !ok {
            return FreezerFailed;
          }
        }
        process := Killed(process, dies);
      }
      if rmdir {
        wanted, frozen := false, false;
      }
      outcome := RemoveDirectory(removal);
    }

    method RemoveDirectory(removal: Removal) returns (outcome: Outcome)
      modifies this`recorded, this`fifo
      ensures State() == Removed(old(State()), removal)
      ensures outcome == if removal.Complete? then Done else RemoveFailed
    {
      match removal {
        case Complete =>
          recorded, fifo := None, false;
          outcome := Done;
        case Partial(stateLeft, fifoLeft) =>
          recorded := if stateLeft then recorded else None;
          fifo := fifo && fifoLeft;
          outcome := RemoveFailed;
      }
    }
  }
}
