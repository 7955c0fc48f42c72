/** The create/start protocol.

    Three processes run `create`: the runtime, the intermediate it forks, and the container init the
    intermediate forks. They share one packet socket pair whose child end is held by both children.
    A named pipe then parks the init until some later `start` (or the tail of `run`) releases it.
    Every process is a program counter, every step one action of one process, and every fallible
    step may fail; `Do` is the whole system and a run is a sequence of actions. */
module Protocol {
  import opened Wrappers

  // ---- State --------------------------------------------------------------------------------------

  datatype Message =
    | RequestUserMapping
    | UserMappingDone
    | InitPid(pid: int)
    | CgroupApplied(pid: int)
    | InitReady
    | Failed

  /** Which namespaces the bundle asks for; each adds or removes steps. `frozen`: the cgroup was there
      before, and stays frozen as it was found. */
  datatype Config = Config(userNs: bool, cgroupNs: bool, mountNs: bool, frozen: bool)

  datatype Runtime =
    | RecvFirst | WriteMapping | SendMapped | RecvSecond
    | Reap | Attach | Prestart | CreateRuntime | SendApplied | ExpectReady
    | ReadStartTime | Save | WritePidFile | ReturnedOk
    // the way out after an error
    | RemoveFifo | KillMembers | Drain(polls: nat) | DestroyCgroup | RemoveDir | ReturnedErr
    | RuntimeKilled

  datatype Intermediate =
    | Setup | Request | AwaitMapped | BecomeRoot | ForkInit | SendPid | Report | Leave | Gone

  datatype Init =
    | Unborn | AwaitApplied | UnshareCgroup | MountRootfs | ContainerHooks | Pivot | Secure
    | SendReady | ParkJoin | ParkWait(seen: nat) | ParkWrite | ParkClose
    | StartHooks | Unblock | Exec | RunningProgram
    | InitReport | InitLeave | InitGone

  /** Who releases the init: the `start` command, or `run` after its own `create`. */
  datatype Command = StartCommand | RunCommand

  datatype StarterAt =
    | Load | CheckPath | OpenPath | Opening(seen: nat) | Read | Unlink
    | Started | Refused | StarterKilled

  datatype Starter = Starter(command: Command, at: StarterAt)

  // Facts about the past of a run; each only ever goes from false to true.

  /** What was sent to the runtime. `reported` and `initReported` are the two Failed messages. */
  datatype Uplink = Uplink(requested: bool, reported: bool, pidSent: bool, readySent: bool, initReported: bool)

  /** What the runtime sent, and whether it was consumed. */
  datatype Downlink = Downlink(mapped: bool, mappedTaken: bool, applied: bool, appliedTaken: bool)

  /** What the runtime has done: the init's pid is in the cgroup, every prestart and createRuntime
      hook succeeded, InitReady was received, state.json was in place at some time, the pid file
      could not be written after that. */
  datatype Record = Record(attached: bool, hooksOk: bool, readyReceived: bool, everSaved: bool, pidFileFailed: bool)

  /** What the way out could not do: signal the members of the cgroup, remove the directory. */
  datatype Missed = Missed(kill: bool, cleanup: bool)

  /** What the init has done. */
  datatype Built = Built(cgroupUnshared: bool, mounted: bool, pivoted: bool, executed: bool)

  /** The exec fifo: bytes written, in the pipe and read; opens of either end so far. */
  datatype Pipe = Pipe(written: nat, buffered: nat, bytesRead: nat, readerOpens: nat, writerOpens: nat)

  datatype State = State(
    cfg: Config,
    r: Runtime, m: Intermediate, i: Init,
    initPid: int,           // the pid the second fork yields
    adopted: int,           // the pid the runtime took from InitPid
    hostPid: int,           // the pid the init took from CgroupApplied
    toParent: seq<Message>,
    toChild: seq<Message>,
    fifoPresent: bool,
    saved: bool,            // state.json exists
    up: Uplink,
    down: Downlink,
    rec: Record,
    missed: Missed,
    built: Built,
    pidLost: bool,          // the intermediate was killed after forking and before sending InitPid
    mismatch: bool,         // some receive got a message that is neither the expected one nor Failed
    pipe: Pipe,
    starters: seq<Starter>)

  /** Right after the first fork, with any number of releasers waiting to run. */
  predicate Initial(s: State) {
    && s.r == RecvFirst && s.m == Setup && s.i == Unborn
    && s.toParent == [] && s.toChild == []
    && s.fifoPresent && !s.saved
    && s.up == Uplink(false, false, false, false, false)
    && s.down == Downlink(false, false, false, false)
    && s.rec == Record(false, false, false, false, false)
    && s.missed == Missed(false, false)
    && s.built == Built(false, false, false, false)
    && !s.pidLost && !s.mismatch
    && s.pipe == Pipe(0, 0, 0, 0, 0)
    && (forall k | 0 <= k < |s.starters| :: s.starters[k].at == Load)
  }

  // ---- Program counters as positions ------------------------------------------------------------------

  /** 0..12 in program order, 13 when `create` has returned Ok, 20 and above after an error. */
  function Place(r: Runtime): nat {
    match r
    case RecvFirst => 0 case WriteMapping => 1 case SendMapped => 2 case RecvSecond => 3
    case Reap => 4 case Attach => 5 case Prestart => 6 case CreateRuntime => 7
    case SendApplied => 8 case ExpectReady => 9 case ReadStartTime => 10 case Save => 11
    case WritePidFile => 12 case ReturnedOk => 13
    case RemoveFifo => 20 case KillMembers => 21 case Drain(_) => 22 case DestroyCgroup => 23
    case RemoveDir => 24 case ReturnedErr => 25 case RuntimeKilled => 26
  }

  function PlaceM(m: Intermediate): nat {
    match m
    case Setup => 0 case Request => 1 case AwaitMapped => 2 case BecomeRoot => 3 case ForkInit => 4
    case SendPid => 5 case Report => 6 case Leave => 7 case Gone => 8
  }

  /** 1..15 in program order, 20 and above after an error or exit. */
  function PlaceI(i: Init): nat {
    match i
    case Unborn => 0 case AwaitApplied => 1 case UnshareCgroup => 2 case MountRootfs => 3
    case ContainerHooks => 4 case Pivot => 5 case Secure => 6 case SendReady => 7
    case ParkJoin => 8 case ParkWait(_) => 9 case ParkWrite => 10 case ParkClose => 11
    case StartHooks => 12 case Unblock => 13 case Exec => 14 case RunningProgram => 15
    case InitReport => 20 case InitLeave => 21 case InitGone => 22
  }

  // ---- The kernel's side ----------------------------------------------------------------------------

  /** The runtime drops its end of the socket when `spawn` returns. */
  predicate RuntimeClosed(r: Runtime) {
    r.DestroyCgroup? || r.RemoveDir? || r.ReturnedOk? || r.ReturnedErr? || r.RuntimeKilled?
  }

  predicate Finished(r: Runtime) {
    r.ReturnedOk? || r.ReturnedErr? || r.RuntimeKilled?
  }

  /** The init drops the socket by exiting or, as it is close-on-exec, by execve. */
  predicate InitHoldsSocket(i: Init) {
    !i.Unborn? && !i.InitGone? && !i.RunningProgram?
  }

  predicate ChildEndOpen(s: State) {
    !s.m.Gone? || InitHoldsSocket(s.i)
  }

  predicate WriterOpen(i: Init) {
    i.ParkWait? || i.ParkWrite? || i.ParkClose?
  }

  predicate ReaderOpen(p: Starter) {
    p.at.Opening? || p.at.Read? || p.at.Unlink?
  }

  predicate AnyReader(s: State) {
    exists k :: 0 <= k < |s.starters| && ReaderOpen(s.starters[k])
  }

  /** A pipe with no end open keeps no bytes. */
  function Settle(s: State): State {
    if !AnyReader(s) && !WriterOpen(s.i) then s.(pipe := s.pipe.(buffered := 0)) else s
  }

  // ---- The runtime: create, build, spawn, handshake --------------------------------------------------

  function FailCreate(s: State): State {
    s.(r := RemoveFifo)
  }

  /** What `handshake` does with the message that should be InitPid. */
  function AcceptPid(s: State, message: Message): State {
    match message
    case InitPid(pid) => s.(r := Reap, adopted := pid)
    case Failed => FailCreate(s)
    case _ => FailCreate(s.(mismatch := true))
  }

  /** `handshake` up to the init's pid, through the user mapping when it is asked for. */
  function ReceivePid(s: State, ok: bool): Option<State> {
    match s.r
    case RecvFirst =>
      if s.toParent == [] then (if ChildEndOpen(s) then None else Some(FailCreate(s)))
      else
        var t := s.(toParent := s.toParent[1..]);
        if !ok then Some(FailCreate(t))
        else if s.toParent[0].RequestUserMapping? then Some(t.(r := WriteMapping))
        else Some(AcceptPid(t, s.toParent[0]))
    case WriteMapping => Some(if ok then s.(r := SendMapped) else FailCreate(s))
    case SendMapped =>
      Some(if ChildEndOpen(s)
           then s.(r := RecvSecond, toChild := s.toChild + [UserMappingDone], down := s.down.(mapped := true))
           else FailCreate(s))
    case RecvSecond =>
      if s.toParent == [] then (if ChildEndOpen(s) then None else Some(FailCreate(s)))
      else
        var t := s.(toParent := s.toParent[1..]);
        Some(if ok then AcceptPid(t, s.toParent[0]) else FailCreate(t))
    case _ => None
  }

  /** The init is put in its cgroup, the runtime hooks run, and the init is told to go on. */
  function PlaceInit(s: State, ok: bool): Option<State> {
    match s.r
    case Reap => if s.m.Gone? then Some(if ok then s.(r := Attach) else FailCreate(s)) else None
    case Attach =>
      Some(if ok then s.(r := Prestart, rec := s.rec.(attached := true)) else FailCreate(s))
    case Prestart => Some(if ok then s.(r := CreateRuntime) else FailCreate(s))
    case CreateRuntime =>
      Some(if ok then s.(r := SendApplied, rec := s.rec.(hooksOk := true)) else FailCreate(s))
    case SendApplied =>
      Some(if ChildEndOpen(s)
           then s.(r := ExpectReady, toChild := s.toChild + [CgroupApplied(s.adopted)],
                   down := s.down.(applied := true))
           else FailCreate(s))
    case _ => None
  }

  /** The container is ready: its state is recorded. */
  function RecordState(s: State, ok: bool): Option<State> {
    match s.r
    case ExpectReady =>
      if s.toParent == [] then (if ChildEndOpen(s) then None else Some(FailCreate(s)))
      else
        var t := s.(toParent := s.toParent[1..]);
        if !ok || s.toParent[0].Failed? then Some(FailCreate(t))
        else if s.toParent[0].InitReady? then Some(t.(r := ReadStartTime, rec := s.rec.(readyReceived := true)))
        else Some(FailCreate(t.(mismatch := true)))
    case ReadStartTime => Some(if ok then s.(r := Save) else FailCreate(s))
    case Save =>
      Some(if ok then s.(r := WritePidFile, saved := true, rec := s.rec.(everSaved := true)) else FailCreate(s))
    case WritePidFile =>
      Some(if ok then s.(r := ReturnedOk) else FailCreate(s.(rec := s.rec.(pidFileFailed := true))))
    case _ => None
  }

  /** The error path of `spawn`, `build` and `create`. */
  function WayOut(s: State, ok: bool): Option<State> {
    match s.r
    case RemoveFifo => Some(s.(r := KillMembers, fifoPresent := s.fifoPresent && !ok))
    case KillMembers =>
      Some(if !ok then s.(r := Drain(250), missed := s.missed.(kill := true))
           else if s.rec.attached && !s.i.Unborn? then Settle(s.(r := Drain(250), i := InitGone))
           else s.(r := Drain(250)))
    case Drain(polls) =>
      // the poll ends when nobody is left, and also when the members cannot be read
      Some(if polls == 0 || !ok || !s.rec.attached || s.i.InitGone? then s.(r := DestroyCgroup)
           else s.(r := Drain(polls - 1)))
    case DestroyCgroup => Some(s.(r := RemoveDir))
    case RemoveDir =>
      Some(if ok then s.(r := ReturnedErr, fifoPresent := false, saved := false)
           else s.(r := ReturnedErr, missed := s.missed.(cleanup := true)))
    case _ => None
  }

  function StepRuntime(s: State, ok: bool): Option<State> {
    if Place(s.r) <= 3 then ReceivePid(s, ok)
    else if Place(s.r) <= 8 then PlaceInit(s, ok)
    else if Place(s.r) <= 12 then RecordState(s, ok)
    else WayOut(s, ok)
  }

  // ---- The intermediate: stage_one ---------------------------------------------------------------------

  /** Namespaces and the user mapping. */
  function Prepare(s: State, ok: bool): Option<State> {
    match s.m
    case Setup => Some(if !ok then s.(m := Report) else s.(m := if s.cfg.userNs then Request else ForkInit))
    case Request =>
      Some(if RuntimeClosed(s.r) then s.(m := Report)
           else s.(m := AwaitMapped, toParent := s.toParent + [RequestUserMapping], up := s.up.(requested := true)))
    case AwaitMapped =>
      if s.toChild == [] then (if RuntimeClosed(s.r) then Some(s.(m := Report)) else None)
      else
        var t := s.(toChild := s.toChild[1..], down := s.down.(mappedTaken := true));
        if ok && s.toChild[0].UserMappingDone? then Some(t.(m := BecomeRoot))
        else Some(t.(m := Report, mismatch := s.mismatch || !s.toChild[0].UserMappingDone?))
    case _ => None
  }

  /** The second fork and the exit. */
  function ForkTheInit(s: State, ok: bool): Option<State> {
    match s.m
    case BecomeRoot => Some(s.(m := if ok then ForkInit else Report))
    case ForkInit => Some(if ok then s.(m := SendPid, i := AwaitApplied) else s.(m := Report))
    case SendPid =>
      Some(if RuntimeClosed(s.r) then s.(m := Report)
           else s.(m := Leave, toParent := s.toParent + [InitPid(s.initPid)], up := s.up.(pidSent := true)))
    case Report =>
      Some(if RuntimeClosed(s.r) then s.(m := Leave)
           else s.(m := Leave, toParent := s.toParent + [Failed], up := s.up.(reported := true)))
    case Leave => Some(s.(m := Gone))
    case _ => None
  }

  function StepIntermediate(s: State, ok: bool): Option<State> {
    if PlaceM(s.m) <= 2 then Prepare(s, ok)
    else ForkTheInit(s, ok)
  }

  // ---- The init: container_init, park --------------------------------------------------------------------

  /** The container is built around the init. */
  function Build(s: State, ok: bool): Option<State> {
    match s.i
    case AwaitApplied =>
      if s.toChild == [] then (if RuntimeClosed(s.r) then Some(s.(i := InitReport)) else None)
      else
        var t := s.(toChild := s.toChild[1..], down := s.down.(appliedTaken := true));
        if ok && s.toChild[0].CgroupApplied? then Some(t.(i := UnshareCgroup, hostPid := s.toChild[0].pid))
        else Some(t.(i := InitReport, mismatch := s.mismatch || !s.toChild[0].CgroupApplied?))
    case UnshareCgroup =>
      Some(if s.cfg.cgroupNs && !ok then s.(i := InitReport)
           else s.(i := if s.cfg.mountNs then MountRootfs else ContainerHooks,
                   built := s.built.(cgroupUnshared := s.cfg.cgroupNs)))
    case MountRootfs =>
      Some(if ok then s.(i := ContainerHooks, built := s.built.(mounted := true)) else s.(i := InitReport))
    case ContainerHooks =>
      Some(s.(i := if !ok then InitReport else if s.cfg.mountNs then Pivot else Secure))
    case _ => None
  }

  /** The last steps before the ready message. */
  function GetReady(s: State, ok: bool): Option<State> {
    match s.i
    case Pivot => Some(if ok then s.(i := Secure, built := s.built.(pivoted := true)) else s.(i := InitReport))
    case Secure => Some(s.(i := if ok then SendReady else InitReport))
    case SendReady =>
      Some(if RuntimeClosed(s.r) then s.(i := InitReport)
           else s.(i := ParkJoin, toParent := s.toParent + [InitReady], up := s.up.(readySent := true)))
    case _ => None
  }

  /** `park`: the pipe is opened, written and closed. */
  function Park(s: State, ok: bool): Option<State> {
    match s.i
    case ParkJoin =>
      Some(if ok then s.(i := ParkWait(s.pipe.readerOpens), pipe := s.pipe.(writerOpens := s.pipe.writerOpens + 1))
           else s.(i := InitReport))
    case ParkWait(seen) => if AnyReader(s) || s.pipe.readerOpens > seen then Some(s.(i := ParkWrite)) else None
    case ParkWrite =>
      Some(if ok && AnyReader(s) then
             s.(i := ParkClose, pipe := s.pipe.(written := s.pipe.written + 1, buffered := s.pipe.buffered + 1))
           else Settle(s.(i := InitReport)))
    case ParkClose => Some(Settle(s.(i := StartHooks)))
    case _ => None
  }

  /** The program, or the way out. */
  function Launch(s: State, ok: bool): Option<State> {
    match s.i
    case StartHooks => Some(s.(i := if ok then Unblock else InitReport))
    case Unblock => Some(s.(i := if ok then Exec else InitReport))
    case Exec => Some(if ok then s.(i := RunningProgram, built := s.built.(executed := true)) else s.(i := InitReport))
    case InitReport =>
      Some(if RuntimeClosed(s.r) then s.(i := InitLeave)
           else s.(i := InitLeave, toParent := s.toParent + [Failed], up := s.up.(initReported := true)))
    case InitLeave => Some(s.(i := InitGone))
    case _ => None
  }

  /** The init has been put in a frozen cgroup, where it takes no step and can only be killed. */
  predicate Halted(s: State) {
    s.cfg.frozen && s.rec.attached
  }

  function StepInit(s: State, ok: bool): Option<State> {
    if Halted(s) then None
    else if PlaceI(s.i) <= 4 then Build(s, ok)
    else if PlaceI(s.i) <= 7 then GetReady(s, ok)
    else if PlaceI(s.i) <= 11 then Park(s, ok)
    else Launch(s, ok)
  }

  // ---- A releaser: start, run, release --------------------------------------------------------------------

  function Move(s: State, k: nat, at: StarterAt): State
    requires k < |s.starters|
  {
    s.(starters := s.starters[k := s.starters[k].(at := at)])
  }

  predicate CanLoad(s: State, command: Command) {
    s.saved && (match command case StartCommand => s.fifoPresent case RunCommand => s.r.ReturnedOk?)
  }

  function StepStarter(s: State, k: nat, ok: bool): Option<State>
    requires k < |s.starters|
  {
    match s.starters[k].at
    case Load =>
      // `start` loads state.json and requires status Created; `run` waits for its own create, and gives
      // up with it
      if s.starters[k].command.RunCommand? && !Finished(s.r) then None
      else if ok && CanLoad(s, s.starters[k].command) then Some(Move(s, k, CheckPath))
      else Some(Move(s, k, Refused))
    case CheckPath => Some(Move(s, k, if s.fifoPresent then OpenPath else Refused))
    case OpenPath =>
      Some(if ok && s.fifoPresent then
             Move(s, k, Opening(s.pipe.writerOpens)).(pipe := s.pipe.(readerOpens := s.pipe.readerOpens + 1))
           else Move(s, k, Refused))
    case Opening(seen) => if WriterOpen(s.i) || s.pipe.writerOpens > seen then Some(Move(s, k, Read)) else None
    case Read =>
      if s.pipe.buffered == 0 && WriterOpen(s.i) then None
      else if ok && s.pipe.buffered > 0 then
        Some(Move(s, k, Unlink).(pipe := s.pipe.(buffered := s.pipe.buffered - 1, bytesRead := s.pipe.bytesRead + 1)))
      else Some(Settle(Move(s, k, Refused)))
    case Unlink =>
      Some(if ok && s.fifoPresent then Settle(Move(s, k, Started).(fifoPresent := false))
           else Settle(Move(s, k, Refused)))
    case _ => None
  }

  // ---- The system -----------------------------------------------------------------------------------------

  datatype Process = TheRuntime | TheIntermediate | TheInit | TheStarter(k: nat)

  /** A process takes its next step, every fallible part of which succeeds or not; or it is killed
      from outside. */
  datatype Action = Step(who: Process, ok: bool) | Kill(who: Process)

  predicate StarterDone(at: StarterAt) {
    at.Started? || at.Refused? || at.StarterKilled?
  }

  function KillProcess(s: State, who: Process): Option<State> {
    match who
    case TheRuntime => if Finished(s.r) then None else Some(s.(r := RuntimeKilled))
    case TheIntermediate =>
      if s.m.Gone? then None
      else Some(s.(m := Gone, pidLost := s.pidLost || s.m.SendPid?))
    case TheInit => if s.i.Unborn? || s.i.InitGone? then None else Some(Settle(s.(i := InitGone)))
    case TheStarter(k) =>
      if k >= |s.starters| || StarterDone(s.starters[k].at) then None
      else Some(Settle(Move(s, k, StarterKilled)))
  }

  function Do(s: State, a: Action): Option<State> {
    match a
    case Kill(who) => KillProcess(s, who)
    case Step(TheRuntime, ok) => StepRuntime(s, ok)
    case Step(TheIntermediate, ok) => StepIntermediate(s, ok)
    case Step(TheInit, ok) => StepInit(s, ok)
    case Step(TheStarter(k), ok) => if k < |s.starters| then StepStarter(s, k, ok) else None
  }

  predicate CanStep(s: State, who: Process) {
    Do(s, Step(who, true)).Some? || Do(s, Step(who, false)).Some?
  }

  /** The state after a sequence of actions, if every one of them was enabled. */
  function After(s: State, actions: seq<Action>): Option<State>
    decreases |actions|
  {
    if actions == [] then Some(s)
    else
      match Do(s, actions[0])
      case None => None
      case Some(t) => After(t, actions[1..])
  }

  ghost predicate Reachable(s: State) {
    exists s0, actions :: Initial(s0) && After(s0, actions) == Some(s)
  }
}
