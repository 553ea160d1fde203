/**
 * The agent supervisor as a system of threads: any number of clients calling StartPmAgent and StopPmAgent,
 * the monitor threads they create, and child processes that may end at any moment. One step is one access to
 * shared data or one system call, whose outcome is a choice. A wait on an open process handle returns only
 * after that process has ended; creating a thread succeeds.
 */
module AgentSupervisor {
  import opened Options
  import opened Runs

  type Tid = nat

  // PmControlPlugin::m_mtxAgentCtrl and PmAgentController::m_mutex
  datatype Mutex = PLUGIN | CONTROLLER

  datatype Holder = Free | By(tid: Tid)

  /** Every pipe and every process gets a handle of its own; Invalid is INVALID_HANDLE_VALUE. */
  datatype Handle = Invalid | PipeEnd(n: nat) | Process(n: nat)

  datatype Launcher = Starter | Monitor

  // PmControlPlugin::StartPmAgent around PmAgentController::Start
  datatype StartAt = Lock | Check | Kill | SetFlag | SpawnMonitor | SetStarted | Unlock

  // PmAgentController::startProcess
  datatype LaunchAt = Verify | Pipe | Setup | Create | Cleanup

  // PmControlPlugin::StopPmAgent around PmAgentController::Stop and stopProcess
  datatype StopAt =
    | Lock | Check
    | LockController | TestFlag | CloseStdin | TestProcess | Wait | Terminate | CloseProcess | UnlockController
    | Join | ClearStarted | Unlock

  // PmAgentController::monitorProcess
  datatype MonitorAt = ReadHandle | Waiting | LockController | TestFlag | UnlockController | Exited

  datatype Pc =
    | Idle
    | InStart(start: StartAt)
    | InLaunch(launcher: Launcher, launch: LaunchAt)
    | InStop(stop: StopAt, ok: bool)
    | InMonitor(monitor: MonitorAt, waited: Handle, leaving: bool)

  datatype Shared = Shared(
    plugin: Holder,
    controller: Holder,
    started: bool,              // m_bIsProcessStarted
    startedByPlugin: bool,      // m_bIsProcessStartedByPlugin
    stdinWr: Handle,            // m_hChildStdinWr
    process: Handle,            // m_hProcess
    thread: Option<Tid>,        // m_threadMonitor, present while joinable
    // the operating system
    alive: set<nat>,
    launches: nat,
    pipes: nat,
    closed: seq<Handle>)

  datatype State = State(pcs: map<Tid, Pc>, sh: Shared)

  /** Begin a call, take the outcome of a system call, or create the monitor thread. */
  datatype Choice = CallStart | CallStop | Succeeds | Fails | Spawn(monitor: Tid)

  datatype Move = Blocked | To(pc: Pc, sh: Shared) | Spawning(pc: Pc, sh: Shared, child: Tid)

  const NEW_MONITOR := InMonitor(ReadHandle, Invalid, false)

  /** CloseHandle on a field that holds a handle. */
  function Close(closed: seq<Handle>, handle: Handle): seq<Handle> {
    if handle == Invalid then closed else closed + [handle]
  }

  function TakePlugin(h: Shared, t: Tid, pc: Pc): Move {
    if h.plugin == Free then To(pc, h.(plugin := By(t))) else Blocked
  }

  function TakeController(h: Shared, t: Tid, pc: Pc): Move {
    if h.controller == Free then To(pc, h.(controller := By(t))) else Blocked
  }

  function Start(h: Shared, t: Tid, pc: Pc, c: Choice): Move
    requires pc.InStart?
  {
    match pc.start
    case Lock => TakePlugin(h, t, InStart(StartAt.Check))
    case Check => To(InStart(if h.started then StartAt.Unlock else Kill), h)
    case Kill => To(if c == Succeeds then InLaunch(Starter, Verify) else InStart(StartAt.Unlock), h)
    case SetFlag => To(InStart(SpawnMonitor), h.(startedByPlugin := true))
    case SpawnMonitor =>
      if c.Spawn? then Spawning(InStart(SetStarted), h.(thread := Some(c.monitor)), c.monitor) else Blocked
    case SetStarted => To(InStart(StartAt.Unlock), h.(started := true))
    case Unlock => To(Idle, h.(plugin := Free))
  }

  /** Back from startProcess: Start goes on only when it succeeded, the monitor ignores the result. */
  function Launched(launcher: Launcher, ok: bool): Pc {
    match launcher
    case Starter => InStart(if ok then SetFlag else StartAt.Unlock)
    case Monitor => InMonitor(MonitorAt.UnlockController, Invalid, false)
  }

  /** A failed signature check returns at once; every later failure goes through cleanup. */
  function Launch(h: Shared, pc: Pc, c: Choice): Move
    requires pc.InLaunch?
  {
    match pc.launch
    case Verify => To(if c == Succeeds then InLaunch(pc.launcher, Pipe) else Launched(pc.launcher, false), h)
    case Pipe =>
      if c == Succeeds then To(InLaunch(pc.launcher, Setup), h.(stdinWr := PipeEnd(h.pipes), pipes := h.pipes + 1))
      else To(InLaunch(pc.launcher, Cleanup), h)
    case Setup => To(InLaunch(pc.launcher, if c == Succeeds then Create else Cleanup), h)
    case Create =>
      if c == Succeeds then
        To(Launched(pc.launcher, true),
           h.(process := Process(h.launches), alive := h.alive + {h.launches}, launches := h.launches + 1))
      else To(InLaunch(pc.launcher, Cleanup), h)
    case Cleanup =>
      To(Launched(pc.launcher, false),
         h.(closed := Close(Close(h.closed, h.stdinWr), h.process), stdinWr := Invalid, process := Invalid))
  }

  function Stop(h: Shared, t: Tid, pc: Pc, monitorExited: bool, c: Choice): Move
    requires pc.InStop?
  {
    match pc.stop
    case Lock => TakePlugin(h, t, InStop(StopAt.Check, false))
    case Check => To(pc.(stop := if h.started then StopAt.LockController else StopAt.Unlock), h)
    case LockController => TakeController(h, t, pc.(stop := StopAt.TestFlag))
    case TestFlag =>
      if h.startedByPlugin then To(pc.(stop := CloseStdin), h.(startedByPlugin := false))
      else To(pc.(stop := StopAt.UnlockController, ok := true), h)
    case CloseStdin => To(pc.(stop := TestProcess), h.(closed := Close(h.closed, h.stdinWr), stdinWr := Invalid))
    case TestProcess =>
      if h.process == Invalid then To(pc.(stop := StopAt.UnlockController, ok := false), h) else To(pc.(stop := Wait), h)
    case Wait =>
      if c == Succeeds then
        (if h.process.Process? && h.process.n !in h.alive then To(pc.(stop := StopAt.UnlockController, ok := true), h)
         else Blocked)
      else To(pc.(stop := Terminate), h)
    case Terminate =>
      if c == Succeeds then
        To(pc.(stop := CloseProcess), h.(alive := if h.process.Process? then h.alive - {h.process.n} else h.alive))
      else To(pc.(stop := StopAt.UnlockController, ok := false), h)
    case CloseProcess =>
      To(pc.(stop := StopAt.UnlockController, ok := true), h.(closed := Close(h.closed, h.process), process := Invalid))
    case UnlockController => To(pc.(stop := if pc.ok then Join else StopAt.Unlock), h.(controller := Free))
    case Join =>
      if h.thread.None? then To(pc.(stop := ClearStarted), h)
      else if monitorExited then To(pc.(stop := ClearStarted), h.(thread := None))
      else Blocked
    case ClearStarted => To(pc.(stop := StopAt.Unlock), h.(started := false))
    case Unlock => To(Idle, h.(plugin := Free))
  }

  /**
   * A wait reports the end of an ended process and can fail only on a handle that has been closed.
   * INVALID_HANDLE_VALUE stands for the waiting process itself, so that a wait on it never returns.
   */
  function Watch(h: Shared, t: Tid, pc: Pc, c: Choice): Move
    requires pc.InMonitor?
  {
    match pc.monitor
    case ReadHandle => To(pc.(monitor := Waiting, waited := h.process), h)
    case Waiting =>
      if c == Succeeds then
        (if pc.waited.Process? && pc.waited !in h.closed && pc.waited.n !in h.alive
         then To(pc.(monitor := MonitorAt.LockController), h) else Blocked)
      else if pc.waited in h.closed then To(pc.(monitor := Exited), h)
      else Blocked
    case LockController => TakeController(h, t, pc.(monitor := MonitorAt.TestFlag))
    case TestFlag =>
      if h.startedByPlugin then To(InLaunch(Monitor, Verify), h)
      else To(pc.(monitor := MonitorAt.UnlockController, leaving := true), h)
    case UnlockController => To(pc.(monitor := if pc.leaving then Exited else ReadHandle), h.(controller := Free))
    case Exited => Blocked
  }

  function Act(h: Shared, t: Tid, pc: Pc, monitorExited: bool, c: Choice): Move {
    match pc
    case Idle =>
      if c == CallStart then To(InStart(StartAt.Lock), h)
      else if c == CallStop then To(InStop(StopAt.Lock, false), h) else Blocked
    case InStart(_) => Start(h, t, pc, c)
    case InLaunch(_, _) => Launch(h, pc, c)
    case InStop(_, _) => Stop(h, t, pc, monitorExited, c)
    case InMonitor(_, _, _) => Watch(h, t, pc, c)
  }

  ghost predicate MonitorExited(s: State) {
    s.sh.thread.Some? && s.sh.thread.value in s.pcs
    && s.pcs[s.sh.thread.value].InMonitor? && s.pcs[s.sh.thread.value].monitor == Exited
  }

  ghost predicate Step(s: State, t: Tid, c: Choice, s': State) {
    && t in s.pcs
    && match Act(s.sh, t, s.pcs[t], MonitorExited(s), c)
       case Blocked => false
       case To(pc, sh) => s' == State(s.pcs[t := pc], sh)
       case Spawning(pc, sh, w) => w !in s.pcs && s' == State(s.pcs[t := pc][w := NEW_MONITOR], sh)
  }

  /** A child ends by itself. */
  ghost predicate Dies(s: State, p: nat, s': State) {
    p in s.sh.alive && s' == s.(sh := s.sh.(alive := s.sh.alive - {p}))
  }

  ghost predicate Next(s: State, s': State) {
    (exists t, c :: Step(s, t, c, s')) || (exists p :: Dies(s, p, s'))
  }

  ghost predicate Init(s: State) {
    && (forall t <- s.pcs :: s.pcs[t] == Idle)
    && s.sh == Shared(Free, Free, false, false, Invalid, Invalid, None, {}, 0, 0, [])
  }

  ghost predicate Run(r: seq<State>) {
    Path(Next, r) && Init(r[0])
  }

  /** A state that some run comes to. */
  ghost predicate Reachable(s: State) {
    exists s0 :: Init(s0) && Reaches(Next, s0, s)
  }

  // ----- locks -----

  predicate HoldsPlugin(pc: Pc) {
    (pc.InStart? && pc.start != StartAt.Lock)
    || (pc.InLaunch? && pc.launcher == Starter)
    || (pc.InStop? && pc.stop != StopAt.Lock)
  }

  predicate HoldsController(pc: Pc) {
    (pc.InLaunch? && pc.launcher == Monitor)
    || (pc.InStop? &&
        (pc.stop == StopAt.TestFlag || pc.stop == CloseStdin || pc.stop == TestProcess || pc.stop == Wait
         || pc.stop == Terminate || pc.stop == CloseProcess || pc.stop == StopAt.UnlockController))
    || (pc.InMonitor? && (pc.monitor == MonitorAt.TestFlag || pc.monitor == MonitorAt.UnlockController))
  }

  /** A monitor thread, wherever it is in its loop. */
  predicate Monitoring(pc: Pc) {
    pc.InMonitor? || (pc.InLaunch? && pc.launcher == Monitor)
  }

  predicate HasExited(pc: Pc) {
    pc.InMonitor? && pc.monitor == Exited
  }
}
