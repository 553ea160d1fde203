/**
 * Proxy discovery as a system of threads. A state holds the shared fields, the owner of every mutex and where each
 * thread is; one step is one access to shared data. A step that runs several statements does so on data that
 * the mutex it holds protects. Client threads make any calls in any order; the callbacks do not call back.
 */
module ProxyProtocol {
  import opened Options
  import opened Runs
  import opened ProxyInfoModel
  import opened ProxyDiscoveryEngines
  import opened ConsumerRegistry

  type Tid = nat

  // ProxyDiscovery::m_consumerMutex, WindowsConfiguration::m_proxyMutex,
  // ThreadedProxyDiscovery::m_mutex, ProxyDiscovery::m_proxyMutex
  datatype Mutex = CONSUMERS | CONFIGURATION | THREADED | ENGINE

  datatype Holder = Free | By(tid: Tid)

  /** The owner of each mutex. */
  datatype Owners = Owners(consumers: Holder, configuration: Holder, threaded: Holder, engine: Holder) {
    function Get(m: Mutex): Holder {
      match m
      case CONSUMERS => consumers
      case CONFIGURATION => configuration
      case THREADED => threaded
      case ENGINE => engine
    }

    function Set(m: Mutex, h: Holder): Owners {
      match m
      case CONSUMERS => this.(consumers := h)
      case CONFIGURATION => this.(configuration := h)
      case THREADED => this.(threaded := h)
      case ENGINE => this.(engine := h)
    }
  }

  /** The mutexes one thread owns. */
  datatype Locks = Locks(consumers: bool, configuration: bool, threaded: bool, engine: bool) {
    predicate Get(m: Mutex) {
      match m
      case CONSUMERS => consumers
      case CONFIGURATION => configuration
      case THREADED => threaded
      case ENGINE => engine
    }
  }

  datatype Consumer = Configuration | Other(id: nat)

  /** On whose behalf a discovery runs: the worker launched by the ticket-th stored callback, or a client. */
  datatype Task = Worker(ticket: nat) | Caller(notify: bool)

  // WindowsConfiguration::StartProxyDiscoveryAsync around ThreadedProxyDiscovery::StartProxyDiscoveryAsync
  datatype StartAt = Lock | StoreCb | StoreContext | LockThreaded | Check | Launch | UnlockThreaded | Unlock

  // ProxyDiscovery::ProxyDiscoverySync around ProxyDiscoveryEngine::Init and GetProxyInfo
  datatype DiscoverAt = Lock | Clear | Find | Normalize | Get | Unlock

  // ProxyDiscovery::NotifyConsumers around WindowsConfiguration::ProxiesDiscovered
  datatype NotifyAt = Lock | Consumer | LockConfig | Invoke | ClearCb | ClearContext | UnlockConfig | Unlock

  // the tail of ThreadedProxyDiscovery::DiscoveryThread
  datatype TailAt = Lock | Clear | Unlock | Exited

  // ProxyDiscovery::RegisterForProxyNotifications and UnregisterForProxyNotifications
  datatype RegisterAt = Lock | Apply | Unlock

  // ThreadedProxyDiscovery::~ThreadedProxyDiscovery
  datatype DestroyAt = Lock | Check | Retry | Unlock | Done

  /** Where a thread is, with its local variables. */
  datatype Pc =
    | Idle
    | InStart(start: StartAt, cb: nat, ctx: nat, ticket: nat)
    | InDiscover(discover: DiscoverAt, task: Task, found: seq<seq<ProxyInfo>>, i: nat, cancelled: bool,
                 list: seq<ProxyInfo>)
    | InNotify(notify: NotifyAt, pass: Task, index: nat, proxies: seq<ProxyInfo>)
    | InTail(tail: TailAt, worker: nat)
    | InRegister(register: RegisterAt, c: Consumer, add: bool)
    | InDestroy(destroy: DestroyAt)

  /** A callback call: what was called, with which context and list, by which thread, when how many had been stored. */
  datatype Invocation = Invocation(cb: nat, ctx: Option<nat>, list: seq<ProxyInfo>, asOf: nat, tid: Tid)

  /** What one discovery handed to its thread: the lists its methods found, in order, and the result. */
  datatype Delivery = Delivery(tid: Tid, found: seq<seq<ProxyInfo>>, cancelled: bool, list: seq<ProxyInfo>)

  /** The fields the threads share, with the owners of the mutexes. */
  datatype Shared = Shared(
    owners: Owners,
    consumers: seq<Consumer>,
    cb: Option<nat>,
    ctx: Option<nat>,
    running: bool,
    shutdown: bool,
    engine: seq<ProxyInfo>,
    // history, read by no step
    runner: Option<Tid>,
    stored: seq<(nat, nat)>,
    invoked: seq<Invocation>,
    delivered: seq<Delivery>)

  datatype State = State(pcs: map<Tid, Pc>, sh: Shared)

  /** What the scheduler, the callers and the operating system decide. */
  datatype Choice =
    | Go
    | CallStart(cb: nat, ctx: nat)
    | CallDiscover(notify: bool)
    | CallRegister(c: Consumer, add: bool)
    | CallDestroy
    | Spawn(worker: Tid)
    | SpawnFails
    | FindList(list: seq<ProxyInfo>)

  ghost predicate Init(s: State) {
    && (forall t <- s.pcs :: s.pcs[t] == Idle)
    && s.sh == Shared(Owners(Free, Free, Free, Free), [], None, None, false, false, [], None, [], [], [])
  }

  /** Where a step leaves its thread and the shared fields; a launch also starts a worker. */
  datatype Move = Blocked | To(pc: Pc, sh: Shared) | Launching(pc: Pc, sh: Shared, worker: Tid)

  function Take(h: Shared, t: Tid, m: Mutex, pc: Pc): Move {
    if h.owners.Get(m) == Free then To(pc, h.(owners := h.owners.Set(m, By(t)))) else Blocked
  }

  function Leave(h: Shared, m: Mutex, pc: Pc): Move {
    To(pc, h.(owners := h.owners.Set(m, Free)))
  }

  /** The first position of a discovery. */
  function Discovery(task: Task): Pc {
    InDiscover(DiscoverAt.Lock, task, [], 0, false, [])
  }

  /**
   * Beginning a call. Nobody starts discovery once destruction has begun, and it does not begin while a start
   * still has its check before it; starts that are past their check may be under way.
   */
  function Call(h: Shared, startUnderWay: bool, c: Choice): Move {
    match c
    case CallStart(cb, ctx) => if h.shutdown then Blocked else To(InStart(StartAt.Lock, cb, ctx, 0), h)
    case CallDiscover(notify) => To(Discovery(Caller(notify)), h)
    case CallRegister(x, add) => To(InRegister(RegisterAt.Lock, x, add), h)
    case CallDestroy =>
      if h.shutdown || startUnderWay then Blocked else To(InDestroy(DestroyAt.Lock), h.(shutdown := true))
    case _ => Blocked
  }

  function Start(h: Shared, t: Tid, pc: Pc, c: Choice): Move
    requires pc.InStart?
  {
    match pc.start
    case Lock => Take(h, t, CONFIGURATION, pc.(start := StoreCb))
    case StoreCb => To(pc.(start := StoreContext), h.(cb := Some(pc.cb)))
    case StoreContext =>
      To(pc.(start := LockThreaded, ticket := |h.stored| + 1),
         h.(ctx := Some(pc.ctx), stored := h.stored + [(pc.cb, pc.ctx)]))
    case LockThreaded => Take(h, t, THREADED, pc.(start := StartAt.Check))
    case Check =>
      if h.running then To(pc.(start := UnlockThreaded), h)
      else To(pc.(start := Launch), h.(running := true, runner := Some(t)))
    case Launch =>
      if c.Spawn? then Launching(pc.(start := UnlockThreaded), h.(runner := Some(c.worker)), c.worker)
      else if c.SpawnFails? then To(pc.(start := UnlockThreaded), h.(running := false, runner := None))
      else Blocked
    case UnlockThreaded => Leave(h, THREADED, pc.(start := StartAt.Unlock))
    case Unlock => Leave(h, CONFIGURATION, Idle)
  }

  function Discover(h: Shared, t: Tid, pc: Pc, c: Choice): Move
    requires pc.InDiscover?
  {
    match pc.discover
    case Lock => Take(h, t, ENGINE, pc.(discover := DiscoverAt.Clear))
    case Clear => To(InDiscover(Find, pc.task, [], 0, false, []), h.(engine := []))
    case Find =>
      if |pc.found| >= |DISCOVERY_ORDER| then To(pc.(discover := Normalize), h)
      else if h.shutdown then To(pc.(discover := Get, cancelled := true), h.(engine := []))
      else if c.FindList? then To(pc.(found := pc.found + [c.list]), h.(engine := h.engine + c.list))
      else Blocked
    case Normalize =>
      if pc.i >= |h.engine| then To(pc.(discover := Get), h)
      else if h.shutdown then To(pc.(discover := Get, cancelled := true), h.(engine := []))
      else To(pc.(i := pc.i + 1), h.(engine := h.engine[pc.i := NormalizeOne(h.engine[pc.i])]))
    case Get =>
      // an empty engine list is not copied, which leaves the thread's own fresh empty list
      To(pc.(discover := DiscoverAt.Unlock, list := h.engine),
         h.(delivered := h.delivered + [Delivery(t, pc.found, pc.cancelled, h.engine)]))
    case Unlock =>
      Leave(h, ENGINE, if pc.task == Caller(false) then Idle else InNotify(NotifyAt.Lock, pc.task, 0, pc.list))
  }

  function Notify(h: Shared, t: Tid, pc: Pc): Move
    requires pc.InNotify?
  {
    match pc.notify
    case Lock => Take(h, t, CONSUMERS, pc.(notify := NotifyAt.Consumer))
    case Consumer =>
      if pc.index >= |h.consumers| then To(pc.(notify := NotifyAt.Unlock), h)
      else if h.consumers[pc.index] == Configuration then To(pc.(notify := LockConfig), h)
      else To(pc.(index := pc.index + 1), h)
    case LockConfig => Take(h, t, CONFIGURATION, pc.(notify := Invoke))
    case Invoke =>
      if h.cb.None? then To(pc.(notify := UnlockConfig), h)
      else
        var call := Invocation(h.cb.value, h.ctx, pc.proxies, |h.stored|, t);
        To(pc.(notify := ClearCb), h.(invoked := h.invoked + [call]))
    case ClearCb => To(pc.(notify := ClearContext), h.(cb := None))
    case ClearContext => To(pc.(notify := UnlockConfig), h.(ctx := None))
    case UnlockConfig => Leave(h, CONFIGURATION, pc.(notify := NotifyAt.Consumer, index := pc.index + 1))
    case Unlock =>
      Leave(h, CONSUMERS, if pc.pass.Worker? then InTail(TailAt.Lock, pc.pass.ticket) else Idle)
  }

  function Tail(h: Shared, t: Tid, pc: Pc): Move
    requires pc.InTail?
  {
    match pc.tail
    case Lock => Take(h, t, THREADED, pc.(tail := TailAt.Clear))
    case Clear => To(pc.(tail := TailAt.Unlock), h.(running := false, runner := None))
    case Unlock => Leave(h, THREADED, pc.(tail := Exited))
    case Exited => Blocked
  }

  function Register(h: Shared, t: Tid, pc: Pc): Move
    requires pc.InRegister?
  {
    match pc.register
    case Lock => Take(h, t, CONSUMERS, pc.(register := Apply))
    case Apply =>
      To(pc.(register := RegisterAt.Unlock),
         h.(consumers := if pc.add then Added(h.consumers, pc.c) else Removed(h.consumers, pc.c)))
    case Unlock => Leave(h, CONSUMERS, Idle)
  }

  function Destroy(h: Shared, t: Tid, pc: Pc): Move
    requires pc.InDestroy?
  {
    match pc.destroy
    case Lock => Take(h, t, THREADED, InDestroy(DestroyAt.Check))
    case Check => To(InDestroy(if h.running then Retry else DestroyAt.Unlock), h)
    case Retry => Leave(h, THREADED, InDestroy(DestroyAt.Lock))
    case Unlock => Leave(h, THREADED, InDestroy(Done))
    case Done => Blocked
  }

  function Act(h: Shared, t: Tid, pc: Pc, startUnderWay: bool, c: Choice): Move {
    match pc
    case Idle => Call(h, startUnderWay, c)
    case InStart(_, _, _, _) => Start(h, t, pc, c)
    case InDiscover(_, _, _, _, _, _) => Discover(h, t, pc, c)
    case InNotify(_, _, _, _) => Notify(h, t, pc)
    case InTail(_, _) => Tail(h, t, pc)
    case InRegister(_, _, _) => Register(h, t, pc)
    case InDestroy(_) => Destroy(h, t, pc)
  }

  /** A start that has not yet got past its check of the running flag. */
  predicate Early(pc: Pc) {
    pc.InStart? &&
    (pc.start == StartAt.Lock || pc.start == StoreCb || pc.start == StoreContext || pc.start == LockThreaded
     || pc.start == StartAt.Check)
  }

  ghost predicate StartUnderWay(s: State) {
    exists u <- s.pcs :: Early(s.pcs[u])
  }

  /** One step of thread `t` under a choice; without one it waits, or is at rest. */
  ghost predicate Step(s: State, t: Tid, c: Choice, s': State) {
    && t in s.pcs
    && match Act(s.sh, t, s.pcs[t], StartUnderWay(s), c)
       case Blocked => false
       case To(pc, sh) => s' == State(s.pcs[t := pc], sh)
       case Launching(pc, sh, w) =>
         w !in s.pcs && s' == State(s.pcs[t := pc][w := Discovery(Worker(s.pcs[t].ticket))], sh)
  }

  ghost predicate Next(s: State, s': State) {
    exists t, c :: Step(s, t, c, s')
  }

  ghost predicate Run(r: seq<State>) {
    Path(Next, r) && Init(r[0])
  }

  /** A state that some run comes to. */
  ghost predicate Reachable(s: State) {
    exists s0 :: Init(s0) && Reaches(Next, s0, s)
  }

  // ----- locks -----

  /** Which mutexes a thread owns, read off its position. */
  function LocksAt(pc: Pc): Locks {
    match pc
    case Idle => Locks(false, false, false, false)
    case InStart(at, _, _, _) => Locks(false, at != StartAt.Lock, at == StartAt.Check || at == Launch || at == UnlockThreaded, false)
    case InDiscover(at, _, _, _, _, _) => Locks(false, false, false, at != DiscoverAt.Lock)
    case InNotify(at, _, _, _) =>
      Locks(at != NotifyAt.Lock, at == Invoke || at == ClearCb || at == ClearContext || at == UnlockConfig, false, false)
    case InTail(at, _) => Locks(false, false, at == TailAt.Clear || at == TailAt.Unlock, false)
    case InRegister(at, _, _) => Locks(at != RegisterAt.Lock, false, false, false)
    case InDestroy(at) => Locks(false, false, at == DestroyAt.Check || at == Retry || at == DestroyAt.Unlock, false)
  }

  /** The mutex a thread is about to take. */
  function Wants(pc: Pc): Option<Mutex> {
    match pc
    case InStart(Lock, _, _, _) => Some(CONFIGURATION)
    case InStart(LockThreaded, _, _, _) => Some(THREADED)
    case InDiscover(Lock, _, _, _, _, _) => Some(ENGINE)
    case InNotify(Lock, _, _, _) => Some(CONSUMERS)
    case InNotify(LockConfig, _, _, _) => Some(CONFIGURATION)
    case InTail(Lock, _) => Some(THREADED)
    case InRegister(Lock, _, _) => Some(CONSUMERS)
    case InDestroy(Lock) => Some(THREADED)
    case _ => None
  }

  /** Between calls, or finished. */
  predicate AtRest(pc: Pc) {
    pc.Idle? || (pc.InTail? && pc.tail == Exited) || (pc.InDestroy? && pc.destroy == Done)
  }
}
