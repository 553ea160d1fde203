/** The invariants of the supervisor over all interleavings, and what they give for whole runs. */
module AgentSupervisorProofs {
  import opened Options
  import opened Runs
  import opened AgentSupervisor

  // ----- ownership -----

  ghost predicate Ownership(s: State) {
    && (s.sh.plugin.By? ==> s.sh.plugin.tid in s.pcs)
    && (s.sh.controller.By? ==> s.sh.controller.tid in s.pcs)
    && (forall t <- s.pcs :: HoldsPlugin(s.pcs[t]) <==> s.sh.plugin == By(t))
    && (forall t <- s.pcs :: HoldsController(s.pcs[t]) <==> s.sh.controller == By(t))
  }

  ghost function PluginOwner(s: State): Pc
    requires Ownership(s)
  {
    if s.sh.plugin.By? then s.pcs[s.sh.plugin.tid] else Idle
  }

  predicate Handover(before: Holder, after: Holder, t: Tid, had: bool, has: bool) {
    if had == has then after == before
    else if has then before == Free && after == By(t)
    else after == Free
  }

  ghost predicate HandsOver(h: Shared, t: Tid, pc: Pc, m: Move) {
    !m.Blocked? ==>
      && Handover(h.plugin, m.sh.plugin, t, HoldsPlugin(pc), HoldsPlugin(m.pc))
      && Handover(h.controller, m.sh.controller, t, HoldsController(pc), HoldsController(m.pc))
  }

  lemma StopWorkHandsOver(h: Shared, t: Tid, pc: Pc, e: bool, c: Choice)
    requires pc.InStop? && HoldsController(pc)
    ensures HandsOver(h, t, pc, Stop(h, t, pc, e, c))
  {
  }

  lemma StopEdgesHandOver(h: Shared, t: Tid, pc: Pc, e: bool, c: Choice)
    requires pc.InStop? && !HoldsController(pc)
    ensures HandsOver(h, t, pc, Stop(h, t, pc, e, c))
  {
  }

  lemma OthersHandOver(h: Shared, t: Tid, pc: Pc, e: bool, c: Choice)
    requires !pc.InStop?
    ensures HandsOver(h, t, pc, Act(h, t, pc, e, c))
  {
  }

  lemma ActHandsOver(h: Shared, t: Tid, pc: Pc, e: bool, c: Choice)
    ensures HandsOver(h, t, pc, Act(h, t, pc, e, c))
  {
    if pc.InStop? && HoldsController(pc) {
      StopWorkHandsOver(h, t, pc, e, c);
    } else if pc.InStop? {
      StopEdgesHandOver(h, t, pc, e, c);
    } else {
      OthersHandOver(h, t, pc, e, c);
    }
  }

  lemma OwnershipStep(s: State, t: Tid, c: Choice, s': State)
    requires Ownership(s) && Step(s, t, c, s')
    requires HandsOver(s.sh, t, s.pcs[t], Act(s.sh, t, s.pcs[t], MonitorExited(s), c))
    ensures Ownership(s')
  {
  }

  // ----- the monitor thread -----

  /** The joinable thread is the only monitor that can still run. */
  ghost predicate OneMonitor(s: State) {
    && (s.sh.thread.Some? ==> s.sh.thread.value in s.pcs && Monitoring(s.pcs[s.sh.thread.value]))
    && forall t <- s.pcs :: Monitoring(s.pcs[t]) && !HasExited(s.pcs[t]) ==> s.sh.thread == Some(t)
  }

  const EXITED_MONITOR := InMonitor(Exited, Invalid, false)

  /** Position of the joinable monitor; without one, that of a monitor that has exited. */
  ghost function MonitorPc(s: State): Pc
    requires OneMonitor(s)
  {
    if s.sh.thread.Some? then s.pcs[s.sh.thread.value] else EXITED_MONITOR
  }

  // ----- what the fields are -----

  /** Stop has found or made the controller's flag false and has not yet cleared the plugin's. */
  predicate Cleared(x: Pc) {
    x.InStop? &&
    (x.stop == CloseStdin || x.stop == TestProcess || x.stop == Wait || x.stop == Terminate || x.stop == CloseProcess
     || x.stop == StopAt.UnlockController || x.stop == Join || x.stop == ClearStarted)
  }

  /** The fields m_mtxAgentCtrl protects, while its owner is at `x`. */
  ghost predicate PluginHolds(h: Shared, x: Pc) {
    match x
    case InStart(Kill) => !h.started && !h.startedByPlugin && h.thread.None?
    case InLaunch(Starter, _) => !h.started && !h.startedByPlugin && h.thread.None?
    case InStart(SetFlag) => !h.started && !h.startedByPlugin && h.thread.None?
    case InStart(SpawnMonitor) => !h.started && h.thread.None?
    case InStart(SetStarted) => !h.started && h.thread.Some?
    case InStop(LockController, _) => h.started && h.thread.Some?
    case InStop(TestFlag, _) => h.started && h.thread.Some?
    case InStop(ClearStarted, ok) => h.started && h.thread.None? && !h.startedByPlugin && ok
    case InStop(Unlock, ok) =>
      (h.started <==> h.thread.Some?) && (!h.started ==> !h.startedByPlugin) && (ok ==> !h.started)
    case InStop(Check, ok) => (h.started <==> h.thread.Some?) && (!h.started ==> !h.startedByPlugin) && !ok
    case InStop(_, _) =>
      if Cleared(x) then h.started && h.thread.Some? && !h.startedByPlugin && (x.stop == Join ==> x.ok)
      else (h.started <==> h.thread.Some?) && (!h.started ==> !h.startedByPlugin)
    case _ => (h.started <==> h.thread.Some?) && (!h.started ==> !h.startedByPlugin)
  }

  /**
   * At most the process whose handle is kept is alive, and a Stop that waits has one to wait for;
   * none is alive before a launch, nor once the monitor is joined.
   */
  ghost predicate AliveHolds(h: Shared, x: Pc) {
    && (forall p <- h.alive :: h.process == Process(p))
    && (h.thread.None? && x != InStart(SetFlag) && x != InStart(SpawnMonitor) ==> h.alive == {})
    && (x.InStop? && x.stop == CloseProcess ==> h.alive == {})
    && (x.InStop? && (x.stop == Wait || x.stop == Terminate || x.stop == CloseProcess) ==> h.process != Invalid)
  }

  /** The child's input is closed by the Stop that clears the flag, and by a start that fails. */
  predicate StdinHolds(h: Shared, x: Pc) {
    || h.startedByPlugin || h.stdinWr == Invalid
    || (x.InLaunch? && (x.launch == Setup || x.launch == Create || x.launch == Cleanup)) || x == InStart(SetFlag)
    || (x.InStop? && x.stop == CloseStdin)
  }

  /** What the monitor at `x` knows: the process it saw end was the last one alive. */
  ghost predicate MonitorHolds(h: Shared, x: Pc) {
    match x
    case InMonitor(ReadHandle, _, _) => true
    case InMonitor(Waiting, waited, _) => !waited.PipeEnd? && (waited == h.process || h.alive == {})
    case InMonitor(UnlockController, _, leaving) => leaving ==> h.alive == {}
    case InMonitor(_, _, _) => h.alive == {}
    case InLaunch(Monitor, _) => h.alive == {} && h.startedByPlugin
    case _ => true
  }

  /** While the flag is set the monitor stays in its loop, and the handle it waits on is the one that is kept. */
  predicate Awake(h: Shared, x: Pc) {
    h.startedByPlugin && x.InMonitor? ==>
      x.monitor != Exited && !x.leaving && (x.monitor == MonitorAt.Waiting ==> x.waited == h.process)
  }

  ghost predicate Distinct(handles: seq<Handle>) {
    forall i, j | 0 <= i < j < |handles| :: handles[i] != handles[j]
  }

  lemma CloseOnce(closed: seq<Handle>, handle: Handle)
    requires Distinct(closed) && handle !in closed && Invalid !in closed
    ensures Distinct(Close(closed, handle)) && Invalid !in Close(closed, handle)
    ensures forall k :: k in Close(closed, handle) <==> k in closed || (k == handle && handle != Invalid)
  {
  }

  ghost predicate Numbered(h: Shared, handle: Handle) {
    (handle.PipeEnd? ==> handle.n < h.pipes) && (handle.Process? ==> handle.n < h.launches)
  }

  /** The handles kept in the fields are open, and no handle was closed twice. */
  ghost predicate HandlesHold(h: Shared) {
    && h.stdinWr !in h.closed && h.process !in h.closed && Invalid !in h.closed
    && !h.stdinWr.Process? && !h.process.PipeEnd?
    && Numbered(h, h.stdinWr) && Numbered(h, h.process)
    && (forall k <- h.closed :: Numbered(h, k))
    && Distinct(h.closed)
    && (forall p <- h.alive :: p < h.launches)
  }

  ghost predicate Facts(h: Shared, x: Pc, m: Pc) {
    PluginHolds(h, x) && AliveHolds(h, x) && StdinHolds(h, x) && (h.thread.Some? ==> MonitorHolds(h, m) && Awake(h, m))
  }

  /** The owner of m_mtxAgentCtrl around a step of a thread at `pc`; `x` when the step does not concern it. */
  function Before(pc: Pc, pc': Pc, x: Pc): Pc {
    if HoldsPlugin(pc) then pc else if HoldsPlugin(pc') then Idle else x
  }

  function After(pc: Pc, pc': Pc, x: Pc): Pc {
    if HoldsPlugin(pc') then pc' else if HoldsPlugin(pc) then Idle else x
  }

  /** The joinable monitor after a step of another thread. */
  function MonitorAfter(m: Move, monitor: Pc): Pc
    requires !m.Blocked?
  {
    if m.Spawning? then NEW_MONITOR else if m.sh.thread.None? then EXITED_MONITOR else monitor
  }

  lemma StartedKeeps(h: Shared, t: Tid, pc: Pc, c: Choice, monitor: Pc)
    requires pc.InStart? && (pc.start == SetFlag || pc.start == SpawnMonitor || pc.start == SetStarted)
    requires Facts(h, pc, monitor) && !Start(h, t, pc, c).Blocked?
    ensures var m := Start(h, t, pc, c); HoldsPlugin(m.pc) && Facts(m.sh, m.pc, MonitorAfter(m, monitor))
  {
  }

  lemma StartingKeeps(h: Shared, t: Tid, pc: Pc, c: Choice, x: Pc, monitor: Pc)
    requires pc.InStart? && !(pc.start == SetFlag || pc.start == SpawnMonitor || pc.start == SetStarted)
    requires !Start(h, t, pc, c).Blocked?
    requires Facts(h, Before(pc, Start(h, t, pc, c).pc, x), monitor)
    ensures var m := Start(h, t, pc, c); Facts(m.sh, After(pc, m.pc, x), MonitorAfter(m, monitor))
  {
  }

  lemma StartKeeps(h: Shared, t: Tid, pc: Pc, c: Choice, x: Pc, monitor: Pc)
    requires pc.InStart? && !Start(h, t, pc, c).Blocked?
    requires Facts(h, Before(pc, Start(h, t, pc, c).pc, x), monitor)
    ensures var m := Start(h, t, pc, c); Facts(m.sh, After(pc, m.pc, x), MonitorAfter(m, monitor))
  {
    if pc.start == SetFlag || pc.start == SpawnMonitor || pc.start == SetStarted {
      StartedKeeps(h, t, pc, c, monitor);
    } else {
      StartingKeeps(h, t, pc, c, x, monitor);
    }
  }

  lemma LaunchKeeps(h: Shared, pc: Pc, c: Choice, monitor: Pc)
    requires pc.InLaunch? && pc.launcher == Starter
    requires Facts(h, pc, monitor)
    ensures var m := Launch(h, pc, c); m.To? && Facts(m.sh, m.pc, MonitorAfter(m, monitor))
  {
  }

  lemma StopWorkKeeps(h: Shared, t: Tid, pc: Pc, e: bool, c: Choice, monitor: Pc)
    requires pc.InStop? && HoldsController(pc) && !Stop(h, t, pc, e, c).Blocked?
    requires Facts(h, pc, monitor) && !HoldsController(monitor)
    ensures var m := Stop(h, t, pc, e, c); HoldsPlugin(m.pc) && Facts(m.sh, m.pc, MonitorAfter(m, monitor))
  {
  }

  lemma JoinKeeps(h: Shared, t: Tid, pc: Pc, e: bool, c: Choice, monitor: Pc)
    requires pc.InStop? && (pc.stop == Join || pc.stop == ClearStarted) && !Stop(h, t, pc, e, c).Blocked?
    requires Facts(h, pc, monitor)
    requires e ==> h.thread.Some? && HasExited(monitor)
    ensures var m := Stop(h, t, pc, e, c); HoldsPlugin(m.pc) && Facts(m.sh, m.pc, MonitorAfter(m, monitor))
  {
  }

  lemma StopEdgesKeep(h: Shared, t: Tid, pc: Pc, e: bool, c: Choice, x: Pc, monitor: Pc)
    requires pc.InStop? && !HoldsController(pc) && pc.stop != Join && pc.stop != ClearStarted
    requires !Stop(h, t, pc, e, c).Blocked?
    requires Facts(h, Before(pc, Stop(h, t, pc, e, c).pc, x), monitor)
    ensures var m := Stop(h, t, pc, e, c); Facts(m.sh, After(pc, m.pc, x), MonitorAfter(m, monitor))
  {
  }

  lemma RelaunchKeeps(h: Shared, pc: Pc, c: Choice, x: Pc)
    requires pc.InLaunch? && pc.launcher == Monitor && Facts(h, x, pc) && h.thread.Some? && !HoldsController(x)
    ensures var m := Launch(h, pc, c);
      m.To? && Monitoring(m.pc) && m.sh.thread == h.thread && Facts(m.sh, x, m.pc)
  {
  }

  lemma WatchKeeps(h: Shared, t: Tid, pc: Pc, c: Choice, x: Pc)
    requires pc.InMonitor? && !Watch(h, t, pc, c).Blocked?
    requires Facts(h, x, pc) && HandlesHold(h) && h.thread.Some?
    ensures var m := Watch(h, t, pc, c);
      m.To? && Monitoring(m.pc) && m.sh.thread == h.thread && Facts(m.sh, x, m.pc)
  {
  }

  lemma MonitorKeeps(h: Shared, t: Tid, pc: Pc, e: bool, c: Choice, x: Pc)
    requires Monitoring(pc) && !Act(h, t, pc, e, c).Blocked?
    requires Facts(h, x, pc) && HandlesHold(h) && h.thread.Some?
    requires !(HoldsController(pc) && HoldsController(x))
    ensures var m := Act(h, t, pc, e, c); m.To? && Monitoring(m.pc) && m.sh.thread == h.thread && Facts(m.sh, x, m.pc)
  {
    if pc.InLaunch? {
      RelaunchKeeps(h, pc, c, x);
    } else {
      WatchKeeps(h, t, pc, c, x);
    }
  }

  lemma LaunchKeepsHandles(h: Shared, pc: Pc, c: Choice)
    requires pc.InLaunch? && HandlesHold(h)
    ensures HandlesHold(Launch(h, pc, c).sh)
  {
    if pc.launch == Cleanup {
      CloseOnce(h.closed, h.stdinWr);
      CloseOnce(Close(h.closed, h.stdinWr), h.process);
    }
  }

  lemma FewerAlive(h: Shared, h': Shared)
    requires HandlesHold(h) && h'.alive <= h.alive
    requires (h'.stdinWr, h'.process, h'.closed, h'.pipes, h'.launches) ==
             (h.stdinWr, h.process, h.closed, h.pipes, h.launches)
    ensures HandlesHold(h')
  {
  }

  lemma StopClosesOnce(h: Shared, t: Tid, pc: Pc, e: bool, c: Choice)
    requires pc.InStop? && (pc.stop == CloseStdin || pc.stop == CloseProcess) && HandlesHold(h)
    ensures var m := Stop(h, t, pc, e, c); m.To? && HandlesHold(m.sh)
  {
    CloseOnce(h.closed, h.stdinWr);
    CloseOnce(h.closed, h.process);
  }

  lemma StopKeepsHandles(h: Shared, t: Tid, pc: Pc, e: bool, c: Choice)
    requires pc.InStop? && HandlesHold(h) && !Stop(h, t, pc, e, c).Blocked?
    ensures HandlesHold(Stop(h, t, pc, e, c).sh)
  {
    if pc.stop == CloseStdin || pc.stop == CloseProcess {
      StopClosesOnce(h, t, pc, e, c);
    } else {
      FewerAlive(h, Stop(h, t, pc, e, c).sh);
    }
  }

  lemma OthersKeepHandles(h: Shared, t: Tid, pc: Pc, e: bool, c: Choice)
    requires !pc.InLaunch? && !pc.InStop? && !Act(h, t, pc, e, c).Blocked?
    ensures var m := Act(h, t, pc, e, c);
      (m.sh.stdinWr, m.sh.process, m.sh.closed, m.sh.pipes, m.sh.launches, m.sh.alive) ==
      (h.stdinWr, h.process, h.closed, h.pipes, h.launches, h.alive)
  {
  }

  ghost predicate Inv(s: State) {
    && Ownership(s) && OneMonitor(s) && HandlesHold(s.sh)
    && Facts(s.sh, PluginOwner(s), MonitorPc(s))
  }

  lemma HandlesStep(s: State, t: Tid, c: Choice, s': State)
    requires HandlesHold(s.sh) && Step(s, t, c, s')
    ensures HandlesHold(s'.sh)
  {
    if s.pcs[t].InLaunch? {
      LaunchKeepsHandles(s.sh, s.pcs[t], c);
    } else if s.pcs[t].InStop? {
      StopKeepsHandles(s.sh, t, s.pcs[t], MonitorExited(s), c);
    } else {
      OthersKeepHandles(s.sh, t, s.pcs[t], MonitorExited(s), c);
    }
  }

  lemma MonitorOwnsNoPlugin(h: Shared, t: Tid, pc: Pc, e: bool, c: Choice)
    requires Monitoring(pc) && !Act(h, t, pc, e, c).Blocked?
    ensures var m := Act(h, t, pc, e, c);
      m.To? && !HoldsPlugin(pc) && Monitoring(m.pc) && m.sh.thread == h.thread && m.sh.plugin == h.plugin
  {
  }

  /** The monitor's own step leaves the owner of the plugin's mutex where it is. */
  lemma MonitorMoves(s: State, t: Tid, c: Choice, s': State)
    requires Ownership(s) && OneMonitor(s) && Step(s, t, c, s') && Ownership(s')
    requires Monitoring(s.pcs[t]) && s.sh.thread == Some(t)
    ensures OneMonitor(s') && MonitorPc(s') == s'.pcs[t] && PluginOwner(s') == PluginOwner(s)
  {
    MonitorOwnsNoPlugin(s.sh, t, s.pcs[t], MonitorExited(s), c);
  }

  /** A step of the monitor itself. */
  lemma MonitorStep(s: State, t: Tid, c: Choice, s': State)
    requires Inv(s) && Step(s, t, c, s') && Ownership(s')
    requires Monitoring(s.pcs[t])
    ensures OneMonitor(s') && Facts(s'.sh, PluginOwner(s'), MonitorPc(s'))
  {
    var x := PluginOwner(s);
    assert s.sh.thread == Some(t);
    MonitorKeeps(s.sh, t, s.pcs[t], MonitorExited(s), c, x);
    MonitorMoves(s, t, c, s');
  }

  lemma ClientKeeps(h: Shared, t: Tid, pc: Pc, e: bool, c: Choice, x: Pc, monitor: Pc)
    requires !Monitoring(pc) && !Act(h, t, pc, e, c).Blocked?
    requires Facts(h, Before(pc, Act(h, t, pc, e, c).pc, x), monitor)
    requires e ==> h.thread.Some? && HasExited(monitor)
    requires !(HoldsController(pc) && HoldsController(monitor))
    ensures var m := Act(h, t, pc, e, c); Facts(m.sh, After(pc, m.pc, x), MonitorAfter(m, monitor))
  {
    match pc
    case InStart(_) => StartKeeps(h, t, pc, c, x, monitor);
    case InLaunch(_, _) => LaunchKeeps(h, pc, c, monitor);
    case InStop(_, _) =>
      if HoldsController(pc) {
        StopWorkKeeps(h, t, pc, e, c, monitor);
      } else if pc.stop == Join || pc.stop == ClearStarted {
        JoinKeeps(h, t, pc, e, c, monitor);
      } else {
        StopEdgesKeep(h, t, pc, e, c, x, monitor);
      }
    case _ =>
  }

  /** A client step leaves the monitor's place alone, creates it where there was none, or drops an exited one. */
  lemma ClientThread(h: Shared, t: Tid, pc: Pc, e: bool, c: Choice, x: Pc)
    requires !Monitoring(pc) && !Act(h, t, pc, e, c).Blocked?
    requires HoldsPlugin(pc) ==> PluginHolds(h, pc)
    ensures var m := Act(h, t, pc, e, c);
      && !Monitoring(m.pc)
      && (m.Spawning? ==> h.thread.None? && m.sh.thread == Some(m.child))
      && (m.To? ==> m.sh.thread == h.thread || (m.sh.thread.None? && e))
  {
  }

  lemma ClientKeepsMonitor(s: State, t: Tid, c: Choice, s': State)
    requires Inv(s) && Step(s, t, c, s')
    requires !Monitoring(s.pcs[t])
    ensures OneMonitor(s')
    ensures var m := Act(s.sh, t, s.pcs[t], MonitorExited(s), c); MonitorPc(s') == MonitorAfter(m, MonitorPc(s))
  {
    ClientThread(s.sh, t, s.pcs[t], MonitorExited(s), c, PluginOwner(s));
  }

  lemma ClientMovesOwner(s: State, t: Tid, c: Choice, s': State)
    requires Ownership(s) && Step(s, t, c, s') && Ownership(s')
    requires HandsOver(s.sh, t, s.pcs[t], Act(s.sh, t, s.pcs[t], MonitorExited(s), c))
    ensures PluginOwner(s) == Before(s.pcs[t], s'.pcs[t], PluginOwner(s))
    ensures PluginOwner(s') == After(s.pcs[t], s'.pcs[t], PluginOwner(s))
  {
  }

  /** A step of a client thread. */
  lemma ClientStep(s: State, t: Tid, c: Choice, s': State)
    requires Inv(s) && Step(s, t, c, s') && Ownership(s')
    requires HandsOver(s.sh, t, s.pcs[t], Act(s.sh, t, s.pcs[t], MonitorExited(s), c))
    requires !Monitoring(s.pcs[t])
    ensures OneMonitor(s') && Facts(s'.sh, PluginOwner(s'), MonitorPc(s'))
  {
    ClientKeepsMonitor(s, t, c, s');
    ClientMovesOwner(s, t, c, s');
    ClientKeeps(s.sh, t, s.pcs[t], MonitorExited(s), c, PluginOwner(s), MonitorPc(s));
  }

  lemma InvStep(s: State, t: Tid, c: Choice, s': State)
    requires Inv(s) && Step(s, t, c, s')
    ensures Inv(s')
  {
    ActHandsOver(s.sh, t, s.pcs[t], MonitorExited(s), c);
    OwnershipStep(s, t, c, s');
    HandlesStep(s, t, c, s');
    if Monitoring(s.pcs[t]) {
      MonitorStep(s, t, c, s');
    } else {
      ClientStep(s, t, c, s');
    }
  }

  lemma InvDies(s: State, p: nat, s': State)
    requires Inv(s) && Dies(s, p, s')
    ensures Inv(s')
  {
  }

  lemma InvNext(s: State, s': State)
    requires Inv(s) && Next(s, s')
    ensures Inv(s')
  {
    if t, c :| Step(s, t, c, s') {
      InvStep(s, t, c, s');
    } else {
      var p :| Dies(s, p, s');
      InvDies(s, p, s');
    }
  }

  lemma {:induction false} InvAlongRun(r: seq<State>, i: nat)
    requires Run(r) && i < |r|
    ensures Inv(r[i])
  {
    if i > 0 {
      InvAlongRun(r, i - 1);
      assert Link(Next, r, i - 1);
      InvNext(r[i - 1], r[i]);
    }
  }

  // ----- what the invariant gives -----

  /** At most one child launched by the controller is alive, and it is the one whose handle is kept. */
  lemma AtMostOneChild(r: seq<State>, i: nat)
    requires Run(r) && i < |r|
    ensures forall p <- r[i].sh.alive :: r[i].sh.process == Process(p)
    ensures |r[i].sh.alive| <= 1
  {
    InvAlongRun(r, i);
    var h := r[i].sh;
    if h.alive != {} {
      var p :| p in h.alive;
      assert h.alive == {p};
    }
  }

  /** When Stop returns OK, the monitor has been joined, every monitor has exited and no launched child is alive. */
  lemma StopReturnsClean(r: seq<State>, i: nat, t: Tid)
    requires Run(r) && i < |r| && t in r[i].pcs && r[i].pcs[t] == InStop(StopAt.Unlock, true)
    ensures var h := r[i].sh;
      !h.started && !h.startedByPlugin && h.thread.None? && h.alive == {} && h.stdinWr == Invalid
    ensures forall u <- r[i].pcs :: Monitoring(r[i].pcs[u]) ==> HasExited(r[i].pcs[u])
  {
    InvAlongRun(r, i);
    assert HoldsPlugin(r[i].pcs[t]);
  }

  /**
   * Plugin and controller agree: with the plugin's mutex free its flag holds exactly when a monitor is joinable,
   * and a monitor thread is only ever stored where there is none.
   */
  lemma PluginCoupling(r: seq<State>, i: nat)
    requires Run(r) && i < |r|
    ensures r[i].sh.plugin == Free ==> (r[i].sh.started <==> r[i].sh.thread.Some?)
    ensures forall t <- r[i].pcs :: r[i].pcs[t] == InStart(SpawnMonitor) ==> r[i].sh.thread.None?
  {
    InvAlongRun(r, i);
    forall t <- r[i].pcs | r[i].pcs[t] == InStart(SpawnMonitor) ensures r[i].sh.thread.None? {
      assert HoldsPlugin(r[i].pcs[t]);
    }
  }

  /** No handle is closed twice, and none that the controller still keeps has been closed. */
  lemma NoHandleClosedTwice(r: seq<State>, i: nat)
    requires Run(r) && i < |r|
    ensures Distinct(r[i].sh.closed) && Invalid !in r[i].sh.closed
    ensures r[i].sh.stdinWr !in r[i].sh.closed && r[i].sh.process !in r[i].sh.closed
  {
    InvAlongRun(r, i);
  }

  // ----- no launch once the flag is cleared -----

  lemma OnlyLaunchesLaunch(h: Shared, t: Tid, pc: Pc, e: bool, c: Choice)
    requires !pc.InLaunch?
    ensures var m := Act(h, t, pc, e, c); !m.Blocked? ==> m.sh.launches == h.launches
  {
  }

  /** The child of one launch: the next number, alive, its handle kept. */
  ghost predicate OneChildMore(h: Shared, h': Shared) {
    h'.launches == h.launches + 1 && h'.process == Process(h.launches) && h'.alive == h.alive + {h.launches}
  }

  lemma LaunchMakesOne(h: Shared, pc: Pc, c: Choice)
    requires pc.InLaunch? && Launch(h, pc, c).sh.launches != h.launches
    ensures pc.launch == Create && OneChildMore(h, Launch(h, pc, c).sh)
  {
  }

  /** The step is one of thread `t`. */
  ghost predicate MoveOf(s: State, t: Tid, s': State) {
    exists c :: Step(s, t, c, s')
  }

  /** The mover of a step that launches is at CreateProcess, either for Start or for its monitor. */
  lemma LaunchNeedsPlace(s: State, s': State) returns (t: Tid)
    requires Inv(s) && Next(s, s') && s'.sh.launches != s.sh.launches
    ensures t in s.pcs && s.pcs[t].InLaunch? && s.pcs[t].launch == Create && MoveOf(s, t, s')
    ensures OneChildMore(s.sh, s'.sh)
  {
    var u, c :| Step(s, u, c, s');
    t := u;
    if s.pcs[u].InLaunch? {
      LaunchMakesOne(s.sh, s.pcs[u], c);
    } else {
      OnlyLaunchesLaunch(s.sh, u, s.pcs[u], MonitorExited(s), c);
    }
  }

  /** A thread that may launch: a start of a stopped plugin, or the joinable monitor while the flag is set. */
  ghost predicate MayLaunch(s: State, t: Tid) {
    && t in s.pcs && s.pcs[t].InLaunch? && s.pcs[t].launch == Create
    && match s.pcs[t].launcher
       case Starter => s.sh.plugin == By(t) && !s.sh.started && !s.sh.startedByPlugin && s.sh.thread.None?
       case Monitor => s.sh.controller == By(t) && s.sh.startedByPlugin && s.sh.thread == Some(t)
  }

  /** A child is launched only when none is alive, and only by a start of a stopped plugin or by the monitor. */
  lemma LaunchesOnlyWhen(r: seq<State>, i: nat) returns (t: Tid)
    requires Run(r) && i + 1 < |r| && r[i + 1].sh.launches != r[i].sh.launches
    ensures r[i].sh.alive == {} && MayLaunch(r[i], t) && MoveOf(r[i], t, r[i + 1])
    ensures OneChildMore(r[i].sh, r[i + 1].sh)
  {
    InvAlongRun(r, i);
    assert Link(Next, r, i);
    t := LaunchNeedsPlace(r[i], r[i + 1]);
    assert HoldsPlugin(r[i].pcs[t]) || Monitoring(r[i].pcs[t]);
  }

  predicate Starting(pc: Pc) {
    (pc.InStart? && (pc.start == Kill || pc.start == SetFlag)) || (pc.InLaunch? && pc.launcher == Starter)
  }

  /** The flag is clear and no start is past its check and before the flag: nobody is on the way to a launch. */
  ghost predicate Quiet(s: State) {
    !s.sh.startedByPlugin && forall t <- s.pcs :: !Starting(s.pcs[t])
  }

  lemma ClearedIsQuiet(s: State, t: Tid)
    requires Inv(s) && t in s.pcs && Cleared(s.pcs[t])
    ensures Quiet(s)
  {
    assert HoldsPlugin(s.pcs[t]) && PluginOwner(s) == s.pcs[t];
    forall u <- s.pcs ensures !Starting(s.pcs[u]) {
      assert HoldsPlugin(s.pcs[u]) <==> s.sh.plugin == By(u);
    }
  }

  lemma ActKeepsQuiet(h: Shared, t: Tid, pc: Pc, e: bool, c: Choice)
    requires !h.startedByPlugin && !Starting(pc) && !Act(h, t, pc, e, c).Blocked?
    requires pc.InLaunch? ==> h.startedByPlugin
    ensures var m := Act(h, t, pc, e, c);
      && m.sh.launches == h.launches && !m.sh.startedByPlugin
      && (Starting(m.pc) ==> m.pc == InStart(Kill))
  {
  }

  ghost predicate NobodyStarts(s: State) {
    forall t <- s.pcs :: s.pcs[t] != InStart(Kill)
  }

  lemma QuietStep(s: State, t: Tid, c: Choice, s': State)
    requires Inv(s) && Quiet(s) && Step(s, t, c, s') && NobodyStarts(s')
    ensures Quiet(s') && s'.sh.launches == s.sh.launches
  {
    assert !s.pcs[t].InLaunch?;
    ActKeepsQuiet(s.sh, t, s.pcs[t], MonitorExited(s), c);
    assert s'.pcs[t] != InStart(Kill);
  }

  lemma QuietNext(s: State, s': State)
    requires Inv(s) && Quiet(s) && Next(s, s') && NobodyStarts(s')
    ensures Quiet(s') && s'.sh.launches == s.sh.launches
  {
    if t, c :| Step(s, t, c, s') {
      QuietStep(s, t, c, s');
    }
  }

  ghost predicate NobodyStartsDuring(r: seq<State>, a: nat, b: nat)
    requires b < |r|
  {
    forall i | a <= i <= b :: NobodyStarts(r[i])
  }

  lemma QuietLink(r: seq<State>, i: nat)
    requires Run(r) && i + 1 < |r| && Quiet(r[i]) && NobodyStarts(r[i + 1])
    ensures Quiet(r[i + 1]) && r[i + 1].sh.launches == r[i].sh.launches
  {
    InvAlongRun(r, i);
    assert Link(Next, r, i);
    QuietNext(r[i], r[i + 1]);
  }

  lemma {:induction false} QuietAlongRun(r: seq<State>, a: nat, b: nat)
    requires Run(r) && a <= b < |r| && Quiet(r[a]) && NobodyStartsDuring(r, a, b)
    ensures Quiet(r[b]) && r[b].sh.launches == r[a].sh.launches
    decreases b
  {
    if a < b {
      QuietAlongRun(r, a, b - 1);
      assert NobodyStarts(r[b]);
      QuietLink(r, b - 1);
    }
  }

  /**
   * From the moment Stop's critical section has cleared the flag no child is launched, not even when that Stop fails
   * and leaves its monitor running, until a later start gets past its check.
   */
  lemma NoLaunchAfterClear(r: seq<State>, a: nat, b: nat, t: Tid)
    requires Run(r) && a <= b < |r| && t in r[a].pcs && Cleared(r[a].pcs[t])
    requires NobodyStartsDuring(r, a, b)
    ensures r[b].sh.launches == r[a].sh.launches && !r[b].sh.startedByPlugin
  {
    InvAlongRun(r, a);
    ClearedIsQuiet(r[a], t);
    QuietAlongRun(r, a, b);
  }

  // ----- progress -----

  predicate WantsPlugin(pc: Pc) {
    (pc.InStart? && pc.start == StartAt.Lock) || (pc.InStop? && pc.stop == StopAt.Lock)
  }

  predicate WantsController(pc: Pc) {
    (pc.InStop? && pc.stop == StopAt.LockController) || (pc.InMonitor? && pc.monitor == MonitorAt.LockController)
  }

  predicate Joining(pc: Pc) {
    pc.InStop? && pc.stop == Join
  }

  /** Whether a thread waits for another thread to do something. */
  ghost predicate Waiting(s: State, t: Tid)
    requires t in s.pcs
  {
    || (WantsPlugin(s.pcs[t]) && s.sh.plugin.By?)
    || (WantsController(s.pcs[t]) && s.sh.controller.By?)
    || (Joining(s.pcs[t]) && s.sh.thread.Some? && !MonitorExited(s))
  }

  ghost function WaitsFor(s: State, t: Tid): (u: Tid)
    requires Ownership(s) && OneMonitor(s) && t in s.pcs && Waiting(s, t)
    ensures u in s.pcs
  {
    if WantsPlugin(s.pcs[t]) then s.sh.plugin.tid
    else if WantsController(s.pcs[t]) then s.sh.controller.tid
    else s.sh.thread.value
  }

  /** Plugin before join before controller. */
  function Level(pc: Pc): nat {
    if WantsPlugin(pc) then 3 else if Joining(pc) then 2 else if WantsController(pc) then 1 else 0
  }

  predicate AtRest(pc: Pc) {
    pc.Idle? || HasExited(pc)
  }

  /** Stop never joins while it holds the mutex the monitor needs: waiting always leads down. */
  lemma WaitsDownwards(s: State, t: Tid)
    requires Ownership(s) && OneMonitor(s) && t in s.pcs && Waiting(s, t)
    ensures var u := WaitsFor(s, t); Level(s.pcs[u]) < Level(s.pcs[t]) && !AtRest(s.pcs[u])
    ensures Joining(s.pcs[t]) ==> !HoldsController(s.pcs[t])
  {
    var u := WaitsFor(s, t);
    assert HoldsPlugin(s.pcs[u]) <==> s.sh.plugin == By(u);
    assert HoldsController(s.pcs[u]) <==> s.sh.controller == By(u);
  }

  ghost function Root(s: State, t: Tid): (u: Tid)
    requires Ownership(s) && OneMonitor(s) && t in s.pcs
    ensures u in s.pcs && !Waiting(s, u)
    ensures !AtRest(s.pcs[t]) ==> !AtRest(s.pcs[u])
    decreases Level(s.pcs[t])
  {
    if Waiting(s, t) then
      WaitsDownwards(s, t);
      Root(s, WaitsFor(s, t))
    else t
  }

  lemma FreshTid(tids: set<Tid>) returns (t: Tid)
    ensures forall u <- tids :: u < t
  {
    t := 0;
    if tids != {} {
      var u :| u in tids;
      var rest := FreshTid(tids - {u});
      t := if rest > u then rest else u + 1;
      assert tids == (tids - {u}) + {u};
    }
  }

  /** A monitor whose wait does not return now: its process is alive, or it waits on no process at all. */
  ghost predicate Watching(h: Shared, pc: Pc) {
    && pc.InMonitor? && pc.monitor == MonitorAt.Waiting
    && (pc.waited == Invalid || (pc.waited.Process? && pc.waited.n in h.alive))
  }

  /** What a thread may do next, whatever the others do. */
  ghost function Choosing(h: Shared, pc: Pc, newTid: Tid): Choice {
    if pc == InStart(SpawnMonitor) then Spawn(newTid)
    else if pc.InMonitor? && pc.monitor == MonitorAt.Waiting && pc.waited !in h.closed then Succeeds
    else Fails
  }

  lemma ReadySteps(s: State, t: Tid)
    requires t in s.pcs && !AtRest(s.pcs[t]) && !Waiting(s, t) && !Watching(s.sh, s.pcs[t])
    requires s.pcs[t].InMonitor? && s.pcs[t].monitor == MonitorAt.Waiting ==> !s.pcs[t].waited.PipeEnd?
    ensures exists c, s' :: Step(s, t, c, s')
  {
    var pc := s.pcs[t];
    var w := FreshTid(s.pcs.Keys);
    var c := Choosing(s.sh, pc, w);
    var m := Act(s.sh, t, pc, MonitorExited(s), c);
    assert !m.Blocked?;
    if m.To? {
      assert Step(s, t, c, State(s.pcs[t := m.pc], m.sh));
    } else {
      assert Step(s, t, c, State(s.pcs[t := m.pc][w := NEW_MONITOR], m.sh));
    }
  }

  lemma WatchedIsProcess(s: State, t: Tid)
    requires Inv(s) && t in s.pcs && s.pcs[t].InMonitor? && s.pcs[t].monitor == MonitorAt.Waiting
    ensures s.sh.thread == Some(t) && !s.pcs[t].waited.PipeEnd?
  {
  }

  /**
   * No deadlock among the locks and the join: in every reachable state each thread in the middle of a call leads to
   * a thread that can step, or to the joinable monitor whose wait does not return now: on a live child, or on an
   * invalid handle.
   */
  lemma DeadlockFree(r: seq<State>, i: nat, t: Tid)
    requires Run(r) && i < |r| && t in r[i].pcs && !AtRest(r[i].pcs[t])
    ensures Ownership(r[i]) && OneMonitor(r[i])
    ensures var u := Root(r[i], t);
      || (exists c, s' :: Step(r[i], u, c, s'))
      || (Watching(r[i].sh, r[i].pcs[u]) && r[i].sh.thread == Some(u))
  {
    InvAlongRun(r, i);
    var u := Root(r[i], t);
    if r[i].pcs[u].InMonitor? && r[i].pcs[u].monitor == MonitorAt.Waiting {
      WatchedIsProcess(r[i], u);
    }
    if !Watching(r[i].sh, r[i].pcs[u]) {
      ReadySteps(r[i], u);
    }
  }

  // ----- when Stop's join returns -----

  /** The monitor waits on no process, or is about to: nothing that happens to children will release it. */
  predicate Doomed(h: Shared, pc: Pc) {
    pc.InMonitor? &&
    ((pc.monitor == MonitorAt.Waiting && pc.waited == Invalid)
     || (h.process == Invalid &&
         (pc.monitor == ReadHandle || (pc.monitor == MonitorAt.UnlockController && !pc.leaving))))
  }

  /** Steps the monitor has before it, once nobody restarts the child. */
  function StepsLeft(pc: Pc): nat {
    if !pc.InMonitor? then 0
    else
      match pc.monitor
      case UnlockController => if pc.leaving then 1 else 6
      case ReadHandle => 5
      case Waiting => 4
      case LockController => 3
      case TestFlag => 2
      case Exited => 0
  }

  /** A Stop is at its join, and what it joins. */
  ghost predicate JoinsMonitor(s: State, t: Tid, w: Tid) {
    t in s.pcs && Joining(s.pcs[t]) && s.sh.thread == Some(w)
  }

  lemma WatchLeads(h: Shared, t: Tid, pc: Pc, c: Choice)
    requires pc.InMonitor? && !Watch(h, t, pc, c).Blocked? && !h.startedByPlugin && Invalid !in h.closed
    ensures var m := Watch(h, t, pc, c);
      m.To? && m.pc.InMonitor? && StepsLeft(m.pc) < StepsLeft(pc)
      && m.sh.process == h.process && (Doomed(m.sh, m.pc) <==> Doomed(h, pc))
  {
  }

  /** A client without the plugin's mutex neither joins nor touches the process handle. */
  lemma OutsiderKeeps(h: Shared, t: Tid, pc: Pc, e: bool, c: Choice)
    requires !Monitoring(pc) && !HoldsPlugin(pc) && !Act(h, t, pc, e, c).Blocked?
    ensures var m := Act(h, t, pc, e, c); m.To? && m.sh.process == h.process && m.sh.thread == h.thread
  {
  }

  /** While Stop joins, the monitor alone moves, towards its end, and whether it is doomed is settled. */
  lemma JoinStep(s: State, u: Tid, c: Choice, s': State, t: Tid, w: Tid)
    requires Inv(s) && Step(s, u, c, s') && JoinsMonitor(s, t, w) && JoinsMonitor(s', t, w)
    ensures w in s.pcs && w in s'.pcs && s.pcs[w].InMonitor? && s'.pcs[w].InMonitor?
    ensures Doomed(s'.sh, s'.pcs[w]) <==> Doomed(s.sh, s.pcs[w])
    ensures if u == w then StepsLeft(s'.pcs[w]) < StepsLeft(s.pcs[w]) else s'.pcs[w] == s.pcs[w]
  {
    assert HoldsPlugin(s.pcs[t]) && PluginOwner(s) == s.pcs[t] && Cleared(s.pcs[t]);
    assert Monitoring(s.pcs[w]);
    assert HoldsPlugin(s.pcs[u]) <==> s.sh.plugin == By(u);
    if u == w {
      WatchLeads(s.sh, u, s.pcs[u], c);
    } else if Monitoring(s.pcs[u]) {
      assert false;
    } else if u != t {
      OutsiderKeeps(s.sh, u, s.pcs[u], MonitorExited(s), c);
    }
  }

  /** While Stop joins, only the monitor can be inside the controller's mutex. */
  lemma ControllerIsTheirs(s: State, t: Tid, w: Tid)
    requires Inv(s) && JoinsMonitor(s, t, w)
    ensures s.sh.controller.By? ==> s.sh.controller.tid == w
    ensures w in s.pcs && (WantsController(s.pcs[w]) ==> s.sh.controller == Free)
  {
    assert HoldsPlugin(s.pcs[t]);
    if s.sh.controller.By? {
      var u := s.sh.controller.tid;
      assert HoldsController(s.pcs[u]);
      assert HoldsPlugin(s.pcs[u]) <==> s.sh.plugin == By(u);
    }
  }

  lemma JoinedMonitor(s: State, t: Tid, w: Tid)
    requires Inv(s) && JoinsMonitor(s, t, w)
    ensures w in s.pcs && s.pcs[w].InMonitor? && w != t
    ensures !s.sh.startedByPlugin && Invalid !in s.sh.closed
  {
    assert HoldsPlugin(s.pcs[t]) && PluginOwner(s) == s.pcs[t] && Cleared(s.pcs[t]);
    assert Monitoring(s.pcs[w]);
  }

  /** A monitor that is not doomed has exited, or can step, or waits for a live child. */
  lemma JoinedMonitorReady(s: State, t: Tid, w: Tid)
    requires Inv(s) && JoinsMonitor(s, t, w) && w in s.pcs && !Doomed(s.sh, s.pcs[w]) && !HasExited(s.pcs[w])
    ensures Watching(s.sh, s.pcs[w]) || exists c, s' :: Step(s, w, c, s')
  {
    JoinedMonitor(s, t, w);
    if !Watching(s.sh, s.pcs[w]) {
      ControllerIsTheirs(s, t, w);
      ReadySteps(s, w);
    }
  }

  /** The monitor's own step leaves the join where it is. */
  lemma MonitorStepKeepsJoin(s: State, c: Choice, s': State, t: Tid, w: Tid)
    requires Inv(s) && JoinsMonitor(s, t, w) && Step(s, w, c, s')
    ensures JoinsMonitor(s', t, w) && w in s'.pcs
  {
    JoinedMonitor(s, t, w);
    WatchLeads(s.sh, w, s.pcs[w], c);
  }

  /** The join is over, and Stop is about to return OK. */
  ghost predicate Joined(s: State, t: Tid) {
    t in s.pcs && s.pcs[t] == InStop(ClearStarted, true)
  }

  ghost predicate CanJoin(s: State, t: Tid) {
    exists s' :: Reaches(Next, s, s') && Joined(s', t)
  }

  lemma CanJoinBefore(s: State, s': State, t: Tid)
    requires Next(s, s') && CanJoin(s', t)
    ensures CanJoin(s, t)
  {
    var s'' :| Reaches(Next, s', s'') && Joined(s'', t);
    Stays(Next, s);
    Then(Next, s, s, s');
    Joins(Next, s, s', s'');
  }

  lemma ExitedCanJoin(s: State, t: Tid, w: Tid)
    requires Inv(s) && JoinsMonitor(s, t, w) && w in s.pcs && HasExited(s.pcs[w])
    ensures CanJoin(s, t)
  {
    assert HoldsPlugin(s.pcs[t]) && PluginOwner(s) == s.pcs[t];
    var s' := State(s.pcs[t := s.pcs[t].(stop := ClearStarted)], s.sh.(thread := None));
    assert MonitorExited(s) && Step(s, t, Fails, s');
    Stays(Next, s);
    Then(Next, s, s, s');
    assert Joined(s', t);
  }

  /** Unless its monitor is doomed a join can be over, whatever the state: children end, then the monitor exits. */
  lemma {:induction false} NotDoomedCanJoin(s: State, t: Tid, w: Tid)
    requires Inv(s) && JoinsMonitor(s, t, w) && w in s.pcs && !Doomed(s.sh, s.pcs[w])
    ensures CanJoin(s, t)
    decreases StepsLeft(s.pcs[w]), Watching(s.sh, s.pcs[w])
  {
    JoinedMonitor(s, t, w);
    if HasExited(s.pcs[w]) {
      ExitedCanJoin(s, t, w);
    } else if Watching(s.sh, s.pcs[w]) {
      var p := s.pcs[w].waited.n;
      var s' := s.(sh := s.sh.(alive := s.sh.alive - {p}));
      assert Dies(s, p, s');
      InvDies(s, p, s');
      NotDoomedCanJoin(s', t, w);
      CanJoinBefore(s, s', t);
    } else {
      JoinedMonitorReady(s, t, w);
      var c, s' :| Step(s, w, c, s');
      InvStep(s, w, c, s');
      MonitorStepKeepsJoin(s, c, s', t, w);
      JoinStep(s, w, c, s', t, w);
      NotDoomedCanJoin(s', t, w);
      CanJoinBefore(s, s', t);
    }
  }

  lemma DoomedStays(s: State, u: Tid, c: Choice, s': State, t: Tid, w: Tid)
    requires Inv(s) && Step(s, u, c, s') && JoinsMonitor(s, t, w) && w in s.pcs && Doomed(s.sh, s.pcs[w])
    ensures JoinsMonitor(s', t, w)
  {
    assert HoldsPlugin(s.pcs[t]) && PluginOwner(s) == s.pcs[t] && Cleared(s.pcs[t]);
    assert HoldsPlugin(s.pcs[u]) <==> s.sh.plugin == By(u);
    assert !MonitorExited(s);
    if u == w {
      WatchLeads(s.sh, u, s.pcs[u], c);
    } else if Monitoring(s.pcs[u]) {
      assert false;
    } else if u != t {
      OutsiderKeeps(s.sh, u, s.pcs[u], MonitorExited(s), c);
    }
  }

  /** A Stop joins a monitor that is doomed. */
  ghost predicate JoinsDoomed(s: State, t: Tid, w: Tid) {
    Inv(s) && JoinsMonitor(s, t, w) && w in s.pcs && Doomed(s.sh, s.pcs[w])
  }

  lemma DoomedNext(s: State, s': State, t: Tid, w: Tid)
    requires JoinsDoomed(s, t, w) && Next(s, s')
    ensures JoinsDoomed(s', t, w)
  {
    InvNext(s, s');
    if u, c :| Step(s, u, c, s') {
      DoomedStays(s, u, c, s', t, w);
      JoinStep(s, u, c, s', t, w);
    }
  }

  /** A doomed join is never over: however the run goes on, Stop stays at its join with the plugin's mutex. */
  lemma DoomedJoinHangs(s: State, s': State, t: Tid, w: Tid)
    requires JoinsDoomed(s, t, w) && Reaches(Next, s, s')
    ensures JoinsDoomed(s', t, w)
  {
    forall x, y | JoinsDoomed(x, t, w) && Next(x, y) ensures JoinsDoomed(y, t, w) {
      DoomedNext(x, y, t, w);
    }
    Kept(Next, x => JoinsDoomed(x, t, w), s, s');
  }

  /**
   * Exactly when the join of a Stop can ever be over: in every reachable state, if and only if the monitor
   * it joins is not doomed to wait on no process.
   */
  lemma JoinEndsExactly(r: seq<State>, i: nat, t: Tid, w: Tid)
    requires Run(r) && i < |r| && JoinsMonitor(r[i], t, w)
    ensures w in r[i].pcs && (CanJoin(r[i], t) <==> !Doomed(r[i].sh, r[i].pcs[w]))
  {
    InvAlongRun(r, i);
    JoinedMonitor(r[i], t, w);
    if Doomed(r[i].sh, r[i].pcs[w]) {
      forall s' | Reaches(Next, r[i], s') ensures !Joined(s', t) {
        DoomedJoinHangs(r[i], s', t, w);
      }
    } else {
      NotDoomedCanJoin(r[i], t, w);
    }
  }
}
