/** What the supervisor's calls and its monitor can bring about, from any reachable state. */
module AgentSupervisorCalls {
  import opened Options
  import opened Runs
  import opened AgentSupervisor
  import opened AgentSupervisorProofs

  // ----- steps of one thread in a row -----

  /** Thread `t` at `pc`, the others as in `pcs`. */
  function At(pcs: map<Tid, Pc>, t: Tid, pc: Pc, h: Shared): State {
    State(pcs[t := pc], h)
  }

  /** One step of one thread that is not at a join. */
  lemma Moved(s0: State, pcs: map<Tid, Pc>, t: Tid, pc: Pc, h: Shared, c: Choice, pc': Pc, h': Shared)
    requires Reaches(Next, s0, At(pcs, t, pc, h)) && !Joining(pc)
    requires Act(h, t, pc, false, c) == To(pc', h')
    ensures Reaches(Next, s0, At(pcs, t, pc', h'))
  {
    var s := At(pcs, t, pc, h);
    assert Act(h, t, pc, MonitorExited(s), c) == Act(h, t, pc, false, c);
    assert s.pcs[t := pc'] == pcs[t := pc'];
    assert Step(s, t, c, At(pcs, t, pc', h'));
    Then(Next, s0, s, At(pcs, t, pc', h'));
  }

  lemma ChildDied(s0: State, s: State, p: nat)
    requires Reaches(Next, s0, s) && p in s.sh.alive
    ensures Reaches(Next, s0, s.(sh := s.sh.(alive := s.sh.alive - {p})))
  {
    var s' := s.(sh := s.sh.(alive := s.sh.alive - {p}));
    assert Dies(s, p, s');
    Then(Next, s0, s, s');
  }

  // ----- a start -----

  /** The pipe and the process of a launch. */
  function WithPipe(h: Shared): Shared {
    h.(stdinWr := PipeEnd(h.pipes), pipes := h.pipes + 1)
  }

  function WithChild(h: Shared): Shared {
    WithPipe(h).(process := Process(h.launches), alive := h.alive + {h.launches}, launches := h.launches + 1)
  }

  lemma ChildLaunched(s0: State, pcs: map<Tid, Pc>, t: Tid, h: Shared)
    requires Reaches(Next, s0, At(pcs, t, Idle, h)) && h.plugin == Free && !h.started
    ensures Reaches(Next, s0, At(pcs, t, InStart(SetFlag), WithChild(h.(plugin := By(t)))))
  {
    var h1 := h.(plugin := By(t));
    Moved(s0, pcs, t, Idle, h, CallStart, InStart(StartAt.Lock), h);
    Moved(s0, pcs, t, InStart(StartAt.Lock), h, Succeeds, InStart(StartAt.Check), h1);
    Moved(s0, pcs, t, InStart(StartAt.Check), h1, Succeeds, InStart(Kill), h1);
    Moved(s0, pcs, t, InStart(Kill), h1, Succeeds, InLaunch(Starter, Verify), h1);
    Moved(s0, pcs, t, InLaunch(Starter, Verify), h1, Succeeds, InLaunch(Starter, Pipe), h1);
    Moved(s0, pcs, t, InLaunch(Starter, Pipe), h1, Succeeds, InLaunch(Starter, Setup), WithPipe(h1));
    Moved(s0, pcs, t, InLaunch(Starter, Setup), WithPipe(h1), Succeeds, InLaunch(Starter, Create), WithPipe(h1));
    Moved(s0, pcs, t, InLaunch(Starter, Create), WithPipe(h1), Succeeds, InStart(SetFlag), WithChild(h1));
  }

  lemma MonitorSpawned(s0: State, pcs: map<Tid, Pc>, t: Tid, h: Shared, w: Tid)
    requires Reaches(Next, s0, At(pcs, t, InStart(SetFlag), h)) && h.plugin == By(t) && w !in pcs && w != t
    ensures Reaches(Next, s0, At(pcs[w := NEW_MONITOR], t, Idle,
                                 h.(plugin := Free, started := true, startedByPlugin := true, thread := Some(w))))
  {
    var h1 := h.(startedByPlugin := true);
    var h2 := h1.(thread := Some(w));
    var pcs' := pcs[w := NEW_MONITOR];
    Moved(s0, pcs, t, InStart(SetFlag), h, Succeeds, InStart(SpawnMonitor), h1);
    var s, s' := At(pcs, t, InStart(SpawnMonitor), h1), At(pcs', t, InStart(SetStarted), h2);
    assert s'.pcs == s.pcs[t := InStart(SetStarted)][w := NEW_MONITOR];
    assert Step(s, t, Spawn(w), s');
    Then(Next, s0, s, s');
    Moved(s0, pcs', t, InStart(SetStarted), h2, Succeeds, InStart(StartAt.Unlock), h2.(started := true));
    Moved(s0, pcs', t, InStart(StartAt.Unlock), h2.(started := true), Succeeds, Idle,
          h.(plugin := Free, started := true, startedByPlugin := true, thread := Some(w)));
  }

  /** What a successful start of `t` leaves: a new child, alive, its handle kept, and a new monitor. */
  ghost predicate Started(s: State, t: Tid, n: nat) {
    && t in s.pcs && s.pcs[t] == Idle
    && s.sh.started && s.sh.startedByPlugin && s.sh.launches == n + 1
    && s.sh.process == Process(n) && n in s.sh.alive && s.sh.stdinWr.PipeEnd?
    && s.sh.thread.Some? && s.sh.thread.value in s.pcs && s.pcs[s.sh.thread.value] == NEW_MONITOR
  }

  /** A stopped plugin can be started: some continuation leaves a new child with its monitor. */
  lemma StartCanSucceed(s: State, t: Tid)
    requires t in s.pcs && s.pcs[t] == Idle && s.sh.plugin == Free && !s.sh.started
    ensures exists s' :: Reaches(Next, s, s') && Started(s', t, s.sh.launches)
  {
    var w := FreshTid(s.pcs.Keys);
    assert s.pcs[t := Idle] == s.pcs && At(s.pcs, t, Idle, s.sh) == s;
    Stays(Next, s);
    ChildLaunched(s, s.pcs, t, s.sh);
    MonitorSpawned(s, s.pcs, t, WithChild(s.sh.(plugin := By(t))), w);
    assert Started(At(s.pcs[w := NEW_MONITOR], t, Idle,
      WithChild(s.sh.(plugin := By(t))).(plugin := Free, started := true, startedByPlugin := true, thread := Some(w))),
      t, s.sh.launches);
  }

  /** What startProcess has done when it returns from `pc`. */
  ghost predicate LaunchEnds(h: Shared, pc: Pc, h': Shared, pc': Pc)
    requires pc.InLaunch?
  {
    if h'.launches != h.launches then
      && h'.launches == h.launches + 1 && h'.process == Process(h.launches) && h'.alive == h.alive + {h.launches}
      && h'.stdinWr == h.stdinWr && h'.closed == h.closed && pc' == Launched(pc.launcher, true)
    else
      && h'.alive == h.alive && pc' == Launched(pc.launcher, false)
      && if pc.launch == Verify then h' == h
         else
           && h'.process == Invalid && (h.process == Invalid || h.process in h'.closed)
           && h'.stdinWr == Invalid && (h.stdinWr == Invalid || h.stdinWr in h'.closed)
  }

  lemma LaunchOut(h: Shared, pc: Pc, c: Choice)
    requires pc.InLaunch? && !Launch(h, pc, c).pc.InLaunch?
    ensures var m := Launch(h, pc, c); m.To? && LaunchEnds(h, pc, m.sh, m.pc)
  {
  }

  /**
   * startProcess returns with a new live child whose handle is kept; or, its signature check failed, with nothing
   * changed; or with both handles it would have kept closed and the fields invalid.
   */
  lemma LaunchLeaves(r: seq<State>, i: nat, t: Tid)
    requires Run(r) && i + 1 < |r| && t in r[i].pcs && r[i].pcs[t].InLaunch?
    requires t in r[i + 1].pcs && !r[i + 1].pcs[t].InLaunch?
    ensures LaunchEnds(r[i].sh, r[i].pcs[t], r[i + 1].sh, r[i + 1].pcs[t])
  {
    assert Link(Next, r, i);
    var u, c :| Step(r[i], u, c, r[i + 1]);
    assert u == t;
    LaunchOut(r[i].sh, r[i].pcs[t], c);
  }

  // ----- what had to succeed before a launch -----

  /** The step of a thread that leads to `s'` is the success of a system call: under no other outcome is it a step. */
  ghost predicate Succeeded(s: State, t: Tid, s': State) {
    Step(s, t, Succeeds, s') && forall c | Step(s, t, c, s') :: c == Succeeds
  }

  /** Thread `t` moves from its place at `j` to one that it keeps up to `i`. */
  ghost predicate MovesAndStays(r: seq<State>, j: nat, i: nat, t: Tid) {
    && j < i < |r| && t in r[j].pcs && t in r[i].pcs && r[j].pcs[t] != r[i].pcs[t]
    && (forall k | j < k <= i :: t in r[k].pcs && r[k].pcs[t] == r[i].pcs[t])
  }

  /** A thread that is not where a thread begins came there by a step of its own. */
  lemma {:induction false} CameFrom(r: seq<State>, i: nat, t: Tid) returns (j: nat, c: Choice)
    requires Run(r) && i < |r| && t in r[i].pcs && r[i].pcs[t] != Idle && r[i].pcs[t] != NEW_MONITOR
    ensures MovesAndStays(r, j, i, t) && Step(r[j], t, c, r[j + 1])
  {
    var before := r[i - 1];
    assert Link(Next, r, i - 1);
    if t in before.pcs && before.pcs[t] == r[i].pcs[t] {
      j, c := CameFrom(r, i - 1, t);
    } else {
      var u, choice :| Step(before, u, choice, r[i]);
      assert u == t;
      j, c := i - 1, choice;
    }
  }

  /** The check or system call that has to succeed before a thread is at `pc`; Idle when there is none. */
  function Checked(pc: Pc): Pc {
    if !pc.InLaunch? then Idle
    else
      match pc.launch
      case Verify => if pc.launcher == Starter then InStart(Kill) else Idle
      case Pipe => InLaunch(pc.launcher, Verify)
      case Setup => InLaunch(pc.launcher, Pipe)
      case Create => InLaunch(pc.launcher, Setup)
      case Cleanup => Idle
  }

  lemma ActBySuccess(h: Shared, t: Tid, pc: Pc, e: bool, c: Choice)
    requires !Act(h, t, pc, e, c).Blocked?
    requires var pc' := Act(h, t, pc, e, c).pc; Checked(pc') != Idle && pc' != pc
    ensures pc == Checked(Act(h, t, pc, e, c).pc) && c == Succeeds
  {
  }

  lemma OnlyBySuccess(s: State, t: Tid, c: Choice, s': State)
    requires Step(s, t, c, s') && t in s'.pcs && Checked(s'.pcs[t]) != Idle && s.pcs[t] != s'.pcs[t]
    ensures s.pcs[t] == Checked(s'.pcs[t]) && Succeeded(s, t, s')
  {
    forall d | Step(s, t, d, s') ensures d == Succeeds && s.pcs[t] == Checked(s'.pcs[t]) {
      ActBySuccess(s.sh, t, s.pcs[t], MonitorExited(s), d);
    }
  }

  lemma CheckedBefore(r: seq<State>, i: nat, t: Tid) returns (j: nat)
    requires Run(r) && i < |r| && t in r[i].pcs && Checked(r[i].pcs[t]) != Idle
    ensures MovesAndStays(r, j, i, t) && r[j].pcs[t] == Checked(r[i].pcs[t]) && Succeeded(r[j], t, r[j + 1])
  {
    var c;
    j, c := CameFrom(r, i, t);
    OnlyBySuccess(r[j], t, c, r[j + 1]);
  }

  lemma CreateSucceeded(s: State, t: Tid, s': State)
    requires t in s.pcs && MoveOf(s, t, s') && s.pcs[t].InLaunch? && s'.sh.launches != s.sh.launches
    ensures Succeeded(s, t, s')
  {
  }

  ghost predicate KilledBefore(r: seq<State>, kill: nat, i: nat, t: Tid) {
    MovesAndStays(r, kill, i, t) && r[kill].pcs[t] == InStart(Kill) && Succeeded(r[kill], t, r[kill + 1])
  }

  /**
   * A child is launched only after everything before it has succeeded: CreateProcess itself, the setup of the pipe, the
   * creation of the pipe and, first of all, the check of the signature, in one pass through startProcess;
   * and for a start, killing what was left running.
   */
  lemma LaunchAfterChecks(r: seq<State>, i: nat) returns (t: Tid, verify: nat, pipe: nat, setup: nat)
    requires Run(r) && i + 1 < |r| && r[i + 1].sh.launches != r[i].sh.launches
    ensures MayLaunch(r[i], t) && Succeeded(r[i], t, r[i + 1])
    ensures MovesAndStays(r, setup, i, t) && Succeeded(r[setup], t, r[setup + 1])
    ensures MovesAndStays(r, pipe, setup, t) && Succeeded(r[pipe], t, r[pipe + 1])
    ensures MovesAndStays(r, verify, pipe, t) && Succeeded(r[verify], t, r[verify + 1])
    ensures var launcher := r[i].pcs[t].launcher;
      && r[verify].pcs[t] == InLaunch(launcher, Verify)
      && r[pipe].pcs[t] == InLaunch(launcher, Pipe)
      && r[setup].pcs[t] == InLaunch(launcher, Setup)
    ensures r[i].pcs[t].launcher == Starter ==> exists kill :: KilledBefore(r, kill, verify, t)
  {
    t := LaunchesOnlyWhen(r, i);
    CreateSucceeded(r[i], t, r[i + 1]);
    setup := CheckedBefore(r, i, t);
    pipe := CheckedBefore(r, setup, t);
    verify := CheckedBefore(r, pipe, t);
    if r[i].pcs[t].launcher == Starter {
      var kill := CheckedBefore(r, verify, t);
      assert KilledBefore(r, kill, verify, t);
    }
  }

  // ----- a stop -----

  /** A call of StopPmAgent as far as the test of the controller's flag. */
  lemma StopBegins(s0: State, pcs: map<Tid, Pc>, t: Tid, h: Shared)
    requires Reaches(Next, s0, At(pcs, t, Idle, h)) && h.plugin == Free && h.controller == Free && h.started
    ensures Reaches(Next, s0, At(pcs, t, InStop(StopAt.TestFlag, false), h.(plugin := By(t), controller := By(t))))
  {
    var h1 := h.(plugin := By(t));
    Moved(s0, pcs, t, Idle, h, CallStop, InStop(StopAt.Lock, false), h);
    Moved(s0, pcs, t, InStop(StopAt.Lock, false), h, Succeeds, InStop(StopAt.Check, false), h1);
    Moved(s0, pcs, t, InStop(StopAt.Check, false), h1, Succeeds, InStop(StopAt.LockController, false), h1);
    Moved(s0, pcs, t, InStop(StopAt.LockController, false), h1, Succeeds, InStop(StopAt.TestFlag, false),
          h1.(controller := By(t)));
  }

  /** As far as the wait for the process, with the flag cleared and the child's input closed. */
  lemma StopWaits(s0: State, pcs: map<Tid, Pc>, t: Tid, h: Shared)
    requires Reaches(Next, s0, At(pcs, t, Idle, h)) && h.plugin == Free && h.controller == Free && h.started
    requires h.startedByPlugin && h.process.Process?
    ensures Reaches(Next, s0, At(pcs, t, InStop(Wait, false),
              h.(plugin := By(t), controller := By(t), startedByPlugin := false,
                 closed := Close(h.closed, h.stdinWr), stdinWr := Invalid)))
  {
    StopBegins(s0, pcs, t, h);
    var h1 := h.(plugin := By(t), controller := By(t));
    var h2 := h1.(startedByPlugin := false);
    var h3 := h2.(closed := Close(h.closed, h.stdinWr), stdinWr := Invalid);
    Moved(s0, pcs, t, InStop(StopAt.TestFlag, false), h1, Succeeds, InStop(CloseStdin, false), h2);
    Moved(s0, pcs, t, InStop(CloseStdin, false), h2, Succeeds, InStop(TestProcess, false), h3);
    Moved(s0, pcs, t, InStop(TestProcess, false), h3, Succeeds, InStop(Wait, false), h3);
  }

  /** The child ends once its input is closed, so that it need not be terminated and its handle is kept. */
  lemma ChildEnds(s0: State, pcs: map<Tid, Pc>, t: Tid, h: Shared)
    requires Reaches(Next, s0, At(pcs, t, InStop(Wait, false), h)) && h.process.Process? && h.controller == By(t)
    ensures Reaches(Next, s0, At(pcs, t, InStop(Join, true), h.(controller := Free, alive := h.alive - {h.process.n})))
  {
    var p := h.process.n;
    var h1 := h.(alive := h.alive - {p});
    if p in h.alive {
      ChildDied(s0, At(pcs, t, InStop(Wait, false), h), p);
    } else {
      assert h.alive - {p} == h.alive;
    }
    assert Reaches(Next, s0, At(pcs, t, InStop(Wait, false), h1));
    Moved(s0, pcs, t, InStop(Wait, false), h1, Succeeds, InStop(StopAt.UnlockController, true), h1);
    Moved(s0, pcs, t, InStop(StopAt.UnlockController, true), h1, Succeeds, InStop(Join, true), h1.(controller := Free));
  }

  /** A Stop that has cleared the flag and works on the child. */
  predicate StoppingChild(pc: Pc) {
    pc.InStop? && (pc.stop == TestProcess || pc.stop == Wait || pc.stop == Terminate || pc.stop == CloseProcess)
  }

  /** TerminateProcess is called and fails. */
  ghost predicate TerminateFails(s: State, t: Tid, s': State) {
    t in s.pcs && s.pcs[t].InStop? && s.pcs[t].stop == Terminate && exists c :: c != Succeeds && Step(s, t, c, s')
  }

  lemma StopSectionOut(h: Shared, t: Tid, pc: Pc, e: bool, c: Choice)
    requires StoppingChild(pc) && !Stop(h, t, pc, e, c).Blocked? && !StoppingChild(Stop(h, t, pc, e, c).pc)
    requires AliveHolds(h, pc) && h.startedByPlugin == false && StdinHolds(h, pc)
    ensures var m := Stop(h, t, pc, e, c);
      && m.To? && m.pc.InStop? && m.pc.stop == StopAt.UnlockController && m.sh.stdinWr == Invalid
      && if m.pc.ok then m.sh.alive == {} && h.process != Invalid
         else h.process == Invalid || (pc.stop == Terminate && c != Succeeds)
  {
  }

  /**
   * A Stop that has cleared the flag ends its critical section with OK only when no launched child is alive, and
   * without it only when there was no process to stop, or TerminateProcess failed. The child's input is closed.
   */
  lemma StopSectionEnds(r: seq<State>, i: nat, t: Tid)
    requires Run(r) && i + 1 < |r| && t in r[i].pcs && StoppingChild(r[i].pcs[t])
    requires t in r[i + 1].pcs && !StoppingChild(r[i + 1].pcs[t])
    ensures r[i + 1].pcs[t].InStop? && r[i + 1].pcs[t].stop == StopAt.UnlockController && r[i + 1].sh.stdinWr == Invalid
    ensures r[i + 1].pcs[t].ok ==> r[i + 1].sh.alive == {} && r[i].sh.process != Invalid
    ensures !r[i + 1].pcs[t].ok ==>
      r[i].sh.process == Invalid || TerminateFails(r[i], t, r[i + 1])
  {
    InvAlongRun(r, i);
    assert Link(Next, r, i);
    var u, c :| Step(r[i], u, c, r[i + 1]);
    assert u == t && HoldsPlugin(r[i].pcs[t]) && PluginOwner(r[i]) == r[i].pcs[t];
    StopSectionOut(r[i].sh, t, r[i].pcs[t], MonitorExited(r[i]), c);
  }

  /** The invariant goes with any continuation. */
  lemma InvReaches(s: State, s': State)
    requires Inv(s) && Reaches(Next, s, s')
    ensures Inv(s')
  {
    forall x, y | Inv(x) && Next(x, y) ensures Inv(y) {
      InvNext(x, y);
    }
    Kept(Next, Inv, s, s');
  }

  /** A Stop of `t` is about to give the plugin's mutex back and to return OK. */
  ghost predicate Stopped(s: State, t: Tid) {
    t in s.pcs && s.pcs[t] == InStop(StopAt.Unlock, true)
  }

  lemma JoinedStops(s: State, s': State, t: Tid)
    requires Reaches(Next, s, s') && Joined(s', t)
    ensures exists s'' :: Reaches(Next, s, s'') && Stopped(s'', t)
  {
    var s'' := State(s'.pcs[t := InStop(StopAt.Unlock, true)], s'.sh.(started := false));
    assert Step(s', t, Succeeds, s'');
    Then(Next, s, s', s'');
  }

  /**
   * A running agent can be stopped: with both mutexes free and a monitor that is not doomed, some continuation
   * brings a Stop to its return with OK, where `StopReturnsClean` applies.
   */
  lemma StopCanSucceed(r: seq<State>, i: nat, t: Tid, w: Tid)
    requires Run(r) && i < |r| && t in r[i].pcs && r[i].pcs[t] == Idle
    requires r[i].sh.plugin == Free && r[i].sh.controller == Free && r[i].sh.started && r[i].sh.startedByPlugin
    requires r[i].sh.process.Process? && r[i].sh.thread == Some(w) && w in r[i].pcs && !Doomed(r[i].sh, r[i].pcs[w])
    ensures exists s' :: Reaches(Next, r[i], s') && Stopped(s', t)
  {
    InvAlongRun(r, i);
    var s, h := r[i], r[i].sh;
    assert w != t;
    assert s.pcs[t := Idle] == s.pcs && At(s.pcs, t, Idle, h) == s;
    Stays(Next, s);
    StopWaits(s, s.pcs, t, h);
    var h1 := h.(plugin := By(t), controller := By(t), startedByPlugin := false,
                 closed := Close(h.closed, h.stdinWr), stdinWr := Invalid);
    ChildEnds(s, s.pcs, t, h1);
    var s1 := At(s.pcs, t, InStop(Join, true), h1.(controller := Free, alive := h1.alive - {h1.process.n}));
    InvReaches(s, s1);
    NotDoomedCanJoin(s1, t, w);
    var s2 :| Reaches(Next, s1, s2) && Joined(s2, t);
    Joins(Next, s, s1, s2);
    JoinedStops(s, s2, t);
  }

  lemma StopOkStep(h: Shared, t: Tid, pc: Pc, e: bool, c: Choice)
    requires pc.InStop? && (HoldsPlugin(pc) ==> PluginHolds(h, pc)) && !Stop(h, t, pc, e, c).Blocked?
    requires Stop(h, t, pc, e, c).pc == InStop(StopAt.Unlock, true)
    ensures pc == InStop(ClearStarted, true)
  {
  }

  lemma OnlyStopStops(h: Shared, t: Tid, pc: Pc, e: bool, c: Choice)
    requires !Act(h, t, pc, e, c).Blocked? && Act(h, t, pc, e, c).pc.InStop?
    ensures pc.InStop? || Act(h, t, pc, e, c).pc == InStop(StopAt.Lock, false)
  {
  }

  lemma StopOkFrom(s: State, t: Tid, c: Choice, s': State)
    requires Inv(s) && Step(s, t, c, s') && s'.pcs[t] == InStop(StopAt.Unlock, true)
    ensures s.pcs[t] == InStop(ClearStarted, true)
  {
    assert HoldsPlugin(s.pcs[t]) ==> PluginOwner(s) == s.pcs[t];
    OnlyStopStops(s.sh, t, s.pcs[t], MonitorExited(s), c);
    StopOkStep(s.sh, t, s.pcs[t], MonitorExited(s), c);
  }

  lemma ClearStartedFrom(s: State, t: Tid, c: Choice, s': State)
    requires Step(s, t, c, s') && s'.pcs[t] == InStop(ClearStarted, true) && s.pcs[t] != s'.pcs[t]
    ensures s.pcs[t] == InStop(Join, true)
  {
    OnlyStopStops(s.sh, t, s.pcs[t], MonitorExited(s), c);
  }

  /** A Stop returns OK only when it has ended its join: one that fails, or finds nothing started, does not. */
  lemma StopOkMeansJoined(r: seq<State>, i: nat, t: Tid) returns (j: nat, k: nat)
    requires Run(r) && i < |r| && t in r[i].pcs && r[i].pcs[t] == InStop(StopAt.Unlock, true)
    ensures MovesAndStays(r, k, i, t) && r[k].pcs[t] == InStop(ClearStarted, true)
    ensures MovesAndStays(r, j, k, t) && r[j].pcs[t] == InStop(Join, true) && r[k].sh.thread.None?
  {
    var c;
    k, c := CameFrom(r, i, t);
    InvAlongRun(r, k);
    StopOkFrom(r[k], t, c, r[k + 1]);
    assert HoldsPlugin(r[k].pcs[t]) && PluginOwner(r[k]) == r[k].pcs[t];
    j, c := CameFrom(r, k, t);
    ClearStartedFrom(r[j], t, c, r[j + 1]);
  }

  // ----- a restart by the monitor -----

  /** A Stop is inside the controller's mutex and about to clear the flag. */
  predicate AboutToClear(pc: Pc) {
    pc.InStop? && pc.stop == StopAt.TestFlag
  }

  const CLEANING_UP := InLaunch(Monitor, LaunchAt.Cleanup)

  /** What keeps the monitor from restarting: it has lost the process to wait for, or a Stop is ahead of it. */
  ghost predicate Lost(s: State, w: Tid)
    requires w in s.pcs
  {
    || Doomed(s.sh, s.pcs[w]) || s.pcs[w] == CLEANING_UP
    || exists t <- s.pcs :: AboutToClear(s.pcs[t])
  }

  /** A child launched after the first n is alive, its handle is kept, and the same monitor waits for it. */
  ghost predicate Restarted(s: State, w: Tid, n: nat) {
    && s.sh.launches == n + 1 && s.sh.process == Process(n) && n in s.sh.alive
    && s.sh.startedByPlugin && s.sh.thread == Some(w)
    && w in s.pcs && s.pcs[w] == InMonitor(MonitorAt.Waiting, Process(n), false)
  }

  ghost predicate CanRestart(s: State, w: Tid, n: nat) {
    exists s' :: Reaches(Next, s, s') && Restarted(s', w, n)
  }

  lemma CanRestartBefore(s: State, s': State, w: Tid, n: nat)
    requires Next(s, s') && CanRestart(s', w, n)
    ensures CanRestart(s, w, n)
  {
    var s'' :| Reaches(Next, s', s'') && Restarted(s'', w, n);
    Stays(Next, s);
    Then(Next, s, s, s');
    Joins(Next, s, s', s'');
  }

  /** The monitor is in its loop with the flag set, and nothing keeps it from restarting. */
  ghost predicate MayRestart(s: State, w: Tid) {
    Inv(s) && s.sh.startedByPlugin && s.sh.thread == Some(w) && w in s.pcs && !Lost(s, w)
  }

  /** Steps of the monitor as far as CreateProcess. */
  function ToCreate(pc: Pc): nat {
    match pc
    case InMonitor(at, _, _) =>
      (match at
       case UnlockController => 9 case ReadHandle => 8 case Waiting => 7
       case LockController => 6 case TestFlag => 5 case Exited => 0)
    case InLaunch(_, at) =>
      (match at case Verify => 4 case Pipe => 3 case Setup => 2 case Create => 1 case Cleanup => 0)
    case _ => 0
  }

  /** A step of the monitor towards the launch. */
  ghost predicate Nearer(h: Shared, pc: Pc, m: Move) {
    && m.To? && ToCreate(m.pc) < ToCreate(pc) && m.pc != CLEANING_UP && Monitoring(m.pc) && !Doomed(m.sh, m.pc)
    && m.sh.startedByPlugin && m.sh.launches == h.launches && m.sh.thread == h.thread
  }

  lemma WatchNears(h: Shared, w: Tid, pc: Pc)
    requires pc.InMonitor? && h.startedByPlugin && Awake(h, pc) && !Doomed(h, pc) && !Watching(h, pc)
    requires h.process !in h.closed && !h.process.PipeEnd? && (WantsController(pc) ==> h.controller == Free)
    ensures Nearer(h, pc, Watch(h, w, pc, Succeeds))
  {
  }

  lemma LaunchNears(h: Shared, pc: Pc)
    requires pc.InLaunch? && pc.launcher == Monitor && pc.launch != Create && pc != CLEANING_UP && h.startedByPlugin
    ensures Nearer(h, pc, Launch(h, pc, Succeeds))
  {
  }

  /** With the flag set only a Stop about to clear it, or the monitor, is inside the controller's mutex. */
  lemma ControllerIsFree(s: State, w: Tid)
    requires MayRestart(s, w) && WantsController(s.pcs[w])
    ensures s.sh.controller == Free
  {
  }

  lemma RestartStep(s: State, w: Tid) returns (s': State)
    requires MayRestart(s, w) && s.pcs[w] != InLaunch(Monitor, Create) && !Watching(s.sh, s.pcs[w])
    ensures Next(s, s') && MayRestart(s', w) && s'.sh.launches == s.sh.launches
    ensures ToCreate(s'.pcs[w]) < ToCreate(s.pcs[w])
  {
    var h, pc := s.sh, s.pcs[w];
    if pc.InMonitor? {
      if WantsController(pc) {
        ControllerIsFree(s, w);
      }
      WatchNears(h, w, pc);
    } else {
      LaunchNears(h, pc);
    }
    var m := Act(h, w, pc, MonitorExited(s), Succeeds);
    s' := State(s.pcs[w := m.pc], m.sh);
    assert Step(s, w, Succeeds, s');
    InvStep(s, w, Succeeds, s');
    assert forall t <- s'.pcs :: t != w ==> s'.pcs[t] == s.pcs[t];
  }

  /** The launch itself: a new child, which the monitor then waits for. */
  lemma RestartLaunches(s: State, w: Tid)
    requires MayRestart(s, w) && s.pcs[w] == InLaunch(Monitor, Create)
    ensures CanRestart(s, w, s.sh.launches)
  {
    var n, h := s.sh.launches, s.sh;
    var h1 := h.(process := Process(n), alive := h.alive + {n}, launches := n + 1);
    var h2 := h1.(controller := Free);
    assert s.pcs[w := s.pcs[w]] == s.pcs && At(s.pcs, w, s.pcs[w], h) == s;
    Stays(Next, s);
    Moved(s, s.pcs, w, InLaunch(Monitor, Create), h, Succeeds, InMonitor(MonitorAt.UnlockController, Invalid, false), h1);
    Moved(s, s.pcs, w, InMonitor(MonitorAt.UnlockController, Invalid, false), h1, Succeeds,
          InMonitor(ReadHandle, Invalid, false), h2);
    Moved(s, s.pcs, w, InMonitor(ReadHandle, Invalid, false), h2, Succeeds,
          InMonitor(MonitorAt.Waiting, Process(n), false), h2);
    assert Restarted(At(s.pcs, w, InMonitor(MonitorAt.Waiting, Process(n), false), h2), w, n);
  }

  /** Unless something keeps it from doing so the monitor can restart the child, whatever the state. */
  lemma {:induction false} MonitorCanRestart(s: State, w: Tid)
    requires MayRestart(s, w)
    ensures CanRestart(s, w, s.sh.launches)
    decreases ToCreate(s.pcs[w]), Watching(s.sh, s.pcs[w])
  {
    if s.pcs[w] == InLaunch(Monitor, Create) {
      RestartLaunches(s, w);
    } else if Watching(s.sh, s.pcs[w]) {
      var p := s.pcs[w].waited.n;
      var s' := s.(sh := s.sh.(alive := s.sh.alive - {p}));
      assert Dies(s, p, s');
      InvDies(s, p, s');
      MonitorCanRestart(s', w);
      CanRestartBefore(s, s', w, s.sh.launches);
    } else {
      var s' := RestartStep(s, w);
      MonitorCanRestart(s', w);
      CanRestartBefore(s, s', w, s.sh.launches);
    }
  }

  // ----- when the monitor cannot restart -----

  /** The joinable monitor has no process to wait for, or is about to have none. */
  ghost predicate LostProcess(s: State, w: Tid) {
    Inv(s) && s.sh.thread == Some(w) && w in s.pcs && (Doomed(s.sh, s.pcs[w]) || s.pcs[w] == CLEANING_UP)
  }

  lemma LostOwn(h: Shared, w: Tid, pc: Pc, e: bool, c: Choice)
    requires (Doomed(h, pc) || pc == CLEANING_UP) && !Act(h, w, pc, e, c).Blocked? && Invalid !in h.closed
    ensures var m := Act(h, w, pc, e, c); m.To? && m.sh.thread == h.thread && Doomed(m.sh, m.pc)
  {
  }

  /** While there is a monitor to join, a client keeps the process handle or closes it. */
  lemma ClientProcess(h: Shared, t: Tid, pc: Pc, e: bool, c: Choice)
    requires !Monitoring(pc) && !Act(h, t, pc, e, c).Blocked? && h.thread.Some?
    requires HoldsPlugin(pc) ==> PluginHolds(h, pc)
    ensures var m := Act(h, t, pc, e, c); m.sh.process == h.process || m.sh.process == Invalid
  {
  }

  /** A monitor that has not exited stays the joinable one whatever another thread does. */
  lemma ThreadStays(s: State, u: Tid, c: Choice, s': State, w: Tid)
    requires Inv(s) && Step(s, u, c, s') && s.sh.thread == Some(w) && w in s.pcs && !HasExited(s.pcs[w])
    ensures s'.sh.thread == Some(w) && w in s'.pcs && (u != w ==> s'.pcs[w] == s.pcs[w])
    ensures u != w ==> !Monitoring(s.pcs[u]) && (HoldsPlugin(s.pcs[u]) ==> PluginHolds(s.sh, s.pcs[u]))
  {
    if u == w {
      MonitorOwnsNoPlugin(s.sh, u, s.pcs[u], MonitorExited(s), c);
    } else {
      assert !Monitoring(s.pcs[u]);
      ClientThread(s.sh, u, s.pcs[u], MonitorExited(s), c, PluginOwner(s));
    }
  }

  lemma LostStays(s: State, u: Tid, c: Choice, s': State, w: Tid)
    requires LostProcess(s, w) && Step(s, u, c, s')
    ensures LostProcess(s', w)
  {
    InvStep(s, u, c, s');
    ThreadStays(s, u, c, s', w);
    if u == w {
      LostOwn(s.sh, w, s.pcs[w], MonitorExited(s), c);
    } else {
      ClientProcess(s.sh, u, s.pcs[u], MonitorExited(s), c);
    }
  }

  lemma LostNext(s: State, s': State, w: Tid)
    requires LostProcess(s, w) && Next(s, s')
    ensures LostProcess(s', w)
  {
    if u, c :| Step(s, u, c, s') {
      LostStays(s, u, c, s', w);
    } else {
      InvNext(s, s');
    }
  }

  lemma LostNeverRestarts(s: State, s': State, w: Tid, n: nat)
    requires LostProcess(s, w) && Reaches(Next, s, s')
    ensures !Restarted(s', w, n)
  {
    forall x, y | LostProcess(x, w) && Next(x, y) ensures LostProcess(y, w) {
      LostNext(x, y, w);
    }
    Kept(Next, x => LostProcess(x, w), s, s');
  }

  /** The monitor has exited, or nothing more is launched while it is there to be joined. */
  ghost predicate Over(s: State, w: Tid, n: nat) {
    && Inv(s) && w in s.pcs
    && (HasExited(s.pcs[w])
        || (s.sh.thread == Some(w) && s.sh.launches == n && (Quiet(s) || exists t <- s.pcs :: AboutToClear(s.pcs[t]))))
  }

  lemma ExitedStays(s: State, u: Tid, c: Choice, s': State, w: Tid)
    requires Step(s, u, c, s') && w in s.pcs && HasExited(s.pcs[w])
    ensures w in s'.pcs && HasExited(s'.pcs[w])
  {
  }

  /** While there is a monitor to join nobody starts. */
  lemma ThreadMeansNoStart(s: State)
    requires Inv(s) && s.sh.thread.Some?
    ensures NobodyStarts(s)
  {
    forall t <- s.pcs ensures s.pcs[t] != InStart(Kill) {
      assert HoldsPlugin(s.pcs[t]) ==> PluginOwner(s) == s.pcs[t];
    }
  }

  /** While a Stop is about to clear the flag nobody else launches; when it moves the flag is clear. */
  lemma ClearingStep(s: State, u: Tid, c: Choice, s': State, t: Tid)
    requires Inv(s) && Step(s, u, c, s') && Inv(s') && t in s.pcs && AboutToClear(s.pcs[t])
    ensures s'.sh.launches == s.sh.launches && t in s'.pcs
    ensures if u == t then Quiet(s') else AboutToClear(s'.pcs[t])
  {
    assert HoldsPlugin(s.pcs[t]) && HoldsController(s.pcs[t]);
    assert u != t ==> !HoldsPlugin(s.pcs[u]) && !HoldsController(s.pcs[u]);
    assert !s.pcs[u].InLaunch?;
    OnlyLaunchesLaunch(s.sh, u, s.pcs[u], MonitorExited(s), c);
    if u == t {
      ClearedIsQuiet(s', t);
    }
  }

  lemma OverStep(s: State, u: Tid, c: Choice, s': State, w: Tid, n: nat)
    requires Over(s, w, n) && Step(s, u, c, s')
    ensures Over(s', w, n)
  {
    InvStep(s, u, c, s');
    if HasExited(s.pcs[w]) {
      ExitedStays(s, u, c, s', w);
    } else {
      ThreadStays(s, u, c, s', w);
      ThreadMeansNoStart(s');
      if Quiet(s) {
        QuietStep(s, u, c, s');
      } else {
        var t :| t in s.pcs && AboutToClear(s.pcs[t]);
        ClearingStep(s, u, c, s', t);
      }
    }
  }

  lemma OverNext(s: State, s': State, w: Tid, n: nat)
    requires Over(s, w, n) && Next(s, s')
    ensures Over(s', w, n)
  {
    if u, c :| Step(s, u, c, s') {
      OverStep(s, u, c, s', w, n);
    } else {
      InvNext(s, s');
    }
  }

  lemma OverNeverRestarts(s: State, s': State, w: Tid, n: nat)
    requires Over(s, w, n) && Reaches(Next, s, s')
    ensures !Restarted(s', w, n)
  {
    forall x, y | Over(x, w, n) && Next(x, y) ensures Over(y, w, n) {
      OverNext(x, y, w, n);
    }
    Kept(Next, x => Over(x, w, n), s, s');
  }

  lemma MonitorIsThere(s: State, w: Tid)
    requires Inv(s) && s.sh.startedByPlugin && s.sh.thread == Some(w)
    ensures w in s.pcs && Monitoring(s.pcs[w]) && !HasExited(s.pcs[w])
  {
  }

  /**
   * Exactly when the monitor can restart the child, wherever it is in its loop and whether the child has ended yet or
   * not: in every reachable state with the flag set, some continuation reaches one more launch, with the new child
   * alive, its handle kept and the monitor waiting for it, if and only if the monitor has not lost the process to wait
   * for and no Stop is about to clear the flag.
   */
  lemma RestartsExactly(r: seq<State>, i: nat, w: Tid)
    requires Run(r) && i < |r| && r[i].sh.startedByPlugin && r[i].sh.thread == Some(w)
    ensures w in r[i].pcs && (CanRestart(r[i], w, r[i].sh.launches) <==> !Lost(r[i], w))
  {
    InvAlongRun(r, i);
    var s, n := r[i], r[i].sh.launches;
    MonitorIsThere(s, w);
    if !Lost(s, w) {
      MonitorCanRestart(s, w);
    } else {
      forall s' | Reaches(Next, s, s') ensures !Restarted(s', w, n) {
        if LostProcess(s, w) {
          LostNeverRestarts(s, s', w, n);
        } else {
          OverNeverRestarts(s, s', w, n);
        }
      }
    }
  }
}
