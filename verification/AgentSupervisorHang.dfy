/** Two runs that end in a join that is never over: after a failed restart, and after a terminated first child. */
module AgentSupervisorHang {
  import opened Options
  import opened Runs
  import opened AgentSupervisor
  import opened AgentSupervisorProofs
  import opened AgentSupervisorCalls

  /** The monitor sees its child end and goes to restart it. */
  lemma MonitorWakes(s0: State, pcs: map<Tid, Pc>, w: Tid, h: Shared)
    requires Reaches(Next, s0, At(pcs, w, NEW_MONITOR, h)) && h.controller == Free && h.startedByPlugin
    requires h.process.Process? && h.process.n !in h.alive && h.process !in h.closed
    ensures Reaches(Next, s0, At(pcs, w, InLaunch(Monitor, Verify), h.(controller := By(w))))
  {
    var p := h.process;
    Moved(s0, pcs, w, NEW_MONITOR, h, Succeeds, InMonitor(MonitorAt.Waiting, p, false), h);
    Moved(s0, pcs, w, InMonitor(MonitorAt.Waiting, p, false), h, Succeeds,
          InMonitor(MonitorAt.LockController, p, false), h);
    Moved(s0, pcs, w, InMonitor(MonitorAt.LockController, p, false), h, Succeeds,
          InMonitor(MonitorAt.TestFlag, p, false), h.(controller := By(w)));
    Moved(s0, pcs, w, InMonitor(MonitorAt.TestFlag, p, false), h.(controller := By(w)), Succeeds,
          InLaunch(Monitor, Verify), h.(controller := By(w)));
  }

  function CleanedUp(h: Shared): Shared {
    h.(closed := Close(Close(h.closed, h.stdinWr), h.process), stdinWr := Invalid, process := Invalid)
  }

  /** The restart cannot create its pipe; the cleanup leaves no process to wait for, and the monitor waits. */
  lemma RestartFails(s0: State, pcs: map<Tid, Pc>, w: Tid, h: Shared)
    requires Reaches(Next, s0, At(pcs, w, InLaunch(Monitor, Verify), h.(controller := By(w)))) && h.controller == Free
    ensures Reaches(Next, s0, At(pcs, w, InMonitor(MonitorAt.Waiting, Invalid, false), CleanedUp(h)))
  {
    var h1 := h.(controller := By(w));
    Moved(s0, pcs, w, InLaunch(Monitor, Verify), h1, Succeeds, InLaunch(Monitor, Pipe), h1);
    Moved(s0, pcs, w, InLaunch(Monitor, Pipe), h1, Fails, InLaunch(Monitor, LaunchAt.Cleanup), h1);
    Moved(s0, pcs, w, InLaunch(Monitor, LaunchAt.Cleanup), h1, Succeeds,
          InMonitor(MonitorAt.UnlockController, Invalid, false), CleanedUp(h1));
    Moved(s0, pcs, w, InMonitor(MonitorAt.UnlockController, Invalid, false), CleanedUp(h1), Succeeds,
          InMonitor(ReadHandle, Invalid, false), CleanedUp(h));
    Moved(s0, pcs, w, InMonitor(ReadHandle, Invalid, false), CleanedUp(h), Succeeds,
          InMonitor(MonitorAt.Waiting, Invalid, false), CleanedUp(h));
  }

  /** With no process left to stop, the first call fails and leaves the plugin started. */
  lemma FirstStopFails(s0: State, pcs: map<Tid, Pc>, t: Tid, h: Shared)
    requires Reaches(Next, s0, At(pcs, t, Idle, h)) && h.plugin == Free && h.controller == Free && h.started
    requires h.startedByPlugin && h.stdinWr == Invalid && h.process == Invalid
    ensures Reaches(Next, s0, At(pcs, t, Idle, h.(startedByPlugin := false)))
  {
    StopBegins(s0, pcs, t, h);
    var h1 := h.(plugin := By(t), controller := By(t));
    var h2 := h1.(startedByPlugin := false);
    var h3 := h2.(controller := Free);
    Moved(s0, pcs, t, InStop(StopAt.TestFlag, false), h1, Succeeds, InStop(CloseStdin, false), h2);
    Moved(s0, pcs, t, InStop(CloseStdin, false), h2, Succeeds, InStop(TestProcess, false), h2);
    Moved(s0, pcs, t, InStop(TestProcess, false), h2, Succeeds, InStop(StopAt.UnlockController, false), h2);
    Moved(s0, pcs, t, InStop(StopAt.UnlockController, false), h2, Succeeds, InStop(StopAt.Unlock, false), h3);
    Moved(s0, pcs, t, InStop(StopAt.Unlock, false), h3, Succeeds, Idle, h.(startedByPlugin := false));
  }

  /** The second call finds the flag clear and joins. */
  lemma SecondStopJoins(s0: State, pcs: map<Tid, Pc>, t: Tid, h: Shared)
    requires Reaches(Next, s0, At(pcs, t, Idle, h)) && h.plugin == Free && h.controller == Free && h.started
    requires !h.startedByPlugin
    ensures Reaches(Next, s0, At(pcs, t, InStop(Join, true), h.(plugin := By(t))))
  {
    StopBegins(s0, pcs, t, h);
    var h1 := h.(plugin := By(t), controller := By(t));
    Moved(s0, pcs, t, InStop(StopAt.TestFlag, false), h1, Succeeds, InStop(StopAt.UnlockController, true), h1);
    Moved(s0, pcs, t, InStop(StopAt.UnlockController, true), h1, Succeeds, InStop(Join, true), h.(plugin := By(t)));
  }

  /** A Stop that has to terminate the child: it closes the handle and goes to join. */
  lemma StopTerminates(s0: State, pcs: map<Tid, Pc>, t: Tid, h: Shared)
    requires Reaches(Next, s0, At(pcs, t, Idle, h)) && h.plugin == Free && h.controller == Free && h.started
    requires h.startedByPlugin && h.process.Process?
    ensures Reaches(Next, s0, At(pcs, t, InStop(Join, true),
              CleanedUp(h).(plugin := By(t), startedByPlugin := false, alive := h.alive - {h.process.n})))
  {
    StopWaits(s0, pcs, t, h);
    var h1 := h.(plugin := By(t), controller := By(t), startedByPlugin := false,
                 closed := Close(h.closed, h.stdinWr), stdinWr := Invalid);
    var h2 := h1.(alive := h.alive - {h.process.n});
    var h3 := h2.(closed := Close(h1.closed, h.process), process := Invalid);
    Moved(s0, pcs, t, InStop(Wait, false), h1, Fails, InStop(Terminate, false), h1);
    Moved(s0, pcs, t, InStop(Terminate, false), h1, Succeeds, InStop(CloseProcess, false), h2);
    Moved(s0, pcs, t, InStop(CloseProcess, false), h2, Succeeds, InStop(StopAt.UnlockController, true), h3);
    Moved(s0, pcs, t, InStop(StopAt.UnlockController, true), h3, Succeeds, InStop(Join, true), h3.(controller := Free));
  }

  /** One client and a stopped plugin. */
  function First(t: Tid): State {
    State(map[t := Idle], Shared(Free, Free, false, false, Invalid, Invalid, None, {}, 0, 0, []))
  }

  /** A started plugin whose child is alive, and one whose child has ended. */
  function ChildRunning(w: Tid): Shared {
    Shared(Free, Free, true, true, PipeEnd(0), Process(0), Some(w), {0}, 1, 1, [])
  }

  function ChildGone(w: Tid): Shared {
    ChildRunning(w).(alive := {})
  }

  lemma FirstStart(t: Tid, w: Tid)
    requires w != t
    ensures Reaches(Next, First(t), At(map[t := Idle, w := NEW_MONITOR], t, Idle, ChildRunning(w)))
  {
    var pcs, h := First(t).pcs, First(t).sh;
    assert At(pcs, t, Idle, h) == First(t);
    Stays(Next, First(t));
    ChildLaunched(First(t), pcs, t, h);
    MonitorSpawned(First(t), pcs, t, WithChild(h.(plugin := By(t))), w);
    assert {} + {0} == {0};
    assert pcs[w := NEW_MONITOR] == map[t := Idle, w := NEW_MONITOR];
  }

  lemma FirstChildEnds(t: Tid, w: Tid)
    requires w != t
    ensures Reaches(Next, First(t), At(map[t := Idle], w, NEW_MONITOR, ChildGone(w)))
  {
    FirstStart(t, w);
    var s := At(map[t := Idle, w := NEW_MONITOR], t, Idle, ChildRunning(w));
    ChildDied(First(t), s, 0);
    assert {0} - {0} == {};
    assert s.(sh := s.sh.(alive := s.sh.alive - {0})) == At(map[t := Idle], w, NEW_MONITOR, ChildGone(w));
  }

  /**
   * Stop can hang: a reachable state in which StopPmAgent joins, holding the plugin's mutex, a monitor that waits
   * on an invalid handle.
   */
  lemma StopHangs(t: Tid, w: Tid)
    requires t != w
    ensures exists s :: Reachable(s) && JoinsMonitor(s, t, w) && s.sh.plugin == By(t)
                        && w in s.pcs && s.pcs[w].InMonitor? && s.pcs[w].monitor == MonitorAt.Waiting
                        && s.pcs[w].waited == Invalid
  {
    var pcs := map[t := Idle];
    FirstChildEnds(t, w);
    MonitorWakes(First(t), pcs, w, ChildGone(w));
    RestartFails(First(t), pcs, w, ChildGone(w));
    var hung := pcs[w := InMonitor(MonitorAt.Waiting, Invalid, false)];
    var h := CleanedUp(ChildGone(w));
    assert hung[t := Idle] == hung;
    FirstStopFails(First(t), hung, t, h);
    SecondStopJoins(First(t), hung, t, h.(startedByPlugin := false));
    var s := At(hung, t, InStop(Join, true), h.(startedByPlugin := false, plugin := By(t)));
    assert Init(First(t)) && Reachable(s) && JoinsMonitor(s, t, w);
  }

  /**
   * No restart is needed: a first Stop that terminates the only child ever launched and closes its handle before
   * the new monitor has read it joins a monitor that is doomed.
   */
  lemma StopHangsBeforeFirstWait(t: Tid, w: Tid)
    requires t != w
    ensures exists s :: Reachable(s) && JoinsMonitor(s, t, w) && s.sh.plugin == By(t) && s.sh.launches == 1
                        && w in s.pcs && s.pcs[w] == NEW_MONITOR && Doomed(s.sh, s.pcs[w])
  {
    var pcs := map[t := Idle, w := NEW_MONITOR];
    FirstStart(t, w);
    StopTerminates(First(t), pcs, t, ChildRunning(w));
    var s := At(pcs, t, InStop(Join, true),
      CleanedUp(ChildRunning(w)).(plugin := By(t), startedByPlugin := false, alive := {0} - {0}));
    assert Init(First(t)) && Reachable(s) && JoinsMonitor(s, t, w);
  }
}
