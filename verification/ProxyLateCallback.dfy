/** Two runs in which a callback is never called: stored too late for the running worker, and stored for no worker. */
module ProxyLateCallback {
  import opened Options
  import opened Runs
  import opened ProxyInfoModel
  import opened ProxyDiscoveryEngines
  import opened ConsumerRegistry
  import opened ProxyProtocol
  import opened ProxyProtocolProofs

  lemma InitReached(s: State)
    requires Init(s)
    ensures Reachable(s)
  {
    Stays(Next, s);
  }

  lemma StepReached(s: State, t: Tid, c: Choice, s': State)
    requires Reachable(s) && Step(s, t, c, s')
    ensures Reachable(s')
  {
    var s0 :| Init(s0) && Reaches(Next, s0, s);
    assert Next(s, s');
    Then(Next, s0, s, s');
  }

  /** Thread `t` at `pc`, the others as in `pcs`. */
  function At(pcs: map<Tid, Pc>, t: Tid, pc: Pc, h: Shared): State {
    State(pcs[t := pc], h)
  }

  /** One step of one thread; nobody destroys here, so it does not matter where the others are. */
  lemma Moved(pcs: map<Tid, Pc>, t: Tid, pc: Pc, h: Shared, c: Choice, pc': Pc, h': Shared)
    requires Reachable(At(pcs, t, pc, h)) && c != CallDestroy
    requires Act(h, t, pc, false, c) == To(pc', h')
    ensures Reachable(At(pcs, t, pc', h'))
  {
    var s := At(pcs, t, pc, h);
    assert Act(h, t, pc, StartUnderWay(s), c) == Act(h, t, pc, false, c);
    assert s.pcs[t := pc'] == pcs[t := pc'];
    StepReached(s, t, c, At(pcs, t, pc', h'));
  }

  const FREE := Owners(Free, Free, Free, Free)

  // ----- the calls of the run, each made with nobody else in a critical section -----

  lemma Registers(pcs: map<Tid, Pc>, t: Tid, h: Shared)
    requires Reachable(At(pcs, t, Idle, h)) && h.owners == FREE && h.consumers == []
    ensures Reachable(At(pcs, t, Idle, h.(consumers := [Configuration])))
  {
    var mine := FREE.(consumers := By(t));
    var h1 := h.(owners := mine);
    var h2 := h1.(consumers := [Configuration]);
    Moved(pcs, t, Idle, h, CallRegister(Configuration, true), InRegister(RegisterAt.Lock, Configuration, true), h);
    Moved(pcs, t, InRegister(RegisterAt.Lock, Configuration, true), h, Go, InRegister(Apply, Configuration, true), h1);
    assert [] + [Configuration] == [Configuration];
    Moved(pcs, t, InRegister(Apply, Configuration, true), h1, Go, InRegister(RegisterAt.Unlock, Configuration, true), h2);
    Moved(pcs, t, InRegister(RegisterAt.Unlock, Configuration, true), h2, Go, Idle, h2.(owners := FREE));
    assert h2.(owners := FREE) == h.(consumers := [Configuration]);
  }

  /** A start stores its callback and takes both locks. */
  function Storing(h: Shared, cb: nat, ctx: nat): Shared {
    h.(cb := Some(cb), ctx := Some(ctx), stored := h.stored + [(cb, ctx)])
  }

  function Locked(h: Shared, t: Tid): Shared {
    h.(owners := FREE.(configuration := By(t), threaded := By(t)))
  }

  lemma StartStores(pcs: map<Tid, Pc>, t: Tid, h: Shared, cb: nat, ctx: nat)
    requires Reachable(At(pcs, t, Idle, h)) && h.owners == FREE && !h.shutdown
    ensures Reachable(At(pcs, t, InStart(StartAt.Check, cb, ctx, |h.stored| + 1), Locked(Storing(h, cb, ctx), t)))
  {
    var n := |h.stored| + 1;
    var h1 := h.(owners := FREE.(configuration := By(t)));
    var h2 := h1.(cb := Some(cb));
    var h3 := h2.(ctx := Some(ctx), stored := h.stored + [(cb, ctx)]);
    Moved(pcs, t, Idle, h, CallStart(cb, ctx), InStart(StartAt.Lock, cb, ctx, 0), h);
    Moved(pcs, t, InStart(StartAt.Lock, cb, ctx, 0), h, Go, InStart(StoreCb, cb, ctx, 0), h1);
    Moved(pcs, t, InStart(StoreCb, cb, ctx, 0), h1, Go, InStart(StoreContext, cb, ctx, 0), h2);
    Moved(pcs, t, InStart(StoreContext, cb, ctx, 0), h2, Go, InStart(LockThreaded, cb, ctx, n), h3);
    Moved(pcs, t, InStart(LockThreaded, cb, ctx, n), h3, Go, InStart(StartAt.Check, cb, ctx, n),
          Locked(Storing(h, cb, ctx), t));
  }

  lemma StartEnds(pcs: map<Tid, Pc>, t: Tid, h: Shared, cb: nat, ctx: nat, n: nat)
    requires Reachable(At(pcs, t, InStart(UnlockThreaded, cb, ctx, n), Locked(h, t))) && h.owners == FREE
    ensures Reachable(At(pcs, t, Idle, h))
  {
    var h1 := h.(owners := FREE.(configuration := By(t)));
    Moved(pcs, t, InStart(UnlockThreaded, cb, ctx, n), Locked(h, t), Go, InStart(StartAt.Unlock, cb, ctx, n), h1);
    Moved(pcs, t, InStart(StartAt.Unlock, cb, ctx, n), h1, Go, Idle, h);
  }

  lemma StartLaunches(pcs: map<Tid, Pc>, t: Tid, h: Shared, cb: nat, ctx: nat, w: Tid)
    requires Reachable(At(pcs, t, Idle, h)) && h.owners == FREE && !h.shutdown && !h.running
    requires w !in pcs && w != t
    ensures Reachable(At(pcs[w := Discovery(Worker(|h.stored| + 1))], t, Idle,
                         Storing(h, cb, ctx).(running := true, runner := Some(w))))
  {
    StartStores(pcs, t, h, cb, ctx);
    var n, h1 := |h.stored| + 1, Locked(Storing(h, cb, ctx), t);
    var h2 := h1.(running := true, runner := Some(t));
    var h3 := h2.(runner := Some(w));
    Moved(pcs, t, InStart(StartAt.Check, cb, ctx, n), h1, Go, InStart(Launch, cb, ctx, n), h2);
    var s := At(pcs, t, InStart(Launch, cb, ctx, n), h2);
    var pcs' := pcs[w := Discovery(Worker(n))];
    var s' := At(pcs', t, InStart(UnlockThreaded, cb, ctx, n), h3);
    assert s'.pcs == s.pcs[t := InStart(UnlockThreaded, cb, ctx, n)][w := Discovery(Worker(n))];
    StepReached(s, t, Spawn(w), s');
    StartEnds(pcs', t, Storing(h, cb, ctx).(running := true, runner := Some(w)), cb, ctx, n);
  }

  lemma StartFindsRunning(pcs: map<Tid, Pc>, t: Tid, h: Shared, cb: nat, ctx: nat)
    requires Reachable(At(pcs, t, Idle, h)) && h.owners == FREE && !h.shutdown && h.running
    ensures Reachable(At(pcs, t, Idle, Storing(h, cb, ctx)))
  {
    StartStores(pcs, t, h, cb, ctx);
    var n, h1 := |h.stored| + 1, Locked(Storing(h, cb, ctx), t);
    Moved(pcs, t, InStart(StartAt.Check, cb, ctx, n), h1, Go, InStart(UnlockThreaded, cb, ctx, n), h1);
    StartEnds(pcs, t, Storing(h, cb, ctx), cb, ctx, n);
  }

  /** What the first n methods found: nothing each. */
  function Nothing(n: nat): (found: seq<seq<ProxyInfo>>)
    ensures |found| == n
  {
    if n == 0 then [] else Nothing(n - 1) + [[]]
  }

  /** A discovery that finds nothing: the shared fields after it. */
  function FoundNothing(h: Shared, w: Tid): Shared {
    h.(engine := [], delivered := h.delivered + [Delivery(w, Nothing(4), false, [])])
  }

  lemma {:induction false} WorkerFinds(pcs: map<Tid, Pc>, w: Tid, h: Shared, task: Task, n: nat)
    requires Reachable(At(pcs, w, InDiscover(Find, task, [], 0, false, []), h))
    requires n <= 4 && !h.shutdown && h.engine == []
    ensures Reachable(At(pcs, w, InDiscover(Find, task, Nothing(n), 0, false, []), h))
  {
    if n > 0 {
      WorkerFinds(pcs, w, h, task, n - 1);
      var none: seq<ProxyInfo> := [];
      assert h.engine + none == h.engine;
      Moved(pcs, w, InDiscover(Find, task, Nothing(n - 1), 0, false, []), h, FindList(none),
            InDiscover(Find, task, Nothing(n - 1) + [none], 0, false, []), h);
    }
  }

  lemma WorkerDelivers(pcs: map<Tid, Pc>, w: Tid, h: Shared, task: Task, found: seq<seq<ProxyInfo>>)
    requires Reachable(At(pcs, w, InDiscover(Find, task, found, 0, false, []), h))
    requires |found| == 4 && h.owners == FREE.(engine := By(w)) && h.engine == [] && task.Worker?
    ensures Reachable(At(pcs, w, InNotify(NotifyAt.Lock, task, 0, []),
                         h.(owners := FREE, delivered := h.delivered + [Delivery(w, found, false, [])])))
  {
    var h1 := h.(delivered := h.delivered + [Delivery(w, found, false, [])]);
    Moved(pcs, w, InDiscover(Find, task, found, 0, false, []), h, Go, InDiscover(Normalize, task, found, 0, false, []), h);
    Moved(pcs, w, InDiscover(Normalize, task, found, 0, false, []), h, Go, InDiscover(Get, task, found, 0, false, []), h);
    Moved(pcs, w, InDiscover(Get, task, found, 0, false, []), h, Go,
          InDiscover(DiscoverAt.Unlock, task, found, 0, false, []), h1);
    Moved(pcs, w, InDiscover(DiscoverAt.Unlock, task, found, 0, false, []), h1, Go,
          InNotify(NotifyAt.Lock, task, 0, []), h1.(owners := FREE));
  }

  lemma WorkerDiscovers(pcs: map<Tid, Pc>, w: Tid, h: Shared, task: Task)
    requires Reachable(At(pcs, w, Discovery(task), h)) && h.owners == FREE && !h.shutdown && task.Worker?
    ensures Reachable(At(pcs, w, InNotify(NotifyAt.Lock, task, 0, []), FoundNothing(h, w)))
  {
    var h1 := h.(owners := FREE.(engine := By(w)));
    var h2 := h1.(engine := []);
    Moved(pcs, w, Discovery(task), h, Go, InDiscover(DiscoverAt.Clear, task, [], 0, false, []), h1);
    Moved(pcs, w, InDiscover(DiscoverAt.Clear, task, [], 0, false, []), h1, Go,
          InDiscover(Find, task, [], 0, false, []), h2);
    WorkerFinds(pcs, w, h2, task, 4);
    WorkerDelivers(pcs, w, h2, task, Nothing(4));
  }

  /** A pass over the configuration alone, with a callback pending: the shared fields after it. */
  function Notified(h: Shared, w: Tid): Shared
    requires h.cb.Some?
  {
    h.(invoked := h.invoked + [Invocation(h.cb.value, h.ctx, [], |h.stored|, w)], cb := None, ctx := None)
  }

  lemma WorkerReachesConfiguration(pcs: map<Tid, Pc>, w: Tid, h: Shared, task: Task)
    requires Reachable(At(pcs, w, InNotify(NotifyAt.Lock, task, 0, []), h))
    requires h.owners == FREE && h.consumers == [Configuration]
    ensures Reachable(At(pcs, w, InNotify(Invoke, task, 0, []),
                         h.(owners := FREE.(consumers := By(w), configuration := By(w)))))
  {
    var h1 := h.(owners := FREE.(consumers := By(w)));
    Moved(pcs, w, InNotify(NotifyAt.Lock, task, 0, []), h, Go, InNotify(NotifyAt.Consumer, task, 0, []), h1);
    Moved(pcs, w, InNotify(NotifyAt.Consumer, task, 0, []), h1, Go, InNotify(LockConfig, task, 0, []), h1);
    Moved(pcs, w, InNotify(LockConfig, task, 0, []), h1, Go, InNotify(Invoke, task, 0, []),
          h.(owners := FREE.(consumers := By(w), configuration := By(w))));
  }

  lemma WorkerCallsBack(pcs: map<Tid, Pc>, w: Tid, h: Shared, task: Task, owners: Owners)
    requires Reachable(At(pcs, w, InNotify(Invoke, task, 0, []), h.(owners := owners))) && h.cb.Some?
    ensures Reachable(At(pcs, w, InNotify(UnlockConfig, task, 0, []), Notified(h, w).(owners := owners)))
  {
    var h0 := h.(owners := owners);
    var h1 := h0.(invoked := h.invoked + [Invocation(h.cb.value, h.ctx, [], |h.stored|, w)]);
    var h2 := h1.(cb := None);
    Moved(pcs, w, InNotify(Invoke, task, 0, []), h0, Go, InNotify(ClearCb, task, 0, []), h1);
    Moved(pcs, w, InNotify(ClearCb, task, 0, []), h1, Go, InNotify(ClearContext, task, 0, []), h2);
    Moved(pcs, w, InNotify(ClearContext, task, 0, []), h2, Go, InNotify(UnlockConfig, task, 0, []),
          Notified(h, w).(owners := owners));
  }

  lemma WorkerEndsPass(pcs: map<Tid, Pc>, w: Tid, h: Shared, task: Task)
    requires Reachable(At(pcs, w, InNotify(UnlockConfig, task, 0, []),
                          h.(owners := FREE.(consumers := By(w), configuration := By(w)))))
    requires h.owners == FREE && |h.consumers| == 1 && task.Worker?
    ensures Reachable(At(pcs, w, InTail(TailAt.Lock, task.ticket), h))
  {
    var h3 := h.(owners := FREE.(consumers := By(w), configuration := By(w)));
    var h4 := h.(owners := FREE.(consumers := By(w)));
    Moved(pcs, w, InNotify(UnlockConfig, task, 0, []), h3, Go, InNotify(NotifyAt.Consumer, task, 1, []), h4);
    Moved(pcs, w, InNotify(NotifyAt.Consumer, task, 1, []), h4, Go, InNotify(NotifyAt.Unlock, task, 1, []), h4);
    Moved(pcs, w, InNotify(NotifyAt.Unlock, task, 1, []), h4, Go, InTail(TailAt.Lock, task.ticket), h);
  }

  lemma WorkerEnds(pcs: map<Tid, Pc>, w: Tid, h: Shared, k: nat)
    requires Reachable(At(pcs, w, InTail(TailAt.Lock, k), h)) && h.owners == FREE
    ensures Reachable(At(pcs, w, InTail(Exited, k), h.(running := false, runner := None)))
  {
    var h1 := h.(owners := FREE.(threaded := By(w)));
    var h2 := h1.(running := false, runner := None);
    Moved(pcs, w, InTail(TailAt.Lock, k), h, Go, InTail(TailAt.Clear, k), h1);
    Moved(pcs, w, InTail(TailAt.Clear, k), h1, Go, InTail(TailAt.Unlock, k), h2);
    Moved(pcs, w, InTail(TailAt.Unlock, k), h2, Go, InTail(Exited, k), h.(running := false, runner := None));
  }

  /** Every thread is at rest, the configuration is registered, and the callback stored last has not been called. */
  ghost predicate Lost(s: State, cb: nat, ctx: nat) {
    && (forall t <- s.pcs :: AtRest(s.pcs[t]))
    && Configuration in s.sh.consumers && !s.sh.shutdown
    && s.sh.stored != [] && s.sh.stored[|s.sh.stored| - 1] == (cb, ctx)
    && (s.sh.cb, s.sh.ctx) == (Some(cb), Some(ctx))
    && forall call <- s.sh.invoked :: call.asOf != |s.sh.stored|
  }

  /** A first start, its worker's discovery and the whole of its pass. */
  lemma FirstStart(pcs: map<Tid, Pc>, t: Tid, w: Tid, h: Shared, cb: nat, ctx: nat)
    requires Reachable(At(pcs, t, Idle, h)) && h.owners == FREE && !h.shutdown && !h.running
    requires h.consumers == [Configuration] && t in pcs && pcs[t] == Idle && w !in pcs
    ensures var h' := FoundNothing(Storing(h, cb, ctx).(running := true, runner := Some(w)), w);
      Reachable(At(pcs, w, InTail(TailAt.Lock, |h.stored| + 1), Notified(h', w)))
  {
    var task := Worker(|h.stored| + 1);
    var pcs' := pcs[w := Discovery(task)];
    var h1 := Storing(h, cb, ctx).(running := true, runner := Some(w));
    var h2 := FoundNothing(h1, w);
    StartLaunches(pcs, t, h, cb, ctx, w);
    assert pcs'[t := Idle] == pcs[w := Discovery(task)];
    WorkerDiscovers(pcs, w, h1, task);
    WorkerReachesConfiguration(pcs, w, h2, task);
    WorkerCallsBack(pcs, w, h2, task, FREE.(consumers := By(w), configuration := By(w)));
    WorkerEndsPass(pcs, w, Notified(h2, w), task);
  }

  /** A second start before the worker has cleared the running flag, and the end of the worker. */
  lemma SecondStart(pcs: map<Tid, Pc>, t: Tid, w: Tid, h: Shared, k: nat, cb: nat, ctx: nat)
    requires Reachable(At(pcs, w, InTail(TailAt.Lock, k), h)) && h.owners == FREE && !h.shutdown && h.running
    requires t in pcs && pcs[t] == Idle && w !in pcs
    ensures Reachable(At(pcs, w, InTail(Exited, k), Storing(h, cb, ctx).(running := false, runner := None)))
  {
    var late := pcs[w := InTail(TailAt.Lock, k)];
    assert late[t := Idle] == late;
    StartFindsRunning(late, t, h, cb, ctx);
    WorkerEnds(pcs, w, Storing(h, cb, ctx), k);
  }

  lemma NobodyLeft(pcs: map<Tid, Pc>, w: Tid, k: nat, h: Shared, cb: nat, ctx: nat)
    requires forall t <- pcs :: pcs[t] == Idle
    requires h.consumers == [Configuration] && !h.shutdown && |h.stored| == 2 && h.stored[1] == (cb, ctx)
    requires (h.cb, h.ctx) == (Some(cb), Some(ctx)) && |h.invoked| == 1 && h.invoked[0].asOf == 1
    ensures Lost(At(pcs, w, InTail(Exited, k), h), cb, ctx)
  {
  }

  /** The shared fields when the first callback has been called and its worker is on its way out. */
  function AfterFirst(cb: nat, ctx: nat, w: Tid): Shared {
    Shared(FREE, [Configuration], None, None, true, false, [], Some(w), [(cb, ctx)],
           [Invocation(cb, Some(ctx), [], 1, w)], [Delivery(w, Nothing(4), false, [])])
  }

  lemma AfterFirstFields(h: Shared, cb: nat, ctx: nat, w: Tid)
    requires h == Shared(FREE, [Configuration], None, None, false, false, [], None, [], [], [])
    ensures Notified(FoundNothing(Storing(h, cb, ctx).(running := true, runner := Some(w)), w), w) == AfterFirst(cb, ctx, w)
  {
  }

  lemma FirstCalled(pcs: map<Tid, Pc>, t: Tid, cb: nat, ctx: nat, w: Tid)
    requires pcs == map[t := Idle] && w != t
    ensures Reachable(At(pcs, w, InTail(TailAt.Lock, 1), AfterFirst(cb, ctx, w)))
  {
    var h0 := Shared(FREE, [], None, None, false, false, [], None, [], [], []);
    var h1 := h0.(consumers := [Configuration]);
    assert pcs[t := Idle] == pcs;
    InitReached(At(pcs, t, Idle, h0));
    Registers(pcs, t, h0);
    FirstStart(pcs, t, w, h1, cb, ctx);
    AfterFirstFields(h1, cb, ctx, w);
  }

  /**
   * Any callback can be lost: after a first start, a second one that finds the worker running but past its notify
   * pass stores its callback and launches nobody. Everything comes to rest and that callback has not been called.
   */
  lemma LateCallbackLost(first: nat, firstCtx: nat, cb: nat, ctx: nat)
    ensures exists s :: Reachable(s) && Lost(s, cb, ctx)
  {
    var t, w := 0, 1;
    var client := map[t := Idle];
    FirstCalled(client, t, first, firstCtx, w);
    SecondStart(client, t, w, AfterFirst(first, firstCtx, w), 1, cb, ctx);
    var h := Storing(AfterFirst(first, firstCtx, w), cb, ctx).(running := false, runner := None);
    NobodyLeft(client, w, 1, h, cb, ctx);
  }

  /** A start that cannot create its thread. */
  lemma StartFailsToLaunch(pcs: map<Tid, Pc>, t: Tid, h: Shared, cb: nat, ctx: nat)
    requires Reachable(At(pcs, t, Idle, h)) && h.owners == FREE && !h.shutdown && !h.running && h.runner == None
    ensures Reachable(At(pcs, t, Idle, Storing(h, cb, ctx)))
  {
    StartStores(pcs, t, h, cb, ctx);
    var n, h1 := |h.stored| + 1, Locked(Storing(h, cb, ctx), t);
    var h2 := h1.(running := true, runner := Some(t));
    Moved(pcs, t, InStart(StartAt.Check, cb, ctx, n), h1, Go, InStart(Launch, cb, ctx, n), h2);
    Moved(pcs, t, InStart(Launch, cb, ctx, n), h2, SpawnFails, InStart(UnlockThreaded, cb, ctx, n), h1);
    StartEnds(pcs, t, Storing(h, cb, ctx), cb, ctx, n);
  }

  /** A single start whose thread cannot be created loses its callback too, although it reports success. */
  lemma FailedLaunchLost(cb: nat, ctx: nat)
    ensures exists s :: Reachable(s) && Lost(s, cb, ctx) && |s.sh.stored| == 1
  {
    var t := 0;
    var client := map[t := Idle];
    var h0 := Shared(FREE, [], None, None, false, false, [], None, [], [], []);
    var h1 := h0.(consumers := [Configuration]);
    assert client[t := Idle] == client;
    InitReached(At(client, t, Idle, h0));
    Registers(client, t, h0);
    StartFailsToLaunch(client, t, h1, cb, ctx);
    var s := At(client, t, Idle, Storing(h1, cb, ctx));
    assert s.sh.stored == [(cb, ctx)];
    assert Lost(s, cb, ctx);
  }
}
