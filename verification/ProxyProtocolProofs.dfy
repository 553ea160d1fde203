/** The invariants of the discovery protocol over all interleavings, and what they give for whole runs. */
module ProxyProtocolProofs {
  import opened Lists
  import opened Options
  import opened Runs
  import opened ProxyInfoModel
  import opened ProxyDiscoveryEngines
  import opened ConsumerRegistry
  import opened ProxyProtocol

  // ----- ownership -----

  /** A thread owns exactly the mutexes its position says. */
  ghost predicate Agrees(o: Owners, t: Tid, l: Locks) {
    && (l.consumers <==> o.consumers == By(t))
    && (l.configuration <==> o.configuration == By(t))
    && (l.threaded <==> o.threaded == By(t))
    && (l.engine <==> o.engine == By(t))
  }

  ghost predicate Known(o: Owners, tids: set<Tid>) {
    && (o.consumers.By? ==> o.consumers.tid in tids)
    && (o.configuration.By? ==> o.configuration.tid in tids)
    && (o.threaded.By? ==> o.threaded.tid in tids)
    && (o.engine.By? ==> o.engine.tid in tids)
  }

  ghost predicate Ownership(s: State) {
    Known(s.sh.owners, s.pcs.Keys) && forall t <- s.pcs :: Agrees(s.sh.owners, t, LocksAt(s.pcs[t]))
  }

  /** Position of the owner of a mutex, Idle when it is free. */
  ghost function Owner(s: State, m: Mutex): Pc
    requires Ownership(s)
  {
    if s.sh.owners.Get(m).By? then s.pcs[s.sh.owners.Get(m).tid] else Idle
  }

  /** One mutex changes hands only with the position of the thread that moves. */
  predicate Handover(before: Holder, after: Holder, t: Tid, had: bool, has: bool) {
    if had == has then after == before
    else if has then before == Free && after == By(t)
    else after == Free
  }

  ghost predicate Handovers(before: Owners, after: Owners, t: Tid, had: Locks, has: Locks) {
    && Handover(before.consumers, after.consumers, t, had.consumers, has.consumers)
    && Handover(before.configuration, after.configuration, t, had.configuration, has.configuration)
    && Handover(before.threaded, after.threaded, t, had.threaded, has.threaded)
    && Handover(before.engine, after.engine, t, had.engine, has.engine)
  }

  ghost predicate HandsOver(h: Shared, t: Tid, pc: Pc, m: Move) {
    !m.Blocked? ==> Handovers(h.owners, m.sh.owners, t, LocksAt(pc), LocksAt(m.pc))
  }

  /** A move between places where the thread owns the same mutexes. */
  lemma SameLocks(h: Shared, t: Tid, pc: Pc, m: Move)
    requires !m.Blocked? ==> m.sh.owners == h.owners && LocksAt(m.pc) == LocksAt(pc)
    ensures HandsOver(h, t, pc, m)
  {
  }

  predicate StartInside(pc: Pc) {
    pc.InStart? && (pc.start == StoreCb || pc.start == StoreContext || pc.start == StartAt.Check || pc.start == Launch)
  }

  lemma StartStaysInside(h: Shared, t: Tid, pc: Pc, c: Choice)
    requires StartInside(pc)
    ensures var m := Start(h, t, pc, c); !m.Blocked? ==> m.sh.owners == h.owners && LocksAt(m.pc) == LocksAt(pc)
  {
  }

  lemma StartCrosses(h: Shared, t: Tid, pc: Pc, c: Choice)
    requires pc.InStart? && !StartInside(pc)
    ensures HandsOver(h, t, pc, Start(h, t, pc, c))
  {
  }

  lemma StartHandsOver(h: Shared, t: Tid, pc: Pc, c: Choice)
    requires pc.InStart?
    ensures HandsOver(h, t, pc, Start(h, t, pc, c))
  {
    if StartInside(pc) {
      StartStaysInside(h, t, pc, c);
      SameLocks(h, t, pc, Start(h, t, pc, c));
    } else {
      StartCrosses(h, t, pc, c);
    }
  }

  predicate NotifyInside(pc: Pc) {
    pc.InNotify? &&
    (pc.notify == NotifyAt.Consumer || pc.notify == Invoke || pc.notify == ClearCb || pc.notify == ClearContext)
  }

  lemma NotifyStaysInside(h: Shared, t: Tid, pc: Pc)
    requires NotifyInside(pc)
    ensures var m := Notify(h, t, pc); !m.Blocked? ==> m.sh.owners == h.owners && LocksAt(m.pc) == LocksAt(pc)
  {
  }

  lemma NotifyCrosses(h: Shared, t: Tid, pc: Pc)
    requires pc.InNotify? && !NotifyInside(pc)
    ensures HandsOver(h, t, pc, Notify(h, t, pc))
  {
  }

  lemma NotifyHandsOver(h: Shared, t: Tid, pc: Pc)
    requires pc.InNotify?
    ensures HandsOver(h, t, pc, Notify(h, t, pc))
  {
    if NotifyInside(pc) {
      NotifyStaysInside(h, t, pc);
      SameLocks(h, t, pc, Notify(h, t, pc));
    } else {
      NotifyCrosses(h, t, pc);
    }
  }

  lemma DiscoverHandsOver(h: Shared, t: Tid, pc: Pc, c: Choice)
    requires pc.InDiscover?
    ensures HandsOver(h, t, pc, Discover(h, t, pc, c))
  {
  }

  lemma DestroyHandsOver(h: Shared, t: Tid, pc: Pc)
    requires pc.InDestroy?
    ensures HandsOver(h, t, pc, Destroy(h, t, pc))
  {
  }

  lemma OthersHandOver(h: Shared, t: Tid, pc: Pc, u: bool, c: Choice)
    requires !pc.InStart? && !pc.InNotify? && !pc.InDiscover? && !pc.InDestroy?
    ensures HandsOver(h, t, pc, Act(h, t, pc, u, c))
  {
  }

  lemma ActHandsOver(h: Shared, t: Tid, pc: Pc, u: bool, c: Choice)
    ensures HandsOver(h, t, pc, Act(h, t, pc, u, c))
  {
    if pc.InStart? {
      StartHandsOver(h, t, pc, c);
    } else if pc.InNotify? {
      NotifyHandsOver(h, t, pc);
    } else if pc.InDiscover? {
      DiscoverHandsOver(h, t, pc, c);
    } else if pc.InDestroy? {
      DestroyHandsOver(h, t, pc);
    } else {
      OthersHandOver(h, t, pc, u, c);
    }
  }

  /** Every step, seen as one thread moving from `pc` to `pc'` and perhaps a worker appearing. */
  ghost predicate Moves(s: State, t: Tid, pc': Pc, s': State) {
    && t in s.pcs
    && (s'.pcs == s.pcs[t := pc'] ||
        exists w, ticket | w !in s.pcs :: s'.pcs == s.pcs[t := pc'][w := Discovery(Worker(ticket))])
    && Handovers(s.sh.owners, s'.sh.owners, t, LocksAt(s.pcs[t]), LocksAt(pc'))
  }

  lemma StepMoves(s: State, t: Tid, c: Choice, s': State)
    requires Step(s, t, c, s')
    ensures Moves(s, t, s'.pcs[t], s')
  {
    ActHandsOver(s.sh, t, s.pcs[t], StartUnderWay(s), c);
  }

  /** A handover leaves what every other thread owns. */
  lemma OthersKeepLocks(o: Owners, o': Owners, t: Tid, had: Locks, has: Locks, u: Tid, l: Locks)
    requires Agrees(o, t, had) && Handovers(o, o', t, had, has) && u != t && Agrees(o, u, l)
    ensures Agrees(o', u, l)
  {
  }

  lemma StrangerOwnsNothing(o: Owners, tids: set<Tid>, u: Tid)
    requires Known(o, tids) && u !in tids
    ensures Agrees(o, u, Locks(false, false, false, false))
  {
  }

  lemma KnownStays(o: Owners, o': Owners, t: Tid, had: Locks, has: Locks, tids: set<Tid>, tids': set<Tid>)
    requires Known(o, tids) && Handovers(o, o', t, had, has) && t in tids && tids <= tids'
    ensures Known(o', tids')
  {
  }

  /** Where the other threads are after a step, and who is there. */
  lemma MovesKeepOthers(s: State, t: Tid, pc': Pc, s': State)
    requires Moves(s, t, pc', s')
    ensures s.pcs.Keys <= s'.pcs.Keys && s'.pcs[t] == pc'
    ensures forall u <- s'.pcs | u != t ::
      if u in s.pcs then s'.pcs[u] == s.pcs[u] else LocksAt(s'.pcs[u]) == Locks(false, false, false, false)
  {
  }

  lemma OwnershipStep(s: State, t: Tid, pc': Pc, s': State)
    requires Ownership(s) && Moves(s, t, pc', s')
    ensures Ownership(s')
  {
    var o, o', had, has := s.sh.owners, s'.sh.owners, LocksAt(s.pcs[t]), LocksAt(pc');
    MovesKeepOthers(s, t, pc', s');
    assert Agrees(o, t, had);
    KnownStays(o, o', t, had, has, s.pcs.Keys, s'.pcs.Keys);
    forall u <- s'.pcs | u != t ensures Agrees(o', u, LocksAt(s'.pcs[u])) {
      if u !in s.pcs {
        StrangerOwnsNothing(o, s.pcs.Keys, u);
      }
      OthersKeepLocks(o, o', t, had, has, u, LocksAt(s'.pcs[u]));
    }
    assert Agrees(o', t, has);
  }

  /** The owner of a mutex before a step of a thread at `pc`; `x` when the step does not concern that mutex. */
  function Before(pc: Pc, had: bool, has: bool, x: Pc): Pc {
    if had then pc else if has then Idle else x
  }

  function After(pc': Pc, had: bool, has: bool, x: Pc): Pc {
    if has then pc' else if had then Idle else x
  }

  /** How the owner of one mutex is seen before and after a step of another or the same thread. */
  lemma OwnerMoves(s: State, t: Tid, pc': Pc, s': State, m: Mutex)
    requires Ownership(s) && Moves(s, t, pc', s') && Ownership(s')
    ensures var had, has := LocksAt(s.pcs[t]).Get(m), LocksAt(pc').Get(m);
      && Owner(s, m) == Before(s.pcs[t], had, has, Owner(s, m))
      && Owner(s', m) == After(pc', had, has, Owner(s, m))
  {
    assert Agrees(s.sh.owners, t, LocksAt(s.pcs[t]));
    assert Agrees(s'.sh.owners, t, LocksAt(s'.pcs[t]));
  }

  // ----- the callback, protected by CONFIGURATION -----

  /** How many callbacks had been stored at the last invocation, 0 before the first. */
  function LastAsOf(h: Shared): nat {
    if h.invoked == [] then 0 else h.invoked[|h.invoked| - 1].asOf
  }

  ghost predicate Valid(h: Shared, call: Invocation) {
    && 1 <= call.asOf <= |h.stored|
    && call.cb == h.stored[call.asOf - 1].0
    && call.ctx == Some(h.stored[call.asOf - 1].1)
  }

  /** Each invocation called the callback stored last, with its own context, and no callback is called twice. */
  ghost predicate History(h: Shared) {
    && (forall k | 0 <= k < |h.invoked| :: Valid(h, h.invoked[k]))
    && (forall j, k | 0 <= j < k < |h.invoked| :: h.invoked[j].asOf < h.invoked[k].asOf)
  }

  /** Between updates: the last stored callback is there with its context, or it has been invoked and neither is. */
  ghost predicate Consistent(h: Shared) {
    if h.cb.None? then h.ctx.None? && LastAsOf(h) == |h.stored|
    else
      && h.stored != [] && LastAsOf(h) < |h.stored|
      && (h.cb.value, h.ctx) == (h.stored[|h.stored| - 1].0, Some(h.stored[|h.stored| - 1].1))
  }

  /** What the fields are while the owner of CONFIGURATION is at `x`. */
  ghost predicate Pending(h: Shared, x: Pc) {
    match x
    case InStart(StoreContext, cb, _, _) => h.cb == Some(cb)
    case InStart(at, _, _, ticket) =>
      Consistent(h) && (at == LockThreaded || at == StartAt.Check || at == Launch ==> ticket == |h.stored|)
    case InNotify(ClearCb, _, _, _) => LastAsOf(h) == |h.stored|
    case InNotify(ClearContext, _, _, _) => h.cb == None && LastAsOf(h) == |h.stored|
    case _ => Consistent(h)
  }

  lemma LastIsValid(h: Shared)
    requires History(h)
    ensures LastAsOf(h) <= |h.stored|
    ensures forall k | 0 <= k < |h.invoked| :: h.invoked[k].asOf <= LastAsOf(h)
  {
  }

  lemma StoreKeepsHistory(h: Shared, h': Shared, entry: (nat, nat))
    requires History(h) && h'.invoked == h.invoked && h'.stored == h.stored + [entry]
    ensures History(h')
  {
    forall k | 0 <= k < |h'.invoked| ensures Valid(h', h'.invoked[k]) {
      assert Valid(h, h.invoked[k]);
    }
  }

  lemma SameHistory(h: Shared, h': Shared)
    requires (h'.stored, h'.invoked) == (h.stored, h.invoked) && History(h)
    ensures History(h') && LastAsOf(h') == LastAsOf(h)
  {
    assert forall k | 0 <= k < |h.invoked| :: Valid(h, h.invoked[k]);
  }

  lemma StartKeepsHistory(h: Shared, t: Tid, pc: Pc, c: Choice)
    requires pc.InStart? && !Start(h, t, pc, c).Blocked? && History(h)
    ensures History(Start(h, t, pc, c).sh)
  {
    var h' := Start(h, t, pc, c).sh;
    if pc.start == StoreContext {
      StoreKeepsHistory(h, h', (pc.cb, pc.ctx));
    } else {
      SameHistory(h, h');
    }
  }

  lemma StoringKeepsPending(h: Shared, t: Tid, pc: Pc, c: Choice)
    requires pc.InStart? && (pc.start == StoreCb || pc.start == StoreContext)
    requires Pending(h, pc) && LastAsOf(h) <= |h.stored|
    ensures var m := Start(h, t, pc, c); m.To? && LocksAt(m.pc).configuration && Pending(m.sh, m.pc)
  {
  }

  lemma StartedKeepsPending(h: Shared, t: Tid, pc: Pc, c: Choice, x: Pc)
    requires pc.InStart? && pc.start != StoreCb && pc.start != StoreContext && !Start(h, t, pc, c).Blocked?
    requires Pending(h, Before(pc, LocksAt(pc).configuration, LocksAt(Start(h, t, pc, c).pc).configuration, x))
    ensures var m := Start(h, t, pc, c);
      Pending(m.sh, After(m.pc, LocksAt(pc).configuration, LocksAt(m.pc).configuration, x))
  {
    var m := Start(h, t, pc, c);
    assert (m.sh.cb, m.sh.ctx, m.sh.stored, m.sh.invoked) == (h.cb, h.ctx, h.stored, h.invoked);
  }

  lemma StartKeepsPending(h: Shared, t: Tid, pc: Pc, c: Choice, x: Pc)
    requires pc.InStart? && !Start(h, t, pc, c).Blocked? && LastAsOf(h) <= |h.stored|
    requires Pending(h, Before(pc, LocksAt(pc).configuration, LocksAt(Start(h, t, pc, c).pc).configuration, x))
    ensures var m := Start(h, t, pc, c);
      Pending(m.sh, After(m.pc, LocksAt(pc).configuration, LocksAt(m.pc).configuration, x))
  {
    if pc.start == StoreCb || pc.start == StoreContext {
      StoringKeepsPending(h, t, pc, c);
    } else {
      StartedKeepsPending(h, t, pc, c, x);
    }
  }

  lemma InvokeKeepsHistory(h: Shared, h': Shared, call: Invocation)
    requires History(h) && Consistent(h) && h.cb.Some?
    requires h'.stored == h.stored && h'.invoked == h.invoked + [call]
    requires (call.cb, call.ctx, call.asOf) == (h.cb.value, h.ctx, |h.stored|)
    ensures History(h')
  {
    LastIsValid(h);
    assert forall k | 0 <= k < |h.invoked| :: Valid(h, h.invoked[k]) && h'.invoked[k] == h.invoked[k];
  }

  lemma NotifyKeepsHistory(h: Shared, t: Tid, pc: Pc)
    requires pc.InNotify? && !Notify(h, t, pc).Blocked? && History(h)
    requires pc.notify == Invoke ==> Consistent(h)
    ensures History(Notify(h, t, pc).sh)
  {
    var h' := Notify(h, t, pc).sh;
    if pc.notify == Invoke && h.cb.Some? {
      InvokeKeepsHistory(h, h', Invocation(h.cb.value, h.ctx, pc.proxies, |h.stored|, t));
    } else {
      SameHistory(h, h');
    }
  }

  lemma InvokingKeepsPending(h: Shared, t: Tid, pc: Pc)
    requires pc.InNotify? && (pc.notify == Invoke || pc.notify == ClearCb || pc.notify == ClearContext)
    requires Pending(h, pc)
    ensures var m := Notify(h, t, pc); m.To? && LocksAt(m.pc).configuration && Pending(m.sh, m.pc)
  {
  }

  lemma PassingKeepsPending(h: Shared, t: Tid, pc: Pc, x: Pc)
    requires pc.InNotify? && pc.notify != Invoke && pc.notify != ClearCb && pc.notify != ClearContext
    requires !Notify(h, t, pc).Blocked?
    requires Pending(h, Before(pc, LocksAt(pc).configuration, LocksAt(Notify(h, t, pc).pc).configuration, x))
    ensures var m := Notify(h, t, pc);
      Pending(m.sh, After(m.pc, LocksAt(pc).configuration, LocksAt(m.pc).configuration, x))
  {
    var m := Notify(h, t, pc);
    assert (m.sh.cb, m.sh.ctx, m.sh.stored, m.sh.invoked) == (h.cb, h.ctx, h.stored, h.invoked);
  }

  lemma NotifyKeepsPending(h: Shared, t: Tid, pc: Pc, x: Pc)
    requires pc.InNotify? && !Notify(h, t, pc).Blocked?
    requires Pending(h, Before(pc, LocksAt(pc).configuration, LocksAt(Notify(h, t, pc).pc).configuration, x))
    ensures var m := Notify(h, t, pc);
      Pending(m.sh, After(m.pc, LocksAt(pc).configuration, LocksAt(m.pc).configuration, x))
  {
    if pc.notify == Invoke || pc.notify == ClearCb || pc.notify == ClearContext {
      InvokingKeepsPending(h, t, pc);
    } else {
      PassingKeepsPending(h, t, pc, x);
    }
  }

  lemma OthersKeepPending(h: Shared, t: Tid, pc: Pc, u: bool, c: Choice)
    requires !pc.InStart? && !pc.InNotify? && !Act(h, t, pc, u, c).Blocked?
    ensures var m := Act(h, t, pc, u, c);
      && !LocksAt(pc).configuration && !LocksAt(m.pc).configuration
      && (m.sh.cb, m.sh.ctx, m.sh.stored, m.sh.invoked) == (h.cb, h.ctx, h.stored, h.invoked)
  {
  }

  lemma SamePending(h: Shared, h': Shared, x: Pc)
    requires (h'.cb, h'.ctx, h'.stored, h'.invoked) == (h.cb, h.ctx, h.stored, h.invoked)
    requires Pending(h, x)
    ensures Pending(h', x)
  {
  }

  lemma ActKeepsPending(h: Shared, t: Tid, pc: Pc, u: bool, c: Choice, x: Pc)
    requires !Act(h, t, pc, u, c).Blocked? && History(h)
    requires Pending(h, Before(pc, LocksAt(pc).configuration, LocksAt(Act(h, t, pc, u, c).pc).configuration, x))
    ensures var m := Act(h, t, pc, u, c);
      History(m.sh) && Pending(m.sh, After(m.pc, LocksAt(pc).configuration, LocksAt(m.pc).configuration, x))
  {
    if pc.InStart? {
      LastIsValid(h);
      StartKeepsHistory(h, t, pc, c);
      StartKeepsPending(h, t, pc, c, x);
    } else if pc.InNotify? {
      NotifyKeepsHistory(h, t, pc);
      NotifyKeepsPending(h, t, pc, x);
    } else {
      OthersKeepPending(h, t, pc, u, c);
      SameHistory(h, Act(h, t, pc, u, c).sh);
      SamePending(h, Act(h, t, pc, u, c).sh, x);
    }
  }

  lemma PendingStep(s: State, t: Tid, c: Choice, s': State)
    requires Ownership(s) && Step(s, t, c, s') && Ownership(s')
    requires History(s.sh) && Pending(s.sh, Owner(s, CONFIGURATION))
    ensures History(s'.sh) && Pending(s'.sh, Owner(s', CONFIGURATION))
  {
    StepMoves(s, t, c, s');
    OwnerMoves(s, t, s'.pcs[t], s', CONFIGURATION);
    ActKeepsPending(s.sh, t, s.pcs[t], StartUnderWay(s), c, Owner(s, CONFIGURATION));
  }

  // ----- the engine list, protected by ENGINE -----

  /** What the shared engine list is while its owner is at `x`: only what that one thread's methods found. */
  ghost predicate EngineHolds(h: Shared, x: Pc) {
    x.InDiscover? ==>
      var flat := Concat(x.found);
      match x.discover
      case Find => !x.cancelled && x.i == 0 && |x.found| <= 4 && h.engine == flat
      case Normalize =>
        && !x.cancelled && |x.found| == 4 && x.i <= |h.engine| == |flat|
        && NormalizedAll(flat[..x.i], h.engine[..x.i]) && h.engine[x.i..] == flat[x.i..]
      case Get => if x.cancelled then h.engine == [] else |x.found| == 4 && NormalizedAll(flat, h.engine)
      case _ => true
  }

  /** All or nothing: the full concatenation of one thread's own findings, normalised, or nothing when cancelled. */
  ghost predicate Whole(d: Delivery) {
    if d.cancelled then d.list == [] else |d.found| == 4 && NormalizedAll(Concat(d.found), d.list)
  }

  ghost predicate Deliveries(h: Shared) {
    forall d <- h.delivered :: Whole(d)
  }

  lemma FindKeepsEngine(h: Shared, t: Tid, pc: Pc, c: Choice)
    requires pc.InDiscover? && pc.discover == Find && !Discover(h, t, pc, c).Blocked?
    requires EngineHolds(h, pc)
    ensures var m := Discover(h, t, pc, c);
      m.To? && LocksAt(m.pc).engine && m.sh.delivered == h.delivered && EngineHolds(m.sh, m.pc)
  {
    if c.FindList? {
      ConcatSnoc(pc.found, c.list);
    }
  }

  lemma NormalizeKeepsEngine(h: Shared, t: Tid, pc: Pc, c: Choice)
    requires pc.InDiscover? && pc.discover == Normalize && EngineHolds(h, pc)
    ensures var m := Discover(h, t, pc, c);
      m.To? && LocksAt(m.pc).engine && m.sh.delivered == h.delivered && EngineHolds(m.sh, m.pc)
  {
    var flat := Concat(pc.found);
    if pc.i < |h.engine| {
      assert h.engine[pc.i] == flat[pc.i..][0];
      NormalizedSnoc(flat, h.engine, pc.i, NormalizeOne(flat[pc.i]));
    } else {
      assert flat[..pc.i] == flat && h.engine[..pc.i] == h.engine;
    }
  }

  lemma GetKeepsEngine(h: Shared, t: Tid, pc: Pc, c: Choice)
    requires pc.InDiscover? && pc.discover == Get && EngineHolds(h, pc) && Deliveries(h)
    ensures var m := Discover(h, t, pc, c);
      m.To? && LocksAt(m.pc).engine && Deliveries(m.sh) && EngineHolds(m.sh, m.pc)
  {
  }

  /** Taking the mutex, clearing the list and giving the mutex back. */
  lemma EdgesKeepEngine(h: Shared, t: Tid, pc: Pc, c: Choice, x: Pc)
    requires pc.InDiscover? && !Discover(h, t, pc, c).Blocked?
    requires pc.discover != Find && pc.discover != Normalize && pc.discover != Get
    requires EngineHolds(h, Before(pc, LocksAt(pc).engine, LocksAt(Discover(h, t, pc, c).pc).engine, x))
    ensures var m := Discover(h, t, pc, c);
      m.sh.delivered == h.delivered && EngineHolds(m.sh, After(m.pc, LocksAt(pc).engine, LocksAt(m.pc).engine, x))
  {
  }

  lemma DiscoverKeepsEngine(h: Shared, t: Tid, pc: Pc, c: Choice, x: Pc)
    requires pc.InDiscover? && !Discover(h, t, pc, c).Blocked?
    requires var had, has := LocksAt(pc).engine, LocksAt(Discover(h, t, pc, c).pc).engine;
      Deliveries(h) && EngineHolds(h, Before(pc, had, has, x))
    ensures var m := Discover(h, t, pc, c);
      var had, has := LocksAt(pc).engine, LocksAt(m.pc).engine;
      Deliveries(m.sh) && EngineHolds(m.sh, After(m.pc, had, has, x))
  {
    if pc.discover == Find {
      FindKeepsEngine(h, t, pc, c);
    } else if pc.discover == Normalize {
      NormalizeKeepsEngine(h, t, pc, c);
    } else if pc.discover == Get {
      GetKeepsEngine(h, t, pc, c);
    } else {
      EdgesKeepEngine(h, t, pc, c, x);
    }
  }

  lemma OthersKeepEngine(h: Shared, t: Tid, pc: Pc, u: bool, c: Choice)
    requires !pc.InDiscover? && !Act(h, t, pc, u, c).Blocked?
    ensures var m := Act(h, t, pc, u, c);
      && !LocksAt(pc).engine && !LocksAt(m.pc).engine
      && (m.sh.engine, m.sh.delivered) == (h.engine, h.delivered)
  {
  }

  lemma EngineStep(s: State, t: Tid, c: Choice, s': State)
    requires Ownership(s) && Step(s, t, c, s') && Ownership(s')
    requires Deliveries(s.sh) && EngineHolds(s.sh, Owner(s, ENGINE))
    ensures Deliveries(s'.sh) && EngineHolds(s'.sh, Owner(s', ENGINE))
  {
    var pc := s.pcs[t];
    StepMoves(s, t, c, s');
    OwnerMoves(s, t, s'.pcs[t], s', ENGINE);
    if pc.InDiscover? {
      DiscoverKeepsEngine(s.sh, t, pc, c, Owner(s, ENGINE));
    } else {
      OthersKeepEngine(s.sh, t, pc, StartUnderWay(s), c);
    }
  }

  // ----- the registry, protected by CONSUMERS -----

  predicate AtConfiguration(at: NotifyAt) {
    at == LockConfig || at == Invoke || at == ClearCb || at == ClearContext || at == UnlockConfig
  }

  /** While a pass is at the configuration's own consumer, that is the consumer it is at. */
  ghost predicate PassHolds(h: Shared, x: Pc) {
    && Distinct(h.consumers)
    && (x.InNotify? ==> x.index <= |h.consumers|)
    && (x.InNotify? && AtConfiguration(x.notify) ==>
          x.index < |h.consumers| && h.consumers[x.index] == Configuration)
  }

  /** A pass that has yet to take the registry's mutex is at its beginning. */
  predicate FromTheStart(pc: Pc) {
    pc.InNotify? && pc.notify == NotifyAt.Lock ==> pc.index == 0
  }

  ghost predicate PassesBegin(s: State) {
    forall t <- s.pcs :: FromTheStart(s.pcs[t])
  }

  lemma ActBegins(h: Shared, t: Tid, pc: Pc, u: bool, c: Choice)
    requires FromTheStart(pc) && !Act(h, t, pc, u, c).Blocked?
    ensures FromTheStart(Act(h, t, pc, u, c).pc)
  {
  }

  lemma PassesBeginStep(s: State, t: Tid, c: Choice, s': State)
    requires Step(s, t, c, s') && PassesBegin(s)
    ensures PassesBegin(s')
  {
    ActBegins(s.sh, t, s.pcs[t], StartUnderWay(s), c);
  }

  lemma NotifyKeepsPass(h: Shared, t: Tid, pc: Pc, x: Pc)
    requires pc.InNotify? && !Notify(h, t, pc).Blocked? && FromTheStart(pc)
    requires var had, has := LocksAt(pc).consumers, LocksAt(Notify(h, t, pc).pc).consumers;
      PassHolds(h, Before(pc, had, has, x))
    ensures var m := Notify(h, t, pc);
      var had, has := LocksAt(pc).consumers, LocksAt(m.pc).consumers;
      PassHolds(m.sh, After(m.pc, had, has, x))
  {
  }

  lemma RegisterKeepsPass(h: Shared, t: Tid, pc: Pc, x: Pc)
    requires pc.InRegister? && !Register(h, t, pc).Blocked?
    requires var had, has := LocksAt(pc).consumers, LocksAt(Register(h, t, pc).pc).consumers;
      PassHolds(h, Before(pc, had, has, x))
    ensures var m := Register(h, t, pc);
      var had, has := LocksAt(pc).consumers, LocksAt(m.pc).consumers;
      PassHolds(m.sh, After(m.pc, had, has, x))
  {
    AddedKeeps(h.consumers, pc.c);
    RemovedKeeps(h.consumers, pc.c);
  }

  lemma OthersKeepPass(h: Shared, t: Tid, pc: Pc, u: bool, c: Choice)
    requires !pc.InNotify? && !pc.InRegister? && !Act(h, t, pc, u, c).Blocked?
    ensures var m := Act(h, t, pc, u, c);
      !LocksAt(pc).consumers && !LocksAt(m.pc).consumers && m.sh.consumers == h.consumers
  {
  }

  lemma PassStep(s: State, t: Tid, c: Choice, s': State)
    requires Ownership(s) && Step(s, t, c, s') && Ownership(s')
    requires PassHolds(s.sh, Owner(s, CONSUMERS)) && PassesBegin(s)
    ensures PassHolds(s'.sh, Owner(s', CONSUMERS))
  {
    StepMoves(s, t, c, s');
    OwnerMoves(s, t, s'.pcs[t], s', CONSUMERS);
    var pc, x := s.pcs[t], Owner(s, CONSUMERS);
    if pc.InNotify? {
      NotifyKeepsPass(s.sh, t, pc, x);
    } else if pc.InRegister? {
      RegisterKeepsPass(s.sh, t, pc, x);
    } else {
      OthersKeepPass(s.sh, t, pc, StartUnderWay(s), c);
    }
  }

  // ----- the running flag, protected by THREADED -----

  /** The thread that accounts for the running flag: a start about to launch, or a worker that has not cleared it. */
  predicate Active(pc: Pc) {
    match pc
    case InStart(at, _, _, _) => at == Launch
    case InDiscover(_, task, _, _, _, _) => task.Worker?
    case InNotify(_, task, _, _) => task.Worker?
    case InTail(at, _) => at == TailAt.Lock || at == TailAt.Clear
    case _ => false
  }

  ghost predicate OneRunner(s: State) {
    && (s.sh.running <==> s.sh.runner.Some?)
    && (s.sh.runner.Some? ==> s.sh.runner.value in s.pcs)
    && forall t <- s.pcs :: Active(s.pcs[t]) <==> s.sh.runner == Some(t)
  }

  /** What a move does to the running flag and its account. */
  ghost predicate KeepsRunner(h: Shared, t: Tid, pc: Pc, m: Move) {
    && (m.To? ==>
          && (m.sh.running <==> m.sh.runner.Some?)
          && if m.sh.runner == h.runner then Active(m.pc) == Active(pc)
             else if Active(pc) then !Active(m.pc) && m.sh.runner == None
             else Active(m.pc) && h.runner == None && m.sh.runner == Some(t))
    && (m.Launching? ==> Active(pc) && !Active(m.pc) && m.sh.running && m.sh.runner == Some(m.worker))
  }

  /** Only a start at its check takes the flag; only the runner gives it up or hands it to the worker it launches. */
  lemma StartKeepsRunner(h: Shared, t: Tid, pc: Pc, c: Choice)
    requires pc.InStart?
    requires h.running <==> h.runner.Some?
    requires Active(pc) <==> h.runner == Some(t)
    ensures KeepsRunner(h, t, pc, Start(h, t, pc, c))
  {
  }

  lemma DiscoverKeepsRunner(h: Shared, t: Tid, pc: Pc, c: Choice)
    requires pc.InDiscover?
    requires h.running <==> h.runner.Some?
    requires Active(pc) <==> h.runner == Some(t)
    ensures KeepsRunner(h, t, pc, Discover(h, t, pc, c))
  {
  }

  lemma OthersKeepRunner(h: Shared, t: Tid, pc: Pc, u: bool, c: Choice)
    requires !pc.InStart? && !pc.InDiscover?
    requires h.running <==> h.runner.Some?
    requires Active(pc) <==> h.runner == Some(t)
    ensures KeepsRunner(h, t, pc, Act(h, t, pc, u, c))
  {
  }

  lemma RunnerStep(s: State, t: Tid, c: Choice, s': State)
    requires Step(s, t, c, s') && OneRunner(s)
    ensures OneRunner(s')
  {
    if s.pcs[t].InStart? {
      StartKeepsRunner(s.sh, t, s.pcs[t], c);
    } else if s.pcs[t].InDiscover? {
      DiscoverKeepsRunner(s.sh, t, s.pcs[t], c);
    } else {
      OthersKeepRunner(s.sh, t, s.pcs[t], StartUnderWay(s), c);
    }
  }

  // ----- destruction -----

  /** About to give m_mutex back, as a worker or as a start: the last access to the object. */
  predicate LastUnlock(pc: Pc) {
    (pc.InTail? && pc.tail == TailAt.Unlock) || (pc.InStart? && pc.start == UnlockThreaded)
  }

  /** Nobody else has the running flag or the mutex left to give back. */
  ghost predicate NoWorkerLeft(s: State) {
    s.sh.shutdown && s.sh.runner == None && forall t <- s.pcs :: !LastUnlock(s.pcs[t])
  }

  predicate PastLoop(pc: Pc) {
    pc.InDestroy? && (pc.destroy == DestroyAt.Unlock || pc.destroy == Done)
  }

  /** No start has its check before it once destruction began; past the destructor's loop nobody is left. */
  ghost predicate Destruction(s: State) {
    && (s.sh.shutdown ==> forall t <- s.pcs :: !Early(s.pcs[t]))
    && (forall t <- s.pcs :: s.pcs[t].InDestroy? ==> s.sh.shutdown)
    && ((exists d <- s.pcs :: PastLoop(s.pcs[d])) ==> NoWorkerLeft(s))
  }

  /** What a move does while the object may be going away. */
  ghost predicate KeepsDestruction(h: Shared, pc: Pc, u: bool, m: Move) {
    !m.Blocked? ==>
      && (h.shutdown ==> m.sh.shutdown)
      && (m.sh.shutdown && !h.shutdown ==> !u && !Early(m.pc))
      && (h.shutdown && !Early(pc) ==> !Early(m.pc))
      && (m.pc.InDestroy? ==> m.sh.shutdown)
      && (PastLoop(m.pc) && !PastLoop(pc) ==> LocksAt(pc).threaded && m.sh.runner == None && h.runner == None)
      && (h.runner == None && !Early(pc) ==> m.sh.runner == None && m.To? && !LastUnlock(m.pc))
  }

  lemma StartInDestruction(h: Shared, t: Tid, pc: Pc, u: bool, c: Choice)
    requires pc.InStart?
    requires Active(pc) <==> h.runner == Some(t)
    ensures KeepsDestruction(h, pc, u, Start(h, t, pc, c))
  {
  }

  lemma DestroyInDestruction(h: Shared, t: Tid, pc: Pc, u: bool)
    requires pc.InDestroy? && h.shutdown
    requires h.running <==> h.runner.Some?
    ensures KeepsDestruction(h, pc, u, Destroy(h, t, pc))
  {
  }

  lemma DiscoverInDestruction(h: Shared, t: Tid, pc: Pc, u: bool, c: Choice)
    requires pc.InDiscover?
    ensures KeepsDestruction(h, pc, u, Discover(h, t, pc, c))
  {
  }

  lemma OthersInDestruction(h: Shared, t: Tid, pc: Pc, u: bool, c: Choice)
    requires !pc.InStart? && !pc.InDestroy? && !pc.InDiscover?
    requires Active(pc) <==> h.runner == Some(t)
    ensures KeepsDestruction(h, pc, u, Act(h, t, pc, u, c))
  {
  }

  lemma ActInDestruction(h: Shared, t: Tid, pc: Pc, u: bool, c: Choice)
    requires pc.InDestroy? ==> h.shutdown
    requires h.running <==> h.runner.Some?
    requires Active(pc) <==> h.runner == Some(t)
    ensures KeepsDestruction(h, pc, u, Act(h, t, pc, u, c))
  {
    if pc.InStart? {
      StartInDestruction(h, t, pc, u, c);
    } else if pc.InDestroy? {
      DestroyInDestruction(h, t, pc, u);
    } else if pc.InDiscover? {
      DiscoverInDestruction(h, t, pc, u, c);
    } else {
      OthersInDestruction(h, t, pc, u, c);
    }
  }

  /** With m_mutex in its own hands and nobody running, the destructor leaves its loop. */
  lemma NobodyUnlocks(s: State, t: Tid)
    requires Ownership(s) && t in s.pcs && LocksAt(s.pcs[t]).threaded && !LastUnlock(s.pcs[t])
    ensures forall u <- s.pcs :: !LastUnlock(s.pcs[u])
  {
    assert Agrees(s.sh.owners, t, LocksAt(s.pcs[t]));
    forall u <- s.pcs ensures !LastUnlock(s.pcs[u]) {
      assert Agrees(s.sh.owners, u, LocksAt(s.pcs[u]));
    }
  }

  lemma DestructionStep(s: State, t: Tid, c: Choice, s': State)
    requires Ownership(s) && OneRunner(s) && Destruction(s) && Step(s, t, c, s')
    ensures Destruction(s')
  {
    var pc := s.pcs[t];
    ActInDestruction(s.sh, t, pc, StartUnderWay(s), c);
    if exists d <- s'.pcs :: PastLoop(s'.pcs[d]) {
      if exists d <- s.pcs :: PastLoop(s.pcs[d]) {
      } else {
        assert PastLoop(s'.pcs[t]);
        NobodyUnlocks(s, t);
      }
    }
  }

  // ----- tickets -----

  function TicketOf(pc: Pc): nat {
    match pc
    case InStart(_, _, _, ticket) => ticket
    case InDiscover(_, Worker(ticket), _, _, _, _) => ticket
    case InNotify(_, Worker(ticket), _, _) => ticket
    case InTail(_, ticket) => ticket
    case _ => 0
  }

  /** A start that has stored its callback, and the worker it launches. */
  predicate Ticketed(pc: Pc) {
    match pc
    case InStart(at, _, _, _) => at != StartAt.Lock && at != StoreCb && at != StoreContext
    case InDiscover(_, task, _, _, _, _) => task.Worker?
    case InNotify(_, task, _, _) => task.Worker?
    case InTail(_, _) => true
    case _ => false
  }

  ghost predicate TicketsStored(s: State) {
    forall t <- s.pcs :: Ticketed(s.pcs[t]) ==> 1 <= TicketOf(s.pcs[t]) <= |s.sh.stored|
  }

  ghost predicate KeepsTicket(h: Shared, pc: Pc, m: Move) {
    !m.Blocked? ==>
      && |h.stored| <= |m.sh.stored|
      && (Ticketed(m.pc) ==> 1 <= TicketOf(m.pc) <= |m.sh.stored|)
      && (m.Launching? ==> pc.InStart? && Ticketed(pc))
  }

  lemma StartKeepsTicket(h: Shared, t: Tid, pc: Pc, c: Choice)
    requires pc.InStart? && (Ticketed(pc) ==> 1 <= TicketOf(pc) <= |h.stored|)
    ensures KeepsTicket(h, pc, Start(h, t, pc, c))
  {
  }

  lemma DiscoverKeepsTicket(h: Shared, t: Tid, pc: Pc, c: Choice)
    requires pc.InDiscover? && (Ticketed(pc) ==> 1 <= TicketOf(pc) <= |h.stored|)
    ensures KeepsTicket(h, pc, Discover(h, t, pc, c))
  {
  }

  lemma OthersKeepTicket(h: Shared, t: Tid, pc: Pc, u: bool, c: Choice)
    requires !pc.InStart? && !pc.InDiscover? && (Ticketed(pc) ==> 1 <= TicketOf(pc) <= |h.stored|)
    ensures KeepsTicket(h, pc, Act(h, t, pc, u, c))
  {
  }

  lemma TicketsStep(s: State, t: Tid, c: Choice, s': State)
    requires Step(s, t, c, s') && TicketsStored(s)
    ensures TicketsStored(s')
  {
    if s.pcs[t].InStart? {
      StartKeepsTicket(s.sh, t, s.pcs[t], c);
    } else if s.pcs[t].InDiscover? {
      DiscoverKeepsTicket(s.sh, t, s.pcs[t], c);
    } else {
      OthersKeepTicket(s.sh, t, s.pcs[t], StartUnderWay(s), c);
    }
  }

  // ----- lists -----

  /** The list came out of a discovery of thread `t`. */
  ghost predicate OwnList(h: Shared, t: Tid, list: seq<ProxyInfo>) {
    exists d <- h.delivered :: d.tid == t && d.list == list
  }

  /** The local list of a thread, once its discovery is over. */
  function Carried(pc: Pc): Option<seq<ProxyInfo>> {
    match pc
    case InDiscover(Unlock, _, _, _, _, list) => Some(list)
    case InNotify(_, _, _, list) => Some(list)
    case _ => None
  }

  /** Every list on its way to the consumers, and every list a callback got, is its thread's own. */
  ghost predicate ListsOwn(s: State) {
    && (forall t <- s.pcs :: Carried(s.pcs[t]).Some? ==> OwnList(s.sh, t, Carried(s.pcs[t]).value))
    && (forall call <- s.sh.invoked :: OwnList(s.sh, call.tid, call.list))
  }

  /** A move of thread `t` keeps the history of lists, hands on only its own, and calls back only with its own. */
  ghost predicate KeepsLists(h: Shared, t: Tid, pc: Pc, m: Move)
    requires !m.Blocked?
  {
    && h.delivered <= m.sh.delivered
    && (Carried(m.pc).Some? ==> OwnList(m.sh, t, Carried(m.pc).value))
    && (m.sh.invoked == h.invoked ||
        (exists call :: m.sh.invoked == h.invoked + [call] && call.tid == t && Carried(pc) == Some(call.list)))
  }

  lemma DiscoverKeepsLists(h: Shared, t: Tid, pc: Pc, c: Choice)
    requires pc.InDiscover? && !Discover(h, t, pc, c).Blocked?
    requires Carried(pc).Some? ==> OwnList(h, t, Carried(pc).value)
    ensures KeepsLists(h, t, pc, Discover(h, t, pc, c))
  {
    var m := Discover(h, t, pc, c);
    if pc.discover == Get {
      assert m.sh.delivered[|h.delivered|] in m.sh.delivered;
    }
  }

  lemma NotifyKeepsLists(h: Shared, t: Tid, pc: Pc)
    requires pc.InNotify? && !Notify(h, t, pc).Blocked? && OwnList(h, t, pc.proxies)
    ensures KeepsLists(h, t, pc, Notify(h, t, pc))
  {
  }

  lemma OthersKeepLists(h: Shared, t: Tid, pc: Pc, u: bool, c: Choice)
    requires !pc.InDiscover? && !pc.InNotify? && !Act(h, t, pc, u, c).Blocked?
    ensures KeepsLists(h, t, pc, Act(h, t, pc, u, c))
  {
  }

  lemma ActKeepsLists(h: Shared, t: Tid, pc: Pc, u: bool, c: Choice)
    requires Carried(pc).Some? ==> OwnList(h, t, Carried(pc).value)
    requires !Act(h, t, pc, u, c).Blocked?
    ensures KeepsLists(h, t, pc, Act(h, t, pc, u, c))
  {
    if pc.InDiscover? {
      DiscoverKeepsLists(h, t, pc, c);
    } else if pc.InNotify? {
      NotifyKeepsLists(h, t, pc);
    } else {
      OthersKeepLists(h, t, pc, u, c);
    }
  }

  lemma OwnListLasts(h: Shared, h': Shared, t: Tid, list: seq<ProxyInfo>)
    requires h.delivered <= h'.delivered && OwnList(h, t, list)
    ensures OwnList(h', t, list)
  {
    var d :| d in h.delivered && d.tid == t && d.list == list;
    assert d in h'.delivered;
  }

  lemma ListsStep(s: State, t: Tid, c: Choice, s': State)
    requires Step(s, t, c, s') && ListsOwn(s)
    ensures ListsOwn(s')
  {
    ActKeepsLists(s.sh, t, s.pcs[t], StartUnderWay(s), c);
    forall u <- s'.pcs | Carried(s'.pcs[u]).Some? ensures OwnList(s'.sh, u, Carried(s'.pcs[u]).value) {
      if u != t {
        OwnListLasts(s.sh, s'.sh, u, Carried(s'.pcs[u]).value);
      }
    }
    forall call <- s'.sh.invoked ensures OwnList(s'.sh, call.tid, call.list) {
      if call in s.sh.invoked {
        OwnListLasts(s.sh, s'.sh, call.tid, call.list);
      } else {
        OwnListLasts(s.sh, s'.sh, t, call.list);
      }
    }
  }

  // ----- cancellation -----

  /** A discovery is cancelled only once a shutdown has been requested. */
  ghost predicate CancelsMean(s: State) {
    && (forall t <- s.pcs :: s.pcs[t].InDiscover? && s.pcs[t].cancelled ==> s.sh.shutdown)
    && (forall d <- s.sh.delivered :: d.cancelled ==> s.sh.shutdown)
  }

  ghost predicate KeepsCancels(h: Shared, m: Move)
    requires !m.Blocked?
  {
    && (h.shutdown ==> m.sh.shutdown)
    && (m.pc.InDiscover? && m.pc.cancelled ==> m.sh.shutdown)
    && (m.sh.delivered == h.delivered
        || exists d :: m.sh.delivered == h.delivered + [d] && (d.cancelled ==> m.sh.shutdown))
  }

  lemma DiscoverKeepsCancels(h: Shared, t: Tid, pc: Pc, c: Choice)
    requires pc.InDiscover? && (pc.cancelled ==> h.shutdown) && !Discover(h, t, pc, c).Blocked?
    ensures KeepsCancels(h, Discover(h, t, pc, c))
  {
  }

  lemma OthersKeepCancels(h: Shared, t: Tid, pc: Pc, u: bool, c: Choice)
    requires !pc.InDiscover? && !Act(h, t, pc, u, c).Blocked?
    ensures KeepsCancels(h, Act(h, t, pc, u, c))
  {
  }

  lemma CancelsStep(s: State, t: Tid, c: Choice, s': State)
    requires CancelsMean(s) && Step(s, t, c, s')
    ensures CancelsMean(s')
  {
    if s.pcs[t].InDiscover? {
      DiscoverKeepsCancels(s.sh, t, s.pcs[t], c);
    } else {
      OthersKeepCancels(s.sh, t, s.pcs[t], StartUnderWay(s), c);
    }
  }

  // ----- the invariant along every run -----

  ghost predicate Inv(s: State) {
    && Ownership(s)
    && History(s.sh) && Pending(s.sh, Owner(s, CONFIGURATION))
    && Deliveries(s.sh) && EngineHolds(s.sh, Owner(s, ENGINE))
    && PassHolds(s.sh, Owner(s, CONSUMERS)) && PassesBegin(s)
    && OneRunner(s) && Destruction(s) && TicketsStored(s) && ListsOwn(s) && CancelsMean(s)
  }

  lemma InvInit(s: State)
    requires Init(s)
    ensures Inv(s)
  {
  }

  lemma InvStep(s: State, t: Tid, c: Choice, s': State)
    requires Inv(s) && Step(s, t, c, s')
    ensures Inv(s')
  {
    StepMoves(s, t, c, s');
    OwnershipStep(s, t, s'.pcs[t], s');
    PendingStep(s, t, c, s');
    EngineStep(s, t, c, s');
    PassStep(s, t, c, s');
    PassesBeginStep(s, t, c, s');
    RunnerStep(s, t, c, s');
    DestructionStep(s, t, c, s');
    TicketsStep(s, t, c, s');
    ListsStep(s, t, c, s');
    CancelsStep(s, t, c, s');
  }

  lemma InvNext(s: State, s': State)
    requires Inv(s) && Next(s, s')
    ensures Inv(s')
  {
    var t, c :| Step(s, t, c, s');
    InvStep(s, t, c, s');
  }

  lemma {:induction false} InvAlongRun(r: seq<State>, i: nat)
    requires Run(r) && i < |r|
    ensures Inv(r[i])
  {
    if i == 0 {
      InvInit(r[0]);
    } else {
      InvAlongRun(r, i - 1);
      assert Link(Next, r, i - 1);
      InvNext(r[i - 1], r[i]);
    }
  }

  // ----- what the invariant gives -----

  /**
   * Single worker: whenever m_mutex is free, the running flag holds exactly when some launched worker
   * has not yet cleared it; and no two such workers ever coexist, free or not.
   */
  lemma SingleWorker(r: seq<State>, i: nat)
    requires Run(r) && i < |r|
    ensures r[i].sh.owners.threaded == Free ==>
      (r[i].sh.running <==> exists w <- r[i].pcs :: Active(r[i].pcs[w]) && !r[i].pcs[w].InStart?)
    ensures forall v, w | v in r[i].pcs && w in r[i].pcs && Active(r[i].pcs[v]) && Active(r[i].pcs[w]) :: v == w
  {
    InvAlongRun(r, i);
    var s := r[i];
    if s.sh.running {
      var w := s.sh.runner.value;
      assert Active(s.pcs[w]) && Agrees(s.sh.owners, w, LocksAt(s.pcs[w]));
    }
  }

  predicate WorkerLeft(pc: Pc) {
    (Active(pc) && !pc.InStart?) || (pc.InTail? && pc.tail == TailAt.Unlock)
  }

  /**
   * The destructor's loop is left only when no worker is left and none comes back; a start that is still under way
   * has given m_mutex back.
   */
  lemma DestructorWaits(r: seq<State>, i: nat, d: Tid)
    requires Run(r) && i < |r| && d in r[i].pcs && PastLoop(r[i].pcs[d])
    ensures forall w <- r[i].pcs :: !WorkerLeft(r[i].pcs[w])
    ensures forall w <- r[i].pcs :: r[i].pcs[w].InStart? ==> r[i].pcs[w].start == StartAt.Unlock
  {
    InvAlongRun(r, i);
  }

  /** No callback is invoked twice; each is invoked with its own context, as the latest one stored at that time. */
  lemma CallbackSafety(r: seq<State>, i: nat)
    requires Run(r) && i < |r|
    ensures forall k | 0 <= k < |r[i].sh.invoked| :: Valid(r[i].sh, r[i].sh.invoked[k])
    ensures forall j, k | 0 <= j < k < |r[i].sh.invoked| :: r[i].sh.invoked[j].asOf < r[i].sh.invoked[k].asOf
  {
    InvAlongRun(r, i);
  }

  /** With the mutex free, the fields are those of the callback stored last, or both empty once that has been invoked. */
  lemma FieldsMatch(r: seq<State>, i: nat)
    requires Run(r) && i < |r| && r[i].sh.owners.configuration == Free
    ensures var h := r[i].sh;
      if h.cb.None? then h.ctx.None? && LastAsOf(h) == |h.stored|
      else h.stored != [] && LastAsOf(h) < |h.stored|
           && h.cb == Some(h.stored[|h.stored| - 1].0) && h.ctx == Some(h.stored[|h.stored| - 1].1)
  {
    InvAlongRun(r, i);
  }

  /**
   * Discovery is atomic and all-or-nothing: every list handed out is whole, none is cut short without a shutdown
   * request, and the list a callback gets was handed to the very thread that calls it.
   */
  lemma DiscoveryWhole(r: seq<State>, i: nat)
    requires Run(r) && i < |r|
    ensures forall d <- r[i].sh.delivered :: Whole(d) && (d.cancelled ==> r[i].sh.shutdown)
    ensures forall call <- r[i].sh.invoked :: OwnList(r[i].sh, call.tid, call.list)
  {
    InvAlongRun(r, i);
  }

  // ----- deadlock freedom -----

  function Rank(m: Mutex): nat {
    match m
    case CONSUMERS => 0
    case CONFIGURATION => 1
    case THREADED => 2
    case ENGINE => 3
  }

  /** Locks are only nested upwards, and the engine's is only ever held alone. */
  lemma LocksAreOrdered(pc: Pc, held: Mutex, wanted: Mutex)
    requires LocksAt(pc).Get(held)
    ensures Wants(pc) == Some(wanted) ==> Rank(held) < Rank(wanted)
    ensures held == ENGINE ==> LocksAt(pc) == Locks(false, false, false, true) && Wants(pc) == None
    ensures !AtRest(pc)
  {
  }

  ghost predicate Waiting(s: State, t: Tid)
    requires t in s.pcs
  {
    Wants(s.pcs[t]).Some? && s.sh.owners.Get(Wants(s.pcs[t]).value).By?
  }

  /** Following from owner to owner what thread `t` waits for, up to a thread that does not wait. */
  ghost function Root(s: State, t: Tid): (u: Tid)
    requires Ownership(s) && t in s.pcs
    ensures u in s.pcs && !Waiting(s, u)
    ensures !AtRest(s.pcs[t]) ==> !AtRest(s.pcs[u])
    decreases if Wants(s.pcs[t]).Some? then 4 - Rank(Wants(s.pcs[t]).value) else 0
  {
    if Waiting(s, t) then
      var m := Wants(s.pcs[t]).value;
      var owner := s.sh.owners.Get(m).tid;
      assert Agrees(s.sh.owners, owner, LocksAt(s.pcs[owner]));
      assert Wants(s.pcs[owner]).Some? ==> Rank(m) < Rank(Wants(s.pcs[owner]).value) by {
        if Wants(s.pcs[owner]).Some? { LocksAreOrdered(s.pcs[owner], m, Wants(s.pcs[owner]).value); }
      }
      Root(s, owner)
    else t
  }

  function Unblocking(pc: Pc): Choice {
    if pc.InStart? then SpawnFails else FindList([])
  }

  lemma ReadySteps(s: State, t: Tid)
    requires t in s.pcs && !AtRest(s.pcs[t]) && !Waiting(s, t)
    ensures exists s' :: Step(s, t, Unblocking(s.pcs[t]), s')
  {
    var pc := s.pcs[t];
    var m := Act(s.sh, t, pc, StartUnderWay(s), Unblocking(pc));
    assert m.To?;
    assert Step(s, t, Unblocking(pc), State(s.pcs[t := m.pc], m.sh));
  }

  /**
   * Deadlock freedom: in every reachable state of any number of threads, each thread in the middle of a call
   * can step, or what it waits for leads to a thread in the middle of a call that can.
   */
  lemma DeadlockFree(r: seq<State>, i: nat, t: Tid)
    requires Run(r) && i < |r| && t in r[i].pcs && !AtRest(r[i].pcs[t])
    ensures Ownership(r[i])
    ensures var u := Root(r[i], t);
      !AtRest(r[i].pcs[u]) && exists c, s' :: Step(r[i], u, c, s')
  {
    InvAlongRun(r, i);
    ReadySteps(r[i], Root(r[i], t));
  }
}
