/** Nothing gets stuck for good: from any reachable state some run goes on to the end of any given call. */
module ProxyProgress {
  import opened Options
  import opened Runs
  import opened ProxyInfoModel
  import opened ProxyDiscoveryEngines
  import opened ConsumerRegistry
  import opened ProxyProtocol
  import opened ProxyProtocolProofs

  // ----- one step of one thread -----

  /** What going on from `s` to `s'` keeps. */
  ghost predicate Keeps(s: State, s': State) {
    && Reaches(Next, s, s') && Inv(s') && (s.sh.shutdown ==> s'.sh.shutdown)
    && (forall v <- s.pcs :: v in s'.pcs && (s.pcs[v].InDestroy? ==> s'.pcs[v].InDestroy?))
    && (s.sh.shutdown && s.sh.runner == None ==> s'.sh.runner == None)
  }

  lemma KeepsSelf(s: State)
    requires Inv(s)
    ensures Keeps(s, s)
  {
    Stays(Next, s);
  }

  lemma KeepsMore(s: State, s': State, s'': State)
    requires Keeps(s, s') && Keeps(s', s'')
    ensures Keeps(s, s'')
  {
    Joins(Next, s, s', s'');
  }

  lemma DestroyGoesOn(h: Shared, t: Tid, pc: Pc)
    requires pc.InDestroy? && Destroy(h, t, pc).To?
    ensures Destroy(h, t, pc).pc.InDestroy?
  {
  }

  /** The step of a thread that does not wait, with a thread that cannot be created and methods that find nothing. */
  ghost function Moved(s: State, t: Tid): (m: Move)
    requires t in s.pcs && !AtRest(s.pcs[t]) && !Waiting(s, t)
    ensures m.To?
  {
    Act(s.sh, t, s.pcs[t], StartUnderWay(s), Unblocking(s.pcs[t]))
  }

  ghost function After(s: State, t: Tid): State
    requires t in s.pcs && !AtRest(s.pcs[t]) && !Waiting(s, t)
  {
    State(s.pcs[t := Moved(s, t).pc], Moved(s, t).sh)
  }

  lemma AfterIsStep(s: State, t: Tid)
    requires t in s.pcs && !AtRest(s.pcs[t]) && !Waiting(s, t)
    ensures Step(s, t, Unblocking(s.pcs[t]), After(s, t)) && Next(s, After(s, t))
  {
    assert Step(s, t, Unblocking(s.pcs[t]), After(s, t));
  }

  lemma AfterInvariant(s: State, t: Tid)
    requires Inv(s) && t in s.pcs && !AtRest(s.pcs[t]) && !Waiting(s, t)
    ensures Inv(After(s, t)) && Reaches(Next, s, After(s, t))
  {
    AfterIsStep(s, t);
    InvStep(s, t, Unblocking(s.pcs[t]), After(s, t));
    Stays(Next, s);
    Then(Next, s, s, After(s, t));
  }

  lemma AfterInDestruction(s: State, t: Tid)
    requires Destruction(s) && OneRunner(s) && s.sh.shutdown && t in s.pcs && !AtRest(s.pcs[t]) && !Waiting(s, t)
    ensures After(s, t).sh.shutdown && (s.sh.runner == None ==> After(s, t).sh.runner == None)
  {
    ActInDestruction(s.sh, t, s.pcs[t], StartUnderWay(s), Unblocking(s.pcs[t]));
  }

  /** The others stay where they are, and a destructor stays one. */
  lemma AfterKeepsOthers(s: State, t: Tid)
    requires t in s.pcs && !AtRest(s.pcs[t]) && !Waiting(s, t)
    ensures forall v <- s.pcs :: v in After(s, t).pcs && (v != t ==> After(s, t).pcs[v] == s.pcs[v])
    ensures s.pcs[t].InDestroy? ==> After(s, t).pcs[t].InDestroy?
  {
    if s.pcs[t].InDestroy? {
      DestroyGoesOn(s.sh, t, s.pcs[t]);
    }
  }

  lemma OneStep(s: State, t: Tid)
    requires Inv(s) && t in s.pcs && !AtRest(s.pcs[t]) && !Waiting(s, t)
    ensures Keeps(s, After(s, t))
  {
    AfterInvariant(s, t);
    AfterKeepsOthers(s, t);
    if s.sh.shutdown {
      AfterInDestruction(s, t);
    }
  }

  // ----- getting a mutex released -----

  /** Whether a thread owns `m` or a mutex that is only taken after it. */
  predicate HoldsFrom(pc: Pc, m: Mutex) {
    var l := LocksAt(pc);
    match m
    case CONSUMERS => l.consumers || l.configuration || l.threaded || l.engine
    case CONFIGURATION => l.configuration || l.threaded || l.engine
    case THREADED => l.threaded || l.engine
    case ENGINE => l.engine
  }

  lemma HoldsFromLower(pc: Pc, m: Mutex, higher: Mutex)
    requires Rank(m) <= Rank(higher) && HoldsFrom(pc, higher)
    ensures HoldsFrom(pc, m)
  {
  }

  lemma WaiterHoldsLess(pc: Pc, m: Mutex)
    requires Wants(pc) == Some(m)
    ensures !HoldsFrom(pc, m)
  {
  }

  /** Going on so that only threads that own `m` or a later mutex move, and none in the registry unless `m` is its. */
  ghost predicate Drives(s: State, s': State, m: Mutex) {
    && Keeps(s, s')
    && (forall v <- s.pcs :: !HoldsFrom(s.pcs[v], m) ==> s'.pcs[v] == s.pcs[v])
    && (m != CONSUMERS ==> s'.sh.consumers == s.sh.consumers)
  }

  lemma DrivesMore(s: State, s': State, s'': State, m: Mutex, higher: Mutex)
    requires Drives(s, s', m) && Drives(s', s'', higher) && Rank(m) <= Rank(higher)
    ensures Drives(s, s'', m)
  {
    KeepsMore(s, s', s'');
    forall v <- s.pcs | !HoldsFrom(s.pcs[v], m) ensures s''.pcs[v] == s.pcs[v] {
      if HoldsFrom(s.pcs[v], higher) {
        HoldsFromLower(s.pcs[v], m, higher);
      }
    }
  }

  lemma DrivesLower(s: State, s': State, m: Mutex, higher: Mutex)
    requires Drives(s, s', higher) && Rank(m) < Rank(higher)
    ensures Drives(s, s', m)
  {
    forall v <- s.pcs | !HoldsFrom(s.pcs[v], m) ensures s'.pcs[v] == s.pcs[v] {
      if HoldsFrom(s.pcs[v], higher) {
        HoldsFromLower(s.pcs[v], m, higher);
      }
    }
  }

  /** Only a registration changes the registry, and it owns no other mutex. */
  lemma RegistryChanges(h: Shared, t: Tid, pc: Pc, u: bool, c: Choice)
    requires !pc.InRegister? && !Act(h, t, pc, u, c).Blocked?
    ensures Act(h, t, pc, u, c).sh.consumers == h.consumers
  {
  }

  lemma HolderKeepsRegistry(s: State, t: Tid, m: Mutex)
    requires t in s.pcs && m != CONSUMERS && HoldsFrom(s.pcs[t], m) && !AtRest(s.pcs[t]) && !Waiting(s, t)
    ensures After(s, t).sh.consumers == s.sh.consumers
  {
    RegistryChanges(s.sh, t, s.pcs[t], StartUnderWay(s), Unblocking(s.pcs[t]));
  }

  lemma OneDrives(s: State, t: Tid, m: Mutex)
    requires Inv(s) && t in s.pcs && HoldsFrom(s.pcs[t], m) && !AtRest(s.pcs[t]) && !Waiting(s, t)
    ensures Drives(s, After(s, t), m)
  {
    OneStep(s, t);
    if m != CONSUMERS {
      HolderKeepsRegistry(s, t, m);
    }
  }

  /** A bound on the steps a thread has before it inside its critical section, or in its part of the call. */
  function Left(h: Shared, pc: Pc): nat {
    match pc
    case Idle => 0
    case InStart(at, _, _, _) =>
      (match at
       case Lock => 8 case StoreCb => 7 case StoreContext => 6 case LockThreaded => 5
       case Check => 4 case Launch => 3 case UnlockThreaded => 2 case Unlock => 1)
    case InDiscover(at, _, found, i, _, _) =>
      (match at
       case Lock => 13 case Clear => 12
       case Find => 7 + |h.engine| + if |found| <= 4 then 4 - |found| else 0
       case Normalize => 6 + if i <= |h.engine| then |h.engine| - i else 0
       case Get => 5 case Unlock => 4)
    case InNotify(at, _, i, _) =>
      var rest := if i <= |h.consumers| then |h.consumers| - i else 0;
      (match at
       case Lock => 0
       case Consumer => 8 * rest + 10 case LockConfig => 8 * rest + 9 case Invoke => 8 * rest + 8
       case ClearCb => 8 * rest + 7 case ClearContext => 8 * rest + 6 case UnlockConfig => 8 * rest + 5
       case Unlock => 1)
    case InTail(at, _) => (match at case Lock => 3 case Clear => 2 case Unlock => 1 case Exited => 0)
    case InRegister(at, _, _) => (match at case Lock => 3 case Apply => 2 case Unlock => 1)
    case InDestroy(at) => (match at case Lock => 4 case Check => 3 case Retry => 2 case Unlock => 1 case Done => 0)
  }

  lemma NotifyLeft(h: Shared, t: Tid, pc: Pc)
    requires pc.InNotify? && pc.notify != NotifyAt.Lock && pc.notify != NotifyAt.Unlock && Notify(h, t, pc).To?
    requires PassHolds(h, pc)
    ensures var m := Notify(h, t, pc);
      m.sh.consumers == h.consumers && m.pc.InNotify? && m.pc.notify != NotifyAt.Lock && Left(m.sh, m.pc) < Left(h, pc)
      && m.pc.pass == pc.pass
  {
  }

  lemma DiscoverLeft(h: Shared, t: Tid, pc: Pc)
    requires pc.InDiscover? && pc.discover != DiscoverAt.Unlock && Discover(h, t, pc, FindList([])).To?
    ensures var m := Discover(h, t, pc, FindList([]));
      m.pc.InDiscover? && Left(m.sh, m.pc) < Left(h, pc) && m.pc.task == pc.task
  {
  }

  lemma StartLeft(h: Shared, t: Tid, pc: Pc, c: Choice)
    requires pc.InStart? && pc.start != StartAt.Unlock && Start(h, t, pc, c).To?
    ensures var m := Start(h, t, pc, c); m.pc.InStart? && Left(m.sh, m.pc) < Left(h, pc)
  {
  }

  /** The owner of a mutex gives it back or comes nearer to doing so. */
  lemma OwnerLeft(h: Shared, t: Tid, pc: Pc, u: bool, m: Mutex)
    requires Act(h, t, pc, u, Unblocking(pc)).To? && LocksAt(pc).Get(m)
    requires pc.InNotify? ==> PassHolds(h, pc)
    ensures var mv := Act(h, t, pc, u, Unblocking(pc)); LocksAt(mv.pc).Get(m) ==> Left(mv.sh, mv.pc) < Left(h, pc)
  {
    if pc.InNotify? {
      if pc.notify != NotifyAt.Unlock {
        NotifyLeft(h, t, pc);
      }
    } else if pc.InDiscover? {
      if pc.discover != DiscoverAt.Unlock {
        DiscoverLeft(h, t, pc);
      }
    } else if pc.InStart? {
      if pc.start != StartAt.Unlock {
        StartLeft(h, t, pc, Unblocking(pc));
      }
    }
  }

  ghost function OwnerOf(s: State, m: Mutex): Tid
    requires s.sh.owners.Get(m).By?
  {
    s.sh.owners.Get(m).tid
  }

  lemma OwnerIsBusy(s: State, m: Mutex)
    requires Inv(s) && s.sh.owners.Get(m).By?
    ensures var u := OwnerOf(s, m);
      && u in s.pcs && LocksAt(s.pcs[u]).Get(m) && HoldsFrom(s.pcs[u], m) && !AtRest(s.pcs[u])
      && (s.pcs[u].InNotify? && s.pcs[u].notify != NotifyAt.Lock ==> PassHolds(s.sh, s.pcs[u]))
  {
    var u := OwnerOf(s, m);
    assert Agrees(s.sh.owners, u, LocksAt(s.pcs[u]));
    LocksAreOrdered(s.pcs[u], m, m);
  }

  /** A thread that owned `m` and moved still owns it or has left it free. */
  lemma StillOwner(s: State, t: Tid, m: Mutex)
    requires Inv(s) && t in s.pcs && LocksAt(s.pcs[t]).Get(m) && !AtRest(s.pcs[t]) && !Waiting(s, t)
    ensures After(s, t).sh.owners.Get(m) == if LocksAt(Moved(s, t).pc).Get(m) then By(t) else Free
  {
    ActHandsOver(s.sh, t, s.pcs[t], StartUnderWay(s), Unblocking(s.pcs[t]));
    assert Agrees(s.sh.owners, t, LocksAt(s.pcs[t]));
  }

  ghost function Wanted(s: State, t: Tid): Mutex
    requires t in s.pcs && Waiting(s, t)
  {
    Wants(s.pcs[t]).value
  }

  ghost function OwnerLeftIn(s: State, m: Mutex): nat {
    if s.sh.owners.Get(m).By? && OwnerOf(s, m) in s.pcs then 1 + Left(s.sh, s.pcs[OwnerOf(s, m)]) else 0
  }

  /** The owner of a mutex that has not moved still owns it. */
  lemma OwnerStays(s: State, s1: State, u: Tid, m: Mutex)
    requires Inv(s) && Inv(s1) && u in s.pcs && u in s1.pcs && s1.pcs[u] == s.pcs[u]
    requires s.sh.owners.Get(m) == By(u)
    ensures s1.sh.owners.Get(m) == By(u)
  {
    assert Agrees(s.sh.owners, u, LocksAt(s.pcs[u])) && Agrees(s1.sh.owners, u, LocksAt(s1.pcs[u]));
  }

  lemma SelfDrives(s: State, m: Mutex)
    requires Inv(s)
    ensures Drives(s, s, m)
  {
    KeepsSelf(s);
  }

  /** What the owner of `m` waits for comes after `m`; once that is free the owner can step. */
  lemma OwnerWaitsHigher(s: State, m: Mutex)
    requires Inv(s) && s.sh.owners.Get(m).By? && OwnerOf(s, m) in s.pcs && Waiting(s, OwnerOf(s, m))
    ensures var higher := Wanted(s, OwnerOf(s, m)); Rank(m) < Rank(higher) && !HoldsFrom(s.pcs[OwnerOf(s, m)], higher)
  {
    var u := OwnerOf(s, m);
    OwnerIsBusy(s, m);
    LocksAreOrdered(s.pcs[u], m, Wanted(s, u));
    WaiterHoldsLess(s.pcs[u], Wanted(s, u));
  }

  /** The owner of `m` has not moved, has as much before it as it had, and does not wait. */
  ghost predicate OwnerReadyIn(s: State, s1: State, m: Mutex)
    requires s.sh.owners.Get(m).By?
  {
    var u := OwnerOf(s, m);
    && u in s.pcs && u in s1.pcs && s1.pcs[u] == s.pcs[u] && !Waiting(s1, u)
    && s1.sh.owners.Get(m) == s.sh.owners.Get(m) && s1.sh.consumers == s.sh.consumers
    && (LocksAt(s.pcs[u]).engine ==> s1.sh.engine == s.sh.engine)
  }

  /** A thread that was left alone does not wait any more once the mutex it waited for is free. */
  lemma NotWaitingAfter(s: State, s1: State, m: Mutex, higher: Mutex)
    requires Inv(s) && s.sh.owners.Get(m).By? && OwnerOf(s, m) in s.pcs && Drives(s, s1, higher)
    requires !HoldsFrom(s.pcs[OwnerOf(s, m)], higher) && higher != CONSUMERS
    requires Wants(s.pcs[OwnerOf(s, m)]) == Some(higher) && s1.sh.owners.Get(higher) == Free
    ensures OwnerReadyIn(s, s1, m)
  {
    OwnerStays(s, s1, OwnerOf(s, m), m);
  }

  /** Letting the owner of `m` come to a step. */
  lemma {:induction false} OwnerReady(s: State, m: Mutex) returns (s1: State)
    requires Inv(s) && s.sh.owners.Get(m).By?
    ensures Drives(s, s1, m) && OwnerReadyIn(s, s1, m)
    decreases 4 - Rank(m), OwnerLeftIn(s, m), 0
  {
    OwnerIsBusy(s, m);
    if Waiting(s, OwnerOf(s, m)) {
      var higher := Wanted(s, OwnerOf(s, m));
      OwnerWaitsHigher(s, m);
      s1 := Release(s, higher);
      DrivesLower(s, s1, m, higher);
      NotWaitingAfter(s, s1, m, higher);
    } else {
      SelfDrives(s, m);
      s1 := s;
    }
  }

  /** With as much before it, the owner's bound is the same. */
  lemma SameOwnerLeft(s: State, s1: State, m: Mutex)
    requires s.sh.owners.Get(m).By? && OwnerReadyIn(s, s1, m)
    ensures OwnerLeftIn(s1, m) == OwnerLeftIn(s, m)
  {
  }

  /** The next step of the owner of `m`, which does not wait, brings the release nearer. */
  lemma OwnerStepLeft(s: State, m: Mutex)
    requires Inv(s) && s.sh.owners.Get(m).By? && OwnerReadyIn(s, s, m) && !AtRest(s.pcs[OwnerOf(s, m)])
    ensures var s' := After(s, OwnerOf(s, m)); s'.sh.owners.Get(m).By? ==> OwnerLeftIn(s', m) < OwnerLeftIn(s, m)
  {
    var u := OwnerOf(s, m);
    OwnerIsBusy(s, m);
    StillOwner(s, u, m);
    OwnerLeft(s.sh, u, s.pcs[u], StartUnderWay(s), m);
  }

  /** Letting the owner of `m`, which does not wait, take its next step. */
  lemma OwnerSteps(s: State, m: Mutex) returns (s': State)
    requires Inv(s) && s.sh.owners.Get(m).By? && OwnerReadyIn(s, s, m)
    ensures Drives(s, s', m)
    ensures s'.sh.owners.Get(m).By? ==> OwnerLeftIn(s', m) < OwnerLeftIn(s, m)
  {
    OwnerIsBusy(s, m);
    s' := After(s, OwnerOf(s, m));
    OneDrives(s, OwnerOf(s, m), m);
    OwnerStepLeft(s, m);
  }

  /** From every state some run goes on to one in which `m` is free, moving only owners of `m` and later mutexes. */
  lemma {:induction false} Release(s: State, m: Mutex) returns (s': State)
    requires Inv(s)
    ensures Drives(s, s', m) && s'.sh.owners.Get(m) == Free
    decreases 4 - Rank(m), OwnerLeftIn(s, m), 1
  {
    if s.sh.owners.Get(m) == Free {
      SelfDrives(s, m);
      s' := s;
    } else {
      var s1 := OwnerReady(s, m);
      SameOwnerLeft(s, s1, m);
      var s2 := OwnerSteps(s1, m);
      DrivesMore(s, s1, s2, m, m);
      s' := Release(s2, m);
      DrivesMore(s, s2, s', m, m);
    }
  }

  // ----- the end of a call -----

  /** The parts of a thread's way to its end that are still before it. */
  function Part(pc: Pc): nat {
    match pc
    case InStart(_, _, _, _) => 5
    case InDiscover(_, _, _, _, _, _) => 4
    case InNotify(at, _, _, _) => if at == NotifyAt.Lock then 3 else 2
    case InTail(_, _) => 1
    case _ => 0
  }

  lemma CallLeft(h: Shared, t: Tid, pc: Pc, u: bool)
    requires !AtRest(pc) && !pc.InDestroy? && Act(h, t, pc, u, Unblocking(pc)).To?
    requires pc.InNotify? && pc.notify != NotifyAt.Lock ==> PassHolds(h, pc)
    ensures var m := Act(h, t, pc, u, Unblocking(pc));
      && !m.pc.InDestroy?
      && (!AtRest(m.pc) ==> Part(m.pc) < Part(pc) || (Part(m.pc) == Part(pc) && Left(m.sh, m.pc) < Left(h, pc)))
  {
    if pc.InNotify? {
      if pc.notify != NotifyAt.Lock && pc.notify != NotifyAt.Unlock {
        NotifyLeft(h, t, pc);
      }
    } else if pc.InDiscover? {
      if pc.discover != DiscoverAt.Unlock {
        DiscoverLeft(h, t, pc);
      }
    } else if pc.InStart? {
      if pc.start != StartAt.Unlock {
        StartLeft(h, t, pc, Unblocking(pc));
      }
    }
  }

  /** A thread that waits gets its mutex free without being moved itself. */
  lemma Unblocked(s: State, t: Tid) returns (s': State)
    requires Inv(s) && t in s.pcs
    ensures Keeps(s, s') && s'.pcs[t] == s.pcs[t] && !Waiting(s', t)
    ensures LocksAt(s.pcs[t]).consumers ==> s'.sh.consumers == s.sh.consumers
    ensures LocksAt(s.pcs[t]).engine ==> s'.sh.engine == s.sh.engine
  {
    if Waiting(s, t) {
      var m := Wanted(s, t);
      WaiterHoldsLess(s.pcs[t], m);
      s' := Release(s, m);
    } else {
      KeepsSelf(s);
      s' := s;
    }
  }

  lemma SameLeft(s: State, s1: State, w: Tid)
    requires w in s.pcs && w in s1.pcs && s1.pcs[w] == s.pcs[w]
    requires LocksAt(s.pcs[w]).consumers ==> s1.sh.consumers == s.sh.consumers
    requires LocksAt(s.pcs[w]).engine ==> s1.sh.engine == s.sh.engine
    ensures Left(s1.sh, s1.pcs[w]) == Left(s.sh, s.pcs[w])
  {
  }

  lemma InPassHolds(s: State, t: Tid)
    requires Inv(s) && t in s.pcs && s.pcs[t].InNotify? && s.pcs[t].notify != NotifyAt.Lock
    ensures PassHolds(s.sh, s.pcs[t])
  {
    assert Agrees(s.sh.owners, t, LocksAt(s.pcs[t]));
  }

  /** The next step of a thread in the middle of a call, after whoever it waits for, brings its end nearer. */
  lemma CallStep(s: State, t: Tid) returns (s': State)
    requires Inv(s) && t in s.pcs && !AtRest(s.pcs[t]) && !s.pcs[t].InDestroy?
    ensures Keeps(s, s') && !s'.pcs[t].InDestroy?
    ensures var pc, pc' := s.pcs[t], s'.pcs[t];
      AtRest(pc') || Part(pc') < Part(pc) || (Part(pc') == Part(pc) && Left(s'.sh, pc') < Left(s.sh, pc))
  {
    var s1 := Unblocked(s, t);
    SameLeft(s, s1, t);
    OneStep(s1, t);
    s' := After(s1, t);
    KeepsMore(s, s1, s');
    if s1.pcs[t].InNotify? && s1.pcs[t].notify != NotifyAt.Lock {
      InPassHolds(s1, t);
    }
    CallLeft(s1.sh, t, s1.pcs[t], StartUnderWay(s1));
  }

  lemma {:induction false} CallEnds(s: State, t: Tid) returns (s': State)
    requires Inv(s) && t in s.pcs && !s.pcs[t].InDestroy?
    ensures Keeps(s, s') && AtRest(s'.pcs[t])
    decreases !AtRest(s.pcs[t]), Part(s.pcs[t]), Left(s.sh, s.pcs[t])
  {
    if AtRest(s.pcs[t]) {
      KeepsSelf(s);
      s' := s;
    } else {
      var s1 := CallStep(s, t);
      s' := CallEnds(s1, t);
      KeepsMore(s, s1, s');
    }
  }

  // ----- the end of the running worker -----

  lemma ActiveIsRunner(s: State, t: Tid)
    requires Inv(s) && t in s.pcs && Active(s.pcs[t])
    ensures s.sh.runner == Some(t) && !AtRest(s.pcs[t])
    ensures s.pcs[t].InNotify? && s.pcs[t].notify != NotifyAt.Lock ==> PassHolds(s.sh, s.pcs[t])
  {
    assert Agrees(s.sh.owners, t, LocksAt(s.pcs[t]));
  }

  lemma RunnerGone(s: State, w: Tid)
    requires Inv(s) && w in s.pcs && Active(s.pcs[w]) && !AtRest(s.pcs[w]) && !Waiting(s, w)
    requires !Active(Moved(s, w).pc)
    ensures After(s, w).sh.runner == None
  {
    var pc := s.pcs[w];
    if pc.InStart? {
      StartKeepsRunner(s.sh, w, pc, Unblocking(pc));
    } else if pc.InDiscover? {
      DiscoverKeepsRunner(s.sh, w, pc, Unblocking(pc));
    } else {
      OthersKeepRunner(s.sh, w, pc, StartUnderWay(s), Unblocking(pc));
    }
  }

  /** The running worker, or the start about to launch one, can always come to its end. */
  lemma {:induction false} RunnerEnds(s: State, w: Tid) returns (s': State)
    requires Inv(s) && s.sh.shutdown && w in s.pcs && Active(s.pcs[w])
    ensures Keeps(s, s') && s'.sh.runner == None
    decreases Part(s.pcs[w]), Left(s.sh, s.pcs[w])
  {
    var s1 := Unblocked(s, w);
    ActiveIsRunner(s1, w);
    SameLeft(s, s1, w);
    OneStep(s1, w);
    var s2 := After(s1, w);
    KeepsMore(s, s1, s2);
    CallLeft(s1.sh, w, s1.pcs[w], StartUnderWay(s1));
    if Active(s2.pcs[w]) {
      s' := RunnerEnds(s2, w);
      KeepsMore(s, s2, s');
    } else {
      RunnerGone(s1, w);
      s' := s2;
    }
  }

  // ----- the end of the loop -----

  /** The steps of the destructor's loop that are still before it, once nobody runs. */
  function LoopLeft(at: DestroyAt): nat {
    match at
    case Retry => 4
    case Lock => 3
    case Check => 2
    case Unlock => 1
    case Done => 0
  }

  lemma DestroyLeft(h: Shared, t: Tid, pc: Pc)
    requires pc.InDestroy? && !h.running && Destroy(h, t, pc).To?
    ensures var m := Destroy(h, t, pc); m.pc.InDestroy? && LoopLeft(m.pc.destroy) < LoopLeft(pc.destroy)
  {
  }

  lemma AfterLoop(s: State, d: Tid)
    requires OneRunner(s) && s.sh.runner == None && d in s.pcs && s.pcs[d].InDestroy?
    requires s.pcs[d].destroy != Done && !Waiting(s, d)
    ensures var s' := After(s, d); s'.pcs[d].InDestroy? && LoopLeft(s'.pcs[d].destroy) < LoopLeft(s.pcs[d].destroy)
  {
    DestroyLeft(s.sh, d, s.pcs[d]);
  }

  /** One more step of the destructor, after whoever it waits for. */
  lemma LoopStep(s: State, d: Tid) returns (s': State)
    requires Inv(s) && s.sh.shutdown && s.sh.runner == None && d in s.pcs
    requires s.pcs[d].InDestroy? && s.pcs[d].destroy != Done
    ensures Keeps(s, s') && s'.pcs[d].InDestroy? && LoopLeft(s'.pcs[d].destroy) < LoopLeft(s.pcs[d].destroy)
  {
    var s1 := Unblocked(s, d);
    OneStep(s1, d);
    s' := After(s1, d);
    KeepsMore(s, s1, s');
    AfterLoop(s1, d);
  }

  /** With nobody running the destructor goes through. */
  lemma {:induction false} LoopEnds(s: State, d: Tid) returns (s': State)
    requires Inv(s) && s.sh.shutdown && s.sh.runner == None && d in s.pcs && s.pcs[d].InDestroy?
    ensures Keeps(s, s') && s'.pcs[d] == InDestroy(Done)
    decreases LoopLeft(s.pcs[d].destroy)
  {
    if s.pcs[d].destroy == Done {
      KeepsSelf(s);
      s' := s;
    } else {
      var s1 := LoopStep(s, d);
      s' := LoopEnds(s1, d);
      KeepsMore(s, s1, s');
    }
  }

  /**
   * The destructor can always finish: from every reachable state after destruction has begun, whatever the other
   * threads are doing, some continuation of the run brings the destructor to its end.
   */
  lemma DestructorCanFinish(r: seq<State>, i: nat, d: Tid)
    requires Run(r) && i < |r| && d in r[i].pcs && r[i].pcs[d].InDestroy?
    ensures exists s' :: Reaches(Next, r[i], s') && d in s'.pcs && s'.pcs[d] == InDestroy(Done)
  {
    InvAlongRun(r, i);
    var s := r[i];
    KeepsSelf(s);
    var s1 := s;
    if s.sh.runner.Some? {
      s1 := RunnerEnds(s, s.sh.runner.value);
    }
    var s' := LoopEnds(s1, d);
    KeepsMore(s, s1, s');
  }

  /**
   * Every call can end: from every reachable state, whatever the others are doing, some continuation of the run brings
   * a given thread to the end of its call, or of its life when it is a worker or the destructor.
   */
  lemma EveryCallCanEnd(r: seq<State>, i: nat, t: Tid)
    requires Run(r) && i < |r| && t in r[i].pcs
    ensures exists s' :: Reaches(Next, r[i], s') && t in s'.pcs && AtRest(s'.pcs[t])
  {
    if r[i].pcs[t].InDestroy? {
      DestructorCanFinish(r, i, t);
    } else {
      InvAlongRun(r, i);
      var s' := CallEnds(r[i], t);
    }
  }
}
