/** What whole calls do over any run, from the step that begins one to the moment its thread is idle again. */
module ProxyCalls {
  import opened Options
  import opened Runs
  import opened ProxyInfoModel
  import opened ProxyDiscoveryEngines
  import opened ConsumerRegistry
  import opened ProxyProtocol
  import opened ProxyProtocolProofs
  import opened ProxyCallbacks

  /** Thread `t` begins the call `c` at step `a` of the run. */
  ghost predicate Begins(r: seq<State>, a: nat, t: Tid, c: Choice) {
    a + 1 < |r| && t in r[a].pcs && r[a].pcs[t] == Idle && Step(r[a], t, c, r[a + 1])
  }

  /** Back from its call. */
  ghost predicate Returned(r: seq<State>, b: nat, t: Tid) {
    b < |r| && t in r[b].pcs && r[b].pcs[t] == Idle
  }

  /** Thread `t` is in the middle of a call after `a` and before `b`. */
  ghost predicate BusyBetween(r: seq<State>, a: nat, b: nat, t: Tid)
    requires b < |r|
  {
    forall i | a < i < b :: t in r[i].pcs && r[i].pcs[t] != Idle
  }

  /** What one step of a run is for one thread: its own, under a choice, or another's. */
  lemma OneStep(r: seq<State>, i: nat, t: Tid) returns (own: bool, c: Choice)
    requires Run(r) && i + 1 < |r| && t in r[i].pcs
    ensures t in r[i + 1].pcs
    ensures if own then Step(r[i], t, c, r[i + 1]) else r[i + 1].pcs[t] == r[i].pcs[t]
  {
    assert Link(Next, r, i);
    var u, choice :| Step(r[i], u, choice, r[i + 1]);
    own, c := u == t, choice;
  }

  /** Lists handed out and invocations made are only added to. */
  lemma HistoryGrows(r: seq<State>, i: nat)
    requires Run(r) && i + 1 < |r|
    ensures r[i].sh.delivered <= r[i + 1].sh.delivered && r[i].sh.invoked <= r[i + 1].sh.invoked
  {
    InvAlongRun(r, i);
    assert Link(Next, r, i);
    var u, c :| Step(r[i], u, c, r[i + 1]);
    ActKeepsLists(r[i].sh, u, r[i].pcs[u], StartUnderWay(r[i]), c);
  }

  /** An idle thread can begin every call, a start unless destruction has begun, and destruction once. */
  lemma CallsBegin(s: State, t: Tid, c: Choice)
    requires t in s.pcs && s.pcs[t] == Idle
    ensures (exists s' :: Step(s, t, c, s')) <==>
            c.CallDiscover? || c.CallRegister? || (c.CallStart? && !s.sh.shutdown)
            || (c.CallDestroy? && !s.sh.shutdown && !StartUnderWay(s))
  {
    var m := Act(s.sh, t, Idle, StartUnderWay(s), c);
    if m.To? {
      assert Step(s, t, c, State(s.pcs[t := m.pc], m.sh));
    }
  }

  // ----- a discovery in the middle of a call -----

  /** A discovery that thread `t` made since `h0` handed out this list. */
  ghost predicate Answered(h0: Shared, h: Shared, t: Tid, list: seq<ProxyInfo>) {
    exists k | |h0.delivered| <= k < |h.delivered| :: h.delivered[k].tid == t && h.delivered[k].list == list
  }

  lemma AnsweredLasts(h0: Shared, h: Shared, h': Shared, t: Tid, list: seq<ProxyInfo>)
    requires Answered(h0, h, t, list) && h.delivered <= h'.delivered
    ensures Answered(h0, h', t, list)
  {
    var k :| |h0.delivered| <= k < |h.delivered| && h.delivered[k].tid == t && h.delivered[k].list == list;
    assert h'.delivered[k] == h.delivered[k];
  }

  /** The thread is in a discovery for `task`, which once it is over has handed out the thread's list. */
  ghost predicate Discovering(h0: Shared, h: Shared, t: Tid, pc: Pc, task: Task) {
    && pc.InDiscover? && pc.task == task && |h0.delivered| <= |h.delivered|
    && (pc.discover == DiscoverAt.Unlock ==> Answered(h0, h, t, pc.list))
  }

  lemma DiscoveringOwn(h0: Shared, h: Shared, t: Tid, pc: Pc, c: Choice, task: Task)
    requires Discovering(h0, h, t, pc, task) && !Discover(h, t, pc, c).Blocked?
    ensures var m := Discover(h, t, pc, c);
      && m.To? && m.sh.invoked == h.invoked
      && if pc.discover == DiscoverAt.Unlock
         then m.pc == if task == Caller(false) then Idle else InNotify(NotifyAt.Lock, task, 0, pc.list)
         else Discovering(h0, m.sh, t, m.pc, task)
  {
    if pc.discover == Get {
      var m := Discover(h, t, pc, c);
      assert m.sh.delivered[|h.delivered|] == Delivery(t, pc.found, pc.cancelled, h.engine);
    }
  }

  // ----- a call that only asks for the proxies -----

  /** From the call to the return: discovering for itself, or back with its list handed out. */
  ghost predicate Querying(h0: Shared, h: Shared, t: Tid, pc: Pc) {
    Discovering(h0, h, t, pc, Caller(false)) || (pc == Idle && exists list :: Answered(h0, h, t, list))
  }

  /** A thread that is not notifying adds no invocation. */
  lemma NoNotifyNoCall(r: seq<State>, i: nat, t: Tid)
    requires Run(r) && i + 1 < |r| && t in r[i].pcs && !r[i].pcs[t].InNotify?
    ensures SilentSince(r[i].sh, r[i + 1].sh, t)
  {
    assert Link(Next, r, i);
    var u, c :| Step(r[i], u, c, r[i + 1]);
    ActAddsOwn(r[i].sh, u, r[i].pcs[u], StartUnderWay(r[i]), c);
  }

  lemma QueryLink(r: seq<State>, h0: Shared, i: nat, t: Tid)
    requires Run(r) && i + 1 < |r| && t in r[i].pcs
    requires r[i].pcs[t] != Idle && Querying(h0, r[i].sh, t, r[i].pcs[t])
    ensures t in r[i + 1].pcs && Querying(h0, r[i + 1].sh, t, r[i + 1].pcs[t])
    ensures SilentSince(r[i].sh, r[i + 1].sh, t)
  {
    NoNotifyNoCall(r, i, t);
    HistoryGrows(r, i);
    var own, c := OneStep(r, i, t);
    var pc := r[i].pcs[t];
    if own {
      DiscoveringOwn(h0, r[i].sh, t, pc, c, Caller(false));
    }
    if pc.discover == DiscoverAt.Unlock {
      AnsweredLasts(h0, r[i].sh, r[i + 1].sh, t, pc.list);
    }
  }

  lemma {:induction false} QueryAlong(r: seq<State>, a: nat, b: nat, t: Tid)
    requires Run(r) && a < b < |r| && Begins(r, a, t, CallDiscover(false)) && BusyBetween(r, a, b, t)
    ensures t in r[b].pcs && Querying(r[a].sh, r[b].sh, t, r[b].pcs[t]) && SilentSince(r[a].sh, r[b].sh, t)
    decreases b
  {
    if b > a + 1 {
      QueryAlong(r, a, b - 1, t);
      QueryLink(r, r[a].sh, b - 1, t);
      SilenceAdds(r[a].sh, r[b - 1].sh, r[b].sh, t);
    }
  }

  /**
   * A call that only asks for the proxies never notifies: until it has returned its thread is in the discovery, in
   * no pass, and calls nobody back; when it has returned, a discovery of its own has handed out its list.
   */
  lemma QueryIsSilent(r: seq<State>, a: nat, b: nat, t: Tid)
    requires Run(r) && a < b < |r| && Begins(r, a, t, CallDiscover(false)) && BusyBetween(r, a, b, t)
    ensures t in r[b].pcs && !r[b].pcs[t].InNotify? && SilentSince(r[a].sh, r[b].sh, t)
    ensures r[b].pcs[t] == Idle ==> exists list :: Answered(r[a].sh, r[b].sh, t, list)
  {
    QueryAlong(r, a, b, t);
  }

  // ----- a call, or a worker, that notifies -----

  /** A pass that began at `c`, with the first consumer, and is not over at `i`. */
  ghost predicate PassSince(r: seq<State>, c: nat, i: nat, t: Tid) {
    && c <= i < |r| && PassDuring(r, c, i, t)
    && r[c].pcs[t].notify == NotifyAt.Consumer && r[c].pcs[t].index == 0
  }

  ghost predicate InPassSince(r: seq<State>, a: nat, i: nat, t: Tid) {
    exists c | a <= c <= i :: PassSince(r, c, i, t)
  }

  /** The thread notifies for `task` the list that its discovery since `a` has handed out. */
  ghost predicate Notifying(r: seq<State>, a: nat, i: nat, t: Tid, task: Task)
    requires a <= i < |r| && t in r[i].pcs
  {
    var pc := r[i].pcs[t];
    && pc.InNotify? && pc.pass == task && Answered(r[a].sh, r[i].sh, t, pc.proxies)
    && if pc.notify == NotifyAt.Lock then pc.index == 0 else InPassSince(r, a, i, t)
  }

  /** Every invocation the thread made since `h0` was of a list that a discovery of its own had handed out since. */
  ghost predicate CallsWithAnswer(h0: Shared, h: Shared, t: Tid) {
    forall k | |h0.invoked| <= k < |h.invoked| ::
      h.invoked[k].tid == t ==> Answered(h0, h, t, h.invoked[k].list)
  }

  ghost predicate OnTheWay(r: seq<State>, a: nat, i: nat, t: Tid, task: Task)
    requires a <= i < |r| && t in r[i].pcs
  {
    Discovering(r[a].sh, r[i].sh, t, r[i].pcs[t], task) || Notifying(r, a, i, t, task)
  }

  /** Where a thread goes from the end of its pass. */
  function AfterPass(task: Task): Pc {
    if task.Worker? then InTail(TailAt.Lock, task.ticket) else Idle
  }

  lemma PassGoesOn(r: seq<State>, a: nat, i: nat, t: Tid)
    requires i + 1 < |r| && t in r[i + 1].pcs && InPass(r[i + 1].pcs[t])
    requires InPassSince(r, a, i, t)
    ensures InPassSince(r, a, i + 1, t)
  {
    var c :| a <= c <= i && PassSince(r, c, i, t);
    assert PassSince(r, c, i + 1, t);
  }

  lemma PassBegins(r: seq<State>, a: nat, i: nat, t: Tid)
    requires a <= i < |r| && t in r[i].pcs
    requires InPass(r[i].pcs[t]) && r[i].pcs[t].notify == NotifyAt.Consumer && r[i].pcs[t].index == 0
    ensures InPassSince(r, a, i, t)
  {
    assert PassSince(r, i, i, t);
  }

  /** A thread's own step in its pass. */
  lemma NotifyMoves(h: Shared, t: Tid, pc: Pc)
    requires pc.InNotify? && !Notify(h, t, pc).Blocked?
    ensures var m := Notify(h, t, pc);
      && m.To?
      && (pc.notify == NotifyAt.Unlock ==> m.pc == AfterPass(pc.pass))
      && (pc.notify == NotifyAt.Lock ==> m.pc == pc.(notify := NotifyAt.Consumer))
      && (pc.notify != NotifyAt.Unlock ==> InPass(m.pc) && m.pc.pass == pc.pass && m.pc.proxies == pc.proxies)
  {
  }

  lemma NotifyingLink(r: seq<State>, a: nat, i: nat, t: Tid, task: Task)
    requires Run(r) && a <= i && i + 1 < |r| && t in r[i].pcs && Notifying(r, a, i, t, task)
    ensures t in r[i + 1].pcs
    ensures Notifying(r, a, i + 1, t, task)
            || (r[i].pcs[t].notify == NotifyAt.Unlock && r[i + 1].pcs[t] == AfterPass(task))
  {
    HistoryGrows(r, i);
    var own, c := OneStep(r, i, t);
    var pc := r[i].pcs[t];
    AnsweredLasts(r[a].sh, r[i].sh, r[i + 1].sh, t, pc.proxies);
    if own {
      NotifyMoves(r[i].sh, t, pc);
    }
    if pc.notify != NotifyAt.Lock && InPass(r[i + 1].pcs[t]) {
      PassGoesOn(r, a, i, t);
    } else if own && pc.notify == NotifyAt.Lock {
      PassBegins(r, a, i + 1, t);
    }
  }

  lemma DiscoveringLink(r: seq<State>, a: nat, i: nat, t: Tid, task: Task)
    requires Run(r) && a <= i && i + 1 < |r| && t in r[i].pcs && task != Caller(false)
    requires Discovering(r[a].sh, r[i].sh, t, r[i].pcs[t], task)
    ensures t in r[i + 1].pcs && OnTheWay(r, a, i + 1, t, task)
  {
    HistoryGrows(r, i);
    var own, c := OneStep(r, i, t);
    var pc := r[i].pcs[t];
    if own {
      DiscoveringOwn(r[a].sh, r[i].sh, t, pc, c, task);
    }
    if pc.discover == DiscoverAt.Unlock {
      AnsweredLasts(r[a].sh, r[i].sh, r[i + 1].sh, t, pc.list);
    }
  }

  lemma OnTheWayLink(r: seq<State>, a: nat, i: nat, t: Tid, task: Task)
    requires Run(r) && a <= i && i + 1 < |r| && t in r[i].pcs && task != Caller(false) && OnTheWay(r, a, i, t, task)
    ensures t in r[i + 1].pcs
    ensures OnTheWay(r, a, i + 1, t, task)
            || (Notifying(r, a, i, t, task) && r[i].pcs[t].notify == NotifyAt.Unlock
                && r[i + 1].pcs[t] == AfterPass(task))
  {
    if Notifying(r, a, i, t, task) {
      NotifyingLink(r, a, i, t, task);
    } else {
      DiscoveringLink(r, a, i, t, task);
    }
  }

  lemma OldAnswersLast(h0: Shared, h: Shared, h': Shared, t: Tid)
    requires CallsWithAnswer(h0, h, t) && h.delivered <= h'.delivered && h'.invoked == h.invoked
    ensures CallsWithAnswer(h0, h', t)
  {
    forall k | |h0.invoked| <= k < |h'.invoked| && h'.invoked[k].tid == t
      ensures Answered(h0, h', t, h'.invoked[k].list)
    {
      AnsweredLasts(h0, h, h', t, h.invoked[k].list);
    }
  }

  lemma OneMoreAnswered(h0: Shared, h: Shared, h': Shared, t: Tid, call: Invocation)
    requires CallsWithAnswer(h0, h, t) && h'.delivered == h.delivered && h'.invoked == h.invoked + [call]
    requires call.tid == t ==> Answered(h0, h, t, call.list)
    ensures CallsWithAnswer(h0, h', t)
  {
    forall k | |h0.invoked| <= k < |h'.invoked| && h'.invoked[k].tid == t
      ensures Answered(h0, h', t, h'.invoked[k].list)
    {
      AnsweredLasts(h0, h, h', t, h'.invoked[k].list);
    }
  }

  /** What a step adds to the invocations, and that it then hands out no list. */
  lemma AddsCarried(h: Shared, u: Tid, pc: Pc, e: bool, c: Choice) returns (calls: bool, call: Invocation)
    requires !Act(h, u, pc, e, c).Blocked?
    ensures var m := Act(h, u, pc, e, c);
      if calls then
        && pc.InNotify? && m.sh.delivered == h.delivered && m.sh.invoked == h.invoked + [call]
        && call.tid == u && call.list == pc.proxies
      else m.sh.invoked == h.invoked && h.delivered <= m.sh.delivered
  {
    calls := pc.InNotify? && pc.notify == Invoke && h.cb.Some?;
    if calls {
      call := Invocation(h.cb.value, h.ctx, pc.proxies, |h.stored|, u);
    } else {
      call := Invocation(0, None, [], 0, u);
      ActAddsOwn(h, u, pc, e, c);
    }
  }

  lemma AnswerLink(r: seq<State>, a: nat, i: nat, t: Tid, task: Task)
    requires Run(r) && a <= i && i + 1 < |r| && t in r[i].pcs && OnTheWay(r, a, i, t, task)
    requires CallsWithAnswer(r[a].sh, r[i].sh, t)
    ensures CallsWithAnswer(r[a].sh, r[i + 1].sh, t)
  {
    assert Link(Next, r, i);
    var u, c :| Step(r[i], u, c, r[i + 1]);
    var calls, call := AddsCarried(r[i].sh, u, r[i].pcs[u], StartUnderWay(r[i]), c);
    if calls {
      OneMoreAnswered(r[a].sh, r[i].sh, r[i + 1].sh, t, call);
    } else {
      OldAnswersLast(r[a].sh, r[i].sh, r[i + 1].sh, t);
    }
  }

  /** A thread that is on the way and later is not has been through the end of a pass. */
  lemma {:induction false} LeavesThroughPass(r: seq<State>, a: nat, i: nat, b: nat, t: Tid, task: Task)
    returns (c: nat, e: nat)
    requires Run(r) && a <= i <= b < |r| && t in r[i].pcs && task != Caller(false) && OnTheWay(r, a, i, t, task)
    requires t in r[b].pcs && !r[b].pcs[t].InDiscover? && !r[b].pcs[t].InNotify?
    requires CallsWithAnswer(r[a].sh, r[i].sh, t)
    ensures a <= c <= e < b && PassSince(r, c, e, t) && r[e].pcs[t].notify == NotifyAt.Unlock
    ensures t in r[e + 1].pcs && r[e + 1].pcs[t] == AfterPass(task) && CallsWithAnswer(r[a].sh, r[e].sh, t)
    decreases b - i
  {
    OnTheWayLink(r, a, i, t, task);
    if OnTheWay(r, a, i + 1, t, task) {
      AnswerLink(r, a, i, t, task);
      c, e := LeavesThroughPass(r, a, i + 1, b, t, task);
    } else {
      c :| a <= c <= i && PassSince(r, c, i, t);
      e := i;
    }
  }

  // ----- what a pass does for the callback -----

  /** The configuration's turn, or its callback, is still to come in this pass. */
  ghost predicate TurnToCome(h: Shared, pc: Pc)
    requires InPass(pc)
  {
    pc.notify == LockConfig || pc.notify == Invoke
    || (pc.notify == NotifyAt.Consumer && pc.index <= |h.consumers| && Configuration in h.consumers[pc.index..])
  }

  ghost predicate PassProgress(h: Shared, pc: Pc, ticket: nat) {
    InPass(pc) && ticket <= |h.stored| && (TurnToCome(h, pc) || Settled(h, ticket))
  }

  lemma PassProgressOwn(h: Shared, t: Tid, pc: Pc, ticket: nat)
    requires PassProgress(h, pc, ticket) && pc.notify != NotifyAt.Unlock && !Notify(h, t, pc).Blocked?
    requires History(h) && (pc.notify == Invoke ==> Consistent(h))
    ensures var m := Notify(h, t, pc); PassProgress(m.sh, m.pc, ticket)
  {
    LastIsValid(h);
  }

  lemma PassProgressLink(r: seq<State>, i: nat, t: Tid, ticket: nat)
    requires Run(r) && i + 1 < |r| && PassDuring(r, i, i + 1, t) && PassProgress(r[i].sh, r[i].pcs[t], ticket)
    ensures PassProgress(r[i + 1].sh, r[i + 1].pcs[t], ticket)
  {
    InvAlongRun(r, i);
    assert Link(Next, r, i);
    var s := r[i];
    var u, c :| Step(s, u, c, r[i + 1]);
    assert Agrees(s.sh.owners, t, LocksAt(s.pcs[t]));
    if u != t {
      OthersKeepPlace(s, u, c, r[i + 1], t);
    } else {
      PassProgressOwn(s.sh, t, s.pcs[t], ticket);
    }
  }

  lemma {:induction false} PassProgressAlong(r: seq<State>, c: nat, e: nat, t: Tid, ticket: nat)
    requires Run(r) && c <= e < |r| && PassDuring(r, c, e, t) && PassProgress(r[c].sh, r[c].pcs[t], ticket)
    ensures PassProgress(r[e].sh, r[e].pcs[t], ticket)
    decreases e
  {
    if c < e {
      PassProgressAlong(r, c, e - 1, t, ticket);
      assert PassDuring(r, e - 1, e, t);
      PassProgressLink(r, e - 1, t, ticket);
    }
  }

  /**
   * A pass, of a worker or of a client, over a registry that holds the configuration settles the callback
   * stored last when it began.
   */
  lemma PassSettles(r: seq<State>, c: nat, e: nat, t: Tid)
    requires Run(r) && PassSince(r, c, e, t) && r[e].pcs[t].notify == NotifyAt.Unlock
    requires Configuration in r[c].sh.consumers && r[c].sh.stored != []
    ensures |r[c].sh.stored| <= |r[e].sh.stored|
    ensures |r[c].sh.stored| < |r[e].sh.stored| || Called(r[e].sh, |r[c].sh.stored|)
  {
    var h := r[c].sh;
    assert h.consumers[0..] == h.consumers;
    PassProgressAlong(r, c, e, t, |h.stored|);
    InvAlongRun(r, e);
    SettledMeans(r[e].sh, |h.stored|);
  }

  /** A pass from its first consumer to its end: who was visited, and what became of the callback. */
  ghost predicate WholePass(r: seq<State>, c: nat, e: nat, t: Tid) {
    && PassSince(r, c, e, t) && r[e].pcs[t].notify == NotifyAt.Unlock
    && Distinct(r[c].sh.consumers) && r[e].sh.consumers == r[c].sh.consumers
    && (forall k: nat | k < |r[c].sh.consumers| :: VisitedOnce(r, c, e, t, k))
    && (Configuration in r[c].sh.consumers && r[c].sh.stored != [] ==>
          |r[c].sh.stored| < |r[e].sh.stored| || Called(r[e].sh, |r[c].sh.stored|))
  }

  lemma PassIsWhole(r: seq<State>, c: nat, e: nat, t: Tid)
    requires Run(r) && PassSince(r, c, e, t) && r[e].pcs[t].notify == NotifyAt.Unlock
    ensures WholePass(r, c, e, t)
  {
    PassVisitsAll(r, c, e, t);
    if Configuration in r[c].sh.consumers && r[c].sh.stored != [] {
      PassSettles(r, c, e, t);
    }
  }

  /**
   * A call that notifies returns only after a whole pass of its own: every consumer registered when the pass began
   * had exactly one turn, the callback then pending was called or replaced, and whatever the thread called back
   * got the list that the discovery of this very call had handed out.
   */
  lemma NotifyingCallVisitsAll(r: seq<State>, a: nat, b: nat, t: Tid) returns (c: nat, e: nat)
    requires Run(r) && a < b && Begins(r, a, t, CallDiscover(true)) && Returned(r, b, t)
    ensures a < c <= e < b && WholePass(r, c, e, t) && CallsWithAnswer(r[a].sh, r[e].sh, t)
  {
    assert r[a + 1].sh == r[a].sh;
    assert Discovering(r[a + 1].sh, r[a + 1].sh, t, r[a + 1].pcs[t], Caller(true));
    c, e := LeavesThroughPass(r, a + 1, a + 1, b, t, Caller(true));
    PassIsWhole(r, c, e, t);
  }

  /** The same for a launched worker on its way to its tail, where it still has its ticket. */
  lemma WorkerVisitsAll(r: seq<State>, a: nat, b: nat, w: Tid, ticket: nat) returns (c: nat, e: nat)
    requires Run(r) && a < b < |r| && w in r[a].pcs && r[a].pcs[w] == Discovery(Worker(ticket))
    requires w in r[b].pcs && r[b].pcs[w].InTail?
    ensures a < c <= e < b && WholePass(r, c, e, w) && CallsWithAnswer(r[a].sh, r[e].sh, w)
    ensures w in r[e + 1].pcs && r[e + 1].pcs[w] == InTail(TailAt.Lock, ticket)
  {
    assert Discovering(r[a].sh, r[a].sh, w, r[a].pcs[w], Worker(ticket));
    c, e := LeavesThroughPass(r, a, a, b, w, Worker(ticket));
    PassIsWhole(r, c, e, w);
  }

  // ----- registrations -----

  /** The registry changes only when a thread registers or unregisters, and then as that thread asked. */
  lemma RegistryChanges(r: seq<State>, i: nat) returns (t: Tid)
    requires Run(r) && i + 1 < |r| && r[i + 1].sh.consumers != r[i].sh.consumers
    ensures t in r[i].pcs && r[i].pcs[t].InRegister?
    ensures var pc, consumers := r[i].pcs[t], r[i].sh.consumers;
      r[i + 1].sh.consumers == if pc.add then Added(consumers, pc.c) else Removed(consumers, pc.c)
  {
    assert Link(Next, r, i);
    var u, c :| Step(r[i], u, c, r[i + 1]);
    t := u;
    if !r[i].pcs[u].InRegister? && !r[i].pcs[u].InNotify? {
      OthersKeepPass(r[i].sh, u, r[i].pcs[u], StartUnderWay(r[i]), c);
    }
  }

  lemma {:induction false} AppliedLater(r: seq<State>, i: nat, b: nat, t: Tid, x: Consumer, add: bool) returns (j: nat)
    requires Run(r) && i <= b && Returned(r, b, t) && t in r[i].pcs
    requires r[i].pcs[t] == InRegister(RegisterAt.Lock, x, add) || r[i].pcs[t] == InRegister(Apply, x, add)
    ensures i <= j < b && j + 1 < |r|
    ensures var consumers := r[j].sh.consumers;
      r[j + 1].sh.consumers == if add then Added(consumers, x) else Removed(consumers, x)
    decreases b - i
  {
    var own, c := OneStep(r, i, t);
    if own && r[i].pcs[t].register == Apply {
      j := i;
    } else {
      j := AppliedLater(r, i + 1, b, t, x, add);
    }
  }

  /** A registration, or its undoing, is applied between the call and its return. */
  lemma RegistrationTakesEffect(r: seq<State>, a: nat, b: nat, t: Tid, x: Consumer, add: bool) returns (j: nat)
    requires Run(r) && a < b && Begins(r, a, t, CallRegister(x, add)) && Returned(r, b, t)
    ensures a < j < b && j + 1 < |r|
    ensures var consumers := r[j].sh.consumers;
      r[j + 1].sh.consumers == if add then Added(consumers, x) else Removed(consumers, x)
  {
    j := AppliedLater(r, a + 1, b, t, x, add);
  }

  // ----- starts -----

  /** What the step from `i` does for a start: it finds a worker, launches its own, or fails to create the thread. */
  ghost predicate FindsOrLaunches(r: seq<State>, i: nat, t: Tid, ticket: nat) {
    && i + 1 < |r| && t in r[i].pcs && r[i].pcs[t].InStart? && r[i].pcs[t].ticket == ticket
    && ((r[i].pcs[t].start == StartAt.Check && r[i].sh.running)
        || (exists w :: w !in r[i].pcs && w in r[i + 1].pcs && r[i + 1].pcs[w] == Discovery(Worker(ticket)))
        || Step(r[i], t, SpawnFails, r[i + 1]))
  }

  /** The fields and the history once the callback of a start is stored. */
  ghost predicate Stores(h: Shared, h': Shared, cb: nat, ctx: nat) {
    h'.stored == h.stored + [(cb, ctx)] && h'.cb == Some(cb) && h'.ctx == Some(ctx)
  }

  lemma {:induction false} LaunchedLater(r: seq<State>, i: nat, b: nat, t: Tid, ticket: nat) returns (k: nat)
    requires Run(r) && i <= b && Returned(r, b, t) && t in r[i].pcs && r[i].pcs[t].InStart?
    requires r[i].pcs[t].start == LockThreaded || r[i].pcs[t].start == StartAt.Check || r[i].pcs[t].start == Launch
    requires r[i].pcs[t].ticket == ticket
    ensures i <= k < b && FindsOrLaunches(r, k, t, ticket)
    decreases b - i
  {
    var own, c := OneStep(r, i, t);
    var pc := r[i].pcs[t];
    if own && ((pc.start == StartAt.Check && r[i].sh.running) || pc.start == Launch) {
      k := i;
      if pc.start == Launch && c.Spawn? {
        assert c.worker !in r[i].pcs && r[i + 1].pcs[c.worker] == Discovery(Worker(ticket));
      }
    } else {
      k := LaunchedLater(r, i + 1, b, t, ticket);
    }
  }

  lemma StoredHere(r: seq<State>, i: nat, t: Tid, c: Choice)
    requires Run(r) && i + 1 < |r| && t in r[i].pcs && Step(r[i], t, c, r[i + 1])
    requires r[i].pcs[t].InStart? && r[i].pcs[t].start == StoreContext
    ensures Stores(r[i].sh, r[i + 1].sh, r[i].pcs[t].cb, r[i].pcs[t].ctx)
    ensures r[i + 1].pcs[t] == r[i].pcs[t].(start := LockThreaded, ticket := |r[i].sh.stored| + 1)
  {
    InvAlongRun(r, i);
    var s := r[i];
    assert Agrees(s.sh.owners, t, LocksAt(s.pcs[t])) && Owner(s, CONFIGURATION) == s.pcs[t];
  }

  lemma {:induction false} StoredLater(r: seq<State>, i: nat, b: nat, t: Tid, cb: nat, ctx: nat) returns (j: nat, k: nat)
    requires Run(r) && i <= b && Returned(r, b, t) && t in r[i].pcs && r[i].pcs[t].InStart?
    requires r[i].pcs[t].start == StartAt.Lock || r[i].pcs[t].start == StoreCb || r[i].pcs[t].start == StoreContext
    requires r[i].pcs[t].cb == cb && r[i].pcs[t].ctx == ctx
    ensures i <= j < k < b && Stores(r[j].sh, r[j + 1].sh, cb, ctx)
    ensures FindsOrLaunches(r, k, t, |r[j + 1].sh.stored|)
    decreases b - i
  {
    var own, c := OneStep(r, i, t);
    if own && r[i].pcs[t].start == StoreContext {
      StoredHere(r, i, t, c);
      j := i;
      k := LaunchedLater(r, i + 1, b, t, |r[i].sh.stored| + 1);
    } else {
      j, k := StoredLater(r, i + 1, b, t, cb, ctx);
    }
  }

  /**
   * A start that returns has stored its callback with its context, and after that found a worker running, launched
   * one of its own, or failed to create the thread.
   */
  lemma StartTakesEffect(r: seq<State>, a: nat, b: nat, t: Tid, cb: nat, ctx: nat) returns (j: nat, k: nat)
    requires Run(r) && a < b && Begins(r, a, t, CallStart(cb, ctx)) && Returned(r, b, t)
    ensures a < j < k < b && Stores(r[j].sh, r[j + 1].sh, cb, ctx)
    ensures FindsOrLaunches(r, k, t, |r[j + 1].sh.stored|)
  {
    j, k := StoredLater(r, a + 1, b, t, cb, ctx);
  }

  // ----- a shutdown request in the middle of a discovery -----

  /** The discovery still has a check of the shutdown request before it. */
  predicate CheckAhead(h: Shared, pc: Pc) {
    pc.InDiscover? &&
    (pc.discover == DiscoverAt.Lock || pc.discover == DiscoverAt.Clear
     || (pc.discover == Find && (|pc.found| < 4 || h.engine != []))
     || (pc.discover == Normalize && pc.i < |h.engine|))
  }

  /** It will be cancelled, or is; then its list is empty. */
  predicate Doomed(h: Shared, pc: Pc) {
    h.shutdown &&
    (CheckAhead(h, pc)
     || (pc.InDiscover? && pc.cancelled && pc.discover == Get && h.engine == [])
     || (pc.InDiscover? && pc.cancelled && pc.discover == DiscoverAt.Unlock && pc.list == []))
  }

  lemma DoomedOwn(h: Shared, t: Tid, pc: Pc, c: Choice)
    requires Doomed(h, pc) && pc.discover != DiscoverAt.Unlock && !Discover(h, t, pc, c).Blocked?
    requires pc.discover == Find ==> pc.i == 0
    ensures var m := Discover(h, t, pc, c); m.To? && Doomed(m.sh, m.pc)
  {
  }

  /** Another thread neither takes the request back nor touches a list that is not its own. */
  lemma OthersKeepDoomed(h: Shared, u: Tid, pc: Pc, e: bool, c: Choice)
    requires !Act(h, u, pc, e, c).Blocked? && (pc.InDiscover? && pc.cancelled ==> h.shutdown)
    ensures var m := Act(h, u, pc, e, c);
      (h.shutdown ==> m.sh.shutdown) && (LocksAt(pc).engine || m.sh.engine == h.engine)
  {
    if pc.InDiscover? {
      DiscoverKeepsCancels(h, u, pc, c);
    } else {
      OthersKeepCancels(h, u, pc, e, c);
      OthersKeepEngine(h, u, pc, e, c);
    }
  }

  /** Only one thread is inside the engine. */
  lemma OneInEngine(s: State, t: Tid, u: Tid)
    requires Ownership(s) && t in s.pcs && u in s.pcs && LocksAt(s.pcs[t]).engine && LocksAt(s.pcs[u]).engine
    ensures t == u && Owner(s, ENGINE) == s.pcs[t]
  {
    assert Agrees(s.sh.owners, t, LocksAt(s.pcs[t])) && Agrees(s.sh.owners, u, LocksAt(s.pcs[u]));
  }

  lemma DoomedStep(s: State, u: Tid, c: Choice, s': State, t: Tid)
    requires Ownership(s) && CancelsMean(s) && Step(s, u, c, s') && t in s.pcs && t != u && Doomed(s.sh, s.pcs[t])
    ensures Doomed(s'.sh, s'.pcs[t])
  {
    if LocksAt(s.pcs[t]).engine && LocksAt(s.pcs[u]).engine {
      OneInEngine(s, t, u);
    }
    OthersKeepDoomed(s.sh, u, s.pcs[u], StartUnderWay(s), c);
  }

  lemma DoomedLink(r: seq<State>, i: nat, t: Tid)
    requires Run(r) && i + 1 < |r| && t in r[i].pcs && Doomed(r[i].sh, r[i].pcs[t])
    requires t in r[i + 1].pcs && r[i + 1].pcs[t].InDiscover?
    ensures Doomed(r[i + 1].sh, r[i + 1].pcs[t])
  {
    InvAlongRun(r, i);
    assert Link(Next, r, i);
    var s := r[i];
    var u, c :| Step(s, u, c, r[i + 1]);
    if u != t {
      DoomedStep(s, u, c, r[i + 1], t);
    } else {
      if LocksAt(s.pcs[t]).engine {
        OneInEngine(s, t, t);
      }
      DoomedOwn(s.sh, t, s.pcs[t], c);
    }
  }

  /**
   * A shutdown requested while a discovery still has a check before it, before one of its methods or before one of
   * the entries they found, cancels that discovery, which then hands out the empty list.
   */
  lemma {:induction false} ShutdownCancels(r: seq<State>, a: nat, b: nat, t: Tid)
    requires Run(r) && a <= b < |r| && r[a].sh.shutdown
    requires t in r[a].pcs && CheckAhead(r[a].sh, r[a].pcs[t])
    requires forall i | a <= i <= b :: t in r[i].pcs && r[i].pcs[t].InDiscover?
    ensures Doomed(r[b].sh, r[b].pcs[t])
    ensures r[b].pcs[t].discover == DiscoverAt.Unlock ==> r[b].pcs[t].cancelled && r[b].pcs[t].list == []
    decreases b
  {
    if a < b {
      ShutdownCancels(r, a, b - 1, t);
      DoomedLink(r, b - 1, t);
    }
  }
}
