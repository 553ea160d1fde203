/** What one worker's notify pass does: which callbacks it settles, which it cannot reach, and whom it visits. */
module ProxyCallbacks {
  import opened Options
  import opened Runs
  import opened ProxyInfoModel
  import opened ProxyDiscoveryEngines
  import opened ConsumerRegistry
  import opened ProxyProtocol
  import opened ProxyProtocolProofs

  // ----- ahead of the configuration or past it -----

  /** The worker still has the configuration's turn, or its callback, before it. */
  ghost predicate Ahead(h: Shared, pc: Pc) {
    match pc
    case InDiscover(_, task, _, _, _, _) => task.Worker?
    case InNotify(at, task, i, _) =>
      task.Worker? &&
      (at == NotifyAt.Lock || at == LockConfig || at == Invoke
       || (at == NotifyAt.Consumer && i <= |h.consumers| && Configuration in h.consumers[i..]))
    case _ => false
  }

  /** The worker is past it. */
  ghost predicate Past(h: Shared, pc: Pc) {
    match pc
    case InNotify(at, task, i, _) =>
      task.Worker? &&
      (at == ClearCb || at == ClearContext || at == UnlockConfig || at == NotifyAt.Unlock
       || (at == NotifyAt.Consumer && (i > |h.consumers| || Configuration !in h.consumers[i..])))
    case InTail(_, _) => true
    case _ => false
  }

  /** A launched worker, from its first step to its last. */
  predicate IsWorker(pc: Pc) {
    match pc
    case InDiscover(_, task, _, _, _, _) => task.Worker?
    case InNotify(_, task, _, _) => task.Worker?
    case InTail(_, _) => true
    case _ => false
  }

  /** A worker is always one or the other. */
  lemma AheadOrPast(h: Shared, pc: Pc)
    requires IsWorker(pc)
    ensures Ahead(h, pc) <==> !Past(h, pc)
  {
  }

  /** The ticket-th stored callback has been invoked, or replaced by a later one. */
  ghost predicate Settled(h: Shared, ticket: nat) {
    |h.stored| > ticket || LastAsOf(h) >= ticket
  }

  /** How far a worker is with the ticket-th callback, while the configuration is registered. */
  ghost predicate Progress(h: Shared, pc: Pc, ticket: nat) {
    ticket <= |h.stored| && (Ahead(h, pc) || (Past(h, pc) && Settled(h, ticket)))
  }

  // ----- steps of other threads -----

  /** What a step of another thread leaves of a worker's progress. */
  ghost predicate Lasts(h: Shared, pc: Pc, m: Move)
    requires !m.Blocked?
  {
    && |h.stored| <= |m.sh.stored| && LastAsOf(h) <= LastAsOf(m.sh)
    && (m.sh.consumers == h.consumers || LocksAt(pc).consumers)
  }

  lemma NotifyLasts(h: Shared, t: Tid, pc: Pc)
    requires pc.InNotify? && !Notify(h, t, pc).Blocked? && History(h)
    ensures Lasts(h, pc, Notify(h, t, pc))
  {
    LastIsValid(h);
  }

  lemma DiscoverLasts(h: Shared, t: Tid, pc: Pc, c: Choice)
    requires pc.InDiscover? && !Discover(h, t, pc, c).Blocked?
    ensures Lasts(h, pc, Discover(h, t, pc, c))
  {
  }

  lemma OthersLast(h: Shared, t: Tid, pc: Pc, u: bool, c: Choice)
    requires !pc.InNotify? && !pc.InDiscover? && !Act(h, t, pc, u, c).Blocked?
    ensures Lasts(h, pc, Act(h, t, pc, u, c))
  {
  }

  lemma ActLasts(h: Shared, t: Tid, pc: Pc, u: bool, c: Choice)
    requires !Act(h, t, pc, u, c).Blocked? && History(h)
    ensures Lasts(h, pc, Act(h, t, pc, u, c))
  {
    if pc.InNotify? {
      NotifyLasts(h, t, pc);
    } else if pc.InDiscover? {
      DiscoverLasts(h, t, pc, c);
    } else {
      OthersLast(h, t, pc, u, c);
    }
  }

  /** While a worker looks at the registry nobody else changes it. */
  lemma OthersKeepPlace(s: State, t: Tid, c: Choice, s': State, w: Tid)
    requires Ownership(s) && History(s.sh) && Step(s, t, c, s') && w in s.pcs && t != w
    ensures s'.pcs[w] == s.pcs[w]
    ensures LocksAt(s.pcs[w]).consumers ==> s'.sh.consumers == s.sh.consumers
    ensures |s.sh.stored| <= |s'.sh.stored| && LastAsOf(s.sh) <= LastAsOf(s'.sh)
  {
    assert Agrees(s.sh.owners, w, LocksAt(s.pcs[w])) && Agrees(s.sh.owners, t, LocksAt(s.pcs[t]));
    ActLasts(s.sh, t, s.pcs[t], StartUnderWay(s), c);
  }

  // ----- the worker's own steps -----

  lemma NotifyProgress(h: Shared, t: Tid, pc: Pc, ticket: nat)
    requires pc.InNotify? && !Notify(h, t, pc).Blocked? && FromTheStart(pc)
    requires History(h) && Progress(h, pc, ticket) && Configuration in h.consumers
    requires pc.notify == Invoke ==> Pending(h, pc)
    ensures var m := Notify(h, t, pc); Progress(m.sh, m.pc, ticket)
  {
    LastIsValid(h);
  }

  lemma DiscoverProgress(h: Shared, t: Tid, pc: Pc, c: Choice, ticket: nat)
    requires pc.InDiscover? && !Discover(h, t, pc, c).Blocked? && Progress(h, pc, ticket)
    ensures var m := Discover(h, t, pc, c); m.To? && Progress(m.sh, m.pc, ticket)
  {
  }

  lemma TailProgress(h: Shared, t: Tid, pc: Pc, ticket: nat)
    requires pc.InTail? && !Tail(h, t, pc).Blocked? && Progress(h, pc, ticket)
    ensures var m := Tail(h, t, pc); m.To? && Progress(m.sh, m.pc, ticket)
  {
  }

  lemma ProgressStep(s: State, t: Tid, c: Choice, s': State, w: Tid, ticket: nat)
    requires Inv(s) && Step(s, t, c, s')
    requires w in s.pcs && Progress(s.sh, s.pcs[w], ticket) && Configuration in s.sh.consumers
    ensures Progress(s'.sh, s'.pcs[w], ticket)
  {
    if t != w {
      OthersKeepPlace(s, t, c, s', w);
    } else if s.pcs[w].InNotify? {
      assert Agrees(s.sh.owners, w, LocksAt(s.pcs[w])) && FromTheStart(s.pcs[w]);
      NotifyProgress(s.sh, t, s.pcs[t], ticket);
    } else if s.pcs[w].InDiscover? {
      DiscoverProgress(s.sh, t, s.pcs[t], c, ticket);
    } else {
      TailProgress(s.sh, t, s.pcs[t], ticket);
    }
  }

  lemma ProgressNext(s: State, s': State, w: Tid, ticket: nat)
    requires Inv(s) && Next(s, s')
    requires w in s.pcs && Progress(s.sh, s.pcs[w], ticket) && Configuration in s.sh.consumers
    ensures w in s'.pcs && Progress(s'.sh, s'.pcs[w], ticket)
  {
    var t, c :| Step(s, t, c, s');
    ProgressStep(s, t, c, s', w, ticket);
  }

  ghost predicate RegisteredFrom(r: seq<State>, a: nat, b: nat)
    requires b < |r|
  {
    forall i | a <= i <= b :: Configuration in r[i].sh.consumers
  }

  lemma ProgressLink(r: seq<State>, i: nat, w: Tid, ticket: nat)
    requires Run(r) && i + 1 < |r| && Configuration in r[i].sh.consumers
    requires w in r[i].pcs && Progress(r[i].sh, r[i].pcs[w], ticket)
    ensures w in r[i + 1].pcs && Progress(r[i + 1].sh, r[i + 1].pcs[w], ticket)
  {
    InvAlongRun(r, i);
    assert Link(Next, r, i);
    ProgressNext(r[i], r[i + 1], w, ticket);
  }

  lemma {:induction false} ProgressAlongRun(r: seq<State>, a: nat, b: nat, w: Tid, ticket: nat)
    requires Run(r) && a <= b < |r| && RegisteredFrom(r, a, b)
    requires w in r[a].pcs && Progress(r[a].sh, r[a].pcs[w], ticket)
    ensures w in r[b].pcs && Progress(r[b].sh, r[b].pcs[w], ticket)
    decreases b
  {
    if a < b {
      ProgressAlongRun(r, a, b - 1, w, ticket);
      ProgressLink(r, b - 1, w, ticket);
    }
  }

  ghost predicate Called(h: Shared, ticket: nat) {
    exists call <- h.invoked :: call.asOf == ticket
  }

  lemma SettledMeans(h: Shared, ticket: nat)
    requires History(h) && 1 <= ticket <= |h.stored| && Settled(h, ticket)
    ensures ticket < |h.stored| || Called(h, ticket)
  {
    LastIsValid(h);
    if ticket == |h.stored| {
      assert h.invoked[|h.invoked| - 1] in h.invoked;
    }
  }

  /**
   * A worker that is ahead of the configuration settles the callback stored last, whichever start stored it:
   * once the worker is past its pass that callback has been invoked or replaced,
   * provided the configuration stayed registered meanwhile.
   */
  lemma AheadSettles(r: seq<State>, a: nat, b: nat, w: Tid)
    requires Run(r) && a <= b < |r| && RegisteredFrom(r, a, b)
    requires w in r[a].pcs && Ahead(r[a].sh, r[a].pcs[w]) && r[a].sh.stored != []
    requires w in r[b].pcs && r[b].pcs[w].InTail?
    ensures |r[a].sh.stored| <= |r[b].sh.stored|
    ensures |r[a].sh.stored| < |r[b].sh.stored| || Called(r[b].sh, |r[a].sh.stored|)
  {
    ProgressAlongRun(r, a, b, w, |r[a].sh.stored|);
    InvAlongRun(r, b);
    SettledMeans(r[b].sh, |r[a].sh.stored|);
  }

  /**
   * If a start really launched a worker, then by the time that worker is past its pass the callback stored
   * by the start has been invoked or replaced, provided the configuration stayed registered meanwhile.
   */
  lemma LaunchedCallbackSettles(r: seq<State>, a: nat, b: nat, w: Tid, ticket: nat)
    requires Run(r) && a <= b < |r| && RegisteredFrom(r, a, b)
    requires w in r[a].pcs && r[a].pcs[w] == Discovery(Worker(ticket))
    requires w in r[b].pcs && r[b].pcs[w].InTail?
    ensures 1 <= ticket <= |r[b].sh.stored|
    ensures ticket < |r[b].sh.stored| || Called(r[b].sh, ticket)
  {
    InvAlongRun(r, a);
    assert Ticketed(r[a].pcs[w]) && TicketOf(r[a].pcs[w]) == ticket;
    ProgressAlongRun(r, a, b, w, ticket);
    InvAlongRun(r, b);
    SettledMeans(r[b].sh, ticket);
  }

  // ----- a worker past the configuration calls nobody any more -----

  /** No later consumer of the pass is the configuration again. */
  lemma NotTwice(consumers: seq<Consumer>, i: nat)
    requires Distinct(consumers) && i < |consumers| && consumers[i] == Configuration
    ensures Configuration !in consumers[i + 1..]
  {
  }

  lemma NotifyPast(h: Shared, t: Tid, pc: Pc)
    requires pc.InNotify? && !Notify(h, t, pc).Blocked? && Past(h, pc) && PassHolds(h, pc)
    ensures var m := Notify(h, t, pc); m.To? && Past(m.sh, m.pc) && m.sh.invoked == h.invoked
  {
    if pc.notify == UnlockConfig {
      NotTwice(h.consumers, pc.index);
    }
  }

  /** A step adds at most one invocation, by the thread that moves, from its place in front of the callback. */
  ghost predicate AddsOwn(h: Shared, t: Tid, pc: Pc, m: Move)
    requires !m.Blocked?
  {
    m.sh.invoked == h.invoked ||
    (pc.InNotify? && pc.notify == Invoke && exists call :: m.sh.invoked == h.invoked + [call] && call.tid == t)
  }

  lemma NotifyAddsOwn(h: Shared, t: Tid, pc: Pc)
    requires pc.InNotify? && !Notify(h, t, pc).Blocked?
    ensures AddsOwn(h, t, pc, Notify(h, t, pc))
  {
  }

  lemma OthersAddNone(h: Shared, t: Tid, pc: Pc, u: bool, c: Choice)
    requires !pc.InNotify? && !Act(h, t, pc, u, c).Blocked?
    ensures Act(h, t, pc, u, c).sh.invoked == h.invoked
  {
  }

  lemma ActAddsOwn(h: Shared, t: Tid, pc: Pc, u: bool, c: Choice)
    requires !Act(h, t, pc, u, c).Blocked?
    ensures AddsOwn(h, t, pc, Act(h, t, pc, u, c))
  {
    if pc.InNotify? {
      NotifyAddsOwn(h, t, pc);
    } else {
      OthersAddNone(h, t, pc, u, c);
    }
  }

  /** What happened between two states: invocations are only added, and none of them by `w`. */
  ghost predicate SilentSince(h: Shared, h': Shared, w: Tid) {
    h.invoked <= h'.invoked && forall k | |h.invoked| <= k < |h'.invoked| :: h'.invoked[k].tid != w
  }

  lemma PastStep(s: State, t: Tid, c: Choice, s': State, w: Tid)
    requires Inv(s) && Step(s, t, c, s') && w in s.pcs && Past(s.sh, s.pcs[w])
    ensures Past(s'.sh, s'.pcs[w]) && SilentSince(s.sh, s'.sh, w)
  {
    var pc := s.pcs[w];
    ActAddsOwn(s.sh, t, s.pcs[t], StartUnderWay(s), c);
    if t != w {
      OthersKeepPlace(s, t, c, s', w);
    } else if pc.InNotify? {
      assert Agrees(s.sh.owners, w, LocksAt(pc)) && Owner(s, CONSUMERS) == pc;
      NotifyPast(s.sh, t, pc);
    }
  }

  lemma PastLink(r: seq<State>, i: nat, w: Tid)
    requires Run(r) && i + 1 < |r| && w in r[i].pcs && Past(r[i].sh, r[i].pcs[w])
    ensures w in r[i + 1].pcs && Past(r[i + 1].sh, r[i + 1].pcs[w]) && SilentSince(r[i].sh, r[i + 1].sh, w)
  {
    InvAlongRun(r, i);
    assert Link(Next, r, i);
    var t, c :| Step(r[i], t, c, r[i + 1]);
    PastStep(r[i], t, c, r[i + 1], w);
  }

  lemma SilenceAdds(h1: Shared, h2: Shared, h3: Shared, w: Tid)
    requires SilentSince(h1, h2, w) && SilentSince(h2, h3, w)
    ensures SilentSince(h1, h3, w)
  {
  }

  /** A worker past the configuration stays past it and invokes no callback any more. */
  lemma {:induction false} PastNeverCalls(r: seq<State>, a: nat, b: nat, w: Tid)
    requires Run(r) && a <= b < |r| && w in r[a].pcs && Past(r[a].sh, r[a].pcs[w])
    ensures w in r[b].pcs && Past(r[b].sh, r[b].pcs[w]) && SilentSince(r[a].sh, r[b].sh, w)
    decreases b
  {
    if a < b {
      PastNeverCalls(r, a, b - 1, w);
      PastLink(r, b - 1, w);
      SilenceAdds(r[a].sh, r[b - 1].sh, r[b].sh, w);
    }
  }

  // ----- exactly which callbacks a running worker settles -----

  /** A start that finds the flag set has stored the last callback, and one worker is running. */
  lemma RunningStartHasWorker(r: seq<State>, a: nat, t: Tid)
    requires Run(r) && a < |r| && t in r[a].pcs && r[a].pcs[t].InStart? && r[a].pcs[t].start == StartAt.Check
    requires r[a].sh.running
    ensures r[a].pcs[t].ticket == |r[a].sh.stored| >= 1
    ensures r[a].sh.runner.Some? && r[a].sh.runner.value in r[a].pcs && IsWorker(r[a].pcs[r[a].sh.runner.value])
  {
    InvAlongRun(r, a);
    var s := r[a];
    var w := s.sh.runner.value;
    assert Agrees(s.sh.owners, t, LocksAt(s.pcs[t])) && Owner(s, CONFIGURATION) == s.pcs[t];
    assert Agrees(s.sh.owners, w, LocksAt(s.pcs[w])) && Active(s.pcs[w]);
    assert Ticketed(s.pcs[t]);
  }

  /**
   * The callback stored last is pending at `a` and none replaces it up to `b`. Whoever calls back meanwhile was
   * a worker at `a` already, and all of those are past their pass at `b`.
   */
  ghost predicate OnlyWorkersCall(r: seq<State>, a: nat, b: nat)
    requires a <= b < |r|
  {
    && r[a].sh.stored != [] && LastAsOf(r[a].sh) < |r[a].sh.stored| == |r[b].sh.stored|
    && (forall k | |r[a].sh.invoked| <= k < |r[b].sh.invoked| ::
          r[b].sh.invoked[k].tid in r[a].pcs && IsWorker(r[a].pcs[r[b].sh.invoked[k].tid]))
    && (forall w <- r[a].pcs | IsWorker(r[a].pcs[w]) :: w in r[b].pcs && r[b].pcs[w].InTail?)
  }

  ghost predicate SomebodyAhead(s: State) {
    exists w <- s.pcs :: Ahead(s.sh, s.pcs[w])
  }

  /** A step adds nothing to the invocations, or one. */
  lemma InvokedGrows(r: seq<State>, i: nat)
    requires Run(r) && i + 1 < |r|
    ensures r[i].sh.invoked <= r[i + 1].sh.invoked
  {
    assert Link(Next, r, i);
    var t, c :| Step(r[i], t, c, r[i + 1]);
    ActAddsOwn(r[i].sh, t, r[i].pcs[t], StartUnderWay(r[i]), c);
  }

  lemma {:induction false} InvokedGrowsAlong(r: seq<State>, a: nat, b: nat)
    requires Run(r) && a <= b < |r|
    ensures r[a].sh.invoked <= r[b].sh.invoked
    decreases b
  {
    if a < b {
      InvokedGrowsAlong(r, a, b - 1);
      InvokedGrows(r, b - 1);
    }
  }

  /** The first invocation after `a`, if there is one, is by a thread that was no worker past the configuration. */
  lemma NextCaller(r: seq<State>, a: nat, b: nat) returns (w: Tid)
    requires Run(r) && a <= b < |r| && r[a].sh.invoked != r[b].sh.invoked
    ensures |r[a].sh.invoked| < |r[b].sh.invoked| && w == r[b].sh.invoked[|r[a].sh.invoked|].tid
    ensures w in r[a].pcs ==> !Past(r[a].sh, r[a].pcs[w])
  {
    InvokedGrowsAlong(r, a, b);
    w := r[b].sh.invoked[|r[a].sh.invoked|].tid;
    if w in r[a].pcs && Past(r[a].sh, r[a].pcs[w]) {
      PastNeverCalls(r, a, b, w);
    }
  }

  lemma NobodyAheadNobodyCalls(r: seq<State>, a: nat, b: nat)
    requires Run(r) && a <= b < |r| && OnlyWorkersCall(r, a, b)
    ensures r[b].sh.invoked == r[a].sh.invoked || SomebodyAhead(r[a])
  {
    if r[a].sh.invoked != r[b].sh.invoked {
      var w := NextCaller(r, a, b);
      AheadOrPast(r[a].sh, r[a].pcs[w]);
    }
  }

  lemma AheadIsWorker(h: Shared, pc: Pc)
    requires Ahead(h, pc)
    ensures IsWorker(pc)
  {
  }

  /**
   * Exactly when a pending callback that is not replaced is called without a further start or pass: if and only if
   * some worker is still ahead of the configuration. It is not when the start that stored it found the worker past
   * its pass, nor when there is no worker because its thread could not be created.
   */
  lemma CalledExactlyWhenAhead(r: seq<State>, a: nat, b: nat)
    requires Run(r) && a <= b < |r| && RegisteredFrom(r, a, b) && OnlyWorkersCall(r, a, b)
    ensures Called(r[b].sh, |r[a].sh.stored|) <==> exists w <- r[a].pcs :: Ahead(r[a].sh, r[a].pcs[w])
  {
    if w :| w in r[a].pcs && Ahead(r[a].sh, r[a].pcs[w]) {
      AheadIsWorker(r[a].sh, r[a].pcs[w]);
      AheadSettles(r, a, b, w);
    } else {
      NobodyAheadNobodyCalls(r, a, b);
      InvAlongRun(r, a);
      LastIsValid(r[a].sh);
    }
  }

  // ----- one pass, every consumer -----

  predicate InPass(pc: Pc) {
    pc.InNotify? && pc.notify != NotifyAt.Lock
  }

  ghost predicate PassDuring(r: seq<State>, a: nat, b: nat, w: Tid)
    requires b < |r|
  {
    forall i | a <= i <= b :: w in r[i].pcs && InPass(r[i].pcs[w])
  }

  /** Where a pass is: at a consumer's turn, or busy with it. */
  function Stage(pc: Pc): nat
    requires InPass(pc)
  {
    2 * pc.index + if pc.notify == NotifyAt.Consumer then 0 else 1
  }

  /** A step of a pass: it leaves a consumer's turn for that consumer's work or for the next turn. */
  ghost predicate NextStage(h: Shared, pc: Pc, pc': Pc)
    requires InPass(pc) && InPass(pc')
  {
    && (pc.notify == NotifyAt.Consumer ==>
          (pc'.notify == NotifyAt.Unlock && pc'.index == pc.index == |h.consumers|)
          || (pc.index < |h.consumers| && Stage(pc) < Stage(pc') <= Stage(pc) + 2))
    && (pc.notify != NotifyAt.Consumer ==>
          if pc'.notify == NotifyAt.Consumer then pc'.index == pc.index + 1 else pc'.index == pc.index)
    && (pc'.notify == NotifyAt.Unlock ==> pc'.index == |h.consumers|)
  }

  lemma NotifyStage(h: Shared, t: Tid, pc: Pc)
    requires InPass(pc) && pc.notify != NotifyAt.Unlock && !Notify(h, t, pc).Blocked? && pc.index <= |h.consumers|
    ensures var m := Notify(h, t, pc);
      m.To? && m.sh.consumers == h.consumers && InPass(m.pc) && NextStage(h, pc, m.pc) && m.pc != pc
  {
  }

  lemma PassLink(r: seq<State>, i: nat, w: Tid)
    requires Run(r) && i + 1 < |r| && w in r[i].pcs && InPass(r[i].pcs[w])
    requires w in r[i + 1].pcs && InPass(r[i + 1].pcs[w])
    ensures r[i + 1].sh.consumers == r[i].sh.consumers && Distinct(r[i].sh.consumers)
    ensures r[i + 1].pcs[w] == r[i].pcs[w] || NextStage(r[i].sh, r[i].pcs[w], r[i + 1].pcs[w])
  {
    InvAlongRun(r, i);
    assert Link(Next, r, i);
    var s := r[i];
    var t, c :| Step(s, t, c, r[i + 1]);
    assert Agrees(s.sh.owners, w, LocksAt(s.pcs[w])) && Owner(s, CONSUMERS) == s.pcs[w];
    if t != w {
      OthersKeepPlace(s, t, c, r[i + 1], w);
    } else {
      NotifyStage(s.sh, t, s.pcs[w]);
    }
  }

  /** Step i of the run is the turn of the k-th consumer in the pass of `w`. */
  ghost predicate Visits(r: seq<State>, i: nat, w: Tid, k: nat) {
    && i + 1 < |r| && w in r[i].pcs && w in r[i + 1].pcs
    && r[i].pcs[w].InNotify? && r[i].pcs[w].notify == NotifyAt.Consumer && r[i].pcs[w].index == k
    && r[i + 1].pcs[w] != r[i].pcs[w]
  }

  ghost predicate VisitedOnce(r: seq<State>, a: nat, b: nat, w: Tid, k: nat) {
    && (exists i: nat | a <= i < b :: Visits(r, i, w, k))
    && (forall i: nat, j: nat | a <= i < b && a <= j < b :: Visits(r, i, w, k) && Visits(r, j, w, k) ==> i == j)
  }

  ghost predicate NeverVisited(r: seq<State>, a: nat, b: nat, w: Tid, k: nat) {
    forall i: nat | a <= i < b :: !Visits(r, i, w, k)
  }

  lemma VisitedMore(r: seq<State>, a: nat, b: nat, w: Tid, k: nat)
    requires a <= b
    ensures Visits(r, b, w, k) && NeverVisited(r, a, b, w, k) ==> VisitedOnce(r, a, b + 1, w, k)
    ensures !Visits(r, b, w, k) && NeverVisited(r, a, b, w, k) ==> NeverVisited(r, a, b + 1, w, k)
    ensures !Visits(r, b, w, k) && VisitedOnce(r, a, b, w, k) ==> VisitedOnce(r, a, b + 1, w, k)
  {
  }

  /** Up to any moment of the pass, the consumers before its stage had one turn each and the others none. */
  ghost predicate TurnsSoFar(r: seq<State>, a: nat, b: nat, w: Tid)
    requires b < |r| && w in r[b].pcs && InPass(r[b].pcs[w])
  {
    forall k: nat | k < |r[b].sh.consumers| ::
      if 2 * k < Stage(r[b].pcs[w]) then VisitedOnce(r, a, b, w, k) else NeverVisited(r, a, b, w, k)
  }

  lemma TurnsMore(r: seq<State>, a: nat, b: nat, w: Tid)
    requires a <= b && b + 1 < |r| && w in r[b].pcs && InPass(r[b].pcs[w]) && TurnsSoFar(r, a, b, w)
    requires w in r[b + 1].pcs && InPass(r[b + 1].pcs[w]) && r[b + 1].sh.consumers == r[b].sh.consumers
    requires r[b + 1].pcs[w] == r[b].pcs[w] || NextStage(r[b].sh, r[b].pcs[w], r[b + 1].pcs[w])
    ensures TurnsSoFar(r, a, b + 1, w)
  {
    forall k: nat | k < |r[b].sh.consumers|
      ensures if 2 * k < Stage(r[b + 1].pcs[w]) then VisitedOnce(r, a, b + 1, w, k) else NeverVisited(r, a, b + 1, w, k)
    {
      VisitedMore(r, a, b, w, k);
    }
  }

  lemma {:induction false} PassTurns(r: seq<State>, a: nat, b: nat, w: Tid)
    requires Run(r) && a <= b < |r| && PassDuring(r, a, b, w)
    requires r[a].pcs[w].notify == NotifyAt.Consumer && r[a].pcs[w].index == 0
    ensures r[b].sh.consumers == r[a].sh.consumers && TurnsSoFar(r, a, b, w)
    decreases b
  {
    if a < b {
      PassTurns(r, a, b - 1, w);
      PassLink(r, b - 1, w);
      TurnsMore(r, a, b - 1, w);
    }
  }

  lemma UnlockAtEnd(r: seq<State>, a: nat, b: nat, w: Tid)
    requires Run(r) && a <= b < |r| && PassDuring(r, a, b, w)
    requires r[a].pcs[w].notify == NotifyAt.Consumer && r[b].pcs[w].notify == NotifyAt.Unlock
    ensures r[b].pcs[w].index == |r[b].sh.consumers|
    decreases b
  {
    PassLink(r, b - 1, w);
    if r[b - 1].pcs[w].notify == NotifyAt.Unlock {
      UnlockAtEnd(r, a, b - 1, w);
    }
  }

  /**
   * One notify pass, from taking the registry's mutex to giving it back, of a worker or of a client: the registry
   * does not change, its consumers are pairwise different, and each of them gets exactly one turn.
   */
  lemma PassVisitsAll(r: seq<State>, a: nat, b: nat, w: Tid)
    requires Run(r) && a <= b < |r| && PassDuring(r, a, b, w)
    requires r[a].pcs[w].notify == NotifyAt.Consumer && r[a].pcs[w].index == 0
    requires r[b].pcs[w].notify == NotifyAt.Unlock
    ensures Distinct(r[a].sh.consumers) && r[b].sh.consumers == r[a].sh.consumers
    ensures forall k: nat | k < |r[a].sh.consumers| :: VisitedOnce(r, a, b, w, k)
  {
    PassTurns(r, a, b, w);
    UnlockAtEnd(r, a, b, w);
    PassLink(r, a, w);
  }
}
