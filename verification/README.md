# Cloud management agent: a verified model

A Dafny model of the stateful cores of the Windows cloud management agent, with proofs of what they are for.

- **Proxy discovery** (`ProxyProtocol.dfy`, `ProxyProtocolProofs.dfy`, `ProxyCallbacks.dfy`, `ProxyCalls.dfy`,
  `ProxyProgress.dfy`, `ProxyLateCallback.dfy`, on `Runs.dfy`): any number of client threads, the detached discovery
  workers, four mutexes, the consumer registry, the one-shot callback and the shutdown flag, as a system of steps. An
  inductive invariant over all interleavings gives the single worker, the destructor's wait, safety of callbacks,
  exactly which of them are called, whole lists and deadlock freedom. On top of it stands what each call does from
  beginning to return, and that every call can end. `ProxyDiscovery.dfy` and `ProxyDiscoveryEngine.dfy` hold the
  registry and the engine as sequential objects.
- **Agent supervisor** (`AgentSupervisor.dfy`, `AgentSupervisorProofs.dfy`, `AgentSupervisorCalls.dfy`,
  `AgentSupervisorHang.dfy`): plugin, controller, monitor threads and child processes as a system of steps, with at most
  one live child, a clean stop, the coupling of the two flags, handles closed once, no launch without its checks or
  after a stop has cleared the flag, no deadlock among the two locks, and exactly when the monitor can restart the child
  and when the join of a stop can be over.
- **Proxy strings** (`Strings.dfy`, `ProxyStringParser.dfy`, `ProxyRoundTrip.dfy`): the table-driven parser with its
  in-place splitter and index arithmetic, proved equal to a grammar on the unread text, and the print/parse round trip.
- **Package discovery** (`MsiApi.dfy`, `RegistryKeys.dfy`, `PackageDiscovery.dfy`, `InventoryContents.dfy`,
  `KnownFolders.dfy`, `FileSearch.dfy`): live and cached MSI lookups, first hit among the rules, known-folder resolution
  and its inverse, the recursive wildcard search, the order-preserving deduplication behind the inventory, and what
  every entry of an inventory says.
- **Log level** (`LogLevel.dfy`): the cache keyed by modification time, the poll and the logger's range guard.
- **Custom action data** (`CustomActionData.dfy`): packing installer properties and taking them apart again.

Operating-system calls are parameters (a directory listing, an enumeration of products, a registry lookup) or choices
of a step (a process ends, a system call fails). Operations that loop or change fields are methods of classes, each
proved equal to a function whose properties are then proved as lemmas. Code that runs on several threads at once is a
step relation on values; a step is one access to shared data. Theorems about it speak of every run.

What the code does where that differs from what one would expect, with the exact condition under which it does what is
expected:

- A start stores its callback first and reports success whatever comes next. It may launch a worker, find one running,
  or fail to create the thread. With no later start and no other pass, the callback is called if and only if some worker
  is then still ahead of the configuration in its notify pass: `CalledExactlyWhenAhead`, with the halves `AheadSettles`
  and `PastNeverCalls`. `LateCallbackLost` and `FailedLaunchLost` are runs, from the first call to rest, in which a
  callback is never called.
- A Stop that joins a monitor with no process left to wait on never returns. That happens after a failed restart, and
  when a Stop has terminated the child and closed its handle before the monitor reads it: `StopHangs`,
  `StopHangsBeforeFirstWait`. The join can be over if and only if the monitor is not doomed in this way:
  `JoinEndsExactly`.
- A restart that fails after its signature check is not tried again: the cleanup leaves the monitor no process to
  wait on. The monitor can restart
  the child if and only if it is not in that state or cleaning up, and no Stop is about to clear the flag:
  `RestartsExactly`.
- An ordinary URL that ends in a slash, such as `http://host:8080/`, is refused, and the entry that is appended all the
  same holds the host as its type and nothing else: `UrlWithSlashRefused`.
- The cached MSI lookup never looks at the rule's type and needs both criteria: `CacheAgreesExactly`.
- A tag that is not at the front of a path is never put back, because the substring count is taken from the start of
  the path: `UnresolveNeedsFront`. With the tag in front it is put back if and only if the remaining path first occurs
  right after the folder: `UnresolveFront`.
- An empty list of proxies does not come back: the empty string is one empty piece. `RoundTrip` holds exactly for
  non-empty lists.
- The wildcard search also returns regular files that match an intermediate component: `OnlyFullMatches`.
- A configuration file changed under an unchanged or older modification time goes unnoticed, unless it was found missing
  or unreadable in between: `LoadIsFreshExactly`, `CacheIsFresh`, `StaleExample`.
- The joined installer string is always separated by `|`, whatever delimiter is passed: `BuildCustomActionData`. When
  unpacking at a delimiter gives the values back is `UnpackAtExactly`.

## Model

| member | source | states |
|---|---|---|
| `ProxyProtocolProofs.SingleWorker` | SharedLibs/libProxy/ThreadedProxyDiscovery.cpp:48-95 | in every reachable state two workers never coexist, and whenever the mutex is free the running flag holds exactly when a launched worker has not yet cleared it |
| `ProxyProtocolProofs.DestructorWaits` | SharedLibs/libProxy/ThreadedProxyDiscovery.cpp:17-36 | once the destructor is past its loop no worker is left, not even one in its last unlock, none comes back, and every start that was under way has given the mutex back |
| `ProxyProgress.DestructorCanFinish` | SharedLibs/libProxy/ThreadedProxyDiscovery.cpp:17-36 | from every reachable state after destruction has begun, whatever the other threads are doing, some continuation brings the destructor to its end |
| `ProxyProgress.Release` | SharedLibs/libProxy/ProxyDiscovery.cpp:18-101 | from every reachable state each mutex can come free, with only owners of it or of later ones moving |
| `ProxyProgress.EveryCallCanEnd` | SharedLibs/libProxy/ProxyDiscovery.cpp:18-101 | from every reachable state, whatever the other threads are doing, some continuation brings a given thread to the end of its call, or of its life when it is a worker or the destructor |
| `ProxyProgress.RunnerEnds` | SharedLibs/libProxy/ThreadedProxyDiscovery.cpp:86-95 | after destruction has begun the running worker, or the start about to launch one, can come to its end, and none follows it |
| `ProxyProtocolProofs.CallbackSafety` | WindowsPackageManager/libPmAgent/WindowsConfiguration.cpp:214-246 | over whole runs no stored callback is invoked twice, and each is invoked with its own context as the one stored last at that time |
| `ProxyCallbacks.AheadSettles` | WindowsPackageManager/libPmAgent/WindowsConfiguration.cpp:214-246 | a worker that still has the configuration before it settles the callback stored last, whichever start stored it: once the worker is past its pass that callback has been invoked or replaced, while the configuration stays registered |
| `ProxyCallbacks.PastNeverCalls` | WindowsPackageManager/libPmAgent/WindowsConfiguration.cpp:230-246 | a worker past the configuration stays past it and invokes no callback any more, over any run |
| `ProxyCallbacks.CalledExactlyWhenAhead` | SharedLibs/libProxy/ThreadedProxyDiscovery.cpp:48-68 | whatever the start that stored it came to: a pending callback that no start replaces, with no caller but the workers there are, is called if and only if one of those workers is still ahead of the configuration |
| `ProxyCallbacks.AheadOrPast` | SharedLibs/libProxy/ProxyDiscovery.cpp:66-101 | from its first step to its last a worker is either ahead of the configuration or past it |
| `ProxyCallbacks.RunningStartHasWorker` | SharedLibs/libProxy/ThreadedProxyDiscovery.cpp:52-56 | a start that finds the flag set has stored the last callback, and there is a launched worker |
| `ProxyCallbacks.LaunchedCallbackSettles` | WindowsPackageManager/libPmAgent/WindowsConfiguration.cpp:214-246 | when a start launched a worker, then once that worker is past its pass the callback of that start has been invoked or replaced, while the configuration stays registered |
| `ProxyCallbacks.PassVisitsAll` | SharedLibs/libProxy/ProxyDiscovery.cpp:94-101 | one notify pass, of a worker or of a client, leaves the registry alone and gives each registered consumer exactly one turn |
| `ProxyCalls.QueryIsSilent` | WindowsPackageManager/libPmAgent/WindowsConfiguration.cpp:198-212 | a call that only asks for the proxies is never in a notify pass and calls nobody back until it has returned; it returns only after a discovery of its own has handed out a list |
| `ProxyCalls.NotifyingCallVisitsAll` | SharedLibs/libProxy/ProxyDiscovery.cpp:74-101 | a call that notifies returns only after a whole pass of its own: each consumer registered had exactly one turn, the pending callback was called or replaced, and what the thread called back got the list that this very call discovered |
| `ProxyCalls.WorkerVisitsAll` | SharedLibs/libProxy/ThreadedProxyDiscovery.cpp:86-95 | a launched worker comes to its tail, with its ticket, only after such a pass |
| `ProxyCalls.PassSettles` | WindowsPackageManager/libPmAgent/WindowsConfiguration.cpp:230-246 | a pass, of a worker or of a client, over a registry with the configuration settles the callback stored last when it began |
| `ProxyCalls.StartTakesEffect` | WindowsPackageManager/libPmAgent/WindowsConfiguration.cpp:214-228 | a start that returns has stored its callback with its context, and after that found a worker running, launched one with its ticket, or failed to create the thread |
| `ProxyCalls.RegistrationTakesEffect` | SharedLibs/libProxy/ProxyDiscovery.cpp:18-64 | a registration, or its undoing, is applied between the call and its return |
| `ProxyCalls.RegistryChanges` | SharedLibs/libProxy/ProxyDiscovery.cpp:18-64 | the registry changes only by a thread that registers or unregisters, as that thread asked |
| `ProxyCalls.ShutdownCancels` | SharedLibs/libProxy/ProxyDiscoveryEngine.cpp:209-239 | a shutdown requested while a discovery has a check before it, before one of its methods or of the entries they found, cancels it, and it hands out the empty list |
| `ProxyCalls.CallsBegin` | SharedLibs/libProxy/ThreadedProxyDiscovery.cpp:32-81 | an idle thread can begin every call, a start unless destruction has begun, and destruction once |
| `ProxyProtocolProofs.FieldsMatch` | WindowsPackageManager/libPmAgent/WindowsConfiguration.cpp:214-246 | with the mutex free callback and context are those stored last, or both are empty once that callback has been invoked |
| `ProxyLateCallback.LateCallbackLost` | SharedLibs/libProxy/ThreadedProxyDiscovery.cpp:52-56 | for any callback and context, a run after which every thread is at rest, the configuration is registered, that callback is the one stored last and it has never been called |
| `ProxyLateCallback.FailedLaunchLost` | SharedLibs/libProxy/ThreadedProxyDiscovery.cpp:58-67 | the same for a single start whose thread cannot be created |
| `ProxyProtocolProofs.DiscoveryWhole` | SharedLibs/libProxy/ProxyDiscovery.cpp:83-101 | under concurrent discoveries every list handed out is the normalised concatenation of what that one thread's methods found, or empty after a cancel, which needs a shutdown request; a callback gets a list handed to the very thread that calls it |
| `ProxyProtocolProofs.LocksAreOrdered` | SharedLibs/libProxy/ProxyDiscovery.cpp:18-101 | locks are only nested upwards in one order of the four mutexes; the engine's mutex is only ever held alone |
| `ProxyProtocolProofs.DeadlockFree` | SharedLibs/libProxy/ThreadedProxyDiscovery.cpp:17-95 | in every reachable state of any number of threads, each thread in the middle of a call can step or leads, from owner to owner, to one that can |
| `ProxyProtocolProofs.Root` | SharedLibs/libProxy/ThreadedProxyDiscovery.cpp:48-95 | following what a thread waits for ends at a thread that does not wait and is not at rest |
| `ProxyProtocolProofs.InvAlongRun` | WindowsPackageManager/libPmAgent/WindowsConfiguration.cpp:10-24 | the invariant of the protocol holds in every state of every run |
| `ProxyProtocolProofs.InvStep` | SharedLibs/libProxy/ProxyDiscovery.cpp:66-101 | every step of every thread keeps the invariant |
| `ProxyProtocolProofs.OwnershipStep` | SharedLibs/libProxy/ProxyDiscovery.cpp:21-101 | each thread owns exactly the mutexes its position says, after every step |
| `ProxyProtocolProofs.PendingStep` | WindowsPackageManager/libPmAgent/WindowsConfiguration.cpp:219-244 | callback and context fields always belong to the callback stored last, or it has been invoked |
| `ProxyProtocolProofs.EngineStep` | SharedLibs/libProxy/ProxyDiscovery.cpp:88-91 | while a thread is in the engine its shared list holds only what that thread's methods found |
| `ProxyProtocolProofs.PassStep` | SharedLibs/libProxy/ProxyDiscovery.cpp:94-101 | the registry stays free of duplicates, and a pass at the configuration is at the position of the configuration |
| `ProxyProtocolProofs.RunnerStep` | SharedLibs/libProxy/ThreadedProxyDiscovery.cpp:53-67 | the running flag is accounted for by one thread, handed from the start to the worker it launches |
| `ProxyProtocolProofs.DestructionStep` | SharedLibs/libProxy/ThreadedProxyDiscovery.cpp:20-35 | once destruction has begun no start has its check before it, and past the loop nobody has the flag or the mutex to give back |
| `ProxyCallbacks.ProgressAlongRun` | SharedLibs/libProxy/ProxyDiscovery.cpp:94-101 | along any run a worker is ahead of the configuration or has settled the callback |
| `ConsumerRegistry.ProxyDiscovery.RegisterForProxyNotifications` | SharedLibs/libProxy/ProxyDiscovery.cpp:18-42 | a missing consumer is refused; another is appended unless it is there |
| `ConsumerRegistry.ProxyDiscovery.UnregisterForProxyNotifications` | SharedLibs/libProxy/ProxyDiscovery.cpp:44-64 | a missing consumer is refused; another is erased at its first occurrence |
| `ConsumerRegistry.AddedKeeps` | SharedLibs/libProxy/ProxyDiscovery.cpp:24-31 | registering keeps the registry free of duplicates and in order, and adds that consumer only |
| `ConsumerRegistry.RemovedKeeps` | SharedLibs/libProxy/ProxyDiscovery.cpp:50-57 | unregistering keeps it free of duplicates and removes that consumer only |
| `ConsumerRegistry.RemovedAt` | SharedLibs/libProxy/ProxyDiscovery.cpp:50-57 | only the first occurrence goes, and what is behind it moves up |
| `ConsumerRegistry.RegisterUndone` | SharedLibs/libProxy/ProxyDiscovery.cpp:18-64 | unregistering a newly registered consumer gives the old registry back, in order |
| `ProxyDiscoveryEngines.ProxyDiscoveryEngine.NormalizeList` | SharedLibs/libProxy/ProxyDiscoveryEngine.cpp:212-229 | the entries are rewritten in place one by one, unless a cancel check before one of them fired |
| `ProxyDiscoveryEngines.ProxyDiscoveryEngine.Init` | SharedLibs/libProxy/ProxyDiscoveryEngine.cpp:192-239 | the list ends as the normalised concatenation of the four methods in order exactly when no cancel check fired, else empty; registry, PAC, DHCP, DNS is the order |
| `ProxyDiscoveryEngines.ProxyDiscoveryEngine.GetProxyInfo` | SharedLibs/libProxy/ProxyDiscoveryEngine.cpp:22-28 | a non-empty list is copied out; otherwise the caller keeps what it passed in |
| `ProxyDiscoveryEngines.NormalizedShape` | SharedLibs/libProxy/ProxyDiscoveryEngine.cpp:218-229 | after normalisation no `http` is left, type or access type is set, and normalising again changes nothing |
| `ProxyDiscoveryEngines.NormalizedExactly` | SharedLibs/libProxy/ProxyDiscoveryEngine.cpp:218-229 | which fields are rewritten and to what: `http` becomes `http_proxy` on either side, an entry with neither type gets the type `http_proxy`, every other one stays as it is |
| `ProxyDiscoveryEngines.NormalizedUnique` | SharedLibs/libProxy/ProxyDiscoveryEngine.cpp:218-229 | the gathered list determines the normalised one |
| `AgentSupervisorProofs.AtMostOneChild` | WindowsPackageManager/libControlModule/PmAgentController.cpp:36-103 | in every reachable state at most one launched child is alive, the one whose handle is kept |
| `AgentSupervisorProofs.StopReturnsClean` | WindowsPackageManager/libControlModule/PmAgentController.cpp:61-83 | when Stop returns OK both flags are clear, every monitor has exited, none is joinable, no launched child is alive and the pipe to it is closed |
| `AgentSupervisorProofs.PluginCoupling` | WindowsPackageManager/libControlModule/PmControlPlugin.cpp:25-89 | with the plugin's mutex free its flag holds exactly when a monitor is joinable; a monitor thread is only stored where there is none |
| `AgentSupervisorProofs.NoHandleClosedTwice` | WindowsPackageManager/libControlModule/PmAgentController.cpp:105-117 | no handle is closed twice and none that is kept has been closed |
| `AgentSupervisorProofs.NoLaunchAfterClear` | WindowsPackageManager/libControlModule/PmAgentController.cpp:61-76 | from the moment Stop's critical section has cleared the flag no child is launched and the flag stays clear, even when that Stop fails and leaves its monitor running, until a later start gets past its check |
| `AgentSupervisorProofs.QuietStep` | WindowsPackageManager/libControlModule/PmAgentController.cpp:85-103 | with the flag clear and no start past its check, no step of any thread launches or sets the flag |
| `AgentSupervisorProofs.LaunchesOnlyWhen` | WindowsPackageManager/libControlModule/PmAgentController.cpp:85-103 | a child is launched only when none is alive, and only by a start that holds the mutex of a stopped plugin or by the joinable monitor under its mutex while the flag is set; it is alive then and its handle is kept |
| `AgentSupervisorProofs.WaitsDownwards` | WindowsPackageManager/libControlModule/PmAgentController.cpp:64-82 | waiting leads from the plugin's mutex to the join to the controller's mutex; Stop never joins while it holds the latter |
| `AgentSupervisorProofs.DeadlockFree` | WindowsPackageManager/libControlModule/PmAgentController.cpp:61-103 | each thread in the middle of a call leads to one that can step, or to the joinable monitor that waits on a live child or on an invalid handle |
| `AgentSupervisorProofs.JoinEndsExactly` | WindowsPackageManager/libControlModule/PmAgentController.cpp:78-126 | in every reachable state with a Stop at its join, some continuation brings the join to its end, with OK, if and only if the monitor is not doomed to wait on no process |
| `AgentSupervisorProofs.JoinedMonitorReady` | WindowsPackageManager/libControlModule/PmAgentController.cpp:85-126 | a monitor that is joined and not doomed has exited, or can step, or waits on a live child |
| `AgentSupervisorProofs.JoinStep` | WindowsPackageManager/libControlModule/PmAgentController.cpp:78-103 | while Stop joins, every step of the monitor brings its exit nearer, nobody else moves it, and whether it is doomed does not change |
| `AgentSupervisorProofs.DoomedJoinHangs` | WindowsPackageManager/libControlModule/PmAgentController.cpp:78-126 | a join of a doomed monitor is never over, however the run goes on |
| `AgentSupervisorCalls.RestartsExactly` | WindowsPackageManager/libControlModule/PmAgentController.cpp:85-126 | in every reachable state with the flag set, wherever the monitor is in its loop and whether the child has ended yet or not, some continuation reaches one more launch, with the new child alive, its handle kept and the same monitor waiting for it, if and only if the monitor has not lost the process to wait for and no Stop is about to clear the flag |
| `AgentSupervisorCalls.MonitorCanRestart` | WindowsPackageManager/libControlModule/PmAgentController.cpp:85-103 | the positive half, by induction on the steps before CreateProcess |
| `AgentSupervisorCalls.LostNeverRestarts` | WindowsPackageManager/libControlModule/PmAgentController.cpp:105-126 | a monitor that has no process to wait for, or is about to have none, never restarts one, however the run goes on |
| `AgentSupervisorCalls.OverNeverRestarts` | WindowsPackageManager/libControlModule/PmAgentController.cpp:61-76 | nor does one that a Stop about to clear the flag is ahead of |
| `AgentSupervisorCalls.LaunchAfterChecks` | WindowsPackageManager/libControlModule/PmAgentController.cpp:36-51 | a child is launched only after the signature check, the pipe, its setup and CreateProcess have succeeded, in that order and in one pass through startProcess, and for a start the killing of what was left running |
| `AgentSupervisorCalls.LaunchLeaves` | WindowsPackageManager/libControlModule/PmAgentController.cpp:233-331 | startProcess returns with a new live child and its handle; or, its signature check failed, with nothing changed; or with both handles closed and the fields invalid |
| `AgentSupervisorCalls.StartCanSucceed` | WindowsPackageManager/libControlModule/PmControlPlugin.cpp:25-58 | from every state in which the plugin is stopped and its mutex free, some continuation of a start leaves both flags set, a new live child and a new monitor |
| `AgentSupervisorCalls.StopCanSucceed` | WindowsPackageManager/libControlModule/PmAgentController.cpp:61-83 | from every reachable state with a running child, both mutexes free and a monitor that is not doomed, some continuation of a Stop returns OK |
| `AgentSupervisorCalls.StopOkMeansJoined` | WindowsPackageManager/libControlModule/PmControlPlugin.cpp:61-89 | a Stop returns OK only when it has ended its join; one that fails or finds nothing started does not |
| `AgentSupervisorCalls.StopSectionEnds` | WindowsPackageManager/libControlModule/PmAgentController.cpp:333-362 | a Stop that has cleared the flag goes on with OK only when no launched child is alive, and fails only when there is no process or TerminateProcess fails; the pipe is closed either way |
| `AgentSupervisorHang.StopHangs` | WindowsPackageManager/libControlModule/PmAgentController.cpp:61-126 | a run to a Stop that holds the plugin's mutex and joins a monitor waiting on an invalid handle: a failed restart, a Stop that fails, and a second Stop |
| `AgentSupervisorHang.StopHangsBeforeFirstWait` | WindowsPackageManager/libControlModule/PmAgentController.cpp:61-126 | without any restart: a first Stop that terminates the only child and closes its handle before the new monitor has read it joins a doomed monitor |
| `AgentSupervisorProofs.InvAlongRun` | WindowsPackageManager/libControlModule/PmAgentController.cpp:36-126 | the invariant of the supervisor holds in every state of every run |
| `AgentSupervisorProofs.InvStep` | WindowsPackageManager/libControlModule/PmAgentController.cpp:233-362 | every step of every client and monitor keeps the invariant |
| `AgentSupervisorProofs.InvDies` | WindowsPackageManager/libControlModule/PmAgentController.cpp:119-126 | so does a child that ends by itself |
| `AgentSupervisorProofs.MonitorKeeps` | WindowsPackageManager/libControlModule/PmAgentController.cpp:85-103 | what the monitor knows survives its steps: the process it saw end was the last one alive |
| `AgentSupervisorProofs.ClientKeeps` | WindowsPackageManager/libControlModule/PmControlPlugin.cpp:34-85 | what the plugin's mutex protects survives the steps of start and stop |
| `AgentSupervisorProofs.HandlesStep` | WindowsPackageManager/libControlModule/PmAgentController.cpp:233-362 | kept handles stay open and closed ones distinct over launch, cleanup and stop |
| `ProxyStringParsing.ProxyStringParser.GetToken` | SharedLibs/libProxy/ProxyStringParser.cpp:28-42 | the token is that of highest priority present in the unread text, with the position of its first occurrence; every read is inside the buffer |
| `ProxyStringParsing.ProxyStringParser.FindChar` | SharedLibs/libProxy/ProxyStringParser.cpp:44-52 | -1 exactly when the character is absent, else its first position |
| `ProxyStringParsing.ProxyStringParser.ProcessState` | SharedLibs/libProxy/ProxyStringParser.cpp:54-122 | one step of the machine does what the grammar says on the unread text, with both look-aheads inside the buffer |
| `ProxyStringParsing.ProxyStringParser.PreProcess` | SharedLibs/libProxy/ProxyStringParser.cpp:124-136 | a splitting pass in place pushes all pieces but the last, which stays in the buffer |
| `ProxyStringParsing.ProxyStringParser.Turn` | SharedLibs/libProxy/ProxyStringParser.cpp:166-184 | each turn either finishes the piece or strictly advances within it, leaving the same meaning |
| `ProxyStringParsing.ProxyStringParser.ParseOne` | SharedLibs/libProxy/ProxyStringParser.cpp:157-185 | the inner loop computes the grammar's result of a piece |
| `ProxyStringParsing.ProxyStringParser.Split` | SharedLibs/libProxy/ProxyStringParser.cpp:138-155 | both passes give the pieces: split at every space, then after the last space at every semicolon |
| `ProxyStringParsing.ProxyStringParser.ParseProxyString` | SharedLibs/libProxy/ProxyStringParser.cpp:138-195 | the caller's entries are kept and one entry a piece follows; a missing string is refused |
| `ProxyGrammar.ParseAllEntries` | SharedLibs/libProxy/ProxyStringParser.cpp:157-195 | the k-th entry appended is the k-th piece's, and the status is TRUE exactly when some piece reaches FINAL |
| `ProxyGrammar.SplitterConservation` | SharedLibs/libProxy/ProxyStringParser.cpp:124-155 | pieces are one more than spaces plus semicolons after the last space, and rewoven with those separators they are the input |
| `ProxyGrammar.Token` | SharedLibs/libProxy/ProxyStringParser.cpp:28-42 | `=` anywhere ahead wins over `:`, which wins over `/`; the terminator only when none is ahead |
| `ProxyGrammar.Advance` | SharedLibs/libProxy/ProxyStringParser.cpp:54-122 | every step that goes on consumes at least one character and no more than there are |
| `ProxyRoundTrip.PieceRoundTrip` | SharedLibs/libProxy/ProxyStringParser.cpp:54-122 | a printed proxy parses back to its access type, type, server and port |
| `ProxyRoundTrip.RoundTrip` | SharedLibs/libProxy/ProxyStringParser.cpp:18-195 | printing a list of well-formed proxies joined by spaces or by semicolons, and parsing it, gives exactly that list in order with status TRUE, if and only if the list is not empty |
| `ProxyRoundTrip.PortRoundTrip` | SharedLibs/libProxy/ProxyStringParser.cpp:103-104 | a decimal port of 16 bits survives text, conversion and truncation |
| `ProxyRoundTrip.AcceptsSlashFree` | SharedLibs/libProxy/ProxyStringParser.cpp:20-122 | a piece without `/` reaches FINAL exactly when it is not empty, does not end in `=` or `:` and holds at most one `=` |
| `ProxyRoundTrip.AccessTypeFirst` | SharedLibs/libProxy/ProxyStringParser.cpp:20-68 | everything before the first `=` is the access type, whatever it holds; a later `=` is refused, and the entry keeps exactly the fields read so far |
| `ProxyRoundTrip.AcceptsColonFree` | SharedLibs/libProxy/ProxyStringParser.cpp:20-122 | a piece without `:` reaches FINAL exactly when what follows its access type is not empty and free of `=` and `/`, which is then its server or port; otherwise the entry keeps exactly the fields read before |
| `ProxyRoundTrip.SlashAfterColon` | SharedLibs/libProxy/ProxyStringParser.cpp:76-92 | a `/` after the first `:` makes what precedes the type and drops two characters, whatever they are; when it is only the first of them the piece is refused with exactly the fields read so far |
| `ProxyRoundTrip.PortAfterColon` | SharedLibs/libProxy/ProxyStringParser.cpp:76-104 | with no `/` after the first `:` what precedes it is the server, and the piece is accepted exactly when what follows could be a port |
| `ProxyRoundTrip.UrlWithSlashRefused` | SharedLibs/libProxy/ProxyStringParser.cpp:76-116 | an ordinary URL with a port and a slash at its end is refused, and its entry holds the host as type and nothing else |
| `ProxyRoundTrip.NumberIsRead` | SharedLibs/libProxy/ProxyStringParser.cpp:103-104 | a port after any blanks, with or without a sign, is read up to the first character that is no digit, saturating at 32 bits |
| `ProxyRoundTrip.NoNumberIsZero` | SharedLibs/libProxy/ProxyStringParser.cpp:103-104 | what does not begin like a number is port 0 |
| `ProxyRoundTrip.ModeWhenFinal` | SharedLibs/libProxy/ProxyStringParser.cpp:157-187 | a piece gets the discovery mode exactly when it reaches FINAL, and only one of at least 2048 characters ends the process |
| `ProxyRoundTrip.PlainTextAborts` | SharedLibs/libProxy/ProxyStringParser.cpp:54-62 | a text without tokens ends the process exactly from 2048 characters on |
| `Msi.MsiApi.QueryAllProducts` | SharedLibs/libWindowsUtilities/MsiApi.cpp:14-53 | every product of the enumeration is appended, in order, whatever code ends it |
| `Msi.MsiApi.QueryProducts` | SharedLibs/libWindowsUtilities/MsiApi.cpp:97-146 | the four-way test keeps exactly the products whose name and publisher match where given, in order; the final code treats the end of items as success |
| `Msi.SelectIsFilter` | SharedLibs/libWindowsUtilities/MsiApi.cpp:212-254 | the products kept stand at increasing positions of the enumeration, exactly the matching ones |
| `Msi.MsiApi.FindRelatedProducts` | SharedLibs/libWindowsUtilities/MsiApi.cpp:70-95 | all products of all related codes, code by code |
| `DiscoveryMethods.PackageDiscoveryMethods.DiscoverByMsi` | WindowsPackageManager/libPmAgent/PackageDiscoveryMethods.cpp:24-66 | appends the live query's products that are not merely advertised |
| `DiscoveryMethods.PackageDiscoveryMethods.DiscoverByMsiRules` | WindowsPackageManager/libPmAgent/PackageDiscoveryMethods.cpp:187-236 | appends what the cached list holds for the rule |
| `DiscoveryMethods.PackageDiscoveryMethods.DiscoverByMsiUpgradeCode` | WindowsPackageManager/libPmAgent/PackageDiscoveryMethods.cpp:149-185 | appends the related products that are not merely advertised |
| `DiscoveryMethods.InstalledIsFilter` | WindowsPackageManager/libPmAgent/PackageDiscoveryMethods.cpp:40-65 | each product that is not merely advertised gives one package with its version, in order, and no other does |
| `DiscoveryMethods.CacheRefinesLive` | WindowsPackageManager/libPmAgent/PackageDiscoveryMethods.cpp:187-236 | over the same enumeration the cached lookup appends exactly what the live one does for an msi rule, when the rule has both criteria |
| `DiscoveryMethods.CacheNeedsBoth` | WindowsPackageManager/libPmAgent/PackageDiscoveryMethods.cpp:187-236 | with a criterion missing the cached lookup appends nothing |
| `DiscoveryMethods.CacheAgreesExactly` | WindowsPackageManager/libPmAgent/PackageDiscoveryMethods.cpp:24-66 | the two lookups agree on every set of products if and only if being an msi rule and having both criteria coincide |
| `PackageInventory.FirstNonEmpty` | WindowsPackageManager/libPmAgent/PackageDiscovery.cpp:70-96 | the list chosen is a non-empty one with only empty ones before it, or nothing when all are empty |
| `PackageInventory.PackageDiscovery.ApplyDiscoveryMethods` | WindowsPackageManager/libPmAgent/PackageDiscovery.cpp:70-96 | the first non-empty result in the order upgrade codes, MSI rules, registry rules |
| `DiscoveryMethods.PackageDiscoveryMethods.DiscoverByRegistry` | WindowsPackageManager/libPmAgent/PackageDiscoveryMethods.cpp:68-147 | something is found exactly when the rule is a registry rule, both values can be read and the version is not empty: one package, whose version is the one read with as many zeros as are missing to four numbers |
| `RegistryKeys.DecodeRegistryPath` | WindowsPackageManager/libPmAgent/PackageDiscoveryMethods.cpp:238-279 | something exactly for HKCR, HKLM or HKCU and at least two parts: that root, the last part as the value's name, the middle ones as the subkey |
| `RegistryKeys.DecodeKeepsParts` | WindowsPackageManager/libPmAgent/PackageDiscoveryMethods.cpp:238-279 | the parts of a path with a subkey can be read off its decoding again |
| `RegistryKeys.PadBuildNumber` | WindowsPackageManager/libPmAgent/PackageDiscoveryMethods.cpp:281-286 | appends `.0` until three dots are there |
| `RegistryKeys.PaddedWithZeros` | WindowsPackageManager/libPmAgent/PackageDiscoveryMethods.cpp:281-286 | what is appended, for every number of dots |
| `RegistryKeys.SubKeySkipsEmpty` | WindowsPackageManager/libPmAgent/PackageDiscoveryMethods.cpp:274-276 | parts that are empty at the front leave no trace in the subkey |
| `RegistryKeys.PaddedShape` | WindowsPackageManager/libPmAgent/PackageDiscoveryMethods.cpp:281-286 | padding keeps the version in front, leaves three dots or those there were, and changes nothing the second time |
| `PackageInventory.PackageDiscovery.ResolveAndDiscover` | WindowsPackageManager/libPmAgent/PackageDiscovery.cpp:98-126 | fails exactly when resolving changed the path and it holds no tag; otherwise the files of the resolved path, which an unchanged path reports as they are |
| `PackageInventory.DiscoveredResolveBack` | WindowsPackageManager/libPmAgent/PackageDiscovery.cpp:98-126 | for a pattern with a known folder in front, the files of the resolved pattern, each reported so that resolving the report gives the file back |
| `PackageInventory.PackageDiscovery.Choose` | WindowsPackageManager/libPmAgent/PackageDiscovery.cpp:134-161 | the deploy path's files if it is given and has any, else the configuration path's; failure means one of the two cannot be resolved |
| `PackageInventory.PackageDiscovery.IsUnique` | WindowsPackageManager/libPmAgent/PackageDiscovery.cpp:206-225 | a candidate is unique exactly when it clashes with no entry built so far |
| `PackageInventory.PackageDiscovery.AddConfigurable` | WindowsPackageManager/libPmAgent/PackageDiscovery.cpp:132-231 | the files of one configurable, cut to its limit, are added to the deduplicated list |
| `PackageInventory.PackageDiscovery.DiscoverPackageConfigurables` | WindowsPackageManager/libPmAgent/PackageDiscovery.cpp:128-232 | the result is the given list followed by those candidates whose path neither it nor an earlier candidate has |
| `PackageInventory.UniqueMeansFresh` | WindowsPackageManager/libPmAgent/PackageDiscovery.cpp:206-225 | comparing with the list built so far decides whether the old list or any earlier candidate, kept or not, has the path |
| `PackageInventory.KeptDistinct` | WindowsPackageManager/libPmAgent/PackageDiscovery.cpp:206-229 | deploy and configuration paths taken together stay pairwise distinct and each entry carries exactly one |
| `PackageInventory.KeptExtends` | WindowsPackageManager/libPmAgent/PackageDiscovery.cpp:227-229 | the old list stays in front |
| `PackageInventory.NothingLost` | WindowsPackageManager/libPmAgent/PackageDiscovery.cpp:206-229 | every candidate's path is in the result |
| `PackageInventory.InfosAreEntries` | WindowsPackageManager/libPmAgent/PackageDiscovery.cpp:179-205 | one entry a file, in order, if all can be reported: the file as its only path and its report as the unresolved path, on the side the files were found, and on the other side the configurable's own unresolved configuration path or nothing |
| `InventoryContents.RuleOrder` | WindowsPackageManager/libPmAgent/PackageDiscovery.cpp:70-96 | the packages are those of the first upgrade-code rule that finds any, else of the first MSI rule, else of the first registry rule |
| `InventoryContents.LimitIsPrefix` | WindowsPackageManager/libPmAgent/PackageDiscovery.cpp:163-173 | the first files are taken, as many as the limit says, and one when it is 0 |
| `InventoryContents.EntriesOfConfigurable` | WindowsPackageManager/libPmAgent/PackageDiscovery.cpp:132-205 | a configurable has one entry for each of these files, in order |
| `InventoryContents.CandidatesInOrder` | WindowsPackageManager/libPmAgent/PackageDiscovery.cpp:128-232 | the candidates are the entries of one configurable after the other, exactly when all can be resolved and reported |
| `InventoryContents.KeptInOrder` | WindowsPackageManager/libPmAgent/PackageDiscovery.cpp:206-229 | behind the old list stand exactly the fresh candidates, in their order |
| `InventoryContents.ItemsInOrder` | WindowsPackageManager/libPmAgent/PackageDiscovery.cpp:51-56 | each package detected is listed once, in order, with the kept entries of its product |
| `InventoryContents.InventoryInOrder` | WindowsPackageManager/libPmAgent/PackageDiscovery.cpp:46-58 | the inventory is the packages of one product of the catalog after the other, exactly when all can be listed |
| `InventoryContents.InventoryEntries` | WindowsPackageManager/libPmAgent/PackageDiscovery.cpp:26-63 | every package was detected by a product's rules, and every entry of it is that of a file found for one of the product's configurables, both paths and both unresolved paths included |
| `InventoryContents.EntryReported` | WindowsPackageManager/libPmAgent/PackageDiscovery.cpp:179-204 | an entry's unresolved path is the report of its path by the folder of its own side |
| `InventoryContents.EntryResolvesBack` | WindowsPackageManager/libPmAgent/PackageDiscovery.cpp:98-205 | for a pattern with a known folder in front, the unresolved path is the path with the tag in the folder's place, and resolving it gives the path |
| `InventoryContents.EntryAsFound` | WindowsPackageManager/libPmAgent/PackageDiscovery.cpp:98-205 | for a pattern that resolving did not change, the two paths are the same |
| `PackageInventory.PackageDiscovery.DiscoverInstalledPackages` | WindowsPackageManager/libPmAgent/PackageDiscovery.cpp:26-63 | the whole inventory is returned and remembered; an exception on the way leaves the remembered one alone |
| `PackageInventory.InventoryDistinct` | WindowsPackageManager/libPmAgent/PackageDiscovery.cpp:46-58 | no package of an inventory lists the same file twice |
| `KnownFolders.Find` | SharedLibs/libWindowsUtilities/WindowsUtilities.cpp:416-418 | the first occurrence of a text, or none |
| `KnownFolders.ResolveTagged` | SharedLibs/libWindowsUtilities/WindowsUtilities.cpp:414-431 | resolving replaces the first tag by its folder and nothing else |
| `KnownFolders.ResolveOnlyTagged` | SharedLibs/libWindowsUtilities/WindowsUtilities.cpp:414-431 | a path that changes has a closed tag, its first, which alone is replaced by a known folder |
| `KnownFolders.UnresolveFront` | WindowsPackageManager/libPmAgent/PackageDiscovery.cpp:98-126 | a file K+s found for a pattern with its tag in front is reported as tag+s if and only if the remaining path first occurs in the resolved pattern right after K, or K is spelled like the tag |
| `KnownFolders.ReportFront` | WindowsPackageManager/libPmAgent/PackageDiscovery.cpp:110-185 | every report for a pattern with its tag in front: the tag in place of the text before the remaining path, or of the length of the resolved path when that does not occur; none for a shorter file |
| `KnownFolders.ReportOpenTag` | WindowsPackageManager/libPmAgent/PackageDiscovery.cpp:110-185 | a tag that is not closed is never put back |
| `KnownFolders.ResolveUndoesReport` | SharedLibs/libWindowsUtilities/WindowsUtilities.cpp:414-431 | resolving tag+s gives K+s |
| `KnownFolders.ResolveUnresolve` | WindowsPackageManager/libPmAgent/PackageDiscovery.cpp:175-204 | resolve and unresolve are inverse on the files of a pattern with its tag in front |
| `KnownFolders.UnresolveNeedsFront` | WindowsPackageManager/libPmAgent/PackageDiscovery.cpp:110-122 | with anything before the tag, the wanted path is never reported |
| `FileSearch.SearchFiles` | SharedLibs/libWindowsUtilities/WindowsUtilities.cpp:464-517 | earlier results stay a prefix, the files of the search follow, and the code is what ended the directory's own listing, 18 counting as success |
| `FileSearch.FileSearchWithWildCard` | SharedLibs/libWindowsUtilities/WindowsUtilities.cpp:448-462 | searches the path's components from its root |
| `FileSearch.SearchExact` | SharedLibs/libWindowsUtilities/WindowsUtilities.cpp:464-517 | the files appended are, once for each way to reach them and in depth-first order, every regular file, first or later in its listing, whose components match a non-empty prefix of the pattern, and no other |
| `FileSearch.OnlyFullMatches` | SharedLibs/libWindowsUtilities/WindowsUtilities.cpp:487-501 | every hit matches the whole pattern if and only if no regular file matches at an intermediate component |
| `LogLevel.UcConfig.LoadConfig` | UC/libUcConfig/UcConfig.cpp:24-52 | level and time after a load; true exactly when a newer readable file was read |
| `LogLevel.UcLogger.SetLogLevel` | SharedLibs/libLogger/UcLogger.cpp:19-30 | a level in range is taken, another is refused |
| `LogLevel.ServiceLogManager.UpdateLogLevel` | UC/UCService/ServiceLogManager.cpp:46-50 | loads the file and hands the cached level to the logger |
| `LogLevel.ServiceLogManager.Serve` | UC/UCService/ServiceLogManager.cpp:21-67 | the state after the first update and any number of polls |
| `LogLevel.LoadIsFreshExactly` | UC/libUcConfig/UcConfig.cpp:33-41 | a load gives what a fresh read would, whatever the file holds, if and only if its time is newer than the cached one |
| `LogLevel.CacheIsFresh` | UC/libUcConfig/UcConfig.cpp:24-52 | over any run of edits, deletions and corruptions in which the times increase while the file stays readable, the cached level after every load is what reading the file then gives |
| `LogLevel.StaleExample` | UC/libUcConfig/UcConfig.cpp:35-41 | a change under an unchanged time goes unnoticed |
| `LogLevel.LoggerFollowsPolls` | SharedLibs/libLogger/UcLogger.cpp:19-30 | across all polls the logger's level is in 1..7 and is the last in-range level polled, or LOG_ERROR |
| `LogLevel.LoggerFollowsFile` | UC/UCService/ServiceLogManager.cpp:46-67 | under the same condition the logger has the last in-range level the file itself said |
| `CustomActionData.BuildCustomActionData` | Install/InstallerCustomActions/PrivateFunctions.cpp:561-578 | the joined string: a separator after each value read unless the property is the last of the list |
| `CustomActionData.BuiltIsJoin` | Install/InstallerCustomActions/PrivateFunctions.cpp:561-578 | when every property is read the string is their values joined by bars |
| `CustomActionData.Tokenize` | Install/InstallerCustomActions/PrivateFunctions.cpp:579-588 | appends the non-empty pieces between delimiters |
| `CustomActionData.TokensOfAnything` | Install/InstallerCustomActions/PrivateFunctions.cpp:579-588 | of any string the tokens are non-empty, delimiter-free, and together the string without its delimiters |
| `CustomActionData.UnpackIsPackedExactly` | Install/InstallerCustomActions/PrivateFunctions.cpp:561-588 | whatever lookups fail, unpacking gives exactly the non-empty values read, in order, if and only if none of them holds the separator |
| `CustomActionData.UnpackAtExactly` | Install/InstallerCustomActions/PrivateFunctions.cpp:561-588 | at any delimiter: at the separator as above, at another one if and only if nothing but the last property was read and its value does not hold that delimiter |

## Left out

- ThreadedProxyDiscovery, WindowsConfiguration, PmAgentController and PmControlPlugin as classes: their methods
  interleave, so they are step relations on values; update in place and aliasing of those objects are not captured.
- The memory model: a step reads and writes shared fields atomically and in order, including the shutdown flag and the
  handle fields that are read without a lock. Sleeps and timeouts are steps that do nothing or may fire at any time.
- Lifetime of the strings passed to the discovery worker; the URLs are not part of a step.
- `ProxyCallbacks.AheadSettles`: says nothing when the configuration is unregistered meanwhile, since the pass then has
  nobody to notify.
- The result codes of StartPmAgent; whether it started is read off the flags.
- `ProxyProtocolProofs.DestructorWaits`: assumes of the callers that nobody starts discovery once destruction has begun
  and that no start then still has its check of the running flag before it; later parts of a start may overlap.
- Callbacks that call back into discovery, a start without a callback (it returns at once and changes nothing), and the
  destruction of the configuration while a callback is stored.
- The WinHTTP and registry calls of the four discovery methods: each is an arbitrary list of proxies.
- Proxy fields that neither parser nor engine reads or writes, and the conversion of the list to the callback's type.
- `ProxyRoundTrip.RoundTrip`: well-formed parts are shorter than the parser's buffer of 2048 characters; a longer
  segment ends the process in the original, which the model says as an aborted parse.
- Non-ASCII blanks and digits in the conversion of a port, and strings longer than 32-bit lengths.
- A wait on INVALID_HANDLE_VALUE, which Windows reads as the current process, is taken never to return; one on a closed
  handle is taken to fail. That a live child ends is up to the child: the join
  can be over, it need not.
- Failure to create a thread, exceptions, the controller's destructor, the read end of the pipe and the child's thread
  handle, which are closed where they are opened. A failed CreatePipe is taken to leave the fields alone. Handles
  overwritten by a restart are leaked in the original, so no conservation of handles is claimed.
- Killing a leftover process before a start: a step that succeeds or fails and touches no launched child. A successful
  TerminateProcess is taken to end the child at once.
- MSI property queries: a product of the enumeration comes with its properties.
- Splitting a registry path at its backslashes: StringUtil::Split is not part of this model, a path comes as its parts.
- Removing paths that are not proper UTF-8: part of the search that `PackageDiscovery` is given. That search is given
  as a function from path to files; its own recursion is in `FileSearch`, on lists of components.
- Native and generic slashes in known-folder paths and the equality of paths up to their spelling: paths are strings.
- Architecture, platform and time zone of the inventory.
- A configuration file that changes between the reading of its time and of its contents.
- The condition variable that ends the poll, and the log messages.
- Certificates, UCID and module loaders, diagnostics, toasts, service control and impersonation: library calls and
  platform code without a protocol of their own.
