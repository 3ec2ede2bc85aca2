# DWCS in Dafny

DWCS coordinates distributed work on a shared, versioned world. It has two modes.

* **Peer mode** has no server. Every node keeps a replica of the world, gossips each change to its
  neighbours as a version-stamped diff, and skips messages it has seen. The model follows the store
  (`World.dfy`), batches through a merge function (`Merge.dfy`), the de-duplication table
  (`Gossip.dfy`), the peer links (`Peering.dfy`) and the node's event loop (`Peer.dfy`), and then puts
  any number of nodes into networks of queues whose every interleaving is considered. In
  `HookNet.dfy` each lookup, each apply and each send of a hook over a link is a step of its own, and
  the results are about that network: what a step can do to the diffs there are (`FineTraffic`), which
  steps do a link no harm (`HookConvergence`), what versions come to (`FineConvergence`, `EndOfRuns`),
  what overtaking hooks do (`Overtaking`, `SoleLink`), what becomes of content (`DataAgreement`,
  `SingleWriter`), how high versions go (`VersionCeiling`), which nodes a submission reaches
  (`SubmitsArrive`) and that floods end (`Termination`, `SubmitTermination`). In the coarser
  `GossipNet.dfy` an apply comes with its hook; its runs are runs of the finer network
  (`AtomicSteps`), so they need no theory of their own (`VersionConvergence`), and two of the
  counterexamples already happen there (`Divergence`).
* **Server mode** hands out leases on tasks, announces available tasks to sessions by tag, sends each
  session a stream of world deltas, and counts all of it. The model follows the session manager
  (`Session.dfy`), the lease registry (`Task.dfy`), the counters (`Metrics.dfy`), the dispatcher and
  the wiring of the server binary (`Dispatcher.dfy`, specified by `ServerSteps.dfy`), the delta
  projector (`Projector.dfy`), session ids (`Transport.dfy`) and the UDP client index
  (`UdpIndex.dfy`). `LeaseExclusion`, `LeaseAccounting`, `LeaseRecords`, `Submissions`, `MissedWork`,
  `OwnersLive`, `DeltaStream`, `TagStream` and the second half of `UdpIndex` hold the results about whole
  runs of concurrent connections; `UndisturbedCasts` joins those of `MissedWork` to the handlers.

An object whose methods change its fields is a class here, and each of its methods is tied by its
`ensures` to a specification function of the old state. Beside that, each says in plain terms of the
fields what it does: which outboxes grow and by what, which entries change, which counters rise. A
protocol is a state machine over those same functions: one step is one lock section of the source (or
one atomic instruction of an event loop), a run is any sequence of labels, and a label that is not
enabled does nothing, so statements about runs hold for every interleaving.

How the peer networks read the source: the two sends per accepted diff (hook and forward) are both
there; a queue holds what is in the sender's outbox, on the wire and in the receiver's event channel.
The store unlocks before it fires its hook (internal/world/world.go:134-136), so in the finer network
hooks wait until they are sent, link by link, in any order; the event loop goes on once its own hook
is out, and other goroutines may write at any moment. In a lossless run links are up from the start,
in order, and drop nothing. In the other runs messages may be lost, copied and taken in any order. A
step is harmless when it leaves its link in order, which `LinkFine` says without reference to runs.
The gossip table may be collected at any time unless a row says otherwise.

Findings:

* The repository's README.md:125 says that peers converge through version-based conflict resolution.
  Versions converge over lossless links if the hooks of one object leave a node in version order
  (`VersionsConvergeInOrder`), and more generally over every harmless run (`HarmlessRunsConverge`).
  The code does not ensure that order: two goroutines of a node that write one object, as in
  cmd/peer/main.go:144 beside the event loop, can have their hooks overtake each other, and then the
  versions stay apart although nothing was lost (`HooksMayOvertake`). `FireIsHarmless` says exactly
  which hooks leave their own link in order, and `LosingIsHarmless` which losses do; over other paths
  a harmful step may still be made up for. Where there is no other path, nothing makes up for it: a
  node that hears of an object over one link ends where the order of the hooks on that link takes
  it, and level with the writer if and only if each hook was the lowest that waited
  (`EndsWhereSentTo`).
* Data and meta need not converge: an incoming version is skipped when it is not higher than the local
  one (internal/peer/peer.go:86), so two nodes that write at once can stay apart for good
  (`DataMayDiverge`). `ContentAgreesIffUncontested` gives the exact condition.
* A replica never adopts the sender's version; it takes its own plus one (internal/peer/peer.go:89), so
  a loss can leave it behind for good (`LossLeavesLag`), and a write between lookup and adoption makes
  the adoption a version above the diff's (`AdoptionTops` says exactly when). Over every run whose
  steps leave their links in order, losses included, versions are equal again once all is quiet
  (`HarmlessRunsConverge`), and every such run left alone falls quiet (`MaximalRunsAgree`).
* With one writing node, replicas hold the writer's content for their version over harmless runs
  (`SoleMaker`, `PrefixConsistency`); when hooks overtake each other, a replica at version 1 can hold
  the content of version 2 (`HooksMayOvertake`).
* A submission reaches exactly the nodes there is a path to from a node that announced it, over links that
  lose nothing and with no table cleaned (`SubmissionsArrive`). The announcer itself need not get it back
  (`AnnouncerMayNotHear`).
* The world changes in server mode only by submissions that were accepted and whose session owned the task
  when they were checked (`EveryChangeWasOwned`). Ownership is not held until the updates are written
  (internal/dispatcher/dispatcher.go:91-106): by then the task may be another session's
  (`OwnerMayHaveChanged`), and `LostInBetween` says through what.
* `Acquire` does not look at the status again after its expiry window (internal/task/task.go:170-178),
  so an unexpired lease can be taken from its holder (`LeaseCanBeStolen`). `ProtectedExactly` says
  when it cannot.
* The lease counters balance when handlers do not interfere (`LeasesConserved`). In general the totals and
  each task's counters are out exactly by the grants written over a lease; a session's count can also
  be out for good, as when its release is counted before its claim (`BalancedExactly`,
  `ClaimOutlivesSession`).
* A datagram can pass the session lookup while a sweep is disconnecting its client, and the task it
  then acquires is owned by a session that is gone (`UdpOwnerMayBeGone`). `GoneOwnersExactly` says when
  a session that is gone cannot own anything any more. TCP owners are always live.
* The projector marks objects as seen before it knows whether their message could be encoded and
  queued, so a dropped delta is not sent again (`LostIsNotResent`, with the run `DeltaMayBeLost`).
  `DeltasRefineSnapshots` says for each object exactly when its client has it; the next delivered
  version of the object makes up for the loss.
* A present but empty meta, and absent data, do not survive one encoding (`WireFaithful`); `ExactCopy`
  carries this into the replicas.

## Model

| member | source | states |
|---|---|---|
| Worlds.World.Get | internal/world/world.go:64-72 | A lookup finds the stored object or reports its absence, and changes nothing. |
| Worlds.World.List | internal/world/world.go:74-85 | A listing holds exactly the objects selected by the tags (all of them for no tags), each once, in some order. |
| Worlds.World.Apply | internal/world/world.go:87-138 | The optimistic version check, the inheritance of absent fields, the version count from 1 and the one event per accepted request, including that a refused request changes nothing. What this means over runs is in the next rows. |
| Worlds.World.Delete | internal/world/world.go:140-157 | Only the named object goes, and its last state is reported once. |
| Worlds.StoreIsHistory | internal/world/world.go:87-157 | After any run of updates and deletions, an object exists exactly when it has accepted requests since its last deletion, its version is their number, and data, tags and meta are each the last present value among them. |
| Worlds.NoLostUpdate | internal/world/world.go:91-99 | An accepted request with an expected version was accepted on exactly its predecessor's version, so no accepted request overwrites one it was not computed from, and none with an expected version creates an object. |
| Worlds.WellKeyedAfter | internal/world/world.go:87-157 | In every reachable store each object sits under its own id with a version of at least 1. |
| Worlds.ReplayRebuildsStore | internal/world/world.go:132-137 | Events are fired after unlocking and may arrive in any order; without deletions, keeping the highest version per object rebuilds the store from any permutation of them. |
| Merge.Coordinator.Submit | internal/merge/merge.go:52-80 | A rejected submission changes nothing and carries a reason; an accepted one applies the merge function's updates from left to right, with refused ones as no-ops, and returns their results and events in order. |
| Merge.ResultsCorrespond | internal/merge/merge.go:63-77 | Result i answers update i, in the store that the updates before it left behind. |
| Merge.BatchesConcatenate | internal/merge/merge.go:63-77 | Two batches one after the other are one batch: same store, same results, same events. |
| Merge.RefusedIsNoOp | internal/merge/merge.go:63-77 | An update refused inside a batch leaves the store, the events and every other result as if it had not been there; its own result is the refusal. |
| Protocol.EncodeTwice | internal/protocol/protocol.go:96-118 | A relayed message keeps its content from its first encoding on, so every further relay carries the same identity. |
| Protocol.WireFaithful | internal/protocol/protocol.go:79-84 | A diff survives encoding exactly when its data is present and its meta is not a present but empty slice. |
| Gossips.Gossip.ShouldForward | internal/gossip/gossip.go:60-69 | A message is forwarded exactly when its id is not in the table, and a hit does not refresh the entry. |
| Gossips.Gossip.Collect | internal/gossip/gossip.go:49-58 | Precisely the entries whose time plus the window lies before the captured clock go; all others keep their time. |
| Protocol.SameIdentity | internal/gossip/gossip.go:89-94 | Two messages count as one exactly when they share their request id and, if they have none, also kind and payload. |
| Gossips.SweptWhenAged | internal/gossip/gossip.go:49-58 | After a collection whose clock is more than the window past some moment, no id is in the table that has not been accepted after that moment. |
| Gossips.AcceptedAgainExactly | internal/gossip/gossip.go:49-69 | A repeated message is accepted again if and only if a collection came in between whose clock was more than the window past the last accepting call. |
| Gossips.DedupeWindow | internal/gossip/gossip.go:49-69 | Over any run of calls and collections with a clock that does not go back, two accepting calls for one message are more than the window apart, although hits never refresh its time. |
| Gossips.RememberedOrAged | internal/gossip/gossip.go:49-69 | After an accepting call the entry keeps that call's time until the window has passed. |
| Peering.Peer.Send | internal/peering/peering.go:38-49 | A closed peer takes nothing, a full outbox drops the message silently, otherwise it goes last. |
| Peering.Manager.BroadcastExcept | internal/peering/peering.go:256-269 | Every peer but the one left out gets the message once, at the end of its outbox. |
| Peering.SentAllConcat | internal/peering/peering.go:38-49 | Broadcasting one series of messages and then another fills the outboxes, drops included, like broadcasting both as one series. |
| PeerNode.Node.OnChange | internal/peer/peer.go:36-48 | Each creation or update puts one message with the object's data, meta and local version, as encoded, last in the outbox of every open peer with room; deletions are not announced. |
| PeerNode.Node.HandlePeerMessage | internal/peer/peer.go:66-77 | A message already seen leaves store and links alone, and one of an unknown kind does too. A new one leaves them as its instructions do, taken one after the other; after a new submission every open peer but the sender, while there is room, has the submission last in its outbox under its own request id, accepted or not. |
| PeerNode.Node.ConsiderDiff | internal/peer/peer.go:84-99 | A diff no newer than the local copy does nothing. Any other is applied without an expected version: the object has the diff's data and meta and the node's tags, each as it was where absent, under the next local version. Every open peer with room gets the news of that object, and all but the sender the diff under its request id. |
| PeerNode.Node.HandleWorldUpdate | internal/peer/peer.go:79-100 | The diffs of a message are considered in order, each in the store the earlier ones left. |
| PeerNode.Node.HandleRemoteSubmit | internal/peer/peer.go:102-117 | A remote submission is applied through the merge function or, when rejected, changes nothing; each change is announced, and in either case the outbox of every open peer but the sender, while there is room, ends with the submission under its own request id. |
| PeerNode.Node.SubmitLocalResult | internal/peer/peer.go:119-128 | A local result is applied and each change announced, without any submission message. |
| PeerNode.ExecApplies | internal/merge/merge.go:63-77 | Applying the updates of a batch one atomic instruction at a time is the coordinator's batch, with one broadcast per change. |
| PeerNode.ExecFront | internal/peer/peer.go:84-99 | A handler's loop can be cut after its first instruction without changing its outcome, which is what lets the network interleave it. |
| GossipNet.UninterruptedWork | internal/peer/peer.go:53-77 | Run without interruption, the coarser network's steps leave the store, and put on every outgoing link the messages, that the handler as a whole does. |
| GossipNet.BroadcastsAreAddressed | internal/peering/peering.go:256-269 | The network's sends are the node's broadcasts: while there is room an open peer's outbox grows by exactly what the network puts on its link. |
| AtomicSteps.CoarseRunsAreFineRuns | internal/peer/peer.go:66-128 | Every run of the coarser network is a run of the finer one, state for state, and a lossless one is one in which no hook overtakes another. |
| AtomicSteps.StepReached | internal/peer/peer.go:84-99 | Each coarse step over links in order is a series of finer ones, none out of turn: lookup, apply, the hook over each link, forward. |
| Traffic.SendsAre | internal/peer/peer.go:36-48 | What a neighbour gets from one instruction: the hook's diff, then the forwarded one unless the neighbour was its sender. |
| Traffic.PerformDiffs | internal/peer/peer.go:79-100 | One instruction takes its diff off the front of the link it came over, puts what it sends at the end of every link out of its node, and changes no other link. |
| Traffic.NewDiffs | internal/peer/peer.go:66-100 | Over any network, a diff on a link was there before or was just sent by the node that acted. |
| FineTraffic.StepCarries | internal/peer/peer.go:36-99 | In the finer network, lossy or not, a diff under way, waiting in a hook or held back was so before the step, or is the copy that an adoption passes on, or is the hook of what has just been applied. |
| FineTraffic.NewMessage | internal/peer/peer.go:66-117 | A queued message was queued before, or is a hook's, or carries what was held back behind a hook, or is a submission just started or just passed on. |
| FineTraffic.StepStores | internal/peer/peer.go:84-128 | A step changes at most one store, by exactly the update it applies. |
| HookConvergence.StepKeeps | internal/world/world.go:132-137 | Every harmless step of the finer network keeps, for each link and object: the diffs under way carry no gap, and each version the receiver will still lack waits in a hook. |
| HookConvergence.FireIsHarmless | internal/world/world.go:132-137 | In such a state, sending a hook is harmless if and only if its version is at most one above what the receiver will have reached by then; harmless means that its own link stays in order. |
| HookConvergence.InOrderIsHarmless | internal/peer/peer.go:36-48 | Sending the lowest waiting version of an object is always harmless. |
| HookConvergence.LosingOldIsHarmless | internal/peer/peer.go:84-99 | Losing a message whose versions the receiver will have reached from what is ahead of it is harmless. |
| HookConvergence.LosingIsHarmless | internal/peering/peering.go:38-49 | Losing a message leaves its link in order if and only if, for every object, what is left carries no gap and leads the receiver as far as before, but for versions that wait in a hook. |
| HookConvergence.FirstCopyIsSpared | internal/peering/peering.go:38-49 | That condition holds for the first of two copies when nothing between them builds on it. |
| HookConvergence.SeenIsOld | internal/gossip/gossip.go:60-69 | In any state whose tables account for what they know, a message skipped as seen, in turn or not, carries only versions the receiver already has. |
| HookConvergence.DuplicateLink | internal/peering/peering.go:38-49 | Copying a message never does a link any harm. |
| FineConvergence.HarmlessRunIsFine | internal/peer/peer.go:35-128 | Every state reached by harmless steps, with losses, copies and messages taken out of turn among them, has its links in order. |
| FineConvergence.HarmlessRunsConverge | internal/peer/peer.go:35-128 | On a connected topology, for any number of writers and goroutines, once a harmless run falls quiet every node has the same version of every object. |
| FineConvergence.VersionsConvergeInOrder | internal/peer/peer.go:35-128 | So it does for lossless links in order, if no hook of an object is sent over a link while one with a lower version of it waits there; local and remote submissions, lookups, applies and sends interleave at will. |
| FineConvergence.AdoptionIsExactIff | internal/peer/peer.go:84-94 | In every state of the finer network an adopted diff leaves the replica at its version if and only if it is one ahead when it is applied. |
| FineConvergence.AdoptionIsInTurn | internal/peer/peer.go:84-94 | In a harmless run an adopted diff is never more than one ahead, and the replica ends at its version exactly when no other goroutine has reached that version since the lookup. |
| FineConvergence.SkippedIsOld | internal/gossip/gossip.go:60-69 | In a harmless run a de-duplication hit never hides an unapplied version, whether the message is taken in turn or not. |
| Overtaking.HooksMayOvertake | internal/world/world.go:132-137 | A concrete run in which nothing is lost or taken out of turn, one hook overtakes another, and all falls quiet with the writer at version 2 and the replica at version 1 with the writer's second data. |
| VersionConvergence.VersionsConverge | internal/peer/peer.go:35-100 | As a corollary, in the coarser network lossless links alone bring equal versions, whoever writes, since no hook can overtake another there. |
| EndOfRuns.StuckIsQuiescent | internal/peer/peer.go:53-77 | A network is quiet if and only if no step is left that sends a lowest waiting hook, delivers a first message or moves an event loop; so an event loop never waits for its hook in vain. |
| EndOfRuns.MaximalRunsAgree | internal/peer/peer.go:35-128 | Every harmless run without new submissions that goes on until it cannot, from any state a harmless run can reach, comes to a state that is quiet and has equal versions everywhere. |
| EndOfRuns.OrderlyRunsAgree | internal/peer/peer.go:35-128 | So does every run that goes on over lossless links with the hooks of one object in version order. |
| SoleLink.EndsWhereSentTo | internal/peer/peer.go:84-94 | A node with one neighbour, which alone writes the object, over a link whose queue loses and reorders nothing, whatever the order of the hooks on it and whatever happens elsewhere: once all is quiet its version is what that order of versions takes it to, each newer one counting for one, and equals the writer's if and only if every hook was the lowest waiting when it was sent. |
| SoleLink.ReplayTops | internal/peer/peer.go:84-94 | Of all orders of the versions 1 to w, exactly the rising one takes a receiver to w; every other leaves it below. |
| SoleLink.StepTurns | internal/peer/peer.go:35-128 | Every step there does nothing to the link, or makes the writer's next version, or puts one waiting version at its end, or has the receiver deal with the first one on it. |
| SingleWriter.PrefixConsistency | internal/peer/peer.go:79-100 | When one node alone has updates of an object accepted, by its event loop and any number of other goroutines, in every state of a harmless run a replica at version k holds the writer's k-th data, and the meta last present among the writer's first k, as one encoding leaves them. |
| SingleWriter.ExactCopy | internal/protocol/protocol.go:79-84 | There, a replica's copy of version k is the writer's, byte for byte, if and only if the writer's k-th data was present and its k-th meta was not a present but empty slice. |
| SingleWriter.QuiescentReplicasAgree | internal/peer/peer.go:79-100 | Once all is quiet every replica has the single writer's version, and its data and meta exactly when they survive encoding. |
| DataAgreement.ContentAgreesIffUncontested | internal/peer/peer.go:84-94 | With any number of writers and goroutines, when a harmless run falls quiet all replicas hold the same version, data and meta of an object, as encoded, if and only if no two contents were made as its last version; an adoption that ends with other content than the diff's counts as making it. |
| DataAgreement.RunTraced | internal/peer/peer.go:79-100 | In every state of a harmless run each stored, waiting or travelling content was made as that version somewhere, and each maker keeps its own until it has a later version. |
| DataAgreement.EachMakesOnce | internal/world/world.go:87-138 | Over harmless runs with any number of writers, no node makes two contents as the same version. |
| DataAgreement.SoleMaker | internal/peer/peer.go:79-100 | When one node makes all versions of an object, every copy anywhere in a harmless run is, as encoded, what that node made as the copy's version, and it made nothing else as that version. |
| Divergence.DataMayDiverge | internal/peer/peer.go:84-88 | A concrete lossless run of two nodes after which all is quiet, both are at version 1, and their data differ. |
| Divergence.LossLeavesLag | internal/peer/peer.go:84-94 | A concrete run with one writer and one lost message after which all is quiet, and the replica is at version 1 with the data of the writer's version 2. |
| VersionCeiling.VersionsBelowMade | internal/peer/peer.go:79-117 | Over any run, under loss, duplication, overtaking, reordering, local writes at any moment and arbitrary collection, every stored version is at most the number of submitted updates of that object applied anywhere so far, with one to spare for a node that has found a newer diff and not applied it; every diff there is carries a version from 1 to that number. |
| VersionCeiling.StepBelow | internal/peer/peer.go:84-94 | A step that applies a submitted update raises a ceiling by one, and every other step keeps it, an adoption too since its node had one to spare. |
| VersionCeiling.AdoptionTops | internal/peer/peer.go:84-94 | An adoption ends above the version it adopts if and only if, since the lookup, other goroutines of the node have had enough updates of the object accepted to reach that version; it ends at the version looked up, plus one for each of these, plus one. |
| Termination.GossipFalls | internal/peer/peer.go:84-99 | Every delivery, sent hook, lookup, adoption, forward and loss strictly lowers the measure that weighs the distance of all versions from their ceilings by seven times the largest degree plus one, and adds what is queued, waiting in hooks and in hand. |
| Termination.FloodEnds | internal/peer/peer.go:84-99 | With no submission left the number of moves of any run is bounded in advance by that measure, even if hooks and messages overtake each other and seen ids are collected at any time. |
| Termination.FloodIsBounded | internal/peering/peering.go:256-269 | Whatever happened before, over any network, once no submission is left one bound holds for all further runs. |
| SubmitTermination.NoEndlessRun | internal/peer/peer.go:66-117 | An endless run is refuted: unseen pairs of node and submission id, then submission instructions left, then the gossip measure fall lexicographically. |
| SubmitTermination.SubmissionsSettle | internal/gossip/gossip.go:60-69 | From every reachable state, hooks waiting and event loops within instructions included, with any submissions on their way over any cyclic topology, every sequence of sent hooks, deliveries, event-loop steps and losses ends, while no seen id is collected. |
| SubmitsArrive.NeighboursHear | internal/peer/peer.go:66-117 | Over links that lose nothing, with no table cleaned, messages copied and taken in any order: once all is quiet, every node on a path from one that has taken or announced a submission has taken it too or announced it itself. |
| SubmitsArrive.RunIsTraceable | internal/peer/peer.go:102-117 | In every run, whatever is lost or forgotten, a node has, sends or is to relay a submission only if there is a path to it from a node that announced it. |
| SubmitsArrive.SubmissionsArrive | internal/peer/peer.go:66-117 | The announcers apart, a node has taken a submission by the time all is quiet if and only if there is a path to it from a node that announced it. |
| SubmitsArrive.RequestsArrive | internal/gossip/gossip.go:89-94 | In a connected network a request id that was announced is in the table of every node but the announcers. |
| SubmitsArrive.AnnouncerMayNotHear | internal/peer/peer.go:116-116 | A concrete lossless run that ends quiet with the announcer's own table without the submission. |
| Sessions.Session.Subscribe | internal/session/session.go:35-41 | Exactly the given tags are added, and outbox and closing are untouched. |
| Sessions.Session.Unsubscribe | internal/session/session.go:43-49 | Exactly the given tags are removed. |
| Sessions.Session.Send | internal/session/session.go:68-80 | Closed sessions refuse; a full outbox drops the message and still reports success. |
| Sessions.MatchesTags | internal/session/session.go:169-176 | True exactly when the session holds one of the tags. |
| Sessions.Manager.Remove | internal/session/session.go:129-139 | The session leaves the manager and is closed; the others stay as they are. |
| Sessions.Manager.Broadcast | internal/session/session.go:141-159 | Each session with a common tag (every session for no tags) gets the message once, all others are untouched, in whatever order they are visited. |
| Tasks.Registry.Register | internal/task/task.go:102-123 | An existing id is refused and nothing changes; a new task is available and announced. |
| Tasks.Registry.ListAvailable | internal/task/task.go:135-149 | The listing holds exactly the available tasks that match the tags, each once. |
| Tasks.Registry.AcquireBegin | internal/task/task.go:151-178 | The first lock section: refuse a missing task or an unexpired lease, grant an unowned one (a completed one too), or free a lapsed lease, report it and grant nothing yet. |
| Tasks.Registry.AcquireResume | internal/task/task.go:178-200 | The second lock section grants whatever the task's status has become meanwhile. |
| Tasks.Registry.Release | internal/task/task.go:202-224 | Refused without effect unless the caller is the recorded owner; otherwise exactly this task is freed and announced. |
| Tasks.Registry.ReleaseAll | internal/task/task.go:226-260 | Bulk release is exact: precisely the tasks owned by the session are freed, all others are untouched, and each is reported as available again and then as lost by the session. |
| Tasks.Registry.MarkCompleted | internal/task/task.go:262-277 | Refused without effect unless the caller is the recorded owner; otherwise the task is completed and has no owner and no lease. |
| Tasks.Registry.EvictExpired | internal/task/task.go:292-326 | The sweep is exact: precisely the tasks whose lease had lapsed at the captured time are freed, all others are untouched, and each is reported as lost by its former owner and then as available again. |
| Tasks.ConsistentUpdate | internal/task/task.go:102-277 | Whatever one operation stores, owned, having an owner and having a lease stay the same thing. |
| Tasks.ConsistentBulk | internal/task/task.go:226-326 | Bulk release and sweep keep that agreement for the whole table. |
| Tasks.SectionKeeps | internal/task/task.go:102-326 | Every lock section of the registry keeps that agreement, drops no task and changes no tags. |
| LeaseExclusion.SaneRun | internal/task/task.go:151-326 | Over every interleaving of lock sections the agreement of status, owner and lease holds, no task disappears, and no waiting sweep has a clock from the future. |
| LeaseExclusion.LeaseKeptOverRun | internal/task/task.go:151-200 | A holder without rivals in their expiry window keeps task and lease until the lease's end, whatever others and late sweeps do. |
| LeaseExclusion.ProtectedExactly | internal/task/task.go:151-200 | In any reachable state an unexpired lease protects its holder in every future if and only if no other client is between its two lock sections for that task. |
| LeaseExclusion.LeaseCanBeStolen | internal/task/task.go:170-178 | A concrete run in which a client with a fresh lease loses the task to one inside its window. |
| OwnersLive.TcpOwnersAreLive | internal/transport/transport.go:93-147 | Over TCP, under every interleaving of handlers, disconnects and sweeps, each owned task's owner is in the session manager. |
| OwnersLive.GoneOwnersExactly | internal/transport/udp.go:256-276 | Over UDP, in every reachable state, a session that has left the manager owns nothing now and in every future if and only if it owns nothing now and is not handling a message any more. |
| OwnersLive.UdpOwnerMayBeGone | internal/transport/udp.go:183-183 | A concrete run over UDP: the sweep picks the client, a datagram passes the lookup before the manager lets the session go, its handler is granted a task after the session has released everything. |
| Metrics.Recorder.TaskClaimed | internal/metrics/metrics.go:78-101 | One claim more in the totals, for the task and for the session, one more task owned, one owner more in flight. |
| Metrics.Recorder.TaskCompleted | internal/metrics/metrics.go:103-131 | One completion more everywhere; the owner is no longer in flight but still owns the task. |
| Metrics.Recorder.TaskRejected | internal/metrics/metrics.go:133-153 | One rejection more everywhere; the owner is no longer in flight. |
| Metrics.Recorder.TaskReleased | internal/metrics/metrics.go:155-175 | One release more for the task and in total, one task fewer owned, never below zero. |
| Metrics.Recorder.TaskEvicted | internal/metrics/metrics.go:177-199 | One eviction more everywhere, one task fewer owned, never below zero. |
| Metrics.Recorder.SessionDisconnected | internal/metrics/metrics.go:233-244 | The session's counters go, the totals stay. |
| Metrics.TotalsAreSums | internal/metrics/metrics.go:78-199 | Whatever is recorded in whatever order, each grand total is the sum of that counter over all tasks. |
| Dispatch.Server.OnOwnershipLost | cmd/server/main.go:47-58 | The eviction is counted, and the former owner, if it is still there with room, is told; nobody else is. |
| Dispatch.Server.OnAvailable | cmd/server/main.go:60-73 | Each open session with room that holds one of the tags (any for no tags) gets the one notice, every other session is untouched; only a registration is counted. |
| Dispatch.Server.OnConnect | cmd/server/main.go:87-89 | A new session gets its counters, and nothing else changes. |
| Dispatch.Server.OnDisconnect | cmd/server/main.go:90-97 | Exactly the tasks the session owns become available with the tags and hint they had, all others stay; each session with room is told of every one as it concerns it, and then the counters of the session go. |
| Dispatch.Server.EvictExpired | internal/task/task.go:292-326 | Exactly the tasks whose lease has lapsed become available, all others stay, and each session with room is told of every one as it concerns it. |
| Dispatch.Server.Handle | internal/dispatcher/dispatcher.go:29-51 | A message of an unknown session changes nothing at all; each kind of message changes registry, counters and sessions as the operation it stands for. A submission for a task the session does not own is counted as a rejection, answered so, and leaves the world alone; only an accepted one of the owner changes the world. |
| Dispatch.Server.Acquire | internal/task/task.go:151-200 | Without interference both lock sections and the handlers between them either refuse without effect or grant. |
| Dispatch.Server.HandleAcquire | internal/dispatcher/dispatcher.go:53-71 | A missing or held task leaves registry and counters alone and is answered with the reason. Otherwise the task is leased for thirty seconds, the claim is counted (and the eviction of a lapsed lease before it), and the client is told last. |
| Dispatch.Server.HandleRelease | internal/dispatcher/dispatcher.go:73-83 | Only the owner frees the task: it is available as before, the release is counted and all sessions with one of its tags are told. Anyone else gets the failure, and nothing happens. |
| Dispatch.Server.HandleSubmit | internal/dispatcher/dispatcher.go:85-122 | An unknown task, another session's task and a rejected submission are counted and answered as rejections with their reason, and the world stays; the owner's accepted submission applies its updates, is counted and answered as accepted, and the lease goes on. |
| Dispatch.Server.HandleSubscribe | internal/dispatcher/dispatcher.go:124-141 | The session holds the new tags besides its old ones and, with room for them all, has been sent exactly the available tasks with one of the new tags, each once; nobody else is touched. |
| Dispatch.Server.HandleUnsubscribe | internal/dispatcher/dispatcher.go:143-150 | Exactly the given tags of this one session go. |
| ServerSteps.AcquireMeans | internal/dispatcher/dispatcher.go:53-71 | An acquire over registry, counters and sessions, by the state of the task: missing, free, lapsed (the former owner is told of its loss, those with a tag of the offer, the new owner of its claim last) or held. |
| ServerSteps.EventsTell | cmd/server/main.go:47-73 | The handlers of a series of events tell a session with room just what concerns it, in order: its own losses, and the offers it holds a tag of. |
| ServerSteps.OffersTell | internal/dispatcher/dispatcher.go:132-139 | A listing puts its tasks, in order and in full, into the outbox of a session with room for them, and touches nobody else. |
| Submissions.EveryChangeWasOwned | internal/dispatcher/dispatcher.go:85-122 | In every interleaving of registry sections, checks and single updates, whatever changes the world is the next update of a submission that was accepted and that was checked earlier in the run while its session owned the task, its earlier updates having been written in order. |
| Submissions.LostInBetween | internal/dispatcher/dispatcher.go:91-106 | If the session does not own the task any more at the write, then in between it gave the task up itself, or its lease had lapsed and was swept or reacquired, or another acquire was resumed. |
| Submissions.UninterruptedSubmission | internal/dispatcher/dispatcher.go:85-122 | Undisturbed, the steps of one submission apply all its updates if the session owns the task and it is accepted, and change nothing otherwise. |
| Submissions.OwnerMayHaveChanged | internal/dispatcher/dispatcher.go:96-106 | A concrete run in which an update of one session is written while another owns the task. |
| LeaseAccounting.LeasesConserved | internal/metrics/metrics.go:78-199 | In every state reached by messages, sweeps and disconnects, when each handler runs undisturbed with the events it fires: total claims are releases plus evictions plus owned tasks; per task the difference is 1 exactly when owned; each session's current count is the number of tasks it owns; whoever is in flight for a task owns it. |
| LeaseAccounting.GiveUpBooks | internal/metrics/metrics.go:155-199 | When an owned task is released or evicted in a balanced state the owner's count is positive, so the saturating guards never act, and the books balance afterwards. |
| LeaseAccounting.StepBalanced | internal/dispatcher/dispatcher.go:53-122 | Every single operation, with all events it fires across registry, counters and sessions, keeps the books balanced. |
| LeaseRecords.AccountsTally | internal/dispatcher/dispatcher.go:53-83 | When each count comes later than the lock section it is for, in every interleaving and for the totals, each task and each session: what is counted, with what is still to be counted, is what is owned, up to the account's slips. An account slips by a grant written over a lease, a session's also by a release counted at zero and by counters dropped with a count left in them. |
| LeaseRecords.BalancedExactly | internal/metrics/metrics.go:155-199 | Once all is counted, an account equals what is owned if and only if its slips cancel out; the totals and each task's account do so if and only if no grant was written over a lease. |
| LeaseRecords.ClaimOutlivesSession | internal/dispatcher/dispatcher.go:58-64 | A concrete run over UDP in which a session is removed between its grant and the count of it: all is counted, nothing is owned, and the session that is gone has a count of 1. |
| LeaseRecords.CountStaysForGood | internal/metrics/metrics.go:233-244 | However a run goes on, a session's counters stay as they are while nothing of that session is counted. |
| MissedWork.AvailabilityIsAnnounced | internal/task/task.go:102-326 | A task that is available after a lock section was so before or is announced by one of the events fired, and every announcement carries the task's tags. |
| MissedWork.NoMissedWork | internal/session/session.go:141-159 | At any moment of any interleaving, for each live session, available task and shared tag: since the task last became available the session has been sent it, or a broadcast has yet to compare that tag, or its own listing has yet to reach the task, or a notice of this very task was dropped. |
| MissedWork.ToldMeansSent | internal/session/session.go:68-80 | A session counts as told of a task only by a step that puts a notice of that task at the end of its outbox. |
| MissedWork.LostMeansDropped | internal/session/session.go:68-80 | A notice of a task counts as dropped for a session only by a step that had one for it and found its outbox full, or the session closed. |
| MissedWork.NobodyToldYet | internal/task/task.go:102-326 | When a task becomes available, no session counts as told of it, and none as having lost a notice of it. |
| MissedWork.QuietMeansTold | internal/dispatcher/dispatcher.go:124-141 | Once no broadcast and no listing is under way, every session has been sent every available task it shares a tag with, but for tasks of which a notice was dropped. |
| UndisturbedCasts.CastIsBroadcast | internal/session/session.go:141-176 | A broadcast whose comparisons nothing interrupts leaves the sessions as the availability handler does: each open one with room that holds one of the tags has the one notice, the others are untouched. |
| UndisturbedCasts.CastCanEnd | internal/session/session.go:153-176 | From wherever it stands, a broadcast alone can go on until it has served everyone. |
| UndisturbedCasts.ListingIsOffered | internal/dispatcher/dispatcher.go:131-139 | A listing that nothing interrupts sends the session what the dispatcher's handler sends it. |
| Projector.Projector.ComputeDiffs | internal/projector/projector.go:101-128 | The diffs are, in the order of the snapshot, those of the objects for which the session holds the star or one of their tags and whose version is above the last one put together for it; the table then has their versions and is unchanged otherwise. |
| Projector.Projector.Tick | internal/projector/projector.go:72-99 | One snapshot of the world serves every session of the manager, each once: its wanted objects go out in one message if all can be encoded and it is open with room, and nothing else is sent. |
| Projector.SessionMatchesAnyTag | internal/projector/projector.go:130-140 | True for the star, true for each of the object's tags the session holds, and otherwise false. |
| DeltaStream.DeltasRefineSnapshots | internal/projector/projector.go:72-128 | In every run without deletions, for each object of the tick's snapshot that the tick's comparisons found to match a session, whose tags may change between them: right after the tick the fold of all deltas sent to it agrees with the snapshot on version, data and meta when the object was due and the message could be encoded and fitted, or was not due and its last delta had not been lost; and only then, unless the session is on its way out. |
| DeltaStream.ClientsNeverGoBack | internal/projector/projector.go:101-128 | After any number of messages read, lossy or not, each object a client holds is a version the world once held, and what it reads later never takes an object back. |
| DeltaStream.LostIsNotResent | internal/projector/projector.go:115-126 | Whatever becomes of a tick's message, nothing that the tick found to match stays due for that session, for any tags it may have later. |
| DeltaStream.DeltaMayBeLost | internal/projector/projector.go:83-90 | A concrete run in which an object whose data is not JSON spoils its message, and the session stays without the object although it has its tag. |
| TagStream.RunsAreStreams | internal/projector/projector.go:101-140 | With every comparison of a tag a step of its own, a run comes to a run of whole ticks with what the comparisons found. |
| TagStream.HeldTagIsServed | internal/projector/projector.go:72-140 | For a session that holds the star, or one of the object's tags, for as long as a tick serves it: right after the tick the fold of its deltas has the object of the snapshot, with version, data and meta, when the object was newer than what was put together for it before, the session is open with room and every newer object found to match can be encoded, or when it was not newer and its last delta had not been lost; and, but for sessions on their way out, only then. |
| TagStream.UnheldTagsAreNotServed | internal/projector/projector.go:101-140 | A session that holds neither the star nor any of the object's tags while a tick serves it is not sent the object. |
| Transport.SessionIdsDiffer | internal/transport/transport.go:173-178 | Two session ids are equal exactly when they were made at the same count and the same time. |
| UdpIndex.UdpServer.Admit | internal/transport/udp.go:135-153 | A known address keeps its session; an unknown one gets a new one with an id never used before, filed under both keys and in the manager; the entry is touched. |
| UdpIndex.UdpServer.EvictIndex | internal/transport/udp.go:256-268 | Precisely the entries silent for more than thirty seconds leave both maps, each listed once, and the maps still lead to the same entries. |
| UdpIndex.UdpServer.RemoveEvicted | internal/transport/udp.go:270-275 | Precisely the evicted sessions leave the manager, and every indexed one stays in it. |
| UdpIndex.DroppedInverse | internal/transport/udp.go:256-268 | Deleting evicted entries by address takes no other session's entry away, so the maps stay mutually inverse. |
| UdpIndex.IndexIsSound | internal/transport/udp.go:135-154 | In every interleaving of datagrams, both halves of sweeps and TCP connections the two maps are mutually inverse, and the manager's UDP sessions are exactly the indexed ones and those a sweep has yet to remove. |

## Left out

- 64-bit wrap-around: versions, counters and clocks are natural numbers; the source's are 64 bits wide.
- `UpdatedAt`, `CreatedAt` and uptime: no decision depends on them.
- Sockets, deadlines, read and write loops, goroutine start-up and `Stop`: connections are queues that are up from the start.
- JSON text: a payload is its decoded value. What encoding does to absent data and empty meta is modelled; which bytes are valid JSON is a parameter of the projector. A message's identity is its request id, or else its kind and payload; a request id that spells the same text as another message's kind and payload is not considered.
- Aliasing of byte slices returned by `Apply` and `Get`: values are copied.
- Registered handlers: operations return the events they fire, and their caller runs the handlers in order. Only the handlers that the binaries register are modelled.
- Sends within one broadcast: the forwards of one diff go out to all peers in one step; hooks go out link by link.
- Several connections between the same two peers, and peers that connect or leave during a run: the topology is fixed, with one two-way link per pair.
- Outbox limits in the network: `Peering.Peer.Send` has the limit; in the network an overflow is a lost message, so the lossless results assume none.
- A pause between putting a session's message together and sending it: one step in `DeltaStream`. What can come there in the source touches only the outbox, which the first part does not read, or the table, which the second does not, so it may as well come before or after.
- `Delete` in peer mode and in `DeltaStream`: a re-created object starts at version 1 again while the tables of seen versions do not, and nothing is promised about it.
- Raw content with several writers: `DataAgreement` compares contents as they are encoded, so absent data counts as JSON null, and an empty meta as absent.
- LeaseAccounting.LeasesConserved: takes each handler with its events as one step, with metrics enabled; what interference does is in `LeaseRecords`, which says nothing of claims in flight.
- Increments of one counter by two goroutines at once: each call of the recorder is one step; the source does not guard a session's or a task's counters against each other's updates.
- A harmful step in a topology with several paths: whether another path makes up for it is not decided; `SoleLink` decides it where there is one link.
- SubmitsArrive.SubmissionsArrive: says nothing of an announcer's own table, which fills only if the submission comes back to it over another path.
- ServerSteps.AcquireMeans: says what goes into the outboxes of sessions with room for three messages; single drops are in `Sessions.Session.Send`.
- Listing order: tasks, sessions and objects are gone through in an arbitrary order, as Go's maps are.
- DeltaStream.LostIsNotResent: speaks of the versions in the snapshot; what a later version does is in `DeltasRefineSnapshots`.
- `internal/peering/udp.go` and `internal/peering/fanin.go`: the first repeats the UDP double index, the second is a thin wrapper.
- Metrics log lines, the counts of world updates and broadcasts, the HTTP endpoint, average compute time and `Snapshot`: presentation.
- `cmd/peer/main.go` and flag parsing: configuration.
- Claims the code does not support, and that are therefore not stated: unconditional mutual exclusion, completed tasks staying completed (`Acquire` reopens them), data convergence with concurrent writers, delivery after an overflow.
