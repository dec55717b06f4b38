# TRAINS in Dafny

A Dafny model of the TRAINS ring protocol: the node kernel, the network it runs
on, the view-change recovery with its token protocol, the failure detector, the
state-transfer format, and the reference implementation the kernel is meant to
equal. Everything holds for every ring size 2..30 and every number of issuers
1..N (`crates/trains-core/build.rs:20-27`), for runs of any length.

`dafny verify dfyconfig.toml` checks the whole project.

## How it is organised

| file | what it holds |
|---|---|
| `Types.dfy`, `Kernel.dfy`, `Recovery.dfy`, `Merge.dfy` | keys, payloads, trains; one node's step, report, merge and plan as functions; the merge loops and their properties |
| `AckMask.dfy` | the 32-bit ack and crash masks, and why sets stand for them |
| `TrainsNode.dfy`, `ReferenceNode.dfy`, `ViewChange.dfy`, `Driver.dfy`, `Detector.dfy` | the stateful classes, method by method equal to those functions |
| `LocalOrder.dfy`, `Operations.dfy`, `Membership.dfy`, `Joiner.dfy` | what one node keeps, whatever arrives; who must acknowledge; what a joiner inherits |
| `Noted.dfy` | which delivered payloads a node notes as seen, in its own runs and on the network |
| `Network.dfy`, `Conservation.dfy`, `SenderOrder.dfy` | the asynchronous network: loss, duplication, reordering, crash-stop |
| `TokenRing.dfy`, `RingLag.dfy`, `Recycle.dfy`, `Alarm.dfy` | the ring with one token per issuer, each hop a step of the asynchronous network; the gap alarm |
| `Applying.dfy`, `Install.dfy`, `AfterInstall.dfy`, `LostDelivery.dfy`, `AcrossInstall.dfy` | the view change as one atomic step on a ring state, and life after it |
| `Straggler.dfy`, `StrayHarmless.dfy`, `OrderIff.dfy` | trains of the dead issuer that arrive late: when they split the survivors' order and when they cannot |
| `Round.dfy`, `Exclusion.dfy`, `Successor.dfy`, `Circulation.dfy`, `Views.dfy` | the view change as it really happens: rival detectors, interleaved tokens, core steps in between; where tokens travel and what plan they carry; one node over many rounds |
| `RoundWorld.dfy`, `RoundFrames.dfy`, `RoundLogs.dfy` | that round started from a ring state, with its wire and its logs |
| `Reference.dfy` | the reference node and the refinement |
| `StateTransfer.dfy` | the bytes of a state-transfer response |

The consistency proof has two halves. Locally, a recorded key forces every
smaller key of the view to be recorded, so each node's recorded keys are an
initial segment of one fixed enumeration (`LocalOrder`). Globally, a process
acks a key once and an issuer never reuses a clock, so trains of one key that
carry comparable ack sets carry prefix-related payloads, and a fully acked key
has one content (`Network`). Both are stated per *epoch* (base clocks, excluded
processes, keys settled before), so the theorem for the first view and the one
for the view after an install are the same theorem.

## Where the code differs from what is said about it

- The recovery documentation says a skipped key was delivered nowhere with
  content (`crates/trains-core/src/recovery.rs:40-45`). A process that crashed
  right after delivering may have been the only one:
  `LostDelivery.VictimMayBeAhead` is a three-step run on a ring of two in
  UniformTotalOrder. `AfterInstall.VictimAheadIff` says which crash does it: an
  issuer that delivered its own non-empty train on the first return and crashed
  before its successor met that train closed, and no other.
- "Every node has now delivered it" at recycle
  (`crates/trains-core/src/node.rs:313-315`) holds in every run on a ring if and
  only if the ring has a single issuer (`Recycle.RecycleClaimIff`). With more,
  `Recycle.RecycledWhileParked` is a run in which node 0 is about to recycle
  (1,0) while node 1 holds it only parked; `RingLag.RecycledRecordedIff` says
  which nodes have recorded the key.
- One sender's payloads are delivered in the order they were broadcast, in every
  run on a ring, if and only if the ring has a single issuer
  (`LateFirst.SendOrderIff`); otherwise the later one may ride the smaller key
  (`LateFirst.SecondBeforeFirst`).
- After a view change a reissued key may lie below a recorded one.
  `AcrossInstall.ReissueBelowSettled` is a reachable boundary; keys ascend across
  every install of every run on a ring if and only if it has a single issuer
  (`AcrossInstall.KeysAscendClaimIff`).
- The kernel assumes that no train of a dead issuer above the boundary is in
  flight (`crates/trains-core/src/node.rs:390-394`). An issuer that crashes
  before anyone meets its newest train leaves one. Without the assumption
  survivors keep one order from every ring state, whoever is excluded, if and
  only if the mode is UniformTotalOrder, the ring has two processes, or it has a
  single issuer (`OrderIff.OrderSurvivesIff`); otherwise
  `Straggler.StragglerSplitsOrder` is a run that splits it.
- The delivery gate is documented as waiting for issuers to reach `key.clock - 1`
  (`crates/trains-core/src/node.rs:462-464`); the code waits for `key.clock`
  (`:402`), and the model follows the code.
- A node that imports a snapshot does not restore `next_seq`, and the duplicate
  test precedes the increment (`crates/trains-core/src/node.rs:207-220`).
  `Joiner.RejoinerMuteIff`: it can never broadcast again if and only if the
  snapshot knows its next payload id. This fits the open follow-up at
  `docs/WHITEPAPER-rejoin-and-readmission-2026-06-16.md:247-252`.
- `broadcast_seen` is documented as holding every payload issued or accepted on a
  train (`crates/trains-core/src/node.rs:75-78`). A returning train of the node's
  own is delivered without being noted (`:317-341`), so an issuer never notes
  what others loaded onto its trains. `NotedOnTheRing.NotedIff`: in every run a
  delivered payload is noted if and only if it is the process's own or came on
  another's train; `Unnoted.NotedClaimIff`: the documented claim holds of a
  process in every run if and only if it issues no trains. Snapshots inherit the
  hole: `NotedOnTheRing.RestartDependsOnDonor` says whether a process restarted
  from a donor's snapshot is mute or reuses its first payload id.
- The kernel absorbs a train with clock 0 at its initial fence; the reference
  forwards it. `Refinement.RunRefines` shows this is the only difference.

## Model

| member | source | states |
|---|---|---|
| `Network.ConsistentDelivery` | crates/trains-core/src/node.rs:264-505 | in every run with loss, duplication, reordering and crash-stop, any two delivered logs, crashed processes' included, are mutual prefixes |
| `Network.OneContentPerKey` | crates/trains-core/src/node.rs:264-302 | in every run two fully acked trains of one key carry the same payloads |
| `Network.HeldIsContent` | crates/trains-core/src/node.rs:417-505 | in every run what a process parks under a key is the key's one content, and its log is exactly the recorded keys' contents in key order |
| `Network.SingleLineage` | crates/trains-core/src/node.rs:347-367 | the same for any view: trains of a key acked by all its members carry one payload sequence |
| `Network.ViewConsistent` | crates/trains-core/src/node.rs:395-406 | from any view start, members' logs stay mutual prefixes in every asynchronous run |
| `Network.TrainShape` | crates/trains-core/src/node.rs:224-341 | the ways a train passes a node: what is sent on and what of the node changes |
| `Conservation.PayloadConservation` | crates/trains-core/src/node.rs:207-220 | in every run queued payloads are exactly the broadcasts not yet shipped, consecutively numbered; a shipped one rides trains of exactly one key; trains carry nothing else |
| `SenderOrder.SingleIssuerKeepsOrder` | crates/trains-core/src/node.rs:286-293 | with one issuer every process delivers every sender's payloads in the order they were broadcast |
| `LateFirst.SecondBeforeFirst` | crates/trains-core/src/node.rs:286-293 | on any ring with two issuers, a run in which a process's second payload is delivered before its first |
| `LateFirst.SendOrderIff` | crates/trains-core/src/node.rs:286-293 | every run on a ring keeps every sender's order if and only if it has a single issuer |
| `Conservation.DeliveredOnceAndBroadcast` | crates/trains-core/src/node.rs:286-293 | no process delivers a payload that was never broadcast, nor one twice |
| `LocalOrder.LocalTotalOrder` | crates/trains-core/src/node.rs:465-505 | one step with any train of the view's issuers keeps the initial segment, and new keys are above all earlier ones of the view |
| `LocalOrder.TotalOrderInEveryRun` | crates/trains-core/src/node.rs:231-235 | the same over runs of any length |
| `LocalOrder.DoneIsInitialSegment` | crates/trains-core/src/node.rs:395-406 | from a fresh node the done keys are always an initial segment of (1,0),(1,1),…,(1,K-1),(2,0),… |
| `LocalOrder.StepDelivers` | crates/trains-core/src/node.rs:417-440 | a step delivers exactly the contents of the keys it newly records, once each, in ascending key order |
| `LocalOrder.StepOrdered` | crates/trains-core/src/node.rs:264-341 | with genuine contents a step extends the log by the contents of the keys it records and the cache forgets only the smallest keys |
| `LocalOrder.EvictSmallest` | crates/trains-core/src/node.rs:446-455 | eviction keeps the largest keys: whatever is forgotten is below everything kept |
| `Operations.NoKeyTwice` | crates/trains-core/src/node.rs:417-505 | in every run of step, confirm, readmit, freeze, apply and reissue, parked and done stay disjoint and the smallest parked key is not deliverable outside a freeze |
| `Operations.RecordsAreFresh` | crates/trains-core/src/delivery.rs:153-156 | from a tidy state the drain, the one caller that does not test first, never records a key again, so the debug assertion holds |
| `Operations.FencedForever` | crates/trains-core/src/node.rs:224-235 | after a plan is applied, a train at or below its boundary has no output and no effect for the rest of any run |
| `Operations.IssuedClocksAscend` | crates/trains-core/src/node.rs:347-350 | the clocks a node stamps strictly increase over any run with view changes |
| `Operations.StampedIsIssued` | crates/trains-core/src/node.rs:347-367 | an operation stamps a clock exactly when it issues a train, and moves the issue clock by one then |
| `Operations.ReapplyIsHarmless` | crates/trains-core/src/node.rs:631-682 | after any further operations, re-applying a plan only lifts the freeze and drains; outside a freeze it changes and delivers nothing |
| `Membership.ReadmittedMustAck` | crates/trains-core/src/node.rs:178-191 | in TotalOrder, after a re-admission and in every run until that process is confirmed again, each key newly recorded or parked other than by a plan came on a train the process had acked |
| `Membership.MembersMustAck` | crates/trains-core/src/delivery.rs:110-119 | the same for every member never confirmed crashed |
| `Membership.ReadmitStanding` | crates/trains-core/src/node.rs:189-191 | re-admission makes that process and nobody else a member again: an ack set is then ready exactly when it holds the process and was ready with it before |
| `Membership.ConfirmStanding` | crates/trains-core/src/node.rs:171-176 | confirming a crash takes that process and nobody else out: an ack set is then ready exactly when adding the process would have made it so |
| `Membership.ConfirmedNeedNotAck` | crates/trains-core/src/node.rs:753-795 | after a confirmation a train acked by everybody else is delivered or parked on its second lap |
| `Membership.ReadmitUndoesConfirm` | crates/trains-core/src/node.rs:178-191 | confirm then re-admit restores the marks, keeps what the confirmation let out, and leaves no trace if and only if it let nothing out |
| `Membership.NonIssuerLeavesNoTrace` | crates/trains-core/src/node.rs:178-191 | for a process that issues no trains confirm then re-admit is the identity |
| `Membership.StandingInRun` | crates/trains-core/src/delivery.rs:77-89 | in every run a process is marked crashed if and only if the last confirmation or re-admission about it says so |
| `Noted.DeliveredAreNoted` | crates/trains-core/src/node.rs:264-341 | in every run of every operation whatever a node delivers, by step or by plan, it has noted, unless it came back on a train of its own |
| `Noted.ApplyNotes` | crates/trains-core/src/node.rs:648-657 | after a plan every payload id of a resent key that was missing is noted |
| `Noted.OwnTrainNotNoted` | crates/trains-core/src/node.rs:317-341 | delivering a returning train of its own a node notes nothing |
| `NotedOnTheRing.NotedIff` | crates/trains-core/src/node.rs:75-78 | in every asynchronous run a process has noted a payload it delivered if and only if the payload is its own or travelled on another's train |
| `NotedOnTheRing.RestartDependsOnDonor` | crates/trains-core/src/node.rs:538-569 | a process restarted from the snapshot of a donor that had delivered its first payload is mute for ever if and only if that payload had not come on the donor's own train; otherwise it reuses the id |
| `Unnoted.DeliversUnnoted` | crates/trains-core/src/node.rs:317-341 | for every issuer of every ring, a run in which it delivers a payload it has not noted |
| `Unnoted.NotedClaimIff` | crates/trains-core/src/node.rs:75-78 | a process has noted all it delivered in every run if and only if it issues no trains |
| `MergeProofs.MergeOrderIndependent` | crates/trains-core/src/recovery.rs:146-198 | permuting or repeating reports changes neither boundary, key set nor skip choice, nor the delivered payloads if equal ids carry equal data |
| `MergeProofs.MergeLossless` | crates/trains-core/src/recovery.rs:146-198 | up to the boundary a key has an action if and only if not every reporter is done with it; all seen and issued clocks are inside |
| `MergeProofs.NeverSkipped` | crates/trains-core/src/recovery.rs:40-45 | a key for which a reporter holds payloads within its seen clocks is done by all or resent with all those payload ids |
| `MergeProofs.ComputeRecoveryPlan` | crates/trains-core/src/recovery.rs:146-198 | the nested loops compute the merge those lemmas are about |
| `MergeProofs.ComputeBoundary` | crates/trains-core/src/recovery.rs:151-159 | the boundary array holds each issuer's largest seen or issued clock |
| `MergeProofs.UnionPayloads` | crates/trains-core/src/recovery.rs:175-186 | the dedup loop collects the union of offered payloads, first copy of each id |
| `TokenRing.RingReachableInv` | crates/trains-core/src/node.rs:304-341 | in every ring run each token's acks, clock and visited set follow its position: who has seen the clock, who has handled the closed train |
| `RingLag.SeenWithinOne` | crates/trains-core/src/node.rs:313-315 | every node is at most one clock behind any train and has delivered or parked every earlier key of that issuer |
| `RingLag.RecycledRecordedIff` | crates/trains-core/src/node.rs:313-330 | when a train is back for the second time, a node has recorded its key if and only if it has met every issuer's train of that clock and handled the round's smaller keys; otherwise it holds it parked |
| `Recycle.RecycledWhileParked` | crates/trains-core/src/node.rs:313-330 | on any ring with two issuers, a run in which node 0 is about to recycle a key that node 1 holds only parked |
| `Recycle.RecycleClaimIff` | crates/trains-core/src/node.rs:313-315 | "every node has delivered it" holds at every recycle of every run if and only if there is a single issuer |
| `RingLag.ClockSkew` | crates/trains-core/src/node.rs:395-406 | issuer clocks on the ring never differ by more than one |
| `RingLag.NobodyLags` | crates/trains-core/src/node.rs:465-505 | every node has recorded all keys two or more rounds below any issuer's clock |
| `RingLag.CacheSuffices` | crates/trains-core/src/node.rs:446-455 | a payload one node delivered and another lacks is in the first node's cache, unaltered |
| `Alarm.AlarmIff` | crates/trains-core/src/node.rs:282-285 | a node raises the crash hint about an issuer exactly when a foreign, unfenced train shows that a clock of that issuer was skipped |
| `Alarm.CheckClockMeans` | crates/trains-core/src/clock.rs:60-75 | a gap names exactly the skipped clocks; a duplicate is an old clock |
| `Alarm.NoFalseAlarm` | crates/trains-core/src/node.rs:282-285 | no hop of any ring run raises it |
| `Applying.ApplyLevels` | crates/trains-core/src/node.rs:631-682 | applying a plan that supplies what a node lacks leaves it exactly level with the boundary |
| `Applying.ApplyDelivers` | crates/trains-core/src/node.rs:631-682 | and delivers exactly the missing keys' planned payloads in key order |
| `Applying.ApplyKeepsQueue` | crates/trains-core/src/node.rs:665-681 | queued broadcasts survive the view change, and the next clock is the larger of the old one and boundary + 1 |
| `Applying.CachedWins` | crates/trains-core/src/node.rs:604-613 | in any state a key is offered exactly when payloads for it are cached or parked, the cached copy first |
| `Applying.OfferedInRun` | crates/trains-core/src/node.rs:602-621 | in every run a key is cached or parked, never both, and is offered exactly what the node delivered for it or holds parked |
| `ViewInstall.PlannedContent` | crates/trains-core/src/recovery.rs:146-198 | on a reachable ring the plan resends a key's one content, or skips the key if no survivor holds it |
| `ViewInstall.ResentContent` | crates/trains-core/src/recovery.rs:33-39 | a key some survivor recorded and another lacks is resent with its one content |
| `ViewInstall.VirtualSynchrony` | crates/trains-core/src/node.rs:592-682 | from every reachable ring state, any victim, any report order: every survivor ends with done = all keys up to the boundary, nothing parked, level clocks, the same log |
| `AfterInstall.OrderSurvivesViewChange` | crates/trains-core/src/node.rs:665-681 | in every asynchronous continuation of an install survivors' logs stay mutual prefixes, when no train of the dead issuer above the boundary is in flight |
| `OrderIff.OrderSurvivesIff` | crates/trains-core/src/node.rs:386-406 | without that assumption: from every reachable ring state, any victim, any continuation, survivors' logs stay mutual prefixes if and only if the mode is UniformTotalOrder, or two processes, or one issuer |
| `OrderIff.OrderSurvives` | crates/trains-core/src/node.rs:386-406 | the same for one explicit state and continuation |
| `StrayHarmless.AtMostTheStray` | crates/trains-core/src/delivery.rs:110-119 | with a straggler, in UniformTotalOrder or with one issuer, a survivor can deliver nothing after the install but the straggler's one content |
| `Straggler.StragglerSplitsOrder` | crates/trains-core/src/node.rs:395-406 | in TotalOrder, on any ring of three with two issuers, a run in which a straggler makes two survivors' logs diverge |
| `Straggler.StartIsJustLaunched` | crates/trains-core/src/node.rs:514-520 | at the start every issuer's train would be a straggler |
| `AfterInstall.StragglerIffJustLaunched` | crates/trains-core/src/node.rs:390-394 | the kernel's assumption behind that, no train of the dead issuer above the boundary, fails exactly when the issuer crashed before anyone else met its newest train |
| `AfterInstall.NonIssuerLeavesNothing` | crates/trains-core/src/node.rs:390-394 | for a victim that issues no trains the assumption always holds |
| `AfterInstall.ViewChangeInEveryRun` | crates/trains-core/src/node.rs:592-682 | both results for an explicit run from the ring's start |
| `AfterInstall.VictimAheadIff` | crates/trains-core/src/recovery.rs:30-46 | the victim's log is a prefix of the survivors' unless the victim is an issuer that delivered its own non-empty train on the first return and crashed before its successor met it closed; and then it is not |
| `AfterInstall.NonIssuerNeverAhead` | crates/trains-core/src/recovery.rs:30-46 | a victim that issues no trains is never ahead |
| `AfterInstall.VictimAgreement` | crates/trains-core/src/recovery.rs:146-198 | a step towards it: in terms of the plan, prefix if and only if no key the victim delivered with payloads is skipped |
| `AcrossInstall.NewAboveOldIff` | crates/trains-core/src/node.rs:665-676 | for any boundary, new keys lie above all settled ones if and only if each slot's first new key lies above each slot's last settled one |
| `AcrossInstall.RingKeysAscendIff` | crates/trains-core/src/node.rs:665-676 | on the ring: if and only if no issuer's slot of the boundary is ahead of a lower surviving issuer's |
| `AcrossInstall.ReissueBelowSettled` | crates/trains-core/src/node.rs:673-676 | on any ring with two issuers, a reachable state whose boundary makes issuer 0 reissue below a settled key |
| `AcrossInstall.KeysAscendClaimIff` | crates/trains-core/src/node.rs:665-676 | keys ascend across every install of every run on a ring if and only if it has a single issuer |
| `LostDelivery.VictimMayBeAhead` | crates/trains-core/src/recovery.rs:40-45 | a concrete run in which it is not |
| `Round.OnePlanPerView` | crates/trains-recovery/src/view_change.rs:99-171 | with rival detectors and any token interleaving there is at most one Install, and each survivor applies that plan at most once, exactly when it moves to the new view |
| `Round.ReportsStayExact` | crates/trains-cli/src/node.rs:209-284 | whenever a survivor applies, the plan merges one report per survivor, its own still gives its done keys and payloads exactly, and it ends with precisely the keys up to the boundary, nothing parked |
| `Exclusion.VictimOutForGood` | crates/trains-cli/src/node.rs:236-258 | in every state a round reaches, a survivor that knows of the crash has the victim and its earlier marks crashed, before and after the plan, and sends to the next survivor on their one cycle, never to a dead process |
| `RoundLogs.EqualLogsAtInstall` | crates/trains-cli/src/node.rs:209-284 | started from any ring state, with any interleaving of detections, tokens, trains and broadcasts: whenever two survivors have installed, the logs they installed with are equal |
| `RoundLogs.RoundCanStart` | crates/trains-cli/src/node.rs:236-258 | every ring state and every victim give such a round |
| `RoundFrames.FrameCacheSuffices` | crates/trains-core/src/node.rs:446-455 | until a survivor installs, a payload it delivered and another survivor lacks is still in its cache |
| `Round.FrozenStill` | crates/trains-core/src/node.rs:417-420 | under the freeze a step changes neither done, parked nor cached keys |
| `Successor.FindNextAlive` | crates/trains-cli/src/node.rs:149-155 | the loop terminates at the next live process |
| `Successor.SingleCycle` | crates/trains-cli/src/node.rs:149-155 | following it links exactly the live processes into one cycle in ascending order |
| `Circulation.ExclusionTerminates` | crates/trains-recovery/src/view_change.rs:99-171 | from any detector the Gather completes after a stated number of hops below 2m, the Install dies after exactly m, all survivors have installed the view without the victim and been given exactly one plan, the same, which resolves one report of each |
| `Circulation.ReadmissionTerminates` | crates/trains-recovery/src/view_change.rs:202-291 | the re-admit round likewise, ending with the rejoiner live; every clock a member or the rejoiner reported is within the plan's boundary, a key has an action if and only if it is within and some reporter lacks it, held payloads are resent |
| `Circulation.MergeResolves` | crates/trains-core/src/recovery.rs:146-198 | any merge covers every reported clock with the least boundary, acts on exactly the keys some reporter lacks, resends every held payload id and skips only keys nobody holds payloads for |
| `Views.ViewsAscend` | crates/trains-recovery/src/view_change.rs:99-291 | over any tokens and confirmations, of any rounds, the views a node installs strictly ascend, each with one plan |
| `Views.StaleForever` | crates/trains-recovery/src/view_change.rs:115-121 | a token of a view already installed is dropped, unanswered, for the rest of any run |
| `Views.TakeDead` | crates/trains-recovery/src/view_change.rs:99-291 | a process enters the dead set exactly by its confirmation or a new view's token naming it, and leaves it exactly when its re-admission is installed |
| `Views.DeadInRun` | crates/trains-recovery/src/view_change.rs:99-291 | in every run a process nobody recalls stays dead and one nobody accuses stays live |
| `ViewChangeSpec.CoordinatorIsLowest` | crates/trains-recovery/src/view_change.rs:75-82 | the coordinator is the lowest live process |
| `ViewChangeClass.ViewChange.constructor` | crates/trains-recovery/src/view_change.rs:62-64 | view 0, nobody dead |
| `ViewChangeClass.ViewChange.FindCoordinator` | crates/trains-recovery/src/view_change.rs:75-82 | finds that coordinator |
| `ViewChangeClass.ViewChange.Confirm` | crates/trains-recovery/src/view_change.rs:99-111 | new state and actions on a confirmed crash |
| `ViewChangeClass.ViewChange.ReceiveGather` | crates/trains-recovery/src/view_change.rs:115-155 | new state and actions on a Gather, stale ones dropped |
| `ViewChangeClass.ViewChange.ReceiveInstall` | crates/trains-recovery/src/view_change.rs:160-171 | new state and actions on an Install |
| `ViewChangeClass.ViewChange.AdoptView` | crates/trains-recovery/src/view_change.rs:190-193 | installs the given view and dead set |
| `ViewChangeClass.ViewChange.RequestReadmit` | crates/trains-recovery/src/view_change.rs:202-210 | the seeded re-admit Gather |
| `ViewChangeClass.ViewChange.ReceiveReadmitGather` | crates/trains-recovery/src/view_change.rs:216-275 | new state and actions: complete only with every live process and the rejoiner, and then the plan `ReadmissionTerminates` describes |
| `ViewChangeClass.ViewChange.ReceiveReadmitInstall` | crates/trains-recovery/src/view_change.rs:280-291 | new state and actions: the rejoiner leaves the dead set, the plan is applied and passed on |
| `Driver.NodeDriver.ExcludeVictim` | crates/trains-cli/src/node.rs:236-258 | freeze, confirm, retarget, once per victim: the change whose lasting effect is `VictimOutForGood` |
| `Driver.NodeDriver.AdoptPlan` | crates/trains-cli/src/node.rs:272-281 | apply and show what it delivers; on an issuer exactly one train goes out, above the boundary and all clocks stamped before, with the whole queue |
| `Driver.NodeDriver.Perform` | crates/trains-cli/src/node.rs:261-284 | carries out all actions in order: sends exactly their tokens, exactly the reissued trains, and shows exactly what the plans deliver |
| `Driver.NodeDriver.CrashConfirmed` | crates/trains-cli/src/node.rs:190-195 | the reaction to a confirmed crash that `Round` is about |
| `Driver.NodeDriver.HandleToken` | crates/trains-cli/src/node.rs:209-232 | the reaction `Round` is about, with at most one token sent; on a new view's Install, or a Gather complete here, one plan is adopted, its deliveries shown and an issuer's one fresh train sent, otherwise no train and no delivery; re-admit tokens are ignored |
| `Refinement.StepRefines` | verification/reference/src/lib.rs:84-274 | from matching states one step gives equal outputs if and only if the train's clock is positive, and then the states match again |
| `Refinement.RunRefines` | verification/reference/src/lib.rs:84-274 | over a whole input sequence outputs agree at every step if and only if no train has clock 0 |
| `Refinement.FreshMatch` | verification/reference/src/lib.rs:57-76 | new nodes match, before and after the initial train, which is the same train |
| `Refinement.ReferenceLog` | verification/reference/src/lib.rs:205-274 | the reference's delivered vector grows by exactly what its outputs deliver |
| `ReferenceNodeClass.ReferenceNode.IsDeliverable` | verification/reference/src/lib.rs:229-252 | the three loops decide the delivery condition |
| `ReferenceNodeClass.ReferenceNode.TryDeliver` | verification/reference/src/lib.rs:205-226 | record, park or ignore, as specified |
| `ReferenceNodeClass.ReferenceNode.DrainParked` | verification/reference/src/lib.rs:254-274 | the drain loop delivers smallest first until blocked |
| `ReferenceNodeClass.ReferenceNode.HandleForeign` | verification/reference/src/lib.rs:123-168 | both laps |
| `ReferenceNodeClass.ReferenceNode.HandleReturning` | verification/reference/src/lib.rs:171-189 | deliver and forward, or recycle |
| `ReferenceNodeClass.ReferenceNode.DoStep` | verification/reference/src/lib.rs:84-90 | one step of the reference |
| `TrainsNodeClass.TrainsNode.constructor` | crates/trains-core/src/node.rs:103-118 | a fresh node |
| `TrainsNodeClass.TrainsNode.CheckAndUpdate` | crates/trains-core/src/clock.rs:60-75 | duplicate, next or gap, and the slot never goes back |
| `TrainsNodeClass.TrainsNode.ConfirmCrashed` | crates/trains-core/src/node.rs:171-176 | mark and drain |
| `TrainsNodeClass.TrainsNode.ReadmitNode` | crates/trains-core/src/node.rs:189-191 | unmark, with the consequences `Membership` states |
| `TrainsNodeClass.TrainsNode.SetFrozen` | crates/trains-core/src/node.rs:575-577 | only the flag changes |
| `TrainsNodeClass.TrainsNode.RecordDelivered` | crates/trains-core/src/delivery.rs:153-156 | adds the key and changes nothing else |
| `TrainsNodeClass.TrainsNode.CacheDelivered` | crates/trains-core/src/node.rs:446-455 | insert, then evict smallest keys down to 1024 |
| `TrainsNodeClass.TrainsNode.SeenClocksAdvancedEnough` | crates/trains-core/src/node.rs:395-406 | every live issuer's clock has reached the key's |
| `TrainsNodeClass.TrainsNode.KnownAreDone` | crates/trains-core/src/node.rs:470-480 | every smaller seen key is recorded |
| `TrainsNodeClass.TrainsNode.IsDeliverable` | crates/trains-core/src/node.rs:465-483 | no smaller parked key, and the two conditions above |
| `AckMask.ReadyMeans` | crates/trains-core/src/delivery.rs:110-119 | the mask tests decide the delivery condition: exactly the ring's processes have acked, or every process not marked crashed has |
| `AckMask.AddAck` | crates/trains-core/src/types.rs:85-87 | setting a bit adds exactly one process |
| `AckMask.UnmarkCrashed` | crates/trains-core/src/delivery.rs:87-89 | clearing a bit removes exactly one process |
| `TrainsNodeClass.TrainsNode.TryToDeliver` | crates/trains-core/src/node.rs:417-441 | ignore, park or record and deliver |
| `TrainsNodeClass.TrainsNode.DrainParked` | crates/trains-core/src/node.rs:490-505 | the drain loop, never recording a key twice |
| `TrainsNodeClass.TrainsNode.HandleBroadcast` | crates/trains-core/src/node.rs:207-220 | queue once per payload id |
| `TrainsNodeClass.TrainsNode.IssueNewTrain` | crates/trains-core/src/node.rs:347-367 | next clock, whole queue, own ack |
| `TrainsNodeClass.TrainsNode.HandleForeignTrain` | crates/trains-core/src/node.rs:264-302 | lap 1 loads and acks, lap 2 delivers and forwards unchanged |
| `TrainsNodeClass.TrainsNode.HandleReturningTrain` | crates/trains-core/src/node.rs:317-341 | deliver and forward, or recycle |
| `TrainsNodeClass.TrainsNode.DoStep` | crates/trains-core/src/node.rs:197-203 | one step, from any state: the outputs and state the theorems are about; a sound state stays sound |
| `TrainsNodeClass.TrainsNode.RecoveryReport` | crates/trains-core/src/node.rs:592-624 | seen, issued, done, and cached payloads before parked ones |
| `TrainsNodeClass.TrainsNode.ApplyRecovery` | crates/trains-core/src/node.rs:631-682 | actions in key order, fence, issue clock, unfreeze, drain; from a tidy state the invariant is restored |
| `TrainsNodeClass.TrainsNode.ApplyOne` | crates/trains-core/src/node.rs:634-663 | one action: clock, unpark, record once, note what is resent |
| `TrainsNodeClass.TrainsNode.RaiseFloor` | crates/trains-core/src/node.rs:665-671 | the fence is raised slot by slot, never lowered |
| `TrainsNodeClass.TrainsNode.ExportState` | crates/trains-core/src/node.rs:538-546 | the snapshot |
| `TrainsNodeClass.TrainsNode.ImportState` | crates/trains-core/src/node.rs:555-569 | the snapshot installed, buffers cleared, issue clock above the slot, `next_seq` untouched |
| `Joiner.SnapshotRoundTrip` | crates/trains-core/src/node.rs:538-569 | export after import returns the snapshot, and a second import changes nothing |
| `Joiner.JoinerConsistent` | crates/trains-core/src/node.rs:548-569 | in every continuation by steps the joiner extends the donor's segment, delivers only keys above the donor's, none of the donor's again |
| `Joiner.JoinerIssuesAbove` | crates/trains-core/src/node.rs:552-564 | every clock it ever stamps is above the donor's done keys and fence of its slot, and above its earlier ones |
| `Joiner.JoinerIssuesNext` | crates/trains-core/src/node.rs:552-564 | its first clock is the least the donor has neither fenced nor met |
| `Joiner.JoinerMirrorsDonor` | crates/trains-core/src/node.rs:548-569 | from a donor not frozen and with nothing parked, joiner and donor deliver the same payloads in the same order from any sequence of other processes' trains |
| `Joiner.JoinedSound` | crates/trains-core/src/node.rs:555-569 | whatever it held before, the joiner starts sound and offers nothing to a view change |
| `Joiner.RejoinerMuteIff` | crates/trains-core/src/node.rs:207-220 | after an import no continuation ever queues a payload if and only if the snapshot knows (id, next_seq) |
| `Detector.DetectorExact` | crates/trains-recovery/src/failure_detector.rs:61-95 | confirmed if and only if some stretch of the history without a sign of life carries evidence up to the threshold |
| `Detector.Accrual` | crates/trains-recovery/src/failure_detector.rs:73-86 | suspicion equals the evidence since the last sign of life, saturation included, and is zero once confirmed; each confirmation is reported once |
| `Detector.ConfirmedForGood` | crates/trains-recovery/src/failure_detector.rs:73-95 | once confirmed always confirmed, reported exactly once |
| `Detector.FailureDetector.Strike` | crates/trains-recovery/src/failure_detector.rs:73-86 | saturating accrual and confirmation |
| `Detector.FailureDetector.RecordGapHint` | crates/trains-recovery/src/failure_detector.rs:61-63 | one strike |
| `Detector.FailureDetector.RecordDisconnect` | crates/trains-recovery/src/failure_detector.rs:68-71 | the disconnect weight |
| `Detector.FailureDetector.HeardFrom` | crates/trains-recovery/src/failure_detector.rs:91-95 | clears unconfirmed suspicion only |
| `StateTransfer.RoundTrip` | crates/trains-net/src/snapshot.rs:151-161 | parsing a written response, whatever follows it, returns it and nothing else consumed within the caps, and otherwise the error of the first cap exceeded |
| `StateTransfer.AcceptedIff` | crates/trains-net/src/snapshot.rs:151-161 | a written response is accepted if and only if every cap is met |
| `StateTransfer.Canonical` | crates/trains-net/src/snapshot.rs:243-262 | whatever is accepted is exactly the writing of what was parsed, within the caps |
| `StateTransfer.CutShortRefused` | crates/trains-net/src/snapshot.rs:243-262 | every proper prefix of a response within the caps is refused as a stream that ended early, and as nothing else |
| `StateTransfer.BigEndian` | crates/trains-net/src/snapshot.rs:226-237 | lengths are written most significant byte first |
| `StateTransfer.HeaderLayout` | crates/trains-net/src/snapshot.rs:226-231 | snapshot length, snapshot, number of frames, in that order |
| `StateTransfer.FrameLayout` | crates/trains-net/src/snapshot.rs:232-237 | then each frame behind its own length, and nothing after the last |
| `StateTransfer.WriteResponse` | crates/trains-net/src/snapshot.rs:226-237 | the server's loop writes those bytes |
| `StateTransfer.FetchState` | crates/trains-net/src/snapshot.rs:151-161 | the client's loop computes that parse |
| `Types.SortIsSorted` | crates/trains-core/src/node.rs:688-692 | delivery order inside a train is ascending in (sender, seq) |
| `Types.SortedUnique` | crates/trains-core/src/node.rs:688-692 | and is determined by the payloads when ids are distinct |

## Left out

- TrainsNodeClass.TrainsNode.DoStep: clocks and sequence numbers are unbounded, so saturation at the top of u64 is not modelled.
- TrainsNodeClass.TrainsNode.RecordDelivered: a release build's behaviour; that the debug assertion holds is `Operations.RecordsAreFresh`.
- AfterInstall.OrderSurvivesViewChange: assumes, as the kernel does, that no train of the dead issuer above the boundary is still in flight; `OrderIff.OrderSurvivesIff` is the statement without that assumption. It covers one view change from the first view; a chain of them would need the ring invariant again for the shrunken ring.
- AfterInstall.ViewChangeInEveryRun: the same assumption.
- Round.ReportsStayExact: gives equal recorded keys at all survivors whatever trains arrive; equal logs need the trains to come from the ring and are `RoundLogs.EqualLogsAtInstall`.
- Joiner.JoinerConsistent: local to the joiner; a rejoiner may ack a key again, so global consistency after an import without a view change is not claimed.
- StateTransfer.RoundTrip: lengths are assumed to fit a 64-bit word, as a machine length does.
- `mark_crashed` and a bare `set_frozen(false)`: they do not drain, so they break the invariant of `NoKeyTwice`; runs use `confirm_crash` and `apply_recovery`.
- Two victims in one view round: rival coordinators can differ and the code does not resolve it.
- Re-admission at the level of cores: the node binary ignores re-admit tokens, so only the token protocol is modelled.
- `DeliveryMode::CausalOrder`, which never delivers; liveness and timing (in UniformTotalOrder nothing of a new view can ever be delivered, since the excluded process never acks it); `handle_tick`, which does nothing.
- TLS, QUIC, sockets, reconnection, tokio tasks and the request half of the state-transfer exchange.
- bincode and serde encodings, traces, the command line, benchmarks, Python and CDK code, and the TLA+, Ivy and Kani artefacts.
