# Cluster bare autoscaler: a verified model

The autoscaler powers bare-metal Kubernetes nodes off and on. This project models its reconcile loop and
the code that loop depends on, and proves what the loop guarantees against a cluster in which anybody
else may act between any two of its steps, in which calls fail or lose their replies, and in which the
autoscaler itself may die at any point and start again.

## How the model is built

**The cluster** (`Cluster.dfy`) is a value: nodes with labels, annotations, scheduling flag, readiness,
volumes in use and a version; pods; volume attachments; a clock. An annotation value is an RFC 3339 time
stamp of a whole second or any other text, the empty one included. `Outside` is everything other parties
may do: anything, except turn back the clock or change a node without giving it a new version.

**The API server** (`ApiServer.dfy`) is a class. Every call first lets the outside world act, may be
refused, and appends an entry to a ghost `History`: what was seen, the call, its reply, the state after.
A refused update, patch or eviction may have been applied all the same, only its reply being lost. An
update with a stale version is refused. A call under an expired context is refused, so a process that
dies in the middle of a loop is a loop whose context expires there, followed by a restart.

**The autoscaler** is imperative, as in the source: `NodeStateTracker` and `Reconciler` are classes,
drain, recovery, power-on, rotation, the gates and the scale-up strategies are methods with the source's
loops, branches, order of steps and constants. Retries on conflict make four attempts; polling goes on until
it is done, fails, or the deadline passes; shuffling yields any permutation and sorting any order of equal
times. What the gates and strategies decide on - nodes, pods, metrics, the load of each node - is read by
calls that are in the history; metrics and loads may be anything, and every call may fail.

**The discipline** (`Journal.dfy`). `Replay` folds a history into what has happened in the present loop.
`Allowed` says which step that permits next: which node may be patched with what, when a host may be asked
to shut down, which host may be powered on, when an operation may be recorded, under which deadline a call
may be made. `Informed` says what a step needs of nodes as they were read: the address at
which a host is woken, and that a node is schedulable. A verdict, a count of active
nodes, the node off the longest, a load, a node due for rotation are entries of the history that are
permitted only if they are what the readings of the same loop say. `Truthful` histories are those the
cluster can produce, `Justified` ones those in which every step was permitted. Every method is verified to
extend a truthful, justified history to one (`Orderly`), and to give a reason where it does nothing: a call
refused since it began, or what it read. `Reconciler.Run` - any number of loops, deaths and restarts, against
any cluster - therefore yields only such histories, and so does every part of a run. The theorems are lemmas
about all truthful, justified histories, so they speak about all runs. (`Lawful`, `Disciplined`, `Watch`,
`Undisturbed`, `Faults`, `Refusals`, `Encountered` are the same notions as `Truthful`, `Justified`, `Replay`,
`LeftAlone`, `FaultCount`, `RefusedNames`, `NodesMet`, kept from unfolding to keep the proofs cheap;
`Journal.Open` opens them.)

The theorems have definitions of their own for what they speak of - readings, paths of milestones, accepted
evictions, marks that stand, times of operations, ranks - read off the history and not off the fold. The
rules about single nodes, the loads that count and the capacity that is left are put together once more from
labels, annotations, requests and settings (`PlainTerms.dfy`, `Headroom.dfy`, `Findings.dfy`) and shown to be
the rules the loop applies; the theorems on why a host is shut down or powered on, and on what a drain may
evict, speak of these, and write time limits as numbers. Four lemmas connect methods to the history and
therefore take what the fold knows as a hypothesis: `DrainSoundness.DetachedIsDrained`,
`Evictions.SkippedOnlyIfAccepted`, `Rollback.PutBackRestores` and `ShutdownGrounds.PassedMeansChecked`. Where a
guarantee depends on other parties, the lemma says what it asks of them and from when on;
`MacUpdater.DiscoveryIsConsiderate` shows that the second writer in the same program, the address updater,
meets all of it.

## What is proved

- **Shutdown order** (`ShutdownOrder.dfy`): every shutdown request is the last of a fixed order of steps
  in the same loop, each true of the cluster when it was taken, with no other write to a node in between; the
  gates approved on figures that the cluster answered in that loop.
- **Shutdown grounds** (`ShutdownGrounds.dfy`): what that comes to in terms of labels, annotations, requests
  and loads, without mention of the gates: the node was available with enough others, there is room without
  it, and if loads matter it was idle and the others were not busy.
- **Power-on order** (`PowerOnOrder.dfy`): outside forced mode a host is powered on only because its node is
  off the longest and too few nodes are active or the cluster is busy, or because it is due for rotation and
  another node could be let go - all as read in the same loop, with no write to a node since; and it is woken
  only at the address its node carries.
- **Boot order** (`BootOrder.dfy`): a node is made schedulable, and its off mark removed, only in a rollback,
  after a power-on with its boot time stored, or in a recovery; in a rollback the mark goes first, elsewhere the
  node is made schedulable first.
- **Drain soundness** (`DrainSoundness.dfy`, `Evictions.dfy`): rely-guarantee proof that a drained node is
  drained although pods, volumes and attachments are read at different times; at most one accepted
  eviction per pod, and only of pods that may go.
- **Drain deadline** (`DrainDeadline.dfy`): no call of a drain outlives the drain's time, and none of a loop
  the loop's; nothing of a drain happens outside of one; no cordon without a look at the pods first.
- **Minimum** (`MinimumService.dfy`): no step takes the nodes in service below the minimum; when that fails
  through others, exactly when, with a run.
- **Rollback** (`Rollback.dfy`, `LostReply.dfy`): exactly when it restores its candidate.
- **Crashes** (`CrashSafety.dfy`, `Recovery.dfy`, `Limbo.dfy`): exactly when a process that dies leaves the
  node marked for the next one; what a recovery pass does for marked nodes; what becomes of the others.
- **Boot protection** across restarts, **rate limit**, **rotation without starvation**, **coherence of the
  off-cache** (`BootProtection.dfy`, `RateLimit.dfy`, `RotationFairness.dfy`, `CacheCoherence.dfy`).
- **No lost updates** among several writers (`FieldWrites.dfy`, `MacUpdater.dfy`).
- **The loop as a whole** (`Reconciler.dfy`): what each reconcile loop does between recovery and its end.
- **The numeric gates** (`Statistics.dfy`, `LoadGates.dfy`, `PlainTerms.dfy`, `Gauges.dfy`, `Resources.dfy`,
  `Headroom.dfy`): what a mean says about the total load and percentiles about numbers of nodes, their order
  laws, and capacity checks with 64-bit wrap-around made explicit.

## What the proofs brought to light

- A rollback restores its candidate exactly if it has undone the cordon and removed the mark, and no mark was
  stored while the reply got lost (`Rollback.RollbackRestores`). In that last case the node ends up
  schedulable and marked off, the scale-down reports failure without an alarm, and recovery passes the node
  over because it is not cordoned (`LostReply.LoseTheReply`).
- After a refused shutdown the mark is removed first and the node uncordoned second. A process that dies in
  between leaves the node cordoned and unmarked (`Limbo.DieBeforeUncordon`). Until somebody else edits the
  node, or power-on is forced, no later loop or process writes to it, powers it on or shuts it down again
  (`Limbo.LimboIsForGood`). A process that dies before it stores either of the two leaves the node cordoned
  and marked, and then only (`CrashSafety.CrashLeavesNodeMarked`).
- The minimum can be undercut if somebody cordons another node between the listing and the cordon
  (`MinimumService.OthersCanSpoilTheMinimum`); a step fails to keep it exactly when it takes a node out of
  service while no more than the minimum are in it (`MinimumService.MinimumKeptExactly`).
- The early end of the rotation search loses candidates (`LoadGates.EarlyEndMissesACandidate`).
- The resource gate multiplies the remaining capacity by the buffer's percentage first. It is right about all
  sound figures for the remaining nodes exactly if that product stays below 2^63 (`Resources.GuardIsExact`);
  with 10^17 bytes and a full buffer it approves a demand that leaves no room (`Resources.OverflowApproves`).
- With a negative minimum, which the configuration admits, scale-down takes the last of no eligible nodes and
  panics, exactly if no node is eligible (`Reconciler.Reconciler.PickScaleDownCandidate`).
- A node held to be off is marked off whenever scale-up is decided, provided that nobody else edits nodes, no
  reply to an applied patch is lost and no node changes readiness before a sweep still to come
  (`CacheCoherence.OffImpliesMarked`); less is proved under less (`CacheCoherence.OffImpliesMarkedOrDown`).
- The comment on `ListManagedNodes` promises to skip nodes that match an ignore label, but the code skips
  every node that carries the key, whatever its value. The model follows the code, and
  `Settings.ManagedIsNeverIgnored` shows that the later checks of values then never fire.

## Reading notes

- Loads, percentiles and averages are real numbers; rounding of 64-bit floats is not modelled.
- Boot times are kept in whole seconds, rounded down, so the boot cooldown counts from up to one second
  before the boot.
- A refused shutdown request counts as not accepted, as in the code; that the host then really stays up is
  an assumption about the host.
- Times are in nanoseconds; differences saturate at 64 bits, as in Go.
- Contexts end by their deadlines only; a cancellation for another reason is the same as a deadline that passes.
- The start and the end of a drain, findings and verdicts are entries of the history that are no calls; the
  rules make every call of a drain lie between its start and its end.
- "The outside leaves n alone" always means the scheduling flag, the off mark and the boot time of n.

## Model

| member | source | states |
|---|---|---|
| ShutdownOrder.ShutdownWasEarned | pkg/controller/reconciler.go:327-379 | every shutdown request for n follows, in its loop and in this order, n being one of more than minNodes eligible nodes of the last listing, picked, approved by each gate of the chain on nodes, pods, metrics and loads that the cluster answered since the pick, cordoned, polled with nothing to move, free of volumes in use, free of attachments, and marked off with the time of that moment; no other node write lies in between |
| ShutdownGrounds.ShutdownHadGrounds | pkg/controller/reconciler.go:67-119 | in plain terms: every shutdown request for n follows, in its loop, a listing in which n is one of more than minNodes nodes with the managed label and without disabled or ignored labels, schedulable, unmarked and out of all cooldowns; then, since the pick of n, answers for all nodes, all pods and metrics that cover every node and, if sound and under the guard, leave room without n for all container requests and all usage; and with the load strategy on, since the pick, an answer of n below nodeThreshold and answers of all listed, unmarked, unexcluded others whose aggregate is below scaleDownThreshold, unless overridden |
| ShutdownGrounds.PassedMeansChecked | pkg/strategy/scale_down.go:27-41 | the last two of these hold as soon as the chain is passed |
| ShutdownOrder.EveryStageEarned | pkg/controller/drain.go:83-156 | the invariant behind it: at each stage of the protocol the history has reached the steps the stage stands for |
| PowerOnOrder.PowerOnWasWanted | pkg/strategy/scale_up.go:17-28 | every power-on of n follows in its loop, with no node write since, a listing in which n is managed and off the longest, and one with fewer serving nodes than the minimum or answered loads whose aggregate is at or above the threshold; or n being, of the managed nodes listed, the one due and not exempt that was marked first, and more than the minimum of available nodes counting n, with the loads answered allowing one of them to go; or, with power-on forced, a listing with n managed and not up; and never happens in a dry run; all in terms of labels, annotations, memory and loads |
| PowerOnOrder.WokenWhereItSays | pkg/nodeops/mac.go:10-16 | every power-on of n at an address follows a reading of n in its loop, alone or in a listing, in which n carries this address, not empty, under the configured annotation, or under cba.dev/mac-address if none is configured |
| BootOrder.UncordonHasReason | pkg/nodeops/util.go:68-80 | an uncordon of n is stored only in the rollback of its shutdown, with no acknowledged mark left on n unless an alarm was raised; or after its host was powered on and a boot time stored for it since; or in a recovery whose listing shows n managed, up, cordoned and marked off for two minutes |
| BootOrder.MarkRemovalHasReason | pkg/nodeops/util.go:82-85 | the off mark of n is removed only in such a rollback; or after its host was powered on and n was uncordoned or read to be schedulable; or in such a recovery once n was uncordoned, by the patch that stores its boot time |
| DrainSoundness.ShutdownHitsADrainedNode | pkg/controller/drain.go:96-156 | if others keep n cordoned and, once nothing is left to drain, add no pod, volume or attachment, then at the moment of the request n is cordoned with only static and daemon set pods, no volume in use and no attachment |
| DrainSoundness.DetachedIsDrained | pkg/controller/drain.go:135-155 | the same for the end of a successful drain |
| Drain.CordonAndDrain | pkg/controller/drain.go:60-157 | success in a real run means all three completion tests passed in order after the cordon, and the node is drained under the rely; in a dry run that no listed pod blocks; failure only for a final refusal, a blocking pod, or because the deadline of the loop has passed or drainTimeout (15 minutes if it is not positive) is over; and whatever happens the drain ends, with every call made within its time |
| DrainDeadline.DrainCallsInTime | pkg/controller/drain.go:61-66 | from the start of a drain to its end every call is made under a deadline no later than its start plus drainTimeout, or plus 15 minutes if that is not positive, and is not answered after that: no pod listed or evicted, no volume checked, no drain completed |
| DrainDeadline.OnlyInDrain | pkg/controller/drain.go:67-96 | pods of a node are listed, pods evicted, attachments listed and nodes cordoned only in a drain of that node under way; a drain is over when it ends, and as soon as an eviction is refused other than with 429, Conflict or NotFound |
| DrainDeadline.ShutdownFollowsDrainInTime | pkg/controller/drain.go:145-156 | every shutdown request for n follows a listing, made since the pick in the drain of n and within its time, that shows no volume attached to n |
| DrainDeadline.CordonFollowsScreening | pkg/controller/drain.go:70-83 | a cordon of n is stored only after the drain of n listed its pods and none was unfinished and either forbids eviction or, not being static or of a daemon set, has no controller, belongs to a job or holds an extended resource |
| DrainDeadline.DrainPausesAreShort | pkg/controller/drain.go:96 | a drain never pauses for more than two seconds |
| DrainDeadline.CallsWithinLoop | pkg/controller/reconciler.go:154-212 | a loop whose context has a deadline makes every call under that or an earlier one, and gets no answer after it |
| Drain.CordonAndWait | pkg/controller/drain.go:83-157 | cordons first, then waits; on failure the stage reached is still one that the rollback undoes |
| Drain.WaitForDrain | pkg/controller/drain.go:95-157 | polls until done, aborted or past the deadline, and terminates |
| Drain.PollDrain | pkg/controller/drain.go:96-156 | an unaborted poll leaves every movable pod of the listing evicted, attempted or terminating; it aborts only on a final refusal or a blocking pod, never on 429, Conflict or NotFound |
| Drain.EvictPods | pkg/controller/drain.go:101-137 | finished exactly if nothing listed has to move; only accepted evictions are remembered as accepted |
| Drain.EvictPod | pkg/controller/drain.go:118-132 | the eviction names the listed pod with its UID; a refusal leaves the accepted set as it was |
| Drain.CheckVolumes | pkg/controller/drain.go:138-144 | finished exactly if the node just read reports no volume in use |
| Drain.CheckAttachments | pkg/controller/drain.go:145-153 | finished exactly if no listed attachment is on the node |
| Drain.CheckBlockers | pkg/controller/drain.go:70-78 | passes exactly if no listed pod blocks |
| Evictions.EvictionDiscipline | pkg/controller/drain.go:101-132 | every eviction is of a pod the last listing shows on the node cordoned last, by name and UID, not one that has to stay, not static, of a daemon set or terminating; and the eviction of that pod was not accepted before in this drain |
| Evictions.SkippedOnlyIfAccepted | pkg/controller/drain.go:114-117 | with names free of slashes, a drain passes over a pod as already evicted exactly if the eviction of that very pod was accepted |
| Evictions.EvictionKeyInjective | pkg/controller/drain.go:114 | the slash-joined key determines namespace, name and UID |
| MinimumService.ServiceNeverDropsBelowMinimum | pkg/controller/reconciler.go:349-399 | if others take no node out of service, every step of every loop leaves at least min(before, minNodes) managed, schedulable, unmarked nodes |
| MinimumService.MinimumKeptExactly | pkg/controller/reconciler.go:394-399 | whatever others do, a step fails to keep the minimum exactly when it takes a node out of service while at most the minimum are in it |
| MinimumService.OthersCanSpoilTheMinimum | pkg/controller/drain.go:83-91 | a run in which it fails: another party cordons the second node after the listing |
| Rollback.RollbackRestores | pkg/controller/reconciler.go:349-370 | for every point of failure: during a rollback the candidate's scheduling flag, off mark and boot time equal those at the moment of the pick if and only if the last stored flag is no cordon, no acknowledged mark is left, and no mark was stored whose reply got lost |
| Rollback.PutBackRestores | pkg/controller/drain.go:19-23 | once the rollback ends without an alarm, that leaves only the lost reply |
| LostReply.LoseTheReply | pkg/controller/reconciler.go:355-359 | a complete run in which the reply is lost: the node ends schedulable and marked off, without an alarm, and never qualifies for recovery |
| Reconciler.Reconciler.MaybeScaleDown | pkg/controller/reconciler.go:327-380 | true means the candidate came from more than minNodes eligible nodes and the host accepted, with one new operation, shutdown time and off entry in memory; false leaves the memory as it was, and then a gate denied, or a shutdown begun was given up for a refused call, a blocking pod or the timeout, with the candidate put back or an alarm raised |
| Reconciler.Reconciler.ShutDownCandidate | pkg/controller/reconciler.go:349-370 | drain, mark, request; each failure, and nothing else, rolls back under the context of the loop |
| Reconciler.Reconciler.RollBack | pkg/controller/reconciler.go:363-369 | removes a known mark first and uncordons second; with no alarm the node is schedulable and the mark is gone if it was retracted; the boot time is untouched; an alarm means a refused call |
| Reconciler.Reconciler.RestoreScheduling | pkg/controller/drain.go:19-23 | uncordons, or raises an alarm because a call was refused |
| Reconciler.Reconciler.AnnotatePoweredOffNode | pkg/controller/reconciler.go:382-392 | sends one patch with the present second as off mark; tells a lost reply from a mark that was not stored |
| Reconciler.Reconciler.RequestShutdown | pkg/controller/reconciler.go:361-371 | asks under the shorter of the loop's deadline and 30 seconds |
| Reconciler.Reconciler.RememberShutdown | pkg/controller/reconciler.go:375-377 | one operation, shutdown time and off entry, all from the interval of the call |
| Reconciler.Reconciler.PickScaleDownCandidate | pkg/controller/reconciler.go:394-399 | a candidate exactly if more than minNodes are eligible, and then the last; out of range exactly if no node is eligible and minNodes is negative |
| Reconciler.Reconciler.FilterEligibleNodes | pkg/controller/reconciler.go:244-252 | exactly the eligible managed nodes of the listing at the present time, each once |
| Reconciler.Reconciler.Vet | pkg/strategy/scale_down.go:27-41 | true only if every gate of the configured chain approved in turn, and then there is room without the node and, with the load strategy on, it is idle and the others are not busy, as answered since the pick; otherwise the last entry is a denial or a refused call |
| Reconciler.Reconciler.AskGate | pkg/strategy/scale_down.go:28-38 | a gate passes exactly if the figures read for it justify that; it fails on a refused call |
| Reconciler.Reconciler.MaybeScaleUp | pkg/controller/reconciler.go:291-325 | powers on the node the strategies ask for, off the longest with more nodes needed, forgets its off entry and remembers one operation and its boot; otherwise nothing changes in memory, and the strategies decline, a call was refused, or the node asked for has no address |
| Reconciler.Reconciler.PowerOnAndForget | pkg/controller/reconciler.go:314-321 | success clears the off entry and leaves the node schedulable, unmarked and freshly stamped |
| Reconciler.Reconciler.MaybeRotate | pkg/controller/reconciler.go:409-539 | rotates at most one node, the due one marked first, with one operation; otherwise rotation is off, a call was refused, the listing shows none due, not more than minNodes would be eligible, no eligible node passes the search, or the due node has no address |
| Reconciler.Reconciler.DiscoverOverdue | pkg/controller/reconciler.go:419-490 | returns, as of the time read, the due node of the listing that was marked first, and none only if the listing fails or shows none due |
| Reconciler.Reconciler.HasSpareCapacity | pkg/controller/reconciler.go:492-515 | passes only if eligible + 1 exceeds minNodes and the search finds a node to let go; fails only if it does not, or on a refused call |
| Reconciler.Reconciler.Reconcile | pkg/controller/reconciler.go:154-212 | what a loop did by where it ended: recovery pass, sweep, forced power-on, or outside the global cooldown scale-up, scale-down and rotation, each only after the one before declined for its reasons; at most one operation; an error only where a listing fails, a panic only for a negative minimum |
| Reconciler.Reconciler.Sweep | pkg/controller/reconciler.go:162-173 | removes from memory exactly the off entries of managed nodes listed up without a mark |
| Reconciler.Reconciler.ForcePowerOnAllNodes | pkg/nodeops/util.go:93-131 | exactly the nodes listed in this loop that are not up are tried; those powered on are back in service with a fresh boot time; for every other a call on it was refused or it has no address; the off entries stay |
| Reconciler.Reconciler.RestorePoweredOffState | pkg/controller/reconciler.go:214-242 | a new process holds exactly those managed nodes of its second listing to be off that the first one lacks, and none if a listing fails |
| Reconciler.Reconciler.constructor | pkg/controller/reconciler.go:40-60 | a new process knows no cooldown, and holds only such nodes to be off |
| Reconciler.Run | main.go:123-130 | every run, with any number of loops, deaths, panics and restarts, and every part of it is truthful and justified |
| Journal.EveryPartToo | main.go:125-130 | a truthful, justified history is so at every earlier point |
| CrashSafety.CrashLeavesNodeMarked | pkg/controller/reconciler.go:355-377 | a process that dies after it stored the mark of n, at any point of its loop, leaves n cordoned and marked with the time of the shutdown if and only if it had stored neither an uncordon of n nor the removal of the mark since |
| CrashSafety.AfterACrash | pkg/nodeops/nodes.go:213-231 | the next process recovers such a node if and only if it is up and the mark is two minutes old; it counts as off, heads for scale-up by its mark alone, and is neither active nor eligible |
| Limbo.DieBeforeUncordon | pkg/controller/reconciler.go:363-368 | a complete run in which the process dies between the removal of the mark and the uncordon: the node is cordoned and unmarked, the memory of the next process is empty, and the node never qualifies for recovery |
| Limbo.LimboIsForGood | pkg/nodeops/nodes.go:213-227 | such a node, left alone and with power-on not forced, is never again written to, powered on or shut down, by this process or a later one |
| Recovery.RecoverUnexpectedlyBootedNodes | pkg/nodeops/nodes.go:203-272 | every managed node that its listing shows in need is recovered, or given up on because a call on it was refused; a recovered one is schedulable, unmarked, with a boot time from this pass; no other node is touched |
| Recovery.MarkedNodeComesBack | pkg/nodeops/nodes.go:229-266 | so a node listed up, cordoned, and marked two minutes before the pass, on which no call was refused, is back in service at its end |
| Recovery.ConsiderNode | pkg/nodeops/nodes.go:213-268 | skips exactly the nodes not in need, and gives up only on a refused call |
| Recovery.RecoverNode | pkg/nodeops/nodes.go:239-266 | the patch that swaps the mark for a boot time is sent only once the uncordon is stored; failure means a refused call on the node |
| Settings.NeedPersists | pkg/nodeops/nodes.go:229-231 | need for recovery does not lapse as time passes |
| BootProtection.BootTimeSurvives | pkg/nodeops/util.go:72-75 | no write of the autoscaler removes a stored boot time or turns it back, through any loops and restarts |
| BootProtection.NotEligibleWhileProtected | pkg/nodeops/node_wrapper.go:51-56 | no set of eligible nodes computed from the last listing before the boot time plus the boot cooldown contains the node, restarts or not |
| BootProtection.NoShutdownWhileProtected | pkg/nodeops/nodes.go:177-180 | nor is its host asked to shut down before then |
| RateLimit.OperationsAreSpaced | pkg/nodeops/state.go:90-97 | the i-th and j-th recorded operation of a process are at least (j - i) cooldowns apart |
| RateLimit.OneOperationPerLoop | pkg/controller/reconciler.go:185-209 | at most one operation is recorded per loop |
| RateLimit.NewProcessIsFree | pkg/nodeops/state.go:50-56 | with nothing remembered no cooldown that fits 64 bits is active, since differences of times saturate |
| RotationFairness.RankFalls | pkg/controller/reconciler.go:444-533 | from the start of a loop in which x is overdue: while x waits, the number of rotatable nodes marked no later, plus the rotations since, does not grow |
| RotationFairness.RotationDoesNotStarve | pkg/controller/reconciler.go:444-533 | so x is powered on within as many rotations as its rank was |
| RotationFairness.OverdueIsOld | pkg/controller/reconciler.go:469 | with a limit of a second or more the rank argument needs no further condition |
| CacheCoherence.OffImpliesMarked | pkg/controller/reconciler.go:162-173 | whenever scale-up is decided, every managed node held to be off is marked off |
| CacheCoherence.RestartKeepsScaleUpList | pkg/nodeops/nodes.go:90-99 | so emptying the memory there leaves the possible scale-up lists the same |
| CacheCoherence.OffImpliesMarkedOrDown | pkg/controller/reconciler.go:162-173 | with edits and lost replies before the last listing allowed, it is marked off or not up |
| FieldWrites.NoLostUpdates | pkg/nodeops/util.go:19-50 | an entry of the autoscaler changes at most the scheduling flag of the node it updates or the annotations it names; a stale whole-node update is never stored |
| FieldWrites.OwnKeysOnly | pkg/controller/reconciler.go:389 | the annotations it names are the off mark and the boot time |
| FieldWrites.OthersValuesSurvive | pkg/controller/drain.go:83-91 | what others write under other keys stays through any loops and restarts |
| FieldWrites.DryRunOnlyLooks | pkg/controller/reconciler.go:346-348 | in a dry run nothing is written, evicted, powered on or shut down |
| MacUpdater.RunOnce | pkg/nodeops/mac_updater.go:42-92 | sends every managed node that is listed without an address, and whose agent answers, the address answered, and sends nothing else; nothing in a dry run or if the listing is refused |
| MacUpdater.SetDiscoveredMac | pkg/nodeops/node_wrapper.go:33-45 | sends exactly one merge patch of the address annotation, and none in a dry run |
| MacUpdater.DiscoveryIsConsiderate | pkg/nodeops/node_wrapper.go:39-40 | such a write breaks none of the assumptions about other parties |
| MacUpdater.AddressesSurvive | pkg/nodeops/mac_updater.go:57-91 | the reconciler never undoes it |
| Scheduling.WriteFlag | pkg/controller/drain.go:88-90 | a stored update changes only the flag of the node that was read, whatever happened in between |
| Scheduling.SetScheduling | pkg/controller/drain.go:83-91 | on success the node has the flag; on failure the last call on it was refused, and if that was a conflict it was the fourth in a row |
| Power.UncordonNode | pkg/nodeops/util.go:19-40 | on success the node is schedulable, and nothing else of its face changed |
| Power.ClearPoweredOffAnnotation | pkg/nodeops/util.go:43-50 | removes the mark and nothing else |
| Power.WriteBootTime | pkg/nodeops/util.go:72-75 | the stamp is a second of the interval of the call |
| Power.BootNode | pkg/nodeops/util.go:68-85 | on success the node is schedulable, unmarked and freshly stamped, in the order boot time, uncordon, mark; otherwise a call on it was refused |
| Power.PowerOnAndMarkBooted | pkg/nodeops/util.go:53-91 | remembers an operation and a boot exactly on success; wakes the host only at the address the node carries under the configured annotation; fails only if it carries none or a call is refused; does nothing in a dry run |
| Power.MarkGlobalShutdown | pkg/nodeops/state.go:90-92 | records an operation at the present time |
| Tracker.NodeStateTracker.constructor | pkg/nodeops/state.go:50-56 | empty memory |
| Tracker.NodeStateTracker.MarkShutdown | pkg/nodeops/state.go:59-61 | sets one shutdown time |
| Tracker.NodeStateTracker.IsInCooldown | pkg/nodeops/state.go:64-70 | agrees with the eligibility rule |
| Tracker.NodeStateTracker.MarkPoweredOff | pkg/nodeops/state.go:73-75 | adds one off entry |
| Tracker.NodeStateTracker.ClearPoweredOff | pkg/nodeops/state.go:78-80 | removes one off entry |
| Tracker.NodeStateTracker.IsGlobalCooldownActive | pkg/nodeops/state.go:95-97 | agrees with the rate limit |
| Tracker.NodeStateTracker.MarkBooted | pkg/nodeops/state.go:100-102 | sets one boot time |
| Tracker.NodeStateTracker.IsBootCooldownActive | pkg/nodeops/state.go:105-111 | agrees with the boot cooldown rule |
| NodeLists.ListManagedNodes | pkg/nodeops/nodes.go:44-74 | exactly the managed nodes of one consistent listing |
| NodeLists.SelectManaged | pkg/nodeops/nodes.go:50-73 | each managed node of the listing once |
| NodeLists.ListActive | pkg/nodeops/nodes.go:118-143 | exactly the managed, schedulable, unmarked, ready nodes |
| NodeLists.FilterShutdownEligibleNodes | pkg/nodeops/nodes.go:156-189 | exactly the eligible nodes, in any order |
| NodeLists.BootCooldownActive | pkg/nodeops/node_wrapper.go:51-56 | the stored boot time counts first, then the remembered one |
| NodeLists.NamesOldestFirst | pkg/nodeops/nodes.go:84-110 | a permutation of the off nodes sorted by time, equal times in any order |
| Settings.ManagedIsNeverIgnored | pkg/nodeops/nodes.go:61-69 | label rules that look at values never fire on a listed managed node |
| ScaleUp.HeadIsLongestOff | pkg/nodeops/nodes.go:101-110 | the head of the list has been off the longest |
| ScaleUp.ShutdownNodeNames | pkg/controller/reconciler.go:277-289 | headed by the node off the longest on the listing; empty only if the listing fails or none is off |
| ScaleUp.MinNodeCountScaleUp | pkg/strategy/min_node_count.go:22-51 | asks for the longest off node only if fewer nodes were counted active than the minimum, and declines only if enough were, none is off, or a listing fails |
| ScaleUp.LoadAverageScaleUp | pkg/strategy/load_average_up.go:29-60 | asks for the longest off node only if the measured load is at or above the threshold, and declines only if it is below or cannot be had, or none is off |
| ScaleUp.ShouldScaleUp | pkg/strategy/scale_up.go:17-28 | whatever strategy decides, the node is the longest off, and too few nodes are active or the load is high; it declines only on a refused call, without off nodes, or when every strategy in the chain sees no need |
| Rotation.FindOverdue | pkg/controller/reconciler.go:435-477 | overdue exactly if the greatest off age reaches the limit; the node found then has that age and no rotatable node was marked earlier |
| Rotation.RotationAgreesWithScaleUp | pkg/controller/reconciler.go:444-477 | without exempt or merely remembered nodes its mark is as old as that of the head of the scale-up list |
| Rotation.ListsExactlyTheOff | pkg/nodeops/nodes.go:78-110 | the list names exactly the managed nodes that count as off, each once |
| Rotation.ActiveIsNotOff | pkg/nodeops/nodes.go:118-142 | no node is both listed off and active |
| Statistics.PercentileCounts | pkg/strategy/load_average_utils.go:190-204 | a percentile below T means at least floor(p(n-1)) + 1 loads below T; one load more suffices for the converse |
| Statistics.PercentileCountsAbove | pkg/strategy/load_average_utils.go:190-204 | a percentile at or above T means at least max(1, n-1-floor(p(n-1))) loads at or above T |
| Statistics.PercentileAtRank | pkg/strategy/load_average_utils.go:196-203 | at a whole rank the percentile is a load, with no more than that rank of loads below it and more below anything larger |
| Statistics.PercentileInterpolates | pkg/strategy/load_average_utils.go:196-203 | between two ranks it is the weighted mean of the loads at them |
| Statistics.PercentileAscending | pkg/strategy/load_average_utils.go:178-188 | the percentile grows with p across interpolation breakpoints |
| Statistics.PercentileMonotone | pkg/strategy/load_average_utils.go:190-204 | raising loads one by one never lowers a percentile |
| Statistics.SortMonotone | pkg/strategy/load_average_utils.go:194-195 | sorting keeps pointwise dominance |
| Statistics.PercentileBetween | pkg/strategy/load_average_utils.go:190-204 | the percentile lies between the bounds of the loads |
| Statistics.AggregateIgnoresOrder | pkg/strategy/load_average_utils.go:146-151 | the order of the loads does not matter in any mode |
| Statistics.AggregateMonotone | pkg/strategy/load_average_utils.go:146-151 | higher loads never lower the aggregate in any mode |
| Statistics.AggregateBetween | pkg/strategy/load_average_utils.go:146-204 | the aggregate lies between the bounds of the loads |
| Statistics.Average | pkg/strategy/load_average_utils.go:167-176 | the loop computes the mean, 0 for no loads |
| Statistics.EvaluateAggregate | pkg/strategy/load_average_utils.go:146-188 | each mode computes its aggregate, the mean by the loop |
| Statistics.AverageBelow | pkg/strategy/load_average_utils.go:167-176 | the mean is below a threshold exactly if the total is below the threshold times the number of loads |
| Gauges.FetchClusterLoads | pkg/strategy/load_average_utils.go:74-90 | the loads answered in order, or nothing as soon as one call is refused; loads of other nodes are not asked for |
| Gauges.GetEligibleClusterLoads | pkg/strategy/load_average_utils.go:54-72 | the loads of the listed unmarked nodes that are neither excluded nor the candidate |
| Gauges.GetClusterAggregateLoad | pkg/strategy/load_average_utils.go:206-229 | the override, or the aggregate of those loads if there are any, computed by the accumulation loop for the mean and by sorting for percentiles |
| Gauges.LoadWithoutCandidate | pkg/strategy/load_average_down.go:70-80 | the rules the gate builds itself lead to the load rotation would see |
| Gauges.ShouldScaleDown | pkg/strategy/load_average_down.go:32-60 | on the loads answered, approves exactly an idle node without which the cluster stays below the threshold; a refused call never leads to an approval |
| Gauges.ResourceGate | pkg/strategy/resource_aware.go:23-83 | on the nodes, pods and metrics just read, the verdict of the capacity check, whose meaning for those nodes, pods and metrics Headroom.ApprovalMeansRoom gives; a refused call never leads to an approval |
| Headroom.ApprovalMeansRoom | pkg/strategy/resource_aware.go:44-82 | for the nodes, pods and metrics as read, with bufferCpuPercent for CPU and bufferMemoryPercent for memory: if metrics cover every node and the container requests of all pods as well as the usage of all nodes fit on what the other nodes can allocate beside the buffer, the gate approves; it approves only then if what is left times the percentage stays within 64 bits |
| Headroom.MoreDemandDenies | pkg/strategy/resource_aware.go:51-58 | under that guard, listing further pods in any order, or larger buffers, only turn approvals into denials |
| Gauges.PickRotationPoweroffCandidate | pkg/controller/reconciler.go:548-636 | a pick passes the scale-down gate on the loads read for it and every candidate before it was passed over; without a pick and without a refused call, all were looked at up to the first that ends the search |
| LoadGates.BuildAggregateExclusions | pkg/controller/reconciler.go:640-647 | configured rules win over the disabled label |
| LoadGates.EarlyEndMissesACandidate | pkg/controller/reconciler.go:623-628 | two nodes of which the search finds none although one passes on the same loads |
| LoadGates.ApprovalCountsIdleNodes | pkg/strategy/load_average_down.go:54-57 | under a percentile and without overrides, approval means an idle node and more other loads below the threshold than the rank of the percentile, floor(p(n-1)); an idle node with one more below, or all, is approved |
| LoadGates.ApprovalUnderAverage | pkg/strategy/load_average_down.go:36-57 | under the mean and without overrides, approval holds if and only if the node is idle, at least one load counts, and the sum of the loads that count is below scaleDownThreshold times their number |
| LoadGates.BusyUnderAverage | pkg/strategy/load_average_up.go:36-57 | under the mean, scale-up finds the cluster busy if and only if at least one load counts and their sum is at least scaleUpThreshold times their number |
| LoadGates.BusyCountsLoads | pkg/strategy/load_average_up.go:36-57 | under a percentile, the same two-sided statement about how many loads are below scaleUpThreshold |
| LoadGates.AggregateInterpolates | pkg/strategy/load_average_utils.go:178-204 | median, P75 and P90 of two or more loads lie between the loads at ranks floor(p(n-1)) and the next, weighted by the fraction |
| PlainTerms.ApprovalPlainly | pkg/strategy/load_average_down.go:32-80 | the load gate approves if and only if the node's load or its override is below nodeThreshold, and the override for the cluster, or the aggregate of the answered loads of exactly the listed nodes that are not marked off, not the node itself, not disabled and not excluded by a rule, is below scaleDownThreshold |
| PlainTerms.HighPlainly | pkg/strategy/load_average_up.go:36-57 | scale-up finds the cluster busy if and only if the override, or the aggregate of those loads, is at least scaleUpThreshold |
| Resources.SumRequests | pkg/strategy/resource_aware.go:89-103 | the sum of all container requests, wrapped at 64 bits |
| Resources.AnalyzeNodes | pkg/strategy/resource_aware.go:105-152 | the shares of the candidate and of the rest |
| Resources.CapacitySplit | pkg/strategy/resource_aware.go:113-137 | with unique names the two shares of the capacity add up to the whole |
| Resources.UsageSplit | pkg/strategy/resource_aware.go:121-149 | and those of the usage |
| Resources.QuotientTruncates | pkg/strategy/resource_aware.go:54-55 | division of the margin truncates toward zero, as Go does for negative products |
| Resources.ShouldScaleDown | pkg/strategy/resource_aware.go:23-83 | the gate's verdict, missing metrics included |
| Resources.ApprovalMeaning | pkg/strategy/resource_aware.go:51-58 | when requests and usage fit on the remaining nodes with the buffers free the gate approves; it approves only then if the product of remaining capacity and percentage fits 64 bits |
| Resources.GuardIsExact | pkg/strategy/resource_aware.go:51-58 | given the nodes and buffers, the verdict is right for all pods and metrics in range if and only if that product fits 64 bits |
| Resources.MarginExact | pkg/strategy/resource_aware.go:51-54 | the same for a single capacity and all demands |
| Resources.Exchange | pkg/strategy/resource_aware.go:44-58 | under that guard, approving a node implies approving any with no more capacity |
| Resources.StricterDemandsDeny | pkg/strategy/resource_aware.go:51-58 | under that guard for the larger buffer, more pods or larger buffers only turn approvals into denials |
| Resources.OverflowApproves | pkg/strategy/resource_aware.go:54-58 | outside the guard a wrapped margin approves what does not fit |
| WakeOnLan.PowerOn | pkg/power/wake_on_lan.go:27-65 | success means the node was just seen up after a request; failure that it was never seen up and that there is no agent, the context has expired, or all maxRetries requests were sent and each was waited for bootTimeout; at most maxRetries requests and maxRetries times ceil(bootTimeout / 5 s) readiness checks; it pauses only right after a check, for five seconds at most |
| WakeOnLan.AwaitReady | pkg/power/wake_on_lan.go:45-59 | one attempt looks at the node at most ceil(bootTimeout / 5 s) times, and ends only when the node is up, bootTimeout is over or the context has expired |

## Left out

- HTTP, wake-on-LAN packets, the agents and daemon sets, kube client set-up, configuration loading, metrics, logging, tracing and packaging: input and output only.
- Gauges.FetchLoad: finding the agent's pod and asking it is one call that answers any load or fails; nothing is said of what makes it fail.
- Reconciler.Reconciler.MaybeScaleUp: power-on is one call here; the wake-on-LAN loop is modelled on its own in WakeOnLan.
- Reconciler.Reconciler.ForcePowerOnAllNodes: forced power-on is exempt from the rate limit and from cache coherence, as in the source, where it keeps off entries.
- Limbo.LimboIsForGood: does not cover forced power-on, which boots such a node if it is down and then uncordons it.
- CacheCoherence.OffImpliesMarked: assumes, beyond no outside edits, that no reply to an applied patch is lost and that readiness does not change before a sweep that is still to come; without these the weaker OffImpliesMarkedOrDown holds.
- RotationFairness.RotationDoesNotStarve: counts rotations, and says nothing of how long it takes until one is possible.
- MinimumService.ServiceNeverDropsBelowMinimum: counts nodes in service whether or not they are up, as the eligibility test does.
- Drain.WaitForDrain: the pause between two polls is any time up to two seconds, since the poller may catch up; that it is two seconds otherwise is not stated.
- Statistics.PercentileCounts: over the reals; 64-bit floating point rounding is not modelled.
- Parsing and printing of RFC 3339 time stamps (section 5.6 of RFC 3339): an annotation is a whole-second stamp, other text, or absent.
- Data races inside one process: the address updater is modelled as another party that acts between the reconciler's calls, not inside them; the tracker's mutex protects nothing in the source that matters here.
