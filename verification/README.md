# Verified model of the cluster lifecycle manager

The cluster lifecycle manager keeps Kubernetes clusters in the state that a registry and a
channel of configuration describe. This project models the parts of it in which state
changes step by step while others act at the same time, and proves what they promise.
`dafny verify dfyconfig.toml` checks all of it.

**The rolling update of a node pool** (`NodePools`, `NodeSelection`, `Clouds`,
`RollingUpdates`, `UpdateLoops`). A pool is a set of outdated and new nodes and a desired
size. The cloud is an object that may move on its own before every call, and whose calls
may fail after having taken effect unless it is declared reliable; every step is recorded in
a ghost trace, also the moments at which nodes are chosen and at which a drain has succeeded.
What the code nowhere writes down is the ledger `desired - min(#outdated, surge)`: no
termination changes it, whether it decrements the desired size or not, so it moves by
scaling requests alone (`LedgerConserved`). The final size, the number of nodes that serve at
every moment, including after restarts, the safety of new nodes and the bound on the number
of passes all follow, and are stated together in the contract of `UpdateLoops.Update`, as
predicates over the trace: up to the mark there is nothing but scaling out, there the pool
is scaled out, and from there on the target is served.

**The work queue** (`WorkQueues`, `ClusterLists`). Each critical section of `ClusterList` is
one atomic step, and the theorems quantify over every interleaving of a refresher and any
number of workers. `ClusterList` is also there as a class that updates its entries in place;
its methods are proved to do those steps.

**One attempt of a worker** (`ClusterVersions`, `Controllers`): version strings and the
hashed metadata, the lifecycle status, and the bounded problem log, which is proved to be a
window of the full history.

**Nodes in the API server** (`NodeLabels`, `ClcUpdates`, `Drains`): conditional writes with
retry against any other writers, the update strategy that marks nodes and takes the marks
back, and draining with forced deletions whose limits survive restarts through annotations.
The server and the pool behind it keep a ghost history of their states, so that what a call
has seen is a state that there was; the pods on a node come and go by themselves.

**Smaller cores**: the version cache (`CachingSources`), dividing networks (`Subnetworks`),
choosing subnets (`Subnets`), checking out a tree (`Checkouts`) and distributing capacity over
scaling groups (`AsgScaling`). `Strings` holds the order of strings and how they are split,
`Division` what quotients are, `Options` values that may be missing.

Five things turned out differently from what one would expect of the code:

- A cluster that drops out of the registry's list and comes back has lost its history and
  overtakes every equally urgent cluster that was processed before. Bounded overtaking
  holds as long as the overtaking cluster stays listed (`BoundedOvertaking`); without that
  condition it fails (`OvertakenTwice`), and for every such return of a cluster
  (`ForgottenClusterOvertakes`).
- `Scale` (`pkg/updatestrategy/aws_asg.go:168-173` and `183-188`) assigns to copies of the
  scaling groups, also if there is only one. As written, it reaches the number of replicas exactly if
  it was reached before (`ScaleAsWritten`). `Scale` models what is documented at lines
  130-132 of that file, and the rolling update relies on that.
- The hashed metadata of a cluster is a concatenation without separators. A change of any one
  field changes it (`FieldsHashed`, `ConfigItemsHashed`, `PoolsHashed`, `PoolFieldsHashed`), but
  a change of two that only moves the boundary between them does not
  (`BoundariesNotHashed`, `ItemBoundariesNotHashed`), and is then not seen as a change.
- Rolling back the marking of nodes (`pkg/updatestrategy/node_pool_manager.go:184-190`) takes
  back the label and leaves the taint; a node that had no lifecycle status before is left
  `ready` (`PoolReturned` in the contract of `ClcUpdates.Update`).
- `subdivide` returns no networks at all for a prefix of zero bits, and divides by zero for
  parts smaller than one address or for the whole address space; it gives a partition exactly
  for prefixes of at least one bit and parts between the network and one address
  (`SubdivideAligned`).

## Model

| member | source | states |
|---|---|---|
| `NodePools.LedgerStep` | pkg/updatestrategy/rolling_update.go:56-77 | one step changes the ledger by its scaling request only; a termination leaves it alone for both values of scaleDown |
| `NodePools.LedgerConserved` | pkg/updatestrategy/rolling_update.go:56-103 | over any run the ledger moves by the sum of the scaling requests and by nothing else |
| `NodePools.ServingStep` | pkg/updatestrategy/rolling_update.go:56-89 | a floor under the serving nodes and the ledger is kept by every step: cordoning stays within the ledger, terminating takes nothing that serves |
| `NodePools.Available` | pkg/updatestrategy/rolling_update.go:125-208 | availability: that floor holds in every later state of every run, also in the middle of a termination |
| `NodePools.CordonBoundKept` | pkg/updatestrategy/rolling_update.go:79-89 | over any run only outdated nodes are cordoned and never more than min(#outdated, surge) |
| `NodePools.CurrentNodesStay` | pkg/updatestrategy/rolling_update.go:141-200 | run safety: a node of the current generation outlives every run, and goes on serving |
| `NodeSelection.SplitOldNewNodes` | pkg/updatestrategy/rolling_update.go:303-316 | splits a snapshot by generation, keeping the order |
| `NodeSelection.MatchByDomain` | pkg/updatestrategy/rolling_update.go:233-254 | whichever new node the map yields for a domain, the outcome is the same function of the list, the domains and the surge |
| `NodeSelection.ComputeNodesList` | pkg/updatestrategy/rolling_update.go:222-267 | in terms of the pool alone: outdated nodes are chosen, once each and in the order of the pool; volume-attached ones as far as their failure domain has new nodes, then volume-free ones, and nodes that found no partner only when every volume-free one is to be cordoned; the order in which the map of new nodes is iterated makes no difference |
| `NodeSelection.SelectionWellChosen` | pkg/updatestrategy/rolling_update.go:222-267 | those rules, for the function that the loops are proved to compute |
| `NodeSelection.SelectionSize` | pkg/updatestrategy/rolling_update.go:250-266 | the two results are disjoint parts of the outdated nodes, together at most surge, and as many as there can be |
| `NodeSelection.SelectionMatches` | pkg/updatestrategy/rolling_update.go:235-254 | per failure domain no more volume-attached nodes are cordoned than there are new nodes, and exactly as many if one is left unmatched |
| `NodeSelection.Partners` | pkg/updatestrategy/rolling_update.go:235-248 | the matched nodes of a scan map injectively to new nodes in the same failure domain |
| `NodeSelection.SelectionPartners` | pkg/updatestrategy/rolling_update.go:222-267 | the volume-attached nodes to cordon map injectively to new nodes in the same failure domain |
| `NodeSelection.SelectionVolumeFree` | pkg/updatestrategy/rolling_update.go:256-266 | without volumes the first surge outdated nodes are chosen and none is unmatched |
| `Clouds.Cloud.WaitForDesiredNodes` | pkg/updatestrategy/node_pool_manager.go:431-466 | returns a snapshot of a pool in which all desired nodes are ready, except for spot pools; changes nothing itself; without faults it fails only after having polled an unsettled pool to the end |
| `Clouds.Cloud.CordonNode` | pkg/updatestrategy/node_pool_manager.go:423-427 | cordons that node of the pool as it is then, or nothing; a failure may have done either |
| `Clouds.Cloud.TerminateNode` | pkg/updatestrategy/node_pool_manager.go:336-349 | the backend terminates the node only after a drain of it succeeded, and only that node; success means that it is gone |
| `Clouds.Cloud.TerminateDrained` | pkg/updatestrategy/node_pool_manager.go:336-349 | with the drain itself in place of its outcome: the backend is asked to terminate only a node that the drain has left without evictable pods |
| `RollingUpdates.ScalePool` | pkg/updatestrategy/node_pool_manager.go:358-420 | a size above zero is reached by scaling out only; to reach zero, nodes are cordoned and drained before each termination, until none is left; without faults that takes no more rounds than there were desired nodes, unless a wait times out |
| `RollingUpdates.FirstCordoned` | pkg/updatestrategy/node_pool_manager.go:398-404 | takes a cordoned node if there is one |
| `RollingUpdates.ScaleOutAndWaitForNodesToBeReady` | pkg/updatestrategy/rolling_update.go:270-297 | ends, and does so with max(desired, #outdated + surge) nodes if any is outdated, having scaled out only |
| `RollingUpdates.TerminateCordonedNodes` | pkg/updatestrategy/rolling_update.go:56-77 | terminates exactly the cordoned outdated nodes, each after its drain, and decrements exactly when at most surge outdated nodes are left |
| `RollingUpdates.CordonNodes` | pkg/updatestrategy/rolling_update.go:80-89 | only the given outdated nodes are cordoned, within the surge, and all of them if nothing fails |
| `RollingUpdates.CordonChosen` | pkg/updatestrategy/rolling_update.go:177-189 | the nodes that are cordoned are those computed from the snapshot of that moment, and all of them on success |
| `RollingUpdates.IncreaseByUnmatchedNodes` | pkg/updatestrategy/rolling_update.go:93-103 | the desired size is raised by exactly the number of unmatched nodes, or by less if that failed |
| `RollingUpdates.CordonNext` | pkg/updatestrategy/rolling_update.go:177-200 | one choice, whose nodes are all cordoned or gone on success, and the scaling requests after it add up to its unmatched nodes; of the outdated nodes at most max(0, #outdated - surge) are left uncordoned if none has volumes |
| `RollingUpdates.Pass` | pkg/updatestrategy/rolling_update.go:125-208 | for every way in which a pass can end: it begins with nothing but scaling out, which ends scaled out or not beyond; after that the pool is raised by what the choice asks for; without faults it breaks off only after a wait that timed out |
| `UpdateLoops.TargetByNodes` | pkg/updatestrategy/rolling_update.go:270-297 | the target is n for o = 0 and o + max(n, surge) - min(o, surge) otherwise |
| `UpdateLoops.RoundsIsCeiling` | pkg/updatestrategy/rolling_update.go:256-266 | the number of rounds is #outdated / surge, rounded up |
| `UpdateLoops.RaisesWhatIsOwed` | pkg/updatestrategy/rolling_update.go:125-208 | from the first scale-out on, the desired size is raised by exactly the unmatched nodes of the choices, since later scale-outs have nothing to add |
| `UpdateLoops.VolumeFreeOwes` | pkg/updatestrategy/rolling_update.go:256-266 | without volumes no choice leaves a node unmatched |
| `UpdateLoops.PassDecreases` | pkg/updatestrategy/rolling_update.go:125-208 | every unfinished pass brings down #outdated + #uncordoned outdated, if no outdated node has volumes |
| `UpdateLoops.FinalSize` | pkg/updatestrategy/rolling_update.go:114-211 | a finished update ends at the target plus what was scaled after the first scale-out |
| `UpdateLoops.Update` | pkg/updatestrategy/rolling_update.go:114-211 | every run: only chosen nodes are cordoned, only outdated and cordoned ones terminated and each after its drain; up to the end of the first scale-out the pool is only scaled out, and from there on at least the target serves; a finished run has no outdated node and ends at the target plus the unmatched nodes of its choices; without volumes it ends within rounds + 2 passes, and without faults it fails only after a wait that timed out |
| `UpdateLoops.FloorSurvives` | pkg/updatestrategy/rolling_update.go:114-211 | the availability reached by one run is kept by the runs after it |
| `UpdateLoops.UpdateAgain` | pkg/updatestrategy/rolling_update.go:114-211 | over any number of runs that are cut short and started again, the pool of the first run sets the target: it is served from the end of the first scale-out on, and the size ends between it and it plus the unmatched nodes of all choices; without faults the last run fails only after a wait that timed out, and without volumes it is cancelled only within rounds + 2 passes |
| `ClusterVersions.ParseToString` | api/cluster_version.go:16-36 | a version survives printing and parsing exactly if neither part contains the separator; anything else is read as no version |
| `ClusterVersions.Version` | api/cluster.go:92-213 | the hash input is a function of the cluster alone, whatever order the maps are iterated in |
| `ClusterVersions.StatusNotHashed` | api/cluster.go:92-213 | changes of the status leave the version alone |
| `ClusterVersions.FieldsHashed` | api/cluster.go:95-134 | a change of any one field of a cluster changes the hash input |
| `ClusterVersions.ConfigItemsHashed` | api/cluster.go:136-155 | so does a changed config item, and a new one exactly if its key or value is not empty |
| `ClusterVersions.PoolsHashed` | api/cluster.go:158-199 | a changed node pool changes the hash input exactly if it changes its own part of it |
| `ClusterVersions.PoolFieldsHashed` | api/cluster.go:158-199 | a change of any one field of a node pool changes that part; of the instance types exactly if they read differently in a row |
| `ClusterVersions.BoundariesNotHashed` | api/cluster.go:95-102 | where the ID ends and the account begins is not hashed: different clusters share the input |
| `ClusterVersions.ItemBoundariesNotHashed` | api/cluster.go:143-152 | nor is where a key ends and its value begins |
| `Strings.SortedUnique` | api/cluster.go:136-145 | sorting distinct keys has only one outcome |
| `WorkQueues.AlwaysSafe` | controller/cluster_list.go:58-228 | in every reachable state of every interleaving: pending clusters are distinct, idle and filed under their ID; what is in processing is exactly what workers hold, each held once and with its holder's cancel function |
| `WorkQueues.RefreshKeepsProcessing` | controller/cluster_list.go:96-164 | a refresh neither deletes nor changes an entry in processing, and adds none |
| `WorkQueues.PendingIff` | controller/cluster_list.go:58-197 | after a refresh a listed, idle cluster is pending exactly if it is not blocked and its version cannot be determined, it is to be decommissioned, an update was interrupted, or its version has changed |
| `WorkQueues.PendingByUrgency` | controller/cluster_list.go:77-197 | among those, interrupted updates come before decommissioning, and that before everything else; within one kind the one that was processed longest ago comes first |
| `WorkQueues.OnlyListedStay` | controller/cluster_list.go:153-163 | what is neither listed nor in the hands of a worker is gone after a refresh |
| `WorkQueues.DecommissionedLeaves` | controller/cluster_list.go:100-163 | a decommissioned cluster that no worker holds is neither in the list nor pending after a refresh |
| `WorkQueues.HeldUntouched` | controller/cluster_list.go:128-163 | no step of others changes the entry that a worker holds |
| `WorkQueues.AbortsReachHolders` | controller/cluster_list.go:136-139 | a refresh cancels the holder of every blocked cluster in progress, and nobody who holds none |
| `WorkQueues.OncePerRefresh` | controller/cluster_list.go:202-228 | a cluster is handed out at most once between two refreshes |
| `WorkQueues.BoundedOvertaking` | controller/cluster_list.go:64-88 | if B is pending when A is taken, A is not taken again before B, provided that the clock moves and every refresh in between lists A and finds B idle and at least as urgent |
| `WorkQueues.ForgottenClusterOvertakes` | controller/cluster_list.go:140-151 | a cluster that is listed again after it was dropped goes ahead of every equally urgent cluster that was processed before |
| `WorkQueues.OvertakenTwice` | controller/cluster_list.go:140-163 | a run from the empty queue in which A is taken twice and B, pending and urgent, not in between, because one refresh did not list A |
| `ClusterLists.ClusterList.UpdateAvailable` | controller/cluster_list.go:58-89 | updating entries in place does what the refresh step of the queue says, for every order of the map |
| `ClusterLists.ClusterList.UpdateClusters` | controller/cluster_list.go:96-164 | the entries after adding, updating and deleting, and the cancel functions that were called |
| `ClusterLists.ClusterList.SelectNext` | controller/cluster_list.go:202-216 | hands out the first pending entry and does what the select step says, or nothing |
| `ClusterLists.ClusterList.ClusterProcessed` | controller/cluster_list.go:219-228 | does what the finish step says to the entry of that ID, and nothing to others |
| `ClusterLists.SortPending` | controller/cluster_list.go:77-87 | the same entries by falling priority, and by age within one priority |
| `Controllers.RecordWindow` | controller/controller.go:264-287 | recording a problem in the bounded log equals recording it in the full history and keeping a window |
| `Controllers.LogStep` | controller/controller.go:214-287 | one more event after any history: the log stays the problems since the last success without immediate repetitions if those are at most 25, otherwise the marker and their last 24 |
| `Controllers.CompactNothing` | controller/controller.go:276-276 | a list without immediate repetitions is left alone |
| `Controllers.CompactRepetition` | controller/controller.go:276-276 | an immediate repetition makes no difference |
| `Controllers.Job.DoProcessCluster` | controller/controller.go:168-235 | how far an attempt gets for every answer of its surroundings, the cluster and the registry's record after it, and the error it ends with |
| `Controllers.Job.ProcessCluster` | controller/controller.go:238-293 | the registry's problems stay the bounded log of the history of persisted attempts, which the error of each attempt extends; a dry run writes nothing |
| `Controllers.UpdatedIsDone` | controller/cluster_list.go:168-197 | version fixpoint: a ready cluster that was updated has priority none exactly if it is blocked or its version is free of the separator |
| `Controllers.RequestedUpdatesAgain` | controller/controller.go:199-218 | a requested cluster is updated once more unless the hashes collide, since its lifecycle status is hashed |
| `Controllers.UnfinishedResumes` | controller/cluster_list.go:168-197 | an announced update that did not finish gets the highest priority, unless the cluster is blocked, misconfigured or to be decommissioned |
| `Controllers.RefreshAndProcess` | controller/controller.go:199-218 | a whole attempt, whatever the answers were: what lands in the registry, field by field, when it was finished, announced or not, and with which failure it ends and which problem it leaves; a finished decommission is recorded as decommissioned without versions or problems, a finished update as ready at the new version; an update that the registry knows to have begun, and not to have finished, goes on |
| `WorkQueues.Relisted` | controller/cluster_list.go:112-151 | those are the priorities that the next refresh of the work queue assigns |
| `NodeLabels.OnlyTheTarget` | pkg/updatestrategy/node_pool_manager.go:230-331 | a patch sets one label, one annotation or the taint with its key to the given value, changes nothing else, and has nothing left to do afterwards |
| `NodeLabels.UpdateTaint` | pkg/updatestrategy/node_pool_manager.go:294-313 | the first taint with the key is replaced, or one is added; reports whether that changed anything |
| `NodeLabels.TaintSet` | pkg/updatestrategy/node_pool_manager.go:294-313 | afterwards the taint is there, taints with other keys are as before, and nothing changes exactly if it was there |
| `NodeLabels.ApiServer.Update` | pkg/updatestrategy/node_pool_manager.go:203-217 | a conditional write replaces the very version it was computed from: no update of others is lost |
| `NodeLabels.UpdateNode` | pkg/updatestrategy/node_pool_manager.go:196-226 | against any other writers: at most one write, of this patch to this node; success means that the caller's copy, or the node itself at some moment of the call, had what was asked for; if nobody interferes, the node becomes what the patch makes of it |
| `NodeLabels.TryUpdate` | pkg/updatestrategy/node_pool_manager.go:202-221 | one round of get, patch and conditional write; a conflict has written nothing |
| `NodeLabels.MarkNodeForDecommission` | pkg/updatestrategy/node_pool_manager.go:167-182 | the node was tainted and was no longer ready at some point; every write goes to this node, and one that changes the lifecycle status turns ready or none into decommission-pending; if nobody interferes, a node that can be marked ends so, with the taint, and nothing else changes |
| `NodeLabels.AbortNodeDecommissioning` | pkg/updatestrategy/node_pool_manager.go:184-190 | whatever others write, the caller's copy or the node itself at some moment of the call was not marked, and a write that changes the lifecycle status turns decommission-pending or none into ready; if marking is left to this program, the node is not marked afterwards; if nobody interferes, a marked node is ready and otherwise as it was |
| `ClcUpdates.MarkNodes` | pkg/updatestrategy/clc_update.go:142-154 | all outdated nodes of the snapshot were marked in the course of the call, and counted; no other node is written to, and nothing but marks and taints is written |
| `ClcUpdates.GetPool` | pkg/updatestrategy/node_pool_manager.go:101-165 | the snapshot has all the members that the pool had at a moment of the call and that Kubernetes lists at its end, and no other node |
| `ClcUpdates.DoUpdate` | pkg/updatestrategy/clc_update.go:109-140 | unless something fails, the outdated members of the pool that were last listed have been marked; it finishes exactly when none was listed; only nodes that were outdated members are written to, to mark and taint them; if nobody interferes, every outdated member that was ready or without a status is decommission-pending, every one is tainted, and everything else is as before |
| `ClcUpdates.RollbackUpdate` | pkg/updatestrategy/clc_update.go:91-107 | if it succeeds, none of the outdated members that it listed has stayed marked throughout, whatever others write; and if marking is left to this program, none that was an outdated member when it fetched the pool is marked; only outdated members are written to, to take marks back; if nobody interferes it succeeds, and marked outdated members are ready |
| `ClcUpdates.Update` | pkg/updatestrategy/clc_update.go:27-46 | no node leaves draining, in any case, and writes only move outdated members between ready and decommission-pending; a run that is not broken off has marked the outdated members it listed last, and finishes exactly without any; after a cancelled one with a successful rollback none of the outdated members that the rollback listed has stayed marked, and if marking is left to this program none is marked at the end; if nobody interferes, what becomes of every node is given for both endings |
| `Drains.FindSiblingPods` | pkg/updatestrategy/drain.go:252-283 | the pods that a valid disruption budget selects together with this one, without finished pods and jobs |
| `Drains.ForceTerminationAllowed` | pkg/updatestrategy/drain.go:189-241 | allowed exactly if the grace period, the interval, the pod's age and the ages of all its siblings, ready or not, permit it |
| `Drains.StoredTime` | pkg/updatestrategy/drain.go:26-39 | storing a time drops the fraction of its second, and nothing when it is stored again |
| `Drains.DrainedNode.EvictOrForceTerminatePod` | pkg/updatestrategy/drain.go:157-187 | at most one forced deletion, of one of the given pods, within all the limits: grace period, interval, the pod's age and its siblings' ages; and one for certain if nothing fails, no pod can be evicted and some pod is within the limits |
| `Drains.DrainedNode.EvictParallel` | pkg/updatestrategy/drain.go:120-143 | reports whether any pod was evicted, and fails exactly if an eviction does; a disruption budget in the way is no failure |
| `Drains.DrainedNode.Begin` | pkg/updatestrategy/drain.go:50-54 | the first run that can stores a time of its own as the start; later runs leave it, and know it up to less than a second |
| `Drains.DrainedNode.StoreForced` | pkg/updatestrategy/drain.go:107-113 | the annotation holds the time of the last forced deletion, also where the write is skipped |
| `Drains.DrainedNode.Drain` | pkg/updatestrategy/drain.go:42-118 | over any number of runs: no forced deletion before the grace period is over, successive ones an interval apart, both less than a second early after a restart; every deletion of a run is of a pod that has to leave, and has its time stored, or is the last before the run fails; succeeds only when no pod that has to leave is on the node, and fails without a failure of anything else only when the polls are used up |
| `CachingSources.KeysDetermine` | channel/caching_source.go:32-41 | without separators in them, equal keys come from equal channels and overrides, for every order of iteration |
| `CachingSources.SeparatorsCollide` | channel/caching_source.go:32-41 | with separators, different arguments share a key |
| `CachingSources.CachingSource.Version` | channel/caching_source.go:32-52 | the cache answers what the target would answer, and stays so |
| `CachingSources.CachingSource.Update` | channel/caching_source.go:27-30 | after an update nothing is answered from before |
| `Subnetworks.Subdivide` | provisioner/template.go:474-499 | exactly when it fails, panics or returns networks, with the arithmetic of the source |
| `Subnetworks.Partitions` | provisioner/template.go:474-499 | the parts are aligned and every address of the network, and no other, is in exactly one of them |
| `Subnetworks.PartBegins` | provisioner/template.go:488-492 | the i-th part begins i sizes behind the network, without overflow |
| `Subnetworks.SubdivideAligned` | provisioner/template.go:474-499 | the result is a partition if and only if 1 <= prefix <= size <= 32 |
| `Subnetworks.StupsNATSubnets` | provisioner/template.go:502-529 | three disjoint /28 networks in the second quarter for every prefix of 1 to 24 bits, an error otherwise, and never an index out of range |
| `Checkouts.PlainPath` | channel/git.go:433-440 | plain components lead to where they say |
| `Checkouts.WalkDots` | channel/git.go:433-440 | empty and dot components lead nowhere, two dots back to where the component before them began and not above the top |
| `Checkouts.FileSystem.SafeMkdirAll` | channel/git.go:446-478 | makes the directories on the way, refuses everything else that is there, and changes nothing outside |
| `Checkouts.FileSystem.WriteLeaf` | channel/git.go:401-425 | writes one file or link if its place is free and inside, never through a link; what is there then has the content, and is executable or a link, as the blob says |
| `Checkouts.FileSystem.WriteTreeEntries` | channel/git.go:376-429 | the walk over a tree writes its leaves one after the other |
| `Checkouts.CheckoutSucceeds` | channel/git.go:376-534 | the leaves can be written exactly if all are available, lead into the directory and no path is, or goes through, another |
| `Checkouts.CheckoutFlattens` | channel/git.go:376-534 | then exactly the leaves are at their places, with directories above them, and everything else is as before |
| `Checkouts.TreeWritten` | channel/git.go:376-534 | then every blob of the tree is where its name leads, with its content, and everything below the root is such a blob or a directory on the way to one |
| `Checkouts.PlainTreePaths` | channel/git.go:382-399 | in a tree with plain names every leaf is written below the entries that it is in |
| `Checkouts.WriteTree` | channel/git.go:372-374 | succeeds exactly for compatible leaves and has then stored every blob of the tree, and nothing else, where its name leads; nothing outside of the directory changes for any tree |
| `Checkouts.WritePlainTree` | channel/git.go:372-429 | checkout equals flattening: for a tree with plain names it succeeds exactly if everything is available and no path in the tree is, or goes through, another, and then each blob is at its path as a regular file, an executable one or a link with its content, with directories above it and nothing else below the root |
| `Checkouts.Checkout` | channel/git.go:348-353 | a failed checkout leaves no trace |
| `AsgScaling.Scale` | pkg/updatestrategy/aws_asg.go:133-211 | as documented: the capacities add up to the replicas, each group changes by its share, the larger shares going to the smallest groups that are not empty, or to the largest when shrinking; min <= desired <= max in every request, and limits move no further than that takes |
| `AsgScaling.Deal` | pkg/updatestrategy/aws_asg.go:165-190 | the loops end, and deal out the difference one by one |
| `AsgScaling.FairShares` | pkg/updatestrategy/aws_asg.go:165-190 | shares differ by at most one, and larger ones come first |
| `AsgScaling.ScaleAsWritten` | pkg/updatestrategy/aws_asg.go:133-211 | as written: the replicas are reached exactly if they were before |
| `AsgScaling.ShrinkingStaysPositive` | pkg/updatestrategy/aws_asg.go:177-190 | exactly when shrinking asks for no negative capacity |
| `Subnets.SelectSubnetIDs` | provisioner/clusterpy.go:729-773 | for every zone, and no other, the best subnet |
| `Subnets.BestIsLeast` | provisioner/clusterpy.go:741-757 | the best is the lexicographically least of the tagged subnets of the zone if there are any, and of all otherwise |
| `Subnets.OrderIrrelevant` | provisioner/clusterpy.go:729-773 | with distinct IDs the result is the same for every order of the subnets |

## Left out

- The cluster autoscaler, other controllers that cordon nodes, launch-template changes during an update, and nodes of non-spot pools that vanish or become unready on their own: the cloud of the model does none of this, and never runs more nodes than desired.
- UpdateLoops.Update: promises neither a floor of serving nodes nor a final size for spot pools, which skip the scale-out but still give back the full surge; and no bound on the passes when outdated nodes have volumes, since a zone that never gets a new node can be scaled for again and again.
- Clouds.Cloud.Drain: in the rolling update, that a drain has left no evictable pod is an event of the trace; `TerminateDrained` puts the drain in its place, for one node.
- RollingUpdates.FinishPass: marking the outdated nodes at the beginning of a pass (`pkg/updatestrategy/rolling_update.go:35-45`) is only something that may fail; what marking does is in `NodeLabels`.
- Contexts are a number of passes, rounds or polls after which they are cancelled, together with cancellation at any earlier check; sleeps, backoff and timeouts have no duration except in the drain.
- WorkQueues.BoundedOvertaking: is not claimed for a cluster that is dropped from the list in between, for which it fails.
- Controllers.Job.ProcessCluster: takes it that a refresh lists the registry's record as the previous attempt left it; a list that was fetched before that attempt's last write and applied after it would bring old problems back.
- Controllers.Job.Provide: a provisioner does not change the cluster that it is given; the provider's name in a message is quoted without escapes.
- The account filter, the channel's answer for a cluster and SHA-1 are parameters; that an answer does not depend on the status or lifecycle status of a cluster is the assumption `Steady`.
- UpdateLoops.UpdateAgain: a request that failed half way is not made up for by the next run, so the final size is given by what was raised.
- NodeLabels.AbortNodeDecommissioning: that the node is not marked afterwards, and not just at some moment, relies on other clients not marking nodes themselves and on new nodes coming without the mark (`quiet`); nothing else does.
- Drains.DrainedNode.Drain: a forced deletion whose time could not be stored, or whose answer was lost, does not bind the next run; timestamps are times or invalid, not text.
- NodeLabels.MarkNodeForDecommission: the effect of the taint is a parameter, which the code takes from its configuration and from whether the node is a master.
- ClusterVersions.FieldsHashed: SHA-1 may of course map different inputs to the same hash; the laws are about its input.
- Evictions and waiting for a pod to be gone are answers from outside.
- CachingSources.CachingSource.Version: claims nothing for channels or overrides that contain the separator, for which keys can collide (`SeparatorsCollide`).
- Subnetworks.StupsNATSubnets: takes a parsed IPv4 network; parsing and printing of addresses are not modelled.
- Checkouts.Checkout: takes it that removing the directory works, and that there is no link on the way to it.
- Groups of a scaling request are values that are reassigned; that a node pool has at least one group is what `getNodePoolASGs` guarantees. The limits that `Terminate` lowers before it decrements are not modelled.
- Cloud providers, CloudFormation, template rendering, credentials, decrypters, the HTTP registry and the server around it: plumbing without a protocol of its own.
- `PrepareForRemoval` of both update strategies beyond `ScalePool` to zero, and node-pool tags: they would only add easy members.
