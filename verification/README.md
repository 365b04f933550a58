# A verified model of the operator tooling

This project models the protocols and algorithms in the repository's operator tooling and proves what they keep.
`dafny verify dfyconfig.toml` checks all of it.  Each component is modelled in the form it has in the source: loops that
change local variables are methods with loops, objects whose fields are updated are classes, expressions are functions;
the theorems are lemmas about the functions and state machines that the methods are proved against.

**The CRI component supervisor** (`CriWorld`, `CriProtocol`, `CriTrace`, `CriInterleaving`, `CriHistory`, `CriOutcome`,
`CriWitness`, `CriStack`).  The container runtime is a store of pods and containers with labels.  A start run is a state machine of single commands (lock, list,
stop, remove, pull, `runp`, `create`, `start`, poll, inspect) in which every command may fail; any number of start runs
interleave with any number of removals that take no lock (`down-profile`, and the reset of `up-postgres`) and with an
environment that kills containers at any point.  `CriStack.Stack` runs the source's loops against such a store.

**The zone mesh** (`ShortestPath`, `Corridor`, `MeshScene`, `MeshRanking`, `MeshBuilder`, `MeshLinks`, `MeshActivity`,
`Plane`, `Polygon`, `Polyline`).  Breadth-first search over any finite graph and neighbour order, the round-robin
corridor budget, the ranking of nodes by distance, the branches that build the links, the activity plan, the even-odd test of a point in an outline, and the walk along a polyline.

**The seed-cache refresh** (`ImageRefs`, `SeedPlan`, `SeedCache`).  Reference and identifier normalisation, the merged
seed list, and the workflow: classify, build a bundle of what is missing or stale, make room (which may purge the guest),
rebuild in full after a purge, copy, import, classify again.  What the commands answer is a parameter.

**The Markdown compiler** (`ListOutline`, `MarkdownList`, `ListRendering`, `ListNesting`, `MarkdownBlocks`,
`MarkdownContents`, `MarkdownCompiler`, `Ranking`).  The block pass with its code and paragraph buffers, what each block
holds, the nested-list builder that changes a tree of nodes through a stack, the tags it renders, and the coverage-weighted ranking of a page's comparisons.

**Stream and poll failover** (`StreamTail`, `StreamFailover`, `StreamTurns`, `StreamWitness`, `LabsPage`).  The event and
log tails as state machines over event-loop turns with non-decreasing time; the classes of `LabsPage` perform the callbacks.  A closed source fires no
further event (section 9.2 of the WHATWG HTML standard).

**Memory aggregation** (`MemAggregate`, `ContainerTotals`), **polling monitors** (`Monitors`) and the **label
canonicaliser** (`Labels`).  `Text`, `Sequences`, `Numbers` and `Options` hold what several
modules share.

## What turned out otherwise

- A start that returns normally need not leave a pod.  Two commands remove pods without the component lock: `down-profile`,
  and `up-postgres` with `--reset-data` before its own locked start; either may take the pod after the last poll saw its
  container running.  If no such removal that reaches the component has appeared, the pod is there, with its rollout key
  (`CriHistory.NormalExitLeavesPod`); in general it is there if and only if none took it (`CriInterleaving.NormalExit`);
  and for every start and every removal that reaches its component there is a run in which the pod is gone
  (`CriWitness.SuccessWithoutPod`).
- A polling tail does not retry forever: when a retry of the event tail fires while no session is open, the orchestrator
  is unavailable or streaming is disabled, no later retry is scheduled (`StreamFailover.RetryGoesOnIff`; for the log tail,
  when the logs are no longer observed, `StreamFailover.LogsRetryGoesOnIff`).  Resetting the session stops
  neither tail, and `StreamWitness.RetryWithoutSuccessor` is a run in which the pending retry then fires in vain.
- A seed-cache run whose every command succeeds can end with images missing: a purge that the clean-up's output does not
  report loses the fresh images, which the partial bundle does not hold.  `SeedCache.SeedRun.EnsureSeedCache` has the exact
  condition, `SeedCache.UnreportedPurge` an instance.  The clean-up script prints its report last and without condition,
  so that this needs an exit code 0 whose output was lost or cut on the way.
- A list block whose first line is a dash with one white space and nothing more loses that line's text and that of every
  continuation line before the first item (`MarkdownBlocks.ListKeepsItsText`, `MarkdownBlocks.DashAloneDropsText`).
- The runtime's process groups and its bucket differ by any process that has a group of the lane and is also named a shim,
  a controller or an ingress (`MemAggregate.RuntimeReconciles`, `MemAggregate.PassesCanDisagree`).
- Splitting a label drops a line break after the stage (`Labels.SplitLosesNothingIff`, `Labels.LineBreakIsDropped`), and
  for the CRI backend normalising is idempotent on all labels if and only if the runtime's name has no plus sign and is
  not `cri` (`Labels.CriIdempotentIff`).

## Model

| member | source | states |
|---|---|---|
| `CriProtocol.StepKeepsRunInv` | scripts/dev/cri_stack.py:716-889 | every command of a start run, and every listing, keeps the run's invariant: what the run knows about its component's only pod at each point |
| `CriProtocol.StepKeepsAtMostOne` | scripts/dev/cri_stack.py:736-818 | no command of a start run gives a component a second pod |
| `CriProtocol.StepTouchesOnlyItsKey` | scripts/dev/cri_stack.py:208-212 | no command of a start run touches a pod or container of another profile or component |
| `CriProtocol.NoHandoff` | scripts/dev/cri_stack.py:188-205 | while the run's pod is its component's only one, no container of the component runs in another pod |
| `CriProtocol.RepeatedStartChangesNothing` | scripts/dev/cri_stack.py:736-752 | a start without recreate, while the pod runs with the wanted rollout key, reuses it and leaves the store as it was |
| `CriProtocol.LeakedPodIsRemoved` | scripts/dev/cri_stack.py:766-768 | in an undisturbed run, a pod without a running container is being removed or gone at every step, unless the run raised |
| `CriTrace.OutcomeIsJustified` | scripts/dev/cri_stack.py:735-889 | whatever others do in between, a run's own looks justify its outcome: reuse needs a running container with an accepted rollout; success with a stability window needs at least one look, a clock at or past its deadline, and no look that found the container stopped unless a second one 500 ms later found it running or `inspect` said running, created or nothing; "unstable" needs two such looks and another report; "not running" needs thirty looks |
| `CriTrace.LookIsExcused` | scripts/dev/cri_stack.py:822-871 | every look of a window that was stood found the container running, or was followed by such a look or report |
| `CriOutcome.OutcomeIsEarned` | scripts/dev/cri_stack.py:682-889 | and so in every interleaving of start runs, removals and the environment |
| `CriHistory.OlderPodIsReplaced` | scripts/dev/cri_stack.py:735-768 | in every interleaving: a pod that was there before a start run made its own, such as a leaked one, is gone when the run leaves, unless the run reused it or raised |
| `CriHistory.OthersThroughout` | scripts/dev/cri_stack.py:671-714 | for as long as a run that holds its lock stays where it is, all that happens is what it relies on |
| `CriHistory.NormalExitLeavesPod` | scripts/dev/cri_stack.py:739-757 | if no `down-profile` of the profile and no reset of the component has appeared, a normal exit leaves the component's only pod, with the rollout key if one was given |
| `CriInterleaving.StepKeepsInv` | scripts/dev/cri_stack.py:671-714 | every step of any start run, unlocked removal or the environment keeps the global invariant |
| `CriInterleaving.MutualExclusion` | scripts/dev/cri_stack.py:671-679 | two runs that hold the lock of one component are the same run |
| `CriInterleaving.OthersAreReliable` | scripts/dev/cri_stack.py:671-714 | what others do while a run holds its lock leaves that run what it relies on |
| `CriInterleaving.AtMostOnePodPerComponent` | scripts/dev/cri_stack.py:716-889 | in every interleaving no component ever has two pods, and no start takes the "running (handoff)" exit |
| `CriInterleaving.NormalExit` | scripts/dev/cri_stack.py:739-757 | after a normal exit the component has no pod but the run's, which is there if and only if no unlocked removal took it, and carries the rollout key |
| `CriInterleaving.FailureExit` | scripts/dev/cri_stack.py:856-889 | after the "not running" and "unstable" exits the component has no pod |
| `CriInterleaving.UntouchedComponent` | scripts/dev/cri_stack.py:1581-1587 | a component that no start run, no reset and no `down-profile` of its profile works on keeps exactly its pods and containers |
| `CriWitness.SuccessWithoutPod` | scripts/dev/cri_stack.py:1095-1098 | for every start and every removal that reaches its component: a reachable state in which the start is about to return normally and the component has no pod |
| `CriStack.Stack.FindPod` | scripts/dev/cri_stack.py:145-154 | the result carries both labels, and there is none only if no pod does |
| `CriStack.Stack.ComponentRunning` | scripts/dev/cri_stack.py:164-185 | true if and only if the pod has a running container that counts for the component |
| `CriStack.Stack.ComponentRunningElsewhere` | scripts/dev/cri_stack.py:188-205 | finds a pod other than the given one in which the component runs, if there is one |
| `CriStack.Stack.ReuseOrRemove` | scripts/dev/cri_stack.py:735-768 | reuses the found pod or leaves the component without one, with the event that says why: recreation asked for, no running container, rollout key missing or changed |
| `CriStack.Stack.AwaitStable` | scripts/dev/cri_stack.py:822-871 | the stability window ends in one of the protocol's outcomes, with its guarantee about the component's pod, and the run's looks justify the outcome |
| `CriStack.Stack.AwaitRunning` | scripts/dev/cri_stack.py:820-889 | so does the wait for the container to run, which gives up after thirty looks |
| `CriStack.Stack.StartComponentUnlocked` | scripts/dev/cri_stack.py:716-889 | the whole run, against a store that others change: the outcome's guarantee holds, the run's looks justify it, and the event log fits it |
| `CriStack.Stack.StartComponent` | scripts/dev/cri_stack.py:682-713 | the same through the component lock |
| `CriStack.Stack.StartEnvoy` | scripts/dev/cri_stack.py:1281-1310 | at most two starts, the second with recreate; it succeeds only after a start that returned normally, and the last start's looks justify its outcome with a window of two seconds |
| `CriStack.Stack.StartPostgres` | scripts/dev/cri_stack.py:1076-1120 | with the reset and unless a command fails, no pod that the component had before is left, whatever becomes of the start |
| `CriStack.Stack.DownProfile` | scripts/dev/cri_stack.py:1581-1587 | unless the listing fails, the pods of the profile are gone at the end |
| `ShortestPath.Search` | tools/zone_mesh_anim.py:295-313 | for any finite graph and neighbour order: a walk without repetitions and with fewest edges of all walks if end is reachable, else exactly start and end |
| `ShortestPath.Trace` | tools/zone_mesh_anim.py:307-311 | following the predecessors back gives a walk from start to end without repetitions, as long as the recorded distance |
| `ShortestPath.WalkIsRecorded` | tools/zone_mesh_anim.py:298-313 | any walk from start reaches only recorded nodes within its length while the search is not past that level |
| `ShortestPath.TargetIsUnreachable` | tools/zone_mesh_anim.py:313-313 | an empty frontier without the target means that no walk reaches it |
| `Corridor.Allocate` | tools/zone_mesh_anim.py:161-177 | the shares are a water filling of the caps, a third of each count and one more, and sum to the smaller of the budget and all caps |
| `Corridor.WaterFillIsUnique` | tools/zone_mesh_anim.py:166-177 | two water fillings of the same caps with equal sums are equal |
| `MeshActivity.AllocationIsUnique` | tools/zone_mesh_anim.py:161-177 | a profile determines the shares, so that whether it can be built depends on the profile alone |
| `Corridor.SplitCount` | tools/zone_mesh_anim.py:154-158 | the parts are not negative, add up, and differ by at most one between the cities |
| `MeshScene.RegisterNodes` | tools/zone_mesh_anim.py:334-413 | 2 data centres and max(count, corridor share) nodes of every other kind, exactly where the profile provides them |
| `MeshRanking.RankedIsInRank` | tools/zone_mesh_anim.py:281-292 | sorting a list in registration order ranks it by the key, and nodes with equal keys keep that order |
| `MeshRanking.NearestAreNearest` | tools/zone_mesh_anim.py:281-292 | the nearest nodes are exactly those candidates than which fewer than the limit are nearer |
| `MeshRanking.KindsInTurn` | tools/zone_mesh_anim.py:509-566 | the target lists take the kinds in the order the script gives and within a kind the nearer node first |
| `MeshBuilder.Builder.AddLink` | tools/zone_mesh_anim.py:265-278 | the undirected edge is there afterwards, no self-loop is added, nothing else changes |
| `MeshBuilder.Builder.LinkHomes` | tools/zone_mesh_anim.py:432-468 | adds exactly the links that the nodes ask for on their own account, and fails if and only if a city with a residence has no anchor |
| `MeshBuilder.Builder.BuildLinks` | tools/zone_mesh_anim.py:415-498 | the links are sound and are exactly the wanted ones; building them fails if and only if a residence finds no anchor or a wanted cross-city link no end |
| `MeshLinks.LinkedIffWanted` | tools/zone_mesh_anim.py:415-498 | two nodes are linked if and only if one asks for the other: next to each other on the eastward chain through the corridor, the near or for pops and colos either data centre, a residence's nearest anchor, a city node's data centre and nearest one or two peers, an anchor's nearest anchors, or ends of the two sides taken in turn |
| `MeshLinks.CorridorGoesEast` | tools/zone_mesh_anim.py:417-425 | the corridor's chain goes eastward |
| `MeshLinks.CrossEndsByDistance` | tools/zone_mesh_anim.py:477-498 | the ends of the cross-city links come by their distance from abscissa 780 in the west and 880 in the east |
| `MeshLinks.WantedIsBackboned` | tools/zone_mesh_anim.py:415-468 | the data centres are linked, and every node is attached to one or, a residence, to an anchor of its city |
| `MeshBuilder.Builder.Adjacency` | tools/zone_mesh_anim.py:500-503 | adjacency is exactly the symmetric relation of the links |
| `MeshActivity.Diameter` | tools/zone_mesh_anim.py:415-503 | any two nodes are at most five edges apart |
| `MeshActivity.WestSide` | tools/zone_mesh_anim.py:569-574 | western and corridor nodes are at most two edges from the western data centre |
| `MeshActivity.EastSide` | tools/zone_mesh_anim.py:537-550 | remote candidates are at most one edge from the eastern data centre |
| `MeshActivity.ChooseTargets` | tools/zone_mesh_anim.py:505-569 | the origin is the western business nearest the city; no list repeats a target; the lists begin with the data centres and the origin, go on in the order of the candidates' ranks without leaving out one that ranks before one taken, lie where their paths are bounded, and end only at their limit or without candidates; the inference list begins with the warm targets and seven tenths of the query targets and closes with a remote one; there are none if and only if there is no western business |
| `MeshActivity.BuildChunks` | tools/zone_mesh_anim.py:576-592 | as many chunks as wanted, taking turns over the targets, each with shortest legs within their bounds |
| `MeshActivity.ChunksTakeTurns` | tools/zone_mesh_anim.py:576-592 | the chunks go round the remote targets but the eastern data centre and the warm targets but the origin; without any they run between the data centres |
| `MeshActivity.BuildScene` | tools/zone_mesh_anim.py:320-590 | a step fails exactly for the profiles that do not provide a node it needs; for all others: the right number of nodes of each kind, neighbours exactly the nodes of which one asks for the other, symmetric, loop-free, connected with diameter at most 5, targets in the order of their ranks, a shortest path for every target (queries 3, inference 2, remote chunks 1 edge), the summary path the single link |
| `Polygon.PointInState` | tools/zone_mesh_anim.py:180-191 | the toggling loop computes the parity of the crossed edges of the closed outline |
| `Polygon.GuardIsIdle` | tools/zone_mesh_anim.py:186-188 | the replacement of a zero denominator never matters |
| `Polygon.RotationInvariant` | tools/zone_mesh_anim.py:180-191 | starting the outline at another vertex changes no answer |
| `Polygon.OrientationInvariant` | tools/zone_mesh_anim.py:180-191 | nor does reversing it |
| `Polygon.SubdivisionInvariant` | tools/zone_mesh_anim.py:180-191 | nor does splitting an edge at a point inside it |
| `Polygon.RectangleIsInside` | tools/zone_mesh_anim.py:180-191 | inside a rectangle are exactly its points but those on its right and upper edge |
| `Polyline.PointAlongPolyline` | tools/zone_mesh_anim.py:652-670 | the point lies on the first segment that reaches arc length clamp(f) times the total, at local parameter in [0,1]; the final return is not reached for a positive total |
| `Polyline.Walk` | tools/zone_mesh_anim.py:660-670 | the walk stops at the first segment that reaches the target |
| `Polyline.PlaceIsMonotone` | tools/zone_mesh_anim.py:660-669 | a larger arc position is never placed before a smaller one, and equal ones at the same place |
| `Polyline.PlacesFollowFractions` | tools/zone_mesh_anim.py:652-670 | the place of a larger fraction is never before that of a smaller one |
| `ImageRefs.NormalizeRefIdempotent` | scripts/dev/f0n_nvidia_validate.py:710-721 | normalising a reference twice is normalising it once |
| `ImageRefs.PlainNameReads` | scripts/dev/f0n_nvidia_validate.py:714-715 | a name without a slash becomes one of docker.io/library |
| `ImageRefs.PartsRead` | scripts/dev/f0n_nvidia_validate.py:716-721 | of two parts without a registry the first becomes an account of docker.io; a registry, or more parts, is left alone |
| `ImageRefs.HexIsId` | scripts/dev/f0n_nvidia_validate.py:724-733 | sixty-four hexadecimal digits in either case are an identifier |
| `ImageRefs.NormalizeIdIdempotent` | scripts/dev/f0n_nvidia_validate.py:724-733 | and so for identifiers |
| `ImageRefs.MergedKeepsOrder` | scripts/dev/f0n_nvidia_validate.py:763-778 | the references of the merged list come in the order of their first occurrence |
| `ImageRefs.MergedFacts` | scripts/dev/f0n_nvidia_validate.py:763-778 | they are distinct, normal, and exactly the non-empty normalised references of the input |
| `ImageRefs.FirstKnownIsFirst` | scripts/dev/f0n_nvidia_validate.py:776-777 | a reference's identifier is the first known one of the list, and none only if none is known |
| `ImageRefs.MergedIdempotent` | scripts/dev/f0n_nvidia_validate.py:763-778 | merging twice is merging once |
| `ImageRefs.OrderedUniqueSeedImages` | scripts/dev/f0n_nvidia_validate.py:763-778 | the dictionary-and-list loop computes the merged list |
| `SeedPlan.Classify` | scripts/dev/f0n_nvidia_validate.py:1108-1126 | the loop sorts the required references into missing, stale and fresh, each in order |
| `SeedPlan.NeededExactly` | scripts/dev/f0n_nvidia_validate.py:1108-1126 | a reference is missing or stale if and only if the guest does not hold it fresh |
| `SeedPlan.OrderedUniqueOf` | scripts/dev/f0n_nvidia_validate.py:698-707 | the loop keeps the first occurrences of the non-blank, trimmed strings |
| `SeedPlan.FilteredRefs` | scripts/dev/f0n_nvidia_validate.py:910-918 | filtering the groups keeps exactly the wanted references |
| `SeedPlan.NothingIsObsolete` | scripts/dev/f0n_nvidia_validate.py:935-940 | the clean-up's list of obsolete images is empty, since it is asked about required references only |
| `SeedPlan.FirstBundleIsNeeded` | scripts/dev/f0n_nvidia_validate.py:2367-2458 | the first bundle holds exactly the required references that are missing or stale |
| `SeedPlan.FullBundleHolds` | scripts/dev/f0n_nvidia_validate.py:2499-2506 | the bundle that is built after a reported purge holds exactly the required references |
| `SeedPlan.PartialImportRefreshes` | scripts/dev/f0n_nvidia_validate.py:2573-2610 | importing it makes all required images fresh if and only if no fresh one was lost since |
| `SeedPlan.FullImportRefreshes` | scripts/dev/f0n_nvidia_validate.py:2499-2506 | importing a full bundle makes them fresh whatever the guest held |
| `SeedCache.SeedRun.CleanUp` | scripts/dev/f0n_nvidia_validate.py:926-1005 | what is removed, what is reported, and that it fails when the reported space is short |
| `SeedCache.SeedRun.CopyBundle` | scripts/dev/f0n_nvidia_validate.py:2469-2567 | a copied bundle fits twice and one gibibyte (1073741824 bytes) into the reported space, even after the rebuild that follows a reported purge; the clean-up was asked for that room, and the run fails for space only if the room is short |
| `SeedCache.SeedRun.EnsureSeedCache` | scripts/dev/f0n_nvidia_validate.py:2270-2653 | "ready" means that all required images are fresh; with faithful commands it fails to get there if and only if an unreported clean-up lost a fresh image, and the bundle holds exactly the missing and stale images, or all required ones after a reported purge; if every command succeeds it fails only for known lack of space |
| `SeedCache.UnreportedPurge` | scripts/dev/f0n_nvidia_validate.py:977-989 | an instance: all commands succeed and the run ends with required images missing |
| `ListOutline.ParentIs` | docs/build_docs.py:1546-1549 | an item's parent is the nearest earlier item of strictly smaller indent, the root if there is none |
| `ListOutline.ClosingFindsParent` | docs/build_docs.py:1546-1551 | popping the stack of open items down to the first shallower one finds that parent |
| `ListOutline.ForestIsInInputOrder` | docs/build_docs.py:1557-1571 | read from the root, the forest has the items in the order of input |
| `MarkdownList.Close` | docs/build_docs.py:1546-1547 | the popping loop stops at the first shallower entry and never pops the sentinel |
| `MarkdownList.BuildList` | docs/build_docs.py:1534-1555 | the loop that changes nodes in place builds, for every item, a node with its text and exactly its children in order |
| `MarkdownList.TextIsKeptIff` | docs/build_docs.py:1539-1555 | the items hold the text of all lines if and only if the first line begins an item |
| `ListRendering.RenderNodes` | docs/build_docs.py:1557-1571 | the recursive loop over the nodes puts out the parts that the outline prescribes |
| `ListRendering.ListIsFaithful` | docs/build_docs.py:1557-1571 | what is put out is balanced and has the texts of all items in the order of input |
| `ListNesting.NestingIsDepth` | docs/build_docs.py:1534-1573 | every item's text stands in as many nested lists as its depth in the outline |
| `MarkdownBlocks.BlockAdvances` | docs/build_docs.py:1613-1752 | every block takes at least one line |
| `MarkdownBlocks.SpansPartition` | docs/build_docs.py:1611-1755 | the blocks' line ranges follow one another and cover every line that is not blank, up to an open code fence |
| `MarkdownBlocks.SpansAreSolid` | docs/build_docs.py:1611-1755 | only code blocks contain blank lines |
| `MarkdownBlocks.OnlyOpenCodeIsLost` | docs/build_docs.py:1616-1643 | the lines outside every block begin at a code fence that no later fence closes |
| `MarkdownBlocks.ListKeepsItsText` | docs/build_docs.py:1727-1747 | a list block keeps the text of its lines if and only if its first line is more than a dash and one white space |
| `MarkdownBlocks.DashAloneDropsText` | docs/build_docs.py:1539-1555 | an instance: two lines of a list and no item |
| `MarkdownContents.HeadingReads` | docs/build_docs.py:1695-1724 | a line of one to six hashes, a space and a text is the heading of that level and text |
| `MarkdownContents.HeadingsOnly` | docs/build_docs.py:1695-1724 | and there are no other headings |
| `MarkdownContents.HeadingIsPutOut` | docs/build_docs.py:1695-1724 | such a line, when it begins a heading block, puts out exactly that heading |
| `MarkdownContents.KindIff` | docs/build_docs.py:1634-1727 | only a table takes precedence over what its first line is otherwise; the other kinds of lines exclude each other |
| `MarkdownContents.FenceIff` | docs/build_docs.py:1638-1638 | a fence is three back quotes after white space |
| `MarkdownContents.RuleIff` | docs/build_docs.py:1647-1647 | a rule is at least three dashes between white space |
| `MarkdownContents.BulletIff` | docs/build_docs.py:1727-1727 | a bullet is a dash and a white-space character after white space |
| `MarkdownContents.HashIff` | docs/build_docs.py:1674-1674 | what ends a table or a list as a heading is a hash after white space |
| `MarkdownContents.CellsOfRow` | docs/build_docs.py:1575-1581 | a row's cells are trimmed parts without a bar that, joined by bars, give back the trimmed row with or without a bar at either end |
| `MarkdownContents.DashCellIff` | docs/build_docs.py:1656-1656 | the cells under a table's header are at least three dashes with or without a colon at either end |
| `MarkdownContents.ItemReads` | docs/build_docs.py:1539-1543 | white space, a dash, white space and more is an item, whose indent counts a tab twice and whose text is trimmed |
| `MarkdownContents.ItemsOnly` | docs/build_docs.py:1539-1543 | and there are no other items |
| `MarkdownContents.BlocksHold` | docs/build_docs.py:1611-1755 | every block holds what its lines say: a heading its level and text, code the lines strictly between its two fences, a table the cells of its rows, a paragraph its lines |
| `MarkdownContents.SpansAreMaximal` | docs/build_docs.py:1658-1747 | tables, lists and paragraphs take exactly the lines up to the first that cannot belong to them |
| `MarkdownCompiler.MdToHtml` | docs/build_docs.py:1506-1755 | the pass with its two buffers puts out exactly the blocks at those ranges, each holding what its lines say |
| `MarkdownCompiler.TakeTable` | docs/build_docs.py:1652-1688 | header and rows of a table |
| `Ranking.NormKeepsOrder` | docs/build_docs.py:2062-2067 | scores keep the order of the values |
| `Ranking.NormIsProportional` | docs/build_docs.py:2062-2067 | the best value scores 0, the worst 1 unless all are equal, and the others in proportion |
| `Ranking.ComparedIff` | docs/build_docs.py:2117-2134 | a comparison counts if and only if at least two columns have a value |
| `Ranking.AddTotals` | docs/build_docs.py:2117-2134 | the nested loops add up scores and comparisons of every column, over comparisons of at least two |
| `Ranking.Rankings` | docs/build_docs.py:2135-2147 | the adjusted score is the sum of the scores plus one for each missing comparison, over the most comparisons of any column |
| `Ranking.RankIsOnScale` | docs/build_docs.py:2141-2146 | it lies between 0 and 1 and is at least the missing coverage |
| `Ranking.DominanceIsKept` | docs/build_docs.py:2062-2147 | a column compared wherever another is, and never worse, ranks no worse and is covered no less |
| `StreamFailover.OneChannelPerTail` | docs/static/labs.js:2291-2388 | in every run, after every turn: at most one open source and one retry timer per tail, and never a source and a poll interval together |
| `StreamFailover.EventsKeepFlowing` | docs/static/labs.js:2339-2385 | after a stream error the event tail has a source or a poll interval, after every turn until it is stopped |
| `StreamFailover.LogsKeepFlowing` | docs/static/labs.js:2431-2483 | and so the log tail |
| `StreamFailover.RetryGoesOnIff` | docs/static/labs.js:2328-2338 | after a retry fires, a polling event tail has another one pending if and only if a session is open, the orchestrator is available and streaming is enabled |
| `StreamFailover.LogsRetryGoesOnIff` | docs/static/labs.js:2422-2443 | a polling log tail has another one pending if and only if the logs are observed |
| `StreamFailover.TurnKeepsInv` | docs/static/labs.js:855-1056 | every event-loop turn keeps the invariant of both tails, which includes that an open source means an expired cooldown |
| `StreamTail.ConnectKeepsInv` | docs/static/labs.js:2342-2379 | so does opening a source, even when the constructor throws |
| `LabsPage.LiveTail.Start` | docs/static/labs.js:2342-2379 | keeps the tail in order and leaves a source, or a poll interval with a retry pending |
| `StreamFailover.TwoErrorsPauseStreaming` | docs/static/labs.js:991-1034 | in every run an error of the page's stream panel pauses streaming if and only if an earlier one lies within 8 seconds with no session opened in between; the events are then polled |
| `StreamFailover.PausedStaysPaused` | docs/static/labs.js:1020-1034 | until a session is opened streaming stays paused and no event source is opened |
| `StreamTurns.StoppingLeavesNothing` | docs/static/labs.js:866-943 | in every run: after the end of a session, a local session without an orchestrator and the end of the observation, neither tail has a source, an interval or a timeout |
| `StreamTurns.IdleTurns` | docs/static/labs.js:866-1034 | where such a turn, a second start of the observation or an error of a paused panel has no effect, it changes nothing |
| `StreamTurns.SwitchingLeavesNothingOld` | docs/static/labs.js:350-911 | a new session and a switch of the interface leave no source, interval or timeout from before |
| `StreamTurns.SessionStreamsIff` | docs/static/labs.js:895-915 | a server session streams its events at once if and only if the orchestrator is available and the source opens; otherwise it polls and retries thirty seconds later |
| `StreamTurns.RetryStreamsIff` | docs/static/labs.js:2328-2385 | a retry of the polling event tail opens a stream if and only if a session is open, the orchestrator is available, streaming is not paused, the cooldown is over and the source opens |
| `StreamTurns.LogsRetryStreamsIff` | docs/static/labs.js:2422-2483 | and so the log tail, while the logs are observed |
| `StreamTurns.NoStreamInCooldown` | docs/static/labs.js:2342-2385 | after an error of the events stream no stream is opened for thirty seconds, unless a turn stops the tail first |
| `StreamTurns.StartingTurns` | docs/static/labs.js:1036-1056 | arming, observing and switching start the tails whose guards are open |
| `StreamWitness.RetryWithoutSuccessor` | docs/static/labs.js:1929-1932 | a run in which the session is reset and the pending retry fires with nothing pending afterwards |
| `LabsPage.Labs.HandleSseError` | docs/static/labs.js:991-1034 | streaming is disabled afterwards if and only if it was, or the counter holds an error at most 8 seconds old; disabling it leaves the events polling |
| `LabsPage.Labs.Handle` | docs/static/labs.js:855-1056 | every callback changes the page as the state machine says, keeps both tails in order, and leaves nothing of them open when it is to stop both |
| `MemAggregate.AddedIsConserved` | scripts/bench/mem_aggregate.py:470-485 | adding a process to a bucket and to the totals keeps them equal |
| `MemAggregate.ClassInK3s` | scripts/bench/mem_aggregate.py:424-458 | in k3s a process has the class of the first of four names that it has |
| `MemAggregate.ClassElsewhere` | scripts/bench/mem_aggregate.py:424-458 | elsewhere controller, ingress, runtime and other take precedence in that order, and a process of another lane's group is ignored |
| `MemAggregate.ShimsAreIgnored` | scripts/bench/mem_aggregate.py:424-458 | a process with a shim's name is ignored everywhere |
| `MemAggregate.NamesOfGroups` | scripts/bench/mem_aggregate.py:328-344 | which names each runtime group has |
| `MemAggregate.GroupIsFirst` | scripts/bench/mem_aggregate.py:328-344 | a process has the group of the first of its names that has one |
| `MemAggregate.LanesOfGroups` | scripts/bench/mem_aggregate.py:302-325 | which modes and engines admit each group |
| `MemAggregate.AggregateProcs` | scripts/bench/mem_aggregate.py:460-528 | after every fill-in the totals are the buckets' sum, the overhead and "other"; every bucket is its class's total or the measurement that filled its gap |
| `MemAggregate.GroupStats` | scripts/bench/mem_aggregate.py:350-373 | every runtime group has the size of the processes counted in it, and all groups together that of all counted processes |
| `MemAggregate.PassesReconcile` | scripts/bench/mem_aggregate.py:302-458 | outside k3s the groups exceed the runtime bucket by the shims that the lane admits and the processes that match two conflicting classes |
| `MemAggregate.RuntimeReconciles` | scripts/bench/mem_aggregate.py:350-458 | they agree, up to those shims, if and only if no process with memory conflicts |
| `MemAggregate.PassesCanDisagree` | scripts/bench/mem_aggregate.py:350-458 | an instance: a containerd whose command line names the controller |
| `ContainerTotals.AddContainers` | scripts/bench/mem_aggregate.py:573-643 | each side counts its measured rows, and adds each control group's first row and all rows without one |
| `ContainerTotals.AppRows` | scripts/bench/mem_aggregate.py:573-643 | which rows belong to the application: by label, or by name when the labels are not known, and none of k3s |
| `ContainerTotals.TotalIsAtMostNaive` | scripts/bench/mem_aggregate.py:629-643 | the totals never exceed the plain sums |
| `ContainerTotals.OrderDoesNotMatter` | scripts/bench/mem_aggregate.py:606-643 | the totals do not depend on the order of the rows when rows of a side that share a control group agree on its size |
| `Monitors.ParseCriSample` | scripts/bench/wait_rollout_steady.py:103-168 | the sample's revisions, presence, container count and orphans, as sets over the listings |
| `Monitors.SteadyMeans` | scripts/bench/wait_rollout_steady.py:24-26 | a sample is steady if and only if the app is there, exactly one revision is named, and every container of the app is in a listed pod |
| `Monitors.WaitSteady` | scripts/bench/wait_rollout_steady.py:273-301 | the wait ends at the first poll that ends it: well at the first that completes max(stable polls, 1) ready ones in a row, all with the app there, one revision and no orphan; else when the deadline had passed or collecting failed |
| `Monitors.WaitForIngress` | scripts/dev/ha_core_node_smoke.py:568-633 | the wait aborts exactly when five probes in a row have met one of the statuses 404, 502 and 503, not the expected one, for the first time, if it did not succeed or expire before |
| `Labels.StageIsSuffixFree` | scripts/bench/label_backfill.py:82-82 | what follows a dash inside a stage is no stage |
| `Labels.SplitOfJoin` | scripts/bench/label_backfill.py:85-89 | a head and a stage are found again in their label, whatever the head is |
| `Labels.SplitRejoins` | scripts/bench/label_backfill.py:85-89 | a label is its head, a dash and its stage, perhaps with a line break |
| `Labels.SplitLosesNothingIff` | scripts/bench/label_backfill.py:82-89 | splitting loses nothing if and only if no line break follows the stage |
| `Labels.LineBreakIsDropped` | scripts/bench/label_backfill.py:82-89 | an instance |
| `Labels.StageIsKept` | scripts/bench/label_backfill.py:108-142 | normalising keeps the stage for every backend, mode and runtime |
| `Labels.StagesRead` | scripts/bench/label_backfill.py:82-82 | the words idle, pods-N and rollout-N with its three endings are stages |
| `Labels.StagesOnly` | scripts/bench/label_backfill.py:82-82 | and there are no other stages |
| `Labels.LabelsAreCanonical` | scripts/bench/label_backfill.py:108-142 | whatever followed the backend's marker, a label becomes its stamp, the marker, the runtime, the backend's ending and the stage |
| `Labels.CriLabelChangesRuntime` | scripts/bench/label_backfill.py:131-136 | a canonical label of the CRI backend changes its runtime and nothing else |
| `Labels.NormalizeIdempotent` | scripts/bench/label_backfill.py:108-142 | normalising twice is normalising once, for the CRI backend when the runtime's name is plain |
| `Labels.CriIdempotentIff` | scripts/bench/label_backfill.py:131-136 | and for the CRI backend that condition is needed |

## Left out

- CriInterleaving.NormalExit: does not promise a pod after every normal exit, because an unlocked removal may take it; `CriHistory.NormalExitLeavesPod` promises it when none has appeared.
- CriProtocol: removing a pod (`stopp` and `rmp`) is taken to remove it and its containers; payloads, mounts, images, the database's data directory and the printed lines are not modelled.
- Other tools that remove pods of the runtime, such as scripts/dev/host_a_netfs_lane.py:731-734, are taken to be idle.
- MeshActivity.BuildScene: positions are arbitrary: distances and coordinates are any real-valued functions; the kinds and reveal ranks of links are not part of the scene; node identifiers are registration indices; the share of query targets taken for inference is 7/10 rounded down, without floating-point rounding; where the source raises, the methods report failure.
- Polygon.PointInState: exact reals; so are Polyline and Ranking.
- ImageRefs.NormalizeIdIdempotent: case folding is that of ASCII letters.
- SeedCache.SeedRun.EnsureSeedCache: a failed import leaves the guest as it was in the model; artifact files, progress messages and the summary of the selected image are not modelled; nobody else changes the guest during the run.
- MarkdownCompiler.MdToHtml: inline formatting, HTML escaping, heading identifiers and raw HTML paragraphs are not modelled; blocks carry the lines' text.
- Ranking.Rankings: the final sort and the coverage threshold, which only choose what is shown.
- StreamFailover.OneChannelPerTail: the status source, rendering and HTTP polling are not modelled.
- MemAggregate.AggregateProcs: how names are cut out of command lines, and the parsing of the raw files, are inputs; process counts, means and rounding are left out.
- ContainerTotals.AddContainers: the lookup of inspect data is an input; so is the k3s replacement of a zero application total.
- Monitors.ParseCriSample: matching an item to the app and finding its revision are inputs.
- Labels.CriIdempotentIff: digits are the ASCII digits.
- The controller, scheduler and gateway sources, and the tools whose substance is in them (snapshots, recovery, drills, fabric assurance).
- Drawing, plots, page templates, the recorder, and random placement of nodes.
- Uniqueness of heading identifiers, which an explicit identifier can break.
