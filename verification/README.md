# Block layer and AES of a 2.6.35 kernel, modelled and proved

A model in Dafny of the parts of the kernel's block layer, and of its generic AES, whose
correctness is a matter of many operations together. Everything is stated for all inputs,
all runs or all reachable states. `dafny verify dfyconfig.toml` checks the whole project.

How it is put together: for each component there are datatypes and functions that say what
the code does, branch by branch; classes whose methods do it in place, with the code's
loops, each proved equal to the function; and lemmas that say what follows over whole runs.
A run is any sequence of enabled steps: a callback runs under the queue lock, so it is one
step. Only the tag map is shared without that lock, and there every access is a step.

- **Ordered writes** (`Requests`, `Tallies`, `BarrierModel`, `BarrierSequence`,
  `BarrierPlaces`, `BarrierDrain`, `BarrierTheorems`, `BarrierTag`, `BarrierQueue`): a
  barrier is replaced by up to three proxies, and one colour bit separates what was
  submitted before it from what came after. Submissions carry a number and the count of
  earlier barriers as labels, which no operation looks at.
- **Sorted dispatch** (`DispatchSort`): the one-way elevator order of the dispatch queue.
- **CFQ** (`CfqModel`, `CfqInvariant`, `CfqData`, `CfqNext`): queues of cooperating
  processes linked for merging, with references taken ahead; and the choice of the next
  request from its neighbours.
- **Merging** (`Segments`, `SegmentCosts`, `RequestMerge`, `MergeRuns`, `MergeNeeds`,
  `SegmentLoops`, `BioPages`): segment counts kept step by step against the greedy split that
  fills the scatter-gather list.
- **Completion** (`Completion`, `CompletionLoop`): requests completed some bytes at a time.
- **AES** (`AesField`, `AesCipher`, `AesKey`, `AesContext`): the table-driven cipher against
  FIPS 197. The tables are the formulas they tabulate, over any S-box with an inverse.
- **BFQ** (`BfqTree`, `RbTree`, `RbErase`, `RbBalance`, `BfqService`, `IdLists`, `BfqModel`, `BfqWeights`,
  `BfqRuns`, `BfqTuning`, `BfqData`): the augmented tree with its rebalancing, and the weights and
  budgets of the scheduler without groups.
- **Deadline** (`DeadlineModel`, `DeadlineInvariant`, `DeadlineRuns`, `DeadlineReads`,
  `DeadlineData`).
- **Tags** (`Tags`): one tag map shared by several queues.

## Where the code does not do what one would expect

Each has a concrete case and the exact condition.

- Plain tag ordering: an empty barrier has no command to carry a tag and falls back to
  draining, for which requests sent earlier have the wrong colour. A run of eight steps ends
  with a sequence that waits with the driver empty (`PlainTagGetsStuck`). It goes on waiting
  whatever fs requests are submitted (`BlockedForGood`), until a request that is not one is
  put in front of the queue and completes (`FrontUnblocks`). No other mode can get there
  (`ProgressByMode`, both directions).
- BFQ's walk does not look right of an entity that is not eligible once it has met one that
  is (`WalkMisses`). It returns the first eligible entity if and only if the node where it
  stops is eligible (`WalkIsFirstIff`).
- A partial completion of the queue's barrier stand-in moves on in a bio without reducing
  the bio's recorded size, so the request may not end with its last byte (`BarDoesNotEnd`). It
  does if and only if every report stops at the end of a bio (`BarEndsIff`); a report that does
  not also leaves the chain unsound (`BarKeepsIff`, both directions).
- Adding data to a bio that was counted meanwhile, in its last page or as a new piece, leaves
  the recorded sizes of its outer segments as they were. The bio stays right if and only if its
  pieces cost no more segments than it counts, where an outer segment larger than recorded
  costs one more (`AddPageKeepsIff`); for a last piece with a gap before it, if and only if the
  recorded size covers it or a segment is to spare (`LonePieceKeepsIff`; `LastPieceKeepsIff` is
  for any last piece). Otherwise a request can map to more entries than it counts:
  `GrownByAddPage` and `TooFewCounted` are a case, `WrongBioFails` finds a run for every such
  bio, and `CheckIsExact` is both directions.
- BFQ's header says that the priority in use and the one asked for are synchronized when the
  change is made. A change of priority does not reset the weight asked for, so the next update
  goes back to it (`PriorityGoesBack`). The two are synchronized if and only if one of them is
  the priority the queue was allocated with (`PriorityTakesEffectIff`).
- A queue is allocated without a weight and gets one at its first activation. Asking for another
  priority before that, and only that, can leave it with none later, where the code asserts
  that it has one: `EarlyLoses` gives the run, `TooEarlyIff` both directions. In all other runs
  it always has one (`NoWeightIsLost`).
- CFQ's neighbour search can miss a metadata request (`MixedFlagsMiss`). It finds the best
  request if and only if the best of the highest-ranked ones alone is among those it looks at
  (`NeighboursSufficeIff`); with the same flags on all requests of a queue that is always so
  (`NeighboursSuffice`).

## Model

| member | source | states |
|---|---|---|
| `BarrierTheorems.BarrierSafety` | Kernel/block/blk-barrier.c:154-280 | in every state a drain-mode queue reaches by any order of additions, dispatches, hand-overs, requeues and completions: a proxy at the driver has no uncompleted fs request submitted before its barrier, an fs request at the driver has no unended barrier before it, an ended barrier waited for everything before it, and a running sequence always has something to hand over once the driver is empty |
| `BarrierTheorems.BarriersEndOnce` | Kernel/block/blk-barrier.c:92-130 | in every mode and every run barriers end in submission order, once each, with the first error reported; a sequence runs exactly while a step of it is unfinished; every proxy at the driver is for an unfinished step |
| `BarrierTheorems.ColorIsRight` | Kernel/block/blk-barrier.c:63-90 | one colour bit is enough: an fs request at the queue head during a sequence is classed DRAIN exactly when it was submitted before the barrier, and nothing there belongs to a step already over, so the warning in `blk_do_ordered` never fires |
| `BarrierTheorems.QueueInSequenceOrder` | Kernel/block/elevator.c:664-692 | while a sequence runs the dispatch queue, requeued requests included, holds earlier requests, then the proxies in order, then later requests |
| `BarrierTheorems.ProxyWaits` | Kernel/block/blk-barrier.c:236-280 | a proxy is at the driver only when every earlier fs request has completed |
| `BarrierTheorems.LaterWaits` | Kernel/block/blk-barrier.c:236-280 | an fs request is at the driver only when every barrier submitted before it has ended |
| `BarrierTheorems.EndedWaited` | Kernel/block/blk-barrier.c:92-112 | a barrier has ended only when everything submitted before it has completed |
| `BarrierTheorems.DrainedMeansDone` | Kernel/block/elevator.c:837-867 | the DRAIN bit is set only when every earlier fs request has completed |
| `BarrierTheorems.PastIsDone` | Kernel/block/blk-barrier.c:154-280 | a submission that can be in no queue, at no driver and in no running sequence has completed |
| `BarrierTheorems.NeverStuck` | Kernel/block/blk.h:54-69 | with a sequence running and nothing at the driver the head-of-line loop returns a request |
| `BarrierTheorems.RunsKeepInv` | Kernel/block/blk-barrier.c:154-280 | the drain-mode invariant holds after every run |
| `BarrierTag.ProgressByMode` | Kernel/block/blk-barrier.c:154-234 | of the seven ordering modes exactly plain tag ordering can reach a state in which a sequence runs, the driver has nothing and nothing is handed to it, over all runs that keep the mode |
| `BarrierTag.PlainTagGetsStuck` | Kernel/block/blk-barrier.c:163-181 | a concrete run of eight steps in plain tag mode after which an empty barrier, which falls back to draining, waits for a request queued behind it |
| `BarrierTag.BlockedForGood` | Kernel/block/blk-barrier.c:236-280 | from such a state every run, with any submissions, dispatches and requests by the driver, stays stuck as long as nothing is put in front of the dispatch queue, where no fs request goes |
| `BarrierTag.FrontUnblocks` | Kernel/block/elevator.c:851-865 | and a request that is not an fs request, put in front, does help: its completion ends the drain step |
| `BarrierTag.StepKeepsModeInv` | Kernel/block/blk-barrier.c:154-280 | what each mode other than plain tag keeps in every step |
| `BarrierSequence.StepKeepsSeqInv` | Kernel/block/blk-barrier.c:92-280 | every step keeps the sequence invariant: pending proxies are exactly the unfinished steps, queued barriers are numbered without a gap and coloured by parity, ended barriers are in order |
| `BarrierSequence.RunsKeepSeqInv` | Kernel/block/blk-barrier.c:92-280 | the same over every run |
| `BarrierSequence.ReturnedSteps` | Kernel/block/blk-barrier.c:92-130 | a completing proxy's step is never finished already: the two assertions of the completion routine cannot fail |
| `BarrierSequence.CompleteSeqKeeps` | Kernel/block/blk-barrier.c:92-112 | completing steps ends the barrier exactly when all steps are then finished, and keeps the invariant either way |
| `BarrierSequence.NextBarrierWaits` | Kernel/block/blk-barrier.c:63-90 | a second barrier at the head has the other colour and waits |
| `BarrierSequence.StartOrderedKeeps` | Kernel/block/blk-barrier.c:154-234 | replacing a barrier by its proxies and skipping unused steps keeps the invariant; what is handed over is the first proxy |
| `BarrierSequence.DoOrderedKeeps` | Kernel/block/blk-barrier.c:236-280 | the ordering decision keeps the invariant and never hands over a barrier itself |
| `BarrierSequence.RequeueKeeps` | Kernel/block/elevator.c:553-568 | giving a request back keeps the invariant |
| `BarrierSequence.CompleteKeeps` | Kernel/block/elevator.c:837-867 | completing any request, proxy or not, keeps the invariant |
| `BarrierSequence.AddKeeps` | Kernel/block/elevator.c:709-744 | adding a request, with the colour flip of a barrier, keeps the invariant |
| `BarrierPlaces.StepKeepsPlaceInv` | Kernel/block/elevator.c:612-867 | conservation: every submission is in exactly one of elevator, dispatch queue, driver, running sequence or done, and the in-flight count is exact, in every step |
| `BarrierDrain.StepKeepsInv` | Kernel/block/blk-barrier.c:154-280 | every step of a drain-mode queue keeps the full invariant |
| `BarrierDrain.ColorTells` | Kernel/block/blk-barrier.c:63-90 | up to the first later fs request the colour decides an fs request's side of the barrier, however many barriers are queued |
| `BarrierDrain.RunningIssues` | Kernel/block/blk-barrier.c:258-277 | what a running sequence lets through is an earlier request while draining, then the proxy whose turn it is |
| `BarrierDrain.DrainedWhenIdle` | Kernel/block/elevator.c:851-865 | when the completion-time drain check finds no earlier request at the head there is none in the queue |
| `BarrierModel.DoOrderedShrinks` | Kernel/block/blk.h:54-69 | each turn of the head-of-line loop makes the dispatch queue shorter or stops, so the loop ends |
| `BarrierModel.RequeueIndex` | Kernel/block/elevator.c:664-692 | the requeue position: after all requests of earlier steps, before the first that is not earlier |
| `BarrierQueue.RequestQueue.CompleteSeq` | Kernel/block/blk-barrier.c:92-112 | the fields after the call are those of the specification `CompleteSeq` |
| `BarrierQueue.RequestQueue.QueueProxies` | Kernel/block/blk-barrier.c:132-212 | the proxies are inserted at the front in reverse so that they stand in order; skipped steps are reported |
| `BarrierQueue.RequestQueue.BeginSequence` | Kernel/block/blk-barrier.c:154-199 | mode, step bits, error and original barrier after a sequence begins |
| `BarrierQueue.RequestQueue.StartOrdered` | Kernel/block/blk-barrier.c:154-234 | the in-place routine computes the specification's new queue and decision |
| `BarrierQueue.RequestQueue.DoOrdered` | Kernel/block/blk-barrier.c:236-280 | the in-place ordering decision equals the specification's |
| `BarrierQueue.RequestQueue.NextRequest` | Kernel/block/blk.h:54-69 | the nested loop equals the recursive specification |
| `BarrierQueue.RequestQueue.Peek` | Kernel/block/blk-core.c:1793-1822 | marks the request started and returns it |
| `BarrierQueue.RequestQueue.Fetch` | Kernel/block/blk-core.c:1877-1950 | hands the request to the driver and counts it in flight |
| `BarrierQueue.RequestQueue.RequeuePoint` | Kernel/block/elevator.c:664-692 | the scan loop finds the specification's position |
| `BarrierQueue.RequestQueue.Requeue` | Kernel/block/elevator.c:553-568 | the request returns to that position and the invariant is kept |
| `BarrierQueue.RequestQueue.CompletedRequest` | Kernel/block/elevator.c:837-867 | in-flight count and drain check after a completion |
| `BarrierQueue.RequestQueue.Complete` | Kernel/block/blk-barrier.c:114-130 | a completion with the step it finishes |
| `BarrierQueue.RequestQueue.DrainElevator` | Kernel/block/elevator.c:570-582 | the forced-dispatch loop empties the elevator as specified |
| `BarrierQueue.RequestQueue.Add` | Kernel/block/elevator.c:709-744 | colouring, insertion by place, register; the invariant is kept |
| `DispatchSort.DispatchSorted` | Kernel/block/elevator.c:413-449 | the backward scan inserts at the specification's index |
| `DispatchSort.StaysInRun` | Kernel/block/elevator.c:413-449 | a request is carried past nothing but requests of its own direction and kind with no barrier or started flag, and stops at the first that it may not pass |
| `DispatchSort.SortKeepsSweep` | Kernel/block/elevator.c:413-449 | the tail run stays in one-way elevator order around the boundary; a request stands before the new one exactly when the sweep meets it no later |
| `DispatchSort.IssueKeepsSweep` | Kernel/block/blk-core.c:1817-1820 | issuing the first request of a run of disjoint requests and moving the boundary to its end leaves the rest in the order of the new sweep |
| `DispatchSort.SortIsAMove` | Kernel/block/elevator.c:413-449 | sorted dispatch is one of the moves over which barrier safety is proved |
| `CfqInvariant.RefsBalanced` | Kernel/block/cfq-iosched.c:1974-2024 | in every run of request set-up and release, merge set-up, merges, splits and exits from an empty scheduler: a live queue's references less its requests equal the processes whose queue reaches it along merge links, the links form a forest of live queues, counts never go negative, and when processes and requests are gone no queue is left |
| `CfqInvariant.StepKeepsInv` | Kernel/block/cfq-iosched.c:3572-3635 | every step keeps references balanced and links acyclic |
| `CfqInvariant.RunsKeepInv` | Kernel/block/cfq-iosched.c:1974-2024 | the same over every run |
| `CfqInvariant.SetupMergeKeeps` | Kernel/block/cfq-iosched.c:1984-2024 | scheduling a merge, whichever way it is linked or refused, keeps the balance |
| `CfqInvariant.LinkKeeps` | Kernel/block/cfq-iosched.c:2010-2023 | linking the end of one chain to another queue moves exactly the references taken |
| `CfqInvariant.TailIsEnd` | Kernel/block/cfq-iosched.c:1990-2002 | following a chain meets only live queues and ends, or meets the queue itself |
| `CfqInvariant.LeaveKeeps` | Kernel/block/cfq-iosched.c:2572-2603 | a process that leaves drops one reference on every queue of its chain; queues then unreferenced are freed and nothing else refers to them |
| `CfqInvariant.MergeKeeps` | Kernel/block/cfq-iosched.c:3537-3546 | moving a process one link along its chain keeps the balance |
| `CfqInvariant.SplitKeeps` | Kernel/block/cfq-iosched.c:3552-3568 | breaking a shared queue apart keeps the balance |
| `CfqInvariant.GetQueueKeeps` | Kernel/block/cfq-iosched.c:2888-2915 | a new queue starts with one process and one reference |
| `CfqInvariant.AllocateKeeps` | Kernel/block/cfq-iosched.c:3617-3626 | a request takes one reference and one count |
| `CfqInvariant.PutRequestKeeps` | Kernel/block/cfq-iosched.c:3514-3535 | releasing a request finds its queue live with positive counts and keeps the balance |
| `CfqInvariant.NothingLeft` | Kernel/block/cfq-iosched.c:2458-2484 | with no process and no request left every queue has been freed |
| `CfqInvariant.LastRequest` | Kernel/block/cfq-iosched.c:3514-3535 | a request whose release frees the queue was its last |
| `CfqData.Scheduler.ProcessRefs` | Kernel/block/cfq-iosched.c:1974-1982 | references not held by requests |
| `CfqData.Scheduler.PutQueue` | Kernel/block/cfq-iosched.c:2458-2484 | drops a reference, frees the queue at zero |
| `CfqData.Scheduler.PutCooperator` | Kernel/block/cfq-iosched.c:2572-2591 | the loop along the merge chain drops each link's reference, as specified |
| `CfqData.Scheduler.LeaveQueue` | Kernel/block/cfq-iosched.c:2593-2603 | chain first, then the queue itself |
| `CfqData.Scheduler.SetupMerge` | Kernel/block/cfq-iosched.c:1984-2024 | the loop to the end of the chain and the choice of direction equal the specification |
| `CfqData.Scheduler.MergeCfqqs` | Kernel/block/cfq-iosched.c:3537-3546 | the process now uses the next queue of its chain |
| `CfqData.Scheduler.SplitCfqq` | Kernel/block/cfq-iosched.c:3552-3568 | the last sharer keeps the queue, any other leaves it |
| `CfqData.Scheduler.SetRequest` | Kernel/block/cfq-iosched.c:3572-3635 | queue look-up, split, merge and the request's reference, with the invariant kept |
| `CfqData.Scheduler.PutRequest` | Kernel/block/cfq-iosched.c:3514-3535 | counts and reference of a released request, with the invariant kept |
| `CfqNext.NeighboursSuffice` | Kernel/block/cfq-iosched.c:765-787 | with the same flags on all requests, the neighbour-only search returns the request preferred to every other of the tree, and nothing only when there is no other |
| `CfqNext.BestIsUnique` | Kernel/block/cfq-iosched.c:631-717 | there is at most one request preferred to all others |
| `CfqNext.PreferenceTransitive` | Kernel/block/cfq-iosched.c:631-717 | preference between requests with the same flags is transitive |
| `CfqNext.BehindOrder` | Kernel/block/cfq-iosched.c:631-717 | behind the head the nearest request in reach is preferred, and of those out of reach the lowest |
| `CfqNext.NeighboursSufficeIff` | Kernel/block/cfq-iosched.c:765-787 | with any flags: the search returns the best request exactly when the one it would pick among the highest-ranked requests alone is a neighbour of the last request, or the first of all when that one is at the end; and it then returns that one |
| `CfqNext.TopIsBest` | Kernel/block/cfq-iosched.c:631-717 | searched alone, the highest-ranked requests always yield the best request of the whole tree |
| `CfqNext.TopFacts` | Kernel/block/cfq-iosched.c:645-652 | the highest-ranked requests are those that no other outranks by its flags; they are in sector order, share their flags, and there is one |
| `CfqNext.MixedFlagsMiss` | Kernel/block/cfq-iosched.c:765-787 | a concrete tree with a metadata flag on one request only, which the search misses |
| `Segments.GreedyIsMinimal` | Kernel/block/blk-merge.c:118-170 | the greedy split has no more parts than any split the hardware allows, and when it has as many its last part is no longer |
| `Segments.SplitIsSegmented` | Kernel/block/blk-merge.c:118-170 | the greedy split is an allowed split of exactly the given pieces, in order |
| `Segments.EntriesCover` | Kernel/block/blk-merge.c:118-170 | the entries of a split cover exactly the bytes of its pieces, in order |
| `Segments.BoundedJoin` | Kernel/block/blk-merge.c:88-112 | joining two counted lists at edges that fit by their recorded sizes needs one segment less, with the recorded outer sizes |
| `Segments.BoundedAppend` | Kernel/block/blk-merge.c:203-222 | appending two counted lists adds their counts |
| `Segments.BoundedIsEnough` | Kernel/block/blk-merge.c:118-170 | a count that some split bears out bounds the greedy split |
| `SegmentCosts.BoundedIff` | Kernel/block/blk-merge.c:12-70 | a count with recorded outer sizes is right for a list exactly when it is at least a cost that one greedy pass computes: its segments, and one more for each outer segment larger than recorded |
| `SegmentCosts.CostIsLeast` | Kernel/block/blk-merge.c:12-70 | no split of the list costs less |
| `RequestMerge.RecountEstablishes` | Kernel/block/blk-merge.c:12-70 | counting afresh makes the count and the outer sizes right, whatever was recorded |
| `RequestMerge.BackMergeKeeps` | Kernel/block/blk-merge.c:224-246 | appending a bio, accepted or refused, keeps the request's count right and its pieces in order |
| `RequestMerge.FrontMergeKeeps` | Kernel/block/blk-merge.c:248-271 | the same for a bio put in front |
| `RequestMerge.SharedKeeps` | Kernel/block/blk-merge.c:289-300 | recording the size of a shared segment keeps both requests' counts right even if the merge is then refused |
| `RequestMerge.MergeRequestsKeeps` | Kernel/block/blk-merge.c:273-308 | merging two requests, or refusing to, keeps both counts right; the pieces are those of the first, then of the second |
| `RequestMerge.MergesWithinLimits` | Kernel/block/blk-merge.c:203-271 | a bio is merged exactly when sectors and segments together are within the limits; a refusal changes neither count nor length |
| `RequestMerge.PairsWithinLimits` | Kernel/block/blk-merge.c:273-405 | two requests are merged exactly when they are neighbours that may merge and together are within the sector and segment limits, a shared segment counted once; a refusal changes neither count nor length |
| `RequestMerge.PreparedIsOk` | Kernel/block/blk-core.c:2368-2383 | a request made of one bio counts right |
| `MergeRuns.SegmentsSuffice` | Kernel/block/blk-merge.c:12-308 | for every request that any run of submissions, merges, refused merges and partial completions leaves in a queue, the scatter-gather list has at most the counted number of entries and holds exactly the request's bytes in order, as long as the bios submitted are right; MergeNeeds.CheckIsExact shows that this cannot be weakened |
| `MergeRuns.StepKeeps` | Kernel/block/blk-merge.c:203-308 | every step that brings in no wrong bio keeps every request's count right |
| `MergeRuns.RunsKeep` | Kernel/block/blk-merge.c:203-308 | the same over every run |
| `MergeRuns.OkMaps` | Kernel/block/blk-merge.c:118-170 | a request whose count is right maps within it |
| `MergeNeeds.CheckIsExact` | Kernel/block/blk-merge.c:12-308 | a submitted bio passes a check that its submitter can make (its count is not trusted or is at least the cost of its pieces) if and only if every run that submits it along with right bios maps every request within its count, given room for neighbours |
| `MergeNeeds.WrongBioFails` | Kernel/block/blk-merge.c:273-308 | for every trusted bio that is not right, a run of at most five steps that ends with a request of more entries than it counts |
| `MergeNeeds.FlankedCost` | Kernel/block/blk-merge.c:88-112 | a list that is not right, between neighbours that fill its outer segments up as recorded, needs more segments than are counted for the three |
| `SegmentLoops.CountSegments` | Kernel/block/blk-merge.c:12-70 | the counting loop computes the specified count and sizes |
| `SegmentLoops.MapBios` | Kernel/block/blk-merge.c:118-170 | the mapping loop emits the entries of the greedy split |
| `SegmentLoops.Trusted` | Kernel/fs/bio.c:428-434 | counts a bio unless it is already counted |
| `SegmentLoops.Request.constructor` | Kernel/block/blk-core.c:2368-2383 | the request of one bio |
| `SegmentLoops.Request.Recalculate` | Kernel/block/blk-merge.c:12-75 | the request's own recount |
| `SegmentLoops.Request.MapSg` | Kernel/block/blk-merge.c:118-170 | the list, and that it fits the count and holds the bytes when the count is right |
| `SegmentLoops.Request.BackMerge` | Kernel/block/blk-core.c:1213-1234 | limits, counts and list of bios after a back merge equal the specification's |
| `SegmentLoops.Request.FrontMerge` | Kernel/block/blk-core.c:1236-1268 | the same for a front merge, with the request's new sector |
| `SegmentLoops.Request.Absorb` | Kernel/block/blk-merge.c:273-430 | both requests after an attempted merge equal the specification's |
| `BioPages.AddPageKeepsIff` | Kernel/fs/bio.c:519-630 | after any addition, in the last page or as a new piece, accepted or refused: a bio that is still trusted is right exactly when the cost of its pieces, given the recorded outer sizes, is no more than its count |
| `BioPages.LonePieceKeepsIff` | Kernel/fs/bio.c:540-626 | when the last piece, new or grown in its page, has a gap before it: exactly when the recorded size of the last segment covers it or a segment is to spare; for the only piece the same with both sizes |
| `BioPages.LastPieceKeepsIff` | Kernel/fs/bio.c:540-626 | for any last piece, joined to the one before it or not: exactly when the segments of the pieces before it, one more unless it goes on with the last of them, one more if the first piece is larger than the recorded first segment, and one more if the last segment as it now is is larger than recorded, are no more than are counted |
| `SegmentCosts.FrontSplitMore` | Kernel/block/blk-merge.c:12-70 | one piece more goes on with the last segment or starts another, and changes nothing before it |
| `BioPages.LoneCost` | Kernel/fs/bio.c:621-626 | such a piece costs one segment, and one more if it is larger than recorded |
| `BioPages.GrownByAddPage` | Kernel/fs/bio.c:540-626 | a concrete bio that is right and grows past a recount in two ways, by a whole page at once or by half a kilobyte and then the rest of that page, into one that is trusted and wrong |
| `BioPages.GrownFails` | Kernel/block/blk-merge.c:273-308 | the general result gives a run in which it fails |
| `BioPages.TooFewCounted` | Kernel/block/blk-merge.c:273-308 | that bio's request merges with a neighbour, counts three segments and maps to four |
| `Completion.UpdateTwice` | Kernel/block/blk-core.c:1975-2105 | completing n1 then n2 bytes leaves the chain, length and ended bios of completing n1 + n2 at once; the request's sector is the same exactly when rounding the two steps down loses no whole sector; the bios' sectors are while data remains, if the bios and n1 are whole sectors |
| `Completion.UpdateKeeps` | Kernel/block/blk-core.c:1975-2105 | a well-formed request stays so, its remaining data is the old without the first n bytes, data remains exactly if n is less than the length, and the current piece never exceeds the length: the repair of a botched request is never made |
| `Completion.EndedInOrder` | Kernel/block/blk-core.c:134-161 | a bio is ended exactly when its last byte completes, in order, once |
| `Completion.CompleteTwice` | Kernel/block/blk-core.c:1975-2105 | composition for the chain of bios |
| `Completion.CompleteKeeps` | Kernel/block/blk-core.c:1975-2105 | the chain left is sound and holds exactly the bytes not completed |
| `Completion.TrimDrops` | Kernel/block/blk-core.c:2014-2045 | moving on within a bio drops exactly the completed bytes |
| `Completion.ErrorSticks` | Kernel/block/blk-core.c:134-161 | an error on part of a bio is what the bio ends with, even if the rest succeeds |
| `Completion.BarEndsIff` | Kernel/block/blk-core.c:134-171 | the bytes of the barrier stand-in reported in any number of pieces: the request ends with the last of them if and only if every report stops at the end of a bio |
| `Completion.BarInTwo` | Kernel/block/blk-core.c:134-171 | in two pieces: data is said to be left after the last byte exactly when the first report stopped inside a bio, and a further report of the bytes of the bios left does end it |
| `Completion.BarLeft` | Kernel/block/blk-core.c:134-171 | a report takes exactly the whole bios within it off what is left |
| `Completion.BarKeepsIff` | Kernel/block/blk-core.c:134-171 | a partial completion of the barrier stand-in keeps its chain sound exactly when the cut is between bios |
| `Completion.BarDoesNotEnd` | Kernel/block/blk-core.c:134-171 | a barrier of one bio completed in two halves: all bytes done, the request still says data is left |
| `CompletionLoop.Transfer.EndBio` | Kernel/block/blk-core.c:134-171 | size, sector, flag, hand-back and remembered error |
| `CompletionLoop.Transfer.Take` | Kernel/block/blk-core.c:2005-2053 | the loop takes whole bios and pieces exactly as specified and never runs past a bio's pieces |
| `CompletionLoop.Transfer.Settle` | Kernel/block/blk-core.c:2072-2077 | the current bio after a partial completion |
| `CompletionLoop.Transfer.Advance` | Kernel/block/blk-core.c:2005-2077 | the chain and the bios handed back equal the specification's |
| `CompletionLoop.Transfer.Update` | Kernel/block/blk-core.c:1975-2105 | the whole routine equals the specification; a barrier stand-in remembers its first error |
| `AesKey.CipherRoundTrip` | Kernel/crypto/aes_generic.c:1329-1440 | for every key of 16, 24 or 32 bytes, every block and every invertible S-box, decryption with the expanded schedule undoes encryption |
| `AesKey.EncryptIsStandard` | Kernel/crypto/aes_generic.c:1300-1368 | with the expanded schedule the table-driven cipher is the cipher of section 5.1 of FIPS 197 over the key expansion of section 5.2 |
| `AesCipher.DecryptUndoesEncrypt` | Kernel/crypto/aes_generic.c:1372-1440 | decryption undoes encryption for any schedule and its reverse (section 5.3.5 of FIPS 197) |
| `AesCipher.HalfwayBack` | Kernel/crypto/aes_generic.c:1372-1440 | after r rounds of decryption the state is the one before the last r rounds of encryption, short of the column mix |
| `AesCipher.ForwardRoundIsStandard` | Kernel/crypto/aes_generic.c:1300-1327 | a round by table look-up is SubBytes, ShiftRows, MixColumns and AddRoundKey; the last without MixColumns |
| `AesCipher.InverseRoundIsStandard` | Kernel/crypto/aes_generic.c:1372-1399 | the same for a round of the Equivalent Inverse Cipher |
| `AesCipher.InvMixUndoesMix` | Kernel/crypto/aes_generic.c:1128-1139 | the inverse column mix of a mixed state plus key is the state plus the inversely mixed key |
| `AesField.ImixColIsInvMixCol` | Kernel/crypto/aes_generic.c:1128-1139 | the word-parallel computation is the inverse column mix |
| `AesField.InvMixColMixCol` | Kernel/crypto/aes_generic.c:1128-1139 | the inverse column mix undoes the column mix, over GF(2^8) |
| `AesField.InvMixColXor` | Kernel/crypto/aes_generic.c:1128-1139 | the inverse column mix is linear |
| `AesKey.LsBoxIsSubWord` | Kernel/crypto/aes_generic.c:1141-1145 | the four last-round tables together substitute a word |
| `AesKey.RcoTabIsRcon` | Kernel/crypto/aes_generic.c:63-63 | the table of round constants holds the powers of x |
| `AesKey.MirroredIsReversed` | Kernel/crypto/aes_generic.c:1255-1266 | the index reversal with the inverse mix gives the reversed schedule |
| `AesKey.MirrorTwice` | Kernel/crypto/aes_generic.c:1262-1265 | the index map is its own inverse |
| `AesKey.StoreLoad` | Kernel/crypto/aes_generic.c:1363-1367 | writing and reading a block, least significant byte first, is the identity |
| `AesContext.Context.FillRow` | Kernel/crypto/aes_generic.c:1147-1158 | a run of words each added to the one before extends the expanded key |
| `AesContext.Context.Step` | Kernel/crypto/aes_generic.c:1147-1188 | one step of the expansion, or the first half of one for 32-byte keys |
| `AesContext.Context.BottomHalf` | Kernel/crypto/aes_generic.c:1190-1200 | the second half for 32-byte keys |
| `AesContext.Context.Expand` | Kernel/crypto/aes_generic.c:1233-1253 | all steps: the words of section 5.2 of FIPS 197 |
| `AesContext.Context.InvertKeys` | Kernel/crypto/aes_generic.c:1260-1265 | the loop fills the inner decryption keys, mirrored and inversely mixed |
| `AesContext.Context.ExpandKey` | Kernel/crypto/aes_generic.c:1216-1268 | both schedules of a valid key; any other length is refused and nothing changes |
| `AesContext.Context.Encrypt` | Kernel/crypto/aes_generic.c:1329-1368 | the output block, for separate or identical buffers, is the specified encryption |
| `AesContext.Context.Decrypt` | Kernel/crypto/aes_generic.c:1401-1440 | the output block is the specified decryption |
| `BfqTree.WalkIsFirstIff` | Kernel/block/bfq-sched.c:823-851 | on a tree with exact minima and something eligible the walk returns an eligible entity, and it is the first eligible one in order exactly when the walk stops at an eligible one |
| `BfqTree.WalkIsLeast` | Kernel/block/bfq-sched.c:823-851 | stopping at an eligible entity, the walk returns one with the least finish time of all eligible ones |
| `BfqTree.WalkFinds` | Kernel/block/bfq-sched.c:823-851 | from any node whose minimum is eligible the walk finds something eligible, and nothing eligible precedes the node where it stops |
| `BfqTree.WalkMisses` | Kernel/block/bfq-sched.c:836-845 | a concrete tree on which the walk returns finish time 3 with 2 eligible |
| `BfqTree.LookupFinds` | Kernel/block/bfq-sched.c:860-872 | after the virtual time is moved on there is something eligible below every node the walk visits and the walk finds an eligible entity: none of the three assertions on the way can fail |
| `BfqTree.VisitedWithin` | Kernel/block/bfq-sched.c:823-851 | at every node the walk visits the assertion on its minimum start time holds, and the last node visited is where the walk stops |
| `BfqTree.UpdateVtime` | Kernel/block/bfq-sched.c:801-811 | the time becomes the later of what it was and the least start time in the tree |
| `BfqTree.FirstActiveEntity` | Kernel/block/bfq-sched.c:823-851 | the search loop equals the recursive walk, its assertion holds in every turn, and it ends with an eligible entity unless the tree is empty |
| `BfqTree.UpdateActiveTree` | Kernel/block/bfq-sched.c:290-308 | the upward loop makes every minimum exact if only nodes on the path and their siblings were wrong, and moves no entity |
| `BfqTree.StepUp` | Kernel/block/bfq-sched.c:290-308 | recomputing a node and its sibling moves the damage one level up |
| `BfqTree.RefreshExact` | Kernel/block/bfq-sched.c:251-278 | recomputing from exact children is exact |
| `BfqTree.MinStartIsLeast` | Kernel/block/bfq-sched.c:320-337 | the recorded minimum is the least start time of the subtree |
| `BfqTree.LaterIsGreater` | Kernel/block/bfq-sched.c:89-92 | the comparison of 64-bit times is the comparison of times less than 2^63 apart |
| `RbTree.InsertKeeps` | Kernel/lib/rbtree.c:72-135 | whatever rotations an insertion makes, only nodes on the reported path and their siblings can record a wrong minimum |
| `RbTree.InsertEnds` | Kernel/block/bfq-sched.c:320-337 | that path ends where the repair starts: at the new node, or its left child if rotations gave it children |
| `RbTree.InsertOrder` | Kernel/block/bfq-sched.c:217-239 | the entity comes after all that finish no later and before all others; nothing else moves |
| `RbTree.RebalanceKeeps` | Kernel/lib/rbtree.c:76-131 | one turn of the insertion loop keeps the damage on the path |
| `RbErase.EraseKeeps` | Kernel/lib/rbtree.c:218-283 | whatever rotations a removal makes, only nodes on the reported path and their siblings can record a wrong minimum |
| `RbErase.EraseEnds` | Kernel/block/bfq-sched.c:385-404 | the node chosen before a removal is where that path ends after it |
| `RbErase.EraseOrder` | Kernel/lib/rbtree.c:218-283 | a removal takes one entity out and moves no other |
| `RbErase.LiftKeeps` | Kernel/lib/rbtree.c:138-216 | one turn of the removal loop keeps the damage on the path |
| `RbBalance.InsertBalances` | Kernel/lib/rbtree.c:72-135 | insertion leaves no red node with a red child and the same number of black nodes on every path |
| `RbBalance.InsertRb` | Kernel/lib/rbtree.c:72-135 | how balanced every stage of an insertion is; a red parent always has a parent of its own to look at |
| `RbBalance.EraseBalances` | Kernel/lib/rbtree.c:218-283 | the same after a removal |
| `RbBalance.EraseRb` | Kernel/lib/rbtree.c:138-283 | how balanced every stage of a removal is |
| `RbBalance.LiftBlackRb` | Kernel/lib/rbtree.c:146-179 | in a balanced tree the removal loop always finds the sibling it looks at, and either restores balance or passes the shortage up |
| `BfqService.ServiceTree.ActiveInsert` | Kernel/block/bfq-sched.c:320-337 | the tree stays balanced and ordered with exact minima, with the entity where it belongs; the repair starts at its node, or at the left child if it has children |
| `BfqService.ServiceTree.ActiveExtract` | Kernel/block/bfq-sched.c:411-425 | the tree stays balanced and ordered with exact minima, without the entity; the repair starts at the node chosen before the removal |
| `BfqService.ServiceTree.LookupNext` | Kernel/block/bfq-sched.c:860-872 | an eligible entity, the first exactly when the walk stops at an eligible one; nothing only from an empty tree |
| `BfqRuns.WeightsConserved` | Kernel/block/bfq-sched.c:459-663 | in every state of every run each class's weight sum is the total weight of its entities on a tree or under service, exactly those are marked, no entity outweighs its class, and the queue under service has not overrun its budget |
| `BfqRuns.StepKeeps` | Kernel/block/bfq-sched.c:616-737 | every operation keeps sums, marks, idle lists and budgets |
| `BfqRuns.RunsKeep` | Kernel/block/bfq-sched.c:616-737 | the same over every run |
| `BfqRuns.SendKeeps` | Kernel/block/bfq-iosched.c:1141-1172 | a request is charged only if the budget left covers it, so service never exceeds budget |
| `BfqRuns.FinishKeeps` | Kernel/block/bfq-iosched.c:982-1029 | the end of a turn, with or without a full charge, keeps everything and leaves nobody under service |
| `BfqRuns.GoodIsSound` | Kernel/block/bfq-sched.c:459-475 | from the invariant: sums are not negative and no subtraction underflows |
| `BfqWeights.ActivateKeeps` | Kernel/block/bfq-sched.c:616-663 | activation from service, from either tree or from none, with a pending change of weight or class |
| `BfqWeights.ActivateTimes` | Kernel/block/bfq-sched.c:616-663 | an activated entity that keeps its class finishes no earlier than it starts, starts no earlier than now unless it was waiting or served, after its old finish time if it was remembered, and after exactly the service it got if it was served with a weight |
| `BfqWeights.DeactivateKeeps` | Kernel/block/bfq-sched.c:703-737 | deactivation, remembered or forgotten |
| `BfqWeights.ForgetIdleKeeps` | Kernel/block/bfq-sched.c:496-512 | forgetting the first idle entity takes out its weight and touches no other |
| `BfqWeights.ServeKeeps` | Kernel/block/bfq-sched.c:885-945 | an entity going under service keeps its weight in its class and starts with no service used |
| `BfqWeights.ChargeKeeps` | Kernel/block/bfq-sched.c:569-585 | charging within the budget keeps it: the warning cannot fire |
| `BfqWeights.ReweighIs` | Kernel/block/bfq-sched.c:514-558 | a change of weight or class takes exactly the old weight out and puts exactly the new one in |
| `BfqTuning.BoostIsRight` | Kernel/block/bfq-iosched.c:1174-1186 | in every run, at every request sent, the weight of the queue under service is its unboosted weight times the boost, as is asserted there |
| `BfqTuning.NoWeightIsLost` | Kernel/block/bfq-sched.c:126-145 | from queues as they are allocated, in every run in which no other priority is asked for before a queue's first activation: every entity on a tree or under service has a weight and so has its class, so the assertions when a finish time is computed and when service is charged cannot fail |
| `BfqTuning.TooEarlyIff` | Kernel/block/bfq-sched.c:514-558 | a step asks for another priority before the first activation if and only if some run from there, with no such step in it, ends with a weightless entity on the active tree |
| `BfqTuning.EarlyLoses` | Kernel/block/bfq-sched.c:514-558 | the run: such a request, the first activation, any further change and the next activation |
| `BfqTuning.StepWeightyIff` | Kernel/block/bfq-sched.c:514-558 | every other step leaves weights that cannot come to nothing, and that one does not |
| `BfqTuning.PriorityTakesEffectIff` | Kernel/block/bfq-sched.c:514-558 | in every such run, at every activation with a change pending: the priority in use becomes the one asked for if and only if one of the two is the priority the queue was allocated with; otherwise it goes back to that |
| `BfqTuning.PriorityGoesBack` | Kernel/block/bfq-sched.c:526-536 | a concrete case: allocated with 4, changed to 2, and back at 4 with the next boost |
| `BfqTuning.StepTurns` | Kernel/block/bfq-iosched.c:351-411 | what any operation does to the weights and priorities of any queue: nothing, or the pending change is made, with or without a boost |
| `BfqWeights.ClassHasWeight` | Kernel/block/bfq-sched.c:514-526 | a class weighs at least each of its entities |
| `BfqWeights.RestartedHasWeight` | Kernel/block/bfq-sched.c:514-526 | also in the middle of an activation, where the pending change asserts it |
| `BfqData.Scheduler.constructor` | Kernel/block/bfq-iosched.c:119-121 | classes without entities or weight: a state where every run may begin |
| `BfqData.Scheduler.UpdateWeightPrio` | Kernel/block/bfq-sched.c:514-558 | the pending change in place; its assertion on the class's weight holds |
| `BfqData.Scheduler.ActivateEntity` | Kernel/block/bfq-sched.c:616-663 | activation in place, with the invariant kept |
| `BfqData.Scheduler.DeactivateEntity` | Kernel/block/bfq-sched.c:703-737 | deactivation in place, with the invariant kept |
| `BfqData.Scheduler.ForgetIdle` | Kernel/block/bfq-sched.c:496-512 | the idle entity forgotten in place, with the invariant kept |
| `BfqData.Scheduler.Serve` | Kernel/block/bfq-sched.c:885-945 | an entity put under service |
| `BfqData.Scheduler.Served` | Kernel/block/bfq-sched.c:569-585 | service charged within the budget |
| `BfqData.Scheduler.Dispatch` | Kernel/block/bfq-iosched.c:1141-1172 | one request sent, or the queue found to be out of budget |
| `BfqData.Scheduler.Expire` | Kernel/block/bfq-iosched.c:982-1029 | the turn ended: charge, next budget, back to a tree or out |
| `DeadlineReads.ReadsPastAWrite` | Kernel/block/deadline-iosched.c:76-84 | from any state of any run: the reads that leave the scheduler while a write waits and none is dispatched are at most (writes_starved + 1) * fifo_batch and one for each read that is put at the sector of another |
| `DeadlineReads.ReadsGoneAre` | Kernel/block/deadline-iosched.c:76-222 | they are exactly the reads dispatched and the reads displaced |
| `DeadlineReads.ClearedOne` | Kernel/block/deadline-iosched.c:76-84 | making way for a request moves at most one other out |
| `DeadlineRuns.WritesAreNotStarved` | Kernel/block/deadline-iosched.c:245-327 | from any state of any run, whatever is added, merged or moved meanwhile, at most (writes_starved + 1) * fifo_batch reads are dispatched while a write waits and none is dispatched |
| `DeadlineRuns.ReadsAreBounded` | Kernel/block/deadline-iosched.c:245-327 | the sharper bound by what is left of the batch and of the starvation count |
| `DeadlineRuns.ReadCosts` | Kernel/block/deadline-iosched.c:266-287 | each read dispatched while a write waits uses up allowance |
| `DeadlineRuns.QuietSteps` | Kernel/block/deadline-iosched.c:76-222 | additions, merges and alias moves leave the counters alone |
| `DeadlineRuns.IndexesAgree` | Kernel/block/deadline-iosched.c:76-222 | in every run: both indexes of a direction hold the same requests once each, by sector and by deadline, the fifo's head has the earliest deadline, at most one direction has a next request and it is queued, and every request is in exactly one place |
| `DeadlineRuns.ExpiredGoesFirst` | Kernel/block/deadline-iosched.c:294-316 | a batch in a direction whose oldest request has expired starts with it, and no other has an earlier deadline |
| `DeadlineRuns.NextIsNearest` | Kernel/block/deadline-iosched.c:206-222 | the request to go on with is the next of the direction by sector, and there is none only if none lies beyond |
| `DeadlineRuns.StepKeepsInv` | Kernel/block/deadline-iosched.c:100-327 | every callback keeps the invariant |
| `DeadlineRuns.RunsKeepInv` | Kernel/block/deadline-iosched.c:100-327 | the same over every run |
| `DeadlineInvariant.AddKeeps` | Kernel/block/deadline-iosched.c:100-113 | a new request, with the alias at its sector dispatched first |
| `DeadlineInvariant.FrontMergedKeeps` | Kernel/block/deadline-iosched.c:156-168 | repositioning a request grown at the front |
| `DeadlineInvariant.MergedRequestsKeeps` | Kernel/block/deadline-iosched.c:170-189 | taking over another request's data, place and deadline |
| `DeadlineInvariant.TakeOver` | Kernel/block/deadline-iosched.c:178-183 | moving to the earlier request's place with its deadline keeps the fifo in order |
| `DeadlineInvariant.DispatchKeeps` | Kernel/block/deadline-iosched.c:245-327 | a dispatch, and that what is selected is what is issued |
| `DeadlineInvariant.MoveKeeps` | Kernel/block/deadline-iosched.c:206-222 | moving a request to the dispatch queue |
| `DeadlineInvariant.ClearedKeeps` | Kernel/block/deadline-iosched.c:76-84 | the alias loop leaves no request at the sector |
| `DeadlineData.Scheduler.MoveRequest` | Kernel/block/deadline-iosched.c:206-222 | the fields after a move equal the specification's |
| `DeadlineData.Scheduler.AddSorted` | Kernel/block/deadline-iosched.c:76-84 | the loop over aliases and the insertion equal the specification |
| `DeadlineData.Scheduler.AddRequest` | Kernel/block/deadline-iosched.c:100-113 | a new request in place, with the invariant kept |
| `DeadlineData.Scheduler.MergedRequest` | Kernel/block/deadline-iosched.c:156-168 | a repositioned request in place, with the invariant kept |
| `DeadlineData.Scheduler.MergedRequests` | Kernel/block/deadline-iosched.c:170-189 | merged requests in place, with the invariant kept |
| `DeadlineData.Scheduler.Choice` | Kernel/block/deadline-iosched.c:255-316 | the choice of direction and request equals the specification's |
| `DeadlineData.Scheduler.DispatchRequests` | Kernel/block/deadline-iosched.c:245-327 | a dispatch in place, with the invariant kept |
| `Tags.TagsAreExclusive` | Kernel/block/blk-tag.c:337-384 | in every interleaving of the steps of any number of queues: no two requests record the same tag, an index entry is the tag's owner, for depth 3 or more the top two tags are owned by synchronous requests only, and the two error messages of the release cannot appear |
| `Tags.StepKeepsOwners` | Kernel/block/blk-tag.c:367-373 | the test-and-set gives a tag to one request, which keeps it until its bit is cleared |
| `Tags.StepKeepsIndex` | Kernel/block/blk-tag.c:296-314 | the index names the owner from when it is written to when it is cleared |
| `Tags.RunsKeepInv` | Kernel/block/blk-tag.c:282-384 | the same over every run |
| `Tags.InvIsOk` | Kernel/block/blk-tag.c:282-316 | what follows for every state |

## Left out

- BarrierTheorems.BarrierSafety: fs requests are not inserted at the front of the dispatch queue and requests of other kinds carry no barrier flag, which is what the comment at Kernel/block/blk-barrier.c:188-193 relies on; discards enter only as fs requests.
- BarrierPlaces.StepKeepsPlaceInv: the pair of in-flight counters, for synchronous and other requests, is modelled by its sum, which is all that the drain check reads.
- BarrierQueue.RequestQueue.Peek: the preparation of a command by the driver and its refusal are not modelled, nor is plugging.
- MergeRuns.SegmentsSuffice: asks that the submitted bios be right, which the page-by-page builder does not ensure; BioPages.AddPageKeepsIff says exactly when it leaves such a bio, over both its branches, and MergeNeeds.CheckIsExact that nothing weaker would do. Merges, alias moves and the barrier protocol are separate models.
- MergeNeeds.CheckIsExact: the direction that a wrong bio fails needs memory beside it for neighbours, sectors and segments within the queue's limits, and pieces no larger than a segment may be (Kernel/block/blk-settings.c:285-294 makes that at least a page).
- BioPages.AddPageKeepsIff: cloned bios, which are refused outright, are not modelled; the driver's own check is a parameter, and a page is 4096 bytes.
- SegmentLoops.Request.MapSg: padding, the drain buffer and the list's own termination marks are not modelled; data-carrying bios only.
- SegmentLoops.Request.Absorb: the disk, integrity data, failfast flags, priorities and accounting of the two requests are not compared or merged.
- Segments.GreedyIsMinimal: sizes are unbounded; a sum of sizes beyond 32 bits does not wrap. Segment boundary masks are taken as one less than the span of a boundary window.
- CompletionLoop.Transfer.Update: the recount of segments at its end is MergeRuns' partial completion step; integrity data and statistics are not modelled, and byte counts do not wrap.
- RbTree.InsertKeeps: tree links are values, not pointers changed in place; the loop is a recursion that does one turn per level on the way up.
- RbErase.EraseKeeps: the same; on a tree that is not balanced a missing sibling, which the loop would follow, is taken for a black one (RbBalance.LiftBlackRb: a balanced tree has it).
- BfqService.ServiceTree.LookupNext: one class; the choice between classes and the time-out of the idle class are not modelled.
- BfqRuns.WeightsConserved: groups are not modelled, so only priorities and classes are asked for; queues are all there from the start, and reusing one is not modelled. Times are integers (BfqTree.LaterIsGreater relates them to the kept ones), and the size of the next budget, which depends on measured rates, is a parameter. Weights are not negative in every run; that they are positive is BfqTuning.NoWeightIsLost, under the condition that BfqTuning.TooEarlyIff shows to be exact.
- BfqData.Scheduler.Served: when a boost begins and ends is a parameter; each is a step of its own.
- DeadlineRuns.WritesAreNotStarved: tunables do not change during a run; jiffies do not wrap.
- DeadlineInvariant.FrontMergedKeeps: trees are lists by sector; their balance plays no part.
- Tags.TagsAreExclusive: the depth of the map is fixed; the early refusal by the number of requests in flight only makes fewer steps possible.
- CfqInvariant.RefsBalanced: synchronous queues without groups; references of asynchronous queues held by the scheduler, and the out-of-memory queue, are not modelled.
- AesContext.Context.ExpandKey: the flag set in the transform for a key of another length is not modelled.
- Locks, RCU, memory barriers, allocation failure, timers, tracing and statistics: no part of what is proved.
- Kernel/block/noop-iosched.c keeps requests in arrival order, Kernel/block/sio-iosched.c serves fifo lists with deadlines, Kernel/block/vr-iosched.c picks by distance with a penalty for going back, Kernel/crypto/arc4.c is a stream cipher and Kernel/crypto/algapi.c increments a big-endian counter; nothing proved here depends on them.
- The ioctl, sysfs, SCSI generic, partition and cgroup interfaces, and algorithm registration: plumbing.
