# Fixpoint machinery of SVF, modelled and proved in Dafny

SVF computes points-to and may-happen-in-parallel information for C and C++ programs. Its
analyses are fixpoints that are reached in roundabout ways: on demand and re-entrantly, by
propagating differences, behind "updated" flags, by worklists whose steps also take facts
away again. This project models those fixpoints as the code runs them, with mutable state,
loops and re-entrant calls, and proves what they compute.

| file | what it is about |
|---|---|
| `Svfg.dfy`, `LeastSolution.dfy` | the sparse value-flow graph, the equations of its nodes (strong updates included) and their least solution |
| `DemandProtocol.dfy`, `DemandSolver.dfy` | the demand-driven solver: partial results, re-runs, budget, giving up and resetting between queries, caches keyed by item or by variable |
| `DemandExamples.dfy` | runs of that solver on concrete graphs: a downgrade that spreads, growth that is hidden |
| `PointsToStores.dfy` | points-to sets with a reverse index, and the difference-propagating store |
| `AndersenModel.dfy`, `AndersenSolver.dfy` | the constraint solver driving that store, with copy edges that appear while solving |
| `AndersenRuns.dfy` | runs of that solver in which nodes are merged as well, and when they are exact |
| `DataFlowModel.dfy`, `DataFlowStores.dfy` | the plain data-flow store and the incremental one with IN and OUT flags |
| `FlowSensitiveModel.dfy`, `FlowSensitiveSolver.dfy` | the whole-program flow-sensitive analysis driving those stores, with call graph updates |
| `TokenFlow.dfy` | facts spreading along control flow and taken away at some statements |
| `ForkJoin.dfy`, `Interleaving.dfy` | the fork/join flags and thread interleavings built on it, and their queries |
| `LockSpans.dfy` | locksets and lock spans |
| `ThreadTree.dfy` | ancestors and siblings of threads |
| `GenericGraph.dfy` | nodes, edges and ids of the base graph class |
| `CondPointsTo.dfy` | conditional points-to sets as sets of pairs |
| `TypeSets.dfy` | the type-set intersection test and the indexes between variables and types |
| `FiniteSets.dfy` | sizes of finite sets |

The main results:

* A query of the demand-driven solver terminates without help from its budget, and never
  runs out of a budget of a stated size (`DemandProtocol.AmpleSuffices`). Provided that no
  two items share a cache entry and that field handling is monotone, and while no query has
  run out of budget, the cached set of every marked item is exactly the whole-program least
  solution, strong updates included. Entries are never shared in the base class, whose
  caches are keyed by item; in the flow-sensitive client, which keys those of top-level
  nodes by variable, they are not if and only if no pointer belongs to two top-level nodes
  (`Svfg.SeparateExactly`). A query that runs out is answered from the flow-insensitive
  pre-analysis, and its item keeps that set and its mark for good; from then on the caches
  hold exactly the least solution that takes these sets over, every reply lies between the
  whole-program answer and the pre-analysis, and replies are the whole-program answer
  everywhere if and only if the pre-analysis was exact on all items given up
  (`DemandSolver.Solver.Query`, `DemandSolver.Solver.AnswerQueries`,
  `LeastSolution.AnswerExact`). Where entries are shared, termination, the bounds on the
  work and the upper bound remain: nothing cached exceeds the answer to expect, nor the
  pre-analysis.
* Propagating differences only, over copy edges added on the way, ends in the least
  solution of the inclusion constraints (`AndersenSolver.Andersen.Analyze`). Over any run in
  which nodes are merged too, empty differences mean that whole sets have been propagated,
  for every copy constraint ever added (`AndersenRuns.QuietIsPropagated`). If nodes are
  merged only along copy cycles and no merge loses a field edge, such a run ends in the
  least solution, read through the representatives (`AndersenRuns.MergedRunIsLeast`).
* For every run of calls that respects a stated discipline, the incremental data-flow store
  holds the sets of the plain one and returns the same answers (`DataFlowModel.RunRefines`).
  Where the discipline lets a flag go, it does so exactly when that is harmless
  (`DataFlowModel.ClearIsExact`).
* The whole-program flow-sensitive analysis respects that discipline with every call it
  makes, over all its visits and call graph updates. It terminates, in any order of visits,
  and the incremental store ends with the least solution of the flow-sensitive equations,
  as the plain store does (`FlowSensitiveSolver.FlowSensitive.SolveWorklist`,
  `FlowSensitiveSolver.FlowSensitive.Analyze`).
* The fork/join and interleaving worklists terminate and end with exactly the facts that
  some path carries to a statement past the statements taking them away; from this the
  happens-before, full-join and may-happen-in-parallel answers follow as equivalences.

What the programs compute is stated in terms of their inputs alone, apart from the functions
the code runs: the equations of the value-flow graph (`Svfg.EvalMeans`,
`LeastSolution.LeastMeans`), the flow-sensitive ones (`FlowSensitiveModel.Solved`,
`FlowSensitiveModel.StoreExact`), the inclusion constraints (`AndersenModel.Solution`,
`AndersenModel.DerivedMeans`), the paths along which threads and flags come
(`Interleaving.AlongsideMeans`, `ForkJoin.LiveMeans`) and the history that lock spans record
(`LockSpans.SpanIsHistory`).

Some properties one might expect of the code are false; each comes with an input for which
it fails and with the condition under which it holds, an exact one except in the first case,
where a sufficient and a necessary one are given.

* The flow-sensitive client does not always find the whole-program answer within budget.
  Keyed by variable, the cache entry of an actual parameter is that of the pointer passed,
  so its re-run finds the new targets there already, counts that as no growth, and re-runs
  nothing behind it (`DemandExamples.ForwardersNeverGrow`; include/DDA/FlowDDA.h:115-134,
  lib/Graphs/VFG.cpp:881). On a recursive function that walks a list the query for its
  parameter misses a target (`DemandExamples.WalkFallsShort`). The answer is exact on every
  graph where no pointer belongs to two top-level nodes (`Svfg.SeparateExactly`), and
  otherwise only if the whole-program answer gives the nodes of one pointer the same set
  (`DemandExamples.AgreementNeeded`).
* A query within its budget does not always reply the whole-program answer after another
  one gave up: the overshoot spreads to copies (`DemandExamples.DowngradeSpreads`). Without
  shared entries some reply to expect is too large if and only if the pre-analysis was not
  exact on the items given up (`LeastSolution.AnswerExact`).
* Locksets are not everywhere met over all predecessors: a statement first reached with an
  empty lockset is not registered, so a later predecessor's locks survive there
  (`LockSpans.MeetIsLost` gives the program and the run). Two sources are met at a new
  statement if and only if the first holds some lock or the second holds none
  (`LockSpans.FirstMeet`). Over a whole run, a predecessor handled when the statement has a
  lockset already is always met (`LockSpans.TouchedInTime`).
* A release never takes its lock away: locks are named by the acquiring statement, so a
  release looks for a lock nobody holds (`LockSpans.ReleaseUnheld`,
  `LockSpans.LockAnalysis.HandleStatement`). It keeps the locks all its predecessors hold
  (`LockSpans.ReleaseKeepsLocks`) and the traversal stops there
  (`LockSpans.ReleasePassesNothing`).
* Merging two nodes of the constraint graph can lose a field edge, since an edge is refused
  where one at another offset joins the same nodes (`AndersenRuns.FieldIsLost`); fields
  survive if and only if no two outer field edges come to clash in this way
  (`AndersenRuns.MergeKeepsFields`).
* The sibling relation of threads is symmetric, and siblings have the same ancestors, if and
  only if the sibling has a single creator (`ThreadTree.SiblingsAgree`); the operations of
  the graph allow two (`ThreadTree.TwoCreators`).
* Edge flags built from 32-bit call site ids keep the low 24 bits only
  (`GenericGraph.FlagsTellApart`), so two call sites can share an edge
  (`GenericGraph.TwoSitesOneEdge`).
* `isSubset` on conditional sets is inclusion together with inclusion of the conditions,
  those with an empty set among them (`CondPointsTo.CondPointsToSet.IsSubset`,
  `CondPointsTo.LeftBehind`).
* The reverse index of a points-to store stays exact under a removal if and only if nothing
  was removed (`PointsToStores.RemovalAndIndex`, `PointsToStores.StaleEntry`).

Where comments and code of SVF disagree the code is followed: a join must happen if the
thread *executing* it is not forked repeatedly (include/MTA/MHP.h:162 passes that thread,
lib/MTA/MHP.cpp:466-470 speaks of the joined one), and an edge kind has eight bits
(include/Graphs/GenericGraph.h:141-144), not sixteen values (line 63).

The order in which sets and worklists are iterated is left open throughout: a worklist is a
set from which any element may be taken next, which covers the first-in-first-out order of
the code, and so is every container that is looped over. Entries that `operator[]` creates
on reading count as empty sets.

## Model

| member | source | states |
|---|---|---|
| `Svfg.EvalMonotone` | include/DDA/DDAVFSolver.h:115-184 | The equation of every node is monotone in the cached sets although strong updates drop contributions: a larger assignment reads more items and yields a larger set. |
| `Svfg.EvalMeans` | include/DDA/DDAVFSolver.h:115-184 | Each equation in terms of graph and sets alone: what comes along which edges, what a load reads, and of a store both what is stored and what the object held before, kept unless the pointer has no target or the object is the only one and concrete. |
| `Svfg.EvalAgree` | include/DDA/DDAVFSolver.h:115-184 | The value and the reads of a statement depend only on the sets it reads. |
| `Svfg.DepsTrigger` | include/DDA/DDAVFSolver.h:208-251 | Whatever a statement reads lies one edge back, and growing there makes the re-run loop visit the statement, although the loop skips other variables behind indirect edges into non-loads. |
| `Svfg.PointwiseGepIsMonotone` | lib/DDA/FlowDDA.cpp:120-146 | Field handling that maps base objects one by one is monotone, as the results on least solutions ask. |
| `Svfg.SeparateExactly` | include/DDA/FlowDDA.h:115-134 | Items keyed one by one never share a cache entry; keyed by variable, as in the flow-sensitive client, they do not share if and only if no pointer belongs to two top-level nodes. |
| `LeastSolution.Least` | include/DDA/DDAVFSolver.h:115-184 | The equations have a solution inside the finite universe of items, reached by iteration from empty sets. |
| `LeastSolution.LeastIsLeast` | include/DDA/DDAVFSolver.h:115-184 | That solution lies within every assignment satisfying all equations. |
| `LeastSolution.LeastMeans` | include/DDA/DDAVFSolver.h:402-416 | The least solution holds exactly that: an object behind a store keeps what it held unless it is the store's only target and concrete, and then holds exactly what is stored. |
| `LeastSolution.LeastAboveIsLeast` | include/DDA/DDAVFSolver.h:115-184 | Iterating the equations from a given assignment, items with one cache entry together, reaches a solution within every solution that contains that assignment and respects the sharing. |
| `LeastSolution.ClosedPartIsLeast` | include/DDA/DDAVFSolver.h:86-111 | If no cache entry is shared: sets below the least solution that contains given ones, which satisfy the equations of items reading only each other or hold all of that solution already, agree with it on these items. So a demand-driven answer is the whole-program one. |
| `LeastSolution.StrongWithinWeak` | include/DDA/DDAVFSolver.h:402-416 | The least solution with strong updates lies within the one with weak updates throughout. |
| `LeastSolution.InclusionsAreSound` | include/DDA/DDAVFSolver.h:253-258 | A flow-insensitive analysis that satisfies one inclusion per statement is, taken at every location, a solution of the flow-sensitive equations: the pre-analysis is sound. |
| `LeastSolution.AnswerBetween` | lib/DDA/FlowDDA.cpp:48-57 | Taking the sets of given-up items from the pre-analysis leads to an answer between the whole-program one and the pre-analysis, which is the latter on the given-up items, whether cache entries are shared or not. |
| `LeastSolution.AnswerGrows` | lib/DDA/FlowDDA.cpp:48-57 | That answer grows with every item given up. |
| `LeastSolution.AnswerExact` | lib/DDA/FlowDDA.cpp:48-57 | It is the whole-program answer everywhere if and only if that answer gives items with one cache entry the same set and the pre-analysis was exact on every item given up. |
| `DemandProtocol.StartEvaluation` | include/DDA/DDAVFSolver.h:97-105 | Stack invariant, entering an evaluation: the item is no longer pending but explained by its own active frame. |
| `DemandProtocol.ExtendEvaluation` | include/DDA/DDAVFSolver.h:374-398 | Stack invariant, while evaluating: consulting a current value keeps the frame an explanation. |
| `DemandProtocol.EndWithoutGrowth` | include/DDA/DDAVFSolver.h:515-522 | Stack invariant, leaving an evaluation whose result was cached already: the item is closed or explained by an outer evaluation of it. |
| `DemandProtocol.EndWithGrowth` | include/DDA/DDAVFSolver.h:515-522 | Stack invariant, leaving an evaluation that made the cache grow: only items the re-run loop will visit lose their explanation, even if nested re-evaluations of the same item intervened. |
| `DemandProtocol.SettledAfterGrowth` | include/DDA/DDAVFSolver.h:260-286 | Unless cache entries are shared, items closed by earlier queries stay closed while a later query makes caches grow. |
| `DemandProtocol.GrewAlone` | include/DDA/FlowDDA.h:115-134 | Where no entry is shared, uniting into the entry of one item changes the set of no other. |
| `DemandProtocol.EvaluatingItem` | include/DDA/DDAVFSolver.h:619-651 | An item evaluated at a Store or MR node has an entry in the load maps, so looking it up never fails. |
| `DemandProtocol.QuietClosed` | include/DDA/DDAVFSolver.h:86-111 | When a query ends within budget, and no cache entry is shared, every marked item that was not given up satisfies its equation and reads only marked items. |
| `DemandProtocol.ClosedMeans` | include/DDA/DDAVFSolver.h:86-111 | Closed items hold all that their statements contribute, loads and stores spelled out. |
| `DemandProtocol.QuietExact` | lib/DDA/FlowDDA.cpp:30-34 | When a query ends within budget, and no cache entry is shared, every marked item holds exactly its set in the answer to expect after the items given up so far. |
| `DemandProtocol.ResetQuiet` | include/DDA/DDAVFSolver.h:260-286 | After the reset, also of a query that ran out of budget, the marks left are those of earlier queries and of items given up; if no cache entry is shared, each belongs to a closed item or one given up. |
| `DemandProtocol.QueryDone` | include/DDA/DDAVFSolver.h:659-668 | At most the budgeted number of evaluations happen in a query, exactly that many if it gives up, at least one for every item first reached if it does not; and no cached set, shared or not, exceeds the answer to expect. |
| `DemandProtocol.AmpleSuffices` | include/DDA/DDAVFSolver.h:659-668 | A query never runs out of a budget that covers every item once and, for every target that may still be added to some set, once more all re-runs one growth can cause. |
| `DemandProtocol.VisitBudgeted` | include/DDA/DDAVFSolver.h:659-668 | Beginning an evaluation keeps the account: no more evaluations than the budget, each charged one step, exactly the budgeted number once it is exceeded, and no item reached without being paid for before. |
| `DemandProtocol.RaiseTop` | lib/DDA/FlowDDA.cpp:51-53 | Giving an item up raises the answer to expect, and the set of the pre-analysis lies within it. |
| `DemandProtocol.Overwritten` | lib/DDA/FlowDDA.cpp:53-53 | Uniting the set of the pre-analysis into the cache leaves the solver as consistent as the exhausted query left it, with nothing to settle. |
| `DemandProtocol.UnvisitedUnpinned` | include/DDA/DDAVFSolver.h:667-667 | A search reaches an unmarked given-up item only after its budget is gone, so the second half of the budget test never decides. |
| `DemandProtocol.WatchStep` | include/DDA/DDAVFSolver.h:86-111 | A property of caches, marks and active evaluations that the atomic steps preserve (entering, consulting, leaving, withdrawing a mark, recording) holds after the next step. |
| `DemandSolver.MergedUpdate` | include/DDA/FlowDDA.h:115-134 | Writing through the key of a top-level item, or to the entry of any other item, grows exactly the sets of the items that share the entry. |
| `DemandSolver.Solver.FindPT` | include/DDA/DDAVFSolver.h:86-111 | Restores the stack invariant, marks the item and returns its cached set; terminates because marks are withdrawn only after a cache grew, on every input, with any budget and for both ways of keying. |
| `DemandSolver.Solver.HandleSingleStatement` | include/DDA/DDAVFSolver.h:115-184 | Computes the right-hand side of the item's equation on every assignment agreeing with the values consulted, whatever nested evaluations and re-runs happen in between. |
| `DemandSolver.Solver.HandleLoad` | include/DDA/DDAVFSolver.h:135-143 | The same for the load branch, the address being computed first and the objects one after the other. |
| `DemandSolver.Solver.LoadThroughObjects` | include/DDA/DDAVFSolver.h:135-143 | The loop over the objects a load may address gathers exactly what the equation asks for. |
| `DemandSolver.Solver.HandleStore` | include/DDA/DDAVFSolver.h:144-178 | The same for the store branch with its strong, weak and non-matching cases; `Svfg.EvalMeans` says when a store kills, which a heap, array, field-insensitive or recursive object prevents. |
| `DemandSolver.Solver.StoreThroughObjects` | include/DDA/DDAVFSolver.h:156-177 | The loop over the objects a store may address gathers exactly what the equation asks for. |
| `DemandSolver.Solver.BackwardPropDpm` | include/DDA/DDAVFSolver.h:374-398 | Adds the set of the item behind one edge to the result, recording the load maps along indirect edges. |
| `DemandSolver.Solver.BacktraceAlongDirectVF` | include/DDA/DDAVFSolver.h:315-331 | Gathers exactly the items behind the direct edges of a node. |
| `DemandSolver.Solver.BacktraceAlongIndirectVF` | include/DDA/DDAVFSolver.h:292-313 | Gathers exactly the items behind the indirect edges carrying the object, nothing for constant and non-pointer objects. |
| `DemandSolver.Solver.StartNewPTCompFromBase` | include/DDA/DDAVFSolver.h:335-358 | Gathers the set of the address operand of a load or store. |
| `DemandSolver.Solver.BacktraceToStoreSrc` | include/DDA/DDAVFSolver.h:359-370 | Gathers the set of the value stored. |
| `DemandSolver.Solver.UnionCached` | include/DDA/DDAVFSolver.h:65-69 | Unites into the cache picked by the kind of node and the keying; reports exactly whether the item's own set grew. |
| `DemandSolver.Solver.UpdateCachedPointsTo` | include/DDA/DDAVFSolver.h:515-522 | Ends an evaluation: the stack invariant of the caller holds again after the re-runs. |
| `DemandSolver.Solver.ReComputeForEdges` | include/DDA/DDAVFSolver.h:210-251 | Re-running the items found behind the out-edges discharges every item pending because of the growth. |
| `DemandSolver.Solver.ReRunAll` | include/DDA/DDAVFSolver.h:219-251 | Re-runs all items of the query at one edge target: none that the edge triggers stays pending, and the work is charged per item. |
| `DemandSolver.Solver.ReRun` | include/DDA/DDAVFSolver.h:226-250 | Re-runs one item after withdrawing its mark, or skips it exactly if the edge carries another variable to it. |
| `DemandSolver.Solver.Visit` | include/DDA/DDAVFSolver.h:97-102 | Marks the item, enters it at its location and charges the budget. |
| `DemandSolver.Solver.GetLoadCVar` | include/DDA/DDAVFSolver.h:647-651 | The recorded load variable is the item's own variable. |
| `DemandSolver.Solver.GetDpmWithOldCond` | include/DDA/DDAVFSolver.h:540-555 | Yields the item for the object at the same location, recorded in the load maps exactly at loads and stores, with the load its search came from. |
| `DemandSolver.Solver.OOBResetVisited` | include/DDA/DDAVFSolver.h:272-286 | Withdraws exactly the marks of the query that ran out of budget, except those of items given up. |
| `DemandSolver.Solver.ResetQuery` | include/DDA/DDAVFSolver.h:260-270 | Prepares the next query; unless cache entries are shared every mark that remains belongs to a closed item or one given up, and those of items given up all remain. |
| `DemandSolver.Solver.Search` | lib/DDA/FlowDDA.cpp:20-31 | Reset and search from any state earlier queries left, for both ways of keying; an item given up before, and any item if the budget is ample, is answered without running out of budget. |
| `DemandSolver.Solver.OverwriteCachedPointsTo` | lib/DDA/FlowDDA.cpp:53-53 | The cache takes the set over and re-runs nothing but budget tests. |
| `DemandSolver.Solver.HandleOutOfBudgetDpm` | lib/DDA/FlowDDA.cpp:48-57 | Downgrades the item to the pre-analysis and records it as given up; the invariants of the solver survive. |
| `DemandSolver.Solver.Query` | lib/DDA/FlowDDA.cpp:19-45 | One query in any state earlier ones left. Within budget, and unless cache entries are shared, all marked items hold exactly the answer to expect after the items given up so far, and all that their statements contribute; otherwise the item is given up, once, and answered from the pre-analysis. For both ways of keying: nothing cached exceeds that answer, every reply lies within the pre-analysis, the budget bounds the work, an ample one never runs out, and any property preserved by the atomic steps holds at the end. |
| `DemandSolver.Solver.AnswerQueries` | lib/DDA/DDAClient.cpp:24-55 | Any sequence of queries on one solver: unless cache entries are shared every reply within budget is the answer to expect after the items given up before it, hence the whole-program answer if the pre-analysis was exact on them, in particular if there were none, as with an ample budget; shared or not, no reply exceeds the pre-analysis. |
| `DemandExamples.DowngradeSpreads` | lib/DDA/FlowDDA.cpp:33-57 | On three nodes copying a pointer, the query for the middle one gives up, and then the query for its copy, within budget, replies more than the whole-program answer; for both ways of keying. |
| `DemandExamples.ForwardersNeverGrow` | include/DDA/FlowDDA.h:115-134 | On every graph, keyed by variable: a node forwarding its own pointer, as an actual parameter does, is never seen to grow, so nothing behind it is re-run on its account. |
| `DemandExamples.AgreementNeeded` | include/DDA/FlowDDA.h:115-134 | Keyed by variable, caches can agree with the whole-program answer only where that gives the nodes of one pointer the same set. |
| `DemandExamples.WalkLeast` | include/DDA/DDAVFSolver.h:115-184 | The formal parameter of the recursive function below points to both objects in the whole-program answer. |
| `DemandExamples.WalkFallsShort` | include/DDA/FlowDDA.h:115-134 | For a recursive function that follows a pointer and passes it on, the query for its parameter misses a target within budget if caches are keyed by variable, in every order in which edges may be followed, and none if they are keyed by item. |
| `PointsToStores.UnionKeepsIndex` | include/MemoryModel/MutablePointsToDS.h:76-85 | Unions keep the reverse index complete, and exact if it was. |
| `PointsToStores.RemovalAndIndex` | include/MemoryModel/MutablePointsToDS.h:89-93 | Removals, which leave the index alone, keep it complete, and keep it exact exactly when nothing was removed. |
| `PointsToStores.StaleEntry` | include/MemoryModel/MutablePointsToDS.h:71-91 | Adding an object and clearing it leaves a stale entry in the reverse index. |
| `PointsToStores.MutablePTData.AddPts` | include/MemoryModel/MutablePointsToDS.h:71-74 | Adds one object; changed exactly if it was new; index kept complete and exact. |
| `PointsToStores.MutablePTData.UnionPts` | include/MemoryModel/MutablePointsToDS.h:76-79 | Adds another key's set, also to itself; index kept complete and exact. |
| `PointsToStores.MutablePTData.UnionPtsSet` | include/MemoryModel/MutablePointsToDS.h:81-85 | Adds a set; changed exactly if it was not contained; index kept complete and exact. |
| `PointsToStores.MutablePTData.AddRevPts` | include/MemoryModel/MutablePointsToDS.h:132-137 | Enters the key under every object of the set, and nothing else, if the index is supported. |
| `PointsToStores.MutablePTData.ClearPts` | include/MemoryModel/MutablePointsToDS.h:89-91 | Removes one object from one key; the index stays complete. |
| `PointsToStores.MutablePTData.ClearFullPts` | include/MemoryModel/MutablePointsToDS.h:93-93 | Empties one key's set; the index stays complete. |
| `PointsToStores.MutablePTData.CollapseField` | lib/WPA/Andersen.cpp:458-471 | Collapsing through the reverse index leaves no pointer to the field and redirects every one of them to the base; with an exact index nothing else changes. |
| `AndersenModel.DifferenceIsEnough` | include/MemoryModel/MutablePointsToDS.h:202-211 | Where the propagated part has arrived, what the difference brings a successor along copy and field edges is all that the whole set would. |
| `AndersenModel.AddEdgeKeeps` | include/WPA/Andersen.h:290-296 | A copy edge that a load or store calls for keeps the invariant without sending anything: cutting down the propagated set of its source makes the next difference large enough. |
| `AndersenModel.DerivedMeans` | lib/WPA/Andersen.cpp:238-271 | The copy edges called for say exactly this: a load copies to its destination from every object its pointer may hold, a store copies from its source to every such object, inert ones aside. |
| `AndersenModel.FieldsMean` | lib/WPA/Andersen.cpp:295-340 | Carrying fields along a field edge means: for every object at its source the field object at the edge's offset is at its destination. |
| `AndersenModel.DeclareKeeps` | include/MemoryModel/MutablePointsToDS.h:202-211 | Computing the difference declares the whole set of a wired node propagated: the invariant then holds but for the difference, owed along all its edges, and in full if the difference is empty. |
| `AndersenModel.ReceiveKeeps` | lib/WPA/Andersen.cpp:276-287 | A successor receiving the difference is served, and queued if its set grew, without harm to any other edge. |
| `AndersenModel.DrainedIsLeast` | include/WPA/WPASolver.h:99-107 | With the worklist empty all constraints hold in full, although only differences were propagated, and the sets lie within every other solution. |
| `AndersenSolver.Andersen.ProcessAllAddr` | lib/WPA/Andersen.cpp:213-231 | Establishes the invariant from empty sets. |
| `AndersenSolver.Andersen.HandleLoadStore` | lib/WPA/Andersen.cpp:189-208 | Gives a node all copy edges its loads and stores call for, queueing their sources; `AndersenModel.DerivedMeans` says which. |
| `AndersenSolver.Andersen.HandleCopyGep` | lib/WPA/Andersen.cpp:172-184 | Sends exactly what the node has not sent before along its copy and field edges, queueing whoever grows; afterwards nothing is owed. |
| `AndersenSolver.Andersen.SolveWorklist` | include/WPA/WPASolver.h:99-107 | From any consistent state the worklist drains and leaves the least solution, in any order. |
| `AndersenSolver.Andersen.Analyze` | lib/WPA/Andersen.cpp:130-137 | The whole analysis computes the least solution of the constraints: every load and store is served for every object its pointer holds, and no solution has less. |
| `AndersenRuns.SendSound` | lib/WPA/Andersen.cpp:172-184 | Sending the difference keeps all propagated sets within the successors' sets, since the difference is enough. |
| `AndersenRuns.WireSound` | include/MemoryModel/MutablePointsToDS.h:213-217 | So does cutting the propagated set of a source to what its new target has propagated. |
| `AndersenRuns.MergeSound` | lib/WPA/Andersen.cpp:670-691 | So does merging two nodes, with all their copy and field edges moved and the propagated set cut to the common part. |
| `AndersenRuns.MergeRepresented` | lib/Graphs/ConsG.cpp:425-522 | Moving and removing edges loses no copy constraint: its ends are merged or joined by an edge. |
| `AndersenRuns.RunSound` | include/WPA/WPASolver.h:90-107 | In every state of any run of loading, adding edges, sending and merging, what counts as propagated has arrived at all successors. |
| `AndersenRuns.QuietIsPropagated` | include/WPA/WPASolver.h:90-107 | When no node of such a run has anything left to send, whole sets have been propagated along every field edge and for every copy constraint ever added. |
| `AndersenRuns.MergeKeepsFields` | lib/Graphs/ConsG.cpp:200-207 | A merge keeps every field taken along an outer edge, at its offset and between the representatives, if and only if no two such edges come to join the same nodes at different offsets. |
| `AndersenRuns.FieldIsLost` | lib/Graphs/ConsG.cpp:311-319 | On a concrete cycle of two pointers to different fields of one object, merging drops one of the field edges. |
| `AndersenRuns.LoadedIsSound` | lib/WPA/Andersen.cpp:213-231 | The state after loading the address constraints, with the given copy edges in place, satisfies the invariant of such runs. |
| `AndersenRuns.CycleAgrees` | lib/WPA/Andersen.cpp:492-503 | In every solution the nodes of a copy cycle have the same set. |
| `AndersenRuns.RunImplied` | include/WPA/WPASolver.h:90-107 | In any run that adds only what the constraints call for and merges only nodes of copy cycles, every set, edge and merge follows from the constraints. |
| `AndersenRuns.RunKeepsFields` | lib/Graphs/ConsG.cpp:200-207 | If no merge joins two nodes by a field edge or lets two field edges clash, every field constraint stays represented at its own offset. |
| `AndersenRuns.MergedRunIsLeast` | lib/WPA/Andersen.cpp:492-503 | Such a run ends, with nothing left to load, add or send, in the least solution of all constraints, loads and stores of merged nodes included, read through the representatives. |
| `DataFlowModel.MoveRefines` | include/MemoryModel/MutablePointsToDS.h:527-580 | A single-set call agrees on both stores: a missing flag means the plain store has nothing to add either. |
| `DataFlowModel.AllOutRefines` | include/MemoryModel/MutablePointsToDS.h:582-599 | Moving only flagged variables from IN to OUT agrees with moving all of them, with and without a strong update. |
| `DataFlowModel.StepRefines` | include/MemoryModel/MutablePointsToDS.h:527-630 | One allowed call on both stores: same sets, same answer, and an unflagged set has still reached all its sinks. |
| `DataFlowModel.RunRefines` | include/MemoryModel/MutablePointsToDS.h:325-385 | For every disciplined run of calls from empty stores the incremental store holds the plain store's sets after every call and gives the same answers. |
| `DataFlowModel.StrongThenWeak` | include/MemoryModel/MutablePointsToDS.h:582-599 | In any disciplined run, a variable skipped by a strong update keeps its OUT set, its flag survives every later call that does not consume it, and the next weak update delivers its whole IN set of that time. |
| `DataFlowModel.ClearIsExact` | include/MemoryModel/MutablePointsToDS.h:621-630 | Clearing the OUT flags of a location is allowed exactly when afterwards the next call along each of its edges still answers like the plain store. |
| `DataFlowModel.PropagateThenClear` | lib/WPA/FlowSensitive.cpp:146-152 | After a change, moving the OUT sets along every edge of a location earns the right to clear its flags. |
| `DataFlowModel.UnchangedThenClear` | lib/WPA/FlowSensitive.cpp:146-152 | Without a change no flag was raised, and clearing is allowed although nothing was propagated. |
| `DataFlowStores.MutableDFPTData.UpdateDFInFromOut` | include/MemoryModel/MutablePointsToDS.h:331-335 | Performs the plain step of this call. |
| `DataFlowStores.MutableDFPTData.UpdateDFOutFromIn` | include/MemoryModel/MutablePointsToDS.h:337-341 | Performs the plain step of this call. |
| `DataFlowStores.MutableDFPTData.UpdateAllDFOutFromIn` | include/MemoryModel/MutablePointsToDS.h:353-374 | The loop over the IN set performs the plain step: every eligible variable is moved, changed exactly if some OUT set grew. |
| `DataFlowStores.MutableDFPTData.UpdateTLVPts` | include/MemoryModel/MutablePointsToDS.h:376-379 | Performs the plain step of this call. |
| `DataFlowStores.MutableDFPTData.UpdateATVPts` | include/MemoryModel/MutablePointsToDS.h:381-385 | Performs the plain step of this call. |
| `DataFlowStores.IncMutableDFPTData.UpdateDFInFromIn` | include/MemoryModel/MutablePointsToDS.h:527-536 | Performs the incremental step: nothing without the source flag, else union and flag. |
| `DataFlowStores.IncMutableDFPTData.UpdateDFInFromOut` | include/MemoryModel/MutablePointsToDS.h:538-547 | Performs the incremental step of this call. |
| `DataFlowStores.IncMutableDFPTData.UpdateDFOutFromIn` | include/MemoryModel/MutablePointsToDS.h:549-560 | Performs the incremental step of this call, taking the source flag down. |
| `DataFlowStores.IncMutableDFPTData.UpdateAllDFInFromOut` | include/MemoryModel/MutablePointsToDS.h:562-570 | Performs the incremental step of this call, which ignores the source flag. |
| `DataFlowStores.IncMutableDFPTData.UpdateAllDFInFromIn` | include/MemoryModel/MutablePointsToDS.h:572-580 | Performs the incremental step of this call, which ignores the source flag. |
| `DataFlowStores.IncMutableDFPTData.UpdateAllDFOutFromIn` | include/MemoryModel/MutablePointsToDS.h:582-599 | The loop over a copy of the flagged variables, each taking its own flag down, performs the incremental step. |
| `DataFlowStores.IncMutableDFPTData.UpdateTLVPts` | include/MemoryModel/MutablePointsToDS.h:601-609 | Performs the incremental step of this call, taking the source flag down. |
| `DataFlowStores.IncMutableDFPTData.UpdateATVPts` | include/MemoryModel/MutablePointsToDS.h:611-619 | Performs the incremental step of this call. |
| `DataFlowStores.IncMutableDFPTData.ClearAllDFOutUpdatedVar` | include/MemoryModel/MutablePointsToDS.h:621-630 | Takes down exactly the OUT flags of one location. |
| `FlowSensitiveModel.Lockstep` | include/MemoryModel/MutablePointsToDS.h:500-630 | An allowed call on the incremental store has a counterpart on the plain one: same sets, same answer, unflagged sets still delivered. |
| `FlowSensitiveModel.LoadAllowed` | lib/WPA/FlowSensitive.cpp:439-467 | A load may take the flag of an IN set down: its own target is the only sink. |
| `FlowSensitiveModel.UpdateAllowed` | lib/WPA/FlowSensitive.cpp:504-517 | So may a store, strong or weak: the OUT set is the only sink of an IN set there. |
| `FlowSensitiveModel.EdgeAllowed` | lib/WPA/FlowSensitive.cpp:331-342 | Whatever an indirect edge carries may be moved along it under guard of the flag. |
| `FlowSensitiveModel.ClearAllowed` | lib/WPA/FlowSensitive.cpp:146-152 | Once the edges leaving a store are served its OUT flags may be cleared. |
| `FlowSensitiveModel.UpdateDemands` | lib/WPA/FlowSensitive.cpp:504-517 | Every solution demands what a store keeps from its IN sets, although a strong update kills less when the pointer gets more targets. |
| `FlowSensitiveModel.NodeStays` | lib/WPA/FlowSensitive.cpp:157-209 | Visiting a node breaks the equation of another only if the node changed and a direct edge leads there. |
| `FlowSensitiveModel.VisitSettles` | lib/WPA/FlowSensitive.cpp:146-152 | After a node was visited, its edges being to be followed if it changed or always goes on, everything that does not hold yet is queued or waits behind such an edge. |
| `FlowSensitiveModel.FollowSettles` | lib/WPA/FlowSensitive.cpp:218-320 | So it is after following one edge, although a parameter node is queued in place of the uses of its pointer. |
| `FlowSensitiveModel.VisitProgress` | include/WPA/WPASolver.h:99-107 | A visit lets some set grow, or uses up queued nodes that always wake others, or the queue. |
| `FlowSensitiveModel.ExtendedSolves` | lib/WPA/FlowSensitive.cpp:555-585 | A solution for an updated graph solves the old one. |
| `FlowSensitiveModel.AllNewSinks` | lib/WPA/FlowSensitive.cpp:607-645 | Serving the new edges makes known exactly the sinks of the updated graph. |
| `FlowSensitiveModel.OneResult` | lib/WPA/FlowSensitive.cpp:76-107 | The result depends neither on the order of visits nor on the store: any two least solutions are the same. |
| `FlowSensitiveModel.StoreExact` | lib/WPA/FlowSensitive.cpp:476-523 | In the least solution a store leaves in the OUT set of an object exactly what is stored, if its pointer addresses the object, and what came in, unless the pointer has no target or the object is the only one and may be updated strongly. |
| `FlowSensitiveSolver.FlowSensitive.ProcessAddr` | lib/WPA/FlowSensitive.cpp:347-358 | Makes the equation of the node hold, writing only its pointer, by no more than every solution demands, and tells whether that changed. |
| `FlowSensitiveSolver.FlowSensitive.ProcessCopy` | lib/WPA/FlowSensitive.cpp:363-369 | The same for a copy. |
| `FlowSensitiveSolver.FlowSensitive.ProcessPhi` | lib/WPA/FlowSensitive.cpp:374-388 | The same for a phi node, operand by operand. |
| `FlowSensitiveSolver.FlowSensitive.ProcessGep` | lib/WPA/FlowSensitive.cpp:393-431 | The same for a field access. |
| `FlowSensitiveSolver.FlowSensitive.ProcessLoad` | lib/WPA/FlowSensitive.cpp:439-467 | The same for a load: every object the pointer may address that is not inert, and its fields if it is field-insensitive. |
| `FlowSensitiveSolver.FlowSensitive.ProcessStore` | lib/WPA/FlowSensitive.cpp:476-523 | The same for a store, left alone until its pointer has a target: what is stored, then the IN sets not killed. |
| `FlowSensitiveSolver.FlowSensitive.MoveInToOut` | lib/WPA/FlowSensitive.cpp:504-550 | Moves exactly the IN sets of all objects but one that is the pointer's only target and may be updated strongly. |
| `FlowSensitiveSolver.FlowSensitive.ProcessSVFGNode` | lib/WPA/FlowSensitive.cpp:157-209 | Dispatches on the kind of node; tells whether the edges are to be followed. |
| `FlowSensitiveSolver.FlowSensitive.PropVarPtsFromSrcToDst` | lib/WPA/FlowSensitive.cpp:331-342 | Moves one variable along an edge, from OUT at stores and from IN elsewhere. |
| `FlowSensitiveSolver.FlowSensitive.PropAlongIndirectEdge` | lib/WPA/FlowSensitive.cpp:297-325 | Afterwards the edge is served for every variable it carries, the fields of field-insensitive objects included. |
| `FlowSensitiveSolver.FlowSensitive.PropAlongDirectEdge` | lib/WPA/FlowSensitive.cpp:237-292 | Passes the set between parameters or returns; wakes the use of a pointer otherwise. |
| `FlowSensitiveSolver.FlowSensitive.Propagate` | include/WPA/WPASolver.h:119-127 | Following all edges of a node leaves nothing to be done that is not queued; without growth only unconditional wake-ups are queued. |
| `FlowSensitiveSolver.FlowSensitive.ProcessNode` | lib/WPA/FlowSensitive.cpp:146-152 | One visit keeps both stores in step and leaves everything that does not hold queued, flags included; it makes progress. No OUT flag of the node is left up. |
| `FlowSensitiveSolver.FlowSensitive.SolveWorklist` | include/WPA/WPASolver.h:99-107 | Terminates in any order of visits; plain and incremental store agree after every call and end in the least solution of the flow-sensitive equations. |
| `FlowSensitiveSolver.FlowSensitive.PropVarPtsAfterCGUpdated` | lib/WPA/FlowSensitive.cpp:649-659 | Moves one variable along a new edge whatever its flag says, and makes the sink known. |
| `FlowSensitiveSolver.FlowSensitive.UpdateConnectedNodes` | lib/WPA/FlowSensitive.cpp:607-645 | Taking over an updated graph loses nothing although flags of old sets are down: new edges are served at once, what grew there is queued, and so is every phi that takes a new operand. |
| `FlowSensitiveSolver.FlowSensitive.Analyze` | lib/WPA/FlowSensitive.cpp:76-107 | Rounds of solving and call graph updates, whatever they find, leave the incremental store with the least solution for the last graph, in which every store leaves exactly what is stored and not killed. |
| `TokenFlow.DrainedIsExact` | lib/MTA/MHP.cpp:111-142 | With the worklist empty every statement holds exactly the facts that some path from a seed carries to it past the statements taking them away. |
| `TokenFlow.BeginKeeps` | lib/MTA/MHP.cpp:262-262 | Popping a statement and taking away what it removes, which queues it once more, keeps the invariant. |
| `TokenFlow.PassOnKeeps` | include/MTA/MHP.h:147-155 | Passing a statement's facts on to one successor keeps the invariant and serves that successor. |
| `TokenFlow.SeedKeeps` | include/MTA/MHP.h:141-146 | New seeds, given even after earlier ones were spread, keep the invariant. |
| `TokenFlow.HandledProgress` | lib/MTA/MHP.cpp:111-142 | Handling a queued statement makes progress although removals undo earlier steps: joins are calls, so what they queue is plain or nearer to the end of the basic block. |
| `ForkJoin.ForkJoinAnalysis.MarkFlag` | include/MTA/MHP.h:379-384 | Overwrites a flag and queues the statement exactly if this changes it. |
| `ForkJoin.ForkJoinAnalysis.MarkFromSource` | include/MTA/MHP.h:386-401 | The three-valued transfer function unites the facts reached and alive that the flags stand for. |
| `ForkJoin.ForkJoinAnalysis.GetMarkedFlag` | include/MTA/MHP.h:369-377 | Looking up an unmarked statement gives Empty and changes no flag. |
| `ForkJoin.ForkJoinAnalysis.HandleFork` | lib/MTA/MHP.cpp:775-797 | Records for every thread forked here whether the analysed thread may be alive. |
| `ForkJoin.ForkJoinAnalysis.HandleJoin` | lib/MTA/MHP.cpp:800-831 | A matching join outside loops marks the thread dead and records that it joins it. |
| `ForkJoin.ForkJoinAnalysis.HandleIntra` | lib/MTA/MHP.cpp:921-934 | Serves every successor of the statement. |
| `ForkJoin.ForkJoinAnalysis.CheckExit` | lib/MTA/MHP.cpp:763-768 | Records at the exit of the parent's routine whether the thread may be alive. |
| `ForkJoin.ForkJoinAnalysis.HandleStatement` | lib/MTA/MHP.cpp:742-769 | One round of the worklist keeps the flow invariant and the records of everything no longer queued. |
| `ForkJoin.ForkJoinAnalysis.Traverse` | lib/MTA/MHP.cpp:727-770 | The traversal of one thread terminates; each flag is TDAlive exactly if some path from the fork site avoids all joins of the thread, TDDead if only others exist, Empty if none does. |
| `ForkJoin.HandledBooked` | lib/MTA/MHP.cpp:742-769 | Records made while flags are still changing are justified by paths, and complete for statements no longer queued. |
| `ForkJoin.DrainedTraversed` | lib/MTA/MHP.cpp:727-770 | At the end the records say exactly which forks, exits and joins were reached and which of them alive. |
| `ForkJoin.LiveMeans` | lib/MTA/MHP.cpp:727-770 | Reached means by a path from a statement following the fork site, alive by one that meets no join of the thread, at its end neither. |
| `ForkJoin.AnalyzedNext` | lib/MTA/MHP.cpp:722-772 | Records of the threads' traversals accumulate without spoiling each other. |
| `ForkJoin.ForkJoinAnalysis.AnalyzeForkJoinPair` | lib/MTA/MHP.cpp:722-772 | After one traversal per forked thread all records are exact. |
| `ForkJoin.ForkJoinAnalysis.IsHBPair` | include/MTA/MHP.h:300-306 | A thread happens before another exactly if it is dead at every fork of the other that is reached, some is, and the other is not alive at a fork of it. |
| `ForkJoin.ForkJoinAnalysis.IsFullJoin` | include/MTA/MHP.h:308-315 | A thread fully joins its child exactly if its routine's exit is reached and never with the child alive. |
| `Interleaving.MHP.AddInterleavingThread` | include/MTA/MHP.h:141-146 | Enters one thread; statement listed and queued exactly if it was new. |
| `Interleaving.MHP.AddInterleavingFrom` | include/MTA/MHP.h:147-155 | Enters another statement's threads; listed and queued exactly if the set grew. |
| `Interleaving.MHP.RmInterleavingThread` | include/MTA/MHP.h:156-169 | Takes away all joined threads, or none if the executing thread is forked repeatedly or the site lies in a recursion; queued exactly if the set shrank. |
| `Interleaving.MHP.HandleStatement` | lib/MTA/MHP.cpp:242-282 | Takes joined threads away, then serves every successor; the index is kept. |
| `Interleaving.MHP.Drain` | lib/MTA/MHP.cpp:111-142 | Empties the worklist, in any order, keeping flow invariant and index. |
| `Interleaving.MHP.AnalyzeInterleaving` | lib/MTA/MHP.cpp:98-143 | Placing the threads one after the other, spreading each, ends with a statement's set holding exactly the threads that some path brings there past all joins certain to happen. |
| `Interleaving.DrainedIndex` | include/MTA/MHP.h:97-108 | A statement is in the index exactly if some thread arrives at it, also where all threads arriving are joined again. |
| `Interleaving.PassedOnIndex` | include/MTA/MHP.h:147-155 | Listing a statement only when its set grows still lists every successor of a statement holding threads. |
| `Interleaving.BegunIndex` | include/MTA/MHP.h:156-169 | Removals leave the index alone and statements holding threads stay listed. |
| `Interleaving.ThreadsExact` | lib/MTA/MHP.cpp:98-143 | The interleaving set of a statement holds a thread exactly if a path brings it there past all joins of it. |
| `Interleaving.AlongsideMeans` | lib/MTA/MHP.cpp:466-470 | A thread runs alongside a statement exactly if a path brings it there and neither there nor on the way it is joined by a thread not forked repeatedly outside recursion. |
| `Interleaving.ComesMeans` | lib/MTA/MHP.cpp:98-143 | Some thread arrives at a statement exactly if such a path leads there. |
| `Interleaving.QueryOverIndex` | lib/MTA/MHP.cpp:539-546 | Looking at the listed statements only misses no pair that may run in parallel. |
| `Interleaving.MHP.MayHappenInParallelInst` | lib/MTA/MHP.cpp:535-568 | Answers yes exactly if some contexts of the two instructions are reached and each runs alongside the other's thread, or both belong to one thread forked repeatedly. |
| `LockSpans.AcquireKeeps` | include/MTA/LockAnalysis.h:212-215 | Adding its own lock at an acquire keeps the lock and meet invariants: the holder is in the span, and the lock was acquired on a way to it. |
| `LockSpans.PopKeeps` | include/MTA/LockAnalysis.h:228-228 | Giving a statement an empty lockset when it is taken from the queue keeps the lock and meet invariants, and it does not hold the lock it may acquire. |
| `LockSpans.SpansKept` | include/MTA/LockAnalysis.h:212-215 | Every step keeps: a statement is in the span of a lock only if it has a lockset and the lock was acquired on some way to it. |
| `LockSpans.ReleaseUnheld` | include/MTA/LockAnalysis.h:217-225 | No statement ever holds a lock named by a release, so the removal at a release finds nothing. |
| `LockSpans.LockAnalysis.Intersect` | include/MTA/LockAnalysis.h:331-348 | Erasing in two loops leaves the intersection; true exactly if something was erased. |
| `LockSpans.LockAnalysis.MarkCxtStmtFlag` | include/MTA/LockAnalysis.h:317-330 | Copies the lockset to a statement without one, meets it otherwise; queued if new or shrunk. |
| `LockSpans.MarkKeeps` | include/MTA/LockAnalysis.h:317-330 | Marking keeps: held locks have the holder in their span and come with every lock held at their acquire, and handled statements holding a lock are met into their successors. |
| `LockSpans.MarkHolds` | include/MTA/LockAnalysis.h:317-330 | A statement that has a lockset only ever loses locks by marking, only the target changes, and it is queued whenever it does. |
| `LockSpans.MarkMeans` | include/MTA/LockAnalysis.h:317-330 | Marking copies the source's locks to a new statement and enters it in their spans and no other; a statement with a lockset keeps what the source holds too, and no span changes. |
| `LockSpans.MarkGrounded` | include/MTA/LockAnalysis.h:317-330 | Marking takes a lock away only for a predecessor lacking it, an acquire's own lock excepted, which sends the acquire back to the queue. |
| `LockSpans.MarkQueue` | include/MTA/LockAnalysis.h:327-328 | An acquire is queued again only after losing its own lock, so handling it again always passes its lockset on. |
| `LockSpans.HandledProgress` | lib/MTA/LockAnalysis.cpp:334-363 | Every round touches a statement, or takes a lock away for good, or uses up the queue, although acquires take their own lock back. |
| `LockSpans.LockAnalysis.HandleStatement` | lib/MTA/LockAnalysis.cpp:334-363 | One round keeps the invariant and marks each successor once, in some order; adding at an acquire always succeeds; a release changes nothing but the queue and its own registration. |
| `LockSpans.ReleaseKeepsLocks` | lib/MTA/LockAnalysis.cpp:353-355 | In the end a release that is no entry holds every lock that all its handled predecessors hold. |
| `LockSpans.ReleasePassesNothing` | lib/MTA/LockAnalysis.cpp:353-355 | A statement preceded by releases only gets no lockset. |
| `LockSpans.LockAnalysis.AnalyzeLockSpanCxtStmt` | lib/MTA/LockAnalysis.cpp:321-364 | Terminates with a lockset for exactly the statements reached without going past a release; every held lock was acquired on some way to the holder, and other locks are missing only where some predecessor lacks them; the span of a lock holds exactly the statements that held it at some time of the run. |
| `LockSpans.Drained` | lib/MTA/LockAnalysis.cpp:334-364 | With the worklist empty the result is as stated for the whole analysis; in particular a successor holds no foreign lock its predecessor lacks if and only if the predecessor holds some lock or the successor holds no foreign one. |
| `LockSpans.SpanIsHistory` | lib/MTA/LockAnalysis.cpp:334-364 | Over any run from empty spans, the span of a lock holds exactly the statements that held it at some time, although a lock lost in a meet leaves the statement in the span. |
| `LockSpans.FirstMeet` | include/MTA/LockAnalysis.h:317-330 | Two sources are met at a new statement if and only if the first holds some lock or the second none: the exact condition, known before the second is marked. |
| `LockSpans.TouchedInTime` | lib/MTA/LockAnalysis.cpp:334-364 | Over a whole run: if a source is handled at least once when the target has a lockset already, the two are met in the end, whatever happened before and after. |
| `LockSpans.MeetIsLost` | lib/MTA/LockAnalysis.cpp:334-364 | On a branch with a single entry, a run of rounds in first-in-first-out order to an empty queue ends with a lock at a statement one of whose predecessors holds none. |
| `ThreadTree.TCT.AddTCTNode` | include/MTA/TCT.h:307-316 | A new thread gets the next number and the maps stay inverse. |
| `ThreadTree.TCT.AddTCTEdge` | include/MTA/TCT.h:318-327 | An edge is entered at both ends and counted, once. |
| `ThreadTree.TCT.HasParentThread` | include/MTA/TCT.h:185-188 | True exactly if a single edge enters the thread. |
| `ThreadTree.TCT.GetAncestorThread` | include/MTA/TCT.h:200-216 | Terminates on any graph and returns exactly the threads one or more parent steps above. |
| `ThreadTree.TCT.GetSiblingThread` | include/MTA/TCT.h:218-233 | Returns exactly the other threads created by the parent. |
| `ThreadTree.SiblingsAgree` | include/MTA/TCT.h:185-233 | A sibling counts the thread as its sibling, and has the same ancestors, if and only if it has a single creator too. |
| `ThreadTree.TwoCreators` | include/MTA/TCT.h:218-233 | A valid graph, built by adding threads and edges, in which a sibling does not count the thread as its own sibling. |
| `GenericGraph.FlagsTellApart` | include/Graphs/GenericGraph.h:147-150 | The kind can be read back from a flag, and two flags are equal exactly if kinds and the low 24 bits of the call sites are. |
| `GenericGraph.FlagsCollide` | include/Graphs/GenericGraph.h:147-150 | Call sites 1 and 2^24 + 1 get the same flag. |
| `GenericGraph.GenericGraph.AddGNode` | include/Graphs/GenericGraph.h:354-362 | Registers a node under its own id; the maps stay inverse, and the ends of edges agree afterwards if and only if the node carried no edges. |
| `GenericGraph.GenericGraph.RemoveGNode` | include/Graphs/GenericGraph.h:404-415 | Removes a node without edges from both maps; the representation invariant is kept. |
| `GenericGraph.GenericGraph.RemoveGNodeById` | include/Graphs/GenericGraph.h:392-396 | The same by id, without effect for an unused one. |
| `GenericGraph.GenericGraph.AddGEdge` | include/Graphs/GenericGraph.h:426-449 | Registers an edge in both maps and at both ends, both insertions succeeding; maps stay inverse, ends stay in step, no two edges equal. |
| `GenericGraph.GenericGraph.RemoveGEdge` | include/Graphs/GenericGraph.h:516-537 | Removes exactly this edge from the maps and from both ends. |
| `GenericGraph.GenericGraph.OnlyItself` | include/Graphs/GenericGraph.h:267-271 | A registered edge is the only one at either end equal to it, so erasing by equality erases it alone. |
| `GenericGraph.GenericGraph.GetGEdge` | include/Graphs/GenericGraph.h:478-494 | Finds the registered edge with this flag if there is one, and never a second. |
| `GenericGraph.GenericGraph.GetNextNodeId` | include/Graphs/GenericGraph.h:559-566 | The id is unused, at least the counter, and below every id handed out later. |
| `GenericGraph.GenericGraph.GetNextEdgeId` | include/Graphs/GenericGraph.h:567-574 | The same for edges. |
| `GenericGraph.GenericGraph.AddCallEdge` | lib/Graphs/PTACallGraph.cpp:139-157 | Afterwards exactly one edge with this flag joins the nodes, an existing one if there was one. |
| `GenericGraph.TwoSitesOneEdge` | lib/Graphs/PTACallGraph.cpp:139-157 | Their calls of one function share one edge. |
| `CondPointsTo.CondPointsToSet.UnionWith` | include/MemoryModel/ConditionalPT.h:475-488 | Union of the pairs, also with itself; true exactly if the set of pairs changed. |
| `CondPointsTo.CondPointsToSet.IntersectWith` | include/MemoryModel/ConditionalPT.h:440-465 | Intersection of the pairs, also with itself; true exactly if the set of pairs changed. |
| `CondPointsTo.CondPointsToSet.IntersectWithComplement` | include/MemoryModel/ConditionalPT.h:421-437 | Difference of the pairs, also with itself. |
| `CondPointsTo.CondPointsToSet.Aliased` | include/MemoryModel/ConditionalPT.h:327-346 | True exactly if the pairs overlap. |
| `CondPointsTo.CondPointsToSet.Intersects` | include/MemoryModel/ConditionalPT.h:373-393 | True exactly if the pairs overlap, walking over the other operand. |
| `CondPointsTo.CondPointsToSet.IsSubset` | include/MemoryModel/ConditionalPT.h:349-370 | True exactly if the pairs are included and so are the conditions, empty ones among them. |
| `CondPointsTo.LeftBehind` | include/MemoryModel/ConditionalPT.h:349-370 | A set whose only pair was removed again is included in an empty one, but the subset test says no. |
| `CondPointsTo.CondPointsToSet.NumElement` | include/MemoryModel/ConditionalPT.h:281-292 | The number of pairs. |
| `CondPointsTo.CondPointsToSet.Empty` | include/MemoryModel/ConditionalPT.h:294-294 | True exactly if there is no pair, whatever conditions are stored. |
| `CondPointsTo.CondPointsToSet.TestAndSet` | include/MemoryModel/ConditionalPT.h:543-546 | Adds one pair; true exactly if it was new. |
| `CondPointsTo.CondPointsToSet.Test` | include/MemoryModel/ConditionalPT.h:547-553 | Membership of one pair. |
| `CondPointsTo.CondPointsToSet.Set` | include/MemoryModel/ConditionalPT.h:554-557 | Adds one pair. |
| `CondPointsTo.CondPointsToSet.Reset` | include/MemoryModel/ConditionalPT.h:558-563 | Removes one pair. |
| `CondPointsTo.Overlap` | include/MemoryModel/ConditionalPT.h:331-346 | The pairs of two maps overlap exactly if the sets of some common condition do. |
| `CondPointsTo.Inclusion` | include/MemoryModel/ConditionalPT.h:355-367 | The pairs of one map are among those of another exactly if condition by condition the sets are. |
| `TypeSets.TypeSet.Intersect` | include/MemoryModel/PTAType.h:110-139 | True exactly if the sets share a type, across the singleton shortcuts, the range exit and the merge. |
| `TypeSets.Apart` | include/MemoryModel/PTAType.h:122-127 | Ordered sets one of which ends before the other begins share nothing. |
| `TypeSets.SkipFirst` | include/MemoryModel/PTAType.h:129-136 | Advancing past the smaller front element loses no shared type. |
| `TypeSets.TypeSet.AddType` | include/MemoryModel/PTAType.h:96-99 | Inserts in order; true exactly if the type was new. |
| `TypeSets.TypeSystem.AddTypeForVar` | include/MemoryModel/PTAType.h:187-198 | Adds one type to one variable and to no other; true exactly if it was new. |
| `TypeSets.TypeSystem.AddVarForType` | include/MemoryModel/PTAType.h:207-217 | Adds one variable to one type and to no other. |
| `TypeSets.TypeSystem.AddType` | include/MemoryModel/PTAType.h:280-282 | Updating the second index only when the first one changed keeps the two indexes inverse. |

## Left out

Weaker than the source in some respect:

- DemandSolver.Solver.HandleSingleStatement: the call graph is fixed, so indirect-call resolution (`resolveFunPtr`), which queries function pointers and adds value-flow edges while solving, is not part of the model; nor is the must-alias shortcut at stores, whose test is constantly false in the base class.
- DemandSolver.Solver.FindPT: path and context conditions (`handleBKCondition`) always hold; the context-sensitive client, whose downgrade asks the flow-sensitive one, is not modelled.
- DemandSolver.Solver.Query: the pre-analysis is an input assumed to be sound; LeastSolution.InclusionsAreSound gives the inclusions that make it so. With caches keyed by item, the sets a client accumulates per pointer beside them (`unionPts`) are left out; keyed by variable they are the top-level caches themselves. Where entries are shared, exactness is not characterised graph by graph: sharing may be harmless, and DemandExamples.AgreementNeeded gives a necessary condition only.
- Svfg.PointwiseGepIsMonotone: field handling is a fixed function; that a variant field access makes an object field-insensitive, and so changes the function while solving, is left out.
- LeastSolution.Least: is the least solution for monotone field handling; without it queries still terminate, with closed items unless entries are shared, but are not compared with a least solution.
- PointsToStores.MutablePTData.CollapseField: one field object, without queueing the pointers and without merging the field's own node.
- AndersenSolver.Andersen.SolveWorklist: collapsing positive-weight cycles and fields is not interleaved with solving (`collapsePWCNode`, `collapseFields`); merging nodes is a step of AndersenRuns. Field handling is a fixed function of object and offset.
- AndersenSolver.Andersen.Analyze: one solving round, without call-graph updates, changes of field sensitivity and the re-analysis they cause.
- AndersenRuns.QuietIsPropagated: says of the field edges left after merging that they are served; those a merge loses are described by AndersenRuns.MergeKeepsFields, and those inside a merged pair, which make the representative a node to be collapsed, are dropped as in the code. Load and store constraints come in with AndersenRuns.MergedRunIsLeast; that such a run ends is shown for the solver without merging only.
- DataFlowStores.MutableDFPTData.UpdateTLVPts: the reverse index of the embedded points-to store is not modelled.
- DataFlowStores.IncMutableDFPTData.UpdateTLVPts: the reverse index, which the union into the top-level set maintains here, is not modelled.
- DataFlowModel.RunRefines: takes the calling discipline as a hypothesis: guarded calls follow known edges, new edges are served by a forced call first, and flags go only after every sink was served. DataFlowModel.PropagateThenClear and DataFlowModel.UnchangedThenClear earn the last part for the OUT flags of a location; FlowSensitiveSolver.FlowSensitive.Analyze discharges all of it for the analysis driving the store.
- FlowSensitiveSolver.FlowSensitive.Analyze: which edges and phi operands a call graph update adds is an input; field sensitivity is fixed, so that an object made field-insensitive while solving (`setObjFieldInsensitive`) is left out. Every use of a pointer has a direct edge from every definition, indirect edges leave stores and memory regions only, and new ones lead to formal-in or actual-out nodes, as the graph construction has it.
- ForkJoin.ForkJoinAnalysis.HandleJoin: a join in a loop that the analysis matches overwrites the flags at the loop exits, which is not modelled; only joins outside loops kill. A loop join that does not match passes its flag to the loop exits like any control-flow edge.
- ForkJoin.ForkJoinAnalysis.HandleStatement: the rounds at matched joins in loops are not covered, for the same reason.
- ForkJoin.ForkJoinAnalysis.Traverse: the program has no matched joins in loops, for the same reason.
- ForkJoin.ForkJoinAnalysis.AnalyzeForkJoinPair: whether a join matches a fork (alias and scalar-evolution reasoning), context strings and the threads themselves are inputs. The closure of directly joined threads over full joins is one as well.
- Interleaving.MHP.HandleStatement: joins in loops with the symmetric pattern remove threads at the loop exits, which is not modelled.
- Interleaving.MHP.AnalyzeInterleaving: where a thread is placed initially, and which threads a join takes away, are inputs rather than computed from the thread tree and the fork/join records; and the final copying of interleavings to the remaining statements of functions without threading calls is left out.
- Interleaving.MHP.MayHappenInParallelInst: the cache for such functions is left out.
- TokenFlow.HandledProgress: relies on a join being a call followed in its basic block by its only successor, as in LLVM; on a control-flow cycle of joins alone the worklist could go round forever. LockSpans.HandledProgress relies on the same of acquires.
- LockSpans.LockAnalysis.AnalyzeLockSpanCxtStmt: intra-procedural locks, the collection of context-sensitive lock sites and the alias queries between locks are left out.
- ThreadTree.TwoCreators: uses the operations of the graph directly; whether the construction from a program, which adds an edge only along with a new thread routine, gives a thread two creators is not part of this model.
- ThreadTree.TCT.AddTCTEdge: an edge is a pair of thread ids; there is one kind of edge.
- GenericGraph.GenericGraph.AddGNode: a node arrives under its own id; memory ownership, and graphs that enter edges at nodes without registering them, are left out.
- GenericGraph.GenericGraph.GetNextNodeId: asks for an unused id below the maximum, where the code asserts.
- GenericGraph.GenericGraph.AddCallEdge: the map from call instructions to edges is left out.
- GenericGraph.FlagsTellApart: kinds below 256 only, which lets the bitwise or be an addition.
- CondPointsTo.CondPointsToSet.IsSubset: the size comparison up front is kept; conditions are compared by equality.
- TypeSets.TypeSet.Intersect: without a singleton on either side both sets are non-empty, as reading the largest element demands.

Not modelled at all:

- `CondPointsToSet::operator==` and `operator<`, which depend on the iteration order of an unordered map, the two-argument `intersectWithComplement`, which keeps stale conditions, and the iterator class.
- `getGEdge` by kind, which counts several edges of one kind with different call sites and then stops at an assertion.
- `MutableDiffPTData::clear`, which resets neither the difference nor the propagated sets, and the versioned points-to store.
- `isRecurFullJoin`, `executedByTheSameThread` and the lock-protection queries.
- The path-sensitive and context-sensitive clients, value-flow graph construction, memory regions, serialization, dumps, statistics and timing.
