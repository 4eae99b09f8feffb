# dynamicAstar: the A* search engine, modelled and proved in Dafny

The repository's logic is the single function `AStar(firstNode, getNeighbourgs,
{isFinalNode, max})` in `src/AStar.js`. It searches from a start record as follows:

- The frontier `todo` is a `Map` from id to node record, iterated in insertion order.
- `done` is a `Set` of the ids already expanded.
- Each round selects the frontier entry with the least virtual cost (cost plus cost
  estimation). Ties go to the least estimation, then to the first entry in insertion
  order. `max` mode mirrors this with greatest values.
- If the selected entry passes the termination test, the search stops on it.
- Otherwise its id moves to `done` and the neighbour function is called on it. Each
  candidate is handled in turn:
  - invalid candidates are skipped;
  - expanded ids are skipped;
  - a frontier record is relaxed in place when the candidate's cost is strictly
    better;
  - any other candidate is scored and added to the frontier, with the expanded node
    as its parent.
- Scoring replaces a function-valued estimation by its result.
- The result is the path found by following parent links back from the final node,
  reversed. It is empty when the frontier runs out.

The model has six modules:

- `Nodes` (`nodes.dfy`): estimations, candidates and node records. It holds scoring
  (`computeNode`), the default termination test (`isFinalNd`) and the parent chain.
- `Selection` (`selection.dfy`): `nextNodeMin` and `nextNodeMax` as loop methods over
  the frontier in insertion order. The selection rule is defined as a predicate, and
  the scan is proved to return exactly the entry that rule picks.
- `Search` (`search.dfy`): the reference semantics as functions.
  - The search state bundles the frontier map, its insertion order, the expanded
    ids, the sequence of nodes the neighbour function was called on and the multiset
    of ids whose deferred estimation was called.
  - It defines candidate handling, one expansion, and the whole run, together with
    the search invariant and the lemmas that the run keeps it.
- `Outcomes` (`outcomes.dfy`): what a whole search guarantees about its path, its
  neighbour calls and its estimation calls.
- `Engine` (`engine.dfy`): `AStar` itself as an imperative method.
  - A `while` loop selects, stops or expands. The candidate loop is `HandleChildren`.
    The path rebuild pushes parents in a loop and then reverses.
  - The method is proved to compute exactly `Search.Solve` and to give the
    `Outcomes` guarantees.
- `Scenarios` (`scenarios.dfy`): the unit tests' concrete runs, derived from the
  reference semantics. These are the call counts, the estimation count, and the min
  and max expansion orders with their call codes.

The neighbour function and the termination test are function parameters. Calls to
them are made visible as ghost results:

- `trace`: the nodes the neighbour function was called on, in call order;
- `evaluated`: the ids whose deferred estimation was called.

Each node record is a value. Its `parent` is a snapshot of the node that was being
expanded when the record was inserted or last relaxed. This agrees with the source
for the following reasons:

- A parent is always the node being expanded.
- That node's id is in `done` from then on.
- A record whose id is in `done` is never modified again.

Termination uses a ghost finite `universe` of ids and the loop measure
`|universe - done|`. The universe must hold the start id. It must also be closed
under the neighbour function for EVERY record whose id is in it, whatever that
record's cost, estimation and parent: each valid candidate such a record yields has
its id in the universe (`Search.Closed`). A neighbour function that takes its ids
from a record's cost or parent therefore has no universe, even when the search
itself reaches only finitely many ids. One example yields, for every record, a
single candidate whose id is that record's cost.

## Model

| member | source | states |
|---|---|---|
| Nodes.ComputeNode | src/AStar.js:69-76 | the scored record keeps id, cost and parent; its estimation is the number the deferred one returns (a numeric one is kept as is); its virtual cost is cost plus estimation |
| Nodes.Evaluations | src/AStar.js:70-72 | no contract of its own (the ids whose deferred estimation one scoring calls); its properties are Search.HandleFreshCandidate (a fresh record adds its own call), Search.HandleFrontierCandidate (relaxation adds none) and Outcomes.EstimationsCalledOnce |
| Nodes.IsFinalNd | src/AStar.js:130-132 | no contract of its own (a node is final when its estimation is the number 0); its properties are Engine.DefaultOptions and Outcomes.StartAlreadyFinal |
| Nodes.Chain | src/AStar.js:118-127 | the chain of parent links starts at a parentless record, and each record's parent is the record before it |
| Nodes.ChainLast | src/AStar.js:121-125 | the chain ends at the record it was built from |
| Nodes.PathOf | src/AStar.js:118-127 | no contract of its own (the chain of the final node, or nothing); its properties are Outcomes.PathEmptyIffExhausted, Outcomes.PathFromStartToFinal and Engine.RebuildPath |
| Nodes.LinkChild | src/AStar.js:106-114 | a record given the expanded node as parent is linked: its chain starts at the start record, has distinct ids, and every record before it was expanded |
| Nodes.LinkedGrows | src/AStar.js:89 | expanding more ids keeps a record linked |
| Selection.Improves | src/AStar.js:31-63 | no contract of its own (the comparison a scan applies: better virtual cost, or equal virtual cost and better estimation); its properties are Selection.SelectedUnique, Selection.NextNodeMin and Selection.NextNodeMax |
| Selection.Scan | src/AStar.js:31-41 | no contract of its own (the scan of the frontier in insertion order as a function); its properties are Selection.ScanSelects and Selection.Select |
| Selection.SelectedUnique | src/AStar.js:31-41 | at most one frontier entry satisfies the selection rule |
| Selection.ScanSelects | src/AStar.js:31-41 | a scan that continues from the entry selected among a prefix returns the entry selected among all entries |
| Selection.Select | src/AStar.js:25-67 | on a non-empty frontier the selected index is in range and satisfies the selection rule |
| Selection.NextNodeMin | src/AStar.js:25-45 | returns the record at the selected index in min mode: no entry has lower virtual cost or an equal one with lower estimation, the entries before it are all worse, and its virtual cost is minimal |
| Selection.NextNodeMax | src/AStar.js:47-67 | the same with greatest virtual cost, then greatest estimation |
| Search.Without | src/AStar.js:90 | deleting an id leaves exactly the other ids of the insertion order |
| Search.WithoutAt | src/AStar.js:90 | when ids are distinct, deletion keeps the others in insertion order |
| Search.WithoutNoDup | src/AStar.js:90 | deletion keeps the ids distinct |
| Search.IsBetter | src/AStar.js:104 | no contract of its own (a strictly lower cost in min mode, a strictly greater one in max mode); its properties are Search.HandleFrontierCandidate and Search.HandleAllUnchanged |
| Search.HandleCandidate | src/AStar.js:93-114 | no contract of its own; its properties are Search.HandleFrontierCandidate, Search.HandleFreshCandidate, Search.Kept and Search.HandleCandidateInv |
| Search.HandleAll | src/AStar.js:92-115 | handling candidates never changes the expanded ids or the neighbour calls |
| Search.HandleAllUnchanged | src/AStar.js:93-111 | when every candidate is invalid, expanded, or no improvement on its frontier record, the state is unchanged |
| Search.HandleFrontierCandidate | src/AStar.js:102-111 | a candidate for a frontier id changes only that record, and only when strictly better: it then takes the candidate's cost and the expanded node as parent, keeps its numeric estimation and is rescored; order, expanded ids and estimation calls are untouched |
| Search.HandleFreshCandidate | src/AStar.js:112-114 | a valid candidate for an id neither expanded nor in the frontier adds exactly that id: a scored record with the candidate's cost and the expanded node as parent, appended to the insertion order, with its estimation call recorded; the other records, the expanded ids and the neighbour calls are untouched |
| Search.Kept | src/AStar.js:93-101 | the candidates acted on are exactly the valid ones whose ids are not expanded: each kept candidate is valid and unexpanded, and each valid, unexpanded candidate is kept |
| Search.HandleAllKept | src/AStar.js:93-101 | skipping invalid and expanded candidates does not affect the handling of the others |
| Search.HandleAllAdmits | src/AStar.js:98-114 | frontier ids stay in the frontier, and every valid, unexpanded candidate id is in the frontier afterwards |
| Search.Expand | src/AStar.js:88-115 | no contract of its own; its properties are Search.ExpandUnchanged and Search.ExpandInv |
| Search.ExpandUnchanged | src/AStar.js:88-115 | an expansion with no effective candidate only moves the id from the frontier (and its insertion order) to the expanded ids and records the neighbour call |
| Search.Root | src/AStar.js:19-23 | no contract of its own (the scored, parentless start record); its properties are Search.InitInv and Outcomes.StartAlreadyFinal |
| Search.Init | src/AStar.js:19-23 | no contract of its own (the state holding only the start record); its properties are Search.InitInv |
| Search.InitInv | src/AStar.js:19-23 | the state holding only the scored start record satisfies the search invariant |
| Search.RelaxInv | src/AStar.js:102-110 | relaxing a frontier record keeps the invariant |
| Search.InsertInv | src/AStar.js:113-114 | inserting a fresh scored record keeps the invariant |
| Search.HandleCandidateInv | src/AStar.js:93-114 | handling one candidate keeps the invariant |
| Search.HandleAllInv | src/AStar.js:92-115 | handling all candidates of a call keeps the invariant |
| Search.MoveToDoneInv | src/AStar.js:88-90 | moving the selected id from the frontier to the expanded ids keeps the invariant |
| Search.ExpandInv | src/AStar.js:88-115 | one expansion keeps the invariant, adds exactly its id to the expanded ids and its node to the neighbour calls |
| Search.RunExhausted | src/AStar.js:26-44 | with an empty frontier the search ends without a final node |
| Search.RunStops | src/AStar.js:81-86 | when the selected entry is final the search ends on it |
| Search.RunContinues | src/AStar.js:81-116 | when the selected entry is not final the search goes on from its expansion, which keeps the invariant |
| Search.RunInv | src/AStar.js:81-116 | the search keeps the invariant (disjoint frontier and expanded ids, scored and linked records, one estimation call per id, one neighbour call per expanded id) |
| Search.RunGrows | src/AStar.js:88-92 | the search only adds expanded ids and neighbour calls |
| Search.RunEnds | src/AStar.js:81-86 | the search ends with an empty frontier and no final node, or on the selected entry, which passes the termination test |
| Search.RunExpandsOnlyNonFinal | src/AStar.js:82-92 | the neighbour function is never called on a node that passes the termination test |
| Search.Run | src/AStar.js:81-116 | no contract of its own; its properties are Search.RunExhausted, Search.RunStops, Search.RunContinues, Search.RunInv, Search.RunGrows, Search.RunEnds and Search.RunExpandsOnlyNonFinal |
| Search.Solve | src/AStar.js:18-116 | no contract of its own (the run from the initial state); its properties are Outcomes.SolveInv and Outcomes.SearchGuarantees, and Engine.AStar computes it |
| Outcomes.SolveInv | src/AStar.js:18-116 | the last state of a search satisfies the invariant |
| Outcomes.FrontierDisjointAndScored | src/AStar.js:69-114 | at the end the frontier and the expanded ids are disjoint and every frontier record is scored |
| Outcomes.EstimationsCalledOnce | src/AStar.js:69-76 | no deferred estimation is called twice for one id |
| Outcomes.NeighbourCallsOncePerId | src/AStar.js:88-92 | neighbour calls are on distinct expanded ids, none of them final, one per expanded id, at most as many as ids in the universe |
| Outcomes.StartAlreadyFinal | src/AStar.js:82-86 | a final start record is returned alone, with no neighbour call and only its own estimation call |
| Outcomes.PathEmptyIffExhausted | src/AStar.js:118-127 | the path is empty exactly when no final node was selected, exactly when the frontier ran out |
| Outcomes.PathFromStartToFinal | src/AStar.js:118-127 | a non-empty path starts at the parentless start record and ends at the selected final node; each record's parent is the previous one, ids are distinct, and every record but the last was expanded |
| Outcomes.SearchGuarantees | src/AStar.js:18-128 | every search gives the path, neighbour-call and estimation-call guarantees above |
| Engine.DefaultOptions | src/AStar.js:18 | by default the search is in min mode and a node is final exactly when its estimation is the number 0 |
| Engine.Reverse | src/AStar.js:127 | reversal keeps the length and mirrors positions |
| Engine.RebuildPath | src/AStar.js:118-127 | pushing along parent links and reversing gives the chain from the start record to the final node, or nothing |
| Engine.HandleChildren | src/AStar.js:92-115 | the candidate loop computes the reference handling of all candidates |
| Engine.AStar | src/AStar.js:18-128 | returns the path of the reference search and its neighbour calls and estimation calls, and gives the search guarantees |
| Scenarios.NoNeighboursScenario | tests/unit/AStar.spec.js:6-25 | with no neighbours the neighbour function is called once, on the start record, and the path is empty |
| Scenarios.StartNeighboursScenario | tests/unit/AStar.spec.js:27-54 | when only the start record has neighbours (2 and 3), the neighbour function is called three times, on 1, 2 and 3, and the path is empty |
| Scenarios.DeferredEstimationsScenario | tests/unit/AStar.spec.js:56-88 | with two deferred neighbours there are three neighbour calls (on 1, 2, 3), two estimation calls and no path |
| Scenarios.MixedNeighboursScenario | tests/unit/AStar.spec.js:170-195 | undefined, null and false entries are skipped: three neighbour calls (on 1, 2, 3) and no path |
| Scenarios.MinOrderScenario | tests/unit/AStar.spec.js:90-128 | min mode expands 0, 5, 2, 3, 1, 4 (call code 264351) and finds no path |
| Scenarios.MaxOrderScenario | tests/unit/AStar.spec.js:130-168 | max mode expands 0, 4, 1, 3, 2, 5 (call code 624531) and finds no path |

## Left out

- Floating point: costs and estimations are integers. `Infinity`, `NaN` and fractional costs are not modelled.
- The `Infinity`/`-Infinity` starting values of the selection scans (src/AStar.js:27-28, 49-50) are replaced by taking the first frontier entry as the initial candidate. For finite costs the result is the same.
- The comment at src/AStar.js:6 says an estimation that is always `Infinity` makes the search Dijkstra's. This is not modelled: with infinite virtual costs, the strict comparisons leave `ref` undefined.
- JavaScript object identity and aliasing: records are values, and `parent` is a snapshot (see above). The caller-specific record fields (`x`, `y`, `zone`, `finish`) are not modelled.
- The `parentNode` field (src/AStar.js:106): it is written during relaxation and never read.
- Generators: the neighbour function returns a finite sequence that is consumed once. Laziness and the generator test (tests/unit/AStar.spec.js:197-227) are not modelled. The selection generator becomes a plain loop that selects again after each expansion.
- Side effects inside the caller's callbacks (the tests' counters): these appear as the ghost `trace` and `evaluated` results instead.
- Engine.AStar: requires a finite universe of ids that contains the start id and is closed under the neighbour function for every record with an id in it, whatever its cost, estimation and parent. A neighbour function whose ids depend on a record's cost, estimation or parent is not covered even when the search reaches only finitely many ids. Neither are searches whose ids are unbounded, nor running forever. This leaves out the "find final" tests (tests/unit/AStar.spec.js:230-290), whose ids grow without bound.
- The start record is given by its id, cost and estimation. A start object that already carries a parent is not modelled.
- A `null` id is just one more value of the id type. A falsy candidate and a candidate whose id is `undefined` are both `Invalid`.
- The 7×7 maze tests (tests/unit/AStar.spec.js:294-383) are not modelled. Their costs are integers, but their neighbour function and estimations read the caller fields `x`, `y` and `finish`, which node records do not carry, over a concrete 7×7 grid.
- The "fill it" test (tests/unit/AStar.spec.js:385-451) is not modelled. Its costs are fractional (the `1.5 * val` term at line 403), its neighbour function is a generator over the caller fields `zone` and `currentValue`, and its ids are built from those fields.
- Optimality of the returned path under an admissible estimation: the source does not promise it.
- rollup.config.js: it is bundling configuration only.
