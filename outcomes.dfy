/**
 What a whole search guarantees: every estimation is called at most once, the
 neighbour function is called at most once per id and never on a final node,
 and the path is empty exactly when the frontier runs out; otherwise it leads
 from the start record to the selected final node through parent links.
 */
module Outcomes {
  import opened Nodes
  import opened Selection
  import opened Search

  lemma SubsetSize<T>(a: set<T>, b: set<T>)
    requires a <= b
    ensures |a| <= |b|
  {
    assert b == a + (b - a);
  }

  /** The last state of a search satisfies the search invariant. */
  lemma SolveInv<Id(!new)>(firstId: Id, firstCost: int, firstEst: Est, getNeighbours: Node<Id> -> seq<Candidate<Id>>,
                           isFinal: Node<Id> -> bool, max: bool, universe: set<Id>)
    requires firstId in universe && Closed(getNeighbours, universe)
    ensures Inv(Solve(firstId, firstCost, firstEst, getNeighbours, isFinal, max, universe).state, universe,
                Root(firstId, firstCost, firstEst))
  {
    InitInv(firstId, firstCost, firstEst, universe);
    RunInv(Init(firstId, firstCost, firstEst), getNeighbours, isFinal, max, universe, Root(firstId, firstCost, firstEst));
  }

  /** At the end, the frontier and the expanded ids are disjoint, and every
      frontier record is scored: a numeric estimation and a virtual cost equal
      to cost plus estimation. */
  lemma FrontierDisjointAndScored<Id(!new)>(firstId: Id, firstCost: int, firstEst: Est,
                                            getNeighbours: Node<Id> -> seq<Candidate<Id>>,
                                            isFinal: Node<Id> -> bool, max: bool, universe: set<Id>)
    requires firstId in universe && Closed(getNeighbours, universe)
    ensures var st := Solve(firstId, firstCost, firstEst, getNeighbours, isFinal, max, universe).state;
      && st.todo.Keys !! st.done
      && (forall id | id in st.todo :: Scored(st.todo[id]))
  {
    SolveInv(firstId, firstCost, firstEst, getNeighbours, isFinal, max, universe);
  }

  /** Every deferred estimation is called at most once over the whole search. */
  lemma EstimationsCalledOnce<Id(!new)>(firstId: Id, firstCost: int, firstEst: Est,
                                        getNeighbours: Node<Id> -> seq<Candidate<Id>>,
                                        isFinal: Node<Id> -> bool, max: bool, universe: set<Id>)
    requires firstId in universe && Closed(getNeighbours, universe)
    ensures var ev := Solve(firstId, firstCost, firstEst, getNeighbours, isFinal, max, universe).state.evaluated;
      forall id | id in ev :: ev[id] == 1
  {
    SolveInv(firstId, firstCost, firstEst, getNeighbours, isFinal, max, universe);
  }

  /** The neighbour function is called on nodes with distinct ids, of the
      universe, none of them final, one per expanded id; so at most once per
      id of the universe. */
  lemma NeighbourCallsOncePerId<Id(!new)>(firstId: Id, firstCost: int, firstEst: Est,
                                          getNeighbours: Node<Id> -> seq<Candidate<Id>>,
                                          isFinal: Node<Id> -> bool, max: bool, universe: set<Id>)
    requires firstId in universe && Closed(getNeighbours, universe)
    ensures var st := Solve(firstId, firstCost, firstEst, getNeighbours, isFinal, max, universe).state;
      && DistinctIds(st.trace)
      && (forall i | 0 <= i < |st.trace| :: st.trace[i].id in st.done && !isFinal(st.trace[i]))
      && |st.trace| == |st.done| <= |universe|
  {
    InitInv(firstId, firstCost, firstEst, universe);
    RunInv(Init(firstId, firstCost, firstEst), getNeighbours, isFinal, max, universe, Root(firstId, firstCost, firstEst));
    RunExpandsOnlyNonFinal(Init(firstId, firstCost, firstEst), getNeighbours, isFinal, max, universe, Root(firstId, firstCost, firstEst));
    var st := Solve(firstId, firstCost, firstEst, getNeighbours, isFinal, max, universe).state;
    forall i | 0 <= i < |st.trace| ensures !isFinal(st.trace[i]) {
      assert !isFinal(Run(Init(firstId, firstCost, firstEst), getNeighbours, isFinal, max, universe,
                          Root(firstId, firstCost, firstEst)).state.trace[i]);
    }
    SubsetSize(st.done, universe);
  }

  /** A start record that passes the termination test is returned alone,
      without any neighbour call. */
  lemma StartAlreadyFinal<Id(!new)>(firstId: Id, firstCost: int, firstEst: Est,
                                    getNeighbours: Node<Id> -> seq<Candidate<Id>>,
                                    isFinal: Node<Id> -> bool, max: bool, universe: set<Id>)
    requires firstId in universe && Closed(getNeighbours, universe)
    requires isFinal(Root(firstId, firstCost, firstEst))
    ensures var out := Solve(firstId, firstCost, firstEst, getNeighbours, isFinal, max, universe);
      && out.final == Some(Root(firstId, firstCost, firstEst))
      && out.state.trace == []
      && out.state.evaluated == Evaluations(firstId, firstEst)
      && PathOf(out.final) == [Root(firstId, firstCost, firstEst)]
  {
    var root := Root(firstId, firstCost, firstEst);
    var init := Init(firstId, firstCost, firstEst);
    InitInv(firstId, firstCost, firstEst, universe);
    RunStops(init, getNeighbours, isFinal, max, universe, root, 0);
    assert Chain(root) == [root];
  }

  /** The path is empty exactly when the search ran out of frontier without
      selecting a final node. */
  lemma PathEmptyIffExhausted<Id(!new)>(firstId: Id, firstCost: int, firstEst: Est,
                                        getNeighbours: Node<Id> -> seq<Candidate<Id>>,
                                        isFinal: Node<Id> -> bool, max: bool, universe: set<Id>)
    requires firstId in universe && Closed(getNeighbours, universe)
    ensures var out := Solve(firstId, firstCost, firstEst, getNeighbours, isFinal, max, universe);
      && (PathOf(out.final) == [] <==> out.final.None?)
      && (out.final.None? <==> out.state.order == [])
  {
    InitInv(firstId, firstCost, firstEst, universe);
    RunEnds(Init(firstId, firstCost, firstEst), getNeighbours, isFinal, max, universe, Root(firstId, firstCost, firstEst));
  }

  /** A non-empty path starts at the parentless start record, ends at the
      final node (the entry the selection picked, which passes the termination
      test), follows parent links, carries distinct ids, and every record on
      it but the last was expanded. */
  lemma PathFromStartToFinal<Id(!new)>(firstId: Id, firstCost: int, firstEst: Est,
                                       getNeighbours: Node<Id> -> seq<Candidate<Id>>,
                                       isFinal: Node<Id> -> bool, max: bool, universe: set<Id>)
    requires firstId in universe && Closed(getNeighbours, universe)
    ensures var out := Solve(firstId, firstCost, firstEst, getNeighbours, isFinal, max, universe);
      var p := PathOf(out.final);
      p != [] ==>
        && out.state.order != [] && Listed(out.state.todo, out.state.order)
        && out.final == Some(out.state.todo[SelectedId(out.state, max)])
        && p[0] == Root(firstId, firstCost, firstEst) && p[0].parent.None?
        && Some(p[|p| - 1]) == out.final && isFinal(p[|p| - 1])
        && (forall i, j | 0 <= i < |p| && j == i + 1 < |p| :: p[j].parent == Some(p[i]))
        && DistinctIds(p)
        && (forall i | 0 <= i < |p| - 1 :: p[i].id in out.state.done)
  {
    var root := Root(firstId, firstCost, firstEst);
    InitInv(firstId, firstCost, firstEst, universe);
    RunEnds(Init(firstId, firstCost, firstEst), getNeighbours, isFinal, max, universe, root);
    var out := Solve(firstId, firstCost, firstEst, getNeighbours, isFinal, max, universe);
    if out.final.Some? {
      var n := out.final.value;
      assert n == out.state.todo[SelectedId(out.state, max)];
      assert Linked(n, out.state.done, root);
      ChainLast(n);
    }
  }

  /** The guarantees of a whole search, on its path, the nodes the neighbour
      function was called on (`trace`) and the ids whose deferred estimation
      was called (`evaluated`): a non-empty path runs from the start record to
      a final node, no id repeats on the path or in the calls, no call is on a
      final node and there are at most as many calls as ids, a final start
      record is returned alone without a call, and no estimation is called
      twice. */
  ghost predicate Guaranteed<Id>(path: seq<Node<Id>>, trace: seq<Node<Id>>, evaluated: multiset<Id>,
                                 root: Node<Id>, isFinal: Node<Id> -> bool, universe: set<Id>)
  {
    && (path != [] ==> path[0] == root && isFinal(path[|path| - 1]))
    && DistinctIds(path) && DistinctIds(trace) && |trace| <= |universe|
    && (forall i | 0 <= i < |trace| :: !isFinal(trace[i]))
    && (isFinal(root) ==> path == [root] && trace == [])
    && (forall id | id in evaluated :: evaluated[id] == 1)
  }

  /** Every search gives those guarantees. */
  lemma SearchGuarantees<Id(!new)>(firstId: Id, firstCost: int, firstEst: Est,
                                   getNeighbours: Node<Id> -> seq<Candidate<Id>>,
                                   isFinal: Node<Id> -> bool, max: bool, universe: set<Id>)
    requires firstId in universe && Closed(getNeighbours, universe)
    ensures var out := Solve(firstId, firstCost, firstEst, getNeighbours, isFinal, max, universe);
      Guaranteed(PathOf(out.final), out.state.trace, out.state.evaluated, Root(firstId, firstCost, firstEst), isFinal, universe)
  {
    PathFromStartToFinal(firstId, firstCost, firstEst, getNeighbours, isFinal, max, universe);
    PathEmptyIffExhausted(firstId, firstCost, firstEst, getNeighbours, isFinal, max, universe);
    NeighbourCallsOncePerId(firstId, firstCost, firstEst, getNeighbours, isFinal, max, universe);
    EstimationsCalledOnce(firstId, firstCost, firstEst, getNeighbours, isFinal, max, universe);
    if isFinal(Root(firstId, firstCost, firstEst)) {
      StartAlreadyFinal(firstId, firstCost, firstEst, getNeighbours, isFinal, max, universe);
    }
  }
}
