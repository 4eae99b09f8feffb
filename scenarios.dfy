/**
 Concrete runs of the search, taken from the unit tests: the neighbour calls,
 estimation calls and result they fix follow from the reference semantics.
 */
module Scenarios {
  import opened Nodes
  import opened Selection
  import opened Search

  /** Two neighbours with deferred estimations (3 and 5), for every node. */
  function DeferredPair(n: Node<int>): seq<Candidate<int>>
  {
    [Valid(2, 5, Deferred(3)), Valid(3, 5, Deferred(5))]
  }

  const U: set<int> := {1, 2, 3}
  const R0: Node<int> := Node(1, 0, Known(10), 10, None)
  const N2: Node<int> := Node(2, 5, Known(3), 8, Some(R0))
  const N3: Node<int> := Node(3, 5, Known(5), 10, Some(R0))
  const S1: State<int> := State(map[2 := N2, 3 := N3], [2, 3], {1}, [R0], multiset{2, 3})
  const S2: State<int> := State(map[3 := N3], [3], {1, 2}, [R0, N2], multiset{2, 3})
  const S3: State<int> := State(map[], [], {1, 2, 3}, [R0, N2, N3], multiset{2, 3})

  lemma DeferredPairClosed()
    ensures Closed(DeferredPair, U)
  {
  }

  lemma DeferredStep1()
    ensures Expand(Init(1, 0, Known(10)), 1, DeferredPair, false) == S1
  {
    var s0 := Init(1, 0, Known(10));
    assert s0.todo - {1} == map[];
    assert Without([1], 1) == [];
    var e := State(map[], [], {1}, [R0], multiset{});
    assert e == State(s0.todo - {1}, Without(s0.order, 1), s0.done + {1}, s0.trace + [s0.todo[1]], s0.evaluated);
    var c2, c3 := Valid(2, 5, Deferred(3)), Valid(3, 5, Deferred(5));
    HandleAllShort(e, R0, c2, c3, false);
    var h := State(map[2 := N2], [2], {1}, [R0], multiset{2});
    assert HandleCandidate(e, R0, c2, false) == h;
    assert HandleCandidate(h, R0, c3, false) == S1;
  }

  lemma DeferredStep2()
    ensures Expand(S1, 2, DeferredPair, false) == S2
  {
    assert S1.todo - {2} == map[3 := N3];
    assert Without([2, 3], 2) == [3];
    var e := State(map[3 := N3], [3], {1, 2}, [R0, N2], multiset{2, 3});
    assert e == State(S1.todo - {2}, Without(S1.order, 2), S1.done + {2}, S1.trace + [S1.todo[2]], S1.evaluated);
    var c2, c3 := Valid(2, 5, Deferred(3)), Valid(3, 5, Deferred(5));
    HandleAllShort(e, N2, c2, c3, false);
    assert HandleCandidate(e, N2, c2, false) == e;
    assert HandleCandidate(e, N2, c3, false) == e;
  }

  lemma DeferredStep3()
    ensures Expand(S2, 3, DeferredPair, false) == S3
  {
    assert S2.todo - {3} == map[];
    assert Without([3], 3) == [];
    var c2, c3 := Valid(2, 5, Deferred(3)), Valid(3, 5, Deferred(5));
    assert S3 == State(S2.todo - {3}, Without(S2.order, 3), S2.done + {3}, S2.trace + [S2.todo[3]], S2.evaluated);
    HandleAllShort(S3, N3, c2, c3, false);
  }

  lemma DeferredRun1()
    ensures Inv(S1, U, R0)
    ensures (DeferredPairClosed(); InitInv(1, 0, Known(10), U);
             Run(Init(1, 0, Known(10)), DeferredPair, IsFinalNd, false, U, R0) == Run(S1, DeferredPair, IsFinalNd, false, U, R0))
  {
    DeferredPairClosed();
    var s0 := Init(1, 0, Known(10));
    InitInv(1, 0, Known(10), U);
    assert IsSelected(s0.todo, s0.order, false, 0);
    RunContinues(s0, DeferredPair, IsFinalNd, false, U, R0, 0);
    DeferredStep1();
  }

  lemma DeferredRun2()
    requires Inv(S1, U, R0)
    ensures Inv(S2, U, R0)
    ensures (DeferredPairClosed(); Run(S1, DeferredPair, IsFinalNd, false, U, R0) == Run(S2, DeferredPair, IsFinalNd, false, U, R0))
  {
    DeferredPairClosed();
    assert IsSelected(S1.todo, S1.order, false, 0);
    RunContinues(S1, DeferredPair, IsFinalNd, false, U, R0, 0);
    DeferredStep2();
  }

  lemma DeferredRun3()
    requires Inv(S2, U, R0)
    ensures Inv(S3, U, R0)
    ensures (DeferredPairClosed(); Run(S2, DeferredPair, IsFinalNd, false, U, R0) == Outcome(S3, None))
  {
    DeferredPairClosed();
    assert IsSelected(S2.todo, S2.order, false, 0);
    RunContinues(S2, DeferredPair, IsFinalNd, false, U, R0, 0);
    DeferredStep3();
    RunExhausted(S3, DeferredPair, IsFinalNd, false, U, R0);
  }

  /** Start 1 (cost 0, estimation 10), neighbours 2 and 3 with deferred
      estimations: the neighbour function is called on 1, 2 and 3 in that
      order, each estimation is called once (two calls in all), and no final
      node is found. */
  lemma DeferredEstimationsScenario()
    ensures var out := Solve(1, 0, Known(10), DeferredPair, IsFinalNd, false, U);
      && out.final.None?
      && |out.state.trace| == 3
      && out.state.trace[0].id == 1 && out.state.trace[1].id == 2 && out.state.trace[2].id == 3
      && out.state.evaluated == multiset{2, 3}
  {
    DeferredRun1();
    DeferredRun2();
    DeferredRun3();
  }

  /** A neighbour function that yields nothing. */
  function NoNeighbours(n: Node<int>): seq<Candidate<int>>
  {
    []
  }

  /** Start 1 (cost 0, estimation 10) and no neighbours: the neighbour
      function is called once, on the start record, and the path is empty. */
  lemma NoNeighboursScenario()
    ensures (assert Closed(NoNeighbours, {1});
             var out := Solve(1, 0, Known(10), NoNeighbours, IsFinalNd, false, {1});
             && out.final.None? && PathOf(out.final) == []
             && out.state.trace == [R0])
  {
    assert Closed(NoNeighbours, {1});
    var s0 := Init(1, 0, Known(10));
    InitInv(1, 0, Known(10), {1});
    assert IsSelected(s0.todo, s0.order, false, 0);
    RunContinues(s0, NoNeighbours, IsFinalNd, false, {1}, R0, 0);
    var e := State(map[], [], {1}, [R0], multiset{});
    assert s0.todo - {1} == map[];
    assert Without([1], 1) == [];
    assert Expand(s0, 1, NoNeighbours, false) == e;
    RunExhausted(e, NoNeighbours, IsFinalNd, false, {1}, R0);
  }

  /** Two neighbours with numeric estimations, mixed with an undefined, a
      null and a false entry, for every node. */
  function MixedNeighbours(n: Node<int>): seq<Candidate<int>>
  {
    [Valid(2, 5, Known(3)), Invalid, Valid(3, 5, Known(5)), Invalid, Invalid]
  }

  const P1: State<int> := State(map[2 := N2, 3 := N3], [2, 3], {1}, [R0], multiset{})
  const P2: State<int> := State(map[3 := N3], [3], {1, 2}, [R0, N2], multiset{})
  const P3: State<int> := State(map[], [], {1, 2, 3}, [R0, N2, N3], multiset{})

  lemma MixedClosed()
    ensures Closed(MixedNeighbours, U)
  {
  }

  /** At the first expansion only the two valid entries are acted on. */
  lemma MixedKept()
    ensures Kept(MixedNeighbours(R0), {1}) == [Valid(2, 5, Known(3)), Valid(3, 5, Known(5))]
  {
    var c2, c3 := Valid(2, 5, Known(3)), Valid(3, 5, Known(5));
    var cs := [c2, Invalid, c3, Invalid, Invalid];
    assert cs[..4] == [c2, Invalid, c3, Invalid];
    assert cs[..4][..3] == [c2, Invalid, c3];
    assert cs[..4][..3][..2] == [c2, Invalid];
    assert cs[..4][..3][..2][..1] == [c2];
    assert [c2][..0] == [];
    assert Kept([c2], {1}) == [c2];
    assert Kept([c2, Invalid], {1}) == [c2];
    assert Kept([c2, Invalid, c3], {1}) == [c2, c3];
    assert Kept([c2, Invalid, c3, Invalid], {1}) == [c2, c3];
  }

  lemma MixedStep1()
    ensures Expand(Init(1, 0, Known(10)), 1, MixedNeighbours, false) == P1
  {
    var s0 := Init(1, 0, Known(10));
    assert s0.todo - {1} == map[];
    assert Without([1], 1) == [];
    var e := State(map[], [], {1}, [R0], multiset{});
    assert e == State(s0.todo - {1}, Without(s0.order, 1), s0.done + {1}, s0.trace + [s0.todo[1]], s0.evaluated);
    var c2, c3 := Valid(2, 5, Known(3)), Valid(3, 5, Known(5));
    MixedKept();
    HandleAllKept(e, R0, MixedNeighbours(R0), false);
    HandleAllShort(e, R0, c2, c3, false);
    var h := State(map[2 := N2], [2], {1}, [R0], multiset{});
    assert HandleCandidate(e, R0, c2, false) == h;
    assert HandleCandidate(h, R0, c3, false) == P1;
  }

  lemma MixedStep2()
    ensures Expand(P1, 2, MixedNeighbours, false) == P2
  {
    assert P1.todo - {2} == map[3 := N3];
    assert Without([2, 3], 2) == [3];
    ExpandUnchanged(P1, 2, MixedNeighbours, false);
  }

  lemma MixedStep3()
    ensures Expand(P2, 3, MixedNeighbours, false) == P3
  {
    assert P2.todo - {3} == map[];
    assert Without([3], 3) == [];
    ExpandUnchanged(P2, 3, MixedNeighbours, false);
  }

  lemma MixedRun1()
    ensures Inv(P1, U, R0)
    ensures (MixedClosed(); InitInv(1, 0, Known(10), U);
             Run(Init(1, 0, Known(10)), MixedNeighbours, IsFinalNd, false, U, R0) == Run(P1, MixedNeighbours, IsFinalNd, false, U, R0))
  {
    MixedClosed();
    var s0 := Init(1, 0, Known(10));
    InitInv(1, 0, Known(10), U);
    assert IsSelected(s0.todo, s0.order, false, 0);
    RunContinues(s0, MixedNeighbours, IsFinalNd, false, U, R0, 0);
    MixedStep1();
  }

  lemma MixedRun2()
    requires Inv(P1, U, R0)
    ensures Inv(P2, U, R0)
    ensures (MixedClosed(); Run(P1, MixedNeighbours, IsFinalNd, false, U, R0) == Run(P2, MixedNeighbours, IsFinalNd, false, U, R0))
  {
    MixedClosed();
    assert IsSelected(P1.todo, P1.order, false, 0);
    RunContinues(P1, MixedNeighbours, IsFinalNd, false, U, R0, 0);
    MixedStep2();
  }

  lemma MixedRun3()
    requires Inv(P2, U, R0)
    ensures Inv(P3, U, R0)
    ensures (MixedClosed(); Run(P2, MixedNeighbours, IsFinalNd, false, U, R0) == Outcome(P3, None))
  {
    MixedClosed();
    assert IsSelected(P2.todo, P2.order, false, 0);
    RunContinues(P2, MixedNeighbours, IsFinalNd, false, U, R0, 0);
    MixedStep3();
    RunExhausted(P3, MixedNeighbours, IsFinalNd, false, U, R0);
  }

  /** Start 1 (cost 0, estimation 10), neighbours 2 and 3 among invalid
      entries: the invalid entries are skipped, the neighbour function is
      called on 1, 2 and 3 in that order, and no final node is found. */
  lemma MixedNeighboursScenario()
    ensures var out := Solve(1, 0, Known(10), MixedNeighbours, IsFinalNd, false, U);
      && out.final.None?
      && |out.state.trace| == 3
      && out.state.trace[0].id == 1 && out.state.trace[1].id == 2 && out.state.trace[2].id == 3
  {
    MixedRun1();
    MixedRun2();
    MixedRun3();
  }

  /** Two neighbours with numeric estimations for the start record 1, none
      for any other record. */
  function StartNeighbours(n: Node<int>): seq<Candidate<int>>
  {
    if n.id == 1 then [Valid(2, 5, Known(2)), Valid(3, 5, Known(3))] else []
  }

  const K2: Node<int> := Node(2, 5, Known(2), 7, Some(R0))
  const K3: Node<int> := Node(3, 5, Known(3), 8, Some(R0))
  const H1: State<int> := State(map[2 := K2, 3 := K3], [2, 3], {1}, [R0], multiset{})
  const H2: State<int> := State(map[3 := K3], [3], {1, 2}, [R0, K2], multiset{})
  const H3: State<int> := State(map[], [], {1, 2, 3}, [R0, K2, K3], multiset{})

  lemma StartNeighboursClosed()
    ensures Closed(StartNeighbours, U)
  {
  }

  lemma StartNeighboursStep1()
    ensures Expand(Init(1, 0, Known(10)), 1, StartNeighbours, false) == H1
  {
    var s0 := Init(1, 0, Known(10));
    assert s0.todo - {1} == map[];
    assert Without([1], 1) == [];
    var e := State(map[], [], {1}, [R0], multiset{});
    assert e == State(s0.todo - {1}, Without(s0.order, 1), s0.done + {1}, s0.trace + [s0.todo[1]], s0.evaluated);
    var c2, c3 := Valid(2, 5, Known(2)), Valid(3, 5, Known(3));
    HandleAllShort(e, R0, c2, c3, false);
    var h := State(map[2 := K2], [2], {1}, [R0], multiset{});
    assert HandleCandidate(e, R0, c2, false) == h;
    assert HandleCandidate(h, R0, c3, false) == H1;
  }

  lemma StartNeighboursStep2()
    ensures Expand(H1, 2, StartNeighbours, false) == H2
  {
    assert H1.todo - {2} == map[3 := K3];
    assert Without([2, 3], 2) == [3];
    ExpandUnchanged(H1, 2, StartNeighbours, false);
  }

  lemma StartNeighboursStep3()
    ensures Expand(H2, 3, StartNeighbours, false) == H3
  {
    assert H2.todo - {3} == map[];
    assert Without([3], 3) == [];
    ExpandUnchanged(H2, 3, StartNeighbours, false);
  }

  lemma StartNeighboursRun1()
    ensures Inv(H1, U, R0)
    ensures (StartNeighboursClosed(); InitInv(1, 0, Known(10), U);
             Run(Init(1, 0, Known(10)), StartNeighbours, IsFinalNd, false, U, R0) == Run(H1, StartNeighbours, IsFinalNd, false, U, R0))
  {
    StartNeighboursClosed();
    var s0 := Init(1, 0, Known(10));
    InitInv(1, 0, Known(10), U);
    assert IsSelected(s0.todo, s0.order, false, 0);
    RunContinues(s0, StartNeighbours, IsFinalNd, false, U, R0, 0);
    StartNeighboursStep1();
  }

  lemma StartNeighboursRun2()
    requires Inv(H1, U, R0)
    ensures Inv(H2, U, R0)
    ensures (StartNeighboursClosed(); Run(H1, StartNeighbours, IsFinalNd, false, U, R0) == Run(H2, StartNeighbours, IsFinalNd, false, U, R0))
  {
    StartNeighboursClosed();
    assert IsSelected(H1.todo, H1.order, false, 0);
    RunContinues(H1, StartNeighbours, IsFinalNd, false, U, R0, 0);
    StartNeighboursStep2();
  }

  lemma StartNeighboursRun3()
    requires Inv(H2, U, R0)
    ensures Inv(H3, U, R0)
    ensures (StartNeighboursClosed(); Run(H2, StartNeighbours, IsFinalNd, false, U, R0) == Outcome(H3, None))
  {
    StartNeighboursClosed();
    assert IsSelected(H2.todo, H2.order, false, 0);
    RunContinues(H2, StartNeighbours, IsFinalNd, false, U, R0, 0);
    StartNeighboursStep3();
    RunExhausted(H3, StartNeighbours, IsFinalNd, false, U, R0);
  }

  lemma StartNeighboursIds()
    ensures Ids(H3.trace) == [1, 2, 3]
  {
  }

  /** Start 1 (cost 0, estimation 10) whose only neighbours are 2 and 3:
      the neighbour function is called on 1, 2 and 3 in that order, and no
      final node is found. */
  lemma StartNeighboursScenario()
    ensures var out := Solve(1, 0, Known(10), StartNeighbours, IsFinalNd, false, U);
      && out.final.None? && PathOf(out.final) == []
      && Ids(out.state.trace) == [1, 2, 3]
  {
    StartNeighboursRun1();
    StartNeighboursRun2();
    StartNeighboursRun3();
    StartNeighboursIds();
  }

  function Pow10(e: nat): nat
  {
    if e == 0 then 1 else 10 * Pow10(e - 1)
  }

  /** The ordering tests' record of the calls: the i-th call (from 1) on id d
      adds i * 10^d. */
  function CallCode(ids: seq<int>): int
  {
    if ids == [] then 0
    else CallCode(ids[..|ids| - 1]) + |ids| * (if ids[|ids| - 1] >= 0 then Pow10(ids[|ids| - 1]) else 0)
  }

  /** The five neighbours of the ordering tests, for every node: ids 1 to 5
      with costs 4, 6, 5, 5, 5 and estimations 3, 1, 2, 3, 1. */
  function Five(n: Node<int>): seq<Candidate<int>>
  {
    [Valid(1, 4, Known(3)), Valid(2, 6, Known(1)), Valid(3, 5, Known(2)), Valid(4, 5, Known(3)), Valid(5, 5, Known(1))]
  }

  const V: set<int> := {0, 1, 2, 3, 4, 5}
  const Q0: Node<int> := Node(0, 0, Known(10), 10, None)
  const A1: Node<int> := Node(1, 4, Known(3), 7, Some(Q0))
  const A2: Node<int> := Node(2, 6, Known(1), 7, Some(Q0))
  const A3: Node<int> := Node(3, 5, Known(2), 7, Some(Q0))
  const A4: Node<int> := Node(4, 5, Known(3), 8, Some(Q0))
  const A5: Node<int> := Node(5, 5, Known(1), 6, Some(Q0))
  const F: map<int, Node<int>> := map[1 := A1, 2 := A2, 3 := A3, 4 := A4, 5 := A5]
  const T1: State<int> := State(F, [1, 2, 3, 4, 5], {0}, [Q0], multiset{})

  lemma FiveClosed()
    ensures Closed(Five, V)
  {
  }

  const E0: State<int> := State(map[], [], {0}, [Q0], multiset{})
  const E1: State<int> := State(map[1 := A1], [1], {0}, [Q0], multiset{})
  const E2: State<int> := State(map[1 := A1, 2 := A2], [1, 2], {0}, [Q0], multiset{})
  const E3: State<int> := State(map[1 := A1, 2 := A2, 3 := A3], [1, 2, 3], {0}, [Q0], multiset{})
  const E4: State<int> := State(map[1 := A1, 2 := A2, 3 := A3, 4 := A4], [1, 2, 3, 4], {0}, [Q0], multiset{})

  lemma FiveInsert1(max: bool)
    ensures HandleAll(E0, Q0, Five(Q0)[..1], max) == E1
  {
    HandleAllShort(E0, Q0, Five(Q0)[0], Five(Q0)[1], max);
    assert Five(Q0)[..1] == [Five(Q0)[0]];
  }

  lemma FiveInsert2(max: bool)
    ensures HandleAll(E0, Q0, Five(Q0)[..2], max) == E2
  {
    FiveInsert1(max);
    HandleAllSnoc(E0, Q0, Five(Q0)[..1], Five(Q0)[1], max);
    assert Five(Q0)[..1] + [Five(Q0)[1]] == Five(Q0)[..2];
  }

  lemma FiveInsert3(max: bool)
    ensures HandleAll(E0, Q0, Five(Q0)[..3], max) == E3
  {
    FiveInsert2(max);
    HandleAllSnoc(E0, Q0, Five(Q0)[..2], Five(Q0)[2], max);
    assert Five(Q0)[..2] + [Five(Q0)[2]] == Five(Q0)[..3];
  }

  lemma FiveInsert4(max: bool)
    ensures HandleAll(E0, Q0, Five(Q0)[..4], max) == E4
  {
    FiveInsert3(max);
    HandleAllSnoc(E0, Q0, Five(Q0)[..3], Five(Q0)[3], max);
    assert Five(Q0)[..3] + [Five(Q0)[3]] == Five(Q0)[..4];
  }

  lemma FiveInsert5(max: bool)
    ensures HandleAll(E0, Q0, Five(Q0)[..5], max) == T1
  {
    FiveInsert4(max);
    HandleAllSnoc(E0, Q0, Five(Q0)[..4], Five(Q0)[4], max);
    assert Five(Q0)[..4] + [Five(Q0)[4]] == Five(Q0)[..5];
  }

  /** The first expansion inserts the five neighbours in order, in either
      mode: none of them is in the frontier yet. */
  lemma FiveFirstExpansion(max: bool)
    ensures Expand(Init(0, 0, Known(10)), 0, Five, max) == T1
  {
    var s0 := Init(0, 0, Known(10));
    assert s0.todo - {0} == map[];
    assert Without([0], 0) == [];
    assert E0 == State(s0.todo - {0}, Without(s0.order, 0), s0.done + {0}, s0.trace + [s0.todo[0]], s0.evaluated);
    FiveInsert5(max);
    assert Five(Q0)[..5] == Five(Q0);
  }

  /** The run from the start record reaches the state after its expansion. */
  lemma FiveStart(max: bool)
    ensures Inv(T1, V, Q0)
    ensures (FiveClosed(); InitInv(0, 0, Known(10), V);
             Run(Init(0, 0, Known(10)), Five, IsFinalNd, max, V, Q0) == Run(T1, Five, IsFinalNd, max, V, Q0))
  {
    FiveClosed();
    InitInv(0, 0, Known(10), V);
    var s0 := Init(0, 0, Known(10));
    assert IsSelected(s0.todo, s0.order, max, 0);
    RunContinues(s0, Five, IsFinalNd, max, V, Q0, 0);
    FiveFirstExpansion(max);
  }

  /** Every later expansion finds each neighbour expanded, or in the frontier
      at the same cost, so it only moves the selected id. */
  lemma FiveLaterExpansion(s: State<int>, k: nat, max: bool, next: State<int>)
    requires Inv(s, V, Q0) && k < |s.order| && IsSelected(s.todo, s.order, max, k) && !IsFinalNd(s.todo[s.order[k]])
    requires forall i | 0 <= i < 5 :: Five(Q0)[i].id in s.done || (Five(Q0)[i].id in s.todo && s.todo[Five(Q0)[i].id].cost == Five(Q0)[i].cost)
    requires next == State(s.todo - {s.order[k]}, s.order[..k] + s.order[k + 1..], s.done + {s.order[k]},
                           s.trace + [s.todo[s.order[k]]], s.evaluated)
    ensures (FiveClosed(); Inv(next, V, Q0) && Run(s, Five, IsFinalNd, max, V, Q0) == Run(next, Five, IsFinalNd, max, V, Q0))
  {
    FiveClosed();
    RunContinues(s, Five, IsFinalNd, max, V, Q0, k);
    var cs := Five(s.todo[s.order[k]]);
    assert cs == Five(Q0);
    forall i | 0 <= i < |cs|
      ensures cs[i].id in s.done || (cs[i].id in s.todo && !IsBetter(s.todo[cs[i].id].cost, cs[i].cost, max))
    {
      assert cs[i] == Five(Q0)[i];
    }
    ExpandUnchanged(s, s.order[k], Five, max);
    WithoutAt(s.order, k);
  }

  /** One later expansion of the ordering tests: entry k is the selected,
      non-final one, each neighbour is expanded or in the frontier at the same
      cost, and `next` is `s` with the selected id moved to the expanded set. */
  ghost predicate FiveStep(s: State<int>, k: nat, max: bool, next: State<int>)
  {
    && Listed(s.todo, s.order) && k < |s.order| && IsSelected(s.todo, s.order, max, k)
    && !IsFinalNd(s.todo[s.order[k]])
    && (forall i | 0 <= i < 5 :: Five(Q0)[i].id in s.done || (Five(Q0)[i].id in s.todo && s.todo[Five(Q0)[i].id].cost == Five(Q0)[i].cost))
    && next == State(s.todo - {s.order[k]}, s.order[..k] + s.order[k + 1..], s.done + {s.order[k]},
                     s.trace + [s.todo[s.order[k]]], s.evaluated)
  }

  /** A run through such expansions ends with the last state and no final node. */
  lemma {:induction false} FiveRuns(ss: seq<State<int>>, ks: seq<nat>, max: bool)
    requires |ss| == |ks| + 1 && Inv(ss[0], V, Q0) && ss[|ks|].order == []
    requires forall i | 0 <= i < |ks| :: FiveStep(ss[i], ks[i], max, ss[i + 1])
    ensures (FiveClosed(); Run(ss[0], Five, IsFinalNd, max, V, Q0) == Outcome(ss[|ks|], None))
    decreases |ks|
  {
    FiveClosed();
    if ks == [] {
      RunExhausted(ss[0], Five, IsFinalNd, max, V, Q0);
    } else {
      assert FiveStep(ss[0], ks[0], max, ss[1]);
      FiveLaterExpansion(ss[0], ks[0], max, ss[1]);
      forall i | 0 <= i < |ks[1..]| ensures FiveStep(ss[1..][i], ks[1..][i], max, ss[1..][i + 1]) {
        assert FiveStep(ss[i + 1], ks[i + 1], max, ss[i + 2]);
      }
      FiveRuns(ss[1..], ks[1..], max);
    }
  }

  const Min1: State<int> := State(F - {5}, [1, 2, 3, 4], {0, 5}, [Q0, A5], multiset{})
  const Min2: State<int> := State(F - {5, 2}, [1, 3, 4], {0, 5, 2}, [Q0, A5, A2], multiset{})
  const Min3: State<int> := State(F - {5, 2, 3}, [1, 4], {0, 5, 2, 3}, [Q0, A5, A2, A3], multiset{})
  const Min4: State<int> := State(F - {5, 2, 3, 1}, [4], {0, 5, 2, 3, 1}, [Q0, A5, A2, A3, A1], multiset{})
  const Min5: State<int> := State(F - {5, 2, 3, 1, 4}, [], {0, 5, 2, 3, 1, 4}, [Q0, A5, A2, A3, A1, A4], multiset{})

  lemma MinPick1()
    ensures Listed(T1.todo, T1.order) && 4 < |T1.order| && T1.order[4] == 5 && IsSelected(T1.todo, T1.order, false, 4)
    ensures forall i | 0 <= i < 5 :: Five(Q0)[i].id in T1.done || (Five(Q0)[i].id in T1.todo && T1.todo[Five(Q0)[i].id].cost == Five(Q0)[i].cost)
  {
  }

  lemma MinNext1()
    ensures Min1 == State(T1.todo - {5}, T1.order[..4] + T1.order[5..], T1.done + {5},
                         T1.trace + [T1.todo[5]], T1.evaluated)
  {
  }

  lemma MinStep1(s: State<int>, k: nat, t: State<int>)
    requires s == T1 && k == 4 && t == Min1
    ensures FiveStep(s, k, false, t)
  {
    MinPick1();
    MinNext1();
  }

  lemma MinPick2()
    ensures Listed(Min1.todo, Min1.order) && 1 < |Min1.order| && Min1.order[1] == 2 && IsSelected(Min1.todo, Min1.order, false, 1)
    ensures forall i | 0 <= i < 5 :: Five(Q0)[i].id in Min1.done || (Five(Q0)[i].id in Min1.todo && Min1.todo[Five(Q0)[i].id].cost == Five(Q0)[i].cost)
  {
  }

  lemma MinNext2()
    ensures Min2 == State(Min1.todo - {2}, Min1.order[..1] + Min1.order[2..], Min1.done + {2},
                         Min1.trace + [Min1.todo[2]], Min1.evaluated)
  {
  }

  lemma MinStep2(s: State<int>, k: nat, t: State<int>)
    requires s == Min1 && k == 1 && t == Min2
    ensures FiveStep(s, k, false, t)
  {
    MinPick2();
    MinNext2();
  }

  lemma MinPick3()
    ensures Listed(Min2.todo, Min2.order) && 1 < |Min2.order| && Min2.order[1] == 3 && IsSelected(Min2.todo, Min2.order, false, 1)
    ensures forall i | 0 <= i < 5 :: Five(Q0)[i].id in Min2.done || (Five(Q0)[i].id in Min2.todo && Min2.todo[Five(Q0)[i].id].cost == Five(Q0)[i].cost)
  {
  }

  lemma MinNext3()
    ensures Min3 == State(Min2.todo - {3}, Min2.order[..1] + Min2.order[2..], Min2.done + {3},
                         Min2.trace + [Min2.todo[3]], Min2.evaluated)
  {
  }

  lemma MinStep3(s: State<int>, k: nat, t: State<int>)
    requires s == Min2 && k == 1 && t == Min3
    ensures FiveStep(s, k, false, t)
  {
    MinPick3();
    MinNext3();
  }

  lemma MinPick4()
    ensures Listed(Min3.todo, Min3.order) && 0 < |Min3.order| && Min3.order[0] == 1 && IsSelected(Min3.todo, Min3.order, false, 0)
    ensures forall i | 0 <= i < 5 :: Five(Q0)[i].id in Min3.done || (Five(Q0)[i].id in Min3.todo && Min3.todo[Five(Q0)[i].id].cost == Five(Q0)[i].cost)
  {
  }

  lemma MinNext4()
    ensures Min4 == State(Min3.todo - {1}, Min3.order[..0] + Min3.order[1..], Min3.done + {1},
                         Min3.trace + [Min3.todo[1]], Min3.evaluated)
  {
  }

  lemma MinStep4(s: State<int>, k: nat, t: State<int>)
    requires s == Min3 && k == 0 && t == Min4
    ensures FiveStep(s, k, false, t)
  {
    MinPick4();
    MinNext4();
  }

  lemma MinPick5()
    ensures Listed(Min4.todo, Min4.order) && 0 < |Min4.order| && Min4.order[0] == 4 && IsSelected(Min4.todo, Min4.order, false, 0)
    ensures forall i | 0 <= i < 5 :: Five(Q0)[i].id in Min4.done || (Five(Q0)[i].id in Min4.todo && Min4.todo[Five(Q0)[i].id].cost == Five(Q0)[i].cost)
  {
  }

  lemma MinNext5()
    ensures Min5 == State(Min4.todo - {4}, Min4.order[..0] + Min4.order[1..], Min4.done + {4},
                         Min4.trace + [Min4.todo[4]], Min4.evaluated)
  {
  }

  lemma MinStep5(s: State<int>, k: nat, t: State<int>)
    requires s == Min4 && k == 0 && t == Min5
    ensures FiveStep(s, k, false, t)
  {
    MinPick5();
    MinNext5();
  }

  lemma MinCallCode()
    ensures CallCode([0, 5, 2, 3, 1, 4]) == 264351
  {
    assert Pow10(0) == 1 && Pow10(1) == 10 && Pow10(2) == 100 && Pow10(3) == 1000 && Pow10(4) == 10000 && Pow10(5) == 100000;
    assert [0][..0] == [];
    assert CallCode([0]) == 1;
    assert [0, 5][..1] == [0];
    assert CallCode([0, 5]) == 200001;
    assert [0, 5, 2][..2] == [0, 5];
    assert CallCode([0, 5, 2]) == 200301;
    assert [0, 5, 2, 3][..3] == [0, 5, 2];
    assert CallCode([0, 5, 2, 3]) == 204301;
    assert [0, 5, 2, 3, 1][..4] == [0, 5, 2, 3];
    assert CallCode([0, 5, 2, 3, 1]) == 204351;
    assert [0, 5, 2, 3, 1, 4][..5] == [0, 5, 2, 3, 1];
    assert CallCode([0, 5, 2, 3, 1, 4]) == 264351;
  }

  lemma MinTraceIds()
    ensures Ids(Min5.trace) == [0, 5, 2, 3, 1, 4]
  {
  }

  /** The five later expansions of min mode, as one chain. */
  lemma MinSteps(ss: seq<State<int>>, ks: seq<nat>)
    requires ss == [T1, Min1, Min2, Min3, Min4, Min5] && ks == [4, 1, 1, 0, 0]
    ensures |ss| == |ks| + 1 && ss[|ks|].order == []
    ensures forall i | 0 <= i < |ks| :: FiveStep(ss[i], ks[i], false, ss[i + 1])
  {
    forall i | 0 <= i < 5 ensures FiveStep(ss[i], ks[i], false, ss[i + 1]) {
      if i == 0 { MinStep1(ss[i], ks[i], ss[i + 1]); }
      else if i == 1 { MinStep2(ss[i], ks[i], ss[i + 1]); }
      else if i == 2 { MinStep3(ss[i], ks[i], ss[i + 1]); }
      else if i == 3 { MinStep4(ss[i], ks[i], ss[i + 1]); }
      else { MinStep5(ss[i], ks[i], ss[i + 1]); }
    }
  }

  /** Min mode on the ordering test: start 0 (cost 0, estimation 10) and
      the five neighbours; the neighbour function is called on 0, 5, 2, 3, 1, 4 in
      that order (the test's call code 264351), and no final node is found. */
  lemma MinOrderScenario()
    ensures var out := Solve(0, 0, Known(10), Five, IsFinalNd, false, V);
      && out.final.None?
      && Ids(out.state.trace) == [0, 5, 2, 3, 1, 4]
      && CallCode(Ids(out.state.trace)) == 264351
  {
    var ss: seq<State<int>>, ks: seq<nat> := [T1, Min1, Min2, Min3, Min4, Min5], [4, 1, 1, 0, 0];
    MinSteps(ss, ks);
    FiveStart(false);
    FiveRuns(ss, ks, false);
    MinTraceIds();
    MinCallCode();
  }

  const Max1: State<int> := State(F - {4}, [1, 2, 3, 5], {0, 4}, [Q0, A4], multiset{})
  const Max2: State<int> := State(F - {4, 1}, [2, 3, 5], {0, 4, 1}, [Q0, A4, A1], multiset{})
  const Max3: State<int> := State(F - {4, 1, 3}, [2, 5], {0, 4, 1, 3}, [Q0, A4, A1, A3], multiset{})
  const Max4: State<int> := State(F - {4, 1, 3, 2}, [5], {0, 4, 1, 3, 2}, [Q0, A4, A1, A3, A2], multiset{})
  const Max5: State<int> := State(F - {4, 1, 3, 2, 5}, [], {0, 4, 1, 3, 2, 5}, [Q0, A4, A1, A3, A2, A5], multiset{})

  lemma MaxPick1()
    ensures Listed(T1.todo, T1.order) && 3 < |T1.order| && T1.order[3] == 4 && IsSelected(T1.todo, T1.order, true, 3)
    ensures forall i | 0 <= i < 5 :: Five(Q0)[i].id in T1.done || (Five(Q0)[i].id in T1.todo && T1.todo[Five(Q0)[i].id].cost == Five(Q0)[i].cost)
  {
  }

  lemma MaxNext1()
    ensures Max1 == State(T1.todo - {4}, T1.order[..3] + T1.order[4..], T1.done + {4},
                         T1.trace + [T1.todo[4]], T1.evaluated)
  {
  }

  lemma MaxStep1(s: State<int>, k: nat, t: State<int>)
    requires s == T1 && k == 3 && t == Max1
    ensures FiveStep(s, k, true, t)
  {
    MaxPick1();
    MaxNext1();
  }

  lemma MaxPick2()
    ensures Listed(Max1.todo, Max1.order) && 0 < |Max1.order| && Max1.order[0] == 1 && IsSelected(Max1.todo, Max1.order, true, 0)
    ensures forall i | 0 <= i < 5 :: Five(Q0)[i].id in Max1.done || (Five(Q0)[i].id in Max1.todo && Max1.todo[Five(Q0)[i].id].cost == Five(Q0)[i].cost)
  {
  }

  lemma MaxNext2()
    ensures Max2 == State(Max1.todo - {1}, Max1.order[..0] + Max1.order[1..], Max1.done + {1},
                         Max1.trace + [Max1.todo[1]], Max1.evaluated)
  {
  }

  lemma MaxStep2(s: State<int>, k: nat, t: State<int>)
    requires s == Max1 && k == 0 && t == Max2
    ensures FiveStep(s, k, true, t)
  {
    MaxPick2();
    MaxNext2();
  }

  lemma MaxPick3()
    ensures Listed(Max2.todo, Max2.order) && 1 < |Max2.order| && Max2.order[1] == 3 && IsSelected(Max2.todo, Max2.order, true, 1)
    ensures forall i | 0 <= i < 5 :: Five(Q0)[i].id in Max2.done || (Five(Q0)[i].id in Max2.todo && Max2.todo[Five(Q0)[i].id].cost == Five(Q0)[i].cost)
  {
  }

  lemma MaxNext3()
    ensures Max3 == State(Max2.todo - {3}, Max2.order[..1] + Max2.order[2..], Max2.done + {3},
                         Max2.trace + [Max2.todo[3]], Max2.evaluated)
  {
  }

  lemma MaxStep3(s: State<int>, k: nat, t: State<int>)
    requires s == Max2 && k == 1 && t == Max3
    ensures FiveStep(s, k, true, t)
  {
    MaxPick3();
    MaxNext3();
  }

  lemma MaxPick4()
    ensures Listed(Max3.todo, Max3.order) && 0 < |Max3.order| && Max3.order[0] == 2 && IsSelected(Max3.todo, Max3.order, true, 0)
    ensures forall i | 0 <= i < 5 :: Five(Q0)[i].id in Max3.done || (Five(Q0)[i].id in Max3.todo && Max3.todo[Five(Q0)[i].id].cost == Five(Q0)[i].cost)
  {
  }

  lemma MaxNext4()
    ensures Max4 == State(Max3.todo - {2}, Max3.order[..0] + Max3.order[1..], Max3.done + {2},
                         Max3.trace + [Max3.todo[2]], Max3.evaluated)
  {
  }

  lemma MaxStep4(s: State<int>, k: nat, t: State<int>)
    requires s == Max3 && k == 0 && t == Max4
    ensures FiveStep(s, k, true, t)
  {
    MaxPick4();
    MaxNext4();
  }

  lemma MaxPick5()
    ensures Listed(Max4.todo, Max4.order) && 0 < |Max4.order| && Max4.order[0] == 5 && IsSelected(Max4.todo, Max4.order, true, 0)
    ensures forall i | 0 <= i < 5 :: Five(Q0)[i].id in Max4.done || (Five(Q0)[i].id in Max4.todo && Max4.todo[Five(Q0)[i].id].cost == Five(Q0)[i].cost)
  {
  }

  lemma MaxNext5()
    ensures Max5 == State(Max4.todo - {5}, Max4.order[..0] + Max4.order[1..], Max4.done + {5},
                         Max4.trace + [Max4.todo[5]], Max4.evaluated)
  {
  }

  lemma MaxStep5(s: State<int>, k: nat, t: State<int>)
    requires s == Max4 && k == 0 && t == Max5
    ensures FiveStep(s, k, true, t)
  {
    MaxPick5();
    MaxNext5();
  }

  lemma MaxCallCode()
    ensures CallCode([0, 4, 1, 3, 2, 5]) == 624531
  {
    assert Pow10(0) == 1 && Pow10(1) == 10 && Pow10(2) == 100 && Pow10(3) == 1000 && Pow10(4) == 10000 && Pow10(5) == 100000;
    assert [0][..0] == [];
    assert CallCode([0]) == 1;
    assert [0, 4][..1] == [0];
    assert CallCode([0, 4]) == 20001;
    assert [0, 4, 1][..2] == [0, 4];
    assert CallCode([0, 4, 1]) == 20031;
    assert [0, 4, 1, 3][..3] == [0, 4, 1];
    assert CallCode([0, 4, 1, 3]) == 24031;
    assert [0, 4, 1, 3, 2][..4] == [0, 4, 1, 3];
    assert CallCode([0, 4, 1, 3, 2]) == 24531;
    assert [0, 4, 1, 3, 2, 5][..5] == [0, 4, 1, 3, 2];
    assert CallCode([0, 4, 1, 3, 2, 5]) == 624531;
  }

  lemma MaxTraceIds()
    ensures Ids(Max5.trace) == [0, 4, 1, 3, 2, 5]
  {
  }

  /** The five later expansions of max mode, as one chain. */
  lemma MaxSteps(ss: seq<State<int>>, ks: seq<nat>)
    requires ss == [T1, Max1, Max2, Max3, Max4, Max5] && ks == [3, 0, 1, 0, 0]
    ensures |ss| == |ks| + 1 && ss[|ks|].order == []
    ensures forall i | 0 <= i < |ks| :: FiveStep(ss[i], ks[i], true, ss[i + 1])
  {
    forall i | 0 <= i < 5 ensures FiveStep(ss[i], ks[i], true, ss[i + 1]) {
      if i == 0 { MaxStep1(ss[i], ks[i], ss[i + 1]); }
      else if i == 1 { MaxStep2(ss[i], ks[i], ss[i + 1]); }
      else if i == 2 { MaxStep3(ss[i], ks[i], ss[i + 1]); }
      else if i == 3 { MaxStep4(ss[i], ks[i], ss[i + 1]); }
      else { MaxStep5(ss[i], ks[i], ss[i + 1]); }
    }
  }

  /** Max mode on the ordering test: start 0 (cost 0, estimation 10) and
      the five neighbours; the neighbour function is called on 0, 4, 1, 3, 2, 5 in
      that order (the test's call code 624531), and no final node is found. */
  lemma MaxOrderScenario()
    ensures var out := Solve(0, 0, Known(10), Five, IsFinalNd, true, V);
      && out.final.None?
      && Ids(out.state.trace) == [0, 4, 1, 3, 2, 5]
      && CallCode(Ids(out.state.trace)) == 624531
  {
    var ss: seq<State<int>>, ks: seq<nat> := [T1, Max1, Max2, Max3, Max4, Max5], [3, 0, 1, 0, 0];
    MaxSteps(ss, ks);
    FiveStart(true);
    FiveRuns(ss, ks, true);
    MaxTraceIds();
    MaxCallCode();
  }
}
