/**
 The reference semantics of the A* search, as functions: the search state
 (frontier records, frontier insertion order, expanded ids, and the ghost
 record of neighbour calls and estimation calls), the handling of one
 candidate, the expansion of one node, and the whole run.
 */
module Search {
  import opened Nodes
  import opened Selection

  /** `todo` holds the frontier records, `order` the frontier ids in insertion
      order, `done` the expanded ids; `trace` lists the nodes given to the
      neighbour function, in call order, and `evaluated` the ids whose
      deferred estimation was called. */
  datatype State<Id> = State(
    todo: map<Id, Node<Id>>,
    order: seq<Id>,
    done: set<Id>,
    trace: seq<Node<Id>>,
    evaluated: multiset<Id>)

  /** How a run ends: the last state, and the selected final node if any. */
  datatype Outcome<Id> = Outcome(state: State<Id>, final: Option<Node<Id>>)

  /** Map.delete on the insertion order: the sequence without `x`. */
  function Without<T(==)>(s: seq<T>, x: T): (r: seq<T>)
    ensures forall y | y in r :: y in s && y != x
    ensures forall y | y in s && y != x :: y in r
  {
    if s == [] then []
    else if s[0] == x then Without(s[1..], x)
    else [s[0]] + Without(s[1..], x)
  }

  /** Deleting an entry keeps the others in their insertion order. */
  lemma {:induction false} WithoutAt<T>(s: seq<T>, k: nat)
    requires NoDup(s) && k < |s|
    ensures Without(s, s[k]) == s[..k] + s[k + 1..]
  {
    if k > 0 {
      WithoutAt(s[1..], k - 1);
      assert s[1..][k - 1] == s[k];
      assert s[1..][..k - 1] == s[1..k];
      assert s[1..][k..] == s[k + 1..];
      assert s[..k] == [s[0]] + s[1..k];
    } else {
      assert s[1..] == s[k + 1..];
      assert s[k] !in s[1..];
      WithoutAbsent(s[1..], s[k]);
    }
  }

  /** Deleting an entry keeps the entries distinct. */
  lemma {:induction false} WithoutNoDup<T>(s: seq<T>, x: T)
    requires NoDup(s)
    ensures NoDup(Without(s, x))
  {
    if s != [] {
      assert NoDup(s[1..]);
      WithoutNoDup(s[1..], x);
      assert s[0] !in s[1..];
    }
  }

  lemma {:induction false} WithoutAbsent<T>(s: seq<T>, x: T)
    requires x !in s
    ensures Without(s, x) == s
  {
    if s != [] {
      assert s[1..] == s[1..];
      WithoutAbsent(s[1..], x);
    }
  }

  /** Every valid candidate the neighbour function yields for a node of the
      universe has an id of the universe. */
  ghost predicate Closed<Id(!new)>(getNeighbours: Node<Id> -> seq<Candidate<Id>>, universe: set<Id>)
  {
    forall n: Node<Id>, i | n.id in universe && 0 <= i < |getNeighbours(n)| && getNeighbours(n)[i].Valid? ::
      getNeighbours(n)[i].id in universe
  }

  /** The frontier and the expanded ids are disjoint ids of the universe, and
      the insertion order lists every frontier id exactly once. */
  ghost predicate FrontierInv<Id>(s: State<Id>, universe: set<Id>)
  {
    && NoDup(s.order)
    && Listed(s.todo, s.order)
    && (forall id | id in s.todo :: id in s.order)
    && s.todo.Keys !! s.done
    && s.todo.Keys <= universe
    && s.done <= universe
  }

  /** Every frontier record is stored under its own id, scored, and linked
      through expanded nodes to the start record. */
  ghost predicate LinkedInv<Id>(s: State<Id>, root: Node<Id>)
  {
    forall id | id in s.todo :: s.todo[id].id == id && Linked(s.todo[id], s.done, root)
  }

  /** Every estimation call so far was the only one for its id, and was made
      for a frontier or expanded id. */
  ghost predicate EvaluatedInv<Id>(s: State<Id>)
  {
    forall id | id in s.evaluated :: s.evaluated[id] == 1 && (id in s.todo || id in s.done)
  }

  /** The neighbour function was called once per expanded id. */
  ghost predicate TraceInv<Id>(s: State<Id>)
  {
    && DistinctIds(s.trace)
    && (forall i | 0 <= i < |s.trace| :: s.trace[i].id in s.done)
    && |s.trace| == |s.done|
  }

  /** The invariant of the search. */
  ghost predicate Inv<Id>(s: State<Id>, universe: set<Id>, root: Node<Id>)
  {
    FrontierInv(s, universe) && LinkedInv(s, root) && EvaluatedInv(s) && TraceInv(s)
  }

  /** The relaxation test: the candidate's cost is strictly lower than the
      stored one (strictly higher in max mode). */
  predicate IsBetter(refCost: int, cost: int, max: bool)
  {
    if max then refCost < cost else refCost > cost
  }

  /** The handling of one candidate yielded while `node` is being expanded. */
  function HandleCandidate<Id>(s: State<Id>, node: Node<Id>, c: Candidate<Id>, max: bool): State<Id>
  {
    if c.Invalid? || c.id in s.done then s
    else if c.id in s.todo then
      var refNode := s.todo[c.id];
      if IsBetter(refNode.cost, c.cost, max) then
        s.(todo := s.todo[c.id := ComputeNode(refNode.id, c.cost, refNode.est, Some(node))],
           evaluated := s.evaluated + Evaluations(c.id, refNode.est))
      else s
    else
      s.(todo := s.todo[c.id := ComputeNode(c.id, c.cost, c.est, Some(node))],
         order := s.order + [c.id],
         evaluated := s.evaluated + Evaluations(c.id, c.est))
  }

  /** The handling of all candidates of one neighbour call, in order. */
  function HandleAll<Id>(s: State<Id>, node: Node<Id>, cs: seq<Candidate<Id>>, max: bool): (r: State<Id>)
    ensures r.done == s.done && r.trace == s.trace
    decreases |cs|
  {
    if cs == [] then s
    else HandleCandidate(HandleAll(s, node, cs[..|cs| - 1], max), node, cs[|cs| - 1], max)
  }

  /** Handling nothing, one, or two candidates, written out. */
  lemma HandleAllShort<Id>(s: State<Id>, node: Node<Id>, a: Candidate<Id>, b: Candidate<Id>, max: bool)
    ensures HandleAll(s, node, [], max) == s
    ensures HandleAll(s, node, [a], max) == HandleCandidate(s, node, a, max)
    ensures HandleAll(s, node, [a, b], max) == HandleCandidate(HandleCandidate(s, node, a, max), node, b, max)
  {
    assert [a][..0] == [];
    assert [a, b][..1] == [a];
  }

  /** Handling one more candidate is handling it in the state the others left. */
  lemma HandleAllSnoc<Id>(s: State<Id>, node: Node<Id>, cs: seq<Candidate<Id>>, c: Candidate<Id>, max: bool)
    ensures HandleAll(s, node, cs + [c], max) == HandleCandidate(HandleAll(s, node, cs, max), node, c, max)
  {
    assert (cs + [c])[..|cs|] == cs;
  }

  /** When every candidate is invalid, expanded, or for a frontier record it
      does not improve, the handling changes nothing. */
  lemma {:induction false} HandleAllUnchanged<Id>(s: State<Id>, node: Node<Id>, cs: seq<Candidate<Id>>, max: bool)
    requires forall i | 0 <= i < |cs| ::
      cs[i].Invalid? || cs[i].id in s.done || (cs[i].id in s.todo && !IsBetter(s.todo[cs[i].id].cost, cs[i].cost, max))
    ensures HandleAll(s, node, cs, max) == s
    decreases |cs|
  {
    if cs != [] {
      var init := cs[..|cs| - 1];
      assert forall i | 0 <= i < |init| :: init[i] == cs[i];
      HandleAllUnchanged(s, node, init, max);
    }
  }

  /** A candidate for an id already in the frontier changes nothing but
      that record, and that one only when the candidate is strictly better:
      it then takes the candidate's cost and the expanded node as parent,
      keeps its numeric estimation (no estimation call) and is rescored. The
      record keeps its place in the insertion order. */
  lemma HandleFrontierCandidate<Id>(s: State<Id>, node: Node<Id>, c: Candidate<Id>, max: bool, universe: set<Id>, root: Node<Id>)
    requires Inv(s, universe, root) && c.Valid? && c.id in s.todo
    ensures var r := HandleCandidate(s, node, c, max); var prev := s.todo[c.id];
      && r.order == s.order && r.done == s.done && r.trace == s.trace && r.evaluated == s.evaluated
      && r.todo.Keys == s.todo.Keys
      && (forall id | id in s.todo && id != c.id :: r.todo[id] == s.todo[id])
      && (if IsBetter(prev.cost, c.cost, max)
          then r.todo[c.id] == Node(c.id, c.cost, prev.est, c.cost + prev.est.value, Some(node))
          else r.todo[c.id] == prev)
  {
    assert c.id !in s.done;
    assert Linked(s.todo[c.id], s.done, root);
  }

  /** A valid candidate for an id neither expanded nor in the frontier is
      scored with the expanded node as parent and added as a new record at
      the end of the insertion order; only its own deferred estimation is
      called, and every other record is untouched. */
  lemma HandleFreshCandidate<Id>(s: State<Id>, node: Node<Id>, c: Candidate<Id>, max: bool, universe: set<Id>, root: Node<Id>)
    requires Inv(s, universe, root) && c.Valid? && c.id !in s.done && c.id !in s.todo
    ensures var r := HandleCandidate(s, node, c, max);
      && r.todo.Keys == s.todo.Keys + {c.id}
      && r.todo[c.id].id == c.id && r.todo[c.id].cost == c.cost && r.todo[c.id].parent == Some(node)
      && r.todo[c.id].est == Known(c.est.Value()) && r.todo[c.id].virtualCost == c.cost + c.est.Value()
      && (forall id | id in s.todo :: r.todo[id] == s.todo[id])
      && r.order == s.order + [c.id] && NoDup(r.order)
      && r.evaluated == s.evaluated + Evaluations(c.id, c.est)
      && r.done == s.done && r.trace == s.trace
  {
    assert c.id !in s.order;
  }

  /** The candidates the handling acts on: the valid ones whose ids have not
      been expanded, in their order. */
  function Kept<Id>(cs: seq<Candidate<Id>>, done: set<Id>): (r: seq<Candidate<Id>>)
    ensures forall i | 0 <= i < |r| :: r[i].Valid? && r[i].id !in done
    ensures forall i | 0 <= i < |cs| && cs[i].Valid? && cs[i].id !in done :: cs[i] in r
    ensures |r| <= |cs|
    decreases |cs|
  {
    if cs == [] then []
    else
      var last := cs[|cs| - 1];
      Kept(cs[..|cs| - 1], done) + (if last.Valid? && last.id !in done then [last] else [])
  }

  /** Invalid candidates and candidates for expanded ids are skipped without
      affecting the handling of the others. */
  lemma {:induction false} HandleAllKept<Id>(s: State<Id>, node: Node<Id>, cs: seq<Candidate<Id>>, max: bool)
    ensures HandleAll(s, node, cs, max) == HandleAll(s, node, Kept(cs, s.done), max)
    decreases |cs|
  {
    if cs != [] {
      var init, last := cs[..|cs| - 1], cs[|cs| - 1];
      HandleAllKept(s, node, init, max);
      var k := Kept(cs, s.done);
      if last.Valid? && last.id !in s.done {
        assert k[..|k| - 1] == Kept(init, s.done);
      } else {
        assert k == Kept(init, s.done);
      }
    }
  }

  /** Every candidate with a valid id that was not expanded lies in the
      frontier after the handling; the expanded ids are untouched. */
  lemma {:induction false} HandleAllAdmits<Id>(s: State<Id>, node: Node<Id>, cs: seq<Candidate<Id>>, max: bool)
    ensures var r := HandleAll(s, node, cs, max);
      && s.todo.Keys <= r.todo.Keys
      && (forall i | 0 <= i < |cs| && cs[i].Valid? && cs[i].id !in s.done :: cs[i].id in r.todo)
    decreases |cs|
  {
    if cs != [] {
      var init := cs[..|cs| - 1];
      HandleAllAdmits(s, node, init, max);
      forall i | 0 <= i < |cs| - 1 && cs[i].Valid? && cs[i].id !in s.done
        ensures cs[i].id in HandleAll(s, node, cs, max).todo
      {
        assert init[i] == cs[i];
      }
    }
  }

  /** One expansion: move `id` from the frontier to the expanded ids, call the
      neighbour function on its record and handle every candidate. */
  function Expand<Id>(s: State<Id>, id: Id, getNeighbours: Node<Id> -> seq<Candidate<Id>>, max: bool): State<Id>
    requires id in s.todo
  {
    var node := s.todo[id];
    var s1 := State(s.todo - {id}, Without(s.order, id), s.done + {id}, s.trace + [node], s.evaluated);
    HandleAll(s1, node, getNeighbours(node), max)
  }

  /** An expansion whose candidates are all invalid, expanded, the expanded
      id itself, or no improvement on their frontier records only moves the
      id from the frontier to the expanded ids. */
  lemma ExpandUnchanged<Id>(s: State<Id>, id: Id, getNeighbours: Node<Id> -> seq<Candidate<Id>>, max: bool)
    requires id in s.todo
    requires var cs := getNeighbours(s.todo[id]);
      forall i | 0 <= i < |cs| ::
        || cs[i].Invalid? || cs[i].id in s.done || cs[i].id == id
        || (cs[i].id in s.todo && !IsBetter(s.todo[cs[i].id].cost, cs[i].cost, max))
    ensures Expand(s, id, getNeighbours, max)
         == State(s.todo - {id}, Without(s.order, id), s.done + {id}, s.trace + [s.todo[id]], s.evaluated)
  {
    var node := s.todo[id];
    var s1 := State(s.todo - {id}, Without(s.order, id), s.done + {id}, s.trace + [node], s.evaluated);
    HandleAllUnchanged(s1, node, getNeighbours(node), max);
  }

  /** The start record, scored and parentless. */
  function Root<Id>(firstId: Id, firstCost: int, firstEst: Est): Node<Id>
  {
    ComputeNode(firstId, firstCost, firstEst, None)
  }

  /** The state before the first selection: the scored start record alone in
      the frontier. */
  function Init<Id>(firstId: Id, firstCost: int, firstEst: Est): State<Id>
  {
    State(map[firstId := Root(firstId, firstCost, firstEst)], [firstId], {}, [], Evaluations(firstId, firstEst))
  }

  lemma InitInv<Id>(firstId: Id, firstCost: int, firstEst: Est, universe: set<Id>)
    requires firstId in universe
    ensures Inv(Init(firstId, firstCost, firstEst), universe, Root(firstId, firstCost, firstEst))
  {
    var root := Root(firstId, firstCost, firstEst);
    assert Chain(root) == [root];
  }

  /** Relaxing a frontier record under the node being expanded keeps the
      invariant. */
  lemma RelaxInv<Id>(s: State<Id>, node: Node<Id>, id: Id, cost: int, universe: set<Id>, root: Node<Id>)
    requires Inv(s, universe, root) && id in s.todo
    requires node.id in s.done && Linked(node, s.done, root)
    ensures Inv(s.(todo := s.todo[id := ComputeNode(s.todo[id].id, cost, s.todo[id].est, Some(node))]), universe, root)
  {
    var refNode := s.todo[id];
    LinkChild(node, refNode.id, cost, refNode.est, s.done, root);
    var todo := s.todo[id := ComputeNode(refNode.id, cost, refNode.est, Some(node))];
    assert todo.Keys == s.todo.Keys;
  }

  /** Inserting a fresh record under the node being expanded keeps the
      invariant. */
  lemma InsertInv<Id>(s: State<Id>, node: Node<Id>, id: Id, cost: int, est: Est, universe: set<Id>, root: Node<Id>)
    requires Inv(s, universe, root) && id !in s.todo && id !in s.done && id in universe
    requires node.id in s.done && Linked(node, s.done, root)
    ensures Inv(State(s.todo[id := ComputeNode(id, cost, est, Some(node))], s.order + [id], s.done, s.trace,
                      s.evaluated + Evaluations(id, est)), universe, root)
  {
    LinkChild(node, id, cost, est, s.done, root);
    assert id !in s.evaluated;
    assert id !in s.order;
  }

  /** Handling one candidate keeps the invariant. */
  lemma HandleCandidateInv<Id>(s: State<Id>, node: Node<Id>, c: Candidate<Id>, max: bool, universe: set<Id>, root: Node<Id>)
    requires Inv(s, universe, root)
    requires node.id in s.done && Linked(node, s.done, root)
    requires c.Valid? ==> c.id in universe
    ensures Inv(HandleCandidate(s, node, c, max), universe, root)
  {
    if c.Valid? && c.id !in s.done {
      if c.id in s.todo {
        if IsBetter(s.todo[c.id].cost, c.cost, max) {
          RelaxInv(s, node, c.id, c.cost, universe, root);
          assert s.todo[c.id].est.Known?;
          assert HandleCandidate(s, node, c, max)
              == s.(todo := s.todo[c.id := ComputeNode(s.todo[c.id].id, c.cost, s.todo[c.id].est, Some(node))]);
        }
      } else {
        InsertInv(s, node, c.id, c.cost, c.est, universe, root);
      }
    }
  }

  /** Handling the candidates of one neighbour call keeps the invariant. */
  lemma {:induction false} HandleAllInv<Id>(s: State<Id>, node: Node<Id>, cs: seq<Candidate<Id>>, max: bool, universe: set<Id>, root: Node<Id>)
    requires Inv(s, universe, root)
    requires node.id in s.done && Linked(node, s.done, root)
    requires forall i | 0 <= i < |cs| :: cs[i].Valid? ==> cs[i].id in universe
    ensures Inv(HandleAll(s, node, cs, max), universe, root)
    decreases |cs|
  {
    if cs != [] {
      var init := cs[..|cs| - 1];
      HandleAllInv(s, node, init, max, universe, root);
      HandleCandidateInv(HandleAll(s, node, init, max), node, cs[|cs| - 1], max, universe, root);
    }
  }

  /** Moving a frontier id to the expanded ids, and its record to the
      neighbour calls, keeps the invariant. */
  lemma MoveToDoneInv<Id>(s: State<Id>, id: Id, universe: set<Id>, root: Node<Id>)
    requires Inv(s, universe, root) && id in s.todo
    ensures Inv(State(s.todo - {id}, Without(s.order, id), s.done + {id}, s.trace + [s.todo[id]], s.evaluated), universe, root)
  {
    var node := s.todo[id];
    var done := s.done + {id};
    var s1 := State(s.todo - {id}, Without(s.order, id), done, s.trace + [node], s.evaluated);
    assert FrontierInv(s1, universe) by {
      WithoutNoDup(s.order, id);
      forall i | 0 <= i < |s1.order| ensures s1.order[i] in s1.todo {
        var y := s1.order[i];
        assert y in s.order;
        var j :| 0 <= j < |s.order| && s.order[j] == y;
      }
    }
    assert LinkedInv(s1, root) by {
      forall x | x in s1.todo ensures s1.todo[x].id == x && Linked(s1.todo[x], done, root) {
        LinkedGrows(s.todo[x], s.done, done, root);
      }
    }
    assert TraceInv(s1) by {
      forall i | 0 <= i < |s.trace| ensures s.trace[i].id != id {
        assert s.trace[i].id in s.done;
      }
      assert |done| == |s.done| + 1;
    }
  }

  /** An expansion keeps the invariant and adds exactly the expanded id to
      the expanded ids and its record to the neighbour calls. */
  lemma ExpandInv<Id(!new)>(s: State<Id>, id: Id, getNeighbours: Node<Id> -> seq<Candidate<Id>>, max: bool, universe: set<Id>, root: Node<Id>)
    requires Inv(s, universe, root) && id in s.todo && Closed(getNeighbours, universe)
    ensures Inv(Expand(s, id, getNeighbours, max), universe, root)
    ensures Expand(s, id, getNeighbours, max).done == s.done + {id}
    ensures Expand(s, id, getNeighbours, max).trace == s.trace + [s.todo[id]]
  {
    var node := s.todo[id];
    var done := s.done + {id};
    var s1 := State(s.todo - {id}, Without(s.order, id), done, s.trace + [node], s.evaluated);
    MoveToDoneInv(s, id, universe, root);
    LinkedGrows(node, s.done, done, root);
    var cs := getNeighbours(node);
    assert forall i | 0 <= i < |cs| :: cs[i].Valid? ==> cs[i].id in universe;
    HandleAllInv(s1, node, cs, max, universe, root);
  }

  lemma UnexpandedShrinks<Id>(universe: set<Id>, done: set<Id>, id: Id)
    requires id in universe && id !in done
    ensures |universe - (done + {id})| < |universe - done|
  {
    assert universe - done == (universe - (done + {id})) + {id};
  }

  /** The id the selection picks from a non-empty frontier. */
  function SelectedId<Id>(s: State<Id>, max: bool): Id
    requires Listed(s.todo, s.order) && s.order != []
  {
    s.order[Select(s.todo, s.order, max)]
  }

  /** The search from state `s`: select the preferred frontier entry; stop on
      a final one; otherwise expand it and go on; stop with no final node when
      the frontier is empty. */
  ghost function Run<Id(!new)>(s: State<Id>, getNeighbours: Node<Id> -> seq<Candidate<Id>>, isFinal: Node<Id> -> bool,
                               max: bool, universe: set<Id>, root: Node<Id>): Outcome<Id>
    requires Inv(s, universe, root) && Closed(getNeighbours, universe)
    decreases |universe - s.done|
  {
    if s.order == [] then Outcome(s, None)
    else
      var id := SelectedId(s, max);
      if isFinal(s.todo[id]) then Outcome(s, Some(s.todo[id]))
      else
        ExpandInv(s, id, getNeighbours, max, universe, root);
        UnexpandedShrinks(universe, s.done, id);
        Run(Expand(s, id, getNeighbours, max), getNeighbours, isFinal, max, universe, root)
  }

  /** The whole search from the start record. */
  ghost function Solve<Id(!new)>(firstId: Id, firstCost: int, firstEst: Est, getNeighbours: Node<Id> -> seq<Candidate<Id>>,
                                 isFinal: Node<Id> -> bool, max: bool, universe: set<Id>): Outcome<Id>
    requires firstId in universe && Closed(getNeighbours, universe)
  {
    InitInv(firstId, firstCost, firstEst, universe);
    Run(Init(firstId, firstCost, firstEst), getNeighbours, isFinal, max, universe, Root(firstId, firstCost, firstEst))
  }

  /** One step of the run when the frontier is empty: no final node. */
  lemma RunExhausted<Id(!new)>(s: State<Id>, getNeighbours: Node<Id> -> seq<Candidate<Id>>, isFinal: Node<Id> -> bool,
                               max: bool, universe: set<Id>, root: Node<Id>)
    requires Inv(s, universe, root) && Closed(getNeighbours, universe) && s.order == []
    ensures Run(s, getNeighbours, isFinal, max, universe, root) == Outcome(s, None)
  {
  }

  /** One step of the run when the selected entry is final: the run stops on it. */
  lemma RunStops<Id(!new)>(s: State<Id>, getNeighbours: Node<Id> -> seq<Candidate<Id>>, isFinal: Node<Id> -> bool,
                           max: bool, universe: set<Id>, root: Node<Id>, k: nat)
    requires Inv(s, universe, root) && Closed(getNeighbours, universe)
    requires k < |s.order| && IsSelected(s.todo, s.order, max, k) && isFinal(s.todo[s.order[k]])
    ensures Run(s, getNeighbours, isFinal, max, universe, root) == Outcome(s, Some(s.todo[s.order[k]]))
  {
    SelectedUnique(s.todo, s.order, max, k, Select(s.todo, s.order, max));
  }

  /** One step of the run when the selected entry is not final: the run goes
      on from its expansion. */
  lemma RunContinues<Id(!new)>(s: State<Id>, getNeighbours: Node<Id> -> seq<Candidate<Id>>, isFinal: Node<Id> -> bool,
                               max: bool, universe: set<Id>, root: Node<Id>, k: nat)
    requires Inv(s, universe, root) && Closed(getNeighbours, universe)
    requires k < |s.order| && IsSelected(s.todo, s.order, max, k) && !isFinal(s.todo[s.order[k]])
    ensures Inv(Expand(s, s.order[k], getNeighbours, max), universe, root)
    ensures Run(s, getNeighbours, isFinal, max, universe, root)
         == Run(Expand(s, s.order[k], getNeighbours, max), getNeighbours, isFinal, max, universe, root)
  {
    SelectedUnique(s.todo, s.order, max, k, Select(s.todo, s.order, max));
    ExpandInv(s, s.order[k], getNeighbours, max, universe, root);
  }

  /** The run keeps the invariant. */
  lemma {:induction false} RunInv<Id(!new)>(s: State<Id>, getNeighbours: Node<Id> -> seq<Candidate<Id>>, isFinal: Node<Id> -> bool,
                                            max: bool, universe: set<Id>, root: Node<Id>)
    requires Inv(s, universe, root) && Closed(getNeighbours, universe)
    ensures Inv(Run(s, getNeighbours, isFinal, max, universe, root).state, universe, root)
    decreases |universe - s.done|
  {
    if s.order != [] && !isFinal(s.todo[SelectedId(s, max)]) {
      var id := SelectedId(s, max);
      ExpandInv(s, id, getNeighbours, max, universe, root);
      UnexpandedShrinks(universe, s.done, id);
      RunInv(Expand(s, id, getNeighbours, max), getNeighbours, isFinal, max, universe, root);
    }
  }

  /** The run only adds expanded ids and neighbour calls. */
  lemma {:induction false} RunGrows<Id(!new)>(s: State<Id>, getNeighbours: Node<Id> -> seq<Candidate<Id>>, isFinal: Node<Id> -> bool,
                                              max: bool, universe: set<Id>, root: Node<Id>)
    requires Inv(s, universe, root) && Closed(getNeighbours, universe)
    ensures var r := Run(s, getNeighbours, isFinal, max, universe, root);
      s.done <= r.state.done && s.trace <= r.state.trace
    decreases |universe - s.done|
  {
    if s.order != [] && !isFinal(s.todo[SelectedId(s, max)]) {
      var k := Select(s.todo, s.order, max);
      var id := s.order[k];
      RunContinues(s, getNeighbours, isFinal, max, universe, root, k);
      ExpandInv(s, id, getNeighbours, max, universe, root);
      UnexpandedShrinks(universe, s.done, id);
      var next := Expand(s, id, getNeighbours, max);
      RunGrows(next, getNeighbours, isFinal, max, universe, root);
      var r := Run(next, getNeighbours, isFinal, max, universe, root);
      assert s.done <= next.done <= r.state.done;
      assert s.trace <= next.trace <= r.state.trace;
    }
  }

  /** The run ends either with an empty frontier and no final node, or on the
      entry the selection picks, which passes the termination test. */
  lemma {:induction false} RunEnds<Id(!new)>(s: State<Id>, getNeighbours: Node<Id> -> seq<Candidate<Id>>, isFinal: Node<Id> -> bool,
                                             max: bool, universe: set<Id>, root: Node<Id>)
    requires Inv(s, universe, root) && Closed(getNeighbours, universe)
    ensures var r := Run(s, getNeighbours, isFinal, max, universe, root);
      && Inv(r.state, universe, root)
      && (r.final.None? <==> r.state.order == [])
      && (r.final.Some? ==> r.state.order != [] && r.final.value == r.state.todo[SelectedId(r.state, max)] && isFinal(r.final.value))
    decreases |universe - s.done|
  {
    RunInv(s, getNeighbours, isFinal, max, universe, root);
    if s.order != [] && !isFinal(s.todo[SelectedId(s, max)]) {
      var id := SelectedId(s, max);
      ExpandInv(s, id, getNeighbours, max, universe, root);
      UnexpandedShrinks(universe, s.done, id);
      RunEnds(Expand(s, id, getNeighbours, max), getNeighbours, isFinal, max, universe, root);
    }
  }

  /** Every node given to the neighbour function during a run was not final
      when it was selected. */
  lemma {:induction false} RunExpandsOnlyNonFinal<Id(!new)>(s: State<Id>, getNeighbours: Node<Id> -> seq<Candidate<Id>>,
                                                             isFinal: Node<Id> -> bool, max: bool, universe: set<Id>, root: Node<Id>)
    requires Inv(s, universe, root) && Closed(getNeighbours, universe)
    ensures var r := Run(s, getNeighbours, isFinal, max, universe, root);
      forall i | |s.trace| <= i < |r.state.trace| :: !isFinal(r.state.trace[i])
    decreases |universe - s.done|
  {
    if s.order != [] && !isFinal(s.todo[SelectedId(s, max)]) {
      var id := SelectedId(s, max);
      ExpandInv(s, id, getNeighbours, max, universe, root);
      UnexpandedShrinks(universe, s.done, id);
      var next := Expand(s, id, getNeighbours, max);
      RunExpandsOnlyNonFinal(next, getNeighbours, isFinal, max, universe, root);
      RunGrows(next, getNeighbours, isFinal, max, universe, root);
      var r := Run(next, getNeighbours, isFinal, max, universe, root);
      forall i | |s.trace| <= i < |r.state.trace| ensures !isFinal(r.state.trace[i]) {
        if i == |s.trace| {
          assert r.state.trace[i] == next.trace[i] == s.todo[id];
        }
      }
    }
  }
}
