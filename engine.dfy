/**
 The search engine itself (AStar): the frontier as a map with its insertion
 order, the set of expanded ids, the selection / expansion loop with candidate
 handling written statement by statement, and the path rebuild; proved against
 the reference semantics `Search.Solve`.
 */
module Engine {
  import opened Nodes
  import opened Selection
  import opened Search
  import opened Outcomes

  /** The options object: the termination test and the search direction. */
  datatype Options<!Id> = Options(isFinalNode: Node<Id> -> bool, max: bool)

  /** The options the engine uses when the caller gives none. */
  function DefaultOptions<Id(!new)>(): (r: Options<Id>)
    ensures !r.max
    ensures forall n: Node<Id> :: r.isFinalNode(n) <==> n.est == Known(0)
  {
    Options(IsFinalNd, false)
  }

  /** Array.prototype.reverse, as a function on sequences. */
  function Reverse<T>(s: seq<T>): (r: seq<T>)
    ensures |r| == |s|
    ensures forall i | 0 <= i < |s| :: r[i] == s[|s| - 1 - i]
  {
    if s == [] then [] else [s[|s| - 1]] + Reverse(s[..|s| - 1])
  }

  lemma ReversePush<T>(s: seq<T>, x: T)
    ensures Reverse(s + [x]) == [x] + Reverse(s)
  {
    assert (s + [x])[..|s|] == s;
  }

  lemma PathStep<Id>(n: Node<Id>)
    ensures PathOf(Some(n)) == PathOf(n.parent) + [n]
  {
  }

  /** The path rebuild: push each node while following parent links from the
      final node, then reverse. */
  method RebuildPath<Id>(finalNode: Option<Node<Id>>) returns (path: seq<Node<Id>>)
    ensures path == PathOf(finalNode)
  {
    var pushed: seq<Node<Id>> := [];
    var pathNode := finalNode;
    while pathNode.Some?
      invariant PathOf(finalNode) == PathOf(pathNode) + Reverse(pushed)
      decreases pathNode
    {
      var n := pathNode.value;
      PathStep(n);
      ReversePush(pushed, n);
      pushed := pushed + [n];
      pathNode := n.parent;
    }
    path := Reverse(pushed);
  }

  /** The loop over the candidates of one neighbour call: invalid candidates
      and expanded ids are skipped, a frontier record is relaxed in place when
      the candidate is strictly better, any other candidate is scored and
      appended to the frontier with `node` as its parent. */
  method HandleChildren<Id(==)>(todo: map<Id, Node<Id>>, order: seq<Id>, done: set<Id>, node: Node<Id>,
                                children: seq<Candidate<Id>>, max: bool,
                                ghost trace: seq<Node<Id>>, ghost evaluated: multiset<Id>)
    returns (todo': map<Id, Node<Id>>, order': seq<Id>, ghost evaluated': multiset<Id>)
    ensures var r := HandleAll(State(todo, order, done, trace, evaluated), node, children, max);
      todo' == r.todo && order' == r.order
    ensures evaluated' == HandleAll(State(todo, order, done, trace, evaluated), node, children, max).evaluated
  {
    todo', order', evaluated' := todo, order, evaluated;
    for i := 0 to |children|
      invariant State(todo', order', done, trace, evaluated')
             == HandleAll(State(todo, order, done, trace, evaluated), node, children[..i], max)
    {
      var child := children[i];
      // an invalid candidate is rejected, one already expanded is skipped
      if child.Valid? && child.id !in done {
        if child.id in todo' {
          var refNode := todo'[child.id];
          var isBetter := if max then refNode.cost < child.cost else refNode.cost > child.cost;
          if isBetter {
            todo' := todo'[child.id := ComputeNode(refNode.id, child.cost, refNode.est, Some(node))];
            evaluated' := evaluated' + Evaluations(child.id, refNode.est);
          }
        } else {
          todo' := todo'[child.id := ComputeNode(child.id, child.cost, child.est, Some(node))];
          order' := order' + [child.id];
          evaluated' := evaluated' + Evaluations(child.id, child.est);
        }
      }
      assert children[..i + 1][..i] == children[..i];
    }
    assert children[..|children|] == children;
  }

  /** AStar(firstNode, getNeighbours, options): the start record is given by
      its id, cost and estimation. `universe` is a finite set of ids that holds
      the start id and is closed under the neighbour function for every record
      whose id is in it, whatever that record's cost, estimation and parent
      (`Search.Closed`); `trace` is the
      sequence of nodes the neighbour function was called on and `evaluated`
      the ids whose deferred estimation was called. */
  method AStar<Id(!new)(==)>(firstId: Id, firstCost: int, firstEst: Est,
                             getNeighbours: Node<Id> -> seq<Candidate<Id>>,
                             options: Options<Id>, ghost universe: set<Id>)
    returns (path: seq<Node<Id>>, ghost trace: seq<Node<Id>>, ghost evaluated: multiset<Id>)
    requires firstId in universe && Closed(getNeighbours, universe)
    ensures path == PathOf(Solve(firstId, firstCost, firstEst, getNeighbours, options.isFinalNode, options.max, universe).final)
    ensures var out := Solve(firstId, firstCost, firstEst, getNeighbours, options.isFinalNode, options.max, universe);
      trace == out.state.trace && evaluated == out.state.evaluated
    ensures Guaranteed(path, trace, evaluated, Root(firstId, firstCost, firstEst), options.isFinalNode, universe)
  {
    var isFinalNode, max := options.isFinalNode, options.max;
    ghost var root := Root(firstId, firstCost, firstEst);
    var done: set<Id> := {};
    var todo := map[firstId := ComputeNode(firstId, firstCost, firstEst, None)];
    var order := [firstId];
    var finalNode: Option<Node<Id>> := None;
    trace, evaluated := [], Evaluations(firstId, firstEst);
    InitInv(firstId, firstCost, firstEst, universe);
    ghost var goal := Solve(firstId, firstCost, firstEst, getNeighbours, isFinalNode, max, universe);

    // look for the final node
    while order != []
      invariant Inv(State(todo, order, done, trace, evaluated), universe, root)
      invariant Run(State(todo, order, done, trace, evaluated), getNeighbours, isFinalNode, max, universe, root) == goal
      invariant finalNode.None?
      decreases |universe - done|
    {
      ghost var s := State(todo, order, done, trace, evaluated);
      var node: Node<Id>;
      ghost var k: nat;
      if max {
        node, k := NextNodeMax(todo, order);
      } else {
        node, k := NextNodeMin(todo, order);
      }
      if isFinalNode(node) {
        // the final node has been found
        finalNode := Some(node);
        RunStops(s, getNeighbours, isFinalNode, max, universe, root, k);
        break;
      }
      RunContinues(s, getNeighbours, isFinalNode, max, universe, root, k);
      UnexpandedShrinks(universe, done, node.id);

      var nodeId := node.id;
      done := done + {nodeId};
      todo := todo - {nodeId};
      order := Without(order, nodeId);
      trace := trace + [node];
      todo, order, evaluated := HandleChildren(todo, order, done, node, getNeighbours(node), max, trace, evaluated);
    }
    if finalNode.None? {
      RunExhausted(State(todo, order, done, trace, evaluated), getNeighbours, isFinalNode, max, universe, root);
    }

    // rebuild path from final node
    path := RebuildPath(finalNode);

    SearchGuarantees(firstId, firstCost, firstEst, getNeighbours, isFinalNode, max, universe);
  }
}
