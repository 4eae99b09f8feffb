/**
 The records the A* engine works on: the cost estimation a caller supplies
 (a number or a deferred computation), the candidates a neighbour function
 returns, and the node records the engine scores and links to their parents.
 */
module Nodes {

  datatype Option<T> = None | Some(value: T)

  /** A cost estimation as the caller supplies it: a number, or a
      zero-argument function, modelled by the number it would return. */
  datatype Est = Known(value: int) | Deferred(result: int)
  {
    /** The number this estimation stands for. */
    function Value(): int
    {
      match this
      case Known(v) => v
      case Deferred(v) => v
    }
  }

  /** What a neighbour function yields: a falsy value or a record without an
      id (Invalid), or a record with an id, a cost and a cost estimation. */
  datatype Candidate<Id> = Invalid | Valid(id: Id, cost: int, est: Est)

  /** A node record: `parent` is the node that was being expanded when this
      record was inserted or last relaxed (None for the start node). */
  datatype Node<Id> = Node(id: Id, cost: int, est: Est, virtualCost: int, parent: Option<Node<Id>>)

  /** The record has been through scoring: its estimation is a number and its
      virtual cost is cost plus estimation. */
  predicate Scored<Id>(n: Node<Id>)
  {
    n.est.Known? && n.virtualCost == n.cost + n.est.value
  }

  /** Scoring (computeNode): a deferred estimation is replaced by its result,
      and the virtual cost is set to cost plus estimation. */
  function ComputeNode<Id>(id: Id, cost: int, est: Est, parent: Option<Node<Id>>): (r: Node<Id>)
    ensures Scored(r)
    ensures r.id == id && r.cost == cost && r.parent == parent
    ensures r.est.value == est.Value()
    ensures est.Known? ==> r.est == est
  {
    Node(id, cost, Known(est.Value()), cost + est.Value(), parent)
  }

  /** The estimation calls that scoring a record with estimation `est` makes:
      one for a deferred estimation, none for a number. */
  function Evaluations<Id>(id: Id, est: Est): multiset<Id>
  {
    if est.Deferred? then multiset{id} else multiset{}
  }

  /** The default termination test (isFinalNd): the estimation is the number 0. */
  predicate IsFinalNd<Id>(n: Node<Id>)
  {
    n.est.Known? && n.est.value == 0
  }

  /** The chain of records from the parentless root to `n`, following parent links. */
  function Chain<Id>(n: Node<Id>): (c: seq<Node<Id>>)
    ensures |c| >= 1 && c[0].parent.None?
    ensures forall i, j | 0 <= i < |c| && j == i + 1 < |c| :: c[j].parent == Some(c[i])
    decreases n
  {
    match n.parent
    case None => [n]
    case Some(p) => Chain(p) + [n]
  }

  /** The chain ends at the record it was built from. */
  lemma ChainLast<Id>(n: Node<Id>)
    ensures Chain(n)[|Chain(n)| - 1] == n
  {
  }

  /** The path the parent links give: nothing without a final node, otherwise
      the chain from the start record to the final node. */
  function PathOf<Id>(finalNode: Option<Node<Id>>): seq<Node<Id>>
  {
    match finalNode
    case None => []
    case Some(n) => Chain(n)
  }

  /** No value occurs twice in `s`. */
  predicate NoDup<T(==)>(s: seq<T>)
  {
    forall i, j | 0 <= i < j < |s| :: s[i] != s[j]
  }

  /** The ids of the records of `t`, in order. */
  function Ids<Id>(t: seq<Node<Id>>): (r: seq<Id>)
    ensures |r| == |t| && forall i | 0 <= i < |t| :: r[i] == t[i].id
  {
    seq(|t|, i requires 0 <= i < |t| => t[i].id)
  }

  /** No two records of `s` carry the same id. */
  predicate DistinctIds<Id(==)>(s: seq<Node<Id>>)
  {
    NoDup(Ids(s))
  }

  /** The record is scored, its chain starts at `root`, the records on it have
      distinct ids, and every record before `n` on it has been expanded. */
  ghost predicate Linked<Id>(n: Node<Id>, done: set<Id>, root: Node<Id>)
  {
    var c := Chain(n);
    && Scored(n)
    && c[0] == root
    && DistinctIds(c)
    && (forall i | 0 <= i < |c| - 1 :: c[i].id in done)
    && (forall i | 0 <= i < |c| :: Scored(c[i]))
  }

  /** Linking a fresh record under the node being expanded keeps it linked,
      as long as the fresh id has not been expanded. */
  lemma LinkChild<Id>(node: Node<Id>, id: Id, cost: int, est: Est, done: set<Id>, root: Node<Id>)
    requires Linked(node, done, root) && node.id in done && id !in done
    ensures Linked(ComputeNode(id, cost, est, Some(node)), done, root)
  {
    var child := ComputeNode(id, cost, est, Some(node));
    var c := Chain(node);
    ChainLast(node);
    assert Chain(child) == c + [child];
    forall i | 0 <= i < |c| ensures c[i].id in done {
      if i == |c| - 1 {
        assert c[i] == node;
      }
    }
  }

  /** Expanding more nodes keeps a linked record linked. */
  lemma LinkedGrows<Id>(n: Node<Id>, done: set<Id>, more: set<Id>, root: Node<Id>)
    requires Linked(n, done, root) && done <= more
    ensures Linked(n, more, root)
  {
  }
}
