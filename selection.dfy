/**
 Frontier selection (nextNodeMin / nextNodeMax): a linear scan of the frontier
 in insertion order that keeps the entry with the extreme virtual cost, ties
 broken by the extreme cost estimation, remaining ties by the first entry seen.
 */
module Selection {
  import opened Nodes

  /** `n` is strictly preferable to `best`: a lower virtual cost, or an equal
      one and a lower estimation (higher for both in max mode). */
  predicate Improves<Id>(n: Node<Id>, best: Node<Id>, max: bool)
  {
    if max then
      n.virtualCost > best.virtualCost ||
      (n.virtualCost == best.virtualCost && n.est.Value() > best.est.Value())
    else
      n.virtualCost < best.virtualCost ||
      (n.virtualCost == best.virtualCost && n.est.Value() < best.est.Value())
  }

  /** Every id of the insertion order has a record. */
  predicate Listed<Id(==)>(todo: map<Id, Node<Id>>, order: seq<Id>)
  {
    forall i | 0 <= i < |order| :: order[i] in todo
  }

  /** Among the first `i` entries, no entry is preferable to entry `k`, and
      entry `k` is preferable to every entry before it. */
  ghost predicate SelectedIn<Id>(todo: map<Id, Node<Id>>, order: seq<Id>, max: bool, i: int, k: int)
    requires Listed(todo, order) && i <= |order|
  {
    && 0 <= k < i
    && (forall j | 0 <= j < i :: !Improves(todo[order[j]], todo[order[k]], max))
    && (forall j | 0 <= j < k :: Improves(todo[order[k]], todo[order[j]], max))
  }

  /** Entry `k` is the one the selection scan must return. */
  ghost predicate IsSelected<Id>(todo: map<Id, Node<Id>>, order: seq<Id>, max: bool, k: int)
    requires Listed(todo, order)
  {
    SelectedIn(todo, order, max, |order|, k)
  }

  /** At most one entry satisfies the selection rule. */
  lemma SelectedUnique<Id>(todo: map<Id, Node<Id>>, order: seq<Id>, max: bool, k1: int, k2: int)
    requires Listed(todo, order)
    requires IsSelected(todo, order, max, k1) && IsSelected(todo, order, max, k2)
    ensures k1 == k2
  {
    assert !Improves(todo[order[k2]], todo[order[k1]], max);
    assert !Improves(todo[order[k1]], todo[order[k2]], max);
  }

  /** The scan from entry `i` on, with entry `best` the one kept so far. */
  function Scan<Id>(todo: map<Id, Node<Id>>, order: seq<Id>, max: bool, i: nat, best: nat): nat
    requires Listed(todo, order) && best < i <= |order|
    decreases |order| - i
  {
    if i == |order| then best
    else if Improves(todo[order[i]], todo[order[best]], max) then Scan(todo, order, max, i + 1, i)
    else Scan(todo, order, max, i + 1, best)
  }

  /** A scan that starts from an entry selected among the first `i` returns
      the entry selected among all of them. */
  lemma {:induction false} ScanSelects<Id>(todo: map<Id, Node<Id>>, order: seq<Id>, max: bool, i: nat, best: nat)
    requires Listed(todo, order) && best < i <= |order|
    requires SelectedIn(todo, order, max, i, best)
    ensures IsSelected(todo, order, max, Scan(todo, order, max, i, best))
    decreases |order| - i
  {
    if i < |order| {
      if Improves(todo[order[i]], todo[order[best]], max) {
        ScanSelects(todo, order, max, i + 1, i);
      } else {
        ScanSelects(todo, order, max, i + 1, best);
      }
    }
  }

  /** The index of the entry the selection picks; the first entry is the
      initial candidate of the scan. */
  function Select<Id>(todo: map<Id, Node<Id>>, order: seq<Id>, max: bool): (k: nat)
    requires Listed(todo, order) && |order| > 0
    ensures k < |order| && IsSelected(todo, order, max, k)
  {
    ScanSelects(todo, order, max, 1, 0);
    Scan(todo, order, max, 1, 0)
  }

  /** nextNodeMin: the entry of least virtual cost, then least estimation,
      then first in insertion order. */
  method NextNodeMin<Id(==)>(todo: map<Id, Node<Id>>, order: seq<Id>) returns (ref: Node<Id>, ghost k: nat)
    requires Listed(todo, order) && |order| > 0
    ensures k < |order| && ref == todo[order[k]] && IsSelected(todo, order, false, k)
    ensures forall j | 0 <= j < |order| :: ref.virtualCost <= todo[order[j]].virtualCost
  {
    ref := todo[order[0]];
    var value, valueEst := ref.virtualCost, ref.est.Value();
    k := 0;
    for i := 1 to |order|
      invariant k < i && ref == todo[order[k]]
      invariant value == ref.virtualCost && valueEst == ref.est.Value()
      invariant SelectedIn(todo, order, false, i, k)
    {
      var node := todo[order[i]];
      if node.virtualCost < value {
        value, valueEst, ref, k := node.virtualCost, node.est.Value(), node, i;
      } else if node.virtualCost == value && node.est.Value() < valueEst {
        value, valueEst, ref, k := node.virtualCost, node.est.Value(), node, i;
      }
    }
  }

  /** nextNodeMax: the entry of greatest virtual cost, then greatest
      estimation, then first in insertion order. */
  method NextNodeMax<Id(==)>(todo: map<Id, Node<Id>>, order: seq<Id>) returns (ref: Node<Id>, ghost k: nat)
    requires Listed(todo, order) && |order| > 0
    ensures k < |order| && ref == todo[order[k]] && IsSelected(todo, order, true, k)
    ensures forall j | 0 <= j < |order| :: ref.virtualCost >= todo[order[j]].virtualCost
  {
    ref := todo[order[0]];
    var value, valueEst := ref.virtualCost, ref.est.Value();
    k := 0;
    for i := 1 to |order|
      invariant k < i && ref == todo[order[k]]
      invariant value == ref.virtualCost && valueEst == ref.est.Value()
      invariant SelectedIn(todo, order, true, i, k)
    {
      var node := todo[order[i]];
      if node.virtualCost > value {
        value, valueEst, ref, k := node.virtualCost, node.est.Value(), node, i;
      } else if node.virtualCost == value && node.est.Value() > valueEst {
        value, valueEst, ref, k := node.virtualCost, node.est.Value(), node, i;
      }
    }
  }
}
