/**
 The binary search tree of limit prices. A pointer to a tree node is the node's key; the
 source's `find_best` reads the parent and child pointers that the removed node had.
 */
module SearchTree {
  import opened MarketTypes
  import opened PriceTime

  datatype Tree = Leaf | Node(left: Tree, key: Price, right: Tree)

  function Keys(t: Tree): set<Price> {
    if t.Leaf? then {} else Keys(t.left) + {t.key} + Keys(t.right)
  }

  predicate IsBst(t: Tree) {
    t.Node? ==>
      && IsBst(t.left) && IsBst(t.right)
      && (forall k | k in Keys(t.left) :: k < t.key)
      && (forall k | k in Keys(t.right) :: t.key < k)
  }

  function Add(t: Tree, k: Price): Tree {
    if t.Leaf? then Node(Leaf, k, Leaf)
    else if k < t.key then t.(left := Add(t.left, k))
    else if t.key < k then t.(right := Add(t.right, k))
    else t
  }

  /** The extreme key on the side's good end: the highest buy or the lowest sell. */
  function Extreme(side: Side, t: Tree): Price
    requires t.Node?
  {
    var next := if side.Buy? then t.right else t.left;
    if next.Leaf? then t.key else Extreme(side, next)
  }

  function Delete(t: Tree, k: Price): Tree {
    if t.Leaf? then Leaf
    else if k < t.key then t.(left := Delete(t.left, k))
    else if t.key < k then t.(right := Delete(t.right, k))
    else if t.left.Leaf? then t.right
    else if t.right.Leaf? then t.left
    else
      var successor := Extreme(Sell, t.right);
      Node(t.left, successor, Delete(t.right, successor))
  }

  function RootKey(t: Tree): Option<Price> {
    if t.Leaf? then None else Some(t.key)
  }

  /** The subtree whose root is the node with key k. */
  function Subtree(t: Tree, k: Price): Tree {
    if t.Leaf? || t.key == k then t
    else if k < t.key then Subtree(t.left, k)
    else Subtree(t.right, k)
  }

  function Parent(t: Tree, k: Price): Option<Price> {
    if t.Leaf? || t.key == k then None
    else
      var child := if k < t.key then t.left else t.right;
      if child.Leaf? then None
      else if child.key == k then Some(t.key)
      else Parent(child, k)
  }

  /** The node to look at next when the best node k is gone: its parent or, for the root,
      the child away from the good end; then as far as possible towards the good end. */
  function FindBest(side: Side, before: Tree, after: Tree, k: Price): Option<Price> {
    var node := Subtree(before, k);
    var start :=
      if Parent(before, k).Some? then Parent(before, k)
      else if node.Leaf? then None
      else RootKey(if side.Buy? then node.left else node.right);
    if start.None? || Subtree(after, start.value).Leaf? then None
    else Some(Extreme(side, Subtree(after, start.value)))
  }

  predicate IsBest(side: Side, keys: set<Price>, k: Price) {
    k in keys && forall x | x in keys :: !Better(side, x, k)
  }

  lemma {:induction false} AddKeys(t: Tree, k: Price)
    requires IsBst(t)
    ensures Keys(Add(t, k)) == Keys(t) + {k} && IsBst(Add(t, k))
  {
    if t.Node? {
      AddKeys(t.left, k);
      AddKeys(t.right, k);
    }
  }

  lemma {:induction false} ExtremeIsBest(side: Side, t: Tree)
    requires IsBst(t) && t.Node?
    ensures IsBest(side, Keys(t), Extreme(side, t))
  {
    var next := if side.Buy? then t.right else t.left;
    if next.Node? {
      ExtremeIsBest(side, next);
    }
  }

  lemma {:induction false} DeleteKeys(t: Tree, k: Price)
    requires IsBst(t)
    ensures Keys(Delete(t, k)) == Keys(t) - {k} && IsBst(Delete(t, k))
  {
    if t.Leaf? {
    } else if k < t.key {
      DeleteKeys(t.left, k);
    } else if t.key < k {
      DeleteKeys(t.right, k);
    } else if t.left.Node? && t.right.Node? {
      ExtremeIsBest(Sell, t.right);
      DeleteKeys(t.right, Extreme(Sell, t.right));
    }
  }

  lemma {:induction false} ParentIsKey(t: Tree, k: Price)
    requires IsBst(t) && k in Keys(t)
    ensures Parent(t, k).Some? <==> t.key != k
    ensures Parent(t, k).Some? ==> Parent(t, k).value in Keys(t) && Parent(t, k).value != k
  {
    if t.key != k {
      var child := if k < t.key then t.left else t.right;
      if child.key != k {
        ParentIsKey(child, k);
      }
    }
  }

  /** Below the root, the search for the next best stays inside the child that held k. */
  lemma {:induction false} FindBestBelow(side: Side, t: Tree, k: Price)
    requires IsBst(t) && IsBest(side, Keys(t), k) && t.key != k
    ensures Parent(t, k).Some?
    ensures Subtree(Delete(t, k), Parent(t, k).value).Node?
    ensures IsBest(side, Keys(t) - {k}, Extreme(side, Subtree(Delete(t, k), Parent(t, k).value)))
  {
    var child := if k < t.key then t.left else t.right;
    DeleteKeys(t, k);
    ParentIsKey(t, k);
    assert IsBest(side, Keys(child), k);
    if child.key == k {
      ExtremeIsBest(side, Delete(t, k));
    } else {
      FindBestBelow(side, child, k);
      ParentIsKey(child, k);
      var best := Extreme(side, Subtree(Delete(child, k), Parent(child, k).value));
      assert Better(side, best, t.key);
    }
  }

  /** The pointer chase of `find_best` lands on the best price of what remains. */
  lemma FindBestCorrect(side: Side, t: Tree, k: Price)
    requires IsBst(t) && IsBest(side, Keys(t), k)
    ensures
      match FindBest(side, t, Delete(t, k), k)
      case None => Keys(t) == {k}
      case Some(b) => IsBest(side, Keys(t) - {k}, b)
  {
    DeleteKeys(t, k);
    ParentIsKey(t, k);
    if t.key == k {
      var other := if side.Buy? then t.left else t.right;
      var toward := if side.Buy? then t.right else t.left;
      assert Keys(toward) == {};
      assert Delete(t, k) == other;
      if other.Node? {
        ExtremeIsBest(side, other);
      }
    } else {
      FindBestBelow(side, t, k);
    }
  }
}
