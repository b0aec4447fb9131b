/**
 What a sweep of one side does, said without the loop: which orders are touched, how much
 each one trades and what is left.
 */
module Sweeps {
  import opened MarketTypes
  import opened PriceTime

  /** The side once the first k fills have happened: a partly filled order stays in front. */
  function After(s: seq<Entry>, fills: seq<Fill>, k: nat): seq<Entry>
    requires k <= |fills| && k <= |s|
  {
    if k > 0 && fills[k - 1].makerLeaves > 0
    then [s[k - 1].(quantity := fills[k - 1].makerLeaves)] + s[k..]
    else s[k..]
  }

  function Traded(fills: seq<Fill>): nat {
    if fills == [] then 0 else fills[0].quantity + Traded(fills[1..])
  }

  /** The fills name a prefix of the side, in order, each at its resting price; every filled
      order but possibly the last is used up. */
  predicate Follows(s: seq<Entry>, fills: seq<Fill>) {
    && |fills| <= |s|
    && (forall i | 0 <= i < |fills| ::
          && fills[i].uid == s[i].uid && fills[i].price == s[i].price
          && fills[i].quantity + fills[i].makerLeaves == s[i].quantity)
    && forall i | 0 <= i < |fills| - 1 :: fills[i].makerLeaves == 0
  }

  /** Taking quantity off the front order. */
  lemma ReduceFront(s: seq<Entry>, quantity: Quantity)
    requires s != [] && quantity <= s[0].quantity
    ensures Find(s, s[0].uid) == 0
    ensures Reduce(s, s[0].uid, quantity) ==
      if s[0].quantity == quantity then s[1..]
      else [s[0].(quantity := s[0].quantity - quantity)] + s[1..]
    ensures Volume(Reduce(s, s[0].uid, quantity)) == Volume(s) - quantity
  {
    assert RemoveAt(s, 0) == s[1..];
    var e := s[0].(quantity := s[0].quantity - quantity);
    assert s[0 := e] == [e] + s[1..];
    VolumeUpdate(s, 0, e);
  }

  lemma FollowsCons(s: seq<Entry>, f: Fill, fills: seq<Fill>)
    requires s != [] && f.uid == s[0].uid && f.price == s[0].price && f.quantity == s[0].quantity && f.makerLeaves == 0
    requires Follows(s[1..], fills)
    ensures Follows(s, [f] + fills)
  {
    var all := [f] + fills;
    forall i | 1 <= i < |all|
      ensures all[i] == fills[i - 1] && s[i] == s[1..][i - 1]
    {
    }
  }

  lemma AfterCons(s: seq<Entry>, f: Fill, fills: seq<Fill>)
    requires s != [] && |fills| < |s| && f.makerLeaves == 0
    ensures After(s, [f] + fills, |fills| + 1) == After(s[1..], fills, |fills|)
  {
    var n := |fills|;
    assert s[1..][n..] == s[n + 1..];
    if n > 0 {
      assert ([f] + fills)[n] == fills[n - 1] && s[n] == s[1..][n - 1];
    }
  }

  lemma {:induction false} SweepShape(side: Side, s: seq<Entry>, price: Price, quantity: Quantity)
    ensures var m := Match(side, s, price, quantity);
      && Follows(s, m.fills)
      && m.rest == After(s, m.fills, |m.fills|)
  {
    var m := Match(side, s, price, quantity);
    if s != [] && CanMatch(side, s[0].price, price) {
      if s[0].quantity >= quantity {
        ReduceFront(s, quantity);
        hide Reduce;
      } else {
        var r := Match(side, s[1..], price, quantity - s[0].quantity);
        SweepShape(side, s[1..], price, quantity - s[0].quantity);
        FollowsCons(s, HeadFill(s[0], quantity), r.fills);
        AfterCons(s, HeadFill(s[0], quantity), r.fills);
        hide Follows, After;
      }
    }
  }

  /** Nothing of the incoming order is lost, and quantity is left over only when no acceptable
      order is left to take it. */
  lemma {:induction false} SweepConserves(side: Side, s: seq<Entry>, price: Price, quantity: Quantity)
    ensures var m := Match(side, s, price, quantity);
      && Traded(m.fills) + m.residual == quantity
      && Volume(m.rest) + Traded(m.fills) == Volume(s)
      && (m.residual > 0 ==> m.rest == [] || !CanMatch(side, m.rest[0].price, price))
      && (m.fills == [] ==> m.residual == quantity)
  {
    var m := Match(side, s, price, quantity);
    if s != [] && CanMatch(side, s[0].price, price) {
      assert m.fills[0].quantity == Min(s[0].quantity, quantity);
      if s[0].quantity >= quantity {
        assert m.fills[1..] == [];
        ReduceFront(s, quantity);
      } else {
        var r := Match(side, s[1..], price, quantity - s[0].quantity);
        SweepConserves(side, s[1..], price, quantity - s[0].quantity);
        assert m.fills[1..] == r.fills;
      }
    }
  }

  /** If an order is acceptable then so is everyone ahead of it. */
  lemma AcceptableAhead(side: Side, s: seq<Entry>, price: Price, i: nat)
    requires Sorted(side, s) && i < |s| && CanMatch(side, s[i].price, price)
    ensures CanMatch(side, s[0].price, price)
  {
    assert i > 0 ==> !Better(side, s[i].price, s[0].price);
  }

  /** The i-th order is touched exactly when it is acceptable and everything ahead of it does
      not suffice; it then trades what is still needed, up to its own quantity. */
  lemma {:induction false} SweepClosedForm(side: Side, s: seq<Entry>, price: Price, quantity: Quantity, i: nat)
    requires Sorted(side, s) && i < |s|
    ensures var m := Match(side, s, price, quantity);
      && (i < |m.fills| <==> CanMatch(side, s[i].price, price) && (i == 0 || Volume(s[..i]) < quantity))
      && (i < |m.fills| ==>
            var q := Min(s[i].quantity, quantity - Volume(s[..i]));
            m.fills[i] == Fill(s[i].uid, s[i].price, q, s[i].quantity - q, quantity - Volume(s[..i]) - q))
  {
    var m := Match(side, s, price, quantity);
    if CanMatch(side, s[i].price, price) {
      AcceptableAhead(side, s, price, i);
    }
    if i > 0 {
      assert s[..i][0] == s[0] && s[..i][1..] == s[1..][..i - 1];
      assert Volume(s[..i]) == s[0].quantity + Volume(s[1..][..i - 1]);
      if CanMatch(side, s[0].price, price) && s[0].quantity < quantity {
        assert Sorted(side, s[1..]);
        SweepClosedForm(side, s[1..], price, quantity - s[0].quantity, i - 1);
        assert i == 1 ==> Volume(s[1..][..i - 1]) == 0;
      }
    }
  }

  lemma {:induction false} TakerLeaves(side: Side, s: seq<Entry>, price: Price, quantity: Quantity, i: nat)
    requires i < |Match(side, s, price, quantity).fills|
    ensures var m := Match(side, s, price, quantity);
      && m.fills[i].takerLeaves == quantity - Traded(m.fills[..i + 1])
      && (m.fills[i].takerLeaves == 0 <==> i == |m.fills| - 1 && m.residual == 0)
  {
    var m := Match(side, s, price, quantity);
    assert m.fills[..i + 1][0] == m.fills[0];
    if s[0].quantity >= quantity {
      assert m.fills[..1][1..] == [];
    } else {
      var r := Match(side, s[1..], price, quantity - s[0].quantity);
      assert m.fills == [m.fills[0]] + r.fills;
      assert m.fills[..i + 1] == [m.fills[0]] + r.fills[..i];
      assert ([m.fills[0]] + r.fills[..i])[1..] == r.fills[..i];
      if i > 0 {
        TakerLeaves(side, s[1..], price, quantity - s[0].quantity, i - 1);
      } else {
        SweepConserves(side, s[1..], price, quantity - s[0].quantity);
      }
    }
  }

  /** A used up order is not in what remains; a partly filled one still is. */
  lemma MakerLeaves(s: seq<Entry>, fills: seq<Fill>, i: nat)
    requires Distinct(s) && Follows(s, fills) && i < |fills|
    ensures fills[i].makerLeaves == 0 <==> s[i].uid !in Uids(After(s, fills, |fills|))
  {
    var n := |fills|;
    var r := After(s, fills, n);
    if fills[n - 1].makerLeaves > 0 {
      assert r[0].uid == s[n - 1].uid && r[1..] == s[n..];
    } else {
      assert r == s[n..];
    }
    forall j | 0 <= j < |r|
      ensures r[j].uid == s[j + |s| - |r|].uid
    {
    }
    assert i < |s| - |r| ==> forall j | 0 <= j < |r| :: r[j].uid != s[i].uid;
  }

  /** Every execution reports the true remainders. The incoming order's is what it asked for minus
      everything it has traded, and 0 exactly at the execution that fills it; the resting order's is
      what it had minus this execution, and 0 exactly when it is gone afterwards. */
  lemma LeavesAreTrue(side: Side, s: seq<Entry>, price: Price, quantity: Quantity, i: nat)
    requires Distinct(s) && i < |Match(side, s, price, quantity).fills|
    ensures var m := Match(side, s, price, quantity);
      && m.fills[i].takerLeaves == quantity - Traded(m.fills[..i + 1])
      && (m.fills[i].takerLeaves == 0 <==> i == |m.fills| - 1 && m.residual == 0)
      && i < |s| && m.fills[i].uid == s[i].uid
      && m.fills[i].makerLeaves == s[i].quantity - m.fills[i].quantity
      && (m.fills[i].makerLeaves == 0 <==> s[i].uid !in Uids(m.rest))
  {
    hide Match, Traded, Distinct, After, Uids;
    TakerLeaves(side, s, price, quantity, i);
    SweepShape(side, s, price, quantity);
    MakerLeaves(s, Match(side, s, price, quantity).fills, i);
  }

  // ---------------------------------------------------------------------------
  // The orders that a sweep uses up
  // ---------------------------------------------------------------------------

  function UsedUp(fills: seq<Fill>): set<UID> {
    set i | 0 <= i < |fills| && fills[i].makerLeaves == 0 :: fills[i].uid
  }

  predicate DistinctFills(fills: seq<Fill>) {
    forall i, j | 0 <= i < j < |fills| :: fills[i].uid != fills[j].uid
  }

  lemma UsedUpNone()
    ensures UsedUp([]) == {}
  {
  }

  lemma UsedUpOne(fills: seq<Fill>)
    requires fills != []
    ensures var n := |fills| - 1;
      UsedUp(fills) == UsedUp(fills[..n]) + if fills[n].makerLeaves == 0 then {fills[n].uid} else {}
  {
  }

  lemma UsedUpMember(fills: seq<Fill>, uid: UID)
    requires forall i | 0 <= i < |fills| :: fills[i].uid != uid
    ensures uid !in UsedUp(fills)
  {
  }

  lemma FollowsDistinct(s: seq<Entry>, fills: seq<Fill>)
    requires Distinct(s) && Follows(s, fills)
    ensures DistinctFills(fills)
    ensures forall i | 0 <= i < |fills| :: fills[i].uid in Uids(s)
  {
  }

  lemma UidsSplit(s: seq<Entry>, d: nat)
    requires Distinct(s) && d <= |s|
    ensures Uids(s[d..]) == Uids(s) - Uids(s[..d])
  {
    assert forall i | 0 <= i < d :: s[..d][i] == s[i];
    assert forall i | d <= i < |s| :: s[d..][i - d] == s[i];
  }

  lemma UidsSame(r: seq<Entry>, s: seq<Entry>)
    requires |r| == |s| && forall i | 0 <= i < |r| :: r[i].uid == s[i].uid
    ensures Uids(r) == Uids(s)
  {
  }

  /** How many orders are used up: all that were hit, except a last one that keeps something. */
  function Gone(fills: seq<Fill>): nat {
    if fills != [] && fills[|fills| - 1].makerLeaves > 0 then |fills| - 1 else |fills|
  }

  lemma UsedUpIsPrefix(s: seq<Entry>, fills: seq<Fill>)
    requires Follows(s, fills)
    ensures UsedUp(fills) == Uids(s[..Gone(fills)])
  {
    var d := Gone(fills);
    assert forall i | 0 <= i < d :: s[..d][i].uid == fills[i].uid && fills[i].makerLeaves == 0;
  }

  lemma PrefixUids(s: seq<Entry>, d: nat)
    requires d <= |s|
    ensures Uids(s[..d]) <= Uids(s)
  {
    assert forall i | 0 <= i < d :: s[..d][i] == s[i];
  }

  /** Exactly the used up orders leave the side. */
  lemma SweptUids(s: seq<Entry>, fills: seq<Fill>)
    requires Distinct(s) && Follows(s, fills)
    ensures Uids(After(s, fills, |fills|)) == Uids(s) - UsedUp(fills)
  {
    hide Distinct, Uids, UsedUp;
    UidsSplit(s, Gone(fills));
    UsedUpIsPrefix(s, fills);
    UidsSame(After(s, fills, |fills|), s[Gone(fills)..]);
  }
}
