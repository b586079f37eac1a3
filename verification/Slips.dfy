/**
  Shared counters that callers raise one by one. Each caller that has raised a counter holds a slip:
  its place in the order of increments, and the total it was handed. What a caller was handed covers
  every caller still counted that came before it, and so bounds what may be kept.
*/
module Slips {
  import opened Common
  import opened Sums

  datatype Slip = Slip(order: nat, total: int)

  /** Who is counted, as a summand. */
  function Holding<T>(slipOf: T -> Option<Slip>): T -> int {
    (t: T) => if slipOf(t).Some? then 1 else 0
  }

  /** Who was counted no later than place `order`, and still is. */
  function UpTo<T>(slipOf: T -> Option<Slip>, order: int): T -> int {
    (t: T) => if slipOf(t).Some? && slipOf(t).value.order <= order then 1 else 0
  }

  ghost predicate SlipOk<T>(holders: seq<T>, slipOf: T -> Option<Slip>, orders: nat, slip: Slip) {
    slip.order < orders && Sum(holders, UpTo(slipOf, slip.order)) <= slip.total
  }

  /** Every slip covers the holders up to its own place; `orders` increments have been made. */
  ghost predicate InOrder<T>(holders: seq<T>, slipOf: T -> Option<Slip>, orders: nat) {
    forall i :: 0 <= i < |holders| && slipOf(holders[i]).Some? ==> SlipOk(holders, slipOf, orders, slipOf(holders[i]).value)
  }

  /** A holder that keeps its slip or gives it up leaves the others covered. */
  lemma GiveUpKeepsOrder<T>(holders: seq<T>, slipOf: T -> Option<Slip>, orders: nat, i: nat, t: T, later: nat)
    requires InOrder(holders, slipOf, orders) && i < |holders| && orders <= later
    requires slipOf(t) == slipOf(holders[i]) || slipOf(t) == None
    ensures InOrder(holders[i := t], slipOf, later)
  {
    var after := holders[i := t];
    forall j | 0 <= j < |after| && slipOf(after[j]).Some?
      ensures SlipOk(after, slipOf, later, slipOf(after[j]).value)
    {
      var slip := slipOf(holders[j]).value;
      assert SlipOk(holders, slipOf, orders, slip);
      SumUpdate(holders, i, t, UpTo(slipOf, slip.order));
    }
  }

  /** The next increment: its total covers everybody counted so far and itself. */
  lemma {:induction false} CountKeepsOrder<T>(holders: seq<T>, slipOf: T -> Option<Slip>, orders: nat, i: nat, t: T, total: int)
    requires InOrder(holders, slipOf, orders) && i < |holders|
    requires slipOf(holders[i]) == None && slipOf(t) == Some(Slip(orders, total))
    requires Sum(holders, Holding(slipOf)) + 1 <= total
    ensures InOrder(holders[i := t], slipOf, orders + 1)
  {
    var after := holders[i := t];
    forall j | 0 <= j < |after| && slipOf(after[j]).Some?
      ensures SlipOk(after, slipOf, orders + 1, slipOf(after[j]).value)
    {
      if j == i {
        SumUpdate(holders, i, t, UpTo(slipOf, orders));
        SumMonotone(holders, UpTo(slipOf, orders), Holding(slipOf));
      } else {
        var slip := slipOf(holders[j]).value;
        assert SlipOk(holders, slipOf, orders, slip);
        SumUpdate(holders, i, t, UpTo(slipOf, slip.order));
      }
    }
  }

  lemma JoinKeepsOrder<T>(holders: seq<T>, slipOf: T -> Option<Slip>, orders: nat, t: T)
    requires InOrder(holders, slipOf, orders) && slipOf(t) == None
    ensures InOrder(holders + [t], slipOf, orders)
  {
    var after := holders + [t];
    forall j | 0 <= j < |after| && slipOf(after[j]).Some?
      ensures SlipOk(after, slipOf, orders, slipOf(after[j]).value)
    {
      var slip := slipOf(holders[j]).value;
      assert SlipOk(holders, slipOf, orders, slip);
      SumAppend(holders, t, UpTo(slipOf, slip.order));
    }
  }

  /** Who of `kept` was counted no later than place `order`. */
  function KeptUpTo<T>(kept: T -> int, slipOf: T -> Option<Slip>, order: int): T -> int {
    (t: T) => if slipOf(t).Some? && slipOf(t).value.order <= order then kept(t) else 0
  }

  lemma {:induction false} KeptUpToWithin<T>(holders: seq<T>, slipOf: T -> Option<Slip>, orders: nat, kept: T -> int, cap: int, order: int)
    requires InOrder(holders, slipOf, orders) && 0 <= cap && -1 <= order
    requires forall i :: 0 <= i < |holders| ==> 0 <= kept(holders[i]) <= 1
    requires forall i :: 0 <= i < |holders| && kept(holders[i]) == 1 ==> slipOf(holders[i]).Some? && slipOf(holders[i]).value.total <= cap
    ensures Sum(holders, KeptUpTo(kept, slipOf, order)) <= cap
    decreases order + 1
  {
    if order == -1 {
      SumZero(holders, KeptUpTo(kept, slipOf, order));
    } else if i :| 0 <= i < |holders| && kept(holders[i]) == 1 && slipOf(holders[i]).value.order == order {
      assert SlipOk(holders, slipOf, orders, slipOf(holders[i]).value);
      SumMonotone(holders, KeptUpTo(kept, slipOf, order), UpTo(slipOf, order));
    } else {
      KeptUpToWithin(holders, slipOf, orders, kept, cap, order - 1);
      SumMonotone(holders, KeptUpTo(kept, slipOf, order), KeptUpTo(kept, slipOf, order - 1));
    }
  }

  /** If nobody keeps a slip whose total was over `cap`, no more than `cap` keep one. */
  lemma {:induction false} KeptWithin<T>(holders: seq<T>, slipOf: T -> Option<Slip>, orders: nat, kept: T -> int, cap: int)
    requires InOrder(holders, slipOf, orders) && 0 <= cap
    requires forall i :: 0 <= i < |holders| ==> 0 <= kept(holders[i]) <= 1
    requires forall i :: 0 <= i < |holders| && kept(holders[i]) == 1 ==> slipOf(holders[i]).Some? && slipOf(holders[i]).value.total <= cap
    ensures Sum(holders, kept) <= cap
  {
    KeptUpToWithin(holders, slipOf, orders, kept, cap, orders);
    assert forall i :: 0 <= i < |holders| && slipOf(holders[i]).Some? ==> SlipOk(holders, slipOf, orders, slipOf(holders[i]).value);
    SumMonotone(holders, kept, KeptUpTo(kept, slipOf, orders));
  }
}
