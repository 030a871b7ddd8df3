/** `QuantityModal`: a quantity counter that starts at 1, is lowered by
    "-" (never below 1), raised by "+", and handed to `onAdd` and reset to 1
    by "Add to Cart". */
module QuantityModal {

  datatype Button = Minus | Plus

  /** The counter after one press of "-" or "+": "-" goes down by one
      unless that would leave fewer than 1, and then gives 1; "+" goes up
      by one. A counter of at least 1 stays at least 1. */
  function Step(q: int, b: Button): (r: int)
    ensures b == Minus ==> r >= 1 && r >= q - 1 && (r == 1 || r == q - 1)
    ensures b == Plus ==> r == q + 1
    ensures q >= 1 ==> r >= 1
  {
    match b
    case Minus => if 1 > q - 1 then 1 else q - 1
    case Plus => q + 1
  }

  /** The counter after a run of presses. */
  function AfterPresses(q: int, presses: seq<Button>): int
    decreases |presses|
  {
    if presses == [] then q else AfterPresses(Step(q, presses[0]), presses[1..])
  }

  /** From a counter of at least 1 no run of presses goes below 1, and each
      press raises it by at most one. */
  lemma {:induction false} PressesKeepAtLeastOne(q: int, presses: seq<Button>)
    requires q >= 1
    ensures AfterPresses(q, presses) >= 1
    ensures AfterPresses(q, presses) <= q + |presses|
    decreases |presses|
  {
    if presses != [] {
      PressesKeepAtLeastOne(Step(q, presses[0]), presses[1..]);
    }
  }

  /** Only "+" presses raise the counter: a run of "+" alone adds its length. */
  lemma {:induction false} PlusPressesAdd(q: int, n: nat)
    ensures AfterPresses(q, seq(n, _ => Plus)) == q + n
    decreases n
  {
    if n > 0 {
      var s := seq(n, _ => Plus);
      assert s[1..] == seq(n - 1, _ => Plus);
      PlusPressesAdd(q + 1, n - 1);
    }
  }

  class QuantityCounter {
    var quantity: int
    /** The quantities handed to `onAdd` so far. */
    var added: seq<int>

    predicate Valid()
      reads this
    {
      quantity >= 1 && forall i :: 0 <= i < |added| ==> added[i] >= 1
    }

    /** `useState(1)`. */
    constructor ()
      ensures Valid() && quantity == 1 && added == []
    {
      quantity := 1;
      added := [];
    }

    /** `setQuantity(Math.max(1, quantity - 1))`. */
    method PressMinus()
      requires Valid()
      modifies this
      ensures Valid() && quantity == Step(old(quantity), Minus) && added == old(added)
    {
      quantity := if 1 > quantity - 1 then 1 else quantity - 1;
    }

    /** `setQuantity(quantity + 1)`. */
    method PressPlus()
      requires Valid()
      modifies this
      ensures Valid() && quantity == Step(old(quantity), Plus) && added == old(added)
    {
      quantity := quantity + 1;
    }

    /** `handleAdd`: pass the current quantity on, then reset to 1. */
    method Add() returns (q: int)
      requires Valid()
      modifies this
      ensures Valid() && q == old(quantity) && q >= 1
      ensures quantity == 1 && added == old(added) + [q]
    {
      q := quantity;
      added := added + [q];
      quantity := 1;
    }
  }
}
