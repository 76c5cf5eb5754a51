/**
 * The cart state holder: one held sequence of lines that every mutator replaces
 * with the engine's result, and totals that are recomputed from it on each read.
 */
module CartHook {

  import opened CartUtils

  class Cart {

    var items: seq<CartItem>

    /** What every mutator keeps: the lines carry pairwise distinct ids. */
    ghost predicate Valid()
      reads this
    {
      DistinctIds(items)
    }

    /** The cart starts empty. */
    constructor ()
      ensures Valid()
      ensures items == []
    {
      items := [];
    }

    method AddItem(item: FoodItem)
      requires Valid()
      modifies this
      ensures Valid()
      ensures items == AddItemToCart(old(items), item)
      ensures AllPositive(old(items)) ==> AllPositive(items)
    {
      AddPreservesDistinct(items, item);
      if AllPositive(items) {
        AddPreservesPositive(items, item);
      }
      items := AddItemToCart(items, item);
    }

    method RemoveItem(itemId: string)
      requires Valid()
      modifies this
      ensures Valid()
      ensures items == RemoveItemFromCart(old(items), itemId)
      ensures AllPositive(old(items)) ==> AllPositive(items)
    {
      RemovePreservesDistinct(items, itemId);
      if AllPositive(items) {
        RemovePreservesPositive(items, itemId);
      }
      items := RemoveItemFromCart(items, itemId);
    }

    method UpdateQuantity(itemId: string, quantity: int)
      requires Valid()
      modifies this
      ensures Valid()
      ensures items == UpdateItemQuantity(old(items), itemId, quantity)
      ensures AllPositive(old(items)) && quantity >= 0 ==> AllPositive(items)
    {
      UpdatePreservesDistinct(items, itemId, quantity);
      if AllPositive(items) && quantity >= 0 {
        UpdatePreservesPositive(items, itemId, quantity);
      }
      items := UpdateItemQuantity(items, itemId, quantity);
    }

    /** After clearing, every derived amount is that of the empty cart: only the fee is charged. */
    method ClearCart()
      requires Valid()
      modifies this
      ensures Valid()
      ensures items == []
      ensures Subtotal() == 0.0 && TotalItems() == 0 && DeliveryFee() == 2.99
      ensures Tax() == 0.0 && Total() == 2.99
    {
      items := [];
    }

    // Derived values, recomputed from the current lines on every read.

    function Subtotal(): real
      reads this
    {
      CalculateSubtotal(items)
    }

    function TotalItems(): int
      reads this
    {
      CalculateTotalItems(items)
    }

    /** The fee is 2.99 below a subtotal of 25 and 0 from 25 on. */
    function DeliveryFee(): (fee: real)
      reads this
      ensures fee == (if Subtotal() >= 25.0 then 0.0 else 2.99)
    {
      CalculateDeliveryFee(Subtotal())
    }

    /** Tax is 8% of the subtotal alone. */
    function Tax(): (tax: real)
      reads this
      ensures tax == Subtotal() * 0.08
    {
      CalculateTax(Subtotal())
    }

    /** The total is the taxed subtotal plus the untaxed fee. */
    function Total(): (total: real)
      reads this
      ensures total == Subtotal() * 1.08 + DeliveryFee()
      ensures total == Subtotal() + DeliveryFee() + Tax()
    {
      CalculateTotal(Subtotal(), DeliveryFee(), Tax())
    }
  }

  /** One call of a mutator, for reasoning about sequences of calls. */
  datatype CartOp = Add(item: FoodItem) | Remove(itemId: string) | Update(itemId: string, quantity: int) | Clear

  /** The lines after one mutator call, as the holder's methods compute them. */
  function Apply(items: seq<CartItem>, op: CartOp): seq<CartItem>
  {
    match op
    case Add(item) => AddItemToCart(items, item)
    case Remove(itemId) => RemoveItemFromCart(items, itemId)
    case Update(itemId, quantity) => UpdateItemQuantity(items, itemId, quantity)
    case Clear => []
  }

  /** The lines a cart holds after `ops`, applied in order to `items`. */
  function Replay(items: seq<CartItem>, ops: seq<CartOp>): seq<CartItem>
    decreases |ops|
  {
    if ops == [] then items else Replay(Apply(items, ops[0]), ops[1..])
  }

  predicate NoNegativeQuantity(ops: seq<CartOp>)
  {
    forall k :: 0 <= k < |ops| && ops[k].Update? ==> ops[k].quantity >= 0
  }

  /** One mutator call keeps the ids distinct, and keeps quantities positive unless it passes a negative quantity. */
  lemma ApplyPreservesInvariants(items: seq<CartItem>, op: CartOp)
    requires DistinctIds(items)
    ensures DistinctIds(Apply(items, op))
    ensures AllPositive(items) && (op.Update? ==> op.quantity >= 0) ==> AllPositive(Apply(items, op))
  {
    match op {
      case Add(item) =>
        AddPreservesDistinct(items, item);
        if AllPositive(items) {
          AddPreservesPositive(items, item);
        }
      case Remove(itemId) =>
        RemovePreservesDistinct(items, itemId);
        if AllPositive(items) {
          RemovePreservesPositive(items, itemId);
        }
      case Update(itemId, quantity) =>
        UpdatePreservesDistinct(items, itemId, quantity);
        if AllPositive(items) && quantity >= 0 {
          UpdatePreservesPositive(items, itemId, quantity);
        }
      case Clear =>
    }
  }

  lemma {:induction false} ReplayPreservesInvariants(items: seq<CartItem>, ops: seq<CartOp>)
    requires DistinctIds(items)
    decreases |ops|
    ensures DistinctIds(Replay(items, ops))
    ensures AllPositive(items) && NoNegativeQuantity(ops) ==> AllPositive(Replay(items, ops))
  {
    if ops != [] {
      ApplyPreservesInvariants(items, ops[0]);
      assert NoNegativeQuantity(ops) ==> NoNegativeQuantity(ops[1..]) by {
        assert forall k :: 0 <= k < |ops| - 1 ==> ops[1..][k] == ops[k + 1];
      }
      ReplayPreservesInvariants(Apply(items, ops[0]), ops[1..]);
    }
  }

  /**
   * Starting from the empty cart, every reachable cart has distinct ids, and
   * without negative quantities every line holds at least one unit.
   */
  lemma ReachableCartsAreWellFormed(ops: seq<CartOp>)
    ensures DistinctIds(Replay([], ops))
    ensures NoNegativeQuantity(ops) ==> AllPositive(Replay([], ops))
  {
    ReplayPreservesInvariants([], ops);
  }
}
