/**
 * The pricing and cart engine: pure operations over an ordered sequence of cart
 * lines, and the derived money amounts. Every operation returns a new sequence
 * and never changes its argument. Money is an exact `real`.
 */
module CartUtils {

  /** A catalog entry. Only the fields that the engine or the search reads are kept. */
  datatype FoodItem = FoodItem(id: string, name: string, description: string, price: real)

  /** A cart line: the catalog entry it was created from, and how many of it. */
  datatype CartItem = CartItem(item: FoodItem, quantity: int)

  const DELIVERY_FEE: real := 2.99
  const TAX_RATE: real := 0.08
  const FREE_DELIVERY_THRESHOLD: real := 25.0

  // ---------------------------------------------------------------------------
  // Views of a cart used by the contracts

  /** The line ids, in cart order. */
  function Ids(items: seq<CartItem>): (ids: seq<string>)
    ensures |ids| == |items|
    ensures forall i :: 0 <= i < |items| ==> ids[i] == items[i].item.id
  {
    seq(|items|, i requires 0 <= i < |items| => items[i].item.id)
  }

  /** No two lines share an id. */
  predicate DistinctIds(items: seq<CartItem>)
  {
    forall i, j :: 0 <= i < j < |items| ==> items[i].item.id != items[j].item.id
  }

  /** Every line holds at least one unit. */
  predicate AllPositive(items: seq<CartItem>)
  {
    forall i :: 0 <= i < |items| ==> items[i].quantity >= 1
  }

  /** The number of lines whose id is `id`. */
  function Count(items: seq<CartItem>, id: string): (n: nat)
    ensures n <= |items|
  {
    if items == [] then 0
    else Count(items[..|items| - 1], id) + (if items[|items| - 1].item.id == id then 1 else 0)
  }

  // ---------------------------------------------------------------------------
  // The operations

  /** Each line with id `id` gets one more unit; the other lines stay as they are. */
  function IncrementMatching(items: seq<CartItem>, id: string): (r: seq<CartItem>)
    ensures |r| == |items|
    ensures Ids(r) == Ids(items)
  {
    seq(|items|, i requires 0 <= i < |items| =>
      if items[i].item.id == id then items[i].(quantity := items[i].quantity + 1) else items[i])
  }

  /**
   * Adding an item: an id already in the cart gets one more unit on its line,
   * and otherwise a line with one unit is appended at the end.
   */
  function AddItemToCart(items: seq<CartItem>, newItem: FoodItem): (r: seq<CartItem>)
    ensures newItem.id in Ids(items) ==> Ids(r) == Ids(items)
    ensures newItem.id !in Ids(items) ==> Ids(r) == Ids(items) + [newItem.id]
    ensures newItem.id !in Ids(items) ==> r[..|items|] == items && r[|items|] == CartItem(newItem, 1)
    ensures forall i :: 0 <= i < |items| ==>
      r[i].item == items[i].item &&
      r[i].quantity == items[i].quantity + (if items[i].item.id == newItem.id then 1 else 0)
  {
    if newItem.id in Ids(items) then IncrementMatching(items, newItem.id)
    else items + [CartItem(newItem, 1)]
  }

  /** Removing an id keeps, in order, exactly the lines with another id. */
  function RemoveItemFromCart(items: seq<CartItem>, itemId: string): (r: seq<CartItem>)
    ensures itemId !in Ids(r)
    ensures forall line :: line in r <==> line in items && line.item.id != itemId
    ensures |r| == |items| - Count(items, itemId)
  {
    if items == [] then []
    else
      var rest := RemoveItemFromCart(items[1..], itemId);
      assert items == [items[0]] + items[1..];
      CountHeadTail(items, itemId);
      if items[0].item.id == itemId then rest else [items[0]] + rest
  }

  /** Each line with id `id` gets exactly `quantity` units; the other lines stay as they are. */
  function SetQuantityMatching(items: seq<CartItem>, id: string, quantity: int): (r: seq<CartItem>)
    ensures |r| == |items|
    ensures Ids(r) == Ids(items)
  {
    seq(|items|, i requires 0 <= i < |items| =>
      if items[i].item.id == id then items[i].(quantity := quantity) else items[i])
  }

  /**
   * Setting a quantity: exactly 0 removes the line; any other value, negative
   * ones included, replaces the quantity of the matching lines.
   */
  function UpdateItemQuantity(items: seq<CartItem>, itemId: string, quantity: int): (r: seq<CartItem>)
    ensures quantity == 0 ==> r == RemoveItemFromCart(items, itemId)
    ensures quantity != 0 ==> Ids(r) == Ids(items)
    ensures quantity != 0 ==> forall i :: 0 <= i < |items| ==>
      r[i].item == items[i].item &&
      r[i].quantity == (if items[i].item.id == itemId then quantity else items[i].quantity)
  {
    if quantity == 0 then RemoveItemFromCart(items, itemId)
    else SetQuantityMatching(items, itemId, quantity)
  }

  /** What one line costs: its unit price times its quantity. */
  function LineTotal(line: CartItem): real
  {
    line.item.price * line.quantity as real
  }

  /** The sum of the line totals, accumulated from the first line on. */
  function CalculateSubtotal(items: seq<CartItem>): real
  {
    if items == [] then 0.0
    else CalculateSubtotal(items[..|items| - 1]) + LineTotal(items[|items| - 1])
  }

  /** The sum of the quantities, accumulated from the first line on. */
  function CalculateTotalItems(items: seq<CartItem>): int
  {
    if items == [] then 0
    else CalculateTotalItems(items[..|items| - 1]) + items[|items| - 1].quantity
  }

  /** The flat fee is waived from the threshold on (the threshold itself included). */
  function CalculateDeliveryFee(subtotal: real): (fee: real)
    ensures fee == 0.0 <==> subtotal >= FREE_DELIVERY_THRESHOLD
    ensures fee != 0.0 ==> fee == DELIVERY_FEE
  {
    if subtotal >= FREE_DELIVERY_THRESHOLD then 0.0 else DELIVERY_FEE
  }

  /** Cart-level tax is charged on the subtotal alone. */
  function CalculateTax(subtotal: real): real
  {
    subtotal * TAX_RATE
  }

  function CalculateTotal(subtotal: real, deliveryFee: real, tax: real): real
  {
    subtotal + deliveryFee + tax
  }

  // ---------------------------------------------------------------------------
  // Helper facts about the views

  lemma {:induction false} CountHeadTail(items: seq<CartItem>, id: string)
    requires items != []
    ensures Count(items, id) == (if items[0].item.id == id then 1 else 0) + Count(items[1..], id)
  {
    var n := |items|;
    if n > 1 {
      assert items[1..][..n - 2] == items[..n - 1][1..];
      CountHeadTail(items[..n - 1], id);
      assert items[1..][n - 2] == items[n - 1];
    } else {
      assert items[..n - 1] == [];
      assert items[1..] == [];
    }
  }

  lemma {:induction false} CountAbsent(items: seq<CartItem>, id: string)
    requires id !in Ids(items)
    ensures Count(items, id) == 0
  {
    if items != [] {
      var n := |items|;
      assert Ids(items[..n - 1]) == Ids(items)[..n - 1];
      CountAbsent(items[..n - 1], id);
      assert Ids(items)[n - 1] == items[n - 1].item.id;
    }
  }

  /** In a cart with distinct ids, an id that is present is on exactly one line. */
  lemma {:induction false} CountDistinctPresent(items: seq<CartItem>, id: string)
    requires DistinctIds(items)
    requires id in Ids(items)
    ensures Count(items, id) == 1
  {
    var n := |items|;
    var prefix := items[..n - 1];
    assert Ids(prefix) == Ids(items)[..n - 1];
    if items[n - 1].item.id == id {
      assert id !in Ids(prefix);
      CountAbsent(prefix, id);
    } else {
      assert Ids(items) == Ids(prefix) + [items[n - 1].item.id];
      CountDistinctPresent(prefix, id);
    }
  }

  lemma DistinctSnoc(items: seq<CartItem>, line: CartItem)
    ensures DistinctIds(items + [line]) <==> DistinctIds(items) && line.item.id !in Ids(items)
  {
    var s := items + [line];
    assert forall i :: 0 <= i < |items| ==> s[i] == items[i];
    assert s[|items|] == line;
  }

  lemma DistinctCons(line: CartItem, items: seq<CartItem>)
    ensures DistinctIds([line] + items) <==> DistinctIds(items) && line.item.id !in Ids(items)
  {
    var s := [line] + items;
    assert forall i :: 0 <= i < |items| ==> s[i + 1] == items[i];
    if DistinctIds(s) {
      forall i, j | 0 <= i < j < |items| ensures items[i].item.id != items[j].item.id {
        assert s[i + 1].item.id != s[j + 1].item.id;
      }
      forall k | 0 <= k < |items| ensures Ids(items)[k] != line.item.id {
        assert s[0].item.id != s[k + 1].item.id;
      }
    }
    if DistinctIds(items) && line.item.id !in Ids(items) {
      forall i, j | 0 <= i < j < |s| ensures s[i].item.id != s[j].item.id {
        if i == 0 {
          assert Ids(items)[j - 1] == s[j].item.id;
        } else {
          assert s[i] == items[i - 1] && s[j] == items[j - 1];
        }
      }
    }
  }

  // ---------------------------------------------------------------------------
  // Properties of adding

  /** Adding to a cart with distinct ids keeps the ids distinct. */
  lemma AddPreservesDistinct(items: seq<CartItem>, newItem: FoodItem)
    requires DistinctIds(items)
    ensures DistinctIds(AddItemToCart(items, newItem))
  {
    var r := AddItemToCart(items, newItem);
    if newItem.id in Ids(items) {
      assert forall i :: 0 <= i < |r| ==> r[i].item.id == Ids(r)[i] == Ids(items)[i] == items[i].item.id;
    } else {
      DistinctSnoc(items, CartItem(newItem, 1));
    }
  }

  /** Adding never makes a quantity smaller, so positive quantities stay positive. */
  lemma AddPreservesPositive(items: seq<CartItem>, newItem: FoodItem)
    requires AllPositive(items)
    ensures AllPositive(AddItemToCart(items, newItem))
  {
  }

  /** Incrementing the matching lines adds their number to the unit count. */
  lemma {:induction false} TotalItemsIncrement(items: seq<CartItem>, id: string)
    ensures CalculateTotalItems(IncrementMatching(items, id)) == CalculateTotalItems(items) + Count(items, id)
  {
    if items != [] {
      var n := |items|;
      var r := IncrementMatching(items, id);
      assert r[..n - 1] == IncrementMatching(items[..n - 1], id);
      TotalItemsIncrement(items[..n - 1], id);
    }
  }

  /** Whatever the cart holds, adding an item adds as many units as lines it touches. */
  lemma TotalItemsAddGeneral(items: seq<CartItem>, newItem: FoodItem)
    ensures CalculateTotalItems(AddItemToCart(items, newItem)) ==
      CalculateTotalItems(items) + (if newItem.id in Ids(items) then Count(items, newItem.id) else 1)
  {
    if newItem.id in Ids(items) {
      TotalItemsIncrement(items, newItem.id);
    } else {
      var r := AddItemToCart(items, newItem);
      assert r[..|r| - 1] == items;
    }
  }

  /** In a cart with distinct ids, adding an item adds exactly one unit. */
  lemma TotalItemsAdd(items: seq<CartItem>, newItem: FoodItem)
    requires DistinctIds(items)
    ensures CalculateTotalItems(AddItemToCart(items, newItem)) == CalculateTotalItems(items) + 1
  {
    TotalItemsAddGeneral(items, newItem);
    if newItem.id in Ids(items) {
      CountDistinctPresent(items, newItem.id);
    }
  }

  /** The sum of the unit prices of the lines whose id is `id`. */
  function MatchingPrices(items: seq<CartItem>, id: string): real
  {
    if items == [] then 0.0
    else MatchingPrices(items[..|items| - 1], id) + (if items[|items| - 1].item.id == id then items[|items| - 1].item.price else 0.0)
  }

  lemma LineIncrement(line: CartItem)
    ensures LineTotal(line.(quantity := line.quantity + 1)) == LineTotal(line) + line.item.price
  {
    var p, q := line.item.price, line.quantity as real;
    assert (line.quantity + 1) as real == q + 1.0;
    assert p * (q + 1.0) == p * q + p;
  }

  /** Incrementing the matching lines adds one unit price per line touched. */
  lemma {:induction false} SubtotalIncrement(items: seq<CartItem>, id: string)
    ensures CalculateSubtotal(IncrementMatching(items, id)) == CalculateSubtotal(items) + MatchingPrices(items, id)
  {
    if items == [] {
      assert IncrementMatching(items, id) == [];
    } else {
      var n := |items|;
      var r := IncrementMatching(items, id);
      var prefix := items[..n - 1];
      assert r[..n - 1] == IncrementMatching(prefix, id);
      SubtotalIncrement(prefix, id);
      var last := items[n - 1];
      if last.item.id == id {
        assert r[n - 1] == last.(quantity := last.quantity + 1);
        LineIncrement(last);
      } else {
        assert r[n - 1] == last;
      }
    }
  }

  lemma {:induction false} MatchingPricesAbsent(items: seq<CartItem>, id: string)
    requires id !in Ids(items)
    ensures MatchingPrices(items, id) == 0.0
  {
    if items != [] {
      var n := |items|;
      assert Ids(items[..n - 1]) == Ids(items)[..n - 1];
      MatchingPricesAbsent(items[..n - 1], id);
      assert Ids(items)[n - 1] == items[n - 1].item.id;
    }
  }

  /** In a cart with distinct ids, the one line with id `id` contributes its price. */
  lemma {:induction false} MatchingPricesDistinct(items: seq<CartItem>, id: string, price: real)
    requires DistinctIds(items)
    requires id in Ids(items)
    requires forall i :: 0 <= i < |items| && items[i].item.id == id ==> items[i].item.price == price
    ensures MatchingPrices(items, id) == price
  {
    var n := |items|;
    var prefix := items[..n - 1];
    assert Ids(prefix) == Ids(items)[..n - 1];
    if items[n - 1].item.id == id {
      assert id !in Ids(prefix);
      MatchingPricesAbsent(prefix, id);
    } else {
      assert Ids(items) == Ids(prefix) + [items[n - 1].item.id];
      MatchingPricesDistinct(prefix, id, price);
    }
  }

  /**
   * In a cart with distinct ids, adding an item whose existing line (if any)
   * has the item's price raises the subtotal by exactly that price.
   */
  lemma SubtotalAdd(items: seq<CartItem>, newItem: FoodItem)
    requires DistinctIds(items)
    requires forall i :: 0 <= i < |items| && items[i].item.id == newItem.id ==> items[i].item.price == newItem.price
    ensures CalculateSubtotal(AddItemToCart(items, newItem)) == CalculateSubtotal(items) + newItem.price
  {
    if newItem.id in Ids(items) {
      SubtotalIncrement(items, newItem.id);
      MatchingPricesDistinct(items, newItem.id, newItem.price);
    } else {
      var r := AddItemToCart(items, newItem);
      assert r[..|r| - 1] == items;
      assert LineTotal(r[|r| - 1]) == newItem.price * 1.0;
    }
  }

  // ---------------------------------------------------------------------------
  // Properties of removing

  /** Removal distributes over concatenation, so the kept lines keep their order. */
  lemma {:induction false} RemoveConcat(a: seq<CartItem>, b: seq<CartItem>, itemId: string)
    ensures RemoveItemFromCart(a + b, itemId) == RemoveItemFromCart(a, itemId) + RemoveItemFromCart(b, itemId)
  {
    if a == [] {
      assert a + b == b;
    } else {
      assert (a + b)[1..] == a[1..] + b;
      RemoveConcat(a[1..], b, itemId);
    }
  }

  /** Removing an id that is not in the cart returns the cart itself. */
  lemma {:induction false} RemoveAbsent(items: seq<CartItem>, itemId: string)
    requires itemId !in Ids(items)
    ensures RemoveItemFromCart(items, itemId) == items
  {
    if items != [] {
      assert Ids(items[1..]) == Ids(items)[1..];
      RemoveAbsent(items[1..], itemId);
      assert items == [items[0]] + items[1..];
    }
  }

  /** Removing twice is the same as removing once. */
  lemma RemoveIdempotent(items: seq<CartItem>, itemId: string)
    ensures RemoveItemFromCart(RemoveItemFromCart(items, itemId), itemId) == RemoveItemFromCart(items, itemId)
  {
    RemoveAbsent(RemoveItemFromCart(items, itemId), itemId);
  }

  /** A line of the cart contributes its id. */
  lemma LineIdInIds(line: CartItem, items: seq<CartItem>)
    requires line in items
    ensures line.item.id in Ids(items)
  {
    var j :| 0 <= j < |items| && items[j] == line;
    assert Ids(items)[j] == line.item.id;
  }

  /** The ids left after removal are ids of the original cart. */
  lemma RemoveIdsSubset(items: seq<CartItem>, itemId: string, id: string)
    requires id !in Ids(items)
    ensures id !in Ids(RemoveItemFromCart(items, itemId))
  {
    var r := RemoveItemFromCart(items, itemId);
    forall k | 0 <= k < |r| ensures Ids(r)[k] != id {
      LineIdInIds(r[k], items);
    }
  }

  /** Removal keeps distinct ids distinct. */
  lemma {:induction false} RemovePreservesDistinct(items: seq<CartItem>, itemId: string)
    requires DistinctIds(items)
    ensures DistinctIds(RemoveItemFromCart(items, itemId))
  {
    if items != [] {
      var tail := items[1..];
      var rest := RemoveItemFromCart(tail, itemId);
      assert items == [items[0]] + tail;
      DistinctCons(items[0], tail);
      RemovePreservesDistinct(tail, itemId);
      if items[0].item.id != itemId {
        RemoveIdsSubset(tail, itemId, items[0].item.id);
        DistinctCons(items[0], rest);
      }
    }
  }

  /** Removal keeps positive quantities positive. */
  lemma RemovePreservesPositive(items: seq<CartItem>, itemId: string)
    requires AllPositive(items)
    ensures AllPositive(RemoveItemFromCart(items, itemId))
  {
    var r := RemoveItemFromCart(items, itemId);
    forall i | 0 <= i < |r| ensures r[i].quantity >= 1 {
      assert r[i] in items;
    }
  }

  // ---------------------------------------------------------------------------
  // Properties of setting a quantity

  /** Setting the quantity of an id that is not in the cart returns the cart itself. */
  lemma UpdateAbsent(items: seq<CartItem>, itemId: string, quantity: int)
    requires itemId !in Ids(items)
    ensures UpdateItemQuantity(items, itemId, quantity) == items
  {
    if quantity == 0 {
      RemoveAbsent(items, itemId);
    } else {
      var r := UpdateItemQuantity(items, itemId, quantity);
      assert forall i :: 0 <= i < |items| ==> items[i].item.id == Ids(items)[i];
      assert forall i :: 0 <= i < |items| ==> r[i] == items[i];
    }
  }

  /** Setting a quantity keeps distinct ids distinct. */
  lemma UpdatePreservesDistinct(items: seq<CartItem>, itemId: string, quantity: int)
    requires DistinctIds(items)
    ensures DistinctIds(UpdateItemQuantity(items, itemId, quantity))
  {
    if quantity == 0 {
      RemovePreservesDistinct(items, itemId);
    } else {
      var r := UpdateItemQuantity(items, itemId, quantity);
      assert forall i :: 0 <= i < |r| ==> r[i].item.id == items[i].item.id;
    }
  }

  /** Setting a quantity of at least 0 keeps positive quantities positive (0 removes the line). */
  lemma UpdatePreservesPositive(items: seq<CartItem>, itemId: string, quantity: int)
    requires AllPositive(items)
    requires quantity >= 0
    ensures AllPositive(UpdateItemQuantity(items, itemId, quantity))
  {
    if quantity == 0 {
      RemovePreservesPositive(items, itemId);
    }
  }

  /** A negative quantity is stored as given: it does not remove the line. */
  lemma UpdateNegativeIsStored(items: seq<CartItem>, itemId: string, quantity: int)
    requires quantity < 0
    requires itemId in Ids(items)
    ensures itemId in Ids(UpdateItemQuantity(items, itemId, quantity))
    ensures exists i :: 0 <= i < |items| && UpdateItemQuantity(items, itemId, quantity)[i].quantity == quantity
  {
    var k :| 0 <= k < |items| && Ids(items)[k] == itemId;
    assert UpdateItemQuantity(items, itemId, quantity)[k].quantity == quantity;
  }

  // ---------------------------------------------------------------------------
  // Properties of the money amounts

  /** The subtotal of two carts side by side is the sum of their subtotals. */
  lemma {:induction false} SubtotalConcat(a: seq<CartItem>, b: seq<CartItem>)
    ensures CalculateSubtotal(a + b) == CalculateSubtotal(a) + CalculateSubtotal(b)
  {
    if b == [] {
      assert a + b == a;
    } else {
      var n := |b|;
      assert (a + b)[..|a + b| - 1] == a + b[..n - 1];
      SubtotalConcat(a, b[..n - 1]);
    }
  }

  /** The unit count of two carts side by side is the sum of their unit counts. */
  lemma {:induction false} TotalItemsConcat(a: seq<CartItem>, b: seq<CartItem>)
    ensures CalculateTotalItems(a + b) == CalculateTotalItems(a) + CalculateTotalItems(b)
  {
    if b == [] {
      assert a + b == a;
    } else {
      var n := |b|;
      assert (a + b)[..|a + b| - 1] == a + b[..n - 1];
      TotalItemsConcat(a, b[..n - 1]);
    }
  }

  /** The fee switches from 2.99 to 0 exactly at 25. */
  lemma DeliveryFeeBoundary()
    ensures CalculateDeliveryFee(24.99) == 2.99
    ensures CalculateDeliveryFee(25.0) == 0.0
    ensures CalculateDeliveryFee(25.01) == 0.0
    ensures CalculateDeliveryFee(20.0) == 2.99 && CalculateDeliveryFee(30.0) == 0.0
  {
  }

  /** The cart total is 1.08 times the subtotal plus the fee (which is untaxed). */
  lemma CartTotalFormula(subtotal: real)
    ensures CalculateTotal(subtotal, CalculateDeliveryFee(subtotal), CalculateTax(subtotal)) ==
      subtotal * 1.08 + (if subtotal >= 25.0 then 0.0 else 2.99)
  {
  }

  /** A cart of non-negative prices and quantities has a non-negative subtotal. */
  lemma {:induction false} SubtotalNonNegative(items: seq<CartItem>)
    requires forall i :: 0 <= i < |items| ==> items[i].item.price >= 0.0 && items[i].quantity >= 0
    ensures CalculateSubtotal(items) >= 0.0
  {
    if items != [] {
      SubtotalNonNegative(items[..|items| - 1]);
    }
  }

  /** A non-empty cart of positive prices and positive quantities has a positive subtotal. */
  lemma {:induction false} SubtotalPositive(items: seq<CartItem>)
    requires items != []
    requires forall i :: 0 <= i < |items| ==> items[i].item.price > 0.0 && items[i].quantity >= 1
    ensures CalculateSubtotal(items) > 0.0
  {
    var n := |items|;
    SubtotalNonNegative(items[..n - 1]);
    assert items[n - 1].item.price * items[n - 1].quantity as real >= items[n - 1].item.price;
  }

  /** Adding to an empty cart makes one line of one unit, so the subtotal is the item's price. */
  lemma FirstAddSubtotal(item: FoodItem)
    ensures var cart := AddItemToCart([], item);
      cart == [CartItem(item, 1)] && CalculateSubtotal(cart) == item.price && CalculateTotalItems(cart) == 1
  {
    var one := [CartItem(item, 1)];
    assert one[..0] == [];
    assert LineTotal(one[0]) == item.price;
  }

  /** Adding a 18.99 item to an empty cart twice: 1 unit and 18.99, then 2 units and 37.98. */
  lemma AddTwiceScenario(pizza: FoodItem)
    requires pizza.price == 18.99
    ensures var once := AddItemToCart([], pizza);
      CalculateSubtotal(once) == 18.99 && CalculateTotalItems(once) == 1 &&
      var twice := AddItemToCart(once, pizza);
      |twice| == 1 && twice[0].quantity == 2 && CalculateSubtotal(twice) == 37.98
  {
    var once := AddItemToCart([], pizza);
    assert once == [CartItem(pizza, 1)];
    assert pizza.id in Ids(once);
    var twice := AddItemToCart(once, pizza);
    assert twice == [CartItem(pizza, 2)];
    assert twice[..0] == [];
  }
}
