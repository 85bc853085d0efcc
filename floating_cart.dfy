/**
 * The two aggregates of the floating cart summary
 * (src/components/FloatingCart/index.tsx): the price total and the item
 * count, each a left fold over the product list, with what they do under the
 * cart operations.
 */
module FloatingCart {
  import opened Wrappers
  import opened Cart

  /** What one entry adds to the total: unit price times quantity. */
  function LineTotal(p: Product): int { p.price * p.quantity }

  /** Reference definition: the sum of `price * quantity` over all entries. */
  function SumTotal(s: seq<Product>): int
  {
    if s == [] then 0 else LineTotal(s[0]) + SumTotal(s[1..])
  }

  /** Reference definition: the sum of all quantities. */
  function SumCount(s: seq<Product>): int
  {
    if s == [] then 0 else s[0].quantity + SumCount(s[1..])
  }

  // ---------------------------------------------------------------------
  // The two reducers
  // ---------------------------------------------------------------------

  /** `reduce((total, item) => total + item.price * item.quantity, acc)`. */
  function ReduceTotal(acc: int, s: seq<Product>): (r: int)
    ensures r == acc + SumTotal(s)
    decreases s
  {
    if s == [] then acc else ReduceTotal(acc + LineTotal(s[0]), s[1..])
  }

  /** `reduce((count, item) => count + item.quantity, acc)`. */
  function ReduceCount(acc: int, s: seq<Product>): (r: int)
    ensures r == acc + SumCount(s)
    decreases s
  {
    if s == [] then acc else ReduceCount(acc + s[0].quantity, s[1..])
  }

  /** `cartTotal` before currency formatting. */
  function CartTotal(products: seq<Product>): (r: int)
    ensures r == SumTotal(products)
    ensures products == [] ==> r == 0
  {
    ReduceTotal(0, products)
  }

  /** `totalItensInCart`. */
  function TotalItemsInCart(products: seq<Product>): (r: int)
    ensures r == SumCount(products)
    ensures products == [] ==> r == 0
    ensures NonNegative(products) ==> r >= 0
  {
    CountNonNegative(products);
    ReduceCount(0, products)
  }

  // ---------------------------------------------------------------------
  // Properties of the sums
  // ---------------------------------------------------------------------

  lemma {:induction false} CountNonNegative(s: seq<Product>)
    ensures NonNegative(s) ==> SumCount(s) >= 0
  {
    if s != [] {
      assert NonNegative(s) ==> NonNegative(s[1..]) by {
        if NonNegative(s) {
          forall i | 0 <= i < |s[1..]| ensures s[1..][i].quantity >= 0 {
            assert s[1..][i] == s[i + 1];
          }
        }
      }
      CountNonNegative(s[1..]);
    }
  }

  /** With no negative price or quantity the total is not negative either. */
  lemma {:induction false} TotalNonNegative(s: seq<Product>)
    requires forall i :: 0 <= i < |s| ==> s[i].price >= 0 && s[i].quantity >= 0
    ensures SumTotal(s) >= 0
  {
    if s != [] {
      assert forall i :: 0 <= i < |s[1..]| ==> s[1..][i] == s[i + 1];
      TotalNonNegative(s[1..]);
    }
  }

  lemma {:induction false} TotalAppend(a: seq<Product>, b: seq<Product>)
    ensures SumTotal(a + b) == SumTotal(a) + SumTotal(b)
  {
    if a == [] {
      assert a + b == b;
    } else {
      assert (a + b)[1..] == a[1..] + b;
      TotalAppend(a[1..], b);
    }
  }

  lemma {:induction false} CountAppend(a: seq<Product>, b: seq<Product>)
    ensures SumCount(a + b) == SumCount(a) + SumCount(b)
  {
    if a == [] {
      assert a + b == b;
    } else {
      assert (a + b)[1..] == a[1..] + b;
      CountAppend(a[1..], b);
    }
  }

  /** Replacing one entry moves the sums by the difference of the two entries. */
  lemma {:induction false} SlotUpdate(s: seq<Product>, i: int, p: Product)
    requires 0 <= i < |s|
    ensures SumCount(s[i := p]) == SumCount(s) - s[i].quantity + p.quantity
    ensures SumTotal(s[i := p]) == SumTotal(s) - LineTotal(s[i]) + LineTotal(p)
  {
    if i > 0 {
      SlotUpdate(s[1..], i - 1, p);
      assert s[i := p][1..] == s[1..][i - 1 := p];
    } else {
      assert s[i := p][1..] == s[1..];
    }
  }

  /** Entries with quantity 0 contribute nothing, so filtering them out keeps both sums. */
  lemma {:induction false} PositiveKeepsSums(s: seq<Product>)
    requires NonNegative(s)
    ensures SumCount(Positive(s)) == SumCount(s)
    ensures SumTotal(Positive(s)) == SumTotal(s)
  {
    if s != [] {
      assert NonNegative(s[1..]) by {
        forall i | 0 <= i < |s[1..]| ensures s[1..][i].quantity >= 0 {
          assert s[1..][i] == s[i + 1];
        }
      }
      PositiveKeepsSums(s[1..]);
      var head := if s[0].quantity > 0 then [s[0]] else [];
      CountAppend(head, Positive(s[1..]));
      TotalAppend(head, Positive(s[1..]));
    }
  }

  // ---------------------------------------------------------------------
  // The aggregates under the cart operations
  // ---------------------------------------------------------------------

  /** `addToCart` always adds one unit; the total rises by the unit price of the entry that grew. */
  lemma AddedToSums(s: seq<Product>, item: Product)
    ensures SumCount(AddedTo(s, item)) == SumCount(s) + 1
    ensures var i := FindIndex(s, item.id);
      SumTotal(AddedTo(s, item)) == SumTotal(s) + (if i >= 0 then s[i].price else item.price)
  {
    AddedToByIndex(s, item);
    var i := FindIndex(s, item.id);
    if i >= 0 {
      SlotUpdate(s, i, Bump(s[i]));
    } else {
      CountAppend(s, [item.(quantity := 1)]);
      TotalAppend(s, [item.(quantity := 1)]);
    }
  }

  /** `increment` adds one unit exactly when the id is present. */
  lemma IncrementedSums(s: seq<Product>, id: string)
    ensures SumCount(Incremented(s, id)) == SumCount(s) + (if HasId(s, id) then 1 else 0)
    ensures var i := FindIndex(s, id);
      SumTotal(Incremented(s, id)) == SumTotal(s) + (if i >= 0 then s[i].price else 0)
  {
    var i := FindIndex(s, id);
    if i >= 0 {
      IncrementedFirst(s, id, i);
      SlotUpdate(s, i, Bump(s[i]));
    } else {
      IncrementedAbsent(s, id);
    }
  }

  /** `decrement` removes one unit exactly when the first entry with the id has a positive quantity. */
  lemma DecrementedSums(s: seq<Product>, id: string)
    ensures var i := FindIndex(s, id);
      SumCount(Decremented(s, id)) == SumCount(s) - (if i >= 0 && s[i].quantity > 0 then 1 else 0)
    ensures var i := FindIndex(s, id);
      SumTotal(Decremented(s, id)) == SumTotal(s) - (if i >= 0 && s[i].quantity > 0 then s[i].price else 0)
  {
    var i := FindIndex(s, id);
    if i >= 0 {
      DecrementedFirst(s, id, i);
      if s[i].quantity > 0 { SlotUpdate(s, i, Lower(s[i])); }
    } else {
      DecrementedAbsent(s, id);
    }
  }

  /**
   * The add-add-decrement-decrement walk through one product. In memory the
   * entry stays with quantity 0; storage still holds quantity 1, because each
   * write carries the list from before its own update.
   */
  method DecrementToZeroScenario()
  {
    var store := new CartStore(None);
    var p1 := Product("p1", "Product 1", "u", 4, 0);
    store.AddToCart(p1);
    AddedToAbsent([], p1);
    assert store.products == [p1.(quantity := 1)];
    assert CartTotal(store.products) == 4 && TotalItemsInCart(store.products) == 1;
    store.AddToCart(p1);
    AddedToPresent([p1.(quantity := 1)], p1, 0);
    assert store.products == [p1.(quantity := 2)];
    assert CartTotal(store.products) == 8 && TotalItemsInCart(store.products) == 2;
    store.Decrement("p1");
    DecrementedFirst([p1.(quantity := 2)], "p1", 0);
    assert store.products == [p1.(quantity := 1)];
    store.Decrement("p1");
    DecrementedFirst([p1.(quantity := 1)], "p1", 0);
    assert store.products == [p1.(quantity := 0)];
    assert CartTotal(store.products) == 0 && TotalItemsInCart(store.products) == 0;
    assert store.stored == Some(Positive([p1.(quantity := 1)]));
    PositiveOfPositive([p1.(quantity := 1)]);
    assert store.stored == Some([p1.(quantity := 1)]);
  }
}
