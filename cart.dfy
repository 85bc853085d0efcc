/**
 * The cart-state container (src/hooks/cart.tsx): the product record, the
 * list lookups the operations use, reference definitions of what each
 * operation does to the list, and the store object whose methods replace the
 * in-memory list and overwrite the single persisted value.
 */
module Cart {
  import opened Wrappers

  /** The error `useCart` throws outside a provider. */
  const NoProviderMessage: string := "useCart must be used within a CartProvider"

  /** One line item. Prices are whole cents, so sums are exact. */
  datatype Product = Product(id: string, title: string, imageUrl: string, price: int, quantity: int)

  /** The entry with its quantity raised by one. */
  function Bump(p: Product): Product { p.(quantity := p.quantity + 1) }

  /** The entry with its quantity lowered by one. */
  function Lower(p: Product): Product { p.(quantity := p.quantity - 1) }

  // ---------------------------------------------------------------------
  // Predicates on a cart
  // ---------------------------------------------------------------------

  predicate HasId(s: seq<Product>, id: string)
  {
    exists i :: 0 <= i < |s| && s[i].id == id
  }

  /** An id is in a non-empty cart when it heads it or is in the rest. */
  lemma HasIdCons(s: seq<Product>, id: string)
    requires s != []
    ensures HasId(s, id) <==> s[0].id == id || HasId(s[1..], id)
  {
    if HasId(s[1..], id) {
      var j :| 0 <= j < |s[1..]| && s[1..][j].id == id;
      assert s[j + 1].id == id;
    }
    if HasId(s, id) {
      var j :| 0 <= j < |s| && s[j].id == id;
      if j > 0 { assert s[1..][j - 1].id == id; }
    }
  }

  /** `i` is the first position holding `id`: the index `findIndex` yields. */
  predicate FirstWithId(s: seq<Product>, id: string, i: int)
  {
    0 <= i < |s| && s[i].id == id && forall j :: 0 <= j < i ==> s[j].id != id
  }

  /** No two entries share an id. */
  predicate UniqueIds(s: seq<Product>)
  {
    forall i, j :: 0 <= i < j < |s| ==> s[i].id != s[j].id
  }

  /** No entry has a negative quantity. */
  predicate NonNegative(s: seq<Product>)
  {
    forall i :: 0 <= i < |s| ==> s[i].quantity >= 0
  }

  /** The invariant the cart operations keep. */
  predicate WellFormed(s: seq<Product>)
  {
    UniqueIds(s) && NonNegative(s)
  }

  // ---------------------------------------------------------------------
  // The pure lookups: Array.prototype.findIndex and filter
  // ---------------------------------------------------------------------

  /** `findIndex(p => p.id === id)`: the first position with `id`, or -1. */
  function FindIndex(s: seq<Product>, id: string): (r: int)
    ensures -1 <= r < |s|
    ensures r == -1 <==> !HasId(s, id)
    ensures r != -1 ==> FirstWithId(s, id, r)
  {
    if s == [] then -1
    else if s[0].id == id then 0
    else
      var k := FindIndex(s[1..], id);
      HasIdCons(s, id);
      if k == -1 then -1 else k + 1
  }

  /** `filter(p => p.quantity > 0)`: the entries with a positive quantity, in order. */
  function Positive(s: seq<Product>): (r: seq<Product>)
    ensures |r| <= |s|
    ensures forall p :: p in r <==> p in s && p.quantity > 0
  {
    if s == [] then []
    else (if s[0].quantity > 0 then [s[0]] else []) + Positive(s[1..])
  }

  /** Filtering distributes over concatenation: kept entries keep their order and their copies. */
  lemma {:induction false} PositiveAppend(a: seq<Product>, b: seq<Product>)
    ensures Positive(a + b) == Positive(a) + Positive(b)
  {
    if a == [] {
      assert a + b == b;
    } else {
      assert (a + b)[1..] == a[1..] + b;
      PositiveAppend(a[1..], b);
    }
  }

  /** A one-entry list is kept exactly when its quantity is positive. */
  lemma PositiveSingleton(p: Product)
    ensures Positive([p]) == if p.quantity > 0 then [p] else []
  {
    assert [p][1..] == [];
  }

  lemma {:induction false} PositiveOfPositive(s: seq<Product>)
    requires forall i :: 0 <= i < |s| ==> s[i].quantity > 0
    ensures Positive(s) == s
  {
    if s != [] {
      PositiveOfPositive(s[1..]);
    }
  }

  lemma {:induction false} PositiveKeepsWellFormed(s: seq<Product>)
    requires WellFormed(s)
    ensures WellFormed(Positive(s))
  {
    if s != [] {
      var t := s[1..];
      assert WellFormed(t) by {
        forall i, j | 0 <= i < j < |t| ensures t[i].id != t[j].id {
          assert t[i] == s[i + 1] && t[j] == s[j + 1];
        }
        forall i | 0 <= i < |t| ensures t[i].quantity >= 0 {
          assert t[i] == s[i + 1];
        }
      }
      PositiveKeepsWellFormed(t);
      var rest := Positive(t);
      if s[0].quantity > 0 {
        var r := [s[0]] + rest;
        forall i, j | 0 <= i < j < |r| ensures r[i].id != r[j].id {
          if i == 0 {
            assert r[j] == rest[j - 1] && rest[j - 1] in t;
            var k :| 0 <= k < |t| && t[k] == rest[j - 1];
            assert s[k + 1] == r[j];
          } else {
            assert r[i] == rest[i - 1] && r[j] == rest[j - 1];
          }
        }
        forall i | 0 <= i < |r| ensures r[i].quantity >= 0 {
          if i > 0 { assert r[i] == rest[i - 1]; }
        }
      } else {
        assert Positive(s) == rest;
      }
    }
  }

  // ---------------------------------------------------------------------
  // Reference definitions of the three updates
  // ---------------------------------------------------------------------

  /** `increment(id)` on a list: the first entry with `id` gains one unit. */
  function Incremented(s: seq<Product>, id: string): seq<Product>
  {
    if s == [] then []
    else if s[0].id == id then [Bump(s[0])] + s[1..]
    else [s[0]] + Incremented(s[1..], id)
  }

  /** `decrement(id)` on a list: the first entry with `id` loses one unit, unless it has none. */
  function Decremented(s: seq<Product>, id: string): seq<Product>
  {
    if s == [] then []
    else if s[0].id == id then (if s[0].quantity > 0 then [Lower(s[0])] + s[1..] else s)
    else [s[0]] + Decremented(s[1..], id)
  }

  /** `addToCart(item)` on a list: increment a present id, else append one unit of `item`. */
  function AddedTo(s: seq<Product>, item: Product): seq<Product>
  {
    if HasId(s, item.id) then Incremented(s, item.id) else s + [item.(quantity := 1)]
  }

  // ---------------------------------------------------------------------
  // What each update does
  // ---------------------------------------------------------------------

  /** On a present id only the first entry with it changes, and only by one more unit. */
  lemma {:induction false} IncrementedFirst(s: seq<Product>, id: string, i: int)
    requires FirstWithId(s, id, i)
    ensures Incremented(s, id) == s[i := Bump(s[i])]
  {
    if i > 0 {
      IncrementedFirst(s[1..], id, i - 1);
      assert [s[0]] + s[1..][i - 1 := Bump(s[i])] == s[i := Bump(s[i])];
    }
  }

  /** On an absent id nothing changes. */
  lemma {:induction false} IncrementedAbsent(s: seq<Product>, id: string)
    requires !HasId(s, id)
    ensures Incremented(s, id) == s
  {
    if s != [] {
      HasIdCons(s, id);
      IncrementedAbsent(s[1..], id);
    }
  }

  /** Increment as `increment` in the cart hook computes it: look up the index, then bump that slot. */
  lemma IncrementedByIndex(s: seq<Product>, id: string)
    ensures var i := FindIndex(s, id);
      Incremented(s, id) == if i >= 0 then s[i := Bump(s[i])] else s
  {
    var i := FindIndex(s, id);
    if i >= 0 { IncrementedFirst(s, id, i); } else { IncrementedAbsent(s, id); }
  }

  /** A present id whose first entry has a positive quantity loses exactly one unit there. */
  lemma {:induction false} DecrementedFirst(s: seq<Product>, id: string, i: int)
    requires FirstWithId(s, id, i)
    ensures Decremented(s, id) == if s[i].quantity > 0 then s[i := Lower(s[i])] else s
  {
    if i > 0 {
      DecrementedFirst(s[1..], id, i - 1);
      assert [s[0]] + s[1..] == s;
      assert [s[0]] + s[1..][i - 1 := Lower(s[i])] == s[i := Lower(s[i])];
    }
  }

  /** On an absent id nothing changes. */
  lemma {:induction false} DecrementedAbsent(s: seq<Product>, id: string)
    requires !HasId(s, id)
    ensures Decremented(s, id) == s
  {
    if s != [] {
      HasIdCons(s, id);
      DecrementedAbsent(s[1..], id);
    }
  }

  /** Decrement as `decrement` in the cart hook computes it: look up the index, lower that slot if positive. */
  lemma DecrementedByIndex(s: seq<Product>, id: string)
    ensures var i := FindIndex(s, id);
      Decremented(s, id) == if i >= 0 && s[i].quantity > 0 then s[i := Lower(s[i])] else s
  {
    var i := FindIndex(s, id);
    if i >= 0 { DecrementedFirst(s, id, i); } else { DecrementedAbsent(s, id); }
  }

  /** Decrement never removes an entry; ids and order stay; no quantity goes below zero. */
  lemma DecrementedKeepsEntries(s: seq<Product>, id: string)
    ensures |Decremented(s, id)| == |s|
    ensures forall k :: 0 <= k < |s| ==> Decremented(s, id)[k].id == s[k].id
    ensures NonNegative(s) ==> NonNegative(Decremented(s, id))
  {
    DecrementedByIndex(s, id);
  }

  /** Add on a present id: that entry gains one unit, length and order are unchanged. */
  lemma AddedToPresent(s: seq<Product>, item: Product, i: int)
    requires FirstWithId(s, item.id, i)
    ensures AddedTo(s, item) == s[i := Bump(s[i])]
  {
    IncrementedFirst(s, item.id, i);
  }

  /** Add on an absent id: one unit of the item is appended at the end. */
  lemma AddedToAbsent(s: seq<Product>, item: Product)
    requires !HasId(s, item.id)
    ensures AddedTo(s, item) == s + [item.(quantity := 1)]
    ensures |AddedTo(s, item)| == |s| + 1
  {
  }

  /** Add as `addToCart` in the cart hook computes it: find the index, bump it or push. */
  lemma AddedToByIndex(s: seq<Product>, item: Product)
    ensures var i := FindIndex(s, item.id);
      AddedTo(s, item) == if i >= 0 then s[i := Bump(s[i])] else s + [item.(quantity := 1)]
  {
    var i := FindIndex(s, item.id);
    if i >= 0 { AddedToPresent(s, item, i); }
  }

  /** Bumping or lowering one slot keeps the ids. */
  lemma SlotUpdateKeepsIds(s: seq<Product>, i: int, p: Product)
    requires 0 <= i < |s| && p.id == s[i].id
    ensures UniqueIds(s) ==> UniqueIds(s[i := p])
  {
  }

  lemma IncrementedKeepsWellFormed(s: seq<Product>, id: string)
    requires WellFormed(s)
    ensures WellFormed(Incremented(s, id))
  {
    IncrementedByIndex(s, id);
    var i := FindIndex(s, id);
    if i >= 0 { SlotUpdateKeepsIds(s, i, Bump(s[i])); }
  }

  lemma DecrementedKeepsWellFormed(s: seq<Product>, id: string)
    requires WellFormed(s)
    ensures WellFormed(Decremented(s, id))
  {
    DecrementedByIndex(s, id);
    var i := FindIndex(s, id);
    if i >= 0 && s[i].quantity > 0 { SlotUpdateKeepsIds(s, i, Lower(s[i])); }
  }

  lemma AddedToKeepsWellFormed(s: seq<Product>, item: Product)
    requires WellFormed(s)
    ensures WellFormed(AddedTo(s, item))
  {
    if HasId(s, item.id) {
      IncrementedKeepsWellFormed(s, item.id);
    } else {
      var r := s + [item.(quantity := 1)];
      forall i, j | 0 <= i < j < |r| ensures r[i].id != r[j].id {
        if j == |s| {
          assert r[i] == s[i];
        } else {
          assert r[i] == s[i] && r[j] == s[j];
        }
      }
    }
  }

  // ---------------------------------------------------------------------
  // The store
  // ---------------------------------------------------------------------

  /**
   * The provider's state: the in-memory list and the value last written under
   * the storage key `@GoMarketPlace:products`. Each mutation replaces the list with an updated copy and then
   * overwrites the stored value with a snapshot taken before the update.
   */
  class CartStore {
    var products: seq<Product>
    var stored: Option<seq<Product>>

    /** The store invariant: both the list and the stored copy are well formed. */
    predicate Valid()
      reads this
    {
      WellFormed(products) && (stored.Some? ==> WellFormed(stored.value))
    }

    /** A new provider: empty list; `persisted` is whatever an earlier run left in storage. */
    constructor (persisted: Option<seq<Product>>)
      ensures products == [] && stored == persisted
      ensures (persisted.Some? ==> WellFormed(persisted.value)) ==> Valid()
    {
      products := [];
      stored := persisted;
    }

    /** `loadProducts`: adopt the stored list when there is one; otherwise keep the current list. */
    method LoadProducts()
      modifies this
      ensures stored == old(stored)
      ensures products == match old(stored) case Some(s) => s case None => old(products)
      ensures old(Valid()) ==> Valid()
    {
      if stored.Some? {
        products := stored.value;
      }
    }

    /** `addToCart`: bump or append, then store the list as it was BEFORE the update. */
    method AddToCart(product: Product)
      modifies this
      ensures products == AddedTo(old(products), product)
      ensures stored == Some(old(products))
      ensures old(Valid()) ==> Valid()
    {
      var snapshot := products;
      var draft := products;
      var productIndex := FindIndex(draft, product.id);
      if productIndex >= 0 {
        draft := draft[productIndex := Bump(draft[productIndex])];
      } else {
        draft := draft + [product.(quantity := 1)];
      }
      AddedToByIndex(snapshot, product);
      products := draft;
      stored := Some(snapshot);
      if old(Valid()) { AddedToKeepsWellFormed(snapshot, product); }
    }

    /** `increment`: bump a present id, then store the list as it was BEFORE the update. */
    method Increment(id: string)
      modifies this
      ensures products == Incremented(old(products), id)
      ensures stored == Some(old(products))
      ensures old(Valid()) ==> Valid()
    {
      var snapshot := products;
      var draft := products;
      var productIndex := FindIndex(draft, id);
      if productIndex >= 0 {
        draft := draft[productIndex := Bump(draft[productIndex])];
      }
      IncrementedByIndex(snapshot, id);
      products := draft;
      stored := Some(snapshot);
      if old(Valid()) { IncrementedKeepsWellFormed(snapshot, id); }
    }

    /**
     * `decrement`: lower a present id whose quantity is positive, then store the
     * PRE-update list without its zero-quantity entries, even when the id is absent.
     */
    method Decrement(id: string)
      modifies this
      ensures products == Decremented(old(products), id)
      ensures stored == Some(Positive(old(products)))
      ensures forall p :: p in stored.value ==> p.quantity > 0
      ensures old(Valid()) ==> Valid()
    {
      var snapshot := products;
      var productIndex := FindIndex(products, id);
      if productIndex >= 0 && products[productIndex].quantity > 0 {
        products := products[productIndex := Lower(products[productIndex])];
      }
      DecrementedByIndex(snapshot, id);
      stored := Some(Positive(snapshot));
      if old(Valid()) {
        DecrementedKeepsWellFormed(snapshot, id);
        PositiveKeepsWellFormed(snapshot);
      }
    }
  }

  /** A fresh provider over a persisted one-entry list adopts exactly that list. */
  method HydrationScenario()
  {
    var saved := [Product("a", "X", "u", 2, 3)];
    var store := new CartStore(Some(saved));
    assert store.products == [];
    store.LoadProducts();
    assert store.products == saved && store.Valid();
    var empty := new CartStore(None);
    empty.LoadProducts();
    assert empty.products == [];
  }

  /** `useCart`: the context's value, or the error thrown when there is no provider. */
  function UseCart(context: Option<CartStore>): (r: Result<CartStore>)
    ensures r.Err? <==> context.None?
    ensures context.Some? ==> r == Ok(context.value)
    ensures r.Err? ==> r.message == NoProviderMessage
  {
    match context
    case None => Err(NoProviderMessage)
    case Some(c) => Ok(c)
  }
}
