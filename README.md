# Cart store and floating cart summary: a Dafny model

This project models the cart state of a mobile storefront.

- `Cart` (`cart.dfy`) covers `src/hooks/cart.tsx`. It holds the `Product` record and the two list lookups the operations use: `findIndex` becomes `FindIndex` and `filter(quantity > 0)` becomes `Positive`. It gives reference definitions of what each operation does to the list (`AddedTo`, `Incremented`, `Decremented`) and proves lemmas about them. It has the `CartStore` class and `UseCart`.
- `CartStore` has two fields. `products` is the in-memory list. `stored` is the value last written under the storage key `@GoMarketPlace:products`, and is `None` when nothing was ever written.
- The methods `AddToCart`, `Increment` and `Decrement` replace `products` with an updated copy, the way the immer `produce` calls do. Each then overwrites `stored`.
- `LoadProducts` is the hydration step, and the constructor takes the storage content left by an earlier run.
- `FloatingCart` (`floating_cart.dfy`) covers the two `reduce` expressions of `src/components/FloatingCart/index.tsx`. They are written as left folds (`ReduceTotal`, `ReduceCount`) and proved equal to plain recursive sums (`SumTotal`, `SumCount`). The module also proves how each cart operation moves the item count and the total.
- `Wrappers` (`wrappers.dfy`) holds `Option` and `Result`.

Behaviours of the code that the model keeps as they are written:

- Each write persists the list from before the update (src/hooks/cart.tsx:58, :77, :96). `addToCart` and `increment` persist `products` as it was before their own update, so in `CartStore.AddToCart` and `CartStore.Increment` `stored` becomes `Some(old(products))`.
- `decrement` persists the pre-update list without its zero-quantity entries. It does this even when the id is absent, so `stored` becomes `Some(Positive(old(products)))`.
- `decrement` never removes an entry from memory. Decrementing to zero keeps the entry in `products` with quantity 0. Storage still holds quantity 1, because the last write carries the list from before the final decrement. The client method `FloatingCart.DecrementToZeroScenario` walks through add, add, decrement, decrement and proves each state. `Cart.HydrationScenario` does the same for hydration.
- Only the write that `decrement` makes drops zero-quantity entries. The writes of `addToCart` and `increment` store the snapshot as it is, so they can store zero-quantity entries.
- All three operations act on the FIRST entry with the id, which is what `findIndex` returns. `decrement` does nothing when that first entry has quantity 0.
- Each method reads the `products` field as it is when the method is called. The source instead reads the snapshot from the last render. The two agree whenever the provider re-renders between operations; see "## Left out".

The invariant "no two entries share an id and no quantity is negative" is `WellFormed`. `CartStore.Valid` asks for it of both `products` and `stored`. Every mutation keeps `Valid`. Hydration keeps it only when the persisted list is itself `WellFormed`, because the code does not check what it loads.

## Model

| member | source | states |
|---|---|---|
| `Cart.FindIndex` | src/hooks/cart.tsx:48 | Returns -1 exactly when no entry has the id. Otherwise it returns the first index whose entry has the id. |
| `Cart.Positive` | src/hooks/cart.tsx:96 | An entry is in the result exactly when it is in the input and has a positive quantity, and the result is no longer than the input. Order and copies are fixed by `PositiveAppend` and `PositiveSingleton`. |
| `Cart.PositiveAppend` | src/hooks/cart.tsx:96 | Filtering `a + b` is filtering `a` followed by filtering `b`, so kept entries keep their relative order and their number of copies. |
| `Cart.PositiveSingleton` | src/hooks/cart.tsx:96 | A one-entry list is kept when its quantity is positive and dropped otherwise. |
| `Cart.PositiveOfPositive` | src/hooks/cart.tsx:96 | Filtering a list whose quantities are all positive returns the same list. |
| `Cart.PositiveKeepsWellFormed` | src/hooks/cart.tsx:96 | Filtering keeps unique ids and non-negative quantities. |
| `Cart.IncrementedFirst` | src/hooks/cart.tsx:68-71 | When the id is present, only the first entry with that id changes, and its quantity rises by exactly 1. Length, order and all other entries stay the same. |
| `Cart.IncrementedAbsent` | src/hooks/cart.tsx:68-71 | When the id is absent, the list is unchanged. |
| `Cart.IncrementedByIndex` | src/hooks/cart.tsx:67-72 | The reference increment equals the source's method: look up the index with findIndex, then bump that slot or do nothing. |
| `Cart.DecrementedFirst` | src/hooks/cart.tsx:85-92 | When the id is present, the first entry with it drops 1 unit if its quantity is above 0. Otherwise the list is unchanged. |
| `Cart.DecrementedAbsent` | src/hooks/cart.tsx:85-92 | When the id is absent, the list is unchanged. |
| `Cart.DecrementedByIndex` | src/hooks/cart.tsx:85-92 | The reference decrement equals the source's method: look up the index, then lower that slot only when its quantity is above 0. |
| `Cart.DecrementedKeepsEntries` | src/hooks/cart.tsx:88-90 | Decrement never removes an entry. Length and ids are kept. If no quantity was negative before, none is negative after. |
| `Cart.AddedToPresent` | src/hooks/cart.tsx:48-50 | When the id is present, its first entry's quantity rises by exactly 1. Length, order and all other entries stay the same. |
| `Cart.AddedToAbsent` | src/hooks/cart.tsx:48-53 | When the id is absent, `{...product, quantity: 1}` is appended at the end and the length grows by 1. |
| `Cart.AddedToByIndex` | src/hooks/cart.tsx:47-54 | The reference add equals the source's draft edit: findIndex, then bump the found slot or push one unit of the item. |
| `Cart.IncrementedKeepsWellFormed` | src/hooks/cart.tsx:68-71 | Increment keeps ids unique and quantities non-negative. |
| `Cart.DecrementedKeepsWellFormed` | src/hooks/cart.tsx:85-92 | Decrement keeps ids unique and quantities non-negative. |
| `Cart.AddedToKeepsWellFormed` | src/hooks/cart.tsx:48-53 | Add keeps ids unique and quantities non-negative. |
| `Cart.CartStore.constructor` | src/hooks/cart.tsx:30 | A new provider starts with an empty list. Storage holds whatever an earlier run left there. |
| `Cart.CartStore.LoadProducts` | src/hooks/cart.tsx:33-41 | If storage holds a value, the list becomes that value. Otherwise the list is unchanged. Storage itself is unchanged. |
| `Cart.CartStore.AddToCart` | src/hooks/cart.tsx:44-62 | The list becomes `AddedTo` of the old list. Storage receives the old list. `Valid` is preserved. |
| `Cart.CartStore.Increment` | src/hooks/cart.tsx:64-81 | The list becomes `Incremented` of the old list. Storage receives the old list. `Valid` is preserved. |
| `Cart.CartStore.Decrement` | src/hooks/cart.tsx:83-100 | The list becomes `Decremented` of the old list. Storage receives the old list filtered to positive quantities, so it holds no zero-quantity entry. `Valid` is preserved. |
| `Cart.UseCart` | src/hooks/cart.tsx:110-118 | Fails with the provider error exactly when there is no context. Otherwise it returns the context. |
| `FloatingCart.ReduceTotal` | src/components/FloatingCart/index.tsx:24-27 | The left fold from an accumulator equals the accumulator plus the sum of `price * quantity`. |
| `FloatingCart.ReduceCount` | src/components/FloatingCart/index.tsx:32-35 | The left fold from an accumulator equals the accumulator plus the sum of the quantities. |
| `FloatingCart.CartTotal` | src/components/FloatingCart/index.tsx:23-29 | The unformatted total is the sum of `price * quantity` over all entries, and 0 for an empty cart. |
| `FloatingCart.TotalItemsInCart` | src/components/FloatingCart/index.tsx:31-37 | The item count is the sum of all quantities. It is 0 for an empty cart and non-negative when no quantity is negative. |
| `FloatingCart.CountNonNegative` | src/components/FloatingCart/index.tsx:32-35 | The count is non-negative whenever every quantity is. |
| `FloatingCart.TotalNonNegative` | src/components/FloatingCart/index.tsx:24-27 | The total is non-negative whenever every price and quantity is. |
| `FloatingCart.TotalAppend` | src/components/FloatingCart/index.tsx:24-27 | The total of `a + b` equals the total of `a` plus the total of `b`. |
| `FloatingCart.CountAppend` | src/components/FloatingCart/index.tsx:32-35 | The count of `a + b` equals the count of `a` plus the count of `b`. |
| `FloatingCart.SlotUpdate` | src/components/FloatingCart/index.tsx:24-35 | Replacing one entry shifts the count and the total by the difference between the new entry and the old one. |
| `FloatingCart.PositiveKeepsSums` | src/components/FloatingCart/index.tsx:24-35 | When no quantity is negative, the filtered copy that decrement stores has the same count and total as the list it came from. |
| `FloatingCart.AddedToSums` | src/hooks/cart.tsx:48-53 | Add raises the count by exactly 1. The total rises by the unit price of the entry that grew: the existing entry's price if the id was present, the item's price otherwise. |
| `FloatingCart.IncrementedSums` | src/hooks/cart.tsx:68-71 | Increment raises the count by 1 exactly when the id is present, and the total by that entry's price. |
| `FloatingCart.DecrementedSums` | src/hooks/cart.tsx:85-92 | A successful decrement lowers the count by exactly 1 and the total by that entry's price. An unsuccessful one changes neither. |

## Left out

- AsyncStorage `getItem`/`setItem` and the async/await scheduling are foreign I/O. The write is an assignment to `stored`, made at the point the method issues it. The read is `LoadProducts` reading `stored`.
- Cart.CartStore.AddToCart, Cart.CartStore.Increment, Cart.CartStore.Decrement: each starts from the current `products` field, so the model assumes the provider re-renders between any two operations. In the source each callback is memoised on `[products]` and computes from the snapshot of the last render, and `setProducts` takes effect only at the next render. Two calls made within one render therefore both start from the same list, and the second update overwrites the first. For example, `addToCart(p)` twice on an empty cart gives quantity 1 in the source but 2 in the model. These lost updates are not captured.
- Out-of-order completion of pending storage writes is concurrency and is not modelled. `stored` always holds the last write issued.
- `JSON.parse`/`JSON.stringify` are library serialisation. The stored value is the product list itself, so a malformed stored blob cannot arise in the model. The throw that `JSON.parse` would raise on one is not modelled.
- The truthiness test `if (productsStored)` is modelled as "a value is present". A serialised list is never the empty string.
- React machinery is not modelled: `useState`, `useEffect`, `useCallback`, `useMemo`, creating the context and rendering the Provider. `UseCart` takes the context as an `Option`.
- `formatValue` currency formatting is an external utility, so `CartTotal` returns the unformatted number.
- Navigation, icons, styled components and JSX layout are presentation only.
- JavaScript floating-point arithmetic for `price` is not modelled. Prices are whole cents (`int`), so every sum is exact.
