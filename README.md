# Shopping cart list logic

A model of the cart state container of a mobile shopping app
(`src/hooks/cart.tsx`). The cart is an ordered list of product entries
(`id`, `title`, `image_url`, `price`, `quantity`). Three operations turn one
list into the next:

- add to cart: an id already in the cart has its quantity raised by one;
  a new id is appended at the end with quantity 1;
- increment: the entry with the id has its quantity raised by one, in place;
- decrement: the entry with the id has its quantity lowered by one, in place,
  and an entry at quantity 1 is removed instead.

An absent id leaves the cart alone for increment and decrement.

Files:

- `cart_list.dfy` (module `CartList`): the `Product` entry and the `Item`
  handed to add-to-cart, the cart invariant `WellFormed` (unique ids, every
  quantity at least 1), and the list transformations as functions. The
  array helpers the source uses are modelled one each: `findIndex` is
  `FindIndex`, the `map` in add-to-cart is `BumpMatching`, and the `filter`
  in decrement is `RemoveMatching`.
- `cart_properties.dfy` (module `CartProperties`): lemmas giving the exact
  before/after relation of each branch under unique ids. They also show that
  the invariant is preserved and that the operations undo each other. Under
  unique ids, add-to-cart adds exactly one item, and increment or decrement
  of a present id changes the number of items by exactly one; an absent id
  changes nothing.
- `cart_provider.dfy` (module `CartHook`): the provider as a class whose
  `products` field each operation replaces, as the state setter does.
  `AddToCart` keeps the source's single pass that bumps matching entries and
  sets a `productExists` flag. Each operation returns the list it hands to
  storage, or `None` when it writes nothing. `LoadProducts` is the initial
  load, which takes the stored list as a parameter. Two client methods replay
  two scenarios. The first adds an item, adds it again and decrements it
  twice. The second adds two ids and increments the first, which keeps the
  order.

None of the functions has a precondition. The source handles duplicate ids
in its own way: its `map` bumps every matching entry, and its `filter`
removes every matching entry. The functions model exactly that: the filter
is characterised for every input by how often it keeps each entry and by
its working entry by entry over a concatenation. Uniqueness appears only in
the lemmas that reduce this to "exactly one entry".

One might expect a decrement at quantity 1 to remove only the first entry
with the id. The code (`src/hooks/cart.tsx:106`) filters out every entry
with that id, and the model does the same. `CartProperties.DecrementAtOne`
shows that the two agree when ids are unique.

## Model

| member | source | states |
|---|---|---|
| `CartList.NewEntry` | src/hooks/cart.tsx:67 | a first add creates an entry with the item's id, title, image and price and quantity 1 |
| `CartList.FindIndex` | src/hooks/cart.tsx:80 | the result is -1 exactly when no entry has the id; otherwise it is the position of the first entry with the id |
| `CartList.BumpMatching` | src/hooks/cart.tsx:51-58 | the length is kept; every entry with the id has its quantity raised by one and keeps its other fields; every other entry is unchanged |
| `CartList.RemoveMatching` | src/hooks/cart.tsx:106 | no entry with the id is left; every entry with another id is kept; nothing new appears; the result is never longer (how often and in what order entries are kept is stated by `CartProperties.RemoveMatchingCounts` and `CartProperties.RemoveMatchingAppend`) |
| `CartList.AddToCart` | src/hooks/cart.tsx:47-68 | with the id present, the length is kept and exactly the matching entries are bumped; with the id absent, the old list is kept as a prefix and the new entry with quantity 1 is appended at the end |
| `CartList.Increment` | src/hooks/cart.tsx:78-89 | the length is kept; an absent id leaves the list unchanged; otherwise only the found entry changes, and only its quantity, by +1 |
| `CartList.Decrement` | src/hooks/cart.tsx:99-121 | an absent id leaves the list unchanged; at quantity 1 every entry with the id is filtered out; otherwise the length is kept and only the found entry's quantity changes, by -1 |
| `CartProperties.FindIndexUnique` | src/hooks/cart.tsx:80 | under unique ids, the search for an entry's id finds that entry |
| `CartProperties.RemoveMatchingAbsent` | src/hooks/cart.tsx:106 | filtering out an id that no entry has keeps the whole list |
| `CartProperties.RemoveMatchingAppend` | src/hooks/cart.tsx:106 | filtering a concatenation gives the filtered parts concatenated, so the kept entries stay in their order |
| `CartProperties.RemoveMatchingCounts` | src/hooks/cart.tsx:106 | for every input, each entry with another id is kept exactly as many times as the list holds it, and no entry with the id is kept |
| `CartProperties.RemoveMatchingUnique` | src/hooks/cart.tsx:105-107 | under unique ids, the filter removes exactly the one entry with the id and keeps the rest in order |
| `CartProperties.AddToCartExisting` | src/hooks/cart.tsx:51-61 | under unique ids, adding a present id changes only that entry's quantity, by +1; its title, image and price stay, whatever the item says |
| `CartProperties.AddToCartExistingIsIncrement` | src/hooks/cart.tsx:51-89 | under unique ids, adding a present id gives the same cart as incrementing it |
| `CartProperties.AddToCartNew` | src/hooks/cart.tsx:66-68 | adding an absent id gives the old list followed by exactly one new entry at quantity 1 |
| `CartProperties.IncrementPresent` | src/hooks/cart.tsx:83-89 | incrementing a present id replaces only the found entry with a copy whose quantity is one higher |
| `CartProperties.DecrementAboveOne` | src/hooks/cart.tsx:115-121 | decrementing an entry above quantity 1 replaces only that entry with a copy whose quantity is one lower |
| `CartProperties.DecrementAtOne` | src/hooks/cart.tsx:105-107 | under unique ids, decrementing an entry at quantity 1 removes exactly that entry; the list is one shorter and the other entries keep their order |
| `CartProperties.AddToCartPreservesWellFormed` | src/hooks/cart.tsx:47-76 | unique ids and quantities of at least 1 still hold after add-to-cart |
| `CartProperties.IncrementPreservesWellFormed` | src/hooks/cart.tsx:78-97 | unique ids and quantities of at least 1 still hold after increment |
| `CartProperties.DecrementPreservesWellFormed` | src/hooks/cart.tsx:99-128 | unique ids and quantities of at least 1 still hold after decrement; no entry is left at quantity 0 |
| `CartProperties.DecrementUndoesIncrement` | src/hooks/cart.tsx:78-128 | on a well-formed cart, a decrement right after an increment of the same id gives back the original cart |
| `CartProperties.IncrementUndoesDecrement` | src/hooks/cart.tsx:78-128 | an increment right after a decrement that kept the entry gives back the original cart |
| `CartProperties.DecrementUndoesAddToCart` | src/hooks/cart.tsx:47-128 | on a well-formed cart, a decrement right after an add-to-cart of the same id gives back the original cart |
| `CartProperties.AddToCartTotal` | src/hooks/cart.tsx:47-76 | under unique ids, every add-to-cart puts exactly one more item in the cart |
| `CartProperties.IncrementTotal` | src/hooks/cart.tsx:78-97 | incrementing a present id puts exactly one more item in the cart |
| `CartProperties.DecrementTotal` | src/hooks/cart.tsx:99-128 | under unique ids, decrementing a present id takes exactly one item out of the cart |
| `CartHook.CartProvider.constructor` | src/hooks/cart.tsx:29 | the provider starts with an empty cart, which is well-formed |
| `CartHook.CartProvider.LoadProducts` | src/hooks/cart.tsx:31-45 | a stored list replaces the cart unchanged, and only while the cart is empty; a non-empty cart is never touched |
| `CartHook.CartProvider.AddToCart` | src/hooks/cart.tsx:47-76 | the one pass with the `productExists` flag leaves the cart equal to `CartList.AddToCart` of the old cart; that list is written to storage; the invariant is kept |
| `CartHook.CartProvider.Increment` | src/hooks/cart.tsx:78-97 | the cart becomes `CartList.Increment` of the old cart; the list is written to storage exactly when the id was present; the invariant is kept |
| `CartHook.CartProvider.Decrement` | src/hooks/cart.tsx:99-128 | the cart becomes `CartList.Decrement` of the old cart; the list is written to storage exactly when the id was present; the invariant is kept |

## Left out

- Storage I/O (`AsyncStorage.getItem`/`setItem`) and JSON encoding. Each
  operation returns the list it would write. The initial load takes the
  already-decoded stored list as a parameter (`None` when nothing is stored).
  A stored value that fails to parse, and the reading back of a written list,
  are not modelled.
- The initial load runs again whenever the cart changes. In the model,
  `LoadProducts` can be called at any time and has the same guard. The
  ordering of asynchronous loads and writes is not modelled. In the source,
  `loadProducts` tests for an empty cart (`src/hooks/cart.tsx:35`) before
  it awaits the storage read, and then sets the stored list
  unconditionally (`src/hooks/cart.tsx:39`). A load that starts on an empty
  cart therefore replaces entries added while the read is pending. The
  model's `LoadProducts` applies guard and replacement at once, so it
  never touches a non-empty cart and does not capture that overwrite.
- React context, `useCallback`/`useMemo`, and stale closures. Under rapid
  successive calls, an operation can compute from an out-of-date list and
  lose an earlier update. The model applies each operation to the current
  list.
- The error `useCart` throws outside a provider: a context lookup with no
  list logic.
- Floating-point `price`: it is only carried, never computed on, so it is an
  integer here. `quantity` is an unbounded integer; a JavaScript number only
  loses precision past 2^53, which the model does not capture.
- No check is made of entries loaded from storage, exactly as in the source.
  The methods therefore promise the invariant only when it held before.
