/**
  The list logic of the shopping cart: the three transformations that turn
  the current product list into the next one (add to cart, increment,
  decrement), the invariant they keep (unique ids, every quantity at least 1),
  and the lemmas that state what each branch does.
*/
module CartList {

  /** One cart entry. `price` is only carried, never computed on. */
  datatype Product = Product(id: string, title: string, image_url: string, price: int, quantity: int)

  /** What a caller hands to add-to-cart: a product without its quantity. */
  datatype Item = Item(id: string, title: string, image_url: string, price: int)

  /** The entry a first add appends: the item's fields and quantity 1. */
  function NewEntry(item: Item): (p: Product)
    ensures p.id == item.id && p.title == item.title && p.image_url == item.image_url
    ensures p.price == item.price && p.quantity == 1
  {
    Product(item.id, item.title, item.image_url, item.price, 1)
  }

  predicate Contains(ps: seq<Product>, id: string) {
    exists k :: 0 <= k < |ps| && ps[k].id == id
  }

  /** No two entries share an id. */
  predicate UniqueIds(ps: seq<Product>) {
    forall i, j :: 0 <= i < j < |ps| ==> ps[i].id != ps[j].id
  }

  /** No entry has a quantity below 1. */
  predicate PositiveQuantities(ps: seq<Product>) {
    forall k :: 0 <= k < |ps| ==> ps[k].quantity >= 1
  }

  /** The cart invariant. */
  predicate WellFormed(ps: seq<Product>) {
    UniqueIds(ps) && PositiveQuantities(ps)
  }

  /** Number of items in the cart, counting every unit of every entry. */
  function TotalQuantity(ps: seq<Product>): int {
    if ps == [] then 0 else ps[0].quantity + TotalQuantity(ps[1..])
  }

  /**
    The array `findIndex` on ids: the position of the first entry with the
    given id, or -1 when there is none.
  */
  function FindIndex(ps: seq<Product>, id: string): (r: int)
    ensures -1 <= r < |ps|
    ensures r == -1 <==> !Contains(ps, id)
    ensures r != -1 ==> ps[r].id == id && forall k :: 0 <= k < r ==> ps[k].id != id
  {
    if ps == [] then -1
    else if ps[0].id == id then 0
    else
      var j := FindIndex(ps[1..], id);
      assert forall k :: 0 < k < |ps| ==> ps[k] == ps[1..][k - 1];
      if j == -1 then -1 else j + 1
  }

  /** The entry with its quantity raised by one, all other fields kept. */
  function Bumped(p: Product): Product {
    p.(quantity := p.quantity + 1)
  }

  /** The entry with its quantity lowered by one, all other fields kept. */
  function Dropped(p: Product): Product {
    p.(quantity := p.quantity - 1)
  }

  /**
    The `map` in add-to-cart: every entry whose id matches gets its quantity
    raised by one; every other entry is kept as it is.
  */
  function BumpMatching(ps: seq<Product>, id: string): (r: seq<Product>)
    ensures |r| == |ps|
    ensures forall k :: 0 <= k < |ps| && ps[k].id == id ==> r[k] == Bumped(ps[k])
    ensures forall k :: 0 <= k < |ps| && ps[k].id != id ==> r[k] == ps[k]
  {
    if ps == [] then []
    else
      var rest := BumpMatching(ps[1..], id);
      assert forall k :: 0 < k < |ps| ==> ps[k] == ps[1..][k - 1];
      [if ps[0].id == id then Bumped(ps[0]) else ps[0]] + rest
  }

  /**
    The `filter` in decrement: the entries whose id differs, in their
    original order.
  */
  function RemoveMatching(ps: seq<Product>, id: string): (r: seq<Product>)
    ensures |r| <= |ps|
    ensures forall k :: 0 <= k < |r| ==> r[k].id != id
    ensures forall p :: p in r ==> p in ps
    ensures forall p :: p in ps && p.id != id ==> p in r
  {
    if ps == [] then []
    else
      var rest := RemoveMatching(ps[1..], id);
      assert forall p :: p in ps ==> p == ps[0] || p in ps[1..];
      if ps[0].id == id then rest else [ps[0]] + rest
  }

  /**
    Add-to-cart: an existing id has its quantity raised (the new item's
    other fields are ignored); a new id is appended with quantity 1.
  */
  function AddToCart(ps: seq<Product>, item: Item): (r: seq<Product>)
    ensures Contains(ps, item.id) ==>
      |r| == |ps| &&
      (forall k :: 0 <= k < |ps| ==> r[k] == if ps[k].id == item.id then Bumped(ps[k]) else ps[k])
    ensures !Contains(ps, item.id) ==>
      |r| == |ps| + 1 && r[..|ps|] == ps && r[|ps|] == NewEntry(item)
  {
    if Contains(ps, item.id) then BumpMatching(ps, item.id)
    else ps + [NewEntry(item)]
  }

  /**
    Increment: the first entry with the id has its quantity raised by one,
    in place; an absent id leaves the list as it is.
  */
  function Increment(ps: seq<Product>, id: string): (r: seq<Product>)
    ensures |r| == |ps|
    ensures !Contains(ps, id) ==> r == ps
    ensures Contains(ps, id) ==>
      var i := FindIndex(ps, id);
      r[i] == Bumped(ps[i]) && forall k :: 0 <= k < |ps| && k != i ==> r[k] == ps[k]
  {
    var index := FindIndex(ps, id);
    if index == -1 then ps
    else ps[..index] + [Bumped(ps[index])] + ps[index + 1..]
  }

  /**
    Decrement: an absent id leaves the list as it is; an entry at quantity 1
    is filtered out (every entry with that id goes); otherwise the first
    entry with the id has its quantity lowered by one, in place.
  */
  function Decrement(ps: seq<Product>, id: string): (r: seq<Product>)
    ensures !Contains(ps, id) ==> r == ps
    ensures Contains(ps, id) && ps[FindIndex(ps, id)].quantity == 1 ==>
      r == RemoveMatching(ps, id)
    ensures Contains(ps, id) && ps[FindIndex(ps, id)].quantity != 1 ==>
      var i := FindIndex(ps, id);
      |r| == |ps| && r[i] == Dropped(ps[i]) &&
      forall k :: 0 <= k < |ps| && k != i ==> r[k] == ps[k]
  {
    var index := FindIndex(ps, id);
    if index == -1 then ps
    else if ps[index].quantity == 1 then RemoveMatching(ps, id)
    else ps[..index] + [Dropped(ps[index])] + ps[index + 1..]
  }
}
