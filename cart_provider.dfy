/**
  The cart provider: it holds the current product list and replaces it on
  every operation, as the state setter does. Each operation also yields the
  snapshot it hands to storage, or nothing when it writes nothing.
*/
module CartHook {
  import opened CartList
  import CartProperties

  datatype Option<T> = None | Some(value: T)

  class CartProvider {
    /** The current cart, as the consumers see it. */
    var products: seq<Product>

    /** The cart invariant on the current list. */
    predicate Valid()
      reads this
    {
      WellFormed(products)
    }

    /** A provider starts with an empty cart. */
    constructor ()
      ensures products == [] && Valid()
    {
      products := [];
    }

    /**
      The initial load: while the cart is still empty, a list found in
      storage replaces it as it is, without any check of its shape.
    */
    method LoadProducts(stored: Option<seq<Product>>)
      modifies this
      ensures products == if old(products) == [] && stored.Some? then stored.value else old(products)
      ensures old(products) != [] ==> products == old(products)
    {
      if |products| == 0 {
        if stored.Some? {
          products := stored.value;
        }
      }
    }

    /**
      Add-to-cart. One pass over the list bumps every entry with the item's
      id and records whether there was one; if there was, the bumped list
      becomes the cart, otherwise the item is appended with quantity 1.
      The whole new list is written to storage in both cases.
    */
    method AddToCart(item: Item) returns (written: seq<Product>)
      modifies this
      ensures products == CartList.AddToCart(old(products), item)
      ensures written == products
      ensures old(Valid()) ==> Valid()
    {
      var productExists := false;
      var newProducts: seq<Product> := [];
      var i := 0;
      while i < |products|
        invariant 0 <= i <= |products|
        invariant |newProducts| == i
        invariant forall k :: 0 <= k < i ==>
          newProducts[k] == if products[k].id == item.id then Bumped(products[k]) else products[k]
        invariant productExists <==> exists k :: 0 <= k < i && products[k].id == item.id
      {
        var prod := products[i];
        if prod.id == item.id {
          productExists := true;
          newProducts := newProducts + [Bumped(prod)];
        } else {
          newProducts := newProducts + [prod];
        }
        i := i + 1;
      }
      if Valid() {
        CartProperties.AddToCartPreservesWellFormed(products, item);
      }
      if productExists {
        products := newProducts;
      } else {
        CartProperties.AddToCartNew(products, item);
        products := products + [NewEntry(item)];
      }
      written := products;
    }

    /**
      Increment. An absent id changes nothing and writes nothing; otherwise
      the entry's quantity goes up by one in place and the list is written.
    */
    method Increment(id: string) returns (written: Option<seq<Product>>)
      modifies this
      ensures products == CartList.Increment(old(products), id)
      ensures written == if Contains(old(products), id) then Some(products) else None
      ensures old(Valid()) ==> Valid()
    {
      var index := FindIndex(products, id);
      written := None;
      if index != -1 {
        if Valid() {
          CartProperties.IncrementPreservesWellFormed(products, id);
        }
        products := CartList.Increment(products, id);
        written := Some(products);
      }
    }

    /**
      Decrement. An absent id changes nothing and writes nothing; an entry
      at quantity 1 is removed, any other goes down by one in place, and the
      list is written.
    */
    method Decrement(id: string) returns (written: Option<seq<Product>>)
      modifies this
      ensures products == CartList.Decrement(old(products), id)
      ensures written == if Contains(old(products), id) then Some(products) else None
      ensures old(Valid()) ==> Valid()
    {
      var index := FindIndex(products, id);
      if index == -1 {
        return None;
      }
      if Valid() {
        CartProperties.DecrementPreservesWellFormed(products, id);
      }
      products := CartList.Decrement(products, id);
      written := Some(products);
    }
  }

  /** Add an item, add it again, then decrement it twice: the cart ends empty. */
  method WalkthroughAddTwiceDecrementTwice() {
    var shoe := Item("a", "Shoe", "u", 10);
    var cart := new CartProvider();
    var w := cart.AddToCart(shoe);
    assert cart.products == [Product("a", "Shoe", "u", 10, 1)];
    w := cart.AddToCart(shoe);
    assert cart.products == [Product("a", "Shoe", "u", 10, 2)];
    var d := cart.Decrement("a");
    assert cart.products == [Product("a", "Shoe", "u", 10, 1)];
    d := cart.Decrement("a");
    assert cart.products == [];
    assert d == Some([]);
  }

  /** Add two ids, increment the first: the order stays; an unknown id writes nothing. */
  method WalkthroughIncrementKeepsOrder() {
    var cart := new CartProvider();
    var w := cart.AddToCart(Item("a", "Shoe", "u", 10));
    assert cart.products == [Product("a", "Shoe", "u", 10, 1)];
    w := cart.AddToCart(Item("b", "Hat", "v", 5));
    assert cart.products == [Product("a", "Shoe", "u", 10, 1), Product("b", "Hat", "v", 5, 1)];
    assert FindIndex(cart.products, "a") == 0;
    var n := cart.Increment("a");
    assert cart.products == [Product("a", "Shoe", "u", 10, 2), Product("b", "Hat", "v", 5, 1)];
    n := cart.Increment("z");
    assert n == None;
  }
}
