/**
  What the three cart operations promise once the cart invariant holds:
  the branch-by-branch before/after relations under unique ids, preservation
  of the invariant, the operations undoing each other, and the change each
  one makes to the number of items in the cart.
*/
module CartProperties {
  import opened CartList

  /** Under unique ids, the entry `findIndex` finds is the only one with that id. */
  lemma FindIndexUnique(ps: seq<Product>, i: int)
    requires UniqueIds(ps) && 0 <= i < |ps|
    ensures FindIndex(ps, ps[i].id) == i
  {
  }

  /** The filter keeps the whole list when no entry has the id. */
  lemma {:induction false} RemoveMatchingAbsent(ps: seq<Product>, id: string)
    requires !Contains(ps, id)
    ensures RemoveMatching(ps, id) == ps
  {
    if ps != [] {
      assert !Contains(ps[1..], id) by {
        forall k | 0 <= k < |ps[1..]| ensures ps[1..][k].id != id {
          assert ps[1..][k] == ps[k + 1];
        }
      }
      RemoveMatchingAbsent(ps[1..], id);
      assert ps == [ps[0]] + ps[1..];
    }
  }

  /**
    The filter works entry by entry: filtering a concatenation is
    concatenating the filtered parts, so the kept entries stay in order.
  */
  lemma {:induction false} RemoveMatchingAppend(xs: seq<Product>, ys: seq<Product>, id: string)
    ensures RemoveMatching(xs + ys, id) == RemoveMatching(xs, id) + RemoveMatching(ys, id)
  {
    if xs != [] {
      assert (xs + ys)[0] == xs[0];
      assert (xs + ys)[1..] == xs[1..] + ys;
      RemoveMatchingAppend(xs[1..], ys, id);
    } else {
      assert xs + ys == ys;
    }
  }

  /**
    The filter keeps every entry with another id exactly as often as the
    list holds it, and no entry with the id.
  */
  lemma {:induction false} RemoveMatchingCounts(ps: seq<Product>, id: string, p: Product)
    ensures multiset(RemoveMatching(ps, id))[p] == if p.id == id then 0 else multiset(ps)[p]
  {
    if ps != [] {
      var rest := RemoveMatching(ps[1..], id);
      RemoveMatchingCounts(ps[1..], id, p);
      assert ps == [ps[0]] + ps[1..];
      if ps[0].id == id {
        assert RemoveMatching(ps, id) == rest;
      } else {
        assert RemoveMatching(ps, id) == [ps[0]] + rest;
      }
    }
  }

  /**
    Under unique ids the filter removes exactly the one entry with the id
    and keeps the others in their order.
  */
  lemma {:induction false} RemoveMatchingUnique(ps: seq<Product>, i: int)
    requires UniqueIds(ps) && 0 <= i < |ps|
    ensures RemoveMatching(ps, ps[i].id) == ps[..i] + ps[i + 1..]
  {
    var id := ps[i].id;
    if i == 0 {
      HeadAbsentFromTail(ps);
      RemoveMatchingAbsent(ps[1..], id);
      assert ps[..i] + ps[i + 1..] == ps[1..];
    } else {
      UniqueIdsTail(ps);
      assert ps[1..][i - 1] == ps[i];
      RemoveMatchingUnique(ps[1..], i - 1);
      assert RemoveMatching(ps, id) == [ps[0]] + RemoveMatching(ps[1..], id);
      SplitAfterHead(ps, i);
    }
  }

  lemma HeadAbsentFromTail(ps: seq<Product>)
    requires UniqueIds(ps) && ps != []
    ensures !Contains(ps[1..], ps[0].id)
  {
    forall k | 0 <= k < |ps[1..]| ensures ps[1..][k].id != ps[0].id {
      assert ps[1..][k] == ps[k + 1];
    }
  }

  lemma SplitAfterHead(ps: seq<Product>, i: int)
    requires 0 < i < |ps|
    ensures [ps[0]] + (ps[1..][..i - 1] + ps[1..][i..]) == ps[..i] + ps[i + 1..]
  {
    assert [ps[0]] + ps[1..][..i - 1] == ps[..i];
    assert ps[1..][i..] == ps[i + 1..];
  }

  lemma UniqueIdsTail(ps: seq<Product>)
    requires UniqueIds(ps) && ps != []
    ensures UniqueIds(ps[1..])
  {
  }

  /**
    Add-to-cart on an id already present keeps the length and raises only
    that entry's quantity by one; its title, image and price stay, whatever
    the item says.
  */
  lemma AddToCartExisting(ps: seq<Product>, item: Item)
    requires UniqueIds(ps) && Contains(ps, item.id)
    ensures var i := FindIndex(ps, item.id);
      AddToCart(ps, item) == ps[i := Bumped(ps[i])]
  {
  }

  /**
    Under unique ids, adding an item whose id is already in the cart is the
    same as incrementing that id.
  */
  lemma AddToCartExistingIsIncrement(ps: seq<Product>, item: Item)
    requires UniqueIds(ps) && Contains(ps, item.id)
    ensures AddToCart(ps, item) == Increment(ps, item.id)
  {
  }

  /** Add-to-cart on a new id appends exactly one entry and keeps the rest. */
  lemma AddToCartNew(ps: seq<Product>, item: Item)
    requires !Contains(ps, item.id)
    ensures AddToCart(ps, item) == ps + [NewEntry(item)]
  {
  }

  /** Increment on a present id changes only that entry's quantity, in place. */
  lemma IncrementPresent(ps: seq<Product>, id: string)
    requires Contains(ps, id)
    ensures var i := FindIndex(ps, id);
      Increment(ps, id) == ps[i := Bumped(ps[i])]
  {
  }

  /** Decrement on an entry above quantity 1 changes only its quantity, in place. */
  lemma DecrementAboveOne(ps: seq<Product>, id: string)
    requires Contains(ps, id) && ps[FindIndex(ps, id)].quantity != 1
    ensures var i := FindIndex(ps, id);
      Decrement(ps, id) == ps[i := Dropped(ps[i])]
  {
  }

  /**
    Decrement on an entry at quantity 1 removes it: under unique ids the
    list is one shorter and the other entries keep their order.
  */
  lemma DecrementAtOne(ps: seq<Product>, id: string)
    requires UniqueIds(ps) && Contains(ps, id) && ps[FindIndex(ps, id)].quantity == 1
    ensures var i := FindIndex(ps, id);
      var r := Decrement(ps, id);
      r == ps[..i] + ps[i + 1..] && |r| == |ps| - 1
  {
    RemoveMatchingUnique(ps, FindIndex(ps, id));
  }

  /** Dropping one entry from a well-formed list leaves a well-formed list. */
  lemma WellFormedWithout(ps: seq<Product>, i: int)
    requires WellFormed(ps) && 0 <= i < |ps|
    ensures WellFormed(ps[..i] + ps[i + 1..])
  {
  }

  lemma AddToCartPreservesWellFormed(ps: seq<Product>, item: Item)
    requires WellFormed(ps)
    ensures WellFormed(AddToCart(ps, item))
  {
  }

  lemma IncrementPreservesWellFormed(ps: seq<Product>, id: string)
    requires WellFormed(ps)
    ensures WellFormed(Increment(ps, id))
  {
  }

  lemma DecrementPreservesWellFormed(ps: seq<Product>, id: string)
    requires WellFormed(ps)
    ensures WellFormed(Decrement(ps, id))
  {
    if Contains(ps, id) {
      var i := FindIndex(ps, id);
      if ps[i].quantity == 1 {
        DecrementAtOne(ps, id);
        WellFormedWithout(ps, i);
      }
    }
  }

  /** Decrementing right after an increment gives back the original cart. */
  lemma DecrementUndoesIncrement(ps: seq<Product>, id: string)
    requires WellFormed(ps)
    ensures Decrement(Increment(ps, id), id) == ps
  {
  }

  /**
    Incrementing right after a decrement that left the entry in place gives
    back the original cart.
  */
  lemma IncrementUndoesDecrement(ps: seq<Product>, id: string)
    requires Contains(ps, id) && ps[FindIndex(ps, id)].quantity != 1
    ensures Increment(Decrement(ps, id), id) == ps
  {
  }

  /** Decrementing right after an add-to-cart gives back the original cart. */
  lemma DecrementUndoesAddToCart(ps: seq<Product>, item: Item)
    requires WellFormed(ps)
    ensures Decrement(AddToCart(ps, item), item.id) == ps
  {
    if Contains(ps, item.id) {
      AddToCartExistingIsIncrement(ps, item);
      DecrementUndoesIncrement(ps, item.id);
    } else {
      AddToCartNew(ps, item);
      var added := ps + [NewEntry(item)];
      assert UniqueIds(added);
      FindIndexUnique(added, |ps|);
      RemoveMatchingUnique(added, |ps|);
      assert added[..|ps|] == ps;
    }
  }

  lemma {:induction false} TotalQuantityAppend(ps: seq<Product>, p: Product)
    ensures TotalQuantity(ps + [p]) == TotalQuantity(ps) + p.quantity
  {
    if ps != [] {
      assert (ps + [p])[1..] == ps[1..] + [p];
      TotalQuantityAppend(ps[1..], p);
    }
  }

  lemma {:induction false} TotalQuantityUpdate(ps: seq<Product>, i: int, p: Product)
    requires 0 <= i < |ps|
    ensures TotalQuantity(ps[i := p]) == TotalQuantity(ps) - ps[i].quantity + p.quantity
  {
    if i > 0 {
      assert ps[i := p][1..] == ps[1..][i - 1 := p];
      TotalQuantityUpdate(ps[1..], i - 1, p);
    } else {
      assert ps[i := p][1..] == ps[1..];
    }
  }

  lemma {:induction false} TotalQuantityWithout(ps: seq<Product>, i: int)
    requires 0 <= i < |ps|
    ensures TotalQuantity(ps[..i] + ps[i + 1..]) == TotalQuantity(ps) - ps[i].quantity
  {
    if i > 0 {
      assert (ps[..i] + ps[i + 1..])[1..] == ps[1..][..i - 1] + ps[1..][i..];
      TotalQuantityWithout(ps[1..], i - 1);
    } else {
      assert ps[..i] + ps[i + 1..] == ps[1..];
    }
  }

  /** Every add-to-cart puts exactly one more item in the cart. */
  lemma AddToCartTotal(ps: seq<Product>, item: Item)
    requires UniqueIds(ps)
    ensures TotalQuantity(AddToCart(ps, item)) == TotalQuantity(ps) + 1
  {
    if Contains(ps, item.id) {
      AddToCartExisting(ps, item);
      var i := FindIndex(ps, item.id);
      TotalQuantityUpdate(ps, i, Bumped(ps[i]));
    } else {
      AddToCartNew(ps, item);
      TotalQuantityAppend(ps, NewEntry(item));
    }
  }

  /** An increment on a present id puts exactly one more item in the cart. */
  lemma IncrementTotal(ps: seq<Product>, id: string)
    requires Contains(ps, id)
    ensures TotalQuantity(Increment(ps, id)) == TotalQuantity(ps) + 1
  {
    IncrementPresent(ps, id);
    var i := FindIndex(ps, id);
    TotalQuantityUpdate(ps, i, Bumped(ps[i]));
  }

  /** A decrement on a present id takes exactly one item out of the cart. */
  lemma DecrementTotal(ps: seq<Product>, id: string)
    requires UniqueIds(ps) && Contains(ps, id)
    ensures TotalQuantity(Decrement(ps, id)) == TotalQuantity(ps) - 1
  {
    var i := FindIndex(ps, id);
    if ps[i].quantity == 1 {
      DecrementAtOne(ps, id);
      TotalQuantityWithout(ps, i);
    } else {
      DecrementAboveOne(ps, id);
      TotalQuantityUpdate(ps, i, Dropped(ps[i]));
    }
  }
}
