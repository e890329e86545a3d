/**
  The cart page's list transforms: changing a line's quantity and removing
  lines. Both are pure functions from the old cart to the new one; lines are
  identified by their product id, and a cart may hold several lines with the
  same id (the home page appends without merging).
 */
module Cart {
  import opened Catalog

  /** Every line has quantity at least 1. */
  predicate QuantitiesPositive(cart: seq<Line>)
  {
    forall k :: 0 <= k < |cart| ==> cart[k].quantity >= 1
  }

  /** Some line of the cart carries product id `id`. */
  predicate HasId(cart: seq<Line>, id: int)
  {
    exists k :: 0 <= k < |cart| && cart[k].Id() == id
  }

  /** How many lines carry product id `id`. */
  function CountId(cart: seq<Line>, id: int): nat
  {
    if cart == [] then 0
    else (if cart[0].Id() == id then 1 else 0) + CountId(cart[1..], id)
  }

  /** Counting lines by id works piecewise. */
  lemma {:induction false} CountIdAppend(a: seq<Line>, b: seq<Line>, id: int)
    ensures CountId(a + b, id) == CountId(a, id) + CountId(b, id)
  {
    if a == [] {
      assert a + b == b;
    } else {
      assert (a + b)[1..] == a[1..] + b;
      CountIdAppend(a[1..], b, id);
    }
  }

  /**
    `updateQuantity(id, q)`: a quantity below 1 is refused and the cart is
    returned as it was; otherwise every line with that id (duplicates
    included) gets quantity `q` and every other line is kept, in place.
   */
  function UpdateQuantity(cart: seq<Line>, id: int, q: int): (r: seq<Line>)
    ensures q < 1 ==> r == cart
    ensures |r| == |cart|
    ensures q >= 1 ==> forall k :: 0 <= k < |cart| && cart[k].Id() == id ==>
      r[k] == cart[k].(quantity := q)
    ensures forall k :: 0 <= k < |cart| && cart[k].Id() != id ==> r[k] == cart[k]
  {
    if q < 1 || cart == [] then cart
    else
      var head := if cart[0].Id() == id then cart[0].(quantity := q) else cart[0];
      [head] + UpdateQuantity(cart[1..], id, q)
  }

  /**
    `removeItem(id)`: the lines whose id differs, in their original order.
   */
  function RemoveItem(cart: seq<Line>, id: int): (r: seq<Line>)
    ensures !HasId(r, id)
    ensures |r| == |cart| - CountId(cart, id)
    ensures forall l :: l in r <==> l in cart && l.Id() != id
  {
    if cart == [] then []
    else if cart[0].Id() == id then RemoveItem(cart[1..], id)
    else [cart[0]] + RemoveItem(cart[1..], id)
  }

  /** Removal works piecewise, so it keeps the relative order of the surviving lines. */
  lemma {:induction false} RemoveItemAppend(a: seq<Line>, b: seq<Line>, id: int)
    ensures RemoveItem(a + b, id) == RemoveItem(a, id) + RemoveItem(b, id)
  {
    if a == [] {
      assert a + b == b;
    } else {
      assert (a + b)[1..] == a[1..] + b;
      RemoveItemAppend(a[1..], b, id);
    }
  }

  /** Removing an id the cart does not hold changes nothing. */
  lemma {:induction false} RemoveItemAbsent(cart: seq<Line>, id: int)
    requires !HasId(cart, id)
    ensures RemoveItem(cart, id) == cart
  {
    if cart != [] {
      assert !HasId(cart[1..], id) by {
        forall k | 0 <= k < |cart[1..]| ensures cart[1..][k].Id() != id {
          assert cart[1..][k] == cart[k + 1];
        }
      }
      RemoveItemAbsent(cart[1..], id);
      assert cart[0].Id() != id;
    }
  }

  /** Removing twice is removing once. */
  lemma RemoveItemIdempotent(cart: seq<Line>, id: int)
    ensures RemoveItem(RemoveItem(cart, id), id) == RemoveItem(cart, id)
  {
    RemoveItemAbsent(RemoveItem(cart, id), id);
  }

  /** Updating the quantity keeps every line's quantity at least 1. */
  lemma UpdateQuantityKeepsPositive(cart: seq<Line>, id: int, q: int)
    requires QuantitiesPositive(cart)
    ensures QuantitiesPositive(UpdateQuantity(cart, id, q))
  {
  }

  /** Removing lines keeps every remaining line's quantity at least 1. */
  lemma RemoveItemKeepsPositive(cart: seq<Line>, id: int)
    requires QuantitiesPositive(cart)
    ensures QuantitiesPositive(RemoveItem(cart, id))
  {
    var r := RemoveItem(cart, id);
    forall k | 0 <= k < |r| ensures r[k].quantity >= 1 {
      assert r[k] in cart;
    }
  }

  /** A quantity change never changes which lines are present, and a removal is not undone by it. */
  lemma {:induction false} UpdateAfterRemove(cart: seq<Line>, id: int, q: int)
    ensures UpdateQuantity(RemoveItem(cart, id), id, q) == RemoveItem(cart, id)
  {
    var r := RemoveItem(cart, id);
    var u := UpdateQuantity(r, id, q);
    forall k | 0 <= k < |r| ensures u[k] == r[k] {
      assert r[k].Id() != id by {
        if r[k].Id() == id { assert HasId(r, id); }
      }
    }
  }
}
