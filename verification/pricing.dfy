/**
  The cart page's derived amounts: subtotal, delivery fee, 13% HST and total.
  Amounts are exact reals; display rounding to cents is not part of the model.
 */
module Pricing {
  import opened Catalog
  import Cart

  /** The flat delivery fee, charged on delivery orders of at most 100. */
  const FlatDeliveryFee: real := 12.0

  /** Orders whose subtotal is strictly above this are delivered free. */
  const FreeDeliveryThreshold: real := 100.0

  /** Ontario's harmonized sales tax, 13%. */
  const TaxRate: real := 0.13

  /** What one line costs: unit price times quantity. */
  function LineAmount(l: Line): real
  {
    l.product.price * l.quantity as real
  }

  /**
    Reference definition of the cart's value: the sum of the line amounts,
    first line plus the rest.
   */
  function Sum(cart: seq<Line>): real
  {
    if cart == [] then 0.0 else LineAmount(cart[0]) + Sum(cart[1..])
  }

  /** `cart.reduce((total, item) => total + item.price * item.quantity, acc)`: a left fold. */
  function Reduce(acc: real, cart: seq<Line>): (r: real)
    ensures PricesNonNegative(cart) && Cart.QuantitiesPositive(cart) ==> r >= acc
    decreases cart
  {
    if cart == [] then acc else Reduce(acc + LineAmount(cart[0]), cart[1..])
  }

  /** The subtotal as the page computes it, folding from 0. */
  function Subtotal(cart: seq<Line>): (r: real)
    ensures r == Sum(cart)
  {
    ReduceIsSum(0.0, cart);
    Reduce(0.0, cart)
  }

  /** The page's left fold agrees with the reference sum, whatever the starting value. */
  lemma {:induction false} ReduceIsSum(acc: real, cart: seq<Line>)
    ensures Reduce(acc, cart) == acc + Sum(cart)
    decreases cart
  {
    if cart != [] {
      ReduceIsSum(acc + LineAmount(cart[0]), cart[1..]);
    }
  }

  /** The subtotal is the sum of price times quantity over all lines. */
  lemma SubtotalIsSum(cart: seq<Line>)
    ensures Subtotal(cart) == Sum(cart)
  {
    ReduceIsSum(0.0, cart);
  }

  /** The value of a cart is the value of its parts; the order of lines does not matter for it. */
  lemma {:induction false} SumAppend(a: seq<Line>, b: seq<Line>)
    ensures Sum(a + b) == Sum(a) + Sum(b)
  {
    if a == [] {
      assert a + b == b;
    } else {
      assert (a + b)[1..] == a[1..] + b;
      SumAppend(a[1..], b);
    }
  }

  /** Total value of the lines carrying product id `id`. */
  function AmountOf(cart: seq<Line>, id: int): real
  {
    if cart == [] then 0.0
    else (if cart[0].Id() == id then LineAmount(cart[0]) else 0.0) + AmountOf(cart[1..], id)
  }

  /** Removing a product's lines lowers the subtotal by exactly what those lines cost. */
  lemma {:induction false} SumRemoveItem(cart: seq<Line>, id: int)
    ensures Sum(Cart.RemoveItem(cart, id)) == Sum(cart) - AmountOf(cart, id)
  {
    if cart != [] {
      SumRemoveItem(cart[1..], id);
    }
  }

  /** Prices are never negative. */
  predicate PricesNonNegative(cart: seq<Line>)
  {
    forall k :: 0 <= k < |cart| ==> cart[k].product.price >= 0.0
  }

  /** With non-negative prices and positive quantities the subtotal is not negative. */
  lemma {:induction false} SumNonNegative(cart: seq<Line>)
    requires PricesNonNegative(cart) && Cart.QuantitiesPositive(cart)
    ensures Sum(cart) >= 0.0
  {
    if cart != [] {
      SumNonNegative(cart[1..]);
      assert LineAmount(cart[0]) >= 0.0;
    }
  }

  /**
    The delivery fee: nothing for pickup, nothing for a subtotal above 100,
    the flat fee otherwise (any method other than "pickup" counts as delivery).
   */
  function DeliveryFee(deliveryMethod: string, subtotal: real): (fee: real)
    ensures fee == 0.0 || fee == FlatDeliveryFee
    ensures fee == 0.0 <==> deliveryMethod == "pickup" || subtotal > FreeDeliveryThreshold
  {
    if deliveryMethod == "pickup" then 0.0
    else if subtotal > FreeDeliveryThreshold then 0.0
    else FlatDeliveryFee
  }

  /** The four amounts the order summary shows. */
  datatype Totals = Totals(subtotal: real, deliveryFee: real, tax: real, total: real)

  /**
    Subtotal, fee, tax on the discounted subtotal, and the total. The total is
    the discounted subtotal with tax added, plus the fee.
   */
  function ComputeTotals(cart: seq<Line>, deliveryMethod: string, discount: real): (t: Totals)
    ensures t.subtotal == Sum(cart)
    ensures t.deliveryFee == DeliveryFee(deliveryMethod, t.subtotal)
    ensures t.tax == (t.subtotal - discount) * 13.0 / 100.0
    ensures t.total == t.subtotal + t.deliveryFee + t.tax - discount
    ensures t.total == (t.subtotal - discount) * 113.0 / 100.0 + t.deliveryFee
  {
    var subtotal := Subtotal(cart);
    SubtotalIsSum(cart);
    var fee := DeliveryFee(deliveryMethod, subtotal);
    var tax := (subtotal - discount) * TaxRate;
    Totals(subtotal, fee, tax, subtotal + fee + tax - discount)
  }

  /** A discount no larger than the subtotal can never make the total negative. */
  lemma TotalNonNegative(cart: seq<Line>, deliveryMethod: string, discount: real)
    requires 0.0 <= discount <= Sum(cart)
    ensures ComputeTotals(cart, deliveryMethod, discount).total >= 0.0
  {
  }

  /** Two "Pastel Dream" at 65 for delivery: free delivery, 16.90 tax, 146.90 total. */
  lemma ScenarioFreeDelivery()
    ensures ComputeTotals([Line(Products[0], 2)], "delivery", 0.0)
      == Totals(130.0, 0.0, 16.9, 146.9)
  {
    var cart := [Line(Products[0], 2)];
    assert Sum(cart) == 130.0;
  }

  /** One "Petite Posy" at 45 for delivery: 12 fee, 5.85 tax, 62.85 total. */
  lemma ScenarioFlatFee()
    ensures ComputeTotals([Line(Products[5], 1)], "delivery", 0.0)
      == Totals(45.0, 12.0, 5.85, 62.85)
  {
    var cart := [Line(Products[5], 1)];
    assert Sum(cart) == 45.0;
  }
}
