/**
  The promo-code box of the cart page: the code being typed, whether a coupon
  is applied, and the discount it locked in. A percentage discount is computed
  once, from the subtotal at the moment the code is applied, and is not
  recomputed when the cart changes afterwards.
 */
module Coupon {
  import opened Text

  datatype CouponState = CouponState(code: string, applied: bool, discount: real)

  /** The state before any code is entered, and after a coupon is removed. */
  const NoCoupon: CouponState := CouponState("", false, 0.0)

  /** The two known codes, in lower case. */
  const PercentCode: string := "spring25"
  const FlatCode: string := "welcome10"

  /** The flat discount of the welcome code. */
  const FlatDiscount: real := 10.0

  /** Which rule of the table a code selects, ignoring case. */
  datatype Rule = Percent25 | Flat10 | Unknown

  function RuleOf(code: string): (r: Rule)
    ensures r == Percent25 <==> ToLower(code) == PercentCode
    ensures r == Flat10 <==> ToLower(code) == FlatCode
  {
    var lower := ToLower(code);
    if lower == PercentCode then Percent25
    else if lower == FlatCode then Flat10
    else Unknown
  }

  /** `setCoupon(value)` from the promo-code input. */
  function EditCode(c: CouponState, value: string): (r: CouponState)
    ensures r.code == value
    ensures r.applied == c.applied && r.discount == c.discount
  {
    c.(code := value)
  }

  /**
    `applyCoupon()`: "spring25" locks in a quarter of the current subtotal,
    "welcome10" a flat 10, in either case marking the coupon applied; any
    other code clears the discount and the applied flag. The typed code is kept.
   */
  function ApplyCoupon(c: CouponState, subtotal: real): (r: CouponState)
    ensures r.code == c.code
    ensures r.applied <==> ToLower(c.code) == PercentCode || ToLower(c.code) == FlatCode
    ensures ToLower(c.code) == PercentCode ==> r.discount == subtotal / 4.0
    ensures ToLower(c.code) == FlatCode ==> r.discount == FlatDiscount
    ensures !r.applied ==> r.discount == 0.0
  {
    match RuleOf(c.code)
    case Percent25 => c.(applied := true, discount := subtotal * 0.25)
    case Flat10 => c.(applied := true, discount := FlatDiscount)
    case Unknown => c.(applied := false, discount := 0.0)
  }

  /** `removeCoupon()`: back to the empty, unapplied state whatever came before. */
  function RemoveCoupon(c: CouponState): (r: CouponState)
    ensures r.code == "" && !r.applied && r.discount == 0.0
  {
    NoCoupon
  }

  /**
    Exactly one of "no discount", "a quarter of the subtotal" and "a flat 10"
    is in force after applying a code.
   */
  lemma ApplyCouponExclusive(c: CouponState, subtotal: real)
    ensures var r := ApplyCoupon(c, subtotal);
      (!r.applied && r.discount == 0.0 && RuleOf(c.code) == Unknown)
      || (r.applied && r.discount == subtotal / 4.0 && RuleOf(c.code) == Percent25)
      || (r.applied && r.discount == FlatDiscount && RuleOf(c.code) == Flat10)
  {
  }

  /**
    Exactly one rule is in force at any time: no coupon and no discount, a
    percentage code with the discount it locked in, or the welcome code with
    its flat 10.
   */
  predicate Consistent(c: CouponState)
  {
    || (!c.applied && c.discount == 0.0)
    || (c.applied && RuleOf(c.code) == Percent25)
    || (c.applied && RuleOf(c.code) == Flat10 && c.discount == FlatDiscount)
  }

  /** Applying any code, removing the coupon, and typing while none is applied keep the state consistent. */
  lemma CouponHandlersKeepConsistent(c: CouponState, subtotal: real, value: string)
    ensures Consistent(ApplyCoupon(c, subtotal))
    ensures Consistent(RemoveCoupon(c))
    ensures Consistent(c) && !c.applied ==> Consistent(EditCode(c, value))
  {
    ApplyCouponExclusive(c, subtotal);
  }

  /**
    The code is matched without regard to case: "SPRING25", "Spring25" and
    every other mix of cases of the two codes are accepted, and nothing else is.
   */
  lemma RuleIgnoresCase(code: string)
    ensures RuleOf(code) == Percent25 <==>
      |code| == |PercentCode| &&
      forall k :: 0 <= k < |code| ==> code[k] == PercentCode[k] || code[k] == UpperChar(PercentCode[k])
    ensures RuleOf(code) == Flat10 <==>
      |code| == |FlatCode| &&
      forall k :: 0 <= k < |code| ==> code[k] == FlatCode[k] || code[k] == UpperChar(FlatCode[k])
  {
    ToLowerMatches(code, PercentCode);
    ToLowerMatches(code, FlatCode);
  }

  /** Two codes that differ only in case have the same effect. */
  lemma ApplyCouponCaseInsensitive(c: CouponState, code: string, subtotal: real)
    requires ToLower(code) == ToLower(c.code)
    ensures ApplyCoupon(c.(code := code), subtotal) == ApplyCoupon(c, subtotal).(code := code)
  {
  }

  /** Applying the same code twice against the same subtotal changes nothing the second time. */
  lemma ApplyCouponIdempotent(c: CouponState, subtotal: real)
    ensures ApplyCoupon(ApplyCoupon(c, subtotal), subtotal) == ApplyCoupon(c, subtotal)
  {
  }

  /** "SPRING25" on a subtotal of 100 takes 25 off; "WELCOME10" takes 10 off any subtotal. */
  lemma CouponExamples(subtotal: real)
    ensures ApplyCoupon(NoCoupon.(code := "SPRING25"), 100.0).discount == 25.0
    ensures ApplyCoupon(NoCoupon.(code := "WELCOME10"), subtotal).discount == 10.0
    ensures !ApplyCoupon(NoCoupon.(code := "SPRING2025"), subtotal).applied
  {
    RuleIgnoresCase("SPRING25");
    RuleIgnoresCase("WELCOME10");
  }
}
