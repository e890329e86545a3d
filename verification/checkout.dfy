/**
  The cart page's checkout wizard: the draft order form, the five steps
  (cart, customer information, shipping, payment, confirmation), the guards
  that must hold to leave a step, and order submission.

  A handler either moves the session to a new state or is blocked with the
  reason the page would report to the user; a blocked handler leaves the
  session exactly as it was.
 */
module Checkout {
  import opened Wrappers
  import opened Text
  import opened Catalog
  import opened Validation
  import Cart
  import Coupon
  import Pricing

  const CartStep: int := 1
  const CustomerStep: int := 2
  const ShippingStep: int := 3
  const PaymentStep: int := 4
  const ConfirmationStep: int := 5

  /** The delivery method value that requires a shipping address. */
  const Delivery: string := "delivery"

  /** The named inputs of the form. */
  datatype Field =
    | FirstName | LastName | Email | Phone
    | Address | City | Province | PostalCode
    | DeliveryMethod | DeliveryDate | DeliveryNote
    | CardNumber | CardName | Expiry | Cvv

  /** The draft order, one string per input. */
  datatype Form = Form(
    firstName: string, lastName: string, email: string, phone: string,
    address: string, city: string, province: string, postalCode: string,
    deliveryMethod: string, deliveryDate: string, deliveryNote: string,
    cardNumber: string, cardName: string, expiry: string, cvv: string)

  /** The draft as the page starts it: Toronto, Ontario, home delivery, everything else empty. */
  const InitialForm: Form :=
    Form("", "", "", "", "", "Toronto", "ON", "", Delivery, "", "", "", "", "", "")

  function Get(f: Form, k: Field): string
  {
    match k
    case FirstName => f.firstName
    case LastName => f.lastName
    case Email => f.email
    case Phone => f.phone
    case Address => f.address
    case City => f.city
    case Province => f.province
    case PostalCode => f.postalCode
    case DeliveryMethod => f.deliveryMethod
    case DeliveryDate => f.deliveryDate
    case DeliveryNote => f.deliveryNote
    case CardNumber => f.cardNumber
    case CardName => f.cardName
    case Expiry => f.expiry
    case Cvv => f.cvv
  }

  /** `handleInputChange`: the named input takes the new value and no other input changes. */
  function SetField(f: Form, k: Field, v: string): (r: Form)
    ensures Get(r, k) == v
    ensures forall other :: other != k ==> Get(r, other) == Get(f, other)
  {
    match k
    case FirstName => f.(firstName := v)
    case LastName => f.(lastName := v)
    case Email => f.(email := v)
    case Phone => f.(phone := v)
    case Address => f.(address := v)
    case City => f.(city := v)
    case Province => f.(province := v)
    case PostalCode => f.(postalCode := v)
    case DeliveryMethod => f.(deliveryMethod := v)
    case DeliveryDate => f.(deliveryDate := v)
    case DeliveryNote => f.(deliveryNote := v)
    case CardNumber => f.(cardNumber := v)
    case CardName => f.(cardName := v)
    case Expiry => f.(expiry := v)
    case Cvv => f.(cvv := v)
  }

  /** Two forms that agree on every input are the same form. */
  lemma FormExtensionality(f: Form, g: Form)
    requires forall k :: Get(f, k) == Get(g, k)
    ensures f == g
  {
    assert Get(f, FirstName) == Get(g, FirstName) && Get(f, LastName) == Get(g, LastName);
    assert Get(f, Email) == Get(g, Email) && Get(f, Phone) == Get(g, Phone);
    assert Get(f, Address) == Get(g, Address) && Get(f, City) == Get(g, City);
    assert Get(f, Province) == Get(g, Province) && Get(f, PostalCode) == Get(g, PostalCode);
    assert Get(f, DeliveryMethod) == Get(g, DeliveryMethod);
    assert Get(f, DeliveryDate) == Get(g, DeliveryDate) && Get(f, DeliveryNote) == Get(g, DeliveryNote);
    assert Get(f, CardNumber) == Get(g, CardNumber) && Get(f, CardName) == Get(g, CardName);
    assert Get(f, Expiry) == Get(g, Expiry) && Get(f, Cvv) == Get(g, Cvv);
  }

  /** Re-entering an input's current value changes nothing; of two edits to one input the later wins. */
  lemma SetFieldLaws(f: Form, k: Field, v: string, w: string)
    ensures SetField(f, k, Get(f, k)) == f
    ensures SetField(SetField(f, k, v), k, w) == SetField(f, k, w)
  {
    FormExtensionality(SetField(f, k, Get(f, k)), f);
    FormExtensionality(SetField(SetField(f, k, v), k, w), SetField(f, k, w));
  }

  /** The whole state of the cart page. */
  datatype Session = Session(cart: seq<Line>, step: int, coupon: Coupon.CouponState, form: Form)

  /** The page on first render, with the cart restored from storage. */
  function InitialSession(saved: seq<Line>): (r: Session)
    ensures r.cart == saved && r.step == CartStep
    ensures !r.coupon.applied && r.coupon.discount == 0.0 && r.coupon.code == ""
    ensures r.form.deliveryMethod == Delivery && !CustomerFilled(r.form) && !PaymentFilled(r.form)
    ensures r.form.city == "Toronto" && r.form.province == "ON"
    ensures forall k :: k != City && k != Province && k != DeliveryMethod ==> Get(r.form, k) == ""
  {
    Session(saved, CartStep, Coupon.NoCoupon, InitialForm)
  }

  /** Why a handler refused to act: one alert of the page each. */
  datatype Rejection =
    | EmptyCart
    | MissingCustomerInfo | InvalidEmail
    | MissingShippingInfo | InvalidPostalCode | MissingDate
    | MissingPaymentInfo | InvalidCardNumber | InvalidExpiry | InvalidCvv

  /** What a guarded handler does: move to a new state, or refuse and change nothing. */
  datatype Outcome = Moved(next: Session) | Blocked(reason: Rejection)

  /** The session after a guarded handler ran in state `s`. */
  function After(s: Session, o: Outcome): Session
  {
    match o
    case Moved(next) => next
    case Blocked(_) => s
  }

  // The guards, each a conjunction of the page's checks.

  predicate CustomerFilled(f: Form)
  {
    f.firstName != "" && f.lastName != "" && f.email != "" && f.phone != ""
  }

  predicate CustomerOk(f: Form)
  {
    CustomerFilled(f) && LooksLikeEmail(f.email)
  }

  predicate ShippingFilled(f: Form)
  {
    f.address != "" && f.city != "" && f.province != "" && f.postalCode != ""
  }

  /** Address checks apply to delivery only; a date is always needed. */
  predicate ShippingOk(f: Form)
  {
    (f.deliveryMethod == Delivery ==> ShippingFilled(f) && PostalCodeOk(f.postalCode))
    && f.deliveryDate != ""
  }

  predicate PaymentFilled(f: Form)
  {
    f.cardNumber != "" && f.cardName != "" && f.expiry != "" && f.cvv != ""
  }

  predicate PaymentOk(f: Form)
  {
    PaymentFilled(f) && CardNumberOk(f.cardNumber) && ExpiryOk(f.expiry) && CvvOk(f.cvv)
  }

  // The checks in the order the page makes them; the first failing one is reported.

  function CustomerCheck(f: Form): (r: Option<Rejection>)
    ensures r.None? <==> CustomerOk(f)
    ensures !CustomerFilled(f) ==> r == Some(MissingCustomerInfo)
    ensures CustomerFilled(f) && !LooksLikeEmail(f.email) ==> r == Some(InvalidEmail)
  {
    if !CustomerFilled(f) then Some(MissingCustomerInfo)
    else if !LooksLikeEmail(f.email) then Some(InvalidEmail)
    else None
  }

  function ShippingCheck(f: Form): (r: Option<Rejection>)
    ensures r.None? <==> ShippingOk(f)
    ensures f.deliveryMethod == Delivery && !ShippingFilled(f) ==> r == Some(MissingShippingInfo)
    ensures f.deliveryMethod != Delivery && f.deliveryDate == "" ==> r == Some(MissingDate)
  {
    if f.deliveryMethod == Delivery && !ShippingFilled(f) then Some(MissingShippingInfo)
    else if f.deliveryMethod == Delivery && !PostalCodeOk(f.postalCode) then Some(InvalidPostalCode)
    else if f.deliveryDate == "" then Some(MissingDate)
    else None
  }

  function PaymentCheck(f: Form): (r: Option<Rejection>)
    ensures r.None? <==> PaymentOk(f)
    ensures !PaymentFilled(f) ==> r == Some(MissingPaymentInfo)
  {
    if !PaymentFilled(f) then Some(MissingPaymentInfo)
    else if !CardNumberOk(f.cardNumber) then Some(InvalidCardNumber)
    else if !ExpiryOk(f.expiry) then Some(InvalidExpiry)
    else if !CvvOk(f.cvv) then Some(InvalidCvv)
    else None
  }

  /**
    `continueToNextStep()`: leaving the cart needs a non-empty cart, leaving
    customer information needs the customer checks, leaving shipping needs
    the shipping checks; any other step advances unchecked. When the guard
    holds the step goes up by exactly one and nothing else changes.
   */
  function ContinueToNextStep(s: Session): (r: Outcome)
    ensures r.Moved? ==> r.next == s.(step := s.step + 1)
    ensures s.step == CartStep ==> (r.Blocked? <==> s.cart == [])
    ensures s.step == CustomerStep ==> (r.Blocked? <==> !CustomerOk(s.form))
    ensures s.step == ShippingStep ==> (r.Blocked? <==> !ShippingOk(s.form))
    ensures s.step < CartStep || s.step > ShippingStep ==> r.Moved?
  {
    var check :=
      if s.step == CartStep then (if |s.cart| == 0 then Some(EmptyCart) else None)
      else if s.step == CustomerStep then CustomerCheck(s.form)
      else if s.step == ShippingStep then ShippingCheck(s.form)
      else None;
    match check
    case Some(why) => Blocked(why)
    case None => Moved(s.(step := s.step + 1))
  }

  /** `goBackToPreviousStep()`: one step back, unconditionally. */
  function GoBackToPreviousStep(s: Session): (r: Session)
    ensures r.step == s.step - 1
    ensures r.cart == s.cart && r.form == s.form && r.coupon == s.coupon
  {
    s.(step := s.step - 1)
  }

  /** Going back undoes a successful step forward. */
  lemma BackUndoesContinue(s: Session)
    requires ContinueToNextStep(s).Moved?
    ensures GoBackToPreviousStep(ContinueToNextStep(s).next) == s
  {
  }

  /**
    `submitOrder()`: with all payment checks passing the cart is emptied and
    the confirmation step shown; otherwise nothing changes. The coupon and the
    draft are kept.
   */
  function SubmitOrder(s: Session): (r: Outcome)
    ensures r.Moved? <==> PaymentOk(s.form)
    ensures r.Moved? ==> r.next.cart == [] && r.next.step == ConfirmationStep
    ensures r.Moved? ==> r.next.form == s.form && r.next.coupon == s.coupon
  {
    match PaymentCheck(s.form)
    case Some(why) => Blocked(why)
    case None => Moved(s.(cart := [], step := ConfirmationStep))
  }

  /**
    The emptiness checks on the payment fields are redundant except for the
    card holder's name: the format checks already refuse an empty card number,
    expiry or CVV.
   */
  lemma PaymentEmptinessChecks(f: Form)
    ensures PaymentOk(f) <==>
      f.cardName != "" && CardNumberOk(f.cardNumber) && ExpiryOk(f.expiry) && CvvOk(f.cvv)
  {
    if CardNumberOk(f.cardNumber) {
      assert |StripWhitespace(f.cardNumber)| == 16;
      assert f.cardNumber != "";
    }
  }

  /** The scenario of a well-formed payment: the order goes through and the cart is emptied. */
  lemma SubmitScenario(s: Session)
    requires s.step == PaymentStep
    requires s.form.cardNumber == "4111111111111111" && s.form.cardName == "Jane Doe"
    requires s.form.expiry == "12/26" && s.form.cvv == "123"
    ensures After(s, SubmitOrder(s)).step == ConfirmationStep
    ensures After(s, SubmitOrder(s)).cart == []
  {
    CardNumberAccepted();
    ExpiryCvvExamples();
  }

  /** A card number of three digits is refused and the page stays on the payment step. */
  lemma SubmitShortCardScenario(s: Session)
    requires s.step == PaymentStep && s.form.cardNumber == "123"
    ensures After(s, SubmitOrder(s)) == s
  {
    CardNumberTooShort("123");
  }

  // The cart and coupon handlers, lifted to the session.

  function SessionTotals(s: Session): Pricing.Totals
  {
    Pricing.ComputeTotals(s.cart, s.form.deliveryMethod, s.coupon.discount)
  }

  function UpdateQuantity(s: Session, id: int, q: int): (r: Session)
    ensures r.cart == Cart.UpdateQuantity(s.cart, id, q)
    ensures r.step == s.step && r.coupon == s.coupon && r.form == s.form
  {
    s.(cart := Cart.UpdateQuantity(s.cart, id, q))
  }

  function RemoveItem(s: Session, id: int): (r: Session)
    ensures r.cart == Cart.RemoveItem(s.cart, id)
    ensures r.step == s.step && r.coupon == s.coupon && r.form == s.form
  {
    s.(cart := Cart.RemoveItem(s.cart, id))
  }

  /** Applying a coupon reads the subtotal of the cart at that moment. */
  function ApplyCoupon(s: Session): (r: Session)
    ensures r.coupon == Coupon.ApplyCoupon(s.coupon, Pricing.Sum(s.cart))
    ensures r.cart == s.cart && r.step == s.step && r.form == s.form
  {
    Pricing.SubtotalIsSum(s.cart);
    s.(coupon := Coupon.ApplyCoupon(s.coupon, Pricing.Subtotal(s.cart)))
  }

  // Which control the page offers at which step, and the resulting dispatch.

  /** A user action on the cart page. */
  datatype Action =
    | Edit(field: Field, value: string)
    | EditCode(code: string)
    | Apply
    | RemoveCode
    | Decrease(line: int)
    | Increase(line: int)
    | Remove(line: int)
    | Next
    | Back
    | Submit

  /** The inputs rendered at each step; the province input is read-only and never changes. */
  predicate FieldShown(s: Session, k: Field)
    ensures FieldShown(s, k) ==> CustomerStep <= s.step <= PaymentStep && k != Province
    ensures FieldShown(s, k) && (k == Address || k == City || k == PostalCode) ==>
      s.step == ShippingStep && s.form.deliveryMethod == Delivery
  {
    if s.step == CustomerStep then k == FirstName || k == LastName || k == Email || k == Phone
    else if s.step == ShippingStep then
      k == DeliveryMethod || k == DeliveryDate || k == DeliveryNote
      || (s.form.deliveryMethod == Delivery && (k == Address || k == City || k == PostalCode))
    else if s.step == PaymentStep then k == CardNumber || k == CardName || k == Expiry || k == Cvv
    else false
  }

  /** Whether the page offers action `a` in state `s`. */
  predicate Offered(s: Session, a: Action)
    ensures Offered(s, a) ==> CartStep <= s.step <= PaymentStep
    ensures Offered(s, a) && (a.EditCode? || a.Apply? || a.RemoveCode? || a.Decrease? || a.Increase? || a.Remove?) ==>
      s.step == CartStep && s.cart != []
  {
    var onCart := s.step == CartStep && s.cart != [];
    match a
    case Edit(k, _) => FieldShown(s, k)
    case EditCode(_) => onCart && !s.coupon.applied
    case Apply => onCart && !s.coupon.applied && TrimNonEmpty(s.coupon.code)
    case RemoveCode => onCart && s.coupon.applied
    case Decrease(i) => onCart && 0 <= i < |s.cart|
    case Increase(i) => onCart && 0 <= i < |s.cart|
    case Remove(i) => onCart && 0 <= i < |s.cart|
    case Next => onCart || s.step == CustomerStep || s.step == ShippingStep
    case Back => CustomerStep <= s.step <= PaymentStep
    case Submit => s.step == PaymentStep
  }

  /** The state after action `a`; an action the page does not offer changes nothing. */
  function Dispatch(s: Session, a: Action): (r: Session)
    ensures !Offered(s, a) ==> r == s
    ensures r.step != s.step ==> a.Next? || a.Back? || a.Submit?
    ensures r.cart != s.cart ==> a.Decrease? || a.Increase? || a.Remove? || a.Submit?
    ensures r.coupon != s.coupon ==> a.EditCode? || a.Apply? || a.RemoveCode?
    ensures r.form != s.form ==> a.Edit?
  {
    if !Offered(s, a) then s
    else match a
      case Edit(k, v) => s.(form := SetField(s.form, k, v))
      case EditCode(v) => s.(coupon := Coupon.EditCode(s.coupon, v))
      case Apply => ApplyCoupon(s)
      case RemoveCode => s.(coupon := Coupon.RemoveCoupon(s.coupon))
      case Decrease(i) => UpdateQuantity(s, s.cart[i].Id(), s.cart[i].quantity - 1)
      case Increase(i) => UpdateQuantity(s, s.cart[i].Id(), s.cart[i].quantity + 1)
      case Remove(i) => RemoveItem(s, s.cart[i].Id())
      case Next => After(s, ContinueToNextStep(s))
      case Back => GoBackToPreviousStep(s)
      case Submit => After(s, SubmitOrder(s))
  }

  function Run(s: Session, actions: seq<Action>): Session
    decreases |actions|
  {
    if actions == [] then s else Run(Dispatch(s, actions[0]), actions[1..])
  }

  /** `n` times the same action. */
  function Repeat(a: Action, n: nat): (r: seq<Action>)
    ensures |r| == n && forall k :: 0 <= k < n ==> r[k] == a
  {
    if n == 0 then [] else [a] + Repeat(a, n - 1)
  }

  /** Running two sequences of actions one after the other. */
  lemma {:induction false} RunAppend(s: Session, xs: seq<Action>, ys: seq<Action>)
    ensures Run(s, xs + ys) == Run(Run(s, xs), ys)
    decreases |xs|
  {
    if xs == [] {
      assert xs + ys == ys;
    } else {
      assert (xs + ys)[0] == xs[0] && (xs + ys)[1..] == xs[1..] + ys;
      RunAppend(Dispatch(s, xs[0]), xs[1..], ys);
    }
  }

  /** Pressing the minus button of a single line n times, while it stays above 1, lowers its quantity by n. */
  lemma {:induction false} DecreaseRepeatedly(s: Session, p: Product, q: int, n: nat)
    requires s.step == CartStep && s.cart == [Line(p, q)] && n < q
    ensures Run(s, Repeat(Decrease(0), n)) == s.(cart := [Line(p, q - n)])
    decreases n
  {
    if n > 0 {
      var s1 := Dispatch(s, Decrease(0));
      assert Cart.UpdateQuantity(s.cart, p.id, q - 1)[0] == Line(p, q - 1);
      assert s1 == s.(cart := [Line(p, q - 1)]);
      assert Repeat(Decrease(0), n)[1..] == Repeat(Decrease(0), n - 1);
      DecreaseRepeatedly(s1, p, q - 1, n - 1);
    }
  }

  /** Typing "spring25" and pressing Apply with ten bouquets at 100 locks in 250 off. */
  lemma SpringOnTenBouquets()
    ensures Run(InitialSession([Line(SummerBloom, 10)]), [EditCode(Coupon.PercentCode), Apply])
      == InitialSession([Line(SummerBloom, 10)]).(coupon := Coupon.CouponState(Coupon.PercentCode, true, 250.0))
  {
    var s0 := InitialSession([Line(SummerBloom, 10)]);
    var s1 := Dispatch(s0, EditCode(Coupon.PercentCode));
    assert !IsWhitespace(Coupon.PercentCode[0]);
    assert Coupon.RuleOf(Coupon.PercentCode) == Coupon.Percent25;
    assert Pricing.Sum(s1.cart) == 1000.0;
    var s2 := Dispatch(s1, Apply);
    var start: seq<Action> := [EditCode(Coupon.PercentCode), Apply];
    assert start[1..] == [Apply];
    assert Run(s1, [Apply]) == Run(s2, []);
  }

  /**
    The percentage discount is a snapshot. With ten "Summer Bloom" at 100 in
    the cart, typing "spring25", pressing Apply and then pressing the minus
    button nine times leaves one bouquet, a locked-in discount of 250 and a
    total of -157.50.
   */
  lemma SnapshotDiscountOutlivesCart()
    ensures
      var s := Run(InitialSession([Line(SummerBloom, 10)]),
        [EditCode(Coupon.PercentCode), Apply] + Repeat(Decrease(0), 9));
      && s.step == CartStep && s.cart == [Line(SummerBloom, 1)]
      && s.coupon.applied && s.coupon.discount == 250.0
      && SessionTotals(s).subtotal == 100.0
      && SessionTotals(s).total == -157.5
  {
    var s0 := InitialSession([Line(SummerBloom, 10)]);
    var s2 := s0.(coupon := Coupon.CouponState(Coupon.PercentCode, true, 250.0));
    var minus := Repeat(Decrease(0), 9);
    SpringOnTenBouquets();
    RunAppend(s0, [EditCode(Coupon.PercentCode), Apply], minus);
    DecreaseRepeatedly(s2, SummerBloom, 10, 9);
    OneBouquetAfterSnapshot(s2.(cart := [Line(SummerBloom, 1)]));
  }

  /** One bouquet at 100, delivered, with 250 locked in: 12 delivery, -19.50 tax, -157.50 in all. */
  lemma OneBouquetAfterSnapshot(s: Session)
    requires s.cart == [Line(SummerBloom, 1)] && s.coupon.discount == 250.0
    requires s.form.deliveryMethod == Delivery
    ensures SessionTotals(s).subtotal == 100.0 && SessionTotals(s).deliveryFee == 12.0
    ensures SessionTotals(s).tax == -19.5 && SessionTotals(s).total == -157.5
  {
    assert Pricing.Sum(s.cart) == 100.0;
  }

  /** Exactly one coupon rule is in force after every action the page offers. */
  lemma DispatchKeepsCoupon(s: Session, a: Action)
    requires Coupon.Consistent(s.coupon)
    ensures Coupon.Consistent(Dispatch(s, a).coupon)
  {
    Coupon.CouponHandlersKeepConsistent(s.coupon, Pricing.Sum(s.cart), if a.EditCode? then a.code else "");
  }

  /**
    No sequence of actions leaves two coupon rules in force, or a discount
    without an applied coupon. An applied spring25 discount may still exceed
    the current subtotal: it is a snapshot (see `SnapshotDiscountOutlivesCart`).
   */
  lemma {:induction false} RunKeepsCoupon(s: Session, actions: seq<Action>)
    requires Coupon.Consistent(s.coupon)
    ensures Coupon.Consistent(Run(s, actions).coupon)
    decreases |actions|
  {
    if actions != [] {
      DispatchKeepsCoupon(s, actions[0]);
      RunKeepsCoupon(Dispatch(s, actions[0]), actions[1..]);
    }
  }

  /** The minus button stops at 1 and nothing else lowers a quantity, so every action keeps every line's quantity at least 1. */
  lemma DispatchKeepsPositive(s: Session, a: Action)
    requires Cart.QuantitiesPositive(s.cart)
    ensures Cart.QuantitiesPositive(Dispatch(s, a).cart)
  {
    if Offered(s, a) {
      match a
      case Decrease(i) => Cart.UpdateQuantityKeepsPositive(s.cart, s.cart[i].Id(), s.cart[i].quantity - 1);
      case Increase(i) => Cart.UpdateQuantityKeepsPositive(s.cart, s.cart[i].Id(), s.cart[i].quantity + 1);
      case Remove(i) => Cart.RemoveItemKeepsPositive(s.cart, s.cart[i].Id());
      case _ =>
    }
  }

  /** No sequence of actions drives a cart line's quantity below 1. */
  lemma {:induction false} RunKeepsPositive(s: Session, actions: seq<Action>)
    requires Cart.QuantitiesPositive(s.cart)
    ensures Cart.QuantitiesPositive(Run(s, actions).cart)
    decreases |actions|
  {
    if actions != [] {
      DispatchKeepsPositive(s, actions[0]);
      RunKeepsPositive(Dispatch(s, actions[0]), actions[1..]);
    }
  }

  /**
    The wizard's invariant: the step is one of the five, and every step
    behind the current one had its guard met by data that has not changed
    since; the confirmation step is reached only with an emptied cart and a
    valid payment.
   */
  predicate Wizard(s: Session)
  {
    && CartStep <= s.step <= ConfirmationStep
    && (CustomerStep <= s.step <= PaymentStep ==> s.cart != [])
    && (ShippingStep <= s.step ==> CustomerOk(s.form))
    && (PaymentStep <= s.step ==> ShippingOk(s.form))
    && (s.step == ConfirmationStep ==> s.cart == [] && PaymentOk(s.form))
  }

  lemma InitialSessionWizard(saved: seq<Line>)
    ensures Wizard(InitialSession(saved))
  {
  }

  /** The customer-information inputs of two drafts agree. */
  predicate SameCustomer(f: Form, g: Form)
  {
    f.firstName == g.firstName && f.lastName == g.lastName && f.email == g.email && f.phone == g.phone
  }

  /** The shipping inputs that the shipping guard reads agree. */
  predicate SameShipping(f: Form, g: Form)
  {
    && f.address == g.address && f.city == g.city && f.province == g.province
    && f.postalCode == g.postalCode && f.deliveryMethod == g.deliveryMethod
    && f.deliveryDate == g.deliveryDate
  }

  /** An input of the shipping or payment step does not touch the customer inputs. */
  lemma EditKeepsCustomer(f: Form, k: Field, v: string)
    requires k !in {FirstName, LastName, Email, Phone}
    ensures SameCustomer(SetField(f, k, v), f)
  {
  }

  /** An input of the payment step does not touch the shipping inputs. */
  lemma EditKeepsShipping(f: Form, k: Field, v: string)
    requires k in {CardNumber, CardName, Expiry, Cvv}
    ensures SameShipping(SetField(f, k, v), f)
  {
  }

  /** Editing an input shown at the current step keeps the guards of the earlier steps. */
  lemma EditKeepsWizard(s: Session, k: Field, v: string)
    requires Wizard(s) && FieldShown(s, k)
    ensures Wizard(s.(form := SetField(s.form, k, v)))
  {
    if s.step == ShippingStep || s.step == PaymentStep {
      EditKeepsCustomer(s.form, k, v);
    }
    if s.step == PaymentStep {
      EditKeepsShipping(s.form, k, v);
    }
  }

  /** Every action the page offers keeps the wizard invariant. */
  lemma DispatchKeepsWizard(s: Session, a: Action)
    requires Wizard(s)
    ensures Wizard(Dispatch(s, a))
  {
    if Offered(s, a) && a.Edit? {
      EditKeepsWizard(s, a.field, a.value);
    }
  }

  /** Whatever the user does from the first render, the invariant holds. */
  lemma {:induction false} RunKeepsWizard(s: Session, actions: seq<Action>)
    requires Wizard(s)
    ensures Wizard(Run(s, actions))
    decreases |actions|
  {
    if actions != [] {
      DispatchKeepsWizard(s, actions[0]);
      RunKeepsWizard(Dispatch(s, actions[0]), actions[1..]);
    }
  }

  /**
    An order can only be confirmed after every step's checks passed: on the
    confirmation page the customer, shipping and payment data are all valid
    and the cart is empty.
   */
  lemma ConfirmedOrderIsValid(saved: seq<Line>, actions: seq<Action>)
    ensures var s := Run(InitialSession(saved), actions);
      s.step == ConfirmationStep ==>
        s.cart == [] && CustomerOk(s.form) && ShippingOk(s.form) && PaymentOk(s.form)
  {
    RunKeepsWizard(InitialSession(saved), actions);
  }

  /** The wizard is linear: no action moves more than one step, in either direction. */
  lemma DispatchMovesOneStepAtMost(s: Session, a: Action)
    ensures s.step - 1 <= Dispatch(s, a).step <= s.step + 1
  {
  }

  /** Nothing the page offers leaves the confirmation step or changes anything there. */
  lemma ConfirmationIsFinal(s: Session, a: Action)
    requires s.step == ConfirmationStep
    ensures Dispatch(s, a) == s
  {
  }
}
