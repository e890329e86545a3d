# Happy Snail florist: cart, pricing and checkout, in Dafny

This project models the logic of the Happy Snail florist site: the home page's
shop (catalog, category filter, product modal, an in-memory cart that
`addToCart` appends to) and the cart page (quantity changes and removals,
subtotal, delivery fee, 13% HST and total, promo codes, and the five-step
checkout wizard with its field checks and order submission).

Everything is a pure function over immutable data:

- `Catalog`: products, cart lines (a product plus a quantity) and the nine-product catalog.
- `Cart`: `updateQuantity` and `removeItem` as list transforms.
- `Pricing`: subtotal, delivery fee, tax and total, with amounts as exact reals.
- `Coupon`: the promo-code box, with the two codes "spring25" and "welcome10".
- `Text` and `Validation`: the page's regular expressions, written as character
  predicates. These cover `\s`, `\d`, `[A-Za-z]`, the email search, the
  Canadian postal code, the 16-digit card number, MM/YY expiry and the CVV.
- `Checkout`: the draft form, the session (cart, step, coupon, form), the
  step guards, `submitOrder`, and `Dispatch`. `Dispatch` describes which
  control the page renders at which step, which is how the wizard invariant
  is stated.
- `Dates`: the available delivery dates, as day offsets from today.
- `Home`: the home page's modal, counter, `addToCart` and category filter.

In a few places the code behaves in ways a reader might not expect. The model follows the code:

- The cart can hold several lines with the same product id. `addToCart`
  appends and never merges (`Home.AddToCartDoesNotMerge`, `Home.SameProductTwice`).
  `updateQuantity` then sets every matching line, and `removeItem` drops them all.
- Fourteen consecutive days contain each weekday exactly twice. So the date
  list always has exactly 10 entries, never 9 (`Dates.AlwaysTenDates`).
- `continueToNextStep` checks nothing on steps other than 1, 2 and 3. The page
  never offers it there, because step 4 shows "Complete Order" instead.
- The delivery method is kept as the string the page stores. The fee is waived
  only for "pickup", and the address checks apply only to "delivery".

The spring25 discount is a snapshot of the subtotal at the moment it is
applied. Lowering quantities afterwards can leave a discount larger than the
subtotal. The total is 1.13 times (subtotal minus discount) plus the delivery
fee, so it becomes negative once the discount exceeds the subtotal by more than
the fee divided by 1.13. `Checkout.SnapshotDiscountOutlivesCart`
reaches a total of -157.50 with the controls the page offers: type "spring25",
press Apply, then press the minus button nine times.

## Model

| member | source | states |
|---|---|---|
| Catalog.CatalogIdsArePositions | src/app/page.tsx:241-314 | the catalog has nine products and the product at position k has id k+1 |
| Catalog.CatalogWellFormed | src/app/page.tsx:241-314 | no two catalog products share an id, and every price is positive |
| Text.ToLower | src/app/cart/page.tsx:103-107 | `toLowerCase()` keeps the length, leaves no upper-case ASCII letter and keeps every character that is not one |
| Text.LowerCharMatches | src/app/cart/page.tsx:103-107 | a character lower-cases to a non-upper-case d exactly when it is d or d's upper-case form |
| Text.ToLowerMatches | src/app/cart/page.tsx:103-107 | `toLowerCase()` equals a lower-case code exactly when the input spells that code with any mix of cases |
| Text.ToLowerIdempotent | src/app/cart/page.tsx:103-107 | lower-casing is idempotent and leaves no upper-case ASCII letter |
| Text.StripWhitespace | src/app/cart/page.tsx:195 | `replace(/\s/g, '')` leaves no whitespace and never lengthens the string |
| Text.StripWhitespaceAppend | src/app/cart/page.tsx:195 | stripping distributes over concatenation, so the kept characters stay in order |
| Text.StripWhitespaceFixed | src/app/cart/page.tsx:195 | stripping leaves a string unchanged exactly when it has no whitespace |
| Text.StripWhitespaceKeeps | src/app/cart/page.tsx:195 | every non-whitespace character survives stripping as often as it occurred |
| Cart.CountIdAppend | src/app/page.tsx:219-223 | the number of lines with an id is additive over concatenated carts |
| Cart.UpdateQuantity | src/app/cart/page.tsx:79-84 | a quantity below 1 leaves the cart unchanged; otherwise length and order are kept, every line with the id (duplicates included) gets the new quantity and all other lines are untouched |
| Cart.RemoveItem | src/app/cart/page.tsx:92-93 | no remaining line has the id, exactly the matching lines are dropped, and a line survives iff it was there with another id |
| Cart.RemoveItemAppend | src/app/cart/page.tsx:93 | removal distributes over concatenation, so survivors keep their original order |
| Cart.RemoveItemAbsent | src/app/cart/page.tsx:93 | removing an id no line carries returns the cart unchanged |
| Cart.RemoveItemIdempotent | src/app/cart/page.tsx:93 | removing the same id twice is the same as removing it once |
| Cart.UpdateQuantityKeepsPositive | src/app/cart/page.tsx:79-84 | if every quantity is at least 1, it still is after an update |
| Cart.RemoveItemKeepsPositive | src/app/cart/page.tsx:92-93 | if every quantity is at least 1, it still is after a removal |
| Cart.UpdateAfterRemove | src/app/cart/page.tsx:79-93 | updating the quantity of an id that was just removed changes nothing |
| Pricing.Reduce | src/app/cart/page.tsx:70 | with non-negative prices and positive quantities the fold never drops below its start value |
| Pricing.Subtotal | src/app/cart/page.tsx:70 | the subtotal the page computes equals the reference sum of price times quantity |
| Pricing.ReduceIsSum | src/app/cart/page.tsx:70 | the page's left-fold `reduce` from any start value equals that value plus the reference sum of price times quantity |
| Pricing.SubtotalIsSum | src/app/cart/page.tsx:70 | the subtotal is the sum of price times quantity over all lines |
| Pricing.SumAppend | src/app/cart/page.tsx:70 | the subtotal of two carts put together is the sum of their subtotals |
| Pricing.SumRemoveItem | src/app/cart/page.tsx:70-93 | removing a product lowers the subtotal by exactly the amount of its lines |
| Pricing.SumNonNegative | src/app/cart/page.tsx:70 | with non-negative prices and positive quantities the subtotal is non-negative |
| Pricing.DeliveryFee | src/app/cart/page.tsx:72 | the fee is 0 or 12, and it is 0 exactly for pickup or for a subtotal strictly above 100 |
| Pricing.ComputeTotals | src/app/cart/page.tsx:70-76 | the subtotal is the reference sum, tax is 13% of subtotal minus discount, total = subtotal + fee + tax - discount exactly, i.e. 1.13 times the discounted subtotal plus the fee |
| Pricing.TotalNonNegative | src/app/cart/page.tsx:74-76 | a discount between 0 and the subtotal never makes the total negative |
| Pricing.ScenarioFreeDelivery | src/app/cart/page.tsx:70-76 | two items at 65 by delivery: subtotal 130, fee 0, tax 16.90, total 146.90 |
| Pricing.ScenarioFlatFee | src/app/cart/page.tsx:70-76 | one item at 45 by delivery: subtotal 45, fee 12, tax 5.85, total 62.85 |
| Coupon.RuleOf | src/app/cart/page.tsx:103-107 | the 25% rule is chosen exactly when the lower-cased code is spring25, the flat rule exactly when it is welcome10 |
| Coupon.EditCode | src/app/cart/page.tsx:407 | typing in the promo box changes the code only, never the applied flag or the discount |
| Coupon.ApplyCoupon | src/app/cart/page.tsx:101-116 | spring25 (any case) gives a quarter of the current subtotal, welcome10 (any case) gives 10, both set applied; any other code sets applied false and discount 0; the code is kept |
| Coupon.RemoveCoupon | src/app/cart/page.tsx:119-123 | removal resets code to "", applied to false and discount to 0, whatever the state was |
| Coupon.ApplyCouponExclusive | src/app/cart/page.tsx:101-116 | after applying, exactly one of no discount, 25% or flat 10 is in force, matching the code's rule |
| Coupon.CouponHandlersKeepConsistent | src/app/cart/page.tsx:101-123 | applying any code, removing the coupon, and typing while no coupon is applied each leave exactly one rule in force: none with no discount, 25%, or the flat 10 |
| Coupon.RuleIgnoresCase | src/app/cart/page.tsx:103-107 | a code selects a rule exactly when it spells spring25 or welcome10 in any mix of cases |
| Coupon.ApplyCouponCaseInsensitive | src/app/cart/page.tsx:103-107 | two codes equal up to case have the same effect |
| Coupon.ApplyCouponIdempotent | src/app/cart/page.tsx:101-116 | applying again against the same subtotal changes nothing |
| Coupon.CouponExamples | src/app/cart/page.tsx:101-116 | SPRING25 on 100 gives 25 off, WELCOME10 gives 10 off any subtotal, SPRING2025 is refused |
| Validation.LooksLikeEmail | src/app/cart/page.tsx:150 | an accepted email has at least five characters and contains an '@' and a '.' |
| Validation.LooksLikeEmailIsRegex | src/app/cart/page.tsx:150 | the model's email search succeeds exactly when some substring matches non-space+ '@' non-space+ '.' non-space+ |
| Validation.LooksLikeEmailUnanchored | src/app/cart/page.tsx:150 | surrounding an accepted email with any text keeps it accepted (the search is unanchored) |
| Validation.EmailAccepted | src/app/cart/page.tsx:150 | a@b.c and jane@example.com pass |
| Validation.EmailRefused | src/app/cart/page.tsx:150 | jane@example (no dot after the '@') and "jane @x.ca" (a space before the '@') fail |
| Validation.PostalCodeOk | src/app/cart/page.tsx:162 | an accepted postal code consists of letters, digits and at most one space or hyphen, which can only be the fourth of seven characters |
| Validation.PostalCodeSeparator | src/app/cart/page.tsx:162 | a 7-character postal code passes iff it is a passing 6-character code with a space or hyphen inserted after the third character |
| Validation.PostalCodeExamples | src/app/cart/page.tsx:162 | "M5V 2T6", "m5v2t6" and "M5V-2T6" pass; a double space, digits only or an underscore fail |
| Validation.CardNumberOk | src/app/cart/page.tsx:195 | an accepted card number has at least sixteen characters |
| Validation.StripAllWhitespace | src/app/cart/page.tsx:195 | a string of whitespace strips to the empty string |
| Validation.CardNumberIgnoresWhitespace | src/app/cart/page.tsx:195 | inserting whitespace anywhere in a card number does not change whether it passes |
| Validation.CardNumberWithoutWhitespace | src/app/cart/page.tsx:195 | a card number without whitespace passes iff it is exactly sixteen digits |
| Validation.SixteenDigitsPass | src/app/cart/page.tsx:195 | any sixteen digits pass the card check |
| Validation.CardNumberAccepted | src/app/cart/page.tsx:195 | 4111111111111111 passes |
| Validation.CardNumberGroupedByFours | src/app/cart/page.tsx:195 | four groups of four digits separated by spaces pass |
| Validation.CardNumberTooShort | src/app/cart/page.tsx:195 | any input shorter than sixteen characters fails, whitespace or not |
| Validation.CardNumberRefused | src/app/cart/page.tsx:195 | a hyphen-grouped number fails, because only whitespace is stripped |
| Validation.ExpiryOk | src/app/cart/page.tsx:201 | an accepted expiry contains no whitespace |
| Validation.ExpiryShape | src/app/cart/page.tsx:201 | an expiry passes exactly when it is two digits, a slash and two digits |
| Validation.CvvOk | src/app/cart/page.tsx:207 | an accepted CVV contains no whitespace |
| Validation.ExpiryCvvExamples | src/app/cart/page.tsx:201-209 | 12/26 and 99/99 pass, 1/26 fails; 3 or 4 digit CVVs pass, 2 digits or a letter fail |
| Dates.AvailableDates | src/app/cart/page.tsx:224-239 | the offered days are strictly increasing offsets in 0..13, none on Sunday or Monday, every open day in the fortnight included, ten in all |
| Dates.OpenOffsetsSpec | src/app/cart/page.tsx:228-236 | the open offsets below n are in range, on open weekdays, strictly increasing, complete, and as many as the independent count of open days |
| Dates.FortnightOffsets | src/app/cart/page.tsx:224-239 | the open offsets of the fourteen days from today list every open day in order, and there are ten |
| Dates.ShiftToday | src/app/cart/page.tsx:228-233 | counting open days from any weekday equals counting from a Sunday over the window shifted by that weekday |
| Dates.FirstWeek | src/app/cart/page.tsx:232-233 | the week starting on a Sunday has five open days |
| Dates.FiveOpenDaysPerWeek | src/app/cart/page.tsx:228-236 | any seven consecutive days hold five open days |
| Dates.OneMoreWeek | src/app/cart/page.tsx:228-236 | extending the window by seven days adds exactly five open days |
| Dates.AlwaysTenDates | src/app/cart/page.tsx:228-236 | whatever weekday today is, fourteen days hold exactly ten open days |
| Home.OpenModal | src/app/page.tsx:206-210 | the modal opens on the chosen product with the counter at 1; cart and filter untouched |
| Home.CloseModal | src/app/page.tsx:212-214 | the modal closes; cart, selection, counter and filter untouched |
| Home.AddToCart | src/app/page.tsx:216-225 | with no selection nothing changes; otherwise exactly one line (selected product, counter value) is appended at the end, earlier lines are unchanged and the modal closes |
| Home.IncrementQuantity | src/app/page.tsx:227-229 | the counter goes up by one and nothing else changes |
| Home.DecrementQuantity | src/app/page.tsx:231-235 | the counter goes down by one iff it was above 1, so a counter of at least 1 stays at least 1; nothing else changes |
| Home.DecrementUndoesIncrement | src/app/page.tsx:227-235 | decrementing after incrementing returns the original state |
| Home.FilterProducts | src/app/page.tsx:237-239 | choosing a category changes only the active filter |
| Home.WithCategory | src/app/page.tsx:327 | the result holds exactly the catalog products tagged with the category |
| Home.WithCategoryAppend | src/app/page.tsx:327 | filtering distributes over concatenation, so catalog order is kept |
| Home.FilteredProducts | src/app/page.tsx:325-327 | "all" shows the whole catalog; any other category shows exactly the products tagged with it, in catalog order (the tag filter) |
| Home.CategoryButtons | src/app/page.tsx:316-327 | the first filter button is "all", and every other button shows at least one product |
| Home.AddToCartDoesNotMerge | src/app/page.tsx:219-223 | adding the selected product adds exactly one more line with its id, even when one exists |
| Home.SameProductTwice | src/app/page.tsx:206-225 | choosing the same product twice gives two lines of quantity 1, not one line of quantity 2 |
| Home.StepKeepsValid | src/app/page.tsx:206-239 | every shop action keeps the counter and all cart quantities at least 1 |
| Home.RunKeepsValid | src/app/page.tsx:206-239 | no sequence of shop actions drives the counter or a cart quantity below 1 |
| Home.InitialHomeValid | src/app/page.tsx:183-186 | the first render has counter 1, an empty cart, the modal closed, no selection and the "all" filter, and satisfies the shop invariant |
| Checkout.InitialSession | src/app/cart/page.tsx:22-50 | the page opens on the cart step with the restored cart, no coupon, home delivery, city Toronto, province ON and every other input empty |
| Checkout.SetField | src/app/cart/page.tsx:126-132 | the named input takes the new value and every other input keeps its value |
| Checkout.FormExtensionality | src/app/cart/page.tsx:30-50 | two drafts that agree on every named input are equal |
| Checkout.SetFieldLaws | src/app/cart/page.tsx:126-132 | re-entering an input's value changes nothing; of two edits to one input the later wins |
| Checkout.CustomerCheck | src/app/cart/page.tsx:145-153 | passes iff the four customer fields are non-empty and the email search succeeds; reports a missing field before a bad email |
| Checkout.ShippingCheck | src/app/cart/page.tsx:156-171 | passes iff (for delivery) the four address fields are filled and the postal code matches, and a date is chosen; reports missing address fields first and a missing date for pickup |
| Checkout.PaymentCheck | src/app/cart/page.tsx:189-210 | passes iff the four payment fields are filled and card, expiry and CVV match; reports missing fields first |
| Checkout.ContinueToNextStep | src/app/cart/page.tsx:135-177 | a move raises the step by exactly one and changes nothing else; step 1 is blocked iff the cart is empty, step 2 iff the customer checks fail, step 3 iff the shipping checks fail; other steps always move |
| Checkout.GoBackToPreviousStep | src/app/cart/page.tsx:180-184 | going back lowers the step by one and keeps cart, coupon and draft |
| Checkout.BackUndoesContinue | src/app/cart/page.tsx:135-184 | going back after a successful step forward restores the state exactly |
| Checkout.SubmitOrder | src/app/cart/page.tsx:187-221 | submission succeeds iff all payment checks pass; on success the cart is empty and the step is 5, with coupon and draft kept |
| Checkout.PaymentEmptinessChecks | src/app/cart/page.tsx:189-210 | the payment step passes iff the card holder's name is non-empty and card number, expiry and CVV match their patterns: the other emptiness checks are implied by the patterns |
| Checkout.SubmitScenario | src/app/cart/page.tsx:187-221 | card 4111111111111111, expiry 12/26, CVV 123 and a name on the payment step lead to step 5 with an empty cart |
| Checkout.SubmitShortCardScenario | src/app/cart/page.tsx:187-198 | a three-digit card number is refused and the session stays as it was |
| Checkout.UpdateQuantity | src/app/cart/page.tsx:79-86 | the session's cart is updated as by the cart transform; step, coupon and draft unchanged |
| Checkout.RemoveItem | src/app/cart/page.tsx:92-94 | the session's cart loses the id's lines; step, coupon and draft unchanged |
| Checkout.ApplyCoupon | src/app/cart/page.tsx:101-110 | applying a coupon reads the subtotal of the cart at that moment; cart, step and draft unchanged |
| Checkout.SpringOnTenBouquets | src/app/cart/page.tsx:101-110 | typing spring25 and pressing Apply with ten bouquets at 100 in the cart locks in 250 off and changes nothing else |
| Checkout.OneBouquetAfterSnapshot | src/app/cart/page.tsx:70-76 | one bouquet at 100 by delivery with 250 off: fee 12, tax -19.50, total -157.50 |
| Checkout.SnapshotDiscountOutlivesCart | src/app/cart/page.tsx:70-123 | typing spring25, pressing Apply and then the minus button nine times, starting from ten bouquets at 100, leaves one bouquet, 250 off and a total of -157.50 |
| Checkout.FieldShown | src/app/cart/page.tsx:472-842 | inputs are rendered only on steps 2 to 4, the province never, and the address inputs only on the shipping step for home delivery |
| Checkout.Offered | src/app/cart/page.tsx:336-846 | a control is offered only on steps 1 to 4, and the coupon and cart controls only on the cart step with a non-empty cart |
| Checkout.Dispatch | src/app/cart/page.tsx:336-846 | an action the page does not offer changes nothing; only Next, Back and Submit change the step, only the cart buttons and Submit change the cart, only the coupon controls change the coupon, and only input edits change the draft |
| Checkout.RunAppend | src/app/cart/page.tsx:336-846 | running two action sequences one after the other is running their concatenation |
| Checkout.DecreaseRepeatedly | src/app/cart/page.tsx:79-86 | pressing a single line's minus button n times while its quantity stays above 1 lowers it by n and changes nothing else |
| Checkout.DispatchKeepsCoupon | src/app/cart/page.tsx:403-424 | every action keeps exactly one coupon rule in force |
| Checkout.RunKeepsCoupon | src/app/cart/page.tsx:101-123 | no sequence of actions leaves two coupon rules in force, or a discount without an applied coupon (an applied spring25 discount may still exceed the current subtotal) |
| Checkout.DispatchKeepsPositive | src/app/cart/page.tsx:79-98 | every action keeps every cart line's quantity at least 1 |
| Checkout.RunKeepsPositive | src/app/cart/page.tsx:79-98 | no sequence of actions drives a cart line's quantity below 1 |
| Checkout.InitialSessionWizard | src/app/cart/page.tsx:22-50 | the first render satisfies the wizard invariant whatever cart was restored |
| Checkout.EditKeepsCustomer | src/app/cart/page.tsx:126-132 | editing any input other than the four customer inputs leaves those four as they were |
| Checkout.EditKeepsShipping | src/app/cart/page.tsx:126-132 | editing a payment input leaves every input the shipping checks read as it was |
| Checkout.EditKeepsWizard | src/app/cart/page.tsx:472-842 | editing an input shown at the current step keeps the guards of the earlier steps true |
| Checkout.DispatchKeepsWizard | src/app/cart/page.tsx:336-846 | every control the page offers keeps the step in 1..5 and the earlier steps' guards true |
| Checkout.RunKeepsWizard | src/app/cart/page.tsx:336-846 | no sequence of user actions breaks the wizard invariant |
| Checkout.ConfirmedOrderIsValid | src/app/cart/page.tsx:135-221 | from any restored cart and any sequence of user actions, reaching the confirmation step implies an empty cart and customer, shipping and payment data that all pass their checks |
| Checkout.DispatchMovesOneStepAtMost | src/app/cart/page.tsx:135-221 | no action moves the wizard by more than one step |
| Checkout.ConfirmationIsFinal | src/app/cart/page.tsx:852-870 | nothing the page offers on the confirmation step changes the state |

## Left out

- Browser storage: reading the saved cart at start-up, with a parse failure giving an empty cart, and writing it back after each change. The restored cart is a parameter of `Checkout.InitialSession`. The home page never writes its cart, so the two pages' carts are separate states here, as in the code.
- `alert` messages, `window.scrollTo`, the scroll listener and the menu toggle are UI side effects. A refused handler returns `Blocked(reason)` instead of raising an alert.
- The mocked Instagram feed: an asynchronous fetch with a timer, presentation only.
- The random order number and `toLocaleDateString` date labels, which depend on randomness and the locale library. Dates are day offsets from today's weekday, which is a parameter. The chosen date is the free string the form stores.
- Floating-point rounding and `toFixed(2)`. Amounts are exact reals, so the total identity holds exactly.
- Text.ToLower: only A-Z are folded, not the other Unicode letters. For comparison with "spring25" and "welcome10" the result is the same, because no other character lower-cases to one of those letters on its own.
- JavaScript strings are UTF-16 code units, while Dafny characters are Unicode scalar values. The checks only look at ASCII and the `\s` set, so the two agree on them.
- JSX rendering and styling, testimonials, category button markup. `Checkout.Dispatch` keeps only which control is shown at which step.
