/**
  The home page's shop: the category filter over the catalog, the product
  modal with its quantity counter, and the page's own in-memory cart, to which
  `addToCart` appends a new line without merging it into an existing one.
 */
module Home {
  import opened Wrappers
  import opened Catalog
  import Cart

  datatype HomeState = HomeState(
    cart: seq<Line>,
    modalOpen: bool,
    selected: Option<Product>,
    quantity: int,
    activeCategory: string)

  /** The state when the page first renders. */
  const InitialHome: HomeState := HomeState([], false, None, 1, "all")

  /** The category id that selects the whole catalog. */
  const AllCategories: string := "all"

  /** `openModal(product)`: show the modal for `p`, with the counter back at 1. */
  function OpenModal(st: HomeState, p: Product): (r: HomeState)
    ensures r.selected == Some(p) && r.quantity == 1 && r.modalOpen
    ensures r.cart == st.cart && r.activeCategory == st.activeCategory
  {
    st.(selected := Some(p), quantity := 1, modalOpen := true)
  }

  /** `closeModal()`: hide the modal; the selection and counter are kept. */
  function CloseModal(st: HomeState): (r: HomeState)
    ensures !r.modalOpen
    ensures r.cart == st.cart && r.selected == st.selected && r.quantity == st.quantity
    ensures r.activeCategory == st.activeCategory
  {
    st.(modalOpen := false)
  }

  /**
    `addToCart()`: with no product selected nothing happens; otherwise one
    line holding the selected product and the counter's value is appended at
    the end, the earlier lines are kept as they were, and the modal closes.
   */
  function AddToCart(st: HomeState): (r: HomeState)
    ensures st.selected.None? ==> r == st
    ensures st.selected.Some? ==>
      && |r.cart| == |st.cart| + 1
      && r.cart[..|st.cart|] == st.cart
      && r.cart[|st.cart|] == Line(st.selected.value, st.quantity)
      && !r.modalOpen
      && r.selected == st.selected && r.quantity == st.quantity
      && r.activeCategory == st.activeCategory
  {
    match st.selected
    case None => st
    case Some(p) => CloseModal(st.(cart := st.cart + [Line(p, st.quantity)]))
  }

  /** `incrementQuantity()`: one more. */
  function IncrementQuantity(st: HomeState): (r: HomeState)
    ensures r.quantity == st.quantity + 1
    ensures r == st.(quantity := r.quantity)
  {
    st.(quantity := st.quantity + 1)
  }

  /** `decrementQuantity()`: one fewer, but never below 1. */
  function DecrementQuantity(st: HomeState): (r: HomeState)
    ensures st.quantity >= 1 ==> r.quantity >= 1
    ensures r.quantity == st.quantity || (st.quantity > 1 && r.quantity == st.quantity - 1)
    ensures r.quantity == st.quantity <==> st.quantity <= 1
    ensures r == st.(quantity := r.quantity)
  {
    if st.quantity > 1 then st.(quantity := st.quantity - 1) else st
  }

  /** Decrementing undoes an increment. */
  lemma DecrementUndoesIncrement(st: HomeState)
    requires st.quantity >= 1
    ensures DecrementQuantity(IncrementQuantity(st)) == st
  {
  }

  /** `filterProducts(category)`: make `category` the active filter. */
  function FilterProducts(st: HomeState, category: string): (r: HomeState)
    ensures r.activeCategory == category
    ensures r == st.(activeCategory := category)
  {
    st.(activeCategory := category)
  }

  /** The products whose category tags include `category`, in catalog order. */
  function WithCategory(catalog: seq<Product>, category: string): (r: seq<Product>)
    ensures |r| <= |catalog|
    ensures forall p :: p in r <==> p in catalog && category in p.categories
  {
    if catalog == [] then []
    else if category in catalog[0].categories then [catalog[0]] + WithCategory(catalog[1..], category)
    else WithCategory(catalog[1..], category)
  }

  /** The tag filter works piecewise, so it keeps catalog order. */
  lemma {:induction false} WithCategoryAppend(a: seq<Product>, b: seq<Product>, category: string)
    ensures WithCategory(a + b, category) == WithCategory(a, category) + WithCategory(b, category)
  {
    if a == [] {
      assert a + b == b;
    } else {
      assert (a + b)[1..] == a[1..] + b;
      WithCategoryAppend(a[1..], b, category);
    }
  }

  /**
    `filteredProducts`: the whole catalog for "all", otherwise exactly the
    products tagged with the active category.
   */
  function FilteredProducts(catalog: seq<Product>, activeCategory: string): (r: seq<Product>)
    ensures activeCategory == AllCategories ==> r == catalog
    ensures activeCategory != AllCategories ==>
      forall p :: p in r <==> p in catalog && activeCategory in p.categories
    ensures activeCategory != AllCategories ==> r == WithCategory(catalog, activeCategory)
  {
    if activeCategory == AllCategories then catalog else WithCategory(catalog, activeCategory)
  }

  /**
    The filter buttons the page renders: the first shows the whole catalog,
    and each of the others shows at least one product.
   */
  lemma CategoryButtons()
    ensures Categories[0].id == AllCategories
    ensures forall k :: 1 <= k < |Categories| ==> FilteredProducts(Products, Categories[k].id) != []
  {
    forall k | 1 <= k < |Categories| ensures FilteredProducts(Products, Categories[k].id) != [] {
      var c := Categories[k].id;
      var p := if c == "premium" then ElegantWhite
        else if c == "wedding" then WildGarden
        else PastelDream;
      assert p in Products && c in p.categories;
    }
  }

  /** Adding the selected product puts exactly one more line with its id in the cart. */
  lemma {:induction false} AddToCartDoesNotMerge(st: HomeState, p: Product)
    requires st.selected == Some(p)
    ensures Cart.CountId(AddToCart(st).cart, p.id) == Cart.CountId(st.cart, p.id) + 1
  {
    Cart.CountIdAppend(st.cart, [Line(p, st.quantity)], p.id);
  }

  /** Choosing the same product twice leaves two lines with the same id, not one line of quantity 2. */
  lemma SameProductTwice(p: Product)
    ensures
      var once := AddToCart(OpenModal(InitialHome, p));
      var twice := AddToCart(OpenModal(once, p));
      twice.cart == [Line(p, 1), Line(p, 1)]
  {
  }

  /** The user actions of the home page's shop section and product modal. */
  datatype Action = Open(p: Product) | Close | Add | Increment | Decrement | Filter(category: string)

  function Step(st: HomeState, a: Action): HomeState
  {
    match a
    case Open(p) => OpenModal(st, p)
    case Close => CloseModal(st)
    case Add => AddToCart(st)
    case Increment => IncrementQuantity(st)
    case Decrement => DecrementQuantity(st)
    case Filter(c) => FilterProducts(st, c)
  }

  function Run(st: HomeState, actions: seq<Action>): HomeState
    decreases |actions|
  {
    if actions == [] then st else Run(Step(st, actions[0]), actions[1..])
  }

  /** The modal counter is at least 1 and so is every cart line's quantity. */
  predicate Valid(st: HomeState)
  {
    st.quantity >= 1 && Cart.QuantitiesPositive(st.cart)
  }

  /** Every action keeps the counter and the cart quantities at least 1. */
  lemma StepKeepsValid(st: HomeState, a: Action)
    requires Valid(st)
    ensures Valid(Step(st, a))
  {
    if a.Add? && st.selected.Some? {
      var r := AddToCart(st);
      forall k | 0 <= k < |r.cart| ensures r.cart[k].quantity >= 1 {
        if k < |st.cart| {
          assert r.cart[k] == r.cart[..|st.cart|][k];
        }
      }
    }
  }

  /** From the first render on, no sequence of actions drives a quantity below 1. */
  lemma {:induction false} RunKeepsValid(st: HomeState, actions: seq<Action>)
    requires Valid(st)
    ensures Valid(Run(st, actions))
    decreases |actions|
  {
    if actions != [] {
      StepKeepsValid(st, actions[0]);
      RunKeepsValid(Step(st, actions[0]), actions[1..]);
    }
  }

  lemma InitialHomeValid()
    ensures InitialHome.quantity == 1 && InitialHome.cart == [] && !InitialHome.modalOpen
    ensures InitialHome.selected == None && InitialHome.activeCategory == AllCategories
    ensures Valid(InitialHome)
  {
  }
}
