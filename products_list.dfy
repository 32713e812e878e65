/**
 * Pricing selectors of the products list: a discount-or-regular price
 * resolver, the join of a plan slug with its plan and catalog product, the
 * full and monthly price pair of a plan, and the priced, filtered product
 * list, together with two plain lookups into the products-list state.
 *
 * The price lookups and the plan registry are external collaborators; they
 * are passed in as an `Externals` record of total functions.
 */
module ProductsList {

  /** The outcome of a JavaScript property read or lookup: `undefined`,
      `null`, or a value. The three are kept apart because the resolver
      treats them differently. */
  datatype Lookup<+T> = Undefined | Null | Defined(value: T)

  /** Billing terms a plan may declare. */
  datatype Term = TermMonthly | TermAnnually | TermBiennially

  /** A plan: its store-facing slug, its product identifier and its term
      (which a plan may leave undefined). */
  datatype Plan = Plan(storeSlug: string, productId: string, term: Lookup<Term>)

  /** A catalog entry of the products list: its `available` and
      `cost_display` properties, each of which an object may lack (then
      reading it gives undefined). */
  datatype Product = Product(available: Lookup<bool>, costDisplay: Lookup<string>)

  /** `product.available` is truthy. */
  predicate Available(product: Product)
  {
    product.available == Defined(true)
  }

  /** `state.productsList`: the catalog keyed by product slug, where a key may
      also hold an explicit null, and the fetching flag. */
  datatype ProductsListState = ProductsListState(items: map<string, Lookup<Product>>, isFetching: bool)

  datatype State = State(productsList: ProductsListState)

  /** The external lookups the selectors call:
      `getPlan(slug)`, `getPlanRawPrice(state, productId, isMonthly)` and
      `getPlanDiscountedRawPrice(state, siteId, storeSlug, { isMonthly })`. */
  datatype Externals = Externals(
    getPlan: string -> Lookup<Plan>,
    getPlanRawPrice: (State, string, bool) -> Lookup<int>,
    getPlanDiscountedRawPrice: (State, int, string, bool) -> Lookup<int>)

  /** `{ planSlug, plan, product }` */
  datatype PlanProduct = PlanProduct(planSlug: string, plan: Lookup<Plan>, product: Lookup<Product>)

  /** `{ priceFull, priceMonthly }` */
  datatype Prices = Prices(priceFull: Lookup<int>, priceMonthly: Lookup<int>)

  /** `{ planSlug, plan, product, priceFull, priceMonthly }` */
  datatype PricedProduct = PricedProduct(
    planSlug: string, plan: Lookup<Plan>, product: Lookup<Product>,
    priceFull: Lookup<int>, priceMonthly: Lookup<int>)

  /** Reading `m[key]` off a JavaScript object: an absent key reads as undefined. */
  function Get<T>(m: map<string, Lookup<T>>, key: string): Lookup<T>
  {
    if key in m then m[key] else Undefined
  }

  // ---------------------------------------------------------------------
  // Plain lookups
  // ---------------------------------------------------------------------

  /** `getProductDisplayCost(state, productSlug)`: the `cost_display` of the
      catalog product as read (undefined when the product has none), or null
      when there is no such product. */
  function GetProductDisplayCost(state: State, productSlug: string): (r: Lookup<string>)
    ensures productSlug !in state.productsList.items ==> r == Null
    ensures !Get(state.productsList.items, productSlug).Defined? ==> r == Null
    ensures Get(state.productsList.items, productSlug).Defined? ==> r == state.productsList.items[productSlug].value.costDisplay
    ensures r.Defined? ==> productSlug in state.productsList.items && state.productsList.items[productSlug].Defined?
  {
    match Get(state.productsList.items, productSlug)
    case Defined(product) => product.costDisplay
    case _ => Null
  }

  /** `isProductsListFetching(state)`: the stored flag, unchanged. */
  function IsProductsListFetching(state: State): (r: bool)
    ensures r <==> state.productsList.isFetching
  {
    state.productsList.isFetching
  }

  // ---------------------------------------------------------------------
  // Discount resolver
  // ---------------------------------------------------------------------

  /** The monthly flag handed to the discounted lookup: a plan whose own term
      is monthly is always asked for its non-monthly price. */
  function DiscountFlag(plan: Plan, isMonthly: bool): (flag: bool)
    ensures plan.term == Defined(TermMonthly) ==> !flag
    ensures plan.term != Defined(TermMonthly) ==> flag == isMonthly
  {
    if plan.term == Defined(TermMonthly) then false else isMonthly
  }

  /** `getDiscountedOrRegularPrice(state, siteId, plan, isMonthly)`: the
      discounted price when the discounted lookup gives anything but null
      (undefined included), otherwise the raw price of the plan's product. */
  function GetDiscountedOrRegularPrice(ext: Externals, state: State, siteId: int, plan: Plan, isMonthly: bool): (r: Lookup<int>)
    ensures var discounted := ext.getPlanDiscountedRawPrice(state, siteId, plan.storeSlug, DiscountFlag(plan, isMonthly));
      discounted != Null ==> r == discounted
    ensures var discounted := ext.getPlanDiscountedRawPrice(state, siteId, plan.storeSlug, DiscountFlag(plan, isMonthly));
      discounted == Null ==> r == ext.getPlanRawPrice(state, plan.productId, isMonthly)
  {
    var discountedPrice := ext.getPlanDiscountedRawPrice(state, siteId, plan.storeSlug, DiscountFlag(plan, isMonthly));
    if discountedPrice != Null then discountedPrice
    else ext.getPlanRawPrice(state, plan.productId, isMonthly)
  }

  /** The resolver reads the two lookups only at the arguments it passes
      them: the state, the site, the store slug and the (possibly forced)
      flag for the discount; the state, the product id and the caller's flag
      for the raw price. Two sets of lookups that agree there give the same
      price. */
  lemma ResolverQueriesOnly(ext1: Externals, ext2: Externals, state: State, siteId: int, plan: Plan, isMonthly: bool)
    requires ext1.getPlanDiscountedRawPrice(state, siteId, plan.storeSlug, DiscountFlag(plan, isMonthly))
          == ext2.getPlanDiscountedRawPrice(state, siteId, plan.storeSlug, DiscountFlag(plan, isMonthly))
    requires ext1.getPlanRawPrice(state, plan.productId, isMonthly) == ext2.getPlanRawPrice(state, plan.productId, isMonthly)
    ensures GetDiscountedOrRegularPrice(ext1, state, siteId, plan, isMonthly)
         == GetDiscountedOrRegularPrice(ext2, state, siteId, plan, isMonthly)
  {
  }

  /** For a plan whose term is already monthly, asking for the monthly price
      consults the discounted lookup exactly as asking for the full price
      does: with the flag false. */
  lemma MonthlyTermForcesFullPriceQuery(ext: Externals, state: State, siteId: int, plan: Plan)
    requires plan.term == Defined(TermMonthly)
    requires ext.getPlanDiscountedRawPrice(state, siteId, plan.storeSlug, false) != Null
    ensures GetDiscountedOrRegularPrice(ext, state, siteId, plan, true)
         == GetDiscountedOrRegularPrice(ext, state, siteId, plan, false)
         == ext.getPlanDiscountedRawPrice(state, siteId, plan.storeSlug, false)
  {
  }

  // ---------------------------------------------------------------------
  // Join of a plan slug with its plan and product
  // ---------------------------------------------------------------------

  /** `planSlugToPlanProduct(products, planSlug)`: a missing plan (null or
      undefined from the registry) becomes null; the product is whatever the
      catalog holds under the slug, passed through as is. */
  function PlanSlugToPlanProduct(getPlan: string -> Lookup<Plan>, products: map<string, Lookup<Product>>, planSlug: string): (r: PlanProduct)
    ensures r.planSlug == planSlug
    ensures r.plan != Undefined
    ensures getPlan(planSlug).Defined? ==> r.plan == getPlan(planSlug)
    ensures !getPlan(planSlug).Defined? ==> r.plan == Null
    ensures planSlug !in products ==> r.product == Undefined
    ensures planSlug in products ==> r.product == products[planSlug]
  {
    var plan := getPlan(planSlug);
    PlanProduct(planSlug, if plan.Defined? then plan else Null, Get(products, planSlug))
  }

  /** The two "empty values" cases: an empty catalog gives an undefined
      product, an explicit null entry gives a null product; a plan the
      registry does not know is null in both. */
  lemma PlanSlugToPlanProductEmptyValues(planSlug: string)
    ensures var noPlan := (s: string) => Null;
      PlanSlugToPlanProduct(noPlan, map[], planSlug) == PlanProduct(planSlug, Null, Undefined)
      && PlanSlugToPlanProduct(noPlan, map[planSlug := Null], planSlug) == PlanProduct(planSlug, Null, Null)
  {
  }

  /** The display cost is defined exactly when the join finds a product
      object under the same slug, and then it is that product's cost. */
  lemma DisplayCostAgreesWithJoin(ext: Externals, state: State, slug: string)
    ensures var pp := PlanSlugToPlanProduct(ext.getPlan, state.productsList.items, slug);
      GetProductDisplayCost(state, slug) == if pp.product.Defined? then pp.product.value.costDisplay else Null
  {
  }

  // ---------------------------------------------------------------------
  // Full and monthly prices
  // ---------------------------------------------------------------------

  /** `computeFullAndMonthlyPricesForPlan(state, siteId, plan)`: the resolver
      asked once for the full price and once for the monthly price. */
  function ComputeFullAndMonthlyPricesForPlan(ext: Externals, state: State, siteId: int, plan: Plan): (r: Prices)
    ensures r.priceFull == GetDiscountedOrRegularPrice(ext, state, siteId, plan, false)
    ensures r.priceMonthly == GetDiscountedOrRegularPrice(ext, state, siteId, plan, true)
  {
    Prices(GetDiscountedOrRegularPrice(ext, state, siteId, plan, false),
           GetDiscountedOrRegularPrice(ext, state, siteId, plan, true))
  }

  /** For a monthly-term plan with a discount, both prices are the one
      discounted non-monthly price. */
  lemma MonthlyTermPlanPricesCoincide(ext: Externals, state: State, siteId: int, plan: Plan)
    requires plan.term == Defined(TermMonthly)
    requires ext.getPlanDiscountedRawPrice(state, siteId, plan.storeSlug, false) != Null
    ensures var prices := ComputeFullAndMonthlyPricesForPlan(ext, state, siteId, plan);
      prices.priceFull == prices.priceMonthly == ext.getPlanDiscountedRawPrice(state, siteId, plan.storeSlug, false)
  {
    MonthlyTermForcesFullPriceQuery(ext, state, siteId, plan);
  }

  // ---------------------------------------------------------------------
  // The priced products list
  // ---------------------------------------------------------------------

  /** A slug makes it into the priced list when its plan is known, its
      catalog product exists and is available, and neither price is
      undefined. */
  predicate Qualifies(ext: Externals, state: State, siteId: int, planSlug: string)
  {
    var pp := PlanSlugToPlanProduct(ext.getPlan, state.productsList.items, planSlug);
    && pp.plan.Defined?
    && pp.product.Defined?
    && Available(pp.product.value)
    && var prices := ComputeFullAndMonthlyPricesForPlan(ext, state, siteId, pp.plan.value);
       prices.priceFull != Undefined && prices.priceMonthly != Undefined
  }

  /** The entry for a slug with a known plan: the join record extended with
      both prices (`{ ...planProduct, ...prices }`). */
  function Joined(ext: Externals, state: State, siteId: int, planSlug: string): PricedProduct
    requires ext.getPlan(planSlug).Defined?
  {
    var pp := PlanSlugToPlanProduct(ext.getPlan, state.productsList.items, planSlug);
    var prices := ComputeFullAndMonthlyPricesForPlan(ext, state, siteId, pp.plan.value);
    PricedProduct(pp.planSlug, pp.plan, pp.product, prices.priceFull, prices.priceMonthly)
  }

  /** `computeProductsWithPrices(state, siteId, planSlugs)`: the qualifying
      entries, the entry of a later slug ahead of that of an earlier one. */
  function ComputeProductsWithPrices(ext: Externals, state: State, siteId: int, planSlugs: seq<string>): (r: seq<PricedProduct>)
    ensures |r| <= |planSlugs|
    decreases |planSlugs|
  {
    if planSlugs == [] then []
    else
      var rest := ComputeProductsWithPrices(ext, state, siteId, planSlugs[1..]);
      if Qualifies(ext, state, siteId, planSlugs[0]) then rest + [Joined(ext, state, siteId, planSlugs[0])]
      else rest
  }

  /** Reference definition: the qualifying entries in input order. */
  function Kept(ext: Externals, state: State, siteId: int, planSlugs: seq<string>): seq<PricedProduct>
    decreases |planSlugs|
  {
    if planSlugs == [] then []
    else
      (if Qualifies(ext, state, siteId, planSlugs[0]) then [Joined(ext, state, siteId, planSlugs[0])] else [])
      + Kept(ext, state, siteId, planSlugs[1..])
  }

  function Reverse<T>(s: seq<T>): seq<T>
  {
    if s == [] then [] else Reverse(s[1..]) + [s[0]]
  }

  /** The priced list is the in-order list of qualifying entries, reversed. */
  lemma {:induction false} ProductsWithPricesIsReversedFilter(ext: Externals, state: State, siteId: int, planSlugs: seq<string>)
    ensures ComputeProductsWithPrices(ext, state, siteId, planSlugs) == Reverse(Kept(ext, state, siteId, planSlugs))
    decreases |planSlugs|
  {
    if planSlugs != [] {
      ProductsWithPricesIsReversedFilter(ext, state, siteId, planSlugs[1..]);
      var rest := Kept(ext, state, siteId, planSlugs[1..]);
      if Qualifies(ext, state, siteId, planSlugs[0]) {
        var e := Joined(ext, state, siteId, planSlugs[0]);
        assert ([e] + rest)[1..] == rest;
      } else {
        assert [] + rest == rest;
      }
    }
  }

  /** Every entry of the priced list comes from a slug of the input that
      qualifies, and is that slug's joined and priced record. */
  lemma {:induction false} ProductsWithPricesEntryQualifies(ext: Externals, state: State, siteId: int, planSlugs: seq<string>, k: nat)
    requires k < |ComputeProductsWithPrices(ext, state, siteId, planSlugs)|
    ensures var e := ComputeProductsWithPrices(ext, state, siteId, planSlugs)[k];
      && e.planSlug in planSlugs
      && Qualifies(ext, state, siteId, e.planSlug)
      && e == Joined(ext, state, siteId, e.planSlug)
    decreases |planSlugs|
  {
    var r := ComputeProductsWithPrices(ext, state, siteId, planSlugs);
    var rest := ComputeProductsWithPrices(ext, state, siteId, planSlugs[1..]);
    if k < |rest| {
      ProductsWithPricesEntryQualifies(ext, state, siteId, planSlugs[1..], k);
      assert r[k] == rest[k];
    } else {
      assert r == rest + [Joined(ext, state, siteId, planSlugs[0])];
    }
  }

  /** Every qualifying slug of the input has its entry in the priced list. */
  lemma {:induction false} ProductsWithPricesIncludesQualifying(ext: Externals, state: State, siteId: int, planSlugs: seq<string>, i: nat)
    requires i < |planSlugs|
    requires Qualifies(ext, state, siteId, planSlugs[i])
    ensures exists k ::
      && 0 <= k < |ComputeProductsWithPrices(ext, state, siteId, planSlugs)|
      && ComputeProductsWithPrices(ext, state, siteId, planSlugs)[k] == Joined(ext, state, siteId, planSlugs[i])
    decreases |planSlugs|
  {
    var r := ComputeProductsWithPrices(ext, state, siteId, planSlugs);
    var rest := ComputeProductsWithPrices(ext, state, siteId, planSlugs[1..]);
    if i == 0 {
      assert r == rest + [Joined(ext, state, siteId, planSlugs[0])];
      assert r[|rest|] == Joined(ext, state, siteId, planSlugs[i]);
    } else {
      ProductsWithPricesIncludesQualifying(ext, state, siteId, planSlugs[1..], i - 1);
      var k :| 0 <= k < |rest| && rest[k] == Joined(ext, state, siteId, planSlugs[i]);
      assert r[k] == rest[k];
    }
  }

  /** A slug appears in the priced list if and only if it qualifies. */
  lemma ProductsWithPricesMembership(ext: Externals, state: State, siteId: int, planSlugs: seq<string>, slug: string)
    requires slug in planSlugs
    ensures var r := ComputeProductsWithPrices(ext, state, siteId, planSlugs);
      (exists k :: 0 <= k < |r| && r[k].planSlug == slug) <==> Qualifies(ext, state, siteId, slug)
  {
    var r := ComputeProductsWithPrices(ext, state, siteId, planSlugs);
    forall k | 0 <= k < |r| && r[k].planSlug == slug
      ensures Qualifies(ext, state, siteId, slug)
    {
      ProductsWithPricesEntryQualifies(ext, state, siteId, planSlugs, k);
    }
    if Qualifies(ext, state, siteId, slug) {
      var i :| 0 <= i < |planSlugs| && planSlugs[i] == slug;
      ProductsWithPricesIncludesQualifying(ext, state, siteId, planSlugs, i);
      var k :| 0 <= k < |r| && r[k] == Joined(ext, state, siteId, planSlugs[i]);
      assert r[k].planSlug == slug;
    }
  }

  /** Order: of two qualifying slugs, the later one's entry comes first. */
  lemma {:induction false} LaterSlugsComeFirst(ext: Externals, state: State, siteId: int, planSlugs: seq<string>, i: nat, j: nat)
    requires i < j < |planSlugs|
    requires Qualifies(ext, state, siteId, planSlugs[i]) && Qualifies(ext, state, siteId, planSlugs[j])
    ensures exists a, b ::
      && 0 <= a < b < |ComputeProductsWithPrices(ext, state, siteId, planSlugs)|
      && ComputeProductsWithPrices(ext, state, siteId, planSlugs)[a] == Joined(ext, state, siteId, planSlugs[j])
      && ComputeProductsWithPrices(ext, state, siteId, planSlugs)[b] == Joined(ext, state, siteId, planSlugs[i])
    decreases |planSlugs|
  {
    var r := ComputeProductsWithPrices(ext, state, siteId, planSlugs);
    var rest := ComputeProductsWithPrices(ext, state, siteId, planSlugs[1..]);
    if i == 0 {
      ProductsWithPricesIncludesQualifying(ext, state, siteId, planSlugs[1..], j - 1);
      var a :| 0 <= a < |rest| && rest[a] == Joined(ext, state, siteId, planSlugs[j]);
      assert r == rest + [Joined(ext, state, siteId, planSlugs[0])];
      assert r[a] == rest[a] && r[|rest|] == Joined(ext, state, siteId, planSlugs[0]);
    } else {
      LaterSlugsComeFirst(ext, state, siteId, planSlugs[1..], i - 1, j - 1);
      var a, b :| 0 <= a < b < |rest| && rest[a] == Joined(ext, state, siteId, planSlugs[j])
                                      && rest[b] == Joined(ext, state, siteId, planSlugs[i]);
      assert r[a] == rest[a] && r[b] == rest[b];
    }
  }

  // ---------------------------------------------------------------------
  // The selector tests' scenarios, as lemmas
  // ---------------------------------------------------------------------

  function ExamplePlan(slug: string): Lookup<Plan>
  {
    if slug == "plan1" then Defined(Plan("abc", "def", Undefined))
    else if slug == "plan2" then Defined(Plan("jkl", "mno", Undefined))
    else Undefined
  }

  /** Discount lookup of the list tests: 120/10 for store slug "abc", and
      240/20 for every other slug when `priceOthers` holds, undefined otherwise. */
  function ExampleExternals(priceOthers: bool): Externals
  {
    Externals(
      ExamplePlan,
      (s: State, productId: string, isMonthly: bool) => Defined(0),
      (s: State, siteId: int, storeSlug: string, isMonthly: bool) =>
        if storeSlug == "abc" then Defined(if isMonthly then 10 else 120)
        else if priceOthers then Defined(if isMonthly then 20 else 240)
        else Undefined)
  }

  /** `{ available: true }` */
  function AvailableProduct(): Product
  {
    Product(Defined(true), Undefined)
  }

  function ExampleState(items: map<string, Lookup<Product>>): State
  {
    State(ProductsListState(items, false))
  }

  /** The resolver on the test's plan: the discount wins over the raw price,
      and a null discount falls back to the raw price. */
  lemma ResolverExamples()
    ensures var plan := Plan("abc", "def", Undefined);
      var st := ExampleState(map[]);
      && GetDiscountedOrRegularPrice(Externals(ExamplePlan, (s, p, m) => Defined(50), (s, i, p, m) => Defined(12)), st, 1, plan, false) == Defined(12)
      && GetDiscountedOrRegularPrice(Externals(ExamplePlan, (s, p, m) => Defined(50), (s, i, p, m) => Null), st, 1, plan, false) == Defined(50)
  {
  }

  /** Both prices of the test's plan: 120 in full, 10 monthly. */
  lemma FullAndMonthlyPricesExample()
    ensures ComputeFullAndMonthlyPricesForPlan(ExampleExternals(true), ExampleState(map[]), 1, Plan("abc", "def", Undefined))
         == Prices(Defined(120), Defined(10))
  {
  }

  /** Two available plans come out in reverse order of their slugs. */
  lemma ProductsWithPricesExampleOrder()
    ensures var items := map["plan1" := Defined(AvailableProduct()), "plan2" := Defined(AvailableProduct())];
      ComputeProductsWithPrices(ExampleExternals(true), ExampleState(items), 10, ["plan1", "plan2"])
      == [PricedProduct("plan2", ExamplePlan("plan2"), items["plan2"], Defined(240), Defined(20)),
          PricedProduct("plan1", ExamplePlan("plan1"), items["plan1"], Defined(120), Defined(10))]
  {
    var items := map["plan1" := Defined(AvailableProduct()), "plan2" := Defined(AvailableProduct())];
    var slugs := ["plan1", "plan2"];
    assert slugs[1..] == ["plan2"] && slugs[1..][1..] == [];
  }

  /** An unavailable product, a product missing from the catalog, and a plan
      whose discounted lookup gives undefined (while the raw price is 0) are
      each dropped. */
  lemma ProductsWithPricesExampleFilters()
    ensures var slugs := ["plan1", "plan2"];
      var plan1Entry := PricedProduct("plan1", ExamplePlan("plan1"), Defined(AvailableProduct()), Defined(120), Defined(10));
      && ComputeProductsWithPrices(ExampleExternals(true),
           ExampleState(map["plan1" := Defined(AvailableProduct()), "plan2" := Defined(Product(Defined(false), Undefined))]), 10, slugs) == [plan1Entry]
      && ComputeProductsWithPrices(ExampleExternals(true),
           ExampleState(map["plan1" := Defined(AvailableProduct())]), 10, slugs) == [plan1Entry]
      && ComputeProductsWithPrices(ExampleExternals(false),
           ExampleState(map["plan1" := Defined(AvailableProduct()), "plan2" := Defined(AvailableProduct())]), 10, slugs) == [plan1Entry]
  {
    var slugs := ["plan1", "plan2"];
    assert slugs[1..] == ["plan2"] && slugs[1..][1..] == [];
  }

  /** The display-cost tests: an empty catalog gives null, a catalog holding
      the product gives its cost string. */
  lemma DisplayCostExamples()
    ensures GetProductDisplayCost(ExampleState(map[]), "guided_transfer") == Null
    ensures GetProductDisplayCost(ExampleState(map["guided_transfer" := Defined(Product(Undefined, Defined("A$169.00")))]), "guided_transfer")
         == Defined("A$169.00")
  {
  }
}
