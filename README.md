# Products-list pricing selectors and the two-step data-layer adapter

This project models two independent parts of the front end of a site-management
application and proves properties of them in Dafny.

**ProductsList** (`products_list.dfy`) holds the pricing selectors of the products
list:
- the discount-or-regular price resolver;
- the join of a plan slug with its plan and catalog product;
- the full and monthly price pair of a plan;
- the priced, filtered product list;
- the display-cost and fetching-flag lookups.

The implementation file of these selectors is not part of this model. Their
behaviour is taken from what `client/state/products-list/test/selectors.js`
asserts. The external collaborators are parameters, bundled in an `Externals`
record of total functions: the plan registry (`getPlan`), the raw-price lookup and
the discounted-price lookup. A JavaScript lookup result can be `undefined`, `null`
or a value, and the model keeps the three apart (`Lookup<T>`).

**TwoStep** (`two_step.dfy`) is the adapter for the account's two-step
authentication endpoints (`client/state/data-layer/wpcom/me/two-step/index.js`).
It models:
- `fromApi`, the key-camel-casing transform. It is a loop method, proved equal to
  a left-fold specification, with lemmas about its keys and values.
- The four request builders and the validation body.
- The four store handlers.
- The exported routing table, and the running of a route's continuations.

The store is a class whose `Dispatch` appends to a log of actions. The
`camelCase` routine is an uninterpreted function parameter.

Decisions where the tests leave room:
- The resolver falls back to the raw price only when the discounted lookup gives
  exactly `null`. An `undefined` discount passes through and is then filtered
  out. This is what makes the test with an undefined discount and a raw price of
  `0` drop the plan.
- The raw-price lookup receives the caller's `isMonthly`. The discounted lookup
  receives the flag forced to `false` for a monthly-term plan.
- A slug enters the priced list only if all of these hold:
  - its plan is known;
  - its product is an object and is available;
  - neither price is `undefined`.

  The known-plan condition is there because pricing a missing plan would throw.
  The tests never reach that case.
- `getProductDisplayCost` gives `null` for any catalog entry that is not a
  product object: an absent key, an explicit `null`, or `undefined`. For a
  product object it gives the `cost_display` property as read. That is
  undefined when the object has no such property.
- A catalog product's `available` and `cost_display` may each be absent, as in
  the test objects `{ available: true }` and `{ cost_display: 'A$169.00' }`. A
  product counts as available only when `available` is `true`.
- The test at `selectors.js:246-250` makes the discounted lookup return
  `undefined`, so the model keeps all three outcomes of a lookup: `undefined`,
  `null` and a value.
- In the validation body, `action` and `remember2fa` are included only when the
  intent's value is falsy (`index.js:59-60`). The model follows these inverted
  conditions as written. `ValidateBodyOmitsTruthyFlags` states the consequence:
  a truthy `remember2fa` is never sent.

## Model

| member | source | states |
|---|---|---|
| `ProductsList.GetProductDisplayCost` | client/state/products-list/test/selectors.js:273-293 | null when the slug is not in the catalog or holds no product object; otherwise the product's `cost_display` as read, which is undefined when the product lacks it; a defined result always comes from a product object under the slug |
| `ProductsList.IsProductsListFetching` | client/state/products-list/test/selectors.js:295-305 | the result is the stored `isFetching` flag, in both directions |
| `ProductsList.DiscountFlag` | client/state/products-list/test/selectors.js:83-93 | the flag for the discount lookup is false for a monthly-term plan, whatever was asked, and is the caller's flag otherwise |
| `ProductsList.GetDiscountedOrRegularPrice` | client/state/products-list/test/selectors.js:52-81 | a non-null discounted price (including undefined) is returned as is and the raw price is ignored; a null discount gives the raw price of the plan's product id with the caller's flag |
| `ProductsList.ResolverQueriesOnly` | client/state/products-list/test/selectors.js:57-81 | the resolver reads the discount lookup only at (state, siteId, store slug, forced flag) and the raw lookup only at (state, product id, caller's flag): lookups that agree there give the same price |
| `ProductsList.MonthlyTermForcesFullPriceQuery` | client/state/products-list/test/selectors.js:91-92 | for a monthly-term plan with a discount, the monthly request and the full request both return the discount fetched with the flag false |
| `ProductsList.PlanSlugToPlanProduct` | client/state/products-list/test/selectors.js:96-131 | the result has the slug; the plan is the registry's plan or null, never undefined; the product is the catalog value under the slug passed through, undefined when the key is absent |
| `ProductsList.PlanSlugToPlanProductEmptyValues` | client/state/products-list/test/selectors.js:116-131 | an empty catalog gives `{slug, null, undefined}`; an explicit null entry gives `{slug, null, null}` |
| `ProductsList.DisplayCostAgreesWithJoin` | client/state/products-list/test/selectors.js:273-293 | the display cost is the `cost_display` of the product the join finds under the slug, and null when the join finds no product object |
| `ProductsList.ComputeFullAndMonthlyPricesForPlan` | client/state/products-list/test/selectors.js:134-145 | `priceFull` is the resolver with `isMonthly` false, `priceMonthly` the resolver with true |
| `ProductsList.MonthlyTermPlanPricesCoincide` | client/state/products-list/test/selectors.js:83-93 | for a discounted monthly-term plan both prices are the same non-monthly discounted price |
| `ProductsList.ComputeProductsWithPrices` | client/state/products-list/test/selectors.js:176-270 | the priced list is never longer than the slug list |
| `ProductsList.ProductsWithPricesIsReversedFilter` | client/state/products-list/test/selectors.js:176-202 | the priced list equals the in-order list of qualifying joined entries, reversed |
| `ProductsList.ProductsWithPricesEntryQualifies` | client/state/products-list/test/selectors.js:204-270 | every entry comes from an input slug that qualifies (known plan, product present with `available` true, both prices defined) and is that slug's join record extended with both prices |
| `ProductsList.ProductsWithPricesIncludesQualifying` | client/state/products-list/test/selectors.js:176-202 | every qualifying input slug's joined and priced record is in the list |
| `ProductsList.ProductsWithPricesMembership` | client/state/products-list/test/selectors.js:204-270 | an input slug has an entry in the list if and only if it qualifies |
| `ProductsList.LaterSlugsComeFirst` | client/state/products-list/test/selectors.js:186-201 | of two qualifying slugs, the later one's entry stands before the earlier one's |
| `ProductsList.ResolverExamples` | client/state/products-list/test/selectors.js:52-81 | with a discount of 12 and a raw price of 50 the resolver gives 12; with a null discount it gives 50 |
| `ProductsList.FullAndMonthlyPricesExample` | client/state/products-list/test/selectors.js:134-145 | the test's plan is priced 120 in full and 10 monthly |
| `ProductsList.ProductsWithPricesExampleOrder` | client/state/products-list/test/selectors.js:176-202 | the slugs `plan1, plan2` give the plan2 entry (240/20) and then the plan1 entry (120/10) |
| `ProductsList.ProductsWithPricesExampleFilters` | client/state/products-list/test/selectors.js:204-270 | an unavailable product, a product missing from the catalog and a plan whose discount is undefined while its raw price is 0 are each dropped, leaving only plan1 |
| `ProductsList.DisplayCostExamples` | client/state/products-list/test/selectors.js:273-293 | empty catalog gives null; the guided-transfer product gives `A$169.00` |
| `TwoStep.Put` | client/state/data-layer/wpcom/me/two-step/index.js:27 | property assignment: the key maps to the new value, no other key changes, existing keys keep their order and at most one key is appended, and well-formedness is kept |
| `TwoStep.FromApiSpec` | client/state/data-layer/wpcom/me/two-step/index.js:25-29 | the fold yields a well-formed object (distinct keys that are exactly the stored ones) with no more keys than the input |
| `TwoStep.FromApi` | client/state/data-layer/wpcom/me/two-step/index.js:25-29 | the reduce loop over `Object.keys(data)` returns exactly the fold of the keys in their order |
| `TwoStep.FromApiKeys` | client/state/data-layer/wpcom/me/two-step/index.js:25-29 | a key is in the output if and only if it is the camel-cased form of some input key |
| `TwoStep.FromApiLastKeyWins` | client/state/data-layer/wpcom/me/two-step/index.js:26-28 | an input key's value is stored under its camel-cased key unless a later key camel-cases to the same key |
| `TwoStep.FromApiWithoutCollisions` | client/state/data-layer/wpcom/me/two-step/index.js:25-29 | when no two input keys camel-case alike, the output maps `camelCase(k)` to `data[k]` for every input key `k` |
| `TwoStep.FromApiCollisionExample` | client/state/data-layer/wpcom/me/two-step/index.js:26-28 | two keys that camel-case alike leave a single key holding the later key's value |
| `TwoStep.ValidateBody` | client/state/data-layer/wpcom/me/two-step/index.js:57-61 | the body always holds `code` first; it holds `action` if and only if the intent's action is falsy, and `remember2fa` if and only if the intent's flag is falsy, each with the intent's value; no other key |
| `TwoStep.ValidateBodyOmitsTruthyFlags` | client/state/data-layer/wpcom/me/two-step/index.js:59-60 | the body never carries a truthy `action` or `remember2fa` |
| `TwoStep.Descriptor` | client/state/data-layer/wpcom/me/two-step/index.js:31-101 | every descriptor has API version 1.1; validate and send-SMS are POST, the others GET; only validate has a body, and it is the validation body |
| `TwoStep.DescriptorEndpoints` | client/state/data-layer/wpcom/me/two-step/index.js:31-101 | different builders call different paths; only the validation descriptor depends on the intent |
| `TwoStep.Store.Dispatch` | client/state/data-layer/wpcom/me/two-step/index.js:32 | dispatching appends the action to the log and changes nothing else |
| `TwoStep.RequestTwoStep` | client/state/data-layer/wpcom/me/two-step/index.js:31-41 | appends exactly one HTTP action: GET `/me/two-step/`, no body, carrying the intent |
| `TwoStep.ValidateTwoStepCode` | client/state/data-layer/wpcom/me/two-step/index.js:50-65 | appends exactly one HTTP action: POST `/me/two-step/validate` with the validation body, carrying the intent |
| `TwoStep.SendSmsValidationCode` | client/state/data-layer/wpcom/me/two-step/index.js:71-81 | appends exactly one HTTP action: POST `/me/two-step/sms/new`, no body, carrying the intent |
| `TwoStep.GetAppAuthCodes` | client/state/data-layer/wpcom/me/two-step/index.js:91-101 | appends exactly one HTTP action: GET `/me/two-step/app-auth-setup/`, no body, carrying the intent |
| `TwoStep.StoreFetchedTwoStep` | client/state/data-layer/wpcom/me/two-step/index.js:46-48 | appends exactly one `setTwoStep` action carrying `fromApi(data)` |
| `TwoStep.StoreTwoStepCodeValidationResult` | client/state/data-layer/wpcom/me/two-step/index.js:67-69 | appends exactly one validation-result action carrying `fromApi(data)` |
| `TwoStep.StoreSendSmsValidationCodeResult` | client/state/data-layer/wpcom/me/two-step/index.js:83-85 | appends exactly one SMS-result action carrying `fromApi(data)` |
| `TwoStep.StoreSendSmsValidationCodeError` | client/state/data-layer/wpcom/me/two-step/index.js:87-89 | appends exactly one SMS-result action carrying the raw error, not transformed |
| `TwoStep.Handlers` | client/state/data-layer/wpcom/me/two-step/index.js:103-116 | the table has exactly the four action types as keys, each with one route |
| `TwoStep.SuccessActions` | client/state/data-layer/wpcom/me/two-step/index.js:104-115 | `storeFetchedTwoStep` dispatches one `setTwoStep` of `fromApi(data)`; `storeTwoStepCodeValidationResult` one validation result of `fromApi(data)`; `storeSendSmsValidationCodeResult` one SMS result of `fromApi(data)`; `noop` nothing |
| `TwoStep.ErrorActions` | client/state/data-layer/wpcom/me/two-step/index.js:104-115 | `noop` dispatches nothing; the SMS error continuation dispatches the raw error once |
| `TwoStep.RunInitiator` | client/state/data-layer/wpcom/me/two-step/index.js:103-116 | running a route's builder appends its descriptor's HTTP action and nothing else |
| `TwoStep.RunSuccess` | client/state/data-layer/wpcom/me/two-step/index.js:103-116 | running a route's success continuation appends exactly the actions `SuccessActions` names |
| `TwoStep.RunError` | client/state/data-layer/wpcom/me/two-step/index.js:103-116 | running a route's error continuation appends exactly the actions `ErrorActions` names |
| `TwoStep.RoutingTable` | client/state/data-layer/wpcom/me/two-step/index.js:103-116 | each type calls its own builder; status routes a success to `storeFetchedTwoStep`, validate to `storeTwoStepCodeValidationResult`, send-SMS to `storeSendSmsValidationCodeResult`, app-auth codes to `noop`, with the exact store action each dispatches; only send-SMS stores an error, raw |

## Left out

- The selectors' implementation file is not part of this model. The functions are written from the behaviour the test file asserts. The external lookups (`getPlan`, `getPlanRawPrice`, `getPlanDiscountedRawPrice`) are function parameters. `applyTestFiltersToPlansList` and `abtest` are identity/constant mocks that nothing asserted depends on.
- GetDiscountedOrRegularPrice: the monthly flag is a `bool`. The call at `selectors.js:54` omits it (undefined in JavaScript); with a boolean such a call is modelled as passing `false`.
- Prices are integers. No floating-point arithmetic takes part, and `cost_display` is an opaque string.
- A catalog product has only its `available` and `cost_display` properties in the model. Other properties, such as `price` in the object at `selectors.js:99-101`, are not represented. The join passes the product through, so nothing proved depends on them. `available` is `true`, `false` or absent; a non-boolean `available` and its truthiness are not modelled.
- FromApi, StoreFetchedTwoStep, StoreTwoStepCodeValidationResult, StoreSendSmsValidationCodeResult: the response `data` is a plain object. `Object.keys` at `index.js:26` throws on `null` or `undefined` data and lists indices for a string or an array; those cases are not modelled.
- The HTTP transport, `http()` and `dispatchRequest` are defined elsewhere. `dispatchRequest` decides between the builder and the two continuations by inspecting the action's metadata; that decision is not modelled. `RunInitiator`, `RunSuccess` and `RunError` model only what each continuation does once it is chosen.
- `camelCase` is lodash's string routine. It is an uninterpreted function parameter, so nothing is proved about its output.
- In the model an object's keys are kept in insertion order. `Object.keys` lists integer-like keys first, in numeric order, and that rule is not modelled.
- Action creators from `state/two-step/actions` are not part of this model. Their actions are tagged constructors that carry the payload.
- Truthiness covers the values the model has: `NaN`, `-0` and floating-point numbers are not represented.
- The Redux store, Jest mock call recording and `deepFreeze` are test and framework infrastructure, not logic.
