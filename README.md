# Coupons API: discount engine and coupon service

A Dafny model of the core of the `coupons-api` service. The service stores coupons and
prices shopping carts against them. It has two parts.

- **The discount engine** (`DiscountService.java`) reads a coupon and a cart. A cart is an
  ordered list of `productId` / `quantity` / `price` lines. There are three coupon kinds:
  - **cart-wise**: a percentage off the whole cart once its total strictly exceeds a
    threshold;
  - **product-wise**: a percentage off every line of one product;
  - **buy-X-get-Y (BXGY)**: a number of deals, found by integer division and capped by a
    repetition limit, each granting free units of the "get" products.

  The engine answers with a scalar discount (`calculateDiscount`) or an itemised updated
  cart (`applyDiscount`). The failures below are swallowed:
  - unparsable details, a key the rule needs that is missing, or an unknown type;
  - a division by zero when the buy quantities sum to 0.

  Each of these gives a discount of 0, or an unchanged copy of the cart with discount 0.
- **The coupon service** (`CouponService.java`) keeps a store of coupons keyed by id. It
  offers:
  - create, read, update and delete, each with a "not found" error;
  - the list of coupons whose discount for a cart is positive;
  - applying one coupon to a cart. A missing cart or item list is rejected as a bad
    request before the store is consulted.

Modules:

- `Wrappers`: `Option`, `Result`, `Outcome`.
- `Dto`: cart lines, the request cart, the updated cart, and the sums over lines.
- `CouponModel`: the coupon entity. Its type tag is kept apart from its details, as in
  the source. The details form a sum type with one shape per rule, plus `Malformed` for a
  document that does not parse.
- `DiscountService`: the engine. The pure rules (stream sums and filters) are functions.
  The loops of `applyProductWiseDiscount`, `calculateBxGyDiscount` and `applyBxGyDiscount`
  are methods, each proved equal to its specification function. Helper methods hold the
  inner loops.
- `DiscountFacts`: properties of the engine that involve several rules or both entry
  points: bounds, the zero-deal case, fallbacks, agreement and disagreement of the two
  BXGY walks, and worked examples.
- `Coupons`: the `CouponService` class over a `map<int, Coupon>` plus the ids in
  insertion order, which is the order in which the store is iterated.

Money is an exact `real`. Quantities and the repetition limit are `nat`. Ids are `int`.

### The two BXGY walks

The scalar BXGY computation (`DiscountService.java:156-168`) visits the get-products in
their configured order. For each one it visits the cart lines in cart order and stops
once the free-unit budget is 0.

The itemised computation (`DiscountService.java:208-224`) loops the other way round:
cart lines outside, get-products inside. It also *overwrites* a line's discount on every
match instead of adding to it. Its aggregate `totalDiscount` is the scalar one
(`DiscountService.java:174`, `236`).

The model keeps both walks as written:
- `BxgySingleGetItemsMatchAggregate` proves that the item discounts add up to the
  aggregate when the get list has a single entry.
- `BxgyItemsCanDisagreeWithAggregate` shows two get entries for which the lines carry
  200 while the aggregate is 2.
- `BxgyDiscountCanExceedCart` shows a get list naming the same product twice. The scalar
  walk then grants the same line twice, so the discount is larger than the cart total
  and the final price is negative.

An updated cart's `totalDiscount` is therefore not in general the sum of its line
discounts:
- cart-wise `apply` leaves every line at 0 and carries the discount only in the
  aggregate;
- BXGY `apply` can diverge as shown above.

## Model

| member | source | states |
|---|---|---|
| Dto.CartTotalNonNegative | src/main/java/com/monkcommerce/coupons/service/DiscountService.java:62-64 | with no negative price, the cart total `Σ price*qty` is not negative |
| DiscountService.CopyItems | src/main/java/com/monkcommerce/coupons/service/DiscountService.java:242-249 | the copy has the input's length, and each line equals its input line with `totalDiscount` reset to 0 |
| DiscountService.CopyItemsSumZero | src/main/java/com/monkcommerce/coupons/service/DiscountService.java:242-249 | the line discounts of the copy sum to 0 |
| DiscountService.CreateUpdatedCart | src/main/java/com/monkcommerce/coupons/service/DiscountService.java:241-261 | mirrors the lines (same product, quantity, price, order), every line discount is 0, `totalPrice` is the cart total, the aggregate is the given discount, `finalPrice = totalPrice - totalDiscount` |
| DiscountService.CartWiseDiscount | src/main/java/com/monkcommerce/coupons/service/DiscountService.java:58-70 | the discount is `total*pct/100` when the total is strictly above the threshold, and 0 otherwise, including at the threshold itself |
| DiscountService.CartWiseWithinCart | src/main/java/com/monkcommerce/coupons/service/DiscountService.java:58-70 | for non-negative prices and a percentage in 0..100, the discount lies between 0 and the cart total; it is positive exactly when the total exceeds the threshold, the total is positive and the percentage is positive |
| DiscountService.ProductWiseIsPercentOfMatched | src/main/java/com/monkcommerce/coupons/service/DiscountService.java:77-85 | the product-wise discount is pct/100 of the total of the matching lines, and it is 0 when no line matches |
| DiscountService.ProductWiseLinesFacts | src/main/java/com/monkcommerce/coupons/service/DiscountService.java:94-109 | the updated lines mirror the input; a matching line carries `price*qty*pct/100` and any other line 0; the line discounts sum to the scalar discount |
| DiscountService.ProductWiseCart | src/main/java/com/monkcommerce/coupons/service/DiscountService.java:87-121 | the lines mirror the input, only lines of the configured product carry a nonzero discount, the line discounts sum to the aggregate, which equals the scalar discount, and the prices are the cart total and total minus discount |
| DiscountService.ProductWiseLoop | src/main/java/com/monkcommerce/coupons/service/DiscountService.java:91-109 | the loop that copies each line, sets the discount on matching lines and accumulates it yields exactly the product-wise lines and the scalar product-wise discount |
| DiscountService.ApplyProductWiseDiscount | src/main/java/com/monkcommerce/coupons/service/DiscountService.java:87-121 | yields exactly the product-wise updated cart, whose properties are stated above |
| DiscountService.ProductWiseLineWithin | src/main/java/com/monkcommerce/coupons/service/DiscountService.java:102-106 | for a non-negative price and a percentage in 0..100, one line's product-wise discount lies between 0 and its `price*qty` |
| DiscountService.ProductWiseLinesWithinLine | src/main/java/com/monkcommerce/coupons/service/DiscountService.java:102-106 | for non-negative prices and a percentage in 0..100, each line's discount lies between 0 and that line's `price*qty` |
| DiscountService.DealsApplicable | src/main/java/com/monkcommerce/coupons/service/DiscountService.java:128-141 | no deal count exists exactly when the buy quantities sum to 0 (the division fails); otherwise the count is at most the repetition limit, the deals' buy units fit in the cart, and one more deal would either break the limit or not fit |
| DiscountService.CountBuyItems | src/main/java/com/monkcommerce/coupons/service/DiscountService.java:132-139 | the nested count of buy-product units in the cart equals the sum, over the buy entries, of the matching lines' quantities |
| DiscountService.GrantProductsExhausted | src/main/java/com/monkcommerce/coupons/service/DiscountService.java:156-157 | once the budget is 0 after some get-products, the remaining ones change nothing, which is what the early `break` relies on |
| DiscountService.GrantToLines | src/main/java/com/monkcommerce/coupons/service/DiscountService.java:161-167 | the inner loop over the cart lines gives each matching line `min(qty, remaining)` free units at its price and lowers the budget accordingly, as the line walk specifies |
| DiscountService.CalculateBxgyDiscount | src/main/java/com/monkcommerce/coupons/service/DiscountService.java:123-171 | the nested loops with early break compute exactly the scalar BXGY discount; the result is absent exactly when the buy quantities sum to 0 |
| DiscountService.GrantAgainstGets | src/main/java/com/monkcommerce/coupons/service/DiscountService.java:216-224 | matching one cart line against every get entry never raises the budget |
| DiscountService.ApplyGrants | src/main/java/com/monkcommerce/coupons/service/DiscountService.java:205-227 | the line-first walk mirrors the input lines and never raises the budget |
| DiscountService.BxgyCart | src/main/java/com/monkcommerce/coupons/service/DiscountService.java:173-239 | absent exactly when the buy quantities sum to 0; otherwise the lines mirror the input, `totalPrice` is the cart total, the aggregate is exactly the scalar BXGY discount, and `finalPrice = totalPrice - totalDiscount` |
| DiscountService.DiscountLine | src/main/java/com/monkcommerce/coupons/service/DiscountService.java:209-224 | the inner loop over the get entries sets the line's discount by overwriting on each match and lowers the budget, as the line-first walk specifies |
| DiscountService.ApplyBxgyDiscount | src/main/java/com/monkcommerce/coupons/service/DiscountService.java:173-239 | the loops yield exactly the BXGY updated cart |
| DiscountService.CalculateDiscount | src/main/java/com/monkcommerce/coupons/service/DiscountService.java:20-37 | dispatch on the type yields exactly the scalar discount, with 0 for malformed details, a shape mismatch, an unknown type or a zero buy sum |
| DiscountService.ApplyDiscount | src/main/java/com/monkcommerce/coupons/service/DiscountService.java:39-56 | dispatch on the type yields exactly the updated cart, with an unchanged copy and discount 0 on every failure |
| DiscountFacts.GrantLinesBounds | src/main/java/com/monkcommerce/coupons/service/DiscountService.java:161-167 | walking the cart lines for one get product never raises the budget, spends at most the product's units in the cart, and adds at most the matching lines' `price*qty` |
| DiscountFacts.GrantLineBounds | src/main/java/com/monkcommerce/coupons/service/DiscountService.java:162-166 | one line grants at most its quantity, and at most its `price*qty`, and only when it matches |
| DiscountFacts.GrantProductsBounds | src/main/java/com/monkcommerce/coupons/service/DiscountService.java:156-168 | over all get products the budget stays between 0 and its start, the units granted are at most the get products' units in the cart, and the discount grows by at most their lines' `price*qty` |
| DiscountFacts.BxgyDiscountBounds | src/main/java/com/monkcommerce/coupons/service/DiscountService.java:141-170 | the scalar BXGY discount lies between 0 and the `price*qty` of the lines each get entry matches, summed per get entry (a line named by two entries counts twice); the free units granted are at most `deals * getQuantityPerDeal` |
| DiscountFacts.NoDealNoDiscount | src/main/java/com/monkcommerce/coupons/service/DiscountService.java:141-145 | with 0 deals the scalar discount is 0 and `apply` returns the unchanged copy with discount 0 |
| DiscountFacts.GrantAgainstGetsWithinLine | src/main/java/com/monkcommerce/coupons/service/DiscountService.java:216-224 | the overwritten line discount stays between 0 and the line's `price*qty` |
| DiscountFacts.ApplyGrantsWithinLine | src/main/java/com/monkcommerce/coupons/service/DiscountService.java:205-227 | every line discount of the BXGY updated cart lies between 0 and that line's `price*qty` |
| DiscountFacts.GrantLinesSpent | src/main/java/com/monkcommerce/coupons/service/DiscountService.java:161-166 | with the budget already 0, the line walk changes nothing |
| DiscountFacts.SingleGetWalksAgree | src/main/java/com/monkcommerce/coupons/service/DiscountService.java:156-224 | with a single get entry, the line-first walk's line discounts add up to the product-first walk's discount, and both leave the same budget |
| DiscountFacts.BxgySingleGetItemsMatchAggregate | src/main/java/com/monkcommerce/coupons/service/DiscountService.java:173-238 | with a single get entry, the BXGY updated cart's line discounts add up to its aggregate, which is the scalar discount |
| DiscountFacts.BxgyItemsCanDisagreeWithAggregate | src/main/java/com/monkcommerce/coupons/service/DiscountService.java:208-236 | for two get entries and a budget of one unit, the lines carry 200 while the aggregate is 2 |
| DiscountFacts.BxgyDiscountCanExceedCart | src/main/java/com/monkcommerce/coupons/service/DiscountService.java:156-170 | a get list that names the same product twice grants the same line twice: discount 20 on a cart of 10, final price -10, lines summing to 10 |
| DiscountFacts.AppliedAgreesWithDiscount | src/main/java/com/monkcommerce/coupons/service/DiscountService.java:20-56 | for every coupon the details datatype can express (fully well-formed or `Malformed`) and every cart, the updated cart mirrors the lines, prices the whole cart, balances `finalPrice`, and carries exactly the scalar discount |
| DiscountFacts.UnusableCouponFallsBack | src/main/java/com/monkcommerce/coupons/service/DiscountService.java:20-56 | malformed details, a shape mismatch, an unknown type or a zero buy sum give a scalar discount of 0 and the unchanged copy with every line and the aggregate at 0 |
| DiscountFacts.CartWiseAppliedKeepsLines | src/main/java/com/monkcommerce/coupons/service/DiscountService.java:72-75 | cart-wise `apply` leaves every line discount at 0 and carries the cart-wise discount as the aggregate |
| DiscountFacts.ProductWiseAppliedAddsUp | src/main/java/com/monkcommerce/coupons/service/DiscountService.java:87-121 | through the dispatcher, only lines of the configured product carry a discount, and the line discounts add up to the aggregate and the scalar discount |
| DiscountFacts.CartWiseExamples | src/main/java/com/monkcommerce/coupons/service/DiscountService.java:58-75 | a 200 cart with threshold 150 at 10% gives 20 and final 180; with threshold 250 the final price is 200; at threshold 200 exactly the discount is 0 |
| DiscountFacts.ProductWiseExample | src/main/java/com/monkcommerce/coupons/service/DiscountService.java:87-121 | 3 units at 50 with 20% on that product give 30 on the line, 30 in total, final 120 |
| DiscountFacts.BxgyExample | src/main/java/com/monkcommerce/coupons/service/DiscountService.java:123-238 | buy 2 get 1 of the same product, limit 2, six units at 10: discount 20 on the line and in total, final 40 |
| Coupons.Without | src/main/java/com/monkcommerce/coupons/service/CouponService.java:105-110 | removing an id from the iteration order keeps exactly the other ids and keeps them distinct; removing an absent id changes nothing |
| Coupons.WithoutKeepsOrder | src/main/java/com/monkcommerce/coupons/service/CouponService.java:105-110 | after a delete the remaining ids keep the relative order they had in the store's iteration order |
| Coupons.ResponsesOf | src/main/java/com/monkcommerce/coupons/service/CouponService.java:50-58 | one response per id, in order, each the stored coupon's id, type and details |
| Coupons.ApplicableSound | src/main/java/com/monkcommerce/coupons/service/CouponService.java:113-131 | every applicable entry is a stored coupon of the walk, carrying its own id, type and computed discount, and that discount is positive |
| Coupons.ApplicableComplete | src/main/java/com/monkcommerce/coupons/service/CouponService.java:117-125 | a coupon of the walk has an applicable entry exactly when its discount for the cart is positive |
| Coupons.ApplicableInOrder | src/main/java/com/monkcommerce/coupons/service/CouponService.java:114-126 | applicable entries appear in the store's iteration order |
| Coupons.CouponService.CreateCoupon | src/main/java/com/monkcommerce/coupons/service/CouponService.java:33-48 | adds exactly one coupon under a fresh id, with the request's type and details, at the end of the iteration order; the response carries that id, type and details |
| Coupons.CouponService.AllCoupons | src/main/java/com/monkcommerce/coupons/service/CouponService.java:50-58 | one response per stored coupon, in iteration order, and every stored id appears |
| Coupons.CouponService.GetCouponById | src/main/java/com/monkcommerce/coupons/service/CouponService.java:76-85 | the stored coupon's id, type and details, or "not found" when the id is absent |
| Coupons.CouponService.UpdateCoupon | src/main/java/com/monkcommerce/coupons/service/CouponService.java:87-103 | an absent id gives "not found" and no change; otherwise only that coupon's type and details are replaced, under the same id, with the order and every other coupon unchanged |
| Coupons.CouponService.DeleteCoupon | src/main/java/com/monkcommerce/coupons/service/CouponService.java:105-110 | an absent id gives "not found" and no change; otherwise exactly that coupon leaves the store and the order, and every other coupon is unchanged |
| Coupons.CouponService.GetApplicableCoupons | src/main/java/com/monkcommerce/coupons/service/CouponService.java:113-131 | the list holds exactly the stored coupons whose discount for the cart is positive, each with its id, type and discount, in iteration order |
| Coupons.CouponService.ApplyCoupon | src/main/java/com/monkcommerce/coupons/service/CouponService.java:133-146 | a missing cart or item list is a bad request whatever the store holds; then an absent id is "not found"; otherwise the result is exactly the engine's updated cart for that coupon |

## Left out

- JSON handling. Reading details with Jackson, and `convertDetailsToJson` / `convertJsonToObject`, are replaced by the typed `Details` datatype. Conversion is the identity on it, so a response carries the stored details. A document that does not parse, or lacks a key the rule reads, is `Malformed`, or the details have another rule's shape. The serialisation failure of `convertDetailsToJson` (a `RuntimeException` on create or update) is not modelled.
- Floating point. Prices and discounts are exact reals, so IEEE-754 rounding of `double` sums is not modelled.
- Java `int` and `long` widths. Quantities, sums, the deal count and `deals * getQuantityPerDeal` are unbounded `nat`, so overflow is not modelled.
- Negative quantities and repetition limits cannot be expressed, because they are `nat`. A fractional or negative `Number` in the details is not modelled either.
- Null values inside a cart line (a null product id; the quantity is a primitive `int` and cannot be null) are not modelled. Their effect depends on the rule: cart-wise never reads `productId` (DiscountService.java:58-70, 241-261), so such a line still gets the full cart-wise discount; product-wise and BXGY compare product ids and throw inside the `try`, giving 0 or the unchanged copy.
- A null cart line (for example `{"items":[null]}`) cannot be expressed: a `seq<CartItem>` holds no null. For such a cart `calculateDiscount` still returns 0, but the fallback of `applyDiscount` calls `createUpdatedCart`, which dereferences the null line outside the `try` (DiscountService.java:53-54, 241-249). So `applyDiscount` and `applyCoupon` throw instead of returning the unchanged copy.
- Partly malformed details are not modelled: `Details` is either fully well-formed or `Malformed`. A BXGY get entry without `product_id` is read by the scalar walk only if the budget is not yet spent (DiscountService.java:157-159), but by the itemised walk for every cart line (line 217). For buy `[{1,1}]`, get `[{1,1}, {quantity 1, no product_id}]`, limit 1 and the cart `[{1, qty 5, price 10}]`, `calculateDiscount` returns 20 while `applyDiscount` throws and returns the unchanged copy with aggregate 0.
- DiscountFacts.AppliedAgreesWithDiscount: the agreement between the scalar discount and the `apply` aggregate is proved only for details that are fully well-formed or `Malformed`; for the partly malformed BXGY document above the source's two paths disagree.
- A null request cart for the applicable-coupons list is represented by a cart whose item list is missing, `Cart(None)`. Both give every coupon a discount of 0.
- Coupons.CouponService.GetApplicableCoupons: the coupon type is returned as the `CouponType` value rather than its `toString()` text.
- The repository. `CouponRepository` is represented by the store map plus the insertion order. Persistence, transactions, concurrency and the id generator's own rules are not modelled: ids come from a counter that starts at 1.
- The HTTP layer. The controllers and the mapping of `ResponseStatusException` or `RuntimeException` to HTTP statuses are not part of this model. The errors are the values of `ServiceError`.
