/** The discount engine (service/DiscountService.java): a scalar discount for a
    coupon and a cart (`CalculateDiscount`) and an itemised updated cart
    (`ApplyDiscount`). Each rule has a specification function; the rules the
    source writes as loops are methods proved equal to those functions.
    Every exception the source swallows (a details document that does not
    parse or lacks a key, an unknown type, an integer division by zero) ends
    in "discount 0" / "unchanged copy of the cart". */
module DiscountService {
  import opened Wrappers
  import opened Dto
  import opened CouponModel

  function Min(a: nat, b: nat): nat
  {
    if a <= b then a else b
  }

  // ---------------------------------------------------------------------------
  // createUpdatedCart
  // ---------------------------------------------------------------------------

  /** Every line copied with its discount reset to 0, in cart order. */
  function CopyItems(items: seq<CartItem>): (r: seq<CartItem>)
    ensures |r| == |items|
    ensures forall k :: 0 <= k < |items| ==> r[k] == items[k].(totalDiscount := 0.0)
  {
    if items == [] then [] else CopyItems(items[..|items| - 1]) + [items[|items| - 1].(totalDiscount := 0.0)]
  }

  lemma {:induction false} CopyItemsSumZero(items: seq<CartItem>)
    ensures ItemDiscountSum(CopyItems(items)) == 0.0
  {
    if items != [] {
      var n := |items| - 1;
      CopyItemsSumZero(items[..n]);
      assert CopyItems(items)[..n] == CopyItems(items[..n]);
    }
  }

  /** The unchanged-cart result: every line with discount 0, the given aggregate. */
  function CreateUpdatedCart(items: seq<CartItem>, totalDiscount: real): (u: UpdatedCart)
    ensures SameLines(u.items, items)
    ensures forall k :: 0 <= k < |u.items| ==> u.items[k].totalDiscount == 0.0
    ensures ItemDiscountSum(u.items) == 0.0
    ensures u.totalPrice == CartTotal(items) && u.totalDiscount == totalDiscount
    ensures u.finalPrice == u.totalPrice - u.totalDiscount
  {
    CopyItemsSumZero(items);
    UpdatedCart(CopyItems(items), CartTotal(items), totalDiscount, CartTotal(items) - totalDiscount)
  }

  // ---------------------------------------------------------------------------
  // Cart-wise rule
  // ---------------------------------------------------------------------------

  /** `percent` of the cart total when the total is STRICTLY above the threshold, else 0. */
  function CartWiseDiscount(threshold: real, percent: real, items: seq<CartItem>): (d: real)
    ensures CartTotal(items) > threshold ==> d == CartTotal(items) * percent / 100.0
    ensures CartTotal(items) <= threshold ==> d == 0.0
  {
    var cartTotal := CartTotal(items);
    if cartTotal > threshold then (cartTotal * percent) / 100.0 else 0.0
  }

  /** With a percentage in [0, 100] the cart-wise discount lies between 0 and the cart total,
      and it is positive exactly when the total clears the threshold and both total and
      percentage are positive. */
  lemma CartWiseWithinCart(threshold: real, percent: real, items: seq<CartItem>)
    requires NonNegativePrices(items)
    requires 0.0 <= percent <= 100.0
    ensures 0.0 <= CartWiseDiscount(threshold, percent, items) <= CartTotal(items)
    ensures CartWiseDiscount(threshold, percent, items) > 0.0
        <==> CartTotal(items) > threshold && CartTotal(items) > 0.0 && percent > 0.0
  {
    var total := CartTotal(items);
    CartTotalNonNegative(items);
    ThresholdRuleWithin(total, threshold, percent);
    assert CartWiseDiscount(threshold, percent, items) == if total > threshold then total * percent / 100.0 else 0.0;
  }

  /** The threshold rule on a non-negative total: the discount lies between 0 and the total,
      and it is positive exactly when the total clears the threshold and both total and
      percentage are positive. */
  lemma ThresholdRuleWithin(total: real, threshold: real, percent: real)
    requires total >= 0.0 && 0.0 <= percent <= 100.0
    ensures var d := if total > threshold then total * percent / 100.0 else 0.0;
      0.0 <= d <= total && (d > 0.0 <==> total > threshold && total > 0.0 && percent > 0.0)
  {
    if total > threshold {
      PercentOfWithin(total, percent);
    }
  }

  /** `percent` per cent of a non-negative amount lies between 0 and the amount, and is
      positive exactly when both are. */
  lemma PercentOfWithin(amount: real, percent: real)
    requires amount >= 0.0 && 0.0 <= percent <= 100.0
    ensures 0.0 <= amount * percent / 100.0 <= amount
    ensures amount * percent / 100.0 > 0.0 <==> amount > 0.0 && percent > 0.0
  {
    var share := percent / 100.0;
    assert amount * percent / 100.0 == amount * share;
    assert 0.0 <= share <= 1.0;
    assert amount * share <= amount * 1.0 by {
      assert amount * (1.0 - share) >= 0.0;
    }
    if amount > 0.0 && share > 0.0 {
      assert amount * share > 0.0;
    } else {
      assert amount * share == 0.0;
    }
  }

  // ---------------------------------------------------------------------------
  // Product-wise rule
  // ---------------------------------------------------------------------------

  /** `price * quantity * percent / 100` of one line. */
  function LineDiscount(item: CartItem, percent: real): real
  {
    (item.price * item.quantity as real * percent) / 100.0
  }

  /** The scalar product-wise discount: the line discount summed over the lines whose
      product id is `productId`, in cart order. */
  function ProductWiseDiscount(productId: int, percent: real, items: seq<CartItem>): real
  {
    if items == [] then 0.0
    else
      var last := items[|items| - 1];
      ProductWiseDiscount(productId, percent, items[..|items| - 1])
        + (if last.productId == productId then LineDiscount(last, percent) else 0.0)
  }

  /** The sum of `price * quantity` over the lines of product `productId`. */
  function MatchedTotal(productId: int, items: seq<CartItem>): real
  {
    if items == [] then 0.0
    else
      var last := items[|items| - 1];
      MatchedTotal(productId, items[..|items| - 1]) + (if last.productId == productId then LineTotal(last) else 0.0)
  }

  /** The scalar product-wise discount is `percent` of the matched lines' value; in
      particular it is 0 when no line carries the product. */
  lemma {:induction false} ProductWiseIsPercentOfMatched(productId: int, percent: real, items: seq<CartItem>)
    ensures ProductWiseDiscount(productId, percent, items) == MatchedTotal(productId, items) * percent / 100.0
    ensures (forall k :: 0 <= k < |items| ==> items[k].productId != productId)
            ==> ProductWiseDiscount(productId, percent, items) == 0.0
  {
    if items != [] {
      var n := |items| - 1;
      ProductWiseIsPercentOfMatched(productId, percent, items[..n]);
      if forall k :: 0 <= k < |items| ==> items[k].productId != productId {
        assert forall k :: 0 <= k < n ==> items[..n][k].productId != productId by {
          forall k | 0 <= k < n ensures items[..n][k].productId != productId {
            assert items[..n][k] == items[k];
          }
        }
      }
    }
  }

  /** One line as product-wise `apply` writes it: a copy whose discount is the line
      discount when the product matches and 0 otherwise. */
  function ProductWiseLine(item: CartItem, productId: int, percent: real): CartItem
  {
    item.(totalDiscount := if item.productId == productId then LineDiscount(item, percent) else 0.0)
  }

  /** The product-wise lines, in cart order. */
  function ProductWiseLines(productId: int, percent: real, items: seq<CartItem>): seq<CartItem>
  {
    if items == [] then []
    else ProductWiseLines(productId, percent, items[..|items| - 1]) + [ProductWiseLine(items[|items| - 1], productId, percent)]
  }

  /** The product-wise lines mirror the cart line by line, each the line's product-wise
      copy, and their discounts add up to the scalar product-wise discount. */
  lemma {:induction false} ProductWiseLinesFacts(productId: int, percent: real, items: seq<CartItem>)
    ensures SameLines(ProductWiseLines(productId, percent, items), items)
    ensures forall k :: 0 <= k < |items| ==>
      ProductWiseLines(productId, percent, items)[k] == ProductWiseLine(items[k], productId, percent)
    ensures ItemDiscountSum(ProductWiseLines(productId, percent, items)) == ProductWiseDiscount(productId, percent, items)
  {
    if items != [] {
      var n := |items| - 1;
      ProductWiseLinesFacts(productId, percent, items[..n]);
      var prior := ProductWiseLines(productId, percent, items[..n]);
      var line := ProductWiseLine(items[n], productId, percent);
      var r := ProductWiseLines(productId, percent, items);
      assert r == prior + [line];
      forall k | 0 <= k < |items|
        ensures r[k] == ProductWiseLine(items[k], productId, percent)
      {
        if k < n {
          assert r[k] == prior[k] && items[..n][k] == items[k];
        } else {
          assert |prior| == n && k == n;
          assert r[n] == line;
        }
      }
      ItemDiscountSumAppend(prior, line);
    }
  }

  /** The updated cart product-wise `apply` returns. The aggregate is what the loop
      accumulates over the matching lines. */
  function ProductWiseCart(productId: int, percent: real, items: seq<CartItem>): (u: UpdatedCart)
    ensures SameLines(u.items, items)
    ensures forall k :: 0 <= k < |u.items| && u.items[k].totalDiscount != 0.0 ==> u.items[k].productId == productId
    ensures ItemDiscountSum(u.items) == u.totalDiscount == ProductWiseDiscount(productId, percent, items)
    ensures u.totalPrice == CartTotal(items) && u.finalPrice == u.totalPrice - u.totalDiscount
  {
    ProductWiseLinesFacts(productId, percent, items);
    var totalDiscount := ProductWiseDiscount(productId, percent, items);
    UpdatedCart(ProductWiseLines(productId, percent, items), CartTotal(items), totalDiscount, CartTotal(items) - totalDiscount)
  }

  /** Product-wise `apply`: copy the lines, price the cart, and carry the loop's discount. */
  method ApplyProductWiseDiscount(productId: int, percent: real, items: seq<CartItem>) returns (u: UpdatedCart)
    ensures u == ProductWiseCart(productId, percent, items)
  {
    var updatedItems, totalDiscount := ProductWiseLoop(productId, percent, items);
    var totalPrice := CartTotal(items);
    u := UpdatedCart(updatedItems, totalPrice, totalDiscount, totalPrice - totalDiscount);
  }

  /** The loop of product-wise `apply`: build the copies one by one, set the discount on
      matching lines and accumulate it. */
  method ProductWiseLoop(productId: int, percent: real, items: seq<CartItem>)
    returns (updatedItems: seq<CartItem>, totalDiscount: real)
    ensures updatedItems == ProductWiseLines(productId, percent, items)
    ensures totalDiscount == ProductWiseDiscount(productId, percent, items)
  {
    updatedItems, totalDiscount := [], 0.0;
    var i := 0;
    while i < |items|
      invariant 0 <= i <= |items|
      invariant updatedItems == ProductWiseLines(productId, percent, items[..i])
      invariant totalDiscount == ProductWiseDiscount(productId, percent, items[..i])
    {
      var item := items[i];
      var newItem := item.(totalDiscount := 0.0);
      ghost var before := totalDiscount;
      if item.productId == productId {
        var itemDiscount := LineDiscount(item, percent);
        newItem := newItem.(totalDiscount := itemDiscount);
        totalDiscount := totalDiscount + itemDiscount;
      }
      assert newItem == ProductWiseLine(item, productId, percent);
      assert totalDiscount == before + newItem.totalDiscount;
      ProductWiseStep(productId, percent, items, i);
      updatedItems := updatedItems + [newItem];
      i := i + 1;
    }
    assert items[..|items|] == items;
  }

  /** One more line extends the product-wise lines by its copy and the discount by its share. */
  lemma ProductWiseStep(productId: int, percent: real, items: seq<CartItem>, i: nat)
    requires i < |items|
    ensures ProductWiseLines(productId, percent, items[..i + 1])
            == ProductWiseLines(productId, percent, items[..i]) + [ProductWiseLine(items[i], productId, percent)]
    ensures ProductWiseDiscount(productId, percent, items[..i + 1])
            == ProductWiseDiscount(productId, percent, items[..i]) + ProductWiseLine(items[i], productId, percent).totalDiscount
  {
    assert items[..i + 1][..i] == items[..i];
  }

  /** With a percentage in [0, 100] and non-negative prices every product-wise line
      discount lies between 0 and the line's own value. */
  lemma ProductWiseLinesWithinLine(productId: int, percent: real, items: seq<CartItem>)
    requires NonNegativePrices(items)
    requires 0.0 <= percent <= 100.0
    ensures forall k :: 0 <= k < |items| ==>
      0.0 <= ProductWiseCart(productId, percent, items).items[k].totalDiscount <= LineTotal(items[k])
  {
    ProductWiseLinesFacts(productId, percent, items);
    var u := ProductWiseCart(productId, percent, items);
    forall k | 0 <= k < |items|
      ensures 0.0 <= u.items[k].totalDiscount <= LineTotal(items[k])
    {
      assert u.items[k] == ProductWiseLine(items[k], productId, percent);
      ProductWiseLineWithin(items[k], productId, percent);
    }
  }

  /** One product-wise line discount lies between 0 and the line's value. */
  lemma ProductWiseLineWithin(item: CartItem, productId: int, percent: real)
    requires item.price >= 0.0 && 0.0 <= percent <= 100.0
    ensures 0.0 <= ProductWiseLine(item, productId, percent).totalDiscount <= LineTotal(item)
  {
    LineTotalNonNegative(item);
    if item.productId == productId {
      var value := LineTotal(item);
      PercentOfWithin(value, percent);
      assert LineDiscount(item, percent) == value * percent / 100.0;
    }
  }

  // ---------------------------------------------------------------------------
  // Buy-X-get-Y rule: deal counting
  // ---------------------------------------------------------------------------

  /** The sum of the configured quantities of a buy or get list. */
  function QuantitySum(entries: seq<ProductQuantity>): nat
  {
    if entries == [] then 0 else QuantitySum(entries[..|entries| - 1]) + entries[|entries| - 1].quantity
  }

  /** The total quantity of the cart lines of product `productId`. */
  function QuantityOf(productId: int, items: seq<CartItem>): nat
  {
    if items == [] then 0
    else
      var last := items[|items| - 1];
      QuantityOf(productId, items[..|items| - 1]) + (if last.productId == productId then last.quantity else 0)
  }

  /** For every buy entry, the quantity of its product in the cart; summed. A product
      listed twice is counted twice. */
  function BuyItemsInCart(buyProducts: seq<ProductQuantity>, items: seq<CartItem>): nat
  {
    if buyProducts == [] then 0
    else BuyItemsInCart(buyProducts[..|buyProducts| - 1], items) + QuantityOf(buyProducts[|buyProducts| - 1].productId, items)
  }

  /** The number of deals: `None` when the buy quantities sum to 0 (the integer division
      throws), otherwise the largest count within the repetition limit whose buy
      requirement the cart covers. */
  function DealsApplicable(buyProducts: seq<ProductQuantity>, repetitionLimit: nat, items: seq<CartItem>): (r: Option<nat>)
    ensures r.None? <==> QuantitySum(buyProducts) == 0
    ensures r.Some? ==> r.value <= repetitionLimit
    ensures r.Some? ==> r.value * QuantitySum(buyProducts) <= BuyItemsInCart(buyProducts, items)
    ensures r.Some? ==> r.value == repetitionLimit
                        || (r.value + 1) * QuantitySum(buyProducts) > BuyItemsInCart(buyProducts, items)
  {
    var needed := QuantitySum(buyProducts);
    if needed == 0 then None
    else
      var have := BuyItemsInCart(buyProducts, items);
      var deals := Min(have / needed, repetitionLimit);
      assert have == (have / needed) * needed + have % needed;
      assert deals * needed <= (have / needed) * needed by {
        assert deals <= have / needed;
      }
      Some(deals)
  }

  /** The loop that counts the buy products in the cart (shared by the scalar and the
      cart-producing BXGY paths, which repeat it verbatim). */
  method CountBuyItems(buyProducts: seq<ProductQuantity>, items: seq<CartItem>) returns (buyItemsInCart: nat)
    ensures buyItemsInCart == BuyItemsInCart(buyProducts, items)
  {
    buyItemsInCart := 0;
    var j := 0;
    while j < |buyProducts|
      invariant 0 <= j <= |buyProducts|
      invariant buyItemsInCart == BuyItemsInCart(buyProducts[..j], items)
    {
      buyItemsInCart := buyItemsInCart + QuantityOf(buyProducts[j].productId, items);
      assert buyProducts[..j + 1][..j] == buyProducts[..j];
      j := j + 1;
    }
    assert buyProducts[..|buyProducts|] == buyProducts;
  }

  // ---------------------------------------------------------------------------
  // Buy-X-get-Y rule: the scalar distribution (get products first, cart lines second)
  // ---------------------------------------------------------------------------

  /** The state of a distribution: discount so far and free units still to hand out. */
  datatype Grant = Grant(discount: real, remaining: nat)

  /** One cart line visited for get product `productId`: a matching line takes
      `min(quantity, remaining)` free units at its unit price. */
  function GrantLine(s: Grant, productId: int, item: CartItem): Grant
  {
    if item.productId == productId && s.remaining > 0 then
      var free := Min(item.quantity, s.remaining);
      Grant(s.discount + free as real * item.price, s.remaining - free)
    else s
  }

  /** All cart lines visited, in cart order, for one get product. */
  function GrantLines(s: Grant, productId: int, items: seq<CartItem>): Grant
  {
    if items == [] then s else GrantLine(GrantLines(s, productId, items[..|items| - 1]), productId, items[|items| - 1])
  }

  /** The get products visited in configured order; the walk stops once the budget is spent. */
  function GrantProducts(s: Grant, getProducts: seq<ProductQuantity>, items: seq<CartItem>): Grant
  {
    if getProducts == [] then s
    else
      var prior := GrantProducts(s, getProducts[..|getProducts| - 1], items);
      if prior.remaining == 0 then prior
      else GrantLines(prior, getProducts[|getProducts| - 1].productId, items)
  }

  /** The scalar BXGY discount; `None` when the division by the buy quantity throws. */
  function BxgyDiscount(buyProducts: seq<ProductQuantity>, getProducts: seq<ProductQuantity>,
                        repetitionLimit: nat, items: seq<CartItem>): Option<real>
  {
    match DealsApplicable(buyProducts, repetitionLimit, items)
    case None => None
    case Some(deals) =>
      if deals == 0 then Some(0.0)
      else Some(GrantProducts(Grant(0.0, deals * QuantitySum(getProducts)), getProducts, items).discount)
  }

  /** A spent budget stays spent: extending the get-product walk changes nothing. */
  lemma {:induction false} GrantProductsExhausted(s: Grant, getProducts: seq<ProductQuantity>, j: nat, items: seq<CartItem>)
    requires j <= |getProducts|
    requires GrantProducts(s, getProducts[..j], items).remaining == 0
    ensures GrantProducts(s, getProducts, items) == GrantProducts(s, getProducts[..j], items)
  {
    if j < |getProducts| {
      var n := |getProducts| - 1;
      assert getProducts[..n][..j] == getProducts[..j];
      GrantProductsExhausted(s, getProducts[..n], j, items);
    } else {
      assert getProducts[..j] == getProducts;
    }
  }

  /** One more cart line extends the line walk by one step. */
  lemma GrantLinesStep(s: Grant, productId: int, items: seq<CartItem>, i: nat)
    requires i < |items|
    ensures GrantLines(s, productId, items[..i + 1]) == GrantLine(GrantLines(s, productId, items[..i]), productId, items[i])
  {
    assert items[..i + 1][..i] == items[..i];
  }

  /** The inner loop of the scalar walk: the cart lines visited, in order, for one get product. */
  method GrantToLines(discount: real, remainingFreeItems: nat, productId: int, items: seq<CartItem>)
    returns (discount': real, remaining': nat)
    ensures Grant(discount', remaining') == GrantLines(Grant(discount, remainingFreeItems), productId, items)
  {
    discount', remaining' := discount, remainingFreeItems;
    var i := 0;
    while i < |items|
      invariant 0 <= i <= |items|
      invariant Grant(discount', remaining') == GrantLines(Grant(discount, remainingFreeItems), productId, items[..i])
    {
      var item := items[i];
      ghost var before := Grant(discount', remaining');
      if item.productId == productId && remaining' > 0 {
        var freeQty := Min(item.quantity, remaining');
        discount' := discount' + freeQty as real * item.price;
        remaining' := remaining' - freeQty;
      }
      assert Grant(discount', remaining') == GrantLine(before, productId, item);
      GrantLinesStep(Grant(discount, remainingFreeItems), productId, items, i);
      i := i + 1;
    }
    assert items[..|items|] == items;
  }

  /** The scalar BXGY computation: buy count, deal count, then the nested walk that
      hands out free units. */
  method CalculateBxgyDiscount(buyProducts: seq<ProductQuantity>, getProducts: seq<ProductQuantity>,
                               repetitionLimit: nat, items: seq<CartItem>) returns (r: Option<real>)
    ensures r == BxgyDiscount(buyProducts, getProducts, repetitionLimit, items)
    ensures r.None? <==> QuantitySum(buyProducts) == 0
  {
    var buyQuantityNeeded := QuantitySum(buyProducts);
    var buyItemsInCart := CountBuyItems(buyProducts, items);
    if buyQuantityNeeded == 0 {
      return None;
    }
    var dealsApplicable := Min(buyItemsInCart / buyQuantityNeeded, repetitionLimit);
    if dealsApplicable == 0 {
      return Some(0.0);
    }
    var getQuantityPerDeal := QuantitySum(getProducts);
    var totalFreeItems := dealsApplicable * getQuantityPerDeal;
    var discount := 0.0;
    var remainingFreeItems := totalFreeItems;
    ghost var start := Grant(0.0, totalFreeItems);
    var j := 0;
    while j < |getProducts|
      invariant 0 <= j <= |getProducts|
      invariant Grant(discount, remainingFreeItems) == GrantProducts(start, getProducts[..j], items)
    {
      if remainingFreeItems == 0 {
        break;
      }
      discount, remainingFreeItems := GrantToLines(discount, remainingFreeItems, getProducts[j].productId, items);
      assert getProducts[..j + 1][..j] == getProducts[..j];
      j := j + 1;
    }
    if j < |getProducts| {
      GrantProductsExhausted(start, getProducts, j, items);
    } else {
      assert getProducts[..j] == getProducts;
    }
    r := Some(discount);
  }

  // ---------------------------------------------------------------------------
  // Buy-X-get-Y rule: the itemised distribution (cart lines first, get products second)
  // ---------------------------------------------------------------------------

  /** One get entry checked against one line: a match OVERWRITES the line's discount with
      `min(quantity, remaining) * price` and takes those units from the budget. */
  function OverwriteGrant(s: Grant, item: CartItem, entry: ProductQuantity): Grant
  {
    if item.productId == entry.productId && s.remaining > 0 then
      var free := Min(item.quantity, s.remaining);
      Grant(free as real * item.price, s.remaining - free)
    else s
  }

  /** One line checked against every get entry in configured order. */
  function GrantAgainstGets(s: Grant, item: CartItem, getProducts: seq<ProductQuantity>): (r: Grant)
    ensures r.remaining <= s.remaining
  {
    if getProducts == [] then s
    else OverwriteGrant(GrantAgainstGets(s, item, getProducts[..|getProducts| - 1]), item, getProducts[|getProducts| - 1])
  }

  /** The lines the itemised walk produces and the budget it leaves. */
  datatype Distribution = Distribution(items: seq<CartItem>, remaining: nat)

  /** The itemised walk over the cart lines in order, each line starting from discount 0. */
  function ApplyGrants(items: seq<CartItem>, getProducts: seq<ProductQuantity>, budget: nat): (d: Distribution)
    ensures SameLines(d.items, items)
    ensures d.remaining <= budget
  {
    if items == [] then Distribution([], budget)
    else
      var prior := ApplyGrants(items[..|items| - 1], getProducts, budget);
      var item := items[|items| - 1];
      var s := GrantAgainstGets(Grant(0.0, prior.remaining), item, getProducts);
      Distribution(prior.items + [item.(totalDiscount := s.discount)], s.remaining)
  }

  /** The updated cart BXGY `apply` returns; `None` when the scalar path throws. The
      aggregate is the scalar discount, not the sum of the lines. */
  function BxgyCart(buyProducts: seq<ProductQuantity>, getProducts: seq<ProductQuantity>,
                    repetitionLimit: nat, items: seq<CartItem>): (r: Option<UpdatedCart>)
    ensures r.None? <==> QuantitySum(buyProducts) == 0
    ensures r.Some? ==> SameLines(r.value.items, items) && r.value.totalPrice == CartTotal(items)
    ensures r.Some? ==> r.value.totalDiscount == BxgyDiscount(buyProducts, getProducts, repetitionLimit, items).value
    ensures r.Some? ==> r.value.finalPrice == r.value.totalPrice - r.value.totalDiscount
  {
    match DealsApplicable(buyProducts, repetitionLimit, items)
    case None => None
    case Some(deals) =>
      var discount := BxgyDiscount(buyProducts, getProducts, repetitionLimit, items).value;
      if deals == 0 then Some(CreateUpdatedCart(items, 0.0))
      else
        var d := ApplyGrants(items, getProducts, deals * QuantitySum(getProducts));
        var totalPrice := CartTotal(items);
        Some(UpdatedCart(d.items, totalPrice, discount, totalPrice - discount))
  }

  /** The inner loop of the itemised walk: a fresh copy of one line with discount 0,
      checked against every get entry in configured order. */
  method DiscountLine(item: CartItem, remainingFreeItems: nat, getProducts: seq<ProductQuantity>)
    returns (newItem: CartItem, remaining': nat)
    ensures var s := GrantAgainstGets(Grant(0.0, remainingFreeItems), item, getProducts);
      newItem == item.(totalDiscount := s.discount) && remaining' == s.remaining
  {
    newItem := item.(totalDiscount := 0.0);
    remaining' := remainingFreeItems;
    var j := 0;
    while j < |getProducts|
      invariant 0 <= j <= |getProducts|
      invariant newItem == item.(totalDiscount := newItem.totalDiscount)
      invariant Grant(newItem.totalDiscount, remaining') == GrantAgainstGets(Grant(0.0, remainingFreeItems), item, getProducts[..j])
    {
      var getProductId := getProducts[j].productId;
      ghost var before := Grant(newItem.totalDiscount, remaining');
      if item.productId == getProductId && remaining' > 0 {
        var freeQty := Min(item.quantity, remaining');
        newItem := newItem.(totalDiscount := freeQty as real * item.price);
        remaining' := remaining' - freeQty;
      }
      assert Grant(newItem.totalDiscount, remaining') == OverwriteGrant(before, item, getProducts[j]);
      GrantAgainstGetsStep(Grant(0.0, remainingFreeItems), item, getProducts, j);
      j := j + 1;
    }
    assert getProducts[..|getProducts|] == getProducts;
  }

  /** One more get entry extends a line's walk by one step. */
  lemma GrantAgainstGetsStep(s: Grant, item: CartItem, getProducts: seq<ProductQuantity>, j: nat)
    requires j < |getProducts|
    ensures GrantAgainstGets(s, item, getProducts[..j + 1])
            == OverwriteGrant(GrantAgainstGets(s, item, getProducts[..j]), item, getProducts[j])
  {
    assert getProducts[..j + 1][..j] == getProducts[..j];
  }

  /** BXGY `apply`: the scalar discount first, then the deal count again, then the walk
      over cart lines that writes each line's discount. */
  method ApplyBxgyDiscount(buyProducts: seq<ProductQuantity>, getProducts: seq<ProductQuantity>,
                           repetitionLimit: nat, items: seq<CartItem>) returns (r: Option<UpdatedCart>)
    ensures r == BxgyCart(buyProducts, getProducts, repetitionLimit, items)
  {
    var discount := CalculateBxgyDiscount(buyProducts, getProducts, repetitionLimit, items);
    if discount.None? {
      return None;
    }
    var buyQuantityNeeded := QuantitySum(buyProducts);
    var buyItemsInCart := CountBuyItems(buyProducts, items);
    var dealsApplicable := Min(buyItemsInCart / buyQuantityNeeded, repetitionLimit);
    if dealsApplicable == 0 {
      return Some(CreateUpdatedCart(items, 0.0));
    }
    var getQuantityPerDeal := QuantitySum(getProducts);
    var totalFreeItems := dealsApplicable * getQuantityPerDeal;
    var updatedItems: seq<CartItem> := [];
    var remainingFreeItems := totalFreeItems;
    var i := 0;
    while i < |items|
      invariant 0 <= i <= |items|
      invariant Distribution(updatedItems, remainingFreeItems) == ApplyGrants(items[..i], getProducts, totalFreeItems)
    {
      var newItem: CartItem;
      newItem, remainingFreeItems := DiscountLine(items[i], remainingFreeItems, getProducts);
      updatedItems := updatedItems + [newItem];
      assert items[..i + 1][..i] == items[..i];
      i := i + 1;
    }
    assert items[..|items|] == items;
    var totalPrice := CartTotal(items);
    r := Some(UpdatedCart(updatedItems, totalPrice, discount.value, totalPrice - discount.value));
  }

  // ---------------------------------------------------------------------------
  // Dispatch: calculateDiscount and applyDiscount
  // ---------------------------------------------------------------------------

  /** The scalar discount of a coupon for a cart. A details document that does not parse,
      details of another rule's shape (a key the rule reads is missing), an unknown type
      and a zero buy-quantity sum all give 0. */
  function Discount(c: Coupon, items: seq<CartItem>): real
  {
    if c.details.Malformed? then 0.0
    else
      match c.couponType
      case CartWiseType =>
        if c.details.CartWise? then CartWiseDiscount(c.details.threshold, c.details.percent, items) else 0.0
      case ProductWiseType =>
        if c.details.ProductWise? then ProductWiseDiscount(c.details.productId, c.details.percent, items) else 0.0
      case BxgyType =>
        if c.details.Bxgy? then
          match BxgyDiscount(c.details.buyProducts, c.details.getProducts, c.details.repetitionLimit, items)
          case None => 0.0
          case Some(d) => d
        else 0.0
      case UnknownType => 0.0
  }

  /** The updated cart for a coupon and a cart; every failure falls back to an unchanged
      copy with aggregate 0. */
  function Applied(c: Coupon, items: seq<CartItem>): UpdatedCart
  {
    if c.details.Malformed? then CreateUpdatedCart(items, 0.0)
    else
      match c.couponType
      case CartWiseType =>
        if c.details.CartWise? then CreateUpdatedCart(items, CartWiseDiscount(c.details.threshold, c.details.percent, items))
        else CreateUpdatedCart(items, 0.0)
      case ProductWiseType =>
        if c.details.ProductWise? then ProductWiseCart(c.details.productId, c.details.percent, items)
        else CreateUpdatedCart(items, 0.0)
      case BxgyType =>
        if c.details.Bxgy? then
          match BxgyCart(c.details.buyProducts, c.details.getProducts, c.details.repetitionLimit, items)
          case None => CreateUpdatedCart(items, 0.0)
          case Some(u) => u
        else CreateUpdatedCart(items, 0.0)
      case UnknownType => CreateUpdatedCart(items, 0.0)
  }

  /** `calculateDiscount`: parse, dispatch on the type, swallow every exception as 0. */
  method CalculateDiscount(c: Coupon, items: seq<CartItem>) returns (d: real)
    ensures d == Discount(c, items)
  {
    if c.details.Malformed? {
      return 0.0;
    }
    match c.couponType
    case CartWiseType =>
      if c.details.CartWise? {
        d := CartWiseDiscount(c.details.threshold, c.details.percent, items);
      } else {
        d := 0.0;
      }
    case ProductWiseType =>
      if c.details.ProductWise? {
        d := ProductWiseDiscount(c.details.productId, c.details.percent, items);
      } else {
        d := 0.0;
      }
    case BxgyType =>
      if c.details.Bxgy? {
        var r := CalculateBxgyDiscount(c.details.buyProducts, c.details.getProducts, c.details.repetitionLimit, items);
        d := if r.Some? then r.value else 0.0;
      } else {
        d := 0.0;
      }
    case UnknownType =>
      d := 0.0;
  }

  /** `applyDiscount`: parse, dispatch on the type, fall back to an unchanged copy. */
  method ApplyDiscount(c: Coupon, items: seq<CartItem>) returns (u: UpdatedCart)
    ensures u == Applied(c, items)
  {
    if c.details.Malformed? {
      return CreateUpdatedCart(items, 0.0);
    }
    match c.couponType
    case CartWiseType =>
      if c.details.CartWise? {
        var discount := CartWiseDiscount(c.details.threshold, c.details.percent, items);
        u := CreateUpdatedCart(items, discount);
      } else {
        u := CreateUpdatedCart(items, 0.0);
      }
    case ProductWiseType =>
      if c.details.ProductWise? {
        u := ApplyProductWiseDiscount(c.details.productId, c.details.percent, items);
      } else {
        u := CreateUpdatedCart(items, 0.0);
      }
    case BxgyType =>
      if c.details.Bxgy? {
        var r := ApplyBxgyDiscount(c.details.buyProducts, c.details.getProducts, c.details.repetitionLimit, items);
        u := if r.Some? then r.value else CreateUpdatedCart(items, 0.0);
      } else {
        u := CreateUpdatedCart(items, 0.0);
      }
    case UnknownType =>
      u := CreateUpdatedCart(items, 0.0);
  }
}
