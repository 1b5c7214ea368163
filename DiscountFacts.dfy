/** What the discount engine guarantees, and where its two BXGY walks part ways. */
module DiscountFacts {
  import opened Wrappers
  import opened Dto
  import opened CouponModel
  import opened DiscountService

  // ---------------------------------------------------------------------------
  // Buy-X-get-Y: bounds on the scalar distribution
  // ---------------------------------------------------------------------------

  /** The total cart quantity of every get entry's product, entry by entry (a product
      listed twice counts twice). */
  function GetUnits(getProducts: seq<ProductQuantity>, items: seq<CartItem>): nat
  {
    if getProducts == [] then 0
    else GetUnits(getProducts[..|getProducts| - 1], items) + QuantityOf(getProducts[|getProducts| - 1].productId, items)
  }

  /** The value of every get entry's matched lines, entry by entry. */
  function GetCapacity(getProducts: seq<ProductQuantity>, items: seq<CartItem>): real
  {
    if getProducts == [] then 0.0
    else GetCapacity(getProducts[..|getProducts| - 1], items) + MatchedTotal(getProducts[|getProducts| - 1].productId, items)
  }

  lemma PrefixNonNegative(items: seq<CartItem>, n: nat)
    requires n <= |items|
    requires NonNegativePrices(items)
    ensures NonNegativePrices(items[..n])
  {
    forall k | 0 <= k < n ensures items[..n][k].price >= 0.0 {
      assert items[..n][k] == items[k];
    }
  }

  /** One get product's pass over the cart: the budget only shrinks, by at most the
      product's quantity in the cart, and the discount grows by at most the value of the
      matched lines. */
  lemma {:induction false} GrantLinesBounds(s: Grant, productId: int, items: seq<CartItem>)
    requires NonNegativePrices(items)
    ensures GrantLines(s, productId, items).remaining <= s.remaining
    ensures s.remaining - GrantLines(s, productId, items).remaining <= QuantityOf(productId, items)
    ensures s.discount <= GrantLines(s, productId, items).discount <= s.discount + MatchedTotal(productId, items)
  {
    if items != [] {
      var n := |items| - 1;
      PrefixNonNegative(items, n);
      GrantLinesBounds(s, productId, items[..n]);
      var p := GrantLines(s, productId, items[..n]);
      assert items[n].price >= 0.0;
      GrantLineBounds(p, productId, items[n]);
    }
  }

  /** One line visited: at most the line's quantity leaves the budget and at most the
      line's value is added to the discount. */
  lemma GrantLineBounds(p: Grant, productId: int, item: CartItem)
    requires item.price >= 0.0
    ensures var t := GrantLine(p, productId, item);
      && t.remaining <= p.remaining
      && p.remaining - t.remaining <= (if item.productId == productId then item.quantity else 0)
      && p.discount <= t.discount <= p.discount + (if item.productId == productId then LineTotal(item) else 0.0)
  {
    if item.productId == productId && p.remaining > 0 {
      var free := Min(item.quantity, p.remaining);
      FreeUnitsWithinLine(free, item);
    }
  }

  /** `free` units of a line are worth between 0 and the line's value. */
  lemma FreeUnitsWithinLine(free: nat, item: CartItem)
    requires free <= item.quantity && item.price >= 0.0
    ensures 0.0 <= free as real * item.price <= LineTotal(item)
  {
    var rest := (item.quantity - free) as real;
    assert rest * item.price >= 0.0;
    assert LineTotal(item) == free as real * item.price + rest * item.price;
  }

  /** The whole scalar walk: free units handed out never exceed the budget nor the get
      products' quantity in the cart, and the discount never exceeds the value of the
      get products' lines. */
  lemma {:induction false} GrantProductsBounds(s: Grant, getProducts: seq<ProductQuantity>, items: seq<CartItem>)
    requires NonNegativePrices(items)
    ensures GrantProducts(s, getProducts, items).remaining <= s.remaining
    ensures s.remaining - GrantProducts(s, getProducts, items).remaining <= GetUnits(getProducts, items)
    ensures s.discount <= GrantProducts(s, getProducts, items).discount <= s.discount + GetCapacity(getProducts, items)
  {
    if getProducts != [] {
      var n := |getProducts| - 1;
      GrantProductsBounds(s, getProducts[..n], items);
      var p := GrantProducts(s, getProducts[..n], items);
      MatchedTotalNonNegative(getProducts[n].productId, items);
      if p.remaining != 0 {
        GrantLinesBounds(p, getProducts[n].productId, items);
      }
    }
  }

  lemma {:induction false} MatchedTotalNonNegative(productId: int, items: seq<CartItem>)
    requires NonNegativePrices(items)
    ensures MatchedTotal(productId, items) >= 0.0
  {
    if items != [] {
      var n := |items| - 1;
      PrefixNonNegative(items, n);
      MatchedTotalNonNegative(productId, items[..n]);
      assert items[n].price >= 0.0;
    }
  }

  /** The scalar BXGY discount, when defined, lies between 0 and the value of the get
      products' lines; the free units handed out stay within `deals * getQuantityPerDeal`
      and within the get products' quantity in the cart. */
  lemma BxgyDiscountBounds(buyProducts: seq<ProductQuantity>, getProducts: seq<ProductQuantity>,
                           repetitionLimit: nat, items: seq<CartItem>)
    requires NonNegativePrices(items)
    ensures match BxgyDiscount(buyProducts, getProducts, repetitionLimit, items)
            case None => true
            case Some(d) => 0.0 <= d <= GetCapacity(getProducts, items)
    ensures match DealsApplicable(buyProducts, repetitionLimit, items)
            case None => true
            case Some(deals) =>
              var budget := deals * QuantitySum(getProducts);
              var t := GrantProducts(Grant(0.0, budget), getProducts, items);
              t.remaining <= budget && budget - t.remaining <= GetUnits(getProducts, items)
  {
    GetCapacityNonNegative(getProducts, items);
    match DealsApplicable(buyProducts, repetitionLimit, items)
    case None =>
    case Some(deals) =>
      GrantProductsBounds(Grant(0.0, deals * QuantitySum(getProducts)), getProducts, items);
  }

  lemma {:induction false} GetCapacityNonNegative(getProducts: seq<ProductQuantity>, items: seq<CartItem>)
    requires NonNegativePrices(items)
    ensures GetCapacity(getProducts, items) >= 0.0
  {
    if getProducts != [] {
      GetCapacityNonNegative(getProducts[..|getProducts| - 1], items);
      MatchedTotalNonNegative(getProducts[|getProducts| - 1].productId, items);
    }
  }

  /** No deal: the scalar discount is 0 and `apply` returns an unchanged copy. */
  lemma NoDealNoDiscount(buyProducts: seq<ProductQuantity>, getProducts: seq<ProductQuantity>,
                         repetitionLimit: nat, items: seq<CartItem>)
    requires DealsApplicable(buyProducts, repetitionLimit, items) == Some(0)
    ensures BxgyDiscount(buyProducts, getProducts, repetitionLimit, items) == Some(0.0)
    ensures BxgyCart(buyProducts, getProducts, repetitionLimit, items) == Some(CreateUpdatedCart(items, 0.0))
  {
  }

  // ---------------------------------------------------------------------------
  // Buy-X-get-Y: the itemised walk
  // ---------------------------------------------------------------------------

  /** Whatever get entries a line is checked against, its discount ends between 0 and the
      line's own value (the last match overwrites, it never adds). */
  lemma {:induction false} GrantAgainstGetsWithinLine(s: Grant, item: CartItem, getProducts: seq<ProductQuantity>)
    requires item.price >= 0.0
    requires 0.0 <= s.discount <= LineTotal(item)
    ensures 0.0 <= GrantAgainstGets(s, item, getProducts).discount <= LineTotal(item)
  {
    if getProducts != [] {
      var n := |getProducts| - 1;
      GrantAgainstGetsWithinLine(s, item, getProducts[..n]);
      var p := GrantAgainstGets(s, item, getProducts[..n]);
      if item.productId == getProducts[n].productId && p.remaining > 0 {
        FreeUnitsWithinLine(Min(item.quantity, p.remaining), item);
      }
    }
  }

  /** Every line of the itemised walk keeps `0 <= totalDiscount <= price * quantity`. */
  lemma {:induction false} ApplyGrantsWithinLine(items: seq<CartItem>, getProducts: seq<ProductQuantity>, budget: nat)
    requires NonNegativePrices(items)
    ensures forall k :: 0 <= k < |items| ==>
      0.0 <= ApplyGrants(items, getProducts, budget).items[k].totalDiscount <= LineTotal(items[k])
  {
    if items != [] {
      var n := |items| - 1;
      PrefixNonNegative(items, n);
      ApplyGrantsWithinLine(items[..n], getProducts, budget);
      var prior := ApplyGrants(items[..n], getProducts, budget);
      assert items[n].price >= 0.0;
      GrantAgainstGetsWithinLine(Grant(0.0, prior.remaining), items[n], getProducts);
      var d := ApplyGrants(items, getProducts, budget);
      forall k | 0 <= k < |items|
        ensures 0.0 <= d.items[k].totalDiscount <= LineTotal(items[k])
      {
        if k < n {
          assert d.items[k] == prior.items[k];
          assert items[..n][k] == items[k];
        }
      }
    }
  }

  /** A pass that starts with no budget changes nothing. */
  lemma {:induction false} GrantLinesSpent(s: Grant, productId: int, items: seq<CartItem>)
    requires s.remaining == 0
    ensures GrantLines(s, productId, items) == s
  {
    if items != [] {
      GrantLinesSpent(s, productId, items[..|items| - 1]);
    }
  }

  /** With a single get entry the two walks visit the same lines in the same order: the
      itemised lines add up to the scalar pass and leave the same budget. */
  lemma {:induction false} SingleGetWalksAgree(items: seq<CartItem>, entry: ProductQuantity, budget: nat)
    ensures ItemDiscountSum(ApplyGrants(items, [entry], budget).items)
            == GrantLines(Grant(0.0, budget), entry.productId, items).discount
    ensures ApplyGrants(items, [entry], budget).remaining
            == GrantLines(Grant(0.0, budget), entry.productId, items).remaining
  {
    if items != [] {
      var n := |items| - 1;
      SingleGetWalksAgree(items[..n], entry, budget);
      var prior := ApplyGrants(items[..n], [entry], budget);
      var g := GrantLines(Grant(0.0, budget), entry.productId, items[..n]);
      var line := OverwriteGrant(Grant(0.0, prior.remaining), items[n], entry);
      SingleGetLine(prior.remaining, items[n], entry);
      var newItem := items[n].(totalDiscount := line.discount);
      assert ApplyGrants(items, [entry], budget) == Distribution(prior.items + [newItem], line.remaining);
      ItemDiscountSumAppend(prior.items, newItem);
      OverwriteFromZero(g, items[n], entry);
    }
  }

  /** A line checked against a one-entry get list is checked against that entry alone. */
  lemma SingleGetLine(remaining: nat, item: CartItem, entry: ProductQuantity)
    ensures GrantAgainstGets(Grant(0.0, remaining), item, [entry]) == OverwriteGrant(Grant(0.0, remaining), item, entry)
  {
    assert [entry][..0] == [];
  }

  /** Overwriting from 0 grants what the scalar walk adds for the same line and budget. */
  lemma OverwriteFromZero(g: Grant, item: CartItem, entry: ProductQuantity)
    ensures var o := OverwriteGrant(Grant(0.0, g.remaining), item, entry);
      GrantLine(g, entry.productId, item) == Grant(g.discount + o.discount, o.remaining)
  {
  }


  /** When `get_products` names one product once, the lines of BXGY `apply` add up to its
      aggregate, which is the scalar discount. */
  lemma BxgySingleGetItemsMatchAggregate(buyProducts: seq<ProductQuantity>, entry: ProductQuantity,
                                         repetitionLimit: nat, items: seq<CartItem>)
    requires QuantitySum(buyProducts) != 0
    ensures var u := BxgyCart(buyProducts, [entry], repetitionLimit, items).value;
      && ItemDiscountSum(u.items) == u.totalDiscount
      && u.totalDiscount == BxgyDiscount(buyProducts, [entry], repetitionLimit, items).value
  {
    var deals := DealsApplicable(buyProducts, repetitionLimit, items).value;
    if deals != 0 {
      var budget := deals * QuantitySum([entry]);
      SingleGetWalksAgree(items, entry, budget);
      assert [entry][..0] == [];
      var start := Grant(0.0, budget);
      assert GrantProducts(start, [entry][..0], items) == start;
      var scalar := if budget == 0 then start else GrantLines(start, entry.productId, items);
      assert GrantProducts(start, [entry], items) == scalar;
      if budget == 0 {
        GrantLinesSpent(start, entry.productId, items);
      }
      assert BxgyDiscount(buyProducts, [entry], repetitionLimit, items) == Some(scalar.discount);
      assert BxgyCart(buyProducts, [entry], repetitionLimit, items).value.items == ApplyGrants(items, [entry], budget).items;
    }
  }

  /** The walks can disagree. "Buy two of product 3, get one 3 and one 7": with two of each
      in the cart one deal applies and the budget is 2. The scalar walk spends it on the
      cheap product 3 (discount 2), the itemised walk on the product-7 line that comes first
      in the cart (line discount 200), so the lines add up to 200 while the aggregate is 2. */
  lemma BxgyItemsCanDisagreeWithAggregate()
    ensures var items := [CartItem(7, 2, 100.0, 0.0), CartItem(3, 2, 1.0, 0.0)];
      var u := BxgyCart([ProductQuantity(3, 2)], [ProductQuantity(3, 1), ProductQuantity(7, 1)], 1, items).value;
      && u.totalDiscount == 2.0
      && u.items[0].totalDiscount == 200.0 && u.items[1].totalDiscount == 0.0
      && ItemDiscountSum(u.items) == 200.0
  {
    var items := [CartItem(7, 2, 100.0, 0.0), CartItem(3, 2, 1.0, 0.0)];
    var buy := [ProductQuantity(3, 2)];
    var get := [ProductQuantity(3, 1), ProductQuantity(7, 1)];
    assert items[..1] == [CartItem(7, 2, 100.0, 0.0)];
    assert items[..1][..0] == [];
    assert buy[..0] == [];
    assert get[..1] == [ProductQuantity(3, 1)];
    assert get[..1][..0] == [];
    assert QuantityOf(3, items) == 2;
    assert BuyItemsInCart(buy, items) == 2;
    assert QuantitySum(get) == 2;
    assert DealsApplicable(buy, 1, items) == Some(1);
    var g0 := Grant(0.0, 2);
    assert GrantLines(g0, 3, items) == Grant(2.0, 0);
    assert GrantProducts(g0, get[..1], items) == Grant(2.0, 0);
    assert GrantProducts(g0, get, items) == Grant(2.0, 0);
    assert ApplyGrants([], get, 2) == Distribution([], 2);
    var d1 := ApplyGrants(items[..1], get, 2);
    assert GrantAgainstGets(Grant(0.0, 2), items[0], get) == Grant(200.0, 0);
    assert d1 == Distribution([CartItem(7, 2, 100.0, 200.0)], 0);
    assert GrantAgainstGets(Grant(0.0, 0), items[1], get) == Grant(0.0, 0);
    var d := ApplyGrants(items, get, 2);
    assert d.items == [CartItem(7, 2, 100.0, 200.0), CartItem(3, 2, 1.0, 0.0)];
    assert d.items[..1] == [CartItem(7, 2, 100.0, 200.0)];
    assert d.items[..1][..0] == [];
  }

  /** A product listed twice among the get entries is paid out twice by the scalar walk:
      "buy one 3, get 3 and 3" on a cart holding a single 3 at 10 yields a discount of 20,
      twice the cart total, while the itemised line (overwritten, not added) shows 10. */
  lemma BxgyDiscountCanExceedCart()
    ensures var items := [CartItem(3, 1, 10.0, 0.0)];
      var u := BxgyCart([ProductQuantity(3, 1)], [ProductQuantity(3, 1), ProductQuantity(3, 1)], 1, items).value;
      && CartTotal(items) == 10.0
      && u.totalDiscount == 20.0 && u.finalPrice == -10.0
      && ItemDiscountSum(u.items) == 10.0
  {
    var items := [CartItem(3, 1, 10.0, 0.0)];
    var buy := [ProductQuantity(3, 1)];
    var get := [ProductQuantity(3, 1), ProductQuantity(3, 1)];
    assert items[..0] == [];
    assert buy[..0] == [];
    assert get[..1] == [ProductQuantity(3, 1)];
    assert get[..1][..0] == [];
    assert QuantityOf(3, items) == 1;
    assert DealsApplicable(buy, 1, items) == Some(1);
    assert QuantitySum(get) == 2;
    var g0 := Grant(0.0, 2);
    assert GrantLines(g0, 3, items) == Grant(10.0, 1);
    assert GrantProducts(g0, get[..1], items) == Grant(10.0, 1);
    assert GrantLines(Grant(10.0, 1), 3, items) == Grant(20.0, 0);
    assert GrantProducts(g0, get, items) == Grant(20.0, 0);
    assert GrantAgainstGets(Grant(0.0, 2), items[0], get[..1]) == Grant(10.0, 1);
    assert GrantAgainstGets(Grant(0.0, 2), items[0], get) == Grant(10.0, 0);
    var d := ApplyGrants(items, get, 2);
    assert d.items == [CartItem(3, 1, 10.0, 10.0)];
    assert d.items[..0] == [];
  }

  // ---------------------------------------------------------------------------
  // The two entry points together
  // ---------------------------------------------------------------------------

  /** A coupon the engine cannot use: unparsable details, an unknown type, details of
      another rule's shape, or BXGY buy quantities that sum to 0. */
  predicate Unusable(c: Coupon)
  {
    || c.details.Malformed?
    || c.couponType.UnknownType?
    || (c.couponType.CartWiseType? && !c.details.CartWise?)
    || (c.couponType.ProductWiseType? && !c.details.ProductWise?)
    || (c.couponType.BxgyType? && !c.details.Bxgy?)
    || (c.couponType.BxgyType? && c.details.Bxgy? && QuantitySum(c.details.buyProducts) == 0)
  }

  /** Every updated cart mirrors the input lines, prices the whole cart, balances
      `finalPrice = totalPrice - totalDiscount`, and carries as its aggregate exactly the
      scalar discount for the same coupon and cart. */
  lemma AppliedAgreesWithDiscount(c: Coupon, items: seq<CartItem>)
    ensures var u := Applied(c, items);
      && SameLines(u.items, items)
      && u.totalPrice == CartTotal(items)
      && u.finalPrice == u.totalPrice - u.totalDiscount
      && u.totalDiscount == Discount(c, items)
  {
    if !c.details.Malformed? && c.couponType.BxgyType? && c.details.Bxgy? {
      var b := BxgyCart(c.details.buyProducts, c.details.getProducts, c.details.repetitionLimit, items);
      assert b.None? <==> BxgyDiscount(c.details.buyProducts, c.details.getProducts, c.details.repetitionLimit, items).None?;
    }
  }

  /** Permissive failure: an unusable coupon gives discount 0 and an unchanged copy of the
      cart with every line discount and the aggregate at 0. */
  lemma UnusableCouponFallsBack(c: Coupon, items: seq<CartItem>)
    requires Unusable(c)
    ensures Discount(c, items) == 0.0
    ensures Applied(c, items) == CreateUpdatedCart(items, 0.0)
    ensures forall k :: 0 <= k < |items| ==> Applied(c, items).items[k].totalDiscount == 0.0
    ensures Applied(c, items).totalDiscount == 0.0
  {
    if !c.details.Malformed? && c.couponType.BxgyType? && c.details.Bxgy? {
      assert DealsApplicable(c.details.buyProducts, c.details.repetitionLimit, items).None?;
    }
  }

  /** Cart-wise `apply` leaves every line discount at 0 and carries the discount only in
      the aggregate. */
  lemma CartWiseAppliedKeepsLines(c: Coupon, items: seq<CartItem>)
    requires c.couponType.CartWiseType? && c.details.CartWise?
    ensures var u := Applied(c, items);
      && (forall k :: 0 <= k < |u.items| ==> u.items[k].totalDiscount == 0.0)
      && u.totalDiscount == CartWiseDiscount(c.details.threshold, c.details.percent, items)
      && u.totalDiscount == Discount(c, items)
  {
  }

  /** Product-wise `apply`: only lines of the configured product get a non-zero discount,
      and the lines add up to the aggregate, which is the scalar discount. */
  lemma ProductWiseAppliedAddsUp(c: Coupon, items: seq<CartItem>)
    requires c.couponType.ProductWiseType? && c.details.ProductWise?
    ensures var u := Applied(c, items);
      && (forall k :: 0 <= k < |u.items| && u.items[k].totalDiscount != 0.0 ==> u.items[k].productId == c.details.productId)
      && ItemDiscountSum(u.items) == u.totalDiscount == Discount(c, items)
  {
  }

  // ---------------------------------------------------------------------------
  // Worked examples
  // ---------------------------------------------------------------------------

  /** Two units at 100 against "10% over 150": total 200, discount 20, final 180; against
      "10% over 250" nothing; and exactly at the threshold nothing either. */
  lemma CartWiseExamples()
    ensures var items := [CartItem(1, 2, 100.0, 0.0)];
      && Applied(Coupon(1, CartWiseType, CartWise(150.0, 10.0)), items).totalDiscount == 20.0
      && Applied(Coupon(1, CartWiseType, CartWise(150.0, 10.0)), items).finalPrice == 180.0
      && Applied(Coupon(1, CartWiseType, CartWise(250.0, 10.0)), items).finalPrice == 200.0
      && Discount(Coupon(1, CartWiseType, CartWise(200.0, 10.0)), items) == 0.0
  {
    var items := [CartItem(1, 2, 100.0, 0.0)];
    assert items[..0] == [];
    assert CartTotal(items) == 200.0;
  }

  /** Three units of product 5 at 50 with 20% off product 5: line discount 30, final 120. */
  lemma ProductWiseExample()
    ensures var u := Applied(Coupon(2, ProductWiseType, ProductWise(5, 20.0)), [CartItem(5, 3, 50.0, 0.0)]);
      && u.items[0].totalDiscount == 30.0 && u.totalDiscount == 30.0 && u.finalPrice == 120.0
  {
    var items := [CartItem(5, 3, 50.0, 0.0)];
    assert items[..0] == [];
    assert CartTotal(items) == 150.0;
    assert ProductWiseDiscount(5, 20.0, items) == 30.0;
  }

  /** Six units of product 1 at 10, "buy two 1, get one 1, at most twice": two deals, two
      free units, discount 20, final 40. */
  lemma BxgyExample()
    ensures var u := Applied(Coupon(3, BxgyType, Bxgy([ProductQuantity(1, 2)], [ProductQuantity(1, 1)], 2)),
                             [CartItem(1, 6, 10.0, 0.0)]);
      && u.totalDiscount == 20.0 && u.finalPrice == 40.0 && u.items[0].totalDiscount == 20.0
  {
    var items := [CartItem(1, 6, 10.0, 0.0)];
    var buy := [ProductQuantity(1, 2)];
    var get := [ProductQuantity(1, 1)];
    assert items[..0] == [];
    assert buy[..0] == [];
    assert get[..0] == [];
    assert CartTotal(items) == 60.0;
    assert BuyItemsInCart(buy, items) == 6;
    assert DealsApplicable(buy, 2, items) == Some(2);
    assert QuantitySum(get) == 1;
    assert GrantProducts(Grant(0.0, 2), get, items) == Grant(20.0, 0);
    assert GrantAgainstGets(Grant(0.0, 2), items[0], get) == Grant(20.0, 0);
    assert ApplyGrants(items, get, 2).items == [CartItem(1, 6, 10.0, 20.0)];
  }
}
