/** The cart-side data transfer objects (dto/CartItem.java, dto/UpdatedCart.java)
    and the sums that the discount engine takes over them. */
module Dto {
  import opened Wrappers

  /** One cart line. `totalDiscount` is 0 on input and filled in on output. */
  datatype CartItem = CartItem(productId: int, quantity: nat, price: real, totalDiscount: real)

  /** A request body: the item list may be missing altogether. */
  datatype Cart = Cart(items: Option<seq<CartItem>>)

  /** The cart the engine hands back, with per-line and aggregate discounts. */
  datatype UpdatedCart = UpdatedCart(items: seq<CartItem>, totalPrice: real, totalDiscount: real, finalPrice: real)

  /** price * quantity of one line. */
  function LineTotal(item: CartItem): real
  {
    item.price * item.quantity as real
  }

  /** The sum of `price * quantity` over every line, in cart order. */
  function CartTotal(items: seq<CartItem>): real
  {
    if items == [] then 0.0 else CartTotal(items[..|items| - 1]) + LineTotal(items[|items| - 1])
  }

  /** The sum of the lines' `totalDiscount` fields. */
  function ItemDiscountSum(items: seq<CartItem>): real
  {
    if items == [] then 0.0 else ItemDiscountSum(items[..|items| - 1]) + items[|items| - 1].totalDiscount
  }

  /** No unit price is negative (what a real cart carries). */
  predicate NonNegativePrices(items: seq<CartItem>)
  {
    forall k :: 0 <= k < |items| ==> items[k].price >= 0.0
  }

  /** `out` mirrors `items` line by line: same length, order, product, quantity and price. */
  predicate SameLines(out: seq<CartItem>, items: seq<CartItem>)
  {
    && |out| == |items|
    && forall k :: 0 <= k < |items| ==>
         && out[k].productId == items[k].productId
         && out[k].quantity == items[k].quantity
         && out[k].price == items[k].price
  }

  /** Appending a line adds its discount to the sum. */
  lemma ItemDiscountSumAppend(lines: seq<CartItem>, line: CartItem)
    ensures ItemDiscountSum(lines + [line]) == ItemDiscountSum(lines) + line.totalDiscount
  {
    assert (lines + [line])[..|lines|] == lines;
  }

  /** A line with a non-negative price is worth a non-negative amount. */
  lemma LineTotalNonNegative(item: CartItem)
    requires item.price >= 0.0
    ensures LineTotal(item) >= 0.0
  {
  }

  lemma {:induction false} CartTotalNonNegative(items: seq<CartItem>)
    requires NonNegativePrices(items)
    ensures CartTotal(items) >= 0.0
  {
    if items != [] {
      var n := |items| - 1;
      assert NonNegativePrices(items[..n]) by {
        forall k | 0 <= k < n ensures items[..n][k].price >= 0.0 {
          assert items[..n][k] == items[k];
        }
      }
      CartTotalNonNegative(items[..n]);
      assert items[n].price >= 0.0;
    }
  }
}
