/** The coupon service (service/CouponService.java): create, read, update and delete
    coupons in a store keyed by id, list the coupons that apply to a cart, and apply
    one coupon to a cart. The repository is a map from id to coupon plus the ids in
    insertion order, which is the order in which the store is iterated. */
module Coupons {
  import opened Wrappers
  import opened Dto
  import opened CouponModel
  import opened DiscountService

  /** A create or update request: a type and a details payload. */
  datatype CreateCouponRequest = CreateCouponRequest(couponType: CouponType, details: Details)

  /** A coupon as the service returns it, details in structured form. */
  datatype CouponResponse = CouponResponse(id: int, couponType: CouponType, details: Details)

  /** One entry of the applicable-coupons list. */
  datatype ApplicableCoupon = ApplicableCoupon(couponId: int, couponType: CouponType, discount: real)

  datatype ApplicableCouponsResponse = ApplicableCouponsResponse(applicableCoupons: seq<ApplicableCoupon>)

  datatype ApplyCouponResponse = ApplyCouponResponse(updatedCart: UpdatedCart)

  /** `NotFound` is the plain runtime exception of the CRUD operations; `StatusNotFound` and
      `StatusBadRequest` are the status exceptions of `applyCoupon`. */
  datatype ServiceError = NotFound(id: int) | StatusNotFound(id: int) | StatusBadRequest

  /** Details go to JSON and back unchanged, so a response carries the stored details. */
  function ResponseOf(c: Coupon): CouponResponse
  {
    CouponResponse(c.id, c.couponType, c.details)
  }

  /** The discount `calculateDiscount` computes for a request cart: with the item list
      missing every rule throws on the first access, which is swallowed as 0. */
  function CartDiscount(c: Coupon, cart: Cart): real
  {
    match cart.items
    case None => 0.0
    case Some(items) => Discount(c, items)
  }

  /** The applicable-coupons list: the coupons with a positive discount, in the order of `ids`. */
  function ApplicableIn(ids: seq<int>, store: map<int, Coupon>, cart: Cart): seq<ApplicableCoupon>
    requires forall k :: 0 <= k < |ids| ==> ids[k] in store
  {
    if ids == [] then []
    else
      var prior := ApplicableIn(ids[..|ids| - 1], store, cart);
      var c := store[ids[|ids| - 1]];
      var discount := CartDiscount(c, cart);
      if discount > 0.0 then prior + [ApplicableCoupon(c.id, c.couponType, discount)] else prior
  }

  /** The ids of a sequence without `id`, in their order. */
  function Without(ids: seq<int>, id: int): (r: seq<int>)
    ensures forall x :: x in r <==> x in ids && x != id
    ensures Distinct(ids) ==> Distinct(r)
    ensures id !in ids ==> r == ids
  {
    if ids == [] then []
    else
      var prior := Without(ids[..|ids| - 1], id);
      var last := ids[|ids| - 1];
      assert Distinct(ids) ==> Distinct(ids[..|ids| - 1]);
      assert forall x :: x in ids[..|ids| - 1] || x == last <==> x in ids by {
        assert ids == ids[..|ids| - 1] + [last];
      }
      if last == id then prior
      else
        var front := ids[..|ids| - 1];
        assert Distinct(ids) ==> last !in prior by {
          if Distinct(ids) {
            assert forall k :: 0 <= k < |front| ==> front[k] == ids[k] != last;
          }
        }
        prior + [last]
  }

  /** The ids of `r` stand in the order they have in `ids`. */
  predicate InOrderOf(r: seq<int>, ids: seq<int>)
  {
    forall k1, k2 :: 0 <= k1 < k2 < |r| ==>
      r[k1] in ids && r[k2] in ids && Position(ids, r[k1]) < Position(ids, r[k2])
  }

  /** Removing an id keeps the other ids in their order. */
  lemma {:induction false} WithoutKeepsOrder(ids: seq<int>, id: int)
    requires Distinct(ids)
    ensures InOrderOf(Without(ids, id), ids)
  {
    if ids != [] {
      var n := |ids| - 1;
      var prefix := ids[..n];
      var last := ids[n];
      assert forall k :: 0 <= k < n ==> prefix[k] == ids[k];
      assert Distinct(prefix);
      WithoutKeepsOrder(prefix, id);
      var prior := Without(prefix, id);
      OrderInPrefix(ids, n, prior);
      if last != id {
        PositionOfDistinct(ids, n);
        var r := prior + [last];
        forall k1, k2 | 0 <= k1 < k2 < |r|
          ensures r[k1] in ids && r[k2] in ids && Position(ids, r[k1]) < Position(ids, r[k2])
        {
          assert r[k1] == prior[k1];
          if k2 < |prior| {
            assert r[k2] == prior[k2];
          }
        }
        assert InOrderOf(r, ids);
      }
    }
  }

  /** Ids in the order of the first `n` ids stand in that order in the whole, before `n`. */
  lemma {:induction false} OrderInPrefix(ids: seq<int>, n: nat, r: seq<int>)
    requires n <= |ids| && InOrderOf(r, ids[..n])
    requires forall x :: x in r ==> x in ids[..n]
    ensures InOrderOf(r, ids)
    ensures forall k :: 0 <= k < |r| ==> r[k] in ids && Position(ids, r[k]) < n
  {
    forall k | 0 <= k < |r|
      ensures r[k] in ids && Position(ids, r[k]) < n
    {
      assert r[k] in r;
      PositionBefore(ids, n, r[k]);
    }
    forall k1, k2 | 0 <= k1 < k2 < |r|
      ensures Position(ids, r[k1]) < Position(ids, r[k2])
    {
      PositionsAgree(ids, n, r[k1]);
      PositionsAgree(ids, n, r[k2]);
    }
  }

  predicate Distinct(ids: seq<int>)
  {
    forall i, j :: 0 <= i < j < |ids| ==> ids[i] != ids[j]
  }

  /** The responses for `ids`, in their order. */
  function ResponsesOf(ids: seq<int>, store: map<int, Coupon>): (r: seq<CouponResponse>)
    requires forall k :: 0 <= k < |ids| ==> ids[k] in store
    ensures |r| == |ids| && forall k :: 0 <= k < |ids| ==> r[k] == ResponseOf(store[ids[k]])
  {
    if ids == [] then [] else ResponsesOf(ids[..|ids| - 1], store) + [ResponseOf(store[ids[|ids| - 1]])]
  }

  /** Where `id` first stands in `ids`. */
  function Position(ids: seq<int>, id: int): (p: nat)
    requires id in ids
    ensures p < |ids| && ids[p] == id
  {
    if ids[0] == id then 0 else 1 + Position(ids[1..], id)
  }

  lemma {:induction false} PositionBefore(ids: seq<int>, m: nat, id: int)
    requires m <= |ids| && id in ids[..m]
    ensures Position(ids, id) < m
  {
    if ids[0] != id {
      assert ids[1..][..m - 1] == ids[..m][1..];
      PositionBefore(ids[1..], m - 1, id);
    }
  }

  lemma {:induction false} PositionOfDistinct(ids: seq<int>, k: nat)
    requires Distinct(ids) && k < |ids|
    ensures Position(ids, ids[k]) == k
  {
    if k > 0 {
      assert ids[0] != ids[k];
      assert ids[1..][k - 1] == ids[k];
      PositionOfDistinct(ids[1..], k - 1);
    }
  }

  /** An applicable entry: a coupon of `ids` with its own id, type and discount for the
      cart, and that discount positive. */
  predicate ApplicableEntry(a: ApplicableCoupon, ids: seq<int>, store: map<int, Coupon>, cart: Cart)
  {
    && a.couponId in ids && a.couponId in store
    && a == ApplicableCoupon(a.couponId, store[a.couponId].couponType, CartDiscount(store[a.couponId], cart))
    && a.discount > 0.0
  }

  /** Every entry of the applicable list is a coupon of `ids` with its own id, type and
      discount for the cart, and that discount is positive. */
  lemma {:induction false} ApplicableSound(ids: seq<int>, store: map<int, Coupon>, cart: Cart)
    requires forall k :: 0 <= k < |ids| ==> ids[k] in store
    requires forall id :: id in store ==> store[id].id == id
    ensures forall a :: a in ApplicableIn(ids, store, cart) ==> ApplicableEntry(a, ids, store, cart)
  {
    if ids != [] {
      var n := |ids| - 1;
      var prefix := ids[..n];
      assert forall k :: 0 <= k < n ==> prefix[k] == ids[k];
      ApplicableSound(prefix, store, cart);
      var prior := ApplicableIn(prefix, store, cart);
      var r := ApplicableIn(ids, store, cart);
      forall a | a in r
        ensures ApplicableEntry(a, ids, store, cart)
      {
        if a in prior {
          assert a.couponId in prefix;
        } else {
          assert a.couponId == ids[n];
        }
      }
    }
  }

  /** `id` has an entry in the applicable list `r`. */
  predicate Listed(r: seq<ApplicableCoupon>, id: int)
  {
    exists k :: 0 <= k < |r| && r[k].couponId == id
  }

  /** The entries of `r` stand in the order their ids have in `ids`. */
  predicate FollowsOrder(r: seq<ApplicableCoupon>, ids: seq<int>)
  {
    forall k1, k2 :: 0 <= k1 < k2 < |r| ==>
      r[k1].couponId in ids && r[k2].couponId in ids
      && Position(ids, r[k1].couponId) < Position(ids, r[k2].couponId)
  }

  /** A coupon of `ids` is on the applicable list exactly when its discount for the cart
      is positive. */
  lemma {:induction false} ApplicableComplete(ids: seq<int>, store: map<int, Coupon>, cart: Cart)
    requires forall k :: 0 <= k < |ids| ==> ids[k] in store
    requires forall id :: id in store ==> store[id].id == id
    ensures forall id :: id in ids ==>
      (CartDiscount(store[id], cart) > 0.0 <==> Listed(ApplicableIn(ids, store, cart), id))
  {
    ApplicableSound(ids, store, cart);
    if ids != [] {
      var n := |ids| - 1;
      var prefix := ids[..n];
      assert forall k :: 0 <= k < n ==> prefix[k] == ids[k];
      ApplicableComplete(prefix, store, cart);
      ApplicableSound(prefix, store, cart);
      var prior := ApplicableIn(prefix, store, cart);
      var r := ApplicableIn(ids, store, cart);
      var last := ids[n];
      assert forall x :: x in ids <==> x in prefix || x == last by {
        assert ids == prefix + [last];
      }
      assert forall k :: 0 <= k < |prior| ==> r[k] == prior[k];
      forall id | id in ids
        ensures CartDiscount(store[id], cart) > 0.0 <==> Listed(r, id)
      {
        if CartDiscount(store[id], cart) > 0.0 {
          if id in prefix {
            assert Listed(prior, id);
            var k :| 0 <= k < |prior| && prior[k].couponId == id;
            assert r[k].couponId == id;
          } else {
            assert r[|prior|].couponId == last;
          }
        } else if CartDiscount(store[last], cart) > 0.0 {
          forall k | 0 <= k < |r|
            ensures r[k].couponId != id
          {
            if k < |prior| {
              assert prior[k] in prior;
            }
          }
        } else {
          assert r == prior;
          forall k | 0 <= k < |r|
            ensures r[k].couponId != id
          {
            assert prior[k] in prior;
          }
        }
      }
    }
  }

  /** The applicable list keeps the order of `ids`. */
  lemma {:induction false} ApplicableInOrder(ids: seq<int>, store: map<int, Coupon>, cart: Cart)
    requires forall k :: 0 <= k < |ids| ==> ids[k] in store
    requires forall id :: id in store ==> store[id].id == id
    requires Distinct(ids)
    ensures FollowsOrder(ApplicableIn(ids, store, cart), ids)
  {
    if ids != [] {
      var n := |ids| - 1;
      var prefix := ids[..n];
      assert forall k :: 0 <= k < n ==> prefix[k] == ids[k];
      assert Distinct(prefix);
      ApplicableInOrder(prefix, store, cart);
      ApplicableSound(prefix, store, cart);
      ApplicableSound(ids, store, cart);
      var prior := ApplicableIn(prefix, store, cart);
      var r := ApplicableIn(ids, store, cart);
      var last := ids[n];
      forall k | 0 <= k < |prior|
        ensures prior[k].couponId in prefix && Position(ids, prior[k].couponId) < n
      {
        assert prior[k] in prior;
        PositionBefore(ids, n, prior[k].couponId);
      }
      forall k1, k2 | 0 <= k1 < k2 < |prior|
        ensures Position(ids, prior[k1].couponId) < Position(ids, prior[k2].couponId)
      {
        PositionsAgree(ids, n, prior[k1].couponId);
        PositionsAgree(ids, n, prior[k2].couponId);
        assert FollowsOrder(prior, prefix);
      }
      PositionOfDistinct(ids, n);
      assert forall k :: 0 <= k < |prior| ==> r[k] == prior[k];
    }
  }

  /** An id of the first `m` ids stands at the same place in the prefix as in the whole. */
  lemma {:induction false} PositionsAgree(ids: seq<int>, m: nat, id: int)
    requires m <= |ids| && id in ids[..m]
    ensures Position(ids, id) == Position(ids[..m], id)
  {
    if ids[0] != id {
      assert ids[1..][..m - 1] == ids[..m][1..];
      PositionsAgree(ids[1..], m - 1, id);
    }
  }

  class CouponService {
    /** The stored coupons by id. */
    var store: map<int, Coupon>
    /** The stored ids in insertion order: the store's iteration order. */
    var order: seq<int>
    /** The id the store hands out next. */
    var nextId: int

    ghost predicate Valid()
      reads this
    {
      && (forall id :: id in store ==> store[id].id == id && id < nextId)
      && (forall k :: 0 <= k < |order| ==> order[k] in store)
      && (forall id :: id in store ==> id in order)
      && Distinct(order)
    }

    constructor ()
      ensures Valid() && store == map[] && order == []
    {
      store, order, nextId := map[], [], 1;
    }

    /** `createCoupon`: store a new coupon under a fresh id; the response carries that id,
        the type and the details. */
    method CreateCoupon(request: CreateCouponRequest) returns (response: CouponResponse)
      requires Valid()
      modifies this
      ensures Valid()
      ensures response.id !in old(store)
      ensures store == old(store)[response.id := Coupon(response.id, request.couponType, request.details)]
      ensures order == old(order) + [response.id]
      ensures response == CouponResponse(response.id, request.couponType, request.details)
    {
      var saved := Coupon(nextId, request.couponType, request.details);
      assert saved.id !in order;
      store := store[saved.id := saved];
      order := order + [saved.id];
      nextId := nextId + 1;
      response := ResponseOf(saved);
    }

    /** `getAllCoupons`: every stored coupon once, in store order. */
    function AllCoupons(): (r: seq<CouponResponse>)
      reads this
      requires Valid()
      ensures |r| == |order|
      ensures forall k :: 0 <= k < |r| ==> r[k].id == order[k] && r[k] == ResponseOf(store[order[k]])
      ensures forall id :: id in store <==> exists k :: 0 <= k < |r| && r[k].id == id
    {
      ResponsesOf(order, store)
    }

    /** `getCouponById`: the stored coupon, or "not found". */
    method GetCouponById(id: int) returns (r: Result<CouponResponse, ServiceError>)
      requires Valid()
      ensures id in store ==> r == Ok(CouponResponse(id, store[id].couponType, store[id].details))
      ensures id !in store ==> r == Err(NotFound(id))
    {
      if id !in store {
        return Err(NotFound(id));
      }
      r := Ok(ResponseOf(store[id]));
    }

    /** `updateCoupon`: replace type and details of an existing coupon under the same id;
        with an unknown id, "not found" and no change. */
    method UpdateCoupon(id: int, request: CreateCouponRequest) returns (r: Result<CouponResponse, ServiceError>)
      requires Valid()
      modifies this
      ensures Valid()
      ensures id !in old(store) ==> r == Err(NotFound(id)) && store == old(store) && order == old(order)
      ensures id in old(store) ==>
        && r == Ok(CouponResponse(id, request.couponType, request.details))
        && store == old(store)[id := Coupon(id, request.couponType, request.details)]
        && order == old(order)
      ensures forall other :: other in old(store) && other != id ==> other in store && store[other] == old(store)[other]
      ensures nextId == old(nextId)
    {
      if id !in store {
        return Err(NotFound(id));
      }
      var coupon := store[id];
      coupon := coupon.(couponType := request.couponType, details := request.details);
      store := store[id := coupon];
      r := Ok(ResponseOf(coupon));
    }

    /** `deleteCoupon`: remove exactly that coupon; with an unknown id, "not found" and no change. */
    method DeleteCoupon(id: int) returns (r: Outcome<ServiceError>)
      requires Valid()
      modifies this
      ensures Valid()
      ensures id !in old(store) ==> r == Fail(NotFound(id)) && store == old(store) && order == old(order)
      ensures id in old(store) ==> r == Pass && store == old(store) - {id} && order == Without(old(order), id)
      ensures forall other :: other in old(store) && other != id ==> other in store && store[other] == old(store)[other]
      ensures nextId == old(nextId)
    {
      if id !in store {
        return Fail(NotFound(id));
      }
      ghost var before := order;
      store := store - {id};
      order := Without(order, id);
      assert forall k :: 0 <= k < |order| ==> order[k] in before && order[k] != id;
      r := Pass;
    }

    /** `getApplicableCoupons`: walk the store in order and keep every coupon whose discount
        for the cart is positive. */
    method GetApplicableCoupons(cart: Cart) returns (response: ApplicableCouponsResponse)
      requires Valid()
      ensures response.applicableCoupons == ApplicableIn(order, store, cart)
      ensures forall a :: a in response.applicableCoupons ==>
        && a.couponId in store
        && a == ApplicableCoupon(a.couponId, store[a.couponId].couponType, CartDiscount(store[a.couponId], cart))
        && a.discount > 0.0
      ensures forall id :: id in store ==>
        (CartDiscount(store[id], cart) > 0.0 <==> Listed(response.applicableCoupons, id))
      ensures FollowsOrder(response.applicableCoupons, order)
    {
      var applicableCoupons: seq<ApplicableCoupon> := [];
      var i := 0;
      while i < |order|
        invariant 0 <= i <= |order|
        invariant applicableCoupons == ApplicableIn(order[..i], store, cart)
      {
        var coupon := store[order[i]];
        var discount := 0.0;
        if cart.items.Some? {
          discount := CalculateDiscount(coupon, cart.items.value);
        }
        if discount > 0.0 {
          applicableCoupons := applicableCoupons + [ApplicableCoupon(coupon.id, coupon.couponType, discount)];
        }
        assert order[..i + 1][..i] == order[..i];
        i := i + 1;
      }
      assert order[..|order|] == order;
      ApplicableSound(order, store, cart);
      ApplicableComplete(order, store, cart);
      ApplicableInOrder(order, store, cart);
      response := ApplicableCouponsResponse(applicableCoupons);
    }

    /** `applyCoupon`: a missing cart or item list is a bad request before the store is
        consulted; then an unknown id is "not found"; otherwise the engine's updated cart. */
    method ApplyCoupon(id: int, cart: Option<Cart>) returns (r: Result<ApplyCouponResponse, ServiceError>)
      requires Valid()
      ensures cart.None? || cart.value.items.None? ==> r == Err(StatusBadRequest)
      ensures cart.Some? && cart.value.items.Some? && id !in store ==> r == Err(StatusNotFound(id))
      ensures cart.Some? && cart.value.items.Some? && id in store ==>
        r == Ok(ApplyCouponResponse(Applied(store[id], cart.value.items.value)))
    {
      if cart.None? || cart.value.items.None? {
        return Err(StatusBadRequest);
      }
      if id !in store {
        return Err(StatusNotFound(id));
      }
      var updatedCart := ApplyDiscount(store[id], cart.value.items.value);
      r := Ok(ApplyCouponResponse(updatedCart));
    }
  }
}
