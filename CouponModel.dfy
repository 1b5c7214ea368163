/** The stored coupon entity and its typed configuration. The source keeps the
    configuration as a JSON document and reads it by key; here it is a sum type
    whose `Malformed` variant stands for a document that fails to parse or
    lacks a key the rule reads. */
module CouponModel {

  /** The coupon type tag. `UnknownType` stands for a missing (null) or
      unrecognised tag, which the engine treats as "no discount". */
  datatype CouponType = CartWiseType | ProductWiseType | BxgyType | UnknownType

  /** One `{product_id, quantity}` entry of a buy or get list. */
  datatype ProductQuantity = ProductQuantity(productId: int, quantity: nat)

  /** The coupon details, one shape per rule. */
  datatype Details =
    | CartWise(threshold: real, percent: real)
    | ProductWise(productId: int, percent: real)
    | Bxgy(buyProducts: seq<ProductQuantity>, getProducts: seq<ProductQuantity>, repetitionLimit: nat)
    | Malformed

  /** A stored coupon. The engine reads `details` strictly according to `couponType`. */
  datatype Coupon = Coupon(id: int, couponType: CouponType, details: Details)
}
