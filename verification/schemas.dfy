/**
 * The documents of the shop's collections and the request shapes the order
 * pipeline receives, with the two enumerations the pipeline looks codes up in.
 */
module Schemas {
  import opened Common
  import opened JsText

  type OptionId = string
  type ProductId = string
  type UserId = string
  type CouponId = string
  type OrderId = string
  type RuleId = string

  /** A purchasable variant of a product (options collection). */
  datatype CatalogOption = CatalogOption(
    id: OptionId, name: string, description: string,
    stock: int, price: real, productId: ProductId)

  /** A product document; `price` 0 also stands for a missing price (both are falsy). */
  datatype Product = Product(
    id: ProductId, name: string, description: string, price: real, stock: int,
    images: seq<string>, options: seq<CatalogOption>, salesCount: int,
    sameDayDelivery: Option<bool>)

  /** A quantity-tier discount rule (discounts collection). */
  datatype DiscountRule = DiscountRule(
    id: RuleId, name: string, description: string,
    applicableOptionIds: seq<OptionId>, initialQuantity: int,
    initialDiscountAmount: real, additionalDiscountAmount: real, isActive: bool)

  /** Every rule has a positive initial quantity, so the pricing never divides by zero. */
  predicate WellFormedRules(rules: seq<DiscountRule>)
  {
    forall i :: 0 <= i < |rules| ==> rules[i].initialQuantity >= 1
  }

  datatype CouponKind = Fixed | Percentage

  /**
   * A coupon document. `maxAplicableUnits` is 1 unless set; 0 stands for a
   * missing value, which the pricing treats as falsy.
   */
  datatype Coupon = Coupon(
    id: CouponId, count: int, code: string, limit: int, description: string,
    kind: CouponKind, value: real, applicableProductOption: Option<OptionId>,
    maxAplicableUnits: int, usedByUsers: map<UserId, bool>)

  /** `usedByUsers.get(userId)` is truthy. */
  predicate UsedBy(c: Coupon, userId: UserId)
  {
    userId in c.usedByUsers && c.usedByUsers[userId]
  }

  /** `findOne({ code: /^code$/i })`: the first coupon, in collection order, whose code matches. */
  function FindByCode(coupons: seq<Coupon>, code: string): (r: Option<nat>)
    ensures r.Some? ==> r.value < |coupons| && EqualsIgnoreCase(coupons[r.value].code, code)
    ensures r.Some? ==> forall j :: 0 <= j < r.value ==> !EqualsIgnoreCase(coupons[j].code, code)
    ensures r.None? ==> forall j :: 0 <= j < |coupons| ==> !EqualsIgnoreCase(coupons[j].code, code)
  {
    if |coupons| == 0 then None
    else if EqualsIgnoreCase(coupons[0].code, code) then Some(0)
    else match FindByCode(coupons[1..], code)
      case None => None
      case Some(i) => Some(i + 1)
  }

  /** `findById(id)`: the coupon whose id is `id`. */
  function FindById(coupons: seq<Coupon>, id: CouponId): (r: Option<nat>)
    ensures r.Some? ==> r.value < |coupons| && coupons[r.value].id == id
    ensures r.Some? ==> forall j :: 0 <= j < r.value ==> coupons[j].id != id
    ensures r.None? ==> forall j :: 0 <= j < |coupons| ==> coupons[j].id != id
  {
    if |coupons| == 0 then None
    else if coupons[0].id == id then Some(0)
    else match FindById(coupons[1..], id)
      case None => None
      case Some(i) => Some(i + 1)
  }

  /** One line of the cart the pricing engine works on. */
  datatype CartLine = CartLine(productId: ProductId, optionId: OptionId, quantity: int)

  /** The cart; the empty code stands for "no coupon" (every falsy value). */
  datatype Cart = Cart(userId: UserId, coupon: string, products: seq<CartLine>)

  /** `PaymentMethods[code]`: the method's name, undefined for an unknown code. */
  function PaymentMethodName(code: int): (f: Field)
    ensures f.Str? <==> 1 <= code <= 12
  {
    match code
    case 1 => Str("credit-card")
    case 2 => Str("cash")
    case 3 => Str("paypal")
    case 4 => Str("stripe")
    case 5 => Str("apple-pay")
    case 6 => Str("google-pay")
    case 7 => Str("amazon-pay")
    case 8 => Str("other")
    case 9 => Str("bank-transfer")
    case 10 => Str("crypto")
    case 11 => Str("mercado-pago")
    case 12 => Str("payway")
    case _ => Undefined
  }

  /** `OrderStatus[code]`: the status's name, None for an unknown code. */
  function StatusName(code: int): (r: Option<string>)
    ensures r.Some? <==> 1 <= code <= 5
  {
    match code
    case 1 => Some("pending")
    case 2 => Some("confirmed")
    case 3 => Some("shipped")
    case 4 => Some("delivered")
    case 5 => Some("canceled")
    case _ => None
  }

  /** Payment codes the pipeline branches on. */
  const CreditCard := 1
  const Cash := 2
  const BankTransfer := 9
  const MercadoPago := 11

  /** Status codes the pipeline branches on. */
  const Confirmed := 2
  const Canceled := 5

  /** One requested option of an order item: `{ id, quantity }`. */
  datatype OptionRequest = OptionRequest(id: OptionId, quantity: int)

  /** One item of an order request: `{ productId, options }`. */
  datatype ItemRequest = ItemRequest(productId: ProductId, options: seq<OptionRequest>)

  /** The order request; the empty coupon code stands for null or a missing code. */
  datatype OrderRequest = OrderRequest(
    userId: UserId, items: seq<ItemRequest>, notes: Field, paymentMethod: int,
    shippingPrice: real, coupon: string, deliveryDate: string)

  /** An option as copied into an order, with the ordered quantity. */
  datatype ItemOption = ItemOption(
    id: OptionId, name: string, description: string, stock: int, price: real,
    productId: ProductId, quantity: int)

  /** A product as copied into an order; `price` is the line total. */
  datatype OrderItem = OrderItem(
    id: ProductId, name: string, description: string, images: seq<string>,
    options: seq<ItemOption>, price: real, salesCount: int)

  /** The address copied into an order. */
  datatype OrderAddress = OrderAddress(
    address: string, city: Field, reference: Field, floorNumber: Field,
    departmentNumber: Field, phone: Field, betweenStreets: Field)

  /** The user copied into an order. */
  datatype OrderUser = OrderUser(name: string, lastName: Field, email: string, phoneNumber: Field)

  /**
   * An order document, as stored: the order schema has no `discount` field,
   * so the discount passed to the builder is not kept.
   */
  datatype Order = Order(
    id: OrderId, status: string, total: real, items: seq<OrderItem>,
    subTotal: real, shippingPrice: real, notes: Field,
    address: OrderAddress, user: OrderUser, paymentMethod: Field,
    coupon: Option<string>, couponDiscount: real, deliveryDate: string,
    deliveryDay: Option<string>)
}
