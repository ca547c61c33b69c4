/**
 * `OrdersService.create`: the stock is checked and taken, the discounts are
 * computed on the cart of each item's first option, the order is built and
 * saved, the coupon is consumed, and the answer depends on the payment method.
 */
module OrderCreation {
  import opened Common
  import opened Schemas
  import Db
  import OrderStock
  import OrderPricing
  import DiscountCalculator
  import Coupons
  import OrderLifecycle

  /** The fields of the delivery area the answer uses. */
  datatype AreaInfo = AreaInfo(sameDayDelivery: bool, whatsappNumber: string)

  /**
   * The answer: the saved order, the WhatsApp redirect of a same-day bank
   * transfer, and the Mercado Pago line items of a Mercado Pago payment.
   */
  datatype Created = Created(
    order: Order, redirectToWhatsapp: bool, whatsappNumber: Option<string>,
    mpItems: Option<seq<OrderPricing.MpItem>>)

  /** The collections after `create`, and its answer or error. */
  datatype Creation = Creation(after: OrderLifecycle.Collections, outcome: Result<Created>)

  /** Every item names at least one option. */
  predicate EachHasOption(items: seq<ItemRequest>)
  {
    forall i :: 0 <= i < |items| ==> |items[i].options| > 0
  }

  /**
   * The cart of lines 87-95: one line per item, from its first option; an
   * item without options makes `options[0].id` throw.
   */
  function CartOf(dto: OrderRequest): (r: Result<Cart>)
    ensures r.Ok? <==> EachHasOption(dto.items)
    ensures r.Ok? ==> r.value.userId == dto.userId && r.value.coupon == dto.coupon
    ensures r.Ok? ==> |r.value.products| == |dto.items|
  {
    if !EachHasOption(dto.items) then Err(TypeError("Cannot read properties of undefined (reading 'id')"))
    else
      var items := dto.items;
      Ok(Cart(dto.userId, dto.coupon,
              seq(|items|, i requires 0 <= i < |items| =>
                CartLine(items[i].productId, items[i].options[0].id, items[i].options[0].quantity))))
  }

  /** Lines 129-187: the answer, by payment method, once the order is saved. */
  function Respond(s: OrderLifecycle.Collections, order: Order, paymentMethod: int,
                   area: AreaInfo, totalDiscount: real): (c: Creation)
    ensures c.after == s
    ensures c.outcome.Ok? ==> c.outcome.value.order == order
    ensures c.outcome.Ok? ==>
      (c.outcome.value.redirectToWhatsapp <==>
         (PaymentMethodName(paymentMethod) == JsText.Str("bank-transfer") && area.sameDayDelivery))
  {
    if PaymentMethodName(paymentMethod) == PaymentMethodName(BankTransfer) && area.sameDayDelivery then
      Creation(s, Ok(Created(order, true, Some(area.whatsappNumber), None)))
    else if PaymentMethodName(paymentMethod) == PaymentMethodName(MercadoPago) then
      match OrderPricing.MpItems(order.items, totalDiscount)
      case Err(e) => Creation(s, Err(e))
      case Ok(mp) => Creation(s, Ok(Created(order, false, None, Some(mp))))
    else Creation(s, Ok(Created(order, false, None, None)))
  }

  /**
   * `create(dto)` (lines 74-200). The user, address and delivery area are
   * the results of their lookups; `newId` is the id the database gives the
   * order and `year` the current year.
   */
  function Create(s: OrderLifecycle.Collections, rules: seq<DiscountRule>, dto: OrderRequest,
                  user: Result<OrderUser>, address: Result<OrderAddress>, area: Result<AreaInfo>,
                  newId: OrderId, year: int): Creation
    requires WellFormedRules(rules)
  {
    if user.Err? then Creation(s, Err(user.error))
    else if address.Err? then Creation(s, Err(address.error))
    else if area.Err? then Creation(s, Err(area.error))
    else
      var stock := OrderStock.CheckItems(s.options, s.products, dto.items);
      var s1 := s.(options := stock.options);
      if stock.outcome.Fail? then Creation(s1, Err(stock.outcome.error))
      else match CartOf(dto)
        case Err(e) => Creation(s1, Err(e))
        case Ok(cart) => Save(s1, rules, dto, cart, user.value, address.value, area.value, newId, year)
  }

  /**
   * Lines 97-187, once the stock is taken: the discounts, the order built,
   * checked and saved, the coupon consumed, and the answer. None of it
   * touches the options or the products.
   */
  function Save(s1: OrderLifecycle.Collections, rules: seq<DiscountRule>, dto: OrderRequest, cart: Cart,
                user: OrderUser, address: OrderAddress, area: AreaInfo, newId: OrderId, year: int): (c: Creation)
    requires WellFormedRules(rules)
    ensures c.after.options == s1.options && c.after.products == s1.products
    ensures c.after.coupons != s1.coupons ==>
      var d := DiscountCalculator.OrderDiscountsOf(rules, s1.options, s1.coupons, cart, dto.paymentMethod);
      && d.Ok? && d.value.couponDiscount.Some? && dto.coupon != "" && newId in c.after.orders
      && OrderLifecycle.CouponUsage(s1.coupons, s1.options, dto.coupon, dto.userId).Ok?
      && c.after.coupons == OrderLifecycle.CouponUsage(s1.coupons, s1.options, dto.coupon, dto.userId).value
  {
    match DiscountCalculator.OrderDiscountsOf(rules, s1.options, s1.coupons, cart, dto.paymentMethod)
    case Err(e) => Creation(s1, Err(e))
    case Ok(discounts) =>
      match OrderPricing.BuildItems(s1.options, s1.products, dto.items)
      case Err(e) => Creation(s1, Err(e))
      case Ok(items) =>
        var order := OrderPricing.BarferOrder(
          newId, items, address, user, dto.notes, dto.paymentMethod,
          dto.shippingPrice, "pending", dto.coupon, discounts.totalDiscount,
          dto.deliveryDate, DiscountCalculator.AmountOr0(discounts.couponDiscount), year);
        Record(s1, dto, order, discounts, area)
  }

  /**
   * Lines 121-187, once the order is built: it is checked against the
   * schema's required fields and saved, the coupon that gave a discount is
   * consumed, and the answer is given.
   */
  function Record(s1: OrderLifecycle.Collections, dto: OrderRequest, order: Order,
                  discounts: DiscountCalculator.OrderDiscounts, area: AreaInfo): (c: Creation)
    ensures c.after.options == s1.options && c.after.products == s1.products
    ensures c.outcome.Ok? ==>
      c.outcome.value.order == order && order.id in c.after.orders && c.after.orders[order.id] == order
    ensures c.after.coupons != s1.coupons ==>
      && dto.coupon != "" && discounts.couponDiscount.Some? && order.id in c.after.orders
      && OrderLifecycle.CouponUsage(s1.coupons, s1.options, dto.coupon, dto.userId).Ok?
      && c.after.coupons == OrderLifecycle.CouponUsage(s1.coupons, s1.options, dto.coupon, dto.userId).value
  {
    if !OrderPricing.PassesRequired(order) then Creation(s1, Err(InternalError("Order validation failed")))
    else
      var s2 := s1.(orders := s1.orders[order.id := order]);
      var used :=
        if dto.coupon != "" && discounts.couponDiscount.Some?
        then OrderLifecycle.CouponUsage(s2.coupons, s2.options, dto.coupon, dto.userId)
        else Ok(s2.coupons);
      if used.Err? then Creation(s2, Err(used.error))
      else Respond(s2.(coupons := used.value), order, dto.paymentMethod, area, discounts.totalDiscount)
  }

  /** `create(dto)` on the store. */
  method CreateOrder(db: Db.Store, dto: OrderRequest, user: Result<OrderUser>, address: Result<OrderAddress>,
                     area: Result<AreaInfo>, newId: OrderId, year: int) returns (r: Result<Created>)
    requires WellFormedRules(db.rules)
    modifies db`options, db`coupons, db`orders
    ensures Creation(OrderLifecycle.CollectionsOf(db), r)
      == Create(old(OrderLifecycle.CollectionsOf(db)), db.rules, dto, user, address, area, newId, year)
  {
    if user.Err? {
      return Err(user.error);
    }
    if address.Err? {
      return Err(address.error);
    }
    if area.Err? {
      return Err(area.error);
    }
    var stock := OrderStock.ValidateStock(db, dto.items);
    if stock.Fail? {
      return Err(stock.error);
    }
    var cart := CartOf(dto);
    if cart.Err? {
      return Err(cart.error);
    }
    var discounts := DiscountCalculator.CalculateOrderDiscounts(db.rules, db.options, db.coupons, cart.value, dto.paymentMethod);
    if discounts.Err? {
      return Err(discounts.error);
    }
    var items := OrderPricing.BuildProductsOrder(db.options, db.products, dto.items);
    if items.Err? {
      return Err(items.error);
    }
    var order := OrderPricing.BarferOrder(
      newId, items.value, address.value, user.value, dto.notes, dto.paymentMethod,
      dto.shippingPrice, "pending", dto.coupon, discounts.value.totalDiscount,
      dto.deliveryDate, DiscountCalculator.AmountOr0(discounts.value.couponDiscount), year);
    r := RecordOrder(db, dto, order, discounts.value, area.value);
  }

  /** Lines 121-187 on the store. */
  method RecordOrder(db: Db.Store, dto: OrderRequest, order: Order,
                     discounts: DiscountCalculator.OrderDiscounts, area: AreaInfo) returns (r: Result<Created>)
    modifies db`coupons, db`orders
    ensures Creation(OrderLifecycle.CollectionsOf(db), r)
      == Record(old(OrderLifecycle.CollectionsOf(db)), dto, order, discounts, area)
  {
    if !OrderPricing.PassesRequired(order) {
      return Err(InternalError("Order validation failed"));
    }
    db.orders := db.orders[order.id := order];
    if dto.coupon != "" && discounts.couponDiscount.Some? {
      var used := OrderLifecycle.UpdateCouponUsage(db, dto.coupon, dto.userId);
      if used.Fail? {
        return Err(used.error);
      }
    }
    if PaymentMethodName(dto.paymentMethod) == PaymentMethodName(BankTransfer) && area.sameDayDelivery {
      return Ok(Created(order, true, Some(area.whatsappNumber), None));
    }
    if PaymentMethodName(dto.paymentMethod) == PaymentMethodName(MercadoPago) {
      var mp := OrderPricing.BuildMPItems(order.items, discounts.totalDiscount);
      if mp.Err? {
        return Err(mp.error);
      }
      return Ok(Created(order, false, None, Some(mp.value)));
    }
    return Ok(Created(order, false, None, None));
  }

  // ---------------------------------------------------------------- properties

  /** The discounts `create` prices the order with. */
  function DiscountsFor(s: OrderLifecycle.Collections, rules: seq<DiscountRule>, dto: OrderRequest): Result<DiscountCalculator.OrderDiscounts>
    requires WellFormedRules(rules)
  {
    var stock := OrderStock.CheckItems(s.options, s.products, dto.items);
    match CartOf(dto)
    case Err(e) => Err(e)
    case Ok(cart) => DiscountCalculator.OrderDiscountsOf(rules, stock.options, s.coupons, cart, dto.paymentMethod)
  }

  /**
   * A created order is saved under its id as pending, and its total is the
   * sum of its items plus shipping minus the computed discount, never below 0.
   */
  lemma CreatedOrderIsSaved(s: OrderLifecycle.Collections, rules: seq<DiscountRule>, dto: OrderRequest,
                            user: Result<OrderUser>, address: Result<OrderAddress>, area: Result<AreaInfo>,
                            newId: OrderId, year: int)
    requires WellFormedRules(rules)
    requires Create(s, rules, dto, user, address, area, newId, year).outcome.Ok?
    ensures var c := Create(s, rules, dto, user, address, area, newId, year);
      var order := c.outcome.value.order;
      DiscountsFor(s, rules, dto).Ok?
      && newId in c.after.orders && c.after.orders[newId] == order
      && order.status == "pending" && order.total >= 0.0
      && order.total == OrderPricing.OrderTotal(OrderPricing.SubTotal(order.items), dto.shippingPrice,
                                                DiscountsFor(s, rules, dto).value.totalDiscount)
  {
    var c := Create(s, rules, dto, user, address, area, newId, year);
    var stock := OrderStock.CheckItems(s.options, s.products, dto.items);
    var s1 := s.(options := stock.options);
    assert user.Ok? && address.Ok? && area.Ok? && stock.outcome.Pass? && CartOf(dto).Ok?;
    var cart := CartOf(dto).value;
    assert c == Save(s1, rules, dto, cart, user.value, address.value, area.value, newId, year);
    var d := DiscountCalculator.OrderDiscountsOf(rules, s1.options, s1.coupons, cart, dto.paymentMethod);
    assert DiscountsFor(s, rules, dto) == d;
    var b := OrderPricing.BuildItems(s1.options, s1.products, dto.items);
    assert d.Ok? && b.Ok?;
    var order := OrderPricing.BarferOrder(
      newId, b.value, address.value, user.value, dto.notes, dto.paymentMethod,
      dto.shippingPrice, "pending", dto.coupon, d.value.totalDiscount,
      dto.deliveryDate, DiscountCalculator.AmountOr0(d.value.couponDiscount), year);
    assert c == Record(s1, dto, order, d.value, area.value);
  }

  /**
   * The stock taken by the check stays taken, whatever happens after it:
   * nothing is rolled back when a later step fails.
   */
  lemma StockStaysTaken(s: OrderLifecycle.Collections, rules: seq<DiscountRule>, dto: OrderRequest,
                        user: Result<OrderUser>, address: Result<OrderAddress>, area: Result<AreaInfo>,
                        newId: OrderId, year: int)
    requires WellFormedRules(rules)
    requires user.Ok? && address.Ok? && area.Ok?
    ensures Create(s, rules, dto, user, address, area, newId, year).after.options
      == OrderStock.CheckItems(s.options, s.products, dto.items).options
  {
    var stock := OrderStock.CheckItems(s.options, s.products, dto.items);
    if stock.outcome.Pass? && CartOf(dto).Ok? {
      var s1 := s.(options := stock.options);
      assert Create(s, rules, dto, user, address, area, newId, year)
        == Save(s1, rules, dto, CartOf(dto).value, user.value, address.value, area.value, newId, year);
    }
  }

  /**
   * The coupons change only once the order is saved, only when the cart
   * names a coupon that gave a discount, and then by that coupon's consumption.
   */
  lemma CouponConsumedAfterSave(s: OrderLifecycle.Collections, rules: seq<DiscountRule>, dto: OrderRequest,
                                user: Result<OrderUser>, address: Result<OrderAddress>, area: Result<AreaInfo>,
                                newId: OrderId, year: int)
    requires WellFormedRules(rules)
    requires Create(s, rules, dto, user, address, area, newId, year).after.coupons != s.coupons
    ensures var c := Create(s, rules, dto, user, address, area, newId, year);
      newId in c.after.orders && dto.coupon != ""
      && DiscountsFor(s, rules, dto).Ok? && DiscountsFor(s, rules, dto).value.couponDiscount.Some?
      && c.after.coupons
         == OrderLifecycle.CouponUsage(s.coupons, OrderStock.CheckItems(s.options, s.products, dto.items).options,
                                       dto.coupon, dto.userId).value
  {
    var c := Create(s, rules, dto, user, address, area, newId, year);
    var stock := OrderStock.CheckItems(s.options, s.products, dto.items);
    var s1 := s.(options := stock.options);
    assert user.Ok? && address.Ok? && area.Ok? && stock.outcome.Pass? && CartOf(dto).Ok?;
    var cart := CartOf(dto).value;
    assert c == Save(s1, rules, dto, cart, user.value, address.value, area.value, newId, year);
    assert DiscountsFor(s, rules, dto)
      == DiscountCalculator.OrderDiscountsOf(rules, s1.options, s1.coupons, cart, dto.paymentMethod);
  }

  /**
   * A coupon that gave the order a discount can always be consumed: it was
   * found by its code, and an option it is restricted to is in the catalog.
   */
  lemma DiscountedCouponIsConsumable(coupons: seq<Coupon>, options: map<OptionId, CatalogOption>, cart: Cart)
    requires DiscountCalculator.CouponDiscountFor(coupons, options, cart).Some?
    ensures OrderLifecycle.CouponUsage(coupons, options, cart.coupon, cart.userId).Ok?
  {
    var i := FindByCode(coupons, cart.coupon).value;
    var c := coupons[i];
    assert FindById(coupons, c.id).Some?;
    if c.applicableProductOption.Some? {
      var line := Coupons.FirstLineFor(cart.products, c.applicableProductOption.value).value;
      var k :| 0 <= k < |cart.products| && cart.products[k] == line;
    }
  }

  /**
   * Cancelling a freshly created order without a coupon gives the stock back
   * to what it was before the order, when each item names its options once.
   */
  lemma CancelUndoesCreate(s: OrderLifecycle.Collections, rules: seq<DiscountRule>, dto: OrderRequest,
                           user: Result<OrderUser>, address: Result<OrderAddress>, area: Result<AreaInfo>,
                           newId: OrderId, year: int)
    requires WellFormedRules(rules)
    requires Create(s, rules, dto, user, address, area, newId, year).outcome.Ok? && dto.coupon == ""
    requires forall i :: 0 <= i < |dto.items| ==> OrderPricing.DistinctOptions(dto.items[i].options)
    ensures var created := Create(s, rules, dto, user, address, area, newId, year).after;
      OrderLifecycle.Transition(created, newId, Canceled).after.options == s.options
  {
    var c := Create(s, rules, dto, user, address, area, newId, year);
    var stock := OrderStock.CheckItems(s.options, s.products, dto.items);
    var items := OrderPricing.BuildItems(stock.options, s.products, dto.items).value;
    OrderPricing.BuiltItemsHoldRequestLines(stock.options, s.products, dto.items);
    OrderStock.RestoreUndoesCheck(s.options, s.products, dto.items, items);
    var order := c.after.orders[newId];
    assert order.items == items && order.coupon.None? && order.status == "pending";
    assert c.after.options == stock.options;
    OrderLifecycle.CancelGivesBackStock(c.after, newId);
  }
}
