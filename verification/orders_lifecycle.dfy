/**
 * The order's life after it is built: the coupon is consumed once the order
 * is saved (`updateCouponUsage`), and `updateStatus` moves the order between
 * statuses, counting sales on confirmation and giving back the coupon use,
 * the stock and the sales on cancellation.
 */
module OrderLifecycle {
  import opened Common
  import opened Schemas
  import Db
  import Coupons
  import OrderCoupons
  import OrderStock
  import Products

  // ------------------------------------------------------------ coupon usage

  /** No two coupons share an id. */
  predicate UniqueCouponIds(coupons: seq<Coupon>)
  {
    forall i, j :: 0 <= i < j < |coupons| ==> coupons[i].id != coupons[j].id
  }

  /**
   * `updateCouponUsage(code, userId)` (lines 202-217): the coupon found by
   * code gets one more use and the user recorded, and is saved under its id.
   */
  function CouponUsage(coupons: seq<Coupon>, options: map<OptionId, CatalogOption>,
                       code: string, userId: UserId): (r: Result<seq<Coupon>>)
    ensures FindByCode(coupons, code).None? ==> r == Err(NotFound("Coupon not found by CODE"))
    ensures r.Ok? ==> |r.value| == |coupons|
  {
    match FindByCode(coupons, code)
    case None => Err(NotFound("Coupon not found by CODE"))
    case Some(i) =>
      var record := coupons[i].(count := coupons[i].count + 1,
                                usedByUsers := coupons[i].usedByUsers[userId := true]);
      Coupons.UpdateCoupon(coupons, options, record.id, record)
  }

  /**
   * Consuming a coupon counts one more use and records the user, and touches
   * no other coupon.
   */
  lemma ConsumptionRecordsUse(coupons: seq<Coupon>, options: map<OptionId, CatalogOption>,
                              code: string, userId: UserId)
    requires UniqueCouponIds(coupons) && FindByCode(coupons, code).Some?
    requires var c := coupons[FindByCode(coupons, code).value];
      c.applicableProductOption.Some? ==> c.applicableProductOption.value in options
    ensures CouponUsage(coupons, options, code, userId).Ok?
    ensures var i := FindByCode(coupons, code).value;
      var after := CouponUsage(coupons, options, code, userId).value;
      after[i] == coupons[i].(count := coupons[i].count + 1,
                              usedByUsers := coupons[i].usedByUsers[userId := true])
      && forall k :: 0 <= k < |coupons| && k != i ==> after[k] == coupons[k]
  {
    var i := FindByCode(coupons, code).value;
    assert FindById(coupons, coupons[i].id) == Some(i);
  }

  /**
   * After a user's order consumed a coupon, both checks refuse that coupon to
   * the same user: the coupons service answers `{0, false}` and the order
   * check throws COUPON_ALREADY_USED.
   */
  lemma SecondUseRefused(coupons: seq<Coupon>, options: map<OptionId, CatalogOption>,
                         code: string, userId: UserId, lines: seq<CartLine>)
    requires UniqueCouponIds(coupons) && FindByCode(coupons, code).Some?
    requires var c := coupons[FindByCode(coupons, code).value];
      c.applicableProductOption.Some? ==> c.applicableProductOption.value in options
    ensures CouponUsage(coupons, options, code, userId).Ok?
    ensures var after := CouponUsage(coupons, options, code, userId).value;
      Coupons.ValidateAndCalculateDiscount(after, options, code, userId, lines) == Coupons.Rejected
      && OrderCoupons.ValidateCoupon(after, options, Cart(userId, code, lines)) == Err(BadRequest("COUPON_ALREADY_USED"))
  {
    ConsumptionRecordsUse(coupons, options, code, userId);
    var i := FindByCode(coupons, code).value;
    var after := CouponUsage(coupons, options, code, userId).value;
    assert forall k :: 0 <= k < |after| ==> after[k].code == coupons[k].code;
    assert FindByCode(after, code) == Some(i) by {
      FindByCodeFollowsCodes(coupons, after, code);
    }
    assert UsedBy(after[i], userId);
  }

  /** The code lookup depends on the codes alone. */
  lemma {:induction false} FindByCodeFollowsCodes(a: seq<Coupon>, b: seq<Coupon>, code: string)
    requires |a| == |b| && forall k :: 0 <= k < |a| ==> a[k].code == b[k].code
    ensures FindByCode(a, code) == FindByCode(b, code)
  {
    if |a| > 0 {
      FindByCodeFollowsCodes(a[1..], b[1..], code);
    }
  }

  /** `updateCouponUsage(code, userId)` on the store. */
  method UpdateCouponUsage(db: Db.Store, code: string, userId: UserId) returns (r: Outcome)
    modifies db`coupons
    ensures CouponUsage(old(db.coupons), db.options, code, userId).Ok? ==>
      r == Pass && db.coupons == CouponUsage(old(db.coupons), db.options, code, userId).value
    ensures CouponUsage(old(db.coupons), db.options, code, userId).Err? ==>
      r == Fail(CouponUsage(old(db.coupons), db.options, code, userId).error) && db.coupons == old(db.coupons)
  {
    var found := FindByCode(db.coupons, code);
    if found.None? {
      return Fail(NotFound("Coupon not found by CODE"));
    }
    var c := db.coupons[found.value];
    var record := c.(count := c.count + 1, usedByUsers := c.usedByUsers[userId := true]);
    r := Coupons.Update(db, record.id, record);
  }

  // ------------------------------------------------------------ sales counts

  /**
   * The `forEach` of lines 571-573 and 586-588, run one item after the
   * other: each item's product gets `delta` more sales; a missing product
   * only rejects its own un-awaited promise, so it is skipped.
   */
  function BumpSales(products: map<ProductId, Product>, items: seq<OrderItem>, delta: int): (r: map<ProductId, Product>)
    ensures r.Keys == products.Keys
    decreases |items|
  {
    if |items| == 0 then products
    else
      var next := match Products.AdjustSales(products, items[0].id, delta)
        case Err(_) => products
        case Ok(updated) => updated;
      BumpSales(next, items[1..], delta)
  }

  /** How many of the items are of product `k`. */
  function CountOf(items: seq<OrderItem>, k: ProductId): nat
  {
    if |items| == 0 then 0
    else (if items[0].id == k then 1 else 0) + CountOf(items[1..], k)
  }

  /** Product `k`'s sales move by `delta` once per item of that product, and nothing else of it changes. */
  lemma {:induction false} BumpSalesAt(products: map<ProductId, Product>, items: seq<OrderItem>, delta: int, k: ProductId)
    requires k in products
    ensures BumpSales(products, items, delta)[k]
      == products[k].(salesCount := products[k].salesCount + delta * CountOf(items, k))
    decreases |items|
  {
    if |items| > 0 {
      var next := match Products.AdjustSales(products, items[0].id, delta)
        case Err(_) => products
        case Ok(updated) => updated;
      BumpSalesAt(next, items[1..], delta, k);
      var rest := CountOf(items[1..], k);
      if k == items[0].id {
        assert next[k] == products[k].(salesCount := products[k].salesCount + delta);
        assert CountOf(items, k) == 1 + rest;
        assert delta * (1 + rest) == delta + delta * rest;
      } else {
        assert next[k] == products[k];
      }
    }
  }

  /** Each product's sales move by `delta` once per item of that product, and nothing else changes. */
  lemma BumpSalesCounts(products: map<ProductId, Product>, items: seq<OrderItem>, delta: int)
    ensures forall k :: k in products ==>
      BumpSales(products, items, delta)[k]
        == products[k].(salesCount := products[k].salesCount + delta * CountOf(items, k))
  {
    forall k | k in products
      ensures BumpSales(products, items, delta)[k]
        == products[k].(salesCount := products[k].salesCount + delta * CountOf(items, k))
    {
      BumpSalesAt(products, items, delta, k);
    }
  }

  /** Taking the sales back off gives the products as they were. */
  lemma BumpSalesInverse(products: map<ProductId, Product>, items: seq<OrderItem>, delta: int)
    ensures BumpSales(BumpSales(products, items, delta), items, -delta) == products
  {
    var once := BumpSales(products, items, delta);
    forall k | k in products
      ensures BumpSales(once, items, -delta)[k] == products[k]
    {
      BumpSalesBackAt(products, items, delta, k);
    }
  }

  /** Product `k` gets back the sales it had. */
  lemma BumpSalesBackAt(products: map<ProductId, Product>, items: seq<OrderItem>, delta: int, k: ProductId)
    requires k in products
    ensures BumpSales(BumpSales(products, items, delta), items, -delta)[k] == products[k]
  {
    var once := BumpSales(products, items, delta);
    var c := CountOf(items, k);
    BumpSalesAt(products, items, delta, k);
    BumpSalesAt(once, items, -delta, k);
    assert (-delta) * c == -(delta * c);
  }

  /** The confirmation loop: `updateSalesCount(item.id, 1)` for each item. */
  method ConfirmSales(db: Db.Store, items: seq<OrderItem>)
    modifies db`products
    ensures db.products == BumpSales(old(db.products), items, 1)
  {
    var i := 0;
    while i < |items|
      invariant 0 <= i <= |items|
      invariant BumpSales(old(db.products), items, 1) == BumpSales(db.products, items[i..], 1)
    {
      assert items[i..][0] == items[i] && items[i..][1..] == items[i + 1..];
      var _ := Products.UpdateSalesCount(db, items[i].id, 1);
      i := i + 1;
    }
  }

  /** The cancellation loop: `restoreSalesCount(item.id, 1)` for each item. */
  method RestoreSales(db: Db.Store, items: seq<OrderItem>)
    modifies db`products
    ensures db.products == BumpSales(old(db.products), items, -1)
  {
    var i := 0;
    while i < |items|
      invariant 0 <= i <= |items|
      invariant BumpSales(old(db.products), items, -1) == BumpSales(db.products, items[i..], -1)
    {
      assert items[i..][0] == items[i] && items[i..][1..] == items[i + 1..];
      var _ := Products.RestoreSalesCount(db, items[i].id, 1);
      i := i + 1;
    }
  }

  // ------------------------------------------------------------ status changes

  /** The collections a status change reads and writes. */
  datatype Collections = Collections(
    options: map<OptionId, CatalogOption>, products: map<ProductId, Product>,
    coupons: seq<Coupon>, orders: map<OrderId, Order>)

  /** The collections after a status change, and its answer or error. */
  datatype StatusChange = StatusChange(after: Collections, outcome: Result<string>)

  const Updated := "Order status updated"

  /**
   * Lines 561-578: the checks, the sales of a confirmation and the saved
   * status. An `Ok` outcome means the cancellation effects still follow.
   */
  function Saved(s: Collections, id: OrderId, status: int): (c: StatusChange)
    ensures StatusName(status).None? ==> c == StatusChange(s, Err(BadRequest("Invalid status")))
    ensures StatusName(status).Some? && id in s.orders && s.orders[id].status == StatusName(status).value ==>
      c == StatusChange(s, Err(BadRequest("Status already set to this order")))
    ensures c.outcome.Ok? <==>
      StatusName(status).Some? && id in s.orders && s.orders[id].status != StatusName(status).value
    ensures c.outcome.Ok? ==>
      c.after.orders == s.orders[id := s.orders[id].(status := StatusName(status).value)]
      && c.after.options == s.options && c.after.coupons == s.coupons
  {
    if StatusName(status).None? then StatusChange(s, Err(BadRequest("Invalid status")))
    else if id !in s.orders then StatusChange(s, Err(TypeError("Cannot read properties of null (reading 'status')")))
    else
      var order := s.orders[id];
      var name := StatusName(status).value;
      if order.status == name then StatusChange(s, Err(BadRequest("Status already set to this order")))
      else
        var products := if status == Confirmed then BumpSales(s.products, order.items, 1) else s.products;
        StatusChange(s.(products := products, orders := s.orders[id := order.(status := name)]), Ok(Updated))
  }

  /** After the coupon step: the stock goes back (`sumStock`), then the sales. */
  function GiveBack(s: Collections, order: Order): (c: StatusChange)
    ensures c.after.coupons == s.coupons && c.after.orders == s.orders
    ensures c.after.options == OrderStock.RestoreItems(s.options, order.items).options
    ensures c.outcome.Ok? <==> OrderStock.RestoreItems(s.options, order.items).outcome.Pass?
  {
    var restored := OrderStock.RestoreItems(s.options, order.items);
    if restored.outcome.Fail? then StatusChange(s.(options := restored.options), Err(restored.outcome.error))
    else StatusChange(s.(options := restored.options, products := BumpSales(s.products, order.items, -1)), Ok(Updated))
  }

  /** The code the cancellation looks the coupon up by: `order.coupon`, which is null without a coupon. */
  function CouponText(order: Order): string
  {
    match order.coupon
    case None => "null"
    case Some(code) => code
  }

  /**
   * Lines 580-584 as written: the coupon is found by the order's code (the
   * text "null" when there is none) and then saved under that same code as
   * if it were the coupon's id.
   */
  function CancelAsWritten(s: Collections, order: Order): StatusChange
  {
    var code := CouponText(order);
    match FindByCode(s.coupons, code)
    case None => StatusChange(s, Err(NotFound("Coupon not found by CODE")))
    case Some(i) =>
      match Coupons.UpdateCoupon(s.coupons, s.options, code, s.coupons[i].(count := s.coupons[i].count - 1))
      case Err(e) => StatusChange(s, Err(e))
      case Ok(coupons) => GiveBack(s.(coupons := coupons), order)
  }

  /** `updateStatus(id, { status })` as written (lines 561-593). */
  function TransitionAsWritten(s: Collections, id: OrderId, status: int): (r: StatusChange)
    ensures status != Canceled ==> r == Transition(s, id, status)
  {
    var saved := Saved(s, id, status);
    if saved.outcome.Err? || status != Canceled then saved
    else CancelAsWritten(saved.after, s.orders[id])
  }

  /**
   * The cancellation as intended: an order without a coupon skips the coupon
   * step, and the coupon found by code is saved under its own id.
   */
  function Cancel(s: Collections, order: Order): StatusChange
  {
    match order.coupon
    case None => GiveBack(s, order)
    case Some(code) =>
      match FindByCode(s.coupons, code)
      case None => StatusChange(s, Err(NotFound("Coupon not found by CODE")))
      case Some(i) =>
        var c := s.coupons[i];
        match Coupons.UpdateCoupon(s.coupons, s.options, c.id, c.(count := c.count - 1))
        case Err(e) => StatusChange(s, Err(e))
        case Ok(coupons) => GiveBack(s.(coupons := coupons), order)
  }

  /** `updateStatus(id, { status })` with the intended cancellation. */
  function Transition(s: Collections, id: OrderId, status: int): StatusChange
  {
    var saved := Saved(s, id, status);
    if saved.outcome.Err? || status != Canceled then saved
    else Cancel(saved.after, s.orders[id])
  }

  /** The store's collections as one value. */
  function CollectionsOf(db: Db.Store): Collections
    reads db
  {
    Collections(db.options, db.products, db.coupons, db.orders)
  }

  /** `updateStatus(id, { status })`, with the intended cancellation, on the store. */
  method UpdateStatus(db: Db.Store, id: OrderId, status: int) returns (r: Result<string>)
    modifies db`options, db`products, db`coupons, db`orders
    ensures StatusChange(CollectionsOf(db), r) == Transition(old(CollectionsOf(db)), id, status)
  {
    var name := StatusName(status);
    if name.None? {
      return Err(BadRequest("Invalid status"));
    }
    if id !in db.orders {
      return Err(TypeError("Cannot read properties of null (reading 'status')"));
    }
    var order := db.orders[id];
    if order.status == name.value {
      return Err(BadRequest("Status already set to this order"));
    }
    if status == Confirmed {
      ConfirmSales(db, order.items);
    }
    db.orders := db.orders[id := order.(status := name.value)];
    if status != Canceled {
      return Ok(Updated);
    }
    if order.coupon.Some? {
      var found := FindByCode(db.coupons, order.coupon.value);
      if found.None? {
        return Err(NotFound("Coupon not found by CODE"));
      }
      var c := db.coupons[found.value];
      var updated := Coupons.Update(db, c.id, c.(count := c.count - 1));
      if updated.Fail? {
        return Err(updated.error);
      }
    }
    var restored := OrderStock.SumStock(db, order.items);
    if restored.Fail? {
      return Err(restored.error);
    }
    RestoreSales(db, order.items);
    return Ok(Updated);
  }

  /** An unknown status or the order's current status changes nothing. */
  lemma RejectedChangesNothing(s: Collections, id: OrderId, status: int)
    requires StatusName(status).None? || (id in s.orders && s.orders[id].status == StatusName(status).value)
    ensures Transition(s, id, status).after == s && Transition(s, id, status).outcome.Err?
  {
  }

  /**
   * Confirming an order counts one sale per item for each product still in
   * the catalog, and touches nothing but the products and the order's status.
   */
  lemma ConfirmCountsSales(s: Collections, id: OrderId)
    requires id in s.orders && s.orders[id].status != "confirmed"
    ensures var c := Transition(s, id, Confirmed);
      c.outcome == Ok(Updated) && c.after.options == s.options && c.after.coupons == s.coupons
      && c.after.orders == s.orders[id := s.orders[id].(status := "confirmed")]
      && forall k :: k in s.products ==>
        c.after.products[k].salesCount == s.products[k].salesCount + CountOf(s.orders[id].items, k)
  {
    BumpSalesCounts(s.products, s.orders[id].items, 1);
  }

  /**
   * Cancelling an order without a coupon gives every line's quantity back to
   * its option and takes one sale per item back off.
   */
  lemma CancelGivesBackStock(s: Collections, id: OrderId)
    requires id in s.orders && s.orders[id].status != "canceled" && s.orders[id].coupon.None?
    requires OrderStock.RestoreItems(s.options, s.orders[id].items).outcome.Pass?
    ensures var c := Transition(s, id, Canceled);
      c.outcome == Ok(Updated)
      && c.after.options == OrderStock.RestoreItems(s.options, s.orders[id].items).options
      && c.after.products == BumpSales(s.products, s.orders[id].items, -1)
      && c.after.coupons == s.coupons
  {
  }

  /**
   * Cancelling an order with a coupon takes one use off that coupon and
   * leaves its record of users as it was.
   */
  lemma CancelKeepsUserRecord(s: Collections, id: OrderId)
    requires id in s.orders && s.orders[id].status != "canceled" && s.orders[id].coupon.Some?
    requires UniqueCouponIds(s.coupons) && FindByCode(s.coupons, s.orders[id].coupon.value).Some?
    requires var c := s.coupons[FindByCode(s.coupons, s.orders[id].coupon.value).value];
      c.applicableProductOption.Some? ==> c.applicableProductOption.value in s.options
    ensures var i := FindByCode(s.coupons, s.orders[id].coupon.value).value;
      var after := Transition(s, id, Canceled).after.coupons;
      |after| == |s.coupons| && after[i].count == s.coupons[i].count - 1
      && after[i].usedByUsers == s.coupons[i].usedByUsers
  {
    var i := FindByCode(s.coupons, s.orders[id].coupon.value).value;
    assert FindById(s.coupons, s.coupons[i].id) == Some(i);
  }

  /** Confirming and then cancelling a coupon-less order leaves every product's sales as they were. */
  lemma ConfirmThenCancelKeepsSales(s: Collections, id: OrderId)
    requires id in s.orders && s.orders[id].status != "confirmed" && s.orders[id].coupon.None?
    requires OrderStock.RestoreItems(s.options, s.orders[id].items).outcome.Pass?
    ensures var confirmed := Transition(s, id, Confirmed);
      Transition(confirmed.after, id, Canceled).after.products == s.products
  {
    var items := s.orders[id].items;
    var confirmed := Transition(s, id, Confirmed);
    assert confirmed.after.orders[id].items == items;
    BumpSalesInverse(s.products, items, 1);
  }

  /**
   * As written, a cancellation whose coupon lookup text is no coupon's id
   * stops with an error after the status is saved: the stock, the sales and
   * the coupon stay as they were.
   */
  lemma CancelAsWrittenStops(s: Collections, id: OrderId)
    requires id in s.orders && s.orders[id].status != "canceled"
    requires forall j :: 0 <= j < |s.coupons| ==> s.coupons[j].id != CouponText(s.orders[id])
    ensures var c := TransitionAsWritten(s, id, Canceled);
      c.outcome.Err? && c.after.options == s.options && c.after.products == s.products
      && c.after.coupons == s.coupons && c.after.orders[id].status == "canceled"
  {
  }

  /**
   * The input that shows the cancellation bug: an order that used coupon
   * PROMO (id c1) and holds 2 units of option a, of which 3 are left.
   */
  function CouponOrderExample(): Collections
  {
    var coupon := Coupon("c1", 1, "PROMO", 10, "", Fixed, 100.0, None, 1, map["u" := true]);
    var a := CatalogOption("a", "A", "", 3, 50.0, "p");
    var line := ItemOption("a", "A", "", 5, 50.0, "p", 2);
    var item := OrderItem("p", "P", "", [], [line], 100.0, 0);
    var order := Order("o1", "pending", 100.0, [item], 100.0, 0.0, JsText.Str("n"),
                       OrderAddress("x", JsText.Undefined, JsText.Undefined, JsText.Undefined,
                                    JsText.Undefined, JsText.Undefined, JsText.Undefined),
                       OrderUser("u", JsText.Undefined, "e", JsText.Undefined), JsText.Str("cash"),
                       Some("PROMO"), 100.0, "", None);
    Collections(map["a" := a], map[], [coupon], map["o1" := order])
  }

  /**
   * As written, cancelling the example order fails with "Coupon not found by
   * ID" and option a keeps 3 units; as intended a is back to 5 and the coupon
   * to 0 uses.
   */
  lemma CancelByCodeCounterexample()
    ensures TransitionAsWritten(CouponOrderExample(), "o1", Canceled).outcome == Err(NotFound("Coupon not found by ID"))
    ensures TransitionAsWritten(CouponOrderExample(), "o1", Canceled).after.options["a"].stock == 3
    ensures Transition(CouponOrderExample(), "o1", Canceled).outcome == Ok(Updated)
    ensures Transition(CouponOrderExample(), "o1", Canceled).after.options["a"].stock == 5
    ensures Transition(CouponOrderExample(), "o1", Canceled).after.coupons[0].count == 0
  {
    var s := CouponOrderExample();
    var a := s.options["a"];
    var item := s.orders["o1"].items[0];
    var line := item.options[0];
    assert JsText.EqualsIgnoreCase("PROMO", "PROMO");
    assert FindByCode(s.coupons, "PROMO") == Some(0);
    assert OrderStock.RestoreOptions(s.options, [line]).options == map["a" := a.(stock := 5)];
    assert OrderStock.RestoreItems(s.options, [item]).options == map["a" := a.(stock := 5)];
  }
}
