/**
 * How OrdersService assembles an order: the option snapshot and line price
 * of each item (`buildProductsOrder`, `calculateTotalPrices`), the order's
 * totals (`buildBarferOrder`), the delivery day read off the delivery text
 * (`parseDeliveryDateToDay`), and the Mercado Pago line items that spread
 * the order's discount over its items (`buildMPItems`).
 */
module OrderPricing {
  import opened Common
  import opened Money
  import opened JsText
  import opened Schemas
  import OrderStock

  // ---------------------------------------------------------------- line prices

  /**
   * `calculateTotalPrices(optionsIds, optionsFromDb)` from index `from` on
   * (lines 452-468): each requested quantity times the price fetched at the
   * same index. A missing entry, or a price of 0 (the plain snapshot has no
   * `_doc` to fall back on), throws at the first such index.
   */
  function TotalPrices(reqs: seq<OptionRequest>, fetched: seq<ItemOption>, from: nat): (r: Result<seq<real>>)
    requires from <= |reqs|
    decreases |reqs| - from
    ensures r.Ok? <==> PricesFound(reqs, fetched, from)
    ensures r.Ok? ==> |r.value| == |reqs| - from
    ensures r.Ok? && from < |reqs| ==> |reqs| <= |fetched|
    ensures r.Ok? ==> forall j :: 0 <= j < |r.value| ==>
      r.value[j] == (reqs[from + j].quantity as real) * fetched[from + j].price
    ensures r.Err? ==> r.error.InternalError?
  {
    if from == |reqs| then Ok([])
    else if from >= |fetched| then
      assert !Found(fetched, from);
      Err(InternalError("Option not found for index " + IntToString(from)))
    else if fetched[from].price == 0.0 then
      assert !Found(fetched, from);
      Err(InternalError("Price not found for option at index " + IntToString(from)))
    else
      match TotalPrices(reqs, fetched, from + 1)
      case Err(e) => Err(e)
      case Ok(rest) =>
        var prices := [(reqs[from].quantity as real) * fetched[from].price] + rest;
        assert forall j :: 1 <= j < |prices| ==> prices[j] == rest[j - 1];
        Ok(prices)
  }

  /** The snapshot has an entry at index `k`, with a price that is not 0. */
  predicate Found(fetched: seq<ItemOption>, k: int)
  {
    0 <= k < |fetched| && fetched[k].price != 0.0
  }

  /** Every request line from `from` on has a fetched entry with a price. */
  predicate PricesFound(reqs: seq<OptionRequest>, fetched: seq<ItemOption>, from: nat)
  {
    forall k :: from <= k < |reqs| ==> Found(fetched, k)
  }

  /** The sum of a list of amounts (`prices.reduce((acc, price) => acc + price, 0)`). */
  function Sum(xs: seq<real>): real
  {
    if |xs| == 0 then 0.0 else Sum(xs[..|xs| - 1]) + xs[|xs| - 1]
  }

  // ---------------------------------------------------------------- item snapshots

  /** The quantity the snapshot of option `id` ends with: the last request line for it wins (lines 427-433). */
  function LastQuantity(reqs: seq<OptionRequest>, id: OptionId, otherwise: int): int
  {
    if |reqs| == 0 then otherwise
    else
      var last := reqs[|reqs| - 1];
      if last.id == id then last.quantity else LastQuantity(reqs[..|reqs| - 1], id, otherwise)
  }

  /** The quantity of the last line naming `id`. */
  lemma {:induction false} LastQuantityIsLastLine(reqs: seq<OptionRequest>, id: OptionId, otherwise: int, j: nat)
    requires j < |reqs| && reqs[j].id == id
    requires forall l :: j < l < |reqs| ==> reqs[l].id != id
    ensures LastQuantity(reqs, id, otherwise) == reqs[j].quantity
    decreases |reqs|
  {
    if j < |reqs| - 1 {
      LastQuantityIsLastLine(reqs[..|reqs| - 1], id, otherwise, j);
    }
  }

  /** The snapshot of the options of one item, fetched in request order (lines 404-415). */
  function FetchOptions(opts: map<OptionId, CatalogOption>, reqs: seq<OptionRequest>, all: seq<OptionRequest>): (r: Result<seq<ItemOption>>)
    ensures r.Ok? <==> forall j :: 0 <= j < |reqs| ==> reqs[j].id in opts
    ensures r.Err? ==> r.error == NotFound("Option not found")
    ensures r.Ok? ==> |r.value| == |reqs| && forall j :: 0 <= j < |reqs| ==>
      var o := opts[reqs[j].id];
      r.value[j] == ItemOption(reqs[j].id, o.name, o.description, o.stock, o.price, o.productId,
                               LastQuantity(all, reqs[j].id, 0))
  {
    if |reqs| == 0 then Ok([])
    else
      match FetchOptions(opts, reqs[..|reqs| - 1], all)
      case Err(e) => Err(e)
      case Ok(init) =>
        var req := reqs[|reqs| - 1];
        if req.id !in opts then Err(NotFound("Option not found"))
        else
          var o := opts[req.id];
          Ok(init + [ItemOption(req.id, o.name, o.description, o.stock, o.price, o.productId, LastQuantity(all, req.id, 0))])
  }

  /**
   * One step of `buildProductsOrder` (lines 400-446): the product must exist,
   * then every option, then every price; the item's price is the sum of its
   * line prices and its sales count starts at 0.
   */
  function BuildItem(opts: map<OptionId, CatalogOption>, products: map<ProductId, Product>, req: ItemRequest): (r: Result<OrderItem>)
    ensures r.Ok? ==> req.productId in products && r.value.id == products[req.productId].id
    ensures r.Ok? ==> r.value.salesCount == 0 && |r.value.options| == |req.options|
    ensures r.Ok? ==> forall j :: 0 <= j < |req.options| ==>
      r.value.options[j].id == req.options[j].id && req.options[j].id in opts
  {
    if req.productId !in products then Err(NotFound("Product not found"))
    else
      var product := products[req.productId];
      match FetchOptions(opts, req.options, req.options)
      case Err(e) => Err(e)
      case Ok(fetched) =>
        match TotalPrices(req.options, fetched, 0)
        case Err(e) => Err(e)
        case Ok(prices) =>
          Ok(OrderItem(product.id, product.name, product.description, product.images, fetched, Sum(prices), 0))
  }

  /** Quantity × stored price for each request line. */
  function LinePrices(opts: map<OptionId, CatalogOption>, reqs: seq<OptionRequest>): (prices: seq<real>)
    requires forall j :: 0 <= j < |reqs| ==> reqs[j].id in opts
    ensures |prices| == |reqs|
    ensures forall j :: 0 <= j < |reqs| ==> prices[j] == (reqs[j].quantity as real) * opts[reqs[j].id].price
  {
    seq(|reqs|, j requires 0 <= j < |reqs| && reqs[j].id in opts => (reqs[j].quantity as real) * opts[reqs[j].id].price)
  }

  /** The item's price is the sum of quantity × price over its request lines. */
  lemma ItemPriceIsLineSum(opts: map<OptionId, CatalogOption>, products: map<ProductId, Product>, req: ItemRequest)
    requires BuildItem(opts, products, req).Ok?
    ensures forall j :: 0 <= j < |req.options| ==> req.options[j].id in opts
    ensures BuildItem(opts, products, req).value.price == Sum(LinePrices(opts, req.options))
  {
    var fetched := FetchOptions(opts, req.options, req.options).value;
    var prices := TotalPrices(req.options, fetched, 0).value;
    assert BuildItem(opts, products, req).value.price == Sum(prices);
    PricesAreLinePrices(opts, req.options, fetched, prices);
  }

  /** Prices computed from a snapshot fetched in request order are the line prices. */
  lemma PricesAreLinePrices(opts: map<OptionId, CatalogOption>, reqs: seq<OptionRequest>, fetched: seq<ItemOption>, prices: seq<real>)
    requires forall j :: 0 <= j < |reqs| ==> reqs[j].id in opts
    requires |fetched| == |reqs| && forall j :: 0 <= j < |reqs| ==> fetched[j].price == opts[reqs[j].id].price
    requires |prices| == |reqs| && forall j :: 0 <= j < |reqs| ==> prices[j] == (reqs[j].quantity as real) * fetched[j].price
    ensures prices == LinePrices(opts, reqs)
  {
    var lines := LinePrices(opts, reqs);
    assert forall j :: 0 <= j < |reqs| ==> prices[j] == lines[j];
  }

  /** The option ids of one request item are pairwise distinct. */
  predicate DistinctOptions(reqs: seq<OptionRequest>)
  {
    forall i, j :: 0 <= i < j < |reqs| ==> reqs[i].id != reqs[j].id
  }

  /**
   * When an item names each option once, its snapshot holds exactly the
   * requested quantities, so restoring the order gives back what was taken.
   */
  lemma SnapshotKeepsQuantities(opts: map<OptionId, CatalogOption>, products: map<ProductId, Product>, req: ItemRequest)
    requires BuildItem(opts, products, req).Ok?
    requires DistinctOptions(req.options)
    ensures var item := BuildItem(opts, products, req).value;
      |item.options| == |req.options|
      && forall j :: 0 <= j < |req.options| ==>
        item.options[j].id == req.options[j].id && item.options[j].quantity == req.options[j].quantity
  {
    var fetched := FetchOptions(opts, req.options, req.options).value;
    forall j | 0 <= j < |req.options|
      ensures fetched[j].quantity == req.options[j].quantity
    {
      LastQuantityIsLastLine(req.options, req.options[j].id, 0, j);
    }
  }

  /** `buildProductsOrder(products)` as a value: the items in request order, or the first failure. */
  function BuildItems(opts: map<OptionId, CatalogOption>, products: map<ProductId, Product>, reqs: seq<ItemRequest>): (r: Result<seq<OrderItem>>)
    ensures r.Ok? ==> |r.value| == |reqs|
    ensures r.Ok? ==> forall i :: 0 <= i < |reqs| ==> BuildItem(opts, products, reqs[i]) == Ok(r.value[i])
    ensures r.Ok? <==> forall i :: 0 <= i < |reqs| ==> BuildItem(opts, products, reqs[i]).Ok?
  {
    if |reqs| == 0 then Ok([])
    else
      match BuildItems(opts, products, reqs[..|reqs| - 1])
      case Err(e) => Err(e)
      case Ok(init) =>
        match BuildItem(opts, products, reqs[|reqs| - 1])
        case Err(e) => Err(e)
        case Ok(item) => Ok(init + [item])
  }

  /** The first failing item decides the failure, whatever follows it. */
  lemma {:induction false} FailureIsFinal(opts: map<OptionId, CatalogOption>, products: map<ProductId, Product>,
                                          reqs: seq<ItemRequest>, n: nat)
    requires n <= |reqs| && BuildItems(opts, products, reqs[..n]).Err?
    ensures BuildItems(opts, products, reqs) == BuildItems(opts, products, reqs[..n])
    decreases |reqs|
  {
    if n == |reqs| {
      assert reqs[..n] == reqs;
    } else {
      var init := reqs[..|reqs| - 1];
      assert init[..n] == reqs[..n];
      FailureIsFinal(opts, products, init, n);
    }
  }

  /** One more request item: its failure, or its item appended. */
  lemma BuildItemsStep(opts: map<OptionId, CatalogOption>, products: map<ProductId, Product>, reqs: seq<ItemRequest>, i: nat)
    requires i < |reqs| && BuildItems(opts, products, reqs[..i]).Ok?
    ensures BuildItems(opts, products, reqs[..i + 1])
      == match BuildItem(opts, products, reqs[i])
         case Err(e) => Err(e)
         case Ok(item) => Ok(BuildItems(opts, products, reqs[..i]).value + [item])
  {
    assert reqs[..i + 1][..i] == reqs[..i];
  }

  /** `buildProductsOrder(products)` (lines 397-450). */
  method BuildProductsOrder(opts: map<OptionId, CatalogOption>, products: map<ProductId, Product>, reqs: seq<ItemRequest>)
    returns (r: Result<seq<OrderItem>>)
    ensures r == BuildItems(opts, products, reqs)
  {
    var productsOrder: seq<OrderItem> := [];
    var i := 0;
    while i < |reqs|
      invariant 0 <= i <= |reqs|
      invariant BuildItems(opts, products, reqs[..i]) == Ok(productsOrder)
    {
      BuildItemsStep(opts, products, reqs, i);
      var item := BuildItem(opts, products, reqs[i]);
      if item.Err? {
        FailureIsFinal(opts, products, reqs, i + 1);
        return Err(item.error);
      }
      productsOrder := productsOrder + [item.value];
      i := i + 1;
    }
    assert reqs[..i] == reqs;
    return Ok(productsOrder);
  }

  /** Request items that each name their options once are stored with the same lines. */
  lemma BuiltItemsHoldRequestLines(opts: map<OptionId, CatalogOption>, products: map<ProductId, Product>, reqs: seq<ItemRequest>)
    requires BuildItems(opts, products, reqs).Ok?
    requires forall i :: 0 <= i < |reqs| ==> DistinctOptions(reqs[i].options)
    ensures OrderStock.SameLines(BuildItems(opts, products, reqs).value, reqs)
  {
    var items := BuildItems(opts, products, reqs).value;
    forall i | 0 <= i < |reqs|
      ensures |items[i].options| == |reqs[i].options|
      ensures forall j :: 0 <= j < |reqs[i].options| ==>
        items[i].options[j].id == reqs[i].options[j].id && items[i].options[j].quantity == reqs[i].options[j].quantity
    {
      SnapshotKeepsQuantities(opts, products, reqs[i]);
    }
  }

  // ---------------------------------------------------------------- totals

  /** The order's `subTotal`: the sum of the item prices (lines 241-244). */
  function SubTotal(items: seq<OrderItem>): real
  {
    if |items| == 0 then 0.0 else SubTotal(items[..|items| - 1]) + items[|items| - 1].price
  }

  /** A shipping price that is not positive is stored as 0 (line 245). */
  function ValidShipping(shippingPrice: real): (s: real)
    ensures s >= 0.0
    ensures shippingPrice > 0.0 ==> s == shippingPrice
    ensures shippingPrice <= 0.0 ==> s == 0.0
  {
    if shippingPrice > 0.0 then shippingPrice else 0.0
  }

  /** The order's `total`: subtotal plus shipping minus discount, clamped at 0 (lines 248-253). */
  function OrderTotal(subTotal: real, shippingPrice: real, discount: real): (total: real)
    ensures total >= 0.0
    ensures total >= subTotal + ValidShipping(shippingPrice) - discount
    ensures total == 0.0 || total == subTotal + ValidShipping(shippingPrice) - discount
  {
    var total := subTotal + ValidShipping(shippingPrice) - discount;
    if total < 0.0 then 0.0 else total
  }

  /** The total only differs from the plain difference when that difference is negative. */
  lemma OrderTotalIsClampedDifference(subTotal: real, shippingPrice: real, discount: real)
    ensures subTotal + ValidShipping(shippingPrice) - discount >= 0.0 ==>
      OrderTotal(subTotal, shippingPrice, discount) == subTotal + ValidShipping(shippingPrice) - discount
    ensures subTotal + ValidShipping(shippingPrice) - discount < 0.0 ==> OrderTotal(subTotal, shippingPrice, discount) == 0.0
  {
  }

  /**
   * The order document `buildBarferOrder` returns (lines 219-277), given the
   * built items; `year` stands for the current year.
   */
  function BarferOrder(id: OrderId, items: seq<OrderItem>, address: OrderAddress, user: OrderUser,
                       notes: Field, paymentMethod: int, shippingPrice: real, status: string,
                       coupon: string, discount: real, deliveryDate: string, couponDiscount: real,
                       year: int): (o: Order)
    ensures o.id == id && o.status == status
    ensures o.total >= 0.0 && o.shippingPrice >= 0.0
    ensures o.subTotal == SubTotal(items) && o.items == items
    ensures o.total == OrderTotal(o.subTotal, shippingPrice, discount)
    ensures o.paymentMethod == PaymentMethodName(paymentMethod)
    ensures o.coupon.None? <==> coupon == ""
  {
    var subTotal := SubTotal(items);
    Order(id, status, OrderTotal(subTotal, shippingPrice, discount), items, subTotal,
          ValidShipping(shippingPrice), notes, address, user, PaymentMethodName(paymentMethod),
          if coupon == "" then None else Some(coupon), couponDiscount, deliveryDate,
          ParseDeliveryDateToDay(deliveryDate, year))
  }

  /**
   * The schema's `required` checks at save time: `notes` must be a non-empty
   * string and `paymentMethod` must be set.
   */
  predicate PassesRequired(o: Order)
    ensures PassesRequired(o) <==>
      (o.notes.Str? && |o.notes.s| > 0) && (o.paymentMethod.Str? && |o.paymentMethod.s| > 0)
  {
    Truthy(o.notes) && Truthy(o.paymentMethod)
  }

  // ---------------------------------------------------------------- delivery day

  /**
   * The `YYYY-MM-DD` text built from `day/month…` (lines 825-828 and
   * 833-835); too few pieces make `month.padStart` throw, which is caught.
   */
  function DayMonthText(datePart: string, year: int): (r: Option<string>)
    ensures r.Some? <==> |Split(datePart, "/")| >= 2
  {
    var parts := Split(datePart, "/");
    if |parts| < 2 then None
    else Some(IntToString(year) + "-" + PadStart(parts[1], 2, '0') + "-" + PadStart(parts[0], 2, '0'))
  }

  /**
   * `parseDeliveryDateToDay(deliveryDate)` (lines 812-845), returning the
   * date text handed to `new Date`: the part before `" de "` when there is
   * one, else the whole trimmed text when it has a `/`, else nothing.
   */
  function ParseDeliveryDateToDay(deliveryDate: string, year: int): (r: Option<string>)
    ensures Trim(deliveryDate) == "" ==> r.None?
    ensures r.Some? ==> Contains(Trim(deliveryDate), " de ") || Contains(Trim(deliveryDate), "/")
    ensures Contains(Trim(deliveryDate), " de ") ==>
      r == DayMonthText(Split(Trim(deliveryDate), " de ")[0], year)
  {
    var trimmed := Trim(deliveryDate);
    if trimmed == "" then None
    else if Contains(trimmed, " de ") then DayMonthText(Split(trimmed, " de ")[0], year)
    else if Contains(trimmed, "/") then DayMonthText(trimmed, year)
    else None
  }

  /** A day and a month separated by `/` give the year, then the month and the day padded to two digits. */
  lemma {:induction false} DayMonthOf(day: string, month: string, year: int)
    requires Lacks(day, '/') && Lacks(month, '/')
    ensures DayMonthText(day + "/" + month, year)
      == Some(IntToString(year) + "-" + PadStart(month, 2, '0') + "-" + PadStart(day, 2, '0'))
  {
    var s := day + "/" + month;
    assert s[|day|..|day| + 1] == "/";
    FirstOccurrence(s, "/", |day|);
    assert s[|day| + 1..] == month;
    NoOccurrence(month, "/");
    assert Split(month, "/") == [month];
    assert s[..|day|] == day;
    assert Split(s, "/") == [day] + Split(month, "/");
  }

  /** A text with no whitespace in it. */
  predicate Solid(s: string)
  {
    forall i :: 0 <= i < |s| ==> !IsSpace(s[i])
  }

  /** The time range after `" de "` is ignored: the day is the one the date part alone gives. */
  lemma {:induction false} TimeRangeIgnored(date: string, time: string, year: int)
    requires |date| > 0 && Solid(date)
    requires |time| > 0 && !IsSpace(time[|time| - 1])
    ensures ParseDeliveryDateToDay(date + " de " + time, year) == ParseDeliveryDateToDay(date, year)
  {
    var t := date + " de " + time;
    assert t[0] == date[0] && t[|t| - 1] == time[|time| - 1];
    assert TrimStart(t) == t;
    assert TrimEnd(t) == t;
    assert t[|date|..|date| + 4] == " de ";
    FirstOccurrence(t, " de ", |date|);
    assert t[..|date|] == date;
    assert Split(t, " de ")[0] == date;
    assert TrimStart(date) == date;
    assert TrimEnd(date) == date;
    NoOccurrence(date, " de ");
    if !Contains(date, "/") {
      assert Split(date, "/") == [date];
    }
  }

  /** Without a `/` no day is found, with or without a time range. */
  lemma {:induction false} NoSlashNoDay(deliveryDate: string, year: int)
    requires Lacks(Trim(deliveryDate), '/')
    ensures ParseDeliveryDateToDay(deliveryDate, year).None?
  {
    var t := Trim(deliveryDate);
    if t != "" && Contains(t, " de ") {
      var datePart := Split(t, " de ")[0];
      assert datePart == t[..IndexOf(t, " de ").value];
      assert Lacks(datePart, '/');
      NoOccurrence(datePart, "/");
      assert Split(datePart, "/") == [datePart];
    } else if t != "" {
      NoOccurrence(t, "/");
    }
  }

  lemma Year2025()
    ensures IntToString(2025) == "2025"
  {
    assert NatToString(2) == "2";
    assert NatToString(20) == "20";
    assert NatToString(202) == "202";
  }

  lemma Day18Of09()
    ensures "2025" + "-" + "09" + "-" + "18" == "2025-09-18"
  {
  }

  /** The short documented form: `"18/09"` is the 18th of September. */
  lemma DeliveryDateAlone()
    ensures ParseDeliveryDateToDay("18/09", 2025) == Some("2025-09-18")
  {
    var s := "18/09";
    assert TrimStart(s) == s;
    assert TrimEnd(s) == s;
    assert Trim(s) == s;
    NoOccurrence(s, " de ");
    assert s == "18" + "/" + "09";
    DayMonthOf("18", "09", 2025);
    Year2025();
    assert PadStart("09", 2, '0') == "09";
    assert PadStart("18", 2, '0') == "18";
    Day18Of09();
  }

  /** The long documented form gives the same day. */
  lemma DeliveryDateWithTime()
    ensures ParseDeliveryDateToDay("18/09 de 13.30hs a 17hs", 2025) == Some("2025-09-18")
  {
    var date := "18/09";
    assert "18/09 de 13.30hs a 17hs" == date + " de " + "13.30hs a 17hs";
    TimeRangeIgnored(date, "13.30hs a 17hs", 2025);
    DeliveryDateAlone();
  }

  // ---------------------------------------------------------------- Mercado Pago items

  /** A Mercado Pago line item; `id` is the item's `productId`, which the stored items do not carry. */
  datatype MpItem = MpItem(id: Field, title: string, unitPrice: real, quantity: int,
                           currencyId: string, description: string, pictureUrl: Field)

  /** Every item has a first option (`item.options[0]` is read for each). */
  predicate AllHaveOptions(items: seq<OrderItem>)
  {
    forall i :: 0 <= i < |items| ==> |items[i].options| > 0
  }

  /** The summed quantity of the first option of each item (lines 320-323). */
  function QuantitySum(items: seq<OrderItem>): int
    requires AllHaveOptions(items)
  {
    if |items| == 0 then 0 else QuantitySum(items[..|items| - 1]) + items[|items| - 1].options[0].quantity
  }

  /** `item.options[0].quantity || 1`. */
  function LineQuantity(item: OrderItem): int
    requires |item.options| > 0
  {
    if item.options[0].quantity == 0 then 1 else item.options[0].quantity
  }

  /** `Math.min(remaining, Math.round(quantity / totalQuantity × totalDiscount))` (lines 338-341). */
  function Share(quantity: int, totalQuantity: int, totalDiscount: real, remaining: real): (s: real)
    requires totalQuantity != 0
    ensures s <= remaining
  {
    var rounded := RoundHalfUp((quantity as real) / (totalQuantity as real) * totalDiscount) as real;
    if remaining <= rounded then remaining else rounded
  }

  /** The share taken by each item in turn, starting from `remaining`. */
  function SharesFrom(items: seq<OrderItem>, totalQuantity: int, totalDiscount: real, remaining: real): (shares: seq<real>)
    requires AllHaveOptions(items) && totalQuantity != 0
    ensures |shares| == |items|
  {
    if |items| == 0 then []
    else
      var share := Share(LineQuantity(items[0]), totalQuantity, totalDiscount, remaining);
      [share] + SharesFrom(items[1..], totalQuantity, totalDiscount, remaining - share)
  }

  /** The item emitted for one order item with its share (lines 348-361). */
  function MpItemFor(item: OrderItem, share: real): MpItem
  {
    MpItem(Undefined, item.name, Round2(item.price - share), 1, "ARS", item.description,
           if |item.images| > 0 then Str(item.images[0]) else Undefined)
  }

  /** The items emitted from `items` on, starting from `remaining`. */
  function MpItemsFrom(items: seq<OrderItem>, totalQuantity: int, totalDiscount: real, remaining: real): (r: seq<MpItem>)
    requires AllHaveOptions(items) && totalQuantity != 0
    ensures |r| == |items|
  {
    if |items| == 0 then []
    else
      var share := Share(LineQuantity(items[0]), totalQuantity, totalDiscount, remaining);
      [MpItemFor(items[0], share)] + MpItemsFrom(items[1..], totalQuantity, totalDiscount, remaining - share)
  }

  /**
   * One provider item per order item, in order, each of quantity 1 in ARS,
   * priced at the item's price minus its share, rounded to cents.
   */
  lemma {:induction false} MpItemsShape(items: seq<OrderItem>, totalQuantity: int, totalDiscount: real, remaining: real)
    requires AllHaveOptions(items) && totalQuantity != 0
    ensures forall i :: 0 <= i < |items| ==>
      MpItemsFrom(items, totalQuantity, totalDiscount, remaining)[i]
      == MpItemFor(items[i], SharesFrom(items, totalQuantity, totalDiscount, remaining)[i])
    ensures forall i :: 0 <= i < |items| ==>
      var m := MpItemsFrom(items, totalQuantity, totalDiscount, remaining)[i];
      m.quantity == 1 && m.currencyId == "ARS" && m.title == items[i].name
      && m.unitPrice == Round2(items[i].price - SharesFrom(items, totalQuantity, totalDiscount, remaining)[i])
    decreases |items|
  {
    if |items| > 0 {
      var share := Share(LineQuantity(items[0]), totalQuantity, totalDiscount, remaining);
      var tail := items[1..];
      MpItemsShape(tail, totalQuantity, totalDiscount, remaining - share);
      var ms := MpItemsFrom(items, totalQuantity, totalDiscount, remaining);
      var shares := SharesFrom(items, totalQuantity, totalDiscount, remaining);
      assert ms[1..] == MpItemsFrom(tail, totalQuantity, totalDiscount, remaining - share);
      assert shares[1..] == SharesFrom(tail, totalQuantity, totalDiscount, remaining - share);
      forall i | 1 <= i < |items|
        ensures ms[i] == MpItemFor(items[i], shares[i])
      {
        assert ms[i] == ms[1..][i - 1] && shares[i] == shares[1..][i - 1] && items[i] == tail[i - 1];
      }
    }
  }

  const NoQuantities := "[MP Items Error] No items found with valid quantities"

  /** What `buildMPItems(items, totalDiscount)` returns or throws (lines 313-364). */
  function MpItems(items: seq<OrderItem>, totalDiscount: real): (r: Result<seq<MpItem>>)
    ensures r.Ok? <==> AllHaveOptions(items) && QuantitySum(items) != 0
    ensures AllHaveOptions(items) && QuantitySum(items) == 0 ==> r == Err(InternalError(NoQuantities))
    ensures r.Ok? ==> |r.value| == |items|
  {
    if !AllHaveOptions(items) then Err(TypeError("Cannot read properties of undefined (reading 'quantity')"))
    else if QuantitySum(items) == 0 then Err(InternalError(NoQuantities))
    else Ok(MpItemsFrom(items, QuantitySum(items), totalDiscount, totalDiscount))
  }

  /** The line items from item `i` on start with item `i`'s, priced with its share. */
  lemma MpItemsFromStep(items: seq<OrderItem>, totalQuantity: int, totalDiscount: real, remaining: real, i: nat)
    requires AllHaveOptions(items) && totalQuantity != 0 && i < |items|
    ensures AllHaveOptions(items[i..]) && AllHaveOptions(items[i + 1..])
    ensures var share := Share(LineQuantity(items[i]), totalQuantity, totalDiscount, remaining);
      MpItemsFrom(items[i..], totalQuantity, totalDiscount, remaining)
      == [MpItemFor(items[i], share)] + MpItemsFrom(items[i + 1..], totalQuantity, totalDiscount, remaining - share)
  {
    assert items[i..][0] == items[i] && items[i..][1..] == items[i + 1..];
  }

  /** `buildMPItems(items, totalDiscount)`. */
  method BuildMPItems(items: seq<OrderItem>, totalDiscount: real) returns (r: Result<seq<MpItem>>)
    ensures r == MpItems(items, totalDiscount)
  {
    if !AllHaveOptions(items) {
      return Err(TypeError("Cannot read properties of undefined (reading 'quantity')"));
    }
    var totalQuantity := QuantitySum(items);
    if totalQuantity == 0 {
      return Err(InternalError(NoQuantities));
    }
    var mpItems := SpreadDiscount(items, totalQuantity, totalDiscount);
    return Ok(mpItems);
  }

  /** The `forEach` of lines 333-361: each item in turn takes its share of what is left of the discount. */
  method SpreadDiscount(items: seq<OrderItem>, totalQuantity: int, totalDiscount: real) returns (mpItems: seq<MpItem>)
    requires AllHaveOptions(items) && totalQuantity != 0
    ensures mpItems == MpItemsFrom(items, totalQuantity, totalDiscount, totalDiscount)
  {
    mpItems := [];
    var remainingDiscount := totalDiscount;
    var i := 0;
    while i < |items|
      invariant 0 <= i <= |items|
      invariant mpItems + MpItemsFrom(items[i..], totalQuantity, totalDiscount, remainingDiscount)
        == MpItemsFrom(items, totalQuantity, totalDiscount, totalDiscount)
    {
      var item := items[i];
      MpItemsFromStep(items, totalQuantity, totalDiscount, remainingDiscount, i);
      var discountForItem := Share(LineQuantity(item), totalQuantity, totalDiscount, remainingDiscount);
      remainingDiscount := remainingDiscount - discountForItem;
      mpItems := mpItems + [MpItemFor(item, discountForItem)];
      i := i + 1;
    }
    assert items[i..] == [];
  }

  /** The sum of a list of shares, first to last. */
  function Total(shares: seq<real>): real
  {
    if |shares| == 0 then 0.0 else shares[0] + Total(shares[1..])
  }

  /**
   * The cap only prevents over-allocation: from a non-negative remainder the
   * shares never add up to more than it, so the remainder never goes negative.
   */
  lemma {:induction false} SharesNeverExceed(items: seq<OrderItem>, totalQuantity: int, totalDiscount: real, remaining: real)
    requires AllHaveOptions(items) && totalQuantity != 0
    requires remaining >= 0.0
    ensures Total(SharesFrom(items, totalQuantity, totalDiscount, remaining)) <= remaining
    decreases |items|
  {
    if |items| > 0 {
      var share := Share(LineQuantity(items[0]), totalQuantity, totalDiscount, remaining);
      var shares := SharesFrom(items, totalQuantity, totalDiscount, remaining);
      assert shares[1..] == SharesFrom(items[1..], totalQuantity, totalDiscount, remaining - share);
      SharesNeverExceed(items[1..], totalQuantity, totalDiscount, remaining - share);
    }
  }

  /** With a non-negative discount and quantities, every share is non-negative. */
  lemma {:induction false} SharesNonNegative(items: seq<OrderItem>, totalQuantity: int, totalDiscount: real, remaining: real)
    requires AllHaveOptions(items) && totalQuantity > 0
    requires totalDiscount >= 0.0 && remaining >= 0.0
    requires forall i :: 0 <= i < |items| ==> items[i].options[0].quantity >= 0
    ensures forall i :: 0 <= i < |items| ==> SharesFrom(items, totalQuantity, totalDiscount, remaining)[i] >= 0.0
    decreases |items|
  {
    if |items| > 0 {
      var q := LineQuantity(items[0]);
      assert (q as real) / (totalQuantity as real) >= 0.0;
      assert (q as real) / (totalQuantity as real) * totalDiscount >= 0.0;
      var share := Share(q, totalQuantity, totalDiscount, remaining);
      SharesNonNegative(items[1..], totalQuantity, totalDiscount, remaining - share);
      assert forall i :: 1 <= i < |items| ==> items[1..][i - 1] == items[i];
    }
  }

  /**
   * Rounding can leave part of the discount unallocated: three lines of one
   * unit sharing a discount of 1 each round 1/3 down to 0.
   */
  lemma RoundingLeavesRemainder(item: OrderItem)
    requires |item.options| > 0 && item.options[0].quantity == 1
    ensures SharesFrom([item, item, item], 3, 1.0, 1.0) == [0.0, 0.0, 0.0]
  {
    assert RoundHalfUp(1.0 / 3.0 * 1.0) == 0;
    assert LineQuantity(item) == 1;
    assert Share(1, 3, 1.0, 1.0) == 0.0;
    var items := [item, item, item];
    assert items[1..] == [item, item] && items[1..][1..] == [item] && [item][1..] == [];
    assert SharesFrom([item], 3, 1.0, 1.0) == [0.0];
    assert SharesFrom([item, item], 3, 1.0, 1.0) == [0.0, 0.0];
  }
}
