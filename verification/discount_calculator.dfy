/**
 * DiscountCalculatorService: the discounts of one order, in the order the
 * service computes them: quantity-tier product discounts, the subtotal, the
 * coupon, and last the 10% cash discount on what remains.
 */
module DiscountCalculator {
  import opened Common
  import opened Money
  import opened Schemas
  import Discounts
  import Coupons

  datatype DiscountType = ProductQuantity | CashPayment | CouponCode

  /** `{ amount, type, description }`. */
  datatype DiscountResult = DiscountResult(amount: real, kind: DiscountType, description: string)

  /** `{ productDiscounts, cashPaymentDiscount?, couponDiscount?, totalDiscount }`. */
  datatype OrderDiscounts = OrderDiscounts(
    productDiscounts: seq<DiscountResult>,
    cashPaymentDiscount: Option<DiscountResult>,
    couponDiscount: Option<DiscountResult>,
    totalDiscount: real)

  /** `sumDiscounts` (lines 155-157). */
  function SumDiscounts(discounts: seq<DiscountResult>): real
  {
    if |discounts| == 0 then 0.0
    else SumDiscounts(discounts[..|discounts| - 1]) + discounts[|discounts| - 1].amount
  }

  /** The sum over a concatenation is the sum of the sums. */
  lemma {:induction false} SumDiscountsAppend(a: seq<DiscountResult>, b: seq<DiscountResult>)
    ensures SumDiscounts(a + b) == SumDiscounts(a) + SumDiscounts(b)
    decreases |b|
  {
    if |b| == 0 {
      assert a + b == a;
    } else {
      SumDiscountsAppend(a, b[..|b| - 1]);
      assert (a + b)[..|a + b| - 1] == a + b[..|b| - 1];
    }
  }

  /** `a?.amount || 0`. */
  function AmountOr0(d: Option<DiscountResult>): real
  {
    if d.Some? && d.value.amount != 0.0 then d.value.amount else 0.0
  }

  const ProductDescription := "Descuento por cantidad en producto"
  const CashDescription := "Descuento del 10% por pago en efectivo"

  /** The discount one line gets from the active rules, priced against the whole `cart`. */
  function LineAmount(rules: seq<DiscountRule>, line: CartLine, cart: seq<CartLine>): real
    requires WellFormedRules(rules)
  {
    Discounts.LineDiscount(Discounts.ActiveRules(rules), line.optionId, line.quantity, cart)
  }

  /** The positions of the lines whose discount is positive, in increasing order. */
  function PositiveLines(rules: seq<DiscountRule>, lines: seq<CartLine>, cart: seq<CartLine>): (idx: seq<nat>)
    requires WellFormedRules(rules)
    ensures forall k :: 0 <= k < |idx| ==> idx[k] < |lines|
    ensures forall k, m :: 0 <= k < m < |idx| ==> idx[k] < idx[m]
    ensures forall i :: 0 <= i < |lines| ==> (i in idx <==> LineAmount(rules, lines[i], cart) > 0.0)
  {
    if |lines| == 0 then []
    else
      var init := lines[..|lines| - 1];
      assert forall i :: 0 <= i < |init| ==> init[i] == lines[i];
      PositiveLines(rules, init, cart)
        + (if LineAmount(rules, lines[|lines| - 1], cart) > 0.0 then [|lines| - 1] else [])
  }

  /**
   * The entries pushed for `lines`, each line priced against the whole `cart`
   * (lines 68-84); `ProductDiscountListFollowsLines` says which entries these are.
   */
  function ProductDiscountList(rules: seq<DiscountRule>, lines: seq<CartLine>, cart: seq<CartLine>): (r: seq<DiscountResult>)
    requires WellFormedRules(rules)
    ensures |r| <= |lines|
    ensures forall i :: 0 <= i < |r| ==>
      r[i].amount > 0.0 && r[i].kind == ProductQuantity && r[i].description == ProductDescription
  {
    if |lines| == 0 then []
    else
      var discount := LineAmount(rules, lines[|lines| - 1], cart);
      ProductDiscountList(rules, lines[..|lines| - 1], cart)
        + (if discount > 0.0 then [DiscountResult(discount, ProductQuantity, ProductDescription)] else [])
  }

  /**
   * The product discounts are, in line order, one entry for each line whose
   * discount is positive, carrying that line's discount.
   */
  lemma {:induction false} ProductDiscountListFollowsLines(rules: seq<DiscountRule>, lines: seq<CartLine>, cart: seq<CartLine>)
    requires WellFormedRules(rules)
    ensures var r := ProductDiscountList(rules, lines, cart);
      var idx := PositiveLines(rules, lines, cart);
      |r| == |idx|
      && forall k :: 0 <= k < |r| ==>
        r[k] == DiscountResult(LineAmount(rules, lines[idx[k]], cart), ProductQuantity, ProductDescription)
  {
    if |lines| > 0 {
      var init := lines[..|lines| - 1];
      assert forall i :: 0 <= i < |init| ==> init[i] == lines[i];
      ProductDiscountListFollowsLines(rules, init, cart);
    }
  }

  /** `calculateProductDiscounts(cart)` (lines 63-85). */
  method CalculateProductDiscounts(rules: seq<DiscountRule>, cart: Cart) returns (discounts: seq<DiscountResult>)
    requires WellFormedRules(rules)
    ensures discounts == ProductDiscountList(rules, cart.products, cart.products)
  {
    discounts := [];
    var i := 0;
    while i < |cart.products|
      invariant 0 <= i <= |cart.products|
      invariant discounts == ProductDiscountList(rules, cart.products[..i], cart.products)
    {
      var product := cart.products[i];
      var discount := Discounts.CalculateDiscount(rules, product.optionId, product.quantity, cart.products);
      if discount > 0.0 {
        discounts := discounts + [DiscountResult(discount, ProductQuantity, ProductDescription)];
      }
      assert cart.products[..i + 1][..i] == cart.products[..i];
      i := i + 1;
    }
    assert cart.products[..i] == cart.products;
  }

  /** What `calculateSubtotal` returns: the cart's value rounded to cents. */
  function Subtotal(options: map<OptionId, CatalogOption>, lines: seq<CartLine>): (r: Result<real>)
    ensures r.Ok? <==> Coupons.AllOptionsKnown(options, lines)
    ensures r.Ok? ==> r.value == Round2(Coupons.RawSubtotal(options, lines).value)
  {
    match Coupons.RawSubtotal(options, lines)
    case Err(e) => Err(e)
    case Ok(s) => Ok(Round2(s))
  }

  /** `calculateSubtotal(cart)` (lines 141-148): a missing option aborts with NotFound. */
  method CalculateSubtotal(options: map<OptionId, CatalogOption>, cart: Cart) returns (r: Result<real>)
    ensures r == Subtotal(options, cart.products)
  {
    var subtotal := 0.0;
    var i := 0;
    while i < |cart.products|
      invariant 0 <= i <= |cart.products|
      invariant Coupons.RawSubtotal(options, cart.products[..i]) == Ok(subtotal)
    {
      var product := cart.products[i];
      if product.optionId !in options {
        return Err(NotFound("Option not found"));
      }
      subtotal := subtotal + options[product.optionId].price * (product.quantity as real);
      var all := cart.products[..i] + [product];
      assert all[..|all| - 1] == cart.products[..i] && all[|all| - 1] == product;
      assert cart.products[..i + 1] == all;
      assert Coupons.RawSubtotal(options, all).Ok?;
      assert Coupons.RawSubtotal(options, all).value == subtotal;
      i := i + 1;
    }
    assert cart.products[..i] == cart.products;
    return Ok(Round2(subtotal));
  }

  /** `calculateCashPaymentDiscount(subtotalAfterDiscounts, paymentMethod)` (lines 93-107). */
  function CashPaymentDiscount(subtotalAfterDiscounts: real, paymentMethod: int): (r: Option<DiscountResult>)
    ensures r.Some? <==> PaymentMethodName(paymentMethod) == PaymentMethodName(Cash)
    ensures r.Some? ==>
      r.value.kind == CashPayment && r.value.description == CashDescription
      && r.value.amount == Round2(subtotalAfterDiscounts * 0.10)
  {
    if PaymentMethodName(paymentMethod) == PaymentMethodName(Cash)
    then Some(DiscountResult(Round2(subtotalAfterDiscounts * 0.10), CashPayment, CashDescription))
    else None
  }

  /** The cash discount applies to code 2 and to no other code. */
  lemma CashOnlyForCode2(paymentMethod: int)
    ensures CashPaymentDiscount(0.0, paymentMethod).Some? <==> paymentMethod == 2
  {
  }

  /** `calculateCouponDiscount(cart)` (lines 114-134). */
  function CouponDiscountFor(coupons: seq<Coupon>, options: map<OptionId, CatalogOption>, cart: Cart): (r: Option<DiscountResult>)
    ensures r.Some? <==>
      cart.coupon != ""
      && Coupons.ValidateAndCalculateDiscount(coupons, options, cart.coupon, cart.userId, cart.products).isValid
      && Coupons.ValidateAndCalculateDiscount(coupons, options, cart.coupon, cart.userId, cart.products).discount > 0.0
    ensures r.Some? ==>
      r.value.kind == CouponCode && r.value.amount > 0.0
      && r.value.amount == Coupons.ValidateAndCalculateDiscount(coupons, options, cart.coupon, cart.userId, cart.products).discount
      && r.value.description == "Descuento aplicado por cupón " + cart.coupon
  {
    if cart.coupon == "" then None
    else
      var check := Coupons.ValidateAndCalculateDiscount(coupons, options, cart.coupon, cart.userId, cart.products);
      if check.isValid && check.discount > 0.0
      then Some(DiscountResult(check.discount, CouponCode, "Descuento aplicado por cupón " + cart.coupon))
      else None
  }

  /**
   * The composition of lines 26-55, given the product discounts, the
   * subtotal and the coupon: the cash discount is 10% of the subtotal left
   * after the product and coupon discounts, and the total is the rounded sum
   * of the three parts, a missing part counting as 0.
   */
  function ComposeDiscounts(productDiscounts: seq<DiscountResult>, subtotal: real,
                            couponDiscount: Option<DiscountResult>, paymentMethod: int): (r: OrderDiscounts)
    ensures r.productDiscounts == productDiscounts && r.couponDiscount == couponDiscount
    ensures r.cashPaymentDiscount.Some? <==> paymentMethod == Cash
    ensures r.cashPaymentDiscount.Some? ==>
      (r.cashPaymentDiscount.value.amount
         == Round2(Round2(subtotal - SumDiscounts(productDiscounts) - AmountOr0(couponDiscount)) * 0.10))
    ensures r.totalDiscount
      == Round2(SumDiscounts(productDiscounts) + AmountOr0(couponDiscount) + AmountOr0(r.cashPaymentDiscount))
  {
    CashOnlyForCode2(paymentMethod);
    var productDiscountsTotal := SumDiscounts(productDiscounts);
    var subtotalAfterDiscounts := Round2(subtotal - productDiscountsTotal - AmountOr0(couponDiscount));
    var cashDiscount := CashPaymentDiscount(subtotalAfterDiscounts, paymentMethod);
    var totalDiscount := Round2(productDiscountsTotal + AmountOr0(couponDiscount) + AmountOr0(cashDiscount));
    OrderDiscounts(productDiscounts, cashDiscount, couponDiscount, totalDiscount)
  }

  /** What `calculateOrderDiscounts(cart, paymentMethod)` returns. */
  function OrderDiscountsOf(rules: seq<DiscountRule>, options: map<OptionId, CatalogOption>,
                            coupons: seq<Coupon>, cart: Cart, paymentMethod: int): (r: Result<OrderDiscounts>)
    requires WellFormedRules(rules)
    ensures r.Ok? <==> Coupons.AllOptionsKnown(options, cart.products)
    ensures r.Ok? ==> r.value.productDiscounts == ProductDiscountList(rules, cart.products, cart.products)
    ensures r.Ok? ==> r.value.couponDiscount == CouponDiscountFor(coupons, options, cart)
    ensures r.Ok? ==> (r.value.cashPaymentDiscount.Some? <==> paymentMethod == Cash)
  {
    match Subtotal(options, cart.products)
    case Err(e) => Err(e)
    case Ok(subtotal) =>
      Ok(ComposeDiscounts(ProductDiscountList(rules, cart.products, cart.products), subtotal,
                          CouponDiscountFor(coupons, options, cart), paymentMethod))
  }

  /** `calculateOrderDiscounts(cart, paymentMethod)` (lines 21-56). */
  method CalculateOrderDiscounts(rules: seq<DiscountRule>, options: map<OptionId, CatalogOption>,
                                 coupons: seq<Coupon>, cart: Cart, paymentMethod: int)
    returns (r: Result<OrderDiscounts>)
    requires WellFormedRules(rules)
    ensures r == OrderDiscountsOf(rules, options, coupons, cart, paymentMethod)
  {
    var productDiscounts := CalculateProductDiscounts(rules, cart);
    var productDiscountsTotal := SumDiscounts(productDiscounts);
    var subtotal := CalculateSubtotal(options, cart);
    if subtotal.Err? {
      return Err(subtotal.error);
    }
    var couponDiscount := CouponDiscountFor(coupons, options, cart);
    var subtotalAfterDiscounts := Round2(subtotal.value - productDiscountsTotal - AmountOr0(couponDiscount));
    var cashDiscount := CashPaymentDiscount(subtotalAfterDiscounts, paymentMethod);
    var totalDiscount := Round2(productDiscountsTotal + AmountOr0(couponDiscount) + AmountOr0(cashDiscount));
    return Ok(OrderDiscounts(productDiscounts, cashDiscount, couponDiscount, totalDiscount));
  }

  /**
   * With non-negative rule amounts and quantities, the product discounts add up
   * to the discounts service's cart discount: lines whose discount is 0 are
   * the only ones left out.
   */
  lemma {:induction false} ProductDiscountsSumToCartDiscount(rules: seq<DiscountRule>, lines: seq<CartLine>, cart: seq<CartLine>)
    requires WellFormedRules(rules)
    requires forall i :: 0 <= i < |rules| ==>
      rules[i].initialDiscountAmount >= 0.0 && rules[i].additionalDiscountAmount >= 0.0
    requires forall i :: 0 <= i < |lines| ==> lines[i].quantity >= 0
    ensures SumDiscounts(ProductDiscountList(rules, lines, cart))
      == Discounts.LinesDiscount(Discounts.ActiveRules(rules), lines, cart)
  {
    if |lines| > 0 {
      var init := lines[..|lines| - 1];
      var last := lines[|lines| - 1];
      ProductDiscountsSumToCartDiscount(rules, init, cart);
      var active := Discounts.ActiveRules(rules);
      assert forall i :: 0 <= i < |active| ==>
        active[i].initialDiscountAmount >= 0.0 && active[i].additionalDiscountAmount >= 0.0
      by {
        forall i | 0 <= i < |active|
          ensures active[i].initialDiscountAmount >= 0.0 && active[i].additionalDiscountAmount >= 0.0
        {
          assert active[i] in active;
          var k :| 0 <= k < |rules| && rules[k] == active[i];
        }
      }
      Discounts.LineDiscountNonNegative(active, last.optionId, last.quantity, cart);
      var discount := Discounts.LineDiscount(active, last.optionId, last.quantity, cart);
      var tail := if discount > 0.0 then [DiscountResult(discount, ProductQuantity, ProductDescription)] else [];
      SumDiscountsAppend(ProductDiscountList(rules, init, cart), tail);
      assert SumDiscounts(tail) == discount by {
        if discount > 0.0 {
          assert tail[..0] == [];
        }
      }
    }
  }

  /**
   * First worked scenario: one option at 1000 bought 3 times, a tier rule
   * (2 units, 500, then 200 per extra unit), no coupon, paid in cash.
   * The product discount is 700, the subtotal 3000, the cash discount 230
   * (10% of 2300, not of 3000) and the total discount 930.
   */
  lemma CashScenario()
    ensures
      var rules := [DiscountRule("r", "Tier", "", ["A"], 2, 500.0, 200.0, true)];
      var options := map["A" := CatalogOption("A", "Bolsa", "", 10, 1000.0, "p")];
      var cart := Cart("u", "", [CartLine("p", "A", 3)]);
      OrderDiscountsOf(rules, options, [], cart, Cash)
      == Ok(OrderDiscounts(
            [DiscountResult(700.0, ProductQuantity, ProductDescription)],
            Some(DiscountResult(230.0, CashPayment, CashDescription)),
            None,
            930.0))
  {
    var rule := DiscountRule("r", "Tier", "", ["A"], 2, 500.0, 200.0, true);
    var rules := [rule];
    var options := map["A" := CatalogOption("A", "Bolsa", "", 10, 1000.0, "p")];
    var line := CartLine("p", "A", 3);
    var cart := Cart("u", "", [line]);
    assert Discounts.ActiveRules(rules) == rules;
    assert rules[..0] == [];
    assert [line][..0] == [];
    assert Discounts.ApplicableQuantity(rule.applicableOptionIds, [line]) == 3;
    Discounts.ShareIsProportional(rule, "A", 3, [line]);
    assert Discounts.LineDiscount(rules, "A", 3, [line]) == 700.0;
    var pd := [DiscountResult(700.0, ProductQuantity, ProductDescription)];
    assert ProductDiscountList(rules, [line], [line]) == pd;
    assert SumDiscounts(pd) == 700.0 by { assert pd[..0] == []; }
    assert Coupons.RawSubtotal(options, [line]) == Ok(3000.0);
    Round2OfCents(300000);
    Round2OfCents(230000);
    Round2OfCents(23000);
    Round2OfCents(93000);
  }

  /**
   * Second worked scenario: an unrestricted FIXED coupon worth 1000 on a cart
   * worth 5000, paid by card: the coupon takes 1000, there is no cash
   * discount, and the total discount is 1000.
   */
  lemma FixedCouponScenario()
    ensures
      var coupon := Coupon("c", 0, "PROMO", 10, "", Fixed, 1000.0, None, 1, map[]);
      var options := map["A" := CatalogOption("A", "Bolsa", "", 10, 2500.0, "p")];
      var cart := Cart("u", "PROMO", [CartLine("p", "A", 2)]);
      OrderDiscountsOf([], options, [coupon], cart, CreditCard)
      == Ok(OrderDiscounts(
            [],
            None,
            Some(DiscountResult(1000.0, CouponCode, "Descuento aplicado por cupón PROMO")),
            1000.0))
  {
    var coupon := Coupon("c", 0, "PROMO", 10, "", Fixed, 1000.0, None, 1, map[]);
    var options := map["A" := CatalogOption("A", "Bolsa", "", 10, 2500.0, "p")];
    var line := CartLine("p", "A", 2);
    var cart := Cart("u", "PROMO", [line]);
    assert [line][..0] == [];
    assert Discounts.ActiveRules([]) == [];
    assert ProductDiscountList([], [line], [line]) == [];
    assert Coupons.RawSubtotal(options, [line]) == Ok(5000.0);
    assert FindByCode([coupon], "PROMO") == Some(0);
    assert !UsedBy(coupon, "u");
    Coupons.UnrestrictedAmount(coupon, options, "u", [line]);
    assert Coupons.ValidateAndCalculateDiscount([coupon], options, "PROMO", "u", [line]) == Coupons.CouponCheck(1000.0, true);
    assert "Descuento aplicado por cupón " + "PROMO" == "Descuento aplicado por cupón PROMO";
    assert CouponDiscountFor([coupon], options, cart) == Some(DiscountResult(1000.0, CouponCode, "Descuento aplicado por cupón PROMO"));
    Round2OfCents(500000);
    Round2OfCents(400000);
    Round2OfCents(100000);
  }
}
