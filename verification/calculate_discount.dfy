/**
 * The coupon helpers of the common utilities: a percentage or a fixed amount
 * per unit over the products a coupon applies to.
 */
module CouponMath {
  import opened JsText

  /** An option line of a product, with its quantity and unit price. */
  datatype PricedOption = PricedOption(quantity: int, price: real)

  datatype PricedProduct = PricedProduct(productId: string, options: seq<PricedOption>)

  /**
   * The filter of lines 7-9 and 28-30: every product when `applicableProduct`
   * is falsy (null, undefined or empty), otherwise the products with that id.
   */
  function ApplicableProducts(products: seq<PricedProduct>, applicableProduct: Field): (r: seq<PricedProduct>)
    ensures !Truthy(applicableProduct) ==> r == products
    ensures Truthy(applicableProduct) ==>
      forall p :: p in r <==> p in products && p.productId == applicableProduct.s
    ensures |r| <= |products|
  {
    if |products| == 0 then []
    else
      var rest := ApplicableProducts(products[1..], applicableProduct);
      if !Truthy(applicableProduct) || products[0].productId == applicableProduct.s
      then [products[0]] + rest
      else rest
  }

  /**
   * The filter keeps the order of the products: filtering a concatenation is
   * concatenating the filtered parts, and a single product is kept exactly
   * when the filter admits it.
   */
  lemma {:induction false} ApplicableProductsKeepsOrder(a: seq<PricedProduct>, b: seq<PricedProduct>, applicableProduct: Field)
    ensures ApplicableProducts(a + b, applicableProduct)
      == ApplicableProducts(a, applicableProduct) + ApplicableProducts(b, applicableProduct)
    ensures forall p ::
      ApplicableProducts([p], applicableProduct)
        == if !Truthy(applicableProduct) || p.productId == applicableProduct.s then [p] else []
  {
    if |a| > 0 {
      assert (a + b)[1..] == a[1..] + b;
      ApplicableProductsKeepsOrder(a[1..], b, applicableProduct);
      assert (a + b)[0] == a[0];
    } else {
      assert a + b == b;
    }
    forall p
      ensures ApplicableProducts([p], applicableProduct)
        == if !Truthy(applicableProduct) || p.productId == applicableProduct.s then [p] else []
    {
      assert [p][1..] == [];
    }
  }

  /** Each kept product is kept as many times as it occurs. */
  lemma {:induction false} ApplicableProductsCounts(products: seq<PricedProduct>, applicableProduct: Field)
    ensures forall p ::
      multiset(ApplicableProducts(products, applicableProduct))[p]
        == if !Truthy(applicableProduct) || p.productId == applicableProduct.s then multiset(products)[p] else 0
  {
    if |products| > 0 {
      ApplicableProductsCounts(products[1..], applicableProduct);
      assert products == [products[0]] + products[1..];
    }
  }

  /** The inner reduce of line 12: quantity times price over the options. */
  function OptionsValue(options: seq<PricedOption>): real
  {
    if |options| == 0 then 0.0
    else OptionsValue(options[..|options| - 1]) + (options[|options| - 1].quantity as real) * options[|options| - 1].price
  }

  /** The inner reduce of line 37: units over the options. */
  function OptionsUnits(options: seq<PricedOption>): int
  {
    if |options| == 0 then 0
    else OptionsUnits(options[..|options| - 1]) + options[|options| - 1].quantity
  }

  /** The outer reduce of line 11: each product's value times the percentage. */
  function PercentageOver(products: seq<PricedProduct>, couponValue: real): real
  {
    if |products| == 0 then 0.0
    else
      PercentageOver(products[..|products| - 1], couponValue)
        + (OptionsValue(products[|products| - 1].options) * couponValue) / 100.0
  }

  /** The outer reduce of line 34: the units of every product. */
  function UnitsOver(products: seq<PricedProduct>): int
  {
    if |products| == 0 then 0
    else UnitsOver(products[..|products| - 1]) + OptionsUnits(products[|products| - 1].options)
  }

  /** The value of every option of every product. */
  function ValueOver(products: seq<PricedProduct>): real
  {
    if |products| == 0 then 0.0
    else ValueOver(products[..|products| - 1]) + OptionsValue(products[|products| - 1].options)
  }

  /**
   * `calculatePercentageDiscount(products, couponValue, applicableProduct)`;
   * without a restriction the whole cart is discounted.
   */
  function CalculatePercentageDiscount(products: seq<PricedProduct>, couponValue: real, applicableProduct: Field): (r: real)
    ensures !Truthy(applicableProduct) ==> r == PercentageOver(products, couponValue)
  {
    PercentageOver(ApplicableProducts(products, applicableProduct), couponValue)
  }

  /**
   * `calculateFixedDiscount(products, couponValue, applicableProduct)`;
   * without a restriction every unit of the cart counts.
   */
  function CalculateFixedDiscount(products: seq<PricedProduct>, couponValue: real, applicableProduct: Field): (r: real)
    ensures !Truthy(applicableProduct) ==> r == couponValue * (UnitsOver(products) as real)
  {
    couponValue * (UnitsOver(ApplicableProducts(products, applicableProduct)) as real)
  }

  /** Taking the percentage product by product is taking it of the whole value. */
  lemma {:induction false} PercentageOfTotal(products: seq<PricedProduct>, couponValue: real)
    ensures PercentageOver(products, couponValue) == ValueOver(products) * couponValue / 100.0
  {
    if |products| > 0 {
      var init := products[..|products| - 1];
      PercentageOfTotal(init, couponValue);
      var a := ValueOver(init);
      var b := OptionsValue(products[|products| - 1].options);
      assert a * couponValue / 100.0 + b * couponValue / 100.0 == (a + b) * couponValue / 100.0;
    }
  }

  /** The percentage discount is the applicable products' value times couponValue / 100. */
  lemma {:induction false} PercentageDiscountIsShareOfValue(products: seq<PricedProduct>, couponValue: real, applicableProduct: Field)
    ensures CalculatePercentageDiscount(products, couponValue, applicableProduct)
      == ValueOver(ApplicableProducts(products, applicableProduct)) * couponValue / 100.0
  {
    PercentageOfTotal(ApplicableProducts(products, applicableProduct), couponValue);
  }

  /** Both helpers are linear in the coupon's value. */
  lemma {:induction false} DiscountsAreLinearInValue(products: seq<PricedProduct>, couponValue: real, applicableProduct: Field)
    ensures CalculatePercentageDiscount(products, couponValue, applicableProduct)
      == couponValue * CalculatePercentageDiscount(products, 1.0, applicableProduct)
    ensures CalculateFixedDiscount(products, couponValue, applicableProduct)
      == couponValue * CalculateFixedDiscount(products, 1.0, applicableProduct)
  {
    PercentageDiscountIsShareOfValue(products, couponValue, applicableProduct);
    PercentageDiscountIsShareOfValue(products, 1.0, applicableProduct);
  }

  /** A coupon worth 0 takes nothing off. */
  lemma {:induction false} ZeroValueGivesZero(products: seq<PricedProduct>, applicableProduct: Field)
    ensures CalculatePercentageDiscount(products, 0.0, applicableProduct) == 0.0
    ensures CalculateFixedDiscount(products, 0.0, applicableProduct) == 0.0
  {
    DiscountsAreLinearInValue(products, 0.0, applicableProduct);
  }

  /** When no product carries the applicable id, both helpers give 0. */
  lemma {:induction false} NoApplicableProductGivesZero(products: seq<PricedProduct>, couponValue: real, applicableProduct: Field)
    requires Truthy(applicableProduct)
    requires forall i :: 0 <= i < |products| ==> products[i].productId != applicableProduct.s
    ensures ApplicableProducts(products, applicableProduct) == []
    ensures CalculatePercentageDiscount(products, couponValue, applicableProduct) == 0.0
    ensures CalculateFixedDiscount(products, couponValue, applicableProduct) == 0.0
  {
    if |products| > 0 {
      NoApplicableProductGivesZero(products[1..], couponValue, applicableProduct);
    }
  }
}
