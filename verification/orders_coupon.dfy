/**
 * OrdersService's own coupon check, `validateCoupon` and `calculateDiscount`:
 * it throws where CouponsService answers `{0, false}`, tests the user by key
 * presence, never looks at the usage limit, and prices the whole-order
 * percentage over the stored options the cart names, each once.
 */
module OrderCoupons {
  import opened Common
  import opened Schemas
  import Coupons

  /** `{ isValid: true, discount, message }`. */
  datatype CouponValidation = CouponValidation(isValid: bool, discount: real, message: string)

  /** `coupon.usedByUsers.has(userId)`: the key is there, whatever it maps to. */
  predicate HasUser(c: Coupon, userId: UserId)
  {
    userId in c.usedByUsers
  }

  /** Some line of `lines` names option `id`. */
  predicate Named(lines: seq<CartLine>, id: OptionId)
  {
    exists k :: 0 <= k < |lines| && lines[k].optionId == id
  }

  /**
   * The whole-order value of lines 790-797 over the prefix `lines` of the
   * cart `all`: each stored option the cart names counts once, at its price
   * times the quantity of the first cart line naming it.
   */
  function FoundValue(options: map<OptionId, CatalogOption>, lines: seq<CartLine>, all: seq<CartLine>): real
  {
    if |lines| == 0 then 0.0
    else
      var init := lines[..|lines| - 1];
      var id := lines[|lines| - 1].optionId;
      FoundValue(options, init, all)
      + (if id in options && !Named(init, id) then
           match Coupons.FirstLineFor(all, id)
           case None => 0.0
           case Some(line) => options[id].price * (line.quantity as real)
         else 0.0)
  }

  /** `calculateDiscount(coupon, cartDto)` (lines 740-806). */
  function OrderCouponDiscount(coupon: Coupon, options: map<OptionId, CatalogOption>, cart: Cart): real
  {
    match coupon.applicableProductOption
    case Some(optionId) =>
      (match Coupons.FirstLineFor(cart.products, optionId)
       case None => 0.0
       case Some(line) =>
         var units := Coupons.ApplicableUnits(line.quantity, coupon.maxAplicableUnits) as real;
         if coupon.kind == Fixed then coupon.value * units
         else if optionId in options then options[optionId].price * coupon.value / 100.0 * units
         else 0.0)
    case None =>
      if coupon.kind == Fixed then coupon.value
      else FoundValue(options, cart.products, cart.products) * coupon.value / 100.0
  }

  /** `validateCoupon(cartDto)` (lines 705-738). */
  function ValidateCoupon(coupons: seq<Coupon>, options: map<OptionId, CatalogOption>, cart: Cart): (r: Result<CouponValidation>)
    ensures FindByCode(coupons, cart.coupon).None? ==> r == Err(NotFound("Coupon not found by CODE"))
    ensures FindByCode(coupons, cart.coupon).Some? ==>
      var c := coupons[FindByCode(coupons, cart.coupon).value];
      (HasUser(c, cart.userId) ==> r == Err(BadRequest("COUPON_ALREADY_USED")))
      && (!HasUser(c, cart.userId) && c.applicableProductOption.Some?
          && !Named(cart.products, c.applicableProductOption.value)
          ==> r == Err(BadRequest("COUPON_NOT_APPLICABLE_TO_PRODUCT_OPTION")))
    ensures r.Ok? <==>
      FindByCode(coupons, cart.coupon).Some?
      && !HasUser(coupons[FindByCode(coupons, cart.coupon).value], cart.userId)
      && (coupons[FindByCode(coupons, cart.coupon).value].applicableProductOption.Some? ==>
            Named(cart.products, coupons[FindByCode(coupons, cart.coupon).value].applicableProductOption.value))
    ensures r.Ok? ==> r.value.isValid
    ensures r.Ok? ==> r.value.discount == OrderCouponDiscount(coupons[FindByCode(coupons, cart.coupon).value], options, cart)
  {
    match FindByCode(coupons, cart.coupon)
    case None => Err(NotFound("Coupon not found by CODE"))
    case Some(i) =>
      var c := coupons[i];
      if HasUser(c, cart.userId) then Err(BadRequest("COUPON_ALREADY_USED"))
      else if c.applicableProductOption.Some? && Coupons.FirstLineFor(cart.products, c.applicableProductOption.value).None? then
        Err(BadRequest("COUPON_NOT_APPLICABLE_TO_PRODUCT_OPTION"))
      else Ok(CouponValidation(true, OrderCouponDiscount(c, options, cart), "Coupon is valid"))
  }

  /** The cart names each option at most once. */
  predicate DistinctLines(lines: seq<CartLine>)
  {
    forall i, j :: 0 <= i < j < |lines| ==> lines[i].optionId != lines[j].optionId
  }

  /** With each option named once, the first line naming a cart option is that line. */
  lemma FirstLineIsTheLine(all: seq<CartLine>, k: nat)
    requires k < |all| && DistinctLines(all)
    ensures Coupons.FirstLineFor(all, all[k].optionId) == Some(all[k])
  {
    var r := Coupons.FirstLineFor(all, all[k].optionId);
    assert r.Some?;
    var m :| 0 <= m < |all| && all[m] == r.value;
  }

  /** With each option named once and all of them stored, the found value is the cart's subtotal. */
  lemma {:induction false} FoundValueIsSubtotal(options: map<OptionId, CatalogOption>, all: seq<CartLine>, n: nat)
    requires n <= |all| && DistinctLines(all) && Coupons.AllOptionsKnown(options, all)
    ensures Coupons.RawSubtotal(options, all[..n]).Ok?
    ensures FoundValue(options, all[..n], all) == Coupons.RawSubtotal(options, all[..n]).value
  {
    KnownPrefix(options, all, n);
    if n > 0 {
      FoundValueIsSubtotal(options, all, n - 1);
      NotNamedBefore(all, n - 1);
      FirstLineIsTheLine(all, n - 1);
      SubtotalStep(options, all, n);
      FoundValueStep(options, all, n);
    }
  }

  lemma KnownPrefix(options: map<OptionId, CatalogOption>, all: seq<CartLine>, n: nat)
    requires n <= |all| && Coupons.AllOptionsKnown(options, all)
    ensures Coupons.AllOptionsKnown(options, all[..n])
  {
    assert forall k :: 0 <= k < n ==> all[..n][k] == all[k];
  }

  /** With each option named once, no line before line k names its option. */
  lemma NotNamedBefore(all: seq<CartLine>, k: nat)
    requires k < |all| && DistinctLines(all)
    ensures !Named(all[..k], all[k].optionId)
  {
    assert forall j :: 0 <= j < k ==> all[..k][j] == all[j];
  }

  /** One step of the cart subtotal: line n - 1 adds its price times its quantity. */
  lemma SubtotalStep(options: map<OptionId, CatalogOption>, all: seq<CartLine>, n: nat)
    requires 0 < n <= |all| && Coupons.AllOptionsKnown(options, all)
    ensures Coupons.AllOptionsKnown(options, all[..n - 1])
    ensures Coupons.RawSubtotal(options, all[..n]).value
      == Coupons.RawSubtotal(options, all[..n - 1]).value + options[all[n - 1].optionId].price * (all[n - 1].quantity as real)
  {
    KnownPrefix(options, all, n - 1);
    var lines := all[..n];
    assert lines[..|lines| - 1] == all[..n - 1];
  }

  /** One step of the found value: a new stored option adds its price times its first line's quantity. */
  lemma FoundValueStep(options: map<OptionId, CatalogOption>, all: seq<CartLine>, n: nat)
    requires 0 < n <= |all| && all[n - 1].optionId in options
    requires !Named(all[..n - 1], all[n - 1].optionId)
    requires Coupons.FirstLineFor(all, all[n - 1].optionId) == Some(all[n - 1])
    ensures FoundValue(options, all[..n], all)
      == FoundValue(options, all[..n - 1], all) + options[all[n - 1].optionId].price * (all[n - 1].quantity as real)
  {
    var lines := all[..n];
    assert lines[..|lines| - 1] == all[..n - 1];
  }

  /**
   * The usage limit is never consulted: a coupon used up to its limit is
   * still valid here, while the coupons service rejects it.
   */
  lemma LimitIsNotChecked(coupons: seq<Coupon>, options: map<OptionId, CatalogOption>, cart: Cart)
    requires FindByCode(coupons, cart.coupon).Some?
    requires var c := coupons[FindByCode(coupons, cart.coupon).value];
      c.count >= c.limit && !HasUser(c, cart.userId) && c.applicableProductOption.None?
    ensures ValidateCoupon(coupons, options, cart).Ok?
    ensures Coupons.ValidateAndCalculateDiscount(coupons, options, cart.coupon, cart.userId, cart.products) == Coupons.Rejected
  {
  }

  /**
   * A user recorded with `false` is refused here (the key is present) but
   * accepted by the coupons service (the value is falsy).
   */
  lemma RecordedFalseIsRefused(coupons: seq<Coupon>, options: map<OptionId, CatalogOption>, cart: Cart)
    requires FindByCode(coupons, cart.coupon).Some?
    requires var c := coupons[FindByCode(coupons, cart.coupon).value];
      cart.userId in c.usedByUsers && !c.usedByUsers[cart.userId]
      && c.count < c.limit && c.applicableProductOption.None?
    requires Coupons.AllOptionsKnown(options, cart.products)
    ensures ValidateCoupon(coupons, options, cart) == Err(BadRequest("COUPON_ALREADY_USED"))
    ensures Coupons.ValidateAndCalculateDiscount(coupons, options, cart.coupon, cart.userId, cart.products).isValid
  {
    var c := coupons[FindByCode(coupons, cart.coupon).value];
    Coupons.UnrestrictedAmount(c, options, cart.userId, cart.products);
  }

  /**
   * Where both checks look at the same things (a coupon below its limit, a
   * user not recorded, every cart option stored and named once, a restricted
   * option present in the cart) they accept the coupon and agree on the amount.
   */
  lemma AgreesWithCouponsService(coupons: seq<Coupon>, options: map<OptionId, CatalogOption>, cart: Cart)
    requires FindByCode(coupons, cart.coupon).Some?
    requires var c := coupons[FindByCode(coupons, cart.coupon).value];
      c.count < c.limit && !HasUser(c, cart.userId)
      && (c.applicableProductOption.Some? ==> Named(cart.products, c.applicableProductOption.value))
    requires Coupons.AllOptionsKnown(options, cart.products) && DistinctLines(cart.products)
    ensures ValidateCoupon(coupons, options, cart).Ok?
    ensures var check := Coupons.ValidateAndCalculateDiscount(coupons, options, cart.coupon, cart.userId, cart.products);
      check.isValid && check.discount == ValidateCoupon(coupons, options, cart).value.discount
  {
    var c := coupons[FindByCode(coupons, cart.coupon).value];
    if c.applicableProductOption.Some? {
      RestrictedAgrees(c, options, cart);
    } else {
      UnrestrictedAgrees(c, options, cart);
    }
  }

  /** The agreement for a coupon restricted to one option the cart names. */
  lemma RestrictedAgrees(c: Coupon, options: map<OptionId, CatalogOption>, cart: Cart)
    requires c.count < c.limit && !HasUser(c, cart.userId)
    requires c.applicableProductOption.Some? && Named(cart.products, c.applicableProductOption.value)
    requires Coupons.AllOptionsKnown(options, cart.products)
    ensures var check := Coupons.CheckCoupon(c, options, cart.userId, cart.products);
      check.isValid && check.discount == OrderCouponDiscount(c, options, cart)
  {
    var optionId := c.applicableProductOption.value;
    Coupons.CheckRestricted(c, options, cart.userId, cart.products);
    var line := Coupons.FirstLineFor(cart.products, optionId).value;
    var k :| 0 <= k < |cart.products| && cart.products[k] == line;
    Coupons.RestrictedFormula(c, options, cart.products, optionId, line);
  }

  /** The agreement for a whole-order coupon, over a cart naming each option once. */
  lemma UnrestrictedAgrees(c: Coupon, options: map<OptionId, CatalogOption>, cart: Cart)
    requires c.count < c.limit && !HasUser(c, cart.userId) && c.applicableProductOption.None?
    requires Coupons.AllOptionsKnown(options, cart.products) && DistinctLines(cart.products)
    ensures var check := Coupons.CheckCoupon(c, options, cart.userId, cart.products);
      check.isValid && check.discount == OrderCouponDiscount(c, options, cart)
  {
    Coupons.UnrestrictedAmount(c, options, cart.userId, cart.products);
    FoundValueIsSubtotal(options, cart.products, |cart.products|);
    assert cart.products[..|cart.products|] == cart.products;
  }
}
