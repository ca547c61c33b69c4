/**
 * CouponsService: creating coupons, updating them, and the early-return chain
 * that decides whether a coupon applies to a cart and how much it takes off.
 */
module Coupons {
  import opened Common
  import opened JsText
  import opened Schemas
  import Db

  /** `{ discount, isValid }`. */
  datatype CouponCheck = CouponCheck(discount: real, isValid: bool)

  const Rejected := CouponCheck(0.0, false)

  predicate AllOptionsKnown(options: map<OptionId, CatalogOption>, lines: seq<CartLine>)
  {
    forall i :: 0 <= i < |lines| ==> lines[i].optionId in options
  }

  /** Price times quantity over the cart; NotFound as soon as an option is missing. */
  function RawSubtotal(options: map<OptionId, CatalogOption>, lines: seq<CartLine>): (r: Result<real>)
    ensures r.Ok? <==> AllOptionsKnown(options, lines)
    ensures r.Err? ==> r.error == NotFound("Option not found")
  {
    if |lines| == 0 then Ok(0.0)
    else
      var last := lines[|lines| - 1];
      match RawSubtotal(options, lines[..|lines| - 1])
      case Err(e) => Err(e)
      case Ok(s) =>
        if last.optionId in options then Ok(s + options[last.optionId].price * (last.quantity as real))
        else Err(NotFound("Option not found"))
  }

  /** `calculateSubtotal(products)` (lines 251-260). */
  method CalculateSubtotal(options: map<OptionId, CatalogOption>, products: seq<CartLine>) returns (r: Result<real>)
    ensures r == RawSubtotal(options, products)
  {
    var subtotal := 0.0;
    var i := 0;
    while i < |products|
      invariant 0 <= i <= |products|
      invariant RawSubtotal(options, products[..i]) == Ok(subtotal)
    {
      var product := products[i];
      if product.optionId !in options {
        return Err(NotFound("Option not found"));
      }
      subtotal := subtotal + options[product.optionId].price * (product.quantity as real);
      var all := products[..i] + [product];
      assert all[..|all| - 1] == products[..i] && all[|all| - 1] == product;
      assert products[..i + 1] == all;
      assert RawSubtotal(options, all).Ok?;
      assert RawSubtotal(options, all).value == subtotal;
      i := i + 1;
    }
    assert products[..i] == products;
    return Ok(subtotal);
  }

  /** `products.find(p => p.optionId === optionId)`. */
  function FirstLineFor(lines: seq<CartLine>, optionId: OptionId): (r: Option<CartLine>)
    ensures r.Some? ==> r.value in lines && r.value.optionId == optionId
    ensures r.None? <==> forall i :: 0 <= i < |lines| ==> lines[i].optionId != optionId
  {
    if |lines| == 0 then None
    else if lines[0].optionId == optionId then Some(lines[0])
    else FirstLineFor(lines[1..], optionId)
  }

  /** `Math.min(quantity, maxAplicableUnits || quantity)`. */
  function ApplicableUnits(quantity: int, maxAplicableUnits: int): (units: int)
    ensures units <= quantity
    ensures maxAplicableUnits != 0 ==> units <= maxAplicableUnits
    ensures units == quantity || units == maxAplicableUnits
  {
    var cap := if maxAplicableUnits != 0 then maxAplicableUnits else quantity;
    if quantity <= cap then quantity else cap
  }

  /** `validateAndCalculateDiscount(code, userId, products)` (lines 186-243): look the code up, then check the coupon. */
  function ValidateAndCalculateDiscount(
    coupons: seq<Coupon>, options: map<OptionId, CatalogOption>,
    code: string, userId: UserId, products: seq<CartLine>): (r: CouponCheck)
    ensures FindByCode(coupons, code).None? ==> r == Rejected
    ensures FindByCode(coupons, code).Some? ==>
      r == CheckCoupon(coupons[FindByCode(coupons, code).value], options, userId, products)
  {
    match FindByCode(coupons, code)
    case None => Rejected
    case Some(i) => CheckCoupon(coupons[i], options, userId, products)
  }

  /** The checks and formulas applied to the coupon found (lines 195-239). */
  function CheckCoupon(coupon: Coupon, options: map<OptionId, CatalogOption>,
                       userId: UserId, products: seq<CartLine>): (r: CouponCheck)
    ensures !r.isValid ==> r == Rejected
    ensures r.isValid ==>
      coupon.count < coupon.limit && !UsedBy(coupon, userId) && AllOptionsKnown(options, products)
      && (coupon.applicableProductOption.Some? ==>
            FirstLineFor(products, coupon.applicableProductOption.value).Some?)
  {
    if coupon.count >= coupon.limit then Rejected
    else if UsedBy(coupon, userId) then Rejected
    else match RawSubtotal(options, products)
      case Err(_) => Rejected
      case Ok(subtotal) =>
        match coupon.applicableProductOption
        case Some(optionId) => RestrictedDiscount(coupon, options, products, optionId)
        case None =>
          if coupon.kind == Fixed then CouponCheck(coupon.value, true)
          else CouponCheck((subtotal * coupon.value) / 100.0, true)
  }

  /** The branch of a coupon restricted to one option (lines 208-229). */
  function RestrictedDiscount(coupon: Coupon, options: map<OptionId, CatalogOption>,
                              products: seq<CartLine>, optionId: OptionId): (r: CouponCheck)
    ensures !r.isValid ==> r == Rejected
    ensures r.isValid <==> FirstLineFor(products, optionId).Some? && FirstLineFor(products, optionId).value.optionId in options
  {
    match FirstLineFor(products, optionId)
    case None => Rejected
    case Some(line) =>
      if line.optionId !in options then Rejected
      else
        var applicableQuantity := ApplicableUnits(line.quantity, coupon.maxAplicableUnits);
        if coupon.kind == Fixed then CouponCheck(coupon.value * (applicableQuantity as real), true)
        else CouponCheck(((options[line.optionId].price * coupon.value) / 100.0) * (applicableQuantity as real), true)
  }

  /** The request body of `create`; a missing `maxAplicableUnits` takes the schema default 1. */
  datatype CreateCouponDto = CreateCouponDto(
    code: string, limit: int, description: string, kind: CouponKind, value: real,
    applicableProductOption: Option<OptionId>, maxAplicableUnits: Option<int>)

  /** Some stored coupon already has this code, ignoring case. */
  predicate CodeTaken(coupons: seq<Coupon>, code: string)
  {
    exists j :: 0 <= j < |coupons| && EqualsIgnoreCase(coupons[j].code, code)
  }

  /** The checks and the new document of `create` (lines 33-77). */
  function CreateCoupon(coupons: seq<Coupon>, options: map<OptionId, CatalogOption>,
                        dto: CreateCouponDto, newId: CouponId): (r: Result<Coupon>)
    ensures r.Ok? <==>
      !CodeTaken(coupons, dto.code)
      && !(dto.kind == Percentage && dto.value > 100.0)
      && !(dto.kind == Fixed && dto.value <= 0.0)
      && (dto.applicableProductOption.Some? ==> dto.applicableProductOption.value in options)
    ensures r.Ok? ==>
      r.value.id == newId && r.value.code == dto.code && r.value.count == 0
      && r.value.usedByUsers == map[] && r.value.kind == dto.kind && r.value.value == dto.value
      && r.value.limit == dto.limit && r.value.applicableProductOption == dto.applicableProductOption
      && r.value.maxAplicableUnits == dto.maxAplicableUnits.GetOr(1)
  {
    if FindByCode(coupons, dto.code).Some? then Err(BadRequest("COUPON_ALREADY_EXISTS"))
    else if dto.kind == Percentage && dto.value > 100.0 then Err(BadRequest("Invalid value for percentage coupon"))
    else if dto.kind == Fixed && dto.value <= 0.0 then Err(BadRequest("Invalid value for fixed coupon"))
    else if dto.applicableProductOption.Some? && dto.applicableProductOption.value !in options
    then Err(NotFound("Option not found"))
    else Ok(Coupon(newId, 0, dto.code, dto.limit, dto.description, dto.kind, dto.value,
                   dto.applicableProductOption, dto.maxAplicableUnits.GetOr(1), map[]))
  }

  /** `create(dto)`: the coupon is appended to the collection when every check passes. */
  method Create(db: Db.Store, dto: CreateCouponDto, newId: CouponId) returns (r: Result<Coupon>)
    requires FindById(db.coupons, newId).None?
    modifies db`coupons
    ensures r == CreateCoupon(old(db.coupons), db.options, dto, newId)
    ensures r.Ok? ==> db.coupons == old(db.coupons) + [r.value]
    ensures r.Err? ==> db.coupons == old(db.coupons)
  {
    r := CreateCoupon(db.coupons, db.options, dto, newId);
    if r.Ok? {
      db.coupons := db.coupons + [r.value];
    }
  }

  /**
   * `update(id, record)` (lines 130-157): the coupon must exist by id and a
   * restricting option must exist; the record then replaces the document,
   * which keeps its id.
   */
  function UpdateCoupon(coupons: seq<Coupon>, options: map<OptionId, CatalogOption>,
                        id: CouponId, record: Coupon): (r: Result<seq<Coupon>>)
    ensures r.Ok? <==>
      (FindById(coupons, id).Some?
       && (record.applicableProductOption.Some? ==> record.applicableProductOption.value in options))
    ensures r.Ok? ==>
      (|r.value| == |coupons|
       && var j := FindById(coupons, id).value;
          r.value[j] == record.(id := id)
          && forall k :: 0 <= k < |coupons| && k != j ==> r.value[k] == coupons[k])
  {
    match FindById(coupons, id)
    case None => Err(NotFound("Coupon not found by ID"))
    case Some(j) =>
      if record.applicableProductOption.Some? && record.applicableProductOption.value !in options
      then Err(NotFound("Option not found"))
      else Ok(coupons[j := record.(id := coupons[j].id)])
  }

  /** `update(id, record)` on the store. */
  method Update(db: Db.Store, id: CouponId, record: Coupon) returns (r: Outcome)
    modifies db`coupons
    ensures UpdateCoupon(old(db.coupons), db.options, id, record).Ok? ==>
      r == Pass && db.coupons == UpdateCoupon(old(db.coupons), db.options, id, record).value
    ensures UpdateCoupon(old(db.coupons), db.options, id, record).Err? ==>
      r == Fail(UpdateCoupon(old(db.coupons), db.options, id, record).error) && db.coupons == old(db.coupons)
  {
    var updated := UpdateCoupon(db.coupons, db.options, id, record);
    match updated
    case Err(e) => r := Fail(e);
    case Ok(cs) =>
      db.coupons := cs;
      r := Pass;
  }

  // ---------------------------------------------------------------------
  // The validation chain.
  // ---------------------------------------------------------------------

  /** A coupon that reached its limit is rejected, whatever the user and the cart: this check comes first. */
  lemma LimitReachedRejects(coupon: Coupon, options: map<OptionId, CatalogOption>,
                            userId: UserId, products: seq<CartLine>)
    requires coupon.count >= coupon.limit
    ensures CheckCoupon(coupon, options, userId, products) == Rejected
  {
  }

  /**
   * A user who already used the coupon is rejected, while another user of a
   * coupon below its limit is accepted for the same unrestricted cart.
   */
  lemma UsedByUserRejects(coupon: Coupon, options: map<OptionId, CatalogOption>,
                          userId: UserId, other: UserId, products: seq<CartLine>)
    requires UsedBy(coupon, userId) && !UsedBy(coupon, other)
    requires coupon.count < coupon.limit && coupon.applicableProductOption.None?
    requires AllOptionsKnown(options, products)
    ensures CheckCoupon(coupon, options, userId, products) == Rejected
    ensures CheckCoupon(coupon, options, other, products).isValid
  {
  }

  /** A coupon restricted to an option that no cart line holds is rejected. */
  lemma RestrictedOptionMissingRejects(coupon: Coupon, options: map<OptionId, CatalogOption>,
                                       userId: UserId, products: seq<CartLine>)
    requires coupon.applicableProductOption.Some?
    requires forall i :: 0 <= i < |products| ==> products[i].optionId != coupon.applicableProductOption.value
    ensures CheckCoupon(coupon, options, userId, products) == Rejected
  {
  }

  /** An unknown code or a cart option missing from the catalogue gives a rejection, not an error. */
  lemma LookupFailureRejects(coupons: seq<Coupon>, options: map<OptionId, CatalogOption>,
                             code: string, userId: UserId, products: seq<CartLine>)
    requires FindByCode(coupons, code).None? || !AllOptionsKnown(options, products)
    ensures ValidateAndCalculateDiscount(coupons, options, code, userId, products) == Rejected
  {
  }

  /** A restricted coupon below its limit, not yet used by the user, is priced by the restricted branch. */
  lemma CheckRestricted(coupon: Coupon, options: map<OptionId, CatalogOption>, userId: UserId, products: seq<CartLine>)
    requires coupon.count < coupon.limit && !UsedBy(coupon, userId)
    requires coupon.applicableProductOption.Some?
    requires AllOptionsKnown(options, products)
    ensures CheckCoupon(coupon, options, userId, products)
      == RestrictedDiscount(coupon, options, products, coupon.applicableProductOption.value)
  {
    assert RawSubtotal(options, products).Ok?;
  }

  /**
   * The amounts of the restricted branch when the cart holds the option: per
   * unit, for at most `maxAplicableUnits` units (all of the line's units when
   * that field is 0).
   */
  lemma RestrictedFormula(coupon: Coupon, options: map<OptionId, CatalogOption>, products: seq<CartLine>,
                          optionId: OptionId, line: CartLine)
    requires FirstLineFor(products, optionId) == Some(line) && line.optionId in options
    ensures var units := ApplicableUnits(line.quantity, coupon.maxAplicableUnits) as real;
      var r := RestrictedDiscount(coupon, options, products, optionId);
      r.isValid
      && (coupon.kind == Fixed ==> r.discount == coupon.value * units)
      && (coupon.kind == Percentage ==> r.discount == options[line.optionId].price * coupon.value / 100.0 * units)
  {
  }

  /** An accepted unrestricted coupon takes its value once, or its percentage of the cart's subtotal. */
  lemma UnrestrictedAmount(coupon: Coupon, options: map<OptionId, CatalogOption>,
                           userId: UserId, products: seq<CartLine>)
    requires coupon.count < coupon.limit && !UsedBy(coupon, userId)
    requires coupon.applicableProductOption.None?
    requires AllOptionsKnown(options, products)
    ensures var r := CheckCoupon(coupon, options, userId, products);
      r.isValid
      && (coupon.kind == Fixed ==> r.discount == coupon.value)
      && (coupon.kind == Percentage ==> r.discount == RawSubtotal(options, products).value * coupon.value / 100.0)
  {
  }

  /**
   * A restricted FIXED coupon with a non-negative value takes off at most
   * `value × maxAplicableUnits` (one unit by default).
   */
  lemma RestrictedFixedIsCapped(coupon: Coupon, options: map<OptionId, CatalogOption>,
                                userId: UserId, products: seq<CartLine>)
    requires coupon.kind == Fixed && coupon.value >= 0.0 && coupon.maxAplicableUnits >= 1
    requires coupon.applicableProductOption.Some?
    ensures CheckCoupon(coupon, options, userId, products).discount <= coupon.value * (coupon.maxAplicableUnits as real)
  {
    var r := CheckCoupon(coupon, options, userId, products);
    if r.isValid {
      var line := FirstLineFor(products, coupon.applicableProductOption.value).value;
      var units := ApplicableUnits(line.quantity, coupon.maxAplicableUnits);
      assert r.discount == coupon.value * (units as real);
      assert units <= coupon.maxAplicableUnits;
    }
  }

  // ---------------------------------------------------------------------
  // Creation rules.
  // ---------------------------------------------------------------------

  /** The checks of `create` run in order: a taken code is reported before a bad value. */
  lemma CreateChecksInOrder(coupons: seq<Coupon>, options: map<OptionId, CatalogOption>,
                            dto: CreateCouponDto, newId: CouponId)
    ensures CodeTaken(coupons, dto.code) ==>
      CreateCoupon(coupons, options, dto, newId) == Err(BadRequest("COUPON_ALREADY_EXISTS"))
    ensures !CodeTaken(coupons, dto.code) && dto.kind == Percentage && dto.value > 100.0 ==>
      CreateCoupon(coupons, options, dto, newId).Err? && CreateCoupon(coupons, options, dto, newId).error.BadRequest?
    ensures !CodeTaken(coupons, dto.code) && dto.kind == Fixed && dto.value <= 0.0 ==>
      CreateCoupon(coupons, options, dto, newId).Err? && CreateCoupon(coupons, options, dto, newId).error.BadRequest?
  {
    if CodeTaken(coupons, dto.code) {
      var j :| 0 <= j < |coupons| && EqualsIgnoreCase(coupons[j].code, dto.code);
    }
  }

  /** A percentage coupon worth 0 or less is accepted: nothing bounds it from below. */
  lemma NonPositivePercentageAccepted(options: map<OptionId, CatalogOption>, code: string, newId: CouponId)
    ensures CreateCoupon([], options, CreateCouponDto(code, 10, "", Percentage, -5.0, None, None), newId).Ok?
  {
  }
}
