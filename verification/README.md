# Barfer shop backend: orders, discounts, coupons and stock

This project is a Dafny model of the core of the Barfer shop backend. That backend is a NestJS service that sells products with options, such as a flavour in a given size. The model covers these parts:

- **Pricing an order.** Tiered volume discounts are shared between the cart lines in proportion to their quantities. A coupon is either FIXED or PERCENTAGE, and is either restricted to one option or applies to the whole order. Cash payments get a further 10 % off.
- **Orders.** Building an order snapshots its items and prices. Stock is checked and decremented, the coupon is consumed, and the order goes through its status lifecycle: confirmation counts sales, cancellation gives stock and sales back.
- **The product catalogue:** sales counters, discount decoration, sorting by price and the Google Merchant feed.
- **Delivery zones:** polygon closing and the zone search.
- **Pagination.**
- **The Google-sheet rows** written for each order.

The model is organised as follows:

- The database is one object, `Db.Store`, whose collections the service methods update in place. These are the options, products, coupons, discount rules and orders.
- Every service operation that loops or writes is a method over the store. It is proved against a function that says what the operation computes: `ensures StatusChange(CollectionsOf(db), r) == Transition(old(CollectionsOf(db)), id, status)`.
- The properties of the service are lemmas about those functions.
- Money is an exact `real`. `Money.Round2` is JavaScript's `+x.toFixed(2)` and `Money.RoundHalfUp` is `Math.round`, both taken over exact numbers rather than binary floating point (see Left out).
- JavaScript values that may be `undefined`, `null` or a string are a `JsText.Field`. JavaScript truthiness, `||`, template strings, `split`, `join`, `trim`, `indexOf` and `padStart` are written out in `JsText`; `trim` strips the ASCII whitespace only (see Left out).

A few places follow the code rather than the service's own description of itself:

- **`validateCoupon` in the orders service never checks the usage limit.** A coupon used up to its limit still validates there, while the coupons service rejects it (`OrderCoupons.LimitIsNotChecked`).
- **It tests the user by key presence.** A user recorded with `false` is refused there, while the coupons service, which tests the value, accepts the same user (`OrderCoupons.RecordedFalseIsRefused`).
- **It never throws `COUPON_NOT_FOUND`.** An unknown code already makes `findOneByCode` throw "Coupon not found by CODE", so that is the error modelled.
- **A percentage coupon may be worth 0 or less.** `create` bounds percentages only from above, at 100 (`Coupons.NonPositivePercentageAccepted`).
- **`validateStock` does not roll back.** Stock taken for earlier lines stays taken when a later line fails (`OrderStock.NoRollback`, `OrderCreation.StockStaysTaken`).
- **Cancellation clears no user's coupon record.** It lowers the coupon's count and nothing else (`OrderLifecycle.CancelKeepsUserRecord`).
- **Cancellation, as written, never gets past the coupon step** (see Findings).

## Model

| member | source | states |
|---|---|---|
| Db.Store.constructor | src/modules/orders/orders.service.ts:48-65 | the store holds exactly the collections it is given |
| Money.RoundHalfUp | src/modules/orders/orders.service.ts:339 | `Math.round` lands within one half of its argument |
| Money.Round2 | src/modules/orders/services/discount-calculator.service.ts:147 | `toFixed(2)` keeps the sign and moves the amount by at most half a cent |
| Money.Round2IsCents | src/modules/orders/services/discount-calculator.service.ts:147 | a rounded amount is a whole number of cents |
| Money.Round2OfCents | src/modules/orders/services/discount-calculator.service.ts:36 | an amount already in cents is left unchanged |
| Money.Round2Idempotent | src/modules/orders/services/discount-calculator.service.ts:36-48 | rounding a rounded subtotal again changes nothing |
| JsText.OrElse | src/modules/google-sheet/google-sheet.service.ts:163 | `a \|\| b` is `a` when truthy, otherwise `b` |
| JsText.IndexFrom | src/modules/orders/orders.service.ts:823 | the result is the first occurrence at or after `from`, and None means none exists |
| JsText.FirstOccurrence | src/modules/google-sheet/google-sheet.service.ts:33 | an occurrence with none before it is the one `indexOf` finds |
| JsText.NoOccurrence | src/modules/google-sheet/google-sheet.service.ts:33 | a text without the separator's first character has no occurrence |
| JsText.Split | src/modules/google-sheet/google-sheet.service.ts:33 | `split` gives at least one piece: the whole text when the separator is absent, otherwise the text before its first occurrence first |
| JsText.JoinSplit | src/modules/google-sheet/google-sheet.service.ts:33 | joining the pieces of a split gives back the text |
| JsText.SplitJoin | src/modules/google-sheet/google-sheet.service.ts:131 | splitting a join on a separator no part contains gives back the parts |
| JsText.TrimStart | src/modules/orders/orders.service.ts:817 | the result is a suffix of the text that starts with no whitespace |
| JsText.TrimEnd | src/modules/orders/orders.service.ts:817 | the result is a prefix of the text that ends with no whitespace |
| JsText.TrimEmptyIffBlank | src/modules/google-sheet/google-sheet.service.ts:169 | `s.trim() !== ''` holds exactly when `s` has a visible character, in both directions |
| JsText.PadStart | src/modules/orders/orders.service.ts:825 | the result has the text at its end, preceded by as many pad characters as are missing to the width |
| JsText.NatToString | src/modules/google-sheet/google-sheet.service.ts:60 | a number's decimal text is a non-empty run of digits that starts with `0` only for the number 0 |
| JsText.NatToStringValue | src/modules/google-sheet/google-sheet.service.ts:60 | the digits of a number's text denote that number, so the row in `hoja!A<n>` is row n |
| JsText.NatToStringInjective | src/modules/google-sheet/google-sheet.service.ts:60 | different numbers give different texts, so different row counts give different ranges |
| Schemas.FindByCode | src/modules/coupons/coupons.service.ts:111-120 | the result is the first coupon whose code equals the text ignoring case, and None means no coupon matches |
| Schemas.FindById | src/modules/coupons/coupons.service.ts:98-103 | the result is the coupon with that id, and None means there is none |
| Schemas.PaymentMethodName | src/common/enums/payment-methods.enum.ts:1-14 | codes 1 to 12 have a name and every other code is undefined |
| Schemas.StatusName | src/modules/google-sheet/google-sheet.service.ts:35-41 | codes 1 to 5 have a status name and every other code has none |
| CouponMath.ApplicableProducts | src/common/utils/calculateDiscount.ts:7-9 | a falsy restriction keeps every product; otherwise a product is kept exactly when it carries that id |
| CouponMath.ApplicableProductsKeepsOrder | src/common/utils/calculateDiscount.ts:7-9 | `filter` keeps the order: filtering a concatenation concatenates the filtered parts, and a single product is kept exactly when it passes |
| CouponMath.ApplicableProductsCounts | src/common/utils/calculateDiscount.ts:7-9 | every kept product occurs as often as in the input, every other product not at all |
| CouponMath.PercentageOfTotal | src/common/utils/calculateDiscount.ts:1-20 | taking the percentage product by product is the same as taking it of the total value |
| CouponMath.CalculatePercentageDiscount | src/common/utils/calculateDiscount.ts:1-20 | without a restriction every product's value is discounted; PercentageDiscountIsShareOfValue gives the general case |
| CouponMath.CalculateFixedDiscount | src/common/utils/calculateDiscount.ts:22-45 | without a restriction every unit of the cart counts at the coupon's value; DiscountsAreLinearInValue and NoApplicableProductGivesZero give the restricted cases |
| CouponMath.PercentageDiscountIsShareOfValue | src/common/utils/calculateDiscount.ts:1-20 | the percentage discount is the applicable products' value times the coupon value over 100 |
| CouponMath.DiscountsAreLinearInValue | src/common/utils/calculateDiscount.ts:1-45 | both discounts scale linearly with the coupon value |
| CouponMath.ZeroValueGivesZero | src/common/utils/calculateDiscount.ts:1-45 | a coupon worth 0 takes nothing off |
| CouponMath.NoApplicableProductGivesZero | src/common/utils/calculateDiscount.ts:22-45 | when no product carries the applicable id, nothing is kept and both discounts are 0 |
| Discounts.ActiveRules | src/modules/discounts/discounts.service.ts:57-59 | the result holds exactly the active rules of the collection |
| Discounts.TierAmount | src/modules/discounts/discounts.service.ts:123-136 | up to the threshold the rule is worth its initial amount; each unit beyond adds the additional amount |
| Discounts.RuleShare | src/modules/discounts/discounts.service.ts:111-137 | a rule contributes nothing to a line it does not list, nor to a cart below its threshold |
| Discounts.CalculateDiscount | src/modules/discounts/discounts.service.ts:97-142 | the loop over the active rules returns the line's discount, which is the sum of the rules' shares |
| Discounts.CalculateCartDiscounts | src/modules/discounts/discounts.service.ts:158-167 | the cart discount equals the sum, over the active rules, of what each rule is worth for the whole cart |
| Discounts.ShareIsProportional | src/modules/discounts/discounts.service.ts:123-136 | a line's share is the tier amount times the line's part of the applicable units |
| Discounts.SharesOverIsProportional | src/modules/discounts/discounts.service.ts:123-136 | over any lines, the shares add up to the tier amount times those lines' part of the units |
| Discounts.SharesSumToRuleTotal | src/modules/discounts/discounts.service.ts:111-137 | over the whole cart one rule's shares add up to exactly the rule's worth, even when an option appears twice |
| Discounts.CartDiscountIsSumOfRuleTotals | src/modules/discounts/discounts.service.ts:158-167 | several matching rules add up |
| Discounts.DocumentedExample | src/modules/discounts/discounts.service.ts:82-95 | the documented example (2 + 1 + 1 applicable units, 5000 for the first 2 and 5000 per unit beyond) gives a 15000 cart discount |
| Discounts.EmptyCartGetsNothing | src/modules/discounts/discounts.service.ts:97-142 | with an empty cart no rule reaches its threshold |
| Discounts.InactiveRuleNeverContributes | src/modules/discounts/discounts.service.ts:57-59 | adding an inactive rule changes no cart's discount |
| Discounts.LineDiscountNonNegative | src/modules/discounts/discounts.service.ts:97-142 | non-negative amounts and quantities give a non-negative discount |
| Coupons.RawSubtotal | src/modules/coupons/coupons.service.ts:251-260 | the subtotal exists exactly when every cart option is stored, and is NotFound otherwise |
| Coupons.CalculateSubtotal | src/modules/coupons/coupons.service.ts:251-260 | the loop returns the price-times-quantity sum, or NotFound for a missing option |
| Coupons.FirstLineFor | src/modules/coupons/coupons.service.ts:209-211 | `find` returns a line naming the option, and None exactly when no line names it |
| Coupons.ApplicableUnits | src/modules/coupons/coupons.service.ts:220-223 | the units are the line's quantity capped by a non-zero maximum, and are one of the two |
| Coupons.ValidateAndCalculateDiscount | src/modules/coupons/coupons.service.ts:186-243 | an unknown code is rejected; a known code is judged by the checks on the coupon found |
| Coupons.CheckCoupon | src/modules/coupons/coupons.service.ts:195-239 | any failed check gives `{0, false}`; an accepted coupon is below its limit and not used by the user |
| Coupons.RestrictedDiscount | src/modules/coupons/coupons.service.ts:208-229 | a restricted coupon is valid exactly when a cart line names its option and that option is stored |
| Coupons.CreateCoupon | src/modules/coupons/coupons.service.ts:33-77 | creation succeeds exactly when the code is free, the value is in range and any restricting option exists; the new coupon starts unused |
| Coupons.Create | src/modules/coupons/coupons.service.ts:33-77 | on success the coupon is appended to the collection; otherwise the collection is unchanged |
| Coupons.UpdateCoupon | src/modules/coupons/coupons.service.ts:130-157 | the update succeeds exactly when the id exists and any restricting option exists; the record then replaces that coupon alone |
| Coupons.Update | src/modules/coupons/coupons.service.ts:130-157 | the store's coupons become the updated collection, or stay as they were on error |
| Coupons.LimitReachedRejects | src/modules/coupons/coupons.service.ts:195-199 | a coupon at its limit is rejected whatever the user and the cart |
| Coupons.UsedByUserRejects | src/modules/coupons/coupons.service.ts:199-202 | the user who used the coupon is rejected, while another user is accepted for the same cart |
| Coupons.RestrictedOptionMissingRejects | src/modules/coupons/coupons.service.ts:207-215 | a restricted coupon is rejected when no line names its option |
| Coupons.LookupFailureRejects | src/modules/coupons/coupons.service.ts:186-243 | an unknown code or a missing option gives a rejection, not an error |
| Coupons.CheckRestricted | src/modules/coupons/coupons.service.ts:208-229 | a valid restricted coupon is priced by the restricted branch |
| Coupons.RestrictedFormula | src/modules/coupons/coupons.service.ts:217-229 | a restricted discount is per unit, over at most `maxAplicableUnits` units: the value, or the percentage of the option's price |
| Coupons.UnrestrictedAmount | src/modules/coupons/coupons.service.ts:230-237 | an accepted whole-order coupon takes its value once, or its percentage of the subtotal |
| Coupons.RestrictedFixedIsCapped | src/modules/coupons/coupons.service.ts:220-226 | a restricted FIXED discount is at most the value times the unit cap |
| Coupons.CreateChecksInOrder | src/modules/coupons/coupons.service.ts:33-77 | a taken code is reported before a bad value, and each bad value gets its own error |
| Coupons.NonPositivePercentageAccepted | src/modules/coupons/coupons.service.ts:33-77 | a negative percentage coupon is accepted |
| DiscountCalculator.SumDiscountsAppend | src/modules/orders/services/discount-calculator.service.ts:155-157 | the sum over a concatenation is the sum of the two sums |
| DiscountCalculator.ProductDiscountList | src/modules/orders/services/discount-calculator.service.ts:68-84 | at most one entry per line, each a positive quantity discount with the fixed description |
| DiscountCalculator.PositiveLines | src/modules/orders/services/discount-calculator.service.ts:75 | the positions, in increasing order, of exactly the lines whose discount against the whole cart is positive |
| DiscountCalculator.ProductDiscountListFollowsLines | src/modules/orders/services/discount-calculator.service.ts:68-84 | the entries are, in line order, one per line with a positive discount, carrying that line's own discount from the active rules |
| DiscountCalculator.CalculateProductDiscounts | src/modules/orders/services/discount-calculator.service.ts:63-85 | the loop pushes exactly the list of product discounts |
| DiscountCalculator.Subtotal | src/modules/orders/services/discount-calculator.service.ts:141-148 | the subtotal exists exactly when every option is stored, and is the cart's value rounded to cents |
| DiscountCalculator.CalculateSubtotal | src/modules/orders/services/discount-calculator.service.ts:141-148 | the loop returns that subtotal or NotFound |
| DiscountCalculator.CashPaymentDiscount | src/modules/orders/services/discount-calculator.service.ts:93-107 | there is a discount exactly for the cash payment method, and it is 10 % of what is left, rounded |
| DiscountCalculator.CashOnlyForCode2 | src/modules/orders/services/discount-calculator.service.ts:93-107 | code 2 gets the cash discount, and no other code does |
| DiscountCalculator.CouponDiscountFor | src/modules/orders/services/discount-calculator.service.ts:114-134 | a coupon discount exists exactly when the coupons service accepts the coupon with a positive discount, and it carries that amount |
| DiscountCalculator.ComposeDiscounts | src/modules/orders/services/discount-calculator.service.ts:26-55 | the cash discount applies to what is left after the product and coupon discounts; the total is the sum of all three, rounded |
| DiscountCalculator.OrderDiscountsOf | src/modules/orders/services/discount-calculator.service.ts:21-56 | the discounts exist exactly when every option is stored, and consist of the product list, the coupon and cash only for cash payments |
| DiscountCalculator.CalculateOrderDiscounts | src/modules/orders/services/discount-calculator.service.ts:21-56 | the method returns those discounts |
| DiscountCalculator.ProductDiscountsSumToCartDiscount | src/modules/orders/services/discount-calculator.service.ts:63-85 | with non-negative amounts the product discounts add up to the discounts service's cart discount |
| DiscountCalculator.CashScenario | src/modules/orders/services/discount-calculator.service.ts:21-56 | 3 units at 1000 with a tier rule (2 units 500, then 200 each), paid in cash: 700 product discount, 230 cash discount (10 % of 2300, not of 3000), 930 in all |
| DiscountCalculator.FixedCouponScenario | src/modules/orders/services/discount-calculator.service.ts:21-56 | a FIXED coupon of 1000 on 5000 paid by card takes 1000 and nothing more |
| OrderCoupons.ValidateCoupon | src/modules/orders/orders.service.ts:705-738 | the function returns NotFound, COUPON_ALREADY_USED or COUPON_NOT_APPLICABLE_TO_PRODUCT_OPTION in that order; otherwise the coupon is valid with the computed discount |
| OrderCoupons.FirstLineIsTheLine | src/modules/orders/orders.service.ts:796-798 | with each option named once, `find` returns that option's own line |
| OrderCoupons.FoundValueIsSubtotal | src/modules/orders/orders.service.ts:795-800 | with each option named once and stored, the `reduce` gives the cart's subtotal |
| OrderCoupons.LimitIsNotChecked | src/modules/orders/orders.service.ts:705-738 | a coupon used up to its limit still validates here, but the coupons service rejects it |
| OrderCoupons.RecordedFalseIsRefused | src/modules/orders/orders.service.ts:713-715 | a user recorded with `false` is refused here, but the coupons service accepts them |
| OrderCoupons.AgreesWithCouponsService | src/modules/orders/orders.service.ts:740-806 | where both checks look at the same things, they give the same discount |
| OrderCoupons.RestrictedAgrees | src/modules/orders/orders.service.ts:752-792 | the agreement for a coupon restricted to an option the cart names |
| OrderCoupons.UnrestrictedAgrees | src/modules/orders/orders.service.ts:766-769 | the agreement for a whole-order coupon |
| OrderStock.CheckOptions | src/modules/orders/orders.service.ts:620-629 | the option keys stay as they were |
| OrderStock.CheckItems | src/modules/orders/orders.service.ts:615-632 | the option keys stay as they were |
| OrderStock.ValidateStock | src/modules/orders/orders.service.ts:615-632 | the store's options end as the check leaves them, also after a failure |
| OrderStock.CheckOptionsDecrements | src/modules/orders/orders.service.ts:620-629 | a passing check lowers each option by its requested quantity and changes nothing else |
| OrderStock.CheckItemsDecrements | src/modules/orders/orders.service.ts:615-632 | a passing check lowers each option by the total requested for it and changes nothing else |
| OrderStock.CheckOptionsKeepsStock | src/modules/orders/orders.service.ts:622-626 | stock never goes negative within one item |
| OrderStock.CheckItemsKeepsStock | src/modules/orders/orders.service.ts:615-632 | stock never goes negative: an excess quantity is refused before any decrement |
| OrderStock.NoRollback | src/modules/orders/orders.service.ts:615-632 | the first item stays decremented when the second fails |
| OrderStock.RestoreOptions | src/modules/orders/orders.service.ts:636-640 | the option keys stay as they were |
| OrderStock.RestoreItems | src/modules/orders/orders.service.ts:634-642 | the option keys stay as they were |
| OrderStock.SumStock | src/modules/orders/orders.service.ts:634-642 | the store's options end as the restore leaves them |
| OrderStock.RestoreOptionsIncrements | src/modules/orders/orders.service.ts:636-640 | a passing restore raises each option by its quantity on the item |
| OrderStock.RestoreItemsIncrements | src/modules/orders/orders.service.ts:634-642 | a passing restore raises each option by the quantity the order holds of it |
| OrderStock.SameLinesSameQuantities | src/modules/orders/orders.service.ts:634-642 | identical lines restore what they requested, option by option |
| OrderStock.RestoreOptionsPasses | src/modules/orders/orders.service.ts:636-640 | a restore passes when every line names a stored option |
| OrderStock.RestoreItemsPasses | src/modules/orders/orders.service.ts:634-642 | `sumStock` passes when every line names a stored option |
| OrderStock.CheckOptionsKnown | src/modules/orders/orders.service.ts:620-629 | every option a passing check touched is stored |
| OrderStock.CheckItemsKnown | src/modules/orders/orders.service.ts:615-632 | every option a passing `validateStock` touched is stored |
| OrderStock.RestoreUndoesCheck | src/modules/orders/orders.service.ts:615-642 | `sumStock` of the same lines undoes `validateStock`, bringing every option back |
| OrderPricing.TotalPrices | src/modules/orders/orders.service.ts:452-468 | prices exist exactly when every line has a fetched option with a price; there is one per line, quantity times the price fetched at the same index; a failure is an internal error |
| OrderPricing.LastQuantityIsLastLine | src/modules/orders/orders.service.ts:426-432 | the quantity written on a snapshot option is that of the last request line naming it |
| OrderPricing.FetchOptions | src/modules/orders/orders.service.ts:404-415 | the snapshot exists exactly when every requested option is stored (NotFound otherwise), with one entry per request line carrying the stored name, price and stock |
| OrderPricing.BuildItem | src/modules/orders/orders.service.ts:400-446 | a built item's product exists; it carries that product's id, zero sales and one snapshot option per request line |
| OrderPricing.LinePrices | src/modules/orders/orders.service.ts:452-468 | there is one price, quantity times stored price, per request line |
| OrderPricing.ItemPriceIsLineSum | src/modules/orders/orders.service.ts:424-441 | an item's price is the sum of quantity × price over its lines |
| OrderPricing.SnapshotKeepsQuantities | src/modules/orders/orders.service.ts:404-446 | with each option named once, the snapshot holds the requested quantities |
| OrderPricing.BuildItems | src/modules/orders/orders.service.ts:397-450 | the items exist exactly when every request item builds, one per request item and in order |
| OrderPricing.FailureIsFinal | src/modules/orders/orders.service.ts:397-450 | the first failing item decides the outcome whatever follows |
| OrderPricing.BuildProductsOrder | src/modules/orders/orders.service.ts:397-450 | the loop returns the built items or the first failure |
| OrderPricing.BuiltItemsHoldRequestLines | src/modules/orders/orders.service.ts:397-450 | built items hold the requested options and quantities |
| OrderPricing.ValidShipping | src/modules/orders/orders.service.ts:245 | the stored shipping price is never negative: non-positive input becomes 0 |
| OrderPricing.OrderTotal | src/modules/orders/orders.service.ts:248-253 | the total is never negative, is at least subtotal plus shipping minus discount, and is either that difference or 0 |
| OrderPricing.OrderTotalIsClampedDifference | src/modules/orders/orders.service.ts:248-253 | the total differs from the plain difference only when that difference is negative, and is then 0 |
| OrderPricing.PassesRequired | src/schemas/order.schema.ts:37-55 | the schema's `required` holds exactly when `notes` and `paymentMethod` are non-empty strings; OrderCreation.Record fails with an internal error otherwise |
| OrderPricing.BarferOrder | src/modules/orders/orders.service.ts:219-277 | the order has the given id and status, its items, their summed subtotal, the clamped total, a non-negative shipping price, the payment method's name, and no coupon exactly when none was given |
| OrderPricing.DayMonthText | src/modules/orders/orders.service.ts:824-825 | a date text exists exactly when the part splits into at least two pieces at `/` |
| OrderPricing.ParseDeliveryDateToDay | src/modules/orders/orders.service.ts:812-845 | a blank date gives no day; a day needs `" de "` or `/`; with `" de "` only the part before it is parsed |
| OrderPricing.DayMonthOf | src/modules/orders/orders.service.ts:824-825 | `d/m` gives the year, then the month and the day padded to two digits |
| OrderPricing.TimeRangeIgnored | src/modules/orders/orders.service.ts:821-835 | the time range after `" de "` does not change the day |
| OrderPricing.NoSlashNoDay | src/modules/orders/orders.service.ts:812-845 | without a `/` there is no day |
| OrderPricing.DeliveryDateAlone | src/modules/orders/orders.service.ts:829-835 | `"18/09"` is the 18th of September |
| OrderPricing.DeliveryDateWithTime | src/modules/orders/orders.service.ts:821-828 | `"18/09 de 13.30hs a 17hs"` is the same 18th of September |
| OrderPricing.Share | src/modules/orders/orders.service.ts:338-341 | an item's share never exceeds what is left of the discount |
| OrderPricing.SharesFrom | src/modules/orders/orders.service.ts:333-361 | there is one share per item, taken in turn from what is left |
| OrderPricing.MpItemsFrom | src/modules/orders/orders.service.ts:333-361 | there is one provider item per order item |
| OrderPricing.MpItemsShape | src/modules/orders/orders.service.ts:343-358 | each provider item has quantity 1 in ARS, priced at the item's price minus its share, rounded to cents |
| OrderPricing.MpItems | src/modules/orders/orders.service.ts:313-364 | the items exist exactly when every item has an option and the total quantity is not 0; a zero total throws; there is one provider item per order item |
| OrderPricing.BuildMPItems | src/modules/orders/orders.service.ts:313-364 | the method returns those items or the error |
| OrderPricing.SpreadDiscount | src/modules/orders/orders.service.ts:333-361 | the loop emits exactly the provider items |
| OrderPricing.SharesNeverExceed | src/modules/orders/orders.service.ts:337-346 | from a non-negative remainder, the shares never add up to more than it |
| OrderPricing.SharesNonNegative | src/modules/orders/orders.service.ts:337-341 | no share is negative for non-negative inputs |
| OrderPricing.RoundingLeavesRemainder | src/modules/orders/orders.service.ts:339 | three one-unit lines sharing 1 each get 0, so the discount is not fully allocated |
| OrderLifecycle.CouponUsage | src/modules/orders/orders.service.ts:202-217 | an unknown code is NotFound; otherwise the collection keeps its length |
| OrderLifecycle.ConsumptionRecordsUse | src/modules/orders/orders.service.ts:202-217 | consuming a coupon adds one use, records the user and touches no other coupon |
| OrderLifecycle.SecondUseRefused | src/modules/orders/orders.service.ts:202-217 | after consumption, both coupon checks refuse the same user |
| OrderLifecycle.FindByCodeFollowsCodes | src/modules/coupons/coupons.service.ts:111-120 | the code lookup depends on the codes alone |
| OrderLifecycle.UpdateCouponUsage | src/modules/orders/orders.service.ts:202-217 | the store's coupons become the consumed collection, or stay as they were on error |
| OrderLifecycle.BumpSales | src/modules/orders/orders.service.ts:571-573 | the product keys stay as they were |
| OrderLifecycle.BumpSalesAt | src/modules/orders/orders.service.ts:571-573 | a product's sales move by delta once per item of it, and nothing else of it changes |
| OrderLifecycle.BumpSalesCounts | src/modules/orders/orders.service.ts:571-573 | every product moves that way |
| OrderLifecycle.BumpSalesInverse | src/modules/orders/orders.service.ts:586-588 | taking the sales back off gives the products as they were |
| OrderLifecycle.ConfirmSales | src/modules/orders/orders.service.ts:571-573 | the loop adds one sale per item |
| OrderLifecycle.RestoreSales | src/modules/orders/orders.service.ts:586-588 | the loop takes one sale per item back off |
| OrderLifecycle.Saved | src/modules/orders/orders.service.ts:561-578 | an invalid or repeated status changes nothing; otherwise the order's status is saved, with sales counted on confirmation |
| OrderLifecycle.GiveBack | src/modules/orders/orders.service.ts:584-588 | the options end as `sumStock` leaves them; coupons and orders are untouched |
| OrderLifecycle.UpdateStatus | src/modules/orders/orders.service.ts:561-593 | the store ends as the corrected transition leaves it, with its answer |
| OrderLifecycle.RejectedChangesNothing | src/modules/orders/orders.service.ts:563-569 | an invalid or repeated status is an error and changes nothing |
| OrderLifecycle.ConfirmCountsSales | src/modules/orders/orders.service.ts:571-578 | confirming counts one sale per item, and changes only the products and the status |
| OrderLifecycle.CancelGivesBackStock | src/modules/orders/orders.service.ts:580-588 | cancelling a coupon-less order gives back every line's quantity and one sale per item |
| OrderLifecycle.CancelKeepsUserRecord | src/modules/orders/orders.service.ts:580-583 | cancelling takes one use off the coupon and leaves its user record as it was |
| OrderLifecycle.ConfirmThenCancelKeepsSales | src/modules/orders/orders.service.ts:571-588 | confirming then cancelling leaves sales as they were |
| OrderLifecycle.CancelAsWrittenStops | src/modules/orders/orders.service.ts:580-583 | as written, a cancellation whose coupon text is no id stops after the status is saved, with stock and sales untouched |
| OrderLifecycle.TransitionAsWritten | src/modules/orders/orders.service.ts:561-593 | the status change as written agrees with the corrected one for every status except cancellation |
| OrderLifecycle.CancelByCodeCounterexample | src/modules/orders/orders.service.ts:580-588 | on the example, the as-written cancellation fails and keeps the stock, while the corrected one restores it |
| OrderCreation.CartOf | src/modules/orders/orders.service.ts:88-96 | a cart exists exactly when every item has an option; it has one line per item and keeps the user and the coupon |
| OrderCreation.Respond | src/modules/orders/orders.service.ts:129-199 | the answer changes no collection and returns the saved order |
| OrderCreation.Save | src/modules/orders/orders.service.ts:99-127 | options and products are unchanged; the coupons change only by consumption |
| OrderCreation.Record | src/modules/orders/orders.service.ts:121-127 | a recorded order is stored under its id; the coupons change only by consumption |
| OrderCreation.CreateOrder | src/modules/orders/orders.service.ts:74-200 | the store ends as `create` leaves it, with its answer |
| OrderCreation.RecordOrder | src/modules/orders/orders.service.ts:121-199 | the store ends as the save leaves it |
| OrderCreation.CreatedOrderIsSaved | src/modules/orders/orders.service.ts:74-127 | a created order is saved as pending, its total is the item sum plus shipping minus the discount, and never negative |
| OrderCreation.StockStaysTaken | src/modules/orders/orders.service.ts:85-127 | stock taken stays taken whatever fails later |
| OrderCreation.CouponConsumedAfterSave | src/modules/orders/orders.service.ts:121-127 | coupons change only after the save, and only for a coupon that gave a discount |
| OrderCreation.DiscountedCouponIsConsumable | src/modules/orders/orders.service.ts:125-127 | a coupon that gave a discount can always be consumed |
| OrderCreation.CancelUndoesCreate | src/modules/orders/orders.service.ts:580-588 | cancelling a fresh coupon-less order gives the stock back to its state before the order |
| Products.AdjustSales | src/modules/products/products.service.ts:270-284 | a missing product is NotFound; otherwise only that product's sales move by delta |
| Products.UpdateSalesCount | src/modules/products/products.service.ts:270-276 | the store's products end adjusted by +quantity, or unchanged on error |
| Products.RestoreSalesCount | src/modules/products/products.service.ts:278-284 | the store's products end adjusted by −quantity, or unchanged on error |
| Products.RestoreUndoesUpdate | src/modules/products/products.service.ts:270-284 | restore after update gives back the collection |
| Products.FirstRuleFor | src/modules/products/products.service.ts:322-326 | the result is the first rule listing the option, and None exactly when no rule lists it |
| Products.Decorate | src/modules/products/products.service.ts:328-343 | the option is kept, with a discount exactly when some active rule lists it, copied from the first such rule |
| Products.AddDiscountsToOptions | src/modules/products/products.service.ts:315-348 | there is one decorated option per option, in order |
| Products.RegularProducts | src/modules/products/products.service.ts:59-67 | exactly the products not flagged for same-day delivery are kept |
| Products.InsertAt | src/modules/products/products.service.ts:253 | one insertion step leaves a longer sorted prefix and a permutation |
| Products.SortByPrice | src/modules/products/products.service.ts:253 | the array ends sorted by price and a permutation of itself |
| Products.Decorated | src/modules/products/products.service.ts:315-348 | one decorated option per option, in order |
| Products.OptionsOf | src/modules/options/options.service.ts:49-61 | exactly the options whose `productId` is the product's |
| Products.FindAll | src/modules/products/products.service.ts:58-85 | one entry per regular product, in order, each carrying its own options from the options collection, decorated with their rules |
| Products.FindAllListsOwnOptions | src/modules/products/products.service.ts:58-85 | every product returned is regular, and each of its options is a stored option of that product carrying its decoration |
| Products.FindAllSortingByPrice | src/modules/products/products.service.ts:247-256 | the result is what `findAll` returns, sorted by price, as a permutation |
| Products.Availability | src/modules/products/products.service.ts:421 | the text is "in stock" exactly for positive stock, and "out of stock" otherwise |
| Products.OptionItem | src/modules/products/products.service.ts:420-438 | an option's entry carries the product and option ids and names, availability and price text |
| Products.OptionItems | src/modules/products/products.service.ts:420-439 | one entry per option, in order, each that option's own feed item |
| Products.BareItem | src/modules/products/products.service.ts:440-453 | the entry of a product without options carries its id, name, availability and condition "new" |
| Products.ItemsFor | src/modules/products/products.service.ts:413-455 | a product adds one entry per option, one entry if it is priced without options, or nothing |
| Products.Feed | src/modules/products/products.service.ts:404-408 | an empty catalogue gives an empty feed |
| Products.FeedAppend | src/modules/products/products.service.ts:406-457 | the feed of two lists is the two feeds concatenated |
| Products.PricelessBareProductAddsNothing | src/modules/products/products.service.ts:440-453 | a product without options or price does not appear |
| Products.AppendOptionItems | src/modules/products/products.service.ts:420-439 | the inner loop appends exactly the option entries |
| Products.AppendItems | src/modules/products/products.service.ts:413-455 | the loop body appends exactly the product's entries |
| Products.GoogleMerchantFeed | src/modules/products/products.service.ts:403-457 | the loop returns the feed |
| DeliveryAreas.Corrected | src/modules/delivery-areas/delivery-areas.service.ts:208-220 | the ring ends closed; a closed ring is unchanged, and an open one gets its first point appended |
| DeliveryAreas.CorrectedIdempotent | src/modules/delivery-areas/delivery-areas.service.ts:208-220 | closing twice is closing once |
| DeliveryAreas.CorrectPolygon | src/modules/delivery-areas/delivery-areas.service.ts:208-220 | in place, the first ring is corrected, an empty ring is a TypeError, and other rings are untouched |
| DeliveryAreas.MatchFor | src/modules/delivery-areas/delivery-areas.service.ts:132-159 | a zone matches exactly when its closed polygon holds the point and, for a same-day zone, the hour is before the cut-off and the day is allowed; the zone reported carries the ring `correctPolygon` closed in place |
| DeliveryAreas.Matches | src/modules/delivery-areas/delivery-areas.service.ts:131-160 | there are no more matches than zones, and every zone reported has a closed ring |
| DeliveryAreas.MatchesSnoc | src/modules/delivery-areas/delivery-areas.service.ts:131-160 | one more zone appends its own match, if any, after the earlier ones |
| DeliveryAreas.MatchesAreZoneMatches | src/modules/delivery-areas/delivery-areas.service.ts:131-160 | every match comes from a zone, and every matching zone is reported |
| DeliveryAreas.EnabledZones | src/modules/delivery-areas/delivery-areas.service.ts:118-123 | exactly the enabled zones are kept |
| DeliveryAreas.Search | src/modules/delivery-areas/delivery-areas.service.ts:111-176 | an empty ring is rethrown as an internal error; no match is an internal error with the "not in any zone" message; otherwise all matches are answered, in zone order, each zone with its ring closed |
| DeliveryAreas.SearchAreaByCoordinates | src/modules/delivery-areas/delivery-areas.service.ts:111-176 | the method answers the search over the enabled zones, reporting each matched zone with the closed ring `correctPolygon` left in it |
| DeliveryAreas.SearchZones | src/modules/delivery-areas/delivery-areas.service.ts:131-171 | the loop answers the search |
| DeliveryAreas.MatchZone | src/modules/delivery-areas/delivery-areas.service.ts:132-159 | the loop body gives one zone's match, read back through the array `correctPolygon` closed, or the internal error of an empty ring |
| DeliveryAreas.SameDayAfterCutOffSkipped | src/modules/delivery-areas/delivery-areas.service.ts:137-149 | a same-day zone is not reported at or after its cut-off hour |
| Pagination.CeilDiv | src/modules/pagination/pagination.service.ts:19 | the result is the least page count covering the items |
| Pagination.Paginate | src/modules/pagination/pagination.service.ts:6-31 | the page is the slice after skipping `(page-1)·limit`, at most `limit` items; the page count is the least count of at least one whose pages hold every item, which is `max(ceil(total/limit), 1)` |
| Pagination.DefaultsStartAtTheTop | src/modules/pagination/pagination.service.ts:8-13 | the default first page skips nothing |
| Pagination.EachItemOnItsPage | src/modules/pagination/pagination.service.ts:13-15 | item i is on page i/limit + 1 at offset i%limit |
| Pagination.PageAt | src/modules/pagination/pagination.service.ts:13-15 | offset m of a page is the item m places after those skipped |
| Pagination.EachItemsPageIsCounted | src/modules/pagination/pagination.service.ts:19 | every item's page is within the page count |
| GoogleSheet.DeliveryDateCells | src/modules/google-sheet/google-sheet.service.ts:33 | `"D de T"` gives D and T as the date and time cells |
| GoogleSheet.DeliveryDateWithoutTime | src/modules/google-sheet/google-sheet.service.ts:33 | without `" de "`, the time cell is "undefined" |
| GoogleSheet.StatusLabelsCoverStatuses | src/modules/google-sheet/google-sheet.service.ts:35-41 | each status has a label, and distinct statuses get distinct labels |
| GoogleSheet.PaymentLabels | src/modules/google-sheet/google-sheet.service.ts:43-46 | only cash and Mercado Pago are labelled |
| GoogleSheet.StatusLabel | src/modules/google-sheet/google-sheet.service.ts:35-41 | exactly the five status names have a label, every other text leaves the cell undefined |
| GoogleSheet.PaymentLabel | src/modules/google-sheet/google-sheet.service.ts:43-46 | exactly `cash` and `mercado-pago` have a label, every other value leaves the cell undefined |
| GoogleSheet.ProductLines | src/modules/google-sheet/google-sheet.service.ts:126-130 | there is one line per item, in order |
| GoogleSheet.ProductsCellLines | src/modules/google-sheet/google-sheet.service.ts:126-131 | splitting the products cell gives back one line per item |
| GoogleSheet.AddressCell | src/modules/google-sheet/google-sheet.service.ts:133-137 | the cell is the address, with ", city" appended when a city is given |
| GoogleSheet.ApartmentCell | src/modules/google-sheet/google-sheet.service.ts:146 | the cell is "Sí" exactly when a floor number is given |
| GoogleSheet.NumberCell | src/modules/google-sheet/google-sheet.service.ts:149-162 | the cell is blank for undefined, null or "null", and the text otherwise |
| GoogleSheet.PhoneCell | src/modules/google-sheet/google-sheet.service.ts:163 | the cell is the first given phone, or a blank |
| GoogleSheet.NotesCell | src/modules/google-sheet/google-sheet.service.ts:168-171 | null notes throw, and no other value does |
| GoogleSheet.StreetsCell | src/modules/google-sheet/google-sheet.service.ts:172-176 | a null between-streets throws, and no other value does |
| GoogleSheet.Cells | src/modules/google-sheet/google-sheet.service.ts:139-178 | there is one cell per header, the id first and the status in its column |
| GoogleSheet.OrderValues | src/modules/google-sheet/google-sheet.service.ts:119-180 | a row exists exactly when neither notes nor between-streets is null, and it carries the id and the status label |
| GoogleSheet.OrderCells | src/modules/google-sheet/google-sheet.service.ts:119-180 | the cells match the headers, with the id first |
| GoogleSheet.AddressColumns | src/modules/google-sheet/google-sheet.service.ts:146-162 | "Sí" exactly with a floor; blank floor and department when none is given |
| GoogleSheet.NotesColumn | src/modules/google-sheet/google-sheet.service.ts:168-171 | blank notes leave a blank, and visible notes are kept |
| GoogleSheet.StreetsColumn | src/modules/google-sheet/google-sheet.service.ts:172-176 | visible between-streets is prefixed, and otherwise the cell is blank |
| GoogleSheet.HeaderRow | src/modules/google-sheet/google-sheet.service.ts:182-212 | there is one header cell per header |
| GoogleSheet.HeaderValues | src/modules/google-sheet/google-sheet.service.ts:182-212 | the header row comes first, then the order's row of the same width |
| GoogleSheet.SheetAppend | src/modules/google-sheet/google-sheet.service.ts:23-68 | headers come first only on an empty sheet; the order row comes last, at the row after the existing ones |
| GoogleSheet.FirstRowFor | src/modules/google-sheet/google-sheet.service.ts:83 | the result is the first row whose first cell is the id, and None when there is none |
| GoogleSheet.WithStatus | src/modules/google-sheet/google-sheet.service.ts:90-91 | the status is set at index 15, other cells are kept, and a short row grows with null holes |
| GoogleSheet.WithStatusTwice | src/modules/google-sheet/google-sheet.service.ts:90-91 | setting the status twice equals setting the last value |
| GoogleSheet.UpdateOrderStatus | src/modules/google-sheet/google-sheet.service.ts:70-105 | an unknown order throws and changes nothing; otherwise only that row changes and its sheet row number is returned |
| DeliverySheet.NextRow | src/modules/google-sheet/delivery-sheet.service.ts:100 | the next row is just below the existing rows, and never the header |
| DeliverySheet.NonEmpty | src/modules/google-sheet/delivery-sheet.service.ts:240-247 | `.filter(Boolean)` keeps only non-empty texts |
| DeliverySheet.TruthyTexts | src/modules/google-sheet/delivery-sheet.service.ts:250-252 | the truthy fields are kept, never more than given |
| DeliverySheet.FloorAndDepartment | src/modules/google-sheet/delivery-sheet.service.ts:240-247 | the text is "Piso X Depto Y", either half alone, or empty |
| DeliverySheet.NotesCell | src/modules/google-sheet/delivery-sheet.service.ts:250-252 | the notes and the reference, joined by a newline when both are given |
| DeliverySheet.NotesCellSplits | src/modules/google-sheet/delivery-sheet.service.ts:250-252 | the notes cell splits back into its two parts |
| DeliverySheet.Values | src/modules/google-sheet/delivery-sheet.service.ts:254-275 | the row has 16 values, date first and link last |
| DeliverySheet.FormatOrderValues | src/modules/google-sheet/delivery-sheet.service.ts:226-275 | date and link are empty, both statuses pending, "Sí" exactly with a floor, and the between-streets column defaults to a blank |
| DeliverySheet.ZoneRow | src/modules/google-sheet/delivery-sheet.service.ts:194-207 | after both writes, the row is the formatted row with its date and link filled in |
| DeliverySheet.SheetsAgree | src/modules/google-sheet/delivery-sheet.service.ts:226-275 | both sheets show the same client, address, apartment, phone, email and products |

## Left out

- **Outside calls are not modelled:**
  - the Google Sheets API calls themselves, and the creation of zone tabs with their drop-down validations (`createSheetForZone`);
  - e-mails;
  - the Mercado Pago SDK, and the payment webhook `mpWebhook`, which fetches the payment remotely;
  - Meta conversion tracking;
  - geocoding.
- **Inputs from the environment become parameters:**
  - the current hour, day and year;
  - the order's creation time;
  - the texts of `moment`, `formatPrice`, `toLocaleString`, `encodeURIComponent` and JavaScript's number printing;
  - the store's new document ids.
- **Un-awaited `forEach(async …)` loops run one item after another.** The model does not capture their interleaving.
- **Concurrent requests, and the read-then-write races on stock and coupon counters, are not modelled.**
- **`new Date(...)` and its `isNaN` check are not modelled.** `OrderPricing.ParseDeliveryDateToDay` returns the date text handed to `new Date`, not a date.
- **Point-in-polygon (turf) is abstracted as the predicate `inside`.**
- **Discounts.CalculateDiscount, Discounts.CalculateCartDiscounts, DiscountCalculator.CalculateOrderDiscounts and OrderCreation.CreateOrder require every discount rule to have `initialQuantity` ≥ 1.** The source divides by the applicable quantity in the cart, and the threshold test then guarantees that quantity is positive. With a threshold of 0 or less, a cart whose applicable quantities add up to 0 still reaches the division, which gives NaN or Infinity. Exact reals cannot represent those values. The model therefore excludes such rules, although the source prices every other cart normally with them.
- **Pagination.Paginate requires `page` ≥ 1 and `limit` ≥ 1.** The source rejects neither. With `limit` 0, `skip` is 0 and MongoDB's `.limit(0)` means no limit, so every item comes back. `totalPages` is then `Math.max(Infinity, 1)`, which is Infinity, or `Math.max(NaN, 1)`, which is NaN on an empty collection. A negative limit and a page below 1 also reach MongoDB. The model leaves these out because the page count is then not a whole number, and because the result depends on how the driver treats a negative `skip` or `limit`.
- **Coupons.Create requires a fresh id for the new coupon.** The database assigns it.
- **Schemas.FindByCode compares codes ignoring ASCII case only.** Regular-expression metacharacters in a code, which `findOneByCode` would interpret, are not modelled.
- **Products.SortByPrice is an insertion sort proved sorted and a permutation.** It does not state the stability of JavaScript's `sort`.
- **The coupons service's `findOneById` writes the decorated coupon back; that write is not modelled.**
- **Products.AdjustSales, Products.UpdateSalesCount and Products.RestoreSalesCount change only the product's sales count.** The source writes back the whole product as `findOneById` returns it. That rewrites the product's `options` to the options whose `productId` is this product, in collection order and decorated with their rules, and rewrites the other fields in their response form. The model does not capture this write-back, because the store keeps options in a map with no collection order. It agrees with the source on a store where each product already lists its own options in that form.
- **Money is exact, not IEEE binary floating point.** Sums such as 0.1 + 0.2 are exact in the model. Money.Round2 rounds the exact half-cent up, so `Round2(1.005)` is 1.01, while JavaScript's `(1.005).toFixed(2)` gives "1.00".
- **JsText.TrimStart and JsText.TrimEnd strip only the ASCII whitespace** (space, tab, line feed, vertical tab, form feed and carriage return). JavaScript's `trim` also strips the no-break space, U+2028, U+2029, the byte-order mark and the other Unicode space separators. So notes or between-streets made only of such characters count as visible in GoogleSheet.NotesColumn and GoogleSheet.StreetsColumn, while the source blanks them.
- **GoogleSheet.UpdateOrderStatus assumes the sheet returns its rows.** On an empty sheet `values` is undefined and the source throws a TypeError.
- **The `OrderStatus` enum file is not part of this model.** Its codes 1 to 5 are taken as pending, confirmed, shipped, delivered and canceled, the labels of the sheet's status table.
- **Fields that the source copies through unchanged and that no behaviour depends on are not modelled.** These are `category` and `discountApplied` on an order item (orders.service.ts:438, 443), `category` on a Mercado Pago item (orders.service.ts:353) and `deliveryArea` on an order (orders.service.ts:270).
- **The two sheets print the order total with different formatters** (`formatPrice` and `toLocaleString`), both of which are inputs here. DeliverySheet.SheetsAgree therefore says nothing about the two totals.
- **Authentication, users, addresses, categories, announcements, images, sales points and the other services outside the order and catalogue core are not modelled.**

## Findings

| source | as written | input that shows it | evidently intended | confidence | as-written member | corrected member |
|---|---|---|---|---|---|---|
| src/modules/orders/orders.service.ts:580-583 | the cancellation passes `order.coupon`, a coupon CODE, to `couponService.update`, which looks the coupon up by id, so the lookup fails after the status is saved. The stock and sales are never given back. The model gives ids and codes one abstract string type and reports the failure as NotFound. For a code that is not shaped like an ObjectId, such as PROMO, Mongoose's `findById` rejects with a CastError first. That error kind is not modelled, but it aborts the cancellation at the same point. | `OrderLifecycle.CouponOrderExample`: coupon `c1` with code PROMO, option `a` with stock 3, order `o1` taking 2 units of `a` with coupon PROMO; cancel `o1` | the coupon found by code is updated under its own id, then the stock and the sales are restored (option `a` back to 5) | not executed | OrderLifecycle.CancelByCodeCounterexample | OrderLifecycle.UpdateStatus |
| src/modules/orders/orders.service.ts:581 | an order without a coupon is cancelled by looking up the code `null`, which no coupon has, so the cancellation stops after saving the status and restores no stock | any order whose coupon is null, cancelled when no coupon's code is "null" | a coupon-less cancellation skips the coupon step and gives back the stock and the sales | not executed | OrderLifecycle.CancelAsWrittenStops | OrderLifecycle.CancelGivesBackStock |
