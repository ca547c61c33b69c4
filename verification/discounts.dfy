/**
 * Quantity-tier product discounts (DiscountsService).
 *
 * An active rule fires once the cart holds at least `initialQuantity` units of
 * its applicable options in total; it is then worth `initialDiscountAmount`
 * plus `additionalDiscountAmount` for every unit beyond the threshold, and
 * that amount is spread over the applicable cart lines in proportion to their
 * quantities.
 */
module Discounts {
  import opened Schemas

  /** `find({ isActive: true })`: the active rules, in collection order. */
  function ActiveRules(rules: seq<DiscountRule>): (active: seq<DiscountRule>)
    ensures forall r :: r in active ==> r in rules && r.isActive
    ensures forall r :: r in rules && r.isActive ==> r in active
    ensures WellFormedRules(rules) ==> WellFormedRules(active)
  {
    if |rules| == 0 then []
    else if rules[0].isActive then [rules[0]] + ActiveRules(rules[1..])
    else ActiveRules(rules[1..])
  }

  /** The reduce of lines 116-121: units in `lines` whose option the rule lists. */
  function ApplicableQuantity(ids: seq<OptionId>, lines: seq<CartLine>): int
  {
    if |lines| == 0 then 0
    else
      var last := lines[|lines| - 1];
      ApplicableQuantity(ids, lines[..|lines| - 1]) + (if last.optionId in ids then last.quantity else 0)
  }

  /** What the rule is worth for `total` applicable units once the threshold is reached. */
  function TierAmount(rule: DiscountRule, total: int): (amount: real)
    ensures total > rule.initialQuantity ==>
      amount == rule.initialDiscountAmount + ((total - rule.initialQuantity) as real) * rule.additionalDiscountAmount
    ensures total <= rule.initialQuantity ==> amount == rule.initialDiscountAmount
  {
    var additionalUnits := total - rule.initialQuantity;
    rule.initialDiscountAmount
      + (if additionalUnits > 0 then (additionalUnits as real) * rule.additionalDiscountAmount else 0.0)
  }

  /** One rule's contribution to the line (optionId, quantity) of `cart` (lines 111-137). */
  function RuleShare(rule: DiscountRule, optionId: OptionId, quantity: int, cart: seq<CartLine>): (share: real)
    requires rule.initialQuantity >= 1
    ensures optionId !in rule.applicableOptionIds ==> share == 0.0
    ensures ApplicableQuantity(rule.applicableOptionIds, cart) < rule.initialQuantity ==> share == 0.0
  {
    if optionId in rule.applicableOptionIds then
      var total := ApplicableQuantity(rule.applicableOptionIds, cart);
      if total >= rule.initialQuantity then
        var factor := (quantity as real) / (total as real);
        var additionalUnits := total - rule.initialQuantity;
        rule.initialDiscountAmount * factor
          + (if additionalUnits > 0 then ((additionalUnits as real) * rule.additionalDiscountAmount) * factor else 0.0)
      else 0.0
    else 0.0
  }

  /** The discount of one line: the shares of every given rule, added up. */
  function LineDiscount(active: seq<DiscountRule>, optionId: OptionId, quantity: int, cart: seq<CartLine>): real
    requires WellFormedRules(active)
  {
    if |active| == 0 then 0.0
    else
      LineDiscount(active[..|active| - 1], optionId, quantity, cart)
        + RuleShare(active[|active| - 1], optionId, quantity, cart)
  }

  /** The discounts of `lines`, each priced against the whole `cart`. */
  function LinesDiscount(active: seq<DiscountRule>, lines: seq<CartLine>, cart: seq<CartLine>): real
    requires WellFormedRules(active)
  {
    if |lines| == 0 then 0.0
    else
      var last := lines[|lines| - 1];
      LinesDiscount(active, lines[..|lines| - 1], cart) + LineDiscount(active, last.optionId, last.quantity, cart)
  }

  /** What `calculateCartDiscounts` returns for the cart `items`. */
  function CartDiscount(rules: seq<DiscountRule>, items: seq<CartLine>): real
    requires WellFormedRules(rules)
  {
    LinesDiscount(ActiveRules(rules), items, items)
  }

  /** What one rule is worth for the whole cart. */
  function RuleTotal(rule: DiscountRule, cart: seq<CartLine>): real
  {
    var total := ApplicableQuantity(rule.applicableOptionIds, cart);
    if total >= rule.initialQuantity then TierAmount(rule, total) else 0.0
  }

  /** The rule totals of `active`, added up. */
  function RuleTotals(active: seq<DiscountRule>, cart: seq<CartLine>): real
  {
    if |active| == 0 then 0.0
    else RuleTotals(active[..|active| - 1], cart) + RuleTotal(active[|active| - 1], cart)
  }

  /** `calculateDiscount(optionId, quantity, allCartItems)` (lines 97-142). */
  method CalculateDiscount(rules: seq<DiscountRule>, optionId: OptionId, quantity: int, allCartItems: seq<CartLine>)
    returns (totalDiscount: real)
    requires WellFormedRules(rules)
    ensures totalDiscount == LineDiscount(ActiveRules(rules), optionId, quantity, allCartItems)
  {
    var activeDiscounts := ActiveRules(rules);
    totalDiscount := 0.0;
    var i := 0;
    while i < |activeDiscounts|
      invariant 0 <= i <= |activeDiscounts|
      invariant totalDiscount == LineDiscount(activeDiscounts[..i], optionId, quantity, allCartItems)
    {
      LineDiscountStep(activeDiscounts, optionId, quantity, allCartItems, i);
      totalDiscount := AddRuleShare(activeDiscounts[i], optionId, quantity, allCartItems, totalDiscount);
      i := i + 1;
    }
    assert activeDiscounts[..i] == activeDiscounts;
  }

  /** One more rule adds its share at the end. */
  lemma LineDiscountStep(active: seq<DiscountRule>, optionId: OptionId, quantity: int, cart: seq<CartLine>, i: nat)
    requires WellFormedRules(active) && i < |active|
    ensures WellFormedRules(active[..i]) && WellFormedRules(active[..i + 1])
    ensures LineDiscount(active[..i + 1], optionId, quantity, cart)
      == LineDiscount(active[..i], optionId, quantity, cart) + RuleShare(active[i], optionId, quantity, cart)
  {
    assert active[..i + 1][..i] == active[..i];
  }

  /** The body of the loop of lines 107-139: adds one rule's share to the running total. */
  method AddRuleShare(discount: DiscountRule, optionId: OptionId, quantity: int, allCartItems: seq<CartLine>, before: real)
    returns (totalDiscount: real)
    requires discount.initialQuantity >= 1
    ensures totalDiscount == before + RuleShare(discount, optionId, quantity, allCartItems)
  {
    totalDiscount := before;
    if optionId in discount.applicableOptionIds {
      var totalQuantityInCart := ApplicableQuantity(discount.applicableOptionIds, allCartItems);
      if totalQuantityInCart >= discount.initialQuantity {
        var proportionalFactor := (quantity as real) / (totalQuantityInCart as real);
        totalDiscount := totalDiscount + discount.initialDiscountAmount * proportionalFactor;
        var additionalUnits := totalQuantityInCart - discount.initialQuantity;
        if additionalUnits > 0 {
          totalDiscount := totalDiscount
            + ((additionalUnits as real) * discount.additionalDiscountAmount) * proportionalFactor;
        }
        ShareByFactor(discount, optionId, quantity, allCartItems);
      }
    }
  }

  /** `calculateCartDiscounts(items)` (lines 158-167). */
  method CalculateCartDiscounts(rules: seq<DiscountRule>, items: seq<CartLine>) returns (totalDiscount: real)
    requires WellFormedRules(rules)
    ensures totalDiscount == CartDiscount(rules, items)
    ensures totalDiscount == RuleTotals(ActiveRules(rules), items)
  {
    totalDiscount := 0.0;
    var i := 0;
    while i < |items|
      invariant 0 <= i <= |items|
      invariant totalDiscount == LinesDiscount(ActiveRules(rules), items[..i], items)
    {
      var itemDiscount := CalculateDiscount(rules, items[i].optionId, items[i].quantity, items);
      totalDiscount := totalDiscount + itemDiscount;
      assert items[..i + 1][..i] == items[..i];
      i := i + 1;
    }
    assert items[..i] == items;
    CartDiscountIsSumOfRuleTotals(rules, items);
  }

  // ---------------------------------------------------------------------
  // The proportional split adds back up to the rule's amount.
  // ---------------------------------------------------------------------

  /** The shares one rule gives to the lines `lines` of `cart`. */
  function SharesOver(rule: DiscountRule, lines: seq<CartLine>, cart: seq<CartLine>): real
    requires rule.initialQuantity >= 1
  {
    if |lines| == 0 then 0.0
    else
      var last := lines[|lines| - 1];
      SharesOver(rule, lines[..|lines| - 1], cart) + RuleShare(rule, last.optionId, last.quantity, cart)
  }

  lemma ShareByFactor(rule: DiscountRule, optionId: OptionId, quantity: int, cart: seq<CartLine>)
    requires rule.initialQuantity >= 1
    requires optionId in rule.applicableOptionIds
    requires ApplicableQuantity(rule.applicableOptionIds, cart) >= rule.initialQuantity
    ensures var total := ApplicableQuantity(rule.applicableOptionIds, cart);
      var factor := (quantity as real) / (total as real);
      var additionalUnits := total - rule.initialQuantity;
      RuleShare(rule, optionId, quantity, cart)
      == rule.initialDiscountAmount * factor
         + (if additionalUnits > 0 then ((additionalUnits as real) * rule.additionalDiscountAmount) * factor else 0.0)
  {
  }

  /** A line's share is the tier amount scaled by the line's part of the applicable units. */
  lemma ShareIsProportional(rule: DiscountRule, optionId: OptionId, quantity: int, cart: seq<CartLine>)
    requires rule.initialQuantity >= 1
    requires optionId in rule.applicableOptionIds
    requires ApplicableQuantity(rule.applicableOptionIds, cart) >= rule.initialQuantity
    ensures RuleShare(rule, optionId, quantity, cart)
      == TierAmount(rule, ApplicableQuantity(rule.applicableOptionIds, cart))
         * ((quantity as real) / (ApplicableQuantity(rule.applicableOptionIds, cart) as real))
  {
  }

  lemma {:induction false} SharesOverIsProportional(rule: DiscountRule, lines: seq<CartLine>, cart: seq<CartLine>)
    requires rule.initialQuantity >= 1
    ensures var total := ApplicableQuantity(rule.applicableOptionIds, cart);
      SharesOver(rule, lines, cart)
      == if total >= rule.initialQuantity
         then TierAmount(rule, total) * ((ApplicableQuantity(rule.applicableOptionIds, lines) as real) / (total as real))
         else 0.0
  {
    var ids := rule.applicableOptionIds;
    var total := ApplicableQuantity(ids, cart);
    if |lines| == 0 {
      assert SharesOver(rule, lines, cart) == 0.0;
      assert ApplicableQuantity(ids, lines) == 0;
    } else {
      var init := lines[..|lines| - 1];
      var last := lines[|lines| - 1];
      SharesOverIsProportional(rule, init, cart);
      var share := RuleShare(rule, last.optionId, last.quantity, cart);
      assert SharesOver(rule, lines, cart) == SharesOver(rule, init, cart) + share;
      if total >= rule.initialQuantity {
        var t := TierAmount(rule, total);
        var a := ApplicableQuantity(ids, init) as real;
        var q := if last.optionId in ids then last.quantity as real else 0.0;
        if last.optionId in ids {
          ShareIsProportional(rule, last.optionId, last.quantity, cart);
        }
        assert share == t * (q / (total as real));
        var sum := ApplicableQuantity(ids, lines) as real;
        assert sum == a + q;
        ProportionalStep(t, SharesOver(rule, init, cart), share, a, q, sum, total as real);
      } else {
        assert share == 0.0;
      }
    }
  }

  /** Two parts of the same proportional split add up to the split of their sum. */
  lemma ProportionalStep(t: real, prev: real, share: real, a: real, q: real, sum: real, total: real)
    requires total > 0.0
    requires prev == t * (a / total) && share == t * (q / total) && sum == a + q
    ensures prev + share == t * (sum / total)
  {
    calc {
      t * (a / total) + t * (q / total);
      t * (a / total + q / total);
      t * ((a + q) / total);
    }
  }

  /**
   * Over the whole cart, the shares of one rule add up to exactly what the rule
   * is worth, whatever the lines and even when an option appears twice.
   */
  lemma SharesSumToRuleTotal(rule: DiscountRule, cart: seq<CartLine>)
    requires rule.initialQuantity >= 1
    ensures SharesOver(rule, cart, cart) == RuleTotal(rule, cart)
  {
    SharesOverIsProportional(rule, cart, cart);
    var total := ApplicableQuantity(rule.applicableOptionIds, cart);
    if total >= rule.initialQuantity {
      WholeShare(TierAmount(rule, total), total as real);
    }
  }

  /** The whole of a proportional split is the amount split. */
  lemma WholeShare(t: real, x: real)
    requires x > 0.0
    ensures t * (x / x) == t
  {
    assert x / x == 1.0;
  }

  // ---------------------------------------------------------------------
  // Exchanging the two sums: per line then per rule = per rule then per line.
  // ---------------------------------------------------------------------

  /** Per rule then per line. */
  function SharesByRule(active: seq<DiscountRule>, lines: seq<CartLine>, cart: seq<CartLine>): real
    requires WellFormedRules(active)
  {
    if |active| == 0 then 0.0
    else SharesByRule(active[..|active| - 1], lines, cart) + SharesOver(active[|active| - 1], lines, cart)
  }

  lemma {:induction false} SharesByRuleStep(active: seq<DiscountRule>, lines: seq<CartLine>, line: CartLine, cart: seq<CartLine>)
    requires WellFormedRules(active)
    ensures SharesByRule(active, lines + [line], cart)
      == SharesByRule(active, lines, cart) + LineDiscount(active, line.optionId, line.quantity, cart)
  {
    if |active| > 0 {
      var init := active[..|active| - 1];
      SharesByRuleStep(init, lines, line, cart);
      assert (lines + [line])[..|lines|] == lines;
    }
  }

  lemma {:induction false} LinesDiscountByRule(active: seq<DiscountRule>, lines: seq<CartLine>, cart: seq<CartLine>)
    requires WellFormedRules(active)
    ensures LinesDiscount(active, lines, cart) == SharesByRule(active, lines, cart)
  {
    if |lines| == 0 {
      SharesByRuleEmpty(active, cart);
    } else {
      var init := lines[..|lines| - 1];
      LinesDiscountByRule(active, init, cart);
      SharesByRuleStep(active, init, lines[|lines| - 1], cart);
      assert init + [lines[|lines| - 1]] == lines;
    }
  }

  lemma {:induction false} SharesByRuleEmpty(active: seq<DiscountRule>, cart: seq<CartLine>)
    requires WellFormedRules(active)
    ensures SharesByRule(active, [], cart) == 0.0
  {
    if |active| > 0 {
      SharesByRuleEmpty(active[..|active| - 1], cart);
    }
  }

  lemma {:induction false} SharesByRuleOnCart(active: seq<DiscountRule>, cart: seq<CartLine>)
    requires WellFormedRules(active)
    ensures SharesByRule(active, cart, cart) == RuleTotals(active, cart)
  {
    if |active| > 0 {
      SharesByRuleOnCart(active[..|active| - 1], cart);
      SharesSumToRuleTotal(active[|active| - 1], cart);
    }
  }

  /**
   * The cart discount is the sum, over the active rules, of what each rule is
   * worth for the cart: contributions of several matching rules add up.
   */
  lemma CartDiscountIsSumOfRuleTotals(rules: seq<DiscountRule>, cart: seq<CartLine>)
    requires WellFormedRules(rules)
    ensures CartDiscount(rules, cart) == RuleTotals(ActiveRules(rules), cart)
  {
    LinesDiscountByRule(ActiveRules(rules), cart, cart);
    SharesByRuleOnCart(ActiveRules(rules), cart);
  }

  /** The worked example of the service's documentation: 2 + 1 + 1 units, 5000 and 5000 per unit beyond 2. */
  lemma DocumentedExample()
    ensures
      var rule := DiscountRule("d1", "Combo", "", ["A", "B", "C"], 2, 5000.0, 5000.0, true);
      var cart := [CartLine("p1", "A", 2), CartLine("p2", "B", 1), CartLine("p3", "C", 1)];
      CartDiscount([rule], cart) == 15000.0
  {
    var rule := DiscountRule("d1", "Combo", "", ["A", "B", "C"], 2, 5000.0, 5000.0, true);
    var cart := [CartLine("p1", "A", 2), CartLine("p2", "B", 1), CartLine("p3", "C", 1)];
    CartDiscountIsSumOfRuleTotals([rule], cart);
    assert ActiveRules([rule]) == [rule];
    assert [rule][..0] == [];
    assert cart[..2][..1] == cart[..1];
    assert cart[..1][..0] == [];
    assert ApplicableQuantity(rule.applicableOptionIds, cart[..1]) == 2;
    assert ApplicableQuantity(rule.applicableOptionIds, cart[..2]) == 3;
    assert ApplicableQuantity(rule.applicableOptionIds, cart) == 4;
  }

  /** With the default empty cart no rule reaches its threshold. */
  lemma {:induction false} EmptyCartGetsNothing(active: seq<DiscountRule>, optionId: OptionId, quantity: int)
    requires WellFormedRules(active)
    ensures LineDiscount(active, optionId, quantity, []) == 0.0
  {
    if |active| > 0 {
      EmptyCartGetsNothing(active[..|active| - 1], optionId, quantity);
    }
  }

  /** An inactive rule added to the collection changes no cart's discount. */
  lemma {:induction false} InactiveRuleNeverContributes(rules: seq<DiscountRule>, rule: DiscountRule, cart: seq<CartLine>)
    requires WellFormedRules(rules) && rule.initialQuantity >= 1 && !rule.isActive
    ensures WellFormedRules([rule] + rules)
    ensures CartDiscount([rule] + rules, cart) == CartDiscount(rules, cart)
  {
    assert ([rule] + rules)[1..] == rules;
  }

  /** With non-negative amounts and quantities, no line's discount is negative. */
  lemma {:induction false} LineDiscountNonNegative(active: seq<DiscountRule>, optionId: OptionId, quantity: int, cart: seq<CartLine>)
    requires WellFormedRules(active)
    requires forall i :: 0 <= i < |active| ==>
      active[i].initialDiscountAmount >= 0.0 && active[i].additionalDiscountAmount >= 0.0
    requires quantity >= 0
    ensures LineDiscount(active, optionId, quantity, cart) >= 0.0
  {
    if |active| > 0 {
      LineDiscountNonNegative(active[..|active| - 1], optionId, quantity, cart);
      var rule := active[|active| - 1];
      var total := ApplicableQuantity(rule.applicableOptionIds, cart);
      if optionId in rule.applicableOptionIds && total >= rule.initialQuantity {
        ShareIsProportional(rule, optionId, quantity, cart);
        assert TierAmount(rule, total) >= 0.0;
        assert (quantity as real) / (total as real) >= 0.0;
      }
    }
  }
}
