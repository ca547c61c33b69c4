/**
 * The deterministic parts of ProductsService: the sales counter updates, the
 * decoration of options with their tier rule, the price sort and the items of
 * the merchant feed.
 */
module Products {
  import opened Common
  import opened Schemas
  import Discounts
  import Db

  // ------------------------------------------------------------ sales counts

  /** `salesCount += delta` on the product `id`, which must exist. */
  function AdjustSales(products: map<ProductId, Product>, id: ProductId, delta: int): (r: Result<map<ProductId, Product>>)
    ensures id !in products ==> r == Err(NotFound("Product not found"))
    ensures id in products ==>
      r.Ok? && r.value.Keys == products.Keys
      && r.value[id].salesCount == products[id].salesCount + delta
      && r.value[id] == products[id].(salesCount := r.value[id].salesCount)
      && forall k :: k in products && k != id ==> r.value[k] == products[k]
  {
    if id !in products then Err(NotFound("Product not found"))
    else Ok(products[id := products[id].(salesCount := products[id].salesCount + delta)])
  }

  /** `updateSalesCount(productId, quantity)` (lines 270-276). */
  method UpdateSalesCount(db: Db.Store, productId: ProductId, quantity: int) returns (r: Outcome)
    modifies db`products
    ensures AdjustSales(old(db.products), productId, quantity).Err? ==>
      r == Fail(NotFound("Product not found")) && db.products == old(db.products)
    ensures AdjustSales(old(db.products), productId, quantity).Ok? ==>
      r == Pass && db.products == AdjustSales(old(db.products), productId, quantity).value
  {
    match AdjustSales(db.products, productId, quantity)
    case Err(e) => r := Fail(e);
    case Ok(products) =>
      db.products := products;
      r := Pass;
  }

  /** `restoreSalesCount(productId, quantity)` (lines 278-284). */
  method RestoreSalesCount(db: Db.Store, productId: ProductId, quantity: int) returns (r: Outcome)
    modifies db`products
    ensures AdjustSales(old(db.products), productId, -quantity).Err? ==>
      r == Fail(NotFound("Product not found")) && db.products == old(db.products)
    ensures AdjustSales(old(db.products), productId, -quantity).Ok? ==>
      r == Pass && db.products == AdjustSales(old(db.products), productId, -quantity).value
  {
    match AdjustSales(db.products, productId, -quantity)
    case Err(e) => r := Fail(e);
    case Ok(products) =>
      db.products := products;
      r := Pass;
  }

  /** Restoring what was added gives back the collection: the two updates are inverse. */
  lemma RestoreUndoesUpdate(products: map<ProductId, Product>, id: ProductId, quantity: int)
    requires id in products
    ensures AdjustSales(AdjustSales(products, id, quantity).value, id, -quantity) == Ok(products)
  {
    var back := AdjustSales(AdjustSales(products, id, quantity).value, id, -quantity).value;
    assert back[id] == products[id];
    assert back == products;
  }

  // ------------------------------------------------------- rules on options

  /** The `discount` object attached to an option (lines 331-339). */
  datatype AttachedDiscount = AttachedDiscount(
    id: RuleId, description: string, initialQuantity: int,
    initialDiscountAmount: real, additionalDiscountAmount: real,
    applicableOptionIds: seq<OptionId>)

  /** An option as the catalog returns it, with the rule attached when there is one. */
  datatype OptionView = OptionView(option: CatalogOption, discount: Option<AttachedDiscount>)

  /** `activeDiscounts.find(d => d.applicableOptionIds.some(id => id === optionId))`. */
  function FirstRuleFor(rules: seq<DiscountRule>, optionId: OptionId): (r: Option<nat>)
    ensures r.Some? ==> r.value < |rules| && optionId in rules[r.value].applicableOptionIds
    ensures r.Some? ==> forall j :: 0 <= j < r.value ==> optionId !in rules[j].applicableOptionIds
    ensures r.None? <==> forall j :: 0 <= j < |rules| ==> optionId !in rules[j].applicableOptionIds
  {
    if |rules| == 0 then None
    else if optionId in rules[0].applicableOptionIds then Some(0)
    else match FirstRuleFor(rules[1..], optionId)
      case None => None
      case Some(i) => Some(i + 1)
  }

  /** The copy of a rule's fields that is attached to an option. */
  function Attach(rule: DiscountRule): AttachedDiscount
  {
    AttachedDiscount(rule.id, rule.description, rule.initialQuantity,
                     rule.initialDiscountAmount, rule.additionalDiscountAmount,
                     rule.applicableOptionIds)
  }

  /**
   * One option, decorated: it gets the first active rule that lists it, and
   * is passed through unchanged when no active rule does.
   */
  function Decorate(rules: seq<DiscountRule>, option: CatalogOption): (v: OptionView)
    ensures v.option == option
    ensures v.discount.Some? <==>
      exists rule :: rule in rules && rule.isActive && option.id in rule.applicableOptionIds
    ensures v.discount.Some? ==>
      var active := Discounts.ActiveRules(rules);
      FirstRuleFor(active, option.id).Some?
      && v.discount.value == Attach(active[FirstRuleFor(active, option.id).value])
  {
    var active := Discounts.ActiveRules(rules);
    match FirstRuleFor(active, option.id)
    case None =>
      assert forall rule :: rule in rules && rule.isActive ==> option.id !in rule.applicableOptionIds by {
        forall rule | rule in rules && rule.isActive
          ensures option.id !in rule.applicableOptionIds
        {
          assert rule in active;
          var j :| 0 <= j < |active| && active[j] == rule;
        }
      }
      OptionView(option, None)
    case Some(j) =>
      assert active[j] in active;
      OptionView(option, Some(Attach(active[j])))
  }

  /** `addDiscountsToOptions(options)` (lines 321-345). */
  method AddDiscountsToOptions(rules: seq<DiscountRule>, options: seq<CatalogOption>) returns (r: seq<OptionView>)
    ensures |r| == |options|
    ensures forall i :: 0 <= i < |r| ==> r[i] == Decorate(rules, options[i])
  {
    r := [];
    var i := 0;
    while i < |options|
      invariant 0 <= i <= |options|
      invariant |r| == i
      invariant forall k :: 0 <= k < i ==> r[k] == Decorate(rules, options[k])
    {
      r := r + [Decorate(rules, options[i])];
      i := i + 1;
    }
  }

  /** The options decorated one by one, in order: what `addDiscountsToOptions` returns. */
  function Decorated(rules: seq<DiscountRule>, options: seq<CatalogOption>): (r: seq<OptionView>)
    ensures |r| == |options|
    ensures forall i :: 0 <= i < |r| ==> r[i] == Decorate(rules, options[i])
  {
    if |options| == 0 then []
    else Decorated(rules, options[..|options| - 1]) + [Decorate(rules, options[|options| - 1])]
  }

  // ------------------------------------------------------------ price order

  /** A product as `findAll` returns it: its `options` replaced by the decorated options-collection entries. */
  datatype ProductView = ProductView(product: Product, options: seq<OptionView>)

  /** `optionService.findByProductId(id)`: the options whose `productId` is `id`, in collection order. */
  function OptionsOf(options: seq<CatalogOption>, id: ProductId): (r: seq<CatalogOption>)
    ensures forall o :: o in r <==> o in options && o.productId == id
    ensures |r| <= |options|
  {
    if |options| == 0 then []
    else if options[0].productId == id then [options[0]] + OptionsOf(options[1..], id)
    else OptionsOf(options[1..], id)
  }

  /** Non-decreasing price. */
  predicate SortedByPrice(s: seq<ProductView>)
  {
    forall k, l :: 0 <= k < l < |s| ==> s[k].product.price <= s[l].product.price
  }

  /** `findAll()`'s filter: products not flagged for same-day delivery. */
  function RegularProducts(products: seq<Product>): (r: seq<Product>)
    ensures forall p :: p in r <==> p in products && p.sameDayDelivery != Some(true)
  {
    if |products| == 0 then []
    else if products[0].sameDayDelivery != Some(true) then [products[0]] + RegularProducts(products[1..])
    else RegularProducts(products[1..])
  }

  /** Exchanges the products at `j - 1` and `j`. */
  method SwapDown(a: array<ProductView>, j: nat)
    requires 0 < j < a.Length
    modifies a
    ensures a[j - 1] == old(a[j]) && a[j] == old(a[j - 1])
    ensures forall k :: 0 <= k < a.Length && k != j - 1 && k != j ==> a[k] == old(a[k])
    ensures multiset(a[..]) == multiset(old(a[..]))
  {
    a[j - 1], a[j] := a[j], a[j - 1];
  }

  /**
   * One step of the in-place sort: the product at `i` moves left past the
   * pricier ones, so the first `i + 1` products end sorted.
   */
  method InsertAt(a: array<ProductView>, i: nat)
    requires i < a.Length
    requires forall k, l :: 0 <= k < l < i ==> a[k].product.price <= a[l].product.price
    modifies a
    ensures forall k, l :: 0 <= k < l <= i ==> a[k].product.price <= a[l].product.price
    ensures multiset(a[..]) == multiset(old(a[..]))
  {
    var j := i;
    while j > 0 && a[j - 1].product.price > a[j].product.price
      invariant 0 <= j <= i
      invariant forall k, l :: 0 <= k < l <= i && k != j && l != j ==> a[k].product.price <= a[l].product.price
      invariant forall l :: j < l <= i ==> a[j].product.price < a[l].product.price
      invariant multiset(a[..]) == multiset(old(a[..]))
    {
      SwapDown(a, j);
      j := j - 1;
    }
  }

  /** `products.sort((a, b) => a.price - b.price)` (line 253), in place. */
  method SortByPrice(a: array<ProductView>)
    modifies a
    ensures SortedByPrice(a[..])
    ensures multiset(a[..]) == multiset(old(a[..]))
  {
    var i := 0;
    while i < a.Length
      invariant 0 <= i <= a.Length
      invariant forall k, l :: 0 <= k < l < i ==> a[k].product.price <= a[l].product.price
      invariant multiset(a[..]) == multiset(old(a[..]))
    {
      InsertAt(a, i);
      i := i + 1;
    }
  }

  /**
   * `findAll()` (lines 58-85) over the products and the options collection,
   * each in collection order: the regular products, each with its own
   * options from the options collection, decorated with their rules.
   */
  function FindAll(products: seq<Product>, options: seq<CatalogOption>, rules: seq<DiscountRule>): (r: seq<ProductView>)
    ensures |r| == |RegularProducts(products)|
    ensures forall i :: 0 <= i < |r| ==>
      r[i].product == RegularProducts(products)[i]
      && r[i].options == Decorated(rules, OptionsOf(options, r[i].product.id))
  {
    var regular := RegularProducts(products);
    seq(|regular|, i requires 0 <= i < |regular| =>
      ProductView(regular[i], Decorated(rules, OptionsOf(options, regular[i].id))))
  }

  /** Every product `findAll` returns lists exactly its own options, each decorated. */
  lemma FindAllListsOwnOptions(products: seq<Product>, options: seq<CatalogOption>, rules: seq<DiscountRule>, i: nat, j: nat)
    requires i < |FindAll(products, options, rules)|
    requires j < |FindAll(products, options, rules)[i].options|
    ensures var v := FindAll(products, options, rules)[i];
      v.product.sameDayDelivery != Some(true)
      && v.options[j].option in options && v.options[j].option.productId == v.product.id
      && v.options[j] == Decorate(rules, v.options[j].option)
  {
    var v := FindAll(products, options, rules)[i];
    assert v.product in RegularProducts(products);
    assert OptionsOf(options, v.product.id)[j] in OptionsOf(options, v.product.id);
  }

  /** `findAllSortingByPrice()` (lines 246-256): what `findAll` returns, cheapest first. */
  method FindAllSortingByPrice(products: seq<Product>, options: seq<CatalogOption>, rules: seq<DiscountRule>)
    returns (r: seq<ProductView>)
    ensures SortedByPrice(r)
    ensures multiset(r) == multiset(FindAll(products, options, rules))
  {
    var found := FindAll(products, options, rules);
    var a := new ProductView[|found|](i requires 0 <= i < |found| => found[i]);
    assert a[..] == found;
    SortByPrice(a);
    r := a[..];
  }

  // ------------------------------------------------------------ merchant feed

  /** One entry of the merchant feed (lines 425-434 and 444-453). */
  datatype FeedItem = FeedItem(
    id: string, title: string, description: string, link: string,
    imageLink: string, price: string, availability: string, condition: string)

  /**
   * The texts the feed needs from outside: the storefront's base URL,
   * `encodeURIComponent` and the JavaScript text of a number.
   */
  datatype FeedContext = FeedContext(baseUrl: string, encode: string -> string, numberText: real -> string)

  function Availability(stock: int): (s: string)
    ensures s == "in stock" <==> stock > 0
    ensures s == "out of stock" <==> stock <= 0
  {
    if stock > 0 then "in stock" else "out of stock"
  }

  function ImageLink(p: Product): string
  {
    if |p.images| > 0 then p.images[0] else ""
  }

  function ProductLink(ctx: FeedContext, p: Product): string
  {
    ctx.baseUrl + "/tienda/" + p.id + "?producto=" + ctx.encode(p.name)
  }

  /** The entry of one option of a product (lines 420-438). */
  function OptionItem(ctx: FeedContext, p: Product, o: CatalogOption): (item: FeedItem)
    ensures item.id == p.id + "_" + o.id && item.title == p.name + " - " + o.name
    ensures item.availability == Availability(o.stock) && item.condition == "new"
    ensures item.price == (if o.price != 0.0 then ctx.numberText(o.price) + " ARS" else "0 ARS")
  {
    FeedItem(p.id + "_" + o.id, p.name + " - " + o.name, p.description, ProductLink(ctx, p),
             ImageLink(p), if o.price != 0.0 then ctx.numberText(o.price) + " ARS" else "0 ARS",
             Availability(o.stock), "new")
  }

  /** The entries of the first options of a product, in order. */
  function OptionItems(ctx: FeedContext, p: Product, opts: seq<CatalogOption>): (r: seq<FeedItem>)
    ensures |r| == |opts|
    ensures forall j :: 0 <= j < |opts| ==> r[j] == OptionItem(ctx, p, opts[j])
  {
    if |opts| == 0 then []
    else OptionItems(ctx, p, opts[..|opts| - 1]) + [OptionItem(ctx, p, opts[|opts| - 1])]
  }

  /** The entry of a product without options (lines 440-453). */
  function BareItem(ctx: FeedContext, p: Product): (item: FeedItem)
    ensures item.id == p.id && item.title == p.name
    ensures item.availability == Availability(p.stock) && item.condition == "new"
  {
    FeedItem(p.id, p.name, p.description, ProductLink(ctx, p), ImageLink(p),
             ctx.numberText(p.price) + " ARS", Availability(p.stock), "new")
  }

  /**
   * What one product adds to the feed: an entry per option, or one entry
   * when it has no options and a price, or nothing.
   */
  function ItemsFor(ctx: FeedContext, p: Product): (r: seq<FeedItem>)
    ensures |p.options| > 0 ==> r == OptionItems(ctx, p, p.options)
    ensures |p.options| == 0 && p.price != 0.0 ==> r == [BareItem(ctx, p)]
    ensures |p.options| == 0 && p.price == 0.0 ==> r == []
  {
    if |p.options| > 0 then OptionItems(ctx, p, p.options)
    else if p.price != 0.0 then [BareItem(ctx, p)]
    else []
  }

  /** The feed of a product list, product by product. */
  function Feed(ctx: FeedContext, products: seq<Product>): (r: seq<FeedItem>)
    ensures |products| == 0 ==> r == []
  {
    if |products| == 0 then []
    else Feed(ctx, products[..|products| - 1]) + ItemsFor(ctx, products[|products| - 1])
  }

  /** The feed of two lists one after the other is the two feeds one after the other. */
  lemma {:induction false} FeedAppend(ctx: FeedContext, a: seq<Product>, b: seq<Product>)
    ensures Feed(ctx, a + b) == Feed(ctx, a) + Feed(ctx, b)
    decreases |b|
  {
    if |b| > 0 {
      var init := b[..|b| - 1];
      assert (a + b)[..|a + b| - 1] == a + init;
      assert (a + b)[|a + b| - 1] == b[|b| - 1];
      FeedAppend(ctx, a, init);
    } else {
      assert a + b == a;
    }
  }

  /** A product with neither options nor a price leaves the feed as it is. */
  lemma PricelessBareProductAddsNothing(ctx: FeedContext, a: seq<Product>, p: Product, b: seq<Product>)
    requires |p.options| == 0 && p.price == 0.0
    ensures Feed(ctx, a + [p] + b) == Feed(ctx, a) + Feed(ctx, b)
  {
    var ap := a + [p];
    assert ap[..|ap| - 1] == a && ap[|ap| - 1] == p;
    assert Feed(ctx, ap) == Feed(ctx, a);
    FeedAppend(ctx, ap, b);
  }

  /** One more option adds its entry at the end. */
  lemma OptionItemsStep(ctx: FeedContext, p: Product, opts: seq<CatalogOption>, j: nat)
    requires j < |opts|
    ensures OptionItems(ctx, p, opts[..j + 1]) == OptionItems(ctx, p, opts[..j]) + [OptionItem(ctx, p, opts[j])]
  {
    assert opts[..j + 1][..j] == opts[..j];
  }

  /** The inner loop of lines 420-439: one entry per option of `p`, appended in order. */
  method AppendOptionItems(ctx: FeedContext, p: Product, feed: seq<FeedItem>) returns (r: seq<FeedItem>)
    ensures r == feed + OptionItems(ctx, p, p.options)
  {
    r := feed;
    var j := 0;
    while j < |p.options|
      invariant 0 <= j <= |p.options|
      invariant r == feed + OptionItems(ctx, p, p.options[..j])
    {
      OptionItemsStep(ctx, p, p.options, j);
      r := r + [OptionItem(ctx, p, p.options[j])];
      j := j + 1;
    }
    assert p.options[..j] == p.options;
  }

  /** One more product adds its entries at the end. */
  lemma FeedStep(ctx: FeedContext, products: seq<Product>, i: nat)
    requires i < |products|
    ensures Feed(ctx, products[..i + 1]) == Feed(ctx, products[..i]) + ItemsFor(ctx, products[i])
  {
    assert products[..i + 1][..i] == products[..i];
  }

  /** The body of the outer loop of lines 413-455: the entries of one product. */
  method AppendItems(ctx: FeedContext, p: Product, feed: seq<FeedItem>) returns (r: seq<FeedItem>)
    ensures r == feed + ItemsFor(ctx, p)
  {
    if |p.options| > 0 {
      r := AppendOptionItems(ctx, p, feed);
    } else if p.price != 0.0 {
      r := feed + [BareItem(ctx, p)];
    } else {
      r := feed;
    }
  }

  /** `getGoogleMerchantFeed()` (lines 406-457) over the products collection. */
  method GoogleMerchantFeed(ctx: FeedContext, products: seq<Product>) returns (feed: seq<FeedItem>)
    ensures feed == Feed(ctx, products)
  {
    if |products| == 0 {
      return [];
    }
    feed := [];
    var i := 0;
    while i < |products|
      invariant 0 <= i <= |products|
      invariant feed == Feed(ctx, products[..i])
    {
      FeedStep(ctx, products, i);
      feed := AppendItems(ctx, products[i], feed);
      i := i + 1;
    }
    assert products[..i] == products;
  }
}
