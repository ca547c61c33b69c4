/**
 * The stock side of OrdersService: `validateStock` checks each requested
 * option against the store and decrements it on the spot, and `sumStock`
 * adds the quantities of an order's items back.
 */
module OrderStock {
  import opened Common
  import opened Schemas
  import Db

  /** The options collection after a pass, and how the pass ended. */
  datatype StockResult = StockResult(options: map<OptionId, CatalogOption>, outcome: Outcome)

  /** Every option's stock is non-negative. */
  predicate StockNonNegative(opts: map<OptionId, CatalogOption>)
  {
    forall k :: k in opts ==> opts[k].stock >= 0
  }

  /** The inner loop of `validateStock` over one item's options (lines 620-629). */
  function CheckOptions(opts: map<OptionId, CatalogOption>, reqs: seq<OptionRequest>): (r: StockResult)
    ensures r.options.Keys == opts.Keys
    decreases |reqs|
  {
    if |reqs| == 0 then StockResult(opts, Pass)
    else
      var req := reqs[0];
      if req.id !in opts then StockResult(opts, Fail(NotFound("Option not found")))
      else if req.quantity > opts[req.id].stock then
        StockResult(opts, Fail(BadRequest("Not enough stock for option " + opts[req.id].name)))
      else
        CheckOptions(opts[req.id := opts[req.id].(stock := opts[req.id].stock - req.quantity)], reqs[1..])
  }

  /** After one item's options: stop on a failure, otherwise go on with the remaining items. */
  function Continue(r: StockResult, products: map<ProductId, Product>, rest: seq<ItemRequest>): StockResult
  {
    if r.outcome.Fail? then r else CheckItems(r.options, products, rest)
  }

  /** `validateStock(products)` (lines 615-632): the product must exist, then its options are checked in turn. */
  function CheckItems(opts: map<OptionId, CatalogOption>, products: map<ProductId, Product>,
                      items: seq<ItemRequest>): (r: StockResult)
    ensures r.options.Keys == opts.Keys
    decreases |items|
  {
    if |items| == 0 then StockResult(opts, Pass)
    else if items[0].productId !in products then StockResult(opts, Fail(NotFound("Product not found")))
    else
      var r := CheckOptions(opts, items[0].options);
      if r.outcome.Fail? then r else CheckItems(r.options, products, items[1..])
  }

  /** The check of the items from `i` on starts with item `i`. */
  lemma CheckItemsStep(opts: map<OptionId, CatalogOption>, products: map<ProductId, Product>, items: seq<ItemRequest>, i: nat)
    requires i < |items|
    ensures CheckItems(opts, products, items[i..])
      == if items[i].productId !in products then StockResult(opts, Fail(NotFound("Product not found")))
         else Continue(CheckOptions(opts, items[i].options), products, items[i + 1..])
  {
    assert items[i..][0] == items[i] && items[i..][1..] == items[i + 1..];
  }

  /** The check of the lines from `j` on starts with line `j`. */
  lemma CheckOptionsStep(opts: map<OptionId, CatalogOption>, reqs: seq<OptionRequest>, j: nat)
    requires j < |reqs|
    ensures CheckOptions(opts, reqs[j..])
      == if reqs[j].id !in opts then StockResult(opts, Fail(NotFound("Option not found")))
         else if reqs[j].quantity > opts[reqs[j].id].stock then
           StockResult(opts, Fail(BadRequest("Not enough stock for option " + opts[reqs[j].id].name)))
         else CheckOptions(opts[reqs[j].id := opts[reqs[j].id].(stock := opts[reqs[j].id].stock - reqs[j].quantity)], reqs[j + 1..])
  {
    assert reqs[j..][0] == reqs[j] && reqs[j..][1..] == reqs[j + 1..];
  }

  /** `validateStock(products)`: the store's options end as the pass leaves them, also after a failure. */
  method ValidateStock(db: Db.Store, items: seq<ItemRequest>) returns (r: Outcome)
    modifies db`options
    ensures StockResult(db.options, r) == CheckItems(old(db.options), db.products, items)
  {
    var i := 0;
    while i < |items|
      invariant 0 <= i <= |items|
      invariant CheckItems(old(db.options), db.products, items) == CheckItems(db.options, db.products, items[i..])
    {
      var item := items[i];
      CheckItemsStep(db.options, db.products, items, i);
      if item.productId !in db.products {
        return Fail(NotFound("Product not found"));
      }
      var j := 0;
      assert item.options[j..] == item.options;
      while j < |item.options|
        invariant 0 <= j <= |item.options|
        invariant CheckItems(old(db.options), db.products, items)
          == Continue(CheckOptions(db.options, item.options[j..]), db.products, items[i + 1..])
      {
        var req := item.options[j];
        CheckOptionsStep(db.options, item.options, j);
        if req.id !in db.options {
          return Fail(NotFound("Option not found"));
        }
        var option := db.options[req.id];
        if req.quantity > option.stock {
          return Fail(BadRequest("Not enough stock for option " + option.name));
        }
        db.options := db.options[req.id := option.(stock := option.stock - req.quantity)];
        j := j + 1;
      }
      i := i + 1;
    }
    return Pass;
  }

  /** The quantity of option `k` requested by `reqs`. */
  function RequestedIn(reqs: seq<OptionRequest>, k: OptionId): int
    decreases |reqs|
  {
    if |reqs| == 0 then 0
    else (if reqs[0].id == k then reqs[0].quantity else 0) + RequestedIn(reqs[1..], k)
  }

  /** The quantity of option `k` requested over all items. */
  function Requested(items: seq<ItemRequest>, k: OptionId): int
    decreases |items|
  {
    if |items| == 0 then 0 else RequestedIn(items[0].options, k) + Requested(items[1..], k)
  }

  /** A passing check of one item lowers each option's stock by its requested quantity and changes nothing else. */
  lemma {:induction false} CheckOptionsDecrements(opts: map<OptionId, CatalogOption>, reqs: seq<OptionRequest>)
    requires CheckOptions(opts, reqs).outcome.Pass?
    ensures forall k :: k in opts ==>
      CheckOptions(opts, reqs).options[k] == opts[k].(stock := opts[k].stock - RequestedIn(reqs, k))
    decreases |reqs|
  {
    if |reqs| > 0 {
      var req := reqs[0];
      var next := opts[req.id := opts[req.id].(stock := opts[req.id].stock - req.quantity)];
      CheckOptionsDecrements(next, reqs[1..]);
    }
  }

  /**
   * A passing `validateStock` lowers each option's stock by the total quantity
   * requested for it and leaves every other field and option as it was.
   */
  lemma {:induction false} CheckItemsDecrements(opts: map<OptionId, CatalogOption>, products: map<ProductId, Product>,
                                                items: seq<ItemRequest>)
    requires CheckItems(opts, products, items).outcome.Pass?
    ensures forall k :: k in opts ==>
      CheckItems(opts, products, items).options[k] == opts[k].(stock := opts[k].stock - Requested(items, k))
    decreases |items|
  {
    if |items| > 0 {
      var mid := CheckOptions(opts, items[0].options);
      CheckOptionsDecrements(opts, items[0].options);
      CheckItemsDecrements(mid.options, products, items[1..]);
    }
  }

  /** One item's check keeps every stock non-negative, whatever it ends with. */
  lemma {:induction false} CheckOptionsKeepsStock(opts: map<OptionId, CatalogOption>, reqs: seq<OptionRequest>)
    requires StockNonNegative(opts)
    ensures StockNonNegative(CheckOptions(opts, reqs).options)
    decreases |reqs|
  {
    if |reqs| > 0 {
      var req := reqs[0];
      if req.id in opts && req.quantity <= opts[req.id].stock {
        CheckOptionsKeepsStock(opts[req.id := opts[req.id].(stock := opts[req.id].stock - req.quantity)], reqs[1..]);
      }
    }
  }

  /** Stock never goes negative: a quantity above the stock is refused before any decrement. */
  lemma {:induction false} CheckItemsKeepsStock(opts: map<OptionId, CatalogOption>, products: map<ProductId, Product>,
                                                items: seq<ItemRequest>)
    requires StockNonNegative(opts)
    ensures StockNonNegative(CheckItems(opts, products, items).options)
    decreases |items|
  {
    if |items| > 0 && items[0].productId in products {
      CheckOptionsKeepsStock(opts, items[0].options);
      var mid := CheckOptions(opts, items[0].options);
      if mid.outcome.Pass? {
        CheckItemsKeepsStock(mid.options, products, items[1..]);
      }
    }
  }

  /**
   * Decrements are not rolled back: the first item's option is decremented
   * even though the second item asks for more than there is.
   */
  lemma NoRollback()
    ensures
      var a := CatalogOption("a", "A", "", 5, 100.0, "p");
      var b := CatalogOption("b", "B", "", 1, 100.0, "p");
      var products := map["p" := Product("p", "P", "", 0.0, 0, [], [], 0, None)];
      var items := [ItemRequest("p", [OptionRequest("a", 2)]), ItemRequest("p", [OptionRequest("b", 3)])];
      var r := CheckItems(map["a" := a, "b" := b], products, items);
      r.outcome == Fail(BadRequest("Not enough stock for option B"))
      && r.options == map["a" := a.(stock := 3), "b" := b]
  {
    var a := CatalogOption("a", "A", "", 5, 100.0, "p");
    var b := CatalogOption("b", "B", "", 1, 100.0, "p");
    var products := map["p" := Product("p", "P", "", 0.0, 0, [], [], 0, None)];
    var items := [ItemRequest("p", [OptionRequest("a", 2)]), ItemRequest("p", [OptionRequest("b", 3)])];
    var opts := map["a" := a, "b" := b];
    var after := opts["a" := a.(stock := 3)];
    assert CheckOptions(opts, items[0].options) == StockResult(after, Pass) by {
      assert items[0].options[1..] == [];
    }
    assert items[1..][0] == items[1];
    assert after["b"] == b;
    assert items[1..][0].productId in products;
    assert "Not enough stock for option " + b.name == "Not enough stock for option B";
    assert CheckOptions(after, items[1..][0].options) == StockResult(after, Fail(BadRequest("Not enough stock for option B")));
    assert CheckItems(after, products, items[1..]) == StockResult(after, Fail(BadRequest("Not enough stock for option B")));
    assert after == map["a" := a.(stock := 3), "b" := b];
  }

  /** The inner loop of `sumStock` over one order item's options (lines 636-640). */
  function RestoreOptions(opts: map<OptionId, CatalogOption>, lines: seq<ItemOption>): (r: StockResult)
    ensures r.options.Keys == opts.Keys
    decreases |lines|
  {
    if |lines| == 0 then StockResult(opts, Pass)
    else
      var line := lines[0];
      if line.id !in opts then StockResult(opts, Fail(NotFound("Option not found")))
      else RestoreOptions(opts[line.id := opts[line.id].(stock := opts[line.id].stock + line.quantity)], lines[1..])
  }

  /** After one order item: stop on a failure, otherwise go on with the remaining items. */
  function ContinueRestore(r: StockResult, rest: seq<OrderItem>): StockResult
  {
    if r.outcome.Fail? then r else RestoreItems(r.options, rest)
  }

  /** `sumStock(items)` (lines 634-642). */
  function RestoreItems(opts: map<OptionId, CatalogOption>, items: seq<OrderItem>): (r: StockResult)
    ensures r.options.Keys == opts.Keys
    decreases |items|
  {
    if |items| == 0 then StockResult(opts, Pass)
    else
      var r := RestoreOptions(opts, items[0].options);
      if r.outcome.Fail? then r else RestoreItems(r.options, items[1..])
  }

  /** The restore of the items from `i` on starts with item `i`. */
  lemma RestoreItemsStep(opts: map<OptionId, CatalogOption>, items: seq<OrderItem>, i: nat)
    requires i < |items|
    ensures RestoreItems(opts, items[i..]) == ContinueRestore(RestoreOptions(opts, items[i].options), items[i + 1..])
  {
    assert items[i..][0] == items[i] && items[i..][1..] == items[i + 1..];
  }

  /** The restore of the lines from `j` on starts with line `j`. */
  lemma RestoreOptionsStep(opts: map<OptionId, CatalogOption>, lines: seq<ItemOption>, j: nat)
    requires j < |lines|
    ensures RestoreOptions(opts, lines[j..])
      == if lines[j].id !in opts then StockResult(opts, Fail(NotFound("Option not found")))
         else RestoreOptions(opts[lines[j].id := opts[lines[j].id].(stock := opts[lines[j].id].stock + lines[j].quantity)], lines[j + 1..])
  {
    assert lines[j..][0] == lines[j] && lines[j..][1..] == lines[j + 1..];
  }

  /** `sumStock(items)`: adds each line's quantity back to its option in the store. */
  method SumStock(db: Db.Store, items: seq<OrderItem>) returns (r: Outcome)
    modifies db`options
    ensures StockResult(db.options, r) == RestoreItems(old(db.options), items)
  {
    var i := 0;
    while i < |items|
      invariant 0 <= i <= |items|
      invariant RestoreItems(old(db.options), items) == RestoreItems(db.options, items[i..])
    {
      var item := items[i];
      RestoreItemsStep(db.options, items, i);
      var j := 0;
      assert item.options[j..] == item.options;
      while j < |item.options|
        invariant 0 <= j <= |item.options|
        invariant RestoreItems(old(db.options), items)
          == ContinueRestore(RestoreOptions(db.options, item.options[j..]), items[i + 1..])
      {
        var line := item.options[j];
        RestoreOptionsStep(db.options, item.options, j);
        if line.id !in db.options {
          return Fail(NotFound("Option not found"));
        }
        var option := db.options[line.id];
        db.options := db.options[line.id := option.(stock := option.stock + line.quantity)];
        j := j + 1;
      }
      i := i + 1;
    }
    return Pass;
  }

  /** The quantity of option `k` held by an item's lines. */
  function RestoredIn(lines: seq<ItemOption>, k: OptionId): int
    decreases |lines|
  {
    if |lines| == 0 then 0
    else (if lines[0].id == k then lines[0].quantity else 0) + RestoredIn(lines[1..], k)
  }

  /** The quantity of option `k` held over all order items. */
  function Restored(items: seq<OrderItem>, k: OptionId): int
    decreases |items|
  {
    if |items| == 0 then 0 else RestoredIn(items[0].options, k) + Restored(items[1..], k)
  }

  /** A passing restore of one item raises each option's stock by its quantity on the item. */
  lemma {:induction false} RestoreOptionsIncrements(opts: map<OptionId, CatalogOption>, lines: seq<ItemOption>)
    requires RestoreOptions(opts, lines).outcome.Pass?
    ensures forall k :: k in opts ==>
      RestoreOptions(opts, lines).options[k] == opts[k].(stock := opts[k].stock + RestoredIn(lines, k))
    decreases |lines|
  {
    if |lines| > 0 {
      var line := lines[0];
      RestoreOptionsIncrements(opts[line.id := opts[line.id].(stock := opts[line.id].stock + line.quantity)], lines[1..]);
    }
  }

  /** A passing `sumStock` raises each option's stock by the quantity the order holds of it. */
  lemma {:induction false} RestoreItemsIncrements(opts: map<OptionId, CatalogOption>, items: seq<OrderItem>)
    requires RestoreItems(opts, items).outcome.Pass?
    ensures forall k :: k in opts ==>
      RestoreItems(opts, items).options[k] == opts[k].(stock := opts[k].stock + Restored(items, k))
    decreases |items|
  {
    if |items| > 0 {
      RestoreOptionsIncrements(opts, items[0].options);
      RestoreItemsIncrements(RestoreOptions(opts, items[0].options).options, items[1..]);
    }
  }

  /** The order's items hold the same option lines as the request, item by item. */
  predicate SameLines(orderItems: seq<OrderItem>, reqs: seq<ItemRequest>)
  {
    |orderItems| == |reqs|
    && forall i :: 0 <= i < |reqs| ==>
      |orderItems[i].options| == |reqs[i].options|
      && forall j :: 0 <= j < |reqs[i].options| ==>
        orderItems[i].options[j].id == reqs[i].options[j].id
        && orderItems[i].options[j].quantity == reqs[i].options[j].quantity
  }

  lemma {:induction false} SameLinesInOneItem(lines: seq<ItemOption>, reqs: seq<OptionRequest>, k: OptionId)
    requires |lines| == |reqs|
    requires forall j :: 0 <= j < |reqs| ==> lines[j].id == reqs[j].id && lines[j].quantity == reqs[j].quantity
    ensures RestoredIn(lines, k) == RequestedIn(reqs, k)
    decreases |reqs|
  {
    if |reqs| > 0 {
      SameLinesInOneItem(lines[1..], reqs[1..], k);
    }
  }

  /** The same lines restore what they requested, option by option. */
  lemma {:induction false} SameLinesSameQuantities(orderItems: seq<OrderItem>, reqs: seq<ItemRequest>, k: OptionId)
    requires SameLines(orderItems, reqs)
    ensures Restored(orderItems, k) == Requested(reqs, k)
    decreases |reqs|
  {
    if |reqs| > 0 {
      SameLinesInOneItem(orderItems[0].options, reqs[0].options, k);
      assert SameLines(orderItems[1..], reqs[1..]) by {
        forall i | 0 <= i < |reqs[1..]|
          ensures |orderItems[1..][i].options| == |reqs[1..][i].options|
        {
          assert orderItems[1..][i] == orderItems[i + 1] && reqs[1..][i] == reqs[i + 1];
        }
      }
      SameLinesSameQuantities(orderItems[1..], reqs[1..], k);
    }
  }

  /** A restore of one item passes when every line names a stored option. */
  lemma {:induction false} RestoreOptionsPasses(opts: map<OptionId, CatalogOption>, lines: seq<ItemOption>)
    requires forall j :: 0 <= j < |lines| ==> lines[j].id in opts
    ensures RestoreOptions(opts, lines).outcome.Pass?
    decreases |lines|
  {
    if |lines| > 0 {
      var line := lines[0];
      RestoreOptionsPasses(opts[line.id := opts[line.id].(stock := opts[line.id].stock + line.quantity)], lines[1..]);
    }
  }

  /** `sumStock` passes when every line of every item names a stored option. */
  lemma {:induction false} RestoreItemsPasses(opts: map<OptionId, CatalogOption>, items: seq<OrderItem>)
    requires forall i, j :: 0 <= i < |items| && 0 <= j < |items[i].options| ==> items[i].options[j].id in opts
    ensures RestoreItems(opts, items).outcome.Pass?
    decreases |items|
  {
    if |items| > 0 {
      RestoreOptionsPasses(opts, items[0].options);
      var mid := RestoreOptions(opts, items[0].options);
      assert forall i, j :: 0 <= i < |items[1..]| && 0 <= j < |items[1..][i].options| ==> items[1..][i].options[j].id in mid.options
      by {
        forall i, j | 0 <= i < |items[1..]| && 0 <= j < |items[1..][i].options|
          ensures items[1..][i].options[j].id in mid.options
        {
          assert items[1..][i] == items[i + 1];
        }
      }
      RestoreItemsPasses(mid.options, items[1..]);
    }
  }

  /** Every option a passing check of one item touched is stored. */
  lemma {:induction false} CheckOptionsKnown(opts: map<OptionId, CatalogOption>, reqs: seq<OptionRequest>)
    requires CheckOptions(opts, reqs).outcome.Pass?
    ensures forall j :: 0 <= j < |reqs| ==> reqs[j].id in opts
    decreases |reqs|
  {
    if |reqs| > 0 {
      var req := reqs[0];
      var next := opts[req.id := opts[req.id].(stock := opts[req.id].stock - req.quantity)];
      CheckOptionsKnown(next, reqs[1..]);
      forall j | 0 <= j < |reqs| ensures reqs[j].id in opts {
        if j > 0 {
          assert reqs[j] == reqs[1..][j - 1];
        }
      }
    }
  }

  /** Every option a passing `validateStock` touched is stored. */
  lemma {:induction false} CheckItemsKnown(opts: map<OptionId, CatalogOption>, products: map<ProductId, Product>,
                                           items: seq<ItemRequest>)
    requires CheckItems(opts, products, items).outcome.Pass?
    ensures forall i, j :: 0 <= i < |items| && 0 <= j < |items[i].options| ==> items[i].options[j].id in opts
    decreases |items|
  {
    if |items| > 0 {
      CheckOptionsKnown(opts, items[0].options);
      var mid := CheckOptions(opts, items[0].options);
      CheckItemsKnown(mid.options, products, items[1..]);
      forall i, j | 0 <= i < |items| && 0 <= j < |items[i].options|
        ensures items[i].options[j].id in opts
      {
        if i > 0 {
          assert items[i] == items[1..][i - 1];
        }
      }
    }
  }

  /**
   * `sumStock` undoes `validateStock`: restoring an order whose items hold
   * the request's lines brings every option back to its stock before the check.
   */
  lemma RestoreUndoesCheck(opts: map<OptionId, CatalogOption>, products: map<ProductId, Product>,
                           reqs: seq<ItemRequest>, orderItems: seq<OrderItem>)
    requires CheckItems(opts, products, reqs).outcome.Pass?
    requires SameLines(orderItems, reqs)
    ensures RestoreItems(CheckItems(opts, products, reqs).options, orderItems) == StockResult(opts, Pass)
  {
    var checked := CheckItems(opts, products, reqs).options;
    CheckItemsDecrements(opts, products, reqs);
    CheckItemsKnown(opts, products, reqs);
    assert forall i, j :: 0 <= i < |orderItems| && 0 <= j < |orderItems[i].options| ==> orderItems[i].options[j].id in checked
    by {
      forall i, j | 0 <= i < |orderItems| && 0 <= j < |orderItems[i].options|
        ensures orderItems[i].options[j].id in checked
      {
        assert orderItems[i].options[j].id == reqs[i].options[j].id;
      }
    }
    RestoreItemsPasses(checked, orderItems);
    RestoreItemsIncrements(checked, orderItems);
    var restored := RestoreItems(checked, orderItems).options;
    forall k | k in opts ensures restored[k] == opts[k] {
      SameLinesSameQuantities(orderItems, reqs, k);
    }
    assert restored == opts;
  }
}
