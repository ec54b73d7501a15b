/** The order engine: creating a purchase from its lines (stock check, price,
    stock decrement, then the purchase and its items are saved) and deleting a
    purchase (its items' quantities go back to stock, then the items and the
    purchase are removed). Both run as one transaction: on an error nothing
    they did remains. */
module Purchases {
  import opened Errors
  import opened Inventory

  /** One line of a purchase request: which inventory record, how many. */
  datatype LineItem = LineItem(inventoryId: int, orderedQuantity: int)

  /** A stored item: a request line attached to the purchase it belongs to. */
  datatype Item = Item(inventoryId: int, orderedQuantity: int, purchaseId: int)

  /** A stored purchase: its client and its computed price (the timestamp is left out). */
  datatype Purchase = Purchase(clientId: int, price: nat)

  /** What create's loop has built after some lines: the inventory quantities
      and the price accumulated so far. */
  datatype Tally = Tally(quantities: map<int, int>, price: nat)

  function Abs(x: int): nat
  {
    if x < 0 then -x else x
  }

  predicate NonNegative(quantities: map<int, int>)
  {
    forall id :: id in quantities ==> quantities[id] >= 0
  }

  /** The unit price of product `p`, read from the store of its kind. */
  function UnitPrice(catalog: Catalog, inventoryId: int, p: ProductType): nat
    requires Backs(catalog, inventoryId, p)
  {
    match p
    case Food(_) => catalog.foods[inventoryId].price
    case Toy(_) => catalog.toys[inventoryId].price
    case Medicine(_) => catalog.medicines[inventoryId].price
  }

  /** One pass of create's loop on one line: re-read the record, check the
      stock, resolve the product, add its price, decrement the stock. */
  function Step(t: Tally, catalog: Catalog, line: LineItem): Result<Tally>
  {
    var id := line.inventoryId;
    if id !in t.quantities then Err(NotFound(InventoryRecord, id))
    else
      var available := t.quantities[id];
      if available - line.orderedQuantity >= 0 then
        match FindProductForInventory(t.quantities, catalog, id)
        case Err(e) => Err(e)
        case Ok(p) =>
          Ok(Tally(t.quantities[id := available - line.orderedQuantity],
                   t.price + UnitPrice(catalog, id, p) * Abs(line.orderedQuantity)))
      else
        Err(BadRequest(NotEnoughStock))
  }

  /** Create's loop over `lines` in list order: the quantities and price it
      ends with, or the first error. A successful run keeps the set of records. */
  function Checkout(quantities: map<int, int>, catalog: Catalog, lines: seq<LineItem>): (r: Result<Tally>)
    ensures r.Ok? ==> r.value.quantities.Keys == quantities.Keys
    decreases |lines|
  {
    if lines == [] then Ok(Tally(quantities, 0))
    else
      match Checkout(quantities, catalog, lines[..|lines| - 1])
      case Err(e) => Err(e)
      case Ok(t) => Step(t, catalog, lines[|lines| - 1])
  }

  /** Successful create touches only records that exist and are owned by a
      product, and leaves every record a line touched non-negative (the stock
      check comes before each decrement); so stock that was non-negative
      stays non-negative. */
  lemma {:induction false} CheckoutStockSafe(quantities: map<int, int>, catalog: Catalog, lines: seq<LineItem>)
    requires Checkout(quantities, catalog, lines).Ok?
    ensures forall l :: l in lines ==>
              && FindProductForInventory(quantities, catalog, l.inventoryId).Ok?
              && Checkout(quantities, catalog, lines).value.quantities[l.inventoryId] >= 0
    ensures NonNegative(quantities) ==> NonNegative(Checkout(quantities, catalog, lines).value.quantities)
    decreases |lines|
  {
    if lines != [] {
      var init, last := lines[..|lines| - 1], lines[|lines| - 1];
      CheckoutStockSafe(quantities, catalog, init);
      assert lines == init + [last];
      var t := Checkout(quantities, catalog, init).value;
      assert FindProductForInventory(t.quantities, catalog, last.inventoryId) == FindProductForInventory(quantities, catalog, last.inventoryId);
    }
  }

  /** The part of a line (or item) that falls on inventory record `id`. */
  function Share(inventoryId: int, orderedQuantity: int, id: int): int
  {
    if inventoryId == id then orderedQuantity else 0
  }

  /** Total quantity the lines order from inventory record `id`. */
  function Ordered(lines: seq<LineItem>, id: int): int
  {
    if lines == [] then 0
    else Share(lines[0].inventoryId, lines[0].orderedQuantity, id) + Ordered(lines[1..], id)
  }

  lemma {:induction false} OrderedAppend(lines: seq<LineItem>, line: LineItem, id: int)
    ensures Ordered(lines + [line], id) == Ordered(lines, id) + Share(line.inventoryId, line.orderedQuantity, id)
  {
    if lines == [] {
      assert [] + [line] == [line];
      assert [line][1..] == [];
    } else {
      assert (lines + [line])[1..] == lines[1..] + [line];
      OrderedAppend(lines[1..], line, id);
    }
  }

  /** An error part-way through the lines is the error of the whole run. */
  lemma {:induction false} CheckoutErrorSticks(quantities: map<int, int>, catalog: Catalog, lines: seq<LineItem>, i: nat)
    requires i <= |lines|
    requires Checkout(quantities, catalog, lines[..i]).Err?
    ensures Checkout(quantities, catalog, lines) == Checkout(quantities, catalog, lines[..i])
    decreases |lines|
  {
    if i < |lines| {
      var init := lines[..|lines| - 1];
      assert init[..i] == lines[..i];
      CheckoutErrorSticks(quantities, catalog, init, i);
    } else {
      assert lines[..i] == lines;
    }
  }

  /** One more line of create's loop. */
  lemma CheckoutExtend(quantities: map<int, int>, catalog: Catalog, lines: seq<LineItem>, i: nat, t: Tally)
    requires i < |lines| && Checkout(quantities, catalog, lines[..i]) == Ok(t)
    ensures Checkout(quantities, catalog, lines[..i + 1]) == Step(t, catalog, lines[i])
  {
    assert lines[..i + 1][..i] == lines[..i];
  }

  /** A line that fails part-way through create's loop fails the whole run. */
  lemma CheckoutFailsAt(quantities: map<int, int>, catalog: Catalog, lines: seq<LineItem>, i: nat, t: Tally)
    requires i < |lines| && Checkout(quantities, catalog, lines[..i]) == Ok(t)
    requires Step(t, catalog, lines[i]).Err?
    ensures Checkout(quantities, catalog, lines) == Step(t, catalog, lines[i])
  {
    CheckoutExtend(quantities, catalog, lines, i, t);
    CheckoutErrorSticks(quantities, catalog, lines, i + 1);
  }

  /** Successful create: each record drops by the total its lines order; lines
      repeating a record see the earlier decrements, so the drops add up. */
  lemma {:induction false} CheckoutDecrements(quantities: map<int, int>, catalog: Catalog, lines: seq<LineItem>)
    requires Checkout(quantities, catalog, lines).Ok?
    ensures forall id :: id in quantities ==>
              Checkout(quantities, catalog, lines).value.quantities[id] == quantities[id] - Ordered(lines, id)
    decreases |lines|
  {
    if lines != [] {
      var init, last := lines[..|lines| - 1], lines[|lines| - 1];
      CheckoutDecrements(quantities, catalog, init);
      assert lines == init + [last];
      forall id | id in quantities
        ensures Checkout(quantities, catalog, lines).value.quantities[id] == quantities[id] - Ordered(lines, id)
      {
        OrderedAppend(init, last, id);
      }
    }
  }

  /** The price of one line: the unit price of the product that owns its
      record times the absolute ordered quantity. */
  function LinePrice(quantities: map<int, int>, catalog: Catalog, line: LineItem): nat
  {
    match FindProductForInventory(quantities, catalog, line.inventoryId)
    case Ok(p) => UnitPrice(catalog, line.inventoryId, p) * Abs(line.orderedQuantity)
    case Err(_) => 0
  }

  /** The sum of the line prices; zero for no lines. */
  function OrderPrice(quantities: map<int, int>, catalog: Catalog, lines: seq<LineItem>): nat
  {
    if lines == [] then 0
    else LinePrice(quantities, catalog, lines[0]) + OrderPrice(quantities, catalog, lines[1..])
  }

  lemma {:induction false} OrderPriceAppend(quantities: map<int, int>, catalog: Catalog, lines: seq<LineItem>, line: LineItem)
    ensures OrderPrice(quantities, catalog, lines + [line])
         == OrderPrice(quantities, catalog, lines) + LinePrice(quantities, catalog, line)
  {
    if lines == [] {
      assert [] + [line] == [line];
      assert [line][1..] == [];
    } else {
      assert (lines + [line])[1..] == lines[1..] + [line];
      OrderPriceAppend(quantities, catalog, lines[1..], line);
    }
  }

  /** Successful create: the purchase price is the sum over the lines of unit
      price times absolute quantity, priced from the store of the product
      kind that owns each line's record. */
  lemma {:induction false} CheckoutPrice(quantities: map<int, int>, catalog: Catalog, lines: seq<LineItem>)
    requires Checkout(quantities, catalog, lines).Ok?
    ensures Checkout(quantities, catalog, lines).value.price == OrderPrice(quantities, catalog, lines)
    decreases |lines|
  {
    if lines != [] {
      var init, last := lines[..|lines| - 1], lines[|lines| - 1];
      CheckoutPrice(quantities, catalog, init);
      assert lines == init + [last];
      OrderPriceAppend(quantities, catalog, init, last);
    }
  }

  /** Every line's record exists and is owned by some product. */
  predicate Resolvable(quantities: map<int, int>, catalog: Catalog, lines: seq<LineItem>)
  {
    forall l :: l in lines ==> FindProductForInventory(quantities, catalog, l.inventoryId).Ok?
  }

  predicate NoReturns(lines: seq<LineItem>)
  {
    forall l :: l in lines ==> l.orderedQuantity >= 0
  }

  /** Every record a line refers to holds at least the total the lines order from it. */
  predicate EnoughStock(quantities: map<int, int>, lines: seq<LineItem>)
  {
    forall l :: l in lines ==> l.inventoryId in quantities && Ordered(lines, l.inventoryId) <= quantities[l.inventoryId]
  }

  /** With resolvable lines that order non-negative quantities, create
      succeeds exactly when every record covers the total ordered from it,
      and otherwise it fails with the insufficient-stock BadRequest. */
  lemma {:induction false} CheckoutSucceedsIffEnoughStock(quantities: map<int, int>, catalog: Catalog, lines: seq<LineItem>)
    requires Resolvable(quantities, catalog, lines) && NoReturns(lines)
    ensures Checkout(quantities, catalog, lines).Ok? <==> EnoughStock(quantities, lines)
    ensures Checkout(quantities, catalog, lines).Err? ==>
              Checkout(quantities, catalog, lines).error == BadRequest(NotEnoughStock)
    decreases |lines|
  {
    if lines != [] {
      var init, last := lines[..|lines| - 1], lines[|lines| - 1];
      assert lines == init + [last];
      assert forall l :: l in init ==> l in lines;
      assert last in lines;
      CheckoutSucceedsIffEnoughStock(quantities, catalog, init);
      EnoughStockExtend(quantities, init, last);
      if Checkout(quantities, catalog, init).Ok? {
        var t := Checkout(quantities, catalog, init).value;
        CheckoutDecrements(quantities, catalog, init);
        OrderedAppend(init, last, last.inventoryId);
        assert FindProductForInventory(t.quantities, catalog, last.inventoryId)
            == FindProductForInventory(quantities, catalog, last.inventoryId);
      }
    }
  }

  /** EnoughStock for the lines plus one more line with a non-negative quantity. */
  lemma EnoughStockExtend(quantities: map<int, int>, init: seq<LineItem>, last: LineItem)
    requires last.orderedQuantity >= 0
    ensures EnoughStock(quantities, init + [last]) <==>
              && EnoughStock(quantities, init)
              && last.inventoryId in quantities
              && Ordered(init + [last], last.inventoryId) <= quantities[last.inventoryId]
  {
    var lines := init + [last];
    forall id
      ensures Ordered(lines, id) == Ordered(init, id) + Share(last.inventoryId, last.orderedQuantity, id)
    {
      OrderedAppend(init, last, id);
    }
    assert forall l :: l in lines <==> l in init || l == last;
  }

  /** A purchase with no lines is accepted, costs nothing and changes no stock. */
  lemma EmptyOrderIsFree(quantities: map<int, int>, catalog: Catalog)
    ensures Checkout(quantities, catalog, []) == Ok(Tally(quantities, 0))
  {
  }

  /** The worked example: record 1 holds 50 and backs a food priced 12;
      ordering 5 of it costs 60 and leaves 45. */
  lemma CheckoutExample()
    ensures Checkout(map[1 := 50], Catalog(map[1 := Product(1, 12)], map[], map[]), [LineItem(1, 5)])
         == Ok(Tally(map[1 := 45], 60))
  {
    assert [LineItem(1, 5)][..0] == [];
    assert map[1 := 50][1 := 45] == map[1 := 45];
  }

  /** Ordering 11 from a record that holds 10 is refused with the insufficient-stock BadRequest. */
  lemma NotEnoughStockExample()
    ensures Checkout(map[1 := 10], Catalog(map[1 := Product(1, 12)], map[], map[]), [LineItem(1, 11)])
         == Err(BadRequest(NotEnoughStock))
  {
  }

  /** Each line sees the decrements of the lines before it: two lines of 30
      on a record holding 50 are refused although either alone would pass. */
  lemma RepeatedRecordExample()
    ensures Checkout(map[1 := 50], Catalog(map[1 := Product(1, 12)], map[], map[]), [LineItem(1, 30), LineItem(1, 30)])
         == Err(BadRequest(NotEnoughStock))
  {
  }

  /** The ids the database generates for `n` saves in a row, starting at `base`. */
  function Range(base: int, n: nat): (ids: set<int>)
    ensures forall k :: k in ids <==> base <= k < base + n
    ensures |ids| == n
  {
    if n == 0 then {} else Range(base, n - 1) + {base + n - 1}
  }

  lemma RangeDropLast(base: int, n: nat)
    requires n > 0
    ensures Range(base, n) - {base + n - 1} == Range(base, n - 1)
  {
  }

  /** The items create saves, one per line, numbered from `base` in line order,
      each attached to purchase `purchaseId`. */
  function NewItems(base: int, lines: seq<LineItem>, purchaseId: int): map<int, Item>
  {
    map k | k in Range(base, |lines|) :: Item(lines[k - base].inventoryId, lines[k - base].orderedQuantity, purchaseId)
  }

  /** Successful create stores exactly one item per line, and each refers to the purchase. */
  lemma NewItemsOnePerLine(base: int, lines: seq<LineItem>, purchaseId: int)
    ensures |NewItems(base, lines, purchaseId)| == |lines|
    ensures forall k :: k in NewItems(base, lines, purchaseId) ==> NewItems(base, lines, purchaseId)[k].purchaseId == purchaseId
  {
    assert NewItems(base, lines, purchaseId).Keys == Range(base, |lines|);
  }

  /** `items` holds the entries of `previous` (all below `base`) and one
      item per line, numbered from `base` in line order. */
  ghost predicate SavedSoFar(items: map<int, Item>, previous: map<int, Item>, base: int, lines: seq<LineItem>, purchaseId: int)
  {
    && (forall k :: k in items <==> k in previous || base <= k < base + |lines|)
    && (forall k :: k in previous ==> k < base && items[k] == previous[k])
    && (forall k :: base <= k < base + |lines| ==>
          items[k] == Item(lines[k - base].inventoryId, lines[k - base].orderedQuantity, purchaseId))
  }

  /** Saving the next line's item under the next id keeps SavedSoFar. */
  lemma SavedOneMore(items: map<int, Item>, previous: map<int, Item>, base: int, lines: seq<LineItem>, j: nat, purchaseId: int)
    requires j < |lines| && SavedSoFar(items, previous, base, lines[..j], purchaseId)
    ensures SavedSoFar(items[base + j := Item(lines[j].inventoryId, lines[j].orderedQuantity, purchaseId)],
                       previous, base, lines[..j + 1], purchaseId)
  {
  }

  /** Once every line is saved, the items are the old ones plus NewItems. */
  lemma SavedAll(items: map<int, Item>, previous: map<int, Item>, base: int, lines: seq<LineItem>, purchaseId: int)
    requires SavedSoFar(items, previous, base, lines, purchaseId)
    ensures items == previous + NewItems(base, lines, purchaseId)
  {
    var expected := previous + NewItems(base, lines, purchaseId);
    assert items.Keys == expected.Keys;
    forall k | k in items
      ensures items[k] == expected[k]
    {
    }
  }

  /** itemService.findByPurchaseId: the ids of the items of a purchase. */
  function ItemsOf(items: map<int, Item>, purchaseId: int): (ids: set<int>)
    ensures ids <= items.Keys
    ensures forall k :: k in items ==> (k in ids <==> items[k].purchaseId == purchaseId)
  {
    set k | k in items && items[k].purchaseId == purchaseId
  }

  lemma HasElement(s: set<int>)
    requires s != {}
    ensures exists x :: x in s
  {
    assert (forall x :: x !in s) ==> s == {};
  }

  /** Some element of a non-empty set. */
  ghost function Pick(s: set<int>): (x: int)
    requires s != {}
    ensures x in s
  {
    HasElement(s);
    var x :| x in s; x
  }

  /** Total quantity the items `ids` took from inventory record `id`. */
  ghost function Returned(items: map<int, Item>, ids: set<int>, id: int): int
    requires ids <= items.Keys
    decreases ids
  {
    if ids == {} then 0
    else
      var k := Pick(ids);
      Share(items[k].inventoryId, items[k].orderedQuantity, id) + Returned(items, ids - {k}, id)
  }

  /** The sum does not depend on the order the items are taken in. */
  lemma {:induction false} ReturnedRemove(items: map<int, Item>, ids: set<int>, k: int, id: int)
    requires ids <= items.Keys && k in ids
    ensures Returned(items, ids, id)
         == Share(items[k].inventoryId, items[k].orderedQuantity, id) + Returned(items, ids - {k}, id)
    decreases ids
  {
    var m := Pick(ids);
    if m != k {
      ReturnedRemove(items, ids - {m}, k, id);
      ReturnedRemove(items, ids - {k}, m, id);
      assert ids - {m} - {k} == ids - {k} - {m};
    }
  }

  /** The sum reads only the items it sums over. */
  lemma {:induction false} ReturnedFrame(items: map<int, Item>, other: map<int, Item>, ids: set<int>, id: int)
    requires ids <= items.Keys && ids <= other.Keys
    requires forall k :: k in ids ==> items[k] == other[k]
    ensures Returned(items, ids, id) == Returned(other, ids, id)
    decreases ids
  {
    if ids != {} {
      ReturnedFrame(items, other, ids - {Pick(ids)}, id);
    }
  }

  /** The quantities after deleteById has put back what the items `ids` took. */
  ghost function Restock(quantities: map<int, int>, items: map<int, Item>, ids: set<int>): map<int, int>
    requires ids <= items.Keys
  {
    map id | id in quantities :: quantities[id] + Returned(items, ids, id)
  }

  /** Putting back one more item's quantity, on a record that exists, extends the restock by that item. */
  lemma RestockStep(quantities: map<int, int>, items: map<int, Item>, done: set<int>, k: int)
    requires done <= items.Keys && k in items && k !in done
    requires MissingInventories(quantities, items, done) == {}
    requires items[k].inventoryId in quantities
    ensures MissingInventories(quantities, items, done + {k}) == {}
    ensures var q, it := Restock(quantities, items, done), items[k];
            Restock(quantities, items, done + {k}) == q[it.inventoryId := q[it.inventoryId] + it.orderedQuantity]
  {
    var it := items[k];
    forall i | i in quantities
      ensures Returned(items, done + {k}, i) == Share(it.inventoryId, it.orderedQuantity, i) + Returned(items, done, i)
    {
      ReturnedRemove(items, done + {k}, k, i);
      assert done + {k} - {k} == done;
    }
  }

  /** The inventory ids that items `ids` refer to and that no longer exist. */
  function MissingInventories(quantities: map<int, int>, items: map<int, Item>, ids: set<int>): set<int>
    requires ids <= items.Keys
  {
    set k | k in ids && items[k].inventoryId !in quantities :: items[k].inventoryId
  }

  /** The items create saves put back exactly what the lines ordered. */
  lemma {:induction false} ReturnedNewItems(base: int, lines: seq<LineItem>, purchaseId: int, id: int)
    ensures Returned(NewItems(base, lines, purchaseId), NewItems(base, lines, purchaseId).Keys, id) == Ordered(lines, id)
    decreases |lines|
  {
    if lines == [] {
      assert NewItems(base, lines, purchaseId).Keys == {};
    } else {
      var init, last := lines[..|lines| - 1], lines[|lines| - 1];
      var all, head := NewItems(base, lines, purchaseId), NewItems(base, init, purchaseId);
      calc {
        Returned(all, all.Keys, id);
      == { ReturnedNewItemsLast(base, lines, purchaseId, id); }
        Share(last.inventoryId, last.orderedQuantity, id) + Returned(head, head.Keys, id);
      == { ReturnedNewItems(base, init, purchaseId, id); }
        Share(last.inventoryId, last.orderedQuantity, id) + Ordered(init, id);
      == { OrderedAppend(init, last, id); assert lines == init + [last]; }
        Ordered(lines, id);
      }
    }
  }

  /** The items of all lines put back what the last line took plus what the other items put back. */
  lemma ReturnedNewItemsLast(base: int, lines: seq<LineItem>, purchaseId: int, id: int)
    requires lines != []
    ensures var all, head := NewItems(base, lines, purchaseId), NewItems(base, lines[..|lines| - 1], purchaseId);
            Returned(all, all.Keys, id)
              == Share(lines[|lines| - 1].inventoryId, lines[|lines| - 1].orderedQuantity, id) + Returned(head, head.Keys, id)
  {
    var all, head := NewItems(base, lines, purchaseId), NewItems(base, lines[..|lines| - 1], purchaseId);
    NewItemsSplit(base, lines, purchaseId);
    ReturnedSplit(all, head, base + |lines| - 1, id);
  }

  /** Summing over a map is summing over one entry plus the map without it. */
  lemma ReturnedSplit(all: map<int, Item>, rest: map<int, Item>, k: int, id: int)
    requires k in all && all.Keys - {k} == rest.Keys
    requires forall j :: j in rest ==> j in all && all[j] == rest[j]
    ensures Returned(all, all.Keys, id) == Share(all[k].inventoryId, all[k].orderedQuantity, id) + Returned(rest, rest.Keys, id)
  {
    ReturnedRemove(all, all.Keys, k, id);
    ReturnedFrame(all, rest, rest.Keys, id);
  }

  /** The items of all lines are the items of all but the last line plus the last line's item. */
  lemma NewItemsSplit(base: int, lines: seq<LineItem>, purchaseId: int)
    requires lines != []
    ensures var all, k := NewItems(base, lines, purchaseId), base + |lines| - 1;
            var head := NewItems(base, lines[..|lines| - 1], purchaseId);
            && k in all
            && all[k] == Item(lines[|lines| - 1].inventoryId, lines[|lines| - 1].orderedQuantity, purchaseId)
            && all.Keys - {k} == head.Keys
            && forall j :: j in head ==> j in all && all[j] == head[j]
  {
    var all, k := NewItems(base, lines, purchaseId), base + |lines| - 1;
    var init := lines[..|lines| - 1];
    var head := NewItems(base, init, purchaseId);
    RangeDropLast(base, |lines|);
    assert all.Keys - {k} == head.Keys;
    forall j | j in head ensures j in all && all[j] == head[j] {
      assert init[j - base] == lines[j - base];
    }
  }

  /** Stock conservation: deleting the purchase a successful create saved puts
      every inventory quantity back to its value before the create, and none
      of its items refers to a missing record. */
  lemma CreateThenDeleteRestoresStock(quantities: map<int, int>, catalog: Catalog, lines: seq<LineItem>,
                                      items: map<int, Item>, base: int, purchaseId: int)
    requires Checkout(quantities, catalog, lines).Ok?
    requires forall k :: k in items ==> k < base && items[k].purchaseId != purchaseId
    ensures var stored := items + NewItems(base, lines, purchaseId);
            && ItemsOf(stored, purchaseId) == NewItems(base, lines, purchaseId).Keys
            && MissingInventories(Checkout(quantities, catalog, lines).value.quantities, stored, ItemsOf(stored, purchaseId)) == {}
            && Restock(Checkout(quantities, catalog, lines).value.quantities, stored, ItemsOf(stored, purchaseId)) == quantities
  {
    NewItemsOwned(items, base, lines, purchaseId);
    NewItemsResolve(quantities, catalog, lines, items, base, purchaseId);
    NewItemsRestock(quantities, catalog, lines, items, base, purchaseId);
  }

  /** The items of the new purchase are exactly the items create saved for it. */
  lemma NewItemsOwned(items: map<int, Item>, base: int, lines: seq<LineItem>, purchaseId: int)
    requires forall k :: k in items ==> k < base && items[k].purchaseId != purchaseId
    ensures ItemsOf(items + NewItems(base, lines, purchaseId), purchaseId) == NewItems(base, lines, purchaseId).Keys
  {
    var added := NewItems(base, lines, purchaseId);
    var owned := ItemsOf(items + added, purchaseId);
    forall k ensures k in owned <==> k in added {
      if k in items {
        assert k !in added;
      }
    }
  }

  /** Every item a successful create saved refers to a record that is still there. */
  lemma NewItemsResolve(quantities: map<int, int>, catalog: Catalog, lines: seq<LineItem>,
                        items: map<int, Item>, base: int, purchaseId: int)
    requires Checkout(quantities, catalog, lines).Ok?
    ensures var added := NewItems(base, lines, purchaseId);
            MissingInventories(Checkout(quantities, catalog, lines).value.quantities, items + added, added.Keys) == {}
  {
    var added := NewItems(base, lines, purchaseId);
    var after := Checkout(quantities, catalog, lines).value.quantities;
    CheckoutStockSafe(quantities, catalog, lines);
    forall k | k in added ensures (items + added)[k].inventoryId in after {
      var l := lines[k - base];
      assert l in lines;
    }
  }

  /** Putting back what the saved items took undoes the decrements of a successful create. */
  lemma NewItemsRestock(quantities: map<int, int>, catalog: Catalog, lines: seq<LineItem>,
                        items: map<int, Item>, base: int, purchaseId: int)
    requires Checkout(quantities, catalog, lines).Ok?
    ensures var added := NewItems(base, lines, purchaseId);
            Restock(Checkout(quantities, catalog, lines).value.quantities, items + added, added.Keys) == quantities
  {
    var added := NewItems(base, lines, purchaseId);
    var stored := items + added;
    var after := Checkout(quantities, catalog, lines).value.quantities;
    CheckoutDecrements(quantities, catalog, lines);
    forall id | id in quantities ensures Restock(after, stored, added.Keys)[id] == quantities[id] {
      ReturnedFrame(stored, added, added.Keys, id);
      ReturnedNewItems(base, lines, purchaseId, id);
    }
  }

  /** The purchase service: the purchase and item stores, and the inventory
      service it updates. */
  class PurchaseService {
    var purchases: map<int, Purchase>
    var items: map<int, Item>
    var nextPurchaseId: int
    var nextItemId: int
    const inventory: InventoryService

    /** Generated ids stay below their counters, and every stored item
        refers to a stored purchase. */
    ghost predicate Valid()
      reads this, inventory
    {
      && inventory.Valid()
      && (forall id :: id in purchases ==> id < nextPurchaseId)
      && (forall k :: k in items ==> k < nextItemId && items[k].purchaseId in purchases)
    }

    constructor (inventory: InventoryService)
      requires inventory.Valid()
      ensures Valid() && this.inventory == inventory
      ensures purchases == map[] && items == map[]
    {
      this.inventory := inventory;
      purchases := map[];
      items := map[];
      nextPurchaseId := 1;
      nextItemId := 1;
    }

    /** findById: the purchase with that id, or NotFound. */
    function FindById(id: int): (r: Result<Purchase>)
      reads this
      ensures r.Ok? <==> id in purchases
      ensures r.Ok? ==> r.value == purchases[id]
      ensures r.Err? ==> r.error == NotFound(PurchaseRecord, id)
    {
      if id in purchases then Ok(purchases[id]) else Err(NotFound(PurchaseRecord, id))
    }

    /** One pass of create's first loop: re-read the line's inventory record,
        check the stock, resolve the product, then write the decremented record
        back and answer the price so far plus this line's price. A failed pass
        writes nothing. */
    method TakeLine(line: LineItem, price: nat) returns (r: Result<nat>)
      requires inventory.Valid()
      modifies inventory`quantities
      ensures inventory.Valid()
      ensures r.Err? ==> Step(Tally(old(inventory.quantities), price), inventory.catalog, line) == Err(r.error)
                         && inventory.quantities == old(inventory.quantities)
      ensures r.Ok? ==> Step(Tally(old(inventory.quantities), price), inventory.catalog, line)
                          == Ok(Tally(inventory.quantities, r.value))
    {
      var found := inventory.FindById(line.inventoryId);
      if found.Err? {
        return Err(found.error);
      }
      var available := found.value;
      if available - line.orderedQuantity >= 0 {
        var product := FindProductForInventory(inventory.quantities, inventory.catalog, line.inventoryId);
        if product.Err? {
          return Err(product.error);
        }
        var total := price + UnitPrice(inventory.catalog, line.inventoryId, product.value) * Abs(line.orderedQuantity);
        var saved := inventory.Update(line.inventoryId, available - line.orderedQuantity);
        r := Ok(total);
      } else {
        r := Err(BadRequest(NotEnoughStock));
      }
    }

    /** create's first loop: takes stock line by line in order and accumulates
        the price. On an error the decrements already written are rolled back
        with the transaction. */
    method TakeStock(lines: seq<LineItem>) returns (r: Result<nat>)
      requires inventory.Valid()
      modifies inventory`quantities
      ensures inventory.Valid()
      ensures Checkout(old(inventory.quantities), inventory.catalog, lines).Err? ==>
                && r == Err(Checkout(old(inventory.quantities), inventory.catalog, lines).error)
                && inventory.quantities == old(inventory.quantities)
      ensures Checkout(old(inventory.quantities), inventory.catalog, lines).Ok? ==>
                && r == Ok(Checkout(old(inventory.quantities), inventory.catalog, lines).value.price)
                && inventory.quantities == Checkout(old(inventory.quantities), inventory.catalog, lines).value.quantities
    {
      var catalog := inventory.catalog;
      var before := inventory.quantities;
      var price: nat := 0;
      var i := 0;
      while i < |lines|
        invariant 0 <= i <= |lines|
        invariant inventory.Valid() && inventory.catalog == catalog
        invariant Checkout(before, catalog, lines[..i]) == Ok(Tally(inventory.quantities, price))
        modifies inventory`quantities
      {
        ghost var t := Tally(inventory.quantities, price);
        var step := TakeLine(lines[i], price);
        if step.Err? {
          CheckoutFailsAt(before, catalog, lines, i, t);
          inventory.quantities := before;
          return Err(step.error);
        }
        CheckoutExtend(before, catalog, lines, i, t);
        price := step.value;
        i := i + 1;
      }
      assert lines[..i] == lines;
      r := Ok(price);
    }

    /** create's second loop: attach each line to the saved purchase and save
        it as an item under a freshly generated id. */
    method SaveItems(purchaseId: int, lines: seq<LineItem>)
      requires Valid() && purchaseId in purchases
      modifies this`items, this`nextItemId
      ensures Valid()
      ensures nextItemId == old(nextItemId) + |lines|
      ensures items == old(items) + NewItems(old(nextItemId), lines, purchaseId)
    {
      ghost var base, previous := nextItemId, items;
      var j := 0;
      while j < |lines|
        invariant 0 <= j <= |lines|
        invariant nextItemId == base + j
        invariant SavedSoFar(items, previous, base, lines[..j], purchaseId)
        invariant forall k :: k in items ==> k < nextItemId && items[k].purchaseId in purchases
      {
        SavedOneMore(items, previous, base, lines, j, purchaseId);
        items := items[nextItemId := Item(lines[j].inventoryId, lines[j].orderedQuantity, purchaseId)];
        nextItemId := nextItemId + 1;
        j := j + 1;
      }
      assert lines[..j] == lines;
      SavedAll(items, previous, base, lines, purchaseId);
    }

    /** create: takes stock and prices the lines, then saves the purchase with
        the accumulated price, then saves one item per line attached to it.
        Any error leaves every store as it was and saves nothing. */
    method Create(clientId: int, lines: seq<LineItem>) returns (r: Result<int>)
      requires Valid()
      modifies this, inventory`quantities
      ensures Valid()
      ensures Checkout(old(inventory.quantities), inventory.catalog, lines).Err? ==>
                && r == Err(Checkout(old(inventory.quantities), inventory.catalog, lines).error)
                && inventory.quantities == old(inventory.quantities)
                && purchases == old(purchases) && items == old(items)
                && nextPurchaseId == old(nextPurchaseId) && nextItemId == old(nextItemId)
      ensures Checkout(old(inventory.quantities), inventory.catalog, lines).Ok? ==>
                var t := Checkout(old(inventory.quantities), inventory.catalog, lines).value;
                && r == Ok(old(nextPurchaseId))
                && old(nextPurchaseId) !in old(purchases)
                && inventory.quantities == t.quantities
                && purchases == old(purchases)[old(nextPurchaseId) := Purchase(clientId, t.price)]
                && items == old(items) + NewItems(old(nextItemId), lines, old(nextPurchaseId))
                && (forall k :: k in old(items) ==> k < old(nextItemId))
    {
      var priced := TakeStock(lines);
      if priced.Err? {
        return Err(priced.error);
      }
      var purchaseId := nextPurchaseId;
      nextPurchaseId := nextPurchaseId + 1;
      purchases := purchases[purchaseId := Purchase(clientId, priced.value)];
      SaveItems(purchaseId, lines);
      r := Ok(purchaseId);
    }

    /** deleteById: puts each of the purchase's items' quantity back on its
        inventory record and deletes the item, then deletes the purchase.
        A missing purchase fails with NotFound; an item whose record no longer
        exists fails with NotFound on that record and undoes everything. */
    method DeleteById(id: int) returns (r: Result<()>)
      requires Valid()
      modifies this, inventory`quantities
      ensures Valid()
      ensures nextPurchaseId == old(nextPurchaseId) && nextItemId == old(nextItemId)
      ensures id !in old(purchases) ==>
                && r == Err(NotFound(PurchaseRecord, id))
                && inventory.quantities == old(inventory.quantities)
                && purchases == old(purchases) && items == old(items)
      ensures id in old(purchases) ==>
                var owned := ItemsOf(old(items), id);
                var missing := MissingInventories(old(inventory.quantities), old(items), owned);
                && (r.Ok? <==> missing == {})
                && (r.Ok? ==>
                      && inventory.quantities == Restock(old(inventory.quantities), old(items), owned)
                      && items == old(items) - owned
                      && purchases == old(purchases) - {id})
                && (r.Err? ==>
                      && r.error.NotFound? && r.error.entity == InventoryRecord && r.error.id in missing
                      && inventory.quantities == old(inventory.quantities)
                      && purchases == old(purchases) && items == old(items))
    {
      if id !in purchases {
        return Err(NotFound(PurchaseRecord, id));
      }
      var before := inventory.quantities;
      var stored := items;
      var owned := ItemsOf(items, id);
      var remaining := owned;
      ghost var done: set<int> := {};
      while remaining != {}
        invariant done <= owned && remaining == owned - done
        invariant inventory.Valid()
        invariant items == stored - done
        invariant MissingInventories(before, stored, done) == {}
        invariant inventory.quantities == Restock(before, stored, done)
        modifies this`items, inventory`quantities
        decreases remaining
      {
        HasElement(remaining);
        var k :| k in remaining;
        var it := items[k];
        if it.inventoryId !in inventory.quantities {
          assert it == stored[k] && k in owned;
          assert it.inventoryId in MissingInventories(before, stored, owned);
          inventory.quantities := before;
          items := stored;
          return Err(NotFound(InventoryRecord, it.inventoryId));
        }
        RestockStep(before, stored, done, k);
        var saved := inventory.Update(it.inventoryId, inventory.quantities[it.inventoryId] + it.orderedQuantity);
        items := items - {k};
        remaining := remaining - {k};
        done := done + {k};
      }
      assert done == owned;
      purchases := purchases - {id};
      r := Ok(());
    }

    /** update: replaces an existing purchase; a missing id fails and saves nothing. */
    method Update(id: int, purchase: Purchase) returns (r: Result<Purchase>)
      requires Valid()
      modifies this`purchases
      ensures Valid()
      ensures id in old(purchases) ==> r == Ok(purchase) && purchases == old(purchases)[id := purchase]
      ensures id !in old(purchases) ==> r == Err(NotFound(PurchaseRecord, id)) && purchases == old(purchases)
    {
      if id in purchases {
        purchases := purchases[id := purchase];
        r := Ok(purchase);
      } else {
        r := Err(NotFound(PurchaseRecord, id));
      }
    }
  }

  /** Stock conservation through the service: a create followed by deleting
      the purchase it returned leaves the inventory, purchase and item stores
      as they were (a failed create changes none of them in the first place). */
  method CreateThenDelete(service: PurchaseService, clientId: int, lines: seq<LineItem>) returns (r: Result<int>)
    requires service.Valid()
    modifies service, service.inventory`quantities
    ensures service.Valid()
    ensures service.inventory.quantities == old(service.inventory.quantities)
    ensures service.purchases == old(service.purchases) && service.items == old(service.items)
  {
    ghost var quantities, items := service.inventory.quantities, service.items;
    ghost var base := service.nextItemId;
    r := service.Create(clientId, lines);
    if r.Ok? {
      var purchaseId := r.value;
      CreateThenDeleteRestoresStock(quantities, service.inventory.catalog, lines, items, base, purchaseId);
      var deleted := service.DeleteById(purchaseId);
      assert service.items == items by {
        assert (items + NewItems(base, lines, purchaseId)) - NewItems(base, lines, purchaseId).Keys == items;
      }
    }
  }
}
