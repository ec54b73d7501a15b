/** The inventory store and the product resolver.
    An inventory record is a stock ledger entry: its id and its available
    quantity. Each food, toy or medicine owns one inventory record; the three
    product stores are keyed here by the id of the inventory record their
    product owns, which is how the service queries them
    (existsByInventoryId, findByInventoryId). */
module Inventory {
  import opened Errors

  /** A food, toy or medicine as the order engine sees it: its own id and its unit price. */
  datatype Product = Product(id: int, price: nat)

  /** The food, toy and medicine stores, each keyed by the inventory id its products own. */
  datatype Catalog = Catalog(foods: map<int, Product>, toys: map<int, Product>, medicines: map<int, Product>)

  /** The value findProductForInventory returns: the kind of product ("food", "toy",
      "medicine") and that product's id. */
  datatype ProductType = Food(id: int) | Toy(id: int) | Medicine(id: int)

  /** The three product stores, named. */
  datatype Store = FoodStore | ToyStore | MedicineStore

  function StoreOf(p: ProductType): Store
  {
    match p
    case Food(_) => FoodStore
    case Toy(_) => ToyStore
    case Medicine(_) => MedicineStore
  }

  /** The resolver's fixed order of preference: food, then toy, then medicine. */
  function Priority(s: Store): nat
  {
    match s
    case FoodStore => 0
    case ToyStore => 1
    case MedicineStore => 2
  }

  function Products(catalog: Catalog, s: Store): map<int, Product>
  {
    match s
    case FoodStore => catalog.foods
    case ToyStore => catalog.toys
    case MedicineStore => catalog.medicines
  }

  /** `p` names a product of its kind that owns inventory record `inventoryId`. */
  predicate Backs(catalog: Catalog, inventoryId: int, p: ProductType)
  {
    var products := Products(catalog, StoreOf(p));
    inventoryId in products && products[inventoryId].id == p.id
  }

  /** At most one of the three stores has a product owning `inventoryId`. */
  predicate Exclusive(catalog: Catalog, inventoryId: int)
  {
    (inventoryId in catalog.foods ==> inventoryId !in catalog.toys && inventoryId !in catalog.medicines)
    && (inventoryId in catalog.toys ==> inventoryId !in catalog.medicines)
  }

  /** findProductForInventory: which product owns inventory record `id`.
      It succeeds exactly when the record exists and some product owns it, and
      then answers with the owner of highest priority; a missing record and an
      orphan record both fail with NotFound naming the inventory id. */
  function FindProductForInventory(quantities: map<int, int>, catalog: Catalog, id: int): (r: Result<ProductType>)
    ensures r.Ok? <==> id in quantities && exists p :: Backs(catalog, id, p)
    ensures r.Ok? ==> Backs(catalog, id, r.value)
    ensures r.Ok? ==> forall p :: Backs(catalog, id, p) ==> Priority(StoreOf(r.value)) <= Priority(StoreOf(p))
    ensures r.Err? ==> r.error == NotFound(InventoryRecord, id)
  {
    if id in quantities then
      if id in catalog.foods then
        var p := Food(catalog.foods[id].id);
        assert Backs(catalog, id, p);
        Ok(p)
      else if id in catalog.toys then
        var p := Toy(catalog.toys[id].id);
        assert Backs(catalog, id, p);
        Ok(p)
      else if id in catalog.medicines then
        var p := Medicine(catalog.medicines[id].id);
        assert Backs(catalog, id, p);
        Ok(p)
      else Err(NotFound(InventoryRecord, id))
    else
      Err(NotFound(InventoryRecord, id))
  }

  /** The stores findProductForInventory queries with existsByInventoryId, in the
      order it queries them: none when the inventory record is missing, and it
      stops at the first store that answers yes or after the medicine store. */
  function Probes(quantities: map<int, int>, catalog: Catalog, id: int): (probes: seq<Store>)
    ensures id !in quantities ==> probes == []
    ensures id in quantities ==> probes != [] && (id in Products(catalog, probes[|probes| - 1]) || |probes| == 3)
    ensures forall j :: 0 <= j < |probes| ==> Priority(probes[j]) == j
    ensures forall j :: 0 <= j < |probes| - 1 ==> id !in Products(catalog, probes[j])
    ensures FindProductForInventory(quantities, catalog, id).Ok? <==>
              probes != [] && id in Products(catalog, probes[|probes| - 1])
    ensures FindProductForInventory(quantities, catalog, id).Ok? ==>
              probes[|probes| - 1] == StoreOf(FindProductForInventory(quantities, catalog, id).value)
  {
    if id !in quantities then []
    else if id in catalog.foods then [FoodStore]
    else if id in catalog.toys then [FoodStore, ToyStore]
    else [FoodStore, ToyStore, MedicineStore]
  }

  /** When the stores are consistent (one owner per inventory record), the
      priority order is never needed: the resolver returns the owner. */
  lemma ExclusiveResolvesToOwner(quantities: map<int, int>, catalog: Catalog, id: int, p: ProductType)
    requires id in quantities && Exclusive(catalog, id) && Backs(catalog, id, p)
    ensures FindProductForInventory(quantities, catalog, id) == Ok(p)
  {
  }

  /** An orphan record, one that exists but that no product owns, is looked
      up in all three stores, in priority order, and the resolver then fails
      with NotFound on the inventory id. */
  lemma OrphanProbesAllStores(quantities: map<int, int>, catalog: Catalog, id: int)
    requires id in quantities
    requires id !in catalog.foods && id !in catalog.toys && id !in catalog.medicines
    ensures Probes(quantities, catalog, id) == [FoodStore, ToyStore, MedicineStore]
    ensures FindProductForInventory(quantities, catalog, id) == Err(NotFound(InventoryRecord, id))
  {
  }

  /** A record owned only by a toy resolves to that toy; a record nobody owns fails with NotFound. */
  lemma ResolverExamples()
    ensures FindProductForInventory(map[4 := 10], Catalog(map[], map[4 := Product(9, 3)], map[]), 4) == Ok(Toy(9))
    ensures FindProductForInventory(map[4 := 10], Catalog(map[], map[], map[]), 4) == Err(NotFound(InventoryRecord, 4))
  {
  }

  /** The inventory service's store of records: inventory id to available quantity. */
  class InventoryService {
    var quantities: map<int, int>
    /** The product stores the resolver queries; no operation here changes them. */
    var catalog: Catalog
    /** The next id the database hands out. */
    var nextId: int

    ghost predicate Valid()
      reads this
    {
      forall id :: id in quantities ==> id < nextId
    }

    constructor (catalog: Catalog)
      ensures Valid() && quantities == map[] && this.catalog == catalog
    {
      quantities := map[];
      this.catalog := catalog;
      nextId := 1;
    }

    /** findById: the available quantity of the record with that id, or NotFound. */
    function FindById(id: int): (r: Result<int>)
      reads this
      ensures r.Ok? <==> id in quantities
      ensures r.Ok? ==> r.value == quantities[id]
      ensures r.Err? ==> r.error == NotFound(InventoryRecord, id)
    {
      if id in quantities then Ok(quantities[id]) else Err(NotFound(InventoryRecord, id))
    }

    /** create: saves a new record under a freshly generated id. */
    method Create(availableQuantity: int) returns (id: int)
      requires Valid()
      modifies this`quantities, this`nextId
      ensures Valid()
      ensures id !in old(quantities) && quantities == old(quantities)[id := availableQuantity]
    {
      id := nextId;
      nextId := nextId + 1;
      quantities := quantities[id := availableQuantity];
    }

    /** update: replaces an existing record; a missing id fails and saves nothing. */
    method Update(id: int, availableQuantity: int) returns (r: Result<int>)
      requires Valid()
      modifies this`quantities
      ensures Valid()
      ensures id in old(quantities) ==> r == Ok(availableQuantity) && quantities == old(quantities)[id := availableQuantity]
      ensures id !in old(quantities) ==> r == Err(NotFound(InventoryRecord, id)) && quantities == old(quantities)
    {
      if id in quantities {
        quantities := quantities[id := availableQuantity];
        r := Ok(availableQuantity);
      } else {
        r := Err(NotFound(InventoryRecord, id));
      }
    }

    /** deleteById: removes that one record; a missing id fails and deletes nothing. */
    method DeleteById(id: int) returns (r: Result<()>)
      requires Valid()
      modifies this`quantities
      ensures Valid()
      ensures id in old(quantities) ==> r == Ok(()) && quantities == old(quantities) - {id}
      ensures id !in old(quantities) ==> r == Err(NotFound(InventoryRecord, id)) && quantities == old(quantities)
    {
      if id in quantities {
        quantities := quantities - {id};
        r := Ok(());
      } else {
        r := Err(NotFound(InventoryRecord, id));
      }
    }
  }
}
