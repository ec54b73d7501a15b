# Pet-shop order engine, product resolver and animal store — a Dafny model

This project models the service layer of a pet-shop backend:

- **Order engine (`PurchaseService`).**
  - `create` walks a purchase's lines in list order. For each line it re-reads the line's inventory record, checks that the stock covers the ordered quantity, finds which product owns the record, adds unit price × |quantity| to the price, and writes the decremented record back. Then it saves the purchase and one item per line attached to it.
  - `deleteById` puts each item's quantity back on its inventory record and deletes the item, then deletes the purchase.
  - Both run in one transaction: on an error, nothing they wrote remains.
- **Product resolver (`InventoryService.findProductForInventory`).** Maps an inventory record to the food, toy or medicine that owns it. The stores are probed in the fixed order food, toy, medicine. A missing record or an orphan record fails with NotFound.
- **Inventory store (`InventoryService`).** Existence-guarded `findById`, `update` and `deleteById`, and `create`.
- **Animal store (`AnimalService`).** `create` accepts an animal only if its owner client exists, and otherwise fails with BadRequest. `findById`, `update` and `deleteById` are existence-guarded. `findByClient` lists an owner's animals.

Files:

| File | Contents |
|---|---|
| `errors.dfy` | The two exception kinds (NotFound, BadRequest) as a `Result` datatype, and the fixed messages. |
| `inventory.dfy` | The product stores, the resolver, and the `InventoryService` class over `quantities: map<int, int>`. |
| `purchases.dfy` | The order engine and the `PurchaseService` class (see below). |
| `animals.dfy` | The `AnimalService` class over `animals: map<int, Animal>`. |

The order engine is specified by the pure fold `Checkout`, which is create's first loop applied to the lines in order. The method `TakeStock`, which holds that loop, is proved against `Checkout`. The properties the service promises are lemmas about `Checkout`:

- a successful create never drives stock negative;
- each record drops by the total its lines order;
- the price is the sum of the line prices;
- create succeeds exactly when every record covers the total ordered from it.

Deletion is specified by `Restock`. It sums, over the purchase's items taken in any order, what each item put back. Create followed by delete restores the inventory, purchase and item stores, for any lines, as a lemma and as the verified method `CreateThenDelete`.

Modelling choices:

- **Stores.** Every store is a map.
  - Inventory id → available quantity.
  - Each of the three product stores: inventory id → (product id, unit price). A product owns exactly one inventory record.
  - Purchase id → (client id, price). Item id → (inventory id, quantity, purchase id). Animal id → animal.
- **Generated ids.** A counter per store stands in for the database's id sequence.
- **Transactions.** Every error exit of `create` and `deleteById` restores the snapshot taken on entry.
- **Prices.** They are natural numbers, so sums are exact.
- **Client store.** It is outside the model. Animal creation takes the set of existing client ids as a parameter.

## Model

| member | source | states |
|---|---|---|
| Inventory.FindProductForInventory | project/src/main/java/com/example/project/service/InventoryService.java:53-67 | Succeeds exactly when the record exists and some food, toy or medicine owns it. The answer owns the record, and no owner has a kind of higher priority. Failure is NotFound naming the inventory id. |
| Inventory.Probes | project/src/main/java/com/example/project/service/InventoryService.java:54-63 | No store is queried when the record is missing. Otherwise the stores are queried as food, toy, medicine, and querying stops only at a store that hits or after the medicine store; every store before the last one misses; the resolver succeeds exactly when the last store queried hits, and that store is the answer's kind. |
| Inventory.OrphanProbesAllStores | project/src/main/java/com/example/project/service/InventoryService.java:55-63 | For every existing record that no food, toy or medicine owns: the stores are looked up as food, toy, medicine, all three and in that order, and the resolver then fails with NotFound naming the inventory id. |
| Inventory.ExclusiveResolvesToOwner | project/src/main/java/com/example/project/service/InventoryService.java:55-60 | When only one store has a product for the record, the resolver returns that product. |
| Inventory.ResolverExamples | project/src/main/java/com/example/project/service/InventoryService.java:57-63 | A record owned only by a toy resolves to that toy. A record nobody owns fails with NotFound. |
| Inventory.InventoryService.FindById | project/src/main/java/com/example/project/service/InventoryService.java:29-31 | Returns the stored quantity exactly when the id is stored, and NotFound otherwise. |
| Inventory.InventoryService.Create | project/src/main/java/com/example/project/service/InventoryService.java:41-43 | Stores the record under an id not used before and changes no other record. |
| Inventory.InventoryService.Update | project/src/main/java/com/example/project/service/InventoryService.java:45-51 | An existing id gets the new quantity and every other record is unchanged. A missing id fails with NotFound and saves nothing. |
| Inventory.InventoryService.DeleteById | project/src/main/java/com/example/project/service/InventoryService.java:33-39 | Removes exactly that record. A missing id fails with NotFound and deletes nothing. |
| Purchases.Checkout | project/src/main/java/com/example/project/service/PurchaseService.java:64-89 | Applies `Step` (one pass of the loop body: re-read the record, check the stock, resolve the product, add `UnitPrice` × \|quantity\|, where `UnitPrice` reads the price from the store of the product's kind, then decrement) to the lines in list order, stopping at the first error. A successful run keeps the same set of inventory records. |
| Purchases.CheckoutStockSafe | project/src/main/java/com/example/project/service/PurchaseService.java:64-85 | After a successful create, every line's record exists, has an owning product, and holds a non-negative quantity, because the stock check precedes the decrement. Stock that was non-negative stays non-negative. |
| Purchases.CheckoutDecrements | project/src/main/java/com/example/project/service/PurchaseService.java:64-85 | After a successful create, each record equals its old quantity minus the total its lines order. A repeated record sees earlier decrements, so the drops add up. |
| Purchases.CheckoutPrice | project/src/main/java/com/example/project/service/PurchaseService.java:62-90 | The price of a successful create is the sum over the lines of the owning product's unit price × \|quantity\|, priced from the store of that product's kind. |
| Purchases.CheckoutSucceedsIffEnoughStock | project/src/main/java/com/example/project/service/PurchaseService.java:64-89 | For resolvable lines with non-negative quantities: create succeeds exactly when every referenced record holds at least the total ordered from it. Otherwise it fails with the insufficient-stock BadRequest. |
| Purchases.CheckoutErrorSticks | project/src/main/java/com/example/project/service/PurchaseService.java:64-89 | The first failing line's error is the error of the whole create; later lines do not matter. |
| Purchases.CheckoutFailsAt | project/src/main/java/com/example/project/service/PurchaseService.java:64-89 | A line that fails after earlier lines succeeded fails the whole create with that line's error. |
| Purchases.EmptyOrderIsFree | project/src/main/java/com/example/project/service/PurchaseService.java:62-90 | A purchase with no lines succeeds with price 0 and leaves every record unchanged. |
| Purchases.CheckoutExample | project/src/main/java/com/example/project/service/PurchaseService.java:61-100 | Ordering 5 from a record of 50 that backs a food priced 12 costs 60 and leaves 45. |
| Purchases.NotEnoughStockExample | project/src/main/java/com/example/project/service/PurchaseService.java:66-88 | Ordering 11 from a record of 10 fails with the insufficient-stock BadRequest. |
| Purchases.RepeatedRecordExample | project/src/main/java/com/example/project/service/PurchaseService.java:64-89 | Two lines of 30 on a record of 50 fail with the insufficient-stock BadRequest, because the second line sees the first line's decrement. |
| Purchases.NewItemsOnePerLine | project/src/main/java/com/example/project/service/PurchaseService.java:94-97 | Create stores exactly one item per line, and each item refers to the new purchase. |
| Purchases.ItemsOf | project/src/main/java/com/example/project/service/PurchaseService.java:48 | The items of a purchase are exactly the stored items that refer to it. |
| Purchases.ReturnedNewItems | project/src/main/java/com/example/project/service/PurchaseService.java:49-54 | The items create saved put back on each record exactly the total the lines ordered from it. |
| Purchases.RestockStep | project/src/main/java/com/example/project/service/PurchaseService.java:49-54 | Putting one more item's quantity back on its record, when that record exists, extends the restock by exactly that item. |
| Purchases.NewItemsOwned | project/src/main/java/com/example/project/service/PurchaseService.java:94-97 | The items stored for the new purchase are exactly the items create saved. |
| Purchases.NewItemsResolve | project/src/main/java/com/example/project/service/PurchaseService.java:64-97 | Every item a successful create saved refers to a record that still exists. |
| Purchases.NewItemsRestock | project/src/main/java/com/example/project/service/PurchaseService.java:49-84 | Putting back what the saved items took gives every record its quantity from before create. |
| Purchases.CreateThenDeleteRestoresStock | project/src/main/java/com/example/project/service/PurchaseService.java:46-100 | Combines the three lemmas above: after a successful create, deleting the new purchase finds exactly its items, finds none with a missing record, and returns every record to its pre-create quantity. |
| Purchases.PurchaseService.FindById | project/src/main/java/com/example/project/service/PurchaseService.java:38-40 | Returns the stored purchase exactly when the id is stored, and NotFound otherwise. |
| Purchases.PurchaseService.TakeLine | project/src/main/java/com/example/project/service/PurchaseService.java:65-88 | One pass of create's loop equals `Step` on the current stock: a missing record is NotFound, short stock is the insufficient-stock BadRequest, an orphan record is NotFound, and otherwise the price grows by `UnitPrice` × \|quantity\| and the record is decremented. On failure it writes nothing. |
| Purchases.PurchaseService.TakeStock | project/src/main/java/com/example/project/service/PurchaseService.java:64-89 | The loop ends with exactly the stock and price of `Checkout`. On an error it returns `Checkout`'s error and rolls back every earlier decrement. |
| Purchases.PurchaseService.SaveItems | project/src/main/java/com/example/project/service/PurchaseService.java:94-97 | Adds one item per line under fresh consecutive ids, each attached to the saved purchase. No earlier item changes. |
| Purchases.PurchaseService.Create | project/src/main/java/com/example/project/service/PurchaseService.java:61-100 | On `Checkout` failure it returns that error and changes no store. On success, stock is `Checkout`'s, the purchase is saved under a fresh id with `Checkout`'s price, and its items are added. |
| Purchases.PurchaseService.DeleteById | project/src/main/java/com/example/project/service/PurchaseService.java:46-59 | A missing purchase fails with NotFound and changes nothing. Otherwise the call succeeds exactly when every item's record exists. Then each record gains what the purchase's items took, and those items and the purchase are removed; other purchases and items are unchanged. If some record is missing, it fails with NotFound on that record and changes nothing. |
| Purchases.PurchaseService.Update | project/src/main/java/com/example/project/service/PurchaseService.java:102-108 | An existing purchase is replaced. A missing id fails with NotFound and saves nothing. |
| Purchases.CreateThenDelete | project/src/main/java/com/example/project/service/PurchaseService.java:46-100 | Create followed by deleting the returned purchase leaves the inventory, purchase and item stores as they were. |
| Animals.OwnedByPartition | project/src/main/java/com/example/project/service/AnimalService.java:25-27 | A stored animal is listed for a client exactly when that client is its owner. |
| Animals.OwnedBySave | project/src/main/java/com/example/project/service/AnimalService.java:25-27 | Saving an animal under an id puts it in its owner's listing and removes that id from every other client's listing. Nothing else in any listing changes. |
| Animals.OwnedByDelete | project/src/main/java/com/example/project/service/AnimalService.java:25-27 | Deleting an animal removes it from its owner's listing and changes no other entry. |
| Animals.AnimalService.FindByClient | project/src/main/java/com/example/project/service/AnimalService.java:25-27 | Returns exactly the stored animals whose owner id is the given id, by animal id. An id that owns no stored animal gets an empty map. |
| Animals.AnimalService.FindById | project/src/main/java/com/example/project/service/AnimalService.java:29-31 | Returns the stored animal exactly when the id is stored, and NotFound otherwise. |
| Animals.AnimalService.Create | project/src/main/java/com/example/project/service/AnimalService.java:41-46 | With an existing owner, the animal is stored under a fresh id and nothing else changes. Otherwise it fails with BadRequest "You have to create the client before adding its animal!" and the store is unchanged. If every stored owner exists, that still holds afterwards. |
| Animals.AnimalService.Update | project/src/main/java/com/example/project/service/AnimalService.java:49-55 | An existing animal is replaced, whatever owner the new value names. A missing id fails with NotFound and saves nothing. |
| Animals.AnimalService.DeleteById | project/src/main/java/com/example/project/service/AnimalService.java:33-38 | Removes exactly that animal. A missing id fails with NotFound and deletes nothing. |
| Animals.CreateThenFindByClient | project/src/main/java/com/example/project/service/AnimalService.java:41-46 | A created animal appears under its id and in its owner's listing. Every other client's listing is unchanged. A refused create changes no listing. |

## Left out

- Controllers, request/response mapping, DTO validation and the translation of exceptions to HTTP status codes are not modelled. The two exception kinds are kept as `Error` values.
- The purchase timestamp is not modelled, because it comes from the clock.
- Prices are natural numbers rather than single-precision floats, so the model has no rounding.
- Purchases.Step: quantities are unbounded integers. In the source they are 64-bit `Long` values, and the stock check's subtraction, the decrement, `Math.abs` and the add-back in delete wrap at ±2^63. For example, ordering -2^63 from a record holding 0 is refused with the insufficient-stock BadRequest in the source, because `0 - (-2^63)` wraps to -2^63, but succeeds in the model. The same applies to Purchases.Checkout, Purchases.PurchaseService.TakeLine and Purchases.PurchaseService.DeleteById.
- The model has no concurrency. The transaction around `create` and `deleteById` is modelled as all-or-nothing: every error exit restores the state from before the call.
- `findAll` of each service and `PurchaseService.findByClient` are not modelled. They return the repository's contents unfiltered, or filtered by client, with no logic of their own.
- The food, toy, medicine, item and client services are only modelled as the stores the core reads: the product stores (`Catalog`), the item map inside `PurchaseService`, and the set of client ids passed to animal creation.
- Purchases.PurchaseService.Create: the purchase's client is not checked, because the source does not check it either. The saved id is always a fresh one; saving a purchase that already carries an id is not modelled.
- Inventory.InventoryService.Create: the record is always saved under a fresh id; saving a record that already carries the id of a stored record, which would overwrite that record, is not modelled.
- Animals.AnimalService.Create: the animal is always saved under a fresh id; saving an animal that already carries an id, which would overwrite it, is not modelled. An animal without an owner cannot be expressed.
- Animals.AnimalService.Update: the owner is not re-checked, as in the source. An update can therefore name a client that does not exist, and `OwnersExist` is not claimed for it.
- Purchases.CheckoutSucceedsIffEnoughStock: stated only for lines with non-negative quantities whose records resolve. The source accepts a negative quantity, which raises the stock; later deleting that purchase lowers the stock again and can make it negative.
- Purchases.PurchaseService.DeleteById: the order in which the purchase's items are visited is left open. On success the resulting stock does not depend on it, because the restocked amounts are summed over a set. On failure the reported record is some missing record of one of the purchase's items; when several are missing, which one is reported depends on the order, and the model does not say which.
- The list order of `findByClient` results is not modelled; the result is a map from id to animal.
