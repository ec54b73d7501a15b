/** The animal store. Every animal names its owning client; an animal can
    only be created for a client that already exists, and is looked up,
    replaced and deleted by its id. */
module Animals {
  import opened Errors

  /** An animal as stored: its descriptive fields and the id of its owner.
      The birth date is kept as a day number; the model never inspects it. */
  datatype Animal = Animal(name: string, species: string, breed: string, birthDate: int, ownerId: int)

  /** The stored animals whose owner is `clientId`, keyed by their ids. */
  function OwnedBy(animals: map<int, Animal>, clientId: int): map<int, Animal>
  {
    map id | id in animals && animals[id].ownerId == clientId :: animals[id]
  }

  /** Every stored animal belongs to exactly one owner's listing: its own. */
  lemma OwnedByPartition(animals: map<int, Animal>, id: int, clientId: int)
    requires id in animals
    ensures id in OwnedBy(animals, clientId) <==> animals[id].ownerId == clientId
    ensures id in OwnedBy(animals, animals[id].ownerId)
  {
  }

  /** Saving an animal under `id` moves that id into its owner's listing and
      out of every other client's listing, and touches nothing else. */
  lemma OwnedBySave(animals: map<int, Animal>, id: int, animal: Animal, clientId: int)
    ensures OwnedBy(animals[id := animal], clientId)
         == if animal.ownerId == clientId then OwnedBy(animals, clientId)[id := animal]
            else OwnedBy(animals, clientId) - {id}
  {
  }

  /** Deleting an animal removes it from its owner's listing and touches nothing else. */
  lemma OwnedByDelete(animals: map<int, Animal>, id: int, clientId: int)
    ensures OwnedBy(animals - {id}, clientId) == OwnedBy(animals, clientId) - {id}
  {
  }

  /** Every stored animal's owner is one of `clients`. */
  ghost predicate OwnersExist(animals: map<int, Animal>, clients: set<int>)
  {
    forall id :: id in animals ==> animals[id].ownerId in clients
  }

  /** The animal service: the animal store and the id generator behind it. */
  class AnimalService {
    var animals: map<int, Animal>
    /** The next id the database hands out. */
    var nextId: int

    ghost predicate Valid()
      reads this
    {
      forall id :: id in animals ==> id < nextId
    }

    constructor ()
      ensures Valid() && animals == map[]
    {
      animals := map[];
      nextId := 1;
    }

    /** findByClient: the animals whose owner id is `clientId`; an id that owns no animal gets an empty map. */
    function FindByClient(clientId: int): (r: map<int, Animal>)
      reads this
      ensures forall id :: id in r <==> id in animals && animals[id].ownerId == clientId
      ensures forall id :: id in r ==> r[id] == animals[id]
    {
      OwnedBy(animals, clientId)
    }

    /** findById: the animal with that id, or NotFound. */
    function FindById(id: int): (r: Result<Animal>)
      reads this
      ensures r.Ok? <==> id in animals
      ensures r.Ok? ==> r.value == animals[id]
      ensures r.Err? ==> r.error == NotFound(AnimalRecord, id)
    {
      if id in animals then Ok(animals[id]) else Err(NotFound(AnimalRecord, id))
    }

    /** create: saves the animal under a fresh id when its owner is one of the
        existing clients `clients`; otherwise fails with BadRequest and saves
        nothing. The store therefore keeps OwnersExist for that client set. */
    method Create(animal: Animal, clients: set<int>) returns (r: Result<int>)
      requires Valid()
      modifies this`animals, this`nextId
      ensures Valid()
      ensures animal.ownerId in clients ==>
                r.Ok? && r.value !in old(animals) && animals == old(animals)[r.value := animal]
      ensures animal.ownerId !in clients ==>
                r == Err(BadRequest(OwnerMissing)) && animals == old(animals)
      ensures OwnersExist(old(animals), clients) ==> OwnersExist(animals, clients)
    {
      if animal.ownerId in clients {
        var id := nextId;
        nextId := nextId + 1;
        animals := animals[id := animal];
        r := Ok(id);
      } else {
        r := Err(BadRequest(OwnerMissing));
      }
    }

    /** update: replaces an existing animal, whatever owner the new value
        names; a missing id fails with NotFound and saves nothing. */
    method Update(id: int, animal: Animal) returns (r: Result<Animal>)
      requires Valid()
      modifies this`animals
      ensures Valid()
      ensures id in old(animals) ==> r == Ok(animal) && animals == old(animals)[id := animal]
      ensures id !in old(animals) ==> r == Err(NotFound(AnimalRecord, id)) && animals == old(animals)
    {
      if id in animals {
        animals := animals[id := animal];
        r := Ok(animal);
      } else {
        r := Err(NotFound(AnimalRecord, id));
      }
    }

    /** deleteById: removes that one animal; a missing id fails with NotFound
        and deletes nothing. The owner is left alone. */
    method DeleteById(id: int) returns (r: Result<()>)
      requires Valid()
      modifies this`animals
      ensures Valid()
      ensures id in old(animals) ==> r == Ok(()) && animals == old(animals) - {id}
      ensures id !in old(animals) ==> r == Err(NotFound(AnimalRecord, id)) && animals == old(animals)
    {
      if id in animals {
        animals := animals - {id};
        r := Ok(());
      } else {
        r := Err(NotFound(AnimalRecord, id));
      }
    }
  }

  /** A created animal shows up in its owner's listing and in no other
      client's, and every other listing is unchanged. */
  method CreateThenFindByClient(service: AnimalService, animal: Animal, clients: set<int>, clientId: int)
    returns (r: Result<int>)
    requires service.Valid()
    modifies service`animals, service`nextId
    ensures service.Valid()
    ensures animal.ownerId in clients ==>
              && r.Ok?
              && service.FindById(r.value) == Ok(animal)
              && service.FindByClient(clientId)
                   == if animal.ownerId == clientId then old(service.FindByClient(clientId))[r.value := animal]
                      else old(service.FindByClient(clientId))
    ensures animal.ownerId !in clients ==>
              r == Err(BadRequest(OwnerMissing)) && service.FindByClient(clientId) == old(service.FindByClient(clientId))
  {
    r := service.Create(animal, clients);
  }
}
