/**
 * The pets of the account service (`PetService`): a pet belongs to the
 * client that created it, and the client-facing lookups, updates and
 * deletes only reach pets of that client; the internal calls act by id
 * alone. The repository is a class holding the pets by id.
 */
module Pets {
  import opened Common

  /** The fields of a pet a client may set: nome, especie, raca, dataNascimento. */
  datatype PetFields = PetFields(nome: string, especie: string, raca: string, dataNascimento: Option<int>)

  /** A stored pet: the id of its owning client and its fields (the pet's id is the repository's key). */
  datatype Pet = Pet(owner: int, fields: PetFields)

  /** The pets of one client (`findByClienteId`). */
  function PetsOf(pets: map<int, Pet>, c: int): (m: map<int, Pet>)
    ensures forall id :: id in m <==> id in pets && pets[id].owner == c
    ensures forall id :: id in m ==> m[id] == pets[id]
  {
    map id | id in pets && pets[id].owner == c :: pets[id]
  }

  /** The pet with this id if it belongs to this client (`findByIdAndClienteId`). */
  function FindOwned(pets: map<int, Pet>, c: int, id: int): (r: Option<Pet>)
    ensures r.Some? <==> id in pets && pets[id].owner == c
    ensures r.Some? ==> r.value == pets[id]
  {
    if id in pets && pets[id].owner == c then Some(pets[id]) else None
  }

  /** The client-scoped lookup finds exactly the pets the client's listing holds. */
  lemma FindOwnedAgreesWithListing(pets: map<int, Pet>, c: int, id: int)
    ensures FindOwned(pets, c, id).Some? <==> id in PetsOf(pets, c)
    ensures id in PetsOf(pets, c) ==> FindOwned(pets, c, id) == Some(PetsOf(pets, c)[id])
  {
  }

  /** Changing the fields of one pet leaves every client's listing alone except for that pet's new fields. */
  lemma {:induction false} UpdateIsolatesClients(pets: map<int, Pet>, id: int, f: PetFields, other: int)
    requires id in pets
    ensures pets[id].owner != other ==> PetsOf(pets[id := pets[id].(fields := f)], other) == PetsOf(pets, other)
    ensures PetsOf(pets[id := pets[id].(fields := f)], pets[id].owner) ==
            PetsOf(pets, pets[id].owner)[id := pets[id].(fields := f)]
  {
    var after := pets[id := pets[id].(fields := f)];
    if pets[id].owner != other {
      assert PetsOf(after, other).Keys == PetsOf(pets, other).Keys;
    }
    var c := pets[id].owner;
    assert PetsOf(after, c).Keys == PetsOf(pets, c).Keys;
  }

  /** Removing one pet removes it from its owner's listing and from nobody else's. */
  lemma {:induction false} DeleteIsolatesClients(pets: map<int, Pet>, id: int, other: int)
    requires id in pets
    ensures pets[id].owner != other ==> PetsOf(pets - {id}, other) == PetsOf(pets, other)
    ensures PetsOf(pets - {id}, pets[id].owner) == PetsOf(pets, pets[id].owner) - {id}
  {
    if pets[id].owner != other {
      assert PetsOf(pets - {id}, other).Keys == PetsOf(pets, other).Keys;
    }
    var c := pets[id].owner;
    assert PetsOf(pets - {id}, c).Keys == PetsOf(pets, c).Keys - {id};
  }

  /** A new pet joins its owner's listing and no one else's. */
  lemma {:induction false} CreateJoinsOwnerOnly(pets: map<int, Pet>, id: int, p: Pet, other: int)
    requires id !in pets
    ensures p.owner != other ==> PetsOf(pets[id := p], other) == PetsOf(pets, other)
    ensures PetsOf(pets[id := p], p.owner) == PetsOf(pets, p.owner)[id := p]
  {
    if p.owner != other {
      assert PetsOf(pets[id := p], other).Keys == PetsOf(pets, other).Keys;
    }
    assert PetsOf(pets[id := p], p.owner).Keys == PetsOf(pets, p.owner).Keys + {id};
  }

  /** `PetRepository`: the stored pets by id and the next generated id. */
  class PetRepository {
    var pets: map<int, Pet>
    var nextId: int

    ghost predicate Valid()
      reads this
    {
      forall id :: id in pets ==> id < nextId
    }

    constructor ()
      ensures pets == map[] && Valid()
    {
      pets, nextId := map[], 1;
    }

    /** `save` of a new pet. */
    method Insert(p: Pet) returns (id: int)
      requires Valid()
      modifies this
      ensures Valid()
      ensures id == old(nextId) && id !in old(pets) && pets == old(pets)[id := p] && nextId == id + 1
    {
      id := nextId;
      pets := pets[id := p];
      nextId := nextId + 1;
    }

    /** `save` of a loaded pet. */
    method Save(id: int, p: Pet)
      modifies this`pets
      ensures pets == old(pets)[id := p]
    {
      pets := pets[id := p];
    }

    /** `delete`. */
    method Delete(id: int)
      modifies this`pets
      ensures pets == old(pets) - {id}
    {
      pets := pets - {id};
    }
  }

  /** `criarPet(clienteId, pet)`: the pet is stored under a new id with its owner set to the client. */
  method CreatePet(repo: PetRepository, c: int, f: PetFields) returns (id: int)
    requires repo.Valid()
    modifies repo
    ensures repo.Valid()
    ensures id == old(repo.nextId) && id !in old(repo.pets)
    ensures repo.pets == old(repo.pets)[id := Pet(c, f)]
    ensures FindOwned(repo.pets, c, id) == Some(Pet(c, f))
  {
    id := repo.Insert(Pet(c, f));
  }

  /**
   * `atualizarPetDoCliente`: a pet that is missing or another client's is a
   * RuntimeException and nothing changes; otherwise its four fields are
   * overwritten and its owner kept.
   */
  method UpdatePetOfClient(repo: PetRepository, c: int, id: int, f: PetFields) returns (r: Option<Pet>)
    requires repo.Valid()
    modifies repo`pets
    ensures repo.Valid()
    ensures r.None? <==> FindOwned(old(repo.pets), c, id).None?
    ensures r.None? ==> repo.pets == old(repo.pets)
    ensures r.Some? ==> r.value == Pet(c, f) && repo.pets == old(repo.pets)[id := r.value]
  {
    var found := FindOwned(repo.pets, c, id);
    if found.None? {
      return None;
    }
    var p := found.value.(fields := f);
    repo.Save(id, p);
    r := Some(p);
  }

  /** `deletarPetDoCliente`: a pet that is missing or another client's is a RuntimeException; otherwise only it is removed. */
  method DeletePetOfClient(repo: PetRepository, c: int, id: int) returns (ok: bool)
    requires repo.Valid()
    modifies repo`pets
    ensures repo.Valid()
    ensures ok <==> FindOwned(old(repo.pets), c, id).Some?
    ensures !ok ==> repo.pets == old(repo.pets)
    ensures ok ==> repo.pets == old(repo.pets) - {id}
  {
    if FindOwned(repo.pets, c, id).None? {
      return false;
    }
    repo.Delete(id);
    ok := true;
  }

  /** `atualizarPet`: by id alone; a missing id is a RuntimeException, otherwise the four fields are overwritten and the owner kept. */
  method UpdatePet(repo: PetRepository, id: int, f: PetFields) returns (r: Option<Pet>)
    requires repo.Valid()
    modifies repo`pets
    ensures repo.Valid()
    ensures r.None? <==> id !in old(repo.pets)
    ensures r.None? ==> repo.pets == old(repo.pets)
    ensures r.Some? ==> r.value == old(repo.pets[id]).(fields := f) && repo.pets == old(repo.pets)[id := r.value]
  {
    if id !in repo.pets {
      return None;
    }
    var p := repo.pets[id].(fields := f);
    repo.Save(id, p);
    r := Some(p);
  }

  /** `deletarPet`: by id alone; a missing id is a RuntimeException, otherwise that pet is removed. */
  method DeletePet(repo: PetRepository, id: int) returns (ok: bool)
    requires repo.Valid()
    modifies repo`pets
    ensures repo.Valid()
    ensures ok <==> id in old(repo.pets)
    ensures !ok ==> repo.pets == old(repo.pets)
    ensures ok ==> repo.pets == old(repo.pets) - {id}
  {
    if id !in repo.pets {
      return false;
    }
    repo.Delete(id);
    ok := true;
  }
}
