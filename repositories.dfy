/** The persistence collaborators, reduced to maps: the visit repository keeps
    visit records by id, the list `findByPetId` answers for each pet, and the
    vet directory; the pet repository keeps pets by id. */
module Repositories {
  import opened Domain

  class VisitRepository {
    /** Persisted visits, by id. */
    var records: map<int, Visit>
    /** What `findByPetId` returns, per pet id, in the repository's order. */
    var byPet: map<int, seq<Visit>>
    /** What `findVets` returns, in iteration order. */
    var vets: seq<Vet>
    /** The id the storage assigns to the next new record. */
    var nextId: int

    /** Every record is stored under its own id, and no id at or above
        `nextId` is taken yet. */
    ghost predicate Valid()
      reads this
    {
      forall k :: k in records ==> k < nextId && records[k].id == Some(k)
    }

    constructor (byPet: map<int, seq<Visit>>, vets: seq<Vet>)
      ensures Valid()
      ensures records == map[] && this.byPet == byPet && this.vets == vets
    {
      records := map[];
      this.byPet := byPet;
      this.vets := vets;
      nextId := 1;
    }

    /** `findById`: the stored record, or null. */
    function FindById(id: int): (r: Option<Visit>)
      reads this
      ensures r.Some? <==> id in records
      ensures Valid() && r.Some? ==> r.value.id == Some(id)
    {
      if id in records then Some(records[id]) else None
    }

    /** `findByPetId`: a pet with no recorded visits gets the empty list. */
    function FindByPetId(petId: int): seq<Visit>
      reads this
    {
      if petId in byPet then byPet[petId] else []
    }

    /** `findVets`. */
    function FindVets(): seq<Vet>
      reads this
    {
      vets
    }

    /** `save`: a record with an id replaces whatever is stored under that id;
        a new record is inserted under a fresh id, which it then carries. */
    method Save(visit: Visit)
      requires Valid()
      modifies this`records, this`nextId
      ensures Valid()
      ensures visit.id.Some? ==> records == old(records)[visit.id.value := visit]
      ensures visit.id.Some? && visit.id.value in old(records) ==> nextId == old(nextId)
      ensures visit.id.None? ==>
        && old(nextId) !in old(records)
        && records == old(records)[old(nextId) := visit.(id := Some(old(nextId)))]
    {
      match visit.id
      case Some(k) =>
        records := records[k := visit];
        if nextId <= k {
          nextId := k + 1;
        }
      case None =>
        records := records[nextId := visit.(id := Some(nextId))];
        nextId := nextId + 1;
    }
  }

  class PetRepository {
    /** Pets by id. */
    var pets: map<int, Pet>

    constructor (pets: map<int, Pet>)
      ensures this.pets == pets
    {
      this.pets := pets;
    }

    /** `findById`: the pet, or null. */
    function FindById(petId: int): (r: Option<Pet>)
      reads this
      ensures r.Some? <==> petId in pets
      ensures r.Some? ==> r.value in pets.Values
    {
      if petId in pets then Some(pets[petId]) else None
    }
  }
}
