/** Entities the visit workflow works on: visits, vets and pets, plus the
    Option and Result wrappers that stand for Java's null and exceptions. */
module Domain {

  /** Java's `null` becomes `None`. */
  datatype Option<+T> = None | Some(value: T)

  /** A Java method that returns a value or throws. */
  datatype Result<+T, +E> = Success(value: T) | Failure(error: E)

  /** Lifecycle state of a visit. */
  datatype Status = Scheduled | Cancelled | Completed

  /** A veterinarian. Only `firstName` has behaviour in this core: it is the
      text a form submits for the "vetVisit" field. */
  datatype Vet = Vet(id: int, firstName: string, lastName: string)

  /** A visit record. `id` is absent until the record is persisted; the
      description and the assigned vet may be missing (null) after binding. */
  datatype Visit = Visit(id: Option<int>, description: Option<string>, vet: Option<Vet>, status: Status)
  {
    /** `BaseEntity.isNew()`: the record has never been persisted. */
    predicate IsNew() { id.None? }
  }

  /** What `new Visit()` yields: no id, no description, no vet, scheduled. */
  function NewVisit(): Visit
  {
    Visit(None, None, None, Scheduled)
  }

  /** A pet and its ordered list of visits, which the controller replaces and
      appends to in place. */
  class Pet {
    const id: int
    var visits: seq<Visit>

    constructor (id: int, visits: seq<Visit>)
      ensures this.id == id && this.visits == visits
    {
      this.id := id;
      this.visits := visits;
    }

    /** `setVisitsInternal`: replaces the whole list. */
    method SetVisitsInternal(visits: seq<Visit>)
      modifies this
      ensures this.visits == visits
    {
      this.visits := visits;
    }

    /** `addVisit`: appends one visit at the end. */
    method AddVisit(visit: Visit)
      modifies this
      ensures visits == old(visits) + [visit]
    {
      visits := visits + [visit];
    }
  }
}
