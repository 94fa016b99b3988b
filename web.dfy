/** The parts of the web layer the visit controller touches: the request's
    model map, and the data binder whose disallowed fields decide which
    submitted fields reach a visit. */
module Web {
  import opened Domain

  /** A value placed in the request model. */
  datatype Attribute = PetAttr(pet: Pet) | VisitAttr(visit: Visit) | NullAttr

  /** The request model (`Map<String, Object>`, `Model`, `ModelMap`). */
  class ModelMap {
    var attributes: map<string, Attribute>

    constructor ()
      ensures attributes == map[]
    {
      attributes := map[];
    }

    /** `put` / `addAttribute`: sets one entry and leaves the others. */
    method Put(name: string, value: Attribute)
      modifies this
      ensures attributes == old(attributes)[name := value]
    {
      attributes := attributes[name := value];
    }
  }

  /** The fields a visit form submits; `None` marks a field the request
      does not carry. */
  datatype VisitForm = VisitForm(id: Option<int>, description: Option<string>, vet: Option<Vet>, status: Option<Status>)

  /** Takes a submitted field unless it is absent or disallowed. */
  function BindField<T>(name: string, submitted: Option<T>, current: T, disallowed: set<string>): T
  {
    if submitted.Some? && name !in disallowed then submitted.value else current
  }

  /** The same for a field that may hold null: a submitted value sets it. */
  function BindOptional<T>(name: string, submitted: Option<T>, current: Option<T>, disallowed: set<string>): Option<T>
  {
    if submitted.Some? && name !in disallowed then submitted else current
  }

  /** Copies the allowed, submitted fields of `form` onto `target`. */
  function Bind(target: Visit, form: VisitForm, disallowed: set<string>): Visit
  {
    Visit(
      BindOptional("id", form.id, target.id, disallowed),
      BindOptional("description", form.description, target.description, disallowed),
      BindOptional("vetVisit", form.vet, target.vet, disallowed),
      BindField("status", form.status, target.status, disallowed))
  }

  class DataBinder {
    var disallowedFields: set<string>

    constructor ()
      ensures disallowedFields == {}
    {
      disallowedFields := {};
    }

    /** `setDisallowedFields`: replaces the set of disallowed fields. */
    method SetDisallowedFields(fields: set<string>)
      modifies this
      ensures disallowedFields == fields
    {
      disallowedFields := fields;
    }

    /** Binding a form through this binder. */
    function BindVisit(target: Visit, form: VisitForm): Visit
      reads this
    {
      Bind(target, form, disallowedFields)
    }
  }

  /** With "id" disallowed, a bound visit keeps the id it had, whatever the
      form submitted, and every other submitted field is still bound. */
  lemma DisallowedIdIsKept(target: Visit, form: VisitForm)
    ensures Bind(target, form, {"id"}).id == target.id
    ensures Bind(target, form, {"id"}) == Bind(target, form.(id := None), {})
  {
  }

  /** Without the rule, a submitted id would overwrite the visit's id. */
  lemma AllowedIdIsBound(target: Visit, form: VisitForm)
    requires form.id.Some?
    ensures Bind(target, form, {}).id == form.id
  {
  }
}
