/** The visit workflow (`VisitController`): preparing a pet's visit form,
    saving a new visit, saving an edited visit and cancelling a visit. The
    binding result is a plain `hasErrors` flag and views are their names. */
module Controller {
  import opened Domain
  import opened Repositories
  import opened Web
  import opened Validation

  /** The view that renders the create/update form. */
  const FormView: string := "pets/createOrUpdateVisitForm"
  /** The redirect to the owner's page that every success path returns. */
  const OwnerRedirect: string := "redirect:/owners/{ownerId}"

  /** `loadPetWithVisit` cannot go on when the pet is unknown. */
  datatype LookupError = PetNotFound(petId: int)

  /** On the edit path the validated visit is the fresh one `loadPetWithVisit`
      provides, with the form bound onto it. Since "id" is not bound, it is
      still new when validated: the vet exemption for visits with an id never
      applies there, and a submission without a vet gets the "type" error. */
  lemma EditedVisitIsValidatedAsNew(form: VisitForm)
    ensures Bind(NewVisit(), form, {"id"}).IsNew()
    ensures form.vet.None? ==> TypeRequired in ValidationErrors(Bind(NewVisit(), form, {"id"}))
  {
  }

  class VisitController {
    const visits: VisitRepository
    const pets: PetRepository

    constructor (visits: VisitRepository, pets: PetRepository)
      ensures this.visits == visits && this.pets == pets
    {
      this.visits := visits;
      this.pets := pets;
    }

    /** `setAllowedFields`: the "id" field is never bound from a form. */
    method SetAllowedFields(binder: DataBinder)
      modifies binder
      ensures binder.disallowedFields == {"id"}
      ensures forall target, form :: binder.BindVisit(target, form).id == target.id
    {
      binder.SetDisallowedFields({"id"});
      forall target, form ensures binder.BindVisit(target, form).id == target.id {
        DisallowedIdIsKept(target, form);
      }
    }

    /** `loadPetWithVisit`: the pet's visits become the repository's list for
        that pet followed by a fresh visit, the pet goes into the model, and
        the fresh visit is returned. An unknown pet stops the request before
        anything changes. */
    method LoadPetWithVisit(petId: int, model: ModelMap) returns (r: Result<Visit, LookupError>)
      modifies model, if petId in pets.pets then {pets.pets[petId]} else {}
      ensures petId !in pets.pets ==>
        r == Failure(PetNotFound(petId)) && model.attributes == old(model.attributes)
      ensures petId in pets.pets ==>
        && r == Success(NewVisit())
        && pets.pets[petId].visits == visits.FindByPetId(petId) + [NewVisit()]
        && model.attributes == old(model.attributes)["pet" := PetAttr(pets.pets[petId])]
    {
      var found := pets.FindById(petId);
      if found.None? {
        return Failure(PetNotFound(petId));
      }
      var pet := found.value;
      pet.SetVisitsInternal(visits.FindByPetId(petId));
      model.Put("pet", PetAttr(pet));
      var visit := NewVisit();
      pet.AddVisit(visit);
      return Success(visit);
    }

    /** `initNewVisitForm`: only names the form view. */
    method InitNewVisitForm(petId: int, model: ModelMap) returns (view: string)
      ensures view == FormView
    {
      view := FormView;
    }

    /** `processNewVisitForm`: with binding errors nothing is saved and the
        form is shown again; otherwise the visit is saved once and the owner's
        page follows. */
    method ProcessNewVisitForm(visit: Visit, hasErrors: bool) returns (view: string)
      requires visits.Valid()
      modifies visits`records, visits`nextId
      ensures visits.Valid()
      ensures hasErrors ==>
        view == FormView && visits.records == old(visits.records) && visits.nextId == old(visits.nextId)
      ensures !hasErrors && visit.id.None? ==>
        && view == OwnerRedirect
        && old(visits.nextId) !in old(visits.records)
        && visits.records == old(visits.records)[old(visits.nextId) := visit.(id := Some(old(visits.nextId)))]
      ensures !hasErrors && visit.id.Some? ==>
        view == OwnerRedirect && visits.records == old(visits.records)[visit.id.value := visit]
    {
      if hasErrors {
        return FormView;
      } else {
        visits.Save(visit);
        return OwnerRedirect;
      }
    }

    /** `initUpdateForm`: puts the record found under `visitId` into the
        model, or null when there is none. */
    method InitUpdateForm(visitId: int, model: ModelMap) returns (view: string)
      modifies model
      ensures view == FormView
      ensures model.attributes == old(model.attributes)["visit" :=
        if visitId in visits.records then VisitAttr(visits.records[visitId]) else NullAttr]
    {
      var visit := visits.FindById(visitId);
      model.Put("visit", if visit.Some? then VisitAttr(visit.value) else NullAttr);
      return FormView;
    }

    /** `processUpdateForm`: with binding errors the visit goes back into the
        model and nothing is saved; otherwise the visit is stored under the
        path's `visitId`, whatever id it was submitted with. */
    method ProcessUpdateForm(visit: Visit, hasErrors: bool, model: ModelMap, visitId: int) returns (view: string)
      requires visits.Valid()
      modifies model, visits`records, visits`nextId
      ensures visits.Valid()
      ensures hasErrors ==>
        && view == FormView
        && model.attributes == old(model.attributes)["visit" := VisitAttr(visit)]
        && visits.records == old(visits.records) && visits.nextId == old(visits.nextId)
      ensures !hasErrors ==>
        && view == OwnerRedirect
        && model.attributes == old(model.attributes)
        && visits.records == old(visits.records)[visitId := visit.(id := Some(visitId))]
    {
      if hasErrors {
        model.Put("visit", VisitAttr(visit));
        return FormView;
      } else {
        var updated := visit.(id := Some(visitId));
        visits.Save(updated);
        return OwnerRedirect;
      }
    }

    /** `cancelVisit`: a stored visit becomes cancelled, with its other
        fields and all other records as they were; an unknown id changes
        nothing. Both paths return the same redirect. */
    method CancelVisit(visitId: int) returns (view: string)
      requires visits.Valid()
      modifies visits`records, visits`nextId
      ensures visits.Valid() && visits.nextId == old(visits.nextId)
      ensures view == OwnerRedirect
      ensures visitId in old(visits.records) ==>
        visits.records == old(visits.records)[visitId := old(visits.records)[visitId].(status := Cancelled)]
      ensures visitId !in old(visits.records) ==> visits.records == old(visits.records)
    {
      var visit1 := visits.FindById(visitId);
      if visit1.Some? {
        var cancelled := visit1.value.(status := Cancelled);
        visits.Save(cancelled);
      }
      return OwnerRedirect;
    }
  }
}
