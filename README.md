# Visit workflow of the pet clinic, modelled in Dafny

This project models the visit part of a veterinary-clinic web application.
Owners' pets accrue visit records. A controller prepares the visit form for
a pet, saves new and edited visits, and cancels visits. A validator enforces
the two required-field rules of a visit form. A formatter turns a vet into
the text a form carries for it (the first name) and back again, by a
first-match search over the vet directory.

Files and modules:

- `domain.dfy` (`Domain`): `Visit`, `Vet` and `Status` as values; `Pet` as a
  class whose visit list is replaced and appended to in place; `Option` for
  null and `Result` for a call that can throw.
- `repositories.dfy` (`Repositories`): the visit repository as a map from id
  to visit, the per-pet lists `findByPetId` answers, and the vet directory as
  a sequence. The pet repository is a map from id to `Pet`. `Save` is a map
  update. `VisitRepository.Valid()` says every record sits under its own id.
- `visit_validator.dfy` (`Validation`): `ValidationErrors` is the list of
  errors the two rules produce. `Validate` appends exactly that list to an
  `Errors` sink. `Supports` is modelled over a class and its superclass chain.
- `vet_formatter.dfy` (`Formatting`): `Print`; `FirstMatch`, the reference
  definition of `parse`; `Parse`, the loop over `findVets()` proved equal to
  it; and the round-trip lemmas.
- `web.dfy` (`Web`): the request model map, and form binding with a set of
  disallowed fields.
- `visit_controller.dfy` (`Controller`): the controller's handlers as
  methods of a class that holds the two repositories. "Has errors" is a
  boolean input. Views and redirects are string constants.

Behaviour of the code that the model keeps on purpose:

- The description rule checks only `StringUtils.hasLength`
  (VisitValidator.java:41). A description made only of blanks passes it.
- `validate` returns nothing. It appends to the `Errors` sink it is given
  (VisitValidator.java:42, 47).
- The edit form stores whatever the visit lookup returns, null included
  (VisitController.java:102-104). There is no not-found handling.
- `cancelVisit` sets CANCELLED whatever the status was
  (VisitController.java:125), so a COMPLETED visit can become CANCELLED.
- The vet rule exempts visits that have an id (VisitValidator.java:46), but
  that exemption never reaches `processUpdateForm`. The visit it validates
  is the fresh one from `loadPetWithVisit` with the form bound onto it. The
  id cannot be bound (VisitController.java:59) and is set only after
  validation (VisitController.java:116).
- The validator reports its errors on fields "name" and "type"
  (VisitValidator.java:42, 47). The visit's own properties are its
  description and its vet.

## Model

| member | source | states |
|---|---|---|
| `Validation.ValidationErrors` | src/main/java/org/springframework/samples/petclinic/visit/VisitValidator.java:38-49 | At most two errors, each with code and message "required". A "name" error appears exactly when the description is null or empty. A "type" error appears exactly when the visit is new and has no vet. When both appear, "name" comes first. There are no errors exactly when the description has length and the visit is not a new visit without a vet. |
| `Validation.Validate` | src/main/java/org/springframework/samples/petclinic/visit/VisitValidator.java:37-50 | The sink's list becomes its old contents followed by `ValidationErrors(visit)`. Only the sink is modified; the visit is a value and is only read. |
| `Validation.Errors.RejectValue` | src/main/java/org/springframework/samples/petclinic/visit/VisitValidator.java:42 | Appends one field error with the given field, code and message. |
| `Validation.ExistingVisitNeedsNoVet` | src/main/java/org/springframework/samples/petclinic/visit/VisitValidator.java:46 | A visit that is not new never gets the "type" error, with or without a vet. Its errors are only the "name" rule's. |
| `Validation.SupportsExactlyVisitSubtypes` | src/main/java/org/springframework/samples/petclinic/visit/VisitValidator.java:56-58 | `supports(c)` holds exactly when `Visit` is `c` or one of `c`'s superclasses. |
| `Formatting.FirstMatch` | src/main/java/org/springframework/samples/petclinic/visit/VetFormatter.java:55-60 | On success, the vet is at some index of the directory, its first name equals the text exactly, and no earlier vet has that first name. Failure happens exactly when no vet has that first name. The failure is a `ParseException` with message "type not found: " + text and offset 0. |
| `Formatting.Parse` | src/main/java/org/springframework/samples/petclinic/visit/VetFormatter.java:53-61 | The result of the loop over the one `findVets()` listing equals `FirstMatch` of the repository's vets. The method modifies nothing. |
| `Formatting.PrintThenParse` | src/main/java/org/springframework/samples/petclinic/visit/VetFormatter.java:48-58 | For a vet in the directory, parsing its printed form succeeds and returns a vet with the same first name. |
| `Formatting.PrintThenParseUnique` | src/main/java/org/springframework/samples/petclinic/visit/VetFormatter.java:48-58 | When first names are unique, parsing a directory vet's printed form returns that vet itself. |
| `Formatting.ParseThenPrint` | src/main/java/org/springframework/samples/petclinic/visit/VetFormatter.java:48-57 | When parsing succeeds, printing the result gives back the parsed text. |
| `Formatting.DuplicateNameParsesToFirst` | src/main/java/org/springframework/samples/petclinic/visit/VetFormatter.java:55-58 | In any directory, when vet `i` is the first with its first name and a later, different vet `j` shares that name, parsing `j`'s printed name returns vet `i` and not vet `j`. |
| `Web.DisallowedIdIsKept` | src/main/java/org/springframework/samples/petclinic/owner/VisitController.java:59 | With "id" disallowed, a bound visit keeps its own id whatever the form submits. Every other field binds as if the form carried no id. |
| `Web.AllowedIdIsBound` | src/main/java/org/springframework/samples/petclinic/owner/VisitController.java:59 | Without that rule, a submitted id would overwrite the visit's id. |
| `Web.DataBinder.SetDisallowedFields` | src/main/java/org/springframework/samples/petclinic/owner/VisitController.java:59 | The binder's disallowed set becomes exactly the given set. |
| `Web.ModelMap.Put` | src/main/java/org/springframework/samples/petclinic/owner/VisitController.java:73 | Sets one model entry and leaves the others. |
| `Domain.Pet.SetVisitsInternal` | src/main/java/org/springframework/samples/petclinic/owner/VisitController.java:72 | The pet's visit list becomes exactly the given list. |
| `Domain.Pet.AddVisit` | src/main/java/org/springframework/samples/petclinic/owner/VisitController.java:76 | The pet's visit list gets the visit appended at its end. |
| `Repositories.VisitRepository.Save` | src/main/java/org/springframework/samples/petclinic/owner/VisitController.java:95 | A visit with an id replaces the record under that id. A new visit is inserted under an id not yet taken, and the stored record carries that id. Nothing else in the map changes, and `Valid()` is kept. |
| `Controller.EditedVisitIsValidatedAsNew` | src/main/java/org/springframework/samples/petclinic/owner/VisitController.java:110-116 | The visit `processUpdateForm` validates is the fresh visit with the form bound onto it under the "id" rule, so it is still new: it has no id until line 116, and without a submitted vet it gets the "type" error. |
| `Controller.VisitController.constructor` | src/main/java/org/springframework/samples/petclinic/owner/VisitController.java:46-50 | The controller holds the two given repositories. |
| `Controller.VisitController.SetAllowedFields` | src/main/java/org/springframework/samples/petclinic/owner/VisitController.java:57-60 | The binder disallows exactly "id". Afterwards, every visit bound through it keeps its id, whatever form is submitted. |
| `Controller.VisitController.LoadPetWithVisit` | src/main/java/org/springframework/samples/petclinic/owner/VisitController.java:70-79 | For a known pet, the result is a fresh visit with no id. The pet's visits become the repository's list for that pet followed by that fresh visit. The pet is put into the model under "pet". Only that pet and the model change. For an unknown pet the request stops with `PetNotFound` and the model is unchanged. |
| `Controller.VisitController.InitNewVisitForm` | src/main/java/org/springframework/samples/petclinic/owner/VisitController.java:83-85 | Returns the form view and changes nothing. |
| `Controller.VisitController.ProcessNewVisitForm` | src/main/java/org/springframework/samples/petclinic/owner/VisitController.java:89-98 | With errors, it returns the form view and the repository is unchanged. Without errors, it returns the owner redirect and the map gains exactly this visit under a fresh id. A visit already carrying an id replaces that one record. |
| `Controller.VisitController.InitUpdateForm` | src/main/java/org/springframework/samples/petclinic/owner/VisitController.java:101-107 | The model's "visit" entry becomes the record stored under `visitId`, or null when there is none. Returns the form view. |
| `Controller.VisitController.ProcessUpdateForm` | src/main/java/org/springframework/samples/petclinic/owner/VisitController.java:110-120 | With errors, nothing is saved, the visit is put back into the model under "visit", and the form view is returned. Without errors, the record under the path's `visitId` becomes the submitted visit with its id forced to `visitId`, whatever id it was submitted with. Nothing else changes, and the owner redirect is returned. |
| `Controller.VisitController.CancelVisit` | src/main/java/org/springframework/samples/petclinic/owner/VisitController.java:122-129 | For a stored id, only that record changes, and only its status, which becomes CANCELLED. For an unknown id, the repository is unchanged. Both paths return the same owner redirect. |
| `Formatting.Print` | src/main/java/org/springframework/samples/petclinic/visit/VetFormatter.java:48-50 | A vet prints as text that a directory holding only that vet parses back to that vet. |
| `Validation.HasLength` | src/main/java/org/springframework/samples/petclinic/visit/VisitValidator.java:41 | `StringUtils.hasLength`: holds exactly when the text is not null and has at least one character; blank text has length. No contract of its own; `ValidationErrors` states the rule in terms of it. |
| `Validation.MissingVet` | src/main/java/org/springframework/samples/petclinic/visit/VisitValidator.java:46 | The vet rule's condition: the visit is new and has no vet. No contract of its own; `ValidationErrors` states the vet rule in terms of it. |
| `Formatting.NotFound` | src/main/java/org/springframework/samples/petclinic/visit/VetFormatter.java:60 | The `ParseException` with message "type not found: " + text and offset 0. No contract of its own; `FirstMatch` states when it is the result. |
| `Validation.IsAssignableFrom` | src/main/java/org/springframework/samples/petclinic/visit/VisitValidator.java:57 | `isAssignableFrom` for a class target: `c` is the target or one of its superclasses is. No contract of its own; `SupportsExactlyVisitSubtypes` characterises it. |
| `Validation.Supports` | src/main/java/org/springframework/samples/petclinic/visit/VisitValidator.java:56-58 | `supports` is `isAssignableFrom` with `Visit` as the target. No contract of its own; `SupportsExactlyVisitSubtypes` characterises it. |
| `Domain.Visit.IsNew` | src/main/java/org/springframework/samples/petclinic/visit/VisitValidator.java:46 | `isNew`: a visit is new exactly when it has no id. No contract of its own; it is the stand-in for an unshown class. |
| `Domain.NewVisit` | src/main/java/org/springframework/samples/petclinic/owner/VisitController.java:75 | `new Visit()`: no id, no description, no vet, status SCHEDULED. No contract of its own; `LoadPetWithVisit` states what it returns. |
| `Repositories.VisitRepository.FindById` | src/main/java/org/springframework/samples/petclinic/owner/VisitController.java:123 | Finds a record exactly when one is stored under the id. Under `Valid()` the record it finds carries that id. |
| `Repositories.VisitRepository.FindByPetId` | src/main/java/org/springframework/samples/petclinic/owner/VisitController.java:72 | The repository's list for the pet, empty when it has none. No contract of its own: a lookup of the modelled storage. |
| `Repositories.VisitRepository.FindVets` | src/main/java/org/springframework/samples/petclinic/visit/VetFormatter.java:54 | The vet directory in iteration order. No contract of its own; `Parse` states what is done with it. |
| `Repositories.PetRepository.FindById` | src/main/java/org/springframework/samples/petclinic/owner/VisitController.java:71 | Finds a pet exactly when one is stored under the id, and the pet found is one of the stored pets. |
| `Web.Bind` | src/main/java/org/springframework/samples/petclinic/owner/VisitController.java:59 | Copies each submitted field onto the visit unless that field is disallowed. No contract of its own; `DisallowedIdIsKept` and `AllowedIdIsBound` state what the rule at line 59 changes. |
| `Web.DataBinder.BindVisit` | src/main/java/org/springframework/samples/petclinic/owner/VisitController.java:59 | Binds through the binder's current disallowed set. No contract of its own; `SetAllowedFields` states that after the rule no bound visit takes its id from the form. |

## Left out

- The cast in `validate`: `validate(Object obj, Errors errors)` casts `obj` to `Visit` (VisitValidator.java:38) and throws `ClassCastException` for any other object. `Validate` takes a `Visit`, so that failure cannot be expressed.
- `vetsAll`: it only passes the repository's `findVets()` to the view.
- Spring MVC dispatch is not modelled: `@ModelAttribute`, `@InitBinder`, `@Valid`, routes and view rendering. The framework places `loadPetWithVisit`'s result in the model under "visit". Only `processNewVisitForm` and `processUpdateForm` take a bound visit (VisitController.java:89, 110); for them the framework binds the form and runs whatever `@Valid` validation is configured. The shown code registers no validator, so it does not say that `@Valid` runs `VisitValidator`. The model takes the handlers' inputs (the bound visit, the `hasErrors` flag, path ids) as plain parameters.
- Form binding is reduced to the fields of a submitted visit and the disallowed-field rule. Type conversion and binding errors are not modelled, nor are empty text turning into null or vet text going through the formatter on binding.
- Persistence is not modelled. The repositories are maps and `save` is a map update. `findByPetId` answers from a per-pet list that `save` does not refresh. The fresh ids of new records come from a counter, which stands for the storage layer's id generator.
- Visits are values, so object identity is not modelled. In the code, the record `findById` returns in `cancelVisit` is the object that gets modified and saved, and the fresh visit is the same object in the pet's list and in the model.
- `Pet`, `Vet`, `Visit`, `Status` and `BaseEntity` are not part of this model. They are minimal stand-ins. `isNew` holds when there is no id. `addVisit` appends. A fresh visit has status SCHEDULED. The visit date is not modelled.
- An unknown pet in `loadPetWithVisit` is not guarded by the code. It fails with a null dereference before it touches the model. The model returns `PetNotFound` at the same point.
- Ids are unbounded integers, so 32-bit overflow of Java `int` ids is not modelled. Java nulls for a vet's first name and for the text passed to `parse` are not modelled either.
- The `Locale` parameters of `print` and `parse` are not modelled; the code ignores them.
- Interfaces are not modelled for `supports`, only superclass chains. Nothing below a class can be reached through interfaces alone, so the statement is not weakened.
- Concurrency and the request lifecycle are not modelled. The code has no concurrency of its own.
