/** The required-field rules for a visit form (`VisitValidator`). */
module Validation {
  import opened Domain

  /** The error code and default message of both rules. */
  const Required: string := "required"

  /** One `rejectValue(field, code, defaultMessage)` entry. */
  datatype FieldError = FieldError(field: string, code: string, defaultMessage: string)

  /** The error the description rule adds (on the field named "name"). */
  const NameRequired: FieldError := FieldError("name", Required, Required)
  /** The error the vet rule adds (on the field named "type"). */
  const TypeRequired: FieldError := FieldError("type", Required, Required)

  /** The error sink a validator writes to: an append-only list. */
  class Errors {
    var fieldErrors: seq<FieldError>

    constructor ()
      ensures fieldErrors == []
    {
      fieldErrors := [];
    }

    /** `rejectValue`: records one more field error. */
    method RejectValue(field: string, code: string, defaultMessage: string)
      modifies this
      ensures fieldErrors == old(fieldErrors) + [FieldError(field, code, defaultMessage)]
    {
      fieldErrors := fieldErrors + [FieldError(field, code, defaultMessage)];
    }
  }

  /** `StringUtils.hasLength`: not null and at least one character. Blank
      text such as " " has length. */
  predicate HasLength(s: Option<string>)
  {
    s.Some? && |s.value| > 0
  }

  /** The vet rule's condition: a new visit with no vet assigned. */
  predicate MissingVet(visit: Visit)
  {
    visit.IsNew() && visit.vet.None?
  }

  /** The errors `validate` appends for `visit`, in order. */
  function ValidationErrors(visit: Visit): (r: seq<FieldError>)
    ensures |r| <= 2
    ensures NameRequired in r <==> !HasLength(visit.description)
    ensures TypeRequired in r <==> MissingVet(visit)
    ensures forall e :: e in r ==> e == NameRequired || e == TypeRequired
    ensures |r| == 2 ==> r == [NameRequired, TypeRequired]
    ensures r == [] <==> HasLength(visit.description) && !MissingVet(visit)
  {
    (if !HasLength(visit.description) then [NameRequired] else [])
    + (if MissingVet(visit) then [TypeRequired] else [])
  }

  /** A visit that already has an id never gets the vet error, whatever its vet. */
  lemma ExistingVisitNeedsNoVet(visit: Visit)
    requires !visit.IsNew()
    ensures TypeRequired !in ValidationErrors(visit)
    ensures ValidationErrors(visit) == if HasLength(visit.description) then [] else [NameRequired]
  {
  }

  /** `validate`: reads the visit and appends the errors of the two rules to
      the sink; nothing else changes. */
  method Validate(visit: Visit, errors: Errors)
    modifies errors
    ensures errors.fieldErrors == old(errors.fieldErrors) + ValidationErrors(visit)
  {
    if !HasLength(visit.description) {
      errors.RejectValue("name", Required, Required);
    }
    if visit.IsNew() && visit.vet.None? {
      errors.RejectValue("type", Required, Required);
    }
  }

  /** A Java class, as far as `isAssignableFrom` sees it: its name and its
      superclass chain. Interfaces are not needed: a type assignable to the
      class `Visit` is `Visit` or one of its subclasses. */
  datatype JavaClass = JavaClass(name: string, superclass: Option<JavaClass>)

  const VisitClassName: string := "org.springframework.samples.petclinic.visit.Visit"

  /** `target.class.isAssignableFrom(c)` for a class `target`. */
  predicate IsAssignableFrom(target: string, c: JavaClass)
    decreases c
  {
    c.name == target || (c.superclass.Some? && IsAssignableFrom(target, c.superclass.value))
  }

  /** `supports`. */
  predicate Supports(c: JavaClass)
  {
    IsAssignableFrom(VisitClassName, c)
  }

  /** The names of `c` and of all its superclasses, nearest first. */
  function Ancestry(c: JavaClass): (r: seq<string>)
    decreases c
  {
    [c.name] + (if c.superclass.Some? then Ancestry(c.superclass.value) else [])
  }

  /** `supports` holds exactly for `Visit` and the classes below it. */
  lemma {:induction false} SupportsExactlyVisitSubtypes(c: JavaClass)
    ensures Supports(c) <==> VisitClassName in Ancestry(c)
    decreases c
  {
    if c.superclass.Some? {
      SupportsExactlyVisitSubtypes(c.superclass.value);
    }
  }
}
