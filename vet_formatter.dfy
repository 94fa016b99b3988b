/** Conversion between a vet and the text a form carries for it
    (`VetFormatter`): a vet prints as its first name, and text parses to the
    first vet in the directory with exactly that first name. */
module Formatting {
  import opened Domain
  import opened Repositories

  /** `java.text.ParseException(message, errorOffset)`. */
  datatype ParseException = ParseException(message: string, errorOffset: int)

  /** The exception `parse` throws when no vet has first name `text`. */
  function NotFound(text: string): ParseException
  {
    ParseException("type not found: " + text, 0)
  }

  /** `print`: the text that names `vet` in a form. */
  function Print(vet: Vet): (r: string)
    ensures FirstMatch([vet], r) == Success(vet)
  {
    vet.firstName
  }

  /** No vet before index `i` has first name `text`. */
  predicate NoMatchBefore(vets: seq<Vet>, text: string, i: int)
    requires 0 <= i <= |vets|
  {
    forall j :: 0 <= j < i ==> vets[j].firstName != text
  }

  /** True when no two vets of the directory share a first name. */
  predicate UniqueFirstNames(vets: seq<Vet>)
  {
    forall i, j :: 0 <= i < |vets| && 0 <= j < |vets| && vets[i].firstName == vets[j].firstName ==> i == j
  }

  /** The outcome of `parse(text)` over a directory listing `vets`: the first
      vet whose first name equals `text` (exact, case-sensitive comparison),
      or the not-found exception. */
  function FirstMatch(vets: seq<Vet>, text: string): (r: Result<Vet, ParseException>)
    ensures r.Success? ==>
      exists i :: 0 <= i < |vets| && vets[i] == r.value && r.value.firstName == text && NoMatchBefore(vets, text, i)
    ensures r.Failure? <==> forall i :: 0 <= i < |vets| ==> vets[i].firstName != text
    ensures r.Failure? ==> r.error == NotFound(text)
  {
    if vets == [] then Failure(NotFound(text))
    else if vets[0].firstName == text then Success(vets[0])
    else
      var rest := FirstMatch(vets[1..], text);
      assert rest.Success? ==> exists i :: 0 <= i < |vets| && vets[i] == rest.value && NoMatchBefore(vets, text, i) by {
        if rest.Success? {
          var i :| 0 <= i < |vets| - 1 && vets[1..][i] == rest.value && NoMatchBefore(vets[1..], text, i);
          assert NoMatchBefore(vets, text, i + 1);
        }
      }
      assert rest.Failure? ==> forall i :: 0 <= i < |vets| ==> vets[i].firstName != text by {
        if rest.Failure? {
          forall i | 0 <= i < |vets| ensures vets[i].firstName != text {
            if i > 0 { assert vets[i] == vets[1..][i - 1]; }
          }
        }
      }
      rest
  }

  /** `parse`: asks the repository for the vets once, then scans them in order
      and returns on the first match; it changes nothing. */
  method Parse(repository: VisitRepository, text: string) returns (r: Result<Vet, ParseException>)
    ensures r == FirstMatch(repository.vets, text)
  {
    var found := repository.FindVets();
    var i := 0;
    while i < |found|
      invariant 0 <= i <= |found|
      invariant FirstMatch(found[i..], text) == FirstMatch(found, text)
    {
      if found[i].firstName == text {
        return Success(found[i]);
      }
      assert found[i..][1..] == found[i + 1..];
      i := i + 1;
    }
    return Failure(NotFound(text));
  }

  /** Printing a vet of the directory and parsing the text back finds a vet
      with the same first name, the first such vet of the directory. */
  lemma PrintThenParse(vets: seq<Vet>, vet: Vet)
    requires vet in vets
    ensures FirstMatch(vets, Print(vet)).Success?
    ensures FirstMatch(vets, Print(vet)).value.firstName == vet.firstName
  {
  }

  /** When first names are unique, the round trip gives back the vet itself. */
  lemma PrintThenParseUnique(vets: seq<Vet>, vet: Vet)
    requires vet in vets && UniqueFirstNames(vets)
    ensures FirstMatch(vets, Print(vet)) == Success(vet)
  {
  }

  /** Parsing and printing back gives the parsed text. */
  lemma ParseThenPrint(vets: seq<Vet>, text: string)
    requires FirstMatch(vets, text).Success?
    ensures Print(FirstMatch(vets, text).value) == text
  {
  }

  /** With a duplicated first name, parsing returns the first vet that has
      it, so the round trip loses any later, different vet of that name. */
  lemma DuplicateNameParsesToFirst(vets: seq<Vet>, i: int, j: int)
    requires 0 <= i < j < |vets|
    requires vets[i].firstName == vets[j].firstName && vets[i] != vets[j]
    requires NoMatchBefore(vets, vets[i].firstName, i)
    ensures FirstMatch(vets, Print(vets[j])) == Success(vets[i])
    ensures FirstMatch(vets, Print(vets[j])) != Success(vets[j])
  {
  }
}
