/** BaseAttributeDelta: the name every attribute delta carries, and the name-based is, equals and hashCode. */
module BaseAttributeDeltas {
  import opened Wrappers
  import opened Names
  import opened Objects
  import opened Deltas

  /** The constructor's check: a blank (null, empty or all-whitespace) name is refused; otherwise getName returns it as given. */
  function CheckedName(name: Option<string>): (r: Result<string, Error>)
    ensures r.Success? <==> !IsBlank(name)
    ensures r.Failure? ==> r.error == IllegalArgument("Name must not be blank!")
    ensures r.Success? ==> name == Some(r.value) && |r.value| > 0
  {
    if IsBlank(name) then Failure(IllegalArgument("Name must not be blank!")) else Success(name.value)
  }

  /** is(n): case-insensitive comparison with the delta's name. */
  predicate Is(d: AttributeDelta, n: string) {
    NamesEqual(d.name, n)
  }

  /** getClass() == other.getClass(). */
  predicate SameClass(a: AttributeDelta, b: AttributeDelta) {
    a.ComplexAttributeDelta? == b.ComplexAttributeDelta?
  }

  /** BaseAttributeDelta.equals: the same object, or a non-null delta of the same runtime class whose name is(...) this one's. */
  predicate BaseEquals(a: AttributeDelta, other: Option<AttributeDelta>) {
    other == Some(a) || (other.Some? && SameClass(a, other.value) && Is(a, other.value.name))
  }

  function HashCode(d: AttributeDelta): int {
    NameHashCode(d.name)
  }

  /** equals is false for null and for another runtime class, and otherwise exactly the case-insensitive name test. */
  lemma BaseEqualsCases(a: AttributeDelta, other: Option<AttributeDelta>)
    ensures other.None? ==> !BaseEquals(a, other)
    ensures other.Some? && !SameClass(a, other.value) ==> !BaseEquals(a, other)
    ensures other.Some? && SameClass(a, other.value) ==> (BaseEquals(a, other) <==> NamesEqual(a.name, other.value.name))
  {
  }

  /** equals is an equivalence relation on non-null deltas. */
  lemma BaseEqualsIsEquivalence(a: AttributeDelta, b: AttributeDelta, c: AttributeDelta)
    ensures BaseEquals(a, Some(a))
    ensures BaseEquals(a, Some(b)) ==> BaseEquals(b, Some(a))
    ensures BaseEquals(a, Some(b)) && BaseEquals(b, Some(c)) ==> BaseEquals(a, Some(c))
  {
  }

  /** hashCode agrees with equals. */
  lemma HashCodeAgreesWithEquals(a: AttributeDelta, b: AttributeDelta)
    requires BaseEquals(a, Some(b))
    ensures HashCode(a) == HashCode(b)
  {
    if a != b {
      NameHashCodeRespectsNamesEqual(a.name, b.name);
    }
  }
}
