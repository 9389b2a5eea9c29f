/**
 * ComplexAttributeDelta: a named, ordered list of value operations, applied
 * one after the other to a copy of the base attribute's values.
 */
module ComplexAttributeDeltas {
  import opened Wrappers
  import opened Objects
  import opened Deltas
  import opened BaseAttributeDeltas
  import opened ComplexValueDeltas

  /** The constructor: the name is checked by BaseAttributeDelta; the op list is kept as given (a read-only copy), or null. */
  function NewComplexAttributeDelta(name: Option<string>, valueDeltas: Option<seq<ValueDelta>>): (r: Result<ComplexDelta, Error>)
    ensures r.Success? <==> !IsBlank(name)
    ensures r.Failure? ==> r.error == IllegalArgument("Name must not be blank!")
    ensures r.Success? ==> Some(r.value.name) == name && r.value.valueDeltas == valueDeltas
  {
    match CheckedName(name)
    case Success(n) => Success(ComplexAttributeDelta(n, valueDeltas))
    case Failure(e) => Failure(e)
  }

  /** ComplexAttributeDelta.equals; the op lists are compared elementwise (valueDeltas may be null on both sides). */
  predicate Equals(a: ComplexDelta, other: Option<AttributeDelta>) {
    other == Some(a) || (BaseEquals(a, other) && SameClass(a, other.value) && a.valueDeltas == other.value.valueDeltas)
  }

  /** equals holds iff the other delta is a ComplexAttributeDelta with a case-insensitively equal name and equal op lists. */
  lemma EqualsMeaning(a: ComplexDelta, other: Option<AttributeDelta>)
    ensures Equals(a, other) <==>
      other.Some? && other.value.ComplexAttributeDelta? &&
      Names.NamesEqual(a.name, other.value.name) && a.valueDeltas == other.value.valueDeltas
  {
  }

  /** Equal deltas have equal hash codes (hashCode is inherited from BaseAttributeDelta). */
  lemma EqualsImpliesSameHash(a: ComplexDelta, b: AttributeDelta)
    requires Equals(a, Some(b))
    ensures HashCode(a) == HashCode(b)
  {
    HashCodeAgreesWithEquals(a, b);
  }

  /** The list left after applying ops, in order, each to the result of the one before. */
  function ApplyAll(ops: seq<ValueDelta>, vs: seq<Value>, accept: Accept, applyDeltas: ApplyDeltas): seq<Value> {
    if ops == [] then vs
    else Applied(ops[|ops| - 1], ApplyAll(ops[..|ops| - 1], vs, accept, applyDeltas), accept, applyDeltas)
  }

  /**
   * applyTo(attribute): starts from a copy of the attribute's values (an empty
   * list when the attribute is null), applies the op list in order, and wraps
   * the result under the delta's name. A null value list on the attribute, or
   * a null op list, throws.
   */
  method ApplyTo(d: ComplexDelta, attribute: Option<Attribute>, accept: Accept, applyDeltas: ApplyDeltas)
    returns (r: Result<Attribute, Error>)
    ensures r.Failure? <==> (attribute.Some? && attribute.value.values.None?) || d.valueDeltas.None?
    ensures r.Failure? ==> r.error == NullPointer
    ensures r.Success? ==> r.value.name == d.name
    ensures r.Success? ==>
      r.value.values == Some(ApplyAll(d.valueDeltas.value, if attribute.Some? then attribute.value.values.value else [],
                                      accept, applyDeltas))
  {
    if attribute.Some? && attribute.value.values.None? {
      return Failure(NullPointer);
    }
    var start := if attribute.Some? then attribute.value.values.value else [];
    var values := new ValueList(start);
    if d.valueDeltas.None? {
      return Failure(NullPointer);
    }
    var ops := d.valueDeltas.value;
    var i := 0;
    while i < |ops|
      invariant 0 <= i <= |ops|
      invariant values.elems == ApplyAll(ops[..i], start, accept, applyDeltas)
    {
      assert ops[..i + 1][..i] == ops[..i];
      ComplexValueDeltas.ApplyTo(ops[i], values, accept, applyDeltas);
      i := i + 1;
    }
    assert ops[..i] == ops;
    r := Success(Attribute(d.name, Some(values.elems)));
  }

  // ----- Order of application -----

  /** Applying a + b is applying a, then b to what a left. */
  lemma {:induction false} ApplyAllConcat(a: seq<ValueDelta>, b: seq<ValueDelta>, vs: seq<Value>,
                                          accept: Accept, applyDeltas: ApplyDeltas)
    ensures ApplyAll(a + b, vs, accept, applyDeltas) == ApplyAll(b, ApplyAll(a, vs, accept, applyDeltas), accept, applyDeltas)
  {
    if b == [] {
      assert a + b == a;
    } else {
      ApplyAllConcat(a, b[..|b| - 1], vs, accept, applyDeltas);
      assert (a + b)[..|a + b| - 1] == a + b[..|b| - 1];
    }
  }

  /** [Delete(null), Add(xs)] leaves exactly xs, whatever the list held. */
  lemma ClearThenAdd(xs: seq<Value>, vs: seq<Value>, accept: Accept, applyDeltas: ApplyDeltas)
    ensures ApplyAll([Delete(None), Add(xs)], vs, accept, applyDeltas) == xs
  {
    KeptNullFilter(vs, accept);
    ApplyAllConcat([Delete(None)], [Add(xs)], vs, accept, applyDeltas);
    assert ApplyAll([Delete(None)], vs, accept, applyDeltas) == [] by {
      assert [Delete(None)][..0] == [];
    }
    assert [Add(xs)][..0] == [];
    assert [] + xs == xs;
  }

  /** [Add(xs), Delete(null)] leaves nothing. */
  lemma AddThenClear(xs: seq<Value>, vs: seq<Value>, accept: Accept, applyDeltas: ApplyDeltas)
    ensures ApplyAll([Add(xs), Delete(None)], vs, accept, applyDeltas) == []
  {
    KeptNullFilter(vs + xs, accept);
    ApplyAllConcat([Add(xs)], [Delete(None)], vs, accept, applyDeltas);
    assert ApplyAll([Add(xs)], vs, accept, applyDeltas) == vs + xs by {
      assert [Add(xs)][..0] == [];
    }
    assert [Delete(None)][..0] == [];
  }

  /** A single operation list applies that operation. */
  lemma ApplyOne(d: ValueDelta, vs: seq<Value>, accept: Accept, applyDeltas: ApplyDeltas)
    ensures ApplyAll([d], vs, accept, applyDeltas) == Applied(d, vs, accept, applyDeltas)
  {
    assert [d][..0] == [];
  }

  /** Deleting the objects f matches and then adding x back leaves [y, x]. */
  lemma DeleteThenAddObject(f: Filter, x: BaseObject, y: BaseObject, accept: Accept, applyDeltas: ApplyDeltas)
    requires accept(f, x) && !accept(f, y)
    ensures ApplyAll([Delete(Some(f)), Add([ObjectValue(x)])], [ObjectValue(x), ObjectValue(y)], accept, applyDeltas)
            == [ObjectValue(y), ObjectValue(x)]
  {
    var vx, vy := ObjectValue(x), ObjectValue(y);
    assert Kept([vx], Some(f), accept) == [] by {
      assert [vx][..0] == [];
    }
    assert Kept([vx, vy], Some(f), accept) == [vy] by {
      assert [vx, vy][..1] == [vx];
    }
    ApplyOne(Delete(Some(f)), [vx, vy], accept, applyDeltas);
    ApplyOne(Add([vx]), [vy], accept, applyDeltas);
    ApplyAllConcat([Delete(Some(f))], [Add([vx])], [vx, vy], accept, applyDeltas);
  }

  /** Adding x and then deleting the objects f matches removes both copies of x and leaves [y]. */
  lemma AddThenDeleteObject(f: Filter, x: BaseObject, y: BaseObject, accept: Accept, applyDeltas: ApplyDeltas)
    requires accept(f, x) && !accept(f, y)
    ensures ApplyAll([Add([ObjectValue(x)]), Delete(Some(f))], [ObjectValue(x), ObjectValue(y)], accept, applyDeltas)
            == [ObjectValue(y)]
  {
    var vx, vy := ObjectValue(x), ObjectValue(y);
    KeptConcat([vx, vy], [vx], Some(f), accept);
    assert Kept([vx, vy], Some(f), accept) == [vy] by {
      assert [vx, vy][..1] == [vx];
      assert [vx][..0] == [];
    }
    assert Kept([vx], Some(f), accept) == [] by {
      assert [vx][..0] == [];
    }
    assert [vx, vy] + [vx] == [vx, vy, vx];
    ApplyOne(Add([vx]), [vx, vy], accept, applyDeltas);
    ApplyOne(Delete(Some(f)), [vx, vy, vx], accept, applyDeltas);
    ApplyAllConcat([Add([vx])], [Delete(Some(f))], [vx, vy], accept, applyDeltas);
  }

  /**
   * The two orders differ: with objects x (matched by f) and y (not matched),
   * deleting then re-adding x leaves [y, x], while adding x and then deleting
   * removes both copies of x and leaves [y].
   */
  lemma OrderMatters(f: Filter, x: BaseObject, y: BaseObject, accept: Accept, applyDeltas: ApplyDeltas)
    requires accept(f, x) && !accept(f, y)
    ensures ApplyAll([Delete(Some(f)), Add([ObjectValue(x)])], [ObjectValue(x), ObjectValue(y)], accept, applyDeltas)
            != ApplyAll([Add([ObjectValue(x)]), Delete(Some(f))], [ObjectValue(x), ObjectValue(y)], accept, applyDeltas)
  {
    DeleteThenAddObject(f, x, y, accept, applyDeltas);
    AddThenDeleteObject(f, x, y, accept, applyDeltas);
    assert |[ObjectValue(y), ObjectValue(x)]| != |[ObjectValue(y)]|;
  }
}
