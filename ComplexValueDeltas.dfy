/**
 * ComplexValueDelta: Add, Delete and Merge, each applied in place to a value
 * list. The list is a ValueList object whose contents the operations update;
 * Kept, MergedAll and Applied are the functions that say what each operation
 * leaves in it.
 */
module ComplexValueDeltas {
  import opened Wrappers
  import opened Objects
  import opened Lists
  import opened Deltas

  /**
   * AttributeDeltaUtil.applyDeltas, which Merge calls on an embedded object's
   * attributes; it is not part of this model and is a parameter here. Its
   * result is a map from attribute name to the modified attribute.
   */
  type ApplyDeltas = (set<Attribute>, set<AttributeDelta>) -> map<string, Attribute>

  /** The mutable java.util.List<Object> the operations work on. */
  class ValueList {
    var elems: seq<Value>

    constructor (init: seq<Value>)
      ensures elems == init
    {
      elems := init;
    }
  }

  /** new Add(values): the values are snapshotted with List.copyOf. */
  function NewAdd(values: Option<seq<Value>>): (r: Result<ValueDelta, Error>)
    ensures r.Success? <==> values.Some? && NullValue !in values.value
    ensures r.Success? ==> r.value == Add(values.value)
    ensures r.Failure? ==> r.error == NullPointer
  {
    match ListCopyOf(values)
    case Success(copy) => Success(Add(copy))
    case Failure(e) => Failure(e)
  }

  /** new Merge(filter, deltas): a null filter is refused; null deltas become the empty set. */
  function NewMerge(filter: Option<Filter>, deltas: Option<set<AttributeDelta>>): (r: Result<ValueDelta, Error>)
    ensures r.Success? <==> filter.Some?
    ensures r.Failure? ==> r.error == IllegalArgument("Filter cannot be null")
    ensures r.Success? ==> r.value == Merge(filter.value, if deltas.Some? then deltas.value else {})
  {
    if filter.None? then Failure(IllegalArgument("Filter cannot be null"))
    else Success(Merge(filter.value, deltas.GetOr({})))
  }

  /** FilterBased.filterMatches: a null filter matches everything, a filter only ever matches objects. */
  predicate FilterMatches(filter: Option<Filter>, v: Value, accept: Accept) {
    filter.None? || (v.ObjectValue? && accept(filter.value, v.obj))
  }

  /** What Delete(filter) leaves: the values the filter does not match. */
  function Kept(vs: seq<Value>, filter: Option<Filter>, accept: Accept): seq<Value> {
    if vs == [] then []
    else
      var last := vs[|vs| - 1];
      Kept(vs[..|vs| - 1], filter, accept) + (if FilterMatches(filter, last, accept) then [] else [last])
  }

  /** Merge.applyToSingleObject: a matching object is rebuilt as an EmbeddedObject; anything else is returned as it is. */
  function MergeOne(v: Value, filter: Filter, deltas: set<AttributeDelta>, accept: Accept, applyDeltas: ApplyDeltas): Value {
    if v.ObjectValue? then
      if !FilterMatches(Some(filter), v, accept) then v
      else ObjectValue(BaseObject(EmbeddedObjectKind, v.obj.objectClass, applyDeltas(v.obj.attributes, deltas).Values))
    else v
  }

  /** What Merge(filter, deltas) leaves: every element passed through MergeOne. */
  function MergedAll(vs: seq<Value>, filter: Filter, deltas: set<AttributeDelta>, accept: Accept, applyDeltas: ApplyDeltas): seq<Value> {
    if vs == [] then []
    else MergedAll(vs[..|vs| - 1], filter, deltas, accept, applyDeltas) + [MergeOne(vs[|vs| - 1], filter, deltas, accept, applyDeltas)]
  }

  /** What applyTo leaves in a list holding vs. */
  function Applied(d: ValueDelta, vs: seq<Value>, accept: Accept, applyDeltas: ApplyDeltas): seq<Value> {
    match d
    case Add(values) => vs + values
    case Delete(filter) => Kept(vs, filter, accept)
    case Merge(filter, deltas) => MergedAll(vs, filter, deltas, accept, applyDeltas)
  }

  /** Add.applyTo: values.addAll(this.values). */
  method ApplyAdd(values: seq<Value>, list: ValueList)
    modifies list
    ensures list.elems == old(list.elems) + values
  {
    list.elems := list.elems + values;
  }

  /** Delete.applyTo: walks the list with an iterator and removes each element the filter matches. */
  method ApplyDelete(filter: Option<Filter>, list: ValueList, accept: Accept)
    modifies list
    ensures list.elems == Kept(old(list.elems), filter, accept)
  {
    ghost var orig := list.elems;
    ghost var consumed := 0;
    var i := 0;
    while i < |list.elems|
      invariant 0 <= i <= |list.elems|
      invariant 0 <= consumed <= |orig|
      invariant list.elems[..i] == Kept(orig[..consumed], filter, accept)
      invariant list.elems[i..] == orig[consumed..]
      decreases |list.elems| - i
    {
      var current := list.elems[i];
      assert current == orig[consumed];
      assert orig[..consumed + 1][..consumed] == orig[..consumed];
      if FilterMatches(filter, current, accept) {
        list.elems := list.elems[..i] + list.elems[i + 1..];
      } else {
        assert list.elems[..i + 1] == list.elems[..i] + [current];
        i := i + 1;
      }
      consumed := consumed + 1;
    }
    assert orig[..consumed] == orig;
    assert list.elems[..i] == list.elems;
  }

  /** Merge.applyTo: values.replaceAll(this::applyToSingleObject). */
  method ApplyMerge(filter: Filter, deltas: set<AttributeDelta>, list: ValueList, accept: Accept, applyDeltas: ApplyDeltas)
    modifies list
    ensures list.elems == MergedAll(old(list.elems), filter, deltas, accept, applyDeltas)
  {
    ghost var orig := list.elems;
    var i := 0;
    while i < |list.elems|
      invariant |list.elems| == |orig|
      invariant 0 <= i <= |list.elems|
      invariant list.elems[..i] == MergedAll(orig[..i], filter, deltas, accept, applyDeltas)
      invariant list.elems[i..] == orig[i..]
    {
      assert list.elems[i] == orig[i];
      assert orig[..i + 1][..i] == orig[..i];
      list.elems := list.elems[i := MergeOne(list.elems[i], filter, deltas, accept, applyDeltas)];
      assert list.elems[..i + 1] == list.elems[..i] + [list.elems[i]];
      i := i + 1;
    }
    assert orig[..i] == orig;
    assert list.elems[..i] == list.elems;
  }

  /** ComplexValueDelta.applyTo, dispatched on the runtime class. */
  method ApplyTo(d: ValueDelta, list: ValueList, accept: Accept, applyDeltas: ApplyDeltas)
    modifies list
    ensures list.elems == Applied(d, old(list.elems), accept, applyDeltas)
  {
    match d
    case Add(values) => ApplyAdd(values, list);
    case Delete(filter) => ApplyDelete(filter, list, accept);
    case Merge(filter, deltas) => ApplyMerge(filter, deltas, list, accept, applyDeltas);
  }

  // ----- What Delete keeps -----

  /** Delete keeps exactly the values its filter does not match. */
  lemma {:induction false} KeptMembers(vs: seq<Value>, filter: Option<Filter>, accept: Accept)
    ensures forall v :: v in Kept(vs, filter, accept) <==> v in vs && !FilterMatches(filter, v, accept)
  {
    if vs != [] {
      var init := vs[..|vs| - 1];
      KeptMembers(init, filter, accept);
      assert vs == init + [vs[|vs| - 1]];
    }
  }

  /** Delete works element by element and keeps the relative order: it distributes over concatenation. */
  lemma {:induction false} KeptConcat(a: seq<Value>, b: seq<Value>, filter: Option<Filter>, accept: Accept)
    ensures Kept(a + b, filter, accept) == Kept(a, filter, accept) + Kept(b, filter, accept)
  {
    if b == [] {
      assert a + b == a;
    } else {
      var init := b[..|b| - 1];
      KeptConcat(a, init, filter, accept);
      assert (a + b)[..|a + b| - 1] == a + init;
    }
  }

  /** Delete with a null filter empties the list. */
  lemma {:induction false} KeptNullFilter(vs: seq<Value>, accept: Accept)
    ensures Kept(vs, None, accept) == []
  {
    if vs != [] {
      KeptNullFilter(vs[..|vs| - 1], accept);
    }
  }

  /** The values that are not objects, in order. */
  function NonObjects(vs: seq<Value>): seq<Value> {
    if vs == [] then []
    else NonObjects(vs[..|vs| - 1]) + (if vs[|vs| - 1].ObjectValue? then [] else [vs[|vs| - 1]])
  }

  /** Delete with a filter never removes a scalar or a null: those pass through, in order and with their repeats. */
  lemma {:induction false} KeptKeepsNonObjects(vs: seq<Value>, filter: Filter, accept: Accept)
    ensures NonObjects(Kept(vs, Some(filter), accept)) == NonObjects(vs)
  {
    if vs != [] {
      var init := vs[..|vs| - 1];
      var last := vs[|vs| - 1];
      KeptKeepsNonObjects(init, filter, accept);
      var k := Kept(init, Some(filter), accept);
      if !FilterMatches(Some(filter), last, accept) {
        assert (k + [last])[..|k + [last]| - 1] == k;
      } else {
        assert k + [] == k;
      }
    }
  }

  // ----- What Merge leaves -----

  /**
   * Merge keeps the list's length; an element that is not an object, or that
   * the filter rejects, stays as it was; a matching object becomes a new
   * EmbeddedObject of the same object class whose attributes are those
   * applyDeltas computes from the original attributes.
   */
  lemma {:induction false} MergedAllAt(vs: seq<Value>, filter: Filter, deltas: set<AttributeDelta>, accept: Accept,
                                       applyDeltas: ApplyDeltas, k: nat)
    requires k < |vs|
    ensures |MergedAll(vs, filter, deltas, accept, applyDeltas)| == |vs|
    ensures !(vs[k].ObjectValue? && accept(filter, vs[k].obj)) ==>
      MergedAll(vs, filter, deltas, accept, applyDeltas)[k] == vs[k]
    ensures vs[k].ObjectValue? && accept(filter, vs[k].obj) ==>
      MergedAll(vs, filter, deltas, accept, applyDeltas)[k] ==
        ObjectValue(BaseObject(EmbeddedObjectKind, vs[k].obj.objectClass, applyDeltas(vs[k].obj.attributes, deltas).Values))
  {
    var init := vs[..|vs| - 1];
    if k < |vs| - 1 {
      MergedAllAt(init, filter, deltas, accept, applyDeltas, k);
    } else if init != [] {
      MergedAllAt(init, filter, deltas, accept, applyDeltas, 0);
    }
  }

  // ----- Edge cases -----

  /** Deleting from, or merging into, an empty list leaves it empty; Add to an empty list gives its values. */
  lemma EmptyList(d: ValueDelta, accept: Accept, applyDeltas: ApplyDeltas)
    ensures !d.Add? ==> Applied(d, [], accept, applyDeltas) == []
    ensures d.Add? ==> Applied(d, [], accept, applyDeltas) == d.values
  {
  }
}
