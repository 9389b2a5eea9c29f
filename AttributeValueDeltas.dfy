/**
 * AttributeValueDelta: the data-only counterpart of ComplexValueDelta one
 * level up (its Merge carries ComplexAttributeDeltas). The classes only hold
 * what their constructors were given; nothing here applies them.
 */
module AttributeValueDeltas {
  import opened Wrappers
  import opened Objects
  import opened Lists
  import opened Deltas

  /** FilterBased is a concrete class in Java, so a bare FilterBased is a variant of its own. */
  datatype AttributeValueDelta =
    | AddValues(values: seq<Value>)
    | FilterBasedValues(filter: Option<Filter>)
    | DeleteValues(filter: Option<Filter>)
    | MergeValues(mergeFilter: Filter, deltas: seq<ComplexDelta>)

  /** new Add(values): an immutable copy via List.copyOf, which throws on a null list or element. */
  function NewAddValues(values: Option<seq<Value>>): (r: Result<AttributeValueDelta, Error>)
    ensures r.Success? <==> values.Some? && NullValue !in values.value
    ensures r.Success? ==> r.value == AddValues(values.value)
    ensures r.Failure? ==> r.error == NullPointer
  {
    match ListCopyOf(values)
    case Success(copy) => Success(AddValues(copy))
    case Failure(e) => Failure(e)
  }

  /** new Merge(filter, deltas): the filter must not be null; null deltas become the empty list, others an order-preserving copy. */
  function NewMergeValues(filter: Option<Filter>, deltas: Option<seq<ComplexDelta>>): (r: Result<AttributeValueDelta, Error>)
    ensures r.Success? <==> filter.Some?
    ensures r.Failure? ==> r.error == IllegalArgument("Filter cannot be null")
    ensures r.Success? ==> r.value == MergeValues(filter.value, if deltas.Some? then deltas.value else [])
  {
    if filter.None? then Failure(IllegalArgument("Filter cannot be null"))
    else Success(MergeValues(filter.value, deltas.GetOr([])))
  }

  /** FilterBased.getFilter: the filter given to the constructor, null included. */
  function GetValuesFilter(d: AttributeValueDelta): (f: Option<Filter>)
    requires !d.AddValues?
    ensures d.FilterBasedValues? || d.DeleteValues? ==> f == d.filter
    ensures d.MergeValues? ==> f == Some(d.mergeFilter)
  {
    if d.MergeValues? then Some(d.mergeFilter) else d.filter
  }

  /** new FilterBased(filter): any filter, null included, is kept as given. */
  function NewFilterBasedValues(filter: Option<Filter>): (r: AttributeValueDelta)
    ensures r.FilterBasedValues? && GetValuesFilter(r) == filter
  {
    FilterBasedValues(filter)
  }

  /** Delete takes a null filter and then describes itself as "Delete: *"; Merge never has a null filter. */
  lemma DeleteAcceptsNullFilter()
    ensures GetValuesFilter(DeleteValues(None)) == None
    ensures DeleteDescription(GetValuesFilter(DeleteValues(None))) == "Delete: *"
    ensures NewMergeValues(None, None).Failure?
  {
  }
}
