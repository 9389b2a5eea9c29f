/**
 * The two mutually recursive delta families: ComplexValueDelta (an operation
 * on one attribute's value list) and BaseAttributeDelta (a named modification
 * of one attribute). A Merge operation carries attribute deltas, and a
 * ComplexAttributeDelta carries value operations.
 */
module Deltas {
  import opened Wrappers
  import opened Objects

  /**
   * ComplexValueDelta and its three subclasses. Delete's filter may be null
   * (None); the Merge constructor refuses a null filter, so a Merge always
   * has one.
   */
  datatype ValueDelta =
    | Add(values: seq<Value>)
    | Delete(filter: Option<Filter>)
    | Merge(mergeFilter: Filter, deltas: set<AttributeDelta>)

  /**
   * BaseAttributeDelta's subclasses, one constructor per runtime class:
   * ComplexAttributeDelta (its op list may be null), and the framework's
   * AttributeDelta, whose add/remove/replace lists are not part of this model.
   */
  datatype AttributeDelta =
    | ComplexAttributeDelta(name: string, valueDeltas: Option<seq<ValueDelta>>)
    | PlainAttributeDelta(name: string)

  type ComplexDelta = d: AttributeDelta | d.ComplexAttributeDelta? witness ComplexAttributeDelta("delta", None)

  /** FilterBased.getFilter: the filter a Delete or Merge was built with. */
  function GetFilter(d: ValueDelta): (f: Option<Filter>)
    requires !d.Add?
    ensures d.Merge? ==> f == Some(d.mergeFilter)
    ensures d.Delete? ==> f == d.filter
  {
    if d.Merge? then Some(d.mergeFilter) else d.filter
  }

  /** Delete.toString, the same in both Delete classes: a null filter prints as "*". */
  function DeleteDescription(filter: Option<Filter>): (s: string)
    ensures filter.None? ==> s == "Delete: *"
    ensures filter.Some? ==> s == "Delete: " + filter.value.text
  {
    "Delete: " + (if filter.Some? then filter.value.text else "*")
  }
}
