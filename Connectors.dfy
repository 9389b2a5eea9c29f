/**
 * The connector an operation runs against. Its code is not part of this
 * model: what it answers is fixed when it is built (the object a lookup finds,
 * the uid or exception an update-type call produces), and every call made to
 * it is recorded, in order, in `calls`. The capability flags stand for the
 * SPI interfaces (SearchOp, UpdateAttributeValuesOp) the connector class
 * implements.
 */
module Connectors {
  import opened Wrappers
  import opened Objects

  /** OperationOptions as far as the core uses it: the attributes to get, and every other option, passed through. */
  datatype OperationOptions = OperationOptions(attributesToGet: Option<set<string>>, others: map<string, string>)

  /** new OperationOptionsBuilder().build(). */
  const EMPTY_OPTIONS: OperationOptions := OperationOptions(None, map[])

  /** The Java Set an input sequence stands for (the sequence is its iteration order). */
  function AsSet(attrs: seq<Attribute>): (s: set<Attribute>)
    ensures forall a :: a in s <==> a in attrs
  {
    set a | a in attrs
  }

  datatype Call =
    | CreateCall(objectClass: ObjectClass, createAttributes: set<Attribute>, options: OperationOptions)
    | GetObjectCall(objectClass: ObjectClass, uid: Uid, options: OperationOptions)
    | UpdateCall(objectClass: ObjectClass, uid: Uid, attributes: set<Attribute>, options: OperationOptions)
    | AddAttributeValuesCall(objectClass: ObjectClass, uid: Uid, attributes: set<Attribute>, options: OperationOptions)
    | RemoveAttributeValuesCall(objectClass: ObjectClass, uid: Uid, attributes: set<Attribute>, options: OperationOptions)

  /** What a GetObject call answers: the object's attributes, null when there is no such object, or an exception. */
  type Lookup = (ObjectClass, Uid, OperationOptions) -> Result<Option<seq<Attribute>>, Error>

  class Connector {
    const isSearchOp: bool
    const isUpdateAttributeValuesOp: bool
    const lookup: Lookup
    const answer: Call -> Result<Uid, Error>
    var calls: seq<Call>

    constructor (isSearchOp: bool, isUpdateAttributeValuesOp: bool, lookup: Lookup, answer: Call -> Result<Uid, Error>)
      ensures this.isSearchOp == isSearchOp && this.isUpdateAttributeValuesOp == isUpdateAttributeValuesOp
      ensures this.lookup == lookup && this.answer == answer
      ensures calls == []
    {
      this.isSearchOp := isSearchOp;
      this.isUpdateAttributeValuesOp := isUpdateAttributeValuesOp;
      this.lookup := lookup;
      this.answer := answer;
      calls := [];
    }

    /** getObject through the search operation. */
    method GetObject(objectClass: ObjectClass, uid: Uid, options: OperationOptions) returns (r: Result<Option<seq<Attribute>>, Error>)
      modifies this
      ensures calls == old(calls) + [GetObjectCall(objectClass, uid, options)]
      ensures r == lookup(objectClass, uid, options)
    {
      calls := calls + [GetObjectCall(objectClass, uid, options)];
      r := lookup(objectClass, uid, options);
    }

    /** create, update, addAttributeValues or removeAttributeValues. */
    method Invoke(c: Call) returns (r: Result<Uid, Error>)
      requires !c.GetObjectCall?
      modifies this
      ensures calls == old(calls) + [c]
      ensures r == answer(c)
    {
      calls := calls + [c];
      r := answer(c);
    }
  }
}
