/**
 * ConnectorObjectReference: a reference to a connector object that holds
 * either the whole object or only its identification. The holder's two-variant
 * invariant is the subset type Referenced.
 */
module References {
  import opened Wrappers
  import opened Names
  import opened Objects

  /** BaseConnectorObject, one constructor per runtime class; OtherConnectorObject is any other subclass. */
  datatype BaseConnectorObject =
    | ConnectorObject(objectClass: ObjectClass, attributes: set<Attribute>)
    | ConnectorObjectIdentification(objectClass: ObjectClass, identifiers: set<Attribute>)
    | OtherConnectorObject(objectClass: ObjectClass, attributes: set<Attribute>)

  /** What a reference may hold. */
  type Referenced = b: BaseConnectorObject | !b.OtherConnectorObject?
    witness ConnectorObjectIdentification(ObjectClass(ACCOUNT_NAME), {})

  datatype ConnectorObjectReference = ConnectorObjectReference(referencedObject: Referenced)

  const NOT_A_REFERENCE_TARGET: string := "Referenced object must be either ConnectorObject or ConnectorObjectIdentification"

  /** The constructor: accepts a full object or an identification; null and any other subclass are refused. */
  function NewConnectorObjectReference(referencedObject: Option<BaseConnectorObject>): (r: Result<ConnectorObjectReference, Error>)
    ensures r.Success? <==>
      referencedObject.Some? && (referencedObject.value.ConnectorObject? || referencedObject.value.ConnectorObjectIdentification?)
    ensures r.Failure? ==> r.error == IllegalArgument(NOT_A_REFERENCE_TARGET)
    ensures r.Success? ==> r.value.referencedObject == referencedObject.value
  {
    if referencedObject.None? || referencedObject.value.OtherConnectorObject? then
      Failure(IllegalArgument(NOT_A_REFERENCE_TARGET))
    else Success(ConnectorObjectReference(referencedObject.value))
  }

  /** hasObject: the whole object is present. */
  predicate HasObject(ref: ConnectorObjectReference) {
    ref.referencedObject.ConnectorObject?
  }

  /** getReferencedValue: the stored object or identification, whichever it is. */
  function GetReferencedValue(ref: ConnectorObjectReference): (b: BaseConnectorObject)
    ensures b.ConnectorObject? || b.ConnectorObjectIdentification?
    ensures b.ConnectorObject? <==> HasObject(ref)
  {
    ref.referencedObject
  }

  /** getReferencedObject: the whole object, or IllegalStateException when only the identification is held. */
  function GetReferencedObject(ref: ConnectorObjectReference): (r: Result<BaseConnectorObject, Error>)
    ensures r.Success? <==> HasObject(ref)
    ensures r.Success? ==> r.value.ConnectorObject? && r.value == GetReferencedValue(ref)
    ensures r.Failure? ==> r.error == IllegalState("Referenced object is not available")
  {
    if ref.referencedObject.ConnectorObject? then Success(ref.referencedObject)
    else Failure(IllegalState("Referenced object is not available"))
  }

  /** ConnectorObject.getIdentification (not part of this model), taken as: the object class with the Uid and Name attributes. */
  function Identification(obj: BaseConnectorObject): (id: BaseConnectorObject)
    requires obj.ConnectorObject?
    ensures id.ConnectorObjectIdentification? && id.objectClass == obj.objectClass
    ensures id.identifiers <= obj.attributes
  {
    ConnectorObjectIdentification(obj.objectClass,
      set a | a in obj.attributes && (NamesEqual(a.name, UID) || NamesEqual(a.name, NAME)))
  }

  /** getReferencedObjectIdentification: the identification itself, or the full object's identification. */
  function GetReferencedObjectIdentification(ref: ConnectorObjectReference): (id: BaseConnectorObject)
    ensures id.ConnectorObjectIdentification?
    ensures id.objectClass == ref.referencedObject.objectClass
    ensures !HasObject(ref) ==> id == ref.referencedObject
  {
    if ref.referencedObject.ConnectorObjectIdentification? then ref.referencedObject
    else Identification(ref.referencedObject)
  }

  /**
   * A reference built from an accepted object gives it back unchanged, and
   * exactly one of getReferencedObject succeeding and the identification
   * being the stored value holds.
   */
  lemma ReferenceRoundTrip(b: BaseConnectorObject)
    requires b.ConnectorObject? || b.ConnectorObjectIdentification?
    ensures var ref := NewConnectorObjectReference(Some(b)).value;
      && GetReferencedValue(ref) == b
      && (GetReferencedObject(ref) == Success(b) <==> b.ConnectorObject?)
      && (GetReferencedObjectIdentification(ref) == b <==> b.ConnectorObjectIdentification?)
  {
  }
}
