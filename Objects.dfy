/**
 * The framework's object model as far as the delta algebra sees it: object
 * classes, uids, attributes and their values, filters, and the exceptions the
 * core throws.
 */
module Objects {
  import opened Wrappers
  import opened Names

  /** ObjectClass: a type name; ObjectClass.equals compares types with namesEqual. */
  datatype ObjectClass = ObjectClass(objectClassValue: string)

  const ALL: ObjectClass := ObjectClass(ALL_NAME)

  predicate ObjectClassEquals(a: ObjectClass, b: ObjectClass) {
    NamesEqual(a.objectClassValue, b.objectClassValue)
  }

  datatype Uid = Uid(uidValue: string)

  /**
   * A search filter. Its evaluation (Filter.accept) belongs to the filter
   * language, which is not part of this model: the operations that evaluate a
   * filter take the evaluation as a parameter. A filter is known here by its
   * text (what its toString prints).
   */
  datatype Filter = Filter(text: string)

  /** The runtime classes of BaseObject: the delta algebra builds EmbeddedObject instances. */
  datatype ObjectKind = EmbeddedObjectKind | OtherObjectKind

  /** An attribute value: Java null, a scalar, or a BaseObject (an object carrying attributes). */
  datatype Value = NullValue | Scalar(text: string) | ObjectValue(obj: BaseObject)

  datatype BaseObject = BaseObject(kind: ObjectKind, objectClass: ObjectClass, attributes: set<Attribute>)

  /** An attribute; `values == None` is the Java null value list. */
  datatype Attribute = Attribute(name: string, values: Option<seq<Value>>)

  /** What Filter.accept answers for a filter and an object. */
  type Accept = (Filter, BaseObject) -> bool

  /** StringUtil.isBlank: null, or nothing but characters String.trim removes (at or below U+0020). */
  predicate IsBlank(s: Option<string>) {
    s.None? || forall i :: 0 <= i < |s.value| ==> s.value[i] <= ' '
  }

  /** The exceptions the core throws. */
  datatype Error =
    | NullPointer                         // a NullPointerException from dereferencing null
    | NullArgument(parameter: string)     // Assertions.nullCheck on the named parameter
    | IllegalArgument(message: string)
    | IllegalState(message: string)
    | UnsupportedOperation(message: string)
    | InvalidAttributeValue(message: string)
    | UnknownUid(uid: Uid, objectClass: ObjectClass)
    | ConnectorFailure(message: string)   // whatever a connector call throws, passed on unchanged
}

/** java.util.List.copyOf: an unmodifiable snapshot; a null list or a null element throws. */
module Lists {
  import opened Wrappers
  import opened Objects

  function ListCopyOf(values: Option<seq<Value>>): (r: Result<seq<Value>, Error>)
    ensures r.Success? <==> values.Some? && NullValue !in values.value
    ensures r.Success? ==> r.value == values.value
    ensures r.Failure? ==> r.error == NullPointer
  {
    if values.None? || NullValue in values.value then Failure(NullPointer) else Success(values.value)
  }
}
