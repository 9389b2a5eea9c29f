/**
 * UpdateImpl: input validation, the replace-style update, and add/remove of
 * attribute values, either passed to a connector that supports them natively
 * or emulated by fetching the object, merging the change into its attributes
 * and replacing them. The object normalizer is the identity here.
 */
module Updates {
  import opened Wrappers
  import opened Names
  import opened Objects
  import opened Connectors

  // ----- Validation -----

  /** getUidAttribute(attrs) != null: some attribute is named like Uid.NAME. */
  predicate HasUid(attrs: seq<Attribute>) {
    exists a :: a in attrs && NamesEqual(a.name, UID)
  }

  /** OPERATIONAL_ATTRIBUTE_NAMES: the operational names plus Name.NAME, matched exactly. */
  predicate IsOperational(name: string, operationalNames: set<string>) {
    name in operationalNames || name == NAME
  }

  /** What the delta check refuses in one attribute: a null value list, then an operational name. */
  function DeltaError(a: Attribute, operationalNames: set<string>): Option<Error> {
    if a.values.None? then Some(IllegalArgument("Can not add or remove a 'null' value."))
    else if IsOperational(a.name, operationalNames) then
      Some(IllegalArgument("Operational attribute '" + a.name + "' can not be added or removed."))
    else None
  }

  /** The error the delta check throws for the first offending attribute, in iteration order. */
  function FirstDeltaError(attrs: seq<Attribute>, operationalNames: set<string>): Option<Error> {
    if attrs == [] then None
    else if DeltaError(attrs[0], operationalNames).Some? then DeltaError(attrs[0], operationalNames)
    else FirstDeltaError(attrs[1..], operationalNames)
  }

  /** validateInput, as a value: the checks in the order the source makes them. */
  function Validation(objectClass: Option<ObjectClass>, uid: Option<Uid>, attrs: Option<seq<Attribute>>,
                      isDelta: bool, operationalNames: set<string>): Outcome<Error> {
    if uid.None? then Fail(NullArgument("uid"))
    else if objectClass.None? then Fail(NullArgument("objectClass"))
    else if ObjectClassEquals(ALL, objectClass.value) then
      Fail(UnsupportedOperation("Operation is not allowed on __ALL__ object class"))
    else if attrs.None? then Fail(NullArgument("replaceAttributes"))
    else if HasUid(attrs.value) then Fail(InvalidAttributeValue("Parameter 'replaceAttributes' contains a uid."))
    else if isDelta && FirstDeltaError(attrs.value, operationalNames).Some? then
      Fail(FirstDeltaError(attrs.value, operationalNames).value)
    else Pass
  }

  /** The inputs validateInput lets through, stated without the order of the checks. */
  predicate ValidInput(objectClass: Option<ObjectClass>, uid: Option<Uid>, attrs: Option<seq<Attribute>>,
                       isDelta: bool, operationalNames: set<string>) {
    && uid.Some? && objectClass.Some?
    && !ObjectClassEquals(ALL, objectClass.value)
    && attrs.Some? && !HasUid(attrs.value)
    && (isDelta ==> forall a :: a in attrs.value ==> a.values.Some? && !IsOperational(a.name, operationalNames))
  }

  /** The delta check passes exactly when no attribute has a null value list or an operational name. */
  lemma {:induction false} FirstDeltaErrorNone(attrs: seq<Attribute>, operationalNames: set<string>)
    ensures FirstDeltaError(attrs, operationalNames).None? <==>
      forall a :: a in attrs ==> a.values.Some? && !IsOperational(a.name, operationalNames)
  {
    if attrs != [] {
      FirstDeltaErrorNone(attrs[1..], operationalNames);
      assert attrs == [attrs[0]] + attrs[1..];
    }
  }

  /** validateInput completes exactly on valid input. */
  lemma ValidationPassesIff(objectClass: Option<ObjectClass>, uid: Option<Uid>, attrs: Option<seq<Attribute>>,
                            isDelta: bool, operationalNames: set<string>)
    ensures Validation(objectClass, uid, attrs, isDelta, operationalNames).Pass? <==>
      ValidInput(objectClass, uid, attrs, isDelta, operationalNames)
  {
    if attrs.Some? {
      FirstDeltaErrorNone(attrs.value, operationalNames);
    }
  }

  /** Past the null, `__ALL__` and Uid checks, only the delta checks remain. */
  lemma ValidationPastUid(objectClass: ObjectClass, uid: Uid, attrs: seq<Attribute>, isDelta: bool, operationalNames: set<string>)
    requires !ObjectClassEquals(ALL, objectClass) && !HasUid(attrs)
    ensures Validation(Some(objectClass), Some(uid), Some(attrs), isDelta, operationalNames) ==
      if isDelta && FirstDeltaError(attrs, operationalNames).Some? then Fail(FirstDeltaError(attrs, operationalNames).value)
      else Pass
  {
  }

  /**
   * A replace update may carry attributes with null value lists or
   * operational names (Name included); add and remove refuse any set holding one.
   */
  lemma {:induction false} ReplaceAcceptsWhatDeltasRefuse(objectClass: ObjectClass, uid: Uid, attrs: seq<Attribute>,
                                                          operationalNames: set<string>)
    requires !ObjectClassEquals(ALL, objectClass) && !HasUid(attrs)
    requires exists a :: a in attrs && (a.values.None? || IsOperational(a.name, operationalNames))
    ensures Validation(Some(objectClass), Some(uid), Some(attrs), false, operationalNames) == Pass
    ensures Validation(Some(objectClass), Some(uid), Some(attrs), true, operationalNames).Fail?
  {
    FirstDeltaErrorNone(attrs, operationalNames);
    ValidationPastUid(objectClass, uid, attrs, false, operationalNames);
    ValidationPastUid(objectClass, uid, attrs, true, operationalNames);
  }

  /** validateInput: throws the first check's exception, or completes. */
  method ValidateInput(objectClass: Option<ObjectClass>, uid: Option<Uid>, attrs: Option<seq<Attribute>>,
                       isDelta: bool, operationalNames: set<string>) returns (r: Outcome<Error>)
    ensures r == Validation(objectClass, uid, attrs, isDelta, operationalNames)
    ensures r.Pass? <==> ValidInput(objectClass, uid, attrs, isDelta, operationalNames)
  {
    ValidationPassesIff(objectClass, uid, attrs, isDelta, operationalNames);
    if uid.None? {
      return Fail(NullArgument("uid"));
    }
    if objectClass.None? {
      return Fail(NullArgument("objectClass"));
    }
    if ObjectClassEquals(ALL, objectClass.value) {
      return Fail(UnsupportedOperation("Operation is not allowed on __ALL__ object class"));
    }
    if attrs.None? {
      return Fail(NullArgument("replaceAttributes"));
    }
    if HasUid(attrs.value) {
      return Fail(InvalidAttributeValue("Parameter 'replaceAttributes' contains a uid."));
    }
    if isDelta {
      var s := attrs.value;
      var i := 0;
      while i < |s|
        invariant 0 <= i <= |s|
        invariant FirstDeltaError(s, operationalNames) == FirstDeltaError(s[i..], operationalNames)
      {
        assert s[i..][1..] == s[i + 1..];
        var e := DeltaError(s[i], operationalNames);
        if e.Some? {
          return Fail(e.value);
        }
        i := i + 1;
      }
    }
    return Pass;
  }

  // ----- Merge -----

  /** AttributeUtil.toMap(baseAttrs).get(name): the last base attribute whose name matches, ignoring case. */
  function LookupBase(base: seq<Attribute>, name: string): (r: Option<Attribute>)
    ensures r.Some? ==> r.value in base && NamesEqual(r.value.name, name)
    ensures r.None? <==> forall a :: a in base ==> !NamesEqual(a.name, name)
  {
    if base == [] then None
    else if NamesEqual(base[|base| - 1].name, name) then Some(base[|base| - 1])
    else
      assert base == base[..|base| - 1] + [base[|base| - 1]];
      LookupBase(base[..|base| - 1], name)
  }

  /** CollectionUtil.newList(baseAttr.getValue()): a copy of the values, empty for a null list. */
  function BaseValues(a: Attribute): seq<Value> {
    a.values.GetOr([])
  }

  /** List.remove(Object): removes the first element equal to x, if there is one. */
  function RemoveFirst(vs: seq<Value>, x: Value): (r: seq<Value>)
    ensures x !in vs ==> r == vs
    ensures x in vs ==> multiset(r) == multiset(vs) - multiset{x}
  {
    if vs == [] then []
    else if vs[0] == x then
      assert vs == [vs[0]] + vs[1..];
      vs[1..]
    else
      assert vs == [vs[0]] + vs[1..];
      [vs[0]] + RemoveFirst(vs[1..], x)
  }

  /** The position of the first element equal to x. */
  function FirstPosition(vs: seq<Value>, x: Value): (k: nat)
    requires x in vs
    ensures k < |vs| && vs[k] == x && x !in vs[..k]
  {
    if vs[0] == x then 0
    else
      assert vs == [vs[0]] + vs[1..];
      var k' := FirstPosition(vs[1..], x);
      assert vs[..k' + 1] == [vs[0]] + vs[1..][..k'];
      k' + 1
  }

  /** List.remove(Object) takes out the first element equal to x and keeps the others in order. */
  lemma {:induction false} RemoveFirstAt(vs: seq<Value>, x: Value)
    requires x in vs
    ensures RemoveFirst(vs, x) == vs[..FirstPosition(vs, x)] + vs[FirstPosition(vs, x) + 1..]
  {
    if vs[0] != x {
      var tail := vs[1..];
      assert x in tail by {
        var i :| 0 <= i < |vs| && vs[i] == x;
        assert tail[i - 1] == x;
      }
      RemoveFirstAt(tail, x);
      var k' := FirstPosition(tail, x);
      assert FirstPosition(vs, x) == k' + 1;
      assert RemoveFirst(vs, x) == [vs[0]] + RemoveFirst(tail, x);
      SliceAfterHead(vs, k');
    }
  }

  /** Slicing a sequence past its head, in the two shapes RemoveFirstAt needs. */
  lemma SliceAfterHead(vs: seq<Value>, k: nat)
    requires k + 1 < |vs|
    ensures vs[..k + 1] + vs[k + 2..] == [vs[0]] + (vs[1..][..k] + vs[1..][k + 1..])
  {
    assert vs[..k + 1] == [vs[0]] + vs[1..][..k];
    assert vs[k + 2..] == vs[1..][k + 1..];
  }

  /** The remove loop: one List.remove per value to remove, in order. */
  function RemoveEach(vs: seq<Value>, rs: seq<Value>): seq<Value> {
    if rs == [] then vs
    else RemoveFirst(RemoveEach(vs, rs[..|rs| - 1]), rs[|rs| - 1])
  }

  /** Removing values takes away one occurrence per removed value, as multisets subtract. */
  lemma {:induction false} RemoveEachMultiset(vs: seq<Value>, rs: seq<Value>)
    ensures multiset(RemoveEach(vs, rs)) == multiset(vs) - multiset(rs)
  {
    if rs != [] {
      var init := rs[..|rs| - 1];
      var x := rs[|rs| - 1];
      RemoveEachMultiset(vs, init);
      assert rs == init + [x];
      var left := RemoveEach(vs, init);
      if x in left {
        assert multiset(left)[x] > 0;
      } else {
        assert multiset(left)[x] == 0;
      }
      assert multiset(RemoveEach(vs, rs)) == multiset(vs) - multiset(rs) by {
        forall y ensures multiset(RemoveEach(vs, rs))[y] == (multiset(vs) - multiset(rs))[y] {
        }
      }
    }
  }

  /** Removing values the attribute does not hold changes nothing. */
  lemma {:induction false} RemoveAbsentValues(vs: seq<Value>, rs: seq<Value>)
    requires forall x :: x in rs ==> x !in vs
    ensures RemoveEach(vs, rs) == vs
  {
    if rs != [] {
      RemoveAbsentValues(vs, rs[..|rs| - 1]);
    }
  }

  /** What a removal leaves: the remaining values, or a null list (AttributeBuilder.build(name)) when none remain. */
  function Remaining(vs: seq<Value>, rs: seq<Value>): Option<seq<Value>> {
    var left := RemoveEach(vs, rs);
    if left == [] then None else Some(left)
  }

  /**
   * The attribute merge produces for one update attribute: None when there is
   * nothing to send (removing from an attribute the object does not have), a
   * NullPointerException when a null value list meets a present base attribute.
   */
  function MergedAttribute(u: Attribute, base: seq<Attribute>, add: bool): Result<Option<Attribute>, Error> {
    var b := LookupBase(base, u.name);
    if b.None? then
      if add then Success(Some(u)) else Success(None)
    else if u.values.None? then Failure(NullPointer)
    else if add then Success(Some(Attribute(u.name, Some(BaseValues(b.value) + u.values.value))))
    else Success(Some(Attribute(u.name, Remaining(BaseValues(b.value), u.values.value))))
  }

  /** merge over the update attributes in iteration order: the set of merged attributes, or the first exception. */
  function MergeSpec(updateAttrs: seq<Attribute>, base: seq<Attribute>, add: bool): Result<set<Attribute>, Error> {
    if updateAttrs == [] then Success({})
    else
      match MergeSpec(updateAttrs[..|updateAttrs| - 1], base, add)
      case Failure(e) => Failure(e)
      case Success(ret) =>
        match MergedAttribute(updateAttrs[|updateAttrs| - 1], base, add)
        case Failure(e) => Failure(e)
        case Success(m) => Success(if m.Some? then ret + {m.value} else ret)
  }

  /** merge succeeds exactly when no update attribute fails, and its result is what those attributes produce. */
  lemma {:induction false} MergeSpecMeaning(updateAttrs: seq<Attribute>, base: seq<Attribute>, add: bool)
    ensures MergeSpec(updateAttrs, base, add).Success? <==>
      forall u :: u in updateAttrs ==> MergedAttribute(u, base, add).Success?
    ensures MergeSpec(updateAttrs, base, add).Success? ==>
      forall x :: x in MergeSpec(updateAttrs, base, add).value <==>
        exists u :: u in updateAttrs && MergedAttribute(u, base, add) == Success(Some(x))
  {
    if updateAttrs != [] {
      var init := updateAttrs[..|updateAttrs| - 1];
      MergeSpecMeaning(init, base, add);
      assert updateAttrs == init + [updateAttrs[|updateAttrs| - 1]];
    }
  }

  /** merge stops at the first exception: once a prefix fails, the whole fails the same way. */
  lemma {:induction false} MergeSpecFailurePersists(updateAttrs: seq<Attribute>, base: seq<Attribute>, add: bool, k: nat)
    requires k <= |updateAttrs|
    requires MergeSpec(updateAttrs[..k], base, add).Failure?
    ensures MergeSpec(updateAttrs, base, add) == MergeSpec(updateAttrs[..k], base, add)
    decreases |updateAttrs| - k
  {
    if k < |updateAttrs| {
      var next := updateAttrs[..k + 1];
      assert next[..k] == updateAttrs[..k];
      assert updateAttrs[..k + 1][..k + 1] == next;
      MergeSpecFailurePersists(updateAttrs, base, add, k + 1);
    } else {
      assert updateAttrs[..k] == updateAttrs;
    }
  }

  /** On validated add/remove input merge never throws: the value lists are all present. */
  lemma {:induction false} MergeSucceedsOnPresentValues(updateAttrs: seq<Attribute>, base: seq<Attribute>, add: bool)
    requires forall u :: u in updateAttrs ==> u.values.Some?
    ensures MergeSpec(updateAttrs, base, add).Success?
  {
    MergeSpecMeaning(updateAttrs, base, add);
  }

  /**
   * The rules merge follows, per update attribute: add appends its values to
   * the base attribute's (or sends it as it is when the object lacks it);
   * remove takes its values out of the base attribute's (sending a null list
   * when none are left) and skips attributes the object lacks. Nothing but
   * the update attributes' names is ever sent.
   */
  lemma MergeRules(updateAttrs: seq<Attribute>, baseAttrs: seq<Attribute>, add: bool)
    requires MergeSpec(updateAttrs, baseAttrs, add).Success?
    ensures var ret := MergeSpec(updateAttrs, baseAttrs, add).value;
      && (forall x :: x in ret ==> exists u :: u in updateAttrs && x.name == u.name)
      && (add ==> forall u :: u in updateAttrs && LookupBase(baseAttrs, u.name).None? ==> u in ret)
      && (add ==> forall u :: u in updateAttrs && LookupBase(baseAttrs, u.name).Some? && u.values.Some? ==>
            Attribute(u.name, Some(BaseValues(LookupBase(baseAttrs, u.name).value) + u.values.value)) in ret)
      && (!add ==> forall x :: x in ret ==> LookupBase(baseAttrs, x.name).Some?)
      && (!add ==> forall u :: u in updateAttrs && LookupBase(baseAttrs, u.name).Some? && u.values.Some? ==>
            Attribute(u.name, Remaining(BaseValues(LookupBase(baseAttrs, u.name).value), u.values.value)) in ret)
  {
    MergeSpecMeaning(updateAttrs, baseAttrs, add);
    var ret := MergeSpec(updateAttrs, baseAttrs, add).value;
    forall u | u in updateAttrs
      ensures MergedAttribute(u, baseAttrs, add).Success?
    {
    }
  }

  /** The removal loop: updateAttr.getValue().forEach(values::remove). */
  method RemoveValues(values: seq<Value>, toRemove: seq<Value>) returns (left: seq<Value>)
    ensures left == RemoveEach(values, toRemove)
  {
    left := values;
    var j := 0;
    while j < |toRemove|
      invariant 0 <= j <= |toRemove|
      invariant left == RemoveEach(values, toRemove[..j])
    {
      assert toRemove[..j + 1][..j] == toRemove[..j];
      left := RemoveFirst(left, toRemove[j]);
      j := j + 1;
    }
    assert toRemove[..j] == toRemove;
  }

  /** One pass of merge's loop body: the attribute to send for one update attribute, if any. */
  method MergeAttribute(updateAttr: Attribute, baseAttrs: seq<Attribute>, add: bool) returns (r: Result<Option<Attribute>, Error>)
    ensures r == MergedAttribute(updateAttr, baseAttrs, add)
  {
    var name := updateAttr.name;
    var baseAttr := LookupBase(baseAttrs, name);
    if baseAttr.None? {
      return if add then Success(Some(updateAttr)) else Success(None);
    }
    if updateAttr.values.None? {
      return Failure(NullPointer);
    }
    var values := BaseValues(baseAttr.value);
    if add {
      values := values + updateAttr.values.value;
      return Success(Some(Attribute(name, Some(values))));
    }
    values := RemoveValues(values, updateAttr.values.value);
    return Success(Some(Attribute(name, if values == [] then None else Some(values))));
  }

  /** merge, computed by its loop; MergeRules says what the result holds. */
  method Merge(updateAttrs: seq<Attribute>, baseAttrs: seq<Attribute>, add: bool) returns (r: Result<set<Attribute>, Error>)
    ensures r == MergeSpec(updateAttrs, baseAttrs, add)
  {
    var ret: set<Attribute> := {};
    var i := 0;
    while i < |updateAttrs|
      invariant 0 <= i <= |updateAttrs|
      invariant MergeSpec(updateAttrs[..i], baseAttrs, add) == Success(ret)
    {
      assert updateAttrs[..i + 1][..i] == updateAttrs[..i];
      var modifiedAttr := MergeAttribute(updateAttrs[i], baseAttrs, add);
      if modifiedAttr.Failure? {
        MergeSpecFailurePersists(updateAttrs, baseAttrs, add, i + 1);
        return Failure(modifiedAttr.error);
      }
      if modifiedAttr.value.Some? {
        ret := ret + {modifiedAttr.value.value};
      }
      i := i + 1;
    }
    assert updateAttrs[..i] == updateAttrs;
    return Success(ret);
  }

  /** Adding to an attribute the object does not have sends the update attribute as it is; removing from it sends nothing. */
  lemma AbsentBaseAttribute(u: Attribute, base: seq<Attribute>)
    requires forall a :: a in base ==> !NamesEqual(a.name, u.name)
    ensures MergedAttribute(u, base, true) == Success(Some(u))
    ensures MergedAttribute(u, base, false) == Success(None)
  {
  }

  /** Removing every value an attribute holds, in any order, sends a null list for it. */
  lemma RemoveAllSendsNull(u: Attribute, base: seq<Attribute>)
    requires u.values.Some? && LookupBase(base, u.name).Some?
    requires multiset(u.values.value) == multiset(BaseValues(LookupBase(base, u.name).value))
    ensures MergedAttribute(u, base, false) == Success(Some(Attribute(u.name, None)))
  {
    var vs := BaseValues(LookupBase(base, u.name).value);
    RemoveEachMultiset(vs, u.values.value);
    assert multiset(RemoveEach(vs, u.values.value)) == multiset{};
  }

  // ----- The operations -----

  /** SearchOp.class as the exception message prints it. */
  const SEARCH_REQUIRED: string := "Connector must support: interface org.identityconnectors.framework.spi.operations.SearchOp"

  /** Null options are replaced by empty ones. */
  function OptionsOrEmpty(options: Option<OperationOptions>): OperationOptions {
    options.GetOr(EMPTY_OPTIONS)
  }

  /** The names of the attributes to change, the attributes fetchAndMerge asks the lookup to return. */
  function NamesOf(attrs: seq<Attribute>): set<string> {
    set a | a in attrs :: a.name
  }

  /** The native call addAttributeValues or removeAttributeValues makes on an UpdateAttributeValuesOp connector. */
  function NativeCall(add: bool, objectClass: ObjectClass, uid: Uid, attrs: seq<Attribute>, options: OperationOptions): Call {
    if add then AddAttributeValuesCall(objectClass, uid, AsSet(attrs), options)
    else RemoveAttributeValuesCall(objectClass, uid, AsSet(attrs), options)
  }

  /** The lookup fetchAndMerge makes: the caller's options with attributesToGet set to the names being changed. */
  function FetchCall(objectClass: ObjectClass, uid: Uid, attrs: seq<Attribute>, options: OperationOptions): Call {
    GetObjectCall(objectClass, uid, options.(attributesToGet := Some(NamesOf(attrs))))
  }

  /** The attribute-name collection loop of fetchAndMerge. */
  method AttributesToGet(attrs: seq<Attribute>) returns (names: set<string>)
    ensures names == NamesOf(attrs)
  {
    names := {};
    var i := 0;
    while i < |attrs|
      invariant 0 <= i <= |attrs|
      invariant names == NamesOf(attrs[..i])
    {
      assert attrs[..i + 1] == attrs[..i] + [attrs[i]];
      names := names + {attrs[i].name};
      i := i + 1;
    }
    assert attrs[..i] == attrs;
  }

  /** UpdateImpl, running the operations against one connector. */
  class UpdateOperation {
    const connector: Connector
    /** OperationalAttributes.getOperationalAttributeNames(). */
    const operationalNames: set<string>

    constructor (connector: Connector, operationalNames: set<string>)
      ensures this.connector == connector && this.operationalNames == operationalNames
    {
      this.connector := connector;
      this.operationalNames := operationalNames;
    }

    /** update: validate, then pass the replacement to the connector unchanged. */
    method Update(objectClass: Option<ObjectClass>, uid: Option<Uid>, replaceAttributes: Option<seq<Attribute>>,
                  options: Option<OperationOptions>) returns (r: Result<Uid, Error>)
      modifies connector
      ensures !ValidInput(objectClass, uid, replaceAttributes, false, operationalNames) ==>
        && Validation(objectClass, uid, replaceAttributes, false, operationalNames).Fail?
        && r == Failure(Validation(objectClass, uid, replaceAttributes, false, operationalNames).error)
        && connector.calls == old(connector.calls)
      ensures ValidInput(objectClass, uid, replaceAttributes, false, operationalNames) ==>
        var c := UpdateCall(objectClass.value, uid.value, AsSet(replaceAttributes.value), OptionsOrEmpty(options));
        connector.calls == old(connector.calls) + [c] && r == connector.answer(c)
    {
      var v := ValidateInput(objectClass, uid, replaceAttributes, false, operationalNames);
      if v.Fail? {
        return Failure(v.error);
      }
      var opts := OptionsOrEmpty(options);
      r := connector.Invoke(UpdateCall(objectClass.value, uid.value, AsSet(replaceAttributes.value), opts));
    }

    /**
     * fetchAndMerge: needs a SearchOp connector; fetches the object with only
     * the attributes being changed, fails with UnknownUid when there is none,
     * and otherwise merges the change into its attributes.
     */
    method FetchAndMerge(objectClass: ObjectClass, uid: Uid, valuesToChange: seq<Attribute>, add: bool,
                         options: OperationOptions) returns (r: Result<set<Attribute>, Error>)
      requires forall a :: a in valuesToChange ==> a.values.Some?
      modifies connector
      ensures !connector.isSearchOp ==>
        r == Failure(UnsupportedOperation(SEARCH_REQUIRED)) && connector.calls == old(connector.calls)
      ensures connector.isSearchOp ==>
        var get := FetchCall(objectClass, uid, valuesToChange, options);
        && connector.calls == old(connector.calls) + [get]
        && match connector.lookup(get.objectClass, get.uid, get.options)
           case Failure(e) => r == Failure(e)
           case Success(None) => r == Failure(UnknownUid(uid, objectClass))
           case Success(Some(attrs)) => r == MergeSpec(valuesToChange, attrs, add) && r.Success?
    {
      if !connector.isSearchOp {
        return Failure(UnsupportedOperation(SEARCH_REQUIRED));
      }
      var attrNames := AttributesToGet(valuesToChange);
      var fetchOptions := options.(attributesToGet := Some(attrNames));
      var o := connector.GetObject(objectClass, uid, fetchOptions);
      match o
      case Failure(e) =>
        return Failure(e);
      case Success(None) =>
        return Failure(UnknownUid(uid, objectClass));
      case Success(Some(attrs)) =>
        MergeSucceedsOnPresentValues(valuesToChange, attrs, add);
        r := Merge(valuesToChange, attrs, add);
    }

    /**
     * addAttributeValues (add) and removeAttributeValues (not add): validate
     * as a delta; a connector with UpdateAttributeValuesOp receives the change
     * itself, any other receives a replace update with the merged attributes.
     * The replace update carries the caller's options, not the fetch options.
     */
    method ChangeValues(objectClass: Option<ObjectClass>, uid: Option<Uid>, attrs: Option<seq<Attribute>>, add: bool,
                        options: Option<OperationOptions>) returns (r: Result<Uid, Error>)
      modifies connector
      ensures !ValidInput(objectClass, uid, attrs, true, operationalNames) ==>
        && Validation(objectClass, uid, attrs, true, operationalNames).Fail?
        && r == Failure(Validation(objectClass, uid, attrs, true, operationalNames).error)
        && connector.calls == old(connector.calls)
      ensures ValidInput(objectClass, uid, attrs, true, operationalNames) && connector.isUpdateAttributeValuesOp ==>
        var c := NativeCall(add, objectClass.value, uid.value, attrs.value, OptionsOrEmpty(options));
        connector.calls == old(connector.calls) + [c] && r == connector.answer(c)
      ensures ValidInput(objectClass, uid, attrs, true, operationalNames) && !connector.isUpdateAttributeValuesOp
              && !connector.isSearchOp ==>
        r == Failure(UnsupportedOperation(SEARCH_REQUIRED)) && connector.calls == old(connector.calls)
      ensures ValidInput(objectClass, uid, attrs, true, operationalNames) && !connector.isUpdateAttributeValuesOp
              && connector.isSearchOp ==>
        var get := FetchCall(objectClass.value, uid.value, attrs.value, OptionsOrEmpty(options));
        match connector.lookup(get.objectClass, get.uid, get.options)
        case Failure(e) => r == Failure(e) && connector.calls == old(connector.calls) + [get]
        case Success(None) =>
          r == Failure(UnknownUid(uid.value, objectClass.value)) && connector.calls == old(connector.calls) + [get]
        case Success(Some(found)) =>
          && MergeSpec(attrs.value, found, add).Success?
          && var c := UpdateCall(objectClass.value, uid.value, MergeSpec(attrs.value, found, add).value, OptionsOrEmpty(options));
             connector.calls == old(connector.calls) + [get, c] && r == connector.answer(c)
    {
      var v := ValidateInput(objectClass, uid, attrs, true, operationalNames);
      if v.Fail? {
        return Failure(v.error);
      }
      var opts := OptionsOrEmpty(options);
      if connector.isUpdateAttributeValuesOp {
        r := connector.Invoke(NativeCall(add, objectClass.value, uid.value, attrs.value, opts));
      } else {
        var replaceAttributes := FetchAndMerge(objectClass.value, uid.value, attrs.value, add, opts);
        if replaceAttributes.Failure? {
          return Failure(replaceAttributes.error);
        }
        r := connector.Invoke(UpdateCall(objectClass.value, uid.value, replaceAttributes.value, opts));
      }
    }

    /** addAttributeValues. */
    method AddAttributeValues(objectClass: Option<ObjectClass>, uid: Option<Uid>, valuesToAdd: Option<seq<Attribute>>,
                              options: Option<OperationOptions>) returns (r: Result<Uid, Error>)
      modifies connector
      ensures !ValidInput(objectClass, uid, valuesToAdd, true, operationalNames) ==>
        && Validation(objectClass, uid, valuesToAdd, true, operationalNames).Fail?
        && r == Failure(Validation(objectClass, uid, valuesToAdd, true, operationalNames).error)
        && connector.calls == old(connector.calls)
      ensures ValidInput(objectClass, uid, valuesToAdd, true, operationalNames) && connector.isUpdateAttributeValuesOp ==>
        var c := AddAttributeValuesCall(objectClass.value, uid.value, AsSet(valuesToAdd.value), OptionsOrEmpty(options));
        connector.calls == old(connector.calls) + [c] && r == connector.answer(c)
      ensures ValidInput(objectClass, uid, valuesToAdd, true, operationalNames) && !connector.isUpdateAttributeValuesOp
              && !connector.isSearchOp ==>
        r == Failure(UnsupportedOperation(SEARCH_REQUIRED)) && connector.calls == old(connector.calls)
      ensures ValidInput(objectClass, uid, valuesToAdd, true, operationalNames) && !connector.isUpdateAttributeValuesOp
              && connector.isSearchOp ==>
        var get := FetchCall(objectClass.value, uid.value, valuesToAdd.value, OptionsOrEmpty(options));
        match connector.lookup(get.objectClass, get.uid, get.options)
        case Failure(e) => r == Failure(e) && connector.calls == old(connector.calls) + [get]
        case Success(None) =>
          r == Failure(UnknownUid(uid.value, objectClass.value)) && connector.calls == old(connector.calls) + [get]
        case Success(Some(found)) =>
          && MergeSpec(valuesToAdd.value, found, true).Success?
          && var c := UpdateCall(objectClass.value, uid.value, MergeSpec(valuesToAdd.value, found, true).value, OptionsOrEmpty(options));
             connector.calls == old(connector.calls) + [get, c] && r == connector.answer(c)
    {
      r := ChangeValues(objectClass, uid, valuesToAdd, true, options);
    }

    /** removeAttributeValues. */
    method RemoveAttributeValues(objectClass: Option<ObjectClass>, uid: Option<Uid>, valuesToRemove: Option<seq<Attribute>>,
                                 options: Option<OperationOptions>) returns (r: Result<Uid, Error>)
      modifies connector
      ensures !ValidInput(objectClass, uid, valuesToRemove, true, operationalNames) ==>
        && Validation(objectClass, uid, valuesToRemove, true, operationalNames).Fail?
        && r == Failure(Validation(objectClass, uid, valuesToRemove, true, operationalNames).error)
        && connector.calls == old(connector.calls)
      ensures ValidInput(objectClass, uid, valuesToRemove, true, operationalNames) && connector.isUpdateAttributeValuesOp ==>
        var c := RemoveAttributeValuesCall(objectClass.value, uid.value, AsSet(valuesToRemove.value), OptionsOrEmpty(options));
        connector.calls == old(connector.calls) + [c] && r == connector.answer(c)
      ensures ValidInput(objectClass, uid, valuesToRemove, true, operationalNames) && !connector.isUpdateAttributeValuesOp
              && !connector.isSearchOp ==>
        r == Failure(UnsupportedOperation(SEARCH_REQUIRED)) && connector.calls == old(connector.calls)
      ensures ValidInput(objectClass, uid, valuesToRemove, true, operationalNames) && !connector.isUpdateAttributeValuesOp
              && connector.isSearchOp ==>
        var get := FetchCall(objectClass.value, uid.value, valuesToRemove.value, OptionsOrEmpty(options));
        match connector.lookup(get.objectClass, get.uid, get.options)
        case Failure(e) => r == Failure(e) && connector.calls == old(connector.calls) + [get]
        case Success(None) =>
          r == Failure(UnknownUid(uid.value, objectClass.value)) && connector.calls == old(connector.calls) + [get]
        case Success(Some(found)) =>
          && MergeSpec(valuesToRemove.value, found, false).Success?
          && var c := UpdateCall(objectClass.value, uid.value, MergeSpec(valuesToRemove.value, found, false).value, OptionsOrEmpty(options));
             connector.calls == old(connector.calls) + [get, c] && r == connector.answer(c)
    {
      r := ChangeValues(objectClass, uid, valuesToRemove, false, options);
    }
  }
}
