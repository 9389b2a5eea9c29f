/**
 * CreateImpl.create: the null checks, the duplicate-name check, and the call
 * to the connector's create. Names are compared exactly here (a HashSet of
 * strings), so names that differ only in case are not duplicates.
 */
module Creates {
  import opened Wrappers
  import opened Objects
  import opened Connectors

  /** No two attributes share a name, compared exactly. */
  predicate DistinctNames(attrs: seq<Attribute>) {
    forall i, j :: 0 <= i < j < |attrs| ==> attrs[i].name != attrs[j].name
  }

  /** The first name, in iteration order, that is already in seen or was met earlier. */
  function FirstDuplicateFrom(attrs: seq<Attribute>, seen: set<string>): Option<string> {
    if attrs == [] then None
    else if attrs[0].name in seen then Some(attrs[0].name)
    else FirstDuplicateFrom(attrs[1..], seen + {attrs[0].name})
  }

  /** The name the duplicate check reports. */
  function FirstDuplicate(attrs: seq<Attribute>): Option<string> {
    FirstDuplicateFrom(attrs, {})
  }

  /** The search finds nothing exactly when the names are distinct and none is already seen. */
  lemma {:induction false} FirstDuplicateFromNone(attrs: seq<Attribute>, seen: set<string>)
    ensures FirstDuplicateFrom(attrs, seen).None? <==>
      DistinctNames(attrs) && forall a :: a in attrs ==> a.name !in seen
  {
    if attrs != [] {
      var rest := attrs[1..];
      FirstDuplicateFromNone(rest, seen + {attrs[0].name});
      assert forall k :: 0 < k < |attrs| ==> attrs[k] == rest[k - 1];
      assert attrs == [attrs[0]] + rest;
      if DistinctNames(attrs) && (forall a :: a in attrs ==> a.name !in seen) {
        forall a | a in rest ensures a.name != attrs[0].name {
          var k :| 0 <= k < |rest| && rest[k] == a;
          assert attrs[k + 1] == a;
        }
      }
      if FirstDuplicateFrom(attrs, seen).None? {
        forall i, j | 0 <= i < j < |attrs| ensures attrs[i].name != attrs[j].name {
          if i == 0 {
            assert attrs[j] in rest;
          } else {
            assert rest[i - 1].name != rest[j - 1].name;
          }
        }
      }
    }
  }

  /** A reported name really is repeated: met again after being seen, or shared by two attributes. */
  lemma {:induction false} FirstDuplicateFromIsShared(attrs: seq<Attribute>, seen: set<string>)
    requires FirstDuplicateFrom(attrs, seen).Some?
    ensures var n := FirstDuplicateFrom(attrs, seen).value;
      || (n in seen && exists j :: 0 <= j < |attrs| && attrs[j].name == n)
      || exists i, j :: 0 <= i < j < |attrs| && attrs[i].name == n && attrs[j].name == n
  {
    var n := FirstDuplicateFrom(attrs, seen).value;
    if attrs[0].name !in seen {
      var rest := attrs[1..];
      FirstDuplicateFromIsShared(rest, seen + {attrs[0].name});
      if exists j :: 0 <= j < |rest| && rest[j].name == n && n in seen + {attrs[0].name} {
        var j :| 0 <= j < |rest| && rest[j].name == n && n in seen + {attrs[0].name};
        assert attrs[j + 1].name == n;
        if n == attrs[0].name {
          assert attrs[0].name == n;
        }
      } else {
        var i, j :| 0 <= i < j < |rest| && rest[i].name == n && rest[j].name == n;
        assert attrs[i + 1].name == n && attrs[j + 1].name == n;
      }
    }
  }

  /** The exception the duplicate check throws, if any. */
  function DuplicateCheck(attrs: seq<Attribute>): Outcome<Error> {
    if FirstDuplicate(attrs).Some? then Fail(IllegalArgument("Duplicated named attributes: " + FirstDuplicate(attrs).value))
    else Pass
  }

  /** The duplicate check passes exactly when the names are distinct, and a name it reports is a real repeat. */
  lemma DuplicateCheckMeaning(attrs: seq<Attribute>)
    ensures DuplicateCheck(attrs).Pass? <==> DistinctNames(attrs)
    ensures FirstDuplicate(attrs).Some? ==>
      exists i, j :: 0 <= i < j < |attrs| && attrs[i].name == FirstDuplicate(attrs).value && attrs[j].name == FirstDuplicate(attrs).value
  {
    FirstDuplicateFromNone(attrs, {});
    if FirstDuplicate(attrs).Some? {
      FirstDuplicateFromIsShared(attrs, {});
    }
  }

  /** Names with different case are different keys: "cn" and "CN" pass together. */
  lemma CaseVariantsAreNotDuplicates(v: Option<seq<Value>>, w: Option<seq<Value>>)
    ensures DuplicateCheck([Attribute("cn", v), Attribute("CN", w)]) == Pass
  {
    DuplicateCheckMeaning([Attribute("cn", v), Attribute("CN", w)]);
  }

  /** The duplicate-name loop: one pass over the attributes, collecting names in a set. */
  method CheckDuplicates(attrs: seq<Attribute>) returns (r: Outcome<Error>)
    ensures r == DuplicateCheck(attrs)
    ensures r.Pass? <==> DistinctNames(attrs)
  {
    DuplicateCheckMeaning(attrs);
    var dups: set<string> := {};
    var i := 0;
    while i < |attrs|
      invariant 0 <= i <= |attrs|
      invariant FirstDuplicate(attrs) == FirstDuplicateFrom(attrs[i..], dups)
    {
      assert attrs[i..][1..] == attrs[i + 1..];
      if attrs[i].name in dups {
        return Fail(IllegalArgument("Duplicated named attributes: " + attrs[i].name));
      }
      dups := dups + {attrs[i].name};
      i := i + 1;
    }
    return Pass;
  }

  /**
   * The checks create makes before calling the connector, as written: the
   * second null check is given the object class again, so a null attribute
   * set is not refused by name and fails only when the duplicate loop
   * iterates over it.
   */
  function CreateChecksAsWritten(objectClass: Option<ObjectClass>, createAttributes: Option<seq<Attribute>>): Outcome<Error> {
    if objectClass.None? then Fail(NullArgument("oclass"))
    else if objectClass.None? then Fail(NullArgument("attributes"))
    else if createAttributes.None? then Fail(NullPointer)
    else DuplicateCheck(createAttributes.value)
  }

  /** The checks as intended: the second null check is on the attribute set. */
  function CreateChecks(objectClass: Option<ObjectClass>, createAttributes: Option<seq<Attribute>>): Outcome<Error> {
    if objectClass.None? then Fail(NullArgument("oclass"))
    else if createAttributes.None? then Fail(NullArgument("attributes"))
    else DuplicateCheck(createAttributes.value)
  }

  /** As written, a null attribute set escapes the named null check. */
  lemma AttributesNullCheckMissing(objectClass: ObjectClass)
    ensures CreateChecksAsWritten(Some(objectClass), None) == Fail(NullPointer)
    ensures CreateChecks(Some(objectClass), None) == Fail(NullArgument("attributes"))
  {
  }

  /**
   * The intended checks pass exactly on a present object class and
   * attribute set with distinct names, refuse a null attribute set by name,
   * and differ from the code as written only on that input.
   */
  lemma CreateChecksMeaning(objectClass: Option<ObjectClass>, createAttributes: Option<seq<Attribute>>)
    ensures CreateChecks(objectClass, createAttributes).Pass? <==>
      objectClass.Some? && createAttributes.Some? && DistinctNames(createAttributes.value)
    ensures objectClass.Some? && createAttributes.None? ==>
      CreateChecks(objectClass, createAttributes) == Fail(NullArgument("attributes"))
    ensures objectClass.None? || createAttributes.Some? ==>
      CreateChecks(objectClass, createAttributes) == CreateChecksAsWritten(objectClass, createAttributes)
  {
    if createAttributes.Some? {
      DuplicateCheckMeaning(createAttributes.value);
    }
  }

  /** CreateImpl, running create against one connector. */
  class CreateOperation {
    const connector: Connector

    constructor (connector: Connector)
      ensures this.connector == connector
    {
      this.connector := connector;
    }

    /** create: check the input, replace null options by empty ones, and pass the attributes to the connector. */
    method Create(objectClass: Option<ObjectClass>, createAttributes: Option<seq<Attribute>>,
                  options: Option<OperationOptions>) returns (r: Result<Uid, Error>)
      modifies connector
      ensures CreateChecks(objectClass, createAttributes).Fail? ==>
        r == Failure(CreateChecks(objectClass, createAttributes).error) && connector.calls == old(connector.calls)
      ensures CreateChecks(objectClass, createAttributes).Pass? ==>
        && objectClass.Some? && createAttributes.Some? && DistinctNames(createAttributes.value)
        && var c := CreateCall(objectClass.value, AsSet(createAttributes.value), options.GetOr(EMPTY_OPTIONS));
           connector.calls == old(connector.calls) + [c] && r == connector.answer(c)
    {
      CreateChecksMeaning(objectClass, createAttributes);
      if objectClass.None? {
        return Failure(NullArgument("oclass"));
      }
      if createAttributes.None? {
        return Failure(NullArgument("attributes"));
      }
      var opts := options.GetOr(EMPTY_OPTIONS);
      var dup := CheckDuplicates(createAttributes.value);
      if dup.Fail? {
        return Failure(dup.error);
      }
      r := connector.Invoke(CreateCall(objectClass.value, AsSet(createAttributes.value), opts));
    }
  }
}
