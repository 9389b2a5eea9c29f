/**
 * BaseObjectClassInfoBuilder, ObjectClassInfoBuilder and
 * LightweightObjectClassInfoBuilder. Without subclassing, each concrete
 * builder owns the base builder that holds the common fields; the fluent
 * setters return that base builder, and GetThis returns the concrete builder.
 */
module ObjectClassInfoBuilders {
  import opened Wrappers
  import opened Names
  import opened Objects
  import opened ObjectClassInfos

  /** The fields and setters every object-class builder shares. */
  class BaseObjectClassInfoBuilder {
    var typeName: Option<string>
    var isContainer: bool
    var isAuxiliary: bool
    var isEmbedded: bool
    var description: Option<string>

    /** A fresh builder has type ObjectClass.ACCOUNT_NAME, every flag false and no description. */
    constructor ()
      ensures typeName == Some(ACCOUNT_NAME)
      ensures !isContainer && !isAuxiliary && !isEmbedded && description.None?
    {
      typeName := Some(ACCOUNT_NAME);
      isContainer := false;
      isAuxiliary := false;
      isEmbedded := false;
      description := None;
    }

    method SetType(t: Option<string>) returns (b: BaseObjectClassInfoBuilder)
      modifies this
      ensures b == this && typeName == t
      ensures isContainer == old(isContainer) && isAuxiliary == old(isAuxiliary)
      ensures isEmbedded == old(isEmbedded) && description == old(description)
    {
      typeName := t;
      b := this;
    }

    method SetContainer(container: bool)
      modifies this
      ensures isContainer == container
      ensures typeName == old(typeName) && isAuxiliary == old(isAuxiliary)
      ensures isEmbedded == old(isEmbedded) && description == old(description)
    {
      isContainer := container;
    }

    method SetAuxiliary(auxiliary: bool)
      modifies this
      ensures isAuxiliary == auxiliary
      ensures typeName == old(typeName) && isContainer == old(isContainer)
      ensures isEmbedded == old(isEmbedded) && description == old(description)
    {
      isAuxiliary := auxiliary;
    }

    method SetEmbedded(embedded: bool) returns (b: BaseObjectClassInfoBuilder)
      modifies this
      ensures b == this && isEmbedded == embedded
      ensures typeName == old(typeName) && isContainer == old(isContainer)
      ensures isAuxiliary == old(isAuxiliary) && description == old(description)
    {
      isEmbedded := embedded;
      b := this;
    }

    method SetDescription(d: Option<string>) returns (b: BaseObjectClassInfoBuilder)
      modifies this
      ensures b == this && description == d
      ensures typeName == old(typeName) && isContainer == old(isContainer)
      ensures isAuxiliary == old(isAuxiliary) && isEmbedded == old(isEmbedded)
    {
      description := d;
      b := this;
    }
  }

  /** addAllAttributeInfo as a value: the map after each addAttributeInfo in turn, and the exception that stopped it. */
  function AddAll(m: map<string, AttributeInfo>, infos: seq<AttributeInfo>): (map<string, AttributeInfo>, Option<Error>)
    decreases infos
  {
    if infos == [] then (m, None)
    else if infos[0].name in m then (m, Some(IllegalArgument("AttributeInfo of name '" + infos[0].name + "' already exists!")))
    else AddAll(m[infos[0].name := infos[0]], infos[1..])
  }

  /** Every info is stored under its own name. */
  predicate KeyedByName(m: map<string, AttributeInfo>) {
    forall k :: k in m ==> m[k].name == k
  }

  /**
   * addAllAttributeInfo keeps every earlier entry, adds only the given infos
   * under their own names, and fails exactly when some name is already
   * present or repeated; on success every given info is in the map.
   */
  lemma {:induction false} AddAllMeaning(m: map<string, AttributeInfo>, infos: seq<AttributeInfo>)
    ensures var (m', e) := AddAll(m, infos);
      && (forall k :: k in m ==> k in m' && m'[k] == m[k])
      && (forall k :: k in m' && k !in m ==> exists info :: info in infos && info.name == k && m'[k] == info)
      && (KeyedByName(m) ==> KeyedByName(m'))
      && (e.None? <==> (forall i :: 0 <= i < |infos| ==> infos[i].name !in m)
                       && forall i, j :: 0 <= i < j < |infos| ==> infos[i].name != infos[j].name)
      && (e.None? ==> forall info :: info in infos ==> info.name in m' && m'[info.name] == info)
    decreases infos
  {
    if infos != [] && infos[0].name !in m {
      var rest := infos[1..];
      AddAllMeaning(m[infos[0].name := infos[0]], rest);
      assert infos == [infos[0]] + rest;
      assert forall i :: 0 < i < |infos| ==> infos[i] == rest[i - 1];
    }
  }

  /** Adding the same name twice fails, even in one call. */
  lemma RepeatedNameFails(info: AttributeInfo, other: AttributeInfo)
    requires info.name == other.name
    ensures AddAll(map[], [info, other]).1 == Some(IllegalArgument("AttributeInfo of name '" + info.name + "' already exists!"))
    ensures AddAll(map[], [info, other]).0 == map[info.name := info]
  {
    assert [info, other][1..] == [other];
  }

  /** The infos build hands to the ObjectClassInfo constructor: Name.INFO added when no Name key is present. */
  function WithName(m: map<string, AttributeInfo>): (m': map<string, AttributeInfo>)
    ensures m'.Keys == m.Keys + {NAME}
    ensures NAME !in m ==> m'[NAME] == NAME_INFO
    ensures forall k :: k in m ==> m'[k] == m[k]
  {
    if NAME in m then m else m[NAME := NAME_INFO]
  }

  /** A builder's map, with Name.INFO added where needed, always satisfies the constructor's Name check. */
  lemma WithNameHasNameInfo(m: map<string, AttributeInfo>)
    requires KeyedByName(m)
    ensures HasNameInfo(WithName(m).Values)
  {
    var m' := WithName(m);
    assert m'[NAME] in m'.Values;
    assert NamesEqual(m'[NAME].name, NAME);
  }

  class ObjectClassInfoBuilder {
    const common: BaseObjectClassInfoBuilder
    var attributeInfoMap: map<string, AttributeInfo>

    /** The map's keys are the names of the infos they map to; addAttributeInfo keeps it so. */
    predicate Valid()
      reads this
    {
      KeyedByName(attributeInfoMap)
    }

    constructor ()
      ensures fresh(common) && Valid()
      ensures common.typeName == Some(ACCOUNT_NAME)
      ensures !common.isContainer && !common.isAuxiliary && !common.isEmbedded && common.description.None?
      ensures attributeInfoMap == map[]
    {
      common := new BaseObjectClassInfoBuilder();
      attributeInfoMap := map[];
    }

    method GetThis() returns (b: ObjectClassInfoBuilder)
      ensures b == this
    {
      b := this;
    }

    /** addAttributeInfo: refuses a name that is already a key (compared exactly), otherwise stores the info under its name. */
    method AddAttributeInfo(info: AttributeInfo) returns (r: Result<ObjectClassInfoBuilder, Error>)
      requires Valid()
      modifies this
      ensures Valid()
      ensures info.name in old(attributeInfoMap) ==>
        && r == Failure(IllegalArgument("AttributeInfo of name '" + info.name + "' already exists!"))
        && attributeInfoMap == old(attributeInfoMap)
      ensures info.name !in old(attributeInfoMap) ==>
        r == Success(this) && attributeInfoMap == old(attributeInfoMap)[info.name := info]
    {
      if info.name in attributeInfoMap {
        return Failure(IllegalArgument("AttributeInfo of name '" + info.name + "' already exists!"));
      }
      attributeInfoMap := attributeInfoMap[info.name := info];
      return Success(this);
    }

    /** addAllAttributeInfo: addAttributeInfo for each info in turn, stopping at the first exception. */
    method AddAllAttributeInfo(c: seq<AttributeInfo>) returns (r: Result<ObjectClassInfoBuilder, Error>)
      requires Valid()
      modifies this
      ensures Valid()
      ensures attributeInfoMap == AddAll(old(attributeInfoMap), c).0
      ensures AddAll(old(attributeInfoMap), c).1.None? ==> r == Success(this)
      ensures AddAll(old(attributeInfoMap), c).1.Some? ==> r == Failure(AddAll(old(attributeInfoMap), c).1.value)
    {
      var i := 0;
      while i < |c|
        invariant 0 <= i <= |c|
        invariant Valid()
        invariant AddAll(old(attributeInfoMap), c) == AddAll(attributeInfoMap, c[i..])
      {
        assert c[i..][1..] == c[i + 1..];
        var step := AddAttributeInfo(c[i]);
        if step.Failure? {
          return Failure(step.error);
        }
        i := i + 1;
      }
      return Success(this);
    }

    /**
     * build: adds Name.INFO under Name.NAME when no such key exists, then
     * constructs the ObjectClassInfo from the common fields and the map's
     * infos. Only a null type can make it fail.
     */
    method Build() returns (r: Result<ClassInfo, Error>)
      requires Valid()
      modifies this
      ensures Valid()
      ensures attributeInfoMap == WithName(old(attributeInfoMap))
      ensures r == NewObjectClassInfo(common.typeName, attributeInfoMap.Values, common.isContainer, common.isAuxiliary,
                                      common.isEmbedded, common.description)
      ensures r.Success? <==> common.typeName.Some?
      ensures r.Success? ==> HasNameInfo(r.value.attributeInfos)
    {
      if NAME !in attributeInfoMap {
        attributeInfoMap := attributeInfoMap[NAME := NAME_INFO];
      }
      WithNameHasNameInfo(old(attributeInfoMap));
      r := NewObjectClassInfo(common.typeName, attributeInfoMap.Values, common.isContainer, common.isAuxiliary,
                              common.isEmbedded, common.description);
    }
  }

  class LightweightObjectClassInfoBuilder {
    const common: BaseObjectClassInfoBuilder

    constructor ()
      ensures fresh(common)
      ensures common.typeName == Some(ACCOUNT_NAME)
      ensures !common.isContainer && !common.isAuxiliary && !common.isEmbedded && common.description.None?
    {
      common := new BaseObjectClassInfoBuilder();
    }

    method GetThis() returns (b: LightweightObjectClassInfoBuilder)
      ensures b == this
    {
      b := this;
    }

    /**
     * build: the 4-argument constructor, so the type and flags are carried
     * over and the description is dropped, whatever SetDescription stored.
     */
    function Build(): (r: Result<ClassInfo, Error>)
      reads common
      ensures r.Success? <==> common.typeName.Some?
      ensures r.Failure? ==> r.error == NullArgument("type")
      ensures r.Success? ==> && r.value.LightweightObjectClassInfo?
                             && r.value.typeName == common.typeName.value && r.value.description.None?
                             && r.value.isContainer == common.isContainer && r.value.isAuxiliary == common.isAuxiliary
                             && r.value.isEmbedded == common.isEmbedded
    {
      NewLightweightObjectClassInfoWithoutDescription(common.typeName, common.isContainer, common.isAuxiliary, common.isEmbedded)
    }
  }
}
