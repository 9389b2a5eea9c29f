/**
 * LightweightObjectClassInfo and ObjectClassInfo: the definition of an object
 * class. The two Java classes are the two constructors of one datatype;
 * "the exact same class" in equals is "the same constructor".
 */
module ObjectClassInfos {
  import opened Wrappers
  import opened Names
  import opened Objects

  /** An AttributeInfo: its name, and the rest of its definition as one opaque string. */
  datatype AttributeInfo = AttributeInfo(name: string, definition: string)

  /** Name.INFO, the info of the Name attribute (its definition is not part of this model). */
  const NAME_INFO: AttributeInfo := AttributeInfo(NAME, "Name.INFO")

  datatype ClassInfo =
    | LightweightObjectClassInfo(typeName: string, isContainer: bool, isAuxiliary: bool, isEmbedded: bool,
                                 description: Option<string>)
    | ObjectClassInfo(typeName: string, attributeInfos: set<AttributeInfo>, isContainer: bool, isAuxiliary: bool,
                      isEmbedded: bool, description: Option<string>)

  /** AttributeInfoUtil.toMap(infos).containsKey(Name.NAME): some info is named Name.NAME, ignoring case. */
  predicate HasNameInfo(infos: set<AttributeInfo>) {
    exists info :: info in infos && NamesEqual(info.name, NAME)
  }

  /** What every constructed ClassInfo satisfies: a full definition has a Name attribute. */
  predicate Valid(info: ClassInfo) {
    info.ObjectClassInfo? ==> HasNameInfo(info.attributeInfos)
  }

  /** The 5-argument LightweightObjectClassInfo constructor: the type must not be null; the getters return the arguments. */
  function NewLightweightObjectClassInfo(typeName: Option<string>, isContainer: bool, isAuxiliary: bool, isEmbedded: bool,
                                         description: Option<string>): (r: Result<ClassInfo, Error>)
    ensures r.Success? <==> typeName.Some?
    ensures r.Failure? ==> r.error == NullArgument("type")
    ensures r.Success? ==> && r.value.LightweightObjectClassInfo? && Valid(r.value)
                           && r.value.typeName == typeName.value && r.value.description == description
                           && r.value.isContainer == isContainer && r.value.isAuxiliary == isAuxiliary
                           && r.value.isEmbedded == isEmbedded
  {
    if typeName.None? then Failure(NullArgument("type"))
    else Success(LightweightObjectClassInfo(typeName.value, isContainer, isAuxiliary, isEmbedded, description))
  }

  /** The 4-argument constructor: no description. */
  function NewLightweightObjectClassInfoWithoutDescription(typeName: Option<string>, isContainer: bool, isAuxiliary: bool,
                                                           isEmbedded: bool): (r: Result<ClassInfo, Error>)
    ensures r.Success? <==> typeName.Some?
    ensures r.Failure? ==> r.error == NullArgument("type")
    ensures r.Success? ==> && r.value.LightweightObjectClassInfo? && r.value.description.None?
                           && r.value.typeName == typeName.value
                           && r.value.isContainer == isContainer && r.value.isAuxiliary == isAuxiliary
                           && r.value.isEmbedded == isEmbedded
  {
    NewLightweightObjectClassInfo(typeName, isContainer, isAuxiliary, isEmbedded, None)
  }

  /**
   * The 6-argument ObjectClassInfo constructor: the type check of the
   * superclass comes first, then the required Name attribute.
   */
  function NewObjectClassInfo(typeName: Option<string>, attrInfo: set<AttributeInfo>, isContainer: bool, isAuxiliary: bool,
                              isEmbedded: bool, description: Option<string>): (r: Result<ClassInfo, Error>)
    ensures r.Success? <==> typeName.Some? && HasNameInfo(attrInfo)
    ensures typeName.None? ==> r == Failure(NullArgument("type"))
    ensures typeName.Some? && !HasNameInfo(attrInfo) ==> r == Failure(IllegalArgument("Missing 'Name' attribute info."))
    ensures r.Success? ==> && r.value.ObjectClassInfo? && Valid(r.value)
                           && r.value.typeName == typeName.value && r.value.attributeInfos == attrInfo
                           && r.value.description == description && r.value.isContainer == isContainer
                           && r.value.isAuxiliary == isAuxiliary && r.value.isEmbedded == isEmbedded
  {
    if typeName.None? then Failure(NullArgument("type"))
    else if !HasNameInfo(attrInfo) then Failure(IllegalArgument("Missing 'Name' attribute info."))
    else Success(ObjectClassInfo(typeName.value, attrInfo, isContainer, isAuxiliary, isEmbedded, description))
  }

  /** The 5-argument constructor: no description. */
  function NewObjectClassInfoWithoutDescription(typeName: Option<string>, attrInfo: set<AttributeInfo>, isContainer: bool,
                                                isAuxiliary: bool, isEmbedded: bool): (r: Result<ClassInfo, Error>)
    ensures r.Success? <==> typeName.Some? && HasNameInfo(attrInfo)
    ensures typeName.None? ==> r == Failure(NullArgument("type"))
    ensures typeName.Some? && !HasNameInfo(attrInfo) ==> r == Failure(IllegalArgument("Missing 'Name' attribute info."))
    ensures r.Success? ==> && r.value.ObjectClassInfo? && r.value.description.None?
                           && r.value.typeName == typeName.value && r.value.attributeInfos == attrInfo
                           && r.value.isContainer == isContainer && r.value.isAuxiliary == isAuxiliary
                           && r.value.isEmbedded == isEmbedded
  {
    NewObjectClassInfo(typeName, attrInfo, isContainer, isAuxiliary, isEmbedded, None)
  }

  /** is(name): the type matches ignoring case. */
  predicate Is(info: ClassInfo, name: string) {
    NamesEqual(info.typeName, name)
  }

  /**
   * equals: the same object, or another of the exact same class with a
   * matching type, the same flags and description and, for a full
   * definition, the same attribute infos.
   */
  predicate Equals(info: ClassInfo, obj: Option<ClassInfo>) {
    || obj == Some(info)
    || (&& obj.Some?
        && info.ObjectClassInfo? == obj.value.ObjectClassInfo?
        && Is(info, obj.value.typeName)
        && (info.ObjectClassInfo? ==> info.attributeInfos == obj.value.attributeInfos)
        && info.isContainer == obj.value.isContainer
        && info.isAuxiliary == obj.value.isAuxiliary
        && info.description == obj.value.description
        && info.isEmbedded == obj.value.isEmbedded)
  }

  /** hashCode: the hash of the type, case-folded. */
  function HashCode(info: ClassInfo): int {
    NameHashCode(info.typeName)
  }

  /** equals is an equivalence, false for null, and never equates a lightweight definition with a full one. */
  lemma EqualsIsEquivalence(a: ClassInfo, b: ClassInfo, c: ClassInfo)
    ensures Equals(a, Some(a))
    ensures !Equals(a, None)
    ensures Equals(a, Some(b)) ==> Equals(b, Some(a))
    ensures Equals(a, Some(b)) && Equals(b, Some(c)) ==> Equals(a, Some(c))
    ensures a.LightweightObjectClassInfo? && b.ObjectClassInfo? ==> !Equals(a, Some(b))
  {
  }

  /** Equal definitions have equal hashes. */
  lemma HashCodeAgreesWithEquals(a: ClassInfo, b: ClassInfo)
    requires Equals(a, Some(b))
    ensures HashCode(a) == HashCode(b)
  {
  }

  /** A definition without a Name attribute cannot be built, even an empty one. */
  lemma NoNameIsRefused(typeName: string, isContainer: bool, isAuxiliary: bool, isEmbedded: bool)
    ensures NewObjectClassInfoWithoutDescription(Some(typeName), {}, isContainer, isAuxiliary, isEmbedded) ==
            Failure(IllegalArgument("Missing 'Name' attribute info."))
  {
  }

  /** Types "group" and "Group" name one object class: is accepts both, the definitions are equal and hash alike. */
  lemma GroupTypesAreEqual(infos: set<AttributeInfo>)
    ensures var lower := ObjectClassInfo("group", infos, false, false, false, None);
            var upper := ObjectClassInfo("Group", infos, false, false, false, None);
      && Is(lower, "group") && Is(lower, "Group") && !Is(lower, "admin")
      && Equals(lower, Some(upper)) && HashCode(lower) == HashCode(upper)
  {
    GroupNamesEqual();
  }
}
