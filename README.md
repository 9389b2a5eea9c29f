# ConnId attribute delta algebra and update reconciliation, in Dafny

This project models the core of ConnId, the identity-connector framework. A
connector is the adapter between the framework and one target system. The
model covers:

- value-level deltas. `ComplexValueDelta` has three operations, Add, Delete
  and Merge, each applied in place to a value list;
- attribute-level deltas. `ComplexAttributeDelta` is a named, ordered list of
  value operations. `BaseAttributeDelta` gives name checking and
  case-insensitive equality. `AttributeValueDelta` is a data-only delta family;
- `UpdateImpl`. It validates update input. It then passes add/remove of
  attribute values to a connector that supports them natively. Otherwise it
  fetches the object, merges the change into its attributes and sends a
  replace update;
- `CreateImpl`'s input checks: the null checks and the duplicate-name loop;
- object-class definitions: `LightweightObjectClassInfo`, `ObjectClassInfo`
  and their three builders;
- `ConfigurationPropertiesImpl`, the ordered table of a connector's
  configuration properties;
- `ConnectorObjectReference`, which holds either a whole object or only its
  identification.

Java `null` is `Option.None`. An exception is the `Failure`/`Fail` side of a
`Result`/`Outcome` whose `Error` names the exception class and its message.
Code that changes state in Java is a Dafny class with `modifies` clauses, and
its loops carry invariants:

- the value lists the delta operations edit;
- the builders;
- the property table;
- the update and create operations, which record what they ask of the connector.

Every such method is proved against a specification function, and the
properties of those functions are separate lemmas.

The connector is a `Connectors.Connector` object:

- its answers are fixed when it is built: the object a lookup finds, and the
  uid or exception an update-type call returns;
- every call made to it is appended to its `calls` log;
- two boolean flags stand for the SPI interfaces `SearchOp` and
  `UpdateAttributeValuesOp`.

Helpers that are not part of this model are parameters or small stand-in
definitions:

- filter evaluation (`Filter.accept`) and `AttributeDeltaUtil.applyDeltas` are
  function parameters;
- `NameUtil`'s name comparison is ASCII case folding. Its hash is Java's
  `String.hashCode` of the folded name, with 32-bit wrap-around;
- `AttributeUtil.toMap(...).get(name)` is "the last attribute whose name
  matches, ignoring case";
- the attribute normalizer is the identity.

Files:

| file | models |
|---|---|
| `Wrappers.dfy` | Option, Result, Outcome |
| `Names.dfy` | name constants, case-insensitive name equality and hashing |
| `Objects.dfy` | object classes, uids, values, attributes, filters, exceptions; `List.copyOf` |
| `Deltas.dfy` | the `ComplexValueDelta` and `BaseAttributeDelta` families |
| `ComplexValueDeltas.dfy` | Add, Delete and Merge applied in place |
| `BaseAttributeDeltas.dfy` | name check, `is`, `equals`, `hashCode` |
| `ComplexAttributeDeltas.dfy` | constructor, `equals`, `applyTo` |
| `AttributeValueDeltas.dfy` | the data-only delta family |
| `Connectors.dfy` | the connector and the operation options |
| `Updates.dfy` | `UpdateImpl` |
| `Creates.dfy` | `CreateImpl.create` |
| `ObjectClassInfos.dfy` | `LightweightObjectClassInfo`, `ObjectClassInfo` |
| `ObjectClassInfoBuilders.dfy` | the three object-class builders |
| `ConfigurationProperties.dfy` | `ConfigurationPropertiesImpl` |
| `References.dfy` | `ConnectorObjectReference` |

## Model

| member | source | states |
|---|---|---|
| Names.NamesEqualIsEquivalence | java/connector-framework/src/main/java/org/identityconnectors/framework/common/objects/BaseAttributeDelta.java:51-53 | The case-insensitive name test `is` relies on is reflexive, symmetric and transitive. |
| Names.NameHashCodeRespectsNamesEqual | java/connector-framework/src/main/java/org/identityconnectors/framework/common/objects/BaseAttributeDelta.java:55-58 | Names that are equal ignoring case have the same name hash. |
| Names.GroupNamesEqual | java/connector-framework/src/test/java/org/identityconnectors/framework/common/objects/ObjectClassInfoTests.java:77-88 | "group" and "Group" are one name; "group" and "admin" are not. |
| Lists.ListCopyOf | java/connector-framework/src/main/java/org/identityconnectors/framework/common/objects/ComplexValueDelta.java:40-42 | `List.copyOf` succeeds exactly on a non-null list without null elements and returns the same values; otherwise it is a NullPointerException. |
| Deltas.GetFilter | java/connector-framework/src/main/java/org/identityconnectors/framework/common/objects/ComplexValueDelta.java:68-70 | A Delete returns the filter it was built with, null included; a Merge returns its non-null filter. |
| Deltas.DeleteDescription | java/connector-framework/src/main/java/org/identityconnectors/framework/common/objects/ComplexValueDelta.java:89-92 | Delete describes a null filter as "Delete: *" and any other filter by its text. |
| ComplexValueDeltas.NewAdd | java/connector-framework/src/main/java/org/identityconnectors/framework/common/objects/ComplexValueDelta.java:40-42 | Add is built exactly from a non-null, null-free list, which it keeps as a snapshot; otherwise construction throws NullPointerException. |
| ComplexValueDeltas.NewMerge | java/connector-framework/src/main/java/org/identityconnectors/framework/common/objects/ComplexValueDelta.java:110-116 | Merge refuses a null filter with IllegalArgumentException("Filter cannot be null"); null deltas become the empty set. |
| ComplexValueDeltas.ApplyAdd | java/connector-framework/src/main/java/org/identityconnectors/framework/common/objects/ComplexValueDelta.java:53-56 | The list afterwards is the old list followed by the Add's values, in order and with duplicates. |
| ComplexValueDeltas.ApplyDelete | java/connector-framework/src/main/java/org/identityconnectors/framework/common/objects/ComplexValueDelta.java:94-103 | The iterator-removal loop leaves exactly `Kept(old list)`: the values the filter does not match, in their original order. |
| ComplexValueDeltas.ApplyMerge | java/connector-framework/src/main/java/org/identityconnectors/framework/common/objects/ComplexValueDelta.java:128-146 | The replaceAll loop leaves `MergedAll(old list)`: each element passed through applyToSingleObject. |
| ComplexValueDeltas.ApplyTo | java/connector-framework/src/main/java/org/identityconnectors/framework/common/objects/ComplexValueDelta.java:53-146 | Each operation leaves the list that `Applied` describes for its kind. |
| ComplexValueDeltas.KeptMembers | java/connector-framework/src/main/java/org/identityconnectors/framework/common/objects/ComplexValueDelta.java:72-103 | A value is left after Delete if and only if it was in the list and the filter does not match it. |
| ComplexValueDeltas.KeptConcat | java/connector-framework/src/main/java/org/identityconnectors/framework/common/objects/ComplexValueDelta.java:94-103 | Delete works element by element and keeps relative order: on a concatenation it is the concatenation of its results. |
| ComplexValueDeltas.KeptNullFilter | java/connector-framework/src/main/java/org/identityconnectors/framework/common/objects/ComplexValueDelta.java:72-75 | A Delete with a null filter empties any list. |
| ComplexValueDeltas.KeptKeepsNonObjects | java/connector-framework/src/main/java/org/identityconnectors/framework/common/objects/ComplexValueDelta.java:76-80 | A Delete with a filter never removes a scalar or null value: they survive in order and with their repeats. |
| ComplexValueDeltas.MergedAllAt | java/connector-framework/src/main/java/org/identityconnectors/framework/common/objects/ComplexValueDelta.java:133-146 | Merge keeps the length. A non-object or non-matching element is unchanged. A matching object becomes an EmbeddedObject of the same object class, with the attributes applyDeltas computes from its own. |
| ComplexValueDeltas.EmptyList | java/connector-framework/src/main/java/org/identityconnectors/framework/common/objects/ComplexValueDelta.java:53-146 | Delete and Merge leave an empty list empty; Add gives its own values. |
| BaseAttributeDeltas.CheckedName | java/connector-framework/src/main/java/org/identityconnectors/framework/common/objects/BaseAttributeDelta.java:40-49 | A blank name is refused with IllegalArgumentException("Name must not be blank!"); any other name is kept and returned as given. |
| BaseAttributeDeltas.BaseEqualsCases | java/connector-framework/src/main/java/org/identityconnectors/framework/common/objects/BaseAttributeDelta.java:77-87 | equals is false for null and for another runtime class; otherwise it holds if and only if the names are equal ignoring case. |
| BaseAttributeDeltas.BaseEqualsIsEquivalence | java/connector-framework/src/main/java/org/identityconnectors/framework/common/objects/BaseAttributeDelta.java:77-87 | equals is reflexive, symmetric and transitive. |
| BaseAttributeDeltas.HashCodeAgreesWithEquals | java/connector-framework/src/main/java/org/identityconnectors/framework/common/objects/BaseAttributeDelta.java:55-58 | Deltas that are equal have equal hash codes. |
| ComplexAttributeDeltas.NewComplexAttributeDelta | java/connector-framework/src/main/java/org/identityconnectors/framework/common/objects/ComplexAttributeDelta.java:88-92 | Construction succeeds exactly for a non-blank name. It keeps the name and the op list (null included) unchanged. |
| ComplexAttributeDeltas.EqualsMeaning | java/connector-framework/src/main/java/org/identityconnectors/framework/common/objects/ComplexAttributeDelta.java:107-127 | equals holds if and only if the other delta is a ComplexAttributeDelta with a case-insensitively equal name and equal op lists. |
| ComplexAttributeDeltas.EqualsImpliesSameHash | java/connector-framework/src/main/java/org/identityconnectors/framework/common/objects/ComplexAttributeDelta.java:107-127 | Equal complex deltas have equal (inherited) hash codes. |
| ComplexAttributeDeltas.ApplyTo | java/connector-framework/src/main/java/org/identityconnectors/framework/common/objects/ComplexAttributeDelta.java:129-135 | It fails (NullPointerException) exactly when the base attribute's value list or the op list is null. Otherwise the result is named like the delta and holds the ops applied in order to a copy of the base values, or to an empty list for a null attribute. |
| ComplexAttributeDeltas.ApplyAllConcat | java/connector-framework/src/main/java/org/identityconnectors/framework/common/objects/ComplexAttributeDelta.java:131-133 | Applying ops a + b is applying a, then b to what a left. |
| ComplexAttributeDeltas.ClearThenAdd | java/connector-framework/src/main/java/org/identityconnectors/framework/common/objects/ComplexAttributeDelta.java:131-133 | [Delete(null), Add(xs)] leaves exactly xs, whatever the list held. |
| ComplexAttributeDeltas.AddThenClear | java/connector-framework/src/main/java/org/identityconnectors/framework/common/objects/ComplexAttributeDelta.java:131-133 | [Add(xs), Delete(null)] leaves the empty list. |
| ComplexAttributeDeltas.ApplyOne | java/connector-framework/src/main/java/org/identityconnectors/framework/common/objects/ComplexAttributeDelta.java:131-133 | A one-op list applies that op. |
| ComplexAttributeDeltas.OrderMatters | java/connector-framework/src/main/java/org/identityconnectors/framework/common/objects/ComplexAttributeDelta.java:131-133 | Delete-by-filter and Add are not commutative: the two orders give different lists. |
| ComplexAttributeDeltas.DeleteThenAddObject | java/connector-framework/src/main/java/org/identityconnectors/framework/common/objects/ComplexAttributeDelta.java:131-133 | Deleting the objects a filter accepts and then adding one accepted object x to [x, y] gives [y, x]. |
| ComplexAttributeDeltas.AddThenDeleteObject | java/connector-framework/src/main/java/org/identityconnectors/framework/common/objects/ComplexAttributeDelta.java:131-133 | Adding x to [x, y] and then deleting by a filter accepting x gives [y]: the delete also removes the added copy. |
| AttributeValueDeltas.NewAddValues | java/connector-framework/src/main/java/org/identityconnectors/framework/common/objects/AttributeValueDelta.java:35-37 | Add keeps an immutable copy of exactly the given values. A null list or a null element throws NullPointerException. |
| AttributeValueDeltas.NewMergeValues | java/connector-framework/src/main/java/org/identityconnectors/framework/common/objects/AttributeValueDelta.java:79-85 | Merge refuses a null filter with IllegalArgumentException. Null deltas become the empty list; others are kept in order. |
| AttributeValueDeltas.GetValuesFilter | java/connector-framework/src/main/java/org/identityconnectors/framework/common/objects/AttributeValueDelta.java:54-60 | getFilter returns the constructor's filter, null included. |
| AttributeValueDeltas.NewFilterBasedValues | java/connector-framework/src/main/java/org/identityconnectors/framework/common/objects/AttributeValueDelta.java:49-56 | The result is a bare FilterBased (not a Delete or Merge); it keeps any filter, null included, and getFilter returns it. |
| AttributeValueDeltas.DeleteAcceptsNullFilter | java/connector-framework/src/main/java/org/identityconnectors/framework/common/objects/AttributeValueDelta.java:65-84 | Delete takes a null filter and then describes itself as "Delete: *"; Merge with a null filter cannot be built. |
| Connectors.Connector.GetObject | java/connector-framework-internal/src/main/java/org/identityconnectors/framework/impl/api/local/operations/UpdateImpl.java:271-275 | A lookup records one GetObject call and returns the connector's answer to it. |
| Connectors.Connector.Invoke | java/connector-framework-internal/src/main/java/org/identityconnectors/framework/impl/api/local/operations/UpdateImpl.java:100-106 | A create or update-type call is recorded and its answer (a uid or an exception) is returned unchanged. |
| Updates.FirstDeltaErrorNone | java/connector-framework-internal/src/main/java/org/identityconnectors/framework/impl/api/local/operations/UpdateImpl.java:295-309 | The delta checks pass if and only if no attribute has a null value list or an operational (or Name) name. |
| Updates.ValidationPassesIff | java/connector-framework-internal/src/main/java/org/identityconnectors/framework/impl/api/local/operations/UpdateImpl.java:280-311 | validateInput completes if and only if: uid and object class are present, the class is not `__ALL__`, the set is present and has no Uid attribute, and (in delta mode) no attribute is null-valued or operational. |
| Updates.ValidateInput | java/connector-framework-internal/src/main/java/org/identityconnectors/framework/impl/api/local/operations/UpdateImpl.java:280-311 | The check-by-check method throws the first failing check's exception, in source order, and completes exactly on valid input. |
| Updates.ReplaceAcceptsWhatDeltasRefuse | java/connector-framework-internal/src/main/java/org/identityconnectors/framework/impl/api/local/operations/UpdateImpl.java:294-301 | Past the object class and Uid checks, an attribute set holding a null-valued or operational attribute passes replace validation but is refused in delta mode. |
| Updates.LookupBase | java/connector-framework-internal/src/main/java/org/identityconnectors/framework/impl/api/local/operations/UpdateImpl.java:227-233 | The base attribute found has a matching name and comes from the base set. There is none exactly when no base name matches. |
| Updates.RemoveFirst | java/connector-framework-internal/src/main/java/org/identityconnectors/framework/impl/api/local/operations/UpdateImpl.java:252-254 | `List.remove(Object)` leaves the list unchanged for an absent value and otherwise removes one occurrence. |
| Updates.FirstPosition | java/connector-framework-internal/src/main/java/org/identityconnectors/framework/impl/api/local/operations/UpdateImpl.java:252-254 | The position it returns holds x, and no earlier element equals x. |
| Updates.RemoveFirstAt | java/connector-framework-internal/src/main/java/org/identityconnectors/framework/impl/api/local/operations/UpdateImpl.java:252-254 | `List.remove(Object)` takes out exactly the first element equal to x and keeps the others in their order. |
| Updates.RemoveEachMultiset | java/connector-framework-internal/src/main/java/org/identityconnectors/framework/impl/api/local/operations/UpdateImpl.java:251-254 | The removal loop subtracts the removal list from the values as multisets. |
| Updates.RemoveAbsentValues | java/connector-framework-internal/src/main/java/org/identityconnectors/framework/impl/api/local/operations/UpdateImpl.java:251-254 | Removing values the attribute does not hold changes nothing. |
| Updates.MergeSpecMeaning | java/connector-framework-internal/src/main/java/org/identityconnectors/framework/impl/api/local/operations/UpdateImpl.java:223-266 | merge succeeds if and only if every update attribute merges without exception. Its result holds exactly the attributes those update attributes produce. |
| Updates.MergeSpecFailurePersists | java/connector-framework-internal/src/main/java/org/identityconnectors/framework/impl/api/local/operations/UpdateImpl.java:229-263 | merge stops at the first exception: a failing prefix makes the whole fail the same way. |
| Updates.MergeSucceedsOnPresentValues | java/connector-framework-internal/src/main/java/org/identityconnectors/framework/impl/api/local/operations/UpdateImpl.java:223-266 | On update attributes that all have value lists, as validated delta input does, merge never throws. |
| Updates.MergeRules | java/connector-framework-internal/src/main/java/org/identityconnectors/framework/impl/api/local/operations/UpdateImpl.java:236-263 | The rules below hold; only names from the update set are ever emitted. Add: an attribute the object lacks is sent verbatim, a present one gets base values followed by update values. Remove: an attribute the object lacks gives nothing, a present one gets what remains after removal, or no values. |
| Updates.Merge | java/connector-framework-internal/src/main/java/org/identityconnectors/framework/impl/api/local/operations/UpdateImpl.java:223-266 | The nested loops compute exactly `MergeSpec`, the exception included. |
| Updates.MergeAttribute | java/connector-framework-internal/src/main/java/org/identityconnectors/framework/impl/api/local/operations/UpdateImpl.java:229-263 | The loop body for one update attribute computes exactly `MergedAttribute`: verbatim, combined, nothing, or the NullPointerException. |
| Updates.RemoveValues | java/connector-framework-internal/src/main/java/org/identityconnectors/framework/impl/api/local/operations/UpdateImpl.java:251-254 | Removing each update value from a copy of the base values removes its first occurrence, as `RemoveEach` states. |
| Updates.AbsentBaseAttribute | java/connector-framework-internal/src/main/java/org/identityconnectors/framework/impl/api/local/operations/UpdateImpl.java:236-248 | An attribute missing from the object is sent as it is when adding and is dropped when removing. |
| Updates.RemoveAllSendsNull | java/connector-framework-internal/src/main/java/org/identityconnectors/framework/impl/api/local/operations/UpdateImpl.java:255-257 | Removing every value an attribute holds, in any order, emits the attribute with a null value list rather than omitting it. |
| Updates.AttributesToGet | java/connector-framework-internal/src/main/java/org/identityconnectors/framework/impl/api/local/operations/UpdateImpl.java:203-207 | The forEach collects exactly the names of the attributes to change. |
| Updates.UpdateOperation.Update | java/connector-framework-internal/src/main/java/org/identityconnectors/framework/impl/api/local/operations/UpdateImpl.java:82-111 | Invalid input throws the validation exception with no connector call. Otherwise one update call carries the attributes and the options (empty for null), and its answer is returned. |
| Updates.UpdateOperation.FetchAndMerge | java/connector-framework-internal/src/main/java/org/identityconnectors/framework/impl/api/local/operations/UpdateImpl.java:191-218 | 1. Without SearchOp it throws UnsupportedOperationException and calls nothing. 2. Otherwise one lookup asks for exactly the changed names. 3. A lookup exception passes through; a missing object gives UnknownUid. 4. Otherwise the result is the merge with the fetched attributes, which succeeds. |
| Updates.UpdateOperation.ChangeValues | java/connector-framework-internal/src/main/java/org/identityconnectors/framework/impl/api/local/operations/UpdateImpl.java:113-189 | 1. Invalid delta input throws with no call. 2. An UpdateAttributeValuesOp connector gets the native call and no fetch. 3. Without SearchOp it throws. 4. Otherwise the fetch is made; on a missing object or lookup exception no update follows. 5. With an object, one replace update carries the merged set. |
| Updates.UpdateOperation.AddAttributeValues | java/connector-framework-internal/src/main/java/org/identityconnectors/framework/impl/api/local/operations/UpdateImpl.java:113-149 | The add instance of the capability branch. Invalid delta input throws with no call. With UpdateAttributeValuesOp the connector's addAttributeValues is called. Without it and without SearchOp, UnsupportedOperation(SEARCH_REQUIRED) with no call. Otherwise a fetch: its exception passes through, a missing object gives UnknownUid, and a found one gets an update with base values followed by the added ones. |
| Updates.UpdateOperation.RemoveAttributeValues | java/connector-framework-internal/src/main/java/org/identityconnectors/framework/impl/api/local/operations/UpdateImpl.java:151-189 | The remove instance of the capability branch. Invalid delta input throws with no call. With UpdateAttributeValuesOp the connector's removeAttributeValues is called. Without it and without SearchOp, UnsupportedOperation(SEARCH_REQUIRED) with no call. Otherwise a fetch: its exception passes through, a missing object gives UnknownUid, and a found one gets an update with the values that remain. |
| Creates.FirstDuplicateFromNone | connector-framework-internal/src/main/java/org/identityconnectors/framework/impl/api/local/operations/CreateImpl.java:66-73 | The scan finds no repeat if and only if the names are pairwise distinct and none was already seen. |
| Creates.FirstDuplicateFromIsShared | connector-framework-internal/src/main/java/org/identityconnectors/framework/impl/api/local/operations/CreateImpl.java:66-73 | A reported name really repeats: it was already seen and occurs, or two attributes carry it. |
| Creates.DuplicateCheckMeaning | connector-framework-internal/src/main/java/org/identityconnectors/framework/impl/api/local/operations/CreateImpl.java:66-73 | The duplicate check passes if and only if attribute names are pairwise distinct (exact comparison); a reported name is carried by two attributes. |
| Creates.CaseVariantsAreNotDuplicates | connector-framework-internal/src/main/java/org/identityconnectors/framework/impl/api/local/operations/CreateImpl.java:66-73 | "cn" and "CN" are not duplicates: the check is case-sensitive. |
| Creates.CheckDuplicates | connector-framework-internal/src/main/java/org/identityconnectors/framework/impl/api/local/operations/CreateImpl.java:66-73 | The loop throws IllegalArgumentException("Duplicated named attributes: " + the first repeated name) exactly when names repeat. |
| Creates.AttributesNullCheckMissing | connector-framework-internal/src/main/java/org/identityconnectors/framework/impl/api/local/operations/CreateImpl.java:59-66 | As written, a null attribute set with a present object class gives a bare NullPointerException. The intended check gives NullArgument("attributes"). |
| Creates.CreateChecksMeaning | connector-framework-internal/src/main/java/org/identityconnectors/framework/impl/api/local/operations/CreateImpl.java:59-73 | The intended checks pass if and only if class and attributes are present and names are distinct. A null attribute set is refused by name. They differ from the code as written only on that input. |
| Creates.CreateOperation.Create | connector-framework-internal/src/main/java/org/identityconnectors/framework/impl/api/local/operations/CreateImpl.java:55-84 | A failed check throws with no connector call. Otherwise one create call carries the distinctly named attributes and the options (empty for null), and its uid is returned. On a null attribute set Create follows the corrected check recorded under "## Findings" (NullArgument("attributes")), not the bare NullPointerException of the code as written. |
| ObjectClassInfos.NewLightweightObjectClassInfo | java/connector-framework/src/main/java/org/identityconnectors/framework/common/objects/LightweightObjectClassInfo.java:50-101 | A null type is refused with NullArgument("type"). Otherwise every getter returns its constructor argument. |
| ObjectClassInfos.NewLightweightObjectClassInfoWithoutDescription | java/connector-framework/src/main/java/org/identityconnectors/framework/common/objects/LightweightObjectClassInfo.java:33-40 | The four-argument constructor refuses exactly a null type, with NullArgument("type"). Otherwise it stores the type and the three flags and has a null description. |
| ObjectClassInfos.NewObjectClassInfo | java/connector-framework/src/main/java/org/identityconnectors/framework/common/objects/ObjectClassInfo.java:72-93 | 1. Construction succeeds if and only if the type is present and some attribute info is named Name. 2. A null type is refused first, then a missing Name with "Missing 'Name' attribute info.". 3. getAttributeInfo and the other getters return the arguments. |
| ObjectClassInfos.NewObjectClassInfoWithoutDescription | java/connector-framework/src/main/java/org/identityconnectors/framework/common/objects/ObjectClassInfo.java:53-61 | The five-argument constructor gives NullArgument("type") on a null type, then the Missing-Name error when no info is named `__NAME__`. Otherwise it stores the type, the attribute infos and the flags, with a null description. |
| ObjectClassInfos.EqualsIsEquivalence | java/connector-framework/src/main/java/org/identityconnectors/framework/common/objects/ObjectClassInfo.java:95-130 | equals is an equivalence and false for null. It never equates a lightweight definition with a full one (exact class). |
| ObjectClassInfos.HashCodeAgreesWithEquals | java/connector-framework/src/main/java/org/identityconnectors/framework/common/objects/LightweightObjectClassInfo.java:113-150 | Equal definitions have equal hashes: the hash depends only on the case-folded type. |
| ObjectClassInfos.NoNameIsRefused | java/connector-framework/src/main/java/org/identityconnectors/framework/common/objects/ObjectClassInfo.java:84-87 | A definition with no attribute infos cannot be built. |
| ObjectClassInfos.GroupTypesAreEqual | java/connector-framework/src/test/java/org/identityconnectors/framework/common/objects/ObjectClassInfoTests.java:77-106 | Types "group" and "Group": `is` accepts both and refuses "admin", and the two definitions are equal and hash alike. |
| ObjectClassInfoBuilders.BaseObjectClassInfoBuilder.constructor | java/connector-framework/src/main/java/org/identityconnectors/framework/common/objects/BaseObjectClassInfoBuilder.java:39-41 | A fresh builder has type `__ACCOUNT__`, all flags false and no description. |
| ObjectClassInfoBuilders.BaseObjectClassInfoBuilder.SetType | java/connector-framework/src/main/java/org/identityconnectors/framework/common/objects/BaseObjectClassInfoBuilder.java:55-58 | Sets the type only, and returns the builder. |
| ObjectClassInfoBuilders.BaseObjectClassInfoBuilder.SetContainer | java/connector-framework/src/main/java/org/identityconnectors/framework/common/objects/BaseObjectClassInfoBuilder.java:65-67 | Sets the container flag only, and returns nothing. |
| ObjectClassInfoBuilders.BaseObjectClassInfoBuilder.SetAuxiliary | java/connector-framework/src/main/java/org/identityconnectors/framework/common/objects/BaseObjectClassInfoBuilder.java:69-71 | Sets the auxiliary flag only, and returns nothing. |
| ObjectClassInfoBuilders.BaseObjectClassInfoBuilder.SetEmbedded | java/connector-framework/src/main/java/org/identityconnectors/framework/common/objects/BaseObjectClassInfoBuilder.java:73-77 | Sets the embedded flag only, and returns the builder. |
| ObjectClassInfoBuilders.BaseObjectClassInfoBuilder.SetDescription | java/connector-framework/src/main/java/org/identityconnectors/framework/common/objects/BaseObjectClassInfoBuilder.java:79-82 | Sets the description only, and returns the builder. |
| ObjectClassInfoBuilders.AddAllMeaning | java/connector-framework/src/main/java/org/identityconnectors/framework/common/objects/ObjectClassInfoBuilder.java:52-69 | 1. Adding several infos keeps every earlier entry and adds only the given infos, each under its own name. 2. It fails if and only if some name is already a key or repeats. 3. On success every given info is stored. |
| ObjectClassInfoBuilders.RepeatedNameFails | java/connector-framework/src/main/java/org/identityconnectors/framework/common/objects/ObjectClassInfoBuilder.java:52-69 | Two infos with one name in one call: the first is kept, and the second throws "AttributeInfo of name '...' already exists!". |
| ObjectClassInfoBuilders.WithName | java/connector-framework/src/main/java/org/identityconnectors/framework/common/objects/ObjectClassInfoBuilder.java:86-88 | After the insertion step the keys are exactly the old keys plus Name; a missing Name key gets exactly Name.INFO, and every existing entry, a present Name entry included, is kept unchanged. |
| ObjectClassInfoBuilders.WithNameHasNameInfo | java/connector-framework/src/test/java/org/identityconnectors/framework/common/objects/ObjectClassInfoTests.java:53-57 | A builder's infos, after the insertion step, always pass the constructor's Name check. |
| ObjectClassInfoBuilders.ObjectClassInfoBuilder.constructor | java/connector-framework/src/main/java/org/identityconnectors/framework/common/objects/ObjectClassInfoBuilder.java:38-43 | A fresh builder has the base defaults and an empty info map. |
| ObjectClassInfoBuilders.ObjectClassInfoBuilder.GetThis | java/connector-framework/src/main/java/org/identityconnectors/framework/common/objects/ObjectClassInfoBuilder.java:71-74 | Returns the builder itself. |
| ObjectClassInfoBuilders.ObjectClassInfoBuilder.AddAttributeInfo | java/connector-framework/src/main/java/org/identityconnectors/framework/common/objects/ObjectClassInfoBuilder.java:52-58 | A name already a key (compared exactly) throws and leaves the map unchanged. Otherwise the info is stored under its name and the builder is returned. Keys remain the names of their infos. |
| ObjectClassInfoBuilders.ObjectClassInfoBuilder.AddAllAttributeInfo | java/connector-framework/src/main/java/org/identityconnectors/framework/common/objects/ObjectClassInfoBuilder.java:64-69 | The loop behaves as `AddAll`: addAttributeInfo in turn, stopping at the first duplicate with the earlier infos kept. |
| ObjectClassInfoBuilders.ObjectClassInfoBuilder.Build | java/connector-framework/src/main/java/org/identityconnectors/framework/common/objects/ObjectClassInfoBuilder.java:83-96 | Name.INFO is inserted when no Name key exists. The result is the ObjectClassInfo of the common fields and the map's infos. It fails only for a null type, and always holds a Name attribute. |
| ObjectClassInfoBuilders.LightweightObjectClassInfoBuilder.constructor | java/connector-framework/src/main/java/org/identityconnectors/framework/common/objects/BaseObjectClassInfoBuilder.java:39-41 | A fresh lightweight builder has the base defaults. |
| ObjectClassInfoBuilders.LightweightObjectClassInfoBuilder.GetThis | java/connector-framework/src/main/java/org/identityconnectors/framework/common/objects/LightweightObjectClassInfoBuilder.java:5-8 | Returns the builder itself. |
| ObjectClassInfoBuilders.LightweightObjectClassInfoBuilder.Build | java/connector-framework/src/main/java/org/identityconnectors/framework/common/objects/LightweightObjectClassInfoBuilder.java:17-24 | Type and flags are carried over and the description is always null. It fails only for a null type, with the named-argument exception for "type". |
| ConfigurationProperties.ConfigurationProperty.constructor | java/connector-framework-internal/src/main/java/org/identityconnectors/framework/impl/api/ConfigurationPropertiesImpl.java:83-93 | A property has a name, an order and a value, and no parent until a table takes it. |
| ConfigurationProperties.InsertMultiset | java/connector-framework-internal/src/main/java/org/identityconnectors/framework/impl/api/ConfigurationPropertiesImpl.java:72-85 | Inserting one property into the sorted prefix adds exactly that property. |
| ConfigurationProperties.InsertSorted | java/connector-framework-internal/src/main/java/org/identityconnectors/framework/impl/api/ConfigurationPropertiesImpl.java:72-85 | Inserting into a list sorted by order keeps it sorted. |
| ConfigurationProperties.InsertWithOrder | java/connector-framework-internal/src/main/java/org/identityconnectors/framework/impl/api/ConfigurationPropertiesImpl.java:72-85 | Insertion puts the new property after every property of equal order. |
| ConfigurationProperties.SortByOrderProperties | java/connector-framework-internal/src/main/java/org/identityconnectors/framework/impl/api/ConfigurationPropertiesImpl.java:72-85 | The sort is a permutation, ascending by order, and stable: properties of equal order keep their input order. |
| ConfigurationProperties.FirstIndex | java/connector-framework-internal/src/main/java/org/identityconnectors/framework/impl/api/ConfigurationPropertiesImpl.java:86-91 | The position where a name first occurs in the sorted list (where LinkedHashMap places its key). |
| ConfigurationProperties.PutAllDomain | java/connector-framework-internal/src/main/java/org/identityconnectors/framework/impl/api/ConfigurationPropertiesImpl.java:86-91 | The table's keys are exactly the properties' names, each listed once. |
| ConfigurationProperties.PutAllKeyOrder | java/connector-framework-internal/src/main/java/org/identityconnectors/framework/impl/api/ConfigurationPropertiesImpl.java:86-91 | Every key is the name of a put property, and keys are ordered by each name's first occurrence in the put sequence. |
| ConfigurationProperties.LastIndex | java/connector-framework-internal/src/main/java/org/identityconnectors/framework/impl/api/ConfigurationPropertiesImpl.java:88-91 | The index it returns holds a property of the given name, and no later property has that name. |
| ConfigurationProperties.PutAllEntry | java/connector-framework-internal/src/main/java/org/identityconnectors/framework/impl/api/ConfigurationPropertiesImpl.java:86-91 | Each key is the name of a put property and maps to the last put property of that name: the last put wins. |
| ConfigurationProperties.PutAllValuesUnique | java/connector-framework-internal/src/main/java/org/identityconnectors/framework/impl/api/ConfigurationPropertiesImpl.java:86-91 | With uniquely named properties the table's values are exactly the given properties. |
| ConfigurationProperties.PutAllWellFormed | java/connector-framework-internal/src/main/java/org/identityconnectors/framework/impl/api/ConfigurationPropertiesImpl.java:86-92 | The table's key list and entries agree, its keys are distinct, and each key maps to a property of that name. |
| ConfigurationProperties.SortByOrderMembers | java/connector-framework-internal/src/main/java/org/identityconnectors/framework/impl/api/ConfigurationPropertiesImpl.java:84-85 | Sorting keeps exactly the given properties. |
| ConfigurationProperties.SetPropertiesStoresInputs | java/connector-framework-internal/src/main/java/org/identityconnectors/framework/impl/api/ConfigurationPropertiesImpl.java:83-93 | From uniquely named properties, setProperties builds a table whose stored properties are exactly the given ones. |
| ConfigurationProperties.SetPropertiesIgnoresInputOrder | java/connector-framework-internal/src/main/java/org/identityconnectors/framework/impl/api/ConfigurationPropertiesImpl.java:133-144 | Uniquely named properties in any input order give tables holding the same properties, which equals compares. |
| ConfigurationProperties.LaterDuplicateWins | java/connector-framework-internal/src/main/java/org/identityconnectors/framework/impl/api/ConfigurationPropertiesImpl.java:86-92 | Of two properties with one name, the later in sorted order is stored, at the position where the name was first put. |
| ConfigurationProperties.ConfigurationPropertiesImpl.constructor | java/connector-framework-internal/src/main/java/org/identityconnectors/framework/impl/api/ConfigurationPropertiesImpl.java:45-48 | A new table holds no properties, and its keys and entries agree (the table invariant). |
| ConfigurationProperties.ConfigurationPropertiesImpl.SetProperties | java/connector-framework-internal/src/main/java/org/identityconnectors/framework/impl/api/ConfigurationPropertiesImpl.java:83-93 | The new table is `PutAll(SortByOrder(properties))`, with key order and entries. Every given property's parent is this table, and no value changes. |
| ConfigurationProperties.ConfigurationPropertiesImpl.GetProperty | java/connector-framework-internal/src/main/java/org/identityconnectors/framework/impl/api/ConfigurationPropertiesImpl.java:105-108 | There is a property for a name if and only if the name is a key; it is the stored property, which carries that name. |
| ConfigurationProperties.ConfigurationPropertiesImpl.GetPropertyNames | java/connector-framework-internal/src/main/java/org/identityconnectors/framework/impl/api/ConfigurationPropertiesImpl.java:113-117 | The names are the keys in table order, each once, and exactly those getProperty finds. |
| ConfigurationProperties.ConfigurationPropertiesImpl.SetPropertyValue | java/connector-framework-internal/src/main/java/org/identityconnectors/framework/impl/api/ConfigurationPropertiesImpl.java:124-131 | An unknown name throws "Property '...' does not exist." and changes nothing. A known name sets that property's value only; no other value or parent changes, and the table stays well formed. |
| References.NewConnectorObjectReference | java/connector-framework/src/main/java/org/identityconnectors/framework/common/objects/ConnectorObjectReference.java:36-42 | A reference can be built if and only if given a ConnectorObject or a ConnectorObjectIdentification, which it stores; otherwise IllegalArgumentException. |
| References.GetReferencedValue | java/connector-framework/src/main/java/org/identityconnectors/framework/common/objects/ConnectorObjectReference.java:45-52 | The stored value is one of the two accepted kinds, and is a whole object if and only if hasObject holds. |
| References.GetReferencedObject | java/connector-framework/src/main/java/org/identityconnectors/framework/common/objects/ConnectorObjectReference.java:55-61 | Succeeds if and only if hasObject holds, returning the stored object. Otherwise it throws IllegalStateException("Referenced object is not available"). |
| References.Identification | java/connector-framework/src/main/java/org/identityconnectors/framework/common/objects/ConnectorObjectReference.java:63-69 | A full object's identification has the object's class and only attributes of the object. |
| References.GetReferencedObjectIdentification | java/connector-framework/src/main/java/org/identityconnectors/framework/common/objects/ConnectorObjectReference.java:63-69 | Always an identification of the stored object's class. It is the stored identification itself when no whole object is held. |
| References.ReferenceRoundTrip | java/connector-framework/src/main/java/org/identityconnectors/framework/common/objects/ConnectorObjectReference.java:36-69 | A reference gives back the object it was built from. getReferencedObject returns it exactly for a whole object; the identification is it exactly for an identification. |

## Left out

- Locale-dependent case folding: names are compared and hashed with ASCII case folding. The framework's locale-sensitive behaviour (the Turkish-locale test) is not modelled. Names.JavaStringHash runs over Unicode scalar values rather than Java's UTF-16 code units, so a name holding a supplementary character hashes differently from `String.hashCode`.
- `NameUtil`, `AttributeUtil.toMap` and `getUidAttribute`, `AttributeInfoUtil.toMap`, `StringUtil.isBlank`, `Filter.accept` and `AttributeDeltaUtil.applyDeltas` are not part of this model. They are parameters or the small stand-in definitions described above.
- The attribute normalizer is the identity, so `normalizeAttributes`/`normalizeAttribute` are left out.
- Logging (`logOpEntry`, `logOpExit`, `SpiOperationLoggingUtil`) has no effect on results and is left out.
- A connector's own code is not part of this model. Its answers are fixed at construction, and an exception it throws is passed through as an `Error`.
- `toString` of Add and Merge, and `ComplexAttributeDelta.toString`, are left out. Only Delete's description is modelled.
- ComplexValueDelta operations have no `equals` in Java (identity); the model compares them structurally.
- Reference identity of values ("the same reference" in Merge) is value equality here.
- `Set.copyOf` in applyToSingleObject, and `equals` of the EmbeddedObject it builds, are not separately modelled: the new attributes are the map values applyDeltas returns.
- Java `Set<Attribute>` inputs are sequences in their iteration order; the set handed to the connector is their element set. Sets are compared structurally, not by `Attribute.equals` (which ignores name case).
- A null element inside an attribute set is not representable, so `nullCheck(attr, "replaceAttributes")` in validateInput is not modelled; likewise a null element in a create set or a null attribute info. A null element inside ComplexAttributeDelta's op list (a NullPointerException at `delta.applyTo(values)`) or inside AttributeValueDelta.Merge's delta list (a NullPointerException in `List.copyOf`) is not representable either, nor is a null element in ComplexValueDelta.Merge's delta set (a NullPointerException in `Set.copyOf`, ComplexValueDelta.java:115), so ComplexValueDeltas.NewMerge never fails on its deltas.
- The caller's value list is a `ValueList` object. Aliasing between it and other lists, and the unmodifiable views the getters return, are not modelled.
- `Collections.sort` is a function on sequences (a stable insertion sort specified by its lemmas), not an in-place sort. The `ArrayList` copy it sorts is a sequence.
- A null attribute-info set passed to the ObjectClassInfo constructor is not representable (the infos are a Dafny set). Its behaviour depends on `CollectionUtil.newReadOnlySet` and `AttributeInfoUtil.toMap`, which are not part of this model.
- Before setProperties the Java table field is null; the model starts from an empty table.
- `ConfigurationPropertiesImpl.hashCode` is left out because `ConfigurationProperty.hashCode` is not part of this model. equals compares the stored properties by reference. getProperties and the property's setParent/setValue bodies are direct field reads and writes.
- The table's own getParent/setParent (its APIConfiguration container) are left out: nothing in the core reads them.
- OperationOptions is reduced to `attributesToGet` plus an opaque map of other options.
- Name.INFO's full definition is not part of this model; it is an AttributeInfo named `__NAME__`.
- ConnectorObject.getIdentification is not part of this model. It is taken as the object class plus the attributes named like Uid or Name.
- The builders' generic self type has no Dafny counterpart. BaseObjectClassInfoBuilder is a separate class owned by each concrete builder, and its fluent setters return that base builder; `GetThis` returns the concrete builder.
- Updates.MergeRules: the rules for a present base attribute are stated for update attributes whose value list is present. A null list there is the NullPointerException covered by Updates.MergeSpecMeaning.
- Creates.CreateOperation.Create: a null attribute set with a present object class gives NullArgument("attributes") from the corrected check, where the code as written throws a bare NullPointerException (see "## Findings").
- Updates.UpdateOperation.FetchAndMerge: requires every attribute to change to have a value list, which validateInput guarantees before every call in the source.
- ComplexUpdateDeltaImpl, PartialSchemaImpl, NormalizingResultsHandler, the XML decoder, the test connector and the contract tests are outside the modelled core.

## Findings

| source | as written | input that shows it | evidently intended | confidence | as-written member | corrected member |
|---|---|---|---|---|---|---|
| connector-framework-internal/src/main/java/org/identityconnectors/framework/impl/api/local/operations/CreateImpl.java:60 | `Assertions.nullCheck(objectClass, "attributes")` checks the object class a second time, so the attribute set is never null-checked | a non-null object class with a null `createAttributes`: the duplicate loop dereferences null and throws a bare NullPointerException | `nullCheck(createAttributes, "attributes")`, refusing a null set with the named-argument exception | high (not executed) | Creates.CreateChecksAsWritten, shown by Creates.AttributesNullCheckMissing | Creates.CreateChecks, proved by Creates.CreateChecksMeaning and used by Creates.CreateOperation.Create |
