/**
 * Attribute and object-class names. The framework compares names with
 * NameUtil.namesEqual and hashes them with NameUtil.nameHashCode; NameUtil is
 * not part of this model, so both are defined here by ASCII case folding
 * (locale-independent), which is what the object-class tests rely on.
 */
module Names {

  /** Name.NAME, Uid.NAME and the ObjectClass type names the core refers to. */
  const NAME: string := "__NAME__"
  const UID: string := "__UID__"
  const ALL_NAME: string := "__ALL__"
  const ACCOUNT_NAME: string := "__ACCOUNT__"

  function UpperChar(c: char): (u: char)
    ensures 'a' <= c <= 'z' ==> u as int == c as int - 32
    ensures !('a' <= c <= 'z') ==> u == c
  {
    if 'a' <= c <= 'z' then (c as int - 32) as char else c
  }

  /** The case-folded form of a name; two names are equal iff their folded forms are. */
  function Fold(s: string): (f: string)
    ensures |f| == |s|
    ensures forall i :: 0 <= i < |s| ==> f[i] == UpperChar(s[i])
  {
    if s == [] then [] else [UpperChar(s[0])] + Fold(s[1..])
  }

  predicate NamesEqual(a: string, b: string) {
    Fold(a) == Fold(b)
  }

  /** Reduces an unbounded integer to a Java int (two's complement wrap-around). */
  function WrapInt32(x: int): (r: int)
    ensures -0x8000_0000 <= r < 0x8000_0000
    ensures (r - x) % 0x1_0000_0000 == 0
  {
    (x + 0x8000_0000) % 0x1_0000_0000 - 0x8000_0000
  }

  /** java.lang.String.hashCode: h = 31 * h + c over the characters, in int arithmetic. */
  function JavaStringHash(s: string): (h: int)
    ensures -0x8000_0000 <= h < 0x8000_0000
  {
    if s == [] then 0 else WrapInt32(31 * JavaStringHash(s[..|s| - 1]) + s[|s| - 1] as int)
  }

  function NameHashCode(s: string): int {
    JavaStringHash(Fold(s))
  }

  lemma NamesEqualIsEquivalence(a: string, b: string, c: string)
    ensures NamesEqual(a, a)
    ensures NamesEqual(a, b) ==> NamesEqual(b, a)
    ensures NamesEqual(a, b) && NamesEqual(b, c) ==> NamesEqual(a, c)
  {
  }

  /** Names that are equal have equal hashes, so hashCode and equals agree wherever they are built on these two. */
  lemma NameHashCodeRespectsNamesEqual(a: string, b: string)
    requires NamesEqual(a, b)
    ensures NameHashCode(a) == NameHashCode(b)
  {
  }

  /** The pair the object-class tests use: "group" and "Group" are one name. */
  lemma GroupNamesEqual()
    ensures NamesEqual("group", "Group")
    ensures !NamesEqual("group", "admin")
  {
    assert Fold("group") == "GROUP";
    assert Fold("Group") == "GROUP";
    assert Fold("admin")[0] == 'A';
  }
}
