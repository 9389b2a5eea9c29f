/**
 * ConfigurationPropertiesImpl: the table of a connector's configuration
 * properties. setProperties sorts the properties by their order, stably, and
 * lays them out in a LinkedHashMap keyed by name: `keys` is that map's key
 * order and `table` its entries. The properties are objects, compared by
 * reference.
 */
module ConfigurationProperties {
  import opened Wrappers
  import opened Objects

  /** The part of ConfigurationProperty the table uses. */
  class ConfigurationProperty {
    const name: string
    const order: int
    var value: Value
    var parent: ConfigurationPropertiesImpl?

    constructor (name: string, order: int, value: Value)
      ensures this.name == name && this.order == order && this.value == value && parent == null
    {
      this.name := name;
      this.order := order;
      this.value := value;
      parent := null;
    }
  }

  // ----- The sort -----

  predicate SortedByOrder(s: seq<ConfigurationProperty>) {
    forall i, j :: 0 <= i < j < |s| ==> s[i].order <= s[j].order
  }

  /** The properties whose order is k, in sequence order. */
  function WithOrder(s: seq<ConfigurationProperty>, k: int): seq<ConfigurationProperty> {
    if s == [] then []
    else WithOrder(s[..|s| - 1], k) + (if s[|s| - 1].order == k then [s[|s| - 1]] else [])
  }

  /** Inserts p after every property whose order is at most p's. */
  function Insert(p: ConfigurationProperty, t: seq<ConfigurationProperty>): seq<ConfigurationProperty> {
    if t == [] then [p]
    else if t[|t| - 1].order <= p.order then t + [p]
    else Insert(p, t[..|t| - 1]) + [t[|t| - 1]]
  }

  /** Collections.sort with PropertyComparator: ascending order, stable; defined as an insertion sort. */
  function SortByOrder(s: seq<ConfigurationProperty>): seq<ConfigurationProperty> {
    if s == [] then [] else Insert(s[|s| - 1], SortByOrder(s[..|s| - 1]))
  }

  lemma WithOrderSnoc(s: seq<ConfigurationProperty>, x: ConfigurationProperty, k: int)
    ensures WithOrder(s + [x], k) == WithOrder(s, k) + (if x.order == k then [x] else [])
  {
    assert (s + [x])[..|s|] == s;
  }

  lemma {:induction false} InsertMultiset(p: ConfigurationProperty, t: seq<ConfigurationProperty>)
    ensures multiset(Insert(p, t)) == multiset(t) + multiset{p}
  {
    if t != [] && t[|t| - 1].order > p.order {
      var init := t[..|t| - 1];
      InsertMultiset(p, init);
      assert t == init + [t[|t| - 1]];
    }
  }

  /** Insertion brings in no order above a bound that p and every element of t respect. */
  lemma {:induction false} InsertBounded(p: ConfigurationProperty, t: seq<ConfigurationProperty>, b: int)
    requires p.order <= b && forall i :: 0 <= i < |t| ==> t[i].order <= b
    ensures forall i :: 0 <= i < |Insert(p, t)| ==> Insert(p, t)[i].order <= b
  {
    if t != [] && t[|t| - 1].order > p.order {
      InsertBounded(p, t[..|t| - 1], b);
    }
  }

  lemma {:induction false} InsertSorted(p: ConfigurationProperty, t: seq<ConfigurationProperty>)
    requires SortedByOrder(t)
    ensures SortedByOrder(Insert(p, t))
  {
    if t != [] && t[|t| - 1].order > p.order {
      var init := t[..|t| - 1];
      var last := t[|t| - 1];
      InsertSorted(p, init);
      InsertBounded(p, init, last.order);
      var u := Insert(p, init);
      var v := u + [last];
      forall i, j | 0 <= i < j < |v| ensures v[i].order <= v[j].order {
        if j < |u| {
          assert v[i] == u[i] && v[j] == u[j];
        }
      }
    }
  }

  lemma {:induction false} InsertWithOrder(p: ConfigurationProperty, t: seq<ConfigurationProperty>, k: int)
    requires SortedByOrder(t)
    ensures WithOrder(Insert(p, t), k) == WithOrder(t, k) + (if p.order == k then [p] else [])
  {
    if t == [] {
      WithOrderSnoc([], p, k);
    } else {
      var init := t[..|t| - 1];
      var last := t[|t| - 1];
      assert t == init + [last];
      if last.order <= p.order {
        WithOrderSnoc(t, p, k);
      } else {
        InsertWithOrder(p, init, k);
        WithOrderSnoc(Insert(p, init), last, k);
        WithOrderSnoc(init, last, k);
      }
    }
  }

  /** The sort yields an ascending permutation of its input in which properties of equal order keep their input order. */
  lemma {:induction false} SortByOrderProperties(s: seq<ConfigurationProperty>)
    ensures multiset(SortByOrder(s)) == multiset(s)
    ensures SortedByOrder(SortByOrder(s))
    ensures forall k :: WithOrder(SortByOrder(s), k) == WithOrder(s, k)
  {
    if s != [] {
      var init := s[..|s| - 1];
      var last := s[|s| - 1];
      SortByOrderProperties(init);
      InsertMultiset(last, SortByOrder(init));
      InsertSorted(last, SortByOrder(init));
      assert s == init + [last];
      forall k ensures WithOrder(SortByOrder(s), k) == WithOrder(s, k) {
        InsertWithOrder(last, SortByOrder(init), k);
        WithOrderSnoc(init, last, k);
      }
    }
  }

  // ----- The LinkedHashMap -----

  function Names(s: seq<ConfigurationProperty>): set<string> {
    set p | p in s :: p.name
  }

  /** The position of the first property named k. */
  function FirstIndex(s: seq<ConfigurationProperty>, k: string): (r: nat)
    requires k in Names(s)
    ensures r < |s| && s[r].name == k
    ensures forall j :: 0 <= j < r ==> s[j].name != k
  {
    var init := s[..|s| - 1];
    assert forall p :: p in init ==> p in s;
    if k in Names(init) then FirstIndex(init, k)
    else
      assert forall j :: 0 <= j < |s| - 1 ==> s[j] in init;
      |s| - 1
  }

  /** A LinkedHashMap after put(p.getName(), p) for each p in turn: the key order and the entries. */
  function PutAll(s: seq<ConfigurationProperty>): (seq<string>, map<string, ConfigurationProperty>) {
    if s == [] then ([], map[])
    else
      var (ks, m) := PutAll(s[..|s| - 1]);
      var p := s[|s| - 1];
      (if p.name in m then ks else ks + [p.name], m[p.name := p])
  }

  lemma NamesSnoc(s: seq<ConfigurationProperty>, p: ConfigurationProperty)
    ensures Names(s + [p]) == Names(s) + {p.name}
  {
    assert forall q :: q in s + [p] <==> q in s || q == p;
  }

  /** The keys are the names of the input, each listed once. */
  lemma {:induction false} PutAllDomain(s: seq<ConfigurationProperty>)
    ensures var (ks, m) := PutAll(s);
      && (forall k :: k in m <==> k in ks)
      && (forall k :: k in m <==> k in Names(s))
      && (forall i, j :: 0 <= i < j < |ks| ==> ks[i] != ks[j])
  {
    if s != [] {
      var init := s[..|s| - 1];
      var p := s[|s| - 1];
      PutAllDomain(init);
      assert s == init + [p];
      NamesSnoc(init, p);
    }
  }

  /** Appending a property leaves the first position of every earlier name alone, and a new name first occurs at the end. */
  lemma FirstIndexSnoc(s: seq<ConfigurationProperty>, p: ConfigurationProperty, k: string)
    requires k in Names(s + [p])
    ensures k in Names(s) ==> FirstIndex(s + [p], k) == FirstIndex(s, k)
    ensures k !in Names(s) ==> FirstIndex(s + [p], k) == |s|
  {
    assert (s + [p])[..|s + [p]| - 1] == s;
  }

  /** Keys listed in first-occurrence order. */
  predicate InFirstOccurrenceOrder(s: seq<ConfigurationProperty>, ks: seq<string>)
    requires forall k :: k in ks ==> k in Names(s)
  {
    forall i, j :: 0 <= i < j < |ks| ==> FirstIndex(s, ks[i]) < FirstIndex(s, ks[j])
  }

  /** One put keeps the key order in first-occurrence order. */
  lemma PutAllKeyOrderStep(init: seq<ConfigurationProperty>, p: ConfigurationProperty)
    requires forall k :: k in PutAll(init).0 ==> k in Names(init)
    requires InFirstOccurrenceOrder(init, PutAll(init).0)
    ensures forall k :: k in PutAll(init + [p]).0 ==> k in Names(init + [p])
    ensures InFirstOccurrenceOrder(init + [p], PutAll(init + [p]).0)
  {
    var s := init + [p];
    assert s[..|s| - 1] == init;
    PutAllDomain(init);
    NamesSnoc(init, p);
    var ks := PutAll(init).0;
    var ks' := PutAll(s).0;
    assert ks' == if p.name in PutAll(init).1 then ks else ks + [p.name];
    forall i, j | 0 <= i < j < |ks'| ensures FirstIndex(s, ks'[i]) < FirstIndex(s, ks'[j]) {
      FirstIndexSnoc(init, p, ks'[i]);
      FirstIndexSnoc(init, p, ks'[j]);
      if j < |ks| {
        assert ks'[i] == ks[i] && ks'[j] == ks[j];
      } else {
        assert ks'[i] == ks[i] && ks'[j] == p.name;
      }
    }
  }

  /** The keys are in the order of the names' first occurrence in the input. */
  lemma {:induction false} PutAllKeyOrder(s: seq<ConfigurationProperty>)
    ensures forall k :: k in PutAll(s).0 ==> k in Names(s)
    ensures forall i, j :: 0 <= i < j < |PutAll(s).0| ==> FirstIndex(s, PutAll(s).0[i]) < FirstIndex(s, PutAll(s).0[j])
  {
    if s != [] {
      var init := s[..|s| - 1];
      PutAllKeyOrder(init);
      assert s == init + [s[|s| - 1]];
      PutAllKeyOrderStep(init, s[|s| - 1]);
    }
  }

  /** The position of the last property named k. */
  function LastIndex(s: seq<ConfigurationProperty>, k: string): (r: nat)
    requires k in Names(s)
    ensures r < |s| && s[r].name == k
    ensures forall j :: r < j < |s| ==> s[j].name != k
  {
    var init := s[..|s| - 1];
    if s[|s| - 1].name == k then |s| - 1
    else
      assert s == init + [s[|s| - 1]];
      NamesSnoc(init, s[|s| - 1]);
      LastIndex(init, k)
  }

  /** Each key maps to the last input property of that name: the last put wins. */
  lemma {:induction false} PutAllEntry(s: seq<ConfigurationProperty>, k: string)
    requires k in PutAll(s).1
    ensures k in Names(s)
    ensures PutAll(s).1[k] == s[LastIndex(s, k)]
  {
    PutAllDomain(s);
    var init := s[..|s| - 1];
    var p := s[|s| - 1];
    if k != p.name {
      assert k in PutAll(init).1;
      PutAllEntry(init, k);
    }
  }

  /** No two different properties share a name. */
  predicate UniqueNames(s: seq<ConfigurationProperty>) {
    forall p, q :: p in s && q in s && p.name == q.name ==> p == q
  }

  /** With unique names every property is stored, so the table's values are exactly the input's properties. */
  lemma PutAllValuesUnique(s: seq<ConfigurationProperty>)
    requires UniqueNames(s)
    ensures PutAll(s).1.Values == set p | p in s
  {
    PutAllDomain(s);
    var m := PutAll(s).1;
    forall p | p in s ensures p in m.Values {
      assert p.name in Names(s);
      PutAllEntry(s, p.name);
      assert m[p.name] in s;
    }
    forall q | q in m.Values ensures q in s {
      var k :| k in m && m[k] == q;
      PutAllEntry(s, k);
    }
  }

  /** The table setProperties builds from uniquely named properties stores exactly those properties. */
  lemma SetPropertiesStoresInputs(s: seq<ConfigurationProperty>)
    requires UniqueNames(s)
    ensures PutAll(SortByOrder(s)).1.Values == set p | p in s
  {
    var t := SortByOrder(s);
    SortByOrderMembers(s);
    assert UniqueNames(t);
    PutAllValuesUnique(t);
  }

  /**
   * The table setProperties builds from any ordering of the same uniquely
   * named properties holds the same properties, so such tables are equal.
   */
  lemma SetPropertiesIgnoresInputOrder(s1: seq<ConfigurationProperty>, s2: seq<ConfigurationProperty>)
    requires multiset(s1) == multiset(s2) && UniqueNames(s1)
    ensures PutAll(SortByOrder(s1)).1.Values == PutAll(SortByOrder(s2)).1.Values
  {
    forall p ensures p in s1 <==> p in s2 {
      assert p in s1 <==> p in multiset(s1);
      assert p in s2 <==> p in multiset(s2);
    }
    assert UniqueNames(s2);
    SetPropertiesStoresInputs(s1);
    SetPropertiesStoresInputs(s2);
  }

  /** Two properties of one name: the one later in sorted order wins, at the position the name first took. */
  lemma LaterDuplicateWins(a: ConfigurationProperty, b: ConfigurationProperty, c: ConfigurationProperty)
    requires a.name == c.name && a.name != b.name && a != c
    requires a.order <= b.order <= c.order
    ensures PutAll(SortByOrder([a, b, c])) == ([a.name, b.name], map[a.name := c, b.name := b])
  {
    assert [a, b, c][..2] == [a, b];
    assert [a, b][..1] == [a];
    assert [a][..0] == [];
    assert SortByOrder([a]) == [a];
    assert Insert(b, [a]) == [a, b];
    assert SortByOrder([a, b]) == [a, b];
    assert Insert(c, [a, b]) == [a, b] + [c];
    assert SortByOrder([a, b, c]) == [a, b, c];
    var m1 := map[a.name := a];
    var m0: map<string, ConfigurationProperty> := map[];
    assert PutAll([]) == ([], m0);
    assert m0[a.name := a] == m1;
    assert [] + [a.name] == [a.name];
    assert PutAll([a]) == ([a.name], m1);
    assert b.name !in m1;
    assert [a.name] + [b.name] == [a.name, b.name];
    assert PutAll([a, b]) == ([a.name, b.name], m1[b.name := b]);
    assert PutAll([a, b, c]) == ([a.name, b.name], m1[b.name := b][a.name := c]);
    assert m1[b.name := b][a.name := c] == map[a.name := c, b.name := b];
  }

  /** The sort neither adds nor drops a property. */
  lemma SortByOrderMembers(s: seq<ConfigurationProperty>)
    ensures forall p :: p in SortByOrder(s) <==> p in s
  {
    SortByOrderProperties(s);
    assert forall p :: p in SortByOrder(s) <==> p in multiset(s);
  }

  /** A LinkedHashMap built by puts satisfies the table invariant: keys agree with entries, each once, each under its own name. */
  lemma PutAllWellFormed(s: seq<ConfigurationProperty>)
    ensures var (ks, m) := PutAll(s);
      && (forall k :: k in m <==> k in ks)
      && (forall i, j :: 0 <= i < j < |ks| ==> ks[i] != ks[j])
      && (forall k :: k in m ==> m[k].name == k)
  {
    PutAllDomain(s);
    forall k | k in PutAll(s).1 ensures PutAll(s).1[k].name == k {
      PutAllEntry(s, k);
    }
  }

  class ConfigurationPropertiesImpl {
    var keys: seq<string>
    var table: map<string, ConfigurationProperty>

    /** The key order lists each key of the table once, and each property is stored under its own name. */
    ghost predicate Valid()
      reads this
    {
      && (forall k :: k in table <==> k in keys)
      && (forall i, j :: 0 <= i < j < |keys| ==> keys[i] != keys[j])
      && (forall k :: k in table ==> table[k].name == k)
    }

    constructor ()
      ensures keys == [] && table == map[] && Valid()
    {
      keys := [];
      table := map[];
    }

    /**
     * setProperties: sorts a copy of the properties by order, puts each in
     * turn into a new LinkedHashMap under its name, points each one's parent
     * at this table, and replaces the table.
     */
    method SetProperties(properties: seq<ConfigurationProperty>)
      modifies this, set p | p in properties
      ensures (keys, table) == PutAll(SortByOrder(properties))
      ensures forall p :: p in properties ==> p.parent == this && p.value == old(p.value)
      ensures Valid()
    {
      var sorted := SortByOrder(properties);
      SortByOrderMembers(properties);
      var tempKeys: seq<string> := [];
      var temp: map<string, ConfigurationProperty> := map[];
      var i := 0;
      while i < |sorted|
        invariant 0 <= i <= |sorted|
        invariant (tempKeys, temp) == PutAll(sorted[..i])
        invariant forall j :: 0 <= j < i ==> sorted[j].parent == this
        invariant forall p :: p in properties ==> p.value == old(p.value)
      {
        var property := sorted[i];
        assert sorted[..i + 1][..i] == sorted[..i];
        if property.name !in temp {
          tempKeys := tempKeys + [property.name];
        }
        temp := temp[property.name := property];
        property.parent := this;
        i := i + 1;
      }
      assert sorted[..i] == sorted;
      PutAllWellFormed(sorted);
      keys := tempKeys;
      table := temp;
    }

    /** getProperty: the property stored under the name, or null. */
    function GetProperty(name: string): (r: Option<ConfigurationProperty>)
      requires Valid()
      reads this
      ensures r.Some? <==> name in keys
      ensures r.Some? ==> r.value.name == name && r.value in table.Values
    {
      if name in table then Some(table[name]) else None
    }

    /** getPropertyNames: the keys in table order, each once. */
    function GetPropertyNames(): (names: seq<string>)
      requires Valid()
      reads this
      ensures forall k :: k in names <==> GetProperty(k).Some?
      ensures forall i, j :: 0 <= i < j < |names| ==> names[i] != names[j]
    {
      keys
    }

    /** setPropertyValue: an unknown name is refused and nothing changes; otherwise only that property's value changes. */
    method SetPropertyValue(name: string, value: Value) returns (r: Outcome<Error>)
      requires Valid()
      modifies table.Values
      ensures name !in old(table) ==>
        r == Fail(IllegalArgument("Property '" + name + "' does not exist."))
      ensures name in old(table) ==> r == Pass && table[name].value == value
      ensures forall p :: p in table.Values && (name !in table || p != table[name]) ==> p.value == old(p.value)
      ensures forall p :: p in table.Values ==> p.parent == old(p.parent)
      ensures Valid()
    {
      if name !in table {
        return Fail(IllegalArgument("Property '" + name + "' does not exist."));
      }
      var property := table[name];
      property.value := value;
      return Pass;
    }

    /** equals: the same set of stored properties, whatever the key order. */
    predicate Equals(other: ConfigurationPropertiesImpl?)
      reads this, other
    {
      other != null && table.Values == other.table.Values
    }
  }
}
