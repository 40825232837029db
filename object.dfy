/**
 * `Json::object`: an ordered vector of `(key, value)` members that the object
 * itself owns and changes in place, with map-like lookup on top of it, and the
 * conversion constructors that build a `Json` from a map-like or a
 * vector-like container.
 */
module ObjectContainer {
  import opened JsonValue

  /** The number of members whose key is `key`. */
  function CountKey(ms: seq<Member>, key: string): (n: nat)
    ensures n <= |ms|
    ensures n == 0 <==> FindKey(ms, key).None?
  {
    if |ms| == 0 then 0
    else (if ms[0].key == key then 1 else 0) + CountKey(ms[1..], key)
  }

  /** No key occurs twice. */
  predicate UniqueKeys(ms: seq<Member>)
  {
    forall i, k :: 0 <= i < k < |ms| ==> ms[i].key != ms[k].key
  }

  /** The keys of a member vector, in order. */
  function Keys(ms: seq<Member>): (ks: seq<string>)
    ensures |ks| == |ms|
    ensures forall i :: 0 <= i < |ms| ==> ks[i] == ms[i].key
  {
    if |ms| == 0 then [] else [ms[0].key] + Keys(ms[1..])
  }

  /** When keys are unique, `count` is 0 or 1. */
  lemma {:induction false} UniqueKeysCountAtMostOne(ms: seq<Member>, key: string)
    requires UniqueKeys(ms)
    ensures CountKey(ms, key) <= 1
  {
    if |ms| > 0 {
      assert UniqueKeys(ms[1..]) by {
        forall i, k | 0 <= i < k < |ms[1..]| ensures ms[1..][i].key != ms[1..][k].key {
          assert ms[1..][i] == ms[i + 1] && ms[1..][k] == ms[k + 1];
        }
      }
      UniqueKeysCountAtMostOne(ms[1..], key);
      if ms[0].key == key {
        assert forall i :: 0 <= i < |ms[1..]| ==> ms[1..][i].key != key by {
          forall i | 0 <= i < |ms[1..]| ensures ms[1..][i].key != key {
            assert ms[1..][i] == ms[i + 1];
          }
        }
      }
    }
  }

  /** Appending a member under a key not yet present keeps keys unique. */
  lemma AppendNewKeyKeepsUnique(ms: seq<Member>, m: Member)
    requires UniqueKeys(ms)
    requires FindKey(ms, m.key).None?
    ensures UniqueKeys(ms + [m])
  {
  }

  class JsonObject {
    /** `m_data`: the members in insertion order. */
    var data: seq<Member>

    /** `object()`: an empty object. */
    constructor ()
      ensures data == []
    {
      data := [];
    }

    /** `object(first, last)`: exactly the range's members, in the range's order. */
    constructor FromRange(range: seq<Member>)
      ensures data == range
    {
      data := range;
    }

    /** `object(const object&)`: a copy; later changes to either are not shared. */
    constructor Copy(other: JsonObject)
      ensures data == other.data
    {
      data := other.data;
    }

    function Size(): nat
      reads this
    {
      |data|
    }

    /** `empty()` holds exactly when `size()` is 0. */
    predicate Empty()
      reads this
      ensures Empty() <==> Size() == 0
    {
      |data| == 0
    }

    /** `find(key)`: the position of the first member with that key, or None for `end()`. */
    method Find(key: string) returns (r: Option<nat>)
      ensures r.Some? ==> r.value < |data| && data[r.value].key == key
      ensures r.Some? ==> forall i :: 0 <= i < r.value ==> data[i].key != key
      ensures r.None? <==> forall i :: 0 <= i < |data| ==> data[i].key != key
      ensures r == FindKey(data, key)
    {
      var i := 0;
      while i < |data|
        invariant 0 <= i <= |data|
        invariant forall k :: 0 <= k < i ==> data[k].key != key
      {
        if data[i].key == key {
          assert FindKey(data, key).Some?;
          return Some(i);
        }
        i := i + 1;
      }
      return None;
    }

    /** `count(key)`: how many members carry that key. */
    method Count(key: string) returns (c: nat)
      ensures c == CountKey(data, key)
      ensures c == 0 <==> forall i :: 0 <= i < |data| ==> data[i].key != key
    {
      c := 0;
      var i := 0;
      while i < |data|
        invariant 0 <= i <= |data|
        invariant c + CountKey(data[i..], key) == CountKey(data, key)
      {
        CountKeyStep(data, i, key);
        if data[i].key == key {
          c := c + 1;
        }
        i := i + 1;
      }
      assert data[i..] == [];
    }

    /**
     * `insert(value)`: a member whose key is absent is appended and the result
     * says so; when the key is present nothing changes and the result gives
     * the position of the member already there.
     */
    method Insert(m: Member) returns (pos: nat, inserted: bool)
      modifies this
      ensures inserted <==> old(FindKey(data, m.key)).None?
      ensures inserted ==> data == old(data) + [m] && pos == old(|data|)
      ensures !inserted ==> data == old(data) && pos == old(FindKey(data, m.key)).value
      ensures pos < |data| && data[pos].key == m.key
      ensures UniqueKeys(old(data)) ==> UniqueKeys(data)
    {
      var found := Find(m.key);
      match found {
        case Some(p) =>
          pos, inserted := p, false;
        case None =>
          if UniqueKeys(data) {
            AppendNewKeyKeepsUnique(data, m);
          }
          pos, inserted := |data|, true;
          data := data + [m];
      }
    }

    /**
     * `operator[](key)`: the position of the member with that key, appending
     * `(key, Json())` first when there is none.
     */
    method Index(key: string) returns (pos: nat)
      modifies this
      ensures old(FindKey(data, key)).Some? ==> data == old(data) && pos == old(FindKey(data, key)).value
      ensures old(FindKey(data, key)).None? ==> data == old(data) + [Member(key, Null)] && pos == old(|data|)
      ensures FindKey(data, key) == Some(pos)
      ensures UniqueKeys(old(data)) ==> UniqueKeys(data)
    {
      ghost var before := data;
      var inserted;
      pos, inserted := Insert(Member(key, Null));
      if inserted {
        FindKeyAfterAppend(before, Member(key, Null));
      }
    }

    /**
     * `obj[key] = v`, writing through the reference `operator[]` returns: an
     * existing member keeps its position and takes the new value; a new key is
     * appended.
     */
    method Assign(key: string, v: Json)
      modifies this
      ensures old(FindKey(data, key)).Some? ==>
                data == old(data)[old(FindKey(data, key)).value := Member(key, v)]
      ensures old(FindKey(data, key)).None? ==> data == old(data) + [Member(key, v)]
      ensures FindKey(data, key).Some? && data[FindKey(data, key).value].value == v
      ensures AtKey(Object(data), key) == v
      ensures UniqueKeys(old(data)) ==> UniqueKeys(data)
    {
      ghost var before := data;
      var pos := Index(key);
      ghost var mid := data;
      data := data[pos := Member(key, v)];
      FindKeyAfterUpdate(mid, key, pos, v);
      if FindKey(before, key).None? {
        UpdateAppended(before, key, v);
      }
    }
  }

  /** Appending a member under a new key makes that member the one `find` reports. */
  lemma FindKeyAfterAppend(ms: seq<Member>, m: Member)
    requires FindKey(ms, m.key).None?
    ensures FindKey(ms + [m], m.key) == Some(|ms|)
  {
    var r := FindKey(ms + [m], m.key);
    assert (ms + [m])[|ms|].key == m.key;
    assert r.Some?;
  }

  /**
   * Giving the first member with `key` a new value keeps it the first one,
   * keeps every key where it was, and so keeps keys unique.
   */
  lemma FindKeyAfterUpdate(ms: seq<Member>, key: string, pos: nat, v: Json)
    requires FindKey(ms, key) == Some(pos)
    ensures FindKey(ms[pos := Member(key, v)], key) == Some(pos)
    ensures Keys(ms[pos := Member(key, v)]) == Keys(ms)
    ensures UniqueKeys(ms) ==> UniqueKeys(ms[pos := Member(key, v)])
    ensures AtKey(Object(ms[pos := Member(key, v)]), key) == v
  {
    var ns := ms[pos := Member(key, v)];
    assert forall i :: 0 <= i < |ns| ==> ns[i].key == ms[i].key;
    SameKeysSameLookup(ms, ns, key);
  }

  /** Two member vectors with the same key at every position have the same keys and lookups. */
  lemma SameKeysSameLookup(ms: seq<Member>, ns: seq<Member>, key: string)
    requires |ms| == |ns|
    requires forall i :: 0 <= i < |ms| ==> ms[i].key == ns[i].key
    ensures FindKey(ms, key) == FindKey(ns, key)
    ensures Keys(ms) == Keys(ns)
  {
    var r, q := FindKey(ms, key), FindKey(ns, key);
    if r.Some? && q.Some? {
      assert !(r.value < q.value) && !(q.value < r.value);
    }
  }

  /** `CountKey` over a suffix takes the suffix's first member, then the rest. */
  lemma CountKeyStep(ms: seq<Member>, i: nat, key: string)
    requires i < |ms|
    ensures CountKey(ms[i..], key) == (if ms[i].key == key then 1 else 0) + CountKey(ms[i + 1..], key)
  {
    assert ms[i..][1..] == ms[i + 1..];
  }

  // Conversions into a `Json` value.

  /** `Json(const object&)`: an Object value holding the container's members in order. */
  function ToJson(o: JsonObject): (j: Json)
    reads o
    ensures IsObject(j) && ObjectItems(j) == o.data
  {
    Object(o.data)
  }

  /**
   * The map-like conversion constructor: the Object value of an object built
   * from the map's iteration range, so the members follow the map's own
   * iteration order and indexing by a key finds the first pair that carries it.
   */
  function FromMapLike(pairs: seq<Member>): (j: Json)
    ensures IsObject(j) && ObjectItems(j) == pairs
    ensures forall i :: 0 <= i < |pairs| && FindKey(pairs, pairs[i].key) == Some(i) ==>
              AtKey(j, pairs[i].key) == pairs[i].value
  {
    Object(pairs)
  }

  /** The vector-like conversion constructor: an Array of the elements in iteration order. */
  function FromVectorLike(elements: seq<Json>): (j: Json)
    ensures IsArray(j) && ArrayItems(j) == elements
    ensures forall i :: 0 <= i < |elements| ==> AtIndex(j, i) == elements[i]
  {
    Array(elements)
  }

  /** Keys inserted as "b", "a", "c" stay in that order; assigning an existing key moves nothing. */
  method InsertionOrderKept() returns (keys: seq<string>, j: Json)
    ensures keys == ["b", "a", "c"] && Keys(ObjectItems(j)) == keys
    ensures AtKey(j, "a") == Number(4) && AtKey(j, "b") == Number(1)
  {
    ExampleLookups();
    var o := new JsonObject();
    var _, _ := o.Insert(Member("b", Number(1)));
    assert o.data == [Member("b", Number(1))];
    var _, _ := o.Insert(Member("a", Number(2)));
    assert o.data == [Member("b", Number(1)), Member("a", Number(2))];
    var _, _ := o.Insert(Member("c", Number(3)));
    assert o.data == [Member("b", Number(1)), Member("a", Number(2)), Member("c", Number(3))];
    var _, _ := o.Insert(Member("b", Number(5)));
    assert o.data == [Member("b", Number(1)), Member("a", Number(2)), Member("c", Number(3))];
    o.Assign("a", Number(4));
    assert o.data == [Member("b", Number(1)), Member("a", Number(4)), Member("c", Number(3))];
    keys := Keys(o.data);
    j := ToJson(o);
  }

  /** The lookups the insertion-order example relies on. */
  lemma ExampleLookups()
    ensures FindKey([Member("b", Number(1))], "a") == None
    ensures FindKey([Member("b", Number(1)), Member("a", Number(2))], "c") == None
    ensures FindKey([Member("b", Number(1)), Member("a", Number(2)), Member("c", Number(3))], "b") == Some(0)
    ensures FindKey([Member("b", Number(1)), Member("a", Number(2)), Member("c", Number(3))], "a") == Some(1)
    ensures FindKey([Member("b", Number(1)), Member("a", Number(4)), Member("c", Number(3))], "b") == Some(0)
    ensures FindKey([Member("b", Number(1)), Member("a", Number(4)), Member("c", Number(3))], "a") == Some(1)
  {
  }

  /** Giving the member just appended a value is appending a member with that value. */
  lemma UpdateAppended(ms: seq<Member>, key: string, v: Json)
    ensures (ms + [Member(key, Null)])[|ms| := Member(key, v)] == ms + [Member(key, v)]
  {
  }
}
