/**
 * The json11 value datum: a closed six-variant sum type, its type tag, the
 * `is_*` predicates, the never-failing typed getters and the two indexing
 * operators (by position and by key).
 */
module JsonValue {

  datatype Option<T> = None | Some(value: T)

  /** The type tag, in the order json11 declares its `Type` enum. */
  datatype Type = NUL | NUMBER | BOOL | STRING | ARRAY | OBJECT

  /** One `(key, value)` pair of an object's ordered member vector. */
  datatype Member = Member(key: string, value: Json)

  /**
   * A JSON value. Numbers are modelled by an integer payload (see README).
   * An object is an ordered vector of members, not a sorted map.
   */
  datatype Json =
    | Null
    | Number(num: int)
    | Bool(b: bool)
    | Str(str: string)
    | Array(items: seq<Json>)
    | Object(members: seq<Member>)

  /** `type()`: the tag of the variant a value holds. */
  function TypeOf(j: Json): Type
  {
    match j
    case Null => NUL
    case Number(_) => NUMBER
    case Bool(_) => BOOL
    case Str(_) => STRING
    case Array(_) => ARRAY
    case Object(_) => OBJECT
  }

  predicate IsNull(j: Json)   { TypeOf(j) == NUL }
  predicate IsNumber(j: Json) { TypeOf(j) == NUMBER }
  predicate IsBool(j: Json)   { TypeOf(j) == BOOL }
  predicate IsString(j: Json) { TypeOf(j) == STRING }
  predicate IsArray(j: Json)  { TypeOf(j) == ARRAY }
  predicate IsObject(j: Json) { TypeOf(j) == OBJECT }

  /** The number of `true` entries of a list of flags. */
  function CountTrue(flags: seq<bool>): (n: nat)
    ensures n <= |flags|
  {
    if |flags| == 0 then 0 else (if flags[0] then 1 else 0) + CountTrue(flags[1..])
  }

  /** The six `is_*` predicates, in the order of the `Type` enum. */
  function TypePredicates(j: Json): seq<bool>
  {
    [IsNull(j), IsNumber(j), IsBool(j), IsString(j), IsArray(j), IsObject(j)]
  }

  /** Every value satisfies exactly one `is_*` predicate, the one its variant names. */
  lemma ExactlyOneTypePredicate(j: Json)
    ensures CountTrue(TypePredicates(j)) == 1
    ensures IsNull(j) <==> j.Null?
    ensures IsNumber(j) <==> j.Number?
    ensures IsBool(j) <==> j.Bool?
    ensures IsString(j) <==> j.Str?
    ensures IsArray(j) <==> j.Array?
    ensures IsObject(j) <==> j.Object?
  {
  }

  // The typed getters. None of them fails: on a variant mismatch each one
  // returns its documented default.

  function NumberValue(j: Json): int
  {
    if j.Number? then j.num else 0
  }

  function IntValue(j: Json): int
  {
    if j.Number? then j.num else 0
  }

  function BoolValue(j: Json): bool
  {
    if j.Bool? then j.b else false
  }

  function StringValue(j: Json): string
  {
    if j.Str? then j.str else ""
  }

  function ArrayItems(j: Json): seq<Json>
  {
    if j.Array? then j.items else []
  }

  function ObjectItems(j: Json): seq<Member>
  {
    if j.Object? then j.members else []
  }

  /** What each getter returns on a value of another variant. */
  lemma GetterDefaults(j: Json)
    ensures !IsNumber(j) ==> NumberValue(j) == 0 && IntValue(j) == 0
    ensures !IsBool(j) ==> BoolValue(j) == false
    ensures !IsString(j) ==> StringValue(j) == ""
    ensures !IsArray(j) ==> ArrayItems(j) == []
    ensures !IsObject(j) ==> ObjectItems(j) == []
  {
  }

  /** A value is the one its tag and its matching getter describe. */
  function Rebuild(t: Type, n: int, b: bool, s: string, a: seq<Json>, o: seq<Member>): Json
  {
    match t
    case NUL => Null
    case NUMBER => Number(n)
    case BOOL => Bool(b)
    case STRING => Str(s)
    case ARRAY => Array(a)
    case OBJECT => Object(o)
  }

  /** `type()` and the getters together lose nothing: they determine the value. */
  lemma GettersDetermineValue(j: Json)
    ensures Rebuild(TypeOf(j), NumberValue(j), BoolValue(j), StringValue(j),
                    ArrayItems(j), ObjectItems(j)) == j
  {
  }

  /** Every getter gives back the payload its constructor was given. */
  lemma ConstructorGetterRoundTrip(n: int, b: bool, s: string, a: seq<Json>, o: seq<Member>)
    ensures NumberValue(Number(n)) == n && IntValue(Number(n)) == n
    ensures BoolValue(Bool(b)) == b
    ensures StringValue(Str(s)) == s
    ensures ArrayItems(Array(a)) == a
    ensures ObjectItems(Object(o)) == o
    ensures IsNull(Null)
  {
  }

  /**
   * The position of the first member whose key is `key`, or None. The object
   * container's `find` is a scan of its member vector.
   */
  function FindKey(ms: seq<Member>, key: string): (r: Option<nat>)
    ensures r.Some? ==> r.value < |ms| && ms[r.value].key == key
    ensures r.Some? ==> forall i :: 0 <= i < r.value ==> ms[i].key != key
    ensures r.None? <==> forall i :: 0 <= i < |ms| ==> ms[i].key != key
  {
    if |ms| == 0 then None
    else if ms[0].key == key then Some(0)
    else match FindKey(ms[1..], key)
      case None => None
      case Some(p) => Some(p + 1)
  }

  /** `arr[i]` if this is an array and `i` is in range, `Json()` otherwise. */
  function AtIndex(j: Json, i: nat): Json
  {
    if j.Array? && i < |j.items| then j.items[i] else Null
  }

  /** `obj[key]` if this is an object holding `key`, `Json()` otherwise. */
  function AtKey(j: Json, key: string): Json
  {
    if j.Object? then
      match FindKey(j.members, key)
      case Some(p) => j.members[p].value
      case None => Null
    else Null
  }

  /** Indexing by position reads `array_items()`, and falls back to Null. */
  lemma AtIndexReadsArrayItems(j: Json, i: nat)
    ensures i < |ArrayItems(j)| ==> AtIndex(j, i) == ArrayItems(j)[i]
    ensures i >= |ArrayItems(j)| ==> AtIndex(j, i) == Null
    ensures !IsArray(j) ==> AtIndex(j, i) == Null
  {
  }

  /**
   * Indexing by key reads `object_items()`: it yields the value of the first
   * member with that key, and Null when there is none or this is no object.
   */
  lemma AtKeyReadsObjectItems(j: Json, key: string)
    ensures (forall i :: 0 <= i < |ObjectItems(j)| ==> ObjectItems(j)[i].key != key)
            ==> AtKey(j, key) == Null
    ensures forall p :: 0 <= p < |ObjectItems(j)| && ObjectItems(j)[p].key == key &&
                        (forall i :: 0 <= i < p ==> ObjectItems(j)[i].key != key)
                        ==> AtKey(j, key) == ObjectItems(j)[p].value
    ensures !IsObject(j) ==> AtKey(j, key) == Null
  {
    var ms := ObjectItems(j);
    forall p | 0 <= p < |ms| && ms[p].key == key && (forall i :: 0 <= i < p ==> ms[i].key != key)
      ensures AtKey(j, key) == ms[p].value
    {
      var r := FindKey(ms, key);
      assert r.Some?;
    }
  }
}
