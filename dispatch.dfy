/**
 * The inline dispatch helpers `as<T>`, `is<T>` and `get<T>`. The C++ type
 * parameter `T` becomes a `Kind`: which of the six families of requested type
 * it falls into, in the order the dispatch tests them (`bool` before the other
 * integral types).
 */
module Dispatch {
  import opened JsonValue

  /** The kind of C++ type asked for. */
  datatype Kind =
    | BoolKind      // T is bool
    | IntegralKind  // any other integral type
    | FloatingKind  // a floating-point type
    | StringKind    // anything a std::string can be constructed from
    | ArrayKind     // Json::array
    | ObjectKind    // Json::object

  /** The value `as<T>` hands back, tagged with the kind of T it belongs to. */
  datatype Extracted =
    | BoolOut(b: bool)
    | IntOut(i: int)
    | NumberOut(n: int)
    | StringOut(s: string)
    | ArrayOut(items: seq<Json>)
    | ObjectOut(members: seq<Member>)

  function KindOf(e: Extracted): Kind
  {
    match e
    case BoolOut(_) => BoolKind
    case IntOut(_) => IntegralKind
    case NumberOut(_) => FloatingKind
    case StringOut(_) => StringKind
    case ArrayOut(_) => ArrayKind
    case ObjectOut(_) => ObjectKind
  }

  /** The `Json` constructor that accepts a value of that kind. */
  function Wrap(e: Extracted): (r: Json)
    ensures !r.Null?
  {
    match e
    case BoolOut(b) => Bool(b)
    case IntOut(i) => Number(i)
    case NumberOut(n) => Number(n)
    case StringOut(s) => Str(s)
    case ArrayOut(a) => Array(a)
    case ObjectOut(o) => Object(o)
  }

  /** What a getter returns for a kind on a mismatched value. */
  function Default(k: Kind): (r: Extracted)
    ensures KindOf(r) == k
  {
    match k
    case BoolKind => BoolOut(false)
    case IntegralKind => IntOut(0)
    case FloatingKind => NumberOut(0)
    case StringKind => StringOut("")
    case ArrayKind => ArrayOut([])
    case ObjectKind => ObjectOut([])
  }

  /**
   * `is<T>()`: a switch on `type()`. On a number it holds for every integral
   * and floating-point `T`, and `bool` is an integral type, so `is<bool>()`
   * holds on a number too.
   */
  predicate Is(j: Json, k: Kind)
  {
    match TypeOf(j)
    case ARRAY => k == ArrayKind
    case OBJECT => k == ObjectKind
    case STRING => k == StringKind
    case NUMBER => k == BoolKind || k == IntegralKind || k == FloatingKind
    case BOOL => k == BoolKind
    case NUL => false
  }

  /**
   * `is<T>()` as its other cases suggest it is meant: `bool` answers only a
   * Bool (as on the BOOL case), so a number is only an integral or a
   * floating-point value.
   */
  predicate IsIntended(j: Json, k: Kind)
  {
    match TypeOf(j)
    case ARRAY => k == ArrayKind
    case OBJECT => k == ObjectKind
    case STRING => k == StringKind
    case NUMBER => k == IntegralKind || k == FloatingKind
    case BOOL => k == BoolKind
    case NUL => false
  }

  /**
   * `as<T>()`: the getter for the requested kind. The result has the requested
   * kind. It is exactly the payload when `is<T>()` holds, except for `bool` on
   * a number, where `bool_value()` gives false; on every other value it is the
   * getter's default.
   */
  function As(j: Json, k: Kind): (r: Extracted)
    ensures KindOf(r) == k
    ensures IsIntended(j, k) ==> Wrap(r) == j
    ensures !IsIntended(j, k) ==> r == Default(k)
    ensures j.Number? && k == BoolKind ==> Is(j, k) && r == BoolOut(false)
  {
    match k
    case BoolKind => BoolOut(BoolValue(j))
    case IntegralKind => IntOut(IntValue(j))
    case FloatingKind => NumberOut(NumberValue(j))
    case StringKind => StringOut(StringValue(j))
    case ArrayKind => ArrayOut(ArrayItems(j))
    case ObjectKind => ObjectOut(ObjectItems(j))
  }

  /** `as<T>()` picks the getter that belongs to the kind of `T`. */
  lemma AsDispatchesToGetters(j: Json)
    ensures As(j, BoolKind) == BoolOut(BoolValue(j))
    ensures As(j, IntegralKind) == IntOut(IntValue(j))
    ensures As(j, FloatingKind) == NumberOut(NumberValue(j))
    ensures As(j, StringKind) == StringOut(StringValue(j))
    ensures As(j, ArrayKind) == ArrayOut(ArrayItems(j))
    ensures As(j, ObjectKind) == ObjectOut(ObjectItems(j))
  {
  }

  /**
   * `is<T>()` holds exactly when converting with `as<T>()` and back with the
   * matching constructor gives the value itself, or when `T` is `bool` and the
   * value a number. The intended `is<T>()` is exactly the lossless case.
   */
  lemma IsIffAsLossless(j: Json, k: Kind)
    ensures Is(j, k) <==> Wrap(As(j, k)) == j || (j.Number? && k == BoolKind)
    ensures IsIntended(j, k) <==> Wrap(As(j, k)) == j
    ensures IsIntended(j, k) <==> Is(j, k) && !(j.Number? && k == BoolKind)
  {
  }

  /** `is<bool>()` holds on every number, yet `as<bool>()` of it gives false. */
  lemma IsBoolOnNumberNotLossless(n: int)
    ensures Is(Number(n), BoolKind)
    ensures As(Number(n), BoolKind) == BoolOut(false)
    ensures Wrap(As(Number(n), BoolKind)) != Number(n)
  {
  }

  /** The table of `is<T>()` on the three scalar variants without a string payload. */
  lemma IsOnScalars(k: Kind, n: int, b: bool)
    ensures !Is(Null, k)
    ensures Is(Number(n), k) <==> k == BoolKind || k == IntegralKind || k == FloatingKind
    ensures Is(Bool(b), k) <==> k == BoolKind
    ensures IsIntended(Number(n), k) <==> k == IntegralKind || k == FloatingKind
  {
  }

  /** `is<T>()` agrees with the `is_*` predicate of the kind's variant; Null answers none. */
  lemma IsMatchesType(j: Json, k: Kind)
    ensures Is(j, k) ==> !j.Null?
    ensures Is(j, ArrayKind) <==> IsArray(j)
    ensures Is(j, ObjectKind) <==> IsObject(j)
    ensures Is(j, StringKind) <==> IsString(j)
    ensures Is(j, BoolKind) <==> IsBool(j) || IsNumber(j)
    ensures Is(j, IntegralKind) <==> IsNumber(j)
    ensures Is(j, FloatingKind) <==> IsNumber(j)
    ensures IsIntended(j, BoolKind) <==> IsBool(j)
  {
  }

  /** What `get<T>` indexes with: a position or a key. */
  datatype Key = Position(i: nat) | Name(name: string)

  /** `operator[]` with either kind of key. */
  function IndexBy(j: Json, key: Key): Json
  {
    match key
    case Position(i) => AtIndex(j, i)
    case Name(name) => AtKey(j, name)
  }

  /**
   * `get<T>(key)`: index, then `as<T>()`. Off a container, or on a missing
   * entry, it gives the default of the kind; on an entry of the requested
   * kind it gives that entry's payload, except that `get<bool>` of a numeric
   * entry gives false although `is<bool>()` holds on it.
   */
  function Get(j: Json, key: Key, k: Kind): (r: Extracted)
    ensures KindOf(r) == k
    ensures IndexBy(j, key) == Null ==> r == Default(k)
    ensures !j.Array? && !j.Object? ==> r == Default(k)
    ensures IsIntended(IndexBy(j, key), k) ==> Wrap(r) == IndexBy(j, key)
    ensures !IsIntended(IndexBy(j, key), k) ==> r == Default(k)
    ensures IndexBy(j, key).Number? && k == BoolKind ==> Is(IndexBy(j, key), k) && r == BoolOut(false)
  {
    As(IndexBy(j, key), k)
  }

  /** `get<T>(i)` on an array reads the i-th item. */
  lemma GetOnArray(items: seq<Json>, i: nat, k: Kind)
    requires i < |items|
    ensures Get(Array(items), Position(i), k) == As(items[i], k)
    ensures IsIntended(items[i], k) ==> Wrap(Get(Array(items), Position(i), k)) == items[i]
    ensures items[i].Number? && k == BoolKind ==> Get(Array(items), Position(i), k) == BoolOut(false)
  {
  }
}
