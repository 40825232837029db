# json11 value model in Dafny

This project models the public header of json11, a small JSON library for C++11
(`include/json11.hpp`). The header holds the JSON value datum `Json` and its
type tag `Type`. It holds the container `Json::object` and the accessors that
never fail. It also holds the dispatch helpers `as<T>`, `is<T>` and `get<T>`,
the comparison operators derived from `==` and `<`, and `dump()`, defined
inline on top of `dump(out)`. Finally it declares `dump(out)`, `parse` and
`has_shape`, whose bodies are not in the header; the model follows their doc
comments.

Modules, one per part of the header:

- `JsonValue` (`json_value.dfy`): the six-variant `Json` datatype.
  It also holds `type()`, the `is_*` predicates, the defaulting getters and
  indexing by position and by key.
- `Dispatch` (`dispatch.dfy`): `as<T>`, `is<T>` and `get<T>`. The C++ type
  parameter becomes a `Kind`: bool, integral, floating, string, array or object.
- `Compare` (`compare.dfy`): a concrete `<`, structural `==`, and the four
  operators the header derives from them.
- `ObjectContainer` (`object.dfy`): `Json::object` as a class. Its field
  `data` is the member vector `m_data`, which `insert` and `operator[]` change.
  The module also holds the conversion constructors.
- `Shape` (`shape.dfy`): `has_shape`.
- `TextIO` (`text_io.dfy`): `dump(out)`, `dump()` and `parse`. The
  serializer and the parser engine are function parameters.

Choices the header leaves open, and how the model settles them:

- The header's opening comment says an object is a `std::map`, but
  `Json::object` stores an ordered `std::vector` of pairs. The model keeps the
  vector and its insertion order.
- The body of `operator<` is not in the header. The model's `<` ranks variants
  in the declared order of the `Type` enum (`NUL, NUMBER, BOOL, STRING, ARRAY,
  OBJECT`), so Number comes before Bool.
- The body of `operator==` is not in the header. The model's `==` is
  structural equality, and on objects it compares the member vector, so it
  depends on member order, just as vector equality does. That `<=` is `<` or
  `==`, and that exactly one of `<`, `==`, `>` holds, rest on this choice: an
  `==` that ignored member order would make two objects with the same members
  in different orders equal while `<` still holds between them.
- The body of `has_shape` is not in the header; its doc comment asks only for
  true on a match and false with an error message otherwise. The model's body
  makes three choices of its own:
  (a) a named field must be present, even when NUL is the expected type,
  although `(*this)[name].type()` of a missing field is NUL;
  (b) the pairs are checked in list order, and the message names the first
  one that fails;
  (c) `err` is left as it was on success.
- The body of `parse` is not in the header; its doc comment says only that a
  failed parse returns `Json()` and assigns an error message to `err`. The
  model takes that message to be non-empty (the engine's `ErrorMessage`), and
  leaves `err` as it was on success; that second choice is the model's own.

## Model

| member | source | states |
|---|---|---|
| `JsonValue.ExactlyOneTypePredicate` | include/json11.hpp:172-179 | exactly one of `is_null`, `is_number`, `is_bool`, `is_string`, `is_array`, `is_object` holds, and it is the one matching the value's variant |
| `JsonValue.TypeOf` | include/json11.hpp:172 | `type()`: the tag of the variant; its meaning is stated by `JsonValue.ExactlyOneTypePredicate` and `JsonValue.GettersDetermineValue` |
| `JsonValue.IsNull` | include/json11.hpp:174 | `is_null()` is `type() == NUL`; `JsonValue.ExactlyOneTypePredicate` states it holds exactly on Null |
| `JsonValue.IsNumber` | include/json11.hpp:175 | `is_number()` is `type() == NUMBER`; `JsonValue.ExactlyOneTypePredicate` states it holds exactly on a number |
| `JsonValue.IsBool` | include/json11.hpp:176 | `is_bool()` is `type() == BOOL`; `JsonValue.ExactlyOneTypePredicate` states it holds exactly on a Bool |
| `JsonValue.IsString` | include/json11.hpp:177 | `is_string()` is `type() == STRING`; `JsonValue.ExactlyOneTypePredicate` states it holds exactly on a string |
| `JsonValue.IsArray` | include/json11.hpp:178 | `is_array()` is `type() == ARRAY`; `JsonValue.ExactlyOneTypePredicate` states it holds exactly on an array |
| `JsonValue.IsObject` | include/json11.hpp:179 | `is_object()` is `type() == OBJECT`; `JsonValue.ExactlyOneTypePredicate` states it holds exactly on an object |
| `JsonValue.GetterDefaults` | include/json11.hpp:181-196 | on a variant mismatch `number_value`/`int_value` give 0, `bool_value` false, `string_value` "", `array_items`/`object_items` empty |
| `JsonValue.NumberValue` | include/json11.hpp:181-184 | `number_value()`: the payload of a number, 0 otherwise, as `JsonValue.GetterDefaults` and `JsonValue.ConstructorGetterRoundTrip` state |
| `JsonValue.IntValue` | include/json11.hpp:181-185 | `int_value()`: the payload of a number, 0 otherwise, as `JsonValue.GetterDefaults` and `JsonValue.ConstructorGetterRoundTrip` state |
| `JsonValue.BoolValue` | include/json11.hpp:187-188 | `bool_value()`: the payload of a Bool, false otherwise, as `JsonValue.GetterDefaults` and `JsonValue.ConstructorGetterRoundTrip` state |
| `JsonValue.StringValue` | include/json11.hpp:189-190 | `string_value()`: the payload of a string, "" otherwise, as `JsonValue.GetterDefaults` and `JsonValue.ConstructorGetterRoundTrip` state |
| `JsonValue.ArrayItems` | include/json11.hpp:191-193 | `array_items()`: the items of an array, empty otherwise, as `JsonValue.GetterDefaults` and `JsonValue.ConstructorGetterRoundTrip` state |
| `JsonValue.ObjectItems` | include/json11.hpp:194-196 | `object_items()`: the members of an object, empty otherwise, as `JsonValue.GetterDefaults` and `JsonValue.ConstructorGetterRoundTrip` state |
| `JsonValue.ConstructorGetterRoundTrip` | include/json11.hpp:130-141 | each getter returns the payload its constructor was given; `Json()` is Null |
| `JsonValue.GettersDetermineValue` | include/json11.hpp:172-196 | `type()` with the getters rebuilds the value, so no information is lost |
| `JsonValue.FindKey` | include/json11.hpp:119-120 | the position of the first member with the key, and none earlier has it; None exactly when no member has it |
| `JsonValue.AtIndexReadsArrayItems` | include/json11.hpp:198-200 | `v[i]` is `array_items()[i]` when `i` is in range, and Null otherwise or on a non-array |
| `JsonValue.AtIndex` | include/json11.hpp:198-200 | `operator[](i)`; its meaning is stated by `JsonValue.AtIndexReadsArrayItems` |
| `JsonValue.AtKeyReadsObjectItems` | include/json11.hpp:201-203 | `v[key]` is the value of the first member with that key, and Null when none has it or `v` is not an object |
| `JsonValue.AtKey` | include/json11.hpp:201-203 | `operator[](key)`; its meaning is stated by `JsonValue.AtKeyReadsObjectItems` |
| `Dispatch.As` | include/json11.hpp:205-247 | the result has the requested kind; it is the payload wherever `is<T>` holds, except `as<bool>` of a number, which is false although `is<bool>` holds; on every other value it is the kind's default |
| `Dispatch.AsDispatchesToGetters` | include/json11.hpp:205-218 | bool uses `bool_value`, integral `int_value`, floating `number_value`, string `string_value`, array `array_items`, object `object_items` |
| `Dispatch.IsIffAsLossless` | include/json11.hpp:205-247 | `is<T>` holds exactly when `as<T>` followed by the matching constructor gives back the value, or `T` is `bool` and the value a number; the intended `is<T>` is exactly the lossless case |
| `Dispatch.IsBoolOnNumberNotLossless` | include/json11.hpp:207-243 | on every number `is<bool>` holds, `as<bool>` gives false, and the constructor does not give the number back |
| `Dispatch.IsOnScalars` | include/json11.hpp:238-247 | `is<T>` is false for every kind on Null; on a number it is true exactly for bool, integral and floating; on a bool exactly for bool |
| `Dispatch.Is` | include/json11.hpp:237-247 | `is<T>()` as the switch writes it, with `bool` accepted on a number; its table is stated by `Dispatch.IsOnScalars`, `Dispatch.IsMatchesType` and `Dispatch.IsIffAsLossless` |
| `Dispatch.IsMatchesType` | include/json11.hpp:238-247 | `is<T>` for each kind agrees with the `is_*` predicate of that kind's variant, except that `is<bool>` also holds on a number |
| `Dispatch.Get` | include/json11.hpp:249-259 | `get<T>(k)` is `(*this)[k].as<T>()`: the default of the kind off a container or on a missing entry, the entry's payload when the entry has the requested kind, and false for `get<bool>` of a numeric entry |
| `Dispatch.IndexBy` | include/json11.hpp:251 | the `operator[]` that `get<T>` calls, by position or by key; `Dispatch.Get` states what reading through it gives |
| `Dispatch.GetOnArray` | include/json11.hpp:249-253 | `get<T>(i)` on an array is `as<T>` of the i-th item: its payload when it has the requested kind, false for `get<bool>` of a numeric item |
| `Compare.LessIsStrictTotalOrder` | include/json11.hpp:292-293 | the model's `<` is irreflexive, asymmetric, transitive, and any two values are `<`, `==` or `>` |
| `Compare.Less` | include/json11.hpp:293 | the model's `operator<`; `Compare.LessIsStrictTotalOrder` states it is a strict total order |
| `Compare.DerivedOperators` | include/json11.hpp:294-297 | `!=` is the negation of `==`; `<=` is `<` or `==`; `>` is the converse of `<`; `>=` is `>` or `==` and the converse of `<=`; exactly one of `<`, `==`, `>` holds |
| `Compare.NotEqual` | include/json11.hpp:294 | `!=` as `!(*this == rhs)`; `Compare.DerivedOperators` states its meaning |
| `Compare.LessOrEqual` | include/json11.hpp:295 | `<=` as `!(rhs < *this)`; `Compare.DerivedOperators` and `Compare.LessOrEqualIsTotalOrder` state its meaning |
| `Compare.Greater` | include/json11.hpp:296 | `>` as `rhs < *this`; `Compare.DerivedOperators` states its meaning |
| `Compare.GreaterOrEqual` | include/json11.hpp:297 | `>=` as `!(*this < rhs)`; `Compare.DerivedOperators` states its meaning |
| `Compare.LessOrEqualIsTotalOrder` | include/json11.hpp:295 | `<=` as derived from `<` is reflexive, antisymmetric, transitive and total |
| `Compare.OrderExamples` | include/json11.hpp:89-91 | empty instances are ordered by the enum's variant order; false < true, 1 < 2, "a" < "b", a proper prefix array is smaller, and member order matters in object ordering |
| `ObjectContainer.CountKey` | include/json11.hpp:123 | the number of members with the key, which is 0 exactly when `find` finds none |
| `ObjectContainer.UniqueKeysCountAtMostOne` | include/json11.hpp:123 | when no key repeats, `count` is at most 1 |
| `ObjectContainer.JsonObject.constructor` | include/json11.hpp:101 | a default-constructed object has no members |
| `ObjectContainer.JsonObject.FromRange` | include/json11.hpp:104-105 | the range constructor stores exactly the range's pairs, in the range's order |
| `ObjectContainer.JsonObject.Copy` | include/json11.hpp:102 | the copy holds the same member vector |
| `ObjectContainer.JsonObject.Empty` | include/json11.hpp:108-109 | `empty()` holds exactly when `size()` is 0 |
| `ObjectContainer.JsonObject.Size` | include/json11.hpp:108 | `size()`: the length of `m_data`; `ObjectContainer.JsonObject.Empty` states that `empty()` is `size() == 0` |
| `ObjectContainer.JsonObject.Find` | include/json11.hpp:119-120 | a scan of `m_data` that gives the position of the first member with the key, or none when no member has it |
| `ObjectContainer.JsonObject.Count` | include/json11.hpp:123 | a scan of `m_data` counting the members with the key; 0 exactly when none has it |
| `ObjectContainer.JsonObject.Insert` | include/json11.hpp:122 | a member with a new key is appended, with `true` and its position; a present key changes nothing, with `false` and the existing position; unique keys stay unique |
| `ObjectContainer.JsonObject.Index` | include/json11.hpp:111 | `operator[]` gives the position of the key's member, first appending `(key, Json())` when the key is absent; nothing else changes |
| `ObjectContainer.JsonObject.Assign` | include/json11.hpp:111 | writing through `operator[]` replaces an existing member's value in place or appends a new member; afterwards `obj[key]` reads the new value |
| `ObjectContainer.ToJson` | include/json11.hpp:140-141 | `Json(object)` is an Object value with the container's members in order |
| `ObjectContainer.FromMapLike` | include/json11.hpp:154-159 | a map-like container becomes an Object with exactly its pairs in iteration order, and indexing by a key finds that key's first pair |
| `ObjectContainer.FromVectorLike` | include/json11.hpp:161-165 | a vector-like container becomes an Array with exactly its elements in iteration order |
| `ObjectContainer.InsertionOrderKept` | include/json11.hpp:95-99 | inserting keys "b", "a", "c" keeps that order in the resulting object's members; inserting a present key changes nothing, and assigning to one moves nothing |
| `Shape.FirstMismatch` | include/json11.hpp:299-305 | the position of the first `(name, type)` pair that fails, with all pairs before it met; none exactly when every pair is met |
| `Shape.HasShape` | include/json11.hpp:299-305 | true iff the value is an object and each pair's field exists with that `type()`; when it returns true `err` is unchanged; when it returns false `err` is non-empty and names the first failing field (or says it expected an object) |
| `Shape.CheckFields` | include/json11.hpp:299-303 | the per-pair check inside `has_shape`: true exactly when every pair is met, `err` untouched then, otherwise the message naming the first failing pair |
| `Shape.HasShapeViaIndexing` | include/json11.hpp:299-305 | the same verdict stated with indexing: each field is present and `(*this)[name].type()` is the expected type |
| `Shape.EmptyShape` | include/json11.hpp:299-305 | the empty shape accepts every object and only objects |
| `Shape.ShapeExamples` | include/json11.hpp:299-305 | a matching object passes whatever order its shape lists the fields in; a wrong type and a missing field fail; a non-object fails |
| `TextIO.DumpInto` | include/json11.hpp:262 | `dump(out)` appends the serialization and keeps what `out` held |
| `TextIO.Dump` | include/json11.hpp:263-267 | `dump()` returns exactly what `dump(out)` appends to an empty string |
| `TextIO.DumpTwice` | include/json11.hpp:262-267 | two `dump(out)` calls into one buffer leave the two texts concatenated in call order |
| `TextIO.Parse` | include/json11.hpp:269-272 | on failure the result is `Json()` and `err` is the parser's non-empty message; on success the parsed value is returned and `err` is left unchanged |
| `TextIO.ParseResultAndError` | include/json11.hpp:269-272 | a non-Null result means the parse succeeded and `err` is unchanged; a failed parse always yields Null; called with an empty `err`, `err` stays empty exactly when the parse succeeded |

## Left out

- Number payload: stored as an unbounded integer, not an IEEE-754 double. `Json(double)`, `Json(int)` and the integral-widening constructor all become `Number(n)`. `number_value` and `int_value` both return that integer. Rounding, truncation of non-integral doubles, NaN and overflow are not modelled.
- The bodies of `Json::operator==` and `Json::operator<` are not part of this model. `Compare` gives them a concrete definition (structural equality; variant rank in enum order, then lexicographic order), and the derivations at lines 294-297 are proved about it.
- `object::operator==` and `object::operator<` (lines 125-126): their bodies are not part of this model. Object values compare through the member vector inside `Compare`.
- The bodies of `object::find`, `count`, `insert` and `operator[]` are not part of this model. They are modelled as a first-match scan of the vector and a count, with std::map's contract for `insert` (no replacement) and `operator[]` (insert `Json()` when missing). Key uniqueness is not assumed: the range constructor can store repeated keys. The model only proves that `Insert`, `Index` and `Assign` keep unique keys unique.
- The `object(std::initializer_list)` constructor (line 106): its body is not part of this model, so whether it keeps repeated keys is not visible.
- The move constructor and the iterators `begin`/`end`/`cbegin`/`cend` (lines 103, 112-117): with value semantics a move is a copy, and iteration order is the order of `data`.
- Mutable references returned by the non-const `array_items()`, `object_items()` and `operator[]` (lines 193, 196, 200, 203): aliasing is not modelled. The only write through a reference that is modelled is `JsonObject.Assign` on the object's own `operator[]`.
- The serializer behind `dump(out)` and the parser engine behind `parse`: both are function parameters (`serialize`, `engine`). The dialect `JsonParse` is only passed to the engine.
- `parse_multi` (both overloads, lines 278-290), `try_parse` and `JsonException` (lines 78-82, 274-275): the scanner is not part of this model. The other two are an exception layer.
- `Shape.HasShape`: the header does not say what the error text holds. The two messages, "expected JSON object" and "bad type for <name>", are the model's own.
- Strings: the `std::string` payload and object keys are byte strings, but the model uses Dafny `string`, a sequence of Unicode scalar values. Byte strings that are not valid UTF-8 cannot be represented, and `Compare.StringLess` compares code points, not unsigned bytes.
- `parse` has the default argument `strategy = JsonParse::STANDARD` (line 272). `TextIO.Parse` takes the strategy as a required parameter, and a call without it is a call with `STANDARD`.
- As: for an integral `T` the payload round-trip holds only because a number is an integer here; `int_value` truncates a non-integral double, and that loss is not modelled.
- IsIffAsLossless: the same holds for its integral case; with a double payload `is<int>` would hold on 1.5 while `as<int>` gives 1.
- The `shared_ptr` storage and the `JsonValue` class hierarchy (lines 308-334): a Dafny datatype already behaves as a value.
- The user-type hooks `to_json`, `from_json` and `T::to_json` (lines 146-152, 219-222): foreign code.
- The MSVC `noexcept`/`snprintf` macros and the deleted `Json(void*)` constructor (lines 60-70, 169): C++-specific.

## Findings

| source | as written | input that shows it | evidently intended | confidence | as-written member | corrected member |
|---|---|---|---|---|---|---|
| include/json11.hpp:207-243 | on a NUMBER, `is<T>()` returns `is_integral_v<T> \|\| is_floating_point_v<T>`, which is true for `T = bool`, while `as<bool>()` returns `bool_value()`, false off a Bool | `Json(1.0).is<bool>()` is true, but `Json(1.0).as<bool>()` is false, so `Json(Json(1.0).as<bool>())` is not `Json(1.0)` | `is<bool>()` holds only on a Bool, as the BOOL case's `is_same_v<T, bool>` tests, so that `is<T>()` holds exactly when `as<T>()` loses nothing | medium, not executed | `Dispatch.IsBoolOnNumberNotLossless` | `Dispatch.IsIntended`, proved lossless in `Dispatch.IsIffAsLossless` |
