/**
 * `has_shape(types, err)`: true when the value is an object and, for each
 * `(name, type)` in `types`, has a field `name` of that type; otherwise false,
 * with `err` set to a message. The list is checked in order and the message
 * names the first pair that fails; on success `err` is left as it was.
 */
module Shape {
  import opened JsonValue

  /** The object has a member called `name`, and the first such member has type `t`. */
  predicate FieldHasType(ms: seq<Member>, name: string, t: Type)
  {
    match FindKey(ms, name)
    case Some(p) => TypeOf(ms[p].value) == t
    case None => false
  }

  /** Every `(name, type)` pair of the shape is met. */
  predicate Conforms(ms: seq<Member>, types: seq<(string, Type)>)
  {
    forall i :: 0 <= i < |types| ==> FieldHasType(ms, types[i].0, types[i].1)
  }

  const NotObjectMessage: string := "expected JSON object"

  function BadTypeMessage(name: string): (m: string)
    ensures |m| > |name|
  {
    "bad type for " + name
  }

  /** The position of the first pair of the shape that is not met, if any. */
  function FirstMismatch(ms: seq<Member>, types: seq<(string, Type)>): (r: Option<nat>)
    ensures r.None? <==> Conforms(ms, types)
    ensures r.Some? ==> r.value < |types| && !FieldHasType(ms, types[r.value].0, types[r.value].1)
    ensures r.Some? ==> Conforms(ms, types[..r.value])
  {
    if |types| == 0 then None
    else if !FieldHasType(ms, types[0].0, types[0].1) then Some(0)
    else
      match FirstMismatch(ms, types[1..])
      case None =>
        None
      case Some(p) =>
        assert types[..p + 1] == [types[0]] + types[1..][..p];
        Some(p + 1)
  }

  /** The loop over the shape's pairs, stopping at the first one that fails. */
  function CheckFields(ms: seq<Member>, types: seq<(string, Type)>, err: string): (r: (bool, string))
    ensures r.0 <==> Conforms(ms, types)
    ensures r.0 ==> r.1 == err
    ensures !r.0 ==> r.1 == BadTypeMessage(types[FirstMismatch(ms, types).value].0)
  {
    if |types| == 0 then (true, err)
    else if !FieldHasType(ms, types[0].0, types[0].1) then (false, BadTypeMessage(types[0].0))
    else CheckFields(ms, types[1..], err)
  }

  function HasShape(j: Json, types: seq<(string, Type)>, err: string): (r: (bool, string))
    ensures r.0 <==> j.Object? && Conforms(j.members, types)
    ensures r.0 ==> r.1 == err
    ensures !r.0 ==> r.1 != ""
    ensures !j.Object? ==> r == (false, NotObjectMessage)
    ensures j.Object? && !r.0 ==>
              r.1 == BadTypeMessage(types[FirstMismatch(j.members, types).value].0)
  {
    if !j.Object? then (false, NotObjectMessage)
    else CheckFields(j.members, types, err)
  }

  /**
   * The shape check in terms of indexing: each named field is present and
   * `(*this)[name].type()` is the expected type. (A missing field is not
   * accepted even where the expected type is NUL.)
   */
  lemma HasShapeViaIndexing(j: Json, types: seq<(string, Type)>, err: string)
    ensures HasShape(j, types, err).0 <==>
              j.Object? &&
              forall i :: 0 <= i < |types| ==>
                FindKey(j.members, types[i].0).Some? && TypeOf(AtKey(j, types[i].0)) == types[i].1
  {
  }

  /** An empty shape accepts every object and only objects. */
  lemma EmptyShape(j: Json, err: string)
    ensures HasShape(j, [], err) == (if j.Object? then (true, err) else (false, NotObjectMessage))
  {
  }

  lemma ShapeExamples()
    ensures HasShape(Object([Member("id", Number(7)), Member("name", Str("x"))]),
                     [("name", STRING), ("id", NUMBER)], "") == (true, "")
    ensures HasShape(Object([Member("id", Str("7"))]), [("id", NUMBER)], "") ==
              (false, BadTypeMessage("id"))
    ensures HasShape(Object([]), [("opt", NUL)], "").0 == false
    ensures HasShape(Array([]), [], "") == (false, NotObjectMessage)
  {
  }
}
