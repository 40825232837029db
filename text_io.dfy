/**
 * The two text-facing wrappers of the header. The serializer that
 * `dump(out)` runs and the parser engine that `parse` runs are not part of
 * this model: each is taken as a function parameter, and only what the header
 * itself does with them is modelled.
 */
module TextIO {
  import opened JsonValue

  /** `JsonParse`: the strict dialect, or the one that also skips comments. */
  datatype JsonParse = STANDARD | COMMENTS

  /** An error message: never empty, so a failure always leaves a trace in `err`. */
  type ErrorMessage = s: string | |s| > 0 witness "error"

  /** What the parser engine reports for one input. */
  datatype ParseOutcome = Parsed(value: Json) | Failed(message: ErrorMessage)

  /** A caller-owned `std::string` that `dump(out)` appends to. */
  class OutBuffer {
    var text: string

    constructor ()
      ensures text == ""
    {
      text := "";
    }
  }

  /** `dump(std::string &out)`: appends the serialization, keeping what `out` held. */
  method DumpInto(j: Json, out: OutBuffer, serialize: Json -> string)
    modifies out
    ensures out.text == old(out.text) + serialize(j)
  {
    out.text := out.text + serialize(j);
  }

  /**
   * `dump()`: appends into a fresh, empty buffer and returns it, so the text
   * is exactly the serialization.
   */
  method Dump(j: Json, serialize: Json -> string) returns (s: string)
    ensures s == serialize(j)
  {
    var out := new OutBuffer();
    DumpInto(j, out, serialize);
    s := out.text;
  }

  /** Dumping two values into one buffer concatenates their texts in order. */
  method DumpTwice(a: Json, b: Json, serialize: Json -> string) returns (s: string)
    ensures s == serialize(a) + serialize(b)
  {
    var out := new OutBuffer();
    DumpInto(a, out, serialize);
    DumpInto(b, out, serialize);
    s := out.text;
  }

  /**
   * `parse(in, err, strategy)`: on failure, `Json()` and `err` set to the
   * engine's message, which is never empty; on success, the parsed value and
   * `err` untouched.
   */
  function Parse(input: string, err: string, strategy: JsonParse,
                 engine: (string, JsonParse) -> ParseOutcome): (r: (Json, string))
    ensures engine(input, strategy).Failed? ==> r.0 == Null && r.1 == engine(input, strategy).message
    ensures engine(input, strategy).Parsed? ==> r.0 == engine(input, strategy).value && r.1 == err
    ensures engine(input, strategy).Failed? ==> r.1 != ""
  {
    match engine(input, strategy)
    case Parsed(v) => (v, err)
    case Failed(msg) => (Null, msg)
  }

  /**
   * A non-Null result can only come from a successful parse, so it leaves
   * `err` untouched; a failed parse is always Null. Called with an empty
   * `err`, the caller can tell the two apart even when the result is `Json()`:
   * `err` is still empty exactly when the parse succeeded.
   */
  lemma ParseResultAndError(input: string, err: string, strategy: JsonParse,
                            engine: (string, JsonParse) -> ParseOutcome)
    ensures Parse(input, err, strategy, engine).0 != Null ==>
              engine(input, strategy).Parsed? && Parse(input, err, strategy, engine).1 == err
    ensures engine(input, strategy).Failed? ==> IsNull(Parse(input, err, strategy, engine).0)
    ensures Parse(input, "", strategy, engine).1 == "" <==> engine(input, strategy).Parsed?
  {
  }
}
