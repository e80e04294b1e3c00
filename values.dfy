/** Values shared by every part of the API layer: optional values, results,
    the error taxonomy, GraphQL variable values and a mutable cell standing
    for a Go pointer to a struct. */
module Values {

  datatype Option<+T> = None | Some(value: T)

  /** A Go `(T, error)` return: `Ok` when the error is nil. */
  datatype Result<+T> = Ok(value: T) | Err(error: Error)

  /** The error taxonomy of the API layer. */
  datatype Error =
    | Transport(reason: string)               // the request could not be sent or its body read
    | UnexpectedStatus(code: int, body: string) // "unexpected status code %d: %s"
    | UnmarshalResponse                       // the body is not a GraphQL envelope
    | GraphQLError(message: string)           // "GraphQL error: %s", first reported error only
    | UnmarshalData                           // `data` does not decode into the target
    | NotFound(kind: string, name: string)    // "<kind> not found: <name>"
    | UnsupportedActionType(actionType: string)
    | Wrapped(context: string, cause: Error)  // fmt.Errorf("<context>: %w", cause)

  /** A JSON value as it appears in a GraphQL variables map. */
  datatype Value =
    | Null
    | Str(s: string)
    | Int(i: int)
    | Bool(b: bool)
    | Num(r: real)
    | List(items: seq<Value>)
    | Object(fields: map<string, Value>)

  /** A GraphQL variables map. */
  type Vars = map<string, Value>

  /** A Go string slice as JSON: a nil slice (None) is sent as null. */
  function StringsValue(xs: Option<seq<string>>): (v: Value)
    ensures xs.None? <==> v == Null
    ensures xs.Some? ==> v.List? && |v.items| == |xs.value|
  {
    match xs
    case None => Null
    case Some(ss) => List(seq(|ss|, i requires 0 <= i < |ss| => Str(ss[i])))
  }

  /** The inverse of StringsValue, as a server reads a `[String!]` argument back. */
  function StringsOf(v: Value): Option<seq<string>>
  {
    match v
    case List(items) =>
      Some(seq(|items|, i requires 0 <= i < |items| => if items[i].Str? then items[i].s else ""))
    case _ => None
  }

  lemma StringsRoundTrip(xs: Option<seq<string>>)
    ensures StringsOf(StringsValue(xs)) == xs
  {
    if xs.Some? {
      var back := StringsOf(StringsValue(xs));
      assert back.Some? && |back.value| == |xs.value|;
      forall i | 0 <= i < |xs.value| ensures back.value[i] == xs.value[i] {
        assert StringsValue(xs).items[i] == Str(xs.value[i]);
      }
      assert back.value == xs.value;
    }
  }

  /** The string stored under `key`, or "" when it is absent or not a string. */
  function StrAt(vars: Vars, key: string): string
  {
    if key in vars && vars[key].Str? then vars[key].s else ""
  }

  /** The boolean stored under `key`, or false. */
  function BoolAt(vars: Vars, key: string): bool
  {
    if key in vars && vars[key].Bool? then vars[key].b else false
  }

  /** `f` applied to every element of `s`, in order. */
  function MapSeq<A, B>(f: A -> B, s: seq<A>): (r: seq<B>)
    ensures |r| == |s|
    ensures forall i :: 0 <= i < |s| ==> r[i] == f(s[i])
  {
    seq(|s|, i requires 0 <= i < |s| => f(s[i]))
  }

  /** The Go `error` of a call whose value is dropped: None for nil. */
  function ErrorOf<T>(r: Result<T>): (e: Option<Error>)
    ensures e.None? <==> r.Ok?
  {
    match r
    case Ok(_) => None
    case Err(e) => Some(e)
  }

  /** The string list stored under `key`, as a server reads it back. */
  function StringsAt(vars: Vars, key: string): Option<seq<string>>
  {
    if key in vars then StringsOf(vars[key]) else None
  }

  /** The members of a JSON object, or none. */
  function MembersOf(v: Value): Vars
  {
    if v.Object? then v.fields else map[]
  }

  /** The list stored under `key`, or the empty list. */
  function ListAt(vars: Vars, key: string): seq<Value>
  {
    if key in vars && vars[key].List? then vars[key].items else []
  }

  /** A Go pointer to a struct that its callee may update in place. */
  class Ref<T> {
    var value: T

    constructor (v: T)
      ensures value == v
    {
      value := v;
    }
  }

  /** Number of bytes in the UTF-8 encoding of `s`: what Go's `len` returns
      for a string. */
  function Utf8Length(s: string): (n: nat)
    ensures n >= |s|
    ensures n <= 4 * |s|
  {
    if s == [] then 0
    else
      var c := s[0] as int;
      (if c < 0x80 then 1 else if c < 0x800 then 2 else if c < 0x10000 then 3 else 4)
      + Utf8Length(s[1..])
  }

  /** For ASCII text the byte length is the character count. */
  lemma {:induction false} Utf8LengthAscii(s: string)
    requires forall i :: 0 <= i < |s| ==> s[i] as int < 0x80
    ensures Utf8Length(s) == |s|
  {
    if s != [] {
      Utf8LengthAscii(s[1..]);
    }
  }

  /** A pointer-returning call `r` agrees with its value-level outcome
      `outcome`: on success it returns `ptr` itself, holding the outcome's
      value; on failure it carries the same error. */
  predicate Returns<T(==)>(r: Result<Ref<T>>, outcome: Result<T>, ptr: Ref<T>)
    reads ptr
  {
    && (r.Ok? <==> outcome.Ok?)
    && (r.Err? ==> r.error == outcome.error)
    && (r.Ok? ==> r.value == ptr && ptr.value == outcome.value)
  }
}
