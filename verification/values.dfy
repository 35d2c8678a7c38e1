/** Loosely typed values.  Go code in the workflow engine passes `interface{}`
    values around in state maps, step outputs and decoded JSON; this module
    replaces them with a tagged union and gives the typed reads the handlers
    perform. */
module Values {
  import opened Wrappers

  /** A Go `interface{}` value as it can appear in execution state, in
      handler variables or in decoded JSON.  JSON decoding only produces
      `Nil`, `Bool`, `Str`, `F64`, `List` and `Object`; the other numeric tags
      exist because callers may put Go values of those types in a state map. */
  datatype Value =
    | Nil
    | Bool(b: bool)
    | Str(s: string)
    | F64(r: real)                 // float64 (exact reals: no rounding, no NaN)
    | F32(r: real)                 // float32
    | Int(i: int)                  // int
    | Number(parsed: Option<real>) // json.Number: the result of its Float64() when that succeeds
    | List(items: seq<Value>)
    | Object(fields: map<string, Value>)

  /** A string built at run time.  Formatted strings are kept symbolic: the
      format pattern together with its arguments stands for the string that
      fmt.Sprintf or fmt.Errorf would produce.  A `%w` operand that wraps a
      JSON decoding error is dropped from the arguments: the decoder's own
      message is not modelled, only the wrapping text. */
  datatype Text = Lit(s: string) | Fmt(pattern: string, args: seq<Value>)

  /** A value in a step's output payload (a `map[string]interface{}` in Go). */
  datatype Out =
    | Val(v: Value)
    | Txt(t: Text)
    | Obj(fields: map<string, Out>)

  /** The raw JSON metadata of a node, already decoded.  `NoBytes` is a
      zero-length blob, `Malformed` any blob that does not decode as a JSON
      object, and `Json` a decoded object. */
  datatype Metadata = NoBytes | Malformed | Json(fields: map<string, Value>)

  /** The value stored under `key`, `Nil` when absent (a Go map read). */
  function Lookup(m: map<string, Value>, key: string): (v: Value)
    ensures key !in m ==> v == Nil
    ensures key in m ==> v == m[key]
  {
    if key in m then m[key] else Nil
  }

  // Decoding one field of a JSON object into a typed Go struct field.  An
  // absent key or a JSON null leaves the field at its zero value; a value of
  // another JSON type is an error (encoding/json's UnmarshalTypeError).

  function StringField(fields: map<string, Value>, key: string): (r: Result<string, ()>)
    ensures r.Failure? <==> !(Lookup(fields, key).Nil? || Lookup(fields, key).Str?)
    ensures Lookup(fields, key).Str? ==> r == Success(Lookup(fields, key).s)
    ensures Lookup(fields, key).Nil? ==> r == Success("")
  {
    match Lookup(fields, key)
    case Nil => Success("")
    case Str(s) => Success(s)
    case _ => Failure(())
  }

  function FloatField(fields: map<string, Value>, key: string): (r: Result<real, ()>)
    ensures r.Failure? <==> !(Lookup(fields, key).Nil? || Lookup(fields, key).F64?)
    ensures Lookup(fields, key).F64? ==> r == Success(Lookup(fields, key).r)
    ensures Lookup(fields, key).Nil? ==> r == Success(0.0)
  {
    match Lookup(fields, key)
    case Nil => Success(0.0)
    case F64(x) => Success(x)
    case _ => Failure(())
  }

  function BoolField(fields: map<string, Value>, key: string): (r: Result<bool, ()>)
    ensures r.Failure? <==> !(Lookup(fields, key).Nil? || Lookup(fields, key).Bool?)
    ensures Lookup(fields, key).Bool? ==> r == Success(Lookup(fields, key).b)
    ensures Lookup(fields, key).Nil? ==> r == Success(false)
  {
    match Lookup(fields, key)
    case Nil => Success(false)
    case Bool(b) => Success(b)
    case _ => Failure(())
  }

  /** Decoding a JSON array into `[]string`: null elements become "". */
  function StringItems(items: seq<Value>): (r: Result<seq<string>, ()>)
    ensures r.Success? <==> forall i :: 0 <= i < |items| ==> items[i].Nil? || items[i].Str?
    ensures r.Success? ==> |r.value| == |items|
    ensures r.Success? ==> forall i :: 0 <= i < |items| && items[i].Str? ==> r.value[i] == items[i].s
    ensures r.Success? ==> forall i :: 0 <= i < |items| && items[i].Nil? ==> r.value[i] == ""
  {
    if |items| == 0 then Success([])
    else
      var head := match items[0] case Str(s) => Success(s) case Nil => Success("") case _ => Failure(());
      match head
      case Failure(_) => Failure(())
      case Success(s) =>
        match StringItems(items[1..])
        case Failure(_) => Failure(())
        case Success(rest) => Success([s] + rest)
  }

  /** The JSON array a `[]string` encodes to. */
  function StrList(xs: seq<string>): (items: seq<Value>)
    ensures |items| == |xs|
    ensures forall i :: 0 <= i < |xs| ==> items[i] == Str(xs[i])
  {
    seq(|xs|, i requires 0 <= i < |xs| => Str(xs[i]))
  }

  /** Decoding an encoded `[]string` gives the list back. */
  lemma StringItemsRoundTrip(xs: seq<string>)
    ensures StringItems(StrList(xs)) == Success(xs)
  {
    var r := StringItems(StrList(xs));
    assert r.Success?;
    assert r.value == xs;
  }

  function StringListField(fields: map<string, Value>, key: string): (r: Result<seq<string>, ()>)
    ensures Lookup(fields, key).Nil? ==> r == Success([])
    ensures !(Lookup(fields, key).Nil? || Lookup(fields, key).List?) ==> r.Failure?
    ensures Lookup(fields, key).List? ==> r == StringItems(Lookup(fields, key).items)
  {
    match Lookup(fields, key)
    case Nil => Success([])
    case List(items) => StringItems(items)
    case _ => Failure(())
  }

  /** A `json.RawMessage` field: nil when the key is absent, otherwise the
      value as written (JSON null included). */
  function RawField(fields: map<string, Value>, key: string): (r: Option<Value>)
    ensures r.None? <==> key !in fields
    ensures r.Some? ==> r.value == fields[key]
  {
    if key in fields then Some(fields[key]) else None
  }
}
