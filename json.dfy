/** JSON values as the client sends and receives them, Python's truthiness on
    them, and the exceptions (KeyError, TypeError, ValueError, ...) that the
    dictionary accesses and record constructors of the client raise. */
module Json {

  datatype Option<+T> = None | Some(value: T) {
    function GetOr(default: T): T {
      if Some? then value else default
    }
  }

  datatype Value =
    | Null
    | Bool(b: bool)
    | Int(i: int)
    | Str(s: string)
    | Array(items: seq<Value>)
    | Object(fields: map<string, Value>)

  /** A JSON object: the Python dict a response decodes to. */
  type Fields = map<string, Value>

  /** Python's bool() on a decoded JSON value: None, False, 0, "" and empty
      containers are falsy, everything else is truthy. */
  predicate Truthy(v: Value) {
    match v
    case Null => false
    case Bool(b) => b
    case Int(i) => i != 0
    case Str(s) => s != []
    case Array(items) => items != []
    case Object(fields) => fields != map[]
  }

  /** The Python exceptions, other than the scanner's own API errors, that the
      modelled code can raise. */
  datatype PyError =
    | KeyError(key: string)
    | TypeError(reason: string)
    | ValueError(reason: string)
    | UnboundLocalError(name: string)
    | AttributeError(name: string)

  datatype Result<+T> = Ok(value: T) | Fail(error: PyError) {
    predicate IsFailure() {
      Fail?
    }
    function PropagateFailure<U>(): Result<U>
      requires Fail?
    {
      Fail(error)
    }
    function Extract(): T
      requires Ok?
    {
      value
    }
  }

  /** The text of a datetime: `isoformat` never yields an empty string. */
  type IsoText = s: string | s != [] witness "0"

  /** A datetime.datetime. Its conversions from and to ISO text belong to the
      Python library; the model takes every non-empty text as valid and the
      two conversions as inverse of each other. */
  datatype DateTime = DateTime(iso: IsoText)

  /** `datetime.fromisoformat` on a string: the empty string is refused. */
  function FromIsoFormat(s: string): (r: Result<DateTime>)
    ensures r.Ok? <==> s != []
    ensures r.Ok? ==> IsoFormat(r.value) == s
  {
    if s == [] then Fail(ValueError("Invalid isoformat string")) else Ok(DateTime(s))
  }

  function IsoFormat(t: DateTime): string {
    t.iso
  }

  /** A list of strings on the wire. */
  function Strings(ss: seq<string>): (v: Value)
    ensures v.Array? && |v.items| == |ss|
    ensures forall k :: 0 <= k < |ss| ==> v.items[k] == Str(ss[k])
  {
    Array(seq(|ss|, k requires 0 <= k < |ss| => Str(ss[k])))
  }

  /** The strings of a list all of whose items are strings. */
  function StringItems(items: seq<Value>): (r: Result<seq<string>>)
    ensures r.Ok? <==> forall k :: 0 <= k < |items| ==> items[k].Str?
    ensures r.Ok? ==> |r.value| == |items|
  {
    if items == [] then Ok([])
    else if !items[0].Str? then Fail(TypeError("not a list of strings"))
    else
      var rest :- StringItems(items[1..]);
      assert forall k :: 1 <= k < |items| ==> items[k] == items[1..][k - 1];
      Ok([items[0].s] + rest)
  }

  function AsStrings(v: Value): Result<seq<string>> {
    if v.Array? then StringItems(v.items) else Fail(TypeError("not a list of strings"))
  }

  lemma {:induction false} StringItemsAt(items: seq<Value>, k: nat)
    requires StringItems(items).Ok? && k < |items|
    ensures items[k] == Str(StringItems(items).value[k])
  {
    if k > 0 {
      StringItemsAt(items[1..], k - 1);
    }
  }

  /** Decoding a list of strings that was encoded from strings gives them back. */
  lemma AsStringsOfStrings(ss: seq<string>)
    ensures AsStrings(Strings(ss)) == Ok(ss)
  {
    var items := Strings(ss).items;
    assert StringItems(items).Ok?;
    var r := StringItems(items).value;
    forall k | 0 <= k < |ss|
      ensures r[k] == ss[k]
    {
      StringItemsAt(items, k);
    }
    assert r == ss;
  }

  /** Encoding the strings a list decodes to gives the list back. */
  lemma StringsOfAsStrings(v: Value)
    requires AsStrings(v).Ok?
    ensures Strings(AsStrings(v).value) == v
  {
    var r := AsStrings(v).value;
    forall k | 0 <= k < |v.items|
      ensures Strings(r).items[k] == v.items[k]
    {
      StringItemsAt(v.items, k);
    }
  }

  function AsString(v: Value): (r: Result<string>)
    ensures r.Ok? <==> v.Str?
    ensures r.Ok? ==> v == Str(r.value)
  {
    if v.Str? then Ok(v.s) else Fail(TypeError("not a string"))
  }

  function AsBool(v: Value): (r: Result<bool>)
    ensures r.Ok? <==> v.Bool?
    ensures r.Ok? ==> v == Bool(r.value)
  {
    if v.Bool? then Ok(v.b) else Fail(TypeError("not a bool"))
  }

  /** An Optional[str] field: None is null. */
  function AsOptString(v: Value): (r: Result<Option<string>>)
    ensures r.Ok? <==> v.Null? || v.Str?
    ensures r == Ok(None) <==> v.Null?
    ensures r.Ok? ==> v == OptString(r.value)
  {
    match v
    case Null => Ok(None)
    case Str(s) => Ok(Some(s))
    case _ => Fail(TypeError("not a string or None"))
  }

  /** An Optional[int] field: None is null. */
  function AsOptInt(v: Value): (r: Result<Option<int>>)
    ensures r.Ok? <==> v.Null? || v.Int?
    ensures r == Ok(None) <==> v.Null?
    ensures r.Ok? ==> v == OptInt(r.value)
  {
    match v
    case Null => Ok(None)
    case Int(i) => Ok(Some(i))
    case _ => Fail(TypeError("not an int or None"))
  }

  /** An Optional[List[str]] field: None is null. */
  function AsOptStrings(v: Value): (r: Result<Option<seq<string>>>)
    ensures r == Ok(None) <==> v.Null?
    ensures r.Ok? && r.value.Some? ==> AsStrings(v) == Ok(r.value.value)
  {
    if v.Null? then Ok(None)
    else
      var ss :- AsStrings(v);
      Ok(Some(ss))
  }

  function OptString(o: Option<string>): Value {
    if o.Some? then Str(o.value) else Null
  }

  function OptInt(o: Option<int>): Value {
    if o.Some? then Int(o.value) else Null
  }

  function OptStrings(o: Option<seq<string>>): Value {
    if o.Some? then Strings(o.value) else Null
  }

  /** The value a dict holds under a key, or None (null) when the key is absent:
      Python's dict.get. */
  function Get(d: Fields, key: string): (v: Value)
    ensures key !in d ==> v == Null
    ensures key in d ==> v == d[key]
  {
    if key in d then d[key] else Null
  }

  /** `cls(**data)` refuses keywords that are not fields and requires the
      fields that have no default. */
  function CheckKeywords(d: set<string>, fields: set<string>, required: set<string>): (r: Result<()>)
    ensures r.Ok? <==> d <= fields && required <= d
  {
    if !(d <= fields) then Fail(TypeError("unknown keyword argument"))
    else if !(required <= d) then Fail(TypeError("missing required argument"))
    else Ok(())
  }
}
