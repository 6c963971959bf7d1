/** The dict a `from_dict` class method receives. The decoders of Report and
    SchedulingOptions write converted values back into the very dict their
    caller passed, so that dict is modelled as an object whose entries change. */
module PyDicts {
  import opened Json
  import TypedLists
  import ReportTemplates

  /** What one key of such a dict holds: a value as it came off the wire, or
      one of the objects `from_dict` stores in its place. */
  datatype Entry =
    | Wire(v: Value)
    | Moment(t: DateTime)
    | Listing(list: TypedLists.TypedList)
    | Template(template: ReportTemplates.ReportTemplate)

  /** Python's bool() on an entry: datetimes and dataclass instances are
      always truthy. */
  predicate EntryTruthy(e: Entry) {
    if e.Wire? then Truthy(e.v) else true
  }

  /** `dict.get(key)`: None when the key is absent. */
  function EntryGet(e: map<string, Entry>, key: string): Entry {
    if key in e then e[key] else Wire(Null)
  }

  /** The wire value an entry holds; `cls(**data)` in the model refuses an
      object where a plain value belongs. */
  function WireValue(e: Entry): (r: Result<Value>)
    ensures r.Ok? <==> e.Wire?
    ensures r.Ok? ==> r.value == e.v
  {
    if e.Wire? then Ok(e.v) else Fail(TypeError("not a plain value"))
  }

  /** The entries of a dict freshly decoded from JSON. */
  function Lift(d: Fields): (e: map<string, Entry>)
    ensures e.Keys == d.Keys
    ensures forall k :: k in e ==> e[k] == Wire(d[k])
  {
    map k | k in d :: Wire(d[k])
  }

  class Dict {
    var entries: map<string, Entry>

    /** The dict a decoded JSON object becomes. */
    constructor (d: Fields)
      ensures entries == Lift(d)
    {
      entries := Lift(d);
    }

    /** `data[key] = e`. */
    method Set(key: string, e: Entry)
      modifies this
      ensures entries == old(entries)[key := e]
    {
      entries := entries[key := e];
    }

    /** `data.setdefault(key, e)`: stores `e` only when `key` is absent. */
    method SetDefault(key: string, e: Entry)
      modifies this
      ensures key in old(entries) ==> entries == old(entries)
      ensures key !in old(entries) ==> entries == old(entries)[key := e]
    {
      if key !in entries {
        entries := entries[key := e];
      }
    }
  }
}
