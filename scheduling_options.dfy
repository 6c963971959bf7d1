/** SchedulingOptions: the schedule sent with a new scan, with `from_dict`
    converting the start date in the caller's dict and `to_json` dropping
    falsy optional keys. */
module Scheduling {
  import opened Json
  import opened PyDicts

  /** `recurrence` is annotated as an optional string, but the client itself
      stores the int 0 there, so it holds any JSON value. */
  datatype SchedulingOptions = SchedulingOptions(
    disable: bool,
    timeSensitive: bool,
    triggerable: bool,
    historyLimit: Option<int>,
    recurrence: Value,
    startDate: Option<DateTime>)

  const FieldNames: set<string> := {"disable", "time_sensitive", "triggerable", "history_limit", "recurrence", "start_date"}
  const Required: set<string> := {"disable", "time_sensitive", "triggerable"}

  /** A start date the first step of `from_dict` converts: a truthy string. */
  predicate ConvertsStartDate(e: map<string, Entry>) {
    "start_date" in e && e["start_date"].Wire? && e["start_date"].v.Str? && e["start_date"].v.s != []
  }

  /** `cls(**data)` on entries whose start date has already been converted. */
  function Construct(e: map<string, Entry>): (r: Result<SchedulingOptions>)
    ensures r.Ok? ==> e.Keys <= FieldNames && Required <= e.Keys
    ensures r.Ok? ==> e["disable"] == Wire(Bool(r.value.disable))
    ensures r.Ok? ==> e["time_sensitive"] == Wire(Bool(r.value.timeSensitive))
    ensures r.Ok? ==> e["triggerable"] == Wire(Bool(r.value.triggerable))
    ensures r.Ok? ==> EntryGet(e, "history_limit") == Wire(OptInt(r.value.historyLimit))
    ensures r.Ok? ==> EntryGet(e, "recurrence") == Wire(r.value.recurrence)
    ensures r.Ok? ==> (r.value.startDate.None? <==> EntryGet(e, "start_date") == Wire(Null))
    ensures r.Ok? && r.value.startDate.Some? ==> e["start_date"] == Moment(r.value.startDate.value)
  {
    var _ :- CheckKeywords(e.Keys, FieldNames, Required);
    var disable :- WireValue(e["disable"]);
    var disable :- AsBool(disable);
    var timeSensitive :- WireValue(e["time_sensitive"]);
    var timeSensitive :- AsBool(timeSensitive);
    var triggerable :- WireValue(e["triggerable"]);
    var triggerable :- AsBool(triggerable);
    var history :- WireValue(EntryGet(e, "history_limit"));
    var history :- AsOptInt(history);
    var recurrence :- WireValue(EntryGet(e, "recurrence"));
    var start :- match EntryGet(e, "start_date")
      case Moment(t) => Ok(Some(t))
      case Wire(Null) => Ok(None)
      case _ => Fail(TypeError("start_date is not a datetime"));
    Ok(SchedulingOptions(disable, timeSensitive, triggerable, history, recurrence, start))
  }

  /** `SchedulingOptions.from_dict`: the result, and the caller's dict
      afterwards. A truthy `start_date` is converted in place, a truthy one
      that is not a string makes `fromisoformat` raise TypeError; nothing
      else in the dict is touched. */
  function FromEntries(e: map<string, Entry>): (out: (Result<SchedulingOptions>, map<string, Entry>))
    ensures out.1.Keys == e.Keys
    ensures forall k :: k in e && k != "start_date" ==> out.1[k] == e[k]
    ensures out.1 != e <==> ConvertsStartDate(e)
    ensures ConvertsStartDate(e) ==> out.1["start_date"] == Moment(DateTime(e["start_date"].v.s))
    ensures "start_date" in e && EntryTruthy(e["start_date"]) && !ConvertsStartDate(e) ==> out.0.Fail?
    ensures !("start_date" in e && EntryTruthy(e["start_date"]) && !ConvertsStartDate(e)) ==> out.0 == Construct(out.1)
  {
    if "start_date" in e && EntryTruthy(e["start_date"]) then
      var start := e["start_date"];
      if start.Wire? && start.v.Str? then
        var converted := e["start_date" := Moment(DateTime(start.v.s))];
        (Construct(converted), converted)
      else
        (Fail(TypeError("fromisoformat: argument must be str")), e)
    else
      (Construct(e), e)
  }

  /** `SchedulingOptions.from_dict(data)`. */
  method FromDict(data: Dict) returns (r: Result<SchedulingOptions>)
    modifies data
    ensures (r, data.entries) == FromEntries(old(data.entries))
  {
    var start := EntryGet(data.entries, "start_date");
    if EntryTruthy(start) {
      if !(start.Wire? && start.v.Str?) {
        return Fail(TypeError("fromisoformat: argument must be str"));
      }
      var t := FromIsoFormat(start.v.s);
      data.Set("start_date", Moment(t.value));
    }
    r := Construct(data.entries);
  }

  /** `from_dict` on a dict decoded from JSON. */
  function FromWire(d: Fields): Result<SchedulingOptions> {
    FromEntries(Lift(d)).0
  }

  /** `dataclasses.asdict` followed by the ISO conversion of a truthy start
      date. */
  function AsDict(s: SchedulingOptions): (d: Fields)
    ensures d.Keys == FieldNames
    ensures d["disable"] == Bool(s.disable) && d["time_sensitive"] == Bool(s.timeSensitive) && d["triggerable"] == Bool(s.triggerable)
    ensures d["history_limit"] == OptInt(s.historyLimit) && d["recurrence"] == s.recurrence
    ensures d["start_date"] == if s.startDate.Some? then Str(IsoFormat(s.startDate.value)) else Null
  {
    map[
      "disable" := Bool(s.disable),
      "time_sensitive" := Bool(s.timeSensitive),
      "triggerable" := Bool(s.triggerable),
      "history_limit" := OptInt(s.historyLimit),
      "recurrence" := s.recurrence,
      "start_date" := if s.startDate.Some? then Str(IsoFormat(s.startDate.value)) else Null]
  }

  /** `if not data[key]: data.pop(key)`. */
  function PopFalsy(d: Fields, key: string): (r: Fields)
    requires key in d
    ensures key in r <==> Truthy(d[key])
    ensures r.Keys <= d.Keys
    ensures forall k :: k in r ==> r[k] == d[k]
    ensures forall k :: k in d && k != key ==> k in r
  {
    if !Truthy(d[key]) then d - {key} else d
  }

  /** `to_json`: `asdict` with the start date as ISO text (a None start date
      stays, as null) and with a falsy `recurrence` or `history_limit`
      popped. */
  function ToJson(s: SchedulingOptions): (d: Fields)
    ensures "recurrence" in d <==> Truthy(s.recurrence)
    ensures "recurrence" in d ==> d["recurrence"] == s.recurrence
    ensures "history_limit" in d <==> s.historyLimit.Some? && s.historyLimit.value != 0
    ensures "history_limit" in d ==> d["history_limit"] == Int(s.historyLimit.value)
    ensures "start_date" in d
    ensures s.startDate.None? ==> d["start_date"] == Null
    ensures s.startDate.Some? ==> d["start_date"] == Str(IsoFormat(s.startDate.value))
    ensures "disable" in d && "time_sensitive" in d && "triggerable" in d
    ensures d["disable"] == Bool(s.disable) && d["time_sensitive"] == Bool(s.timeSensitive) && d["triggerable"] == Bool(s.triggerable)
    ensures d.Keys <= FieldNames
  {
    var d := AsDict(s);
    var d' := PopFalsy(d, "recurrence");
    assert "history_limit" in d';
    PopFalsy(d', "history_limit")
  }

  /** What survives `to_json`: a falsy recurrence or history limit comes back
      as their default, None. */
  function Normalize(s: SchedulingOptions): SchedulingOptions {
    s.(historyLimit := if s.historyLimit == Some(0) then None else s.historyLimit,
       recurrence := if Truthy(s.recurrence) then s.recurrence else Null)
  }

  /** `cls(**data)` succeeds on any entries that hold a record's fields. */
  lemma ConstructOf(e: map<string, Entry>, s: SchedulingOptions)
    requires e.Keys <= FieldNames && Required <= e.Keys
    requires e["disable"] == Wire(Bool(s.disable))
    requires e["time_sensitive"] == Wire(Bool(s.timeSensitive))
    requires e["triggerable"] == Wire(Bool(s.triggerable))
    requires EntryGet(e, "history_limit") == Wire(OptInt(s.historyLimit))
    requires EntryGet(e, "recurrence") == Wire(s.recurrence)
    requires EntryGet(e, "start_date") == if s.startDate.Some? then Moment(s.startDate.value) else Wire(Null)
    ensures Construct(e) == Ok(s)
  {
  }

  /** The entries of what `to_json` wrote, other than the start date. */
  lemma LiftToJson(s: SchedulingOptions)
    ensures var e := Lift(ToJson(s));
      && e.Keys <= FieldNames && Required <= e.Keys && "start_date" in e
      && e["disable"] == Wire(Bool(s.disable))
      && e["time_sensitive"] == Wire(Bool(s.timeSensitive))
      && e["triggerable"] == Wire(Bool(s.triggerable))
      && EntryGet(e, "history_limit") == Wire(OptInt(Normalize(s).historyLimit))
      && EntryGet(e, "recurrence") == Wire(Normalize(s).recurrence)
  {
  }

  /** `from_dict(to_json(s))` gives back `s` with the popped keys at their
      defaults. */
  lemma FromWireToJson(s: SchedulingOptions)
    ensures FromWire(ToJson(s)) == Ok(Normalize(s))
  {
    var d := ToJson(s);
    var e := Lift(d);
    LiftToJson(s);
    if s.startDate.Some? {
      assert ConvertsStartDate(e);
      var converted := e["start_date" := Moment(DateTime(d["start_date"].s))];
      assert FromEntries(e).0 == Construct(converted);
      ConstructOf(converted, Normalize(s));
    } else {
      assert !EntryTruthy(e["start_date"]);
      ConstructOf(e, Normalize(s));
    }
  }

  /** The round trip is exact precisely when the history limit is not 0 and
      the recurrence is truthy or None. */
  lemma RoundTripExact(s: SchedulingOptions)
    ensures FromWire(ToJson(s)) == Ok(s) <==> s.historyLimit != Some(0) && (s.recurrence == Null || Truthy(s.recurrence))
  {
    FromWireToJson(s);
  }
}
