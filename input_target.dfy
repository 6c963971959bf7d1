/** InputTarget: the address and optional description a new target is created from. */
module InputTargets {
  import opened Json

  datatype InputTarget = InputTarget(address: string, description: Option<string>)

  const FieldNames: set<string> := {"address", "description"}

  /** `InputTarget.from_dict`: `cls(**data)`. */
  function FromDict(d: Fields): (r: Result<InputTarget>)
    ensures r.Ok? ==> d.Keys <= FieldNames && "address" in d && d["address"] == Str(r.value.address)
    ensures r.Ok? ==> Get(d, "description") == OptString(r.value.description)
  {
    var _ :- CheckKeywords(d.Keys, FieldNames, {"address"});
    var address :- AsString(d["address"]);
    var description :- AsOptString(Get(d, "description"));
    Ok(InputTarget(address, description))
  }

  /** `to_json`: asdict with `description` popped when it is None. */
  function ToJson(t: InputTarget): (d: Fields)
    ensures "description" in d <==> t.description.Some?
    ensures "address" in d && d["address"] == Str(t.address)
    ensures d.Keys <= FieldNames
  {
    var d := map["address" := Str(t.address), "description" := OptString(t.description)];
    if t.description.None? then d - {"description"} else d
  }

  /** Every record survives `to_json` followed by `from_dict`. */
  lemma FromDictToJson(t: InputTarget)
    ensures FromDict(ToJson(t)) == Ok(t)
  {
  }

  /** A dict that decodes, and has no `description` or a non-null one, is
      rebuilt exactly by `to_json`. */
  lemma ToJsonFromDict(d: Fields)
    requires FromDict(d).Ok?
    requires "description" in d ==> d["description"] != Null
    ensures ToJson(FromDict(d).value) == d
  {
    var e := ToJson(FromDict(d).value);
    assert e.Keys == d.Keys;
  }
}
