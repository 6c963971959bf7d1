/** TypedList: a typed list of resource ids (the `source` of a report). */
module TypedLists {
  import opened Json

  datatype TypedList = TypedList(listType: string, idList: seq<string>, description: Option<string>)

  const FieldNames: set<string> := {"list_type", "id_list", "description"}

  /** `TypedList.from_dict`: `cls(**data)`. */
  function FromDict(d: Fields): (r: Result<TypedList>)
    ensures r.Ok? ==> d.Keys <= FieldNames && "list_type" in d && "id_list" in d
    ensures r.Ok? ==> d["list_type"] == Str(r.value.listType) && AsStrings(d["id_list"]) == Ok(r.value.idList)
    ensures r.Ok? ==> Get(d, "description") == OptString(r.value.description)
  {
    var _ :- CheckKeywords(d.Keys, FieldNames, {"list_type", "id_list"});
    var listType :- AsString(d["list_type"]);
    var ids :- AsStrings(d["id_list"]);
    var description :- AsOptString(Get(d, "description"));
    Ok(TypedList(listType, ids, description))
  }

  /** `dataclasses.asdict`: every field, None as null. */
  function AsDict(t: TypedList): Fields {
    map["list_type" := Str(t.listType), "id_list" := Strings(t.idList), "description" := OptString(t.description)]
  }

  /** `to_json`: asdict with `description` popped when it is None. */
  function ToJson(t: TypedList): (d: Fields)
    ensures "description" in d <==> t.description.Some?
    ensures "list_type" in d && d["list_type"] == Str(t.listType)
    ensures "id_list" in d && AsStrings(d["id_list"]) == Ok(t.idList)
    ensures d.Keys <= FieldNames
  {
    AsStringsOfStrings(t.idList);
    var d := AsDict(t);
    if t.description.None? then d - {"description"} else d
  }

  /** Every record survives `to_json` followed by `from_dict`. */
  lemma FromDictToJson(t: TypedList)
    ensures FromDict(ToJson(t)) == Ok(t)
  {
    AsStringsOfStrings(t.idList);
  }

  /** Every record survives `asdict` followed by `from_dict`. */
  lemma FromDictAsDict(t: TypedList)
    ensures FromDict(AsDict(t)) == Ok(t)
  {
    AsStringsOfStrings(t.idList);
  }

  /** A dict that decodes, and has no `description` or a non-null one, is
      rebuilt exactly by `to_json`. */
  lemma ToJsonFromDict(d: Fields)
    requires FromDict(d).Ok?
    requires "description" in d ==> d["description"] != Null
    ensures ToJson(FromDict(d).value) == d
  {
    var t := FromDict(d).value;
    StringsOfAsStrings(d["id_list"]);
    var e := ToJson(t);
    assert e.Keys == d.Keys;
    forall k | k in d
      ensures e[k] == d[k]
    {
    }
  }
}
