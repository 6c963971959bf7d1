/** Report: a generated report, its template defaulting in `__post_init__`,
    `from_dict` rewriting the caller's dict and `to_json`. */
module Reports {
  import opened Json
  import opened PyDicts
  import TypedLists
  import ReportTemplates

  type ReportTemplate = ReportTemplates.ReportTemplate

  datatype Report = Report(
    download: seq<string>,
    generationDate: DateTime,
    reportId: string,
    status: string,
    source: TypedLists.TypedList,
    template: Option<ReportTemplate>,
    templateId: Option<string>,
    templateName: Option<string>,
    templateType: Option<int>)

  const FieldNames: set<string> := {"download", "generation_date", "report_id", "status", "source",
                                    "template", "template_id", "template_name", "template_type"}
  const Required: set<string> := {"download", "generation_date", "report_id", "status", "source"}

  /** `__post_init__`: with a template, each of `template_id`,
      `template_name` and `template_type` that is None is filled in from it
      (the type with 0); a field already set is never overwritten, and
      without a template nothing changes. */
  function PostInit(r: Report): (p: Report)
    ensures p.(templateId := r.templateId, templateName := r.templateName, templateType := r.templateType) == r
    ensures r.template.None? ==> p == r
    ensures r.templateId.Some? ==> p.templateId == r.templateId
    ensures r.templateName.Some? ==> p.templateName == r.templateName
    ensures r.templateType.Some? ==> p.templateType == r.templateType
    ensures r.template.Some? && r.templateId.None? ==> p.templateId == Some(r.template.value.templateId)
    ensures r.template.Some? && r.templateName.None? ==> p.templateName == Some(r.template.value.name)
    ensures r.template.Some? && r.templateType.None? ==> p.templateType == Some(0)
  {
    if r.template.Some? then
      var t := r.template.value;
      var r := if r.templateId.None? then r.(templateId := Some(t.templateId)) else r;
      var r := if r.templateName.None? then r.(templateName := Some(t.name)) else r;
      if r.templateType.None? then r.(templateType := Some(0)) else r
    else r
  }

  /** Running `__post_init__` on its own result changes nothing more. */
  lemma PostInitIdempotent(r: Report)
    ensures PostInit(PostInit(r)) == PostInit(r)
  {
  }

  /** `TEMPLATE_MAP.get(template_id, None)` for a template id a record holds. */
  function TemplateFor(id: Option<string>): (t: Option<ReportTemplate>)
    ensures t.Some? <==> id.Some? && id.value in ReportTemplates.TemplateMap
    ensures t.Some? ==> t.value.templateId == id.value
  {
    ReportTemplates.TemplateMapKeys();
    if id.Some? && id.value in ReportTemplates.TemplateMap then Some(ReportTemplates.TemplateMap[id.value]) else None
  }

  /** `TEMPLATE_MAP.get(data.get("template_id"), None)` on whatever the dict
      holds: a string id is looked up, a list, a dict or a dataclass instance
      is unhashable (TypeError), anything else is simply not found. */
  function LookupTemplate(id: Entry): (r: Result<Option<ReportTemplate>>)
    ensures r.Fail? <==> id.Listing? || id.Template? || (id.Wire? && (id.v.Array? || id.v.Object?))
    ensures r.Ok? && id.Wire? && id.v.Str? ==> r.value == TemplateFor(Some(id.v.s))
    ensures r.Ok? && !(id.Wire? && id.v.Str?) ==> r.value.None?
  {
    match id
    case Wire(Str(s)) => Ok(TemplateFor(Some(s)))
    case Wire(Array(_)) => Fail(TypeError("unhashable type: 'list'"))
    case Wire(Object(_)) => Fail(TypeError("unhashable type: 'dict'"))
    case Listing(_) => Fail(TypeError("unhashable type: 'TypedList'"))
    case Template(_) => Fail(TypeError("unhashable type: 'ReportTemplate'"))
    case _ => Ok(None)
  }

  /** `cls(**data)` followed by `__post_init__`, on entries that already hold
      the converted date, source and template. */
  function Construct(e: map<string, Entry>): (r: Result<Report>)
    ensures r.Ok? ==> e.Keys <= FieldNames && Required <= e.Keys
    ensures r.Ok? ==> e["generation_date"] == Moment(r.value.generationDate)
    ensures r.Ok? ==> e["source"] == Listing(r.value.source)
    ensures r.Ok? ==> e["report_id"] == Wire(Str(r.value.reportId)) && e["status"] == Wire(Str(r.value.status))
    ensures r.Ok? ==> e["download"] == Wire(Strings(r.value.download))
    ensures r.Ok? ==>
      || EntryGet(e, "template_id") == Wire(OptString(r.value.templateId))
      || (EntryGet(e, "template_id") == Wire(Null) && r.value.template.Some? && r.value.templateId == Some(r.value.template.value.templateId))
    ensures r.Ok? ==>
      || EntryGet(e, "template_name") == Wire(OptString(r.value.templateName))
      || (EntryGet(e, "template_name") == Wire(Null) && r.value.template.Some? && r.value.templateName == Some(r.value.template.value.name))
    ensures r.Ok? ==>
      || EntryGet(e, "template_type") == Wire(OptInt(r.value.templateType))
      || (EntryGet(e, "template_type") == Wire(Null) && r.value.template.Some? && r.value.templateType == Some(0))
    ensures r.Ok? ==> (r.value.template.None? <==> EntryGet(e, "template") == Wire(Null))
    ensures r.Ok? && r.value.template.Some? ==> e["template"] == Template(r.value.template.value)
    ensures r.Ok? ==> PostInit(r.value) == r.value
  {
    var _ :- CheckKeywords(e.Keys, FieldNames, Required);
    var required :- RequiredFields(e);
    var optional :- OptionalFields(e);
    var (download, date, reportId, status, source) := required;
    var (template, templateId, templateName, templateType) := optional;
    Ok(PostInit(Report(download, date, reportId, status, source, template, templateId, templateName, templateType)))
  }

  /** The checks `cls(**data)` makes of the five required arguments, in
      field order. */
  function RequiredFields(e: map<string, Entry>): (r: Result<(seq<string>, DateTime, string, string, TypedLists.TypedList)>)
    requires Required <= e.Keys
    ensures r.Ok? ==> e["generation_date"] == Moment(r.value.1) && e["source"] == Listing(r.value.4)
    ensures r.Ok? ==> e["report_id"] == Wire(Str(r.value.2)) && e["status"] == Wire(Str(r.value.3))
    ensures r.Ok? ==> e["download"] == Wire(Strings(r.value.0))
  {
    var download0 :- WireValue(e["download"]);
    var download :- AsStrings(download0);
    StringsOfAsStrings(download0);
    var date :- if e["generation_date"].Moment? then Ok(e["generation_date"].t) else Fail(TypeError("generation_date is not a datetime"));
    var reportId :- WireValue(e["report_id"]);
    var reportId :- AsString(reportId);
    var status :- WireValue(e["status"]);
    var status :- AsString(status);
    var source :- if e["source"].Listing? then Ok(e["source"].list) else Fail(TypeError("source is not a TypedList"));
    Ok((download, date, reportId, status, source))
  }

  /** The checks of the four optional arguments, absent ones as None. */
  function OptionalFields(e: map<string, Entry>): (r: Result<(Option<ReportTemplate>, Option<string>, Option<string>, Option<int>)>)
    ensures r.Ok? ==> (r.value.0.None? <==> EntryGet(e, "template") == Wire(Null))
    ensures r.Ok? && r.value.0.Some? ==> EntryGet(e, "template") == Template(r.value.0.value)
    ensures r.Ok? ==> EntryGet(e, "template_id") == Wire(OptString(r.value.1))
    ensures r.Ok? ==> EntryGet(e, "template_name") == Wire(OptString(r.value.2))
    ensures r.Ok? ==> EntryGet(e, "template_type") == Wire(OptInt(r.value.3))
  {
    var template :- match EntryGet(e, "template")
      case Template(t) => Ok(Some(t))
      case Wire(Null) => Ok(None)
      case _ => Fail(TypeError("template is not a ReportTemplate"));
    var templateId :- WireValue(EntryGet(e, "template_id"));
    var templateId :- AsOptString(templateId);
    var templateName :- WireValue(EntryGet(e, "template_name"));
    var templateName :- AsOptString(templateName);
    var templateType :- WireValue(EntryGet(e, "template_type"));
    var templateType :- AsOptInt(templateType);
    Ok((template, templateId, templateName, templateType))
  }

  /** `data["generation_date"] = datetime.fromisoformat(data["generation_date"])`. */
  function ConvertDate(e: map<string, Entry>): (out: (Result<()>, map<string, Entry>))
    ensures out.1.Keys == e.Keys
    ensures forall k :: k in e && k != "generation_date" ==> out.1[k] == e[k]
    ensures out.0.Ok? <==> "generation_date" in e && e["generation_date"].Wire? && e["generation_date"].v.Str? && e["generation_date"].v.s != []
    ensures out.0.Ok? ==> out.1["generation_date"] == Moment(DateTime(e["generation_date"].v.s))
    ensures out.0.Fail? ==> out.1 == e
  {
    if "generation_date" !in e then (Fail(KeyError("generation_date")), e)
    else
      var date := e["generation_date"];
      if !(date.Wire? && date.v.Str?) then (Fail(TypeError("fromisoformat: argument must be str")), e)
      else if date.v.s == [] then (Fail(ValueError("Invalid isoformat string")), e)
      else (Ok(()), e["generation_date" := Moment(DateTime(date.v.s))])
  }

  /** `data["source"] = TypedList.from_dict(data["source"])`. */
  function ConvertSource(e: map<string, Entry>): (out: (Result<()>, map<string, Entry>))
    ensures out.1.Keys == e.Keys
    ensures forall k :: k in e && k != "source" ==> out.1[k] == e[k]
    ensures out.0.Ok? <==> "source" in e && e["source"].Wire? && e["source"].v.Object? && TypedLists.FromDict(e["source"].v.fields).Ok?
    ensures out.0.Ok? ==> out.1["source"] == Listing(TypedLists.FromDict(e["source"].v.fields).value)
    ensures out.0.Fail? ==> out.1 == e
  {
    if "source" !in e then (Fail(KeyError("source")), e)
    else
      var source := e["source"];
      if !(source.Wire? && source.v.Object?) then (Fail(TypeError("argument after ** must be a mapping")), e)
      else
        match TypedLists.FromDict(source.v.fields)
        case Fail(err) => (Fail(err), e)
        case Ok(list) => (Ok(()), e["source" := Listing(list)])
  }

  /** The entry `setdefault` stores for a looked-up template: the instance,
      or None. */
  function TemplateEntry(t: Option<ReportTemplate>): Entry {
    if t.Some? then Template(t.value) else Wire(Null)
  }

  /** `data.setdefault("template", TEMPLATE_MAP.get(data.get("template_id"), None))`:
      the default is looked up, and can raise, even when `template` is present. */
  function DefaultTemplate(e: map<string, Entry>): (out: (Result<()>, map<string, Entry>))
    ensures out.0.Ok? <==> LookupTemplate(EntryGet(e, "template_id")).Ok?
    ensures out.1.Keys == e.Keys + (if out.0.Ok? then {"template"} else {})
    ensures forall k :: k in e ==> out.1[k] == e[k]
    ensures out.0.Ok? && "template" !in e ==>
      var t := LookupTemplate(EntryGet(e, "template_id")).value;
      out.1["template"] == TemplateEntry(t)
  {
    match LookupTemplate(EntryGet(e, "template_id"))
    case Fail(err) => (Fail(err), e)
    case Ok(t) =>
      (Ok(()), if "template" in e then e else e["template" := TemplateEntry(t)])
  }

  /** The three rewrites `from_dict` makes in the caller's dict, in order:
      the generation date is converted, then the source, then `template` is
      set by `setdefault`. Each step can raise, leaving the earlier rewrites
      in place. */
  function Rewrite(e: map<string, Entry>): (out: (Result<()>, map<string, Entry>))
    ensures out.1.Keys == e.Keys + (if out.0.Ok? then {"template"} else {})
    ensures forall k :: k in e && k !in {"generation_date", "source", "template"} ==> out.1[k] == e[k]
    ensures "template" in e ==> out.1["template"] == e["template"]
  {
    var (dated, e1) := ConvertDate(e);
    if dated.Fail? then (dated, e1)
    else
      var (sourced, e2) := ConvertSource(e1);
      if sourced.Fail? then (sourced, e2)
      else DefaultTemplate(e2)
  }

  /** `Report.from_dict`: the result, and the caller's dict afterwards. */
  function FromEntries(e: map<string, Entry>): (out: (Result<Report>, map<string, Entry>))
    ensures out.1 == Rewrite(e).1
    ensures Rewrite(e).0.Fail? ==> out.0 == Fail(Rewrite(e).0.error)
    ensures Rewrite(e).0.Ok? ==> out.0 == Construct(Rewrite(e).1)
  {
    var (ok, after) := Rewrite(e);
    if ok.Fail? then (Fail(ok.error), after) else (Construct(after), after)
  }

  /** `Report.from_dict(data)`. */
  method FromDict(data: Dict) returns (r: Result<Report>)
    modifies data
    ensures (r, data.entries) == FromEntries(old(data.entries))
  {
    if "generation_date" !in data.entries {
      return Fail(KeyError("generation_date"));
    }
    var date := data.entries["generation_date"];
    if !(date.Wire? && date.v.Str?) {
      return Fail(TypeError("fromisoformat: argument must be str"));
    }
    var moment := FromIsoFormat(date.v.s);
    if moment.Fail? {
      return Fail(moment.error);
    }
    data.Set("generation_date", Moment(moment.value));
    if "source" !in data.entries {
      return Fail(KeyError("source"));
    }
    var source := data.entries["source"];
    if !(source.Wire? && source.v.Object?) {
      return Fail(TypeError("argument after ** must be a mapping"));
    }
    var list := TypedLists.FromDict(source.v.fields);
    if list.Fail? {
      return Fail(list.error);
    }
    data.Set("source", Listing(list.value));
    var t := LookupTemplate(EntryGet(data.entries, "template_id"));
    if t.Fail? {
      return Fail(t.error);
    }
    data.SetDefault("template", TemplateEntry(t.value));
    r := Construct(data.entries);
  }

  /** `Report.from_dict(response)` on a response body: a JSON object
      becomes a fresh dict that FromDict rewrites; anything else cannot be
      indexed by key. */
  method DecodeFresh(v: Value) returns (r: Result<Report>)
    ensures r == DecodeReportValue(v)
  {
    if !v.Object? {
      return Fail(TypeError("indices must be integers"));
    }
    var data := new Dict(v.fields);
    r := FromDict(data);
  }

  /** `Report.from_dict` on a JSON object fresh off the wire. */
  function DecodeReport(d: Fields): Result<Report> {
    FromEntries(Lift(d)).0
  }

  /** `Report.from_dict` on any decoded JSON value: indexing anything but a
      dict with a string raises TypeError. */
  function DecodeReportValue(v: Value): (r: Result<Report>)
    ensures !v.Object? ==> r.Fail?
    ensures v.Object? ==> r == DecodeReport(v.fields)
  {
    if v.Object? then DecodeReport(v.fields) else Fail(TypeError("indices must be integers"))
  }

  /** `to_json`: `asdict` (the source as a plain dict, its description kept
      even when None), the date as ISO text, and no `template` key. */
  function ToJson(r: Report): (d: Fields)
    ensures "template" !in d
    ensures d.Keys == FieldNames - {"template"}
    ensures d["generation_date"] == Str(IsoFormat(r.generationDate))
    ensures d["source"] == Object(TypedLists.AsDict(r.source))
    ensures d["report_id"] == Str(r.reportId) && d["status"] == Str(r.status)
    ensures AsStrings(d["download"]) == Ok(r.download)
    ensures d["template_id"] == OptString(r.templateId) && d["template_name"] == OptString(r.templateName)
    ensures d["template_type"] == OptInt(r.templateType)
  {
    AsStringsOfStrings(r.download);
    map[
      "download" := Strings(r.download),
      "generation_date" := Str(IsoFormat(r.generationDate)),
      "report_id" := Str(r.reportId),
      "status" := Str(r.status),
      "source" := Object(TypedLists.AsDict(r.source)),
      "template_id" := OptString(r.templateId),
      "template_name" := OptString(r.templateName),
      "template_type" := OptInt(r.templateType)]
  }

  /** On success `from_dict` has left the converted date and source, and the
      template it used, in the caller's dict; every other key is as it was. */
  lemma FromDictRewrites(e: map<string, Entry>)
    requires FromEntries(e).0.Ok?
    ensures var (r, after) := FromEntries(e);
      && after.Keys == e.Keys + {"template"}
      && after["generation_date"] == Moment(r.value.generationDate)
      && after["source"] == Listing(r.value.source)
      && (forall k :: k in e && k !in {"generation_date", "source", "template"} ==> after[k] == e[k])
  {
  }

  /** Without a `template` key the template is `TEMPLATE_MAP[template_id]`,
      or None for a missing, null or unknown id; an explicit template is kept
      whatever `template_id` says. */
  lemma TemplateDefaulting(e: map<string, Entry>)
    requires FromEntries(e).0.Ok?
    ensures var r := FromEntries(e).0.value;
      && ("template" !in e ==> r.template == TemplateFor(r.templateId))
      && ("template" in e ==> (e["template"] == Wire(Null) && r.template.None?) || e["template"] == Template(r.template.value))
  {
    var after := Rewrite(e).1;
    var r := Construct(after).value;
    if "template" !in e {
      RewriteDefault(e);
      ConstructTemplateId(after);
      LookupOptString(r.templateId);
    }
  }

  /** Without a `template` key, the rewrites store the looked-up default and
      leave `template_id` as it was. */
  lemma RewriteDefault(e: map<string, Entry>)
    requires Rewrite(e).0.Ok? && "template" !in e
    ensures var after := Rewrite(e).1;
      var t := LookupTemplate(EntryGet(e, "template_id"));
      && t.Ok?
      && "template" in after
      && after["template"] == TemplateEntry(t.value)
      && EntryGet(after, "template_id") == EntryGet(e, "template_id")
  {
    var (_, e1) := ConvertDate(e);
    var (_, e2) := ConvertSource(e1);
    assert EntryGet(e2, "template_id") == EntryGet(e, "template_id");
  }

  /** The record keeps the `template_id` it was given, unless that was null
      and a template fills it in. */
  lemma ConstructTemplateId(e: map<string, Entry>)
    requires Construct(e).Ok?
    ensures var r := Construct(e).value;
      EntryGet(e, "template_id") == Wire(OptString(r.templateId)) || (EntryGet(e, "template_id") == Wire(Null) && r.template.Some?)
  {
  }

  lemma LookupOptString(id: Option<string>)
    ensures LookupTemplate(Wire(OptString(id))) == Ok(TemplateFor(id))
  {
  }

  /** The caller's dict cannot be decoded a second time: its generation date
      is no longer a string. */
  lemma FromDictTwiceFails(e: map<string, Entry>)
    requires FromEntries(e).0.Ok?
    ensures FromEntries(FromEntries(e).1).0 == Fail(TypeError("fromisoformat: argument must be str"))
  {
    FromDictRewrites(e);
  }

  /** The entries `from_dict` leaves behind when given what `to_json` wrote. */
  function RewrittenJson(r: Report): map<string, Entry> {
    TemplatedJson(r, TemplateEntry(TemplateFor(r.templateId)))
  }

  /** What `to_json` wrote, with its date and source converted and `template`
      set to `t`. */
  function TemplatedJson(r: Report, t: Entry): map<string, Entry> {
    SourcedJson(r)["template" := t]
  }

  /** The entries of what `to_json` wrote that `from_dict` reads first. */
  lemma LiftToJson(r: Report)
    ensures var e := Lift(ToJson(r));
      && e["generation_date"] == Wire(Str(r.generationDate.iso))
      && e["source"] == Wire(Object(TypedLists.AsDict(r.source)))
      && "template" !in e
      && EntryGet(e, "template_id") == Wire(OptString(r.templateId))
  {
  }

  /** What `to_json` wrote, with its date converted; then with its source
      converted too. */
  function DatedJson(r: Report): map<string, Entry> {
    Lift(ToJson(r))["generation_date" := Moment(r.generationDate)]
  }

  function SourcedJson(r: Report): map<string, Entry> {
    DatedJson(r)["source" := Listing(r.source)]
  }

  lemma ConvertDateToJson(r: Report)
    ensures ConvertDate(Lift(ToJson(r))) == (Ok(()), DatedJson(r))
  {
    LiftToJson(r);
  }

  lemma ConvertSourceToJson(r: Report)
    ensures ConvertSource(DatedJson(r)) == (Ok(()), SourcedJson(r))
  {
    LiftToJson(r);
    TypedLists.FromDictAsDict(r.source);
  }

  lemma DefaultTemplateToJson(r: Report)
    ensures DefaultTemplate(SourcedJson(r)) == (Ok(()), RewrittenJson(r))
  {
    LiftToJson(r);
    assert EntryGet(SourcedJson(r), "template_id") == Wire(OptString(r.templateId));
  }

  lemma RewriteToJson(r: Report)
    ensures Rewrite(Lift(ToJson(r))) == (Ok(()), RewrittenJson(r))
  {
    ConvertDateToJson(r);
    ConvertSourceToJson(r);
    DefaultTemplateToJson(r);
  }

  lemma RewrittenKeys(r: Report)
    ensures RewrittenJson(r).Keys == FieldNames
  {
    assert ToJson(r).Keys == FieldNames - {"template"};
  }

  /** The required entries of what `from_dict` leaves behind: those it
      reads as they were written, and those it converted. */
  lemma RewrittenWrittenEntries(r: Report, t: Entry)
    ensures var e := TemplatedJson(r, t);
      && "download" in e && "report_id" in e && "status" in e
      && e["download"] == Wire(Strings(r.download))
      && e["report_id"] == Wire(Str(r.reportId))
      && e["status"] == Wire(Str(r.status))
  {
    var d := ToJson(r);
    assert "download" in d && "report_id" in d && "status" in d;
    assert d["download"] == Strings(r.download);
  }

  lemma RewrittenConvertedEntries(r: Report, t: Entry)
    ensures var e := TemplatedJson(r, t);
      && "generation_date" in e && "source" in e
      && e["generation_date"] == Moment(r.generationDate)
      && e["source"] == Listing(r.source)
  {
  }

  lemma RequiredFieldsOf(e: map<string, Entry>, r: Report)
    requires "download" in e && "generation_date" in e && "report_id" in e && "status" in e && "source" in e
    requires e["download"] == Wire(Strings(r.download))
    requires e["generation_date"] == Moment(r.generationDate)
    requires e["report_id"] == Wire(Str(r.reportId))
    requires e["status"] == Wire(Str(r.status))
    requires e["source"] == Listing(r.source)
    ensures RequiredFields(e) == Ok((r.download, r.generationDate, r.reportId, r.status, r.source))
  {
    AsStringsOfStrings(r.download);
  }

  lemma RewrittenRequired(r: Report)
    ensures var e := RewrittenJson(r);
      && e.Keys == FieldNames
      && RequiredFields(e) == Ok((r.download, r.generationDate, r.reportId, r.status, r.source))
  {
    RewrittenKeys(r);
    RewrittenWrittenEntries(r, TemplateEntry(TemplateFor(r.templateId)));
    RewrittenConvertedEntries(r, TemplateEntry(TemplateFor(r.templateId)));
    RequiredFieldsOf(RewrittenJson(r), r);
  }

  /** The optional entries of what `from_dict` leaves behind. */
  lemma RewrittenOptionalEntries(r: Report, t: Entry)
    ensures var e := TemplatedJson(r, t);
      && EntryGet(e, "template_id") == Wire(OptString(r.templateId))
      && EntryGet(e, "template_name") == Wire(OptString(r.templateName))
      && EntryGet(e, "template_type") == Wire(OptInt(r.templateType))
  {
    var d := ToJson(r);
    assert Lift(d)["template_id"] == Wire(OptString(r.templateId));
    assert Lift(d)["template_name"] == Wire(OptString(r.templateName));
    assert Lift(d)["template_type"] == Wire(OptInt(r.templateType));
  }

  lemma OptionalFieldsOf(e: map<string, Entry>, template: Option<ReportTemplate>, templateId: Option<string>, templateName: Option<string>, templateType: Option<int>)
    requires EntryGet(e, "template") == TemplateEntry(template)
    requires EntryGet(e, "template_id") == Wire(OptString(templateId))
    requires EntryGet(e, "template_name") == Wire(OptString(templateName))
    requires EntryGet(e, "template_type") == Wire(OptInt(templateType))
    ensures OptionalFields(e) == Ok((template, templateId, templateName, templateType))
  {
  }

  lemma RewrittenOptional(r: Report)
    ensures OptionalFields(RewrittenJson(r)) == Ok((TemplateFor(r.templateId), r.templateId, r.templateName, r.templateType))
  {
    RewrittenOptionalEntries(r, TemplateEntry(TemplateFor(r.templateId)));
    OptionalFieldsOf(RewrittenJson(r), TemplateFor(r.templateId), r.templateId, r.templateName, r.templateType);
  }

  lemma ConstructRewrittenJson(r: Report)
    ensures Construct(RewrittenJson(r)) == Ok(PostInit(r.(template := TemplateFor(r.templateId))))
  {
    RewrittenRequired(r);
    RewrittenOptional(r);
  }

  /** Decoding what `to_json` writes looks the template up again from the id
      and runs `__post_init__` once more. */
  lemma DecodeToJson(r: Report)
    ensures DecodeReport(ToJson(r)) == Ok(PostInit(r.(template := TemplateFor(r.templateId))))
  {
    RewriteToJson(r);
    ConstructRewrittenJson(r);
  }

  /** A report survives `to_json` followed by `from_dict` exactly when its
      template is the one its id names in TEMPLATE_MAP and `__post_init__`
      has nothing left to fill in. */
  lemma RoundTripExact(r: Report)
    ensures DecodeReport(ToJson(r)) == Ok(r) <==> r.template == TemplateFor(r.templateId) && PostInit(r) == r
  {
    DecodeToJson(r);
  }
}
