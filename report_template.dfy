/** ReportTemplate records, the seventeen built-in templates and TEMPLATE_MAP. */
module ReportTemplates {
  import opened Json

  datatype ReportTemplate = ReportTemplate(templateId: string, group: string, name: string, acceptedSources: Option<seq<string>>)

  const FieldNames: set<string> := {"template_id", "group", "name", "accepted_sources"}

  /** `ReportTemplate.from_dict`: `cls(**data)`. */
  function FromDict(d: Fields): (r: Result<ReportTemplate>)
    ensures r.Ok? ==> d.Keys <= FieldNames && {"template_id", "group", "name"} <= d.Keys
    ensures r.Ok? ==> d["template_id"] == Str(r.value.templateId) && d["group"] == Str(r.value.group) && d["name"] == Str(r.value.name)
    ensures r.Ok? ==> (r.value.acceptedSources.None? <==> Get(d, "accepted_sources") == Null)
    ensures r.Ok? && r.value.acceptedSources.Some? ==>
      "accepted_sources" in d && AsStrings(d["accepted_sources"]) == Ok(r.value.acceptedSources.value)
  {
    var _ :- CheckKeywords(d.Keys, FieldNames, {"template_id", "group", "name"});
    var id :- AsString(d["template_id"]);
    var group :- AsString(d["group"]);
    var name :- AsString(d["name"]);
    var sources :- AsOptStrings(Get(d, "accepted_sources"));
    Ok(ReportTemplate(id, group, name, sources))
  }

  /** `dataclasses.asdict`: every field, None as null. */
  function AsDict(t: ReportTemplate): Fields {
    map["template_id" := Str(t.templateId), "group" := Str(t.group), "name" := Str(t.name),
        "accepted_sources" := OptStrings(t.acceptedSources)]
  }

  /** `to_json`: asdict with `accepted_sources` popped when it is None; an
      empty list is kept. */
  function ToJson(t: ReportTemplate): (d: Fields)
    ensures "accepted_sources" in d <==> t.acceptedSources.Some?
    ensures t.acceptedSources == Some([]) ==> d["accepted_sources"] == Array([])
    ensures "template_id" in d && "group" in d && "name" in d
    ensures d["template_id"] == Str(t.templateId) && d["group"] == Str(t.group) && d["name"] == Str(t.name)
    ensures d.Keys <= FieldNames
  {
    var d := AsDict(t);
    if t.acceptedSources.None? then d - {"accepted_sources"} else d
  }

  /** Every record survives `to_json` followed by `from_dict`. */
  lemma FromDictToJson(t: ReportTemplate)
    ensures FromDict(ToJson(t)) == Ok(t)
  {
    if t.acceptedSources.Some? {
      AsStringsOfStrings(t.acceptedSources.value);
    }
  }

  /** A dict with the three required keys that decodes, and has no
      `accepted_sources` or a non-null one, is rebuilt exactly by `to_json`. */
  lemma ToJsonFromDict(d: Fields)
    requires FromDict(d).Ok?
    requires "accepted_sources" in d ==> d["accepted_sources"] != Null
    ensures ToJson(FromDict(d).value) == d
  {
    var t := FromDict(d).value;
    if "accepted_sources" in d {
      StringsOfAsStrings(d["accepted_sources"]);
    }
    var e := ToJson(t);
    assert e.Keys == d.Keys;
  }

  /** The built-in template ids share their first 34 characters and differ
      in the last two digits. */
  const IdPrefix: string := "11111111-1111-1111-1111-1111111111"

  const Developer := ReportTemplate(IdPrefix + "11", "Standart Reports", "Developer", None)
  const Quick := ReportTemplate(IdPrefix + "12", "Standart Reports", "Quick", None)
  const ExecutiveSummary := ReportTemplate(IdPrefix + "13", "Standart Reports", "Executive Summary", None)
  const AffectedItems := ReportTemplate(IdPrefix + "15", "Standart Reports", "Affected Items", None)
  const Comprehensive := ReportTemplate(IdPrefix + "26", "Standart Reports", "Comprehensive (New)", None)
  const Hipaa := ReportTemplate(IdPrefix + "14", "Compliance Reports", "HIPAA", None)
  const ScanComparison := ReportTemplate(IdPrefix + "24", "Compliance Reports", "Scan Comparison", None)
  const CweSansTop25 := ReportTemplate(IdPrefix + "16", "Compliance Reports", "CWE 2011", None)
  const Iso27001 := ReportTemplate(IdPrefix + "17", "Compliance Reports", "ISO 27001", None)
  const NistSp80053 := ReportTemplate(IdPrefix + "18", "Compliance Reports", "NIST SP800 53", None)
  const OwaspTop10In2013 := ReportTemplate(IdPrefix + "19", "Compliance Reports", "OWASP Top 10 2013", None)
  const OwaspTop10In2017 := ReportTemplate(IdPrefix + "25", "Compliance Reports", "OWASP Top 10 2017", None)
  const OwaspTop10In2021 := ReportTemplate(IdPrefix + "27", "Compliance Reports", "OWASP Top 10 2021", None)
  const PciDss32 := ReportTemplate(IdPrefix + "20", "Compliance Reports", "PCI DSS 3.2", None)
  const SarbanesOxley := ReportTemplate(IdPrefix + "21", "Compliance Reports", "Sarbanes Oxley", None)
  const StigDisa := ReportTemplate(IdPrefix + "22", "Compliance Reports", "STIG DISA", None)
  const WascThreatClassification := ReportTemplate(IdPrefix + "23", "Compliance Reports", "WASC Threat Classification", None)

  /** The built-in templates, in the order TEMPLATE_MAP lists them. */
  const BuiltIn: seq<ReportTemplate> := [
    Developer, Quick, ExecutiveSummary, AffectedItems, Comprehensive, Hipaa, ScanComparison,
    CweSansTop25, Iso27001, NistSp80053, OwaspTop10In2013, OwaspTop10In2017, OwaspTop10In2021,
    PciDss32, SarbanesOxley, StigDisa, WascThreatClassification
  ]

  /** A dict display `{t.template_id: t for each t}` evaluated left to
      right: a later entry under the same key replaces an earlier one. */
  function IdMap(ts: seq<ReportTemplate>): (m: map<string, ReportTemplate>)
    ensures forall i :: 0 <= i < |ts| ==> ts[i].templateId in m
    decreases |ts|
  {
    if ts == [] then map[]
    else IdMap(ts[..|ts| - 1])[ts[|ts| - 1].templateId := ts[|ts| - 1]]
  }

  /** TEMPLATE_MAP: each built-in template under its own id. */
  const TemplateMap: map<string, ReportTemplate> := IdMap(BuiltIn)

  /** Every key of an id map is the id of the template stored under it, and
      the keys are exactly the ids listed. */
  lemma {:induction false} IdMapKeys(ts: seq<ReportTemplate>)
    ensures forall id :: id in IdMap(ts) ==> IdMap(ts)[id].templateId == id
    ensures forall id :: id in IdMap(ts) ==> exists i :: 0 <= i < |ts| && ts[i].templateId == id
    decreases |ts|
  {
    if ts != [] {
      var init := ts[..|ts| - 1];
      IdMapKeys(init);
      forall id | id in IdMap(ts)
        ensures exists i :: 0 <= i < |ts| && ts[i].templateId == id
      {
        assert IdMap(ts) == IdMap(init)[ts[|ts| - 1].templateId := ts[|ts| - 1]];
        if id != ts[|ts| - 1].templateId {
          var i :| 0 <= i < |init| && init[i].templateId == id;
          assert ts[i] == init[i];
        }
      }
    }
  }

  /** With pairwise distinct ids nothing is replaced: each template is found
      under its own id. */
  lemma {:induction false} IdMapDistinct(ts: seq<ReportTemplate>)
    requires forall i, j :: 0 <= i < j < |ts| ==> ts[i].templateId != ts[j].templateId
    ensures forall i :: 0 <= i < |ts| ==> IdMap(ts)[ts[i].templateId] == ts[i]
    decreases |ts|
  {
    if ts != [] {
      var init := ts[..|ts| - 1];
      IdMapDistinct(init);
      forall i | 0 <= i < |ts|
        ensures IdMap(ts)[ts[i].templateId] == ts[i]
      {
        if i < |init| {
          assert ts[i] == init[i];
        }
      }
    }
  }

  /** What follows the shared prefix of a built-in id. */
  function IdSuffix(id: string): string {
    if |id| < |IdPrefix| then id else id[|IdPrefix|..]
  }

  /** With pairwise distinct ids the map has one entry per template. */
  lemma {:induction false} IdMapSize(ts: seq<ReportTemplate>)
    requires forall i, j :: 0 <= i < j < |ts| ==> ts[i].templateId != ts[j].templateId
    ensures |IdMap(ts)| == |ts|
    decreases |ts|
  {
    if ts != [] {
      var init := ts[..|ts| - 1];
      var last := ts[|ts| - 1];
      IdMapSize(init);
      IdMapKeys(init);
      assert last.templateId !in IdMap(init);
      assert IdMap(ts) == IdMap(init)[last.templateId := last];
    }
  }

  /** The place in BuiltIn of the template whose id ends in `suffix`. */
  function SuffixPosition(suffix: string): int {
    var n := if |suffix| != 2 then 0 else (suffix[0] as int - '0' as int) * 10 + (suffix[1] as int - '0' as int);
    if n == 11 then 0 else if n == 12 then 1 else if n == 13 then 2
    else if n == 15 then 3 else if n == 26 then 4 else if n == 14 then 5
    else if n == 24 then 6 else if n == 16 then 7 else if n == 17 then 8
    else if n == 18 then 9 else if n == 19 then 10 else if n == 25 then 11
    else if n == 27 then 12 else if n == 20 then 13 else if n == 21 then 14
    else if n == 22 then 15 else if n == 23 then 16 else -1
  }

  lemma SuffixOf(x: string)
    ensures IdSuffix(IdPrefix + x) == x
  {
    assert (IdPrefix + x)[|IdPrefix|..] == x;
  }

  /** Each built-in id, read back through its last two digits, names its
      own place in BuiltIn; shown a few places at a time to keep each proof
      small. */
  lemma PositionsFirst()
    ensures forall i | 0 <= i < 6 :: SuffixPosition(IdSuffix(BuiltIn[i].templateId)) == i
  {
    SuffixOf("11"); SuffixOf("12"); SuffixOf("13"); SuffixOf("15"); SuffixOf("26"); SuffixOf("14");
  }

  lemma PositionsMiddle()
    ensures forall i | 6 <= i < 12 :: SuffixPosition(IdSuffix(BuiltIn[i].templateId)) == i
  {
    SuffixOf("24"); SuffixOf("16"); SuffixOf("17"); SuffixOf("18"); SuffixOf("19"); SuffixOf("25");
  }

  lemma PositionsLast()
    ensures forall i | 12 <= i < 17 :: SuffixPosition(IdSuffix(BuiltIn[i].templateId)) == i
  {
    SuffixOf("27"); SuffixOf("20"); SuffixOf("21"); SuffixOf("22"); SuffixOf("23");
  }

  lemma BuiltInPositions()
    ensures |BuiltIn| == 17
    ensures forall i | 0 <= i < |BuiltIn| :: SuffixPosition(IdSuffix(BuiltIn[i].templateId)) == i
  {
    PositionsFirst();
    PositionsMiddle();
    PositionsLast();
  }

  /** The seventeen built-in templates have pairwise distinct ids, so none
      shadows another in TEMPLATE_MAP. */
  lemma BuiltInIdsDistinct()
    ensures forall i, j :: 0 <= i < j < |BuiltIn| ==> BuiltIn[i].templateId != BuiltIn[j].templateId
  {
    BuiltInPositions();
  }

  /** Every key of TEMPLATE_MAP is its template's own id, every key is a
      built-in id, each built-in template is found under its id, and there
      are seventeen entries. */
  lemma TemplateMapKeys()
    ensures forall id :: id in TemplateMap ==> TemplateMap[id].templateId == id
    ensures forall id :: id in TemplateMap ==> exists i :: 0 <= i < |BuiltIn| && BuiltIn[i].templateId == id
    ensures forall i :: 0 <= i < |BuiltIn| ==> TemplateMap[BuiltIn[i].templateId] == BuiltIn[i]
    ensures |TemplateMap| == 17
  {
    IdMapKeys(BuiltIn);
    BuiltInIdsDistinct();
    IdMapDistinct(BuiltIn);
    IdMapSize(BuiltIn);
    BuiltInPositions();
  }
}
