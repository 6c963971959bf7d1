/** The report methods' logic: the request bodies of `create_report` and
    `delete_reports`, the URI filter and URLs of `download_report`, and the
    order in which `get_report` tries a report id, a scan id and a target. */
module ReportMethods {
  import opened Json
  import opened Errors
  import opened Resources
  import opened Ids
  import opened Requests
  import TypedLists
  import ReportTemplates
  import Reports

  type Report = Reports.Report

  /** The body of `POST reports`: the template's id and the source list,
      sent through its `to_json`. */
  function CreateReportBody(template: Ref<ReportTemplates.ReportTemplate>, source: TypedLists.TypedList): (b: Fields)
    ensures b.Keys == {"template_id", "source"}
    ensures b["template_id"] == Str(InputReportTemplateId(template))
    ensures b["source"].Object? && TypedLists.FromDict(b["source"].fields) == Ok(source)
  {
    TypedLists.FromDictToJson(source);
    map["template_id" := Str(InputReportTemplateId(template)), "source" := Object(TypedLists.ToJson(source))]
  }

  /** `[get_input_report_id(report) for report in reports]`. */
  function ReportIdList(reports: seq<Ref<Report>>): (ids: seq<string>)
    ensures |ids| == |reports|
    ensures forall k :: 0 <= k < |reports| ==> ids[k] == InputReportId(reports[k])
  {
    seq(|reports|, k requires 0 <= k < |reports| => InputReportId(reports[k]))
  }

  /** The body of `POST reports/delete`. */
  function DeleteReportsBody(reports: seq<Ref<Report>>): (b: Fields)
    ensures b.Keys == {"report_id_list"}
    ensures AsStrings(b["report_id_list"]) == Ok(ReportIdList(reports))
  {
    AsStringsOfStrings(ReportIdList(reports));
    map["report_id_list" := Strings(ReportIdList(reports))]
  }

  /** `delete_report(r)` is `delete_reports([r])`: a one-element id list. */
  lemma DeleteOneReport(r: Ref<Report>)
    ensures DeleteReportsBody([r]) == map["report_id_list" := Array([Str(InputReportId(r))])]
  {
    assert Strings(ReportIdList([r])).items == [Str(InputReportId(r))];
  }

  /** `str.endswith`. */
  predicate EndsWith(s: string, suffix: string) {
    |suffix| <= |s| && s[|s| - |suffix|..] == suffix
  }

  /** The filter of `download_report`: with "both" every URI is fetched,
      otherwise only those ending in "." followed by the requested kind. */
  predicate Wanted(kind: string, uri: string) {
    kind == "both" || EndsWith(uri, "." + kind)
  }

  /** The URIs `download_report` fetches, in the report's order. */
  function KeptUris(uris: seq<string>, kind: string): (kept: seq<string>)
    ensures |kept| <= |uris|
    decreases |uris|
  {
    if uris == [] then []
    else
      var rest := KeptUris(uris[..|uris| - 1], kind);
      if Wanted(kind, uris[|uris| - 1]) then rest + [uris[|uris| - 1]] else rest
  }

  /** A URI is fetched exactly when it is in the report and wanted. */
  lemma {:induction false} KeptUrisMembers(uris: seq<string>, kind: string, u: string)
    ensures u in KeptUris(uris, kind) <==> u in uris && Wanted(kind, u)
    decreases |uris|
  {
    if uris != [] {
      var init := uris[..|uris| - 1];
      KeptUrisMembers(init, kind, u);
      assert uris == init + [uris[|uris| - 1]];
    }
  }

  /** The filter keeps order: filtering two runs of URIs one after the other
      gives the two filtered runs one after the other. */
  lemma {:induction false} KeptUrisAppend(a: seq<string>, b: seq<string>, kind: string)
    ensures KeptUris(a + b, kind) == KeptUris(a, kind) + KeptUris(b, kind)
    decreases |b|
  {
    if b == [] {
      assert a + b == a;
    } else {
      var init := b[..|b| - 1];
      assert (a + b)[..|a + b| - 1] == a + init;
      KeptUrisAppend(a, init, kind);
    }
  }

  /** With "both" nothing is dropped. */
  lemma {:induction false} KeptUrisBoth(uris: seq<string>)
    ensures KeptUris(uris, "both") == uris
    decreases |uris|
  {
    if uris != [] {
      KeptUrisBoth(uris[..|uris| - 1]);
    }
  }

  /** `f"https://{endpoint}{uri}"`. */
  function DownloadUrl(endpoint: string, uri: string): string {
    "https://" + endpoint + uri
  }

  function DownloadUrls(endpoint: string, uris: seq<string>): (urls: seq<string>)
    ensures |urls| == |uris|
    ensures forall k :: 0 <= k < |uris| ==> urls[k] == DownloadUrl(endpoint, uris[k])
  {
    seq(|uris|, k requires 0 <= k < |uris| => DownloadUrl(endpoint, uris[k]))
  }

  /** The loop of `download_report`: one URL per wanted URI, in order. */
  method CollectDownloads(endpoint: string, uris: seq<string>, kind: string) returns (urls: seq<string>)
    ensures urls == DownloadUrls(endpoint, KeptUris(uris, kind))
  {
    urls := [];
    var i := 0;
    while i < |uris|
      invariant 0 <= i <= |uris|
      invariant urls == DownloadUrls(endpoint, KeptUris(uris[..i], kind))
    {
      assert uris[..i + 1][..i] == uris[..i];
      if Wanted(kind, uris[i]) {
        urls := urls + [DownloadUrl(endpoint, uris[i])];
      }
      i := i + 1;
    }
    assert uris[..i] == uris;
  }

  /** `get_input_target_id(target) in report.source.id_list`; a target
      without an id matches no report. */
  predicate Matches(r: Report, targetId: Option<string>) {
    targetId.Some? && targetId.value in r.source.idList
  }

  /** The first report in listing order whose source names the target. */
  function FirstMatch(reports: seq<Report>, targetId: Option<string>): Option<Report>
    decreases |reports|
  {
    if reports == [] then None
    else if Matches(reports[0], targetId) then Some(reports[0])
    else FirstMatch(reports[1..], targetId)
  }

  /** FirstMatch finds a report exactly when one matches, and what it finds
      matches and comes before every other match. */
  lemma {:induction false} FirstMatchSpec(reports: seq<Report>, targetId: Option<string>)
    ensures FirstMatch(reports, targetId).None? <==> forall k :: 0 <= k < |reports| ==> !Matches(reports[k], targetId)
    ensures FirstMatch(reports, targetId).Some? ==>
      exists k :: 0 <= k < |reports| && reports[k] == FirstMatch(reports, targetId).value
        && Matches(reports[k], targetId) && forall j :: 0 <= j < k ==> !Matches(reports[j], targetId)
    decreases |reports|
  {
    if reports != [] && !Matches(reports[0], targetId) {
      var rest := reports[1..];
      FirstMatchSpec(rest, targetId);
      assert forall k :: 1 <= k < |reports| ==> reports[k] == rest[k - 1];
      if FirstMatch(rest, targetId).Some? {
        var k :| 0 <= k < |rest| && rest[k] == FirstMatch(rest, targetId).value
          && Matches(rest[k], targetId) && forall j :: 0 <= j < k ==> !Matches(rest[j], targetId);
        assert reports[k + 1] == rest[k];
      }
    } else if reports != [] {
      assert reports[0] == FirstMatch(reports, targetId).value;
    }
  }

  lemma {:induction false} FirstMatchSkip(reports: seq<Report>, targetId: Option<string>, i: nat)
    requires i <= |reports|
    requires forall j :: 0 <= j < i ==> !Matches(reports[j], targetId)
    ensures FirstMatch(reports, targetId) == FirstMatch(reports[i..], targetId)
    decreases i
  {
    if i > 0 {
      FirstMatchSkip(reports[1..], targetId, i - 1);
      assert reports[1..][i - 1..] == reports[i..];
    }
  }

  /** The `for _report in reports` loop of `get_report`. */
  method FindReportForTarget(reports: seq<Report>, targetId: Option<string>) returns (found: Option<Report>)
    ensures found == FirstMatch(reports, targetId)
  {
    var i := 0;
    while i < |reports|
      invariant 0 <= i <= |reports|
      invariant forall j :: 0 <= j < i ==> !Matches(reports[j], targetId)
    {
      if Matches(reports[i], targetId) {
        FirstMatchSkip(reports, targetId, i);
        return Some(reports[i]);
      }
      i := i + 1;
    }
    FirstMatchSkip(reports, targetId, i);
    return None;
  }

  /** A list comprehension over `decode`: the first item that fails to
      decode fails the whole list. */
  function DecodeEach<T>(items: seq<Value>, decode: Value -> Result<T>): (r: Result<seq<T>>)
    ensures r.Ok? ==> |r.value| == |items|
    ensures r.Ok? ==> forall k :: 0 <= k < |items| ==> decode(items[k]) == Ok(r.value[k])
    ensures r.Ok? <==> forall k :: 0 <= k < |items| ==> decode(items[k]).Ok?
    decreases |items|
  {
    if items == [] then Ok([])
    else
      var first :- decode(items[0]);
      var rest :- DecodeEach(items[1..], decode);
      assert forall k :: 1 <= k < |items| ==> items[k] == items[1..][k - 1];
      Ok([first] + rest)
  }

  /** `[Report.from_dict(report) for report in items]`. */
  function DecodeReports(items: seq<Value>): (r: Result<seq<Report>>)
    ensures r.Ok? ==> |r.value| == |items|
    ensures r.Ok? ==> forall k :: 0 <= k < |items| ==> Reports.DecodeReportValue(items[k]) == Ok(r.value[k])
    ensures r.Ok? <==> forall k :: 0 <= k < |items| ==> Reports.DecodeReportValue(items[k]).Ok?
  {
    DecodeEach(items, Reports.DecodeReportValue)
  }

  /** `(await self.request("GET", "reports"))["reports"]`, iterated and
      decoded. A list is decoded item by item; an empty dict or string holds
      no reports; iterating a non-empty one yields strings, and
      Report.from_dict fails on the first as on any body that is not a dict. */
  function ListingReports(body: Value): (r: Result<seq<Report>>)
    ensures !body.Object? ==> r.Fail? && r.error.TypeError?
    ensures body.Object? && "reports" !in body.fields ==> r == Fail(KeyError("reports"))
    ensures body.Object? && "reports" in body.fields && body.fields["reports"].Array? ==> r == DecodeReports(body.fields["reports"].items)
    ensures body.Object? && "reports" in body.fields && body.fields["reports"] in {Object(map[]), Str([])} ==> r == Ok([])
    ensures body.Object? && "reports" in body.fields && (body.fields["reports"].Object? || body.fields["reports"].Str?) && body.fields["reports"] !in {Object(map[]), Str([])} ==>
      r == Fail(Reports.DecodeReportValue(Str([])).error)
    ensures r.Ok? && r.value != [] ==> body.Object? && "reports" in body.fields && body.fields["reports"].Array?
  {
    if !body.Object? then Fail(TypeError("response is not a dict"))
    else if "reports" !in body.fields then Fail(KeyError("reports"))
    else
      match body.fields["reports"]
      case Array(items) => DecodeReports(items)
      case Object(f) => if f == map[] then Ok([]) else Fail(TypeError("indices must be integers"))
      case Str(text) => if text == [] then Ok([]) else Fail(TypeError("indices must be integers"))
      case _ => Fail(TypeError("object is not iterable"))
  }

  /** A listing whose `reports` is an empty dict or string is searched as no
      reports, so the target search ends in Acunetix404Error. */
  lemma EmptyListingNotFound(endpoint: string, targetId: Option<string>, s: ReportServer)
    requires Classify(s.listing).Body? && Classify(s.listing).value.Object?
    requires "reports" in Classify(s.listing).value.fields
    requires Classify(s.listing).value.fields["reports"] in {Object(map[]), Str([])}
    ensures SearchByTarget(endpoint, targetId, s).0 == ApiFailure(NotFound)
  {
    assert ListingReports(Classify(s.listing).value) == Ok([]);
  }

  /** What `get_report` is given: a report, a scan, a target or a bare id. */
  datatype ReportQuery = OfReport(report: Report) | OfScan(scan: Scan) | OfTarget(target: Target) | OfId(id: string)

  /** `download_report` hands its report id or record to `get_report`. */
  function QueryOf(r: Ref<Report>): (q: ReportQuery)
    ensures r.ById? <==> q.OfId?
    ensures r.ById? ==> q == OfId(r.id)
    ensures r.ByRecord? ==> q == OfReport(r.record)
  {
    if r.ById? then OfId(r.id) else OfReport(r.record)
  }

  /** The scanner's answers to the requests `get_report` may make: the
      report lookup, the scan lookup, and the report listing. Scan.from_dict
      is not part of this model; `scanRecord` is what it makes of the body. */
  datatype ReportServer = ReportServer(direct: Reply, scan: Reply, scanRecord: Result<Scan>, listing: Reply)

  function OutcomeOf<T>(r: Result<T>): Outcome<T> {
    if r.Ok? then Returned(r.value) else PyFailure(r.error)
  }

  const NotFound := ApiError(Acunetix404Error, 404, "Report not found")

  predicate Is404(e: ApiError) {
    e.cls == Acunetix404Error
  }

  /** The target search of `get_report`: list all reports, return the first
      whose source names the target, or raise Acunetix404Error. */
  function SearchByTarget(endpoint: string, targetId: Option<string>, s: ReportServer): (out: (Outcome<Report>, seq<Request>))
    ensures out.1 == [Request(GET, Url(endpoint, "reports"), None)]
  {
    var req := Request(GET, Url(endpoint, "reports"), None);
    match Classify(s.listing)
    case Raised(e) => (ApiFailure(e), [req])
    case Body(v) =>
      match ListingReports(v)
      case Fail(err) => (PyFailure(err), [req])
      case Ok(reports) =>
        var found := FirstMatch(reports, targetId);
        (if found.Some? then Returned(found.value) else ApiFailure(NotFound), [req])
  }

  /** The scan stage: fetch the scan and search by its target. A 404 is
      re-raised for a Scan record or `input_type == "scan"`; for a bare id
      it is swallowed and the next line reads the unbound local `scan`. */
  function SearchByScan(endpoint: string, q: ReportQuery, inputType: Option<string>, s: ReportServer): (out: (Outcome<Report>, seq<Request>))
    requires q.OfScan? || q.OfId?
    ensures |out.1| >= 1 && out.1[0] == Request(GET, Url(endpoint, "scans/" + (if q.OfScan? then q.scan.scanId else q.id)), None)
  {
    var id := if q.OfScan? then q.scan.scanId else q.id;
    var req := Request(GET, Url(endpoint, "scans/" + id), None);
    match Classify(s.scan)
    case Raised(e) =>
      if !Is404(e) || q.OfScan? || inputType == Some("scan") then (ApiFailure(e), [req])
      else (PyFailure(UnboundLocalError("scan")), [req])
    case Body(_) =>
      match s.scanRecord
      case Fail(err) => (PyFailure(err), [req])
      case Ok(scan) =>
        var (o, rs) := SearchByTarget(endpoint, scan.target.targetId, s);
        (o, [req] + rs)
  }

  /** The direct lookup of a report record or a bare id. A 404 there is
      re-raised for a record or `input_type == "report"`; otherwise a bare id
      goes on to the scan stage. */
  function SearchById(endpoint: string, q: ReportQuery, id: string, inputType: Option<string>, s: ReportServer): (out: (Outcome<Report>, seq<Request>))
    requires q.OfReport? || q.OfId?
    ensures |out.1| >= 1 && out.1[0] == Request(GET, Url(endpoint, "reports/" + id), None)
  {
    var req := Request(GET, Url(endpoint, "reports/" + id), None);
    match Classify(s.direct)
    case Body(v) => (OutcomeOf(Reports.DecodeReportValue(v)), [req])
    case Raised(e) =>
      if !Is404(e) || q.OfReport? || inputType == Some("report") then (ApiFailure(e), [req])
      else
        var (o, rs) := SearchByScan(endpoint, q, inputType, s);
        (o, [req] + rs)
  }

  /** `get_report(report, input_type)`: the outcome and the requests made,
      in order. A report record or a bare id is looked up directly first, a
      scan goes to the scan stage, a target straight to the target search. */
  function ResolveReport(endpoint: string, q: ReportQuery, inputType: Option<string>, s: ReportServer): (out: (Outcome<Report>, seq<Request>))
    ensures 1 <= |out.1| <= 3
  {
    match q
    case OfTarget(t) => SearchByTarget(endpoint, t.targetId, s)
    case OfScan(_) => SearchByScan(endpoint, q, inputType, s)
    case OfReport(r) => SearchById(endpoint, q, r.reportId, inputType, s)
    case OfId(id) => SearchById(endpoint, q, id, inputType, s)
  }

  /** A 404 on the direct lookup is re-raised for a report record, or for an
      id when `input_type` is "report": nothing else is requested. */
  lemma ReportNotFoundReraised(endpoint: string, q: ReportQuery, inputType: Option<string>, s: ReportServer)
    requires q.OfReport? || (q.OfId? && inputType == Some("report"))
    requires Classify(s.direct).Raised? && Is404(Classify(s.direct).error)
    ensures ResolveReport(endpoint, q, inputType, s).0 == ApiFailure(Classify(s.direct).error)
    ensures |ResolveReport(endpoint, q, inputType, s).1| == 1
  {
  }

  /** An id that is neither a report nor a scan never reaches the target
      search unless `input_type` says "report" or "scan": reading the
      unbound `scan` raises UnboundLocalError after two requests. */
  lemma IdMissingTwice(endpoint: string, id: string, inputType: Option<string>, s: ReportServer)
    requires inputType != Some("report") && inputType != Some("scan")
    requires Classify(s.direct).Raised? && Is404(Classify(s.direct).error)
    requires Classify(s.scan).Raised? && Is404(Classify(s.scan).error)
    ensures ResolveReport(endpoint, OfId(id), inputType, s)
      == (PyFailure(UnboundLocalError("scan")),
          [Request(GET, Url(endpoint, "reports/" + id), None), Request(GET, Url(endpoint, "scans/" + id), None)])
  {
    var scanStage := SearchByScan(endpoint, OfId(id), inputType, s);
    assert scanStage == (PyFailure(UnboundLocalError("scan")), [Request(GET, Url(endpoint, "scans/" + id), None)]);
    var direct := SearchById(endpoint, OfId(id), id, inputType, s);
    assert direct.0 == scanStage.0;
    assert direct.1 == [Request(GET, Url(endpoint, "reports/" + id), None)] + scanStage.1;
    assert ResolveReport(endpoint, OfId(id), inputType, s) == direct;
    assert direct.1 == [Request(GET, Url(endpoint, "reports/" + id), None), Request(GET, Url(endpoint, "scans/" + id), None)];
  }

  /** A target is looked up by listing: the first report naming its id,
      and Acunetix404Error("Report not found") when none does. */
  lemma TargetSearch(endpoint: string, t: Target, inputType: Option<string>, s: ReportServer, reports: seq<Report>)
    requires Classify(s.listing).Body? && ListingReports(Classify(s.listing).value) == Ok(reports)
    ensures var o := ResolveReport(endpoint, OfTarget(t), inputType, s).0;
      && (o.Returned? <==> exists k :: 0 <= k < |reports| && Matches(reports[k], t.targetId))
      && (o.Returned? ==> Matches(o.value, t.targetId) && o.value in reports)
      && (!o.Returned? ==> o == ApiFailure(NotFound))
  {
    FirstMatchSpec(reports, t.targetId);
  }

  /** The report methods, as written, call `self.request`, an attribute the
      client does not have (it defines `_request`), so the lookup itself
      raises AttributeError before any request is sent. */
  const SelfRequestMissing := AttributeError("request")

  /** `get_report` as written: a report record, a bare id or a target fails
      at the `self.request` lookup (the `except` only catches
      Acunetix404Error). A scan is fetched through `get_scan`, which does use
      `_request`; its target search then fails at `get_reports`. */
  function AsWrittenGetReport(endpoint: string, q: ReportQuery, inputType: Option<string>, s: ReportServer): (out: (Outcome<Report>, seq<Request>))
    ensures !q.OfScan? ==> out == (PyFailure(SelfRequestMissing), [])
    ensures q.OfScan? ==> out.1 == [Request(GET, Url(endpoint, "scans/" + q.scan.scanId), None)]
    ensures q.OfScan? ==> (out.0.ApiFailure? <==> Classify(s.scan).Raised?)
    ensures q.OfScan? && Classify(s.scan).Body? && s.scanRecord.Ok? ==> out.0 == PyFailure(SelfRequestMissing)
  {
    match q
    case OfScan(scan) =>
      var req := Request(GET, Url(endpoint, "scans/" + scan.scanId), None);
      (match Classify(s.scan)
       case Raised(e) => ApiFailure(e)
       case Body(_) => if s.scanRecord.Fail? then PyFailure(s.scanRecord.error) else PyFailure(SelfRequestMissing),
       [req])
    case _ => (PyFailure(SelfRequestMissing), [])
  }

  /** As written, `get_report` never returns a report, whatever the scanner
      answers. The corrected `ResolveReport` sends the lookups through
      `_request`: the requests the code as written sends are a prefix of
      its requests, the two agree wherever they send the same requests, and
      it returns the report whenever the direct lookup of a record or an id
      succeeds. */
  lemma SelfRequestNeverReturns(endpoint: string, q: ReportQuery, inputType: Option<string>, s: ReportServer)
    ensures !AsWrittenGetReport(endpoint, q, inputType, s).0.Returned?
    ensures AsWrittenGetReport(endpoint, q, inputType, s).1 <= ResolveReport(endpoint, q, inputType, s).1
    ensures AsWrittenGetReport(endpoint, q, inputType, s).1 == ResolveReport(endpoint, q, inputType, s).1 ==>
      AsWrittenGetReport(endpoint, q, inputType, s).0 == ResolveReport(endpoint, q, inputType, s).0
    ensures (q.OfReport? || q.OfId?) && Classify(s.direct).Body? && Reports.DecodeReportValue(Classify(s.direct).value).Ok? ==>
      && AsWrittenGetReport(endpoint, q, inputType, s) == (PyFailure(SelfRequestMissing), [])
      && ResolveReport(endpoint, q, inputType, s).0 == Returned(Reports.DecodeReportValue(Classify(s.direct).value).value)
  {
  }
}
