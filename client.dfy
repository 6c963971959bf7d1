/** AcunetixAPI, the client: its construction checks, `connect`, the
    callback registry it owns, one pass of the notification poller, and the
    scan and report methods it inherits, each issuing its requests through
    `_request`. Replies of the scanner are parameters; the requests made and
    the callbacks invoked are recorded in ghost logs. */
module Client {
  import opened Json
  import opened Errors
  import opened Resources
  import opened Ids
  import opened Requests
  import opened Callbacks
  import Scheduling
  import TypedLists
  import ReportTemplates
  import Reports
  import PyDicts
  import ScanMethods
  import ReportMethods

  /** `string.hexdigits`. */
  const HexDigits: string := "0123456789abcdefABCDEF"

  /** The endpoint a client talks to when none is given. */
  const DefaultEndpoint: string := "localhost:3443"

  predicate IsHexKey(apiKey: string) {
    apiKey != [] && forall k :: 0 <= k < |apiKey| ==> apiKey[k] in HexDigits
  }

  /** The constructor's checks, in order: the API key must be non-empty and
      hexadecimal, then the endpoint non-empty. */
  function ConfigError(apiKey: string, endpoint: string): (e: Option<PyError>)
    ensures e.None? <==> IsHexKey(apiKey) && endpoint != []
    ensures !IsHexKey(apiKey) ==> e == Some(ValueError("Invalid API key"))
    ensures IsHexKey(apiKey) && endpoint == [] ==> e == Some(ValueError("Invalid endpoint"))
  {
    if !IsHexKey(apiKey) then Some(ValueError("Invalid API key"))
    else if endpoint == [] then Some(ValueError("Invalid endpoint"))
    else None
  }

  /** How one pass of the poller ends: the whole batch handled, an
      AcunetixAPIError caught (the loop sleeps and polls again), or another
      exception, which escapes the `while True` loop and ends the poller. */
  datatype PollOutcome = Completed | Caught(apiError: ApiError) | Crashed(pyError: PyError)

  /** `for notification in notifications["notifications"]`: the items a
      fetched batch is iterated over. Iterating a non-empty dict or string
      yields strings, which the first `notification["notification_id"]`
      rejects with TypeError. */
  function BatchItems(body: Value): (r: Result<seq<Value>>)
    ensures body.Object? && "notifications" in body.fields && body.fields["notifications"].Array? ==> r == Ok(body.fields["notifications"].items)
    ensures body.Object? && "notifications" !in body.fields ==> r == Fail(KeyError("notifications"))
    ensures r.Ok? ==> body.Object? && "notifications" in body.fields
    ensures r.Ok? && r.value != [] ==> body.fields["notifications"] == Array(r.value)
  {
    if !body.Object? then Fail(TypeError("response is not a dict"))
    else if "notifications" !in body.fields then Fail(KeyError("notifications"))
    else
      match body.fields["notifications"]
      case Array(items) => Ok(items)
      case Object(f) => if f == map[] then Ok([]) else Fail(TypeError("string indices must be integers"))
      case Str(s) => if s == [] then Ok([]) else Fail(TypeError("string indices must be integers"))
      case _ => Fail(TypeError("object is not iterable"))
  }

  /** The first `|steps|` items of a batch were read as `steps`. */
  predicate StepsRead(items: seq<Value>, done: set<int>, steps: seq<Step>) {
    |steps| <= |items| && forall k :: 0 <= k < |steps| ==> ItemStep(items[k], done) == Ok(steps[k])
  }

  /** The first `n` consume requests were answered without an error. */
  predicate Consumed(answers: nat -> Reply, n: nat) {
    forall k: nat :: k < n ==> Classify(answers(k)).Body?
  }

  lemma StepsReadSnoc(items: seq<Value>, done: set<int>, steps: seq<Step>, s: Step)
    requires StepsRead(items, done, steps) && |steps| < |items| && ItemStep(items[|steps|], done) == Ok(s)
    ensures StepsRead(items, done, steps + [s])
  {
    var t := steps + [s];
    forall k | 0 <= k < |t|
      ensures ItemStep(items[k], done) == Ok(t[k])
    {
      if k < |steps| {
        assert t[k] == steps[k];
      }
    }
  }

  lemma ConsumedSnoc(answers: nat -> Reply, n: nat)
    requires Consumed(answers, n) && Classify(answers(n)).Body?
    ensures Consumed(answers, n + 1)
  {
  }

  /** An empty response (204) has no `notifications` key. */
  lemma EmptyBatchResponse()
    ensures BatchItems(Classify(Reply(204, "", Null)).value) == Fail(KeyError("notifications"))
  {
  }

  class AcunetixApi {
    const apiKey: string
    const endpoint: string
    var callbacks: map<string, Callback>
    var connected: bool
    /** Every request `_request` has issued, in order. */
    ghost var requests: seq<Request>
    /** Every callback invocation, in order. */
    ghost var invocations: seq<Invocation>
    /** The number of poller tasks started. */
    ghost var pollers: nat

    constructor (apiKey: string, endpoint: string)
      requires ConfigError(apiKey, endpoint).None?
      ensures this.apiKey == apiKey && this.endpoint == endpoint
      ensures callbacks == map[] && !connected
      ensures requests == [] && invocations == [] && pollers == 0
    {
      this.apiKey := apiKey;
      this.endpoint := endpoint;
      callbacks := map[];
      connected := false;
      requests := [];
      invocations := [];
      pollers := 0;
    }

    /** `AcunetixAPI(api_key, endpoint)`: ValueError for an invalid key or
      endpoint, otherwise a client with no callbacks, not connected. */
    static method New(apiKey: string, endpoint: string) returns (r: Result<AcunetixApi>)
      ensures r.Fail? <==> ConfigError(apiKey, endpoint).Some?
      ensures r.Fail? ==> r.error == ConfigError(apiKey, endpoint).value
      ensures r.Ok? ==> fresh(r.value) && r.value.apiKey == apiKey && r.value.endpoint == endpoint
      ensures r.Ok? ==> r.value.callbacks == map[] && !r.value.connected
      ensures r.Ok? ==> r.value.requests == [] && r.value.invocations == [] && r.value.pollers == 0
    {
      var e := ConfigError(apiKey, endpoint);
      if e.Some? {
        return Fail(e.value);
      }
      var client := new AcunetixApi(apiKey, endpoint);
      return Ok(client);
    }

    /** `AcunetixAPI(api_key)`: the endpoint defaults to `localhost:3443`,
      so only the key is checked. */
    static method NewWithDefaultEndpoint(apiKey: string) returns (r: Result<AcunetixApi>)
      ensures r.Fail? <==> !IsHexKey(apiKey)
      ensures r.Fail? ==> r.error == ValueError("Invalid API key")
      ensures r.Ok? ==> fresh(r.value) && r.value.apiKey == apiKey && r.value.endpoint == DefaultEndpoint
      ensures r.Ok? ==> r.value.callbacks == map[] && !r.value.connected
      ensures r.Ok? ==> r.value.requests == [] && r.value.invocations == [] && r.value.pollers == 0
    {
      r := New(apiKey, DefaultEndpoint);
    }

    /** `_request(method, path, data)`: issue the request to the full URL and
      classify the reply. */
    method SendRequest(verb: HttpMethod, path: string, body: Option<Value>, reply: Reply) returns (rec: Received)
      modifies this
      ensures rec == Classify(reply)
      ensures requests == old(requests) + [Request(verb, Url(endpoint, path), body)]
      ensures callbacks == old(callbacks) && connected == old(connected)
      ensures invocations == old(invocations) && pollers == old(pollers)
    {
      requests := requests + [Request(verb, Url(endpoint, path), body)];
      rec := Classify(reply);
    }

    /** `_check_credentials`: `GET me`. */
    method CheckCredentials(me: Reply) returns (outcome: Outcome<()>)
      modifies this
      ensures requests == old(requests) + [Request(GET, Url(endpoint, "me"), None)]
      ensures outcome == (if Classify(me).Raised? then ApiFailure(Classify(me).error) else Returned(()))
      ensures callbacks == old(callbacks) && connected == old(connected)
      ensures invocations == old(invocations) && pollers == old(pollers)
    {
      var rec := SendRequest(GET, "me", None, me);
      if rec.Raised? {
        return ApiFailure(rec.error);
      }
      return Returned(());
    }

    /** `connect(no_credentials_check)`: a second call does nothing. The first
      marks the client connected before the credentials check, so a failing
      check leaves it connected with no poller; otherwise one poller starts. */
    method Connect(noCredentialsCheck: bool, me: Reply) returns (outcome: Outcome<()>)
      modifies this
      ensures connected
      ensures old(connected) ==> outcome == Returned(()) && requests == old(requests) && pollers == old(pollers)
      ensures !old(connected) && noCredentialsCheck ==> outcome == Returned(()) && requests == old(requests) && pollers == old(pollers) + 1
      ensures !old(connected) && !noCredentialsCheck ==>
        requests == old(requests) + [Request(GET, Url(endpoint, "me"), None)]
        && outcome == (if Classify(me).Raised? then ApiFailure(Classify(me).error) else Returned(()))
        && pollers == old(pollers) + (if Classify(me).Raised? then 0 else 1)
      ensures callbacks == old(callbacks) && invocations == old(invocations)
    {
      if connected {
        return Returned(());
      }
      connected := true;
      if !noCredentialsCheck {
        outcome := CheckCredentials(me);
        if outcome.ApiFailure? {
          return;
        }
      }
      pollers := pollers + 1;
      return Returned(());
    }

    /** `_execute_callback(callback_id, notification)`: pop the entry and call
      it with the notification when its signature declares parameters,
      without arguments otherwise. */
    method ExecuteCallback(callbackId: string, notification: Notification)
      modifies this
      ensures Registry(callbacks, invocations) == Resolve(Registry(old(callbacks), old(invocations)), callbackId, notification, BySignature)
      ensures requests == old(requests) && connected == old(connected) && pollers == old(pollers)
    {
      if callbackId !in callbacks {
        return;
      }
      var callback := callbacks[callbackId];
      callbacks := callbacks - {callbackId};
      invocations := invocations + [Invocation(callbackId, callback, if callback.parameters > 0 then Some(notification) else None)];
    }

    /** The body of the poller's loop for one notification: read it, run the
      callback registered for its resource when its type is done, then
      consume it. Nothing happens when it cannot be read. */
    method HandleItem(item: Value, done: set<int>, answer: Reply) returns (step: Result<Step>, consumed: Received)
      modifies this
      ensures step == ItemStep(item, done)
      ensures step.Fail? ==> callbacks == old(callbacks) && invocations == old(invocations) && requests == old(requests)
      ensures step.Ok? ==> Registry(callbacks, invocations) == Handle(Registry(old(callbacks), old(invocations)), step.value, BySignature)
      ensures step.Ok? ==> consumed == Classify(answer)
      ensures step.Ok? ==> requests == old(requests) + [Request(POST, Url(endpoint, ConsumePath(step.value.consumeId)), None)]
      ensures connected == old(connected) && pollers == old(pollers)
    {
      step := ItemStep(item, done);
      consumed := Classify(answer);
      if step.Fail? {
        return;
      }
      var resolve := step.value.resolve;
      if resolve.Some? {
        ExecuteCallback(resolve.value.resourceId, resolve.value);
      }
      consumed := SendRequest(POST, ConsumePath(step.value.consumeId), None, answer);
    }

    /** The `for` loop of `_poll_notifications` over one fetched batch: for
      each notification in order, resolve it when its type is a done status
      (`done` is SCAN_DONE_STATUS + REPORT_DONE_STATUS), then consume it;
      `answers(k)` is the reply to the k-th consume. `steps` is what the
      handled notifications asked for. The batch ends early when an item
      cannot be read (an exception that leaves the poller) or a consume
      raises (caught; the poller polls again). */
    method HandleBatch(items: seq<Value>, done: set<int>, answers: nat -> Reply) returns (outcome: PollOutcome, ghost steps: seq<Step>)
      modifies this
      ensures Registry(callbacks, invocations) == Run(Registry(old(callbacks), old(invocations)), steps, BySignature)
      ensures requests == old(requests) + Consumes(endpoint, steps)
      ensures StepsRead(items, done, steps)
      ensures outcome.Completed? ==> |steps| == |items|
      ensures outcome.Crashed? ==> |steps| < |items| && ItemStep(items[|steps|], done) == Fail(outcome.pyError)
      ensures !outcome.Caught? ==> Consumed(answers, |steps|)
      ensures outcome.Caught? ==> 0 < |steps| && Consumed(answers, |steps| - 1) && Classify(answers(|steps| - 1)) == Raised(outcome.apiError)
      ensures connected == old(connected) && pollers == old(pollers)
    {
      steps := [];
      var i := 0;
      while i < |items|
        invariant 0 <= i <= |items| && |steps| == i
        invariant StepsRead(items, done, steps)
        invariant Consumed(answers, i)
        invariant Registry(callbacks, invocations) == Run(Registry(old(callbacks), old(invocations)), steps, BySignature)
        invariant requests == old(requests) + Consumes(endpoint, steps)
        invariant connected == old(connected) && pollers == old(pollers)
      {
        var step, consumed := HandleItem(items[i], done, answers(i));
        if step.Fail? {
          return Crashed(step.error), steps;
        }
        RunSnoc(Registry(old(callbacks), old(invocations)), steps, step.value, BySignature);
        ConsumesSnoc(old(requests), endpoint, steps, step.value);
        StepsReadSnoc(items, done, steps, step.value);
        steps := steps + [step.value];
        if consumed.Raised? {
          return Caught(consumed.error), steps;
        }
        ConsumedSnoc(answers, i);
        i := i + 1;
      }
      return Completed, steps;
    }

    /** One pass of `_poll_notifications`: fetch the batch, then handle it.
      A failing fetch is caught and nothing else happens; a body that cannot
      be iterated raises out of the poller. */
    method PollOnce(done: set<int>, fetch: Reply, answers: nat -> Reply) returns (outcome: PollOutcome, ghost steps: seq<Step>)
      modifies this
      ensures Registry(callbacks, invocations) == Run(Registry(old(callbacks), old(invocations)), steps, BySignature)
      ensures requests == old(requests) + [Request(GET, Url(endpoint, "notifications"), None)] + Consumes(endpoint, steps)
      ensures Classify(fetch).Raised? ==> outcome == Caught(Classify(fetch).error) && steps == []
      ensures Classify(fetch).Body? && BatchItems(Classify(fetch).value).Fail? ==>
        outcome == Crashed(BatchItems(Classify(fetch).value).error) && steps == []
      ensures Classify(fetch).Body? && BatchItems(Classify(fetch).value).Ok? ==>
        StepsRead(BatchItems(Classify(fetch).value).value, done, steps)
      ensures Classify(fetch).Body? && BatchItems(Classify(fetch).value).Ok? ==>
        var items := BatchItems(Classify(fetch).value).value;
        && (outcome.Crashed? ==> |steps| < |items| && ItemStep(items[|steps|], done) == Fail(outcome.pyError))
        && (!outcome.Caught? ==> Consumed(answers, |steps|))
        && (outcome.Caught? ==> 0 < |steps| && Consumed(answers, |steps| - 1) && Classify(answers(|steps| - 1)) == Raised(outcome.apiError))
      ensures outcome.Completed? ==> |steps| == |BatchItems(Classify(fetch).value).value|
      ensures connected == old(connected) && pollers == old(pollers)
    {
      steps := [];
      var received := SendRequest(GET, "notifications", None, fetch);
      if received.Raised? {
        return Caught(received.error), steps;
      }
      var items := BatchItems(received.value);
      if items.Fail? {
        return Crashed(items.error), steps;
      }
      outcome, steps := HandleBatch(items.value, done, answers);
    }

    /** `create_scan`: post the payload, refuse a response without `scan_id`
      before registering anything, register a given callback under the new
      id (replacing any earlier one) and only then fetch the scan, so the
      registration stays even when that fetch fails. `scanRecord` is what
      Scan.from_dict makes of the fetched body. */
    method CreateScan(target: Ref<Target>, profile: Ref<ScanProfile>,
                      template: Option<Ref<ReportTemplates.ReportTemplate>>,
                      schedule: Option<Scheduling.SchedulingOptions>,
                      doneCallback: Option<Callback>,
                      reply: Reply, scanReply: Reply, scanRecord: Result<Scan>) returns (outcome: Outcome<Scan>)
      modifies this
      ensures var created := Request(POST, Url(endpoint, "scans"), Some(Object(ScanMethods.ScanPayload(target, profile, template, schedule))));
        && (Classify(reply).Raised? ==>
              outcome == ApiFailure(Classify(reply).error) && callbacks == old(callbacks) && requests == old(requests) + [created])
        && (Classify(reply).Body? && ResponseId(Classify(reply).value, "scan_id").Fail? ==>
              outcome == PyFailure(ResponseId(Classify(reply).value, "scan_id").error)
              && callbacks == old(callbacks) && requests == old(requests) + [created])
        && (Classify(reply).Body? && ResponseId(Classify(reply).value, "scan_id").Ok? ==>
              var id := ResponseId(Classify(reply).value, "scan_id").value;
              && callbacks == Register(old(callbacks), id, doneCallback)
              && requests == old(requests) + [created, Request(GET, Url(endpoint, ScanMethods.ScanPath(id)), None)]
              && outcome == (if Classify(scanReply).Raised? then ApiFailure(Classify(scanReply).error)
                             else ReportMethods.OutcomeOf(scanRecord)))
      ensures invocations == old(invocations) && connected == old(connected) && pollers == old(pollers)
    {
      var payload := ScanMethods.ScanPayload(target, profile, template, schedule);
      var response := SendRequest(POST, "scans", Some(Object(payload)), reply);
      if response.Raised? {
        return ApiFailure(response.error);
      }
      var id := ResponseId(response.value, "scan_id");
      if id.Fail? {
        return PyFailure(id.error);
      }
      outcome := FetchCreatedScan(id.value, doneCallback, scanReply, scanRecord);
    }

    /** The end of `create_scan`, once the new scan id is known: register the
      callback, then fetch the scan. */
    method FetchCreatedScan(id: string, doneCallback: Option<Callback>, scanReply: Reply, scanRecord: Result<Scan>) returns (outcome: Outcome<Scan>)
      modifies this
      ensures callbacks == Register(old(callbacks), id, doneCallback)
      ensures requests == old(requests) + [Request(GET, Url(endpoint, ScanMethods.ScanPath(id)), None)]
      ensures outcome == (if Classify(scanReply).Raised? then ApiFailure(Classify(scanReply).error) else ReportMethods.OutcomeOf(scanRecord))
      ensures invocations == old(invocations) && connected == old(connected) && pollers == old(pollers)
    {
      if doneCallback.Some? {
        callbacks := callbacks[id := doneCallback.value];
      }
      var fetched := SendRequest(GET, ScanMethods.ScanPath(id), None, scanReply);
      if fetched.Raised? {
        return ApiFailure(fetched.error);
      }
      return ReportMethods.OutcomeOf(scanRecord);
    }

    /** `delete_scan`. */
    method DeleteScan(scan: Ref<Scan>, reply: Reply) returns (outcome: Outcome<()>)
      modifies this
      ensures requests == old(requests) + [ScanMethods.DeleteScanRequest(endpoint, scan)]
      ensures outcome == (if Classify(reply).Raised? then ApiFailure(Classify(reply).error) else Returned(()))
      ensures callbacks == old(callbacks) && invocations == old(invocations) && connected == old(connected) && pollers == old(pollers)
    {
      var rec := SendRequest(DELETE, ScanMethods.ScanPath(InputScanId(scan)), None, reply);
      outcome := if rec.Raised? then ApiFailure(rec.error) else Returned(());
    }

    /** `pause_scan`, `resume_scan` and `stop_scan` (which posts `abort`). */
    method ScanAction(scan: Ref<Scan>, action: ScanMethods.ScanAction, reply: Reply) returns (outcome: Outcome<()>)
      modifies this
      ensures requests == old(requests) + [ScanMethods.ActionRequest(endpoint, scan, action)]
      ensures outcome == (if Classify(reply).Raised? then ApiFailure(Classify(reply).error) else Returned(()))
      ensures callbacks == old(callbacks) && invocations == old(invocations) && connected == old(connected) && pollers == old(pollers)
    {
      var rec := SendRequest(POST, ScanMethods.ActionPath(InputScanId(scan), action), Some(Object(map[])), reply);
      outcome := if rec.Raised? then ApiFailure(rec.error) else Returned(());
    }

    method PauseScan(scan: Ref<Scan>, reply: Reply) returns (outcome: Outcome<()>)
      modifies this
      ensures requests == old(requests) + [ScanMethods.ActionRequest(endpoint, scan, ScanMethods.Pause)]
      ensures outcome == (if Classify(reply).Raised? then ApiFailure(Classify(reply).error) else Returned(()))
      ensures callbacks == old(callbacks) && invocations == old(invocations) && connected == old(connected) && pollers == old(pollers)
    {
      outcome := ScanAction(scan, ScanMethods.Pause, reply);
    }

    method ResumeScan(scan: Ref<Scan>, reply: Reply) returns (outcome: Outcome<()>)
      modifies this
      ensures requests == old(requests) + [ScanMethods.ActionRequest(endpoint, scan, ScanMethods.Resume)]
      ensures outcome == (if Classify(reply).Raised? then ApiFailure(Classify(reply).error) else Returned(()))
      ensures callbacks == old(callbacks) && invocations == old(invocations) && connected == old(connected) && pollers == old(pollers)
    {
      outcome := ScanAction(scan, ScanMethods.Resume, reply);
    }

    method StopScan(scan: Ref<Scan>, reply: Reply) returns (outcome: Outcome<()>)
      modifies this
      ensures requests == old(requests) + [ScanMethods.ActionRequest(endpoint, scan, ScanMethods.Abort)]
      ensures outcome == (if Classify(reply).Raised? then ApiFailure(Classify(reply).error) else Returned(()))
      ensures callbacks == old(callbacks) && invocations == old(invocations) && connected == old(connected) && pollers == old(pollers)
    {
      outcome := ScanAction(scan, ScanMethods.Abort, reply);
    }

    /** The target search of `get_report`: list every report and return
      the first whose source names the target. */
    method FindByTarget(targetId: Option<string>, server: ReportMethods.ReportServer) returns (outcome: Outcome<Reports.Report>)
      modifies this
      ensures outcome == ReportMethods.SearchByTarget(endpoint, targetId, server).0
      ensures requests == old(requests) + ReportMethods.SearchByTarget(endpoint, targetId, server).1
      ensures callbacks == old(callbacks) && invocations == old(invocations) && connected == old(connected) && pollers == old(pollers)
    {
      var listing := SendRequest(GET, "reports", None, server.listing);
      if listing.Raised? {
        return ApiFailure(listing.error);
      }
      var reports := ReportMethods.ListingReports(listing.value);
      if reports.Fail? {
        return PyFailure(reports.error);
      }
      var found := ReportMethods.FindReportForTarget(reports.value, targetId);
      if found.Some? {
        return Returned(found.value);
      }
      return ApiFailure(ReportMethods.NotFound);
    }

    /** The scan stage of `get_report`: fetch the scan, then search by its
      target. A swallowed 404 leaves the local `scan` unbound. */
    method FindByScan(q: ReportMethods.ReportQuery, inputType: Option<string>, server: ReportMethods.ReportServer) returns (outcome: Outcome<Reports.Report>)
      requires q.OfScan? || q.OfId?
      modifies this
      ensures outcome == ReportMethods.SearchByScan(endpoint, q, inputType, server).0
      ensures requests == old(requests) + ReportMethods.SearchByScan(endpoint, q, inputType, server).1
      ensures callbacks == old(callbacks) && invocations == old(invocations) && connected == old(connected) && pollers == old(pollers)
    {
      var id := if q.OfScan? then q.scan.scanId else q.id;
      var fetched := SendRequest(GET, "scans/" + id, None, server.scan);
      if fetched.Raised? {
        if !ReportMethods.Is404(fetched.error) || q.OfScan? || inputType == Some("scan") {
          return ApiFailure(fetched.error);
        }
        return PyFailure(UnboundLocalError("scan"));
      }
      if server.scanRecord.Fail? {
        return PyFailure(server.scanRecord.error);
      }
      outcome := FindByTarget(server.scanRecord.value.target.targetId, server);
    }

    /** The direct lookup of `get_report` for a report record or a bare id;
      the body is decoded by Report.from_dict on a fresh dict. */
    method FindById(q: ReportMethods.ReportQuery, id: string, inputType: Option<string>, server: ReportMethods.ReportServer) returns (outcome: Outcome<Reports.Report>)
      requires q.OfReport? || q.OfId?
      modifies this
      ensures outcome == ReportMethods.SearchById(endpoint, q, id, inputType, server).0
      ensures requests == old(requests) + ReportMethods.SearchById(endpoint, q, id, inputType, server).1
      ensures callbacks == old(callbacks) && invocations == old(invocations) && connected == old(connected) && pollers == old(pollers)
    {
      var direct := SendRequest(GET, "reports/" + id, None, server.direct);
      if direct.Body? {
        var report := Reports.DecodeFresh(direct.value);
        return ReportMethods.OutcomeOf(report);
      }
      if !ReportMethods.Is404(direct.error) || q.OfReport? || inputType == Some("report") {
        return ApiFailure(direct.error);
      }
      outcome := FindByScan(q, inputType, server);
    }

    /** `get_report(report, input_type)`, proved against ResolveReport: a
      report record or a bare id is looked up directly, a scan goes to the
      scan stage, a target straight to the target search. */
    method GetReport(q: ReportMethods.ReportQuery, inputType: Option<string>, server: ReportMethods.ReportServer) returns (outcome: Outcome<Reports.Report>)
      modifies this
      ensures outcome == ReportMethods.ResolveReport(endpoint, q, inputType, server).0
      ensures requests == old(requests) + ReportMethods.ResolveReport(endpoint, q, inputType, server).1
      ensures callbacks == old(callbacks) && invocations == old(invocations) && connected == old(connected) && pollers == old(pollers)
    {
      match q
      case OfReport(r) => outcome := FindById(q, r.reportId, inputType, server);
      case OfId(id) => outcome := FindById(q, id, inputType, server);
      case OfScan(_) => outcome := FindByScan(q, inputType, server);
      case OfTarget(t) => outcome := FindByTarget(t.targetId, server);
    }

    /** `create_report`: post the template id and source, refuse a response
      without `report_id` before registering anything, register a given
      callback under the new id, and only then look the report up with
      `get_report` on the bare id. */
    method CreateReport(template: Ref<ReportTemplates.ReportTemplate>, source: TypedLists.TypedList,
                        doneCallback: Option<Callback>, reply: Reply, server: ReportMethods.ReportServer)
      returns (outcome: Outcome<Reports.Report>)
      modifies this
      ensures var created := Request(POST, Url(endpoint, "reports"), Some(Object(ReportMethods.CreateReportBody(template, source))));
        && (Classify(reply).Raised? ==>
              outcome == ApiFailure(Classify(reply).error) && callbacks == old(callbacks) && requests == old(requests) + [created])
        && (Classify(reply).Body? && ResponseId(Classify(reply).value, "report_id").Fail? ==>
              outcome == PyFailure(ResponseId(Classify(reply).value, "report_id").error)
              && callbacks == old(callbacks) && requests == old(requests) + [created])
        && (Classify(reply).Body? && ResponseId(Classify(reply).value, "report_id").Ok? ==>
              var id := ResponseId(Classify(reply).value, "report_id").value;
              var lookup := ReportMethods.ResolveReport(endpoint, ReportMethods.OfId(id), None, server);
              && callbacks == Register(old(callbacks), id, doneCallback)
              && requests == old(requests) + [created] + lookup.1
              && outcome == lookup.0)
      ensures invocations == old(invocations) && connected == old(connected) && pollers == old(pollers)
    {
      var body := ReportMethods.CreateReportBody(template, source);
      var response := SendRequest(POST, "reports", Some(Object(body)), reply);
      if response.Raised? {
        return ApiFailure(response.error);
      }
      var id := ResponseId(response.value, "report_id");
      if id.Fail? {
        return PyFailure(id.error);
      }
      outcome := LookUpCreatedReport(id.value, doneCallback, server);
    }

    /** The end of `create_report`, once the new report id is known: register
      the callback, then `get_report` on the bare id. */
    method LookUpCreatedReport(id: string, doneCallback: Option<Callback>, server: ReportMethods.ReportServer) returns (outcome: Outcome<Reports.Report>)
      modifies this
      ensures var lookup := ReportMethods.ResolveReport(endpoint, ReportMethods.OfId(id), None, server);
        && callbacks == Register(old(callbacks), id, doneCallback)
        && requests == old(requests) + lookup.1
        && outcome == lookup.0
      ensures invocations == old(invocations) && connected == old(connected) && pollers == old(pollers)
    {
      if doneCallback.Some? {
        callbacks := callbacks[id := doneCallback.value];
      }
      outcome := GetReport(ReportMethods.OfId(id), None, server);
    }

    /** `delete_reports`: the ids in input order under `report_id_list`. */
    method DeleteReports(reports: seq<Ref<Reports.Report>>, reply: Reply) returns (outcome: Outcome<()>)
      modifies this
      ensures requests == old(requests) + [Request(POST, Url(endpoint, "reports/delete"), Some(Object(ReportMethods.DeleteReportsBody(reports))))]
      ensures outcome == (if Classify(reply).Raised? then ApiFailure(Classify(reply).error) else Returned(()))
      ensures callbacks == old(callbacks) && invocations == old(invocations) && connected == old(connected) && pollers == old(pollers)
    {
      var rec := SendRequest(POST, "reports/delete", Some(Object(ReportMethods.DeleteReportsBody(reports))), reply);
      outcome := if rec.Raised? then ApiFailure(rec.error) else Returned(());
    }

    /** `delete_report(r)`: exactly `delete_reports([r])`. */
    method DeleteReport(report: Ref<Reports.Report>, reply: Reply) returns (outcome: Outcome<()>)
      modifies this
      ensures requests == old(requests) + [Request(POST, Url(endpoint, "reports/delete"), Some(Object(ReportMethods.DeleteReportsBody([report]))))]
      ensures outcome == (if Classify(reply).Raised? then ApiFailure(Classify(reply).error) else Returned(()))
      ensures callbacks == old(callbacks) && invocations == old(invocations) && connected == old(connected) && pollers == old(pollers)
    {
      outcome := DeleteReports([report], reply);
    }

    /** `download_report(report, download)`: look the report up, then the URL
      of every wanted URI, in order. The files themselves are not fetched in
      this model; the result is the list of URLs that would be. */
    method DownloadReport(report: Ref<Reports.Report>, download: string, server: ReportMethods.ReportServer)
      returns (outcome: Outcome<seq<string>>)
      modifies this
      ensures var lookup := ReportMethods.ResolveReport(endpoint, ReportMethods.QueryOf(report), None, server);
        && requests == old(requests) + lookup.1
        && (lookup.0.Returned? ==>
              outcome == Returned(ReportMethods.DownloadUrls(endpoint, ReportMethods.KeptUris(lookup.0.value.download, download))))
        && (lookup.0.ApiFailure? ==> outcome == ApiFailure(lookup.0.apiError))
        && (lookup.0.PyFailure? ==> outcome == PyFailure(lookup.0.pyError))
      ensures callbacks == old(callbacks) && invocations == old(invocations) && connected == old(connected) && pollers == old(pollers)
    {
      var found := GetReport(ReportMethods.QueryOf(report), None, server);
      match found
      case ApiFailure(e) => return ApiFailure(e);
      case PyFailure(e) => return PyFailure(e);
      case Returned(r) =>
        var urls := ReportMethods.CollectDownloads(endpoint, r.download, download);
        return Returned(urls);
    }
  }
}
