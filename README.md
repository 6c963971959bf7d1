# Acunetix API client, modelled in Dafny

This project models the `acunetix` Python package, an asynchronous REST client
for the Acunetix web vulnerability scanner. The model covers:

- the client class `AcunetixAPI` (`acunetix/__init__.py`) and its older variant
  (`acunetix/__main__.py`): construction checks, `connect`, the `_callbacks`
  registry, one pass of the notification poller, and the status handling of
  `_request`;
- the scan and report methods the client inherits (`acunetix/methods/scans.py`,
  `acunetix/methods/reports.py`);
- the API error classes and `ERROR_MAP` (`acunetix/errors.py`);
- the `get_input_*_id` helpers (`acunetix/utils.py`);
- the wire rules of the schema records that carry logic: `TypedList`,
  `InputTarget`, `ReportTemplate` with its seventeen built-in templates and
  `TEMPLATE_MAP`, `SchedulingOptions` and `Report`.

JSON is the `Json.Value` datatype; a JSON object is a `map<string, Value>`.
A reply of the scanner is a parameter (`Requests.Reply`: status, text, decoded
JSON). The requests issued and the callbacks invoked are kept in ghost logs of
the client object. The stateful parts are classes with `modifies` clauses:
`Client.AcunetixApi`, `LegacyClient.AcunetixApi`, and `PyDicts.Dict`, which is
the caller's dict that `Report.from_dict` and `SchedulingOptions.from_dict`
rewrite in place. Each of their loops is a `while` loop proved against a
specification function. The registry on its own is specified on values in
`Callbacks` (`Register`, `Resolve`, `Run`), and the lemmas about one batch are
stated there.

Modules, one per source component: `Json`, `Errors`, `Resources`, `Ids`,
`Requests`, `Callbacks`, `TypedLists`, `InputTargets`, `ReportTemplates`,
`PyDicts`, `Scheduling`, `Reports`, `ScanMethods`, `ReportMethods`, `Client`,
`LegacyClient`.

Where the code and its documentation differ, the model follows the code:

- `SchedulingOptions.recurrence` is annotated `Optional[str]`, but
  `create_scan` stores the int 0 there, so the model lets it hold any JSON
  value.
- `get_report` on a bare id that is found neither as a report nor as a scan
  does not reach the target search. It reads the unbound local `scan`
  (UnboundLocalError), and `ReportMethods.IdMissingTwice` states this.

## Model

| member | source | states |
|---|---|---|
| Client.ConfigError | acunetix/__init__.py:179-183 | No error exactly when the key is a non-empty string of hex digits and the endpoint is non-empty; the key is checked first ("Invalid API key"), then the endpoint ("Invalid endpoint"). |
| Client.AcunetixApi.New | acunetix/__init__.py:168-188 | Fails with the ValueError of ConfigError exactly when the arguments are invalid; otherwise a fresh client with these key and endpoint, no callbacks, not connected, and empty logs. |
| Client.AcunetixApi.NewWithDefaultEndpoint | acunetix/__init__.py:168 | Without an endpoint the client talks to `localhost:3443`: it fails with "Invalid API key" exactly when the key is not hexadecimal, and is otherwise a fresh client with that endpoint and the initial state. |
| Client.AcunetixApi.constructor | acunetix/__init__.py:185-188 | The initial state: no callbacks, not connected, nothing requested, invoked or started. |
| Client.AcunetixApi.SendRequest | acunetix/__init__.py:264-296 | Appends exactly one request, to `https://{endpoint}/api/v1/{path}` with the given verb and body, classifies the reply, and changes nothing else. |
| Client.AcunetixApi.CheckCredentials | acunetix/__init__.py:298-300 | One `GET me`; an API error from it is the outcome. |
| Client.AcunetixApi.Connect | acunetix/__init__.py:190-211 | Once connected, a call makes no request and starts no poller. The first call sets `connected` before the check. Then it checks the credentials unless told not to, and starts exactly one poller unless the check raised. |
| Client.AcunetixApi.ExecuteCallback | acunetix/__init__.py:213-229 | The registry and invocation log afterwards are `Resolve(..., BySignature)` of those before: an unregistered id changes nothing, and a registered id is popped and invoked once. |
| Client.AcunetixApi.HandleItem | acunetix/__init__.py:240-257 | One item is read as `ItemStep`. An unreadable item changes nothing. Otherwise its notification, if done, is resolved, then exactly one consume POST is issued for its `notification_id`. |
| Client.AcunetixApi.HandleBatch | acunetix/__init__.py:239-260 | After a batch, the registry is `Run` of the steps read from the batch's prefix, in order. The request log gains exactly their consume requests, in order. A batch ends early only at an unreadable item (raised out of the poller) or at a consume that raised an API error (caught). |
| Client.AcunetixApi.PollOnce | acunetix/__init__.py:236-262 | One poll is a `GET notifications`. A raised fetch is caught and nothing else happens. A body whose `notifications` cannot be iterated crashes with no other request. Otherwise the batch is handled as by HandleBatch: a crash happens at an unreadable item, with that item's error; a caught error is one raised by the last consume; every consume before it, and all of them on a completed pass, were sent. |
| Client.BatchItems | acunetix/__init__.py:238-239 | A missing `notifications` key is KeyError; a list is iterated as it is; iterating a non-empty dict or string fails on the first item. |
| Client.EmptyBatchResponse | acunetix/__init__.py:287-288 | The empty dict of a 204 reply has no `notifications`, so KeyError. |
| Client.AcunetixApi.CreateScan | acunetix/methods/scans.py:95-120 | POSTs the ScanPayload. On an API error or a response without `scan_id` it registers nothing. Otherwise it registers the callback under the new id (last wins), then GETs `scans/{id}`; the registration stays whatever that fetch returns. |
| Client.AcunetixApi.FetchCreatedScan | acunetix/methods/scans.py:116-120 | With a callback, registers it under the new scan id, replacing any earlier one. Then GETs `scans/{id}`; the outcome is that fetch's API error or the decoded scan. |
| Client.AcunetixApi.DeleteScan | acunetix/methods/scans.py:134 | Exactly one `DELETE scans/{id}` without a body; the registry is untouched. |
| Client.AcunetixApi.ScanAction | acunetix/methods/scans.py:148-176 | Exactly one POST with an empty body to the action's path. |
| Client.AcunetixApi.PauseScan | acunetix/methods/scans.py:148 | Exactly one POST `scans/{id}/pause` with `{}`. |
| Client.AcunetixApi.ResumeScan | acunetix/methods/scans.py:162 | Exactly one POST `scans/{id}/resume` with `{}`. |
| Client.AcunetixApi.StopScan | acunetix/methods/scans.py:176 | Exactly one POST `scans/{id}/abort` with `{}`. |
| Client.AcunetixApi.FindByTarget | acunetix/methods/reports.py:85-91 | Outcome and requests equal `SearchByTarget`: the first listed report naming the target, else Acunetix404Error. |
| Client.AcunetixApi.FindByScan | acunetix/methods/reports.py:76-83 | Outcome and requests equal `SearchByScan`. |
| Client.AcunetixApi.FindById | acunetix/methods/reports.py:67-74 | Outcome and requests equal `SearchById`; the body is decoded by the in-place `Report.from_dict`. |
| Client.AcunetixApi.GetReport | acunetix/methods/reports.py:46-91 | Outcome and request log equal `ResolveReport`, for every kind of input. |
| Client.AcunetixApi.CreateReport | acunetix/methods/reports.py:121-133 | POSTs `{template_id, source}`. On an API error or a response without `report_id` it registers nothing. Otherwise it registers the callback under the id (last wins) and then resolves the bare id with `get_report`. |
| Client.AcunetixApi.LookUpCreatedReport | acunetix/methods/reports.py:130-133 | With a callback, registers it under the new report id. The outcome and requests are those of `get_report` on the bare id. |
| Client.AcunetixApi.DeleteReports | acunetix/methods/reports.py:168-172 | Exactly one POST `reports/delete` whose `report_id_list` holds the ids in input order. |
| Client.AcunetixApi.DeleteReport | acunetix/methods/reports.py:189 | The same single request as `delete_reports([report])`. |
| Client.AcunetixApi.DownloadReport | acunetix/methods/reports.py:209-216 | Looks the report up as `get_report` does. Its errors pass through. On success the result is one URL `https://{endpoint}{uri}` per wanted URI, in order. |
| LegacyClient.AcunetixApi.New | acunetix/__main__.py:84-104 | The same validation and initial state as the current client. |
| LegacyClient.AcunetixApi.NewWithDefaultEndpoint | acunetix/__main__.py:84 | The same default endpoint `localhost:3443` and key check as the current client. |
| LegacyClient.AcunetixApi.constructor | acunetix/__main__.py:101-104 | The initial state: no callbacks, not connected. |
| LegacyClient.AcunetixApi.SendRequest | acunetix/__main__.py:158-181 | One request to `https://{endpoint}/api/v1/{path}`, classified as in the current client. |
| LegacyClient.AcunetixApi.Connect | acunetix/__main__.py:106-121 | Idempotent once connected. The first call always checks credentials, and starts a poller only when the check passes. |
| LegacyClient.AcunetixApi.ExecuteCallback | acunetix/__main__.py:123-127 | `Resolve(..., WithNotification)`: a registered callback is popped and always called with the notification. |
| LegacyClient.AcunetixApi.HandleItem | acunetix/__main__.py:135-151 | As in the current client, with the notification always passed. |
| LegacyClient.AcunetixApi.HandleBatch | acunetix/__main__.py:135-154 | The batch loop proved against `Run(..., WithNotification)` and `Consumes`, with the same early exits. |
| LegacyClient.AcunetixApi.PollOnce | acunetix/__main__.py:132-156 | One poll is a `GET notifications`. A raised fetch is caught with nothing else done; an unreadable `notifications` crashes with no other request. Otherwise, as in the current client, a crash is at an unreadable item with its error, a caught error comes from the last consume, and every consume before it was sent. |
| Callbacks.Argument | acunetix/__init__.py:225-228 | The current client passes the notification iff the callback declares parameters; the older one always passes it. |
| Callbacks.Register | acunetix/methods/scans.py:117-118 | Without a callback the registry is unchanged. With one, the id is added or replaced and every other entry is kept. |
| Callbacks.Resolve | acunetix/__init__.py:219-228 | An unregistered id leaves everything unchanged. A registered id is removed, with every other entry kept, and exactly one invocation of its callback is appended. |
| Callbacks.RegisterTwiceLastWins | acunetix/methods/reports.py:130-131 | A second registration under one id replaces the first. |
| Callbacks.RegisterThenResolve | acunetix/__init__.py:219-228 | The callback registered under an id is the one its done notification invokes, and the registry returns to what it was. |
| Callbacks.ItemStep | acunetix/__init__.py:240-256 | An item is read in the poller's order: `notification_id`, then `type_id`, and for a done type `resource_id` and the Notification. It resolves iff the type is done, and the id to consume is the `str()` of `notification_id` (FormatId). |
| Callbacks.FormatId | acunetix/__init__.py:256 | The f-string formatting of a JSON scalar: a string is itself, an integer its decimal text (read back by ReadInt), a boolean `True`/`False`, null `None`. |
| Callbacks.IntIdConsumed | acunetix/__init__.py:239-257 | An item with an integer `notification_id` and a type not done is consumed under that integer's decimal text, with nothing to resolve. |
| Callbacks.RunSnoc | acunetix/__init__.py:239 | Handling one more notification, on top of a prefix of the batch. |
| Callbacks.Consumes | acunetix/__init__.py:254-257 | One POST `notifications/{id}/consume`, without a body, per step and in step order. |
| Callbacks.RunShape | acunetix/__init__.py:239-252 | After a batch, exactly the resolved ids have left the registry and the log only grew. Each new invocation is for an id registered before, with its callback. No id is invoked twice. The invoked ids are exactly the registered ids the batch resolved. |
| Callbacks.RunPops | acunetix/__init__.py:224 | The registry loses exactly the resolved ids. |
| Callbacks.RunFired | acunetix/__init__.py:224-228 | Every invocation is of the callback registered before the batch, and its id is gone afterwards. |
| Callbacks.RunFiredDistinct | acunetix/__init__.py:219-224 | No resource is invoked twice within a batch. |
| Callbacks.RunFiredIds | acunetix/__init__.py:244-252 | The ids invoked are the registered ids intersected with the ids resolved. |
| Callbacks.RunWithoutResolves | acunetix/__init__.py:244 | Notifications whose type is not done never touch the registry or the log. |
| Callbacks.StaysPending | acunetix/__init__.py:244-252 | A registered id no done notification names stays registered and is not invoked. |
| Callbacks.SingleNotification | acunetix/__init__.py:239-257 | One done notification for a registered resource pops it, invokes it once, and is consumed once. |
| Callbacks.DuplicateNotification | acunetix/__init__.py:219-220 | A second done notification for an already-popped resource invokes nothing. |
| Requests.Url | acunetix/__init__.py:283 | The URL is the scheme, the endpoint, `/api/v1/`, then the path, each at its place. |
| Requests.UrlInjective | acunetix/__init__.py:283 | Different paths give different URLs. |
| Requests.Classify | acunetix/__init__.py:287-296 | 204 gives `{}`. A status outside 200..299 raises, with class `ERROR_MAP.get(status, AcunetixAPIError)`, the status and the text. Any other 2xx gives the JSON. |
| Requests.RaisedClass | acunetix/__init__.py:291-294 | The base class is raised exactly for unmapped statuses; the error keeps status and text. |
| Requests.ResponseId | acunetix/methods/scans.py:114-115 | The `in` test of the response: ValueError("Invalid response") exactly when the response is a dict, list or string that does not hold the key; a value that cannot be iterated raises TypeError, and so does indexing a list or string that holds it. Success exactly for a dict holding a string under the key, which is returned. |
| Requests.OccursAt | acunetix/methods/scans.py:114 | `key in text` for strings holds exactly when the key appears at some index. |
| Errors.ClassFor | acunetix/errors.py:56-68 | A subclass exactly for the eleven mapped statuses, each named after its status; else the base class. |
| Errors.ErrorMapShape | acunetix/errors.py:56-68 | ERROR_MAP has exactly the eleven keys, maps each to its own class and no two to the same, and never to the base class. |
| Errors.Describe | acunetix/errors.py:6-9 | `str(e)` starts with "Got response with status code " and ends with the message. |
| Errors.NatText | acunetix/errors.py:8 | `str()` of a status is a non-empty string of digits. |
| Errors.DescribeParses | acunetix/errors.py:2-9 | The status and the message are recovered from `str(e)`. |
| Errors.DescribeInjective | acunetix/errors.py:2-9 | Two errors with the same text have the same status and message. |
| Errors.DigitsValueOfNatText | acunetix/errors.py:8 | Reading back the digits of `str(n)` gives `n`. |
| Errors.ReadIntText | acunetix/errors.py:8 | A status written by `str()` reads back, whatever follows it, provided that does not start with a digit. |
| Ids.InputUserId | acunetix/utils.py:23 | An id is returned unchanged; a User yields `user_id`. |
| Ids.InputTargetId | acunetix/utils.py:41 | An id is returned unchanged; a Target yields its (optional) `target_id`. |
| Ids.InputScanId | acunetix/utils.py:59 | An id is returned unchanged; a Scan yields `scan_id`. |
| Ids.InputReportTemplateId | acunetix/utils.py:79-83 | An id is returned unchanged; a ReportTemplate yields `template_id`. |
| Ids.InputReportId | acunetix/utils.py:101 | An id is returned unchanged; a Report yields `report_id`. |
| Ids.InputScanProfileId | acunetix/utils.py:119-123 | An id is returned unchanged; a ScanProfile yields `profile_id`. |
| Ids.ExtractorsIdempotent | acunetix/utils.py:23-123 | Each extractor gives the same id back when handed its own result. |
| ScanMethods.EffectiveSchedule | acunetix/methods/scans.py:85-93 | A given schedule is used as is; none gives the default schedule. |
| ScanMethods.DefaultScheduleWire | acunetix/methods/scans.py:85-101 | On the wire, the default schedule is the three false flags and a null start date. |
| ScanMethods.ScanPayload | acunetix/methods/scans.py:98-111 | Always `profile_id`, `target_id` and `schedule` (through `to_json`); `report_template_id` exactly when a template is given; no other key. |
| ScanMethods.DefaultPayloadSchedule | acunetix/methods/scans.py:85-101 | The default schedule decodes back with history limit and recurrence at None. |
| ScanMethods.UpToSlash | acunetix/methods/scans.py:134 | The leading path segment has no slash. |
| ScanMethods.PathScanIdOf | acunetix/methods/scans.py:134-176 | The scan id is read back from the delete path and from every action path. |
| ScanMethods.PathsDistinct | acunetix/methods/scans.py:134-176 | For slash-free ids, the action paths determine scan and action, and none equals a delete path. |
| ReportMethods.CreateReportBody | acunetix/methods/reports.py:121-125 | Exactly `template_id` (the template's id) and `source`, which decodes back to the given TypedList. |
| ReportMethods.ReportIdList | acunetix/methods/reports.py:171 | One id per report, in input order. |
| ReportMethods.DeleteReportsBody | acunetix/methods/reports.py:168-172 | Only `report_id_list`; it decodes to the ids in input order. |
| ReportMethods.DeleteOneReport | acunetix/methods/reports.py:189 | `delete_report(r)` sends the one-element list holding r's id. |
| ReportMethods.KeptUris | acunetix/methods/reports.py:212-214 | The filter never adds URIs. |
| ReportMethods.KeptUrisMembers | acunetix/methods/reports.py:212-214 | A URI is kept iff it is in the report and wanted. |
| ReportMethods.KeptUrisAppend | acunetix/methods/reports.py:212-214 | The filter keeps the original order. |
| ReportMethods.KeptUrisBoth | acunetix/methods/reports.py:213 | With "both" every URI is kept. |
| ReportMethods.DownloadUrls | acunetix/methods/reports.py:216 | One `https://{endpoint}{uri}` per URI, in order. |
| ReportMethods.CollectDownloads | acunetix/methods/reports.py:212-216 | The loop yields the URLs of the kept URIs, in order. |
| ReportMethods.FirstMatchSpec | acunetix/methods/reports.py:87-89 | A report is found iff some report names the target. The one found names it and comes before every other match. |
| ReportMethods.FindReportForTarget | acunetix/methods/reports.py:87-89 | The loop returns the first report whose `source.id_list` holds the target id. |
| ReportMethods.DecodeReports | acunetix/methods/reports.py:41-44 | The listing decodes iff every item does; the result decodes item by item, in order. |
| ReportMethods.DecodeEach | acunetix/methods/reports.py:41-44 | A list comprehension over a decoder succeeds iff every item decodes. The result then has one element per item, each the decoding of that item, in order. |
| ReportMethods.QueryOf | acunetix/methods/reports.py:209 | `download_report` hands a bare id or a Report record to `get_report`. |
| ReportMethods.SearchByTarget | acunetix/methods/reports.py:85-91 | The target search makes the single request `GET reports`. |
| ReportMethods.SearchByScan | acunetix/methods/reports.py:76-83 | The scan stage starts with `GET scans/{id}`. |
| ReportMethods.SearchById | acunetix/methods/reports.py:67-74 | The direct lookup starts with `GET reports/{id}`. |
| ReportMethods.ResolveReport | acunetix/methods/reports.py:46-91 | `get_report` makes between one and three requests. |
| ReportMethods.ListingReports | acunetix/methods/reports.py:41-44 | The `reports` listing: a list is decoded item by item; an empty dict or string lists no reports; a non-empty dict or string yields strings (keys or characters), and fails with the error of decoding a string; a missing key is KeyError, a non-dict body TypeError. Only a list gives reports. |
| ReportMethods.EmptyListingNotFound | acunetix/methods/reports.py:85-91 | An empty listing makes the target search end in Acunetix404Error("Report not found"). |
| ReportMethods.AsWrittenGetReport | acunetix/methods/reports.py:67-91 | As written, a record, an id or a target fails at the `self.request` lookup with AttributeError before any request; a scan is fetched with `GET scans/{id}`, an API error there is raised, and otherwise the target search fails at `get_reports`. |
| ReportMethods.SelfRequestNeverReturns | acunetix/methods/reports.py:43-91 | As written `get_report` never returns a report. Its requests are a prefix of ResolveReport's, the outcomes agree when the requests do, and a successful direct lookup that ResolveReport returns fails as written. |
| ReportMethods.ReportNotFoundReraised | acunetix/methods/reports.py:72-74 | A 404 on the direct lookup is re-raised for a Report record, or for an id with `input_type == "report"`, after a single request. |
| ReportMethods.IdMissingTwice | acunetix/methods/reports.py:67-83 | A bare id that 404s as a report and as a scan, without an input type that re-raises, ends in UnboundLocalError after exactly those two requests. |
| ReportMethods.TargetSearch | acunetix/methods/reports.py:85-91 | For a target, a report is returned iff some listed report names it. The one returned names it. Otherwise the outcome is Acunetix404Error("Report not found"). |
| TypedLists.FromDict | acunetix/schema/typed_list.py:11-13 | Success requires exactly the field keywords, with `list_type` and `id_list` present. The record holds the dict's values. |
| TypedLists.ToJson | acunetix/schema/typed_list.py:15-21 | `description` is present iff it is not None; `list_type` and `id_list` are copied, in order. |
| TypedLists.FromDictToJson | acunetix/schema/typed_list.py:12-21 | `from_dict(to_json(t)) == t` for every record. |
| TypedLists.FromDictAsDict | acunetix/schema/typed_list.py:12-16 | `asdict` output, with a None description kept, decodes back too. |
| TypedLists.ToJsonFromDict | acunetix/schema/typed_list.py:12-21 | `to_json(from_dict(d)) == d` when `description` is absent or non-None. |
| InputTargets.FromDict | acunetix/schema/input_target.py:10-12 | Success requires `address` and no unknown keyword; the record holds the dict's values. |
| InputTargets.ToJson | acunetix/schema/input_target.py:14-20 | `description` is present iff it is not None; `address` is always present and unchanged. |
| InputTargets.FromDictToJson | acunetix/schema/input_target.py:11-20 | `from_dict(to_json(t)) == t` for every record. |
| InputTargets.ToJsonFromDict | acunetix/schema/input_target.py:11-20 | `to_json(from_dict(d)) == d` when `description` is absent or non-None. |
| ReportTemplates.FromDict | acunetix/schema/report_template.py:12-14 | Success requires the three required keys and no unknown one; the record holds the dict's values. |
| ReportTemplates.ToJson | acunetix/schema/report_template.py:16-22 | `accepted_sources` is dropped exactly when None (an empty list is kept); `template_id`, `group` and `name` are always present and unchanged. |
| ReportTemplates.FromDictToJson | acunetix/schema/report_template.py:13-22 | `from_dict(to_json(t)) == t` for every record. |
| ReportTemplates.ToJsonFromDict | acunetix/schema/report_template.py:13-22 | `to_json(from_dict(d)) == d` when `accepted_sources` is absent or non-None. |
| ReportTemplates.IdMap | acunetix/schema/report_template.py:128-146 | A `{t.template_id: t}` display holds every listed id as a key. |
| ReportTemplates.IdMapKeys | acunetix/schema/report_template.py:128-146 | Every key maps to a template with that id, and every key is a listed id. |
| ReportTemplates.IdMapDistinct | acunetix/schema/report_template.py:128-146 | With distinct ids each template is found under its own id. |
| ReportTemplates.IdMapSize | acunetix/schema/report_template.py:128-146 | With distinct ids the map has one entry per template. |
| ReportTemplates.BuiltInIdsDistinct | acunetix/schema/report_template.py:25-126 | The seventeen built-in templates have pairwise distinct ids. |
| ReportTemplates.TemplateMapKeys | acunetix/schema/report_template.py:25-146 | Every TEMPLATE_MAP key is its value's `template_id`, and every key is a built-in id. Each built-in is found under its id. There are 17 entries. |
| PyDicts.Lift | acunetix/schema/report.py:33 | A freshly decoded dict holds the same keys, each with its wire value. |
| PyDicts.WireValue | acunetix/schema/report.py:43 | A plain value is accepted as such; a converted object is refused where a plain value belongs. |
| PyDicts.Dict.Set | acunetix/schema/report.py:34-37 | `data[key] = e` replaces that one key. |
| PyDicts.Dict.SetDefault | acunetix/schema/report.py:38-41 | `setdefault` stores only under an absent key. |
| Scheduling.Construct | acunetix/schema/scheduling_options.py:7-13 | Success requires the three flags and no unknown keyword. The record holds the dict's values, and its start date is the converted datetime or None. |
| Scheduling.FromEntries | acunetix/schema/scheduling_options.py:15-19 | The caller's dict changes iff its `start_date` is a truthy string, and then only that key, now a datetime. A truthy non-string start date fails; otherwise the result is `cls(**data)` (Construct) of the dict afterwards. |
| Scheduling.FromDict | acunetix/schema/scheduling_options.py:15-19 | The in-place method's result and the caller's dict afterwards are those of FromEntries. |
| Scheduling.ToJson | acunetix/schema/scheduling_options.py:21-32 | `recurrence` and `history_limit` are present iff truthy. `start_date` is always present: ISO text, or null. The three flags are always present. |
| Scheduling.AsDict | acunetix/schema/scheduling_options.py:22-24 | Every field under its own key, with a set start date as ISO text and a missing one as null. |
| Scheduling.PopFalsy | acunetix/schema/scheduling_options.py:26-30 | The key stays iff its value is truthy. Every other key stays, and no value changes. |
| Scheduling.FromWireToJson | acunetix/schema/scheduling_options.py:15-32 | `from_dict(to_json(s))` is `s` with a falsy recurrence or a 0 history limit back at None. |
| Scheduling.RoundTripExact | acunetix/schema/scheduling_options.py:15-32 | The round trip is exact iff the history limit is not 0 and the recurrence is truthy or None. |
| Json.FromIsoFormat | acunetix/schema/report.py:34-36 | An accepted text is exactly what `isoformat` gives back. |
| Json.CheckKeywords | acunetix/schema/report.py:43 | `cls(**data)` accepts iff every key is a field and every required field is given. |
| Json.AsStringsOfStrings | acunetix/schema/typed_list.py:16 | A list of strings encoded then decoded is unchanged. |
| Json.StringsOfAsStrings | acunetix/schema/typed_list.py:16 | A decoded list of strings encodes back to the same JSON. |
| Reports.PostInit | acunetix/schema/report.py:21-30 | With a template, each None among `template_id`, `template_name` and `template_type` is filled from it (the type with 0). A set field is never overwritten, and without a template nothing changes. |
| Reports.PostInitIdempotent | acunetix/schema/report.py:21-30 | A second `__post_init__` changes nothing. |
| Reports.TemplateFor | acunetix/schema/report.py:40 | Found iff the id is a TEMPLATE_MAP key, and then it is the template with that id. |
| Reports.LookupTemplate | acunetix/schema/report.py:40 | A string id is looked up. A list, a dict or an object is unhashable (TypeError). Anything else is not found. |
| Reports.Construct | acunetix/schema/report.py:43 | The record holds the dict's values: the converted date and source, the `download` list, the id and status strings, and the template. `template_id`, `template_name` and `template_type` are the dict's, or, when the dict holds null there and a template is set, filled from it (type 0) by `__post_init__`, which has been applied. |
| Reports.RequiredFields | acunetix/schema/report.py:11-15 | The five required fields are read with their types, and each is the value the dict holds, `download` included. |
| Reports.OptionalFields | acunetix/schema/report.py:16-19 | The template is None iff the dict holds null there, and otherwise the instance stored; `template_id`, `template_name` and `template_type` are the dict's values, absent ones None. |
| Reports.ConvertDate | acunetix/schema/report.py:34-36 | `generation_date` is replaced by its datetime iff it is a non-empty string; on failure the dict is unchanged. |
| Reports.ConvertSource | acunetix/schema/report.py:37 | `source` is replaced by its TypedList iff it is a dict that decodes; on failure the dict is unchanged. |
| Reports.DefaultTemplate | acunetix/schema/report.py:38-41 | The default is looked up even when `template` is present (and can raise). An absent `template` is set to the looked-up template or None. No existing key changes. |
| Reports.Rewrite | acunetix/schema/report.py:34-41 | Only `generation_date` and `source` change, and `template` is added if absent; an explicit `template` is kept. |
| Reports.FromEntries | acunetix/schema/report.py:32-43 | The caller's dict ends as Rewrite leaves it, even on failure; a failed rewrite fails the decode, and after a successful one the result is Construct of the rewritten dict. |
| Reports.FromDict | acunetix/schema/report.py:32-43 | The in-place method's result and the caller's dict afterwards are those of FromEntries. |
| Reports.DecodeReportValue | acunetix/schema/report.py:33-34 | A response that is not a dict fails to decode. |
| Reports.DecodeFresh | acunetix/methods/reports.py:68-70 | Decoding a response body through a fresh dict and the in-place FromDict gives exactly DecodeReportValue. |
| Reports.ToJson | acunetix/schema/report.py:45-49 | No `template` key. The date is ISO text. The source is its plain dict, and every other field is copied. |
| Reports.FromDictRewrites | acunetix/schema/report.py:34-41 | On success the caller's dict holds the converted date and source and gains `template`; no other key changes. |
| Reports.TemplateDefaulting | acunetix/schema/report.py:38-41 | Without a `template` key the template is `TEMPLATE_MAP.get(template_id)`; an explicit one is kept. |
| Reports.FromDictTwiceFails | acunetix/schema/report.py:34-36 | A dict already decoded cannot be decoded again: its date is no longer a string. |
| Reports.LiftToJson | acunetix/schema/report.py:45-49 | What `to_json` writes holds the ISO date, the plain source dict, the template id and no template. |
| Reports.RewriteToJson | acunetix/schema/report.py:34-49 | `from_dict`'s rewrites succeed on `to_json` output and re-look up the template from its id. |
| Reports.ConstructRewrittenJson | acunetix/schema/report.py:21-49 | Constructing from the rewritten `to_json` output gives the record with the looked-up template, after `__post_init__`. |
| Reports.DecodeToJson | acunetix/schema/report.py:21-49 | `from_dict(to_json(r))` re-looks up the template from the id and runs `__post_init__` again. |
| Reports.RoundTripExact | acunetix/schema/report.py:21-49 | The round trip is exact iff the template is the one TEMPLATE_MAP gives for its id and `__post_init__` has nothing to fill. |
| Resources.DecodeNotification | acunetix/schema/notification.py:21-25 | The three fields the poller uses decode iff present with their types. |
| Resources.DecodeNotificationFields | acunetix/schema/notification.py:21-25 | A notification decodes back from its fields, whatever else the item carries. |

## Findings

| source | as written | input that shows it | evidently intended | confidence | as-written member | corrected member |
|---|---|---|---|---|---|---|
| acunetix/methods/reports.py:43,70,121,148,168 | The report methods call `self.request`; the client defines only `_request` (acunetix/__init__.py:264), and reports.py:5 binds `request` only as a module name | `get_report("r1")` with any scanner: the attribute lookup raises AttributeError, not caught by `except Acunetix404Error`, and no request is sent | the calls go through `_request`, as the scan methods do | not executed | ReportMethods.AsWrittenGetReport, ReportMethods.SelfRequestNeverReturns | ReportMethods.ResolveReport |

The rest of the model, `Client.AcunetixApi.GetReport`, `CreateReport`,
`DeleteReports` and `DownloadReport` included, uses the corrected calls.

## Left out

- HTTP and file I/O: aiohttp sessions, the `X-Auth` header, `requests.get`, temporary files and the Content-Disposition file name of `download_report` (acunetix/methods/reports.py:217-237). Replies are parameters, and `Client.AcunetixApi.DownloadReport` returns the URLs it would fetch.
- Concurrency: `asyncio.create_task`, the `while True` loop and its `asyncio.sleep(5)`. One pass of the loop is modelled (`PollOnce`); starting the poller is a counter. The thread executor `run_sync` (acunetix/utils.py:127-136) is not needed by the model.
- Awaiting async callbacks: `iscoroutinefunction` is applied to the callback's return value, so coroutine callbacks are never awaited. A callback is a recorded invocation. Its effects, and exceptions raised by it, are not modelled.
- Callbacks.Callback: a signature is reduced to its number of parameters.
- The contents of `SCAN_DONE_STATUS` and `REPORT_DONE_STATUS`: they come from `status_codes`, which is not part of this model, so they are a parameter set.
- Json.FromIsoFormat: `datetime.fromisoformat` and `isoformat` belong to the Python library. The model accepts every non-empty text and makes the two conversions inverse.
- Resources.DecodeNotification: `Notification.from_dict` is reduced to the three fields the poller uses. Its conversion of `created` and `data` is not modelled, nor the errors those raise, nor its rewriting of the fetched item.
- Scan.from_dict is not part of this model. What it makes of a fetched scan is a parameter (`scanRecord`) of `CreateScan` and `get_report`.
- Typed records: `cls(**data)` in Python stores a wrongly typed value as is. The model rejects it with TypeError. This is why the records' `from_dict` contracts speak of results that succeed.
- Json.Value has no floating-point numbers: no modelled field holds one.
- A response body that is not a JSON object is treated as TypeError wherever the code indexes it with a string.
- Requests.ResponseId: a non-string value under the key is refused with TypeError; the code registers the callback under that value and fetches with it, but the model keys callbacks and paths by strings.
- Callbacks.FormatId: a list or dict `notification_id` is refused with TypeError; Python would format its `repr`, which the model does not render.
- Reports.PostInit: `__post_init__` assigns the record's fields in place; it is modelled as a function from record to record.
- Scheduling.ToJson, Reports.ToJson, TypedLists.ToJson, InputTargets.ToJson, ReportTemplates.ToJson: each builds a fresh dict and pops keys from it. They are modelled as functions returning the final map, because no caller sees the intermediate dict.
- The JSON encoder patch (acunetix/__init__.py:150-159) is not modelled. Its effect, sending a record through its `to_json`, is written into the request bodies.
- `_request`'s `full_response` flag: no modelled caller sets it.
- `default_scan`, `get_scans`, `get_scan` on its own, `get_reports` on its own, `get_report_templates`, the target methods and the user methods are left out as thin single-request wrappers. `get_scan` and `get_reports` appear inside `get_report`.
- Logging calls have no effect on the modelled state and are not modelled.
