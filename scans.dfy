/** The request shapes of the scan methods: the default schedule and the
    payload of `create_scan`, and the paths of delete, pause, resume and
    stop. */
module ScanMethods {
  import opened Json
  import opened Resources
  import opened Ids
  import opened Requests
  import Scheduling
  import ReportTemplates

  type SchedulingOptions = Scheduling.SchedulingOptions

  /** The schedule `create_scan` uses when none is given: not disabled, no
      history, recurrence the int 0, no start date, neither time sensitive
      nor triggerable. */
  const DefaultSchedule: SchedulingOptions := Scheduling.SchedulingOptions(
    disable := false, timeSensitive := false, triggerable := false,
    historyLimit := Some(0), recurrence := Int(0), startDate := None)

  /** `if not schedule: schedule = SchedulingOptions(...)`: a given schedule
      is a dataclass instance and therefore always truthy. */
  function EffectiveSchedule(schedule: Option<SchedulingOptions>): (s: SchedulingOptions)
    ensures schedule.Some? ==> s == schedule.value
    ensures schedule.None? ==> s == DefaultSchedule
  {
    if schedule.Some? then schedule.value else DefaultSchedule
  }

  /** On the wire the default schedule is just the three flags and a null
      start date: its 0 history limit and 0 recurrence are falsy and dropped. */
  lemma DefaultScheduleWire()
    ensures Scheduling.ToJson(DefaultSchedule)
      == map["disable" := Bool(false), "time_sensitive" := Bool(false), "triggerable" := Bool(false), "start_date" := Null]
  {
    var d := Scheduling.ToJson(DefaultSchedule);
    assert d.Keys == {"disable", "time_sensitive", "triggerable", "start_date"};
  }

  /** `if report_template`: an id counts only when non-empty, a record always. */
  predicate TemplateGiven(template: Option<Ref<ReportTemplates.ReportTemplate>>) {
    template.Some? && !(template.value.ById? && template.value.id == "")
  }

  const PayloadKeys: set<string> := {"profile_id", "target_id", "schedule", "report_template_id"}

  /** The body of `POST scans`. The schedule goes out through its `to_json`
      (the client patches the JSON encoder to call it). */
  function ScanPayload(target: Ref<Target>, profile: Ref<ScanProfile>,
                       template: Option<Ref<ReportTemplates.ReportTemplate>>,
                       schedule: Option<SchedulingOptions>): (p: Fields)
    ensures p.Keys <= PayloadKeys
    ensures "profile_id" in p && p["profile_id"] == Str(InputScanProfileId(profile))
    ensures "target_id" in p && p["target_id"] == OptString(InputTargetId(target))
    ensures "schedule" in p && p["schedule"] == Object(Scheduling.ToJson(EffectiveSchedule(schedule)))
    ensures "report_template_id" in p <==> TemplateGiven(template)
    ensures TemplateGiven(template) ==> p["report_template_id"] == Str(InputReportTemplateId(template.value))
  {
    var p := map[
      "profile_id" := Str(InputScanProfileId(profile)),
      "target_id" := OptString(InputTargetId(target)),
      "schedule" := Object(Scheduling.ToJson(EffectiveSchedule(schedule)))];
    if TemplateGiven(template) then p["report_template_id" := Str(InputReportTemplateId(template.value))] else p
  }

  /** Without a schedule the payload's schedule decodes back to the default
      with its falsy history limit and recurrence at None. */
  lemma DefaultPayloadSchedule(target: Ref<Target>, profile: Ref<ScanProfile>, template: Option<Ref<ReportTemplates.ReportTemplate>>)
    ensures Scheduling.FromWire(ScanPayload(target, profile, template, None)["schedule"].fields)
      == Ok(DefaultSchedule.(historyLimit := None, recurrence := Null))
  {
    Scheduling.FromWireToJson(DefaultSchedule);
  }

  /** `f"scans/{scan_id}"`. */
  function ScanPath(id: string): string {
    "scans/" + id
  }

  datatype ScanAction = Pause | Resume | Abort

  /** `stop_scan` posts to `abort`. */
  function ActionName(a: ScanAction): string {
    match a
    case Pause => "pause"
    case Resume => "resume"
    case Abort => "abort"
  }

  /** `f"scans/{scan_id}/<action>"`. */
  function ActionPath(id: string, a: ScanAction): string {
    ScanPath(id) + "/" + ActionName(a)
  }

  /** `delete_scan`: `DELETE scans/{id}` without a body. */
  function DeleteScanRequest(endpoint: string, scan: Ref<Scan>): Request {
    Request(DELETE, Url(endpoint, ScanPath(InputScanId(scan))), None)
  }

  /** `pause_scan`, `resume_scan`, `stop_scan`: a POST with an empty body. */
  function ActionRequest(endpoint: string, scan: Ref<Scan>, a: ScanAction): Request {
    Request(POST, Url(endpoint, ActionPath(InputScanId(scan), a)), Some(Object(map[])))
  }

  /** The leading part of a path segment, up to the first slash. */
  function UpToSlash(s: string): (t: string)
    ensures '/' !in t
  {
    if s == [] || s[0] == '/' then [] else [s[0]] + UpToSlash(s[1..])
  }

  lemma {:induction false} UpToSlashOf(id: string, rest: string)
    requires '/' !in id && (rest == [] || rest[0] == '/')
    ensures UpToSlash(id + rest) == id
  {
    if id == [] {
      assert id + rest == rest;
    } else {
      assert (id + rest)[1..] == id[1..] + rest;
      UpToSlashOf(id[1..], rest);
    }
  }

  /** The scan id a scan or action path names. */
  function PathScanId(path: string): string {
    if |path| < |ScanPath("")| then [] else UpToSlash(path[|ScanPath("")|..])
  }

  /** Reading the scan id back from the paths built for an id without a slash. */
  lemma PathScanIdOf(id: string, a: ScanAction)
    requires '/' !in id
    ensures PathScanId(ScanPath(id)) == id
    ensures PathScanId(ActionPath(id, a)) == id
  {
    ScanPathScanId(id);
    ActionPathScanId(id, a);
  }

  lemma ScanPathScanId(id: string)
    requires '/' !in id
    ensures PathScanId(ScanPath(id)) == id
  {
    assert ScanPath(id)[|ScanPath("")|..] == id + [];
    UpToSlashOf(id, []);
  }

  lemma ActionPathScanId(id: string, a: ScanAction)
    requires '/' !in id
    ensures PathScanId(ActionPath(id, a)) == id
  {
    var rest := "/" + ActionName(a);
    assert ActionPath(id, a) == ScanPath("") + (id + rest);
    assert ActionPath(id, a)[|ScanPath("")|..] == id + rest;
    UpToSlashOf(id, rest);
  }

  /** For ids without a slash the paths name the scan and the action
      unambiguously, and no action path is a plain scan path. */
  lemma PathsDistinct(id: string, other: string, a: ScanAction, b: ScanAction)
    requires '/' !in id && '/' !in other
    ensures ActionPath(id, a) == ActionPath(other, b) ==> id == other && a == b
    ensures ScanPath(id) != ActionPath(other, b)
  {
    PathScanIdOf(id, a);
    PathScanIdOf(other, b);
    if ActionPath(id, a) == ActionPath(other, b) {
      var s := ActionPath(id, a);
      assert ActionName(a) == s[|ScanPath(id)| + 1..] == ActionName(b);
    }
  }
}
