/** The `get_input_*_id` helpers: every client method that takes a resource
    accepts either its id or the record itself. */
module Ids {
  import opened Json
  import opened Resources
  import ReportTemplates
  import Reports

  /** `typing.Union[<record>, str]`. */
  datatype Ref<T> = ById(id: string) | ByRecord(record: T)

  /** `get_input_user_id`. */
  function InputUserId(u: Ref<User>): (id: string)
    ensures u.ById? ==> id == u.id
    ensures u.ByRecord? ==> id == u.record.userId
  {
    if u.ByRecord? then u.record.userId else u.id
  }

  /** `get_input_target_id`: a target record's `target_id` is optional, so
      the id may be None. */
  function InputTargetId(t: Ref<Target>): (id: Option<string>)
    ensures t.ById? ==> id == Some(t.id)
    ensures t.ByRecord? ==> id == t.record.targetId
  {
    if t.ByRecord? then t.record.targetId else Some(t.id)
  }

  /** `get_input_scan_id`. */
  function InputScanId(s: Ref<Scan>): (id: string)
    ensures s.ById? ==> id == s.id
    ensures s.ByRecord? ==> id == s.record.scanId
  {
    if s.ByRecord? then s.record.scanId else s.id
  }

  /** `get_input_report_template_id`. */
  function InputReportTemplateId(t: Ref<ReportTemplates.ReportTemplate>): (id: string)
    ensures t.ById? ==> id == t.id
    ensures t.ByRecord? ==> id == t.record.templateId
  {
    if t.ByRecord? then t.record.templateId else t.id
  }

  /** `get_input_report_id`. */
  function InputReportId(r: Ref<Reports.Report>): (id: string)
    ensures r.ById? ==> id == r.id
    ensures r.ByRecord? ==> id == r.record.reportId
  {
    if r.ByRecord? then r.record.reportId else r.id
  }

  /** `get_input_scan_profile_id`. */
  function InputScanProfileId(p: Ref<ScanProfile>): (id: string)
    ensures p.ById? ==> id == p.id
    ensures p.ByRecord? ==> id == p.record.profileId
  {
    if p.ByRecord? then p.record.profileId else p.id
  }

  /** Each extractor gives the same id when handed its own result. */
  lemma ExtractorsIdempotent(u: Ref<User>, t: Ref<Target>, s: Ref<Scan>, rt: Ref<ReportTemplates.ReportTemplate>,
                             r: Ref<Reports.Report>, p: Ref<ScanProfile>)
    ensures InputUserId(ById(InputUserId(u))) == InputUserId(u)
    ensures InputTargetId(t).Some? ==> InputTargetId(ById(InputTargetId(t).value)) == InputTargetId(t)
    ensures InputScanId(ById(InputScanId(s))) == InputScanId(s)
    ensures InputReportTemplateId(ById(InputReportTemplateId(rt))) == InputReportTemplateId(rt)
    ensures InputReportId(ById(InputReportId(r))) == InputReportId(r)
    ensures InputScanProfileId(ById(InputScanProfileId(p))) == InputScanProfileId(p)
  {
  }
}
