/**
 * src/components/pages/Reports.jsx: the scheduled-reports page.  Its state is
 * the report list, the new-report form and whether the form is shown; the
 * handlers create a report from the form, record a run, and pause or resume.
 */
module Reports {
  import opened Results
  import opened Seqs
  import opened Text
  import Tables

  /** A report; the source's `type` field is `kind` here, and `lastRun` is in milliseconds. */
  datatype Report = Report(Id: int, name: string, kind: string, schedule: string, lastRun: int,
                           status: string, recipients: nat)

  function ReportKey(r: Report): int { r.Id }

  /** The form's fields; `recipients` is the comma-separated text as typed. */
  datatype ReportForm = ReportForm(name: string, kind: string, schedule: string, recipients: string)

  const EMPTY_FORM := ReportForm("", "performance", "weekly", "")

  const INITIAL_REPORTS := [
    Report(1, "Weekly Performance Report", "performance", "weekly", 1705305600000, "active", 3),
    Report(2, "Monthly Attribution Analysis", "attribution", "monthly", 1704099600000, "active", 5),
    Report(3, "Campaign ROI Summary", "roi", "bi-weekly", 1704708000000, "paused", 2)
  ]

  /** The recipient count: the number of comma-separated pieces, or 0 for an empty field. */
  function RecipientCount(recipients: string): (n: nat)
    ensures recipients == "" ==> n == 0
    ensures recipients != "" ==> n == Count(recipients, ',') + 1
  {
    if recipients == "" then 0 else |Split(recipients, ',')|
  }

  /** The pieces counted are those that, joined by commas, give back the field. */
  lemma RecipientPieces(recipients: string)
    requires recipients != ""
    ensures RecipientCount(recipients) == |Split(recipients, ',')|
    ensures Join(Split(recipients, ','), ',') == recipients
  {
    SplitJoin(recipients, ',');
  }

  /** The form is accepted when its name has a character that is not white space. */
  predicate Accepts(form: ReportForm) {
    Trim(form.name) != ""
  }

  lemma AcceptsNonBlank(form: ReportForm)
    ensures Accepts(form) <==> exists i :: 0 <= i < |form.name| && !IsSpace(form.name[i])
  {
    TrimEmpty(form.name);
  }

  /** The report built from the form: `{ Id, ...newReport, lastRun: now, status: 'active', recipients }`. */
  function NewReport(id: int, form: ReportForm, now: int): Report {
    Report(id, form.name, form.kind, form.schedule, now, "active", RecipientCount(form.recipients))
  }

  /** The status after `handleToggleStatus`: active pauses, anything else becomes active. */
  function Toggled(status: string): (next: string)
    ensures next != status
    ensures next == "paused" <==> status == "active"
  {
    if status == "active" then "paused" else "active"
  }

  /** Toggling twice restores an active or paused report; any other status ends up paused. */
  lemma ToggledTwice(status: string)
    ensures status == "active" || status == "paused" ==> Toggled(Toggled(status)) == status
    ensures status != "active" && status != "paused" ==> Toggled(Toggled(status)) == "paused"
  {
  }

  function RunReport(reports: seq<Report>, id: int, now: int): seq<Report> {
    Tables.UpdateWhere(reports, ReportKey, id, (r: Report) => r.(lastRun := now))
  }

  function ToggleReport(reports: seq<Report>, id: int): seq<Report> {
    Tables.UpdateWhere(reports, ReportKey, id, (r: Report) => r.(status := Toggled(r.status)))
  }

  /** Every report's id is its position plus one. */
  ghost predicate IdsArePositions(reports: seq<Report>) {
    forall i :: 0 <= i < |reports| ==> reports[i].Id == i + 1
  }

  lemma InitialIds()
    ensures IdsArePositions(INITIAL_REPORTS)
  {
  }

  /**
   * The id `reports.length + 1` is fresh while ids are positions plus one:
   * the first report with it is the new one, and the ids stay positions plus one.
   */
  lemma CreateKeepsIds(reports: seq<Report>, form: ReportForm, now: int)
    requires IdsArePositions(reports)
    ensures var created := NewReport(|reports| + 1, form, now);
      && IdsArePositions(reports + [created])
      && IndexOf(reports + [created], ReportKey, |reports| + 1) == Some(|reports|)
  {
    var created := NewReport(|reports| + 1, form, now);
    var all := reports + [created];
    forall i | 0 <= i < |all|
      ensures ReportKey(all[i]) == i + 1
    {
      if i < |reports| {
        assert all[i] == reports[i];
      }
    }
    assert ReportKey(all[|reports|]) == |reports| + 1;
  }

  /** Running and toggling change only the targeted reports, and keep ids in place. */
  lemma UpdatesKeepIds(reports: seq<Report>, id: int, now: int)
    requires IdsArePositions(reports)
    ensures IdsArePositions(RunReport(reports, id, now))
    ensures IdsArePositions(ToggleReport(reports, id))
    ensures forall i :: 0 <= i < |reports| ==>
      var r := reports[i];
      && RunReport(reports, id, now)[i] == (if r.Id == id then r.(lastRun := now) else r)
      && ToggleReport(reports, id)[i] == (if r.Id == id then r.(status := Toggled(r.status)) else r)
  {
  }

  class ReportsPage {
    var reports: seq<Report>
    var newReport: ReportForm
    var showCreateForm: bool

    constructor()
      ensures reports == INITIAL_REPORTS && newReport == EMPTY_FORM && !showCreateForm
    {
      reports := INITIAL_REPORTS;
      newReport := EMPTY_FORM;
      showCreateForm := false;
    }

    /** The "Create Report" button and the form's Cancel and close buttons. */
    method ShowCreateForm(show: bool)
      modifies this
      ensures showCreateForm == show && reports == old(reports) && newReport == old(newReport)
    {
      showCreateForm := show;
    }

    /** The form's inputs: `setNewReport({ ...newReport, field: value })`. */
    method EditForm(form: ReportForm)
      modifies this
      ensures newReport == form && reports == old(reports) && showCreateForm == old(showCreateForm)
    {
      newReport := form;
    }

    /**
     * `handleCreateReport`: a blank name is refused and nothing changes;
     * otherwise the report is appended, the form is reset and hidden.
     */
    method HandleCreateReport(now: int) returns (created: bool)
      modifies this
      ensures created <==> Accepts(old(newReport))
      ensures !created ==> reports == old(reports) && newReport == old(newReport) && showCreateForm == old(showCreateForm)
      ensures created ==> reports == old(reports) + [NewReport(|old(reports)| + 1, old(newReport), now)]
                          && newReport == EMPTY_FORM && !showCreateForm
    {
      if Trim(newReport.name) == "" {
        return false;
      }
      var report := NewReport(|reports| + 1, newReport, now);
      reports := reports + [report];
      newReport := EMPTY_FORM;
      showCreateForm := false;
      created := true;
    }

    /** `handleRunReport`: only the lastRun of the reports with the id changes. */
    method HandleRunReport(reportId: int, now: int)
      modifies this
      ensures reports == RunReport(old(reports), reportId, now)
      ensures newReport == old(newReport) && showCreateForm == old(showCreateForm)
    {
      reports := RunReport(reports, reportId, now);
    }

    /** `handleToggleStatus`: only the status of the reports with the id changes. */
    method HandleToggleStatus(reportId: int)
      modifies this
      ensures reports == ToggleReport(old(reports), reportId)
      ensures newReport == old(newReport) && showCreateForm == old(showCreateForm)
    {
      reports := ToggleReport(reports, reportId);
    }
  }
}
