/**
 * The report page's own state: the `generating` flag that disables the
 * button while a report is built, and the dashboard name chosen from the
 * dashboard list when the selection changes.
 */
module ReportPage {
  import opened Common
  import opened PdfReport
  import opened Report

  /** An item of the dashboard list, read through its `dashboard_id` field. */
  datatype DashboardListItem = DashboardListItem(dashboardIdField: Option<ApiKey>, name: Option<string>)

  /** `list.find(d => d.dashboard_id === id)`: the first item whose field equals `id`. */
  function FindDashboard(list: seq<DashboardListItem>, id: ApiKey): (r: Option<DashboardListItem>)
    ensures r.None? <==> forall k :: 0 <= k < |list| ==> list[k].dashboardIdField != Some(id)
    ensures r.Some? ==> exists k :: 0 <= k < |list| && list[k] == r.value && r.value.dashboardIdField == Some(id)
                           && forall j :: 0 <= j < k ==> list[j].dashboardIdField != Some(id)
  {
    if list == [] then None
    else if list[0].dashboardIdField == Some(id) then Some(list[0])
    else
      var r := FindDashboard(list[1..], id);
      assert r.Some? ==> exists k :: 0 <= k < |list[1..]| && list[1..][k] == r.value
                            && forall j :: 0 <= j < k ==> list[1..][j].dashboardIdField != Some(id);
      r
  }

  /**
   * The name the selection effect stores: the name of the first list item
   * for the selected dashboard, `''` when there is no selection, no list, no
   * such item or no name.
   */
  function SelectedDashboardName(dashboardId: Option<ApiKey>, list: Option<seq<DashboardListItem>>): (r: string)
    ensures !TruthyOpt(dashboardId) || list.None? ==> r == ""
    ensures r != "" ==> exists k :: 0 <= k < |list.value| && list.value[k].dashboardIdField == dashboardId
                                    && list.value[k].name == Some(r)
    ensures TruthyOpt(dashboardId) && list.Some? && FindDashboard(list.value, dashboardId.value).Some? ==>
              r == FindDashboard(list.value, dashboardId.value).value.name.GetOr("")
  {
    if !TruthyOpt(dashboardId) || list.None? then ""
    else match FindDashboard(list.value, dashboardId.value)
      case Some(item) => item.name.GetOr("")
      case None => ""
  }

  /** How a click on "generate" ends: a toast with an error key, or a downloaded document. */
  datatype Outcome = Rejected(key: MsgKey) | Downloaded(doc: seq<Element>, fileName: string)

  /**
   * What the page takes from its surroundings in one run: the formatted
   * dates and labels, today's date and the random suffix of the file name,
   * where `autoTable` leaves its tables, and whether building or
   * downloading the PDF throws.
   */
  datatype Surroundings = Surroundings(
    texts: Texts, today: string, suffix: string,
    finalY: nat -> Option<int>, pdfThrows: bool)

  class ReportPageState {
    /** Whether a report is being generated. */
    var generating: bool
    /** The name of the selected dashboard, taken from the dashboard list. */
    var dashboardName: string
    /** Every value written to `generating`, in order. */
    ghost var flagWrites: seq<bool>

    constructor ()
      ensures !generating && dashboardName == "" && flagWrites == []
    {
      generating, dashboardName, flagWrites := false, "", [];
    }

    /** The effect run when the selected dashboard or the dashboard list changes. */
    method OnSelectionChange(dashboardId: Option<ApiKey>, list: Option<seq<DashboardListItem>>)
      modifies this`dashboardName
      ensures dashboardName == SelectedDashboardName(dashboardId, list)
    {
      if TruthyOpt(dashboardId) {
        var selected := if list.Some? then FindDashboard(list.value, dashboardId.value) else None;
        dashboardName := if selected.Some? then selected.value.name.GetOr("") else "";
      } else {
        dashboardName := "";
      }
    }

    /** Sets `generating` and records the write. */
    method SetGenerating(b: bool)
      modifies this`generating, this`flagWrites
      ensures generating == b && flagWrites == old(flagWrites) + [b]
    {
      generating := b;
      flagWrites := flagWrites + [b];
    }

    /**
     * `onGenerate`. A form that fails validation is rejected with its key and
     * leaves the flag alone. Past validation the flag is set, then cleared on
     * every way out: an error key, a thrown exception, or the download.
     */
    method OnGenerate(form: FormData, api: Backend, conv: Conversions, env: Surroundings)
      returns (outcome: Outcome)
      modifies this`generating, this`flagWrites
      ensures Validate(form).Failure? ==>
        outcome == Rejected(Validate(form).error) && generating == old(generating) && flagWrites == old(flagWrites)
      ensures Validate(form).Success? ==> !generating && flagWrites == old(flagWrites) + [true, false]
      ensures outcome.Rejected? ==> outcome.key != NoDataInRange && outcome.key != ReportSuccess
      ensures outcome.Downloaded? <==> Validate(form).Success? && DevicesOf(api, Validate(form).value).Some? && !env.pdfThrows
      ensures outcome.Downloaded? ==> outcome.fileName == FileName(env.today, env.suffix)
      ensures Validate(form).Success? && DevicesOf(api, Validate(form).value).Some? && env.pdfThrows ==>
        outcome == Rejected(GenerateFailed)
      ensures Validate(form).Success? && DetailOf(api, Validate(form).value).Failed? ==>
        outcome == Rejected(DashboardNotFound)
      ensures Validate(form).Success? && DetailOf(api, Validate(form).value).Succeeded?
              && EntityIdsOf(api, Validate(form).value) == [] ==>
        outcome == Rejected(NoEntitiesInDashboard)
      ensures Validate(form).Success? && EntityIdsOf(api, Validate(form).value) != []
              && EntitiesOf(api, Validate(form).value).None? ==>
        outcome == Rejected(FailedToFetchEntities)
      ensures Validate(form).Success? && EntitiesOf(api, Validate(form).value).Some?
              && DeviceIdsFor(api, Validate(form).value) == [] ==>
        outcome == Rejected(NoDevicesInDashboard)
      ensures Validate(form).Success? && DeviceIdsFor(api, Validate(form).value) != []
              && DevicesOf(api, Validate(form).value).None? ==>
        outcome == Rejected(FailedToFetchDevices)
    {
      var v := Validate(form);
      if v.Failure? {
        return Rejected(v.error);
      }
      SetGenerating(true);
      var r := Assemble(form, v.value, dashboardName, api, conv, env.texts);
      if r.Failure? {
        outcome := Rejected(r.error);
      } else if env.pdfThrows {
        outcome := Rejected(GenerateFailed);
      } else {
        var doc := BuildTelemetryPdf(r.value, conv.show, env.finalY);
        outcome := Downloaded(doc, FileName(env.today, env.suffix));
      }
      SetGenerating(false);
    }
  }
}
