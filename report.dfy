/**
 * The report page's `onGenerate` pipeline with every backend response taken
 * as an input: form validation, the ordered failure checks (each ending in
 * one message key), grouping of entities by device, device names, the four
 * aggregate values per entity and the device sections handed to the PDF
 * writer.
 */
module Report {
  import opened Common
  import opened DeviceGrouping
  import opened DeviceNames
  import opened PdfReport

  /** The message keys the page shows as toasts. */
  datatype MsgKey =
    | SelectDashboard | SelectDateRange
    | DashboardNotFound | NoEntitiesInDashboard | FailedToFetchEntities
    | NoDevicesInDashboard | FailedToFetchDevices | NoDataInRange
    | GenerateFailed | ReportSuccess

  /** The date range of the form: each end a timestamp (`valueOf()`), or null/undefined. */
  datatype DateRange = DateRange(start: Option<int>, end: Option<int>)

  datatype FormData = FormData(
    dashboardId: Option<ApiKey>, reportTitle: Option<string>,
    companyName: Option<string>, dateRange: Option<DateRange>)

  /** What validation hands on: the dashboard and the time window of the aggregates. */
  datatype Window = Window(dashboardId: ApiKey, start: int, end: int)

  /** A backend response: a failed request, or a successful one whose data may be null. */
  datatype Response<+T> = Failed | Succeeded(data: Option<T>)

  datatype DashboardDetail = DashboardDetail(entityIds: Option<seq<ApiKey>>, name: Option<string>)
  datatype EntityPage = EntityPage(content: Option<seq<Entity>>)
  datatype DevicePage = DevicePage(content: Option<seq<Device>>)

  datatype AggregateType = Last | Min | Max | Avg

  /** The `value` of an aggregate response: a number, or anything else given as its text. */
  datatype RawValue = NumberValue(v: Val) | OtherValue(text: string)
  datatype AggregateData = AggregateData(value: Option<RawValue>)

  /**
   * The backend, as the responses it gives to each request of the page:
   * dashboard detail by id, entity search by entity ids, device list by
   * device ids, aggregate history by entity, window and aggregate type.
   */
  datatype Backend = Backend(
    dashboardDetail: ApiKey -> Response<DashboardDetail>,
    searchEntities: seq<ApiKey> -> Response<EntityPage>,
    listDevices: seq<ApiKey> -> Response<DevicePage>,
    aggregateHistory: (ApiKey, int, int, AggregateType) -> Response<AggregateData>)

  /** `String(number)` and `Number(text)`. */
  datatype Conversions = Conversions(show: real -> string, toNumber: string -> Val)

  /** Localised labels and the formatted dates of one run. */
  datatype Texts = Texts(
    dateRange: string, generatedAt: string, defaultTitle: string, generatedAtLabel: string,
    ariotLabel: string, dashboardLabel: string, deviceLabel: string, tableHeaders: TableHeaders)

  /** One entity of a device group, as the `.map` at step 5 projects it. */
  datatype GroupEntity = GroupEntity(entityId: ApiKey, entityName: string, entityKey: string, unit: Option<string>)

  datatype DeviceEntityGroup = DeviceEntityGroup(deviceId: ApiKey, deviceName: string, entities: seq<GroupEntity>)

  // ---------------------------------------------------------------- validation

  /**
   * The checks before anything is requested: a falsy dashboard id first,
   * then a missing start or end.
   */
  function Validate(form: FormData): (r: Result<Window, MsgKey>)
    ensures r == Failure(SelectDashboard) <==> !TruthyOpt(form.dashboardId)
    ensures r == Failure(SelectDateRange) <==>
      TruthyOpt(form.dashboardId)
      && (form.dateRange.None? || form.dateRange.value.start.None? || form.dateRange.value.end.None?)
    ensures r.Success? ==>
      form.dateRange.Some? && form.dateRange.value.start.Some? && form.dateRange.value.end.Some?
      && r.value == Window(form.dashboardId.value, form.dateRange.value.start.value, form.dateRange.value.end.value)
  {
    if !TruthyOpt(form.dashboardId) then Failure(SelectDashboard)
    else if form.dateRange.None? || form.dateRange.value.start.None? || form.dateRange.value.end.None? then
      Failure(SelectDateRange)
    else Success(Window(form.dashboardId.value, form.dateRange.value.start.value, form.dateRange.value.end.value))
  }

  // ------------------------------------------------------- the fetched data

  function DetailOf(api: Backend, w: Window): Response<DashboardDetail> {
    api.dashboardDetail(w.dashboardId)
  }

  /** `getResponseData(resp1)`, null when the request failed. */
  function DetailData(api: Backend, w: Window): Option<DashboardDetail> {
    if DetailOf(api, w).Succeeded? then DetailOf(api, w).data else None
  }

  /** `dashboardDetail?.entity_ids ?? []`. */
  function EntityIdsOf(api: Backend, w: Window): seq<ApiKey> {
    if DetailData(api, w).Some? then DetailData(api, w).value.entityIds.GetOr([]) else []
  }

  /**
   * The entities of the search, `content ?? []`; `None` when the search
   * failed or returned no data object.
   */
  function EntitiesOf(api: Backend, w: Window): Option<seq<Entity>> {
    if EntityIdsOf(api, w) == [] then None
    else match api.searchEntities(EntityIdsOf(api, w))
      case Succeeded(Some(page)) => Some(page.content.GetOr([]))
      case _ => None
  }

  /** The device ids of step 3, or nothing when step 3 is not reached. */
  function DeviceIdsFor(api: Backend, w: Window): seq<ApiKey> {
    if EntitiesOf(api, w).Some? then DeviceIdsOf(EntitiesOf(api, w).value) else []
  }

  /** The devices of the list, `content ?? []`; `None` when the request failed or returned no data object. */
  function DevicesOf(api: Backend, w: Window): Option<seq<Device>> {
    if DeviceIdsFor(api, w) == [] then None
    else match api.listDevices(DeviceIdsFor(api, w))
      case Succeeded(Some(page)) => Some(page.content.GetOr([]))
      case _ => None
  }

  /**
   * The entity ids are exactly those listed by a successful dashboard-detail
   * request; a failed request, missing data or a missing list gives none.
   */
  lemma EntityIdsFromDetail(api: Backend, w: Window)
    ensures DetailOf(api, w).Failed? || DetailOf(api, w).data.None? ==> EntityIdsOf(api, w) == []
    ensures EntityIdsOf(api, w) != [] ==>
      DetailOf(api, w).Succeeded? && DetailOf(api, w).data.Some?
      && DetailOf(api, w).data.value.entityIds == Some(EntityIdsOf(api, w))
    ensures DetailOf(api, w).Succeeded? && DetailOf(api, w).data.Some? && DetailOf(api, w).data.value.entityIds.Some? ==>
      EntityIdsOf(api, w) == DetailOf(api, w).data.value.entityIds.value
    ensures DetailOf(api, w).Succeeded? && DetailOf(api, w).data.Some? && DetailOf(api, w).data.value.entityIds.None? ==>
      EntityIdsOf(api, w) == []
  {
  }

  /**
   * The entity search carries exactly the dashboard's entity ids, and it
   * yields entities exactly when there are ids and it succeeds with data.
   */
  lemma EntitiesFromSearch(api: Backend, w: Window)
    ensures EntitiesOf(api, w).Some? <==>
      EntityIdsOf(api, w) != [] && api.searchEntities(EntityIdsOf(api, w)).Succeeded?
      && api.searchEntities(EntityIdsOf(api, w)).data.Some?
    ensures EntitiesOf(api, w).Some? ==>
      EntitiesOf(api, w).value == api.searchEntities(EntityIdsOf(api, w)).data.value.content.GetOr([])
  {
  }

  /**
   * The device list request carries exactly the device ids grouped from the
   * entities, and it yields devices exactly when there are such ids and it
   * succeeds with data.
   */
  lemma DevicesFromList(api: Backend, w: Window)
    ensures DevicesOf(api, w).Some? <==>
      EntitiesOf(api, w).Some? && DeviceIdsOf(EntitiesOf(api, w).value) != []
      && api.listDevices(DeviceIdsOf(EntitiesOf(api, w).value)).Succeeded?
      && api.listDevices(DeviceIdsOf(EntitiesOf(api, w).value)).data.Some?
    ensures DevicesOf(api, w).Some? ==>
      DevicesOf(api, w).value == api.listDevices(DeviceIdsOf(EntitiesOf(api, w).value)).data.value.content.GetOr([])
  {
  }

  // ------------------------------------------------------- aggregate values

  /**
   * `agg(t)`: a present numeric value is kept, a present value of any other
   * type goes through `Number`, and a failed request or a null/undefined
   * value (or data) gives NaN.
   */
  function Normalize(resp: Response<AggregateData>, toNumber: string -> Val): (v: Val)
    ensures resp.Failed? || resp.data.None? || resp.data.value.value.None? ==> v == NaN
    ensures !NoValue(resp) && resp.data.value.value.value.NumberValue? ==> v == resp.data.value.value.value.v
    ensures !NoValue(resp) && resp.data.value.value.value.OtherValue? ==> v == toNumber(resp.data.value.value.value.text)
  {
    match resp
    case Succeeded(Some(AggregateData(Some(NumberValue(n))))) => n
    case Succeeded(Some(AggregateData(Some(OtherValue(t))))) => toNumber(t)
    case _ => NaN
  }

  function Aggregate(api: Backend, w: Window, id: ApiKey, t: AggregateType, toNumber: string -> Val): Val {
    Normalize(api.aggregateHistory(id, w.start, w.end, t), toNumber)
  }

  /** The row of one entity: its name, `unit ?? ''` and the values of its own four requests. */
  function RowOf(api: Backend, w: Window, e: GroupEntity, toNumber: string -> Val): PdfReportRow {
    PdfReportRow(e.entityName, e.unit.GetOr(""),
                 NumberCell(Aggregate(api, w, e.entityId, Last, toNumber)),
                 NumberCell(Aggregate(api, w, e.entityId, Min, toNumber)),
                 NumberCell(Aggregate(api, w, e.entityId, Max, toNumber)),
                 NumberCell(Aggregate(api, w, e.entityId, Avg, toNumber)))
  }

  /** A failed request, null data or a null/undefined value: nothing to show. */
  predicate NoValue(resp: Response<AggregateData>) {
    resp.Failed? || resp.data.None? || resp.data.value.value.None?
  }

  /**
   * A missing value does not drop the row: its cell in the PDF table shows
   * the placeholder, and so does the unit column of an entity without a unit.
   */
  lemma MissingShownAsDash(api: Backend, w: Window, e: GroupEntity, conv: Conversions)
    ensures var cells := BodyRow(RowOf(api, w, e, conv.toNumber), conv.show);
            && |cells| == 6 && cells[0] == e.entityName
            && (e.unit.GetOr("") == "" ==> cells[1] == Dash)
            && (NoValue(api.aggregateHistory(e.entityId, w.start, w.end, Last)) ==> cells[2] == Dash)
            && (NoValue(api.aggregateHistory(e.entityId, w.start, w.end, Min)) ==> cells[3] == Dash)
            && (NoValue(api.aggregateHistory(e.entityId, w.start, w.end, Max)) ==> cells[4] == Dash)
            && (NoValue(api.aggregateHistory(e.entityId, w.start, w.end, Avg)) ==> cells[5] == Dash)
  {
  }

  /** The table column of each aggregate type. */
  function Column(t: AggregateType): nat {
    match t
    case Last => 2
    case Min => 3
    case Max => 4
    case Avg => 5
  }

  /** A number the backend sends for an aggregate is shown, by `String`, in that aggregate's column. */
  lemma NumberShownInRow(api: Backend, w: Window, e: GroupEntity, conv: Conversions, t: AggregateType, x: real)
    requires api.aggregateHistory(e.entityId, w.start, w.end, t) == Succeeded(Some(AggregateData(Some(NumberValue(Num(x))))))
    ensures |BodyRow(RowOf(api, w, e, conv.toNumber), conv.show)| == 6
    ensures BodyRow(RowOf(api, w, e, conv.toNumber), conv.show)[Column(t)] == conv.show(x)
  {
  }

  /** Any other value the backend sends goes through `Number` before it is shown in its column. */
  lemma TextShownInRow(api: Backend, w: Window, e: GroupEntity, conv: Conversions, t: AggregateType, text: string)
    requires api.aggregateHistory(e.entityId, w.start, w.end, t) == Succeeded(Some(AggregateData(Some(OtherValue(text)))))
    ensures |BodyRow(RowOf(api, w, e, conv.toNumber), conv.show)| == 6
    ensures BodyRow(RowOf(api, w, e, conv.toNumber), conv.show)[Column(t)] == Fmt(NumberCell(conv.toNumber(text)), conv.show)
  {
  }

  /** The rows of a group: one per entity, in order; no entity is dropped. */
  function RowsOf(api: Backend, w: Window, es: seq<GroupEntity>, toNumber: string -> Val): (rows: seq<PdfReportRow>)
    ensures |rows| == |es|
    ensures forall k :: 0 <= k < |es| ==> rows[k] == RowOf(api, w, es[k], toNumber)
  {
    seq(|es|, k requires 0 <= k < |es| => RowOf(api, w, es[k], toNumber))
  }

  /** The section a group gives when it has entities. */
  function SectionOf(api: Backend, w: Window, g: DeviceEntityGroup, toNumber: string -> Val): PdfReportDeviceSection {
    PdfReportDeviceSection(g.deviceName, RowsOf(api, w, g.entities, toNumber))
  }

  /** What the section loop pushes for `gs`: a section for every group that yields rows. */
  function SectionsOf(api: Backend, w: Window, gs: seq<DeviceEntityGroup>, toNumber: string -> Val)
    : (secs: seq<PdfReportDeviceSection>)
    ensures |secs| <= |gs|
    ensures forall k :: 0 <= k < |secs| ==> secs[k].rows != []
  {
    if gs == [] then []
    else
      var g := gs[|gs| - 1];
      SectionsOf(api, w, gs[..|gs| - 1], toNumber)
        + (if g.entities != [] then [SectionOf(api, w, g, toNumber)] else [])
  }

  /** When no group is empty, every group gives its section, in group order. */
  lemma {:induction false} SectionsOfNonEmptyGroups(api: Backend, w: Window, gs: seq<DeviceEntityGroup>, toNumber: string -> Val)
    requires forall k :: 0 <= k < |gs| ==> gs[k].entities != []
    ensures |SectionsOf(api, w, gs, toNumber)| == |gs|
    ensures forall k :: 0 <= k < |gs| ==> SectionsOf(api, w, gs, toNumber)[k] == SectionOf(api, w, gs[k], toNumber)
  {
    if gs != [] {
      var pre := gs[..|gs| - 1];
      SectionsOfNonEmptyGroups(api, w, pre, toNumber);
      assert forall k :: 0 <= k < |pre| ==> pre[k] == gs[k];
    }
  }

  /** Step 6: the nested loops over groups and their entities. */
  method BuildSections(api: Backend, w: Window, groups: seq<DeviceEntityGroup>, toNumber: string -> Val)
    returns (sections: seq<PdfReportDeviceSection>)
    ensures sections == SectionsOf(api, w, groups, toNumber)
  {
    sections := [];
    for gi := 0 to |groups|
      invariant sections == SectionsOf(api, w, groups[..gi], toNumber)
    {
      assert groups[..gi + 1][..gi] == groups[..gi];
      var group := groups[gi];
      var rows: seq<PdfReportRow> := [];
      for j := 0 to |group.entities|
        invariant rows == RowsOf(api, w, group.entities[..j], toNumber)
      {
        var entity := group.entities[j];
        var last := Aggregate(api, w, entity.entityId, Last, toNumber);
        var min := Aggregate(api, w, entity.entityId, Min, toNumber);
        var max := Aggregate(api, w, entity.entityId, Max, toNumber);
        var avg := Aggregate(api, w, entity.entityId, Avg, toNumber);
        rows := rows + [PdfReportRow(entity.entityName, entity.unit.GetOr(""),
                                     NumberCell(last), NumberCell(min), NumberCell(max), NumberCell(avg))];
      }
      assert group.entities[..|group.entities|] == group.entities;
      if |rows| > 0 {
        sections := sections + [PdfReportDeviceSection(group.deviceName, rows)];
      }
    }
    assert groups[..|groups|] == groups;
  }

  // ------------------------------------------------------------- the groups

  function Project(e: Entity): GroupEntity {
    GroupEntity(e.entityId, e.entityName, e.entityKey, e.unit)
  }

  /** The `.map` of step 5: each entity keeps its id, name, key and unit, in order. */
  function ProjectAll(es: seq<Entity>): (gs: seq<GroupEntity>)
    ensures |gs| == |es|
    ensures forall k :: 0 <= k < |es| ==>
      gs[k].entityId == es[k].entityId && gs[k].entityName == es[k].entityName
      && gs[k].entityKey == es[k].entityKey && gs[k].unit == es[k].unit
  {
    seq(|es|, k requires 0 <= k < |es| => Project(es[k]))
  }

  /** Step 5, the `deviceIds.map`: one group per device id, in id order. */
  function BuildGroups(ids: seq<ApiKey>, names: map<ApiKey, Option<string>>,
                       entityMap: map<ApiKey, seq<Entity>>, show: real -> string)
    : (gs: seq<DeviceEntityGroup>)
    ensures |gs| == |ids|
  {
    seq(|ids|, k requires 0 <= k < |ids| =>
      DeviceEntityGroup(ids[k], GroupName(names, ids[k], show),
                        ProjectAll(if ids[k] in entityMap then entityMap[ids[k]] else [])))
  }

  /**
   * The sections the report should hold, read off the entity list and the
   * device list: one per device, in order of first appearance, named as the
   * device list names it, with one row per entity of that device.
   */
  function ExpectedSections(api: Backend, w: Window, es: seq<Entity>, devices: seq<Device>, conv: Conversions)
    : seq<PdfReportDeviceSection>
  {
    var ids := DeviceIdsOf(es);
    seq(|ids|, k requires 0 <= k < |ids| =>
      PdfReportDeviceSection(ListedName(devices, ids[k], conv.show),
                             RowsOf(api, w, ProjectAll(DeviceEntities(es, ids[k])), conv.toNumber)))
  }

  /**
   * Every expected section has at least one row, there is one per device,
   * and the rows of the device's section are those of its entities.
   */
  lemma ExpectedSectionsHaveRows(api: Backend, w: Window, es: seq<Entity>, devices: seq<Device>, conv: Conversions)
    ensures |ExpectedSections(api, w, es, devices, conv)| == |DeviceIdsOf(es)|
    ensures forall k :: 0 <= k < |DeviceIdsOf(es)| ==>
      |ExpectedSections(api, w, es, devices, conv)[k].rows| == |DeviceEntities(es, DeviceIdsOf(es)[k])| > 0
  {
    var ids := DeviceIdsOf(es);
    forall k | 0 <= k < |ids| ensures DeviceEntities(es, ids[k]) != [] {
      GroupsNonEmpty(es, ids[k]);
    }
  }

  /** The groups built from the loops' maps give exactly the expected sections. */
  lemma GroupsGiveExpectedSections(api: Backend, w: Window, es: seq<Entity>, devices: seq<Device>, conv: Conversions,
                                   names: map<ApiKey, Option<string>>, entityMap: map<ApiKey, seq<Entity>>)
    requires forall id :: id in names <==> LastEntry(devices, id).Some?
    requires forall id :: id in names ==> names[id] == LastEntry(devices, id).value
    requires forall d :: d in entityMap <==> d in DeviceIdsOf(es)
    requires forall d :: d in entityMap ==> entityMap[d] == DeviceEntities(es, d)
    ensures SectionsOf(api, w, BuildGroups(DeviceIdsOf(es), names, entityMap, conv.show), conv.toNumber)
            == ExpectedSections(api, w, es, devices, conv)
  {
    var ids := DeviceIdsOf(es);
    var gs := BuildGroups(ids, names, entityMap, conv.show);
    forall k | 0 <= k < |gs| ensures gs[k].entities != [] {
      GroupsNonEmpty(es, ids[k]);
    }
    SectionsOfNonEmptyGroups(api, w, gs, conv.toNumber);
    var secs, exp := SectionsOf(api, w, gs, conv.toNumber), ExpectedSections(api, w, es, devices, conv);
    forall k | 0 <= k < |gs| ensures secs[k] == exp[k] {
      GroupNameFromList(devices, names, ids[k], conv.show);
    }
  }

  // ------------------------------------------------------ the PDF options

  /** `dashboardName || detail?.name || ''`: the first non-empty of the two names. */
  function PdfDashboardName(selected: string, detail: Option<DashboardDetail>): (r: string)
    ensures selected != "" ==> r == selected
    ensures selected == "" && detail.Some? && detail.value.name.Some? ==> r == detail.value.name.value
    ensures r == "" <==> selected == "" && (detail.None? || detail.value.name.GetOr("") == "")
  {
    if selected != "" then selected
    else if detail.Some? && detail.value.name.Some? && detail.value.name.value != "" then detail.value.name.value
    else ""
  }

  /** The argument of `buildTelemetryPdf` once every fetch has succeeded. */
  function ReportOptions(form: FormData, selected: string, api: Backend, w: Window, conv: Conversions, texts: Texts)
    : PdfReportOptions
    requires DevicesOf(api, w).Some?
  {
    PdfReportOptions(
      form.reportTitle.GetOr(""),
      Some(form.companyName.GetOr("")),
      Some(PdfDashboardName(selected, DetailData(api, w))),
      texts.dateRange,
      ExpectedSections(api, w, EntitiesOf(api, w).value, DevicesOf(api, w).value, conv),
      texts.generatedAt, texts.defaultTitle, texts.generatedAtLabel, texts.ariotLabel,
      texts.dashboardLabel, texts.deviceLabel, texts.tableHeaders)
  }

  /**
   * The options of a run whose fetches all succeed: the form's title and
   * company name, the chosen dashboard name, and one section per device id,
   * named as the device list names it and holding one row per entity of that
   * device, so no section is empty.
   */
  lemma ReportOptionsOfRun(form: FormData, selected: string, api: Backend, w: Window, conv: Conversions, texts: Texts)
    requires DevicesOf(api, w).Some?
    ensures var o := ReportOptions(form, selected, api, w, conv, texts);
            var ids := DeviceIdsFor(api, w);
            && o.title == form.reportTitle.GetOr("")
            && o.companyName == Some(form.companyName.GetOr(""))
            && o.dashboardName == Some(PdfDashboardName(selected, DetailData(api, w)))
            && |o.deviceSections| == |ids| > 0
            && forall k :: 0 <= k < |ids| ==>
                 && o.deviceSections[k].deviceName == ListedName(DevicesOf(api, w).value, ids[k], conv.show)
                 && |o.deviceSections[k].rows| == |DeviceEntities(EntitiesOf(api, w).value, ids[k])| > 0
  {
    ExpectedSectionsHaveRows(api, w, EntitiesOf(api, w).value, DevicesOf(api, w).value, conv);
  }

  // --------------------------------------------------------- the pipeline

  /**
   * Steps 1 to 7 of `onGenerate` after validation, up to the options of
   * the PDF: the first failing step decides the one message key, and the
   * `no_data_in_range` check never fires.
   */
  method Assemble(form: FormData, w: Window, selected: string, api: Backend, conv: Conversions, texts: Texts)
    returns (r: Result<PdfReportOptions, MsgKey>)
    ensures DetailOf(api, w).Failed? ==> r == Failure(DashboardNotFound)
    ensures DetailOf(api, w).Succeeded? && EntityIdsOf(api, w) == [] ==> r == Failure(NoEntitiesInDashboard)
    ensures EntityIdsOf(api, w) != [] && EntitiesOf(api, w).None? ==> r == Failure(FailedToFetchEntities)
    ensures EntitiesOf(api, w).Some? && DeviceIdsFor(api, w) == [] ==> r == Failure(NoDevicesInDashboard)
    ensures DeviceIdsFor(api, w) != [] && DevicesOf(api, w).None? ==> r == Failure(FailedToFetchDevices)
    ensures DevicesOf(api, w).Some? ==> r == Success(ReportOptions(form, selected, api, w, conv, texts))
  {
    // 1. dashboard detail
    var resp1 := api.dashboardDetail(w.dashboardId);
    if resp1.Failed? {
      return Failure(DashboardNotFound);
    }
    var dashboardDetail := resp1.data;
    var entityIds := if dashboardDetail.Some? then dashboardDetail.value.entityIds.GetOr([]) else [];
    if |entityIds| == 0 {
      return Failure(NoEntitiesInDashboard);
    }
    // 2. entities
    var resp2 := api.searchEntities(entityIds);
    if resp2.Failed? || resp2.data.None? {
      return Failure(FailedToFetchEntities);
    }
    var entities := resp2.data.value.content.GetOr([]);
    // 3. grouping
    var deviceIds, entityMap := GroupByDevice(entities);
    if |deviceIds| == 0 {
      return Failure(NoDevicesInDashboard);
    }
    // 4. device names
    var resp3 := api.listDevices(deviceIds);
    if resp3.Failed? || resp3.data.None? {
      return Failure(FailedToFetchDevices);
    }
    var devices := resp3.data.value.content.GetOr([]);
    var names := BuildNameMap(devices);
    // 5. groups
    var groups := BuildGroups(deviceIds, names, entityMap, conv.show);
    // 6. sections
    var deviceSections := BuildSections(api, w, groups, conv.toNumber);
    GroupsGiveExpectedSections(api, w, entities, devices, conv, names, entityMap);
    ExpectedSectionsHaveRows(api, w, entities, devices, conv);
    if |deviceSections| == 0 {
      assert false;
      return Failure(NoDataInRange);
    }
    // 7. the options of the PDF
    r := Success(PdfReportOptions(
      form.reportTitle.GetOr(""),
      Some(form.companyName.GetOr("")),
      Some(PdfDashboardName(selected, dashboardDetail)),
      texts.dateRange, deviceSections,
      texts.generatedAt, texts.defaultTitle, texts.generatedAtLabel, texts.ariotLabel,
      texts.dashboardLabel, texts.deviceLabel, texts.tableHeaders));
  }

  /**
   * When the entities name at least one device, the expected sections are not
   * empty and each has rows, so the `no_data_in_range` check cannot fire.
   */
  lemma NeverNoData(api: Backend, w: Window, es: seq<Entity>, devices: seq<Device>, conv: Conversions)
    requires DeviceIdsOf(es) != []
    ensures ExpectedSections(api, w, es, devices, conv) != []
    ensures forall k :: 0 <= k < |ExpectedSections(api, w, es, devices, conv)| ==>
      ExpectedSections(api, w, es, devices, conv)[k].rows != []
  {
    ExpectedSectionsHaveRows(api, w, es, devices, conv);
  }

  /**
   * In the PDF of a run whose fetches all succeed, no section is skipped:
   * the section of the `k`-th device is laid out as the `k`-th heading and
   * table pair, so every device of the report is drawn, in device order.
   */
  lemma EveryDeviceDrawn(form: FormData, selected: string, api: Backend, w: Window, conv: Conversions,
                         texts: Texts, finalY: nat -> Option<int>, y: int)
    requires DevicesOf(api, w).Some?
    ensures var o := ReportOptions(form, selected, api, w, conv, texts);
            var ix := NonEmptyFrom(o.deviceSections, 0);
            var layout := SectionsFrom(o, conv.show, finalY, 0, y);
            && |ix| == |o.deviceSections| == |DeviceIdsFor(api, w)| > 0
            && (forall k :: 0 <= k < |ix| ==> ix[k] == k)
            && LaidOut(o, conv.show, finalY, ix, layout.elements, y, layout.y)
  {
    var o := ReportOptions(form, selected, api, w, conv, texts);
    NeverNoData(api, w, EntitiesOf(api, w).value, DevicesOf(api, w).value, conv);
    ExpectedSectionsHaveRows(api, w, EntitiesOf(api, w).value, DevicesOf(api, w).value, conv);
    NoSectionSkipped(o.deviceSections, 0);
    SectionsLayout(o, conv.show, finalY, 0, y);
  }

  // -------------------------------------------------------------- file name

  /** `s.replace(/-/g, '_')`. */
  function Underscored(s: string): (r: string)
    ensures |r| == |s|
    ensures forall k :: 0 <= k < |s| ==> r[k] == (if s[k] == '-' then '_' else s[k])
    ensures '-' !in r
  {
    if s == [] then [] else Underscored(s[..|s| - 1]) + [if s[|s| - 1] == '-' then '_' else s[|s| - 1]]
  }

  /** `TelemetryReport_<date with '_' for '-'>_<suffix>.pdf`. */
  function FileName(today: string, suffix: string): (r: string)
    ensures |r| == |"TelemetryReport_"| + |today| + 1 + |suffix| + |".pdf"|
    ensures r[..16] == "TelemetryReport_" && r[|r| - 4..] == ".pdf"
    ensures r[16..16 + |today|] == Underscored(today) && r[16 + |today|] == '_'
    ensures r[17 + |today|..|r| - 4] == suffix
  {
    "TelemetryReport_" + Underscored(today) + "_" + suffix + ".pdf"
  }
}
