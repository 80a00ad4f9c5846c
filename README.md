# Telemetry report: assembly pipeline and PDF layout

A Dafny model of the telemetry report feature of the Beaver IoT web app.
It covers two pieces of code.

- The report page's `onGenerate` handler (`apps/web/src/pages/report/index.tsx`).
  It validates the form, then asks the backend for four things in turn: the
  dashboard detail, the entities of the dashboard, the devices that own them,
  and four aggregates (last, min, max, avg) per entity. It groups the entities
  by device, names each device, turns the aggregates into table rows and hands
  the device sections to the PDF writer. Every failure ends in one toast
  message key. The page's `generating` flag is set before the first request
  and cleared on every way out. The dashboard name that the selection effect
  stores is also modelled.
- The PDF writer `buildTelemetryPdf` and its cell formatter `fmt`
  (`apps/web/src/pages/report/utils/pdfReport.ts`). The jsPDF document is
  modelled as the ordered list of elements drawn on it: text lines (font size,
  weight, content, position) and tables (start y, head row, body rows). A
  `y` cursor moves down the page as they are drawn.

Modules, one per file:

- `Common` (`common.dfy`): `Option`/`Result`, identifiers (`ApiKey`, a string
  or a number) with JavaScript truthiness, numbers as `Val = NaN | Num(x)`,
  and `String.prototype.trim`.
- `PdfReport` (`pdf_report.dfy`): `fmt` and `buildTelemetryPdf`. The method
  builds the document step by step and is proved equal to the header, the
  recursive section layout `SectionsFrom` and the footer. The lemma
  `SectionsLayout` then gives that layout in closed form.
- `DeviceGrouping` (`grouping.dfy`): the `forEach` that fills the device-id
  `Set` and the entity `Map`. It is proved against the specification
  functions `DeviceIdsOf` and `DeviceEntities`. Beside them are the
  order, non-emptiness and partition lemmas.
- `DeviceNames` (`device_names.dfy`): the device-name `Map`, where the last
  entry for an id wins, and the `Device <id>` fallback.
- `Report` (`report.dfy`): validation, the fetched data as functions of the
  backend's responses, aggregate normalisation, rows, the nested section
  loops, the dashboard name, the file name, and `Assemble`. `Assemble` is the
  body of the `try` block up to the options of the PDF.
- `ReportPage` (`report_page.dfy`): the page state as a class holding
  `generating` and `dashboardName`, with `OnSelectionChange` and
  `OnGenerate`.

Several things outside the code become inputs:

- Backend responses are given as a `Backend` value: one function per request
  kind, from the request's parameters to its response. So the model shows
  which ids each request carries.
- `String(number)` and `Number(text)` are the function parameters `show` and
  `toNumber`.
- Labels, formatted dates, today's date, the random file-name suffix and
  `lastAutoTable.finalY` are plain inputs.

## Model

| member | source | states |
|---|---|---|
| Common.TrimStart | apps/web/src/pages/report/utils/pdfReport.ts:55 | the result is the suffix after a run of white space, and starts with a non-space |
| Common.TrimEnd | apps/web/src/pages/report/utils/pdfReport.ts:55 | the result is the prefix before a run of white space, and ends with a non-space |
| Common.Trim | apps/web/src/pages/report/utils/pdfReport.ts:64-75 | `trim()` neither starts nor ends with white space, and is empty exactly when the text is all white space; that it is an infix of the text is proved by `TrimIsInfix` |
| Common.TrimIsInfix | apps/web/src/pages/report/utils/pdfReport.ts:64-75 | the trimmed text is a piece of the original with only white space before and after it |
| PdfReport.Fmt | apps/web/src/pages/report/utils/pdfReport.ts:33-34 | a string is returned unchanged (so `''` stays `''`); a non-NaN number gives `String(v)`; the result is the em dash exactly for NaN, null/undefined, or a value that already renders as the em dash |
| PdfReport.BodyOfRows | apps/web/src/pages/report/utils/pdfReport.ts:107-114 | `BodyOf` and `BodyRow`: a table body has exactly one 6-cell row per report row, in order: the name; the unit, which shows the em dash exactly when it is empty (or is itself the em dash); then `fmt` of last, min, max and avg |
| PdfReport.NonEmptyFrom | apps/web/src/pages/report/utils/pdfReport.ts:84-86 | the loop draws only sections that have rows, at indices from the start index on |
| PdfReport.NonEmptyFromIncreasing | apps/web/src/pages/report/utils/pdfReport.ts:84-86 | the drawn sections come in increasing index order |
| PdfReport.NonEmptyFromComplete | apps/web/src/pages/report/utils/pdfReport.ts:84-86 | every section with rows is drawn |
| PdfReport.SectionsLayout | apps/web/src/pages/report/utils/pdfReport.ts:83-127 | `SectionsFrom` (with `AfterTable` for the cursor) in closed form: one heading and one table per section with rows, in input order, none for an empty one; the first heading sits at the entry cursor, each table 6 below its heading; the next heading sits at `finalY`, or the table's start + 10, plus 5 unless that section is the last index of the input |
| PdfReport.PairsCons | apps/web/src/pages/report/utils/pdfReport.ts:88-114 | putting a section's heading and table, 6 apart, in front of heading/table pairs keeps them pairs |
| PdfReport.ChainedCons | apps/web/src/pages/report/utils/pdfReport.ts:119-125 | putting a pair in front keeps every heading where the previous table left the cursor |
| PdfReport.LaidOutCons | apps/web/src/pages/report/utils/pdfReport.ts:88-125 | prepending one drawn section (heading, table, cursor advance) to a laid-out tail gives a laid-out whole |
| PdfReport.DrawHeader | apps/web/src/pages/report/utils/pdfReport.ts:55-80 | the trimmed title or the default title comes first, at y 16, size 16; the company line and `<dashboardLabel>: <name>` line appear only for a non-blank trimmed value, the first at y 26, the second 6 lower; the date line sits at 26 + 6 × (optional lines), size 10; the cursor ends 8 below it |
| PdfReport.HeaderTexts | apps/web/src/pages/report/utils/pdfReport.ts:55-75 | `TitleText`, `CompanyLine`, `DashboardLine`: the title line is the trimmed title, or the default title when the title is all white space; the company and dashboard lines are drawn exactly when their value is not all white space, and carry the trimmed value (the dashboard line after `<dashboardLabel>: `) |
| PdfReport.DrawSections | apps/web/src/pages/report/utils/pdfReport.ts:83-127 | the loop with `continue` draws exactly the elements of the section layout and leaves the cursor where the layout ends |
| PdfReport.BuildTelemetryPdf | apps/web/src/pages/report/utils/pdfReport.ts:39-137 | the document is the header, then the section layout, then `Footer`: the generated-at line 10 below the cursor and the attribution line 5 further down, both at size 9 and normal weight |
| PdfReport.NoSectionSkipped | apps/web/src/pages/report/utils/pdfReport.ts:84-86 | when every section has rows, the drawn sections are all of them, in order |
| DeviceGrouping.DeviceIdsOf | apps/web/src/pages/report/index.tsx:146-149 | only truthy device ids enter the set |
| DeviceGrouping.DeviceIdsDistinct | apps/web/src/pages/report/index.tsx:146-149 | the set holds no id twice |
| DeviceGrouping.DeviceIdsComplete | apps/web/src/pages/report/index.tsx:146-149 | the device of every entity with a truthy device id is in the set |
| DeviceGrouping.DeviceEntitiesMembers | apps/web/src/pages/report/index.tsx:146-155 | `DeviceEntities`: a device's group holds exactly the entities naming that device |
| DeviceGrouping.GroupByDevice | apps/web/src/pages/report/index.tsx:144-157 | the `forEach` leaves the set as `DeviceIdsOf`, the map with a key for exactly those ids, each mapped to its `DeviceEntities` group |
| DeviceGrouping.MapStep | apps/web/src/pages/report/index.tsx:150-153 | one pass of the loop body keeps the map keyed by the set and holding each device's group |
| DeviceGrouping.NoGroupYet | apps/web/src/pages/report/index.tsx:150-152 | a device not yet in the set has no entities yet, so the map starts it with an empty list |
| DeviceGrouping.FirstIndexOf | apps/web/src/pages/report/index.tsx:146-149 | the position of the first entity naming a device, with no earlier entity naming it |
| DeviceGrouping.NewDeviceFirstAt | apps/web/src/pages/report/index.tsx:147-149 | a device id new to the set is first named by the entity just added |
| DeviceGrouping.DeviceIdsAppear | apps/web/src/pages/report/index.tsx:146-157 | every device id of the set is named by some entity of the input |
| DeviceGrouping.DeviceIdsInFirstOccurrenceOrder | apps/web/src/pages/report/index.tsx:144-157 | the ids come in the order in which their devices first appear among the entities |
| DeviceGrouping.GroupsNonEmpty | apps/web/src/pages/report/index.tsx:146-157 | every device id of the set has a non-empty group |
| DeviceGrouping.DeviceEntitiesAppend | apps/web/src/pages/report/index.tsx:146-155 | grouping a concatenation concatenates the groups, so each group keeps the input's relative order |
| DeviceGrouping.GroupingIsPartition | apps/web/src/pages/report/index.tsx:146-155 | the groups, one after the other, hold each entity with a truthy device id as often as the input does, and no other entity |
| DeviceNames.LastEntryAbsent | apps/web/src/pages/report/index.tsx:185-188 | the map has no entry exactly for the ids that no device has |
| DeviceNames.LastEntryAt | apps/web/src/pages/report/index.tsx:185-188 | a device with no later device of the same id sets the entry's final name |
| DeviceNames.LastEntryWins | apps/web/src/pages/report/index.tsx:185-188 | `LastEntry`: the entry is absent iff no device has the id, and otherwise holds the name of the last device with that id |
| DeviceNames.BuildNameMap | apps/web/src/pages/report/index.tsx:185-188 | the `forEach` builds a map with an entry for exactly the listed ids, holding `LastEntry` |
| DeviceNames.ListedNameCases | apps/web/src/pages/report/index.tsx:185-193 | a device's name is the name of the last listed device with its id, or `Device <id>` when that device has no name or no device has the id |
| DeviceNames.GroupNameFromList | apps/web/src/pages/report/index.tsx:185-193 | `GroupName`: reading the built map with the `??` fallback gives the name from the list; an unlisted id gives `Device <id>` |
| Report.Validate | apps/web/src/pages/report/index.tsx:84-93 | a falsy dashboard id gives `select_dashboard`; otherwise a missing start or end gives `select_date_range`; otherwise validation passes with the id and both timestamps |
| Report.EntityIdsFromDetail | apps/web/src/pages/report/index.tsx:97-111 | `EntityIdsOf`: the entity ids are exactly the list of a successful detail request; a failure, missing data or a missing list gives none |
| Report.EntitiesFromSearch | apps/web/src/pages/report/index.tsx:113-141 | `EntitiesOf`: the search carries exactly the dashboard's entity ids, and yields entities exactly when there are ids and it succeeds with a data object; `content ?? []` |
| Report.DevicesFromList | apps/web/src/pages/report/index.tsx:163-184 | `DevicesOf`: the device list request carries exactly the grouped device ids, and yields devices exactly when there are such ids and it succeeds with a data object; `content ?? []` |
| Report.Normalize | apps/web/src/pages/report/index.tsx:216-217 | a failed request or a missing value gives NaN; a present number is kept; any other present value is the result of `Number` on it |
| Report.MissingShownAsDash | apps/web/src/pages/report/index.tsx:207-234 | an entity with no value for an aggregate keeps its row, and that cell shows the em dash; a missing unit shows the em dash too |
| Report.NumberShownInRow | apps/web/src/pages/report/index.tsx:216-234 | `RowOf`: a number the backend sends for an aggregate is shown, rendered by `String`, in that aggregate's column of the entity's table row |
| Report.TextShownInRow | apps/web/src/pages/report/index.tsx:216-234 | `RowOf`: any other value the backend sends for an aggregate is passed through `Number` and then `fmt` in its column |
| Report.RowsOf | apps/web/src/pages/report/index.tsx:205-235 | one row per entity, in order, each built from that entity's own four aggregate requests and `unit ?? ''` |
| Report.SectionsOf | apps/web/src/pages/report/index.tsx:204-242 | at most one section per group, and every pushed section has at least one row |
| Report.SectionsOfNonEmptyGroups | apps/web/src/pages/report/index.tsx:236-241 | when no group is empty, there is one section per group, in group order |
| Report.BuildSections | apps/web/src/pages/report/index.tsx:203-242 | the nested loops push exactly the sections of `SectionsOf` |
| Report.ProjectAll | apps/web/src/pages/report/index.tsx:194-199 | `Project`: a group's projected entities are its entities, in order, each keeping its id, name, key and unit |
| Report.BuildGroups | apps/web/src/pages/report/index.tsx:191-200 | one group per device id |
| Report.ExpectedSectionsHaveRows | apps/web/src/pages/report/index.tsx:204-242 | there is one expected section per device, and each has one row per entity of its device, so at least one |
| Report.GroupsGiveExpectedSections | apps/web/src/pages/report/index.tsx:185-242 | the groups built from the loops' maps give exactly the expected sections: one per device, in first-appearance order, named from the device list |
| Report.PdfDashboardName | apps/web/src/pages/report/index.tsx:255 | the selected name if non-empty, else the detail's name, else `''`; it is empty only when both are empty or missing |
| Report.ReportOptionsOfRun | apps/web/src/pages/report/index.tsx:249-272 | `ReportOptions`: title and company name come from the form, the dashboard name is the selected or detail name, and there is one section per device id, named as the device list names it, with one row per entity of that device |
| Report.Assemble | apps/web/src/pages/report/index.tsx:96-272 | the first failing step gives the one key, in the order `dashboard_not_found`, `no_entities_in_dashboard`, `failed_to_fetch_entities`, `no_devices_in_dashboard`, `failed_to_fetch_devices`; when every fetch succeeds the result is the expected report options, so `no_data_in_range` never occurs |
| Report.NeverNoData | apps/web/src/pages/report/index.tsx:244-247 | once there is a device id, there is at least one section and every section has rows |
| Report.EveryDeviceDrawn | apps/web/src/pages/report/utils/pdfReport.ts:83-126 | in the PDF of a run whose fetches all succeed, no section is skipped: the `k`-th device gets the `k`-th heading and table |
| Report.Underscored | apps/web/src/pages/report/index.tsx:274 | `replace(/-/g, '_')` changes every `-` to `_` and nothing else |
| Report.FileName | apps/web/src/pages/report/index.tsx:274 | `TelemetryReport_`, then the date with `_` for `-`, then `_`, the random suffix and `.pdf`, each at its stated position |
| ReportPage.FindDashboard | apps/web/src/pages/report/index.tsx:75 | `find` returns the first item whose `dashboard_id` equals the selection, or nothing when none does |
| ReportPage.SelectedDashboardName | apps/web/src/pages/report/index.tsx:73-79 | the name is `''` without a selection or a list; when the list has an item for the selected dashboard the name is the first such item's name (or `''`), and a non-empty name always belongs to such an item |
| ReportPage.ReportPageState.constructor | apps/web/src/pages/report/index.tsx:39-40 | the page starts not generating, with an empty dashboard name |
| ReportPage.ReportPageState.OnSelectionChange | apps/web/src/pages/report/index.tsx:73-79 | the effect stores the selected dashboard's name from the list |
| ReportPage.ReportPageState.SetGenerating | apps/web/src/pages/report/index.tsx:94 | each write to `generating` is recorded in order |
| ReportPage.ReportPageState.OnGenerate | apps/web/src/pages/report/index.tsx:82-285 | a form that fails validation is rejected with its key, and `generating` is never written. Past validation, `generating` is written `true` then `false`, so it is false on every exit. A failed step is rejected with its own key in the order `dashboard_not_found`, `no_entities_in_dashboard`, `failed_to_fetch_entities`, `no_devices_in_dashboard`, `failed_to_fetch_devices`. The result is a download exactly when every fetch succeeds and the PDF does not throw; a throw gives `generate_failed`. No run ends in `no_data_in_range` |

## Left out

- HTTP, `awaitWrap`, `isRequestSuccess`, `getResponseData` and `objectToCamelCase` are not modelled as code. Each request's outcome is an input: a failed request, or a successful one whose data may be null. A data value that is not an object counts as null data.
- The request parameters that do not change the model are left out: page sizes and numbers, sort order, the entity-type filter.
- The four aggregate requests per entity run concurrently through `Promise.all`. The model takes them in the order last, min, max, avg. Each result depends only on its own request, so this changes nothing.
- `Report.Normalize`: a non-number `value` is given as its text, and `Number` is applied to that text. `Number(true)` and similar conversions of non-string values are not distinguished.
- `String(number)` and `Number(text)` are parameters. Floating point, `-0` and NaN as a map key are not modelled.
- Identifiers are compared with datatype equality. JavaScript's `SameValueZero` differs only for NaN and `-0`.
- jsPDF and `autoTable` internals are not modelled: fonts, colours, the theme, the table's right margin, page breaks, the blob output. Where a table ends (`lastAutoTable.finalY`) is an input with no promised relation to its start. The cursor is an integer.
- i18n lookup, dayjs date formatting, `genRandomString`, `linkDownload`, toasts and `console.error` are not modelled. Their results are inputs (labels, date strings, today's date, the suffix), or the returned message key and outcome. The suffix is not required to have 6 lower-case letters.
- Exceptions: any throw inside the `try` block is modelled by one input, `pdfThrows`. It stands for `buildTelemetryPdf` or `linkDownload` throwing, and it gives `generate_failed`. Nothing before them in the block is modelled as throwing.
- `ReportPage.ReportPageState.OnGenerate`: a successful outcome carries the document from `BuildTelemetryPdf`. Its contract states the file name but not the document's contents; `BuildTelemetryPdf`'s own contract covers those.
- The dashboard list request, the React effects' scheduling, the form controls and the rendering are not modelled. The `dashboard_id` field that the selection effect reads is modelled as written.
- `apps/web/src/pages/alarm/views/AlarmRules.tsx` is not part of this model. It holds no logic.
