# Alert dashboard views — a Dafny model

This project models the three stateful views of the web console of an IoT
security monitoring service:

- **Alarm review** (`AlarmReview`). This is the paged table of alerts. It has:
  - the filter criteria (preset or custom time window, alert types, risks, collectors, resolved status);
  - the four pie charts whose slices toggle those filters;
  - sorting and pagination;
  - the alert-details modal, whose previous/next buttons cross page boundaries.
- **Dashboard** (`Dashboard`). This is the live overview. It has:
  - the range presets and their bar counts;
  - the alert-count bar series;
  - the message-collector dropdown and its connected count;
  - the K/M display suffix;
  - the silent refresh on new-alert push events after a one-minute quiet period;
  - navigation among the five latest unresolved alerts.
- **Notification preferences** (`NotificationsPreferences`). This is the editor for:
  - which risks, collectors and delivery channels notify the user;
  - extra e-mail addresses and phone numbers;
  - the accordion of sections, with load and save state.

Shared values live in `Common`, including `FindFirst`, `CountWhere` and `Filter`,
which stand for `Array.prototype.find`, `filter(..).length` and `filter`.
The name order used for sorted lists lives in `Ordering`.

Each view is a `class` whose fields are the component's state. Each handler
is a method that changes only the fields it names in `modifies`. Every remote
query is split in two:

- the handler that issues it updates the state at once and returns a request
  token holding whatever its callback captured;
- a separate "…Arrived" method takes the answer as parameters.

As in the views themselves, an answer is applied whenever it arrives: a later
request does not cancel an earlier one. The pure computations that build the
charts and lists are functions, and the loops that build them are methods
proved equal to those functions.

## Model

| member | source | states |
|---|---|---|
| Common.FilterAppend | src/components/alarm_review.component.js:115-117 | filtering two runs of entries is filtering each and concatenating, so kept entries keep their order and multiplicity |
| Common.NavigationTarget | src/components/alarm_review.component.js:328-346 | previous/next has no target exactly at index 0 going back or at the last index going forward; otherwise the target is the adjacent index |
| Common.StaleNavigationLeavesList | src/components/dashboard.component.js:242-253 | from an index at or past the end of a non-empty list, "next" targets an index outside the list |
| Common.NavigationTargetInRange | src/components/dashboard.component.js:242-253 | from an index inside the list, a previous/next target, when there is one, is inside the list |
| Ordering.ToLower | src/components/notifications-preferences.component.js:36-41 | lower-casing keeps the length, maps each character on its own and leaves no upper-case ASCII letter |
| Ordering.SortBy | src/components/notifications-preferences.component.js:35-44 | sorting by a key yields a permutation of the input (same multiset, same length) |
| Ordering.SortBySorted | src/components/notifications-preferences.component.js:35-44 | the sorted list is ordered by its key: every earlier element's key sorts no later than every later one's |
| Ordering.SortByCount | src/components/dashboard.component.js:163-167 | sorting does not change how many elements satisfy any predicate |
| AlarmReview.TotalPages | src/components/alarm_review.component.js:359 | the page count is zero exactly when there are no alerts, and otherwise is the least number of 20-alert pages that hold them all |
| AlarmReview.SortToggled | src/components/alarm_review.component.js:293-297 | clicking the sorted field's header flips its direction; clicking any other header leaves the sort as it was |
| AlarmReview.SortToggleTwice | src/components/alarm_review.component.js:293-297 | two clicks on the same header restore the original sort |
| AlarmReview.LabelIndex | src/components/alarm_review.component.js:238 | the slice found is the first one carrying the label; there is none exactly when no slice carries it |
| AlarmReview.Flip | src/components/alarm_review.component.js:238-239 | toggling a slice inverts its selection flag and changes nothing else in the pie |
| AlarmReview.FlipCount | src/components/alarm_review.component.js:238-239 | toggling one slice changes the number of selected slices by exactly one, down if it was selected and up otherwise |
| AlarmReview.SelectedKeys | src/components/alarm_review.component.js:262-272 | the criterion list has one entry per selected slice and contains the key of every selected slice |
| AlarmReview.SelectedKeysSound | src/components/alarm_review.component.js:262-272 | every entry of the criterion list is the key of some selected slice |
| AlarmReview.SelectedKeysAppend | src/components/alarm_review.component.js:262-272 | the criterion list of two runs of slices is the concatenation of their lists, so slice order is kept |
| AlarmReview.StatusToggle | src/components/alarm_review.component.js:243-258 | the clicked status flips; selecting it deselects the other status, so at most one stays selected; the `resolved` criterion is the one the resulting selection stands for |
| AlarmReview.ResolvedFilter | src/components/alarm_review.component.js:243-258 | `resolved` is true iff RESOLVED is selected, false iff only UNRESOLVED is, and null iff neither is |
| AlarmReview.RiskSumsCover | src/components/alarm_review.component.js:103-110 | the HIGH, MEDIUM, LOW and INFO totals together account for every alert-type count |
| AlarmReview.RiskTotals | src/components/alarm_review.component.js:103-110 | the accumulation loop leaves each of the four risks mapped to the sum of the counts of the types with that risk |
| AlarmReview.StatusSlices | src/components/alarm_review.component.js:94-99 | the RESOLVED and UNRESOLVED values add up to the total, UNRESOLVED holds the unresolved count and alone is preselected, so the pie stands for `resolved = false` |
| AlarmReview.TypeSlices | src/components/alarm_review.component.js:100 | one slice per alert type, in answer order, carrying its name, count and code |
| AlarmReview.CollectorSlices | src/components/alarm_review.component.js:101 | one slice per collector, in answer order, carrying its name, count and id |
| AlarmReview.RiskSlices | src/components/alarm_review.component.js:103-112 | four slices HIGH, MEDIUM, LOW, INFO, each valued at its risk total and none selected |
| AlarmReview.NonZero | src/components/alarm_review.component.js:115-117 | exactly the slices whose value is not zero are kept, as many as there are such slices |
| AlarmReview.NonZeroKeepsOrder | src/components/alarm_review.component.js:115-120 | dropping zero slices commutes with concatenation, so a kept slice's palette position is its rank among the kept slices |
| AlarmReview.Colored | src/components/alarm_review.component.js:119-120 | slice `i` gets palette colour `i mod 5` and keeps every other field |
| AlarmReview.ColoredNeighboursDiffer | src/components/alarm_review.component.js:113-120 | no two slices fewer than five places apart share a colour |
| AlarmReview.Colorize | src/components/alarm_review.component.js:119-120 | the colouring loop produces exactly the palette colouring |
| AlarmReview.BuildAggregates | src/components/alarm_review.component.js:84-121 | the reload's pies: the statuses add up to the total; the risk, type and collector pies hold only non-zero slices; type and collector slices are palette-coloured by position |
| AlarmReview.AlarmReview.constructor | src/components/alarm_review.component.js:32-63 | the initial state: last day, page 1, loading, no slices, sort by creation date descending, unresolved alerts only |
| AlarmReview.AlarmReview.UpdateRange | src/components/alarm_review.component.js:213-235 | a preset clears the categorical filters, keeps `resolved = false`, sets a window ending now that starts before it, and restarts at page 1 with the reload in flight; the reload asks for the page the paginator then shows, page 1 |
| AlarmReview.AlarmReview.UpdateRangeAsWritten | src/components/alarm_review.component.js:213-235 | as the view issues it: the same new state, but the reload asks for the page shown before the click, because `loadAlertsAndCounts` (line 77) reads `activePage` before the batched update applies |
| AlarmReview.AlarmReview.ClearDateRange | src/components/alarm_review.component.js:353-355 | clearing the custom window is the last-day preset, reloading page 1 |
| AlarmReview.AlarmReview.HandleFromDateChange | src/components/alarm_review.component.js:186-191 | only the window's start changes, and the preset is dropped |
| AlarmReview.AlarmReview.HandleToDateChange | src/components/alarm_review.component.js:193-198 | only the window's end changes, and the preset is dropped |
| AlarmReview.AlarmReview.HandleDateFilterClick | src/components/alarm_review.component.js:200-211 | applying a custom window clears the categorical filters but keeps its start and end, and restarts at page 1; the reload asks for page 1 |
| AlarmReview.AlarmReview.OnLoadArrived | src/components/alarm_review.component.js:122-133 | after the reload the four pies are exactly the aggregates of the fetched counts, the page is the answer and the pagination count is the unresolved count; any open selection, which belonged to the replaced page, is closed |
| AlarmReview.AlarmReview.HandleAlertResolution | src/components/alarm_review.component.js:139-149 | one alert moves from UNRESOLVED to RESOLVED, the pie's total is unchanged, and the table restarts at page 1 |
| AlarmReview.AlarmReview.OnAlertsArrived | src/components/alarm_review.component.js:152-159 | the page answer replaces the alerts and ends loading; any open selection, which belonged to the replaced page, is closed |
| AlarmReview.AlarmReview.OnAlertsArrivedAsWritten | src/components/alarm_review.component.js:152-159 | as the view applies it: the alerts are replaced and loading ends, the selection left exactly as it was |
| AlarmReview.AlarmReview.OnQueryArrived | src/components/alarm_review.component.js:280-290 | the answer replaces the alerts and the pagination count and ends loading; any open selection, which belonged to the replaced page, is closed |
| AlarmReview.AlarmReview.OnQueryArrivedAsWritten | src/components/alarm_review.component.js:280-290 | as the view applies it: the alerts and the pagination count are replaced and loading ends, the selection left exactly as it was |
| AlarmReview.AlarmReview.HandleItemSelected | src/components/alarm_review.component.js:237-275 | the clicked slice flips and the other pies are untouched. The pie's criterion becomes its selected keys. On the status pie, selecting one status deselects the other and `resolved` follows the selection. The table restarts at page 1 |
| AlarmReview.AlarmReview.HandleSort | src/components/alarm_review.component.js:293-299 | the sort becomes the toggled sort and the table restarts at page 1 |
| AlarmReview.AlarmReview.ShowAlertDetails | src/components/alarm_review.component.js:314-326 | the modal shows alert `index` of the page; it is first iff on page 1 at index 0 and last iff on the last page at the page's last index |
| AlarmReview.AlarmReview.CloseAlertDetails | src/components/alarm_review.component.js:349-351 | the modal closes |
| AlarmReview.AlarmReview.HandlePaginationChange | src/components/alarm_review.component.js:162-166 | the table moves to the requested page, and the request captures the open selection's index |
| AlarmReview.AlarmReview.OnPageArrived | src/components/alarm_review.component.js:168-183 | an open selection rebinds to the new page's last alert if it was at index 0, and to its first alert otherwise, showing that alert with first/last recomputed; when the request captured no selection, or the new page is empty, the selection is closed |
| AlarmReview.AlarmReview.OnPageArrivedAsWritten | src/components/alarm_review.component.js:168-183 | as the view applies it: the page is stored and loading ends; with a captured selection and a non-empty page the selection rebinds as above; with a captured selection and an empty page the view throws exactly then, the old selection left open; otherwise the selection is left as it was |
| AlarmReview.AlarmReview.GoToAlert | src/components/alarm_review.component.js:328-347 | when the navigation rule gives a target, the selection moves to that alert, which is on the page, with first/last recomputed. Off the start with a previous page, page - 1 is requested capturing index 0; off the end before the last page, page + 1 is requested capturing the index. On the first or last page nothing changes |
| AlarmReview.AlarmReview.OnNewAlertEvent | src/components/alarm_review.component.js:67-69 | a push event raises the new-alerts banner |
| AlarmReview.StaleSelectionAfterTwoQueries | src/components/alarm_review.component.js:280-290 | the view's own handlers reach an open selection past the end of the page: two status-slice clicks in flight, the first answered with three alerts, the third opened, the second answered with one; "next" then targets an index outside the page |
| AlarmReview.EmptyPageAfterResolution | src/components/alarm_review.component.js:138-159 | the view's own handlers reach an empty page answer with the modal open: 21 unresolved alerts, one resolved (the pagination count stays 21), the first page re-fetched full, "next" from its last alert asks for page 2 capturing index 19, and page 2 comes back empty, so the as-written answer throws |
| AlarmReview.AlarmReview.ReloadNow | src/components/alarm_review.component.js:538 | "Reload now" is the last-day preset: filters cleared, custom window dropped, page 1 shown and reloaded, banner lowered |
| AlarmReview.ReloadAfterPaging | src/components/alarm_review.component.js:76-77 | on page 3, a preset click as the view issues it moves the paginator to page 1 while the reload asks for page 3 |
| Dashboard.RangeTable | src/components/dashboard.component.js:53-80 | hourly grouping exactly for the last day; each preset's bar count is the number of buckets in the chart's domain, which runs from a day and an hour, eight days, or a month and a day before now to one bucket after |
| Dashboard.SumCountsSplit | src/components/dashboard.component.js:224-230 | the counts of rows with a risk and of rows without one add up to the counts of all rows |
| Dashboard.RiskCountsSplit | src/components/dashboard.component.js:224 | every row is either kept (has a risk) or dropped (null risk) |
| Dashboard.AlertsCountSeries | src/components/dashboard.component.js:219-230 | one bar per row with a risk, in order, with the hour or date as x by grouping and the count as y. The rows dropped are exactly those with a null risk. The alert total is the sum over the kept rows, which is the total of all rows minus the null-risk rows' counts |
| Dashboard.DropdownSorted | src/components/dashboard.component.js:165-173 | the dropdown has one option per connected or disconnected collector, ordered by name, each with key equal to value |
| Dashboard.DropdownMembers | src/components/dashboard.component.js:165-173 | every option comes from a connected or disconnected collector, and every such collector has its option |
| Dashboard.OptionsOfInsert | src/components/dashboard.component.js:165-173 | inserting a collector by name adds exactly its option to the options |
| Dashboard.OptionsOfSortBy | src/components/dashboard.component.js:165-173 | sorting the collectors by name only reorders their options |
| Dashboard.DropdownPermutes | src/components/dashboard.component.js:165-173 | the dropdown holds each connected or disconnected collector's option exactly as often as the answer lists that collector |
| Dashboard.DropdownGreen | src/components/dashboard.component.js:163-173 | the green options are exactly the connected collectors, so their number is the active count, which never exceeds the options' count |
| Dashboard.CountSuffix | src/components/dashboard.component.js:281-291 | no suffix below 1000; "K" from 1000 below a million, where the integer quotient n / 1000 lies in [1, 1000); "M" from a million on, where n / 1000000 is at least 1 |
| Dashboard.SuffixMonotone | src/components/dashboard.component.js:281-291 | a larger count never gets a smaller suffix |
| Dashboard.Dashboard.constructor | src/components/dashboard.component.js:23-50 | the initial state: last day, no bars, updated now, loading the latest alerts, nothing selected |
| Dashboard.Dashboard.UpdateRange | src/components/dashboard.component.js:53-118 | records the update time and sets grouping and bar count from the range table. Each query's indicator is raised unless the refresh is silent. The old bars are cleared |
| Dashboard.Dashboard.OnDeviceQueryDone | src/components/dashboard.component.js:87-103 | a device query's answer lowers its own indicator and no other |
| Dashboard.Dashboard.OnAlertsCountArrived | src/components/dashboard.component.js:219-237 | the bars and the alert total become the series of the answer, and loading ends |
| Dashboard.Dashboard.GetTopAlerts | src/components/dashboard.component.js:186-189 | the latest-alerts loader shows unless the refresh is silent |
| Dashboard.Dashboard.OnTopAlertsArrived | src/components/dashboard.component.js:195-208 | the latest alerts are replaced and their loader hidden; any open selection, which belonged to the replaced list, is closed |
| Dashboard.Dashboard.OnTopAlertsArrivedAsWritten | src/components/dashboard.component.js:195-208 | as the view applies it: the latest alerts are replaced and their loader hidden, the selection left exactly as it was |
| Dashboard.Dashboard.OnNewAlertEvent | src/components/dashboard.component.js:125-131 | a push event refreshes iff more than 60 000 ms passed since the last update. A refresh keeps the range, raises no indicator, clears the bars, ends loading and stamps the time. Otherwise nothing changes |
| Dashboard.Dashboard.HandleDataCollectorSelection | src/components/dashboard.component.js:143-150 | the selection is stored, the range is refreshed silently (no device or count indicator, bars cleared, loading ended) and the latest alerts with a loader |
| Dashboard.Dashboard.HandleAlertResolution | src/components/dashboard.component.js:139-141 | the latest alerts are reloaded with a loader |
| Dashboard.Dashboard.GetDataCollectors | src/components/dashboard.component.js:152-155 | the collector loader shows |
| Dashboard.Dashboard.OnDataCollectorsArrived | src/components/dashboard.component.js:160-183 | the active count is the number of connected collectors, the dropdown is built from the list, and the green options number the active count |
| Dashboard.Dashboard.Mount | src/components/dashboard.component.js:120-123 | mounting loads the collectors, the last day hourly with 26 bars, every device and count indicator raised, bars cleared and loading ended, and the latest alerts |
| Dashboard.Dashboard.ShowAlertDetails | src/components/dashboard.component.js:255-267 | the modal shows latest alert `index`; first iff index 0, last iff the last index |
| Dashboard.Dashboard.CloseAlertDetails | src/components/dashboard.component.js:269-271 | the modal closes |
| Dashboard.Dashboard.GoToAlert | src/components/dashboard.component.js:242-253 | when the navigation rule gives no target nothing changes; otherwise the selection moves to that alert, which is within the latest alerts, with first/last recomputed |
| Dashboard.StaleSelectionAfterRefresh | src/components/dashboard.component.js:125-131 | the view's own handlers reach an open selection past the end of the latest alerts (three alerts, third opened, silent refresh answered with one), from which "next" targets an index outside the list |
| NotificationsPreferences.FlipAt | src/components/notifications-preferences.component.js:55-59 | toggling entry `i` inverts its flag, keeps its name and leaves every other entry as it was |
| NotificationsPreferences.FlipAtTwice | src/components/notifications-preferences.component.js:55-59 | toggling the same entry twice restores the list |
| NotificationsPreferences.FlipAtKeepsOrder | src/components/notifications-preferences.component.js:35-59 | toggling never disturbs the collectors' name order |
| NotificationsPreferences.DestinationIndex | src/components/notifications-preferences.component.js:63 | the destination found is the first with that name; there is none exactly when no destination has it |
| NotificationsPreferences.SpliceOne | src/components/notifications-preferences.component.js:86-98 | for an index inside the list, exactly that entry is removed and the rest keep their order; past the end, or on an empty list, nothing is removed; a negative index removes entry length + index (the first entry when that is negative) and the rest keep their order |
| NotificationsPreferences.SpliceOneUndoesAppend | src/components/notifications-preferences.component.js:72-98 | removing the contact just added restores the previous list |
| NotificationsPreferences.SpliceOneMultiset | src/components/notifications-preferences.component.js:86-98 | removal takes away exactly one occurrence of the removed contact |
| NotificationsPreferences.AccordionClick | src/components/notifications-preferences.component.js:113-119 | clicking a title opens it exactly when it was not the open one, and otherwise closes all |
| NotificationsPreferences.AccordionClickTwice | src/components/notifications-preferences.component.js:113-119 | two clicks on a title restore the state iff that title was open or nothing was; if another section was open, all end closed |
| NotificationsPreferences.NotificationsPreferences.constructor | src/components/notifications-preferences.component.js:15-28 | the collectors' section starts open; not loading, not saving, no error, empty inputs |
| NotificationsPreferences.NotificationsPreferences.StartLoad | src/components/notifications-preferences.component.js:31-32 | loading starts |
| NotificationsPreferences.NotificationsPreferences.OnLoadSucceeded | src/components/notifications-preferences.component.js:34-45 | the collectors are stored as a permutation of the loaded list, ordered by lower-cased name; risks and destinations as loaded |
| NotificationsPreferences.NotificationsPreferences.OnLoadFailed | src/components/notifications-preferences.component.js:46-50 | a failed load stops loading and shows the error |
| NotificationsPreferences.NotificationsPreferences.Toggle | src/components/notifications-preferences.component.js:55-59 | exactly entry `index` of the chosen section flips; the other section is untouched |
| NotificationsPreferences.NotificationsPreferences.ToggleDestination | src/components/notifications-preferences.component.js:61-66 | exactly the first destination with that name flips; every other destination is untouched |
| NotificationsPreferences.NotificationsPreferences.OnAdditionalChange | src/components/notifications-preferences.component.js:68-70 | the e-mail input holds the typed value |
| NotificationsPreferences.NotificationsPreferences.OnPhoneChange | src/components/notifications-preferences.component.js:121-123 | the phone input holds the typed value |
| NotificationsPreferences.NotificationsPreferences.AddContact | src/components/notifications-preferences.component.js:72-84 | an unconfirmed contact is appended to the named destination's extras; every other destination is untouched |
| NotificationsPreferences.NotificationsPreferences.OnAdditionalEmailAdded | src/components/notifications-preferences.component.js:72-77 | the typed address is appended, unconfirmed, to the e-mail extras. The input is cleared, so the Add button (line 292) is disabled again |
| NotificationsPreferences.NotificationsPreferences.OnAdditionalPhoneAdded | src/components/notifications-preferences.component.js:79-84 | the typed number is appended, unconfirmed, to the SMS extras, and the input is cleared |
| NotificationsPreferences.NotificationsPreferences.RemoveContact | src/components/notifications-preferences.component.js:86-98 | the named destination's extras lose the entry `splice(index, 1)` removes; every other destination is untouched |
| NotificationsPreferences.NotificationsPreferences.RemoveEmail | src/components/notifications-preferences.component.js:86-91 | removal from the e-mail extras, as above |
| NotificationsPreferences.NotificationsPreferences.RemovePhone | src/components/notifications-preferences.component.js:93-98 | removal from the SMS extras, as above |
| NotificationsPreferences.NotificationsPreferences.HandleAccordionClick | src/components/notifications-preferences.component.js:113-119 | the open section follows the accordion rule |
| NotificationsPreferences.NotificationsPreferences.StartSave | src/components/notifications-preferences.component.js:100-101 | saving starts |
| NotificationsPreferences.NotificationsPreferences.OnSaveSucceeded | src/components/notifications-preferences.component.js:103-106 | a successful save stops saving |
| NotificationsPreferences.NotificationsPreferences.OnSaveFailed | src/components/notifications-preferences.component.js:107-110 | a failed save stops saving and shows the error |

## Left out

- Rendering, CSS classes, pop-ups, the filter panel's show/hide toggle and the percentages shown on pie slices are left out. These are floating-point `value / alertsCount` values and display only.
- Date and time arithmetic (`moment`, `Date`) is left out. Times are integers.
  - AlarmReview.AlarmReview.UpdateRange takes the window length as a positive parameter instead of subtracting one day, seven days or one calendar month.
  - Dashboard.RangeTable takes a month as 31 days when it relates the bar count to the chart's domain.
  - The dashboard's chart-domain dates (`visualizationXDomain`) and the query's `from`/`to` strings are not modelled.
- The query answers, the push-event subscription and its removal on unmount, the promise plumbing and `history.push` after a save are left out. Each answer is a parameter of an "…Arrived" method. No request supersedes another, as in the views.
- Server-side filtering, paging and counting are left out. Answers are taken as given.
- `alarmsTypesMap`, the lookup of alert-type descriptions shown in the modal, is not modelled.
- Null counts before the first answer are read as 0. This applies to the alarm review's `count`/`alertsCount` and the dashboard's `alertsCount`.
- Ordering.SortBy: collector names are compared by code point. The dashboard sorts with `localeCompare`, whose locale collation is not modelled. The preferences view compares lower-cased names with `>`, which is UTF-16 code-unit order; code-point order differs from it only for characters outside the Basic Multilingual Plane.
- Ordering.ToLower: lower-casing maps the ASCII letters A-Z only, not Unicode `toLowerCase`.
- NotificationsPreferences.NotificationsPreferences.OnAdditionalPhoneAdded: the phone Add button's enablement depends on `Validation.isValidPhone`, which is not part of this model.
- The device-store results and the packet and quarantine counts are not modelled; only their loading indicators are. The same goes for the organisation name.
- Dashboard.CountSuffix: the shown number is not modelled, only the suffix and the integer quotient. `toFixed(1)` rounds, so 999 950 to 999 999 show as "1000.0K".
- Slice colours for risks come from the shared colour table, which is a parameter (`riskColor`), not modelled.
- AlarmReview.RiskSlices: an alert type's risk is one of HIGH, MEDIUM, LOW and INFO. In the view, any other risk string adds a fifth key to the risk totals. Its value is `undefined + count`, which is NaN. NaN passes the `!== 0` test (alarm_review.component.js:110), so it shows as an extra slice. The model has no such slice.
- Handlers that would throw on missing data carry a precondition instead. These are:
  - a destination lookup that finds nothing;
  - a pie slice that is not there;
  - an out-of-range alert index;
  - an empty status pie on alert resolution.
- An empty page answering a page change with the modal open is reachable after a resolution, because the pagination count is not lowered. The view throws there; the model closes the selection. This is a finding, below.
- An answer that replaces a list closes any open details selection, so a selection always shows the entry its index names. The views keep it; this is a finding, below.
- The reload issued by a preset, a custom window or "Reload now" asks for page 1 in the model. The views ask for the page shown before the click; this is a finding, below.
- The user-management view of the same application is not part of this model.

## Findings

| source | as written | input that shows it | evidently intended | confidence | as-written member | corrected member |
|---|---|---|---|---|---|---|
| src/components/alarm_review.component.js:280-290 | a filtered query's answer replaces `alerts` but keeps an open `selectedAlert`. Its index may now be past the page's end, and "next" or "previous" then looks up `alerts[index ± 1]`, finds `undefined` and throws on `alert.type` (line 320). Inside the page, the modal still shows an alert of the replaced page. The other answers that replace the page do the same: the reload (122-133), the page after a resolution (152-159) and a page change that captured no selection (168-183) | two clicks on the UNRESOLVED slice put two queries in flight; the first answers three alerts and the third is opened; the second answers one alert; "next" computes index 3 | an answer that replaces the page closes the selection that belonged to the old one | medium; not executed | AlarmReview.AlarmReview.OnQueryArrivedAsWritten, AlarmReview.AlarmReview.OnAlertsArrivedAsWritten, AlarmReview.StaleSelectionAfterTwoQueries | AlarmReview.AlarmReview.OnQueryArrived, AlarmReview.AlarmReview.OnAlertsArrived, AlarmReview.AlarmReview.OnLoadArrived, AlarmReview.AlarmReview.OnPageArrived |
| src/components/dashboard.component.js:195-208 | the latest-alerts answer replaces `topAlerts` but keeps an open `selectedAlert`; after a silent refresh on a push event the modal may point past the list, and "next" or "previous" throws on `alert.type` (line 261) | three latest alerts, details opened on the third, a push event more than 60 000 ms after the last update, and a one-alert answer; "next" computes index 3 | the refresh closes the selection that belonged to the replaced list | medium; not executed | Dashboard.Dashboard.OnTopAlertsArrivedAsWritten, Dashboard.StaleSelectionAfterRefresh | Dashboard.Dashboard.OnTopAlertsArrived |
| src/components/alarm_review.component.js:213-235 | `updateRange` sets `activePage: 1` and then calls `loadAlertsAndCounts`, which reads `this.state.activePage` (line 77) before the batched update applies; the reload fetches the page shown before the click while the paginator shows page 1. `handleDateFilterClick` (200-211) and "Reload now" (538) do the same | on page 3, pick the last week: the paginator shows page 1 and the table holds page 3's rows of the new window | the reload asks for page 1, the page the paginator shows | medium; not executed | AlarmReview.AlarmReview.UpdateRangeAsWritten, AlarmReview.ReloadAfterPaging | AlarmReview.AlarmReview.UpdateRange, AlarmReview.AlarmReview.HandleDateFilterClick, AlarmReview.AlarmReview.ReloadNow |
| src/components/alarm_review.component.js:168-183 | the page-change callback re-binds a captured selection with `showAlertDetails(length - 1)` or `showAlertDetails(0)` without checking that the page has an alert; on an empty page `alerts[index]` is `undefined` and `alert.type` throws (line 320). A resolution (138-159) reaches this: it never lowers `alertsCount`, so the paginator still offers a page that no longer exists | 21 unresolved alerts with the first page open; resolve one; the first page comes back with 20 alerts; open the 20th and press "next": page 2 is requested and comes back empty | an empty page closes the selection | medium; not executed | AlarmReview.AlarmReview.OnPageArrivedAsWritten, AlarmReview.EmptyPageAfterResolution | AlarmReview.AlarmReview.OnPageArrived |
