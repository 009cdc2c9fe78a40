# Report-subscription portal: verified model of the screen state

This project models the in-memory state of the four screens of a
report-subscription portal prototype. Each screen keeps record lists, derives
filtered views from them, and updates the lists in click handlers.

- **Subscriber dashboard** (`subscriber_dashboard.dfy`, module `SubscriberDashboard`).
  - Three group lists (subscribed, unsubscribed, pending) and the three-valued active tab.
  - A case-insensitive search over groups and notifications.
  - The "send request" transition (unsubscribed → head of pending, status `Pending`, tab switches to pending).
  - The "test approval" transition (pending → head of subscribed, status `Active`, dated today).
- **Ops transfer queue** (`ops_page.dfy`, module `OpsPage`).
  - Files with the status chain `Ready to Transfer` → `Processing` → `Transferred`.
  - A guarded transfer that schedules a deferred completion.
  - An inbound-notification queue whose entries become new ready files.
  - A search over file names and ids.
- **Report download selection** (`subscriber_download_page.dfy`, module `SubscriberDownloadPage`).
  - Group lookup with a fallback list.
  - A selection map keyed by report id, reset when the resolved list changes.
  - Two-stage date filtering whose to-bound covers the whole day.
  - Select-all over the filtered rows only.
  - The tri-state header checkbox, and a download count over the whole group list.
- **Admin request table** (`admin.dfy`, module `AdminPage`).
  - `handleAction(id, action)`: `approve`, `deny`, anything else resets to `Pending`.
  - A three-field search.
  - The Pending and Approved tables; denied rows appear in neither.

Each screen is a class. Its fields are the screen's React state variables and
its methods are the handlers, with `modifies this` and postconditions that
state the whole new state. Derived views (the filters, the header flags, the
lookup) are pure functions over sequences and maps. Their meaning is proved
once, in lemmas and in the functions' own `ensures`.

Three support modules:
- `Seqs` gives `Array.prototype.filter` as `Filter`. Its contract says the
  result is an order-preserving subsequence that keeps every occurrence of
  exactly the elements passing the predicate (by membership and by multiset
  count). It also gives `Map`.
- `Text` gives ASCII `toLowerCase` and `String.prototype.includes`.
  `Includes` is proved equal to a reference "occurs at some position"
  definition. `Text` also renders numbers in decimal (`String(n)`) and proves
  that reading the digits back gives the number.
- `Wrappers` gives `Option`.

Modelling choices:
- The browser clock, the timer delay and date parsing are not modelled. The
  current date is a parameter (`today`). A report's date is a `ParsedDate`:
  a day number, or `Unparseable`.
- Instants are milliseconds: a date string parses to the start of its day,
  and the to-bound is moved to the last millisecond of its day. This is what
  `setHours(23, 59, 59, 999)` does.
- The `group` query parameter is an `Option<string>`.
- `alert`/`console.log` become returned values: the download returns
  `NothingSelected` or `Downloading(count)`.
- The ops screen's one-shot timers are a queue field `timers` holding the file
  ids of completions that were scheduled and have not fired yet. The timer
  firing is the explicit method `FireTimer`, which applies the oldest one. The
  class invariant: every file's `isTransferred` flag agrees with its status,
  and every `Processing` file still has a timer queued.

Behaviour of the code worth knowing, which the model keeps:
- After select-all over a filtered view, the header checkbox is fully
  checked, not indeterminate. The code computes the header flags over the
  filtered rows only (SubscriberDownloadPage.js:170-172). `SelectAllSetsHeader`
  proves it.
- Revoke sends `deny` (Admin.js:213). So a revoked request becomes `Denied`
  and leaves both tables. It does not return to Approved or Pending.
- The selection reset runs when the resolved report list changes, not on
  every change of the `group` parameter. The effect depends on the memoised
  list (SubscriberDownloadPage.js:88-90, 119). Two unknown groups both resolve
  to the same fallback list, so switching between them keeps the selections
  and the date fields. `ChangeGroup` states this.
- A fired completion marks every file with that id `Transferred`
  (opsPage.js:91-93). That includes a same-id file that is still
  `Ready to Transfer`, for example one added from a notification after the
  transfer started. Such a file skips `Processing`. Status still never moves
  backwards (`Advances`).

## Model

| member | source | states |
|---|---|---|
| `Seqs.Filter` | SubscriberDashboard.js:122-125 | `array.filter(p)`: the result is an order-preserving subsequence of the input, holds an element iff the input holds it and it passes `p`, and keeps every occurrence of each passing element |
| `Seqs.FilterKeepsAll` | opsPage.js:115-118 | when every element passes, filtering returns the input unchanged |
| `Seqs.FilterFullLength` | SubscriberDownloadPage.js:171 | a filter result is as long as its input iff every element passes |
| `Seqs.FilterShortens` | SubscriberDownloadPage.js:171 | a filter that rejects some element of its input returns fewer elements than the input has |
| `Seqs.FilterNonEmpty` | SubscriberDownloadPage.js:172 | a filter result is non-empty iff some element passes |
| `Seqs.FilterOfFilterLength` | SubscriberDownloadPage.js:168-170 | for any two predicates, the elements of the p-filtered sequence that pass q are never more than the elements of the whole sequence that pass q |
| `Text.Includes` | opsPage.js:116-117 | `s.includes(t)` holds iff `t` occurs in `s` at some position; the empty string is included everywhere |
| `Text.IncludesIgnoreCase` | SubscriberDashboard.js:121-124 | case-insensitive containment is containment of the ASCII-lowercased term in the lowercased text; the empty term matches every text |
| `Text.Lower` | SubscriberDashboard.js:121 | `toLowerCase` keeps the length, leaves no capital letters, keeps non-capitals and shifts capitals by 32 |
| `Text.DecimalRoundTrip` | opsPage.js:49 | reading back the decimal digits that `String(n)` writes gives `n` |
| `SubscriberDashboard.GenerateGroupData` | SubscriberDashboard.js:22-44 | `count` groups with consecutive ids from `startId`; status Active/Active/Active/Inactive cycling when subscribed, else Available; name `<template>_G<id>`; a 2024 subscription date only for subscribed groups |
| `SubscriberDashboard.FilterGroups` | SubscriberDashboard.js:119-126 | an empty term returns the list unchanged; otherwise an order-preserving subsequence keeping exactly the groups whose name or description contains the term, ignoring case |
| `SubscriberDashboard.EmptyTermMatchesEveryGroup` | SubscriberDashboard.js:120-125 | the empty-term shortcut agrees with filtering by the empty term |
| `SubscriberDashboard.FilterNotifications` | SubscriberDashboard.js:132-139 | an empty term keeps every note; otherwise exactly the notes whose report or message contains the term, ignoring case, in order |
| `SubscriberDashboard.Without` | SubscriberDashboard.js:101 | removing an id keeps, in order, exactly the entries with other ids |
| `SubscriberDashboard.WithoutAbsent` | SubscriberDashboard.js:111 | removing an id no entry carries changes nothing |
| `SubscriberDashboard.WithoutUnique` | SubscriberDashboard.js:101 | removing an id exactly one entry carries shortens the list by one |
| `SubscriberDashboard.RequestThenApprove` | SubscriberDashboard.js:100-114 | with ids unique across the three lists, a request followed by an approval keeps the total number of groups and moves the id from unsubscribed to subscribed, with pending back as it was |
| `SubscriberDashboard.Dashboard.constructor` | SubscriberDashboard.js:80-86 | on mount: 15 subscribed groups with ids 1-15 in order, 10 available groups with ids 16-25 in order, none pending, all ids unique, the subscribed tab and an empty search |
| `SubscriberDashboard.Dashboard.SetSearchTerm` | SubscriberDashboard.js:293 | only the search term changes |
| `SubscriberDashboard.Dashboard.SelectTab` | SubscriberDashboard.js:301-318 | a tab button changes only the active tab, never a list |
| `SubscriberDashboard.Dashboard.RequestSubscription` | SubscriberDashboard.js:100-108 | no entry with the group's id stays in unsubscribed (others keep their order); pending becomes the copy with status Pending followed by the old pending list; subscribed untouched; the tab becomes pending; list statuses stay consistent |
| `SubscriberDashboard.Dashboard.SimulateAdminApproval` | SubscriberDashboard.js:110-116 | every entry with the id leaves pending; subscribed gains at its head the copy with status Active dated today; unsubscribed and the tab untouched |
| `OpsPage.FileIdInjective` | opsPage.js:49 | generated ids `FILE-(1000+i)` are distinct for distinct `i` |
| `OpsPage.GenerateRemoteFiles` | opsPage.js:45-57 | `count` files with ids `FILE-(1000+i)` for i = 1..count, all Ready to Transfer with the flag clear, names and folders cycling through the four options |
| `OpsPage.StartTransfer` | opsPage.js:85-98 | a Ready to Transfer file with the id becomes Processing with every other field (the flag included) unchanged; files with other ids, or already Processing or Transferred, are untouched; length and order kept |
| `OpsPage.TimersStarted` | opsPage.js:86-94 | a transfer starts a timer iff some file with the id passes the guard, one per such file |
| `OpsPage.Completed` | opsPage.js:90-93 | the deferred callback marks every file with the id Transferred with the flag set, and leaves all other files unchanged |
| `OpsPage.StartTransferIdempotent` | opsPage.js:86 | a second transfer of the same id changes nothing and starts no timer |
| `OpsPage.TransferAfterStartIsNoOp` | opsPage.js:86 | once no file with the id is Ready to Transfer, a transfer is a no-op |
| `OpsPage.TransferThenComplete` | opsPage.js:84-94 | a ready file that is transferred and whose timer fires ends Transferred with the flag set |
| `OpsPage.TransitionsKeepConsistency` | opsPage.js:88-92 | transfer and completion keep "flag set iff Transferred" for every file |
| `OpsPage.NewEntry` | opsPage.js:105-111 | the file built from a notification carries its id, name and folder, is Ready to Transfer and has the flag clear |
| `OpsPage.WithoutNotification` | opsPage.js:103 | consuming a notification keeps, in order, exactly the notifications with other ids |
| `OpsPage.FilterFiles` | opsPage.js:115-118 | an order-preserving subsequence keeping exactly the files whose name or id contains the term, ignoring case; the empty term keeps all files |
| `OpsPage.Ops.constructor` | opsPage.js:68-72 | on mount: 50 files with ids `FILE-1001`..`FILE-1050` in order, pairwise distinct, all ready to transfer with the flag clear, the three notifications, no timers and an empty search |
| `OpsPage.Ops.SetSearchTerm` | opsPage.js:185 | only the search term changes |
| `OpsPage.Ops.Transfer` | opsPage.js:84-100 | files become `StartTransfer(old files, id)`, one timer per moved file is queued, statuses only advance, the invariant is kept |
| `OpsPage.TransferKeepsTimersCovering` | opsPage.js:85-97 | when every `Processing` file has a queued timer before a transfer, every `Processing` file after it has one among the old timers and the ones the transfer starts |
| `OpsPage.Ops.FireTimer` | opsPage.js:90-94 | the oldest queued timer fires: files become `Completed(old files, id)` and it leaves the queue; with no timer nothing changes; statuses only advance, the invariant is kept |
| `OpsPage.Ops.GetFile` | opsPage.js:102-113 | the notification's id leaves the queue, one ready file built from it heads the file list, the file count grows by one |
| `SubscriberDownloadPage.EndOfDayInclusive` | SubscriberDownloadPage.js:150 | a day's start is at or before the to-bound's last millisecond iff the day is at or before the to-day |
| `SubscriberDownloadPage.StartOfDayMonotone` | SubscriberDownloadPage.js:159 | comparing the starts of two days compares the days |
| `SubscriberDownloadPage.ReportInRangeMeansInDayRange` | SubscriberDownloadPage.js:152-163 | the millisecond comparison the screen makes is the day-level test: no bound passes everything, otherwise the date parses, each given bound parses and from <= date <= to |
| `SubscriberDownloadPage.FilterReports` | SubscriberDownloadPage.js:146-164 | with no active bound the whole list; otherwise an order-preserving subsequence keeping exactly the reports in the day range, an unparseable date excluding the row |
| `SubscriberDownloadPage.ReportsForGroup` | SubscriberDownloadPage.js:88-90 | the group's list when the key is present, the fallback list otherwise, including when no group is given |
| `SubscriberDownloadPage.ListKey` | SubscriberDownloadPage.js:88-90 | identifies which list the lookup resolved to: the key when present, none for the fallback |
| `SubscriberDownloadPage.SameKeySameList` | SubscriberDownloadPage.js:88-90 | groups resolving through the same key get the same list |
| `SubscriberDownloadPage.Toggle` | SubscriberDownloadPage.js:138-143 | flips only the entry for the id, a missing entry becoming selected; every other id reads as before |
| `SubscriberDownloadPage.ToggleTwice` | SubscriberDownloadPage.js:138-143 | toggling twice restores what every id reads as |
| `SubscriberDownloadPage.AssignAll` | SubscriberDownloadPage.js:174-182 | select-all gives every filtered row's id the checked value and leaves every other id as it was |
| `SubscriberDownloadPage.AssignAllStep` | SubscriberDownloadPage.js:178-180 | one more row in the select-all loop is one more map update |
| `SubscriberDownloadPage.SetEach` | SubscriberDownloadPage.js:176-180 | setting each row's entry in turn, starting from a copy of the selections, gives `AssignAll`: every row id maps to `checked` and every other entry is kept |
| `SubscriberDownloadPage.SelectedCount` | SubscriberDownloadPage.js:170 | the count of selected filtered rows is at most the number of filtered rows |
| `SubscriberDownloadPage.AllFilteredSelected` | SubscriberDownloadPage.js:171 | the header is checked iff the filtered list is non-empty and every filtered row is selected |
| `SubscriberDownloadPage.IsIndeterminate` | SubscriberDownloadPage.js:172 | the header is indeterminate iff some filtered row is selected and some is not |
| `SubscriberDownloadPage.HeaderFlagsExclusive` | SubscriberDownloadPage.js:170-172 | the header is never both checked and indeterminate |
| `SubscriberDownloadPage.SelectAllSetsHeader` | SubscriberDownloadPage.js:170-182 | after select-all on a non-empty view the header is fully checked and not indeterminate; after clearing, no filtered row is selected |
| `SubscriberDownloadPage.DownloadCountCoversFiltered` | SubscriberDownloadPage.js:168-170 | the download count covers every selected visible row and also hidden ones; with no active bound the two counts agree |
| `SubscriberDownloadPage.DownloadPage.constructor` | SubscriberDownloadPage.js:83-119 | on mount the effect runs: every report id of the resolved list maps to false, no other id is present, all four date fields are empty |
| `SubscriberDownloadPage.DownloadPage.ResetForGroup` | SubscriberDownloadPage.js:106-119 | the selection map holds exactly the resolved list's ids, all false, and the four date fields are empty |
| `SubscriberDownloadPage.DownloadPage.ChangeGroup` | SubscriberDownloadPage.js:105-119 | a new group parameter resets selections and dates iff it resolves to a different list; otherwise the list, the selections and the dates stay as they were |
| `SubscriberDownloadPage.DownloadPage.SetInput` | SubscriberDownloadPage.js:122-126 | the `from` or `to` input takes the value, other field names change nothing, active filters untouched |
| `SubscriberDownloadPage.DownloadPage.Search` | SubscriberDownloadPage.js:128-131 | the two input dates are copied into the active filters |
| `SubscriberDownloadPage.DownloadPage.ClearFilters` | SubscriberDownloadPage.js:133-136 | all four date fields become empty, so the clear button is disabled and the whole list shows; selections untouched |
| `SubscriberDownloadPage.DownloadPage.Select` | SubscriberDownloadPage.js:138-143 | the selection map becomes its toggle at the id; nothing else changes |
| `SubscriberDownloadPage.DownloadPage.SelectAll` | SubscriberDownloadPage.js:174-182 | the selection map becomes `AssignAll` over the rows the filter showed; group and dates untouched |
| `SubscriberDownloadPage.DownloadPage.DownloadZip` | SubscriberDownloadPage.js:184-193 | "nothing selected" when no report of the whole group list is selected, otherwise that count, including rows hidden by the filter; the selection map is not changed |
| `AdminPage.TwoDigits` | Admin.js:45 | the two-digit day text reads back as the day number |
| `AdminPage.GenerateRequests` | Admin.js:30-50 | 15 requests with ids 1..15, Pending for i < 5, Approved for 5 <= i < 10, Denied from 10, fields cycling through the option lists |
| `AdminPage.ApplyAction` | Admin.js:69-78 | every request with the id gets the action's status, the others are unchanged, length and order kept |
| `AdminPage.ActionOutcomes` | Admin.js:72 | `approve` gives Approved, `deny` gives Denied, any other action gives Pending, and only those actions give Approved or Denied |
| `AdminPage.LastActionWins` | Admin.js:69-78 | two actions on the same id leave the second's result; repeating an action is idempotent |
| `AdminPage.FilterRequests` | Admin.js:60-64 | an order-preserving subsequence keeping exactly the requests whose user name, AD group or report name contains the term, ignoring case; the empty term keeps all |
| `AdminPage.FolderNotSearched` | Admin.js:60-64 | the folder never affects whether a request is found |
| `AdminPage.WithStatus` | Admin.js:66-67 | a table keeps, in order, exactly the filtered requests of its status |
| `AdminPage.PartitionsOfFiltered` | Admin.js:60-67 | the Pending and Approved tables are disjoint subsequences of the search result, a denied request is in neither, every other matching request is in one of them |
| `AdminPage.DeniedIdNotShown` | Admin.js:66-67 | an id whose requests are all denied shows in neither table |
| `AdminPage.RevokeHides` | Admin.js:213 | after revoke (`deny`) no request with the id is in either table under any search, whatever action came before |
| `AdminPage.Admin.constructor` | Admin.js:55-57 | on mount: the 15 generated requests and an empty search |
| `AdminPage.Admin.SetSearchTerm` | Admin.js:125 | only the search term changes |
| `AdminPage.Admin.HandleAction` | Admin.js:69-78 | the request list becomes `ApplyAction(old list, id, action)` |

## Left out

- Rendering (JSX, SVG icons, CSS classes, inline styles) and the header shell and routes (`Layout.js`, `App.js`): presentation with no state to model.
- Navigation (`useNavigate`, `useSearchParams`, `useOutletContext`) and the notification-panel toggles: the group parameter is an input of `ChangeGroup` and of the constructor, and the panel toggle is UI only.
- `alert` and `console.log`: the download returns its outcome instead.
- The 1000 ms delay of the completion timer, its lack of cancellation, and what happens when it fires after the screen is gone: completion is the explicit `FireTimer` call, and timers fire oldest first.
- React's possible double invocation of state updaters (which could schedule a completion twice): each handler is applied once.
- JavaScript `Date` parsing, time zones (`setHours` works in local time, `new Date('YYYY-MM-DD')` gives UTC midnight) and `toISOString`: dates are day numbers or `Unparseable`, instants are milliseconds from a day-aligned origin, and "today" is a parameter.
- Unicode case folding: `toLowerCase` is ASCII-only.
- The mock data behind the download page (`generateAndMapReports` and the 20-entry fallback list): the catalog and fallback list are constructor parameters. The zero-padded date texts of the dashboard generator are kept as `CalendarDate` values, not formatted strings.
- The `selected: false` field of report records, which the screen never reads: selection lives in the selection map.
- Object-property lookups that hit JavaScript's prototype chain (a `group` parameter such as `toString`): the catalog is a Dafny map with no inherited keys.
- Unique ids across the three dashboard lists are not a class invariant. The source lets a request be sent for any group, so `RequestThenApprove` takes unique ids as a precondition.
