# pgbackweb dashboard helpers in Dafny

This project models three pieces of pgbackweb's web dashboard, a Go application for
scheduling PostgreSQL backups:

- **The executions list's pagination bar.** The bar has a First button, an optional
  ellipsis, a window of page numbers around the current page, an optional ellipsis, and
  a Last button. Each button carries its caption, its highlighted/disabled state, its
  accessible name and, when it can be clicked, the link it fetches. That link is the
  page number followed by the database, destination and backup filters, in that order.
- **The create-backup form.** The model covers three things:
  - how a prefill (or its absence) gives each field its initial value;
  - which option each select marks as selected;
  - how a submitted form is bound, validated and turned into the backups service's
    create parameters.
- **Duplicating a backup task.** A stored task is turned into a prefill for the
  create form. The main result is a round trip: submitting that prefill creates the
  same task, with " (copy)" appended to its name and marked inactive.

Modules:

- `Optionals`, `Uuids` (base.dfy): an optional value; UUIDs as 36-character text; the
  zero UUID; `NullUUID`.
- `Strconv` (strconv.dfy): Go's `FormatBool`, `Itoa` and `ParseInt(s, 10, bitSize)`,
  with their round trip.
- `Pagination` (pagination.dfy): `createPageButtonNode`, the bar as a function
  (`Buttons`), and the handler's loop as a method (`BuildPagination`). The method is
  proved to compute that function.
- `PaginationProperties`, `PaginationExamples`: what the bar promises, and the bars
  the repository's unit tests spell out for concrete page counts.
- `BackupForm` (backup_form.dfy): the create-backup form and its handler.
- `DuplicateBackup` (duplicate_backup.dfy): the duplicate prefill and the round trip.
- `Int64Window` (int64_window.dfy): the window bounds and loop counter in Go's 64-bit
  arithmetic.

The window size is a parameter `w`. The handler uses 2 (`DefaultWindowSize`). A missing
bar (Go's `nil` node) is `None`. A link is a path plus its ordered list of query
parameters.

The handler does not clamp a current page that lies outside 1..totalPages. No button
is then current (`NoCurrentOutOfRange`), and a page beyond the last can show a left
ellipsis that stands for no page (`EllipsisBeyondLastPage`).

The model's integers are unbounded. Go's `int` is 64 bits wide and wraps around; the
module `Int64Window` (int64_window.dfy) models the window bounds with that wrap-around
and shows where the two differ (see "## Findings").

## Model

| member | source | states |
|---|---|---|
| Pagination.CreatePageButton | internal/view/web/dashboard/executions/list_executions.go:132-195 | A button is clickable iff it is neither an ellipsis nor current. A non-clickable button is disabled. Highlight and aria-current go exactly to a current non-ellipsis. Only a clickable button has a link, and its link starts with `page=N`. An ellipsis shows "...". |
| Pagination.AriaLabel | internal/view/web/dashboard/executions/list_executions.go:145-156 | The accessible name is "Go to first page" for First, "Go to last page, page N" with N the page count for Last, "Skipped pages" for an ellipsis, and "Go to page N" with N the button's page otherwise. |
| Pagination.LabelTextIdentifies | internal/view/web/dashboard/executions/list_executions.go:146-155 | Only the First caption reads "First", only the Last caption reads "Last", only the ellipsis reads "...". So testing the text, as the code does, is testing which button it is. |
| Pagination.FilterPairs | internal/view/web/dashboard/executions/list_executions.go:179-187 | At most three filter parameters, in strictly increasing key order database < destination < backup. |
| Pagination.PageLink | internal/view/web/dashboard/executions/list_executions.go:176-189 | The link goes to the executions list. Its first parameter is the page's decimal number; the filters follow in fixed key order. |
| Pagination.Buttons | internal/view/web/dashboard/executions/list_executions.go:201-245 | An empty bar iff there are fewer than 2 pages. Otherwise the bar has at least two buttons: the first is First (page 1) and the last is Last (page = total), neither an ellipsis. |
| Pagination.PaginationComponent | internal/view/web/dashboard/executions/list_executions.go:197-203 | No bar at all exactly when totalPages <= 1. Otherwise the bar runs from page 1 to the last page. |
| Pagination.AppendWindow | internal/view/web/dashboard/executions/list_executions.go:222-232 | The window loop appends exactly the pages from max(lo,2) to min(hi,total-1), each once, in ascending order. The already-shown check never fires. |
| Pagination.PageRunStep | internal/view/web/dashboard/executions/list_executions.go:222-232 | One pass of the window loop adds the button for `page` exactly when 1 < page < total, and leaves the collected run unchanged otherwise. |
| Pagination.BuildPagination | internal/view/web/dashboard/executions/list_executions.go:197-252 | The imperative builder, with its pages-shown set, yields exactly the functional bar. |
| Pagination.ButtonsParts | internal/view/web/dashboard/executions/list_executions.go:208-245 | The bar is First, then the left ellipsis if shown, the window, the right ellipsis if shown, and Last. |
| PaginationProperties.Layout | internal/view/web/dashboard/executions/list_executions.go:205-245 | Position by position: First, then L ellipses, the window pages counting up from max(cur-w,2), then R ellipses, then Last. The length is 2+L+window+R. |
| PaginationProperties.NoBarForOnePage | internal/view/web/dashboard/executions/list_executions.go:201-203 | With 0 or 1 pages there is no container and no button. |
| PaginationProperties.FirstAndLastAtTheEnds | internal/view/web/dashboard/executions/list_executions.go:208-210 | First targets page 1 and Last targets the total. The text "First" appears iff at index 0, and "Last" iff at the final index, so each appears exactly once. |
| PaginationProperties.WindowPagesExact | internal/view/web/dashboard/executions/list_executions.go:222-232 | A numbered button exists for page p iff cur-w <= p <= cur+w and 1 < p < total. Its caption is p's number. |
| PaginationProperties.PagesAscending | internal/view/web/dashboard/executions/list_executions.go:205-245 | Pages of the non-ellipsis buttons strictly increase left to right, so no page is repeated. |
| PaginationProperties.EllipsisPlacement | internal/view/web/dashboard/executions/list_executions.go:216-238 | A button is an ellipsis iff it is at index 1 with cur-w > 2, or at the second-to-last index with cur+w < total-1. The number of ellipses is the sum of the two conditions. |
| PaginationProperties.EllipsisMarksSkippedPages | internal/view/web/dashboard/executions/list_executions.go:216-238 | For a current page in range, the left (right) ellipsis appears iff some page below (above) the window is skipped. |
| PaginationProperties.RightEllipsisMarksSkippedPages | internal/view/web/dashboard/executions/list_executions.go:213-238 | For any current page from 1 upward, including pages beyond the last, the right ellipsis appears iff some page above the current one and outside the window is skipped. |
| PaginationProperties.EllipsisBeyondLastPage | internal/view/web/dashboard/executions/list_executions.go:213-220 | With 2 pages and current page 10, the bar is First, an ellipsis, Last, although no page is skipped. |
| PaginationProperties.BothEllipsesFramePages | internal/view/web/dashboard/executions/list_executions.go:213-238 | When both ellipses show, the window holds all 2w+1 pages. |
| PaginationProperties.InWindowBounds | internal/view/web/dashboard/executions/list_executions.go:223-226 | The loop's page filter amounts to the interval max(cur-w,2)..min(cur+w,total-1). |
| PaginationProperties.EllipsisInert | internal/view/web/dashboard/executions/list_executions.go:138-169 | Every ellipsis shows "...", is named "Skipped pages", is never current, is not clickable, is disabled, has no aria-current and has no link. |
| PaginationProperties.CurrentIffCurrentPage | internal/view/web/dashboard/executions/list_executions.go:209-244 | A non-ellipsis button is current iff its page is the current page. |
| PaginationProperties.ExactlyOneCurrent | internal/view/web/dashboard/executions/list_executions.go:209-244 | For 1 <= cur <= total, exactly one button is current. |
| PaginationProperties.NoCurrentOutOfRange | internal/view/web/dashboard/executions/list_executions.go:209-244 | For a current page outside 1..total, no button is current; the code does not clamp. |
| PaginationProperties.InteractionRules | internal/view/web/dashboard/executions/list_executions.go:133-193 | For every button in the bar: clickable iff neither ellipsis nor current; disabled iff not clickable; aria-current and highlight iff current and not an ellipsis; a link iff clickable, and that link is the one to the button's own page. |
| PaginationProperties.AriaLabels | internal/view/web/dashboard/executions/list_executions.go:208-245 | In every bar, the first button is named "Go to first page", the last "Go to last page, page N" with N the page count, and every other non-ellipsis button "Go to page N" with N its own page. |
| PaginationProperties.PageLinkParameters | internal/view/web/dashboard/executions/list_executions.go:176-189 | Reading a link's parameters back gives page = the decimal page number, and each filter iff it is not the zero UUID. The link has exactly one parameter per set filter plus the page. |
| PaginationProperties.BackupFilterKept | internal/view/web/dashboard/executions/list_executions_test.go:170-185 | With only a backup filter, each link is exactly `page=N` followed by `backup=X`. |
| PaginationExamples.MiddleOfTwenty | internal/view/web/dashboard/executions/list_executions_test.go:124-138 | 20 pages, page 10: First, …, 8, 9, 10*, 11, 12, …, Last. |
| PaginationExamples.StartOfTwenty | internal/view/web/dashboard/executions/list_executions_test.go:113-123 | 20 pages, page 1: First*, 2, 3, …, Last. |
| PaginationExamples.EndOfTwenty | internal/view/web/dashboard/executions/list_executions_test.go:139-149 | 20 pages, page 20: First, …, 18, 19, Last*. |
| PaginationExamples.MiddleOfFive | internal/view/web/dashboard/executions/list_executions_test.go:187-227 | 5 pages, page 3: First, 2, 3*, 4, Last, with no ellipsis. |
| PaginationExamples.FirstOfThree | internal/view/web/dashboard/executions/list_executions_test.go:65-73 | 3 pages, page 1: First*, 2, Last. |
| PaginationExamples.MiddleOfThree | internal/view/web/dashboard/executions/list_executions_test.go:74-82 | 3 pages, page 2: First, 2*, Last. |
| PaginationExamples.LastOfThree | internal/view/web/dashboard/executions/list_executions_test.go:83-91 | 3 pages, page 3: First, 2, Last*. |
| PaginationExamples.UnfilteredLink | internal/view/web/dashboard/executions/list_executions.go:176-189 | Without filters, a page's link is the list path with the single parameter page=N. |
| PaginationExamples.ThreePagesShape | internal/view/web/dashboard/executions/list_executions_test.go:65-91 | With 3 pages and a current page among them, the bar is exactly First, the button for page 2, and Last. |
| PaginationExamples.ThreePagesNamesAndLinks | internal/view/web/dashboard/executions/list_executions_test.go:65-91 | 3 pages, current page 1, 2 or 3, no filters: the buttons are named "Go to first page", "Go to page 2" and "Go to last page, page 3". Each links to `?page=1`, `?page=2`, `?page=3` respectively, except the current one, which has no link. |
| PaginationExamples.StartOfSeven | internal/view/web/dashboard/executions/list_executions_test.go:229-237 | 7 pages, page 1: First*, 2, 3, …, Last. The ellipsis is named "Skipped pages", is disabled and has no link. |
| BackupForm.Bind | internal/view/web/dashboard/backups/create_backup.go:43-62 | Binding succeeds iff the database ID is a UUID, the destination (when submitted) is a UUID, and the retention days parse as a decimal int16 (an empty field reads as 0). Every text field is kept as submitted. |
| BackupForm.IntFieldText | internal/view/web/dashboard/backups/create_backup.go:52 | The binder hands the int16 field a non-empty text: an empty submission becomes a text that reads as 0, any other text is passed on unchanged. |
| BackupForm.BoundDestination | internal/view/web/dashboard/backups/create_backup.go:229-232 | The destination is read only while is_local is "false". Otherwise it stays the zero UUID. |
| BackupForm.ToParams | internal/view/web/dashboard/backups/create_backup.go:67-87 | Each service flag is true iff its form text is "true". The destination is valid iff is_local is "false", and it keeps the bound UUID either way. Every other field is copied. |
| BackupForm.ValidFlagsRoundTrip | internal/view/web/dashboard/backups/create_backup.go:46-85 | For a validated form, FormatBool of each decoded flag gives back the submitted text, and the destination is valid iff the task is not local. |
| BackupForm.CreateBackup | internal/view/web/dashboard/backups/create_backup.go:40-93 | The handler calls the service iff binding and validation succeed, and then passes the decoded parameters. |
| BackupForm.CreatedIsConsistent | internal/view/web/dashboard/backups/create_backup.go:67-87 | Every accepted submission creates a task whose destination is present iff it is remote. A local task keeps the zero UUID. |
| BackupForm.RequiredFieldsEnforced | internal/view/web/dashboard/backups/create_backup.go:44-58 | The validation tags, in terms of the submitted text: a form that binds is accepted iff the database is not the zero UUID, name, cron expression, time zone and directory are non-empty, and all eight flag fields are "true" or "false". |
| BackupForm.FlagOrFalse | internal/view/web/dashboard/backups/create_backup.go:127-130 | A flag starts as "false" without a prefill or with an empty prefilled value, else as the prefilled text. |
| BackupForm.TextOrEmpty | internal/view/web/dashboard/backups/create_backup.go:132-147 | A text field starts empty without a prefill, else as the prefilled text. |
| BackupForm.InitialValues | internal/view/web/dashboard/backups/create_backup.go:127-177 | A new form: is_local "false", is_active "true", every option "false", the texts empty. A prefilled form copies the texts, keeps each non-empty flag, and is always inactive. If the prefilled flags are flags or empty, every initial flag is "true" or "false". |
| BackupForm.YesNoOptions | internal/view/web/dashboard/backups/create_backup.go:118-123 | Yes ("true") is selected iff the value is "true". No ("false") is selected iff the value is "false" or "". |
| BackupForm.YesNoSelection | internal/view/web/dashboard/backups/create_backup.go:118-123 | Exactly one option is selected iff the value is "true", "false" or "", and none otherwise. The selected option submits "true" only for "true". |
| BackupForm.FlagOptions | internal/view/web/dashboard/backups/create_backup.go:223-224 | For the is_local/is_active selects, Yes is selected iff the value is "true" and No iff it is "false". |
| BackupForm.FlagSelection | internal/view/web/dashboard/backups/create_backup.go:326-327 | Exactly one option is selected iff the value is a flag, and the selected option submits that value. |
| BackupForm.RowOptions | internal/view/web/dashboard/backups/create_backup.go:206-211 | A database/destination option is selected iff a prefill names a non-empty ID equal to the row's. |
| BackupForm.RowSelection | internal/view/web/dashboard/backups/create_backup.go:240-245 | With distinct IDs, at most one row is selected. Exactly one is selected iff the prefilled ID is among the rows, and that row is the one with the ID. |
| BackupForm.EffectiveZone | internal/view/web/dashboard/backups/create_backup.go:276-284 | The proposed zone is the prefill's when non-empty, else the server's. |
| BackupForm.TimezoneOptions | internal/view/web/dashboard/backups/create_backup.go:272-286 | A zone is selected iff its code equals the prefilled zone, or the server zone when there is no non-empty prefilled zone. |
| BackupForm.TimezoneSelection | internal/view/web/dashboard/backups/create_backup.go:276-284 | With distinct codes, at most one zone is selected. Exactly one is selected iff the proposed zone is listed. |
| BackupForm.ValueAttr | internal/view/web/dashboard/backups/create_backup.go:193 | A text input carries a value attribute iff its initial text is non-empty. |
| BackupForm.CreateBackupForm | internal/view/web/dashboard/backups/create_backup.go:179-330 | The rendered form's Alpine state, input values and select options come from the initial values, the prefilled IDs and the proposed zone. |
| BackupForm.NewFormDefaults | internal/view/web/dashboard/backups/create_backup.go:127-177 | A new form selects no database or destination, proposes the server's zone, and shows local "No", active "Yes" and every option "No". |
| BackupForm.PrefilledFormInactive | internal/view/web/dashboard/backups/create_backup.go:149-152 | Any prefilled form shows active "No", whatever the prefill's own value. |
| DuplicateBackup.DuplicatePrefill | internal/view/web/dashboard/backups/duplicate_backup.go:33-54 | The name gains " (copy)" and IsActive is "false". The destination ID is the original's when valid and "" otherwise. The database ID, cron, zone and directory are copied unchanged. |
| DuplicateBackup.DuplicateEncoding | internal/view/web/dashboard/backups/duplicate_backup.go:37-47 | Each flag is written as "true"/"false", and `== "true"` recovers the original flag. The retention days are written so that a 16-bit parse returns the original number. |
| DuplicateBackup.DuplicateBinds | internal/view/web/dashboard/backups/duplicate_backup.go:33-54 | For a task whose destination agrees with its locality (`DestinationConsistent`), binding its duplicate succeeds and recovers the original database ID, retention days and destination ID (the zero UUID for a local task). |
| DuplicateBackup.DuplicateRoundTrip | internal/view/web/dashboard/backups/duplicate_backup.go:33-54 | For a task whose destination agrees with its locality, submitting its duplicate gives exactly its parameters with name + " (copy)" and inactive. The submission is refused iff a required field of the original is empty. |
| DuplicateBackup.InconsistentDestinationLost | internal/view/web/dashboard/backups/duplicate_backup.go:50-54 | A local task that still names a destination loses that destination in its copy. |
| DuplicateBackup.DuplicateFormShowsOriginal | internal/view/web/dashboard/backups/duplicate_backup.go:33-68 | The duplicate form shows the original's database, destination, zone, locality, options, schedule, directory and retention, under name + " (copy)", and inactive. |
| Strconv.ParseInt16Itoa | internal/view/web/dashboard/backups/duplicate_backup.go:41 | Parsing the decimal rendering of any int16 at bit size 16 gives the value back. |
| Strconv.FormatBool | internal/view/web/dashboard/backups/duplicate_backup.go:37 | The result is "true" or "false", and "true" exactly for true. |
| Strconv.Itoa | internal/view/web/dashboard/executions/list_executions.go:228 | The decimal rendering is non-empty, starts with '-' iff the number is negative, and is otherwise all decimal digits. |
| Strconv.ItoaDigit | internal/view/web/dashboard/executions/list_executions.go:228 | A number from 0 to 9 renders as its single digit; 1, 2 and 3 render as "1", "2" and "3". |
| Strconv.ParseInt | internal/view/web/dashboard/backups/create_backup.go:52 | A successful parse at bit size k lies in -2^(k-1) .. 2^(k-1)-1, comes from a non-empty text, and is negative only when the text starts with '-'. |
| Int64Window.Wrap64 | internal/view/web/dashboard/executions/list_executions.go:213-214 | The 64-bit wrap-around of x is a 64-bit value congruent to x modulo 2^64, and is x itself when x already fits. |
| Int64Window.BoundsAgree | internal/view/web/dashboard/executions/list_executions.go:213-238 | When cur-w and cur+w fit in 64 bits, the handler's window bounds and right-ellipsis test are the unbounded ones used everywhere else in the model. |
| Int64Window.WindowLoopNeverExits | internal/view/web/dashboard/executions/list_executions.go:213-223 | At current page 2^63-3 the loop's upper bound is 2^63-1: every 64-bit page passes the loop test, and incrementing 2^63-1 wraps to -2^63, so the loop never ends. |
| Int64Window.RightEllipsisAtMaxInt64 | internal/view/web/dashboard/executions/list_executions.go:213-238 | At current page 2^63-1 with 20 pages the right bound wraps below zero: the handler shows a right ellipsis although no page above the current one exists, where the unbounded bar shows none. |

## Left out

- Pagination.Buttons: computes with unbounded integers. It agrees with Go's 64-bit `int`
  whenever cur-w and cur+w fit in 64 bits (`Int64Window.BoundsAgree`); near the top of
  the range see "## Findings".
- Pagination.PaginationComponent: same unbounded-integer reading as `Buttons`, for the
  same reason.
- Pagination.AppendWindow: its loop always terminates because the model's `page++`
  does not wrap; the handler's loop at current page 2^63-3 does not (see "## Findings").
- Pagination.BuildPagination: same unbounded-integer reading as `AppendWindow`.

- HTML rendering. Classes, HTMX/Alpine attributes, modals, spinners and help texts are
  not modelled; each button and form field is an abstract record.
- The HTTP handlers' I/O and the service calls. The executions page, stored backups,
  databases, destinations and time zones are inputs. Failed service calls, which only
  show a toast, are not modelled.
- The `listExecutions` table rows. They are date, duration and file-size formatting with
  no stated contract.
- The obsolete `duplicateBackupHandler`, which always answers "not implemented", and
  `duplicateBackupButton`/`createBackupButton`, which are markup only.
- URL escaping. The code that appends a query parameter is not part of this model, so a
  link is kept as its ordered key/value pairs.
- The request binder and the validator are not part of this model. `Bind` assumes three
  things about the binder:
  - UUIDs are read by the canonical-text stand-in `ParseUuid`;
  - integers are read with base-10 `ParseInt` at the field's bit size, with an empty
    value read as 0;
  - a field the page does not submit keeps its zero value.

  `Valid` assumes that the validation tags mean what they say: required non-zero or
  non-empty, and `oneof`.
- Uuids.ParseUuid: accepts exactly the 36-character strings. The library also takes
  other spellings and checks the hex digits; that is not modelled.
- Strconv.ParseInt: collapses Go's syntax and range errors into one `None`. The error
  text is only shown to the user.
- BackupForm.BoundDestination: assumes the browser submits `destination_id` only while
  the destination select is shown, i.e. while is_local is "false".
- The server's time zone (`time.Now().Location()`) is the parameter `serverZone`.
- The handler's own parsing and validation of the query string is not modelled. Its
  filters and current page are inputs.

## Findings

| source | as written | input that shows it | evidently intended | confidence | as-written member | corrected member |
|---|---|---|---|---|---|---|
| internal/view/web/dashboard/executions/list_executions.go:213-223 | `rightWindowBound` is `CurrentPage + 2` in 64-bit `int`, and the loop runs while `page <= rightWindowBound` with `page++` | CurrentPage = 9223372036854775805: the bound is the largest `int`, every `page` passes the test, and `page++` wraps to the smallest, so the loop never ends | the loop visits the at most five pages of the window and stops | not executed; medium (assumes the paginated response can echo such a requested page) | Int64Window.WindowLoopNeverExits | Pagination.AppendWindow |
| internal/view/web/dashboard/executions/list_executions.go:213-238 | the right-ellipsis test compares the wrapped `rightWindowBound` with `TotalPages-1` | CurrentPage = 9223372036854775807, TotalPages = 20: the bound wraps negative, so a right ellipsis is shown although no page above the current one exists | the right ellipsis appears only when a page above the window is skipped | not executed; medium (assumes the paginated response can echo such a requested page) | Int64Window.RightEllipsisAtMaxInt64 | PaginationProperties.RightEllipsisMarksSkippedPages |
