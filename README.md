# Course dashboard: data layer and CRUD handlers

This project models the in-memory data layer of the course-administration dashboard
(`src/pages/Dashboard.tsx`). The dashboard holds five collections loaded from a remote
record store: courses (Kurse), instructors (Dozenten), participants (Teilnehmer),
rooms (Raeume) and enrollments (Anmeldungen). The model covers:

- **Reference resolution** (`Resolver`): a course names its instructor and room, and an
  enrollment names its participant and course, through opaque locator texts. The four
  resolvers decode a locator, take the first loaded record with that `record_id`, and
  render a label. A dangling locator renders as `"-"`.
- **Search** (`Search`): `filterData`, a case-insensitive substring filter over a list of
  fields that keeps the original order, and the enrollment filter. The enrollment filter
  searches the resolved participant name and resolved course title.
- **Statistics** (`Stats`): active courses, participant count, enrollments since the
  start of the month, and capacity utilisation with its guard against a zero capacity.
- **Forms and payloads** (`Forms`): a stored record mapped into its edit form; the
  defaults of a new form; the write payload built from a form; and the requests sent
  to the store.
- **The page state machine** (`DashboardPage.Dashboard`): a class with one field per state
  cell of the component. Its methods are `loadAllData`, `openCreateDialog`,
  `openEditDialog`, `resetForms`, `handleSave`, `confirmDelete`, `handleDelete` and
  `toggleBezahlt`.

Modelling choices:

- A call into the store is an input of the handler that makes it. `writeOk` says
  whether the create, update or delete succeeded. `fetchOk` says whether the reload
  succeeded. `server` is the set of collections the store returns at that moment.
- Every write the page sends is appended to the field `requests`. This is how the
  contracts say exactly what was sent.
- Platform and client functions are arrow-typed fields of `Entities.Env`. These are
  lower-casing, `new Date(text)`, `Number(text)`, `Number.prototype.toString`,
  `extractRecordId` and `createRecordUrl`. The page holds its `Env` as a constant.
- The current instant and the first instant of the current month are parameters of
  the statistics.
- What the model assumes of the locator codec is the ghost predicate
  `Entities.CodecLaws`. Decoding an encoded identifier gives it back, an encoded locator
  is not empty, and decoding `undefined` gives `null`. Nothing assumes it unconditionally;
  the contracts and lemmas that need it take it as a hypothesis.

Where the code and the design description differ, the model follows the code:

- A found room is rendered as `` `${raumname} (${gebaeude || '-'})` ``. An empty name
  is not replaced by `"-"`, and an undefined name renders as `"undefined"`
  (`Resolver.RaumName`).
- The enrollment payload always encodes both references, so an empty selection is sent
  as the locator of the empty identifier. It is not omitted (`Forms.AnmeldungPayload`).
- An edit without a truthy `editingId` sends no write but still reloads and closes the
  dialog. It does not fail (`DashboardPage.SaveRequests`, `DashboardPage.SaveSucceeds`).
- The `saving` flag is never consulted by the handlers. Only the disabled buttons of the
  dialogs keep a second save or delete from starting. `toggleBezahlt` neither reads nor
  sets it (`DashboardPage.Dashboard.ToggleBezahlt`).
- A successful write whose reload fails counts as a failure. The collection and the
  dialog stay as they were.
- Searching the enrollments for `"-"` matches every enrollment with a dangling
  participant, because the placeholder itself is what gets searched
  (`Search.DashFindsDanglingEnrollments`).

## Model

| member | source | states |
|---|---|---|
| Util.OrDash | src/pages/Dashboard.tsx:186 | `x \|\| '-'` on a text: the text when it is present and non-empty, else `"-"`; never empty |
| Util.Filter | src/pages/Dashboard.tsx:469-474 | `Array.prototype.filter`: every kept element satisfies the predicate; every satisfying element is kept as often as it occurs; nothing else is added; the result is an order-preserving subsequence |
| Util.FilterKeepsAll | src/pages/Dashboard.tsx:481-482 | a filter whose test accepts every element returns its input unchanged |
| Util.FilterLengthIsCount | src/pages/Dashboard.tsx:154-165 | the length of a filtered list is the number of positions whose element passes the test |
| Util.FilterSnoc | src/pages/Dashboard.tsx:154-159 | filtering a list with one more element at the end gives the filtered prefix followed by that element if it passes |
| Resolver.IndexOfId | src/pages/Dashboard.tsx:185 | the position `find` stops at: the first row with the identifier, or none when no row has it |
| Resolver.FindById | src/pages/Dashboard.tsx:184-185 | no result exactly when the decoded id is `null` or no row carries it; otherwise the first row carrying it |
| Resolver.Resolve | src/pages/Dashboard.tsx:182-208 | `"-"` for an undefined or empty locator, one that does not decode, or one no loaded record matches; otherwise the label of the first matching record |
| Resolver.DozentName | src/pages/Dashboard.tsx:182-187 | `"-"` for a dangling locator; otherwise the matched instructor's name, or `"-"` when that name is empty; never empty |
| Resolver.RaumName | src/pages/Dashboard.tsx:189-194 | `"-"` for a dangling locator; otherwise `raumname (gebaeude or "-")` of the matched room, with an undefined name rendered as `undefined` |
| Resolver.TeilnehmerName | src/pages/Dashboard.tsx:196-201 | `"-"` for a dangling locator; otherwise the matched participant's name, or `"-"` when that name is empty |
| Resolver.KursTitel | src/pages/Dashboard.tsx:203-208 | `"-"` for a dangling locator; otherwise the matched course's title, or `"-"` when that title is empty |
| Resolver.RaumLabel | src/pages/Dashboard.tsx:193 | the label of a found room: its name in a template (an undefined name renders as `undefined`), then its building or `"-"` in parentheses; stated by the definition |
| Resolver.ResolveEncoded | src/pages/Dashboard.tsx:196-201 | under the codec laws and unique identifiers, a locator encoded from a loaded record's id resolves to that record's label |
| Resolver.DeletedTeilnehmerShowsDash | src/pages/Dashboard.tsx:196-201 | an enrollment whose participant is no longer loaded shows `"-"` |
| Search.FilterData | src/pages/Dashboard.tsx:463-475 | empty query: the input unchanged; otherwise exactly the records, in order and with multiplicity, where some listed field is present, non-empty and its lower-cased text contains the lower-cased query |
| Search.InstructorSearchScenario | src/pages/Dashboard.tsx:478 | searching instructors for "info" keeps the "Informatik" specialist and drops the "Marketing" one |
| Search.AnmeldungMatches | src/pages/Dashboard.tsx:482-487 | the test applied to one enrollment: an empty search, or the lower-cased resolved participant name or course title contains the lower-cased search; stated by the definition |
| Search.FilteredAnmeldungen | src/pages/Dashboard.tsx:481-488 | empty query: all enrollments; otherwise exactly the enrollments, in order, whose resolved participant name or resolved course title contains the query case-insensitively |
| Search.DashFindsDanglingEnrollments | src/pages/Dashboard.tsx:481-488 | the query `"-"` keeps every enrollment whose participant reference is dangling |
| Stats.IsActive | src/pages/Dashboard.tsx:154-159 | a course is active when both dates are present and non-empty, both parse, and start ≤ now ≤ end; stated by the definition |
| Stats.EnrolledThisMonth | src/pages/Dashboard.tsx:161-165 | an enrollment counts for this month when its date is present, non-empty, parses, and is at or after the first instant of the month; stated by the definition |
| Stats.ActiveKurse | src/pages/Dashboard.tsx:154-159 | the number of courses that have both dates, both dates parse, and start ≤ now ≤ end |
| Stats.AnmeldungenThisMonth | src/pages/Dashboard.tsx:161-165 | the number of enrollments with a parseable date on or after the start of the month |
| Stats.UndatedKursNotActive | src/pages/Dashboard.tsx:154-155 | adding a course without a start or end date leaves the active count unchanged |
| Stats.TotalCapacity | src/pages/Dashboard.tsx:167-170 | sum of `max_teilnehmer`, missing counting 0: zero when every value is missing, non-negative when every value is |
| Stats.TotalCapacityAppend | src/pages/Dashboard.tsx:167-170 | the capacity of two lists of courses together is the sum of their capacities |
| Stats.Auslastung | src/pages/Dashboard.tsx:171 | 0 when the capacity is not positive, whatever the enrollment count; otherwise `100·n/capacity` rounded half up |
| Stats.RoundedPercentUnique | src/pages/Dashboard.tsx:171 | the rounded percentage is unique, so that contract determines the utilisation completely |
| Stats.AuslastungAtMostHundred | src/pages/Dashboard.tsx:171 | utilisation is at most 100 while enrollments do not exceed capacity |
| Stats.ComputeStats | src/pages/Dashboard.tsx:152-179 | the four figures of one snapshot: active-course count, participant collection size, this month's enrollments, and global enrollments over total capacity with the zero guard |
| Stats.UtilisationScenario | src/pages/Dashboard.tsx:167-171 | one course of capacity 20 and five enrollments give 25 |
| Forms.ResetFormSet | src/pages/Dashboard.tsx:298-318 | all forms empty, the enrollment date is today and the paid flag is false |
| Forms.KursFormOf | src/pages/Dashboard.tsx:241-254 | every text field shows the stored text or empty, every number its printed numeral or empty, every reference the identifier it decodes to or empty |
| Forms.DozentFormOf | src/pages/Dashboard.tsx:255-264 | every field shows the stored text, or empty when it is missing |
| Forms.TeilnehmerFormOf | src/pages/Dashboard.tsx:265-274 | every field shows the stored text, or empty when it is missing |
| Forms.RaumFormOf | src/pages/Dashboard.tsx:275-283 | name and building show the stored text or empty; the capacity shows its printed numeral or empty |
| Forms.AnmeldungFormOf | src/pages/Dashboard.tsx:284-293 | both selections show the identifier the reference decodes to or empty; the date shows its text or empty; the paid box is ticked exactly when the flag is true |
| Forms.OptionalText | src/pages/Dashboard.tsx:327 | an empty text becomes undefined and any other text is kept |
| Forms.OptionalNumber | src/pages/Dashboard.tsx:329-330 | a number is sent only when its text is non-empty, and then it is `Number` of that text |
| Forms.OptionalRef | src/pages/Dashboard.tsx:331-332 | a reference is sent only when a selection exists, and then it is the locator of that identifier for the given kind, which under the codec laws decodes back to it |
| Forms.KursPayload | src/pages/Dashboard.tsx:325-334 | title and dates always sent as entered; a filled-in description is sent as entered, a filled-in capacity or price as `Number` of its text, a selected instructor or room as its locator (decoding back to the selection under the codec laws); an empty one is left undefined |
| Forms.DozentPayload | src/pages/Dashboard.tsx:344-349 | name and email always sent as entered; phone and specialty sent as entered when filled in, left undefined when empty |
| Forms.TeilnehmerPayload | src/pages/Dashboard.tsx:359-364 | name and email always sent as entered; phone and birth date sent as entered when filled in, left undefined when empty |
| Forms.RaumPayload | src/pages/Dashboard.tsx:374-378 | room name always sent as entered; a filled-in building sent as entered and a filled-in capacity as `Number` of its text; an empty one left undefined |
| Forms.AnmeldungPayload | src/pages/Dashboard.tsx:388-393 | both references always sent as the locators of the selections, even an empty one, and decode back to them under the codec laws; date and paid flag sent as entered |
| Forms.TogglePayload | src/pages/Dashboard.tsx:452-454 | only the paid flag is sent, negated, with a missing flag counting as unpaid |
| Forms.BuildPayload | src/pages/Dashboard.tsx:322-395 | the payload built for a tab is of that tab's kind |
| Forms.KursFormRoundTrip | src/pages/Dashboard.tsx:243-252 | editing a course stored as its payload restores the form (codec laws, canonical numerals) |
| Forms.DozentFormRoundTrip | src/pages/Dashboard.tsx:257-262 | editing an instructor stored as its payload restores the form |
| Forms.TeilnehmerFormRoundTrip | src/pages/Dashboard.tsx:267-272 | editing a participant stored as its payload restores the form |
| Forms.RaumFormRoundTrip | src/pages/Dashboard.tsx:277-281 | editing a room stored as its payload restores the form (canonical numerals) |
| Forms.AnmeldungFormRoundTrip | src/pages/Dashboard.tsx:286-291 | editing an enrollment stored as its payload restores the form, empty selections included (codec laws) |
| Forms.SavedFormsRoundTrip | src/pages/Dashboard.tsx:235-296 | for each tab, mapping the save payload back through the edit mapping gives the form it came from |
| Forms.DozentResaveUnchanged | src/pages/Dashboard.tsx:255-264 | saving an instructor's edit form without changes sends the stored fields again, when name and email are present and no optional text is empty |
| Forms.TeilnehmerResaveUnchanged | src/pages/Dashboard.tsx:265-274 | the same for a participant |
| DashboardPage.Reload | src/pages/Dashboard.tsx:340 | reloading one kind replaces that collection with the store's answer and leaves the other four as they were |
| DashboardPage.ReloadIdempotent | src/pages/Dashboard.tsx:340 | reloading the same kind twice from the same answer equals reloading once |
| DashboardPage.SaveRequests | src/pages/Dashboard.tsx:335-339 | at most one write: a create in create mode; an update of `editingId` in edit mode when it is set; nothing in edit mode without one |
| DashboardPage.SaveSucceeds | src/pages/Dashboard.tsx:335-403 | `handleSave` reaches `setDialogOpen(false)` exactly when the write it sends (if any) and the reload both succeed; stated by the definition |
| DashboardPage.Dashboard.constructor | src/pages/Dashboard.tsx:69-122 | the initial cells: empty collections, closed dialogs in create mode, empty forms, nothing sent |
| DashboardPage.Dashboard.LoadAllData | src/pages/Dashboard.tsx:129-149 | all five collections become the fetched ones when every fetch succeeds; none changes otherwise |
| DashboardPage.Dashboard.SelectTab | src/pages/Dashboard.tsx:590-593 | switching tabs sets the tab and clears the search |
| DashboardPage.Dashboard.SetSearchQuery | src/pages/Dashboard.tsx:625 | sets the search text |
| DashboardPage.Dashboard.ResetForms | src/pages/Dashboard.tsx:298-318 | every form becomes its default, with today's enrollment date |
| DashboardPage.Dashboard.OpenCreateDialog | src/pages/Dashboard.tsx:228-233 | create mode, no editing id, default forms, dialog open |
| DashboardPage.Dashboard.OpenEditDialog | src/pages/Dashboard.tsx:235-296 | edit mode for the item's id, its tab active, only its form filled in from its fields, dialog open |
| DashboardPage.Dashboard.ReloadCollection | src/pages/Dashboard.tsx:340 | replaces exactly the collection of one kind with the store's answer |
| DashboardPage.Dashboard.HandleSave | src/pages/Dashboard.tsx:320-409 | sends exactly the writes of `SaveRequests` for the active tab's payload; on success reloads only that collection and closes the dialog; on failure changes no collection and leaves the dialog; `saving` is false afterwards |
| DashboardPage.Dashboard.ConfirmDelete | src/pages/Dashboard.tsx:411-414 | records the pending item and opens the confirmation |
| DashboardPage.Dashboard.HandleDelete | src/pages/Dashboard.tsx:416-449 | without a pending item nothing changes; otherwise one delete is sent, and on success only that kind's collection is reloaded and the pending item is cleared; `saving` is false afterwards |
| DashboardPage.Dashboard.ToggleBezahlt | src/pages/Dashboard.tsx:451-460 | sends one update carrying only the negated paid flag, then replaces only the enrollments on success; `saving` is not touched |
| DashboardPage.Dashboard.FilteredKurse | src/pages/Dashboard.tsx:477 | the course rows shown: all of them when the search is empty; otherwise exactly the rows whose title or description contains the search text, in order and each as often as it occurs |
| DashboardPage.Dashboard.FilteredDozenten | src/pages/Dashboard.tsx:478 | the instructor rows shown: all when the search is empty, otherwise exactly the rows matching on name, email or specialty, in order and with multiplicity |
| DashboardPage.Dashboard.FilteredTeilnehmer | src/pages/Dashboard.tsx:479 | the participant rows shown: all when the search is empty, otherwise exactly the rows matching on name or email, in order and with multiplicity |
| DashboardPage.Dashboard.FilteredRaeume | src/pages/Dashboard.tsx:480 | the room rows shown: all when the search is empty, otherwise exactly the rows matching on room name or building, in order and with multiplicity |
| DashboardPage.Dashboard.FilteredAnmeldungenView | src/pages/Dashboard.tsx:481-488 | the enrollment rows shown: all when the search is empty, otherwise exactly those whose resolved participant name or course title matches, in order and with multiplicity |

## Left out

- All markup: tabs, tables, dialogs, select widgets, badges and the cancel buttons that
  only close a dialog. The disabled state of buttons while `saving` is set is also left
  out, since it is presentation.
- `formatDate` and `formatCurrency`: thin wrappers over `date-fns` and `Intl.NumberFormat`.
- `getDialogTitle`: a display string.
- The `loading` flag and the concurrency of `Promise.all` in `loadAllData`. The load is
  all-or-nothing: `fetchOk` stands for "all five fetches resolved".
- Interleaving of handlers. Each handler runs to completion, so a second save started
  while one is in flight is not modelled, and `saving` is false between handlers.
- `console.error` logging in the catch blocks.
- The remote store itself: what it does with a create, update or delete is not modelled.
  Its answers are handler inputs.
- Numbers are integers. Fractional prices, `NaN` from `Number(text)` and floating-point
  rounding in `Math.round((n / capacity) * 100)` are not modelled.
- Stats.Auslastung: states the exact rational rounding, which can differ from the source's
  floating-point product at a half-way value.
- Dates are the time values that `Env.parseDate` returns; calendar arithmetic and time
  zones (`new Date(year, month, 1)`) are outside the model.
- Lower-casing, `Number`, `toString`, `extractRecordId` and `createRecordUrl` are
  uninterpreted. The codec's behaviour is assumed only through `Entities.CodecLaws`.
- `openEditDialog` takes its record as a tagged value (`DashboardPage.Item`), so a tab
  that does not match the record's kind cannot be passed.
- `Number` and `Number.prototype.toString` are uninterpreted, so the course and room
  round trips assume that printing the parsed number gives back the text
  (`Forms.CanonicalNumeral`).
