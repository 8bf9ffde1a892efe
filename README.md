# Property listings client — a Dafny model

This project models the logic of a small React client for a property-listing
backend. The client lists properties page by page with filters, and it creates,
edits, views and deletes them. It has no algorithm at its centre. It does have
several pieces of sequential, stateful logic, and the model lifts these out of
the rendering code:

- **Js**: the JavaScript behaviour the other modules rely on. Integer
  `toString`, `trim` and `join(', ')`.
- **Model** (`src/types/Property.js`): the `PropertyType` enum, and the
  `PropertyInDTO` and `PropertyFilters` constructors with their defaults.
- **Service** (`src/services/propertyService.js`):
  - the ordered query that `getAllProperties` builds;
  - the success-or-throw wrapping of the five CRUD operations;
  - `handleError`, which turns any failure into one `{message, code}` error.
- **Pagination** (`src/components/Pagination.js`): the window of at most five
  page numbers, the item range, and the first/previous/next/last buttons.
- **FilterPanel** (`src/components/PropertyFilters.js`): the eight filter
  inputs, the cleaning that turns them into the applied filter map, the reset,
  and `hasActiveFilters`.
- **FormController** (`src/components/PropertyForm.js`):
  - the validator;
  - the mapping of a loaded record onto the draft;
  - the field-update rule;
  - the submit transition;
  - the effect that chooses create or edit mode.
- **ListController** (`src/components/PropertyList.js`): the list page's
  eight state fields, the fetch, deletion with refresh, and the filter, page
  and page-size handlers.
- **Router** (`src/App.js`): the current view, the selected id, the handlers
  that move between views, and the screen each view renders.

Each component that holds React state is a `class` whose fields are that
state. Each handler is a method that updates the fields step by step, as the
source does. Its `ensures` ties the new state to a transition function on a
value of the whole state (`FormState`, `ListState`, `AppState`). The
properties are proved about those functions:

- invariants every handler keeps;
- what each transition sends and stores;
- the round trip of a stored draft through the edit mapping;
- the order and completeness of the validator.

The loops of the source become methods with loop invariants, proved against
a specification function:
- the query-building loop of `getAllProperties`;
- `generatePageNumbers`;
- the cleaning loop of `handleApplyFilters`.

Modelling conventions:

- **Backend.** The backend is a parameter `send: Request -> Outcome<T>`. It
  gives either the response data or a `Failure`: a response with status, status
  text and body, a request that got no response, or any other error. Each fetch
  or submit is one atomic request and response.
- **Parsing.** `parseFloat` is a parameter `parse: string -> Option<int>`.
  `None` stands for NaN.
- **Numbers.** JavaScript numbers are integers.
- **Identifiers.** Property ids are strings. An id is truthy when it is not
  empty.
- **Values.** A JavaScript value that may be `null`, `undefined`, a string, a
  number or a boolean is the datatype `Js.Value`.
- **Re-rendering.** React re-runs an effect only when one of its dependencies
  changes:
  - setting the list's page or size to its current value does not refetch;
  - every filter change refetches, because each filter map is a new object;
  - the form's `propertyId` effect runs only when the prop changes.

  The class methods carry out the effect that follows a handler.
  `FormController.PropertyForm.SetPropertyId` models a new prop on a mounted
  form. This covers moving from the edit view to the create view. Both views
  render `PropertyForm` at the same place, so React keeps the instance and
  only the prop changes. The form switches to create mode with a fresh draft,
  and any error message it showed stays.

Some behaviour of the code that the model keeps as written:

- **Responses out of order.** There is no stale-response guard.
  `fetchProperties` has no request counter, so when two list requests overlap,
  the response that arrives last is the one kept, even when its request was
  the older one.
  With atomic requests the model has no overlap to show.
- **Error bodies.** An object error body with neither a truthy `message` nor a
  truthy `detail` keeps the message 'An unexpected error occurred'. The
  "HTTP <status>: <statusText>" line is only made for a body that is neither
  an object nor a string (`Service.ObjectBodyKeepsGenericMessage`).
- **Type check.** The validator checks the property type with `!formData.type`,
  without trimming, so a type of white space only passes.
- **Edit mapping.** The mapping reads the type from the record's
  `propertyEntity` property and ignores its `type` property. The display
  components read `type`. A record that carries its type only under `type` is
  edited as a HOUSE (`FormController.EditDraftIgnoresTypeField`).

## Model

| member | source | states |
|---|---|---|
| Model.TypeFromName | src/types/Property.js:1-7 | a name denotes a property type exactly when it is one of the five names, and that type's value is the name itself |
| Model.PropertyTypeEnumeration | src/types/Property.js:1-7 | there are exactly five types, every type is listed, their names are pairwise distinct, and each maps to its own name and back |
| Model.NewDraft | src/types/Property.js:31-58 | a `PropertyInDTO` keeps every field that was supplied unchanged and gives every absent field its default |
| Model.DefaultDraftValues | src/types/Property.js:32-45 | a default draft has '' for address, city, description, name and owner, 0 for the five numbers, `active` true and type HOUSE |
| Model.NewDraftFromFullArgs | src/types/Property.js:46-57 | a draft built from all twelve fields of another equals it: every argument is copied into the field of the same name |
| Model.FilterKeysEnumeration | src/types/Property.js:10-19 | a filter record has exactly eight keys, all listed, with pairwise distinct names |
| Model.NewFilterRecord | src/types/Property.js:9-28 | a `PropertyFilters` keeps every supplied value unchanged, and a value left out or passed as `undefined` becomes null, so no value is ever `undefined` |
| Model.FilterEntries | src/types/Property.js:20-27 | `Object.entries` of a filter record lists all eight keys, each once under its own name with its own value, and nothing else |
| Model.DefaultFilterRecord | src/types/Property.js:10-19 | a default `PropertyFilters` has all eight values null |
| Js.NatToStringValue | src/services/propertyService.js:9-10 | the decimal digits of a natural number denote that number |
| Js.NumberToStringRoundTrip | src/services/propertyService.js:9-10 | the text of an integer, as `toString` writes it, reads back as the same integer |
| Js.NumberToStringInjective | src/services/propertyService.js:9-10 | different integers are written as different texts |
| Js.TrimStartStrips | src/components/PropertyForm.js:59-63 | trimming the start removes exactly the leading white space, leaving a suffix that starts with another character or is empty |
| Js.TrimEndStrips | src/components/PropertyForm.js:59-63 | trimming the end removes exactly the trailing white space, leaving a prefix that ends with another character or is empty |
| Js.TrimEmptyIffBlank | src/components/PropertyForm.js:59-63 | `!s.trim()` holds exactly when every character of `s` is white space |
| Js.Join | src/components/PropertyForm.js:80 | a non-empty join starts with its first part |
| Service.HandleError | src/services/propertyService.js:61-92 | with a response, the code is its status; the message is the object body's `message`, else its `detail`, else the generic text; a string body is the message verbatim; any other body gives "HTTP status: statusText"; with no response, the code is 0 and the network message; otherwise the code is 500 and the message is the error's own; the original failure is always kept |
| Service.StatusLine | src/services/propertyService.js:77-78 | a synthesised message always starts with "HTTP " and is longer than the status text |
| Service.StatusLineEndsWithText | src/services/propertyService.js:77-78 | a synthesised message ends with the status text, unchanged |
| Service.ObjectBodyKeepsGenericMessage | src/services/propertyService.js:69-74 | an object body without a truthy `message` or `detail` yields the generic message, not an HTTP status line |
| Service.HandleErrorExamples | src/services/propertyService.js:61-92 | a 404 with message "not found" gives code 404 and "not found"; a bodiless 500 gives "HTTP 500: Internal Server Error"; no response gives code 0 and the network message |
| Service.BuildListQuery | src/services/propertyService.js:7-16 | the loop builds exactly the list query: `page`, then `size`, then the sendable filter entries in order |
| Service.ListQuery | src/services/propertyService.js:7-16 | the query is `page`, then `size`, then exactly the filter parameters |
| Service.GetAllProperties | src/services/propertyService.js:5-23 | sends the list query with page 0, size 10 and no filter for omitted arguments, and returns the data or the normalised error |
| Service.FilterParamsAppend | src/services/propertyService.js:12-16 | the parameters of two runs of entries are those of the first followed by those of the second, so entry order is kept |
| Service.FilterParamsMembership | src/services/propertyService.js:12-16 | a parameter is sent exactly for an entry whose value is not null, undefined or '', under its key and as its text |
| Service.ListQueryShape | src/services/propertyService.js:9-10 | the `page` and `size` parameters read back as the given numbers |
| Service.DefaultListRequest | src/services/propertyService.js:5-10 | with every argument omitted the request is GET /properties with page=0 and size=10 only |
| Service.DefaultFilterRecordSendsNothing | src/services/propertyService.js:12-16 | a default filter record, all null, adds no parameter |
| Service.NothingSendableNoParams | src/services/propertyService.js:12-16 | entries that are all null, undefined or '' add no parameter |
| Service.GetPropertyById | src/services/propertyService.js:25-32 | GET /properties/id: the record on success, the normalised error on any failure |
| Service.CreateProperty | src/services/propertyService.js:34-41 | POST /properties with the draft: the created record on success, the normalised error on any failure |
| Service.UpdateProperty | src/services/propertyService.js:43-50 | PUT /properties/id with the draft: the updated record on success, the normalised error on any failure |
| Service.DeleteProperty | src/services/propertyService.js:52-59 | DELETE /properties/id: the response data on success, the normalised error on any failure |
| Pagination.PageRange | src/components/Pagination.js:22-24 | holds exactly the pages from start to end inclusive, in strictly increasing order, and none when end < start |
| Pagination.PageWindow | src/components/Pagination.js:13-24 | the pages shown are at most five, and every one is a valid page (0 to totalPages-1); `WindowSize`, `WindowBounds` and `WindowContainsCurrent` give the rest |
| Pagination.GeneratePageNumbers | src/components/Pagination.js:11-27 | the loop returns exactly the page window |
| Pagination.WindowSize | src/components/Pagination.js:13-24 | on a valid page the window holds exactly min(5, totalPages) pages |
| Pagination.WindowBounds | src/components/Pagination.js:15-24 | the window is increasing by one, lies within [0, totalPages-1], and is empty when there is no page |
| Pagination.WindowContainsCurrent | src/components/Pagination.js:15-20 | on a valid page the window contains the current page |
| Pagination.WindowExamples | src/components/Pagination.js:15-20 | with 20 pages: page 0 gives 0..4, page 10 gives 8..12, page 19 gives 15..19 |
| Pagination.ItemRangeOnPage | src/components/Pagination.js:30-31 | on a page with items, 1 <= startItem <= endItem <= totalElements, and the range counts min(pageSize, items left) items |
| Pagination.ItemRangePastEnd | src/components/Pagination.js:30-31 | on a page past the last item, startItem exceeds endItem |
| Pagination.StartItem | src/components/Pagination.js:30 | the first item number of a page is at least 1 |
| Pagination.EndItem | src/components/Pagination.js:31 | the last item number of a page is the page's last slot or the last item, whichever comes first; `ItemRangeOnPage` proves the range it makes with `StartItem` |
| Pagination.Buttons | src/components/Pagination.js:56-100 | first and previous are enabled together, as are next and last, and previous targets a page below next; `ButtonsStayInRange` proves the targets valid |
| Pagination.ButtonsStayInRange | src/components/Pagination.js:56-100 | first/prev are enabled exactly when currentPage > 0 and next/last exactly when a later page exists; every enabled button targets a valid page other than the current one; prev is below and next above the current page |
| FilterPanel.WithInput | src/components/PropertyFilters.js:18-24 | the named input takes the new text and every other input is unchanged |
| FilterPanel.CleanEntry | src/components/PropertyFilters.js:29-37 | one input contributes at most one entry, under its own key |
| FilterPanel.CleanFilters | src/components/PropertyFilters.js:26-39 | the applied map has at most eight entries, no key twice; `CleanFiltersMembership` says which |
| FilterPanel.HasActive | src/components/PropertyFilters.js:58 | `hasActiveFilters` holds exactly when some input differs from '' |
| FilterPanel.SomeInputNonEmpty | src/components/PropertyFilters.js:58 | checking the inputs in declaration order finds a non-empty input whenever one exists |
| FilterPanel.PropertyFilters.constructor | src/components/PropertyFilters.js:5-14 | all eight inputs start empty |
| FilterPanel.PropertyFilters.HandleInputChange | src/components/PropertyFilters.js:18-24 | only the named input changes, to the new text |
| FilterPanel.PropertyFilters.HandleApplyFilters | src/components/PropertyFilters.js:26-42 | the loop builds exactly the cleaned filter map of the current inputs |
| FilterPanel.PropertyFilters.HandleClearFilters | src/components/PropertyFilters.js:44-56 | all eight inputs become '' and afterwards no filter is active |
| FilterPanel.CleanOverMembership | src/components/PropertyFilters.js:28-39 | an entry is in the cleaned map exactly when one of the keys visited contributes it |
| FilterPanel.CleanOverKeys | src/components/PropertyFilters.js:28-39 | the cleaned map has no more entries than keys visited, only their names, each at most once |
| FilterPanel.CleanFiltersMembership | src/components/PropertyFilters.js:28-37 | a key is applied exactly when its input is non-empty; the four numeric keys need the input to parse and carry the parsed number; the others carry the text unchanged |
| FilterPanel.CleanEntryContents | src/components/PropertyFilters.js:29-37 | what a single input contributes, by the same rule |
| FilterPanel.CleanFiltersKeys | src/components/PropertyFilters.js:26-42 | the applied map uses only the eight filter names |
| FilterPanel.InactiveFiltersApplyNothing | src/components/PropertyFilters.js:28-29 | when no filter is active the applied map is empty |
| FilterPanel.EmptyInputsCleanToNothing | src/components/PropertyFilters.js:28-29 | keys whose inputs are all empty contribute nothing |
| FormController.Message | src/components/PropertyForm.js:59-70 | every violation has a non-empty message, the text the validator pushes |
| FormController.ValidateForm | src/components/PropertyForm.js:56-73 | never reports more violations than there are checks; `ValidateFormReports`, `ValidateFormAcceptsComplete` and `ValidateFormOrdered` state what it reports |
| FormController.ErrorText | src/components/PropertyForm.js:80 | the error text is empty only when there is no violation, and it starts with the first violation's message |
| FormController.ValidateFormAcceptsComplete | src/components/PropertyForm.js:56-73 | the validator returns no violation exactly when name, address, city, description and owner are not blank, the type is not empty, and the five numbers are >= 0 |
| FormController.ValidateFormReports | src/components/PropertyForm.js:56-73 | each violation is reported exactly when its check fails, with no check skipped after a failure |
| FormController.ValidateFormOrdered | src/components/PropertyForm.js:57-72 | violations come in the fixed check order, each at most once |
| FormController.ValidateFormExample | src/components/PropertyForm.js:56-73 | a draft whose only faults are a missing name and a negative price yields exactly [name required, price negative] |
| FormController.BlankNameIsMissing | src/components/PropertyForm.js:59 | a name of white space only is reported as missing |
| FormController.ViolationsMembership | src/components/PropertyForm.js:57-72 | a run of checks reports a violation exactly when that check is run and fails |
| FormController.ViolationsLength | src/components/PropertyForm.js:57-72 | a run of checks reports at most one violation per check |
| FormController.ViolationsAppend | src/components/PropertyForm.js:57-72 | checks run in sequence report the first group's violations before the second's |
| FormController.PassingChecksReportNothing | src/components/PropertyForm.js:59-70 | checks that all pass report nothing |
| FormController.ViolationsKeepOrder | src/components/PropertyForm.js:57-72 | checks run in check order report in check order |
| FormController.Rank | src/components/PropertyForm.js:59-70 | each violation's position in the validator's check order |
| FormController.AllViolationsInCheckOrder | src/components/PropertyForm.js:59-70 | the eleven checks are listed in the validator's order |
| FormController.ApplyInput | src/components/PropertyForm.js:46-54 | the named field takes `checked` for the checkbox, the parsed number or 0 for number inputs, and the raw text otherwise; every other field is unchanged |
| FormController.EditDraft | src/components/PropertyForm.js:25-38 | the draft loaded for editing is exactly the one `new PropertyInDTO` builds from the record's usable fields |
| FormController.EditDraftDefaults | src/components/PropertyForm.js:25-38 | each field of the loaded draft is the record's usable value or the default of a new draft: '' and 0 for missing ones, `active` false kept and true only when absent, HOUSE when `propertyEntity` is missing or empty; the record's `type` property is never read |
| FormController.EditDraftRoundTrip | src/components/PropertyForm.js:25-38 | loading a stored draft whose type is not empty gives the same draft back, when the record also carries the type under `propertyEntity` |
| FormController.EditDraftIgnoresTypeField | src/components/PropertyForm.js:36 | a record with its type only under `type` loads as a HOUSE |
| FormController.LoadProperty | src/components/PropertyForm.js:21-44 | after `fetchProperty` loading is false; on success the draft is the mapped record and the error is unchanged; on failure the draft is unchanged and the error is the normalised message |
| FormController.PropertyIdChanged | src/components/PropertyForm.js:11-19 | a truthy id enters edit mode and loads that property; a falsy one enters create mode with a fresh default draft; a settled form stays settled |
| FormController.Submit | src/components/PropertyForm.js:75-101 | invalid: only the error changes, to the messages joined by ", ", and nothing is saved; valid: the update request in edit mode or the create request otherwise; the saved record on success with no error, the normalised message on failure, loading false; the draft, mode and id never change |
| FormController.InvalidSubmitSendsNothing | src/components/PropertyForm.js:78-82 | an incomplete draft's submit does not depend on the backend at all, shows a non-empty error and saves nothing |
| FormController.TransitionsKeepSettled | src/components/PropertyForm.js:11-101 | input changes, submits and prop changes keep the form not loading and in edit mode exactly when its id is truthy |
| FormController.PropertyForm.constructor | src/components/PropertyForm.js:5-19 | mounting is the initial state followed by the `propertyId` effect, and leaves the form settled |
| FormController.PropertyForm.SetPropertyId | src/components/PropertyForm.js:11-19 | a new prop runs the effect; the same prop changes nothing |
| FormController.PropertyForm.FetchProperty | src/components/PropertyForm.js:21-44 | the step-by-step fetch implements `LoadProperty` |
| FormController.PropertyForm.HandleInputChange | src/components/PropertyForm.js:46-54 | only the draft changes, by the field-update rule |
| FormController.PropertyForm.HandleSubmit | src/components/PropertyForm.js:75-101 | the step-by-step submit implements `Submit`, returning the record passed to `onSave` |
| ListController.Fetch | src/components/PropertyList.js:21-41 | sends the current page, size and filters; on success the list is `content` or [] and the totals are the response's values or 0, with no error; on failure the error is set, the list emptied and the totals kept; always ends settled, with page, size and filters unchanged |
| ListController.FilterChange | src/components/PropertyList.js:54-57 | sets the filters and resets the page to 0, then fetches |
| ListController.ClearFilters | src/components/PropertyList.js:85-88 | clearing is a filter change to the empty map: it fetches page 0 with no filter parameter |
| ListController.PageChange | src/components/PropertyList.js:59-61 | sets only the page, fetching when it differs and changing nothing when it is the same |
| ListController.PageSizeChange | src/components/PropertyList.js:63-66 | sets the size and resets the page to 0, fetching when either changed |
| ListController.DeleteItem | src/components/PropertyList.js:43-52 | without confirmation nothing happens; on success it refetches the same page, size and filters with no local removal; on failure the state is untouched and the alert shows the prefixed message |
| ListController.InitialQuery | src/components/PropertyList.js:8-19 | the list starts empty with zero totals and no pagination, and its first fetch asks for page 0 of size 10 with no filter |
| ListController.TransitionsKeepSettled | src/components/PropertyList.js:21-66 | every handler leaves the list not loading, with no properties whenever an error shows |
| ListController.FetchDependsOnQueryOnly | src/components/PropertyList.js:21-41 | a fetch's result depends only on the backend's answer to the current query |
| ListController.DeleteKeepsPage | src/components/PropertyList.js:43-52 | deleting the only item on the last page leaves the list on that now-empty page, beyond the last page, with pagination hidden |
| ListController.PaginationShownWhenThereIsAChoice | src/components/PropertyList.js:115 | on a valid page the pagination control shows exactly when its window would offer more than one page |
| ListController.PropertyList.constructor | src/components/PropertyList.js:8-19 | mounting is the initial state followed by one fetch |
| ListController.PropertyList.FetchProperties | src/components/PropertyList.js:21-41 | the step-by-step fetch implements `Fetch` |
| ListController.PropertyList.HandleDelete | src/components/PropertyList.js:43-52 | implements `DeleteItem`, returning the alert text |
| ListController.PropertyList.HandleFilterChange | src/components/PropertyList.js:54-57 | implements `FilterChange` |
| ListController.PropertyList.HandlePageChange | src/components/PropertyList.js:59-61 | implements `PageChange` |
| ListController.PropertyList.HandlePageSizeChange | src/components/PropertyList.js:63-66 | implements `PageSizeChange` |
| Router.ScreenFor | src/App.js:63-107 | 'create' and 'edit' render the form, the create form with no id and the edit form with the selected id; 'detail' renders the detail view of the selected id; any other view renders the list |
| Router.InitialShowsList | src/App.js:10-11 | the app starts in a valid state, on the list, with no selection |
| Router.CreateNew | src/App.js:13-16 | create-new shows the empty form and leaves the state valid |
| Router.Edit | src/App.js:18-21 | edit shows the form of the given id |
| Router.View | src/App.js:23-26 | view shows the detail of the given id |
| Router.BackToList | src/App.js:28-42 | save, cancel and back show the list with the selection cleared |
| Router.NavList | src/App.js:49 | the list button shows the list, keeps the selection and keeps the state valid |
| Router.FormModeFollowsView | src/App.js:73-88 | editing a non-empty id mounts the form in edit mode, loading that id; creating mounts it in create mode on a default draft with no error |
| Router.App.constructor | src/App.js:10-11 | the initial view is 'list' with no selected id |
| Router.App.HandleCreateNew | src/App.js:13-16 | the view becomes 'create' and the id null |
| Router.App.HandleEdit | src/App.js:18-21 | the view becomes 'edit' with the given id |
| Router.App.HandleView | src/App.js:23-26 | the view becomes 'detail' with the given id |
| Router.App.HandleSave | src/App.js:28-32 | back to 'list' with no id |
| Router.App.HandleCancel | src/App.js:34-37 | back to 'list' with no id |
| Router.App.HandleBackToList | src/App.js:39-42 | back to 'list' with no id |
| Router.App.HandleNavList | src/App.js:49 | the view becomes 'list' and the selected id is kept |
| Router.App.RenderCurrentView | src/App.js:63-107 | the rendered screen is the one `ScreenFor` gives for the current state |

## Left out

- `src/services/api.js` is not part of this model. It holds the axios instance, its interceptors and console logging. Every HTTP call is the parameter `send` instead.
- `src/config/environment.js` is not part of this model. It reads the process environment and logs to the console.
- Display components are not part of this model: `PropertyDetail`, `PropertyCard`, `Layout` and `ConfigStatus`. They are markup. Their price formatting uses `Intl.NumberFormat`, which is a foreign call.
- Rendered text and markup are left out: the item count line, the loading screens, the expand/collapse toggle of the filter panel, and the CSS classes of the buttons. While the list loads it renders only its loading message, so the filter panel is unmounted and its inputs start empty again. The model does not capture that.
- Asynchrony is left out. Each fetch, load, submit and delete is one atomic request and response, so responses that overlap or arrive out of order are not modelled. The code has no guard against them either.
- Floating point is left out. Numbers are integers, and `parseFloat` and `parseInt` are an abstract parse that gives a number or NaN. NaN is never stored, because `|| 0` and `isNaN` replace it. Fractional prices and areas are not modelled.
- URL escaping by `URLSearchParams` is left out. The query is an ordered list of key/value pairs.
- `window.confirm` is a boolean input. `alert` is the text `HandleDelete` returns.
- The `console.log` in `handleSave` is left out.
- `FormController.ValidateFormExample`: stated for every draft whose only failed checks are the name and the price, instead of one concrete draft with its joined error text. Comparing long concrete strings is too costly for the solver.
- Service.HandleError: a `message` or `detail` that is not a string, and a status text that is not a string, are not modelled. The body is missing, a string, an object with optional string `message` and `detail`, or some other scalar.
- Model.NewDraft: a `null` argument is not modelled. `new PropertyInDTO({address: null})` keeps null, because a destructuring default applies only to `undefined`. Here an argument is either supplied with a value of its field's type or left out.
- FormController.EditDraftRoundTrip: holds for a record that carries its type under `propertyEntity` as well as `type`. The record the display components read carries it under `type`; whether the backend also fills `propertyEntity` is not part of this model. Without it, `EditDraftIgnoresTypeField` applies.
- The JSON shape of a server record is typed: each field is absent or of its expected type. A server value of the wrong type is not modelled.
