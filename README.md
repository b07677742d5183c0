# Order dashboard: list state, order payloads and table rules

A model, in Dafny, of the logic behind a paginated CRUD dashboard for a
small shop's orders.

- **List state** (module `UseList`). The `useList` hook keeps pagination,
  sorting and filters. It reads them from the page's search parameters,
  hands them to the caller's fetch function and writes them back to the
  address bar after each successful fetch. It also keeps the loading flag,
  the error message, the rows and the total. The hook is the class
  `UseList.ListController`, whose fields its methods update. Search
  parameters are ordered name/value pairs (module `SearchParams`).
- **Order service** (module `OrderService`). This covers:
  - the paginated order list, with its default parameters, its fallback
    endpoints and its response normalisation;
  - the order and detail payloads that `create` and `update` send;
  - the per-line choice between put, post and skip.

  Each operation is a method. It returns the calls it made, in order, with
  its result, and it is proved equal to a specification function
  (`PaginatedSpec`, `CreateSpec`, `UpdateSpec`) whose properties are lemmas.
- **Zone service** (module `ZoneService`): the zone list request and how
  its response is normalised.
- **HTTP wrapper** (module `ApiWrapper`):
  - request headers and endpoints;
  - how axios settles (a 2xx status resolves);
  - how `handleError` classifies a failure.
- **Order types** (module `OrderTypes`): the status, payment-method and
  customer-type tables.
- **Filter chips** (module `FilterToolbar`): the `activeFilters` reduction
  and the filter modal flag (`FilterToolbar.FilterPanel`). `TableToolbar`
  and `TableFilters` contain the same code, so one module models both.
- **Pager buttons** (module `Pagination`): the last page, each button's
  target page, whether it is disabled, and its icon.
- **Table** (module `Table`): the three ways of rendering rows, the cell
  fallback, the header click and the sort label, the footer, and the
  conversion between 0-based and 1-based pages.
- **Modal and toast** (modules `AppContext` and `GlobalModal`). The modal
  and toast are a state machine (`AppContext.Step` on a `State`). The class
  `AppContext.AppProvider` performs its steps. The dialog offers different
  buttons for different modal types.

JavaScript values are `JsValues.Value`: undefined, null, booleans, integer
numbers, NaN, strings, arrays and objects. That module also defines
truthiness, `||`, `Number`, `parseInt`, `String` and `trim`.

The rest of the app is outside the model: the remote API, the session and
the router. A server is a function from a call to its settled result. The
outcome of a list fetch is an input value.

A list fetch aborts the previous request through its `AbortController`.
An `Aborted` outcome (`UseList.Outcome`) leaves rows, total, error and
address as they were; loading still ends.

## Model

| member | source | states |
|---|---|---|
| UseList.ListController.constructor | hooks/useList.tsx:19-37 | Before initialisation: not loading, no error, no rows, total 0. Page, page size and sorting are the given defaults, and filters are empty. |
| UseList.NewWithDefaults | hooks/useList.tsx:19-37 | A list created without `defaultSorting` or `defaultPagination` starts on page 1 with 10 rows per page, sorted by `name` ascending, with no filters, no rows, total 0, not loading and no error. |
| UseList.ListController.Initialize | hooks/useList.tsx:40-58 | `page` and `perPage` are `parseInt` of the parameter, falling back to the default. `sortBy` and `sortType` are the parameter, falling back to the default. Filters are every non-reserved parameter. `total`, rows, loading and error are not touched. |
| UseList.ReadQuery | hooks/useList.tsx:41-53 | Page and page size are `parseInt` of the parameter or of the default, and so always numbers. Sorting is the parameter or the default. The filters are those the parameter loop collects and form a valid filters object. |
| UseList.ReadFilters | hooks/useList.tsx:48-53 | The loop over the search parameters collects exactly the filters `FiltersFrom` describes: every non-reserved pair, set in order. |
| UseList.ListController.ApplyQuery | hooks/useList.tsx:55-57 | The three setters leave page, page size, sorting and filters holding exactly the values read. |
| UseList.GetOr | hooks/useList.tsx:43-46 | `params.get(k)` or else the fallback: a present, non-empty parameter is returned as it is; an absent or empty one gives the fallback. A result other than the fallback is never empty. |
| UseList.InitialiseFallsBack | hooks/useList.tsx:43-46 | An absent or empty `page`, `perPage` or `sortBy` reads as the default, because `parseInt(String(n))` is `n`. A non-empty `page` is parsed as written. |
| UseList.FiltersFromValid | hooks/useList.tsx:48-53 | The filters read from the parameters contain no reserved name and no repeated name. Their names are exactly the parameter names minus the four reserved ones. Each filter holds the value of the last pair with that name, which is what repeated assignment in `forEach` leaves. |
| UseList.ListController.StartFetch | hooks/useList.tsx:61-73 | Loading is raised and the error cleared. The request carries the current page, page size, sorting and filters. |
| UseList.ListController.FinishFetch | hooks/useList.tsx:74-99 | A success sets rows and total, writes `QueryFor(request)` and replaces the address only when it differs. An abort changes nothing. A rejection with null or undefined also leaves rows, total, error and address as they were, since reading its `name` throws before the error is set. Any other failure sets the fixed error and keeps rows and total. Loading is false afterwards. Pagination, sorting and filters are never touched. |
| UseList.ListController.Fetch | hooks/useList.tsx:61-100 | A whole fetch with a given outcome: the request it made and the state it leaves, as for `StartFetch` followed by `FinishFetch`. |
| UseList.ListController.HandleSearching | hooks/useList.tsx:120-123 | `filters.search` becomes the value, every other filter is kept, and the page becomes 1. Page size and sorting are not touched, and the filters stay free of reserved and repeated names. |
| UseList.BaseQueryShape | hooks/useList.tsx:79-83 | Serialisation starts with exactly the pairs `page`, `perPage`, `sortBy`, `sortType`, in that order, holding `String` of each. |
| UseList.QueryForContents | hooks/useList.tsx:79-87 | The written parameters are the four base pairs followed by the filters whose value is not empty. Each name reads back its value, and no name repeats. |
| UseList.NonEmptyValid | hooks/useList.tsx:85-87 | Dropping empty filters keeps a valid filter set, and each filter reads back as its value exactly when that value is non-empty. |
| UseList.UrlRoundTrip | hooks/useList.tsx:40-91 | For a numeric page and page size and non-empty sorting, reading back what a successful fetch wrote gives the same page, page size and sorting, and the same filters minus the empty ones. |
| UseList.FiltersRoundTrip | hooks/useList.tsx:48-53 | The filters read back from a written address are its non-empty filters, in order. |
| UseList.NonEmptyIdentity | hooks/useList.tsx:85-87 | When no filter is empty, none is dropped. |
| SearchParams.Get | hooks/useList.tsx:43-46 | `params.get(k)` is null exactly when no pair has the name. Otherwise it is the value of the first such pair. |
| SearchParams.SetSpec | hooks/useList.tsx:79-87 | After `set(k, v)`, `get(k)` is `v`, every other name reads as before, the names are the old ones plus `k`, and no name repeats that did not before. |
| SearchParams.SetAbsent | hooks/useList.tsx:85-87 | Setting a name that does not occur appends the pair at the end. |
| SearchParams.SetPresent | hooks/useList.tsx:121 | On a list with no repeated names, setting a name that occurs replaces its value in place and changes nothing else. |
| SearchParams.RemoveSpec | hooks/useList.tsx:79-87 | Dropping a name removes exactly that name and keeps the other values. |
| SearchParams.GetConcat | hooks/useList.tsx:79-87 | `get` on two lists joined reads the first list when the name occurs there, and the second otherwise. |
| OrderService.FormatParams | utils/api/services/orderService.ts:17-27 | The parameters sent are the eight defaults plus the caller's keys. |
| OrderService.FormatParamsOverrides | utils/api/services/orderService.ts:17-27 | The parameters are the blank defaults overridden key by key by the caller's. `page` is blank exactly when the caller gives none or gives a blank one. |
| OrderService.Accept | utils/api/services/orderService.ts:56-70 | A fallback answer is taken when it is a bare array (presented as one page of that length) or has a non-empty `data` array (taken as is). Anything else, including a failure, is not taken. |
| OrderService.ProbeSpec | utils/api/services/orderService.ts:44-76 | The fallbacks are asked in order and the probe stops at the first accepted answer. When no answer is accepted, every fallback is asked. |
| OrderService.ProbeAlternatives | utils/api/services/orderService.ts:37-76 | The loop over the fallback endpoints makes exactly the calls of the probe and yields its answer. |
| OrderService.Normalise | utils/api/services/orderService.ts:80-94 | The normalised page keeps every property of the response and its `data`. A falsy `total`, `current_page`, `per_page`, `last_page`, `from` and `to` becomes 0, 1, 10, 1, 0 and 0. |
| OrderService.EmptyPageIsNormalisedEmpty | utils/api/services/orderService.ts:97-108 | The page returned on any failure is what normalising `{data: []}` gives. |
| OrderService.Paginated | utils/api/services/orderService.ts:13-110 | The method makes exactly the calls of `PaginatedSpec` and returns its page. |
| OrderService.Settle | utils/api/services/orderService.ts:34-95 | After a usable first response, the method makes exactly the fallback calls of `SettleSpec` and returns its page. |
| OrderService.SettleShape | utils/api/services/orderService.ts:34-95 | After a usable first response, only fallback endpoints are called, in order, and only when no page was asked for. A non-empty `data` array is normalised with no further call. |
| OrderService.PaginatedShape | utils/api/services/orderService.ts:29-109 | It asks `/orders` first, and tries fallbacks only when no page was asked for. Failure, or a null or undefined answer, gives the empty page. A non-empty `data` array is normalised without asking anything else. |
| OrderService.Coerce | utils/api/services/orderService.ts:150-153 | `Number` of the value or 0 is a number: 0 for a falsy value, the number itself for a number, and the parsed string for a string. |
| OrderService.Amounts | utils/api/services/orderService.ts:209-214 | The totals update carries the four amounts, each coerced. |
| OrderService.CreateHeaderSpec | utils/api/services/orderService.ts:148-169 | The header `create` posts has no `details`. Its four amounts are numbers, 0 when falsy, and its payment method is `'ef'` when falsy. Its print status is copied, and everything else the caller gave is kept. |
| OrderService.PrintStatus | utils/api/services/orderService.ts:246-250 | An explicit print status wins. Otherwise the result is a code from 0 to 3. |
| OrderService.PrintStatusOfStatus | utils/api/services/orderService.ts:246-250 | With no explicit print status, pending, processing, completed and cancelled give 0, 1, 2 and 3, and any other status gives 0. |
| OrderService.PrintCodeInjective | utils/api/services/orderService.ts:247-250 | Different statuses give different codes. |
| OrderService.UpdatePaymentMethod | utils/api/services/orderService.ts:255 | `update`'s payment method is `'ef'` or the given value. A truthy payment method that is not a string has no `trim`, so reading it throws a TypeError. |
| OrderService.UpdatePaymentMethodOfString | utils/api/services/orderService.ts:255 | A string payment method becomes `'ef'` exactly when it is all white space, and is otherwise kept untrimmed. |
| OrderService.BlankPaymentMethodDiffers | utils/api/services/orderService.ts:155 | `create` keeps a blank payment method `" "`, while `update` replaces it by `'ef'`. |
| OrderService.UpdateHeader | utils/api/services/orderService.ts:255-281 | The header `update` puts fails exactly when the payment method cannot be read. |
| OrderService.UpdateHeaderSpec | utils/api/services/orderService.ts:259-281 | The header `update` puts has no `details` and numeric amounts. It has the checked payment method, a `status` defaulting to `pending`, the computed print status, and every other field as given. |
| OrderService.DetailItems | utils/api/services/orderService.ts:160-166 | Missing details give no lines. An array gives its elements. Anything else, or a null element, throws a TypeError. |
| OrderService.CoerceLine | utils/api/services/orderService.ts:160-166 | A line keeps its properties and has its quantity, prices and discount coerced to numbers. |
| OrderService.CreateLines | utils/api/services/orderService.ts:160-166 | `create` keeps every line, in order, coerced. |
| OrderService.UpdateLinesKeep | utils/api/services/orderService.ts:271-278 | `update`'s lines (`UpdateLines`) keep, in order, exactly the items whose `id_product` is neither null nor undefined, each as its coerced line. There are never more lines than items, and every kept line still carries a product that is neither null nor undefined. |
| OrderService.DetailBody | utils/api/services/orderService.ts:188-195 | A detail payload has exactly six fields: the order's id, the line's product, quantity and prices, and a discount that is 0 when falsy. |
| OrderService.DetailDiscountIsNumber | utils/api/services/orderService.ts:165 | Once a line is coerced, its detail discount is always a number. |
| OrderService.CreateDetailCalls | utils/api/services/orderService.ts:186-205 | `create` posts one detail per line, in line order. |
| OrderService.CreateDetailCallsSpec | utils/api/services/orderService.ts:188-198 | Every detail `create` posts goes to `/details` with the new order's id and a numeric discount. |
| OrderService.PostDetails | utils/api/services/orderService.ts:183-205 | The loop makes exactly those calls and collects, in order, the bodies of the ones that succeeded. |
| OrderService.UpdateAction | utils/api/services/orderService.ts:298-339 | A line with a truthy id is put to `/details/{id}`. A line with no id and a truthy product is posted. Any other line is skipped. |
| OrderService.UpdateDetailCallsSpec | utils/api/services/orderService.ts:298-344 | Every call `update` makes for a line carries the order's id and is a put to that line's URL or a post to `/details`. No line makes more than one call. |
| OrderService.UpdateAllExisting | utils/api/services/orderService.ts:301-315 | When every line has an id, every line is put, in order. |
| OrderService.SendDetailUpdates | utils/api/services/orderService.ts:295-344 | The loop makes exactly the calls the per-line rule chooses and collects the bodies of the ones that succeeded. |
| OrderService.AttachDetails | utils/api/services/orderService.ts:223 | `response.details = ...`: an object gains the property, an array is unchanged, and any other value throws a TypeError. |
| OrderService.Create | utils/api/services/orderService.ts:141-231 | The method makes exactly the calls of `CreateSpec` and settles as it does. |
| OrderService.CreateShape | utils/api/services/orderService.ts:173-226 | Unreadable details make no call and throw. Otherwise the order is posted first. When there are lines and an id came back, one post per line follows, then a put of the totals. |
| OrderService.Update | utils/api/services/orderService.ts:239-355 | The method makes exactly the calls of `UpdateSpec` and settles as it does. |
| OrderService.SendUpdate | utils/api/services/orderService.ts:285-350 | Once the order and lines are prepared, the method puts the order and then makes exactly the line calls of `SendUpdateSpec`. |
| OrderService.UpdateShape | utils/api/services/orderService.ts:285-350 | An unreadable payment method or unreadable details make no call and throw. Otherwise the order is put first, followed by the line calls. |
| ZoneService.ZoneParams | utils/api/services/zoneService.ts:26-29 | The parameters are `{perPage: 1000}` overridden by the caller's. |
| ZoneService.Zones | utils/api/services/zoneService.ts:31-41 | The zones are the `data` array, else the body when it is an array, else none. A failure gives none. |
| ZoneService.GetAll | utils/api/services/zoneService.ts:24-42 | It makes one get to `/zones` and always yields a list of zones. |
| ApiWrapper.AuthHeaders | utils/api/apiWrapper.ts:14-22 | JSON content type always. A bearer header exactly when the session has a non-empty token. No other header. |
| ApiWrapper.MergeHeaders | utils/api/apiWrapper.ts:34 | The caller's headers win on a clash, and the auth headers fill the rest. |
| ApiWrapper.RequestHeadersSpec | utils/api/apiWrapper.ts:31-34 | Unless the caller overrides them, a request declares JSON and carries the bearer token exactly when there is one. |
| ApiWrapper.Endpoint | utils/api/apiWrapper.ts:86 | An endpoint always starts with the API root and the URL. |
| ApiWrapper.EndpointSpec | utils/api/apiWrapper.ts:86 | A non-empty id follows a slash, no id or an empty id gives the bare URL, and different ids give different endpoints. |
| ApiWrapper.Settle | utils/api/apiWrapper.ts:44-47 | A call resolves exactly for a 2xx status, with the body. Otherwise it throws what `handleError` throws. |
| ApiWrapper.HandleError | utils/api/apiWrapper.ts:128-150 | 422 exactly gives the body as validation errors. Only 401 signs out. Other statuses with a body that is not null or undefined give an `Error` with the body's message or else the status text; with a null or undefined body, reading `message` throws a `TypeError`. No response, or a failure before sending, gives the fixed messages. |
| OrderTypes.ParseStatus | types/orders/index.ts:62-67 | A name is a status exactly when it has a label. |
| OrderTypes.StatusNameRoundTrip | types/orders/index.ts:62-67 | Status names and statuses correspond one to one. |
| OrderTypes.StatusTablesCover | types/orders/index.ts:62-77 | Labels and colours exist for exactly pending, processing, completed and cancelled. |
| OrderTypes.StatusColorsSpec | types/orders/index.ts:72-77 | Pending is warning, processing is info, completed is success and cancelled is error, and no two statuses share a colour. |
| OrderTypes.PaymentMethodsLabelled | types/orders/index.ts:53-57 | The labelled methods are `ef`, `trans` and `mp`, and the default `ef` has a label. |
| OrderTypes.ParseCustomerType | types/orders/index.ts:33 | A customer type code is `p` or `m`. |
| OrderTypes.CustomerTypeRoundTrip | types/orders/index.ts:33 | Each customer type has its own code, which reads back as it. |
| FilterToolbar.FindItem | components/table/TableToolbar/TableToolbar.tsx:81 | The first catalogue item with the name, or none when no item has it. |
| FilterToolbar.FindOption | components/table/TableToolbar/TableToolbar.tsx:82 | The first option whose id equals `Number(value)`, or none. |
| FilterToolbar.ChipFor | components/table/TableToolbar/TableToolbar.tsx:79-90 | An entry gives a chip exactly when its value is truthy, an item has its name, and that item has an option with that id. The chip carries the key, the item's label and the option's name. |
| FilterToolbar.ActiveFilters | components/table/TableToolbar/TableToolbar.tsx:75-93 | No chips without a catalogue or without filters. |
| FilterToolbar.CollectChips | components/table/TableFilters/index.tsx:63-81 | The `reduce`, pushing into an accumulator, yields exactly the active filters. |
| FilterToolbar.ChipsFollowEntries | components/table/TableToolbar/TableToolbar.tsx:78-92 | Each chip comes from one entry and carries its key. Chips keep entry order, no entry gives two, there are never more chips than entries, and every entry that qualifies gives one. |
| FilterToolbar.ChipKeysDistinct | components/table/TableFilters/index.tsx:66-80 | Distinct entry keys give distinct chip keys. |
| FilterToolbar.FalsyValueNoChip | components/table/TableFilters/index.tsx:67 | A falsy value never gives a chip. |
| FilterToolbar.ChipDelete | components/table/TableToolbar/TableToolbar.tsx:33 | Deleting a chip passes its key to `onFilterRemove` when there is one. |
| FilterToolbar.ChipText | components/table/TableToolbar/TableToolbar.tsx:32 | The chip's text is the item's label, then `: `, then the option's name. |
| FilterToolbar.FilterButtonDisabled | components/table/TableToolbar/TableToolbar.tsx:123 | The filter button is disabled exactly when `filters` is undefined. |
| FilterToolbar.FilterModalMounted | components/table/TableFilters/index.tsx:128 | The modal is mounted exactly when `filters` is defined. |
| FilterToolbar.ButtonMatchesModal | components/table/TableToolbar/TableToolbar.tsx:123-140 | The button is enabled exactly when the modal is mounted. |
| FilterToolbar.FilterPanel.constructor | components/table/TableToolbar/TableToolbar.tsx:64 | The modal starts closed. |
| FilterToolbar.FilterPanel.Toggle | components/table/TableFilters/index.tsx:54-56 | The toggle flips the modal flag. |
| FilterToolbar.FilterPanel.HandleFilter | components/table/TableToolbar/TableToolbar.tsx:70-73 | The data goes to `onFilter` when there is one, and the modal ends closed. |
| Pagination.CeilDiv | components/table/TablePaginationActions.tsx:30 | `Math.ceil(a / b)` is the least integer `r` with `a <= b * r`. |
| Pagination.LastPage | components/table/TablePaginationActions.tsx:30 | The last page index `r` has `rows * r < count <= rows * (r + 1)`. |
| Pagination.LastPageSpec | components/table/TablePaginationActions.tsx:30 | No rows gives -1. Otherwise the result is `(count - 1) / rows` and is never negative. |
| Pagination.View | components/table/TablePaginationActions.tsx:32-97 | Each button's target is 0, page - 1, page + 1 or the last page. First and previous are disabled on page 0, and next and last from the last page on. |
| Pagination.EnabledTargetsInRange | components/table/TablePaginationActions.tsx:32-97 | On a page in range, an enabled button asks for a page in range. Forward buttons move forward and backward buttons move back. |
| Pagination.EnabledNextBounded | components/table/TablePaginationActions.tsx:40-86 | An enabled next button never goes past the last page. |
| Pagination.SinglePageDisablesForward | components/table/TablePaginationActions.tsx:30-93 | When all rows fit on one page, next and last are disabled on page 0. |
| Pagination.DirectionOnlySwapsIcons | components/table/TablePaginationActions.tsx:58-97 | The direction changes only icons, never a target or a disabled state. In right-to-left, each button shows its mirror's icon. |
| Pagination.IconMirror | components/table/TablePaginationActions.tsx:58-97 | Right-to-left icons are the mirrored buttons' icons, mirroring twice is the identity, and mirrored buttons look different. |
| Table.RenderRows | components/table/Table.tsx:70-103 | While loading, five placeholder rows of one cell per column, whatever the data. With no data, one notice row spanning every column. Otherwise one row per item. |
| Table.CellsFollowColumns | components/table/Table.tsx:87-101 | Item rows have one cell per column, in column order, aligned right for numeric columns. A cell shows the value when it is truthy and `-` otherwise, including for 0 and `''`. |
| Table.RowsSpanColumns | components/table/Table.tsx:70-103 | Every row has one cell per column or is the notice spanning them all. |
| Table.HeaderClick | components/table/Table.tsx:141 | A header click asks to sort by the column's property, and only sortable columns react. |
| Table.Header | components/table/Table.tsx:138-157 | A sortable column gets a sort label. It is active exactly when it is the sort column, and points ascending exactly when the sort type is `asc`, with a hint naming the other way. |
| Table.RowsPerPageChange | components/table/Table.tsx:66-68 | The chosen size is `parseInt` of the value, and the page becomes 1. |
| Table.RowsPerPageOptionsParse | components/table/Table.tsx:66-68 | Each offered size asks for exactly that many rows. |
| Table.FooterFor | components/table/Table.tsx:165-197 | The footer exists exactly when there are items. Its summary counts the items, while the pager gets `total`, `page - 1` and the page size. |
| Table.SummaryCountsItems | components/table/Table.tsx:188 | The summary ignores `total`, and different item counts give different summaries. |
| Table.PagerPage | components/table/Table.tsx:194 | The pager is given a 0-based index: the 1-based page 1 or later maps to an index of 0 or more, and only those do. |
| Table.ChangePage | components/table/Table.tsx:62-64 | A page change from the pager asks the list for a 1-based page: a non-negative index maps to page 1 or later, and only those do. |
| Table.PageRoundTrip | components/table/Table.tsx:62-64 | Converting a page to the pager's index and back, or an index to a page and back, gives the value started from. |
| Table.LoadingIgnoresData | components/table/Table.tsx:71-75 | While loading, the rendered rows are the same whatever the data. |
| AppContext.Step | context/AppContext.tsx:40-71 | Opening stores exactly what it is given. Closing restores the initial modal and drops the callback. A toast shows with severity `success` unless told otherwise. A click-away changes nothing, and any other close hides the toast and keeps its text and colour. Modal steps never touch the toast, and toast steps never touch the modal. |
| AppContext.AppProvider.constructor | context/AppContext.tsx:26-38 | The modal starts closed, of type info, with no text. The toast starts closed, with no text and severity success. |
| AppContext.AppProvider.OpenModal | context/AppContext.tsx:40-47 | Performs the open step, on the modal only. |
| AppContext.AppProvider.CloseModal | context/AppContext.tsx:49-56 | Performs the close step, on the modal only. |
| AppContext.AppProvider.ShowToast | context/AppContext.tsx:58-64 | Performs the show step, on the toast only. |
| AppContext.AppProvider.HandleCloseToast | context/AppContext.tsx:66-71 | Performs the close-request step, on the toast only. |
| AppContext.UseAppContext | context/AppContext.tsx:11-17 | Outside a provider it fails with the fixed message. Inside one it returns the provider. |
| AppContext.CloseModalIdempotent | context/AppContext.tsx:49-56 | Closing twice is closing once. |
| AppContext.OpenThenCloseForgets | context/AppContext.tsx:40-56 | Opening and then closing leaves the modal as closing alone does, forgetting the callback. |
| AppContext.CloseToastIdempotent | context/AppContext.tsx:66-71 | Repeating a close request changes nothing more, close requests commute, and a hidden toast stays as it is. |
| AppContext.ToastIgnoresModalEvents | context/AppContext.tsx:40-71 | After any sequence of operations, the toast is what its toast operations alone make it. |
| AppContext.ModalIgnoresToastEvents | context/AppContext.tsx:40-71 | After any sequence of operations, the modal is what its modal operations alone make it. |
| GlobalModal.Buttons | components/shared/GlobalModal.tsx:28-52 | A confirmation offers Cancelar, which closes, and Confirmar, which confirms. Every other type offers one Cerrar button, which closes. |
| GlobalModal.Perform | components/shared/GlobalModal.tsx:10-18 | Both actions leave the modal closed. Only confirming runs the callback, and only when there is one. |
| GlobalModal.Click | components/shared/GlobalModal.tsx:10-47 | The provider's state and the callback that ran are as `Perform` says. |
| GlobalModal.ButtonsClose | components/shared/GlobalModal.tsx:28-52 | Every offered button closes the modal. A callback runs only from Confirmar on a confirmation that has one. |
| GlobalModal.ConfirmRunsOnce | components/shared/GlobalModal.tsx:10-13 | Confirming runs the stored callback once. A second confirmation runs nothing, and the dialog is then closed. |
| GlobalModal.DialogFollowsEvents | components/shared/GlobalModal.tsx:16-18 | The dialog is open after `openModal` and closed after `closeModal`. Toast operations leave it open or closed as it was. |
| JsValues.ParseInt | hooks/useList.tsx:43-44 | `parseInt` always gives a number or NaN. |
| JsValues.ParseIntOfIntToString | hooks/useList.tsx:43-44 | `parseInt(String(n), 10)` is `n`. |
| JsValues.NumberOfIntToString | components/table/TableToolbar/TableToolbar.tsx:82 | `Number(String(n))` is `n`. |
| JsValues.ToNumber | components/table/TableToolbar/TableToolbar.tsx:82 | `Number(v)` is a number or NaN. |
| JsValues.TrimEmptyIffAllSpace | utils/api/services/orderService.ts:255 | `s.trim()` is empty exactly when `s` is all white space. |
| Seqs.FilterMapSelects | utils/api/services/orderService.ts:271-278 | A filter-then-map keeps exactly the accepted elements, in order, and is never longer than its input. |
| Seqs.FilterMapConcat | components/table/TableToolbar/TableToolbar.tsx:78-92 | Filtering two sequences joined is joining their filterings, which is why the pushing `reduce` computes it. |

## Left out

- Networking, the session and the router are not modelled as such:
  - axios I/O is a server function, and each answer is total and depends
    only on the call;
  - `getSession` is a token passed in;
  - `signOut` and its redirect are a flag returned by `HandleError`;
  - `router.replace` writes the controller's `location` field.
- List fetching and its timing: the 300 ms debounce, the
  `AbortController`, the effect cleanup and any interleaving of
  overlapping fetches. A fetch is one already-settled outcome.
- React re-render semantics: when effects run again, batching of state
  updates, and memoisation. `Initialize` is an operation that may run any
  number of times.
- `UseList.ListController.Initialize`: not modelled is the hook's
  `setFilters`/`setPagination`/`setSorting`, exposed to callers with
  arbitrary values. Filters hold string values only.
- `UseList.ListController.FinishFetch`: when reading `err.name` of a null
  or undefined rejection throws, `doFetch` itself rejects; what the effect
  does with that rejected promise is not modelled.
- `UseList.ListController.FinishFetch`: "parameters differ" compares pair
  lists, while the source compares their serialised strings. These agree
  for any two lists, because form encoding is injective.
- JavaScript numbers are integers plus NaN:
  - floating point, decimal and exponent forms of `Number`, `Infinity`,
    `-0` and hexadecimal literals are not represented;
  - `Number` of an array or an object is NaN, although JavaScript reads an
    empty or one-element array as a number.
- `Pagination.LastPage`: requires a positive page size. A page size of 0
  makes `Math.ceil` return Infinity or NaN, which the integer model cannot
  express.
- Object property order is not modelled: objects are maps, and the
  filters object is a list of pairs in assignment order.
- `UseList.ListController.FinishFetch`: JavaScript lists an object's
  integer-like keys first, in ascending order, then the others in
  assignment order (useList.tsx:48-53 and 84-86). The model writes the
  filters in assignment order instead. From `?…&z=a&5=b` the source
  writes `…&5=b&z=a`, finds it different and calls `router.replace`,
  while the model writes the same string back and does not.
- `UseList.FiltersFrom`: assigning a string to `__proto__` on a plain
  object (useList.tsx:51) creates no property, so a `__proto__` parameter
  gives no filter in the source; the model keeps it as a filter.
- `JSON.stringify` dropping undefined properties is not modelled:
  payloads keep them as undefined.
- Spreading a string or an array (`{...v}` in `JsValues.Spread`) copies
  no index keys; the spread lines are only read at named keys.
- Named properties on arrays: setting `details` on an array response
  leaves the array as it is.
- The order form's total computation (order-form.tsx:84-101) is outside
  the model; `orderService` only coerces the totals it receives
  (orderService.ts:150-153).
- `OrderService.get` and `delete` are thin pass-throughs of the wrapper,
  and all `console` logging is left out.
- What a confirmation callback does is not modelled: it is an identity
  that `GlobalModal.Click` reports as run. The same goes for the effects
  of `onFilter`, `onFilterRemove`, `headerCellClicked` and the page-change
  callbacks.
- The toast's 2500 ms auto-hide timer is a constant. When it fires it
  arrives as a close request with no reason.
- Layout, styling, icons other than the pager's, tooltips other than the
  sort hint, and responsive labels.
