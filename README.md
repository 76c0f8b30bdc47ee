# tefasUi fund views in Dafny

A model of the two screens of the tefasUi web front end, the React client of
a service that publishes Turkish investment-fund returns.

- **All funds** (`src/components/AllFunds.js`). Each fund's `returns` list is
  folded into a `returnsData` object. The column headers come from the first
  fund, with "Günlük Getiri" (daily return) moved to the front. A column
  sort is held in the `key` / `direction` query parameters. A click cycles
  it through ascending, descending and cleared. The comparator orders
  strings by a collation and everything else by JavaScript's `<` / `>`. The
  table is exported as a semicolon-delimited text with a byte-order mark.
  Value cells are coloured by sign.
- **Fund search** (`src/components/FundSearch.js`). A view object holds the
  search fields, the loaded history, the error text and the edit-modal
  state. Its handlers are modelled as methods: the history request and its
  outcomes, the URL-sync effect, the search navigation, the edit session,
  and the `PUT` of the edited returns followed by a refetch. The date is
  displayed as `DD.MM.YYYY`.

Modules:

- `JsValues` (`js_values.dfy`): JavaScript values, truthiness, `||` on
  strings, and `<` / `>` with numeric coercion. `null` becomes 0, and
  `undefined` and NaN compare false.
- `Text` (`text.dfy`): `split` / `join`, `replace` of the first occurrence,
  `indexOf`, and query strings with their parser. It proves that joining
  and then splitting gives back the pieces.
- `FundTable` (`fund_table.dfy`): entries, funds, `Object.keys` insertion
  order, the `returnsData` fold, the return headers and the cell colour.
- `FundSort` (`fund_sort.dfy`): the sort state, its click cycle, the sort
  value, the comparator, and an in-place insertion sort on an array copy.
- `FundExport` (`fund_export.dfy`): the export text, its lines and cells.
- `FundSearch` (`fund_search.dfy`): the request targets, the fetch
  outcome, the update error text, return edits, date formatting, and the
  `FundSearchView` class.

Network responses, the collation, `toFixed(2)` and `parseFloat` are inputs
of the model:

- A `FetchResponse` or `PutResponse` parameter stands for the network reply.
- A `Collator` parameter stands for `localeCompare`. It is any three-way
  comparison where `a` sorts before `b` exactly when `b` sorts after `a`.
- `fmt: real -> string` stands for `toFixed(2)`.
- A `Parsed` argument (a number or NaN) stands for the result of `parseFloat`.

Requests and navigations the view makes are appended to its `requests` and
`navigations` logs.

## Model

| member | source | states |
|---|---|---|
| FundTable.NormaliseReturns | src/components/AllFunds.js:21-24 | The loop of property assignments builds the object of the fold. The object is well formed, its keys are exactly the entries' descriptions, and each description maps to the value of its last entry. |
| FundTable.ReturnsObjectKeys | src/components/AllFunds.js:21-24 | The `returnsData` object lists each description once. Its keys are exactly the descriptions, in the order of their first occurrence among the entries. |
| FundTable.ReturnsObjectLastWins | src/components/AllFunds.js:21-24 | When a description occurs several times, the object holds the value of its last entry. |
| FundTable.NormaliseFund | src/components/AllFunds.js:26-29 | A row keeps the fund unchanged and adds the `returnsData` object built from its entries. |
| FundTable.ProcessFunds | src/components/AllFunds.js:20-30 | Each fund becomes one row, in API order. |
| FundTable.ReturnsObject | src/components/AllFunds.js:21-24 | Defines the fold: it starts from `{}` and assigns each entry's value under its description, first to last, as `FundTable.Put`. Its properties are stated by `FundTable.ReturnsObjectKeys` and `FundTable.ReturnsObjectLastWins`. `FundTable.NormaliseReturns` is proved equal to it. |
| FundTable.ReturnHeaders | src/components/AllFunds.js:135-146 | The headers are a permutation of the first row's keys. Without "Günlük Getiri" they are those keys unchanged. With it, it comes first and the other keys follow in their original order. Distinct keys stay distinct, and then the daily return appears only once. An empty table has no headers. |
| FundTable.MovedToFront | src/components/AllFunds.js:138-145 | Splicing a key out and unshifting it keeps the length and the multiset of keys, and keeps distinct keys distinct. |
| FundTable.ValueColour | src/components/AllFunds.js:201-206 | Defines the cell colour: green when `value > 0`, else red when `value < 0`, else grey. `FundTable.ValueColourSign` states which values get which colour. |
| FundTable.ValueColourSign | src/components/AllFunds.js:201-206 | A cell is green exactly for a positive number and red exactly for a negative one. Zero, `null`, `undefined` and NaN are grey. |
| FundSort.HandleSort | src/components/AllFunds.js:79-91 | A click on the column sorted ascending makes it descending. A click on the column sorted descending clears the parameters. Any other click sorts that column ascending. |
| FundSort.ThreeClicksCycle | src/components/AllFunds.js:79-91 | Three clicks on one column from the cleared state go ascending, then descending, then cleared. |
| FundSort.ClickOtherColumn | src/components/AllFunds.js:84-90 | A click on a column that is not the sort key sorts it ascending, whatever the current direction. |
| FundSort.SortValue | src/components/AllFunds.js:58-59 | Defines the value a row is sorted by: `returnsData[key]` unless it is `undefined`, then `fund[key]` unless that is `undefined`, then `null`. The result is never `undefined`. `FundSort.SortValueOfFund` and `FundSort.SortValueWithoutEntry` state it for the rows built from funds. |
| FundSort.SortValueOfFund | src/components/AllFunds.js:58-59 | The sort value of a fund's row is the value of its last entry with that description when that value is defined. Otherwise it is the top-level field, and otherwise `null`. |
| FundSort.SortValueWithoutEntry | src/components/AllFunds.js:58-59 | A key that no entry carries falls through to the top-level field, and to `null` when the fund has no such field. |
| FundSort.Compare | src/components/AllFunds.js:56-74 | Defines the comparator. Two strings compare by the collation, negated when the direction is not ascending. Other values give -1 or 1 by `<` and `>` in the direction, and 0 otherwise. Its properties are stated by `FundSort.CompareDescending`, `FundSort.CompareNonStrings` and `FundSort.CompareAntisymmetric`. |
| FundSort.CompareDescending | src/components/AllFunds.js:62-73 | The descending comparator is exactly the negation of the ascending one. |
| FundSort.CompareNonStrings | src/components/AllFunds.js:67-73 | When the two values are not both strings, the result is -1, 0 or 1. It is 0 exactly when neither `<` nor `>` holds, and it is negative exactly when `<` holds (`>` when descending). |
| FundSort.CompareAntisymmetric | src/components/AllFunds.js:56-74 | `a` sorts before `b` exactly when `b` sorts after `a`, for strings and for other values. |
| FundSort.SortInPlace | src/components/AllFunds.js:56-74 | Sorting the array in place permutes its rows. Afterwards each row sorts no later than the next. |
| FundSort.SortedFunds | src/components/AllFunds.js:50-77 | The result is a permutation of the rows. With no key, or an empty one, it is the rows in API order. With a key, each row sorts no later than the next under the comparator for the key and the direction. |
| FundSort.NumericOrderIsGlobal | src/components/AllFunds.js:56-74 | When every row has a number under the key, the sorted rows are in full order: each row sorts no later than every later row. |
| FundSort.StringOrderIsGlobal | src/components/AllFunds.js:62-65 | When every row has a string under the key (the fund code and the long name do, unless a return category carries that name) and the collation is transitive, the sorted rows are in full order, ascending or descending. |
| FundExport.Cell | src/components/AllFunds.js:105-109 | A value cell is empty exactly for `null` or `undefined`, or for an empty formatted number. |
| FundExport.CellDecimalComma | src/components/AllFunds.js:108 | A number formatted as `int.frac` is exported as `int,frac`. |
| FundExport.HeaderLine | src/components/AllFunds.js:95-98 | Defines the header line: "Fon Kodu", "Fon Ünvanı" and the return headers joined by `;`, without quotes. `FundExport.ExportLines` shows it is the first line. |
| FundExport.RowLine | src/components/AllFunds.js:101-112 | Defines a data line: the quoted code, the quoted long name and one `FundExport.Cell` per header, joined by `;`. `FundExport.RowLineCells` splits it back into those cells. |
| FundExport.ExportText | src/components/AllFunds.js:115-119 | Defines the document: the byte-order mark, then the header line and the row lines joined by line breaks. `FundExport.ExportLines` splits it back into those lines. |
| FundExport.ExportLines | src/components/AllFunds.js:95-119 | The export starts with the byte-order mark, followed by one header line and one line per row in the given order. This holds when no field contains a line break. |
| FundExport.RowLineCells | src/components/AllFunds.js:101-112 | A data line splits back into the quoted code, the quoted long name and one cell per header, in header order. A header the fund has no value for gives an empty cell. This holds when no field contains `;`. |
| FundExport.HandleExport | src/components/AllFunds.js:94-119 | The export text is the document of a permutation of the funds and of a permutation of the first row's keys. The funds are in API order with no sort key, and each one sorts no later than the next with one. The daily return heads the headers when present. The text starts with the byte-order mark, and when no field contains a line break it has one line more than there are funds. |
| FundSearch.FetchUrl | src/components/FundSearch.js:30-38 | Defines the history target: `/api/funds/<code>` under the base, followed by `?` and the date parameters when any is set. `FundSearch.FetchUrlQuery` states its path and query. |
| FundSearch.FetchUrlQuery | src/components/FundSearch.js:30-38 | The history request goes to `/api/funds/<code>` under the base. It carries `startDate` exactly when a start date is set and `endDate` exactly when an end date is set. It has no query when neither is set. |
| FundSearch.SearchPath | src/components/FundSearch.js:113-120 | Defines the navigation target of a search: `/search/<code>`, followed by `?` and the set date parameters when any is set. `FundSearch.SearchPathRoundTrip` reads it back. |
| FundSearch.UrlCode | src/components/FundSearch.js:89 | Defines the code read from a location: the `fonKodu` query parameter when it is non-empty, else the path parameter. It is used in `FundSearch.SearchPathRoundTrip` and `FundSearch.FundSearchView.SyncWithUrl`. |
| FundSearch.UrlDate | src/components/FundSearch.js:90-91 | Defines a date read from a location: the query parameter when it is non-empty, else the empty text. It is used in `FundSearch.SearchPathRoundTrip` and `FundSearch.FundSearchView.SyncWithUrl`. |
| FundSearch.SearchPathRoundTrip | src/components/FundSearch.js:89-91 | Reading the code and dates back from the path that a search navigates to gives the same code and dates. |
| FundSearch.FetchOutcome | src/components/FundSearch.js:40-56 | Defines the data and the error a response leaves. A 2xx non-empty list gives the data. A non-2xx response gives its body text or the not-found message. Any other 2xx payload gives the unexpected-data message, and a parse or network failure gives its message, all after the fixed prefix. `FundSearch.FetchOutcomeCases` states its cases. |
| FundSearch.FetchOutcomeCases | src/components/FundSearch.js:40-56 | A fetch yields data exactly for a 2xx response with a non-empty list, and then there is no error. Otherwise there is no data, and the error is the fixed prefix followed by the reason. For a non-2xx response the reason is its body text, or the not-found message when the body is empty. |
| FundSearch.UpdateErrorNamesTarget | src/components/FundSearch.js:81-82 | The update failure message ends with the target URL that was tried. |
| FundSearch.UpdateUrl | src/components/FundSearch.js:63 | Defines the update target: `/api/funds/<code>?date=<date>` under the base. It is used in the contracts of `FundSearch.FundSearchView.UpdateFundReturns` and `FundSearch.FundSearchView.HandleModalSave`. |
| FundSearch.UpdateErrorText | src/components/FundSearch.js:73-82 | Defines the update failure text: the prefix, then the body text of a non-2xx response (or the fixed failure message when it is empty) or the network error's message, then the hint and the target. `FundSearch.UpdateErrorNamesTarget` states that it ends with the target. |
| FundSearch.JsonBody | src/components/FundSearch.js:70 | The body `JSON.stringify(returns)` sends has one object per entry, in order, each with its description. The value is left out exactly for an `undefined` value, and NaN is written as `null`. |
| FundSearch.JsonBodyRoundTrip | src/components/FundSearch.js:70 | Reading the body back gives the entries that were edited, except that each NaN arrives as `null`. Without NaN the entries come back unchanged. |
| FundSearch.ReplaceValue | src/components/FundSearch.js:137-139 | Editing a description replaces the value of every entry with that description. All other entries, the order and the descriptions are kept. |
| FundSearch.ReplaceValueLastWins | src/components/FundSearch.js:134-141 | Of two edits of the same description, the later one wins. |
| FundSearch.ReplaceValueCommutes | src/components/FundSearch.js:134-141 | Edits of two different descriptions can be made in either order. |
| FundSearch.FormatDateToTR | src/components/FundSearch.js:151-154 | Defines the date display: the text split at `-`, shown as the third, second and first part joined by `.`, with `undefined` for a missing part. `FundSearch.FormatDateParts` and `FundSearch.FormatDateWithoutDashes` state what it gives. |
| FundSearch.FormatDateParts | src/components/FundSearch.js:151-154 | `YYYY-MM-DD` is shown as `DD.MM.YYYY`. |
| FundSearch.FormatDateWithoutDashes | src/components/FundSearch.js:151-154 | A text without `-` is taken as the year alone, and the missing parts are shown as `undefined`. |
| FundSearch.FundSearchView.constructor | src/components/FundSearch.js:7-18 | The initial state: empty fields, no data, not loading, no error, modal closed, no session, not updating. |
| FundSearch.FundSearchView.BeginFetch | src/components/FundSearch.js:26-38 | Starting a fetch sets loading, clears the error and the data, and sends one request to the history target for the code and dates. Nothing else changes. |
| FundSearch.FundSearchView.CompleteFetch | src/components/FundSearch.js:40-56 | Data is stored only on success, and every failure sets the error text of the fetch outcome. Loading ends. Nothing else changes. |
| FundSearch.FundSearchView.FetchFundInfo | src/components/FundSearch.js:25-57 | One request is sent. The data and the error are the fetch outcome of the response, and loading ends. |
| FundSearch.FundSearchView.UpdateFundReturns | src/components/FundSearch.js:60-86 | The `PUT` of the JSON body of the entries (`FundSearch.JsonBody`) goes to the code's target with the date query. On success the history is fetched again for the view's current code and dates, the modal closes and the update error is cleared. On failure the update error names the target, and the modal and the data are kept. The session, the search fields and the navigations are never changed. |
| FundSearch.FundSearchView.SyncWithUrl | src/components/FundSearch.js:88-106 | With a code in the location (the `fonKodu` parameter first, then the path), the fields take the location's code and dates and the history is fetched for them. Without a code, the fields, the data and the error are reset and nothing is sent. |
| FundSearch.FundSearchView.SetFundCode | src/components/FundSearch.js:172 | The code input sets the code field. |
| FundSearch.FundSearchView.SetStartDate | src/components/FundSearch.js:195 | The start-date input sets the start-date field. |
| FundSearch.FundSearchView.SetEndDate | src/components/FundSearch.js:207 | The end-date input sets the end-date field. |
| FundSearch.FundSearchView.HandleSearch | src/components/FundSearch.js:108-121 | An empty code sets the missing-code message and does not navigate. Otherwise the view navigates to the search path of the code and the set dates. No request is sent. |
| FundSearch.FundSearchView.HandleEditClick | src/components/FundSearch.js:123-126 | The chosen day becomes the edit session and the modal opens. |
| FundSearch.FundSearchView.HandleModalClose | src/components/FundSearch.js:128-132 | The modal closes, and the session and the update error are discarded. |
| FundSearch.FundSearchView.HandleReturnChange | src/components/FundSearch.js:134-141 | Called from the open modal, which always has a session. The session's entries with that description get the parsed value, a number or NaN. The rest of the session is kept. |
| FundSearch.FundSearchView.HandleModalSave | src/components/FundSearch.js:143-149 | Without a session nothing changes. With one, the JSON body of the session's entries (`FundSearch.JsonBody`) is sent to the target for the session's code and date. On success the history is fetched again for the view's current code and dates, the data and the error are that fetch's outcome, the modal closes and the update error is cleared. On failure only the `PUT` is sent: the update error names the target, and the modal, the data and the error are kept. The session, the search fields and the navigations never change. |

## Left out

- The all-funds fetch effect (`src/components/AllFunds.js:13-41`, apart from the fold of lines 20-30) is network I/O. Its loading flag and its error text are not modelled.
- Rendering is not modelled: JSX, CSS classes, the sort arrows, `toFixed(4)`, the `%` suffix and the `-` placeholder.
- The export's `Blob`, the download link and the file name are not modelled. The file name depends on the clock.
- Concurrency is not modelled. This covers overlapping fetches whose answers arrive out of order, and React's batching of state updates. Instead, a fetch is split into `BeginFetch` and `CompleteFetch`.
- Button `disabled` states are not preconditions. The handlers can be called in any state that `Valid()` admits: loaded data is never an empty list, and an open modal has a session. `HandleReturnChange` also needs the modal open, as its inputs are shown only then (`src/components/FundSearch.js:261`).
- `localeCompare` with Turkish base-sensitivity collation is not modelled. The collation is a parameter; only its antisymmetry is assumed.
- FundSearch.FundSearchView.UpdateFundReturns: the logged `PUT` body is the JSON body of the entries (`FundSearch.JsonBody`), so an edited NaN is sent as `null`. Entry properties other than the description and the value, JSON text syntax and string escaping are not modelled.
- Floating point is not modelled: numbers are exact reals. `toFixed(2)` and `parseFloat` are parameters.
- JavaScript's coercion of numeric strings in `<` is not modelled. A string compared with a non-string counts as NaN, and fund codes and names are not numeric.
- `Object.keys` ordering of integer-like keys ahead of other keys is not modelled, and neither are inherited prototype properties such as `returnsData["constructor"]`. All keys are in insertion order.
- `URLSearchParams` percent-encoding and React Router's path decoding are not modelled. The round-trip lemmas need codes and dates that contain none of `&`, `=`, `?` and `/`.
- `App.js` and the routing table are not part of this model.
- FundSort.SortedFunds: stability, which ECMAScript 2019 gives `Array.prototype.sort`, is not stated. The model's sort is a stable insertion sort, so only the permutation and the adjacent order are proved. That order is proved to be global when every row holds a number under the key (`FundSort.NumericOrderIsGlobal`), and when every row holds a string and the collation is transitive (`FundSort.StringOrderIsGlobal`). For a column where strings, `null` and NaN are mixed, the comparator is not consistent, and JavaScript leaves the order to the engine.
- FundSort.SortInPlace: the same applies. Stability is not stated, and only the permutation and the adjacent order are in its contract. Global order follows from `FundSort.NumericOrderIsGlobal` and `FundSort.StringOrderIsGlobal` for consistent columns.
- FundSearch.FundSearchView.UpdateFundReturns: a successful update closes the modal but keeps the edit session, because the code sets only `isModalOpen` to false. The session is discarded only by `handleModalClose`. The refetch uses the view's code field, which may differ from the session's code once the user has typed in the code input.
- FundExport.HandleExport: its contract states the rows and headers only up to the properties of `FundSort.SortedFunds` and `FundTable.ReturnHeaders` that it names. It does not state the exact header order after the first header, or global order. The content of each line is stated by `FundExport.ExportLines` and `FundExport.RowLineCells`, about `FundExport.ExportText`.
