# Expense tracker: a verified model of its transaction core

This project models the core of a small expense tracker. The tracker has an
Express/Mongoose server that stores income and expense transactions, and a
React client that lists and edits them. The model covers the following parts.

- **Record and schema.** A transaction has a title, an amount, a category from
  a fixed list of eight, a type (`income` or `expense`), a date, an optional
  description and timestamps. The schema demands a trimmed title of at most
  50 characters, an amount that is not negative, and a trimmed description of
  at most 200 characters (`schema.dfy`).
- **Request validation.** Six rules check the create and update bodies. Each
  failing rule adds one `{field, message}` entry, and a non-empty list ends
  the request with a 400 (`validation.dfy`).
- **Endpoints over an abstract store.**
  - Create: fills in the defaults.
  - List: filter by category and type, then pagination arithmetic.
  - Summary: the income/expense reduce and the per-category `$group` sorted by
    total.
  - Lookup, update (field replacement on the loaded document), delete.
  - The store is a `class Collection` holding a map from id to record
    (`router.dfy`, `summary.dfy`).
- **The client form.** The `formData`/`errors` state, `validateForm` filling
  the error object one input at a time, and the change, submit and cancel
  handlers (`form.dfy`).
- **The client table.** The sort column and direction, the set of expanded
  rows, and the comparator sort of a copy of the list (`list_view.dfy`).
- **The client application state.** The list transforms (prepend on add,
  replace by id on update, filter by id on delete) and the form/editing state
  machine, with each API call an explicit success or failure (`app.dfy`).
- **Display helpers.** Text truncation, the rounded percentage, and the
  per-category colour and icon tables with their fallback (`format.dfy`).

Supporting modules:
- `text.dfy`: whitespace trimming, UTF-16 length and encoding, and string
  order.
- `numerals.dfy`: decimal amounts in integer cents, with the JavaScript
  number-to-string round trip.
- `wrappers.dfy`: `Option`.

Money is counted in integer cents throughout. Clocks, the ISO 8601 date
recogniser, `window.confirm` and API responses are parameters.

Where the code and its messages differ, the model follows the code. The
amount message says "positive", yet the server's `isFloat({min: 0})` accepts
0; the client's own check does reject 0 (`Form.ClientStricterOnAmount`).

One deliberate departure: the endpoints validate with corrected length rules
(see "## Findings"). The upper bounds of the title and the description are
counted in UTF-16 units, as the schema's `maxlength` counts them, instead of
`isLength`'s code points. The title's lower bound stays `isLength`'s as
written, so a title made only of the variation selectors U+FE0E/U+FE0F is
refused exactly as the code refuses it. The corrected rules accept only
bodies the written rules accept too (`Validation.CorrectedRulesAreStricter`).

## Model

| member | source | states |
|---|---|---|
| Text.Trim | server/routes/transactions.js:10 | the trimmed string has no leading or trailing whitespace, is no longer than the input, and is empty exactly when the input is blank |
| Text.TrimRemovesEdges | server/routes/transactions.js:10 | for every string, the trimmed result is a run of the input with only whitespace before and after it, and it neither starts nor ends with whitespace; together these fix the result |
| Text.TrimIdempotent | server/models/Transaction.js:7 | trimming an already trimmed value (the sanitizer's output, trimmed again by the schema) changes nothing |
| Text.Utf16Length | server/models/Transaction.js:8 | the length `maxlength` and JavaScript's `length` measure lies between the number of characters and twice that |
| Text.Utf16LengthAppend | server/models/Transaction.js:8 | UTF-16 length is additive over concatenation |
| Text.TrimShortensUtf16 | server/models/Transaction.js:38-39 | trimming never makes a string longer in UTF-16 units |
| Text.EncodeChar | client/src/utils/format.js:62 | a character below U+10000 becomes the one code unit of its own value; any other becomes a high surrogate followed by a low surrogate whose values decode back to the character |
| Text.Utf16Encode | client/src/utils/format.js:62 | a string's code units number exactly its UTF-16 length |
| Text.LessIrreflexive | client/src/components/TransactionList.jsx:51-55 | JavaScript string `<` never holds between a string and itself |
| Text.LessAsymmetric | client/src/components/TransactionList.jsx:51-55 | string `<` never holds in both directions |
| Text.LessTransitive | client/src/components/TransactionList.jsx:51-55 | string `<` is transitive |
| Text.LessTotal | client/src/components/TransactionList.jsx:51-55 | of two distinct strings, one is `<` the other |
| Numerals.Decimal | server/routes/transactions.js:13-15 | the decimal numeral of a natural number is a non-empty run of digits |
| Numerals.DecimalRoundTrip | server/routes/transactions.js:13-15 | reading a written numeral back gives the number |
| Numerals.ShowNumberRoundTrip | server/routes/transactions.js:13-15 | the text `toString` gives a JSON number amount reads back as the same amount, so `isFloat` judges the number itself |
| Schema.ParseCategory | server/models/Transaction.js:15-22 | a string the category enumeration accepts is the name of the category it yields |
| Schema.CategoryNameRoundTrip | server/models/Transaction.js:19 | every category's name is accepted and denotes that category |
| Schema.ParseCategoryIff | server/routes/transactions.js:16-18 | a string is accepted as a category exactly when it is that category's name |
| Schema.ParseKind | server/models/Transaction.js:23-30 | a string the type enumeration accepts is the name of the type it yields |
| Schema.ParseKindIff | server/routes/transactions.js:19-21 | a string is accepted as a type exactly when it is `income` or `expense`, naming that type |
| Validation.Validate | server/routes/transactions.js:8-30 | the error list is empty exactly when all six rules pass, and its length is the number of failing rules |
| Validation.ValidateReportsEachRule | server/routes/transactions.js:8-30 | for each field, the list holds that field's entry with its message exactly when its rule fails (both directions, all six fields) |
| Validation.ValidateEntriesAreDistinct | server/routes/transactions.js:8-41 | every entry pairs a field with that field's own message, no field appears twice, and the entries follow the declaration order of the chains |
| Validation.NumberAmountRule | server/routes/transactions.js:13-15 | a JSON number amount passes exactly when it is not negative, so 0 passes |
| Validation.SingleViolation | server/routes/transactions.js:8-30 | a body that breaks exactly one rule gets exactly one entry with its message, and for each of the six fields the entry names that field exactly when that field's rule is the broken one |
| Validation.AcceptedTitleFitsSchema | server/models/Transaction.js:4-9 | a title that passes the corrected rule is non-empty, trimmed and at most 50 UTF-16 units once sanitized, as the schema requires |
| Validation.AcceptedDescriptionFitsSchema | server/models/Transaction.js:36-40 | a description that passes the corrected rule is at most 200 UTF-16 units once the schema has trimmed it |
| Validation.CountedIff | server/routes/transactions.js:11 | `isLength` counts at least one character exactly when the text has a character other than U+FE0E/U+FE0F, so the corrected title rule keeps the written lower bound |
| Validation.ValidatorLengthBound | server/routes/transactions.js:11 | `isLength` never counts more than the number of characters |
| Validation.CorrectedRulesAreStricter | server/routes/transactions.js:9-12 | every title and description the corrected rules accept, the rules as written accept too |
| Validation.EmojiTitleSlipsThrough | server/routes/transactions.js:9-12 | a title of 26 emoji above U+FFFF passes `isLength({max: 50})` as written but is 52 units for `maxlength`, so the save fails |
| Validation.EmojiDescriptionSlipsThrough | server/routes/transactions.js:26-29 | a description of 101 such emoji passes `isLength({max: 200})` as written but is 202 units for `maxlength` |
| Router.HandleValidationErrors | server/routes/transactions.js:33-45 | the handler is stopped with a 400 carrying exactly the entries when there are any, and continues exactly when there are none |
| Router.DateOr | server/routes/transactions.js:59 | the body's date (as the ISO parser reads it) when present and non-empty, the fallback otherwise |
| Router.StoredDescription | server/models/Transaction.js:36-40 | an absent description stays absent, a present one is stored trimmed |
| Router.NewRecord | server/routes/transactions.js:52-61 | the created document satisfies the schema, has the sanitized title, the body's amount, category and type, the date `DateOr` gives (the body's ISO date, or now), the trimmed description or none, and both timestamps set to now |
| Router.Replace | server/routes/transactions.js:215-222 | the saved document satisfies the schema and keeps its id and `createdAt`; title, amount, category, type and description come from the body; the date is the body's ISO date when it gives a non-empty one and the stored date otherwise (`DateOr`); `updatedAt` moves to now only when a field changed |
| Router.Overwrite | server/routes/transactions.js:215-222 | the loaded document takes the incoming fields and date and keeps `createdAt`; `save()` moves `updatedAt` to now only when some field changed; the result satisfies the schema |
| Router.AssignFields | server/routes/transactions.js:215-222 | assigning the body's fields to the loaded document one at a time and saving gives exactly the replaced document |
| Router.ReplaceIdempotent | server/routes/transactions.js:215-222 | repeating the same update leaves the document unchanged, `updatedAt` included |
| Router.ReplaceWithSameFields | server/routes/transactions.js:215-222 | an update that repeats the stored fields leaves the document as it was |
| Router.BuildFilter | server/routes/transactions.js:86-89 | a filter condition exists exactly for a non-empty category or type parameter, and carries that parameter |
| Router.Select | server/routes/transactions.js:94 | the selected documents all match the filter and are stored documents, and every matching stored document is selected |
| Router.SelectCounts | server/routes/transactions.js:94-99 | each matching document is selected as many times as it is stored and any other document never, so the `totalItems` the response reports is the number of matching documents (`countDocuments`) |
| Router.SelectKeepsOrder | server/routes/transactions.js:94 | the selection is the stored documents read at strictly increasing positions, so the page keeps the listing's order |
| Router.NoFilterSelectsAll | server/routes/transactions.js:87-89 | without category and type parameters every document is selected, in order |
| Router.UnknownCategorySelectsNothing | server/routes/transactions.js:88 | a category parameter that names no category selects nothing |
| Router.Window | server/routes/transactions.js:92-97 | the page is the run of documents starting at `skip`, of length `|limit|` or the remainder (all for limit 0), empty past the end |
| Router.TotalPages | server/routes/transactions.js:106 | `Math.ceil(total / limit)`: for a positive limit the least number of pages that holds all items, for a negative limit (which `parseInt` lets through) the least integer whose product with the limit does not exceed the total (the ceiling of the negative quotient), null for limit 0 |
| Router.ListResponse | server/routes/transactions.js:82-118 | a 500 exactly when the skip is negative; otherwise the page is the window at the skip of the matching stored documents, its size is 0 past the end and otherwise the remainder capped at `|limit|` (no cap for 0), and the pagination block reports page, total pages, total items and limit |
| Router.DefaultListIsFirstPage | server/routes/transactions.js:84 | with no query parameters the response lists the first ten stored documents in id order (the `-date` sort is left out, see `Router.Collection.List`) and reports page 1, one page per ten documents, all of them as total, and limit 10 |
| Router.PageOf | server/routes/transactions.js:92-97 | with a positive limit, document `i` is entry `i % limit` of page `i / limit + 1`, and that page is within `totalPages` |
| Router.NextPageContinues | server/routes/transactions.js:92-97 | a full page is followed by the next `limit` documents |
| Router.InOrder | server/routes/transactions.js:125 | the unsorted listing has at most as many documents as ids handed out |
| Router.InOrderContents | server/routes/transactions.js:125 | the listing holds exactly the stored documents |
| Router.InOrderSorted | server/routes/transactions.js:125 | the listing is in ascending id order |
| Router.InOrderFrame | server/routes/transactions.js:63 | storing under a new id leaves the listing of the older ids unchanged |
| Router.InOrderAppend | server/routes/transactions.js:63 | a document stored under the next id comes last in the listing, after the earlier ones unchanged |
| Router.Collection.constructor | server/models/Transaction.js:49 | the collection starts empty and satisfies its invariant |
| Router.Collection.Insert | server/routes/transactions.js:63 | saving a new document that carries the next id stores it under that fresh id, appends it to the listing and keeps the invariant |
| Router.Collection.Save | server/routes/transactions.js:222 | saving a loaded document replaces the stored one under its id, keeps the invariant and hands out no new id |
| Router.Collection.Create | server/routes/transactions.js:50-77 | a rejected body gives a 400 with the entries and saves nothing; an accepted one is stored under a fresh id, returned with a 201, appended to the listing, and the invariant is kept |
| Router.Collection.List | server/routes/transactions.js:82-118 | the response is the list response over the stored documents, and every listed document is stored |
| Router.Collection.GetSummary | server/routes/transactions.js:123-164 | the response carries the income, the expenses, the balance and the breakdown of all stored documents |
| Router.Collection.Get | server/routes/transactions.js:169-197 | a malformed id gives a 400, an unknown id a 404, a known id its document |
| Router.Collection.Update | server/routes/transactions.js:202-242 | rules are checked first (400), then the id (400 malformed, 404 unknown), none of which changes the store; otherwise the replaced document is saved under the same id and returned, and the invariant is kept |
| Router.Collection.Delete | server/routes/transactions.js:247-277 | a malformed or unknown id changes nothing (400, 404); a known id is removed and nothing else |
| Summary.Summarize | server/routes/transactions.js:127-136 | the reduce yields the income of the `income` records, the expenses of every other record, and their difference as balance |
| Summary.IncomePlusExpenses | server/routes/transactions.js:128-132 | every record adds to exactly one of the two totals, so together they sum all amounts |
| Summary.TotalsAppend | server/routes/transactions.js:127-134 | income and expenses of a concatenation are the sums of the parts' |
| Summary.TotalsNonNegative | server/models/Transaction.js:13 | over records the schema accepts both totals are non-negative and the balance lies between minus the expenses and the income |
| Summary.AddTo | server/routes/transactions.js:141-145 | one `$group` step adds the record's amount to the total sum and one to the count sum |
| Summary.AddToEntries | server/routes/transactions.js:141-145 | the step changes only the record's category's entry, by its amount and one |
| Summary.AddToShape | server/routes/transactions.js:141-145 | the step adds the record's category and keeps categories unrepeated and every entry's count positive |
| Summary.Group | server/routes/transactions.js:141-146 | the grouped counts sum to the number of records and the grouped totals to the sum of all amounts |
| Summary.GroupEntries | server/routes/transactions.js:142-144 | each category's grouped total and count are the sum and number of that category's records |
| Summary.GroupShape | server/routes/transactions.js:142 | the grouping has each occurring category exactly once, each with a positive count |
| Summary.Insert | server/routes/transactions.js:147 | insertion adds exactly the one entry and keeps totals non-increasing |
| Summary.InsertKeeps | server/routes/transactions.js:147 | insertion adds the entry's category and sums and keeps categories unrepeated |
| Summary.SortByTotalDesc | server/routes/transactions.js:147 | the sorted breakdown is a permutation with non-increasing totals |
| Summary.SortKeeps | server/routes/transactions.js:147 | sorting keeps the categories, the sums and the absence of repetition |
| Summary.Breakdown | server/routes/transactions.js:139-148 | the breakdown is a permutation of the grouping with non-increasing totals |
| Summary.BreakdownCorrect | server/routes/transactions.js:139-148 | the breakdown has one entry per occurring category, each with that category's sum and a positive count; counts sum to the number of records; totals sum to income plus expenses; totals never increase |
| Summary.GetSummary | server/routes/transactions.js:123-156 | the report carries `{income, expenses, balance = income - expenses}` and the breakdown |
| Form.Set | client/src/components/TransactionForm.jsx:43-46 | the named input takes the value and every other input keeps its own |
| Form.FormErrorsAt | client/src/components/TransactionForm.jsx:57-83 | an input has an entry in the error object exactly when its check fails, with that check's message |
| Form.FormErrorsEmpty | client/src/components/TransactionForm.jsx:84-85 | the error object is empty exactly when no input has a problem, and the type select never has an entry |
| Form.CleanForm | client/src/components/TransactionForm.jsx:57-85 | a form with an empty error object has a non-blank title of at most 50 units and a description that is empty or at most 200 units |
| Form.Submitted | client/src/components/TransactionForm.jsx:95-98 | a clean form submits its inputs unchanged, with the amount as a number above zero that the amount text denotes |
| Form.ClientStricterOnAmount | client/src/components/TransactionForm.jsx:66-70 | the form rejects the amount "0" as not positive, although the server's rule accepts 0 as text and as a number |
| Form.ClientAcceptedIsServerAccepted | client/src/components/TransactionForm.jsx:57-101 | a form the client accepts, with category and type from the selects, a date the server reads as ISO 8601 and a title not made only of variation selectors, passes every server rule, and the title and description rules as written as well |
| Form.SubmissionPasses | server/routes/transactions.js:8-30 | a submission with a non-blank short title that has a character `isLength` counts, a positive amount, valid category and type, a valid date and a short description passes every server rule, the length rules as written included |
| Form.ClientTitlePasses | client/src/components/TransactionForm.jsx:60-64 | a title the client accepts and that has a character `isLength` counts passes the server's title rule, as written and corrected |
| Form.ClientDescriptionPasses | client/src/components/TransactionForm.jsx:80-82 | a description the client accepts passes the server's description rule, as written and corrected |
| Form.VariationSelectorTitle | client/src/components/TransactionForm.jsx:60-64 | the title U+FE0F alone gets no error from the form, yet fails the server's title rule both as written and corrected, so the request ends in a 400 |
| Form.CheckTitle | client/src/components/TransactionForm.jsx:60-64 | the title block records "Title is required" for a blank title, the length message for a title over 50 units, nothing otherwise |
| Form.CheckAmount | client/src/components/TransactionForm.jsx:66-70 | the amount block records the missing message for an empty amount, the positivity message for text that is not a number above zero |
| Form.CheckCategory | client/src/components/TransactionForm.jsx:72-74 | the category block records a message exactly for an empty category |
| Form.CheckDate | client/src/components/TransactionForm.jsx:76-78 | the date block records a message exactly for an empty date |
| Form.CheckDescription | client/src/components/TransactionForm.jsx:80-82 | the description block records a message exactly for a non-empty description over 200 units |
| Form.TransactionForm.constructor | client/src/components/TransactionForm.jsx:11-20 | the form starts empty with type `expense`, today's date and no errors |
| Form.TransactionForm.HandleChange | client/src/components/TransactionForm.jsx:41-55 | the input takes the value; that input's error, when non-empty, becomes the empty string; nothing else changes |
| Form.TransactionForm.ValidateForm | client/src/components/TransactionForm.jsx:57-86 | the stored error object is the one the five checks build, and the result is true exactly when it has no key |
| Form.TransactionForm.HandleSubmit | client/src/components/TransactionForm.jsx:88-101 | the form is validated; a submission is handed on exactly when the form is clean, and it is the clean form's data |
| Form.TransactionForm.HandleCancel | client/src/components/TransactionForm.jsx:103-114 | the form returns to its empty state with no errors |
| ListView.Flip | client/src/components/TransactionList.jsx:18 | flipping always changes the direction |
| ListView.FlipTwice | client/src/components/TransactionList.jsx:18 | flipping twice restores the direction |
| ListView.KeyOf | client/src/components/TransactionList.jsx:36-49 | amount and date compare as numbers, the other columns as strings |
| ListView.PrecedesTotal | client/src/components/TransactionList.jsx:51-55 | of two rows, one may always go first |
| ListView.PrecedesTransitive | client/src/components/TransactionList.jsx:51-55 | the order the comparator induces is transitive |
| ListView.Insert | client/src/components/TransactionList.jsx:35 | insertion adds exactly the row and keeps the list sorted |
| ListView.SortTransactions | client/src/components/TransactionList.jsx:35-56 | the sorted copy is a permutation of the list and sorted by the column in the direction |
| ListView.SortedAllPairs | client/src/components/TransactionList.jsx:35-56 | in the sorted copy every row may go before every later one |
| ListView.AmountOrder | client/src/components/TransactionList.jsx:46-55 | sorted by amount, amounts never decrease ascending and never increase descending |
| ListView.Toggled | client/src/components/TransactionList.jsx:26-31 | the id's membership flips and no other id's changes |
| ListView.ToggleTwice | client/src/components/TransactionList.jsx:25-33 | expanding and collapsing a row restores the set |
| ListView.TransactionList.constructor | client/src/components/TransactionList.jsx:12-14 | the table starts sorted by date, descending, with no row expanded |
| ListView.TransactionList.HandleSort | client/src/components/TransactionList.jsx:16-23 | the current column flips its direction; another column becomes current, descending; expanded rows are untouched |
| ListView.TransactionList.ToggleRowExpansion | client/src/components/TransactionList.jsx:25-33 | the expanded set becomes the toggled copy and the sort state is untouched |
| ListView.TransactionList.SortedTransactions | client/src/components/TransactionList.jsx:35-56 | the rendered rows are a permutation of the list, sorted by the current column and direction |
| App.Prepend | client/src/App.jsx:49 | the created row comes first, followed by the previous list unchanged |
| App.ReplaceById | client/src/App.jsx:77-79 | the list keeps its length, and each row with the id becomes the response while every other row is kept |
| App.RemoveById | client/src/App.jsx:111 | a row is kept exactly when it was there and its id differs |
| App.ReplaceIdempotent | client/src/App.jsx:77-79 | replacing twice is replacing once |
| App.RemoveIdempotent | client/src/App.jsx:111 | removing twice is removing once |
| App.RemoveAppend | client/src/App.jsx:111 | filtering distributes over concatenation, keeping the relative order |
| App.RemoveAfterPrepend | client/src/App.jsx:111 | deleting a just-added row by its id gives the same list as deleting that id from the list before the add |
| App.RemoveLength | client/src/App.jsx:111 | removing shortens the list by the number of rows with the id |
| App.RemoveAfterReplace | client/src/App.jsx:111 | after an update that keeps the id, deleting the id leaves what deleting it before would have |
| App.AppState.constructor | client/src/App.jsx:11-17 | the state starts with no rows, no summary, form hidden, nothing edited or submitting |
| App.AppState.SetSummary | client/src/App.jsx:53-54 | the summary and breakdown take the response's |
| App.AppState.HandleAddTransaction | client/src/App.jsx:44-70 | a created row is prepended; only when the summary refresh also succeeds are the summary replaced and the form hidden; submitting always ends |
| App.AppState.HandleUpdateTransaction | client/src/App.jsx:72-101 | with a row being edited and a successful update, rows with its id take the response; editing ends and the form hides only after the summary refresh too; otherwise nothing but the submitting flag changes |
| App.AppState.HandleDeleteTransaction | client/src/App.jsx:103-123 | nothing changes unless the user confirms and the delete succeeds; then the rows with the id go and a successful refresh replaces the summary; the form and submitting flag are untouched |
| App.AppState.HandleEditTransaction | client/src/App.jsx:125-128 | the row becomes the edited one and the form shows; the rows, summary, breakdown and submitting flag are untouched |
| App.AppState.HandleFormSubmit | client/src/App.jsx:138-144 | the update path runs exactly when a row is being edited, the add path otherwise; each path has the full outcome of its handler on the rows, the form, the edited row, the summary and the breakdown, and submitting ends |
| App.AppState.HandleFormCancel | client/src/App.jsx:146-149 | the form hides and editing ends; the rows, summary, breakdown and submitting flag are untouched |
| Format.ClampIndex | client/src/utils/format.js:62 | a `substring` index is clamped into the string, and an index already inside is kept |
| Format.Substring | client/src/utils/format.js:62 | `substring(start, end)` of in-range indices is that slice, and from 0 it is the clamped prefix |
| Format.TruncateText | client/src/utils/format.js:60-63 | empty text gives empty; text within `maxLength` units is kept; longer text is its first `maxLength` units (none for a negative limit) then `...`; for a non-negative limit the result is at most `maxLength + 3` units |
| Format.TruncateDefault | client/src/utils/format.js:60-63 | with the default limit of 50, text of at most 50 units is kept and longer text becomes its first 50 units then `...` |
| Format.TruncateIdempotent | client/src/utils/format.js:60-63 | truncating a truncated text changes nothing |
| Format.TruncateCountsCodeUnits | client/src/utils/format.js:62 | a string whose UTF-16 length is within the limit is shown whole |
| Format.Round | client/src/utils/format.js:68 | `Math.round` gives the integer within half a unit, halves going up |
| Format.CalculatePercentage | client/src/utils/format.js:66-69 | 0 for a zero total, otherwise the integer within half a unit of `100 * value / total` |
| Format.ShareInPercent | client/src/utils/format.js:68 | `(value / total) * 100` equals `100 * value / total` |
| Format.PercentageBounds | client/src/utils/format.js:66-69 | a value between 0 and the total gives a percentage between 0 and 100 |
| Format.PercentageMonotone | client/src/utils/format.js:66-69 | with a positive total, a larger value never gets a smaller percentage |
| Format.Lookup | client/src/utils/format.js:40 | a present non-empty entry is returned, a missing key gives the `Other` entry |
| Format.KeysAreCategories | client/src/utils/format.js:29-38 | the colour and icon tables have exactly the eight category names as keys |
| Format.CategoryColor | client/src/utils/format.js:28-41 | a category name gets its own colour classes, any other string the `Other` ones, never empty |
| Format.CategoryIcon | client/src/utils/format.js:44-57 | a category name gets its own icon, any other string the `Other` icon, never empty |
| Format.CategoryStylesDistinct | client/src/utils/format.js:28-57 | different categories get different colours and icons, and an unknown name is styled as `Other` |

## Left out

- Router.Collection.List: the `sort` query parameter (default `-date`) is not applied. The listing is in natural id order before the window is taken, so which documents land on a page is not modelled for sorted listings.
- Router.ListResponse: `page` and `limit` are taken as integers. Non-numeric or fractional query values, with their `NaN` arithmetic, are not modelled.
- Router.Collection: a database failure on save or find (the 500 paths other than a negative skip) is not modelled. Response `message` strings and the `success` flag are not modelled either: the response constructors stand for them.
- Router.Collection.Get: an id that does not cast to an ObjectId is `None` in the model. The cast itself belongs to the database driver.
- Numerals.ParseCents: reads only `-?digits(.d{1,2})?`. Exponents, surrounding whitespace, more than two fraction digits and `parseFloat`'s prefix reading are outside the model, because amounts are integer cents.
- Validation.Validate: the length upper bounds are the corrected UTF-16 ones. With the rules as written, a body such as a title of 26 emoji passes validation, `save()` then fails the schema and the request ends in a 500; the model's endpoints answer such a body with a 400 instead (the discrepancy itself is modelled, see "## Findings").
- Form.ClientAcceptedIsServerAccepted: holds only for titles that have a character other than U+FE0E/U+FE0F after trimming. A title made only of those passes the form's check, but the server refuses it (`Form.VariationSelectorTitle`).
- Form.SubmissionPasses: requires, as above, a title that has a character `isLength` counts, because the server refuses the others.
- Form.ClientTitlePasses: requires, as above, a title that has a character `isLength` counts.
- Validation.DateRule: the ISO 8601 recogniser of the validation library is a parameter returning the timestamp, because it is a library call.
- Validation.ValidatorLength: models the validation library's `isLength` by code points, not counting U+FE0E and U+FE0F; the library's other special cases are not modelled.
- Text.Less: compares by code point, while JavaScript compares UTF-16 code units. The two orders differ only between characters above U+FFFF and characters in U+E000–U+FFFF.
- ListView.SortTransactions: the comparator never returns 0, so the order of rows with equal keys depends on the engine's sort. The model fixes one order that the comparator allows and proves only what every allowed order has in common: a permutation, sorted.
- ListView.KeyOf: `new Date(...)` and `parseFloat` on stored values are the stored timestamp and amount, because the model's records already hold numbers.
- Form.TransactionForm: the `useEffect` that loads an edited transaction into the form is not modelled, because it depends on date formatting by date-fns. The `maxLength` attributes of the inputs are markup and are not modelled.
- Form.EmptyForm: today's date is a parameter, because it comes from the clock.
- App.AppState: `fetchData`, loading flags, toasts and `window.confirm` are not modelled; the confirmation is a boolean parameter. Each API call's result is a parameter, and the interleaving of concurrent async handlers is not modelled.
- Format.CalculatePercentage: computed on exact rationals. Floating-point rounding of `value / total * 100` is not modelled.
- Format.Lookup: a category string that names an inherited object property (such as `constructor`) would find a value in JavaScript; the model treats every non-category string as missing.
- `formatCurrency`, `formatDate`, `formatDateForInput` and `generateId` are not modelled: they delegate to `Intl` and date-fns, or are random.
- server/config/db.js, server/utils/sampleData.js, client/src/services/api.js and the presentational components are not part of this model.

## Findings

| source | as written | input that shows it | evidently intended | confidence | as-written member | corrected member |
|---|---|---|---|---|---|---|
| server/routes/transactions.js:11 | the title rule counts code points (`isLength({max: 50})`), but the schema's `maxlength` (server/models/Transaction.js:8) counts UTF-16 units | a title of 26 × U+1F600: 26 for the rule, 52 for the schema, so validation passes, `save()` fails and the request ends in a 500 instead of a 400 | every title the rule accepts fits the schema | not executed | Validation.EmojiTitleSlipsThrough | Validation.AcceptedTitleFitsSchema |
| server/routes/transactions.js:28 | the description rule counts code points (`isLength({max: 200})`), but the schema's `maxlength` (server/models/Transaction.js:39) counts UTF-16 units | a description of 101 × U+1F600: 101 for the rule, 202 for the schema, so the save fails with a 500 | every description the rule accepts fits the schema | not executed | Validation.EmojiDescriptionSlipsThrough | Validation.AcceptedDescriptionFitsSchema |

The corrected rules (`Validation.TitleRule`, `Validation.DescriptionRule`)
count the upper bounds in UTF-16 units and keep the title's lower bound as
written (`Validation.CountedIff`); `Validation.Validate` and the endpoints use
them.
