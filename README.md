# Event history repository: parameter binding and responses

A pure Dafny model of the request handlers of `repositories/repository.event.js`.
Each handler reads its inputs, builds one parameterised SQL statement and its
parameter array, awaits `pool.query`, and maps the outcome to an HTTP status
and a JSON body. The model covers what the file computes before and after the
query:

- **Statements** (`statements.dfy`). Each statement is a structure that says
  which positional parameter `$m` it mentions and what that parameter feeds.
  `Sql` renders the structure to the exact text of the handler's template
  literal. The bulk insert builds one placeholder group per event:
  `($8i+1, ..., $8i+8)`, with the groups joined by `","`. Its parameter array
  is the events' 8-tuples, flattened.
- **Text** (`text.dfy`). Decimal rendering as a template literal prints it,
  JavaScript's `Array.prototype.join`, and a reader `PlaceholderNumbers`. The
  reader recovers the `$n` references from a statement text, which is how the
  model proves that text and structure agree.
- **Sequences** (`sequences.dfy`). `Array.prototype.flat()` and its index
  arithmetic.
- **Events** (`events.dfy`). The eight caller-supplied fields and the column
  order title, description, year, period, month, day, country, city.
- **Pagination** (`pagination.dfy`). `limit = pageSize` and
  `offset = (page - 1) * pageSize`.
- **Handlers** (`handlers.dfy`). The backend is an abstract function `exec`
  from a query to rows or a failure. `Respond` gives:
  - 500 with `{ message: "Internal Server Error" }` on any failure;
  - otherwise 201 for the two inserts and 200 for the rest;
  - for insert, update and delete, the body `result.rows[0]`, which is absent
    when no row matched; for the others, all rows.

Nothing guards an empty bulk upload (`repositories/repository.event.js:75-84`).
With no events the statement goes out with an empty VALUES list, which the
backend refuses, and the catch path answers 500
(`Handlers.EmptyBulkIsInternalError`).

`Statements.Bindings` is the meaning of a statement to the backend: the `j`-th
parameter the statement mentions, `$m`, feeds the `j`-th target (a column of a
row, the id or country match, the limit or the offset) with `params[m - 1]`.
It is a definition, not a property; the layout lemmas below state what it
gives for each handler's query.

## Model

| member | source | states |
|---|---|---|
| Events.Tuple | repositories/repository.event.js:75-78 | an event's tuple has 8 entries, and entry `k` is the field that the column list names at position `k` |
| Sequences.Flat | repositories/repository.event.js:83 | `values.flat()`: the tuples back to back; its length and index arithmetic are stated by `Sequences.FlatLength` and `Sequences.FlatAt` |
| Text.Join | repositories/repository.event.js:81 | `Array.prototype.join`: empty for no parts, the single part for one; what a join of placeholders mentions is stated by `Text.JoinPlaceholders` |
| Pagination.Limit | repositories/repository.event.js:107 | the page size is the LIMIT operand; `Pagination.PagesAbut` and `Pagination.PageOfRow` state how the windows tile the rows |
| Pagination.Offset | repositories/repository.event.js:107 | `(page - 1) * pageSize` is the OFFSET operand; page 1 starts at 0 and each page where the last ended (`Pagination.PagesAbut`, `Pagination.PagesDisjoint`) |
| Statements.Sql | repositories/repository.event.js:24-107 | the text of each template literal; `Statements.SqlMentions` states that it mentions exactly the structured parameters, in order |
| Statements.InsertQuery | repositories/repository.event.js:24-27 | the single insert; `Statements.InsertLayout` states its binding of `$1 .. $8` |
| Statements.Values | repositories/repository.event.js:75-78 | one tuple per event, in event order; `Statements.BulkParams` states where each field lands after flattening |
| Statements.BulkQuery | repositories/repository.event.js:75-83 | the bulk insert; `Statements.BulkLayout` and `Statements.BulkBinding` state its numbering and binding |
| Statements.AllQuery | repositories/repository.event.js:38 | the full-table read; `Statements.AllQueryLayout` states that it binds nothing |
| Statements.UpdateQuery | repositories/repository.event.js:50-52 | the full-row update; `Statements.UpdateLayout` states its binding of `$1 .. $9` |
| Statements.DeleteQuery | repositories/repository.event.js:64 | the delete; `Statements.DeleteLayout` states its binding of `$1` |
| Statements.CountryQuery | repositories/repository.event.js:95 | the country filter; `Statements.CountryLayout` states its binding of `$1` |
| Statements.PageQuery | repositories/repository.event.js:107 | the page read; `Statements.PageLayout` states its binding of `$1` and `$2` |
| Handlers.QueryOf | repositories/repository.event.js:21-113 | the query each of the seven handlers sends; `Handlers.QueriesNumberTheirParameters` and `Handlers.QueryTextsMentionTheirParameters` state its numbering and text |
| Handlers.Handle | repositories/repository.event.js:21-113 | a handler run against a backend; `Handlers.Respond`, `Handlers.FailuresLookAlike` and `Handlers.NoMatchIsAbsentSuccess` state its responses |
| Sequences.FlatLength | repositories/repository.event.js:83 | flattening `n` tuples of width `w` gives `w * n` parameters |
| Sequences.FlatAt | repositories/repository.event.js:83 | element `k` of tuple `i` sits at index `w * i + k` of the flattened array |
| Sequences.FlatAppend | repositories/repository.event.js:83 | flattening distributes over concatenation of the outer list |
| Text.Decimal | repositories/repository.event.js:81 | the decimal notation of a number is non-empty, all digits, and starts with `0` only for zero |
| Text.DecimalRoundTrip | repositories/repository.event.js:81 | reading back the decimal notation of `n` gives `n` |
| Text.PlaceholderReadBack | repositories/repository.event.js:81 | the text `$m` is read back as exactly the one reference `m` |
| Text.PlaceholderNumbersAppend | repositories/repository.event.js:80-82 | when the seam is not inside a reference, the references of `a + b` are those of `a` followed by those of `b` |
| Text.JoinPlaceholders | repositories/repository.event.js:81 | joining parts with a separator that mentions no parameter yields the parts' references, part after part |
| Text.JoinStartsWithFirst | repositories/repository.event.js:81 | a join of at least one part starts with the first part |
| Text.JoinAvoids | repositories/repository.event.js:80 | joining parts that lack a character with a separator that lacks it gives a text that lacks it |
| Pagination.PagesAbut | repositories/repository.event.js:107 | page 1 has offset 0, and page `p + 1` starts where page `p` ends |
| Pagination.PagesDisjoint | repositories/repository.event.js:107 | for a positive page size, an earlier page ends no later than a later page starts |
| Pagination.PageOfRow | repositories/repository.event.js:107 | for a positive page size, every row position from 0 on lies on exactly one page, page `j / pageSize + 1` |
| Pagination.NegativeOffsetBelowFirstPage | repositories/repository.event.js:105-107 | nothing bounds `page`, so a page below 1 with a positive page size asks for a negative offset |
| Statements.Group | repositories/repository.event.js:81 | group `i` is `8i+1 .. 8i+8`, ascending |
| Statements.NumberedOnce | repositories/repository.event.js:81 | parameters numbered `$1 .. $n` in order are each mentioned exactly once, with no gap and strictly ascending |
| Statements.BulkLayout | repositories/repository.event.js:79-83 | `n` events give `8n` parameters, mentioned as `$1 .. $8n` in order, each with a target |
| Statements.BulkBinding | repositories/repository.event.js:75-83 | slot `k` of group `i` is `$(8i+k+1)`; it feeds column `k` of row `i` with field `k` of event `i` |
| Statements.BulkSlot | repositories/repository.event.js:81 | position `8i+k` of the mentioned numbers is slot `k` of group `i`, which is `8i+k+1` |
| Statements.BulkTarget | repositories/repository.event.js:80-81 | position `8i+k` of the targets is column `k` of row `i` |
| Statements.BulkParams | repositories/repository.event.js:75-78 | parameter `8i+k` of the flattened array is field `k` of event `i` |
| Statements.BulkParamsAppend | repositories/repository.event.js:75-83 | the parameters of a bulk upload of `a + b` are those of `a` followed by those of `b` |
| Statements.EmptyValuesList | repositories/repository.event.js:81 | the VALUES list is empty exactly when there are no events |
| Statements.SingleInsertIsBulkOfOne | repositories/repository.event.js:24-27 | the single insert binds exactly as a bulk insert of that one event |
| Statements.InsertLayout | repositories/repository.event.js:24-27 | single insert: `$1 .. $8` feed the columns in column-list order with the event's fields |
| Statements.UpdateNumbering | repositories/repository.event.js:50-52 | update mentions `$1 .. $9`, each once and in order |
| Statements.UpdateLayout | repositories/repository.event.js:50-52 | update: `$1 .. $8` feed the columns with the event's fields, `$9` is the id the WHERE clause matches |
| Statements.UpdateMatchesInsert | repositories/repository.event.js:24-52 | update binds its first eight parameters exactly as the single insert does |
| Statements.UpdateColumns | repositories/repository.event.js:51 | the update's SET list names the insert columns, in the same order, at `$1 .. $8` |
| Statements.AllQueryLayout | repositories/repository.event.js:38 | the full-table read binds nothing |
| Statements.DeleteLayout | repositories/repository.event.js:64 | delete: `$1` is the id the WHERE clause matches |
| Statements.CountryLayout | repositories/repository.event.js:95 | country filter: `$1` is the country the WHERE clause matches |
| Statements.PageLayout | repositories/repository.event.js:107 | page read: `$1` is the limit `pageSize`, `$2` the offset `(page - 1) * pageSize` |
| Statements.ColumnsPlain | repositories/repository.event.js:25 | no column name holds a `$` or starts with a digit |
| Statements.GroupTextMentions | repositories/repository.event.js:81 | the text `($a, $b, ...)` mentions exactly the group's numbers, in order |
| Statements.ValuesListMentions | repositories/repository.event.js:81 | the VALUES list text mentions the groups' numbers, group after group |
| Statements.SetListMentions | repositories/repository.event.js:51 | the SET list text mentions the assignments' slots, in order |
| Statements.SqlMentions | repositories/repository.event.js:24-107 | reading a statement's text back gives exactly its structured parameter numbers, in order |
| Handlers.FirstRow | repositories/repository.event.js:29 | `result.rows[0]` is absent exactly when there are no rows, and otherwise is the first row |
| Handlers.Respond | repositories/repository.event.js:29-111 | status 500 exactly on failure, with the fixed message; on success 201 for the inserts and 200 otherwise; the first row for insert, update and delete, all rows for the rest |
| Handlers.QueriesNumberTheirParameters | repositories/repository.event.js:21-113 | every handler's query mentions `$1 .. $n` once each in order, `n` being the length of its parameter array, and each has a target |
| Handlers.QueryTextsMentionTheirParameters | repositories/repository.event.js:21-113 | every handler's statement text mentions exactly the parameters its structure binds, in order |
| Handlers.FailuresLookAlike | repositories/repository.event.js:30-32 | whatever the handler and whatever failed, the response is the same internal error |
| Handlers.NoMatchIsAbsentSuccess | repositories/repository.event.js:50-65 | update or delete of an id that matches no row answers 200 with an absent body |
| Handlers.EmptyBulkIsInternalError | repositories/repository.event.js:86-88 | an empty bulk upload goes out with an empty VALUES list and, as the backend refuses that, answers 500 |
| Handlers.NonEmptyBulkHasValues | repositories/repository.event.js:81 | a non-empty bulk upload never has an empty VALUES list |

## Left out

- Pool construction, environment configuration, SSL options and the connect-and-log call (`repositories/repository.event.js:1-19`): configuration and I/O.
- The behaviour of Postgres: `returning *`, id assignment, LIMIT/OFFSET semantics, row order and the rejection of negative offsets. The backend is the parameter `exec`. `Handlers.EmptyBulkIsInternalError` states its one assumption about the backend, that a bulk insert with an empty VALUES list is refused, as a precondition.
- `async`/`await` and concurrent requests: each handler call is one pure function application.
- `console.error` logging, and the Express `req`/`res` objects beyond a (status, body) value.
- Pagination.Offset: `page` and `pageSize` are integers. JavaScript's coercion of the path strings is not modelled: `pageSize` reaches the backend as the string itself, and a non-numeric `page` gives `NaN`.
- Which handlers `module.exports` lists (`repositories/repository.event.js:115-120`): wiring, no logic.
- Statements.BulkQuery: `events` is a list. A body whose `events` is not an array, or holds `null`, throws inside `try` and answers 500. That path is not modelled.
- The request bodies and paths are destructured before `try` (`repositories/repository.event.js:22`, `47-48`, `73`). A missing body therefore fails outside the error mapping; this is not modelled.
- Field values are `null`, strings or integers. Floating-point numbers, booleans and nested objects are not modelled.
- The backend returns rows as maps from column name to value. What the rows contain is up to the backend and is not stated.
