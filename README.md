# Transaction ledger and daily summaries, in Dafny

This project models the domain core of a personal-finance backend written in Go with the Echo
web framework. It has two parts.

- **The transaction ledger** (`api/transaction/transaction.go`) validates a request body, amount
  first and then category. Its four handlers work on one `transaction` table: create, list by type,
  update and delete. In the model the handler is the class `Transaction.Handler`. The table is its
  field `table: seq<Row>`, and `nextId` stands for the table's serial identity column. Each SQL
  statement is a function: `Inserted` for INSERT, `Filter` for the listing SELECT, `Updated` for
  UPDATE and `Removed` for DELETE. `CountMatches` is the number of rows an UPDATE or DELETE affects.
  Each handler method ties the new table and its response to these functions. The lemmas prove
  what the functions do. UPDATE rewrites only the five settable columns of the one row that matches
  both id and spender. DELETE removes exactly that row. A listing holds exactly the rows of its type;
  the model delivers them in table order. The identities stay unique and increasing (`Handler.Valid`).
- **The summary reduction** (`api/summary/summary.go`, plus its copy in
  `api/expense/summary/summary.go`) turns per-day buckets `{SumAmount, CountExpenses}` into
  `{Total, Average, Count}`. `Average` is the total divided by the number of buckets, which is the
  number of active days and not the number of transactions. The method `Summarize` is the
  accumulator loop, proved against the function `SummaryOf`. The lemmas cover the empty case, the
  per-active-day average, additivity and independence from bucket order. The request pipeline
  (bind → prepare → query → scan loop → reduce) is the method `ProcessSummaryRequest`, proved
  against the function `SummaryResponse`. The lemma `SummaryOutcomes` gives each failure point its
  own answer. The expense package's handler is a stub: it only binds the spender and then answers
  with the zero summary.

The outside world comes in as parameters:

- A request part that fails to bind is `Http.None`.
- A database failure is a fault value: `insertFails`, `ExecFault`, or `QueryFault`. A
  `QueryFault` is `ScanFailedAt(row)` for a failed scan of one result row, or `StoppedAt(row)`
  for a row stream that breaks before that row.
- The summary's grouped query is a function `aggregate(type, spenderId)` that returns the day
  buckets.

Amounts are `real`. A response is a status code and a body.

Files: `http.dfy` (shared option type, status codes, instants), `transaction.dfy`,
`daily_summary.dfy`, `expense_summary.dfy`.

Three behaviours of the code worth stating:

- `Create` stores any `transaction_type` string and any `spender_id`. Validation checks only the
  amount and the category (`ValidateIgnoresTypeAndSpender`).
- A failed listing query or scan answers 500 with the driver's error text as its body. It is not
  an opaque error.
- The summary handlers accept any integer spender id that binds, zero included.

## Model

| member | source | states |
|---|---|---|
| `Transaction.Validate` | api/transaction/transaction.go:76-83 | error AmountNegative iff amount < 0 (whatever the category); CategoryRequired iff amount >= 0 and category is empty; no error iff amount >= 0 and category non-empty |
| `Transaction.ValidateIgnoresTypeAndSpender` | api/transaction/transaction.go:76-83 | two bodies with the same amount and category get the same verdict: spender_id and transaction_type are never checked |
| `Transaction.ValidateTable` | api/transaction/transaction_test.go:106-133 | the test sample body passes; amount -1 gives "amount is lower than 0.0"; empty category gives "category is required"; both wrong reports the amount rule |
| `Transaction.Handler.Create` | api/transaction/transaction.go:54-74 | unbound body: 400 "invalid request body"; failed validation: 400 with the rule's message; insert failure: 500; in all three the table is unchanged; otherwise 201 and exactly one row appended holding all seven request fields under a fresh identity |
| `Transaction.FilterAppend` | api/transaction/transaction.go:15-16 | after an insert, the new row is last in a listing of its own type and absent from a listing of any other type |
| `Transaction.Handler.GetAll` | api/transaction/transaction.go:85-110 | a type other than exactly "EXPENSE" or "INCOME" gives 400 "invalid transaction type" whatever the store does; a query failure or a scan failure on any result row gives 500 with the driver's text and no partial list; a stream that breaks before row k gives 200 with the first k rows of the listing; otherwise 200 with all the rows of that type |
| `Transaction.Handler.GetAllCheckingErr` | api/transaction/transaction.go:100-109 | the listing with `rows.Err()` checked after the loop: a stream that breaks early gives 500 with the driver's text, and every 200 carries the complete listing |
| `Transaction.PartialListingWitness` | api/transaction/transaction.go:100-109 | two EXPENSE rows stored and a stream that breaks before the second: the listing as written answers 200 with one row |
| `Transaction.FilterMembers` | api/transaction/transaction.go:92 | a row is listed iff it is stored and its transaction_type equals the filter (exact string equality) |
| `Transaction.FilterKeepsOrder` | api/transaction/transaction.go:99-108 | the loop appends rows in the order the query delivers them; in the model that is table order, so the listed identities still increase |
| `Transaction.Handler.Update` | api/transaction/transaction.go:112-140 | unbound or invalid body: 400 and table unchanged; exec failure: 500 and table unchanged; otherwise the table becomes `Updated`; then a RowsAffected failure gives 500, zero matching rows give 400 with no content, else 200 "Update success"; every 400 leaves the table unchanged |
| `Transaction.UpdatedAt` | api/transaction/transaction.go:17 | UPDATE keeps the table's length; a row matching both id and spender_id gets the request's date, amount, category, note and image_url and keeps its id, transaction_type and spender_id; every other row is unchanged |
| `Transaction.UpdatedNoMatch` | api/transaction/transaction.go:135-138 | an UPDATE that affects zero rows leaves the table exactly as it was |
| `Transaction.UpdatedKeepsOrder` | api/transaction/transaction.go:17 | UPDATE keeps the identities unique and increasing |
| `Transaction.AtMostOneMatch` | api/transaction/transaction.go:17-18 | with unique identities, UPDATE and DELETE affect at most one row |
| `Transaction.Handler.Delete` | api/transaction/transaction.go:142-162 | exec failure: 500 and table unchanged; otherwise the table becomes `Removed`; then a RowsAffected failure gives 500, zero matching rows give 400 with no content, else 200 "Delete success"; every 400 leaves the table unchanged |
| `Transaction.RemovedMembers` | api/transaction/transaction.go:18 | a row survives DELETE iff it was stored and does not match both id and spender_id; the table shrinks by exactly the number of affected rows |
| `Transaction.RemovedKeepsOrder` | api/transaction/transaction.go:18 | the surviving rows keep their order |
| `Transaction.RemovedNoMatch` | api/transaction/transaction.go:157-160 | a DELETE that affects zero rows leaves the table exactly as it was |
| `DailySummary.Summarize` | api/summary/summary.go:66-83 | the accumulator loop computes exactly `SummaryOf(data)`: zero for no buckets, else the sum of amounts, that sum over the bucket count, and the sum of counts |
| `DailySummary.EmptySummary` | api/summary/summary.go:67-69 | no buckets give the zero summary {0, 0, 0}, with no division |
| `DailySummary.AveragePerActiveDay` | api/summary/summary.go:78-82 | for a non-empty list, Average × number of buckets = Total, whatever the per-bucket counts; Total and Count are the sums over all buckets |
| `DailySummary.SumsAppend` | api/summary/summary.go:71-76 | the amount and count sums are additive over concatenated bucket lists |
| `DailySummary.SumsPermutation` | api/summary/summary.go:71-76 | the amount and count sums do not depend on bucket order |
| `DailySummary.SummaryPermutation` | api/summary/summary.go:66-83 | two bucket lists that are permutations of each other have the same summary |
| `DailySummary.SummaryTable` | api/summary/summary_test.go:13-39 | [] gives {0,0,0}; [{10,1}] gives {10,10,1}; [{20,2},{30,3}] gives {50,25,5} |
| `DailySummary.SummaryOutcomes` | api/summary/summary.go:85-121 | unbound spender: 400 "invalid spender", independent of the store; a prepare, query or scan failure gives 500 with "prepare statement error", "query error" or "scan error"; a stream that breaks before bucket k gives 200 with the summary of the first k buckets; status 200 iff the spender binds and neither prepare, query nor a scan fails, and then the body is the summary of the buckets received for that type and spender |
| `DailySummary.PartialSummaryWitness` | api/summary/summary.go:109-120 | buckets {10,1} and {30,3} with a stream that breaks before the second: the pipeline as written answers 200 {10,10,1} although the query's summary is {40,20,4} |
| `DailySummary.SummaryResponseCheckingErr` | api/summary/summary.go:109-120 | the pipeline with `rows.Err()` checked after the scan loop: a stream that breaks early gives 500 "query error", and every 200 carries the summary of all the buckets the query returned |
| `DailySummary.ProcessSummaryRequest` | api/summary/summary.go:85-121 | the handler's bind, prepare, query and scan-loop sequence answers exactly `SummaryResponse` for the given type |
| `DailySummary.GetExpenseSummaryHandler` | api/summary/summary.go:123-125 | answers the pipeline's response for the type tag "expense" |
| `DailySummary.GetIncomeSummaryHandler` | api/summary/summary.go:127-129 | answers the pipeline's response for the type tag "income" |
| `ExpenseSummary.Summarize` | api/expense/summary/summary.go:47-64 | the expense package's copy of the reduction, over buckets dated by time.Time, computes the same `SummaryOf(data)` |
| `ExpenseSummary.GetExpenseSummaryHandler` | api/expense/summary/summary.go:67-80 | unbound spender: 400 "invalid spender"; otherwise always 200 with the zero summary |
| `ExpenseSummary.StubIsEmptyStore` | api/expense/summary/summary.go:79 | the stub answers, for every spender, what the full pipeline answers over a store with no expense buckets |

## Findings

| source | as written | input that shows it | evidently intended | confidence | as-written member | corrected member |
|---|---|---|---|---|---|---|
| api/transaction/transaction.go:100-109 | the `rows.Next()` loop ends on a driver error too, and `rows.Err()` is never checked, so the handler answers 200 with the rows read so far | two EXPENSE rows stored; the row stream breaks before the second row | a broken stream answers 500 with the driver's error, as a failed scan does | medium; not executed | `Transaction.PartialListingWitness` | `Transaction.Handler.GetAllCheckingErr` |
| api/summary/summary.go:109-120 | the scan loop ends on a driver error too, and `rows.Err()` is never checked, so the handler answers 200 with the summary of the buckets read so far | buckets {10,1} and {30,3}; the row stream breaks before the second bucket | a broken stream answers 500, as a failed query or scan does | medium; not executed | `DailySummary.PartialSummaryWitness` | `DailySummary.SummaryResponseCheckingErr` |

The handlers `Transaction.Handler.GetAll`, `DailySummary.ProcessSummaryRequest` and the two summary
handlers keep the behaviour as written, since they model the source. The corrected members sit
beside them. The message of the corrected summary's 500 ("query error") is a choice: the source
has no message for this case.

## Left out

- Echo's request and response plumbing (`c.Bind`, `c.Param`, `c.QueryParam`, `c.JSON`,
  `c.NoContent`). Binding is an `Option` input and a response is a status plus a body datatype. JSON
  encoding is not modelled. In particular, a successful listing with no rows is `Rows([])`, while
  Go encodes its nil slice as JSON `null`.
- SQL text and the database driver. The statements' effects are the functions `Inserted`, `Filter`,
  `Updated` and `Removed`. The driver's failures are fault parameters. A listing-scan failure is
  modelled as a failure at one given row position. Which rows a real driver fails to scan is not
  modelled.
- Path parameters. `spenderId` and `transId` are modelled as integers. The source passes the path
  strings to the database, which casts them. A non-numeric path parameter makes the statement fail,
  and the model covers that only as `ExecFailed`.
- The identity returned by `INSERT ... RETURNING id` is read and then discarded by `Create`. The
  model assigns `nextId` and increments it only when a row is stored. A real sequence may also
  advance on a failed insert. A failed read of the returned id is modelled as a failed insert that
  stored nothing.
- Transaction.Handler.GetAll: the listing SELECT has no ORDER BY, so the database promises no
  order. The model delivers rows in table order, and an UPDATE keeps a row in its place. In
  PostgreSQL an UPDATE writes a new row version, so a later scan may list that row elsewhere.
  Only the set of listed rows (`FilterMembers`) is independent of this choice.
- Day bucketing (`date_trunc('day', date)`, grouping and ordering by day). The summary takes the
  query's buckets as the parameter `aggregate`.
- DailySummary.Summarize: `float64` amounts are `real`, so rounding is not captured. Go's 64-bit
  `int` count is an unbounded `int`, so overflow is not captured.
- Transaction.Handler.Create: `float64` amounts are `real`, so the stored amount is exact.
- Logging (`mlog`, `zap`): it never affects control flow.
- Concurrency between requests: each handler call is one atomic step on the table.
- Route registration and BasicAuth (`api/api.go`), and the income package (`api/income/income.go`
  is a plain struct). The income creation handler that its tests call is not part of this model,
  so the rule that forces `transaction_type` to INCOME is not modelled.
- `GetAllBySpender`: the ledger tests call it, but the source does not define it. Only `GetAll` is
  modelled.
- The two summary packages tag types in lower case ("expense", "income"), while the ledger stores
  "EXPENSE" and "INCOME". Each file is modelled as written, and the two are not connected.
