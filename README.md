# Hongjot transactions: a verified model of the query and aggregation core

This project models the transaction endpoints of the Hongjot personal-finance ledger in Dafny. Three Go files make up that code:

- `api/transaction/transaction.go`: the filtered listing, `GetTransactionsHandler`.
- `api/transaction/transactionDetail.go`: one spender's transactions a page at a time, and that spender's income/expense summary.
- `api/transaction/transaction_handler.go`: creating and updating one transaction.

The database is a sequence of `Row`s in primary-key order. Each SQL statement is replaced by what it means:

- a `WHERE` list is a list of `Predicate`s joined by AND (`Database.Where`);
- `OFFSET`/`LIMIT` drop and then take (`Database.Window`);
- `COUNT(*)` is the length of the filtered rows;
- `SUM` skips NULLs and is NULL over no values (`Database.SqlSum`).

Storage failures the code reacts to are fields of a storage value (`ListStorage`, `DetailStorage`). `strconv.ParseFloat` is a function parameter. The interface storer behind the detail handler and the insert/update statements are also function parameters. The handlers return the reply together with the storage calls they made, so "storage is never called" can be stated.

The code has a different shape in each file, and the model follows it:

- The listing is a `method` (`Transactions.GetTransactions`). It builds the WHERE list one filter at a time (`BuildPlan`) and runs a `while` loop that scans rows and accumulates income and expense totals (`ScanAndTotal`). Each of these is proved against a specification function: `PlanOf`, `ScanAll`/`SumOfKind` and `ListingReply`.
- The two PostgreSQL storer methods are methods with loops, proved against `DetailOutcome` and `SummaryOutcome`.
- The detail and summary handlers, `Create` and `Update` are straight-line code, so they are functions.

Modules:

- `Wrappers`: `Option`, `Result`.
- `GoLib`: Go's 64-bit `int` and its wrap-around, `strconv.Atoi` with its range error and the value it returns beside an error, `strconv.Itoa`, the decimal text of an id, `strings.ToLower` (as far as it can produce ASCII), `math.Ceil`.
- `Database`: rows, predicates and the meaning of the SQL.
- `Transactions`: `transaction.go`.
- `TransactionDetail`: `transactionDetail.go`.
- `TransactionHandler`: `transaction_handler.go`.

Where the system's documented design intent and the code differ, the model follows the code:

- The listing's `summary` totals only the rows of the returned page, not every row the filters match. `ListingRows` states this. `SumOfKindConcat` shows that totals add up over concatenated lists of rows.
- The detail page's `summary` is replaced by the spender-wide one.
- The spender summary matches `transaction_type` case-sensitively in SQL, while the listing lower-cases it (`TypeMatchingDiffers`).
- When the count query of the detail storer fails, the method returns the empty value with the earlier, nil, error (`CountFailureIsSwallowed`). If the summary query then succeeds, the handler answers 200 with no transactions and zero pagination (`CountFailureAnswersOk`).
- The listing ignores `strconv.Atoi`'s error, so a page beyond int64 becomes the largest int64. So does a text whose leading digits already overflow, such as `99999999999999999999x`, because Atoi reads left to right and meets the overflow before the letter (`OverlongLimitScenario`). The detail handler refuses both with a 400.
- The listing computes `(page-1)*limit` and `(n + limit - 1) / limit` on Go's 64-bit `int`. An offset that wraps below zero makes the page query fail (`NegativeOffsetFails`). A page count whose sum wraps comes out 0 or negative although rows match: `?limit=99999999999999999999x` over two rows answers `total_pages` -1 (`TotalPagesOverflow`, `OverlongLimitScenario`).
- The detail storer computes `(page - 1) * limit` on Go's 64-bit `int`. A page far below zero can wrap to offset 0 and be served as the first page: `?page=-4611686018427387903&limit=4` answers 200 (`WrappedPageScenario`).
- `Update` answers 200 whatever the database did. There is no not-found outcome (`UpdateIgnoresStorage`).

## Model

| member | source | states |
|---|---|---|
| GoLib.Wrap64 | api/transaction/transactionDetail.go:124 | Go's int arithmetic: the result is in int64, differs from the exact value by a multiple of 2^64, and equals it when it is in range |
| GoLib.Atoi | api/transaction/transactionDetail.go:81-93 | strconv.Atoi succeeds iff the text is a decimal integer (optional sign) within int64, and then gives that integer |
| GoLib.Quo | api/transaction/transaction.go:144 | Go's division by a positive divisor: the quotient has the dividend's sign and leaves a remainder smaller than the divisor, so it truncates toward zero |
| GoLib.AtoiValue | api/transaction/transaction.go:65-69 | the int beside Atoi's error: the number on success; the int64 bound on the sign's side on a range error, including text whose leading digits overflow 2^64 - 1 before a later non-digit; 0 on any other syntax error |
| GoLib.AtoiValueOfOverflow | api/transaction/transaction.go:65-69 | digits whose value exceeds 2^64 - 1, after an optional sign, give the largest int64 (the smallest after '-') whatever text follows them |
| GoLib.AtoiValueOfSyntaxError | api/transaction/transaction.go:65-69 | digits within 2^64 - 1 followed by a character that is neither digit nor sign give 0, whatever follows |
| GoLib.OverlongDigitsThenLetter | api/transaction/transaction.go:69 | `99999999999999999999x` reads as the largest int64, not 0 |
| GoLib.AtoiIntText | api/transaction/transactionDetail.go:81-93 | the text of an integer is read back as that integer iff it lies within int64, and refused otherwise |
| GoLib.DecimalIntText | api/transaction/transactionDetail.go:81-93 | the text strconv.Itoa gives any integer denotes that integer |
| GoLib.FormatNat | api/transaction/transaction.go:115 | the text an integer id scans into is a non-empty string of decimal digits |
| GoLib.DecimalFormatNat | api/transaction/transaction_handler.go:38-40 | the decimal text of an id denotes the id |
| GoLib.Ceil | api/transaction/transactionDetail.go:151 | the ceiling of x is the integer c with x <= c < x + 1 |
| GoLib.ToLowerIdempotent | api/transaction/transaction.go:126-128 | lower-casing twice is lower-casing once |
| Transactions.DottedCapitalIncome | api/transaction/transaction.go:126-127 | a type spelled with U+0130 for "I" lower-cases to "income" and counts as income |
| Database.HoldsAllConcat | api/transaction/transaction.go:82-98 | appending predicates to the WHERE list conjoins them: a row meets a + b iff it meets a and b |
| Database.HoldsAllEach | api/transaction/transaction.go:101 | a row meets the AND-joined list iff it meets every predicate in it |
| Database.WhereMembers | api/transaction/transaction.go:101 | a row is selected iff it is in the table and meets every predicate |
| Database.WhereKeepsIdOrder | api/transaction/transaction.go:101 | filtering a table in id order keeps id order (ORDER BY id) |
| Database.Window | api/transaction/transaction.go:101 | OFFSET o LIMIT l yields min(l, n - o) rows, row k being row o + k of the input |
| Database.SelectPageInIdOrder | api/transaction/transaction.go:101 | a page is in id order, has at most limit rows, each in the table and meeting the WHERE list |
| Database.SqlSumIsNullIffAllNull | api/transaction/transactionDetail.go:182 | SUM is NULL exactly when the summed column is NULL on every row, so also over no rows |
| Transactions.Defaulted | api/transaction/transaction.go:65-72 | the effective page or limit is always within 1..int64 max. It is the number written when that is positive and within int64, and the int64 maximum for a larger positive number or for text whose leading digits overflow before a later non-digit. It is the fallback when the text is missing, is otherwise not a number, or the number is <= 0 |
| Transactions.FilterClausesMeaning | api/transaction/transaction.go:82-98 | the request is refused iff an amount is present and does not parse. Otherwise the list starts with TRUE and has one predicate per present filter. A row meets it iff its date, amount, category and type equal the present filters |
| Transactions.NoFiltersKeepEveryRow | api/transaction/transaction.go:82 | with no filter the list is exactly [TRUE] and every row is kept |
| Transactions.WhereTrue | api/transaction/transaction.go:82 | the predicate TRUE keeps the whole table |
| Transactions.PlanOf | api/transaction/transaction.go:65-98 | a plan exists iff the filters are valid, and its page and limit are >= 1 |
| Transactions.FetchedIsThePage | api/transaction/transaction.go:101 | the fetched rows are in id order, at most limit of them, each in the table and meeting the WHERE list |
| Transactions.CeilDivIsCeiling | api/transaction/transaction.go:144 | on unbounded integers, (n + limit - 1) / limit is the least p with n <= p * limit, and is 0 iff n is 0 |
| Transactions.TotalPagesIsCeiling | api/transaction/transaction.go:144 | while n + limit - 1 fits in int64, Go's page count is that ceiling, and is 0 iff n is 0 |
| Transactions.TotalPagesOverflow | api/transaction/transaction.go:144 | once n + limit - 1 passes the largest int64 (n itself within it), some row exists and yet the page count is 0 or negative |
| Transactions.ScanListedReadsRow | api/transaction/transaction.go:112-123 | a listed row keeps every column, a NULL amount reads as 0, its id is text denoting the row id; only a NULL note or image_url fails |
| Transactions.ScanAllMeaning | api/transaction/transaction.go:111-124 | scanning succeeds iff every row scans, and then yields each row's value in order |
| Transactions.KindIgnoresCase | api/transaction/transaction.go:126-130 | the income/expense classification of a type does not change when the type is lower-cased first |
| Transactions.KindsPartitionAmounts | api/transaction/transaction.go:125-130 | every amount counts in exactly one of income, expense and neither |
| Transactions.SumOfKindConcat | api/transaction/transaction.go:110-131 | the totals of two lists of rows together are the sums of their totals |
| Transactions.SumOfKindNonNegative | api/transaction/transaction.go:126-130 | over non-negative amounts each total is non-negative |
| Transactions.BuildPlan | api/transaction/transaction.go:64-98 | the imperative defaulting and clause appending computes exactly PlanOf |
| Transactions.ScanAndTotal | api/transaction/transaction.go:108-131 | the loop yields the scan of every row (or fails as soon as one row does not scan), and its totals are the income and expense sums over exactly the scanned rows |
| Transactions.GetTransactions | api/transaction/transaction.go:62-163 | a bad amount gives 400 "Invalid amount format" with no query issued. Otherwise the reply is ListingReply: each storage failure gives its 500, a negative wrapped offset gives the fetch 500, success gives 200 with the page, its totals and the page count. The queries are the page query, then the count query with the same WHERE list once the rows were read |
| Transactions.BrokenStreamFails | api/transaction/transaction.go:111-136 | a row stream that breaks off after k rows fails with "Error scanning transaction" when one of those k rows cannot be scanned, and with "Error fetching transactions" otherwise; the count is never sent |
| Transactions.PlanSelectsMatches | api/transaction/transaction.go:82-101 | the rows the request's WHERE list keeps are exactly the table rows meeting its filters |
| Transactions.ListingRows | api/transaction/transaction.go:101-131 | a 200 holds at most limit rows in id order, each a table row meeting every filter and scanned in place. Its totals sum the lower-cased income and expense amounts of exactly those rows, and balance = income - expenses |
| Transactions.ListingPages | api/transaction/transaction.go:139-158 | a 200 echoes the effective page and limit. While matching + limit - 1 fits in int64, its page count p satisfies (p - 1) * limit < matching <= p * limit, and is 0 iff no table row meets the filters. Beyond that, p <= 0 although some table row meets the filters |
| Transactions.NegativeOffsetFails | api/transaction/transaction.go:101-105 | a page whose (page-1)*limit wraps below zero gets 500 "Failed to fetch transactions", and no count query is sent |
| Transactions.WrappedOffsetScenario | api/transaction/transaction.go:101 | page 3 with the largest limit has offset -2 |
| Transactions.OverlongLimitScenario | api/transaction/transaction.go:65-158 | `?limit=99999999999999999999x` gives limit 9223372036854775807, and over the dinner and salary rows a 200 with both rows and pagination (1, -1, 9223372036854775807) |
| Transactions.ListingScenario | api/transaction/transaction_test.go:27-50 | `?page=1&limit=2` over a Food expense of 100 and a Salary income of 200 gives both rows, totals 200/100/100 and one page of two |
| TransactionDetail.SpenderRowsOfOneSpender | api/transaction/transactionDetail.go:127 | `WHERE spender_id = s` keeps a table that holds only spender s's rows whole |
| TransactionDetail.ScanDetailReadsRow | api/transaction/transactionDetail.go:136-140 | a detail row keeps every column and its id is text denoting the row id; a NULL amount, note or image_url fails the scan |
| TransactionDetail.PageCountIsCeilDiv | api/transaction/transactionDetail.go:151 | for limit >= 1, ceil(total / limit) on reals equals (total + limit - 1) / limit on unbounded integers: the float division does not wrap |
| TransactionDetail.GetTransactionDetailBySpenderId | api/transaction/transactionDetail.go:120-158 | the loop over the spender's page computes DetailOutcome. The offset is (page-1)*limit with Go's 64-bit wrap-around. A failed query, a negative OFFSET or LIMIT, a non-integer id or an unscannable row gives an error; a failed count gives the empty value; otherwise the reply is the scanned rows with the page count |
| TransactionDetail.Skip | api/transaction/transactionDetail.go:124 | the offset equals (page-1)*limit whenever that product stays within int64 |
| TransactionDetail.DetailShape | api/transaction/transactionDetail.go:124-157 | a counted successful page was read from a non-negative offset, which is (page-1)*limit with page >= 1 unless that product overflowed int64. It is the scan of the spender's rows from that offset, with a zero summary and pagination (page, ceil(total/limit), limit) |
| TransactionDetail.DetailPage | api/transaction/transactionDetail.go:124-142 | a successful page holds at most limit rows, each the scan of the spender's row at the same position from the wrapped offset, all of the requested spender; without overflow, page >= 1 |
| TransactionDetail.PageRowsOfSpender | api/transaction/transactionDetail.go:127 | a page of a spender's rows has at most limit rows, all in the table and of that spender |
| TransactionDetail.NegativeSkipFails | api/transaction/transactionDetail.go:124-131 | a negative wrapped offset is refused by the database, so the method returns an error |
| TransactionDetail.NonPositivePageFails | api/transaction/transactionDetail.go:124-131 | with a positive limit, a page <= 0 whose (page-1)*limit stays within int64 gives a negative OFFSET, which is an error |
| TransactionDetail.WrappedPageIsServed | api/transaction/transactionDetail.go:124-157 | page 1-2^62 with limit 4 gives (page-1)*limit = -2^64, which wraps to offset 0, so the storer returns the first page under that page number |
| TransactionDetail.CountFailureIsSwallowed | api/transaction/transactionDetail.go:144-149 | if the rows were read and only the count fails, the method returns the empty value and no error |
| TransactionDetail.GetTransactionSummaryBySpenderId | api/transaction/transactionDetail.go:178-203 | the loop over the aggregate rows computes SummaryOutcome: NULL sums fail, the last row read wins, balance = income - expenses |
| TransactionDetail.ScanSumsStaysFailed | api/transaction/transactionDetail.go:191-196 | once scanning an aggregate row failed, the result is a failure whatever follows |
| TransactionDetail.ExactTotalOfNullColumn | api/transaction/transactionDetail.go:182 | over rows on which the CASE column is NULL throughout, the exact-match total is 0 |
| TransactionDetail.ConditionalSum | api/transaction/transactionDetail.go:182 | unless the CASE column is NULL on every row, SUM(CASE WHEN type = t THEN amount ELSE 0 END) is the total of the non-NULL amounts of the rows typed exactly t |
| TransactionDetail.SumsOfSomeAmount | api/transaction/transactionDetail.go:182 | when some row has an amount, none of the three sums is NULL, and the income and expense sums are the exact-match totals |
| TransactionDetail.SpenderSummary | api/transaction/transactionDetail.go:182-202 | for a spender with at least one non-NULL amount, the summary is the case-sensitive income total, the expense total and their difference; NULL amounts count as nothing |
| TransactionDetail.SummaryFailsIffNoAmount | api/transaction/transactionDetail.go:182-195 | the summary fails iff no row of the spender has an amount; a spender without rows is included |
| TransactionDetail.SpenderWithoutRowsFails | api/transaction/transactionDetail.go:182-195 | for a spender with no rows the sums are NULL and the summary fails |
| TransactionDetail.ParamOrReadsEveryInt | api/transaction/transactionDetail.go:77-98 | a present page or limit is read exactly. The text of every int64, zero and negatives included, gives that number with no clamping or default; the text of any integer beyond int64 is refused |
| TransactionDetail.ParamOrKeepsZero | api/transaction/transactionDetail.go:77-86 | page "0" stays 0 here, while the listing's defaulting turns it into 1 |
| TransactionDetail.HandlerReadsPageAndLimit | api/transaction/transactionDetail.go:77-100 | for any int64 page and limit written in the request, the storer's first call carries exactly those numbers |
| TransactionDetail.CountFailureAnswersOk | api/transaction/transactionDetail.go:100-149 | with the PostgreSQL storer, a failed count behind a readable page reaches the client as 200 with no transactions, zero pagination and the spender's summary |
| TransactionDetail.GetTransactionDetailBySpenderIdHandler | api/transaction/transactionDetail.go:69-114 | a page that is not an integer within int64 gives 400 "Please check your page number", checked before the limit; such a limit gives 400 "Please check your page limit". In both cases the storer is not called, and no call happens exactly on a 400. Otherwise the storer gets the parsed page and limit; a failed page skips the summary; each storer failure gives 500 "Please check server logs". A 200 is the page with the spender's summary in place of its own |
| TransactionDetail.GetTransactionSummaryBySpenderIdHandler | api/transaction/transactionDetail.go:162-176 | the storer's summary unchanged with 200 iff the storer succeeds, else 500 "Please check server logs" |
| TransactionDetail.GraftedSummaryIsSpenderWide | api/transaction/transactionDetail.go:106-112 | with the PostgreSQL storer, the summary on any successful page equals the summary endpoint's, whatever page and limit were asked for |
| TransactionDetail.StubStorerScenario | api/transaction/transactionDetail_test.go:15-71 | with the stub storer and no parameters the reply is the stub page with the stub summary grafted on, after one page call (1, 10) and one summary call |
| TransactionDetail.BadParameterScenarios | api/transaction/transactionDetail_test.go:73-121 | `?page=NotInt` and `?page=1&limit=NotInt` give their 400 messages with no storer call |
| TransactionDetail.PostgresScenario | api/transaction/transactionDetail_test.go:215-283 | over the two rows of spender 1, the default page is both rows with totals 2000/1000/1000 and pagination (1, 1, 10) |
| TransactionDetail.ScenarioDetail | api/transaction/transactionDetail_test.go:231-237 | the PostgreSQL storer over spender 1's two rows, default page and limit, returns both rows scanned in order with a zero summary and pagination (1, 1, 10) |
| TransactionDetail.ScenarioSummary | api/transaction/transactionDetail_test.go:287-317 | the summary of those two rows is 2000/1000/1000 |
| TransactionDetail.WrappedPageScenario | api/transaction/transactionDetail.go:69-158 | `?page=-4611686018427387903&limit=4` for spender 1 answers 200 with both rows, the summary 2000/1000/1000 and pagination (page, 1, 4) |
| TransactionDetail.NullAmountIsSkipped | api/transaction/transactionDetail.go:182-202 | an income row with a NULL amount and an expense of 5 summarise to 0/5/-5 |
| TransactionDetail.TypeMatchingDiffers | api/transaction/transactionDetail.go:182-202 | a row typed "Income" is income for the listing but counts in neither summary total. A "transfer" row counts in neither, though the balance column would subtract it |
| TransactionHandler.ArgsCarryTheBody | api/transaction/transaction_handler.go:19-20 | the insert binds the seven body fields in the order date, amount, category, type, spender, note, image. The update binds the same seven, then the path id as $8 |
| TransactionHandler.BodyOfWithId | api/transaction/transaction_handler.go:42-51 | the echoed transaction carries the given id and exactly the body's fields |
| TransactionHandler.Create | api/transaction/transaction_handler.go:27-60 | a body that does not bind gives 400 with its message and no statement. Otherwise exactly one insert with the body's arguments is made. 201 happens iff the insert succeeds, echoing the body under the text of the inserted id; an insert error gives 500 with its text |
| TransactionHandler.Update | api/transaction/transaction_handler.go:62-95 | a body that does not bind gives 400 and no statement. Otherwise exactly one update with the body's arguments and the path id is made, and the reply is 200 with the path id and the body's fields |
| TransactionHandler.UpdateIgnoresStorage | api/transaction/transaction_handler.go:75-94 | the update's reply does not depend on the database's result, so a missing row still answers 200 |
| TransactionHandler.CreateScenario | api/transaction/transactionHandler_test.go:15-46 | the create test's body with the database returning id 1 gives 201 with id "1" and the body, after one insert with the seven values |
| TransactionHandler.UpdateScenario | api/transaction/transactionHandler_test.go:48-80 | the update test's body on id "1" gives 200 with id "1" and the body, even when the database reports an error |

## Left out

- HTTP plumbing is not modelled: echo routing, contexts, request binding and JSON encoding. A bind result is an input, and a reply is a status with a value or a message. An empty listing is an empty sequence, whereas Go encodes the nil slice as `null`.
- Logging through `mlog`/`zap` and the feature flags are not modelled; neither changes a reply.
- The SQL text is not modelled: the string building, the interpolation of filter values into the listing query and the injection it allows. Predicates stand for the clauses.
- `DATE(date) = '...'` truncates a timestamp to its day. The model compares an opaque date key for equality.
- Floating point is not modelled: amounts and sums are exact reals, and rounding in float addition is lost.
- Transactions.ListingPages: a table of more than 2^63 - 1 matching rows is not considered, because PostgreSQL's `COUNT(*)` is a bigint and cannot report one.
- `strconv.ParseFloat` is a parameter `parseFloat`; its syntax is not modelled.
- The database's conversion of the text spender id is taken to be decimal-integer syntax of any size. PostgreSQL's own rules (surrounding blanks) and the width of the `spender_id` column are not modelled, since no schema is part of this model.
- TransactionDetail.PageCount: with limit 0, Go's conversion of an infinite or NaN quotient to `int` is implementation-defined. The model leaves that page count as the storage parameter `nonFinitePages`.
- The listing messages are the fixed prefixes only; the driver's error text appended to them is not modelled.
- A row stream that breaks off part-way is modelled only for the listing (`breakAfter`). The detail and summary storers never call `rows.Err`, so there a broken stream reads as a shorter one, which the model does not represent.
- The detail query has no ORDER BY, so PostgreSQL may return the spender's rows in any order and OFFSET/LIMIT may pick different rows. The model reads them in table (id) order. The page contents are correct only up to that choice of order.
- `date`, `category`, `transaction_type` and `spender_id` are taken never to be NULL; neither the model nor any source file shows the table's schema. `amount`, `note` and `image_url` are nullable in the model.
- `strings.ToLower` is modelled only as far as it can produce ASCII: the ASCII capitals, U+0130 (to 'i') and U+212A (to 'k'). Every other character is kept. Go lower-cases other non-ASCII letters to non-ASCII ones, which can equal neither "income" nor "expense", so the income and expense classification agrees with Go's. Invalid UTF-8 is not modelled.
- Concurrency is not modelled: the read skew between the listing, count and summary reads, and the connection pool. Each request reads one fixed table.
- `api/api.go` only wires routes, and `api/spender/spender_test.go` tests spender code that is not part of this model.
