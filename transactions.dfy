/** The records of api/transaction/transaction.go and its filtered, paginated listing
 *  (GetTransactionsHandler). */
module Transactions {
  import opened Wrappers
  import opened Database
  import GoLib

  const StatusOK := 200
  const StatusCreated := 201
  const StatusBadRequest := 400
  const StatusInternalServerError := 500

  /** A transaction as the API returns it; the id is the decimal text of the row's key. */
  datatype Transaction = Transaction(
    id: string,
    date: string,
    amount: real,
    category: string,
    transactionType: string,
    spenderId: int,
    note: string,
    imageUrl: string)

  datatype TransactionSummary = TransactionSummary(totalIncome: real, totalExpenses: real, currentBalance: real)

  datatype PaginationInfo = PaginationInfo(currentPage: int, totalPages: int, perPage: int)

  datatype ResponseData = ResponseData(
    transactions: seq<Transaction>,
    summary: TransactionSummary,
    pagination: PaginationInfo)

  /** The per-spender page has the same three parts as the listing's response. */
  type TransactionWithDetail = ResponseData

  /** The body of a create or update request. */
  datatype TransactionReqBody = TransactionReqBody(
    date: string,
    amount: real,
    category: string,
    transactionType: string,
    spenderId: int,
    note: string,
    imageUrl: string)

  /** An HTTP reply: a status with a JSON value, or a status with a message. */
  datatype Reply<T> = Success(status: int, value: T) | Failure(status: int, message: string)

  /** A handler's reply together with the storage calls it made, in order. */
  datatype Exchange<T, C> = Exchange(reply: Reply<T>, calls: seq<C>)

  // ---------------------------------------------------------------------------
  // Request parameters and the query plan

  /** The query parameters the listing reads; a missing parameter is "". */
  datatype QueryParams = QueryParams(
    page: string,
    limit: string,
    date: string,
    amount: string,
    category: string,
    transactionType: string)

  /** `v, _ := strconv.Atoi(raw); if v <= 0 { v = fallback }`: the error is ignored, so a
   *  positive number beyond int64, and any text whose leading digits already overflow, counts
   *  as the largest int64. */
  function Defaulted(raw: string, fallback: int): (v: GoLib.Int64)
    requires 1 <= fallback <= GoLib.MaxInt64
    ensures 1 <= v
    ensures (GoLib.Decimal(raw).None? && !GoLib.ReadOverflows(raw)) || (GoLib.Decimal(raw).Some? && GoLib.Decimal(raw).value <= 0)
            ==> v == fallback
    ensures GoLib.Decimal(raw).Some? && 0 < GoLib.Decimal(raw).value <= GoLib.MaxInt64 ==> v == GoLib.Decimal(raw).value
    ensures GoLib.Decimal(raw).Some? && GoLib.Decimal(raw).value > GoLib.MaxInt64 ==> v == GoLib.MaxInt64
    ensures GoLib.ReadOverflows(raw) ==> v == if GoLib.Negative(raw) then fallback else GoLib.MaxInt64
  {
    var v := GoLib.AtoiValue(raw);
    if v <= 0 then fallback else v
  }

  /** The WHERE list: TRUE, then one equality per non-empty filter in the order date, amount,
   *  category, type; None when an amount is given that does not parse as a float. */
  function FilterClauses(q: QueryParams, parseFloat: string -> Option<real>): (clauses: Option<seq<Predicate>>)
  {
    if q.amount != "" && parseFloat(q.amount).None? then None
    else
      Some([True]
        + (if q.date != "" then [DateIs(q.date)] else [])
        + (if q.amount != "" then [AmountIs(parseFloat(q.amount).value)] else [])
        + (if q.category != "" then [CategoryIs(q.category)] else [])
        + (if q.transactionType != "" then [TypeIs(q.transactionType)] else []))
  }

  /** What the filters mean for a row, stated field by field. */
  predicate MeetsFilters(q: QueryParams, parseFloat: string -> Option<real>, r: Row)
  {
    && (q.date != "" ==> r.date == q.date)
    && (q.amount != "" ==> r.amount == parseFloat(q.amount))
    && (q.category != "" ==> r.category == q.category)
    && (q.transactionType != "" ==> r.transactionType == q.transactionType)
  }

  function PresentFilters(q: QueryParams): (n: nat)
  {
    (if q.date != "" then 1 else 0) + (if q.amount != "" then 1 else 0)
    + (if q.category != "" then 1 else 0) + (if q.transactionType != "" then 1 else 0)
  }

  /** The clause list is refused exactly for an unparsable amount; otherwise it starts with
   *  TRUE, has one clause per present filter, and keeps a row iff the row meets every filter. */
  lemma FilterClausesMeaning(q: QueryParams, parseFloat: string -> Option<real>, r: Row)
    ensures FilterClauses(q, parseFloat).None? <==> q.amount != "" && parseFloat(q.amount).None?
    ensures FilterClauses(q, parseFloat).Some? ==>
      var cs := FilterClauses(q, parseFloat).value;
      && cs[0] == True
      && |cs| == 1 + PresentFilters(q)
      && (HoldsAll(cs, r) <==> MeetsFilters(q, parseFloat, r))
  {
    if FilterClauses(q, parseFloat).Some? {
      var d := if q.date != "" then [DateIs(q.date)] else [];
      var a := if q.amount != "" then [AmountIs(parseFloat(q.amount).value)] else [];
      var c := if q.category != "" then [CategoryIs(q.category)] else [];
      var t := if q.transactionType != "" then [TypeIs(q.transactionType)] else [];
      assert FilterClauses(q, parseFloat).value == [True] + d + a + c + t;
      HoldsAllConcat([True] + d + a + c, t, r);
      HoldsAllConcat([True] + d + a, c, r);
      HoldsAllConcat([True] + d, a, r);
      HoldsAllConcat([True], d, r);
    }
  }

  /** With no filter the list is exactly [TRUE], and every row is kept. */
  lemma NoFiltersKeepEveryRow(q: QueryParams, parseFloat: string -> Option<real>, table: seq<Row>)
    requires q.date == "" && q.amount == "" && q.category == "" && q.transactionType == ""
    ensures FilterClauses(q, parseFloat) == Some([True])
    ensures Where(table, [True]) == table
  {
    assert [True] + [] + [] + [] + [] == [True];
    WhereTrue(table);
  }

  lemma {:induction false} WhereTrue(table: seq<Row>)
    ensures Where(table, [True]) == table
  {
    if table != [] {
      WhereTrue(table[1..]);
      assert HoldsAll([True], table[0]) by { assert [True][1..] == []; }
    }
  }

  /** The effective page and limit and the WHERE list of one request. */
  datatype Plan = Plan(clauses: seq<Predicate>, page: GoLib.Int64, limit: GoLib.Int64)
  {
    predicate Valid() { page >= 1 && limit >= 1 }

    /** `(page-1)*limit` on Go's int: exact while the product fits in int64, and wrapped
     *  (possibly to a negative number) beyond. */
    function Offset(): (o: GoLib.Int64)
      requires Valid()
      ensures (page - 1) * limit <= GoLib.MaxInt64 ==> o == (page - 1) * limit
    {
      GoLib.Wrap64((page - 1) * limit)
    }
  }

  function PlanOf(q: QueryParams, parseFloat: string -> Option<real>): (p: Option<Plan>)
    ensures p.Some? ==> p.value.Valid()
    ensures p.Some? <==> FilterClauses(q, parseFloat).Some?
  {
    match FilterClauses(q, parseFloat)
    case None => None
    case Some(cs) => Some(Plan(cs, Defaulted(q.page, 1), Defaulted(q.limit, 10)))
  }

  /** The rows the listing query returns for a plan whose OFFSET the database accepts. */
  function Fetched(table: seq<Row>, plan: Plan): (rows: seq<Row>)
    requires plan.Valid() && plan.Offset() >= 0
  {
    SelectPage(table, plan.clauses, plan.limit, plan.Offset())
  }

  /** The listing comes back in id order, holds at most `limit` rows, and every row it holds
   *  is in the table and satisfies the WHERE list. */
  lemma FetchedIsThePage(table: seq<Row>, plan: Plan)
    requires IdOrdered(table) && plan.Valid() && plan.Offset() >= 0
    ensures IdOrdered(Fetched(table, plan))
    ensures |Fetched(table, plan)| <= plan.limit
    ensures forall r :: r in Fetched(table, plan) ==> r in table && HoldsAll(plan.clauses, r)
  {
    SelectPageInIdOrder(table, plan.clauses, plan.limit, plan.Offset());
  }

  /** `(n + limit - 1) / limit` on unbounded integers. */
  function CeilDiv(n: nat, limit: int): (pages: nat)
    requires limit >= 1
  {
    (n + limit - 1) / limit
  }

  /** The formula is the ceiling of n / limit: the least p with n <= p * limit, which is 0
   *  exactly when n is 0. */
  lemma CeilDivIsCeiling(n: nat, limit: int)
    requires limit >= 1
    ensures (CeilDiv(n, limit) - 1) * limit < n <= CeilDiv(n, limit) * limit
    ensures CeilDiv(n, limit) == 0 <==> n == 0
  {
    var p := CeilDiv(n, limit);
    var m := n + limit - 1;
    assert m == p * limit + m % limit && 0 <= m % limit < limit;
    assert (p - 1) * limit == p * limit - limit;
    if p >= 1 {
      assert p * limit >= limit;
    }
  }

  /** `(totalRecords + limit - 1) / limit` on Go's int: the sum wraps past the largest
   *  int64 and the division truncates toward zero. */
  function TotalPages(totalRecords: nat, limit: GoLib.Int64): (pages: int)
    requires limit >= 1
  {
    GoLib.Quo(GoLib.Wrap64(totalRecords + limit - 1), limit)
  }

  /** While n + limit - 1 fits in int64, the page count is the ceiling of n / limit, and it is
   *  0 exactly when nothing matches. */
  lemma TotalPagesIsCeiling(n: nat, limit: GoLib.Int64)
    requires limit >= 1 && n + limit - 1 <= GoLib.MaxInt64
    ensures TotalPages(n, limit) == CeilDiv(n, limit)
    ensures (TotalPages(n, limit) - 1) * limit < n <= TotalPages(n, limit) * limit
    ensures TotalPages(n, limit) == 0 <==> n == 0
  {
    CeilDivIsCeiling(n, limit);
  }

  /** Once n + limit - 1 passes the largest int64 the sum wraps to a negative number, and the
   *  page count is 0 or negative although some row matches. */
  lemma TotalPagesOverflow(n: nat, limit: GoLib.Int64)
    requires limit >= 1 && n <= GoLib.MaxInt64 && n + limit - 1 > GoLib.MaxInt64
    ensures n >= 1 && TotalPages(n, limit) <= 0
  {
    var m := n + limit - 1;
    var w := GoLib.Wrap64(m);
    assert GoLib.MinInt64 <= m - GoLib.TwoTo64 < 0;
    assert w == m - GoLib.TwoTo64 by {
      var k := (w - m) / GoLib.TwoTo64;
      assert w - m == k * GoLib.TwoTo64;
      assert -GoLib.TwoTo64 < w - m + GoLib.TwoTo64 < GoLib.TwoTo64;
    }
  }

  // ---------------------------------------------------------------------------
  // Scanning rows and the income / expense totals

  /** rows.Scan into a Transaction with the amount read through sql.NullFloat64: a NULL amount
   *  stays 0, while a NULL note or image_url cannot be scanned into a string. */
  function ScanListed(r: Row): (scanned: Option<Transaction>)
  {
    if r.note.None? || r.imageUrl.None? then None
    else
      var amount := if r.amount.Some? then r.amount.value else 0.0;
      Some(Transaction(GoLib.FormatNat(r.id), r.date, amount, r.category, r.transactionType,
                       r.spenderId, r.note.value, r.imageUrl.value))
  }

  /** A listed row keeps every column, reads a NULL amount as 0, and its id is the text of
   *  the row's id; only a NULL note or image_url fails the scan. */
  lemma ScanListedReadsRow(r: Row)
    ensures ScanListed(r).None? <==> r.note.None? || r.imageUrl.None?
    ensures ScanListed(r).Some? ==>
      var t := ScanListed(r).value;
      && GoLib.Decimal(t.id) == Some(r.id as int)
      && t.amount == (if r.amount.Some? then r.amount.value else 0.0)
      && t.date == r.date && t.category == r.category && t.transactionType == r.transactionType
      && t.spenderId == r.spenderId && r.note == Some(t.note) && r.imageUrl == Some(t.imageUrl)
  {
    GoLib.DecimalFormatNat(r.id);
  }

  /** Scanning every row of a result; one row that cannot be scanned fails the whole scan. */
  function ScanAll(rows: seq<Row>, scan: Row -> Option<Transaction>): (scanned: Option<seq<Transaction>>)
  {
    if rows == [] then Some([])
    else
      match ScanAll(rows[..|rows| - 1], scan)
      case None => None
      case Some(ts) =>
        match scan(rows[|rows| - 1])
        case None => None
        case Some(t) => Some(ts + [t])
  }

  /** Scanning succeeds exactly when every row scans, and then yields each row's value in order. */
  lemma {:induction false} ScanAllMeaning(rows: seq<Row>, scan: Row -> Option<Transaction>)
    ensures ScanAll(rows, scan).Some? ==>
      |ScanAll(rows, scan).value| == |rows| &&
      forall i :: 0 <= i < |rows| ==> scan(rows[i]) == Some(ScanAll(rows, scan).value[i])
    ensures ScanAll(rows, scan).None? <==> exists i :: 0 <= i < |rows| && scan(rows[i]).None?
  {
    if rows != [] {
      var front := rows[..|rows| - 1];
      ScanAllMeaning(front, scan);
      assert forall i :: 0 <= i < |front| ==> front[i] == rows[i];
    }
  }

  /** How the listing classifies a type: compared with "income" and "expense" after
   *  strings.ToLower; anything else counts in neither total. */
  datatype Kind = Income | Expense | Other

  function KindOf(transactionType: string): (k: Kind)
  {
    var lowered := GoLib.ToLower(transactionType);
    if lowered == "income" then Income else if lowered == "expense" then Expense else Other
  }

  lemma KindIgnoresCase(transactionType: string)
    ensures KindOf(GoLib.ToLower(transactionType)) == KindOf(transactionType)
  {
    GoLib.ToLowerIdempotent(transactionType);
  }

  /** The total of the amounts of the transactions of one kind. */
  function SumOfKind(txs: seq<Transaction>, k: Kind): (total: real)
  {
    if txs == [] then 0.0
    else SumOfKind(txs[..|txs| - 1], k) + (if KindOf(txs[|txs| - 1].transactionType) == k then txs[|txs| - 1].amount else 0.0)
  }

  function SumAmounts(txs: seq<Transaction>): (total: real)
  {
    if txs == [] then 0.0 else SumAmounts(txs[..|txs| - 1]) + txs[|txs| - 1].amount
  }

  /** The summary of the listing: totals of the returned rows and their difference. */
  function Totals(txs: seq<Transaction>): (summary: TransactionSummary)
  {
    var income := SumOfKind(txs, Income);
    var expenses := SumOfKind(txs, Expense);
    TransactionSummary(income, expenses, income - expenses)
  }

  /** Every amount lands in exactly one of the three buckets. */
  lemma {:induction false} KindsPartitionAmounts(txs: seq<Transaction>)
    ensures SumOfKind(txs, Income) + SumOfKind(txs, Expense) + SumOfKind(txs, Other) == SumAmounts(txs)
  {
    if txs != [] {
      KindsPartitionAmounts(txs[..|txs| - 1]);
    }
  }

  /** Totals over a concatenation are the sums of the totals of the parts. */
  lemma {:induction false} SumOfKindConcat(a: seq<Transaction>, b: seq<Transaction>, k: Kind)
    ensures SumOfKind(a + b, k) == SumOfKind(a, k) + SumOfKind(b, k)
  {
    if b == [] {
      assert a + b == a;
    } else {
      assert (a + b)[..|a + b| - 1] == a + b[..|b| - 1];
      SumOfKindConcat(a, b[..|b| - 1], k);
    }
  }

  lemma {:induction false} SumOfKindNonNegative(txs: seq<Transaction>, k: Kind)
    requires forall i :: 0 <= i < |txs| ==> txs[i].amount >= 0.0
    ensures SumOfKind(txs, k) >= 0.0
  {
    if txs != [] {
      SumOfKindNonNegative(txs[..|txs| - 1], k);
    }
  }

  // ---------------------------------------------------------------------------
  // GetTransactionsHandler

  /** How the storage behaves for one listing request (the rows come from the table): the
   *  query fails, the row stream breaks off with an error after `breakAfter` rows, or the
   *  count fails. */
  datatype ListStorage = ListStorage(queryFails: bool, breakAfter: Option<nat>, countFails: bool)

  /** The rows `rows.Next()` hands out before the stream ends, normally or with an error. */
  function Delivered(rows: seq<Row>, breakAfter: Option<nat>): (out: seq<Row>)
    ensures breakAfter.None? ==> out == rows
    ensures breakAfter.Some? ==> out == rows[..Min(breakAfter.value, |rows|)]
  {
    if breakAfter.Some? && breakAfter.value < |rows| then rows[..breakAfter.value] else rows
  }

  /** The queries the listing sends to storage, in order. */
  datatype ListQuery =
    | SelectQuery(clauses: seq<Predicate>, limit: int, offset: int)
    | CountQuery(clauses: seq<Predicate>)

  const InvalidAmount := "Invalid amount format"
  const FetchFailed := "Failed to fetch transactions"
  const ScanFailed := "Error scanning transaction"
  const CursorFailed := "Error fetching transactions"
  const CountFailed := "Failed to count transactions"

  /** The clause-building part of the handler: the page and limit fall back to 1 and 10, and
   *  the WHERE list grows one filter at a time; an unparsable amount stops the request. */
  method BuildPlan(q: QueryParams, parseFloat: string -> Option<real>) returns (plan: Option<Plan>)
    ensures plan == PlanOf(q, parseFloat)
  {
    var page := GoLib.AtoiValue(q.page);
    if page <= 0 {
      page := 1;
    }
    var limit := GoLib.AtoiValue(q.limit);
    if limit <= 0 {
      limit := 10;
    }
    assert page == Defaulted(q.page, 1) && limit == Defaulted(q.limit, 10);

    // the filters still to come, as FilterClauses lists them
    ghost var d := if q.date != "" then [DateIs(q.date)] else [];
    ghost var a := if q.amount != "" && parseFloat(q.amount).Some? then [AmountIs(parseFloat(q.amount).value)] else [];
    ghost var c := if q.category != "" then [CategoryIs(q.category)] else [];
    ghost var t := if q.transactionType != "" then [TypeIs(q.transactionType)] else [];

    var whereClauses := [True];
    if q.date != "" {
      whereClauses := whereClauses + [DateIs(q.date)];
    }
    assert whereClauses == [True] + d;
    if q.amount != "" {
      var parsed := parseFloat(q.amount);
      if parsed.Some? {
        whereClauses := whereClauses + [AmountIs(parsed.value)];
      } else {
        return None;
      }
    }
    assert whereClauses == [True] + d + a;
    if q.category != "" {
      whereClauses := whereClauses + [CategoryIs(q.category)];
    }
    assert whereClauses == [True] + d + a + c;
    if q.transactionType != "" {
      whereClauses := whereClauses + [TypeIs(q.transactionType)];
    }
    assert whereClauses == [True] + d + a + c + t;
    plan := Some(Plan(whereClauses, page, limit));
  }

  /** The `rows.Next()` loop: scan each row, append it, and add its amount to the income or
   *  the expense total by its lower-cased type. None when a row cannot be scanned. */
  method ScanAndTotal(rows: seq<Row>) returns (transactions: Option<seq<Transaction>>, totalIncome: real, totalExpenses: real)
    ensures transactions == ScanAll(rows, ScanListed)
    ensures transactions.Some? ==>
      totalIncome == SumOfKind(transactions.value, Income) && totalExpenses == SumOfKind(transactions.value, Expense)
  {
    var txs: seq<Transaction> := [];
    totalIncome, totalExpenses := 0.0, 0.0;
    var i := 0;
    while i < |rows|
      invariant 0 <= i <= |rows|
      invariant ScanAll(rows[..i], ScanListed) == Some(txs) && |txs| == i
      invariant totalIncome == SumOfKind(txs, Income)
      invariant totalExpenses == SumOfKind(txs, Expense)
    {
      var t := ScanListed(rows[i]);
      if t.None? {
        ScanAllMeaning(rows, ScanListed);
        return None, totalIncome, totalExpenses;
      }
      assert rows[..i + 1][..i] == rows[..i];
      txs := txs + [t.value];
      assert txs[..|txs| - 1] == txs[..i];
      var kind := KindOf(t.value.transactionType);
      if kind == Income {
        totalIncome := totalIncome + t.value.amount;
      } else if kind == Expense {
        totalExpenses := totalExpenses + t.value.amount;
      }
      i := i + 1;
    }
    assert rows[..i] == rows;
    transactions := Some(txs);
  }

  /** What the listing replies once the request has a plan: a storage error at each step
   *  becomes a 500 with that step's message; otherwise 200 with the scanned page, its totals,
   *  and the page count of everything the same WHERE list matches. */
  function ListingReply(table: seq<Row>, plan: Plan, storage: ListStorage): (reply: Reply<ResponseData>)
    requires plan.Valid()
  {
    if storage.queryFails || plan.Offset() < 0 then Failure(StatusInternalServerError, FetchFailed)
    else
      match ScanAll(Delivered(Fetched(table, plan), storage.breakAfter), ScanListed)
      case None => Failure(StatusInternalServerError, ScanFailed)
      case Some(txs) =>
        if storage.breakAfter.Some? then Failure(StatusInternalServerError, CursorFailed)
        else if storage.countFails then Failure(StatusInternalServerError, CountFailed)
        else
          var pages := TotalPages(CountWhere(table, plan.clauses), plan.limit);
          Success(StatusOK, ResponseData(txs, Totals(txs), PaginationInfo(plan.page, pages, plan.limit)))
  }

  /** The queries sent for a plan: the page query, then the count query with the same WHERE
   *  list once every fetched row has been read. */
  function ListingQueries(table: seq<Row>, plan: Plan, storage: ListStorage): (queries: seq<ListQuery>)
    requires plan.Valid()
  {
    var reachesCount := !storage.queryFails && plan.Offset() >= 0 && ScanAll(Delivered(Fetched(table, plan), storage.breakAfter), ScanListed).Some?
                        && storage.breakAfter.None?;
    [SelectQuery(plan.clauses, plan.limit, plan.Offset())] + (if reachesCount then [CountQuery(plan.clauses)] else [])
  }

  /** A stream that breaks off fails the request, with the scan error when a row it handed
   *  out cannot be scanned and with the cursor error otherwise; the count is never sent. */
  lemma BrokenStreamFails(table: seq<Row>, plan: Plan, storage: ListStorage)
    requires plan.Valid() && plan.Offset() >= 0 && !storage.queryFails && storage.breakAfter.Some?
    ensures
      var rows := Fetched(table, plan);
      var delivered := rows[..Min(storage.breakAfter.value, |rows|)];
      && ListingReply(table, plan, storage) ==
         (if exists i :: 0 <= i < |delivered| && ScanListed(delivered[i]).None?
          then Failure(StatusInternalServerError, ScanFailed)
          else Failure(StatusInternalServerError, CursorFailed))
      && ListingQueries(table, plan, storage) == [SelectQuery(plan.clauses, plan.limit, plan.Offset())]
  {
    var rows := Fetched(table, plan);
    ScanAllMeaning(rows[..Min(storage.breakAfter.value, |rows|)], ScanListed);
  }

  /** PostgreSQL refuses a negative OFFSET, so a page whose offset wrapped below zero fails
   *  the page query, and the count is never sent. */
  lemma NegativeOffsetFails(table: seq<Row>, plan: Plan, storage: ListStorage)
    requires plan.Valid() && plan.Offset() < 0
    ensures ListingReply(table, plan, storage) == Failure(StatusInternalServerError, FetchFailed)
    ensures ListingQueries(table, plan, storage) == [SelectQuery(plan.clauses, plan.limit, plan.Offset())]
  {
  }

  /** Page 3 with the largest limit: (3-1)*limit wraps to -2, so the page query fails. */
  lemma WrappedOffsetScenario()
    ensures Plan([True], 3, GoLib.MaxInt64).Offset() == -2
  {
  }

  method GetTransactions(table: seq<Row>, q: QueryParams, parseFloat: string -> Option<real>, storage: ListStorage)
    returns (reply: Reply<ResponseData>, issued: seq<ListQuery>)
    ensures PlanOf(q, parseFloat).None? ==> reply == Failure(StatusBadRequest, InvalidAmount) && issued == []
    ensures PlanOf(q, parseFloat).Some? ==>
      && reply == ListingReply(table, PlanOf(q, parseFloat).value, storage)
      && issued == ListingQueries(table, PlanOf(q, parseFloat).value, storage)
  {
    var built := BuildPlan(q, parseFloat);
    if built.None? {
      return Failure(StatusBadRequest, InvalidAmount), [];
    }
    ghost var plan := built.value;
    var whereClauses, page, limit := built.value.clauses, built.value.page, built.value.limit;

    var offset := built.value.Offset();
    issued := [SelectQuery(whereClauses, limit, offset)];
    if storage.queryFails || offset < 0 {
      return Failure(StatusInternalServerError, FetchFailed), issued;
    }
    var rows := Delivered(SelectPage(table, whereClauses, limit, offset), storage.breakAfter);
    assert rows == Delivered(Fetched(table, plan), storage.breakAfter);

    var transactions, totalIncome, totalExpenses := ScanAndTotal(rows);
    if transactions.None? {
      return Failure(StatusInternalServerError, ScanFailed), issued;
    }
    if storage.breakAfter.Some? {
      return Failure(StatusInternalServerError, CursorFailed), issued;
    }

    issued := issued + [CountQuery(whereClauses)];
    if storage.countFails {
      return Failure(StatusInternalServerError, CountFailed), issued;
    }
    var totalRecords := CountWhere(table, whereClauses);
    var totalPages := TotalPages(totalRecords, limit);

    var summary := TransactionSummary(totalIncome, totalExpenses, totalIncome - totalExpenses);
    assert summary == Totals(transactions.value);
    reply := Success(StatusOK, ResponseData(transactions.value, summary, PaginationInfo(page, totalPages, limit)));
  }

  /** The rows the WHERE list of a request keeps are the table's rows meeting its filters. */
  lemma PlanSelectsMatches(table: seq<Row>, q: QueryParams, parseFloat: string -> Option<real>)
    requires PlanOf(q, parseFloat).Some?
    ensures forall r :: r in Where(table, PlanOf(q, parseFloat).value.clauses) <==> r in table && MeetsFilters(q, parseFloat, r)
  {
    var clauses := PlanOf(q, parseFloat).value.clauses;
    WhereMembers(table, clauses);
    forall r
      ensures HoldsAll(clauses, r) <==> MeetsFilters(q, parseFloat, r)
    {
      FilterClausesMeaning(q, parseFloat, r);
    }
  }

  /** The rows of a 200: at most `limit` of them, in id order, each a table row meeting every
   *  filter, scanned in place; the summary totals them by lower-cased type. */
  lemma ListingRows(table: seq<Row>, q: QueryParams, parseFloat: string -> Option<real>, storage: ListStorage)
    requires IdOrdered(table)
    requires PlanOf(q, parseFloat).Some? && ListingReply(table, PlanOf(q, parseFloat).value, storage).Success?
    ensures
      var plan := PlanOf(q, parseFloat).value;
      var rows := Fetched(table, plan);
      var data := ListingReply(table, plan, storage).value;
      && IdOrdered(rows) && |data.transactions| == |rows| <= plan.limit
      && (forall i :: 0 <= i < |rows| ==>
            rows[i] in table && MeetsFilters(q, parseFloat, rows[i]) && ScanListed(rows[i]) == Some(data.transactions[i]))
      && data.summary.totalIncome == SumOfKind(data.transactions, Income)
      && data.summary.totalExpenses == SumOfKind(data.transactions, Expense)
      && data.summary.currentBalance == data.summary.totalIncome - data.summary.totalExpenses
  {
    var plan := PlanOf(q, parseFloat).value;
    var rows := Fetched(table, plan);
    FetchedIsThePage(table, plan);
    ScanAllMeaning(rows, ScanListed);
    forall i | 0 <= i < |rows|
      ensures MeetsFilters(q, parseFloat, rows[i])
    {
      assert rows[i] in rows;
      FilterClausesMeaning(q, parseFloat, rows[i]);
    }
  }

  /** The pagination of a 200: the effective page and limit, and, while matching + limit - 1
   *  fits in int64, the number of pages of `limit` rows that all matching rows fill, zero
   *  exactly when no row matches. Past that bound the count wraps to 0 or below although rows
   *  match. */
  lemma ListingPages(table: seq<Row>, q: QueryParams, parseFloat: string -> Option<real>, storage: ListStorage)
    requires PlanOf(q, parseFloat).Some? && ListingReply(table, PlanOf(q, parseFloat).value, storage).Success?
    ensures
      var plan := PlanOf(q, parseFloat).value;
      var info := ListingReply(table, plan, storage).value.pagination;
      var matching := CountWhere(table, plan.clauses);
      && info.currentPage == plan.page && info.perPage == plan.limit
      && (matching + plan.limit - 1 <= GoLib.MaxInt64 ==>
            && (info.totalPages - 1) * plan.limit < matching <= info.totalPages * plan.limit
            && (info.totalPages == 0 <==> forall r :: r in table ==> !MeetsFilters(q, parseFloat, r)))
      && (matching <= GoLib.MaxInt64 < matching + plan.limit - 1 ==>
            info.totalPages <= 0 && exists r :: r in table && MeetsFilters(q, parseFloat, r))
  {
    var plan := PlanOf(q, parseFloat).value;
    var kept := Where(table, plan.clauses);
    PlanSelectsMatches(table, q, parseFloat);
    if |kept| + plan.limit - 1 <= GoLib.MaxInt64 {
      TotalPagesIsCeiling(|kept|, plan.limit);
    } else if |kept| <= GoLib.MaxInt64 {
      TotalPagesOverflow(|kept|, plan.limit);
    }
    if kept != [] {
      assert kept[0] in kept;
    }
  }

  const DinnerOutRow := Row(1, "2024-05-01", Some(100.0), "Food", "expense", 1, Some("Dinner out"),
                           Some("http://example.com/receipt.jpg"))
  const MonthlySalaryRow := Row(2, "2024-05-01", Some(200.0), "Salary", "income", 1, Some("Monthly salary"),
                               Some("http://example.com/salary.jpg"))
  const DinnerOut := Transaction("1", "2024-05-01", 100.0, "Food", "expense", 1, "Dinner out",
                                 "http://example.com/receipt.jpg")
  const MonthlySalary := Transaction("2", "2024-05-01", 200.0, "Salary", "income", 1, "Monthly salary",
                                     "http://example.com/salary.jpg")

  /** The listing test: `?page=1&limit=2` over a dinner expense and a salary income gives both
   *  rows, their totals, and one page of two. */
  lemma ListingScenario(parseFloat: string -> Option<real>)
    ensures PlanOf(QueryParams("1", "2", "", "", "", ""), parseFloat) == Some(Plan([True], 1, 2))
    ensures ListingReply([DinnerOutRow, MonthlySalaryRow], Plan([True], 1, 2), ListStorage(false, None, false))
            == Success(StatusOK, ResponseData([DinnerOut, MonthlySalary], TransactionSummary(200.0, 100.0, 100.0),
                                              PaginationInfo(1, 1, 2)))
  {
    ScenarioPlan(parseFloat);
    ScenarioReply();
  }

  lemma ScenarioPlan(parseFloat: string -> Option<real>)
    ensures PlanOf(QueryParams("1", "2", "", "", "", ""), parseFloat) == Some(Plan([True], 1, 2))
  {
    assert GoLib.Decimal("1") == Some(1) && GoLib.Decimal("2") == Some(2) by {
      GoLib.DecimalFormatNat(1);
      GoLib.DecimalFormatNat(2);
    }
    NoFiltersKeepEveryRow(QueryParams("1", "2", "", "", "", ""), parseFloat, []);
  }

  lemma ScenarioReply()
    ensures ListingReply([DinnerOutRow, MonthlySalaryRow], Plan([True], 1, 2), ListStorage(false, None, false))
            == Success(StatusOK, ResponseData([DinnerOut, MonthlySalary], TransactionSummary(200.0, 100.0, 100.0),
                                              PaginationInfo(1, 1, 2)))
  {
    var table := [DinnerOutRow, MonthlySalaryRow];
    var plan := Plan([True], 1, 2);
    WhereTrue(table);
    assert Fetched(table, plan) == table;
    ListingScans();
    ListingTotals(DinnerOut, MonthlySalary);
    assert TotalPages(2, 2) == 1;
  }

  /** `?limit=99999999999999999999x`: strconv.Atoi stops at the overflowing digits before the
   *  'x', so the limit is the largest int64 rather than 10; over the dinner and salary rows
   *  the page count (2 + limit - 1) / limit wraps to -1. */
  lemma OverlongLimitScenario(parseFloat: string -> Option<real>)
    ensures PlanOf(QueryParams("", GoLib.TwentyNines + "x", "", "", "", ""), parseFloat)
            == Some(Plan([True], 1, GoLib.MaxInt64))
    ensures ListingReply([DinnerOutRow, MonthlySalaryRow], Plan([True], 1, GoLib.MaxInt64), ListStorage(false, None, false))
            == Success(StatusOK, ResponseData([DinnerOut, MonthlySalary], TransactionSummary(200.0, 100.0, 100.0),
                                              PaginationInfo(1, -1, GoLib.MaxInt64)))
  {
    GoLib.OverlongDigitsThenLetter();
    assert !GoLib.ReadOverflows("");
    NoFiltersKeepEveryRow(QueryParams("", GoLib.TwentyNines + "x", "", "", "", ""), parseFloat, []);
    var table := [DinnerOutRow, MonthlySalaryRow];
    var plan := Plan([True], 1, GoLib.MaxInt64);
    WhereTrue(table);
    assert Fetched(table, plan) == table;
    ListingScans();
    ListingTotals(DinnerOut, MonthlySalary);
    assert GoLib.Wrap64(2 + GoLib.MaxInt64 - 1) == GoLib.MinInt64;
    assert TotalPages(2, GoLib.MaxInt64) == -1;
  }

  lemma ListingScans()
    ensures ScanAll([DinnerOutRow, MonthlySalaryRow], ScanListed) == Some([DinnerOut, MonthlySalary])
  {
    var a, b := DinnerOut, MonthlySalary;
    assert GoLib.DigitChar(1) == '1' && GoLib.DigitChar(2) == '2';
    assert ScanListed(DinnerOutRow) == Some(a) && ScanListed(MonthlySalaryRow) == Some(b);
    var one, two := [DinnerOutRow], [DinnerOutRow, MonthlySalaryRow];
    assert one[..0] == [] && ScanAll(one[..0], ScanListed) == Some([]);
    assert [] + [a] == [a];
    assert ScanAll(one, ScanListed) == Some([a]);
    assert two[..1] == one && two[1] == MonthlySalaryRow;
    assert [a] + [b] == [a, b];
  }

  lemma ListingTotals(a: Transaction, b: Transaction)
    requires a.transactionType == "expense" && a.amount == 100.0
    requires b.transactionType == "income" && b.amount == 200.0
    ensures Totals([a, b]) == TransactionSummary(200.0, 100.0, 100.0)
  {
    LowerCaseKinds();
    SumOfKindOfTwo(a, b, Income);
    SumOfKindOfTwo(a, b, Expense);
  }

  lemma LowerCaseKinds()
    ensures KindOf("expense") == Expense && KindOf("income") == Income
  {
    ExpenseKind();
    IncomeKind();
  }

  lemma ExpenseKind()
    ensures KindOf("expense") == Expense
  {
    assert GoLib.ToLower("expense") == "expense" by { GoLib.ToLowerKeepsLower("expense"); }
  }

  lemma IncomeKind()
    ensures KindOf("income") == Income
  {
    assert GoLib.ToLower("income") == "income" by { GoLib.ToLowerKeepsLower("income"); }
  }

  /** Go lower-cases U+0130 to 'i', so a type written with it in place of "I" is income. */
  lemma DottedCapitalIncome()
    ensures KindOf([GoLib.DottedCapitalI] + "ncome") == Income
  {
    var t := [GoLib.DottedCapitalI] + "ncome";
    assert t[1..] == "ncome";
    assert GoLib.ToLower("ncome") == "ncome" by { GoLib.ToLowerKeepsLower("ncome"); }
    assert GoLib.ToLower(t) == "income";
  }

  lemma SumOfKindOfTwo(a: Transaction, b: Transaction, k: Kind)
    ensures SumOfKind([a, b], k) ==
      (if KindOf(a.transactionType) == k then a.amount else 0.0) + (if KindOf(b.transactionType) == k then b.amount else 0.0)
  {
    var one, two := [a], [a, b];
    assert one[..0] == [] && two[..1] == one && two[1] == b;
    assert SumOfKind(one, k) == SumOfKind([], k) + (if KindOf(a.transactionType) == k then a.amount else 0.0);
    assert SumOfKind(two, k) == SumOfKind(one, k) + (if KindOf(b.transactionType) == k then b.amount else 0.0);
  }
}
