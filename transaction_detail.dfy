/** api/transaction/transactionDetail.go: one spender's transactions a page at a time, with
 *  the spender-wide summary grafted on, and the summary on its own. */
module TransactionDetail {
  import opened Wrappers
  import opened Database
  import opened Transactions
  import GoLib

  const PageMessage := "Please check your page number"
  const LimitMessage := "Please check your page limit"
  const ServerMessage := "Please check server logs"

  /** How the database reads the text id bound to the integer spender_id column: as the
   *  decimal integer it denotes. */
  function SpenderParam(id: string): (spender: Option<int>)
  {
    GoLib.Decimal(id)
  }

  /** All rows of one spender, in table order. */
  function SpenderRows(table: seq<Row>, spender: int): (rows: seq<Row>)
  {
    Where(table, [SpenderIs(spender)])
  }

  /** A table holding one spender's rows only is all of that spender's rows. */
  lemma {:induction false} SpenderRowsOfOneSpender(table: seq<Row>, spender: int)
    requires forall i :: 0 <= i < |table| ==> table[i].spenderId == spender
    ensures SpenderRows(table, spender) == table
  {
    if table != [] {
      assert forall i :: 0 <= i < |table[1..]| ==> table[1..][i] == table[i + 1];
      SpenderRowsOfOneSpender(table[1..], spender);
      assert HoldsAll([SpenderIs(spender)], table[0]) by { assert [SpenderIs(spender)][1..] == []; }
    }
  }

  // ---------------------------------------------------------------------------
  // Postgres.GetTransactionDetailBySpenderId

  /** How storage behaves for one detail request: whether the row query or the count fails,
   *  and the page count Go's int conversion yields for an infinite or NaN quotient (limit 0),
   *  which the language leaves to the implementation. */
  datatype DetailStorage = DetailStorage(queryFails: bool, countFails: bool, nonFinitePages: int)

  /** rows.Scan straight into a Transaction: a NULL amount cannot go into a float64, nor a
   *  NULL note or image_url into a string. */
  function ScanDetail(r: Row): (scanned: Option<Transaction>)
  {
    if r.amount.None? || r.note.None? || r.imageUrl.None? then None
    else
      Some(Transaction(GoLib.FormatNat(r.id), r.date, r.amount.value, r.category, r.transactionType,
                       r.spenderId, r.note.value, r.imageUrl.value))
  }

  /** A detail row keeps every column and its id reads back as the row's id; any NULL among
   *  amount, note and image_url fails the scan. */
  lemma ScanDetailReadsRow(r: Row)
    ensures ScanDetail(r).None? <==> r.amount.None? || r.note.None? || r.imageUrl.None?
    ensures ScanDetail(r).Some? ==>
      var t := ScanDetail(r).value;
      && GoLib.Decimal(t.id) == Some(r.id as int)
      && r.amount == Some(t.amount) && t.date == r.date && t.category == r.category
      && t.transactionType == r.transactionType && t.spenderId == r.spenderId
      && r.note == Some(t.note) && r.imageUrl == Some(t.imageUrl)
  {
    GoLib.DecimalFormatNat(r.id);
  }

  /** `... WHERE spender_id = $1 OFFSET $2 LIMIT $3`: PostgreSQL refuses an id that is not an
   *  integer and a negative OFFSET or LIMIT. */
  function SpenderPage(table: seq<Row>, id: string, offset: int, limit: int): (page: Option<seq<Row>>)
  {
    match SpenderParam(id)
    case None => None
    case Some(spender) =>
      if offset < 0 || limit < 0 then None else Some(Window(SpenderRows(table, spender), offset, limit))
  }

  /** `int(math.Ceil(float64(total) / float64(limit)))`. */
  function PageCount(total: nat, limit: int, nonFinitePages: int): (pages: int)
  {
    if limit == 0 then nonFinitePages else GoLib.Ceil(total as real / limit as real)
  }

  /** For a positive limit the float ceiling is the integer formula (total + limit - 1) / limit,
   *  computed without wrap-around. */
  lemma PageCountIsCeilDiv(total: nat, limit: int, nonFinitePages: int)
    requires limit >= 1
    ensures PageCount(total, limit, nonFinitePages) == CeilDiv(total, limit)
  {
    var p: int := CeilDiv(total, limit);
    CeilDivIsCeiling(total, limit);
    var x := total as real / limit as real;
    QuotientBetween(p - 1, total, p, limit);
    Squeeze(GoLib.Ceil(x), p, x);
  }

  lemma CastProduct(a: int, b: int)
    ensures (a * b) as real == a as real * b as real
  {
  }

  /** lo*l < n <= hi*l puts n/l strictly above lo and at most hi. */
  lemma QuotientBetween(lo: int, n: int, hi: int, l: int)
    requires l >= 1 && lo * l < n <= hi * l
    ensures lo as real < n as real / l as real <= hi as real
  {
    var lr := l as real;
    CastProduct(lo, l);
    CastProduct(hi, l);
    LessDividing((lo * l) as real, n as real, lr);
    AtMostDividing(n as real, (hi * l) as real, lr);
    assert (lo as real * lr) / lr == lo as real;
    assert (hi as real * lr) / lr == hi as real;
  }

  /** Two integers in the same half-open unit interval are equal. */
  lemma Squeeze(c: int, p: int, x: real)
    requires x <= c as real < x + 1.0
    requires (p - 1) as real < x <= p as real
    ensures c == p
  {
  }

  lemma AtMostDividing(a: real, b: real, l: real)
    requires l > 0.0 && a <= b
    ensures a / l <= b / l
  {
    assert b / l - a / l == (b - a) / l;
  }

  lemma LessDividing(a: real, b: real, l: real)
    requires l > 0.0 && a < b
    ensures a / l < b / l
  {
    assert b / l - a / l == (b - a) / l;
  }

  /** `skip := (page - 1) * limit`, on Go's 64-bit int: both the subtraction and the
   *  product wrap around. */
  function Skip(page: GoLib.Int64, limit: GoLib.Int64): (skip: GoLib.Int64)
    ensures SkipFits(page, limit) ==> skip == (page - 1) * limit
  {
    GoLib.Wrap64(GoLib.Wrap64(page - 1) * limit)
  }

  /** The page and limit for which `(page - 1) * limit` does not leave the int64 range. */
  predicate SkipFits(page: int, limit: int)
  {
    page > GoLib.MinInt64 && GoLib.MinInt64 <= (page - 1) * limit <= GoLib.MaxInt64
  }

  const ZeroSummary := TransactionSummary(0.0, 0.0, 0.0)

  /** The zero value of TransactionWithDetail. */
  const EmptyDetail: TransactionWithDetail := ResponseData([], ZeroSummary, PaginationInfo(0, 0, 0))

  /** What the storage method returns (None stands for a non-nil error). A failed count
   *  returns the empty value with the earlier, nil, error. */
  function DetailOutcome(table: seq<Row>, id: string, page: GoLib.Int64, limit: GoLib.Int64, storage: DetailStorage)
    : (detail: Option<TransactionWithDetail>)
  {
    var skip := Skip(page, limit);
    if storage.queryFails then None
    else
      match SpenderPage(table, id, skip, limit)
      case None => None
      case Some(rows) =>
        match ScanAll(rows, ScanDetail)
        case None => None
        case Some(txs) =>
          if storage.countFails then Some(EmptyDetail)
          else
            var total := |SpenderRows(table, SpenderParam(id).value)|;
            Some(ResponseData(txs, ZeroSummary, PaginationInfo(page, PageCount(total, limit, storage.nonFinitePages), limit)))
  }

  method GetTransactionDetailBySpenderId(table: seq<Row>, id: string, page: GoLib.Int64, limit: GoLib.Int64,
                                         storage: DetailStorage)
    returns (detail: Option<TransactionWithDetail>)
    ensures detail == DetailOutcome(table, id, page, limit, storage)
  {
    var skip := GoLib.Wrap64(GoLib.Wrap64(page - 1) * limit);
    if storage.queryFails {
      return None;
    }
    var fetched := SpenderPage(table, id, skip, limit);
    if fetched.None? {
      return None;
    }
    var rows := fetched.value;

    var txs: seq<Transaction> := [];
    var i := 0;
    while i < |rows|
      invariant 0 <= i <= |rows|
      invariant ScanAll(rows[..i], ScanDetail) == Some(txs) && |txs| == i
    {
      var tx := ScanDetail(rows[i]);
      if tx.None? {
        ScanAllMeaning(rows, ScanDetail);
        return None;
      }
      assert rows[..i + 1][..i] == rows[..i];
      txs := txs + [tx.value];
      i := i + 1;
    }
    assert rows[..i] == rows;
    assert ScanAll(rows, ScanDetail) == Some(txs);

    if storage.countFails {
      return Some(EmptyDetail);
    }
    var total := |SpenderRows(table, SpenderParam(id).value)|;
    var totalPages := PageCount(total, limit, storage.nonFinitePages);
    detail := Some(ResponseData(txs, ZeroSummary, PaginationInfo(page, totalPages, limit)));
  }

  /** The page the spender's rows give from the offset `skip`. */
  function PageRows(table: seq<Row>, spender: int, page: GoLib.Int64, limit: GoLib.Int64): (rows: seq<Row>)
    requires Skip(page, limit) >= 0 && limit >= 0
  {
    Window(SpenderRows(table, spender), Skip(page, limit), limit)
  }

  /** A successful, counted page was read from a non-negative offset, which is (page-1)*limit
   *  with page >= 1 unless that product overflowed; it is the scan of the spender's rows
   *  there, with a zero summary and the page count as an integer ceiling. */
  lemma DetailShape(table: seq<Row>, id: string, page: GoLib.Int64, limit: GoLib.Int64, storage: DetailStorage)
    requires limit >= 1 && !storage.countFails
    requires DetailOutcome(table, id, page, limit, storage).Some?
    ensures SpenderParam(id).Some? && Skip(page, limit) >= 0
    ensures SkipFits(page, limit) ==> page >= 1 && Skip(page, limit) == (page - 1) * limit
    ensures
      var spender := SpenderParam(id).value;
      var pages := CeilDiv(|SpenderRows(table, spender)|, limit);
      && ScanAll(PageRows(table, spender, page, limit), ScanDetail).Some?
      && DetailOutcome(table, id, page, limit, storage) ==
         Some(ResponseData(ScanAll(PageRows(table, spender, page, limit), ScanDetail).value, ZeroSummary,
                           PaginationInfo(page, pages, limit)))
  {
    if SkipFits(page, limit) && page < 1 {
      NonPositivePageFails(table, id, page, limit, storage);
    }
    PageCountIsCeilDiv(|SpenderRows(table, SpenderParam(id).value)|, limit, storage.nonFinitePages);
  }

  /** A successful page holds at most `limit` rows, each the scan of the spender's row at the
   *  same position from offset `skip`, and so each of that spender. */
  lemma DetailPage(table: seq<Row>, id: string, page: GoLib.Int64, limit: GoLib.Int64, storage: DetailStorage)
    requires limit >= 1 && !storage.countFails
    requires DetailOutcome(table, id, page, limit, storage).Some?
    ensures SpenderParam(id).Some? && Skip(page, limit) >= 0
    ensures SkipFits(page, limit) ==> page >= 1
    ensures
      var spender := SpenderParam(id).value;
      var d := DetailOutcome(table, id, page, limit, storage).value;
      var rows := PageRows(table, spender, page, limit);
      && |d.transactions| == |rows| <= limit
      && (forall i :: 0 <= i < |rows| ==> ScanDetail(rows[i]) == Some(d.transactions[i]))
      && (forall t :: t in d.transactions ==> t.spenderId == spender)
  {
    DetailShape(table, id, page, limit, storage);
    var spender := SpenderParam(id).value;
    var rows := PageRows(table, spender, page, limit);
    var txs := ScanAll(rows, ScanDetail).value;
    ScanAllMeaning(rows, ScanDetail);
    PageRowsOfSpender(table, spender, page, limit);
    forall t | t in txs
      ensures t.spenderId == spender
    {
      var i :| 0 <= i < |txs| && txs[i] == t;
      assert rows[i] in rows;
    }
  }

  /** A page of a spender's rows holds at most `limit` rows, all of the table and of that
   *  spender. */
  lemma PageRowsOfSpender(table: seq<Row>, spender: int, page: GoLib.Int64, limit: GoLib.Int64)
    requires Skip(page, limit) >= 0 && limit >= 0
    ensures |PageRows(table, spender, page, limit)| <= limit
    ensures forall r :: r in PageRows(table, spender, page, limit) ==> r in table && r.spenderId == spender
  {
    var all := SpenderRows(table, spender);
    var rows := PageRows(table, spender, page, limit);
    WhereMembers(table, [SpenderIs(spender)]);
    forall r | r in rows
      ensures r in table && r.spenderId == spender
    {
      var k :| 0 <= k < |rows| && rows[k] == r;
      assert r == all[Skip(page, limit) + k];
      assert HoldsAll([SpenderIs(spender)], r);
    }
  }

  /** A negative `skip` asks PostgreSQL for a negative OFFSET, which it refuses. */
  lemma NegativeSkipFails(table: seq<Row>, id: string, page: GoLib.Int64, limit: GoLib.Int64, storage: DetailStorage)
    requires Skip(page, limit) < 0
    ensures DetailOutcome(table, id, page, limit, storage) == None
  {
  }

  /** Page 0 or below gives a negative OFFSET, and fails, as long as (page-1)*limit stays
   *  within int64; WrappedPageIsServed shows a page far below zero whose offset wraps to 0. */
  lemma NonPositivePageFails(table: seq<Row>, id: string, page: GoLib.Int64, limit: GoLib.Int64, storage: DetailStorage)
    requires limit >= 1 && page <= 0 && SkipFits(page, limit)
    ensures DetailOutcome(table, id, page, limit, storage) == None
  {
    NegativeProduct(page - 1, limit);
    assert Skip(page, limit) == (page - 1) * limit;
    NegativeSkipFails(table, id, page, limit, storage);
  }

  lemma NegativeProduct(a: int, b: int)
    requires a < 0 && b > 0
    ensures a * b < 0
  {
  }

  /** `(page - 1) * limit` is -2^64 for this page and limit 4, which Go's int wraps to 0. */
  const WrappingPage: int := 1 - 0x4000_0000_0000_0000

  /** PostgreSQL is asked for OFFSET 0, so the far-negative page is served as the first one. */
  lemma WrappedPageIsServed()
    ensures (WrappingPage - 1) * 4 == -GoLib.TwoTo64 && Skip(WrappingPage, 4) == 0
    ensures DetailOutcome([LunchRow, SalaryRow], "1", WrappingPage, 4, DetailStorage(false, false, 0))
            == Some(ResponseData([Lunch, Salary], ZeroSummary, PaginationInfo(WrappingPage, 1, 4)))
  {
    var table := [LunchRow, SalaryRow];
    assert GoLib.Wrap64(WrappingPage - 1) == WrappingPage - 1;
    assert GoLib.Wrap64(-GoLib.TwoTo64) == 0;
    assert GoLib.Decimal("1") == Some(1) by { GoLib.DecimalFormatNat(1); }
    SpenderRowsOfOneSpender(table, 1);
    assert Window(table, 0, 4) == table;
    ScenarioScans();
    PageCountIsCeilDiv(2, 4, 0);
    assert CeilDiv(2, 4) == 1;
  }

  /** A failed count after a readable page is not reported: the method hands back the empty
   *  value and no error. */
  lemma CountFailureIsSwallowed(table: seq<Row>, id: string, page: GoLib.Int64, limit: GoLib.Int64, storage: DetailStorage)
    requires storage.countFails && !storage.queryFails
    requires SpenderPage(table, id, Skip(page, limit), limit).Some?
    requires ScanAll(SpenderPage(table, id, Skip(page, limit), limit).value, ScanDetail).Some?
    ensures DetailOutcome(table, id, page, limit, storage) == Some(EmptyDetail)
  {
  }

  // ---------------------------------------------------------------------------
  // Postgres.GetTransactionSummaryBySpenderId

  /** The one row the aggregate query returns. */
  datatype SumRow = SumRow(totalIncome: Option<real>, totalExpenses: Option<real>, currentBalance: Option<real>)

  /** `CASE WHEN transaction_type = 'income' THEN amount ELSE 0 END` (a case-sensitive match). */
  function IncomeColumn(r: Row): (v: Option<real>)
  {
    if r.transactionType == "income" then r.amount else Some(0.0)
  }

  /** `CASE WHEN transaction_type = 'expense' THEN amount ELSE 0 END`. */
  function ExpenseColumn(r: Row): (v: Option<real>)
  {
    if r.transactionType == "expense" then r.amount else Some(0.0)
  }

  /** `CASE WHEN transaction_type = 'income' THEN amount ELSE -amount END`. */
  function BalanceColumn(r: Row): (v: Option<real>)
  {
    if r.transactionType == "income" then r.amount
    else match r.amount
      case None => None
      case Some(a) => Some(-a)
  }

  /** The result of the aggregate query over one spender's rows. */
  function SummaryQuery(table: seq<Row>, spender: int): (sumRows: seq<SumRow>)
  {
    var rows := SpenderRows(table, spender);
    [SumRow(SqlSum(rows, IncomeColumn), SqlSum(rows, ExpenseColumn), SqlSum(rows, BalanceColumn))]
  }

  /** Scanning aggregate rows into three float64 variables: a NULL cannot be scanned, and the
   *  last row read is the one kept. */
  function ScanSums(rows: seq<SumRow>): (scanned: Option<(real, real, real)>)
  {
    if rows == [] then Some((0.0, 0.0, 0.0))
    else
      match ScanSums(rows[..|rows| - 1])
      case None => None
      case Some(_) =>
        var last := rows[|rows| - 1];
        if last.totalIncome.None? || last.totalExpenses.None? || last.currentBalance.None? then None
        else Some((last.totalIncome.value, last.totalExpenses.value, last.currentBalance.value))
  }

  /** What the storage method returns: the scanned totals with the balance recomputed as
   *  income minus expenses (the balance column is read but not used). */
  function SummaryOutcome(table: seq<Row>, id: string, queryFails: bool): (summary: Option<TransactionSummary>)
  {
    match SpenderParam(id)
    case None => None
    case Some(spender) =>
      if queryFails then None
      else
        match ScanSums(SummaryQuery(table, spender))
        case None => None
        case Some((income, expenses, _)) => Some(TransactionSummary(income, expenses, income - expenses))
  }

  method GetTransactionSummaryBySpenderId(table: seq<Row>, id: string, queryFails: bool)
    returns (summary: Option<TransactionSummary>)
    ensures summary == SummaryOutcome(table, id, queryFails)
  {
    var spender := SpenderParam(id);
    if spender.None? || queryFails {
      return None;
    }
    var rows := SummaryQuery(table, spender.value);

    var totalIncome, totalExpenses, currentBalance := 0.0, 0.0, 0.0;
    var i := 0;
    while i < |rows|
      invariant 0 <= i <= |rows|
      invariant ScanSums(rows[..i]) == Some((totalIncome, totalExpenses, currentBalance))
    {
      var row := rows[i];
      if row.totalIncome.None? || row.totalExpenses.None? || row.currentBalance.None? {
        assert rows[..i + 1][..i] == rows[..i];
        assert ScanSums(rows[..i + 1]) == None;
        ghost var k := i + 1;
        assert forall n :: k <= n <= |rows| ==> rows[..n][..k] == rows[..k];
        ScanSumsStaysFailed(rows, k);
        return None;
      }
      assert rows[..i + 1][..i] == rows[..i];
      totalIncome, totalExpenses, currentBalance := row.totalIncome.value, row.totalExpenses.value, row.currentBalance.value;
      i := i + 1;
    }
    assert rows[..i] == rows;
    summary := Some(TransactionSummary(totalIncome, totalExpenses, totalIncome - totalExpenses));
  }

  /** Once a scan has failed, reading further rows does not recover. */
  lemma {:induction false} ScanSumsStaysFailed(rows: seq<SumRow>, k: nat)
    requires k <= |rows| && ScanSums(rows[..k]) == None
    ensures ScanSums(rows) == None
    decreases |rows| - k
  {
    if k < |rows| {
      assert rows[..k + 1][..k] == rows[..k];
      ScanSumsStaysFailed(rows, k + 1);
    } else {
      assert rows[..k] == rows;
    }
  }

  /** The amounts of the rows whose type is exactly `typeName`. */
  function ExactTotal(rows: seq<Row>, typeName: string): (total: real)
  {
    if rows == [] then 0.0
    else (if rows[0].transactionType == typeName && rows[0].amount.Some? then rows[0].amount.value else 0.0) + ExactTotal(rows[1..], typeName)
  }

  /** Some row has a (non-NULL) amount. */
  predicate SomeAmount(rows: seq<Row>)
  {
    exists i :: 0 <= i < |rows| && rows[i].amount.Some?
  }

  /** Over rows on which the CASE column is NULL throughout, the exact-match total is 0. */
  lemma {:induction false} ExactTotalOfNullColumn(rows: seq<Row>, column: Row -> Option<real>, typeName: string)
    requires forall r :: column(r) == if r.transactionType == typeName then r.amount else Some(0.0)
    requires forall i :: 0 <= i < |rows| ==> column(rows[i]).None?
    ensures ExactTotal(rows, typeName) == 0.0
  {
    if rows != [] {
      assert forall i :: 0 <= i < |rows[1..]| ==> rows[1..][i] == rows[i + 1];
      ExactTotalOfNullColumn(rows[1..], column, typeName);
    }
  }

  /** SUM(CASE WHEN type = t THEN amount ELSE 0 END) is the total of the non-NULL amounts of
   *  the rows typed exactly t, as long as the CASE column is not NULL on every row. */
  lemma {:induction false} ConditionalSum(rows: seq<Row>, column: Row -> Option<real>, typeName: string)
    requires forall r :: column(r) == if r.transactionType == typeName then r.amount else Some(0.0)
    requires exists i :: 0 <= i < |rows| && column(rows[i]).Some?
    ensures SqlSum(rows, column) == Some(ExactTotal(rows, typeName))
  {
    var rest := rows[1..];
    assert forall i :: 0 <= i < |rest| ==> rest[i] == rows[i + 1];
    if exists i :: 0 <= i < |rest| && column(rest[i]).Some? {
      ConditionalSum(rest, column, typeName);
    } else {
      SqlSumIsNullIffAllNull(rest, column);
      ExactTotalOfNullColumn(rest, column, typeName);
    }
  }

  /** For a spender with at least one amount, the summary is the case-sensitive income total,
   *  the expense total and their difference, NULL amounts counting as nothing. */
  lemma SpenderSummary(table: seq<Row>, id: string, spender: int)
    requires SpenderParam(id) == Some(spender)
    requires SomeAmount(SpenderRows(table, spender))
    ensures
      var rows := SpenderRows(table, spender);
      var income := ExactTotal(rows, "income");
      var expenses := ExactTotal(rows, "expense");
      SummaryOutcome(table, id, false) == Some(TransactionSummary(income, expenses, income - expenses))
  {
    var rows := SpenderRows(table, spender);
    SumsOfSomeAmount(rows);
    var sums := SummaryQuery(table, spender);
    assert sums[..0] == [];
    assert ScanSums(sums) == Some((ExactTotal(rows, "income"), ExactTotal(rows, "expense"), SqlSum(rows, BalanceColumn).value));
  }

  /** With some amount present, none of the three sums is NULL, and the two CASE sums are
   *  the exact-match totals. */
  lemma SumsOfSomeAmount(rows: seq<Row>)
    requires SomeAmount(rows)
    ensures SqlSum(rows, IncomeColumn) == Some(ExactTotal(rows, "income"))
    ensures SqlSum(rows, ExpenseColumn) == Some(ExactTotal(rows, "expense"))
    ensures SqlSum(rows, BalanceColumn).Some?
  {
    var i :| 0 <= i < |rows| && rows[i].amount.Some?;
    assert IncomeColumn(rows[i]).Some? && ExpenseColumn(rows[i]).Some? && BalanceColumn(rows[i]).Some?;
    ConditionalSum(rows, IncomeColumn, "income");
    ConditionalSum(rows, ExpenseColumn, "expense");
    SqlSumIsNullIffAllNull(rows, BalanceColumn);
  }

  /** The summary fails exactly when no row of the spender has an amount, the spender without
   *  rows included: the balance sum is then NULL and cannot be scanned into a float64. */
  lemma SummaryFailsIffNoAmount(table: seq<Row>, id: string, spender: int)
    requires SpenderParam(id) == Some(spender)
    ensures SummaryOutcome(table, id, false).None? <==> !SomeAmount(SpenderRows(table, spender))
  {
    var rows := SpenderRows(table, spender);
    if SomeAmount(rows) {
      SpenderSummary(table, id, spender);
    } else {
      assert forall i :: 0 <= i < |rows| ==> BalanceColumn(rows[i]).None?;
      SqlSumIsNullIffAllNull(rows, BalanceColumn);
      var sums := SummaryQuery(table, spender);
      assert sums[..0] == [];
    }
  }

  /** A spender with no rows gets NULL sums, which cannot be scanned into a float64: the
   *  summary fails. */
  lemma SpenderWithoutRowsFails(table: seq<Row>, id: string, spender: int, queryFails: bool)
    requires SpenderParam(id) == Some(spender) && SpenderRows(table, spender) == []
    ensures SummaryOutcome(table, id, queryFails) == None
  {
  }

  // ---------------------------------------------------------------------------
  // The handlers

  /** The calls a handler makes on its TxDetailStorer. */
  datatype StorerCall = DetailCall(id: string, page: int, limit: int) | SummaryCall(id: string)

  /** A query parameter read with a default: absent gives the default, present goes through
   *  strconv.Atoi with no clamping. */
  function ParamOr(raw: string, fallback: GoLib.Int64): (v: Option<GoLib.Int64>)
    ensures raw == "" ==> v == Some(fallback)
    ensures raw != "" ==> v == GoLib.Atoi(raw)
  {
    if raw == "" then Some(fallback) else GoLib.Atoi(raw)
  }

  /** GetTransactionDetailBySpenderIdHandler over any storer, given as two functions. */
  function GetTransactionDetailBySpenderIdHandler(
    id: string, rawPage: string, rawLimit: string,
    detail: (string, GoLib.Int64, GoLib.Int64) -> Option<TransactionWithDetail>,
    summary: string -> Option<TransactionSummary>): (ex: Exchange<TransactionWithDetail, StorerCall>)
    // a bad page is reported first; either bad parameter means the storer is never called
    ensures ParamOr(rawPage, 1).None? ==> ex == Exchange(Failure(StatusBadRequest, PageMessage), [])
    ensures ParamOr(rawPage, 1).Some? && ParamOr(rawLimit, 10).None? ==>
      ex == Exchange(Failure(StatusBadRequest, LimitMessage), [])
    ensures ex.calls == [] <==> ex.reply.status == StatusBadRequest
    // otherwise the storer gets the parsed page and limit unchanged, and the summary is
    // asked for only after the page query succeeded
    ensures ex.calls != [] ==>
      && ex.calls[0] == DetailCall(id, ParamOr(rawPage, 1).value, ParamOr(rawLimit, 10).value)
      && (ex.calls == [ex.calls[0]] <==> detail(id, ParamOr(rawPage, 1).value, ParamOr(rawLimit, 10).value).None?)
    ensures ex.reply.Failure? && ex.calls != [] ==> ex.reply == Failure(StatusInternalServerError, ServerMessage)
    // on success the page's summary is replaced by the spender's summary
    ensures ex.reply.Success? ==>
      var page := detail(id, ParamOr(rawPage, 1).value, ParamOr(rawLimit, 10).value);
      && page.Some? && summary(id).Some?
      && ex.calls == [DetailCall(id, ParamOr(rawPage, 1).value, ParamOr(rawLimit, 10).value), SummaryCall(id)]
      && ex.reply == Success(StatusOK, ResponseData(page.value.transactions, summary(id).value, page.value.pagination))
  {
    var page := ParamOr(rawPage, 1);
    if page.None? then Exchange(Failure(StatusBadRequest, PageMessage), [])
    else
      var limit := ParamOr(rawLimit, 10);
      if limit.None? then Exchange(Failure(StatusBadRequest, LimitMessage), [])
      else
        var call := DetailCall(id, page.value, limit.value);
        match detail(id, page.value, limit.value)
        case None => Exchange(Failure(StatusInternalServerError, ServerMessage), [call])
        case Some(txDetail) =>
          match summary(id)
          case None => Exchange(Failure(StatusInternalServerError, ServerMessage), [call, SummaryCall(id)])
          case Some(txSum) => Exchange(Success(StatusOK, txDetail.(summary := txSum)), [call, SummaryCall(id)])
  }

  /** GetTransactionSummaryBySpenderIdHandler: the storer's summary unchanged, or a 500. */
  function GetTransactionSummaryBySpenderIdHandler(id: string, summary: string -> Option<TransactionSummary>): (reply: Reply<TransactionSummary>)
    ensures reply.Success? <==> summary(id).Some?
    ensures reply.Success? ==> reply == Success(StatusOK, summary(id).value)
    ensures reply.Failure? ==> reply == Failure(StatusInternalServerError, ServerMessage)
  {
    match summary(id)
    case None => Failure(StatusInternalServerError, ServerMessage)
    case Some(s) => Success(StatusOK, s)
  }

  /** With the PostgreSQL storer, the summary on every page is the summary endpoint's: it
   *  covers all of the spender's rows whatever page and limit were asked for. */
  lemma GraftedSummaryIsSpenderWide(table: seq<Row>, id: string, rawPage: string, rawLimit: string,
                                    storage: DetailStorage, summaryFails: bool)
    ensures
      var ex := GetTransactionDetailBySpenderIdHandler(id, rawPage, rawLimit,
                  (i: string, p: GoLib.Int64, l: GoLib.Int64) => DetailOutcome(table, i, p, l, storage),
                  i => SummaryOutcome(table, i, summaryFails));
      var own := GetTransactionSummaryBySpenderIdHandler(id, i => SummaryOutcome(table, i, summaryFails));
      ex.reply.Success? ==> own.Success? && ex.reply.value.summary == own.value
  {
  }

  /** A present page or limit is read exactly, with no clamping and no default: the text of
   *  every int64, zero and negatives included, gives that number, and the text of any other
   *  integer is refused. */
  lemma ParamOrReadsEveryInt(n: int, fallback: GoLib.Int64)
    ensures ParamOr(GoLib.IntText(n), fallback) == if GoLib.MinInt64 <= n <= GoLib.MaxInt64 then Some(n) else None
  {
    GoLib.AtoiIntText(n);
  }

  /** Unlike the listing, which turns page 0 into page 1, the detail handler keeps page 0. */
  lemma ParamOrKeepsZero()
    ensures ParamOr("0", 1) == Some(0) && Defaulted("0", 1) == 1
  {
    assert GoLib.Decimal("0") == Some(0) by {
      GoLib.DecimalFormatNat(0);
      assert GoLib.DigitChar(0) == '0';
    }
  }

  /** The storer gets exactly the page and limit the request wrote, for any int64 values. */
  lemma HandlerReadsPageAndLimit(id: string, page: GoLib.Int64, limit: GoLib.Int64,
                                 detail: (string, GoLib.Int64, GoLib.Int64) -> Option<TransactionWithDetail>,
                                 summary: string -> Option<TransactionSummary>)
    ensures
      var ex := GetTransactionDetailBySpenderIdHandler(id, GoLib.IntText(page), GoLib.IntText(limit), detail, summary);
      ex.calls != [] && ex.calls[0] == DetailCall(id, page, limit)
  {
    ParamOrReadsEveryInt(page, 1);
    ParamOrReadsEveryInt(limit, 10);
  }

  /** With the PostgreSQL storer, a failed count behind a readable page reaches the client as
   *  a 200 carrying no transactions, zero pagination and the spender's summary. */
  lemma CountFailureAnswersOk(table: seq<Row>, id: string, rawPage: string, rawLimit: string, storage: DetailStorage)
    requires storage.countFails && !storage.queryFails
    requires ParamOr(rawPage, 1).Some? && ParamOr(rawLimit, 10).Some?
    requires
      var page := ParamOr(rawPage, 1).value;
      var limit := ParamOr(rawLimit, 10).value;
      && SpenderPage(table, id, Skip(page, limit), limit).Some?
      && ScanAll(SpenderPage(table, id, Skip(page, limit), limit).value, ScanDetail).Some?
    requires SummaryOutcome(table, id, false).Some?
    ensures
      GetTransactionDetailBySpenderIdHandler(id, rawPage, rawLimit,
        (i: string, p: GoLib.Int64, l: GoLib.Int64) => DetailOutcome(table, i, p, l, storage), i => SummaryOutcome(table, i, false)).reply
      == Success(StatusOK, ResponseData([], SummaryOutcome(table, id, false).value, PaginationInfo(0, 0, 0)))
  {
    CountFailureIsSwallowed(table, id, ParamOr(rawPage, 1).value, ParamOr(rawLimit, 10).value, storage);
  }

  // ---------------------------------------------------------------------------
  // The scenarios of the package's tests

  const LunchRow := Row(1, "2024-04-30T09:00:00.000Z", Some(1000.0), "Food", "expense", 1,
                        Some("Lunch"), Some("https://example.com/image1.jpg"))
  const SalaryRow := Row(2, "2024-04-29T19:00:00.000Z", Some(2000.0), "Transport", "income", 1,
                         Some("Salary"), Some("https://example.com/image2.jpg"))
  const Lunch := Transaction("1", "2024-04-30T09:00:00.000Z", 1000.0, "Food", "expense", 1,
                             "Lunch", "https://example.com/image1.jpg")
  const Salary := Transaction("2", "2024-04-29T19:00:00.000Z", 2000.0, "Transport", "income", 1,
                              "Salary", "https://example.com/image2.jpg")

  /** No page or limit given for spender "1" with a stub storer: the stub's page with the
   *  stub's summary in place of its own, after one call of each kind. */
  lemma StubStorerScenario()
    ensures
      var stubPage := ResponseData([Lunch, Salary], ZeroSummary, PaginationInfo(1, 1, 10));
      var stubSummary := TransactionSummary(2000.0, 1000.0, 1000.0);
      GetTransactionDetailBySpenderIdHandler("1", "", "", (i, p, l) => Some(stubPage), i => Some(stubSummary))
      == Exchange(Success(StatusOK, ResponseData([Lunch, Salary], stubSummary, PaginationInfo(1, 1, 10))),
                  [DetailCall("1", 1, 10), SummaryCall("1")])
  {
  }

  /** `?page=NotInt` and `?page=1&limit=NotInt` are refused before the storer is reached. */
  lemma BadParameterScenarios(detail: (string, GoLib.Int64, GoLib.Int64) -> Option<TransactionWithDetail>,
                              summary: string -> Option<TransactionSummary>)
    ensures GetTransactionDetailBySpenderIdHandler("1", "NotInt", "", detail, summary)
            == Exchange(Failure(StatusBadRequest, PageMessage), [])
    ensures GetTransactionDetailBySpenderIdHandler("1", "1", "NotInt", detail, summary)
            == Exchange(Failure(StatusBadRequest, LimitMessage), [])
  {
    assert !GoLib.IsDigits("NotInt") by { assert !GoLib.IsDigit("NotInt"[0]); }
    assert !GoLib.IsDigits("otInt") by { assert !GoLib.IsDigit("otInt"[0]); }
    assert GoLib.Atoi("1") == Some(1) by { GoLib.DecimalFormatNat(1); }
  }

  /** Against PostgreSQL holding the two rows of spender 1, the default page is both rows with
   *  the spender's totals and a single page of ten. */
  lemma PostgresScenario()
    ensures
      var table := [LunchRow, SalaryRow];
      GetTransactionDetailBySpenderIdHandler("1", "", "",
        (i: string, p: GoLib.Int64, l: GoLib.Int64) => DetailOutcome(table, i, p, l, DetailStorage(false, false, 0)),
        i => SummaryOutcome(table, i, false)).reply
      == Success(StatusOK, ResponseData([Lunch, Salary], TransactionSummary(2000.0, 1000.0, 1000.0),
                                        PaginationInfo(1, 1, 10)))
  {
    ScenarioDetail();
    ScenarioSummary();
  }

  lemma ScenarioDetail()
    ensures DetailOutcome([LunchRow, SalaryRow], "1", 1, 10, DetailStorage(false, false, 0))
            == Some(ResponseData([Lunch, Salary], ZeroSummary, PaginationInfo(1, 1, 10)))
  {
    var table := [LunchRow, SalaryRow];
    assert GoLib.Atoi("1") == Some(1) by { GoLib.DecimalFormatNat(1); }
    SpenderRowsOfOneSpender(table, 1);
    assert Window(table, 0, 10) == table;
    ScenarioScans();
    PageCountIsCeilDiv(2, 10, 0);
    assert CeilDiv(2, 10) == 1;
  }

  lemma ScenarioSummary()
    ensures SummaryOutcome([LunchRow, SalaryRow], "1", false) == Some(TransactionSummary(2000.0, 1000.0, 1000.0))
  {
    var table := [LunchRow, SalaryRow];
    assert GoLib.Atoi("1") == Some(1) by { GoLib.DecimalFormatNat(1); }
    SpenderRowsOfOneSpender(table, 1);
    assert SpenderRows(table, 1)[0].amount.Some?;
    SpenderSummary(table, "1", 1);
    ExactTotalOfTwo(LunchRow, SalaryRow, "income");
    ExactTotalOfTwo(LunchRow, SalaryRow, "expense");
  }

  /** `?page=-4611686018427387903&limit=4` for spender 1: the offset wraps to 0, and the
   *  handler answers 200 with the first page under that page number. */
  lemma WrappedPageScenario()
    ensures
      var table := [LunchRow, SalaryRow];
      GetTransactionDetailBySpenderIdHandler("1", GoLib.IntText(WrappingPage), "4",
        (i: string, p: GoLib.Int64, l: GoLib.Int64) => DetailOutcome(table, i, p, l, DetailStorage(false, false, 0)),
        i => SummaryOutcome(table, i, false)).reply
      == Success(StatusOK, ResponseData([Lunch, Salary], TransactionSummary(2000.0, 1000.0, 1000.0),
                                        PaginationInfo(WrappingPage, 1, 4)))
  {
    ParamOrReadsEveryInt(WrappingPage, 1);
    assert GoLib.Atoi("4") == Some(4) by {
      GoLib.DecimalFormatNat(4);
      assert GoLib.DigitChar(4) == '4';
    }
    WrappedPageIsServed();
    ScenarioSummary();
  }

  const NullIncomeRow := Row(1, "2024-05-03", None, "Gift", "income", 7, Some(""), Some(""))
  const SmallExpenseRow := Row(2, "2024-05-03", Some(5.0), "Food", "expense", 7, Some(""), Some(""))

  /** A NULL amount counts as nothing, while the spender's other amounts are still summed. */
  lemma NullAmountIsSkipped()
    ensures SummaryOutcome([NullIncomeRow, SmallExpenseRow], "7", false) == Some(TransactionSummary(0.0, 5.0, -5.0))
  {
    var table := [NullIncomeRow, SmallExpenseRow];
    assert GoLib.Decimal("7") == Some(7) by { GoLib.DecimalFormatNat(7); }
    SpenderRowsOfOneSpender(table, 7);
    assert SpenderRows(table, 7)[1].amount.Some?;
    SpenderSummary(table, "7", 7);
    ExactTotalOfTwo(NullIncomeRow, SmallExpenseRow, "income");
    ExactTotalOfTwo(NullIncomeRow, SmallExpenseRow, "expense");
  }

  lemma ExactTotalOfTwo(a: Row, b: Row, typeName: string)
    ensures ExactTotal([a, b], typeName) ==
      (if a.transactionType == typeName && a.amount.Some? then a.amount.value else 0.0) +
      (if b.transactionType == typeName && b.amount.Some? then b.amount.value else 0.0)
  {
    var both, last := [a, b], [b];
    assert both[1..] == last && last[1..] == [];
    assert ExactTotal(last, typeName) == (if b.transactionType == typeName && b.amount.Some? then b.amount.value else 0.0);
  }

  const UpperIncomeRow := Row(1, "2024-05-01", Some(50.0), "Gift", "Income", 7, Some(""), Some(""))
  const TransferRow := Row(2, "2024-05-02", Some(10.0), "Bank", "transfer", 7, Some(""), Some(""))

  /** The summary matches type names exactly, where the listing lower-cases them: a row typed
   *  "Income" counts as income in the listing but in neither summary total. A "transfer" row
   *  counts in neither, although the balance column would subtract it. */
  lemma TypeMatchingDiffers()
    ensures KindOf(UpperIncomeRow.transactionType) == Income
    ensures SummaryOutcome([UpperIncomeRow, TransferRow], "7", false) == Some(TransactionSummary(0.0, 0.0, 0.0))
    ensures SqlSum([UpperIncomeRow, TransferRow], BalanceColumn) == Some(-60.0)
  {
    LowerIncome();
    SummaryOfOtherTypes();
    BalanceOfOtherTypes();
  }

  lemma SummaryOfOtherTypes()
    ensures SummaryOutcome([UpperIncomeRow, TransferRow], "7", false) == Some(TransactionSummary(0.0, 0.0, 0.0))
  {
    var table := [UpperIncomeRow, TransferRow];
    assert GoLib.Decimal("7") == Some(7) by { GoLib.DecimalFormatNat(7); }
    SpenderRowsOfOneSpender(table, 7);
    assert SpenderRows(table, 7)[0].amount.Some?;
    SpenderSummary(table, "7", 7);
    ExactTotalOfTwo(UpperIncomeRow, TransferRow, "income");
    ExactTotalOfTwo(UpperIncomeRow, TransferRow, "expense");
  }

  lemma BalanceOfOtherTypes()
    ensures SqlSum([UpperIncomeRow, TransferRow], BalanceColumn) == Some(-60.0)
  {
    var table, last := [UpperIncomeRow, TransferRow], [TransferRow];
    assert table[1..] == last && last[1..] == [];
    assert BalanceColumn(UpperIncomeRow) == Some(-50.0);
    assert BalanceColumn(TransferRow) == Some(-10.0);
    assert SqlSum(last, BalanceColumn) == Some(-10.0);
  }

  lemma LowerIncome()
    ensures KindOf("Income") == Income
  {
    assert GoLib.ToLower("Income") == "income";
  }

  lemma ScenarioScans()
    ensures ScanAll([LunchRow, SalaryRow], ScanDetail) == Some([Lunch, Salary])
  {
    assert GoLib.DigitChar(1) == '1' && GoLib.DigitChar(2) == '2';
    assert ScanDetail(LunchRow) == Some(Lunch);
    assert ScanDetail(SalaryRow) == Some(Salary);
    var one, two := [LunchRow], [LunchRow, SalaryRow];
    assert one[..0] == [] && ScanAll(one[..0], ScanDetail) == Some([]);
    assert [] + [Lunch] == [Lunch];
    assert ScanAll(one, ScanDetail) == Some([Lunch]);
    assert two[..1] == one && two[1] == SalaryRow;
    assert [Lunch] + [Salary] == [Lunch, Salary];
  }
}
