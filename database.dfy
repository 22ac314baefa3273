/** The relational store, replaced by its meaning: a table is a sequence of rows kept in
 *  primary-key order, a WHERE list is a list of predicates, and a query is filter, then
 *  OFFSET/LIMIT, then count or sum. */
module Database {
  import opened Wrappers

  /** One row of the "transaction" table. Columns that may hold NULL are `Option`s:
   *  amount, note and image_url. */
  datatype Row = Row(
    id: nat,
    date: string,
    amount: Option<real>,
    category: string,
    transactionType: string,
    spenderId: int,
    note: Option<string>,
    imageUrl: Option<string>)

  /** Rows in ascending primary-key order, as the table's id index delivers them. */
  predicate IdOrdered(rows: seq<Row>)
  {
    forall i, j :: 0 <= i < j < |rows| ==> rows[i].id < rows[j].id
  }

  /** One equality condition of a WHERE clause; `True` is the base clause every list starts with. */
  datatype Predicate =
    | True
    | DateIs(date: string)
    | AmountIs(amount: real)
    | CategoryIs(category: string)
    | TypeIs(transactionType: string)
    | SpenderIs(spenderId: int)

  /** SQL truth of one condition on a row; `amount = v` is never true of a NULL amount. */
  predicate Holds(p: Predicate, r: Row)
  {
    match p
    case True => true
    case DateIs(d) => r.date == d
    case AmountIs(a) => r.amount == Some(a)
    case CategoryIs(c) => r.category == c
    case TypeIs(t) => r.transactionType == t
    case SpenderIs(s) => r.spenderId == s
  }

  /** The conditions of a WHERE list joined with AND. */
  predicate HoldsAll(ps: seq<Predicate>, r: Row)
  {
    ps == [] || (Holds(ps[0], r) && HoldsAll(ps[1..], r))
  }

  lemma {:induction false} HoldsAllEach(ps: seq<Predicate>, r: Row)
    ensures HoldsAll(ps, r) <==> forall i :: 0 <= i < |ps| ==> Holds(ps[i], r)
  {
    if ps != [] {
      HoldsAllEach(ps[1..], r);
      assert forall i :: 1 <= i < |ps| ==> ps[i] == ps[1..][i - 1];
    }
  }

  lemma {:induction false} HoldsAllConcat(a: seq<Predicate>, b: seq<Predicate>, r: Row)
    ensures HoldsAll(a + b, r) <==> HoldsAll(a, r) && HoldsAll(b, r)
  {
    if a == [] {
      assert a + b == b;
    } else {
      assert (a + b)[0] == a[0] && (a + b)[1..] == a[1..] + b;
      HoldsAllConcat(a[1..], b, r);
    }
  }

  /** The rows of a table that satisfy a WHERE list, in table order. */
  function Where(rows: seq<Row>, ps: seq<Predicate>): (out: seq<Row>)
    ensures |out| <= |rows|
  {
    if rows == [] then []
    else (if HoldsAll(ps, rows[0]) then [rows[0]] else []) + Where(rows[1..], ps)
  }

  /** A row is kept iff it is in the table and satisfies the whole WHERE list. */
  lemma {:induction false} WhereMembers(rows: seq<Row>, ps: seq<Predicate>)
    ensures forall r :: r in Where(rows, ps) <==> r in rows && HoldsAll(ps, r)
  {
    if rows != [] {
      WhereMembers(rows[1..], ps);
      assert rows == [rows[0]] + rows[1..];
    }
  }

  lemma {:induction false} WhereKeepsIdOrder(rows: seq<Row>, ps: seq<Predicate>)
    requires IdOrdered(rows)
    ensures IdOrdered(Where(rows, ps))
  {
    if rows != [] {
      var tail := Where(rows[1..], ps);
      WhereKeepsIdOrder(rows[1..], ps);
      WhereMembers(rows[1..], ps);
      forall j | 0 <= j < |tail|
        ensures rows[0].id < tail[j].id
      {
        assert tail[j] in rows[1..];
        var k :| 0 <= k < |rows[1..]| && rows[1..][k] == tail[j];
        assert rows[k + 1] == tail[j];
      }
    }
  }

  function Min(a: int, b: int): (m: int) { if a <= b then a else b }

  /** OFFSET offset LIMIT limit over an already ordered result. */
  function Window<T>(rows: seq<T>, offset: nat, limit: nat): (out: seq<T>)
    ensures |out| == if offset >= |rows| then 0 else Min(limit, |rows| - offset)
    ensures forall k :: 0 <= k < |out| ==> out[k] == rows[offset + k]
  {
    if offset >= |rows| then [] else rows[offset..Min(offset + limit, |rows|)]
  }

  /** SELECT ... WHERE ps ORDER BY id LIMIT limit OFFSET offset, on a table kept in id order. */
  function SelectPage(table: seq<Row>, ps: seq<Predicate>, limit: nat, offset: nat): (page: seq<Row>)
  {
    Window(Where(table, ps), offset, limit)
  }

  /** SELECT COUNT(*) ... WHERE ps. */
  function CountWhere(table: seq<Row>, ps: seq<Predicate>): (n: nat)
  {
    |Where(table, ps)|
  }

  lemma SelectPageInIdOrder(table: seq<Row>, ps: seq<Predicate>, limit: nat, offset: nat)
    requires IdOrdered(table)
    ensures IdOrdered(SelectPage(table, ps, limit, offset))
    ensures |SelectPage(table, ps, limit, offset)| <= limit
    ensures forall r :: r in SelectPage(table, ps, limit, offset) ==> r in table && HoldsAll(ps, r)
  {
    WhereKeepsIdOrder(table, ps);
    WhereMembers(table, ps);
    var page := SelectPage(table, ps, limit, offset);
    forall r | r in page
      ensures r in Where(table, ps)
    {
      var k :| 0 <= k < |page| && page[k] == r;
    }
  }

  /** NULL-aware addition, as SQL's SUM combines values. */
  function AddNullable(a: Option<real>, b: Option<real>): (sum: Option<real>)
  {
    match (a, b)
    case (None, _) => b
    case (Some(_), None) => a
    case (Some(x), Some(y)) => Some(x + y)
  }

  /** SUM(column) over some rows: NULLs are skipped and a sum of no non-NULL value is NULL. */
  function SqlSum(rows: seq<Row>, column: Row -> Option<real>): (sum: Option<real>)
  {
    if rows == [] then None else AddNullable(column(rows[0]), SqlSum(rows[1..], column))
  }

  /** The sum is NULL exactly when the column is NULL on every row (in particular on no rows). */
  lemma {:induction false} SqlSumIsNullIffAllNull(rows: seq<Row>, column: Row -> Option<real>)
    ensures SqlSum(rows, column).None? <==> forall i :: 0 <= i < |rows| ==> column(rows[i]).None?
  {
    if rows != [] {
      SqlSumIsNullIffAllNull(rows[1..], column);
      assert forall i :: 1 <= i < |rows| ==> rows[1..][i - 1] == rows[i];
    }
  }
}
