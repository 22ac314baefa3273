/** api/transaction/transaction_handler.go: creating and updating one transaction. */
module TransactionHandler {
  import opened Wrappers
  import opened Transactions
  import GoLib

  /** A value bound to a statement placeholder. */
  datatype SqlArg = TextArg(text: string) | FloatArg(number: real) | IntArg(integer: int)

  /** `INSERT ... VALUES ($1, ..., $7) RETURNING id` and `UPDATE ... SET ... WHERE id = $8`. */
  datatype Statement = InsertStatement | UpdateStatement

  /** One statement sent to the database, with its arguments. */
  datatype Exec = Exec(statement: Statement, args: seq<SqlArg>)

  /** What echo's Bind made of the request body. */
  datatype BindResult = Bound(body: TransactionReqBody) | BindFailed(message: string)

  /** $1..$7: date, amount, category, transaction_type, spender_id, note, image_url. */
  function BodyArgs(b: TransactionReqBody): (args: seq<SqlArg>)
  {
    [TextArg(b.date), FloatArg(b.amount), TextArg(b.category), TextArg(b.transactionType),
     IntArg(b.spenderId), TextArg(b.note), TextArg(b.imageUrl)]
  }

  /** The update binds the same seven values and the path id as $8. */
  function UpdateArgs(b: TransactionReqBody, id: string): (args: seq<SqlArg>)
  {
    BodyArgs(b) + [TextArg(id)]
  }

  /** Reads a body back out of bound arguments $1..$7, when they have the right kinds. */
  function ArgsBody(args: seq<SqlArg>): (body: Option<TransactionReqBody>)
  {
    if |args| >= 7 && args[0].TextArg? && args[1].FloatArg? && args[2].TextArg? && args[3].TextArg?
       && args[4].IntArg? && args[5].TextArg? && args[6].TextArg?
    then Some(TransactionReqBody(args[0].text, args[1].number, args[2].text, args[3].text,
                                 args[4].integer, args[5].text, args[6].text))
    else None
  }

  /** Both statements carry every field of the body, in placeholder order, and the update
   *  targets the path id. */
  lemma ArgsCarryTheBody(b: TransactionReqBody, id: string)
    ensures ArgsBody(BodyArgs(b)) == Some(b) && |BodyArgs(b)| == 7
    ensures ArgsBody(UpdateArgs(b, id)) == Some(b) && |UpdateArgs(b, id)| == 8
    ensures UpdateArgs(b, id)[7] == TextArg(id)
  {
  }

  /** The Transaction echoed back: the body's fields under the given id. */
  function WithId(id: string, b: TransactionReqBody): (t: Transaction)
  {
    Transaction(id, b.date, b.amount, b.category, b.transactionType, b.spenderId, b.note, b.imageUrl)
  }

  /** The body part of a Transaction. */
  function BodyOf(t: Transaction): (body: TransactionReqBody)
  {
    TransactionReqBody(t.date, t.amount, t.category, t.transactionType, t.spenderId, t.note, t.imageUrl)
  }

  lemma BodyOfWithId(id: string, b: TransactionReqBody)
    ensures BodyOf(WithId(id, b)) == b && WithId(id, b).id == id
  {
  }

  /** Create, with the insert given as a function from the bound arguments to the id the
   *  database returns or the driver's error text. */
  function Create(bind: BindResult, insert: seq<SqlArg> -> Result<nat, string>): (out: Exchange<Transaction, Exec>)
    ensures bind.BindFailed? ==> out == Exchange(Failure(StatusBadRequest, bind.message), [])
    ensures bind.Bound? ==> out.calls == [Exec(InsertStatement, BodyArgs(bind.body))]
    ensures out.reply.Success? <==> bind.Bound? && insert(BodyArgs(bind.body)).Ok?
    ensures bind.Bound? && insert(BodyArgs(bind.body)).Err? ==>
      out.reply == Failure(StatusInternalServerError, insert(BodyArgs(bind.body)).error)
    // a 201 echoes the body under the new id, as the text of that id
    ensures out.reply.Success? ==>
      && out.reply.status == StatusCreated
      && BodyOf(out.reply.value) == bind.body
      && GoLib.Decimal(out.reply.value.id) == Some(insert(BodyArgs(bind.body)).value as int)
  {
    match bind
    case BindFailed(message) => Exchange(Failure(StatusBadRequest, message), [])
    case Bound(body) =>
      var call := Exec(InsertStatement, BodyArgs(body));
      match insert(BodyArgs(body))
      case Err(e) => Exchange(Failure(StatusInternalServerError, e), [call])
      case Ok(newId) =>
        GoLib.DecimalFormatNat(newId);
        Exchange(Success(StatusCreated, WithId(GoLib.FormatNat(newId), body)), [call])
  }

  /** Update, with the update given as a function of its arguments. Its outcome is
   *  discarded: once the body is bound the reply is 200 with the body under the path id. */
  function Update(bind: BindResult, id: string, update: seq<SqlArg> -> Result<nat, string>): (out: Exchange<Transaction, Exec>)
    ensures bind.BindFailed? ==> out == Exchange(Failure(StatusBadRequest, bind.message), [])
    ensures bind.Bound? ==>
      && out.calls == [Exec(UpdateStatement, UpdateArgs(bind.body, id))]
      && out.reply.Success? && out.reply.status == StatusOK
      && out.reply.value.id == id && BodyOf(out.reply.value) == bind.body
  {
    match bind
    case BindFailed(message) => Exchange(Failure(StatusBadRequest, message), [])
    case Bound(body) =>
      var _ := update(UpdateArgs(body, id));
      Exchange(Success(StatusOK, WithId(id, body)), [Exec(UpdateStatement, UpdateArgs(body, id))])
  }

  /** The update's reply does not depend on what the database did, so a missing row or a
   *  failed statement still answers 200. */
  lemma UpdateIgnoresStorage(bind: BindResult, id: string, u1: seq<SqlArg> -> Result<nat, string>,
                             u2: seq<SqlArg> -> Result<nat, string>)
    ensures Update(bind, id, u1) == Update(bind, id, u2)
  {
  }

  const LunchBody := TransactionReqBody("2021-08-01", 1000.0, "food", "expense", 1, "lunch", "http://image.com")

  /** The create test: the database assigns id 1 and the reply is 201 with id "1". */
  lemma CreateScenario()
    ensures Create(Bound(LunchBody), args => Ok(1))
            == Exchange(Success(StatusCreated, Transaction("1", "2021-08-01", 1000.0, "food", "expense", 1,
                                                           "lunch", "http://image.com")),
                        [Exec(InsertStatement, [TextArg("2021-08-01"), FloatArg(1000.0), TextArg("food"),
                                                TextArg("expense"), IntArg(1), TextArg("lunch"),
                                                TextArg("http://image.com")])])
  {
    assert GoLib.FormatNat(1) == "1" by { assert GoLib.DigitChar(1) == '1'; }
  }

  /** The update test: PUT on id "1" binds the path id last and echoes the body as id "1",
   *  here with a database that reports an error. */
  lemma UpdateScenario()
    ensures
      var body := TransactionReqBody("2021-08-01", 555.0, "shopping", "expense", 1, "lunch", "http://image.com");
      Update(Bound(body), "1", args => Err("no rows in result set"))
      == Exchange(Success(StatusOK, Transaction("1", "2021-08-01", 555.0, "shopping", "expense", 1,
                                                "lunch", "http://image.com")),
                  [Exec(UpdateStatement, [TextArg("2021-08-01"), FloatArg(555.0), TextArg("shopping"),
                                          TextArg("expense"), IntArg(1), TextArg("lunch"),
                                          TextArg("http://image.com"), TextArg("1")])])
  {
    var body := TransactionReqBody("2021-08-01", 555.0, "shopping", "expense", 1, "lunch", "http://image.com");
    assert UpdateArgs(body, "1") == [TextArg("2021-08-01"), FloatArg(555.0), TextArg("shopping"),
                                     TextArg("expense"), IntArg(1), TextArg("lunch"),
                                     TextArg("http://image.com"), TextArg("1")];
  }
}
