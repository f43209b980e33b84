/** The transaction ledger: validation of a request body and the four
    handlers over the one `transaction` table. The table is the field
    `table` of a `Handler` object; the SQL statements become the functions
    `Filter`, `Updated` and `Removed`, and the database's failures become
    parameters of the handlers. */
module Transaction {
  import opened Http

  /** The JSON body of a create or update request. */
  datatype Request = Request(
    date: Timestamp,
    amount: real,
    category: string,
    transactionType: string,
    note: string,
    imageUrl: string,
    spenderId: int)

  /** One row of the table, also the JSON shape of a listed transaction. */
  datatype Row = Row(
    id: int,
    date: Timestamp,
    amount: real,
    category: string,
    transactionType: string,
    note: string,
    imageUrl: string,
    spenderId: int)

  /** The rules a request body is checked against, in the order they are checked. */
  datatype ValidationError = AmountNegative | CategoryRequired {
    function Message(): string {
      match this
      case AmountNegative => "amount is lower than 0.0"
      case CategoryRequired => "category is required"
    }
  }

  /** What a handler writes back: no content, a `{"message": ...}` object,
      a bare JSON string, or a list of rows. */
  datatype Body = NoContent | Message(message: string) | Text(text: string) | Rows(rows: seq<Row>)

  datatype Response = Response(status: int, body: Body)

  /** How the listing query goes: it succeeds, the query itself fails,
      scanning the row at position `row` of the result fails, or the row
      stream breaks before the row at position `row` (`rows.Next()` then
      returns false and the error is left in `rows.Err()`). `msg` is the
      driver's error text. */
  datatype QueryFault =
    | Healthy
    | QueryFailed(msg: string)
    | ScanFailedAt(row: nat, msg: string)
    | StoppedAt(row: nat, msg: string)

  /** How an UPDATE or DELETE goes: it succeeds, the statement fails, or the
      statement runs but reading the number of affected rows fails. */
  datatype ExecFault = ExecOk | ExecFailed | RowsAffectedFailed

  const InvalidRequestBody := "invalid request body"
  const InvalidTransactionType := "invalid transaction type"
  const UpdateSuccess := "Update success"
  const DeleteSuccess := "Delete success"

  /** Fail-fast validation: the amount rule first, then the category rule.
      Neither the spender nor the transaction type is checked. */
  function Validate(req: Request): (r: Option<ValidationError>)
    ensures r == Some(AmountNegative) <==> req.amount < 0.0
    ensures r == Some(CategoryRequired) <==> req.amount >= 0.0 && req.category == ""
    ensures r == None <==> req.amount >= 0.0 && req.category != ""
  {
    if req.amount < 0.0 then Some(AmountNegative)
    else if req.category == "" then Some(CategoryRequired)
    else None
  }

  /** Validation looks at the amount and the category only: the spender and
      the transaction type of the body never change its verdict. */
  lemma ValidateIgnoresTypeAndSpender(a: Request, b: Request)
    requires a.amount == b.amount && a.category == b.category
    ensures Validate(a) == Validate(b)
  {
  }

  /** The validation cases of the handler tests, on their sample body. */
  lemma ValidateTable(date: Timestamp)
    ensures var sample := Request(date, 66.6, "Food", "INCOME", "Note1234", "/img/transaction/1.jpg", 5);
      && Validate(sample) == None
      && Validate(sample.(amount := -1.0)) == Some(AmountNegative)
      && Validate(sample.(amount := -1.0)).value.Message() == "amount is lower than 0.0"
      && Validate(sample.(category := "")) == Some(CategoryRequired)
      && Validate(sample.(category := "")).value.Message() == "category is required"
      && Validate(sample.(amount := -1.0, category := "")) == Some(AmountNegative)
  {
  }

  /** The response to a body that fails validation. */
  function Rejection(e: ValidationError): Response {
    Response(StatusBadRequest, Message(e.Message()))
  }

  /** The row that INSERT ... RETURNING id stores for a request: all seven
      columns of the request under the identity `id`. */
  function Inserted(id: int, req: Request): Row {
    Row(id, req.date, req.amount, req.category, req.transactionType, req.note, req.imageUrl, req.spenderId)
  }

  /** The WHERE clause of UPDATE and DELETE. */
  predicate Matches(r: Row, id: int, spenderId: int) {
    r.id == id && r.spenderId == spenderId
  }

  /** The SET clause of UPDATE: date, amount, category, note and image_url
      come from the request; id, transaction_type and spender_id stay. */
  function Patch(r: Row, req: Request): Row {
    r.(date := req.date, amount := req.amount, category := req.category,
       note := req.note, imageUrl := req.imageUrl)
  }

  /** The result of SELECT ... WHERE transaction_type = $1. The statement
      has no ORDER BY; the model delivers the rows in table order. */
  function Filter(t: seq<Row>, tranType: string): seq<Row> {
    if t == [] then []
    else (if t[0].transactionType == tranType then [t[0]] else []) + Filter(t[1..], tranType)
  }

  /** The number of rows UPDATE or DELETE affects. */
  function CountMatches(t: seq<Row>, id: int, spenderId: int): nat {
    if t == [] then 0
    else (if Matches(t[0], id, spenderId) then 1 else 0) + CountMatches(t[1..], id, spenderId)
  }

  /** The table after UPDATE ... WHERE id = $6 AND spender_id = $7. */
  function Updated(t: seq<Row>, id: int, spenderId: int, req: Request): seq<Row> {
    if t == [] then []
    else [if Matches(t[0], id, spenderId) then Patch(t[0], req) else t[0]] + Updated(t[1..], id, spenderId, req)
  }

  /** The table after DELETE ... WHERE id = $1 AND spender_id = $2. */
  function Removed(t: seq<Row>, id: int, spenderId: int): seq<Row> {
    if t == [] then []
    else (if Matches(t[0], id, spenderId) then [] else [t[0]]) + Removed(t[1..], id, spenderId)
  }

  /** Identities increase along the table: the store hands them out in
      increasing order and rows keep their place. */
  ghost predicate IdsAscending(t: seq<Row>) {
    forall i, j :: 0 <= i < j < |t| ==> t[i].id < t[j].id
  }

  // ---------------------------------------------------------------------
  // Properties of the SQL statements

  /** SELECT returns exactly the rows of the requested type. */
  lemma {:induction false} FilterMembers(t: seq<Row>, tranType: string, x: Row)
    ensures x in Filter(t, tranType) <==> x in t && x.transactionType == tranType
  {
    if t != [] {
      FilterMembers(t[1..], tranType, x);
      assert t == [t[0]] + t[1..];
    }
  }

  /** SELECT keeps the table's order: the listed rows' identities still increase. */
  lemma {:induction false} FilterKeepsOrder(t: seq<Row>, tranType: string)
    requires IdsAscending(t)
    ensures IdsAscending(Filter(t, tranType))
  {
    if t != [] {
      FilterKeepsOrder(t[1..], tranType);
      forall x | x in Filter(t[1..], tranType) ensures t[0].id < x.id {
        FilterMembers(t[1..], tranType, x);
      }
    }
  }

  /** The rows that `rows.Next()` hands to the loop: all of them, unless
      the stream breaks early. */
  function Received(rows: seq<Row>, fault: QueryFault): (r: seq<Row>)
    ensures |r| <= |rows| && r == rows[..|r|]
    ensures |r| < |rows| <==> fault.StoppedAt? && fault.row < |rows|
  {
    if fault.StoppedAt? && fault.row < |rows| then rows[..fault.row] else rows
  }

  /** A created row is listed last by a listing of its own type and does
      not show up in a listing of any other type. */
  lemma {:induction false} FilterAppend(t: seq<Row>, r: Row, tranType: string)
    ensures Filter(t + [r], tranType) == Filter(t, tranType) + (if r.transactionType == tranType then [r] else [])
  {
    if t == [] {
      assert [r][1..] == [];
    } else {
      assert (t + [r])[1..] == t[1..] + [r];
      FilterAppend(t[1..], r, tranType);
    }
  }

  /** With identities unique, no row matches an identity absent from the table. */
  lemma {:induction false} NoMatchAbove(t: seq<Row>, id: int, spenderId: int)
    requires forall r :: r in t ==> r.id != id
    ensures CountMatches(t, id, spenderId) == 0
  {
    if t != [] {
      assert t[0] in t;
      forall r | r in t[1..] ensures r.id != id { assert r in t; }
      NoMatchAbove(t[1..], id, spenderId);
    }
  }

  /** UPDATE and DELETE affect at most one row: the identity alone picks it. */
  lemma {:induction false} AtMostOneMatch(t: seq<Row>, id: int, spenderId: int)
    requires IdsAscending(t)
    ensures CountMatches(t, id, spenderId) <= 1
  {
    if t != [] {
      if Matches(t[0], id, spenderId) {
        forall r | r in t[1..] ensures r.id != id {
          var k :| 0 <= k < |t[1..]| && t[1..][k] == r;
          assert t[k + 1] == r;
        }
        NoMatchAbove(t[1..], id, spenderId);
      } else {
        AtMostOneMatch(t[1..], id, spenderId);
      }
    }
  }

  /** UPDATE rewrites exactly the matching rows, through the SET clause, and
      leaves every other row and the table's length alone. */
  lemma {:induction false} UpdatedAt(t: seq<Row>, id: int, spenderId: int, req: Request, i: nat)
    requires i < |t|
    ensures |Updated(t, id, spenderId, req)| == |t|
    ensures Updated(t, id, spenderId, req)[i] == if Matches(t[i], id, spenderId) then Patch(t[i], req) else t[i]
    ensures var u := Updated(t, id, spenderId, req)[i];
      && u.id == t[i].id && u.transactionType == t[i].transactionType && u.spenderId == t[i].spenderId
      && (Matches(t[i], id, spenderId) ==>
            u.date == req.date && u.amount == req.amount && u.category == req.category
            && u.note == req.note && u.imageUrl == req.imageUrl)
  {
    if i == 0 {
      UpdatedLength(t[1..], id, spenderId, req);
    } else {
      UpdatedAt(t[1..], id, spenderId, req, i - 1);
    }
  }

  lemma {:induction false} UpdatedLength(t: seq<Row>, id: int, spenderId: int, req: Request)
    ensures |Updated(t, id, spenderId, req)| == |t|
  {
    if t != [] {
      UpdatedLength(t[1..], id, spenderId, req);
    }
  }

  /** An UPDATE that matches nothing leaves the table as it was. */
  lemma {:induction false} UpdatedNoMatch(t: seq<Row>, id: int, spenderId: int, req: Request)
    requires CountMatches(t, id, spenderId) == 0
    ensures Updated(t, id, spenderId, req) == t
  {
    if t != [] {
      UpdatedNoMatch(t[1..], id, spenderId, req);
    }
  }

  /** UPDATE never changes an identity, so the identities still increase. */
  lemma UpdatedKeepsOrder(t: seq<Row>, id: int, spenderId: int, req: Request)
    requires IdsAscending(t)
    ensures IdsAscending(Updated(t, id, spenderId, req))
  {
    var u := Updated(t, id, spenderId, req);
    UpdatedLength(t, id, spenderId, req);
    forall i | 0 <= i < |u| ensures u[i].id == t[i].id {
      UpdatedAt(t, id, spenderId, req, i);
    }
  }

  /** DELETE removes exactly the matching rows: a row survives if and only
      if it was stored and does not match, and the table shrinks by the
      number of affected rows. */
  lemma {:induction false} RemovedMembers(t: seq<Row>, id: int, spenderId: int, x: Row)
    ensures x in Removed(t, id, spenderId) <==> x in t && !Matches(x, id, spenderId)
    ensures |Removed(t, id, spenderId)| == |t| - CountMatches(t, id, spenderId)
  {
    if t != [] {
      RemovedMembers(t[1..], id, spenderId, x);
      assert t == [t[0]] + t[1..];
    }
  }

  /** DELETE keeps the survivors in their order. */
  lemma {:induction false} RemovedKeepsOrder(t: seq<Row>, id: int, spenderId: int)
    requires IdsAscending(t)
    ensures IdsAscending(Removed(t, id, spenderId))
  {
    if t != [] {
      RemovedKeepsOrder(t[1..], id, spenderId);
      forall x | x in Removed(t[1..], id, spenderId) ensures t[0].id < x.id {
        RemovedMembers(t[1..], id, spenderId, x);
      }
    }
  }

  /** The handler and the `transaction` table it reads and writes. */
  class Handler {
    /** The table's rows in storage order. */
    var table: seq<Row>
    /** The identity the next INSERT is given (the serial column's sequence). */
    var nextId: int

    ghost predicate Valid()
      reads this
    {
      && nextId > 0
      && (forall i :: 0 <= i < |table| ==> 0 < table[i].id < nextId)
      && IdsAscending(table)
    }

    constructor ()
      ensures Valid() && table == [] && nextId == 1
    {
      table := [];
      nextId := 1;
    }

    /** POST: validate the body, then insert it and answer 201, or 500 if
        the insert fails. Nothing is stored unless the answer is 201. */
    method Create(body: Option<Request>, insertFails: bool) returns (resp: Response)
      requires Valid()
      modifies this
      ensures Valid()
      ensures body.None? ==>
        resp == Response(StatusBadRequest, Message(InvalidRequestBody)) && table == old(table)
      ensures body.Some? && Validate(body.value).Some? ==>
        resp == Rejection(Validate(body.value).value) && table == old(table)
      ensures body.Some? && Validate(body.value).None? && insertFails ==>
        resp == Response(StatusInternalServerError, NoContent) && table == old(table)
      ensures body.Some? && Validate(body.value).None? && !insertFails ==>
        && resp == Response(StatusCreated, NoContent)
        && table == old(table) + [Inserted(old(nextId), body.value)]
        && (forall r :: r in old(table) ==> r.id != old(nextId))
      ensures resp.status != StatusCreated ==> nextId == old(nextId)
    {
      if body.None? {
        return Response(StatusBadRequest, Message(InvalidRequestBody));
      }
      var req := body.value;
      var invalid := Validate(req);
      if invalid.Some? {
        return Rejection(invalid.value);
      }
      if insertFails {
        return Response(StatusInternalServerError, NoContent);
      }
      table := table + [Inserted(nextId, req)];
      nextId := nextId + 1;
      resp := Response(StatusCreated, NoContent);
    }

    /** GET: list every row of one transaction type. The type must be
        exactly "EXPENSE" or "INCOME"; otherwise no query is made. The
        rows are scanned one by one and a failed scan answers 500 with no
        partial list. The loop ends when `rows.Next()` returns false and
        `rows.Err()` is never consulted, so a stream that breaks early
        answers 200 with the rows read so far. */
    method GetAll(tranType: string, fault: QueryFault) returns (resp: Response)
      ensures tranType != "EXPENSE" && tranType != "INCOME" ==>
        resp == Response(StatusBadRequest, Message(InvalidTransactionType))
      ensures (tranType == "EXPENSE" || tranType == "INCOME") && fault.QueryFailed? ==>
        resp == Response(StatusInternalServerError, Text(fault.msg))
      ensures (tranType == "EXPENSE" || tranType == "INCOME") && fault.ScanFailedAt?
              && fault.row < |Filter(table, tranType)| ==>
        resp == Response(StatusInternalServerError, Text(fault.msg))
      ensures (tranType == "EXPENSE" || tranType == "INCOME") && fault.StoppedAt?
              && fault.row < |Filter(table, tranType)| ==>
        resp == Response(StatusOK, Rows(Filter(table, tranType)[..fault.row]))
      ensures (tranType == "EXPENSE" || tranType == "INCOME")
              && (fault.Healthy? || ((fault.ScanFailedAt? || fault.StoppedAt?) && fault.row >= |Filter(table, tranType)|)) ==>
        resp == Response(StatusOK, Rows(Filter(table, tranType)))
    {
      if tranType != "EXPENSE" && tranType != "INCOME" {
        return Response(StatusBadRequest, Message(InvalidTransactionType));
      }
      if fault.QueryFailed? {
        return Response(StatusInternalServerError, Text(fault.msg));
      }
      var rows := Filter(table, tranType);
      var res: seq<Row> := [];
      var i := 0;
      while i < |rows|
        invariant 0 <= i <= |rows|
        invariant res == rows[..i]
        invariant (fault.ScanFailedAt? || fault.StoppedAt?) ==> fault.row >= i
      {
        if fault.StoppedAt? && fault.row == i {
          break;
        }
        if fault.ScanFailedAt? && fault.row == i {
          return Response(StatusInternalServerError, Text(fault.msg));
        }
        res := res + [rows[i]];
        i := i + 1;
      }
      assert res == Received(rows, fault);
      resp := Response(StatusOK, Rows(res));
    }

    /** GET as evidently intended: the same loop followed by a check of
        `rows.Err()`, so that a stream that breaks early answers 500 with
        the driver's text like every other store failure, and a 200 always
        carries the complete listing. */
    method GetAllCheckingErr(tranType: string, fault: QueryFault) returns (resp: Response)
      ensures tranType != "EXPENSE" && tranType != "INCOME" ==>
        resp == Response(StatusBadRequest, Message(InvalidTransactionType))
      ensures (tranType == "EXPENSE" || tranType == "INCOME") && !fault.Healthy?
              && (fault.QueryFailed? || fault.row < |Filter(table, tranType)|) ==>
        resp == Response(StatusInternalServerError, Text(fault.msg))
      ensures resp.status == StatusOK ==> resp == Response(StatusOK, Rows(Filter(table, tranType)))
      ensures resp.status == StatusOK <==>
        (tranType == "EXPENSE" || tranType == "INCOME")
        && (fault.Healthy? || (!fault.QueryFailed? && fault.row >= |Filter(table, tranType)|))
    {
      if tranType != "EXPENSE" && tranType != "INCOME" {
        return Response(StatusBadRequest, Message(InvalidTransactionType));
      }
      if fault.QueryFailed? {
        return Response(StatusInternalServerError, Text(fault.msg));
      }
      var rows := Filter(table, tranType);
      var res: seq<Row> := [];
      var i := 0;
      while i < |rows|
        invariant 0 <= i <= |rows|
        invariant res == rows[..i]
        invariant (fault.ScanFailedAt? || fault.StoppedAt?) ==> fault.row >= i
      {
        if fault.StoppedAt? && fault.row == i {
          break;
        }
        if fault.ScanFailedAt? && fault.row == i {
          return Response(StatusInternalServerError, Text(fault.msg));
        }
        res := res + [rows[i]];
        i := i + 1;
      }
      if fault.StoppedAt? && fault.row < |rows| {
        return Response(StatusInternalServerError, Text(fault.msg));
      }
      assert res == rows;
      resp := Response(StatusOK, Rows(res));
    }

    /** PUT: validate the body, then update the row matching both the
        transaction id and the spender id. Zero affected rows answers 400,
        a store failure 500. */
    method Update(spenderId: int, transId: int, body: Option<Request>, fault: ExecFault) returns (resp: Response)
      requires Valid()
      modifies this
      ensures Valid() && nextId == old(nextId)
      ensures body.None? ==>
        resp == Response(StatusBadRequest, Message(InvalidRequestBody)) && table == old(table)
      ensures body.Some? && Validate(body.value).Some? ==>
        resp == Rejection(Validate(body.value).value) && table == old(table)
      ensures body.Some? && Validate(body.value).None? && fault == ExecFailed ==>
        resp == Response(StatusInternalServerError, NoContent) && table == old(table)
      ensures body.Some? && Validate(body.value).None? && fault != ExecFailed ==>
        && table == Updated(old(table), transId, spenderId, body.value)
        && resp == (if fault == RowsAffectedFailed then Response(StatusInternalServerError, NoContent)
                    else if CountMatches(old(table), transId, spenderId) == 0 then Response(StatusBadRequest, NoContent)
                    else Response(StatusOK, Text(UpdateSuccess)))
      ensures resp.status == StatusBadRequest ==> table == old(table)
    {
      if body.None? {
        return Response(StatusBadRequest, Message(InvalidRequestBody));
      }
      var req := body.value;
      var invalid := Validate(req);
      if invalid.Some? {
        return Rejection(invalid.value);
      }
      if fault == ExecFailed {
        return Response(StatusInternalServerError, NoContent);
      }
      var affected := CountMatches(table, transId, spenderId);
      UpdatedKeepsOrder(table, transId, spenderId, req);
      UpdatedLength(table, transId, spenderId, req);
      forall i | 0 <= i < |table| ensures Updated(table, transId, spenderId, req)[i].id == table[i].id {
        UpdatedAt(table, transId, spenderId, req, i);
      }
      if affected == 0 {
        UpdatedNoMatch(table, transId, spenderId, req);
      }
      table := Updated(table, transId, spenderId, req);
      if fault == RowsAffectedFailed {
        return Response(StatusInternalServerError, NoContent);
      }
      if affected == 0 {
        return Response(StatusBadRequest, NoContent);
      }
      resp := Response(StatusOK, Text(UpdateSuccess));
    }

    /** DELETE: remove the row matching both the transaction id and the
        spender id. Zero affected rows answers 400, a store failure 500. */
    method Delete(spenderId: int, transId: int, fault: ExecFault) returns (resp: Response)
      requires Valid()
      modifies this
      ensures Valid() && nextId == old(nextId)
      ensures fault == ExecFailed ==>
        resp == Response(StatusInternalServerError, NoContent) && table == old(table)
      ensures fault != ExecFailed ==>
        && table == Removed(old(table), transId, spenderId)
        && resp == (if fault == RowsAffectedFailed then Response(StatusInternalServerError, NoContent)
                    else if CountMatches(old(table), transId, spenderId) == 0 then Response(StatusBadRequest, NoContent)
                    else Response(StatusOK, Text(DeleteSuccess)))
      ensures resp.status == StatusBadRequest ==> table == old(table)
    {
      if fault == ExecFailed {
        return Response(StatusInternalServerError, NoContent);
      }
      var affected := CountMatches(table, transId, spenderId);
      RemovedKeepsOrder(table, transId, spenderId);
      forall r | r in Removed(table, transId, spenderId) ensures 0 < r.id < nextId {
        RemovedMembers(table, transId, spenderId, r);
        var k :| 0 <= k < |table| && table[k] == r;
      }
      if affected == 0 {
        RemovedNoMatch(table, transId, spenderId);
      }
      table := Removed(table, transId, spenderId);
      if fault == RowsAffectedFailed {
        return Response(StatusInternalServerError, NoContent);
      }
      if affected == 0 {
        return Response(StatusBadRequest, NoContent);
      }
      resp := Response(StatusOK, Text(DeleteSuccess));
    }
  }

  /** A DELETE that matches nothing leaves the table as it was. */
  lemma {:induction false} RemovedNoMatch(t: seq<Row>, id: int, spenderId: int)
    requires CountMatches(t, id, spenderId) == 0
    ensures Removed(t, id, spenderId) == t
  {
    if t != [] {
      RemovedNoMatch(t[1..], id, spenderId);
      assert t == [t[0]] + t[1..];
    }
  }

  /** The listing as written answers 200 with a partial list: two expense
      rows are stored, the stream breaks before the second one, and the
      answer is 200 with only the first. */
  method PartialListingWitness() returns (resp: Response, stored: nat)
    ensures resp.status == StatusOK && resp.body.Rows? && |resp.body.rows| == 1 && stored == 2
  {
    var h := new Handler();
    var req := Request(0, 10.0, "Lunch", "EXPENSE", "", "", 1);
    var _ := h.Create(Some(req), false);
    var first := h.table;
    FilterAppend([], first[0], "EXPENSE");
    assert first == [] + [first[0]];
    var _ := h.Create(Some(req.(category := "Dinner")), false);
    FilterAppend(first, h.table[1], "EXPENSE");
    stored := |Filter(h.table, "EXPENSE")|;
    resp := h.GetAll("EXPENSE", StoppedAt(1, "connection reset"));
  }
}
