/** The summary of a spender's expenses or incomes: the aggregation query
    hands back one bucket per active day, and the buckets are reduced to a
    total, an average per active day and a transaction count. The query
    itself (grouping by `date_trunc('day', date)`) is a parameter: the
    function `aggregate` gives the buckets the query returns for a
    transaction type and a spender id. */
module DailySummary {
  import opened Http

  /** One row of the aggregation query: a day, the sum of that day's
      amounts and the number of that day's transactions. The date is a
      string in this package and a `time.Time` in the expense package's
      copy, hence the type parameter. */
  datatype RawData<D> = RawData(date: D, sumAmount: real, countExpenses: int)

  datatype Summary = Summary(total: real, average: real, count: int)

  const Zero := Summary(0.0, 0.0, 0)

  /** The two transaction-type tags the handlers query with (lower case). */
  const TypeExpense := "expense"
  const TypeIncome := "income"

  const InvalidSpender := "invalid spender"
  const PrepareStatementError := "prepare statement error"
  const QueryError := "query error"
  const ScanError := "scan error"

  /** What a summary handler writes back: a `{"message": ...}` object or
      the summary itself. */
  datatype Body = Message(message: string) | Totals(summary: Summary)

  datatype Response = Response(status: int, body: Body)

  /** How the aggregation query goes: it succeeds, preparing the statement
      fails, running it fails, scanning the row at position `row` fails, or
      the row stream breaks before the row at position `row` (`rows.Next()`
      then returns false and the error is left in `rows.Err()`). */
  datatype QueryFault = Healthy | PrepareFailed | QueryFailed | ScanFailedAt(row: nat) | StoppedAt(row: nat)

  /** The buckets that `rows.Next()` hands to the scan loop: all of them,
      unless the stream breaks early. */
  function Received<D>(rows: seq<RawData<D>>, fault: QueryFault): (r: seq<RawData<D>>)
    ensures |r| <= |rows| && r == rows[..|r|]
    ensures |r| < |rows| <==> fault.StoppedAt? && fault.row < |rows|
  {
    if fault.StoppedAt? && fault.row < |rows| then rows[..fault.row] else rows
  }

  /** The sum of the buckets' amounts. */
  function TotalOf<D>(data: seq<RawData<D>>): real {
    if data == [] then 0.0 else TotalOf(data[..|data| - 1]) + data[|data| - 1].sumAmount
  }

  /** The sum of the buckets' transaction counts. */
  function CountOf<D>(data: seq<RawData<D>>): int {
    if data == [] then 0 else CountOf(data[..|data| - 1]) + data[|data| - 1].countExpenses
  }

  /** The reduction: no buckets give the zero summary; otherwise the total,
      the total divided by the number of buckets (active days, not
      transactions), and the count. */
  function SummaryOf<D>(data: seq<RawData<D>>): Summary {
    if |data| == 0 then Zero
    else Summary(TotalOf(data), TotalOf(data) / (|data| as real), CountOf(data))
  }

  /** The reduction as the handler computes it: one pass accumulating the
      total and the count. */
  method Summarize<D>(data: seq<RawData<D>>) returns (s: Summary)
    ensures s == SummaryOf(data)
  {
    if |data| == 0 {
      return Zero;
    }
    var total := 0.0;
    var count := 0;
    for i := 0 to |data|
      invariant total == TotalOf(data[..i])
      invariant count == CountOf(data[..i])
    {
      assert data[..i + 1][..i] == data[..i];
      total := total + data[i].sumAmount;
      count := count + data[i].countExpenses;
    }
    assert data[..|data|] == data;
    s := Summary(total, total / (|data| as real), count);
  }

  // ---------------------------------------------------------------------
  // Properties of the reduction

  /** The average is per active day: times the number of buckets it gives
      back the total, whatever the buckets' transaction counts. */
  lemma AveragePerActiveDay<D>(data: seq<RawData<D>>)
    requires data != []
    ensures SummaryOf(data).average * (|data| as real) == SummaryOf(data).total
    ensures SummaryOf(data).total == TotalOf(data) && SummaryOf(data).count == CountOf(data)
  {
  }

  /** No buckets, no division: the zero summary. */
  lemma EmptySummary<D>()
    ensures SummaryOf<D>([]) == Summary(0.0, 0.0, 0)
  {
  }

  /** Totals and counts add up over concatenated bucket lists. */
  lemma {:induction false} SumsAppend<D>(a: seq<RawData<D>>, b: seq<RawData<D>>)
    ensures TotalOf(a + b) == TotalOf(a) + TotalOf(b)
    ensures CountOf(a + b) == CountOf(a) + CountOf(b)
  {
    if b == [] {
      assert a + b == a;
    } else {
      var b' := b[..|b| - 1];
      assert (a + b)[..|a + b| - 1] == a + b';
      SumsAppend(a, b');
    }
  }

  /** Totals and counts do not depend on the order of the buckets. */
  lemma {:induction false} SumsPermutation<D>(a: seq<RawData<D>>, b: seq<RawData<D>>)
    requires multiset(a) == multiset(b)
    ensures TotalOf(a) == TotalOf(b) && CountOf(a) == CountOf(b)
    decreases |a|
  {
    if a == [] {
      assert |b| == |multiset(b)| == 0;
    } else {
      var a' := a[..|a| - 1];
      var x := a[|a| - 1];
      assert a == a' + [x];
      assert x in multiset(b);
      var j :| 0 <= j < |b| && b[j] == x;
      var b' := b[..j] + b[j + 1..];
      assert b == b[..j] + [x] + b[j + 1..];
      assert multiset(a') == multiset(a) - multiset{x};
      assert multiset(b) == multiset(b[..j]) + multiset{x} + multiset(b[j + 1..]);
      assert multiset(b') == multiset(b[..j]) + multiset(b[j + 1..]);
      assert multiset(b') == multiset(b) - multiset{x};
      SumsPermutation(a', b');
      SumsAppend(a', [x]);
      SumsAppend(b[..j], [x]);
      SumsAppend(b[..j] + [x], b[j + 1..]);
      SumsAppend(b[..j], b[j + 1..]);
    }
  }

  /** Shuffling the buckets does not change the summary. */
  lemma SummaryPermutation<D>(a: seq<RawData<D>>, b: seq<RawData<D>>)
    requires multiset(a) == multiset(b)
    ensures SummaryOf(a) == SummaryOf(b)
  {
    SumsPermutation(a, b);
    assert |a| == |multiset(a)| == |multiset(b)| == |b|;
  }

  /** The cases of the reduction's test table. */
  lemma SummaryTable()
    ensures SummaryOf<string>([]) == Summary(0.0, 0.0, 0)
    ensures SummaryOf([RawData("", 10.0, 1)]) == Summary(10.0, 10.0, 1)
    ensures SummaryOf([RawData("", 20.0, 2), RawData("", 30.0, 3)]) == Summary(50.0, 25.0, 5)
  {
    var two := [RawData("", 20.0, 2), RawData("", 30.0, 3)];
    assert two[..1] == [RawData("", 20.0, 2)];
    assert [RawData("", 20.0, 2)][..0] == [];
  }

  // ---------------------------------------------------------------------
  // The request pipeline

  /** The response of the summary pipeline: bind the spender, prepare the
      statement, run it for the type and the spender, scan every row,
      reduce. Each failure point has its own answer, except a stream that
      breaks early: `rows.Err()` is never consulted, so the buckets read
      so far are reduced and answered with 200. */
  function SummaryResponse(spender: Option<int>, tnxType: string,
                           aggregate: (string, int) -> seq<RawData<string>>, fault: QueryFault): Response
  {
    match spender
    case None => Response(StatusBadRequest, Message(InvalidSpender))
    case Some(id) =>
      match fault
      case PrepareFailed => Response(StatusInternalServerError, Message(PrepareStatementError))
      case QueryFailed => Response(StatusInternalServerError, Message(QueryError))
      case ScanFailedAt(k) =>
        if k < |aggregate(tnxType, id)| then Response(StatusInternalServerError, Message(ScanError))
        else Response(StatusOK, Totals(SummaryOf(aggregate(tnxType, id))))
      case StoppedAt(_) => Response(StatusOK, Totals(SummaryOf(Received(aggregate(tnxType, id), fault))))
      case Healthy => Response(StatusOK, Totals(SummaryOf(aggregate(tnxType, id))))
  }

  /** The pipeline's outcomes: a spender that does not bind is answered
      400 before the store is consulted (the answer does not depend on the
      store at all); the other failures are 500s with distinct messages,
      and a failed scan discards the rows scanned so far; otherwise 200 with
      the summary of the buckets received for this type and spender, which
      are all the buckets the query returned unless the stream broke early. */
  lemma SummaryOutcomes(spender: Option<int>, tnxType: string,
                        aggregate: (string, int) -> seq<RawData<string>>, fault: QueryFault,
                        otherAggregate: (string, int) -> seq<RawData<string>>, otherFault: QueryFault)
    ensures spender.None? ==>
      SummaryResponse(spender, tnxType, aggregate, fault) == Response(StatusBadRequest, Message(InvalidSpender))
      == SummaryResponse(spender, tnxType, otherAggregate, otherFault)
    ensures spender.Some? && fault.PrepareFailed? ==>
      SummaryResponse(spender, tnxType, aggregate, fault) == Response(StatusInternalServerError, Message(PrepareStatementError))
    ensures spender.Some? && fault.QueryFailed? ==>
      SummaryResponse(spender, tnxType, aggregate, fault) == Response(StatusInternalServerError, Message(QueryError))
    ensures spender.Some? && fault.ScanFailedAt? && fault.row < |aggregate(tnxType, spender.value)| ==>
      SummaryResponse(spender, tnxType, aggregate, fault) == Response(StatusInternalServerError, Message(ScanError))
    ensures spender.Some? && fault.StoppedAt? && fault.row < |aggregate(tnxType, spender.value)| ==>
      SummaryResponse(spender, tnxType, aggregate, fault)
      == Response(StatusOK, Totals(SummaryOf(aggregate(tnxType, spender.value)[..fault.row])))
    ensures SummaryResponse(spender, tnxType, aggregate, fault).status == StatusOK <==>
      spender.Some? && (fault.Healthy? || fault.StoppedAt?
                        || (fault.ScanFailedAt? && fault.row >= |aggregate(tnxType, spender.value)|))
    ensures SummaryResponse(spender, tnxType, aggregate, fault).status == StatusOK ==>
      SummaryResponse(spender, tnxType, aggregate, fault).body
      == Totals(SummaryOf(Received(aggregate(tnxType, spender.value), fault)))
  {
  }

  /** The pipeline as the handler runs it, with the scan loop appending
      one bucket per row before reducing. */
  method ProcessSummaryRequest(spender: Option<int>, tnxType: string,
                               aggregate: (string, int) -> seq<RawData<string>>, fault: QueryFault)
    returns (resp: Response)
    ensures resp == SummaryResponse(spender, tnxType, aggregate, fault)
  {
    if spender.None? {
      return Response(StatusBadRequest, Message(InvalidSpender));
    }
    if fault.PrepareFailed? {
      return Response(StatusInternalServerError, Message(PrepareStatementError));
    }
    if fault.QueryFailed? {
      return Response(StatusInternalServerError, Message(QueryError));
    }
    var rows := aggregate(tnxType, spender.value);
    var raws: seq<RawData<string>> := [];
    var i := 0;
    while i < |rows|
      invariant 0 <= i <= |rows|
      invariant raws == rows[..i]
      invariant (fault.ScanFailedAt? || fault.StoppedAt?) ==> fault.row >= i
    {
      if fault.StoppedAt? && fault.row == i {
        break;
      }
      if fault.ScanFailedAt? && fault.row == i {
        return Response(StatusInternalServerError, Message(ScanError));
      }
      raws := raws + [rows[i]];
      i := i + 1;
    }
    assert raws == Received(rows, fault);
    var s := Summarize(raws);
    resp := Response(StatusOK, Totals(s));
  }

  /** With a stream that breaks after the first of two buckets, the
      pipeline as written answers 200 with a summary of that one bucket
      instead of the summary of both. */
  lemma PartialSummaryWitness()
    ensures var buckets := [RawData("2024-04-03", 10.0, 1), RawData("2024-04-04", 30.0, 3)];
      && SummaryResponse(Some(1), TypeExpense, (t, id) => buckets, StoppedAt(1))
         == Response(StatusOK, Totals(Summary(10.0, 10.0, 1)))
      && SummaryOf(buckets) == Summary(40.0, 20.0, 4)
  {
    var buckets := [RawData("2024-04-03", 10.0, 1), RawData("2024-04-04", 30.0, 3)];
    var first := buckets[..1];
    assert first == [RawData("2024-04-03", 10.0, 1)];
    assert first[..0] == [];
    assert TotalOf(first) == 10.0 && CountOf(first) == 1;
    assert Received(buckets, StoppedAt(1)) == first;
  }

  /** The pipeline as evidently intended: the scan loop followed by a
      check of `rows.Err()`, so that a stream that breaks early answers 500
      "query error" like a failed query, and a 200 always carries the
      summary of every bucket the query returned. */
  function SummaryResponseCheckingErr(spender: Option<int>, tnxType: string,
                                      aggregate: (string, int) -> seq<RawData<string>>, fault: QueryFault): (r: Response)
    ensures spender.None? ==> r == Response(StatusBadRequest, Message(InvalidSpender))
    ensures spender.Some? && fault.StoppedAt? && fault.row < |aggregate(tnxType, spender.value)| ==>
      r == Response(StatusInternalServerError, Message(QueryError))
    ensures r.status == StatusOK ==>
      spender.Some? && r.body == Totals(SummaryOf(aggregate(tnxType, spender.value)))
    ensures spender.Some? && fault.Healthy? ==>
      r == Response(StatusOK, Totals(SummaryOf(aggregate(tnxType, spender.value))))
  {
    match spender
    case None => Response(StatusBadRequest, Message(InvalidSpender))
    case Some(id) =>
      var asWritten := SummaryResponse(spender, tnxType, aggregate, fault);
      if fault.StoppedAt? && fault.row < |aggregate(tnxType, id)| then
        Response(StatusInternalServerError, Message(QueryError))
      else asWritten
  }

  /** The expense summary: the pipeline with the tag "expense". */
  method GetExpenseSummaryHandler(spender: Option<int>,
                                  aggregate: (string, int) -> seq<RawData<string>>, fault: QueryFault)
    returns (resp: Response)
    ensures resp == SummaryResponse(spender, "expense", aggregate, fault)
  {
    resp := ProcessSummaryRequest(spender, TypeExpense, aggregate, fault);
  }

  /** The income summary: the pipeline with the tag "income". */
  method GetIncomeSummaryHandler(spender: Option<int>,
                                 aggregate: (string, int) -> seq<RawData<string>>, fault: QueryFault)
    returns (resp: Response)
    ensures resp == SummaryResponse(spender, "income", aggregate, fault)
  {
    resp := ProcessSummaryRequest(spender, TypeIncome, aggregate, fault);
  }
}
