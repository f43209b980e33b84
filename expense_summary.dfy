/** The expense package's summary: a copy of the bucket reduction over
    buckets dated by `time.Time`, and an expense-summary handler that only
    binds the spender and never consults the store. */
module ExpenseSummary {
  import opened Http
  import opened DailySummary

  /** This package's copy of the reduction; the same loop over the same
      fields, so it computes the same summary. */
  method Summarize(data: seq<RawData<Timestamp>>) returns (s: Summary)
    ensures s == SummaryOf(data)
  {
    s := DailySummary.Summarize(data);
  }

  /** The handler: 400 "invalid spender" when the spender does not bind,
      otherwise 200 with the zero summary. */
  function GetExpenseSummaryHandler(spender: Option<int>): (r: Response)
    ensures spender.None? ==> r == Response(StatusBadRequest, Message(InvalidSpender))
    ensures spender.Some? ==> r == Response(StatusOK, Totals(Summary(0.0, 0.0, 0)))
  {
    if spender.None? then Response(StatusBadRequest, Message(InvalidSpender))
    else Response(StatusOK, Totals(Zero))
  }

  /** The handler answers as the full pipeline would over a store that holds
      no expense at all, for every spender. */
  lemma StubIsEmptyStore(spender: Option<int>)
    ensures GetExpenseSummaryHandler(spender) == SummaryResponse(spender, TypeExpense, (t, id) => [], Healthy)
  {
  }
}
