/**
 * The backtest side of prompt_evaluator.py (class BacktestEvaluator): the
 * realised return of holding a stock for a number of trading days, and the
 * return a recommendation would have earned.
 *
 * The price source is a parameter: `history(symbol, startDate)` is the list
 * of daily closing prices from the start date on, or the failure of fetching it.
 */
module BacktestEvaluator {
  import opened Wrappers
  import opened Strings
  import opened PromptEvaluator

  /** `df.iloc[i]` on a frame of `n` rows: a negative position counts from the end, and one out of range raises. */
  function RowIndex(n: nat, i: int): (r: Option<nat>)
    ensures r.Some? ==> r.value < n
    ensures 0 <= i < n ==> r == Some(i)
    ensures -(n as int) <= i < 0 ==> r.Some? && r.value == n + i
    ensures r.None? <==> i >= n || i + n < 0
  {
    if 0 <= i < n then Some(i) else if 0 <= n + i && i < 0 then Some(n + i) else None
  }

  /**
   * get_actual_return on the fetched closing prices: 0.0 when fewer than
   * holdDays + 1 prices exist or anything fails, otherwise the relative change
   * from the first close to the close holdDays rows later.
   */
  function ActualReturn(closes: Attempt<seq<real>>, holdDays: int): (r: real)
    ensures closes.Raised? ==> r == 0.0
    ensures closes.Returned? && |closes.value| < holdDays + 1 ==> r == 0.0
    ensures closes.Returned? && 0 <= holdDays < |closes.value| && closes.value[0] != 0.0 ==>
      closes.value[0] * (1.0 + r) == closes.value[holdDays]
    ensures closes.Returned? && 0 < |closes.value| && -|closes.value| <= holdDays < 0 && closes.value[0] != 0.0 ==>
      closes.value[0] * (1.0 + r) == closes.value[|closes.value| + holdDays]
    ensures closes.Returned? && holdDays < -|closes.value| ==> r == 0.0
  {
    match closes
    case Raised(_) => 0.0
    case Returned(prices) =>
      if |prices| < holdDays + 1 then 0.0
      else
        match (RowIndex(|prices|, 0), RowIndex(|prices|, holdDays))
        case (Some(b), Some(s)) =>
          var buyPrice := prices[b];
          var sellPrice := prices[s];
          if buyPrice == 0.0 then 0.0 else (sellPrice - buyPrice) / buyPrice
        case _ => 0.0
  }

  /**
   * The return of acting on a recommendation: long on 买入, short on 卖出,
   * nothing otherwise. It is positive exactly when the call was right.
   */
  function StrategyReturn(recommendation: string, actualReturn: real): (r: real)
    ensures r > 0.0 <==> (recommendation == Buy && actualReturn > 0.0) || (recommendation == Sell && actualReturn < 0.0)
    ensures r == actualReturn || r == -actualReturn || r == 0.0
    ensures recommendation != Buy && recommendation != Sell ==> r == 0.0
  {
    if recommendation == Buy then actualReturn
    else if recommendation == Sell then -actualReturn
    else 0.0
  }

  /** A strategy never gains or loses more than the stock moved. */
  lemma StrategyReturnBounded(recommendation: string, actualReturn: real)
    ensures -actualReturn <= StrategyReturn(recommendation, actualReturn) <= actualReturn
         || actualReturn <= StrategyReturn(recommendation, actualReturn) <= -actualReturn
  {
  }

  /** The recommendation an output reads as is either followed (buy), reversed (sell) or sits out (hold). */
  lemma StrategyOfExtracted(output: string, actualReturn: real)
    ensures var (rec, conf) := ExtractRecommendation(output);
      (rec == Buy && StrategyReturn(rec, actualReturn) == actualReturn && (conf == 0.8 || conf == 0.6))
      || (rec == Sell && StrategyReturn(rec, actualReturn) == -actualReturn && conf == 0.7)
      || (rec == Hold && StrategyReturn(rec, actualReturn) == 0.0 && conf == 0.5)
  {
  }

  /** The row evaluate_recommendations builds for one graded run. */
  datatype BacktestRow = BacktestRow(
    ticker: string,
    date: string,
    recommendation: string,
    confidence: real,
    actualReturn: real,
    strategyReturn: real,
    promptVersion: string)

  /** The price-source symbol: the ticker up to its first '.'. */
  function Symbol(ticker: string): (s: string)
    ensures IsPrefix(s, ticker) && !Contains(s, ".")
    ensures |s| == |ticker| || ticker[|s|] == '.'
  {
    var s := FirstPiece(ticker, ".");
    assert Contains(ticker, ".") ==> ticker[|s|] == '.' by {
      if Contains(ticker, ".") {
        assert ticker[|s|..|s| + 1][0] == ticker[|s|];
      }
    }
    s
  }

  /** The price-source start date: the date with every '-' removed and every other character kept. */
  function StartDate(date: string): (d: string)
    ensures '-' !in d
    ensures multiset(d) == multiset(date)['-' := 0]
  {
    RemoveCharFacts(date, '-');
    RemoveAll(date, "-")
  }

  /**
   * The start date is built piece by piece: a '-' vanishes, every other
   * character stays, and the kept characters keep their order.
   */
  lemma StartDatePiecewise(a: string, b: string, x: char)
    ensures StartDate(a + b) == StartDate(a) + StartDate(b)
    ensures StartDate([x]) == if x == '-' then [] else [x]
  {
    RemoveCharConcat(a, b, '-');
    RemoveCharSingle(x, '-');
  }

  /** Example: an ISO date loses its two dashes and nothing else. */
  lemma StartDateExample()
    ensures StartDate("2024-01-15") == "20240115"
  {
    StartDateExampleParts("2024", "01", "15", "2024-01-15", "20240115");
  }

  lemma StartDateExampleParts(y: string, m: string, d: string, date: string, clean: string)
    requires '-' !in y && '-' !in m && '-' !in d
    requires date == y + "-" + (m + "-" + d) && clean == y + (m + d)
    ensures StartDate(date) == clean
  {
    StartDateDashJoin(y, m + "-" + d);
    StartDateDashJoin(m, d);
    StartDateNoDash(d);
  }

  /** Two dash-free parts joined by a '-' lose only that dash. */
  lemma StartDateDashJoin(a: string, b: string)
    requires '-' !in a
    ensures StartDate(a + "-" + b) == a + StartDate(b)
  {
    StartDatePiecewise(a, "-" + b, '-');
    StartDatePiecewise("-", b, '-');
    assert a + "-" + b == a + ("-" + b);
    StartDateNoDash(a);
  }

  /** A date without '-' is its own start date. */
  lemma StartDateNoDash(a: string)
    requires '-' !in a
    ensures StartDate(a) == a
  {
    NotContainsMissingChar(a, "-", 0);
    RemoveAllAbsent(a, "-");
  }

  /** evaluate_recommendations: one row per graded run, in order. */
  method EvaluateRecommendations(results: seq<EvaluationResult>, holdDays: int,
                                 history: (string, string) -> Attempt<seq<real>>)
    returns (rows: seq<BacktestRow>)
    ensures |rows| == |results|
    ensures forall i :: 0 <= i < |results| ==>
      var e := results[i];
      var actual := ActualReturn(history(Symbol(e.ticker), StartDate(e.date)), holdDays);
      rows[i] == BacktestRow(e.ticker, e.date, e.recommendation, e.confidence,
                             actual, StrategyReturn(e.recommendation, actual), e.promptVersion)
  {
    rows := [];
    for i := 0 to |results|
      invariant |rows| == i
      invariant forall j :: 0 <= j < i ==>
        var e := results[j];
        var actual := ActualReturn(history(Symbol(e.ticker), StartDate(e.date)), holdDays);
        rows[j] == BacktestRow(e.ticker, e.date, e.recommendation, e.confidence,
                               actual, StrategyReturn(e.recommendation, actual), e.promptVersion)
    {
      var e := results[i];
      var actualReturn := ActualReturn(history(Symbol(e.ticker), StartDate(e.date)), holdDays);
      var strategyReturn;
      if e.recommendation == Buy {
        strategyReturn := actualReturn;
      } else if e.recommendation == Sell {
        strategyReturn := -actualReturn;
      } else {
        strategyReturn := 0.0;
      }
      rows := rows + [BacktestRow(e.ticker, e.date, e.recommendation, e.confidence,
                                  actualReturn, strategyReturn, e.promptVersion)];
    }
  }
}
