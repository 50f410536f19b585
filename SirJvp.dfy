/** `sir_jvp_absolute` of Whartoncode.py: a weighted sum of the four metric
    scores and the normalised ESG score per row, written into the table as a
    new column, then the rows ranked by that score, highest first. */
module SirJvp {
  import opened Wrappers
  import opened Scoring
  import opened StockData

  /** The five weights, one per component. */
  datatype Weights = Weights(pe: real, roe: real, volatility: real, dividend: real, esg: real)

  /** The weights used when the caller passes none. */
  const DefaultWeights: Weights := Weights(0.2, 0.25, 0.25, 0.15, 0.15)

  predicate NonNegative(w: Weights) {
    0.0 <= w.pe && 0.0 <= w.roe && 0.0 <= w.volatility && 0.0 <= w.dividend && 0.0 <= w.esg
  }

  /** The sum of the five weights. */
  function WeightTotal(w: Weights): real {
    w.pe + w.roe + w.volatility + w.dividend + w.esg
  }

  /** The weighted sum of the five component scores. */
  function WeightedSum(w: Weights, pe: real, roe: real, vol: real, div: real, esg: real): real {
    w.pe * pe + w.roe * roe + w.volatility * vol + w.dividend * div + w.esg * esg
  }

  /** The SIR-JVP score of one row: the ESG score is brought to [0, 1] by
      dividing by 100, the others go through their scorers. With
      non-negative weights and an ESG score in [0, 100] it lies between the
      weighted sums of the lowest and the highest bands. */
  function Total(rec: StockRecord, w: Weights): (r: real)
    ensures NonNegative(w) && 0.0 <= rec.esgScore <= 100.0 ==>
      WeightedSum(w, 0.2, 0.2, 0.3, 0.3, 0.0) <= r <= WeightedSum(w, 1.0, 1.0, 1.0, 1.0, 1.0)
  {
    var pe, roe := ScorePe(rec.peRatio), ScoreRoe(rec.roe);
    var vol, div := ScoreVolatility(rec.volatility), ScoreDividend(rec.dividendYield);
    var esg := rec.esgScore / 100.0;
    assert NonNegative(w) && 0.0 <= rec.esgScore <= 100.0 ==>
      WeightedSum(w, 0.2, 0.2, 0.3, 0.3, 0.0) <= WeightedSum(w, pe, roe, vol, div, esg)
        <= WeightedSum(w, 1.0, 1.0, 1.0, 1.0, 1.0) by {
      if NonNegative(w) && 0.0 <= rec.esgScore <= 100.0 {
        Range(rec.peRatio);
        Range(rec.roe);
        Range(rec.volatility);
        Range(rec.dividendYield);
        WeightedSumMonotone(w, 0.2, 0.2, 0.3, 0.3, 0.0, pe, roe, vol, div, esg);
        WeightedSumMonotone(w, pe, roe, vol, div, esg, 1.0, 1.0, 1.0, 1.0, 1.0);
      }
    }
    WeightedSum(w, pe, roe, vol, div, esg)
  }

  /** A row of the ranked table: the record with its score column. */
  datatype ScoredRow = ScoredRow(rec: StockRecord, sirJvpScore: real)

  /** The score column for a table, row by row. */
  function Scores(rows: seq<StockRecord>, w: Weights): (s: seq<real>)
    ensures |s| == |rows|
  {
    seq(|rows|, i requires 0 <= i < |rows| => Total(rows[i], w))
  }

  /** The table with its score column, before ranking. */
  function Scored(rows: seq<StockRecord>, w: Weights): (s: seq<ScoredRow>)
    ensures |s| == |rows|
  {
    var scores := Scores(rows, w);
    seq(|rows|, i requires 0 <= i < |rows| => ScoredRow(rows[i], scores[i]))
  }

  /** Scores never increase from one row to any later row. */
  predicate SortedDescending(s: seq<ScoredRow>) {
    forall p, q :: 0 <= p < q < |s| ==> s[q].sirJvpScore <= s[p].sirJvpScore
  }

  lemma ScaleMonotone(k: real, a: real, b: real)
    requires 0.0 <= k && a <= b
    ensures k * a <= k * b
  {
  }

  /** The weights are applied as given, not normalised: five equal
      components give that value times the sum of the weights, so only
      weights summing to 1 keep the sum on the components' own scale. */
  lemma WeightedSumUniform(w: Weights, c: real)
    ensures WeightedSum(w, c, c, c, c, c) == c * WeightTotal(w)
  {
  }

  /** With non-negative weights the weighted sum never falls when a component
      rises. */
  lemma WeightedSumMonotone(w: Weights, pe0: real, roe0: real, vol0: real, div0: real, esg0: real,
                                        pe1: real, roe1: real, vol1: real, div1: real, esg1: real)
    requires NonNegative(w)
    requires pe0 <= pe1 && roe0 <= roe1 && vol0 <= vol1 && div0 <= div1 && esg0 <= esg1
    ensures WeightedSum(w, pe0, roe0, vol0, div0, esg0) <= WeightedSum(w, pe1, roe1, vol1, div1, esg1)
  {
    // Raise one component at a time.
    var s0 := WeightedSum(w, pe0, roe0, vol0, div0, esg0);
    var s1 := WeightedSum(w, pe1, roe0, vol0, div0, esg0);
    var s2 := WeightedSum(w, pe1, roe1, vol0, div0, esg0);
    var s3 := WeightedSum(w, pe1, roe1, vol1, div0, esg0);
    var s4 := WeightedSum(w, pe1, roe1, vol1, div1, esg0);
    var s5 := WeightedSum(w, pe1, roe1, vol1, div1, esg1);
    assert s0 <= s1 by { ScaleMonotone(w.pe, pe0, pe1); }
    assert s1 <= s2 by { ScaleMonotone(w.roe, roe0, roe1); }
    assert s2 <= s3 by { ScaleMonotone(w.volatility, vol0, vol1); }
    assert s3 <= s4 by { ScaleMonotone(w.dividend, div0, div1); }
    assert s4 <= s5 by { ScaleMonotone(w.esg, esg0, esg1); }
  }

  /** With non-negative weights, a row that is at least as good on every
      metric (P/E and volatility no higher; ROE, dividend yield and ESG no
      lower) scores at least as high. */
  lemma TotalMonotone(better: StockRecord, worse: StockRecord, w: Weights)
    requires NonNegative(w)
    requires better.peRatio <= worse.peRatio && worse.roe <= better.roe
    requires better.volatility <= worse.volatility && worse.dividendYield <= better.dividendYield
    requires worse.esgScore <= better.esgScore
    ensures Total(worse, w) <= Total(better, w)
  {
    Monotone(better.peRatio, worse.peRatio);
    Monotone(worse.roe, better.roe);
    Monotone(better.volatility, worse.volatility);
    Monotone(worse.dividendYield, better.dividendYield);
    WeightedSumMonotone(w,
      ScorePe(worse.peRatio), ScoreRoe(worse.roe), ScoreVolatility(worse.volatility),
      ScoreDividend(worse.dividendYield), worse.esgScore / 100.0,
      ScorePe(better.peRatio), ScoreRoe(better.roe), ScoreVolatility(better.volatility),
      ScoreDividend(better.dividendYield), better.esgScore / 100.0);
  }

  /** With the default weights (which sum to 1) and an ESG score in
      [0, 100], a row's score lies in [0.21, 1.0]; both ends are reached. */
  lemma DefaultScoreRange(rec: StockRecord)
    requires 0.0 <= rec.esgScore <= 100.0
    ensures 0.21 <= Total(rec, DefaultWeights) <= 1.0
  {
  }

  /** The extreme rows that attain the two ends of the default range. */
  lemma DefaultScoreRangeTight()
    ensures Total(StockRecord("A", 8.0, 0.35, 0.10, 0.05, 100.0), DefaultWeights) == 1.0
    ensures Total(StockRecord("B", 50.0, 0.02, 0.50, 0.005, 0.0), DefaultWeights) == 0.21
  {
    var best := StockRecord("A", 8.0, 0.35, 0.10, 0.05, 100.0);
    var worst := StockRecord("B", 50.0, 0.02, 0.50, 0.005, 0.0);
    assert Total(best, DefaultWeights) == WeightedSum(DefaultWeights, 1.0, 1.0, 1.0, 1.0, 1.0);
    assert Total(worst, DefaultWeights) == WeightedSum(DefaultWeights, 0.2, 0.2, 0.3, 0.3, 0.0);
  }

  /** The two-ticker worked example: A scores 0.97 and B scores 0.24. */
  lemma WorkedExample()
    ensures Total(StockRecord("A", 8.0, 0.35, 0.10, 0.05, 80.0), DefaultWeights) == 0.97
    ensures Total(StockRecord("B", 50.0, 0.02, 0.50, 0.005, 20.0), DefaultWeights) == 0.24
  {
  }

  /** The loop of lines 94-110: one score per row, in row order. */
  method ComputeScores(rows: seq<StockRecord>, w: Weights) returns (scores: seq<real>)
    ensures |scores| == |rows|
    ensures forall i :: 0 <= i < |rows| ==> scores[i] == Total(rows[i], w)
  {
    scores := [];
    var k := 0;
    while k < |rows|
      invariant 0 <= k <= |rows|
      invariant |scores| == k
      invariant forall i :: 0 <= i < k ==> scores[i] == Total(rows[i], w)
    {
      var row := rows[k];
      var peScore := ScorePe(row.peRatio);
      var roeScore := ScoreRoe(row.roe);
      var volScore := ScoreVolatility(row.volatility);
      var divScore := ScoreDividend(row.dividendYield);
      var esgScore := row.esgScore / 100.0;
      var total := w.pe * peScore + w.roe * roeScore + w.volatility * volScore
        + w.dividend * divScore + w.esg * esgScore;
      assert total == Total(row, w);
      scores := scores + [total];
      k := k + 1;
    }
  }

  /** Exchange two cells of the array being ranked. */
  method Swap(a: array<ScoredRow>, i: int, j: int)
    requires 0 <= i < a.Length && 0 <= j < a.Length
    modifies a
    ensures a[i] == old(a[j]) && a[j] == old(a[i])
    ensures forall m :: 0 <= m < a.Length && m != i && m != j ==> a[m] == old(a[m])
    ensures multiset(a[..]) == old(multiset(a[..]))
  {
    a[i], a[j] := a[j], a[i];
  }

  /** The index of a highest-scoring row among a[lo..]. */
  method IndexOfMax(a: array<ScoredRow>, lo: int) returns (m: int)
    requires 0 <= lo < a.Length
    ensures lo <= m < a.Length
    ensures forall k :: lo <= k < a.Length ==> a[k].sirJvpScore <= a[m].sirJvpScore
  {
    m := lo;
    var k := lo + 1;
    while k < a.Length
      invariant lo <= m < k <= a.Length
      invariant forall j :: lo <= j < k ==> a[j].sirJvpScore <= a[m].sirJvpScore
    {
      if a[m].sirJvpScore < a[k].sirJvpScore {
        m := k;
      }
      k := k + 1;
    }
  }

  /** `sort_values(..., ascending=False)`: reorder the rows so that scores
      never increase. No order is promised among equal scores. */
  method SortDescending(a: array<ScoredRow>)
    modifies a
    ensures SortedDescending(a[..])
    ensures multiset(a[..]) == old(multiset(a[..]))
  {
    var i := 0;
    while i < a.Length
      invariant 0 <= i <= a.Length
      invariant forall p, q :: 0 <= p < q < i ==> a[q].sirJvpScore <= a[p].sirJvpScore
      invariant forall p, q :: 0 <= p < i <= q < a.Length ==> a[q].sirJvpScore <= a[p].sirJvpScore
      invariant multiset(a[..]) == old(multiset(a[..]))
    {
      var m := IndexOfMax(a, i);
      Swap(a, i, m);
      i := i + 1;
    }
  }

  /** The table `get_stock_data` returns and `sir_jvp_absolute` changes: the
      rows, and the score column once it has been added. */
  class Frame {
    var rows: seq<StockRecord>
    var scoreColumn: Option<seq<real>>

    /** `pd.DataFrame(data)`: a table of the given rows, without scores. */
    constructor (data: seq<StockRecord>)
      ensures rows == data && scoreColumn == None
    {
      rows := data;
      scoreColumn := None;
    }
  }

  /** `sir_jvp_absolute(df, weights)`: absent weights mean the defaults. The
      score column is written into `df` itself; the result is its rows with
      their scores, highest first. */
  method SirJvpAbsolute(df: Frame, weights: Option<Weights>) returns (ranked: seq<ScoredRow>)
    modifies df
    ensures df.rows == old(df.rows)
    ensures df.scoreColumn == Some(Scores(df.rows, weights.GetOr(DefaultWeights)))
    ensures |ranked| == |df.rows|
    ensures SortedDescending(ranked)
    ensures multiset(ranked) == multiset(Scored(df.rows, weights.GetOr(DefaultWeights)))
  {
    var w := if weights.None? then DefaultWeights else weights.value;
    var scores := ComputeScores(df.rows, w);
    assert scores == Scores(df.rows, w);
    df.scoreColumn := Some(scores);
    var rows := df.rows;
    var a := new ScoredRow[|rows|](i requires 0 <= i < |rows| => ScoredRow(rows[i], scores[i]));
    assert a[..] == Scored(rows, w);
    SortDescending(a);
    ranked := a[..];
  }
}
