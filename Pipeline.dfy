/** The two calls the script makes, `get_stock_data` then `sir_jvp_absolute`,
    and what the ranked table says about the tickers it was given. */
module Pipeline {
  import opened Wrappers
  import opened Esg
  import opened StockData
  import opened SirJvp

  /** The ticker column of a ranked table. */
  function TickersOf(rows: seq<ScoredRow>): (ts: seq<string>)
    ensures |ts| == |rows|
    ensures forall i :: 0 <= i < |rows| ==> ts[i] == rows[i].rec.ticker
  {
    seq(|rows|, i requires 0 <= i < |rows| => rows[i].rec.ticker)
  }

  /** Taking one element out of a sequence takes one copy of it out of the
      sequence's multiset. */
  lemma MultisetRemove<T>(s: seq<T>, j: int)
    requires 0 <= j < |s|
    ensures multiset(s) == multiset(s[..j] + s[j + 1..]) + multiset{s[j]}
  {
    assert s == s[..j] + [s[j]] + s[j + 1..];
  }

  /** The tickers of a table with one row taken out are its tickers with
      that row's ticker taken out. */
  lemma TickersOfRemove(b: seq<ScoredRow>, j: int)
    requires 0 <= j < |b|
    ensures TickersOf(b[..j] + b[j + 1..]) == TickersOf(b)[..j] + TickersOf(b)[j + 1..]
  {
    var rest, t := b[..j] + b[j + 1..], TickersOf(b);
    var u := t[..j] + t[j + 1..];
    assert |TickersOf(rest)| == |u| == |rest|;
    forall i | 0 <= i < |rest|
      ensures TickersOf(rest)[i] == u[i]
    {
      if i < j {
        assert rest[i] == b[i];
        assert u[i] == t[i];
      } else {
        assert rest[i] == b[i + 1];
        assert u[i] == t[i + 1];
      }
    }
  }

  /** Taking one row out of a table takes one copy of its ticker out of the
      table's multiset of tickers. */
  lemma TickersAfterRemove(s: seq<ScoredRow>, j: int)
    requires 0 <= j < |s|
    ensures multiset(TickersOf(s)) == multiset(TickersOf(s[..j] + s[j + 1..])) + multiset{s[j].rec.ticker}
  {
    MultisetRemove(TickersOf(s), j);
    TickersOfRemove(s, j);
  }

  /** Taking the same row out of two permutations of each other leaves two
      permutations of each other. */
  lemma RemoveFromBoth(a: seq<ScoredRow>, b: seq<ScoredRow>, j: int)
    requires multiset(a) == multiset(b) && a != []
    requires 0 <= j < |b| && b[j] == a[0]
    ensures multiset(a[1..]) == multiset(b[..j] + b[j + 1..])
  {
    var x, rest := a[0], b[..j] + b[j + 1..];
    MultisetRemove(a, 0);
    MultisetRemove(b, j);
    assert a[..0] + a[1..] == a[1..];
    assert multiset(a[1..]) == multiset(a) - multiset{x};
    assert multiset(rest) == multiset(b) - multiset{x};
  }

  /** Reordering rows reorders their tickers the same way: two tables that
      are permutations of each other have the same tickers, with the same
      multiplicities. */
  lemma {:induction false} PermutationKeepsTickers(a: seq<ScoredRow>, b: seq<ScoredRow>)
    requires multiset(a) == multiset(b)
    ensures multiset(TickersOf(a)) == multiset(TickersOf(b))
  {
    if a == [] {
      assert |multiset(b)| == 0;
    } else {
      assert a[0] in multiset(b);
      var j :| 0 <= j < |b| && b[j] == a[0];
      var t, rest := a[0].rec.ticker, b[..j] + b[j + 1..];
      RemoveFromBoth(a, b, j);
      PermutationKeepsTickers(a[1..], rest);
      assert multiset(TickersOf(a)) == multiset(TickersOf(a[1..])) + multiset{t} by {
        assert TickersOf(a) == [t] + TickersOf(a[1..]);
      }
      TickersAfterRemove(b, j);
    }
  }

  /** Scoring keeps the rows of `get_stock_data` in ticker order. */
  lemma ScoredTickers(tickers: seq<string>, fetch: Provider, esg: EsgTable, w: Weights)
    ensures TickersOf(Scored(Records(tickers, fetch, esg), w)) == tickers
  {
  }

  /** Every row of a permutation of the scored table carries its own score. */
  lemma PermutationKeepsScores(ranked: seq<ScoredRow>, rows: seq<StockRecord>, w: Weights)
    requires multiset(ranked) == multiset(Scored(rows, w))
    ensures forall r :: r in ranked ==> r.rec in rows && r.sirJvpScore == Total(r.rec, w)
  {
    forall r | r in ranked
      ensures r.rec in rows && r.sirJvpScore == Total(r.rec, w)
    {
      assert r in multiset(Scored(rows, w));
      var i :| 0 <= i < |rows| && Scored(rows, w)[i] == r;
    }
  }

  /** The script's run: fetch and resolve the tickers, then score and rank
      them. One row per input ticker (duplicates kept), each with its own
      score, highest first; an empty ticker list gives an empty result. */
  method Rankings(tickers: seq<string>, fetch: Provider, esgDict: Option<EsgTable>, weights: Option<Weights>)
    returns (ranked: seq<ScoredRow>)
    ensures |ranked| == |tickers|
    ensures SortedDescending(ranked)
    ensures multiset(TickersOf(ranked)) == multiset(tickers)
    ensures multiset(ranked) ==
      multiset(Scored(Records(tickers, fetch, TableOrEmpty(esgDict)), weights.GetOr(DefaultWeights)))
    ensures forall r :: r in ranked ==>
      r.rec in Records(tickers, fetch, TableOrEmpty(esgDict)) &&
      r.sirJvpScore == Total(r.rec, weights.GetOr(DefaultWeights))
  {
    var data := GetStockData(tickers, fetch, esgDict);
    var df := new Frame(data);
    ranked := SirJvpAbsolute(df, weights);
    var w := weights.GetOr(DefaultWeights);
    PermutationKeepsTickers(ranked, Scored(data, w));
    ScoredTickers(tickers, fetch, TableOrEmpty(esgDict), w);
    PermutationKeepsScores(ranked, data, w);
  }

  /** The provider for the two-ticker worked example. */
  function ExampleFetch(ticker: string): RawInfo {
    if ticker == "A" then RawInfo(Some(8.0), Some(0.35), Some(0.10), Some(0.05))
    else RawInfo(Some(50.0), Some(0.02), Some(0.50), Some(0.005))
  }

  const ExampleEsg: EsgTable := map["A" := Some(80.0), "B" := Some(20.0)]

  /** Whatever sort produced it, the ranked table of the worked example is
      A (0.97) then B (0.24). */
  lemma WorkedExampleRanking(ranked: seq<ScoredRow>)
    requires SortedDescending(ranked)
    requires multiset(ranked) == multiset(Scored(Records(["A", "B"], ExampleFetch, ExampleEsg), DefaultWeights))
    ensures TickersOf(ranked) == ["A", "B"]
    ensures ranked[0].sirJvpScore == 0.97 && ranked[1].sirJvpScore == 0.24
  {
    var recA := StockRecord("A", 8.0, 0.35, 0.10, 0.05, 80.0);
    var recB := StockRecord("B", 50.0, 0.02, 0.50, 0.005, 20.0);
    assert Upper("A") == "A" && Upper("B") == "B";
    assert ManualEsgScore("A", ExampleEsg) == 80.0;
    assert ManualEsgScore("B", ExampleEsg) == 20.0;
    assert MakeRecord("A", ExampleFetch("A"), ExampleEsg) == recA;
    assert MakeRecord("B", ExampleFetch("B"), ExampleEsg) == recB;
    assert Records(["A", "B"], ExampleFetch, ExampleEsg) == [recA, recB];
    WorkedExample();
    var x, y := ScoredRow(recA, 0.97), ScoredRow(recB, 0.24);
    assert Scored([recA, recB], DefaultWeights) == [x, y];
    assert multiset(ranked) == multiset{x, y};
    assert |ranked| == 2;
    assert ranked[0] in multiset(ranked) && ranked[1] in multiset(ranked);
    assert ranked[0] == x;
    assert ranked[1] == y;
  }

  /** A ticker with no report at all and no ESG entry is scored on the
      defaults alone: 0.5, 0.4, 0.5, 0.3 and 0.5, giving 0.445. */
  lemma AllMissingExample(ticker: string)
    ensures Total(MakeRecord(ticker, RawInfo(None, None, None, None), map[]), DefaultWeights) == 0.445
  {
  }
}
