/** The record-building part of `get_stock_data` in Whartoncode.py: one
    record per ticker, each missing metric replaced by its own default. The
    market-data provider is a parameter. */
module StockData {
  import opened Wrappers
  import opened Esg

  /** What the provider reports for a ticker: each of the four metrics the
      source reads may be absent (or not a number), modelled as `None`. */
  datatype RawInfo = RawInfo(
    trailingPe: Option<real>,
    returnOnEquity: Option<real>,
    beta: Option<real>,
    dividendYield: Option<real>)

  /** One row of the table `get_stock_data` returns. */
  datatype StockRecord = StockRecord(
    ticker: string,
    peRatio: real,
    roe: real,
    volatility: real,
    dividendYield: real,
    esgScore: real)

  /** The market-data provider, seen as a snapshot from ticker to report. */
  type Provider = string -> RawInfo

  const DefaultPe: real := 25.0
  const DefaultRoe: real := 0.10
  const DefaultVolatility: real := 0.25
  const DefaultDividendYield: real := 0.01

  /** A present metric passes through; a missing one becomes its default. */
  function Fallback(v: Option<real>, default: real): (r: real)
    ensures v.Some? ==> r == v.value
    ensures v.None? ==> r == default
  {
    v.GetOr(default)
  }

  /** The record built for one ticker from the provider's report: the
      ticker is kept as given (not upper-cased), each present metric passes
      through, each missing one gets its own default, and the ESG score is
      looked up. */
  function MakeRecord(ticker: string, info: RawInfo, esg: EsgTable): (r: StockRecord)
    ensures r.ticker == ticker
    ensures r.peRatio == (if info.trailingPe.Some? then info.trailingPe.value else 25.0)
    ensures r.roe == (if info.returnOnEquity.Some? then info.returnOnEquity.value else 0.10)
    ensures r.volatility == (if info.beta.Some? then info.beta.value else 0.25)
    ensures r.dividendYield == (if info.dividendYield.Some? then info.dividendYield.value else 0.01)
    ensures r.esgScore == ManualEsgScore(ticker, esg)
  {
    StockRecord(
      ticker,
      Fallback(info.trailingPe, DefaultPe),
      Fallback(info.returnOnEquity, DefaultRoe),
      Fallback(info.beta, DefaultVolatility),
      Fallback(info.dividendYield, DefaultDividendYield),
      ManualEsgScore(ticker, esg))
  }

  /** An absent ESG table is an empty one. */
  function TableOrEmpty(esgDict: Option<EsgTable>): (r: EsgTable)
    ensures esgDict.None? ==> r == map[]
    ensures esgDict.Some? ==> r == esgDict.value
  {
    esgDict.GetOr(map[])
  }

  /** The table `get_stock_data` builds, as a specification. */
  function Records(tickers: seq<string>, fetch: Provider, esg: EsgTable): (rs: seq<StockRecord>)
    ensures |rs| == |tickers|
  {
    seq(|tickers|, i requires 0 <= i < |tickers| => MakeRecord(tickers[i], fetch(tickers[i]), esg))
  }

  /** Substitution is per metric: changing whether one metric is reported
      leaves every other field of the record unchanged. */
  lemma FallbackIndependent(ticker: string, a: RawInfo, b: RawInfo, esg: EsgTable)
    ensures a.trailingPe == b.trailingPe ==> MakeRecord(ticker, a, esg).peRatio == MakeRecord(ticker, b, esg).peRatio
    ensures a.returnOnEquity == b.returnOnEquity ==> MakeRecord(ticker, a, esg).roe == MakeRecord(ticker, b, esg).roe
    ensures a.beta == b.beta ==> MakeRecord(ticker, a, esg).volatility == MakeRecord(ticker, b, esg).volatility
    ensures a.dividendYield == b.dividendYield ==> MakeRecord(ticker, a, esg).dividendYield == MakeRecord(ticker, b, esg).dividendYield
  {
  }

  /** `get_stock_data` with the provider passed in: one record per input
      ticker, in input order, duplicates kept. */
  method GetStockData(tickers: seq<string>, fetch: Provider, esgDict: Option<EsgTable>)
    returns (data: seq<StockRecord>)
    ensures |data| == |tickers|
    ensures forall i :: 0 <= i < |tickers| ==> data[i].ticker == tickers[i]
    ensures forall i :: 0 <= i < |tickers| ==>
      data[i] == MakeRecord(tickers[i], fetch(tickers[i]), TableOrEmpty(esgDict))
    ensures data == Records(tickers, fetch, TableOrEmpty(esgDict))
  {
    var esg := if esgDict.None? then map[] else esgDict.value;
    data := [];
    var k := 0;
    while k < |tickers|
      invariant 0 <= k <= |tickers|
      invariant |data| == k
      invariant forall i :: 0 <= i < k ==> data[i] == MakeRecord(tickers[i], fetch(tickers[i]), esg)
    {
      var ticker := tickers[k];
      var info := fetch(ticker);
      var peRatio := if info.trailingPe.Some? then info.trailingPe.value else DefaultPe;
      var roe := if info.returnOnEquity.Some? then info.returnOnEquity.value else DefaultRoe;
      var volatility := if info.beta.Some? then info.beta.value else DefaultVolatility;
      var dividendYield := if info.dividendYield.Some? then info.dividendYield.value else DefaultDividendYield;
      var esgScore := ManualEsgScore(ticker, esg);
      data := data + [StockRecord(ticker, peRatio, roe, volatility, dividendYield, esgScore)];
      k := k + 1;
    }
  }
}
