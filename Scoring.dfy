/** The four metric scorers of Whartoncode.py: each maps a raw ratio to one
    of a few fixed band values by a chain of strict comparisons. */
module Scoring {

  /** Price-to-earnings: cheaper is better. */
  function ScorePe(pe: real): (r: real)
    ensures r == 1.0 <==> pe < 10.0
    ensures r == 0.8 <==> 10.0 <= pe < 20.0
    ensures r == 0.5 <==> 20.0 <= pe < 40.0
    ensures r == 0.2 <==> 40.0 <= pe
  {
    if pe < 10.0 then 1.0
    else if pe < 20.0 then 0.8
    else if pe < 40.0 then 0.5
    else 0.2
  }

  /** Return on equity: higher is better. */
  function ScoreRoe(roe: real): (r: real)
    ensures r == 1.0 <==> 0.30 < roe
    ensures r == 0.8 <==> 0.20 < roe <= 0.30
    ensures r == 0.6 <==> 0.10 < roe <= 0.20
    ensures r == 0.4 <==> 0.05 < roe <= 0.10
    ensures r == 0.2 <==> roe <= 0.05
  {
    if roe > 0.30 then 1.0
    else if roe > 0.20 then 0.8
    else if roe > 0.10 then 0.6
    else if roe > 0.05 then 0.4
    else 0.2
  }

  /** Volatility (beta): calmer is better. */
  function ScoreVolatility(vol: real): (r: real)
    ensures r == 1.0 <==> vol < 0.15
    ensures r == 0.8 <==> 0.15 <= vol < 0.25
    ensures r == 0.5 <==> 0.25 <= vol < 0.35
    ensures r == 0.3 <==> 0.35 <= vol
  {
    if vol < 0.15 then 1.0
    else if vol < 0.25 then 0.8
    else if vol < 0.35 then 0.5
    else 0.3
  }

  /** Dividend yield: higher is better. */
  function ScoreDividend(dy: real): (r: real)
    ensures r == 1.0 <==> 0.04 < dy
    ensures r == 0.8 <==> 0.02 < dy <= 0.04
    ensures r == 0.5 <==> 0.01 < dy <= 0.02
    ensures r == 0.3 <==> dy <= 0.01
  {
    if dy > 0.04 then 1.0
    else if dy > 0.02 then 0.8
    else if dy > 0.01 then 0.5
    else 0.3
  }

  /** Every scorer returns one of its own band values and nothing else. */
  lemma BandValues(x: real)
    ensures ScorePe(x) in {1.0, 0.8, 0.5, 0.2}
    ensures ScoreRoe(x) in {1.0, 0.8, 0.6, 0.4, 0.2}
    ensures ScoreVolatility(x) in {1.0, 0.8, 0.5, 0.3}
    ensures ScoreDividend(x) in {1.0, 0.8, 0.5, 0.3}
  {
  }

  /** The scores of "lower is better" metrics never rise as the metric grows,
      and those of "higher is better" metrics never fall. */
  lemma Monotone(x: real, y: real)
    requires x <= y
    ensures ScorePe(y) <= ScorePe(x)
    ensures ScoreRoe(x) <= ScoreRoe(y)
    ensures ScoreVolatility(y) <= ScoreVolatility(x)
    ensures ScoreDividend(x) <= ScoreDividend(y)
  {
  }

  /** The comparisons are strict: a value exactly on a threshold falls into
      the band on the far side of it. */
  lemma Boundaries()
    ensures ScorePe(9.9) == 1.0 && ScorePe(10.0) == 0.8
    ensures ScorePe(19.9) == 0.8 && ScorePe(20.0) == 0.5
    ensures ScorePe(39.9) == 0.5 && ScorePe(40.0) == 0.2
    ensures ScoreRoe(0.30) == 0.8 && ScoreRoe(0.20) == 0.6
    ensures ScoreRoe(0.10) == 0.4 && ScoreRoe(0.05) == 0.2
    ensures ScoreVolatility(0.15) == 0.8 && ScoreVolatility(0.25) == 0.5
    ensures ScoreVolatility(0.35) == 0.3
    ensures ScoreDividend(0.04) == 0.8 && ScoreDividend(0.02) == 0.5
    ensures ScoreDividend(0.01) == 0.3
  {
  }

  /** All band values lie between the scorer's lowest and highest band. */
  lemma Range(x: real)
    ensures 0.2 <= ScorePe(x) <= 1.0
    ensures 0.2 <= ScoreRoe(x) <= 1.0
    ensures 0.3 <= ScoreVolatility(x) <= 1.0
    ensures 0.3 <= ScoreDividend(x) <= 1.0
  {
  }
}
