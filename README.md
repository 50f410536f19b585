# SIR-JVP stock scoring, modelled in Dafny

Whartoncode.py ranks a list of stock tickers by a composite "SIR-JVP"
score. Four market ratios (P/E, return on equity, beta as volatility, and
dividend yield) go through fixed threshold bands. An ESG score comes from a
caller-supplied table. The five values are combined as a weighted sum, and
the rows are sorted by that sum, highest first.

The model has six modules, following the stages of the script:

- `Wrappers`: the `Option` type used for every missing value (`None`,
  an absent key, `np.nan`).
- `Scoring`: the four band scorers `score_pe`, `score_roe`,
  `score_volatility` and `score_dividend`, with the band each input falls
  into stated as an if-and-only-if. Also their band values, strict
  boundaries, ranges and monotonicity.
- `Esg`: `get_manual_esg_score`. It upper-cases the ticker, looks it up,
  and returns the default 50 for a missing or unset entry. A stored value
  passes through unclamped.
- `StockData`: the record building of `get_stock_data`, with the market-data
  provider as a function parameter. Each metric falls back to its own
  default, and the method keeps one record per ticker in input order.
- `SirJvp`: the scoring loop, the `Frame` class standing for the pandas
  table that `sir_jvp_absolute` changes in place (it gains the score
  column), a selection sort proved to sort descending and to permute its
  input, and lemmas about the weighted sum. These cover monotonicity under
  non-negative weights, the [0.21, 1.0] range under the default weights,
  and the worked example.
- `Pipeline`: the script's two calls in sequence (`Rankings`). The ranked
  table has one row per input ticker, with the same multiset of tickers,
  each row carrying its own score.

Two facts about the code that the model pins down:

- Row B of the worked example (P/E 50, ROE 0.02, beta 0.50, dividend
  yield 0.005, ESG 20) scores exactly 0.24 = 0.04 + 0.05 + 0.075 + 0.045 +
  0.03 under the default weights, as `SirJvp.WorkedExample` proves.
- `sort_values` defaults to a quicksort, which is not stable. The model
  promises only "sorted descending and a permutation", and
  `SortDescending` is not stable either.

## Model

| member | source | states |
|---|---|---|
| `Scoring.ScorePe` | Whartoncode.py:10-14 | score is 1.0 exactly when pe < 10, 0.8 exactly when 10 <= pe < 20, 0.5 exactly when 20 <= pe < 40, 0.2 exactly when pe >= 40 |
| `Scoring.ScoreRoe` | Whartoncode.py:16-21 | score is 1.0 / 0.8 / 0.6 / 0.4 / 0.2 exactly when roe lies in (0.30, inf) / (0.20, 0.30] / (0.10, 0.20] / (0.05, 0.10] / (-inf, 0.05] |
| `Scoring.ScoreVolatility` | Whartoncode.py:23-27 | score is 1.0 / 0.8 / 0.5 / 0.3 exactly when vol lies in (-inf, 0.15) / [0.15, 0.25) / [0.25, 0.35) / [0.35, inf) |
| `Scoring.ScoreDividend` | Whartoncode.py:29-33 | score is 1.0 / 0.8 / 0.5 / 0.3 exactly when dy lies in (0.04, inf) / (0.02, 0.04] / (0.01, 0.02] / (-inf, 0.01] |
| `Scoring.BandValues` | Whartoncode.py:10-33 | every scorer returns one of its own literal band values, for every real input |
| `Scoring.Monotone` | Whartoncode.py:10-33 | P/E and volatility scores never rise as the input grows; ROE and dividend scores never fall |
| `Scoring.Boundaries` | Whartoncode.py:10-33 | the comparisons are strict: pe 10 gives 0.8, 20 gives 0.5, 40 gives 0.2; roe 0.30 gives 0.8, 0.05 gives 0.2; vol 0.15 gives 0.8, 0.35 gives 0.3; dy 0.04 gives 0.8, 0.01 gives 0.3 |
| `Scoring.Range` | Whartoncode.py:10-33 | each score lies between its lowest and highest band value, within [0.2, 1.0] |
| `Esg.UpperChar` | Whartoncode.py:40 | the result is never a lower-case letter; a lower-case ASCII letter moves down 32 code points to its capital; every other character is unchanged |
| `Esg.Upper` | Whartoncode.py:40 | upper-casing keeps the length and maps each character through the ASCII upper-case map |
| `Esg.UpperIdempotent` | Whartoncode.py:40 | upper-casing an upper-cased ticker changes nothing |
| `Esg.ManualEsgScore` | Whartoncode.py:38-41 | absent key or unset value for the upper-cased ticker gives 50; otherwise the stored value, unclamped |
| `Esg.CaseInsensitive` | Whartoncode.py:40 | a ticker and its upper-cased form get the same ESG score |
| `Esg.LowerCaseKeyIgnored` | Whartoncode.py:40 | adding or changing a table entry whose key holds a lower-case letter never changes any ticker's score |
| `Esg.Examples` | Whartoncode.py:38-41 | "xom" and "XOM" both find 36 under "XOM"; an unknown ticker and an unset entry give 50; -5 passes through; a lower-case key is not found |
| `StockData.Fallback` | Whartoncode.py:64-68 | a present metric passes through unchanged; a missing one becomes the given default |
| `StockData.TableOrEmpty` | Whartoncode.py:46-48 | a missing ESG table is treated as the empty table |
| `StockData.MakeRecord` | Whartoncode.py:56-77 | the record keeps the ticker as given (not upper-cased); P/E, ROE, beta and dividend yield pass through when present and become 25, 0.10, 0.25 and 0.01 when missing; the ESG score is the upper-cased lookup |
| `StockData.FallbackIndependent` | Whartoncode.py:64-68 | each metric's substitution depends only on that metric's own report |
| `StockData.GetStockData` | Whartoncode.py:46-79 | exactly one record per input ticker, in input order, duplicates kept, each built from that ticker's report and the ESG table (empty when absent) |
| `SirJvp.WeightedSumUniform` | Whartoncode.py:102-108 | the weights are applied as given, not normalised: five equal components c give c times the sum of the weights |
| `SirJvp.Total` | Whartoncode.py:96-108 | with non-negative weights and ESG in [0, 100], a row's score lies between the weighted sum of the lowest bands (0.2, 0.2, 0.3, 0.3, ESG 0) and that of the highest (all 1.0) |
| `SirJvp.WeightedSumMonotone` | Whartoncode.py:102-108 | with non-negative weights, raising any component never lowers the weighted sum |
| `SirJvp.TotalMonotone` | Whartoncode.py:96-108 | with non-negative weights, a row no worse on every metric and on ESG scores at least as high |
| `SirJvp.DefaultScoreRange` | Whartoncode.py:85-108 | with the default weights and ESG in [0, 100], every score lies in [0.21, 1.0] |
| `SirJvp.DefaultScoreRangeTight` | Whartoncode.py:85-108 | both ends, 1.0 and 0.21, are attained by concrete rows |
| `SirJvp.WorkedExample` | Whartoncode.py:96-108 | the worked rows A and B score exactly 0.97 and 0.24 under the default weights |
| `SirJvp.ComputeScores` | Whartoncode.py:94-110 | one score per row, in row order, each the weighted sum of its scorers' bands and ESG/100 |
| `SirJvp.IndexOfMax` | Whartoncode.py:113 | returns the index of a highest-scoring row of the unsorted suffix |
| `SirJvp.Swap` | Whartoncode.py:113 | exchanges two cells, leaves every other cell unchanged, and keeps the multiset of rows |
| `SirJvp.SortDescending` | Whartoncode.py:113 | the array ends sorted by score, highest first, and is a permutation of what it held |
| `SirJvp.Frame.constructor` | Whartoncode.py:79 | a new table holds the given rows and no score column |
| `SirJvp.SirJvpAbsolute` | Whartoncode.py:84-113 | absent weights mean the defaults; the table keeps its rows and gains the score column; the result is a permutation of the scored rows, sorted descending |
| `Pipeline.PermutationKeepsTickers` | Whartoncode.py:113 | reordering the rows keeps the multiset of tickers |
| `Pipeline.ScoredTickers` | Whartoncode.py:70-77 | the scored table lists the input tickers in input order |
| `Pipeline.PermutationKeepsScores` | Whartoncode.py:112-113 | every ranked row is one of the input records, with its own weighted score |
| `Pipeline.Rankings` | Whartoncode.py:154-155 | one ranked row per input ticker (same multiset of tickers), sorted descending, each with its own score; no tickers give an empty result |
| `Pipeline.WorkedExampleRanking` | Whartoncode.py:84-113 | for tickers A and B with the worked reports and ESG 80 and 20, the ranking is A (0.97) then B (0.24), whatever sort produced it |
| `Pipeline.AllMissingExample` | Whartoncode.py:64-68 | a ticker with no reported metric and no ESG entry scores 0.445 on the defaults alone |

## Left out

- The yfinance fetch (`yf.Ticker(ticker).info`, lines 53-54) is a function
  parameter `fetch` from ticker to four optional reals. It is a snapshot, so
  a ticker listed twice receives the same report both times.
- A report whose key is present with the value `None` makes `np.isnan` raise
  a TypeError in the source. The model has one "missing" case for absent
  keys and not-a-number values alike.
- Floating-point rounding: all arithmetic is exact over `real`.
- pandas mechanics: the row index labels that `sort_values` carries along,
  `iterrows`, and `np.nan`. `Frame` holds only the rows and an optional
  score column.
- A weights dictionary missing one of the five keys raises a KeyError at
  lines 103-107. `Weights` is a five-field datatype, so that case cannot
  arise, and extra keys have no counterpart.
- `Esg.UpperChar` maps only ASCII a-z to capitals. Python's `str.upper`
  also maps other Unicode letters, some to several characters.
- `Esg.Upper` inherits that limit: it upper-cases character by character
  through `Esg.UpperChar`, so it never lengthens a ticker.
- ESG values are Python ints in the source; here they are reals.
- The tie order of the ranking: the source's sort is not stable and neither
  is the model's, so nothing is stated about rows with equal scores.
- The sample ticker list and ESG table (lines 118-149) are data. The
  `print` of line 157 is output. `Pipeline.Rankings` models only the two
  calls of lines 154-155.
