/** The manual ESG lookup of Whartoncode.py: the caller supplies a table from
    tickers to an optional score, whose keys are not normalised, so only
    upper-case keys can ever match. A ticker that is missing or unset gets
    the default. */
module Esg {
  import opened Wrappers

  /** The score used when the table has no usable value for a ticker. */
  const DefaultEsgScore: real := 50.0

  /** A caller-supplied ESG table; `None` is an explicitly unset entry. */
  type EsgTable = map<string, Option<real>>

  predicate IsLower(c: char) {
    'a' <= c <= 'z'
  }

  /** Upper-casing of one character (ASCII letters only). */
  function UpperChar(c: char): (r: char)
    ensures !IsLower(r)
    ensures IsLower(c) ==> r as int == c as int - 32
    ensures !IsLower(c) ==> r == c
  {
    if IsLower(c) then (c as int - 32) as char else c
  }

  /** `str.upper`, character by character. */
  function Upper(s: string): (r: string)
    ensures |r| == |s|
    ensures forall i :: 0 <= i < |s| ==> r[i] == UpperChar(s[i])
  {
    if s == [] then [] else [UpperChar(s[0])] + Upper(s[1..])
  }

  /** Upper-casing twice is upper-casing once. */
  lemma {:induction false} UpperIdempotent(s: string)
    ensures Upper(Upper(s)) == Upper(s)
  {
    if s != [] {
      UpperIdempotent(s[1..]);
      assert Upper(s)[1..] == Upper(s[1..]);
    }
  }

  /** An upper-cased ticker holds no lower-case letter. */
  lemma UpperHasNoLower(s: string)
    ensures forall i :: 0 <= i < |Upper(s)| ==> !IsLower(Upper(s)[i])
  {
  }

  /** `get_manual_esg_score`: look the upper-cased ticker up in the table and
      fall back to the default when the key is absent or its value unset. The
      stored value is returned as it is, without clamping to [0, 100]. */
  function ManualEsgScore(ticker: string, esg: EsgTable): (r: real)
    ensures Upper(ticker) !in esg ==> r == DefaultEsgScore
    ensures Upper(ticker) in esg && esg[Upper(ticker)].None? ==> r == DefaultEsgScore
    ensures Upper(ticker) in esg && esg[Upper(ticker)].Some? ==> r == esg[Upper(ticker)].value
  {
    var key := Upper(ticker);
    if key in esg then esg[key].GetOr(DefaultEsgScore) else DefaultEsgScore
  }

  /** The lookup ignores the case of the ticker. */
  lemma CaseInsensitive(ticker: string, esg: EsgTable)
    ensures ManualEsgScore(ticker, esg) == ManualEsgScore(Upper(ticker), esg)
  {
    UpperIdempotent(ticker);
  }

  /** The table's keys are not normalised: an entry whose key holds a
      lower-case letter is never consulted, whatever the ticker. */
  lemma LowerCaseKeyIgnored(ticker: string, esg: EsgTable, key: string, v: Option<real>)
    requires exists i :: 0 <= i < |key| && IsLower(key[i])
    ensures ManualEsgScore(ticker, esg[key := v]) == ManualEsgScore(ticker, esg)
  {
    UpperHasNoLower(ticker);
    assert Upper(ticker) != key;
  }

  /** Sample lookups: case folding, absent and unset keys, an out-of-range
      value, a lower-case key. */
  lemma Examples()
    ensures ManualEsgScore("xom", map["XOM" := Some(36.0)]) == 36.0
    ensures ManualEsgScore("XOM", map["XOM" := Some(36.0)]) == 36.0
    ensures ManualEsgScore("ZZZ", map[]) == 50.0
    ensures ManualEsgScore("GLD", map["GLD" := None]) == 50.0
    ensures ManualEsgScore("ABC", map["ABC" := Some(-5.0)]) == -5.0
    ensures ManualEsgScore("ABC", map["abc" := Some(90.0)]) == 50.0
  {
    assert Upper("xom") == "XOM";
    assert Upper("XOM") == "XOM";
    assert Upper("ABC") == "ABC";
  }
}
