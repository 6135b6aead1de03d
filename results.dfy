/**
 * The result dictionaries exchanged between the scoring functions and the worker pool.
 * A Python dictionary whose keys vary from producer to producer becomes a record of
 * optional fields, a missing key being `None`; `d.get(k, default)` is `GetOr(default)`.
 */
module Results {
  import opened Wrappers

  // ---------------------------------------------------------------- items and ensure_string

  /**
   * A value handed over by the caller or stored in a keyword list: a string, a list of
   * integers (an Erlang charlist), or any other value, kept by its `str()` rendering and
   * whether Python can hash it (a number or a tuple of such can; any other list or a
   * dictionary cannot).
   */
  datatype Item = Str(s: string) | IntList(xs: seq<int>) | Other(repr: string, hashable: bool)

  /** Whether `x in some_set` can look the value up rather than raise `TypeError`. */
  predicate Hashable(x: Item)
  {
    match x
    case Str(_) => true
    case IntList(_) => false
    case Other(_, hashable) => hashable
  }

  /** Integers that `chr` turns into a character representable here (a Unicode scalar value). */
  predicate IsScalarValue(x: int)
  {
    0 <= x < 0xD800 || 0xE000 <= x < 0x11_0000
  }

  predicate AllScalarValues(xs: seq<int>)
  {
    forall i :: 0 <= i < |xs| ==> IsScalarValue(xs[i])
  }

  /** `"".join(chr(x) for x in xs)`. */
  function Chars(xs: seq<int>): (r: string)
    requires AllScalarValues(xs)
    ensures |r| == |xs| && forall i :: 0 <= i < |xs| ==> r[i] as int == xs[i]
  {
    seq(|xs|, i requires 0 <= i < |xs| => xs[i] as char)
  }

  /** The code points of a string. */
  function Codes(s: string): (r: seq<int>)
    ensures |r| == |s| && AllScalarValues(r)
    ensures forall i :: 0 <= i < |s| ==> r[i] == s[i] as int
  {
    seq(|s|, i requires 0 <= i < |s| => s[i] as int)
  }

  function Digit(d: int): char
    requires 0 <= d < 10
  {
    "0123456789"[d]
  }

  /** The decimal form of a natural number. */
  function NatRepr(n: nat): (r: string)
    ensures r != [] && (forall i :: 0 <= i < |r| ==> '0' <= r[i] <= '9')
  {
    if n < 10 then [Digit(n)] else NatRepr(n / 10) + [Digit(n % 10)]
  }

  /** `str(x)` for an integer. */
  function IntRepr(x: int): string
  {
    if x < 0 then "-" + NatRepr(-x) else NatRepr(x)
  }

  function JoinReprs(xs: seq<int>): string
  {
    if xs == [] then ""
    else if |xs| == 1 then IntRepr(xs[0])
    else IntRepr(xs[0]) + ", " + JoinReprs(xs[1..])
  }

  /** `str(xs)` for a list of integers: `[1, 2, 3]`. */
  function ListRepr(xs: seq<int>): (r: string)
    ensures |r| >= 2 && r[0] == '[' && r[|r| - 1] == ']'
  {
    "[" + JoinReprs(xs) + "]"
  }

  /**
   * `ensure_string` of the worker pool: a string is kept; a list of integers becomes the
   * string of those characters when `chr` accepts them all, and its `str()` rendering when
   * `chr` raised; any other value becomes its `str()` rendering.
   */
  function EnsureString(item: Item): (r: string)
    ensures item.Str? ==> r == item.s
    ensures item.Other? ==> r == item.repr
    ensures item.IntList? && AllScalarValues(item.xs) ==>
      |r| == |item.xs| && forall i :: 0 <= i < |r| ==> r[i] as int == item.xs[i]
    ensures item.IntList? && !AllScalarValues(item.xs) ==> r == ListRepr(item.xs)
  {
    match item
    case Str(s) => s
    case IntList(xs) => if AllScalarValues(xs) then Chars(xs) else ListRepr(xs)
    case Other(repr, _) => repr
  }

  /** A string sent as a charlist comes back as the same string. */
  lemma EnsureStringCharlist(s: string)
    ensures EnsureString(IntList(Codes(s))) == s
  {
    var r := EnsureString(IntList(Codes(s)));
    assert |r| == |s|;
    forall i | 0 <= i < |s| ensures r[i] == s[i] {
      assert r[i] as int == s[i] as int;
    }
  }

  /** The rendering is already a string, so rendering it again changes nothing. */
  lemma EnsureStringIdempotent(item: Item)
    ensures EnsureString(Str(EnsureString(item))) == EnsureString(item)
  {
  }

  /** The empty list satisfies `all(...)` vacuously and becomes the empty string, not `[]`. */
  lemma EnsureStringEmptyList()
    ensures EnsureString(IntList([])) == ""
  {
  }

  function EnsureStrings(items: seq<Item>): (r: seq<string>)
    ensures |r| == |items| && forall i :: 0 <= i < |items| ==> r[i] == EnsureString(items[i])
  {
    seq(|items|, i requires 0 <= i < |items| => EnsureString(items[i]))
  }

  function StrItems(ws: seq<string>): (r: seq<Item>)
    ensures |r| == |ws| && forall i :: 0 <= i < |ws| ==> r[i] == Str(ws[i])
  {
    seq(|ws|, i requires 0 <= i < |ws| => Str(ws[i]))
  }

  /** Keywords that are already strings come out of `ensure_string` unchanged. */
  lemma EnsureStringsOfStrings(ws: seq<string>)
    ensures EnsureStrings(StrItems(ws)) == ws
  {
  }

  // ---------------------------------------------------------------- result dictionaries

  /** The nested `metrics` dictionary. */
  datatype Metrics = Metrics(tfidf: Option<int>, euclidean: Option<int>, manhattan: Option<int>, domain: Option<int>)

  /** The nested `keywords` dictionary. */
  datatype KeywordGroups = KeywordGroups(statement1: Option<seq<Item>>, statement2: Option<seq<Item>>, common: Option<seq<Item>>)

  /** Every key a comparison result can carry. */
  datatype RawResult = RawResult(
    error: Option<string>,
    statement1: Option<Item>, statement2: Option<Item>,
    basicScore: Option<int>, combinedScore: Option<int>, confidence: Option<int>,
    interpretation: Option<string>, overlapPercent: Option<int>,
    tfidfSimilarity: Option<int>, euclideanSimilarity: Option<int>,
    manhattanSimilarity: Option<int>, domainSimilarity: Option<int>,
    keywords1: Option<seq<Item>>, keywords2: Option<seq<Item>>, commonKeywords: Option<seq<Item>>,
    metrics: Option<Metrics>, keywords: Option<KeywordGroups>,
    originalIndex: Option<int>)

  /** The empty dictionary. */
  function EmptyResult(): RawResult
  {
    RawResult(None, None, None, None, None, None, None, None, None, None, None, None, None, None, None, None, None, None)
  }

  const ZeroMetrics := Metrics(Some(0), Some(0), Some(0), Some(0))

  /** The short error dictionary: `error`, zero scores and interpretation "error". */
  function ScoreErrorResult(message: string): (r: RawResult)
    ensures r.error == Some(message) && r.interpretation == Some("error")
    ensures r.basicScore == Some(0) && r.combinedScore == Some(0) && r.confidence == Some(0)
    ensures r.metrics.None? && r.keywords.None? && r.keywords1.None?
  {
    EmptyResult().(error := Some(message), basicScore := Some(0), combinedScore := Some(0),
      confidence := Some(0), interpretation := Some("error"))
  }

  /** The complete error dictionary of the parallel worker: every flat key, zero or empty, and zero metrics. */
  function FullErrorResult(message: string): (r: RawResult)
    ensures r.error == Some(message) && r.interpretation == Some("error")
    ensures r.basicScore == Some(0) && r.combinedScore == Some(0) && r.confidence == Some(0)
    ensures r.overlapPercent == Some(0) && r.tfidfSimilarity == Some(0) && r.domainSimilarity == Some(0)
    ensures r.keywords1 == Some([]) && r.keywords2 == Some([]) && r.commonKeywords == Some([])
    ensures r.euclideanSimilarity == Some(0) && r.manhattanSimilarity == Some(0) && r.metrics == Some(ZeroMetrics)
  {
    EmptyResult().(error := Some(message), basicScore := Some(0), combinedScore := Some(0),
      confidence := Some(0), interpretation := Some("error"), overlapPercent := Some(0),
      tfidfSimilarity := Some(0), euclideanSimilarity := Some(0), manhattanSimilarity := Some(0),
      domainSimilarity := Some(0), keywords1 := Some([]), keywords2 := Some([]),
      commonKeywords := Some([]), metrics := Some(ZeroMetrics))
  }

  /** The default `process_batch` uses for a slot holding no result. */
  function NoResult(): (r: RawResult)
    ensures r.error == Some("No result produced") && r.interpretation == Some("error")
    ensures r.metrics == Some(ZeroMetrics)
    ensures r.keywords == Some(KeywordGroups(Some([]), Some([]), Some([])))
  {
    EmptyResult().(error := Some("No result produced"), basicScore := Some(0), combinedScore := Some(0),
      confidence := Some(0), interpretation := Some("error"), overlapPercent := Some(0),
      metrics := Some(ZeroMetrics), keywords := Some(KeywordGroups(Some([]), Some([]), Some([]))))
  }

  // ---------------------------------------------------------------- formatting

  /** One formatted record of `process_batch`, with every key present. */
  datatype Record = Record(
    statement1: string, statement2: string,
    basicScore: int, combinedScore: int, confidence: int, interpretation: string, overlapPercent: int,
    tfidfSimilarity: int, euclideanSimilarity: int, manhattanSimilarity: int, domainSimilarity: int,
    keywords1: seq<string>, keywords2: seq<string>, commonKeywords: seq<string>)

  /** `r.get(flat, 0) if flat in r else r.get("metrics", {}).get(nested, 0)`. */
  function FlatOrMetric(flat: Option<int>, metrics: Option<Metrics>, pick: Metrics -> Option<int>): (v: int)
    ensures flat.Some? ==> v == flat.value
    ensures flat.None? && metrics.Some? && pick(metrics.value).Some? ==> v == pick(metrics.value).value
    ensures flat.None? && (metrics.None? || pick(metrics.value).None?) ==> v == 0
  {
    match flat
    case Some(x) => x
    case None =>
      match metrics
      case None => 0
      case Some(m) => pick(m).GetOr(0)
  }

  /** The same choice between a flat keyword list and the nested `keywords` dictionary. */
  function FlatOrKeywords(flat: Option<seq<Item>>, groups: Option<KeywordGroups>, pick: KeywordGroups -> Option<seq<Item>>): (v: seq<Item>)
    ensures flat.Some? ==> v == flat.value
    ensures flat.None? && groups.Some? && pick(groups.value).Some? ==> v == pick(groups.value).value
    ensures flat.None? && (groups.None? || pick(groups.value).None?) ==> v == []
  {
    match flat
    case Some(x) => x
    case None =>
      match groups
      case None => []
      case Some(g) => pick(g).GetOr([])
  }

  function PickTfidf(m: Metrics): Option<int> { m.tfidf }
  function PickEuclidean(m: Metrics): Option<int> { m.euclidean }
  function PickManhattan(m: Metrics): Option<int> { m.manhattan }
  function PickDomain(m: Metrics): Option<int> { m.domain }
  function PickStatement1(g: KeywordGroups): Option<seq<Item>> { g.statement1 }
  function PickStatement2(g: KeywordGroups): Option<seq<Item>> { g.statement2 }
  function PickCommon(g: KeywordGroups): Option<seq<Item>> { g.common }

  /**
   * The body of the formatting loop of `process_batch` for one pair: the statements of the
   * pair, the scores with their defaults, flat keys before nested ones, every keyword a string.
   */
  function Format(result: RawResult, stmt1: Item, stmt2: Item): (r: Record)
    ensures r.statement1 == EnsureString(stmt1) && r.statement2 == EnsureString(stmt2)
    ensures r.basicScore == result.basicScore.GetOr(0) && r.combinedScore == result.combinedScore.GetOr(0)
    ensures r.confidence == result.confidence.GetOr(0) && r.overlapPercent == result.overlapPercent.GetOr(0)
    ensures r.interpretation == result.interpretation.GetOr("unknown")
    ensures r.tfidfSimilarity == FlatOrMetric(result.tfidfSimilarity, result.metrics, PickTfidf)
    ensures r.euclideanSimilarity == FlatOrMetric(result.euclideanSimilarity, result.metrics, PickEuclidean)
    ensures r.manhattanSimilarity == FlatOrMetric(result.manhattanSimilarity, result.metrics, PickManhattan)
    ensures r.domainSimilarity == FlatOrMetric(result.domainSimilarity, result.metrics, PickDomain)
    ensures r.keywords1 == EnsureStrings(FlatOrKeywords(result.keywords1, result.keywords, PickStatement1))
    ensures r.keywords2 == EnsureStrings(FlatOrKeywords(result.keywords2, result.keywords, PickStatement2))
    ensures r.commonKeywords == EnsureStrings(FlatOrKeywords(result.commonKeywords, result.keywords, PickCommon))
  {
    Record(
      EnsureString(stmt1), EnsureString(stmt2),
      result.basicScore.GetOr(0), result.combinedScore.GetOr(0), result.confidence.GetOr(0),
      result.interpretation.GetOr("unknown"), result.overlapPercent.GetOr(0),
      FlatOrMetric(result.tfidfSimilarity, result.metrics, PickTfidf),
      FlatOrMetric(result.euclideanSimilarity, result.metrics, PickEuclidean),
      FlatOrMetric(result.manhattanSimilarity, result.metrics, PickManhattan),
      FlatOrMetric(result.domainSimilarity, result.metrics, PickDomain),
      EnsureStrings(FlatOrKeywords(result.keywords1, result.keywords, PickStatement1)),
      EnsureStrings(FlatOrKeywords(result.keywords2, result.keywords, PickStatement2)),
      EnsureStrings(FlatOrKeywords(result.commonKeywords, result.keywords, PickCommon)))
  }

  /** A formatted record, read back as a flat dictionary. */
  function FlatResult(r: Record): RawResult
  {
    EmptyResult().(
      statement1 := Some(Str(r.statement1)), statement2 := Some(Str(r.statement2)),
      basicScore := Some(r.basicScore), combinedScore := Some(r.combinedScore),
      confidence := Some(r.confidence), interpretation := Some(r.interpretation),
      overlapPercent := Some(r.overlapPercent),
      tfidfSimilarity := Some(r.tfidfSimilarity), euclideanSimilarity := Some(r.euclideanSimilarity),
      manhattanSimilarity := Some(r.manhattanSimilarity), domainSimilarity := Some(r.domainSimilarity),
      keywords1 := Some(StrItems(r.keywords1)), keywords2 := Some(StrItems(r.keywords2)),
      commonKeywords := Some(StrItems(r.commonKeywords)))
  }

  /** Formatting is a normal form: a formatted record formats to itself. */
  lemma FormatIdempotent(r: Record)
    ensures Format(FlatResult(r), Str(r.statement1), Str(r.statement2)) == r
  {
    EnsureStringsOfStrings(r.keywords1);
    EnsureStringsOfStrings(r.keywords2);
    EnsureStringsOfStrings(r.commonKeywords);
  }

  /**
   * A result carrying only the nested dictionaries is read through them, and the
   * default for a missing result has zero scores, interpretation "error" and no keywords.
   */
  lemma FormatNested(result: RawResult, stmt1: Item, stmt2: Item, m: Metrics, g: KeywordGroups)
    requires result.tfidfSimilarity.None? && result.domainSimilarity.None? && result.keywords1.None?
    requires result.metrics == Some(m) && result.keywords == Some(g)
    ensures Format(result, stmt1, stmt2).tfidfSimilarity == m.tfidf.GetOr(0)
    ensures Format(result, stmt1, stmt2).domainSimilarity == m.domain.GetOr(0)
    ensures Format(result, stmt1, stmt2).keywords1 == EnsureStrings(g.statement1.GetOr([]))
  {
  }

  lemma FormatNoResult(stmt1: Item, stmt2: Item)
    ensures var r := Format(NoResult(), stmt1, stmt2);
      && r.basicScore == 0 && r.combinedScore == 0 && r.confidence == 0 && r.overlapPercent == 0
      && r.interpretation == "error"
      && r.tfidfSimilarity == 0 && r.euclideanSimilarity == 0 && r.manhattanSimilarity == 0 && r.domainSimilarity == 0
      && r.keywords1 == [] && r.keywords2 == [] && r.commonKeywords == []
  {
  }
}
