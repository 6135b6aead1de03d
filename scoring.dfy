/**
 * The comparison entry points of the scoring module: `determine_optimal_workers`,
 * `process_comparison_with_embeddings`, `process_comparison_pair`, `compare_statements`,
 * and the lazily loaded model with `compare_all_statements`. The outcomes of the sentence
 * encoder, the TF-IDF vectorizer and spaCy for a statement or a pair are supplied by an
 * `Oracles` record; the model instance is an uninterpreted number.
 */
module Scoring {
  import opened Wrappers
  import opened Numeric
  import opened Seqs
  import opened Text
  import opened Interpretation
  import opened Keywords
  import opened Similarity
  import opened Results

  // ---------------------------------------------------------------- worker count

  /** `os.cpu_count() or 4`: an unknown count and a count of 0 both give 4. */
  function CpuCores(count: Option<nat>): (c: nat)
    ensures c >= 1
    ensures count.Some? && count.value > 0 ==> c == count.value
  {
    if count.None? || count.value == 0 then 4 else count.value
  }

  /** Free memory per `nvidia-smi` line: `total - used`. */
  function AvailableVram(lines: seq<(int, int)>): (r: seq<int>)
    ensures |r| == |lines| && forall i :: 0 <= i < |lines| ==> r[i] == lines[i].0 - lines[i].1
  {
    seq(|lines|, i requires 0 <= i < |lines| => lines[i].0 - lines[i].1)
  }

  /** One worker per GiB of 80 percent of the free memory, between 1 and 16. */
  function VramWorkers(totalAvailable: int): int
  {
    Max(1, Min(16, Trunc(totalAvailable as real * 0.8 / 1024.0)))
  }

  /**
   * `determine_optimal_workers`, `smi` being the parsed `(total, used)` lines of
   * `nvidia-smi`, or `None` when running or parsing it raised.
   */
  function DetermineOptimalWorkers(isDarwin: bool, cpuCount: Option<nat>, smi: Option<seq<(int, int)>>): (r: int)
    ensures r >= 1
    ensures isDarwin ==> r == Max(1, CpuCores(cpuCount) - 1)
    ensures !isDarwin ==> r <= 16
    ensures !isDarwin && (smi.None? || smi.value == []) ==> r == 4
    ensures !isDarwin && smi.Some? && smi.value != [] ==> r == VramWorkers(Sum(AvailableVram(smi.value)))
  {
    if isDarwin then Max(1, CpuCores(cpuCount) - 1)
    else match smi
      case None => 4
      case Some(lines) =>
        if lines == [] then 4 else VramWorkers(Sum(AvailableVram(lines)))
  }

  /** The VRAM path gives 16 workers exactly from 20480 MB free, and 1 worker exactly below 2560 MB. */
  lemma VramWorkersThresholds(total: int)
    ensures VramWorkers(total) == 16 <==> total >= 20480
    ensures VramWorkers(total) == 1 <==> total < 2560
    ensures 1 <= VramWorkers(total) <= 16
  {
    var x := total as real * 0.8 / 1024.0;
    assert x >= 16.0 <==> total >= 20480;
    assert x < 2.0 <==> total < 2560;
  }

  // ---------------------------------------------------------------- comparison from embeddings

  const LocalStopwords: set<string> := {
    "und", "der", "die", "das", "ein", "eine", "zu", "in", "ist", "es", "für", "von", "wird" }

  predicate IsLocalKeyword(w: string)
  {
    |w| > 2 && w !in LocalStopwords
  }

  /** The keyword list of `process_comparison_with_embeddings`: split words, neither short nor stop words. */
  function LocalKeywords(text: string): (r: seq<string>)
    ensures forall w :: w in r <==> w in SplitWords(text) && IsLocalKeyword(w)
  {
    Filter(SplitWords(text), IsLocalKeyword)
  }

  function InList(ks: seq<string>): string -> bool
  {
    w => w in ks
  }

  /**
   * `list(set(keywords1).intersection(set(keywords2)))`: each shared keyword once. The set's
   * iteration order is taken to be the order of first occurrence in the first list.
   */
  function SharedSet(keywords1: seq<string>, keywords2: seq<string>): (r: seq<string>)
    ensures Distinct(r)
    ensures forall w :: w in r <==> w in keywords1 && w in keywords2
  {
    Dedup(Filter(keywords1, InList(keywords2)))
  }

  /** The share of the second statement's keywords found in the first, in percent. */
  function StatementOverlap(keywords1: seq<string>, keywords2: seq<string>): (r: int)
    ensures 0 <= r <= 100
    ensures keywords1 == [] || keywords2 == [] ==> r == 0
    ensures keywords1 != [] && keywords2 != [] ==> r == (100 * |SharedSet(keywords1, keywords2)|) / |keywords2|
  {
    if keywords1 != [] && keywords2 != [] then
      var c := SharedSet(keywords1, keywords2);
      TruncPercent(|c|, |keywords2|);
      DistinctSubsetLength(c, keywords2);
      PercentAtMost100(|c|, |keywords2|);
      Trunc(|c| as real / |keywords2| as real * 100.0)
    else 0
  }

  /** `int((1 - min(d / maxDistance, 1)) * 100)`. */
  function ScaledDistanceScore(d: Distance, maxDistance: real): (r: int)
    requires maxDistance > 0.0
    ensures 0 <= r <= 100
    ensures d == 0.0 ==> r == 100
    ensures d >= maxDistance ==> r == 0
  {
    var x := (1.0 - MinReal(d / maxDistance, 1.0)) * 100.0;
    TruncMonotone(x, 100.0);
    Trunc(x)
  }

  /** `min(15, overlap // 10 * 3)`: three points per full ten percent of overlap, at most fifteen. */
  function KeywordBonus(overlap: int): (r: int)
    ensures r <= 15
    ensures overlap >= 0 ==> r >= 0
    ensures overlap >= 50 ==> r == 15
  {
    Min(15, overlap / 10 * 3)
  }

  lemma KeywordBonusMonotone(a: int, b: int)
    requires a <= b
    ensures KeywordBonus(a) <= KeywordBonus(b)
  {
    assert a / 10 <= b / 10;
  }

  /** What the numeric libraries yield for one pair of precomputed embeddings. */
  datatype EmbeddingMetrics = EmbeddingMetrics(
    cosine: real, euclidean: Distance, manhattan: Distance, tfidf: Option<real>)

  function BasicScore(cosineScore: int, tfidfScore: int): int
  {
    Trunc(cosineScore as real * 0.7 + tfidfScore as real * 0.3)
  }

  /** `min(100, basic + bonus)`: the bonus adds at most 15 and the result never exceeds 100. */
  function BoostedScore(basic: int, overlap: int): (r: int)
    ensures r <= 100
    ensures r <= basic + 15
    ensures overlap >= 0 ==> r >= Min(100, basic)
  {
    Min(100, basic + KeywordBonus(overlap))
  }

  /** `int(min(100, 50 + (cosine - 50) * 0.7 + overlap * 0.3))`. */
  function EmbeddingConfidence(cosineScore: int, overlap: int): (r: int)
    ensures r <= 100
    ensures 0 <= cosineScore && 0 <= overlap ==> r >= 15
  {
    var x := MinReal(100.0, 50.0 + (cosineScore - 50) as real * 0.7 + overlap as real * 0.3);
    TruncMonotone(x, 100.0);
    if 0 <= cosineScore && 0 <= overlap then TruncAtLeast(x, 15); Trunc(x) else Trunc(x)
  }

  /**
   * `process_comparison_with_embeddings`: overlap of the simple keyword lists, the scores
   * derived from the precomputed embeddings, the keyword bonus and the four-label scheme,
   * reported through the nested `metrics` and `keywords` dictionaries.
   */
  function ProcessComparisonWithEmbeddings(s1: string, s2: string, m: EmbeddingMetrics): (r: RawResult)
    ensures r.statement1 == Some(Str(s1)) && r.statement2 == Some(Str(s2)) && r.error.None?
    ensures var overlap, cosineScore := StatementOverlap(LocalKeywords(s1), LocalKeywords(s2)), Trunc(m.cosine * 100.0);
      var basic := BasicScore(cosineScore, TfidfScore(m.tfidf));
      && r.overlapPercent == Some(overlap)
      && r.basicScore == Some(basic)
      && r.combinedScore == Some(BoostedScore(basic, overlap))
      && r.confidence == Some(EmbeddingConfidence(cosineScore, overlap))
      && r.metrics == Some(Metrics(Some(TfidfScore(m.tfidf)), Some(ScaledDistanceScore(m.euclidean, 2.0)),
           Some(ScaledDistanceScore(m.manhattan, 10.0)), Some(Trunc(cosineScore as real * 0.5 + overlap as real * 0.5))))
    ensures r.overlapPercent.Some? && 0 <= r.overlapPercent.value <= 100
    ensures r.combinedScore.Some? && r.combinedScore.value <= 100
    ensures r.confidence.Some? && r.confidence.value <= 100
    ensures r.interpretation == Some(MatchLabel(r.combinedScore.value)) && r.interpretation.value in MatchLabels
    ensures r.metrics.Some? && r.metrics.value.euclidean.Some? && r.metrics.value.manhattan.Some?
    ensures 0 <= r.metrics.value.euclidean.value <= 100 && 0 <= r.metrics.value.manhattan.value <= 100
    ensures r.tfidfSimilarity.None? && r.keywords1.None? && r.keywords2.None? && r.commonKeywords.None?
    ensures r.keywords.Some? && r.keywords.value.common == Some(StrItems(SharedSet(LocalKeywords(s1), LocalKeywords(s2))))
    ensures r.keywords.value.statement1 == Some(StrItems(LocalKeywords(s1)))
    ensures r.keywords.value.statement2 == Some(StrItems(LocalKeywords(s2)))
  {
    var keywords1 := LocalKeywords(s1);
    var keywords2 := LocalKeywords(s2);
    var common := if keywords1 != [] && keywords2 != [] then SharedSet(keywords1, keywords2) else [];
    var overlap := StatementOverlap(keywords1, keywords2);
    var cosineScore := Trunc(m.cosine * 100.0);
    var tfidf := TfidfScore(m.tfidf);
    var euclidean := ScaledDistanceScore(m.euclidean, 2.0);
    var manhattan := ScaledDistanceScore(m.manhattan, 10.0);
    var domain := Trunc(cosineScore as real * 0.5 + overlap as real * 0.5);
    var basic := BasicScore(cosineScore, tfidf);
    var combined := BoostedScore(basic, overlap);
    var confidence := EmbeddingConfidence(cosineScore, overlap);
    assert common == SharedSet(keywords1, keywords2) by {
      if keywords2 == [] {
        FilterNone(keywords1, InList(keywords2));
      }
    }
    EmptyResult().(
      statement1 := Some(Str(s1)), statement2 := Some(Str(s2)),
      basicScore := Some(basic), combinedScore := Some(combined), confidence := Some(confidence),
      interpretation := Some(MatchLabel(combined)), overlapPercent := Some(overlap),
      metrics := Some(Metrics(Some(tfidf), Some(euclidean), Some(manhattan), Some(domain))),
      keywords := Some(KeywordGroups(Some(StrItems(keywords1)), Some(StrItems(keywords2)), Some(StrItems(common)))))
  }

  // ---------------------------------------------------------------- comparison of one pair

  /**
   * What `get_domain_similarity` learns from outside for a pair: the tokens spaCy finds in
   * both texts (`None` when loading or parsing raised), the iteration order of each word set,
   * and the cosine of the weighted domain vectors (`None` when encoding raised).
   */
  datatype DomainInputs = DomainInputs(
    parsed: Option<(seq<Token>, seq<Token>)>, hashRank1: string -> real, hashRank2: string -> real,
    domainSim: Option<real>)

  /**
   * What the external libraries report for statements and pairs of statements. `analysis`
   * is spaCy's parse of a text with the model chosen for a language code; `detected` is what
   * langdetect returns for a text, `None` when it raised or is not installed.
   */
  datatype Oracles = Oracles(
    encoding: (string, string) -> Encoding,
    tfidf: (string, string) -> Option<real>,
    domain: (string, string) -> DomainInputs,
    analysis: (string, string) -> Analysis,
    detected: string -> Option<string>,
    keywordEncode: string -> bool,
    keywordSim: (string, string) -> real)

  /** The language `extract_keywords_spacy` assumes when its caller passes none. */
  const DefaultLanguage := "de"

  /** `detect_language`: the detected code, or German when detection raised. */
  function DetectLanguage(s: string, o: Oracles): (r: string)
    ensures o.detected(s).None? ==> r == DefaultLanguage
    ensures o.detected(s).Some? ==> r == o.detected(s).value
  {
    o.detected(s).GetOr(DefaultLanguage)
  }

  /** The unique content words of both statements, as `get_domain_similarity` computes them. */
  function DomainWordsOf(s1: string, s2: string, d: DomainInputs): (r: (seq<string>, seq<string>))
    ensures r.0 == DomainWords(s1, if d.parsed.Some? then Some(d.parsed.value.0) else None, d.hashRank1)
    ensures r.1 == DomainWords(s2, if d.parsed.Some? then Some(d.parsed.value.1) else None, d.hashRank2)
  {
    match d.parsed
    case Some((tokens1, tokens2)) => (DomainWords(s1, Some(tokens1), d.hashRank1), DomainWords(s2, Some(tokens2), d.hashRank2))
    case None => (DomainWords(s1, None, d.hashRank1), DomainWords(s2, None, d.hashRank2))
  }

  /** `get_alternative_similarity_scores` with the domain score computed from the statements' own content words. */
  function AltScoresOf(s1: string, s2: string, o: Oracles): AltScores
  {
    var d := o.domain(s1, s2);
    var words := DomainWordsOf(s1, s2, d);
    AlternativeScores(o.encoding(s1, s2), o.tfidf(s1, s2), DomainSimilarity(words.0, words.1, d.domainSim))
  }

  /** The success dictionary of `process_comparison_pair` for the given scores and keyword lists. */
  function PairScores(scores: AltScores, keywords1: seq<string>, keywords2: seq<string>): (r: RawResult)
    ensures r.error.None?
    ensures r.basicScore == Some(scores.standard) && r.combinedScore == Some(scores.combined)
    ensures r.confidence == Some(scores.confidence.GetOr(0))
    ensures r.interpretation == Some(Interpret(scores.combined))
    ensures r.overlapPercent.Some? && 0 <= r.overlapPercent.value <= 100
    ensures keywords1 == [] || keywords2 == [] ==> r.overlapPercent == Some(0)
    ensures r.overlapPercent == Some(OverlapPercent(|Filter(keywords1, SharedWith(keywords2))|, |keywords1|, |keywords2|))
    ensures r.metrics == Some(Metrics(Some(scores.tfidf), Some(scores.euclidean), Some(scores.manhattan), Some(scores.domain)))
    ensures r.keywords == Some(KeywordGroups(Some(StrItems(keywords1)), Some(StrItems(keywords2)),
      Some(StrItems(Filter(keywords1, SharedWith(keywords2))))))
  {
    var common := Filter(keywords1, SharedWith(keywords2));
    EmptyResult().(
      basicScore := Some(scores.standard), combinedScore := Some(scores.combined),
      confidence := Some(scores.confidence.GetOr(0)),
      interpretation := Some(Interpret(scores.combined)),
      overlapPercent := Some(OverlapPercent(|common|, |keywords1|, |keywords2|)),
      metrics := Some(Metrics(Some(scores.tfidf), Some(scores.euclidean), Some(scores.manhattan), Some(scores.domain))),
      keywords := Some(KeywordGroups(Some(StrItems(keywords1)), Some(StrItems(keywords2)), Some(StrItems(common)))))
  }

  /**
   * `process_comparison_pair`. The alternative scores never raise; a missing spaCy makes the
   * keyword extraction raise, which gives the short error dictionary. The precomputed
   * embeddings are accepted and not used.
   */
  function ProcessComparisonPair(s1: string, s2: string, precomputed: Option<map<string, seq<real>>>, o: Oracles): (r: RawResult)
    ensures r.error.Some? <==> o.analysis(s1, DefaultLanguage).SpacyMissing? || o.analysis(s2, DefaultLanguage).SpacyMissing?
    ensures r.error.Some? ==> r == ScoreErrorResult(r.error.value)
    ensures r.error.None? ==>
      r == PairScores(AltScoresOf(s1, s2, o),
        ExtractKeywordsSpacy(s1, o.analysis(s1, DefaultLanguage)).value, ExtractKeywordsSpacy(s2, o.analysis(s2, DefaultLanguage)).value)
  {
    var keywords1 := ExtractKeywordsSpacy(s1, o.analysis(s1, DefaultLanguage));
    var keywords2 := ExtractKeywordsSpacy(s2, o.analysis(s2, DefaultLanguage));
    if keywords1.Err? then ScoreErrorResult(keywords1.message)
    else if keywords2.Err? then ScoreErrorResult(keywords2.message)
    else PairScores(AltScoresOf(s1, s2, o), keywords1.value, keywords2.value)
  }

  /** A successful comparison has a confidence in [0, 100] and the five-label interpretation of its combined score. */
  lemma ProcessComparisonPairRanges(s1: string, s2: string, p: Option<map<string, seq<real>>>, o: Oracles)
    ensures var r := ProcessComparisonPair(s1, s2, p, o);
      && r.interpretation.Some? && r.interpretation.value in Labels + ["error"]
      && r.confidence.Some? && 0 <= r.confidence.value <= 100
      && (r.overlapPercent.Some? ==> 0 <= r.overlapPercent.value <= 100)
  {
    var r := ProcessComparisonPair(s1, s2, p, o);
    if r.error.None? {
      assert r.interpretation.value in Labels;
    }
  }

  /** The precomputed embeddings have no influence on the result. */
  lemma PrecomputedIgnored(s1: string, s2: string, p: Option<map<string, seq<real>>>, o: Oracles)
    ensures ProcessComparisonPair(s1, s2, p, o) == ProcessComparisonPair(s1, s2, None, o)
  {
  }

  // ---------------------------------------------------------------- compare_statements

  /** The result list of `compare_statements`, before its conversion into key-value tuples. */
  datatype Comparison = Comparison(
    similarityScore: int, keywords1: seq<string>, keywords2: seq<string>, overlapPercent: int,
    commonKeywords: seq<SemanticMatch>, combinedScore: int, confidence: int, interpretation: string)

  /** The specification of `find_semantic_keyword_overlap`, with its proved properties. */
  function SemanticOverlap(keywords1: seq<string>, keywords2: seq<string>, sim: (string, string) -> real): (r: seq<SemanticMatch>)
    ensures SortedDesc(r, MatchSim)
    ensures forall m :: m in r <==> m.k1 in keywords1 && m.k2 in keywords2 && IsMatch(m, sim)
  {
    var candidates := CandidateMatches(keywords1, keywords2, sim);
    SortDescSpec(candidates, MatchSim);
    var r := SortDesc(candidates, MatchSim);
    assert forall m :: m in r <==> m in candidates by {
      forall m ensures m in r <==> m in candidates {
        assert m in r <==> m in multiset(r);
      }
    }
    r
  }

  /** `min(100, int(matches / max(n1, n2) * 100))`; both keyword lists empty divide by zero. */
  function SemanticOverlapPercent(matches: nat, n1: nat, n2: nat): (r: Result<int>)
    ensures r.Err? <==> n1 == 0 && n2 == 0
    ensures r.Ok? ==> 0 <= r.value <= 100 && r.value == Min(100, (100 * matches) / Max(n1, n2))
  {
    if n1 == 0 && n2 == 0 then Err("division by zero")
    else
      TruncPercent(matches, Max(n1, n2));
      Ok(Min(100, Trunc(matches as real / Max(n1, n2) as real * 100.0)))
  }

  /**
   * `compare_statements`: the standard score (an encoder failure raises), the alternative
   * scores, the semantic keywords of both statements and their semantic overlap relative to
   * the longer keyword list (both lists empty divide by zero), and the five-label
   * interpretation of the combined score.
   */
  function CompareStatements(s1: string, s2: string, o: Oracles): (r: Result<Comparison>)
    ensures var k1, k2 := SemanticKeywordsOf(s1, o), SemanticKeywordsOf(s2, o);
      r.Err? <==> o.encoding(s1, s2).EncodeFailed? || (k1 == [] && k2 == [])
    ensures r.Ok? ==> r == CompareEncoded(s1, s2, o.encoding(s1, s2).cosine, o)
  {
    match o.encoding(s1, s2)
    case EncodeFailed(msg) => Err(msg)
    case Encoded(cosine, _, _) => CompareEncoded(s1, s2, cosine, o)
  }

  /** The rest of `compare_statements` once the statements are encoded, with cosine `cosine`. */
  function CompareEncoded(s1: string, s2: string, cosine: real, o: Oracles): (r: Result<Comparison>)
    ensures var k1, k2 := SemanticKeywordsOf(s1, o), SemanticKeywordsOf(s2, o);
      r.Err? <==> k1 == [] && k2 == []
    ensures r.Ok? ==>
      var k1, k2 := SemanticKeywordsOf(s1, o), SemanticKeywordsOf(s2, o);
      var alt := AltScoresOf(s1, s2, o);
      && r.value.similarityScore == StandardSimilarity(cosine, o.tfidf(s1, s2))
      && r.value.keywords1 == k1 && r.value.keywords2 == k2
      && r.value.commonKeywords == SemanticOverlap(k1, k2, o.keywordSim)
      && SemanticOverlapPercent(|r.value.commonKeywords|, |k1|, |k2|) == Ok(r.value.overlapPercent)
      && r.value.combinedScore == alt.combined
      && r.value.confidence == alt.confidence.GetOr(80)
    ensures r.Ok? ==>
      && 0 <= r.value.overlapPercent <= 100
      && r.value.interpretation == Interpret(r.value.combinedScore)
      && r.value.interpretation in Labels
      && SortedDesc(r.value.commonKeywords, MatchSim)
      && (forall m :: m in r.value.commonKeywords <==>
            m.k1 in r.value.keywords1 && m.k2 in r.value.keywords2 && IsMatch(m, o.keywordSim))
  {
    var score := StandardSimilarity(cosine, o.tfidf(s1, s2));
    var alt := AltScoresOf(s1, s2, o);
    var keywords1 := SemanticKeywordsOf(s1, o);
    var keywords2 := SemanticKeywordsOf(s2, o);
    var matches := SemanticOverlap(keywords1, keywords2, o.keywordSim);
    match SemanticOverlapPercent(|matches|, |keywords1|, |keywords2|)
    case Err(e) => Err(e)
    case Ok(overlap) =>
      Ok(Comparison(score, keywords1, keywords2, overlap, matches, alt.combined,
        alt.confidence.GetOr(80), Interpret(alt.combined)))
  }

  /** `extract_semantic_keywords(...)["keywords"]`, the keyword encoding succeeding or raising as the oracle says. */
  function SemanticKeywordsOf(s: string, o: Oracles): (r: seq<string>)
    ensures |r| <= 10 && Distinct(r)
    ensures !o.keywordEncode(s) ==> r == []
    ensures o.keywordEncode(s) ==> r == ExtractSemanticKeywords(s, o.analysis(s, DetectLanguage(s, o)), true)
    ensures o.keywordEncode(s) && !o.analysis(s, DetectLanguage(s, o)).SpacyMissing? ==>
      r == ExtractKeywordsSpacy(s, o.analysis(s, DetectLanguage(s, o))).value
  {
    ExtractSemanticKeywords(s, o.analysis(s, DetectLanguage(s, o)), o.keywordEncode(s))
  }

  // ---------------------------------------------------------------- compare_all_statements

  /** `[(i, o) for i in inputs for o in outputs]`. */
  function CrossProduct(inputs: seq<string>, outputs: seq<string>): (r: seq<(string, string)>)
    ensures |r| == |inputs| * |outputs|
  {
    if inputs == [] then []
    else
      var row := seq(|outputs|, j requires 0 <= j < |outputs| => (inputs[0], outputs[j]));
      row + CrossProduct(inputs[1..], outputs)
  }

  /** Row-major order: pair `i * |outputs| + j` compares input `i` with output `j`. */
  lemma {:induction false} CrossProductIndex(inputs: seq<string>, outputs: seq<string>, i: nat, j: nat)
    requires i < |inputs| && j < |outputs|
    ensures i * |outputs| + j < |CrossProduct(inputs, outputs)|
    ensures CrossProduct(inputs, outputs)[i * |outputs| + j] == (inputs[i], outputs[j])
  {
    if i > 0 {
      CrossProductIndex(inputs[1..], outputs, i - 1, j);
      assert (i - 1) * |outputs| + j + |outputs| == i * |outputs| + j;
    }
  }

  /** The result of one pair as `compare_all_statements` collects it, statements attached. */
  function PairResult(pair: (string, string), o: Oracles): RawResult
  {
    ProcessComparisonPair(pair.0, pair.1, None, o).(statement1 := Some(Str(pair.0)), statement2 := Some(Str(pair.1)))
  }

  /** The result of every pair, in pair order. */
  function AllPairResults(pairs: seq<(string, string)>, o: Oracles): (r: seq<RawResult>)
    ensures |r| == |pairs| && forall i :: 0 <= i < |pairs| ==> r[i] == PairResult(pairs[i], o)
  {
    seq(|pairs|, i requires 0 <= i < |pairs| => PairResult(pairs[i], o))
  }

  /** The one-element list returned when the batch as a whole raised. */
  predicate IsOuterFailure(results: seq<RawResult>)
  {
    |results| == 1 && results[0].error.Some? && results[0] == EmptyResult().(error := results[0].error)
  }

  /**
   * The statement embedding table: encoded in batches of 32 statements, every statement
   * mapped to its embedding.
   */
  method FillEmbeddingTable(statements: seq<string>, embed: string -> seq<real>)
    returns (table: map<string, seq<real>>, batches: seq<seq<string>>)
    ensures forall s :: s in table <==> s in statements
    ensures forall s :: s in table ==> table[s] == embed(s)
    ensures batches == Chunks(statements, 32)
  {
    table := map[];
    batches := [];
    var i := 0;
    while i < |statements|
      invariant 0 <= i <= |statements|
      invariant batches + Chunks(statements[i..], 32) == Chunks(statements, 32)
      invariant forall s :: s in table <==> s in statements[..i]
      invariant forall s :: s in table ==> table[s] == embed(s)
    {
      var end := Min(i + 32, |statements|);
      var batch := statements[i..end];
      var embeddings := seq(|batch|, k requires 0 <= k < |batch| => embed(batch[k]));
      for j := 0 to |batch|
        invariant forall s :: s in table <==> s in statements[..i] || s in batch[..j]
        invariant forall s :: s in table ==> table[s] == embed(s)
      {
        assert batch[..j + 1] == batch[..j] + [batch[j]];
        table := table[batch[j] := embeddings[j]];
      }
      assert batch[..|batch|] == batch;
      assert statements[..end] == statements[..i] + batch;
      if |statements[i..]| <= 32 {
        assert batch == statements[i..];
      } else {
        assert statements[i..][..32] == batch;
        assert statements[i..][32..] == statements[end..];
      }
      batches := batches + [batch];
      i := end;
    }
    assert statements[..i] == statements;
  }

  /**
   * The collection loop of `compare_all_statements`: each comparison, as it completes, is
   * tagged with its statements and appended.
   */
  method CollectResults(pairs: seq<(string, string)>, table: map<string, seq<real>>, o: Oracles, completion: seq<nat>)
    returns (results: seq<RawResult>)
    requires forall k :: 0 <= k < |completion| ==> completion[k] < |pairs|
    ensures IsReordering(results, AllPairResults(pairs, o), completion)
  {
    results := [];
    for k := 0 to |completion|
      invariant |results| == k && IsReordering(results, AllPairResults(pairs, o), completion[..k])
    {
      results := CollectNext(pairs, table, o, completion, results);
    }
    assert completion[..|completion|] == completion;
  }

  /** One `future.result()` of the collection loop: the pair that completed next is scored and tagged. */
  method CollectNext(pairs: seq<(string, string)>, table: map<string, seq<real>>, o: Oracles, completion: seq<nat>,
                     results: seq<RawResult>)
    returns (results': seq<RawResult>)
    requires forall k :: 0 <= k < |completion| ==> completion[k] < |pairs|
    requires |results| < |completion| && IsReordering(results, AllPairResults(pairs, o), completion[..|results|])
    ensures IsReordering(results', AllPairResults(pairs, o), completion[..|results| + 1])
  {
    var k := |results|;
    var pair := pairs[completion[k]];
    PrecomputedIgnored(pair.0, pair.1, Some(table), o);
    var result := ProcessComparisonPair(pair.0, pair.1, Some(table), o);
    var tagged := result.(statement1 := Some(Str(pair.0)), statement2 := Some(Str(pair.1)));
    assert tagged == AllPairResults(pairs, o)[completion[k]];
    ReorderingSnoc(results, AllPairResults(pairs, o), completion, tagged);
    results' := results + [tagged];
  }

  /** The message of a failed model construction; the program's own message comes from the library. */
  const ModelLoadError := "model could not be loaded"

  /** The module-level model of the scoring functions: `_model` and `_initialized`. */
  class ScoringSession {
    var model: Option<nat>
    var initialized: bool

    /** The flag is set exactly when a model is held. */
    ghost predicate Valid()
      reads this
    {
      initialized <==> model.Some?
    }

    constructor()
      ensures model == None && !initialized && Valid()
    {
      model := None;
      initialized := false;
    }

    /**
     * `_get_model`: a held model is returned again; otherwise `load` is the outcome of
     * constructing one (`None` when it raised, which propagates and changes nothing).
     */
    method GetModel(load: Option<nat>) returns (r: Result<nat>)
      modifies this
      ensures old(model).Some? ==> r == Ok(old(model).value) && model == old(model) && initialized == old(initialized)
      ensures old(model).None? && load.Some? ==> r == Ok(load.value) && model == load && initialized
      ensures old(model).None? && load.None? ==> r.Err? && model == None && initialized == old(initialized)
      ensures old(Valid()) ==> Valid()
    {
      if model.None? {
        if load.None? {
          return Err(ModelLoadError);
        }
        model := load;
        initialized := true;
      }
      r := Ok(model.value);
    }

    /**
     * `compare_statements` as a call on the session: `get_similarity_score` loads the model
     * first, outside any inner `try`, so a failed load is the error result; once loaded, the
     * later `_get_model` calls return the held model.
     */
    method RunCompareStatements(s1: string, s2: string, load: Option<nat>, o: Oracles) returns (r: Result<Comparison>)
      modifies this
      ensures model == (if old(model).Some? then old(model) else load)
      ensures initialized == (if old(model).None? && load.Some? then true else old(initialized))
      ensures old(Valid()) ==> Valid()
      ensures model.None? ==> r.Err?
      ensures model.Some? ==> r == CompareStatements(s1, s2, o)
    {
      var m := GetModel(load);
      if m.Err? {
        return Err(m.message);
      }
      r := CompareStatements(s1, s2, o);
    }

    /**
     * `process_comparison_pair` as a call on the session: `get_alternative_similarity_scores`
     * loads the model inside its own `try`, so a failed load gives its failure dictionary, as a
     * failed encoding does, and the keywords are still extracted.
     */
    method RunProcessComparisonPair(s1: string, s2: string, precomputed: Option<map<string, seq<real>>>,
                                    load: Option<nat>, o: Oracles) returns (r: RawResult)
      modifies this
      ensures model == (if old(model).Some? then old(model) else load)
      ensures initialized == (if old(model).None? && load.Some? then true else old(initialized))
      ensures old(Valid()) ==> Valid()
      ensures model.Some? ==> r == ProcessComparisonPair(s1, s2, precomputed, o)
      ensures model.None? ==>
        r == ProcessComparisonPair(s1, s2, precomputed, o.(encoding := (a: string, b: string) => EncodeFailed(ModelLoadError)))
    {
      var m := GetModel(load);
      if m.Err? {
        r := ProcessComparisonPair(s1, s2, precomputed, o.(encoding := (a: string, b: string) => EncodeFailed(ModelLoadError)));
        return;
      }
      r := ProcessComparisonPair(s1, s2, precomputed, o);
    }

    /** `is_model_loaded`. */
    function IsModelLoaded(): (s: string)
      reads this
      ensures s == "loaded" || s == "not loaded"
      ensures Valid() ==> (s == "loaded" <==> model.Some?)
    {
      if initialized then "loaded" else "not loaded"
    }

    /**
     * `compare_all_statements`: after loading the model and encoding every statement, every
     * input-output pair is compared and the results are appended in the order the
     * comparisons complete, `completion` listing the pair indices in that order. A failure to
     * load or to encode gives the one-element error list.
     */
    method CompareAllStatements(inputs: seq<string>, outputs: seq<string>, load: Option<nat>,
                                embed: string -> seq<real>, encodeOk: bool, o: Oracles, completion: seq<nat>)
      returns (results: seq<RawResult>)
      requires IsPermutation(completion, |inputs| * |outputs|)
      modifies this
      ensures model == (if old(model).Some? then old(model) else load)
      ensures initialized == (if old(model).None? && load.Some? then true else old(initialized))
      ensures old(Valid()) ==> Valid()
      ensures model.None? || (!encodeOk && inputs + outputs != []) ==> IsOuterFailure(results)
      ensures model.Some? && (encodeOk || inputs + outputs == []) ==>
        IsReordering(results, AllPairResults(CrossProduct(inputs, outputs), o), completion)
    {
      var m := GetModel(load);
      if m.Err? {
        return [EmptyResult().(error := Some(m.message))];
      }
      var pairs := CrossProduct(inputs, outputs);
      var all := inputs + outputs;
      if !encodeOk && all != [] {
        return [EmptyResult().(error := Some("encoding failed"))];
      }
      var table, _ := FillEmbeddingTable(all, embed);
      PermutationCovers(completion, |pairs|);
      results := CollectResults(pairs, table, o, completion);
    }
  }
}
