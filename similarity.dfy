/**
 * The numeric scoring rules of the statement comparison: the piecewise remap of
 * `get_similarity_score`, the domain remap, penalty and clamp of `get_domain_similarity`,
 * `calculate_confidence`, and the score bundle of `get_alternative_similarity_scores`.
 * Every value produced by the sentence encoder, the TF-IDF vectorizer, spaCy or numpy
 * enters as a parameter; Python floats are exact reals and `int()` is `Trunc`.
 */
module Similarity {
  import opened Wrappers
  import opened Numeric
  import opened Seqs
  import opened Text
  import Keywords

  // ---------------------------------------------------------------- standard similarity

  /** `transformer * 0.3 + tfidf * 0.7`, the TF-IDF cosine being 0 when the vectorizer raised. */
  function WeightedScore(transformer: real, tfidf: Option<real>): real
  {
    transformer * 0.3 + tfidf.GetOr(0.0) * 0.7
  }

  /** The piecewise-linear normalisation of the weighted score, before `int()`. */
  function SimilarityCurve(w: real): real
  {
    if w < 0.3 then w * 40.0
    else if w < 0.5 then 12.0 + (w - 0.3) * 140.0
    else if w < 0.7 then 40.0 + (w - 0.5) * 150.0
    else 70.0 + (w - 0.7) * 100.0
  }

  /** `normalized` of `get_similarity_score` for a given weighted score. */
  function RemapWeighted(w: real): int
  {
    Trunc(SimilarityCurve(w))
  }

  /**
   * The curve never decreases and rises by at most 150 points per unit: the four pieces
   * join at 0.3, 0.5 and 0.7 with no jump.
   */
  lemma CurveLipschitz(a: real, b: real)
    requires a <= b
    ensures 0.0 <= SimilarityCurve(b) - SimilarityCurve(a) <= 150.0 * (b - a)
  {
  }

  /** The remap is non-decreasing in the weighted score. */
  lemma RemapMonotone(a: real, b: real)
    requires a <= b
    ensures RemapWeighted(a) <= RemapWeighted(b)
  {
    CurveLipschitz(a, b);
    TruncMonotone(SimilarityCurve(a), SimilarityCurve(b));
  }

  /** A weighted score in [0, 1] is mapped into [0, 100]. */
  lemma RemapRange(w: real)
    requires 0.0 <= w <= 1.0
    ensures 0 <= RemapWeighted(w) <= 100
  {
    CurveLipschitz(0.0, w);
    CurveLipschitz(w, 1.0);
    TruncMonotone(SimilarityCurve(0.0), SimilarityCurve(w));
    TruncMonotone(SimilarityCurve(w), SimilarityCurve(1.0));
  }

  /** The four bands: below 12, 12 to 40, 40 to 70, and 70 upward. */
  lemma RemapBands(w: real)
    ensures w < 0.3 ==> RemapWeighted(w) < 12
    ensures 0.3 <= w < 0.5 ==> 12 <= RemapWeighted(w) < 40
    ensures 0.5 <= w < 0.7 ==> 40 <= RemapWeighted(w) < 70
    ensures 0.7 <= w ==> 70 <= RemapWeighted(w)
  {
  }

  /**
   * `get_similarity_score` given the encoder's cosine of the two sentences and the TF-IDF
   * cosine (`None` when the vectorizer raised): the remap of the blend, not of the cosine.
   */
  function StandardSimilarity(transformer: real, tfidf: Option<real>): (r: int)
    ensures 0.0 <= WeightedScore(transformer, tfidf) <= 1.0 ==> 0 <= r <= 100
    ensures 0.0 <= transformer <= 1.0 && (tfidf.None? || 0.0 <= tfidf.value <= 1.0) ==> 0 <= r <= 100
    ensures r == RemapWeighted(WeightedScore(transformer, tfidf))
  {
    var w := WeightedScore(transformer, tfidf);
    assert 0.0 <= w <= 1.0 ==> 0 <= RemapWeighted(w) <= 100 by {
      if 0.0 <= w <= 1.0 { RemapRange(w); }
    }
    RemapWeighted(w)
  }

  // ---------------------------------------------------------------- domain similarity

  /** The domain remap: steep above 0.7, gentle below. */
  function DomainRemap(s: real): int
  {
    if s > 0.7 then Trunc((s - 0.7) * 333.0) else Trunc(s * 70.0)
  }

  /** For a cosine in [-1, 1] the remapped value lies in [-70, 99]. */
  lemma DomainRemapRange(s: real)
    requires -1.0 <= s <= 1.0
    ensures -70 <= DomainRemap(s) <= 99
  {
    if s > 0.7 {
      TruncMonotone((s - 0.7) * 333.0, 99.9);
    } else {
      TruncMonotone(-70.0, s * 70.0);
    }
  }

  /** The remap drops at 0.7: a cosine just above it scores far lower than 0.7 itself. */
  lemma DomainRemapDropsAtSevenTenths()
    ensures DomainRemap(0.7) == 49 && DomainRemap(0.71) == 3
  {
    assert 0.7 * 70.0 == 49.0;
    assert (0.71 - 0.7) * 333.0 == 3.33;
  }

  const InsuranceTerms: set<string> := {"schaden", "objekt", "kosten", "daten", "technisch"}
  const TechTerms: set<string> := {"module", "state", "input", "output"}

  /** The lower-cased word set of a list. */
  function LowerSet(words: seq<string>): set<string>
  {
    set w | w in words :: Lower(w)
  }

  /** How many of the given terms occur among the lower-cased words. */
  function Hits(words: seq<string>, terms: set<string>): nat
  {
    |LowerSet(words) * terms|
  }

  /** Both texts belong to one of the two common domains, by the fraction of its terms they contain. */
  predicate CommonDomain(unique1: seq<string>, unique2: seq<string>)
  {
    (Hits(unique1, InsuranceTerms) as real / 5.0 > 0.2 && Hits(unique2, InsuranceTerms) as real / 5.0 > 0.2)
    || (Hits(unique1, TechTerms) as real / 4.0 > 0.2 && Hits(unique2, TechTerms) as real / 4.0 > 0.2)
  }

  /** The penalty applies exactly when both texts hold two insurance terms, or both hold one tech term. */
  lemma CommonDomainByCounts(unique1: seq<string>, unique2: seq<string>)
    ensures CommonDomain(unique1, unique2) <==>
      (Hits(unique1, InsuranceTerms) >= 2 && Hits(unique2, InsuranceTerms) >= 2)
      || (Hits(unique1, TechTerms) >= 1 && Hits(unique2, TechTerms) >= 1)
  {
  }

  /** `int(score * 0.7)`, the common-domain penalty. */
  function Penalized(d: int): int
  {
    Trunc(d as real * 0.7)
  }

  /**
   * `get_domain_similarity` from the two unique-word lists and the cosine of their weighted
   * domain vectors (`None` when loading the model or encoding raised): 0 for an empty list
   * or a failure, otherwise the remap, penalised for a common domain, clamped to [0, 100].
   */
  function DomainSimilarity(unique1: seq<string>, unique2: seq<string>, domainSim: Option<real>): (r: int)
    ensures 0 <= r <= 100
    ensures unique1 == [] || unique2 == [] || domainSim.None? ==> r == 0
  {
    if unique1 == [] || unique2 == [] then 0
    else match domainSim
      case None => 0
      case Some(s) =>
        var d := DomainRemap(s);
        Clamp(if CommonDomain(unique1, unique2) then Penalized(d) else d, 0, 100)
  }

  /** The penalty is applied exactly on a common domain, and it never raises the clamped score. */
  lemma DomainPenalty(unique1: seq<string>, unique2: seq<string>, s: real)
    requires unique1 != [] && unique2 != []
    ensures CommonDomain(unique1, unique2) ==>
      DomainSimilarity(unique1, unique2, Some(s)) == Clamp(Penalized(DomainRemap(s)), 0, 100)
    ensures !CommonDomain(unique1, unique2) ==>
      DomainSimilarity(unique1, unique2, Some(s)) == Clamp(DomainRemap(s), 0, 100)
    ensures DomainSimilarity(unique1, unique2, Some(s)) <= Clamp(DomainRemap(s), 0, 100)
  {
    PenaltyNeverRaises(DomainRemap(s));
  }

  lemma PenaltyNeverRaises(d: int)
    ensures Clamp(Penalized(d), 0, 100) <= Clamp(d, 0, 100)
  {
    if d >= 0 {
      TruncMonotone(d as real * 0.7, d as real);
    } else {
      TruncMonotone(d as real * 0.7, 0.0);
    }
  }

  /**
   * The content words: with a parsed pair of documents, the lemmas of the non-stop nouns,
   * proper nouns and verbs whose text is longer than two characters; when spaCy is missing
   * or raised, the simple tokens longer than three characters.
   */
  function ContentWords(text: string, tokens: Option<seq<Keywords.Token>>): (r: seq<string>)
    ensures tokens.Some? ==>
      forall w :: w in r <==> exists t :: t in tokens.value && IsContentToken(t) && t.lemmaForm == w
    ensures tokens.None? ==> forall w :: w in r <==> w in SimpleTokenize(text) && |w| > 3
  {
    match tokens
    case Some(ts) =>
      var content := Filter(ts, IsContentToken);
      var lemmas := Keywords.Lemmas(content);
      assert forall w :: w in lemmas <==> exists t :: t in ts && IsContentToken(t) && t.lemmaForm == w by {
        forall w ensures w in lemmas <==> exists t :: t in ts && IsContentToken(t) && t.lemmaForm == w {
          if w in lemmas {
            var i :| 0 <= i < |lemmas| && lemmas[i] == w;
            assert content[i] in content;
          }
          if exists t :: t in ts && IsContentToken(t) && t.lemmaForm == w {
            var t :| t in ts && IsContentToken(t) && t.lemmaForm == w;
            assert t in content;
            var i :| 0 <= i < |content| && content[i] == t;
            assert lemmas[i] == w;
          }
        }
      }
      lemmas
    case None => Filter(SimpleTokenize(text), LongerThanThree)
  }

  predicate IsContentToken(t: Keywords.Token)
  {
    t.pos in {"NOUN", "PROPN", "VERB"} && !t.isStop && |t.text| > 2
  }

  predicate LongerThanThree(w: string)
  {
    |w| > 3
  }

  /**
   * `list(set(words))[:20]`. The set is iterated by decreasing `hashRank`, the ranking
   * CPython's hash table happens to give; every order of the distinct words is one such.
   */
  function UniqueWords(words: seq<string>, hashRank: string -> real): (r: seq<string>)
    ensures |r| <= 20 && Distinct(r)
    ensures forall w :: w in r ==> w in words
    ensures r == [] <==> words == []
    ensures |Dedup(words)| <= 20 ==> forall w :: w in words ==> w in r
  {
    var distinct := Dedup(words);
    var order := SortDesc(distinct, hashRank);
    SortDescSpec(distinct, hashRank);
    DistinctPermutation(distinct, order);
    assert forall w :: w in order <==> w in words by {
      forall w ensures w in order <==> w in words {
        assert w in order <==> w in multiset(order);
        assert w in distinct <==> w in multiset(distinct);
      }
    }
    assert words != [] ==> order != [] by {
      if words != [] {
        assert words[0] in order;
      }
    }
    Take(order, 20)
  }

  /** `unique_words` of `get_domain_similarity` for one text: its content words, each once, at most twenty. */
  function DomainWords(text: string, tokens: Option<seq<Keywords.Token>>, hashRank: string -> real): (r: seq<string>)
    ensures |r| <= 20 && Distinct(r)
    ensures forall w :: w in r ==> w in ContentWords(text, tokens)
    ensures r == [] <==> ContentWords(text, tokens) == []
  {
    UniqueWords(ContentWords(text, tokens), hashRank)
  }

  // ---------------------------------------------------------------- confidence

  function Mean4(a: int, b: int, c: int, d: int): real
  {
    (a + b + c + d) as real / 4.0
  }

  function Sq(x: real): (r: real)
    ensures r >= 0.0
  {
    x * x
  }

  /** The population variance of four values, as `np.var`. */
  function Variance4(a: int, b: int, c: int, d: int): (v: real)
    ensures v >= 0.0
  {
    var m := Mean4(a, b, c, d);
    (Sq(a as real - m) + Sq(b as real - m) + Sq(c as real - m) + Sq(d as real - m)) / 4.0
  }

  /** `100 / (1 + variance)`: full agreement is 100, and agreement stays positive. */
  function Agreement(variance: real): (a: real)
    requires variance >= 0.0
    ensures 0.0 < a <= 100.0
    ensures variance == 0.0 ==> a == 100.0
  {
    100.0 / (1.0 + variance)
  }

  /** `max(standard, 100 - standard) / 50`, at least 1. */
  function Extremity(standard: int): (e: real)
    ensures e >= 1.0
  {
    Max(standard, 100 - standard) as real / 50.0
  }

  lemma WeightedAgreementNonNegative(agreement: real, extremity: real)
    requires agreement > 0.0 && extremity >= 1.0
    ensures agreement * 0.7 * extremity > 0.0
  {
    assert agreement * 0.7 * extremity >= agreement * 0.7;
  }

  /**
   * `calculate_confidence`: the agreement weighted by the extremity of the standard score,
   * plus `100 - |standard - tfidf|`, clamped to [0, 100]. It never falls below the
   * agreement of the standard and TF-IDF scores, and it is full whenever those two agree.
   */
  function Confidence(standard: int, tfidf: int, euclidean: int, manhattan: int): (r: int)
    ensures 0 <= r <= 100
    ensures r >= Clamp(100 - Abs(standard - tfidf), 0, 100)
    ensures standard == tfidf ==> r == 100
  {
    var agreement := Agreement(Variance4(standard, tfidf, euclidean, manhattan));
    var extremity := Extremity(standard);
    var base := 100 - Abs(standard - tfidf);
    WeightedAgreementNonNegative(agreement, extremity);
    var x := agreement * 0.7 * extremity + base as real;
    TruncAtLeast(x, base);
    Clamp(Trunc(x), 0, 100)
  }

  // ---------------------------------------------------------------- alternative scores

  type Distance = r: real | r >= 0.0

  /**
   * What the encoder yields for the two sentences: their cosine similarity and the
   * Euclidean and Manhattan distances of their embeddings, or that loading or encoding raised.
   */
  datatype Encoding = EncodeFailed(message: string) | Encoded(cosine: real, euclidean: Distance, manhattan: Distance)

  /** `int(100 / (1 + d))`. */
  function EuclideanSimilarity(d: Distance): (r: int)
    ensures 0 <= r <= 100
    ensures d == 0.0 ==> r == 100
  {
    TruncMonotone(100.0 / (1.0 + d), 100.0);
    Trunc(100.0 / (1.0 + d))
  }

  /** `int(100 / (1 + d * 0.1))`. */
  function ManhattanSimilarity(d: Distance): (r: int)
    ensures 0 <= r <= 100
    ensures d == 0.0 ==> r == 100
  {
    TruncMonotone(100.0 / (1.0 + d * 0.1), 100.0);
    Trunc(100.0 / (1.0 + d * 0.1))
  }

  /** `100 / x` falls as `x` grows from 1 on. */
  lemma HundredOverAntitone(x: real, y: real)
    requires 1.0 <= x <= y
    ensures 100.0 / y <= 100.0 / x
  {
    var q := 100.0 / y;
    assert q * y == 100.0;
    assert 0.0 < q;
    assert q * x <= q * y;
    assert q * x <= 100.0;
  }

  /** Both distance scores fall as the distance grows. */
  lemma DistanceSimilarityAntitone(a: Distance, b: Distance)
    requires a <= b
    ensures EuclideanSimilarity(b) <= EuclideanSimilarity(a)
    ensures ManhattanSimilarity(b) <= ManhattanSimilarity(a)
  {
    HundredOverAntitone(1.0 + a, 1.0 + b);
    HundredOverAntitone(1.0 + a * 0.1, 1.0 + b * 0.1);
    TruncMonotone(100.0 / (1.0 + b), 100.0 / (1.0 + a));
    TruncMonotone(100.0 / (1.0 + b * 0.1), 100.0 / (1.0 + a * 0.1));
  }

  /** `int(tfidf * 100)`, 0 when the vectorizer raised. */
  function TfidfScore(tfidf: Option<real>): (r: int)
    ensures tfidf.None? ==> r == 0
    ensures tfidf.Some? && 0.0 <= tfidf.value <= 1.0 ==> 0 <= r <= 100
  {
    match tfidf
    case None => 0
    case Some(t) =>
      assert 0.0 <= t <= 1.0 ==> Trunc(t * 100.0) <= 100 by {
        if 0.0 <= t <= 1.0 { TruncMonotone(t * 100.0, 100.0); }
      }
      Trunc(t * 100.0)
  }

  /** `int(0.5 * standard + 0.3 * tfidf + 0.1 * domain + 0.1 * euclidean)`, not clamped. */
  function CombinedScore(standard: int, tfidf: int, domain: int, euclidean: int): (r: int)
    ensures 0 <= standard <= 100 && 0 <= tfidf <= 100 && 0 <= domain <= 100 && 0 <= euclidean <= 100 ==>
      0 <= r <= 100
  {
    var x := 0.5 * standard as real + 0.3 * tfidf as real + 0.1 * domain as real + 0.1 * euclidean as real;
    assert x <= 100.0 ==> Trunc(x) <= 100 by {
      if x <= 100.0 { TruncMonotone(x, 100.0); }
    }
    Trunc(x)
  }

  /**
   * The dictionary of `get_alternative_similarity_scores`. The fallback for a failure has
   * all scores 0, an `error` and no `confidence` key.
   */
  datatype AltScores = AltScores(
    standard: int, euclidean: int, manhattan: int, tfidf: int, domain: int, combined: int,
    confidence: Option<int>, error: Option<string>)

  /**
   * `get_alternative_similarity_scores`, `domain` being the result of `get_domain_similarity`
   * (which catches its own failures).
   */
  function AlternativeScores(enc: Encoding, tfidf: Option<real>, domain: int): (r: AltScores)
    ensures r.error.Some? <==> enc.EncodeFailed?
    ensures r.confidence.Some? <==> enc.Encoded?
    ensures enc.EncodeFailed? ==>
      r.standard == 0 && r.euclidean == 0 && r.manhattan == 0 && r.tfidf == 0 && r.domain == 0 && r.combined == 0
    ensures enc.Encoded? ==> 0 <= r.confidence.value <= 100 && 0 <= r.euclidean <= 100 && 0 <= r.manhattan <= 100
    ensures enc.Encoded? ==> r.standard == StandardSimilarity(enc.cosine, tfidf) && r.domain == domain
    ensures enc.Encoded? ==>
      r.tfidf == TfidfScore(tfidf) && r.euclidean == EuclideanSimilarity(enc.euclidean)
      && r.manhattan == ManhattanSimilarity(enc.manhattan)
    ensures enc.Encoded? ==>
      r.combined == CombinedScore(r.standard, r.tfidf, domain, r.euclidean)
      && r.confidence == Some(Confidence(r.standard, r.tfidf, r.euclidean, r.manhattan))
    ensures enc.Encoded? && 0.0 <= enc.cosine <= 1.0 && (tfidf.None? || 0.0 <= tfidf.value <= 1.0) && 0 <= domain <= 100 ==>
      0 <= r.combined <= 100
  {
    match enc
    case EncodeFailed(msg) => AltScores(0, 0, 0, 0, 0, 0, None, Some(msg))
    case Encoded(cosine, euclideanDistance, manhattanDistance) =>
      var standard := StandardSimilarity(cosine, tfidf);
      var euclidean := EuclideanSimilarity(euclideanDistance);
      var manhattan := ManhattanSimilarity(manhattanDistance);
      var tfidfScore := TfidfScore(tfidf);
      var combined := CombinedScore(standard, tfidfScore, domain, euclidean);
      AltScores(standard, euclidean, manhattan, tfidfScore, domain, combined,
        Some(Confidence(standard, tfidfScore, euclidean, manhattan)), None)
  }

  /** The combined score is not clamped: a negative cosine can make it negative. */
  lemma CombinedScoreCanBeNegative()
    ensures AlternativeScores(Encoded(-1.0, 2.0, 0.0), Some(0.0), 0).combined < 0
  {
    assert StandardSimilarity(-1.0, Some(0.0)) == -12 by {
      assert WeightedScore(-1.0, Some(0.0)) == -0.3;
      assert SimilarityCurve(-0.3) == -12.0;
    }
    assert EuclideanSimilarity(2.0) == 33 by {
      assert 100.0 / (1.0 + 2.0) == 100.0 / 3.0;
    }
    assert TfidfScore(Some(0.0)) == 0;
    assert CombinedScore(-12, 0, 0, 33) == -2 by {
      assert 0.5 * (-12) as real + 0.3 * 0 as real + 0.1 * 0 as real + 0.1 * 33 as real == -2.7;
    }
  }
}
