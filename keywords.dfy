/**
 * Keyword extraction and keyword overlap: `find_common_keywords`, the overlap percentage
 * of `process_comparison_pair`, the frequency-ranked fallback `extract_keywords`, the
 * post-processing of `extract_keywords_spacy` over a parsed document, and
 * `find_semantic_keyword_overlap` with the embedding similarity as an input function.
 */
module Keywords {
  import opened Wrappers
  import opened Numeric
  import opened Seqs
  import opened Text

  // ---------------------------------------------------------------- exact overlap

  /** Whether `k`, lower-cased, occurs among the lower-cased `others`. */
  predicate SharedKeyword(k: string, others: seq<string>)
  {
    Lower(k) in LowerAll(others)
  }

  function SharedWith(others: seq<string>): string -> bool
  {
    k => SharedKeyword(k, others)
  }

  /**
   * `find_common_keywords`: the keywords of the first list, in their order and with their
   * original case, whose lower-case form occurs among the lower-cased second list.
   */
  method FindCommonKeywords(keywords1: seq<string>, keywords2: seq<string>) returns (common: seq<string>)
    ensures common == Filter(keywords1, SharedWith(keywords2))
    ensures forall k :: k in common <==>
      k in keywords1 && exists j :: 0 <= j < |keywords2| && Lower(keywords2[j]) == Lower(k)
  {
    var kw1Lower := LowerAll(keywords1);
    var kw2Lower := LowerAll(keywords2);
    common := [];
    for i := 0 to |kw1Lower|
      invariant common == Filter(keywords1[..i], SharedWith(keywords2))
    {
      assert keywords1[..i + 1][..i] == keywords1[..i];
      if kw1Lower[i] in kw2Lower {
        common := common + [keywords1[i]];
      }
    }
    assert keywords1[..|keywords1|] == keywords1;
    forall k ensures SharedKeyword(k, keywords2) <==>
      exists j :: 0 <= j < |keywords2| && Lower(keywords2[j]) == Lower(k)
    {
      if SharedKeyword(k, keywords2) {
        var j :| 0 <= j < |kw2Lower| && kw2Lower[j] == Lower(k);
      }
    }
  }

  /**
   * `overlap_percent` of `process_comparison_pair`:
   * `min(100, int(common / max(n1, n2) * 100))` when both keyword lists are non-empty, else 0.
   */
  function OverlapPercent(common: nat, n1: nat, n2: nat): (r: int)
    ensures 0 <= r <= 100
    ensures n1 == 0 || n2 == 0 ==> r == 0
    ensures n1 > 0 && n2 > 0 ==> r == Min(100, (100 * common) / Max(n1, n2))
  {
    if n1 > 0 && n2 > 0 then
      var m := Max(n1, n2);
      TruncPercent(common, m);
      Min(100, Trunc(common as real / m as real * 100.0))
    else 0
  }

  /** A keyword list shares all of itself with itself, so its overlap with itself is 100. */
  lemma CommonKeywordsSelf(keywords: seq<string>)
    ensures Filter(keywords, SharedWith(keywords)) == keywords
    ensures keywords != [] ==>
      OverlapPercent(|Filter(keywords, SharedWith(keywords))|, |keywords|, |keywords|) == 100
  {
    forall k | k in keywords ensures SharedWith(keywords)(k) {
      var i :| 0 <= i < |keywords| && keywords[i] == k;
      assert LowerAll(keywords)[i] == Lower(k);
    }
    FilterAll(keywords, SharedWith(keywords));
    if keywords != [] {
      PercentOfWhole(|keywords|);
    }
  }

  /** The common keywords never outnumber the first list, so the `min(100, ...)` cap is never needed. */
  lemma CommonKeywordsBound(keywords1: seq<string>, keywords2: seq<string>)
    ensures var c := |Filter(keywords1, SharedWith(keywords2))|;
      c <= |keywords1| && (keywords1 != [] && keywords2 != [] ==>
        OverlapPercent(c, |keywords1|, |keywords2|) == (100 * c) / Max(|keywords1|, |keywords2|))
  {
    var c := |Filter(keywords1, SharedWith(keywords2))|;
    if keywords1 != [] && keywords2 != [] {
      PercentAtMost100(c, Max(|keywords1|, |keywords2|));
    }
  }

  // ---------------------------------------------------------------- fallback extractor

  /** The German and English stop words of `extract_keywords`. */
  const FallbackStopwords: set<string> := {
    "und", "mit", "der", "die", "das", "ein", "eine", "the", "and", "ist",
    "zu", "von", "für", "des", "vom", "im", "of", "to", "in" }

  predicate Informative(w: string)
  {
    w !in FallbackStopwords && |w| > 2
  }

  /** The tokens of the text that are neither stop words nor shorter than three characters. */
  function FilteredWords(text: string): seq<string>
  {
    Filter(SimpleTokenize(text), Informative)
  }

  /** `Counter(words)[w]`, as the sort key of `most_common`. */
  function CountKey(words: seq<string>): string -> real
  {
    w => multiset(words)[w] as real
  }

  /**
   * `[w for w, c in Counter(words).most_common(n)]`: distinct words by non-increasing count,
   * ties in first-occurrence order (a `Counter` iterates in insertion order and the
   * ranking sort is stable).
   */
  function MostCommon(words: seq<string>, n: nat): seq<string>
  {
    Take(SortDesc(Dedup(words), CountKey(words)), n)
  }

  /** `extract_keywords`: the ten most frequent informative tokens. */
  function ExtractKeywords(text: string): seq<string>
  {
    Take(MostCommon(FilteredWords(text), 15), 10)
  }

  /** The ranking of the fallback extractor is a permutation of the distinct informative tokens. */
  lemma RankedWords(f: seq<string>)
    ensures var s := SortDesc(Dedup(f), CountKey(f));
      && Distinct(s)
      && SortedDesc(s, CountKey(f))
      && (forall w :: w in s <==> w in f)
  {
    var d := Dedup(f);
    var s := SortDesc(d, CountKey(f));
    SortDescSpec(d, CountKey(f));
    DistinctPermutation(d, s);
    forall w ensures w in s <==> w in d {
      assert w in s <==> w in multiset(s);
    }
  }

  /**
   * `extract_keywords` returns at most ten distinct tokens of the text, none a stop word
   * or shorter than three characters.
   */
  lemma ExtractKeywordsMembers(text: string)
    ensures var r := ExtractKeywords(text);
      && |r| <= 10
      && Distinct(r)
      && (forall w :: w in r ==> w !in FallbackStopwords && |w| > 2 && w in SimpleTokenize(text))
  {
    var f := FilteredWords(text);
    var s := SortDesc(Dedup(f), CountKey(f));
    var r := ExtractKeywords(text);
    RankedWords(f);
    assert r == Take(s, 10);
    forall w | w in r ensures w in s {
      var i :| 0 <= i < |r| && r[i] == w;
    }
  }

  /**
   * The keywords come by non-increasing frequency among the informative tokens, ties in
   * order of first occurrence.
   */
  lemma ExtractKeywordsRanked(text: string)
    ensures var r, f := ExtractKeywords(text), FilteredWords(text);
      && (forall i, j :: 0 <= i < j < |r| ==> multiset(f)[r[i]] >= multiset(f)[r[j]])
      && (forall i, j :: 0 <= i < j < |r| && multiset(f)[r[i]] == multiset(f)[r[j]] ==>
            FirstIndex(f, r[i]) < FirstIndex(f, r[j]))
  {
    var f := FilteredWords(text);
    var d := Dedup(f);
    var key := CountKey(f);
    var s := SortDesc(d, key);
    var r := ExtractKeywords(text);
    RankedWords(f);
    assert r == Take(s, 10);
    DedupFirstSeenOrder(f);
    var rank := (w: string) => FirstIndex(f, w) as int;
    SortDescTies(d, key, rank);
    forall i, j | 0 <= i < j < |r| ensures multiset(f)[r[i]] >= multiset(f)[r[j]] {
      assert key(s[i]) >= key(s[j]);
    }
    forall i, j | 0 <= i < j < |r| && multiset(f)[r[i]] == multiset(f)[r[j]]
      ensures FirstIndex(f, r[i]) < FirstIndex(f, r[j])
    {
      assert key(s[i]) == key(s[j]);
      assert rank(s[i]) < rank(s[j]);
    }
  }

  /** An informative token is left out only when ten more frequent or equally frequent ones were kept. */
  lemma ExtractKeywordsComplete(text: string)
    ensures var r, f := ExtractKeywords(text), FilteredWords(text);
      forall w :: w in f && w !in r ==> |r| == 10 && multiset(f)[w] <= multiset(f)[r[9]]
  {
    var f := FilteredWords(text);
    var key := CountKey(f);
    var s := SortDesc(Dedup(f), key);
    var r := ExtractKeywords(text);
    RankedWords(f);
    assert r == Take(s, 10);
    forall w | w in f && w !in r ensures |r| == 10 && multiset(f)[w] <= multiset(f)[r[9]] {
      var p :| 0 <= p < |s| && s[p] == w;
      assert key(s[9]) >= key(s[p]);
    }
  }

  // ---------------------------------------------------------------- spaCy post-processing

  /** One token of a parsed document: its text, lemma, part of speech and flags. */
  datatype Token = Token(text: string, lemmaForm: string, pos: string, isStop: bool, isPunct: bool)

  /** A parsed document: named entities, noun chunks and tokens, each in document order. */
  datatype Doc = Doc(entities: seq<string>, nounChunks: seq<string>, tokens: seq<Token>)

  /**
   * What parsing yields: spaCy itself missing (its import precedes the `try` and escapes),
   * loading or parsing raising inside the `try`, or a parsed document.
   */
  datatype Analysis = SpacyMissing | AnalysisFailed | Parsed(doc: Doc)

  const KeywordPos: set<string> := {"NOUN", "VERB", "ADJ", "PROPN"}

  predicate IsImportant(t: Token)
  {
    !t.isStop && !t.isPunct && |t.text| > 2 && t.pos in KeywordPos
  }

  function Lemmas(ts: seq<Token>): (r: seq<string>)
    ensures |r| == |ts|
    ensures forall i :: 0 <= i < |ts| ==> r[i] == ts[i].lemmaForm
  {
    seq(|ts|, i requires 0 <= i < |ts| => ts[i].lemmaForm)
  }

  /** The lemmas of the important tokens, in document order. */
  function ImportantWords(tokens: seq<Token>): seq<string>
  {
    Lemmas(Filter(tokens, IsImportant))
  }

  /** Noun chunks of one to three whitespace-separated words. */
  predicate IsShortChunk(c: string)
  {
    1 <= WordCount(c) <= 3
  }

  function LengthKey(w: string): real
  {
    |w| as real
  }

  /** `sorted(important_words, key=len, reverse=True)[:15]`. */
  function LongestLemmas(tokens: seq<Token>): seq<string>
  {
    Take(SortDesc(ImportantWords(tokens), LengthKey), 15)
  }

  /** Entities, then short noun chunks, then the longest lemmas, all lower-cased. */
  function Candidates(doc: Doc): seq<string>
  {
    LowerAll(doc.entities + Filter(doc.nounChunks, IsShortChunk) + LongestLemmas(doc.tokens))
  }

  /** `list(dict.fromkeys(keywords))[:10]` over the candidates. */
  function MergeKeywords(doc: Doc): seq<string>
  {
    Take(Dedup(Candidates(doc)), 10)
  }

  /**
   * The lemma selection: at most fifteen lemmas of important tokens, longest first, lemmas
   * of equal length in document order, and no left-out lemma longer than the last kept.
   */
  lemma LongestLemmasSpec(tokens: seq<Token>)
    ensures var r, all := LongestLemmas(tokens), ImportantWords(tokens);
      && |r| <= 15
      && (forall w :: w in r ==> exists t :: t in tokens && IsImportant(t) && t.lemmaForm == w)
      && (forall i, j :: 0 <= i < j < |r| ==> |r[i]| >= |r[j]|)
      && (forall k :: WithKey(SortDesc(all, LengthKey), LengthKey, k) == WithKey(all, LengthKey, k))
      && (forall w :: w in all && w !in r ==> |r| == 15 && |w| <= |r[14]|)
  {
    var all := ImportantWords(tokens);
    var s := SortDesc(all, LengthKey);
    var r := LongestLemmas(tokens);
    SortDescSpec(all, LengthKey);
    forall w | w in r ensures exists t :: t in tokens && IsImportant(t) && t.lemmaForm == w {
      assert w in multiset(all);
      var i :| 0 <= i < |all| && all[i] == w;
      var t := Filter(tokens, IsImportant)[i];
      assert t in Filter(tokens, IsImportant);
    }
    forall i, j | 0 <= i < j < |r| ensures |r[i]| >= |r[j]| {
      assert LengthKey(s[i]) >= LengthKey(s[j]);
    }
    forall w | w in all && w !in r ensures |r| == 15 && |w| <= |r[14]| {
      assert w in multiset(s);
      var p :| 0 <= p < |s| && s[p] == w;
      assert LengthKey(s[14]) >= LengthKey(s[p]);
    }
  }

  /**
   * The merge: at most ten distinct lower-case keywords, each a lower-cased entity, short
   * noun chunk or selected lemma, listed at their first occurrence in that concatenation,
   * and a candidate is left out only when ten keywords were already found.
   */
  lemma MergeKeywordsSpec(doc: Doc)
    ensures var r, c := MergeKeywords(doc), Candidates(doc);
      && |r| <= 10
      && Distinct(r)
      && (forall w :: w in r ==> w in c && IsLowerCase(w))
      && (forall i, j :: 0 <= i < j < |r| ==> FirstIndex(c, r[i]) < FirstIndex(c, r[j]))
      && (forall w :: w in c && w !in r ==> |r| == 10)
  {
    var c := Candidates(doc);
    var r := MergeKeywords(doc);
    DedupFirstSeenOrder(c);
    forall w | w in r ensures IsLowerCase(w) {
      assert w in Dedup(c);
      var i :| 0 <= i < |c| && c[i] == w;
      var all := doc.entities + Filter(doc.nounChunks, IsShortChunk) + LongestLemmas(doc.tokens);
      LowerIdempotent(all[i]);
    }
  }

  /**
   * `extract_keywords_spacy`: the merged keywords of a parsed document; the fallback
   * extractor on the full text when loading or parsing raised; an exception when spaCy
   * is not installed.
   */
  function ExtractKeywordsSpacy(text: string, analysis: Analysis): (r: Result<seq<string>>)
    ensures r.Err? <==> analysis.SpacyMissing?
    ensures r.Ok? ==> |r.value| <= 10 && Distinct(r.value)
    ensures analysis.AnalysisFailed? ==> r == Ok(ExtractKeywords(text))
    ensures analysis.Parsed? ==> r == Ok(MergeKeywords(analysis.doc))
  {
    match analysis
    case SpacyMissing => Err("No module named 'spacy'")
    case AnalysisFailed => ExtractKeywordsMembers(text); Ok(ExtractKeywords(text))
    case Parsed(doc) => MergeKeywordsSpec(doc); Ok(MergeKeywords(doc))
  }

  /**
   * The keyword part of `extract_semantic_keywords`: the spaCy keywords, or none at all when
   * extraction or the per-keyword encoding raised.
   */
  function ExtractSemanticKeywords(text: string, analysis: Analysis, encoderOk: bool): (r: seq<string>)
    ensures |r| <= 10 && Distinct(r)
    ensures r != [] ==> analysis != SpacyMissing && encoderOk
    ensures !analysis.SpacyMissing? && encoderOk ==> r == ExtractKeywordsSpacy(text, analysis).value
  {
    match ExtractKeywordsSpacy(text, analysis)
    case Err(_) => []
    case Ok(ks) => if encoderOk then ks else []
  }

  // ---------------------------------------------------------------- semantic overlap

  /** A pair of keywords judged similar, with their similarity. */
  datatype SemanticMatch = SemanticMatch(k1: string, k2: string, sim: real)

  const SemanticStopwords: seq<string> := ["und", "mit", "the", "des", "vom", "ist"]

  /** At least three characters long and not one of the six common words. */
  predicate Eligible(k: string)
  {
    |k| >= 3 && Lower(k) !in SemanticStopwords
  }

  predicate IsMatch(m: SemanticMatch, sim: (string, string) -> real)
  {
    Eligible(m.k1) && Eligible(m.k2) && m.sim == sim(m.k1, m.k2) && m.sim > 0.85
  }

  /** The inner loop for one keyword `k1`: its matches among `ks2`, in order. */
  function RowMatches(k1: string, ks2: seq<string>, sim: (string, string) -> real): (r: seq<SemanticMatch>)
    ensures forall m :: m in r <==> m.k1 == k1 && m.k2 in ks2 && IsMatch(m, sim)
  {
    if ks2 == [] then []
    else
      var k2 := ks2[|ks2| - 1];
      assert ks2 == ks2[..|ks2| - 1] + [k2];
      RowMatches(k1, ks2[..|ks2| - 1], sim)
        + (if Eligible(k1) && Eligible(k2) && sim(k1, k2) > 0.85 then [SemanticMatch(k1, k2, sim(k1, k2))] else [])
  }

  /** A keyword too short or too common for matching has no matches. */
  lemma {:induction false} RowMatchesIneligible(k1: string, ks2: seq<string>, sim: (string, string) -> real)
    requires !Eligible(k1)
    ensures RowMatches(k1, ks2, sim) == []
  {
    if ks2 != [] {
      RowMatchesIneligible(k1, ks2[..|ks2| - 1], sim);
    }
  }

  /** Both loops: all matches, in the order the nested loops find them. */
  function CandidateMatches(ks1: seq<string>, ks2: seq<string>, sim: (string, string) -> real): (r: seq<SemanticMatch>)
    ensures forall m :: m in r <==> m.k1 in ks1 && m.k2 in ks2 && IsMatch(m, sim)
  {
    if ks1 == [] then []
    else
      assert ks1 == ks1[..|ks1| - 1] + [ks1[|ks1| - 1]];
      CandidateMatches(ks1[..|ks1| - 1], ks2, sim) + RowMatches(ks1[|ks1| - 1], ks2, sim)
  }

  function MatchSim(m: SemanticMatch): real
  {
    m.sim
  }

  /**
   * `find_semantic_keyword_overlap`: every pair of eligible keywords whose similarity exceeds
   * 0.85, and only those, sorted in place by non-increasing similarity (stably).
   */
  method FindSemanticKeywordOverlap(keywords1: seq<string>, keywords2: seq<string>, sim: (string, string) -> real)
    returns (pairs: seq<SemanticMatch>)
    ensures pairs == SortDesc(CandidateMatches(keywords1, keywords2, sim), MatchSim)
    ensures SortedDesc(pairs, MatchSim)
    ensures forall m :: m in pairs <==> m.k1 in keywords1 && m.k2 in keywords2 && IsMatch(m, sim)
  {
    var overlap: seq<SemanticMatch> := [];
    for i := 0 to |keywords1|
      invariant overlap == CandidateMatches(keywords1[..i], keywords2, sim)
    {
      var k1 := keywords1[i];
      assert keywords1[..i + 1][..i] == keywords1[..i];
      if |k1| < 3 {
        RowMatchesIneligible(k1, keywords2, sim);
        continue;
      }
      for j := 0 to |keywords2|
        invariant overlap == CandidateMatches(keywords1[..i], keywords2, sim) + RowMatches(k1, keywords2[..j], sim)
      {
        var k2 := keywords2[j];
        assert keywords2[..j + 1][..j] == keywords2[..j];
        if |k2| < 3 {
          continue;
        }
        if Lower(k1) in SemanticStopwords || Lower(k2) in SemanticStopwords {
          continue;
        }
        var s := sim(k1, k2);
        if s > 0.85 {
          overlap := overlap + [SemanticMatch(k1, k2, s)];
        }
      }
      assert keywords2[..|keywords2|] == keywords2;
    }
    assert keywords1[..|keywords1|] == keywords1;
    pairs := SortDesc(overlap, MatchSim);
    SortDescSpec(overlap, MatchSim);
    forall m ensures m in pairs <==> m in overlap {
      assert m in pairs <==> m in multiset(pairs);
    }
  }
}
