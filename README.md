# Statement scoring and the statement worker pool, in Dafny

This project models the Python side of the HAIMEDA statement comparison. Elixir calls it through ErlPort. The model covers two files:

- `statement_scoring.py` scores one pair of statements:
  - keyword extraction, with a spaCy path and a frequency fallback;
  - exact and semantic keyword overlap;
  - the piecewise remaps of the similarity scores;
  - the domain penalty, the confidence, and the interpretation labels;
  - the batch entry point `compare_all_statements`, with the lazily loaded model.
- `statement_worker_pool.py` runs batches of pairs:
  - it sizes a worker pool from the CPU count and free GPU memory;
  - it deduplicates statements and encodes each unique one once;
  - it scores pairs on a thread pool, writing each result into the slot of its pair;
  - it formats every result for Elixir;
  - it also holds a sequential loop, a per-process worker loop, and a model singleton.

The sentence encoder, scikit-learn, numpy/scipy, spaCy, `nvidia-smi` and `torch.cuda` are not modelled. What they report enters as inputs:

- `Similarity.Encoding` carries the cosine and the two distances;
- an `Option<real>` carries the TF-IDF cosine, with `None` when the vectoriser raised;
- `Keywords.Analysis` carries the spaCy document of a text parsed for a language code, or the fact that spaCy is missing;
- an `Option<string>` carries what langdetect detects, with `None` when it raised;
- `Scoring.Oracles` collects, per statement or pair, everything the scoring functions learn from outside. This includes whether encoding the keywords for `extract_semantic_keywords` raised, and `Scoring.DomainInputs`: the spaCy tokens of both texts and the order in which each word set iterates;
- `Resources.DeviceProbe`, `Resources.Host`, `Pool.Encoder` and `Pool.Measure` carry the rest.

The order in which the thread pool completes its futures is a permutation of the pair indices (`Seqs.IsPermutation`). Python's `int(x)` on a float is `Numeric.Trunc` over exact reals. Dictionaries with optional keys are records of `Option` fields (`Results.RawResult`). A value handed over by Elixir is a `Results.Item`: a string, a list of integers (a charlist), or any other value, kept by its `str()` rendering and whether Python can hash it. A Python exception that escapes an operation is the `Err` case of `Wrappers.Result`.

Modules, one per file:

- `wrappers.dfy`, `numeric.dfy`, `seqs.dfy` and `text.dfy` are shared helpers:
  - `Option` and `Result`;
  - truncation and percentages;
  - filtering, dedup, a stable sort, chunking and permutations;
  - lower-casing and regex-style tokenising.
- `interpretation.dfy` holds the two label schemes.
- `keywords.dfy` holds keyword extraction and keyword overlap.
- `similarity.dfy` holds the similarity scores, the domain similarity and the confidence.
- `results.dfy` holds the result dictionaries, `ensure_string` and the formatting of one record.
- `scoring.dfy` holds the per-pair and batch entry points of `statement_scoring.py` and its model state.
- `resources.dfy` holds `get_vram_info` and `get_optimal_worker_count`.
- `pool.dfy` holds the batch operations of `statement_worker_pool.py` and its model singleton.

Where the code departs from what its own docstrings, comments and messages announce, the model follows the code:

- `compare_all_statements` returns results in completion order, not input order.
- The combined score of `get_alternative_similarity_scores` is not clamped, so it can be negative.
- `get_optimal_worker_count` caps only its VRAM path at 16. Its CPU paths are uncapped, and a failure gives 2, not 4.
- `determine_optimal_workers` uses 1024 MB per worker. The worker pool uses 200 MB.
- `process_batch` never calls `process_batch_sequential`, although it prints "Falling back to sequential processing". Without torch, or when the parallel batch raises, it fails on the unbound `results`, unless the batch is empty.
- `extract_keywords_spacy` imports spaCy outside its `try`. A missing spaCy therefore raises instead of falling back. `process_comparison_pair` turns that into its short error dictionary.
- `process_comparison_with_embeddings` has its own four-label scheme and its own stop-word list, next to the five labels of `get_interpretation`.

## Model

Source paths are relative to the repository root.

| member | source | states |
|---|---|---|
| Interpretation.Interpret | lib/haimeda_core/external/python/statement_scoring.py:395-406 | the label is always one of the five labels (total) |
| Interpretation.InterpretByThresholds | lib/haimeda_core/external/python/statement_scoring.py:395-406 | the label is the one indexed by how many of the thresholds 10, 25, 50, 75 the score reaches |
| Interpretation.InterpretMonotone | lib/haimeda_core/external/python/statement_scoring.py:395-406 | a higher score never gets a lower label in the order completely different < … < nearly identical |
| Interpretation.MatchLabel | lib/haimeda_core/external/python/statement_scoring.py:356-364 | the label is one of the four match labels |
| Interpretation.MatchLabelByThresholds | lib/haimeda_core/external/python/statement_scoring.py:356-364 | the match label is indexed by how many of 40, 60, 80 the score reaches |
| Interpretation.MatchLabelMonotone | lib/haimeda_core/external/python/statement_scoring.py:356-364 | a higher score never gets a lower match label |
| Keywords.FindCommonKeywords | lib/haimeda_core/external/python/statement_scoring.py:409-421 | the result is `keywords1` filtered, in order and original case, to the words whose lower-case form occurs among the lower-cased `keywords2`, and a word is in the result iff such a match exists |
| Keywords.OverlapPercent | lib/haimeda_core/external/python/statement_scoring.py:197-204 | the overlap lies in [0,100], is 0 when either list is empty, and is otherwise min(100, ⌊100·common/max(n1,n2)⌋) |
| Keywords.CommonKeywordsSelf | lib/haimeda_core/external/python/statement_scoring.py:197-204 | a list compared with itself keeps every keyword, and a non-empty list overlaps itself 100% |
| Keywords.CommonKeywordsBound | lib/haimeda_core/external/python/statement_scoring.py:197-204 | there are at most as many common keywords as `keywords1` has, and the overlap of non-empty lists lies in [0,100] |
| Keywords.RankedWords | lib/haimeda_core/external/python/statement_scoring.py:790-793 | `Counter.most_common` lists each distinct word once, by non-increasing count, and lists exactly the counted words |
| Keywords.ExtractKeywordsMembers | lib/haimeda_core/external/python/statement_scoring.py:759-795 | at most 10 distinct keywords; none is a stop word; each is longer than 2 characters and is a token of the text |
| Keywords.ExtractKeywordsRanked | lib/haimeda_core/external/python/statement_scoring.py:790-795 | keywords come by non-increasing frequency, and ties come in first-occurrence order |
| Keywords.ExtractKeywordsComplete | lib/haimeda_core/external/python/statement_scoring.py:785-795 | a filtered word left out means that 10 keywords were returned, each at least as frequent as it |
| Keywords.LongestLemmasSpec | lib/haimeda_core/external/python/statement_scoring.py:831-854 | at most 15 lemmas of important tokens, longest first; the sort is stable; a lemma left out is no longer than the 15th |
| Keywords.MergeKeywordsSpec | lib/haimeda_core/external/python/statement_scoring.py:845-863 | at most 10 distinct lower-case candidates from entities, short chunks and lemmas, in first-occurrence order; a candidate left out means that 10 were kept |
| Keywords.ExtractKeywordsSpacy | lib/haimeda_core/external/python/statement_scoring.py:801-866 | the extraction raises iff spaCy is missing; a failed load or parse gives the frequency extractor's keywords of the text, and a parsed document its merged keywords; at most 10 distinct keywords |
| Keywords.ExtractSemanticKeywords | lib/haimeda_core/external/python/statement_scoring.py:482-500 | at most 10 distinct keywords, empty whenever spaCy is missing or the encoder fails; otherwise exactly the keywords of `extract_keywords_spacy` |
| Keywords.RowMatches | lib/haimeda_core/external/python/statement_scoring.py:512-532 | a match is kept for `k1` iff `k2` is in the second list, both are eligible, and the similarity exceeds 0.85 |
| Keywords.RowMatchesIneligible | lib/haimeda_core/external/python/statement_scoring.py:508-510 | a first keyword shorter than 3 or in the six-word stop list yields no match |
| Keywords.CandidateMatches | lib/haimeda_core/external/python/statement_scoring.py:505-532 | a triple is collected iff k1 is in `keywords1`, k2 is in `keywords2`, both are eligible, and sim > 0.85 |
| Keywords.FindSemanticKeywordOverlap | lib/haimeda_core/external/python/statement_scoring.py:503-537 | the result is the candidate matches stably sorted by non-increasing similarity; it is sorted, and it contains exactly the qualifying triples |
| Text.SimpleTokenize | lib/haimeda_core/external/python/statement_scoring.py:472-479 | tokens are non-empty, lower-case runs of word characters |
| Text.SplitWordsIsSimpleTokenize | lib/haimeda_core/external/python/statement_scoring.py:264-267 | replacing punctuation by spaces and splitting gives exactly the runs of word characters |
| Similarity.StandardSimilarity | lib/haimeda_core/external/python/statement_scoring.py:438-468 | the score is the remap of the 0.3/0.7 blend of transformer and TF-IDF cosine (0 when TF-IDF fails), and lies in [0,100] for a blend in [0,1] |
| Similarity.RemapMonotone | lib/haimeda_core/external/python/statement_scoring.py:459-466 | the remap is non-decreasing |
| Similarity.RemapRange | lib/haimeda_core/external/python/statement_scoring.py:459-466 | a blend in [0,1] maps into [0,100] |
| Similarity.RemapBands | lib/haimeda_core/external/python/statement_scoring.py:459-466 | the bands <0.3, [0.3,0.5), [0.5,0.7) and ≥0.7 map into [0,12), [12,40), [40,70) and [70,…) |
| Similarity.CurveLipschitz | lib/haimeda_core/external/python/statement_scoring.py:459-466 | the curve before truncation never decreases and rises by at most 150 per unit, so it is continuous at 0.3, 0.5 and 0.7 |
| Similarity.DomainRemapRange | lib/haimeda_core/external/python/statement_scoring.py:692-694 | for a cosine in [-1,1] the domain remap lies in [-70,99] |
| Similarity.DomainRemapDropsAtSevenTenths | lib/haimeda_core/external/python/statement_scoring.py:692-694 | the remap gives 49 at 0.7 and 3 at 0.71, so it is not monotone |
| Similarity.CommonDomainByCounts | lib/haimeda_core/external/python/statement_scoring.py:698-716 | the penalty applies iff both word sets hold ≥2 of the 5 insurance terms, or both hold ≥1 of the 4 tech terms |
| Similarity.DomainSimilarity | lib/haimeda_core/external/python/statement_scoring.py:620-723 | the score lies in [0,100], and is 0 when either unique-word list is empty or the domain cosine failed |
| Similarity.DomainPenalty | lib/haimeda_core/external/python/statement_scoring.py:697-719 | with the shared vocabulary the score is the clamp of ⌊0.7·remap⌋; without it, the clamp of the remap; it never exceeds the clamped remap |
| Similarity.PenaltyNeverRaises | lib/haimeda_core/external/python/statement_scoring.py:714-719 | the 0.7 scaling never raises a clamped score |
| Similarity.ContentWords | lib/haimeda_core/external/python/statement_scoring.py:626-660 | with spaCy's tokens, a word is a content word iff it is the lemma of a noun, proper noun or verb token that is not a stop word and whose text is longer than 2; on the tokenizer fallback, iff it is a token longer than 3 |
| Similarity.DomainWords | lib/haimeda_core/external/python/statement_scoring.py:626-664 | `unique_words` of one text: at most 20 distinct content words, empty iff the text has no content words |
| Similarity.UniqueWords | lib/haimeda_core/external/python/statement_scoring.py:663-664 | at most 20 distinct words from the input; empty iff the input is; all words are kept when there are at most 20 |
| Similarity.Variance4 | lib/haimeda_core/external/python/statement_scoring.py:733-739 | the population variance of the four signals is non-negative |
| Similarity.Agreement | lib/haimeda_core/external/python/statement_scoring.py:740 | agreement lies in (0,100] and is 100 when all signals agree |
| Similarity.Extremity | lib/haimeda_core/external/python/statement_scoring.py:743 | the extremity factor is at least 1 |
| Similarity.WeightedAgreementNonNegative | lib/haimeda_core/external/python/statement_scoring.py:746 | the agreement term of the confidence is positive |
| Similarity.Confidence | lib/haimeda_core/external/python/statement_scoring.py:726-748 | the confidence lies in [0,100], is at least the clamp of 100 − \|standard − tfidf\|, and is 100 when they are equal |
| Similarity.EuclideanSimilarity | lib/haimeda_core/external/python/statement_scoring.py:556-557 | ⌊100/(1+d)⌋ lies in [0,100] and is 100 at distance 0 |
| Similarity.ManhattanSimilarity | lib/haimeda_core/external/python/statement_scoring.py:560-561 | ⌊100/(1+0.1·d)⌋ lies in [0,100] and is 100 at distance 0 |
| Similarity.DistanceSimilarityAntitone | lib/haimeda_core/external/python/statement_scoring.py:556-561 | a larger distance never gives a larger similarity |
| Similarity.TfidfScore | lib/haimeda_core/external/python/statement_scoring.py:564-572 | 0 when the vectoriser raised, in [0,100] for a cosine in [0,1] |
| Similarity.CombinedScore | lib/haimeda_core/external/python/statement_scoring.py:578-583 | the 0.5/0.3/0.1/0.1 blend lies in [0,100] when its four inputs do |
| Similarity.AlternativeScores | lib/haimeda_core/external/python/statement_scoring.py:540-617 | an encoding failure gives zero scores, an error and no confidence; otherwise the standard score is the remapped blend, TF-IDF, Euclidean and Manhattan are their own scores, combined is the unclamped 0.5/0.3/0.1/0.1 blend `CombinedScore`, the confidence is `Confidence` of the four scores, and all but combined are in range |
| Similarity.CombinedScoreCanBeNegative | lib/haimeda_core/external/python/statement_scoring.py:578-583 | an opposite encoding gives a negative combined score, because it is not clamped |
| Results.EnsureString | lib/haimeda_core/external/python/statement_worker_pool.py:181-193 | a string is returned as is; a list of code points becomes the characters; any other list becomes its `str` form |
| Results.EnsureStringCharlist | lib/haimeda_core/external/python/statement_worker_pool.py:181-193 | a charlist of a string's code points converts back to that string |
| Results.EnsureStringIdempotent | lib/haimeda_core/external/python/statement_worker_pool.py:181-193 | converting a converted item again changes nothing |
| Results.EnsureStringEmptyList | lib/haimeda_core/external/python/statement_worker_pool.py:181-193 | the empty list converts to the empty string |
| Results.EnsureStringsOfStrings | lib/haimeda_core/external/python/statement_worker_pool.py:296-298 | keyword lists of strings pass through unchanged |
| Results.ScoreErrorResult | lib/haimeda_core/external/python/statement_scoring.py:228-237 | the short error dictionary has the message, zero scores and the interpretation "error" |
| Results.FullErrorResult | lib/haimeda_core/external/python/statement_worker_pool.py:513-535 | the complete error dictionary has every flat score at 0 (basic, combined, confidence, overlap, TF-IDF, Euclidean, Manhattan, domain), every keyword list empty, and zero metrics |
| Results.NoResult | lib/haimeda_core/external/python/statement_worker_pool.py:259-273 | the default has "No result produced", the interpretation "error", zero metrics and empty keyword groups |
| Results.FlatOrMetric | lib/haimeda_core/external/python/statement_worker_pool.py:316-335 | a flat score takes precedence over the nested metric, and each defaults to 0 |
| Results.FlatOrKeywords | lib/haimeda_core/external/python/statement_worker_pool.py:275-294 | a flat keyword list takes precedence over the nested group, and each defaults to [] |
| Results.Format | lib/haimeda_core/external/python/statement_worker_pool.py:256-340 | the record carries the pair's statements as strings and the scores with their defaults ("unknown" interpretation); each of the four metric scores and three keyword lists is the flat key when present, else the entry of the nested `metrics` or `keywords` dictionary, else the default, and the keyword lists are converted to strings |
| Results.FormatIdempotent | lib/haimeda_core/external/python/statement_worker_pool.py:256-340 | formatting a formatted record again gives the same record |
| Results.FormatNested | lib/haimeda_core/external/python/statement_worker_pool.py:275-335 | a result with only nested `metrics`/`keywords` is read through them |
| Results.FormatNoResult | lib/haimeda_core/external/python/statement_worker_pool.py:256-340 | a missing result formats with zero scores, "error" and empty keywords |
| Scoring.CpuCores | lib/haimeda_core/external/python/statement_scoring.py:116 | `os.cpu_count() or 4` is at least 1 |
| Scoring.AvailableVram | lib/haimeda_core/external/python/statement_scoring.py:140-143 | one total − used figure per parsed line |
| Scoring.DetermineOptimalWorkers | lib/haimeda_core/external/python/statement_scoring.py:105-160 | darwin gives max(1, cpu−1); a failed or empty query gives 4; otherwise max(1, min(16, ⌊0.8·Σ(total−used)/1024⌋)) |
| Scoring.VramWorkersThresholds | lib/haimeda_core/external/python/statement_scoring.py:149-155 | the VRAM worker count lies in [1,16]; it is 16 iff ≥20480 MB are free and 1 iff <2560 MB are free |
| Scoring.LocalKeywords | lib/haimeda_core/external/python/statement_scoring.py:262-285 | the local keywords are the split words longer than 2 and not among the 13 stop words |
| Scoring.SharedSet | lib/haimeda_core/external/python/statement_scoring.py:295-296 | the intersection lists each shared word once |
| Scoring.StatementOverlap | lib/haimeda_core/external/python/statement_scoring.py:295-304 | the overlap lies in [0,100]; it is 0 when either list is empty and otherwise ⌊100·\|shared\|/\|keywords2\|⌋ |
| Scoring.ScaledDistanceScore | lib/haimeda_core/external/python/statement_scoring.py:334-341 | the distance score lies in [0,100]: 100 at distance 0 and 0 from the maximum distance on |
| Scoring.KeywordBonus | lib/haimeda_core/external/python/statement_scoring.py:350 | the bonus is at most 15, non-negative, and 15 from 50% overlap on |
| Scoring.KeywordBonusMonotone | lib/haimeda_core/external/python/statement_scoring.py:350 | more overlap never gives a smaller bonus |
| Scoring.BoostedScore | lib/haimeda_core/external/python/statement_scoring.py:347-351 | the combined score is at most 100 and at most basic + 15, and never below min(100, basic) |
| Scoring.EmbeddingConfidence | lib/haimeda_core/external/python/statement_scoring.py:354 | the confidence is at most 100, and at least 15 for non-negative inputs |
| Scoring.ProcessComparisonWithEmbeddings | lib/haimeda_core/external/python/statement_scoring.py:249-392 | the result has no error; the overlap is the share of statement 2's keywords found in statement 1; basic is the 0.7/0.3 blend of the cosine and TF-IDF scores; combined is basic plus the keyword bonus, capped at 100; the confidence is the embedding confidence; the label is the match label of combined; the metrics are the TF-IDF score, the Euclidean and Manhattan distances scaled by 2 and 10, and the domain score ⌊0.5·cosine score + 0.5·overlap⌋, the two distance scores in [0,100]; the keywords are the local keywords and their intersection |
| Scoring.PairScores | lib/haimeda_core/external/python/statement_scoring.py:180-226 | the dictionary holds the alternative scores, their four metrics, the five-label interpretation of combined, and the exact keyword overlap `OverlapPercent` of the common keywords (0 for an empty list) |
| Scoring.ProcessComparisonPair | lib/haimeda_core/external/python/statement_scoring.py:163-237 | the result is an error iff spaCy is missing for either statement, and then it is the short error dictionary; otherwise it is the scored dictionary, with both statements parsed for the default language "de" |
| Scoring.ProcessComparisonPairRanges | lib/haimeda_core/external/python/statement_scoring.py:163-237 | the interpretation is a label or "error", and the confidence and overlap are in [0,100] |
| Scoring.PrecomputedIgnored | lib/haimeda_core/external/python/statement_scoring.py:175-177 | precomputed embeddings do not change the result |
| Scoring.SemanticOverlap | lib/haimeda_core/external/python/statement_scoring.py:889-894 | the semantic matches are sorted by similarity and are exactly the qualifying triples |
| Scoring.SemanticOverlapPercent | lib/haimeda_core/external/python/statement_scoring.py:902-904 | it raises (division by zero) iff both keyword lists are empty, and otherwise gives min(100, ⌊100·matches/max⌋) |
| Scoring.CompareStatements | lib/haimeda_core/external/python/statement_scoring.py:869-934 | it fails iff encoding fails or both semantic keyword lists are empty; otherwise it is the comparison of the encoded statements |
| Scoring.CompareEncoded | lib/haimeda_core/external/python/statement_scoring.py:880-934 | it fails iff both keyword lists are empty; otherwise the score is the standard similarity of the cosine and TF-IDF, the keywords are the semantic keywords, the matches are exactly the qualifying keyword pairs sorted by similarity, the overlap is the percentage of the longer list and lies in [0,100], combined and confidence (80 when absent) are the alternative scores', and the label is the five-label interpretation of combined |
| Scoring.SemanticKeywordsOf | lib/haimeda_core/external/python/statement_scoring.py:480-497 | at most 10 distinct keywords; none when encoding the keywords raised; otherwise the semantic keywords, which are the spaCy keywords of the statement parsed for its detected language when spaCy is installed |
| Scoring.DetectLanguage | lib/haimeda_core/external/python/statement_scoring.py:936-945 | the detected language code, or German ("de") when detection raised |
| Scoring.CrossProduct | lib/haimeda_core/external/python/statement_scoring.py:36 | the cross product has \|inputs\|·\|outputs\| pairs |
| Scoring.CrossProductIndex | lib/haimeda_core/external/python/statement_scoring.py:36 | pair i·\|outputs\|+j is (inputs[i], outputs[j]), i.e. row-major order |
| Scoring.AllPairResults | lib/haimeda_core/external/python/statement_scoring.py:63-77 | one tagged result per pair, in pair order |
| Scoring.FillEmbeddingTable | lib/haimeda_core/external/python/statement_scoring.py:49-58 | the table has exactly the statements as keys, each mapped to its embedding, encoded in chunks of 32 |
| Scoring.CollectResults | lib/haimeda_core/external/python/statement_scoring.py:71-89 | result k is the result of the pair that completed k-th |
| Scoring.CollectNext | lib/haimeda_core/external/python/statement_scoring.py:71-89 | collecting the next completed future appends the result of the pair that completed, so the results stay a reordering of the pair results |
| Scoring.ScoringSession.constructor | lib/haimeda_core/external/python/statement_scoring.py:11-12 | no model and not initialised |
| Scoring.ScoringSession.GetModel | lib/haimeda_core/external/python/statement_scoring.py:424-435 | a loaded model is returned unchanged; otherwise a successful load is stored and marks the session initialised; a failed load raises and leaves the state alone |
| Scoring.ScoringSession.RunCompareStatements | lib/haimeda_core/external/python/statement_scoring.py:869-934 | `compare_statements` on the session: the model is loaded as by `_get_model` (the flag set when it loads, the invariant kept); a failed load is the error result; otherwise the result is `CompareStatements`' |
| Scoring.ScoringSession.RunProcessComparisonPair | lib/haimeda_core/external/python/statement_scoring.py:163-237 | `process_comparison_pair` on the session: the model is loaded as by `_get_model`; a failed load gives the alternative scores' failure dictionary, as a failed encoding does; otherwise the result is `ProcessComparisonPair`'s |
| Scoring.ScoringSession.IsModelLoaded | lib/haimeda_core/external/python/statement_scoring.py:958-961 | "loaded" iff a model has been loaded |
| Scoring.ScoringSession.CompareAllStatements | lib/haimeda_core/external/python/statement_scoring.py:15-102 | a failed load or failed encoding gives the one-element error list; otherwise the results are the cross-product results in completion order; the model is loaded as by `_get_model`, the flag is set when it is loaded, and the flag-model invariant is kept |
| Resources.DeviceRecordOf | lib/haimeda_core/external/python/statement_worker_pool.py:33-93 | nvidia-smi figures first; then torch's bytes in MiB, truncated, with free = total − reserved, which lies in [0, total] when 0 ≤ reserved ≤ total; then the error record with the exception's message |
| Resources.TotalFreeSkipsErrors | lib/haimeda_core/external/python/statement_worker_pool.py:95-97 | the total equals the sum over the devices that answered; error records contribute 0 |
| Resources.TotalFreeNonNegative | lib/haimeda_core/external/python/statement_worker_pool.py:95-97 | devices reporting non-negative free memory give a non-negative total |
| Resources.GetVramInfo | lib/haimeda_core/external/python/statement_worker_pool.py:22-99 | unavailable on darwin, without torch or without CUDA; otherwise one record per device in order, and the total free memory |
| Resources.CpuCount | lib/haimeda_core/external/python/statement_worker_pool.py:106 | `os.cpu_count() or 4` is at least 1 |
| Resources.CpuWorkers | lib/haimeda_core/external/python/statement_worker_pool.py:113-114 | max(1, cores − 1) is at least 1 |
| Resources.VramWorkerLimit | lib/haimeda_core/external/python/statement_worker_pool.py:127-130 | max(1, ⌊0.8·free/200⌋) is at least 1 |
| Resources.GetOptimalWorkerCount | lib/haimeda_core/external/python/statement_worker_pool.py:102-162 | at least 1 on every path; on the VRAM path min(VRAM limit, CPU limit, 16); 2 after an exception; otherwise the uncapped CPU limit |
| Resources.VramPathBounds | lib/haimeda_core/external/python/statement_worker_pool.py:123-146 | on the VRAM path the count is ≤16 and ≤ the CPU limit, and does not decrease with more free memory |
| Resources.CpuPathUncapped | lib/haimeda_core/external/python/statement_worker_pool.py:148-158 | a 64-core host without CUDA gets 63 workers |
| Pool.Flat | lib/haimeda_core/external/python/statement_worker_pool.py:448-456 | the statements are read as s1, s2 of each pair in turn |
| Pool.Admit | lib/haimeda_core/external/python/statement_worker_pool.py:449-456 | one step keeps the list, set and index consistent, and extends the first-seen dedup by one statement |
| Pool.IndexStatements | lib/haimeda_core/external/python/statement_worker_pool.py:443-458 | it raises iff a statement is unhashable (a list or a dictionary); otherwise the statements are deduplicated in first-seen order, with no duplicates, `all[index[s]] == s`, every s1 and s2 indexed, and at most 2·\|pairs\| statements |
| Pool.ListOfStringsUnhashable | lib/haimeda_core/external/python/statement_worker_pool.py:443-450 | a batch whose statement is the list `["a"]` has an unhashable statement, so indexing it raises |
| Pool.IndexPair | lib/haimeda_core/external/python/statement_worker_pool.py:448-456 | one pair of the dedup loop: it raises iff either statement is unhashable (a list or a dictionary), and then the batch has an unhashable statement; otherwise both statements are admitted and the table stays consistent |
| Pool.NormalizeList | lib/haimeda_core/external/python/statement_worker_pool.py:489-499 | a present keyword list becomes its `ensure_string` image; a missing one stays missing |
| Pool.NormalizeKeywords | lib/haimeda_core/external/python/statement_worker_pool.py:487-499 | the nested and flat keyword lists are converted, and nothing else changes |
| Pool.NormalizeListIdempotent | lib/haimeda_core/external/python/statement_worker_pool.py:489-499 | converting a list twice is converting it once |
| Pool.NormalizeKeywordsIdempotent | lib/haimeda_core/external/python/statement_worker_pool.py:487-499 | the keyword pass is idempotent |
| Pool.NormalizeListOfStrings | lib/haimeda_core/external/python/statement_worker_pool.py:489-499 | lists of strings are unchanged |
| Pool.NormalizeLeavesScoring | lib/haimeda_core/external/python/statement_worker_pool.py:483-499 | the pass leaves the scoring result of two strings unchanged |
| Pool.ProcessWithEmbeddings | lib/haimeda_core/external/python/statement_worker_pool.py:475-535 | two strings are scored from their embeddings; anything else gives the complete error dictionary; the overlap is in [0,100] |
| Pool.SlotResult | lib/haimeda_core/external/python/statement_worker_pool.py:548-552 | the slot result carries the pair's own statements, and it is an error iff a statement is not a string |
| Pool.FillSlots | lib/haimeda_core/external/python/statement_worker_pool.py:544-574 | whatever the completion order, slot i holds the result for pair i, computed from the embeddings at its statements' indices |
| Pool.ScoreIndexed | lib/haimeda_core/external/python/statement_worker_pool.py:463-574 | after indexing, it succeeds iff encoding succeeds and the worker count is accepted, and then slot i holds pair i's result |
| Pool.WriteSlot | lib/haimeda_core/external/python/statement_worker_pool.py:544-552 | one completed future fills exactly its own pair's slot; every other slot keeps its state |
| Pool.AllSlots | lib/haimeda_core/external/python/statement_worker_pool.py:544-552 | one filled slot per pair, tagged with that pair's first statement |
| Pool.DecodeWire | lib/haimeda_core/external/python/statement_worker_pool.py:209-210 | bytes decode to a string or raise; other values pass through |
| Pool.DecodedItem | lib/haimeda_core/external/python/statement_worker_pool.py:209-210 | the decoded statement is what decoding succeeds with |
| Pool.DecodedPairs | lib/haimeda_core/external/python/statement_worker_pool.py:207-211 | one decoded pair per input pair, in order |
| Pool.DecodePairs | lib/haimeda_core/external/python/statement_worker_pool.py:207-211 | it raises iff some statement fails to decode; otherwise it yields the decoded pairs |
| Pool.ResultOrDefault | lib/haimeda_core/external/python/statement_worker_pool.py:259-273 | the slot's result when present, the "No result produced" default otherwise |
| Pool.FormatResults | lib/haimeda_core/external/python/statement_worker_pool.py:256-340 | one record per decoded pair, in order, formatted from its slot or the default |
| Pool.AppendRecord | lib/haimeda_core/external/python/statement_worker_pool.py:256-340 | one iteration of the formatting loop appends the record of the next pair, keeping every earlier record |
| Pool.FormattedStatements | lib/haimeda_core/external/python/statement_worker_pool.py:301-310 | each record carries its own pair's statements, and a record past the results has interpretation "error" |
| Pool.WorkerPool.constructor | lib/haimeda_core/external/python/statement_worker_pool.py:16 | no model is loaded |
| Pool.WorkerPool.GetModel | lib/haimeda_core/external/python/statement_worker_pool.py:165-178 | once loaded, the same model is returned; a failed load returns None and leaves the model unset |
| Pool.WorkerPool.ReleaseResources | lib/haimeda_core/external/python/statement_worker_pool.py:392-420 | the model is dropped whatever the state (idempotent), and "Resources released" is returned |
| Pool.WorkerPool.ProcessBatchParallel | lib/haimeda_core/external/python/statement_worker_pool.py:428-580 | it raises on an unhashable statement (a list or a dictionary), no model, a failed encode or a non-positive worker count; the encoder gets the unique statements; otherwise slot i holds pair i's result |
| Pool.WorkerPool.ProcessBatch | lib/haimeda_core/external/python/statement_worker_pool.py:196-347 | an undecodable statement raises; when the parallel batch runs (torch present, no unhashable statement, a model held or loaded, encoding succeeded), record i formats pair i's slot result; otherwise only an empty batch succeeds, with []; once decoded, the model becomes the load outcome exactly when torch is present, no statement is unhashable and no model is held, and is unchanged otherwise |
| Pool.WorkerPool.RunAndFormat | lib/haimeda_core/external/python/statement_worker_pool.py:216-340 | on decoded pairs: when the parallel batch runs (torch present, no unhashable statement, a model held or loaded, encoding succeeded), record i formats pair i's slot result; otherwise only an empty batch succeeds, with []; once decoded, the model becomes the load outcome exactly when torch is present, no statement is unhashable and no model is held, and is unchanged otherwise |
| Pool.ProcessBatchSequential | lib/haimeda_core/external/python/statement_worker_pool.py:350-384 | one result per pair in input order, the short error dictionary for a pair that raised, and reclamation exactly after successful pairs with i % 20 == 19 |
| Pool.OriginalIndex | lib/haimeda_core/external/python/statement_worker_pool.py:596 | worker w's indices lie in [1000·w, 1000·(w+1)) for positions below 1000 |
| Pool.OriginalIndexInjective | lib/haimeda_core/external/python/statement_worker_pool.py:596-609 | for positions below 1000, two indices are equal iff worker and position are |
| Pool.OriginalIndexOverlapsBeyond1000 | lib/haimeda_core/external/python/statement_worker_pool.py:596 | position 1000 of worker 0 has the index of position 0 of worker 1 |
| Pool.WorkerErrorResult | lib/haimeda_core/external/python/statement_worker_pool.py:601-611 | the worker's error dictionary has the message, zero scores and the original index, and no interpretation |
| Pool.WorkerBatchProcess | lib/haimeda_core/external/python/statement_worker_pool.py:583-620 | one result per pair tagged with `worker_id*1000 + i`, errors turned into the worker's error dictionary, ⌊n/5⌋ reclamations, and [] when the import fails |

## Left out

- The sentence encoder, scikit-learn's TF-IDF, numpy/scipy norms and cosines, spaCy parsing and langdetect are foreign libraries. Their outputs are inputs. The choice of spaCy model for a language code (German with an English fallback, English otherwise) is part of the analysis input.
- The subprocess calls to `nvidia-smi` and the `torch.cuda` queries are hardware I/O. Their outcomes are inputs.
- Memory reclamation (`gc.collect`, `empty_cache`) is an effect outside the model. It appears only as reclamation events and counts.
- Printing, timing, rates and progress messages are output only.
- One effect of timing is left out: the `ZeroDivisionError` in the rate computations when the clock reads zero elapsed time.
- `ThreadPoolExecutor`, `as_completed` and the multiprocessing `result_queue` are concurrency. Only the completion order is modelled, as any permutation of the pair indices.
- `reload_module`, `dispatch`, `test_connection` and `get_vram_usage` are outside the modelled core.
- The ErlPort tuple conversion at the end of `compare_statements` is left out, as is the formatting of matches as "k1 ≈ k2 (0.93)". Matches are kept as records.
- Floating-point rounding is left out. Scores are computed over exact reals and truncated, so results can differ from the program's right at a band boundary.
- Strings are sequences of characters. A Python string holding a lone surrogate cannot be represented, so `chr` of a surrogate code point is modelled as falling back to the list's `str` form.
- Unicode character classes cover ASCII and Latin-1 only. This applies to lower-casing, to the word characters of `\w` and to the whitespace of `\s`. So "łódź" tokenises as "ód", Greek and Cyrillic letters are not word characters, and U+2003 is not whitespace.
- Set iteration order:
  - `Scoring.SharedSet` fixes the order of `set(...).intersection(...)` to first occurrence.
  - `Similarity.UniqueWords` takes the iteration order of `set(...)` as an input: the ranking `hashRank`, which orders the distinct words.
- `Scoring.ScoringSession.CompareAllStatements`: the exception branch of the collection loop is not modelled. `process_comparison_pair` catches every `Exception`, so that branch is only reachable through errors such as `MemoryError`.
- `Scoring.ScoringSession.CompareAllStatements`: the worker count it computes does not affect the results, so the model leaves it out.
- `Pool.WorkerPool.ProcessBatchParallel`: the exception branch of the collection loop is not modelled, because `process_with_embeddings` catches every `Exception`.
- `Pool.WorkerPool.ProcessBatchParallel`: the checks that `common_keywords` is an empty string are not modelled. The model's keyword lists are always lists.
- `Pool.WorkerPool.ProcessBatchParallel`: the `TypeError` message for an unhashable statement is fixed as the one for a list. A dictionary statement has its own message in Python.
- `Pool.WorkerPool.ProcessBatchParallel`: the message of the exception raised by scoring a non-string statement is fixed as `NotTextError`. Python's exact message is not modelled.
- `Pool.WorkerPool.ProcessBatch`: the outer `except` that builds one error dictionary per pair is not modelled. Nothing inside its `try` can raise: `get_optimal_worker_count` catches its own failures, and the inner `try` catches the parallel batch's.
- `Pool.ProcessBatchSequential` and `Pool.WorkerBatchProcess` take the outcome of `process_comparison_pair` as an input. The modelled `Scoring.ProcessComparisonPair` never raises, so with it every pair takes the success path.
- `Scoring.CompareStatements` and `Scoring.ProcessComparisonPair` are pure. The loading of the model that a call triggers, with the `_model` and `_initialized` update, is stated by `Scoring.ScoringSession.RunCompareStatements` and `Scoring.ScoringSession.RunProcessComparisonPair`. The message of a failed model construction is fixed as `Scoring.ModelLoadError`.
- `Similarity.AlternativeScores`: the default confidence of 80 in `compare_statements` is never used, because an encoding failure makes the comparison fail first.
