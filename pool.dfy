/**
 * The batch side of the worker pool: the singleton model, the parallel batch with its
 * shared embedding table and index-preserving result slots, the formatting loop that
 * answers the Elixir caller, the sequential loop and the per-worker loop.
 *
 * The sentence encoder, the numeric metrics and the scheduler are inputs: an `Encoder`
 * giving the embedding of each statement, a `Measure` turning two statements and their
 * embeddings into the metrics `process_comparison_with_embeddings` consumes, and the
 * order in which the thread pool completes its futures.
 */
module Pool {
  import opened Wrappers
  import opened Seqs
  import opened Results
  import opened Resources
  import Scoring

  // ---------------------------------------------------------------- deduplication

  /** The statements of the pairs in reading order: `s1` then `s2` of each pair. */
  function Flat<T>(pairs: seq<(T, T)>): (r: seq<T>)
    ensures |r| == 2 * |pairs|
    ensures forall i :: 0 <= i < |pairs| ==> r[2 * i] == pairs[i].0 && r[2 * i + 1] == pairs[i].1
  {
    if pairs == [] then []
    else Flat(pairs[..|pairs| - 1]) + [pairs[|pairs| - 1].0, pairs[|pairs| - 1].1]
  }

  /** Reading one more pair appends its two statements, both of which occur in the whole reading. */
  lemma FlatStep<T>(pairs: seq<(T, T)>, i: nat)
    requires i < |pairs|
    ensures Flat(pairs[..i + 1]) == Flat(pairs[..i]) + [pairs[i].0] + [pairs[i].1]
    ensures pairs[i].0 in Flat(pairs) && pairs[i].1 in Flat(pairs)
  {
    assert pairs[..i + 1][..i] == pairs[..i];
    assert Flat(pairs)[2 * i] == pairs[i].0 && Flat(pairs)[2 * i + 1] == pairs[i].1;
  }

  /** Every statement of every pair occurs in the reading. */
  lemma FlatCovers<T>(pairs: seq<(T, T)>)
    ensures forall i :: 0 <= i < |pairs| ==> pairs[i].0 in Flat(pairs) && pairs[i].1 in Flat(pairs)
  {
    forall i | 0 <= i < |pairs| ensures pairs[i].0 in Flat(pairs) && pairs[i].1 in Flat(pairs) {
      assert Flat(pairs)[2 * i] == pairs[i].0 && Flat(pairs)[2 * i + 1] == pairs[i].1;
    }
  }

  /** A list or dictionary statement cannot be hashed: looking it up in the statement set raises `TypeError`. */
  predicate HasUnhashable(pairs: seq<(Item, Item)>)
  {
    exists x :: x in Flat(pairs) && !Hashable(x)
  }

  /** A statement sent as a list of strings, such as `["a"]`, is unhashable too, not only a charlist. */
  lemma ListOfStringsUnhashable()
    ensures HasUnhashable([(Other("['a']", false), Str("b"))])
  {
    var pairs := [(Other("['a']", false), Str("b"))];
    var x := Flat(pairs)[0];
    assert x == pairs[0].0 == Other("['a']", false);
    assert x in Flat(pairs) && !Hashable(x);
  }

  /** The table the dedup loop keeps: the unique statements, the set of them, and each one's index. */
  ghost predicate Indexed(seen: set<Item>, all: seq<Item>, index: map<Item, nat>)
  {
    && (forall x :: x in seen <==> x in all)
    && index.Keys == seen
    && (forall s :: s in index ==> index[s] < |all| && all[index[s]] == s)
  }

  /** One `if s not in statement_set` step of the dedup loop. */
  method Admit(s: Item, read: seq<Item>, seen: set<Item>, all: seq<Item>, index: map<Item, nat>)
    returns (seen': set<Item>, all': seq<Item>, index': map<Item, nat>)
    requires Indexed(seen, all, index) && all == Dedup(read)
    ensures Indexed(seen', all', index') && all' == Dedup(read + [s])
  {
    DedupSnoc(read, s);
    seen', all', index' := seen, all, index;
    if s !in seen {
      index' := index[s := |all|];
      all' := all + [s];
      seen' := seen + {s};
    }
  }

  /**
   * The dedup loop of `process_batch_parallel`: the unique statements in first-seen order,
   * the set of those seen and the index of each in the list; `ok` is false when a list
   * statement made the set lookup raise.
   */
  method IndexStatements(pairs: seq<(Item, Item)>) returns (ok: bool, all: seq<Item>, index: map<Item, nat>)
    ensures ok <==> !HasUnhashable(pairs)
    ensures ok ==> all == Dedup(Flat(pairs)) && Distinct(all) && |all| <= 2 * |pairs|
    ensures ok ==> forall s :: s in index ==> index[s] < |all| && all[index[s]] == s
    ensures ok ==> forall i :: 0 <= i < |pairs| ==> pairs[i].0 in index && pairs[i].1 in index
  {
    all := [];
    index := map[];
    var seen: set<Item> := {};
    for i := 0 to |pairs|
      invariant all == Dedup(Flat(pairs[..i]))
      invariant Indexed(seen, all, index)
      invariant forall x :: x in Flat(pairs[..i]) ==> Hashable(x)
    {
      var hashable;
      hashable, seen, all, index := IndexPair(pairs, i, seen, all, index);
      if !hashable {
        return false, all, index;
      }
    }
    assert pairs[..|pairs|] == pairs;
    ok := true;
    FlatCovers(pairs);
  }

  /** One iteration of the dedup loop: both statements of pair `i` are looked up and admitted. */
  method IndexPair(pairs: seq<(Item, Item)>, i: nat, seen: set<Item>, all: seq<Item>, index: map<Item, nat>)
    returns (hashable: bool, seen': set<Item>, all': seq<Item>, index': map<Item, nat>)
    requires i < |pairs|
    requires all == Dedup(Flat(pairs[..i])) && Indexed(seen, all, index)
    requires forall x :: x in Flat(pairs[..i]) ==> Hashable(x)
    ensures !hashable <==> !Hashable(pairs[i].0) || !Hashable(pairs[i].1)
    ensures !hashable ==> HasUnhashable(pairs)
    ensures hashable ==> all' == Dedup(Flat(pairs[..i + 1])) && Indexed(seen', all', index')
    ensures hashable ==> forall x :: x in Flat(pairs[..i + 1]) ==> Hashable(x)
  {
    var (s1, s2) := pairs[i];
    FlatStep(pairs, i);
    seen', all', index' := seen, all, index;
    if !Hashable(s1) || !Hashable(s2) {
      return false, seen', all', index';
    }
    hashable := true;
    seen', all', index' := Admit(s1, Flat(pairs[..i]), seen, all, index);
    seen', all', index' := Admit(s2, Flat(pairs[..i]) + [s1], seen', all', index');
  }

  // ---------------------------------------------------------------- one comparison

  /** The sentence encoder: whether `model.encode` succeeds, and the embedding of each statement. */
  datatype Encoder = Encoder(ok: bool, embed: Item -> seq<real>)

  /** The numpy/scipy/sklearn metrics of two statements and their embeddings. */
  type Measure = (string, string, seq<real>, seq<real>) -> Scoring.EmbeddingMetrics

  /** The message of the exception a statement that is not a string raises inside the scoring call. */
  const NotTextError: string := "statement is not a string"

  /** `[ensure_string(k) for k in ...]` applied to a keyword list that is present. */
  function NormalizeList(l: Option<seq<Item>>): (r: Option<seq<Item>>)
    ensures r.Some? <==> l.Some?
    ensures l.Some? ==> r.value == StrItems(EnsureStrings(l.value))
  {
    match l
    case None => None
    case Some(items) => Some(StrItems(EnsureStrings(items)))
  }

  /** The `ensure_string` pass over the nested and the flat keyword lists of a result. */
  function NormalizeKeywords(r: RawResult): (n: RawResult)
    ensures n.keywords1 == NormalizeList(r.keywords1) && n.keywords2 == NormalizeList(r.keywords2)
    ensures n.commonKeywords == NormalizeList(r.commonKeywords)
    ensures r.keywords.Some? <==> n.keywords.Some?
    ensures r.keywords.Some? ==> n.keywords.value == KeywordGroups(NormalizeList(r.keywords.value.statement1),
      NormalizeList(r.keywords.value.statement2), NormalizeList(r.keywords.value.common))
    ensures n.(keywords1 := r.keywords1, keywords2 := r.keywords2, commonKeywords := r.commonKeywords,
      keywords := r.keywords) == r
  {
    var groups := match r.keywords
      case None => None
      case Some(g) => Some(KeywordGroups(NormalizeList(g.statement1), NormalizeList(g.statement2), NormalizeList(g.common)));
    r.(keywords1 := NormalizeList(r.keywords1), keywords2 := NormalizeList(r.keywords2),
      commonKeywords := NormalizeList(r.commonKeywords), keywords := groups)
  }

  /** Keyword lists that already hold strings are left as they are. */
  lemma NormalizeListOfStrings(ws: seq<string>)
    ensures NormalizeList(Some(StrItems(ws))) == Some(StrItems(ws))
  {
    EnsureStringsOfStrings(ws);
  }

  /**
   * The keywords `process_comparison_with_embeddings` reports are strings already, so the
   * `ensure_string` pass of the parallel worker leaves its result as it is.
   */
  lemma NormalizeLeavesScoring(s1: string, s2: string, m: Scoring.EmbeddingMetrics)
    ensures NormalizeKeywords(Scoring.ProcessComparisonWithEmbeddings(s1, s2, m))
      == Scoring.ProcessComparisonWithEmbeddings(s1, s2, m)
  {
    var r := Scoring.ProcessComparisonWithEmbeddings(s1, s2, m);
    NormalizeListOfStrings(Scoring.LocalKeywords(s1));
    NormalizeListOfStrings(Scoring.LocalKeywords(s2));
    NormalizeListOfStrings(Scoring.SharedSet(Scoring.LocalKeywords(s1), Scoring.LocalKeywords(s2)));
    assert NormalizeKeywords(r).keywords == r.keywords;
  }

  /** The normalisation is idempotent: normalising twice is normalising once. */
  lemma NormalizeKeywordsIdempotent(r: RawResult)
    ensures NormalizeKeywords(NormalizeKeywords(r)) == NormalizeKeywords(r)
  {
    NormalizeListIdempotent(r.keywords1);
    NormalizeListIdempotent(r.keywords2);
    NormalizeListIdempotent(r.commonKeywords);
    if r.keywords.Some? {
      NormalizeListIdempotent(r.keywords.value.statement1);
      NormalizeListIdempotent(r.keywords.value.statement2);
      NormalizeListIdempotent(r.keywords.value.common);
    }
  }

  lemma NormalizeListIdempotent(l: Option<seq<Item>>)
    ensures NormalizeList(NormalizeList(l)) == NormalizeList(l)
  {
    if l.Some? {
      EnsureStringsOfStrings(EnsureStrings(l.value));
    }
  }

  /**
   * `process_with_embeddings` for two statements and their embeddings: the scoring of
   * `process_comparison_with_embeddings` with its keywords passed through `ensure_string`;
   * a statement that is not a string makes the scoring raise and yields the complete error
   * dictionary.
   */
  function ProcessWithEmbeddings(s1: Item, s2: Item, emb1: seq<real>, emb2: seq<real>, measure: Measure): (r: RawResult)
    ensures s1.Str? && s2.Str? ==>
      r == NormalizeKeywords(Scoring.ProcessComparisonWithEmbeddings(s1.s, s2.s, measure(s1.s, s2.s, emb1, emb2)))
    ensures !(s1.Str? && s2.Str?) ==> r == FullErrorResult(NotTextError)
    ensures r.interpretation.Some? && r.overlapPercent.Some? && 0 <= r.overlapPercent.value <= 100
  {
    if s1.Str? && s2.Str? then
      NormalizeKeywords(Scoring.ProcessComparisonWithEmbeddings(s1.s, s2.s, measure(s1.s, s2.s, emb1, emb2)))
    else FullErrorResult(NotTextError)
  }

  /** What slot `idx` of the parallel results holds: pair `idx`'s result, tagged with pair `idx`'s statements. */
  function SlotResult(pair: (Item, Item), encoder: Encoder, measure: Measure): (r: RawResult)
    ensures r.statement1 == Some(pair.0) && r.statement2 == Some(pair.1)
    ensures r.interpretation.Some?
    ensures r.error.Some? <==> !(pair.0.Str? && pair.1.Str?)
  {
    ProcessWithEmbeddings(pair.0, pair.1, encoder.embed(pair.0), encoder.embed(pair.1), measure)
      .(statement1 := Some(pair.0), statement2 := Some(pair.1))
  }

  /**
   * The collection loop of `process_batch_parallel`: `results = [None] * n` written at the
   * index of each future as it completes. Each pair's embeddings are read from the table by
   * its statements' indices.
   */
  method FillSlots(pairs: seq<(Item, Item)>, all: seq<Item>, index: map<Item, nat>, embeddings: seq<seq<real>>,
                   encoder: Encoder, measure: Measure, completion: seq<nat>)
    returns (results: seq<Option<RawResult>>)
    requires IsPermutation(completion, |pairs|)
    requires |embeddings| == |all| && forall j :: 0 <= j < |all| ==> embeddings[j] == encoder.embed(all[j])
    requires forall s :: s in index ==> index[s] < |all| && all[index[s]] == s
    requires forall i :: 0 <= i < |pairs| ==> pairs[i].0 in index && pairs[i].1 in index
    ensures |results| == |pairs|
    ensures forall i :: 0 <= i < |pairs| ==> results[i] == Some(SlotResult(pairs[i], encoder, measure))
  {
    PermutationCovers(completion, |pairs|);
    var slots := new Option<RawResult>[|pairs|](_ => None);
    for k := 0 to |completion|
      invariant SlotsFilled(slots[..], pairs, encoder, measure, completion[..k])
    {
      WriteSlot(slots, pairs, all, index, embeddings, encoder, measure, completion, k);
    }
    assert completion[..|completion|] == completion;
    results := slots[..];
  }

  /** The slots after the futures in `done` have completed: those pairs' results, `None` elsewhere. */
  ghost predicate SlotsFilled(slots: seq<Option<RawResult>>, pairs: seq<(Item, Item)>, encoder: Encoder, measure: Measure,
                              done: seq<nat>)
  {
    && |slots| == |pairs|
    && forall i :: 0 <= i < |pairs| ==>
      slots[i] == if i in done then Some(SlotResult(pairs[i], encoder, measure)) else None
  }

  /** One completed future: `results[idx] = result` for the `k`-th pair to complete. */
  method WriteSlot(slots: array<Option<RawResult>>, pairs: seq<(Item, Item)>, all: seq<Item>, index: map<Item, nat>,
                   embeddings: seq<seq<real>>, encoder: Encoder, measure: Measure, completion: seq<nat>, k: nat)
    modifies slots
    requires k < |completion| && completion[k] < |pairs|
    requires |embeddings| == |all| && forall j :: 0 <= j < |all| ==> embeddings[j] == encoder.embed(all[j])
    requires forall s :: s in index ==> index[s] < |all| && all[index[s]] == s
    requires forall i :: 0 <= i < |pairs| ==> pairs[i].0 in index && pairs[i].1 in index
    requires SlotsFilled(slots[..], pairs, encoder, measure, completion[..k])
    ensures SlotsFilled(slots[..], pairs, encoder, measure, completion[..k + 1])
  {
    var idx := completion[k];
    var (s1, s2) := pairs[idx];
    var embedding1 := embeddings[index[s1]];
    var embedding2 := embeddings[index[s2]];
    var result := ProcessWithEmbeddings(s1, s2, embedding1, embedding2, measure);
    ghost var before := slots[..];
    slots[idx] := Some(result.(statement1 := Some(s1), statement2 := Some(s2)));
    assert slots[idx] == Some(SlotResult(pairs[idx], encoder, measure));
    InPrefixSnoc(completion, k);
    forall i | 0 <= i < |pairs| && i != idx
      ensures slots[..][i] == if i in completion[..k + 1] then Some(SlotResult(pairs[i], encoder, measure)) else None
    {
      assert slots[i] == before[i];
    }
  }

  /** The parallel results once every future has completed: one filled slot per pair. */
  function AllSlots(pairs: seq<(Item, Item)>, encoder: Encoder, measure: Measure): (r: seq<Option<RawResult>>)
    ensures |r| == |pairs|
    ensures forall i :: 0 <= i < |pairs| ==> r[i].Some? && r[i].value.statement1 == Some(pairs[i].0)
  {
    seq(|pairs|, i requires 0 <= i < |pairs| => Some(SlotResult(pairs[i], encoder, measure)))
  }

  /** `ThreadPoolExecutor` refuses a non-positive worker count. */
  predicate WorkerCountAccepted(numWorkers: Option<int>)
  {
    numWorkers.None? || numWorkers.value > 0
  }
  /**
   * The part of `process_batch_parallel` after the statements are indexed: encode the unique
   * statements once, then score every pair on the pool.
   */
  method ScoreIndexed(pairs: seq<(Item, Item)>, all: seq<Item>, index: map<Item, nat>, numWorkers: Option<int>,
                      encoder: Encoder, measure: Measure, completion: seq<nat>)
    returns (r: Result<seq<Option<RawResult>>>)
    requires IsPermutation(completion, |pairs|)
    requires forall s :: s in index ==> index[s] < |all| && all[index[s]] == s
    requires forall i :: 0 <= i < |pairs| ==> pairs[i].0 in index && pairs[i].1 in index
    ensures r.Ok? <==> encoder.ok && WorkerCountAccepted(numWorkers)
    ensures r.Ok? ==> r.value == AllSlots(pairs, encoder, measure)
  {
    if !encoder.ok {
      return Err("encoding failed");
    }
    var embeddings := seq(|all|, j requires 0 <= j < |all| => encoder.embed(all[j]));
    if numWorkers.Some? && numWorkers.value <= 0 {
      return Err("max_workers must be greater than 0");
    }
    var results := FillSlots(pairs, all, index, embeddings, encoder, measure, completion);
    assert results == AllSlots(pairs, encoder, measure);
    r := Ok(results);
  }


  // ---------------------------------------------------------------- formatting

  /** A statement as it arrives from Elixir: bytes (`None` when they are not valid UTF-8) or a value. */
  datatype Wire = Bytes(utf8: Option<string>) | Value(item: Item)

  function DecodeWire(w: Wire): (r: Result<Item>)
    ensures r.Err? <==> w.Bytes? && w.utf8.None?
    ensures w.Bytes? && w.utf8.Some? ==> r == Ok(Str(w.utf8.value))
    ensures w.Value? ==> r == Ok(w.item)
  {
    match w
    case Value(item) => Ok(item)
    case Bytes(text) =>
      match text
      case None => Err("'utf-8' codec can't decode bytes")
      case Some(s) => Ok(Str(s))
  }

  /** `pair[0].decode("utf-8") if isinstance(pair[0], bytes) else pair[0]` for a statement that decodes. */
  function DecodedItem(w: Wire): (x: Item)
    requires !(w.Bytes? && w.utf8.None?)
    ensures DecodeWire(w) == Ok(x)
  {
    if w.Value? then w.item else Str(w.utf8.value)
  }

  /** Both statements of a pair decode. */
  predicate Decodes(p: (Wire, Wire))
  {
    !(p.0.Bytes? && p.0.utf8.None?) && !(p.1.Bytes? && p.1.utf8.None?)
  }

  /** The decoded pairs, in order, when every statement decodes. */
  function DecodedPairs(wires: seq<(Wire, Wire)>): (r: seq<(Item, Item)>)
    requires forall i :: 0 <= i < |wires| ==> Decodes(wires[i])
    ensures |r| == |wires|
    ensures forall i :: 0 <= i < |wires| ==>
      Decodes(wires[i]) && r[i] == (DecodedItem(wires[i].0), DecodedItem(wires[i].1))
  {
    seq(|wires|, i requires 0 <= i < |wires| => assert Decodes(wires[i]); (DecodedItem(wires[i].0), DecodedItem(wires[i].1)))
  }

  /** The decoding loop at the head of `process_batch`; an undecodable statement raises out of it. */
  method DecodePairs(wires: seq<(Wire, Wire)>) returns (r: Result<seq<(Item, Item)>>)
    ensures r.Ok? <==> forall i :: 0 <= i < |wires| ==> Decodes(wires[i])
    ensures r.Ok? ==> r.value == DecodedPairs(wires)
  {
    var decoded: seq<(Item, Item)> := [];
    for i := 0 to |wires|
      invariant forall j :: 0 <= j < i ==> Decodes(wires[j])
      invariant decoded == DecodedPairs(wires[..i])
    {
      var stmt1 := DecodeWire(wires[i].0);
      if stmt1.Err? {
        return Err(stmt1.message);
      }
      var stmt2 := DecodeWire(wires[i].1);
      if stmt2.Err? {
        return Err(stmt2.message);
      }
      decoded := decoded + [(stmt1.value, stmt2.value)];
    }
    assert wires[..|wires|] == wires;
    r := Ok(decoded);
  }

  /** `results[i] if i < len(results) and results[i] is not None else <default>`. */
  function ResultOrDefault(results: seq<Option<RawResult>>, i: nat): (r: RawResult)
    ensures i < |results| && results[i].Some? ==> r == results[i].value
    ensures !(i < |results| && results[i].Some?) ==> r == NoResult()
  {
    if i < |results| && results[i].Some? then results[i].value else NoResult()
  }

  /** Whether the first records are the formatted results of the first decoded pairs. */
  ghost predicate FormattedPrefix(formatted: seq<Record>, decoded: seq<(Item, Item)>, results: seq<Option<RawResult>>)
  {
    && |formatted| <= |decoded|
    && forall j :: 0 <= j < |formatted| ==>
      formatted[j] == Format(ResultOrDefault(results, j), decoded[j].0, decoded[j].1)
  }

  /** One iteration of the formatting loop: the record of pair `|formatted|` is appended. */
  method AppendRecord(formatted: seq<Record>, decoded: seq<(Item, Item)>, results: seq<Option<RawResult>>)
    returns (formatted': seq<Record>)
    requires FormattedPrefix(formatted, decoded, results) && |formatted| < |decoded|
    ensures FormattedPrefix(formatted', decoded, results) && |formatted'| == |formatted| + 1
  {
    var i := |formatted|;
    formatted' := formatted + [Format(ResultOrDefault(results, i), decoded[i].0, decoded[i].1)];
  }

  /** The formatting loop of `process_batch`: one record per decoded pair, in order, padded with the default. */
  method FormatResults(decoded: seq<(Item, Item)>, results: seq<Option<RawResult>>) returns (formatted: seq<Record>)
    ensures |formatted| == |decoded|
    ensures forall i :: 0 <= i < |decoded| ==>
      formatted[i] == Format(ResultOrDefault(results, i), decoded[i].0, decoded[i].1)
  {
    formatted := [];
    for i := 0 to |decoded|
      invariant |formatted| == i && FormattedPrefix(formatted, decoded, results)
    {
      formatted := AppendRecord(formatted, decoded, results);
    }
  }

  /** Each record carries the statements of its own pair, whatever the results hold. */
  lemma FormattedStatements(decoded: seq<(Item, Item)>, results: seq<Option<RawResult>>, i: nat)
    requires i < |decoded|
    ensures Format(ResultOrDefault(results, i), decoded[i].0, decoded[i].1).statement1 == EnsureString(decoded[i].0)
    ensures Format(ResultOrDefault(results, i), decoded[i].0, decoded[i].1).statement2 == EnsureString(decoded[i].1)
    ensures i >= |results| ==> Format(ResultOrDefault(results, i), decoded[i].0, decoded[i].1).interpretation == "error"
  {
  }

  /** The message Python gives when `results` is read without ever having been bound. */
  const UnboundResults: string := "cannot access local variable 'results' where it is not associated with a value"

  // ---------------------------------------------------------------- the pool

  /** The module-level state of the worker pool: the singleton sentence model. */
  class WorkerPool {
    /** `_model`: the identity of the loaded model, if any. */
    var model: Option<nat>

    constructor()
      ensures model.None?
    {
      model := None;
    }

    /**
     * `get_model`: the loaded model is returned as it is; otherwise `load` is the outcome
     * of loading it, kept when it succeeds and answered by `None` when it fails.
     */
    method GetModel(load: Option<nat>) returns (m: Option<nat>)
      modifies this
      ensures old(model).Some? ==> m == old(model) && model == old(model)
      ensures old(model).None? ==> m == load && model == load
    {
      if model.None? {
        if load.None? {
          return None;
        }
        model := load;
      }
      m := model;
    }

    /** `release_resources`: the model is dropped, whatever the state, and the same message is returned. */
    method ReleaseResources() returns (message: string)
      modifies this
      ensures model.None?
      ensures message == "Resources released"
    {
      if model.Some? {
        model := None;
      }
      message := "Resources released";
    }

    /**
     * `process_batch_parallel`: dedup the statements, load the model once, encode the unique
     * statements in one call, then fill one slot per pair in completion order. It raises
     * on a list statement, a model that did not load, a failed encoding, or a non-positive
     * worker count.
     */
    method ProcessBatchParallel(pairs: seq<(Item, Item)>, numWorkers: Option<int>, load: Option<nat>,
                                encoder: Encoder, measure: Measure, completion: seq<nat>)
      returns (r: Result<seq<Option<RawResult>>>, encoded: seq<Item>)
      requires IsPermutation(completion, |pairs|)
      modifies this
      ensures HasUnhashable(pairs) ==> r.Err? && model == old(model)
      ensures !HasUnhashable(pairs) ==> old(model).Some? ==> model == old(model)
      ensures !HasUnhashable(pairs) ==> old(model).None? ==> model == load
      ensures r.Ok? <==> !HasUnhashable(pairs) && model.Some? && encoder.ok && WorkerCountAccepted(numWorkers)
      ensures model.Some? && !HasUnhashable(pairs) ==> encoded == Dedup(Flat(pairs))
      ensures r.Ok? ==> r.value == AllSlots(pairs, encoder, measure)
    {
      encoded := [];
      var ok, all, index := IndexStatements(pairs);
      if !ok {
        return Err("unhashable type: 'list'"), encoded;
      }
      var m := GetModel(load);
      if m.None? {
        return Err("'NoneType' object has no attribute 'encode'"), encoded;
      }
      encoded := all;
      r := ScoreIndexed(pairs, all, index, numWorkers, encoder, measure, completion);
    }

    /**
     * `process_batch`: decode, run the parallel batch with the host's worker count, and
     * format. Without torch, or when the parallel batch raises, `results` is never bound:
     * an empty batch still answers `[]`, any other batch raises.
     */
    method ProcessBatch(wires: seq<(Wire, Wire)>, host: Host, load: Option<nat>, encoder: Encoder,
                        measure: Measure, completion: seq<nat>)
      returns (r: Result<seq<Record>>)
      requires IsPermutation(completion, |wires|)
      modifies this
      ensures !(forall i :: 0 <= i < |wires| ==> Decodes(wires[i])) ==> r.Err? && model == old(model)
      ensures (forall i :: 0 <= i < |wires| ==> Decodes(wires[i])) ==>
        var decoded := DecodedPairs(wires);
        var ran := host.hasTorch && !HasUnhashable(decoded) && (old(model).Some? || load.Some?) && encoder.ok;
        && (ran ==> (r.Ok? && |r.value| == |decoded|
              && forall i :: 0 <= i < |decoded| ==>
                   r.value[i] == Format(SlotResult(decoded[i], encoder, measure), decoded[i].0, decoded[i].1)))
        && (!ran ==> (r.Ok? <==> decoded == []) && (decoded == [] ==> r == Ok([])))
        && model == if host.hasTorch && !HasUnhashable(decoded) && old(model).None? then load else old(model)
    {
      var d := DecodePairs(wires);
      if d.Err? {
        return Err(d.message);
      }
      r := RunAndFormat(d.value, host, load, encoder, measure, completion);
    }

    /** The part of `process_batch` after decoding: the parallel batch when torch is present, then formatting. */
    method RunAndFormat(decoded: seq<(Item, Item)>, host: Host, load: Option<nat>, encoder: Encoder,
                        measure: Measure, completion: seq<nat>)
      returns (r: Result<seq<Record>>)
      requires IsPermutation(completion, |decoded|)
      modifies this
      ensures
        var ran := host.hasTorch && !HasUnhashable(decoded) && (old(model).Some? || load.Some?) && encoder.ok;
        && (ran ==> (r.Ok? && |r.value| == |decoded|
              && forall i :: 0 <= i < |decoded| ==>
                   r.value[i] == Format(SlotResult(decoded[i], encoder, measure), decoded[i].0, decoded[i].1)))
        && (!ran ==> (r.Ok? <==> decoded == []) && (decoded == [] ==> r == Ok([])))
      ensures model == if host.hasTorch && !HasUnhashable(decoded) && old(model).None? then load else old(model)
    {
      var results: seq<Option<RawResult>>;
      var bound := false;
      if host.hasTorch {
        var processCount := GetOptimalWorkerCount(host);
        var parallel, _ := ProcessBatchParallel(decoded, Some(processCount), load, encoder, measure, completion);
        if parallel.Ok? {
          results := parallel.value;
          bound := true;
        }
      }
      if !bound {
        if decoded == [] {
          return Ok([]);
        }
        return Err(UnboundResults);
      }
      var formatted := FormatResults(decoded, results);
      forall i | 0 <= i < |decoded|
        ensures formatted[i] == Format(SlotResult(decoded[i], encoder, measure), decoded[i].0, decoded[i].1)
      {
        assert ResultOrDefault(results, i) == SlotResult(decoded[i], encoder, measure);
      }
      r := Ok(formatted);
    }
  }

  // ---------------------------------------------------------------- sequential and worker loops

  /**
   * What one call of `process_comparison_pair` does: the result dictionary, or the message
   * of an exception that escaped it.
   */
  type PairOutcome = (string, string) -> Result<RawResult>

  /**
   * `process_batch_sequential`: one result per pair in input order, the short error
   * dictionary for a pair that raised, and memory reclaimed after every successful pair
   * whose index is 19 modulo 20 (`reclaims` lists those indices in order).
   */
  method ProcessBatchSequential(pairs: seq<(string, string)>, outcome: PairOutcome)
    returns (results: seq<RawResult>, reclaims: seq<nat>)
    ensures |results| == |pairs|
    ensures forall i :: 0 <= i < |pairs| ==>
      results[i] == match outcome(pairs[i].0, pairs[i].1)
        case Ok(r) => r
        case Err(e) => ScoreErrorResult(e)
    ensures forall i :: i in reclaims <==> 0 <= i < |pairs| && i % 20 == 19 && outcome(pairs[i].0, pairs[i].1).Ok?
    ensures forall a, b :: 0 <= a < b < |reclaims| ==> reclaims[a] < reclaims[b]
  {
    results := [];
    reclaims := [];
    for i := 0 to |pairs|
      invariant |results| == i
      invariant forall j :: 0 <= j < i ==>
        results[j] == match outcome(pairs[j].0, pairs[j].1)
          case Ok(r) => r
          case Err(e) => ScoreErrorResult(e)
      invariant forall j :: j in reclaims <==> 0 <= j < i && j % 20 == 19 && outcome(pairs[j].0, pairs[j].1).Ok?
      invariant forall a, b :: 0 <= a < b < |reclaims| ==> reclaims[a] < reclaims[b]
      invariant forall a :: 0 <= a < |reclaims| ==> reclaims[a] < i
    {
      var (stmt1, stmt2) := pairs[i];
      match outcome(stmt1, stmt2) {
        case Ok(result) =>
          results := results + [result];
          if i % 20 == 19 {
            reclaims := reclaims + [i];
          }
        case Err(e) =>
          results := results + [ScoreErrorResult(e)];
      }
    }
  }

  /** The index a worker records for pair `i` of its batch, so results can be put back in order. */
  function OriginalIndex(workerId: nat, i: nat): (n: nat)
    ensures n >= workerId * 1000 && (i < 1000 ==> n < (workerId + 1) * 1000)
  {
    workerId * 1000 + i
  }

  /** Within batches of at most 1000 pairs, no two (worker, position) share an index. */
  lemma OriginalIndexInjective(w1: nat, i1: nat, w2: nat, i2: nat)
    requires i1 < 1000 && i2 < 1000
    ensures OriginalIndex(w1, i1) == OriginalIndex(w2, i2) <==> w1 == w2 && i1 == i2
  {
    if w1 < w2 {
      assert OriginalIndex(w1, i1) < (w1 + 1) * 1000 <= w2 * 1000;
    } else if w2 < w1 {
      assert OriginalIndex(w2, i2) < (w2 + 1) * 1000 <= w1 * 1000;
    }
  }

  /** A batch of more than 1000 pairs reuses the next worker's indices. */
  lemma OriginalIndexOverlapsBeyond1000()
    ensures OriginalIndex(0, 1000) == OriginalIndex(1, 0)
  {
  }

  /** The error dictionary of a worker: the message, zero scores and the pair's index, no interpretation. */
  function WorkerErrorResult(message: string, originalIndex: nat): (r: RawResult)
    ensures r.error == Some(message) && r.originalIndex == Some(originalIndex)
    ensures r.basicScore == Some(0) && r.combinedScore == Some(0) && r.confidence == Some(0)
    ensures r.interpretation.None?
  {
    EmptyResult().(error := Some(message), basicScore := Some(0), combinedScore := Some(0),
      confidence := Some(0), originalIndex := Some(originalIndex))
  }

  /**
   * `worker_batch_process`: the list a worker puts on the queue, each result tagged with its
   * original index, and the number of times it reclaimed memory (after every fifth pair,
   * whatever that pair's outcome). When importing the scoring module fails the list is empty.
   */
  method WorkerBatchProcess(workerId: nat, batch: seq<(string, string)>, importOk: bool, outcome: PairOutcome)
    returns (put: seq<RawResult>, reclaims: nat)
    ensures !importOk ==> put == [] && reclaims == 0
    ensures importOk ==> |put| == |batch| && reclaims == |batch| / 5
    ensures importOk ==> forall i :: 0 <= i < |batch| ==>
      put[i] == match outcome(batch[i].0, batch[i].1)
        case Ok(r) => r.(originalIndex := Some(OriginalIndex(workerId, i)))
        case Err(e) => WorkerErrorResult(e, OriginalIndex(workerId, i))
    ensures importOk ==> forall i :: 0 <= i < |batch| ==> put[i].originalIndex == Some(OriginalIndex(workerId, i))
  {
    put := [];
    reclaims := 0;
    if !importOk {
      return;
    }
    for i := 0 to |batch|
      invariant |put| == i && reclaims == i / 5
      invariant forall j :: 0 <= j < i ==>
        put[j] == match outcome(batch[j].0, batch[j].1)
          case Ok(r) => r.(originalIndex := Some(OriginalIndex(workerId, j)))
          case Err(e) => WorkerErrorResult(e, OriginalIndex(workerId, j))
    {
      var (stmt1, stmt2) := batch[i];
      match outcome(stmt1, stmt2) {
        case Ok(result) =>
          put := put + [result.(originalIndex := Some(OriginalIndex(workerId, i)))];
        case Err(e) =>
          put := put + [WorkerErrorResult(e, OriginalIndex(workerId, i))];
      }
      if i % 5 == 4 {
        reclaims := reclaims + 1;
      }
    }
  }
}
