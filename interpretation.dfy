/**
 * The textual interpretation of a combined score. `get_interpretation` (and the same
 * chain written inline in `compare_statements`) uses five labels; the nested helper of
 * `process_comparison_with_embeddings` uses its own four-label scheme.
 */
module Interpretation {

  /** The five labels, from least to most similar. */
  const Labels: seq<string> :=
    ["completely different", "mostly different", "somewhat similar", "very similar", "nearly identical"]

  /** The lower bounds of the upper four labels. */
  const Thresholds: seq<int> := [10, 25, 50, 75]

  /** The four labels of `process_comparison_with_embeddings`, from weakest to strongest. */
  const MatchLabels: seq<string> := ["no_match", "weak_match", "moderate_match", "strong_match"]

  const MatchThresholds: seq<int> := [40, 60, 80]

  /** `get_interpretation(score)`. */
  function Interpret(score: int): (r: string)
    ensures r in Labels
  {
    if score < 10 then "completely different"
    else if score < 25 then "mostly different"
    else if score < 50 then "somewhat similar"
    else if score < 75 then "very similar"
    else "nearly identical"
  }

  /** The nested `get_interpretation` of `process_comparison_with_embeddings`. */
  function MatchLabel(score: int): (r: string)
    ensures r in MatchLabels
  {
    if score >= 80 then "strong_match"
    else if score >= 60 then "moderate_match"
    else if score >= 40 then "weak_match"
    else "no_match"
  }

  /** How many of the ascending `bounds` the score has reached. */
  function Reached(bounds: seq<int>, score: int): (n: nat)
    ensures n <= |bounds|
  {
    if bounds == [] then 0 else (if bounds[0] <= score then 1 else 0) + Reached(bounds[1..], score)
  }

  /** Position of a label in its scheme (its rank). */
  function Rank(labels: seq<string>, l: string): nat
  {
    if labels == [] || labels[0] == l then 0 else 1 + Rank(labels[1..], l)
  }

  /**
   * The label is the one whose bucket the score falls in: the label at the position given
   * by how many thresholds the score has reached. This is an independent reference
   * definition of the if-chain.
   */
  lemma InterpretByThresholds(score: int)
    ensures Interpret(score) == Labels[Reached(Thresholds, score)]
  {
    var t1, t2, t3 := Thresholds[1..], Thresholds[2..], Thresholds[3..];
    assert t1 == [25, 50, 75] && t2 == [50, 75] && t3 == [75] && t3[1..] == [];
    assert Reached(t3, score) == if 75 <= score then 1 else 0;
    assert Reached(t2, score) == (if 50 <= score then 1 else 0) + Reached(t3, score);
    assert Reached(t1, score) == (if 25 <= score then 1 else 0) + Reached(t2, score);
  }

  lemma MatchLabelByThresholds(score: int)
    ensures MatchLabel(score) == MatchLabels[Reached(MatchThresholds, score)]
  {
    var t1, t2 := MatchThresholds[1..], MatchThresholds[2..];
    assert t1 == [60, 80] && t2 == [80] && t2[1..] == [];
    assert Reached(t2, score) == if 80 <= score then 1 else 0;
    assert Reached(t1, score) == (if 60 <= score then 1 else 0) + Reached(t2, score);
  }

  lemma {:induction false} ReachedMonotone(bounds: seq<int>, a: int, b: int)
    requires a <= b
    ensures Reached(bounds, a) <= Reached(bounds, b)
  {
    if bounds != [] {
      ReachedMonotone(bounds[1..], a, b);
    }
  }

  lemma RankOfLabel(i: nat)
    requires i < |Labels|
    ensures Rank(Labels, Labels[i]) == i
  {
    assert Labels[1..][1..][1..][1..] == ["nearly identical"];
  }

  lemma RankOfMatchLabel(i: nat)
    requires i < |MatchLabels|
    ensures Rank(MatchLabels, MatchLabels[i]) == i
  {
    assert MatchLabels[1..][1..][1..] == ["strong_match"];
  }

  /** A higher score never gets a lower label, in the five-label scheme. */
  lemma InterpretMonotone(a: int, b: int)
    requires a <= b
    ensures Rank(Labels, Interpret(a)) <= Rank(Labels, Interpret(b))
  {
    InterpretByThresholds(a);
    InterpretByThresholds(b);
    ReachedMonotone(Thresholds, a, b);
    RankOfLabel(Reached(Thresholds, a));
    RankOfLabel(Reached(Thresholds, b));
  }

  /** A higher score never gets a lower label, in the four-label scheme. */
  lemma MatchLabelMonotone(a: int, b: int)
    requires a <= b
    ensures Rank(MatchLabels, MatchLabel(a)) <= Rank(MatchLabels, MatchLabel(b))
  {
    MatchLabelByThresholds(a);
    MatchLabelByThresholds(b);
    ReachedMonotone(MatchThresholds, a, b);
    RankOfMatchLabel(Reached(MatchThresholds, a));
    RankOfMatchLabel(Reached(MatchThresholds, b));
  }
}
