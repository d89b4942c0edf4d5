/**
 * The client-side call score and the folds the dashboards build on it.
 *
 * The three views each carry their own verbatim copy of the score
 * heuristic; here it is defined once, and every view module calls it.
 */
module Scoring {
  import opened Records
  import opened Seqs

  /** `list?.length || 0`: the length of a present list; 0 for a missing or null one. */
  function Length(f: Field<seq<string>>): nat
  {
    if f.Present? then |f.value| else 0
  }

  /** `analysis?.recommendations?.length || 0`. */
  function Recommendations(a: Field<Analysis>): nat
  {
    if a.Present? then Length(a.value.recommendations) else 0
  }

  /** `analysis?.key_objections?.length || 0`. */
  function Objections(a: Field<Analysis>): nat
  {
    if a.Present? then Length(a.value.keyObjections) else 0
  }

  /** `analysis?.buying_signals?.length || 0`. */
  function Signals(a: Field<Analysis>): nat
  {
    if a.Present? then Length(a.value.buyingSignals) else 0
  }

  /** The weighted sum before clamping. */
  function RawScore(signals: nat, objections: nat, recommendations: nat): int
  {
    60 + signals * 15 - objections * 10 - recommendations * 5
  }

  function Max(a: int, b: int): int { if a >= b then a else b }

  function Min(a: int, b: int): int { if a <= b then a else b }

  /**
   * `getCallScore`: the raw score clamped into [10, 100]. Every input is an
   * integer, so the final `Math.round` changes nothing.
   */
  function CallScore(a: Field<Analysis>): (score: int)
    ensures 10 <= score <= 100
  {
    Max(10, Min(100, RawScore(Signals(a), Objections(a), Recommendations(a))))
  }

  /** Inside the clamp bounds the score is exactly the weighted sum. */
  lemma ScoreUnclamped(a: Field<Analysis>)
    requires 10 <= RawScore(Signals(a), Objections(a), Recommendations(a)) <= 100
    ensures CallScore(a) == 60 + 15 * Signals(a) - 10 * Objections(a) - 5 * Recommendations(a)
  {
  }

  /** Outside the clamp bounds the score saturates at 100 above and at 10 below. */
  lemma ScoreSaturates(a: Field<Analysis>)
    ensures RawScore(Signals(a), Objections(a), Recommendations(a)) >= 100 ==> CallScore(a) == 100
    ensures RawScore(Signals(a), Objections(a), Recommendations(a)) <= 10 ==> CallScore(a) == 10
  {
  }

  /** Five buying signals already reach the top of the scale; ten objections reach the bottom. */
  lemma SaturationExamples(a: Field<Analysis>)
    ensures Signals(a) == 5 && Objections(a) == 0 && Recommendations(a) == 0 ==> CallScore(a) == 100
    ensures Signals(a) == 0 && Objections(a) == 10 && Recommendations(a) == 0 ==> CallScore(a) == 10
  {
    ScoreSaturates(a);
  }

  /** A missing analysis, or one without the three lists, scores 60. */
  lemma MissingListsScoreSixty(a: Field<Analysis>)
    requires a.Present? ==> !a.value.recommendations.Present? && !a.value.keyObjections.Present?
                            && !a.value.buyingSignals.Present?
    ensures CallScore(a) == 60
  {
  }

  /** More buying signals, fewer objections and fewer recommendations never lower the score. */
  lemma ScoreMonotone(a: Field<Analysis>, b: Field<Analysis>)
    requires Signals(a) <= Signals(b)
    requires Objections(a) >= Objections(b)
    requires Recommendations(a) >= Recommendations(b)
    ensures CallScore(a) <= CallScore(b)
  {
  }

  /**
   * `Math.round(total / n)` for a positive count: the integer nearest to the
   * mean, halves rounded up.
   */
  function RoundedMean(total: int, n: nat): (r: int)
    requires n > 0
    ensures n * (2 * r - 1) <= 2 * total < n * (2 * r + 1)
  {
    var q := (2 * total + n) / (2 * n);
    assert 2 * n * q <= 2 * total + n < 2 * n * q + 2 * n;
    q
  }

  /** A mean of values in [lo, hi] rounds into [lo, hi]. */
  lemma {:induction false} RoundedMeanBounds(total: int, n: nat, lo: int, hi: int)
    requires n > 0
    requires lo * n <= total <= hi * n
    ensures lo <= RoundedMean(total, n) <= hi
  {
    var r := RoundedMean(total, n);
    if r > hi {
      MulMonotone(n, 2 * hi + 1, 2 * r - 1);
      assert false;
    }
    if r < lo {
      MulMonotone(n, 2 * r + 1, 2 * lo - 1);
      assert false;
    }
  }

  lemma MulMonotone(n: nat, a: int, b: int)
    requires a <= b
    ensures n * a <= n * b
  {
    assert n * b - n * a == n * (b - a);
  }

  /** Sum of the scores of `calls`. */
  function ScoreSum(calls: seq<Call>): int
  {
    if calls == [] then 0 else ScoreSum(Init(calls)) + CallScore(Last(calls).analysis)
  }

  /** Sum of the buying-signal counts of `calls`. */
  function SignalSum(calls: seq<Call>): nat
  {
    if calls == [] then 0 else SignalSum(Init(calls)) + Signals(Last(calls).analysis)
  }

  /** Sum of the objection counts of `calls`. */
  function ObjectionSum(calls: seq<Call>): nat
  {
    if calls == [] then 0 else ObjectionSum(Init(calls)) + Objections(Last(calls).analysis)
  }

  /** Every score lies in [10, 100], so their sum lies in [10·n, 100·n]. */
  lemma {:induction false} ScoreSumBounds(calls: seq<Call>)
    ensures 10 * |calls| <= ScoreSum(calls) <= 100 * |calls|
  {
    if calls != [] {
      ScoreSumBounds(Init(calls));
    }
  }

  /** The rounded mean score of a non-empty list of calls lies in [10, 100]. */
  lemma MeanScoreBounds(calls: seq<Call>)
    requires calls != []
    ensures 10 <= RoundedMean(ScoreSum(calls), |calls|) <= 100
  {
    ScoreSumBounds(calls);
    RoundedMeanBounds(ScoreSum(calls), |calls|, 10, 100);
  }
}
