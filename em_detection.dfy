/** The temporal decision logic of the emergency-siren detector: a sliding
    window of N per-frame classifier scores is thresholded into one 0/1 label
    per window position, and the clip is labelled by a strict majority of
    those labels. The classifier is opaque: its scores are an input. */
module EmDetection {
  import opened WindowStats

  datatype Error = ScoreIndexOutOfRange
  datatype Result<T> = Success(value: T) | Failure(error: Error)

  /** The label of one full window: 1 (emergency) iff its mean is strictly
      above the threshold; a mean equal to the threshold gives 0. */
  function Label(window: seq<real>, th: real): (b: int)
    requires |window| > 0
    ensures b == 0 || b == 1
  {
    if Mean(window) > th then 1 else 0
  }

  /** Reference definition of the label list: label k belongs to the
      window scores[k..k+n]. */
  function Labels(scores: seq<real>, n: nat, th: real): seq<int>
    requires 1 <= n <= |scores|
  {
    seq(|scores| - n + 1, k requires 0 <= k < |scores| - n + 1 => Label(scores[k..k + n], th))
  }

  /** What the label list promises: one label per window position (so it is
      never empty), every label 0 or 1, label k is 1 exactly when the sum of
      its window exceeds th * n, and a window whose mean equals th is 0. */
  lemma LabelsMeaning(scores: seq<real>, n: nat, th: real)
    requires 1 <= n <= |scores|
    ensures |Labels(scores, n, th)| == |scores| - n + 1 >= 1
    ensures forall k :: 0 <= k < |scores| - n + 1 ==>
      (Labels(scores, n, th)[k] == 0 || Labels(scores, n, th)[k] == 1)
    ensures forall k :: 0 <= k < |scores| - n + 1 ==>
      (Labels(scores, n, th)[k] == 1 <==> Sum(scores[k..k + n]) > th * (n as real))
    ensures forall k :: 0 <= k < |scores| - n + 1 && Sum(scores[k..k + n]) == th * (n as real) ==>
      Labels(scores, n, th)[k] == 0
  {
    forall k | 0 <= k < |scores| - n + 1
      ensures Labels(scores, n, th)[k] == 0 || Labels(scores, n, th)[k] == 1
      ensures Labels(scores, n, th)[k] == 1 <==> Sum(scores[k..k + n]) > th * (n as real)
    {
      assert Labels(scores, n, th)[k] == Label(scores[k..k + n], th);
      MeanVersusThreshold(scores[k..k + n], th);
    }
  }

  /** One step of the window: pop(0) evicts the oldest score, then the new
      score is appended. */
  function Slide(window: seq<real>, x: real): seq<real>
    requires |window| > 0
  {
    window[1..] + [x]
  }

  /** The window the source holds once scores[..i] have been read: the first
      n scores, then one Slide for each later score. Its size stays n. */
  function Replay(scores: seq<real>, n: nat, i: nat): (w: seq<real>)
    requires 1 <= n <= i <= |scores|
    ensures |w| == n
    decreases i
  {
    if i == n then scores[..n] else Slide(Replay(scores, n, i - 1), scores[i - 1])
  }

  /** FIFO eviction: after reading scores[..i] the window is exactly the last
      n scores read. */
  lemma {:induction false} ReplayIsLastN(scores: seq<real>, n: nat, i: nat)
    requires 1 <= n <= i <= |scores|
    ensures Replay(scores, n, i) == scores[i - n..i]
  {
    if i > n {
      ReplayIsLastN(scores, n, i - 1);
      assert scores[i - 1 - n..i - 1][1..] == scores[i - n..i - 1];
      assert scores[i - n..i - 1] + [scores[i - 1]] == scores[i - n..i];
    }
  }

  /** predict_probability: fill the window with the first n scores and
      label it, then for each later score evict the oldest, append the new
      one and label the window again. Fewer than n scores fail where the
      source's index into the score list goes out of range. */
  method PredictProbability(scores: seq<real>, n: nat, th: real) returns (r: Result<seq<int>>)
    requires n >= 1
    ensures r.Failure? <==> |scores| < n
    ensures r.Success? ==> r.value == Labels(scores, n, th)
  {
    var window: seq<real> := [];
    for i := 0 to n
      invariant i <= |scores|
      invariant window == scores[..i]
    {
      if i >= |scores| {
        return Failure(ScoreIndexOutOfRange);
      }
      window := window + [scores[i]];
    }
    var labels: seq<int> := [Label(window, th)];
    ghost var spec := Labels(scores, n, th);
    for i := n to |scores|
      invariant window == Replay(scores, n, i)
      invariant |labels| == i - n + 1
      invariant forall k :: 0 <= k < |labels| ==> labels[k] == spec[k]
    {
      window := window[1..];
      window := window + [scores[i]];
      ReplayIsLastN(scores, n, i + 1);
      labels := labels + [Label(window, th)];
    }
    return Success(labels);
  }

  /** The clip vote of predict_output: 1 iff the mean of the labels is
      strictly above 0.5. The mean of an empty list is NaN there, and a
      comparison with NaN is false, so an empty list votes 0. */
  function Vote(labels: seq<int>): (c: int)
    ensures c == 0 || c == 1
    ensures c == 1 <==> |labels| > 0 && 2 * LabelSum(labels) > |labels|
  {
    if |labels| == 0 then 0
    else
      HalfVersusMean(LabelSum(labels), |labels|);
      if (LabelSum(labels) as real) / (|labels| as real) > 0.5 then 1 else 0
  }

  lemma HalfVersusMean(total: int, m: nat)
    requires m > 0
    ensures (total as real) / (m as real) > 0.5 <==> 2 * total > m
  {
    var t, mr := total as real, m as real;
    var d := t / mr - 0.5;
    assert t == (0.5 + d) * mr;
    assert t - 0.5 * mr == d * mr;
    if d > 0.0 {
      assert d * mr > 0.0;
    } else {
      assert (-d) * mr >= 0.0;
    }
  }

  /** On 0/1 labels the vote is a strict majority of 1s; exactly half the
      labels at 1 votes 0. */
  lemma MajorityVote(labels: seq<int>)
    requires forall k :: 0 <= k < |labels| ==> labels[k] == 0 || labels[k] == 1
    ensures Vote(labels) == 1 <==> 2 * multiset(labels)[1] > |labels|
    ensures 2 * multiset(labels)[1] == |labels| ==> Vote(labels) == 0
  {
    LabelSumCountsOnes(labels);
  }

  /** predict_output: label the clip's scores, then take the majority vote.
      The failure of predict_probability propagates. */
  method PredictOutput(scores: seq<real>, n: nat, th: real) returns (r: Result<int>)
    requires n >= 1
    ensures r.Failure? <==> |scores| < n
    ensures r.Success? ==> r.value == Vote(Labels(scores, n, th))
    ensures r.Success? ==>
      (r.value == 1 <==> 2 * multiset(Labels(scores, n, th))[1] > |scores| - n + 1)
  {
    var labels := PredictProbability(scores, n, th);
    match labels
    case Failure(e) =>
      return Failure(e);
    case Success(ls) =>
      LabelsMeaning(scores, n, th);
      MajorityVote(ls);
      return Success(Vote(ls));
  }

  /** Scores never above the threshold (a constant stream exactly at the
      threshold among them) give only 0 labels and a non-emergency clip. */
  lemma AtMostThresholdIsNonEmergency(scores: seq<real>, n: nat, th: real)
    requires 1 <= n <= |scores|
    requires forall i :: 0 <= i < |scores| ==> scores[i] <= th
    ensures forall k :: 0 <= k < |scores| - n + 1 ==> Labels(scores, n, th)[k] == 0
    ensures Vote(Labels(scores, n, th)) == 0
  {
    LabelsMeaning(scores, n, th);
    forall k | 0 <= k < |scores| - n + 1
      ensures Labels(scores, n, th)[k] == 0
    {
      SumAtMost(scores[k..k + n], th);
    }
    MajorityVote(Labels(scores, n, th));
    assert multiset(Labels(scores, n, th))[1] == 0;
  }

  /** Scores all strictly above the threshold give only 1 labels and an
      emergency clip. */
  lemma AboveThresholdIsEmergency(scores: seq<real>, n: nat, th: real)
    requires 1 <= n <= |scores|
    requires forall i :: 0 <= i < |scores| ==> scores[i] > th
    ensures forall k :: 0 <= k < |scores| - n + 1 ==> Labels(scores, n, th)[k] == 1
    ensures Vote(Labels(scores, n, th)) == 1
  {
    LabelsMeaning(scores, n, th);
    forall k | 0 <= k < |scores| - n + 1
      ensures Labels(scores, n, th)[k] == 1
    {
      SumAbove(scores[k..k + n], th);
    }
    var ls := Labels(scores, n, th);
    assert ls == seq(|ls|, _ => 1);
    AllOnesVote(|ls|);
  }

  lemma {:induction false} AllOnesVote(m: nat)
    requires m >= 1
    ensures LabelSum(seq(m, _ => 1)) == m
    ensures Vote(seq(m, _ => 1)) == 1
  {
    if m > 1 {
      assert seq(m, _ => 1)[1..] == seq(m - 1, _ => 1);
      AllOnesVote(m - 1);
    }
  }

  /** Ten frames at 0.9 followed by ten at 0.1. */
  const FadeOut: seq<real> := seq(10, _ => 0.9) + seq(10, _ => 0.1)

  lemma FadeOutWindowSum(k: nat)
    requires k <= 10
    ensures Sum(FadeOut[k..k + 10]) == 0.9 * ((10 - k) as real) + 0.1 * (k as real)
  {
    var hi, lo := FadeOut[k..10], FadeOut[10..k + 10];
    assert FadeOut[k..k + 10] == hi + lo;
    SumConcat(hi, lo);
    SumConst(hi, 0.9);
    SumConst(lo, 0.1);
  }

  /** With n = 10 and th = 0.5 the FIFO window keeps the label at 1 for the
      first five positions; the sixth window averages exactly 0.5 and is
      labelled 0, and five 1s out of eleven labels give a non-emergency clip. */
  lemma FadeOutScenario()
    ensures Labels(FadeOut, 10, 0.5) == [1, 1, 1, 1, 1, 0, 0, 0, 0, 0, 0]
    ensures Vote(Labels(FadeOut, 10, 0.5)) == 0
  {
    var ls := Labels(FadeOut, 10, 0.5);
    LabelsMeaning(FadeOut, 10, 0.5);
    forall k | 0 <= k <= 10
      ensures ls[k] == if k < 5 then 1 else 0
    {
      FadeOutWindowSum(k);
    }
    assert ls == [1, 1, 1, 1, 1, 0, 0, 0, 0, 0, 0];
    MajorityVote(ls);
    assert multiset(ls)[1] == 5;
  }
}
