/** Exact arithmetic over score windows and label lists: the sums and means
    the smoother and the clip vote compare against their thresholds. */
module WindowStats {

  /** Sum of a window of per-frame scores. */
  function Sum(s: seq<real>): real
  {
    if |s| == 0 then 0.0 else s[0] + Sum(s[1..])
  }

  /** Arithmetic mean of a non-empty window (the role of np.mean). */
  function Mean(s: seq<real>): real
    requires |s| > 0
  {
    Sum(s) / (|s| as real)
  }

  /** Sum of a list of integer labels. */
  function LabelSum(s: seq<int>): int
  {
    if |s| == 0 then 0 else s[0] + LabelSum(s[1..])
  }

  /** Comparing a mean with a threshold is comparing the sum with
      threshold times length, so no division is needed. */
  lemma MeanVersusThreshold(s: seq<real>, th: real)
    requires |s| > 0
    ensures Mean(s) > th <==> Sum(s) > th * (|s| as real)
    ensures Mean(s) == th <==> Sum(s) == th * (|s| as real)
  {
    var m := |s| as real;
    assert Mean(s) * m == Sum(s);
    if Mean(s) > th {
      assert Mean(s) * m > th * m;
    } else if Mean(s) < th {
      assert Mean(s) * m < th * m;
    }
  }

  lemma {:induction false} SumConcat(a: seq<real>, b: seq<real>)
    ensures Sum(a + b) == Sum(a) + Sum(b)
  {
    if |a| > 0 {
      assert (a + b)[1..] == a[1..] + b;
      SumConcat(a[1..], b);
    } else {
      assert a + b == b;
    }
  }

  lemma {:induction false} SumConst(s: seq<real>, c: real)
    requires forall i :: 0 <= i < |s| ==> s[i] == c
    ensures Sum(s) == c * (|s| as real)
  {
    if |s| > 0 {
      SumConst(s[1..], c);
    }
  }

  /** Every score at most c: the sum is at most c per score. */
  lemma {:induction false} SumAtMost(s: seq<real>, c: real)
    requires forall i :: 0 <= i < |s| ==> s[i] <= c
    ensures Sum(s) <= c * (|s| as real)
  {
    if |s| > 0 {
      SumAtMost(s[1..], c);
    }
  }

  /** Every score strictly above c in a non-empty window: the sum is
      strictly above c per score. */
  lemma {:induction false} SumAbove(s: seq<real>, c: real)
    requires |s| > 0
    requires forall i :: 0 <= i < |s| ==> s[i] > c
    ensures Sum(s) > c * (|s| as real)
  {
    if |s| > 1 {
      SumAbove(s[1..], c);
    }
  }

  /** For a list of 0/1 labels the label sum is the number of 1s. */
  lemma {:induction false} LabelSumCountsOnes(s: seq<int>)
    requires forall k :: 0 <= k < |s| ==> s[k] == 0 || s[k] == 1
    ensures LabelSum(s) == multiset(s)[1]
  {
    if |s| > 0 {
      assert s == [s[0]] + s[1..];
      assert multiset(s) == multiset{s[0]} + multiset(s[1..]);
      LabelSumCountsOnes(s[1..]);
    }
  }
}
