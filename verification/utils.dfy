/**
  The risk score of a hospital stay: a length of stay in days is rounded up to
  whole days and mapped to an ordinal risk category by a fixed ladder of
  day-count thresholds: 1 very low, 2 low, 3 normal, 4 elevated, 5 high risk.
 */
module Utils {
  import opened Rounding

  /**
    The day-count thresholds of the ladder, lowest first. A rounded stay
    strictly above the i-th threshold is at least in category i + 2.
   */
  const Thresholds: seq<int> := [6, 10, 13, 15]

  predicate Ascending(ts: seq<int>) {
    forall i, j :: 0 <= i < j < |ts| ==> ts[i] < ts[j]
  }

  /** How many of the thresholds `ts` the day count `days` lies strictly above. */
  function Exceeded(days: int, ts: seq<int>): (n: nat)
    ensures n <= |ts|
    ensures n == |ts| <==> forall i :: 0 <= i < |ts| ==> days > ts[i]
    ensures n == 0 <==> forall i :: 0 <= i < |ts| ==> days <= ts[i]
  {
    if ts == [] then 0
    else
      var rest := Exceeded(days, ts[1..]);
      assert forall i :: 1 <= i < |ts| ==> ts[i] == ts[1..][i - 1];
      (if days > ts[0] then 1 else 0) + rest
  }

  /**
    The if/elif ladder applied to a rounded day count, checked from the top
    threshold down; the first test that holds decides the category.
   */
  function Category(days: int): (r: int)
    ensures 1 <= r <= 5
  {
    if days > 15 then 5
    else if days > 13 then 4
    else if days > 10 then 3
    else if days > 6 then 2
    else 1
  }

  /**
    The risk score of a length of stay `los` in days: round up to whole days,
    then apply the ladder. Because of the rounding, each boundary of the
    ladder is a strict comparison on the raw length of stay.
   */
  function RiskScore(los: real): (r: int)
    ensures 1 <= r <= 5
    ensures r == 5 <==> los > 15.0
    ensures r >= 4 <==> los > 13.0
    ensures r >= 3 <==> los > 10.0
    ensures r >= 2 <==> los > 6.0
  {
    CeilGreaterIff(los, 15);
    CeilGreaterIff(los, 13);
    CeilGreaterIff(los, 10);
    CeilGreaterIff(los, 6);
    Category(Ceil(los))
  }

  /** Above the i-th of an ascending list of thresholds means above every earlier one too. */
  lemma {:induction false} ExceededAtLeast(days: int, ts: seq<int>, k: nat)
    requires Ascending(ts)
    requires 1 <= k <= |ts|
    ensures Exceeded(days, ts) >= k <==> days > ts[k - 1]
  {
    var rest := ts[1..];
    assert Ascending(rest) by {
      forall i, j | 0 <= i < j < |rest| ensures rest[i] < rest[j] {
        assert rest[i] == ts[i + 1] && rest[j] == ts[j + 1];
      }
    }
    if days > ts[0] {
      if k > 1 {
        ExceededAtLeast(days, rest, k - 1);
        assert rest[k - 2] == ts[k - 1];
      }
    } else {
      assert forall i :: 0 <= i < |rest| ==> days <= rest[i] by {
        forall i | 0 <= i < |rest| ensures days <= rest[i] {
          assert rest[i] == ts[i + 1];
        }
      }
      assert Exceeded(days, rest) == 0;
      if k > 1 {
        assert ts[0] < ts[k - 1];
      }
    }
  }

  /** Exceeding more thresholds never happens for a smaller day count. */
  lemma {:induction false} ExceededMonotone(a: int, b: int, ts: seq<int>)
    requires a <= b
    ensures Exceeded(a, ts) <= Exceeded(b, ts)
  {
    if ts != [] {
      ExceededMonotone(a, b, ts[1..]);
    }
  }

  /**
    The ladder agrees with its reference definition: the category is one
    more than the number of thresholds the rounded stay lies strictly above.
   */
  lemma CategoryCountsThresholds(days: int)
    ensures Category(days) == 1 + Exceeded(days, Thresholds)
  {
    assert Ascending(Thresholds);
    ExceededAtLeast(days, Thresholds, 1);
    ExceededAtLeast(days, Thresholds, 2);
    ExceededAtLeast(days, Thresholds, 3);
    ExceededAtLeast(days, Thresholds, 4);
  }

  /** The bands of the ladder on the rounded day count, each in both directions. */
  lemma CategoryBands(days: int)
    ensures Category(days) == 1 <==> days <= 6
    ensures Category(days) == 2 <==> 7 <= days <= 10
    ensures Category(days) == 3 <==> 11 <= days <= 13
    ensures Category(days) == 4 <==> 14 <= days <= 15
    ensures Category(days) == 5 <==> days >= 16
  {
    CategoryCountsThresholds(days);
    assert Ascending(Thresholds);
    ExceededAtLeast(days, Thresholds, 1);
    ExceededAtLeast(days, Thresholds, 2);
    ExceededAtLeast(days, Thresholds, 3);
    ExceededAtLeast(days, Thresholds, 4);
  }

  /** The ladder never assigns a lower category to a longer rounded stay. */
  lemma CategoryMonotone(a: int, b: int)
    requires a <= b
    ensures Category(a) <= Category(b)
  {
    CategoryCountsThresholds(a);
    CategoryCountsThresholds(b);
    ExceededMonotone(a, b, Thresholds);
  }

  /** A longer stay never has a lower risk score. */
  lemma RiskScoreMonotone(a: real, b: real)
    requires a <= b
    ensures RiskScore(a) <= RiskScore(b)
  {
    CeilMonotone(a, b);
    CategoryMonotone(Ceil(a), Ceil(b));
  }

  /** The score depends on the stay only through its rounded-up day count. */
  lemma RiskScoreOfRoundedStay(los: real)
    ensures RiskScore(los) == RiskScore(Ceil(los) as real)
  {
    CeilOfInt(Ceil(los));
  }

  /** Two stays that round up to the same day count get the same score. */
  lemma SameRoundingSameScore(a: real, b: real)
    requires Ceil(a) == Ceil(b)
    ensures RiskScore(a) == RiskScore(b)
  {
    RiskScoreOfRoundedStay(a);
    RiskScoreOfRoundedStay(b);
  }

  /**
    Any part of a day beyond `n` whole days counts as a further day: the stay
    is scored as `n + 1` days.
   */
  lemma PartialDayCountsAsWholeDay(n: int, f: real)
    requires 0.0 < f <= 1.0
    ensures RiskScore(n as real + f) == Category(n + 1)
  {
    CeilPartialDay(n, f);
  }

  /**
    Zero and negative stays are not rejected: they fall through to the lowest
    category. A named corollary of the last threshold clause of `RiskScore`.
   */
  lemma NonPositiveStayIsVeryLowRisk(los: real)
    requires los <= 0.0
    ensures RiskScore(los) == 1
  {
  }

  /**
    The top category has no upper bound: every stay over 15 days scores 5,
    however long. A named corollary of the first threshold clause of `RiskScore`.
   */
  lemma LongStayIsHighRisk(los: real)
    requires los > 15.0
    ensures RiskScore(los) == 5
  {
  }

  /** Partial days tip a stay over a boundary: whole-day boundaries and the stays just above them. */
  lemma BoundaryExamples()
    ensures RiskScore(6.0) == 1 && RiskScore(6.1) == 2 && RiskScore(6.9) == 2
    ensures RiskScore(10.0) == 2 && RiskScore(10.01) == 3
    ensures RiskScore(13.0) == 3 && RiskScore(13.01) == 4
    ensures RiskScore(15.0) == 4 && RiskScore(15.01) == 5
    ensures RiskScore(0.0) == 1 && RiskScore(100.0) == 5
  {
  }

  /** The scores of a run of stays across every band, from zero days to 250. */
  lemma BandsScenario()
    ensures var stays := [0.0, 6.0, 6.5, 7.0, 10.0, 10.5, 11.0, 13.0, 13.5, 14.0, 15.0, 15.5, 16.0, 250.0];
            seq(|stays|, i requires 0 <= i < |stays| => RiskScore(stays[i]))
              == [1, 1, 2, 2, 2, 3, 3, 3, 4, 4, 4, 5, 5, 5]
  {
  }
}
