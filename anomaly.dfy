/**
 * The amount-anomaly score of `invoice_guard/ml/anomaly.py`: the z-score of
 * an amount against the vendor's running mean and standard deviation,
 * mapped to a score in [0, 1] and a HIGH / MEDIUM / LOW level.
 */
module Anomaly {
  import opened Wrappers

  /** The vendor statistics the store keeps: count, mean and standard deviation. */
  datatype VendorStats = VendorStats(n: int, mean: real, std: real)

  datatype Level = High | Medium | Low | Unknown

  /** What the `reason` text reports; its wording is not modelled. */
  datatype Explanation =
    | NoAmountOrStats
    | InsufficientHistory(n: int)
    | ZScoreOf(z: real, mean: real, std: real, n: int)

  datatype AnomalyVerdict = AnomalyVerdict(score: real, level: Level, reason: Explanation)

  function Abs(x: real): (r: real)
    ensures r >= 0.0 && (r == x || r == -x)
  {
    if x < 0.0 then -x else x
  }

  /** The statistics are usable: at least two amounts and a non-zero deviation. */
  predicate Usable(stats: VendorStats) {
    stats.n >= 2 && stats.std != 0.0
  }

  /** `abs((amount - mean) / std)`. */
  function ZScore(amount: real, stats: VendorStats): real
    requires stats.std != 0.0
  {
    Abs((amount - stats.mean) / stats.std)
  }

  function LevelOf(z: real): Level {
    if z >= 4.0 then High else if z >= 2.5 then Medium else Low
  }

  /** `amount_anomaly_score`. */
  function AmountAnomalyScore(amount: Option<real>, stats: Option<VendorStats>): (r: AnomalyVerdict)
    ensures amount.None? || stats.None? ==> r == AnomalyVerdict(0.0, Unknown, NoAmountOrStats)
    ensures amount.Some? && stats.Some? && !Usable(stats.value)
            ==> r == AnomalyVerdict(0.0, Unknown, InsufficientHistory(stats.value.n))
    ensures r.level == Unknown <==> amount.None? || stats.None? || !Usable(stats.value)
    ensures 0.0 <= r.score <= 1.0
  {
    if amount.None? || stats.None? then AnomalyVerdict(0.0, Unknown, NoAmountOrStats)
    else
      var s := stats.value;
      if s.n < 2 || s.std == 0.0 then AnomalyVerdict(0.0, Unknown, InsufficientHistory(s.n))
      else
        var z := ZScore(amount.value, s);
        var score := if 1.0 <= z / 6.0 then 1.0 else z / 6.0;
        AnomalyVerdict(score, LevelOf(z), ZScoreOf(z, s.mean, s.std, s.n))
  }

  // ---------------------------------------------------------------- properties

  /** The z-score is the distance from the mean in units of the deviation's size. */
  lemma ZScoreIsScaledDistance(amount: real, stats: VendorStats)
    requires stats.std != 0.0
    ensures ZScore(amount, stats) * Abs(stats.std) == Abs(amount - stats.mean)
  {
    var d, s := amount - stats.mean, stats.std;
    assert (d / s) * s == d;
    if s < 0.0 {
      assert Abs(d / s) * Abs(s) == (if d / s < 0.0 then -(d / s) else d / s) * -s;
    }
  }

  /** The z-score is the distance from the mean divided by the deviation's size. */
  lemma ZScoreIsQuotient(amount: real, stats: VendorStats)
    requires stats.std != 0.0
    ensures ZScore(amount, stats) == Abs(amount - stats.mean) / Abs(stats.std)
  {
    var z, d, s := ZScore(amount, stats), Abs(amount - stats.mean), Abs(stats.std);
    ZScoreIsScaledDistance(amount, stats);
    assert z * s == d;
  }

  /** Dividing by a positive number keeps the order. */
  lemma DivMonotone(x: real, y: real, c: real)
    requires c > 0.0 && x <= y
    ensures x / c <= y / c
  {
    assert (x / c) * c == x && (y / c) * c == y;
  }

  /** For positive `c`, `x / c >= k` exactly when `x >= k * c`. */
  lemma DivAtLeast(x: real, c: real, k: real)
    requires c > 0.0
    ensures x / c >= k <==> x >= k * c
  {
    assert (x / c) * c == x;
    if x / c >= k {
      assert (x / c) * c >= k * c;
    } else {
      assert (x / c) * c < k * c;
    }
  }

  /**
   * With usable statistics the level compares the distance from the mean with
   * the deviation's size: HIGH from 4 deviations, MEDIUM from 2.5, LOW below;
   * the score reaches 1 from 6 deviations.
   */
  lemma AnomalyLevelIff(amount: real, stats: VendorStats)
    requires Usable(stats)
    ensures var r := AmountAnomalyScore(Some(amount), Some(stats));
            var d, s := Abs(amount - stats.mean), Abs(stats.std);
            && (r.level == High <==> d >= 4.0 * s)
            && (r.level == Medium <==> 2.5 * s <= d < 4.0 * s)
            && (r.level == Low <==> d < 2.5 * s)
            && (r.score == 1.0 <==> d >= 6.0 * s)
  {
    var z := ZScore(amount, stats);
    var d, s := Abs(amount - stats.mean), Abs(stats.std);
    ZScoreIsQuotient(amount, stats);
    DivAtLeast(d, s, 4.0);
    DivAtLeast(d, s, 2.5);
    DivAtLeast(d, s, 6.0);
    assert z / 6.0 >= 1.0 <==> z >= 6.0;
  }

  /** Amounts the same distance above and below the mean get the same verdict. */
  lemma AnomalySymmetric(d: real, stats: VendorStats)
    ensures AmountAnomalyScore(Some(stats.mean + d), Some(stats)) == AmountAnomalyScore(Some(stats.mean - d), Some(stats))
  {
    if Usable(stats) {
      var s := stats.std;
      assert (stats.mean + d) - stats.mean == d && (stats.mean - d) - stats.mean == -d;
      assert (-d) / s == -(d / s);
    }
  }

  function LevelRank(l: Level): int {
    match l
    case Unknown => 0
    case Low => 1
    case Medium => 2
    case High => 3
  }

  /** Further from the mean never means a lower score or a lower level. */
  lemma AnomalyMonotone(a1: real, a2: real, stats: VendorStats)
    requires Abs(a1 - stats.mean) <= Abs(a2 - stats.mean)
    ensures var r1, r2 := AmountAnomalyScore(Some(a1), Some(stats)), AmountAnomalyScore(Some(a2), Some(stats));
            r1.score <= r2.score && LevelRank(r1.level) <= LevelRank(r2.level)
  {
    if Usable(stats) {
      ZScoreIsQuotient(a1, stats);
      ZScoreIsQuotient(a2, stats);
      DivMonotone(Abs(a1 - stats.mean), Abs(a2 - stats.mean), Abs(stats.std));
    }
  }
}
