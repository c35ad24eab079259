/** The figures both ADC test scripts compute over a run of samples: the basic
    statistics of `calculate_statistics` and the bin counts and bar widths of
    `display_ascii_histogram` (the two scripts carry identical copies of both). */
module AdcStatistics {
  import opened Opt

  // ---- calculate_statistics ----------------------------------------------------

  function SumOf(s: seq<int>): int
  {
    if s == [] then 0 else SumOf(s[..|s| - 1]) + s[|s| - 1]
  }

  /** `min(samples)`. */
  function MinOf(s: seq<int>): (m: int)
    requires s != []
    ensures m in s
    ensures forall i :: 0 <= i < |s| ==> m <= s[i]
  {
    if |s| == 1 then s[0]
    else
      var rest := MinOf(s[..|s| - 1]);
      assert forall i :: 0 <= i < |s| - 1 ==> s[..|s| - 1][i] == s[i];
      if s[|s| - 1] < rest then s[|s| - 1] else rest
  }

  /** `max(samples)`. */
  function MaxOf(s: seq<int>): (m: int)
    requires s != []
    ensures m in s
    ensures forall i :: 0 <= i < |s| ==> s[i] <= m
  {
    if |s| == 1 then s[0]
    else
      var rest := MaxOf(s[..|s| - 1]);
      assert forall i :: 0 <= i < |s| - 1 ==> s[..|s| - 1][i] == s[i];
      if s[|s| - 1] > rest then s[|s| - 1] else rest
  }

  /** `sum((x - mean) ** 2 for x in samples)`. */
  function SquaredDeviations(s: seq<int>, mean: real): (r: real)
    ensures r >= 0.0
  {
    if s == [] then 0.0
    else
      var d := s[|s| - 1] as real - mean;
      assert d * d >= 0.0;
      SquaredDeviations(s[..|s| - 1], mean) + d * d
  }

  /** The statistics the scripts keep: count, mean, minimum, maximum, range and
      population variance. */
  datatype Stats = Stats(count: nat, mean: real, min: int, max: int, range: int, variance: real)

  /** `calculate_statistics`: nothing for no samples (the empty dictionary). */
  function Statistics(samples: seq<int>): (r: Option<Stats>)
    ensures r.None? <==> samples == []
  {
    if samples == [] then None
    else
      var count := |samples|;
      var mean := SumOf(samples) as real / count as real;
      var lo := MinOf(samples);
      var hi := MaxOf(samples);
      Some(Stats(count, mean, lo, hi, hi - lo,
                 SquaredDeviations(samples, mean) / count as real))
  }

  lemma {:induction false} SumBounds(s: seq<int>, lo: int, hi: int)
    requires forall i :: 0 <= i < |s| ==> lo <= s[i] <= hi
    ensures lo * |s| <= SumOf(s) <= hi * |s|
  {
    if s != [] {
      var init := s[..|s| - 1];
      assert forall i :: 0 <= i < |init| ==> init[i] == s[i];
      SumBounds(init, lo, hi);
      assert lo * |s| == lo * |init| + lo;
      assert hi * |s| == hi * |init| + hi;
    }
  }

  lemma MeanBetween(sum: int, n: int, lo: int, hi: int)
    requires n > 0 && lo * n <= sum <= hi * n
    ensures lo as real <= sum as real / n as real <= hi as real
  {
    var m := sum as real / n as real;
    assert m * n as real == sum as real;
    assert (lo * n) as real == lo as real * n as real;
    assert (hi * n) as real == hi as real * n as real;
    assert (m - lo as real) * n as real >= 0.0;
    assert (hi as real - m) * n as real >= 0.0;
  }

  /** For a non-empty run: the count is the number of samples, the mean lies between the
      minimum and the maximum, both of which are samples bounding all others, the range
      is their difference and is never negative, and the variance is never negative. */
  lemma StatisticsBounds(samples: seq<int>)
    requires samples != []
    ensures Statistics(samples).Some?
    ensures var st := Statistics(samples).value;
      st.count == |samples|
      && st.min as real <= st.mean <= st.max as real
      && st.min in samples && st.max in samples
      && (forall i :: 0 <= i < |samples| ==> st.min <= samples[i] <= st.max)
      && st.range == st.max - st.min && st.range >= 0
      && st.variance >= 0.0
  {
    var lo := MinOf(samples);
    var hi := MaxOf(samples);
    SumBounds(samples, lo, hi);
    MeanBetween(SumOf(samples), |samples|, lo, hi);
  }

  lemma MulAtLeastOne(k: int, d: int)
    requires k >= 1 && d > 0
    ensures k * d >= d
  {
  }

  lemma MulAtMostMinusOne(k: int, d: int)
    requires k <= -1 && d > 0
    ensures k * d <= -d
  {
  }

  lemma DivExact(a: int, d: int)
    requires d > 0
    ensures (a * d) / d == a
  {
    var q := (a * d) / d;
    var r := (a * d) % d;
    var k := a - q;
    assert k * d == r;
    if k >= 1 {
      MulAtLeastOne(k, d);
    } else if k <= -1 {
      MulAtMostMinusOne(k, d);
    }
  }

  // ---- display_ascii_histogram: the bin counts --------------------------------

  /** `min(bins - 1, int((sample - min_val) / bin_width))` with
      `bin_width = (max_val - min_val) / bins`, in exact arithmetic. */
  function BinIndex(sample: int, lo: int, hi: int, bins: nat): (b: nat)
    requires lo <= sample <= hi && lo < hi && bins > 0
    ensures b < bins
  {
    var offset: nat := sample - lo;
    var scaled: nat := offset * bins;
    var q := scaled / (hi - lo);
    if q < bins - 1 then q else bins - 1
  }

  /** A sample lands in the bin whose printed range `[lo + b*w, lo + (b+1)*w)` holds it,
      the last bin also taking its upper end, with `w = (hi - lo) / bins`. */
  lemma BinIndexRange(sample: int, lo: int, hi: int, bins: nat)
    requires lo <= sample <= hi && lo < hi && bins > 0
    ensures var b := BinIndex(sample, lo, hi, bins);
      b * (hi - lo) <= (sample - lo) * bins
      && (b < bins - 1 ==> (sample - lo) * bins < (b + 1) * (hi - lo))
  {
    var d := hi - lo;
    var x := (sample - lo) * bins;
    var q := x / d;
    assert x == q * d + x % d;
    var b := BinIndex(sample, lo, hi, bins);
    if q >= bins - 1 {
      assert b * d <= q * d;
    }
  }

  /** The clamp at work: the minimum goes to the first bin and the maximum to the last. */
  lemma BinIndexEnds(lo: int, hi: int, bins: nat)
    requires lo < hi && bins > 0
    ensures BinIndex(lo, lo, hi, bins) == 0
    ensures BinIndex(hi, lo, hi, bins) == bins - 1
  {
    DivExact(bins, hi - lo);
    assert (hi - lo) * bins == bins * (hi - lo);
  }

  predicate InRange(s: seq<int>, lo: int, hi: int)
  {
    forall i :: 0 <= i < |s| ==> lo <= s[i] <= hi
  }

  /** `bin_counts` after the counting loop has taken the samples `s`. */
  function Tally(s: seq<int>, lo: int, hi: int, bins: nat): (c: seq<nat>)
    requires lo < hi && bins > 0 && InRange(s, lo, hi)
    ensures |c| == bins
  {
    if s == [] then seq(bins, _ => 0)
    else
      assert InRange(s[..|s| - 1], lo, hi) by {
        assert forall i :: 0 <= i < |s| - 1 ==> s[..|s| - 1][i] == s[i];
      }
      var c := Tally(s[..|s| - 1], lo, hi, bins);
      var b := BinIndex(s[|s| - 1], lo, hi, bins);
      c[b := c[b] + 1]
  }

  function SumCounts(c: seq<nat>): nat
  {
    if c == [] then 0 else SumCounts(c[..|c| - 1]) + c[|c| - 1]
  }

  lemma {:induction false} SumCountsZero(n: nat)
    ensures SumCounts(seq(n, _ => 0)) == 0
  {
    if n > 0 {
      assert seq(n, _ => 0)[..n - 1] == seq(n - 1, _ => 0);
      SumCountsZero(n - 1);
    }
  }

  lemma {:induction false} SumCountsIncrement(c: seq<nat>, b: nat)
    requires b < |c|
    ensures SumCounts(c[b := c[b] + 1]) == SumCounts(c) + 1
  {
    var d := c[b := c[b] + 1];
    if b == |c| - 1 {
      assert d[..|d| - 1] == c[..|c| - 1];
    } else {
      assert d[..|d| - 1] == c[..|c| - 1][b := c[b] + 1];
      SumCountsIncrement(c[..|c| - 1], b);
    }
  }

  /** Count conservation: every sample is counted in exactly one bin. */
  lemma {:induction false} TallyTotal(s: seq<int>, lo: int, hi: int, bins: nat)
    requires lo < hi && bins > 0 && InRange(s, lo, hi)
    ensures SumCounts(Tally(s, lo, hi, bins)) == |s|
  {
    if s == [] {
      SumCountsZero(bins);
    } else {
      assert InRange(s[..|s| - 1], lo, hi) by {
        assert forall i :: 0 <= i < |s| - 1 ==> s[..|s| - 1][i] == s[i];
      }
      TallyTotal(s[..|s| - 1], lo, hi, bins);
      SumCountsIncrement(Tally(s[..|s| - 1], lo, hi, bins), BinIndex(s[|s| - 1], lo, hi, bins));
    }
  }

  /** Every sample's bin is counted at least once. */
  lemma {:induction false} TallyHits(s: seq<int>, lo: int, hi: int, bins: nat, i: nat)
    requires lo < hi && bins > 0 && InRange(s, lo, hi) && i < |s|
    ensures Tally(s, lo, hi, bins)[BinIndex(s[i], lo, hi, bins)] > 0
  {
    var init := s[..|s| - 1];
    assert InRange(init, lo, hi) by {
      assert forall k :: 0 <= k < |init| ==> init[k] == s[k];
    }
    if i < |s| - 1 {
      assert init[i] == s[i];
      TallyHits(init, lo, hi, bins, i);
    }
  }

  /** The counting loop of `display_ascii_histogram`: nothing when there are no samples
      or all are equal (no histogram is possible), else `bin_counts` over the range from
      the smallest to the largest sample. */
  method BinCounts(samples: seq<int>, bins: nat) returns (counts: Option<seq<nat>>)
    requires bins > 0
    ensures samples == [] ==> counts.None?
    ensures samples != [] && MinOf(samples) == MaxOf(samples) ==> counts.None?
    ensures samples != [] && MinOf(samples) < MaxOf(samples) ==>
      counts == Some(Tally(samples, MinOf(samples), MaxOf(samples), bins))
  {
    if samples == [] {
      return None;
    }
    var lo := MinOf(samples);
    var hi := MaxOf(samples);
    if lo == hi {
      return None;
    }
    var binCounts := new nat[bins](_ => 0);
    assert binCounts[..] == Tally(samples[..0], lo, hi, bins);
    for k := 0 to |samples|
      invariant InRange(samples[..k], lo, hi)
      invariant binCounts[..] == Tally(samples[..k], lo, hi, bins)
    {
      var b := BinIndex(samples[k], lo, hi, bins);
      binCounts[b] := binCounts[b] + 1;
      assert samples[..k + 1][..k] == samples[..k];
    }
    assert samples[..|samples|] == samples;
    return Some(binCounts[..]);
  }

  /** The histogram the counting loop produces: one count per bin, all samples counted,
      the smallest sample in the first bin and the largest in the last. */
  lemma HistogramShape(samples: seq<int>, bins: nat)
    requires bins > 0 && samples != [] && MinOf(samples) < MaxOf(samples)
    ensures var lo := MinOf(samples); var hi := MaxOf(samples);
      var c := Tally(samples, lo, hi, bins);
      |c| == bins && SumCounts(c) == |samples| && c[0] > 0 && c[bins - 1] > 0
  {
    var lo := MinOf(samples);
    var hi := MaxOf(samples);
    TallyTotal(samples, lo, hi, bins);
    BinIndexEnds(lo, hi, bins);
    var i :| 0 <= i < |samples| && samples[i] == lo;
    var j :| 0 <= j < |samples| && samples[j] == hi;
    TallyHits(samples, lo, hi, bins, i);
    TallyHits(samples, lo, hi, bins, j);
  }

  // ---- display_ascii_histogram: the bars ---------------------------------------

  const MAX_WIDTH: nat := 50

  lemma ScaledBelowFull(count: nat, maxCount: nat)
    requires 0 < maxCount && count <= maxCount
    ensures (count * MAX_WIDTH) / maxCount <= MAX_WIDTH
  {
    var w := (count * MAX_WIDTH) / maxCount;
    assert w * maxCount <= count * MAX_WIDTH <= MAX_WIDTH * maxCount;
    if w > MAX_WIDTH {
      MulAtLeastOne(w - MAX_WIDTH, maxCount);
    }
  }

  /** `int((count / max_count) * max_width)`, and 0 when `max_count` is 0: a count no
      larger than the largest fits the 50 columns, the largest gets all of them and an
      empty bin none. */
  function BarWidth(count: nat, maxCount: nat): (w: nat)
    ensures count <= maxCount ==> w <= MAX_WIDTH
    ensures count == maxCount && maxCount > 0 ==> w == MAX_WIDTH
    ensures count == 0 ==> w == 0
  {
    if maxCount > 0 then
      if count <= maxCount then
        ScaledBelowFull(count, maxCount);
        DivExact(MAX_WIDTH, maxCount);
        (count * MAX_WIDTH) / maxCount
      else (count * MAX_WIDTH) / maxCount
    else 0
  }

  /** The widths of all bars: each fits the 50 columns and a fullest bin gets the
      full width. */
  function BarWidths(c: seq<nat>): (r: seq<nat>)
    requires c != []
    ensures |r| == |c|
    ensures forall i :: 0 <= i < |r| ==> r[i] <= MAX_WIDTH
    ensures forall i :: 0 <= i < |r| && c[i] == MaxOf(c) && c[i] > 0 ==> r[i] == MAX_WIDTH
    ensures forall i :: 0 <= i < |r| && c[i] == 0 ==> r[i] == 0
  {
    // `max(bin_counts)`: one of the counts, so not negative.
    var m: nat := MaxOf(c);
    seq(|c|, i requires 0 <= i < |c| => BarWidth(c[i], m))
  }
}
