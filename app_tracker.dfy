/** The host-side tracking loop: each iteration takes one reading from the scale,
    smooths it with a rolling median, starts, continues or stops a tracking session
    against a weight threshold, a cool-down and an optional duration, and emits the
    current figures to the browser at most every 25 ms. */
module TrackerApp {

  const WEIGHTS_MAXLEN: nat := 100
  const RAW_WEIGHTS_MAXLEN: nat := 1000
  const WINDOW_SIZE: nat := 3
  const EMIT_INTERVAL: real := 0.025
  /** Seconds after a session's auto-stop before a new one may start. */
  const COOL_DOWN: real := 2.0
  const DEFAULT_MIN_WEIGHT: real := 500.0

  // ---- Bounded deques --------------------------------------------------------

  /** `deque.append` on a deque with `maxlen`: the oldest entry drops out when full. */
  function DequePush<T>(d: seq<T>, x: T, maxlen: nat): (r: seq<T>)
    requires maxlen > 0
    ensures |r| == if |d| < maxlen then |d| + 1 else maxlen
    ensures r[|r| - 1] == x
    ensures |d| <= maxlen ==> r[..|r| - 1] == d[|d| + 1 - |r|..]
  {
    if |d| < maxlen then d + [x] else d[|d| - maxlen + 1..] + [x]
  }

  /** The last `n` entries (all of them when there are fewer). */
  function LastN<T>(s: seq<T>, n: nat): (r: seq<T>)
    ensures |r| == if |s| < n then |s| else n
    ensures r == s[|s| - |r|..]
  {
    if |s| <= n then s else s[|s| - n..]
  }

  /** Pushing onto a deque keeps exactly the last `maxlen` of everything pushed. */
  lemma {:induction false} DequePushKeepsLast<T>(all: seq<T>, x: T, maxlen: nat)
    requires maxlen > 0
    ensures DequePush(LastN(all, maxlen), x, maxlen) == LastN(all + [x], maxlen)
  {
    if |all| < maxlen {
      assert LastN(all, maxlen) == all;
      assert LastN(all + [x], maxlen) == all + [x];
    } else {
      var k := |all| - maxlen;
      var d := all[k..];
      assert LastN(all, maxlen) == d;
      assert d[|d| - maxlen + 1..] == all[k + 1..];
      assert LastN(all + [x], maxlen) == (all + [x])[k + 1..];
      assert (all + [x])[k + 1..] == all[k + 1..] + [x];
    }
  }

  // ---- Rolling median -------------------------------------------------------

  /** Each value is at least its predecessor. */
  predicate Sorted(s: seq<real>)
  {
    forall i :: 0 < i < |s| ==> s[i - 1] <= s[i]
  }

  lemma SortedCons(h: real, t: seq<real>)
    requires Sorted(t) && (t == [] || h <= t[0])
    ensures Sorted([h] + t)
  {
    var r := [h] + t;
    forall i | 0 < i < |r|
      ensures r[i - 1] <= r[i]
    {
      if i > 1 {
        assert r[i - 1] == t[i - 2] && r[i] == t[i - 1];
      }
    }
  }

  lemma SortedTail(s: seq<real>)
    requires Sorted(s) && s != []
    ensures Sorted(s[1..]) && s == [s[0]] + s[1..]
    ensures s[1..] == [] || s[0] <= s[1..][0]
  {
    var tail := s[1..];
    forall i | 0 < i < |tail|
      ensures tail[i - 1] <= tail[i]
    {
      assert tail[i - 1] == s[i] && tail[i] == s[i + 1];
    }
  }

  function Insert(x: real, s: seq<real>): (r: seq<real>)
    requires Sorted(s)
    ensures Sorted(r)
    ensures |r| == |s| + 1
    ensures r[0] == x || (s != [] && r[0] == s[0])
  {
    if s == [] || x <= s[0] then
      SortedCons(x, s);
      [x] + s
    else
      var tail := s[1..];
      SortedTail(s);
      var rest := Insert(x, tail);
      SortedCons(s[0], rest);
      [s[0]] + rest
  }

  lemma {:induction false} InsertPermutes(x: real, s: seq<real>)
    requires Sorted(s)
    ensures multiset(Insert(x, s)) == multiset(s) + multiset{x}
  {
    if s == [] || x <= s[0] {
      assert Insert(x, s) == [x] + s;
    } else {
      SortedTail(s);
      InsertPermutes(x, s[1..]);
      assert Insert(x, s) == [s[0]] + Insert(x, s[1..]);
    }
  }

  /** The sorted copy `np.median` works on. */
  function Sort(s: seq<real>): (r: seq<real>)
    ensures Sorted(r) && multiset(r) == multiset(s)
    ensures |r| == |s|
  {
    if s == [] then []
    else
      assert s == [s[0]] + s[1..];
      InsertPermutes(s[0], Sort(s[1..]));
      Insert(s[0], Sort(s[1..]))
  }

  /** `np.median`: the middle entry of the sorted values, or the mean of the two
      middle entries for an even count. */
  function Median(w: seq<real>): (m: real)
    requires |w| > 0
  {
    var s := Sort(w);
    var k := |s| / 2;
    if |s| % 2 == 1 then s[k] else (s[k - 1] + s[k]) / 2.0
  }

  /** The median lies between two of the values, so between their minimum and
      maximum, and for an odd count it is one of them. */
  lemma {:induction false} MedianBounds(w: seq<real>)
    requires |w| > 0
    ensures exists i, j :: 0 <= i < |w| && 0 <= j < |w| && w[i] <= Median(w) <= w[j]
    ensures |w| % 2 == 1 ==> Median(w) in w
  {
    var s := Sort(w);
    var k := |s| / 2;
    assert s[k] in multiset(w);
    if |s| % 2 == 1 {
      assert s[k] in w;
      var i :| 0 <= i < |w| && w[i] == s[k];
      assert w[i] <= Median(w) <= w[i];
    } else {
      assert s[k - 1] in multiset(w);
      assert s[k - 1] in w && s[k] in w;
      var i :| 0 <= i < |w| && w[i] == s[k - 1];
      var j :| 0 <= j < |w| && w[j] == s[k];
      assert s[k - 1] <= s[k];
      assert w[i] <= Median(w) <= w[j];
    }
  }

  /** `rolling_median_filter`: the newest value while fewer than `windowSize` are held,
      else the median of the newest `windowSize` (of all of them for a window of 0,
      as `data[-0:]` is the whole list). */
  function RollingMedian(data: seq<real>, windowSize: nat): (r: real)
    requires |data| > 0
  {
    if |data| < windowSize then data[|data| - 1]
    else if windowSize == 0 then Median(data)
    else Median(data[|data| - windowSize..])
  }

  /** With fewer than three values the filter passes the newest through; with three or
      more it returns one of the newest three, lying between their minimum and maximum. */
  lemma {:induction false} RollingMedianOfThree(data: seq<real>)
    requires |data| > 0
    ensures |data| < WINDOW_SIZE ==> RollingMedian(data, WINDOW_SIZE) == data[|data| - 1]
    ensures |data| >= WINDOW_SIZE ==>
      var w := data[|data| - WINDOW_SIZE..];
      RollingMedian(data, WINDOW_SIZE) in w
      && exists i, j :: 0 <= i < |w| && 0 <= j < |w| && w[i] <= RollingMedian(data, WINDOW_SIZE) <= w[j]
  {
    if |data| >= WINDOW_SIZE {
      MedianBounds(data[|data| - WINDOW_SIZE..]);
    }
  }

  // ---- Session figures ------------------------------------------------------

  function Sum(ws: seq<real>): real
  {
    if ws == [] then 0.0 else Sum(ws[..|ws| - 1]) + ws[|ws| - 1]
  }

  /** The peak of a session: the largest smoothed value accepted, and 0 before any. */
  function PeakOf(smoothed: seq<real>): (p: real)
    ensures p >= 0.0
    ensures forall i :: 0 <= i < |smoothed| ==> smoothed[i] <= p
    ensures p == 0.0 || p in smoothed
  {
    if smoothed == [] then 0.0
    else
      var before := PeakOf(smoothed[..|smoothed| - 1]);
      var last := smoothed[|smoothed| - 1];
      assert forall i :: 0 <= i < |smoothed| - 1 ==> smoothed[i] == smoothed[..|smoothed| - 1][i];
      if last > before then last else before
  }

  /** `sum(weights) / len(weights)`, and 0 for no weights: otherwise a value between
      the smallest and the largest weight held. */
  function Average(ws: seq<real>): (a: real)
    ensures ws == [] ==> a == 0.0
    ensures ws != [] ==> exists i, j :: 0 <= i < |ws| && 0 <= j < |ws| && ws[i] <= a <= ws[j]
  {
    if ws == [] then 0.0 else MeanBetweenMembers(ws); Sum(ws) / |ws| as real
  }

  /** The positions of a smallest and a largest value. */
  lemma {:induction false} Extremes(ws: seq<real>) returns (lo: nat, hi: nat)
    requires ws != []
    ensures lo < |ws| && hi < |ws|
    ensures forall k :: 0 <= k < |ws| ==> ws[lo] <= ws[k] <= ws[hi]
    decreases |ws|
  {
    if |ws| == 1 {
      return 0, 0;
    }
    var init := ws[..|ws| - 1];
    lo, hi := Extremes(init);
    assert forall k :: 0 <= k < |init| ==> init[k] == ws[k];
    if ws[|ws| - 1] < ws[lo] {
      lo := |ws| - 1;
    }
    if ws[|ws| - 1] > ws[hi] {
      hi := |ws| - 1;
    }
  }

  lemma {:induction false} MeanBetweenMembers(ws: seq<real>)
    requires ws != []
    ensures exists i, j :: 0 <= i < |ws| && 0 <= j < |ws| && ws[i] <= Sum(ws) / |ws| as real <= ws[j]
  {
    var lo, hi := Extremes(ws);
    SumBounds(ws, ws[lo], ws[hi]);
    QuotientBetween(Sum(ws), |ws| as real, ws[lo], ws[hi]);
  }

  lemma QuotientBetween(s: real, n: real, lo: real, hi: real)
    requires n > 0.0 && lo * n <= s <= hi * n
    ensures lo <= s / n <= hi
  {
    var m := s / n;
    assert m * n == s;
    assert (m - lo) * n >= 0.0;
    assert (hi - m) * n >= 0.0;
  }

  lemma {:induction false} SumBounds(ws: seq<real>, lo: real, hi: real)
    requires forall i :: 0 <= i < |ws| ==> lo <= ws[i] <= hi
    ensures lo * |ws| as real <= Sum(ws) <= hi * |ws| as real
  {
    if ws != [] {
      var init := ws[..|ws| - 1];
      assert forall i :: 0 <= i < |init| ==> init[i] == ws[i];
      SumBounds(init, lo, hi);
      assert lo * |ws| as real == lo * |init| as real + lo;
      assert hi * |ws| as real == hi * |init| as real + hi;
    }
  }

  /** The session average lies between the smallest and the largest weight. */
  lemma AverageBounds(ws: seq<real>, lo: real, hi: real)
    requires ws != []
    requires forall i :: 0 <= i < |ws| ==> lo <= ws[i] <= hi
    ensures lo <= Average(ws) <= hi
  {
    SumBounds(ws, lo, hi);
    var n := |ws| as real;
    assert Average(ws) * n == Sum(ws);
    assert (Average(ws) - lo) * n >= 0.0;
    assert (hi - Average(ws)) * n >= 0.0;
  }

  /** What is emitted, before the display rounding: weights in kilograms. */
  datatype Response = Response(weight: real, peakWeight: real, avgWeight: real,
                               elapsedTime: real, tracking: bool, clearChart: bool)

  /** The figures one emission sends, from the current weight, the session figures
      and the clock: grams become kilograms, the average of the held weights lies
      between the lightest and the heaviest of them, the elapsed time is measured from
      the session start and is 0 outside a session, and the chart is cleared when the
      session holds its first weight. */
  function ResponseOf(current: real, peak: real, weights: seq<real>, tracking: bool,
                      startTime: real, now: real): (r: Response)
    ensures r.weight * 1000.0 == current && r.peakWeight * 1000.0 == peak
    ensures weights == [] ==> r.avgWeight == 0.0
    ensures weights != [] ==>
      exists i, j :: 0 <= i < |weights| && 0 <= j < |weights|
                     && weights[i] / 1000.0 <= r.avgWeight <= weights[j] / 1000.0
    ensures r.tracking == tracking
    ensures r.clearChart <==> |weights| == 1
    ensures !tracking || startTime == 0.0 ==> r.elapsedTime == 0.0
    ensures tracking && startTime != 0.0 ==> startTime + r.elapsedTime == now
    ensures tracking && startTime != 0.0 && startTime <= now ==> r.elapsedTime >= 0.0
  {
    Response(current / 1000.0, peak / 1000.0, Average(weights) / 1000.0,
             if startTime != 0.0 && tracking then now - startTime else 0.0,
             tracking, |weights| == 1)
  }

  /** One reading from the scale: `get_weight` returned `False`, returned a value, or
      raised `ValueError` (the iteration is then skipped). */
  datatype Reading = Failed | Weight(value: real) | Raised

  /** The weight an iteration works with: a failed or negative reading repeats the
      previous one. */
  function Accepted(reading: Reading, current: real): (w: real)
    requires !reading.Raised?
    ensures reading.Failed? ==> w == current
    ensures reading.Weight? && reading.value >= 0.0 ==> w == reading.value
    ensures reading.Weight? && reading.value < 0.0 ==> w == current
  {
    if reading.Failed? || reading.value < 0.0 then current else reading.value
  }

  class Tracker {
    var weights: seq<real>
    var rawWeights: seq<real>
    var peakWeight: real
    var tracking: bool
    var startTime: real
    var offTime: real
    var trackingDuration: real
    var minWeight: real
    var currentWeight: real
    var lastEmitTime: real
    /** The responses sent to the browser, oldest first. */
    var emitted: seq<Response>
    /** Every weight and smoothed value accepted since the current session began. */
    ghost var sessionWeights: seq<real>
    ghost var sessionSmoothed: seq<real>

    ghost predicate Valid()
      reads this
    {
      |weights| <= WEIGHTS_MAXLEN && |rawWeights| <= RAW_WEIGHTS_MAXLEN
      && weights == LastN(sessionWeights, WEIGHTS_MAXLEN)
      && peakWeight == PeakOf(sessionSmoothed)
      && (!tracking ==> startTime == 0.0)
    }

    /** The session figures: what only the session rules change. */
    ghost predicate SameSession(w: seq<real>, p: real, t: bool, st: real, off: real)
      reads this
    {
      weights == w && peakWeight == p && tracking == t && startTime == st && offTime == off
    }

    constructor ()
      ensures Valid()
      ensures SameSession([], 0.0, false, 0.0, 0.0)
      ensures rawWeights == [] && trackingDuration == 0.0 && minWeight == DEFAULT_MIN_WEIGHT
      ensures currentWeight == 1.0 && lastEmitTime == 0.0 && emitted == []
    {
      weights := [];
      rawWeights := [];
      peakWeight := 0.0;
      tracking := false;
      startTime := 0.0;
      offTime := 0.0;
      trackingDuration := 0.0;
      minWeight := DEFAULT_MIN_WEIGHT;
      currentWeight := 1.0;
      lastEmitTime := 0.0;
      emitted := [];
      sessionWeights := [];
      sessionSmoothed := [];
      new;
      assert LastN(sessionWeights, WEIGHTS_MAXLEN) == [];
      assert PeakOf(sessionSmoothed) == 0.0;
    }

    method SetMinWeight(value: real)
      requires Valid()
      modifies this
      ensures Valid() && minWeight == value
      ensures SameSession(old(weights), old(peakWeight), old(tracking), old(startTime), old(offTime))
      ensures rawWeights == old(rawWeights) && trackingDuration == old(trackingDuration)
      ensures currentWeight == old(currentWeight) && lastEmitTime == old(lastEmitTime)
      ensures emitted == old(emitted)
    {
      minWeight := value;
    }

    method SetTrackingDuration(value: real)
      requires Valid()
      modifies this
      ensures Valid() && trackingDuration == value
      ensures SameSession(old(weights), old(peakWeight), old(tracking), old(startTime), old(offTime))
      ensures rawWeights == old(rawWeights) && minWeight == old(minWeight)
      ensures currentWeight == old(currentWeight) && lastEmitTime == old(lastEmitTime)
      ensures emitted == old(emitted)
    {
      trackingDuration := value;
    }

    /** A new session: cleared figures, the clock started and the cool-down mark reset. */
    method StartSession(now: real)
      requires Valid()
      modifies this
      ensures Valid()
      ensures SameSession([], 0.0, true, now, 0.0)
      ensures sessionWeights == [] && sessionSmoothed == []
      ensures rawWeights == old(rawWeights) && currentWeight == old(currentWeight)
      ensures lastEmitTime == old(lastEmitTime) && emitted == old(emitted)
      ensures minWeight == old(minWeight) && trackingDuration == old(trackingDuration)
    {
      offTime := 0.0;
      tracking := true;
      weights := [];
      peakWeight := 0.0;
      startTime := now;
      sessionWeights := [];
      sessionSmoothed := [];
      assert LastN(sessionWeights, WEIGHTS_MAXLEN) == [];
      assert PeakOf(sessionSmoothed) == 0.0;
    }

    /** A weight joins the session's figures and the peak follows the smoothed value. */
    method RecordWeight(weight: real, smoothed: real)
      requires Valid()
      modifies this
      ensures Valid()
      ensures sessionWeights == old(sessionWeights) + [weight]
      ensures sessionSmoothed == old(sessionSmoothed) + [smoothed]
      ensures SameSession(DequePush(old(weights), weight, WEIGHTS_MAXLEN), peakWeight,
                          old(tracking), old(startTime), old(offTime))
      ensures rawWeights == old(rawWeights) && currentWeight == old(currentWeight)
      ensures lastEmitTime == old(lastEmitTime) && emitted == old(emitted)
      ensures minWeight == old(minWeight) && trackingDuration == old(trackingDuration)
    {
      DequePushKeepsLast(sessionWeights, weight, WEIGHTS_MAXLEN);
      var newSmoothed := sessionSmoothed + [smoothed];
      assert newSmoothed[..|newSmoothed| - 1] == sessionSmoothed;
      assert PeakOf(newSmoothed) == if smoothed > peakWeight then smoothed else peakWeight;
      weights := DequePush(weights, weight, WEIGHTS_MAXLEN);
      sessionWeights := sessionWeights + [weight];
      sessionSmoothed := newSmoothed;
      if smoothed > peakWeight {
        peakWeight := smoothed;
      }
    }

    /** The duration limit, when one is set: the session stops and the cool-down
        starts from its first stop. */
    method CheckDuration(now: real)
      requires Valid()
      modifies this
      ensures Valid()
      ensures now - old(startTime) > trackingDuration && trackingDuration != 0.0 ==>
        SameSession(old(weights), old(peakWeight), false, 0.0,
                    if old(offTime) == 0.0 then now else old(offTime))
      ensures !(now - old(startTime) > trackingDuration && trackingDuration != 0.0) ==>
        SameSession(old(weights), old(peakWeight), old(tracking), old(startTime), old(offTime))
      ensures sessionWeights == old(sessionWeights) && sessionSmoothed == old(sessionSmoothed)
      ensures rawWeights == old(rawWeights) && currentWeight == old(currentWeight)
      ensures lastEmitTime == old(lastEmitTime) && emitted == old(emitted)
      ensures minWeight == old(minWeight) && trackingDuration == old(trackingDuration)
    {
      if now - startTime > trackingDuration && trackingDuration != 0.0 {
        tracking := false;
        startTime := 0.0;
        if offTime == 0.0 {
          offTime := now;
        }
      }
    }

    /** The session rules for an accepted weight and its smoothed value. */
    method TrackSession(weight: real, smoothed: real, now: real)
      requires Valid()
      modifies this
      ensures Valid()
      ensures rawWeights == old(rawWeights) && currentWeight == old(currentWeight)
      ensures lastEmitTime == old(lastEmitTime) && emitted == old(emitted)
      ensures minWeight == old(minWeight) && trackingDuration == old(trackingDuration)
      // below the threshold or within the cool-down: no session
      ensures !(smoothed > minWeight && now - old(offTime) > COOL_DOWN) ==>
        SameSession(old(weights), old(peakWeight), false, 0.0, old(offTime))
        && sessionWeights == old(sessionWeights) && sessionSmoothed == old(sessionSmoothed)
      // otherwise a session starts (cleared figures) or goes on, and takes the weight
      ensures smoothed > minWeight && now - old(offTime) > COOL_DOWN ==>
        && sessionWeights == (if old(tracking) then old(sessionWeights) else []) + [weight]
        && sessionSmoothed == (if old(tracking) then old(sessionSmoothed) else []) + [smoothed]
        && weights == (if old(tracking) then DequePush(old(weights), weight, WEIGHTS_MAXLEN) else [weight])
      // the duration limit, when one is set
      ensures smoothed > minWeight && now - old(offTime) > COOL_DOWN ==>
        var sessionStart := if old(tracking) then old(startTime) else now;
        var sessionOff := if old(tracking) then old(offTime) else 0.0;
        if now - sessionStart > trackingDuration && trackingDuration != 0.0 then
          !tracking && startTime == 0.0 && offTime == (if sessionOff == 0.0 then now else sessionOff)
        else
          tracking && startTime == sessionStart && offTime == sessionOff
    {
      if smoothed > minWeight && now - offTime > COOL_DOWN {
        if !tracking {
          StartSession(now);
        }
        RecordWeight(weight, smoothed);
        CheckDuration(now);
      } else {
        tracking := false;
        startTime := 0.0;
      }
    }

    /** "Emit data at intervals". */
    method EmitIfDue(now: real)
      requires Valid()
      modifies this
      ensures Valid()
      ensures now - old(lastEmitTime) >= EMIT_INTERVAL ==>
        lastEmitTime == now
        && emitted == old(emitted) + [ResponseOf(currentWeight, peakWeight, weights, tracking, startTime, now)]
      ensures now - old(lastEmitTime) < EMIT_INTERVAL ==>
        lastEmitTime == old(lastEmitTime) && emitted == old(emitted)
      ensures SameSession(old(weights), old(peakWeight), old(tracking), old(startTime), old(offTime))
      ensures rawWeights == old(rawWeights) && minWeight == old(minWeight)
      ensures currentWeight == old(currentWeight) && trackingDuration == old(trackingDuration)
      ensures sessionWeights == old(sessionWeights) && sessionSmoothed == old(sessionSmoothed)
    {
      var currentTime := now;
      if currentTime - lastEmitTime >= EMIT_INTERVAL {
        lastEmitTime := currentTime;
        emitted := emitted + [ResponseOf(currentWeight, peakWeight, weights, tracking, startTime, now)];
      }
    }

    /** The start of an iteration: the accepted weight becomes the current one and joins
        the raw buffer, and its smoothed value is the rolling median of that buffer. */
    method AcceptReading(reading: Reading) returns (weight: real, smoothed: real)
      requires Valid() && !reading.Raised?
      modifies this
      ensures Valid()
      ensures weight == Accepted(reading, old(currentWeight)) && currentWeight == weight
      ensures rawWeights == DequePush(old(rawWeights), weight, RAW_WEIGHTS_MAXLEN)
      ensures smoothed == RollingMedian(rawWeights, WINDOW_SIZE)
      ensures SameSession(old(weights), old(peakWeight), old(tracking), old(startTime), old(offTime))
      ensures sessionWeights == old(sessionWeights) && sessionSmoothed == old(sessionSmoothed)
      ensures lastEmitTime == old(lastEmitTime) && emitted == old(emitted)
      ensures minWeight == old(minWeight) && trackingDuration == old(trackingDuration)
    {
      weight := if reading.Failed? || reading.value < 0.0 then currentWeight else reading.value;
      currentWeight := weight;
      rawWeights := DequePush(rawWeights, weight, RAW_WEIGHTS_MAXLEN);
      smoothed := RollingMedian(rawWeights, WINDOW_SIZE);
    }

    /** One iteration of `read_sensor`, with `now` the clock for the whole iteration and
        `outlier` the outcome of the three-standard-deviation test. */
    method Step(reading: Reading, now: real, outlier: bool)
      requires Valid()
      modifies this
      ensures Valid()
      ensures minWeight == old(minWeight) && trackingDuration == old(trackingDuration)
      ensures reading.Raised? ==>
        SameSession(old(weights), old(peakWeight), old(tracking), old(startTime), old(offTime))
        && rawWeights == old(rawWeights) && currentWeight == old(currentWeight)
        && lastEmitTime == old(lastEmitTime) && emitted == old(emitted)
      ensures !reading.Raised? ==>
        currentWeight == Accepted(reading, old(currentWeight))
        && rawWeights == DequePush(old(rawWeights), currentWeight, RAW_WEIGHTS_MAXLEN)
      // an outlier skips the rest of the iteration
      ensures !reading.Raised? && outlier ==>
        SameSession(old(weights), old(peakWeight), old(tracking), old(startTime), old(offTime))
        && lastEmitTime == old(lastEmitTime) && emitted == old(emitted)
      ensures !reading.Raised? && !outlier && now - old(lastEmitTime) >= EMIT_INTERVAL ==>
        lastEmitTime == now
        && emitted == old(emitted) + [ResponseOf(currentWeight, peakWeight, weights, tracking, startTime, now)]
      ensures !reading.Raised? && !outlier && now - old(lastEmitTime) < EMIT_INTERVAL ==>
        lastEmitTime == old(lastEmitTime) && emitted == old(emitted)
      ensures reading.Raised? || outlier ==>
        sessionWeights == old(sessionWeights) && sessionSmoothed == old(sessionSmoothed)
      // otherwise the session rules run on the accepted weight and its smoothed value
      ensures !reading.Raised? && !outlier ==>
        var smoothed := RollingMedian(rawWeights, WINDOW_SIZE);
        if !(smoothed > minWeight && now - old(offTime) > COOL_DOWN) then
          SameSession(old(weights), old(peakWeight), false, 0.0, old(offTime))
          && sessionWeights == old(sessionWeights) && sessionSmoothed == old(sessionSmoothed)
        else
          var sessionStart := if old(tracking) then old(startTime) else now;
          var sessionOff := if old(tracking) then old(offTime) else 0.0;
          && sessionWeights == (if old(tracking) then old(sessionWeights) else []) + [currentWeight]
          && sessionSmoothed == (if old(tracking) then old(sessionSmoothed) else []) + [smoothed]
          && weights == (if old(tracking) then DequePush(old(weights), currentWeight, WEIGHTS_MAXLEN)
                         else [currentWeight])
          && if now - sessionStart > trackingDuration && trackingDuration != 0.0 then
               !tracking && startTime == 0.0 && offTime == (if sessionOff == 0.0 then now else sessionOff)
             else
               tracking && startTime == sessionStart && offTime == sessionOff
    {
      if reading.Raised? {
        return;
      }
      var weight, smoothed := AcceptReading(reading);
      if outlier {
        return;
      }
      TrackSession(weight, smoothed, now);
      EmitIfDue(now);
    }
  }
}
