/** The NAU7802 load-cell manager: taring, calibration against a known weight and the
    conversion of raw readings to kilograms, with a simulation fallback when the chip
    could not be set up. The chip is seen through the answers of its two I2C queries:
    whether a conversion is ready, and the conversion itself. */
module WeightSensorNau7802 {
  import opened Opt

  const DEFAULT_SCALE_FACTOR: real := 1.554606 * 0.1
  /** Weights at or below this are refused by `calibrate`. */
  const MIN_KNOWN_WEIGHT: real := 0.001
  /** Scale factors of at most this magnitude are refused by `calibrate`. */
  const MIN_SCALE_MAGNITUDE: real := 0.1

  const TARE_WAIT: nat := 100
  const CALIBRATE_WAIT: nat := 100
  const CALIBRATE_READINGS: nat := 10
  const WEIGHT_WAIT: nat := 20
  const RAW_WAIT: nat := 100

  /** What the driver's `read` returns: a sign-extended 24-bit value. */
  type Adc24 = x: int | -0x80_0000 <= x < 0x80_0000

  /** The n-th `available()` and the n-th `read()` answers; `None` is an I2C error,
      which the driver raises. */
  datatype Bus = Bus(ready: nat -> Option<bool>, samples: nat -> Option<Adc24>)

  /** How many of each query have been made. */
  datatype Cursor = Cursor(polls: nat, fetched: nat)

  /** The outcome of waiting for one conversion and reading it. */
  datatype Acquired = Fault | NotReady | Sample(raw: Adc24)

  /** The readings a loop has summed so far. */
  datatype Tally = Tally(total: int, valid: nat)

  /** `for attempt in range(left): if available(): break` — the cursor after the loop,
      and whether an I2C error escaped it. */
  function WaitLoop(bus: Bus, c: Cursor, left: nat): (r: (Cursor, bool))
    ensures c.polls <= r.0.polls <= c.polls + left && r.0.fetched == c.fetched
    decreases left
  {
    if left == 0 then (c, false)
    else match bus.ready(c.polls)
      case None => (c.(polls := c.polls + 1), true)
      case Some(true) => (c.(polls := c.polls + 1), false)
      case Some(false) => WaitLoop(bus, c.(polls := c.polls + 1), left - 1)
  }

  /** The wait loop, the `available()` check after it and, when data is ready, `read()`. */
  function Acquire(bus: Bus, c: Cursor, attempts: nat): (r: (Cursor, Acquired))
  {
    var (c1, faulted) := WaitLoop(bus, c, attempts);
    if faulted then (c1, Fault)
    else
      var c2 := c1.(polls := c1.polls + 1);
      match bus.ready(c1.polls)
      case None => (c2, Fault)
      case Some(false) => (c2, NotReady)
      case Some(true) =>
        var c3 := c2.(fetched := c2.fetched + 1);
        match bus.samples(c2.fetched)
        case None => (c3, Fault)
        case Some(raw) => (c3, Sample(raw))
  }

  /** A reading is delivered exactly when the check after the wait loop finds data and
      the read answers; it is then the answer of the next `read()`. */
  lemma {:induction false} AcquireSample(bus: Bus, c: Cursor, attempts: nat)
    ensures var (c1, faulted) := WaitLoop(bus, c, attempts);
      Acquire(bus, c, attempts).1.Sample? <==>
        !faulted && bus.ready(c1.polls) == Some(true) && bus.samples(c1.fetched).Some?
    ensures Acquire(bus, c, attempts).1.Sample? ==>
      Acquire(bus, c, attempts).0.fetched == c.fetched + 1
      && Some(Acquire(bus, c, attempts).1.raw) == bus.samples(c.fetched)
  {
  }

  /** The summing loop of `tare` and `calibrate` with `left` readings to go, each taken
      after a wait of up to `attempts` polls; `None` when an I2C error ends it. */
  function Gather(bus: Bus, c: Cursor, left: nat, t: Tally, attempts: nat): (r: (Cursor, Option<Tally>))
    decreases left
  {
    if left == 0 then (c, Some(t))
    else
      var (c1, a) := Acquire(bus, c, attempts);
      match a
      case Fault => (c1, None)
      case NotReady => Gather(bus, c1, left - 1, t, attempts)
      case Sample(raw) => Gather(bus, c1, left - 1, Tally(t.total + raw, t.valid + 1), attempts)
  }

  /** The loop counts at most one reading per round, and every reading summed is a
      24-bit value. */
  lemma {:induction false} GatherBounds(bus: Bus, c: Cursor, left: nat, t: Tally, attempts: nat)
    requires -0x80_0000 * t.valid <= t.total < 0x80_0000 * t.valid || t.valid == t.total == 0
    ensures var r := Gather(bus, c, left, t, attempts).1;
      r.Some? ==> (t.valid <= r.value.valid <= t.valid + left
                   && (-0x80_0000 * r.value.valid <= r.value.total < 0x80_0000 * r.value.valid
                       || r.value.valid == r.value.total == 0))
    decreases left
  {
    if left > 0 {
      var (c1, a) := Acquire(bus, c, attempts);
      match a
      case Fault =>
      case NotReady => GatherBounds(bus, c1, left - 1, t, attempts);
      case Sample(raw) => GatherBounds(bus, c1, left - 1, Tally(t.total + raw, t.valid + 1), attempts);
    }
  }

  /** `total / valid_readings`. */
  function Mean(t: Tally): real
    requires t.valid > 0
  {
    t.total as real / t.valid as real
  }

  lemma MulMonotone(a: real, b: real, n: real)
    requires a <= b && n > 0.0
    ensures a * n <= b * n
  {
    assert (b - a) * n >= 0.0;
  }

  lemma {:induction false} QuotientInRange(total: int, valid: nat)
    requires valid > 0
    requires -0x80_0000 * valid <= total < 0x80_0000 * valid
    ensures -0x80_0000 as real <= total as real / valid as real < 0x80_0000 as real
  {
    var n := valid as real;
    var m := total as real / valid as real;
    assert m * n == total as real;
    if m >= 0x80_0000 as real {
      MulMonotone(0x80_0000 as real, m, n);
      assert false;
    }
    if m < -0x80_0000 as real {
      MulMonotone(m, -0x80_0000 as real, n);
      assert false;
    }
  }

  /** The mean of 24-bit readings is itself within the 24-bit range. */
  lemma {:induction false} MeanInRange(t: Tally)
    requires t.valid > 0
    requires -0x80_0000 * t.valid <= t.total < 0x80_0000 * t.valid
    ensures -0x80_0000 as real <= Mean(t) < 0x80_0000 as real
  {
    QuotientInRange(t.total, t.valid);
  }

  /** The offset a successful tare sets, and the mean `calibrate` uses, lie in the
      driver's 24-bit range and come from at most `count` readings. */
  lemma {:induction false} GatheredMeanInRange(bus: Bus, c: Cursor, count: nat, attempts: nat)
    ensures var r := Gather(bus, c, count, Tally(0, 0), attempts).1;
      r.Some? && r.value.valid > 0 ==>
        r.value.valid <= count && -0x80_0000 as real <= Mean(r.value) < 0x80_0000 as real
  {
    GatherBounds(bus, c, count, Tally(0, 0), attempts);
    var r := Gather(bus, c, count, Tally(0, 0), attempts).1;
    if r.Some? && r.value.valid > 0 {
      MeanInRange(r.value);
    }
  }

  /** `max(0, (raw - offset) / scale_factor)`. */
  function WeightOf(raw: real, offset: real, scale: real): (w: real)
    requires scale != 0.0
    ensures w >= 0.0
    ensures w * scale == raw - offset || w == 0.0
    ensures (raw - offset) / scale >= 0.0 ==> w * scale == raw - offset
  {
    var weight := (raw - offset) / scale;
    if weight > 0.0 then weight else 0.0
  }

  /** The scale factor `calibrate` would adopt for a known weight and the mean raw
      reading with it loaded; `None` when the weight is too small or the resulting
      factor is implausibly small. */
  function CalibratedScale(mean: real, offset: real, knownWeight: real): (s: Option<real>)
    ensures s.Some? <==> knownWeight > MIN_KNOWN_WEIGHT
                         && ((mean - offset) / knownWeight > MIN_SCALE_MAGNITUDE
                             || (mean - offset) / knownWeight < -MIN_SCALE_MAGNITUDE)
    ensures s.Some? ==> s.value * knownWeight == mean - offset
    ensures s.Some? ==> s.value != 0.0
  {
    if knownWeight <= MIN_KNOWN_WEIGHT then None
    else
      var newScale := (mean - offset) / knownWeight;
      if newScale > MIN_SCALE_MAGNITUDE || newScale < -MIN_SCALE_MAGNITUDE then Some(newScale) else None
  }

  /** Reading the calibration mean again after calibrating with weight `w` shows `w`. */
  lemma {:induction false} CalibrationRoundTrip(mean: real, offset: real, knownWeight: real)
    requires CalibratedScale(mean, offset, knownWeight).Some?
    ensures WeightOf(mean, offset, CalibratedScale(mean, offset, knownWeight).value) == knownWeight
  {
    var s := CalibratedScale(mean, offset, knownWeight).value;
    assert s * knownWeight == mean - offset;
    assert (mean - offset) / s == knownWeight;
  }

  /** The simulated weight for the seconds clock and the millisecond ticks. */
  function SimulatedWeight(seconds: int, ticksMs: int): (w: real)
    ensures 10.0 <= w < 20.0
  {
    var noise := (ticksMs % 100) as real / 500.0;
    assert 0.0 <= noise < 1.0;
    (10 + seconds % 10) as real + noise
  }

  class WeightSensor {
    const bus: Bus
    var simulation: bool
    /** Whether `self.nau7802` was set. */
    var hasDriver: bool
    var scaleFactor: real
    var offset: real
    var cursor: Cursor

    ghost predicate Valid()
      reads this
    {
      scaleFactor != 0.0
    }

    /** The manager after its setup: `chipReady` says whether every setup step
        succeeded (else it falls back to simulation). A missing or zero scale factor
        selects the default. */
    constructor (bus: Bus, scaleFactorArg: Option<real>, driverCreated: bool, chipReady: bool)
      ensures Valid() && this.bus == bus && cursor == Cursor(0, 0)
      ensures simulation == !(driverCreated && chipReady) && hasDriver == driverCreated
      ensures scaleFactor == (if scaleFactorArg.None? || scaleFactorArg.value == 0.0 then DEFAULT_SCALE_FACTOR
                              else scaleFactorArg.value)
      ensures offset == 0.0
    {
      this.bus := bus;
      hasDriver := driverCreated;
      simulation := !(driverCreated && chipReady);
      scaleFactor := if scaleFactorArg.None? || scaleFactorArg.value == 0.0 then DEFAULT_SCALE_FACTOR
                     else scaleFactorArg.value;
      offset := 0.0;
      cursor := Cursor(0, 0);
    }

    /** The wait loop: poll `available()` up to `attempts` times until it answers yes. */
    method WaitForData(attempts: nat) returns (faulted: bool)
      modifies this
      ensures (cursor, faulted) == WaitLoop(bus, old(cursor), attempts)
      ensures simulation == old(simulation) && hasDriver == old(hasDriver)
      ensures scaleFactor == old(scaleFactor) && offset == old(offset)
    {
      var attempt := 0;
      while attempt < attempts
        invariant 0 <= attempt <= attempts
        invariant WaitLoop(bus, old(cursor), attempts) == WaitLoop(bus, cursor, attempts - attempt)
        invariant simulation == old(simulation) && hasDriver == old(hasDriver)
        invariant scaleFactor == old(scaleFactor) && offset == old(offset)
      {
        var answer := bus.ready(cursor.polls);
        cursor := cursor.(polls := cursor.polls + 1);
        if answer.None? {
          return true;
        }
        if answer.value {
          return false;
        }
        attempt := attempt + 1;
      }
      return false;
    }

    /** Wait, check `available()` once more and read when it says yes. */
    method AcquireReading(attempts: nat) returns (result: Acquired)
      modifies this
      ensures (cursor, result) == Acquire(bus, old(cursor), attempts)
      ensures simulation == old(simulation) && hasDriver == old(hasDriver)
      ensures scaleFactor == old(scaleFactor) && offset == old(offset)
    {
      var faulted := WaitForData(attempts);
      if faulted {
        return Fault;
      }
      var ready := bus.ready(cursor.polls);
      cursor := cursor.(polls := cursor.polls + 1);
      if ready.None? {
        return Fault;
      }
      if !ready.value {
        return NotReady;
      }
      var sample := bus.samples(cursor.fetched);
      cursor := cursor.(fetched := cursor.fetched + 1);
      if sample.None? {
        return Fault;
      }
      return Sample(sample.value);
    }

    /** The summing loop shared by `tare` and `calibrate`. */
    method GatherReadings(count: nat, attempts: nat) returns (tally: Option<Tally>)
      modifies this
      ensures (cursor, tally) == Gather(bus, old(cursor), count, Tally(0, 0), attempts)
      ensures simulation == old(simulation) && hasDriver == old(hasDriver)
      ensures scaleFactor == old(scaleFactor) && offset == old(offset)
    {
      var total := 0;
      var validReadings: nat := 0;
      var i := 0;
      while i < count
        invariant 0 <= i <= count
        invariant Gather(bus, old(cursor), count, Tally(0, 0), attempts)
                  == Gather(bus, cursor, count - i, Tally(total, validReadings), attempts)
        invariant simulation == old(simulation) && hasDriver == old(hasDriver)
        invariant scaleFactor == old(scaleFactor) && offset == old(offset)
      {
        var reading := AcquireReading(attempts);
        if reading.Fault? {
          return None;
        }
        if reading.Sample? {
          total := total + reading.raw;
          validReadings := validReadings + 1;
        }
        i := i + 1;
      }
      return Some(Tally(total, validReadings));
    }

    /** `tare`: the offset becomes the mean of the readings obtained; with none, or
        after an I2C error, it fails and the offset is kept. */
    method Tare(times: int) returns (ok: bool)
      requires Valid()
      modifies this
      ensures Valid()
      ensures simulation == old(simulation) && hasDriver == old(hasDriver) && scaleFactor == old(scaleFactor)
      ensures old(simulation) ==> ok && offset == old(offset) && cursor == old(cursor)
      ensures !old(simulation) && !hasDriver ==> !ok && offset == old(offset) && cursor == old(cursor)
      ensures !old(simulation) && hasDriver ==>
        var (c, tally) := Gather(bus, old(cursor), if times > 0 then times else 0, Tally(0, 0), TARE_WAIT);
        cursor == c
        && (ok <==> tally.Some? && tally.value.valid > 0)
        && offset == (if ok then Mean(tally.value) else old(offset))
    {
      if simulation {
        return true;
      }
      if !hasDriver {
        return false;
      }
      var tally := GatherReadings(if times > 0 then times else 0, TARE_WAIT);
      if tally.None? || tally.value.valid == 0 {
        return false;
      }
      offset := tally.value.total as real / tally.value.valid as real;
      return true;
    }

    /** `calibrate`: ten readings with the known weight loaded; the scale factor is
        replaced only when the weight and the resulting factor pass their guards. */
    method Calibrate(knownWeight: real) returns (ok: bool)
      requires Valid()
      modifies this
      ensures Valid()
      ensures simulation == old(simulation) && hasDriver == old(hasDriver) && offset == old(offset)
      ensures old(simulation) || !hasDriver ==> !ok && scaleFactor == old(scaleFactor) && cursor == old(cursor)
      ensures !old(simulation) && hasDriver ==>
        var (c, tally) := Gather(bus, old(cursor), CALIBRATE_READINGS, Tally(0, 0), CALIBRATE_WAIT);
        cursor == c
        && (ok <==> tally.Some? && tally.value.valid > 0
                    && CalibratedScale(Mean(tally.value), offset, knownWeight).Some?)
        && scaleFactor == (if ok then CalibratedScale(Mean(tally.value), offset, knownWeight).value
                           else old(scaleFactor))
      ensures knownWeight <= MIN_KNOWN_WEIGHT ==> !ok && scaleFactor == old(scaleFactor)
    {
      if simulation {
        return false;
      }
      if !hasDriver {
        return false;
      }
      var tally := GatherReadings(CALIBRATE_READINGS, CALIBRATE_WAIT);
      if tally.None? || tally.value.valid == 0 {
        return false;
      }
      if knownWeight <= MIN_KNOWN_WEIGHT {
        return false;
      }
      var newScale := CalibratedScale(Mean(tally.value), offset, knownWeight);
      if newScale.Some? {
        scaleFactor := newScale.value;
        return true;
      }
      return false;
    }

    /** `get_weight`: a simulated weight, or the calibrated weight of one reading; 0
        when there is no driver, no data or an I2C error. */
    method GetWeight(seconds: int, ticksMs: int) returns (weight: real)
      requires Valid()
      modifies this
      ensures Valid() && weight >= 0.0
      ensures simulation == old(simulation) && hasDriver == old(hasDriver)
      ensures scaleFactor == old(scaleFactor) && offset == old(offset)
      ensures simulation ==> weight == SimulatedWeight(seconds, ticksMs) && cursor == old(cursor)
      ensures !simulation && !hasDriver ==> weight == 0.0 && cursor == old(cursor)
      ensures !simulation && hasDriver ==>
        var (c, a) := Acquire(bus, old(cursor), WEIGHT_WAIT);
        cursor == c && weight == (if a.Sample? then WeightOf(a.raw as real, offset, scaleFactor) else 0.0)
    {
      if simulation {
        var noise := (ticksMs % 100) as real / 500.0;
        return (10 + seconds % 10) as real + noise;
      }
      if !hasDriver {
        return 0.0;
      }
      var reading := AcquireReading(WEIGHT_WAIT);
      if !reading.Sample? {
        return 0.0;
      }
      var w := (reading.raw as real - offset) / scaleFactor;
      return if w > 0.0 then w else 0.0;
    }

    /** `get_raw_reading`: one reading, or 0. */
    method GetRawReading() returns (raw: int)
      modifies this
      ensures simulation == old(simulation) && hasDriver == old(hasDriver)
      ensures scaleFactor == old(scaleFactor) && offset == old(offset)
      ensures simulation || !hasDriver ==> raw == 0 && cursor == old(cursor)
      ensures !simulation && hasDriver ==>
        var (c, a) := Acquire(bus, old(cursor), RAW_WAIT);
        cursor == c && raw == (if a.Sample? then a.raw else 0)
      ensures -0x80_0000 <= raw < 0x80_0000
    {
      if simulation || !hasDriver {
        return 0;
      }
      var reading := AcquireReading(RAW_WAIT);
      if reading.Sample? {
        return reading.raw;
      }
      return 0;
    }

    /** `reset_readings`: read and drop data while `available()` says there is some.
        The loop ends once the chip answers no or an I2C error is raised, which
        `ends` says happens at some later poll. */
    method ResetReadings(ghost ends: nat) returns (ok: bool)
      requires !simulation && hasDriver ==> ends >= cursor.polls && bus.ready(ends) != Some(true)
      modifies this
      ensures simulation == old(simulation) && hasDriver == old(hasDriver)
      ensures scaleFactor == old(scaleFactor) && offset == old(offset)
      ensures simulation ==> ok && cursor == old(cursor)
      ensures !simulation && !hasDriver ==> !ok && cursor == old(cursor)
      ensures !simulation && hasDriver ==>
        old(cursor).polls < cursor.polls <= ends + 1
        && (forall k :: old(cursor).polls <= k < cursor.polls - 1 ==> bus.ready(k) == Some(true))
        && (ok <==> bus.ready(cursor.polls - 1) == Some(false))
      // one read per "ready" answer; the loop stops at a check that is not "ready",
      // or at the read after a "ready" one that raised
      ensures !simulation && hasDriver ==>
        var readFailed := bus.ready(cursor.polls - 1) == Some(true);
        old(cursor).fetched <= cursor.fetched
        && cursor.fetched - old(cursor).fetched == cursor.polls - old(cursor).polls - (if readFailed then 0 else 1)
        && (readFailed ==> bus.samples(cursor.fetched - 1).None?)
        && (forall k :: old(cursor).fetched <= k < cursor.fetched - (if readFailed then 1 else 0) ==>
              bus.samples(k).Some?)
    {
      if simulation {
        return true;
      }
      if !hasDriver {
        return false;
      }
      while true
        invariant old(cursor).polls <= cursor.polls <= ends
        invariant forall k :: old(cursor).polls <= k < cursor.polls ==> bus.ready(k) == Some(true)
        invariant old(cursor).fetched <= cursor.fetched
        invariant cursor.fetched - old(cursor).fetched == cursor.polls - old(cursor).polls
        invariant forall k :: old(cursor).fetched <= k < cursor.fetched ==> bus.samples(k).Some?
        invariant simulation == old(simulation) && hasDriver == old(hasDriver)
        invariant scaleFactor == old(scaleFactor) && offset == old(offset)
        decreases ends - cursor.polls
      {
        var answer := bus.ready(cursor.polls);
        cursor := cursor.(polls := cursor.polls + 1);
        if answer != Some(true) {
          return answer == Some(false);
        }
        var sample := bus.samples(cursor.fetched);
        cursor := cursor.(fetched := cursor.fetched + 1);
        if sample.None? {
          return false;
        }
      }
    }
  }
}
