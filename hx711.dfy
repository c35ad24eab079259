/** Driver for the HX711 load-cell amplifier. The PIO state machine that clocks the
    bits out and the GPIO waits for the data-ready pulse are the hardware: the model
    sees each conversion attempt as one `Conversion` from an oracle, and each reset
    attempt as one truth value. */
module Hx711Driver {
  import opened Opt

  /** Consecutive-error count at which `read` first tries a chip reset. */
  const MAX_ERRORS: nat := 10
  const INVALID_WORD: int := 0x7fff_ffff

  /** One conversion attempt: either some wait for the chip timed out, or the state
      machine pushed a word (24 data bits followed by the gain-select bits). */
  datatype Conversion = NoResponse | Word(bits: nat)

  /** The hardware as seen by the driver: the outcome of the n-th conversion attempt
      and whether the n-th reset brings the data line low. */
  datatype Sensor = Sensor(conversions: nat -> Conversion, resets: nat -> bool)

  /** The driver's error bookkeeping and how far it has consumed the hardware. */
  datatype Link = Link(errorCount: nat, lastReadSuccess: bool, conversionsUsed: nat, resetsUsed: nat)

  function Pow2(n: nat): (p: nat)
    ensures p >= 1
  {
    if n == 0 then 1 else 2 * Pow2(n - 1)
  }

  /** `set_gain`'s code for a gain: 128 selects channel A at gain 128, 64 channel A at
      gain 64, 32 channel B; any other argument keeps the current code. */
  function GainCode(gain: int, current: nat): nat
  {
    if gain == 128 then 1
    else if gain == 64 then 3
    else if gain == 32 then 2
    else current
  }

  /** The clock pulses of one conversion: `GAIN + 24 - 1` is loaded into the loop
      counter and `jmp(x_dec)` runs the bit loop once more than that. */
  function PulseCount(code: nat): nat
  {
    code + 24
  }

  /** Each supported gain gets the HX711's pulse count for it (25 for channel A at 128,
      26 for channel B at 32, 27 for channel A at 64); other gains keep the pulse count. */
  lemma GainPulses(current: nat)
    ensures PulseCount(GainCode(128, current)) == 25
    ensures PulseCount(GainCode(32, current)) == 26
    ensures PulseCount(GainCode(64, current)) == 27
    ensures forall g :: g != 128 && g != 64 && g != 32 ==> PulseCount(GainCode(g, current)) == PulseCount(current)
  {
  }

  /** "check sign": a result above 0x7fffff is taken as negative. */
  function SignConvert(result: int): (v: int)
  {
    if result > 0x7f_ffff then result - 0x100_0000 else result
  }

  /** For a 24-bit result the conversion is two's complement: the value lies in
      [-2^23, 2^23), is negative exactly when bit 23 is set, and is congruent to the
      raw bits modulo 2^24. */
  lemma {:induction false} SignConvertIsTwosComplement(result: int)
    requires 0 <= result < 0x100_0000
    ensures -0x80_0000 <= SignConvert(result) < 0x80_0000
    ensures SignConvert(result) < 0 <==> result >= 0x80_0000
    ensures (SignConvert(result) + 0x100_0000) % 0x100_0000 == result
  {
    if result > 0x7f_ffff {
      assert SignConvert(result) + 0x100_0000 == result;
    } else {
      assert SignConvert(result) + 0x100_0000 == result + 0x100_0000;
    }
  }

  /** A failed attempt: the raising branch and the exception handler each add one
      error, and the last read is marked unsuccessful. */
  function Failed(l: Link): Link
  {
    l.(errorCount := l.errorCount + 2, lastReadSuccess := false)
  }

  /** One `read`: the new bookkeeping and the value, `None` when it raises. */
  function ReadOutcome(l: Link, code: nat, hw: Sensor): (Link, Option<int>)
  {
    if l.errorCount >= MAX_ERRORS && !hw.resets(l.resetsUsed) then
      (l.(resetsUsed := l.resetsUsed + 1), None)
    else
      var l1 := if l.errorCount >= MAX_ERRORS then l.(errorCount := 0, resetsUsed := l.resetsUsed + 1) else l;
      var l2 := l1.(conversionsUsed := l1.conversionsUsed + 1);
      match hw.conversions(l1.conversionsUsed)
      case NoResponse => (Failed(l2), None)
      case Word(bits) =>
        var result := bits / Pow2(code);
        if result == INVALID_WORD then (Failed(l2), None)
        else (l2.(errorCount := 0, lastReadSuccess := true), Some(SignConvert(result)))
  }

  /** A read that returns has cleared the error count and sets the success flag; its
      value is the sign-converted word with the gain bits dropped. */
  lemma {:induction false} ReadSuccess(l: Link, code: nat, hw: Sensor)
    requires ReadOutcome(l, code, hw).1.Some?
    ensures ReadOutcome(l, code, hw).0.errorCount == 0 && ReadOutcome(l, code, hw).0.lastReadSuccess
    ensures hw.conversions(ReadOutcome(l, code, hw).0.conversionsUsed - 1).Word?
    ensures var w := hw.conversions(ReadOutcome(l, code, hw).0.conversionsUsed - 1).bits / Pow2(code);
      w != INVALID_WORD && ReadOutcome(l, code, hw).1.value == SignConvert(w)
  {
    if l.errorCount >= MAX_ERRORS {
      assert hw.resets(l.resetsUsed);
    }
  }

  /** A word of 0x7fffffff after dropping the gain bits is rejected. */
  lemma {:induction false} ReadRejectsInvalidWord(l: Link, code: nat, hw: Sensor)
    requires l.errorCount < MAX_ERRORS
    requires hw.conversions(l.conversionsUsed).Word?
    requires hw.conversions(l.conversionsUsed).bits / Pow2(code) == INVALID_WORD
    ensures ReadOutcome(l, code, hw).1.None?
    ensures ReadOutcome(l, code, hw).0.errorCount == l.errorCount + 2
  {
  }

  /** A read that raises after attempting a conversion counts two errors. */
  lemma {:induction false} ReadFailureCountsTwice(l: Link, code: nat, hw: Sensor)
    requires l.errorCount < MAX_ERRORS
    requires ReadOutcome(l, code, hw).1.None?
    ensures ReadOutcome(l, code, hw).0.errorCount == l.errorCount + 2
    ensures !ReadOutcome(l, code, hw).0.lastReadSuccess
    ensures ReadOutcome(l, code, hw).0.conversionsUsed == l.conversionsUsed + 1
  {
    match hw.conversions(l.conversionsUsed)
    case NoResponse =>
    case Word(bits) =>
      assert bits / Pow2(code) == INVALID_WORD;
  }

  /** At the error threshold a failed reset raises without a conversion attempt and
      without touching the counter or the flag; a successful one zeroes the counter first. */
  lemma {:induction false} ReadAtThreshold(l: Link, code: nat, hw: Sensor)
    requires l.errorCount >= MAX_ERRORS
    ensures !hw.resets(l.resetsUsed) ==>
      ReadOutcome(l, code, hw) == (l.(resetsUsed := l.resetsUsed + 1), None)
    ensures hw.resets(l.resetsUsed) ==>
      ReadOutcome(l, code, hw) == ReadOutcome(l.(errorCount := 0, resetsUsed := l.resetsUsed + 1), code, hw)
  {
  }

  /** The state of `read_average`'s loop. */
  datatype Averaging = Averaging(link: Link, sum: int, successes: nat, attempts: nat)

  /** The rest of `read_average`'s loop with `left` iterations to go. */
  function AverageLoop(a: Averaging, times: int, left: nat, code: nat, hw: Sensor): Averaging
    decreases left
  {
    if left == 0 || a.successes >= times then a
    else
      var (l, v) := ReadOutcome(a.link, code, hw);
      var next := match v
        case Some(x) => Averaging(l, a.sum + x, a.successes + 1, a.attempts + 1)
        case None => Averaging(l, a.sum, a.successes, a.attempts + 1);
      AverageLoop(next, times, left - 1, code, hw)
  }

  /** The loop makes at most `left` attempts, never collects more than `times`
      successes, and stops early only once `times` successes are in. */
  lemma {:induction false} AverageLoopBounds(a: Averaging, times: int, left: nat, code: nat, hw: Sensor)
    requires a.successes <= times
    ensures var r := AverageLoop(a, times, left, code, hw);
      a.attempts <= r.attempts <= a.attempts + left && a.successes <= r.successes <= times
      && (r.attempts < a.attempts + left ==> r.successes == times)
      && r.successes - a.successes <= r.attempts - a.attempts
    decreases left
  {
    if left == 0 || a.successes >= times {
    } else {
      var (l, v) := ReadOutcome(a.link, code, hw);
      var next := match v
        case Some(x) => Averaging(l, a.sum + x, a.successes + 1, a.attempts + 1)
        case None => Averaging(l, a.sum, a.successes, a.attempts + 1);
      AverageLoopBounds(next, times, left - 1, code, hw);
    }
  }

  /** `read_average(times)`: the mean of the successful reads among at most `2·times`
      attempts, or `None` (it raises) when none succeeded. */
  function Average(l: Link, times: int, code: nat, hw: Sensor): (r: (Link, Option<real>))
  {
    var a := AverageLoop(Averaging(l, 0, 0, 0), times, if times > 0 then 2 * times else 0, code, hw);
    if a.successes == 0 then (a.link, None) else (a.link, Some(a.sum as real / a.successes as real))
  }

  /** For `times >= 1`, an average is the mean of at most `times` reads drawn from at
      most `2·times` attempts; for `times <= 0` there is no attempt and it raises. */
  lemma {:induction false} AverageBounds(l: Link, times: int, code: nat, hw: Sensor)
    ensures times <= 0 ==> Average(l, times, code, hw) == (l, None)
    ensures times > 0 ==>
      var a := AverageLoop(Averaging(l, 0, 0, 0), times, 2 * times, code, hw);
      a.attempts <= 2 * times && a.successes <= times
      && (a.attempts < 2 * times ==> a.successes == times)
      && (Average(l, times, code, hw).1.Some? <==> a.successes > 0)
  {
    if times > 0 {
      AverageLoopBounds(Averaging(l, 0, 0, 0), times, 2 * times, code, hw);
    }
  }

  lemma FractionOfNonNegative(t: real, d: real)
    requires 0.0 < t < 1.0 && d >= 0.0
    ensures 0.0 <= t * d <= d
  {
    if d > 0.0 {
      assert (1.0 - t) * d > 0.0;
    }
  }

  lemma FractionOfNonPositive(t: real, d: real)
    requires 0.0 < t < 1.0 && d <= 0.0
    ensures d <= t * d <= 0.0
  {
    if d < 0.0 {
      assert (1.0 - t) * (-d) > 0.0;
      assert t * (-d) > 0.0;
    }
  }

  lemma FractionOfNonZero(t: real, d: real)
    requires 0.0 < t < 1.0 && d != 0.0
    ensures t * d != 0.0
  {
  }

  /** The filter's correction `t * d` for a distance `d` to the new reading: with
      `0 < t < 1` it has the sign of `d`, is no longer than `d`, and is zero only for `d == 0`. */
  function Correction(t: real, d: real): (s: real)
    ensures 0.0 < t < 1.0 && d >= 0.0 ==> 0.0 <= s <= d
    ensures 0.0 < t < 1.0 && d <= 0.0 ==> d <= s <= 0.0
    ensures 0.0 < t < 1.0 && d != 0.0 ==> s != 0.0
  {
    if 0.0 < t < 1.0 && d > 0.0 then
      FractionOfNonNegative(t, d);
      FractionOfNonZero(t, d);
      t * d
    else if 0.0 < t < 1.0 && d < 0.0 then
      FractionOfNonPositive(t, d);
      FractionOfNonZero(t, d);
      t * d
    else if 0.0 < t < 1.0 then
      FractionOfNonNegative(t, d);
      t * d
    else
      t * d
  }

  /** One step of the low-pass filter: with a constant in (0, 1) the new value lies
      between the old one and the reading, and moves exactly when they differ. */
  function Lowpass(filtered: real, timeConstant: real, value: real): (r: real)
    ensures 0.0 < timeConstant < 1.0 && filtered <= value ==> filtered <= r <= value
    ensures 0.0 < timeConstant < 1.0 && value <= filtered ==> value <= r <= filtered
    ensures 0.0 < timeConstant < 1.0 ==> (r == filtered <==> value == filtered)
  {
    filtered + Correction(timeConstant, value - filtered)
  }

  /** `get_units` after the offset is subtracted: a zero scale raises inside and the
      handler returns 0. */
  function Units(value: real, scale: real): (u: real)
    ensures scale != 0.0 ==> u * scale == value
    ensures scale == 0.0 ==> u == 0.0
  {
    if scale == 0.0 then 0.0 else value / scale
  }

  /** `set_gain`'s two reads on a link: the first is discarded and the second, when
      both succeed, becomes the filter state; a failed read keeps the filter state and
      leaves the link marked as failed. */
  function GainSettled(l: Link, filtered: real, code: nat, hw: Sensor): (Link, real)
  {
    var (l1, v1) := ReadOutcome(l, code, hw);
    if v1.None? then (l1.(lastReadSuccess := false), filtered)
    else
      var (l2, v2) := ReadOutcome(l1, code, hw);
      if v2.None? then (l2.(lastReadSuccess := false), filtered)
      else (l2, v2.value as real)
  }

  class Hx711 {
    const sensor: Sensor
    /** `GAIN`: the number of extra pulses after the 24 data bits. */
    var gain: nat
    var offset: real
    var scale: real
    var timeConstant: real
    var filtered: real
    var link: Link

    ghost predicate Valid()
      reads this
    {
      0.0 < timeConstant < 1.0
    }

    /** The constructor: fresh field values with a filter state of 0 and a clean
        link, then `set_gain` and one more read that only sets `last_read_success`. */
    constructor (sensor: Sensor, gain: int)
      ensures Valid() && this.sensor == sensor
      ensures offset == 0.0 && scale == 1.0 && timeConstant == 0.25
      ensures this.gain == GainCode(gain, 0)
      ensures var (l, f) := GainSettled(Link(0, false, 0, 0), 0.0, this.gain, sensor);
        var (l3, v3) := ReadOutcome(l, this.gain, sensor);
        filtered == f && link == l3.(lastReadSuccess := v3.Some?)
    {
      this.sensor := sensor;
      this.gain := 0;
      offset := 0.0;
      scale := 1.0;
      timeConstant := 0.25;
      filtered := 0.0;
      link := Link(0, false, 0, 0);
      new;
      SetGain(gain);
      var first := Read();
      if first.Some? {
        link := link.(lastReadSuccess := true);
      } else {
        link := link.(lastReadSuccess := false);
      }
    }

    method Read() returns (value: Option<int>)
      requires Valid()
      modifies this
      ensures Valid()
      ensures (link, value) == ReadOutcome(old(link), gain, sensor)
      ensures gain == old(gain) && offset == old(offset) && scale == old(scale)
      ensures timeConstant == old(timeConstant) && filtered == old(filtered)
    {
      if link.errorCount >= MAX_ERRORS {
        var ok := sensor.resets(link.resetsUsed);
        link := link.(resetsUsed := link.resetsUsed + 1);
        if ok {
          link := link.(errorCount := 0);
        } else {
          return None;
        }
      }
      var conversion := sensor.conversions(link.conversionsUsed);
      link := link.(conversionsUsed := link.conversionsUsed + 1);
      if conversion.NoResponse? {
        link := link.(errorCount := link.errorCount + 1);
        link := link.(errorCount := link.errorCount + 1, lastReadSuccess := false);
        return None;
      }
      var result := conversion.bits / Pow2(gain);
      if result == INVALID_WORD {
        link := link.(errorCount := link.errorCount + 1);
        link := link.(errorCount := link.errorCount + 1, lastReadSuccess := false);
        return None;
      }
      if result > 0x7f_ffff {
        result := result - 0x100_0000;
      }
      link := link.(errorCount := 0, lastReadSuccess := true);
      return Some(result);
    }

    /** `set_gain`: select the code, then discard one read and keep the next as the
        filter's starting value. */
    method SetGain(newGain: int)
      requires Valid()
      modifies this
      ensures Valid()
      ensures gain == GainCode(newGain, old(gain))
      ensures offset == old(offset) && scale == old(scale) && timeConstant == old(timeConstant)
      ensures (link, filtered) == GainSettled(old(link), old(filtered), gain, sensor)
    {
      gain := GainCode(newGain, gain);
      var first := Read();
      if first.None? {
        link := link.(lastReadSuccess := false);
        return;
      }
      var second := Read();
      if second.None? {
        link := link.(lastReadSuccess := false);
        return;
      }
      filtered := second.value as real;
      link := link.(lastReadSuccess := true);
    }

    method ReadAverage(times: int) returns (average: Option<real>)
      requires Valid()
      modifies this
      ensures Valid()
      ensures (link, average) == Average(old(link), times, gain, sensor)
      ensures gain == old(gain) && offset == old(offset) && scale == old(scale)
      ensures timeConstant == old(timeConstant) && filtered == old(filtered)
    {
      var sum := 0;
      var successfulReads: nat := 0;
      var maxAttempts := if times > 0 then 2 * times else 0;
      ghost var attempts: nat := 0;
      var i := 0;
      while i < maxAttempts
        invariant 0 <= i <= maxAttempts
        invariant Valid()
        invariant gain == old(gain) && offset == old(offset) && scale == old(scale)
        invariant timeConstant == old(timeConstant) && filtered == old(filtered)
        invariant AverageLoop(Averaging(old(link), 0, 0, 0), times, maxAttempts, gain, sensor)
                  == AverageLoop(Averaging(link, sum, successfulReads, attempts), times, maxAttempts - i, gain, sensor)
      {
        if successfulReads >= times {
          break;
        }
        var value := Read();
        if value.Some? {
          sum := sum + value.value;
          successfulReads := successfulReads + 1;
        }
        attempts := attempts + 1;
        i := i + 1;
      }
      if successfulReads == 0 {
        return None;
      }
      return Some(sum as real / successfulReads as real);
    }

    /** `read_lowpass`: one filter step on a successful read; a failed read keeps the
        last filtered value. */
    method ReadLowpass() returns (value: real)
      requires Valid()
      modifies this
      ensures Valid()
      ensures var (l, v) := ReadOutcome(old(link), gain, sensor);
        link == l && filtered == (if v.Some? then Lowpass(old(filtered), timeConstant, v.value as real) else old(filtered))
      ensures value == filtered
      ensures gain == old(gain) && offset == old(offset) && scale == old(scale) && timeConstant == old(timeConstant)
    {
      var reading := Read();
      if reading.Some? {
        filtered := filtered + timeConstant * (reading.value as real - filtered);
      }
      return filtered;
    }

    /** `get_value`: the filtered value minus the offset. `read_lowpass` catches every
        failure, so the re-raise path is never taken. */
    method GetValue() returns (value: real)
      requires Valid()
      modifies this
      ensures Valid()
      ensures var (l, v) := ReadOutcome(old(link), gain, sensor);
        link == l && filtered == (if v.Some? then Lowpass(old(filtered), timeConstant, v.value as real) else old(filtered))
      ensures value == filtered - offset
      ensures gain == old(gain) && offset == old(offset) && scale == old(scale) && timeConstant == old(timeConstant)
    {
      var lowpass := ReadLowpass();
      return lowpass - offset;
    }

    method GetUnits() returns (units: real)
      requires Valid()
      modifies this
      ensures Valid()
      ensures var (l, v) := ReadOutcome(old(link), gain, sensor);
        link == l && filtered == (if v.Some? then Lowpass(old(filtered), timeConstant, v.value as real) else old(filtered))
      ensures units == Units(filtered - offset, scale)
      ensures gain == old(gain) && offset == old(offset) && scale == old(scale) && timeConstant == old(timeConstant)
    {
      var value := GetValue();
      if scale == 0.0 {
        return 0.0;
      }
      return value / scale;
    }

    /** `reset_hx711`: the chip's answer to the reset pulse train. */
    method ResetChip() returns (ok: bool)
      modifies this
      ensures ok == sensor.resets(old(link).resetsUsed)
      ensures link == old(link).(resetsUsed := old(link).resetsUsed + 1)
      ensures gain == old(gain) && offset == old(offset) && scale == old(scale)
      ensures timeConstant == old(timeConstant) && filtered == old(filtered)
    {
      ok := sensor.resets(link.resetsUsed);
      link := link.(resetsUsed := link.resetsUsed + 1);
    }

    /** `tare`: the offset becomes an average of `times` reads; when no average is had,
        the chip is reset and, if it answers, the average is tried once more. */
    method Tare(times: int) returns (ok: bool)
      requires Valid()
      modifies this
      ensures Valid()
      ensures var (l1, a1) := Average(old(link), times, gain, sensor);
        if a1.Some? then ok && offset == a1.value && link == l1
        else if !sensor.resets(l1.resetsUsed) then !ok && offset == old(offset) && link == l1.(resetsUsed := l1.resetsUsed + 1)
        else
          var (l2, a2) := Average(l1.(resetsUsed := l1.resetsUsed + 1), times, gain, sensor);
          link == l2 && (ok <==> a2.Some?) && offset == (if a2.Some? then a2.value else old(offset))
      ensures gain == old(gain) && scale == old(scale) && timeConstant == old(timeConstant) && filtered == old(filtered)
    {
      var average := ReadAverage(times);
      if average.Some? {
        SetOffset(average.value);
        return true;
      }
      var reset := ResetChip();
      if reset {
        average := ReadAverage(times);
        if average.Some? {
          SetOffset(average.value);
          return true;
        }
      }
      return false;
    }

    method SetScale(newScale: real)
      modifies this
      ensures scale == newScale
      ensures gain == old(gain) && offset == old(offset) && timeConstant == old(timeConstant)
      ensures filtered == old(filtered) && link == old(link)
    {
      scale := newScale;
    }

    method SetOffset(newOffset: real)
      modifies this
      ensures offset == newOffset
      ensures gain == old(gain) && scale == old(scale) && timeConstant == old(timeConstant)
      ensures filtered == old(filtered) && link == old(link)
    {
      offset := newOffset;
    }

    /** `set_time_constant`: with no argument it returns the current constant; a value
        strictly between 0 and 1 replaces it; anything else is ignored. */
    method SetTimeConstant(newConstant: Option<real>) returns (current: Option<real>)
      requires Valid()
      modifies this
      ensures Valid()
      ensures newConstant.None? ==> current == Some(timeConstant) && timeConstant == old(timeConstant)
      ensures newConstant.Some? ==> current.None?
      ensures newConstant.Some? && 0.0 < newConstant.value < 1.0 ==> timeConstant == newConstant.value
      ensures newConstant.Some? && !(0.0 < newConstant.value < 1.0) ==> timeConstant == old(timeConstant)
      ensures gain == old(gain) && offset == old(offset) && scale == old(scale)
      ensures filtered == old(filtered) && link == old(link)
    {
      if newConstant.None? {
        return Some(timeConstant);
      }
      if 0.0 < newConstant.value < 1.0 {
        timeConstant := newConstant.value;
      }
      return None;
    }
  }
}
