/** The NAU7802 half of the updated ADC test: conversions come from the driver
    (`available` then `read`), and the collection loop drops any value outside the
    signed 24-bit range before storing it. */
module UpdatedTestScript {
  import opened Opt
  import Nau7802Driver
  import SequentialAdcTest

  const SAMPLE_COUNT: nat := 3000
  const MIN_READING: int := -8388608
  const MAX_READING: int := 8388607

  /** The outlier filter: a valid signed 24-bit integer. */
  predicate Plausible(reading: int)
  {
    MIN_READING <= reading <= MAX_READING
  }

  /** `read_nau7802`: a conversion only when the driver reports one available, and then
      one the outlier filter always lets through. */
  function ReadNau7802(nau: Nau7802Driver.Nau7802): (r: Option<int>)
    reads nau
    requires nau.Valid()
    ensures r.None? <==> !nau.Available()
    ensures r.Some? ==> Plausible(r.value)
  {
    if nau.Available() then Some(nau.Read()) else None
  }

  /** The values the filter keeps, in order. */
  function Plausibles(s: seq<int>): (r: seq<int>)
    ensures |r| <= |s|
    ensures forall i :: 0 <= i < |r| ==> Plausible(r[i])
  {
    if s == [] then []
    else
      var init := Plausibles(s[..|s| - 1]);
      if Plausible(s[|s| - 1]) then init + [s[|s| - 1]] else init
  }

  lemma {:induction false} PlausiblesAppend(a: seq<int>, b: seq<int>)
    ensures Plausibles(a + b) == Plausibles(a) + Plausibles(b)
  {
    if b != [] {
      assert (a + b)[..|a + b| - 1] == a + b[..|b| - 1];
      PlausiblesAppend(a, b[..|b| - 1]);
    } else {
      assert a + b == a;
    }
  }

  /** A value is kept exactly when it is plausible. */
  lemma {:induction false} PlausiblesMembers(s: seq<int>, x: int)
    ensures x in Plausibles(s) <==> x in s && Plausible(x)
  {
    if s != [] {
      PlausiblesMembers(s[..|s| - 1], x);
      assert s == s[..|s| - 1] + [s[|s| - 1]];
    }
  }

  /** Driver conversions all pass: the filter never drops one. */
  lemma {:induction false} DriverReadingsPass(s: seq<int>)
    requires forall i :: 0 <= i < |s| ==> -0x80_0000 <= s[i] < 0x80_0000
    ensures Plausibles(s) == s
  {
    if s != [] {
      assert forall i :: 0 <= i < |s| - 1 ==> s[..|s| - 1][i] == s[i];
      DriverReadingsPass(s[..|s| - 1]);
      assert s == s[..|s| - 1] + [s[|s| - 1]];
    }
  }

  /** `test_nau7802`'s loop, with `polls` the results of the `read_nau7802` calls made
      before the test duration runs out: it keeps the first `SAMPLE_COUNT` plausible
      conversions, and `sample_count` counts only those. */
  method CollectSamples(polls: seq<Option<int>>) returns (samples: seq<int>, sampleCount: nat)
    ensures sampleCount == |samples| <= SAMPLE_COUNT
    ensures forall i :: 0 <= i < |samples| ==> Plausible(samples[i])
    ensures samples == SequentialAdcTest.Take(Plausibles(SequentialAdcTest.Values(polls)), SAMPLE_COUNT)
  {
    samples := [];
    sampleCount := 0;
    var k := 0;
    while sampleCount < SAMPLE_COUNT && k < |polls|
      invariant k <= |polls|
      invariant sampleCount == |samples| <= SAMPLE_COUNT
      invariant samples == Plausibles(SequentialAdcTest.Values(polls[..k]))
      decreases |polls| - k
    {
      var k0 := k;
      var reading;
      reading, k := SequentialAdcTest.AwaitReading(polls, k);
      SequentialAdcTest.ValuesAppend(polls[..k0], polls[k0..k]);
      assert polls[..k] == polls[..k0] + polls[k0..k];
      if reading.Some? {
        assert SequentialAdcTest.Values(polls[..k])
          == SequentialAdcTest.Values(polls[..k0]) + [reading.value];
        PlausiblesAppend(SequentialAdcTest.Values(polls[..k0]), [reading.value]);
        assert Plausibles([reading.value]) == if Plausible(reading.value) then [reading.value] else [];
        if Plausible(reading.value) {
          samples := samples + [reading.value];
          sampleCount := sampleCount + 1;
        }
      } else {
        assert SequentialAdcTest.Values(polls[..k]) == SequentialAdcTest.Values(polls[..k0]);
      }
    }
    SequentialAdcTest.ValuesAppend(polls[..k], polls[k..]);
    assert polls == polls[..k] + polls[k..];
    PlausiblesAppend(SequentialAdcTest.Values(polls[..k]), SequentialAdcTest.Values(polls[k..]));
  }
}
