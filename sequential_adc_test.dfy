/** The NAU7802 half of the sequential ADC test: a conversion is read straight from the
    register file when the cycle-ready bit is set, and the test collects conversions
    until it has enough of them or its time runs out. */
module SequentialAdcTest {
  import opened Bytes
  import opened Opt
  import Nau7802Driver

  const NAU_REG_PU_CTRL: nat := 0x00
  const NAU_REG_ADCO_B2: nat := 0x12
  const NAU_REG_ADCO_B1: nat := 0x13
  const NAU_REG_ADCO_B0: nat := 0x14
  /** Cycle ready (read only). */
  const NAU_PU_CTRL_CR: bv8 := 0x20
  const SAMPLE_COUNT: nat := 1000

  /** `if value & 0x800000: value -= 0x1000000` on a 24-bit value, whose bit 23 is set
      exactly from 0x800000 on. */
  function SignExtend24(value: int): (v: int)
    requires 0 <= value < 0x100_0000
    ensures -0x80_0000 <= v < 0x80_0000
    ensures (v + 0x100_0000) % 0x100_0000 == value
    ensures v < 0 <==> value >= 0x80_0000
  {
    if value >= 0x80_0000 then value - 0x100_0000 else value
  }

  /** `read_nau7802` over the register file: nothing until a conversion is ready, then the
      three result bytes, most significant first, with bit 23 as the sign. */
  function ReadNau7802(regs: seq<bv8>): (r: Option<int>)
    requires |regs| == Nau7802Driver.REGISTER_COUNT
    ensures r.None? <==> regs[NAU_REG_PU_CTRL] & NAU_PU_CTRL_CR == 0
  {
    if regs[NAU_REG_PU_CTRL] & NAU_PU_CTRL_CR == 0 then None
    else
      var d0 := Nau7802Driver.ByteOf(regs[NAU_REG_ADCO_B2]);
      var d1 := Nau7802Driver.ByteOf(regs[NAU_REG_ADCO_B1]);
      var d2 := Nau7802Driver.ByteOf(regs[NAU_REG_ADCO_B0]);
      Some(SignExtend24(Nau7802Driver.Raw24(d0, d1, d2)))
  }

  lemma CycleReadyBit(v: bv8)
    ensures (v & NAU_PU_CTRL_CR != 0) == Nau7802Driver.BitOf(v, 5)
  {
  }

  lemma SignExtendIsDecode24(d0: byte, d1: byte, d2: byte)
    ensures SignExtend24(Nau7802Driver.Raw24(d0, d1, d2)) == Nau7802Driver.Decode24(d0, d1, d2)
  {
  }

  /** The script's own decoding agrees with the driver's `available` and `read`, so a
      value it returns lies in [-2^23, 2^23). */
  lemma ReadAgreesWithDriver(nau: Nau7802Driver.Nau7802)
    requires nau.Valid()
    ensures ReadNau7802(nau.regs) == if nau.Available() then Some(nau.Read()) else None
    ensures ReadNau7802(nau.regs).Some? ==> -0x80_0000 <= ReadNau7802(nau.regs).value < 0x80_0000
  {
    var regs := nau.regs;
    CycleReadyBit(regs[NAU_REG_PU_CTRL]);
    SignExtendIsDecode24(Nau7802Driver.ByteOf(regs[NAU_REG_ADCO_B2]),
                         Nau7802Driver.ByteOf(regs[NAU_REG_ADCO_B1]),
                         Nau7802Driver.ByteOf(regs[NAU_REG_ADCO_B0]));
  }

  // ---- The collection loop -------------------------------------------------------

  /** The conversions among the results of successive `read_nau7802` calls. */
  function Values(polls: seq<Option<int>>): (v: seq<int>)
    ensures |v| <= |polls|
  {
    if polls == [] then []
    else
      var init := Values(polls[..|polls| - 1]);
      if polls[|polls| - 1].Some? then init + [polls[|polls| - 1].value] else init
  }

  lemma {:induction false} ValuesAppend(a: seq<Option<int>>, b: seq<Option<int>>)
    ensures Values(a + b) == Values(a) + Values(b)
  {
    if b != [] {
      assert (a + b)[..|a + b| - 1] == a + b[..|b| - 1];
      ValuesAppend(a, b[..|b| - 1]);
    } else {
      assert a + b == a;
    }
  }

  /** Every conversion the polls return, and nothing else, in order. */
  lemma {:induction false} ValuesAreTheConversions(polls: seq<Option<int>>, x: int)
    ensures x in Values(polls) <==> Some(x) in polls
  {
    if polls != [] {
      ValuesAreTheConversions(polls[..|polls| - 1], x);
      assert polls == polls[..|polls| - 1] + [polls[|polls| - 1]];
    }
  }

  function Take(s: seq<int>, n: nat): (r: seq<int>)
    ensures |r| == if |s| < n then |s| else n
    ensures r == s[..|r|]
  {
    if |s| <= n then s else s[..n]
  }

  /** The busy wait: polls until a conversion arrives or the polls (the time left) run out. */
  method AwaitReading(polls: seq<Option<int>>, k0: nat) returns (reading: Option<int>, k: nat)
    requires k0 <= |polls|
    ensures k0 <= k <= |polls|
    ensures Values(polls[k0..k]) == if reading.Some? then [reading.value] else []
    ensures reading.None? ==> k == |polls|
  {
    reading := None;
    k := k0;
    while reading.None? && k < |polls|
      invariant k0 <= k <= |polls|
      invariant Values(polls[k0..k]) == if reading.Some? then [reading.value] else []
      decreases |polls| - k, if reading.None? then 1 else 0
    {
      ValuesAppend(polls[k0..k], [polls[k]]);
      assert polls[k0..k + 1] == polls[k0..k] + [polls[k]];
      reading := polls[k];
      k := k + 1;
    }
  }

  /** `test_nau7802`'s loop, with `polls` the results of the `read_nau7802` calls made
      before the test duration runs out: it keeps the first `SAMPLE_COUNT` conversions. */
  method CollectSamples(polls: seq<Option<int>>) returns (samples: seq<int>, sampleCount: nat)
    ensures sampleCount == |samples| <= SAMPLE_COUNT
    ensures samples == Take(Values(polls), SAMPLE_COUNT)
  {
    samples := [];
    sampleCount := 0;
    var k := 0;
    while sampleCount < SAMPLE_COUNT && k < |polls|
      invariant k <= |polls|
      invariant sampleCount == |samples| <= SAMPLE_COUNT
      invariant samples == Values(polls[..k])
      decreases |polls| - k
    {
      var k0 := k;
      var reading;
      reading, k := AwaitReading(polls, k);
      ValuesAppend(polls[..k0], polls[k0..k]);
      assert polls[..k] == polls[..k0] + polls[k0..k];
      if reading.Some? {
        samples := samples + [reading.value];
        sampleCount := sampleCount + 1;
      }
    }
    ValuesAppend(polls[..k], polls[k..]);
    assert polls == polls[..k] + polls[k..];
  }
}
