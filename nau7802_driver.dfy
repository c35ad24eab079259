/** Driver for the NAU7802 24-bit ADC. The chip is seen through its register file:
    every helper is a read-modify-write of one register, and the register file is
    the state the driver changes. */
module Nau7802Driver {
  import opened Bytes
  import opened Opt

  const I2C_ADDR_DEFAULT: int := 0x2A

  // Register addresses.
  const PU_CTRL: nat := 0x00
  const CTRL1: nat := 0x01
  const CTRL2: nat := 0x02
  const ADCO_B2: nat := 0x12
  const ADC: nat := 0x15
  const PGA: nat := 0x1B
  const POWER: nat := 0x1C
  const REVISION_ID: nat := 0x1F
  /** Registers 0x00 to 0x1F. */
  const REGISTER_COUNT: nat := 0x20

  // LDO voltage options; LDO_EXTERNAL selects the external supply.
  const LDO_4V5: int := 0
  const LDO_4V2: int := 1
  const LDO_3V9: int := 2
  const LDO_3V6: int := 3
  const LDO_3V3: int := 4
  const LDO_3V0: int := 5
  const LDO_2V7: int := 6
  const LDO_2V4: int := 7
  const LDO_EXTERNAL: int := 8

  // Gain options.
  const GAIN_1: int := 0
  const GAIN_2: int := 1
  const GAIN_4: int := 2
  const GAIN_8: int := 3
  const GAIN_16: int := 4
  const GAIN_32: int := 5
  const GAIN_64: int := 6
  const GAIN_128: int := 7

  // Sample rate options.
  const RATE_10SPS: int := 0
  const RATE_20SPS: int := 1
  const RATE_40SPS: int := 2
  const RATE_80SPS: int := 3
  const RATE_320SPS: int := 7

  // Calibration modes.
  const CALMOD_INTERNAL: int := 0
  const CALMOD_OFFSET: int := 2
  const CALMOD_GAIN: int := 3

  // ---- Bit fields of one register -------------------------------------------

  /** `(1 << n) - 1`, the value of an `n`-bit field. */
  function LowMask(n: bv8): bv8
    requires n <= 8
  {
    ((1 as bv8) << n) - 1
  }

  /** `((1 << n) - 1) << pos`. */
  function Mask(pos: bv8, n: bv8): bv8
    requires n <= 8 && pos <= 8 - n
  {
    LowMask(n) << pos
  }

  /** The low eight bits of a Python integer, two's complement for negative ones. */
  function Low8(x: int): bv8
  {
    (x % 256) as bv8
  }

  /** `(v >> pos) & 1`, read as a truth value. */
  function BitOf(v: bv8, pos: bv8): bool
    requires pos < 8
  {
    (v >> pos) & 1 == 1
  }

  /** `_write_bit` on a register value. */
  function WithBit(v: bv8, pos: bv8, value: bool): bv8
    requires pos < 8
  {
    if value then v | ((1 as bv8) << pos) else v & !((1 as bv8) << pos)
  }

  /** `(v & mask) >> pos`. */
  function FieldOf(v: bv8, pos: bv8, n: bv8): bv8
    requires n <= 8 && pos <= 8 - n
  {
    (v & Mask(pos, n)) >> pos
  }

  /** `_write_bits` on a register value: clear the field, then or in `(x << pos) & mask`. */
  function WithField(v: bv8, pos: bv8, n: bv8, x: int): bv8
    requires n <= 8 && pos <= 8 - n
  {
    (v & !Mask(pos, n)) | ((Low8(x) << pos) & Mask(pos, n))
  }

  /** Writing a bit and reading it back gives the written value. */
  lemma BitRoundTrip(v: bv8, pos: bv8, value: bool)
    requires pos < 8
    ensures BitOf(WithBit(v, pos, value), pos) == value
  {
  }

  /** Writing a bit leaves every other bit as it was. */
  lemma BitFrame(v: bv8, pos: bv8, value: bool, j: bv8)
    requires pos < 8 && j < 8 && j != pos
    ensures BitOf(WithBit(v, pos, value), j) == BitOf(v, j)
  {
  }

  /** `_read_bits` after `_write_bits` returns `x & (2^n - 1)`. */
  lemma FieldRoundTrip(v: bv8, pos: bv8, n: bv8, x: int)
    requires n <= 8 && pos <= 8 - n
    ensures FieldOf(WithField(v, pos, n, x), pos, n) == Low8(x) & LowMask(n)
  {
  }

  /** `_write_bits` leaves the bits outside its mask as they were. */
  lemma FieldFrame(v: bv8, pos: bv8, n: bv8, x: int)
    requires n <= 8 && pos <= 8 - n
    ensures WithField(v, pos, n, x) & !Mask(pos, n) == v & !Mask(pos, n)
  {
  }

  /** The same, one bit at a time. */
  lemma FieldBitFrame(v: bv8, pos: bv8, n: bv8, x: int, j: bv8)
    requires n <= 8 && pos <= 8 - n && j < 8 && !(pos <= j < pos + n)
    ensures BitOf(WithField(v, pos, n, x), j) == BitOf(v, j)
  {
  }

  /** Setting the LDO field of CTRL1 keeps the gain field. */
  lemma LdoKeepsGain(v: bv8, x: int)
    ensures FieldOf(WithField(v, 3, 3, x), 0, 3) == FieldOf(v, 0, 3)
  {
  }

  /** Setting the gain field of CTRL1 keeps the LDO field. */
  lemma GainKeepsLdo(v: bv8, x: int)
    ensures FieldOf(WithField(v, 0, 3, x), 3, 3) == FieldOf(v, 3, 3)
  {
  }

  /** Setting the rate field of CTRL2 keeps the calibration bits below it. */
  lemma RateKeepsCalibration(v: bv8, x: int)
    ensures FieldOf(WithField(v, 4, 3, x), 0, 4) == FieldOf(v, 0, 4)
  {
  }

  /** A three-bit field keeps any value 0..7 exactly. */
  lemma {:induction false} ThreeBitValue(x: int)
    requires 0 <= x < 8
    ensures (Low8(x) & LowMask(3)) as int == x
  {
    assert Low8(x) == x as bv8;
    SmallFieldValue(x as bv8);
  }

  lemma SmallFieldValue(b: bv8)
    requires b < 8
    ensures b & LowMask(3) == b
  {
  }

  /** Any three-bit field reads as 0..7. */
  lemma {:induction false} ThreeBitRange(v: bv8, pos: bv8)
    requires pos <= 5
    ensures 0 <= FieldOf(v, pos, 3) as int < 8
  {
    assert FieldOf(v, pos, 3) < 8;
  }

  // ---- 24-bit conversion result ------------------------------------------------

  /** A register value as a Python integer. */
  function ByteOf(b: bv8): byte
  {
    b as int
  }

  /** `(d0 << 16) | (d1 << 8) | d2`; the shifted bytes do not overlap, so `|` adds. */
  function Raw24(d0: byte, d1: byte, d2: byte): (v: int)
    ensures 0 <= v < 0x100_0000
  {
    d0 * 65536 + d1 * 256 + d2
  }

  /** The conversion result: the 24-bit big-endian word, sign-extended from bit 23. */
  function Decode24(d0: byte, d1: byte, d2: byte): (v: int)
    ensures -0x80_0000 <= v < 0x80_0000
    ensures (v + 0x100_0000) % 0x100_0000 == Raw24(d0, d1, d2)
    ensures v < 0 <==> d0 >= 0x80
  {
    var raw := Raw24(d0, d1, d2);
    if raw >= 0x80_0000 then raw - 0x100_0000 else raw
  }

  /** The register bytes holding a signed 24-bit value (the inverse of `Decode24`). */
  function Encode24(v: int): (bytes: (byte, byte, byte))
    requires -0x80_0000 <= v < 0x80_0000
  {
    var u := (v + 0x100_0000) % 0x100_0000;
    (u / 65536, (u / 256) % 256, u % 256)
  }

  lemma {:induction false} Decode24RoundTrip(v: int)
    requires -0x80_0000 <= v < 0x80_0000
    ensures Decode24(Encode24(v).0, Encode24(v).1, Encode24(v).2) == v
  {
    var u := (v + 0x100_0000) % 0x100_0000;
    var q := u / 256;
    assert u == 256 * q + u % 256;
    assert q == 256 * (q / 256) + q % 256;
    assert u / 65536 == q / 256;
    assert Raw24(Encode24(v).0, Encode24(v).1, Encode24(v).2) == u;
  }

  /** The revision register identifies the chip when its low nibble is 0xF. */
  function RevisionOk(rev: bv8): bool
  {
    rev & 0x0F == 0x0F
  }

  // The register file after each stage of `begin`, as the code writes it.

  /** `reset`: RR set then cleared, PUD set. */
  function AfterReset(r: seq<bv8>): (s: seq<bv8>)
    requires |r| == REGISTER_COUNT
    ensures |s| == REGISTER_COUNT
  {
    r[PU_CTRL := WithBit(WithBit(WithBit(r[PU_CTRL], 0, true), 0, false), 1, true)]
  }

  /** `enable(True)`: PUD, PUA and CS set. */
  function AfterEnable(r: seq<bv8>): (s: seq<bv8>)
    requires |r| == REGISTER_COUNT
    ensures |s| == REGISTER_COUNT
  {
    r[PU_CTRL := WithBit(WithBit(WithBit(r[PU_CTRL], 1, true), 2, true), 4, true)]
  }

  /** The initial configuration: internal LDO at 3.3 V, gain 128, 10 SPS, chopper
      clock off, low-ESR caps, PGA output stabiliser cap. */
  function AfterConfigure(r: seq<bv8>): (s: seq<bv8>)
    requires |r| == REGISTER_COUNT
    ensures |s| == REGISTER_COUNT
  {
    r[PU_CTRL := WithBit(r[PU_CTRL], 7, true)]
     [CTRL1 := WithField(WithField(r[CTRL1], 3, 3, LDO_3V3), 0, 3, GAIN_128)]
     [CTRL2 := WithField(r[CTRL2], 4, 3, RATE_10SPS)]
     [ADC := WithField(r[ADC], 4, 2, 3)]
     [PGA := WithBit(r[PGA], 6, false)]
     [POWER := WithBit(r[POWER], 7, true)]
  }

  // ---- The calibration wait loop ----------------------------------------------

  /** The reads of CTRL2 the wait loop makes before leaving: the loop polls while
      bit 2 (CALS) reads `waitWhile`. `None` when the polls run out first. */
  function WaitExit(polls: seq<bv8>, waitWhile: bool): (k: Option<nat>)
    ensures k.Some? ==> k.value < |polls| && BitOf(polls[k.value], 2) != waitWhile
    ensures k.Some? ==> forall j :: 0 <= j < k.value ==> BitOf(polls[j], 2) == waitWhile
    ensures k.None? ==> forall j :: 0 <= j < |polls| ==> BitOf(polls[j], 2) == waitWhile
  {
    if polls == [] then None
    else if BitOf(polls[0], 2) != waitWhile then Some(0)
    else match WaitExit(polls[1..], waitWhile)
      case None => None
      case Some(k) => Some(k + 1)
  }

  /** The value `calibrate` returns: the negated CAL_ERR bit (bit 3) of the CTRL2 read
      after the wait loop; `None` while the loop would still be polling. */
  function CalibrationOutcome(polls: seq<bv8>, waitWhile: bool): Option<bool>
  {
    match WaitExit(polls, waitWhile)
    case None => None
    case Some(k) => if k + 1 < |polls| then Some(!BitOf(polls[k + 1], 3)) else None
  }

  /** The wait loop leaves at the first read whose CALS bit differs from `waitWhile`. */
  lemma {:induction false} WaitExitFirst(polls: seq<bv8>, waitWhile: bool, k: nat)
    requires k < |polls| && BitOf(polls[k], 2) != waitWhile
    requires forall j :: 0 <= j < k ==> BitOf(polls[j], 2) == waitWhile
    ensures WaitExit(polls, waitWhile) == Some(k)
  {
    if k > 0 {
      assert BitOf(polls[0], 2) == waitWhile;
      WaitExitFirst(polls[1..], waitWhile, k - 1);
    }
  }

  /** The wait loop never leaves when every read shows CALS as `waitWhile`. */
  lemma {:induction false} WaitExitNone(polls: seq<bv8>, waitWhile: bool)
    requires forall j :: 0 <= j < |polls| ==> BitOf(polls[j], 2) == waitWhile
    ensures WaitExit(polls, waitWhile) == None
  {
    if polls != [] {
      assert BitOf(polls[0], 2) == waitWhile;
      WaitExitNone(polls[1..], waitWhile);
    }
  }

  // What CTRL2 shows during a calibration: CALS (bit 2) while it runs, then CALS
  // clear with CAL_ERR (bit 3) telling whether it failed.
  const CTRL2_CALIBRATING: bv8 := 0x04
  function Ctrl2Done(failed: bool): bv8 { if failed then 0x08 else 0x00 }

  /** A calibration that runs for `busy` reads and then reads as finished `done` times. */
  function CalibrationTrace(busy: nat, done: nat, failed: bool): (t: seq<bv8>)
    ensures |t| == busy + done
    ensures forall j :: 0 <= j < busy ==> t[j] == CTRL2_CALIBRATING
    ensures forall j :: busy <= j < busy + done ==> t[j] == Ctrl2Done(failed)
  {
    seq(busy, _ => CTRL2_CALIBRATING) + seq(done, _ => Ctrl2Done(failed))
  }

  /** As written, a calibration still running on the first two reads is reported
      successful whatever its outcome. */
  lemma {:induction false} CalibrateIgnoresOutcome(busy: nat, done: nat, failed: bool)
    requires busy >= 2
    ensures CalibrationOutcome(CalibrationTrace(busy, done, failed), false) == Some(true)
  {
    var t := CalibrationTrace(busy, done, failed);
    assert BitOf(t[0], 2);
    WaitExitFirst(t, false, 0);
    assert !BitOf(t[1], 3);
  }

  /** As written, a calibration that is already over at the first read is waited for forever. */
  lemma {:induction false} CalibrateMissesCompletion(done: nat, failed: bool)
    ensures CalibrationOutcome(CalibrationTrace(0, done, failed), false) == None
  {
    var t := CalibrationTrace(0, done, failed);
    assert forall j :: 0 <= j < |t| ==> !BitOf(t[j], 2) by {
      assert !BitOf(Ctrl2Done(failed), 2);
    }
    WaitExitNone(t, false);
  }

  /** Waiting while CALS is set reports exactly the calibration's outcome. */
  lemma {:induction false} CalibrateCorrectedReportsOutcome(busy: nat, done: nat, failed: bool)
    requires done >= 2
    ensures CalibrationOutcome(CalibrationTrace(busy, done, failed), true) == Some(!failed)
  {
    var t := CalibrationTrace(busy, done, failed);
    assert !BitOf(t[busy], 2);
    assert forall j :: 0 <= j < busy ==> BitOf(t[j], 2) by {
      assert BitOf(CTRL2_CALIBRATING, 2);
    }
    WaitExitFirst(t, true, busy);
    assert BitOf(t[busy + 1], 3) == failed;
  }

  class Nau7802 {
    const addr: int
    /** The register file as read and written over I2C. */
    var regs: seq<bv8>

    ghost predicate Valid()
      reads this
    {
      |regs| == REGISTER_COUNT
    }

    constructor (initial: seq<bv8>, addr: int)
      requires |initial| == REGISTER_COUNT
      ensures Valid() && regs == initial && this.addr == addr
    {
      regs := initial;
      this.addr := addr;
    }

    /** `_read_bit`: whether the register has bit `pos` set. */
    function ReadBit(reg: nat, pos: bv8): (b: bool)
      reads this
      requires Valid() && reg < REGISTER_COUNT && pos < 8
      ensures b <==> regs[reg] & Mask(pos, 1) != 0
    {
      BitOf(regs[reg], pos)
    }

    method WriteBit(reg: nat, pos: bv8, value: bool) returns (ok: bool)
      requires Valid() && reg < REGISTER_COUNT && pos < 8
      modifies this
      ensures Valid() && ok
      ensures regs == old(regs)[reg := WithBit(old(regs)[reg], pos, value)]
      ensures ReadBit(reg, pos) == value
    {
      regs := regs[reg := WithBit(regs[reg], pos, value)];
      BitRoundTrip(old(regs)[reg], pos, value);
      return true;
    }

    /** `_read_bits`: the `n`-bit field at `pos`, as a value below `2^n` that, shifted
        back into place, is the register with every other bit cleared. */
    function ReadBits(reg: nat, pos: bv8, n: bv8): (f: bv8)
      reads this
      requires Valid() && reg < REGISTER_COUNT && n <= 8 && pos <= 8 - n
      ensures f & LowMask(n) == f
      ensures f << pos == regs[reg] & Mask(pos, n)
    {
      FieldOf(regs[reg], pos, n)
    }

    method WriteBits(reg: nat, pos: bv8, n: bv8, value: int) returns (ok: bool)
      requires Valid() && reg < REGISTER_COUNT && n <= 8 && pos <= 8 - n
      modifies this
      ensures Valid() && ok
      ensures regs == old(regs)[reg := WithField(old(regs)[reg], pos, n, value)]
      ensures ReadBits(reg, pos, n) == Low8(value) & LowMask(n)
      ensures regs[reg] & !Mask(pos, n) == old(regs)[reg] & !Mask(pos, n)
    {
      regs := regs[reg := WithField(regs[reg], pos, n, value)];
      FieldRoundTrip(old(regs)[reg], pos, n, value);
      FieldFrame(old(regs)[reg], pos, n, value);
      ok := true;
    }

    /** `available`: the cycle-ready bit (PU_CTRL bit 5). */
    function Available(): (a: bool)
      reads this
      requires Valid()
      ensures a <==> regs[PU_CTRL] & 0x20 != 0
    {
      ReadBit(PU_CTRL, 5)
    }

    /** `read`: the three result registers from ADCO_B2 on, sign-extended from bit 23. */
    function Read(): (v: int)
      reads this
      requires Valid()
      ensures -0x80_0000 <= v < 0x80_0000
    {
      Decode24(ByteOf(regs[ADCO_B2]), ByteOf(regs[ADCO_B2 + 1]), ByteOf(regs[ADCO_B2 + 2]))
    }

    method SetGain(gain: int) returns (ok: bool)
      requires Valid()
      modifies this
      ensures Valid() && ok
      ensures regs == old(regs)[CTRL1 := WithField(old(regs)[CTRL1], 0, 3, gain)]
      ensures 0 <= gain < 8 ==> GetGain() == gain
      ensures FieldOf(regs[CTRL1], 3, 3) == FieldOf(old(regs)[CTRL1], 3, 3)
    {
      ok := WriteBits(CTRL1, 0, 3, gain);
      if 0 <= gain < 8 {
        ThreeBitValue(gain);
      }
      GainKeepsLdo(old(regs)[CTRL1], gain);
    }

    function GetGain(): (g: int)
      reads this
      requires Valid()
      ensures 0 <= g < 8
    {
      ThreeBitRange(regs[CTRL1], 0);
      ReadBits(CTRL1, 0, 3) as int
    }

    method SetRate(rate: int) returns (ok: bool)
      requires Valid()
      modifies this
      ensures Valid() && ok
      ensures regs == old(regs)[CTRL2 := WithField(old(regs)[CTRL2], 4, 3, rate)]
      ensures 0 <= rate < 8 ==> GetRate() == rate
      ensures FieldOf(regs[CTRL2], 0, 4) == FieldOf(old(regs)[CTRL2], 0, 4)
    {
      ok := WriteBits(CTRL2, 4, 3, rate);
      if 0 <= rate < 8 {
        ThreeBitValue(rate);
      }
      RateKeepsCalibration(old(regs)[CTRL2], rate);
    }

    function GetRate(): (r: int)
      reads this
      requires Valid()
      ensures 0 <= r < 8
    {
      ThreeBitRange(regs[CTRL2], 4);
      ReadBits(CTRL2, 4, 3) as int
    }

    method SetLDO(voltage: int) returns (ok: bool)
      requires Valid()
      modifies this
      ensures Valid() && ok
      ensures voltage == LDO_EXTERNAL ==> regs == old(regs)[PU_CTRL := WithBit(old(regs)[PU_CTRL], 7, false)]
      ensures voltage != LDO_EXTERNAL ==>
        regs == old(regs)[PU_CTRL := WithBit(old(regs)[PU_CTRL], 7, true)]
                         [CTRL1 := WithField(old(regs)[CTRL1], 3, 3, voltage)]
      ensures voltage == LDO_EXTERNAL || 0 <= voltage < 8 ==> GetLDO() == voltage
      ensures FieldOf(regs[CTRL1], 0, 3) == FieldOf(old(regs)[CTRL1], 0, 3)
    {
      if voltage == LDO_EXTERNAL {
        ok := WriteBit(PU_CTRL, 7, false);
        return;
      }
      ok := WriteBit(PU_CTRL, 7, true);
      if !ok {
        return;
      }
      ok := WriteBits(CTRL1, 3, 3, voltage);
      if 0 <= voltage < 8 {
        ThreeBitValue(voltage);
      }
      LdoKeepsGain(old(regs)[CTRL1], voltage);
    }

    /** `getLDO`: LDO_EXTERNAL when PU_CTRL bit 7 (AVDDS) is clear, else the CTRL1 field. */
    function GetLDO(): (v: int)
      reads this
      requires Valid()
      ensures v == LDO_EXTERNAL || 0 <= v < 8
      ensures v == LDO_EXTERNAL <==> !BitOf(regs[PU_CTRL], 7)
    {
      if !ReadBit(PU_CTRL, 7) then LDO_EXTERNAL
      else
        ThreeBitRange(regs[CTRL1], 3);
        ReadBits(CTRL1, 3, 3) as int
    }

    /** `reset`: returns the power-up-ready bit (PU_CTRL bit 3). */
    method Reset() returns (ready: bool)
      requires Valid()
      modifies this
      ensures Valid() && regs == AfterReset(old(regs))
      ensures ready == BitOf(old(regs)[PU_CTRL], 3)
      ensures !BitOf(regs[PU_CTRL], 0) && BitOf(regs[PU_CTRL], 1)
    {
      var _ := WriteBit(PU_CTRL, 0, true);
      var _ := WriteBit(PU_CTRL, 0, false);
      var _ := WriteBit(PU_CTRL, 1, true);
      ready := ReadBit(PU_CTRL, 3);
    }

    /** `enable`: powering down clears PUA and PUD and succeeds; powering up sets PUD,
        PUA and CS and returns the power-up-ready bit. */
    method Enable(enableFlag: bool) returns (ready: bool)
      requires Valid()
      modifies this
      ensures Valid()
      ensures !enableFlag ==>
        ready && regs == old(regs)[PU_CTRL := WithBit(WithBit(old(regs)[PU_CTRL], 2, false), 1, false)]
      ensures enableFlag ==> regs == AfterEnable(old(regs)) && ready == BitOf(old(regs)[PU_CTRL], 3)
    {
      if !enableFlag {
        var _ := WriteBit(PU_CTRL, 2, false);
        var _ := WriteBit(PU_CTRL, 1, false);
        return true;
      }
      var _ := WriteBit(PU_CTRL, 1, true);
      var _ := WriteBit(PU_CTRL, 2, true);
      var _ := WriteBit(PU_CTRL, 4, true);
      ready := ReadBit(PU_CTRL, 3);
    }

    /** `begin`: reset, power up, check the revision, configure. */
    method Begin() returns (ok: bool)
      requires Valid()
      modifies this
      ensures Valid()
      ensures ok <==> BitOf(old(regs)[PU_CTRL], 3) && RevisionOk(old(regs)[REVISION_ID])
      ensures !BitOf(old(regs)[PU_CTRL], 3) ==> regs == AfterReset(old(regs))
      ensures BitOf(old(regs)[PU_CTRL], 3) && !RevisionOk(old(regs)[REVISION_ID]) ==>
        regs == AfterEnable(AfterReset(old(regs)))
      ensures ok ==> regs == AfterConfigure(AfterEnable(AfterReset(old(regs))))
      ensures ok ==> GetLDO() == LDO_3V3 && GetGain() == GAIN_128 && GetRate() == RATE_10SPS
    {
      var ready := Reset();
      if !ready {
        return false;
      }
      ready := Enable(true);
      if !ready {
        return false;
      }
      var revId := regs[REVISION_ID];
      if revId & 0x0F != 0x0F {
        return false;
      }
      ok := SetLDO(LDO_3V3);
      if !ok {
        return;
      }
      ok := SetGain(GAIN_128);
      if !ok {
        return;
      }
      ok := SetRate(RATE_10SPS);
      if !ok {
        return;
      }
      ok := WriteBits(ADC, 4, 2, 0x3);
      if !ok {
        return;
      }
      ok := WriteBit(PGA, 6, false);
      if !ok {
        return;
      }
      ok := WriteBit(POWER, 7, true);
      if !ok {
        return;
      }
      return true;
    }

    /** The wait-and-check part of `calibrate`: polls CTRL2 while its CALS bit reads
        `waitWhile`, then reads it once more and returns the negated CAL_ERR bit.
        `polls` are the values CTRL2 shows on successive reads; `None` when the
        reads run out before the result is read. */
    method PollCalibration(polls: seq<bv8>, waitWhile: bool) returns (result: Option<bool>)
      requires Valid()
      modifies this
      ensures Valid()
      ensures result == CalibrationOutcome(polls, waitWhile)
      ensures regs[..CTRL2] == old(regs)[..CTRL2] && regs[CTRL2 + 1..] == old(regs)[CTRL2 + 1..]
      ensures polls == [] ==> regs == old(regs)
      ensures polls != [] ==> regs[CTRL2] in polls
      // CTRL2 holds the read that decided the outcome, or else the last read
      ensures result.Some? ==>
        WaitExit(polls, waitWhile).Some? && WaitExit(polls, waitWhile).value + 1 < |polls|
        && regs[CTRL2] == polls[WaitExit(polls, waitWhile).value + 1]
      ensures result.None? && polls != [] ==> regs[CTRL2] == polls[|polls| - 1]
    {
      var i := 0;
      while i < |polls| && BitOf(polls[i], 2) == waitWhile
        invariant 0 <= i <= |polls|
        invariant forall j :: 0 <= j < i ==> BitOf(polls[j], 2) == waitWhile
        invariant Valid()
        invariant regs[..CTRL2] == old(regs)[..CTRL2] && regs[CTRL2 + 1..] == old(regs)[CTRL2 + 1..]
        invariant i == 0 ==> regs == old(regs)
        invariant i > 0 ==> regs[CTRL2] == polls[i - 1]
      {
        regs := regs[CTRL2 := polls[i]];
        i := i + 1;
      }
      if i + 1 < |polls| {
        WaitExitFirst(polls, waitWhile, i);
        regs := regs[CTRL2 := polls[i + 1]];
        result := Some(!BitOf(polls[i + 1], 3));
      } else {
        if i < |polls| {
          WaitExitFirst(polls, waitWhile, i);
          regs := regs[CTRL2 := polls[i]];
        } else if i > 0 {
          WaitExitNone(polls, waitWhile);
        } else {
          WaitExitNone(polls, waitWhile);
        }
        result := None;
      }
    }

    /** `calibrate` as written: the wait loop polls WHILE the CALS bit reads 0. */
    method Calibrate(mode: int, polls: seq<bv8>) returns (result: Option<bool>)
      requires Valid()
      modifies this
      ensures Valid()
      ensures result == CalibrationOutcome(polls, false)
      ensures regs[..CTRL2] == old(regs)[..CTRL2] && regs[CTRL2 + 1..] == old(regs)[CTRL2 + 1..]
      ensures result.Some? ==>
        WaitExit(polls, false).Some? && WaitExit(polls, false).value + 1 < |polls|
        && regs[CTRL2] == polls[WaitExit(polls, false).value + 1]
      ensures result.None? && polls != [] ==> regs[CTRL2] == polls[|polls| - 1]
      ensures polls == [] ==> regs[CTRL2] == WithBit(WithField(old(regs)[CTRL2], 0, 2, mode), 2, true)
    {
      var _ := WriteBits(CTRL2, 0, 2, mode);
      var _ := WriteBit(CTRL2, 2, true);
      result := PollCalibration(polls, false);
    }

    /** `calibrate` with the wait loop polling while CALS reads 1, as the chip clears
        CALS when calibration ends. */
    method CalibrateCorrected(mode: int, polls: seq<bv8>) returns (result: Option<bool>)
      requires Valid()
      modifies this
      ensures Valid()
      ensures result == CalibrationOutcome(polls, true)
      ensures regs[..CTRL2] == old(regs)[..CTRL2] && regs[CTRL2 + 1..] == old(regs)[CTRL2 + 1..]
      ensures result.Some? ==>
        WaitExit(polls, true).Some? && WaitExit(polls, true).value + 1 < |polls|
        && regs[CTRL2] == polls[WaitExit(polls, true).value + 1]
      ensures result.None? && polls != [] ==> regs[CTRL2] == polls[|polls| - 1]
      ensures polls == [] ==> regs[CTRL2] == WithBit(WithField(old(regs)[CTRL2], 0, 2, mode), 2, true)
    {
      var _ := WriteBits(CTRL2, 0, 2, mode);
      var _ := WriteBit(CTRL2, 2, true);
      result := PollCalibration(polls, true);
    }
  }
}
