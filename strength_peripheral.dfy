/** The BLE peripheral of the strength monitor: it batches weight samples into
    notification frames, sends battery frames and turns control-point writes into
    a small connection/measuring state machine. The BLE stack itself is reduced to
    the events it delivers and a log of the notifications handed to it. */
module StrengthPeripheral {
  import opened Bytes
  import opened Opt

  // Command opcodes written by the central to the control characteristic.
  const OPCODE_TARE: byte := 0x64
  const OPCODE_START_MEASUREMENT: byte := 0x65
  const OPCODE_STOP_MEASUREMENT: byte := 0x66
  const OPCODE_CALIBRATE: byte := 0x67
  const OPCODE_SHUTDOWN: byte := 0x6E
  const OPCODE_BATTERY: byte := 0x6F

  // Response codes: byte 0 of every notification.
  const RESPONSE_BATTERY: byte := 0x00
  const RESPONSE_WEIGHT: byte := 0x01
  const RESPONSE_LOW_BATTERY: byte := 0x04

  /** Samples sent together in one weight notification. */
  const BATCH_SIZE: nat := 4
  /** A pending batch is also flushed once this many milliseconds have passed. */
  const SYNC_INTERVAL_MS: int := 25

  // MicroPython tick counters wrap around at TICKS_PERIOD (2^30 on the RP2040 port).
  const TICKS_PERIOD: int := 0x4000_0000
  const TICKS_HALF: int := 0x2000_0000

  type Tick = t: int | 0 <= t < TICKS_PERIOD

  /** `time.ticks_diff(a, b)`: the signed distance from `b` to `a` on the wrapping counter. */
  function TicksDiff(a: Tick, b: Tick): (d: int)
    ensures -TICKS_HALF <= d < TICKS_HALF
    ensures (b + d) % TICKS_PERIOD == a
  {
    var m := (a - b + TICKS_HALF) % TICKS_PERIOD;
    assert a - b + TICKS_HALF == TICKS_PERIOD * ((a - b + TICKS_HALF) / TICKS_PERIOD) + m;
    m - TICKS_HALF
  }

  /** The distance is exact for any elapsed time of less than half a period, across wrap-around. */
  lemma {:induction false} TicksDiffElapsed(b: Tick, e: int)
    requires -TICKS_HALF <= e < TICKS_HALF
    ensures 0 <= (b + e) % TICKS_PERIOD < TICKS_PERIOD
    ensures TicksDiff((b + e) % TICKS_PERIOD, b) == e
  {
    var a := (b + e) % TICKS_PERIOD;
    var k := (b + e) / TICKS_PERIOD;
    assert b + e == TICKS_PERIOD * k + a;
    assert a - b + TICKS_HALF == e + TICKS_HALF - TICKS_PERIOD * k;
    assert (e + TICKS_HALF - TICKS_PERIOD * k) % TICKS_PERIOD == e + TICKS_HALF;
  }

  /** One buffered sample: the weight and the microseconds since START. */
  datatype Sample = Sample(weight: Float32, delta: int32)

  /** `struct.pack("<fi", w, t)`. */
  function SampleBytes(s: Sample): (r: seq<byte>)
    ensures |r| == 8
  {
    U32LE(s.weight) + I32LE(s.delta)
  }

  /** The samples' bytes, each appended in buffer order. */
  function Payload(ss: seq<Sample>): (r: seq<byte>)
    ensures |r| == 8 * |ss|
  {
    if ss == [] then [] else Payload(ss[..|ss| - 1]) + SampleBytes(ss[|ss| - 1])
  }

  /** A batched weight notification: tag, sample count, then the samples. The count
      byte is stored modulo 256, as a MicroPython `bytearray` stores any int. */
  function WeightFrame(ss: seq<Sample>): seq<byte>
  {
    [RESPONSE_WEIGHT, |ss| % 256] + Payload(ss)
  }

  /** A battery notification: `struct.pack("<BI", RESPONSE_BATTERY, mv)`. */
  function BatteryFrame(mv: uint32): seq<byte>
  {
    [RESPONSE_BATTERY] + U32LE(mv)
  }

  lemma {:induction false} PayloadAt(ss: seq<Sample>, i: nat)
    requires i < |ss|
    ensures Payload(ss)[8 * i .. 8 * i + 8] == SampleBytes(ss[i])
    decreases |ss|
  {
    var init := ss[..|ss| - 1];
    assert Payload(ss) == Payload(init) + SampleBytes(ss[|ss| - 1]);
    if i < |ss| - 1 {
      PayloadAt(init, i);
      assert Payload(ss)[8 * i .. 8 * i + 8] == Payload(init)[8 * i .. 8 * i + 8];
    } else {
      assert Payload(ss)[8 * i .. 8 * i + 8] == SampleBytes(ss[|ss| - 1]);
    }
  }

  /** The layout of a weight frame: `2 + 8n` bytes, tag 0x01, count `n mod 256`, and
      sample `i` (float32 LE, then int32 LE) at offset `2 + 8i`, in buffer order. */
  lemma {:induction false} WeightFrameLayout(ss: seq<Sample>, i: nat)
    requires i < |ss|
    ensures |WeightFrame(ss)| == 2 + 8 * |ss|
    ensures WeightFrame(ss)[0] == RESPONSE_WEIGHT && WeightFrame(ss)[1] == |ss| % 256
    ensures WeightFrame(ss)[2 + 8 * i .. 2 + 8 * i + 4] == U32LE(ss[i].weight)
    ensures WeightFrame(ss)[2 + 8 * i + 4 .. 2 + 8 * i + 8] == I32LE(ss[i].delta)
  {
    PayloadAt(ss, i);
    var f := WeightFrame(ss);
    assert f[2 + 8 * i .. 2 + 8 * i + 8] == Payload(ss)[8 * i .. 8 * i + 8];
    assert f[2 + 8 * i .. 2 + 8 * i + 4] == SampleBytes(ss[i])[..4];
    assert f[2 + 8 * i + 4 .. 2 + 8 * i + 8] == SampleBytes(ss[i])[4..];
  }

  /** Reading one 8-byte sample back. */
  function SampleOf(b: seq<byte>): Sample
    requires |b| == 8
  {
    Sample(FromLE(b[..4]), FromI32LE(b[4..]))
  }

  /** The `n` samples an `8n`-byte payload holds. */
  function ParsePayload(b: seq<byte>, n: nat): seq<Sample>
    requires |b| == 8 * n
  {
    if n == 0 then [] else ParsePayload(b[..|b| - 8], n - 1) + [SampleOf(b[|b| - 8..])]
  }

  /** A reference reader of weight frames: the inverse of `WeightFrame`. */
  function ParseWeightFrame(f: seq<byte>): Option<seq<Sample>>
  {
    if |f| >= 2 && f[0] == RESPONSE_WEIGHT && |f| == 2 + 8 * (f[1] as int)
    then Some(ParsePayload(f[2..], f[1]))
    else None
  }

  lemma {:induction false} SampleRoundTrip(s: Sample)
    ensures SampleOf(SampleBytes(s)) == s
  {
    var b := SampleBytes(s);
    assert b[..4] == U32LE(s.weight);
    assert b[4..] == I32LE(s.delta);
    I32RoundTrip(s.delta);
  }

  lemma ParsePayloadSnoc(a: seq<byte>, n: nat, b: seq<byte>)
    requires |a| == 8 * n && |b| == 8
    ensures ParsePayload(a + b, n + 1) == ParsePayload(a, n) + [SampleOf(b)]
  {
    var c := a + b;
    assert c[..|c| - 8] == a && c[|c| - 8..] == b;
  }

  lemma {:induction false} PayloadRoundTrip(ss: seq<Sample>)
    ensures ParsePayload(Payload(ss), |ss|) == ss
    decreases |ss|
  {
    if ss != [] {
      var init := ss[..|ss| - 1];
      var last := ss[|ss| - 1];
      assert Payload(ss) == Payload(init) + SampleBytes(last);
      ParsePayloadSnoc(Payload(init), |init|, SampleBytes(last));
      PayloadRoundTrip(init);
      SampleRoundTrip(last);
      assert init + [last] == ss;
    }
  }

  /** Every weight frame the peripheral can build reads back as exactly its samples. */
  lemma {:induction false} WeightFrameRoundTrip(ss: seq<Sample>)
    requires |ss| < 256
    ensures ParseWeightFrame(WeightFrame(ss)) == Some(ss)
  {
    var f := WeightFrame(ss);
    assert |ss| % 256 == |ss|;
    assert f[0] == RESPONSE_WEIGHT && f[1] == |ss| && |f| == 2 + 8 * |ss|;
    assert f[2..] == Payload(ss);
    PayloadRoundTrip(ss);
  }

  /** A frame of 256 or more samples has a wrapped count byte: its length disagrees
      with the count, so the reader rejects it instead of misreading it. */
  lemma {:induction false} OverfullFrameRejected(ss: seq<Sample>)
    requires |ss| >= 256
    ensures WeightFrame(ss)[1] != |ss|
    ensures ParseWeightFrame(WeightFrame(ss)) == None
  {
    var f := WeightFrame(ss);
    assert f[1] == |ss| % 256 < 256 <= |ss|;
    assert |f| == 2 + 8 * |ss| != 2 + 8 * (f[1] as int);
  }

  /** The battery frame is five bytes: tag 0x00 and the millivolts as uint32 LE. */
  lemma BatteryFrameLayout(mv: uint32)
    ensures |BatteryFrame(mv)| == 5 && BatteryFrame(mv)[0] == RESPONSE_BATTERY
    ensures FromLE(BatteryFrame(mv)[1..]) == mv
  {
    assert BatteryFrame(mv)[1..] == U32LE(mv);
  }

  /** The known weight carried by a CALIBRATE write: bytes 2..5 read as float32,
      after the opcode and length bytes; a write of fewer than six bytes carries none. */
  function CalibrationWeight(value: seq<byte>): (w: Option<Float32>)
    ensures w.Some? <==> |value| >= 6
  {
    if |value| >= 6 then Some(FromLE(value[2..6])) else None
  }

  /** The CALIBRATE command as a central writes it: `[0x67, 4, float32 LE]`. */
  function CalibrateCommand(w: Float32): seq<byte>
  {
    [OPCODE_CALIBRATE, 4] + U32LE(w)
  }

  lemma {:induction false} CalibrateCommandRoundTrip(w: Float32)
    ensures |CalibrateCommand(w)| == 6 && CalibrateCommand(w)[0] == OPCODE_CALIBRATE
    ensures CalibrationWeight(CalibrateCommand(w)) == Some(w)
  {
    assert CalibrateCommand(w)[2..6] == U32LE(w);
  }

  /** The argument handed to the general command callback: the bytes after the opcode. */
  function CommandArgument(value: seq<byte>): (a: Option<seq<byte>>)
    requires |value| > 0
    ensures a.Some? <==> |value| > 1
    ensures a.Some? ==> [value[0]] + a.value == value
  {
    if |value| > 1 then Some(value[1..]) else None
  }

  /** The frame-building loop of `send_weight_measurement`: the header, then each
      sample's bytes in turn. */
  method BuildWeightFrame(buffer: seq<Sample>) returns (data: seq<byte>)
    ensures data == WeightFrame(buffer)
  {
    data := [RESPONSE_WEIGHT, |buffer| % 256];
    var i := 0;
    while i < |buffer|
      invariant 0 <= i <= |buffer|
      invariant data == [RESPONSE_WEIGHT, |buffer| % 256] + Payload(buffer[..i])
    {
      assert buffer[..i + 1][..i] == buffer[..i];
      data := data + SampleBytes(buffer[i]);
      i := i + 1;
    }
    assert buffer[..i] == buffer;
  }

  /** One call of `gatts_notify` per recipient, with the same frame. */
  datatype Notification = Notification(recipients: set<int>, frame: seq<byte>)

  /** Calls of the callbacks the application registered. */
  datatype CallbackCall =
    | TareCalled
    | CalibrateCalled(knownWeight: Float32)
    | CommandCalled(opcode: byte, argument: Option<seq<byte>>)

  /** The measuring flag after a control write: START sets it, STOP clears it, an
      empty write or any other opcode keeps it. */
  function MeasuringAfter(value: seq<byte>, measuring: bool): bool
  {
    if value == [] then measuring
    else if value[0] == OPCODE_START_MEASUREMENT then true
    else if value[0] == OPCODE_STOP_MEASUREMENT then false
    else measuring
  }

  /** The measurement start tick after a control write: only START records `nowUs`. */
  function StartTimeAfter(value: seq<byte>, nowUs: Tick, start: Tick): Tick
  {
    if value != [] && value[0] == OPCODE_START_MEASUREMENT then nowUs else start
  }

  /** The callbacks a control write calls, in order: tare, or calibrate with the
      known weight of a write of at least six bytes, when registered; then the
      general command callback with the opcode and the argument, when registered.
      A tare or calibrate callback that raises (`raises`) ends the handler in its
      `except`, so the command callback is then not called. An empty write calls none. */
  function CommandCalls(value: seq<byte>, hasTare: bool, hasCommand: bool, hasCalibrate: bool,
                        raises: bool): seq<CallbackCall>
  {
    if value == [] then []
    else
      var op := value[0];
      var first :=
        if op == OPCODE_TARE && hasTare then [TareCalled]
        else if op == OPCODE_CALIBRATE && |value| >= 6 && hasCalibrate
        then [CalibrateCalled(CalibrationWeight(value).value)]
        else [];
      first + (if hasCommand && !(raises && first != []) then [CommandCalled(op, CommandArgument(value))] else [])
  }

  /** A tare or calibrate callback that raises ends the write there: the general
      command callback is called only when the first one returns. */
  lemma {:induction false} RaisingCallbackSkipsCommand(value: seq<byte>, hasTare: bool, hasCalibrate: bool)
    requires value != [] && value[0] == OPCODE_TARE && hasTare
    ensures CommandCalls(value, hasTare, true, hasCalibrate, true) == [TareCalled]
    ensures CommandCalls(value, hasTare, true, hasCalibrate, false)
            == [TareCalled, CommandCalled(OPCODE_TARE, CommandArgument(value))]
  {
  }

  /** The BLE events the IRQ handler distinguishes (1, 2, 3), with the value the
      control characteristic holds at a write; any other event code is ignored. */
  datatype BleEvent =
    | CentralConnect(connHandle: int)
    | CentralDisconnect(connHandle: int)
    | GattsWrite(connHandle: int, valueHandle: int, value: seq<byte>)
    | OtherEvent(code: int)

  class Peripheral {
    const dataHandle: int
    const controlHandle: int

    var connections: set<int>
    var measuring: bool
    var measurementStartTime: Tick
    var sampleBuffer: seq<Sample>
    var lastSyncTime: Tick

    var hasTareCallback: bool
    var hasCommandCallback: bool
    var hasCalibrateCallback: bool

    /** Notifications handed to the BLE stack, oldest first. */
    var sent: seq<Notification>
    /** Callback invocations, oldest first. */
    var calls: seq<CallbackCall>
    /** How many times advertising was started. */
    var advertisements: nat

    /** The handles are those `gatts_register_services` assigns. */
    constructor (dataHandle: int, controlHandle: int)
      ensures this.dataHandle == dataHandle && this.controlHandle == controlHandle
      ensures connections == {} && !measuring && measurementStartTime == 0
      ensures sampleBuffer == [] && lastSyncTime == 0
      ensures !hasTareCallback && !hasCommandCallback && !hasCalibrateCallback
      ensures sent == [] && calls == [] && advertisements == 1
    {
      this.dataHandle := dataHandle;
      this.controlHandle := controlHandle;
      connections := {};
      measuring := false;
      measurementStartTime := 0;
      sampleBuffer := [];
      lastSyncTime := 0;
      hasTareCallback, hasCommandCallback, hasCalibrateCallback := false, false, false;
      sent, calls := [], [];
      advertisements := 1;
    }

    function IsConnected(): (r: bool)
      reads this
      ensures r <==> connections != {}
    {
      |connections| > 0
    }

    function IsMeasuring(): bool
      reads this
    {
      measuring
    }

    method OnTare()
      modifies this
      ensures hasTareCallback
      ensures hasCommandCallback == old(hasCommandCallback) && hasCalibrateCallback == old(hasCalibrateCallback)
      ensures connections == old(connections) && measuring == old(measuring)
      ensures measurementStartTime == old(measurementStartTime)
      ensures sampleBuffer == old(sampleBuffer) && lastSyncTime == old(lastSyncTime)
      ensures sent == old(sent) && calls == old(calls) && advertisements == old(advertisements)
    {
      hasTareCallback := true;
    }

    method OnCommand()
      modifies this
      ensures hasCommandCallback
      ensures hasTareCallback == old(hasTareCallback) && hasCalibrateCallback == old(hasCalibrateCallback)
      ensures connections == old(connections) && measuring == old(measuring)
      ensures measurementStartTime == old(measurementStartTime)
      ensures sampleBuffer == old(sampleBuffer) && lastSyncTime == old(lastSyncTime)
      ensures sent == old(sent) && calls == old(calls) && advertisements == old(advertisements)
    {
      hasCommandCallback := true;
    }

    method OnCalibrate()
      modifies this
      ensures hasCalibrateCallback
      ensures hasTareCallback == old(hasTareCallback) && hasCommandCallback == old(hasCommandCallback)
      ensures connections == old(connections) && measuring == old(measuring)
      ensures measurementStartTime == old(measurementStartTime)
      ensures sampleBuffer == old(sampleBuffer) && lastSyncTime == old(lastSyncTime)
      ensures sent == old(sent) && calls == old(calls) && advertisements == old(advertisements)
    {
      hasCalibrateCallback := true;
    }

    /** A write to the control characteristic, at time `nowUs` (`time.ticks_us()`);
        `raises` says whether the tare or calibrate callback raises when called. */
    method HandleCommand(value: seq<byte>, nowUs: Tick, raises: bool)
      modifies this
      ensures measuring == MeasuringAfter(value, old(measuring))
      ensures measurementStartTime == StartTimeAfter(value, nowUs, old(measurementStartTime))
      ensures calls == old(calls) + CommandCalls(value, hasTareCallback, hasCommandCallback, hasCalibrateCallback, raises)
      ensures connections == old(connections) && sampleBuffer == old(sampleBuffer)
      ensures lastSyncTime == old(lastSyncTime) && sent == old(sent) && advertisements == old(advertisements)
      ensures hasTareCallback == old(hasTareCallback) && hasCommandCallback == old(hasCommandCallback)
      ensures hasCalibrateCallback == old(hasCalibrateCallback)
    {
      if |value| == 0 {
        return;
      }
      var opcode := value[0];
      // the tare or calibrate callback called, if any
      var first: seq<CallbackCall> := [];
      if opcode == OPCODE_TARE {
        if hasTareCallback {
          first := [TareCalled];
        }
      } else if opcode == OPCODE_START_MEASUREMENT {
        measuring := true;
        measurementStartTime := nowUs;
      } else if opcode == OPCODE_STOP_MEASUREMENT {
        measuring := false;
      } else if opcode == OPCODE_CALIBRATE {
        if |value| >= 6 {
          var knownWeight := FromLE(value[2..6]);
          if hasCalibrateCallback {
            first := [CalibrateCalled(knownWeight)];
          }
        }
      }
      calls := calls + first;
      if raises && first != [] {
        return;
      }
      if hasCommandCallback {
        calls := calls + [CommandCalled(opcode, if |value| > 1 then Some(value[1..]) else None)];
      }
    }

    /** The IRQ handler: connections join the set, a known handle leaving clears
        measuring and restarts advertising, control writes are dispatched. */
    method IrqHandler(event: BleEvent, nowUs: Tick, raises: bool)
      modifies this
      ensures event.CentralConnect? ==>
        connections == old(connections) + {event.connHandle}
        && measuring == old(measuring) && advertisements == old(advertisements)
      ensures event.CentralDisconnect? && event.connHandle in old(connections) ==>
        connections == old(connections) - {event.connHandle}
        && !measuring && advertisements == old(advertisements) + 1
      ensures event.CentralDisconnect? && event.connHandle !in old(connections) ==>
        connections == old(connections) && measuring == old(measuring)
        && advertisements == old(advertisements)
      ensures !(event.GattsWrite? && event.valueHandle == controlHandle) ==>
        measurementStartTime == old(measurementStartTime) && calls == old(calls)
      ensures event.OtherEvent? || (event.GattsWrite? && event.valueHandle != controlHandle) ==>
        connections == old(connections) && measuring == old(measuring)
        && advertisements == old(advertisements)
      ensures event.GattsWrite? && event.valueHandle == controlHandle ==>
        connections == old(connections) && advertisements == old(advertisements)
        && measuring == MeasuringAfter(event.value, old(measuring))
        && measurementStartTime == StartTimeAfter(event.value, nowUs, old(measurementStartTime))
        && calls == old(calls) + CommandCalls(event.value, hasTareCallback, hasCommandCallback, hasCalibrateCallback, raises)
      ensures sampleBuffer == old(sampleBuffer) && lastSyncTime == old(lastSyncTime) && sent == old(sent)
      ensures hasTareCallback == old(hasTareCallback) && hasCommandCallback == old(hasCommandCallback)
      ensures hasCalibrateCallback == old(hasCalibrateCallback)
    {
      match event
      case CentralConnect(h) =>
        connections := connections + {h};
      case CentralDisconnect(h) =>
        if h in connections {
          connections := connections - {h};
          measuring := false;
          advertisements := advertisements + 1;
        }
      case GattsWrite(_, valueHandle, value) =>
        if valueHandle == controlHandle {
          HandleCommand(value, nowUs, raises);
        }
      case OtherEvent(_) =>
    }

    /** `send_weight_measurement`. `nowUs` and `nowMs` are the tick counters at the
        call; `notifyFails` says whether `gatts_notify` raises. */
    method SendWeightMeasurement(weight: Float32, nowUs: Tick, nowMs: Tick, notifyFails: bool)
      returns (ok: bool)
      modifies this
      ensures !(old(IsConnected()) && old(measuring)) ==>
        !ok && sampleBuffer == old(sampleBuffer) && lastSyncTime == old(lastSyncTime) && sent == old(sent)
      ensures old(IsConnected()) && old(measuring) ==>
        var buffer := old(sampleBuffer) + [Sample(weight, TicksDiff(nowUs, old(measurementStartTime)))];
        var due := |buffer| >= BATCH_SIZE || TicksDiff(nowMs, old(lastSyncTime)) >= SYNC_INTERVAL_MS;
        if !due then
          ok && sampleBuffer == buffer && lastSyncTime == old(lastSyncTime) && sent == old(sent)
        else if notifyFails then
          !ok && sampleBuffer == buffer && lastSyncTime == old(lastSyncTime) && sent == old(sent)
        else
          ok && sampleBuffer == [] && lastSyncTime == nowMs
          && sent == old(sent) + [Notification(connections, WeightFrame(buffer))]
      ensures ok ==> |sampleBuffer| < BATCH_SIZE
      ensures !notifyFails && |old(sampleBuffer)| < BATCH_SIZE ==> |sampleBuffer| < BATCH_SIZE
      ensures connections == old(connections) && measuring == old(measuring)
      ensures measurementStartTime == old(measurementStartTime)
      ensures calls == old(calls) && advertisements == old(advertisements)
      ensures hasTareCallback == old(hasTareCallback) && hasCommandCallback == old(hasCommandCallback)
      ensures hasCalibrateCallback == old(hasCalibrateCallback)
    {
      if !IsConnected() || !IsMeasuring() {
        return false;
      }
      var timeDelta := TicksDiff(nowUs, measurementStartTime);
      sampleBuffer := sampleBuffer + [Sample(weight, timeDelta)];
      if |sampleBuffer| >= BATCH_SIZE || TicksDiff(nowMs, lastSyncTime) >= SYNC_INTERVAL_MS {
        var data := BuildWeightFrame(sampleBuffer);
        if notifyFails {
          return false;
        }
        sent := sent + [Notification(connections, data)];
        sampleBuffer := [];
        lastSyncTime := nowMs;
      }
      return true;
    }

    /** `send_battery_level`: only when connected. MicroPython's `struct.pack("<BI", ...)`
        keeps the low 32 bits of any int, so a value outside the word range is sent
        modulo 2^32 rather than refused. */
    method SendBatteryLevel(voltageMv: int, notifyFails: bool) returns (ok: bool)
      modifies this
      ensures ok <==> old(IsConnected()) && !notifyFails
      ensures ok ==> sent == old(sent) + [Notification(connections, BatteryFrame(voltageMv % TWO32))]
      ensures !ok ==> sent == old(sent)
      ensures connections == old(connections) && measuring == old(measuring)
      ensures measurementStartTime == old(measurementStartTime)
      ensures sampleBuffer == old(sampleBuffer) && lastSyncTime == old(lastSyncTime)
      ensures calls == old(calls) && advertisements == old(advertisements)
      ensures hasTareCallback == old(hasTareCallback) && hasCommandCallback == old(hasCommandCallback)
      ensures hasCalibrateCallback == old(hasCalibrateCallback)
    {
      if !IsConnected() {
        return false;
      }
      if notifyFails {
        return false;
      }
      sent := sent + [Notification(connections, BatteryFrame(voltageMv % TWO32))];
      return true;
    }
  }
}
