/** `AP_AR_Ecu`: the ECU telemetry receiver. Each update reads whatever the port
    holds into the 113-byte receive buffer, decodes six fields, integrates the
    fuel ledger and sends the 3-byte request for the next report. */
module ArEcu {
  import opened Common
  import opened EcuTelemetry

  /** Reports of at least this many bytes make the link healthy. */
  const HEALTHY_BYTES: int := 110
  /** `_payload_counter` is a uint8_t. */
  const COUNTER_MODULUS: nat := 0x100
  /** `CMD_READ_DATA`, the character 'a'. */
  const CMD_READ_DATA: uint8 := 0x61
  /** Larger gaps between updates are not integrated. */
  const MAX_GAP_MICROS: nat := 2000000
  /** Default of the FUEL_K parameter. */
  const DEFAULT_FUEL_K: real := 1.05833

  // ---------------------------------------------------------------------------
  // Filling the receive buffer

  /** Byte number i of a report stored at slot `i mod 256` (the uint8_t
      counter), when that slot is inside the buffer. */
  function Store(buf: seq<uint8>, i: nat, b: uint8): (r: seq<uint8>)
    ensures |r| == |buf|
  {
    var slot := i % COUNTER_MODULUS;
    if slot < |buf| then buf[slot := b] else buf
  }

  /** The receive buffer after the bytes `bs` have been read. */
  function Fill(buf: seq<uint8>, bs: seq<uint8>): (r: seq<uint8>)
    ensures |r| == |buf|
    decreases |bs|
  {
    if bs == [] then buf
    else Store(Fill(buf, bs[..|bs| - 1]), |bs| - 1, bs[|bs| - 1])
  }

  /** Among the first n bytes, the last one whose counter value is j: no
      later byte is stored in slot j. */
  function LastWriter(n: nat, j: nat): (i: nat)
    requires j < n && j < COUNTER_MODULUS
    ensures i < n && i % COUNTER_MODULUS == j
    ensures forall k :: i < k < n ==> k % COUNTER_MODULUS != j
    decreases n
  {
    if (n - 1) % COUNTER_MODULUS == j then n - 1 else LastWriter(n - 1, j)
  }

  /** Slot j holds the last byte read whose counter value was j, or its old
      content when no byte reached it. */
  lemma {:induction false} FillAt(buf: seq<uint8>, bs: seq<uint8>, j: nat)
    requires |buf| <= COUNTER_MODULUS && j < |buf|
    ensures Fill(buf, bs)[j] == if j < |bs| then bs[LastWriter(|bs|, j)] else buf[j]
    decreases |bs|
  {
    if bs != [] {
      var n := |bs|;
      var prev := Fill(buf, bs[..n - 1]);
      FillAt(buf, bs[..n - 1], j);
      assert Fill(buf, bs) == Store(prev, n - 1, bs[n - 1]);
      if (n - 1) % COUNTER_MODULUS == j {
        assert Fill(buf, bs)[j] == bs[n - 1];
      } else {
        assert Fill(buf, bs)[j] == prev[j];
      }
    }
  }

  /** A report no longer than the buffer lands at its start, in order; the
      rest of the buffer keeps the previous report's bytes. */
  lemma FillShort(buf: seq<uint8>, bs: seq<uint8>)
    requires |bs| <= |buf| <= COUNTER_MODULUS
    ensures Fill(buf, bs) == bs + buf[|bs|..]
  {
    var r := Fill(buf, bs);
    var expected := bs + buf[|bs|..];
    forall j | 0 <= j < |buf|
      ensures r[j] == expected[j]
    {
      FillAt(buf, bs, j);
      if j < |bs| {
        var i := LastWriter(|bs|, j);
        assert i < COUNTER_MODULUS;
        assert i == j;
        assert expected[j] == bs[j];
      } else {
        assert expected[j] == buf[j];
      }
    }
    assert |r| == |expected|;
  }

  /** One more byte read is stored after the others. */
  lemma FillSnoc(buf: seq<uint8>, bs: seq<uint8>, b: uint8)
    ensures Fill(buf, bs + [b]) == Store(Fill(buf, bs), |bs|, b)
  {
    var s := bs + [b];
    assert s[..|s| - 1] == bs;
  }

  /** The uint8_t counter steps with the byte count. */
  lemma CounterStep(i: nat)
    ensures (i % COUNTER_MODULUS + 1) % COUNTER_MODULUS == (i + 1) % COUNTER_MODULUS
  {
  }

  // ---------------------------------------------------------------------------
  // The fuel ledger

  /** `_fuel_instant`, `_fuel_consumed`, `_fuel_remaining` and `_last_time_micros`. */
  datatype FuelLedger = FuelLedger(instant: real, consumed: real, remaining: real, lastTime: uint32)

  /** `_fuel_ecuation_k * pulsewidth * rps` in ml/s, with rps the integer
      quotient rpm / 60. */
  function FuelRate(k: real, pulseWidth1: uint16, rpm: uint16): (r: real)
    ensures rpm < 60 ==> r == 0.0
    ensures k >= 0.0 ==> r >= 0.0
  {
    var pw := (pulseWidth1 as real) * 0.000001;
    var rps := (rpm / 60) as real;
    assert pw >= 0.0 && rps >= 0.0;
    assert rpm < 60 ==> rps == 0.0;
    assert k >= 0.0 ==> k * pw >= 0.0;
    k * pw * rps
  }

  /** The integration gate: a baseline exists and the wrapped gap is short. */
  predicate Integrates(lastTime: uint32, now: uint32) {
    lastTime != 0 && Elapsed(lastTime, now) < MAX_GAP_MICROS
  }

  /** `calc_fuel_consumption` at time `now` with the given rate. */
  function FuelStep(f: FuelLedger, rate: real, now: uint32): (r: FuelLedger)
    ensures r.lastTime == now && r.instant == rate * 3.6
    ensures r.consumed + r.remaining == f.consumed + f.remaining
    ensures !Integrates(f.lastTime, now) ==> r.consumed == f.consumed && r.remaining == f.remaining
    ensures Integrates(f.lastTime, now) && rate >= 0.0 ==> r.consumed >= f.consumed
  {
    var burnt := rate * (Elapsed(f.lastTime, now) as real) * 0.000000001;
    var g := f.(instant := rate * 3.6, lastTime := now);
    if Integrates(f.lastTime, now) then g.(consumed := f.consumed + burnt, remaining := f.remaining - burnt)
    else g
  }

  /** Every step records the time; what it moves from remaining to consumed is
      the rate times the gap when the gate is open and nothing otherwise; the
      sum of the two never changes, and remaining has no floor. */
  lemma FuelStepMoves(f: FuelLedger, rate: real, now: uint32)
    ensures var g := FuelStep(f, rate, now);
      && g.lastTime == now && g.instant == rate * 3.6
      && g.consumed - f.consumed == f.remaining - g.remaining
      && g.consumed - f.consumed ==
           (if Integrates(f.lastTime, now) then rate * (Elapsed(f.lastTime, now) as real) * 0.000000001 else 0.0)
  {
  }

  /** The first sample only sets the baseline. */
  lemma FirstSampleOnlyRecordsTime(f: FuelLedger, rate: real, now: uint32)
    requires f.lastTime == 0
    ensures var g := FuelStep(f, rate, now);
      g.consumed == f.consumed && g.remaining == f.remaining && g.lastTime == now
  {
  }

  /** A gap of two seconds or more (also one produced by a clock wrap) is
      skipped, but the new time is still recorded. */
  lemma LongGapSkipped(f: FuelLedger, rate: real, now: uint32)
    requires Elapsed(f.lastTime, now) >= MAX_GAP_MICROS
    ensures var g := FuelStep(f, rate, now);
      g.consumed == f.consumed && g.remaining == f.remaining && g.lastTime == now
  {
  }

  /** Two samples one second apart, the first with a baseline already set,
      consume exactly rate * 10^-3 (ml/s over 10^6 us, in litres). */
  lemma OneSecondApart(f: FuelLedger, rate: real)
    requires f.lastTime != 0 && f.lastTime + 1000000 < 0x1_0000_0000
    ensures FuelStep(f, rate, f.lastTime + 1000000).consumed == f.consumed + rate * 0.001
  {
  }

  /** A run of updates, each with its own rate and time. */
  function FuelRun(f: FuelLedger, samples: seq<(real, uint32)>): (g: FuelLedger)
    decreases |samples|
  {
    if samples == [] then f
    else
      var last := samples[|samples| - 1];
      FuelStep(FuelRun(f, samples[..|samples| - 1]), last.0, last.1)
  }

  /** Over any run, consumed rises by what remaining falls, with a
      non-negative rate consumed never goes down, and the last time is
      recorded. */
  lemma {:induction false} FuelRunConserves(f: FuelLedger, samples: seq<(real, uint32)>)
    requires forall i :: 0 <= i < |samples| ==> samples[i].0 >= 0.0
    ensures var g := FuelRun(f, samples);
      && g.consumed + g.remaining == f.consumed + f.remaining
      && g.consumed >= f.consumed
      && (samples != [] ==> g.lastTime == samples[|samples| - 1].1)
    decreases |samples|
  {
    if samples != [] {
      var prev := samples[..|samples| - 1];
      var last := samples[|samples| - 1];
      FuelRunConserves(f, prev);
      var p := FuelRun(f, prev);
      FuelStepMoves(p, last.0, last.1);
      var d := (Elapsed(p.lastTime, last.1) as real) * 0.000000001;
      assert last.0 * (Elapsed(p.lastTime, last.1) as real) * 0.000000001 == last.0 * d;
      assert last.0 * d >= 0.0;
    }
  }

  // ---------------------------------------------------------------------------
  // The driver object

  class Ecu {
    const buffer: array<uint8>

    var initialised: bool
    var payloadCounter: uint8
    var healthy: bool
    var pulseWidth1: uint16
    var rpm: uint16
    var barometer: int16
    var coolant: int16
    var tps: int16
    var batteryVoltage: int16
    var fuelK: real          // the FUEL_K parameter, _fuel_ecuation_k
    var fuelInstant: real
    var fuelConsumed: real
    var fuelRemaining: real
    var lastTimeMicros: uint32

    /** The six decoded fields. */
    function Decoded(): Telemetry
      reads this
    {
      Telemetry(pulseWidth1, rpm, barometer, coolant, tps, batteryVoltage)
    }

    function Ledger(): FuelLedger
      reads this
    {
      FuelLedger(fuelInstant, fuelConsumed, fuelRemaining, lastTimeMicros)
    }

    /** `healthy()`. */
    function Healthy(): bool
      reads this
    {
      healthy
    }

    /** `get_rpm()`. */
    function GetRpm(): uint16
      reads this
    {
      rpm
    }

    /** The buffer has the struct's size and the six fields are what
        `parse_body` last read out of it. */
    ghost predicate Valid()
      reads this, buffer
    {
      buffer.Length == TELEMETRY_SIZE && Decoded() == Decode(buffer[..])
    }

    /** A driver in static storage: zero everywhere, not healthy, no baseline
        time, FUEL_K at its default. */
    constructor ()
      ensures Valid() && fresh(buffer) && buffer[..] == seq(TELEMETRY_SIZE, _ => 0)
      ensures !initialised && !Healthy() && lastTimeMicros == 0 && fuelK == DEFAULT_FUEL_K
      ensures Decoded() == Telemetry(0, 0, 0, 0, 0, 0) && Ledger() == FuelLedger(0.0, 0.0, 0.0, 0)
    {
      buffer := new uint8[TELEMETRY_SIZE](_ => 0);
      initialised, payloadCounter, healthy := false, 0, false;
      pulseWidth1, rpm, barometer, coolant, tps, batteryVoltage := 0, 0, 0, 0, 0, 0;
      fuelK := DEFAULT_FUEL_K;
      fuelInstant, fuelConsumed, fuelRemaining, lastTimeMicros := 0.0, 0.0, 0.0, 0;
      new;
      assert buffer[..] == seq(TELEMETRY_SIZE, _ => 0);
    }

    /** `init`: the serial manager's lookup is an input. */
    method Init(portFound: bool)
      modifies this`initialised
      ensures initialised == (old(initialised) || portFound)
    {
      if portFound {
        initialised := true;
      }
    }

    /** `set_current_fuel`: only an initialised driver takes the new value. */
    method SetCurrentFuel(fuel: real)
      modifies this`fuelRemaining
      ensures fuelRemaining == if initialised then fuel else old(fuelRemaining)
    {
      if !initialised {
        return;
      }
      fuelRemaining := fuel;
    }

    /** The read loop of `read_incoming` for `available >= 0`. */
    method FillBuffer(available: int16, rx: seq<uint8>) returns (consumed: nat)
      requires buffer.Length == TELEMETRY_SIZE && 0 <= available <= |rx|
      modifies this`payloadCounter, buffer
      ensures consumed == available
      ensures buffer[..] == Fill(old(buffer[..]), rx[..available])
    {
      payloadCounter := 0;
      consumed := 0;
      ghost var before := buffer[..];
      var i := 0;
      while i < available
        invariant 0 <= i <= available && consumed == i
        invariant payloadCounter == i % COUNTER_MODULUS
        invariant buffer[..] == Fill(before, rx[..i])
      {
        var data := rx[i];
        assert rx[..i + 1] == rx[..i] + [data];
        FillSnoc(before, rx[..i], data);
        CounterStep(i);
        if payloadCounter < buffer.Length {
          buffer[payloadCounter] := data;
        }
        payloadCounter := (payloadCounter + 1) % COUNTER_MODULUS;
        consumed := consumed + 1;
        i := i + 1;
        if payloadCounter == available {
          break;
        }
      }
    }

    /** `parse_body`. */
    method ParseBody()
      requires buffer.Length == TELEMETRY_SIZE
      modifies this`pulseWidth1, this`rpm, this`barometer, this`coolant, this`tps, this`batteryVoltage
      ensures Valid()
    {
      var t := Decode(buffer[..]);
      pulseWidth1, rpm, barometer := t.pulseWidth1, t.rpm, t.barometer;
      coolant, tps, batteryVoltage := t.coolant, t.tps, t.batteryVoltage;
    }

    /** `read_incoming`: `available` is `available()` as the int16_t the
        source keeps it in, `rx` the bytes `read()` returns; `consumed` is how
        many of them were read. */
    method ReadIncoming(available: int16, rx: seq<uint8>) returns (consumed: nat)
      requires Valid()
      requires available < 0 || available <= |rx|
      modifies this`healthy, this`payloadCounter, buffer
      modifies this`pulseWidth1, this`rpm, this`barometer, this`coolant, this`tps, this`batteryVoltage
      ensures Valid() && Healthy() == (available >= HEALTHY_BYTES)
      ensures available < 0 ==>
                consumed == 0 && buffer[..] == old(buffer[..]) && Decoded() == old(Decoded())
      ensures available == 0 ==> buffer[..] == old(buffer[..]) && Decoded() == old(Decoded())
      ensures available >= 0 ==>
                && consumed == available
                && buffer[..] == Fill(old(buffer[..]), rx[..available])
                && Decoded() == Decode(buffer[..])
    {
      if available < HEALTHY_BYTES {
        healthy := false;
      } else {
        healthy := true;
      }
      if available < 0 {
        return 0;
      }
      consumed := FillBuffer(available, rx);
      assert available == 0 ==> rx[..available] == [];
      ParseBody();
    }

    /** `calc_fuel_consumption` at `now` (`AP_HAL::micros()`). */
    method CalcFuelConsumption(now: uint32)
      modifies this`fuelInstant, this`fuelConsumed, this`fuelRemaining, this`lastTimeMicros
      ensures !initialised ==> Ledger() == old(Ledger())
      ensures initialised ==> Ledger() == FuelStep(old(Ledger()), FuelRate(fuelK, pulseWidth1, rpm), now)
    {
      if !initialised {
        return;
      }
      var dt := Elapsed(lastTimeMicros, now);
      var fuelRate := FuelRate(fuelK, pulseWidth1, rpm);
      fuelInstant := fuelRate * 3.6;
      if lastTimeMicros != 0 && dt < MAX_GAP_MICROS {
        var burnt := fuelRate * (dt as real) * 0.000000001;
        fuelConsumed := fuelConsumed + burnt;
        fuelRemaining := fuelRemaining - burnt;
      }
      lastTimeMicros := now;
    }

    /** `update`: read, integrate, then send 'a' 0x00 0x06, each byte only if
        there is room for it. */
    method Update(available: int16, rx: seq<uint8>, now: uint32, tx: TxPort)
      returns (consumed: nat, r: TxPort)
      requires Valid()
      requires available < 0 || available <= |rx|
      modifies this, buffer
      ensures Valid() && initialised == old(initialised) && fuelK == old(fuelK)
      ensures !initialised ==>
                && consumed == 0 && r == tx && buffer[..] == old(buffer[..])
                && Healthy() == old(Healthy()) && Decoded() == old(Decoded()) && Ledger() == old(Ledger())
      ensures initialised ==>
                && Healthy() == (available >= HEALTHY_BYTES)
                && consumed == (if available < 0 then 0 else available)
                && buffer[..] == (if available < 0 then old(buffer[..]) else Fill(old(buffer[..]), rx[..available]))
                && Decoded() == (if available <= 0 then old(Decoded()) else Decode(buffer[..]))
                && Ledger() == FuelStep(old(Ledger()), FuelRate(fuelK, pulseWidth1, rpm), now)
                && r == SendByte(SendByte(SendByte(tx, CMD_READ_DATA), 0x00), 0x06)
    {
      if !initialised {
        return 0, tx;
      }
      consumed := ReadIncoming(available, rx);
      CalcFuelConsumption(now);
      r := SendByte(tx, CMD_READ_DATA);
      r := SendByte(r, 0x00);
      r := SendByte(r, 0x06);
    }
  }
}
