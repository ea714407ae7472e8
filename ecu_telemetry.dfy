/** The packed `ECU_telemetry_a` block of `AP_AR_Ecu.h`: 60 big-endian fields
    laid end to end with no padding, and the six of them the driver decodes. */
module EcuTelemetry {
  import opened Common

  /** Declared sizes, in declaration order, a header line per entry. */
  const FieldSizes: seq<nat> :=
    [2, 2, 2, 2, 2, 1, 1, 1, 1, 1] +   // seconds pulseWidth1 pulseWidth2 rpm advance squirt engine afrtgt1 afrtgt2 wbo2_en1
    [1, 2, 2, 2, 2, 2, 2, 2, 2, 2] +   // wbo2_en2 barometer map mat coolant tps batteryVoltage afr1 afr2 knock
    [2, 2, 2, 2, 2, 2, 2, 2, 2, 2] +   // egocor1 egocor2 aircor warmcor accelEnrich tpsfuelcut baroCorrection gammaEnrich ve1 ve2
    [2, 2, 2, 2, 2, 2, 1, 2, 1, 1] +   // iacstep cold_adv_deg TPSdot MAPdot dwell MAF fuelload fuelcor portStatus knockRetard
    [2, 2, 2, 2, 2, 2, 2, 2, 2, 2] +   // EAEfcor1 egoV1 egoV2 status1 status2 status3 status4 looptime status5 tpsADC
    [2, 2, 2, 1, 1, 4, 4, 2, 2, 2]     // fuelload2 ignload ignload2 synccnt timing_err delta wallfuel1 gpioadc0 gpioadc1 gpioadc2

  /** Whether each field is declared signed (int8_t, int16_t, int32_t). */
  const FieldSigned: seq<bool> :=
    [false, false, false, false, true, false, false, false, false, false] +
    [false, true, true, true, true, true, true, true, true, true] +
    [true, true, true, true, true, true, true, true, true, true] +
    [true, true, true, true, true, true, false, true, false, false] +
    [true, true, true, false, false, false, false, false, false, false] +
    [true, true, true, false, true, true, false, false, false, false]

  /** The "index" column of the header's comments, field by field. */
  const CommentIndex: seq<nat> :=
    [0, 2, 4, 6, 8, 10, 11, 12, 13, 14] +
    [15, 16, 18, 20, 22, 24, 26, 28, 30, 32] +
    [34, 36, 38, 40, 42, 44, 46, 48, 50, 52] +
    [54, 56, 58, 60, 62, 64, 66, 68, 70, 71] +
    [72, 74, 76, 78, 79, 80, 81, 82, 84, 86] +
    [88, 90, 92, 94, 95, 96, 100, 104, 106, 108]

  // Positions in the declaration of the fields the driver reads, and of fuelcor.
  const PULSE_WIDTH1: nat := 1
  const RPM: nat := 3
  const BAROMETER: nat := 11
  const COOLANT: nat := 14
  const TPS: nat := 15
  const BATTERY_VOLTAGE: nat := 16
  const FUELCOR: nat := 37

  /** Byte offset of field i in the packed struct: the sizes of all fields before it. */
  function Offset(i: nat): nat
    requires i <= |FieldSizes|
  {
    if i == 0 then 0 else Offset(i - 1) + FieldSizes[i - 1]
  }

  /** sizeof(ECU_telemetry_a), which is also sizeof(_buffer). */
  const TELEMETRY_SIZE: nat := 113

  /** The fields `parse_body` copies out, in host order. */
  datatype Telemetry = Telemetry(pulseWidth1: uint16, rpm: uint16, barometer: int16,
                                 coolant: int16, tps: int16, batteryVoltage: int16)

  /** `bswap_16_on_le` of the two bytes at `o`: most significant byte first. */
  function BigEndian16(buf: seq<uint8>, o: nat): (v: uint16)
    requires o + 2 <= |buf|
  {
    (buf[o] as int) * 0x100 + buf[o + 1]
  }

  /** A uint16_t stored into an int16_t field: two's complement. */
  function AsInt16(u: uint16): (v: int16)
    ensures v % 0x1_0000 == u
  {
    if u < 0x8000 then u else u - 0x1_0000
  }

  /** The number two bytes hold, most significant first; when `signed`, the
      top bit of `hi` is the sign and weighs -2^15. */
  function WordValue(hi: uint8, lo: uint8, signed: bool): int {
    (if signed && hi >= 0x80 then (hi as int - 0x100) else hi as int) * 0x100 + lo as int
  }

  /** `parse_body`: the six fields read at their packed offsets. */
  function Decode(buf: seq<uint8>): (r: Telemetry)
    requires |buf| == TELEMETRY_SIZE
    ensures r.pulseWidth1 == WordValue(buf[2], buf[3], false)
    ensures r.rpm == WordValue(buf[6], buf[7], false)
    ensures r.barometer == WordValue(buf[16], buf[17], true)
    ensures r.coolant == WordValue(buf[22], buf[23], true)
    ensures r.tps == WordValue(buf[24], buf[25], true)
    ensures r.batteryVoltage == WordValue(buf[26], buf[27], true)
  {
    Telemetry(
      BigEndian16(buf, 2),
      BigEndian16(buf, 6),
      AsInt16(BigEndian16(buf, 16)),
      AsInt16(BigEndian16(buf, 22)),
      AsInt16(BigEndian16(buf, 24)),
      AsInt16(BigEndian16(buf, 26)))
  }

  /** Writes `v` big-endian at `o` (the ECU's side of the wire). */
  function Put16(buf: seq<uint8>, o: nat, v: int): (r: seq<uint8>)
    requires o + 2 <= |buf|
    ensures |r| == |buf|
  {
    var u := v % 0x1_0000;
    buf[o := u / 0x100][o + 1 := u % 0x100]
  }

  /** A block carrying `t` over the background bytes `buf`. */
  function Encode(t: Telemetry, buf: seq<uint8>): (r: seq<uint8>)
    requires |buf| == TELEMETRY_SIZE
    ensures |r| == TELEMETRY_SIZE
  {
    var b := Put16(buf, 2, t.pulseWidth1);
    var b := Put16(b, 6, t.rpm);
    var b := Put16(b, 16, t.barometer);
    var b := Put16(b, 22, t.coolant);
    var b := Put16(b, 24, t.tps);
    Put16(b, 26, t.batteryVoltage)
  }

  // ---------------------------------------------------------------------------

  /** The packed offsets of fields 0 to 60, written out. */
  const PackedOffsets: seq<nat> :=
    [0, 2, 4, 6, 8, 10, 11, 12, 13, 14] +
    [15, 16, 18, 20, 22, 24, 26, 28, 30, 32] +
    [34, 36, 38, 40, 42, 44, 46, 48, 50, 52] +
    [54, 56, 58, 60, 62, 64, 66, 67, 69, 70] +
    [71, 73, 75, 77, 79, 81, 83, 85, 87, 89] +
    [91, 93, 95, 97, 98, 99, 103, 107, 109, 111] + [113]

  // Each entry of the table is the previous one plus the previous field's
  // size, checked ten entries at a time.
  lemma PackedOffsetsStep0()
    ensures forall i | 1 <= i <= 10 :: PackedOffsets[i] == PackedOffsets[i - 1] + FieldSizes[i - 1]
  {
  }

  lemma PackedOffsetsStep1()
    ensures forall i | 11 <= i <= 20 :: PackedOffsets[i] == PackedOffsets[i - 1] + FieldSizes[i - 1]
  {
  }

  lemma PackedOffsetsStep2()
    ensures forall i | 21 <= i <= 30 :: PackedOffsets[i] == PackedOffsets[i - 1] + FieldSizes[i - 1]
  {
  }

  lemma PackedOffsetsStep3()
    ensures forall i | 31 <= i <= 40 :: PackedOffsets[i] == PackedOffsets[i - 1] + FieldSizes[i - 1]
  {
  }

  lemma PackedOffsetsStep4()
    ensures forall i | 41 <= i <= 50 :: PackedOffsets[i] == PackedOffsets[i - 1] + FieldSizes[i - 1]
  {
  }

  lemma PackedOffsetsStep5()
    ensures forall i | 51 <= i <= 60 :: PackedOffsets[i] == PackedOffsets[i - 1] + FieldSizes[i - 1]
  {
  }

  /** The table holds the running sums of the declared sizes. */
  lemma {:induction false} OffsetIsTable(i: nat)
    requires i <= |FieldSizes|
    ensures Offset(i) == PackedOffsets[i]
  {
    if i > 0 {
      OffsetIsTable(i - 1);
      PackedOffsetsStep0(); PackedOffsetsStep1(); PackedOffsetsStep2();
      PackedOffsetsStep3(); PackedOffsetsStep4(); PackedOffsetsStep5();
    }
  }

  /** The offsets of the six fields the driver reads, and the total. */
  lemma OffsetsComputed()
    ensures Offset(1) == 2 && Offset(3) == 6 && Offset(11) == 16
    ensures Offset(14) == 22 && Offset(15) == 24 && Offset(16) == 26
    ensures Offset(60) == 113
  {
    forall i | 0 <= i <= 60
      ensures Offset(i) == PackedOffsets[i]
    {
      OffsetIsTable(i);
    }
  }

  /** parse_body reads each of its six fields at the field's packed offset,
      as two bytes, and as signed exactly where the struct declares it signed:
      pulseWidth1 at 2, rpm at 6, barometer at 16, coolant at 22, tps at 24,
      batteryVoltage at 26. */
  lemma DecodeFollowsLayout(buf: seq<uint8>)
    requires |buf| == TELEMETRY_SIZE
    ensures forall i :: i in {PULSE_WIDTH1, RPM, BAROMETER, COOLANT, TPS, BATTERY_VOLTAGE} ==>
              FieldSizes[i] == 2
    ensures Offset(PULSE_WIDTH1) == 2 && !FieldSigned[PULSE_WIDTH1]
    ensures Decode(buf).pulseWidth1 == BigEndian16(buf, Offset(PULSE_WIDTH1))
    ensures Offset(RPM) == 6 && !FieldSigned[RPM]
    ensures Decode(buf).rpm == BigEndian16(buf, Offset(RPM))
    ensures Offset(BAROMETER) == 16 && FieldSigned[BAROMETER]
    ensures Decode(buf).barometer == AsInt16(BigEndian16(buf, Offset(BAROMETER)))
    ensures Offset(COOLANT) == 22 && FieldSigned[COOLANT]
    ensures Decode(buf).coolant == AsInt16(BigEndian16(buf, Offset(COOLANT)))
    ensures Offset(TPS) == 24 && FieldSigned[TPS]
    ensures Decode(buf).tps == AsInt16(BigEndian16(buf, Offset(TPS)))
    ensures Offset(BATTERY_VOLTAGE) == 26 && FieldSigned[BATTERY_VOLTAGE]
    ensures Decode(buf).batteryVoltage == AsInt16(BigEndian16(buf, Offset(BATTERY_VOLTAGE)))
  {
    OffsetsComputed();
  }

  /** The struct, and so the receive buffer, is 113 bytes. */
  lemma TotalSize()
    ensures |FieldSizes| == 60 && Offset(|FieldSizes|) == TELEMETRY_SIZE
  {
    OffsetsComputed();
  }

  /** The comment index against the table. */
  lemma CommentIndexAgainstTable()
    ensures forall i | 0 <= i <= 36 :: CommentIndex[i] == PackedOffsets[i]
    ensures forall i | 37 <= i <= 43 :: CommentIndex[i] == PackedOffsets[i] + 1
    ensures CommentIndex[44] == PackedOffsets[44]
    ensures CommentIndex[45] + 1 == PackedOffsets[45]
    ensures CommentIndex[46] + 2 == PackedOffsets[46]
    ensures forall i | 47 <= i < 60 :: CommentIndex[i] + 3 == PackedOffsets[i]
  {
  }

  /** The comment index is the packed offset from seconds to fuelload (0 to
      66). fuelcor is packed at 67 but commented 68, and the comments stay one
      ahead through status1. status1 to status4 are uint16_t but their
      comments step by one, so status2 is back in place, status3 and status4
      are one and two behind, and looptime to gpioadc2 are three behind; the
      commented layout would end at 110 bytes, three short of the real 113. */
  lemma CommentIndexDrifts()
    ensures |CommentIndex| == |FieldSizes|
    ensures forall i | 0 <= i <= 36 :: CommentIndex[i] == Offset(i)
    ensures forall i | FUELCOR <= i <= 43 :: CommentIndex[i] == Offset(i) + 1
    ensures CommentIndex[44] == Offset(44)
    ensures CommentIndex[45] + 1 == Offset(45)
    ensures CommentIndex[46] + 2 == Offset(46)
    ensures forall i | 47 <= i < 60 :: CommentIndex[i] + 3 == Offset(i)
    ensures CommentIndex[59] + FieldSizes[59] + 3 == Offset(60) == TELEMETRY_SIZE
  {
    CommentIndexAgainstTable();
    forall i | 0 <= i <= 60
      ensures Offset(i) == PackedOffsets[i]
    {
      OffsetIsTable(i);
    }
  }

  /** Decoding a block written with Encode gives the fields back, whatever the
      other bytes hold. */
  lemma DecodeEncode(t: Telemetry, buf: seq<uint8>)
    requires |buf| == TELEMETRY_SIZE
    ensures Decode(Encode(t, buf)) == t
  {
  }
}
