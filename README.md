# Companion tracker, ECU telemetry, flight-mode watchdog and failsafe store

A Dafny model of four pieces of a customised ArduCopter firmware:

- **Companion tracker link** (`AP_Erm_Companion`). Once per update the driver reads whatever the
  serial port holds and runs it through a four-step frame decoder. A frame is 0x0E, 0x05, P payload
  bytes and an 8-bit additive checksum. A good frame is parsed into a confidence and a tracking box;
  bad bytes are counted, and more than 37 failures zero the confidence. Afterwards the driver sends
  a poll request. Start and stop tracking commands go out framed with the same checksum.
- **ECU telemetry receiver** (`AP_AR_Ecu`). Each update reads the available bytes into a packed
  113-byte `ECU_telemetry_a` block. The index is a wrapping uint8_t counter. Six big-endian fields
  are decoded, and health is decided by the byte count. A fuel rate is integrated into consumed and
  remaining fuel over micros() intervals shorter than two seconds. Then the 'a' 0x00 0x06 request
  goes out.
- **Auto flight-mode watchdog and photo pulse** (`ArduCopter/UserCode.cpp`). In LOITER, lost
  visual-odometry confidence that persists for a dwell time requests ALT_HOLD. In ALT_HOLD,
  confidence that persists requests LOITER. A photo trigger holds the camera PWM at 1080 until the
  medium loop sees that 350 ms have passed, then writes 1520.
- **Failsafe coordinate store** (`AC_Arys_Failsafe`). A request checks the four stored values in
  order: position, altitude, sprayer status. The first bad value is reset to INT32_MAX and the
  request fails. Otherwise the four values are reported as FS_LAT, FS_LON, FS_ALT and FS_SPR, then
  all four are reset.

Layout:

- Each driver is a `class` whose methods update its fields in place. Each method is proved against
  a pure function: `TrackerLink.Poll`, `ArEcu.Fill`, `ArEcu.FuelStep`, `UserCode.WatchdogTick`,
  `UserCode.TriggerPhoto` and `UserCode.ReleasePhoto`, or `ArysFailsafe.HandleRequest`.
- The lemmas state what these functions promise.
- `Common` holds the fixed-width integer types, the wrapping uint32 `Elapsed`, the 8-bit checksum
  `Sum8` and the write side of a serial port.
- `EcuTelemetry` holds the packed layout of the ECU block.

The serial port is modelled as inputs and outputs. The `available()` count arrives as the int16_t
the drivers store it in, together with the bytes `read()` returns. The write side is a `TxPort`:
free space and the bytes written so far. Each written byte uses one unit of space.

Simple accessors are plain functions and need no row in the table below:

- `healthy()` and `get_rpm()` are `ArEcu.Ecu.Healthy` and `ArEcu.Ecu.GetRpm`.
- The decoded and fuel fields are read through `Decoded()` and `Ledger()`.

Where the code does something its own comments do not announce, the model follows the code:

- The ECU block is 113 bytes, the sum of the declared field sizes. The comment above the struct
  (`AP_AR_Ecu.h:63`) speaks of the "first 112" of the documented table.
- The index column of the struct's comments is not the packed offset throughout
  (`EcuTelemetry.CommentIndexDrifts`). It is the offset up to `fuelload` (66). It is one ahead from
  `fuelcor` to `status1`. `status1` to `status4` are declared `uint16_t` but commented one byte
  apart. So `status2` is back in place, `status3` and `status4` are one and two behind, and
  `looptime` to `gpioadc2` are three behind.
- ECU health is set false on every update with fewer than 110 bytes. This includes a negative
  count; health is not left as it was.
- `startTracking` sends its sync byte whenever there is room for it, even when the framed command
  is dropped for lack of space. `stopTracking` sends each of its three bytes under its own space
  check.
- There is a single fuel-rate formula, `k * pulsewidth * rps`, with `k` the FUEL_K parameter
  (default 1.05833). The header's comment (`AP_AR_Ecu.h:4-19`) sketches one from the injector flow
  rate and the fuel density instead.
- `set_current_fuel` and the FUEL_K parameter are used by `AP_AR_Ecu.cpp` although the header does
  not declare them. They are modelled as the .cpp uses them.

## Model

| member | source | states |
|---|---|---|
| Common.Elapsed | libraries/AP_AR_Ecu/AP_AR_Ecu.cpp:123 | `now - since` on uint32_t: the plain difference when `now` is not behind `since`, otherwise the difference plus 2^32 |
| Common.ElapsedAfterAdvance | ArduCopter/UserCode.cpp:32 | advancing a wrapping uint32 clock by d, then measuring from the old value, gives back d, including across the wrap |
| Common.Sum8 | libraries/AP_Erm_Companion/AP_Erm_Companion.cpp:150-156 | the uint8_t checksum accumulated byte by byte equals seed plus the sum of the bytes, modulo 256 |
| Common.Sum8Append | libraries/AP_Erm_Companion/AP_Erm_Companion.cpp:62-87 | checksumming a concatenation equals checksumming the second part seeded with the checksum of the first; this is how the decoder's running sum covers header and payload |
| Common.SendByte | libraries/AP_Erm_Companion/AP_Erm_Companion.cpp:136-143 | a byte is written, using one unit of space, when txspace() is at least 1; otherwise the port is unchanged |
| TrackerLink.Increment | libraries/AP_Erm_Companion/AP_Erm_Companion.cpp:87 | the unsigned `++` stays below its modulus and equals (x + 1) mod modulus |
| TrackerLink.Feed | libraries/AP_Erm_Companion/AP_Erm_Companion.cpp:60-108 | one byte keeps the decoder well-formed; the feedback changes only on a checksum byte equal to the running sum, and then to parse_body of the buffer; the only buffer slot written is the payload counter's, in the body step |
| TrackerLink.Run | libraries/AP_Erm_Companion/AP_Erm_Companion.cpp:57-109 | the byte loop keeps the decoder's counters within their widths and the buffer at P bytes |
| TrackerLink.Threshold | libraries/AP_Erm_Companion/AP_Erm_Companion.cpp:111-114 | more than 37 failures zero both the failure counter and the confidence and change nothing else (box, step, counters, buffer); at most 37 leave the state as it is; either way the counter ends at most 37 |
| TrackerLink.Poll | libraries/AP_Erm_Companion/AP_Erm_Companion.cpp:44-114 | a whole read_incoming keeps the decoder well-formed |
| TrackerLink.RunAppend | libraries/AP_Erm_Companion/AP_Erm_Companion.cpp:57-109 | running a + b equals running a and then b: the decoder carries its whole state from byte to byte |
| TrackerLink.PollNotReady | libraries/AP_Erm_Companion/AP_Erm_Companion.cpp:46-50 | a negative available count zeroes the confidence and changes nothing else |
| TrackerLink.PollRestarts | libraries/AP_Erm_Companion/AP_Erm_Companion.cpp:54-55 | a poll's outcome does not depend on the step or payload counter the previous poll left |
| TrackerLink.SyncNoise | libraries/AP_Erm_Companion/AP_Erm_Companion.cpp:61-68 | non-sync bytes while waiting for sync add one failure each and change nothing else |
| TrackerLink.BadCommand | libraries/AP_Erm_Companion/AP_Erm_Companion.cpp:71-80 | a command byte other than 0x05 returns to step 0 and adds one failure |
| TrackerLink.BodyRun | libraries/AP_Erm_Companion/AP_Erm_Companion.cpp:82-89 | payload bytes are stored at consecutive counter positions and summed into the checksum; the checksum step is entered exactly when P bytes have arrived |
| TrackerLink.HeaderRun | libraries/AP_Erm_Companion/AP_Erm_Companion.cpp:61-80 | 0x0E 0x05 from step 0 reaches the body step with the checksum seeded by both bytes |
| TrackerLink.GoodFrame | libraries/AP_Erm_Companion/AP_Erm_Companion.cpp:60-101 | a frame with the right checksum, read from step 0 with counter 0, parses exactly its payload, clears the failures and returns to step 0 |
| TrackerLink.BadChecksumFrame | libraries/AP_Erm_Companion/AP_Erm_Companion.cpp:91-97 | a frame whose last byte is not the sum adds one failure, returns to step 0 and keeps the old feedback |
| TrackerLink.PastPayload | libraries/AP_Erm_Companion/AP_Erm_Companion.cpp:82-89 | with the payload counter already past P, body bytes are absorbed without being stored or counted as failures until the counter wraps |
| TrackerLink.FrameAfterFrame | libraries/AP_Erm_Companion/AP_Erm_Companion.cpp:82-89 | a frame arriving after a completed one in the same poll, with the counter still at P, is swallowed as payload: no parse, no failure, still in the body step |
| TrackerLink.SecondFrameInPollIgnored | libraries/AP_Erm_Companion/AP_Erm_Companion.cpp:54-89 | of two good frames in one poll only the first is parsed, because the payload counter is reset once per poll and not per frame |
| TrackerLink.NoisePoll | libraries/AP_Erm_Companion/AP_Erm_Companion.cpp:57-114 | a poll of pure noise zeroes both the failure counter and the confidence once more than 37 bytes were rejected, and leaves the confidence alone otherwise |
| TrackerLink.CommandFrameChecksum | libraries/AP_Erm_Companion/AP_Erm_Companion.cpp:145-158 | an outbound command frame is size + 2 bytes and ends with the 8-bit sum of everything before it |
| TrackerLink.FeedbackFrameChecksum | libraries/AP_Erm_Companion/AP_Erm_Companion.cpp:60-101 | the frames the decoder accepts satisfy the same checksum rule; this only unfolds the definitions, and the decoder's behaviour on them is GoodFrame and BadChecksumFrame |
| ErmCompanion.SendCommand | libraries/AP_Erm_Companion/AP_Erm_Companion.cpp:145-158 | with fewer than size + 5 bytes of space nothing is written; otherwise cmd, the data and their 8-bit sum are written in order |
| ErmCompanion.Companion.constructor | libraries/AP_Erm_Companion/AP_Erm_Companion.cpp:7-13 | the driver starts uninitialised at step 0 with zero counters, buffer and feedback |
| ErmCompanion.Companion.Init | libraries/AP_Erm_Companion/AP_Erm_Companion.cpp:15-25 | a found port initialises the driver; a missing one leaves it as it was |
| ErmCompanion.Companion.FeedByte | libraries/AP_Erm_Companion/AP_Erm_Companion.cpp:60-108 | one pass of the switch on the fields equals Feed on the old state |
| ErmCompanion.Companion.ParseBody | libraries/AP_Erm_Companion/AP_Erm_Companion.cpp:117-124 | confidence and box become the decoding of the receive buffer |
| ErmCompanion.Companion.ReadIncoming | libraries/AP_Erm_Companion/AP_Erm_Companion.cpp:39-115 | the fields after read_incoming equal Poll of the old ones; the loop invariant is that the fields equal Run over the bytes read so far |
| ErmCompanion.Companion.Update | libraries/AP_Erm_Companion/AP_Erm_Companion.cpp:27-37 | an uninitialised driver does nothing; otherwise it polls, then sends 0x0E 0x04 0x04, each byte only if there is room; the stored start request is untouched |
| ErmCompanion.Companion.StartTracking | libraries/AP_Erm_Companion/AP_Erm_Companion.cpp:160-175 | stores the request in the send buffer, sends the sync byte if there is room, then the framed start command or nothing at all |
| ErmCompanion.Companion.StopTracking | libraries/AP_Erm_Companion/AP_Erm_Companion.cpp:177-187 | sends 0x0E 0x02 0x02 byte by byte and zeroes the confidence; does nothing when uninitialised |
| ErmCompanion.StopTrackingBytes | libraries/AP_Erm_Companion/AP_Erm_Companion.cpp:183-185 | with 3 or more bytes of space all three stop bytes go out; with less, only the leading ones that fit |
| EcuTelemetry.AsInt16 | libraries/AP_AR_Ecu/AP_AR_Ecu.cpp:153 | a byte-swapped uint16_t stored into an int16_t keeps its value modulo 2^16 |
| EcuTelemetry.OffsetIsTable | libraries/AP_AR_Ecu/AP_AR_Ecu.h:64-127 | the packed offset of every field, the running sum of the declared sizes, equals the written-out offset table |
| EcuTelemetry.OffsetsComputed | libraries/AP_AR_Ecu/AP_AR_Ecu.h:64-127 | the packed offsets of pulseWidth1, rpm, barometer, coolant, tps and batteryVoltage, and the end of the block, from the declared sizes |
| EcuTelemetry.DecodeFollowsLayout | libraries/AP_AR_Ecu/AP_AR_Ecu.cpp:150-158 | parse_body reads each of its six fields big-endian at that field's packed offset, as two bytes, and as signed exactly where the struct declares it signed |
| EcuTelemetry.Decode | libraries/AP_AR_Ecu/AP_AR_Ecu.cpp:150-158 | each of the six fields is the number its two bytes hold, high byte first; for the four signed fields the top bit of the high byte is the sign |
| EcuTelemetry.TotalSize | libraries/AP_AR_Ecu/AP_AR_Ecu.h:64-132 | the 60 declared fields pack into 113 bytes, which is the size of the receive buffer |
| EcuTelemetry.CommentIndexDrifts | libraries/AP_AR_Ecu/AP_AR_Ecu.h:64-127 | the comment index equals the packed offset for fields 0 to 36 (seconds to fuelload), is one ahead for 37 to 43 (fuelcor to status1), equal for status2, one behind for status3, two behind for status4 and three behind for 47 to 59 (looptime to gpioadc2); the commented layout would end three bytes early |
| EcuTelemetry.DecodeEncode | libraries/AP_AR_Ecu/AP_AR_Ecu.cpp:150-158 | decoding a block that carries given field values gives those values back, whatever the other bytes hold |
| ArEcu.Fill | libraries/AP_AR_Ecu/AP_AR_Ecu.cpp:98-111 | the receive buffer keeps its size whatever is read |
| ArEcu.FillAt | libraries/AP_AR_Ecu/AP_AR_Ecu.cpp:100-111 | each slot holds the last byte read whose uint8_t counter value was that slot (no later byte has that counter value), or its old content if no byte reached it; bytes 113 to 255 of each 256 are dropped |
| ArEcu.FillShort | libraries/AP_AR_Ecu/AP_AR_Ecu.cpp:100-111 | a report of at most 113 bytes lands at the start of the buffer in order, and the rest keeps the previous report |
| ArEcu.FillSnoc | libraries/AP_AR_Ecu/AP_AR_Ecu.cpp:103-108 | one more byte read is stored at slot (bytes read so far mod 256) when that slot is inside the buffer, and the rest of the buffer is unchanged; this only unfolds Fill one step, and FillAt is what is proved about it |
| ArEcu.FuelStep | libraries/AP_AR_Ecu/AP_AR_Ecu.cpp:115-148 | every step records the time and sets the instant rate to 3.6 times the rate; consumed + remaining is conserved; with no baseline or a gap of 2 s or more nothing moves; a non-negative rate never lowers consumed |
| ArEcu.FuelStepMoves | libraries/AP_AR_Ecu/AP_AR_Ecu.cpp:115-148 | every step records the time and sets the instant rate to 3.6 times the rate; consumed rises by exactly what remaining falls, which is rate × gap × 10^-9 when a baseline exists and the gap is under 2 s, and 0 otherwise |
| ArEcu.FirstSampleOnlyRecordsTime | libraries/AP_AR_Ecu/AP_AR_Ecu.cpp:136-147 | with no baseline time, the step only records the time |
| ArEcu.LongGapSkipped | libraries/AP_AR_Ecu/AP_AR_Ecu.cpp:136-147 | a gap of 2 s or more, including one caused by the clock wrapping, is not integrated, but the time is still recorded |
| ArEcu.FuelRate | libraries/AP_AR_Ecu/AP_AR_Ecu.cpp:126-130 | below 60 rpm the integer rps and so the rate are 0; a non-negative FUEL_K gives a non-negative rate |
| ArEcu.OneSecondApart | libraries/AP_AR_Ecu/AP_AR_Ecu.cpp:136-143 | two samples 1 s apart consume rate × 10^-3 litres |
| ArEcu.FuelRunConserves | libraries/AP_AR_Ecu/AP_AR_Ecu.cpp:136-147 | over any run of updates with non-negative rates, consumed + remaining is constant, consumed never decreases, and the last time is recorded |
| ArEcu.Ecu.constructor | libraries/AP_AR_Ecu/AP_AR_Ecu.cpp:8-21 | the driver starts uninitialised and unhealthy, with no baseline time, zero fields and buffer, and FUEL_K at 1.05833; the zero fields are the decoding of the zero buffer |
| ArEcu.Ecu.Init | libraries/AP_AR_Ecu/AP_AR_Ecu.cpp:23-33 | a found port initialises the driver; a missing one leaves it as it was |
| ArEcu.Ecu.SetCurrentFuel | libraries/AP_AR_Ecu/AP_AR_Ecu.cpp:35-43 | only an initialised driver takes the new remaining fuel |
| ArEcu.Ecu.FillBuffer | libraries/AP_AR_Ecu/AP_AR_Ecu.cpp:98-111 | the read loop, including its break, consumes exactly `available` bytes and leaves the buffer equal to Fill of the old buffer |
| ArEcu.Ecu.ParseBody | libraries/AP_AR_Ecu/AP_AR_Ecu.cpp:150-158 | the six fields become Decode of the buffer, so they again match it |
| ArEcu.Ecu.ReadIncoming | libraries/AP_AR_Ecu/AP_AR_Ecu.cpp:79-113 | health is exactly "at least 110 bytes", even for a negative count, so 109 bytes are unhealthy and 110 healthy; a negative count reads nothing and keeps the fields; a zero count leaves buffer and fields as they were; otherwise all available bytes are read into the buffer and then parsed; the fields always match the buffer afterwards |
| ArEcu.Ecu.CalcFuelConsumption | libraries/AP_AR_Ecu/AP_AR_Ecu.cpp:115-148 | the fuel fields become FuelStep of the old ones, with the rate from FUEL_K and the decoded pulse width and rpm; nothing changes when uninitialised |
| ArEcu.Ecu.Update | libraries/AP_AR_Ecu/AP_AR_Ecu.cpp:61-77 | an uninitialised driver does nothing; otherwise it reads, integrates fuel with the freshly decoded fields, and sends 'a' 0x00 0x06, each byte only if there is room |
| UserCode.WatchdogTick | ArduCopter/UserCode.cpp:81-127 | the timer keeps its time or starts at now; it stays engaged only with the switch and parameter on, in LOITER or ALT_HOLD, with no request and the time of the first counting tick; a request disengages it, and never asks for the mode already in force or for any mode other than LOITER and ALT_HOLD |
| UserCode.WatchdogIdle | ArduCopter/UserCode.cpp:81-126 | when the switch or its parameter is off, in LOITER with confidence, in ALT_HOLD without confidence and in any other mode, the timer disengages and nothing is requested |
| UserCode.WatchdogRequests | ArduCopter/UserCode.cpp:92-122 | ALT_HOLD is requested exactly in LOITER without confidence once its dwell has elapsed since the timer started, and LOITER exactly in ALT_HOLD with confidence; at most one request per tick, and a request disengages the timer |
| UserCode.AltHoldMirrorsLoiter | ArduCopter/UserCode.cpp:108-122 | the ALT_HOLD branch is the LOITER branch with confidence reversed, its own dwell and LOITER as target |
| UserCode.NoSwitchBeforeDwell | ArduCopter/UserCode.cpp:98-106 | ticks of lost confidence in LOITER before t0 + dwell request nothing and keep the timer engaged at the time of the first one |
| UserCode.SwitchRestartsTimer | ArduCopter/UserCode.cpp:98-106 | after a request, the next unconfident LOITER tick starts a fresh dwell at its own time and fires only for a zero dwell |
| UserCode.ConfidenceResetsDwell | ArduCopter/UserCode.cpp:92-101 | one confident LOITER tick throws the running dwell away |
| UserCode.TriggerPhoto | ArduCopter/UserCode.cpp:70-77 | after a trigger a pulse is on; a pulse already on is left exactly as it was; a new one starts at now with PWM 1080 |
| UserCode.TriggerStartsPulseOnce | ArduCopter/UserCode.cpp:70-77 | triggering while idle writes PWM 1080 and records the time; triggering during a pulse changes nothing, so it cannot lengthen the pulse |
| UserCode.ReleasePhoto | ArduCopter/UserCode.cpp:26-36 | the medium loop never moves the pulse start; a pulse still on is left as it was; any change ends a pulse that is on and 350 ms old, and writes PWM 1520 |
| UserCode.ReleaseIffPulseOver | ArduCopter/UserCode.cpp:26-36 | the medium loop changes something exactly when a pulse is on and 350 ms have passed (uint32 wrap included), and then it writes PWM 1520 and ends the pulse |
| UserCode.PulseHeld | ArduCopter/UserCode.cpp:26-36 | a pulse triggered at t0 is held through every medium-loop pass before t0 + 350 ms and released by the first pass at or after it |
| UserCode.Copter.AutoFlightModeCheck | ArduCopter/UserCode.cpp:81-127 | the engaged flag, the timer and the requested mode equal WatchdogTick of the old timer |
| UserCode.Copter.TriggerMultinnovPhoto | ArduCopter/UserCode.cpp:70-77 | the photo fields become TriggerPhoto of the old ones |
| UserCode.Copter.UserhookMediumLoop | ArduCopter/UserCode.cpp:26-36 | the photo fields become ReleasePhoto of the old ones |
| ArysFailsafe.HandleRequest | libraries/AC_Arys_Failsafe/AC_Arys_Failsafe.cpp:37-96 | an accepted request sends four messages and resets every field; a failed one sends one status text; every field either keeps its value or becomes INT32_MAX |
| ArysFailsafe.AcceptedIffReportable | libraries/AC_Arys_Failsafe/AC_Arys_Failsafe.cpp:43-95 | a request is accepted exactly when the position is not (0, 0), the altitude is positive and the sprayer status is 0 or 1; then FS_LAT, FS_LON, FS_ALT and FS_SPR go out in that order with the stored values and one timestamp, and all four fields become INT32_MAX |
| ArysFailsafe.FailedResetsOnlyCulprit | libraries/AC_Arys_Failsafe/AC_Arys_Failsafe.cpp:43-60 | a rejected request sends one status text and no value, and resets to INT32_MAX only the field, or the lat/lon pair, of the first check that failed |
| ArysFailsafe.SecondRequestFailsOnSprayer | libraries/AC_Arys_Failsafe/AC_Arys_Failsafe.cpp:57-93 | the request after an accepted one fails on the sprayer check and leaves all fields at INT32_MAX |
| ArysFailsafe.SavedIsReported | libraries/AC_Arys_Failsafe/AC_Arys_Failsafe.cpp:63-104 | values saved by save_failsafe_status that pass the checks are reported back exactly |
| ArysFailsafe.DefaultsFail | libraries/AC_Arys_Failsafe/AC_Arys_Failsafe.cpp:9-48 | with every parameter at its default 0, a request fails on the position and leaves altitude and sprayer at 0 |
| ArysFailsafe.Failsafe.constructor | libraries/AC_Arys_Failsafe/AC_Arys_Failsafe.cpp:9-15 | the four parameters start at FS_DEFAULTS |
| ArysFailsafe.Failsafe.HandleSendFsCoordsToGcs | libraries/AC_Arys_Failsafe/AC_Arys_Failsafe.cpp:37-96 | the result, the new fields and the messages sent equal HandleRequest of the old fields |
| ArysFailsafe.Failsafe.SaveFailsafeStatus | libraries/AC_Arys_Failsafe/AC_Arys_Failsafe.cpp:98-104 | the four fields become the arguments, with the uint8_t sprayer status widened |

## Left out

- I/O, time and hardware:
  - The serial manager lookup in both `init`s is an input (`portFound`).
  - `available()`, `read()`, `txspace()`, `write()`, `millis()` and `micros()` are parameters.
  - `send_text`, the MAVLink messages and streams, the logger, `send_mavlink_message_ecu`,
    `send_tracker_status` and `log_failsafe_status` are not modelled. The failsafe's status texts
    and named values are the one exception: they are kept as emitted messages because their order
    matters.
  - The singleton constructors' panic is not modelled.
- Parameters: the AP_Param tables and `set_and_save` persistence are not modelled. The parameters
  are fields or inputs.
- The unused `AP_AR_Ecu.h` parameters `_static_inj_flow_rate`, `_fuel_density` and
  `_fuel_density_k` are not modelled.
- `AP_Erm_Companion.h` is not part of this model. The payload size P, the widths of
  `_payload_counter` and `_confidence_zero_counter`, the layout of `tracking_coord_feedback` (the
  decode function) and the bytes of `start_tracking_request` are all parameters of
  `TrackerLink.Config`. `_checksum` is taken as 8-bit, like `send_command`'s checksum.
- The decoder's `default:` branch cannot be reached, since the step is only ever 0 to 3. The step
  is an enumeration without that branch.
- Fuel arithmetic is on reals. Float rounding and the float conversion of the uint32 gap are not
  modelled.
- The copter's mode objects, `set_mode` and whether it succeeds are not modelled. The current mode
  is an input and the requested mode an output. `visual_odom.confidence_ok()` is an input.
  Servo output is the last PWM written to the camera channel.
- The two dwell parameters are not part of this model's sources, so their declared type is
  unknown. They are taken as uint32 and compared with the uint32 difference.
- UserCode.Copter.AutoFlightModeCheck: `millis()` is read once per tick. The source reads it once
  to start the timer and again to compare, which can differ by the time between those two lines.
- ErmCompanion.Companion.ReadIncoming: requires the port to hold at least `available` bytes.
  `read()` on an empty port is not modelled.
- ArEcu.Ecu.ReadIncoming: requires the port to hold at least `available` bytes, for the same reason.
- ArEcu.Ecu.Update: requires the port to hold at least `available` bytes, for the same reason.
- ErmCompanion.Companion.Update: requires the port to hold at least `available` bytes, for the same
  reason.
- ErmCompanion.Companion.StartTracking: requires the request to be shorter than 256 bytes, because
  its size is passed as a uint8_t.
- `TxPort` assumes that each byte written uses exactly one unit of reported space and that writes
  never fail.
- The remaining user hooks of `UserCode.cpp`, which are empty or compiled out, are not modelled.
  The failsafe's empty `init` and `update` are not modelled either.
