/** The companion tracker link, as values: the byte-at-a-time frame decoder run
    by `AP_Erm_Companion::read_incoming`, the once-per-poll failure threshold, and
    the outbound command framing of `send_command`.

    Incoming frame: 0x0E, 0x05, P payload bytes, then the 8-bit sum of every
    preceding frame byte. Outbound command: cmd, data..., 8-bit sum of cmd and data. */
module TrackerLink {
  import opened Common

  const SYNC: uint8 := 0x0E
  const CMD_FEEDBACK: uint8 := 0x05
  const CMD_START_TRACKING: uint8 := 0x01
  const STOP_TRACKING: uint8 := 0x02
  const POLL_REQUEST: uint8 := 0x04
  /** The failure counter trips once it is above this. */
  const FAILURE_LIMIT: nat := 37

  /** What `parse_body` copies out of the receive buffer. */
  datatype Feedback = Feedback(confidence: int, x0: int, x1: int, y0: int, y1: int)

  /** Facts the companion's header fixes and this model leaves open. */
  datatype Config = Config(
    payloadSize: nat,                      // sizeof(tracking_coord_feedback)
    counterModulus: nat,                   // 2^width of _payload_counter
    failureModulus: nat,                   // 2^width of _confidence_zero_counter
    decode: seq<uint8> -> Feedback,        // parse_body's field mapping
    encodeStart: (uint16, uint16, uint16, uint16) -> seq<uint8>)  // start_tracking_request bytes

  predicate ValidConfig(cfg: Config) {
    0 < cfg.payloadSize && 0 < cfg.counterModulus && 0 < cfg.failureModulus
  }

  /** `_step`: 0 wait for sync, 1 wait for command, 2 payload, 3 checksum. */
  datatype Step = WaitSync | WaitCommand | Body | Checksum

  /** The decoder's fields: `_step`, `_checksum`, `_payload_counter`,
      `_confidence_zero_counter`, `_receiveBuffer`, and the parsed feedback
      (`_confidence`, `_x0`, `_x1`, `_y0`, `_y1`). */
  datatype Link = Link(step: Step, checksum: uint8, counter: nat, failures: nat,
                       buffer: seq<uint8>, feedback: Feedback)

  predicate WellFormed(cfg: Config, s: Link) {
    && ValidConfig(cfg)
    && |s.buffer| == cfg.payloadSize
    && s.counter < cfg.counterModulus
    && s.failures < cfg.failureModulus
  }

  /** `++` on an unsigned counter that holds values below `modulus`: it wraps
      to 0 from the largest value. */
  function Increment(x: nat, modulus: nat): (r: nat)
    requires x < modulus
    ensures r < modulus
    ensures r == (x + 1) % modulus
  {
    if x + 1 == modulus then 0 else x + 1
  }

  /** `_confidence_zero_counter++`. */
  function Bump(cfg: Config, failures: nat): nat
    requires failures < cfg.failureModulus
  {
    Increment(failures, cfg.failureModulus)
  }

  /** One pass of the `switch (_step)` for the byte `b`. */
  function Feed(cfg: Config, s: Link, b: uint8): (r: Link)
    requires WellFormed(cfg, s)
    ensures WellFormed(cfg, r)
    // parse_body runs only on a checksum byte that matches
    ensures r.feedback != s.feedback ==>
              s.step == Checksum && b == s.checksum && r.feedback == cfg.decode(s.buffer)
    // the only buffer slot ever written is the payload counter's, below P
    ensures forall i :: 0 <= i < |s.buffer| && r.buffer[i] != s.buffer[i] ==>
              s.step == Body && i == s.counter
  {
    match s.step
    case WaitSync =>
      if b == SYNC then s.(step := WaitCommand, checksum := b)
      else s.(failures := Bump(cfg, s.failures))
    case WaitCommand =>
      if b == CMD_FEEDBACK then s.(step := Body, checksum := (s.checksum + b) % 0x100)
      else s.(step := WaitSync, failures := Bump(cfg, s.failures))
    case Body =>
      var buffer := if s.counter < cfg.payloadSize then s.buffer[s.counter := b] else s.buffer;
      var counter := Increment(s.counter, cfg.counterModulus);
      s.(checksum := (s.checksum + b) % 0x100, buffer := buffer, counter := counter,
         step := if counter == cfg.payloadSize then Checksum else Body)
    case Checksum =>
      if s.checksum != b then s.(step := WaitSync, failures := Bump(cfg, s.failures))
      else s.(step := WaitSync, feedback := cfg.decode(s.buffer), failures := 0)
  }

  /** The `for` loop of `read_incoming`: every byte through Feed, in order. */
  function Run(cfg: Config, s: Link, bs: seq<uint8>): (r: Link)
    requires WellFormed(cfg, s)
    ensures WellFormed(cfg, r)
    decreases |bs|
  {
    if bs == [] then s else Feed(cfg, Run(cfg, s, bs[..|bs| - 1]), bs[|bs| - 1])
  }

  /** The threshold check after the loop. */
  function Threshold(cfg: Config, s: Link): (r: Link)
    requires WellFormed(cfg, s)
    ensures WellFormed(cfg, r)
    ensures r.failures <= FAILURE_LIMIT
    ensures s.failures > FAILURE_LIMIT ==>
              && r.failures == 0 && r.feedback.confidence == 0
              && r.(failures := s.failures, feedback := s.feedback) == s
              && r.feedback.(confidence := s.feedback.confidence) == s.feedback
    ensures s.failures <= FAILURE_LIMIT ==> r == s
  {
    if s.failures > FAILURE_LIMIT then s.(failures := 0, feedback := s.feedback.(confidence := 0))
    else s
  }

  /** `read_incoming` with `available()` reporting `available` and `rx` holding
      at least that many readable bytes. */
  function Poll(cfg: Config, s: Link, available: int16, rx: seq<uint8>): (r: Link)
    requires WellFormed(cfg, s)
    requires available < 0 || available <= |rx|
    ensures WellFormed(cfg, r)
  {
    if available < 0 then s.(feedback := s.feedback.(confidence := 0))
    else Threshold(cfg, Run(cfg, s.(step := WaitSync, counter := 0), rx[..available]))
  }

  /** The bytes `send_command(cmd, data, size)` writes when it writes at all. */
  function CommandFrame(cmd: uint8, data: seq<uint8>): seq<uint8> {
    [cmd] + data + [Sum8(cmd, data)]
  }

  /** A frame whose last byte is the 8-bit sum of all bytes before it. */
  predicate ChecksumOk(frame: seq<uint8>) {
    |frame| > 0 && frame[|frame| - 1] == Sum8(0, frame[..|frame| - 1])
  }

  /** The incoming feedback frame for a payload. */
  function FeedbackFrame(payload: seq<uint8>): seq<uint8> {
    [SYNC, CMD_FEEDBACK] + payload + [Sum8(0, [SYNC, CMD_FEEDBACK] + payload)]
  }

  // ---------------------------------------------------------------------------
  // Properties of the decoder

  lemma {:induction false} RunAppend(cfg: Config, s: Link, a: seq<uint8>, b: seq<uint8>)
    requires WellFormed(cfg, s)
    ensures Run(cfg, s, a + b) == Run(cfg, Run(cfg, s, a), b)
    decreases |b|
  {
    if b == [] {
      assert a + b == a;
    } else {
      assert (a + b)[..|a + b| - 1] == a + b[..|b| - 1];
      RunAppend(cfg, s, a, b[..|b| - 1]);
    }
  }

  /** A negative `available()` zeroes the confidence and touches nothing else:
      not the step, the counters, the buffer or the tracked box. */
  lemma PollNotReady(cfg: Config, s: Link, available: int16, rx: seq<uint8>)
    requires WellFormed(cfg, s) && available < 0
    ensures var r := Poll(cfg, s, available, rx);
      && r.feedback.confidence == 0
      && r.step == s.step && r.checksum == s.checksum && r.counter == s.counter
      && r.failures == s.failures && r.buffer == s.buffer
      && r.feedback.(confidence := s.feedback.confidence) == s.feedback
  {
  }

  /** Every poll that reads starts over at step 0 with payload counter 0: its
      outcome does not depend on where the previous poll left the frame. */
  lemma PollRestarts(cfg: Config, s: Link, step: Step, counter: nat, available: int16, rx: seq<uint8>)
    requires WellFormed(cfg, s) && counter < cfg.counterModulus
    requires 0 <= available <= |rx|
    ensures Poll(cfg, s, available, rx) == Poll(cfg, s.(step := step, counter := counter), available, rx)
  {
  }

  /** Bytes that are not 0x0E, while waiting for sync, each bump the failure
      counter and change nothing else. */
  lemma {:induction false} SyncNoise(cfg: Config, s: Link, bs: seq<uint8>)
    requires WellFormed(cfg, s) && s.step == WaitSync
    requires forall i :: 0 <= i < |bs| ==> bs[i] != SYNC
    requires s.failures + |bs| < cfg.failureModulus
    ensures Run(cfg, s, bs) == s.(failures := s.failures + |bs|)
    decreases |bs|
  {
    if bs != [] {
      SyncNoise(cfg, s, bs[..|bs| - 1]);
    }
  }

  /** A wrong command byte after the sync byte sends the decoder back to step 0
      and bumps the failure counter. */
  lemma BadCommand(cfg: Config, s: Link, b: uint8)
    requires WellFormed(cfg, s) && s.step == WaitCommand && b != CMD_FEEDBACK
    ensures Feed(cfg, s, b) == s.(step := WaitSync, failures := Bump(cfg, s.failures))
  {
  }

  /** Payload bytes are stored at the counter and summed into the checksum; the
      step moves to the checksum byte exactly when P bytes have arrived. */
  lemma {:induction false} BodyRun(cfg: Config, s: Link, bs: seq<uint8>)
    requires WellFormed(cfg, s) && s.step == Body
    requires s.counter < cfg.payloadSize < cfg.counterModulus
    requires s.counter + |bs| <= cfg.payloadSize
    ensures var r := Run(cfg, s, bs);
      && r.counter == s.counter + |bs|
      && r.step == (if s.counter + |bs| == cfg.payloadSize then Checksum else Body)
      && r.buffer == s.buffer[..s.counter] + bs + s.buffer[s.counter + |bs|..]
      && r.checksum == Sum8(s.checksum, bs)
      && r.failures == s.failures && r.feedback == s.feedback
    decreases |bs|
  {
    if bs != [] {
      var prev := bs[..|bs| - 1];
      var b := bs[|bs| - 1];
      BodyRun(cfg, s, prev);
      var p := Run(cfg, s, prev);
      assert p.counter < cfg.payloadSize;
      var k := s.counter + |prev|;
      assert p.buffer[k := b] == s.buffer[..s.counter] + bs + s.buffer[s.counter + |bs|..] by {
        assert bs == prev + [b];
      }
    }
  }

  /** Running the first two frame bytes from step 0. */
  lemma HeaderRun(cfg: Config, s: Link)
    requires WellFormed(cfg, s) && s.step == WaitSync
    ensures Run(cfg, s, [SYNC, CMD_FEEDBACK]) ==
            s.(step := Body, checksum := Sum8(0, [SYNC, CMD_FEEDBACK]))
  {
    assert [SYNC, CMD_FEEDBACK][..1] == [SYNC];
    assert [SYNC][..0] == [];
    assert Run(cfg, s, [SYNC]) == s.(step := WaitCommand, checksum := SYNC);
    assert Sum8(0, [SYNC]) == SYNC;
    assert Sum8(0, [SYNC, CMD_FEEDBACK]) == (SYNC + CMD_FEEDBACK) % 0x100;
  }

  /** A well-formed frame read from step 0 with the payload counter at 0 runs
      parse_body on exactly its payload and clears the failure counter. */
  lemma GoodFrame(cfg: Config, s: Link, payload: seq<uint8>)
    requires WellFormed(cfg, s) && s.step == WaitSync && s.counter == 0
    requires |payload| == cfg.payloadSize < cfg.counterModulus
    ensures var r := Run(cfg, s, FeedbackFrame(payload));
      && r.step == WaitSync && r.failures == 0
      && r.feedback == cfg.decode(payload)
      && r.buffer == payload && r.counter == cfg.payloadSize
  {
    var header := [SYNC, CMD_FEEDBACK];
    var c := Sum8(0, header + payload);
    var h := Run(cfg, s, header);
    HeaderRun(cfg, s);
    BodyRun(cfg, h, payload);
    Sum8Append(0, header, payload);
    RunAppend(cfg, s, header, payload);
    RunAppend(cfg, s, header + payload, [c]);
    assert s.buffer[cfg.payloadSize..] == [];
    assert h.buffer[..0] + payload + h.buffer[|payload|..] == payload;
  }

  /** A frame whose checksum byte is wrong bumps the failure counter by one,
      returns to step 0, and leaves the tracked feedback alone. */
  lemma BadChecksumFrame(cfg: Config, s: Link, payload: seq<uint8>, c: uint8)
    requires WellFormed(cfg, s) && s.step == WaitSync && s.counter == 0
    requires |payload| == cfg.payloadSize < cfg.counterModulus
    requires c != Sum8(0, [SYNC, CMD_FEEDBACK] + payload)
    ensures var r := Run(cfg, s, [SYNC, CMD_FEEDBACK] + payload + [c]);
      && r.step == WaitSync && r.failures == Bump(cfg, s.failures)
      && r.feedback == s.feedback
  {
    var header := [SYNC, CMD_FEEDBACK];
    var h := Run(cfg, s, header);
    HeaderRun(cfg, s);
    BodyRun(cfg, h, payload);
    Sum8Append(0, header, payload);
    RunAppend(cfg, s, header, payload);
    RunAppend(cfg, s, header + payload, [c]);
  }

  /** Once a frame has completed in a poll the payload counter is past P, so a
      second frame in the same poll is absorbed as payload (and not stored)
      until the counter wraps: its bytes neither parse nor count as failures. */
  lemma {:induction false} PastPayload(cfg: Config, s: Link, bs: seq<uint8>)
    requires WellFormed(cfg, s) && s.step == Body
    requires cfg.payloadSize < s.counter && s.counter + |bs| < cfg.counterModulus
    ensures var r := Run(cfg, s, bs);
      && r.step == Body && r.counter == s.counter + |bs|
      && r.buffer == s.buffer && r.failures == s.failures && r.feedback == s.feedback
    decreases |bs|
  {
    if bs != [] {
      PastPayload(cfg, s, bs[..|bs| - 1]);
    }
  }

  /** Reading one byte and then the rest. */
  lemma RunCons(cfg: Config, s: Link, b: uint8, bs: seq<uint8>)
    requires WellFormed(cfg, s)
    ensures Run(cfg, s, [b] + bs) == Run(cfg, Feed(cfg, s, b), bs)
  {
    RunAppend(cfg, s, [b], bs);
    assert [b][..0] == [];
  }

  /** A whole frame read after a completed one in the same poll, with the
      counter still at P: it is swallowed as payload. */
  lemma FrameAfterFrame(cfg: Config, s: Link, p: seq<uint8>)
    requires WellFormed(cfg, s) && s.step == WaitSync && s.counter == cfg.payloadSize
    requires |p| == cfg.payloadSize && 2 * cfg.payloadSize + 1 < cfg.counterModulus
    ensures var r := Run(cfg, s, FeedbackFrame(p));
      r.feedback == s.feedback && r.failures == s.failures && r.step == Body
  {
    var header := [SYNC, CMD_FEEDBACK];
    var rest := p + [Sum8(0, header + p)];
    assert FeedbackFrame(p) == header + rest;
    RunAppend(cfg, s, header, rest);
    HeaderRun(cfg, s);
    var h := Run(cfg, s, header);
    assert h.counter == cfg.payloadSize && h.step == Body;
    // the first payload byte moves the counter past P
    assert rest == [rest[0]] + rest[1..];
    RunCons(cfg, h, rest[0], rest[1..]);
    var h1 := Feed(cfg, h, rest[0]);
    assert h1.counter == cfg.payloadSize + 1 && h1.step == Body;
    assert h1.feedback == s.feedback && h1.failures == s.failures;
    PastPayload(cfg, h1, rest[1..]);
  }

  /** Two valid frames back to back in one poll: only the first is parsed. */
  lemma SecondFrameInPollIgnored(cfg: Config, s: Link, p1: seq<uint8>, p2: seq<uint8>)
    requires WellFormed(cfg, s) && s.step == WaitSync && s.counter == 0
    requires |p1| == |p2| == cfg.payloadSize
    requires 2 * cfg.payloadSize + 1 < cfg.counterModulus
    ensures var r := Run(cfg, s, FeedbackFrame(p1) + FeedbackFrame(p2));
      && r.feedback == cfg.decode(p1) && r.failures == 0 && r.step == Body
  {
    GoodFrame(cfg, s, p1);
    RunAppend(cfg, s, FeedbackFrame(p1), FeedbackFrame(p2));
    FrameAfterFrame(cfg, Run(cfg, s, FeedbackFrame(p1)), p2);
  }

  /** The threshold check: with a poll that starts from no failures and sees
      only non-sync noise, the counter and confidence trip together once more
      than 37 bytes were rejected, and confidence is untouched otherwise. */
  lemma NoisePoll(cfg: Config, s: Link, available: int16, rx: seq<uint8>)
    requires WellFormed(cfg, s) && s.failures == 0
    requires 0 <= available <= |rx| && available < cfg.failureModulus
    requires forall i :: 0 <= i < available ==> rx[i] != SYNC
    ensures var r := Poll(cfg, s, available, rx);
      && r.failures == (if available > FAILURE_LIMIT then 0 else available)
      && r.feedback.confidence == (if available > FAILURE_LIMIT then 0 else s.feedback.confidence)
      && r.step == WaitSync
  {
    SyncNoise(cfg, s.(step := WaitSync, counter := 0), rx[..available]);
  }

  // ---------------------------------------------------------------------------
  // Properties of the outbound framing

  /** An outbound command frame carries its own 8-bit sum as its last byte. */
  lemma CommandFrameChecksum(cmd: uint8, data: seq<uint8>)
    ensures ChecksumOk(CommandFrame(cmd, data))
    ensures |CommandFrame(cmd, data)| == |data| + 2
  {
    var f := CommandFrame(cmd, data);
    var body := [cmd] + data;
    assert f == body + [Sum8(cmd, data)];
    assert f[..|f| - 1] == body;
    assert [cmd][..0] == [];
    assert Sum8(0, [cmd]) == cmd;
    Sum8Append(0, [cmd], data);
  }

  /** Incoming feedback frames the decoder accepts pass the same check. */
  lemma FeedbackFrameChecksum(payload: seq<uint8>)
    ensures ChecksumOk(FeedbackFrame(payload))
  {
    var f := FeedbackFrame(payload);
    assert f[..|f| - 1] == [SYNC, CMD_FEEDBACK] + payload;
  }
}
