/** `AP_Erm_Companion`: the driver object for the companion tracker link. Its
    fields are updated in place by the poll, the parse and the stop command;
    TrackerLink gives the value each method is proved against. */
module ErmCompanion {
  import opened Common
  import opened TrackerLink

  /** `send_command(cmd, data, size)`: all of `cmd`, the data and their 8-bit sum,
      or nothing when the port reports less than `size + 5` bytes of space. It
      uses no field of the driver, only the port. */
  method SendCommand(tx: TxPort, cmd: uint8, data: seq<uint8>) returns (r: TxPort)
    requires |data| < 0x100  // size is a uint8_t
    ensures tx.space < |data| + 5 ==> r == tx
    ensures tx.space >= |data| + 5 ==>
              && r.written == tx.written + CommandFrame(cmd, data)
              && r.space == tx.space - (|data| + 2)
  {
    if tx.space < |data| + 5 {
      return tx;
    }
    var checksum: uint8 := cmd;
    r := Write(tx, cmd);
    ghost var head := tx.written + [cmd];
    var i := 0;
    while i != |data|
      invariant 0 <= i <= |data|
      invariant checksum == Sum8(cmd, data[..i])
      invariant r.written == head + data[..i]
      invariant r.space == tx.space - 1 - i
    {
      var b := data[i];
      PrefixSnoc(head, data, i);
      Sum8Snoc(cmd, data[..i], b);
      checksum := (checksum + b) % 0x100;
      r := Write(r, b);
      i := i + 1;
    }
    assert data[..i] == data;
    r := Write(r, checksum);
  }

  /** Extending a prefix of `data` by its next byte. */
  lemma PrefixSnoc(head: seq<uint8>, data: seq<uint8>, i: nat)
    requires i < |data|
    ensures data[..i + 1] == data[..i] + [data[i]]
    ensures head + data[..i + 1] == (head + data[..i]) + [data[i]]
  {
    assert data[..i + 1] == data[..i] + [data[i]];
  }

  class Companion {
    const cfg: Config
    const receiveBuffer: array<uint8>

    var initialised: bool
    var step: Step
    var checksum: uint8
    var payloadCounter: nat
    var failures: nat          // _confidence_zero_counter
    var confidence: int
    var x0: int
    var x1: int
    var y0: int
    var y1: int
    /** The leading bytes of `_sendBuffer`, the start-tracking request. */
    var sendBuffer: seq<uint8>

    /** The decoder's state as a TrackerLink value. */
    function Snapshot(): Link
      reads this, receiveBuffer
    {
      Link(step, checksum, payloadCounter, failures, receiveBuffer[..],
           Feedback(confidence, x0, x1, y0, y1))
    }

    ghost predicate Valid()
      reads this, receiveBuffer
    {
      receiveBuffer.Length == cfg.payloadSize && WellFormed(cfg, Snapshot())
    }

    /** A driver in static storage: every field zero, not initialised. */
    constructor (config: Config)
      requires ValidConfig(config)
      ensures Valid() && fresh(receiveBuffer) && cfg == config && !initialised
      ensures Snapshot() == Link(WaitSync, 0, 0, 0, seq(config.payloadSize, _ => 0), Feedback(0, 0, 0, 0, 0))
    {
      cfg := config;
      receiveBuffer := new uint8[config.payloadSize](_ => 0);
      initialised := false;
      step, checksum, payloadCounter, failures := WaitSync, 0, 0, 0;
      confidence, x0, x1, y0, y1 := 0, 0, 0, 0, 0;
      sendBuffer := [];
      new;
      assert receiveBuffer[..] == seq(config.payloadSize, _ => 0);
    }

    /** `init`: the serial manager's lookup is an input; a found port
        initialises the driver, a missing one leaves it as it was. */
    method Init(portFound: bool)
      modifies this`initialised
      ensures initialised == (old(initialised) || portFound)
    {
      if portFound {
        initialised := true;
      }
    }

    /** One pass of the `switch (_step)` on the fields. */
    method FeedByte(b: uint8)
      requires Valid()
      modifies this, receiveBuffer
      ensures Valid()
      ensures Snapshot() == Feed(cfg, old(Snapshot()), b)
      ensures initialised == old(initialised) && sendBuffer == old(sendBuffer)
    {
      match step
      case WaitSync =>
        if b == SYNC {
          step := WaitCommand;
          checksum := b;
        } else {
          failures := Bump(cfg, failures);
        }
      case WaitCommand =>
        if b == CMD_FEEDBACK {
          step := Body;
          checksum := (checksum + b) % 0x100;
        } else {
          step := WaitSync;
          failures := Bump(cfg, failures);
        }
      case Body =>
        checksum := (checksum + b) % 0x100;
        if payloadCounter < cfg.payloadSize {
          receiveBuffer[payloadCounter] := b;
        }
        payloadCounter := Increment(payloadCounter, cfg.counterModulus);
        if payloadCounter == cfg.payloadSize {
          step := Checksum;
        }
      case Checksum =>
        step := WaitSync;
        if checksum != b {
          failures := Bump(cfg, failures);
        } else {
          ParseBody();
          failures := 0;
        }
    }

    /** `parse_body`: the tracked feedback becomes the decoded receive buffer. */
    method ParseBody()
      modifies this`confidence, this`x0, this`x1, this`y0, this`y1
      ensures Feedback(confidence, x0, x1, y0, y1) == cfg.decode(receiveBuffer[..])
    {
      var f := cfg.decode(receiveBuffer[..]);
      confidence, x0, x1, y0, y1 := f.confidence, f.x0, f.x1, f.y0, f.y1;
    }

    /** `read_incoming`: `available` is what `available()` reported, as the
        int16_t the source stores it in, and `rx` the bytes `read()` returns. */
    method ReadIncoming(available: int16, rx: seq<uint8>)
      requires Valid()
      requires available < 0 || available <= |rx|
      modifies this, receiveBuffer
      ensures Valid()
      ensures Snapshot() == Poll(cfg, old(Snapshot()), available, rx)
      ensures initialised == old(initialised) && sendBuffer == old(sendBuffer)
    {
      if available < 0 {
        confidence := 0;
        return;
      }
      step := WaitSync;
      payloadCounter := 0;
      ghost var start := Snapshot();
      var i := 0;
      while i < available
        invariant 0 <= i <= available
        invariant Valid()
        invariant Snapshot() == Run(cfg, start, rx[..i])
        invariant initialised == old(initialised) && sendBuffer == old(sendBuffer)
      {
        assert rx[..i + 1][..i] == rx[..i];
        FeedByte(rx[i]);
        i := i + 1;
      }
      if failures > FAILURE_LIMIT {
        failures := 0;
        confidence := 0;
      }
    }

    /** `update`: poll the link, then ask for the next report with 0x0E 0x04
        0x04, each byte sent only if there is room for it. */
    method Update(available: int16, rx: seq<uint8>, tx: TxPort) returns (r: TxPort)
      requires Valid()
      requires available < 0 || available <= |rx|
      modifies this, receiveBuffer
      ensures Valid() && initialised == old(initialised) && sendBuffer == old(sendBuffer)
      ensures !initialised ==> r == tx && Snapshot() == old(Snapshot())
      ensures initialised ==>
                && Snapshot() == Poll(cfg, old(Snapshot()), available, rx)
                && r == SendByte(SendByte(SendByte(tx, SYNC), POLL_REQUEST), POLL_REQUEST)
    {
      if !initialised {
        return tx;
      }
      ReadIncoming(available, rx);
      r := SendByte(tx, SYNC);
      r := SendByte(r, POLL_REQUEST);
      r := SendByte(r, POLL_REQUEST);
    }

    /** `startTracking`: store the box in the send buffer, send the sync byte
        if there is room, then the start command framed by SendCommand. The
        sync byte goes out even when the command itself is dropped. */
    method StartTracking(tx: TxPort, bx0: uint16, bx1: uint16, by0: uint16, by1: uint16)
      returns (r: TxPort)
      requires |cfg.encodeStart(bx0, bx1, by0, by1)| < 0x100
      modifies this`sendBuffer
      ensures !initialised ==> r == tx && sendBuffer == old(sendBuffer)
      ensures initialised ==> sendBuffer == cfg.encodeStart(bx0, bx1, by0, by1)
      ensures initialised ==>
                var afterSync := SendByte(tx, SYNC);
                var request := cfg.encodeStart(bx0, bx1, by0, by1);
                && (afterSync.space < |request| + 5 ==> r == afterSync)
                && (afterSync.space >= |request| + 5 ==>
                      r.written == afterSync.written + CommandFrame(CMD_START_TRACKING, request))
    {
      if !initialised {
        return tx;
      }
      sendBuffer := cfg.encodeStart(bx0, bx1, by0, by1);
      r := SendByte(tx, SYNC);
      r := SendCommand(r, CMD_START_TRACKING, sendBuffer);
    }

    /** `stopTracking`: 0x0E 0x02 0x02, each byte guarded on its own, then the
        confidence drops to zero. */
    method StopTracking(tx: TxPort) returns (r: TxPort)
      modifies this`confidence
      ensures !initialised ==> r == tx && confidence == old(confidence)
      ensures initialised ==>
                && confidence == 0
                && r == SendByte(SendByte(SendByte(tx, SYNC), STOP_TRACKING), STOP_TRACKING)
    {
      if !initialised {
        return tx;
      }
      r := SendByte(tx, SYNC);
      r := SendByte(r, STOP_TRACKING);
      r := SendByte(r, STOP_TRACKING);
      confidence := 0;
    }
  }

  /** What stopTracking puts on the wire, by the space the port has. */
  lemma StopTrackingBytes(tx: TxPort)
    ensures var r := SendByte(SendByte(SendByte(tx, SYNC), STOP_TRACKING), STOP_TRACKING);
      && (tx.space >= 3 ==> r.written == tx.written + [SYNC, STOP_TRACKING, STOP_TRACKING])
      && (tx.space < 3 ==> r.written == tx.written + [SYNC, STOP_TRACKING, STOP_TRACKING][..tx.space])
  {
  }
}
