/** Fixed-width integers, the write side of a serial port, and the 8-bit additive
    checksum shared by the drivers. */
module Common {

  type uint8 = x: int | 0 <= x < 0x100
  type uint16 = x: int | 0 <= x < 0x1_0000
  type int16 = x: int | -0x8000 <= x < 0x8000
  type uint32 = x: int | 0 <= x < 0x1_0000_0000
  type int32 = x: int | -0x8000_0000 <= x < 0x8000_0000

  const INT32_MAX: int32 := 0x7FFF_FFFF

  datatype Option<T> = None | Some(value: T)

  /** `now - since` computed on uint32_t, which wraps modulo 2^32. */
  function Elapsed(since: uint32, now: uint32): (d: uint32)
    ensures since <= now ==> d == now - since
    ensures now < since ==> d == now + 0x1_0000_0000 - since
  {
    (now - since) % 0x1_0000_0000
  }

  /** Advancing a uint32 clock by d (with wrap-around) is undone by Elapsed. */
  lemma ElapsedAfterAdvance(since: uint32, d: uint32)
    ensures Elapsed(since, (since + d) % 0x1_0000_0000) == d
  {
    if since + d >= 0x1_0000_0000 {
      assert (since + d) % 0x1_0000_0000 == since + d - 0x1_0000_0000;
    }
  }

  /** Plain integer sum of a byte sequence. */
  function Total(bs: seq<uint8>): (t: nat)
    ensures t <= 255 * |bs|
    decreases |bs|
  {
    if bs == [] then 0 else Total(bs[..|bs| - 1]) + bs[|bs| - 1]
  }

  /** The 8-bit additive checksum: `seed` plus every byte of `bs`, accumulated
      in a uint8_t, as the drivers do byte by byte. */
  function Sum8(seed: uint8, bs: seq<uint8>): (c: uint8)
    ensures c == (seed + Total(bs)) % 0x100
    decreases |bs|
  {
    if bs == [] then seed
    else
      var prev := Sum8(seed, bs[..|bs| - 1]);
      ModAddStep(seed + Total(bs[..|bs| - 1]), bs[|bs| - 1]);
      (prev + bs[|bs| - 1]) % 0x100
  }

  lemma ModAddStep(a: nat, b: nat)
    ensures (a % 0x100 + b) % 0x100 == (a + b) % 0x100
  {
    var q := a / 0x100;
    assert a == q * 0x100 + a % 0x100;
    assert a + b == q * 0x100 + (a % 0x100 + b);
  }

  /** One more byte into the checksum. */
  lemma Sum8Snoc(seed: uint8, bs: seq<uint8>, b: uint8)
    ensures Sum8(seed, bs + [b]) == (Sum8(seed, bs) + b) % 0x100
  {
    assert (bs + [b])[..|bs|] == bs;
  }

  /** Checksumming a concatenation is checksumming the second part seeded with
      the checksum of the first. */
  lemma {:induction false} Sum8Append(seed: uint8, a: seq<uint8>, b: seq<uint8>)
    ensures Sum8(seed, a + b) == Sum8(Sum8(seed, a), b)
    decreases |b|
  {
    if b == [] {
      assert a + b == a;
    } else {
      var front, x := b[..|b| - 1], b[|b| - 1];
      assert b == front + [x];
      assert a + b == (a + front) + [x];
      Sum8Append(seed, a, front);
      Sum8Snoc(seed, a + front, x);
      Sum8Snoc(Sum8(seed, a), front, x);
    }
  }

  /** The write side of a serial port: free transmit space and the bytes
      written so far. Each written byte takes one unit of space. */
  datatype TxPort = TxPort(space: nat, written: seq<uint8>)

  /** `_port->write(b)` on a port with room for it. */
  function Write(tx: TxPort, b: uint8): (r: TxPort)
    requires tx.space > 0
    ensures r.written == tx.written + [b] && r.space == tx.space - 1
  {
    TxPort(tx.space - 1, tx.written + [b])
  }

  /** The guarded single-byte send both drivers use: a byte is written only when
      `txspace() >= 1`, otherwise dropped. */
  function SendByte(tx: TxPort, b: uint8): (r: TxPort)
    ensures tx.space == 0 ==> r == tx
    ensures tx.space > 0 ==> r.written == tx.written + [b] && r.space == tx.space - 1
  {
    if tx.space < 1 then tx else Write(tx, b)
  }
}
