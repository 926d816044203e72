/**
  Bytes and the little-endian framing the mailbox tests put on the wire: a
  stage tag byte followed by a `usize` pid (`to_le_bytes` / `from_le_bytes`,
  8 bytes on the 64-bit target) or a `u16` length.
*/
module Framing {

  /** u8 */
  newtype byte = x: int | 0 <= x < 256

  datatype Option<T> = None | Some(value: T)

  /** size_of::<usize>() on the target. */
  const UsizeBytes: nat := 8

  /** usize::MAX */
  const UsizeMax: nat := 0xFFFF_FFFF_FFFF_FFFF

  /** u16::MAX + 1 */
  const U16Modulus: nat := 0x1_0000

  /** The tag of the first message of both exchanges. */
  const StageHandshake: byte := 0

  function Pow256(n: nat): (r: nat)
    ensures r > 0
  {
    if n == 0 then 1 else 256 * Pow256(n - 1)
  }

  lemma UsizeRange()
    ensures Pow256(UsizeBytes) == UsizeMax + 1
    ensures Pow256(2) == U16Modulus
  {
  }

  /** `to_le_bytes` of an unsigned integer `width` bytes wide: least significant byte first. */
  function ToLe(x: nat, width: nat): (r: seq<byte>)
    requires x < Pow256(width)
    ensures |r| == width
    decreases width
  {
    if width == 0 then []
    else
      assert x / 256 < Pow256(width - 1);
      [(x % 256) as byte] + ToLe(x / 256, width - 1)
  }

  /** `from_le_bytes`: the unsigned integer whose little-endian bytes are `b`. */
  function FromLe(b: seq<byte>): (r: nat)
    ensures r < Pow256(|b|)
  {
    if b == [] then 0
    else
      var rest := FromLe(b[1..]);
      assert rest <= Pow256(|b| - 1) - 1;
      assert 256 * rest <= 256 * Pow256(|b| - 1) - 256;
      b[0] as nat + 256 * rest
  }

  /** Decoding what was encoded gives the number back. */
  lemma {:induction false} FromLeToLe(x: nat, width: nat)
    requires x < Pow256(width)
    ensures FromLe(ToLe(x, width)) == x
    decreases width
  {
    if width > 0 {
      var r := ToLe(x, width);
      assert r[1..] == ToLe(x / 256, width - 1);
      FromLeToLe(x / 256, width - 1);
    }
  }

  /** Encoding what was decoded gives the bytes back. */
  lemma {:induction false} ToLeFromLe(b: seq<byte>)
    ensures ToLe(FromLe(b), |b|) == b
  {
    if b != [] {
      var x := FromLe(b);
      var rest := FromLe(b[1..]);
      assert x == b[0] as nat + 256 * rest;
      assert x % 256 == b[0] as nat && x / 256 == rest;
      ToLeFromLe(b[1..]);
    }
  }

  /** `n as u16`: the low 16 bits. */
  function AsU16(n: nat): (r: nat)
    ensures r < U16Modulus
    ensures n < U16Modulus ==> r == n
  {
    n % U16Modulus
  }

  /** `usize::to_le_bytes` */
  function UsizeToLe(x: nat): (r: seq<byte>)
    requires x <= UsizeMax
    ensures |r| == UsizeBytes
  {
    UsizeRange();
    ToLe(x, UsizeBytes)
  }

  /** `usize::from_le_bytes` */
  function UsizeFromLe(b: seq<byte>): (r: nat)
    requires |b| == UsizeBytes
    ensures r <= UsizeMax
  {
    UsizeRange();
    FromLe(b)
  }

  /** `u16::to_le_bytes` */
  function U16ToLe(x: nat): (r: seq<byte>)
    requires x < U16Modulus
    ensures |r| == 2
  {
    UsizeRange();
    ToLe(x, 2)
  }

  /** `u16::from_le_bytes` */
  function U16FromLe(b: seq<byte>): (r: nat)
    requires |b| == 2
    ensures r < U16Modulus
  {
    UsizeRange();
    FromLe(b)
  }

  lemma UsizeRoundTrip(x: nat, b: seq<byte>)
    requires x <= UsizeMax && |b| == UsizeBytes
    ensures UsizeFromLe(UsizeToLe(x)) == x
    ensures UsizeToLe(UsizeFromLe(b)) == b
  {
    UsizeRange();
    FromLeToLe(x, UsizeBytes);
    ToLeFromLe(b);
  }

  lemma U16RoundTrip(x: nat, b: seq<byte>)
    requires x < U16Modulus && |b| == 2
    ensures U16FromLe(U16ToLe(x)) == x
    ensures U16ToLe(U16FromLe(b)) == b
  {
    UsizeRange();
    FromLeToLe(x, 2);
    ToLeFromLe(b);
  }

  // ---------------------------------------------------------------------------
  // The two frames
  // ---------------------------------------------------------------------------

  /** The handshake the parent sends: tag 0, then its pid as 8 little-endian bytes. */
  function Handshake(pid: nat): (m: seq<byte>)
    requires pid <= UsizeMax
    ensures |m| == 1 + UsizeBytes && m[0] == StageHandshake
  {
    [StageHandshake] + UsizeToLe(pid)
  }

  /** What the child accepts as a handshake (length 9, tag 0) and the pid it decodes from bytes 1..9. */
  function HandshakePid(m: seq<byte>): (r: Option<nat>)
    ensures r.Some? ==> r.value <= UsizeMax
  {
    if |m| == 1 + UsizeBytes && m[0] == StageHandshake then Some(UsizeFromLe(m[1..])) else None
  }

  /** The handshake frame round-trips the sender's pid, and every accepted
      handshake is the encoding of the pid decoded from it. */
  lemma {:induction false} HandshakeRoundTrip(pid: nat, m: seq<byte>)
    requires pid <= UsizeMax
    ensures HandshakePid(Handshake(pid)) == Some(pid)
    ensures HandshakePid(m).Some? ==> Handshake(HandshakePid(m).value) == m
  {
    var h := Handshake(pid);
    assert h[1..] == UsizeToLe(pid);
    UsizeRoundTrip(pid, UsizeToLe(pid));
    if HandshakePid(m).Some? {
      UsizeRoundTrip(pid, m[1..]);
      assert m == [m[0]] + m[1..];
    }
  }

  /** A length acknowledgement: the stage tag, then `len as u16` little-endian. */
  function LenAck(stage: byte, len: nat): (m: seq<byte>)
    ensures |m| == 3 && m[0] == stage
  {
    [stage] + U16ToLe(AsU16(len))
  }

  /** The length a three-byte acknowledgement tagged `stage` reports. */
  function AckedLen(stage: byte, m: seq<byte>): Option<nat>
  {
    if |m| == 3 && m[0] == stage then Some(U16FromLe(m[1..])) else None
  }

  /** A length acknowledgement reports the length modulo 2^16; a length below
      2^16, such as 256, comes back unchanged; and every accepted
      acknowledgement is the encoding of the length decoded from it. */
  lemma {:induction false} LenAckRoundTrip(stage: byte, len: nat, m: seq<byte>)
    ensures AckedLen(stage, LenAck(stage, len)) == Some(AsU16(len))
    ensures len < U16Modulus ==> AckedLen(stage, LenAck(stage, len)) == Some(len)
    ensures AckedLen(stage, m).Some? ==> LenAck(stage, AckedLen(stage, m).value) == m
  {
    var a := LenAck(stage, len);
    assert a[1..] == U16ToLe(AsU16(len));
    U16RoundTrip(AsU16(len), a[1..]);
    if AckedLen(stage, m).Some? {
      U16RoundTrip(AsU16(len), m[1..]);
      assert m == [m[0]] + m[1..];
    }
  }

  /** `dst[at..].copy_from_slice(src)`; the slice lengths must agree, or Rust panics. */
  method CopyFromSlice(dst: array<byte>, at: nat, src: seq<byte>)
    requires at + |src| == dst.Length
    modifies dst
    ensures dst[..] == old(dst[..at]) + src
  {
    forall k | 0 <= k < |src| {
      dst[at + k] := src[k];
    }
  }
}
