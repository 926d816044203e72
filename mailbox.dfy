/**
  The per-process mailbox as the mailbox tests pin it down: every live
  process owns a FIFO of at most 16 messages; `mail_write` keeps at most 256
  bytes of a message and `mail_read` hands out the oldest one.

  `Write` and `Read` are the reference on values; the class MailSystem is the
  kernel-side store that the test scripts call, proved against them.
*/
module Mailbox {
  import opened Framing

  /** MAILBOX_CAPACITY */
  const Capacity: nat := 16

  /** MAX_MSG_LEN */
  const MaxMsgLen: nat := 256

  type Pid = nat
  type Message = seq<byte>

  /** The mailboxes of the live processes, by pid. */
  type Boxes = map<Pid, seq<Message>>

  datatype WriteOutcome = WriteOutcome(boxes: Boxes, ret: int)

  /** `copied` is what lands at the front of the caller's buffer. */
  datatype ReadOutcome = ReadOutcome(boxes: Boxes, ret: int, copied: seq<byte>)

  function Min(a: nat, b: nat): nat
  {
    if a <= b then a else b
  }

  /** A queue the kernel can hold: at most 16 messages of 1 to 256 bytes. */
  predicate ValidQueue(q: seq<Message>)
  {
    |q| <= Capacity && forall i :: 0 <= i < |q| ==> 0 < |q[i]| <= MaxMsgLen
  }

  predicate ValidBoxes(b: Boxes)
  {
    forall p :: p in b ==> ValidQueue(b[p])
  }

  /** The part of a payload a write keeps. */
  function Retained(data: seq<byte>): (r: seq<byte>)
    ensures |r| == Min(|data|, MaxMsgLen)
    ensures r == data[..|r|]
  {
    if |data| <= MaxMsgLen then data else data[..MaxMsgLen]
  }

  /** mail_write(dst, data). */
  function Write(b: Boxes, dst: Pid, data: seq<byte>): WriteOutcome
  {
    if dst !in b || |b[dst]| >= Capacity then WriteOutcome(b, -1)
    else if |data| == 0 then WriteOutcome(b, 0)
    else WriteOutcome(b[dst := b[dst] + [Retained(data)]], |Retained(data)|)
  }

  /** mail_read(buf) issued by the live process `me` with a buffer of `bufLen` bytes. */
  function Read(b: Boxes, me: Pid, bufLen: nat): ReadOutcome
    requires me in b
  {
    var q := b[me];
    if q == [] then ReadOutcome(b, -1, [])
    else if bufLen == 0 then ReadOutcome(b, 0, [])
    else ReadOutcome(b[me := q[1..]], |q[0]|, q[0][..Min(bufLen, |q[0]|)])
  }

  // ---------------------------------------------------------------------------
  // Properties of the reference
  // ---------------------------------------------------------------------------

  /** A write fails exactly for a pid with no mailbox or a full one, and then
      changes nothing; otherwise it returns how many bytes it kept (at most 256,
      all of a payload of up to 256), queues them at the tail unless there are
      none, and leaves every other mailbox alone. */
  lemma WriteContract(b: Boxes, dst: Pid, data: seq<byte>)
    ensures var o := Write(b, dst, data);
            && (o.ret == -1 <==> dst !in b || |b[dst]| >= Capacity)
            && (o.ret == -1 ==> o.boxes == b)
            && (o.ret != -1 ==> o.ret == Min(|data|, MaxMsgLen) && 0 <= o.ret <= MaxMsgLen)
            && (o.ret != -1 && |data| <= MaxMsgLen ==> o.ret == |data|)
            && (o.ret == 0 ==> o.boxes == b)
            && (o.ret > 0 ==> o.boxes == b[dst := b[dst] + [data[..o.ret]]])
            && o.boxes.Keys == b.Keys
  {
  }

  /** A write to a full mailbox fails whatever its length, zero included. */
  lemma FullRejects(b: Boxes, dst: Pid, data: seq<byte>)
    requires dst in b && |b[dst]| == Capacity
    ensures Write(b, dst, data) == WriteOutcome(b, -1)
  {
  }

  /** A read of an empty mailbox fails and changes nothing; a read of a
      non-empty one with a zero-length buffer returns 0 and dequeues nothing;
      otherwise it removes the head, returns its stored length, and copies as
      much of it as the buffer holds. */
  lemma ReadContract(b: Boxes, me: Pid, bufLen: nat)
    requires me in b
    ensures var o := Read(b, me, bufLen);
            && (o.ret == -1 <==> b[me] == [])
            && (bufLen == 0 ==> o.boxes == b && (o.ret == -1 || o.ret == 0))
            && (b[me] != [] && bufLen > 0 ==>
                  o.ret == |b[me][0]| && o.boxes == b[me := b[me][1..]] &&
                  |o.copied| == Min(bufLen, o.ret) && o.copied == b[me][0][..|o.copied|])
            && o.boxes.Keys == b.Keys
  {
  }

  /** Writes keep every mailbox within its bounds. */
  lemma WritePreservesValid(b: Boxes, dst: Pid, data: seq<byte>)
    requires ValidBoxes(b)
    ensures ValidBoxes(Write(b, dst, data).boxes)
  {
  }

  /** Reads keep every mailbox within its bounds. */
  lemma ReadPreservesValid(b: Boxes, me: Pid, bufLen: nat)
    requires ValidBoxes(b) && me in b
    ensures ValidBoxes(Read(b, me, bufLen).boxes)
  {
  }

  /** A message written to one's own empty mailbox and read back into a
      buffer that holds it comes back as the bytes the write kept, with the
      count the write returned, and the mailbox is empty again. */
  lemma WriteReadRoundTrip(b: Boxes, p: Pid, data: seq<byte>, bufLen: nat)
    requires p in b && b[p] == []
    requires |data| > 0 && bufLen >= Min(|data|, MaxMsgLen)
    ensures var w := Write(b, p, data);
            var r := Read(w.boxes, p, bufLen);
            w.ret == |Retained(data)| && r.ret == w.ret &&
            r.copied == Retained(data) && r.boxes == b
  {
  }

  /** A write of a non-empty payload into an empty mailbox queues what it keeps. */
  lemma WriteIntoEmpty(b: Boxes, dst: Pid, data: seq<byte>)
    requires dst in b && b[dst] == [] && |data| > 0
    ensures Write(b, dst, data) == WriteOutcome(b[dst := [Retained(data)]], |Retained(data)|)
    ensures |data| <= MaxMsgLen ==> Retained(data) == data
    ensures |data| > MaxMsgLen ==> Retained(data) == data[..MaxMsgLen]
  {
    assert [] + [Retained(data)] == [Retained(data)];
  }

  /** A read of a mailbox holding one message empties it. */
  lemma ReadOnly(b: Boxes, me: Pid, m: Message, bufLen: nat)
    requires me in b && b[me] == [m] && bufLen > 0
    ensures Read(b, me, bufLen) == ReadOutcome(b[me := []], |m|, m[..Min(bufLen, |m|)])
  {
  }

  // ---------------------------------------------------------------------------
  // FIFO order over many calls
  // ---------------------------------------------------------------------------

  /** Write each of `ms` to `dst` in turn; the boxes after, and the returned counts. */
  function WriteAll(b: Boxes, dst: Pid, ms: seq<Message>): (Boxes, seq<int>)
    decreases |ms|
  {
    if ms == [] then (b, [])
    else
      var o := Write(b, dst, ms[0]);
      var rest := WriteAll(o.boxes, dst, ms[1..]);
      (rest.0, [o.ret] + rest.1)
  }

  /** `n` reads by `me` with buffers of `bufLen` bytes; the boxes after, and what each copied. */
  function ReadN(b: Boxes, me: Pid, n: nat, bufLen: nat): (r: (Boxes, seq<seq<byte>>))
    requires me in b
    ensures me in r.0
  {
    if n == 0 then (b, [])
    else
      var o := Read(b, me, bufLen);
      var rest := ReadN(o.boxes, me, n - 1, bufLen);
      (rest.0, [o.copied] + rest.1)
  }

  /** The kept parts of `ms`, in order. */
  function RetainedAll(ms: seq<Message>): (r: seq<Message>)
    ensures |r| == |ms|
  {
    if ms == [] then [] else [Retained(ms[0])] + RetainedAll(ms[1..])
  }

  /** Writes that fit all succeed, each returning the bytes it kept, and
      queue those bytes at the tail in the order written. */
  lemma {:induction false} WritesQueueAtTail(b: Boxes, dst: Pid, ms: seq<Message>)
    requires dst in b && |b[dst]| + |ms| <= Capacity
    requires forall i :: 0 <= i < |ms| ==> |ms[i]| > 0
    ensures var (b', rets) := WriteAll(b, dst, ms);
            b' == b[dst := b[dst] + RetainedAll(ms)] &&
            |rets| == |ms| && forall i :: 0 <= i < |ms| ==> rets[i] == Min(|ms[i]|, MaxMsgLen)
    decreases |ms|
  {
    if ms == [] {
      assert b[dst] + RetainedAll(ms) == b[dst];
      assert b[dst := b[dst]] == b;
    } else {
      var o := Write(b, dst, ms[0]);
      assert o.boxes == b[dst := b[dst] + [Retained(ms[0])]];
      WritesQueueAtTail(o.boxes, dst, ms[1..]);
      assert (b[dst] + [Retained(ms[0])]) + RetainedAll(ms[1..]) == b[dst] + RetainedAll(ms);
      assert o.boxes[dst := o.boxes[dst] + RetainedAll(ms[1..])] == b[dst := b[dst] + RetainedAll(ms)];
    }
  }

  /** Reads with buffers that hold each of the first `n` queued messages hand
      those messages out whole, oldest first, and remove exactly those. */
  lemma {:induction false} ReadsFromHead(b: Boxes, me: Pid, n: nat, bufLen: nat)
    requires me in b && n <= |b[me]| && bufLen > 0
    requires forall i :: 0 <= i < n ==> |b[me][i]| <= bufLen
    ensures ReadN(b, me, n, bufLen) == (b[me := b[me][n..]], b[me][..n])
    decreases n
  {
    if n == 0 {
      assert b[me := b[me][0..]] == b;
    } else {
      var q := b[me];
      var o := Read(b, me, bufLen);
      assert o.copied == q[0];
      assert o.boxes == b[me := q[1..]];
      assert forall i :: 0 <= i < n - 1 ==> q[1..][i] == q[i + 1];
      ReadsFromHead(o.boxes, me, n - 1, bufLen);
      assert q[1..][n - 1..] == q[n..];
      assert [q[0]] + q[1..][..n - 1] == q[..n];
      assert o.boxes[me := q[n..]] == b[me := q[n..]];
    }
  }

  /** FIFO end to end: messages written to an empty mailbox are read back,
      in the order written, into buffers that hold what each write kept, as
      exactly those bytes; then the mailbox is empty and a further read fails. */
  lemma FifoOrder(b: Boxes, p: Pid, ms: seq<Message>, bufLen: nat)
    requires p in b && b[p] == [] && |ms| <= Capacity && bufLen > 0
    requires forall i :: 0 <= i < |ms| ==> |ms[i]| > 0
    requires forall i :: 0 <= i < |ms| ==> Min(|ms[i]|, MaxMsgLen) <= bufLen
    ensures var w := WriteAll(b, p, ms).0;
            p in w &&
            var r := ReadN(w, p, |ms|, bufLen);
            r.1 == RetainedAll(ms) && r.0 == b && Read(r.0, p, bufLen).ret == -1
  {
    WritesQueueAtTail(b, p, ms);
    var w := WriteAll(b, p, ms).0;
    assert w[p] == RetainedAll(ms);
    RetainedAllAt(ms);
    ReadsFromHead(w, p, |ms|, bufLen);
    assert w[p][|ms|..] == [];
    assert w[p][..|ms|] == RetainedAll(ms);
    assert w[p := []] == b;
  }

  /** The i-th kept message is what the i-th write kept. */
  lemma {:induction false} RetainedAllAt(ms: seq<Message>)
    ensures forall i :: 0 <= i < |ms| ==> RetainedAll(ms)[i] == Retained(ms[i])
    decreases |ms|
  {
    if ms != [] {
      RetainedAllAt(ms[1..]);
      assert forall i :: 1 <= i < |ms| ==> RetainedAll(ms)[i] == RetainedAll(ms[1..])[i - 1];
    }
  }

  // ---------------------------------------------------------------------------
  // The kernel-side store
  // ---------------------------------------------------------------------------

  /** The mailboxes of all live processes, updated in place by the two calls. */
  class MailSystem {
    var boxes: Boxes

    /** Every live process starts with an empty mailbox. */
    constructor (live: set<Pid>)
      ensures boxes == map p | p in live :: []
      ensures ValidBoxes(boxes)
    {
      boxes := map p | p in live :: [];
    }

    /** mail_write(dst, data) */
    method MailWrite(dst: Pid, data: seq<byte>) returns (r: int)
      modifies this
      ensures Write(old(boxes), dst, data) == WriteOutcome(boxes, r)
    {
      if dst !in boxes || |boxes[dst]| >= Capacity {
        return -1;
      }
      var n := Min(|data|, MaxMsgLen);
      if n > 0 {
        boxes := boxes[dst := boxes[dst] + [data[..n]]];
      }
      r := n;
    }

    /** mail_read(buf) issued by the live process `me`. */
    method MailRead(me: Pid, buf: array<byte>) returns (r: int)
      requires me in boxes
      modifies this, buf
      ensures var o := Read(old(boxes), me, buf.Length);
              boxes == o.boxes && r == o.ret &&
              |o.copied| <= buf.Length && buf[..] == o.copied + old(buf[..])[|o.copied|..]
    {
      var q := boxes[me];
      if q == [] {
        return -1;
      }
      if buf.Length == 0 {
        return 0;
      }
      var msg := q[0];
      boxes := boxes[me := q[1..]];
      var n := Min(buf.Length, |msg|);
      forall k | 0 <= k < n {
        buf[k] := msg[k];
      }
      r := |msg|;
    }
  }
}
