/**
  The steps of the two parent/child mailbox tests. Both tests fork a child
  and then talk over the two processes' mailboxes only: the parent sends a
  handshake carrying its pid, the child answers with a short acknowledgement,
  the parent sends a payload longer than 256 bytes, and the child reports
  the length it received as a little-endian u16.

  Each process blocks on its next receive until the other has written, so
  the calls of the two processes happen in one order only. Each method below
  is one stretch of run_parent or run_child between two such hand-overs,
  stated over the mailboxes of the two processes; the blocking receive is a
  single successful mail_read, because until the awaited message is there
  every mail_read returns -1 and changes nothing (Mailbox.ReadContract).
*/
module MailboxExchange {
  import opened Framing
  import opened Mailbox

  /** The mailboxes of the parent and the child, the only live processes. */
  function Pair(parent: Pid, child: Pid, qp: seq<Message>, qc: seq<Message>): Boxes
  {
    map[parent := qp, child := qc]
  }

  lemma PairUpdate(parent: Pid, child: Pid, qp: seq<Message>, qc: seq<Message>, q: seq<Message>)
    requires parent != child
    ensures Pair(parent, child, qp, qc)[child := q] == Pair(parent, child, qp, q)
    ensures Pair(parent, child, qp, qc)[parent := q] == Pair(parent, child, q, qc)
  {
  }

  /** The 256 bytes the mailbox keeps of a long payload that starts with
      `stage` and is filled with `fill`. */
  function Filled(stage: byte, fill: byte): (m: seq<byte>)
    ensures |m| == MaxMsgLen && m[0] == stage
    ensures forall i :: 1 <= i < |m| ==> m[i] == fill
  {
    [stage] + seq(MaxMsgLen - 1, _ => fill)
  }

  /** run_parent: the handshake, tag 0 and the parent's pid as usize
      little-endian bytes, goes to the child and is kept whole. */
  method SendHandshake(k: MailSystem, parent: Pid, child: Pid) returns (sent: int)
    requires parent != child && parent < UsizeMax
    requires k.boxes == Pair(parent, child, [], [])
    modifies k
    ensures k.boxes == Pair(parent, child, [], [Handshake(parent)])
    ensures sent == 1 + UsizeBytes
  {
    var handshake := new byte[1 + UsizeBytes];
    handshake[0] := StageHandshake;
    CopyFromSlice(handshake, 1, UsizeToLe(parent));
    assert handshake[..] == Handshake(parent);
    WriteIntoEmpty(k.boxes, child, handshake[..]);
    PairUpdate(parent, child, [], [], [Handshake(parent)]);
    sent := k.MailWrite(child, handshake[..]);
  }

  /** run_child: the handshake is received whole into a buffer of `bufLen`
      bytes, `received` is the part of the buffer the read filled, and the
      parent's pid is decoded from it. */
  method ReceiveHandshake(k: MailSystem, parent: Pid, child: Pid, bufLen: nat)
    returns (handshakeLen: int, received: seq<byte>, parentSeen: Pid)
    requires parent != child && parent < UsizeMax && bufLen >= 1 + UsizeBytes
    requires k.boxes == Pair(parent, child, [], [Handshake(parent)])
    modifies k
    ensures k.boxes == Pair(parent, child, [], [])
    ensures handshakeLen == |received| == 1 + UsizeBytes && received[0] == StageHandshake
    ensures HandshakePid(received) == Some(parentSeen) && parentSeen == parent
  {
    var buf := new byte[bufLen];
    ReadOnly(k.boxes, child, Handshake(parent), bufLen);
    PairUpdate(parent, child, [], [Handshake(parent)], []);
    handshakeLen := k.MailRead(child, buf);
    assert buf[..handshakeLen] == Handshake(parent);
    var parentBytes := new byte[UsizeBytes];
    CopyFromSlice(parentBytes, 0, buf[1..handshakeLen]);
    assert parentBytes[..] == buf[..handshakeLen][1..];
    parentSeen := UsizeFromLe(parentBytes[..]);
    received := buf[..handshakeLen];
    HandshakeRoundTrip(parent, received);
  }

  /** run_child: the acknowledgement `ack` goes back to the pid the
      handshake carried and is kept whole. */
  method AckHandshake(k: MailSystem, parent: Pid, child: Pid, ack: seq<byte>) returns (acked: int)
    requires parent != child && 0 < |ack| <= MaxMsgLen
    requires k.boxes == Pair(parent, child, [], [])
    modifies k
    ensures k.boxes == Pair(parent, child, [ack], [])
    ensures acked == |ack|
  {
    WriteIntoEmpty(k.boxes, parent, ack);
    PairUpdate(parent, child, [], [], [ack]);
    acked := k.MailWrite(parent, ack);
  }

  /** run_parent: the acknowledgement is read into a buffer of its own size
      and arrives unchanged. */
  method ReceiveHandshakeAck(k: MailSystem, parent: Pid, child: Pid, ack: seq<byte>) returns (got: int, received: seq<byte>)
    requires parent != child && 0 < |ack| <= MaxMsgLen
    requires k.boxes == Pair(parent, child, [ack], [])
    modifies k
    ensures k.boxes == Pair(parent, child, [], [])
    ensures got == |ack| && received == ack
  {
    var buf := new byte[|ack|];
    ReadOnly(k.boxes, parent, ack, |ack|);
    PairUpdate(parent, child, [ack], [], []);
    got := k.MailRead(parent, buf);
    received := buf[..];
  }

  /** run_parent: of a payload of `sendLen` > 256 bytes, `stage` followed by
      `fill`, the mailbox keeps the first 256 and says so. */
  method SendLong(k: MailSystem, parent: Pid, child: Pid, stage: byte, fill: byte, sendLen: nat) returns (written: int)
    requires parent != child && sendLen > MaxMsgLen
    requires k.boxes == Pair(parent, child, [], [])
    modifies k
    ensures k.boxes == Pair(parent, child, [], [Filled(stage, fill)])
    ensures written == MaxMsgLen
  {
    var payload := new byte[sendLen](_ => fill);
    payload[0] := stage;
    WriteIntoEmpty(k.boxes, child, payload[..]);
    assert payload[..][..MaxMsgLen] == Filled(stage, fill);
    PairUpdate(parent, child, [], [], [Filled(stage, fill)]);
    written := k.MailWrite(child, payload[..]);
  }

  /** run_child: the truncated payload is received into a buffer of
      `bufLen` >= 256 bytes; `received`, the part of the buffer the read
      filled, is the tag followed by `fill` only, and the received length
      goes back as a u16 length acknowledgement. */
  method ReceiveLong(k: MailSystem, parent: Pid, child: Pid, stage: byte, fill: byte, bufLen: nat)
    returns (longLen: int, received: seq<byte>, acked: int)
    requires parent != child && bufLen >= MaxMsgLen
    requires k.boxes == Pair(parent, child, [], [Filled(stage, fill)])
    modifies k
    ensures k.boxes == Pair(parent, child, [LenAck(stage, MaxMsgLen)], [])
    ensures longLen == |received| == MaxMsgLen && acked == 3
    ensures received[0] == stage && forall i :: 1 <= i < |received| ==> received[i] == fill
  {
    var buf := new byte[bufLen];
    ReadOnly(k.boxes, child, Filled(stage, fill), bufLen);
    PairUpdate(parent, child, [], [Filled(stage, fill)], []);
    longLen := k.MailRead(child, buf);
    assert buf[..longLen] == Filled(stage, fill);
    assert buf[0] == stage;
    received := buf[..longLen];
    var lenBytes := U16ToLe(AsU16(longLen));
    var ack := [stage, lenBytes[0], lenBytes[1]];
    assert ack == LenAck(stage, MaxMsgLen);
    WriteIntoEmpty(k.boxes, parent, ack);
    PairUpdate(parent, child, [], [], [ack]);
    acked := k.MailWrite(parent, ack);
  }

  /** run_parent: the length acknowledgement carries the tag and reports 256. */
  method ReceiveLenAck(k: MailSystem, parent: Pid, child: Pid, stage: byte) returns (got: int, reported: nat)
    requires parent != child
    requires k.boxes == Pair(parent, child, [LenAck(stage, MaxMsgLen)], [])
    modifies k
    ensures k.boxes == Pair(parent, child, [], [])
    ensures got == 3 && reported == MaxMsgLen
  {
    var buf := new byte[3];
    ReadOnly(k.boxes, parent, LenAck(stage, MaxMsgLen), 3);
    PairUpdate(parent, child, [LenAck(stage, MaxMsgLen)], [], []);
    got := k.MailRead(parent, buf);
    assert buf[..] == LenAck(stage, MaxMsgLen);
    assert buf[0] == stage;
    assert buf[..][1..] == [buf[1], buf[2]];
    reported := U16FromLe([buf[1], buf[2]]);
    LenAckRoundTrip(stage, MaxMsgLen, buf[..]);
    assert AckedLen(stage, buf[..]) == Some(reported);
  }
}
