/**
  ch7b_mailbox_limits: a handshake and a two-byte acknowledgement, a
  320-byte payload that the mailbox truncates to 256 bytes and whose length
  the child reports back, and a write to a pid that names no process.
*/
module MailboxLimits {
  import opened Framing
  import opened Mailbox
  import opened MailboxExchange

  /** OVERFLOW_LEN */
  const OverflowLen: nat := MaxMsgLen + 64

  /** STAGE_OVERFLOW */
  const StageOverflow: byte := 1

  /** The child's receive buffer. */
  const ChildBufLen: nat := 512

  /** What the test observes: the return value of each mailbox call in the
      order the calls happen, the pid the child decodes from the handshake,
      the acknowledgement the parent receives, and the length the parent
      decodes from the length acknowledgement. */
  datatype Observed = Observed(results: seq<int>, parentSeen: Pid, ack: seq<byte>, reported: nat)

  /** run_parent and run_child, for a parent and a child that are the only
      live processes, both with empty mailboxes. Every assertion of the two
      holds, and the calls return, in order, 9, 9, 2, 2, 256, 256, 3, 3, -1. */
  method LimitsTest(parent: Pid, child: Pid) returns (o: Observed)
    requires parent != child && parent < UsizeMax && child < UsizeMax
    ensures o.results == [9, 9, 2, 2, 256, 256, 3, 3, -1]
    ensures o.parentSeen == parent
    ensures o.ack == [StageHandshake, 0]
    ensures o.reported == MaxMsgLen
  {
    var k := new MailSystem({parent, child});
    assert k.boxes == Pair(parent, child, [], []);
    var sent := SendHandshake(k, parent, child);
    var handshakeLen, handshake, parentSeen := ReceiveHandshake(k, parent, child, ChildBufLen);
    var acked := AckHandshake(k, parentSeen, child, [StageHandshake, 0]);
    var got, ack := ReceiveHandshakeAck(k, parent, child, [StageHandshake, 0]);
    var written := SendLong(k, parent, child, StageOverflow, 0x55, OverflowLen);
    var overflowLen, overflow, overflowAcked := ReceiveLong(k, parent, child, StageOverflow, 0x55, ChildBufLen);
    var overflowGot, reported := ReceiveLenAck(k, parent, child, StageOverflow);
    // a pid that names no process
    var invalid := k.MailWrite(UsizeMax, [0x12, 0x34]);
    o := Observed([sent, handshakeLen, acked, got, written, overflowLen, overflowAcked, overflowGot, invalid],
                  parentSeen, ack, reported);
  }
}
