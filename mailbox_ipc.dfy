/**
  ch7b_mailbox_ipc: a handshake answered with "OK", a 288-byte payload that
  the mailbox truncates to 256 bytes and whose length the child reports
  back, and a six-byte message read into a four-byte buffer whose read
  still returns 6, the stored length.
*/
module MailboxIpc {
  import opened Framing
  import opened Mailbox
  import opened MailboxExchange

  /** STAGE_LARGE */
  const StageLarge: byte := 1

  /** STAGE_TRUNC */
  const StageTrunc: byte := 2

  /** LARGE_FILL */
  const LargeFill: byte := 0x5a

  /** LARGE_SEND_LEN */
  const LargeSendLen: nat := MaxMsgLen + 32

  /** TRUNC_TOTAL_LEN */
  const TruncTotalLen: nat := 6

  /** The child's receive buffer, [0u8; MAX_MSG_LEN]. */
  const ChildBufLen: nat := MaxMsgLen

  /** The handshake acknowledgement: tag 0, then b"OK". */
  function OkAck(): (m: seq<byte>)
    ensures |m| == 3 && m[0] == StageHandshake
  {
    [StageHandshake, 0x4f, 0x4b]
  }

  /** trunc_message */
  function TruncMessage(): (m: seq<byte>)
    ensures |m| == TruncTotalLen && m[0] == StageTrunc
  {
    [StageTrunc, 0xa0, 0xa1, 0xa2, 0xa3, 0xa4]
  }

  /** What the test observes: the return value of each mailbox call in the
      order the calls happen, the pid the child decodes, the handshake
      acknowledgement, the length the parent decodes, the four bytes the
      child's small buffer receives, and the four the parent receives back. */
  datatype Observed = Observed(results: seq<int>, parentSeen: Pid, ack: seq<byte>, lenReport: nat,
                               smallBuf: seq<byte>, truncAck: seq<byte>)

  /** run_parent: the six-byte message is kept whole. */
  method SendTrunc(k: MailSystem, parent: Pid, child: Pid) returns (wrote: int)
    requires parent != child
    requires k.boxes == Pair(parent, child, [], [])
    modifies k
    ensures k.boxes == Pair(parent, child, [], [TruncMessage()])
    ensures wrote == TruncTotalLen
  {
    WriteIntoEmpty(k.boxes, child, TruncMessage());
    PairUpdate(parent, child, [], [], [TruncMessage()]);
    wrote := k.MailWrite(child, TruncMessage());
  }

  /** run_child: a four-byte buffer receives the first four bytes of the
      message, the read returns the stored length 6 and dequeues the whole
      message, and the four bytes go back to the parent. */
  method ReceiveTrunc(k: MailSystem, parent: Pid, child: Pid) returns (truncLen: int, smallBuf: seq<byte>, acked: int)
    requires parent != child
    requires k.boxes == Pair(parent, child, [], [TruncMessage()])
    modifies k
    ensures k.boxes == Pair(parent, child, [TruncMessage()[..4]], [])
    ensures truncLen == TruncTotalLen && smallBuf == TruncMessage()[..4] && acked == 4
  {
    var small := new byte[4];
    ReadOnly(k.boxes, child, TruncMessage(), 4);
    PairUpdate(parent, child, [], [TruncMessage()], []);
    truncLen := k.MailRead(child, small);
    assert small[0] == StageTrunc;
    smallBuf := small[..];
    WriteIntoEmpty(k.boxes, parent, smallBuf);
    PairUpdate(parent, child, [], [], [smallBuf]);
    acked := k.MailWrite(parent, smallBuf);
  }

  /** run_parent: the four bytes echoed back are the message's first four. */
  method ReceiveTruncAck(k: MailSystem, parent: Pid, child: Pid) returns (got: int, truncAck: seq<byte>)
    requires parent != child
    requires k.boxes == Pair(parent, child, [TruncMessage()[..4]], [])
    modifies k
    ensures k.boxes == Pair(parent, child, [], [])
    ensures got == 4 && truncAck == TruncMessage()[..4]
  {
    var buf := new byte[4];
    ReadOnly(k.boxes, parent, TruncMessage()[..4], 4);
    PairUpdate(parent, child, [TruncMessage()[..4]], [], []);
    got := k.MailRead(parent, buf);
    truncAck := buf[..];
    assert truncAck[0] == StageTrunc;
    assert truncAck[1..4] == TruncMessage()[1..4];
  }

  /** run_parent and run_child, for a parent and a child that are the only
      live processes, both with empty mailboxes. Every assertion of the two
      holds, and the calls return, in order, 9, 9, 3, 3, 256, 256, 3, 3, 6,
      6, 4, 4. */
  method IpcTest(parent: Pid, child: Pid) returns (o: Observed)
    requires parent != child && parent < UsizeMax && child < UsizeMax
    ensures o.results == [9, 9, 3, 3, 256, 256, 3, 3, 6, 6, 4, 4]
    ensures o.parentSeen == parent
    ensures o.ack == [StageHandshake] + [0x4f, 0x4b]
    ensures o.lenReport == MaxMsgLen
    ensures o.smallBuf == [StageTrunc, 0xa0, 0xa1, 0xa2]
    ensures o.truncAck == o.smallBuf
  {
    var k := new MailSystem({parent, child});
    assert k.boxes == Pair(parent, child, [], []);
    var sent := SendHandshake(k, parent, child);
    var handshakeLen, handshake, parentSeen := ReceiveHandshake(k, parent, child, ChildBufLen);
    var acked := AckHandshake(k, parentSeen, child, OkAck());
    var got, ack := ReceiveHandshakeAck(k, parent, child, OkAck());
    var wrote := SendLong(k, parent, child, StageLarge, LargeFill, LargeSendLen);
    var largeLen, large, largeAcked := ReceiveLong(k, parent, child, StageLarge, LargeFill, ChildBufLen);
    var largeGot, lenReport := ReceiveLenAck(k, parent, child, StageLarge);
    var truncWrote := SendTrunc(k, parent, child);
    var truncLen, smallBuf, truncAcked := ReceiveTrunc(k, parent, child);
    var truncGot, truncAck := ReceiveTruncAck(k, parent, child);
    o := Observed([sent, handshakeLen, acked, got, wrote, largeLen, largeAcked, largeGot,
                   truncWrote, truncLen, truncAcked, truncGot],
                  parentSeen, ack, lenReport, smallBuf, truncAck);
  }
}
