/**
  The single-process mailbox test: a process probes, fills, overfills and
  drains its own mailbox, and every return value it checks must be the one
  the mailbox contract gives.
*/
module MailboxSelf {
  import opened Framing
  import opened Mailbox

  /** The one-byte messages i, i+1, ..., j-1. */
  function Singles(i: nat, j: nat): (q: seq<Message>)
    requires i <= j <= 256
    ensures |q| == j - i
    ensures forall k :: 0 <= k < |q| ==> q[k] == [(i + k) as byte]
  {
    seq(j - i, k requires 0 <= k < j - i => [(i + k) as byte])
  }

  /** `n` copies of `x`. */
  function Repeat(x: int, n: nat): (s: seq<int>)
    ensures |s| == n
  {
    if n == 0 then [] else Repeat(x, n - 1) + [x]
  }

  /** The bytes 0, 1, ..., n-1. */
  function Counting(n: nat): (s: seq<byte>)
    requires n <= 256
    ensures |s| == n && forall k :: 0 <= k < n ==> s[k] == k as byte
  {
    seq(n, k requires 0 <= k < n => k as byte)
  }

  /** The first loop of main_impl: sixteen one-byte messages 0..15 written to
      one's own empty mailbox each return 1 and fill it in order. */
  method FillOwn(k: MailSystem, self: Pid) returns (results: seq<int>)
    requires self in k.boxes && k.boxes[self] == []
    modifies k
    ensures k.boxes == old(k.boxes)[self := Singles(0, Capacity)]
    ensures results == Repeat(1, Capacity)
  {
    results := [];
    for i := 0 to Capacity
      invariant k.boxes == old(k.boxes)[self := Singles(0, i)]
      invariant results == Repeat(1, i)
    {
      var payload := [i as byte];
      var r := k.MailWrite(self, payload);
      assert r == 1;
      assert Singles(0, i) + [payload] == Singles(0, i + 1);
      assert k.boxes == old(k.boxes)[self := Singles(0, i + 1)];
      results := results + [r];
    }
  }

  /** The second loop of main_impl: with messages 1..15 queued, fifteen
      one-byte reads each return 1 and deliver 1, 2, ..., 15 in that order,
      leaving the mailbox empty. */
  method DrainOwn(k: MailSystem, self: Pid, single: array<byte>) returns (results: seq<int>, payloads: seq<byte>)
    requires self in k.boxes && k.boxes[self] == Singles(1, Capacity)
    requires single.Length == 1
    modifies k, single
    ensures k.boxes == old(k.boxes)[self := []]
    ensures results == Repeat(1, Capacity - 1)
    ensures [0 as byte] + payloads == Counting(Capacity)
  {
    results, payloads := [], [];
    assert [0 as byte] == Counting(1);
    for expected := 1 to Capacity
      invariant k.boxes == old(k.boxes)[self := Singles(expected, Capacity)]
      invariant results == Repeat(1, expected - 1)
      invariant [0 as byte] + payloads == Counting(expected)
    {
      var r := k.MailRead(self, single);
      assert r == 1;
      assert single[0] == expected as byte;
      assert Singles(expected, Capacity)[1..] == Singles(expected + 1, Capacity);
      results := results + [r];
      assert Counting(expected + 1) == Counting(expected) + [single[0]];
      payloads := payloads + [single[0]];
    }
  }

  /** main_impl of ch7b_mailbox_self. The process `self` starts with an empty
      mailbox. Returns the exit code, every mail_read/mail_write return value
      in call order, and the payload bytes the one-byte reads delivered. */
  method SelfTest(self: Pid) returns (code: int, results: seq<int>, payloads: seq<byte>)
    ensures results == [-1] + Repeat(1, Capacity) + [-1, -1, 0, 1, 0]
                       + Repeat(1, Capacity - 1) + [-1, -1]
    ensures payloads == Counting(Capacity)
    ensures code == 0
  {
    var k := new MailSystem({self});
    var empty := new byte[0];

    // a zero-length read of an empty mailbox fails
    var r0 := k.MailRead(self, empty);
    assert r0 == -1;

    // sixteen one-byte messages fit
    var filled := FillOwn(k, self);

    // a seventeenth fails, even with no bytes
    var r1 := k.MailWrite(self, [0xff]);
    assert r1 == -1;
    var r2 := k.MailWrite(self, empty[..]);
    assert r2 == -1;

    // a zero-length read of a non-empty mailbox returns 0 and keeps the message
    var r3 := k.MailRead(self, empty);
    assert r3 == 0;

    var single := new byte[1];
    var r4 := k.MailRead(self, single);
    assert r4 == 1;
    assert single[0] == 0;
    var first := single[0];

    // one slot is free again; a zero-length write succeeds and stores nothing
    var r5 := k.MailWrite(self, empty[..]);
    assert r5 == 0;
    assert Singles(0, Capacity)[1..] == Singles(1, Capacity);

    // the remaining fifteen come out in the order written
    var drained, rest := DrainOwn(k, self, single);

    // drained: reads of any length fail
    var r6 := k.MailRead(self, single);
    assert r6 == -1;
    var r7 := k.MailRead(self, empty);
    assert r7 == -1;

    results := [r0] + filled + [r1, r2, r3, r4, r5] + drained + [r6, r7];
    payloads := [first] + rest;
    code := 0;
  }
}
