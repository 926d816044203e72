# Stackless coroutines and per-process mailboxes, modelled in Dafny

This project models two sequential parts of a teaching operating system's user-level tests.

1. **The stackless-coroutine executor** (`src/bin/ch8b_stackless_coroutine.rs`).
   - A `Task` holds a single state bit, `Halted` or `Running`.
   - A `Waiter` future flips that bit on every poll. From `Halted` it answers `Ready`; from `Running` it answers `Pending`.
   - `main` builds three async blocks, one per instance 1, 2 and 3. Each block prints a "begin" line, awaits a `Waiter`, prints "next", awaits again and prints "end".
   - The `Executor` keeps the boxed futures in a FIFO queue. It pops the head and polls it. A `Pending` future goes back to the tail and a `Ready` one is dropped.
2. **The mailbox contract pinned down by the three mailbox tests** (`ch7b_mailbox_self.rs`, `ch7b_mailbox_limits.rs`, `ch7b_mailbox_ipc.rs`).
   - Every live process owns a FIFO of at most 16 messages.
   - `mail_write` keeps at most 256 bytes of a payload.
   - `mail_read` hands out the oldest message.
   - The parent/child tests frame their messages with a stage tag byte. The tag is followed by either a `usize` pid as 8 little-endian bytes or a `u16` length.

## Modules

- `StacklessCoroutine` (`coroutine.dfy`):
  - The classes `Task`, `Waiter`, `Coroutine` and `Executor`. `Coroutine` is the compiler-built state machine of `main`'s async block.
  - A pure reference for them: `WaiterStep`, `FutPoll`, `Step` and `RunSpec`. The methods are proved against it.
  - Lemmas stating the round-robin order.
- `Framing` (`framing.dfy`):
  - Bytes and the little-endian codec (`to_le_bytes` / `from_le_bytes` at any width).
  - The handshake frame and the length-acknowledgement frame, with their round trips.
  - `copy_from_slice` on arrays.
- `Mailbox` (`mailbox.dfy`):
  - The reference functions `Write` and `Read` over the map from pid to queue, and the lemmas about them, including FIFO order over many calls.
  - The class `MailSystem`, the store the test scripts call. Its methods are proved against `Write` and `Read`.
- `MailboxSelf` (`mailbox_self.dfy`): the single-process test `main_impl` as a verified method.
- `MailboxExchange` (`exchange.dfy`): the steps that the two parent/child tests share, each a stretch of `run_parent` or `run_child` between two hand-overs.
- `MailboxLimits` (`mailbox_limits.dfy`) and `MailboxIpc` (`mailbox_ipc.dfy`): the two parent/child tests as verified methods.

## Behaviour the code decides

In each of these cases the comments, or a natural reading of the calls, suggest one behaviour and the code fixes another; the model follows the code.

- **Coroutine comments.** The comments at `ch8b_stackless_coroutine.rs` lines 15-16, 168 and 170 say that the first await of a task returns `Ready`. But `push` creates every `Task` in state `Running` (line 108), and a `Waiter` polled in `Running` answers `Pending` (lines 75-78). So a task's three polls answer `Pending`, `Pending`, `Ready`, and a task prints one line per poll. This is `ThreePolls`.
- **Read length.** A read into a buffer shorter than the message could be expected to return the number of bytes copied. But `ch7b_mailbox_ipc.rs:119-122` reads the 6-byte truncation message into a 4-byte buffer and asserts that the read returns 6. `Read` therefore returns the stored length and copies only what fits. Every other read in the tests is consistent with this.
- **Zero-length writes.** A zero-length write that succeeds could be expected to queue an empty message. In `ch7b_mailbox_self.rs` one slot is free after the dequeue at line 43, and the zero-length write at line 47 returns 0. The loop at lines 50-54 then reads the fifteen one-byte messages 1..15, and the read at line 56 fails with -1. Had the write queued an empty message, that read would have found it and returned 0. So a zero-length write stores nothing.

## Model

| member | source | states |
|---|---|---|
| `StacklessCoroutine.WaiterStep` | src/bin/ch8b_stackless_coroutine.rs:67-81 | a poll always changes the Task state, and it answers Ready exactly when the state was Halted |
| `StacklessCoroutine.WaiterAlternates` | src/bin/ch8b_stackless_coroutine.rs:67-81 | two polls in a row restore the state, and their two answers differ |
| `StacklessCoroutine.Waiter.Poll` | src/bin/ch8b_stackless_coroutine.rs:67-81 | Halted becomes Running with Ready; Running becomes Halted with Pending |
| `StacklessCoroutine.FutPoll` | src/bin/ch8b_stackless_coroutine.rs:166-172 | a poll of the async block keeps its instance, answers Ready exactly when the block has completed, uses up exactly one of the polls still needed, and prints at most two lines |
| `StacklessCoroutine.ThreePolls` | src/bin/ch8b_stackless_coroutine.rs:166-172 | a block whose task starts Running (line 108) answers Pending, Pending, Ready, and prints begin, next and end, one line per poll |
| `StacklessCoroutine.Coroutine.Poll` | src/bin/ch8b_stackless_coroutine.rs:166-172 | the object's poll, with a fresh Waiter at each await, changes the resume point and task state exactly as FutPoll does and prints the same lines |
| `StacklessCoroutine.Step` | src/bin/ch8b_stackless_coroutine.rs:122-132 | one loop iteration removes the head and keeps the remaining futures in order; a Pending future is appended at the tail, so the queue keeps its length exactly when the poll was Pending, and a Ready one is dropped, so the queue shrinks by one; the lines printed are those of the head's poll; the polls the queue still needs drop by exactly one |
| `StacklessCoroutine.PendingRound` | src/bin/ch8b_stackless_coroutine.rs:122-127 | a round of futures that all suspend again prints their lines in queue order and puts them all back at the tail in the same order |
| `StacklessCoroutine.FinalRound` | src/bin/ch8b_stackless_coroutine.rs:122-130 | a round of futures at the second await with tasks Halted prints their end lines in order and empties them out of the queue |
| `StacklessCoroutine.RoundRobin` | src/bin/ch8b_stackless_coroutine.rs:165-176 | with fresh futures queued for any instance list, the executor prints every begin line, then every next line, then every end line, each phase in queue order |
| `StacklessCoroutine.Executor.constructor` | src/bin/ch8b_stackless_coroutine.rs:93-97 | a new executor has an empty queue |
| `StacklessCoroutine.Executor.Push` | src/bin/ch8b_stackless_coroutine.rs:102-112 | exactly one future, at its start with a Task in state Running, is appended at the tail; the entries already queued are unchanged |
| `StacklessCoroutine.Executor.PopFront` | src/bin/ch8b_stackless_coroutine.rs:122 | the head leaves the queue and the rest keep their order |
| `StacklessCoroutine.Executor.PushBack` | src/bin/ch8b_stackless_coroutine.rs:126 | the future is appended at the tail and the entries already queued are unchanged |
| `StacklessCoroutine.Executor.PollHead` | src/bin/ch8b_stackless_coroutine.rs:122-132 | one iteration of the `while let` loop leaves the queue and the printed lines that Step prescribes |
| `StacklessCoroutine.Executor.Run` | src/bin/ch8b_stackless_coroutine.rs:118-133 | run terminates, with the number of polls still needed as the measure; it returns only with an empty queue, and it prints exactly RunSpec of the initial queue |
| `StacklessCoroutine.Demo` | src/bin/ch8b_stackless_coroutine.rs:160-180 | main prints B1 B2 B3, N1 N2 N3, E1 E2 E3 and exits with 0 |
| `Framing.FromLeToLe` | src/bin/ch7b_mailbox_limits.rs:76-78 | decoding the little-endian bytes of a number gives the number back |
| `Framing.ToLeFromLe` | src/bin/ch7b_mailbox_limits.rs:28-30 | encoding the number decoded from some bytes gives those bytes back |
| `Framing.AsU16` | src/bin/ch7b_mailbox_limits.rs:91 | `as u16` yields a value below 2^16, and it leaves a value below 2^16 unchanged |
| `Framing.UsizeRoundTrip` | src/bin/ch7b_mailbox_limits.rs:76-78 | usize to 8 little-endian bytes and back is the identity in both directions |
| `Framing.U16RoundTrip` | src/bin/ch7b_mailbox_limits.rs:60 | u16 to 2 little-endian bytes and back is the identity in both directions |
| `Framing.HandshakeRoundTrip` | src/bin/ch7b_mailbox_limits.rs:28-31 | the 9-byte handshake, tag 0 and then the pid, decodes to the sender's pid; every frame that is accepted as a handshake is the encoding of the pid decoded from it (the same frame appears at ch7b_mailbox_ipc.rs lines 32-35 and 96-100) |
| `Framing.LenAckRoundTrip` | src/bin/ch7b_mailbox_ipc.rs:114-116 | a length acknowledgement reports the length modulo 2^16, and 256 comes back as 256; every accepted three-byte acknowledgement is the encoding of the length decoded from it (decoded at lines 63-66, and in ch7b_mailbox_limits.rs at lines 91-93 and 60-61) |
| `Framing.CopyFromSlice` | src/bin/ch7b_mailbox_limits.rs:30 | the slice from `at` onward becomes the source and the bytes before it stay |
| `Mailbox.WriteContract` | src/bin/ch7b_mailbox_self.rs:29-48 | a write fails exactly for a pid that names no process or a full mailbox, and a failed write changes nothing; otherwise it returns min(len, 256), queues that prefix at the tail unless it is empty, and leaves the other mailboxes alone |
| `Mailbox.FullRejects` | src/bin/ch7b_mailbox_self.rs:35-38 | a write to a full mailbox fails whatever its length, zero included |
| `Mailbox.ReadContract` | src/bin/ch7b_mailbox_self.rs:25-57 | a read fails exactly when the mailbox is empty; with a zero-length buffer it dequeues nothing; otherwise it removes the head, returns its stored length and copies as much of it as the buffer holds |
| `Mailbox.WritePreservesValid` | src/bin/ch7b_mailbox_self.rs:29-37 | writes keep every mailbox at no more than 16 messages, each of 1 to 256 bytes |
| `Mailbox.ReadPreservesValid` | src/bin/ch7b_mailbox_self.rs:50-57 | reads keep the same bound |
| `Mailbox.WriteReadRoundTrip` | src/bin/ch7b_mailbox_limits.rs:34-41 | a message written to an empty mailbox and read into a buffer that holds it comes back as the kept bytes, with the count the write returned, and the mailbox is empty again |
| `Mailbox.WriteIntoEmpty` | src/bin/ch7b_mailbox_ipc.rs:48-55 | a non-empty write into an empty mailbox queues the payload whole when it has at most 256 bytes and otherwise its first 256 bytes |
| `Mailbox.ReadOnly` | src/bin/ch7b_mailbox_ipc.rs:119-123 | reading the only message empties the mailbox, returns the stored length and copies the prefix that fits |
| `Mailbox.WritesQueueAtTail` | src/bin/ch7b_mailbox_self.rs:29-33 | writes that fit all succeed, each returns the bytes it kept, and the kept bytes are queued at the tail in the order written |
| `Mailbox.ReadsFromHead` | src/bin/ch7b_mailbox_self.rs:50-54 | reads with a buffer that holds each of the messages read (one byte for the one-byte messages there) hand out the queued messages whole, oldest first, and remove exactly those messages |
| `Mailbox.FifoOrder` | src/bin/ch7b_mailbox_self.rs:42-57 | messages written to an empty mailbox are read back in the order written, into a buffer that holds what each write kept (one byte there), as exactly those bytes; afterwards the mailbox is empty and a further read fails |
| `Mailbox.MailSystem.MailWrite` | src/bin/ch7b_mailbox_self.rs:31-47 | the store changes, and returns, exactly what Write prescribes |
| `Mailbox.MailSystem.MailRead` | src/bin/ch7b_mailbox_ipc.rs:119-123 | the store and the return value are what Read prescribes; the copied prefix lands at the front of the buffer and the rest of the buffer is untouched |
| `MailboxSelf.FillOwn` | src/bin/ch7b_mailbox_self.rs:29-33 | sixteen one-byte writes 0..15 to one's own empty mailbox each return 1 and fill it in order; every other mailbox and the set of live processes stay as they were |
| `MailboxSelf.DrainOwn` | src/bin/ch7b_mailbox_self.rs:50-54 | with messages 1..15 queued, fifteen one-byte reads each return 1, deliver 1..15 in order and leave the mailbox empty; every other mailbox and the set of live processes stay as they were |
| `MailboxSelf.SelfTest` | src/bin/ch7b_mailbox_self.rs:21-62 | every assertion of main_impl holds: the calls return -1, sixteen 1s, -1, -1, 0, 1, 0, fifteen 1s, -1, -1; the payloads read are 0..15 in order; the exit code is 0 |
| `MailboxExchange.SendHandshake` | src/bin/ch7b_mailbox_limits.rs:28-32 | the parent's 9-byte handshake is kept whole in the child's mailbox and the write returns 9 |
| `MailboxExchange.ReceiveHandshake` | src/bin/ch7b_mailbox_limits.rs:68-79 | the child receives the 9 bytes of the handshake, tag 0 first, accepts them as a handshake and decodes exactly the parent's pid |
| `MailboxExchange.AckHandshake` | src/bin/ch7b_mailbox_limits.rs:81 | the acknowledgement is queued whole for the parent and the write returns its length |
| `MailboxExchange.ReceiveHandshakeAck` | src/bin/ch7b_mailbox_limits.rs:34-41 | the parent reads the acknowledgement back unchanged, with its length |
| `MailboxExchange.SendLong` | src/bin/ch7b_mailbox_limits.rs:43-50 | a payload of more than 256 bytes returns 256, and its first 256 bytes are queued |
| `MailboxExchange.ReceiveLong` | src/bin/ch7b_mailbox_limits.rs:84-94 | the child receives 256 bytes, which are the tag and then only fill bytes, and acknowledges with the tag and 256 as a little-endian u16 |
| `MailboxExchange.ReceiveLenAck` | src/bin/ch7b_mailbox_limits.rs:52-61 | the parent reads 3 bytes with the right tag and decodes 256 |
| `MailboxLimits.LimitsTest` | src/bin/ch7b_mailbox_limits.rs:25-97 | every assertion of run_parent and run_child holds: the calls return 9, 9, 2, 2, 256, 256, 3, 3 and then -1 for pid usize::MAX; the child decodes the parent's pid, the acknowledgement is [0, 0] and the reported length is 256 |
| `MailboxIpc.SendTrunc` | src/bin/ch7b_mailbox_ipc.rs:68-74 | the six-byte message is queued whole and the write returns 6 |
| `MailboxIpc.ReceiveTrunc` | src/bin/ch7b_mailbox_ipc.rs:119-125 | a 4-byte buffer gets the first four bytes, the read returns the stored length 6 and dequeues the whole message, and echoing the buffer returns 4 |
| `MailboxIpc.ReceiveTruncAck` | src/bin/ch7b_mailbox_ipc.rs:76-86 | the parent gets back 4 bytes, the tag and the message's bytes 1-3 |
| `MailboxIpc.IpcTest` | src/bin/ch7b_mailbox_ipc.rs:28-128 | every assertion of run_parent and run_child holds: the calls return 9, 9, 3, 3, 256, 256, 3, 3, 6, 6, 4, 4; the acknowledgement is [0, 'O', 'K'], the reported length is 256, and the child's small buffer and the parent's echo are both [2, 0xa0, 0xa1, 0xa2] |

## Left out

- The parent/child tests call `fork`, `getpid` and `waitpid`, and `main` checks the child's exit code. None of these is modelled. The two pids are parameters, and the tests' `main` functions are not modelled beyond `run_parent` and `run_child`.
- `recv_blocking` and `recv_probe` retry `mail_read` with `yield_` until it succeeds. Each is modelled as the one read that succeeds. A read of an empty mailbox returns -1 and changes nothing (`Mailbox.ReadContract`), so the failed retries have no effect. For the same reason the calls of the two processes happen in a single order, and the model runs them in that order.
- No `println!` output is modelled, with one exception. The begin, next and end lines of the coroutine demo are kept as the `Event` trace, because they record the order of execution.
- `create_waker`, `RAW_WAKER`, `VTABLE` and the no-op waker functions have no behaviour, so they are not modelled, and neither is `Context`.
- Executor.Push: takes the instance number of `main`'s async block instead of an arbitrary closure `FnOnce(Task) -> F`. `Pin<Box<dyn Future>>` is modelled as the class `Coroutine`, the one future type the program builds.
- Coroutine.Poll: requires a future that has not completed. Rust panics when a completed async block is polled, and the executor never does it.
- Waiter: Rust keeps the `Waiter` of a pending await inside the async block's state. It holds nothing but a borrow of its Task, so the model makes a new one when the poll resumes at that await.
- The kernel side of `mail_read` and `mail_write` is not part of this model. `MailSystem` is the contract that these three tests imply. It covers only what the tests can observe: return values, queue contents and buffer contents.
- `usize` and `isize` widths: pids are naturals, and only `usize::MAX` is used as a pid that names no process. Return values are unbounded integers, which is exact for every value these calls return.
- The other programs of the repository are not part of this model: the race adders, threads, semaphores, condition variables, deadlock tests, the stride test and `ch7b_mailbox`.
