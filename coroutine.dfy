/**
  A model of the stackless-coroutine demo: a Waiter future that flips the
  two-valued state of a Task on every poll, the state machine the compiler
  builds for an async block that awaits a Waiter twice, and an Executor that
  polls boxed futures round-robin from a FIFO queue until the queue is empty.

  The pure part (Fut, FutPoll, Step, RunSpec) is the reference the classes
  are proved against; the lemmas at the end state the round-robin order.
*/
module StacklessCoroutine {

  /** Task.state: whether the next poll of a Waiter completes (Halted) or suspends (Running). */
  datatype State = Halted | Running

  /** core::task::Poll<()> */
  datatype Poll = Ready | Pending

  /** The three lines an async block of `main` prints: "Task i: begin/next/end state". */
  datatype Phase = Begin | Next | End

  /** One line of console output, attributed to the closure's `instance`. */
  datatype Event = Say(instance: int, phase: Phase)

  /** Where the async block resumes: before its first line, at the first
      await, at the second await, or completed. */
  datatype Resume = Start | Await1 | Await2 | Finished

  /** The abstract value of one boxed future: its instance number, where it
      resumes, and the state of its own Task. */
  datatype Fut = Fut(instance: int, resume: Resume, state: State)

  /** The outcome of one poll of a future: its new value, the poll result and
      the lines it printed meanwhile. */
  datatype Polled = Polled(fut: Fut, poll: Poll, out: seq<Event>)

  /** The queue after one iteration of `Executor::run`, and what that iteration printed. */
  datatype Stepped = Stepped(queue: seq<Fut>, out: seq<Event>)

  // ---------------------------------------------------------------------------
  // Waiter::poll
  // ---------------------------------------------------------------------------

  /** Waiter::poll seen on Task.state: the new state and the poll result. */
  function WaiterStep(s: State): (r: (State, Poll))
    ensures r.0 != s
    ensures r.1 == Ready <==> s == Halted
  {
    match s
    case Halted => (Running, Ready)
    case Running => (Halted, Pending)
  }

  /** Two polls in a row restore the state and give one Pending and one Ready. */
  lemma WaiterAlternates(s: State)
    ensures WaiterStep(WaiterStep(s).0).0 == s
    ensures WaiterStep(s).1 != WaiterStep(WaiterStep(s).0).1
  {
  }

  // ---------------------------------------------------------------------------
  // The async block of `main`, as a pure state machine
  // ---------------------------------------------------------------------------

  /** How many more polls the future needs before it returns Ready. */
  function Rem(f: Fut): nat
  {
    match f.resume
    case Start => if f.state == Running then 3 else 2
    case Await1 => if f.state == Halted then 2 else 3
    case Await2 => if f.state == Halted then 1 else 2
    case Finished => 0
  }

  /** The future is still in the executor's queue: it has not completed. */
  predicate Live(q: seq<Fut>)
  {
    forall i :: 0 <= i < |q| ==> q[i].resume != Finished
  }

  /** Polls the Waiter of the second await; on Ready prints the "end" line and completes. */
  function AwaitSecond(i: int, s: State, out: seq<Event>): Polled
  {
    var (s', p) := WaiterStep(s);
    if p == Pending then Polled(Fut(i, Await2, s'), Pending, out)
    else Polled(Fut(i, Finished, s'), Ready, out + [Say(i, End)])
  }

  /** Polls the Waiter of the first await; on Ready prints the "next" line and
      runs on to the second await within the same poll. */
  function AwaitFirst(i: int, s: State, out: seq<Event>): Polled
  {
    var (s', p) := WaiterStep(s);
    if p == Pending then Polled(Fut(i, Await1, s'), Pending, out)
    else AwaitSecond(i, s', out + [Say(i, Next)])
  }

  /** One poll of the future. Polling a completed future panics in Rust, so it is excluded. */
  function FutPoll(f: Fut): (r: Polled)
    requires f.resume != Finished
    ensures r.fut.instance == f.instance
    ensures r.poll == Ready <==> r.fut.resume == Finished
    ensures Rem(r.fut) + 1 == Rem(f)
    ensures |r.out| <= 2
  {
    match f.resume
    case Start => AwaitFirst(f.instance, f.state, [Say(f.instance, Begin)])
    case Await1 => AwaitFirst(f.instance, f.state, [])
    case Await2 => AwaitSecond(f.instance, f.state, [])
  }

  /** A fresh future (task in state Running) answers Pending, Pending, Ready,
      printing its begin, next and end lines one poll each. */
  lemma ThreePolls(i: int)
    ensures var p1 := FutPoll(Fut(i, Start, Running));
            p1.poll == Pending && p1.out == [Say(i, Begin)] &&
            var p2 := FutPoll(p1.fut);
            p2.poll == Pending && p2.out == [Say(i, Next)] &&
            var p3 := FutPoll(p2.fut);
            p3.poll == Ready && p3.out == [Say(i, End)]
  {
  }

  // ---------------------------------------------------------------------------
  // Executor::run, as a pure reference
  // ---------------------------------------------------------------------------

  /** The number of polls the whole queue still needs. */
  function TotalRem(q: seq<Fut>): nat
  {
    if q == [] then 0 else Rem(q[0]) + TotalRem(q[1..])
  }

  lemma {:induction false} TotalRemAppend(a: seq<Fut>, b: seq<Fut>)
    ensures TotalRem(a + b) == TotalRem(a) + TotalRem(b)
  {
    if a == [] {
      assert a + b == b;
    } else {
      assert (a + b)[1..] == a[1..] + b;
      TotalRemAppend(a[1..], b);
    }
  }

  /** One iteration of the `while let` loop of `run`: pop the head and poll it;
      a Pending future goes back to the tail, a Ready one is dropped. */
  function Step(q: seq<Fut>): (r: Stepped)
    requires q != [] && Live(q)
    ensures Live(r.queue)
    ensures |q| - 1 <= |r.queue| <= |q|
    ensures r.queue[..|q| - 1] == q[1..]
    ensures |r.queue| == |q| <==> FutPoll(q[0]).poll == Pending
    ensures TotalRem(r.queue) + 1 == TotalRem(q)
    ensures FutPoll(q[0]).poll == Pending ==> r.queue[|q| - 1] == FutPoll(q[0]).fut
    ensures r.out == FutPoll(q[0]).out
  {
    var p := FutPoll(q[0]);
    TotalRemAppend(q[1..], [p.fut]);
    assert TotalRem([p.fut]) == Rem(p.fut);
    Stepped(if p.poll == Pending then q[1..] + [p.fut] else q[1..], p.out)
  }

  /** Everything `run` prints from queue `q` until the queue is empty. */
  function RunSpec(q: seq<Fut>): seq<Event>
    requires Live(q)
    decreases TotalRem(q)
  {
    if q == [] then [] else
      var s := Step(q);
      s.out + RunSpec(s.queue)
  }

  /** A queue of futures for `ids`, in order, all at resume point `r` with task state `s`. */
  function Line(ids: seq<int>, r: Resume, s: State): (q: seq<Fut>)
    ensures |q| == |ids|
    ensures r != Finished ==> Live(q)
  {
    if ids == [] then [] else [Fut(ids[0], r, s)] + Line(ids[1..], r, s)
  }

  /** The line each of `ids` prints for phase `ph`, in order. */
  function Says(ids: seq<int>, ph: Phase): (e: seq<Event>)
    ensures |e| == |ids|
  {
    if ids == [] then [] else [Say(ids[0], ph)] + Says(ids[1..], ph)
  }

  /** `run` from a non-empty queue: one iteration, then the rest. */
  lemma RunSpecUnfold(q: seq<Fut>)
    requires q != [] && Live(q)
    ensures RunSpec(q) == Step(q).out + RunSpec(Step(q).queue)
  {
  }

  /** What has been printed plus what `run` prints from here is unchanged by one iteration. */
  lemma RunSpecStep(done: seq<Event>, q: seq<Fut>)
    requires q != [] && Live(q)
    ensures (done + Step(q).out) + RunSpec(Step(q).queue) == done + RunSpec(q)
  {
    RunSpecUnfold(q);
  }

  /** Where a future that suspends again in this round resumes next. */
  function After(r: Resume): Resume
  {
    if r == Start then Await1 else Await2
  }

  /** The line a future at resume point `r` prints in this round. */
  function PhaseAt(r: Resume): Phase
  {
    match r
    case Start => Begin
    case Await1 => Next
    case _ => End
  }

  /** A future at `r` with task state `s` that suspends again: after one poll
      it prints its phase and waits at the next await with its task Halted. */
  predicate Suspends(r: Resume, s: State)
  {
    (r == Start && s == Running) || (r == Await1 && s == Halted)
  }

  lemma SuspendPoll(i: int, r: Resume, s: State)
    requires Suspends(r, s)
    ensures FutPoll(Fut(i, r, s)) == Polled(Fut(i, After(r), Halted), Pending, [Say(i, PhaseAt(r))])
  {
  }

  /** One iteration on a head that suspends again: it goes to the tail. */
  lemma StepSuspends(i: int, r: Resume, s: State, tail: seq<Fut>)
    requires Suspends(r, s) && Live(tail)
    ensures Live([Fut(i, r, s)] + tail)
    ensures Step([Fut(i, r, s)] + tail) == Stepped(tail + [Fut(i, After(r), Halted)], [Say(i, PhaseAt(r))])
  {
    var q := [Fut(i, r, s)] + tail;
    LiveAppend([Fut(i, r, s)], tail);
    assert q[1..] == tail;
    SuspendPoll(i, r, s);
  }

  /** One iteration on a head at the second await with its task Halted: it
      completes and is dropped. */
  lemma StepFinishes(i: int, tail: seq<Fut>)
    requires Live(tail)
    ensures Live([Fut(i, Await2, Halted)] + tail)
    ensures Step([Fut(i, Await2, Halted)] + tail) == Stepped(tail, [Say(i, End)])
  {
    var q := [Fut(i, Await2, Halted)] + tail;
    LiveAppend([Fut(i, Await2, Halted)], tail);
    assert q[1..] == tail;
  }

  lemma Associative<T>(a: seq<T>, b: seq<T>, c: seq<T>)
    ensures (a + b) + c == a + (b + c)
  {
  }

  lemma LiveAppend(a: seq<Fut>, b: seq<Fut>)
    requires Live(a) && Live(b)
    ensures Live(a + b)
  {
    assert forall i :: 0 <= i < |a + b| ==> (a + b)[i] == if i < |a| then a[i] else b[i - |a|];
  }

  /** A round over futures that all suspend again: each prints its line and
      moves to the tail, keeping the queue order. */
  lemma {:induction false} PendingRound(ids: seq<int>, r: Resume, s: State, rest: seq<Fut>)
    requires Suspends(r, s) && Live(rest)
    ensures Live(Line(ids, r, s) + rest) && Live(rest + Line(ids, After(r), Halted))
    ensures RunSpec(Line(ids, r, s) + rest)
         == Says(ids, PhaseAt(r)) + RunSpec(rest + Line(ids, After(r), Halted))
    decreases |ids|
  {
    var q := Line(ids, r, s) + rest;
    LiveAppend(Line(ids, r, s), rest);
    LiveAppend(rest, Line(ids, After(r), Halted));
    if ids == [] {
      assert q == rest;
      assert rest + Line(ids, After(r), Halted) == rest;
    } else {
      var f' := Fut(ids[0], After(r), Halted);
      var tail := Line(ids[1..], r, s) + rest;
      var rest' := rest + [f'];
      LiveAppend(Line(ids[1..], r, s), rest);
      LiveAppend(rest, [f']);
      var later := Line(ids[1..], After(r), Halted);
      Associative(Line(ids[1..], r, s), rest, [f']);
      Associative(rest, [f'], later);
      Associative([Fut(ids[0], r, s)], Line(ids[1..], r, s), rest);
      StepSuspends(ids[0], r, s, tail);
      RunSpecUnfold(q);
      PendingRound(ids[1..], r, s, rest');
      calc {
        RunSpec(q);
        [Say(ids[0], PhaseAt(r))] + RunSpec(Line(ids[1..], r, s) + rest');
        [Say(ids[0], PhaseAt(r))] + (Says(ids[1..], PhaseAt(r)) + RunSpec(rest' + later));
        { Associative([Say(ids[0], PhaseAt(r))], Says(ids[1..], PhaseAt(r)), RunSpec(rest' + later)); }
        Says(ids, PhaseAt(r)) + RunSpec(rest + Line(ids, After(r), Halted));
      }
    }
  }

  /** The last round: every future completes, prints its "end" line and is dropped. */
  lemma {:induction false} FinalRound(ids: seq<int>, rest: seq<Fut>)
    requires Live(rest)
    ensures Live(Line(ids, Await2, Halted) + rest)
    ensures RunSpec(Line(ids, Await2, Halted) + rest) == Says(ids, End) + RunSpec(rest)
    decreases |ids|
  {
    var q := Line(ids, Await2, Halted) + rest;
    LiveAppend(Line(ids, Await2, Halted), rest);
    if ids == [] {
      assert q == rest;
    } else {
      var tail := Line(ids[1..], Await2, Halted) + rest;
      LiveAppend(Line(ids[1..], Await2, Halted), rest);
      assert q == [Fut(ids[0], Await2, Halted)] + tail;
      StepFinishes(ids[0], tail);
      RunSpecUnfold(q);
      FinalRound(ids[1..], rest);
    }
  }

  /** Round-robin order: with fresh futures for `ids` queued in order, `run`
      prints every "begin" line, then every "next", then every "end", each
      phase in queue order. */
  lemma RoundRobin(ids: seq<int>)
    ensures Live(Line(ids, Start, Running))
    ensures RunSpec(Line(ids, Start, Running)) == Says(ids, Begin) + Says(ids, Next) + Says(ids, End)
  {
    var q0 := Line(ids, Start, Running);
    var q1 := Line(ids, Await1, Halted);
    var q2 := Line(ids, Await2, Halted);
    var empty: seq<Fut> := [];
    assert q0 + empty == q0 && empty + q1 == q1;
    assert q1 + empty == q1 && empty + q2 == q2;
    assert q2 + empty == q2;
    calc {
      RunSpec(q0);
      { PendingRound(ids, Start, Running, empty); }
      Says(ids, Begin) + RunSpec(q1);
      { PendingRound(ids, Await1, Halted, empty); }
      Says(ids, Begin) + (Says(ids, Next) + RunSpec(q2));
      { FinalRound(ids, empty); }
      Says(ids, Begin) + (Says(ids, Next) + (Says(ids, End) + RunSpec(empty)));
      { Associative(Says(ids, Begin), Says(ids, Next), Says(ids, End)); }
      Says(ids, Begin) + Says(ids, Next) + Says(ids, End);
    }
  }

  // ---------------------------------------------------------------------------
  // The objects: Task, Waiter, the boxed future, Executor
  // ---------------------------------------------------------------------------

  /** struct Task: the coroutine control block, one state bit. */
  class Task {
    var state: State

    constructor (state: State)
      ensures this.state == state
    {
      this.state := state;
    }
  }

  /** struct Waiter: a future borrowing a Task mutably. */
  class Waiter {
    const task: Task

    constructor (task: Task)
      ensures this.task == task
    {
      this.task := task;
    }

    method Poll() returns (p: Poll)
      modifies task
      ensures old(task.state) == Halted ==> task.state == Running && p == Ready
      ensures old(task.state) == Running ==> task.state == Halted && p == Pending
      ensures (task.state, p) == WaiterStep(old(task.state))
    {
      match task.state
      case Halted =>
        task.state := Running;
        p := Ready;
      case Running =>
        task.state := Halted;
        p := Pending;
    }
  }

  /** The boxed future built by `main`'s closure from the Task that `push` hands it:
      the compiler's state machine for an async block that prints a line,
      awaits `task.waiter()`, prints, awaits again and prints. */
  class Coroutine {
    const instance: int
    const task: Task
    var resume: Resume

    ghost function View(): Fut
      reads this, task
    {
      Fut(instance, resume, task.state)
    }

    constructor (instance: int, task: Task)
      ensures this.instance == instance && this.task == task && resume == Start
    {
      this.instance := instance;
      this.task := task;
      resume := Start;
    }

    /** Future::poll of the async block. The Waiter holds no state of its own,
        so the one it borrows at an await is made again when the poll resumes there. */
    method Poll() returns (p: Poll, out: seq<Event>)
      requires resume != Finished
      modifies this, task
      ensures Polled(View(), p, out) == FutPoll(old(View()))
    {
      out := [];
      if resume == Start {
        out := [Say(instance, Begin)];
        resume := Await1;
      }
      if resume == Await1 {
        var first := new Waiter(task);
        p := first.Poll();
        if p == Pending {
          return;
        }
        out := out + [Say(instance, Next)];
        resume := Await2;
      }
      var second := new Waiter(task);
      p := second.Poll();
      if p == Ready {
        out := out + [Say(instance, End)];
        resume := Finished;
      }
    }
  }

  /** The futures of `ts` and their Tasks. */
  ghost function Footprint(ts: seq<Coroutine>): set<object>
  {
    if ts == [] then {} else {ts[0], ts[0].task} + Footprint(ts[1..])
  }

  /** No future is queued twice and no two futures share a Task. */
  ghost predicate Owned(ts: seq<Coroutine>)
  {
    ts == [] || (ts[0] !in Footprint(ts[1..]) && ts[0].task !in Footprint(ts[1..]) && Owned(ts[1..]))
  }

  /** The abstract values of the futures of `ts`, in queue order. */
  ghost function Views(ts: seq<Coroutine>): (v: seq<Fut>)
    reads Footprint(ts)
    ensures |v| == |ts|
  {
    if ts == [] then [] else [ts[0].View()] + Views(ts[1..])
  }

  lemma {:induction false} FootprintSnoc(ts: seq<Coroutine>, c: Coroutine)
    ensures Footprint(ts + [c]) == Footprint(ts) + {c, c.task}
    decreases |ts|
  {
    if ts == [] {
      assert [] + [c] == [c];
    } else {
      assert (ts + [c])[1..] == ts[1..] + [c];
      FootprintSnoc(ts[1..], c);
    }
  }

  lemma {:induction false} OwnedSnoc(ts: seq<Coroutine>, c: Coroutine)
    requires Owned(ts) && c !in Footprint(ts) && c.task !in Footprint(ts)
    ensures Owned(ts + [c])
    decreases |ts|
  {
    if ts == [] {
      assert [] + [c] == [c];
    } else {
      assert (ts + [c])[1..] == ts[1..] + [c];
      FootprintSnoc(ts[1..], c);
      OwnedSnoc(ts[1..], c);
    }
  }

  lemma {:induction false} ViewsSnoc(ts: seq<Coroutine>, c: Coroutine)
    ensures Views(ts + [c]) == Views(ts) + [c.View()]
    decreases |ts|
  {
    if ts == [] {
      assert [] + [c] == [c];
    } else {
      assert (ts + [c])[1..] == ts[1..] + [c];
      ViewsSnoc(ts[1..], c);
    }
  }

  /** struct Executor: a FIFO queue of boxed futures. */
  class Executor {
    var tasks: seq<Coroutine>
    ghost var Contents: seq<Fut>
    ghost var Repr: set<object>

    ghost predicate Valid()
      reads this, Repr
    {
      && this in Repr
      && Footprint(tasks) <= Repr && this !in Footprint(tasks)
      && Owned(tasks)
      && Views(tasks) == Contents
      && Live(Contents)
    }

    /** Executor::new: an empty queue. */
    constructor ()
      ensures Valid() && fresh(Repr)
      ensures Contents == []
    {
      tasks := [];
      Contents := [];
      Repr := {this};
    }

    /** Executor::push: a new Task in state Running, the future the closure
        builds from it appended at the tail; the entries already queued stay. */
    method Push(instance: int)
      requires Valid()
      modifies this
      ensures Valid() && fresh(Repr - old(Repr))
      ensures Contents == old(Contents) + [Fut(instance, Start, Running)]
    {
      var task := new Task(Running);
      var fut := new Coroutine(instance, task);
      PushBack(fut);
    }

    /** VecDeque::push_back of a future not already queued, whose Task no
        queued future owns. */
    method PushBack(fut: Coroutine)
      requires Valid() && fut.View().resume != Finished
      requires fut !in Footprint(tasks) && fut.task !in Footprint(tasks)
      modifies this
      ensures Valid() && Repr == old(Repr) + {fut, fut.task}
      ensures Contents == old(Contents) + [fut.View()]
    {
      FootprintSnoc(tasks, fut);
      OwnedSnoc(tasks, fut);
      ViewsSnoc(tasks, fut);
      LiveAppend(Contents, [fut.View()]);
      tasks := tasks + [fut];
      Contents := Contents + [fut.View()];
      Repr := Repr + {fut, fut.task};
    }

    /** VecDeque::pop_front: the head future leaves the queue; it and its
        Task stay in the footprint and no queued future refers to them. */
    method PopFront() returns (fut: Coroutine)
      requires Valid() && tasks != []
      modifies this
      ensures Valid() && Repr == old(Repr)
      ensures Contents == old(Contents)[1..] && fut.View() == old(Contents)[0]
      ensures fut in Repr && fut.task in Repr
      ensures fut !in Footprint(tasks) && fut.task !in Footprint(tasks)
    {
      fut := tasks[0];
      tasks := tasks[1..];
      Contents := Contents[1..];
    }

    /** One iteration of the `while let` loop of `run`: pop the head future
        and poll it; a Pending one is pushed back at the tail, a Ready one dropped. */
    method PollHead() returns (out: seq<Event>)
      requires Valid() && tasks != []
      modifies Repr
      ensures Valid() && Repr == old(Repr)
      ensures Contents == Step(old(Contents)).queue && out == Step(old(Contents)).out
    {
      ghost var before := Contents;
      var fut := PopFront();
      var p;
      p, out := fut.Poll();
      if p == Pending {
        PushBack(fut);
        assert Contents == Step(before).queue[..|before| - 1] + [Step(before).queue[|before| - 1]];
      }
    }

    /** Executor::run: poll the head until the queue is empty. */
    method Run() returns (trace: seq<Event>)
      requires Valid()
      modifies Repr
      ensures Valid() && Repr == old(Repr)
      ensures tasks == [] && Contents == []
      ensures trace == RunSpec(old(Contents))
    {
      trace := [];
      while tasks != []
        invariant Valid() && Repr == old(Repr)
        invariant trace + RunSpec(Contents) == RunSpec(old(Contents))
        decreases TotalRem(Contents)
      {
        ghost var before := Contents;
        var out := PollHead();
        RunSpecStep(trace, before);
        trace := trace + out;
      }
    }
  }

  /** The instance numbers 1..n. */
  function Instances(n: nat): (ids: seq<int>)
    ensures |ids| == n
  {
    if n == 0 then [] else Instances(n - 1) + [n]
  }

  lemma {:induction false} LineSnoc(ids: seq<int>, i: int, r: Resume, s: State)
    ensures Line(ids + [i], r, s) == Line(ids, r, s) + [Fut(i, r, s)]
    decreases |ids|
  {
    if ids == [] {
      assert [] + [i] == [i];
    } else {
      assert (ids + [i])[1..] == ids[1..] + [i];
      LineSnoc(ids[1..], i, r, s);
    }
  }

  /** `main`: three futures for instances 1, 2, 3 pushed in order, then `run`.
      Returns what the futures print and the exit code. */
  method Demo() returns (trace: seq<Event>, code: int)
    ensures trace == [Say(1, Begin), Say(2, Begin), Say(3, Begin),
                      Say(1, Next), Say(2, Next), Say(3, Next),
                      Say(1, End), Say(2, End), Say(3, End)]
    ensures code == 0
  {
    var exec := new Executor();
    for instance := 1 to 4
      invariant exec.Valid() && fresh(exec.Repr)
      invariant exec.Contents == Line(Instances(instance - 1), Start, Running)
    {
      exec.Push(instance);
      LineSnoc(Instances(instance - 1), instance, Start, Running);
    }
    assert Instances(3) == [1, 2, 3];
    trace := exec.Run();
    RoundRobin([1, 2, 3]);
    code := 0;
  }
}
