/**
 A connection on its event loop: `send` from the loop thread writes at once, `send` from any other thread queues a
 functor that writes later.  Here the two machines run together.
 */
module SendOrder {
  import opened Bytes
  import L = EventLoops
  import C = Connections

  /** What can stand in the loop's queue. */
  datatype Task = SendTask(thread: nat, message: seq<Byte>) | WriteComplete | Other

  /** One call of `sendInLoop`: by whom, None being the loop thread itself. */
  datatype Sent = Sent(from: Option<nat>, message: seq<Byte>)

  datatype State = State(loop: L.State<Task>, conn: C.Conn, log: seq<Sent>)

  datatype Label =
    | SendFrom(thread: nat, message: seq<Byte>)  // off the loop thread: push the functor; its wakeup is a Machine step
    | QueueFrom(thread: nat)
    | SendInLoop(message: seq<Byte>, n: int)     // on the loop thread, from a handler or a functor
    | QueueInLoop
    | Writable(n: int)
    | RunTask(n: int)
    | Machine(step: L.Label<Task>)               // everything else the loop and the other threads do
    | Close

  function Init(): State {
    State(L.Init(), C.Opened(), [])
  }

  /** `sendInLoop`, with the write-complete callback it may queue. */
  function DoSend(s: State, from: Option<nat>, message: seq<Byte>, n: nat): State
    requires n <= |message|
  {
    var conn := C.SendInLoop(s.conn, message, n);
    QueueCompletion(s.(conn := conn, log := s.log + [Sent(from, message)]), conn.completions != s.conn.completions)
  }

  function QueueCompletion(s: State, completed: bool): State {
    if completed then s.(loop := L.Step(s.loop, L.LoopPush(WriteComplete))) else s
  }

  predicate OnLoopThread(s: L.State<Task>) {
    L.UserCode(s.pc) && !s.owesWake
  }

  function Step(s: State, l: Label): State {
    match l
    case SendFrom(t, message) => s.(loop := L.Step(s.loop, L.Push(t, SendTask(t, message))))
    case QueueFrom(t) => s.(loop := L.Step(s.loop, L.Push(t, Other)))
    case SendInLoop(message, n) =>
      if OnLoopThread(s.loop) && 0 <= n <= |message| then DoSend(s, None, message, n) else s
    case QueueInLoop => s.(loop := L.Step(s.loop, L.LoopPush(Other)))
    case Writable(n) =>
      if s.loop.pc == L.Handling && n <= |s.conn.outBuf| then
        var conn := C.HandleWrite(s.conn, n);
        QueueCompletion(s.(conn := conn), conn.completions != s.conn.completions)
      else s
    case RunTask(n) =>
      if !L.Enabled(s.loop, L.RunOne) then s
      else
        var task := s.loop.running[0];
        if !task.SendTask? then s.(loop := L.Step(s.loop, L.RunOne))
        else if 0 <= n <= |task.message| then
          DoSend(s.(loop := L.Step(s.loop, L.RunOne)), Some(task.thread), task.message, n)
        else s
    case Machine(step) =>
      if step.Push? || step.LoopPush? || step.RunOne? then s else s.(loop := L.Step(s.loop, step))
    case Close => s.(conn := C.HandleClose(s.conn))
  }

  function Run(s: State, ls: seq<Label>): State
    decreases ls
  {
    if ls == [] then s else Run(Step(s, ls[0]), ls[1..])
  }

  // ---- Per-thread views ----

  /** The messages of thread `t` among queued tasks. */
  function TasksOf(t: nat, tasks: seq<Task>): seq<seq<Byte>> {
    if tasks == [] then []
    else (if tasks[0].SendTask? && tasks[0].thread == t then [tasks[0].message] else []) + TasksOf(t, tasks[1..])
  }

  /** The messages of thread `t` in the order in which they were written to the stream. */
  function SentBy(t: nat, log: seq<Sent>): seq<seq<Byte>> {
    if log == [] then []
    else (if log[0].from == Some(t) then [log[0].message] else []) + SentBy(t, log[1..])
  }

  function Messages(log: seq<Sent>): seq<seq<Byte>> {
    seq(|log|, i requires 0 <= i < |log| => log[i].message)
  }

  lemma {:induction false} TasksOfConcat(t: nat, x: seq<Task>, y: seq<Task>)
    ensures TasksOf(t, x + y) == TasksOf(t, x) + TasksOf(t, y)
  {
    if x == [] {
      assert x + y == y;
    } else {
      assert (x + y)[1..] == x[1..] + y;
      TasksOfConcat(t, x[1..], y);
    }
  }

  lemma {:induction false} SentByAppend(t: nat, log: seq<Sent>, last: Sent)
    ensures SentBy(t, log + [last]) == SentBy(t, log) + if last.from == Some(t) then [last.message] else []
  {
    if log == [] {
      assert log + [last] == [last] && [last][1..] == [];
    } else {
      assert (log + [last])[1..] == log[1..] + [last];
      SentByAppend(t, log[1..], last);
    }
  }

  ghost predicate Inv(s: State) {
    && L.Inv(s.loop)
    && C.Inv(s.conn)
    && s.conn.sent == Messages(s.log)
    && forall t: nat :: SentBy(t, s.log) == TasksOf(t, s.loop.done)
  }

  lemma DoSendKeepsInv(s: State, done: seq<Task>, from: Option<nat>, message: seq<Byte>, n: nat)
    requires n <= |message|
    requires L.Inv(s.loop) && C.Inv(s.conn) && s.conn.sent == Messages(s.log)
    requires forall t: nat :: SentBy(t, s.log) == TasksOf(t, done)
    requires s.loop.done == done + if from.Some? then [SendTask(from.value, message)] else []
    ensures Inv(DoSend(s, from, message, n))
  {
    hide L.Inv, L.Step, C.Inv;
    var s' := DoSend(s, from, message, n);
    C.SendKeepsInv(s.conn, message, n);
    L.StepKeepsInv(s.loop, L.LoopPush(WriteComplete));
    PushKeepsDone(s.loop, WriteComplete);
    assert Messages(s'.log) == Messages(s.log) + [message];
    forall t: nat ensures SentBy(t, s'.log) == TasksOf(t, s'.loop.done) {
      SentByAppend(t, s.log, Sent(from, message));
      if from.Some? {
        var task := SendTask(from.value, message);
        TasksOfConcat(t, done, [task]);
        assert [task][1..] == [];
      } else {
        assert done + [] == done;
      }
    }
  }

  lemma PushKeepsDone(s: L.State<Task>, task: Task)
    ensures L.Step(s, L.LoopPush(task)).done == s.done
  {
  }

  lemma OnlyRunOneRuns(s: L.State<Task>, l: L.Label<Task>)
    requires !l.RunOne?
    ensures L.Step(s, l).done == s.done
  {
    hide L.WakeupOnItsWay;
  }

  lemma {:induction false} OthersSendNothing(done: seq<Task>, task: Task)
    requires !task.SendTask?
    ensures forall t: nat :: TasksOf(t, done + [task]) == TasksOf(t, done)
  {
    forall t: nat ensures TasksOf(t, done + [task]) == TasksOf(t, done) {
      TasksOfConcat(t, done, [task]);
      assert [task][1..] == [];
    }
  }

  lemma RunTaskKeepsInv(s: State, n: int)
    requires Inv(s)
    ensures Inv(Step(s, RunTask(n)))
  {
    hide L.Inv, C.Inv, DoSend, TasksOf, SentBy;
    if L.Enabled(s.loop, L.RunOne) {
      L.StepKeepsInv(s.loop, L.RunOne);
      var task := s.loop.running[0];
      var s1 := s.(loop := L.Step(s.loop, L.RunOne));
      if !task.SendTask? {
        OthersSendNothing(s.loop.done, task);
      } else if 0 <= n <= |task.message| {
        DoSendKeepsInv(s1, s.loop.done, Some(task.thread), task.message, n);
      }
    }
  }

  lemma StepKeepsInv(s: State, l: Label)
    requires Inv(s)
    ensures Inv(Step(s, l))
  {
    hide L.Inv, L.Step, C.Inv, DoSend;
    match l
    case SendFrom(t, message) =>
      L.StepKeepsInv(s.loop, L.Push(t, SendTask(t, message)));
      OnlyRunOneRuns(s.loop, L.Push(t, SendTask(t, message)));
    case QueueFrom(t) =>
      L.StepKeepsInv(s.loop, L.Push(t, Other));
      OnlyRunOneRuns(s.loop, L.Push(t, Other));
    case SendInLoop(message, n) =>
      if OnLoopThread(s.loop) && 0 <= n <= |message| {
        assert s.loop.done + [] == s.loop.done;
        DoSendKeepsInv(s, s.loop.done, None, message, n);
      }
    case QueueInLoop =>
      L.StepKeepsInv(s.loop, L.LoopPush(Other));
      OnlyRunOneRuns(s.loop, L.LoopPush(Other));
    case Writable(n) =>
      if n <= |s.conn.outBuf| {
        C.WriteKeepsInv(s.conn, n);
        WriteKeepsSent(s.conn, n);
      }
      L.StepKeepsInv(s.loop, L.LoopPush(WriteComplete));
      OnlyRunOneRuns(s.loop, L.LoopPush(WriteComplete));
    case RunTask(n) => RunTaskKeepsInv(s, n);
    case Machine(step) =>
      L.StepKeepsInv(s.loop, step);
      if !step.RunOne? {
        OnlyRunOneRuns(s.loop, step);
      }
    case Close => C.StepKeepsInv(s.conn, C.Close);
  }

  lemma WriteKeepsSent(c: C.Conn, n: int)
    requires n <= |c.outBuf|
    ensures C.HandleWrite(c, n).sent == c.sent
  {
  }

  lemma {:induction false} RunKeepsInv(s: State, ls: seq<Label>)
    requires Inv(s)
    ensures Inv(Run(s, ls))
    decreases ls
  {
    hide Inv, Step;
    if ls != [] {
      StepKeepsInv(s, ls[0]);
      RunKeepsInv(Step(s, ls[0]), ls[1..]);
    }
  }

  lemma InitInv()
    ensures Inv(Init())
  {
    L.InitInv<Task>();
    C.OpenedInv();
  }

  /**
   In every run, the byte stream is a concatenation of whole messages, and each thread's messages appear in it in the
   order in which the thread sent them, none missing among those already written, the remaining ones still queued.
   */
  lemma StreamOrder(ls: seq<Label>, t: nat)
    ensures var s := Run(Init(), ls);
            && s.conn.accepted + s.conn.outBuf == Concat(Messages(s.log))
            && SentBy(t, s.log) + TasksOf(t, s.loop.running + s.loop.pending) == TasksOf(t, s.loop.queued)
  {
    hide Run, Init, TasksOf, SentBy, Messages, Concat;
    InitInv();
    RunKeepsInv(Init(), ls);
    var s := Run(Init(), ls);
    TasksOfConcat(t, s.loop.done, s.loop.running + s.loop.pending);
    assert s.loop.done + (s.loop.running + s.loop.pending) == s.loop.queued;
  }

  /** Once the loop is idle with no producer in between, every message of every thread is in the stream. */
  lemma IdleMeansAllWritten(ls: seq<Label>, t: nat)
    ensures var s := Run(Init(), ls);
            s.loop.pc == L.Polling && s.loop.counter == 0 && s.loop.pushers == {} && !s.loop.late ==>
              SentBy(t, s.log) == TasksOf(t, s.loop.queued)
  {
    InitInv();
    RunKeepsInv(Init(), ls);
    var s := Run(Init(), ls);
    if s.loop.pc == L.Polling && s.loop.counter == 0 && s.loop.pushers == {} && !s.loop.late {
      assert s.loop.pending == [] && s.loop.running == [];
      assert s.loop.done + s.loop.running + s.loop.pending == s.loop.done;
    }
  }
}
