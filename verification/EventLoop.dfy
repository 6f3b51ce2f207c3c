/**
 The event loop's functor queue.  `State` and `Step` describe every interleaving of the loop thread with any number of
 other threads, one atomic action (a locked region, a system call, a flag access) at a time; a label that is not
 enabled does nothing, so every label sequence is a run.
 */
module EventLoops {

  /** Where the loop thread is in `loop()`. */
  datatype Pc =
    | NotStarted // before `loop()`
    | Checking   // about to test `_quit`
    | Polling    // blocked in the poller
    | Handling   // running channel handlers
    | Swapping   // `_callingPendingFunctors` set, queue not yet taken
    | Running    // running the functors taken
    | Stopped

  datatype State<F> = State(
    pc: Pc, quit: bool, calling: bool, pending: seq<F>, counter: nat,  // counter: the eventfd's value
    reading: bool,          // the poller reported the eventfd and its handler has not run yet
    running: seq<F>,        // functors taken and not yet started
    owesWake: bool,         // the loop thread is between a push and its wakeup
    pushers: set<nat>,      // other threads between their push and their wakeup
    quitters: set<nat>,     // other threads between setting `_quit` and their wakeup
    queued: seq<F>,         // history: everything ever queued, in order
    done: seq<F>,           // history: everything started, in order
    late: bool)             // history: `loop()` began with functors queued for which nobody has woken it

  datatype Label<F> =
    | Start | Check | PollReturns(sawEventfd: bool) | ReadEventfd | BeginDrain | Swap | RunOne | EndDrain
    | LoopPush(cb: F) | LoopWake | LoopQuit
    | Push(thread: nat, cb: F) | Wake(thread: nat)
    | Quit(thread: nat) | QuitWake(thread: nat)

  function Init<F>(): State<F> {
    State(NotStarted, false, false, [], 0, false, [], false, {}, {}, [], [], false)
  }

  /** The loop thread runs code that may call the loop: before `loop()`, in a handler, or in a functor. */
  predicate UserCode(pc: Pc) {
    pc == NotStarted || pc == Handling || pc == Running
  }

  predicate Enabled<F>(s: State<F>, l: Label<F>) {
    match l
    case Start => s.pc == NotStarted
    case Check => s.pc == Checking
    case PollReturns(saw) => s.pc == Polling && (saw ==> s.counter > 0)
    case ReadEventfd => s.pc == Handling && s.reading
    case BeginDrain => s.pc == Handling && !s.reading && !s.owesWake
    case Swap => s.pc == Swapping
    case RunOne => s.pc == Running && |s.running| > 0 && !s.owesWake
    case EndDrain => s.pc == Running && |s.running| == 0 && !s.owesWake
    case LoopPush(_) => UserCode(s.pc) && !s.owesWake
    case LoopWake => s.owesWake
    case LoopQuit => UserCode(s.pc)
    case Push(t, _) => t !in s.pushers
    case Wake(t) => t in s.pushers
    case Quit(t) => t !in s.quitters
    case QuitWake(t) => t in s.quitters
  }

  /** Somebody is about to make the poller return, or has already. */
  predicate WakeupOnItsWay<F>(s: State<F>) {
    s.counter > 0 || s.pushers != {} || s.owesWake
  }

  function Step<F>(s: State<F>, l: Label<F>): State<F> {
    if !Enabled(s, l) then s
    else
      match l
      case Start => s.(pc := Checking, late := |s.pending| > 0 && !WakeupOnItsWay(s))
      case Check => s.(pc := if s.quit then Stopped else Polling)
      case PollReturns(saw) => s.(pc := Handling, reading := saw)
      case ReadEventfd => s.(counter := 0, reading := false)
      case BeginDrain => s.(pc := Swapping, calling := true)
      case Swap => s.(pc := Running, running := s.pending, pending := [], late := false)
      case RunOne => s.(running := s.running[1..], done := s.done + [s.running[0]])
      case EndDrain => s.(pc := Checking, calling := false)
      case LoopPush(cb) => s.(pending := s.pending + [cb], queued := s.queued + [cb], owesWake := s.calling)
      case LoopWake => s.(counter := s.counter + 1, owesWake := false)
      case LoopQuit => s.(quit := true)
      case Push(t, cb) =>
        s.(pending := s.pending + [cb], queued := s.queued + [cb], pushers := s.pushers + {t})
      case Wake(t) => s.(counter := s.counter + 1, pushers := s.pushers - {t})
      case Quit(t) => s.(quit := true, quitters := s.quitters + {t})
      case QuitWake(t) => s.(counter := s.counter + 1, quitters := s.quitters - {t})
  }

  function Run<F>(s: State<F>, ls: seq<Label<F>>): State<F>
    decreases ls
  {
    if ls == [] then s else Run(Step(s, ls[0]), ls[1..])
  }

  // ---- The invariant ----

  ghost predicate Inv<F>(s: State<F>) {
    && (s.calling <==> s.pc == Swapping || s.pc == Running)
    && (s.owesWake ==> s.pc == Running)
    && (|s.running| > 0 ==> s.pc == Running)
    && (s.reading ==> s.pc == Handling)
    // queued after the queue was last taken, hence not covered by the drain at hand
    && (|s.pending| > 0 && (s.pc == Running || s.pc == Checking || s.pc == Polling) ==>
          WakeupOnItsWay(s) || s.late)
    && (s.late ==> |s.pending| > 0 && (s.pc == Checking || s.pc == Polling || s.pc == Handling || s.pc == Swapping
                                       || s.pc == Stopped))
    && (s.quit && s.pc == Polling ==> s.counter > 0 || s.quitters != {})
    && NothingLost(s)
  }

  /** Every functor ever queued has been started, is about to be, or waits: once, and in order. */
  ghost predicate NothingLost<F>(s: State<F>) {
    s.queued == s.done + s.running + s.pending
  }

  /** The four steps that touch functors. */
  lemma StepOnFunctors<F>(s: State<F>, l: Label<F>)
    ensures var s' := Step(s, l);
            if !Enabled(s, l) then s' == s
            else if l.RunOne? then
              s.running != [] && s'.running == s.running[1..] && s'.done == s.done + [s.running[0]]
              && s'.pending == s.pending && s'.queued == s.queued
            else if l.Swap? then
              s'.running == s.pending && s'.pending == [] && s'.done == s.done && s'.queued == s.queued
              && s.pc == Swapping
            else if l.LoopPush? || l.Push? then
              s'.pending == s.pending + [l.cb] && s'.queued == s.queued + [l.cb] && s'.done == s.done
              && s'.running == s.running
            else s'.pending == s.pending && s'.queued == s.queued && s'.done == s.done && s'.running == s.running
  {
    hide WakeupOnItsWay;
  }

  lemma Regroup<F>(done: seq<F>, running: seq<F>, pending: seq<F>, cb: F)
    ensures done + running + (pending + [cb]) == done + running + pending + [cb]
    ensures running == [] ==> done + pending + [] == done + running + pending
    ensures running != [] ==> done + [running[0]] + running[1..] + pending == done + running + pending
  {
    assert running != [] ==> [running[0]] + running[1..] == running;
  }

  lemma StepLosesNothing<F>(s: State<F>, l: Label<F>)
    requires NothingLost(s) && (|s.running| > 0 ==> s.pc == Running)
    ensures NothingLost(Step(s, l))
  {
    StepOnFunctors(s, l);
    hide Step, Enabled;
    if l.LoopPush? || l.Push? {
      Regroup(s.done, s.running, s.pending, l.cb);
    } else if s.running != [] {
      Regroup(s.done, s.running, s.pending, s.running[0]);
    } else if s.pending != [] {
      Regroup(s.done, s.running, s.pending, s.pending[0]);
    }
  }

  lemma StepKeepsInv<F>(s: State<F>, l: Label<F>)
    requires Inv(s)
    ensures Inv(Step(s, l))
  {
    hide NothingLost;
    StepLosesNothing(s, l);
    var s' := Step(s, l);
    if l.Push? && Enabled(s, l) {
      assert l.thread in s'.pushers;
    } else if l.Quit? && Enabled(s, l) {
      assert l.thread in s'.quitters;
    }
  }

  lemma {:induction false} RunKeepsInv<F>(s: State<F>, ls: seq<Label<F>>)
    requires Inv(s)
    ensures Inv(Run(s, ls))
    decreases ls
  {
    hide Inv, Step;
    if ls != [] {
      StepKeepsInv(s, ls[0]);
      RunKeepsInv(Step(s, ls[0]), ls[1..]);
    }
  }

  // ---- What it gives ----

  /**
   No lost wakeup: a loop blocked in the poller, with nothing to wake it and no thread about to, has run everything ever
   queued, exactly unless it was started with functors in the queue that nobody had announced.
   */
  lemma NoLostWakeup<F>(ls: seq<Label<F>>)
    ensures var s := Run(Init<F>(), ls);
            s.pc == Polling && s.counter == 0 && s.pushers == {} ==>
              (s.pending == [] && s.done == s.queued <==> !s.late)
  {
    RunKeepsInv(Init<F>(), ls);
    var s := Run(Init<F>(), ls);
    assert s.done + [] + [] == s.done;
  }

  /** That happens only by starting the loop with a queue filled before on the loop's own thread, and nothing since. */
  lemma LateOnlyFromStart<F>(s: State<F>, l: Label<F>)
    ensures !s.late && Step(s, l).late <==>
            !s.late && l.Start? && s.pc == NotStarted && |s.pending| > 0 && !WakeupOnItsWay(s)
  {
  }

  /** Such a start: a functor queued on the loop's own thread before `loop()`, which blocks without running it. */
  lemma EarlyPushIsLost<F>(cb: F)
    ensures var s := Run(Init<F>(), [LoopPush(cb), Start, Check]);
            s.pc == Polling && s.counter == 0 && s.pushers == {} && s.pending == [cb] && s.done == []
  {
    var s1 := Step(Init<F>(), LoopPush(cb));
    var s2 := Step(s1, Start);
    var s3 := Step(s2, Check);
    assert s3.pending == [cb];
    var later: seq<Label<F>> := [Start, Check];
    RunOneThen(Init<F>(), LoopPush(cb), later);
    RunOneThen(s1, Start, later[1..]);
    RunOneThen(s2, Check, later[2..]);
    assert [LoopPush(cb)] + later == [LoopPush(cb), Start, Check];
    assert [later[0]] + later[1..] == later && [later[1]] + later[2..] == later[1..];
    assert Run(s3, later[2..]) == s3;
  }

  /** A `quit` from another thread always gets the loop out of the poller. */
  lemma NoLostQuit<F>(ls: seq<Label<F>>)
    ensures var s := Run(Init<F>(), ls);
            s.pc == Polling && s.quit && s.quitters == {} ==> s.counter > 0
  {
    RunKeepsInv(Init<F>(), ls);
  }

  // ---- The eventfd ----

  /** A write of the eventfd. */
  predicate Wakes<F>(l: Label<F>) {
    l.LoopWake? || l.Wake? || l.QuitWake?
  }

  /** How many wakeups have been given along a run since the eventfd was last read, `n` before the run included. */
  function WakeupsSinceRead<F>(s: State<F>, ls: seq<Label<F>>, n: nat): nat
    decreases ls
  {
    if ls == [] then n
    else
      var now := if !Enabled(s, ls[0]) then n
                 else if ls[0].ReadEventfd? then 0
                 else if Wakes(ls[0]) then n + 1
                 else n;
      WakeupsSinceRead(Step(s, ls[0]), ls[1..], now)
  }

  lemma StepOnCounter<F>(s: State<F>, l: Label<F>)
    ensures Step(s, l).counter == if !Enabled(s, l) then s.counter
                                  else if l.ReadEventfd? then 0
                                  else if Wakes(l) then s.counter + 1
                                  else s.counter
  {
    hide WakeupOnItsWay;
  }

  lemma {:induction false} CounterFrom<F>(s: State<F>, ls: seq<Label<F>>)
    ensures Run(s, ls).counter == WakeupsSinceRead(s, ls, s.counter)
    decreases ls
  {
    hide Step, Enabled, Wakes;
    if ls != [] {
      StepOnCounter(s, ls[0]);
      CounterFrom(Step(s, ls[0]), ls[1..]);
    }
  }

  /**
   The converse of "no lost wakeup": the eventfd counts the wakeups given since it was last read, so the poller reports
   it exactly when somebody has woken the loop since then.
   */
  lemma WokenExactly<F>(ls: seq<Label<F>>)
    ensures var s := Run(Init<F>(), ls);
            && s.counter == WakeupsSinceRead(Init<F>(), ls, 0)
            && (s.pc == Polling ==> (Enabled(s, PollReturns(true)) <==> WakeupsSinceRead(Init<F>(), ls, 0) > 0))
  {
    hide Step;
    CounterFrom(Init<F>(), ls);
  }

  lemma {:induction false} NobodyWakes<F>(s: State<F>, ls: seq<Label<F>>)
    requires s.counter == 0 && forall i :: 0 <= i < |ls| ==> !Wakes(ls[i])
    ensures Run(s, ls).counter == 0
    decreases ls
  {
    hide Step, Enabled, Wakes;
    if ls != [] {
      StepOnCounter(s, ls[0]);
      NobodyWakes(Step(s, ls[0]), ls[1..]);
    }
  }

  /** Once the handler has read the eventfd, and until someone writes it again, the poller does not report it. */
  lemma BlocksOnceRead<F>(past: seq<Label<F>>, later: seq<Label<F>>)
    requires Enabled(Run(Init<F>(), past), ReadEventfd) && forall i :: 0 <= i < |later| ==> !Wakes(later[i])
    ensures !Enabled(Run(Step(Run(Init<F>(), past), ReadEventfd), later), PollReturns(true))
  {
    hide Wakes;
    NobodyWakes(Step(Run(Init<F>(), past), ReadEventfd), later);
  }

  // ---- Order ----

  /** In every run: what has been started is an initial part of what was queued, each entry once, in that order. */
  lemma RunInQueueOrder<F>(ls: seq<Label<F>>)
    ensures var s := Run(Init<F>(), ls);
            s.done <= s.queued && s.queued == s.done + s.running + s.pending
  {
    RunKeepsInv(Init<F>(), ls);
  }

  predicate StaysRunning<F>(s: State<F>, ls: seq<Label<F>>)
    decreases ls
  {
    s.pc == Running && (ls == [] || StaysRunning(Step(s, ls[0]), ls[1..]))
  }

  lemma StepInDrain<F>(s: State<F>, l: Label<F>)
    requires s.pc == Running
    ensures var s' := Step(s, l); s'.done + s'.running == s.done + s.running && |s'.running| <= |s.running|
  {
    if l.RunOne? && Enabled(s, l) {
      assert s.running == [s.running[0]] + s.running[1..];
    }
  }

  /** One drain runs the functors it took and no others, however many are queued meanwhile. */
  lemma {:induction false} DrainRunsItsSnapshot<F>(s: State<F>, ls: seq<Label<F>>)
    requires StaysRunning(s, ls)
    ensures var s' := Run(s, ls);
            s'.done + s'.running == s.done + s.running && |s'.running| <= |s.running|
    decreases ls
  {
    hide Step;
    if ls != [] {
      StepInDrain(s, ls[0]);
      DrainRunsItsSnapshot(Step(s, ls[0]), ls[1..]);
    }
  }

  // ---- Two drains run everything ----

  /** How many drains are completed along a run. */
  function Drains<F>(s: State<F>, ls: seq<Label<F>>): nat
    decreases ls
  {
    if ls == [] then 0
    else (if ls[0].EndDrain? && Enabled(s, ls[0]) then 1 else 0) + Drains(Step(s, ls[0]), ls[1..])
  }

  /** How many drains it takes until the first `n` functors queued have been run. */
  function DrainsNeeded<F>(s: State<F>, n: nat): nat {
    if |s.done| >= n then 0
    else if s.pc == Running && |s.done| + |s.running| < n then 2
    else 1
  }

  lemma StepNeeds<F>(s: State<F>, l: Label<F>, n: nat)
    requires Inv(s) && n <= |s.queued|
    ensures DrainsNeeded(Step(s, l), n) + (if l.EndDrain? && Enabled(s, l) then 1 else 0) <= DrainsNeeded(s, n) + 1
    ensures !(l.EndDrain? && Enabled(s, l)) ==> DrainsNeeded(Step(s, l), n) <= DrainsNeeded(s, n)
    ensures l.EndDrain? && Enabled(s, l) && DrainsNeeded(s, n) > 0 ==> DrainsNeeded(Step(s, l), n) < DrainsNeeded(s, n)
    ensures n <= |Step(s, l).queued|
  {
    hide WakeupOnItsWay;
    assert |s.queued| == |s.done| + |s.running| + |s.pending|;
  }

  lemma {:induction false} DrainsAreEnough<F>(s: State<F>, ls: seq<Label<F>>, n: nat)
    requires Inv(s) && n <= |s.queued| && DrainsNeeded(s, n) <= Drains(s, ls)
    ensures |Run(s, ls).done| >= n
    decreases ls
  {
    hide Inv, Step, Enabled;
    if ls != [] {
      StepNeeds(s, ls[0], n);
      StepKeepsInv(s, ls[0]);
      DrainsAreEnough(Step(s, ls[0]), ls[1..], n);
    }
  }

  lemma StepQueues<F>(s: State<F>, l: Label<F>)
    ensures s.queued <= Step(s, l).queued
  {
    hide WakeupOnItsWay;
  }

  lemma {:induction false} QueueGrows<F>(s: State<F>, ls: seq<Label<F>>)
    ensures s.queued <= Run(s, ls).queued
    decreases ls
  {
    hide Step;
    if ls != [] {
      StepQueues(s, ls[0]);
      QueueGrows(Step(s, ls[0]), ls[1..]);
    }
  }

  /** In every schedule, whoever takes part in it, two completed drains run everything that was queued before them. */
  lemma TwoDrainsRunAll<F>(past: seq<Label<F>>, ls: seq<Label<F>>)
    requires Drains(Run(Init<F>(), past), ls) >= 2
    ensures Run(Init<F>(), past).queued <= Run(Run(Init<F>(), past), ls).done
  {
    hide Inv, Step, Enabled;
    InitInv<F>();
    RunKeepsInv(Init<F>(), past);
    var s := Run(Init<F>(), past);
    RunKeepsInv(s, ls);
    DrainsAreEnough(s, ls, |s.queued|);
    QueueGrows(s, ls);
    DonePrefix(Run(s, ls));
  }

  lemma DonePrefix<F>(s: State<F>)
    requires Inv(s)
    ensures s.done <= s.queued
  {
  }

  // ---- The loop alone always catches up ----

  /** A step of the loop thread that neither queues anything nor quits. */
  predicate LoopStep<F>(l: Label<F>) {
    l.Check? || l.PollReturns? || l.ReadEventfd? || l.BeginDrain? || l.Swap? || l.RunOne? || l.EndDrain? || l.LoopWake?
  }

  predicate LoopSteps<F>(ls: seq<Label<F>>) {
    forall i :: 0 <= i < |ls| ==> LoopStep(ls[i])
  }

  lemma {:induction false} RunConcat<F>(s: State<F>, x: seq<Label<F>>, y: seq<Label<F>>)
    ensures Run(s, x + y) == Run(Run(s, x), y)
    decreases x
  {
    hide Step;
    if x == [] {
      assert x + y == y;
    } else {
      assert (x + y)[1..] == x[1..] + y;
      RunConcat(Step(s, x[0]), x[1..], y);
    }
  }

  lemma {:induction false} FinishRunning<F>(s: State<F>) returns (ls: seq<Label<F>>)
    requires s.pc == Running && !s.owesWake
    ensures LoopSteps(ls) && Run(s, ls) == s.(running := [], done := s.done + s.running)
    decreases |s.running|
  {
    if |s.running| == 0 {
      ls := [];
      assert s.done + s.running == s.done;
    } else {
      var s1 := Step(s, RunOne);
      var more := FinishRunning(s1);
      ls := [RunOne] + more;
      assert s1.done + s1.running == s.done + s.running;
    }
  }

  /** From the handlers of one round to the end of that round's drain. */
  lemma DrainNow<F>(s: State<F>) returns (ls: seq<Label<F>>)
    requires Inv(s) && s.pc == Handling
    ensures LoopSteps(ls) && Run(s, ls).done == s.queued
  {
    if s.reading {
      var s1 := Step(s, ReadEventfd);
      StepKeepsInv(s, ReadEventfd);
      var more := DrainQueue(s1);
      ls := [ReadEventfd] + more;
      RunOneThen(s, ReadEventfd, more);
    } else {
      ls := DrainQueue(s);
    }
  }

  lemma DrainQueue<F>(s: State<F>) returns (ls: seq<Label<F>>)
    requires Inv(s) && s.pc == Handling && !s.reading
    ensures LoopSteps(ls) && Run(s, ls).done == s.queued
  {
    var s2 := Step(Step(s, BeginDrain), Swap);
    var more := FinishRunning(s2);
    RunThree(s, BeginDrain, Swap, more);
    ls := [BeginDrain, Swap] + more;
  }

  lemma RunThree<F>(s: State<F>, a: Label<F>, b: Label<F>, more: seq<Label<F>>)
    ensures Run(s, [a, b] + more) == Run(Step(Step(s, a), b), more)
  {
    hide Step;
    assert ([a, b] + more)[1..] == [b] + more;
    assert ([b] + more)[1..] == more;
  }

  /** From the test of `_quit` through one poll: the poller lets the loop go if anything is queued. */
  lemma NextRound<F>(s: State<F>) returns (ls: seq<Label<F>>)
    requires Inv(s) && (s.pc == Checking || s.pc == Polling) && !s.quit && s.pushers == {} && !s.late
    ensures LoopSteps(ls) && Run(s, ls).done == s.queued
  {
    var check: seq<Label<F>> := if s.pc == Checking then [Check] else [];
    var s1 := if s.pc == Checking then Step(s, Check) else s;
    if s.pending == [] {
      ls := [];
    } else {
      var s2 := Step(s1, PollReturns(true));
      StepKeepsInv(s1, PollReturns(true));
      var more := DrainNow(s2);
      ls := check + ([PollReturns(true)] + more);
      RunConcat(s, check, [PollReturns(true)] + more);
    }
  }

  /** From inside a drain: finish it, then do one more round for what was queued meanwhile. */
  lemma FinishAndGoOn<F>(s: State<F>) returns (ls: seq<Label<F>>)
    requires Inv(s) && s.pc == Running && !s.quit && s.pushers == {}
    ensures LoopSteps(ls) && Run(s, ls).done == s.queued
  {
    var wake: seq<Label<F>> := if s.owesWake then [LoopWake] else [];
    var s1 := if s.owesWake then Step(s, LoopWake) else s;
    StepKeepsInv(s, LoopWake);
    var rest := FinishRunning(s1);
    RunKeepsInv(s1, rest);
    var s2 := Run(s1, rest);
    var s3 := Step(s2, EndDrain);
    StepKeepsInv(s2, EndDrain);
    var more := NextRound(s3);
    ls := wake + (rest + ([EndDrain] + more));
    RunConcat(s, wake, rest + ([EndDrain] + more));
    RunConcat(s1, rest, [EndDrain] + more);
    RunConcat(s2, [EndDrain], more);
  }

  lemma CatchesUpFrom<F>(s: State<F>) returns (ls: seq<Label<F>>)
    requires Inv(s) && !s.quit && s.pushers == {} && !s.late && s.pc != Stopped && s.pc != NotStarted
    ensures LoopSteps(ls) && Run(s, ls).done == s.queued
  {
    hide Run;
    match s.pc {
      case Checking => ls := NextRound(s);
      case Polling => ls := NextRound(s);
      case Handling => ls := DrainNow(s);
      case Running => ls := FinishAndGoOn(s);
      case Swapping =>
        var more := FinishRunning(Step(s, Swap));
        ls := [Swap] + more;
        RunOneThen(s, Swap, more);
    }
  }

  lemma RunOneThen<F>(s: State<F>, l: Label<F>, more: seq<Label<F>>)
    ensures Run(s, [l] + more) == Run(Step(s, l), more)
  {
    hide Step;
    assert ([l] + more)[1..] == more;
  }

  /**
   The positive side of "no lost wakeup": from every reachable state in which no other thread is between its push and
   its wakeup, the loop's own steps, without anybody's help, run everything queued so far.
   */
  lemma CatchesUp<F>(past: seq<Label<F>>) returns (ls: seq<Label<F>>)
    requires var s := Run(Init<F>(), past);
             !s.quit && s.pushers == {} && !s.late && s.pc != Stopped && s.pc != NotStarted
    ensures LoopSteps(ls) && Run(Init<F>(), past + ls).done == Run(Init<F>(), past).queued
  {
    InitInv<F>();
    hide Inv, Init, Step, Run, LoopSteps;
    RunKeepsInv(Init<F>(), past);
    ls := CatchesUpFrom(Run(Init<F>(), past));
    RunConcat(Init<F>(), past, ls);
  }

  lemma InitInv<F>()
    ensures Inv(Init<F>())
  {
  }

  // ---- The class ----

  /** What can happen while a handler or functor runs: its own calls of the loop, and complete calls by others. */
  datatype Act<F> = LoopQueue(cb: F) | SelfQuit | OtherQueue(cb: F) | OtherQuit

  predicate ByOther<F>(a: Act<F>) {
    a.OtherQueue? || a.OtherQuit?
  }

  predicate AllByOthers<F>(acts: seq<Act<F>>) {
    forall i :: 0 <= i < |acts| ==> ByOther(acts[i])
  }

  /** Some other thread, outside the loop. */
  const OTHER: nat := 1

  predicate CanAct<F>(s: State<F>, a: Act<F>) {
    && OTHER !in s.pushers && OTHER !in s.quitters && !s.owesWake
    && (ByOther(a) || UserCode(s.pc))
  }

  /** The loop after an act: a functor queued behind all others, and a wakeup unless the loop will look by itself. */
  function Acted<F>(s: State<F>, a: Act<F>): State<F> {
    match a
    case LoopQueue(cb) =>
      s.(pending := s.pending + [cb], queued := s.queued + [cb], counter := s.counter + if s.calling then 1 else 0)
    case SelfQuit => s.(quit := true)
    case OtherQueue(cb) => s.(pending := s.pending + [cb], queued := s.queued + [cb], counter := s.counter + 1)
    case OtherQuit => s.(quit := true, counter := s.counter + 1)
  }

  function ActedAll<F>(s: State<F>, acts: seq<Act<F>>): State<F> {
    if acts == [] then s else Acted(ActedAll(s, acts[..|acts| - 1]), acts[|acts| - 1])
  }

  lemma QueueSteps<F>(s: State<F>, cb: F)
    requires Inv(s) && !s.owesWake
    ensures UserCode(s.pc) ==> Acted(s, LoopQueue(cb)) == Step(Step(s, LoopPush(cb)), LoopWake)
    ensures OTHER !in s.pushers ==> Acted(s, OtherQueue(cb)) == Step(Step(s, Push(OTHER, cb)), Wake(OTHER))
  {
    assert OTHER !in s.pushers ==> s.pushers + {OTHER} - {OTHER} == s.pushers;
  }

  lemma QuitSteps<F>(s: State<F>)
    ensures UserCode(s.pc) ==> Acted(s, SelfQuit) == Step(s, LoopQuit)
    ensures OTHER !in s.quitters ==> Acted(s, OtherQuit) == Step(Step(s, Quit(OTHER)), QuitWake(OTHER))
  {
    assert OTHER !in s.quitters ==> s.quitters + {OTHER} - {OTHER} == s.quitters;
  }

  /** The functors queued by some acts, and the wakeups they give. */
  function QueuedBy<F>(a: Act<F>): seq<F> {
    if a.LoopQueue? || a.OtherQueue? then [a.cb] else []
  }

  function WakeupBy<F>(a: Act<F>, draining: bool): nat {
    if ByOther(a) || (a.LoopQueue? && draining) then 1 else 0
  }

  function Queued<F>(acts: seq<Act<F>>): seq<F> {
    if acts == [] then [] else Queued(acts[..|acts| - 1]) + QueuedBy(acts[|acts| - 1])
  }

  function Wakeups<F>(acts: seq<Act<F>>, draining: bool): nat {
    if acts == [] then 0 else Wakeups(acts[..|acts| - 1], draining) + WakeupBy(acts[|acts| - 1], draining)
  }

  /** The state after acts that queue `cbs` and wake `n` times. */
  ghost predicate After<F>(s: State<F>, s': State<F>, cbs: seq<F>, n: nat) {
    && s'.pending == s.pending + cbs && s'.queued == s.queued + cbs && s'.counter == s.counter + n
    && s' == s.(pending := s'.pending, queued := s'.queued, counter := s'.counter, quit := s'.quit)
    && (s.quit ==> s'.quit)
  }

  lemma ActedMeans<F>(s: State<F>, a: Act<F>)
    ensures After(s, Acted(s, a), QueuedBy(a), WakeupBy(a, s.calling))
  {
    assert s.pending + [] == s.pending && s.queued + [] == s.queued;
  }

  lemma AfterBoth<F>(s: State<F>, s1: State<F>, s2: State<F>, x: seq<F>, y: seq<F>, m: nat, n: nat)
    requires After(s, s1, x, m) && After(s1, s2, y, n)
    ensures After(s, s2, x + y, m + n) && s1.calling == s.calling
  {
    assert s.pending + x + y == s.pending + (x + y) && s.queued + x + y == s.queued + (x + y);
  }

  lemma {:induction false} ActedAllMeans<F>(s: State<F>, acts: seq<Act<F>>)
    ensures After(s, ActedAll(s, acts), Queued(acts), Wakeups(acts, s.calling))
  {
    if acts == [] {
      assert s.pending + [] == s.pending && s.queued + [] == s.queued;
    } else {
      hide After, Acted, QueuedBy, WakeupBy;
      var some, last := acts[..|acts| - 1], acts[|acts| - 1];
      ActedAllMeans(s, some);
      ActedMeans(ActedAll(s, some), last);
      SameCalling(s, ActedAll(s, some), Queued(some), Wakeups(some, s.calling));
      AfterBoth(s, ActedAll(s, some), ActedAll(s, acts), Queued(some), QueuedBy(last), Wakeups(some, s.calling),
                WakeupBy(last, s.calling));
    }
  }

  lemma SameCalling<F>(s: State<F>, s': State<F>, cbs: seq<F>, n: nat)
    requires After(s, s', cbs, n)
    ensures s'.calling == s.calling
  {
  }

  /** All that happens while some functors run, one after the other. */
  function Acts<F>(effects: F -> seq<Act<F>>, cbs: seq<F>): seq<Act<F>> {
    if cbs == [] then [] else Acts(effects, cbs[..|cbs| - 1]) + effects(cbs[|cbs| - 1])
  }

  lemma {:induction false} QueuedConcat<F>(x: seq<Act<F>>, y: seq<Act<F>>, draining: bool)
    ensures Queued(x + y) == Queued(x) + Queued(y)
    ensures Wakeups(x + y, draining) == Wakeups(x, draining) + Wakeups(y, draining)
  {
    hide QueuedBy, WakeupBy;
    if y == [] {
      assert x + y == x && Queued(x) + [] == Queued(x);
    } else {
      assert (x + y)[..|x + y| - 1] == x + y[..|y| - 1] && (x + y)[|x + y| - 1] == y[|y| - 1];
      QueuedConcat(x, y[..|y| - 1], draining);
    }
  }

  /**
   What one turn of the loop meets: other threads at work while it polls, channel handlers with what they and others do
   meanwhile, and others at work between the drain's flag and its swap.
   */
  datatype Round<F> = Round(others: seq<Act<F>>, otherEvents: bool, handlers: seq<Act<F>>, beforeSwap: seq<Act<F>>)
  {
    predicate Valid() {
      AllByOthers(others) && AllByOthers(beforeSwap)
    }
  }

  /** The loop object; `machine` is the abstract machine it drives, each method taking the machine's own steps. */
  class EventLoop<F> {
    var quit: bool
    var callingPendingFunctors: bool
    var pendingFunctors: seq<F>
    var eventfd: nat
    ghost var machine: State<F>

    ghost predicate Valid()
      reads this
    {
      && Inv(machine)
      && machine.quit == quit && machine.calling == callingPendingFunctors
      && machine.pending == pendingFunctors && machine.counter == eventfd
    }

    constructor ()
      ensures Valid() && machine == Init()
    {
      quit, callingPendingFunctors, pendingFunctors, eventfd := false, false, [], 0;
      machine := Init();
    }

    ghost method Take(l: Label<F>)
      requires Inv(machine)
      modifies this`machine
      ensures Inv(machine) && machine == Step(old(machine), l)
    {
      StepKeepsInv(machine, l);
      machine := Step(machine, l);
    }

    method Wakeup()
      modifies this`eventfd
      ensures eventfd == old(eventfd) + 1
    {
      eventfd := eventfd + 1;
    }

    /** `queueInLoop` from another thread. */
    method QueueFromThread(cb: F, ghost thread: nat)
      requires Valid() && thread !in machine.pushers
      modifies this
      ensures Valid() && machine == Step(Step(old(machine), Push(thread, cb)), Wake(thread))
      ensures pendingFunctors == old(pendingFunctors) + [cb] && eventfd == old(eventfd) + 1 && quit == old(quit)
    {
      hide Inv;
      pendingFunctors := pendingFunctors + [cb];
      Take(Push(thread, cb));
      Wakeup();
      Take(Wake(thread));
    }

    /** `queueInLoop` from the loop thread: the poller is woken only if a drain is under way. */
    method QueueFromLoop(cb: F)
      requires Valid() && Enabled(machine, LoopPush(cb))
      modifies this
      ensures Valid() && machine == Step(Step(old(machine), LoopPush(cb)), LoopWake)
      ensures pendingFunctors == old(pendingFunctors) + [cb] && quit == old(quit)
      ensures eventfd == old(eventfd) + if old(callingPendingFunctors) then 1 else 0
    {
      pendingFunctors := pendingFunctors + [cb];
      Take(LoopPush(cb));
      if callingPendingFunctors {
        Wakeup();
      }
      Take(LoopWake);
    }

    /** The eventfd's own handler: nothing is left to report, until the next wakeup. */
    method HandleRead()
      requires Valid() && Enabled(machine, ReadEventfd)
      modifies this
      ensures Valid() && machine == Step(old(machine), ReadEventfd)
      ensures eventfd == 0 && pendingFunctors == old(pendingFunctors) && quit == old(quit)
    {
      eventfd := 0;
      Take(ReadEventfd);
    }

    /** `quit` on the loop thread: nobody needs waking. */
    method QuitFromLoop()
      requires Valid() && Enabled(machine, Label.LoopQuit)
      modifies this
      ensures Valid() && machine == Step(old(machine), Label.LoopQuit)
      ensures quit && eventfd == old(eventfd) && pendingFunctors == old(pendingFunctors)
    {
      quit := true;
      Take(Label.LoopQuit);
    }

    method Perform(a: Act<F>)
      requires Valid() && CanAct(machine, a)
      modifies this
      ensures Valid() && machine == Acted(old(machine), a)
    {
      hide Inv, Step;
      if a.LoopQueue? || a.OtherQueue? {
        QueueSteps(machine, a.cb);
      }
      QuitSteps(machine);
      CanTake(machine, a);
      match a
      case LoopQueue(cb) => QueueFromLoop(cb);
      case SelfQuit => QuitFromLoop();
      case OtherQueue(cb) => QueueFromThread(cb, OTHER);
      case OtherQuit => QuitFromThread(OTHER);
    }

    method PerformAll(acts: seq<Act<F>>)
      requires Valid() && forall i :: 0 <= i < |acts| ==> CanAct(machine, acts[i])
      modifies this
      ensures Valid() && machine == ActedAll(old(machine), acts)
    {
      hide Inv, Step, Acted;
      for i := 0 to |acts|
        invariant Valid() && machine == ActedAll(old(machine), acts[..i])
      {
        ActedAllMeans(old(machine), acts[..i]);
        assert acts[..i + 1][..i] == acts[..i];
        Perform(acts[i]);
      }
      assert acts[..|acts|] == acts;
    }

    /** Starts one functor, off the front of the batch; what it and others queue meanwhile goes behind everything. */
    method RunFunctor(cb: F, effects: F -> seq<Act<F>>)
      requires Valid() && machine.pc == Running && !machine.owesWake
      requires OTHER !in machine.pushers && OTHER !in machine.quitters
      requires |machine.running| > 0 && machine.running[0] == cb
      modifies this
      ensures Valid() && machine == ActedAll(Step(old(machine), RunOne), effects(cb))
    {
      hide Inv;
      Take(RunOne);
      PerformAll(effects(cb));
    }

    method RunAll(tempRuns: seq<F>, effects: F -> seq<Act<F>>)
      requires Valid() && machine.pc == Running && !machine.owesWake && machine.running == tempRuns
      requires OTHER !in machine.pushers && OTHER !in machine.quitters
      modifies this
      ensures Valid() && machine.pc == Running && !machine.owesWake && machine.running == []
      ensures machine.done == old(machine.done) + tempRuns
      ensures pendingFunctors == old(pendingFunctors) + Queued(Acts(effects, tempRuns))
      ensures eventfd == old(eventfd) + Wakeups(Acts(effects, tempRuns), true)
      ensures machine.pushers == old(machine.pushers) && machine.quitters == old(machine.quitters)
      ensures machine.late == old(machine.late)
    {
      hide Inv, Step, ActedAll, Queued, Wakeups;
      CallingWhileRunning(machine);
      NothingQueued<F>();
      for i := 0 to |tempRuns|
        invariant Valid() && machine.pc == Running && !machine.owesWake && machine.running == tempRuns[i..]
        invariant machine.done == old(machine.done) + tempRuns[..i] && machine.calling
        invariant pendingFunctors == old(pendingFunctors) + Queued(Acts(effects, tempRuns[..i]))
        invariant eventfd == old(eventfd) + Wakeups(Acts(effects, tempRuns[..i]), true)
        invariant machine.late == old(machine.late)
        invariant machine.pushers == old(machine.pushers) && machine.quitters == old(machine.quitters)
      {
        assert tempRuns[..i + 1][..i] == tempRuns[..i];
        QueuedConcat(Acts(effects, tempRuns[..i]), effects(tempRuns[i]), true);
        StartsOne(machine);
        ActedAllMeans(Step(machine, RunOne), effects(tempRuns[i]));
        RunFunctor(tempRuns[i], effects);
      }
      assert tempRuns[..|tempRuns|] == tempRuns;
    }

    /** The flag, and then the swap; others may queue between the two. */
    method TakeQueue(beforeSwap: seq<Act<F>>) returns (tempRuns: seq<F>)
      requires Valid() && Enabled(machine, BeginDrain) && AllByOthers(beforeSwap)
      requires OTHER !in machine.pushers && OTHER !in machine.quitters
      modifies this
      ensures Valid() && machine.pc == Running && !machine.owesWake && !machine.late && machine.running == tempRuns
      ensures tempRuns == old(pendingFunctors) + Queued(beforeSwap) && pendingFunctors == []
      ensures machine.done == old(machine.done) && eventfd == old(eventfd) + Wakeups(beforeSwap, true)
      ensures machine.pushers == old(machine.pushers) && machine.quitters == old(machine.quitters)
    {
      hide Inv, ActedAll, Queued, Wakeups;
      OnlyWhileRunning(machine);
      callingPendingFunctors := true;
      Take(BeginDrain);
      ActedAllMeans(machine, beforeSwap);
      PerformAll(beforeSwap);
      tempRuns := pendingFunctors;
      pendingFunctors := [];
      Take(Swap);
    }

    /**
     A drain runs exactly the functors found when it takes the queue, in order.  What is queued while they run, by them
     or by other threads, waits for the next drain, with a wakeup for each.
     */
    method DoPendingFunctors(beforeSwap: seq<Act<F>>, effects: F -> seq<Act<F>>)
      requires Valid() && Enabled(machine, BeginDrain) && AllByOthers(beforeSwap)
      requires OTHER !in machine.pushers && OTHER !in machine.quitters
      modifies this
      ensures Valid() && machine.pc == Checking
      ensures var taken := old(pendingFunctors) + Queued(beforeSwap);
              && machine.done == old(machine.done) + taken
              && pendingFunctors == Queued(Acts(effects, taken))
              && eventfd == old(eventfd) + Wakeups(beforeSwap, true) + Wakeups(Acts(effects, taken), true)
      ensures machine.pushers == old(machine.pushers) && machine.quitters == old(machine.quitters) && !machine.late
    {
      hide Inv, Queued, Wakeups, Acts;
      var tempRuns := TakeQueue(beforeSwap);
      RunAll(tempRuns, effects);
      callingPendingFunctors := false;
      Take(EndDrain);
    }

    /** `quit` from another thread. */
    method QuitFromThread(ghost thread: nat)
      requires Valid() && thread !in machine.quitters
      modifies this
      ensures Valid() && machine == Step(Step(old(machine), Quit(thread)), QuitWake(thread))
      ensures quit && eventfd == old(eventfd) + 1 && pendingFunctors == old(pendingFunctors)
    {
      hide Inv;
      quit := true;
      Take(Quit(thread));
      Wakeup();
      Take(QuitWake(thread));
    }

    /** What the poller reports is handled, then the queue is drained: all that was queued before has then been run. */
    method HandleAndDrain(round: Round<F>, effects: F -> seq<Act<F>>)
      requires Valid() && machine.pc == Polling && (eventfd > 0 || round.otherEvents) && round.Valid()
      requires machine.pushers == {} && machine.quitters == {}
      modifies this
      ensures Valid() && machine.pc == Checking && machine.pushers == {} && machine.quitters == {} && !machine.late
      ensures old(machine.queued) <= machine.done
    {
      hide Inv, ActedAll, Queued, Wakeups, Acts;
      var sawEventfd := eventfd > 0;
      Take(PollReturns(sawEventfd));
      OnlyWhileRunning(machine);
      if sawEventfd {
        HandleRead();
      }
      ActedAllMeans(machine, round.handlers);
      PerformAll(round.handlers);
      DrainTakesAll(machine);
      ghost var queued, done, pending := machine.queued, machine.done, machine.pending;
      DoPendingFunctors(round.beforeSwap, effects);
      assert done + (pending + Queued(round.beforeSwap)) == queued + Queued(round.beforeSwap);
    }

    /**
     `loop`, for as many rounds as there are.  It ends early when told to quit, or blocks in the poller, and then with
     nothing left to run, unless functors were queued on its own thread before it began and nothing has happened since.
     One round is enough for everything queued before it.
     */
    method Loop(rounds: seq<Round<F>>, effects: F -> seq<Act<F>>) returns (n: nat)
      requires Valid() && machine.pc == NotStarted && machine.pushers == {} && machine.quitters == {}
      requires forall i :: 0 <= i < |rounds| ==> rounds[i].Valid()
      modifies this
      ensures Valid() && n <= |rounds|
      ensures n < |rounds| ==>
                || (machine.pc == Stopped && quit)
                || (machine.pc == Polling && !quit
                    && (machine.late || (pendingFunctors == [] && machine.done == machine.queued)))
      ensures machine.late ==> n == 0 && old(pendingFunctors) != [] && old(eventfd) == 0
      ensures n > 0 ==> old(machine.queued) <= machine.done
      ensures old(quit) && rounds != [] ==> n == 0 && machine.pc == Stopped && machine.done == old(machine.done)
    {
      hide Inv, ActedAll, Queued, Wakeups;
      NotLateBefore(machine);
      Take(Start);
      n := 0;
      while n < |rounds|
        invariant n <= |rounds| && Valid() && machine.pc == Checking && machine.pushers == {} && machine.quitters == {}
        invariant n > 0 ==> old(machine.queued) <= machine.done
        invariant n == 0 ==> machine.queued == old(machine.queued) && machine.done == old(machine.done)
        invariant if n == 0 then quit == old(quit) else !old(quit)
        invariant machine.late ==> n == 0 && old(pendingFunctors) != [] && old(eventfd) == 0
        decreases |rounds| - n
      {
        DoneAreQueued(machine);
        OnlyWhileRunning(machine);
        Take(Check);
        if quit {
          return;
        }
        ActedAllMeans(machine, rounds[n].others);
        PerformAll(rounds[n].others);
        if eventfd == 0 && !rounds[n].otherEvents {
          BlockedIsIdle(machine);
          return;
        }
        HandleAndDrain(rounds[n], effects);
        n := n + 1;
      }
    }
  }

  lemma CanTake<F>(s: State<F>, a: Act<F>)
    requires CanAct(s, a)
    ensures a.LoopQueue? ==> Enabled(s, LoopPush(a.cb))
    ensures a.SelfQuit? ==> Enabled(s, Label.LoopQuit)
  {
  }

  lemma NothingQueued<F>()
    ensures Queued<F>([]) == [] && Wakeups<F>([], true) == 0
  {
  }

  lemma StartsOne<F>(s: State<F>)
    requires Enabled(s, RunOne)
    ensures var s' := Step(s, RunOne);
            s' == s.(running := s.running[1..], done := s.done + [s.running[0]])
  {
  }

  lemma NotLateBefore<F>(s: State<F>)
    requires Inv(s) && s.pc == NotStarted
    ensures !s.late && s.running == [] && !s.owesWake
  {
  }

  /** Only a thread that runs functors owes a wakeup or has functors taken. */
  lemma OnlyWhileRunning<F>(s: State<F>)
    requires Inv(s) && s.pc != Running
    ensures !s.owesWake && s.running == []
  {
  }

  lemma DrainTakesAll<F>(s: State<F>)
    requires Inv(s) && s.pc == Handling
    ensures s.queued == s.done + s.pending
  {
    assert s.done + [] == s.done;
  }

  lemma DoneAreQueued<F>(s: State<F>)
    requires Inv(s)
    ensures s.done <= s.queued
  {
  }

  lemma BlockedIsIdle<F>(s: State<F>)
    requires Inv(s) && s.pc == Polling && s.counter == 0 && s.pushers == {} && s.quitters == {}
    ensures !s.quit && (s.late || (s.pending == [] && s.done == s.queued))
  {
    assert s.done + [] + [] == s.done;
  }

  lemma CallingWhileRunning<F>(s: State<F>)
    requires Inv(s) && s.pc == Running
    ensures s.calling
  {
  }
}
