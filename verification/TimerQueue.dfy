/** The timer queue as the loop thread runs it: its methods change the set, the heap and the timerfd in place. */
module TimerQueues {
  import opened Timers
  import opened TimerSet
  import opened TimerRuns
  import opened TimerPromises

  // ---- One pass through the handler, as steps of the machine ----

  /** What a callback may do, besides taking time: add timers and cancel timers. */
  predicate CallbackCode(ls: seq<Label>) {
    forall l :: l in ls ==> l.Tick? || l.AddFromLoop? || l.Cancel?
  }

  function Firings(n: nat, callback: nat -> seq<Label>): seq<Label> {
    if n == 0 then [] else Firings(n - 1, callback) + [FireNext] + callback(n - 1)
  }

  function Resets(n: nat, delay: nat -> nat): seq<Label> {
    if n == 0 then [] else Resets(n - 1, delay) + [Tick(delay(n - 1)), ResetNext]
  }

  /** A pass that finds `n` timers due. */
  function Handler(n: nat, wait: nat, callback: nat -> seq<Label>, delay: nat -> nat): seq<Label> {
    [BeginRead, Tick(wait), ReadTimerfd] + Firings(n, callback) + [BeginReset] + Resets(n, delay) + [Finish]
  }

  /** The new callbacks are those of the first `n` entries, one each, in that order. */
  predicate FiredInOrder(before: seq<Fire>, after: seq<Fire>, batch: seq<Entry>, n: nat)
    requires n <= |batch|
  {
    && |after| == |before| + n && before <= after
    && forall i :: 0 <= i < n ==> after[|before| + i].ptr == batch[i].ptr && after[|before| + i].stamp == batch[i].stamp
  }

  lemma RunThen(s: State, ls: seq<Label>, l: Label)
    ensures Run(s, ls + [l]) == Step(Run(s, ls), l)
  {
    hide Step;
    RunAppend(s, ls, [l]);
    RunSingle(Run(s, ls), l);
  }

  lemma OneMoreReset(s: State, k: nat, delay: nat -> nat)
    ensures Run(s, [BeginReset] + Resets(k + 1, delay))
         == Step(Step(Run(s, [BeginReset] + Resets(k, delay)), Tick(delay(k))), ResetNext)
  {
    hide Step;
    var ls := [BeginReset] + Resets(k, delay);
    RunThen(s, ls, Tick(delay(k)));
    RunThen(s, ls + [Tick(delay(k))], ResetNext);
    assert [BeginReset] + Resets(k + 1, delay) == ls + [Tick(delay(k))] + [ResetNext];
  }

  lemma HandlerRuns(s0: State, s1: State, s2: State, s3: State, s4: State, n: nat, wait: nat,
                    callback: nat -> seq<Label>, delay: nat -> nat)
    requires s1 == Step(s0, BeginRead) && s2 == Step(s1, Tick(wait)) && s3 == Step(s2, ReadTimerfd)
    requires s4 == Run(s3, Firings(n, callback))
    ensures Run(s0, Handler(n, wait, callback, delay)) == Run(s4, [BeginReset] + Resets(n, delay) + [Finish])
  {
    hide Step, Firings, Resets;
    RunSingle(s0, BeginRead);
    RunThen(s0, [BeginRead], Tick(wait));
    RunThen(s0, [BeginRead, Tick(wait)], ReadTimerfd);
    var front, rest := [BeginRead, Tick(wait), ReadTimerfd], [BeginReset] + Resets(n, delay) + [Finish];
    assert [BeginRead] + [Tick(wait)] == [BeginRead, Tick(wait)];
    assert [BeginRead, Tick(wait)] + [ReadTimerfd] == front;
    RunAppend(s0, front, Firings(n, callback));
    RunAppend(s0, front + Firings(n, callback), rest);
    assert front + Firings(n, callback) + rest == Handler(n, wait, callback, delay);
  }

  /** No callback changes where the handler is, or fires a timer. */
  lemma PhaseStays(s: State, l: Label)
    requires l.Tick? || l.AddFromLoop? || l.Cancel?
    ensures Step(s, l).phase == s.phase && Step(s, l).fires == s.fires
  {
  }

  /** The set is in order and has no timer at an address nobody uses. */
  lemma PlaceFor(s: State, addr: nat)
    requires Inv(s) && AddressFree(s, addr)
    ensures Sorted(s.q.timers) && NoSuchAddr(s.q.timers, addr)
  {
    hide HeapInv, OwnInv, ArmInv, FireInv, PhaseInv, Sorted;
  }

  /** A timer about to be reset is in the batch, not in the set. */
  lemma RoomInSet(s: State, p: Ptr)
    requires Inv(s) && ToReset(s, p)
    ensures Sorted(s.q.timers) && NoSuchAddr(s.q.timers, p.addr)
  {
    hide HeapInv, OwnInv, ArmInv, FireInv, Sorted, NoSuchAddr;
    NextToReset(s);
  }

  /** An add that has no address, or a cancel without a live handle, is no step at all. */
  lemma NoStep(s: State, l: Label)
    requires l.AddFromLoop? ==> !AddressFree(s, l.addr)
    requires l.Cancel? ==> l.ptr !in s.q.heap
    requires l.AddFromLoop? || l.Cancel?
    ensures Step(s, l) == s
  {
  }

  /** The relative time the timerfd is set to, in whole seconds and nanoseconds. */
  method HowMuchTimeFromNow(when: int, now: int) returns (sec: int, nsec: int)
    ensures sec * 1_000_000_000 + nsec == Max(when - now, MIN_DELAY) * 1000
    ensures 0 <= nsec < 1_000_000_000 && 0 <= sec
  {
    var microseconds := when - now;
    if microseconds < 100 {
      microseconds := 100;
    }
    sec := microseconds / 1_000_000;
    nsec := microseconds % 1_000_000 * 1000;
  }

  class TimerQueue {
    var timers: seq<Entry>
    var heap: map<Ptr, Timer>
    var timerfd: Fd
    var sequence: nat           // of the last timer made
    var queued: seq<Ptr>        // adds by other threads that the loop has not run
    var clock: int              // what a reading of the system clock returns now
    ghost var machine: State    // everything that has happened so far

    ghost function Value(): Queue
      reads `timers, `heap, `timerfd
    {
      Queue(timers, heap, timerfd)
    }

    ghost predicate Valid()
      reads this
    {
      machine.q == Value() && machine.nextId == sequence + 1 && machine.queued == queued && machine.clock == clock
      && Inv(machine)
    }

    constructor (start: int)
      requires start > 0
      ensures Valid() && machine == Init(start)
    {
      timers, heap, timerfd, sequence, queued, clock := [], map[], Unarmed, 0, [], start;
      machine := Init(start);
      new;
      InitInv(start);
    }

    // ---- The set and the timerfd ----

    method ResetTimerfd(when: int)
      modifies `timerfd
      ensures timerfd == Arm(when, clock) == Armed(Max(when, clock + 100), clock)
    {
      var sec, nsec := HowMuchTimeFromNow(when, clock);
      timerfd := Armed(clock + sec * 1_000_000 + nsec / 1000, clock);
    }

    /** One entry more, in its place; the result says whether it came first, before any other. */
    method Insert(p: Ptr) returns (earliestChanged: bool)
      requires p in heap
      modifies `timers
      ensures Value() == Timers.Insert(old(Value()), p)
      ensures earliestChanged <==> old(timers) == [] || heap[p].stamp < old(timers)[0].stamp
      ensures old(Sorted(timers) && NoSuchAddr(timers, p.addr)) ==>
                && Sorted(timers) && Owned(timers) == old(Owned(timers)) + multiset{p}
                && (forall e :: e in timers <==> e in old(timers) || e == Entry(heap[p].stamp, p))
                && (earliestChanged ==> timers[0] == Entry(heap[p].stamp, p))
                && (!earliestChanged ==> old(timers) != [] && timers[0].stamp == old(timers)[0].stamp)
    {
      var when := heap[p].stamp;
      earliestChanged := timers == [] || when < timers[0].stamp;
      if Sorted(timers) && NoSuchAddr(timers, p.addr) {
        InsertLemma(timers, Entry(when, p));
      }
      timers := InsertEntry(timers, Entry(when, p));
    }

    method AddTimerInLoop(p: Ptr)
      requires p in heap
      modifies `timers, `timerfd
      ensures old(Sorted(timers) && NoSuchAddr(timers, p.addr)) ==>
                Sorted(timers) && forall e :: e in timers <==> e in old(timers) || e == Entry(heap[p].stamp, p)
      ensures Value() == Timers.AddTimerInLoop(old(Value()), p, clock)
      ensures timerfd == if old(timers) == [] || heap[p].stamp < old(timers)[0].stamp then
                           Armed(Max(heap[p].stamp, clock + 100), clock)
                         else old(timerfd)
    {
      var earliestChanged := Insert(p);
      if earliestChanged {
        ResetTimerfd(heap[p].stamp);
      }
    }

    method CancelInLoop(p: Ptr)
      requires p in heap
      modifies `timers, `heap
      ensures Value() == Timers.CancelInLoop(old(Value()), p)
    {
      var found := Find(Entry(heap[p].stamp, p));
      if found < |timers| {
        timers := RemoveEntry(timers, Entry(heap[p].stamp, p));
        heap := heap - {p};
      }
    }

    method Find(e: Entry) returns (i: nat)
      ensures i <= |timers|
      ensures i < |timers| ==> Equivalent(e, timers[i])
      ensures i == |timers| ==> forall j :: 0 <= j < |timers| ==> !Equivalent(e, timers[j])
    {
      i := 0;
      while i < |timers| && !Equivalent(e, timers[i])
        invariant i <= |timers| && forall j :: 0 <= j < i ==> !Equivalent(e, timers[j])
      {
        i := i + 1;
      }
    }

    /** Cuts the set in two: what is due at `now`, in stamp order, and what is not. */
    method GetExpired(now: int) returns (expired: seq<Entry>)
      modifies `timers
      ensures expired == Expired(old(Value()), now) && Value() == DropExpired(old(Value()), now)
      ensures expired + timers == old(timers)
      ensures old(Sorted(timers)) && (forall e :: e in old(timers) ==> e.ptr.addr < MAX_ADDR) ==>
                && Sorted(expired) && (forall e :: e in expired ==> e.stamp <= now)
                && Sorted(timers) && (forall e :: e in timers ==> e.stamp > now)
    {
      hide LowerBound, Sorted;
      var end := LowerBound(timers, Sentry(now));
      if Sorted(timers) && forall e :: e in timers ==> e.ptr.addr < MAX_ADDR {
        ExpiryCuts(timers, now);
      }
      expired := timers[..end];
      timers := timers[end..];
    }

    method ReadTimerfd()
      modifies `timerfd
      ensures timerfd == if old(timerfd).Armed? && old(timerfd).deadline <= clock then Unarmed else old(timerfd)
    {
      if timerfd.Armed? && timerfd.deadline <= clock {
        timerfd := Unarmed;
      }
    }

    /** The timerfd read, and then the set cut in two. */
    method ReadAndCut(now: int) returns (expired: seq<Entry>)
      modifies `timers, `timerfd
      ensures expired == Expired(old(Value()), now)
      ensures Value() == DropExpired(old(Value()), now).(fd := if old(timerfd).Armed? && old(timerfd).deadline <= clock
                                                               then Unarmed else old(timerfd))
    {
      hide Expired, DropExpired;
      ghost var q := Value();
      ReadTimerfd();
      ExpiryIgnoresFd(q, timerfd, now);
      expired := GetExpired(now);
    }

    // ---- Steps of the loop thread ----

    /** Time passes. */
    method Elapse(d: nat)
      requires Valid()
      modifies `machine, `clock
      ensures Valid() && machine == Step(old(machine), Tick(d)) && clock == old(clock) + d
    {
      StepKeepsInv(machine, Tick(d));
      machine := Step(machine, Tick(d));
      clock := clock + d;
    }

    method NewTimer(addr: nat, when: int, interval: nat) returns (p: Ptr)
      requires Valid() && AddressFree(machine, addr)
      modifies `heap, `sequence
      ensures p == Ptr(addr, sequence) && sequence == old(sequence) + 1
      ensures Create(machine, addr, when, interval).q == Value()
      ensures p !in old(heap) && heap == old(heap)[p := Timer(when, interval)]
    {
      sequence := sequence + 1;
      p := Ptr(addr, sequence);
      heap := heap[p := Timer(when, interval)];
    }

    /** `addTimer` on the loop thread. */
    method AddTimer(addr: nat, when: int, interval: nat) returns (p: Ptr)
      requires Valid() && UserCode(machine) && AddressFree(machine, addr)
      modifies this
      ensures Valid() && machine == Step(old(machine), AddFromLoop(addr, when, interval))
      ensures p == Ptr(addr, sequence) && p !in old(heap) && heap == old(heap)[p := Timer(when, interval)]
      ensures forall e :: e in timers <==> e in old(timers) || e == Entry(when, p)
      ensures timerfd == if old(timers) == [] || when < old(timers)[0].stamp then Armed(Max(when, clock + 100), clock)
                         else old(timerfd)
    {
      hide Inv, Timers.AddTimerInLoop, Step, UserCode;
      PlaceFor(machine, addr);
      StepKeepsInv(machine, AddFromLoop(addr, when, interval));
      StepOfAdd(machine, addr, when, interval);
      p := NewTimer(addr, when, interval);
      AddTimerInLoop(p);
      machine := Step(machine, AddFromLoop(addr, when, interval));
    }

    /** `addTimer` on another thread: the timer is made there, its add is left for the loop. */
    method AddTimerFromThread(addr: nat, when: int, interval: nat) returns (p: Ptr)
      requires Valid() && !machine.phase.Destroyed? && AddressFree(machine, addr)
      modifies this
      ensures Valid() && machine == Step(old(machine), AddFromThread(addr, when, interval))
      ensures p == Ptr(addr, sequence) && p !in old(heap) && heap == old(heap)[p := Timer(when, interval)]
      ensures queued == old(queued) + [p] && timers == old(timers) && timerfd == old(timerfd)
    {
      hide Inv;
      StepKeepsInv(machine, AddFromThread(addr, when, interval));
      p := NewTimer(addr, when, interval);
      queued := queued + [p];
      machine := Step(machine, AddFromThread(addr, when, interval));
    }

    method RunQueuedAdd()
      requires Valid() && machine.phase.Outside? && queued != []
      modifies this
      ensures Valid() && machine == Step(old(machine), Label.RunQueuedAdd) && queued == old(queued)[1..]
    {
      hide Inv, Timers.AddTimerInLoop, Step;
      QueuedLives(machine);
      StepKeepsInv(machine, Label.RunQueuedAdd);
      StepOfQueuedAdd(machine);
      AddTimerInLoop(queued[0]);
      queued := queued[1..];
      machine := Step(machine, Label.RunQueuedAdd);
    }

    /** `cancelTimer` on the loop thread, with a handle whose timer still exists. */
    method CancelTimer(p: Ptr)
      requires Valid() && UserCode(machine) && p in heap
      modifies this
      ensures Valid() && machine == Step(old(machine), Cancel(p))
    {
      hide Inv, Timers.CancelInLoop, Step, UserCode;
      StepKeepsInv(machine, Cancel(p));
      StepOfCancel(machine, p);
      CancelInLoop(p);
      machine := Step(machine, Cancel(p));
    }

    /** What one callback does. */
    method RunCallback(ls: seq<Label>)
      requires Valid() && CallbackCode(ls) && machine.phase.Firing? && machine.phase.fired > 0
      modifies this
      ensures Valid() && machine == Run(old(machine), ls) && machine.phase == old(machine.phase)
      ensures machine.fires == old(machine).fires
    {
      hide Inv, Step;
      var k := 0;
      while k < |ls|
        invariant k <= |ls| && Valid() && machine == Run(old(machine), ls[..k]) && machine.phase == old(machine.phase)
        invariant machine.fires == old(machine).fires
        decreases |ls| - k
      {
        assert ls[..k + 1] == ls[..k] + [ls[k]];
        RunThen(old(machine), ls[..k], ls[k]);
        PhaseStays(machine, ls[k]);
        match ls[k] {
        case Tick(d) => Elapse(d);
        case AddFromLoop(addr, when, interval) =>
          if 0 < addr < MAX_ADDR && forall r :: r in heap ==> r.addr != addr {
            var p := AddTimer(addr, when, interval);
          } else {
            NoStep(machine, ls[k]);
          }
        case Cancel(p) =>
          if p in heap {
            CancelTimer(p);
          } else {
            NoStep(machine, ls[k]);
          }
        case _ =>
        }
        k := k + 1;
      }
      assert ls[..k] == ls;
    }

    method TakeExpired(now: int) returns (expired: seq<Entry>)
      requires Valid() && machine.phase == Reading(now)
      modifies this
      ensures Valid() && machine == Step(old(machine), Label.ReadTimerfd)
      ensures machine.phase == Firing(expired, 0) && expired == Expired(old(machine.q), now)
      ensures machine.fires == old(machine).fires
    {
      hide Inv, Step, Expired, DropExpired;
      StepKeepsInv(machine, Label.ReadTimerfd);
      StepOfRead(machine);
      expired := ReadAndCut(now);
      machine := Step(machine, Label.ReadTimerfd);
    }

    /** `timeout`: the entry's timer still exists when its callback starts. */
    method Timeout(e: Entry)
      requires Valid() && machine.phase.Firing? && machine.phase.fired < |machine.phase.batch|
      requires e == machine.phase.batch[machine.phase.fired]
      modifies `machine
      ensures Valid() && machine == Step(old(machine), FireNext)
      ensures machine.phase == Firing(old(machine).phase.batch, old(machine).phase.fired + 1)
      ensures e.ptr in heap && machine.fires == old(machine).fires + [Fire(e.ptr, e.stamp, heap[e.ptr].interval, clock)]
    {
      hide Inv, Step;
      BatchLives(machine, e);
      StepKeepsInv(machine, FireNext);
      StepOfFire(machine);
      var timer := heap[e.ptr];
      machine := Step(machine, FireNext);
    }

    method FireAll(expired: seq<Entry>, callback: nat -> seq<Label>)
      requires Valid() && machine.phase == Firing(expired, 0) && forall k: nat :: CallbackCode(callback(k))
      modifies this
      ensures Valid() && machine.phase == Firing(expired, |expired|)
      ensures machine == Run(old(machine), Firings(|expired|, callback))
      ensures FiredInOrder(old(machine).fires, machine.fires, expired, |expired|)
    {
      hide Inv, Step, CallbackCode;
      var k := 0;
      while k < |expired|
        invariant k <= |expired| && Valid() && machine.phase == Firing(expired, k)
        invariant machine == Run(old(machine), Firings(k, callback))
        invariant FiredInOrder(old(machine).fires, machine.fires, expired, k)
        decreases |expired| - k
      {
        RunThen(old(machine), Firings(k, callback), FireNext);
        RunAppend(old(machine), Firings(k, callback) + [FireNext], callback(k));
        Timeout(expired[k]);
        RunCallback(callback(k));
        k := k + 1;
      }
    }

    /** The next expired timer is restarted if it repeats and deleted if it does not. */
    method RestartOrDelete(p: Ptr)
      requires Valid() && ToReset(machine, p)
      modifies this
      ensures Valid() && machine == Step(old(machine), ResetNext)
      ensures machine.phase == Resetting(old(machine).phase.batch, old(machine).phase.reset + 1)
      ensures if old(heap[p].interval) > 0 then
                && heap == old(heap)[p := Timer(clock + old(heap[p].interval), old(heap[p].interval))]
                && (forall e :: e in timers <==> e in old(timers) || e == Entry(clock + old(heap[p].interval), p))
              else heap == old(heap) - {p} && timers == old(timers)
      ensures machine.fires == old(machine).fires && timerfd == old(timerfd)
    {
      hide Inv, Step, ToReset;
      RoomInSet(machine, p);
      StepKeepsInv(machine, ResetNext);
      StepOfReset(machine, p);
      if heap[p].IsRepeat() {
        heap := heap[p := heap[p].(stamp := clock + heap[p].interval)];
        var earliestChanged := Insert(p);
      } else {
        heap := heap - {p};
      }
      machine := Step(machine, ResetNext);
    }

    method RearmTimerfd()
      requires Valid() && machine.phase.Resetting? && machine.phase.reset == |machine.phase.batch|
      modifies this
      ensures Valid() && machine == Step(old(machine), Finish) && machine.phase.Outside?
      ensures timers == old(timers) && heap == old(heap) && machine.fires == old(machine).fires
      ensures timerfd == if timers != [] && timers[0].stamp > 0 then Armed(Max(timers[0].stamp, clock + 100), clock)
                         else old(timerfd)
    {
      hide Inv, Step;
      StepKeepsInv(machine, Finish);
      StepOfFinish(machine);
      FirstLives(machine);
      var nextExpire := 0;
      if timers != [] {
        nextExpire := heap[timers[0].ptr].stamp;
      }
      if nextExpire > 0 {
        ResetTimerfd(nextExpire);
      }
      machine := Step(machine, Finish);
    }

    /** One turn of the loop: the clock goes on, and the next timer is reset. */
    method ResetAfter(p: Ptr, d: nat)
      requires Valid() && machine.phase.Resetting? && machine.phase.reset < |machine.phase.batch|
      requires p == machine.phase.batch[machine.phase.reset].ptr
      modifies this
      ensures Valid() && machine == Step(Step(old(machine), Tick(d)), ResetNext)
      ensures machine.phase == Resetting(old(machine).phase.batch, old(machine).phase.reset + 1)
      ensures machine.fires == old(machine).fires
    {
      hide Inv, Step, ToReset;
      PhaseStays(machine, Tick(d));
      Elapse(d);
      NextInHeap(machine);
      RestartOrDelete(p);
    }

    method Reset(expired: seq<Entry>, delay: nat -> nat)
      requires Valid() && machine.phase == Firing(expired, |expired|)
      modifies this
      ensures Valid() && machine.phase.Outside? && machine.fires == old(machine).fires
      ensures machine == Run(old(machine), [BeginReset] + Resets(|expired|, delay) + [Finish])
    {
      hide Inv, Step, ToReset;
      StepKeepsInv(machine, BeginReset);
      StepOfBeginReset(machine);
      machine := Step(machine, BeginReset);
      RunSingle(old(machine), BeginReset);
      var k := 0;
      while k < |expired|
        invariant k <= |expired| && Valid() && machine.phase == Resetting(expired, k)
        invariant machine == Run(old(machine), [BeginReset] + Resets(k, delay)) && machine.fires == old(machine).fires
        decreases |expired| - k
      {
        OneMoreReset(old(machine), k, delay);
        ResetAfter(expired[k].ptr, delay(k));
        k := k + 1;
      }
      RunThen(old(machine), [BeginReset] + Resets(k, delay), Finish);
      RearmTimerfd();
    }

    method BeginPass()
      requires Valid() && machine.phase.Outside?
      modifies `machine
      ensures Valid() && machine == old(machine).(phase := Reading(clock)) == Step(old(machine), BeginRead)
    {
      hide Inv;
      StepKeepsInv(machine, BeginRead);
      machine := Step(machine, BeginRead);
    }

    /**
     The poller calls this when the timerfd is readable.  One pass is exactly the machine's steps from reading the clock
     to setting the timerfd again; in it every due timer fires once, in stamp order, and only live timers are touched.
     */
    method HandleRead(wait: nat, callback: nat -> seq<Label>, delay: nat -> nat)
      requires Valid() && machine.phase.Outside? && forall k: nat :: CallbackCode(callback(k))
      modifies this
      ensures Valid() && machine.phase.Outside?
      ensures machine == Run(old(machine), Handler(|Expired(old(machine.q), old(clock))|, wait, callback, delay))
      ensures var due := Expired(old(machine.q), old(clock));
              FiredInOrder(old(machine).fires, machine.fires, due, |due|)
    {
      hide Inv, Step, CallbackCode, Expired, FiredInOrder;
      ghost var s0 := machine;
      var now := clock;
      BeginPass();
      ghost var s1 := machine;
      TickKeepsRest(s1, wait);
      Elapse(wait);
      ghost var s2 := machine;
      var expired := TakeExpired(now);
      ghost var s3 := machine;
      FireAll(expired, callback);
      ghost var s4 := machine;
      Reset(expired, delay);
      HandlerRuns(s0, s1, s2, s3, s4, |expired|, wait, callback, delay);
    }

    /** Destruction deletes every timer in the set. */
    method Destruct()
      requires Valid() && machine.phase.Outside?
      modifies this
      ensures Valid() && machine == Step(old(machine), Destroy) && machine.phase.Destroyed?
      ensures timers == [] && heap == old(heap) - set p | p in Ptrs(old(timers))
    {
      hide Inv, Step;
      StepKeepsInv(machine, Destroy);
      StepOfDestroy(machine);
      ghost var start := heap;
      var k := 0;
      while k < |timers|
        invariant k <= |timers|
        modifies `heap
        invariant heap == start - set p | p in Ptrs(timers[..k])
        decreases |timers| - k
      {
        assert timers[..k + 1] == timers[..k] + [timers[k]];
        PtrsConcat(timers[..k], [timers[k]]);
        heap := heap - {timers[k].ptr};
        k := k + 1;
      }
      assert timers[..k] == timers;
      timers := [];
      machine := Step(machine, Destroy);
    }
  }
}
