/** What the timer queue promises of every run: no timer lost, none early, each freed once, a cancelled one silent. */
module TimerPromises {
  import opened Timers
  import opened TimerSet
  import opened TimerRuns

  lemma StepKeepsInv(s: State, l: Label)
    requires Inv(s)
    ensures Inv(Step(s, l))
  {
    hide Inv, Step;
    match l
    case Tick(d) => TickKeeps(s, d);
    case AddFromThread(addr, when, interval) => AddFromThreadKeeps(s, addr, when, interval);
    case AddFromLoop(addr, when, interval) => AddFromLoopKeeps(s, addr, when, interval);
    case RunQueuedAdd => RunQueuedAddKeeps(s);
    case Cancel(p) => CancelKeeps(s, p);
    case BeginRead => BeginReadKeeps(s);
    case ReadTimerfd => ReadTimerfdKeeps(s);
    case FireNext => FireNextKeeps(s);
    case BeginReset => BeginResetKeeps(s);
    case ResetNext => ResetNextKeeps(s);
    case Finish => FinishKeeps(s);
    case Destroy => DestroyKeeps(s);
  }

  lemma {:induction false} RunKeepsInv(s: State, ls: seq<Label>)
    requires Inv(s)
    ensures Inv(Run(s, ls))
    decreases ls
  {
    hide Inv, Step;
    if ls != [] {
      StepKeepsInv(s, ls[0]);
      RunKeepsInv(Step(s, ls[0]), ls[1..]);
    }
  }

  lemma InitInv(clock: int)
    requires clock > 0
    ensures Inv(Init(clock))
  {
    NobodyHolds();
    assert multiset(Init(clock).q.heap.Keys) == multiset{};
  }

  lemma Reachable(clock: int, ls: seq<Label>) returns (s: State)
    requires clock > 0
    ensures s == Run(Init(clock), ls) && Inv(s)
  {
    hide Inv, Step;
    InitInv(clock);
    RunKeepsInv(Init(clock), ls);
    s := Run(Init(clock), ls);
  }

  // ---- No timer is lost ----

  /** Outside the handler a non-empty set has a running timerfd, and it rings in time for the earliest timer. */
  lemma NoLostTimer(clock: int, ls: seq<Label>)
    requires clock > 0
    ensures var s := Run(Init(clock), ls);
            !InHandler(s.phase) && s.q.timers != [] ==>
              s.q.fd.Armed? && s.q.fd.at <= s.clock
              && s.q.fd.deadline <= Max(s.q.timers[0].stamp, s.q.fd.at + MIN_DELAY)
  {
    hide SetInv, HeapInv, OwnInv, FireInv, PhaseInv;
    var s := Reachable(clock, ls);
  }

  /** Hence the earliest timer gets its turn: by that time the timerfd is readable, and the handler fires it first. */
  lemma EarliestGetsItsTurn(clock: int, ls: seq<Label>, d: nat)
    requires clock > 0 && Run(Init(clock), ls).phase.Outside? && Run(Init(clock), ls).q.timers != []
    requires var s := Run(Init(clock), ls);
             s.clock + d >= Max(s.q.timers[0].stamp, if s.q.fd.Armed? then s.q.fd.at + MIN_DELAY else 0)
    ensures var s := Run(Init(clock), ls); var e := s.q.timers[0];
            var s' := Step(Step(Step(Step(s, Tick(d)), BeginRead), ReadTimerfd), FireNext);
            && s.q.fd.Armed? && s.q.fd.deadline <= s.clock + d
            && s'.q.fd == Unarmed && |s'.fires| == |s.fires| + 1
            && s'.fires[|s.fires|].ptr == e.ptr && s'.fires[|s.fires|].stamp == e.stamp
  {
    var s := Run(Init(clock), ls);
    var s2 := Step(Step(s, Tick(d)), BeginRead);
    var s3 := Step(s2, ReadTimerfd);
    TurnComes(clock, ls, d);
    hide SetInv, HeapInv, OwnInv, FireInv, PhaseInv, LowerBound;
    assert s3.phase == Firing(Expired(s2.q, s2.phase.now), 0);
  }

  lemma TurnComes(clock: int, ls: seq<Label>, d: nat)
    requires clock > 0 && Run(Init(clock), ls).phase.Outside? && Run(Init(clock), ls).q.timers != []
    requires var s := Run(Init(clock), ls);
             s.clock + d >= Max(s.q.timers[0].stamp, if s.q.fd.Armed? then s.q.fd.at + MIN_DELAY else 0)
    ensures var s := Run(Init(clock), ls); var e := s.q.timers[0];
            && s.q.fd.Armed? && s.q.fd.deadline <= s.clock + d
            && Expired(s.q, s.clock + d) != [] && Expired(s.q, s.clock + d)[0] == e && e.ptr in s.q.heap
  {
    hide OwnInv, FireInv, PhaseInv;
    var s := Reachable(clock, ls);
    ExpiryExact(s.q.timers, s.clock + d);
    assert s.q.timers[0] in s.q.timers;
    assert s.q.timers[0..] == s.q.timers;
    hide LowerBound;
  }

  /** The batch is exactly what is due, in stamp order; nothing due is left behind and nothing else is taken. */
  lemma BatchExact(clock: int, ls: seq<Label>)
    requires clock > 0 && Run(Init(clock), ls).phase.Reading?
    ensures var s := Run(Init(clock), ls); var s' := Step(s, ReadTimerfd);
            && s'.phase == Firing(s'.phase.batch, 0) && s'.phase.batch + s'.q.timers == s.q.timers
            && (forall e :: e in s'.phase.batch ==> e.stamp <= s.phase.now)
            && (forall e :: e in s'.q.timers ==> e.stamp > s.phase.now)
            && (forall i, j :: 0 <= i < j < |s'.phase.batch| ==> s'.phase.batch[i].stamp <= s'.phase.batch[j].stamp)
  {
    hide OwnInv, FireInv, PhaseInv, ArmInv, LowerBound;
    var s := Reachable(clock, ls);
    ExpiryExact(s.q.timers, s.phase.now);
  }

  // ---- Never early, never twice, never too often ----

  /** A callback runs at or after the stamp its timer has at that moment. */
  lemma NeverEarly(clock: int, ls: seq<Label>, f: Fire)
    requires clock > 0
    ensures var s := Run(Init(clock), ls); var s' := Step(s, FireNext);
            s'.fires == s.fires + [f] ==>
              f.ptr in s.q.heap && f.stamp == s.q.heap[f.ptr].stamp <= f.at == s.clock
              && f.interval == s.q.heap[f.ptr].interval
  {
    hide OwnInv, FireInv, SetInv, ArmInv, HeapInv;
    var s := Reachable(clock, ls);
    var s' := Step(s, FireNext);
    if s'.fires == s.fires + [f] {
      assert s'.fires[|s.fires|] == f;
      var e := s.phase.batch[s.phase.fired];
      assert e in Batch(s.phase);
    }
  }

  /** A one-shot fires at most once; two firings of a repeating timer are at least its interval apart. */
  lemma FiringsSpaced(clock: int, ls: seq<Label>, i: nat, j: nat)
    requires clock > 0 && i < j < |Run(Init(clock), ls).fires|
    requires Run(Init(clock), ls).fires[i].ptr == Run(Init(clock), ls).fires[j].ptr
    ensures var f, g := Run(Init(clock), ls).fires[i], Run(Init(clock), ls).fires[j];
            f.interval == g.interval > 0 && g.at >= f.at + f.interval
  {
    hide OwnInv, SetInv, ArmInv, HeapInv, PhaseInv, FiredBefore;
    var s := Reachable(clock, ls);
    assert Spaced(s.fires[i], s.fires[j]);
  }

  // ---- Ownership ----

  /**
   Every timer made is either live or has been freed, and freed at most once.  It is live exactly while one of the set,
   the batch and the loop's queue holds it, and never do two of them, or one of them twice.
   */
  lemma FreedOnce(clock: int, ls: seq<Label>, p: Ptr)
    requires clock > 0 && p in Run(Init(clock), ls).created
    ensures var s := Run(Init(clock), ls);
            && multiset(s.freed)[p] + Owned(s.q.timers)[p] + Owned(Batch(s.phase))[p] + multiset(s.queued)[p] == 1
            && (p in s.q.heap <==> p !in s.freed)
  {
    hide SetInv, HeapInv, ArmInv, FireInv, PhaseInv, Owned;
    var s := Reachable(clock, ls);
    assert Holders(s)[p] == multiset(s.q.heap.Keys)[p];
    assert (multiset(s.freed) + multiset(s.q.heap.Keys))[p] == multiset(s.created)[p] == 1;
  }

  /** The set's keys never go stale: the stamp in the key is the stamp of the timer. */
  lemma KeysCurrent(clock: int, ls: seq<Label>, e: Entry)
    requires clock > 0 && e in Run(Init(clock), ls).q.timers
    ensures var s := Run(Init(clock), ls); e.ptr in s.q.heap && s.q.heap[e.ptr].stamp == e.stamp
  {
    hide OwnInv, HeapInv, ArmInv, FireInv, PhaseInv, Sorted;
    var s := Reachable(clock, ls);
  }

  /** The destructor frees every timer ever made, except those whose add the loop has not run: these leak. */
  lemma DestructionFrees(clock: int, ls: seq<Label>)
    requires clock > 0 && Run(Init(clock), ls).phase.Outside?
    ensures var s := Run(Init(clock), ls); var s' := Step(s, Destroy);
            && multiset(s'.freed) + multiset(s.queued) == multiset(s.created)
            && (multiset(s'.freed) == multiset(s.created) <==> s.queued == [])
  {
    hide SetInv, HeapInv, ArmInv, FireInv, PhaseInv, Holders;
    var s := Reachable(clock, ls);
    var s' := Step(s, Destroy);
    assert s' == AfterDestroy(s);
    QueuedSurvive(s);
    DestroyedBooks(s);
    assert multiset(s'.freed) + multiset(s.queued) == multiset(s.created);
    if s.queued != [] {
      assert s.queued[0] in multiset(s.queued);
      assert (multiset(s'.freed) + multiset(s.queued))[s.queued[0]] > multiset(s'.freed)[s.queued[0]];
    }
  }

  /** Such a leak: a timer added by another thread just before the queue is destroyed. */
  lemma QueuedTimerLeaks()
    ensures var s := Run(Init(1), [AddFromThread(4096, 5, 0), Destroy]);
            s.phase.Destroyed? && s.created == {Ptr(4096, 1)} && s.freed == []
  {
    var s1 := Step(Init(1), AddFromThread(4096, 5, 0));
    var s2 := Step(s1, Destroy);
    assert Ptrs([]) == [];
    RunAppend(Init(1), [AddFromThread(4096, 5, 0)], [Destroy]);
    assert [AddFromThread(4096, 5, 0)] + [Destroy] == [AddFromThread(4096, 5, 0), Destroy];
    RunSingle(Init(1), AddFromThread(4096, 5, 0));
    RunSingle(s1, Destroy);
  }

  lemma RunSingle(s: State, l: Label)
    ensures Run(s, [l]) == Step(s, l)
  {
    hide Step;
    assert [l][1..] == [];
    assert Run(Step(s, l), []) == Step(s, l);
  }

  // ---- Cancelling ----

  /** One step fires at most one timer, a live one, and forgets no deletion. */
  lemma StepRecords(s: State, l: Label)
    ensures var s' := Step(s, l);
            && s.freed <= s'.freed && s.fires <= s'.fires && |s'.fires| <= |s.fires| + 1
            && (|s'.fires| > |s.fires| ==> s'.fires[|s.fires|].ptr in s.q.heap)
  {
    hide AddTimerInLoop, CancelInLoop, ResetOne, InSet;
  }

  lemma FreedIsGone(s: State, p: Ptr)
    requires OwnInv(s) && p in s.freed
    ensures p !in s.q.heap
  {
    var made := multiset(s.freed) + multiset(s.q.heap.Keys);
    assert made == multiset(s.created);
    assert made[p] == multiset(s.freed)[p] + multiset(s.q.heap.Keys)[p];
    assert multiset(s.created)[p] <= 1;
  }

  /** A freed timer never fires. */
  lemma {:induction false} FreedNeverFires(s: State, ls: seq<Label>, p: Ptr)
    requires Inv(s) && p in s.freed
    ensures var s' := Run(s, ls);
            s.fires <= s'.fires && forall f :: f in s'.fires[|s.fires|..] ==> f.ptr != p
    decreases ls
  {
    if ls != [] {
      var s1, s' := Step(s, ls[0]), Run(s, ls);
      Forgets(s, ls[0], p);
      FreedNeverFires(s1, ls[1..], p);
      LaterFires(s.fires, s1.fires, s'.fires, p);
    }
  }

  lemma Forgets(s: State, l: Label, p: Ptr)
    requires Inv(s) && p in s.freed
    ensures var s1 := Step(s, l);
            Inv(s1) && p in s1.freed && s.fires <= s1.fires && forall f :: f in s1.fires[|s.fires|..] ==> f.ptr != p
  {
    hide Step, SetInv, HeapInv, ArmInv, FireInv, PhaseInv, OwnInv;
    StepKeepsInv(s, l);
    StepRecords(s, l);
    FreedIsGone(s, p);
  }

  lemma LaterFires(a: seq<Fire>, b: seq<Fire>, c: seq<Fire>, p: Ptr)
    requires a <= b <= c
    requires forall f :: f in b[|a|..] ==> f.ptr != p
    requires forall f :: f in c[|b|..] ==> f.ptr != p
    ensures a <= c && forall f :: f in c[|a|..] ==> f.ptr != p
  {
    assert c[|a|..] == b[|a|..] + c[|b|..];
  }

  /**
   Cancelling acts exactly on timers in the set: such a timer is freed and never fires again, whatever happens next.
   A timer in the current batch, or whose add is still queued, is not found, and nothing changes at all.
   */
  lemma CancelEffect(clock: int, ls: seq<Label>, p: Ptr, next: seq<Label>)
    requires clock > 0 && UserCode(Run(Init(clock), ls)) && p in Run(Init(clock), ls).q.heap
    ensures var s := Run(Init(clock), ls); var s1 := Step(s, Cancel(p));
            && (s1 == s <==> p !in Owned(s.q.timers))
            && (p in Owned(s.q.timers) ==>
                  && Owned(s.q.timers) == Owned(s1.q.timers) + multiset{p} && s1.freed == s.freed + [p]
                  && s1.fires == s.fires <= Run(s1, next).fires
                  && (forall f :: f in Run(s1, next).fires[|s.fires|..] ==> f.ptr != p))
  {
    hide SetInv, HeapInv, ArmInv, FireInv, PhaseInv, OwnInv, Owned, InSet, CancelInLoop;
    var s := Reachable(clock, ls);
    Lookup(s.q, p);
    if InSet(s.q, p) {
      RemoveKeeps(s.q, p, s.phase, s.clock);
      StepKeepsInv(s, Cancel(p));
      FreedNeverFires(Step(s, Cancel(p)), next, p);
    } else {
      CancelNothing(s, p);
    }
  }

  /** A repeating timer, every microsecond, inside its first callback, at time 1. */
  function InOwnCallback(): State {
    var p := Ptr(4096, 1);
    State(Queue([], map[p := Timer(1, 1)], Armed(101, 1)), Firing([Entry(1, p)], 1), 1, [], {p}, 2, [],
          [Fire(p, 1, 1, 1)])
  }

  lemma FirstCallback()
    ensures Run(Init(1), [AddFromLoop(4096, 1, 1), BeginRead, ReadTimerfd, FireNext]) == InOwnCallback()
  {
    var p := Ptr(4096, 1);
    var e := Entry(1, p);
    var s1 := State(Queue([e], map[p := Timer(1, 1)], Armed(101, 1)), Outside, 1, [], {p}, 2, [], []);
    var s2 := s1.(phase := Reading(1));
    assert Step(Init(1), AddFromLoop(4096, 1, 1)) == s1;
    assert Step(s2, ReadTimerfd) == s2.(q := Queue([], s1.q.heap, s1.q.fd), phase := Firing([e], 0)) by {
      assert [e][..1] == [e] && [e][1..] == [];
    }
    Unroll4(Init(1), [AddFromLoop(4096, 1, 1), BeginRead, ReadTimerfd, FireNext]);
  }

  lemma Restarts()
    ensures Run(InOwnCallback(), [BeginReset, Tick(1), ResetNext, Finish]).q.timers == [Entry(3, Ptr(4096, 1))]
    ensures Run(InOwnCallback(), [BeginReset, Tick(1), ResetNext, Finish]).fires == InOwnCallback().fires
  {
    Unroll4(InOwnCallback(), [BeginReset, Tick(1), ResetNext, Finish]);
  }

  /** A repeating timer cancelled from inside its own callback is restarted all the same. */
  lemma CancelInCallbackIsLost()
    ensures Run(Init(1), [AddFromLoop(4096, 1, 1), BeginRead, ReadTimerfd, FireNext]) == InOwnCallback()
    ensures UserCode(InOwnCallback())
    ensures var s := Step(InOwnCallback(), Cancel(Ptr(4096, 1)));
            Run(s, [BeginReset, Tick(1), ResetNext, Finish]).q.timers == [Entry(3, Ptr(4096, 1))]
  {
    FirstCallback();
    CancelNothing(InOwnCallback(), Ptr(4096, 1));
    Restarts();
  }

  lemma Unroll4(s: State, ls: seq<Label>)
    requires |ls| == 4
    ensures Run(s, ls) == Step(Step(Step(Step(s, ls[0]), ls[1]), ls[2]), ls[3])
  {
    hide Step;
    var t1 := Step(s, ls[0]);
    var t2 := Step(t1, ls[1]);
    var t3 := Step(t2, ls[2]);
    var t4 := Step(t3, ls[3]);
    assert ls[1..][1..] == ls[2..] && ls[2..][1..] == ls[3..] && ls[3..][1..] == [];
    assert Run(t4, []) == t4;
    assert Run(t3, ls[3..]) == t4;
    assert Run(t2, ls[2..]) == t4;
    assert Run(t1, ls[1..]) == t4;
  }

  lemma {:induction false} RunAppend(s: State, xs: seq<Label>, ys: seq<Label>)
    ensures Run(s, xs + ys) == Run(Run(s, xs), ys)
    decreases xs
  {
    hide Step;
    if xs == [] {
      assert xs + ys == ys;
    } else {
      assert (xs + ys)[1..] == xs[1..] + ys;
      RunAppend(Step(s, xs[0]), xs[1..], ys);
    }
  }
}
