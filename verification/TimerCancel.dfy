/** Exactly when cancelling a timer silences it, and what becomes of the timers it does not silence. */
module TimerCancel {
  import opened Timers
  import opened TimerSet
  import opened TimerRuns
  import opened TimerPromises

  // ---- A repeating timer in the batch comes back ----

  /** A repeating timer that the handler is dealing with: still in the batch, or already restarted. */
  ghost predicate Handled(s: State, p: Ptr) {
    && InHandler(s.phase) && p in s.q.heap && s.q.heap[p].interval > 0
    && (p in Owned(Batch(s.phase)) || (s.phase.Resetting? && p in Owned(s.q.timers)))
  }

  ghost predicate BackInSet(s: State, p: Ptr) {
    s.phase.Outside? && p in s.q.heap && p in Owned(s.q.timers)
  }

  lemma KeepsHandledInCallback(s: State, l: Label, p: Ptr)
    requires Inv(s) && Handled(s, p)
    requires l.Tick? || l.AddFromThread? || l.AddFromLoop? || l.Cancel?
    ensures Handled(Step(s, l), p)
  {
    hide SetInv, HeapInv, ArmInv, FireInv, PhaseInv, Owned, AddTimerInLoop, InSet, CancelInLoop;
    match l
    case Tick(_) =>
    case AddFromThread(addr, when, interval) => NewIsOther(s, p);
    case AddFromLoop(addr, when, interval) =>
      NewIsOther(s, p);
      AddKeepsHeap(s, addr, when, interval);
    case Cancel(r) =>
      if UserCode(s) && r in s.q.heap {
        OneHolder(s, p);
        Lookup(s.q, r);
        CancelTakesOnly(s.q, r);
      }
  }

  lemma NewIsOther(s: State, p: Ptr)
    requires OwnInv(s) && p in s.q.heap
    ensures p.id < s.nextId
  {
    hide Holders;
    CreatedIfLive(s, p);
  }

  lemma AddKeepsHeap(s: State, addr: nat, when: int, interval: nat)
    ensures var s1 := Create(s, addr, when, interval);
            AddTimerInLoop(s1.q, Ptr(addr, s.nextId), s.clock).heap == s1.q.heap
  {
  }

  lemma CancelTakesOnly(q: Queue, r: Ptr)
    requires r in q.heap
    ensures CancelInLoop(q, r).heap == if InSet(q, r) then q.heap - {r} else q.heap
  {
  }

  lemma InBatchOf(p: Ptr, batch: seq<Entry>) returns (k: nat)
    requires p in Owned(batch)
    ensures k < |batch| && batch[k].ptr == p
  {
    k :| 0 <= k < |batch| && Ptrs(batch)[k] == p;
  }

  /** The next entry of the batch is restarted or deleted; every other timer stays where it is. */
  lemma ResetNextHandled(s: State, p: Ptr)
    requires Inv(s) && s.phase.Resetting? && Handled(s, p)
    ensures Handled(Step(s, ResetNext), p)
  {
    hide SetInv, HeapInv, ArmInv, FireInv, PhaseInv, Owned, OwnInv, Insert, NoSuchAddr;
    var batch, n := s.phase.batch, s.phase.reset;
    if n < |batch| && batch[n].ptr in s.q.heap {
      var r := batch[n].ptr;
      NextToReset(s);
      ResetIs(s, r);
      if s.q.heap[r].IsRepeat() {
        RestartedSet(s, r);
        RestartedHeap(s, r, p);
      }
    }
  }

  lemma RestartedHeap(s: State, r: Ptr, p: Ptr)
    requires ToReset(s, r) && p in s.q.heap
    ensures p in Restarted(s, r).q.heap && Restarted(s, r).q.heap[p].interval == s.q.heap[p].interval
  {
  }

  lemma StepKeepsHandled(s: State, l: Label, p: Ptr)
    requires Inv(s) && Handled(s, p)
    ensures Handled(Step(s, l), p) || BackInSet(Step(s, l), p)
  {
    if l.Tick? || l.AddFromThread? || l.AddFromLoop? || l.Cancel? {
      KeepsHandledInCallback(s, l, p);
    } else if l.ResetNext? && s.phase.Resetting? {
      ResetNextHandled(s, p);
    } else {
      hide SetInv, HeapInv, ArmInv, FireInv, OwnInv, Owned, ResetOne, LowerBound;
      NobodyHolds();
      if l.BeginReset? && s.phase.Firing? {
        assert s.phase.batch[0..] == s.phase.batch;
      }
    }
  }

  /** The labels lead from inside the handler to its end, and no further. */
  predicate Finishes(s: State, ls: seq<Label>)
    decreases ls
  {
    && InHandler(s.phase) && ls != []
    && if |ls| == 1 then Step(s, ls[0]).phase.Outside? else Finishes(Step(s, ls[0]), ls[1..])
  }

  lemma {:induction false} HandledComesBack(s: State, ls: seq<Label>, p: Ptr)
    requires Inv(s) && Handled(s, p) && Finishes(s, ls)
    ensures BackInSet(Run(s, ls), p)
    decreases ls
  {
    hide Inv, Step, Owned;
    StepKeepsHandled(s, ls[0], p);
    StepKeepsInv(s, ls[0]);
    if |ls| == 1 {
      assert ls == [ls[0]];
      RunSingle(s, ls[0]);
    } else {
      assert InHandler(Step(s, ls[0]).phase);
      HandledComesBack(Step(s, ls[0]), ls[1..], p);
    }
  }

  /**
   A repeating timer in the batch is in the set again when the handler finishes, whatever is cancelled, added or queued
   until then, by its own callback or by any other.
   */
  lemma RepeatingComesBack(clock: int, past: seq<Label>, rest: seq<Label>, p: Ptr)
    requires clock > 0
    requires var s := Run(Init(clock), past);
             && p in Owned(Batch(s.phase)) && p in s.q.heap && s.q.heap[p].interval > 0 && Finishes(s, rest)
    ensures var s' := Run(Run(Init(clock), past), rest); s'.phase.Outside? && p in Owned(s'.q.timers)
  {
    hide Inv, Step, Owned;
    var s := Reachable(clock, past);
    HandledComesBack(s, rest, p);
  }

  // ---- A one-shot that has fired never fires again ----

  ghost predicate Spent(s: State, p: Ptr) {
    p in s.freed || (p in s.q.heap && s.q.heap[p].interval == 0 && FiredNow(s.phase, p))
  }

  lemma NoNewFire(s: State, l: Label, p: Ptr)
    requires Inv(s) && Spent(s, p)
    ensures s.fires <= Step(s, l).fires && forall f :: f in Step(s, l).fires[|s.fires|..] ==> f.ptr != p
  {
    hide SetInv, HeapInv, ArmInv, FireInv, Holders, AddTimerInLoop, CancelInLoop, ResetOne, InSet, PhaseInv;
    StepRecords(s, l);
    if p in s.freed {
      FreedIsGone(s, p);
    } else if l.FireNext? && s.phase.Firing? {
      BatchIsDistinct(s);
    }
  }

  lemma FiredIsInBatch(ph: Phase, p: Ptr)
    requires FiredNow(ph, p)
    ensures p in Owned(Batch(ph))
  {
    match ph
    case Firing(batch, fired) =>
      var k :| 0 <= k < fired && k < |batch| && batch[k].ptr == p;
      OwnedMember(batch, batch[k]);
    case Resetting(batch, reset) =>
      var k :| reset <= k < |batch| && batch[k].ptr == p;
      assert batch[reset..][k - reset] == batch[k];
      OwnedMember(batch[reset..], batch[k]);
  }

  lemma KeepsSpentInCallback(s: State, l: Label, p: Ptr)
    requires Inv(s) && Spent(s, p) && p !in s.freed
    requires l.Tick? || l.AddFromThread? || l.AddFromLoop? || l.Cancel?
    ensures Spent(Step(s, l), p)
  {
    hide SetInv, HeapInv, ArmInv, FireInv, PhaseInv, Owned, AddTimerInLoop, InSet, CancelInLoop, FiredNow;
    FiredIsInBatch(s.phase, p);
    match l
    case Tick(_) =>
    case AddFromThread(addr, when, interval) => NewIsOther(s, p);
    case AddFromLoop(addr, when, interval) =>
      NewIsOther(s, p);
      AddKeepsHeap(s, addr, when, interval);
    case Cancel(r) =>
      if UserCode(s) && r in s.q.heap {
        OneHolder(s, p);
        Lookup(s.q, r);
        CancelTakesOnly(s.q, r);
      }
  }

  lemma KeepsSpentInReset(s: State, p: Ptr)
    requires Inv(s) && Spent(s, p) && p !in s.freed && s.phase.Resetting?
    ensures Spent(Step(s, ResetNext), p)
  {
    hide SetInv, HeapInv, ArmInv, FireInv, PhaseInv, Owned, OwnInv, Insert, NoSuchAddr, FiredNow;
    var batch, n := s.phase.batch, s.phase.reset;
    if n < |batch| && batch[n].ptr in s.q.heap {
      var r := batch[n].ptr;
      NextToReset(s);
      ResetIs(s, r);
      if r != p {
        StillFired(batch, n, p);
        RestartedHeap(s, r, p);
      }
    }
  }

  lemma StepKeepsSpent(s: State, l: Label, p: Ptr)
    requires Inv(s) && Spent(s, p)
    ensures Spent(Step(s, l), p)
  {
    if p in s.freed {
      hide Inv, Step;
      StepRecords(s, l);
    } else if l.Tick? || l.AddFromThread? || l.AddFromLoop? || l.Cancel? {
      KeepsSpentInCallback(s, l, p);
    } else if l.ResetNext? && s.phase.Resetting? {
      KeepsSpentInReset(s, p);
    } else {
      hide SetInv, HeapInv, ArmInv, FireInv, OwnInv, Owned, ResetOne, LowerBound;
    }
  }

  lemma {:induction false} SpentNeverFires(s: State, ls: seq<Label>, p: Ptr)
    requires Inv(s) && Spent(s, p)
    ensures s.fires <= Run(s, ls).fires && forall f :: f in Run(s, ls).fires[|s.fires|..] ==> f.ptr != p
    decreases ls
  {
    hide Inv, Step, Spent;
    if ls != [] {
      var s1 := Step(s, ls[0]);
      NoNewFire(s, ls[0], p);
      StepKeepsSpent(s, ls[0], p);
      StepKeepsInv(s, ls[0]);
      SpentNeverFires(s1, ls[1..], p);
      LaterFires(s.fires, s1.fires, Run(s, ls).fires, p);
    }
  }

  // ---- Any other timer can still fire ----

  /** The handler is entered only when the timerfd is readable, as the poller sees to. */
  predicate Prompted(s: State, ls: seq<Label>)
    decreases ls
  {
    ls == []
    || ((ls[0].BeginRead? ==> s.q.fd.Armed? && s.q.fd.deadline <= s.clock) && Prompted(Step(s, ls[0]), ls[1..]))
  }

  ghost predicate FiresLater(s: State, ls: seq<Label>, p: Ptr) {
    exists i :: |s.fires| <= i < |Run(s, ls).fires| && Run(s, ls).fires[i].ptr == p
  }

  lemma {:induction false} RunKeepsFires(s: State, ls: seq<Label>)
    ensures s.fires <= Run(s, ls).fires
    decreases ls
  {
    hide Step;
    if ls != [] {
      StepRecords(s, ls[0]);
      RunKeepsFires(Step(s, ls[0]), ls[1..]);
    }
  }

  lemma {:induction false} PromptedAppend(s: State, xs: seq<Label>, ys: seq<Label>)
    requires Prompted(s, xs) && Prompted(Run(s, xs), ys)
    ensures Prompted(s, xs + ys)
    decreases xs
  {
    hide Step;
    if xs == [] {
      assert xs + ys == ys;
    } else {
      assert (xs + ys)[1..] == xs[1..] + ys;
      PromptedAppend(Step(s, xs[0]), xs[1..], ys);
    }
  }

  lemma FiresAfter(s: State, xs: seq<Label>, ys: seq<Label>, p: Ptr)
    requires Prompted(s, xs) && Prompted(Run(s, xs), ys) && FiresLater(Run(s, xs), ys, p)
    ensures Prompted(s, xs + ys) && FiresLater(s, xs + ys, p)
  {
    hide Run, Prompted;
    RunAppend(s, xs, ys);
    RunKeepsFires(s, xs);
    PromptedAppend(s, xs, ys);
    var i :| |Run(s, xs).fires| <= i < |Run(Run(s, xs), ys).fires| && Run(Run(s, xs), ys).fires[i].ptr == p;
  }

  lemma OnePrompted(s: State, l: Label)
    requires l.BeginRead? ==> s.q.fd.Armed? && s.q.fd.deadline <= s.clock
    ensures Prompted(s, [l]) && Run(s, [l]) == Step(s, l)
  {
    hide Step;
    RunSingle(s, l);
    assert [l][1..] == [];
  }

  /** The callbacks of a batch run one after the other, up to that of `p`. */
  lemma {:induction false} FireUpTo(s: State, p: Ptr, k: nat) returns (ls: seq<Label>)
    requires Inv(s) && s.phase.Firing? && s.phase.fired <= k < |s.phase.batch| && s.phase.batch[k].ptr == p
    ensures Prompted(s, ls) && FiresLater(s, ls, p)
    decreases if s.phase.Firing? then k - s.phase.fired else 0
  {
    hide Inv, Run, Prompted;
    BatchLives(s, s.phase.batch[s.phase.fired]);
    StepOfFire(s);
    StepKeepsInv(s, FireNext);
    OnePrompted(s, FireNext);
    if s.phase.fired == k {
      ls := [FireNext];
      assert Step(s, FireNext).fires[|s.fires|].ptr == p;
    } else {
      hide Step;
      var more := FireUpTo(Step(s, FireNext), p, k);
      FiresAfter(s, [FireNext], more, p);
      ls := [FireNext] + more;
    }
  }

  lemma InOnePart(es: seq<Entry>, n: nat, j: nat)
    requires n <= |es| && j < |es|
    ensures j < n || es[j] in es[n..]
  {
    assert n <= j ==> es[n..][j - n] == es[j];
  }

  lemma DueInBatch(q: Queue, p: Ptr, now: int) returns (k: nat)
    requires SetInv(q) && HeapInv(q.heap) && p in q.heap && p in Owned(q.timers) && q.heap[p].stamp <= now
    ensures k < |Expired(q, now)| && Expired(q, now)[k].ptr == p
  {
    hide Sorted, LowerBound;
    var n := LowerBound(q.timers, Sentry(now));
    ExpiryExact(q.timers, now) by { SortedOf(q); }
    var j := InBatchOf(p, q.timers);
    assert q.timers[j] in q.timers && q.timers[j].stamp <= now;
    InOnePart(q.timers, n, j);
    k := j;
  }

  lemma SortedOf(q: Queue)
    requires SetInv(q) && HeapInv(q.heap)
    ensures Sorted(q.timers) && forall e :: e in q.timers ==> e.ptr.addr < MAX_ADDR
  {
  }

  lemma WhatInvSays(s: State)
    requires Inv(s)
    ensures SetInv(s.q) && HeapInv(s.q.heap) && OwnInv(s) && s.clock > 0
    ensures s.phase.Outside? && s.q.timers != [] ==> s.q.fd.Armed?
  {
    hide SetInv, HeapInv, OwnInv, FireInv;
  }

  /** A timer in the set fires in the first pass after both its stamp and the timerfd's deadline. */
  lemma FireFromSet(s: State, p: Ptr) returns (ls: seq<Label>)
    requires Inv(s) && s.phase.Outside? && p in s.q.heap && p in Owned(s.q.timers)
    ensures Prompted(s, ls) && FiresLater(s, ls, p)
  {
    hide Inv, Run, Prompted, SetInv, HeapInv, OwnInv, Owned, LowerBound, Expired, DropExpired, FiresLater;
    WhatInvSays(s);
    NobodyHolds();
    var d: nat := Max(0, Max(s.q.heap[p].stamp, if s.q.fd.Armed? then s.q.fd.deadline else 0) - s.clock);
    var s1 := Step(s, Tick(d));
    var s2 := Step(s1, BeginRead);
    var s3 := Step(s2, ReadTimerfd);
    StepKeepsInv(s, Tick(d));
    StepKeepsInv(s1, BeginRead);
    StepKeepsInv(s2, ReadTimerfd);
    StepOfRead(s2);
    var k := DueInBatch(s2.q, p, s2.phase.now);
    var more := FireUpTo(s3, p, k);
    OnePrompted(s, Tick(d));
    OnePrompted(s1, BeginRead);
    OnePrompted(s2, ReadTimerfd);
    FiresAfter(s2, [ReadTimerfd], more, p);
    FiresAfter(s1, [BeginRead], [ReadTimerfd] + more, p);
    FiresAfter(s, [Tick(d)], [BeginRead] + ([ReadTimerfd] + more), p);
    ls := [Tick(d)] + ([BeginRead] + ([ReadTimerfd] + more));
  }

  /** What the handler does next. */
  function NextInHandler(s: State): Label {
    if s.phase.Firing? then (if s.phase.fired < |s.phase.batch| then FireNext else BeginReset)
    else if s.phase.Resetting? && s.phase.reset < |s.phase.batch| then ResetNext
    else Finish
  }

  function HandlerSteps(ph: Phase): nat {
    match ph
    case Firing(batch, fired) => 2 * |batch| + 2 + (if fired <= |batch| then |batch| - fired else 0)
    case Resetting(batch, reset) => 1 + if reset <= |batch| then |batch| - reset else 0
    case _ => 0
  }

  lemma HandlerGoesOn(s: State)
    requires Inv(s) && InHandler(s.phase)
    ensures var s' := Step(s, NextInHandler(s));
            && HandlerSteps(s'.phase) < HandlerSteps(s.phase) && s'.queued == s.queued
            && (InHandler(s'.phase) || s'.phase.Outside?)
    ensures forall r :: r in s.queued ==> r in Step(s, NextInHandler(s)).q.heap
  {
    hide SetInv, HeapInv, ArmInv, FireInv, OwnInv, ResetOne;
    if s.phase.Firing? {
      if s.phase.fired < |s.phase.batch| {
        BatchLives(s, s.phase.batch[s.phase.fired]);
      }
    } else if s.phase.reset < |s.phase.batch| {
      NextInHeap(s);
    }
    StepKeepsInv(s, NextInHandler(s));
    QueuedAllLive(Step(s, NextInHandler(s)));
  }

  lemma QueuedAllLive(s: State)
    requires Inv(s)
    ensures forall r :: r in s.queued ==> r in s.q.heap
  {
    hide SetInv, HeapInv, PhaseInv, ArmInv, FireInv, Holders;
    forall r | r in s.queued ensures r in s.q.heap {
      OneHolder(s, r);
    }
  }

  /** The handler runs to its end; the adds that other threads queued still wait. */
  lemma {:induction false} FinishHandler(s: State, p: Ptr) returns (ls: seq<Label>)
    requires Inv(s) && InHandler(s.phase)
    ensures Prompted(s, ls) && Run(s, ls).phase.Outside? && Run(s, ls).queued == s.queued
    ensures Handled(s, p) ==> BackInSet(Run(s, ls), p)
    decreases HandlerSteps(s.phase)
  {
    hide Inv, Run, Prompted, Step, Owned, BackInSet, Handled;
    var l := NextInHandler(s);
    var s1 := Step(s, l);
    HandlerGoesOn(s);
    StepKeepsInv(s, l);
    OnePrompted(s, l);
    if Handled(s, p) {
      StepKeepsHandled(s, l, p);
    }
    if s1.phase.Outside? {
      NotHandledOutside(s1, p);
      ls := [l];
    } else {
      NotBackInside(s1, p);
      var more := FinishHandler(s1, p);
      RunAppend(s, [l], more);
      PromptedAppend(s, [l], more);
      ls := [l] + more;
    }
  }

  lemma NotHandledOutside(s: State, p: Ptr)
    requires s.phase.Outside?
    ensures !Handled(s, p)
  {
  }

  lemma NotBackInside(s: State, p: Ptr)
    requires InHandler(s.phase)
    ensures !BackInSet(s, p)
  {
  }

  /** The loop runs the queued adds one after the other, up to that of `p`. */
  lemma {:induction false} AddUpTo(s: State, p: Ptr) returns (ls: seq<Label>)
    requires Inv(s) && s.phase.Outside? && p in s.queued
    ensures Prompted(s, ls) && BackInSet(Run(s, ls), p) && Run(s, ls).fires == s.fires
    decreases |s.queued|
  {
    hide Inv, Run, Prompted, Owned, AddTimerInLoop, SetInv, HeapInv, OwnInv;
    QueuedLives(s);
    QueuedAllLive(s);
    WhatInvSays(s);
    StepOfQueuedAdd(s);
    StepKeepsInv(s, RunQueuedAdd);
    OnePrompted(s, RunQueuedAdd);
    OneHolder(s, s.queued[0]);
    NotInSet(s, s.queued[0]);
    AddLemma(s.q, s.queued[0], s.clock);
    if s.queued[0] == p {
      ls := [RunQueuedAdd];
    } else {
      assert s.queued == [s.queued[0]] + s.queued[1..];
      var more := AddUpTo(Step(s, RunQueuedAdd), p);
      RunAppend(s, [RunQueuedAdd], more);
      PromptedAppend(s, [RunQueuedAdd], more);
      ls := [RunQueuedAdd] + more;
    }
  }

  // ---- The exact effect of cancelling ----

  /** Cancelling can silence this timer: the set holds it, or it is a one-shot whose callback has started. */
  ghost predicate CanSilence(s: State, p: Ptr)
    requires p in s.q.heap
  {
    p in Owned(s.q.timers) || (s.q.heap[p].interval == 0 && FiredNow(s.phase, p))
  }

  lemma SetAfterHandler(s: State, p: Ptr) returns (ls: seq<Label>)
    requires Inv(s) && s.phase.Outside? && (BackInSet(s, p) || p in s.queued)
    ensures Prompted(s, ls) && FiresLater(s, ls, p)
  {
    hide Inv, Run, Prompted, Step, Owned, FiresLater;
    if p in s.queued {
      var adds := AddUpTo(s, p);
      RunKeepsInv(s, adds);
      var more := FireFromSet(Run(s, adds), p);
      FiresAfter(s, adds, more, p);
      ls := adds + more;
    } else {
      ls := FireFromSet(s, p);
    }
  }

  lemma InBatchOrQueued(s: State, p: Ptr)
    requires Inv(s) && UserCode(s) && p in s.q.heap && !CanSilence(s, p)
    ensures p in s.queued || (s.phase.Firing? && p in Owned(s.phase.batch))
    ensures p !in s.queued && FiredNow(s.phase, p) ==> Handled(s, p)
  {
    hide SetInv, HeapInv, PhaseInv, ArmInv, FireInv, Holders, FiredNow;
    NobodyHolds();
    OneHolder(s, p);
    if FiredNow(s.phase, p) {
      FiredIsInBatch(s.phase, p);
    }
  }

  /** A timer that cancelling cannot silence fires in some continuation. */
  lemma StillFires(s: State, p: Ptr) returns (ls: seq<Label>)
    requires Inv(s) && UserCode(s) && p in s.q.heap && !CanSilence(s, p)
    ensures Prompted(s, ls) && FiresLater(s, ls, p)
  {
    InBatchOrQueued(s, p);
    if p !in s.queued && !FiredNow(s.phase, p) {
      var k := InBatchOf(p, s.phase.batch);
      hide Inv, Owned;
      ls := FireUpTo(s, p, k);
    } else if s.phase.Outside? {
      hide Inv, Owned;
      ls := SetAfterHandler(s, p);
    } else {
      hide Inv, Owned;
      var rest := FinishHandler(s, p);
      RunKeepsInv(s, rest);
      var more := SetAfterHandler(Run(s, rest), p);
      FiresAfter(s, rest, more, p);
      ls := rest + more;
    }
  }

  lemma SilencedStaysSilent(s: State, p: Ptr, next: seq<Label>)
    requires Inv(s) && UserCode(s) && p in s.q.heap && CanSilence(s, p)
    ensures !FiresLater(Step(s, Cancel(p)), next, p)
  {
    hide SetInv, HeapInv, ArmInv, FireInv, PhaseInv, OwnInv, Owned, InSet, CancelInLoop, Run, FiredNow;
    var s1 := Step(s, Cancel(p));
    StepKeepsInv(s, Cancel(p));
    Lookup(s.q, p);
    if !InSet(s.q, p) {
      CancelNothing(s, p);
    }
    assert Spent(s1, p);
    SpentNeverFires(s1, next, p);
    forall i | |s1.fires| <= i < |Run(s1, next).fires| ensures Run(s1, next).fires[i].ptr != p {
      assert Run(s1, next).fires[i] in Run(s1, next).fires[|s1.fires|..];
    }
  }

  lemma NotSilencedFires(s: State, p: Ptr) returns (next: seq<Label>)
    requires Inv(s) && UserCode(s) && p in s.q.heap && !CanSilence(s, p)
    ensures Prompted(Step(s, Cancel(p)), next) && FiresLater(Step(s, Cancel(p)), next, p)
  {
    hide SetInv, HeapInv, ArmInv, FireInv, PhaseInv, OwnInv, Owned, InSet, CancelInLoop, Run, FiredNow;
    Lookup(s.q, p);
    CancelNothing(s, p);
    next := StillFires(s, p);
  }

  /**
   Cancelling silences a timer, in every continuation, exactly if the set holds it, or it is a one-shot that has fired
   in the batch at hand and would not fire again anyway.  Any other timer fires again in some continuation, in which the
   handler is entered only when the timerfd is readable.
   */
  lemma CancelSilences(clock: int, past: seq<Label>, p: Ptr)
    requires clock > 0 && UserCode(Run(Init(clock), past)) && p in Run(Init(clock), past).q.heap
    ensures var s := Run(Init(clock), past); var s1 := Step(s, Cancel(p));
            (forall next :: Prompted(s1, next) ==> !FiresLater(s1, next, p)) <==> CanSilence(s, p)
  {
    hide Inv, Run, Prompted, Step, Owned, FiresLater, CanSilence, UserCode;
    var s := Reachable(clock, past);
    var s1 := Step(s, Cancel(p));
    if CanSilence(s, p) {
      forall next | Prompted(s1, next) ensures !FiresLater(s1, next, p) {
        SilencedStaysSilent(s, p, next);
      }
    } else {
      var next := NotSilencedFires(s, p);
      assert Prompted(s1, next) && FiresLater(s1, next, p);
    }
  }
}
