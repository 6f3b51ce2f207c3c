/** What an add asks for is what happens: the time and the interval given stay with the timer made, over every run. */
module TimerRequests {
  import opened Timers
  import opened TimerRuns
  import opened TimerPromises

  /** An add that makes a timer, on the loop thread or on another. */
  predicate Adds(s: State, l: Label) {
    && (l.AddFromLoop? || l.AddFromThread?) && AddressFree(s, l.addr)
    && if l.AddFromLoop? then UserCode(s) else !s.phase.Destroyed?
  }

  predicate HasFired(fires: seq<Fire>, p: Ptr) {
    exists i :: 0 <= i < |fires| && fires[i].ptr == p
  }

  /** Every callback of `p` was due at `when` or later, and the first one exactly then. */
  predicate FiresAsAsked(fires: seq<Fire>, p: Ptr, when: int, interval: nat) {
    forall i :: 0 <= i < |fires| && fires[i].ptr == p ==>
      && fires[i].interval == interval && when <= fires[i].stamp <= fires[i].at
      && (!HasFired(fires[..i], p) ==> fires[i].stamp == when)
  }

  /** The timer itself: due at `when` until it has fired, later afterwards. */
  predicate TimerAsAsked(heap: map<Ptr, Timer>, fires: seq<Fire>, p: Ptr, when: int, interval: nat) {
    p in heap ==>
      && heap[p].interval == interval && heap[p].stamp >= when
      && (!HasFired(fires, p) ==> heap[p].stamp == when)
  }

  ghost predicate AsAsked(s: State, p: Ptr, when: int, interval: nat) {
    && p in s.created
    && FiresAsAsked(s.fires, p, when, interval)
    && TimerAsAsked(s.q.heap, s.fires, p, when, interval)
    && (FiredNow(s.phase, p) ==> HasFired(s.fires, p))
  }

  // ---- Established by the add ----

  lemma NewPointer(s: State, p: Ptr)
    requires Inv(s) && p.id == s.nextId
    ensures p !in s.created && p !in s.q.heap && !HasFired(s.fires, p) && !FiredNow(s.phase, p)
  {
    hide SetInv, HeapInv, ArmInv, AllSpaced, FiredBefore;
    assert p !in s.created;
    if p in s.q.heap {
      CreatedIfLive(s, p);
    }
    NotFiredNow(s, p);
  }

  lemma NotFiredNow(s: State, p: Ptr)
    requires PhaseInv(s.q, s.phase, s.clock) && p !in s.q.heap
    ensures !FiredNow(s.phase, p)
  {
    if s.phase.Resetting? {
      var batch, n := s.phase.batch, s.phase.reset;
      forall k | n <= k < |batch| ensures batch[k].ptr != p {
        assert batch[k] == batch[n..][k - n];
      }
    }
  }

  lemma StepMakes(s: State, l: Label)
    requires Adds(s, l)
    ensures var s' := Step(s, l); var p := Ptr(l.addr, s.nextId);
            && s'.q.heap == s.q.heap[p := Timer(l.when, l.interval)]
            && s'.created == s.created + {p} && s'.fires == s.fires && s'.phase == s.phase
  {
    hide InsertEntry, Arm, EarliestChanges;
  }

  lemma AddAsks(s: State, l: Label)
    requires Inv(s) && Adds(s, l)
    ensures AsAsked(Step(s, l), Ptr(l.addr, s.nextId), l.when, l.interval)
  {
    hide Inv, Step, UserCode, AddressFree, FiredNow;
    var p := Ptr(l.addr, s.nextId);
    NewPointer(s, p);
    StepMakes(s, l);
    assert !HasFired(s.fires, p);
  }

  // ---- Kept by every step ----

  /** What a step does to one timer: nothing, unless it cancels it, fires it, or restarts it after it was due. */
  ghost predicate Kept(s: State, s': State, p: Ptr) {
    && s'.fires == s.fires && p in s'.created
    && (p in s'.q.heap ==> p in s.q.heap && s'.q.heap[p] == s.q.heap[p])
    && (FiredNow(s'.phase, p) ==> FiredNow(s.phase, p))
  }

  lemma KeptAsAsked(s: State, s': State, p: Ptr, when: int, interval: nat)
    requires AsAsked(s, p, when, interval) && Kept(s, s', p)
    ensures AsAsked(s', p, when, interval)
  {
    hide FiresAsAsked, FiredNow, HasFired;
  }

  /** Adds, cancels, the clock and the end of a pass. */
  lemma OthersKeep(s: State, l: Label, p: Ptr)
    requires Inv(s) && p in s.created && !l.FireNext? && !l.ResetNext?
    ensures Kept(s, Step(s, l), p)
  {
    hide SetInv, HeapInv, ArmInv, FireInv, Holders, InsertEntry, RemoveEntry, LowerBound, Arm, EarliestChanges, InSet;
    assert p.id < s.nextId;
  }

  lemma FireAsAsked(s: State, p: Ptr, when: int, interval: nat)
    requires Inv(s) && AsAsked(s, p, when, interval)
    ensures AsAsked(Step(s, FireNext), p, when, interval)
  {
    hide SetInv, HeapInv, ArmInv, FireInv, OwnInv, FiresAsAsked;
    if s.phase.Firing? && s.phase.fired < |s.phase.batch| {
      var e := s.phase.batch[s.phase.fired];
      BatchLives(s, e);
      var f := Fire(e.ptr, e.stamp, s.q.heap[e.ptr].interval, s.clock);
      OneMoreFire(s.fires, f, p, when, interval);
    }
  }

  lemma OneMoreFire(fires: seq<Fire>, f: Fire, p: Ptr, when: int, interval: nat)
    requires FiresAsAsked(fires, p, when, interval)
    requires f.ptr == p ==>
               f.interval == interval && when <= f.stamp <= f.at && (!HasFired(fires, p) ==> f.stamp == when)
    ensures FiresAsAsked(fires + [f], p, when, interval)
    ensures HasFired(fires + [f], p) <==> HasFired(fires, p) || f.ptr == p
  {
    var more := fires + [f];
    forall i | 0 <= i < |more| ensures more[..i] == fires[..i] {
    }
    assert fires[..|fires|] == fires;
    assert more[|fires|] == f;
    forall i | 0 <= i < |fires| ensures more[i] == fires[i] {
    }
  }

  /** The timer about to be reset has had its callback, and was due by now. */
  lemma DueByNow(s: State, r: Ptr)
    requires Inv(s) && ToReset(s, r)
    ensures s.q.heap[r].stamp <= s.clock && FiredNow(s.phase, r)
  {
    hide SetInv, HeapInv, ArmInv, FireInv, OwnInv;
    assert s.phase.batch[s.phase.reset] == Batch(s.phase)[0];
  }

  lemma ResetAsAsked(s: State, p: Ptr, when: int, interval: nat)
    requires Inv(s) && AsAsked(s, p, when, interval)
    ensures AsAsked(Step(s, ResetNext), p, when, interval)
  {
    hide Inv, FiresAsAsked, HasFired, InsertEntry;
    if s.phase.Resetting? && s.phase.reset < |s.phase.batch| && s.phase.batch[s.phase.reset].ptr in s.q.heap {
      var r := s.phase.batch[s.phase.reset].ptr;
      ResetIs(s, r);
      DueByNow(s, r);
    }
  }

  lemma StepAsAsked(s: State, l: Label, p: Ptr, when: int, interval: nat)
    requires Inv(s) && AsAsked(s, p, when, interval)
    ensures AsAsked(Step(s, l), p, when, interval)
  {
    hide Inv, Step, Kept, FiresAsAsked, TimerAsAsked, FiredNow;
    match l
    case FireNext => FireAsAsked(s, p, when, interval);
    case ResetNext => ResetAsAsked(s, p, when, interval);
    case _ =>
      OthersKeep(s, l, p);
      KeptAsAsked(s, Step(s, l), p, when, interval);
  }

  lemma {:induction false} RunAsAsked(s: State, ls: seq<Label>, p: Ptr, when: int, interval: nat)
    requires Inv(s) && AsAsked(s, p, when, interval)
    ensures AsAsked(Run(s, ls), p, when, interval)
    decreases ls
  {
    hide Inv, Step, AsAsked;
    if ls != [] {
      StepKeepsInv(s, ls[0]);
      StepAsAsked(s, ls[0], p, when, interval);
      RunAsAsked(Step(s, ls[0]), ls[1..], p, when, interval);
    }
  }

  /**
   A timer asked for time `when` and interval `interval` first runs its callback as one due at `when`, never earlier,
   and every time with that interval; while it lives it has that interval, and until it has run, that time.
   */
  lemma RunsAsAsked(clock: int, past: seq<Label>, l: Label, later: seq<Label>)
    requires clock > 0 && Adds(Run(Init(clock), past), l)
    ensures var s := Run(Init(clock), past); var p := Ptr(l.addr, s.nextId); var t := Run(Step(s, l), later);
            && !HasFired(s.fires, p)
            && (forall i :: 0 <= i < |t.fires| && t.fires[i].ptr == p ==>
                  && t.fires[i].interval == l.interval && l.when <= t.fires[i].stamp <= t.fires[i].at
                  && (!HasFired(t.fires[..i], p) ==> t.fires[i].stamp == l.when))
            && (p in t.q.heap ==>
                  && t.q.heap[p].interval == l.interval && t.q.heap[p].stamp >= l.when
                  && (!HasFired(t.fires, p) ==> t.q.heap[p].stamp == l.when))
  {
    hide Inv, Step, UserCode, AddressFree, FiredNow, HasFired;
    var s := Reachable(clock, past);
    NewPointer(s, Ptr(l.addr, s.nextId));
    AddAsks(s, l);
    StepKeepsInv(s, l);
    RunAsAsked(Step(s, l), later, Ptr(l.addr, s.nextId), l.when, l.interval);
  }
}
