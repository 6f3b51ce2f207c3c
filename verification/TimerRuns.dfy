/** What every step of the timer machine keeps, and the promises that follow for every run. */
module TimerRuns {
  import opened Timers
  import opened TimerSet

  // ---- The invariant ----

  /** The entries taken out of the set and not yet given back or deleted. */
  function Batch(ph: Phase): seq<Entry> {
    match ph
    case Firing(batch, _) => batch
    case Resetting(batch, reset) => if reset <= |batch| then batch[reset..] else []
    case _ => []
  }

  ghost predicate SetInv(q: Queue) {
    Sorted(q.timers) && forall e :: e in q.timers ==> e.ptr in q.heap && q.heap[e.ptr].stamp == e.stamp
  }

  ghost predicate HeapInv(heap: map<Ptr, Timer>) {
    && (forall p :: p in heap ==> p.addr < MAX_ADDR)
    && (forall p, r :: p in heap && r in heap && p.addr == r.addr ==> p == r)
  }

  ghost function Holders(s: State): multiset<Ptr> {
    Owned(s.q.timers) + Owned(Batch(s.phase)) + multiset(s.queued)
  }

  /** Every live timer has exactly one holder; every timer ever made is live or has been freed, once. */
  ghost predicate OwnInv(s: State) {
    && Holders(s) == multiset(s.q.heap.Keys)
    && multiset(s.freed) + multiset(s.q.heap.Keys) == multiset(s.created)
    && (forall p :: p in s.created ==> p.id < s.nextId)
  }

  ghost predicate PhaseInv(q: Queue, ph: Phase, clock: int) {
    && clock > 0
    && (ph.Reading? ==> 0 < ph.now <= clock)
    && (ph.Firing? ==> ph.fired <= |ph.batch|)
    && (ph.Resetting? ==> ph.reset <= |ph.batch|)
    && (ph.Destroyed? ==> q.timers == [])
    && (forall e :: e in Batch(ph) ==> e.ptr in q.heap && q.heap[e.ptr].stamp == e.stamp && e.stamp <= clock)
  }

  /** The timerfd will expire by the earliest stamp, or 100 microseconds after it was last set if that is later. */
  predicate ArmedForFirst(q: Queue) {
    q.timers != [] ==> q.fd.Armed? && q.fd.deadline <= Max(q.timers[0].stamp, q.fd.at + MIN_DELAY)
  }

  predicate InHandler(ph: Phase) {
    ph.Firing? || ph.Resetting?
  }

  /** Inside the handler only stamps that the handler's end would not arm for need be covered. */
  predicate ArmInv(q: Queue, ph: Phase, clock: int) {
    && (q.fd.Armed? ==> 0 < q.fd.at <= clock)
    && ((InHandler(ph) && q.timers != [] && q.timers[0].stamp > 0) || ArmedForFirst(q))
  }

  /** The timer's callback has run in the current batch, which still holds the timer. */
  ghost predicate FiredNow(ph: Phase, p: Ptr) {
    match ph
    case Firing(batch, fired) => exists k :: 0 <= k < fired && k < |batch| && batch[k].ptr == p
    case Resetting(batch, reset) => exists k :: reset <= k < |batch| && batch[k].ptr == p
    case _ => false
  }

  /** What is known of a live timer that has fired before. */
  ghost predicate FiredBefore(heap: map<Ptr, Timer>, ph: Phase, f: Fire) {
    f.ptr in heap ==>
      && heap[f.ptr].interval == f.interval
      && (FiredNow(ph, f.ptr) || (f.interval > 0 && heap[f.ptr].stamp >= f.at + f.interval))
  }

  predicate Spaced(f: Fire, g: Fire) {
    f.ptr == g.ptr ==> f.interval == g.interval > 0 && g.at >= f.at + f.interval
  }

  predicate AllSpaced(fires: seq<Fire>) {
    forall i, j :: 0 <= i < j < |fires| ==> Spaced(fires[i], fires[j])
  }

  ghost predicate FireInv(heap: map<Ptr, Timer>, ph: Phase, clock: int, created: set<Ptr>, fires: seq<Fire>) {
    && (forall f :: f in fires ==> f.stamp <= f.at <= clock && f.ptr in created && FiredBefore(heap, ph, f))
    && AllSpaced(fires)
  }

  ghost predicate Inv(s: State) {
    && SetInv(s.q) && HeapInv(s.q.heap) && OwnInv(s)
    && PhaseInv(s.q, s.phase, s.clock) && ArmInv(s.q, s.phase, s.clock)
    && FireInv(s.q.heap, s.phase, s.clock, s.created, s.fires)
  }

  // ---- Single holder ----

  /** A live timer is in the set, in the batch, or in the loop's queue: in one of them, once. */
  lemma OneHolder(s: State, p: Ptr)
    requires OwnInv(s)
    ensures p in s.q.heap <==> p in Owned(s.q.timers) || p in Owned(Batch(s.phase)) || p in s.queued
    ensures Owned(s.q.timers)[p] + Owned(Batch(s.phase))[p] + multiset(s.queued)[p] <= 1
  {
    assert Holders(s)[p] == multiset(s.q.heap.Keys)[p];
  }

  lemma NotInSet(s: State, p: Ptr)
    requires HeapInv(s.q.heap) && SetInv(s.q) && p in s.q.heap && p !in Owned(s.q.timers)
    ensures NoSuchAddr(s.q.timers, p.addr)
  {
    forall e | e in s.q.timers ensures e.ptr.addr != p.addr {
      OwnedMember(s.q.timers, e);
    }
  }

  lemma TwiceInSeq(ps: seq<Ptr>, i: nat, j: nat)
    requires i < j < |ps| && ps[i] == ps[j]
    ensures multiset(ps)[ps[i]] >= 2
  {
    assert ps == ps[..j] + [ps[j]] + ps[j + 1..];
    assert ps[..j][i] in multiset(ps[..j]);
  }

  /** No timer is twice in the batch. */
  lemma BatchDistinct(s: State, i: nat, j: nat)
    requires OwnInv(s) && i < j < |Batch(s.phase)|
    ensures Batch(s.phase)[i].ptr != Batch(s.phase)[j].ptr
  {
    if Batch(s.phase)[i].ptr == Batch(s.phase)[j].ptr {
      OneHolder(s, Batch(s.phase)[i].ptr);
      TwiceInSeq(Ptrs(Batch(s.phase)), i, j);
    }
  }

  // ---- Adding ----

  lemma AddLemma(q: Queue, p: Ptr, now: int)
    requires SetInv(q) && p in q.heap && NoSuchAddr(q.timers, p.addr)
    ensures var q' := AddTimerInLoop(q, p, now);
            && SetInv(q') && q'.heap == q.heap
            && Owned(q'.timers) == Owned(q.timers) + multiset{p}
            && q'.timers != []
    ensures var q' := AddTimerInLoop(q, p, now); EarliestChanges(q, q.heap[p].stamp) ==>
              q'.timers[0].stamp == q.heap[p].stamp && q'.fd == Arm(q.heap[p].stamp, now)
    ensures var q' := AddTimerInLoop(q, p, now); !EarliestChanges(q, q.heap[p].stamp) ==>
              q.timers != [] && q'.timers[0].stamp == q.timers[0].stamp && q'.fd == q.fd
  {
    InsertLemma(q.timers, Entry(q.heap[p].stamp, p));
  }

  /** A new timer keeps the timerfd right: either it becomes the earliest and re-arms it, or the earliest stays. */
  lemma AddKeepsArmed(q: Queue, ph: Phase, clock: int, p: Ptr)
    requires SetInv(q) && clock > 0 && ArmInv(q, ph, clock) && p in q.heap && NoSuchAddr(q.timers, p.addr)
    ensures ArmInv(AddTimerInLoop(q, p, clock), ph, clock)
  {
    hide AddTimerInLoop, SetInv;
    AddLemma(q, p, clock);
  }

  // ---- Each step keeps the invariant ----

  lemma TickKeeps(s: State, d: nat)
    requires Inv(s)
    ensures Inv(Step(s, Tick(d)))
  {
    hide FiredBefore, AllSpaced;
  }

  /** A new timer is live and nobody's yet. */
  lemma CreateOwns(s: State, addr: nat, when: int, interval: nat)
    requires OwnInv(s) && AddressFree(s, addr)
    ensures var s1 := Create(s, addr, when, interval); var p := Ptr(addr, s.nextId);
            && p !in s.created && p !in s.q.heap
            && Holders(s1) == Holders(s) && Holders(s1) + multiset{p} == multiset(s1.q.heap.Keys)
            && multiset(s1.freed) + multiset(s1.q.heap.Keys) == multiset(s1.created)
            && (forall r :: r in s1.created ==> r.id < s1.nextId)
  {
    var s1 := Create(s, addr, when, interval);
    var p := Ptr(addr, s.nextId);
    assert p !in s.created && p !in s.q.heap;
    assert s1.q.heap.Keys == s.q.heap.Keys + {p};
    assert multiset(s1.q.heap.Keys) == multiset(s.q.heap.Keys) + multiset{p};
    assert multiset(s1.created) == multiset(s.created) + multiset{p};
  }

  lemma CreateKeeps(s: State, addr: nat, when: int, interval: nat)
    requires Inv(s) && AddressFree(s, addr)
    ensures var s1 := Create(s, addr, when, interval);
            && SetInv(s1.q) && HeapInv(s1.q.heap) && PhaseInv(s1.q, s1.phase, s1.clock)
            && ArmInv(s1.q, s1.phase, s1.clock) && FireInv(s1.q.heap, s1.phase, s1.clock, s1.created, s1.fires)
            && NoSuchAddr(s1.q.timers, addr)
  {
    hide AllSpaced, FiredNow, Sorted, Holders;
    var p := Ptr(addr, s.nextId);
    assert p !in s.created;
    assert p !in s.q.heap;
  }

  lemma AddFromThreadKeeps(s: State, addr: nat, when: int, interval: nat)
    requires Inv(s)
    ensures Inv(Step(s, AddFromThread(addr, when, interval)))
  {
    hide SetInv, HeapInv, ArmInv, PhaseInv, FireInv;
    if !s.phase.Destroyed? && AddressFree(s, addr) {
      CreateOwns(s, addr, when, interval);
      CreateKeeps(s, addr, when, interval);
    }
  }

  /** Putting a timer that nobody holds into the set. */
  lemma PutInSet(s: State, p: Ptr)
    requires SetInv(s.q) && PhaseInv(s.q, s.phase, s.clock) && ArmInv(s.q, s.phase, s.clock)
    requires p in s.q.heap && NoSuchAddr(s.q.timers, p.addr) && !s.phase.Destroyed?
    ensures var s' := s.(q := AddTimerInLoop(s.q, p, s.clock));
            && SetInv(s'.q) && PhaseInv(s'.q, s'.phase, s'.clock) && ArmInv(s'.q, s'.phase, s'.clock)
            && Holders(s') == Holders(s) + multiset{p} && s'.q.heap == s.q.heap
  {
    hide AddTimerInLoop, SetInv, ArmInv;
    AddLemma(s.q, p, s.clock);
    AddKeepsArmed(s.q, s.phase, s.clock, p);
  }

  lemma AddFromLoopKeeps(s: State, addr: nat, when: int, interval: nat)
    requires Inv(s)
    ensures Inv(Step(s, AddFromLoop(addr, when, interval)))
  {
    hide SetInv, HeapInv, ArmInv, PhaseInv, FireInv, AddTimerInLoop, Holders, NoSuchAddr;
    if UserCode(s) && AddressFree(s, addr) {
      CreateOwns(s, addr, when, interval);
      CreateKeeps(s, addr, when, interval);
      PutInSet(Create(s, addr, when, interval), Ptr(addr, s.nextId));
    }
  }

  lemma RunQueuedAddKeeps(s: State)
    requires Inv(s)
    ensures Inv(Step(s, RunQueuedAdd))
  {
    hide SetInv, HeapInv, ArmInv, PhaseInv, FireInv, AddTimerInLoop, NoSuchAddr;
    if s.phase.Outside? && s.queued != [] && s.queued[0] in s.q.heap {
      var p := s.queued[0];
      OneHolder(s, p);
      assert s.queued == [p] + s.queued[1..];
      NotInSet(s, p);
      PutInSet(s.(queued := s.queued[1..]), p);
    }
  }

  /** Looking a live timer up by stamp and address finds exactly that timer, if the set holds it. */
  lemma Lookup(q: Queue, p: Ptr)
    requires SetInv(q) && HeapInv(q.heap) && p in q.heap
    ensures InSet(q, p) <==> p in Owned(q.timers)
    ensures InSet(q, p) ==> Entry(q.heap[p].stamp, p) in q.timers
  {
    var e := Entry(q.heap[p].stamp, p);
    if InSet(q, p) {
      var i :| 0 <= i < |q.timers| && Equivalent(e, q.timers[i]);
      assert q.timers[i].ptr in q.heap && q.timers[i].ptr.addr == p.addr;
      OwnedMember(q.timers, q.timers[i]);
    }
    if p in Owned(q.timers) {
      var x := OwnedWitness(q.timers, p);
      var i :| 0 <= i < |q.timers| && q.timers[i] == x;
      assert Equivalent(e, q.timers[i]);
    }
  }

  lemma RemoveKeeps(q: Queue, p: Ptr, ph: Phase, clock: int)
    requires SetInv(q) && HeapInv(q.heap) && ArmInv(q, ph, clock) && p in q.heap && InSet(q, p)
    ensures var q' := CancelInLoop(q, p);
            && SetInv(q') && HeapInv(q'.heap) && ArmInv(q', ph, clock)
            && Owned(q.timers) == Owned(q'.timers) + multiset{p} && q'.heap == q.heap - {p} && q'.fd == q.fd
  {
    hide Sorted, InSet, Owned, Equivalent;
    Lookup(q, p);
    RemoveLemma(q.timers, Entry(q.heap[p].stamp, p));
  }

  /** A timer deleted by its only holder. */
  lemma LeavesBooks(s: State, s': State, p: Ptr)
    requires OwnInv(s) && p in s.q.heap && s'.q.heap == s.q.heap - {p} && s'.freed == s.freed + [p]
    requires Holders(s) == Holders(s') + multiset{p} && s'.created == s.created && s'.nextId == s.nextId
    ensures OwnInv(s')
  {
    hide Holders;
    assert s'.q.heap.Keys == s.q.heap.Keys - {p};
    assert multiset(s.q.heap.Keys) == multiset(s'.q.heap.Keys) + multiset{p};
    assert multiset(s'.freed) == multiset(s.freed) + multiset{p};
    assert Holders(s') == Holders(s) - multiset{p};
    assert multiset(s'.freed) + multiset(s'.q.heap.Keys)
        == multiset(s.freed) + (multiset{p} + multiset(s'.q.heap.Keys));
  }

  lemma FiresWithout(heap: map<Ptr, Timer>, gone: set<Ptr>, ph: Phase, clock: int, created: set<Ptr>, fires: seq<Fire>)
    requires FireInv(heap, ph, clock, created, fires)
    ensures FireInv(heap - gone, ph, clock, created, fires)
  {
    hide FiredNow, AllSpaced;
    forall f | f in fires ensures FiredBefore(heap - gone, ph, f) {
      assert FiredBefore(heap, ph, f);
    }
  }

  /** A change of phase that forgets no callback of the current batch. */
  lemma FiresRephased(heap: map<Ptr, Timer>, ph: Phase, ph': Phase, clock: int, created: set<Ptr>, fires: seq<Fire>)
    requires FireInv(heap, ph, clock, created, fires)
    requires forall p :: p in heap && FiredNow(ph, p) ==> FiredNow(ph', p)
    ensures FireInv(heap, ph', clock, created, fires)
  {
    hide FiredNow, AllSpaced;
    forall f | f in fires ensures FiredBefore(heap, ph', f) {
      assert FiredBefore(heap, ph, f);
    }
  }

  lemma NotInBatch(s: State, p: Ptr)
    requires OwnInv(s) && p in s.q.heap && (p in Owned(s.q.timers) || p in s.queued)
    ensures forall e :: e in Batch(s.phase) ==> e.ptr != p
  {
    OneHolder(s, p);
    forall e | e in Batch(s.phase) ensures e.ptr != p {
      OwnedMember(Batch(s.phase), e);
    }
  }

  lemma CancelKeeps(s: State, p: Ptr)
    requires Inv(s)
    ensures Inv(Step(s, Cancel(p)))
  {
    hide SetInv, HeapInv, ArmInv, FireInv, OwnInv, Owned, InSet, CancelInLoop, Batch;
    if UserCode(s) && p in s.q.heap {
      if InSet(s.q, p) {
        Lookup(s.q, p);
        RemoveKeeps(s.q, p, s.phase, s.clock);
        NotInBatch(s, p);
        LeavesBooks(s, Step(s, Cancel(p)), p);
        FiresWithout(s.q.heap, {p}, s.phase, s.clock, s.created, s.fires);
      } else {
        CancelNothing(s, p);
      }
    }
  }

  lemma CancelNothing(s: State, p: Ptr)
    requires p in s.q.heap && !InSet(s.q, p)
    ensures Step(s, Cancel(p)) == s
  {
    assert s.freed + [] == s.freed;
  }

  // ---- The handler ----

  lemma BeginReadKeeps(s: State)
    requires Inv(s)
    ensures Inv(Step(s, BeginRead))
  {
    hide SetInv, HeapInv, ArmedForFirst, Sorted, AllSpaced, Owned;
  }

  /** The batch and what stays in the set. */
  lemma ExpirySplits(q: Queue, now: int)
    requires SetInv(q) && HeapInv(q.heap)
    ensures var q' := DropExpired(q, now); var batch := Expired(q, now);
            && SetInv(q') && q'.heap == q.heap && q'.fd == q.fd
            && Owned(q.timers) == Owned(q'.timers) + Owned(batch)
            && (forall e :: e in batch ==> e in q.timers && e.stamp <= now)
            && (forall e :: e in q'.timers ==> e.stamp > now)
  {
    var k := LowerBound(q.timers, Sentry(now));
    ExpiryExact(q.timers, now);
    assert q.timers == q.timers[..k] + q.timers[k..];
    PtrsConcat(q.timers[..k], q.timers[k..]);
  }

  lemma BatchTaken(s: State, s': State, batch: seq<Entry>)
    requires OwnInv(s) && Batch(s.phase) == [] && Batch(s'.phase) == batch
    requires Owned(s.q.timers) == Owned(s'.q.timers) + Owned(batch)
    requires s'.q.heap == s.q.heap && s'.queued == s.queued && s'.freed == s.freed
    requires s'.created == s.created && s'.nextId == s.nextId
    ensures OwnInv(s')
  {
    hide Owned, Batch;
    NobodyHolds();
    assert Holders(s') == Holders(s);
  }

  /** The timerfd read, one way or the other, and the due entries moved from the set to the batch. */
  lemma AfterRead(s: State, fd: Fd, rest: seq<Entry>, batch: seq<Entry>)
    requires Inv(s) && s.phase.Reading? && (fd == s.q.fd || fd == Unarmed)
    requires SetInv(Queue(rest, s.q.heap, fd)) && Owned(s.q.timers) == Owned(rest) + Owned(batch)
    requires forall e :: e in batch ==> e in s.q.timers && e.stamp <= s.phase.now
    requires forall e :: e in rest ==> e.stamp > s.phase.now
    ensures Inv(s.(q := Queue(rest, s.q.heap, fd), phase := Firing(batch, 0)))
  {
    hide Owned, HeapInv, FireInv, FiredNow, OwnInv, Sorted;
    NobodyFired(s.phase.now);
    FiresRephased(s.q.heap, s.phase, Firing(batch, 0), s.clock, s.created, s.fires);
    BatchTaken(s, s.(q := Queue(rest, s.q.heap, fd), phase := Firing(batch, 0)), batch);
    DueEntries(s, batch);
    assert rest != [] ==> rest[0] in rest;
  }

  lemma ReadTimerfdKeeps(s: State)
    requires Inv(s)
    ensures Inv(Step(s, ReadTimerfd))
  {
    if s.phase.Reading? {
      hide Owned, LowerBound, HeapInv, FireInv, SetInv, OwnInv, PhaseInv, ArmInv;
      var fd := if s.q.fd.Armed? && s.q.fd.deadline <= s.clock then Unarmed else s.q.fd;
      var batch, rest := Expired(s.q, s.phase.now), DropExpired(s.q, s.phase.now);
      ExpirySplits(s.q, s.phase.now);
      SetIgnoresFd(rest, fd);
      AfterRead(s, fd, rest.timers, batch);
    }
  }

  lemma NobodyFired(now: int)
    ensures forall p :: !FiredNow(Reading(now), p)
  {
  }

  lemma SetIgnoresFd(q: Queue, fd: Fd)
    requires SetInv(q)
    ensures SetInv(q.(fd := fd))
  {
  }

  lemma DueEntries(s: State, batch: seq<Entry>)
    requires SetInv(s.q) && s.phase.Reading? && s.phase.now <= s.clock
    requires forall e :: e in batch ==> e in s.q.timers && e.stamp <= s.phase.now
    ensures forall e :: e in batch ==> e.ptr in s.q.heap && s.q.heap[e.ptr].stamp == e.stamp && e.stamp <= s.clock
  {
  }

  lemma ExpiryIgnoresFd(q: Queue, fd: Fd, now: int)
    ensures Expired(q.(fd := fd), now) == Expired(q, now)
    ensures DropExpired(q.(fd := fd), now) == DropExpired(q, now).(fd := fd)
  {
  }

  lemma NobodyHolds()
    ensures Owned([]) == multiset{}
  {
    assert Ptrs([]) == [];
  }

  predicate Distinct(batch: seq<Entry>) {
    forall i, j :: 0 <= i < j < |batch| ==> batch[i].ptr != batch[j].ptr
  }

  lemma BatchIsDistinct(s: State)
    requires OwnInv(s)
    ensures Distinct(Batch(s.phase))
  {
    forall i, j | 0 <= i < j < |Batch(s.phase)| ensures Batch(s.phase)[i].ptr != Batch(s.phase)[j].ptr {
      BatchDistinct(s, i, j);
    }
  }

  lemma SpacedAppend(fires: seq<Fire>, g: Fire)
    requires AllSpaced(fires) && forall f :: f in fires ==> Spaced(f, g)
    ensures AllSpaced(fires + [g])
  {
    hide Spaced;
  }

  /** A due timer fires: not early, and not too soon after it last fired. */
  lemma FireRecorded(heap: map<Ptr, Timer>, batch: seq<Entry>, n: nat, clock: int, created: set<Ptr>, fires: seq<Fire>,
                     g: Fire)
    requires FireInv(heap, Firing(batch, n), clock, created, fires) && Distinct(batch) && n < |batch|
    requires var e := batch[n];
             && e.ptr in heap && e.ptr in created && heap[e.ptr].stamp == e.stamp <= clock
             && g == Fire(e.ptr, e.stamp, heap[e.ptr].interval, clock)
    ensures FireInv(heap, Firing(batch, n + 1), clock, created, fires + [g])
  {
    var ph := Firing(batch, n + 1);
    forall f | f in fires ensures Spaced(f, g) {
      assert FiredBefore(heap, Firing(batch, n), f);
    }
    assert FiredNow(ph, g.ptr) by { assert batch[n].ptr == g.ptr; }
    hide AllSpaced, Distinct;
    SpacedAppend(fires, g);
    FiresRephased(heap, Firing(batch, n), ph, clock, created, fires);
  }

  lemma CreatedIfLive(s: State, p: Ptr)
    requires OwnInv(s) && p in s.q.heap
    ensures p in s.created
  {
    assert p in multiset(s.q.heap.Keys);
    assert p in multiset(s.created);
  }

  lemma FireNextKeeps(s: State)
    requires Inv(s)
    ensures Inv(Step(s, FireNext))
  {
    hide SetInv, HeapInv, FireInv, ArmedForFirst, Owned, Distinct;
    if s.phase.Firing? && s.phase.fired < |s.phase.batch| {
      var e := s.phase.batch[s.phase.fired];
      CreatedIfLive(s, e.ptr);
      BatchIsDistinct(s);
      FireRecorded(s.q.heap, s.phase.batch, s.phase.fired, s.clock, s.created, s.fires,
                   Fire(e.ptr, e.stamp, s.q.heap[e.ptr].interval, s.clock));
    }
  }

  lemma BeginResetKeeps(s: State)
    requires Inv(s)
    ensures Inv(Step(s, BeginReset))
  {
    hide SetInv, HeapInv, FireInv, ArmedForFirst, Owned;
    if s.phase.Firing? && s.phase.fired == |s.phase.batch| {
      assert s.phase.batch[0..] == s.phase.batch;
      FiresRephased(s.q.heap, s.phase, Resetting(s.phase.batch, 0), s.clock, s.created, s.fires);
    }
  }

  /** The next timer to reset is held by the batch alone, and the rest of the batch is other timers. */
  lemma NextToReset(s: State)
    requires Inv(s) && s.phase.Resetting? && s.phase.reset < |s.phase.batch|
    ensures var batch, n := s.phase.batch, s.phase.reset; var p := batch[n].ptr;
            && p in s.q.heap && p !in Owned(s.q.timers) && p !in s.queued && NoSuchAddr(s.q.timers, p.addr)
            && (forall e :: e in s.q.timers ==> e.ptr != p)
            && (forall e :: e in batch[n + 1..] ==> e.ptr != p)
            && Owned(batch[n..]) == multiset{p} + Owned(batch[n + 1..])
  {
    hide HeapInv, FireInv, ArmInv, Sorted;
    var batch, n := s.phase.batch, s.phase.reset;
    var p := batch[n].ptr;
    assert batch[n..] == [batch[n]] + batch[n + 1..];
    OwnedCons(batch[n], batch[n + 1..]);
    OneHolder(s, p);
    NotInSet(s, p);
    forall e | e in batch[n + 1..] ensures e.ptr != p {
      OwnedMember(batch[n + 1..], e);
    }
  }

  lemma StillFired(batch: seq<Entry>, n: nat, p: Ptr)
    requires n < |batch| && p != batch[n].ptr && FiredNow(Resetting(batch, n), p)
    ensures FiredNow(Resetting(batch, n + 1), p)
  {
    var k :| n <= k < |batch| && batch[k].ptr == p;
    assert n + 1 <= k;
  }

  lemma SmallerHeap(heap: map<Ptr, Timer>, gone: set<Ptr>)
    requires HeapInv(heap)
    ensures HeapInv(heap - gone)
  {
  }

  predicate ToReset(s: State, p: Ptr) {
    && s.phase.Resetting? && s.phase.reset < |s.phase.batch| && s.phase.batch[s.phase.reset].ptr == p
    && p in s.q.heap
  }

  /** One-shot: the timer is deleted. */
  function Deleted(s: State, p: Ptr): State
    requires ToReset(s, p)
  {
    s.(q := s.q.(heap := s.q.heap - {p}), phase := Resetting(s.phase.batch, s.phase.reset + 1), freed := s.freed + [p])
  }

  /** Repeating: the timer goes back into the set, due one interval from now. */
  function Restarted(s: State, p: Ptr): State
    requires ToReset(s, p)
  {
    var t := s.q.heap[p].(stamp := s.clock + s.q.heap[p].interval);
    s.(q := Insert(s.q.(heap := s.q.heap[p := t]), p), phase := Resetting(s.phase.batch, s.phase.reset + 1))
  }

  lemma ResetIs(s: State, p: Ptr)
    requires ToReset(s, p)
    ensures Step(s, ResetNext) == if s.q.heap[p].IsRepeat() then Restarted(s, p) else Deleted(s, p)
  {
    assert s.freed + [] == s.freed;
  }

  lemma Shuffle(set_: multiset<Ptr>, batch: multiset<Ptr>, queue: multiset<Ptr>, p: Ptr)
    ensures set_ + (multiset{p} + batch) + queue == set_ + batch + queue + multiset{p}
    ensures set_ + (multiset{p} + batch) + queue == set_ + multiset{p} + batch + queue
  {
  }

  lemma HoldersOf(s: State, p: Ptr)
    requires Inv(s) && ToReset(s, p)
    ensures Holders(s) ==
            Owned(s.q.timers) + (multiset{p} + Owned(s.phase.batch[s.phase.reset + 1..])) + multiset(s.queued)
  {
    hide SetInv, ArmInv, PhaseInv, HeapInv, FireInv, Owned, NoSuchAddr;
    NextToReset(s);
  }

  lemma DeletedBooks(s: State, p: Ptr)
    requires Inv(s) && ToReset(s, p)
    ensures OwnInv(Deleted(s, p))
  {
    hide OwnInv, SetInv, ArmInv, PhaseInv, HeapInv, FireInv, Owned, NoSuchAddr;
    var batch, n := s.phase.batch, s.phase.reset;
    HoldersOf(s, p);
    Shuffle(Owned(s.q.timers), Owned(batch[n + 1..]), multiset(s.queued), p);
    assert Batch(Deleted(s, p).phase) == batch[n + 1..];
    LeavesBooks(s, Deleted(s, p), p);
  }

  lemma RestFired(s: State, p: Ptr)
    requires ToReset(s, p)
    ensures forall r :: r != p && FiredNow(s.phase, r) ==> FiredNow(Resetting(s.phase.batch, s.phase.reset + 1), r)
  {
    hide FiredNow;
    forall r | r != p && FiredNow(s.phase, r) ensures FiredNow(Resetting(s.phase.batch, s.phase.reset + 1), r) {
      StillFired(s.phase.batch, s.phase.reset, r);
    }
  }

  lemma DeletedKeeps(s: State, p: Ptr)
    requires Inv(s) && ToReset(s, p)
    ensures Inv(Deleted(s, p))
  {
    hide HeapInv, FireInv, OwnInv, FiredNow, Owned, Sorted, NoSuchAddr;
    NextToReset(s);
    DeletedBooks(s, p);
    RestFired(s, p);
    FiresWithout(s.q.heap, {p}, s.phase, s.clock, s.created, s.fires);
    FiresRephased(s.q.heap - {p}, s.phase, Deleted(s, p).phase, s.clock, s.created, s.fires);
    SmallerHeap(s.q.heap, {p});
  }

  /** A timer that has fired is restarted: due again one interval from now, hence at least that after it fired. */
  lemma FiresRestarted(heap: map<Ptr, Timer>, p: Ptr, ph: Phase, ph': Phase, clock: int, created: set<Ptr>,
                       fires: seq<Fire>)
    requires FireInv(heap, ph, clock, created, fires) && p in heap && heap[p].interval > 0
    requires forall r :: r in heap && r != p && FiredNow(ph, r) ==> FiredNow(ph', r)
    ensures FireInv(heap[p := heap[p].(stamp := clock + heap[p].interval)], ph', clock, created, fires)
  {
    hide FiredNow, AllSpaced;
    forall f | f in fires ensures FiredBefore(heap[p := heap[p].(stamp := clock + heap[p].interval)], ph', f) {
      assert FiredBefore(heap, ph, f);
    }
  }

  lemma RestartedQueue(q: Queue, p: Ptr, t: Timer)
    requires SetInv(q) && p in q.heap && NoSuchAddr(q.timers, p.addr) && (forall e :: e in q.timers ==> e.ptr != p)
    ensures var q' := Insert(q.(heap := q.heap[p := t]), p);
            && SetInv(q') && q'.timers != [] && Owned(q'.timers) == Owned(q.timers) + multiset{p}
            && q'.heap.Keys == q.heap.Keys
            && (q'.timers[0].stamp == t.stamp || (q.timers != [] && q'.timers[0].stamp == q.timers[0].stamp))
  {
    hide Owned, Sorted, Less;
    InsertLemma(q.timers, Entry(t.stamp, p));
    assert q.heap[p := t].Keys == q.heap.Keys;
  }

  lemma RestartedSet(s: State, p: Ptr)
    requires Inv(s) && ToReset(s, p)
    ensures var q' := Restarted(s, p).q;
            && SetInv(q') && q'.timers != [] && Owned(q'.timers) == Owned(s.q.timers) + multiset{p}
            && q'.heap.Keys == s.q.heap.Keys
            && (q'.timers[0].stamp == s.clock + s.q.heap[p].interval
                || (s.q.timers != [] && q'.timers[0].stamp == s.q.timers[0].stamp))
  {
    hide FireInv, ArmInv, PhaseInv, OwnInv, Owned, SetInv, HeapInv, NoSuchAddr, Insert;
    NextToReset(s);
    RestartedQueue(s.q, p, s.q.heap[p].(stamp := s.clock + s.q.heap[p].interval));
  }

  lemma RestartedBooks(s: State, p: Ptr)
    requires Inv(s) && ToReset(s, p)
    ensures OwnInv(Restarted(s, p))
  {
    hide FireInv, ArmInv, PhaseInv, SetInv, Owned, HeapInv, Insert;
    RestartedSet(s, p);
    HoldersOf(s, p);
    var s' := Restarted(s, p);
    var batch, n := s.phase.batch, s.phase.reset;
    Shuffle(Owned(s.q.timers), Owned(batch[n + 1..]), multiset(s.queued), p);
    assert Batch(s'.phase) == batch[n + 1..];
  }

  lemma RestartedKeeps(s: State, p: Ptr)
    requires Inv(s) && ToReset(s, p) && s.q.heap[p].IsRepeat()
    ensures Inv(Restarted(s, p))
  {
    hide FireInv, OwnInv, SetInv, FiredNow, Owned, InsertEntry, NoSuchAddr;
    NextToReset(s);
    RestartedSet(s, p);
    RestartedBooks(s, p);
    RestFired(s, p);
    FiresRestarted(s.q.heap, p, s.phase, Restarted(s, p).phase, s.clock, s.created, s.fires);
  }

  lemma ResetNextKeeps(s: State)
    requires Inv(s)
    ensures Inv(Step(s, ResetNext))
  {
    hide Inv, Restarted, Deleted;
    if s.phase.Resetting? && s.phase.reset < |s.phase.batch| && s.phase.batch[s.phase.reset].ptr in s.q.heap {
      var p := s.phase.batch[s.phase.reset].ptr;
      ResetIs(s, p);
      if s.q.heap[p].IsRepeat() {
        RestartedKeeps(s, p);
      } else {
        DeletedKeeps(s, p);
      }
    }
  }

  lemma FinishKeeps(s: State)
    requires Inv(s)
    ensures Inv(Step(s, Finish))
  {
    hide HeapInv, FireInv, Owned, Sorted;
    if s.phase.Resetting? && s.phase.reset == |s.phase.batch| {
      assert Batch(s.phase) == [];
      FiresRephased(s.q.heap, s.phase, Outside, s.clock, s.created, s.fires);
    }
  }

  /** The destructor deletes what the set holds. */
  lemma DestroyKeeps(s: State)
    requires Inv(s)
    ensures Inv(Step(s, Destroy))
  {
    hide HeapInv, FireInv, SetInv, Sorted, FiredNow, Holders;
    if s.phase.Outside? {
      var gone := set p | p in Ptrs(s.q.timers);
      SmallerHeap(s.q.heap, gone);
      FiresWithout(s.q.heap, gone, s.phase, s.clock, s.created, s.fires);
      NobodyFiredOutside();
      FiresRephased(s.q.heap - gone, s.phase, Destroyed, s.clock, s.created, s.fires);
      DestroyedBooks(s);
      assert Step(s, Destroy) == AfterDestroy(s);
    }
  }

  lemma NobodyFiredOutside()
    ensures forall p :: !FiredNow(Outside, p)
  {
  }

  function AfterDestroy(s: State): State {
    var gone := Ptrs(s.q.timers);
    s.(q := s.q.(timers := [], heap := s.q.heap - set p | p in gone), phase := Destroyed, freed := s.freed + gone)
  }

  lemma QueuedSurvive(s: State)
    requires OwnInv(s) && s.phase.Outside?
    ensures multiset(AfterDestroy(s).q.heap.Keys) == multiset(s.queued)
    ensures multiset(s.q.heap.Keys) == Owned(s.q.timers) + multiset(s.queued)
  {
    hide Holders;
    NobodyHolds();
    var s' := AfterDestroy(s);
    forall p ensures multiset(s'.q.heap.Keys)[p] == multiset(s.queued)[p] {
      OneHolder(s, p);
      assert p in Ptrs(s.q.timers) <==> p in Owned(s.q.timers);
    }
    assert Holders(s) == Owned(s.q.timers) + Owned([]) + multiset(s.queued) by { OutsideHolders(s); }
  }

  lemma OutsideHolders(s: State)
    requires s.phase.Outside?
    ensures Holders(s) == Owned(s.q.timers) + Owned([]) + multiset(s.queued)
  {
  }

  lemma DestroyedBooks(s: State)
    requires OwnInv(s) && s.phase.Outside?
    ensures OwnInv(AfterDestroy(s)) && SetInv(AfterDestroy(s).q)
  {
    var s' := AfterDestroy(s);
    NobodyHolds();
    QueuedSurvive(s);
    assert multiset(s'.freed) == multiset(s.freed) + Owned(s.q.timers);
  }

  // ---- What single steps do ----

  lemma StepOfAdd(s: State, addr: nat, when: int, interval: nat)
    requires UserCode(s) && AddressFree(s, addr)
    ensures var s' := Step(s, AddFromLoop(addr, when, interval)); var p := Ptr(addr, s.nextId);
            && p in Create(s, addr, when, interval).q.heap
            && s'.q == AddTimerInLoop(Create(s, addr, when, interval).q, p, s.clock)
            && s'.nextId == s.nextId + 1 && s'.queued == s.queued && s'.clock == s.clock
  {
  }

  lemma StepOfQueuedAdd(s: State)
    requires s.phase.Outside? && s.queued != [] && s.queued[0] in s.q.heap
    ensures var s' := Step(s, RunQueuedAdd);
            && s'.q == AddTimerInLoop(s.q, s.queued[0], s.clock)
            && s'.nextId == s.nextId && s'.queued == s.queued[1..] && s'.clock == s.clock
  {
  }

  lemma StepOfCancel(s: State, p: Ptr)
    requires UserCode(s) && p in s.q.heap
    ensures var s' := Step(s, Cancel(p));
            && s'.q == CancelInLoop(s.q, p)
            && s'.nextId == s.nextId && s'.queued == s.queued && s'.clock == s.clock
  {
  }

  lemma StepOfRead(s: State)
    requires s.phase.Reading?
    ensures var s' := Step(s, ReadTimerfd);
            && s'.q == DropExpired(s.q, s.phase.now).(fd := if s.q.fd.Armed? && s.q.fd.deadline <= s.clock then Unarmed
                                                            else s.q.fd)
            && s'.phase == Firing(Expired(s.q, s.phase.now), 0) && s'.fires == s.fires
            && s'.nextId == s.nextId && s'.queued == s.queued && s'.clock == s.clock
  {
  }

  lemma StepOfFire(s: State)
    requires s.phase.Firing? && s.phase.fired < |s.phase.batch| && s.phase.batch[s.phase.fired].ptr in s.q.heap
    ensures var s' := Step(s, FireNext);
            && s'.phase == Firing(s.phase.batch, s.phase.fired + 1)
            && (var e := s.phase.batch[s.phase.fired];
                s'.fires == s.fires + [Fire(e.ptr, e.stamp, s.q.heap[e.ptr].interval, s.clock)])
            && s'.q == s.q && s'.nextId == s.nextId && s'.queued == s.queued && s'.clock == s.clock
  {
  }

  lemma StepOfBeginReset(s: State)
    requires s.phase.Firing? && s.phase.fired == |s.phase.batch|
    ensures Step(s, BeginReset) == s.(phase := Resetting(s.phase.batch, 0))
  {
  }

  lemma StepOfReset(s: State, p: Ptr)
    requires ToReset(s, p)
    ensures var s' := Step(s, ResetNext); var t := s.q.heap[p];
            && s'.q == (if t.IsRepeat() then
                          Insert(s.q.(heap := s.q.heap[p := t.(stamp := s.clock + t.interval)]), p)
                        else s.q.(heap := s.q.heap - {p}))
            && s'.phase == Resetting(s.phase.batch, s.phase.reset + 1) && s'.fires == s.fires
            && s'.nextId == s.nextId && s'.queued == s.queued && s'.clock == s.clock && p in s.q.heap
  {
  }

  lemma StepOfFinish(s: State)
    requires s.phase.Resetting? && s.phase.reset == |s.phase.batch|
    ensures var s' := Step(s, Finish);
            && s'.q == Rearm(s.q, s.clock) && s'.phase == Outside && s'.fires == s.fires
            && s'.nextId == s.nextId && s'.queued == s.queued && s'.clock == s.clock
  {
  }

  lemma StepOfDestroy(s: State)
    requires s.phase.Outside?
    ensures var s' := Step(s, Destroy);
            && s'.q == s.q.(timers := [], heap := s.q.heap - set p | p in Ptrs(s.q.timers)) && s'.phase == Destroyed
            && s'.nextId == s.nextId && s'.queued == s.queued && s'.clock == s.clock
  {
  }

  lemma TickKeepsRest(s: State, d: nat)
    ensures Step(s, Tick(d)) == s.(clock := s.clock + d)
  {
  }

  /** No handle in the batch dangles, whatever the callbacks cancelled. */
  lemma BatchLives(s: State, e: Entry)
    requires Inv(s) && s.phase.Firing? && e in s.phase.batch
    ensures e.ptr in s.q.heap
  {
    hide SetInv, HeapInv, OwnInv, ArmInv, FireInv;
  }

  lemma QueuedLives(s: State)
    requires Inv(s) && s.queued != []
    ensures s.queued[0] in s.q.heap
  {
    hide SetInv, HeapInv, PhaseInv, ArmInv, FireInv, Holders;
    OneHolder(s, s.queued[0]);
  }

  lemma NextInHeap(s: State)
    requires Inv(s) && s.phase.Resetting? && s.phase.reset < |s.phase.batch|
    ensures ToReset(s, s.phase.batch[s.phase.reset].ptr)
  {
    hide SetInv, HeapInv, OwnInv, ArmInv, FireInv;
    assert s.phase.batch[s.phase.reset] == Batch(s.phase)[0];
  }

  lemma FirstLives(s: State)
    requires Inv(s)
    ensures s.q.timers != [] ==>
              s.q.timers[0].ptr in s.q.heap && s.q.heap[s.q.timers[0].ptr].stamp == s.q.timers[0].stamp
  {
    hide HeapInv, OwnInv, ArmInv, FireInv, PhaseInv;
  }
}
