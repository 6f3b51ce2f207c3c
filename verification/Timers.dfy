/**
 The timer queue: an ordered set of (stamp, timer), a one-shot timerfd, and what happens between them.  `State` and
 `Step` interleave the loop thread's handler, callbacks that add and cancel timers, adds queued by other threads, and
 the clock.  Times are microseconds; a label that is not enabled does nothing.
 */
module Timers {
  const MIN_DELAY := 100                     // microseconds
  const MAX_ADDR := 0xFFFF_FFFF_FFFF_FFFF    // UINTPTR_MAX

  /** A pointer to a timer: its address orders it, its sequence number tells it from later timers at that address. */
  datatype Ptr = Ptr(addr: nat, id: nat)

  datatype Timer = Timer(stamp: int, interval: nat) {
    predicate IsRepeat() { interval > 0 }
  }

  datatype Entry = Entry(stamp: int, ptr: Ptr)

  /** The one-shot timerfd: not armed (or already read), or armed at time `at` for `deadline`. */
  datatype Fd = Unarmed | Armed(deadline: int, at: int)

  datatype Queue = Queue(timers: seq<Entry>, heap: map<Ptr, Timer>, fd: Fd)

  // ---- The ordered set ----

  /** `operator<` of `std::pair<Timestamp, Timer*>`. */
  predicate Less(a: Entry, b: Entry) {
    a.stamp < b.stamp || (!(b.stamp < a.stamp) && a.ptr.addr < b.ptr.addr)
  }

  predicate Equivalent(a: Entry, b: Entry) {
    !Less(a, b) && !Less(b, a)
  }

  predicate Sorted(es: seq<Entry>) {
    forall i, j :: 0 <= i < j < |es| ==> Less(es[i], es[j])
  }

  function InsertEntry(es: seq<Entry>, e: Entry): seq<Entry> {
    if es == [] || Less(e, es[0]) then [e] + es
    else if Equivalent(e, es[0]) then es
    else [es[0]] + InsertEntry(es[1..], e)
  }

  function RemoveEntry(es: seq<Entry>, e: Entry): seq<Entry> {
    if es == [] then []
    else if Equivalent(e, es[0]) then es[1..]
    else [es[0]] + RemoveEntry(es[1..], e)
  }

  /** How many entries come before `sentry`. */
  function LowerBound(es: seq<Entry>, sentry: Entry): (n: nat)
    ensures n <= |es|
  {
    if es == [] || !Less(es[0], sentry) then 0 else 1 + LowerBound(es[1..], sentry)
  }

  function Sentry(now: int): Entry {
    Entry(now, Ptr(MAX_ADDR, 0))
  }

  // ---- Operations ----

  function Max(a: int, b: int): (m: int)
    ensures a <= m && b <= m && (m == a || m == b)
  {
    if a < b then b else a
  }

  /** `resetTimerfd`: a relative setting, never shorter than 100 microseconds. */
  function Arm(when: int, now: int): Fd {
    Armed(now + Max(when - now, MIN_DELAY), now)
  }

  predicate EarliestChanges(q: Queue, when: int) {
    q.timers == [] || when < q.timers[0].stamp
  }

  function Insert(q: Queue, p: Ptr): Queue
    requires p in q.heap
  {
    q.(timers := InsertEntry(q.timers, Entry(q.heap[p].stamp, p)))
  }

  function AddTimerInLoop(q: Queue, p: Ptr, now: int): Queue
    requires p in q.heap
  {
    var when := q.heap[p].stamp;
    if EarliestChanges(q, when) then Insert(q, p).(fd := Arm(when, now)) else Insert(q, p)
  }

  predicate InSet(q: Queue, p: Ptr)
    requires p in q.heap
  {
    exists i :: 0 <= i < |q.timers| && Equivalent(Entry(q.heap[p].stamp, p), q.timers[i])
  }

  /** Only a timer found in the set is removed and freed. */
  function CancelInLoop(q: Queue, p: Ptr): Queue
    requires p in q.heap
  {
    if InSet(q, p) then
      q.(timers := RemoveEntry(q.timers, Entry(q.heap[p].stamp, p)), heap := q.heap - {p})
    else q
  }

  function Expired(q: Queue, now: int): seq<Entry> {
    q.timers[..LowerBound(q.timers, Sentry(now))]
  }

  function DropExpired(q: Queue, now: int): Queue {
    q.(timers := q.timers[LowerBound(q.timers, Sentry(now))..])
  }

  /** One turn of `reset`'s loop. */
  function ResetOne(q: Queue, p: Ptr, now: int): Queue
    requires p in q.heap
  {
    var t := q.heap[p];
    if t.IsRepeat() then Insert(q.(heap := q.heap[p := t.(stamp := now + t.interval)]), p)
    else q.(heap := q.heap - {p})
  }

  /** The end of `reset`; a stamp that is not positive counts as no stamp. */
  function Rearm(q: Queue, now: int): Queue {
    if q.timers != [] && q.timers[0].stamp > 0 then q.(fd := Arm(q.timers[0].stamp, now)) else q
  }

  // ---- The machine ----

  datatype Phase =
    | Outside                                  // not in handleRead
    | Reading(now: int)                        // the clock is read, the timerfd is not
    | Firing(batch: seq<Entry>, fired: nat)    // callbacks of the first `fired` entries have started
    | Resetting(batch: seq<Entry>, reset: nat)
    | Destroyed

  datatype Fire = Fire(ptr: Ptr, stamp: int, interval: nat, at: int)

  datatype State = State(
    q: Queue, phase: Phase, clock: int,
    queued: seq<Ptr>,     // adds by other threads, waiting in the loop's queue
    created: set<Ptr>, nextId: nat,  // history: every timer ever made
    freed: seq<Ptr>,      // history: deletions
    fires: seq<Fire>)     // history: callbacks run

  datatype Label =
    | Tick(d: nat)
    | AddFromThread(addr: nat, when: int, interval: nat)
    | AddFromLoop(addr: nat, when: int, interval: nat)
    | RunQueuedAdd
    | Cancel(ptr: Ptr)
    | BeginRead | ReadTimerfd | FireNext | BeginReset | ResetNext | Finish
    | Destroy

  function Init(clock: int): State {
    State(Queue([], map[], Unarmed), Outside, clock, [], {}, 1, [], [])
  }

  /** Loop-thread code other than `handleRead` itself can run: between events, or inside a callback. */
  predicate UserCode(s: State) {
    s.phase.Outside? || (s.phase.Firing? && s.phase.fired > 0)
  }

  predicate AddressFree(s: State, addr: nat) {
    0 < addr < MAX_ADDR && forall p :: p in s.q.heap ==> p.addr != addr
  }

  /** `new Timer`. */
  function Create(s: State, addr: nat, when: int, interval: nat): State {
    var p := Ptr(addr, s.nextId);
    s.(q := s.q.(heap := s.q.heap[p := Timer(when, interval)]), created := s.created + {p}, nextId := s.nextId + 1)
  }

  function Step(s: State, l: Label): State {
    match l
    case Tick(d) => s.(clock := s.clock + d)
    case AddFromThread(addr, when, interval) =>
      if s.phase.Destroyed? || !AddressFree(s, addr) then s
      else
        var s1 := Create(s, addr, when, interval);
        s1.(queued := s1.queued + [Ptr(addr, s.nextId)])
    case AddFromLoop(addr, when, interval) =>
      if !UserCode(s) || !AddressFree(s, addr) then s
      else
        var s1 := Create(s, addr, when, interval);
        s1.(q := AddTimerInLoop(s1.q, Ptr(addr, s.nextId), s.clock))
    case RunQueuedAdd =>
      if s.phase.Outside? && s.queued != [] && s.queued[0] in s.q.heap then
        s.(q := AddTimerInLoop(s.q, s.queued[0], s.clock), queued := s.queued[1..])
      else s
    case Cancel(p) =>
      if !UserCode(s) || p !in s.q.heap then s
      else s.(q := CancelInLoop(s.q, p), freed := s.freed + if InSet(s.q, p) then [p] else [])
    case BeginRead => if s.phase.Outside? then s.(phase := Reading(s.clock)) else s
    case ReadTimerfd =>
      if !s.phase.Reading? then s
      else
        var q := if s.q.fd.Armed? && s.q.fd.deadline <= s.clock then s.q.(fd := Unarmed) else s.q;
        s.(q := DropExpired(q, s.phase.now), phase := Firing(Expired(q, s.phase.now), 0))
    case FireNext =>
      if s.phase.Firing? && s.phase.fired < |s.phase.batch| && s.phase.batch[s.phase.fired].ptr in s.q.heap then
        var e := s.phase.batch[s.phase.fired];
        s.(phase := Firing(s.phase.batch, s.phase.fired + 1),
           fires := s.fires + [Fire(e.ptr, e.stamp, s.q.heap[e.ptr].interval, s.clock)])
      else s
    case BeginReset =>
      if s.phase.Firing? && s.phase.fired == |s.phase.batch| then s.(phase := Resetting(s.phase.batch, 0)) else s
    case ResetNext =>
      if s.phase.Resetting? && s.phase.reset < |s.phase.batch| && s.phase.batch[s.phase.reset].ptr in s.q.heap then
        var p := s.phase.batch[s.phase.reset].ptr;
        s.(q := ResetOne(s.q, p, s.clock), phase := Resetting(s.phase.batch, s.phase.reset + 1),
           freed := s.freed + if s.q.heap[p].IsRepeat() then [] else [p])
      else s
    case Finish =>
      if s.phase.Resetting? && s.phase.reset == |s.phase.batch| then
        s.(q := Rearm(s.q, s.clock), phase := Outside)
      else s
    case Destroy =>
      if s.phase.Outside? then
        var gone := Ptrs(s.q.timers);
        s.(q := s.q.(timers := [], heap := s.q.heap - set p | p in gone), phase := Destroyed, freed := s.freed + gone)
      else s
  }

  function Ptrs(es: seq<Entry>): (ps: seq<Ptr>)
    ensures |ps| == |es| && forall i :: 0 <= i < |es| ==> ps[i] == es[i].ptr
  {
    seq(|es|, i requires 0 <= i < |es| => es[i].ptr)
  }

  function Run(s: State, ls: seq<Label>): State
    decreases ls
  {
    if ls == [] then s else Run(Step(s, ls[0]), ls[1..])
  }
}
