/**
 Calls across one connection: any number of threads inside `CallMethod`, requests and responses in flight, services that
 answer when they like and in any order, closures that call again, and destruction of the calling channel.  In flight
 here means a multiset: messages may overtake each other freely, which covers what an ordered byte stream can do.
 */
module RpcProtocol {
  import opened Bytes
  import opened RpcMeta
  import opened RpcChannels

  const MAX_ID: nat := TWO_63 - 1
  const TWO_63: nat := 0x8000_0000_0000_0000

  /** The thread that runs the event loop, and with it `onRpcMessage` and the closures. */
  const LOOP: nat := 0

  /** Where a thread is inside `CallMethod`: the id is taken, then the entry is made, then the message is sent. */
  datatype Local = Allocated(id: nat, call: Call) | Inserted(id: nat, call: Call)

  /** History: how far a call has come. */
  datatype Stage =
    | Allocating(thread: nat) | Inserting(thread: nat)
    | InRequest                // its request is on its way
    | AtServer                 // a service has it
    | InResponse(m: Meta)      // its response is on its way
    | Completed(m: Meta)

  datatype State = State(
    lastId: nat, outstandings: map<nat, Slot>, destroyed: bool,  // the calling channel
    threads: map<nat, Local>,
    running: Option<nat>,       // the loop thread is inside the closure of this call
    requests: multiset<Meta>, jobs: multiset<Job>, responses: multiset<Meta>,
    calls: map<nat, Call>, stages: map<nat, Stage>,               // history
    answered: map<nat, seq<Byte>>,  // history: what the service produced for the job of each call
    held: map<nat, Held>,       // history: what the response object held when it was finished with
    ran: multiset<nat>, closuresDeleted: multiset<nat>, responsesDeleted: multiset<nat>)  // history

  datatype Label =
    | Allocate(thread: nat, call: Call) | Insert(thread: nat) | Send(thread: nat)
    | ServerReceive(m: Meta)
    | Complete(job: Job, response: seq<Byte>)
    | ClientReceive(m: Meta)
    | FinishDone
    | Destroy

  function Init(): State {
    State(0, map[], false, map[], None, multiset{}, multiset{}, multiset{}, map[], map[], map[], map[],
          multiset{}, multiset{}, multiset{})
  }

  function JobOf(id: nat, c: Call): Job {
    Job(id, c.service, c.method_, c.request)
  }

  function SlotOf(c: Call): Slot {
    Slot(c.hasResponse, c.hasDone)
  }

  /** The service's own rule: it answers a request it was given, with something it may answer. */
  predicate MayAnswer(services: Services, service: seq<Byte>, method_: seq<Byte>, request: seq<Byte>,
                      response: seq<Byte>)
  {
    && services.Some? && service in services.value && method_ in services.value[service]
    && services.value[service][method_].answers(request, response)
  }

  predicate Enabled(services: Services, s: State, l: Label) {
    match l
    case Allocate(t, c) => t !in s.threads && !s.destroyed && s.lastId < MAX_ID
    case Insert(t) => t in s.threads && s.threads[t].Allocated?
    case Send(t) => t in s.threads && s.threads[t].Inserted?
    case ServerReceive(m) => m in s.requests
    case Complete(job, response) =>
      job in s.jobs && MayAnswer(services, job.service, job.method_, job.request, response)
    case ClientReceive(m) => m in s.responses && !s.destroyed && s.running.None? && LOOP !in s.threads
    case FinishDone => s.running.Some? && LOOP !in s.threads
    case Destroy => !s.destroyed && s.running.None? && s.threads == map[]
  }

  function Received(s: State, m: Meta): State {
    var (outstandings, effect) := React(s.outstandings, None, m);
    var s1 := s.(outstandings := outstandings, responses := s.responses - multiset{m});
    match effect
    case Finished(id, held, runsDone) =>
      var s2 := s1.(stages := s.stages[id := Completed(m)], held := s.held[id := held]);
      if runsDone then s2.(running := Some(id), ran := s.ran + multiset{id})
      else s2.(responsesDeleted := s.responsesDeleted + multiset{id})
    case Dropped(id, _) => s1.(stages := s.stages[id := Completed(m)])
    case _ => s1
  }

  function Served(services: Services, s: State, m: Meta): State {
    var (_, effect) := React(map[], services, m);
    var s1 := s.(requests := s.requests - multiset{m});
    match effect
    case Started(job) => s1.(jobs := s.jobs + multiset{job}, stages := s.stages[job.id := AtServer])
    case Replied(r) =>
      s1.(responses := s.responses + multiset{r}, stages := s.stages[Or(m.id, 0) := InResponse(r)])
    case _ => s1
  }

  function Destroyed(s: State): State {
    s.(outstandings := map[], destroyed := true,
       responsesDeleted := s.responsesDeleted + multiset(set k | k in s.outstandings && s.outstandings[k].hasResponse),
       closuresDeleted := s.closuresDeleted + multiset(set k | k in s.outstandings && s.outstandings[k].hasDone))
  }

  function Step(services: Services, s: State, l: Label): State {
    if !Enabled(services, s, l) then s
    else
      match l
      case Allocate(t, c) =>
        var id := s.lastId + 1;
        s.(lastId := id, threads := s.threads[t := Allocated(id, c)], calls := s.calls[id := c],
           stages := s.stages[id := Allocating(t)])
      case Insert(t) =>
        var id, c := s.threads[t].id, s.threads[t].call;
        s.(outstandings := s.outstandings[id := SlotOf(c)], threads := s.threads[t := Inserted(id, c)],
           stages := s.stages[id := Inserting(t)])
      case Send(t) =>
        var id, c := s.threads[t].id, s.threads[t].call;
        s.(threads := s.threads - {t}, stages := s.stages[id := InRequest],
           requests := s.requests + multiset{Request(id, c)})
      case ServerReceive(m) => Served(services, s, m)
      case Complete(job, response) =>
        var r := Answer(job.id, response);
        s.(jobs := s.jobs - multiset{job}, responses := s.responses + multiset{r},
           stages := s.stages[job.id := InResponse(r)], answered := s.answered[job.id := response])
      case ClientReceive(m) => Received(s, m)
      case FinishDone =>
        s.(running := None, responsesDeleted := s.responsesDeleted + multiset{s.running.value})
      case Destroy => Destroyed(s)
  }

  function Run(services: Services, s: State, ls: seq<Label>): State
    decreases ls
  {
    if ls == [] then s else Run(services, Step(services, s, ls[0]), ls[1..])
  }

  // ---- The invariant, piece by piece ----

  ghost predicate CallsInv(lastId: nat, threads: map<nat, Local>, calls: map<nat, Call>, stages: map<nat, Stage>) {
    && lastId <= MAX_ID
    && (forall k: nat :: k in calls <==> 1 <= k <= lastId)
    && stages.Keys == calls.Keys
    && (forall t :: t in threads ==>
          var k := threads[t].id;
          && k in calls && calls[k] == threads[t].call
          && stages[k] == if threads[t].Allocated? then Allocating(t) else Inserting(t))
    && (forall k :: k in stages ==>
          && (stages[k].Allocating? ==>
                stages[k].thread in threads && threads[stages[k].thread] == Allocated(k, calls[k]))
          && (stages[k].Inserting? ==>
                stages[k].thread in threads && threads[stages[k].thread] == Inserted(k, calls[k])))
  }

  /** The call has its entry and not yet its response. */
  predicate Waiting(stage: Stage) {
    !stage.Allocating? && !stage.Completed?
  }

  ghost predicate OutstandingInv(destroyed: bool, outstandings: map<nat, Slot>, running: Option<nat>,
                                 threads: map<nat, Local>, calls: map<nat, Call>, stages: map<nat, Stage>)
  {
    if destroyed then outstandings == map[] && running == None && threads == map[]
    else forall k: nat ::
        && (k in outstandings <==> k in calls && k in stages && Waiting(stages[k]))
        && (k in outstandings ==> outstandings[k] == SlotOf(calls[k]))
  }

  predicate IsRequest(calls: map<nat, Call>, stages: map<nat, Stage>, m: Meta) {
    && m.id.Some? && m.id.value in calls && m.id.value in stages
    && stages[m.id.value] == InRequest && m == Request(m.id.value, calls[m.id.value])
  }

  predicate IsJob(calls: map<nat, Call>, stages: map<nat, Stage>, job: Job) {
    && job.id in calls && job.id in stages && stages[job.id] == AtServer && job == JobOf(job.id, calls[job.id])
  }

  predicate IsResponse(stages: map<nat, Stage>, m: Meta) {
    m.id.Some? && m.id.value in stages && stages[m.id.value] == InResponse(m)
  }

  /** What is in flight is exactly what the stages of the calls say, each message once. */
  ghost predicate NetInv(requests: multiset<Meta>, jobs: multiset<Job>, responses: multiset<Meta>,
                         calls: map<nat, Call>, stages: map<nat, Stage>)
  {
    && (forall m: Meta :: requests[m] == if IsRequest(calls, stages, m) then 1 else 0)
    && (forall job: Job :: jobs[job] == if IsJob(calls, stages, job) then 1 else 0)
    && (forall m: Meta :: responses[m] == if IsResponse(stages, m) then 1 else 0)
  }

  function VerdictOn(services: Services, c: Call): int {
    Verdict(services, c.service, c.method_, c.request)
  }

  /** The right answer to call `k`: the error its request deserves, or what the service produced for that very call. */
  predicate Proper(services: Services, answered: map<nat, seq<Byte>>, k: nat, c: Call, m: Meta) {
    if VerdictOn(services, c) != NO_ERROR then m == ErrorAnswer(k, VerdictOn(services, c)) && k !in answered
    else
      && k in answered && m == Answer(k, answered[k])
      && MayAnswer(services, c.service, c.method_, c.request, answered[k])
  }

  predicate HasAnswer(stage: Stage) {
    stage.InResponse? || stage.Completed?
  }

  ghost predicate AnswerInv(services: Services, answered: map<nat, seq<Byte>>, calls: map<nat, Call>,
                            stages: map<nat, Stage>)
  {
    && (forall k :: k in answered ==> k in stages && HasAnswer(stages[k]))
    && (forall k :: k in stages && k in calls ==>
          && (stages[k].AtServer? ==> VerdictOn(services, calls[k]) == NO_ERROR)
          && (HasAnswer(stages[k]) ==> Proper(services, answered, k, calls[k], stages[k].m)))
  }

  ghost predicate HeldInv(held: map<nat, Held>, calls: map<nat, Call>, stages: map<nat, Stage>) {
    forall k: nat ::
      && (k in held <==> k in calls && k in stages && stages[k].Completed? && calls[k].hasResponse)
      && (k in held ==> held[k] == HeldAfter(stages[k].m))
  }

  predicate IsCompleted(stages: map<nat, Stage>, k: nat) {
    k in stages && stages[k].Completed?
  }

  /** Who has dealt with the closure and the response object of each call, and how many times. */
  ghost predicate OwnInv(destroyed: bool, running: Option<nat>, ran: multiset<nat>, closuresDeleted: multiset<nat>,
                         responsesDeleted: multiset<nat>, calls: map<nat, Call>, stages: map<nat, Stage>)
  {
    && (running.Some? ==>
          running.value in calls && IsCompleted(stages, running.value) && calls[running.value].hasResponse
          && calls[running.value].hasDone)
    && (forall k: nat :: ran[k] ==
          if k in calls && IsCompleted(stages, k) && calls[k].hasResponse && calls[k].hasDone then 1 else 0)
    && (forall k: nat :: closuresDeleted[k] ==
          if k in calls && !IsCompleted(stages, k) && destroyed && calls[k].hasDone then 1 else 0)
    && (forall k: nat :: responsesDeleted[k] ==
          if k in calls && calls[k].hasResponse && (if IsCompleted(stages, k) then running != Some(k) else destroyed)
          then 1 else 0)
  }

  ghost predicate Inv(services: Services, s: State) {
    && CallsInv(s.lastId, s.threads, s.calls, s.stages)
    && OutstandingInv(s.destroyed, s.outstandings, s.running, s.threads, s.calls, s.stages)
    && NetInv(s.requests, s.jobs, s.responses, s.calls, s.stages)
    && AnswerInv(services, s.answered, s.calls, s.stages)
    && HeldInv(s.held, s.calls, s.stages)
    && OwnInv(s.destroyed, s.running, s.ran, s.closuresDeleted, s.responsesDeleted, s.calls, s.stages)
  }

  lemma InitInv(services: Services)
    ensures Inv(services, Init())
  {
  }

  // ---- Each step keeps the invariant ----

  /** A move between stages short of completion concerns neither held responses nor ownership. */
  lemma MoveKeepsOwn(s: State, k: nat, stage: Stage)
    requires HeldInv(s.held, s.calls, s.stages)
    requires OwnInv(s.destroyed, s.running, s.ran, s.closuresDeleted, s.responsesDeleted, s.calls, s.stages)
    requires k in s.stages && !s.stages[k].Completed? && !stage.Completed?
    ensures HeldInv(s.held, s.calls, s.stages[k := stage])
    ensures OwnInv(s.destroyed, s.running, s.ran, s.closuresDeleted, s.responsesDeleted, s.calls, s.stages[k := stage])
  {
  }

  lemma NewIsNotCompleted(stages: map<nat, Stage>, k: nat, stage: Stage)
    requires k !in stages && !stage.Completed?
    ensures forall j :: IsCompleted(stages[k := stage], j) <==> IsCompleted(stages, j)
    ensures !IsCompleted(stages, k)
  {
  }

  lemma NewKeepsHeld(held: map<nat, Held>, calls: map<nat, Call>, stages: map<nat, Stage>, k: nat, c: Call,
                     stage: Stage)
    requires HeldInv(held, calls, stages) && k !in calls && k !in stages && !stage.Completed?
    ensures HeldInv(held, calls[k := c], stages[k := stage])
  {
  }

  lemma NewKeepsOwn(s: State, k: nat, c: Call, stage: Stage)
    requires OwnInv(s.destroyed, s.running, s.ran, s.closuresDeleted, s.responsesDeleted, s.calls, s.stages)
    requires k !in s.calls && k !in s.stages && !stage.Completed? && !s.destroyed
    ensures OwnInv(s.destroyed, s.running, s.ran, s.closuresDeleted, s.responsesDeleted, s.calls[k := c],
                   s.stages[k := stage])
  {
    hide IsCompleted;
    NewIsNotCompleted(s.stages, k, stage);
  }

  lemma AnswerKept(services: Services, answered: map<nat, seq<Byte>>, answered': map<nat, seq<Byte>>,
                   calls: map<nat, Call>, stages: map<nat, Stage>, k: nat, stage: Stage)
    requires AnswerInv(services, answered, calls, stages) && k in calls && k in stages
    requires forall j :: j != k ==>
               (j in answered' <==> j in answered) && (j in answered ==> answered'[j] == answered[j])
    requires k in answered' ==> HasAnswer(stage)
    requires stage.AtServer? ==> VerdictOn(services, calls[k]) == NO_ERROR
    requires HasAnswer(stage) ==> Proper(services, answered', k, calls[k], stage.m)
    ensures AnswerInv(services, answered', calls, stages[k := stage])
  {
    hide VerdictOn, MayAnswer;
  }

  /** A call before its answer has none on record. */
  lemma NotAnsweredYet(services: Services, s: State, k: nat)
    requires AnswerInv(services, s.answered, s.calls, s.stages) && k in s.stages && !HasAnswer(s.stages[k])
    ensures k !in s.answered
  {
    hide Proper, VerdictOn;
  }

  lemma NewKeepsNet(services: Services, s: State, k: nat, c: Call, t: nat)
    requires NetInv(s.requests, s.jobs, s.responses, s.calls, s.stages)
    requires AnswerInv(services, s.answered, s.calls, s.stages)
    requires k !in s.calls && k !in s.stages
    ensures NetInv(s.requests, s.jobs, s.responses, s.calls[k := c], s.stages[k := Allocating(t)])
    ensures AnswerInv(services, s.answered, s.calls[k := c], s.stages[k := Allocating(t)])
  {
    hide Proper, VerdictOn, Request, JobOf;
  }

  lemma NewKeepsCalls(s: State, t: nat, c: Call)
    requires CallsInv(s.lastId, s.threads, s.calls, s.stages) && s.lastId < MAX_ID && t !in s.threads
    ensures var k := s.lastId + 1;
            && k !in s.calls && k !in s.stages
            && CallsInv(k, s.threads[t := Allocated(k, c)], s.calls[k := c], s.stages[k := Allocating(t)])
  {
    hide Waiting;
    var k := s.lastId + 1;
    assert s.stages[k := Allocating(t)].Keys == s.calls[k := c].Keys;
  }

  lemma NewKeepsOutstanding(s: State, k: nat, t: nat, c: Call)
    requires OutstandingInv(s.destroyed, s.outstandings, s.running, s.threads, s.calls, s.stages) && !s.destroyed
    requires k !in s.calls && k !in s.stages
    ensures OutstandingInv(s.destroyed, s.outstandings, s.running, s.threads[t := Allocated(k, c)], s.calls[k := c],
                           s.stages[k := Allocating(t)])
  {
  }

  lemma AllocateKeeps(services: Services, s: State, t: nat, c: Call)
    requires Inv(services, s)
    ensures Inv(services, Step(services, s, Allocate(t, c)))
  {
    hide HeldInv, OwnInv, NetInv, AnswerInv, CallsInv, OutstandingInv;
    if t !in s.threads && !s.destroyed && s.lastId < MAX_ID {
      var id := s.lastId + 1;
      NewKeepsCalls(s, t, c);
      NewKeepsOutstanding(s, id, t, c);
      NewKeepsHeld(s.held, s.calls, s.stages, id, c, Allocating(t));
      NewKeepsOwn(s, id, c, Allocating(t));
      NewKeepsNet(services, s, id, c, t);
    }
  }

  lemma InsertKeepsNet(s: State, k: nat, t: nat)
    requires NetInv(s.requests, s.jobs, s.responses, s.calls, s.stages)
    requires k in s.stages && s.stages[k].Allocating?
    ensures NetInv(s.requests, s.jobs, s.responses, s.calls, s.stages[k := Inserting(t)])
  {
    hide Request, JobOf;
  }

  lemma InsertKeepsCalls(s: State, t: nat)
    requires CallsInv(s.lastId, s.threads, s.calls, s.stages) && t in s.threads && s.threads[t].Allocated?
    ensures var k, c := s.threads[t].id, s.threads[t].call;
            && k in s.calls && s.calls[k] == c && k in s.stages && s.stages[k] == Allocating(t)
            && CallsInv(s.lastId, s.threads[t := Inserted(k, c)], s.calls, s.stages[k := Inserting(t)])
  {
    hide Waiting;
    var k := s.threads[t].id;
    assert s.stages[k := Inserting(t)].Keys == s.stages.Keys;
  }

  lemma InsertKeepsOutstanding(s: State, k: nat, c: Call, t: nat)
    requires OutstandingInv(s.destroyed, s.outstandings, s.running, s.threads, s.calls, s.stages) && t in s.threads
    requires k in s.calls && s.calls[k] == c && k in s.stages && s.stages[k] == Allocating(t)
    ensures OutstandingInv(s.destroyed, s.outstandings[k := SlotOf(c)], s.running, s.threads[t := Inserted(k, c)],
                           s.calls, s.stages[k := Inserting(t)])
  {
  }

  lemma InsertKeeps(services: Services, s: State, t: nat)
    requires Inv(services, s)
    ensures Inv(services, Step(services, s, Insert(t)))
  {
    hide HeldInv, OwnInv, NetInv, AnswerInv, CallsInv, OutstandingInv;
    if t in s.threads && s.threads[t].Allocated? {
      InsertKeepsCalls(s, t);
      InsertKeepsOutstanding(s, s.threads[t].id, s.threads[t].call, t);
      MoveKeepsOwn(s, s.threads[t].id, Inserting(t));
      InsertKeepsNet(s, s.threads[t].id, t);
      NotAnsweredYet(services, s, s.threads[t].id);
      AnswerKept(services, s.answered, s.answered, s.calls, s.stages, s.threads[t].id, Inserting(t));
    }
  }

  lemma SendKeepsNet(s: State, k: nat)
    requires NetInv(s.requests, s.jobs, s.responses, s.calls, s.stages)
    requires k in s.stages && s.stages[k].Inserting? && k in s.calls
    ensures NetInv(s.requests + multiset{Request(k, s.calls[k])}, s.jobs, s.responses, s.calls,
                   s.stages[k := InRequest])
  {
    hide JobOf;
  }

  lemma SendKeepsCalls(s: State, t: nat)
    requires CallsInv(s.lastId, s.threads, s.calls, s.stages) && t in s.threads && s.threads[t].Inserted?
    ensures var k := s.threads[t].id;
            && k in s.calls && s.calls[k] == s.threads[t].call && k in s.stages && s.stages[k] == Inserting(t)
            && CallsInv(s.lastId, s.threads - {t}, s.calls, s.stages[k := InRequest])
  {
    hide Waiting;
    var k := s.threads[t].id;
    assert s.stages[k := InRequest].Keys == s.stages.Keys;
  }

  lemma SendKeepsOutstanding(s: State, k: nat, t: nat)
    requires OutstandingInv(s.destroyed, s.outstandings, s.running, s.threads, s.calls, s.stages) && t in s.threads
    requires k in s.calls && k in s.stages && s.stages[k] == Inserting(t)
    ensures OutstandingInv(s.destroyed, s.outstandings, s.running, s.threads - {t}, s.calls, s.stages[k := InRequest])
  {
  }

  lemma SendKeeps(services: Services, s: State, t: nat)
    requires Inv(services, s)
    ensures Inv(services, Step(services, s, Send(t)))
  {
    hide HeldInv, OwnInv, NetInv, AnswerInv, CallsInv, OutstandingInv;
    if t in s.threads && s.threads[t].Inserted? {
      SendKeepsCalls(s, t);
      SendKeepsOutstanding(s, s.threads[t].id, t);
      MoveKeepsOwn(s, s.threads[t].id, InRequest);
      SendKeepsNet(s, s.threads[t].id);
      NotAnsweredYet(services, s, s.threads[t].id);
      AnswerKept(services, s.answered, s.answered, s.calls, s.stages, s.threads[t].id, InRequest);
    }
  }

  // ---- The server ----

  lemma MoveKeepsCalls(s: State, k: nat, stage: Stage)
    requires CallsInv(s.lastId, s.threads, s.calls, s.stages)
    requires OutstandingInv(s.destroyed, s.outstandings, s.running, s.threads, s.calls, s.stages)
    requires k in s.stages && Waiting(s.stages[k]) && !s.stages[k].Inserting? && Waiting(stage) && !stage.Inserting?
    ensures CallsInv(s.lastId, s.threads, s.calls, s.stages[k := stage])
    ensures OutstandingInv(s.destroyed, s.outstandings, s.running, s.threads, s.calls, s.stages[k := stage])
  {
  }

  /** A request in flight is some call's, and that call's alone. */
  lemma RequestInFlight(s: State, m: Meta)
    requires NetInv(s.requests, s.jobs, s.responses, s.calls, s.stages) && m in s.requests
    ensures IsRequest(s.calls, s.stages, m)
  {
  }

  lemma StartKeepsNet(s: State, k: nat)
    requires NetInv(s.requests, s.jobs, s.responses, s.calls, s.stages)
    requires k in s.calls && k in s.stages && s.stages[k] == InRequest
    ensures NetInv(s.requests - multiset{Request(k, s.calls[k])}, s.jobs + multiset{JobOf(k, s.calls[k])}, s.responses,
                   s.calls, s.stages[k := AtServer])
  {
  }

  lemma RejectKeepsNet(s: State, k: nat, r: Meta)
    requires NetInv(s.requests, s.jobs, s.responses, s.calls, s.stages)
    requires k in s.calls && k in s.stages && s.stages[k] == InRequest && r.id == Some(k)
    ensures NetInv(s.requests - multiset{Request(k, s.calls[k])}, s.jobs, s.responses + multiset{r},
                   s.calls, s.stages[k := InResponse(r)])
  {
  }

  lemma CompleteKeepsNet(s: State, k: nat, r: Meta)
    requires NetInv(s.requests, s.jobs, s.responses, s.calls, s.stages)
    requires k in s.calls && k in s.stages && s.stages[k] == AtServer && r.id == Some(k)
    ensures NetInv(s.requests, s.jobs - multiset{JobOf(k, s.calls[k])}, s.responses + multiset{r},
                   s.calls, s.stages[k := InResponse(r)])
  {
  }

  /** What the dispatcher makes of the request of a call. */
  lemma Dispatched(services: Services, k: nat, c: Call)
    ensures var v := VerdictOn(services, c);
            React(map[], services, Request(k, c)).1 ==
            if v == NO_ERROR then Started(JobOf(k, c)) else Replied(ErrorAnswer(k, v))
  {
    hide Verdict;
  }

  /** The server, given the request of a call, starts the call's job or sends the error the request deserves. */
  lemma ServedIs(services: Services, s: State, k: nat)
    requires k in s.calls && k in s.stages
    ensures var c := s.calls[k]; var v := VerdictOn(services, c); var s' := Served(services, s, Request(k, c));
            s' == if v == NO_ERROR then
                    s.(requests := s.requests - multiset{Request(k, c)}, jobs := s.jobs + multiset{JobOf(k, c)},
                       stages := s.stages[k := AtServer])
                  else
                    s.(requests := s.requests - multiset{Request(k, c)},
                       responses := s.responses + multiset{ErrorAnswer(k, v)},
                       stages := s.stages[k := InResponse(ErrorAnswer(k, v))])
  {
    hide VerdictOn, React;
    Dispatched(services, k, s.calls[k]);
  }

  lemma ServerReceiveKeeps(services: Services, s: State, m: Meta)
    requires Inv(services, s)
    ensures Inv(services, Step(services, s, ServerReceive(m)))
  {
    hide CallsInv, OutstandingInv, HeldInv, OwnInv, NetInv, AnswerInv, Served, Verdict;
    if m in s.requests {
      RequestInFlight(s, m);
      var k := m.id.value;
      var v := VerdictOn(services, s.calls[k]);
      var stage := if v == NO_ERROR then AtServer else InResponse(ErrorAnswer(k, v));
      ServedIs(services, s, k);
      MoveKeepsOwn(s, k, stage);
      MoveKeepsCalls(s, k, stage);
      NotAnsweredYet(services, s, k);
      AnswerKept(services, s.answered, s.answered, s.calls, s.stages, k, stage);
      if v == NO_ERROR {
        StartKeepsNet(s, k);
      } else {
        RejectKeepsNet(s, k, ErrorAnswer(k, v));
      }
    }
  }

  lemma JobInHand(services: Services, s: State, job: Job)
    requires NetInv(s.requests, s.jobs, s.responses, s.calls, s.stages)
    requires AnswerInv(services, s.answered, s.calls, s.stages)
    requires job in s.jobs
    ensures IsJob(s.calls, s.stages, job) && VerdictOn(services, s.calls[job.id]) == NO_ERROR
  {
  }

  lemma CompleteKeeps(services: Services, s: State, job: Job, response: seq<Byte>)
    requires Inv(services, s)
    ensures Inv(services, Step(services, s, Complete(job, response)))
  {
    hide CallsInv, OutstandingInv, HeldInv, OwnInv, NetInv, AnswerInv, Verdict;
    if job in s.jobs && MayAnswer(services, job.service, job.method_, job.request, response) {
      JobInHand(services, s, job);
      var r := Answer(job.id, response);
      MoveKeepsOwn(s, job.id, InResponse(r));
      MoveKeepsCalls(s, job.id, InResponse(r));
      AnswerKept(services, s.answered, s.answered[job.id := response], s.calls, s.stages, job.id, InResponse(r));
      CompleteKeepsNet(s, job.id, r);
    }
  }

  // ---- The caller's loop thread ----

  /** A response in flight is the proper answer to a call whose entry is there. */
  lemma ResponseInFlight(services: Services, s: State, m: Meta)
    requires Inv(services, s) && m in s.responses && !s.destroyed
    ensures m.id.Some? && m.id.value in s.stages && s.stages[m.id.value] == InResponse(m) && m.id.value in s.calls
    ensures m.id.value in s.outstandings && s.outstandings[m.id.value] == SlotOf(s.calls[m.id.value])
    ensures Proper(services, s.answered, m.id.value, s.calls[m.id.value], m)
  {
    hide HeldInv, OwnInv, Proper, VerdictOn;
  }

  lemma CompletedKeepsCalls(s: State, k: nat, m: Meta, running: Option<nat>)
    requires CallsInv(s.lastId, s.threads, s.calls, s.stages) && !s.destroyed
    requires OutstandingInv(s.destroyed, s.outstandings, s.running, s.threads, s.calls, s.stages)
    requires k in s.stages && s.stages[k] == InResponse(m)
    ensures CallsInv(s.lastId, s.threads, s.calls, s.stages[k := Completed(m)])
    ensures OutstandingInv(s.destroyed, s.outstandings - {k}, running, s.threads, s.calls, s.stages[k := Completed(m)])
  {
  }

  lemma CompletedKeepsNet(s: State, k: nat, m: Meta)
    requires NetInv(s.requests, s.jobs, s.responses, s.calls, s.stages)
    requires k in s.stages && s.stages[k] == InResponse(m) && m.id == Some(k)
    ensures NetInv(s.requests, s.jobs, s.responses - multiset{m}, s.calls, s.stages[k := Completed(m)])
  {
  }

  /** What receiving the answer to call `k` does to the closure and the response object. */
  function Settled(s: State, k: nat, m: Meta): State
    requires k in s.calls
  {
    var c := s.calls[k];
    s.(outstandings := s.outstandings - {k}, responses := s.responses - multiset{m},
       stages := s.stages[k := Completed(m)],
       held := if c.hasResponse then s.held[k := HeldAfter(m)] else s.held,
       running := if c.hasResponse && c.hasDone then Some(k) else s.running,
       ran := if c.hasResponse && c.hasDone then s.ran + multiset{k} else s.ran,
       responsesDeleted := if c.hasResponse && !c.hasDone then s.responsesDeleted + multiset{k} else s.responsesDeleted)
  }

  lemma ReceivedIs(s: State, k: nat, m: Meta)
    requires m.type_ == Some(RESPONSE) && m.id == Some(k) && k in s.calls
    requires k in s.outstandings && s.outstandings[k] == SlotOf(s.calls[k])
    ensures Received(s, m) == Settled(s, k, m)
  {
  }

  lemma SettledKeepsOwn(s: State, k: nat, m: Meta)
    requires OwnInv(s.destroyed, s.running, s.ran, s.closuresDeleted, s.responsesDeleted, s.calls, s.stages)
    requires k in s.calls && k in s.stages && !s.stages[k].Completed? && !s.destroyed && s.running == None
    ensures var t := Settled(s, k, m);
            OwnInv(t.destroyed, t.running, t.ran, t.closuresDeleted, t.responsesDeleted, t.calls, t.stages)
  {
  }

  lemma SettledKeepsHeld(s: State, k: nat, m: Meta)
    requires HeldInv(s.held, s.calls, s.stages)
    requires k in s.calls && k in s.stages && !s.stages[k].Completed?
    ensures var t := Settled(s, k, m); HeldInv(t.held, t.calls, t.stages)
  {
  }

  lemma SettledFrame(s: State, k: nat, m: Meta)
    requires k in s.calls
    ensures var t := Settled(s, k, m);
            && t.lastId == s.lastId && t.threads == s.threads && t.calls == s.calls && t.destroyed == s.destroyed
            && t.outstandings == s.outstandings - {k} && t.stages == s.stages[k := Completed(m)]
            && t.requests == s.requests && t.jobs == s.jobs && t.responses == s.responses - multiset{m}
            && t.answered == s.answered
  {
  }

  lemma ClientReceiveKeeps(services: Services, s: State, m: Meta)
    requires Inv(services, s)
    ensures Inv(services, Step(services, s, ClientReceive(m)))
  {
    if Enabled(services, s, ClientReceive(m)) {
      ResponseInFlight(services, s, m);
      var k := m.id.value;
      hide CallsInv, OutstandingInv, HeldInv, OwnInv, NetInv, AnswerInv, Received, Settled, VerdictOn;
      ReceivedIs(s, k, m);
      SettledFrame(s, k, m);
      SettledKeepsOwn(s, k, m);
      SettledKeepsHeld(s, k, m);
      CompletedKeepsCalls(s, k, m, Settled(s, k, m).running);
      CompletedKeepsNet(s, k, m);
      AnswerKept(services, s.answered, s.answered, s.calls, s.stages, k, Completed(m));
    }
  }

  lemma FinishDoneKeeps(services: Services, s: State)
    requires Inv(services, s)
    ensures Inv(services, Step(services, s, FinishDone))
  {
    hide CallsInv, HeldInv, NetInv, AnswerInv;
  }

  lemma DestroyKeepsOwn(s: State)
    requires CallsInv(s.lastId, s.threads, s.calls, s.stages) && s.threads == map[] && !s.destroyed
    requires OutstandingInv(s.destroyed, s.outstandings, s.running, s.threads, s.calls, s.stages) && s.running == None
    requires OwnInv(s.destroyed, s.running, s.ran, s.closuresDeleted, s.responsesDeleted, s.calls, s.stages)
    ensures var t := Destroyed(s);
            OwnInv(t.destroyed, t.running, t.ran, t.closuresDeleted, t.responsesDeleted, t.calls, t.stages)
  {
  }

  lemma DestroyKeeps(services: Services, s: State)
    requires Inv(services, s)
    ensures Inv(services, Step(services, s, Destroy))
  {
    hide CallsInv, HeldInv, NetInv, AnswerInv, OwnInv;
    if Enabled(services, s, Destroy) {
      DestroyKeepsOwn(s);
    }
  }

  lemma StepKeepsInv(services: Services, s: State, l: Label)
    requires Inv(services, s)
    ensures Inv(services, Step(services, s, l))
  {
    hide Inv, Step;
    match l
    case Allocate(t, c) => AllocateKeeps(services, s, t, c);
    case Insert(t) => InsertKeeps(services, s, t);
    case Send(t) => SendKeeps(services, s, t);
    case ServerReceive(m) => ServerReceiveKeeps(services, s, m);
    case Complete(job, response) => CompleteKeeps(services, s, job, response);
    case ClientReceive(m) => ClientReceiveKeeps(services, s, m);
    case FinishDone => FinishDoneKeeps(services, s);
    case Destroy => DestroyKeeps(services, s);
  }

  lemma {:induction false} RunKeepsInv(services: Services, s: State, ls: seq<Label>)
    requires Inv(services, s)
    ensures Inv(services, Run(services, s, ls))
    decreases ls
  {
    hide Inv, Step;
    if ls != [] {
      StepKeepsInv(services, s, ls[0]);
      RunKeepsInv(services, Step(services, s, ls[0]), ls[1..]);
    }
  }
}
