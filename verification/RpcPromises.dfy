/** What the two ends of an RPC connection promise of every run. */
module RpcPromises {
  import opened Bytes
  import opened RpcMeta
  import opened RpcChannels
  import opened RpcProtocol

  lemma Reachable(services: Services, ls: seq<Label>) returns (s: State)
    ensures s == Run(services, Init(), ls) && Inv(services, s)
  {
    hide Inv;
    InitInv(services);
    RunKeepsInv(services, Init(), ls);
    s := Run(services, Init(), ls);
  }

  /** The message of call `k` has been given to the connection: no thread is still on its way to doing so. */
  ghost predicate Sent(s: State, k: nat) {
    k in s.calls && forall t :: t in s.threads ==> s.threads[t].id != k
  }

  lemma SentStages(services: Services, s: State, k: nat)
    requires Inv(services, s) && Sent(s, k)
    ensures k in s.stages && !s.stages[k].Allocating? && !s.stages[k].Inserting?
  {
    hide OutstandingInv, NetInv, AnswerInv, HeldInv, OwnInv;
  }

  // ---- Correlation ----

  /**
   Whenever a call's response object has been finished with, in particular whenever its closure has run, the object held
   exactly what the service produced for the job of that very call, an answer it may give to that call's request; or it
   was untouched, and that exactly when the server rejects the request.
   */
  lemma Correlation(services: Services, ls: seq<Label>, k: nat)
    ensures var s := Run(services, Init(), ls);
            && (k in s.ran ==> k in s.held)
            && (k in s.held ==>
                  k in s.calls
                  && var c := s.calls[k];
                  && (s.held[k] == Untouched <==> VerdictOn(services, c) != NO_ERROR)
                  && (k in s.answered <==> VerdictOn(services, c) == NO_ERROR)
                  && (k in s.answered ==>
                        && s.held[k] == Holds(s.answered[k])
                        && MayAnswer(services, c.service, c.method_, c.request, s.answered[k])))
  {
    hide CallsInv, OutstandingInv, NetInv, VerdictOn, MayAnswer;
    var s := Reachable(services, ls);
  }

  /** The `i`-th step of the run is the service's answer to the job of call `k`, which is the request of that call. */
  predicate AnswersAt(services: Services, s: State, ls: seq<Label>, i: nat, k: nat, c: Call, response: seq<Byte>) {
    && i < |ls| && ls[i] == Complete(JobOf(k, c), response)
    && Enabled(services, Run(services, s, ls[..i]), ls[i])
  }

  lemma AnswersLater(services: Services, s: State, ls: seq<Label>, i: nat, k: nat, c: Call, response: seq<Byte>)
    requires ls != [] && AnswersAt(services, Step(services, s, ls[0]), ls[1..], i, k, c, response)
    ensures AnswersAt(services, s, ls, i + 1, k, c, response)
  {
    hide Step, Enabled;
    assert ls[..i + 1][0] == ls[0] && ls[..i + 1][1..] == ls[1..][..i];
  }

  /** What is known of a call, and what it was answered, never changes. */
  lemma StepKeepsRecords(services: Services, s: State, l: Label, k: nat)
    requires Inv(services, s)
    ensures var s' := Step(services, s, l);
            && (k in s.calls ==> k in s'.calls && s'.calls[k] == s.calls[k])
            && (k in s.answered ==> k in s'.answered && s'.answered[k] == s.answered[k])
            && (k in s'.answered && k !in s.answered ==>
                  k in s.calls && l == Complete(JobOf(k, s.calls[k]), s'.answered[k]) && Enabled(services, s, l))
  {
    hide Inv, Served, Received, Settled, VerdictOn, MayAnswer;
    match l
    case Allocate(_, _) => FreshId(services, s);
    case Complete(job, response) => CompleteRecords(services, s, job, response, k);
    case ServerReceive(m) => ReceivingRecords(services, s, m);
    case ClientReceive(m) => ReceivingRecords(services, s, m);
    case _ =>
  }

  lemma ReceivingRecords(services: Services, s: State, m: Meta)
    requires Inv(services, s)
    ensures var s' := Step(services, s, ServerReceive(m)); s'.calls == s.calls && s'.answered == s.answered
    ensures var s' := Step(services, s, ClientReceive(m)); s'.calls == s.calls && s'.answered == s.answered
  {
    hide Inv, Step;
    ServingRecords(services, s, m);
    SettlingRecords(services, s, m);
  }

  lemma ServingRecords(services: Services, s: State, m: Meta)
    requires Inv(services, s)
    ensures var s' := Step(services, s, ServerReceive(m)); s'.calls == s.calls && s'.answered == s.answered
  {
    hide Inv, Served, Received, Settled, VerdictOn;
    if m in s.requests {
      RequestIsSent(services, s, m);
      ServedIs(services, s, m.id.value);
    }
  }

  lemma SettlingRecords(services: Services, s: State, m: Meta)
    requires Inv(services, s)
    ensures var s' := Step(services, s, ClientReceive(m)); s'.calls == s.calls && s'.answered == s.answered
  {
    hide Inv, Served, Received, Settled, VerdictOn;
    if Enabled(services, s, ClientReceive(m)) {
      ResponseInFlight(services, s, m);
      ReceivedIs(s, m.id.value, m);
      SettledFrame(s, m.id.value, m);
    }
  }

  lemma CompleteRecords(services: Services, s: State, job: Job, response: seq<Byte>, k: nat)
    requires Inv(services, s)
    ensures var l := Complete(job, response); var s' := Step(services, s, l);
            && s'.calls == s.calls
            && (k in s.answered ==> k in s'.answered && s'.answered[k] == s.answered[k])
            && (k in s'.answered && k !in s.answered ==>
                  k in s.calls && l == Complete(JobOf(k, s.calls[k]), s'.answered[k]) && Enabled(services, s, l))
  {
    hide Inv, VerdictOn, MayAnswer, Answer;
    if Enabled(services, s, Complete(job, response)) {
      JobIsSent(services, s, job);
      UnansweredJob(services, s, job);
    }
  }

  /** A job still in hand has not been answered: no call is answered twice. */
  lemma UnansweredJob(services: Services, s: State, job: Job)
    requires Inv(services, s) && job in s.jobs
    ensures job.id !in s.answered
  {
    hide CallsInv, OutstandingInv, HeldInv, OwnInv;
    JobInHand(services, s, job);
    NotAnsweredYet(services, s, job.id);
  }

  lemma {:induction false} RecordsKept(services: Services, s: State, ls: seq<Label>, k: nat)
    requires Inv(services, s)
    ensures var s' := Run(services, s, ls);
            && (k in s.calls ==> k in s'.calls && s'.calls[k] == s.calls[k])
            && (k in s.answered ==> k in s'.answered && s'.answered[k] == s.answered[k])
    decreases ls
  {
    hide Inv, Step;
    if ls != [] {
      StepKeepsRecords(services, s, ls[0], k);
      StepKeepsInv(services, s, ls[0]);
      RecordsKept(services, Step(services, s, ls[0]), ls[1..], k);
    }
  }

  lemma {:induction false} AnsweredSince(services: Services, s: State, ls: seq<Label>, k: nat) returns (i: nat)
    requires Inv(services, s) && k !in s.answered && k in Run(services, s, ls).answered
    ensures var s' := Run(services, s, ls);
            k in s'.calls && AnswersAt(services, s, ls, i, k, s'.calls[k], s'.answered[k])
    decreases ls
  {
    hide Inv, Step;
    var s1, s' := Step(services, s, ls[0]), Run(services, s, ls);
    StepKeepsRecords(services, s, ls[0], k);
    StepKeepsInv(services, s, ls[0]);
    if k in s1.answered {
      RecordsKept(services, s1, ls[1..], k);
      i := 0;
      assert ls[..0] == [] && Run(services, s, []) == s;
    } else {
      var j := AnsweredSince(services, s1, ls[1..], k);
      AnswersLater(services, s, ls, j, k, s'.calls[k], s'.answered[k]);
      i := j + 1;
    }
  }

  /**
   The same in terms of the run itself: a response object that was filled holds the response given in one of the run's
   steps, in which a service answered the job made of that call's own request.
   */
  lemma HeldComesFromItsJob(services: Services, ls: seq<Label>, k: nat) returns (i: nat)
    requires k in Run(services, Init(), ls).held && Run(services, Init(), ls).held[k] != Untouched
    ensures var s := Run(services, Init(), ls);
            k in s.calls && AnswersAt(services, Init(), ls, i, k, s.calls[k], s.held[k].response)
  {
    hide Inv, Step, AnswersAt, VerdictOn, MayAnswer;
    InitInv(services);
    Correlation(services, ls, k);
    i := AnsweredSince(services, Init(), ls, k);
  }

  /** And there is only one such step: no call is answered twice. */
  lemma {:induction false} AnsweredOnce(services: Services, s: State, ls: seq<Label>, i: nat, j: nat, k: nat,
                                        c: Call, x: seq<Byte>, y: seq<Byte>)
    requires Inv(services, s)
    requires AnswersAt(services, s, ls, i, k, c, x) && AnswersAt(services, s, ls, j, k, c, y)
    ensures i == j && k !in s.answered
    decreases i < j
  {
    hide Inv, Step, MayAnswer;
    if i < j {
      AnsweredOnce(services, s, ls, j, i, k, c, y, x);
    } else {
      RunKeepsInv(services, s, ls[..i]);
      UnansweredJob(services, Run(services, s, ls[..i]), JobOf(k, c));
      if k in s.answered {
        RecordsKept(services, s, ls[..i], k);
      }
      if j < i {
        var s1 := Run(services, s, ls[..j]);
        RunKeepsInv(services, s, ls[..j]);
        CompletingRecords(services, s1, JobOf(k, c), y);
        StepKeepsInv(services, s1, ls[j]);
        assert ls[..i][..j] == ls[..j] && ls[..i][j + 1..] == ls[j + 1..i];
        RunSplit(services, s, ls[..i], j);
        RecordsKept(services, Step(services, s1, ls[j]), ls[j + 1..i], k);
      }
    }
  }

  lemma CompletingRecords(services: Services, s: State, job: Job, response: seq<Byte>)
    requires Enabled(services, s, Complete(job, response))
    ensures job.id in Step(services, s, Complete(job, response)).answered
  {
  }

  lemma {:induction false} RunSplit(services: Services, s: State, ls: seq<Label>, j: nat)
    requires j < |ls|
    ensures Run(services, s, ls) == Run(services, Step(services, Run(services, s, ls[..j]), ls[j]), ls[j + 1..])
    decreases j
  {
    hide Step;
    if j == 0 {
      assert ls[..0] == [] && Run(services, s, []) == s;
    } else {
      assert ls[..j][1..] == ls[1..][..j - 1] && ls[1..][j..] == ls[j + 1..];
      RunSplit(services, Step(services, s, ls[0]), ls[1..], j - 1);
    }
  }

  // ---- Conservation ----

  ghost predicate Answering(responses: multiset<Meta>, k: nat) {
    exists m :: m in responses && m.id == Some(k)
  }

  function Count(b: bool): nat {
    if b then 1 else 0
  }

  /**
   A call that was sent is in exactly one place: its request is on the way, or a service has it, or its response is on
   the way, or its response was received, which while the channel lives means that its entry is gone.
   */
  lemma OnePlace(services: Services, ls: seq<Label>, k: nat)
    requires Sent(Run(services, Init(), ls), k)
    ensures var s := Run(services, Init(), ls); var c := s.calls[k];
            && s.requests[Request(k, c)] + s.jobs[JobOf(k, c)] + Count(Answering(s.responses, k))
               + Count(IsCompleted(s.stages, k)) == 1
            && (!s.destroyed ==> (IsCompleted(s.stages, k) <==> k !in s.outstandings))
            && (forall m, n :: m in s.responses && n in s.responses && m.id == n.id == Some(k) ==>
                  m == n && s.responses[m] == 1)
  {
    hide CallsInv, AnswerInv, HeldInv, OwnInv;
    var s := Reachable(services, ls);
    SentStages(services, s, k);
    if s.stages[k].InResponse? {
      assert k in s.stages;
      ResponseHasId(services, s, k);
    }
  }

  lemma ResponseHasId(services: Services, s: State, k: nat)
    requires Inv(services, s) && k in s.stages && s.stages[k].InResponse?
    ensures s.stages[k].m.id == Some(k) && s.stages[k].m in s.responses && s.stages[k].m.type_ == Some(RESPONSE)
  {
    hide OutstandingInv, HeldInv, OwnInv, VerdictOn, MayAnswer;
    assert Proper(services, s.answered, k, s.calls[k], s.stages[k].m);
  }

  /** Nothing is in flight that is not some call's: no invented, altered or repeated request, job or response. */
  lemma NothingElseInFlight(services: Services, ls: seq<Label>, m: Meta, job: Job)
    ensures var s := Run(services, Init(), ls);
            && s.requests[m] <= 1 && s.jobs[job] <= 1 && s.responses[m] <= 1
            && (m in s.requests ==> m.id.Some? && Sent(s, m.id.value) && Asks(m, m.id.value, s.calls[m.id.value]))
            && (job in s.jobs ==>
                  && Sent(s, job.id)
                  && var c := s.calls[job.id];
                  job.service == c.service && job.method_ == c.method_ && job.request == c.request)
            && (m in s.responses ==>
                  && m.id.Some? && Sent(s, m.id.value)
                  && var k := m.id.value; var v := VerdictOn(services, s.calls[k]);
                  && (v != 0 ==> Answers(m, k, None, Some(v)) && k !in s.answered)
                  && (v == 0 ==> k in s.answered && Answers(m, k, Some(s.answered[k]), None)))
  {
    hide Inv, Sent, VerdictOn, MayAnswer;
    var s := Reachable(services, ls);
    OneEach(services, s, m, job);
    if m in s.requests {
      RequestIsSent(services, s, m);
    }
    if job in s.jobs {
      JobIsSent(services, s, job);
    }
    if m in s.responses {
      ResponseIsSent(services, s, m);
    }
  }

  lemma OneEach(services: Services, s: State, m: Meta, job: Job)
    requires Inv(services, s)
    ensures s.requests[m] <= 1 && s.jobs[job] <= 1 && s.responses[m] <= 1
  {
    hide CallsInv, OutstandingInv, HeldInv, OwnInv, AnswerInv;
  }

  lemma RequestIsSent(services: Services, s: State, m: Meta)
    requires Inv(services, s) && m in s.requests
    ensures IsRequest(s.calls, s.stages, m) && Sent(s, m.id.value)
  {
    hide OutstandingInv, HeldInv, OwnInv, AnswerInv;
    RequestInFlight(s, m);
  }

  lemma JobIsSent(services: Services, s: State, job: Job)
    requires Inv(services, s) && job in s.jobs
    ensures IsJob(s.calls, s.stages, job) && Sent(s, job.id) && VerdictOn(services, s.calls[job.id]) == NO_ERROR
  {
    hide OutstandingInv, HeldInv, OwnInv, AnswerInv, VerdictOn;
    JobInHand(services, s, job);
  }

  lemma ResponseIsSent(services: Services, s: State, m: Meta)
    requires Inv(services, s) && m in s.responses
    ensures m.id.Some? && Sent(s, m.id.value) && Proper(services, s.answered, m.id.value, s.calls[m.id.value], m)
  {
    hide OutstandingInv, HeldInv, OwnInv, Proper, VerdictOn;
  }

  /**
   The table of outstanding calls is exact: a call has its entry from the moment its thread makes it until its response
   is received.  Since that moment comes before the message is sent, no genuine response ever fails to find its entry.
   */
  lemma OutstandingExact(services: Services, ls: seq<Label>, k: nat)
    requires !Run(services, Init(), ls).destroyed
    ensures var s := Run(services, Init(), ls);
            && (k in s.outstandings <==> k in s.stages && Waiting(s.stages[k]))
            && (k in s.outstandings ==> k in s.calls && s.outstandings[k] == SlotOf(s.calls[k]))
            && (forall m :: m in s.responses && m.id == Some(k) ==> k in s.outstandings)
  {
    hide HeldInv, OwnInv, AnswerInv;
    var s := Reachable(services, ls);
  }

  /** A response nobody waits for leaves the calling channel as it was, in any state. */
  lemma StrayChangesNothing(s: State, m: Meta)
    requires m.type_ == Some(RESPONSE) && Or(m.id, 0) !in s.outstandings
    ensures Received(s, m) == s.(responses := s.responses - multiset{m})
  {
  }

  // ---- Ownership ----

  /**
   The closure of a call is run at most once or deleted at most once, and never both; the response object is deleted at
   most once.  Once the channel is destroyed every response object has been deleted, and every closure has been run or
   deleted, except that of a call without a response object whose response did arrive: that one leaks.
   */
  lemma LinearOwnership(services: Services, ls: seq<Label>, k: nat)
    requires k in Run(services, Init(), ls).calls
    ensures var s := Run(services, Init(), ls); var c := s.calls[k];
            && s.ran[k] + s.closuresDeleted[k] <= Count(c.hasDone) && s.responsesDeleted[k] <= Count(c.hasResponse)
            && (s.destroyed ==>
                  && s.responsesDeleted[k] == Count(c.hasResponse)
                  && (s.ran[k] + s.closuresDeleted[k] == Count(c.hasDone) <==>
                        !(c.hasDone && !c.hasResponse && IsCompleted(s.stages, k))))
  {
    hide CallsInv, NetInv, AnswerInv, HeldInv;
    var s := Reachable(services, ls);
  }

  /** The one call of a run: no response object, and nobody serves it. */
  function Unwanted(): Call {
    Call([], [], [], false, true)
  }

  /** That call on its way. */
  function Asked(): State {
    Init().(lastId := 1, calls := map[1 := Unwanted()], outstandings := map[1 := SlotOf(Unwanted())],
            requests := multiset{Request(1, Unwanted())}, stages := map[1 := InRequest])
  }

  lemma Asking()
    ensures Run(None, Init(), [Allocate(1, Unwanted()), Insert(1), Send(1)]) == Asked()
  {
    hide Step, Request, Unwanted;
    CallSteps(None, Init(), 1, Unwanted());
    RunThree(None, Init(), [Allocate(1, Unwanted()), Insert(1), Send(1)]);
  }

  /** The refusal on its way back, and received. */
  function Refused(): State {
    var m := ErrorAnswer(1, NO_SERVICE);
    Asked().(requests := multiset{}, responses := multiset{m}, stages := map[1 := InResponse(m)])
  }

  function Erased(): State {
    Refused().(outstandings := map[], responses := multiset{},
               stages := map[1 := Completed(ErrorAnswer(1, NO_SERVICE))])
  }

  lemma Refusing()
    ensures Step(None, Asked(), ServerReceive(Request(1, Unwanted()))) == Refused()
  {
    hide Served, React, Request;
    ServedIs(None, Asked(), 1);
    assert map[1 := InRequest][1 := InResponse(ErrorAnswer(1, NO_SERVICE))]
        == map[1 := InResponse(ErrorAnswer(1, NO_SERVICE))];
  }

  lemma Erasing()
    ensures Step(None, Refused(), ClientReceive(ErrorAnswer(1, NO_SERVICE))) == Erased()
  {
    hide Received, React, Request;
    ReceivedIs(Refused(), 1, ErrorAnswer(1, NO_SERVICE));
    assert map[1 := SlotOf(Unwanted())] - {1} == map[];
  }

  lemma DestroyingNothing(s: State)
    requires s.outstandings == map[] && Enabled(None, s, Destroy)
    ensures var s' := Step(None, s, Destroy);
            s'.destroyed && s'.calls == s.calls && s'.ran == s.ran && s'.closuresDeleted == s.closuresDeleted
  {
  }

  /** Such a leak: a call without a response object, rejected, and then the channel destroyed. */
  lemma ClosureLeaks() returns (ls: seq<Label>)
    ensures var s := Run(None, Init(), ls);
            s.destroyed && 1 in s.calls && s.calls[1].hasDone && s.ran[1] + s.closuresDeleted[1] == 0
  {
    hide Run, Step;
    var ask := [Allocate(1, Unwanted()), Insert(1), Send(1)];
    var refuse := [ServerReceive(Request(1, Unwanted())), ClientReceive(ErrorAnswer(1, NO_SERVICE)), Destroy];
    ls := ask + refuse;
    RunAppend(None, Init(), ask, refuse);
    Asking();
    RunThree(None, Asked(), refuse);
    Refusing();
    Erasing();
    DestroyingNothing(Erased());
  }

  lemma RunThree(services: Services, s: State, ls: seq<Label>)
    requires |ls| == 3
    ensures Run(services, s, ls) == Step(services, Step(services, Step(services, s, ls[0]), ls[1]), ls[2])
  {
    hide Step;
    var s1 := Step(services, s, ls[0]);
    var s2 := Step(services, s1, ls[1]);
    var s3 := Step(services, s2, ls[2]);
    assert ls[1..][1..] == ls[2..] && ls[2..][1..] == [];
    assert Run(services, s3, []) == s3;
    assert Run(services, s2, ls[2..]) == s3;
    assert Run(services, s1, ls[1..]) == s3;
  }

  lemma {:induction false} RunAppend(services: Services, s: State, xs: seq<Label>, ys: seq<Label>)
    ensures Run(services, s, xs + ys) == Run(services, Run(services, s, xs), ys)
    decreases xs
  {
    hide Step;
    if xs == [] {
      assert xs + ys == ys;
    } else {
      assert (xs + ys)[1..] == xs[1..] + ys;
      RunAppend(services, Step(services, s, xs[0]), xs[1..], ys);
    }
  }

  // ---- Completion ----

  ghost predicate Quiet(s: State) {
    && s.threads == map[] && s.running == None && !s.destroyed
    && s.requests == multiset{} && s.jobs == multiset{} && s.responses == multiset{}
  }

  /**
   When nothing is going on, every call has been answered; its closure, if there is a response object, has run once, and
   the response object has been filled or left, and deleted once.
   */
  lemma QuietMeansDone(services: Services, ls: seq<Label>, k: nat)
    requires Quiet(Run(services, Init(), ls))
    ensures var s := Run(services, Init(), ls);
            && s.outstandings == map[]
            && (k in s.calls ==>
                  && IsCompleted(s.stages, k) && (k in s.held <==> s.calls[k].hasResponse)
                  && s.ran[k] == Count(s.calls[k].hasResponse && s.calls[k].hasDone)
                  && s.responsesDeleted[k] == Count(s.calls[k].hasResponse))
  {
    var s := Reachable(services, ls);
    forall id | id in s.outstandings ensures false {
      StagesWhenQuiet(services, s, id);
    }
    if k in s.calls {
      StagesWhenQuiet(services, s, k);
    }
    hide CallsInv, NetInv, AnswerInv;
  }

  lemma StagesWhenQuiet(services: Services, s: State, k: nat)
    requires Inv(services, s) && Quiet(s) && (k in s.calls || k in s.outstandings)
    ensures k in s.calls && IsCompleted(s.stages, k) && k !in s.outstandings
  {
    hide HeldInv, OwnInv, AnswerInv;
    assert k in s.calls && k in s.stages;
    var requests, jobs := s.requests[Request(k, s.calls[k])], s.jobs[JobOf(k, s.calls[k])];
    if s.stages[k].InResponse? {
      ResponseHasId(services, s, k);
    }
  }

  /** Every service answers every request it accepts. */
  ghost predicate AlwaysAnswers(services: Services) {
    forall service, method_, request :: Verdict(services, service, method_, request) == NO_ERROR ==>
      exists response :: MayAnswer(services, service, method_, request, response)
  }

  function Entering(threads: map<nat, Local>): set<nat> {
    set t | t in threads && threads[t].Allocated?
  }

  /** What still has to happen before every call made so far is finished. */
  function Work(s: State): nat {
    |Entering(s.threads)| + 5 * |s.threads| + 4 * |s.requests| + 3 * |s.jobs| + 2 * |s.responses|
    + Count(s.running.Some?)
  }

  /** A step other than a new call or destruction. */
  predicate GoesOn(l: Label) {
    !l.Allocate? && !l.Destroy?
  }

  lemma ThreadSteps(threads: map<nat, Local>, t: nat, local: Local)
    requires t in threads
    ensures threads[t].Allocated? && local.Inserted? ==>
              && |threads[t := local]| == |threads|
              && |Entering(threads[t := local])| == |Entering(threads)| - 1
    ensures threads[t].Inserted? ==>
              |threads - {t}| == |threads| - 1 && |Entering(threads - {t})| == |Entering(threads)|
  {
    if threads[t].Allocated? {
      if local.Inserted? {
        assert threads[t := local].Keys == threads.Keys;
        assert Entering(threads[t := local]) == Entering(threads) - {t};
      }
    } else {
      assert (threads - {t}).Keys == threads.Keys - {t};
      assert Entering(threads - {t}) == Entering(threads);
    }
  }

  /** Every step that does anything, except a new call or destruction, is progress: there is less left to do. */
  lemma StepShrinksWork(services: Services, s: State, l: Label)
    requires Inv(services, s) && GoesOn(l) && Enabled(services, s, l)
    ensures Work(Step(services, s, l)) < Work(s)
  {
    hide Inv, Verdict, Served, Received, Entering, MayAnswer;
    match l
    case Insert(t) => ThreadSteps(s.threads, t, Inserted(s.threads[t].id, s.threads[t].call));
    case Send(t) => ThreadSteps(s.threads, t, s.threads[t]);
    case ServerReceive(m) =>
      RequestIsSent(services, s, m);
      ServedShrinks(services, s, m.id.value);
    case Complete(job, response) =>
      assert |s.jobs - multiset{job}| == |s.jobs| - 1;
    case ClientReceive(m) =>
      ResponseInFlight(services, s, m);
      ReceivedShrinks(s, m.id.value, m);
    case FinishDone =>
  }

  lemma ReceivedShrinks(s: State, k: nat, m: Meta)
    requires m.type_ == Some(RESPONSE) && m.id == Some(k) && k in s.calls && m in s.responses && s.running.None?
    requires k in s.outstandings && s.outstandings[k] == SlotOf(s.calls[k])
    ensures Work(Received(s, m)) < Work(s)
  {
    hide Received, Entering;
    ReceivedIs(s, k, m);
    assert |s.responses - multiset{m}| == |s.responses| - 1;
  }

  lemma ServedShrinks(services: Services, s: State, k: nat)
    requires k in s.calls && k in s.stages && Request(k, s.calls[k]) in s.requests
    ensures Work(Served(services, s, Request(k, s.calls[k]))) < Work(s)
  {
    hide Served, VerdictOn, Request, JobOf, Entering;
    ServedIs(services, s, k);
    var c := s.calls[k];
    assert |s.requests - multiset{Request(k, c)}| == |s.requests| - 1;
    assert |s.jobs + multiset{JobOf(k, c)}| == |s.jobs| + 1;
  }

  /** With services that always answer, some step is possible as long as anything is left to do. */
  lemma NeverStuck(services: Services, s: State) returns (l: Label)
    requires Inv(services, s) && AlwaysAnswers(services) && !s.destroyed && Work(s) > 0
    ensures GoesOn(l) && Enabled(services, s, l)
  {
    hide Inv, Verdict, MayAnswer;
    if s.threads != map[] {
      var t :| t in s.threads;
      l := if s.threads[t].Allocated? then Insert(t) else Send(t);
    } else if s.running.Some? {
      l := FinishDone;
    } else if s.requests != multiset{} {
      var m :| m in s.requests;
      l := ServerReceive(m);
    } else if s.jobs != multiset{} {
      var job :| job in s.jobs;
      JobIsSent(services, s, job);
      var response :| MayAnswer(services, job.service, job.method_, job.request, response);
      l := Complete(job, response);
    } else {
      assert Entering(s.threads) == {};
      assert s.responses != multiset{};
      var m :| m in s.responses;
      l := ClientReceive(m);
    }
  }

  lemma FreshId(services: Services, s: State)
    requires Inv(services, s)
    ensures s.lastId + 1 !in s.calls && (s.running.Some? ==> !s.destroyed)
  {
    hide NetInv, AnswerInv, HeldInv, OwnInv;
  }

  /** A closure may itself make a call: the call gets a new id and its own entry, and the closure is still running. */
  lemma CallFromClosure(services: Services, ls: seq<Label>, c: Call)
    requires var s := Run(services, Init(), ls); s.running.Some? && LOOP !in s.threads && s.lastId < MAX_ID
    ensures var s := Run(services, Init(), ls); var k := s.lastId + 1;
            var s' := Step(services, Step(services, Step(services, s, Allocate(LOOP, c)), Insert(LOOP)), Send(LOOP));
            && k !in s.calls && s'.running == s.running && s'.calls == s.calls[k := c]
            && s'.outstandings == s.outstandings[k := SlotOf(c)] && s'.requests == s.requests + multiset{Request(k, c)}
            && s'.threads == s.threads
  {
    hide Inv, Step;
    var s := Reachable(services, ls);
    FreshId(services, s);
    CallSteps(services, s, LOOP, c);
  }

  lemma Overwrite<V>(m: map<nat, V>, k: nat, a: V, b: V)
    ensures m[k := a][k := b] == m[k := b]
    ensures k !in m ==> m[k := b] - {k} == m
  {
  }

  lemma CallSteps(services: Services, s: State, t: nat, c: Call)
    requires t !in s.threads && !s.destroyed && s.lastId < MAX_ID
    ensures var k := s.lastId + 1;
            Step(services, Step(services, Step(services, s, Allocate(t, c)), Insert(t)), Send(t)) ==
            s.(lastId := k, calls := s.calls[k := c], outstandings := s.outstandings[k := SlotOf(c)],
               requests := s.requests + multiset{Request(k, c)}, stages := s.stages[k := InRequest])
  {
    hide Step;
    var k := s.lastId + 1;
    var s1 := s.(lastId := k, calls := s.calls[k := c], stages := s.stages[k := Allocating(t)],
                 threads := s.threads[t := Allocated(k, c)]);
    var s2 := s1.(stages := s.stages[k := Inserting(t)], threads := s.threads[t := Inserted(k, c)],
                  outstandings := s.outstandings[k := SlotOf(c)]);
    var s3 := s2.(stages := s.stages[k := InRequest], threads := s.threads,
                  requests := s.requests + multiset{Request(k, c)});
    Overwrite(s.threads, t, Allocated(k, c), Inserted(k, c));
    Overwrite(s.stages, k, Allocating(t), Inserting(t));
    Overwrite(s.stages, k, Inserting(t), InRequest);
    AllocateIs(services, s, s1, t, c);
    InsertIs(services, s1, s2, t);
    SendIs(services, s2, s3, t);
  }

  lemma AllocateIs(services: Services, s: State, s': State, t: nat, c: Call)
    requires t !in s.threads && !s.destroyed && s.lastId < MAX_ID
    requires var k := s.lastId + 1;
             s' == s.(lastId := k, calls := s.calls[k := c], stages := s.stages[k := Allocating(t)],
                      threads := s.threads[t := Allocated(k, c)])
    ensures Step(services, s, Allocate(t, c)) == s'
  {
  }

  lemma InsertIs(services: Services, s: State, s': State, t: nat)
    requires t in s.threads && s.threads[t].Allocated?
    requires s' == s.(stages := s'.stages, threads := s'.threads, outstandings := s'.outstandings)
    requires var k, c := s.threads[t].id, s.threads[t].call;
             && s'.stages == s.stages[k := Inserting(t)] && s'.threads == s.threads[t := Inserted(k, c)]
             && s'.outstandings == s.outstandings[k := SlotOf(c)]
    ensures Step(services, s, Insert(t)) == s'
  {
  }

  lemma SendIs(services: Services, s: State, s': State, t: nat)
    requires t in s.threads && s.threads[t].Inserted?
    requires s' == s.(stages := s'.stages, threads := s'.threads, requests := s'.requests)
    requires var k, c := s.threads[t].id, s.threads[t].call;
             && s'.stages == s.stages[k := InRequest] && s'.threads == s.threads - {t}
             && s'.requests == s.requests + multiset{Request(k, c)}
    ensures Step(services, s, Send(t)) == s'
  {
  }
}
