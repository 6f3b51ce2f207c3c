/**
 Calls over two byte streams.  A message is framed, handed to the connection by whatever thread sends it, written in
 whatever portions the socket takes, delivered in whatever chunks the network makes, and cut out of the receiver's
 buffer again.  This machine refines the one of `RpcProtocol`, so all that is proved there holds of the bytes too.
 */
module EndToEnd {
  import opened Bytes
  import opened RpcMeta
  import opened RpcChannels
  import opened Codec
  import opened Wire
  import Adler
  import C = Connections
  import P = RpcProtocol
  import Q = RpcPromises

  /** One direction of the connection. */
  datatype Pipe = Pipe(
    queued: seq<Meta>,    // frames handed over by other threads, waiting in the sender's event loop
    conn: C.Conn,         // the sender's connection
    taken: nat,           // how much of what the socket accepted has been delivered
    inBuf: seq<Byte>,     // the receiver's input buffer
    due: seq<Meta>)       // history: messages written and not yet cut out again

  datatype State = State(core: P.State, up: Pipe, down: Pipe, failed: bool)

  datatype Direction = Up | Down

  /** Wherever the system offers a number of bytes, `n` is what it does, as far as there are that many. */
  datatype Label =
    | Allocate(thread: nat, call: Call) | Insert(thread: nat) | Send(thread: nat, n: nat)
    | Complete(job: Job, response: seq<Byte>, onLoop: bool, n: nat)
    | RunQueued(dir: Direction, n: nat) | Writable(dir: Direction, n: nat) | Deliver(dir: Direction, n: nat)
    | ServerTurn(n: nat) | ClientTurn   // one turn of the receive loop
    | FinishDone | Destroy

  function EmptyPipe(): Pipe {
    Pipe([], C.Opened(), 0, [], [])
  }

  function Init(): State {
    State(P.Init(), EmptyPipe(), EmptyPipe(), false)
  }

  function Min(a: nat, b: nat): nat {
    if a < b then a else b
  }

  /** `send` on the loop thread. */
  function SendNow(p: Pipe, m: Meta, n: nat): Pipe {
    var frame := Encode(TAG, m);
    p.(conn := C.SendInLoop(p.conn, frame, Min(n, |frame|)), due := p.due + [m])
  }

  /** `send` on any thread. */
  function SendFrom(p: Pipe, m: Meta, onLoop: bool, n: nat): Pipe {
    if onLoop then SendNow(p, m, n) else p.(queued := p.queued + [m])
  }

  function RunOne(p: Pipe, n: nat): Pipe {
    if p.queued == [] then p else SendNow(p.(queued := p.queued[1..]), p.queued[0], n)
  }

  function Write(p: Pipe, n: nat): Pipe {
    p.(conn := C.HandleWrite(p.conn, Min(n, |p.conn.outBuf|)))
  }

  function OnWire(p: Pipe): seq<Byte> {
    if p.taken <= |p.conn.accepted| then p.conn.accepted[p.taken..] else []
  }

  function Arrive(p: Pipe, n: nat): Pipe {
    var k := Min(n, |OnWire(p)|);
    p.(inBuf := p.inBuf + OnWire(p)[..k], taken := p.taken + k)
  }

  function Cut(p: Pipe, rest: seq<Byte>): Pipe {
    p.(inBuf := rest, due := if p.due == [] then [] else p.due[1..])
  }

  function On(s: State, dir: Direction, f: Pipe -> Pipe): State {
    match dir
    case Up => s.(up := f(s.up))
    case Down => s.(down := f(s.down))
  }

  function ServerTakes(services: Services, s: State, m: Meta, rest: seq<Byte>, n: nat): State {
    var effect := React(map[], services, m).1;
    s.(core := P.Served(services, s.core, m), up := Cut(s.up, rest),
       down := if effect.Replied? then SendNow(s.down, effect.message, n) else s.down)
  }

  predicate LoopFree(core: P.State) {
    !core.destroyed && core.running.None? && P.LOOP !in core.threads
  }

  /** After a codec error the process is gone. */
  function Step(services: Services, s: State, l: Label): State {
    if s.failed then s
    else
      match l
      case Allocate(t, c) => s.(core := P.Step(services, s.core, P.Allocate(t, c)))
      case Insert(t) => s.(core := P.Step(services, s.core, P.Insert(t)))
      case Send(t, n) =>
        if !P.Enabled(services, s.core, P.Send(t)) then s
        else
          var local := s.core.threads[t];
          s.(core := P.Step(services, s.core, P.Send(t)),
             up := SendFrom(s.up, Request(local.id, local.call), t == P.LOOP, n))
      case Complete(job, response, onLoop, n) =>
        if !P.Enabled(services, s.core, P.Complete(job, response)) then s
        else
          s.(core := P.Step(services, s.core, P.Complete(job, response)),
             down := SendFrom(s.down, Answer(job.id, response), onLoop, n))
      case RunQueued(dir, n) => On(s, dir, p => RunOne(p, n))
      case Writable(dir, n) => On(s, dir, p => Write(p, n))
      case Deliver(dir, n) => On(s, dir, p => Arrive(p, n))
      case ServerTurn(n) =>
        (match NextFrame(TAG, s.up.inBuf)
         case Wait => s
         case Fail(_) => s.(failed := true)
         case Deliver(m, rest) => ServerTakes(services, s, m, rest, n))
      case ClientTurn =>
        if !LoopFree(s.core) then s
        else
          (match NextFrame(TAG, s.down.inBuf)
           case Wait => s
           case Fail(_) => s.(failed := true)
           case Deliver(m, rest) => s.(core := P.Received(s.core, m), down := Cut(s.down, rest)))
      case FinishDone => s.(core := P.Step(services, s.core, P.FinishDone))
      case Destroy => s.(core := P.Step(services, s.core, P.Destroy))
  }

  function Run(services: Services, s: State, ls: seq<Label>): State
    decreases ls
  {
    if ls == [] then s else Run(services, Step(services, s, ls[0]), ls[1..])
  }

  /** What callers and services have to see to: no message longer than the receiver accepts. */
  predicate Fits(s: State, l: Label) {
    match l
    case Allocate(_, c) => Sendable(TAG, Request(s.core.lastId + 1, c))
    case Complete(job, response, _, _) => Sendable(TAG, Answer(job.id, response))
    case _ => true
  }

  predicate AllFit(services: Services, s: State, ls: seq<Label>)
    decreases ls
  {
    ls == [] || (Fits(s, ls[0]) && AllFit(services, Step(services, s, ls[0]), ls[1..]))
  }

  // ---- Pipes ----

  ghost predicate PipeInv(p: Pipe) {
    && p.taken <= |p.conn.accepted| && C.Inv(p.conn) && p.conn.channel.index == C.Added
    && AllSendable(TAG, p.due) && AllSendable(TAG, p.queued)
    && p.inBuf + (OnWire(p) + p.conn.outBuf) == Stream(TAG, p.due)
  }

  function InFlight(p: Pipe): multiset<Meta> {
    multiset(p.due) + multiset(p.queued)
  }

  lemma {:induction false} StreamAppend(tag: seq<Byte>, ms: seq<Meta>, m: Meta)
    ensures Stream(tag, ms + [m]) == Stream(tag, ms) + Encode(tag, m)
  {
    hide Encode;
    if ms == [] {
      assert ms + [m] == [m] && [m][1..] == [];
      assert Stream(tag, []) == [];
    } else {
      assert (ms + [m])[1..] == ms[1..] + [m];
      StreamAppend(tag, ms[1..], m);
    }
  }

  lemma SendPrefix(c: C.Conn, message: seq<Byte>, n: nat)
    requires n <= |message|
    ensures var c' := C.SendInLoop(c, message, n);
            && c.accepted <= c'.accepted && c'.accepted + c'.outBuf == c.accepted + c.outBuf + message
  {
    hide C.Channel.EnableWriting, C.Complete;
    var c' := C.SendInLoop(c, message, n);
    var k := if c.outBuf == [] then n else 0;
    CompleteKeepsBytes(c.(accepted := c.accepted + message[..k], sent := c.sent + [message], outBuf := []));
    assert message == message[..k] + message[k..];
    if c.outBuf == [] && k == |message| {
      assert message[..k] == message;
    } else {
      assert c'.accepted == c.accepted + message[..k];
    }
  }

  lemma CompleteKeepsBytes(c: C.Conn)
    ensures C.Complete(c).accepted == c.accepted && C.Complete(c).outBuf == c.outBuf
  {
  }

  lemma WritePrefix(c: C.Conn, n: nat)
    requires n <= |c.outBuf|
    ensures var c' := C.HandleWrite(c, n);
            && c.accepted <= c'.accepted && c'.accepted + c'.outBuf == c.accepted + c.outBuf
  {
    assert c.outBuf == c.outBuf[..n] + c.outBuf[n..];
    assert n == |c.outBuf| ==> c.outBuf[n..] == [];
  }

  /** Sending and writing leave the connection registered, and its interest in writability right. */
  lemma StaysOpen(c: C.Conn, message: seq<Byte>, n: nat, k: nat)
    requires C.Inv(c) && c.channel.index == C.Added && n <= |message| && k <= |c.outBuf|
    ensures var c' := C.SendInLoop(c, message, n); C.Inv(c') && c'.channel.index == C.Added
    ensures var c' := C.HandleWrite(c, k); C.Inv(c') && c'.channel.index == C.Added
  {
    C.SendKeepsInv(c, message, n);
    C.WriteKeepsInv(c, k);
    hide C.Inv;
  }

  /** What is on its way past the receiver's buffer, in terms of everything ever written. */
  lemma Ahead(p: Pipe)
    requires p.taken <= |p.conn.accepted|
    ensures OnWire(p) + p.conn.outBuf == (p.conn.accepted + p.conn.outBuf)[p.taken..]
  {
  }

  lemma Extend(before: seq<Byte>, all: seq<Byte>, taken: nat, frame: seq<Byte>)
    requires taken <= |all|
    ensures before + (all + frame)[taken..] == before + all[taken..] + frame
  {
  }

  lemma SendNowBytes(p: Pipe, m: Meta, n: nat)
    requires p.taken <= |p.conn.accepted|
    ensures var p' := SendNow(p, m, n);
            && p'.taken <= |p'.conn.accepted|
            && p'.inBuf + (OnWire(p') + p'.conn.outBuf) == p.inBuf + (OnWire(p) + p.conn.outBuf) + Encode(TAG, m)
  {
    hide Encode, C.SendInLoop, OnWire;
    var p' := SendNow(p, m, n);
    var frame := Encode(TAG, m);
    SendPrefix(p.conn, frame, Min(n, |frame|));
    Ahead(p);
    Ahead(p');
    Extend(p.inBuf, p.conn.accepted + p.conn.outBuf, p.taken, frame);
  }

  lemma SendNowKeeps(p: Pipe, m: Meta, n: nat)
    requires PipeInv(p) && Sendable(TAG, m)
    ensures PipeInv(SendNow(p, m, n)) && InFlight(SendNow(p, m, n)) == InFlight(p) + multiset{m}
  {
    hide Encode, Stream, C.SendInLoop, Sendable, OnWire, C.Inv;
    SendNowBytes(p, m, n);
    StaysOpen(p.conn, Encode(TAG, m), Min(n, |Encode(TAG, m)|), 0);
    StreamAppend(TAG, p.due, m);
  }

  lemma RunOneKeeps(p: Pipe, n: nat)
    requires PipeInv(p)
    ensures PipeInv(RunOne(p, n)) && InFlight(RunOne(p, n)) == InFlight(p)
  {
    hide Stream, Sendable, SendNow;
    if p.queued != [] {
      assert p.queued == [p.queued[0]] + p.queued[1..];
      SendNowKeeps(p.(queued := p.queued[1..]), p.queued[0], n);
    }
  }

  lemma SendFromKeeps(p: Pipe, m: Meta, onLoop: bool, n: nat)
    requires PipeInv(p) && Sendable(TAG, m)
    ensures PipeInv(SendFrom(p, m, onLoop, n)) && InFlight(SendFrom(p, m, onLoop, n)) == InFlight(p) + multiset{m}
  {
    hide Stream, Sendable, SendNow;
    if onLoop {
      SendNowKeeps(p, m, n);
    }
  }

  lemma WriteKeeps(p: Pipe, n: nat)
    requires PipeInv(p)
    ensures PipeInv(Write(p, n)) && InFlight(Write(p, n)) == InFlight(p)
  {
    hide Stream, AllSendable, C.HandleWrite, C.Inv;
    WritePrefix(p.conn, Min(n, |p.conn.outBuf|));
    StaysOpen(p.conn, [], 0, Min(n, |p.conn.outBuf|));
    Ahead(p);
    Ahead(Write(p, n));
  }

  lemma Regroup(before: seq<Byte>, w: seq<Byte>, k: nat, after: seq<Byte>)
    requires k <= |w|
    ensures before + w[..k] + (w[k..] + after) == before + (w + after)
  {
    assert w == w[..k] + w[k..];
  }

  lemma ArriveKeeps(p: Pipe, n: nat)
    requires PipeInv(p)
    ensures PipeInv(Arrive(p, n)) && InFlight(Arrive(p, n)) == InFlight(p)
  {
    hide Stream, AllSendable, Min;
    var w := OnWire(p);
    var k := Min(n, |w|);
    MinBound(n, |w|);
    assert OnWire(Arrive(p, n)) == w[k..];
    Regroup(p.inBuf, w, k, p.conn.outBuf);
  }

  lemma MinBound(a: nat, b: nat)
    ensures Min(a, b) <= b
  {
  }

  /** The receive loop never meets an error, and cuts out exactly the message that is due. */
  lemma TurnKeeps(p: Pipe)
    requires PipeInv(p)
    ensures var turn := NextFrame(TAG, p.inBuf);
            && !turn.Fail?
            && (turn.Deliver? ==>
                  && turn.message in InFlight(p) && Sendable(TAG, turn.message) && PipeInv(Cut(p, turn.rest))
                  && InFlight(Cut(p, turn.rest)) == InFlight(p) - multiset{turn.message})
  {
    hide NextFrame, Stream, Sendable;
    NextOnStream(TAG, p.inBuf, OnWire(p) + p.conn.outBuf, p.due);
    var turn := NextFrame(TAG, p.inBuf);
    if turn.Deliver? {
      assert p.due == [turn.message] + p.due[1..];
      assert OnWire(Cut(p, turn.rest)) == OnWire(p);
    }
  }

  /** A pipe with nothing left to move has nothing in flight. */
  lemma DrainedPipe(p: Pipe)
    requires PipeInv(p) && p.queued == [] && p.conn.outBuf == [] && OnWire(p) == [] && NextFrame(TAG, p.inBuf).Wait?
    ensures InFlight(p) == multiset{}
  {
    hide NextFrame, Sendable, Encode;
    assert p.inBuf + ([] + []) == p.inBuf;
    if p.due != [] {
      NextOfSendable(TAG, p.due[0], Stream(TAG, p.due[1..]));
    }
  }

  lemma EmptyPipeInv()
    ensures PipeInv(EmptyPipe()) && InFlight(EmptyPipe()) == multiset{}
  {
  }

  lemma SmallField(f: Field)
    requires f.Valid() && f.number <= 7 && (f.payload.Varint? || f.payload.Fixed64?)
    ensures f.Size() <= 20
  {
    VarintLimits();
  }

  lemma ThreeFields(a: Field, b: Field, c: Field)
    ensures FieldsSize([a, b, c]) == a.Size() + b.Size() + c.Size()
  {
    hide Field.Size;
    assert [a, b, c][1..] == [b, c] && [b, c][1..] == [c] && [c][1..] == [];
    assert FieldsSize([c]) == c.Size() + FieldsSize([]);
    assert FieldsSize([b, c]) == b.Size() + FieldsSize([c]);
  }

  /** An answer that only reports an error is always short enough. */
  lemma ErrorAnswerFits(id: nat, error: int)
    requires id < TWO_64 && ErrorCodeIsValid(error)
    ensures Sendable(TAG, ErrorAnswer(id, error))
  {
    hide Adler.Checksum;
    var m := ErrorAnswer(id, error);
    var fs := [Field(1, Varint(RESPONSE)), Field(2, Fixed64(id)), Field(7, Varint(error))];
    assert Fields(m) == fs;
    FieldsLength(fs);
    SmallField(fs[0]);
    SmallField(fs[1]);
    SmallField(fs[2]);
    ThreeFields(fs[0], fs[1], fs[2]);
    assert |Serialize(m)| <= 100;
    SealLength(Body(TAG, m));
  }

  // ---- Refinement ----

  ghost predicate CallsFit(calls: map<nat, Call>) {
    forall k :: k in calls ==> Sendable(TAG, Request(k, calls[k]))
  }

  ghost predicate Sim(services: Services, s: State) {
    && !s.failed && P.Inv(services, s.core) && CallsFit(s.core.calls)
    && PipeInv(s.up) && InFlight(s.up) == s.core.requests
    && PipeInv(s.down) && InFlight(s.down) == s.core.responses
  }

  /** The step of the abstract machine behind a step of this one; moving bytes is no step there. */
  function Abstract(s: State, l: Label): seq<P.Label> {
    if s.failed then []
    else
      match l
      case Allocate(t, c) => [P.Allocate(t, c)]
      case Insert(t) => [P.Insert(t)]
      case Send(t, _) => [P.Send(t)]
      case Complete(job, response, _, _) => [P.Complete(job, response)]
      case ServerTurn(_) =>
        (match NextFrame(TAG, s.up.inBuf) case Deliver(m, _) => [P.ServerReceive(m)] case _ => [])
      case ClientTurn =>
        if !LoopFree(s.core) then []
        else (match NextFrame(TAG, s.down.inBuf) case Deliver(m, _) => [P.ClientReceive(m)] case _ => [])
      case FinishDone => [P.FinishDone]
      case Destroy => [P.Destroy]
      case _ => []
  }

  lemma InitSim(services: Services)
    ensures Sim(services, Init())
  {
    P.InitInv(services);
    EmptyPipeInv();
  }

  lemma CoreOne(services: Services, core: P.State, l: P.Label)
    ensures P.Run(services, core, [l]) == P.Step(services, core, l)
  {
    hide P.Step;
    assert [l][1..] == [];
    assert P.Run(services, P.Step(services, core, l), []) == P.Step(services, core, l);
  }

  lemma Disabled(services: Services, core: P.State, l: P.Label)
    ensures !P.Enabled(services, core, l) ==> P.Step(services, core, l) == core
  {
  }

  /** Steps of the core that move no message. */
  lemma LocalStep(services: Services, s: State, l: P.Label)
    requires Sim(services, s) && (l.Allocate? || l.Insert? || l.FinishDone? || l.Destroy?)
    requires l.Allocate? ==> Sendable(TAG, Request(s.core.lastId + 1, l.call))
    ensures Sim(services, s.(core := P.Step(services, s.core, l)))
  {
    hide P.Inv, PipeInv, InFlight, Sendable, Request;
    P.StepKeepsInv(services, s.core, l);
    var core := P.Step(services, s.core, l);
    assert core.requests == s.core.requests && core.responses == s.core.responses;
    if l.Allocate? {
      var made := P.Enabled(services, s.core, l);
      assert forall k :: k in core.calls ==>
          core.calls[k] == if k == s.core.lastId + 1 && made then l.call else s.core.calls[k];
    }
  }

  lemma SendingThread(services: Services, core: P.State, t: nat)
    requires P.Inv(services, core) && P.Enabled(services, core, P.Send(t))
    ensures var local := core.threads[t];
            && local.id in core.calls && core.calls[local.id] == local.call
            && P.Step(services, core, P.Send(t)).requests == core.requests + multiset{Request(local.id, local.call)}
            && P.Step(services, core, P.Send(t)).responses == core.responses
            && P.Step(services, core, P.Send(t)).calls == core.calls
  {
    hide P.NetInv, P.AnswerInv, P.HeldInv, P.OwnInv;
  }

  lemma SendSim(services: Services, s: State, t: nat, n: nat)
    requires Sim(services, s)
    ensures Sim(services, Step(services, s, Send(t, n)))
  {
    hide P.Inv, PipeInv, InFlight, Sendable, SendFrom, P.Step;
    if P.Enabled(services, s.core, P.Send(t)) {
      SendingThread(services, s.core, t);
      P.StepKeepsInv(services, s.core, P.Send(t));
      var local := s.core.threads[t];
      SendFromKeeps(s.up, Request(local.id, local.call), t == P.LOOP, n);
    }
  }

  lemma CompletingJob(services: Services, core: P.State, job: Job, response: seq<Byte>)
    requires P.Enabled(services, core, P.Complete(job, response))
    ensures var core' := P.Step(services, core, P.Complete(job, response));
            && core'.requests == core.requests && core'.calls == core.calls
            && core'.responses == core.responses + multiset{Answer(job.id, response)}
  {
  }

  lemma CompleteSim(services: Services, s: State, job: Job, response: seq<Byte>, onLoop: bool, n: nat)
    requires Sim(services, s) && Sendable(TAG, Answer(job.id, response))
    ensures Sim(services, Step(services, s, Complete(job, response, onLoop, n)))
  {
    hide P.Inv, PipeInv, InFlight, Sendable, SendFrom, P.Step, P.Enabled, Answer;
    if P.Enabled(services, s.core, P.Complete(job, response)) {
      CompletingJob(services, s.core, job, response);
      P.StepKeepsInv(services, s.core, P.Complete(job, response));
      SendFromKeeps(s.down, Answer(job.id, response), onLoop, n);
    }
  }

  lemma ServeStep(services: Services, core: P.State, m: Meta)
    requires m in core.requests
    ensures P.Step(services, core, P.ServerReceive(m)) == P.Served(services, core, m)
  {
    hide P.Served;
  }

  lemma RejectionFits(services: Services, k: nat, c: Call)
    requires k < TWO_64
    ensures Sendable(TAG, ErrorAnswer(k, P.VerdictOn(services, c)))
  {
    hide Sendable, ErrorAnswer;
    ErrorAnswerFits(k, P.VerdictOn(services, c));
  }

  /** The request the server cuts out is some call's; what it sends at once, if anything, is a short error answer. */
  lemma ServingRequest(services: Services, core: P.State, m: Meta)
    requires P.Inv(services, core) && m in core.requests
    ensures var effect := React(map[], services, m).1; var core' := P.Served(services, core, m);
            && core' == P.Step(services, core, P.ServerReceive(m)) && core'.calls == core.calls
            && core'.requests == core.requests - multiset{m}
            && core'.responses == core.responses + (if effect.Replied? then multiset{effect.message} else multiset{})
            && (effect.Replied? ==> Sendable(TAG, effect.message))
  {
    hide P.Inv, Sendable, React, P.Served, P.VerdictOn, P.Step, ErrorAnswer, P.JobOf, Request, Q.Sent;
    ServeStep(services, core, m);
    Q.RequestIsSent(services, core, m);
    var k := m.id.value;
    IdIsSmall(services, core, k);
    P.Dispatched(services, k, core.calls[k]);
    P.ServedIs(services, core, k);
    RejectionFits(services, k, core.calls[k]);
  }

  lemma IdIsSmall(services: Services, core: P.State, k: nat)
    requires P.Inv(services, core) && k in core.calls
    ensures k < TWO_64
  {
    hide P.NetInv, P.AnswerInv, P.HeldInv, P.OwnInv, P.OutstandingInv;
  }

  lemma ServerTurnSim(services: Services, s: State, n: nat)
    requires Sim(services, s)
    ensures Sim(services, Step(services, s, ServerTurn(n)))
    ensures Step(services, s, ServerTurn(n)).core == P.Run(services, s.core, Abstract(s, ServerTurn(n)))
  {
    hide P.Inv, PipeInv, InFlight, Sendable, SendNow, Cut, P.Step, P.Served, NextFrame, React;
    TurnKeeps(s.up);
    if NextFrame(TAG, s.up.inBuf).Deliver? {
      var m := NextFrame(TAG, s.up.inBuf).message;
      ServingRequest(services, s.core, m);
      P.StepKeepsInv(services, s.core, P.ServerReceive(m));
      CoreOne(services, s.core, P.ServerReceive(m));
      var effect := React(map[], services, m).1;
      if effect.Replied? {
        SendNowKeeps(s.down, effect.message, n);
      }
    }
  }

  lemma ReceivingResponse(services: Services, core: P.State, m: Meta)
    requires P.Inv(services, core) && m in core.responses && LoopFree(core)
    ensures var core' := P.Received(core, m);
            && core' == P.Step(services, core, P.ClientReceive(m)) && core'.calls == core.calls
            && core'.requests == core.requests && core'.responses == core.responses - multiset{m}
  {
    hide P.Inv, P.Received, Verdict, P.VerdictOn, P.Settled;
    P.ResponseInFlight(services, core, m);
    P.ReceivedIs(core, m.id.value, m);
    P.SettledFrame(core, m.id.value, m);
  }

  lemma ClientTurnSim(services: Services, s: State)
    requires Sim(services, s)
    ensures Sim(services, Step(services, s, ClientTurn))
    ensures Step(services, s, ClientTurn).core == P.Run(services, s.core, Abstract(s, ClientTurn))
  {
    hide P.Inv, PipeInv, InFlight, Sendable, Cut, P.Step, P.Received, NextFrame;
    TurnKeeps(s.down);
    if LoopFree(s.core) && NextFrame(TAG, s.down.inBuf).Deliver? {
      var m := NextFrame(TAG, s.down.inBuf).message;
      ReceivingResponse(services, s.core, m);
      P.StepKeepsInv(services, s.core, P.ClientReceive(m));
      CoreOne(services, s.core, P.ClientReceive(m));
    }
  }

  /** Moving bytes. */
  lemma MoveSim(services: Services, s: State, l: Label)
    requires Sim(services, s) && (l.RunQueued? || l.Writable? || l.Deliver?)
    ensures Sim(services, Step(services, s, l)) && Step(services, s, l).core == s.core
  {
    hide P.Inv, PipeInv, InFlight, Sendable, RunOne, Write, Arrive;
    var p := if l.dir.Up? then s.up else s.down;
    RunOneKeeps(p, l.n);
    WriteKeeps(p, l.n);
    ArriveKeeps(p, l.n);
  }

  lemma StepSim(services: Services, s: State, l: Label)
    requires Sim(services, s) && Fits(s, l)
    ensures Sim(services, Step(services, s, l))
    ensures Step(services, s, l).core == P.Run(services, s.core, Abstract(s, l))
  {
    hide P.Inv, PipeInv, InFlight, Sendable, P.Step, P.Served, P.Received, NextFrame, SendFrom, ServerTakes;
    match l
    case Allocate(t, c) =>
      LocalStep(services, s, P.Allocate(t, c));
      CoreOne(services, s.core, P.Allocate(t, c));
    case Insert(t) =>
      LocalStep(services, s, P.Insert(t));
      CoreOne(services, s.core, P.Insert(t));
    case Send(t, n) =>
      SendSim(services, s, t, n);
      CoreOne(services, s.core, P.Send(t));
      Disabled(services, s.core, P.Send(t));
    case Complete(job, response, onLoop, n) =>
      CompleteSim(services, s, job, response, onLoop, n);
      CoreOne(services, s.core, P.Complete(job, response));
      Disabled(services, s.core, P.Complete(job, response));
    case ServerTurn(n) => ServerTurnSim(services, s, n);
    case ClientTurn => ClientTurnSim(services, s);
    case FinishDone =>
      LocalStep(services, s, P.FinishDone);
      CoreOne(services, s.core, P.FinishDone);
    case Destroy =>
      LocalStep(services, s, P.Destroy);
      CoreOne(services, s.core, P.Destroy);
    case _ => MoveSim(services, s, l);
  }

  /** The abstract run behind a run. */
  function AbstractRun(services: Services, s: State, ls: seq<Label>): seq<P.Label>
    decreases ls
  {
    if ls == [] then [] else Abstract(s, ls[0]) + AbstractRun(services, Step(services, s, ls[0]), ls[1..])
  }

  lemma {:induction false} RunSim(services: Services, s: State, ls: seq<Label>)
    requires Sim(services, s) && AllFit(services, s, ls)
    ensures Sim(services, Run(services, s, ls))
    ensures Run(services, s, ls).core == P.Run(services, s.core, AbstractRun(services, s, ls))
    decreases ls
  {
    hide Sim, Step, Fits, Abstract, P.Step;
    if ls != [] {
      StepSim(services, s, ls[0]);
      RunSim(services, Step(services, s, ls[0]), ls[1..]);
      Q.RunAppend(services, s.core, Abstract(s, ls[0]), AbstractRun(services, Step(services, s, ls[0]), ls[1..]));
    }
  }

  // ---- What follows ----

  /**
   The byte machine refines the message machine: however the bytes are written, chunked and delivered, neither end ever
   meets a codec error, and the channels' state is one that the message machine reaches.
   */
  lemma Refines(services: Services, ls: seq<Label>)
    requires AllFit(services, Init(), ls)
    ensures var s := Run(services, Init(), ls);
            !s.failed && s.core == P.Run(services, P.Init(), AbstractRun(services, Init(), ls))
  {
    hide Step, P.Step;
    InitSim(services);
    RunSim(services, Init(), ls);
  }

  /** What the byte machine records of answers is what the abstract run records. */
  lemma StepKeepsRecords(services: Services, s: State, l: Label, k: nat)
    requires Sim(services, s) && Fits(s, l)
    ensures var core, core' := s.core, Step(services, s, l).core;
            && (k in core.calls ==> k in core'.calls && core'.calls[k] == core.calls[k])
            && (k in core.answered ==> k in core'.answered && core'.answered[k] == core.answered[k])
            && (k in core'.answered && k !in core.answered ==>
                  && l.Complete? && k in core.calls && l.job == P.JobOf(k, core.calls[k])
                  && l.response == core'.answered[k] && P.Enabled(services, core, P.Complete(l.job, l.response)))
  {
    hide P.Step, P.Inv, P.Enabled, PipeInv, InFlight, Step, Fits, P.JobOf;
    StepSim(services, s, l);
    AtMostOne(s, l);
    var ls := Abstract(s, l);
    if ls != [] {
      CoreOne(services, s.core, ls[0]);
      Q.StepKeepsRecords(services, s.core, ls[0], k);
    }
  }

  lemma AtMostOne(s: State, l: Label)
    ensures var ls := Abstract(s, l);
            && (ls == [] || ls == [ls[0]])
            && (ls != [] && ls[0].Complete? ==> l.Complete? && ls[0].job == l.job && ls[0].response == l.response)
  {
    hide NextFrame;
  }

  lemma {:induction false} RecordsKept(services: Services, s: State, ls: seq<Label>, k: nat)
    requires Sim(services, s) && AllFit(services, s, ls)
    ensures var core, core' := s.core, Run(services, s, ls).core;
            && (k in core.calls ==> k in core'.calls && core'.calls[k] == core.calls[k])
            && (k in core.answered ==> k in core'.answered && core'.answered[k] == core.answered[k])
    decreases ls
  {
    hide Sim, Step, Fits;
    if ls != [] {
      StepKeepsRecords(services, s, ls[0], k);
      StepSim(services, s, ls[0]);
      RecordsKept(services, Step(services, s, ls[0]), ls[1..], k);
    }
  }

  /** The `i`-th step of the run is the service's answer to the job of call `k`, made of that call's own request. */
  predicate AnswersAt(services: Services, s: State, ls: seq<Label>, i: nat, k: nat, c: Call, response: seq<Byte>) {
    && i < |ls| && ls[i].Complete? && ls[i].job == P.JobOf(k, c) && ls[i].response == response
    && P.Enabled(services, Run(services, s, ls[..i]).core, P.Complete(ls[i].job, ls[i].response))
  }

  lemma {:induction false} AnsweredSince(services: Services, s: State, ls: seq<Label>, k: nat) returns (i: nat)
    requires Sim(services, s) && AllFit(services, s, ls)
    requires k !in s.core.answered && k in Run(services, s, ls).core.answered
    ensures var core := Run(services, s, ls).core;
            k in core.calls && AnswersAt(services, s, ls, i, k, core.calls[k], core.answered[k])
    decreases ls
  {
    hide Sim, Step, Fits, P.Enabled, P.JobOf;
    var s1 := Step(services, s, ls[0]);
    StepKeepsRecords(services, s, ls[0], k);
    StepSim(services, s, ls[0]);
    if k in s1.core.answered {
      RecordsKept(services, s1, ls[1..], k);
      i := 0;
      assert ls[..0] == [] && Run(services, s, []) == s;
    } else {
      var j := AnsweredSince(services, s1, ls[1..], k);
      i := j + 1;
      assert ls[..i][0] == ls[0] && ls[..i][1..] == ls[1..][..j];
    }
  }

  /**
   End to end: when the closure of a call has run, it has run once, and its response object holds exactly what the
   service produced in the step in which it answered the job made of that call's own request; or the object is
   untouched, and that exactly when the server rejects the request.
   */
  lemma EndToEndCorrelation(services: Services, ls: seq<Label>, k: nat) returns (i: nat)
    requires AllFit(services, Init(), ls) && k in Run(services, Init(), ls).core.ran
    ensures var core := Run(services, Init(), ls).core;
            && k in core.calls && k in core.held && core.ran[k] == 1
            && var c := core.calls[k];
            && (core.held[k] == Untouched <==> P.VerdictOn(services, c) != NO_ERROR)
            && (core.held[k] != Untouched ==>
                  && AnswersAt(services, Init(), ls, i, k, c, core.held[k].response)
                  && P.MayAnswer(services, c.service, c.method_, c.request, core.held[k].response))
  {
    hide Step, P.Step, P.MayAnswer, P.VerdictOn, AllFit, AnswersAt;
    Refines(services, ls);
    var abstract_ := AbstractRun(services, Init(), ls);
    Q.Correlation(services, abstract_, k);
    Q.LinearOwnership(services, abstract_, k);
    i := 0;
    if k in Run(services, Init(), ls).core.answered {
      InitSim(services);
      i := AnsweredSince(services, Init(), ls, k);
    }
  }

  predicate Drained(p: Pipe) {
    p.queued == [] && p.conn.outBuf == [] && OnWire(p) == [] && NextFrame(TAG, p.inBuf).Wait?
  }

  /** Nothing is left to do: no thread, job or closure is active, and no byte waits anywhere. */
  ghost predicate Finished(s: State) {
    && s.core.threads == map[] && s.core.jobs == multiset{} && s.core.running == None
    && Drained(s.up) && Drained(s.down)
  }

  /**
   Once nothing is left to do, every call has been answered; its closure, if there is a response object, has run once,
   and the response object has been deleted once.
   */
  lemma DrainedMeansDone(services: Services, ls: seq<Label>, k: nat)
    requires AllFit(services, Init(), ls)
    requires Finished(Run(services, Init(), ls)) && !Run(services, Init(), ls).core.destroyed
    ensures var core := Run(services, Init(), ls).core;
            && core.outstandings == map[]
            && (k in core.calls ==>
                  && P.IsCompleted(core.stages, k) && (k in core.held <==> core.calls[k].hasResponse)
                  && core.ran[k] == Q.Count(core.calls[k].hasResponse && core.calls[k].hasDone)
                  && core.responsesDeleted[k] == Q.Count(core.calls[k].hasResponse))
  {
    hide Step, P.Step, AllFit, NextFrame, P.Inv, PipeInv, InFlight;
    InitSim(services);
    RunSim(services, Init(), ls);
    var s := Run(services, Init(), ls);
    DrainedPipe(s.up);
    DrainedPipe(s.down);
    Q.QuietMeansDone(services, AbstractRun(services, Init(), ls), k);
  }

  // ---- No byte and no call gets stuck ----

  function FrameBytes(ms: seq<Meta>): nat {
    if ms == [] then 0 else |Encode(TAG, ms[0])| + FrameBytes(ms[1..])
  }

  /** How far the bytes of a direction still have to go. */
  function Distance(p: Pipe): nat {
    |p.queued| + 3 * FrameBytes(p.queued) + 2 * |p.conn.outBuf| + |OnWire(p)|
  }

  /** Less is left to do: in the calls, or, with the calls as they were, in moving bytes. */
  predicate Nearer(s': State, s: State) {
    || Q.Work(s'.core) < Q.Work(s.core)
    || (s'.core == s.core && Distance(s'.up) + Distance(s'.down) < Distance(s.up) + Distance(s.down))
  }

  lemma RunOneShrinks(p: Pipe, n: nat)
    requires PipeInv(p) && p.queued != []
    ensures Distance(RunOne(p, n)) < Distance(p)
  {
    hide Encode, Stream, Sendable, C.SendInLoop, C.Inv, Min;
    var frame := Encode(TAG, p.queued[0]);
    MinBound(n, |frame|);
    SendPrefix(p.conn, frame, Min(n, |frame|));
    var c := C.SendInLoop(p.conn, frame, Min(n, |frame|));
    assert |c.accepted + c.outBuf| == |p.conn.accepted + p.conn.outBuf + frame|;
  }

  lemma WriteShrinks(p: Pipe, n: nat)
    requires PipeInv(p)
    ensures Write(p, n) == p || Distance(Write(p, n)) < Distance(p)
    ensures p.conn.outBuf != [] && n > 0 ==> Write(p, n) != p
  {
    hide Stream, Sendable, FrameBytes;
    if p.conn.channel.events.writing && Min(n, |p.conn.outBuf|) > 0 {
      assert |Write(p, n).conn.outBuf| == |p.conn.outBuf| - Min(n, |p.conn.outBuf|);
    }
  }

  lemma ArriveShrinks(p: Pipe, n: nat)
    requires PipeInv(p)
    ensures Arrive(p, n) == p || Distance(Arrive(p, n)) < Distance(p)
    ensures OnWire(p) != [] && n > 0 ==> Arrive(p, n) != p
  {
    hide Stream, Sendable, FrameBytes, C.Inv;
    var k := Min(n, |OnWire(p)|);
    if k == 0 {
      assert p.inBuf + OnWire(p)[..0] == p.inBuf;
    }
  }

  lemma MoveIsProgress(services: Services, s: State, l: Label)
    requires Sim(services, s) && (l.RunQueued? || l.Writable? || l.Deliver?)
    ensures Step(services, s, l) == s || Nearer(Step(services, s, l), s)
  {
    hide P.Inv, PipeInv, InFlight, Write, Arrive, Distance, Q.Work;
    var p := if l.dir.Up? then s.up else s.down;
    if l.RunQueued? {
      hide RunOne;
      RunNothing(p, l.n);
      if p.queued != [] {
        RunOneShrinks(p, l.n);
      }
    } else {
      WriteShrinks(p, l.n);
      ArriveShrinks(p, l.n);
    }
  }

  lemma RunNothing(p: Pipe, n: nat)
    ensures p.queued == [] ==> RunOne(p, n) == p
  {
  }

  predicate MovesBytes(l: Label) {
    l.RunQueued? || l.Writable? || l.Deliver?
  }

  lemma IdleChangesNothing(services: Services, s: State, l: Label)
    requires Sim(services, s) && !MovesBytes(l)
    requires Abstract(s, l) == [] || !P.Enabled(services, s.core, Abstract(s, l)[0])
    ensures Step(services, s, l) == s
  {
    hide P.Inv, PipeInv, InFlight, NextFrame, P.Enabled, P.Step, P.Served, P.Received, Sendable, Cut;
    if Abstract(s, l) != [] {
      Disabled(services, s.core, Abstract(s, l)[0]);
    }
    if l.ServerTurn? {
      TurnKeeps(s.up);
      TurnIsEnabled(services, s, l);
    } else if l.ClientTurn? {
      TurnKeeps(s.down);
      TurnIsEnabled(services, s, l);
    }
  }

  lemma TurnIsEnabled(services: Services, s: State, l: Label)
    requires Sim(services, s) && (l.ServerTurn? || l.ClientTurn?)
    ensures Abstract(s, l) != [] ==> P.Enabled(services, s.core, Abstract(s, l)[0])
  {
    hide P.Inv, PipeInv, InFlight, NextFrame, Sendable;
    TurnKeeps(s.up);
    TurnKeeps(s.down);
  }

  lemma CoreStepIsProgress(services: Services, s: State, l: Label)
    requires Sim(services, s) && Fits(s, l) && !l.Allocate? && !l.Destroy?
    requires Abstract(s, l) != [] && P.Enabled(services, s.core, Abstract(s, l)[0])
    ensures Q.Work(Step(services, s, l).core) < Q.Work(s.core)
  {
    hide P.Inv, PipeInv, InFlight, NextFrame, P.Enabled, P.Step, Q.Work, Step, Fits;
    StepSim(services, s, l);
    AtMostOne(s, l);
    CoreOne(services, s.core, Abstract(s, l)[0]);
    Q.StepShrinksWork(services, s.core, Abstract(s, l)[0]);
  }

  /**
   Every step that changes anything, except a new call or destruction, is progress; so without new calls every schedule
   comes to an end.
   */
  lemma EveryStepIsProgress(services: Services, s: State, l: Label)
    requires Sim(services, s) && Fits(s, l) && !l.Allocate? && !l.Destroy?
    ensures Step(services, s, l) == s || Nearer(Step(services, s, l), s)
  {
    hide Sim, Step, Fits, Abstract, P.Enabled, Q.Work, Distance;
    if MovesBytes(l) {
      MoveIsProgress(services, s, l);
    } else if Abstract(s, l) == [] || !P.Enabled(services, s.core, Abstract(s, l)[0]) {
      IdleChangesNothing(services, s, l);
    } else {
      CoreStepIsProgress(services, s, l);
    }
  }

  ghost predicate CanAnswer(services: Services, k: nat, service: seq<Byte>, method_: seq<Byte>, request: seq<Byte>) {
    exists response :: P.MayAnswer(services, service, method_, request, response) && Sendable(TAG, Answer(k, response))
  }

  /** Every service answers every request it accepts, with something that fits. */
  ghost predicate AlwaysAnswers(services: Services) {
    forall k: nat, service, method_, request ::
      k < TWO_64 && Verdict(services, service, method_, request) == NO_ERROR ==>
        CanAnswer(services, k, service, method_, request)
  }

  /** The next thing to happen to a direction that is not drained: a byte can move, or a message can be cut out. */
  lemma PipeGoesOn(services: Services, s: State, dir: Direction) returns (l: Label)
    requires Sim(services, s) && LoopFree(s.core) && !Drained(if dir.Up? then s.up else s.down)
    ensures !l.Allocate? && !l.Destroy? && Fits(s, l) && Step(services, s, l) != s
  {
    hide P.Inv, InFlight, NextFrame, Sendable, Stream, P.Served, P.Received, C.Inv, RunOne, Write, Arrive, Distance,
      ServerTakes, P.Step;
    var p := if dir.Up? then s.up else s.down;
    if p.queued != [] {
      l := RunQueued(dir, 0);
      RunOneShrinks(p, 0);
    } else if p.conn.outBuf != [] {
      l := Writable(dir, 1);
      WriteShrinks(p, 1);
    } else if OnWire(p) != [] {
      l := Label.Deliver(dir, 1);
      ArriveShrinks(p, 1);
    } else {
      l := if dir.Up? then ServerTurn(0) else ClientTurn;
      TurnKeeps(p);
      TurnIsEnabled(services, s, l);
      CoreStepIsProgress(services, s, l);
    }
  }

  lemma ThreadGoesOn(services: Services, s: State) returns (l: Label)
    requires Sim(services, s) && s.core.threads != map[]
    ensures !l.Allocate? && !l.Destroy? && Fits(s, l) && Step(services, s, l) != s
  {
    hide P.Inv, PipeInv, InFlight, NextFrame, Sendable, P.Step, Q.Work, Drained, Step;
    var t :| t in s.core.threads;
    l := if s.core.threads[t].Allocated? then Insert(t) else Send(t, 0);
    CoreStepIsProgress(services, s, l);
  }

  lemma JobGoesOn(services: Services, s: State) returns (l: Label)
    requires Sim(services, s) && AlwaysAnswers(services) && s.core.jobs != multiset{}
    ensures !l.Allocate? && !l.Destroy? && Fits(s, l) && Step(services, s, l) != s
  {
    hide P.Inv, PipeInv, InFlight, NextFrame, Sendable, P.Step, Q.Work, Drained, Step, Verdict, P.MayAnswer;
    var job :| job in s.core.jobs;
    Q.JobIsSent(services, s.core, job);
    IdIsSmall(services, s.core, job.id);
    assert CanAnswer(services, job.id, job.service, job.method_, job.request);
    var response :| P.MayAnswer(services, job.service, job.method_, job.request, response)
                    && Sendable(TAG, Answer(job.id, response));
    l := Complete(job, response, true, 0);
    CoreStepIsProgress(services, s, l);
  }

  lemma ClosureGoesOn(services: Services, s: State)
    requires Sim(services, s) && s.core.running.Some? && s.core.threads == map[]
    ensures Step(services, s, FinishDone) != s
  {
    hide P.Inv, PipeInv, InFlight, NextFrame, P.Step, Q.Work, Step;
    CoreStepIsProgress(services, s, FinishDone);
  }

  /** As long as anything is left to do, some step changes something. */
  lemma NeverStuck(services: Services, s: State) returns (l: Label)
    requires Sim(services, s) && AlwaysAnswers(services) && !s.core.destroyed && !Finished(s)
    ensures !l.Allocate? && !l.Destroy? && Fits(s, l) && Step(services, s, l) != s
  {
    hide Sim, Step, AlwaysAnswers, Drained;
    if s.core.threads != map[] {
      l := ThreadGoesOn(services, s);
    } else if s.core.running.Some? {
      l := FinishDone;
      ClosureGoesOn(services, s);
    } else if s.core.jobs != multiset{} {
      l := JobGoesOn(services, s);
    } else if !Drained(s.up) {
      l := PipeGoesOn(services, s, Up);
    } else {
      l := PipeGoesOn(services, s, Down);
    }
  }

  predicate NoNewCalls(ls: seq<Label>) {
    forall i :: 0 <= i < |ls| ==> !ls[i].Allocate? && !ls[i].Destroy?
  }

  lemma {:induction false} CanFinish(services: Services, s: State) returns (more: seq<Label>)
    requires Sim(services, s) && AlwaysAnswers(services) && !s.core.destroyed
    ensures AllFit(services, s, more) && NoNewCalls(more)
    ensures Finished(Run(services, s, more)) && !Run(services, s, more).core.destroyed
    decreases Q.Work(s.core), Distance(s.up) + Distance(s.down)
  {
    hide Sim, Step, Fits, Finished, Q.Work, Distance, AlwaysAnswers;
    if Finished(s) {
      more := [];
    } else {
      var l := NeverStuck(services, s);
      EveryStepIsProgress(services, s, l);
      StepSim(services, s, l);
      StaysAlive(services, s, l);
      var rest := CanFinish(services, Step(services, s, l));
      more := [l] + rest;
      assert more[1..] == rest;
    }
  }

  lemma StaysAlive(services: Services, s: State, l: Label)
    requires Sim(services, s) && !s.core.destroyed && !l.Destroy? && Fits(s, l)
    ensures !Step(services, s, l).core.destroyed
  {
    hide P.Inv, PipeInv, InFlight, NextFrame, P.Step, Step, Fits;
    StepSim(services, s, l);
    AtMostOne(s, l);
    var ls := Abstract(s, l);
    if ls != [] {
      CoreOne(services, s.core, ls[0]);
      CoreStaysAlive(services, s.core, ls[0]);
    }
  }

  lemma CoreStaysAlive(services: Services, core: P.State, l: P.Label)
    requires P.Inv(services, core) && !core.destroyed && !l.Destroy?
    ensures !P.Step(services, core, l).destroyed
  {
    hide P.Inv, P.Served, P.Received, P.Settled;
    if P.Enabled(services, core, l) {
      if l.ServerReceive? {
        Q.RequestIsSent(services, core, l.m);
        P.ServedIs(services, core, l.m.id.value);
      } else if l.ClientReceive? {
        P.ResponseInFlight(services, core, l.m);
        P.ReceivedIs(core, l.m.id.value, l.m);
        P.SettledFrame(core, l.m.id.value, l.m);
      }
    }
  }

  lemma {:induction false} RunAppend(services: Services, s: State, xs: seq<Label>, ys: seq<Label>)
    requires AllFit(services, s, xs) && AllFit(services, Run(services, s, xs), ys)
    ensures Run(services, s, xs + ys) == Run(services, Run(services, s, xs), ys) && AllFit(services, s, xs + ys)
    decreases xs
  {
    hide Step, Fits;
    if xs == [] {
      assert xs + ys == ys;
    } else {
      assert (xs + ys)[1..] == xs[1..] + ys;
      RunAppend(services, Step(services, s, xs[0]), xs[1..], ys);
    }
  }

  /**
   No call gets stuck, in a buffer or anywhere else: whatever has happened so far, going on without new calls brings
   every call made to its end, its answer received and its closure, if there is a response object, run once.
   */
  lemma EveryCallCanFinish(services: Services, ls: seq<Label>) returns (more: seq<Label>)
    requires AllFit(services, Init(), ls) && AlwaysAnswers(services) && !Run(services, Init(), ls).core.destroyed
    ensures AllFit(services, Init(), ls + more) && NoNewCalls(more)
    ensures var core := Run(services, Init(), ls + more).core;
            && core.outstandings == map[]
            && forall k :: k in core.calls ==>
                 && P.IsCompleted(core.stages, k) && (k in core.held <==> core.calls[k].hasResponse)
                 && core.ran[k] == Q.Count(core.calls[k].hasResponse && core.calls[k].hasDone)
  {
    hide Sim, Step, Finished, Fits, AlwaysAnswers, P.IsCompleted, NoNewCalls;
    InitSim(services);
    RunSim(services, Init(), ls);
    more := CanFinish(services, Run(services, Init(), ls));
    RunAppend(services, Init(), ls, more);
    var core := Run(services, Init(), ls + more).core;
    DrainedMeansDone(services, ls + more, 0);
    forall k | k in core.calls
      ensures P.IsCompleted(core.stages, k) && (k in core.held <==> core.calls[k].hasResponse)
      ensures core.ran[k] == Q.Count(core.calls[k].hasResponse && core.calls[k].hasDone)
    {
      DrainedMeansDone(services, ls + more, k);
    }
  }

  /**
   The bound on message lengths is needed, and nothing else is: over a drained direction, a complete message that is
   printable and shorter than 2 GB is delivered if it fits, and makes the receiver fail if it does not.
   */
  lemma LimitIsExact(p: Pipe, m: Meta)
    requires PipeInv(p) && Drained(p) && m.Valid() && m.Initialized() && |Seal(Body(TAG, m))| < TWO_31
    ensures var frame := Encode(TAG, m);
            var turn := NextFrame(TAG, Arrive(SendNow(p, m, |frame|), |frame|).inBuf);
            turn == if Sendable(TAG, m) then Codec.Deliver(m, []) else Codec.Fail(InvalidLength)
  {
    hide NextFrame, Encode, Stream, Meta.Valid, Seal;
    DrainedPipe(p);
    assert p.due == [] by { NothingDue(p); }
    StreamOfNothing();
    var frame := Encode(TAG, m);
    FrameFate(TAG, m, []);
    assert frame + [] == frame;
    assert p.inBuf == [];
    WholeFrameArrives(p, m);
  }

  /** Such a message: an answer of 64 MB. */
  lemma OversizeIsRefused() returns (m: Meta)
    ensures m.response.Some? && m == Answer(1, m.response.value) && m.Valid() && !Sendable(TAG, m)
    ensures NextFrame(TAG, Encode(TAG, m)) == Codec.Fail(InvalidLength)
  {
    var big := seq(MAX_MESSAGE_LEN, _ => 0 as Byte);
    m := Answer(1, big);
    hide Adler.Checksum, NextFrame, Encode;
    var fs := [Field(1, Varint(RESPONSE)), Field(2, Fixed64(1)), Field(6, Delimited(big))];
    assert Fields(m) == fs;
    FieldsLength(fs);
    ThreeFields(fs[0], fs[1], fs[2]);
    SmallField(fs[0]);
    SmallField(fs[1]);
    LengthPrefixSize(|big|);
    assert MAX_MESSAGE_LEN < |Serialize(m)| < TWO_31 - 8;
    SealLength(Body(TAG, m));
    FrameFate(TAG, m, []);
    assert Encode(TAG, m) + [] == Encode(TAG, m);
  }

  lemma NothingDue(p: Pipe)
    requires InFlight(p) == multiset{}
    ensures p.due == []
  {
    assert |InFlight(p)| == |p.due| + |p.queued|;
  }

  lemma StreamOfNothing()
    ensures Stream(TAG, []) == []
  {
  }

  lemma WholeFrameArrives(p: Pipe, m: Meta)
    requires p.taken == |p.conn.accepted| && p.conn.outBuf == [] && p.inBuf == []
    ensures Arrive(SendNow(p, m, |Encode(TAG, m)|), |Encode(TAG, m)|).inBuf == Encode(TAG, m)
  {
    hide Encode;
    var frame := Encode(TAG, m);
    var p1 := SendNow(p, m, |frame|);
    assert frame[..|frame|] == frame;
    assert p1.conn.accepted == p.conn.accepted + frame;
    assert OnWire(p1) == frame;
  }
}
