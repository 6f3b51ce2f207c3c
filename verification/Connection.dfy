/**
 The output side of a connection: direct writes, the output buffer for what the socket did not take, and the channel's
 interest in writability as the kernel sees it.  Results of `write` are inputs.
 */
module Connections {
  import opened Bytes

  datatype Events = Events(reading: bool, writing: bool)

  /** The channel's index: which epoll operation its next update performs. */
  datatype Index = New | Added | Deleted

  datatype Channel = Channel(events: Events, index: Index, kernel: Option<Events>) {
    /** `Epoll::update`; modifying or deleting an unregistered descriptor fails and changes nothing. */
    function Update(): Channel {
      match index
      case New => this.(index := Added, kernel := Some(events))
      case Added => this.(kernel := if kernel.Some? then Some(events) else None)
      case Deleted => this.(kernel := None)
    }

    function EnableReading(): Channel { this.(events := events.(reading := true)).Update() }

    function EnableWriting(): Channel { this.(events := events.(writing := true)).Update() }

    function DisableWriting(): Channel { this.(events := events.(writing := false)).Update() }

    function DisableAll(): Channel { this.(events := Events(false, false)).Update() }
  }

  /** A write-complete callback was queued when this much had been accepted, out of this much sent. */
  datatype Completion = Completion(accepted: nat, sent: nat)

  datatype Conn = Conn(
    outBuf: seq<Byte>, channel: Channel,
    accepted: seq<Byte>,          // history: what the socket took
    sent: seq<seq<Byte>>,         // history: the messages given to sendInLoop
    completions: seq<Completion>) // history: write-complete callbacks queued

  function Opened(): Conn {
    Conn([], Channel(Events(false, false), New, None).EnableReading(), [], [], [])
  }

  function Complete(c: Conn): Conn {
    c.(completions := c.completions + [Completion(|c.accepted|, |Concat(c.sent)|)])
  }

  /** A failed direct write: `substr` is then asked to start at position -1 and throws. */
  predicate SendThrows(c: Conn, n: int) {
    c.outBuf == [] && n < 0
  }

  /** `sendInLoop`; `n` is the result of the direct write, which is attempted only if nothing is waiting. */
  function SendInLoop(c: Conn, message: seq<Byte>, n: int): Conn
    requires n <= |message|
  {
    if SendThrows(c, n) then c
    else
      var k := if c.outBuf == [] then n else 0;
      var c1 := c.(accepted := c.accepted + message[..k], sent := c.sent + [message]);
      var c2 := if c.outBuf == [] && k == |message| then Complete(c1.(outBuf := [])) else c1;
      if k < |message| then
        c2.(outBuf := c2.outBuf + message[k..],
            channel := if c2.channel.events.writing then c2.channel else c2.channel.EnableWriting())
      else c2
  }

  /** `handleWrite`; `n` is the result of writing the output buffer. */
  function HandleWrite(c: Conn, n: int): Conn
    requires n <= |c.outBuf|
  {
    if !c.channel.events.writing || n <= 0 then c
    else
      var c1 := c.(accepted := c.accepted + c.outBuf[..n], outBuf := c.outBuf[n..]);
      if c1.outBuf == [] then Complete(c1.(channel := c1.channel.DisableWriting())) else c1
  }

  function HandleClose(c: Conn): Conn {
    c.(channel := c.channel.(index := Deleted).DisableAll())
  }

  // ---- Runs ----

  datatype Label = Send(message: seq<Byte>, n: int) | Writable(n: int) | Close

  function Step(c: Conn, l: Label): Conn {
    match l
    case Send(message, n) => if n <= |message| then SendInLoop(c, message, n) else c
    case Writable(n) => if n <= |c.outBuf| then HandleWrite(c, n) else c
    case Close => HandleClose(c)
  }

  function Run(c: Conn, ls: seq<Label>): Conn
    decreases ls
  {
    if ls == [] then c else Run(Step(c, ls[0]), ls[1..])
  }

  predicate Inv(c: Conn) {
    && c.accepted + c.outBuf == Concat(c.sent)
    && (c.channel.index == Added || c.channel.index == Deleted)
    && (c.channel.index == Added ==>
          c.channel.kernel == Some(c.channel.events) && c.channel.events == Events(true, c.outBuf != []))
    && (c.channel.index == Deleted ==> c.channel.kernel == None)
    && (forall i :: 0 <= i < |c.completions| ==> c.completions[i].accepted == c.completions[i].sent)
  }

  lemma SendConserves(c: Conn, message: seq<Byte>, n: int)
    requires c.accepted + c.outBuf == Concat(c.sent) && n <= |message|
    ensures var c' := SendInLoop(c, message, n); c'.accepted + c'.outBuf == Concat(c'.sent)
  {
    hide Channel.EnableWriting;
    ConcatAppend(c.sent, message);
    if !SendThrows(c, n) {
      var c' := SendInLoop(c, message, n);
      if c.outBuf == [] {
        assert message[..n] + message[n..] == message;
        assert c'.accepted + c'.outBuf == c.accepted + message;
      } else {
        assert c'.accepted + c'.outBuf == c.accepted + (c.outBuf + message);
      }
    }
  }

  lemma SendKeepsInv(c: Conn, message: seq<Byte>, n: int)
    requires Inv(c) && n <= |message|
    ensures Inv(SendInLoop(c, message, n))
  {
    hide Concat;
    SendConserves(c, message, n);
  }

  lemma WriteKeepsInv(c: Conn, n: int)
    requires Inv(c) && n <= |c.outBuf|
    ensures Inv(HandleWrite(c, n))
  {
    if n > 0 {
      assert c.outBuf[..n] + c.outBuf[n..] == c.outBuf;
      assert c.accepted + c.outBuf[..n] + c.outBuf[n..] == c.accepted + c.outBuf;
    }
  }

  lemma StepKeepsInv(c: Conn, l: Label)
    requires Inv(c)
    ensures Inv(Step(c, l))
  {
    hide SendInLoop, HandleWrite;
    match l
    case Send(message, n) => if n <= |message| { SendKeepsInv(c, message, n); }
    case Writable(n) => if n <= |c.outBuf| { WriteKeepsInv(c, n); }
    case Close =>
  }

  lemma {:induction false} RunKeepsInv(c: Conn, ls: seq<Label>)
    requires Inv(c)
    ensures Inv(Run(c, ls))
    decreases ls
  {
    hide Inv, Step;
    if ls != [] {
      StepKeepsInv(c, ls[0]);
      RunKeepsInv(Step(c, ls[0]), ls[1..]);
    }
  }

  lemma OpenedInv()
    ensures Inv(Opened())
  {
  }

  /**
   Whatever the socket takes at a time, nothing is lost, repeated or reordered; until the connection is closed the
   kernel watches for input, and for writability exactly while something waits; and a write-complete callback is queued
   only when everything sent so far has been accepted.
   */
  lemma OutputConservation(ls: seq<Label>)
    ensures var c := Run(Opened(), ls);
            && c.accepted + c.outBuf == Concat(c.sent)
            && (c.channel.index != Deleted ==> c.channel.kernel == Some(Events(true, c.outBuf != [])))
            && (forall i :: 0 <= i < |c.completions| ==> c.completions[i].accepted == c.completions[i].sent)
  {
    OpenedInv();
    RunKeepsInv(Opened(), ls);
  }

  /** A callback is queued exactly when an attempt to write has left nothing waiting. */
  lemma CompletionWhenDrained(c: Conn, l: Label)
    requires Inv(c) && c.channel.index == Added
    ensures Step(c, l).completions != c.completions <==>
            && Step(c, l).outBuf == []
            && match l
               case Send(message, n) => c.outBuf == [] && 0 <= n <= |message|
               case Writable(n) => c.outBuf != [] && n <= |c.outBuf|
               case Close => false
  {
  }

  // ---- Closing ----

  /** Closing takes the descriptor out of the poller and asks for no event; what waits is neither sent nor dropped. */
  lemma CloseMeans(c: Conn)
    ensures var c' := HandleClose(c);
            && c'.channel.index == Deleted && c'.channel.kernel == None && c'.channel.events == Events(false, false)
            && c'.outBuf == c.outBuf && c'.accepted == c.accepted && c'.sent == c.sent
            && c'.completions == c.completions
  {
  }

  lemma StepOnIndex(c: Conn, l: Label)
    requires Inv(c)
    ensures Step(c, l).channel.index == Deleted <==> l == Close || c.channel.index == Deleted
  {
  }

  lemma {:induction false} DeletedByClose(c: Conn, ls: seq<Label>)
    requires Inv(c)
    ensures Run(c, ls).channel.index == Deleted <==> Close in ls || c.channel.index == Deleted
    decreases ls
  {
    hide Inv, Step;
    if ls != [] {
      StepOnIndex(c, ls[0]);
      StepKeepsInv(c, ls[0]);
      DeletedByClose(Step(c, ls[0]), ls[1..]);
      assert ls == [ls[0]] + ls[1..];
    }
  }

  /**
   In every run, the poller watches the connection, for input and for whatever room the buffer needs, exactly until the
   first close; after it, for nothing and for good, whatever is sent.
   */
  lemma WatchedUntilClosed(ls: seq<Label>)
    ensures var c := Run(Opened(), ls);
            c.channel.kernel == if Close in ls then None else Some(Events(true, c.outBuf != []))
  {
    OpenedInv();
    RunKeepsInv(Opened(), ls);
    DeletedByClose(Opened(), ls);
  }

  /** A failed direct write with nothing waiting throws, and the message is in neither the stream nor the buffer. */
  lemma FailedWriteThrows(message: seq<Byte>)
    ensures SendThrows(Opened(), -1) && SendInLoop(Opened(), message, -1) == Opened()
  {
  }
}
