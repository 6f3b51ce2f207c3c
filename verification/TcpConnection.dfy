/** The connection object: a `Buffer`, a channel registered with epoll, and the loop its callbacks are queued on. */
module TcpConnections {
  import opened Bytes
  import opened Buffers
  import L = EventLoops
  import C = Connections
  import opened SendOrder

  /** What the poller has for a descriptor after an update: the events asked for, or nothing. */
  function Registration(index: C.Index, kernel: Option<C.Events>, events: C.Events): Option<C.Events> {
    if index == C.New || (index == C.Added && kernel.Some?) then Some(events) else None
  }

  class Channel {
    var events: C.Events
    var index: C.Index
    ghost var kernel: Option<C.Events>  // the poller's entry for the descriptor

    ghost function View(): C.Channel
      reads this
    {
      C.Channel(events, index, kernel)
    }

    constructor ()
      ensures View() == C.Channel(C.Events(false, false), C.New, None)
    {
      events, index, kernel := C.Events(false, false), C.New, None;
    }

    /**
     Afterwards the poller watches for exactly the events asked for, or, if the channel is being deleted or was never
     registered, for none; a channel updated once is never new again.
     */
    method Update()
      modifies this
      ensures View() == old(View()).Update()
      ensures kernel == Registration(old(index), old(kernel), events)
      ensures index != C.New && events == old(events) && (old(index) != C.New ==> index == old(index))
    {
      if index == C.New {
        index := C.Added;
        kernel := Some(events);
      } else if index == C.Added {
        if kernel.Some? {
          kernel := Some(events);
        }
      } else {
        kernel := None;
      }
    }

    method EnableReading()
      modifies this
      ensures View() == old(View()).EnableReading()
      ensures events == C.Events(true, old(events).writing)
      ensures kernel == Registration(old(index), old(kernel), events)
      ensures index == if old(index) == C.New then C.Added else old(index)
    {
      events := events.(reading := true);
      Update();
    }

    method EnableWriting()
      modifies this
      ensures View() == old(View()).EnableWriting()
      ensures events == C.Events(old(events).reading, true)
      ensures kernel == Registration(old(index), old(kernel), events)
      ensures index == if old(index) == C.New then C.Added else old(index)
    {
      events := events.(writing := true);
      Update();
    }

    method DisableWriting()
      modifies this
      ensures View() == old(View()).DisableWriting()
      ensures events == C.Events(old(events).reading, false)
      ensures kernel == Registration(old(index), old(kernel), events)
      ensures index == if old(index) == C.New then C.Added else old(index)
    {
      events := events.(writing := false);
      Update();
    }

    method SetIndex(i: C.Index)
      modifies this`index
      ensures View() == old(View()).(index := i)
    {
      index := i;
    }

    method DisableAll()
      modifies this
      ensures View() == old(View()).DisableAll()
      ensures events == C.Events(false, false)
      ensures kernel == Registration(old(index), old(kernel), events)
      ensures index == if old(index) == C.New then C.Added else old(index)
    {
      events := C.Events(false, false);
      Update();
    }
  }

  class TcpConnection {
    const outBuf: Buffer
    const channel: Channel
    const loop: L.EventLoop<Task>
    ghost var accepted: seq<Byte>
    ghost var sent: seq<seq<Byte>>
    ghost var completions: seq<C.Completion>

    ghost predicate Valid()
      reads this, outBuf, loop
    {
      outBuf.Valid() && loop.Valid()
    }

    ghost function View(): C.Conn
      requires outBuf.Valid()
      reads this, outBuf, outBuf.buf, channel
    {
      C.Conn(outBuf.Contents(), channel.View(), accepted, sent, completions)
    }

    constructor (l: L.EventLoop<Task>)
      requires l.Valid()
      ensures Valid() && loop == l && View() == C.Opened()
      ensures outBuf.Contents() == [] && accepted == [] && sent == [] && completions == []
      ensures channel.index == C.Added && channel.kernel == Some(C.Events(true, false)) == Some(channel.events)
      ensures fresh(outBuf) && fresh(outBuf.buf) && fresh(channel)
    {
      loop := l;
      outBuf := new Buffer(INITIAL_SIZE);
      channel := new Channel();
      accepted, sent, completions := [], [], [];
      new;
      channel.EnableReading();
    }

    /** The write-complete callback goes through the loop's queue. */
    method QueueWriteComplete()
      requires Valid() && OnLoopThread(loop.machine)
      modifies this`completions, loop
      ensures Valid() && View() == C.Complete(old(View()))
      ensures completions == old(completions) + [C.Completion(|accepted|, |Concat(sent)|)]
      ensures loop.pendingFunctors == old(loop.pendingFunctors) + [WriteComplete]
      ensures loop.machine == L.Step(L.Step(old(loop.machine), L.LoopPush(WriteComplete)), L.LoopWake)
    {
      loop.QueueFromLoop(WriteComplete);
      completions := completions + [C.Completion(|accepted|, |Concat(sent)|)];
    }

    /**
     `sendInLoop`; `written` is what the direct write returns, if one is made.  A failed write ends in an exception
     (`threw`) with the connection as it was.
     */
    method SendInLoop(message: seq<Byte>, written: int) returns (threw: bool)
      requires Valid() && OnLoopThread(loop.machine) && -1 <= written <= |message|
      modifies this, outBuf, outBuf.buf, channel, loop
      ensures Valid()
      ensures threw == C.SendThrows(old(View()), written) == (old(outBuf.Contents()) == [] && written < 0)
      ensures View() == C.SendInLoop(old(View()), message, written)
      ensures threw ==> accepted == old(accepted) && outBuf.Contents() == [] && sent == old(sent)
      ensures !threw ==>
                var k := if old(outBuf.Contents()) == [] then written else 0;
                && accepted == old(accepted) + message[..k]
                && outBuf.Contents() == old(outBuf.Contents()) + message[k..]
                && sent == old(sent) + [message]
      ensures loop.machine == if completions == old(completions) then old(loop.machine)
                              else L.Step(L.Step(old(loop.machine), L.LoopPush(WriteComplete)), L.LoopWake)
    {
      hide L.Inv, L.Step, Layout.Append, Concat;
      threw := false;
      var n := 0;
      var waiting := outBuf.ReadableBytes();
      if waiting == 0 {
        n := written;
        if n < 0 {
          return true;
        }
        accepted := accepted + message[..n];
      }
      sent := sent + [message];
      if waiting == 0 && n == |message| {
        outBuf.RetrieveAll();
        QueueWriteComplete();
      }
      if n < |message| {
        outBuf.Append(message[n..]);
        if !channel.events.writing {
          channel.EnableWriting();
        }
      }
    }

    /** `send`: at once on the loop thread, through the loop's queue from any other. */
    method Send(message: seq<Byte>, inLoopThread: bool, thread: nat, written: int) returns (threw: bool)
      requires Valid() && -1 <= written <= |message|
      requires if inLoopThread then OnLoopThread(loop.machine) else thread !in loop.machine.pushers
      modifies this, outBuf, outBuf.buf, channel, loop
      ensures Valid()
      ensures threw == (inLoopThread && C.SendThrows(old(View()), written))
      ensures View() == if inLoopThread then C.SendInLoop(old(View()), message, written) else old(View())
      ensures !inLoopThread ==>
                var pushed := L.Step(old(loop.machine), L.Push(thread, SendTask(thread, message)));
                && loop.machine == L.Step(pushed, L.Wake(thread))
                && loop.pendingFunctors == old(loop.pendingFunctors) + [SendTask(thread, message)]
    {
      hide L.Inv, L.Step, C.SendInLoop;
      if inLoopThread {
        threw := SendInLoop(message, written);
      } else {
        threw := false;
        loop.QueueFromThread(SendTask(thread, message), thread);
      }
    }

    /** `handleWrite`; `n` is what writing the output buffer returns. */
    method HandleWrite(n: int)
      requires Valid() && OnLoopThread(loop.machine) && n <= |outBuf.Contents()|
      modifies this, outBuf, channel, loop
      ensures Valid()
      ensures View() == C.HandleWrite(old(View()), n)
      ensures var k := if old(channel.events.writing) && n > 0 then n else 0;
              && accepted == old(accepted) + old(outBuf.Contents())[..k]
              && outBuf.Contents() == old(outBuf.Contents())[k..]
              && sent == old(sent)
      ensures loop.machine == if completions == old(completions) then old(loop.machine)
                              else L.Step(L.Step(old(loop.machine), L.LoopPush(WriteComplete)), L.LoopWake)
    {
      hide L.Inv, L.Step, Concat;
      if channel.events.writing {
        if n > 0 {
          accepted := accepted + outBuf.Contents()[..n];
          outBuf.Retrieve(n);
          var waiting := outBuf.ReadableBytes();
          if waiting == 0 {
            channel.DisableWriting();
            QueueWriteComplete();
          }
        }
      }
    }

    /** `handleClose`: the poller forgets the descriptor; nothing else changes. */
    method HandleClose()
      requires Valid()
      modifies channel
      ensures Valid() && View() == C.HandleClose(old(View()))
      ensures channel.index == C.Deleted && channel.kernel == None && channel.events == C.Events(false, false)
      ensures outBuf.Contents() == old(outBuf.Contents())
      ensures accepted == old(accepted) && sent == old(sent) && completions == old(completions)
    {
      channel.SetIndex(C.Deleted);
      channel.DisableAll();
    }
  }
}
