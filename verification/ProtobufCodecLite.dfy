/** The codec class, working on a `Buffer` and on `RpcMetaMessage` objects. */
module ProtobufCodecs {
  import opened Bytes
  import opened RpcMeta
  import opened RpcMetaMessages
  import opened Buffers
  import opened Codec
  import Adler

  lemma AppendKeepsHead(g: Layout, len: nat)
    requires g.Valid() && g.reader == CHEAP_PREPEND
    ensures g.Append(len).reader == CHEAP_PREPEND
  {
  }

  ghost function Values(messages: seq<RpcMetaMessage>): (vs: seq<Meta>)
    reads messages
    ensures |vs| == |messages|
  {
    if messages == [] then [] else Values(messages[..|messages| - 1]) + [messages[|messages| - 1].Value()]
  }

  function After(ms: seq<Meta>, d: Outcome): Outcome {
    d.(messages := ms + d.messages)
  }

  lemma ValuesEmpty()
    ensures Values([]) == []
  {
  }

  lemma ValuesAppend(messages: seq<RpcMetaMessage>, message: RpcMetaMessage)
    ensures Values(messages + [message]) == Values(messages) + [message.Value()]
  {
    assert (messages + [message])[..|messages|] == messages;
  }

  lemma AfterNothing(d: Outcome)
    ensures After([], d) == d
  {
    assert [] + d.messages == d.messages;
  }

  /** What one turn contributes to the outcome of the loop. */
  lemma DecodeTurn(tag: seq<Byte>, seen: seq<Meta>, s: seq<Byte>)
    ensures NextFrame(tag, s).Wait? ==> After(seen, Decode(tag, s)) == Outcome(seen, s, None)
    ensures NextFrame(tag, s).Fail? ==>
              After(seen, Decode(tag, s)) == Outcome(seen, s, Some(NextFrame(tag, s).error))
    ensures NextFrame(tag, s).Deliver? ==>
              && After(seen, Decode(tag, s)) ==
                 After(seen + [NextFrame(tag, s).message], Decode(tag, NextFrame(tag, s).rest))
              && |NextFrame(tag, s).rest| < |s|
  {
    hide NextFrame;
    assert seen + [] == seen;
    if NextFrame(tag, s).Deliver? {
      DeliverShrinks(tag, s);
      var m, more := NextFrame(tag, s).message, Decode(tag, NextFrame(tag, s).rest).messages;
      assert seen + ([m] + more) == seen + [m] + more;
    }
  }

  lemma DecodeShort(tag: seq<Byte>, seen: seq<Meta>, s: seq<Byte>)
    requires |s| < MinMessageLen(tag) + HEADER_LEN
    ensures After(seen, Decode(tag, s)) == Outcome(seen, s, None)
  {
    DecodeTurn(tag, seen, s);
  }

  lemma FillsFrame(tag: seq<Byte>, m: Meta)
    ensures |tag| + |Serialize(m)| + 4 < TWO_32 ==> IsFrame(tag, Serialize(m), Encode(tag, m))
  {
    hide IsFrame, Serialize, Encode;
    if |tag| + |Serialize(m)| + 4 < TWO_32 {
      FrameLayout(tag, m);
    }
  }

  class ProtobufCodecLite {
    const tag: seq<Byte>

    constructor (tagArg: seq<Byte>)
      ensures tag == tagArg
    {
      tag := tagArg;
    }

    method SerializeToBuffer(message: RpcMetaMessage, buf: Buffer) returns (byteSize: nat)
      requires message.Valid() && buf.Valid()
      modifies buf, buf.buf
      ensures buf.Valid() && (buf.buf == old(buf.buf) || fresh(buf.buf))
      ensures buf.readerIndex == old(buf.readerIndex) || buf.readerIndex == CHEAP_PREPEND
      ensures byteSize == |Serialize(message.Value())| && buf.buf.Length - buf.writerIndex >= CHECKSUM_LEN
      ensures buf.Contents() == old(buf.Contents()) + Serialize(message.Value())
    {
      hide RpcMetaMessage.Value, RpcMetaMessage.Consistent, Serialize;
      byteSize := message.ByteSizeLong();
      buf.EnsureWritableBytes(byteSize + CHECKSUM_LEN);
      var target := message.InternalSerialize();
      buf.Store(target);
      buf.HasWritten(byteSize);
    }

    /** The four octets of room before the contents are always there for the length. */
    method FillEmptyBuffer(buf: Buffer, message: RpcMetaMessage)
      requires message.Valid() && buf.Valid() && buf.Contents() == []
      modifies buf, buf.buf
      ensures buf.Valid() && (buf.buf == old(buf.buf) || fresh(buf.buf))
      ensures buf.Contents() == Encode(tag, message.Value())
      ensures var payload := Serialize(message.Value());
              |tag| + |payload| + 4 < TWO_32 ==> IsFrame(tag, payload, buf.Contents())
    {
      hide IsFrame, Layout.Append, Layout.EnsureWritable, Layout.Prepend, Serialize, Be32, Adler.Checksum,
        RpcMetaMessage.Value, RpcMetaMessage.Consistent;
      AppendKeepsHead(buf.Geometry(), |tag|);
      buf.Append(tag);
      var byteSize := SerializeToBuffer(message, buf);
      var n := buf.ReadableBytes();
      var body := buf.Peek(0, n);
      assert body == Body(tag, message.Value());
      AppendKeepsHead(buf.Geometry(), CHECKSUM_LEN);
      buf.Append(Be32(Adler.Checksum(body)));
      n := buf.ReadableBytes();
      assert buf.Contents() == Seal(Body(tag, message.Value()));
      buf.Prepend(Be32(n % TWO_32));
      FillsFrame(tag, message.Value());
    }

    /** `send`: what reaches the connection is the frame. */
    method Send(message: RpcMetaMessage) returns (msg: seq<Byte>)
      requires message.Valid()
      ensures msg == Encode(tag, message.Value())
      ensures var payload := Serialize(message.Value());
              |tag| + |payload| + 4 < TWO_32 ==> IsFrame(tag, payload, msg)
    {
      hide IsFrame, Encode, Serialize;
      var buf := new Buffer(INITIAL_SIZE);
      FillEmptyBuffer(buf, message);
      msg := buf.RetrieveAllAsString();
    }

    method ParseInto(frame: seq<Byte>, message: RpcMetaMessage) returns (error: Option<ErrorCode>)
      requires |frame| >= MinMessageLen(tag) && message.Valid()
      modifies message
      ensures var result := ParseFrame(tag, frame);
              && error == (if result.Failed? then Some(result.error) else None)
              && (result.Parsed? ==> message.Valid() && message.Value() == result.message)
      ensures error == Some(CheckSumError) <==> !SumAt(frame, |frame| - 4, frame[..|frame| - 4])
    {
      ChecksumMeans(frame);
      hide SumAt, ValidateChecksum;
      hide RpcMetaMessage.Value, RpcMetaMessage.Consistent, Parse;
      if ValidateChecksum(frame) {
        if frame[..|tag|] == tag {
          var ok := message.ParseFromArray(frame[|tag|..|frame| - CHECKSUM_LEN]);
          error := if ok then None else Some(ParseError);
        } else {
          error := Some(UnknownMessageType);
        }
      } else {
        error := Some(CheckSumError);
      }
    }

    /** The loop body, entered with at least a shortest frame in the buffer. */
    method Turn(buf: Buffer) returns (message: RpcMetaMessage, error: Option<ErrorCode>, delivered: bool)
      requires buf.Valid() && |buf.Contents()| >= MinMessageLen(tag) + HEADER_LEN
      modifies buf`readerIndex, buf`writerIndex
      ensures buf.Valid() && fresh(message)
      ensures var turn := NextFrame(tag, old(buf.Contents()));
              && delivered == turn.Deliver?
              && error == (if turn.Fail? then Some(turn.error) else None)
              && buf.Contents() == (if turn.Deliver? then turn.rest else old(buf.Contents()))
              && (turn.Deliver? ==> message.Value() == turn.message)
    {
      hide RpcMetaMessage.Value, RpcMetaMessage.Consistent, ParseFrame, FromBe32, SumAt;
      error, delivered := None, false;
      message := new RpcMetaMessage();
      ghost var s := buf.Contents();
      var be32 := buf.Peek(0, HEADER_LEN);
      FromBe32Prefix(be32, s[HEADER_LEN..]);
      assert s == be32 + s[HEADER_LEN..];
      var len := ToInt32(FromBe32(be32));
      if len > MAX_MESSAGE_LEN || len < MinMessageLen(tag) {
        error := Some(InvalidLength);
        return;
      }
      var n := buf.ReadableBytes();
      if n >= HEADER_LEN + len {
        var frame := buf.Peek(HEADER_LEN, len);
        error := ParseInto(frame, message);
        if error.None? {
          delivered := true;
          buf.Retrieve(HEADER_LEN + len);
        }
      }
    }

    /** The receive loop: hands complete messages on, in order, and stops at the first error or incomplete frame. */
    method OnMessage(buf: Buffer) returns (messages: seq<RpcMetaMessage>, error: Option<ErrorCode>)
      requires buf.Valid()
      modifies buf`readerIndex, buf`writerIndex
      ensures buf.Valid()
      ensures Outcome(Values(messages), buf.Contents(), error) == Decode(tag, old(buf.Contents()))
    {
      hide RpcMetaMessage.Value, NextFrame, Decode, After, Values, Layout.Valid;
      messages, error := [], None;
      ghost var s0, seen := buf.Contents(), [];
      ValuesEmpty();
      AfterNothing(Decode(tag, s0));
      var n := buf.ReadableBytes();
      while n >= MinMessageLen(tag) + HEADER_LEN
        modifies buf`readerIndex, buf`writerIndex
        invariant buf.Valid() && n == |buf.Contents()| && error == None
        invariant forall m :: m in messages ==> fresh(m)
        invariant Values(messages) == seen
        invariant Decode(tag, s0) == After(seen, Decode(tag, buf.Contents()))
        decreases n
      {
        DecodeTurn(tag, seen, buf.Contents());
        var message, delivered;
        message, error, delivered := Turn(buf);
        if !delivered {
          return;
        }
        ValuesAppend(messages, message);
        messages, seen := messages + [message], seen + [message.Value()];
        n := buf.ReadableBytes();
      }
      DecodeShort(tag, seen, buf.Contents());
    }
  }
}
