/**
 The frame codec:  size (4 octets, big-endian) | tag | payload | Adler-32 of tag and payload (4 octets).
 `size` counts everything after itself.
 */
module Codec {
  import opened Bytes
  import opened RpcMeta
  import Adler

  const HEADER_LEN := 4
  const CHECKSUM_LEN := 4
  const MAX_MESSAGE_LEN := 64 * 1024 * 1024

  datatype ErrorCode = InvalidLength | CheckSumError | UnknownMessageType | ParseError

  datatype ParseResult = Parsed(message: Meta) | Failed(error: ErrorCode)

  /** What one turn of the receive loop does. */
  datatype Turn = Wait | Fail(error: ErrorCode) | Deliver(message: Meta, rest: seq<Byte>)

  datatype Outcome = Outcome(messages: seq<Meta>, rest: seq<Byte>, error: Option<ErrorCode>)

  // ---- Sending ----

  function Body(tag: seq<Byte>, m: Meta): seq<Byte> {
    tag + Serialize(m)
  }

  function Seal(body: seq<Byte>): seq<Byte> {
    body + Be32(Adler.Checksum(body))
  }

  /** The length goes through an `int32_t`. */
  function Frame(sealed: seq<Byte>): seq<Byte> {
    Be32(|sealed| % TWO_32) + sealed
  }

  function Encode(tag: seq<Byte>, m: Meta): seq<Byte> {
    Frame(Seal(Body(tag, m)))
  }

  function MinMessageLen(tag: seq<Byte>): nat {
    |tag| + CHECKSUM_LEN
  }

  /** What a receiver will accept: `send` itself checks neither condition. */
  predicate Sendable(tag: seq<Byte>, m: Meta) {
    m.Valid() && m.Initialized() && |Seal(Body(tag, m))| <= MAX_MESSAGE_LEN
  }

  /** The byte stream of several messages. */
  function Stream(tag: seq<Byte>, ms: seq<Meta>): seq<Byte> {
    if ms == [] then [] else Encode(tag, ms[0]) + Stream(tag, ms[1..])
  }

  predicate AllSendable(tag: seq<Byte>, ms: seq<Meta>) {
    forall m :: m in ms ==> Sendable(tag, m)
  }

  // ---- Receiving ----

  predicate ValidateChecksum(frame: seq<Byte>)
    requires |frame| >= CHECKSUM_LEN
  {
    ToInt32(FromBe32(frame[|frame| - CHECKSUM_LEN..]))
    == ToInt32(Adler.Checksum(frame[..|frame| - CHECKSUM_LEN]))
  }

  /** Checksum first, then tag, then payload. */
  function ParseFrame(tag: seq<Byte>, frame: seq<Byte>): ParseResult
    requires |frame| >= MinMessageLen(tag)
  {
    if !ValidateChecksum(frame) then Failed(CheckSumError)
    else if frame[..|tag|] != tag then Failed(UnknownMessageType)
    else
      match Parse(frame[|tag|..|frame| - CHECKSUM_LEN])
      case None => Failed(ParseError)
      case Some(m) => Parsed(m)
  }

  predicate LengthOk(tag: seq<Byte>, len: int) {
    MinMessageLen(tag) <= len <= MAX_MESSAGE_LEN
  }

  function TakeFrame(tag: seq<Byte>, s: seq<Byte>): Turn
    requires |s| >= HEADER_LEN
  {
    var len := ToInt32(FromBe32(s));
    if !LengthOk(tag, len) then Fail(InvalidLength)
    else if |s| < HEADER_LEN + len then Wait
    else
      match ParseFrame(tag, s[HEADER_LEN..HEADER_LEN + len])
      case Failed(e) => Fail(e)
      case Parsed(m) => Deliver(m, s[HEADER_LEN + len..])
  }

  /** One turn of the loop: nothing is looked at until the shortest possible frame is there. */
  function NextFrame(tag: seq<Byte>, s: seq<Byte>): Turn {
    if |s| < MinMessageLen(tag) + HEADER_LEN then Wait else TakeFrame(tag, s)
  }

  lemma DeliverShrinks(tag: seq<Byte>, s: seq<Byte>)
    requires NextFrame(tag, s).Deliver?
    ensures |NextFrame(tag, s).rest| + HEADER_LEN + MinMessageLen(tag) <= |s|
  {
  }

  /** The whole loop over what is in the buffer; an error leaves its frame, and all behind it, unconsumed. */
  function Decode(tag: seq<Byte>, s: seq<Byte>): Outcome
    decreases |s|
  {
    match NextFrame(tag, s)
    case Wait => Outcome([], s, None)
    case Fail(e) => Outcome([], s, Some(e))
    case Deliver(m, rest) =>
      DeliverShrinks(tag, s);
      var more := Decode(tag, rest);
      more.(messages := [m] + more.messages)
  }

  /** The loop run once per chunk as it arrives; after an error nothing more is looked at. */
  function DecodeChunks(tag: seq<Byte>, buffered: seq<Byte>, chunks: seq<seq<Byte>>): Outcome
    decreases chunks
  {
    if chunks == [] then Outcome([], buffered, None)
    else
      var first := Decode(tag, buffered + chunks[0]);
      if first.error.Some? then first.(rest := first.rest + Concat(chunks[1..]))
      else
        var more := DecodeChunks(tag, first.rest, chunks[1..]);
        more.(messages := first.messages + more.messages)
  }

  // ---- Chunking ----

  lemma FromBe32Prefix(s: seq<Byte>, more: seq<Byte>)
    requires |s| >= 4
    ensures FromBe32(s + more) == FromBe32(s)
  {
  }

  /** A verdict once reached stands, whatever arrives later. */
  lemma NextFrameStable(tag: seq<Byte>, s: seq<Byte>, more: seq<Byte>)
    ensures NextFrame(tag, s).Fail? ==> NextFrame(tag, s + more) == NextFrame(tag, s)
    ensures NextFrame(tag, s).Deliver? ==>
              NextFrame(tag, s + more) == Deliver(NextFrame(tag, s).message, NextFrame(tag, s).rest + more)
  {
    hide ParseFrame, FromBe32, ToInt32;
    if !NextFrame(tag, s).Wait? {
      FromBe32Prefix(s, more);
      var len := ToInt32(FromBe32(s));
      if LengthOk(tag, len) {
        assert (s + more)[HEADER_LEN..HEADER_LEN + len] == s[HEADER_LEN..HEADER_LEN + len];
        assert (s + more)[HEADER_LEN + len..] == s[HEADER_LEN + len..] + more;
      }
    }
  }

  lemma {:induction false} DecodeAppend(tag: seq<Byte>, s: seq<Byte>, more: seq<Byte>)
    ensures var d := Decode(tag, s);
            Decode(tag, s + more) ==
            if d.error.Some? then d.(rest := d.rest + more)
            else Outcome(d.messages + Decode(tag, d.rest + more).messages,
                         Decode(tag, d.rest + more).rest, Decode(tag, d.rest + more).error)
    decreases |s|
  {
    hide NextFrame;
    NextFrameStable(tag, s, more);
    match NextFrame(tag, s)
    case Wait =>
    case Fail(_) =>
    case Deliver(m, rest) =>
      DeliverShrinks(tag, s);
      DecodeAppend(tag, rest, more);
      var d := Decode(tag, rest);
      assert [m] + (d.messages + Decode(tag, d.rest + more).messages)
          == [m] + d.messages + Decode(tag, d.rest + more).messages;
  }

  /** How the stream is cut into chunks changes nothing: same messages, same first error, same leftover bytes. */
  lemma {:induction false} ChunkingIndependence(tag: seq<Byte>, buffered: seq<Byte>, chunks: seq<seq<Byte>>)
    requires NextFrame(tag, buffered) == Wait
    ensures DecodeChunks(tag, buffered, chunks) == Decode(tag, buffered + Concat(chunks))
    decreases chunks
  {
    hide NextFrame;
    if chunks == [] {
      assert buffered + Concat(chunks) == buffered;
    } else {
      var s, more := buffered + chunks[0], Concat(chunks[1..]);
      assert buffered + Concat(chunks) == s + more;
      DecodeAppend(tag, s, more);
      if Decode(tag, s).error.None? {
        DecodeLeavesNothing(tag, s);
        ChunkingIndependence(tag, Decode(tag, s).rest, chunks[1..]);
      }
    }
  }

  /** The loop stops only on an error or when it can do nothing more. */
  lemma {:induction false} DecodeLeavesNothing(tag: seq<Byte>, s: seq<Byte>)
    ensures var d := Decode(tag, s);
            NextFrame(tag, d.rest) == if d.error.None? then Wait else Fail(d.error.value)
    decreases |s|
  {
    hide NextFrame;
    if NextFrame(tag, s).Deliver? {
      DeliverShrinks(tag, s);
      DecodeLeavesNothing(tag, NextFrame(tag, s).rest);
    }
  }

  /**
   Compared with looking at the length as soon as it is there, waiting for a shortest frame delays exactly one
   thing: the report of a bad length while fewer octets than that are buffered.
   */
  lemma GuardDelaysOnlyBadLengths(tag: seq<Byte>, s: seq<Byte>)
    requires |s| >= HEADER_LEN
    ensures NextFrame(tag, s) == TakeFrame(tag, s) <==>
            |s| >= MinMessageLen(tag) + HEADER_LEN || LengthOk(tag, ToInt32(FromBe32(s)))
    ensures NextFrame(tag, s) != TakeFrame(tag, s) ==> TakeFrame(tag, s) == Fail(InvalidLength)
  {
  }

  /** Such a stream: a length of zero, with nothing behind it yet, is not reported. */
  lemma ZeroLengthIsNotReported(tag: seq<Byte>)
    ensures NextFrame(tag, [0, 0, 0, 0]) == Wait && TakeFrame(tag, [0, 0, 0, 0]) == Fail(InvalidLength)
  {
    var s: seq<Byte> := [0, 0, 0, 0];
    assert FromBe32(s) == 0;
  }

  // ---- Round trip ----

  lemma SealValidates(body: seq<Byte>)
    ensures ValidateChecksum(Seal(body))
    ensures Seal(body)[..|body|] == body
  {
    Be32RoundTrip(Adler.Checksum(body), []);
    assert Seal(body)[|body|..] == Be32(Adler.Checksum(body)) + [];
  }

  lemma ParseSealed(tag: seq<Byte>, m: Meta)
    requires m.Valid()
    ensures ParseFrame(tag, Seal(Body(tag, m))) == if m.type_.Some? && m.id.Some? then Parsed(m)
                                                    else Failed(ParseError)
  {
    hide ValidateChecksum, Serialize, Parse, Meta.Valid, Seal;
    var body := Body(tag, m);
    SealValidates(body);
    SealLength(body);
    assert Seal(body)[..|tag|] == body[..|tag|] == tag;
    assert Seal(body)[|tag|..|body|] == body[|tag|..] == Serialize(m);
    RoundTrip(m);
  }

  lemma SealLength(body: seq<Byte>)
    ensures |Seal(body)| == |body| + CHECKSUM_LEN
  {
  }

  /** The fate of any printable message at the receiver, whatever follows it on the wire. */
  lemma FrameFate(tag: seq<Byte>, m: Meta, more: seq<Byte>)
    requires m.Valid() && |Seal(Body(tag, m))| < TWO_31
    ensures NextFrame(tag, Encode(tag, m) + more) ==
            if |Seal(Body(tag, m))| > MAX_MESSAGE_LEN then Fail(InvalidLength)
            else if m.type_.None? || m.id.None? then Fail(ParseError)
            else Deliver(m, more)
  {
    hide ParseFrame, Seal, Meta.Valid, FromBe32, Be32;
    var sealed := Seal(Body(tag, m));
    var s := Encode(tag, m) + more;
    SealLength(Body(tag, m));
    Be32RoundTrip(|sealed|, sealed + more);
    assert s == Be32(|sealed|) + (sealed + more);
    assert ToInt32(FromBe32(s)) == |sealed|;
    ParseSealed(tag, m);
    assert s[HEADER_LEN..HEADER_LEN + |sealed|] == sealed;
    assert s[HEADER_LEN + |sealed|..] == more;
  }

  lemma NextOfSendable(tag: seq<Byte>, m: Meta, more: seq<Byte>)
    requires Sendable(tag, m)
    ensures NextFrame(tag, Encode(tag, m) + more) == Deliver(m, more)
  {
    hide NextFrame, Encode, Meta.Valid;
    FrameFate(tag, m, more);
  }

  /** A frame with a right checksum is refused for its tag exactly when it does not begin with ours. */
  lemma ForeignTag(tag: seq<Byte>, body: seq<Byte>, more: seq<Byte>)
    requires |tag| <= |body| && |Seal(body)| <= MAX_MESSAGE_LEN
    ensures NextFrame(tag, Frame(Seal(body)) + more) == Fail(UnknownMessageType) <==> body[..|tag|] != tag
  {
    hide Parse, Seal, ValidateChecksum, FromBe32, Be32;
    var sealed := Seal(body);
    SealLength(body);
    SealValidates(body);
    var s := Frame(sealed) + more;
    Be32RoundTrip(|sealed|, sealed + more);
    assert s == Be32(|sealed|) + (sealed + more);
    assert s[HEADER_LEN..HEADER_LEN + |sealed|] == sealed;
    assert sealed[..|tag|] == body[..|tag|];
  }

  /** Any list of sendable messages, printed back to back, is read back as that list and nothing else. */
  lemma {:induction false} StreamRoundTrip(tag: seq<Byte>, ms: seq<Meta>, more: seq<Byte>)
    requires AllSendable(tag, ms)
    ensures var d := Decode(tag, more);
            Decode(tag, Stream(tag, ms) + more) == d.(messages := ms + d.messages)
  {
    hide NextFrame, Encode, Sendable;
    if ms == [] {
      assert Stream(tag, ms) + more == more;
      assert [] + Decode(tag, more).messages == Decode(tag, more).messages;
    } else {
      var tail := Stream(tag, ms[1..]) + more;
      assert Stream(tag, ms) + more == Encode(tag, ms[0]) + tail;
      NextOfSendable(tag, ms[0], tail);
      StreamRoundTrip(tag, ms[1..], more);
      assert [ms[0]] + (ms[1..] + Decode(tag, more).messages) == ms + Decode(tag, more).messages;
    }
  }

  /** A receiver holding any part of a stream of sendable messages waits, or delivers the next one; it never fails. */
  lemma NextOnStream(tag: seq<Byte>, held: seq<Byte>, coming: seq<Byte>, ms: seq<Meta>)
    requires AllSendable(tag, ms) && held + coming == Stream(tag, ms)
    ensures var turn := NextFrame(tag, held);
            && !turn.Fail?
            && (turn.Deliver? ==> ms != [] && turn.message == ms[0] && turn.rest + coming == Stream(tag, ms[1..]))
  {
    hide NextFrame, Encode;
    NextFrameStable(tag, held, coming);
    if ms == [] {
      NextOfNothing(tag);
      assert held + coming == [];
    } else {
      NextOfSendable(tag, ms[0], Stream(tag, ms[1..]));
    }
  }

  lemma NextOfNothing(tag: seq<Byte>)
    ensures NextFrame(tag, []) == Wait
  {
  }

  // ---- The layout, octet by octet ----

  /** A number of two octets, most significant first. */
  function Be16(bs: seq<Byte>, at: nat): nat
    requires at + 2 <= |bs|
  {
    bs[at] as int * 256 + bs[at + 1] as int
  }

  /** The four octets from `at` on are the Adler-32 of `body`: the weighted sum first, then the plain one. */
  predicate SumAt(bs: seq<Byte>, at: nat, body: seq<Byte>)
    requires at + 4 <= |bs|
  {
    && Be16(bs, at) == (|body| + Adler.Weighted(body)) % 65521
    && Be16(bs, at + 2) == (1 + Adler.Total(body)) % 65521
  }

  /** Four octets of length, most significant first, counting all that follows; the body; its Adler-32. */
  predicate IsSealed(body: seq<Byte>, frame: seq<Byte>) {
    var n := |body|;
    && |frame| == n + 8
    && Be16(frame, 0) * 0x1_0000 + Be16(frame, 2) == n + 4
    && frame[4..4 + n] == body
    && SumAt(frame, n + 4, body)
  }

  /** A frame: the body is tag and payload. */
  predicate IsFrame(tag: seq<Byte>, payload: seq<Byte>, frame: seq<Byte>) {
    IsSealed(tag + payload, frame)
  }

  /** What is sent is such a frame. */
  lemma FrameLayout(tag: seq<Byte>, m: Meta)
    requires |tag| + |Serialize(m)| + 4 < TWO_32
    ensures IsFrame(tag, Serialize(m), Encode(tag, m))
  {
    FrameOfBody(tag, m);
    hide Seal, Serialize, Frame, Encode, IsSealed;
    BodyLayout(tag + Serialize(m));
  }

  lemma FrameOfBody(tag: seq<Byte>, m: Meta)
    ensures Encode(tag, m) == Frame(Seal(tag + Serialize(m)))
  {
  }

  lemma BodyLayout(body: seq<Byte>)
    requires |body| + 4 < TWO_32
    ensures IsSealed(body, Frame(Seal(body)))
  {
    hide Adler.Checksum, Adler.Weighted, Adler.Total, Be32, Be16;
    Adler.IsAdler32(body);
    var size, check := Be32(|body| + 4), Be32(Adler.Checksum(body));
    SealLength(body);
    Placed(size, body, check);
    HalvesOf(size, |body| + 4);
    HalvesOf(check, Adler.Checksum(body));
  }

  /** The same octets, counted from the start of the whole. */
  lemma Placed(size: seq<Byte>, body: seq<Byte>, check: seq<Byte>)
    requires |size| == 4 && |check| == 4
    ensures var frame := size + (body + check); var n := |body|;
            && |frame| == n + 8 && frame[4..4 + n] == body
            && Be16(frame, 0) == Be16(size, 0) && Be16(frame, 2) == Be16(size, 2)
            && Be16(frame, n + 4) == Be16(check, 0) && Be16(frame, n + 6) == Be16(check, 2)
  {
  }

  lemma HalvesOf(check: seq<Byte>, sum: nat)
    requires |check| == 4
    requires check[0] as int * 0x100_0000 + check[1] as int * 0x1_0000 + check[2] as int * 256 + check[3] as int == sum
    ensures Be16(check, 0) == sum / 0x1_0000 && Be16(check, 2) == sum % 0x1_0000
  {
  }

  /** What is received passes the checksum exactly if its last four octets are the Adler-32 of all before them. */
  lemma ChecksumMeans(frame: seq<Byte>)
    requires |frame| >= 4
    ensures ValidateChecksum(frame) <==> SumAt(frame, |frame| - 4, frame[..|frame| - 4])
  {
    hide ToInt32, Adler.Checksum, Adler.Weighted, Adler.Total, Be16, Be32;
    var body, check := frame[..|frame| - 4], frame[|frame| - 4..];
    assert frame == body + check;
    Adler.IsAdler32(body);
    FromBe32Means(check);
    HalvesOf(check, FromBe32(check));
    Tail(frame);
    ToInt32Injective(FromBe32(check), Adler.Checksum(body));
    SameHalves(FromBe32(check), Adler.Checksum(body));
  }

  lemma Tail(frame: seq<Byte>)
    requires |frame| >= 4
    ensures var check := frame[|frame| - 4..];
            Be16(frame, |frame| - 4) == Be16(check, 0) && Be16(frame, |frame| - 2) == Be16(check, 2)
  {
  }

  lemma FromBe32Means(check: seq<Byte>)
    requires |check| == 4
    ensures check[0] as int * 0x100_0000 + check[1] as int * 0x1_0000 + check[2] as int * 256 + check[3] as int
         == FromBe32(check)
  {
  }

  lemma SameHalves(x: nat, y: nat)
    ensures x == y <==> x / 0x1_0000 == y / 0x1_0000 && x % 0x1_0000 == y % 0x1_0000
  {
  }

  /**
   A length, most significant octet first and negative from 0x80000000 on, is refused exactly if it is below tag and
   checksum or above 64 MB, once as much as a shortest frame is there; a length in range is never refused.
   */
  lemma BadLengthFails(tag: seq<Byte>, s: seq<Byte>)
    requires |s| >= |tag| + 8
    ensures var word := Be16(s, 0) * 0x1_0000 + Be16(s, 2);
            var len := if word < 0x8000_0000 then word else word - 0x1_0000_0000;
            NextFrame(tag, s) == Fail(InvalidLength) <==> len < |tag| + 4 || len > 0x400_0000
  {
    hide ParseFrame, ToInt32, FromBe32, Be16;
    LengthMeans(s);
    var len := ToInt32(FromBe32(s));
    if LengthOk(tag, len) && |s| >= HEADER_LEN + len {
      ParseFrameErrors(tag, s[HEADER_LEN..HEADER_LEN + len]);
    }
  }

  lemma LengthMeans(s: seq<Byte>)
    requires |s| >= 4
    ensures var word := Be16(s, 0) * 0x1_0000 + Be16(s, 2);
            ToInt32(FromBe32(s)) == if word < 0x8000_0000 then word else word - 0x1_0000_0000
  {
  }

  lemma ParseFrameErrors(tag: seq<Byte>, frame: seq<Byte>)
    requires |frame| >= MinMessageLen(tag)
    ensures ParseFrame(tag, frame) != Failed(InvalidLength)
  {
    hide ValidateChecksum, Parse;
  }

  // ---- Damage ----

  /** A frame in which one octet of tag or payload was altered is always reported as a checksum error. */
  lemma OneOctetDamage(tag: seq<Byte>, body: seq<Byte>, i: nat, u: Byte)
    requires |tag| <= |body| && i < |body| && u != body[i]
    ensures ParseFrame(tag, body[i := u] + Be32(Adler.Checksum(body))) == Failed(CheckSumError)
  {
    Adler.OneOctet(body, i, u);
    Damaged(tag, body, body[i := u]);
  }

  /**
   With two octets altered, a checksum error is certain unless the two changes cancel out at a distance that is a
   multiple of 65521; so it is certain whenever they are closer than that.
   */
  lemma TwoOctetDamage(tag: seq<Byte>, body: seq<Byte>, i: nat, u: Byte, j: nat, v: Byte)
    requires |tag| <= |body| && i < j < |body| && u != body[i] && v != body[j]
    ensures ParseFrame(tag, body[i := u][j := v] + Be32(Adler.Checksum(body))) == Failed(CheckSumError) <==>
            !(u as int - body[i] as int == body[j] as int - v as int && (j - i) % Adler.BASE == 0)
    ensures j - i < Adler.BASE ==>
              ParseFrame(tag, body[i := u][j := v] + Be32(Adler.Checksum(body))) == Failed(CheckSumError)
  {
    hide ParseFrame, Adler.Checksum;
    Adler.TwoOctets(body, i, u, j, v);
    Damaged(tag, body, body[i := u][j := v]);
  }

  /** Such a pair: of 65522 octets the first raised and the last lowered by one, and the frame still passes. */
  lemma DamageThatPasses() returns (body: seq<Byte>, damaged: seq<Byte>)
    ensures |body| == |damaged| && damaged != body
    ensures ValidateChecksum(damaged + Be32(Adler.Checksum(body)))
  {
    body := seq(65522, i => if i == 65521 then 1 else 0);
    damaged := body[0 := 1][65521 := 0];
    hide ValidateChecksum, Be32, Adler.Checksum;
    TwoOctetDamage([], body, 0, 1, 65521, 0);
    Damaged([], body, damaged);
    ChecksumDecides(body, damaged);
  }

  lemma ChecksumDecides(body: seq<Byte>, other: seq<Byte>)
    ensures ParseFrame([], other + Be32(Adler.Checksum(body))) == Failed(CheckSumError) <==>
            !ValidateChecksum(other + Be32(Adler.Checksum(body)))
  {
    hide ValidateChecksum, Adler.Checksum;
  }

  /** Damage to the checksum itself is always reported. */
  lemma ChecksumFieldDamage(tag: seq<Byte>, body: seq<Byte>, field: seq<Byte>)
    requires |tag| <= |body| && |field| == CHECKSUM_LEN && field != Be32(Adler.Checksum(body))
    ensures ParseFrame(tag, body + field) == Failed(CheckSumError)
  {
    hide ToInt32, Adler.Checksum, Be32, FromBe32;
    var frame := body + field;
    assert frame[..|body|] == body && frame[|body|..] == field;
    var right := Be32(Adler.Checksum(body));
    Be32RoundTrip(Adler.Checksum(body), []);
    assert right + [] == right;
    if FromBe32(field) == FromBe32(right) {
      FromBe32Injective(field);
      FromBe32Injective(right);
    }
    ToInt32Injective(FromBe32(field), FromBe32(right));
  }

  lemma ToInt32Injective(v: nat, w: nat)
    requires v < TWO_32 && w < TWO_32
    ensures ToInt32(v) == ToInt32(w) <==> v == w
  {
  }

  lemma Damaged(tag: seq<Byte>, body: seq<Byte>, other: seq<Byte>)
    requires |tag| <= |body| == |other|
    ensures ParseFrame(tag, other + Be32(Adler.Checksum(body))) == Failed(CheckSumError) <==>
            Adler.Checksum(other) != Adler.Checksum(body)
  {
    hide ToInt32, Adler.Checksum, Be32, FromBe32;
    var frame := other + Be32(Adler.Checksum(body));
    assert frame[..|other|] == other;
    assert frame[|other|..] == Be32(Adler.Checksum(body)) + [];
    Be32RoundTrip(Adler.Checksum(body), []);
    ToInt32Injective(Adler.Checksum(body), Adler.Checksum(other));
  }
}
