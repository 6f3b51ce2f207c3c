/**
 The protocol-buffer wire format (Protocol Buffers Encoding, "Base 128 Varints" and "Message Structure"):
 a message is a sequence of fields, each a tag varint followed by a payload chosen by the tag's wire type.
 Group fields (wire types 3 and 4) are not accepted.
 */
module Wire {
  import opened Bytes

  const MAX_STRING := 0x7FFF_FFEF  // INT_MAX - 16: the longest length prefix the runtime accepts

  datatype Read<+T> = Read(item: T, used: nat)

  datatype Payload =
    | Varint(v: nat)
    | Fixed64(q: nat)
    | Delimited(data: seq<Byte>)
    | Fixed32(w: nat)
  {
    function WireType(): (t: nat)
      ensures t < 8
    {
      match this
      case Varint(_) => 0
      case Fixed64(_) => 1
      case Delimited(_) => 2
      case Fixed32(_) => 5
    }

    predicate Valid() {
      match this
      case Varint(v) => v < TWO_64
      case Fixed64(q) => q < TWO_64
      case Delimited(data) => |data| <= MAX_STRING
      case Fixed32(w) => w < TWO_32
    }

    function Encode(): seq<Byte> {
      match this
      case Varint(v) => WriteVarint(v)
      case Fixed64(q) => Le(q, 8)
      case Delimited(data) => WriteVarint(|data|) + data
      case Fixed32(w) => Le(w, 4)
    }

    function Size(): nat {
      match this
      case Varint(v) => VarintSize(v)
      case Fixed64(_) => 8
      case Delimited(data) => VarintSize(|data|) + |data|
      case Fixed32(_) => 4
    }
  }

  datatype Field = Field(number: nat, payload: Payload) {
    predicate Valid() {
      0 < number < 0x2000_0000 && payload.Valid()
    }

    function Tag(): nat {
      number * 8 + payload.WireType()
    }

    function Encode(): seq<Byte> {
      WriteVarint(Tag()) + payload.Encode()
    }

    function Size(): nat {
      VarintSize(Tag()) + payload.Size()
    }
  }

  // ---- Varints ----

  function WriteVarint(v: nat): seq<Byte> {
    if v < 128 then [v] else [v % 128 + 128] + WriteVarint(v / 128)
  }

  function VarintSize(v: nat): nat {
    if v < 128 then 1 else 1 + VarintSize(v / 128)
  }

  /** A varint of at most `limit` octets; padded (non-canonical) forms are accepted, as the runtime does. */
  function ReadVarint(bs: seq<Byte>, limit: nat): (r: Option<Read<nat>>)
    ensures r.Some? ==> 1 <= r.value.used <= |bs|
    decreases bs
  {
    if limit == 0 || bs == [] then None
    else if bs[0] < 128 then Some(Read(bs[0], 1))
    else
      match ReadVarint(bs[1..], limit - 1)
      case None => None
      case Some(more) => Some(Read(bs[0] - 128 + 128 * more.item, more.used + 1))
  }

  lemma {:induction false} VarintLength(v: nat)
    ensures |WriteVarint(v)| == VarintSize(v)
  {
    if v >= 128 {
      VarintLength(v / 128);
    }
  }

  /** Base 128, least significant digit first; the high bit says that more follow. */
  lemma {:induction false} VarintOctets(v: nat, i: nat)
    requires i < |WriteVarint(v)|
    ensures WriteVarint(v)[i] as int % 128 == Digit(v, 128, i)
    ensures WriteVarint(v)[i] >= 128 <==> i + 1 < |WriteVarint(v)|
    decreases v
  {
    if v >= 128 && i > 0 {
      VarintOctets(v / 128, i - 1);
    }
  }

  lemma {:induction false} VarintRoundTrip(v: nat, limit: nat, rest: seq<Byte>)
    requires VarintSize(v) <= limit
    ensures ReadVarint(WriteVarint(v) + rest, limit) == Some(Read(v, VarintSize(v)))
  {
    if v >= 128 {
      VarintRoundTrip(v / 128, limit - 1, rest);
      assert (WriteVarint(v) + rest)[1..] == WriteVarint(v / 128) + rest;
    }
  }

  /** What follows a varint does not change how it is read. */
  lemma {:induction false} ReadVarintAppend(bs: seq<Byte>, limit: nat, more: seq<Byte>)
    requires ReadVarint(bs, limit).Some?
    ensures ReadVarint(bs + more, limit) == ReadVarint(bs, limit)
  {
    if bs[0] >= 128 {
      ReadVarintAppend(bs[1..], limit - 1, more);
      assert (bs + more)[1..] == bs[1..] + more;
    }
  }

  function Pow128(n: nat): nat {
    if n == 0 then 1 else 128 * Pow128(n - 1)
  }

  lemma {:induction false} VarintSizeBound(v: nat, n: nat)
    requires n > 0 && v < Pow128(n)
    ensures VarintSize(v) <= n
  {
    if v >= 128 {
      assert v / 128 < Pow128(n - 1);
      assert n > 1 by { assert Pow128(1) == 128 * Pow128(0); }
      VarintSizeBound(v / 128, n - 1);
    }
  }

  lemma VarintLimits()
    ensures forall v: nat :: v < TWO_32 ==> VarintSize(v) <= 5
    ensures forall v: nat :: v < TWO_64 ==> VarintSize(v) <= 10
  {
    assert Pow128(2) == 16384;
    assert Pow128(4) == 128 * (128 * Pow128(2));
    assert Pow128(5) == 128 * Pow128(4);
    assert Pow128(7) == 128 * (128 * Pow128(5));
    assert Pow128(9) == 128 * (128 * Pow128(7));
    assert Pow128(10) == 128 * Pow128(9);
    forall v: nat | v < TWO_32 ensures VarintSize(v) <= 5 { VarintSizeBound(v, 5); }
    forall v: nat | v < TWO_64 ensures VarintSize(v) <= 10 { VarintSizeBound(v, 10); }
  }

  // ---- Fields ----

  /** A tag is read into a `uint32_t`: at most five octets, surplus bits dropped. */
  function ReadTag(bs: seq<Byte>): (r: Option<Read<nat>>)
    ensures r.Some? ==> 1 <= r.value.used <= |bs| && r.value.item < TWO_32
  {
    match ReadVarint(bs, 5)
    case None => None
    case Some(t) => Some(Read(t.item % TWO_32, t.used))
  }

  function ReadVarint64(bs: seq<Byte>): (r: Option<Read<nat>>)
    ensures r.Some? ==> 1 <= r.value.used <= |bs| && r.value.item < TWO_64
  {
    match ReadVarint(bs, 10)
    case None => None
    case Some(x) => Some(Read(x.item % TWO_64, x.used))
  }

  function ReadFixed(bs: seq<Byte>, n: nat): (r: Option<Read<nat>>)
    ensures r.Some? ==> r.value.used == n <= |bs|
  {
    if |bs| < n then None else Some(Read(FromLe(bs[..n]), n))
  }

  function ReadString(bs: seq<Byte>): (r: Option<Read<seq<Byte>>>)
    ensures r.Some? ==> 1 <= r.value.used <= |bs| && |r.value.item| <= MAX_STRING
  {
    match ReadVarint(bs, 5)
    case None => None
    case Some(n) =>
      if n.item > MAX_STRING || n.used + n.item > |bs| then None
      else Some(Read(bs[n.used..n.used + n.item], n.used + n.item))
  }

  function ReadPayload(wireType: nat, bs: seq<Byte>): (r: Option<Read<Payload>>)
    ensures r.Some? ==> r.value.used <= |bs|
  {
    if wireType == 0 then
      match ReadVarint64(bs) { case None => None case Some(x) => Some(Read(Varint(x.item), x.used)) }
    else if wireType == 1 then
      match ReadFixed(bs, 8) { case None => None case Some(x) => Some(Read(Fixed64(x.item), x.used)) }
    else if wireType == 2 then
      match ReadString(bs) { case None => None case Some(x) => Some(Read(Delimited(x.item), x.used)) }
    else if wireType == 5 then
      match ReadFixed(bs, 4) { case None => None case Some(x) => Some(Read(Fixed32(x.item), x.used)) }
    else None
  }

  /** Field number 0, groups and unassigned wire types are malformed. */
  function ReadField(bs: seq<Byte>): (r: Option<Read<Field>>)
    ensures r.Some? ==> 1 <= r.value.used <= |bs|
  {
    match ReadTag(bs)
    case None => None
    case Some(tag) =>
      if tag.item / 8 == 0 then None
      else
        match ReadPayload(tag.item % 8, bs[tag.used..])
        case None => None
        case Some(p) => Some(Read(Field(tag.item / 8, p.item), tag.used + p.used))
  }

  function EncodeFields(fs: seq<Field>): seq<Byte> {
    if fs == [] then [] else fs[0].Encode() + EncodeFields(fs[1..])
  }

  function FieldsSize(fs: seq<Field>): nat {
    if fs == [] then 0 else fs[0].Size() + FieldsSize(fs[1..])
  }

  function DecodeFields(bs: seq<Byte>): Option<seq<Field>> {
    if bs == [] then Some([])
    else
      match ReadField(bs)
      case None => None
      case Some(f) =>
        match DecodeFields(bs[f.used..])
        case None => None
        case Some(more) => Some([f.item] + more)
  }

  predicate AllValid(fs: seq<Field>) {
    forall f :: f in fs ==> f.Valid()
  }

  /** Whether one of the first `limit` octets ends a varint. */
  predicate EndsWithin(bs: seq<Byte>, limit: nat) {
    exists i :: 0 <= i < limit && i < |bs| && bs[i] < 128
  }

  lemma {:induction false} VarintEnds(bs: seq<Byte>, limit: nat)
    ensures ReadVarint(bs, limit).Some? <==> EndsWithin(bs, limit)
    decreases bs
  {
    if limit > 0 && bs != [] && bs[0] >= 128 {
      VarintEnds(bs[1..], limit - 1);
      if EndsWithin(bs[1..], limit - 1) {
        var i :| 0 <= i < limit - 1 && i < |bs[1..]| && bs[1..][i] < 128;
        assert bs[i + 1] < 128;
      }
      if EndsWithin(bs, limit) {
        var i :| 0 <= i < limit && i < |bs| && bs[i] < 128;
        assert bs[1..][i - 1] < 128;
      }
    }
  }

  /** A tag is refused exactly if none of its first five octets is its last, a number if none of its first ten is. */
  lemma OverlongRefused(bs: seq<Byte>)
    ensures ReadTag(bs).Some? <==> EndsWithin(bs, 5)
    ensures ReadVarint64(bs).Some? <==> EndsWithin(bs, 10)
  {
    hide EndsWithin;
    VarintEnds(bs, 5);
    VarintEnds(bs, 10);
  }

  /** Field number 0, groups and unassigned wire types make the whole input malformed. */
  lemma Malformed(bs: seq<Byte>)
    requires bs != [] && ReadTag(bs).Some?
    requires var tag := ReadTag(bs).value.item; tag < 8 || tag % 8 == 3 || tag % 8 == 4 || tag % 8 == 6 || tag % 8 == 7
    ensures DecodeFields(bs) == None
  {
    hide ReadTag;
  }

  lemma PayloadLength(p: Payload)
    ensures |p.Encode()| == p.Size()
  {
    match p
    case Varint(v) => VarintLength(v);
    case Delimited(data) => VarintLength(|data|);
    case Fixed64(_) =>
    case Fixed32(_) =>
  }

  lemma FieldLength(f: Field)
    ensures |f.Encode()| == f.Size() > 0
  {
    VarintLength(f.Tag());
    PayloadLength(f.payload);
  }

  lemma {:induction false} FieldsLength(fs: seq<Field>)
    ensures |EncodeFields(fs)| == FieldsSize(fs)
  {
    if fs != [] {
      FieldLength(fs[0]);
      FieldsLength(fs[1..]);
    }
  }

  lemma Varint64RoundTrip(v: nat, rest: seq<Byte>)
    requires v < TWO_64
    ensures ReadVarint64(WriteVarint(v) + rest) == Some(Read(v, VarintSize(v)))
  {
    hide ReadVarint, WriteVarint, VarintSize;
    VarintLimits();
    VarintRoundTrip(v, 10, rest);
  }

  lemma TagRoundTrip(v: nat, rest: seq<Byte>)
    requires v < TWO_32
    ensures ReadTag(WriteVarint(v) + rest) == Some(Read(v, VarintSize(v)))
  {
    hide ReadVarint, WriteVarint, VarintSize;
    VarintLimits();
    VarintRoundTrip(v, 5, rest);
  }

  lemma FixedRoundTrip(v: nat, n: nat, rest: seq<Byte>)
    requires v < Pow256(n)
    ensures ReadFixed(Le(v, n) + rest, n) == Some(Read(v, n))
  {
    hide Pow256, Le, FromLe;
    LeRoundTrip(v, n);
    assert (Le(v, n) + rest)[..n] == Le(v, n);
  }

  lemma LengthPrefixSize(n: nat)
    requires n <= MAX_STRING
    ensures VarintSize(n) <= 5
  {
    hide VarintSize;
    VarintLimits();
  }

  lemma LengthPrefix(n: nat, rest: seq<Byte>)
    requires n <= MAX_STRING
    ensures ReadVarint(WriteVarint(n) + rest, 5) == Some(Read(n, VarintSize(n)))
  {
    hide ReadVarint, WriteVarint, VarintSize;
    LengthPrefixSize(n);
    VarintRoundTrip(n, 5, rest);
  }

  lemma ReadStringAt(bs: seq<Byte>, used: nat, data: seq<Byte>)
    requires ReadVarint(bs, 5) == Some(Read(|data|, used)) && |data| <= MAX_STRING
    requires used + |data| <= |bs| && bs[used..used + |data|] == data
    ensures ReadString(bs) == Some(Read(data, used + |data|))
  {
    hide ReadVarint;
  }

  lemma Middle(bs: seq<Byte>, head: seq<Byte>, data: seq<Byte>, rest: seq<Byte>)
    requires bs == head + (data + rest)
    ensures |head| + |data| <= |bs| && bs[|head|..|head| + |data|] == data
  {
  }

  lemma StringRoundTrip(data: seq<Byte>, rest: seq<Byte>, bs: seq<Byte>, used: nat)
    requires |data| <= MAX_STRING && bs == WriteVarint(|data|) + (data + rest) && used == VarintSize(|data|)
    ensures ReadString(bs) == Some(Read(data, used + |data|))
  {
    hide ReadVarint, WriteVarint, VarintSize, ReadString;
    LengthPrefix(|data|, data + rest);
    VarintLength(|data|);
    Middle(bs, WriteVarint(|data|), data, rest);
    ReadStringAt(bs, used, data);
  }

  lemma PayloadRoundTrip(p: Payload, rest: seq<Byte>)
    requires p.Valid()
    ensures ReadPayload(p.WireType(), p.Encode() + rest) == Some(Read(p, p.Size()))
  {
    hide Le, WriteVarint, VarintSize, ReadVarint64, ReadFixed, ReadString, Pow256;
    Pow256Values();
    match p
    case Varint(v) => Varint64RoundTrip(v, rest);
    case Delimited(data) =>
      assert WriteVarint(|data|) + data + rest == WriteVarint(|data|) + (data + rest);
      StringRoundTrip(data, rest, WriteVarint(|data|) + data + rest, VarintSize(|data|));
    case Fixed64(q) => FixedRoundTrip(q, 8, rest);
    case Fixed32(w) => FixedRoundTrip(w, 4, rest);
  }

  lemma FieldRoundTrip(f: Field, rest: seq<Byte>)
    requires f.Valid()
    ensures ReadField(f.Encode() + rest) == Some(Read(f, f.Size()))
  {
    hide ReadTag, WriteVarint, VarintSize, ReadPayload, Payload.Encode, Payload.Size, Payload.Valid;
    var bs := f.Encode() + rest;
    var tag := WriteVarint(f.Tag());
    VarintLength(f.Tag());
    TagRoundTrip(f.Tag(), f.payload.Encode() + rest);
    assert bs == tag + (f.payload.Encode() + rest);
    assert bs[|tag|..] == f.payload.Encode() + rest;
    PayloadRoundTrip(f.payload, rest);
  }

  lemma {:induction false} EncodeFieldsConcat(x: seq<Field>, y: seq<Field>)
    ensures EncodeFields(x + y) == EncodeFields(x) + EncodeFields(y)
  {
    hide Field.Encode;
    if x == [] {
      assert x + y == y;
    } else {
      assert (x + y)[1..] == x[1..] + y;
      EncodeFieldsConcat(x[1..], y);
    }
  }

  /** Some fields, and then what follows them. */
  function Then(fs: seq<Field>, more: Option<seq<Field>>): Option<seq<Field>> {
    if more.None? then None else Some(fs + more.value)
  }

  /** `DecodeFields`, not to be unfolded. */
  function Decoded(bs: seq<Byte>): Option<seq<Field>> {
    DecodeFields(bs)
  }

  lemma DecodeFieldThen(f: Field, tail: seq<Byte>)
    requires f.Valid()
    ensures Decoded(f.Encode() + tail) == Then([f], Decoded(tail))
  {
    hide ReadField, Field.Valid, Field.Size, Field.Encode;
    var bs := f.Encode() + tail;
    FieldLength(f);
    FieldRoundTrip(f, tail);
    assert bs[f.Size()..] == tail;
  }

  lemma ThenCons(f: Field, fs: seq<Field>, more: Option<seq<Field>>)
    ensures Then([f], Then(fs, more)) == Then([f] + fs, more)
    ensures Then([], more) == more
  {
    if more.Some? {
      assert [f] + (fs + more.value) == [f] + fs + more.value;
      assert [] + more.value == more.value;
    }
  }

  lemma {:induction false} DecodedThen(fs: seq<Field>, rest: seq<Byte>)
    requires AllValid(fs)
    ensures Decoded(EncodeFields(fs) + rest) == Then(fs, Decoded(rest))
  {
    hide Decoded, Then, Field.Valid, Field.Encode;
    if fs == [] {
      assert EncodeFields(fs) + rest == rest;
      ThenCons(Field(0, Varint(0)), [], Decoded(rest));
    } else {
      var tail := EncodeFields(fs[1..]) + rest;
      assert EncodeFields(fs) + rest == fs[0].Encode() + tail;
      assert fs == [fs[0]] + fs[1..];
      DecodeFieldThen(fs[0], tail);
      DecodedThen(fs[1..], rest);
      ThenCons(fs[0], fs[1..], Decoded(rest));
    }
  }

  /** Printed fields are read back one for one, whatever follows them. */
  lemma DecodeAfterEncode(fs: seq<Field>, rest: seq<Byte>)
    requires AllValid(fs)
    ensures DecodeFields(EncodeFields(fs) + rest) ==
            if DecodeFields(rest).None? then None else Some(fs + DecodeFields(rest).value)
  {
    DecodedThen(fs, rest);
  }

  lemma ReadStringAppend(bs: seq<Byte>, more: seq<Byte>)
    requires ReadString(bs).Some?
    ensures ReadString(bs + more) == ReadString(bs)
  {
    hide ReadVarint;
    ReadVarintAppend(bs, 5, more);
    var n := ReadVarint(bs, 5).value;
    assert (bs + more)[n.used..n.used + n.item] == bs[n.used..n.used + n.item];
  }

  lemma ReadFixedAppend(bs: seq<Byte>, n: nat, more: seq<Byte>)
    requires ReadFixed(bs, n).Some?
    ensures ReadFixed(bs + more, n) == ReadFixed(bs, n)
  {
    assert (bs + more)[..n] == bs[..n];
  }

  lemma ReadPayloadAppend(wireType: nat, bs: seq<Byte>, more: seq<Byte>)
    requires ReadPayload(wireType, bs).Some?
    ensures ReadPayload(wireType, bs + more) == ReadPayload(wireType, bs)
  {
    hide ReadVarint, ReadFixed, ReadString;
    if wireType == 0 {
      ReadVarintAppend(bs, 10, more);
    } else if wireType == 1 {
      ReadFixedAppend(bs, 8, more);
    } else if wireType == 2 {
      ReadStringAppend(bs, more);
    } else {
      ReadFixedAppend(bs, 4, more);
    }
  }

  lemma ReadFieldAppend(bs: seq<Byte>, more: seq<Byte>)
    requires ReadField(bs).Some?
    ensures ReadField(bs + more) == ReadField(bs)
  {
    hide ReadVarint, ReadPayload;
    ReadVarintAppend(bs, 5, more);
    var tag := ReadTag(bs).value;
    assert (bs + more)[tag.used..] == bs[tag.used..] + more;
    ReadPayloadAppend(tag.item % 8, bs[tag.used..], more);
  }

  lemma DecodeStep(x: seq<Byte>)
    requires x != [] && Decoded(x).Some?
    ensures ReadField(x).Some? && ReadField(x).value.used <= |x|
    ensures var f := ReadField(x).value;
            Decoded(x[f.used..]).Some? && Decoded(x) == Then([f.item], Decoded(x[f.used..]))
  {
    hide ReadField;
  }

  lemma DecodeStepAppend(x: seq<Byte>, y: seq<Byte>)
    requires x != [] && ReadField(x).Some?
    ensures var f := ReadField(x).value; Decoded(x + y) == Then([f.item], Decoded(x[f.used..] + y))
  {
    hide ReadField;
    ReadFieldAppend(x, y);
    var f := ReadField(x).value;
    assert (x + y)[f.used..] == x[f.used..] + y;
  }

  lemma {:induction false} DecodedConcat(x: seq<Byte>, y: seq<Byte>)
    requires Decoded(x).Some?
    ensures Decoded(x + y) == Then(Decoded(x).value, Decoded(y))
    decreases |x|
  {
    if x == [] {
      assert x + y == y;
      ThenCons(Field(0, Varint(0)), [], Decoded(y));
    } else {
      hide Decoded, ReadField;
      var f := ReadField(x).value;
      DecodeStep(x);
      DecodeStepAppend(x, y);
      DecodedConcat(x[f.used..], y);
      ThenCons(f.item, Decoded(x[f.used..]).value, Decoded(y));
    }
  }

  /** Concatenating two well-formed messages concatenates their fields. */
  lemma DecodeConcat(x: seq<Byte>, y: seq<Byte>)
    requires DecodeFields(x).Some?
    ensures DecodeFields(x + y) ==
            if DecodeFields(y).None? then None else Some(DecodeFields(x).value + DecodeFields(y).value)
  {
    DecodedConcat(x, y);
  }

  lemma ReadFieldValid(bs: seq<Byte>)
    requires ReadField(bs).Some?
    ensures ReadField(bs).value.item.Valid()
  {
    Pow256Values();
    var tag := ReadTag(bs).value;
    var tail := bs[tag.used..];
    if tag.item % 8 == 1 {
      FromLeBound(tail[..8]);
    } else if tag.item % 8 == 5 {
      FromLeBound(tail[..4]);
    }
  }

  /** Whatever the decoder accepts, the encoder can print. */
  lemma {:induction false} DecodedFieldsValid(bs: seq<Byte>)
    requires DecodeFields(bs).Some?
    ensures AllValid(DecodeFields(bs).value)
    decreases |bs|
  {
    if bs != [] {
      ReadFieldValid(bs);
      DecodedFieldsValid(bs[ReadField(bs).value.used..]);
    }
  }
}
