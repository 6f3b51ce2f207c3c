/** The octets themselves: what requests, answers and frames look like on the wire, number by number. */
module FrameOctets {
  import opened Bytes
  import opened Wire
  import opened RpcMeta
  import opened RpcChannels
  import opened Codec
  import Adler

  lemma TwoFields(a: Field, b: Field, rest: seq<Field>)
    ensures EncodeFields([a, b] + rest) == a.Encode() + b.Encode() + EncodeFields(rest)
  {
    hide Field.Encode;
    assert ([a, b] + rest)[1..] == [b] + rest && ([b] + rest)[1..] == rest;
    assert EncodeFields([b] + rest) == b.Encode() + EncodeFields(rest);
    assert a.Encode() + (b.Encode() + EncodeFields(rest)) == a.Encode() + b.Encode() + EncodeFields(rest);
  }

  lemma OneField(a: Field)
    ensures EncodeFields([a]) == a.Encode()
  {
    hide Field.Encode;
    assert [a][1..] == [];
    assert EncodeFields([]) == [];
    assert a.Encode() + [] == a.Encode();
  }

  /** A field under a small number begins with one octet, its number and wire type. */
  lemma TagOctet(f: Field)
    requires f.Tag() < 128
    ensures f.Encode() == [f.Tag()] + f.payload.Encode()
  {
    hide Payload.Encode;
  }

  /** A string as it stands in a field: its length as a varint, then its octets. */
  function Sized(data: seq<Byte>): seq<Byte> {
    WriteVarint(|data|) + data
  }

  lemma StringOctets(number: nat, data: seq<Byte>)
    requires 0 < number < 16
    ensures Field(number, Delimited(data)).Encode() == [number * 8 + 2] + Sized(data)
  {
    var f := Field(number, Delimited(data));
    assert f.payload.Encode() == Sized(data);
    hide Sized, Payload.Encode, Field.Encode;
    TagOctet(f);
  }

  /** Type and id: a varint under number 1 and eight octets, least significant first, under number 2. */
  lemma HeadOctets(type_: Byte, id: nat)
    requires type_ < 128
    ensures Field(1, Varint(type_)).Encode() + Field(2, Fixed64(id)).Encode() == [8, type_, 17] + Le(id, 8)
  {
    var f, g := Field(1, Varint(type_)), Field(2, Fixed64(id));
    assert f.payload.Encode() == [type_] && g.payload.Encode() == Le(id, 8);
    hide Le, Payload.Encode, Field.Encode;
    TagOctet(f);
    TagOctet(g);
    assert [8] + [type_] + ([17] + Le(id, 8)) == [8, type_, 17] + Le(id, 8);
  }

  /** A request: type 1, the id, and under numbers 3, 4 and 5 the service, the method and the serialised request. */
  lemma RequestOctets(id: nat, c: Call)
    ensures Serialize(Request(id, c)) ==
            [8, 1, 17] + Le(id, 8)
            + (([26] + Sized(c.service)) + ([34] + Sized(c.method_)) + ([42] + Sized(c.request)))
  {
    hide Field.Encode, Sized, EncodeFields;
    var fs := [Field(3, Delimited(c.service)), Field(4, Delimited(c.method_)), Field(5, Delimited(c.request))];
    assert Fields(Request(id, c)) == [Field(1, Varint(1)), Field(2, Fixed64(id))] + fs;
    TwoFields(Field(1, Varint(1)), Field(2, Fixed64(id)), fs);
    HeadOctets(1, id);
    assert fs == [fs[0], fs[1]] + [fs[2]];
    TwoFields(fs[0], fs[1], [fs[2]]);
    OneField(fs[2]);
    StringOctets(3, c.service);
    StringOctets(4, c.method_);
    StringOctets(5, c.request);
  }

  /** An answer: type 2, the id of the request, and under number 6 the serialised response. */
  lemma AnswerOctets(id: nat, response: seq<Byte>)
    ensures Serialize(Answer(id, response)) == [8, 2, 17] + Le(id, 8) + ([50] + Sized(response))
  {
    hide Field.Encode, Sized, EncodeFields;
    var f := Field(6, Delimited(response));
    assert Fields(Answer(id, response)) == [Field(1, Varint(2)), Field(2, Fixed64(id))] + [f];
    TwoFields(Field(1, Varint(2)), Field(2, Fixed64(id)), [f]);
    HeadOctets(2, id);
    OneField(f);
    StringOctets(6, response);
  }

  /** A rejection: type 2, the id of the request, and under number 7 the error code. */
  lemma ErrorAnswerOctets(id: nat, error: Byte)
    requires error <= 6
    ensures Serialize(ErrorAnswer(id, error)) == [8, 2, 17] + Le(id, 8) + [56, error]
  {
    hide EncodeFields;
    var f := Field(7, Varint(error));
    assert Fields(ErrorAnswer(id, error)) == [Field(1, Varint(2)), Field(2, Fixed64(id))] + [f];
    TwoFields(Field(1, Varint(2)), Field(2, Fixed64(id)), [f]);
    HeadOctets(2, id);
    OneField(f);
    assert f.payload.Encode() == [error];
    TagOctet(f);
  }

  /** The tag is the four letters RPC0, and so are octets 4 to 7 of every frame a channel sends. */
  lemma TagOctets(m: Meta)
    ensures |TAG| == 4 && (forall i :: 0 <= i < 4 ==> TAG[i] as int == "RPC0"[i] as int)
    ensures |Encode(TAG, m)| >= 12 && Encode(TAG, m)[4..8] == TAG
  {
    hide Serialize, Adler.Checksum;
    var body := TAG + Serialize(m);
    var sealed := Seal(body);
    SealLength(body);
    assert sealed[..4] == TAG;
    assert Encode(TAG, m)[4..8] == sealed[..4];
  }
}
