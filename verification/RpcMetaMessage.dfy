/** The generated class: a has-bits word over fields updated in place, parsed with a byte cursor. */
module RpcMetaMessages {
  import opened Bytes
  import opened Wire
  import opened RpcMeta

  /** The has-bits word, as the set of its bits: mask 0x01 is Service, ... mask 0x40 is Type. */
  datatype Bit = Service | Method | Request | Response | Id | Error | Type

  function When<T>(bit: Bit, bits: set<Bit>, v: T): Option<T> {
    if bit in bits then Some(v) else None
  }

  lemma PickWhen<T>(bit: Bit, later: set<Bit>, w: T, earlier: set<Bit>, v: T, merged: T)
    requires merged == if bit in later then w else v
    ensures Pick(When(bit, later, w), When(bit, earlier, v)) == When(bit, earlier + later, merged)
  {
  }

  lemma ParseStep(m: Meta, bs: seq<Byte>)
    requires bs != []
    ensures ReadField(bs).None? ==> ParseInto(m, bs) == None
    ensures ReadField(bs).Some? ==>
              var f := ReadField(bs).value;
              ParseInto(m, bs) == ParseInto(Apply(m, f.item), bs[f.used..])
  {
    hide ReadField, Apply;
    if ReadField(bs).Some? {
      var f := ReadField(bs).value;
      if DecodeFields(bs[f.used..]).Some? {
        assert ([f.item] + DecodeFields(bs[f.used..]).value)[1..] == DecodeFields(bs[f.used..]).value;
      }
    }
  }

  lemma EncodeOne(f: Field)
    ensures EncodeFields([f]) == f.Encode()
  {
    assert [f][1..] == [];
    assert EncodeFields([]) == [];
    assert f.Encode() + [] == f.Encode();
  }

  lemma SerializeParts(m: Meta)
    ensures Serialize(m) ==
            EncodeFields(IntField(1, m.type_)) + EncodeFields(IdField(m.id)) + EncodeFields(BytesField(3, m.service))
            + EncodeFields(BytesField(4, m.method_)) + EncodeFields(BytesField(5, m.request))
            + EncodeFields(BytesField(6, m.response)) + EncodeFields(IntField(7, m.error)) + EncodeFields(m.unknown)
  {
    hide EncodeFields, IntField, IdField, BytesField;
    var r7 := IntField(7, m.error) + m.unknown;
    var r6 := BytesField(6, m.response) + r7;
    var r5 := BytesField(5, m.request) + r6;
    var r4 := BytesField(4, m.method_) + r5;
    var r3 := BytesField(3, m.service) + r4;
    EncodeFieldsConcat(IntField(1, m.type_), IdField(m.id) + r3);
    EncodeFieldsConcat(IdField(m.id), r3);
    EncodeFieldsConcat(BytesField(3, m.service), r4);
    EncodeFieldsConcat(BytesField(4, m.method_), r5);
    EncodeFieldsConcat(BytesField(5, m.request), r6);
    EncodeFieldsConcat(BytesField(6, m.response), r7);
    EncodeFieldsConcat(IntField(7, m.error), m.unknown);
  }

  lemma ParseNothing(m: Meta, bs: seq<Byte>)
    requires bs == []
    ensures ParseInto(m, bs) == Some(m)
  {
  }

  class RpcMetaMessage {
    var hasBits: set<Bit>
    var service: seq<Byte>
    var method_: seq<Byte>
    var request: seq<Byte>
    var response: seq<Byte>
    var id: nat
    var error: int
    var type_: int
    var unknown: seq<Field>

    /** The message read with a given has-bits word. */
    ghost function View(bits: set<Bit>): Meta
      reads this
    {
      Meta(When(Type, bits, type_),
           When(Id, bits, id),
           When(Service, bits, service),
           When(Method, bits, method_),
           When(Request, bits, request),
           When(Response, bits, response),
           When(Error, bits, error),
           unknown)
    }

    /** The enum fields hold declared values, and an absent field holds its default. */
    ghost predicate Consistent(bits: set<Bit>)
      reads this
    {
      && MessageTypeIsValid(type_) && ErrorCodeIsValid(error)
      && (Type !in bits ==> type_ == REQUEST)
      && (Id !in bits ==> id == 0)
      && (Service !in bits ==> service == [])
      && (Method !in bits ==> method_ == [])
      && (Request !in bits ==> request == [])
      && (Response !in bits ==> response == [])
      && (Error !in bits ==> error == NO_ERROR)
    }

    ghost function Value(): Meta
      reads this
    {
      View(hasBits)
    }

    ghost predicate Valid()
      reads this
    {
      Consistent(hasBits)
    }

    constructor ()
      ensures Valid() && Value() == EMPTY
    {
      hasBits := {};
      service, method_, request, response := [], [], [], [];
      id, error, type_ := 0, NO_ERROR, REQUEST;
      unknown := [];
    }

    method ClearStrings()
      requires Valid()
      modifies this`service, this`method_, this`request, this`response
      ensures service == [] && method_ == [] && request == [] && response == []
    {
      if Service in hasBits { service := []; }
      if Method in hasBits { method_ := []; }
      if Request in hasBits { request := []; }
      if Response in hasBits { response := []; }
    }

    method Clear()
      requires Valid()
      modifies this
      ensures Valid() && Value() == EMPTY
    {
      if hasBits * {Service, Method, Request, Response} != {} {
        ClearStrings();
      }
      if hasBits * {Id, Error, Type} != {} {
        id, error := 0, NO_ERROR;
        type_ := REQUEST;
      }
      hasBits := {};
      unknown := [];
    }

    method MergeStrings(from: RpcMetaMessage, bits: set<Bit>)
      requires from != this
      modifies this`service, this`method_, this`request, this`response
      ensures service == if Service in bits then from.service else old(service)
      ensures method_ == if Method in bits then from.method_ else old(method_)
      ensures request == if Request in bits then from.request else old(request)
      ensures response == if Response in bits then from.response else old(response)
    {
      if Service in bits { service := from.service; }
      if Method in bits { method_ := from.method_; }
      if Request in bits { request := from.request; }
      if Response in bits { response := from.response; }
    }

    method MergeScalars(from: RpcMetaMessage, bits: set<Bit>)
      requires from != this
      modifies this`id, this`error, this`type_
      ensures id == if Id in bits then from.id else old(id)
      ensures error == if Error in bits then from.error else old(error)
      ensures type_ == if Type in bits then from.type_ else old(type_)
    {
      if Id in bits { id := from.id; }
      if Error in bits { error := from.error; }
      if Type in bits { type_ := from.type_; }
    }

    method MergeKnown(from: RpcMetaMessage, bits: set<Bit>)
      requires from != this
      modifies this`service, this`method_, this`request, this`response, this`id, this`error, this`type_, this`hasBits
      ensures service == if Service in bits then from.service else old(service)
      ensures method_ == if Method in bits then from.method_ else old(method_)
      ensures request == if Request in bits then from.request else old(request)
      ensures response == if Response in bits then from.response else old(response)
      ensures id == if Id in bits then from.id else old(id)
      ensures error == if Error in bits then from.error else old(error)
      ensures type_ == if Type in bits then from.type_ else old(type_)
      ensures hasBits == old(hasBits) + bits
    {
      if bits != {} {
        MergeStrings(from, bits);
        MergeScalars(from, bits);
        hasBits := hasBits + bits;
      }
    }

    method MergeFrom(from: RpcMetaMessage)
      requires Valid() && from.Valid() && from != this
      modifies this
      ensures Valid() && Value() == Merge(old(Value()), from.Value())
    {
      hide When, Pick;
      var bits := from.hasBits;
      MergeKnown(from, bits);
      unknown := unknown + from.unknown;
      PickWhen(Type, bits, from.type_, old(hasBits), old(type_), type_);
      PickWhen(Id, bits, from.id, old(hasBits), old(id), id);
      PickWhen(Service, bits, from.service, old(hasBits), old(service), service);
      PickWhen(Method, bits, from.method_, old(hasBits), old(method_), method_);
      PickWhen(Request, bits, from.request, old(hasBits), old(request), request);
      PickWhen(Response, bits, from.response, old(hasBits), old(response), response);
      PickWhen(Error, bits, from.error, old(hasBits), old(error), error);
    }

    method IsInitialized() returns (r: bool)
      ensures r == (Value().type_.Some? && Value().id.Some?)
    {
      r := {Type, Id} <= hasBits;
    }

    // ---- The setters ----

    method SetType(value: int)
      requires Valid() && MessageTypeIsValid(value)
      modifies this
      ensures Valid() && Value() == old(Value()).(type_ := Some(value))
    {
      assert hasBits + {} == hasBits;
      PutType(value, {});
      assert hasBits + {} == hasBits;
    }

    method SetId(value: nat)
      requires Valid()
      modifies this
      ensures Valid() && Value() == old(Value()).(id := Some(value))
    {
      hasBits := hasBits + {Id};
      id := value;
    }

    method SetService(value: seq<Byte>)
      requires Valid()
      modifies this
      ensures Valid() && Value() == old(Value()).(service := Some(value))
    {
      assert hasBits + {} == hasBits;
      PutService(value, {});
      assert hasBits + {} == hasBits;
    }

    method SetMethod(value: seq<Byte>)
      requires Valid()
      modifies this
      ensures Valid() && Value() == old(Value()).(method_ := Some(value))
    {
      assert hasBits + {} == hasBits;
      PutMethod(value, {});
      assert hasBits + {} == hasBits;
    }

    method SetRequest(value: seq<Byte>)
      requires Valid()
      modifies this
      ensures Valid() && Value() == old(Value()).(request := Some(value))
    {
      assert hasBits + {} == hasBits;
      PutRequest(value, {});
      assert hasBits + {} == hasBits;
    }

    method SetResponse(value: seq<Byte>)
      requires Valid()
      modifies this
      ensures Valid() && Value() == old(Value()).(response := Some(value))
    {
      assert hasBits + {} == hasBits;
      PutResponse(value, {});
      assert hasBits + {} == hasBits;
    }

    method SetError(value: int)
      requires Valid() && ErrorCodeIsValid(value)
      modifies this
      ensures Valid() && Value() == old(Value()).(error := Some(value))
    {
      assert hasBits + {} == hasBits;
      PutError(value, {});
      assert hasBits + {} == hasBits;
    }

    // The setters, as the parse loop uses them: `local` is the loop's own has-bits word, merged in at its end.

    method PutType(value: int, ghost local: set<Bit>)
      requires Consistent(hasBits + local) && MessageTypeIsValid(value)
      modifies this
      ensures Consistent(hasBits + local)
      ensures View(hasBits + local) == old(View(hasBits + local)).(type_ := Some(value))
    {
      hasBits := hasBits + {Type};
      type_ := value;
    }

    method PutError(value: int, ghost local: set<Bit>)
      requires Consistent(hasBits + local) && ErrorCodeIsValid(value)
      modifies this
      ensures Consistent(hasBits + local)
      ensures View(hasBits + local) == old(View(hasBits + local)).(error := Some(value))
    {
      hasBits := hasBits + {Error};
      error := value;
    }

    method PutId(value: nat, local: set<Bit>) returns (bits: set<Bit>)
      requires Consistent(hasBits + local)
      modifies this
      ensures Consistent(hasBits + bits)
      ensures View(hasBits + bits) == old(View(hasBits + local)).(id := Some(value))
    {
      bits := local + {Id};
      id := value;
    }

    method PutService(data: seq<Byte>, ghost local: set<Bit>)
      requires Consistent(hasBits + local)
      modifies this
      ensures Consistent(hasBits + local)
      ensures View(hasBits + local) == old(View(hasBits + local)).(service := Some(data))
    {
      hasBits := hasBits + {Service};
      service := data;
    }

    method PutMethod(data: seq<Byte>, ghost local: set<Bit>)
      requires Consistent(hasBits + local)
      modifies this
      ensures Consistent(hasBits + local)
      ensures View(hasBits + local) == old(View(hasBits + local)).(method_ := Some(data))
    {
      hasBits := hasBits + {Method};
      method_ := data;
    }

    method PutRequest(data: seq<Byte>, ghost local: set<Bit>)
      requires Consistent(hasBits + local)
      modifies this
      ensures Consistent(hasBits + local)
      ensures View(hasBits + local) == old(View(hasBits + local)).(request := Some(data))
    {
      hasBits := hasBits + {Request};
      request := data;
    }

    method PutResponse(data: seq<Byte>, ghost local: set<Bit>)
      requires Consistent(hasBits + local)
      modifies this
      ensures Consistent(hasBits + local)
      ensures View(hasBits + local) == old(View(hasBits + local)).(response := Some(data))
    {
      hasBits := hasBits + {Response};
      response := data;
    }

    method PutUnknown(f: Field, ghost local: set<Bit>)
      requires Consistent(hasBits + local)
      modifies this
      ensures Consistent(hasBits + local)
      ensures View(hasBits + local) ==
              old(View(hasBits + local)).(unknown := old(View(hasBits + local).unknown) + [f])
    {
      unknown := unknown + [f];
    }

    /** The switch of the parse loop, from the octet after the tag. */
    method ParseField(tag: nat, bs: seq<Byte>, local: set<Bit>) returns (used: nat, bits: set<Bit>, ok: bool)
      requires Consistent(hasBits + local)
      modifies this
      ensures ok == (tag / 8 > 0 && ReadPayload(tag % 8, bs).Some?)
      ensures ok ==> Consistent(hasBits + bits)
      ensures ok ==> used == ReadPayload(tag % 8, bs).value.used
      ensures ok ==> View(hasBits + bits) ==
                       Apply(old(View(hasBits + local)), Field(tag / 8, ReadPayload(tag % 8, bs).value.item))
    {
      hide View, Consistent, ReadVarint64, ReadFixed, ReadString, ToInt32;
      used, bits, ok := 0, local, false;
      if tag == 8 || tag == 56 {
        var x := ReadVarint64(bs);
        if x.None? { return; }
        used, ok := x.value.used, true;
        var val := x.value.item;
        if tag == 8 && MessageTypeIsValid(ToInt32(val)) {
          PutType(ToInt32(val), local);
        } else if tag == 56 && ErrorCodeIsValid(ToInt32(val)) {
          PutError(ToInt32(val), local);
        } else {
          PutUnknown(Field(tag / 8, Varint(val)), local);
        }
      } else if tag == 17 {
        var x := ReadFixed(bs, 8);
        if x.None? { return; }
        used, ok := 8, true;
        bits := PutId(x.value.item, local);
      } else if tag == 26 || tag == 34 || tag == 42 || tag == 50 {
        var x := ReadString(bs);
        if x.None? { return; }
        used, ok := x.value.used, true;
        if tag == 26 {
          PutService(x.value.item, local);
        } else if tag == 34 {
          PutMethod(x.value.item, local);
        } else if tag == 42 {
          PutRequest(x.value.item, local);
        } else {
          PutResponse(x.value.item, local);
        }
      } else {
        if tag == 0 || tag % 8 == 4 || tag / 8 == 0 { return; }
        var x := ReadPayload(tag % 8, bs);
        if x.None? { return; }
        used, ok := x.value.used, true;
        PutUnknown(Field(tag / 8, x.value.item), local);
      }
    }

    /** `_InternalParse`: fields are applied to the message in order, up to the first malformed one. */
    method InternalParse(data: seq<Byte>) returns (ok: bool)
      requires Valid()
      modifies this
      ensures ok == ParseInto(old(Value()), data).Some?
      ensures ok ==> Valid() && Value() == ParseInto(old(Value()), data).value
    {
      hide View, Consistent, ReadTag, ReadPayload, Apply, ParseInto;
      var local: set<Bit> := {};
      var ptr := 0;
      assert hasBits + local == hasBits && data[0..] == data;
      while ptr < |data|
        invariant 0 <= ptr <= |data| && Consistent(hasBits + local)
        invariant ParseInto(old(Value()), data) == ParseInto(View(hasBits + local), data[ptr..])
      {
        ghost var m := View(hasBits + local);
        var tag := ReadTag(data[ptr..]);
        ParseStep(m, data[ptr..]);
        if tag.None? { return false; }
        ptr := ptr + tag.value.used;
        var used;
        assert data[ptr - tag.value.used..][tag.value.used..] == data[ptr..];
        used, local, ok := ParseField(tag.value.item, data[ptr..], local);
        if !ok { return; }
        assert data[ptr - tag.value.used..][tag.value.used + used..] == data[ptr + used..];
        ptr := ptr + used;
      }
      ParseNothing(View(hasBits + local), data[ptr..]);
      MergeLocal(local);
      ok := true;
    }

    method MergeLocal(local: set<Bit>)
      requires Consistent(hasBits + local)
      modifies this`hasBits
      ensures Valid() && Value() == old(View(hasBits + local))
    {
      hasBits := hasBits + local;
    }

    /** `ParseFromArray`. */
    method ParseFromArray(data: seq<Byte>) returns (ok: bool)
      requires Valid()
      modifies this
      ensures ok == Parse(data).Some?
      ensures ok ==> Valid() && Value() == Parse(data).value
    {
      Clear();
      ok := InternalParse(data);
      if ok {
        ok := IsInitialized();
      }
    }

    method SerializeUnknown(target0: seq<Byte>) returns (target: seq<Byte>)
      ensures target == target0 + EncodeFields(unknown)
    {
      hide Field.Encode;
      target := target0;
      for i := 0 to |unknown|
        invariant target == target0 + EncodeFields(unknown[..i])
      {
        target := target + unknown[i].Encode();
        EncodeFieldsConcat(unknown[..i], [unknown[i]]);
        EncodeOne(unknown[i]);
        assert unknown[..i + 1] == unknown[..i] + [unknown[i]];
      }
      assert unknown[..|unknown|] == unknown;
    }

    method WriteEnum(bit: Bit, number: nat, value: int, target: seq<Byte>) returns (r: seq<Byte>)
      ensures r == target + EncodeFields(IntField(number, When(bit, hasBits, value)))
    {
      r := target;
      EncodeOne(Field(number, Varint(value % TWO_64)));
      if bit in hasBits {
        r := r + Field(number, Varint(value % TWO_64)).Encode();
      }
    }

    method WriteId(target: seq<Byte>) returns (r: seq<Byte>)
      ensures r == target + EncodeFields(IdField(When(Id, hasBits, id)))
    {
      r := target;
      EncodeOne(Field(2, Fixed64(id)));
      if Id in hasBits {
        r := r + Field(2, Fixed64(id)).Encode();
      }
    }

    method WriteString(bit: Bit, number: nat, data: seq<Byte>, target: seq<Byte>) returns (r: seq<Byte>)
      ensures r == target + EncodeFields(BytesField(number, When(bit, hasBits, data)))
    {
      r := target;
      EncodeOne(Field(number, Delimited(data)));
      if bit in hasBits {
        r := r + Field(number, Delimited(data)).Encode();
      }
    }

    /** `_InternalSerialize`: present fields in number order, then the fields kept from elsewhere. */
    method InternalSerialize() returns (target: seq<Byte>)
      ensures target == Serialize(Value())
    {
      hide EncodeFields, IntField, IdField, BytesField, When, Serialize;
      target := [];
      target := WriteEnum(Type, 1, type_, target);
      target := WriteId(target);
      target := WriteString(Service, 3, service, target);
      target := WriteString(Method, 4, method_, target);
      target := WriteString(Request, 5, request, target);
      target := WriteString(Response, 6, response, target);
      target := WriteEnum(Error, 7, error, target);
      target := SerializeUnknown(target);
      SerializeParts(Value());
    }

    method EnumSize(bit: Bit, number: nat, value: int) returns (n: nat)
      requires 0 < number < 16 && 0 <= value < 128
      ensures n == |EncodeFields(IntField(number, When(bit, hasBits, value)))|
    {
      EncodeOne(Field(number, Varint(value % TWO_64)));
      FieldLength(Field(number, Varint(value % TWO_64)));
      n := if bit in hasBits then 1 + 1 else 0;
    }

    method StringSize(bit: Bit, number: nat, data: seq<Byte>) returns (n: nat)
      requires 0 < number < 16
      ensures n == |EncodeFields(BytesField(number, When(bit, hasBits, data)))|
    {
      EncodeOne(Field(number, Delimited(data)));
      FieldLength(Field(number, Delimited(data)));
      n := if bit in hasBits then 1 + VarintSize(|data|) + |data| else 0;
    }

    method IdSize() returns (n: nat)
      ensures n == |EncodeFields(IdField(When(Id, hasBits, id)))|
    {
      EncodeOne(Field(2, Fixed64(id)));
      FieldLength(Field(2, Fixed64(id)));
      n := if Id in hasBits then 1 + 8 else 0;
    }

    method UnknownSize() returns (n: nat)
      ensures n == |EncodeFields(unknown)|
    {
      hide Field.Size, Field.Encode;
      n := 0;
      for i := 0 to |unknown|
        invariant n == |EncodeFields(unknown[..i])|
      {
        EncodeFieldsConcat(unknown[..i], [unknown[i]]);
        EncodeOne(unknown[i]);
        FieldLength(unknown[i]);
        assert unknown[..i + 1] == unknown[..i] + [unknown[i]];
        n := n + unknown[i].Size();
      }
      assert unknown[..|unknown|] == unknown;
    }

    /** `ByteSizeLong`: the number of octets `InternalSerialize` will write, computed without writing them. */
    method ByteSizeLong() returns (total: nat)
      requires Valid()
      ensures total == |Serialize(Value())|
    {
      hide EncodeFields, IntField, IdField, BytesField, When, Serialize;
      var n := IdSize();
      total := n;
      n := EnumSize(Type, 1, type_);
      total := total + n;
      n := StringSize(Service, 3, service);
      total := total + n;
      n := StringSize(Method, 4, method_);
      total := total + n;
      n := StringSize(Request, 5, request);
      total := total + n;
      n := StringSize(Response, 6, response);
      total := total + n;
      n := EnumSize(Error, 7, error);
      total := total + n;
      n := UnknownSize();
      total := total + n;
      SerializeParts(Value());
    }
  }
}
