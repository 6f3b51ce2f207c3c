/**
 The generated `RpcMetaMessage` (proto2).  `Meta` is its meaning: which fields are present, with what value, and
 the fields kept without being understood.  The reference reading of a byte string is a fold of `Apply` over its
 fields; the class in `RpcMetaMessages` works on a has-bits word and a byte cursor.
 */
module RpcMeta {
  import opened Bytes
  import opened Wire

  const REQUEST := 1
  const RESPONSE := 2
  const ERROR := 3

  const NO_ERROR := 0
  const WRONG_PROTO := 1
  const NO_SERVICE := 2
  const NO_METHOD := 3
  const INVALID_REQUEST := 4

  predicate MessageTypeIsValid(value: int) {
    1 <= value <= 3
  }

  predicate ErrorCodeIsValid(value: int) {
    0 <= value <= 6
  }

  predicate ValidType(v: Option<int>) {
    v.Some? ==> MessageTypeIsValid(v.value)
  }

  predicate ValidError(v: Option<int>) {
    v.Some? ==> ErrorCodeIsValid(v.value)
  }

  predicate ValidId(v: Option<nat>) {
    v.Some? ==> v.value < TWO_64
  }

  predicate Short(v: Option<seq<Byte>>) {
    v.Some? ==> |v.value| <= MAX_STRING
  }

  datatype Meta = Meta(
    type_: Option<int>, id: Option<nat>, service: Option<seq<Byte>>, method_: Option<seq<Byte>>,
    request: Option<seq<Byte>>, response: Option<seq<Byte>>, error: Option<int>, unknown: seq<Field>)
  {
    predicate Valid() {
      && ValidType(type_) && ValidId(id) && Short(service) && Short(method_) && Short(request) && Short(response)
      && ValidError(error)
      && (forall f :: f in unknown ==> f.Valid() && !Understood(f))
    }

    predicate Initialized() {
      type_.Some? && id.Some?
    }
  }

  const EMPTY := Meta(None, None, None, None, None, None, None, [])

  // ---- Reading ----

  /** Whether the parser's switch takes the field for one of its own. */
  predicate Understood(f: Field) {
    match f.payload
    case Varint(v) =>
      || (f.number == 1 && MessageTypeIsValid(ToInt32(v)))
      || (f.number == 7 && ErrorCodeIsValid(ToInt32(v)))
    case Fixed64(_) => f.number == 2
    case Delimited(_) => 3 <= f.number <= 6
    case Fixed32(_) => false
  }

  /** Reading one field: the last value of a singular field wins, an unknown field is appended. */
  function Apply(m: Meta, f: Field): Meta {
    if !Understood(f) then m.(unknown := m.unknown + [f])
    else
      match f.payload
      case Varint(v) => if f.number == 1 then m.(type_ := Some(ToInt32(v))) else m.(error := Some(ToInt32(v)))
      case Fixed64(q) => m.(id := Some(q))
      case Delimited(data) =>
        if f.number == 3 then m.(service := Some(data))
        else if f.number == 4 then m.(method_ := Some(data))
        else if f.number == 5 then m.(request := Some(data))
        else m.(response := Some(data))
      case Fixed32(_) => m
  }

  function ApplyAll(m: Meta, fs: seq<Field>): Meta
    decreases fs
  {
    if fs == [] then m else ApplyAll(Apply(m, fs[0]), fs[1..])
  }

  function ParseInto(m: Meta, bs: seq<Byte>): Option<Meta> {
    match DecodeFields(bs)
    case None => None
    case Some(fs) => Some(ApplyAll(m, fs))
  }

  /** `ParseFromArray`: start from an empty message and insist on the required fields. */
  function Parse(bs: seq<Byte>): Option<Meta> {
    match ParseInto(EMPTY, bs)
    case None => None
    case Some(m) => if m.Initialized() then Some(m) else None
  }

  // ---- Printing ----

  function IntField(number: nat, v: Option<int>): seq<Field> {
    match v
    case None => []
    case Some(i) => [Field(number, Varint(i % TWO_64))]
  }

  function BytesField(number: nat, v: Option<seq<Byte>>): seq<Field> {
    match v { case None => [] case Some(data) => [Field(number, Delimited(data))] }
  }

  function IdField(v: Option<nat>): seq<Field> {
    match v { case None => [] case Some(q) => [Field(2, Fixed64(q))] }
  }

  function Fields(m: Meta): seq<Field> {
    IntField(1, m.type_) + (IdField(m.id) + (BytesField(3, m.service) + (BytesField(4, m.method_)
    + (BytesField(5, m.request) + (BytesField(6, m.response) + (IntField(7, m.error) + m.unknown))))))
  }

  function Serialize(m: Meta): seq<Byte> {
    EncodeFields(Fields(m))
  }

  function Pick<T>(later: Option<T>, earlier: Option<T>): Option<T> {
    if later.Some? then later else earlier
  }

  /** Numbers from `lo` on and below `hi`, each greater than the one before. */
  predicate Ascending(fs: seq<Field>, lo: nat, hi: nat) {
    && (forall i :: 0 <= i < |fs| ==> lo <= fs[i].number < hi)
    && (forall i, j :: 0 <= i < j < |fs| ==> fs[i].number < fs[j].number)
  }

  lemma AscendingConcat(x: seq<Field>, y: seq<Field>, lo: nat, mid: nat, hi: nat)
    requires lo <= mid <= hi && Ascending(x, lo, mid) && Ascending(y, mid, hi)
    ensures Ascending(x + y, lo, hi)
  {
  }

  lemma OneNumber(m: Meta)
    ensures Ascending(IntField(1, m.type_), 1, 2) && Ascending(IdField(m.id), 2, 3)
    ensures Ascending(BytesField(3, m.service), 3, 4) && Ascending(BytesField(4, m.method_), 4, 5)
    ensures Ascending(BytesField(5, m.request), 5, 6) && Ascending(BytesField(6, m.response), 6, 7)
    ensures Ascending(IntField(7, m.error), 7, 8)
  {
  }

  /** Fields are printed in the order of their numbers, and the unknown ones after them as they are. */
  lemma NumberOrder(m: Meta)
    ensures exists known :: Ascending(known, 1, 8) && Fields(m) == known + m.unknown
  {
    hide Ascending, IntField, IdField, BytesField;
    OneNumber(m);
    var f67 := BytesField(6, m.response) + IntField(7, m.error);
    var f57 := BytesField(5, m.request) + f67;
    var f47 := BytesField(4, m.method_) + f57;
    var f37 := BytesField(3, m.service) + f47;
    var f27 := IdField(m.id) + f37;
    var known := IntField(1, m.type_) + f27;
    AscendingConcat(BytesField(6, m.response), IntField(7, m.error), 6, 7, 8);
    AscendingConcat(BytesField(5, m.request), f67, 5, 6, 8);
    AscendingConcat(BytesField(4, m.method_), f57, 4, 5, 8);
    AscendingConcat(BytesField(3, m.service), f47, 3, 4, 8);
    AscendingConcat(IdField(m.id), f37, 2, 3, 8);
    AscendingConcat(IntField(1, m.type_), f27, 1, 2, 8);
    FieldsRegroup(m, f67, f57, f47, f37, f27);
  }

  lemma FieldsRegroup(m: Meta, f67: seq<Field>, f57: seq<Field>, f47: seq<Field>, f37: seq<Field>, f27: seq<Field>)
    requires f67 == BytesField(6, m.response) + IntField(7, m.error) && f57 == BytesField(5, m.request) + f67
    requires f47 == BytesField(4, m.method_) + f57 && f37 == BytesField(3, m.service) + f47
    requires f27 == IdField(m.id) + f37
    ensures Fields(m) == IntField(1, m.type_) + f27 + m.unknown
  {
    hide IntField, IdField, BytesField;
    assert BytesField(6, m.response) + (IntField(7, m.error) + m.unknown) == f67 + m.unknown;
    assert BytesField(5, m.request) + (f67 + m.unknown) == f57 + m.unknown;
    assert BytesField(4, m.method_) + (f57 + m.unknown) == f47 + m.unknown;
    assert BytesField(3, m.service) + (f47 + m.unknown) == f37 + m.unknown;
    assert IdField(m.id) + (f37 + m.unknown) == f27 + m.unknown;
  }

  lemma PickSome<T>(v: T, earlier: Option<T>)
    ensures Pick(Some(v), earlier) == Some(v)
  {
  }

  /** `MergeFrom`: what `b` has replaces what `a` has; unknown fields accumulate. */
  function Merge(a: Meta, b: Meta): Meta {
    Meta(Pick(b.type_, a.type_), Pick(b.id, a.id), Pick(b.service, a.service), Pick(b.method_, a.method_),
         Pick(b.request, a.request), Pick(b.response, a.response), Pick(b.error, a.error), a.unknown + b.unknown)
  }

  /** The seven fields by number, wire type and range; every other field is kept as it is, behind those kept before. */
  lemma FieldTable(m: Meta, f: Field)
    ensures Apply(m, f) ==
            match f.payload
            case Varint(v) =>
              if f.number == 1 && 1 <= ToInt32(v) <= 3 then m.(type_ := Some(ToInt32(v)))
              else if f.number == 7 && 0 <= ToInt32(v) <= 6 then m.(error := Some(ToInt32(v)))
              else m.(unknown := m.unknown + [f])
            case Fixed64(q) => if f.number == 2 then m.(id := Some(q)) else m.(unknown := m.unknown + [f])
            case Delimited(data) =>
              if f.number == 3 then m.(service := Some(data))
              else if f.number == 4 then m.(method_ := Some(data))
              else if f.number == 5 then m.(request := Some(data))
              else if f.number == 6 then m.(response := Some(data))
              else m.(unknown := m.unknown + [f])
            case Fixed32(_) => m.(unknown := m.unknown + [f])
  {
    hide ToInt32;
  }

  // ---- Laws ----

  lemma {:induction false} ApplyAllConcat(m: Meta, x: seq<Field>, y: seq<Field>)
    ensures ApplyAll(m, x + y) == ApplyAll(ApplyAll(m, x), y)
    decreases x
  {
    hide Apply;
    if x == [] {
      assert x + y == y;
    } else {
      assert (x + y)[1..] == x[1..] + y;
      ApplyAllConcat(Apply(m, x[0]), x[1..], y);
    }
  }

  lemma {:induction false} ApplyUnknown(m: Meta, fs: seq<Field>)
    requires forall f :: f in fs ==> !Understood(f)
    ensures ApplyAll(m, fs) == m.(unknown := m.unknown + fs)
    decreases fs
  {
    hide Understood;
    if fs == [] {
      assert m.unknown + fs == m.unknown;
    } else {
      ApplyUnknown(Apply(m, fs[0]), fs[1..]);
      assert m.unknown + [fs[0]] + fs[1..] == m.unknown + fs;
    }
  }

  lemma ApplyAtMostOne(m: Meta, fs: seq<Field>)
    requires |fs| <= 1
    ensures ApplyAll(m, fs) == if fs == [] then m else Apply(m, fs[0])
  {
    hide Apply;
    if fs != [] {
      assert fs[1..] == [];
    }
  }

  lemma SmallInt(v: int)
    requires 0 <= v <= 6
    ensures ToInt32(v % TWO_64) == v
  {
  }

  lemma ApplyInt(a: Meta, number: nat, v: Option<int>)
    requires number == 1 || number == 7
    requires v.Some? ==> if number == 1 then MessageTypeIsValid(v.value) else ErrorCodeIsValid(v.value)
    ensures ApplyAll(a, IntField(number, v)) ==
            if number == 1 then a.(type_ := Pick(v, a.type_)) else a.(error := Pick(v, a.error))
  {
    hide ToInt32;
    ApplyAtMostOne(a, IntField(number, v));
    if v.Some? {
      SmallInt(v.value);
    }
  }

  lemma ApplyId(a: Meta, v: Option<nat>)
    ensures ApplyAll(a, IdField(v)) == a.(id := Pick(v, a.id))
  {
    ApplyAtMostOne(a, IdField(v));
  }

  lemma ApplyBytes(a: Meta, number: nat, v: Option<seq<Byte>>)
    requires 3 <= number <= 6
    ensures ApplyAll(a, BytesField(number, v)) ==
            if number == 3 then a.(service := Pick(v, a.service))
            else if number == 4 then a.(method_ := Pick(v, a.method_))
            else if number == 5 then a.(request := Pick(v, a.request))
            else a.(response := Pick(v, a.response))
  {
    ApplyAtMostOne(a, BytesField(number, v));
  }

  /** Reading a message's own fields on top of `a` merges the message into `a`. */
  lemma ApplyFields(a: Meta, m: Meta)
    requires m.Valid()
    ensures ApplyAll(a, Fields(m)) == Merge(a, m)
  {
    hide Apply, ApplyAll, Understood, IntField, IdField, BytesField, Field.Valid;
    var r7 := IntField(7, m.error) + m.unknown;
    var r6 := BytesField(6, m.response) + r7;
    var r5 := BytesField(5, m.request) + r6;
    var r4 := BytesField(4, m.method_) + r5;
    var r3 := BytesField(3, m.service) + r4;
    var a1 := a.(type_ := Pick(m.type_, a.type_));
    var a2 := a1.(id := Pick(m.id, a.id));
    var a3 := a2.(service := Pick(m.service, a.service));
    var a4 := a3.(method_ := Pick(m.method_, a.method_));
    var a5 := a4.(request := Pick(m.request, a.request));
    var a6 := a5.(response := Pick(m.response, a.response));
    var a7 := a6.(error := Pick(m.error, a.error));
    ApplyInt(a, 1, m.type_);
    ApplyId(a1, m.id);
    ApplyBytes(a2, 3, m.service);
    ApplyBytes(a3, 4, m.method_);
    ApplyBytes(a4, 5, m.request);
    ApplyBytes(a5, 6, m.response);
    ApplyInt(a6, 7, m.error);
    ApplyUnknown(a7, m.unknown);
    ApplyAllConcat(a, IntField(1, m.type_), IdField(m.id) + r3);
    ApplyAllConcat(a1, IdField(m.id), r3);
    ApplyAllConcat(a2, BytesField(3, m.service), r4);
    ApplyAllConcat(a3, BytesField(4, m.method_), r5);
    ApplyAllConcat(a4, BytesField(5, m.request), r6);
    ApplyAllConcat(a5, BytesField(6, m.response), r7);
    ApplyAllConcat(a6, IntField(7, m.error), m.unknown);
  }

  lemma OptionalFieldsValid(m: Meta)
    requires m.Valid()
    ensures AllValid(IntField(1, m.type_)) && AllValid(IdField(m.id)) && AllValid(IntField(7, m.error))
    ensures AllValid(BytesField(3, m.service)) && AllValid(BytesField(4, m.method_))
    ensures AllValid(BytesField(5, m.request)) && AllValid(BytesField(6, m.response))
  {
  }

  lemma FieldsValid(m: Meta)
    requires m.Valid()
    ensures AllValid(Fields(m))
  {
    hide Field.Valid, IntField, IdField, BytesField;
    OptionalFieldsValid(m);
    var r7 := IntField(7, m.error) + m.unknown;
    var r6 := BytesField(6, m.response) + r7;
    var r5 := BytesField(5, m.request) + r6;
    var r4 := BytesField(4, m.method_) + r5;
    var r3 := BytesField(3, m.service) + r4;
    assert AllValid(r7);
    assert AllValid(r6);
    assert AllValid(r5);
    assert AllValid(r4);
    assert AllValid(r3);
  }

  /** Reading a printed message on top of `a`, with more bytes behind it, is a merge followed by the rest. */
  lemma ParseSerialized(a: Meta, m: Meta, rest: seq<Byte>)
    requires m.Valid()
    ensures ParseInto(a, Serialize(m) + rest) == ParseInto(Merge(a, m), rest)
  {
    hide Fields, Merge, ApplyAll, Meta.Valid;
    FieldsValid(m);
    ApplyFields(a, m);
    DecodeAfterEncode(Fields(m), rest);
    if DecodeFields(rest).Some? {
      ApplyAllConcat(a, Fields(m), DecodeFields(rest).value);
    }
  }

  lemma MergeEmpty(m: Meta)
    ensures Merge(EMPTY, m) == m
    ensures Merge(m, EMPTY) == m
  {
    assert [] + m.unknown == m.unknown && m.unknown + [] == m.unknown;
  }

  /** A printed message parses back, field for field, exactly when both its type and its id are present. */
  lemma RoundTrip(m: Meta)
    requires m.Valid()
    ensures Parse(Serialize(m)) == if m.type_.Some? && m.id.Some? then Some(m) else None
  {
    hide Merge, Serialize, Meta.Valid;
    ParseSerialized(EMPTY, m, []);
    assert Serialize(m) + [] == Serialize(m);
    MergeEmpty(m);
  }

  lemma MergeApply(a: Meta, b: Meta, f: Field)
    ensures Merge(a, Apply(b, f)) == Apply(Merge(a, b), f)
  {
    hide Understood, ToInt32, Pick;
    match f.payload {
      case Varint(v) =>
        PickSome(ToInt32(v), a.type_);
        PickSome(ToInt32(v), a.error);
      case Fixed64(q) => PickSome(q, a.id);
      case Delimited(data) =>
        PickSome(data, a.service);
        PickSome(data, a.method_);
        PickSome(data, a.request);
        PickSome(data, a.response);
      case Fixed32(_) =>
    }
    if !Understood(f) {
      assert a.unknown + (b.unknown + [f]) == a.unknown + b.unknown + [f];
    }
  }

  lemma {:induction false} MergeApplyAll(a: Meta, b: Meta, fs: seq<Field>)
    ensures Merge(a, ApplyAll(b, fs)) == ApplyAll(Merge(a, b), fs)
    decreases fs
  {
    hide Merge, Apply;
    if fs != [] {
      MergeApply(a, b, fs[0]);
      MergeApplyAll(a, Apply(b, fs[0]), fs[1..]);
    }
  }

  /**
   The merge law ("Last One Wins"), for any two accepted byte strings: reading their concatenation is reading each
   by itself and merging the second message into the first.
   */
  lemma MergeLaw(a: Meta, x: seq<Byte>, y: seq<Byte>)
    requires ParseInto(a, x).Some?
    ensures ParseInto(a, x + y) ==
            if ParseInto(EMPTY, y).None? then None
            else Some(Merge(ParseInto(a, x).value, ParseInto(EMPTY, y).value))
  {
    hide Merge, ApplyAll;
    DecodeConcat(x, y);
    if DecodeFields(y).Some? {
      var first := ParseInto(a, x).value;
      ApplyAllConcat(a, DecodeFields(x).value, DecodeFields(y).value);
      MergeApplyAll(first, EMPTY, DecodeFields(y).value);
      MergeEmpty(first);
    }
  }

  lemma ApplyValid(m: Meta, f: Field)
    requires m.Valid() && f.Valid()
    ensures Apply(m, f).Valid()
  {
    if Understood(f) {
      match f.payload {
        case Varint(v) =>
          assert if f.number == 1 then ValidType(Some(ToInt32(v))) else ValidError(Some(ToInt32(v)));
        case Fixed64(q) => assert ValidId(Some(q));
        case Delimited(data) => assert Short(Some(data));
      }
    }
    hide ValidType, ValidError, ValidId, Short, Understood, ToInt32, Field.Valid;
  }

  lemma {:induction false} ApplyAllValid(m: Meta, fs: seq<Field>)
    requires m.Valid() && AllValid(fs)
    ensures ApplyAll(m, fs).Valid()
    decreases fs
  {
    hide Meta.Valid, Apply, Field.Valid;
    if fs != [] {
      ApplyValid(m, fs[0]);
      ApplyAllValid(Apply(m, fs[0]), fs[1..]);
    }
  }

  /** Every accepted byte string yields a printable message, which parses back to itself. */
  lemma Reprint(bs: seq<Byte>)
    requires Parse(bs).Some?
    ensures Parse(bs).value.Valid()
    ensures Parse(Serialize(Parse(bs).value)) == Parse(bs)
  {
    DecodedFieldsValid(bs);
    ApplyAllValid(EMPTY, DecodeFields(bs).value);
    RoundTrip(Parse(bs).value);
  }
}
