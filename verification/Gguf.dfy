/**
 The GGUF reader.  On arbitrary bytes it terminates, never moves backwards and never passes the
 end; on the encoding of a value it returns that value and consumes exactly its bytes.
 Machine words are 64 bits wide.
 */
module Gguf {
  type Byte = b: nat | b < 256

  const USIZE: nat := 0x1_0000_0000_0000_0000
  const ISIZE: nat := 0x8000_0000_0000_0000

  /** Floats are kept as their bits, strings as their bytes. */
  datatype GgufValue =
    | U8(nat) | I8(int) | U16(nat) | I16(int) | U32(nat) | I32(int) | F32(bits: nat) | Bool(bool)
    | String(utf8: seq<Byte>) | Array(items: seq<GgufValue>) | U64(nat) | I64(int) | F64(bits: nat)

  /** What reading yields: a value, an error, or a panic; and where the reader stands then. */
  datatype Outcome<+T> = Ok(value: T, pos: nat) | Err(pos: nat) | Panic(pos: nat) {
    predicate IsFailure() {
      !Ok?
    }

    function PropagateFailure<U>(): Outcome<U>
      requires IsFailure()
    {
      if Err? then Err(pos) else Panic(pos)
    }

    function Extract(): (T, nat)
      requires !IsFailure()
    {
      (value, pos)
    }
  }

  // ------------------------------------------------------------------ little-endian numbers

  function LittleEndian(bytes: seq<Byte>): nat {
    if bytes == [] then 0 else bytes[0] + 256 * LittleEndian(bytes[1..])
  }

  function Pow256(n: nat): (p: nat)
    ensures p >= 1
  {
    if n == 0 then 1 else 256 * Pow256(n - 1)
  }

  function ToBytes(v: nat, n: nat): (bytes: seq<Byte>)
    ensures |bytes| == n
  {
    if n == 0 then [] else [v % 256] + ToBytes(v / 256, n - 1)
  }

  lemma {:induction false} BytesRoundTrip(v: nat, n: nat)
    requires v < Pow256(n)
    ensures LittleEndian(ToBytes(v, n)) == v
  {
    if n > 0 {
      BytesRoundTrip(v / 256, n - 1);
      assert ToBytes(v, n)[1..] == ToBytes(v / 256, n - 1);
    }
  }

  lemma Pow256s()
    ensures Pow256(1) == 0x100 && Pow256(2) == 0x1_0000 && Pow256(4) == 0x1_0000_0000 && Pow256(8) == USIZE
  {
    assert Pow256(3) == 0x100_0000 && Pow256(5) == 0x100_0000_0000;
    assert Pow256(6) == 0x1_0000_0000_0000 && Pow256(7) == 0x100_0000_0000_0000;
  }

  /** A cast to the signed type with as many values. */
  function Signed(v: nat, values: nat): int {
    if v >= values / 2 then v - values else v
  }

  // ------------------------------------------------------------------ the reader, as functions

  predicate Readable(data: seq<Byte>, pos: nat) {
    pos <= |data| < ISIZE
  }

  /** The sum pos + len may overflow, which panics, at once or when the slice is taken. */
  function BytesAt(data: seq<Byte>, pos: nat, len: nat): (r: Outcome<seq<Byte>>)
    requires Readable(data, pos)
    ensures r.Ok? ==> r.pos == pos + len && r.pos <= |data| && |r.value| == len
    ensures !r.Ok? ==> r.pos == pos
  {
    if pos + len >= USIZE then Panic(pos)
    else if pos + len > |data| then Err(pos)
    else Ok(data[pos..pos + len], pos + len)
  }

  function NumberAt(data: seq<Byte>, pos: nat, width: nat): (r: Outcome<nat>)
    requires Readable(data, pos)
    ensures pos <= r.pos <= |data| && (r.Ok? ==> r.pos == pos + width)
  {
    var (bytes, p) :- BytesAt(data, pos, width);
    Ok(LittleEndian(bytes), p)
  }

  /** Well-formed UTF-8: no overlong forms, no surrogates, nothing above U+10FFFF. */
  predicate ValidUtf8(s: seq<Byte>) {
    if s == [] then true
    else
      var b := s[0];
      if b < 0x80 then ValidUtf8(s[1..])
      else if 0xC2 <= b <= 0xDF then |s| >= 2 && 0x80 <= s[1] <= 0xBF && ValidUtf8(s[2..])
      else if 0xE0 <= b <= 0xEF then
        && |s| >= 3 && (if b == 0xE0 then 0xA0 else 0x80) <= s[1] <= (if b == 0xED then 0x9F else 0xBF)
        && 0x80 <= s[2] <= 0xBF && ValidUtf8(s[3..])
      else if 0xF0 <= b <= 0xF4 then
        && |s| >= 4 && (if b == 0xF0 then 0x90 else 0x80) <= s[1] <= (if b == 0xF4 then 0x8F else 0xBF)
        && 0x80 <= s[2] <= 0xBF && 0x80 <= s[3] <= 0xBF && ValidUtf8(s[4..])
      else false
  }

  function StringAt(data: seq<Byte>, pos: nat): (r: Outcome<seq<Byte>>)
    requires Readable(data, pos)
    ensures pos <= r.pos <= |data| && (r.Ok? ==> r.pos > pos)
  {
    var (len, p) :- NumberAt(data, pos, 8);
    var (bytes, q) :- BytesAt(data, p, len);
    if ValidUtf8(bytes) then Ok(bytes, q) else Err(q)
  }

  /** How many bytes a value of a plain type takes. */
  function Width(valueType: nat): nat {
    match valueType
    case 0 | 1 | 7 => 1
    case 2 | 3 => 2
    case 4 | 5 | 6 => 4
    case _ => 8
  }

  function PlainValue(valueType: nat, v: nat): GgufValue {
    match valueType
    case 0 => U8(v)
    case 1 => I8(Signed(v, 0x100))
    case 2 => U16(v)
    case 3 => I16(Signed(v, 0x1_0000))
    case 4 => U32(v)
    case 5 => I32(Signed(v, 0x1_0000_0000))
    case 6 => F32(v)
    case 7 => Bool(v != 0)
    case 10 => U64(v)
    case 11 => I64(Signed(v, USIZE))
    case _ => F64(v)
  }

  predicate IsPlain(valueType: nat) {
    valueType < 13 && valueType != 8 && valueType != 9
  }

  /** `maxItems` is the largest capacity a vector of values can have; asking for more panics. */
  function ValueAt(data: seq<Byte>, pos: nat, valueType: nat, maxItems: nat): (r: Outcome<GgufValue>)
    requires Readable(data, pos)
    ensures pos <= r.pos <= |data| && (r.Ok? ==> r.pos > pos)
    decreases |data| - pos, 0
  {
    if IsPlain(valueType) then
      var (v, p) :- NumberAt(data, pos, Width(valueType));
      Ok(PlainValue(valueType, v), p)
    else if valueType == 8 then
      var (s, p) :- StringAt(data, pos);
      Ok(String(s), p)
    else if valueType == 9 then
      var (itemType, p) :- NumberAt(data, pos, 4);
      var (len, q) :- NumberAt(data, p, 8);
      if len > maxItems then Panic(q)
      else
        var (items, e) :- ItemsAt(data, q, itemType, len, maxItems);
        Ok(Array(items), e)
    else Err(pos)
  }

  function ItemsAt(data: seq<Byte>, pos: nat, itemType: nat, n: nat, maxItems: nat): (r: Outcome<seq<GgufValue>>)
    requires Readable(data, pos)
    ensures pos <= r.pos <= |data|
    decreases |data| - pos, 1, n
  {
    if n == 0 then Ok([], pos)
    else
      var (v, p) :- ValueAt(data, pos, itemType, maxItems);
      var (rest, q) :- ItemsAt(data, p, itemType, n - 1, maxItems);
      Ok([v] + rest, q)
  }

  // ------------------------------------------------------------------ encodings

  /** A value as a file holds it: an array records the type of its items. */
  datatype Wire = Plain(value: GgufValue) | Text(utf8: seq<Byte>) | List(itemType: nat, items: seq<Wire>)

  function TypeOf(w: Wire): nat {
    match w
    case Text(_) => 8
    case List(_, _) => 9
    case Plain(v) =>
      match v
      case U8(_) => 0 case I8(_) => 1 case U16(_) => 2 case I16(_) => 3 case U32(_) => 4 case I32(_) => 5
      case F32(_) => 6 case Bool(_) => 7 case U64(_) => 10 case I64(_) => 11 case F64(_) => 12
      case _ => 13
  }

  /** The value as a number of its width. */
  function Bits(v: GgufValue): int {
    match v
    case U8(n) => n case U16(n) => n case U32(n) => n case U64(n) => n
    case I8(i) => if i < 0 then i + 0x100 else i
    case I16(i) => if i < 0 then i + 0x1_0000 else i
    case I32(i) => if i < 0 then i + 0x1_0000_0000 else i
    case I64(i) => if i < 0 then i + USIZE else i
    case F32(b) => b case F64(b) => b
    case Bool(b) => if b then 1 else 0
    case _ => 0
  }

  /** Numbers fit their types. */
  predicate InRange(v: GgufValue) {
    match v
    case U8(n) => n < 0x100 case U16(n) => n < 0x1_0000 case U32(n) => n < 0x1_0000_0000 case U64(n) => n < USIZE
    case I8(i) => -0x80 <= i < 0x80 case I16(i) => -0x8000 <= i < 0x8000
    case I32(i) => -0x8000_0000 <= i < 0x8000_0000 case I64(i) => -0x8000_0000_0000_0000 <= i < ISIZE
    case F32(b) => b < 0x1_0000_0000 case F64(b) => b < USIZE
    case Bool(_) => true
    case _ => false
  }

  /** Items have the array's type; strings are UTF-8; lengths fit. */
  ghost predicate Encodable(w: Wire, maxItems: nat) {
    match w
    case Plain(v) => InRange(v)
    case Text(s) => ValidUtf8(s) && |s| < ISIZE
    case List(itemType, items) =>
      && itemType < 13 && |items| <= maxItems && |items| < USIZE
      && forall i :: 0 <= i < |items| ==> TypeOf(items[i]) == itemType && Encodable(items[i], maxItems)
  }

  ghost function Encode(w: Wire): (bytes: seq<Byte>) {
    match w
    case Plain(v) => ToBytes(if Bits(v) >= 0 then Bits(v) else 0, Width(TypeOf(w)))
    case Text(s) => EncodeString(s)
    case List(itemType, items) => ToBytes(itemType, 4) + ToBytes(|items|, 8) + EncodeAll(items)
  }

  function EncodeString(s: seq<Byte>): seq<Byte> {
    ToBytes(|s|, 8) + s
  }

  ghost function EncodeAll(items: seq<Wire>): seq<Byte> {
    if items == [] then [] else Encode(items[0]) + EncodeAll(items[1..])
  }

  ghost function Erase(w: Wire): GgufValue {
    match w
    case Plain(v) => v
    case Text(s) => String(s)
    case List(_, items) => Array(EraseAll(items))
  }

  ghost function EraseAll(items: seq<Wire>): seq<GgufValue> {
    if items == [] then [] else [Erase(items[0])] + EraseAll(items[1..])
  }

  /** These bytes are at this place. */
  predicate At(data: seq<Byte>, pos: nat, bytes: seq<Byte>) {
    pos + |bytes| <= |data| && data[pos..pos + |bytes|] == bytes
  }

  lemma AtSplit(data: seq<Byte>, pos: nat, a: seq<Byte>, b: seq<Byte>)
    requires At(data, pos, a + b)
    ensures At(data, pos, a) && At(data, pos + |a|, b)
  {
    assert data[pos..pos + |a|] == data[pos..pos + |a + b|][..|a|];
    assert data[pos + |a|..pos + |a + b|] == data[pos..pos + |a + b|][|a|..];
  }

  lemma ReadsNumber(data: seq<Byte>, pos: nat, v: nat, width: nat)
    requires Readable(data, pos) && At(data, pos, ToBytes(v, width)) && v < Pow256(width)
    ensures NumberAt(data, pos, width) == Ok(v, pos + width)
  {
    BytesRoundTrip(v, width);
  }

  lemma ToBytesLength(v: nat, n: nat)
    ensures |ToBytes(v, n)| == n
  {
  }

  lemma ReadsString(data: seq<Byte>, pos: nat, s: seq<Byte>)
    requires Readable(data, pos) && At(data, pos, EncodeString(s)) && ValidUtf8(s)
    ensures StringAt(data, pos) == Ok(s, pos + |EncodeString(s)|)
  {
    hide ToBytes, Pow256, NumberAt, ValidUtf8;
    ToBytesLength(|s|, 8);
    AtSplit(data, pos, ToBytes(|s|, 8), s);
    Pow256s();
    ReadsNumber(data, pos, |s|, 8);
  }

  lemma ReadsPlain(data: seq<Byte>, pos: nat, v: GgufValue, maxItems: nat)
    requires Readable(data, pos) && InRange(v) && At(data, pos, Encode(Plain(v)))
    ensures ValueAt(data, pos, TypeOf(Plain(v)), maxItems) == Ok(v, pos + |Encode(Plain(v))|)
  {
    Pow256s();
    hide Pow256, ToBytes, NumberAt, At;
    var t := TypeOf(Plain(v));
    ReadsNumber(data, pos, Bits(v), Width(t));
    assert PlainValue(t, Bits(v)) == v;
  }

  /** Reading inverts writing, for arbitrarily nested values. */
  lemma {:induction false} ReadsEncoded(data: seq<Byte>, pos: nat, w: Wire, maxItems: nat)
    requires Readable(data, pos) && Encodable(w, maxItems) && At(data, pos, Encode(w))
    ensures ValueAt(data, pos, TypeOf(w), maxItems) == Ok(Erase(w), pos + |Encode(w)|)
    decreases w, 0
  {
    match w
    case Plain(v) => ReadsPlain(data, pos, v, maxItems);
    case Text(s) => ReadsString(data, pos, s);
    case List(itemType, items) =>
      var head, count := ToBytes(itemType, 4), ToBytes(|items|, 8);
      assert Encode(w) == (head + count) + EncodeAll(items);
      AtSplit(data, pos, head + count, EncodeAll(items));
      AtSplit(data, pos, head, count);
      Pow256s();
      ReadsNumber(data, pos, itemType, 4);
      ReadsNumber(data, pos + 4, |items|, 8);
      ReadsAll(data, pos + 12, itemType, items, maxItems);
  }

  lemma {:induction false} ReadsAll(data: seq<Byte>, pos: nat, itemType: nat, items: seq<Wire>, maxItems: nat)
    requires Readable(data, pos) && At(data, pos, EncodeAll(items))
    requires forall i :: 0 <= i < |items| ==> TypeOf(items[i]) == itemType && Encodable(items[i], maxItems)
    ensures ItemsAt(data, pos, itemType, |items|, maxItems) == Ok(EraseAll(items), pos + |EncodeAll(items)|)
    decreases items, 1
  {
    if items != [] {
      hide Encode, EncodeAll, Erase, EraseAll, At, ItemsAt, ValueAt, TypeOf, Encodable;
      var first, rest := items[0], items[1..];
      AllFirst(items);
      var p := pos + |Encode(first)|;
      AtSplit(data, pos, Encode(first), EncodeAll(rest));
      AtFits(data, p, EncodeAll(rest));
      ReadsEncoded(data, pos, first, maxItems);
      ReadsAll(data, p, itemType, rest, maxItems);
      ItemsFrom(data, pos, itemType, |items|, maxItems, Erase(first), p, EraseAll(rest), pos + |EncodeAll(items)|);
    }
  }

  lemma AllFirst(items: seq<Wire>)
    requires items != []
    ensures EncodeAll(items) == Encode(items[0]) + EncodeAll(items[1..])
    ensures EraseAll(items) == [Erase(items[0])] + EraseAll(items[1..])
  {
    hide Encode, Erase;
  }

  lemma AtFits(data: seq<Byte>, pos: nat, bytes: seq<Byte>)
    requires At(data, pos, bytes)
    ensures pos + |bytes| <= |data|
  {
  }

  lemma ItemsFrom(data: seq<Byte>, pos: nat, itemType: nat, n: nat, maxItems: nat, v: GgufValue, p: nat,
                  rest: seq<GgufValue>, q: nat)
    requires n > 0 && Readable(data, pos) && Readable(data, p)
    requires ValueAt(data, pos, itemType, maxItems) == Ok(v, p)
    requires ItemsAt(data, p, itemType, n - 1, maxItems) == Ok(rest, q)
    ensures ItemsAt(data, pos, itemType, n, maxItems) == Ok([v] + rest, q)
  {
    hide ValueAt;
  }

  // ------------------------------------------------------------------ the reader as an object

  /** The bytes of a file and a position in it. */
  class Reader {
    const data: seq<Byte>
    var pos: nat

    constructor (data: seq<Byte>)
      ensures this.data == data && pos == 0
    {
      this.data := data;
      pos := 0;
    }

    predicate Valid()
      reads this
    {
      Readable(data, pos)
    }

    method ReadBytes(len: nat) returns (r: Outcome<seq<Byte>>)
      requires Valid()
      modifies this
      ensures r == BytesAt(data, old(pos), len) && pos == r.pos && Valid()
    {
      if pos + len >= USIZE {
        return Panic(pos);
      }
      if pos + len > |data| {
        return Err(pos);
      }
      var val := data[pos..pos + len];
      pos := pos + len;
      r := Ok(val, pos);
    }

    /** The fixed-width reads: two, four or eight bytes, as a number. */
    method ReadNumber(width: nat) returns (r: Outcome<nat>)
      requires Valid()
      modifies this
      ensures r == NumberAt(data, old(pos), width) && pos == r.pos && Valid()
    {
      var bytes :- ReadBytes(width);
      r := Ok(LittleEndian(bytes.0), pos);
    }

    method ReadString() returns (r: Outcome<seq<Byte>>)
      requires Valid()
      modifies this
      ensures r == StringAt(data, old(pos)) && pos == r.pos && Valid()
    {
      var len :- ReadNumber(8);
      var bytes :- ReadBytes(len.0);
      r := if ValidUtf8(bytes.0) then Ok(bytes.0, pos) else Err(pos);
    }

    /**
     One value of the given type.  It terminates on arbitrary bytes: a nested array starts
     further on, and each item takes at least one byte.
     */
    method ReadValue(valueType: nat, maxItems: nat) returns (r: Outcome<GgufValue>)
      requires Valid()
      modifies this
      ensures r == ValueAt(data, old(pos), valueType, maxItems) && pos == r.pos && Valid()
      decreases |data| - pos, 0
    {
      if IsPlain(valueType) {
        var v :- ReadNumber(Width(valueType));
        return Ok(PlainValue(valueType, v.0), pos);
      } else if valueType == 8 {
        var s :- ReadString();
        return Ok(String(s.0), pos);
      } else if valueType == 9 {
        var itemType :- ReadNumber(4);
        var len :- ReadNumber(8);
        if len.0 > maxItems {
          return Panic(pos);
        }
        var items :- ReadItems(itemType.0, len.0, maxItems);
        return Ok(Array(items.0), pos);
      } else {
        return Err(pos);
      }
    }

    method ReadItems(itemType: nat, len: nat, maxItems: nat) returns (r: Outcome<seq<GgufValue>>)
      requires Valid()
      modifies this
      ensures r == ItemsAt(data, old(pos), itemType, len, maxItems) && pos == r.pos && Valid()
      decreases |data| - pos, 1
    {
      hide ValueAt;
      ghost var start := pos;
      var items := [];
      PrependNone(ItemsAt(data, pos, itemType, len, maxItems));
      for i := 0 to len
        invariant Valid() && start <= pos
        invariant ItemsAt(data, start, itemType, len, maxItems) ==
          Prepended(items, ItemsAt(data, pos, itemType, len - i, maxItems))
      {
        var item :- ReadValue(itemType, maxItems);
        PrependMore(items, item.0, ItemsAt(data, pos, itemType, len - i - 1, maxItems));
        items := items + [item.0];
      }
      assert items + [] == items;
      r := Ok(items, pos);
    }
  }

  /** Items already read before those still to come. */
  ghost function Prepended(items: seq<GgufValue>, rest: Outcome<seq<GgufValue>>): Outcome<seq<GgufValue>> {
    if rest.Ok? then Ok(items + rest.value, rest.pos) else rest
  }

  lemma PrependNone(rest: Outcome<seq<GgufValue>>)
    ensures Prepended([], rest) == rest
  {
    if rest.Ok? {
      assert [] + rest.value == rest.value;
    }
  }

  lemma PrependMore(items: seq<GgufValue>, item: GgufValue, rest: Outcome<seq<GgufValue>>)
    ensures rest.Ok? ==> items + ([item] + rest.value) == (items + [item]) + rest.value
  {
  }
}
