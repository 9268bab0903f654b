/**
 Where the tensors of a GGUF file are found, told by the entries of the file itself: which
 alignment the metadata asks for, where the data section then starts, and which files are refused.
 */
module GgufPlaces {
  import Types
  import opened Gguf
  import opened GgufLoading

  /** A name in ASCII. */
  function Ascii(s: string): seq<Byte>
    requires forall i :: 0 <= i < |s| ==> (s[i] as int) < 128
  {
    seq(|s|, i requires 0 <= i < |s| => s[i] as int)
  }

  lemma Spelled()
    ensures MAGIC == Ascii("GGUF") && ALIGNMENT_KEY == Ascii("general.alignment")
  {
    var key := Ascii("general.alignment");
    assert |key| == |ALIGNMENT_KEY| && forall i :: 0 <= i < |key| ==> key[i] == ALIGNMENT_KEY[i];
    var magic := Ascii("GGUF");
    assert |magic| == |MAGIC| && forall i :: 0 <= i < |magic| ==> magic[i] == MAGIC[i];
  }

  // ------------------------------------------------------------------ the alignment asked for

  /** Entry i is the last one of its key. */
  ghost predicate LastEntry(kvs: seq<WireKv>, i: nat)
    requires i < |kvs|
  {
    forall j :: i < j < |kvs| ==> kvs[j].0 != kvs[i].0
  }

  /** The alignment a single entry asks for: signed numbers are cast, other types ask for nothing. */
  ghost predicate EntryAsks(w: Wire, a: nat) {
    match w
    case Plain(U32(n)) => a == n
    case Plain(U8(n)) => a == n
    case Plain(I32(n)) => a == if n < 0 then 0x1_0000_0000_0000_0000 + n else n
    case _ => a == 32
  }

  /** The last entry of this key decides; without one the alignment is 32. */
  ghost predicate AsksUnder(kvs: seq<WireKv>, key: seq<Byte>, a: nat) {
    if exists i :: 0 <= i < |kvs| && kvs[i].0 == key then
      exists i :: 0 <= i < |kvs| && kvs[i].0 == key && LastEntry(kvs, i) && EntryAsks(kvs[i].1, a)
    else a == 32
  }

  /** The file asks for this alignment. */
  ghost predicate Asks(kvs: seq<WireKv>, a: nat) {
    AsksUnder(kvs, Ascii("general.alignment"), a)
  }

  /** The value of a key is that of its last entry. */
  lemma {:induction false} CollectsLast(kvs: seq<Kv>, key: seq<Byte>)
    ensures key in Collect(kvs) <==> exists i :: 0 <= i < |kvs| && kvs[i].0 == key
    ensures forall i :: 0 <= i < |kvs| && kvs[i].0 == key && (forall j :: i < j < |kvs| ==> kvs[j].0 != key) ==>
      key in Collect(kvs) && Collect(kvs)[key] == kvs[i].1
    decreases |kvs|
  {
    if kvs != [] {
      var init := kvs[..|kvs| - 1];
      CollectsLast(init, key);
      assert forall i :: 0 <= i < |init| ==> init[i] == kvs[i];
      assert Collect(kvs) == Collect(init)[kvs[|kvs| - 1].0 := kvs[|kvs| - 1].1];
      hide Collect;
    }
  }

  lemma ErasedEntries(kvs: seq<WireKv>)
    ensures |Erased(kvs)| == |kvs|
    ensures forall i :: 0 <= i < |kvs| ==> Erased(kvs)[i].0 == kvs[i].0 && Erased(kvs)[i].1 == Erase(kvs[i].1)
  {
  }

  lemma CollectedEntry(kvs: seq<WireKv>, key: seq<Byte>, a: nat, maxItems: nat) returns (w: Wire)
    requires AsksUnder(kvs, key, a) && forall i :: 0 <= i < |kvs| ==> KvOk(kvs[i], maxItems)
    ensures key !in Collect(Erased(kvs)) ==> a == 32
    ensures key in Collect(Erased(kvs)) ==>
      Encodable(w, maxItems) && EntryAsks(w, a) && Collect(Erased(kvs))[key] == Erase(w)
  {
    CollectsLast(Erased(kvs), key);
    ErasedEntries(kvs);
    hide Collect, Erased, EntryAsks, Erase, Encodable;
    w := Text([]);
    assert forall i :: 0 <= i < |kvs| ==> (Erased(kvs)[i].0 == key <==> kvs[i].0 == key);
    if key in Collect(Erased(kvs)) {
      var k :| 0 <= k < |kvs| && kvs[k].0 == key && LastEntry(kvs, k) && EntryAsks(kvs[k].1, a);
      assert KvOk(kvs[k], maxItems);
      w := kvs[k].1;
    }
  }

  lemma AlignmentIs(kvs: seq<WireKv>, a: nat, maxItems: nat)
    requires Asks(kvs, a) && forall i :: 0 <= i < |kvs| ==> KvOk(kvs[i], maxItems)
    ensures Alignment(Collect(Erased(kvs))) == a && a < USIZE
  {
    hide Collect, Erased, AsksUnder, EntryAsks, Erase, Encodable, KvOk, Ascii;
    Spelled();
    var w := CollectedEntry(kvs, ALIGNMENT_KEY, a, maxItems);
    AlignmentFits(kvs, maxItems);
    if ALIGNMENT_KEY in Collect(Erased(kvs)) {
      EntryDecides(w, Collect(Erased(kvs)), a, maxItems);
    }
  }

  lemma EntryDecides(w: Wire, metadata: Metadata, a: nat, maxItems: nat)
    requires ALIGNMENT_KEY in metadata && metadata[ALIGNMENT_KEY] == Erase(w)
    requires Encodable(w, maxItems) && EntryAsks(w, a)
    ensures Alignment(metadata) == a
  {
  }

  lemma {:induction false} HasLastEntry(kvs: seq<WireKv>, key: seq<Byte>, i: nat) returns (k: nat)
    requires i < |kvs| && kvs[i].0 == key
    ensures k < |kvs| && kvs[k].0 == key && LastEntry(kvs, k)
    decreases |kvs| - i
  {
    k := i;
    if !LastEntry(kvs, i) {
      var j :| i < j < |kvs| && kvs[j].0 == key;
      k := HasLastEntry(kvs, key, j);
    }
  }

  /** Every file asks for an alignment, and for only one. */
  lemma AsksForOne(kvs: seq<WireKv>, maxItems: nat) returns (a: nat)
    requires forall i :: 0 <= i < |kvs| ==> KvOk(kvs[i], maxItems)
    ensures forall b: nat :: Asks(kvs, b) <==> b == a
  {
    hide Ascii;
    var key := Ascii("general.alignment");
    a := 32;
    if i :| 0 <= i < |kvs| && kvs[i].0 == key {
      var k := HasLastEntry(kvs, key, i);
      assert KvOk(kvs[k], maxItems);
      a := match kvs[k].1
        case Plain(U32(n)) => n
        case Plain(U8(n)) => n
        case Plain(I32(n)) => if n < 0 then USIZE + n else n
        case _ => 32;
      assert EntryAsks(kvs[k].1, a);
    }
    forall b: nat
      ensures Asks(kvs, b) <==> b == a
    {
      if Asks(kvs, b) {
        AlignmentIs(kvs, b, maxItems);
        AlignmentIs(kvs, a, maxItems);
      }
    }
  }

  // ------------------------------------------------------------------ the data section

  /** The least multiple of a that is at least n. */
  ghost predicate LeastMultiple(m: nat, a: nat, n: nat) {
    && m >= n && (exists q: nat :: m == q * a)
    && forall q: nat {:trigger q * a} :: q * a >= n ==> q * a >= m
  }

  /** A tensor at this start and offset is found in the file: the sum may pass a machine word only unchecked. */
  ghost predicate FoundAt(dataLen: nat, start: nat, offset: nat, overflowChecks: bool) {
    || start + offset <= dataLen
    || (!overflowChecks && USIZE <= start + offset <= dataLen + USIZE)
  }

  /** The tensor stored under its name is this one, as far from the start as its offset says. */
  ghost predicate StoredFrom(tensors: map<seq<Byte>, StoredTensor>, start: nat, info: TensorInfo) {
    && info.name in tensors && tensors[info.name].shape == info.shape && tensors[info.name].dtype == info.dtype
    && tensors[info.name].offset ==
         if start + info.offset < USIZE then start + info.offset else start + info.offset - USIZE
  }

  /**
   A file asking for alignment 0 makes loading panic.  With any other, the data section starts at
   the least multiple of it at or after the header; the file loads if and only if every tensor is
   found in it from there, and then the last tensor of each name is stored that far in.
   */
  lemma LoadsAligned(data: seq<Byte>, version: nat, kvs: seq<WireKv>, infos: seq<TensorInfo>, limits: Limits, a: nat)
      returns (start: nat)
    requires WellFormed(data, version, kvs, infos, limits) && Asks(kvs, a)
    ensures a == 0 ==> Load(data, limits).Panic?
    ensures a > 0 ==>
      && LeastMultiple(start, a, |EncodeHeader(version, kvs, infos)|)
      && (Load(data, limits).Ok? <==>
            forall i :: 0 <= i < |infos| ==> FoundAt(|data|, start, infos[i].offset, limits.overflowChecks))
      && (Load(data, limits).Ok? ==> forall i :: 0 <= i < |infos| && LastNamed(infos, i) ==>
            StoredFrom(Load(data, limits).value.tensors, start, infos[i]))
  {
    hide Load, EncodeHeader, Collect, Erased, Alignment, Asks, KvOk, InfoOk, At, DataStart, StoredAt, StoredFrom,
         Place, LastNamed, FoundAt;
    AlignmentIs(kvs, a, limits.maxItems);
    var size := |EncodeHeader(version, kvs, infos)|;
    if a == 0 {
      start := 0;
      LoadsEncoded(data, version, kvs, infos, limits);
    } else {
      start := SectionStart(version, kvs, infos);
      DataStartIsLeast(size, a);
      LoadsWhen(data, version, kvs, infos, limits);
      LoadsIffInFile(data, version, kvs, infos, limits);
      HeaderIn(data, version, kvs, infos);
      forall i | 0 <= i < |infos|
        ensures FoundAt(|data|, start, infos[i].offset, limits.overflowChecks) <==>
          InFile(|data|, start, infos[i]) || (!limits.overflowChecks && WrapsInto(|data|, start, infos[i]))
      {
        MeansFound(|data|, start, infos[i], limits.overflowChecks);
      }
      if Load(data, limits).Ok? {
        forall i | 0 <= i < |infos| && LastNamed(infos, i)
          ensures StoredFrom(Load(data, limits).value.tensors, start, infos[i])
        {
          StartsThere(Load(data, limits).value.tensors, start, infos[i], limits);
        }
      }
    }
  }

  lemma HeaderIn(data: seq<Byte>, version: nat, kvs: seq<WireKv>, infos: seq<TensorInfo>)
    requires At(data, 0, EncodeHeader(version, kvs, infos))
    ensures |EncodeHeader(version, kvs, infos)| <= |data|
  {
    hide EncodeHeader;
  }

  lemma MeansFound(dataLen: nat, start: nat, info: TensorInfo, overflowChecks: bool)
    ensures FoundAt(dataLen, start, info.offset, overflowChecks) <==>
      InFile(dataLen, start, info) || (!overflowChecks && WrapsInto(dataLen, start, info))
  {
  }

  lemma StartsThere(tensors: map<seq<Byte>, StoredTensor>, start: nat, info: TensorInfo, limits: Limits)
    requires StoredAt(tensors, start, info, limits) && start < USIZE && InfoOk(info)
    ensures StoredFrom(tensors, start, info)
  {
    var sum := start + info.offset;
    if sum >= USIZE {
      assert sum % USIZE == sum - USIZE;
    }
  }

  // ------------------------------------------------------------------ files that are refused

  /** Only files that start with the magic bytes and version 2 or 3 load. */
  lemma OnlyGguf(data: seq<Byte>, limits: Limits)
    requires |data| < ISIZE && Load(data, limits).Ok?
    ensures |data| >= 24 && data[..4] == Ascii("GGUF")
    ensures (data[4] == 2 || data[4] == 3) && data[5] == data[6] == data[7] == 0
  {
    hide KvsAt, InfosAt, Finish, LittleEndian, Ascii;
    Spelled();
    WordIs(data[4..8]);
  }

  /** Four bytes as a number, the lowest first. */
  lemma WordIs(b: seq<Byte>)
    requires |b| == 4
    ensures var b0: nat, b1: nat, b2: nat, b3: nat := b[0], b[1], b[2], b[3];
      LittleEndian(b) == b0 + 0x100 * b1 + 0x1_0000 * b2 + 0x100_0000 * b3
  {
    assert b[1..][1..] == b[2..] && b[2..][1..] == b[3..] && b[3..][1..] == [];
    assert b[1..][0] == b[1] && b[2..][0] == b[2] && b[3..][0] == b[3];
    assert LittleEndian(b[3..]) == b[3] as nat;
    assert LittleEndian(b[2..]) == b[2] as nat + 256 * LittleEndian(b[3..]);
  }

  /** A tensor of any type but F32, F16, Q4_0 and Q8_0 is refused, whatever else its entry says. */
  lemma OtherTypesRefused(data: seq<Byte>, pos: nat, name: seq<Byte>, shape: seq<nat>, code: nat)
    requires Readable(data, pos) && ValidUtf8(name) && |shape| < 0x1_0000_0000 && code < 0x1_0000_0000
    requires forall i :: 0 <= i < |shape| ==> shape[i] < USIZE
    requires var head := EncodeString(name) + (ToBytes(|shape|, 4) + (EncodeDims(shape) + ToBytes(code, 4)));
      At(data, pos, head)
    requires code !in {0, 1, 2, 8}
    ensures InfoAt(data, pos).Err?
  {
    hide At, EncodeString, EncodeDims, NumberAt, StringAt, DimsAt, ToBytes, Pow256, Readable, ValidUtf8;
    var p, last := pos + |EncodeString(name)|, ToBytes(code, 4);
    ToBytesLength(|shape|, 4);
    ToBytesLength(code, 4);
    AtSplit(data, pos, EncodeString(name), ToBytes(|shape|, 4) + (EncodeDims(shape) + last));
    AtSplit(data, p, ToBytes(|shape|, 4), EncodeDims(shape) + last);
    AtSplit(data, p + 4, EncodeDims(shape), last);
    Pow256s();
    StaysReadable(data, pos, EncodeString(name));
    StaysReadable(data, p, ToBytes(|shape|, 4));
    StaysReadable(data, p + 4, EncodeDims(shape));
    ReadsString(data, pos, name);
    ReadsNumber(data, p, |shape|, 4);
    ReadsDims(data, p + 4, shape);
    ReadsNumber(data, p + 4 + |EncodeDims(shape)|, code, 4);
  }

  /** Value types above 12 are refused at once; any byte but 0 is true. */
  lemma ValueEdges(data: seq<Byte>, pos: nat, valueType: nat, maxItems: nat)
    requires Readable(data, pos)
    ensures valueType > 12 ==> ValueAt(data, pos, valueType, maxItems) == Err(pos)
    ensures pos < |data| ==> ValueAt(data, pos, 7, maxItems) == Ok(Bool(data[pos] != 0), pos + 1)
  {
    if pos < |data| {
      var b := data[pos..pos + 1];
      assert b[0] == data[pos] && b[1..] == [];
      assert LittleEndian(b) == b[0] as nat + 256 * LittleEndian([]);
    }
  }

  /** A string longer than the rest of the file is an error, and a panic once its end is past a machine word. */
  lemma LongStrings(data: seq<Byte>, pos: nat, len: nat)
    requires Readable(data, pos) && At(data, pos, ToBytes(len, 8)) && len < USIZE
    ensures StringAt(data, pos).Panic? <==> pos + 8 + len >= USIZE
    ensures pos + 8 + len > |data| ==> !StringAt(data, pos).Ok?
  {
    hide ToBytes, At, NumberAt, ValidUtf8;
    Pow256s();
    ReadsNumber(data, pos, len, 8);
  }
}
