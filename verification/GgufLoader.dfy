/**
 The GGUF header walk: magic, version, counts, metadata, tensor infos, and the start of the
 data section.  It inverts the writing of a header, and the data section starts at the least
 multiple of the alignment at or after the header.
 */
module GgufLoading {
  import Types
  import opened Blocks
  import opened Gguf

  datatype Dtype = F32 | F16 | Q4_0 | Q8_0

  datatype TensorInfo = TensorInfo(name: seq<Byte>, shape: seq<nat>, dtype: Dtype, offset: nat)

  datatype StoredTensor = StoredTensor(offset: nat, shape: seq<nat>, dtype: Dtype)

  type Metadata = map<seq<Byte>, GgufValue>

  datatype GgufFile = GgufFile(metadata: Metadata, tensors: map<seq<Byte>, StoredTensor>)

  /** The word size decides overflow; vectors have a largest capacity; additions may be checked. */
  datatype Limits = Limits(maxItems: nat, maxTensors: nat, overflowChecks: bool)

  const MAGIC: seq<Byte> := [0x47, 0x47, 0x55, 0x46]
  const ALIGNMENT_KEY: seq<Byte> :=
    [103, 101, 110, 101, 114, 97, 108, 46, 97, 108, 105, 103, 110, 109, 101, 110, 116]
  const DEFAULT_ALIGNMENT: nat := 32

  function GgmlType(code: nat): Types.Option<Dtype> {
    match code
    case 0 => Types.Some(Dtype.F32)
    case 1 => Types.Some(F16)
    case 2 => Types.Some(Q4_0)
    case 8 => Types.Some(Q8_0)
    case _ => Types.None
  }

  function CodeOf(dtype: Dtype): nat {
    match dtype case F32 => 0 case F16 => 1 case Q4_0 => 2 case Q8_0 => 8
  }

  // ------------------------------------------------------------------ the walk, as functions

  type Kv = (seq<Byte>, GgufValue)

  function KvAt(data: seq<Byte>, pos: nat, maxItems: nat): (r: Outcome<Kv>)
    requires Readable(data, pos)
    ensures pos <= r.pos <= |data|
  {
    var (key, p) :- StringAt(data, pos);
    var (valueType, q) :- NumberAt(data, p, 4);
    var (value, e) :- ValueAt(data, q, valueType, maxItems);
    Ok((key, value), e)
  }

  function KvsAt(data: seq<Byte>, pos: nat, n: nat, maxItems: nat): (r: Outcome<seq<Kv>>)
    requires Readable(data, pos)
    ensures pos <= r.pos <= |data|
    decreases n
  {
    if n == 0 then Ok([], pos)
    else
      var (kv, p) :- KvAt(data, pos, maxItems);
      var (rest, q) :- KvsAt(data, p, n - 1, maxItems);
      Ok([kv] + rest, q)
  }

  function DimsAt(data: seq<Byte>, pos: nat, n: nat): (r: Outcome<seq<nat>>)
    requires Readable(data, pos)
    ensures pos <= r.pos <= |data|
    decreases n
  {
    if n == 0 then Ok([], pos)
    else
      var (dim, p) :- NumberAt(data, pos, 8);
      var (rest, q) :- DimsAt(data, p, n - 1);
      Ok([dim] + rest, q)
  }

  function InfoAt(data: seq<Byte>, pos: nat): (r: Outcome<TensorInfo>)
    requires Readable(data, pos)
    ensures pos <= r.pos <= |data|
  {
    var (name, p) :- StringAt(data, pos);
    var (ndim, q) :- NumberAt(data, p, 4);
    var (shape, e) :- DimsAt(data, q, ndim);
    var (code, f) :- NumberAt(data, e, 4);
    if GgmlType(code).None? then Err(f)
    else
      var (offset, g) :- NumberAt(data, f, 8);
      Ok(TensorInfo(name, shape, GgmlType(code).value, offset), g)
  }

  function InfosAt(data: seq<Byte>, pos: nat, n: nat): (r: Outcome<seq<TensorInfo>>)
    requires Readable(data, pos)
    ensures pos <= r.pos <= |data|
    decreases n
  {
    if n == 0 then Ok([], pos)
    else
      var (info, p) :- InfoAt(data, pos);
      var (rest, q) :- InfosAt(data, p, n - 1);
      Ok([info] + rest, q)
  }

  /** A later entry of the same key wins. */
  function Collect(kvs: seq<Kv>): Metadata {
    if kvs == [] then map[] else Collect(kvs[..|kvs| - 1])[kvs[|kvs| - 1].0 := kvs[|kvs| - 1].1]
  }

  /** The alignment the metadata asks for; a negative one becomes a huge one. */
  function Alignment(metadata: Metadata): nat {
    if ALIGNMENT_KEY !in metadata then DEFAULT_ALIGNMENT
    else
      match metadata[ALIGNMENT_KEY]
      case U32(a) => a
      case U8(a) => a
      case I32(a) => a % USIZE
      case _ => DEFAULT_ALIGNMENT
  }

  function DataStart(headerSize: nat, alignment: nat): nat
    requires alignment > 0
  {
    headerSize + (alignment - headerSize % alignment) % alignment
  }

  /** Where a tensor starts, if the sum is within a machine word. */
  function TensorStart(dataStart: nat, offset: nat, limits: Limits): Types.Option<nat> {
    if dataStart + offset < USIZE then Types.Some(dataStart + offset)
    else if limits.overflowChecks then Types.None
    else Types.Some((dataStart + offset) % USIZE)
  }

  function Place(dataLen: nat, dataStart: nat, infos: seq<TensorInfo>, limits: Limits, pos: nat)
      : Outcome<map<seq<Byte>, StoredTensor>>
  {
    if infos == [] then Ok(map[], pos)
    else
      var (placed, _) :- Place(dataLen, dataStart, infos[..|infos| - 1], limits, pos);
      var info := infos[|infos| - 1];
      match TensorStart(dataStart, info.offset, limits)
      case None => Panic(pos)
      case Some(start) =>
        if start > dataLen then Err(pos)
        else Ok(placed[info.name := StoredTensor(start, info.shape, info.dtype)], pos)
  }

  function Finish(dataLen: nat, headerSize: nat, metadata: Metadata, infos: seq<TensorInfo>, limits: Limits)
      : Outcome<GgufFile> {
    var alignment := Alignment(metadata);
    if alignment == 0 then Panic(headerSize)
    else
      var (tensors, p) :- Place(dataLen, DataStart(headerSize, alignment), infos, limits, headerSize);
      Ok(GgufFile(metadata, tensors), p)
  }

  function Load(data: seq<Byte>, limits: Limits): Outcome<GgufFile>
    requires |data| < ISIZE
  {
    var (magic, p0) :- BytesAt(data, 0, 4);
    if magic != MAGIC then Err(p0)
    else
      var (version, p1) :- NumberAt(data, p0, 4);
      if version != 2 && version != 3 then Err(p1)
      else
        var (tensorCount, p2) :- NumberAt(data, p1, 8);
        var (kvCount, p3) :- NumberAt(data, p2, 8);
        var (kvs, p4) :- KvsAt(data, p3, kvCount, limits.maxItems);
        if tensorCount > limits.maxTensors then Panic(p4)
        else
          var (infos, p5) :- InfosAt(data, p4, tensorCount);
          Finish(|data|, p5, Collect(kvs), infos, limits)
  }

  // ------------------------------------------------------------------ the data section

  /**
   For a positive alignment the data section starts at the least multiple of it at or after the
   header, and computing it never overflows a machine word.
   */
  lemma DataStartIsLeast(headerSize: nat, alignment: nat)
    requires alignment > 0
    ensures var start := DataStart(headerSize, alignment);
      && start >= headerSize && (exists q: nat :: start == q * alignment)
      && (forall q: nat {:trigger q * alignment} :: q * alignment >= headerSize ==> q * alignment >= start)
    ensures headerSize < ISIZE && alignment < USIZE ==> DataStart(headerSize, alignment) < USIZE
  {
    var q, rest := BlockOf(alignment, headerSize), RowIn(alignment, headerSize);
    BlockStart(alignment, headerSize);
    assert headerSize % alignment == rest;
    PaddingIs(alignment, rest);
    var up := if rest == 0 then q else q + 1;
    assert (q + 1) * alignment == q * alignment + alignment;
    var start := DataStart(headerSize, alignment);
    assert start == up * alignment;
    forall k: nat | k * alignment >= headerSize
      ensures k * alignment >= start
    {
      if k < up {
        FactorLe(k, if rest == 0 then q - 1 else q, alignment);
      } else {
        FactorLe(up, k, alignment);
      }
    }
    if alignment > headerSize {
      BlockIs(alignment, headerSize, 0);
    }
  }

  lemma PaddingIs(alignment: nat, rest: nat)
    requires alignment > 0 && rest < alignment
    ensures (alignment - rest) % alignment == if rest == 0 then 0 else alignment - rest
  {
    if rest == 0 {
      BlockIs(alignment, alignment, 1);
    } else {
      BlockIs(alignment, alignment - rest, 0);
    }
  }

  /** The tensor starts within the file, or at its end. */
  ghost predicate InFile(dataLen: nat, dataStart: nat, info: TensorInfo) {
    dataStart + info.offset <= dataLen
  }

  /** The sum of start and offset passes a machine word and comes out within the file. */
  ghost predicate WrapsInto(dataLen: nat, dataStart: nat, info: TensorInfo) {
    USIZE <= dataStart + info.offset <= dataLen + USIZE
  }

  /** What the bounds check accepts. */
  ghost predicate Accepted(dataLen: nat, dataStart: nat, info: TensorInfo, limits: Limits) {
    var start := TensorStart(dataStart, info.offset, limits);
    start.Some? && start.value <= dataLen
  }

  /** The bounds check accepts tensors in the file and, without overflow checks, those that wrap into it. */
  lemma AcceptedMeans(dataLen: nat, dataStart: nat, info: TensorInfo, limits: Limits)
    requires dataLen < ISIZE && dataStart < USIZE && info.offset < USIZE
    ensures Accepted(dataLen, dataStart, info, limits) <==>
      InFile(dataLen, dataStart, info) || (!limits.overflowChecks && WrapsInto(dataLen, dataStart, info))
  {
    var sum := dataStart + info.offset;
    if sum >= USIZE {
      assert sum % USIZE == sum - USIZE;
    }
  }

  ghost predicate StoredAt(tensors: map<seq<Byte>, StoredTensor>, dataStart: nat, info: TensorInfo, limits: Limits) {
    var start := TensorStart(dataStart, info.offset, limits);
    start.Some? && info.name in tensors && tensors[info.name] == StoredTensor(start.value, info.shape, info.dtype)
  }

  /** No later tensor has the same name. */
  ghost predicate LastNamed(infos: seq<TensorInfo>, i: nat)
    requires i < |infos|
  {
    forall j :: i < j < |infos| ==> infos[j].name != infos[i].name
  }

  ghost predicate AllAccepted(dataLen: nat, dataStart: nat, infos: seq<TensorInfo>, limits: Limits) {
    forall i :: 0 <= i < |infos| ==> Accepted(dataLen, dataStart, infos[i], limits)
  }

  lemma AcceptedLast(dataLen: nat, dataStart: nat, infos: seq<TensorInfo>, limits: Limits)
    requires infos != []
    ensures AllAccepted(dataLen, dataStart, infos, limits) <==>
      AllAccepted(dataLen, dataStart, infos[..|infos| - 1], limits)
      && Accepted(dataLen, dataStart, infos[|infos| - 1], limits)
  {
    hide Accepted;
    var init := infos[..|infos| - 1];
    if AllAccepted(dataLen, dataStart, infos, limits) {
      assert forall i :: 0 <= i < |init| ==> init[i] == infos[i];
    } else if AllAccepted(dataLen, dataStart, init, limits) {
      assert forall i :: 0 <= i < |init| ==> Accepted(dataLen, dataStart, init[i], limits);
    }
  }

  lemma PlaceLast(dataLen: nat, dataStart: nat, infos: seq<TensorInfo>, limits: Limits, pos: nat)
    requires infos != []
    ensures var before, last := Place(dataLen, dataStart, infos[..|infos| - 1], limits, pos), infos[|infos| - 1];
      && (Place(dataLen, dataStart, infos, limits, pos).Ok? <==>
            before.Ok? && Accepted(dataLen, dataStart, last, limits))
      && (Place(dataLen, dataStart, infos, limits, pos).Ok? ==>
            var start := TensorStart(dataStart, last.offset, limits);
            start.Some? && Place(dataLen, dataStart, infos, limits, pos).value ==
              before.value[last.name := StoredTensor(start.value, last.shape, last.dtype)])
  {
    hide TensorStart;
  }

  /** Tensors are stored if and only if the bounds check accepts all of them. */
  lemma {:induction false} PlacesWhen(dataLen: nat, dataStart: nat, infos: seq<TensorInfo>, limits: Limits, pos: nat)
    ensures Place(dataLen, dataStart, infos, limits, pos).Ok? <==> AllAccepted(dataLen, dataStart, infos, limits)
  {
    if infos != [] {
      hide Place, Accepted, AllAccepted, TensorStart;
      PlacesWhen(dataLen, dataStart, infos[..|infos| - 1], limits, pos);
      PlaceLast(dataLen, dataStart, infos, limits, pos);
      AcceptedLast(dataLen, dataStart, infos, limits);
    }
  }

  /** The last tensor of each name is stored, at its computed start, and no other name is. */
  lemma {:induction false} PlacesAll(dataLen: nat, dataStart: nat, infos: seq<TensorInfo>, limits: Limits, pos: nat)
    requires Place(dataLen, dataStart, infos, limits, pos).Ok?
    ensures var r := Place(dataLen, dataStart, infos, limits, pos).value;
      && (forall i :: 0 <= i < |infos| && LastNamed(infos, i) ==> StoredAt(r, dataStart, infos[i], limits))
      && (forall n :: n in r ==> NameOf(infos, n))
  {
    if infos != [] {
      hide Place, Accepted, TensorStart, NameOf, StoredAt, LastNamed;
      var init, last := infos[..|infos| - 1], infos[|infos| - 1];
      PlaceLast(dataLen, dataStart, infos, limits, pos);
      PlacesAll(dataLen, dataStart, init, limits, pos);
      var before, r := Place(dataLen, dataStart, init, limits, pos).value,
        Place(dataLen, dataStart, infos, limits, pos).value;
      forall i | 0 <= i < |infos| && LastNamed(infos, i)
        ensures StoredAt(r, dataStart, infos[i], limits)
      {
        if i < |init| {
          LastAmongFirst(infos, i);
          StoredStays(before, dataStart, init[i], limits, last.name, r[last.name]);
        } else {
          JustStored(before, dataStart, last, limits);
        }
      }
      forall n | n in r
        ensures NameOf(infos, n)
      {
        MoreNames(infos, n);
      }
    }
  }

  lemma LastAmongFirst(infos: seq<TensorInfo>, i: nat)
    requires i < |infos| - 1 && LastNamed(infos, i)
    ensures infos[..|infos| - 1][i] == infos[i] && LastNamed(infos[..|infos| - 1], i)
    ensures infos[i].name != infos[|infos| - 1].name
  {
  }

  lemma StoredStays(tensors: map<seq<Byte>, StoredTensor>, dataStart: nat, info: TensorInfo, limits: Limits,
                    name: seq<Byte>, t: StoredTensor)
    requires StoredAt(tensors, dataStart, info, limits) && info.name != name
    ensures StoredAt(tensors[name := t], dataStart, info, limits)
  {
    hide TensorStart;
  }

  lemma JustStored(tensors: map<seq<Byte>, StoredTensor>, dataStart: nat, info: TensorInfo, limits: Limits)
    requires TensorStart(dataStart, info.offset, limits).Some?
    ensures var start := TensorStart(dataStart, info.offset, limits).value;
      StoredAt(tensors[info.name := StoredTensor(start, info.shape, info.dtype)], dataStart, info, limits)
  {
    hide TensorStart;
  }

  ghost predicate NameOf(infos: seq<TensorInfo>, name: seq<Byte>) {
    exists i :: 0 <= i < |infos| && infos[i].name == name
  }

  lemma MoreNames(infos: seq<TensorInfo>, name: seq<Byte>)
    requires infos != []
    ensures NameOf(infos, infos[|infos| - 1].name)
    ensures NameOf(infos[..|infos| - 1], name) ==> NameOf(infos, name)
  {
    if NameOf(infos[..|infos| - 1], name) {
      var i :| 0 <= i < |infos| - 1 && infos[..|infos| - 1][i].name == name;
      assert infos[i].name == name;
    }
  }

  // ------------------------------------------------------------------ encodings

  type WireKv = (seq<Byte>, Wire)

  ghost function EncodeKv(kv: WireKv): seq<Byte> {
    EncodeString(kv.0) + (ToBytes(TypeOf(kv.1), 4) + Encode(kv.1))
  }

  ghost function EncodeKvs(kvs: seq<WireKv>): seq<Byte> {
    if kvs == [] then [] else EncodeKv(kvs[0]) + EncodeKvs(kvs[1..])
  }

  function EncodeDims(shape: seq<nat>): seq<Byte> {
    if shape == [] then [] else ToBytes(shape[0], 8) + EncodeDims(shape[1..])
  }

  function EncodeInfo(info: TensorInfo): seq<Byte> {
    EncodeString(info.name) + (ToBytes(|info.shape|, 4) +
      (EncodeDims(info.shape) + (ToBytes(CodeOf(info.dtype), 4) + ToBytes(info.offset, 8))))
  }

  function EncodeInfos(infos: seq<TensorInfo>): seq<Byte> {
    if infos == [] then [] else EncodeInfo(infos[0]) + EncodeInfos(infos[1..])
  }

  ghost function EncodeHeader(version: nat, kvs: seq<WireKv>, infos: seq<TensorInfo>): seq<Byte> {
    MAGIC + (ToBytes(version, 4) + (ToBytes(|infos|, 8) + (ToBytes(|kvs|, 8) + (EncodeKvs(kvs) + EncodeInfos(infos)))))
  }

  ghost predicate KvOk(kv: WireKv, maxItems: nat) {
    ValidUtf8(kv.0) && |kv.0| < ISIZE && Encodable(kv.1, maxItems)
  }

  ghost predicate InfoOk(info: TensorInfo) {
    && ValidUtf8(info.name) && |info.name| < ISIZE && |info.shape| < 0x1_0000_0000 && info.offset < USIZE
    && forall i :: 0 <= i < |info.shape| ==> info.shape[i] < USIZE
  }

  ghost function EraseKv(kv: WireKv): Kv {
    (kv.0, Erase(kv.1))
  }

  ghost function Erased(kvs: seq<WireKv>): (r: seq<Kv>)
    ensures |r| == |kvs|
  {
    seq(|kvs|, i requires 0 <= i < |kvs| => EraseKv(kvs[i]))
  }

  lemma TypesFit(w: Wire)
    ensures TypeOf(w) < Pow256(4)
  {
    Pow256s();
  }

  lemma KvFrom(data: seq<Byte>, pos: nat, key: seq<Byte>, p: nat, valueType: nat, q: nat, value: GgufValue, e: nat,
               maxItems: nat)
    requires Readable(data, pos) && Readable(data, p) && Readable(data, q)
    requires StringAt(data, pos) == Ok(key, p) && NumberAt(data, p, 4) == Ok(valueType, q)
    requires ValueAt(data, q, valueType, maxItems) == Ok(value, e)
    ensures KvAt(data, pos, maxItems) == Ok((key, value), e)
  {
    hide StringAt, NumberAt, ValueAt;
  }

  /** The key and the type of the value, which starts where they end. */
  lemma ReadsKvHead(data: seq<Byte>, pos: nat, key: seq<Byte>, valueType: nat) returns (p: nat)
    requires Readable(data, pos) && ValidUtf8(key) && At(data, pos, EncodeString(key)) && valueType < Pow256(4)
    requires At(data, pos + |EncodeString(key)|, ToBytes(valueType, 4))
    ensures p == pos + |EncodeString(key)| && Readable(data, p) && Readable(data, p + 4)
    ensures StringAt(data, pos) == Ok(key, p) && NumberAt(data, p, 4) == Ok(valueType, p + 4)
  {
    hide At, EncodeString, NumberAt, StringAt, ToBytes, Readable, Pow256, ValidUtf8;
    p := pos + |EncodeString(key)|;
    StaysReadable(data, pos, EncodeString(key));
    ToBytesLength(valueType, 4);
    StaysReadable(data, p, ToBytes(valueType, 4));
    ReadsString(data, pos, key);
    ReadsNumber(data, p, valueType, 4);
  }

  lemma ReadsKv(data: seq<Byte>, pos: nat, kv: WireKv, maxItems: nat)
    requires Readable(data, pos) && KvOk(kv, maxItems) && At(data, pos, EncodeKv(kv))
    ensures KvAt(data, pos, maxItems) == Ok(EraseKv(kv), pos + |EncodeKv(kv)|)
  {
    hide At, EncodeString, Encode, EncodeKv, Erase, NumberAt, StringAt, ValueAt, KvAt, TypeOf, ToBytes, Encodable,
         Readable, ValidUtf8, Pow256;
    KvParts(data, pos, kv);
    TypesFit(kv.1);
    var p := ReadsKvHead(data, pos, kv.0, TypeOf(kv.1));
    ReadsEncoded(data, p + 4, kv.1, maxItems);
    KvFrom(data, pos, kv.0, p, TypeOf(kv.1), p + 4, Erase(kv.1), pos + |EncodeKv(kv)|, maxItems);
  }

  lemma KvParts(data: seq<Byte>, pos: nat, kv: WireKv)
    requires At(data, pos, EncodeKv(kv))
    ensures var key, valueType, value := EncodeString(kv.0), ToBytes(TypeOf(kv.1), 4), Encode(kv.1);
      && At(data, pos, key) && At(data, pos + |key|, valueType) && At(data, pos + |key| + 4, value)
      && |valueType| == 4 && |EncodeKv(kv)| == |key| + 4 + |value|
  {
    var key, valueType, value := EncodeString(kv.0), ToBytes(TypeOf(kv.1), 4), Encode(kv.1);
    hide At, EncodeString, Encode, TypeOf;
    ToBytesLength(TypeOf(kv.1), 4);
    AtSplit(data, pos, key, valueType + value);
    AtSplit(data, pos + |key|, valueType, value);
  }

  lemma StaysReadable(data: seq<Byte>, pos: nat, bytes: seq<Byte>)
    requires Readable(data, pos) && At(data, pos, bytes)
    ensures Readable(data, pos + |bytes|)
  {
  }

  lemma KvsFrom(data: seq<Byte>, pos: nat, n: nat, maxItems: nat, kv: Kv, p: nat, rest: seq<Kv>, q: nat)
    requires n > 0 && Readable(data, pos) && Readable(data, p)
    requires KvAt(data, pos, maxItems) == Ok(kv, p) && KvsAt(data, p, n - 1, maxItems) == Ok(rest, q)
    ensures KvsAt(data, pos, n, maxItems) == Ok([kv] + rest, q)
  {
    hide KvAt;
  }

  lemma ErasedFirst(kvs: seq<WireKv>, first: WireKv, rest: seq<WireKv>)
    requires kvs == [first] + rest
    ensures Erased(kvs) == [EraseKv(first)] + Erased(rest)
    ensures EncodeKvs(kvs) == EncodeKv(first) + EncodeKvs(rest)
  {
    hide EraseKv, EncodeKv;
    assert kvs[1..] == rest;
  }

  lemma {:induction false} ReadsKvs(data: seq<Byte>, pos: nat, kvs: seq<WireKv>, maxItems: nat)
    requires Readable(data, pos) && At(data, pos, EncodeKvs(kvs))
    requires forall i :: 0 <= i < |kvs| ==> KvOk(kvs[i], maxItems)
    ensures KvsAt(data, pos, |kvs|, maxItems) == Ok(Erased(kvs), pos + |EncodeKvs(kvs)|)
    decreases |kvs|
  {
    hide KvAt, KvsAt, EncodeKv, EncodeKvs, EraseKv, Erased, At, KvOk, Readable;
    if kvs == [] {
      NoKvs(data, pos, maxItems);
    } else {
      var first, rest := kvs[0], kvs[1..];
      ErasedFirst(kvs, first, rest);
      AtSplit(data, pos, EncodeKv(first), EncodeKvs(rest));
      StaysReadable(data, pos, EncodeKv(first));
      ReadsKvs(data, pos + |EncodeKv(first)|, rest, maxItems);
      ReadsOneMore(data, pos, first, rest, maxItems);
    }
  }

  lemma NoKvs(data: seq<Byte>, pos: nat, maxItems: nat)
    requires Readable(data, pos)
    ensures KvsAt(data, pos, 0, maxItems) == Ok(Erased([]), pos) && |EncodeKvs([])| == 0
  {
  }

  lemma ReadsOneMore(data: seq<Byte>, pos: nat, first: WireKv, rest: seq<WireKv>, maxItems: nat)
    requires Readable(data, pos) && At(data, pos, EncodeKv(first)) && KvOk(first, maxItems)
    requires var p := pos + |EncodeKv(first)|;
      Readable(data, p) && KvsAt(data, p, |rest|, maxItems) == Ok(Erased(rest), p + |EncodeKvs(rest)|)
    ensures KvsAt(data, pos, |rest| + 1, maxItems) ==
      Ok([EraseKv(first)] + Erased(rest), pos + |EncodeKv(first) + EncodeKvs(rest)|)
  {
    hide KvAt, KvsAt, EncodeKv, EncodeKvs, EraseKv, Erased, At, KvOk, Readable;
    var p := pos + |EncodeKv(first)|;
    ReadsKv(data, pos, first, maxItems);
    KvsFrom(data, pos, |rest| + 1, maxItems, EraseKv(first), p, Erased(rest), p + |EncodeKvs(rest)|);
  }

  lemma {:induction false} ReadsDims(data: seq<Byte>, pos: nat, shape: seq<nat>)
    requires Readable(data, pos) && At(data, pos, EncodeDims(shape))
    requires forall i :: 0 <= i < |shape| ==> shape[i] < USIZE
    ensures DimsAt(data, pos, |shape|) == Ok(shape, pos + |EncodeDims(shape)|)
    decreases |shape|
  {
    if shape != [] {
      hide ToBytes, NumberAt, At, Pow256, DimsAt, EncodeDims, Readable;
      DimsFirst(shape);
      AtSplit(data, pos, ToBytes(shape[0], 8), EncodeDims(shape[1..]));
      Pow256s();
      ToBytesLength(shape[0], 8);
      StaysReadable(data, pos, ToBytes(shape[0], 8));
      ReadsNumber(data, pos, shape[0], 8);
      ReadsDims(data, pos + 8, shape[1..]);
      DimsFrom(data, pos, |shape|, shape[0], shape[1..], pos + |EncodeDims(shape)|);
    }
  }

  lemma DimsFirst(shape: seq<nat>)
    requires shape != []
    ensures shape == [shape[0]] + shape[1..] && EncodeDims(shape) == ToBytes(shape[0], 8) + EncodeDims(shape[1..])
  {
  }

  lemma DimsFrom(data: seq<Byte>, pos: nat, n: nat, dim: nat, rest: seq<nat>, q: nat)
    requires n > 0 && Readable(data, pos) && Readable(data, pos + 8)
    requires NumberAt(data, pos, 8) == Ok(dim, pos + 8) && DimsAt(data, pos + 8, n - 1) == Ok(rest, q)
    ensures DimsAt(data, pos, n) == Ok([dim] + rest, q)
  {
    hide NumberAt;
  }

  lemma InfoFrom(data: seq<Byte>, pos: nat, info: TensorInfo, p: nat, q: nat, e: nat, f: nat, g: nat)
    requires Readable(data, pos) && Readable(data, p) && Readable(data, q) && Readable(data, e) && Readable(data, f)
    requires StringAt(data, pos) == Ok(info.name, p) && NumberAt(data, p, 4) == Ok(|info.shape|, q)
    requires DimsAt(data, q, |info.shape|) == Ok(info.shape, e)
    requires NumberAt(data, e, 4) == Ok(CodeOf(info.dtype), f) && NumberAt(data, f, 8) == Ok(info.offset, g)
    ensures InfoAt(data, pos) == Ok(info, g)
  {
    hide StringAt, NumberAt, DimsAt;
  }

  lemma InfoFits(info: TensorInfo)
    requires InfoOk(info)
    ensures |info.shape| < Pow256(4) && CodeOf(info.dtype) < Pow256(4) && info.offset < Pow256(8)
  {
    Pow256s();
  }

  lemma ReadsInfo(data: seq<Byte>, pos: nat, info: TensorInfo)
    requires Readable(data, pos) && InfoOk(info) && At(data, pos, EncodeInfo(info))
    ensures InfoAt(data, pos) == Ok(info, pos + |EncodeInfo(info)|)
  {
    hide At, EncodeString, EncodeDims, EncodeInfo, NumberAt, StringAt, DimsAt, InfoAt, ToBytes, Pow256, Readable,
         CodeOf, ValidUtf8;
    var name, ndim, dims := EncodeString(info.name), ToBytes(|info.shape|, 4), EncodeDims(info.shape);
    var code, offset := ToBytes(CodeOf(info.dtype), 4), ToBytes(info.offset, 8);
    var p := pos + |name|;
    var e := p + 4 + |dims|;
    InfoParts(data, pos, info);
    InfoFits(info);
    ToBytesLength(|info.shape|, 4);
    ToBytesLength(CodeOf(info.dtype), 4);
    StaysReadable(data, pos, name);
    StaysReadable(data, p, ndim);
    StaysReadable(data, p + 4, dims);
    StaysReadable(data, e, code);
    ReadsString(data, pos, info.name);
    ReadsNumber(data, p, |info.shape|, 4);
    ReadsDims(data, p + 4, info.shape);
    ReadsNumber(data, e, CodeOf(info.dtype), 4);
    ReadsNumber(data, e + 4, info.offset, 8);
    InfoFrom(data, pos, info, p, p + 4, e, e + 4, e + 12);
  }

  lemma InfoParts(data: seq<Byte>, pos: nat, info: TensorInfo)
    requires At(data, pos, EncodeInfo(info))
    ensures var name, dims := EncodeString(info.name), EncodeDims(info.shape);
      var p := pos + |name|;
      var e := p + 4 + |dims|;
      && At(data, pos, name) && At(data, p, ToBytes(|info.shape|, 4)) && At(data, p + 4, dims)
      && At(data, e, ToBytes(CodeOf(info.dtype), 4)) && At(data, e + 4, ToBytes(info.offset, 8))
      && pos + |EncodeInfo(info)| == e + 12
  {
    var name, ndim, dims := EncodeString(info.name), ToBytes(|info.shape|, 4), EncodeDims(info.shape);
    var code, offset := ToBytes(CodeOf(info.dtype), 4), ToBytes(info.offset, 8);
    hide At, EncodeString, EncodeDims, ToBytes, CodeOf;
    ToBytesLength(|info.shape|, 4);
    ToBytesLength(CodeOf(info.dtype), 4);
    ToBytesLength(info.offset, 8);
    var last := code + offset;
    var rest := dims + last;
    var p := pos + |name|;
    var e := p + 4 + |dims|;
    AtSplit(data, pos, name, ndim + rest);
    AtSplit(data, p, ndim, rest);
    AtSplit(data, p + 4, dims, last);
    AtSplit(data, e, code, offset);
  }

  lemma InfosFrom(data: seq<Byte>, pos: nat, n: nat, info: TensorInfo, p: nat, rest: seq<TensorInfo>, q: nat)
    requires n > 0 && Readable(data, pos) && Readable(data, p)
    requires InfoAt(data, pos) == Ok(info, p) && InfosAt(data, p, n - 1) == Ok(rest, q)
    ensures InfosAt(data, pos, n) == Ok([info] + rest, q)
  {
    hide InfoAt;
  }

  lemma InfosFirst(infos: seq<TensorInfo>)
    requires infos != []
    ensures infos == [infos[0]] + infos[1..] && EncodeInfos(infos) == EncodeInfo(infos[0]) + EncodeInfos(infos[1..])
  {
  }

  lemma NoInfos(data: seq<Byte>, pos: nat)
    requires Readable(data, pos)
    ensures InfosAt(data, pos, 0) == Ok([], pos) && |EncodeInfos([])| == 0
  {
  }

  lemma {:induction false} ReadsInfos(data: seq<Byte>, pos: nat, infos: seq<TensorInfo>)
    requires Readable(data, pos) && At(data, pos, EncodeInfos(infos))
    requires forall i :: 0 <= i < |infos| ==> InfoOk(infos[i])
    ensures InfosAt(data, pos, |infos|) == Ok(infos, pos + |EncodeInfos(infos)|)
    decreases |infos|
  {
    hide InfoAt, InfosAt, EncodeInfo, EncodeInfos, At, InfoOk, Readable;
    if infos == [] {
      NoInfos(data, pos);
    } else {
      InfosFirst(infos);
      var first := EncodeInfo(infos[0]);
      var p := pos + |first|;
      AtSplit(data, pos, first, EncodeInfos(infos[1..]));
      StaysReadable(data, pos, EncodeInfo(infos[0]));
      ReadsInfo(data, pos, infos[0]);
      ReadsInfos(data, p, infos[1..]);
      InfosFrom(data, pos, |infos|, infos[0], p, infos[1..], p + |EncodeInfos(infos[1..])|);
    }
  }

  lemma LoadFrom(data: seq<Byte>, limits: Limits, version: nat, kvs: seq<Kv>, p: nat, infos: seq<TensorInfo>, q: nat)
    requires 24 <= |data| < ISIZE && Readable(data, p) && (version == 2 || version == 3)
    requires BytesAt(data, 0, 4) == Ok(MAGIC, 4) && NumberAt(data, 4, 4) == Ok(version, 8)
    requires NumberAt(data, 8, 8) == Ok(|infos|, 16) && NumberAt(data, 16, 8) == Ok(|kvs|, 24)
    requires KvsAt(data, 24, |kvs|, limits.maxItems) == Ok(kvs, p)
    requires |infos| <= limits.maxTensors && InfosAt(data, p, |infos|) == Ok(infos, q)
    ensures Load(data, limits) == Finish(|data|, q, Collect(kvs), infos, limits)
  {
    hide BytesAt, NumberAt, KvsAt, InfosAt, Finish, Collect;
  }

  /**
   Loading inverts writing a header: the metadata and the tensor infos come back, the data
   section starts after the header, and what is left to decide is where the tensors go.
   */
  lemma LoadsEncoded(data: seq<Byte>, version: nat, kvs: seq<WireKv>, infos: seq<TensorInfo>, limits: Limits)
    requires |data| < ISIZE && (version == 2 || version == 3) && At(data, 0, EncodeHeader(version, kvs, infos))
    requires |kvs| < USIZE && |infos| < USIZE && |infos| <= limits.maxTensors
    requires forall i :: 0 <= i < |kvs| ==> KvOk(kvs[i], limits.maxItems)
    requires forall i :: 0 <= i < |infos| ==> InfoOk(infos[i])
    ensures Load(data, limits) ==
      Finish(|data|, |EncodeHeader(version, kvs, infos)|, Collect(Erased(kvs)), infos, limits)
  {
    hide At, NumberAt, BytesAt, KvsAt, InfosAt, Load, ToBytes, EncodeHeader, EncodeKvs, EncodeInfos, Finish;
    hide KvOk, InfoOk, Erased, Collect, Readable;
    HeaderParts(data, version, kvs, infos);
    CountsRead(data, version, |infos|, |kvs|);
    var p := 24 + |EncodeKvs(kvs)|;
    StaysReadable(data, 24, EncodeKvs(kvs));
    ReadsKvs(data, 24, kvs, limits.maxItems);
    ReadsInfos(data, p, infos);
    ErasedLength(kvs);
    LoadFrom(data, limits, version, Erased(kvs), p, infos, p + |EncodeInfos(infos)|);
  }

  lemma CountsRead(data: seq<Byte>, version: nat, infoCount: nat, kvCount: nat)
    requires 24 <= |data| < ISIZE && version < 4 && infoCount < USIZE && kvCount < USIZE
    requires At(data, 4, ToBytes(version, 4)) && At(data, 8, ToBytes(infoCount, 8)) && At(data, 16, ToBytes(kvCount, 8))
    ensures NumberAt(data, 4, 4) == Ok(version, 8) && NumberAt(data, 8, 8) == Ok(infoCount, 16)
    ensures NumberAt(data, 16, 8) == Ok(kvCount, 24) && Readable(data, 24)
  {
    hide At, NumberAt, ToBytes;
    Pow256s();
    ReadsNumber(data, 4, version, 4);
    ReadsNumber(data, 8, infoCount, 8);
    ReadsNumber(data, 16, kvCount, 8);
  }

  lemma HeaderParts(data: seq<Byte>, version: nat, kvs: seq<WireKv>, infos: seq<TensorInfo>)
    requires |data| < ISIZE && At(data, 0, EncodeHeader(version, kvs, infos))
    ensures 24 <= |data| && BytesAt(data, 0, 4) == Ok(MAGIC, 4)
    ensures At(data, 4, ToBytes(version, 4)) && At(data, 8, ToBytes(|infos|, 8)) && At(data, 16, ToBytes(|kvs|, 8))
    ensures At(data, 24, EncodeKvs(kvs)) && At(data, 24 + |EncodeKvs(kvs)|, EncodeInfos(infos))
    ensures |EncodeHeader(version, kvs, infos)| == 24 + |EncodeKvs(kvs)| + |EncodeInfos(infos)|
  {
    hide At, ToBytes, EncodeKvs, EncodeInfos, BytesAt;
    var versionBytes, tensorCount, kvCount := ToBytes(version, 4), ToBytes(|infos|, 8), ToBytes(|kvs|, 8);
    var kvBytes, infoBytes := EncodeKvs(kvs), EncodeInfos(infos);
    ToBytesLength(version, 4);
    ToBytesLength(|infos|, 8);
    ToBytesLength(|kvs|, 8);
    AtSplit(data, 0, MAGIC, versionBytes + (tensorCount + (kvCount + (kvBytes + infoBytes))));
    ReadsMagic(data);
    AtSplit(data, 4, versionBytes, tensorCount + (kvCount + (kvBytes + infoBytes)));
    AtSplit(data, 8, tensorCount, kvCount + (kvBytes + infoBytes));
    AtSplit(data, 16, kvCount, kvBytes + infoBytes);
    AtSplit(data, 24, kvBytes, infoBytes);
    AtFits(data, 24, kvBytes);
  }

  lemma ReadsMagic(data: seq<Byte>)
    requires |data| < ISIZE && At(data, 0, MAGIC)
    ensures BytesAt(data, 0, 4) == Ok(MAGIC, 4)
  {
  }

  lemma ErasedLength(kvs: seq<WireKv>)
    ensures |Erased(kvs)| == |kvs|
  {
  }

  /** The file has this header, and the reader has room for its contents. */
  ghost predicate WellFormed(data: seq<Byte>, version: nat, kvs: seq<WireKv>, infos: seq<TensorInfo>, limits: Limits) {
    && |data| < ISIZE && (version == 2 || version == 3) && At(data, 0, EncodeHeader(version, kvs, infos))
    && |kvs| < USIZE && |infos| < USIZE && |infos| <= limits.maxTensors
    && (forall i :: 0 <= i < |kvs| ==> KvOk(kvs[i], limits.maxItems))
    && forall i :: 0 <= i < |infos| ==> InfoOk(infos[i])
  }

  /** The data section of a file with this header and a positive alignment. */
  ghost function SectionStart(version: nat, kvs: seq<WireKv>, infos: seq<TensorInfo>): nat
    requires Alignment(Collect(Erased(kvs))) > 0
  {
    DataStart(|EncodeHeader(version, kvs, infos)|, Alignment(Collect(Erased(kvs))))
  }

  /**
   A well-formed file loads if and only if its alignment is positive and the bounds check accepts
   every tensor; the last tensor of each name is then found at its computed start.
   */
  lemma LoadsWhen(data: seq<Byte>, version: nat, kvs: seq<WireKv>, infos: seq<TensorInfo>, limits: Limits)
    requires WellFormed(data, version, kvs, infos, limits)
    ensures Load(data, limits).Ok? <==>
      && Alignment(Collect(Erased(kvs))) > 0
      && AllAccepted(|data|, SectionStart(version, kvs, infos), infos, limits)
    ensures Load(data, limits).Ok? ==>
      && Load(data, limits).value.metadata == Collect(Erased(kvs))
      && (forall n :: n in Load(data, limits).value.tensors ==> NameOf(infos, n))
      && forall i :: 0 <= i < |infos| && LastNamed(infos, i) ==>
           StoredAt(Load(data, limits).value.tensors, SectionStart(version, kvs, infos), infos[i], limits)
  {
    LoadsEncoded(data, version, kvs, infos, limits);
    hide Load, EncodeHeader, Collect, Erased, DataStart, Place, KvOk, InfoOk, At, StoredAt, NameOf, LastNamed,
         AllAccepted, Alignment, WellFormed;
    var size, alignment := |EncodeHeader(version, kvs, infos)|, Alignment(Collect(Erased(kvs)));
    if alignment > 0 {
      PlacesWhen(|data|, DataStart(size, alignment), infos, limits, size);
      if Place(|data|, DataStart(size, alignment), infos, limits, size).Ok? {
        PlacesAll(|data|, DataStart(size, alignment), infos, limits, size);
      }
    }
  }

  lemma {:induction false} CollectedFrom(kvs: seq<Kv>, key: seq<Byte>) returns (i: nat)
    requires key in Collect(kvs)
    ensures i < |kvs| && Collect(kvs)[key] == kvs[i].1
    decreases |kvs|
  {
    i := |kvs| - 1;
    if kvs[i].0 != key {
      i := CollectedFrom(kvs[..i], key);
    }
  }

  /** Alignments are machine words. */
  lemma AlignmentFits(kvs: seq<WireKv>, maxItems: nat)
    requires forall i :: 0 <= i < |kvs| ==> KvOk(kvs[i], maxItems)
    ensures Alignment(Collect(Erased(kvs))) < USIZE
  {
    hide Collect;
    if ALIGNMENT_KEY in Collect(Erased(kvs)) {
      var i := CollectedFrom(Erased(kvs), ALIGNMENT_KEY);
      assert KvOk(kvs[i], maxItems);
    }
  }

  /**
   With overflow checks a well-formed file of positive alignment loads if and only if every tensor
   starts within it; without them, if and only if every tensor starts within it or at a sum that
   passes a machine word and wraps into it.
   */
  lemma LoadsIffInFile(data: seq<Byte>, version: nat, kvs: seq<WireKv>, infos: seq<TensorInfo>, limits: Limits)
    requires WellFormed(data, version, kvs, infos, limits) && Alignment(Collect(Erased(kvs))) > 0
    ensures var start := SectionStart(version, kvs, infos);
      Load(data, limits).Ok? <==>
        forall i :: 0 <= i < |infos| ==>
          InFile(|data|, start, infos[i]) || (!limits.overflowChecks && WrapsInto(|data|, start, infos[i]))
  {
    LoadsWhen(data, version, kvs, infos, limits);
    AlignmentFits(kvs, limits.maxItems);
    var size, alignment := |EncodeHeader(version, kvs, infos)|, Alignment(Collect(Erased(kvs)));
    DataStartIsLeast(size, alignment);
    var start := SectionStart(version, kvs, infos);
    hide Load, EncodeHeader, Collect, Erased, DataStart, Alignment, SectionStart, Accepted, InFile, WrapsInto, KvOk;
    forall i | 0 <= i < |infos|
      ensures Accepted(|data|, start, infos[i], limits) <==>
        InFile(|data|, start, infos[i]) || (!limits.overflowChecks && WrapsInto(|data|, start, infos[i]))
    {
      assert InfoOk(infos[i]);
      AcceptedMeans(|data|, start, infos[i], limits);
    }
  }

  /** The only tensor of a file of 49 bytes whose data section starts at 64. */
  const FAR_TENSOR: TensorInfo := TensorInfo([97], [], Dtype.F32, USIZE - 64)

  lemma FarHeader()
    ensures |EncodeHeader(3, [], [FAR_TENSOR])| == 49 && InfoOk(FAR_TENSOR)
    ensures Alignment(Collect(Erased([]))) == 32 && SectionStart(3, [], [FAR_TENSOR]) == 64
  {
    hide ToBytes;
    assert EncodeInfos([FAR_TENSOR]) == EncodeInfo(FAR_TENSOR) + EncodeInfos([]);
    assert |EncodeString([97])| == 9 && |EncodeDims([])| == 0;
    assert |EncodeInfo(FAR_TENSOR)| == 25;
  }

  /** Past the bounds check: the tensor starts nowhere near the file, and it loads at offset 0. */
  lemma FarTensorLoads(limits: Limits)
    requires limits.maxTensors > 0
    ensures var data := EncodeHeader(3, [], [FAR_TENSOR]);
      && |data| == 49 && WellFormed(data, 3, [], [FAR_TENSOR], limits)
      && Alignment(Collect(Erased([]))) == 32 && SectionStart(3, [], [FAR_TENSOR]) == 64
      && !InFile(|data|, 64, FAR_TENSOR)
      && (Load(data, limits).Ok? <==> !limits.overflowChecks)
      && (Load(data, limits).Ok? ==> StoredAt(Load(data, limits).value.tensors, 64, FAR_TENSOR, limits))
      && (!limits.overflowChecks ==> TensorStart(64, FAR_TENSOR.offset, limits) == Types.Some(0))
  {
    hide EncodeHeader, Load, Collect, Erased, Alignment, SectionStart, InfoOk;
    var data, infos := EncodeHeader(3, [], [FAR_TENSOR]), [FAR_TENSOR];
    FarHeader();
    LoadsWhen(data, 3, [], infos, limits);
    assert Accepted(49, 64, FAR_TENSOR, limits) <==> !limits.overflowChecks;
    assert infos[0] == FAR_TENSOR && LastNamed(infos, 0);
  }

  // ------------------------------------------------------------------ the loader

  method ReadKv(r: Reader, maxItems: nat) returns (o: Outcome<Kv>)
    requires r.Valid()
    modifies r
    ensures o == KvAt(r.data, old(r.pos), maxItems) && r.pos == o.pos && r.Valid()
  {
    var key :- r.ReadString();
    var valueType :- r.ReadNumber(4);
    var value :- r.ReadValue(valueType.0, maxItems);
    o := Ok((key.0, value.0), r.pos);
  }

  method ReadMetadata(r: Reader, count: nat, maxItems: nat) returns (o: Outcome<Metadata>)
    requires r.Valid()
    modifies r
    ensures r.Valid() && r.pos == o.pos == KvsAt(r.data, old(r.pos), count, maxItems).pos
    ensures o == match KvsAt(r.data, old(r.pos), count, maxItems)
      case Ok(kvs, p) => Ok(Collect(kvs), p) case Err(p) => Err(p) case Panic(p) => Panic(p)
  {
    hide KvAt, Collect;
    ghost var start := r.pos;
    ghost var all := KvsAt(r.data, start, count, maxItems);
    ghost var kvs: seq<Kv> := [];
    var metadata: Metadata := map[];
    CollectNone();
    ContinueNone(all);
    for i := 0 to count
      invariant r.Valid() && metadata == Collect(kvs)
      invariant ContinuesWith(all, kvs, KvsAt(r.data, r.pos, count - i, maxItems))
    {
      var kv :- ReadKv(r, maxItems);
      CollectMore(kvs, kv.0);
      ContinueMore(all, kvs, kv.0, KvsAt(r.data, r.pos, count - i - 1, maxItems));
      metadata := metadata[kv.0.0 := kv.0.1];
      kvs := kvs + [kv.0];
    }
    assert kvs + [] == kvs;
    o := Ok(metadata, r.pos);
  }

  /** What has been read and what is still to come make up the whole. */
  ghost predicate ContinuesWith<T>(all: Outcome<seq<T>>, done: seq<T>, rest: Outcome<seq<T>>) {
    all == if rest.Ok? then Ok(done + rest.value, rest.pos) else rest
  }

  lemma ContinueNone<T>(all: Outcome<seq<T>>)
    ensures ContinuesWith(all, [], all)
  {
    if all.Ok? {
      assert [] + all.value == all.value;
    }
  }

  lemma ContinueMore<T>(all: Outcome<seq<T>>, done: seq<T>, item: T, rest: Outcome<seq<T>>)
    requires ContinuesWith(all, done, if rest.Ok? then Ok([item] + rest.value, rest.pos) else rest)
    ensures ContinuesWith(all, done + [item], rest)
  {
    if rest.Ok? {
      assert done + ([item] + rest.value) == (done + [item]) + rest.value;
    }
  }

  lemma CollectNone()
    ensures Collect([]) == map[]
  {
  }

  lemma CollectMore(kvs: seq<Kv>, kv: Kv)
    ensures Collect(kvs + [kv]) == Collect(kvs)[kv.0 := kv.1]
  {
    assert (kvs + [kv])[..|kvs|] == kvs;
  }

  method ReadDims(r: Reader, ndim: nat) returns (o: Outcome<seq<nat>>)
    requires r.Valid()
    modifies r
    ensures o == DimsAt(r.data, old(r.pos), ndim) && r.pos == o.pos && r.Valid()
  {
    hide NumberAt;
    ghost var all := DimsAt(r.data, r.pos, ndim);
    var shape: seq<nat> := [];
    ContinueNone(all);
    for i := 0 to ndim
      invariant r.Valid() && ContinuesWith(all, shape, DimsAt(r.data, r.pos, ndim - i))
    {
      var dim :- r.ReadNumber(8);
      ContinueMore(all, shape, dim.0, DimsAt(r.data, r.pos, ndim - i - 1));
      shape := shape + [dim.0];
    }
    assert shape + [] == shape;
    o := Ok(shape, r.pos);
  }

  method ReadInfo(r: Reader) returns (o: Outcome<TensorInfo>)
    requires r.Valid()
    modifies r
    ensures o == InfoAt(r.data, old(r.pos)) && r.pos == o.pos && r.Valid()
  {
    hide NumberAt, StringAt, DimsAt;
    var name :- r.ReadString();
    var ndim :- r.ReadNumber(4);
    var shape :- ReadDims(r, ndim.0);
    var ggmlType :- r.ReadNumber(4);
    var dtype := GgmlType(ggmlType.0);
    if dtype.None? {
      return Err(r.pos);
    }
    var offset :- r.ReadNumber(8);
    o := Ok(TensorInfo(name.0, shape.0, dtype.value, offset.0), r.pos);
  }

  method ReadInfos(r: Reader, count: nat) returns (o: Outcome<seq<TensorInfo>>)
    requires r.Valid()
    modifies r
    ensures o == InfosAt(r.data, old(r.pos), count) && r.pos == o.pos && r.Valid()
  {
    hide InfoAt;
    ghost var all := InfosAt(r.data, r.pos, count);
    var infos: seq<TensorInfo> := [];
    ContinueNone(all);
    for i := 0 to count
      invariant r.Valid() && ContinuesWith(all, infos, InfosAt(r.data, r.pos, count - i))
    {
      var info :- ReadInfo(r);
      ContinueMore(all, infos, info.0, InfosAt(r.data, r.pos, count - i - 1));
      infos := infos + [info.0];
    }
    assert infos + [] == infos;
    o := Ok(infos, r.pos);
  }

  method PlaceTensors(dataLen: nat, dataStart: nat, infos: seq<TensorInfo>, limits: Limits, pos: nat)
      returns (o: Outcome<map<seq<Byte>, StoredTensor>>)
    ensures o == Place(dataLen, dataStart, infos, limits, pos)
  {
    var tensors: map<seq<Byte>, StoredTensor> := map[];
    for i := 0 to |infos|
      invariant Place(dataLen, dataStart, infos[..i], limits, pos) == Ok(tensors, pos)
    {
      assert infos[..i + 1][..i] == infos[..i];
      var start := TensorStart(dataStart, infos[i].offset, limits);
      if start.None? || start.value > dataLen {
        PlaceFails(dataLen, dataStart, infos, limits, pos, i + 1);
        return if start.None? then Panic(pos) else Err(pos);
      }
      tensors := tensors[infos[i].name := StoredTensor(start.value, infos[i].shape, infos[i].dtype)];
    }
    assert infos[..|infos|] == infos;
    o := Ok(tensors, pos);
  }

  lemma {:induction false} PlaceFails(dataLen: nat, dataStart: nat, infos: seq<TensorInfo>, limits: Limits, pos: nat,
                                      n: nat)
    requires n <= |infos| && !Place(dataLen, dataStart, infos[..n], limits, pos).Ok?
    ensures Place(dataLen, dataStart, infos, limits, pos) == Place(dataLen, dataStart, infos[..n], limits, pos)
    decreases |infos|
  {
    if n == |infos| {
      assert infos[..n] == infos;
    } else {
      assert infos[..|infos| - 1][..n] == infos[..n];
      PlaceFails(dataLen, dataStart, infos[..|infos| - 1], limits, pos, n);
    }
  }

  /** Loads a file whose bytes are mapped. */
  method LoadGguf(data: seq<Byte>, limits: Limits) returns (o: Outcome<GgufFile>)
    requires |data| < ISIZE
    ensures o == Load(data, limits)
  {
    hide NumberAt, BytesAt, KvsAt, InfosAt, Collect, Place, DataStart;
    var r := new Reader(data);
    var magic :- r.ReadBytes(4);
    if magic.0 != MAGIC {
      return Err(r.pos);
    }
    var version :- r.ReadNumber(4);
    if version.0 != 2 && version.0 != 3 {
      return Err(r.pos);
    }
    var tensorCount :- r.ReadNumber(8);
    var kvCount :- r.ReadNumber(8);
    var metadata :- ReadMetadata(r, kvCount.0, limits.maxItems);
    if tensorCount.0 > limits.maxTensors {
      return Panic(r.pos);
    }
    var infos :- ReadInfos(r, tensorCount.0);
    var alignment := Alignment(metadata.0);
    if alignment == 0 {
      return Panic(r.pos);
    }
    var tensors :- PlaceTensors(|data|, DataStart(r.pos, alignment), infos.0, limits, r.pos);
    o := Ok(GgufFile(metadata.0, tensors.0), tensors.1);
  }
}
