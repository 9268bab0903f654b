/**
 Grouping weight names by layer.  The names come from a hash map in any order; what the scan
 returns depends on the order exactly when two names spell the same layer's number differently.
 */
module Scanning {
  import opened Types
  import opened ModelMetas
  import opened GraphIr

  /** Names as GGUF files write them, or any other name. */
  datatype RawName =
    | TokenEmbd | OutputNorm | Output
    | Blk(layer: nat, spelling: nat, part: Option<Part>)
    | AsIs(name: TensorName)

  /** GGUF names become canonical ones; a layer's number is parsed and written again. */
  function MapGgufName(raw: RawName): TensorName {
    match raw
    case TokenEmbd => EmbedTokens
    case OutputNorm => FinalNorm
    case Output => LmHead
    case Blk(layer, _, part) => InLayer(layer, 0, part)
    case AsIs(name) => name
  }

  type Parts = map<Part, TensorName>

  datatype LayerTensors = LayerTensors(index: nat, parts: Parts)

  datatype TensorGroupMap = TensorGroupMap(globals: set<TensorName>, layers: seq<LayerTensors>)

  predicate IsGlobal(name: TensorName) {
    !name.InLayer? && !name.Unrelated?
  }

  // ------------------------------------------------------------------ the layer map

  /** Enters a name under its layer, creating the layer; a later name of the same part wins. */
  function Enter(layers: map<nat, Parts>, name: TensorName): map<nat, Parts> {
    if !name.InLayer? then layers
    else
      var parts := if name.layer in layers then layers[name.layer] else map[];
      layers[name.layer := if name.part.Some? then parts[name.part.value := name] else parts]
  }

  function LayerMap(names: seq<TensorName>): map<nat, Parts> {
    if names == [] then map[] else Enter(LayerMap(names[..|names| - 1]), names[|names| - 1])
  }

  function Globals(names: seq<TensorName>): set<TensorName> {
    set n | n in names && IsGlobal(n)
  }

  // ------------------------------------------------------------------ in order

  lemma {:induction false} HasMax(s: set<nat>)
    requires s != {}
    ensures exists m :: m in s && forall x :: x in s ==> x <= m
    decreases s
  {
    var k :| k in s;
    if !forall x :: x in s ==> x <= k {
      var higher :| higher in s && higher > k;
      var above := set x | x in s && x > k;
      assert k !in above && higher in above && above < s;
      HasMax(above);
      var m :| m in above && forall x :: x in above ==> x <= m;
      assert forall x :: x in s ==> x in above || x <= k;
    }
  }

  function Max(s: set<nat>): (m: nat)
    requires s != {}
    ensures m in s && forall x :: x in s ==> x <= m
  {
    HasMax(s);
    var m :| m in s && forall x :: x in s ==> x <= m;
    m
  }

  /** The map's entries as a list, sorted by layer. */
  function InOrder(layers: map<nat, Parts>): (r: seq<LayerTensors>)
    ensures forall i :: 0 <= i < |r| ==> r[i].index in layers && r[i].parts == layers[r[i].index]
    decreases |layers|
  {
    if layers == map[] then []
    else
      assert layers.Keys != {};
      var k := Max(layers.Keys);
      InOrder(layers - {k}) + [LayerTensors(k, layers[k])]
  }

  ghost predicate Ascending(layers: seq<LayerTensors>) {
    forall i, j :: 0 <= i < j < |layers| ==> layers[i].index < layers[j].index
  }

  /** The list ascends strictly. */
  lemma {:induction false} InOrderAscends(layers: map<nat, Parts>)
    ensures Ascending(InOrder(layers))
    decreases |layers|
  {
    if layers != map[] {
      assert layers.Keys != {};
      InOrderAscends(layers - {Max(layers.Keys)});
    }
  }

  /** It has every layer. */
  lemma {:induction false} InOrderHas(layers: map<nat, Parts>, l: nat)
    requires l in layers
    ensures LayerTensors(l, layers[l]) in InOrder(layers)
    decreases |layers|
  {
    var k := Max(layers.Keys);
    if l != k {
      InOrderHas(layers - {k}, l);
    }
  }

  // ------------------------------------------------------------------ the scan

  function Scan(names: seq<TensorName>): TensorGroupMap {
    TensorGroupMap(Globals(names), InOrder(LayerMap(names)))
  }

  lemma ScanNone()
    ensures Globals([]) == {} && LayerMap([]) == map[]
  {
  }

  lemma ScanNext(names: seq<TensorName>, i: nat)
    requires i < |names|
    ensures LayerMap(names[..i + 1]) == Enter(LayerMap(names[..i]), names[i])
    ensures Globals(names[..i + 1]) == Globals(names[..i]) + (if IsGlobal(names[i]) then {names[i]} else {})
  {
    assert names[..i + 1][..i] == names[..i];
    assert names[..i + 1] == names[..i] + [names[i]];
  }

  method ScanTensors(names: seq<RawName>) returns (group: TensorGroupMap)
    ensures group == Scan(Mapped(names))
  {
    var globals: set<TensorName> := {};
    var layerMap: map<nat, Parts> := map[];
    ghost var mapped := Mapped(names);
    hide LayerMap, Globals;
    ScanNone();
    for i := 0 to |names|
      invariant globals == Globals(mapped[..i])
      invariant layerMap == LayerMap(mapped[..i])
    {
      var name := MapGgufName(names[i]);
      ScanNext(mapped, i);
      if IsGlobal(name) {
        globals := globals + {name};
      } else if name.InLayer? {
        if name.layer !in layerMap {
          layerMap := layerMap[name.layer := map[]];
        }
        if name.part.Some? {
          layerMap := layerMap[name.layer := layerMap[name.layer][name.part.value := name]];
        }
      }
    }
    assert mapped[..|names|] == mapped;
    group := TensorGroupMap(globals, InOrder(layerMap));
  }

  function Mapped(names: seq<RawName>): (r: seq<TensorName>)
    ensures |r| == |names|
  {
    seq(|names|, i requires 0 <= i < |names| => MapGgufName(names[i]))
  }

  // ------------------------------------------------------------------ what the scan holds

  predicate Names(n: TensorName, l: nat, p: Part) {
    n.InLayer? && n.layer == l && n.part == Some(p)
  }

  ghost predicate HasLayer(names: seq<TensorName>, l: nat) {
    exists n :: n in names && n.InLayer? && n.layer == l
  }

  ghost predicate HasPart(names: seq<TensorName>, l: nat, p: Part) {
    exists n :: n in names && Names(n, l, p)
  }

  /** Name i is the last one of its layer and part. */
  ghost predicate LastOf(names: seq<TensorName>, i: nat, l: nat, p: Part) {
    i < |names| && Names(names[i], l, p) && forall j :: i < j < |names| ==> !Names(names[j], l, p)
  }

  lemma {:induction false} EntryIsLast(names: seq<TensorName>, i: nat, l: nat, p: Part)
    requires LastOf(names, i, l, p)
    ensures l in LayerMap(names) && p in LayerMap(names)[l] && LayerMap(names)[l][p] == names[i]
    decreases |names|
  {
    if i < |names| - 1 {
      var init := names[..|names| - 1];
      assert !Names(names[|names| - 1], l, p);
      assert forall j :: 0 <= j < |init| ==> init[j] == names[j];
      EntryIsLast(init, i, l, p);
    }
  }

  /** The globals are the six named tensors that are there; a known part of a layer is the last name given for it. */
  lemma ScanHolds(names: seq<TensorName>, i: nat, l: nat, p: Part)
    ensures forall n :: n in Scan(names).globals <==>
      n in names && n in {EmbedTokens, FinalNorm, LmHead, PerLayerTokenEmbd, PerLayerModelProj, PerLayerProjNorm}
    ensures (exists e :: e in Scan(names).layers && e.index == l) <==> HasLayer(names, l)
    ensures LastOf(names, i, l, p) ==> exists parts ::
      LayerTensors(l, parts) in Scan(names).layers && p in parts && parts[p] == names[i]
  {
    EntryIsNamed(names, l, p);
    hide LayerMap;
    if l in LayerMap(names) {
      InOrderHas(LayerMap(names), l);
    }
    if LastOf(names, i, l, p) {
      EntryIsLast(names, i, l, p);
    }
  }

  /** The names of the three tensors outside the layers, as GGUF spells them. */
  lemma GgufGlobals()
    ensures Mapped([TokenEmbd, OutputNorm, Output]) == [EmbedTokens, FinalNorm, LmHead]
  {
  }

  // ------------------------------------------------------------------ independence of order

  /** A layer has an entry if a name mentions it, and each of its parts is named. */
  lemma {:induction false} EntryIsNamed(names: seq<TensorName>, l: nat, p: Part)
    ensures l in LayerMap(names) <==> HasLayer(names, l)
    ensures l in LayerMap(names) ==> (p in LayerMap(names)[l] <==> HasPart(names, l, p))
    ensures l in LayerMap(names) && p in LayerMap(names)[l] ==>
      LayerMap(names)[l][p] in names && Names(LayerMap(names)[l][p], l, p)
  {
    if names != [] {
      var init, last := names[..|names| - 1], names[|names| - 1];
      EntryIsNamed(init, l, p);
      assert forall n :: n in names <==> n in init || n == last;
      assert HasPart(init, l, p) ==> HasLayer(init, l);
      assert HasPart(names, l, p) <==> HasPart(init, l, p) || Names(last, l, p);
    }
  }

  /** No two names of the same layer and part are spelt differently. */
  ghost predicate OneSpelling(names: seq<TensorName>) {
    forall m, n :: m in names && n in names && SamePart(m, n) ==> m == n
  }

  predicate SamePart(a: TensorName, b: TensorName) {
    a.InLayer? && b.InLayer? && a.part.Some? && a.layer == b.layer && a.part == b.part
  }

  /** With one spelling, only the set of names counts. */
  lemma SameSetSameScan(a: seq<TensorName>, b: seq<TensorName>)
    requires OneSpelling(a) && forall n :: n in a <==> n in b
    ensures Scan(a) == Scan(b)
  {
    forall l
      ensures l in LayerMap(a) <==> l in LayerMap(b)
      ensures l in LayerMap(a) ==> LayerMap(a)[l] == LayerMap(b)[l]
    {
      SameEntry(a, b, l);
    }
    assert LayerMap(a) == LayerMap(b);
    assert Globals(a) == Globals(b);
  }

  lemma SameEntry(a: seq<TensorName>, b: seq<TensorName>, l: nat)
    requires OneSpelling(a) && forall n :: n in a <==> n in b
    ensures l in LayerMap(a) <==> l in LayerMap(b)
    ensures l in LayerMap(a) ==> LayerMap(a)[l] == LayerMap(b)[l]
  {
    SameAt(a, b, l, QProj);
    if l in LayerMap(a) {
      forall p
        ensures p in LayerMap(a)[l] <==> p in LayerMap(b)[l]
        ensures p in LayerMap(a)[l] ==> LayerMap(a)[l][p] == LayerMap(b)[l][p]
      {
        SameAt(a, b, l, p);
      }
    }
  }

  lemma SameAt(a: seq<TensorName>, b: seq<TensorName>, l: nat, p: Part)
    requires OneSpelling(a) && forall n :: n in a <==> n in b
    ensures l in LayerMap(a) <==> l in LayerMap(b)
    ensures l in LayerMap(a) ==> (p in LayerMap(a)[l] <==> p in LayerMap(b)[l])
    ensures l in LayerMap(a) && p in LayerMap(a)[l] ==> LayerMap(a)[l][p] == LayerMap(b)[l][p]
  {
    hide LayerMap;
    EntryIsNamed(a, l, p);
    EntryIsNamed(b, l, p);
  }

  /** A name at the end is the one entered. */
  lemma LastWins(names: seq<TensorName>, n: TensorName)
    requires n.InLayer? && n.part.Some?
    ensures n.layer in LayerMap(names + [n]) && n.part.value in LayerMap(names + [n])[n.layer]
    ensures LayerMap(names + [n])[n.layer][n.part.value] == n
  {
    var more := names + [n];
    assert more[..|names|] == names && more[|names|] == n;
    assert LayerMap(more) == Enter(LayerMap(names), n);
  }

  /** Different entries show in the scan. */
  lemma ScanTellsApart(a: seq<TensorName>, b: seq<TensorName>)
    requires Scan(a) == Scan(b)
    ensures LayerMap(a) == LayerMap(b)
  {
    var x, y := LayerMap(a), LayerMap(b);
    forall l
      ensures l in x <==> l in y
      ensures l in x ==> x[l] == y[l]
    {
      if l in x {
        InOrderHas(x, l);
      }
      if l in y {
        InOrderHas(y, l);
      }
    }
  }

  /** The name at position i, moved to the end. */
  function MovedLast(names: seq<TensorName>, i: nat): seq<TensorName>
    requires i < |names|
  {
    names[..i] + names[i + 1..] + [names[i]]
  }

  lemma MovedIsPermutation(names: seq<TensorName>, i: nat)
    requires i < |names|
    ensures multiset(MovedLast(names, i)) == multiset(names)
  {
    assert names == names[..i] + [names[i]] + names[i + 1..];
  }

  /** The scan is the same for every order of the names if and only if spellings agree. */
  lemma ScanIgnoresOrder(names: seq<TensorName>)
    ensures OneSpelling(names) <==>
      forall other: seq<TensorName> :: multiset(other) == multiset(names) ==> Scan(other) == Scan(names)
  {
    hide Scan, LayerMap;
    if OneSpelling(names) {
      forall other: seq<TensorName> | multiset(other) == multiset(names)
        ensures Scan(other) == Scan(names)
      {
        assert forall n :: n in names <==> n in multiset(names);
        assert forall n :: n in other <==> n in multiset(other);
        SameSetSameScan(names, other);
      }
    } else {
      var m, n :| m in names && n in names && SamePart(m, n) && m != n;
      var i :| 0 <= i < |names| && names[i] == m;
      var j :| 0 <= j < |names| && names[j] == n;
      var a, b := MovedLast(names, i), MovedLast(names, j);
      MovedIsPermutation(names, i);
      MovedIsPermutation(names, j);
      LastWins(names[..i] + names[i + 1..], names[i]);
      LastWins(names[..j] + names[j + 1..], names[j]);
      if Scan(a) == Scan(names) && Scan(b) == Scan(names) {
        ScanTellsApart(a, b);
        assert false;
      }
    }
  }

  /** GGUF names agree in spelling by construction. */
  lemma GgufNamesAgree(names: seq<RawName>)
    requires forall i :: 0 <= i < |names| ==> !names[i].AsIs? || !names[i].name.InLayer? || names[i].name.spelling == 0
    ensures OneSpelling(Mapped(names))
  {
  }
}
