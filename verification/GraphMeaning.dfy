/**
 What the built program says about a model: which weights it uses, with which parameters its
 operators run, and what the logits of a plain decoder are, written out.
 */
module GraphMeanings {
  import opened Types
  import opened ModelMetas
  import opened GraphIr
  import opened Scanning
  import opened GraphBuilders

  // ------------------------------------------------------------------ which weights are used

  ghost predicate KindUses(kind: Kind, w: TensorName) {
    match kind
    case Embed(weight) => w == weight
    case RMSNorm(weight, _) => w == weight
    case MatMul(weight, bias) => w == weight || bias == Some(w)
    case TensorScale(scale) => w == scale
    case PleInput(embd, proj, norm) => w == embd || w == proj || w == norm
    case PleLayer(_, gate, proj, norm) => w == gate || w == proj || w == norm
    case _ => false
  }

  /** Some operator of the expression uses this weight. */
  ghost predicate Uses(t: Term, w: TensorName) {
    t.Apply? && (KindUses(t.kind, w) || exists i :: 0 <= i < |t.args| && Uses(t.args[i], w))
  }

  /** Everything one expression uses, the other uses too. */
  ghost predicate Includes(t: Term, part: Term) {
    forall w :: Uses(part, w) ==> Uses(t, w)
  }

  lemma ArgUsed(t: Term, i: nat, w: TensorName)
    requires t.Apply? && i < |t.args| && Uses(t.args[i], w)
    ensures Uses(t, w)
  {
  }

  lemma OneIncludes(kind: Kind, x: Term)
    ensures Includes(One(kind, x), x) && forall w :: KindUses(kind, w) ==> Uses(One(kind, x), w)
  {
    forall w | Uses(x, w)
      ensures Uses(One(kind, x), w)
    {
      ArgUsed(One(kind, x), 0, w);
    }
  }

  lemma TwoIncludes(kind: Kind, x: Term, y: Term)
    ensures Includes(Two(kind, x, y), x) && Includes(Two(kind, x, y), y)
    ensures forall w :: KindUses(kind, w) ==> Uses(Two(kind, x, y), w)
  {
    forall w | Uses(x, w)
      ensures Uses(Two(kind, x, y), w)
    {
      ArgUsed(Two(kind, x, y), 0, w);
    }
    forall w | Uses(y, w)
      ensures Uses(Two(kind, x, y), w)
    {
      ArgUsed(Two(kind, x, y), 1, w);
    }
  }

  /** All of these parts, where the layer has them, are used. */
  ghost predicate UsesAll(t: Term, layer: LayerTensors, parts: set<Part>) {
    forall p :: p in parts && p in layer.parts ==> Uses(t, layer.parts[p])
  }

  lemma StillUses(t: Term, part: Term, layer: LayerTensors, parts: set<Part>)
    requires Includes(t, part) && UsesAll(part, layer, parts)
    ensures UsesAll(t, layer, parts)
  {
    hide Uses;
  }

  lemma UsesBoth(t: Term, layer: LayerTensors, a: set<Part>, b: set<Part>)
    requires UsesAll(t, layer, a) && UsesAll(t, layer, b)
    ensures UsesAll(t, layer, a + b)
  {
    hide Uses;
  }

  lemma Reaches(t: Term, mid: Term, x: Term)
    requires Includes(t, mid) && Includes(mid, x)
    ensures Includes(t, x)
  {
    hide Uses;
  }

  /** A projection uses its weight and its bias. */
  lemma LinearUses(layer: LayerTensors, weight: Part, bias: Part, x: Term)
    ensures var t := One(Linear(layer, weight, bias), x);
      Includes(t, x) && UsesAll(t, layer, {weight, bias})
  {
    OneIncludes(Linear(layer, weight, bias), x);
    hide Uses;
  }

  /** An optional norm uses its weight. */
  lemma NormUses(layer: LayerTensors, part: Part, eps: real, x: Term)
    ensures Includes(IfPresent(layer, part, eps, x), x) && UsesAll(IfPresent(layer, part, eps, x), layer, {part})
  {
    if part in layer.parts {
      OneIncludes(RMSNorm(layer.parts[part], eps), x);
    }
    hide Uses;
  }

  /** A projection with an optional norm on top. */
  lemma NormedLinearUses(layer: LayerTensors, weight: Part, bias: Part, norm: Part, eps: real, x: Term)
    ensures var t := IfPresent(layer, norm, eps, One(Linear(layer, weight, bias), x));
      Includes(t, x) && UsesAll(t, layer, {weight, bias, norm})
  {
    hide Uses, Linear, IfPresent, UsesAll, Includes;
    var y := One(Linear(layer, weight, bias), x);
    LinearUses(layer, weight, bias, x);
    NormUses(layer, norm, eps, y);
    StillUses(IfPresent(layer, norm, eps, y), y, layer, {weight, bias});
    UsesBoth(IfPresent(layer, norm, eps, y), layer, {weight, bias}, {norm});
    Reaches(IfPresent(layer, norm, eps, y), y, x);
    assert {weight, bias} + {norm} == {weight, bias, norm};
  }

  // ------------------------------------------------------------------ a layer

  const QUERY: set<Part> := {QProj, QBias, QNorm}
  const KEY_VALUE: set<Part> := {KProj, KBias, KNorm, VProj, VBias}
  const OUTPUT: set<Part> := {OProj, OBias, PostAttentionNorm}

  lemma AttentionIncludes(meta: ModelMeta, layer: LayerTensors, q: Term, k: Term, v: Term)
    ensures var t := AttentionTerm(meta, layer, q, k, v);
      Includes(t, q) && (!meta.IsKvShared(layer.index) ==> Includes(t, k) && Includes(t, v))
  {
    hide ModelMeta.IsKvShared, RopeKind, RopeQKind, AttentionKind, Includes;
    var t := AttentionTerm(meta, layer, q, k, v);
    if meta.IsKvShared(layer.index) {
      var x := One(RopeQKind(meta, layer.index), q);
      OneIncludes(RopeQKind(meta, layer.index), q);
      OneIncludes(AttentionKind(meta, layer.index), x);
      Reaches(t, x, q);
    } else {
      var r := RopeKind(meta, layer.index);
      PairIncludes(r, q, k, 0);
      PairIncludes(r, q, k, 1);
      ThreeIncludes(AttentionKind(meta, layer.index), Apply(r, [q, k], 0), Apply(r, [q, k], 1), v);
      Reaches(t, Apply(r, [q, k], 0), q);
      Reaches(t, Apply(r, [q, k], 1), k);
    }
  }

  lemma PairIncludes(kind: Kind, x: Term, y: Term, port: nat)
    ensures Includes(Apply(kind, [x, y], port), x) && Includes(Apply(kind, [x, y], port), y)
  {
    var t := Apply(kind, [x, y], port);
    forall w | Uses(x, w) || Uses(y, w)
      ensures Uses(t, w)
    {
      ArgUsed(t, if Uses(x, w) then 0 else 1, w);
    }
  }

  lemma ThreeIncludes(kind: Kind, x: Term, y: Term, z: Term)
    ensures var t := Apply(kind, [x, y, z], 0); Includes(t, x) && Includes(t, y) && Includes(t, z)
  {
    var t := Apply(kind, [x, y, z], 0);
    forall w | Uses(x, w) || Uses(y, w) || Uses(z, w)
      ensures Uses(t, w)
    {
      ArgUsed(t, if Uses(x, w) then 0 else if Uses(y, w) then 1 else 2, w);
    }
  }

  /** What attention and its residual use: keys and values only where they are the layer's own. */
  lemma PostAttnUses(meta: ModelMeta, layer: LayerTensors, x: Term)
    ensures var t := PostAttnTerm(meta, layer, x);
      && Includes(t, x) && UsesAll(t, layer, QUERY + OUTPUT + {InputLayernorm})
      && (!meta.IsKvShared(layer.index) ==> UsesAll(t, layer, KEY_VALUE))
  {
    hide Uses, Includes, UsesAll, ModelMeta.IsKvShared, AttentionTerm, IfPresent, Linear;
    var normed := One(RMSNorm(Weight(layer, InputLayernorm), meta.rmsNormEps), x);
    InputNormUses(layer, InputLayernorm, meta.rmsNormEps, x);
    var q, k, v := QTerm(layer, normed), KTerm(layer, normed), VTerm(layer, normed);
    NormedLinearUses(layer, QProj, QBias, QNorm, QK_EPS, normed);
    NormedLinearUses(layer, KProj, KBias, KNorm, QK_EPS, normed);
    LinearUses(layer, VProj, VBias, normed);
    var att := AttentionTerm(meta, layer, q, k, v);
    AttentionIncludes(meta, layer, q, k, v);
    var o := IfPresent(layer, PostAttentionNorm, meta.rmsNormEps, One(Linear(layer, OProj, OBias), att));
    NormedLinearUses(layer, OProj, OBias, PostAttentionNorm, meta.rmsNormEps, att);
    var t := Two(Add, x, o);
    TwoIncludes(Add, x, o);
    Reaches(t, o, att);
    Reaches(t, att, q);
    Reaches(t, q, normed);
    StillUses(t, o, layer, OUTPUT);
    StillUses(t, q, layer, QUERY);
    StillUses(t, normed, layer, {InputLayernorm});
    UsesBoth(t, layer, QUERY, OUTPUT);
    UsesBoth(t, layer, QUERY + OUTPUT, {InputLayernorm});
    if !meta.IsKvShared(layer.index) {
      Reaches(t, att, k);
      Reaches(t, att, v);
      StillUses(t, k, layer, {KProj, KBias, KNorm});
      StillUses(t, v, layer, {VProj, VBias});
      UsesBoth(t, layer, {KProj, KBias, KNorm}, {VProj, VBias});
      assert {KProj, KBias, KNorm} + {VProj, VBias} == KEY_VALUE;
    }
  }

  lemma InputNormUses(layer: LayerTensors, part: Part, eps: real, x: Term)
    ensures var t := One(RMSNorm(Weight(layer, part), eps), x);
      Includes(t, x) && UsesAll(t, layer, {part})
  {
    OneIncludes(RMSNorm(Weight(layer, part), eps), x);
    hide Uses;
  }

  const FEED_FORWARD: set<Part> := {PostAttentionLayernorm, UpProj, UpBias, DownProj, DownBias, PostFfwNorm}
  const GATE: set<Part> := {GateProj, GateBias}

  /** The feed-forward block uses all its weights, a gate's bias only beside the gate. */
  lemma MlpUses(meta: ModelMeta, layer: LayerTensors, x: Term)
    ensures var t := MlpTerm(meta, layer, x);
      Includes(t, x) && UsesAll(t, layer, FEED_FORWARD) && (GateProj in layer.parts ==> UsesAll(t, layer, GATE))
  {
    hide Uses, Includes, UsesAll, IfPresent, Linear, InterTerm;
    var normed := One(RMSNorm(Weight(layer, PostAttentionLayernorm), meta.rmsNormEps), x);
    InputNormUses(layer, PostAttentionLayernorm, meta.rmsNormEps, x);
    var inter := InterTerm(meta, layer, normed);
    InterUses(meta, layer, normed);
    var t := MlpTerm(meta, layer, x);
    NormedLinearUses(layer, DownProj, DownBias, PostFfwNorm, meta.rmsNormEps, inter);
    Reaches(t, inter, normed);
    Reaches(t, normed, x);
    StillUses(t, inter, layer, {UpProj, UpBias});
    StillUses(t, normed, layer, {PostAttentionLayernorm});
    UsesBoth(t, layer, {UpProj, UpBias}, {PostAttentionLayernorm});
    UsesBoth(t, layer, {UpProj, UpBias} + {PostAttentionLayernorm}, {DownProj, DownBias, PostFfwNorm});
    assert {UpProj, UpBias} + {PostAttentionLayernorm} + {DownProj, DownBias, PostFfwNorm} == FEED_FORWARD;
    if GateProj in layer.parts {
      StillUses(t, inter, layer, GATE);
    }
  }

  lemma InterUses(meta: ModelMeta, layer: LayerTensors, normed: Term)
    ensures var t := InterTerm(meta, layer, normed);
      && Includes(t, normed) && UsesAll(t, layer, {UpProj, UpBias})
      && (GateProj in layer.parts ==> UsesAll(t, layer, GATE))
  {
    hide Uses, Includes, UsesAll, Linear;
    var t, up := InterTerm(meta, layer, normed), One(Linear(layer, UpProj, UpBias), normed);
    LinearUses(layer, UpProj, UpBias, normed);
    if GateProj in layer.parts {
      var gate := One(Linear(layer, GateProj, GateBias), normed);
      LinearUses(layer, GateProj, GateBias, normed);
      OneIncludes(Activation(meta.hiddenAct), gate);
      var act := One(Activation(meta.hiddenAct), gate);
      TwoIncludes(Mul, act, up);
      Reaches(t, act, gate);
      StillUses(t, gate, layer, GATE);
    } else {
      OneIncludes(Activation(meta.hiddenAct), up);
    }
    StillUses(t, up, layer, {UpProj, UpBias});
    Reaches(t, up, normed);
  }

  const PER_LAYER: set<Part> := {PerLayerInputGate, PerLayerProjection, PostPerLayerInputNorm}

  lemma ScalingUses(layer: LayerTensors, x: Term)
    ensures Includes(Scaling(layer, x), x) && UsesAll(Scaling(layer, x), layer, {LayerOutputScale})
  {
    if LayerOutputScale in layer.parts {
      OneIncludes(TensorScale(layer.parts[LayerOutputScale]), x);
    }
    hide Uses;
  }

  /** The end of a layer uses the output scale and, with per-layer embeddings, their three weights. */
  lemma FinishUses(meta: ModelMeta, hasPle: bool, layer: LayerTensors, mid: Term, mlp: Term)
    ensures var t := FinishTerm(meta, hasPle, layer, mid, mlp);
      && Includes(t, mid) && Includes(t, mlp) && UsesAll(t, layer, {LayerOutputScale})
      && (hasPle && PER_LAYER <= layer.parts.Keys ==> UsesAll(t, layer, PER_LAYER))
  {
    hide Uses, Includes, UsesAll, Scaling, PleTerm;
    var scaledMlp := if meta.pleDim.Some? then mlp else Scaling(layer, mlp);
    ScalingUses(layer, mlp);
    SameIncludes(mlp);
    var added := Two(Add, mid, scaledMlp);
    TwoIncludes(Add, mid, scaledMlp);
    var sum := SumTerm(meta, hasPle, layer, mid, mlp);
    SameIncludes(added);
    if hasPle && PleAt(layer) {
      TwoIncludes(PleLayerKind(layer), added, PleTerm(meta));
      PleUses(layer, added, PleTerm(meta));
    }
    var scaled := if meta.pleDim.Some? then Scaling(layer, sum) else sum;
    ScalingUses(layer, sum);
    SameIncludes(sum);
    var t := FinishTerm(meta, hasPle, layer, mid, mlp);
    SameIncludes(scaled);
    TwoIncludes(DeepStackFuse(layer.index), scaled, VisualTerm());
    Reaches(t, scaled, sum);
    Reaches(t, sum, added);
    Reaches(t, added, mid);
    Reaches(t, added, scaledMlp);
    Reaches(t, scaledMlp, mlp);
    StillUses(t, if meta.pleDim.Some? then scaled else scaledMlp, layer, {LayerOutputScale});
    if hasPle && PleAt(layer) {
      StillUses(t, sum, layer, PER_LAYER);
    }
  }

  lemma SameIncludes(x: Term)
    ensures Includes(x, x)
  {
  }

  lemma PleUses(layer: LayerTensors, x: Term, y: Term)
    requires PleAt(layer)
    ensures UsesAll(Two(PleLayerKind(layer), x, y), layer, PER_LAYER)
  {
    TwoIncludes(PleLayerKind(layer), x, y);
    hide Uses;
  }

  // ------------------------------------------------------------------ the whole model

  /** The parts a layer's weights count for. */
  ghost function Wanted(meta: ModelMeta, hasPle: bool, layer: LayerTensors): set<Part> {
    QUERY + OUTPUT + FEED_FORWARD + {InputLayernorm, LayerOutputScale}
    + (if meta.IsKvShared(layer.index) then {} else KEY_VALUE)
    + (if GateProj in layer.parts then GATE else {})
    + (if hasPle && PER_LAYER <= layer.parts.Keys then PER_LAYER else {})
  }

  lemma LayerUses(meta: ModelMeta, hasPle: bool, layer: LayerTensors, x: Term)
    ensures var t := LayerTerm(meta, hasPle, layer, x);
      Includes(t, x) && UsesAll(t, layer, Wanted(meta, hasPle, layer))
  {
    hide Uses, Includes, UsesAll, PostAttnTerm, MlpTerm, FinishTerm, ModelMeta.IsKvShared;
    var mid := PostAttnTerm(meta, layer, x);
    var mlp := MlpTerm(meta, layer, mid);
    var t := LayerTerm(meta, hasPle, layer, x);
    PostAttnUses(meta, layer, x);
    MlpUses(meta, layer, mid);
    FinishUses(meta, hasPle, layer, mid, mlp);
    Reaches(t, mid, x);
    LayerPartsUsed(meta, hasPle, layer, t, mid, mlp);
  }

  lemma LayerPartsUsed(meta: ModelMeta, hasPle: bool, layer: LayerTensors, t: Term, mid: Term, mlp: Term)
    requires Includes(t, mid) && Includes(t, mlp) && UsesAll(t, layer, {LayerOutputScale})
    requires UsesAll(mid, layer, QUERY + OUTPUT + {InputLayernorm}) && UsesAll(mlp, layer, FEED_FORWARD)
    requires !meta.IsKvShared(layer.index) ==> UsesAll(mid, layer, KEY_VALUE)
    requires GateProj in layer.parts ==> UsesAll(mlp, layer, GATE)
    requires hasPle && PER_LAYER <= layer.parts.Keys ==> UsesAll(t, layer, PER_LAYER)
    ensures UsesAll(t, layer, Wanted(meta, hasPle, layer))
  {
    hide Uses, ModelMeta.IsKvShared;
  }

  lemma {:induction false} HiddenUses(meta: ModelMeta, group: TensorGroupMap, n: nat, i: nat)
    requires i < n <= |group.layers|
    ensures UsesAll(HiddenTerm(meta, group, n), group.layers[i],
                    Wanted(meta, HasPle(meta, group), group.layers[i]))
  {
    hide Uses, Includes, UsesAll, Wanted, LayerTerm, HasPle;
    var before, layer := HiddenTerm(meta, group, n - 1), group.layers[n - 1];
    LayerUses(meta, HasPle(meta, group), layer, before);
    if i < n - 1 {
      HiddenUses(meta, group, n - 1, i);
      StillUses(HiddenTerm(meta, group, n), before, group.layers[i],
                Wanted(meta, HasPle(meta, group), group.layers[i]));
    }
  }

  /**
   No scanned weight goes unused: the logits depend on every weight of every layer, except keys and
   values of a layer that shares another's, a gate's bias without the gate, and per-layer weights
   that are not all there.
   */
  lemma WeightsUsed(meta: ModelMeta, group: TensorGroupMap, i: nat, p: Part)
    requires i < |group.layers| && p in group.layers[i].parts
    requires p in KEY_VALUE ==> !meta.IsKvShared(group.layers[i].index)
    requires p == GateBias ==> GateProj in group.layers[i].parts
    requires p in PER_LAYER ==> HasPle(meta, group) && PER_LAYER <= group.layers[i].parts.Keys
    ensures Uses(LogitsTerm(meta, group), group.layers[i].parts[p])
  {
    HiddenUses(meta, group, |group.layers|, i);
    assert p in Wanted(meta, HasPle(meta, group), group.layers[i]);
    hide Uses, HiddenTerm, Wanted, HasPle, ModelMeta.IsKvShared;
    var hidden := HiddenTerm(meta, group, |group.layers|);
    HeadIncludes(meta, group);
    assert Uses(hidden, group.layers[i].parts[p]);
  }

  lemma HeadIncludes(meta: ModelMeta, group: TensorGroupMap)
    ensures Includes(LogitsTerm(meta, group), HiddenTerm(meta, group, |group.layers|))
  {
    hide Uses, HiddenTerm, Includes;
    var hidden := HiddenTerm(meta, group, |group.layers|);
    var normed := One(RMSNorm(FinalNorm, meta.rmsNormEps), hidden);
    var raw := One(MatMul(HeadWeight(meta, group), None), normed);
    var t := LogitsTerm(meta, group);
    OneIncludes(RMSNorm(FinalNorm, meta.rmsNormEps), hidden);
    OneIncludes(MatMul(HeadWeight(meta, group), None), normed);
    SameIncludes(raw);
    if meta.finalLogitSoftcapping.Some? {
      OneIncludes(Softcap(meta.finalLogitSoftcapping.value), raw);
    }
    Reaches(raw, normed, hidden);
    Reaches(t, raw, hidden);
  }

  // ------------------------------------------------------------------ parameters, and a plain decoder

  /** A layer that skips rope gets none, and a sliding layer its own base; lone queries turn the same way. */
  lemma RopeParameters(meta: ModelMeta, l: nat, pattern: seq<bool>)
    requires pattern == if meta.slidingWindowPattern.Some? then meta.slidingWindowPattern.value else []
    ensures l < |meta.noRopeLayers| && meta.noRopeLayers[l] ==>
      RopeKind(meta, l) == RopeSkip && RopeQKind(meta, l) == RopeQ(l, 0.0)
    ensures l >= |meta.noRopeLayers| || !meta.noRopeLayers[l] ==>
      var theta := if l < |pattern| && pattern[l] then meta.ropeThetaSwa.UnwrapOr(10000.0) else meta.ropeTheta;
      RopeKind(meta, l) == Rope(l, theta) && RopeQKind(meta, l) == RopeQ(l, theta)
  {
    meta.SlidingLayers(l, pattern);
  }

  /** A projection by the layer's weight of the canonical name. */
  function Projected(l: nat, part: Part, x: Term): Term {
    One(MatMul(InLayer(l, 0, Some(part)), None), x)
  }

  function Normed(l: nat, part: Part, eps: real, x: Term): Term {
    One(RMSNorm(InLayer(l, 0, Some(part)), eps), x)
  }

  /** An unshared layer with a gate and nothing else that is optional, written out. */
  lemma PlainLayer(meta: ModelMeta, layer: LayerTensors, x: Term)
    requires layer.parts == map[GateProj := InLayer(layer.index, 0, Some(GateProj))]
    requires !meta.IsKvShared(layer.index) && !meta.SkipsRope(layer.index) && !meta.IsSwaLayer(layer.index)
    requires meta.isDeepstackLayers.Some? && layer.index < |meta.isDeepstackLayers.value| ==>
      !meta.isDeepstackLayers.value[layer.index]
    ensures var l, eps := layer.index, meta.rmsNormEps;
      var n1 := Normed(l, InputLayernorm, eps, x);
      var qk := [Projected(l, QProj, n1), Projected(l, KProj, n1)];
      var rope := Rope(l, meta.ropeTheta);
      var att := Apply(PagedAttention(l, meta.nHeads, meta.nKvHeads, meta.headDim),
                       [Apply(rope, qk, 0), Apply(rope, qk, 1), Projected(l, VProj, n1)], 0);
      var mid := Two(Add, x, Projected(l, OProj, att));
      var n2 := Normed(l, PostAttentionLayernorm, eps, mid);
      LayerTerm(meta, false, layer, x) ==
        Two(Add, mid, Projected(l, DownProj,
          Two(Mul, One(Activation(meta.hiddenAct), Projected(l, GateProj, n2)), Projected(l, UpProj, n2))))
  {
    assert PleAt(layer) ==> PerLayerInputGate in layer.parts.Keys;
  }

  /** A projection with a bias, both by their canonical names. */
  function Biased(l: nat, weight: Part, bias: Part, x: Term): Term {
    One(MatMul(InLayer(l, 0, Some(weight)), Some(InLayer(l, 0, Some(bias)))), x)
  }

  /** A layer that has every tensor a layer can have, by its canonical name. */
  ghost predicate HasEverything(layer: LayerTensors) {
    forall p :: p in layer.parts && layer.parts[p] == InLayer(layer.index, 0, Some(p))
  }

  /** Attention with norms and biases everywhere, and the residual, written out. */
  function FullAttention(meta: ModelMeta, l: nat, x: Term): Term {
    var n1 := Normed(l, InputLayernorm, meta.rmsNormEps, x);
    var q := Normed(l, QNorm, 0.000001, Biased(l, QProj, QBias, n1));
    var k := Normed(l, KNorm, 0.000001, Biased(l, KProj, KBias, n1));
    var rope := Rope(l, meta.ropeTheta);
    var att := Apply(PagedAttention(l, meta.nHeads, meta.nKvHeads, meta.headDim),
                     [Apply(rope, [q, k], 0), Apply(rope, [q, k], 1), Biased(l, VProj, VBias, n1)], 0);
    Two(Add, x, Normed(l, PostAttentionNorm, meta.rmsNormEps, Biased(l, OProj, OBias, att)))
  }

  /** The gated feed-forward block with norms and biases everywhere, written out. */
  function FullFeedForward(meta: ModelMeta, l: nat, mid: Term): Term {
    var n2 := Normed(l, PostAttentionLayernorm, meta.rmsNormEps, mid);
    var gate := One(Activation(meta.hiddenAct), Biased(l, GateProj, GateBias, n2));
    var inner := Two(Mul, gate, Biased(l, UpProj, UpBias, n2));
    Normed(l, PostFfwNorm, meta.rmsNormEps, Biased(l, DownProj, DownBias, inner))
  }

  lemma FullParts(meta: ModelMeta, layer: LayerTensors, x: Term)
    requires HasEverything(layer) && !meta.IsKvShared(layer.index) && !meta.SkipsRope(layer.index)
    requires !meta.IsSwaLayer(layer.index)
    ensures PostAttnTerm(meta, layer, x) == FullAttention(meta, layer.index, x)
    ensures MlpTerm(meta, layer, x) == FullFeedForward(meta, layer.index, x)
  {
  }

  /** An unshared layer that has everything, written out. */
  lemma FullLayer(meta: ModelMeta, layer: LayerTensors, x: Term)
    requires HasEverything(layer) && !meta.IsKvShared(layer.index) && !meta.SkipsRope(layer.index)
    requires !meta.IsSwaLayer(layer.index)
    requires meta.pleDim.Some? && meta.hasVisionEncoder && meta.isDeepstackLayers.Some?
    requires layer.index < |meta.isDeepstackLayers.value| && meta.isDeepstackLayers.value[layer.index]
    ensures var l := layer.index;
      var mid := FullAttention(meta, l, x);
      var ple := PleLayer(l, InLayer(l, 0, Some(PerLayerInputGate)), InLayer(l, 0, Some(PerLayerProjection)),
                          InLayer(l, 0, Some(PostPerLayerInputNorm)));
      var sum := Two(ple, Two(Add, mid, FullFeedForward(meta, l, mid)), PleTerm(meta));
      LayerTerm(meta, true, layer, x) ==
        Two(DeepStackFuse(l), One(TensorScale(InLayer(l, 0, Some(LayerOutputScale))), sum),
            One(VisualEmbed, Input(PixelValues)))
  {
    hide PleTerm, PostAttnTerm, MlpTerm, FullAttention, FullFeedForward;
    FullParts(meta, layer, x);
    FullParts(meta, layer, FullAttention(meta, layer.index, x));
    assert PleAt(layer);
  }

  /** Without per-layer embeddings the output scale comes before the residual. */
  lemma ScaledLayer(meta: ModelMeta, layer: LayerTensors, mid: Term, mlp: Term)
    requires meta.pleDim.None? && !meta.hasVisionEncoder && LayerOutputScale in layer.parts
    ensures FinishTerm(meta, false, layer, mid, mlp) ==
      Two(Add, mid, One(TensorScale(layer.parts[LayerOutputScale]), mlp))
  {
  }

  /** A shared layer attends with its query alone. */
  lemma SharedAttention(meta: ModelMeta, layer: LayerTensors, q: Term, k: Term, v: Term)
    requires meta.IsKvShared(layer.index) && !meta.SkipsRope(layer.index)
    ensures AttentionTerm(meta, layer, q, k, v) ==
      One(PagedAttention(layer.index, meta.nHeads, meta.nKvHeads, meta.headDim),
          One(RopeQ(layer.index, meta.RopeTheta(layer.index)), q))
  {
  }

  /** The embedding, with pictures and then sound spliced in, scaled last; or the bare text. */
  lemma EmbeddedIs(meta: ModelMeta)
    ensures var text := One(Embed(EmbedTokens), Input(InputIds));
      && (!meta.hasVisionEncoder && !meta.hasAudioEncoder && meta.embedScale.None? ==> EmbeddedTerm(meta) == text)
      && (meta.hasVisionEncoder && meta.hasAudioEncoder && meta.embedScale.Some? ==>
            var seen := Two(SpliceTensors, text, One(VisualEmbed, Input(PixelValues)));
            var heard := Two(SpliceAudioTensors, seen, One(AudioEmbed, Input(AudioValues)));
            EmbeddedTerm(meta) == One(Scale(meta.embedScale.value), heard))
  {
  }

  /** The head: final norm, the model's own head unless it has none and ties none, and the cap, if any. */
  lemma HeadIs(meta: ModelMeta, group: TensorGroupMap)
    ensures var hidden := HiddenTerm(meta, group, |group.layers|);
      var w := if LmHead in group.globals then LmHead else if meta.tieWordEmbeddings then LmHead else EmbedTokens;
      var raw := One(MatMul(w, None), One(RMSNorm(FinalNorm, meta.rmsNormEps), hidden));
      && (meta.finalLogitSoftcapping.None? ==> LogitsTerm(meta, group) == raw)
      && forall cap :: meta.finalLogitSoftcapping == Some(cap) ==> LogitsTerm(meta, group) == One(Softcap(cap), raw)
  {
    hide HiddenTerm;
  }
}
