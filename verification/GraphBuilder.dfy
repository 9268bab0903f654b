/**
 The graph builder: from metadata and grouped weights to a straight-line program.  The program
 is well formed, and what its `logits` stand for is the model written as one expression.
 */
module GraphBuilders {
  import opened Types
  import opened ModelMetas
  import opened GraphIr
  import opened Scanning

  // ------------------------------------------------------------------ the model as an expression

  function One(kind: Kind, x: Term): Term {
    Apply(kind, [x], 0)
  }

  function Two(kind: Kind, x: Term, y: Term): Term {
    Apply(kind, [x, y], 0)
  }

  /** A layer's weight: as scanned, or by its canonical name. */
  function Weight(layer: LayerTensors, part: Part): TensorName {
    if part in layer.parts then layer.parts[part] else InLayer(layer.index, 0, Some(part))
  }

  function Bias(layer: LayerTensors, part: Part): Option<TensorName> {
    if part in layer.parts then Some(layer.parts[part]) else None
  }

  function Linear(layer: LayerTensors, weight: Part, bias: Part): Kind {
    MatMul(Weight(layer, weight), Bias(layer, bias))
  }

  function IfPresent(layer: LayerTensors, part: Part, eps: real, x: Term): Term {
    if part in layer.parts then One(RMSNorm(layer.parts[part], eps), x) else x
  }

  const QK_EPS: real := 0.000001

  function EmbeddedTerm(meta: ModelMeta): Term {
    var seen := SeenTerm(meta);
    var heard := if meta.hasAudioEncoder
      then Two(SpliceAudioTensors, seen, One(AudioEmbed, Input(AudioValues))) else seen;
    if meta.embedScale.Some? then One(Scale(meta.embedScale.value), heard) else heard
  }

  /** The text, with visual embeddings spliced in. */
  function SeenTerm(meta: ModelMeta): Term {
    var text := One(Embed(EmbedTokens), Input(InputIds));
    if meta.hasVisionEncoder then Two(SpliceTensors, text, VisualTerm()) else text
  }

  function VisualTerm(): Term {
    One(VisualEmbed, Input(PixelValues))
  }

  predicate HasPle(meta: ModelMeta, group: TensorGroupMap) {
    meta.pleDim.Some? && {PerLayerTokenEmbd, PerLayerModelProj, PerLayerProjNorm} <= group.globals
  }

  function PleTerm(meta: ModelMeta): Term {
    Two(PleInput(PerLayerTokenEmbd, PerLayerModelProj, PerLayerProjNorm), Input(InputIds), EmbeddedTerm(meta))
  }

  function QTerm(layer: LayerTensors, normed: Term): Term {
    IfPresent(layer, QNorm, QK_EPS, One(Linear(layer, QProj, QBias), normed))
  }

  function KTerm(layer: LayerTensors, normed: Term): Term {
    IfPresent(layer, KNorm, QK_EPS, One(Linear(layer, KProj, KBias), normed))
  }

  function VTerm(layer: LayerTensors, normed: Term): Term {
    One(Linear(layer, VProj, VBias), normed)
  }

  function RopeQKind(meta: ModelMeta, l: nat): Kind {
    RopeQ(l, if meta.SkipsRope(l) then 0.0 else meta.RopeTheta(l))
  }

  function RopeKind(meta: ModelMeta, l: nat): Kind {
    if meta.SkipsRope(l) then RopeSkip else Rope(l, meta.RopeTheta(l))
  }

  function AttentionKind(meta: ModelMeta, l: nat): Kind {
    PagedAttention(l, meta.nHeads, meta.nKvHeads, meta.headDim)
  }

  /** Attention over a rotated query and, unless another layer's are shared, keys and values. */
  function AttentionTerm(meta: ModelMeta, layer: LayerTensors, q: Term, k: Term, v: Term): Term {
    var l := layer.index;
    if meta.IsKvShared(l) then One(AttentionKind(meta, l), One(RopeQKind(meta, l), q))
    else Apply(AttentionKind(meta, l), [Apply(RopeKind(meta, l), [q, k], 0), Apply(RopeKind(meta, l), [q, k], 1), v], 0)
  }

  /** The residual after attention. */
  function PostAttnTerm(meta: ModelMeta, layer: LayerTensors, x: Term): Term {
    var normed := One(RMSNorm(Weight(layer, InputLayernorm), meta.rmsNormEps), x);
    var att := AttentionTerm(meta, layer, QTerm(layer, normed), KTerm(layer, normed), VTerm(layer, normed));
    Two(Add, x, IfPresent(layer, PostAttentionNorm, meta.rmsNormEps, One(Linear(layer, OProj, OBias), att)))
  }

  function InterTerm(meta: ModelMeta, layer: LayerTensors, normed: Term): Term {
    var up := One(Linear(layer, UpProj, UpBias), normed);
    if GateProj in layer.parts then
      Two(Mul, One(Activation(meta.hiddenAct), One(Linear(layer, GateProj, GateBias), normed)), up)
    else One(Activation(meta.hiddenAct), up)
  }

  /** The feed-forward block, gated or not. */
  function MlpTerm(meta: ModelMeta, layer: LayerTensors, x: Term): Term {
    var normed := One(RMSNorm(Weight(layer, PostAttentionLayernorm), meta.rmsNormEps), x);
    IfPresent(layer, PostFfwNorm, meta.rmsNormEps,
      One(Linear(layer, DownProj, DownBias), InterTerm(meta, layer, normed)))
  }

  function Scaling(layer: LayerTensors, x: Term): Term {
    if LayerOutputScale in layer.parts then One(TensorScale(layer.parts[LayerOutputScale]), x) else x
  }

  predicate PleAt(layer: LayerTensors) {
    {PerLayerInputGate, PerLayerProjection, PostPerLayerInputNorm} <= layer.parts.Keys
  }

  function PleLayerKind(layer: LayerTensors): Kind
    requires PleAt(layer)
  {
    PleLayer(layer.index, layer.parts[PerLayerInputGate], layer.parts[PerLayerProjection],
             layer.parts[PostPerLayerInputNorm])
  }

  /**
   The end of a layer: the output scale comes before the residual, or, with per-layer embeddings,
   after them.
   */
  function FinishTerm(meta: ModelMeta, hasPle: bool, layer: LayerTensors, mid: Term, mlp: Term): Term {
    EndTerm(meta, layer, SumTerm(meta, hasPle, layer, mid, mlp))
  }

  function SumTerm(meta: ModelMeta, hasPle: bool, layer: LayerTensors, mid: Term, mlp: Term): Term {
    var sum := Two(Add, mid, if meta.pleDim.Some? then mlp else Scaling(layer, mlp));
    if hasPle && PleAt(layer) then Two(PleLayerKind(layer), sum, PleTerm(meta)) else sum
  }

  function EndTerm(meta: ModelMeta, layer: LayerTensors, x: Term): Term {
    var scaled := if meta.pleDim.Some? then Scaling(layer, x) else x;
    if meta.hasVisionEncoder && meta.IsDeepstack(layer.index)
      then Two(DeepStackFuse(layer.index), scaled, VisualTerm()) else scaled
  }

  function LayerTerm(meta: ModelMeta, hasPle: bool, layer: LayerTensors, x: Term): Term {
    var mid := PostAttnTerm(meta, layer, x);
    FinishTerm(meta, hasPle, layer, mid, MlpTerm(meta, layer, mid))
  }

  /** The hidden state after the first n layers. */
  function HiddenTerm(meta: ModelMeta, group: TensorGroupMap, n: nat): Term
    requires n <= |group.layers|
  {
    if n == 0 then EmbeddedTerm(meta)
    else LayerTerm(meta, HasPle(meta, group), group.layers[n - 1], HiddenTerm(meta, group, n - 1))
  }

  function HeadWeight(meta: ModelMeta, group: TensorGroupMap): TensorName {
    if meta.tieWordEmbeddings || LmHead in group.globals then LmHead else EmbedTokens
  }

  function LogitsTerm(meta: ModelMeta, group: TensorGroupMap): Term {
    var raw := One(MatMul(HeadWeight(meta, group), None),
                   One(RMSNorm(FinalNorm, meta.rmsNormEps), HiddenTerm(meta, group, |group.layers|)));
    if meta.finalLogitSoftcapping.Some? then One(Softcap(meta.finalLogitSoftcapping.value), raw) else raw
  }

  // ------------------------------------------------------------------ what a part of the builder adds

  /** The part of a layer that defines a value. */
  function Stage(v: LayerValue): nat {
    match v
    case PreNorm | Q | K | V | QNormed | KNormed => 0
    case QRope | KRope | AttnOut => 1
    case O | ONormed | PostAttn => 2
    case PostNorm => 3
    case Gate | Up | Act | MlpInter => 4
    case MlpOut | MlpOutNormed => 5
    case MlpScaled | Out | PleOut => 6
    case OutScaled | Fused => 7
  }

  /** All names keep their meaning; the new ones are values of layer l, of these stages. */
  ghost predicate Grown(a: Env, b: Env, l: nat, lo: nat, hi: nat) {
    && (forall n :: n in a ==> n in b && b[n] == a[n])
    && (forall n :: n in b ==> n in a || (n.OfLayer? && n.layer == l && lo <= Stage(n.value) < hi))
  }

  lemma GrownThen(a: Env, b: Env, c: Env, l: nat, lo: nat, mid: nat, end: nat, hi: nat)
    requires Grown(a, b, l, lo, hi) && Grown(b, c, l, mid, end) && lo <= mid <= end <= hi
    ensures Grown(a, c, l, lo, hi) && forall n :: n in b ==> n in c && c[n] == b[n]
  {
  }

  /** No value of layer l of this stage or a later one is defined yet. */
  ghost predicate Free(env: Env, l: nat, stage: nat) {
    forall v :: Stage(v) >= stage ==> OfLayer(v, l) !in env
  }

  /** What layers may use: per-layer embeddings and visual embeddings, where the model has them. */
  ghost predicate Supplied(meta: ModelMeta, hasPle: bool, env: Env) {
    && (hasPle ==> PerLayerCombined in env && env[PerLayerCombined] == PleTerm(meta))
    && (meta.hasVisionEncoder ==> VisualEmbeddings in env && env[VisualEmbeddings] == VisualTerm())
  }

  function Op1(kind: Kind, input: Name, output: Name): Operator {
    Operator(kind, [input], [output])
  }

  function Op2(kind: Kind, lhs: Name, rhs: Name, output: Name): Operator {
    Operator(kind, [lhs, rhs], [output])
  }

  /** Adds an operator with one input. */
  method Emit1(graph: ComputeGraph, kind: Kind, input: Name, output: Name)
    requires graph.Ready() && input in graph.Env() && output !in graph.Env() && output != SplicedVisual
    requires !kind.PagedAttention? && !kind.DeepStackFuse? && !kind.AudioEmbed? && Ports(kind) == 1
    modifies graph
    ensures graph.Ready()
    ensures graph.Env() == old(graph.Env())[output := One(kind, old(graph.Env())[input])]
    ensures graph.ops == old(graph.ops) + [Op1(kind, input, output)]
    ensures Attended(graph.ops) == old(Attended(graph.ops))
  {
    hide Build, AudioFed, Attended;
    var op := Op1(kind, input, output);
    assert Reads(graph.meta, op) == [input] && Args(graph.Env(), [input]) == [graph.Env()[input]];
    graph.AddOp(op);
  }

  /** Adds a projection by one of the layer's weights. */
  method EmitLinear(graph: ComputeGraph, layer: LayerTensors, weight: Part, bias: Part, input: Name, output: Name)
    requires graph.Ready() && input in graph.Env() && output !in graph.Env() && output != SplicedVisual
    modifies graph
    ensures graph.Ready() && Attended(graph.ops) == old(Attended(graph.ops))
    ensures graph.Env() == old(graph.Env())[output := One(Linear(layer, weight, bias), old(graph.Env())[input])]
  {
    hide ComputeGraph.Ready, ComputeGraph.Valid, ComputeGraph.Env, Attended;
    Emit1(graph, Linear(layer, weight, bias), input, output);
  }

  /** Adds an operator with two inputs. */
  method Emit2(graph: ComputeGraph, kind: Kind, lhs: Name, rhs: Name, output: Name)
    requires graph.Ready() && lhs in graph.Env() && rhs in graph.Env() && output !in graph.Env()
      && output != SplicedVisual
    requires !kind.PagedAttention? && !kind.DeepStackFuse? && !kind.AudioEmbed? && Ports(kind) == 1
    modifies graph
    ensures graph.Ready()
    ensures graph.Env() == old(graph.Env())[output := Two(kind, old(graph.Env())[lhs], old(graph.Env())[rhs])]
    ensures graph.ops == old(graph.ops) + [Op2(kind, lhs, rhs, output)]
    ensures Attended(graph.ops) == old(Attended(graph.ops))
  {
    hide Build, AudioFed, Attended;
    var op := Op2(kind, lhs, rhs, output);
    assert Reads(graph.meta, op) == [lhs, rhs];
    assert Args(graph.Env(), [lhs, rhs]) == [graph.Env()[lhs], graph.Env()[rhs]];
    graph.AddOp(op);
  }

  /** Adds a norm where the layer has a weight for it; the result is the tensor to go on with. */
  method EmitNorm(graph: ComputeGraph, layer: LayerTensors, part: Part, eps: real, input: Name, output: Name)
      returns (r: Name)
    requires graph.Ready() && input in graph.Env() && output !in graph.Env() && output != SplicedVisual
    modifies graph
    ensures graph.Ready() && Attended(graph.ops) == old(Attended(graph.ops))
    ensures r == if part in layer.parts then output else input
    ensures graph.Env() == old(graph.Env())[r := IfPresent(layer, part, eps, old(graph.Env())[input])]
  {
    hide ComputeGraph.Ready, ComputeGraph.Valid, ComputeGraph.Env, Attended;
    r := input;
    if part in layer.parts {
      Emit1(graph, RMSNorm(layer.parts[part], eps), input, output);
      r := output;
    }
  }

  // ------------------------------------------------------------------ one layer

  /** Input norm, projections, and the query and key norms where the model has them. */
  method AddProjections(graph: ComputeGraph, meta: ModelMeta, layer: LayerTensors, input: Name)
      returns (q: Name, k: Name)
    requires graph.meta == meta && graph.Ready() && input in graph.Env()
    requires Free(graph.Env(), layer.index, 0)
    modifies graph
    ensures graph.Ready() && Grown(old(graph.Env()), graph.Env(), layer.index, 0, 1)
    ensures Attended(graph.ops) == old(Attended(graph.ops))
    ensures var normed := One(RMSNorm(Weight(layer, InputLayernorm), meta.rmsNormEps), old(graph.Env())[input]);
      && q in graph.Env() && graph.Env()[q] == QTerm(layer, normed)
      && (!meta.IsKvShared(layer.index) ==>
            && k in graph.Env() && graph.Env()[k] == KTerm(layer, normed)
            && OfLayer(V, layer.index) in graph.Env() && graph.Env()[OfLayer(V, layer.index)] == VTerm(layer, normed))
  {
    hide ComputeGraph.Valid, ComputeGraph.Env, Attended, ModelMeta.IsKvShared, IfPresent, Linear, Weight, Grown,
         AudioFed;
    var l := layer.index;
    ghost var was := graph.Env();
    var preNorm := OfLayer(PreNorm, l);
    AddQkv(graph, meta, layer, input);
    ghost var mid := graph.Env();
    q, k := AddQkNorms(graph, layer, !meta.IsKvShared(l));
    GrownThen(was, mid, graph.Env(), l, 0, 0, 1, 1);
  }

  method AddQkv(graph: ComputeGraph, meta: ModelMeta, layer: LayerTensors, input: Name)
    requires graph.meta == meta && graph.Ready() && input in graph.Env()
    requires Free(graph.Env(), layer.index, 0)
    modifies graph
    ensures graph.Ready() && Grown(old(graph.Env()), graph.Env(), layer.index, 0, 1)
    ensures Attended(graph.ops) == old(Attended(graph.ops))
    ensures OfLayer(QNormed, layer.index) !in graph.Env() && OfLayer(KNormed, layer.index) !in graph.Env()
    ensures var normed := One(RMSNorm(Weight(layer, InputLayernorm), meta.rmsNormEps), old(graph.Env())[input]);
      var l := layer.index;
      && OfLayer(Q, l) in graph.Env() && graph.Env()[OfLayer(Q, l)] == One(Linear(layer, QProj, QBias), normed)
      && (!meta.IsKvShared(l) ==>
            && OfLayer(K, l) in graph.Env() && graph.Env()[OfLayer(K, l)] == One(Linear(layer, KProj, KBias), normed)
            && OfLayer(V, l) in graph.Env() && graph.Env()[OfLayer(V, l)] == VTerm(layer, normed))
  {
    hide ComputeGraph.Ready, ComputeGraph.Valid, ComputeGraph.Env, Attended, ModelMeta.IsKvShared, IfPresent, Linear,
         Weight, VTerm;
    var l := layer.index;
    var preNorm := OfLayer(PreNorm, l);
    Emit1(graph, RMSNorm(Weight(layer, InputLayernorm), meta.rmsNormEps), input, preNorm);
    EmitLinear(graph, layer, QProj, QBias, preNorm, OfLayer(Q, l));
    if !meta.IsKvShared(l) {
      AddKeysValues(graph, layer, preNorm);
    }
  }

  method AddQkNorms(graph: ComputeGraph, layer: LayerTensors, both: bool) returns (q: Name, k: Name)
    requires graph.Ready() && OfLayer(Q, layer.index) in graph.Env()
      && (both ==> OfLayer(K, layer.index) in graph.Env())
    requires OfLayer(QNormed, layer.index) !in graph.Env() && OfLayer(KNormed, layer.index) !in graph.Env()
    modifies graph
    ensures graph.Ready() && Grown(old(graph.Env()), graph.Env(), layer.index, 0, 1)
    ensures Attended(graph.ops) == old(Attended(graph.ops))
    ensures q in graph.Env()
    ensures graph.Env()[q] == IfPresent(layer, QNorm, QK_EPS, old(graph.Env())[OfLayer(Q, layer.index)])
    ensures both ==> k in graph.Env()
    ensures both ==> graph.Env()[k] == IfPresent(layer, KNorm, QK_EPS, old(graph.Env())[OfLayer(K, layer.index)])
  {
    hide ComputeGraph.Ready, ComputeGraph.Valid, ComputeGraph.Env, Attended;
    var l := layer.index;
    q := EmitNorm(graph, layer, QNorm, QK_EPS, OfLayer(Q, l), OfLayer(QNormed, l));
    k := OfLayer(K, l);
    if both {
      k := EmitNorm(graph, layer, KNorm, QK_EPS, k, OfLayer(KNormed, l));
    }
  }

  method AddKeysValues(graph: ComputeGraph, layer: LayerTensors, normed: Name)
    requires graph.Ready() && OfLayer(K, layer.index) !in graph.Env() && OfLayer(V, layer.index) !in graph.Env()
      && normed in graph.Env()
    modifies graph
    ensures graph.Ready() && Attended(graph.ops) == old(Attended(graph.ops))
    ensures graph.Env() == old(graph.Env())
      [OfLayer(K, layer.index) := One(Linear(layer, KProj, KBias), old(graph.Env())[normed])]
      [OfLayer(V, layer.index) := VTerm(layer, old(graph.Env())[normed])]
  {
    hide ComputeGraph.Ready, ComputeGraph.Valid, ComputeGraph.Env, Attended;
    EmitLinear(graph, layer, KProj, KBias, normed, OfLayer(K, layer.index));
    EmitLinear(graph, layer, VProj, VBias, normed, OfLayer(V, layer.index));
  }

  /** Rotary embedding and attention; a shared layer brings only its query. */
  method AddAttention(graph: ComputeGraph, meta: ModelMeta, layer: LayerTensors, q: Name, k: Name,
                      ghost qt: Term, ghost kt: Term, ghost vt: Term)
    requires graph.meta == meta && graph.Ready() && Free(graph.Env(), layer.index, 1)
    requires q in graph.Env() && graph.Env()[q] == qt
    requires !meta.IsKvShared(layer.index) ==>
      && k in graph.Env() && graph.Env()[k] == kt
      && OfLayer(V, layer.index) in graph.Env() && graph.Env()[OfLayer(V, layer.index)] == vt
    modifies graph
    ensures graph.Ready() && Grown(old(graph.Env()), graph.Env(), layer.index, 1, 2)
    ensures Attended(graph.ops) == old(Attended(graph.ops)) + [layer.index]
    ensures OfLayer(AttnOut, layer.index) in graph.Env()
    ensures graph.Env()[OfLayer(AttnOut, layer.index)] == AttentionTerm(meta, layer, qt, kt, vt)
  {
    hide ComputeGraph.Ready, ComputeGraph.Valid, ComputeGraph.Env, Attended, ModelMeta.IsKvShared, AttentionKind,
         RopeKind, ModelMeta.SkipsRope, ModelMeta.RopeTheta;
    var l := layer.index;
    if meta.IsKvShared(l) {
      Emit1(graph, RopeQKind(meta, l), q, OfLayer(QRope, l));
    } else {
      AddRope(graph, meta, l, q, k);
    }
    Attend(graph, meta, l);
  }

  /** The attention operator reads the rotated query and, unless shared, the rotated key and the value. */
  method Attend(graph: ComputeGraph, meta: ModelMeta, l: nat)
    requires graph.meta == meta && graph.Ready() && OfLayer(QRope, l) in graph.Env()
    requires OfLayer(AttnOut, l) !in graph.Env()
    requires !meta.IsKvShared(l) ==> OfLayer(KRope, l) in graph.Env() && OfLayer(V, l) in graph.Env()
    modifies graph
    ensures graph.Ready() && Attended(graph.ops) == old(Attended(graph.ops)) + [l]
    ensures graph.Env() == old(graph.Env())[OfLayer(AttnOut, l) :=
      if meta.IsKvShared(l) then One(AttentionKind(meta, l), old(graph.Env())[OfLayer(QRope, l)])
      else Apply(AttentionKind(meta, l), [old(graph.Env())[OfLayer(QRope, l)], old(graph.Env())[OfLayer(KRope, l)],
                                          old(graph.Env())[OfLayer(V, l)]], 0)]
  {
    hide ComputeGraph.Valid, ComputeGraph.Env, AudioFed, Attended, ModelMeta.IsKvShared;
    var qRope, kRope := OfLayer(QRope, l), OfLayer(KRope, l);
    var attend := Operator(AttentionKind(meta, l), [qRope, kRope, OfLayer(V, l)], [OfLayer(AttnOut, l)]);
    if meta.IsKvShared(l) {
      assert Args(graph.Env(), [qRope]) == [graph.Env()[qRope]];
    } else {
      assert Args(graph.Env(), attend.inputs) ==
        [graph.Env()[qRope], graph.Env()[kRope], graph.Env()[OfLayer(V, l)]];
      assert Reads(meta, attend) == attend.inputs;
    }
    graph.AddOp(attend);
  }

  method AddRope(graph: ComputeGraph, meta: ModelMeta, l: nat, q: Name, k: Name)
    requires graph.Ready() && q in graph.Env() && k in graph.Env()
    requires OfLayer(QRope, l) !in graph.Env() && OfLayer(KRope, l) !in graph.Env()
    modifies graph
    ensures graph.Ready() && Attended(graph.ops) == old(Attended(graph.ops))
    ensures graph.Env() == old(graph.Env())
      [OfLayer(QRope, l) := Apply(RopeKind(meta, l), [old(graph.Env())[q], old(graph.Env())[k]], 0)]
      [OfLayer(KRope, l) := Apply(RopeKind(meta, l), [old(graph.Env())[q], old(graph.Env())[k]], 1)]
  {
    hide ComputeGraph.Valid, ComputeGraph.Env, AudioFed, Attended, ModelMeta.SkipsRope, ModelMeta.RopeTheta;
    var rotate := Operator(RopeKind(meta, l), [q, k], [OfLayer(QRope, l), OfLayer(KRope, l)]);
    assert Reads(graph.meta, rotate) == [q, k];
    assert Args(graph.Env(), [q, k]) == [graph.Env()[q], graph.Env()[k]];
    graph.AddOp(rotate);
  }

  /** Output projection and the residual addition. */
  method AddResidual(graph: ComputeGraph, meta: ModelMeta, layer: LayerTensors, input: Name)
    requires graph.Ready() && Free(graph.Env(), layer.index, 2)
    requires input in graph.Env() && OfLayer(AttnOut, layer.index) in graph.Env()
    modifies graph
    ensures graph.Ready() && Grown(old(graph.Env()), graph.Env(), layer.index, 2, 3)
    ensures Attended(graph.ops) == old(Attended(graph.ops))
    ensures OfLayer(PostAttn, layer.index) in graph.Env()
    ensures graph.Env()[OfLayer(PostAttn, layer.index)] ==
      Two(Add, old(graph.Env())[input], IfPresent(layer, PostAttentionNorm, meta.rmsNormEps,
            One(Linear(layer, OProj, OBias), old(graph.Env())[OfLayer(AttnOut, layer.index)])))
  {
    hide ComputeGraph.Ready, ComputeGraph.Valid, ComputeGraph.Env, Attended, IfPresent, Linear;
    var l := layer.index;
    EmitLinear(graph, layer, OProj, OBias, OfLayer(AttnOut, l), OfLayer(O, l));
    var normed := EmitNorm(graph, layer, PostAttentionNorm, meta.rmsNormEps, OfLayer(O, l), OfLayer(ONormed, l));
    Emit2(graph, Add, input, normed, OfLayer(PostAttn, l));
  }

  /** The feed-forward block; the result is the tensor to add back. */
  method AddMlp(graph: ComputeGraph, meta: ModelMeta, layer: LayerTensors) returns (out: Name)
    requires graph.Ready() && Free(graph.Env(), layer.index, 3)
    requires OfLayer(PostAttn, layer.index) in graph.Env()
    modifies graph
    ensures graph.Ready() && Grown(old(graph.Env()), graph.Env(), layer.index, 3, 6)
    ensures Attended(graph.ops) == old(Attended(graph.ops))
    ensures out in graph.Env()
    ensures graph.Env()[out] == MlpTerm(meta, layer, old(graph.Env())[OfLayer(PostAttn, layer.index)])
  {
    hide ComputeGraph.Valid, ComputeGraph.Env, Attended, AudioFed, IfPresent, InterTerm, Linear, Weight;
    var l := layer.index;
    ghost var was := graph.Env();
    var normed := OfLayer(PostNorm, l);
    Emit1(graph, RMSNorm(Weight(layer, PostAttentionLayernorm), meta.rmsNormEps), OfLayer(PostAttn, l), normed);
    ghost var mid := graph.Env();
    assert Grown(was, mid, l, 3, 6) && Free(mid, l, 4);
    var inter := AddInter(graph, meta, layer, normed);
    GrownThen(was, mid, graph.Env(), l, 3, 4, 5, 6);
    assert Free(graph.Env(), l, 5);
    hide Grown, Free;
    AddDown(graph, meta, layer, inter, was);
    out := if PostFfwNorm in layer.parts then OfLayer(MlpOutNormed, l) else OfLayer(MlpOut, l);
  }

  method AddDown(graph: ComputeGraph, meta: ModelMeta, layer: LayerTensors, inter: Name, ghost was: Env)
    requires graph.Ready() && Free(graph.Env(), layer.index, 5) && inter in graph.Env()
    requires Grown(was, graph.Env(), layer.index, 3, 6)
    modifies graph
    ensures graph.Ready() && Grown(was, graph.Env(), layer.index, 3, 6)
    ensures Attended(graph.ops) == old(Attended(graph.ops))
    ensures var out := OfLayer(if PostFfwNorm in layer.parts then MlpOutNormed else MlpOut, layer.index);
      && out in graph.Env()
      && graph.Env()[out] == IfPresent(layer, PostFfwNorm, meta.rmsNormEps,
           One(Linear(layer, DownProj, DownBias), old(graph.Env())[inter]))
  {
    hide ComputeGraph.Ready, ComputeGraph.Valid, ComputeGraph.Env, Attended, IfPresent, Linear, Weight;
    var l := layer.index;
    EmitLinear(graph, layer, DownProj, DownBias, inter, OfLayer(MlpOut, l));
    var out := EmitNorm(graph, layer, PostFfwNorm, meta.rmsNormEps, OfLayer(MlpOut, l), OfLayer(MlpOutNormed, l));
  }

  /** What the down projection is applied to: gated or not. */
  method AddInter(graph: ComputeGraph, meta: ModelMeta, layer: LayerTensors, normed: Name) returns (inter: Name)
    requires graph.Ready() && Free(graph.Env(), layer.index, 4) && normed in graph.Env()
    modifies graph
    ensures graph.Ready() && Grown(old(graph.Env()), graph.Env(), layer.index, 4, 5)
    ensures Attended(graph.ops) == old(Attended(graph.ops))
    ensures inter in graph.Env() && graph.Env()[inter] == InterTerm(meta, layer, old(graph.Env())[normed])
  {
    hide ComputeGraph.Ready, ComputeGraph.Valid, ComputeGraph.Env, Attended, Linear, Weight;
    var l := layer.index;
    if GateProj in layer.parts {
      inter := AddGated(graph, meta, layer, normed);
    } else {
      EmitLinear(graph, layer, UpProj, UpBias, normed, OfLayer(Up, l));
      Emit1(graph, Activation(meta.hiddenAct), OfLayer(Up, l), OfLayer(Act, l));
      inter := OfLayer(Act, l);
    }
  }

  method AddGated(graph: ComputeGraph, meta: ModelMeta, layer: LayerTensors, normed: Name) returns (inter: Name)
    requires graph.Ready() && Free(graph.Env(), layer.index, 4) && normed in graph.Env() && GateProj in layer.parts
    modifies graph
    ensures graph.Ready() && Grown(old(graph.Env()), graph.Env(), layer.index, 4, 5)
    ensures Attended(graph.ops) == old(Attended(graph.ops))
    ensures inter in graph.Env() && graph.Env()[inter] == InterTerm(meta, layer, old(graph.Env())[normed])
  {
    hide ComputeGraph.Ready, ComputeGraph.Valid, ComputeGraph.Env, Attended, Linear, Weight;
    var l := layer.index;
    EmitLinear(graph, layer, GateProj, GateBias, normed, OfLayer(Gate, l));
    EmitLinear(graph, layer, UpProj, UpBias, normed, OfLayer(Up, l));
    Emit1(graph, Activation(meta.hiddenAct), OfLayer(Gate, l), OfLayer(Act, l));
    inter := OfLayer(MlpInter, l);
    Emit2(graph, Mul, OfLayer(Act, l), OfLayer(Up, l), inter);
  }

  /** The second residual, and what comes after it. */
  method AddFinish(graph: ComputeGraph, meta: ModelMeta, hasPle: bool, layer: LayerTensors, mlp: Name)
      returns (out: Name)
    requires graph.Ready() && Free(graph.Env(), layer.index, 6)
    requires OfLayer(PostAttn, layer.index) in graph.Env() && mlp in graph.Env()
    requires Supplied(meta, hasPle, graph.Env())
    modifies graph
    ensures graph.Ready() && Grown(old(graph.Env()), graph.Env(), layer.index, 6, 8)
    ensures Attended(graph.ops) == old(Attended(graph.ops))
    ensures out in graph.Env() && graph.Env()[out] == FinishTerm(meta, hasPle, layer,
      old(graph.Env())[OfLayer(PostAttn, layer.index)], old(graph.Env())[mlp])
  {
    hide ComputeGraph.Valid, ComputeGraph.Env, Attended, AudioFed, PleTerm, VisualTerm, SumTerm, EndTerm;
    out := AddSum(graph, meta, hasPle, layer, mlp);
    out := AddEnd(graph, meta, layer, out);
  }

  method AddSum(graph: ComputeGraph, meta: ModelMeta, hasPle: bool, layer: LayerTensors, mlp: Name) returns (out: Name)
    requires graph.Ready() && Free(graph.Env(), layer.index, 6)
    requires OfLayer(PostAttn, layer.index) in graph.Env() && mlp in graph.Env()
    requires Supplied(meta, hasPle, graph.Env())
    modifies graph
    ensures graph.Ready() && Grown(old(graph.Env()), graph.Env(), layer.index, 6, 7)
    ensures Attended(graph.ops) == old(Attended(graph.ops))
    ensures out in graph.Env() && graph.Env()[out] == SumTerm(meta, hasPle, layer,
      old(graph.Env())[OfLayer(PostAttn, layer.index)], old(graph.Env())[mlp])
  {
    hide ComputeGraph.Ready, ComputeGraph.Valid, ComputeGraph.Env, Attended, PleTerm, VisualTerm, Scaling, PleAt,
         PleLayerKind;
    AddScaledSum(graph, meta, layer, mlp);
    out := EmitPleLayer(graph, hasPle, layer, OfLayer(Out, layer.index), OfLayer(PleOut, layer.index));
  }

  /** The residual addition, of the scaled feed-forward output where there are no per-layer embeddings. */
  method AddScaledSum(graph: ComputeGraph, meta: ModelMeta, layer: LayerTensors, mlp: Name)
    requires graph.Ready() && Free(graph.Env(), layer.index, 6)
    requires OfLayer(PostAttn, layer.index) in graph.Env() && mlp in graph.Env()
    modifies graph
    ensures graph.Ready() && Grown(old(graph.Env()), graph.Env(), layer.index, 6, 7)
    ensures Attended(graph.ops) == old(Attended(graph.ops))
    ensures OfLayer(Out, layer.index) in graph.Env() && OfLayer(PleOut, layer.index) !in graph.Env()
    ensures graph.Env()[OfLayer(Out, layer.index)] == Two(Add, old(graph.Env())[OfLayer(PostAttn, layer.index)],
      if meta.pleDim.Some? then old(graph.Env())[mlp] else Scaling(layer, old(graph.Env())[mlp]))
  {
    hide ComputeGraph.Ready, ComputeGraph.Valid, ComputeGraph.Env, Attended, Scaling;
    var l := layer.index;
    var toAdd := mlp;
    if meta.pleDim.None? {
      toAdd := EmitScaling(graph, layer, mlp, OfLayer(MlpScaled, l));
    }
    Emit2(graph, Add, OfLayer(PostAttn, l), toAdd, OfLayer(Out, l));
  }

  /** Adds the per-layer embedding where the layer has all its weights. */
  method EmitPleLayer(graph: ComputeGraph, hasPle: bool, layer: LayerTensors, input: Name, output: Name)
      returns (r: Name)
    requires graph.Ready() && input in graph.Env() && output !in graph.Env() && output != SplicedVisual
    requires hasPle ==> PerLayerCombined in graph.Env()
    modifies graph
    ensures graph.Ready() && Attended(graph.ops) == old(Attended(graph.ops))
    ensures r == if hasPle && PleAt(layer) then output else input
    ensures graph.Env() == if hasPle && PleAt(layer)
      then old(graph.Env())[r := Two(PleLayerKind(layer), old(graph.Env())[input], old(graph.Env())[PerLayerCombined])]
      else old(graph.Env())
  {
    hide ComputeGraph.Ready, ComputeGraph.Valid, ComputeGraph.Env, Attended, PleAt;
    r := input;
    if hasPle && PleAt(layer) {
      Emit2(graph, PleLayerKind(layer), input, PerLayerCombined, output);
      r := output;
    }
  }

  method AddEnd(graph: ComputeGraph, meta: ModelMeta, layer: LayerTensors, input: Name) returns (out: Name)
    requires graph.Ready() && Free(graph.Env(), layer.index, 7) && input in graph.Env()
    requires meta.hasVisionEncoder ==> VisualEmbeddings in graph.Env() && graph.Env()[VisualEmbeddings] == VisualTerm()
    modifies graph
    ensures graph.Ready() && Grown(old(graph.Env()), graph.Env(), layer.index, 7, 8)
    ensures Attended(graph.ops) == old(Attended(graph.ops))
    ensures out in graph.Env() && graph.Env()[out] == EndTerm(meta, layer, old(graph.Env())[input])
  {
    hide ComputeGraph.Valid, ComputeGraph.Env, Attended, AudioFed, VisualTerm, Scaling;
    var l := layer.index;
    out := input;
    if meta.pleDim.Some? {
      out := EmitScaling(graph, layer, out, OfLayer(OutScaled, l));
    }
    if meta.hasVisionEncoder && meta.IsDeepstack(l) {
      AddFuse(graph, l, out);
      out := OfLayer(Fused, l);
    }
  }

  /** Adds the output scale where the layer has one. */
  method EmitScaling(graph: ComputeGraph, layer: LayerTensors, input: Name, output: Name) returns (r: Name)
    requires graph.Ready() && input in graph.Env() && output !in graph.Env() && output != SplicedVisual
    modifies graph
    ensures graph.Ready() && Attended(graph.ops) == old(Attended(graph.ops))
    ensures r == if LayerOutputScale in layer.parts then output else input
    ensures graph.Env() == old(graph.Env())[r := Scaling(layer, old(graph.Env())[input])]
    ensures r == input ==> graph.Env() == old(graph.Env())
  {
    hide ComputeGraph.Ready, ComputeGraph.Valid, ComputeGraph.Env, Attended;
    r := input;
    if LayerOutputScale in layer.parts {
      Emit1(graph, TensorScale(layer.parts[LayerOutputScale]), input, output);
      r := output;
    }
  }

  method AddFuse(graph: ComputeGraph, l: nat, input: Name)
    requires graph.Ready() && OfLayer(Fused, l) !in graph.Env()
    requires input in graph.Env() && VisualEmbeddings in graph.Env()
    modifies graph
    ensures graph.Ready() && Attended(graph.ops) == old(Attended(graph.ops))
    ensures graph.Env() == old(graph.Env())[OfLayer(Fused, l) :=
      Two(DeepStackFuse(l), old(graph.Env())[input], old(graph.Env())[VisualEmbeddings])]
  {
    hide Build, AudioFed, Attended;
    var op := Op1(DeepStackFuse(l), input, OfLayer(Fused, l));
    assert Reads(graph.meta, op) == [input, VisualEmbeddings];
    assert Args(graph.Env(), [input, VisualEmbeddings]) == [graph.Env()[input], graph.Env()[VisualEmbeddings]];
    graph.AddOp(op);
  }

  /** Everything a layer defines carries its number. */
  ghost predicate LayerGrown(a: Env, b: Env, l: nat) {
    && (forall n :: n in a ==> n in b && b[n] == a[n])
    && (forall n :: n in b ==> n in a || (n.OfLayer? && n.layer == l))
  }

  /** Nothing of layer l or later is defined yet, nor any of the final names. */
  ghost predicate FreeFrom(env: Env, l: nat) {
    && (forall v, k :: k >= l ==> OfLayer(v, k) !in env)
    && FinalNormOut !in env && RawLogits !in env && Logits !in env
  }

  method AddLayer(graph: ComputeGraph, meta: ModelMeta, hasPle: bool, layer: LayerTensors, input: Name)
      returns (out: Name)
    requires graph.meta == meta && graph.Ready() && input in graph.Env()
    requires FreeFrom(graph.Env(), layer.index) && Supplied(meta, hasPle, graph.Env())
    modifies graph
    ensures graph.Ready() && LayerGrown(old(graph.Env()), graph.Env(), layer.index)
    ensures Attended(graph.ops) == old(Attended(graph.ops)) + [layer.index]
    ensures out in graph.Env() && graph.Env()[out] == LayerTerm(meta, hasPle, layer, old(graph.Env())[input])
  {
    hide ComputeGraph.Valid, ComputeGraph.Env, Attended, Grown, Free, FreeFrom, Supplied, LayerGrown, AudioFed;
    hide QTerm, KTerm, VTerm, AttentionTerm, MlpTerm, FinishTerm, IfPresent;
    var l := layer.index;
    ghost var e0 := graph.Env();
    ghost var normed := One(RMSNorm(Weight(layer, InputLayernorm), meta.rmsNormEps), e0[input]);
    ghost var qt, kt, vt := QTerm(layer, normed), KTerm(layer, normed), VTerm(layer, normed);
    StartLayer(e0, l);
    var q, k := AddProjections(graph, meta, layer, input);
    ghost var e1 := graph.Env();
    GrowOn(meta, hasPle, e0, e0, e1, l, 0, 1);
    AddAttention(graph, meta, layer, q, k, qt, kt, vt);
    ghost var e2 := graph.Env();
    GrowOn(meta, hasPle, e0, e1, e2, l, 1, 2);
    AddResidual(graph, meta, layer, input);
    ghost var e3 := graph.Env();
    GrowOn(meta, hasPle, e0, e2, e3, l, 2, 3);
    var mlp := AddMlp(graph, meta, layer);
    ghost var e4 := graph.Env();
    GrowOn(meta, hasPle, e0, e3, e4, l, 3, 6);
    out := AddFinish(graph, meta, hasPle, layer, mlp);
    GrowOn(meta, hasPle, e0, e4, graph.Env(), l, 6, 8);
    EndLayer(e0, graph.Env(), l);
  }

  lemma StartLayer(e: Env, l: nat)
    requires FreeFrom(e, l)
    ensures Grown(e, e, l, 0, 0) && Free(e, l, 0)
  {
  }

  /** What has been added so far, one part further; the next part's names are still free. */
  lemma GrowOn(meta: ModelMeta, hasPle: bool, e0: Env, e1: Env, e2: Env, l: nat, lo: nat, hi: nat)
    requires FreeFrom(e0, l) && Supplied(meta, hasPle, e0)
    requires Grown(e0, e1, l, 0, lo) && Grown(e1, e2, l, lo, hi) && lo <= hi
    ensures Grown(e0, e2, l, 0, hi) && Free(e2, l, hi) && Supplied(meta, hasPle, e2)
    ensures forall n :: n in e0 ==> n in e2 && e2[n] == e0[n]
    ensures forall n :: n in e1 ==> n in e2 && e2[n] == e1[n]
  {
    hide PleTerm, VisualTerm;
  }

  lemma EndLayer(e0: Env, e1: Env, l: nat)
    requires Grown(e0, e1, l, 0, 8)
    ensures LayerGrown(e0, e1, l)
  {
  }

  // ------------------------------------------------------------------ the whole graph

  /** A name that may be defined before the per-layer embeddings and the layers. */
  predicate IsEarly(n: Name) {
    !n.OfLayer? && !n.PerLayerCombined? && !n.FinalNormOut? && !n.RawLogits? && !n.Logits?
  }

  /** Embedding, the spliced encoders, and the embedding scale. */
  method AddEmbedding(graph: ComputeGraph, meta: ModelMeta) returns (hidden: Name)
    requires graph.meta == meta && graph.Ready() && graph.ops == []
    modifies graph
    ensures graph.Ready() && Attended(graph.ops) == []
    ensures forall n :: n in graph.Env() ==> IsEarly(n)
    ensures meta.hasVisionEncoder ==>
      VisualEmbeddings in graph.Env() && graph.Env()[VisualEmbeddings] == VisualTerm()
    ensures hidden in graph.Env() && graph.Env()[hidden] == EmbeddedTerm(meta)
    ensures InputIds in graph.Env() && graph.Env()[InputIds] == Input(InputIds)
  {
    hide ComputeGraph.Ready, ComputeGraph.Valid, ComputeGraph.Env, Attended, SeenTerm, VisualTerm;
    hidden := AddSeen(graph, meta);
    if meta.hasAudioEncoder {
      AddAudio(graph, hidden);
      hidden := SplicedAudio;
    }
    hidden := EmitScale(graph, meta, hidden);
  }

  /** The text embeddings, with the visual ones spliced in where there are any. */
  method AddSeen(graph: ComputeGraph, meta: ModelMeta) returns (hidden: Name)
    requires graph.meta == meta && graph.Ready() && graph.ops == []
    modifies graph
    ensures graph.Ready() && Attended(graph.ops) == []
    ensures forall n :: n in graph.Env() ==> n.TextEmbeddings? || IsVisual(n) || n in Fed(meta)
    ensures meta.hasVisionEncoder ==>
      VisualEmbeddings in graph.Env() && graph.Env()[VisualEmbeddings] == VisualTerm()
    ensures IsWidthSource(hidden) && hidden in graph.Env() && graph.Env()[hidden] == SeenTerm(meta)
    ensures InputIds in graph.Env() && graph.Env()[InputIds] == Input(InputIds)
    ensures meta.hasAudioEncoder ==> AudioValues in graph.Env() && graph.Env()[AudioValues] == Input(AudioValues)
  {
    hide ComputeGraph.Ready, ComputeGraph.Valid, AudioFed, Build, Attended, Terms, CanAdd, Extend, Reads, Declared;
    GraphFed(graph);
    hide ComputeGraph.Env;
    hidden := TextEmbeddings;
    Emit1(graph, Embed(EmbedTokens), InputIds, TextEmbeddings);
    if meta.hasVisionEncoder {
      AddVision(graph);
      hidden := SplicedVisual;
    }
  }

  predicate IsVisual(n: Name) {
    n.VisualEmbeddings? || n.SplicedVisual?
  }

  method EmitScale(graph: ComputeGraph, meta: ModelMeta, input: Name) returns (r: Name)
    requires graph.Ready() && input in graph.Env() && Scaled(input) !in graph.Env()
    modifies graph
    ensures graph.Ready() && Attended(graph.ops) == old(Attended(graph.ops))
    ensures r == if meta.embedScale.Some? then Scaled(input) else input
    ensures graph.Env() == if meta.embedScale.None? then old(graph.Env())
      else old(graph.Env())[r := One(Scale(meta.embedScale.value), old(graph.Env())[input])]
  {
    hide ComputeGraph.Ready, ComputeGraph.Valid, ComputeGraph.Env, Attended;
    r := input;
    if meta.embedScale.Some? {
      Emit1(graph, Scale(meta.embedScale.value), input, Scaled(input));
      r := Scaled(input);
    }
  }

  lemma GraphFed(graph: ComputeGraph)
    requires graph.Ready() && graph.ops == []
    ensures graph.Valid() && Attended(graph.ops) == []
    ensures graph.Env() == map n | n in Fed(graph.meta) :: Input(n)
  {
  }

  method AddVision(graph: ComputeGraph)
    requires graph.Ready() && TextEmbeddings in graph.Env() && PixelValues in graph.Env()
    requires VisualEmbeddings !in graph.Env() && SplicedVisual !in graph.Env()
    modifies graph
    ensures graph.Ready() && Attended(graph.ops) == old(Attended(graph.ops))
    ensures graph.Env() == old(graph.Env())
      [VisualEmbeddings := One(VisualEmbed, old(graph.Env())[PixelValues])]
      [SplicedVisual := Two(SpliceTensors, old(graph.Env())[TextEmbeddings],
        One(VisualEmbed, old(graph.Env())[PixelValues]))]
  {
    hide Build, AudioFed, Attended, ComputeGraph.Env;
    Emit1(graph, VisualEmbed, PixelValues, VisualEmbeddings);
    var splice := Op2(SpliceTensors, TextEmbeddings, VisualEmbeddings, SplicedVisual);
    assert Reads(graph.meta, splice) == [TextEmbeddings, VisualEmbeddings];
    assert Args(graph.Env(), [TextEmbeddings, VisualEmbeddings]) ==
      [graph.Env()[TextEmbeddings], graph.Env()[VisualEmbeddings]];
    graph.AddOp(splice);
  }

  /** The audio operator and the splice that keeps an embedding for it to measure. */
  method AddAudio(graph: ComputeGraph, hidden: Name)
    requires graph.Ready() && IsWidthSource(hidden) && hidden in graph.Env() && AudioValues in graph.Env()
    requires AudioEmbeddings !in graph.Env() && SplicedAudio !in graph.Env()
    modifies graph
    ensures graph.Ready() && Attended(graph.ops) == old(Attended(graph.ops))
    ensures graph.Env() == old(graph.Env())
      [AudioEmbeddings := One(AudioEmbed, old(graph.Env())[AudioValues])]
      [SplicedAudio := Two(SpliceAudioTensors, old(graph.Env())[hidden],
        One(AudioEmbed, old(graph.Env())[AudioValues]))]
  {
    hide Build, AudioFed, Attended;
    var audio := Op1(AudioEmbed, AudioValues, AudioEmbeddings);
    var splice := Op2(SpliceAudioTensors, hidden, AudioEmbeddings, SplicedAudio);
    AudioFedPair(graph.meta, graph.ops, audio, splice);
    assert Reads(graph.meta, audio) == [AudioValues];
    assert Args(graph.Env(), [AudioValues]) == [graph.Env()[AudioValues]];
    graph.AddOp(audio);
    assert Reads(graph.meta, splice) == [hidden, AudioEmbeddings];
    assert Args(graph.Env(), [hidden, AudioEmbeddings]) == [graph.Env()[hidden], graph.Env()[AudioEmbeddings]];
    graph.AddOp(splice);
  }

  /** After a layer the next one's names are free, and what layers use is still there. */
  lemma NextLayer(meta: ModelMeta, hasPle: bool, e0: Env, e1: Env, l: nat)
    requires FreeFrom(e0, l) && LayerGrown(e0, e1, l) && Supplied(meta, hasPle, e0)
    ensures FreeFrom(e1, l + 1) && Supplied(meta, hasPle, e1)
  {
    hide PleTerm, VisualTerm;
  }

  /** Final norm, language-model head and the cap on logits. */
  method AddHead(graph: ComputeGraph, meta: ModelMeta, group: TensorGroupMap, hidden: Name)
    requires graph.Ready() && hidden in graph.Env()
    requires FinalNormOut !in graph.Env() && RawLogits !in graph.Env() && Logits !in graph.Env()
    requires graph.Env()[hidden] == HiddenTerm(meta, group, |group.layers|)
    modifies graph
    ensures graph.Ready() && Attended(graph.ops) == old(Attended(graph.ops))
    ensures Logits in graph.Env() && graph.Env()[Logits] == LogitsTerm(meta, group)
    ensures |graph.ops| > 0 && graph.ops[|graph.ops| - 1].outputs == [Logits]
  {
    hide ComputeGraph.Ready, ComputeGraph.Valid, ComputeGraph.Env, Attended, HiddenTerm;
    Emit1(graph, RMSNorm(FinalNorm, meta.rmsNormEps), hidden, FinalNormOut);
    var headOut := if meta.finalLogitSoftcapping.Some? then RawLogits else Logits;
    var weight := if meta.tieWordEmbeddings then LmHead else if LmHead in group.globals then LmHead else EmbedTokens;
    Emit1(graph, MatMul(weight, None), FinalNormOut, headOut);
    if meta.finalLogitSoftcapping.Some? {
      Emit1(graph, Softcap(meta.finalLogitSoftcapping.value), headOut, Logits);
    }
  }

  function Indices(layers: seq<LayerTensors>): (r: seq<nat>)
    ensures |r| == |layers|
  {
    seq(|layers|, i requires 0 <= i < |layers| => layers[i].index)
  }

  /**
   The builder.  For layers in strictly ascending order, as scanned, the program is well formed,
   an audio operator finds an embedding to measure, attention runs layer by layer, `logits` is
   defined last, and it stands for the whole model.
   */
  method BuildGraph(meta: ModelMeta, group: TensorGroupMap) returns (graph: ComputeGraph)
    requires Ascending(group.layers)
    ensures fresh(graph) && graph.meta == meta && graph.Ready()
    ensures Attended(graph.ops) == Indices(group.layers)
    ensures |graph.ops| > 0 && graph.ops[|graph.ops| - 1].outputs == [Logits]
    ensures Logits in graph.Env() && graph.Env()[Logits] == LogitsTerm(meta, group)
  {
    hide ComputeGraph.Valid, ComputeGraph.Env, AudioFed, Attended, EmbeddedTerm, LayerTerm, LogitsTerm, PleTerm,
         VisualTerm;
    graph := new ComputeGraph(meta);
    var hidden := AddEmbedding(graph, meta);
    var hasPle := HasPle(meta, group);
    if hasPle {
      AddPle(graph, meta, hidden);
    }
    ghost var first: nat := 0;
    for i := 0 to |group.layers|
      invariant graph.Ready() && FreeFrom(graph.Env(), first) && Supplied(meta, hasPle, graph.Env())
      invariant forall k :: i <= k < |group.layers| ==> first <= group.layers[k].index
      invariant hidden in graph.Env() && graph.Env()[hidden] == HiddenTerm(meta, group, i)
      invariant Attended(graph.ops) == Indices(group.layers)[..i]
    {
      var layer := group.layers[i];
      ghost var e0 := graph.Env();
      hidden := AddLayer(graph, meta, hasPle, layer, hidden);
      NextLayer(meta, hasPle, e0, graph.Env(), layer.index);
      first := layer.index + 1;
    }
    AddHead(graph, meta, group, hidden);
  }

  method AddPle(graph: ComputeGraph, meta: ModelMeta, hidden: Name)
    requires graph.Ready() && FreeFrom(graph.Env(), 0) && PerLayerCombined !in graph.Env()
    requires hidden in graph.Env() && graph.Env()[hidden] == EmbeddedTerm(meta)
    requires InputIds in graph.Env() && graph.Env()[InputIds] == Input(InputIds)
    modifies graph
    ensures graph.Ready() && Attended(graph.ops) == old(Attended(graph.ops))
    ensures FreeFrom(graph.Env(), 0)
    ensures graph.Env() == old(graph.Env())[PerLayerCombined := PleTerm(meta)]
  {
    hide ComputeGraph.Ready, ComputeGraph.Valid, ComputeGraph.Env, Attended, EmbeddedTerm;
    Emit2(graph, PleInput(PerLayerTokenEmbd, PerLayerModelProj, PerLayerProjNorm), InputIds, hidden, PerLayerCombined);
  }

  // ------------------------------------------------------------------ shared layers

  /** Attention runs in the order of the list: what comes earlier in it is an earlier operator. */
  lemma {:induction false} AttendedInOrder(ops: seq<Operator>, a: nat, b: nat) returns (i: nat, j: nat)
    requires a < b < |Attended(ops)|
    ensures i < j < |ops| && ops[i].kind.PagedAttention? && ops[j].kind.PagedAttention?
    ensures ops[i].kind.layer == Attended(ops)[a] && ops[j].kind.layer == Attended(ops)[b]
  {
    var init, last := ops[..|ops| - 1], ops[|ops| - 1];
    if b < |Attended(init)| {
      i, j := AttendedInOrder(init, a, b);
    } else {
      i := AttendedAt(init, a);
      j := |ops| - 1;
    }
  }

  lemma {:induction false} AttendedAt(ops: seq<Operator>, a: nat) returns (i: nat)
    requires a < |Attended(ops)|
    ensures i < |ops| && ops[i].kind.PagedAttention? && ops[i].kind.layer == Attended(ops)[a]
  {
    var init := ops[..|ops| - 1];
    if a < |Attended(init)| {
      i := AttendedAt(init, a);
    } else {
      i := |ops| - 1;
    }
  }

  /**
   When all layers are there and not all are shared, a shared layer's attention comes after the
   attention of the layer whose keys and values it uses, and that layer stores its own.
   */
  lemma SourceAttendsEarlier(meta: ModelMeta, ops: seq<Operator>, l: nat)
    requires |Attended(ops)| == meta.nLayers && forall k :: 0 <= k < meta.nLayers ==> Attended(ops)[k] == k
    requires l < meta.nLayers && meta.IsKvShared(l) && meta.FirstShared() > 0
    ensures exists i, j :: 0 <= i < j < |ops| && Serves(meta, ops[i], ops[j]) && ops[j].kind.layer == l
  {
    meta.KvSource(l);
    var i, j := AttendedInOrder(ops, meta.KvSourceLayer(l), l);
    assert Serves(meta, ops[i], ops[j]);
  }

  predicate Serves(meta: ModelMeta, source: Operator, user: Operator) {
    && source.kind.PagedAttention? && user.kind.PagedAttention? && !meta.IsKvShared(source.kind.layer)
    && source.kind.layer == meta.KvSourceLayer(user.kind.layer)
  }
}
