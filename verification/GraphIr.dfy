/**
 The intermediate representation that the graph builder emits and the executor runs: a list of
 operators over named tensors.  Names are structured: a kind, and a layer where there is one.
 */
module GraphIr {
  import opened Types
  import opened ModelMetas

  /** The tensors a decoder layer may own. */
  datatype Part =
    | InputLayernorm | QProj | QBias | KProj | KBias | VProj | VBias | QNorm | KNorm | OProj | OBias
    | PostAttentionLayernorm | PostAttentionNorm | PostFfwNorm
    | GateProj | GateBias | UpProj | UpBias | DownProj | DownBias
    | PerLayerInputGate | PerLayerProjection | PostPerLayerInputNorm | LayerOutputScale

  /**
   A weight's name.  `spelling` tells apart ways to write the same layer number, 0 being the
   canonical one; a layer may own tensors that are no known part.
   */
  datatype TensorName =
    | EmbedTokens | FinalNorm | LmHead | PerLayerTokenEmbd | PerLayerModelProj | PerLayerProjNorm
    | InLayer(layer: nat, spelling: nat, part: Option<Part>)
    | Unrelated

  datatype LayerValue =
    | PreNorm | Q | K | V | QNormed | KNormed | QRope | KRope | AttnOut | O | ONormed | PostAttn
    | PostNorm | Gate | Up | Act | MlpInter | MlpOut | MlpOutNormed | MlpScaled
    | Out | PleOut | OutScaled | Fused

  /** The name of an activation. */
  datatype Name =
    | InputIds | PixelValues | AudioValues
    | TextEmbeddings | VisualEmbeddings | SplicedVisual | AudioEmbeddings | SplicedAudio
    | Scaled(base: Name) | PerLayerCombined
    | OfLayer(value: LayerValue, layer: nat)
    | FinalNormOut | RawLogits | Logits

  /** What an operator computes, with its static parameters. */
  datatype Kind =
    | Embed(weight: TensorName)
    | RMSNorm(weight: TensorName, eps: real)
    | MatMul(weight: TensorName, bias: Option<TensorName>)
    | Rope(layer: nat, theta: real) | RopeQ(layer: nat, theta: real) | RopeSkip
    | PagedAttention(layer: nat, nHeads: nat, nKvHeads: nat, headDim: nat)
    | Activation(act: HiddenAct) | Mul | Add
    | VisualEmbed | SpliceTensors | AudioEmbed | SpliceAudioTensors | DeepStackFuse(layer: nat)
    | Softcap(cap: real) | Scale(scale: real) | TensorScale(scaleTensor: TensorName)
    | PleInput(tokenEmbd: TensorName, modelProj: TensorName, projNorm: TensorName)
    | PleLayer(layer: nat, gate: TensorName, projection: TensorName, norm: TensorName)

  datatype Operator = Operator(kind: Kind, inputs: seq<Name>, outputs: seq<Name>)

  /** The names the executor takes to be an operator's inputs when it computes last uses. */
  function Declared(op: Operator): seq<Name> {
    op.inputs + (if op.kind.DeepStackFuse? then [VisualEmbeddings] else [])
  }

  /** The names whose values an operator may fetch: a shared layer's attention skips keys and values. */
  function Reads(meta: ModelMeta, op: Operator): (r: seq<Name>)
    ensures forall n :: n in r ==> n in Declared(op)
  {
    if op.kind.PagedAttention? && meta.IsKvShared(op.kind.layer) && |op.inputs| > 0 then [op.inputs[0]]
    else Declared(op)
  }

  /** What forward_pass feeds before the first operator. */
  function Fed(meta: ModelMeta): set<Name> {
    {InputIds} + (if meta.hasVisionEncoder then {PixelValues} else {})
    + (if meta.hasAudioEncoder then {AudioValues} else {})
  }

  // ------------------------------------------------------------------ meaning

  /** The expression a name stands for: an input, or an operator applied to expressions. */
  datatype Term = Input(name: Name) | Apply(kind: Kind, args: seq<Term>, port: nat)

  type Env = map<Name, Term>

  ghost function Args(env: Env, names: seq<Name>): seq<Term>
    requires forall n :: n in names ==> n in env
  {
    seq(|names|, i requires 0 <= i < |names| => env[names[i]])
  }

  /** How many tensors an operator produces: rotary embedding returns queries and keys. */
  function Ports(kind: Kind): nat {
    if kind.Rope? || kind.RopeSkip? then 2 else 1
  }

  /** The inputs are there, and the outputs are new and distinct. */
  ghost predicate CanAdd(meta: ModelMeta, env: Env, op: Operator) {
    && |op.outputs| == Ports(op.kind)
    && (forall n :: n in Reads(meta, op) ==> n in env)
    && (forall n :: n in op.outputs ==> n !in env)
    && (|op.outputs| == 2 ==> op.outputs[0] != op.outputs[1])
    && (SplicedVisual in op.outputs ==> op.outputs == [SplicedVisual] && Splices(op))
  }

  /** A splice of visual embeddings into the text embeddings. */
  predicate Splices(op: Operator) {
    op.kind.SpliceTensors? && |op.inputs| == 2 && op.inputs[0] == TextEmbeddings
  }

  ghost function Extend(meta: ModelMeta, env: Env, op: Operator): Env
    requires CanAdd(meta, env, op)
  {
    var args := Args(env, Reads(meta, op));
    var one := env[op.outputs[0] := Apply(op.kind, args, 0)];
    if Ports(op.kind) == 1 then one else one[op.outputs[1] := Apply(op.kind, args, 1)]
  }

  /** What each name stands for after the program, if it is well formed. */
  ghost function Build(meta: ModelMeta, ops: seq<Operator>): (r: Option<Env>)
    ensures r.Some? ==> forall n :: n in Fed(meta) ==> n in r.value && r.value[n] == Input(n)
  {
    if ops == [] then Some(map n | n in Fed(meta) :: Input(n))
    else match Build(meta, ops[..|ops| - 1])
      case None => None
      case Some(env) => if CanAdd(meta, env, ops[|ops| - 1]) then Some(Extend(meta, env, ops[|ops| - 1])) else None
  }

  /**
   A straight-line program in single-assignment form: each name read is fed or defined earlier,
   and no name is defined twice.
   */
  ghost predicate WellFormed(meta: ModelMeta, ops: seq<Operator>) {
    Build(meta, ops).Some?
  }

  ghost function Terms(meta: ModelMeta, ops: seq<Operator>): Env
    requires WellFormed(meta, ops)
  {
    Build(meta, ops).value
  }

  lemma TermsAppend(meta: ModelMeta, ops: seq<Operator>, op: Operator)
    requires WellFormed(meta, ops) && CanAdd(meta, Terms(meta, ops), op)
    ensures WellFormed(meta, ops + [op]) && Terms(meta, ops + [op]) == Extend(meta, Terms(meta, ops), op)
  {
    assert (ops + [op])[..|ops|] == ops;
  }

  lemma {:induction false} PrefixWellFormed(meta: ModelMeta, ops: seq<Operator>, i: nat)
    requires WellFormed(meta, ops) && i <= |ops|
    ensures WellFormed(meta, ops[..i])
    ensures forall n :: n in Terms(meta, ops[..i]) ==> n in Terms(meta, ops)
    decreases |ops|
  {
    if i < |ops| {
      PrefixWellFormed(meta, ops[..|ops| - 1], i);
      assert ops[..|ops| - 1][..i] == ops[..i];
    } else {
      assert ops[..i] == ops;
    }
  }

  // ------------------------------------------------------------------ reads that are not declared

  /** Where an audio operator may look for the width of an embedding. */
  predicate IsWidthSource(n: Name) {
    n == TextEmbeddings || n == SplicedVisual
  }

  /** One of them is defined before operator i and is read by an operator from j on. */
  ghost predicate WidthKept(meta: ModelMeta, ops: seq<Operator>, i: nat, j: nat, n: Name) {
    && i < j < |ops| && IsWidthSource(n) && n in Declared(ops[j])
    && Build(meta, ops[..i]).Some? && n in Build(meta, ops[..i]).value
  }

  ghost predicate AudioFed(meta: ModelMeta, ops: seq<Operator>) {
    forall i :: 0 <= i < |ops| && ops[i].kind.AudioEmbed? ==> exists j, n :: WidthKept(meta, ops, i, j, n)
  }

  lemma AudioFedAppend(meta: ModelMeta, ops: seq<Operator>, op: Operator)
    requires AudioFed(meta, ops) && !op.kind.AudioEmbed?
    ensures AudioFed(meta, ops + [op])
  {
    var more := ops + [op];
    forall i | 0 <= i < |more| && more[i].kind.AudioEmbed?
      ensures exists j, n :: WidthKept(meta, more, i, j, n)
    {
      var j, n :| WidthKept(meta, ops, i, j, n);
      assert more[..i] == ops[..i];
      assert WidthKept(meta, more, i, j, n);
    }
  }

  /** An audio operator whose successor splices its output into the embeddings. */
  lemma AudioFedPair(meta: ModelMeta, ops: seq<Operator>, audio: Operator, splice: Operator)
    requires AudioFed(meta, ops) && WellFormed(meta, ops) && !splice.kind.AudioEmbed?
    requires |splice.inputs| > 0 && IsWidthSource(splice.inputs[0]) && splice.inputs[0] in Terms(meta, ops)
    ensures AudioFed(meta, ops + [audio] + [splice])
  {
    var more := ops + [audio] + [splice];
    forall i | 0 <= i < |more| && more[i].kind.AudioEmbed?
      ensures exists j, n :: WidthKept(meta, more, i, j, n)
    {
      assert more[..i] == ops[..i];
      if i < |ops| {
        var j, n :| WidthKept(meta, ops, i, j, n);
        assert WidthKept(meta, more, i, j, n);
      } else {
        assert ops[..i] == ops;
        assert WidthKept(meta, more, i, i + 1, splice.inputs[0]);
      }
    }
  }

  /** The layers whose attention the program runs, in order. */
  function Attended(ops: seq<Operator>): seq<nat> {
    if ops == [] then []
    else
      var last := ops[|ops| - 1];
      Attended(ops[..|ops| - 1]) + (if last.kind.PagedAttention? then [last.kind.layer] else [])
  }

  /** The program while it is being built. */
  class ComputeGraph {
    var ops: seq<Operator>
    ghost const meta: ModelMeta

    constructor (ghost meta: ModelMeta)
      ensures this.meta == meta && ops == [] && Ready() && Attended(ops) == []
      ensures Env() == map n | n in Fed(meta) :: Input(n)
    {
      ops := [];
      this.meta := meta;
    }

    ghost predicate Valid()
      reads this
    {
      WellFormed(meta, ops)
    }

    ghost predicate Ready()
      reads this
    {
      Valid() && AudioFed(meta, ops)
    }

    ghost function Env(): Env
      requires Valid()
      reads this
    {
      Terms(meta, ops)
    }

    method AddOp(op: Operator)
      requires Valid() && CanAdd(meta, Env(), op)
      modifies this
      ensures ops == old(ops) + [op]
      ensures Valid() && Env() == Extend(meta, old(Env()), op)
      ensures old(Ready()) && !op.kind.AudioEmbed? ==> Ready()
      ensures Attended(ops) == old(Attended(ops)) + (if op.kind.PagedAttention? then [op.kind.layer] else [])
    {
      TermsAppend(meta, ops, op);
      if Ready() && !op.kind.AudioEmbed? {
        AudioFedAppend(meta, ops, op);
      }
      assert (ops + [op])[..|ops|] == ops;
      ops := ops + [op];
    }
  }
}
