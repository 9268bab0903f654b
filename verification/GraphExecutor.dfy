/**
 The executor: it runs the operators in order, and after each one drops the activations it was
 the last to use.  The result is that of a run that drops nothing, and no operator ever misses
 an input, not even the audio operator, which may look at an embedding it does not declare.
 */
module GraphExecutors {
  import opened Types
  import opened ModelMetas
  import opened GraphIr

  /** Where the audio operator gets its embedding from, given the state around the run. */
  datatype AudioSource = NoAudio | Encode | Ready | NoEncoder

  /** What an operator has fetched: tensors, or only the width of an embedding. */
  datatype Fetched<T, H> = Values(values: seq<T>) | Width(width: H)

  /**
   The tensor library: what an operator does with its inputs and the state outside the graph
   (key/value cache, encoder caches), and which state makes which inputs unnecessary.
   */
  datatype Kernels<!T, !H, !S> = Kernels(
    run: (Kind, Fetched<T, H>, S) -> Option<(seq<T>, S)>,
    width: T -> H,
    audio: S -> AudioSource,
    visionReady: S -> bool)

  datatype Failure = MissingTensor | KernelFailure

  /** The context: the activations there are. */
  type Context<T> = map<Name, T>

  datatype Need = Names(names: seq<Name>) | SomeWidth

  function Needs<T, H, S>(meta: ModelMeta, kernels: Kernels<T, H, S>, s: S, op: Operator): (r: Need)
    ensures r.Names? ==> forall n :: n in r.names ==> n in Reads(meta, op)
    ensures r.SomeWidth? ==> op.kind.AudioEmbed?
  {
    match op.kind
    case VisualEmbed => Names(if kernels.visionReady(s) then [] else Reads(meta, op))
    case AudioEmbed =>
      (match kernels.audio(s)
       case NoAudio => SomeWidth
       case NoEncoder => SomeWidth
       case Encode => Names(Reads(meta, op))
       case Ready => Names([]))
    case SpliceAudioTensors =>
      Names(if kernels.audio(s).NoAudio? && |Reads(meta, op)| > 0 then Reads(meta, op)[..1] else Reads(meta, op))
    case _ => Names(Reads(meta, op))
  }

  /** Looks the inputs up; a width comes from the text embeddings or else from the spliced ones. */
  function Fetch<T, H, S>(kernels: Kernels<T, H, S>, ctx: Context<T>, need: Need): Option<Fetched<T, H>> {
    match need
    case Names(names) =>
      if forall i :: 0 <= i < |names| ==> names[i] in ctx
      then Some(Values(seq(|names|, i requires 0 <= i < |names| => ctx[names[i]]))) else None
    case SomeWidth =>
      if TextEmbeddings in ctx then Some(Width(kernels.width(ctx[TextEmbeddings])))
      else if SplicedVisual in ctx then Some(Width(kernels.width(ctx[SplicedVisual])))
      else None
  }

  /**
   Which operators need no tensor: embeddings that are ready need nothing, and without sound only
   the width of an embedding is looked up, or a splice takes just what it would splice into.
   */
  lemma NeedsLittle<T, H, S>(meta: ModelMeta, kernels: Kernels<T, H, S>, s: S, op: Operator, ctx: Context<T>)
    ensures var fetched := Fetch(kernels, ctx, Needs(meta, kernels, s, op));
      && (op.kind.VisualEmbed? && kernels.visionReady(s) ==> fetched == Some(Values([])))
      && (op.kind.AudioEmbed? && kernels.audio(s).Ready? ==> fetched == Some(Values([])))
      && (op.kind.AudioEmbed? && (kernels.audio(s).NoAudio? || kernels.audio(s).NoEncoder?) ==>
            (fetched.Some? <==> TextEmbeddings in ctx || SplicedVisual in ctx)
            && (TextEmbeddings in ctx ==> fetched == Some(Width(kernels.width(ctx[TextEmbeddings])))))
      && (op.kind.SpliceAudioTensors? && kernels.audio(s).NoAudio? && op.inputs != [] && op.inputs[0] in ctx ==>
            fetched == Some(Values([ctx[op.inputs[0]]])))
  {
    FetchFew(kernels, ctx, TextEmbeddings);
    if op.kind.SpliceAudioTensors? && op.inputs != [] {
      FetchFew(kernels, ctx, op.inputs[0]);
      assert Reads(meta, op)[..1] == [op.inputs[0]];
    }
  }

  lemma FetchFew<T, H, S>(kernels: Kernels<T, H, S>, ctx: Context<T>, n: Name)
    ensures Fetch(kernels, ctx, Names([])) == Some(Values([]))
    ensures n in ctx ==> Fetch(kernels, ctx, Names([n])) == Some(Values([ctx[n]]))
  {
    var none: seq<Name> := [];
    assert seq(|none|, i requires 0 <= i < |none| => ctx[none[i]]) == [];
    if n in ctx {
      assert seq(|[n]|, i requires 0 <= i < |[n]| => ctx[[n][i]]) == [ctx[n]];
      assert forall i :: 0 <= i < |[n]| ==> [n][i] in ctx;
    }
  }

  function Insert<T>(ctx: Context<T>, names: seq<Name>, values: seq<T>): Context<T>
    requires |names| == |values|
  {
    if names == [] then ctx
    else Insert(ctx, names[..|names| - 1], values[..|names| - 1])[names[|names| - 1] := values[|names| - 1]]
  }

  /** One operator: fetch, run, insert. */
  function RunOp<T, H, S>(meta: ModelMeta, kernels: Kernels<T, H, S>, ctx: Context<T>, s: S, op: Operator)
      : Result<(Context<T>, S), Failure>
  {
    match Fetch(kernels, ctx, Needs(meta, kernels, s, op))
    case None => Err(MissingTensor)
    case Some(fetched) =>
      match kernels.run(op.kind, fetched, s)
      case None => Err(KernelFailure)
      case Some(result) =>
        if |result.0| == |op.outputs| then Ok((Insert(ctx, op.outputs, result.0), result.1)) else Err(KernelFailure)
  }

  /** The meaning of a run: nothing is ever dropped. */
  function RunKeeping<T, H, S>(meta: ModelMeta, kernels: Kernels<T, H, S>, ctx: Context<T>, s: S, ops: seq<Operator>)
      : Result<(T, S), Failure>
    decreases |ops|
  {
    if ops == [] then
      if Logits in ctx then Ok((ctx[Logits], s)) else Err(MissingTensor)
    else
      match RunOp(meta, kernels, ctx, s, ops[0])
      case Err(e) => Err(e)
      case Ok(next) => RunKeeping(meta, kernels, next.0, next.1, ops[1..])
  }

  // ------------------------------------------------------------------ last uses

  ghost predicate UsedFrom(ops: seq<Operator>, i: nat, n: Name) {
    exists j :: i <= j < |ops| && n in Declared(ops[j])
  }

  /** For each name declared as an input, the last operator that declares it. */
  ghost predicate LastUses(ops: seq<Operator>, lastUse: map<Name, nat>) {
    && (forall n :: n in lastUse ==> lastUse[n] < |ops| && n in Declared(ops[lastUse[n]]))
    && (forall n, j :: 0 <= j < |ops| && n in Declared(ops[j]) ==> n in lastUse && j <= lastUse[n])
  }

  method ComputeLastUse(ops: seq<Operator>) returns (lastUse: map<Name, nat>)
    ensures LastUses(ops, lastUse)
  {
    hide LastUses;
    lastUse := map[];
    assert LastUses([], lastUse) by { NoUses(); }
    for idx := 0 to |ops|
      invariant LastUses(ops[..idx], lastUse)
    {
      var inputs := Declared(ops[idx]);
      ghost var was := lastUse;
      for i := 0 to |inputs|
        invariant Marked(was, lastUse, inputs[..i], idx)
      {
        assert inputs[..i + 1] == inputs[..i] + [inputs[i]];
        lastUse := lastUse[inputs[i] := idx];
      }
      assert inputs[..|inputs|] == inputs;
      UsesNext(ops, idx, was, lastUse);
    }
    assert ops[..|ops|] == ops;
  }

  /** These names have been given this index, the others are as before. */
  ghost predicate Marked(was: map<Name, nat>, now: map<Name, nat>, names: seq<Name>, idx: nat) {
    && (forall n :: n in now <==> n in was || n in names)
    && (forall n :: n in now ==> now[n] == if n in names then idx else was[n])
  }

  lemma NoUses()
    ensures LastUses([], map[])
  {
  }

  lemma UsesNext(ops: seq<Operator>, idx: nat, was: map<Name, nat>, now: map<Name, nat>)
    requires idx < |ops| && LastUses(ops[..idx], was) && Marked(was, now, Declared(ops[idx]), idx)
    ensures LastUses(ops[..idx + 1], now)
  {
    hide Declared;
    assert forall j :: 0 <= j < idx ==> ops[..idx + 1][j] == ops[..idx][j];
  }

  // ------------------------------------------------------------------ eviction

  /** A splice of visual embeddings keeps the width of the text embeddings. */
  ghost predicate KeepsWidth<T(!new), H, S(!new)>(kernels: Kernels<T, H, S>) {
    forall values, s :: |values| == 2 && kernels.run(SpliceTensors, Values(values), s).Some? ==>
      var outs := kernels.run(SpliceTensors, Values(values), s).value.0;
      |outs| == 1 ==> kernels.width(outs[0]) == kernels.width(values[0])
  }

  /** The spliced embeddings are as wide as the text embeddings. */
  ghost predicate SameWidth<T, H, S>(kernels: Kernels<T, H, S>, keep: Context<T>) {
    SplicedVisual in keep ==>
      TextEmbeddings in keep && kernels.width(keep[SplicedVisual]) == kernels.width(keep[TextEmbeddings])
  }

  /** What is left of `keep` before operator i: all that is used from then on, unchanged. */
  ghost predicate Suffices<T>(ops: seq<Operator>, i: nat, keep: Context<T>, ctx: Context<T>) {
    && (forall n :: n in ctx ==> n in keep && ctx[n] == keep[n])
    && (forall n :: n in keep && (UsedFrom(ops, i, n) || n == Logits) ==> n in ctx)
  }

  /** The kept context before operator i has every name defined so far. */
  ghost predicate KeepsAll<T, H, S>(meta: ModelMeta, kernels: Kernels<T, H, S>, ops: seq<Operator>, i: nat,
                                    keep: Context<T>) {
    && i <= |ops| && Build(meta, ops[..i]).Some? && keep.Keys == Build(meta, ops[..i]).value.Keys
    && SameWidth(kernels, keep)
  }

  lemma CanAddNext(meta: ModelMeta, ops: seq<Operator>, i: nat)
    requires WellFormed(meta, ops) && i < |ops|
    ensures Build(meta, ops[..i]).Some? && Build(meta, ops[..i + 1]).Some?
    ensures CanAdd(meta, Build(meta, ops[..i]).value, ops[i])
    ensures Build(meta, ops[..i + 1]).value == Extend(meta, Build(meta, ops[..i]).value, ops[i])
  {
    PrefixWellFormed(meta, ops, i + 1);
    assert ops[..i + 1][..i] == ops[..i];
  }

  lemma SameLookups<T, H, S>(kernels: Kernels<T, H, S>, ctx: Context<T>, keep: Context<T>, names: seq<Name>)
    requires forall k :: 0 <= k < |names| ==> names[k] in ctx && names[k] in keep && ctx[names[k]] == keep[names[k]]
    ensures Fetch(kernels, ctx, Names(names)) == Fetch(kernels, keep, Names(names))
    ensures Fetch(kernels, keep, Names(names)).Some?
  {
    assert Fetch(kernels, ctx, Names(names)).value.values == Fetch(kernels, keep, Names(names)).value.values;
  }

  /** Every operator fetches the same from what is left as from everything, and misses nothing. */
  lemma FetchesSame<T, H, S>(meta: ModelMeta, kernels: Kernels<T, H, S>, ops: seq<Operator>, i: nat, s: S,
                             keep: Context<T>, ctx: Context<T>)
    requires WellFormed(meta, ops) && AudioFed(meta, ops) && i < |ops|
    requires KeepsAll(meta, kernels, ops, i, keep) && Suffices(ops, i, keep, ctx)
    ensures var need := Needs(meta, kernels, s, ops[i]);
      Fetch(kernels, ctx, need) == Fetch(kernels, keep, need) && Fetch(kernels, keep, need).Some?
  {
    CanAddNext(meta, ops, i);
    hide Build;
    var need := Needs(meta, kernels, s, ops[i]);
    match need
    case Names(names) =>
      forall k | 0 <= k < |names|
        ensures names[k] in keep && names[k] in ctx
      {
        assert names[k] in Reads(meta, ops[i]);
        assert UsedFrom(ops, i, names[k]);
      }
      SameLookups(kernels, ctx, keep, names);
    case SomeWidth =>
      var j, n :| WidthKept(meta, ops, i, j, n);
      assert UsedFrom(ops, i, n);
  }

  lemma {:induction false} InsertHas<T>(ctx: Context<T>, names: seq<Name>, values: seq<T>)
    requires |names| == |values|
    ensures forall n :: n in Insert(ctx, names, values) <==> n in ctx || n in names
    ensures forall n :: n in ctx && n !in names ==> Insert(ctx, names, values)[n] == ctx[n]
  {
    if names != [] {
      InsertHas(ctx, names[..|names| - 1], values[..|names| - 1]);
    }
  }

  /** Inserting the same outputs keeps what is left in step with everything. */
  lemma {:induction false} InsertSame<T>(keep: Context<T>, ctx: Context<T>, names: seq<Name>, values: seq<T>)
    requires |names| == |values| && forall n :: n in ctx ==> n in keep && ctx[n] == keep[n]
    ensures forall n :: n in Insert(ctx, names, values) ==>
      n in Insert(keep, names, values) && Insert(ctx, names, values)[n] == Insert(keep, names, values)[n]
  {
    if names != [] {
      InsertSame(keep, ctx, names[..|names| - 1], values[..|names| - 1]);
    }
  }

  function Dead(lastUse: map<Name, nat>, idx: nat): set<Name> {
    set n | n in lastUse && lastUse[n] == idx && n != Logits
  }

  /** After operator i what was used for the last time may go. */
  lemma EvictSuffices<T>(meta: ModelMeta, ops: seq<Operator>, i: nat, lastUse: map<Name, nat>,
                         keep: Context<T>, ctx: Context<T>, values: seq<T>)
    requires i < |ops| && LastUses(ops, lastUse) && Suffices(ops, i, keep, ctx) && |values| == |ops[i].outputs|
    ensures Suffices(ops, i + 1, Insert(keep, ops[i].outputs, values),
                     Insert(ctx, ops[i].outputs, values) - Dead(lastUse, i))
  {
    hide Insert, Declared;
    var names := ops[i].outputs;
    InsertHas(keep, names, values);
    InsertHas(ctx, names, values);
    InsertSame(keep, ctx, names, values);
    var keep', ctx' := Insert(keep, names, values), Insert(ctx, names, values) - Dead(lastUse, i);
    forall n | n in keep' && (UsedFrom(ops, i + 1, n) || n == Logits)
      ensures n in ctx'
    {
      if UsedFrom(ops, i + 1, n) {
        var j :| i + 1 <= j < |ops| && n in Declared(ops[j]);
        assert UsedFrom(ops, i, n);
      }
    }
  }

  /** Operator j declares n as an input when it is there to be used. */
  ghost predicate UsesThen(meta: ModelMeta, ops: seq<Operator>, j: nat, n: Name)
    requires j < |ops|
  {
    n in Declared(ops[j]) && Build(meta, ops[..j]).Some? && n in Build(meta, ops[..j]).value
  }

  /** Before operator i nothing is held but logits, what is still to be used, and what never has been. */
  ghost predicate Lean<T>(meta: ModelMeta, ops: seq<Operator>, i: nat, ctx: Context<T>)
    requires i <= |ops|
  {
    forall n :: n in ctx && n != Logits && !UsedFrom(ops, i, n) ==>
      forall j :: 0 <= j < i ==> !UsesThen(meta, ops, j, n)
  }

  lemma NothingRun<T>(meta: ModelMeta, ops: seq<Operator>, ctx: Context<T>)
    ensures Lean(meta, ops, 0, ctx)
  {
  }

  /** After operator i what was used for the last time is gone. */
  lemma EvictLean<T>(meta: ModelMeta, ops: seq<Operator>, i: nat, lastUse: map<Name, nat>, ctx: Context<T>,
                     values: seq<T>)
    requires WellFormed(meta, ops) && i < |ops| && LastUses(ops, lastUse) && Lean(meta, ops, i, ctx)
    requires |values| == |ops[i].outputs|
    ensures Lean(meta, ops, i + 1, Insert(ctx, ops[i].outputs, values) - Dead(lastUse, i))
  {
    hide Insert, Build, Declared;
    InsertHas(ctx, ops[i].outputs, values);
    var ctx' := Insert(ctx, ops[i].outputs, values) - Dead(lastUse, i);
    forall n, j | n in ctx' && n != Logits && !UsedFrom(ops, i + 1, n) && 0 <= j < i + 1
      ensures !UsesThen(meta, ops, j, n)
    {
      if UsesThen(meta, ops, j, n) {
        assert lastUse[n] <= i;
        if n in ops[i].outputs {
          NotYetThere(meta, ops, i, j, n);
        } else {
          assert lastUse[n] != i && !UsedFrom(ops, i, n);
        }
      }
    }
  }

  /** An output of operator i is not there before it. */
  lemma NotYetThere(meta: ModelMeta, ops: seq<Operator>, i: nat, j: nat, n: Name)
    requires WellFormed(meta, ops) && j <= i < |ops| && n in ops[i].outputs
    ensures Build(meta, ops[..j]).Some? ==> n !in Build(meta, ops[..j]).value
  {
    hide Build, Reads;
    CanAddNext(meta, ops, i);
    PrefixWellFormed(meta, ops[..i], j);
    assert ops[..i][..j] == ops[..j];
    assert n !in Terms(meta, ops[..i]);
    assert n !in Terms(meta, ops[..i][..j]);
  }

  /** The kept context goes on having every name, and the spliced embeddings their width. */
  lemma KeepsOn<T(!new), H, S(!new)>(meta: ModelMeta, kernels: Kernels<T, H, S>, ops: seq<Operator>, i: nat, s: S,
                                     keep: Context<T>)
    requires WellFormed(meta, ops) && i < |ops| && KeepsWidth(kernels) && KeepsAll(meta, kernels, ops, i, keep)
    ensures RunOp(meta, kernels, keep, s, ops[i]).Ok? ==>
      KeepsAll(meta, kernels, ops, i + 1, RunOp(meta, kernels, keep, s, ops[i]).value.0)
  {
    CanAddNext(meta, ops, i);
    hide Build, Needs, Fetch, Insert, KeepsWidth, Reads, Splices;
    var op, env := ops[i], Build(meta, ops[..i]).value;
    if RunOp(meta, kernels, keep, s, op).Ok? {
      var fetched := Fetch(kernels, keep, Needs(meta, kernels, s, op)).value;
      var values := kernels.run(op.kind, fetched, s).value.0;
      InsertHas(keep, op.outputs, values);
      ExtendHas(meta, env, op);
      assert Insert(keep, op.outputs, values).Keys == Extend(meta, env, op).Keys;
      if SplicedVisual in op.outputs {
        SpliceWidth(meta, kernels, keep, s, op);
      }
    }
  }

  lemma ExtendHas(meta: ModelMeta, env: Env, op: Operator)
    requires CanAdd(meta, env, op)
    ensures forall n :: n in Extend(meta, env, op) <==> n in env || n in op.outputs
  {
  }

  lemma SpliceWidth<T(!new), H, S(!new)>(meta: ModelMeta, kernels: Kernels<T, H, S>, keep: Context<T>, s: S,
                                         op: Operator)
    requires KeepsWidth(kernels) && Splices(op) && op.outputs == [SplicedVisual]
    requires Fetch(kernels, keep, Needs(meta, kernels, s, op)).Some?
    requires forall n :: n in Reads(meta, op) ==> n in keep
    ensures TextEmbeddings in keep
    ensures var fetched := Fetch(kernels, keep, Needs(meta, kernels, s, op)).value;
      kernels.run(op.kind, fetched, s).Some? && |kernels.run(op.kind, fetched, s).value.0| == 1 ==>
        var next := Insert(keep, op.outputs, kernels.run(op.kind, fetched, s).value.0);
        SplicedVisual in next && kernels.width(next[SplicedVisual]) == kernels.width(keep[TextEmbeddings])
  {
    assert Reads(meta, op) == op.inputs && op.inputs[0] in keep;
    var fetched := Fetch(kernels, keep, Needs(meta, kernels, s, op)).value;
    assert fetched.values[0] == keep[TextEmbeddings];
  }

  /**
   The executor.  It returns what a run without eviction returns, and a failure is always one
   of an operator, never a missing tensor.  At every point it holds nothing whose last use is over.
   */
  method Execute<T(!new), H, S(!new)>(meta: ModelMeta, kernels: Kernels<T, H, S>, ops: seq<Operator>,
                                      fed: Context<T>, s0: S) returns (r: Result<(T, S), Failure>, ctx: Context<T>)
    requires WellFormed(meta, ops) && AudioFed(meta, ops) && Logits in Terms(meta, ops)
    requires fed.Keys == Fed(meta) && KeepsWidth(kernels)
    ensures r == RunKeeping(meta, kernels, fed, s0, ops)
    ensures r != Err(MissingTensor)
    ensures r.Ok? ==> Lean(meta, ops, |ops|, ctx)
  {
    hide Needs, Fetch, Insert, Build, Declared, KeepsWidth, AudioFed, LastUses, Lean;
    var lastUse := ComputeLastUse(ops);
    var s := s0;
    ctx := fed;
    NothingRun(meta, ops, fed);
    ghost var keep := fed;
    FedKeeps(meta, kernels, ops, fed);
    for idx := 0 to |ops|
      invariant KeepsAll(meta, kernels, ops, idx, keep) && Suffices(ops, idx, keep, ctx)
      invariant RunKeeping(meta, kernels, fed, s0, ops) == RunKeeping(meta, kernels, keep, s, ops[idx..])
      invariant Lean(meta, ops, idx, ctx)
    {
      var op := ops[idx];
      assert ops[idx..][0] == op && ops[idx..][1..] == ops[idx + 1..];
      FetchesSame(meta, kernels, ops, idx, s, keep, ctx);
      KeepsOn(meta, kernels, ops, idx, s, keep);
      var fetched := Fetch(kernels, ctx, Needs(meta, kernels, s, op));
      if fetched.None? {
        return Err(MissingTensor), ctx;
      }
      var result := kernels.run(op.kind, fetched.value, s);
      if result.None? || |result.value.0| != |op.outputs| {
        return Err(KernelFailure), ctx;
      }
      EvictSuffices(meta, ops, idx, lastUse, keep, ctx, result.value.0);
      EvictLean(meta, ops, idx, lastUse, ctx, result.value.0);
      keep := Insert(keep, op.outputs, result.value.0);
      ctx := Insert(ctx, op.outputs, result.value.0) - Dead(lastUse, idx);
      s := result.value.1;
    }
    assert ops[..|ops|] == ops;
    if Logits !in ctx {
      return Err(MissingTensor), ctx;
    }
    r := Ok((ctx[Logits], s));
  }

  lemma FedKeeps<T, H, S>(meta: ModelMeta, kernels: Kernels<T, H, S>, ops: seq<Operator>, fed: Context<T>)
    requires WellFormed(meta, ops) && fed.Keys == Fed(meta)
    ensures KeepsAll(meta, kernels, ops, 0, fed) && Suffices(ops, 0, fed, fed)
  {
  }

  // ------------------------------------------------------------------ running expressions

  function Symbolic(kind: Kind, fetched: Fetched<Term, ()>, s: ()): Option<(seq<Term>, ())> {
    if fetched.Width? then None
    else Some((seq(Ports(kind), i requires 0 <= i < Ports(kind) => Apply(kind, fetched.values, i)), s))
  }

  /** Operators that only write down what they are applied to. */
  function SymbolicKernels(): Kernels<Term, (), ()> {
    Kernels(Symbolic, _ => (), _ => Encode, _ => false)
  }

  /** Run on names, a well-formed program writes down what its logits stand for. */
  lemma SymbolicRun(meta: ModelMeta, ops: seq<Operator>)
    requires WellFormed(meta, ops) && Logits in Terms(meta, ops)
    ensures RunKeeping(meta, SymbolicKernels(), map n | n in Fed(meta) :: Input(n), (), ops) ==
      Ok((Terms(meta, ops)[Logits], ()))
  {
    assert ops[..0] == [] && ops[0..] == ops;
    SymbolicRest(meta, ops, 0);
  }

  lemma {:induction false} SymbolicRest(meta: ModelMeta, ops: seq<Operator>, i: nat)
    requires WellFormed(meta, ops) && Logits in Terms(meta, ops) && i <= |ops| && Build(meta, ops[..i]).Some?
    ensures RunKeeping(meta, SymbolicKernels(), Build(meta, ops[..i]).value, (), ops[i..]) ==
      Ok((Terms(meta, ops)[Logits], ()))
    decreases |ops| - i
  {
    if i == |ops| {
      assert ops[..i] == ops;
    } else {
      CanAddNext(meta, ops, i);
      SymbolicRest(meta, ops, i + 1);
      SymbolicStep(meta, Build(meta, ops[..i]).value, ops[i]);
      assert ops[i..][0] == ops[i] && ops[i..][1..] == ops[i + 1..];
    }
  }

  lemma SymbolicStep(meta: ModelMeta, env: Env, op: Operator)
    requires CanAdd(meta, env, op)
    ensures RunOp(meta, SymbolicKernels(), env, (), op) == Ok((Extend(meta, env, op), ()))
  {
    var names := Reads(meta, op);
    var kernels := SymbolicKernels();
    SymbolicNeeds(meta, op);
    SameLookups(kernels, env, env, names);
    SymbolicFetch(env, names);
    hide Needs, Fetch, CanAdd;
    var args := Args(env, names);
    var values := seq(Ports(op.kind), i requires 0 <= i < Ports(op.kind) => Apply(op.kind, args, i));
    assert kernels.run(op.kind, Values(args), ()) == Symbolic(op.kind, Values(args), ());
    assert Symbolic(op.kind, Values(args), ()) == Some((values, ()));
    PortsFit(meta, env, op);
    InsertFew(env, op.outputs, values);
  }

  lemma SymbolicNeeds(meta: ModelMeta, op: Operator)
    ensures Needs(meta, SymbolicKernels(), (), op) == Names(Reads(meta, op))
  {
  }

  lemma SymbolicFetch(env: Env, names: seq<Name>)
    requires forall n :: n in names ==> n in env
    ensures Fetch(SymbolicKernels(), env, Names(names)) == Some(Values(Args(env, names)))
  {
    assert Fetch(SymbolicKernels(), env, Names(names)).value.values == Args(env, names);
  }

  lemma PortsFit(meta: ModelMeta, env: Env, op: Operator)
    requires CanAdd(meta, env, op)
    ensures |op.outputs| == Ports(op.kind)
  {
  }

  lemma InsertFew<T>(ctx: Context<T>, names: seq<Name>, values: seq<T>)
    requires 1 <= |names| == |values| <= 2
    ensures Insert(ctx, names, values) ==
      if |names| == 1 then ctx[names[0] := values[0]] else ctx[names[0] := values[0]][names[1] := values[1]]
  {
    if |names| == 2 {
      assert Insert(ctx, names[..1], values[..1]) == ctx[names[0] := values[0]];
    }
  }

  // ------------------------------------------------------------------ the order of operators

  function Kinds(ops: seq<Operator>): (r: seq<Kind>)
    ensures |r| == |ops|
  {
    seq(|ops|, i requires 0 <= i < |ops| => ops[i].kind)
  }

  /** These kernels keep a list of what has been run. */
  ghost predicate KeepsList<T(!new), H(!new)>(kernels: Kernels<T, H, seq<Kind>>) {
    forall kind, fetched, s :: kernels.run(kind, fetched, s).Some? ==>
      kernels.run(kind, fetched, s).value.1 == s + [kind]
  }

  lemma ListsIt<T(!new), H(!new)>(meta: ModelMeta, kernels: Kernels<T, H, seq<Kind>>, ctx: Context<T>, s: seq<Kind>,
                                  op: Operator)
    requires KeepsList(kernels) && RunOp(meta, kernels, ctx, s, op).Ok?
    ensures RunOp(meta, kernels, ctx, s, op).value.1 == s + [op.kind]
  {
    hide Needs, Fetch, Insert;
  }

  lemma KindsFirst(s: seq<Kind>, ops: seq<Operator>)
    ensures Kinds([]) == [] && s + [] == s
    ensures ops != [] ==> s + [ops[0].kind] + Kinds(ops[1..]) == s + Kinds(ops)
  {
  }

  /** Each operator runs once, in the order of the program, on the state the one before it left. */
  lemma {:induction false} RunsInOrder<T(!new), H(!new)>(meta: ModelMeta, kernels: Kernels<T, H, seq<Kind>>,
                                                         ctx: Context<T>, s: seq<Kind>, ops: seq<Operator>)
    requires KeepsList(kernels) && RunKeeping(meta, kernels, ctx, s, ops).Ok?
    ensures RunKeeping(meta, kernels, ctx, s, ops).value.1 == s + Kinds(ops)
    decreases |ops|
  {
    hide KeepsList, RunOp, Kinds;
    KindsFirst(s, ops);
    if ops != [] {
      ListsIt(meta, kernels, ctx, s, ops[0]);
      var next := RunOp(meta, kernels, ctx, s, ops[0]).value;
      RunsInOrder(meta, kernels, next.0, next.1, ops[1..]);
    }
  }
}
