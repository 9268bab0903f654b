/**
 Model metadata: which layers share another layer's keys and values, and with whom.
 */
module ModelMetas {
  import opened Types

  datatype HiddenAct = SiLU | GeLU

  datatype ModelMeta = ModelMeta(
    nLayers: nat, nHeads: nat, nKvHeads: nat, headDim: nat, hiddenAct: HiddenAct,
    ropeTheta: real, ropeThetaSwa: Option<real>, rmsNormEps: real,
    sharedKvLayers: Option<nat>,
    slidingWindowPattern: Option<seq<bool>>, slidingWindow: Option<nat>,
    keyLength: Option<nat>, keyLengthSwa: Option<nat>,
    noRopeLayers: seq<bool>,
    hasVisionEncoder: bool, hasAudioEncoder: bool, isDeepstackLayers: Option<seq<bool>>,
    embedScale: Option<real>, pleDim: Option<nat>, finalLogitSoftcapping: Option<real>,
    tieWordEmbeddings: bool)
  {
    /** Layers from here on reuse an earlier layer's keys and values. */
    function FirstShared(): nat {
      match sharedKvLayers
      case None => nLayers
      case Some(s) => if s <= nLayers then nLayers - s else 0
    }

    predicate IsKvShared(l: nat) {
      sharedKvLayers.Some? && l >= FirstShared()
    }

    predicate IsSwaLayer(l: nat) {
      slidingWindowPattern.Some? && l < |slidingWindowPattern.value| && slidingWindowPattern.value[l]
    }

    function HeadDim(l: nat): nat {
      if IsSwaLayer(l) then keyLengthSwa.UnwrapOr(256)
      else keyLength.UnwrapOr(headDim)
    }

    function SlidingWindowLen(l: nat): Option<nat> {
      if IsSwaLayer(l) then Some(slidingWindow.UnwrapOr(4096)) else None
    }

    function RopeTheta(l: nat): real {
      if IsSwaLayer(l) then ropeThetaSwa.UnwrapOr(10000.0) else ropeTheta
    }

    predicate IsDeepstack(l: nat) {
      isDeepstackLayers.Some? && l < |isDeepstackLayers.value| && isDeepstackLayers.value[l]
    }

    predicate SkipsRope(l: nat) {
      l < |noRopeLayers| && noRopeLayers[l]
    }

    /** How many of the first n layers are shared. */
    function SharedAmong(n: nat): nat {
      if n == 0 then 0 else SharedAmong(n - 1) + if IsKvShared(n - 1) then 1 else 0
    }

    lemma {:induction false} SharedAfterFirst(n: nat)
      ensures SharedAmong(n) == if sharedKvLayers.Some? && n > FirstShared() then n - FirstShared() else 0
    {
      if n > 0 {
        SharedAfterFirst(n - 1);
      }
    }

    /** The shared layers are the last ones: as many as the field says, or all there are. */
    lemma SharedLayers()
      ensures forall l: nat :: IsKvShared(l) <==> sharedKvLayers.Some? && l + sharedKvLayers.value >= nLayers
      ensures SharedAmong(nLayers) ==
        match sharedKvLayers case None => 0 case Some(s) => if s < nLayers then s else nLayers
    {
      SharedAfterFirst(nLayers);
    }

    /** A layer slides if and only if the pattern says so of it; then other fields count, with their defaults. */
    lemma SlidingLayers(l: nat, pattern: seq<bool>)
      requires pattern == if slidingWindowPattern.Some? then slidingWindowPattern.value else []
      ensures l < |pattern| && pattern[l] ==>
        && SlidingWindowLen(l) == Some(slidingWindow.UnwrapOr(4096))
        && HeadDim(l) == keyLengthSwa.UnwrapOr(256) && RopeTheta(l) == ropeThetaSwa.UnwrapOr(10000.0)
      ensures l >= |pattern| || !pattern[l] ==>
        && SlidingWindowLen(l) == None && HeadDim(l) == keyLength.UnwrapOr(headDim) && RopeTheta(l) == ropeTheta
    {
    }

    /** The last layer below `below` of the given kind, or 0. */
    function LastOfKind(below: nat, swa: bool): nat {
      if below == 0 then 0
      else if IsSwaLayer(below - 1) == swa then below - 1
      else LastOfKind(below - 1, swa)
    }

    function KvSourceLayer(l: nat): nat {
      if !IsKvShared(l) then l else LastOfKind(FirstShared(), IsSwaLayer(l))
    }

    method GetKvSourceLayer(l: nat) returns (r: nat)
      ensures r == KvSourceLayer(l)
    {
      if !IsKvShared(l) {
        return l;
      }
      var isSwa := IsSwaLayer(l);
      var prev := FirstShared();
      while prev > 0
        invariant LastOfKind(prev, isSwa) == LastOfKind(FirstShared(), isSwa)
      {
        prev := prev - 1;
        if IsSwaLayer(prev) == isSwa {
          return prev;
        }
      }
      return 0;
    }

    /** The nearest of its kind, whenever there is one. */
    lemma {:induction false} LastOfKindNearest(below: nat, swa: bool)
      ensures var r := LastOfKind(below, swa);
        && (below > 0 ==> r < below)
        && ((exists i :: 0 <= i < below && IsSwaLayer(i) == swa) ==> IsSwaLayer(r) == swa)
        && forall i :: r < i < below ==> IsSwaLayer(i) != swa
    {
      if below > 0 && IsSwaLayer(below - 1) != swa {
        LastOfKindNearest(below - 1, swa);
      }
    }

    /**
     A shared layer's source is an earlier, unshared layer.  It is the nearest one of the same
     sliding-window kind, with the same head dimension, whenever there is one of that kind;
     without one the fallback is layer 0, which is then of the other kind.
     */
    lemma KvSource(l: nat)
      requires l < nLayers && IsKvShared(l) && FirstShared() > 0
      ensures var src := KvSourceLayer(l);
        var ofKind := exists i :: 0 <= i < FirstShared() && IsSwaLayer(i) == IsSwaLayer(l);
        && src < FirstShared() && src < l && !IsKvShared(src) && KvSourceLayer(src) == src
        && (ofKind <==> IsSwaLayer(src) == IsSwaLayer(l))
        && (ofKind ==> HeadDim(src) == HeadDim(l) && SlidingWindowLen(src) == SlidingWindowLen(l))
        && (forall i :: src < i < FirstShared() ==> IsSwaLayer(i) != IsSwaLayer(l))
        && (!ofKind ==> src == 0)
    {
      LastOfKindNearest(FirstShared(), IsSwaLayer(l));
      if !exists i :: 0 <= i < FirstShared() && IsSwaLayer(i) == IsSwaLayer(l) {
        NoneOfKind(FirstShared(), IsSwaLayer(l));
      }
    }

    lemma {:induction false} NoneOfKind(below: nat, swa: bool)
      requires forall i :: 0 <= i < below ==> IsSwaLayer(i) != swa
      ensures LastOfKind(below, swa) == 0
    {
      if below > 0 {
        NoneOfKind(below - 1, swa);
      }
    }
  }
}
