/**
 What the sampler's parameters do to the draw: the penalty scales the logits of repeated tokens,
 and the weights of two tokens that can be drawn are as far apart as the exponential of the
 difference of their penalised logits over the temperature.
 */
module SamplingLaws {
  import opened Types
  import opened Sums
  import opened PagedAttention
  import opened Sampling

  // ------------------------------------------------------------------ the penalty

  /**
   Repeated tokens, and no others, are penalised, once: a positive logit is the penalty times its
   new value, any other becomes the penalty times as large, and masked tokens stay masked.
   */
  lemma PenaltyScales(logits: seq<Logit>, params: SampleParams, history: seq<nat>, i: nat)
    requires AllPenalisable(logits, history, params.repetitionPenalty) && i < |logits|
    ensures var was, l, c := logits[i], PenalisedAll(logits, params, history)[i], params.repetitionPenalty;
      && (i !in history ==> l == was) && l.Fin? == was.Fin?
      && (i in history && was.Fin? && was.x > 0.0 ==> c * l.x == was.x)
      && (i in history && was.Fin? && was.x <= 0.0 ==> l.x == c * was.x)
  {
    var was, c := logits[i], params.repetitionPenalty;
    if c != 1.0 && i in history && was.Fin? && was.x > 0.0 {
      assert Penalisable(was, c);
      Undivides(was.x, c);
    }
  }

  lemma Undivides(a: real, b: real)
    requires b != 0.0
    ensures b * (a / b) == a
  {
  }

  /** A penalty above one never raises a repeated token's logit, lowers it unless it is zero, and keeps its sign. */
  lemma PenaltyLowers(logits: seq<Logit>, params: SampleParams, history: seq<nat>, i: nat)
    requires AllPenalisable(logits, history, params.repetitionPenalty) && params.repetitionPenalty > 1.0
    requires i < |logits| && i in history && logits[i].Fin?
    ensures var x, y := logits[i].x, PenalisedAll(logits, params, history)[i].x;
      && y <= x && (x != 0.0 ==> y < x) && (y > 0.0 <==> x > 0.0) && (y < 0.0 <==> x < 0.0)
  {
    PenaltyScales(logits, params, history, i);
    var x, y, c := logits[i].x, PenalisedAll(logits, params, history)[i].x, params.repetitionPenalty;
    if x > 0.0 {
      Grows(y, c, x);
    } else {
      Grows(x, c, y);
    }
  }

  lemma Grows(x: real, c: real, y: real)
    requires c > 1.0 && y == c * x
    ensures (x > 0.0 ==> y > x) && (x < 0.0 ==> y < x) && (x == 0.0 ==> y == 0.0)
  {
    var d := c - 1.0;
    assert y == x + d * x;
    if x > 0.0 {
      ProductSign(d, x);
    } else if x < 0.0 {
      ProductSign(d, -x);
    }
  }

  lemma ProductSign(d: real, x: real)
    requires d > 0.0 && x > 0.0
    ensures d * x > 0.0 && d * -x == -(d * x)
  {
  }

  // ------------------------------------------------------------------ the temperature

  /** The difference of two prepared logits is that of the penalised ones over the temperature. */
  lemma PreparedApart(logits: seq<Logit>, params: SampleParams, history: seq<nat>, a: nat, b: nat)
    requires AllPenalisable(logits, history, params.repetitionPenalty) && params.temperature > 0.00001
    requires a < |logits| && b < |logits|
    ensures var l, p := PenalisedAll(logits, params, history), Prepared(logits, params, history);
      && (p[a].Fin? <==> l[a].Fin?) && (p[b].Fin? <==> l[b].Fin?)
      && (l[a].Fin? && l[b].Fin? ==> p[a].x - p[b].x == (l[a].x - l[b].x) / params.temperature)
  {
    hide Penalised;
    var l, t := PenalisedAll(logits, params, history), params.temperature;
    if l[a].Fin? && l[b].Fin? {
      DividesApart(l[a].x, l[b].x, t);
    }
  }

  lemma DividesApart(x: real, y: real, t: real)
    requires t > 0.0
    ensures x / t - y / t == (x - y) / t && (t == 1.0 ==> x / t == x && y / t == y && (x - y) / t == x - y)
  {
    Undivides(x, t);
    Undivides(y, t);
    Undivides(x - y, t);
    var d := x / t - y / t;
    assert t * d == t * (x / t) - t * (y / t);
    SameFactor(t, d, (x - y) / t);
  }

  lemma SameFactor(t: real, a: real, b: real)
    requires t > 0.0 && t * a == t * b
    ensures a == b
  {
    assert t * (a - b) == 0.0;
  }

  /** Masses of two finite logits are apart by the exponential of their difference. */
  lemma MassRatio(exp: real -> real, logits: seq<Logit>, a: nat, b: nat)
    requires IsExp(exp) && a < |logits| && b < |logits| && logits[a].Fin? && logits[b].Fin?
    ensures var ws := Masses(exp, logits);
      && ws[b].p > 0.0 && ws[a].p == Times(exp(logits[a].x - logits[b].x), ws[b].p)
  {
    hide Times;
    var max := MaxLogit(logits);
    assert max.Fin?;
    var d := logits[a].x - logits[b].x;
    assert Times(exp(d), exp(logits[b].x - max.x)) == exp(d + (logits[b].x - max.x));
    assert d + (logits[b].x - max.x) == logits[a].x - max.x;
  }

  /** Dividing by the sum keeps the ratio of two weights. */
  lemma RatioDivided(x: real, y: real, c: real, total: real)
    requires total > 0.0 && x == Times(c, y)
    ensures x / total == Times(c, y / total)
  {
    Undivides(x, total);
    Undivides(y, total);
    assert total * (c * (y / total)) == c * (total * (y / total));
    SameFactor(total, x / total, c * (y / total));
  }

  /** Two weights, the first c times the second. */
  ghost predicate Apart(x: real, y: real, c: real) {
    x == Times(c, y)
  }

  lemma SoftmaxRatio(exp: real -> real, logits: seq<Logit>, a: nat, b: nat)
    requires IsGrowingExp(exp) && a < |logits| && b < |logits|
    ensures var ws := Softmax(exp, logits);
      && |ws| == |logits| && ws[a].idx == a && ws[b].idx == b
      && (logits[a].NegInf? ==> ws[a].p == 0.0)
      && (logits[a].Fin? && logits[b].Fin? ==> Apart(ws[a].p, ws[b].p, exp(logits[a].x - logits[b].x)))
  {
    var ms := Masses(exp, logits);
    if logits[a].Fin? && logits[b].Fin? {
      MassRatio(exp, logits, a, b);
      MassesPositive(exp, logits, b);
      hide Times, Masses;
      RatioDivided(ms[a].p, ms[b].p, exp(logits[a].x - logits[b].x), Total(ms));
    } else if Total(ms) > 0.0 {
      assert 0.0 / Total(ms) == 0.0;
    }
  }

  lemma MassesPositive(exp: real -> real, logits: seq<Logit>, b: nat)
    requires IsGrowingExp(exp) && b < |logits| && logits[b].Fin?
    ensures Total(Masses(exp, logits)) > 0.0
  {
    var ms := Masses(exp, logits);
    assert MaxLogit(logits).Fin?;
    assert NonNegative(ms) && ms[b].p > 0.0;
    SomePositive(ms, b);
  }

  // ------------------------------------------------------------------ what is drawn from

  /** The first weights, all divided by the same number. */
  ghost predicate ScaledPrefix(ws: seq<Weighted>, kept: seq<Weighted>, c: real) {
    && c > 0.0 && |kept| <= |ws|
    && forall i :: 0 <= i < |kept| ==> kept[i].idx == ws[i].idx && ws[i].p == Times(c, kept[i].p)
  }

  lemma PrefixScales(ws: seq<Weighted>, n: nat) returns (c: real)
    requires n <= |ws|
    ensures ScaledPrefix(ws, Renormalised(ws[..n]), c)
  {
    var total := Total(ws[..n]);
    c := if total > 0.0 then total else 1.0;
    forall i | 0 <= i < n
      ensures ws[i].p == Times(c, Renormalised(ws[..n])[i].p)
    {
      Undivides(ws[i].p, c);
    }
  }

  lemma WholeScales(ws: seq<Weighted>)
    ensures ScaledPrefix(ws, ws, 1.0)
  {
  }

  lemma ScalesTwice(ws: seq<Weighted>, top: seq<Weighted>, kept: seq<Weighted>, c: real, d: real)
    requires ScaledPrefix(ws, top, c) && ScaledPrefix(top, kept, d)
    ensures ScaledPrefix(ws, kept, Times(c, d))
  {
    assert c * d > 0.0;
    forall i | 0 <= i < |kept|
      ensures ws[i].p == Times(Times(c, d), kept[i].p)
    {
      assert c * (d * kept[i].p) == (c * d) * kept[i].p;
    }
  }

  /** Truncation keeps the proportions of what it keeps. */
  lemma NucleusScales(ws: seq<Weighted>, k: nat, topP: real) returns (c: real)
    ensures ScaledPrefix(ws, Nucleus(ws, k, topP), c)
  {
    hide ScaledPrefix, Renormalised;
    var top, d := TopK(ws, k), 1.0;
    WholeScales(ws);
    c := 1.0;
    if 0 < k < |ws| {
      c := PrefixScales(ws, k);
    }
    WholeScales(top);
    if topP < 1.0 {
      d := PrefixScales(top, Cutoff(top, topP));
    }
    ScalesTwice(ws, top, Nucleus(ws, k, topP), c, d);
    c := Times(c, d);
  }

  lemma RatioScaled(x: real, y: real, c: real, d: real, x0: real, y0: real)
    requires d > 0.0 && x0 == Times(d, x) && y0 == Times(d, y) && Apart(x0, y0, c)
    ensures x == c * y
  {
    assert d * (c * y) == c * (d * y);
    SameFactor(d, x, c * y);
  }

  /**
   Of two tokens that can be drawn, the weight of the first is that of the second times the
   exponential of the difference of their penalised logits over the temperature; masked tokens
   have no weight.
   */
  lemma DrawnRatio(exp: real -> real, logits: seq<Logit>, params: SampleParams, history: seq<nat>,
                   sorted: seq<Weighted>, i: nat, j: nat)
    requires IsGrowingExp(exp) && params.temperature > 0.00001
    requires AllPenalisable(logits, history, params.repetitionPenalty)
    requires SortedFrom(Softmax(exp, Prepared(logits, params, history)), sorted)
    requires var kept := Nucleus(sorted, params.topK, params.topP); i < |kept| && j < |kept|
    ensures var kept, l := Nucleus(sorted, params.topK, params.topP), PenalisedAll(logits, params, history);
      var a, b := kept[i].idx, kept[j].idx;
      && a < |logits| && b < |logits|
      && (l[a].NegInf? ==> kept[i].p == 0.0)
      && (l[a].Fin? && l[b].Fin? ==>
            kept[i].p == exp((l[a].x - l[b].x) / params.temperature) * kept[j].p)
  {
    hide Nucleus, Prepared, PenalisedAll, Softmax, SortedFrom, AllPenalisable, IsGrowingExp, Times, InTokenOrder;
    var p, kept := Prepared(logits, params, history), Nucleus(sorted, params.topK, params.topP);
    var ws := Softmax(exp, p);
    SoftmaxInOrder(exp, p);
    var c := NucleusScales(sorted, params.topK, params.topP);
    KeptEntry(ws, sorted, kept, c, i);
    KeptEntry(ws, sorted, kept, c, j);
    var a, b := kept[i].idx, kept[j].idx;
    PreparedApart(logits, params, history, a, b);
    SoftmaxRatio(exp, p, a, b);
    var l := PenalisedAll(logits, params, history);
    if l[a].Fin? && l[b].Fin? {
      RatioScaled(kept[i].p, kept[j].p, exp((l[a].x - l[b].x) / params.temperature), c, ws[a].p, ws[b].p);
    } else if l[a].NegInf? {
      NoWeight(c, kept[i].p);
    }
  }

  /** A kept entry is that of its token, scaled. */
  lemma KeptEntry(ws: seq<Weighted>, sorted: seq<Weighted>, kept: seq<Weighted>, c: real, i: nat)
    requires InTokenOrder(ws) && SortedFrom(ws, sorted) && ScaledPrefix(sorted, kept, c) && i < |kept|
    ensures c > 0.0 && kept[i].idx < |ws| && ws[kept[i].idx].p == Times(c, kept[i].p)
  {
    SortedKeepsTokens(ws, sorted);
  }

  lemma NoWeight(c: real, x: real)
    requires c > 0.0 && Times(c, x) == 0.0
    ensures x == 0.0
  {
  }

  lemma SoftmaxInOrder(exp: real -> real, logits: seq<Logit>)
    ensures |Softmax(exp, logits)| == |logits| && InTokenOrder(Softmax(exp, logits))
  {
  }
}
