/**
 The token sampler, in exact arithmetic: repetition penalty, temperature, softmax, top-k, top-p
 and the draw.  What is kept is the shortest prefix, in descending order, that reaches top-p;
 its weights add up to one, and a token is returned exactly for the draws in an interval as
 long as its weight.
 */
module Sampling {
  import opened Types
  import opened Sums
  import opened PagedAttention

  /** A logit; masked entries are negative infinity. */
  datatype Logit = NegInf | Fin(x: real)

  predicate Less(a: Logit, b: Logit) {
    match (a, b)
    case (NegInf, Fin(_)) => true
    case (Fin(x), Fin(y)) => x < y
    case _ => false
  }

  /** A probability and the token it belongs to. */
  datatype Weighted = Weighted(p: real, idx: nat)

  datatype SampleParams = SampleParams(temperature: real, topP: real, topK: nat, repetitionPenalty: real)

  // ------------------------------------------------------------------ repetition penalty

  /**
   Where the penalty leaves a number or negative infinity: it must not be zero for a positive
   logit, nor zero or negative for a masked one.
   */
  predicate Penalisable(l: Logit, penalty: real) {
    match l case NegInf => penalty > 0.0 case Fin(x) => x > 0.0 ==> penalty != 0.0
  }

  ghost predicate AllPenalisable(logits: seq<Logit>, history: seq<nat>, penalty: real) {
    penalty != 1.0 ==> forall i :: 0 <= i < |logits| && i in history ==> Penalisable(logits[i], penalty)
  }

  function Penalised(l: Logit, penalty: real): Logit
    requires Penalisable(l, penalty)
  {
    match l
    case NegInf => NegInf
    case Fin(x) => Fin(if x > 0.0 then x / penalty else x * penalty)
  }

  ghost predicate Ascending(s: seq<nat>) {
    forall i, j :: 0 <= i < j < |s| ==> s[i] < s[j]
  }

  function InsertOnce(s: seq<nat>, x: nat): (r: seq<nat>)
    requires Ascending(s)
    ensures Ascending(r) && forall t :: t in r <==> t in s || t == x
  {
    if s == [] then [x]
    else if x < s[0] then [x] + s
    else if x == s[0] then s
    else
      var rest := InsertOnce(s[1..], x);
      assert forall t :: t in s <==> t == s[0] || t in s[1..];
      assert forall j :: 0 <= j < |rest| ==> rest[j] in rest;
      [s[0]] + rest
  }

  /** Sorting and removing repeats: every token of the history, once. */
  function SortDedup(tokens: seq<nat>): (unique: seq<nat>)
    ensures Ascending(unique) && forall t :: t in unique <==> t in tokens
  {
    if tokens == [] then []
    else
      assert tokens == tokens[..|tokens| - 1] + [tokens[|tokens| - 1]];
      InsertOnce(SortDedup(tokens[..|tokens| - 1]), tokens[|tokens| - 1])
  }

  /** Each token of the history is penalised once, however often it occurs. */
  method ApplyRepetitionPenalty(logits: array<Logit>, history: seq<nat>, penalty: real)
    requires AllPenalisable(logits[..], history, penalty)
    modifies logits
    ensures forall i :: 0 <= i < logits.Length ==>
      logits[i] == if penalty != 1.0 && i in history then Penalised(old(logits[i]), penalty) else old(logits[i])
  {
    if penalty == 1.0 || history == [] {
      return;
    }
    var unique := SortDedup(history);
    for k := 0 to |unique|
      invariant forall i :: 0 <= i < logits.Length ==>
        logits[i] == if i in unique[..k] then Penalised(old(logits[i]), penalty) else old(logits[i])
    {
      var idx := unique[k];
      if idx < logits.Length {
        logits[idx] := Penalised(logits[idx], penalty);
      }
    }
    assert unique[..|unique|] == unique;
  }

  function Tempered(l: Logit, temperature: real): Logit
    requires temperature > 0.0
  {
    match l case NegInf => NegInf case Fin(x) => Fin(x / temperature)
  }

  method ApplyTemperature(logits: array<Logit>, temperature: real)
    modifies logits
    ensures forall i :: 0 <= i < logits.Length ==>
      logits[i] == if temperature <= 0.00001 || temperature == 1.0 then old(logits[i])
                   else Tempered(old(logits[i]), temperature)
  {
    if temperature <= 0.00001 || temperature == 1.0 {
      return;
    }
    for k := 0 to logits.Length
      invariant forall i :: 0 <= i < logits.Length ==>
        logits[i] == if i < k then Tempered(old(logits[i]), temperature) else old(logits[i])
    {
      logits[k] := Tempered(logits[k], temperature);
    }
  }

  // ------------------------------------------------------------------ weights

  function Total(ws: seq<Weighted>): real {
    if ws == [] then 0.0 else Total(ws[..|ws| - 1]) + ws[|ws| - 1].p
  }

  /** The weights divided by their sum, unless that is zero. */
  function Renormalised(ws: seq<Weighted>): (r: seq<Weighted>)
    ensures |r| == |ws| && forall i :: 0 <= i < |ws| ==> r[i].idx == ws[i].idx
  {
    if Total(ws) > 0.0 then DividedBy(ws, Total(ws)) else ws
  }

  function DividedBy(ws: seq<Weighted>, total: real): (r: seq<Weighted>)
    requires total > 0.0
    ensures |r| == |ws| && forall i :: 0 <= i < |ws| ==> r[i] == Weighted(ws[i].p / total, ws[i].idx)
  {
    seq(|ws|, i requires 0 <= i < |ws| => Weighted(ws[i].p / total, ws[i].idx))
  }

  method SumOf(ws: seq<Weighted>) returns (sum: real)
    ensures sum == Total(ws)
  {
    sum := 0.0;
    for i := 0 to |ws|
      invariant sum == Total(ws[..i])
    {
      sum := sum + ws[i].p;
      assert ws[..i + 1][..i] == ws[..i];
    }
    assert ws[..|ws|] == ws;
  }

  method Renormalise(ws: seq<Weighted>) returns (r: seq<Weighted>)
    ensures r == Renormalised(ws)
  {
    var sum := SumOf(ws);
    r := ws;
    if sum > 0.0 {
      for i := 0 to |ws|
        invariant |r| == |ws|
        invariant forall j :: 0 <= j < |ws| ==>
          r[j] == if j < i then Weighted(ws[j].p / sum, ws[j].idx) else ws[j]
      {
        r := r[i := Weighted(r[i].p / sum, r[i].idx)];
      }
    }
  }

  ghost predicate NonNegative(ws: seq<Weighted>) {
    forall i :: 0 <= i < |ws| ==> ws[i].p >= 0.0
  }

  ghost predicate Descending(ws: seq<Weighted>) {
    forall i, j :: 0 <= i < j < |ws| ==> ws[i].p >= ws[j].p
  }

  lemma {:induction false} TotalNonNegative(ws: seq<Weighted>)
    requires NonNegative(ws)
    ensures Total(ws) >= 0.0
    ensures ws != [] && ws[0].p > 0.0 ==> Total(ws) > 0.0
  {
    if ws != [] {
      TotalNonNegative(ws[..|ws| - 1]);
    }
  }

  lemma {:induction false} TotalDivided(ws: seq<Weighted>, total: real)
    requires total > 0.0
    ensures Total(DividedBy(ws, total)) == Total(ws) / total
  {
    if ws != [] {
      var r := DividedBy(ws, total);
      assert r[..|ws| - 1] == DividedBy(ws[..|ws| - 1], total);
      TotalDivided(ws[..|ws| - 1], total);
    }
  }

  /** Renormalised weights add up to one. */
  lemma RenormalisedTotal(ws: seq<Weighted>)
    requires NonNegative(ws) && Total(ws) > 0.0
    ensures Total(Renormalised(ws)) == 1.0 && NonNegative(Renormalised(ws))
    ensures Descending(ws) ==> Descending(Renormalised(ws))
  {
    TotalDivided(ws, Total(ws));
    Quotient(Total(ws), Total(ws));
    forall i, j | 0 <= i < |ws| && 0 <= j < |ws| && ws[i].p >= ws[j].p
      ensures ws[i].p / Total(ws) >= ws[j].p / Total(ws)
    {
      DividesMonotonely(ws[j].p, ws[i].p, Total(ws));
    }
    forall i | 0 <= i < |ws|
      ensures ws[i].p / Total(ws) >= 0.0
    {
      DividesMonotonely(0.0, ws[i].p, Total(ws));
    }
  }

  lemma DividesMonotonely(a: real, b: real, c: real)
    requires a <= b && c > 0.0
    ensures a / c <= b / c && 0.0 / c == 0.0
  {
  }

  // ------------------------------------------------------------------ softmax

  /** What softmax needs of the exponential. */
  ghost predicate IsGrowingExp(exp: real -> real) {
    IsExp(exp) && forall x, y :: x < y ==> exp(x) < exp(y)
  }

  function MaxLogit(logits: seq<Logit>): (m: Logit)
    ensures forall i :: 0 <= i < |logits| ==> !Less(m, logits[i])
  {
    if logits == [] then NegInf
    else
      var m := MaxLogit(logits[..|logits| - 1]);
      var last := logits[|logits| - 1];
      assert forall i :: 0 <= i < |logits| - 1 ==> logits[i] == logits[..|logits| - 1][i];
      if Less(m, last) then last else m
  }

  /** exp(l - max), and zero for a masked entry. */
  function Mass(exp: real -> real, l: Logit, max: Logit): real {
    if l.Fin? && max.Fin? then exp(l.x - max.x) else 0.0
  }

  function Masses(exp: real -> real, logits: seq<Logit>): (ws: seq<Weighted>)
    ensures |ws| == |logits|
    ensures forall i :: 0 <= i < |logits| ==> ws[i] == Weighted(Mass(exp, logits[i], MaxLogit(logits)), i)
  {
    seq(|logits|, i requires 0 <= i < |logits| => Weighted(Mass(exp, logits[i], MaxLogit(logits)), i))
  }

  function Softmax(exp: real -> real, logits: seq<Logit>): seq<Weighted> {
    Renormalised(Masses(exp, logits))
  }

  /** Unless everything is masked, softmax weights add up to one. */
  lemma SoftmaxTotal(exp: real -> real, logits: seq<Logit>)
    requires IsGrowingExp(exp)
    ensures NonNegative(Softmax(exp, logits))
    ensures if exists i :: 0 <= i < |logits| && logits[i].Fin? then Total(Softmax(exp, logits)) == 1.0
      else Total(Softmax(exp, logits)) == 0.0
  {
    var ws := Masses(exp, logits);
    if i :| 0 <= i < |logits| && logits[i].Fin? {
      assert MaxLogit(logits).Fin?;
      assert ws[i].p > 0.0;
      SomePositive(ws, i);
      RenormalisedTotal(ws);
    } else {
      AllZero(ws);
    }
  }

  lemma {:induction false} SomePositive(ws: seq<Weighted>, i: nat)
    requires NonNegative(ws) && i < |ws| && ws[i].p > 0.0
    ensures Total(ws) > 0.0
  {
    TotalNonNegative(ws[..|ws| - 1]);
    if i < |ws| - 1 {
      SomePositive(ws[..|ws| - 1], i);
    }
  }

  lemma {:induction false} AllZero(ws: seq<Weighted>)
    requires forall i :: 0 <= i < |ws| ==> ws[i].p == 0.0
    ensures Total(ws) == 0.0
  {
    if ws != [] {
      AllZero(ws[..|ws| - 1]);
    }
  }

  // ------------------------------------------------------------------ top-k, top-p, and the draw

  function TopK(ws: seq<Weighted>, k: nat): seq<Weighted> {
    if 0 < k < |ws| then Renormalised(ws[..k]) else ws
  }

  /** The sum of the first n weights. */
  function Cumulative(ws: seq<Weighted>, n: nat): real
    requires n <= |ws|
  {
    Total(ws[..n])
  }

  /** How many weights it takes to reach the threshold; all, if it is never reached. */
  function Cutoff(ws: seq<Weighted>, topP: real): (n: nat)
    ensures n <= |ws|
    ensures n < |ws| ==> n > 0 && Cumulative(ws, n) >= topP
    ensures forall m: nat :: 0 < m < n ==> Cumulative(ws, m) < topP
  {
    CutoffFrom(ws, topP, 0)
  }

  function CutoffFrom(ws: seq<Weighted>, topP: real, i: nat): (n: nat)
    requires i <= |ws| && forall m: nat :: 0 < m <= i ==> Cumulative(ws, m) < topP
    ensures i <= n <= |ws|
    ensures n < |ws| ==> n > 0 && Cumulative(ws, n) >= topP
    ensures forall m: nat :: 0 < m < n ==> Cumulative(ws, m) < topP
    decreases |ws| - i
  {
    if i == |ws| then |ws|
    else if Cumulative(ws, i + 1) >= topP then i + 1
    else CutoffFrom(ws, topP, i + 1)
  }

  function TopP(ws: seq<Weighted>, topP: real): seq<Weighted> {
    if topP < 1.0 then Renormalised(ws[..Cutoff(ws, topP)]) else ws
  }

  /** What is left to draw from. */
  function Nucleus(ws: seq<Weighted>, k: nat, topP: real): seq<Weighted> {
    TopP(TopK(ws, k), topP)
  }

  /** The first position whose cumulative weight reaches r. */
  function Pick(ws: seq<Weighted>, r: real): (i: Option<nat>)
    ensures i.Some? ==> i.value < |ws| && r <= Cumulative(ws, i.value + 1)
    ensures i.Some? ==> forall j: nat :: 0 < j <= i.value ==> Cumulative(ws, j) < r
    ensures i.None? ==> forall j: nat :: 0 < j <= |ws| ==> Cumulative(ws, j) < r
  {
    PickFrom(ws, r, 0)
  }

  function PickFrom(ws: seq<Weighted>, r: real, n: nat): (i: Option<nat>)
    requires n <= |ws| && forall j: nat :: 0 < j <= n ==> Cumulative(ws, j) < r
    ensures i.Some? ==> i.value < |ws| && r <= Cumulative(ws, i.value + 1)
    ensures i.Some? ==> forall j: nat :: 0 < j <= i.value ==> Cumulative(ws, j) < r
    ensures i.None? ==> forall j: nat :: 0 < j <= |ws| ==> Cumulative(ws, j) < r
    decreases |ws| - n
  {
    if n == |ws| then None
    else if r <= Cumulative(ws, n + 1) then Some(n)
    else PickFrom(ws, r, n + 1)
  }

  /** Cumulative weights grow. */
  lemma {:induction false} CumulativeGrows(ws: seq<Weighted>, m: nat, n: nat)
    requires NonNegative(ws) && m <= n <= |ws|
    ensures Cumulative(ws, m) <= Cumulative(ws, n)
    decreases n
  {
    if m < n {
      CumulativeGrows(ws, m, n - 1);
      assert ws[..n][..n - 1] == ws[..n - 1];
    }
  }

  /**
   Position i is drawn exactly when r lies above the weights before it and not above its own: an
   interval as long as its weight, which for the first position includes zero.
   */
  lemma DrawInterval(ws: seq<Weighted>, r: real, i: nat)
    requires NonNegative(ws) && i < |ws|
    ensures Pick(ws, r) == Some(i) <==> (i == 0 || Cumulative(ws, i) < r) && r <= Cumulative(ws, i + 1)
    ensures Cumulative(ws, i + 1) == Cumulative(ws, i) + ws[i].p
  {
    assert ws[..i + 1][..i] == ws[..i];
    var p := Pick(ws, r);
    if p.Some? && p.value < i {
      CumulativeGrows(ws, p.value + 1, i);
    }
  }

  /** The fallback after the loop is reached exactly for a draw above the total. */
  lemma FallbackUnreachable(ws: seq<Weighted>, r: real)
    requires NonNegative(ws) && ws != []
    ensures Pick(ws, r).None? <==> r > Total(ws)
  {
    assert ws[..|ws|] == ws;
    if Pick(ws, r).Some? {
      CumulativeGrows(ws, Pick(ws, r).value + 1, |ws|);
    } else {
      assert Cumulative(ws, |ws|) < r;
    }
  }

  /** A non-empty prefix of descending weights has a positive sum if the whole has. */
  lemma PrefixPositive(ws: seq<Weighted>, n: nat)
    requires NonNegative(ws) && Descending(ws) && Total(ws) > 0.0 && 0 < n <= |ws|
    ensures Total(ws[..n]) > 0.0
  {
    if ws[0].p == 0.0 {
      assert forall i :: 0 <= i < |ws| ==> ws[i].p == 0.0;
      AllZero(ws);
    }
    TotalNonNegative(ws[..n]);
  }

  ghost predicate Drawable(ws: seq<Weighted>) {
    NonNegative(ws) && Descending(ws) && Total(ws) == 1.0
  }

  lemma PrefixDrawable(ws: seq<Weighted>, n: nat)
    requires Drawable(ws) && 0 < n <= |ws|
    ensures Drawable(Renormalised(ws[..n]))
  {
    PrefixPositive(ws, n);
    RenormalisedTotal(ws[..n]);
  }

  lemma NotEmpty(ws: seq<Weighted>)
    requires Drawable(ws)
    ensures |ws| > 0
  {
  }

  /**
   The nucleus is drawable again, so the fallback is unreachable for a draw from [0, 1].  It
   keeps the tokens of a prefix of the top k: the shortest that reaches top-p.
   */
  lemma NucleusIsShortestPrefix(ws: seq<Weighted>, k: nat, topP: real)
    requires Drawable(ws)
    ensures var top, kept := TopK(ws, k), Nucleus(ws, k, topP);
      && Drawable(top) && Drawable(kept)
      && |top| == (if 0 < k < |ws| then k else |ws|) && 0 < |kept| <= |top|
      && (forall i :: 0 <= i < |kept| ==> kept[i].idx == ws[i].idx)
      && (topP < 1.0 ==> Cumulative(top, |kept|) >= topP)
      && (topP < 1.0 ==> forall m: nat :: 0 < m < |kept| ==> Cumulative(top, m) < topP)
      && (topP >= 1.0 ==> kept == top)
    ensures forall r :: 0.0 <= r <= 1.0 ==> Pick(Nucleus(ws, k, topP), r).Some?
  {
    hide Drawable, Renormalised;
    NotEmpty(ws);
    if 0 < k < |ws| {
      PrefixDrawable(ws, k);
    }
    var top := TopK(ws, k);
    NotEmpty(top);
    var n := Cutoff(top, topP);
    assert top[..|top|] == top;
    if topP < 1.0 {
      CutoffPositive(top, topP);
      PrefixDrawable(top, n);
    }
    var kept := Nucleus(ws, k, topP);
    forall r | 0.0 <= r <= 1.0
      ensures Pick(kept, r).Some?
    {
      DrawsSomething(kept, r);
    }
  }

  lemma CutoffPositive(ws: seq<Weighted>, topP: real)
    requires Drawable(ws) && topP < 1.0
    ensures 0 < Cutoff(ws, topP) && Cumulative(ws, Cutoff(ws, topP)) >= topP
  {
    assert ws[..|ws|] == ws;
  }

  lemma DrawsSomething(ws: seq<Weighted>, r: real)
    requires Drawable(ws) && r <= 1.0
    ensures Pick(ws, r).Some?
  {
    NotEmpty(ws);
    FallbackUnreachable(ws, r);
  }

  // ------------------------------------------------------------------ sorting

  /** Weights in the order of their tokens. */
  ghost predicate InTokenOrder(ws: seq<Weighted>) {
    forall i :: 0 <= i < |ws| ==> ws[i].idx == i
  }

  /** The same weights, rearranged; ties may come in any order. */
  ghost predicate SortedFrom(ws: seq<Weighted>, sorted: seq<Weighted>) {
    multiset(sorted) == multiset(ws) && Descending(sorted)
  }

  function InsertDown(s: seq<Weighted>, x: Weighted): (r: seq<Weighted>)
    ensures multiset(r) == multiset(s) + multiset{x}
  {
    if s == [] then [x]
    else if x.p >= s[0].p then [x] + s
    else
      assert s == [s[0]] + s[1..];
      [s[0]] + InsertDown(s[1..], x)
  }

  lemma {:induction false} InsertDownDescends(s: seq<Weighted>, x: Weighted)
    requires Descending(s)
    ensures Descending(InsertDown(s, x))
  {
    if s != [] && x.p < s[0].p {
      var rest := InsertDown(s[1..], x);
      InsertDownDescends(s[1..], x);
      forall j | 0 <= j < |rest|
        ensures rest[j].p <= s[0].p
      {
        assert rest[j] in multiset(rest);
        assert rest[j] in s[1..] || rest[j] == x;
      }
    }
  }

  /** Stands for the library's unstable sort; callers rely on nothing but its contract. */
  method SortDescending(ws: seq<Weighted>) returns (sorted: seq<Weighted>)
    ensures SortedFrom(ws, sorted)
  {
    sorted := [];
    for i := 0 to |ws|
      invariant SortedFrom(ws[..i], sorted)
    {
      assert ws[..i + 1] == ws[..i] + [ws[i]];
      InsertDownDescends(sorted, ws[i]);
      sorted := InsertDown(sorted, ws[i]);
    }
    assert ws[..|ws|] == ws;
  }

  lemma {:induction false} TotalRearranged(a: seq<Weighted>, b: seq<Weighted>)
    requires multiset(a) == multiset(b)
    ensures Total(a) == Total(b)
    decreases |a|
  {
    if a == [] {
      assert |multiset(b)| == 0;
    } else {
      var j := PlaceOfLast(a, b);
      TotalWithout(b, j);
      TotalRearranged(a[..|a| - 1], b[..j] + b[j + 1..]);
    }
  }

  lemma PlaceOfLast(a: seq<Weighted>, b: seq<Weighted>) returns (j: nat)
    requires a != [] && multiset(a) == multiset(b)
    ensures j < |b| && b[j] == a[|a| - 1]
    ensures multiset(a[..|a| - 1]) == multiset(b[..j] + b[j + 1..])
  {
    var last := a[|a| - 1];
    assert a == a[..|a| - 1] + [last];
    assert last in multiset(b);
    j :| 0 <= j < |b| && b[j] == last;
    assert b == b[..j] + [b[j]] + b[j + 1..];
    assert multiset(b[..j] + b[j + 1..]) == multiset(b) - multiset{last};
    assert multiset(a[..|a| - 1]) == multiset(a) - multiset{last};
  }

  lemma {:induction false} TotalWithout(b: seq<Weighted>, j: nat)
    requires j < |b|
    ensures Total(b) == Total(b[..j] + b[j + 1..]) + b[j].p
  {
    var rest := b[..j] + b[j + 1..];
    if j == |b| - 1 {
      assert rest == b[..j];
    } else {
      var init := b[..|b| - 1];
      TotalWithout(init, j);
      assert rest[..|rest| - 1] == init[..j] + init[j + 1..];
    }
  }

  /** Sorting keeps each weight with its token, and every token once. */
  lemma SortedKeepsTokens(ws: seq<Weighted>, sorted: seq<Weighted>)
    requires InTokenOrder(ws) && SortedFrom(ws, sorted)
    ensures |sorted| == |ws|
    ensures forall j :: 0 <= j < |sorted| ==> sorted[j].idx < |ws| && sorted[j] == ws[sorted[j].idx]
    ensures forall i, j :: 0 <= i < j < |sorted| ==> sorted[i].idx != sorted[j].idx
  {
    assert |multiset(sorted)| == |multiset(ws)|;
    forall j | 0 <= j < |sorted|
      ensures sorted[j].idx < |ws| && sorted[j] == ws[sorted[j].idx]
    {
      assert sorted[j] in multiset(ws);
    }
    assert NoDup(ws);
    NoDupByCount(ws);
    assert forall x :: x in sorted ==> x in multiset(sorted);
    assert forall x :: x in multiset(ws) ==> x in ws;
    NoDupByCount(sorted);
  }

  /** Every token has its place. */
  lemma TokenHasPlace(ws: seq<Weighted>, sorted: seq<Weighted>, t: nat) returns (j: nat)
    requires InTokenOrder(ws) && SortedFrom(ws, sorted) && t < |ws|
    ensures j < |sorted| && sorted[j] == ws[t]
  {
    assert ws[t] in multiset(sorted);
    j :| 0 <= j < |sorted| && sorted[j] == ws[t];
  }

  // ------------------------------------------------------------------ the sampler

  method FindCutoff(ws: seq<Weighted>, topP: real) returns (n: nat)
    ensures n == Cutoff(ws, topP)
  {
    var cumulativeProb := 0.0;
    for i := 0 to |ws|
      invariant cumulativeProb == Cumulative(ws, i) && forall m: nat :: 0 < m <= i ==> Cumulative(ws, m) < topP
      invariant CutoffFrom(ws, topP, i) == Cutoff(ws, topP)
    {
      assert ws[..i + 1][..i] == ws[..i];
      cumulativeProb := cumulativeProb + ws[i].p;
      if cumulativeProb >= topP {
        return i + 1;
      }
    }
    n := |ws|;
  }

  /** The token drawn; past all weights it is the last one, or 0 if there is none. */
  function Drawn(ws: seq<Weighted>, r: real): nat {
    match Pick(ws, r)
    case Some(i) => ws[i].idx
    case None => if ws == [] then 0 else ws[|ws| - 1].idx
  }

  method Draw(ws: seq<Weighted>, r: real) returns (token: nat)
    ensures token == Drawn(ws, r)
  {
    var cumulative := 0.0;
    for i := 0 to |ws|
      invariant cumulative == Cumulative(ws, i) && forall m: nat :: 0 < m <= i ==> Cumulative(ws, m) < r
      invariant PickFrom(ws, r, i) == Pick(ws, r)
    {
      assert ws[..i + 1][..i] == ws[..i];
      cumulative := cumulative + ws[i].p;
      if r <= cumulative {
        return ws[i].idx;
      }
    }
    token := if ws == [] then 0 else ws[|ws| - 1].idx;
  }

  /** The logits after penalty and temperature. */
  ghost function Prepared(logits: seq<Logit>, params: SampleParams, history: seq<nat>): (r: seq<Logit>)
    requires AllPenalisable(logits, history, params.repetitionPenalty)
    ensures |r| == |logits|
  {
    var penalised := PenalisedAll(logits, params, history);
    if params.temperature <= 0.00001 || params.temperature == 1.0 then penalised
    else seq(|logits|, i requires 0 <= i < |logits| => Tempered(penalised[i], params.temperature))
  }

  ghost function PenalisedAll(logits: seq<Logit>, params: SampleParams, history: seq<nat>): (r: seq<Logit>)
    requires AllPenalisable(logits, history, params.repetitionPenalty)
    ensures |r| == |logits|
  {
    seq(|logits|, i requires 0 <= i < |logits| =>
      if params.repetitionPenalty != 1.0 && i in history then Penalised(logits[i], params.repetitionPenalty)
        else logits[i])
  }

  /** The first of the largest logits. */
  ghost predicate IsFirstMax(logits: seq<Logit>, token: nat) {
    && token < |logits| && (forall j :: 0 <= j < |logits| ==> !Less(logits[token], logits[j]))
    && (forall j :: 0 <= j < token ==> Less(logits[j], logits[token]))
  }

  method Greedy(logits: array<Logit>) returns (maxIdx: nat)
    requires logits.Length > 0
    ensures IsFirstMax(logits[..], maxIdx)
  {
    maxIdx := 0;
    var maxVal := logits[0];
    for i := 0 to logits.Length
      invariant maxIdx < logits.Length && maxVal == logits[maxIdx] && (i == 0 ==> maxIdx == 0) && (i > 0 ==> maxIdx < i)
      invariant forall j :: 0 <= j < i ==> !Less(maxVal, logits[j])
      invariant forall j :: 0 <= j < maxIdx ==> Less(logits[j], maxVal)
    {
      if Less(maxVal, logits[i]) {
        maxVal := logits[i];
        maxIdx := i;
      }
    }
  }

  datatype SamplerError = EmptyLogits

  /** `r` is the random draw; `sorted` is the order the sort has chosen. */
  method SampleLogits(exp: real -> real, logits: seq<Logit>, params: SampleParams, history: seq<nat>, r: real)
      returns (token: Result<nat, SamplerError>, ghost sorted: seq<Weighted>)
    requires AllPenalisable(logits, history, params.repetitionPenalty)
    ensures logits == [] <==> token.Err?
    ensures logits != [] && params.temperature <= 0.00001 ==>
      IsFirstMax(PenalisedAll(logits, params, history), token.value)
    ensures logits != [] && params.temperature > 0.00001 ==>
      && SortedFrom(Softmax(exp, Prepared(logits, params, history)), sorted)
      && token == Ok(Drawn(Nucleus(sorted, params.topK, params.topP), r))
  {
    hide Nucleus, Drawn, SortedFrom, IsFirstMax, Renormalised, Penalised, Tempered;
    sorted := [];
    if logits == [] {
      return Err(EmptyLogits), [];
    }
    var localLogits := new Logit[|logits|](i requires 0 <= i < |logits| => logits[i]);
    assert localLogits[..] == logits;
    ApplyRepetitionPenalty(localLogits, history, params.repetitionPenalty);
    assert localLogits[..] == PenalisedAll(logits, params, history);
    if params.temperature <= 0.00001 {
      var maxIdx := Greedy(localLogits);
      return Ok(maxIdx), [];
    }
    ApplyTemperature(localLogits, params.temperature);
    assert localLogits[..] == Prepared(logits, params, history);
    var masses := Masses(exp, localLogits[..]);
    var probs := Renormalise(masses);
    probs := SortDescending(probs);
    sorted := probs;
    var drawn := DrawFrom(probs, params, r);
    token := Ok(drawn);
  }

  method DrawFrom(sorted: seq<Weighted>, params: SampleParams, r: real) returns (token: nat)
    ensures token == Drawn(Nucleus(sorted, params.topK, params.topP), r)
  {
    hide Drawn, Renormalised, Cutoff;
    var probs := sorted;
    if params.topK > 0 && params.topK < |probs| {
      probs := Renormalise(probs[..params.topK]);
    }
    if params.topP < 1.0 {
      var cutoffIdx := FindCutoff(probs, params.topP);
      CutoffFits(probs, params.topP);
      probs := Renormalise(probs[..cutoffIdx]);
    }
    token := Draw(probs, r);
  }

  lemma CutoffFits(ws: seq<Weighted>, topP: real)
    ensures Cutoff(ws, topP) <= |ws|
  {
  }

  /**
   Unless everything is masked, the sampler returns a token of the nucleus, and which one is
   decided by the interval the draw falls into; the fallback plays no part.
   */
  lemma SampledByInterval(exp: real -> real, logits: seq<Logit>, sorted: seq<Weighted>, k: nat, topP: real, r: real,
                          i: nat)
    requires IsGrowingExp(exp) && SortedFrom(Softmax(exp, logits), sorted)
    requires exists l :: 0 <= l < |logits| && logits[l].Fin?
    requires 0.0 <= r <= 1.0
    requires i < |Nucleus(sorted, k, topP)|
    ensures var kept := Nucleus(sorted, k, topP);
      && Drawable(kept) && (forall m, n :: 0 <= m < n < |kept| ==> kept[m].idx != kept[n].idx)
      && (Drawn(kept, r) == kept[i].idx <==>
            (i == 0 || Cumulative(kept, i) < r) && r <= Cumulative(kept, i) + kept[i].p)
  {
    hide Nucleus, Cumulative, Pick;
    SortedDrawable(exp, logits, sorted);
    hide Softmax, SortedFrom, IsGrowingExp, Drawable;
    NucleusIsShortestPrefix(sorted, k, topP);
    var kept := Nucleus(sorted, k, topP);
    DrawableIsNonNegative(kept);
    DrawInterval(kept, r, i);
    hide Drawn;
    SamePrefixDistinct(kept, sorted);
    DrawnIs(kept, r, i);
  }

  lemma SamePrefixDistinct(kept: seq<Weighted>, sorted: seq<Weighted>)
    requires |kept| <= |sorted| && forall i :: 0 <= i < |kept| ==> kept[i].idx == sorted[i].idx
    requires forall m, n :: 0 <= m < n < |sorted| ==> sorted[m].idx != sorted[n].idx
    ensures forall m, n :: 0 <= m < n < |kept| ==> kept[m].idx != kept[n].idx
  {
  }

  lemma DrawnIs(ws: seq<Weighted>, r: real, i: nat)
    requires Pick(ws, r).Some? && i < |ws| && forall m, n :: 0 <= m < n < |ws| ==> ws[m].idx != ws[n].idx
    ensures Drawn(ws, r) == ws[i].idx <==> Pick(ws, r) == Some(i)
  {
    PickInside(ws, r);
  }

  lemma DrawableIsNonNegative(ws: seq<Weighted>)
    requires Drawable(ws)
    ensures NonNegative(ws)
  {
  }

  lemma PickInside(ws: seq<Weighted>, r: real)
    ensures Pick(ws, r).Some? ==> Pick(ws, r).value < |ws|
  {
  }

  lemma SortedDrawable(exp: real -> real, logits: seq<Logit>, sorted: seq<Weighted>)
    requires IsGrowingExp(exp) && SortedFrom(Softmax(exp, logits), sorted)
    requires exists l :: 0 <= l < |logits| && logits[l].Fin?
    ensures Drawable(sorted)
    ensures forall m, n :: 0 <= m < n < |sorted| ==> sorted[m].idx != sorted[n].idx
  {
    var ws := Softmax(exp, logits);
    SoftmaxTotal(exp, logits);
    TotalRearranged(ws, sorted);
    SortedKeepsTokens(ws, sorted);
  }

  // ------------------------------------------------------------------ masks

  /** Token indices in an order of descending logits; ties may come in any order. */
  ghost predicate IsDescendingOrder(logits: seq<Logit>, order: seq<nat>) {
    && |order| == |logits| && (forall j :: 0 <= j < |order| ==> order[j] < |logits|)
    && NoDup(order)
    && (forall i, j :: 0 <= i < j < |order| ==> !Less(logits[order[i]], logits[order[j]]))
  }

  /** Masks everything below the k-th largest logit, given an order the sort may have chosen. */
  method ApplyTopK(logits: array<Logit>, topK: nat, order: seq<nat>)
    requires IsDescendingOrder(logits[..], order)
    modifies logits
    ensures forall i :: 0 <= i < logits.Length ==>
      logits[i] == if 0 < topK < logits.Length && Less(old(logits[i]), old(logits[order[topK - 1]]))
                   then NegInf else old(logits[i])
  {
    if topK == 0 || topK >= logits.Length {
      return;
    }
    var threshold := logits[order[topK - 1]];
    for i := 0 to logits.Length
      invariant forall j :: 0 <= j < logits.Length ==>
        logits[j] == if j < i && Less(old(logits[j]), threshold) then NegInf else old(logits[j])
    {
      if Less(logits[i], threshold) {
        logits[i] := NegInf;
      }
    }
  }

  /** A larger logit has a larger weight. */
  lemma WeightGrows(exp: real -> real, logits: seq<Logit>, a: nat, b: nat)
    requires IsGrowingExp(exp) && a < |logits| && b < |logits| && Less(logits[a], logits[b])
    ensures Softmax(exp, logits)[a].p < Softmax(exp, logits)[b].p
  {
    var ws := Masses(exp, logits);
    assert MaxLogit(logits).Fin?;
    assert ws[a].p < ws[b].p && ws[b].p > 0.0;
    SomePositive(ws, b);
    DividesStrictly(ws[a].p, ws[b].p, Total(ws));
  }

  lemma DividesStrictly(a: real, b: real, c: real)
    requires a < b && c > 0.0
    ensures a / c < b / c
  {
    var x, y := a / c, b / c;
    assert x * c == a && y * c == b;
    assert (y - x) * c == y * c - x * c;
  }

  ghost function TokensOf(ws: seq<Weighted>, n: nat): set<nat>
    requires n <= |ws|
  {
    set j | 0 <= j < n :: ws[j].idx
  }

  ghost function Firsts(order: seq<nat>, n: nat): set<nat>
    requires n <= |order|
  {
    set j | 0 <= j < n :: order[j]
  }

  lemma {:induction false} FewTokens(ws: seq<Weighted>, n: nat)
    requires n <= |ws|
    ensures |TokensOf(ws, n)| <= n
  {
    if n > 0 {
      FewTokens(ws, n - 1);
      assert TokensOf(ws, n) == TokensOf(ws, n - 1) + {ws[n - 1].idx};
    }
  }

  lemma {:induction false} ManyFirsts(order: seq<nat>, n: nat)
    requires n <= |order| && NoDup(order)
    ensures |Firsts(order, n)| == n
  {
    if n > 0 {
      ManyFirsts(order, n - 1);
      assert Firsts(order, n) == Firsts(order, n - 1) + {order[n - 1]};
      assert order[n - 1] !in Firsts(order, n - 1);
    }
  }

  lemma SubsetSmaller(a: set<nat>, b: set<nat>)
    requires a <= b
    ensures |a| <= |b|
  {
    assert b == a + (b - a);
  }

  /**
   The tokens that survive the truncation to the top k of the probabilities are all left alone
   by the mask over logits, whichever way the two sorts have broken ties.
   */
  lemma TopKInsideMask(exp: real -> real, logits: seq<Logit>, sorted: seq<Weighted>, order: seq<nat>, k: nat, j: nat)
    requires IsGrowingExp(exp) && SortedFrom(Softmax(exp, logits), sorted) && IsDescendingOrder(logits, order)
    requires 0 < k <= |logits| && j < k && k <= |sorted|
    ensures sorted[j].idx < |logits| && !Less(logits[sorted[j].idx], logits[order[k - 1]])
  {
    var ws := Softmax(exp, logits);
    SortedKeepsTokens(ws, sorted);
    if Less(logits[sorted[j].idx], logits[order[k - 1]]) {
      forall m | 0 <= m < k
        ensures order[m] in TokensOf(sorted, j)
      {
        LargerComesEarlier(exp, logits, sorted, order, k, j, m);
      }
      assert Firsts(order, k) <= TokensOf(sorted, j);
      SubsetSmaller(Firsts(order, k), TokensOf(sorted, j));
      ManyFirsts(order, k);
      FewTokens(sorted, j);
      assert false;
    }
  }

  lemma LargerComesEarlier(exp: real -> real, logits: seq<Logit>, sorted: seq<Weighted>, order: seq<nat>, k: nat,
                           j: nat, m: nat)
    requires IsGrowingExp(exp) && SortedFrom(Softmax(exp, logits), sorted) && IsDescendingOrder(logits, order)
    requires m < k <= |logits| && j < |sorted| && sorted[j].idx < |logits|
      && sorted[j] == Softmax(exp, logits)[sorted[j].idx]
    requires Less(logits[sorted[j].idx], logits[order[k - 1]])
    ensures order[m] in TokensOf(sorted, j)
  {
    hide SortedFrom, IsGrowingExp, Less, NoDup, Masses, Renormalised, Total;
    var t := order[m];
    OrderGrows(logits, order, m, k - 1);
    LessThrough(logits[sorted[j].idx], logits[order[k - 1]], logits[t]);
    WeightGrows(exp, logits, sorted[j].idx, t);
    var i := TokenHasPlace(Softmax(exp, logits), sorted, t);
    HeavierIsEarlier(Softmax(exp, logits), sorted, i, j);
    assert sorted[i].idx == t;
  }

  lemma OrderGrows(logits: seq<Logit>, order: seq<nat>, m: nat, n: nat)
    requires IsDescendingOrder(logits, order) && m <= n < |order|
    ensures order[m] < |logits| && order[n] < |logits| && !Less(logits[order[m]], logits[order[n]])
  {
  }

  lemma LessThrough(a: Logit, b: Logit, c: Logit)
    requires Less(a, b) && !Less(c, b)
    ensures Less(a, c)
  {
  }

  lemma HeavierIsEarlier(ws: seq<Weighted>, sorted: seq<Weighted>, i: nat, j: nat)
    requires SortedFrom(ws, sorted) && i < |sorted| && j < |sorted| && sorted[i].p > sorted[j].p
    ensures i < j
  {
  }

  /** Masks everything outside the nucleus of the softmax; `sorted` is the order the sort has chosen. */
  method ApplyTopP(exp: real -> real, logits: array<Logit>, topP: real, sorted: seq<Weighted>)
    requires SortedFrom(Softmax(exp, logits[..]), sorted)
    modifies logits
    ensures forall i :: 0 <= i < logits.Length ==>
      logits[i] == if topP < 1.0 && Total(Masses(exp, old(logits[..]))) > 0.0
        && i !in TokensOf(sorted, Cutoff(sorted, topP))
                   then NegInf else old(logits[i])
  {
    if topP >= 1.0 {
      return;
    }
    var sumProb := SumOf(Masses(exp, logits[..]));
    if sumProb <= 0.0 {
      return;
    }
    var cutoffIdx := FindCutoff(sorted, topP);
    var kept := set w | w in sorted[..cutoffIdx] :: w.idx;
    assert kept == TokensOf(sorted, cutoffIdx);
    for i := 0 to logits.Length
      invariant forall j :: 0 <= j < logits.Length ==>
        logits[j] == if j < i && j !in kept then NegInf else old(logits[j])
    {
      if i !in kept {
        logits[i] := NegInf;
      }
    }
  }
}
