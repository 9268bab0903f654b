/**
 The radix tree of `prefix_cache.rs` as a value: one entry per node, recording the node's own
 fields and, for the proofs, the token path that leads to it and its parent.  Describing the
 tree node by node, instead of recursively, makes splitting an edge or dropping a leaf a change
 to a few entries only.  `N` is the identity of a node.
 */
module RadixLayout {
  import opened Types

  datatype Entry<N> = Entry(
    tokens: seq<TokenId>, children: map<TokenId, N>, seqIds: seq<SeqId>,
    path: seq<TokenId>, up: N)
  {
    /** Carries no sequence and leads to none. */
    predicate Dead() {
      seqIds == [] && children == map[]
    }

    /** Holds these fields, whatever its place in the tree. */
    ghost predicate Holding(tokens: seq<TokenId>, children: map<TokenId, N>, seqIds: seq<SeqId>) {
      this.tokens == tokens && this.children == children && this.seqIds == seqIds
    }
  }

  type Path = seq<TokenId>

  datatype Layout<!N> = Layout(root: N, nodes: map<N, Entry<N>>) {

    /** Children hang under the first token of their non-empty edge, and paths add up. */
    ghost predicate NodeOk(n: N)
      requires n in nodes
    {
      var e := nodes[n];
      && (forall t :: t in e.children ==>
            var c := e.children[t];
            c in nodes && c != root && nodes[c].up == n && nodes[c].tokens != [] && nodes[c].tokens[0] == t)
      && (n != root ==>
            && e.up in nodes && e.tokens != [] && e.tokens[0] in nodes[e.up].children
            && nodes[e.up].children[e.tokens[0]] == n
            && e.path == nodes[e.up].path + e.tokens)
      && NoDup(e.seqIds)
    }

    ghost predicate Shape() {
      && root in nodes && nodes[root].path == []
      && forall n {:trigger NodeOk(n)} :: n in nodes ==> NodeOk(n)
    }

    /** Only the root may be a leaf without sequences, and perhaps the nodes in `but`. */
    ghost predicate NoDeadLeaf(but: set<N>) {
      forall n :: n in nodes && nodes[n].Dead() ==> n == root || n in but
    }

    ghost predicate Valid() {
      Shape() && NoDeadLeaf({})
    }

    /** Sequence id ends at path p. */
    ghost predicate Holds(p: Path, id: SeqId) {
      exists n :: n in nodes && nodes[n].path == p && id in nodes[n].seqIds
    }

    /** The abstract value of the tree: its (path, id) pairs. */
    ghost function Pairs(): (r: set<(Path, SeqId)>)
      ensures forall p: Path, id: SeqId :: (p, id) in r <==> Holds(p, id)
    {
      set n, id | n in nodes && id in nodes[n].seqIds :: (nodes[n].path, id)
    }

    // ---------------------------------------------------------------- finding nodes

    /** n is m, or m lies below the child of n that m's path asks for. */
    ghost predicate LeadsTo(n: N, m: N)
      requires n in nodes && m in nodes
    {
      n == m ||
      (&& |nodes[n].path| < |nodes[m].path| && nodes[m].path[|nodes[n].path|] in nodes[n].children
       && var c := nodes[n].children[nodes[m].path[|nodes[n].path|]];
          c in nodes && nodes[c].path <= nodes[m].path)
    }

    /** A node whose path is a prefix of another's leads to it. */
    lemma {:induction false} Descend(n: N, m: N)
      requires Shape() && n in nodes && m in nodes && nodes[n].path <= nodes[m].path
      ensures LeadsTo(n, m)
      decreases |nodes[n].path| + |nodes[m].path|
    {
      assert NodeOk(n) && NodeOk(m);
      if n != m && m != root {
        var pn, pm := nodes[n].path, nodes[m].path;
        var p := nodes[m].up;
        var pp := nodes[p].path;
        if |pn| <= |pp| {
          assert pn == pm[..|pn|] == pp[..|pn|];
          Descend(n, p);
        } else {
          var q := nodes[n].up;
          var pq := nodes[q].path;
          if |pp| <= |pq| {
            assert pp == pm[..|pp|] == pn[..|pp|] == pq[..|pp|];
            Descend(p, q);
          } else {
            assert pq == pn[..|pq|] == pm[..|pq|] == pp[..|pq|];
            Descend(q, p);
          }
        }
      }
    }

    /** No two nodes share a path. */
    lemma SamePathSameNode(n: N, m: N)
      requires Shape() && n in nodes && m in nodes && nodes[n].path == nodes[m].path
      ensures n == m
    {
      Descend(n, m);
    }

    // ---------------------------------------------------------------- splitting an edge

    /** Cuts the edge above c after k tokens; `below` takes over what hung under c. */
    ghost function Split(c: N, below: N, k: nat): Layout<N>
      requires Shape() && c in nodes && c != root && 0 < k < |nodes[c].tokens| && below !in nodes
    {
      var e := nodes[c];
      assert NodeOk(c);
      Layout(root, map n | n in nodes.Keys + {below} ::
        if n == below then e.(tokens := e.tokens[k..], up := c)
        else if n == c then Entry(e.tokens[..k], map[e.tokens[k] := below], [], nodes[e.up].path + e.tokens[..k], e.up)
        else if n != root && nodes[n].up == c then nodes[n].(up := below)
        else nodes[n])
    }

    lemma SplitShape(c: N, below: N, k: nat)
      requires Shape() && c in nodes && c != root && 0 < k < |nodes[c].tokens| && below !in nodes
      ensures Split(c, below, k).Shape()
    {
      var s := Split(c, below, k);
      assert NodeOk(c);
      SplitNodeOk(c, below, k, c);
      SplitNodeOk(c, below, k, below);
      forall n | n in nodes && n != c
        ensures s.NodeOk(n)
      {
        SplitNodeOk(c, below, k, n);
      }
    }

    lemma SplitNoDeadLeaf(c: N, below: N, k: nat)
      requires Valid() && c in nodes && c != root && 0 < k < |nodes[c].tokens| && below !in nodes
      ensures Split(c, below, k).NoDeadLeaf({})
    {
      var s := Split(c, below, k);
      assert nodes[c].tokens[k] in s.nodes[c].children;
      assert !nodes[c].Dead();
      forall n | n in nodes && n != c && s.nodes[n].Dead()
        ensures n == root
      {
        assert nodes[n].Dead();
      }
    }

    lemma SplitNodeOk(c: N, below: N, k: nat, n: N)
      requires Shape() && c in nodes && c != root && 0 < k < |nodes[c].tokens| && below !in nodes
      requires n in nodes || n == below
      ensures Split(c, below, k).NodeOk(n)
    {
      var s := Split(c, below, k);
      var e := nodes[c];
      assert NodeOk(c);
      if n == below {
        assert e.path == s.nodes[c].path + s.nodes[below].tokens;
        forall t | t in e.children
          ensures s.nodes[e.children[t]].up == below
        {
          assert NodeOk(e.children[t]);
        }
      } else {
        assert NodeOk(n);
      }
    }

    lemma SplitPairs(c: N, below: N, k: nat)
      requires Shape() && c in nodes && c != root && 0 < k < |nodes[c].tokens| && below !in nodes
      ensures Split(c, below, k).Pairs() == Pairs()
    {
      var s := Split(c, below, k);
      forall p, id
        ensures Holds(p, id) <==> s.Holds(p, id)
      {
        if Holds(p, id) {
          var n :| n in nodes && nodes[n].path == p && id in nodes[n].seqIds;
          var m := if n == c then below else n;
          assert m in s.nodes && s.nodes[m].path == p && id in s.nodes[m].seqIds;
        }
        if s.Holds(p, id) {
          var n :| n in s.nodes && s.nodes[n].path == p && id in s.nodes[n].seqIds;
          var m := if n == below then c else n;
          assert m in nodes && nodes[m].path == p && id in nodes[m].seqIds;
        }
      }
    }

    /** What the nodes themselves hold after a split. */
    lemma SplitFields(c: N, below: N, k: nat)
      requires Shape() && c in nodes && c != root && 0 < k < |nodes[c].tokens| && below !in nodes
      ensures var s := Split(c, below, k);
        && s.root == root && s.nodes.Keys == nodes.Keys + {below}
        && s.nodes[below].Holding(nodes[c].tokens[k..], nodes[c].children, nodes[c].seqIds)
        && s.nodes[c].Holding(nodes[c].tokens[..k], map[nodes[c].tokens[k] := below], [])
        && forall n :: n in nodes && n != c ==> s.nodes[n].Holding(nodes[n].tokens, nodes[n].children, nodes[n].seqIds)
    {
    }

    /** A split leaves the pairs alone, and a match of k tokens now ends exactly at c. */
    lemma SplitOk(n: N, tokens: seq<TokenId>, i: nat, below: N, k: nat)
      requires Valid() && Cursor(n, tokens, i) && i < |tokens| && tokens[i] in nodes[n].children && below !in nodes
      requires nodes[n].children[tokens[i]] in nodes
      requires k == Lcp(nodes[nodes[n].children[tokens[i]]].tokens, tokens[i..])
      requires 0 < k < |nodes[nodes[n].children[tokens[i]]].tokens| && nodes[n].children[tokens[i]] != root
      ensures var c := nodes[n].children[tokens[i]];
        var s := Split(c, below, k);
        && s.Valid() && s.Pairs() == Pairs()
        && s.root == root && s.nodes.Keys == nodes.Keys + {below}
        && s.Cursor(c, tokens, i + k)
    {
      var c := nodes[n].children[tokens[i]];
      SplitShape(c, below, k);
      SplitNoDeadLeaf(c, below, k);
      SplitPairs(c, below, k);
      assert NodeOk(n);
      assert tokens[..i + k] == tokens[..i] + tokens[i..][..k];
    }

    // ---------------------------------------------------------------- sequences at a node

    ghost function SetIds(n: N, ids: seq<SeqId>): Layout<N>
      requires n in nodes
    {
      Layout(root, nodes[n := nodes[n].(seqIds := ids)])
    }

    /** Only the pairs at n's own path change, and only n may become a dead leaf. */
    lemma SetIdsOk(n: N, ids: seq<SeqId>)
      requires Shape() && NoDeadLeaf({}) && n in nodes && NoDup(ids)
      ensures var s := SetIds(n, ids);
        && s.Shape() && s.NoDeadLeaf({n}) && (ids != [] ==> s.NoDeadLeaf({}))
        && forall p, id :: s.Holds(p, id) <==> if p == nodes[n].path then id in ids else Holds(p, id)
    {
      var s := SetIds(n, ids);
      forall m | m in s.nodes
        ensures s.NodeOk(m)
      {
        assert NodeOk(m);
      }
      forall m | m in s.nodes && s.nodes[m].Dead()
        ensures m == root || (m == n && ids == [])
      {
        assert m != n ==> nodes[m].Dead();
      }
      forall p, id
        ensures s.Holds(p, id) <==> if p == nodes[n].path then id in ids else Holds(p, id)
      {
        if s.Holds(p, id) {
          var m :| m in s.nodes && s.nodes[m].path == p && id in s.nodes[m].seqIds;
          if p == nodes[n].path {
            SamePathSameNode(n, m);
          } else {
            assert nodes[m].path == p && id in nodes[m].seqIds;
          }
        }
        if p == nodes[n].path && id in ids {
          assert n in s.nodes && s.nodes[n].path == p && id in s.nodes[n].seqIds;
        }
        if p != nodes[n].path && Holds(p, id) {
          var m :| m in nodes && nodes[m].path == p && id in nodes[m].seqIds;
          assert s.nodes[m].path == p && id in s.nodes[m].seqIds;
        }
      }
    }

    // ---------------------------------------------------------------- adding and dropping leaves

    ghost function AddLeaf(n: N, leaf: N, toks: seq<TokenId>, id: SeqId): Layout<N>
      requires n in nodes && leaf !in nodes && toks != []
    {
      var e := nodes[n];
      Layout(root, nodes[n := e.(children := e.children[toks[0] := leaf])]
                        [leaf := Entry(toks, map[], [id], e.path + toks, n)])
    }

    /** What the nodes themselves hold once a leaf has been added. */
    lemma AddLeafFields(n: N, leaf: N, toks: seq<TokenId>, id: SeqId)
      requires n in nodes && leaf !in nodes && toks != []
      ensures var s := AddLeaf(n, leaf, toks, id);
        && s.root == root && s.nodes.Keys == nodes.Keys + {leaf} && s.nodes[leaf].Holding(toks, map[], [id])
        && s.nodes[n].Holding(nodes[n].tokens, nodes[n].children[toks[0] := leaf], nodes[n].seqIds)
        && forall m :: m in nodes && m != n ==> s.nodes[m].Holding(nodes[m].tokens, nodes[m].children, nodes[m].seqIds)
    {
    }

    lemma AddLeafNodeOk(n: N, leaf: N, toks: seq<TokenId>, id: SeqId, m: N)
      requires Valid() && n in nodes && leaf !in nodes && toks != [] && toks[0] !in nodes[n].children
      requires m in AddLeaf(n, leaf, toks, id).nodes
      ensures var s := AddLeaf(n, leaf, toks, id); s.NodeOk(m) && (s.nodes[m].Dead() ==> m == root)
    {
      var s := AddLeaf(n, leaf, toks, id);
      if m != leaf {
        assert NodeOk(m);
        if m == n {
          assert toks[0] in s.nodes[n].children;
        }
      }
    }

    lemma AddLeafHolds(n: N, leaf: N, toks: seq<TokenId>, id: SeqId, p: Path, x: SeqId)
      requires n in nodes && leaf !in nodes && toks != []
      ensures AddLeaf(n, leaf, toks, id).Holds(p, x) <==> Holds(p, x) || (p == nodes[n].path + toks && x == id)
    {
      var s := AddLeaf(n, leaf, toks, id);
      assert s.nodes[leaf].path == nodes[n].path + toks && s.nodes[leaf].seqIds == [id];
      if Holds(p, x) {
        var m :| m in nodes && nodes[m].path == p && x in nodes[m].seqIds;
        assert s.nodes[m].path == p && x in s.nodes[m].seqIds;
      }
      if s.Holds(p, x) {
        var m :| m in s.nodes && s.nodes[m].path == p && x in s.nodes[m].seqIds;
        assert m != leaf ==> nodes[m].path == p && x in nodes[m].seqIds;
      }
    }

    lemma AddLeafOk(n: N, leaf: N, toks: seq<TokenId>, id: SeqId)
      requires Valid() && n in nodes && leaf !in nodes && toks != [] && toks[0] !in nodes[n].children
      ensures var s := AddLeaf(n, leaf, toks, id);
        && s.Valid()
        && forall p, x :: s.Holds(p, x) <==> Holds(p, x) || (p == nodes[n].path + toks && x == id)
    {
      var s := AddLeaf(n, leaf, toks, id);
      forall m | m in s.nodes
        ensures s.NodeOk(m) && (s.nodes[m].Dead() ==> m == root)
      {
        AddLeafNodeOk(n, leaf, toks, id, m);
      }
      forall p, x
        ensures s.Holds(p, x) <==> Holds(p, x) || (p == nodes[n].path + toks && x == id)
      {
        AddLeafHolds(n, leaf, toks, id, p, x);
      }
      hide NodeOk, Holds;
    }

    ghost function DropLeaf(c: N): Layout<N>
      requires c in nodes && c != root && nodes[c].up in nodes && nodes[c].up != c && nodes[c].tokens != []
    {
      var p := nodes[c].up;
      var e := nodes[p];
      Layout(root, nodes[p := e.(children := e.children - {nodes[c].tokens[0]})] - {c})
    }

    /** What dropping a leaf does to the nodes that stay. */
    lemma DropLeafFields(c: N)
      requires c in nodes && c != root && nodes[c].up in nodes && nodes[c].up != c && nodes[c].tokens != []
      ensures var s := DropLeaf(c);
        && s.root == root && s.nodes.Keys == nodes.Keys - {c}
        && forall m :: m in s.nodes ==>
             && s.nodes[m].tokens == nodes[m].tokens && s.nodes[m].seqIds == nodes[m].seqIds
             && s.nodes[m].children ==
                  if m == nodes[c].up then nodes[m].children - {nodes[c].tokens[0]} else nodes[m].children
    {
    }

    /** A child's place is where its first token says. */
    lemma ChildPlace(n: N, t: TokenId)
      requires Shape() && n in nodes && t in nodes[n].children
      ensures var c := nodes[n].children[t];
        && c in nodes && c != root && c != n && nodes[c].up == n && nodes[c].tokens != [] && nodes[c].tokens[0] == t
    {
      assert NodeOk(n) && NodeOk(nodes[n].children[t]);
    }

    lemma DropLeafOk(c: N)
      requires Shape() && c in nodes && c != root && nodes[c].Dead() && NoDeadLeaf({c})
      ensures nodes[c].up in nodes && nodes[c].up != c && nodes[c].tokens != []
      ensures var s := DropLeaf(c);
        s.Shape() && s.NoDeadLeaf({nodes[c].up}) && s.Pairs() == Pairs()
    {
      assert NodeOk(c);
      var p := nodes[c].up;
      var s := DropLeaf(c);
      forall m | m in s.nodes
        ensures s.NodeOk(m) && (s.nodes[m].Dead() ==> m == root || m == p)
      {
        assert NodeOk(m);
        assert m != p ==> s.nodes[m] == nodes[m];
      }
      forall q, x
        ensures s.Holds(q, x) <==> Holds(q, x)
      {
        if Holds(q, x) {
          var m :| m in nodes && nodes[m].path == q && x in nodes[m].seqIds;
          assert m in s.nodes && s.nodes[m].path == q && x in s.nodes[m].seqIds;
        }
        if s.Holds(q, x) {
          var m :| m in s.nodes && s.nodes[m].path == q && x in s.nodes[m].seqIds;
          assert nodes[m].path == q && x in nodes[m].seqIds;
        }
      }
    }

    /** Pushes an id unless the node has it already. */
    ghost function PushId(n: N, id: SeqId): Layout<N>
      requires n in nodes
    {
      if id in nodes[n].seqIds then this else SetIds(n, nodes[n].seqIds + [id])
    }

    lemma PushIdOk(n: N, tokens: seq<TokenId>, id: SeqId)
      requires Valid() && Cursor(n, tokens, |tokens|)
      ensures var s := PushId(n, id);
        s.Valid() && s.Pairs() == Pairs() + {(tokens, id)}
    {
      assert NodeOk(n);
      assert tokens[..|tokens|] == tokens;
      HoldsAt(n, id);
      if id !in nodes[n].seqIds {
        SetIdsOk(n, nodes[n].seqIds + [id]);
        forall x
          ensures Holds(tokens, x) <==> x in nodes[n].seqIds
        {
          HoldsAt(n, x);
        }
      }
    }

    /** Whether a pair is in the tree can be read off the node at its path. */
    lemma HoldsAt(n: N, id: SeqId)
      requires Shape() && n in nodes
      ensures Holds(nodes[n].path, id) <==> id in nodes[n].seqIds
    {
      if Holds(nodes[n].path, id) {
        var m :| m in nodes && nodes[m].path == nodes[n].path && id in nodes[m].seqIds;
        SamePathSameNode(n, m);
      }
    }

    /** A new leaf adds one pair. */
    lemma NewLeafOk(n: N, tokens: seq<TokenId>, i: nat, leaf: N, id: SeqId)
      requires Valid() && Cursor(n, tokens, i) && i < |tokens| && tokens[i] !in nodes[n].children && leaf !in nodes
      ensures var s := AddLeaf(n, leaf, tokens[i..], id);
        s.Valid() && s.Pairs() == Pairs() + {(tokens, id)}
    {
      AddLeafOk(n, leaf, tokens[i..], id);
      assert tokens == tokens[..i] + tokens[i..];
    }

    // ---------------------------------------------------------------- subtrees

    /** The nodes at or below n. */
    ghost function Below(n: N): set<N>
      requires n in nodes
    {
      set m | m in nodes && nodes[n].path <= nodes[m].path
    }

    lemma ChildBelow(n: N, t: TokenId)
      requires Shape() && n in nodes && t in nodes[n].children
      ensures var c := nodes[n].children[t]; c in nodes && c != root && Below(c) < Below(n)
      ensures nodes[nodes[n].children[t]].path == nodes[n].path + nodes[nodes[n].children[t]].tokens
    {
      assert NodeOk(n);
      var c := nodes[n].children[t];
      assert NodeOk(c);
      assert n in Below(n) && n !in Below(c);
    }

    /** Whatever lies below n is n itself or below one of its children. */
    lemma BelowSplits(n: N, m: N)
      requires Shape() && n in nodes && m in Below(n)
      ensures m == n || exists t ::
        t in nodes[n].children && nodes[n].children[t] in nodes && m in Below(nodes[n].children[t])
    {
      Descend(n, m);
    }

    ghost predicate IdBelow(n: N, id: SeqId)
      requires n in nodes
    {
      exists m :: m in Below(n) && id in nodes[m].seqIds
    }

    ghost predicate IdBelowChild(n: N, t: TokenId, id: SeqId)
      requires n in nodes && t in nodes[n].children
    {
      var c := nodes[n].children[t];
      c in nodes && IdBelow(c, id)
    }

    lemma IdBelowSplits(n: N, id: SeqId)
      requires Shape() && n in nodes
      ensures IdBelow(n, id) <==>
        id in nodes[n].seqIds || exists t :: t in nodes[n].children && IdBelowChild(n, t, id)
    {
      if IdBelow(n, id) {
        var m :| m in Below(n) && id in nodes[m].seqIds;
        BelowSplits(n, m);
        if m != n {
          var t :| t in nodes[n].children && nodes[n].children[t] in nodes && m in Below(nodes[n].children[t]);
          assert IdBelowChild(n, t, id);
        }
      }
      if id in nodes[n].seqIds {
        assert n in Below(n);
      }
      if t :| t in nodes[n].children && IdBelowChild(n, t, id) {
        var m :| m in Below(nodes[n].children[t]) && id in nodes[m].seqIds;
        ChildBelow(n, t);
        assert m in Below(n);
      }
    }

    /** Without dead leaves, some sequence lies below every node but the root. */
    lemma {:induction false} SomeIdBelow(n: N)
      requires Valid() && n in nodes && n != root
      ensures exists id :: IdBelow(n, id)
      decreases Below(n)
    {
      if nodes[n].seqIds != [] {
        assert n in Below(n) && IdBelow(n, nodes[n].seqIds[0]);
      } else {
        assert !nodes[n].Dead();
        var t :| t in nodes[n].children;
        ChildBelow(n, t);
        SomeIdBelow(nodes[n].children[t]);
        var id :| IdBelow(nodes[n].children[t], id);
        assert IdBelowChild(n, t, id);
        IdBelowSplits(n, id);
      }
    }

    // ---------------------------------------------------------------- matching a token list

    /** n is where the first i tokens lead. */
    ghost predicate Cursor(n: N, tokens: seq<TokenId>, i: nat) {
      n in nodes && i <= |tokens| && nodes[n].path == tokens[..i]
    }

    /** Nothing in the tree shares more than i tokens with the list. */
    ghost predicate NoBetter(tokens: seq<TokenId>, i: nat) {
      forall m :: m in nodes ==> Lcp(nodes[m].path, tokens) <= i
    }

    /** Having prefix p and lying below n are the same thing. */
    ghost predicate Covers(n: N, p: Path)
      requires n in nodes
    {
      forall m :: m in nodes ==> (p <= nodes[m].path <==> m in Below(n))
    }

    /** No child for the next token: the match ends at n. */
    lemma MatchEndsAtNode(n: N, tokens: seq<TokenId>, i: nat)
      requires Shape() && Cursor(n, tokens, i)
      requires i == |tokens| || tokens[i] !in nodes[n].children
      ensures NoBetter(tokens, i) && Covers(n, tokens[..i])
    {
      forall m | m in nodes
        ensures Lcp(nodes[m].path, tokens) <= i
      {
        var k := Lcp(nodes[m].path, tokens);
        if i < k {
          PrefixOfPrefix(nodes[m].path, tokens, i, k);
          Descend(n, m);
        }
      }
    }

    static lemma PrefixOfPrefix(a: Path, b: Path, i: nat, k: nat)
      requires i < k <= |a| && k <= |b| && a[..k] == b[..k]
      ensures a[..i] == b[..i] && a[i] == b[i]
    {
      assert a[..i] == a[..k][..i] && b[..i] == b[..k][..i];
      assert a[i] == a[..k][i] && b[i] == b[..k][i];
    }

    /** The list follows the edge to c for k tokens. */
    lemma EdgeMatch(n: N, tokens: seq<TokenId>, i: nat, k: nat)
      requires Shape() && Cursor(n, tokens, i) && i < |tokens| && tokens[i] in nodes[n].children
      requires nodes[n].children[tokens[i]] in nodes
      requires k == Lcp(nodes[nodes[n].children[tokens[i]]].tokens, tokens[i..])
      ensures var c := nodes[n].children[tokens[i]];
        && 0 < k && i + k <= |tokens| && c != root
        && tokens[..i + k] <= nodes[c].path
        && (k == |nodes[c].tokens| ==> Cursor(c, tokens, i + k))
    {
      var c := nodes[n].children[tokens[i]];
      assert NodeOk(n) && NodeOk(c);
      var edge := nodes[c].tokens;
      assert edge[..1] == tokens[i..][..1];
      SharedPrefixBound(edge, tokens[i..], 1);
      assert tokens[..i + k] == tokens[..i] + tokens[i..][..k];
      assert nodes[c].path[..i + k] == tokens[..i] + edge[..k];
    }

    /** Whatever shares the first token of an edge with the list is below the edge. */
    lemma CoveredByEdge(n: N, tokens: seq<TokenId>, i: nat, k: nat)
      requires Shape() && Cursor(n, tokens, i) && 0 < k && i + k <= |tokens| && tokens[i] in nodes[n].children
      requires nodes[n].children[tokens[i]] in nodes
      ensures forall m :: m in nodes && tokens[..i + k] <= nodes[m].path ==> m in Below(nodes[n].children[tokens[i]])
    {
      hide Shape;
      var p := tokens[..i + k];
      forall m | m in nodes && p <= nodes[m].path
        ensures m in Below(nodes[n].children[tokens[i]])
      {
        assert nodes[n].path == p[..i] == nodes[m].path[..i];
        assert nodes[m].path[i] == p[i] == tokens[i];
        Descend(n, m);
      }
    }

    /** The list leaves the edge to c in the middle: the match ends there. */
    lemma MatchEndsInEdge(n: N, tokens: seq<TokenId>, i: nat, k: nat)
      requires Shape() && Cursor(n, tokens, i) && i < |tokens| && tokens[i] in nodes[n].children
      requires nodes[n].children[tokens[i]] in nodes
      requires k == Lcp(nodes[nodes[n].children[tokens[i]]].tokens, tokens[i..])
      requires k < |nodes[nodes[n].children[tokens[i]]].tokens|
      ensures i + k <= |tokens| && NoBetter(tokens, i + k) && Covers(nodes[n].children[tokens[i]], tokens[..i + k])
    {
      var c := nodes[n].children[tokens[i]];
      EdgeMatch(n, tokens, i, k);
      ChildBelow(n, tokens[i]);
      assert nodes[c].path[i + k] == nodes[c].tokens[k];
      assert i + k < |tokens| ==> tokens[i + k] == tokens[i..][k];
      CoveredByEdge(n, tokens, i, k);
      hide Shape;
      forall m | m in nodes
        ensures Lcp(nodes[m].path, tokens) <= i + k
      {
        var l := Lcp(nodes[m].path, tokens);
        if i + k < l {
          PrefixOfPrefix(nodes[m].path, tokens, i + k, l);
        }
      }
    }

    /** One step of a match: along the whole edge to c, or ending inside it. */
    lemma EdgeStep(n: N, tokens: seq<TokenId>, i: nat, c: N, k: nat)
      requires Shape() && Cursor(n, tokens, i) && i < |tokens|
      requires tokens[i] in nodes[n].children && c == nodes[n].children[tokens[i]]
      requires c in nodes ==> k == Lcp(nodes[c].tokens, tokens[i..])
      ensures c in nodes && c != root && 0 < k <= |nodes[c].tokens| && i + k <= |tokens|
      ensures tokens[..i + k] <= nodes[c].path
      ensures k == |nodes[c].tokens| ==> Cursor(c, tokens, i + k)
      ensures k < |nodes[c].tokens| ==> NoBetter(tokens, i + k) && Covers(c, tokens[..i + k])
    {
      ChildBelow(n, tokens[i]);
      EdgeMatch(n, tokens, i, k);
      if k < |nodes[c].tokens| {
        MatchEndsInEdge(n, tokens, i, k);
      }
    }

    // ---------------------------------------------------------------- removing a sequence

    /** On the way to `target`, the child for the next token is the next step. */
    lemma WalkOn(n: N, tokens: seq<TokenId>, i: nat, target: N)
      requires Shape() && Cursor(n, tokens, i) && i < |tokens|
      requires target in nodes && nodes[target].path == tokens
      ensures tokens[i] in nodes[n].children
      ensures var c := nodes[n].children[tokens[i]];
        && c in nodes && c != root && nodes[c].up == n && nodes[c].tokens != [] && nodes[c].tokens[0] == tokens[i]
        && Cursor(c, tokens, i + |nodes[c].tokens|)
    {
      Descend(n, target);
      assert NodeOk(n);
      var c := nodes[n].children[tokens[i]];
      assert NodeOk(c);
      assert nodes[c].path == tokens[..|nodes[c].path|];
    }

    /** Taking an id off its node removes one pair; that node may now be a dead leaf. */
    lemma DropIdOk(n: N, id: SeqId)
      requires Valid() && n in nodes
      ensures var s := SetIds(n, RemoveFirst(nodes[n].seqIds, id));
        && s.Shape() && s.NoDeadLeaf({n}) && s.Pairs() == Pairs() - {(nodes[n].path, id)}
    {
      assert NodeOk(n);
      RemoveFirstNoDup(nodes[n].seqIds, id);
      SetIdsOk(n, RemoveFirst(nodes[n].seqIds, id));
      forall x
        ensures Holds(nodes[n].path, x) <==> x in nodes[n].seqIds
      {
        HoldsAt(n, x);
      }
    }

    /** Entries keep their place: only children, ids and membership may differ from `was`. */
    ghost predicate SubLayout(was: Layout<N>) {
      && root == was.root
      && forall n :: n in nodes ==>
           (&& n in was.nodes && nodes[n].tokens == was.nodes[n].tokens
            && nodes[n].path == was.nodes[n].path && nodes[n].up == was.nodes[n].up)
    }

    lemma DropLeafSub(c: N)
      requires Shape() && c in nodes && c != root && nodes[c].Dead() && NoDeadLeaf({c})
      requires nodes[c].up in nodes && nodes[c].up != c && nodes[c].tokens != []
      ensures DropLeaf(c).SubLayout(this)
    {
    }
  }
}
