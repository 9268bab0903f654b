/**
 The prefix cache: a radix tree over token paths next to the plain map it must agree with, and
 the list of recycled sequences awaiting removal.
 */
module PrefixCaches {
  import opened Types
  import opened RadixLayout
  import opened Radix

  datatype MatchResult = MatchResult(
    matchedOffset: nat, forkSeqId: Option<SeqId>, reuseSeqId: Option<SeqId>, rolledBackTokens: nat)

  type Paths = map<SeqId, Path>

  /** What the tree has to hold for these sequences. */
  ghost function PairsOf(m: Paths): (r: set<(Path, SeqId)>)
    ensures forall p: Path, id: SeqId :: (p, id) in r <==> id in m && m[id] == p
  {
    set id | id in m :: (m[id], id)
  }

  /** n is the length of the longest prefix of tokens that some stored sequence shares. */
  ghost predicate LongestShared(m: Paths, tokens: seq<TokenId>, n: nat) {
    && (forall id :: id in m ==> Lcp(m[id], tokens) <= n)
    && (n > 0 ==> exists id :: Shares(m, id, tokens, n))
  }

  /** The path stored for id starts with this prefix. */
  ghost predicate StartsWith(m: Paths, id: SeqId, prefix: Path) {
    id in m && prefix <= m[id]
  }

  /** Stored sequence id shares exactly n tokens. */
  ghost predicate Shares(m: Paths, id: SeqId, tokens: seq<TokenId>, n: nat) {
    id in m && Lcp(m[id], tokens) == n
  }

  /** Storing a sequence adds its pair; a different path it had before stays behind in the tree. */
  lemma StoredPairs(m: Paths, id: SeqId, path: Path)
    ensures PairsOf(m[id := path]) ==
      (if id in m then PairsOf(m) - {(m[id], id)} else PairsOf(m)) + {(path, id)}
    ensures PairsOf(m) + {(path, id)} == PairsOf(m[id := path]) <==> id !in m || m[id] == path
  {
    var m' := m[id := path];
    if id in m && m[id] != path {
      assert (m[id], id) in PairsOf(m) && (m[id], id) !in PairsOf(m');
    }
  }

  lemma DroppedPairs(m: Paths, id: SeqId)
    requires id in m
    ensures PairsOf(m - {id}) == PairsOf(m) - {(m[id], id)}
  {
  }

  /** The list without this id, if there is one. */
  function WithoutOption(s: seq<SeqId>, id: Option<SeqId>): seq<SeqId> {
    match id case None => s case Some(x) => RemoveFirst(s, x)
  }

  /** The path loses its last tokens, at most all of them; nothing else changes. */
  function RolledBack(m: Paths, id: SeqId, numTokens: nat): (r: Paths)
    ensures r.Keys == m.Keys && forall x :: x in m && x != id ==> r[x] == m[x]
    ensures id in m ==> r[id] <= m[id] && |r[id]| == (if numTokens < |m[id]| then |m[id]| - numTokens else 0)
  {
    if id !in m then m
    else if numTokens >= |m[id]| then m[id := []]
    else m[id := m[id][..|m[id]| - numTokens]]
  }

  /** The stored paths and the recycling list after recycling id. */
  function Recycled(m: Paths, recycling: seq<SeqId>, max: nat, id: SeqId): (Paths, seq<SeqId>) {
    if max == 0 then (m - {id}, RemoveFirst(recycling, id))
    else
      var full := |recycling| >= max;
      var kept := if full then recycling[1..] else recycling;
      var m' := if full then m - {recycling[0]} else m;
      (m', if id !in kept && id in m' then kept + [id] else kept)
  }

  /**
   Recycling with room for some: the list keeps its order and its bound, only its oldest entry may
   be evicted, and then leaves the stored paths too; a stored id is on the list afterwards, at its
   end if it was not on it before, unless it has itself been the one evicted.
   */
  lemma RecycledPlaces(m: Paths, recycling: seq<SeqId>, max: nat, id: SeqId)
    requires 0 < max && NoDup(recycling) && |recycling| <= max && forall x :: x in recycling ==> x in m
    ensures var (p, r) := Recycled(m, recycling, max, id);
      var evicts := |recycling| == max;
      && |r| <= max && NoDup(r) && (forall x :: x in r ==> x in p)
      && (id in r <==> id in m && !(evicts && recycling[0] == id))
      && (id !in recycling && id in m ==> r == (if evicts then recycling[1..] else recycling) + [id])
      && (id !in m ==> r == if evicts then recycling[1..] else recycling)
      && p == if evicts then m - {recycling[0]} else m
  {
    if |recycling| == max {
      PrefixCache.FirstOnce(recycling);
    }
  }

  class PrefixCache {
    const tree: RadixTree
    var seqToPath: Paths
    const maxRecyclingSeqs: nat
    var recyclingSeqs: seq<SeqId>

    constructor (maxRecyclingSeqs: nat)
      ensures Valid() && fresh(tree) && fresh(tree.nodes)
      ensures seqToPath == map[] && recyclingSeqs == [] && this.maxRecyclingSeqs == maxRecyclingSeqs
    {
      tree := new RadixTree();
      seqToPath := map[];
      this.maxRecyclingSeqs := maxRecyclingSeqs;
      recyclingSeqs := [];
    }

    /** Tree and map agree; recycled sequences are distinct, stored, and not too many. */
    ghost predicate Valid()
      reads this, tree, tree.nodes
    {
      Agrees() && RecyclingOk()
    }

    ghost predicate Agrees()
      reads this`seqToPath, tree, tree.nodes
    {
      tree.Valid() && tree.Pairs() == PairsOf(seqToPath)
    }

    ghost predicate RecyclingOk()
      reads this`seqToPath, this`recyclingSeqs
    {
      && NoDup(recyclingSeqs) && |recyclingSeqs| <= maxRecyclingSeqs
      && forall id :: id in recyclingSeqs ==> id in seqToPath
    }

    predicate HasSequence(id: SeqId)
      reads this
    {
      id in seqToPath
    }

    method AddSequence(id: SeqId)
      requires Valid()
      modifies this`seqToPath, tree`lay, tree`nodes, tree.nodes
      ensures seqToPath == if id in old(seqToPath) then old(seqToPath) else old(seqToPath)[id := []]
      ensures tree.OnlyNew()
      ensures Valid()
    {
      if HasSequence(id) {
        return;
      }
      StoredPairs(seqToPath, id, []);
      tree.PushRootId(id);
      seqToPath := seqToPath[id := []];
    }

    /** The stored paths are the paths of nodes, and the other way round for nodes with ids. */
    lemma StoredAt(id: SeqId) returns (n: RadixNode)
      requires Valid() && id in seqToPath
      ensures n in tree.lay.nodes && tree.lay.nodes[n].path == seqToPath[id] && id in tree.lay.nodes[n].seqIds
    {
      assert (seqToPath[id], id) in PairsOf(seqToPath);
      assert tree.lay.Holds(seqToPath[id], id);
      n :| n in tree.lay.nodes && tree.lay.nodes[n].path == seqToPath[id] && id in tree.lay.nodes[n].seqIds;
    }

    lemma AtNodeStored(n: RadixNode, id: SeqId)
      requires Valid() && n in tree.lay.nodes && id in tree.lay.nodes[n].seqIds
      ensures id in seqToPath && seqToPath[id] == tree.lay.nodes[n].path
    {
      assert tree.lay.Holds(tree.lay.nodes[n].path, id);
      assert (tree.lay.nodes[n].path, id) in tree.Pairs();
    }

    /** An id below a node whose path starts with these tokens shares all of them. */
    lemma SharesBelow(n: RadixNode, prefix: Path, id: SeqId)
      requires Valid() && n in tree.lay.nodes && prefix <= tree.lay.nodes[n].path && tree.lay.IdBelow(n, id)
      ensures StartsWith(seqToPath, id, prefix)
    {
      var m :| m in tree.lay.Below(n) && id in tree.lay.nodes[m].seqIds;
      AtNodeStored(m, id);
    }

    lemma NoBetterStored(tokens: seq<TokenId>, n: nat)
      requires Valid() && tree.lay.NoBetter(tokens, n)
      ensures forall id :: id in seqToPath ==> Lcp(seqToPath[id], tokens) <= n
    {
      forall id | id in seqToPath
        ensures Lcp(seqToPath[id], tokens) <= n
      {
        var m := StoredAt(id);
      }
    }

    /** Compares the list with the edge for its next token and finds a sequence below it. */
    method MatchEdge(curr: RadixNode, tokens: seq<TokenId>, pathIdx: nat)
        returns (nodeMatch: nat, sharing: Option<SeqId>)
      requires Valid() && tree.lay.Cursor(curr, tokens, pathIdx)
      requires pathIdx < |tokens| && tokens[pathIdx] in curr.children
      ensures var child := curr.children[tokens[pathIdx]];
        && child in tree.lay.nodes && 0 < nodeMatch <= |child.tokens| && pathIdx + nodeMatch <= |tokens|
        && (nodeMatch == |child.tokens| ==> tree.lay.Cursor(child, tokens, pathIdx + nodeMatch))
        && (nodeMatch < |child.tokens| ==> tree.lay.NoBetter(tokens, pathIdx + nodeMatch))
      ensures sharing.Some? && StartsWith(seqToPath, sharing.value, tokens[..pathIdx + nodeMatch])
    {
      var child := curr.children[tokens[pathIdx]];
      tree.lay.ChildBelow(curr, tokens[pathIdx]);
      nodeMatch := RadixTree.MatchLen(child.tokens, tokens, pathIdx);
      tree.lay.EdgeStep(curr, tokens, pathIdx, child, nodeMatch);
      sharing := tree.FindAnySequence(child);
      tree.lay.SomeIdBelow(child);
      SharesBelow(child, tokens[..pathIdx + nodeMatch], sharing.value);
    }

    /**
     Walks down the tree as long as tokens and edges agree; `best` is a sequence sharing the
     tokens matched so far.
     */
    method FindLongestMatch(tokens: seq<TokenId>) returns (matchedLen: nat, best: Option<SeqId>)
      requires Valid()
      ensures LongestShared(seqToPath, tokens, matchedLen)
      ensures matchedLen > 0 <==> best.Some?
      ensures best.Some? ==> Shares(seqToPath, best.value, tokens, matchedLen)
    {
      var curr := tree.root;
      matchedLen, best := 0, None;
      while true
        invariant tree.lay.Cursor(curr, tokens, matchedLen)
        invariant matchedLen > 0 <==> best.Some?
        invariant best.Some? ==> StartsWith(seqToPath, best.value, tokens[..matchedLen])
        decreases |tokens| - matchedLen
      {
        if matchedLen >= |tokens| || tokens[matchedLen] !in curr.children {
          tree.lay.MatchEndsAtNode(curr, tokens, matchedLen);
          break;
        }
        var child := curr.children[tokens[matchedLen]];
        var nodeMatch;
        nodeMatch, best := MatchEdge(curr, tokens, matchedLen);
        matchedLen := matchedLen + nodeMatch;
        if nodeMatch < |child.tokens| {
          break;
        }
        curr := child;
      }
      NoBetterStored(tokens, matchedLen);
      if best.Some? {
        SharesExactly(seqToPath, best.value, tokens, matchedLen);
      }
    }

    static lemma SharesExactly(m: Paths, id: SeqId, tokens: seq<TokenId>, n: nat)
      requires n <= |tokens| && StartsWith(m, id, tokens[..n]) && Lcp(m[id], tokens) <= n
      ensures Shares(m, id, tokens, n)
    {
      SharedPrefixBound(m[id], tokens, n);
    }

    /** Takes id off the recycling list, if it is there. */
    method TakeRecycled(id: SeqId) returns (found: bool)
      requires NoDup(recyclingSeqs)
      modifies this`recyclingSeqs
      ensures Agrees() == old(Agrees())
      ensures found == (id in old(recyclingSeqs)) && recyclingSeqs == RemoveFirst(old(recyclingSeqs), id)
      ensures NoDup(recyclingSeqs) && |recyclingSeqs| <= |old(recyclingSeqs)|
      ensures forall x :: x in recyclingSeqs <==> x in old(recyclingSeqs) && x != id
    {
      found := id in recyclingSeqs;
      RemoveFirstNoDup(recyclingSeqs, id);
      if found {
        recyclingSeqs := RemoveFirst(recyclingSeqs, id);
      }
    }

    /** Adds a path to tree and map. */
    method Store(id: SeqId, path: Path)
      requires Agrees()
      modifies this`seqToPath, tree`lay, tree`nodes, tree.nodes
      ensures seqToPath == old(seqToPath)[id := path]
      ensures tree.Valid() && tree.Pairs() == old(tree.Pairs()) + {(path, id)}
      ensures Agrees() <==> old(id !in seqToPath || seqToPath[id] == path)
      ensures tree.OnlyNew()
    {
      StoredPairs(seqToPath, id, path);
      tree.InsertPath(id, path);
      seqToPath := seqToPath[id := path];
    }

    /**
     Stores a sequence and reports the longest prefix it shares with those stored before.  With
     an id already stored under another path, the old tree entry stays behind.
     */
    method InsertSequence(id: SeqId, tokens: seq<TokenId>) returns (r: MatchResult)
      requires Valid()
      modifies this`seqToPath, this`recyclingSeqs, tree`lay, tree`nodes, tree.nodes
      ensures seqToPath == old(seqToPath)[id := tokens]
      ensures Valid() <==> old(id !in seqToPath || seqToPath[id] == tokens)
      ensures LongestShared(old(seqToPath), tokens, r.matchedOffset) && r.rolledBackTokens == 0
      ensures r.matchedOffset == 0 ==> r.forkSeqId.None? && r.reuseSeqId.None?
      ensures r.matchedOffset > 0 ==> r.forkSeqId.Some? != r.reuseSeqId.Some?
      ensures forall x :: r.forkSeqId == Some(x) ==> Shares(old(seqToPath), x, tokens, r.matchedOffset)
      ensures forall x :: r.forkSeqId == Some(x) ==> x !in old(recyclingSeqs) || x == id
      ensures forall x :: r.reuseSeqId == Some(x) ==> Shares(old(seqToPath), x, tokens, r.matchedOffset)
      ensures forall x :: r.reuseSeqId == Some(x) ==> x in old(recyclingSeqs) && x != id
      ensures NoDup(recyclingSeqs)
      ensures recyclingSeqs == WithoutOption(RemoveFirst(old(recyclingSeqs), id), r.reuseSeqId)
      ensures forall x :: x in recyclingSeqs <==> x in old(recyclingSeqs) && x != id && r.reuseSeqId != Some(x)
      ensures tree.OnlyNew()
    {
      hide Layout.Holds, Layout.Pairs, PairsOf, Layout.Valid, RadixTree.Mirrors, RadixTree.Valid;
      hide Agrees, LongestShared, Shares, Lcp, RemoveFirst, NoDup;
      var wasRecycled := TakeRecycled(id);
      var matchedLen, best := FindLongestMatch(tokens);
      Store(id, tokens);
      r := NameMatch(matchedLen, best);
    }

    /** The sequence found is reused if it is on the recycling list, and forked otherwise. */
    method NameMatch(matchedLen: nat, best: Option<SeqId>) returns (r: MatchResult)
      requires NoDup(recyclingSeqs) && (matchedLen > 0 <==> best.Some?)
      modifies this`recyclingSeqs
      ensures r.matchedOffset == matchedLen && r.rolledBackTokens == 0
      ensures r.reuseSeqId == if best.Some? && best.value in old(recyclingSeqs) then best else None
      ensures r.forkSeqId == if best.Some? && best.value in old(recyclingSeqs) then None else best
      ensures NoDup(recyclingSeqs) && |recyclingSeqs| <= |old(recyclingSeqs)| && Agrees() == old(Agrees())
      ensures recyclingSeqs == WithoutOption(old(recyclingSeqs), r.reuseSeqId)
      ensures forall x :: x in recyclingSeqs <==> x in old(recyclingSeqs) && r.reuseSeqId != Some(x)
    {
      hide NoDup, RemoveFirst;
      r := MatchResult(0, None, None, 0);
      if matchedLen > 0 {
        if best.Some? {
          var recycled := TakeRecycled(best.value);
          if recycled {
            r := MatchResult(matchedLen, None, best, 0);
          } else {
            r := MatchResult(matchedLen, best, None, 0);
          }
        } else {
          assert false; // a match always names a sequence
        }
      }
    }

    /** Takes a sequence out of tree and map. */
    method Unstore(id: SeqId)
      requires Agrees() && id in seqToPath
      modifies this`seqToPath, tree`lay, tree`nodes, tree.nodes
      ensures seqToPath == old(seqToPath) - {id}
      ensures tree.OnlyNew()
      ensures Agrees()
    {
      DroppedPairs(seqToPath, id);
      assert (seqToPath[id], id) in PairsOf(seqToPath);
      tree.RemoveSeqId(seqToPath[id], id);
      seqToPath := seqToPath - {id};
    }

    /** Moves a stored sequence to another path. */
    method MovePath(id: SeqId, path: Path)
      requires Valid() && id in seqToPath
      modifies this`seqToPath, tree`lay, tree`nodes, tree.nodes
      ensures seqToPath == old(seqToPath)[id := path]
      ensures tree.OnlyNew()
      ensures Valid()
    {
      hide Layout.Holds, Layout.Pairs, PairsOf, Layout.Valid, RadixTree.Mirrors;
      ghost var was := seqToPath;
      Unstore(id);
      Store(id, path);
      assert seqToPath == was[id := path];
    }

    method ExtendSequence(id: SeqId, newTokens: seq<TokenId>)
      requires Valid()
      modifies this`seqToPath, tree`lay, tree`nodes, tree.nodes
      ensures seqToPath == if newTokens == [] || id !in old(seqToPath) then old(seqToPath)
                           else old(seqToPath)[id := old(seqToPath)[id] + newTokens]
      ensures tree.OnlyNew()
      ensures Valid()
    {
      if newTokens == [] {
        return;
      }
      if id in seqToPath {
        MovePath(id, seqToPath[id] + newTokens);
      }
    }

    /** A new sequence starts as a prefix of its parent, cut to the parent's length. */
    method ForkSequence(id: SeqId, parentId: SeqId, forkedOffset: nat)
      requires Valid()
      modifies this`seqToPath, tree`lay, tree`nodes, tree.nodes
      ensures seqToPath ==
        if id in old(seqToPath) || parentId !in old(seqToPath) then old(seqToPath)
        else
          var p := old(seqToPath)[parentId];
          old(seqToPath)[id := if forkedOffset < |p| then p[..forkedOffset] else p]
      ensures tree.OnlyNew()
      ensures Valid()
    {
      if HasSequence(id) {
        return;
      }
      if parentId in seqToPath {
        var parentPath := seqToPath[parentId];
        var cut := if forkedOffset < |parentPath| then forkedOffset else |parentPath|;
        assert parentPath[..|parentPath|] == parentPath;
        Store(id, parentPath[..cut]);
      }
    }

    /** Removes a sequence from tree, map and recycling list. */
    method RemoveSequence(id: SeqId)
      requires Valid()
      modifies this`seqToPath, this`recyclingSeqs, tree`lay, tree`nodes, tree.nodes
      ensures seqToPath == old(seqToPath) - {id} && recyclingSeqs == RemoveFirst(old(recyclingSeqs), id)
      ensures tree.OnlyNew()
      ensures Valid()
    {
      if id in seqToPath {
        Unstore(id);
      } else {
        assert seqToPath - {id} == seqToPath;
      }
      var wasRecycled := TakeRecycled(id);
    }

    /** Cuts the last tokens off; a sequence cut to nothing is removed and added afresh. */
    method RollbackSequence(id: SeqId, numTokens: nat)
      requires Valid()
      modifies this`seqToPath, this`recyclingSeqs, tree`lay, tree`nodes, tree.nodes
      ensures seqToPath == RolledBack(old(seqToPath), id, numTokens)
      ensures recyclingSeqs == if id in old(seqToPath) && numTokens >= |old(seqToPath)[id]|
                               then RemoveFirst(old(recyclingSeqs), id) else old(recyclingSeqs)
      ensures tree.OnlyNew()
      ensures Valid()
    {
      hide Layout.Holds, Layout.Pairs, PairsOf, Layout.Valid, RadixTree.Mirrors;
      if id in seqToPath {
        var path := seqToPath[id];
        if numTokens >= |path| {
          ghost var was := seqToPath;
          RemoveSequence(id);
          AddSequence(id);
          assert seqToPath == was[id := []];
          return;
        }
        MovePath(id, path[..|path| - numTokens]);
      }
    }

    static lemma FirstOnce(s: seq<SeqId>)
      requires NoDup(s) && s != []
      ensures NoDup(s[1..]) && s[0] !in s[1..] && RemoveFirst(s[1..], s[0]) == s[1..]
      ensures forall x :: x in s[1..] ==> x in s
    {
    }

    /** Drops the oldest recycled sequence for good. */
    method EvictOldest()
      requires Valid() && recyclingSeqs != []
      modifies this`seqToPath, this`recyclingSeqs, tree`lay, tree`nodes, tree.nodes
      ensures seqToPath == old(seqToPath) - {old(recyclingSeqs)[0]}
      ensures recyclingSeqs == old(recyclingSeqs)[1..]
      ensures tree.OnlyNew()
      ensures Valid()
    {
      hide Layout.Holds, Layout.Pairs, PairsOf, Layout.Valid, RadixTree.Mirrors;
      var evicted := recyclingSeqs[0];
      FirstOnce(recyclingSeqs);
      hide NoDup, RemoveFirst;
      recyclingSeqs := recyclingSeqs[1..];
      RemoveSequence(evicted);
    }

    /** Puts a finished sequence on the recycling list, evicting the oldest when it is full. */
    method RecycleSequence(id: SeqId)
      requires Valid()
      modifies this`seqToPath, this`recyclingSeqs, tree`lay, tree`nodes, tree.nodes
      ensures (seqToPath, recyclingSeqs) == Recycled(old(seqToPath), old(recyclingSeqs), maxRecyclingSeqs, id)
      ensures tree.OnlyNew()
      ensures Valid()
    {
      hide Layout.Holds, Layout.Pairs, PairsOf, Layout.Valid, RadixTree.Mirrors, RadixTree.Valid;
      if maxRecyclingSeqs == 0 {
        RemoveSequence(id);
        return;
      }
      if |recyclingSeqs| >= maxRecyclingSeqs {
        EvictOldest();
      }
      if id !in recyclingSeqs && HasSequence(id) {
        recyclingSeqs := recyclingSeqs + [id];
      }
    }

    lemma CoversStored(n: RadixNode, prefix: Path)
      requires Valid() && n in tree.lay.nodes && tree.lay.Covers(n, prefix)
      ensures forall id :: tree.lay.IdBelow(n, id) <==> StartsWith(seqToPath, id, prefix)
    {
      forall id
        ensures tree.lay.IdBelow(n, id) <==> StartsWith(seqToPath, id, prefix)
      {
        if tree.lay.IdBelow(n, id) {
          var m :| m in tree.lay.Below(n) && id in tree.lay.nodes[m].seqIds;
          AtNodeStored(m, id);
        }
        if StartsWith(seqToPath, id, prefix) {
          var m := StoredAt(id);
          assert m in tree.lay.Below(n);
        }
      }
    }

    /** Walks as far as the tree agrees with the tokens; below the node reached is all that shares as much. */
    method WalkMatch(tokens: seq<TokenId>) returns (matchedLen: nat, curr: RadixNode)
      requires Valid()
      ensures matchedLen <= |tokens| && tree.lay.NoBetter(tokens, matchedLen)
      ensures curr in tree.lay.nodes && tree.lay.Covers(curr, tokens[..matchedLen])
      ensures matchedLen > 0 ==> curr != tree.lay.root
    {
      hide Layout.Shape, Layout.NoDeadLeaf, Layout.Covers, Layout.NoBetter, Layout.Below, Lcp, PairsOf, Layout.Pairs,
           RecyclingOk;
      tree.StartsAtRoot(tokens);
      curr := tree.root;
      matchedLen := 0;
      while true
        invariant tree.lay.Cursor(curr, tokens, matchedLen)
        decreases |tokens| - matchedLen
      {
        if matchedLen >= |tokens| || tokens[matchedLen] !in curr.children {
          tree.lay.MatchEndsAtNode(curr, tokens, matchedLen);
          break;
        }
        var child := curr.children[tokens[matchedLen]];
        tree.lay.ChildBelow(curr, tokens[matchedLen]);
        var nodeMatch := RadixTree.MatchLen(child.tokens, tokens, matchedLen);
        tree.lay.EdgeStep(curr, tokens, matchedLen, child, nodeMatch);
        matchedLen := matchedLen + nodeMatch;
        curr := child;
        if nodeMatch < |child.tokens| {
          break;
        }
      }
    }

    /** The longest shared prefix and every stored sequence that starts with it. */
    method MatchSequence(tokens: seq<TokenId>) returns (matchedLen: nat, sharing: seq<SeqId>)
      requires Valid()
      ensures LongestShared(seqToPath, tokens, matchedLen) && matchedLen <= |tokens|
      ensures matchedLen == 0 ==> sharing == []
      ensures matchedLen > 0 ==> NoDup(sharing) && sharing != []
      ensures matchedLen > 0 ==> forall id :: id in sharing <==> StartsWith(seqToPath, id, tokens[..matchedLen])
    {
      hide Layout.Valid, Layout.Cursor, Layout.Covers, Layout.NoBetter, Layout.IdBelow, PairsOf, Layout.Pairs, Lcp;
      var curr;
      matchedLen, curr := WalkMatch(tokens);
      NoBetterStored(tokens, matchedLen);
      if matchedLen == 0 {
        sharing := [];
      } else {
        sharing := tree.CollectAllSequences(curr, []);
        CoversStored(curr, tokens[..matchedLen]);
        tree.lay.SomeIdBelow(curr);
        ghost var s :| tree.lay.IdBelow(curr, s);
        SharesExactly(seqToPath, s, tokens, matchedLen);
      }
    }
  }
}
