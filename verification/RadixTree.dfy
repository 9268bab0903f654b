/**
 The radix tree of `prefix_cache.rs` on the heap.  Each method is proved against the layout
 function that describes the same change (module RadixLayout); the ghost field `lay` records
 that description and `Mirrors` ties it to the nodes.
 */
module Radix {
  import opened Types
  import opened RadixLayout

  class RadixNode {
    var tokens: seq<TokenId>
    var children: map<TokenId, RadixNode>
    var seqIds: seq<SeqId>

    constructor (tokens: seq<TokenId>)
      ensures this.tokens == tokens && children == map[] && seqIds == []
    {
      this.tokens := tokens;
      children := map[];
      seqIds := [];
    }
  }

  class RadixTree {
    var root: RadixNode
    ghost var lay: Layout<RadixNode>
    ghost var nodes: set<RadixNode>

    constructor ()
      ensures Valid() && fresh(nodes) && Pairs() == {}
    {
      var r := new RadixNode([]);
      ghost var entries: map<RadixNode, Entry<RadixNode>> := map[r := Entry([], map[], [], [], r)];
      root := r;
      lay := Layout(r, entries);
      nodes := {r};
      new;
      assert lay.NodeOk(root);
      assert forall p, id :: !lay.Holds(p, id);
    }

    /** The nodes hold what the layout says. */
    ghost predicate Mirrors()
      reads this, nodes
    {
      && lay.root == root && nodes == lay.nodes.Keys
      && forall n {:trigger n in lay.nodes} :: n in lay.nodes ==>
           n.tokens == lay.nodes[n].tokens && n.children == lay.nodes[n].children && n.seqIds == lay.nodes[n].seqIds
    }

    ghost predicate Valid()
      reads this, nodes
    {
      Mirrors() && lay.Valid()
    }

    /** The nodes are the old ones and newly allocated ones. */
    twostate predicate OnlyNew()
      reads this
    {
      fresh(nodes - old(nodes))
    }

    ghost function Pairs(): set<(Path, SeqId)>
      reads this
    {
      lay.Pairs()
    }

    /** How far the edge agrees with path from idx on, compared token by token. */
    static method MatchLen(edge: seq<TokenId>, path: seq<TokenId>, idx: nat) returns (n: nat)
      requires idx <= |path|
      ensures n == Lcp(edge, path[idx..])
    {
      n := 0;
      while n < |edge| && idx + n < |path| && path[idx + n] == edge[n]
        invariant n <= |edge| && idx + n <= |path| && edge[..n] == path[idx..][..n]
      {
        n := n + 1;
      }
      SharedPrefixBound(edge, path[idx..], n);
    }

    // The three edits of the tree, each mirrored by a layout function.

    /** Cuts the edge above `child` after k tokens; a new node takes over what hung below. */
    method SplitNode(child: RadixNode, k: nat) returns (ghost below: RadixNode)
      requires Mirrors() && lay.Shape() && child in lay.nodes && child != root && 0 < k < |child.tokens|
      modifies this`lay, this`nodes, child
      ensures fresh(below) && below !in old(lay).nodes && lay == old(lay).Split(child, below, k)
      ensures Mirrors()
    {
      var b := new RadixNode(child.tokens[k..]);
      b.children := child.children;
      b.seqIds := child.seqIds;
      child.tokens := child.tokens[..k];
      child.children := map[b.tokens[0] := b];
      child.seqIds := [];
      below := b;
      ghost var split := lay.Split(child, below, k);
      lay.SplitFields(child, below, k);
      forall n | n in split.nodes
        ensures split.nodes[n].Holding(n.tokens, n.children, n.seqIds)
      {
        if n != below && n != child {
          assert n in lay.nodes;
        }
      }
      lay := split;
      nodes := lay.nodes.Keys;
    }

    /** Ends the path at this node. */
    method PushId(node: RadixNode, path: seq<TokenId>, id: SeqId)
      requires Valid() && lay.Cursor(node, path, |path|)
      modifies this`lay, this`nodes, node
      ensures Valid() && nodes == old(nodes)
      ensures lay.Pairs() == old(lay).Pairs() + {(path, id)}
    {
      hide Layout.Valid, Layout.Pairs, Layout.Holds;
      lay.PushIdOk(node, path, id);
      if id !in node.seqIds {
        node.seqIds := node.seqIds + [id];
        lay := lay.PushId(node, id);
        nodes := lay.nodes.Keys;
      }
    }

    /** The root takes an id it does not have: the empty sequence. */
    method PushRootId(id: SeqId)
      requires Valid() && !lay.Holds([], id)
      modifies this`lay, this`nodes, root
      ensures Valid() && nodes == old(nodes)
      ensures lay.Pairs() == old(lay).Pairs() + {([], id)}
    {
      lay.HoldsAt(root, id);
      lay.PushIdOk(root, [], id);
      root.seqIds := root.seqIds + [id];
      lay := lay.PushId(root, id);
      nodes := lay.nodes.Keys;
    }

    /** Hangs the rest of the path under this node as one new edge. */
    method AddLeaf(node: RadixNode, path: seq<TokenId>, idx: nat, id: SeqId)
      requires Valid() && lay.Cursor(node, path, idx) && idx < |path| && path[idx] !in node.children
      modifies this`lay, this`nodes, node
      ensures Valid() && OnlyNew()
      ensures lay.Pairs() == old(lay).Pairs() + {(path, id)}
    {
      ghost var was := lay;
      ghost var leaf := NewLeaf(node, path[idx..], id);
      was.NewLeafOk(node, path, idx, leaf, id);
    }

    method NewLeaf(node: RadixNode, toks: seq<TokenId>, id: SeqId) returns (ghost leaf: RadixNode)
      requires Mirrors() && node in lay.nodes && toks != []
      modifies this`lay, this`nodes, node
      ensures fresh(leaf) && leaf !in old(lay).nodes && lay == old(lay).AddLeaf(node, leaf, toks, id)
      ensures Mirrors() && nodes == old(nodes) + {leaf}
    {
      var l := new RadixNode(toks);
      l.seqIds := [id];
      node.children := node.children[toks[0] := l];
      leaf := l;
      ghost var grown := lay.AddLeaf(node, leaf, toks, id);
      lay.AddLeafFields(node, leaf, toks, id);
      forall n | n in grown.nodes
        ensures grown.nodes[n].Holding(n.tokens, n.children, n.seqIds)
      {
        if n != leaf && n != node {
          assert n in lay.nodes;
        }
      }
      lay := grown;
      nodes := lay.nodes.Keys;
    }

    /** Follows the edge for path[idx] as far as it agrees with the path, splitting it there. */
    method FollowEdge(node: RadixNode, path: seq<TokenId>, idx: nat) returns (child: RadixNode, m: nat)
      requires Valid() && lay.Cursor(node, path, idx) && idx < |path| && path[idx] in node.children
      modifies this`lay, this`nodes, nodes
      ensures Valid() && OnlyNew()
      ensures lay.Pairs() == old(lay).Pairs()
      ensures m > 0 && lay.Cursor(child, path, idx + m)
    {
      ghost var was := lay;
      child := node.children[path[idx]];
      was.ChildBelow(node, path[idx]);
      m := MatchLen(child.tokens, path, idx);
      was.EdgeMatch(node, path, idx, m);
      if m < |child.tokens| {
        ghost var below := SplitNode(child, m);
        was.SplitOk(node, path, idx, below, m);
      }
    }

    /** One turn of the walk: the id is stored, or the cursor moves on along an edge. */
    method InsertTurn(node: RadixNode, path: seq<TokenId>, idx: nat, id: SeqId)
        returns (stored: bool, next: RadixNode, m: nat)
      requires Valid() && lay.Cursor(node, path, idx)
      modifies this`lay, this`nodes, nodes
      ensures Valid() && OnlyNew()
      ensures lay.Pairs() == if stored then old(lay).Pairs() + {(path, id)} else old(lay).Pairs()
      ensures !stored ==> m > 0 && lay.Cursor(next, path, idx + m)
    {
      hide Layout.Valid, Layout.Pairs;
      stored, next, m := true, node, 0;
      if idx >= |path| {
        PushId(node, path, id);
      } else if path[idx] in node.children {
        stored := false;
        next, m := FollowEdge(node, path, idx);
      } else {
        AddLeaf(node, path, idx, id);
      }
    }

    lemma StartsAtRoot(path: seq<TokenId>)
      requires Valid()
      ensures lay.Cursor(root, path, 0)
    {
    }

    /** Adds (path, id), splitting the edge where the path leaves the tree. */
    method InsertPath(id: SeqId, path: seq<TokenId>)
      requires Valid()
      modifies this`lay, this`nodes, nodes
      ensures Valid() && OnlyNew()
      ensures Pairs() == old(Pairs()) + {(path, id)}
    {
      hide Layout.Valid, Layout.Pairs, Layout.Shape, Layout.NoDeadLeaf;
      StartsAtRoot(path);
      var stored, node, idx := false, root, 0;
      while !stored
        invariant Valid() && OnlyNew()
        invariant lay.Pairs() == if stored then old(lay).Pairs() + {(path, id)} else old(lay).Pairs()
        invariant !stored ==> lay.Cursor(node, path, idx)
        decreases if stored then 0 else 1, |path| - idx
      {
        var m;
        stored, node, m := InsertTurn(node, path, idx, id);
        idx := idx + m;
      }
    }

    /** Removes (path, id) and prunes the branch it leaves bare. */
    method RemoveSeqId(path: seq<TokenId>, id: SeqId)
      requires Valid() && lay.Holds(path, id)
      modifies this`lay, this`nodes, nodes
      ensures Valid() && OnlyNew()
      ensures lay.Pairs() == old(lay).Pairs() - {(path, id)}
    {
      ghost var target := RemoveSeqIdFromNode(path, id);
      var dead := PrunePath(root, path, 0, target);
    }

    method DropId(node: RadixNode, id: SeqId)
      requires Valid() && node in lay.nodes
      modifies this`lay, this`nodes, node
      ensures Mirrors() && lay.Shape() && nodes == old(nodes) && lay.NoDeadLeaf({node})
      ensures lay.nodes[node].path == old(lay).nodes[node].path
      ensures lay.Pairs() == old(lay).Pairs() - {(lay.nodes[node].path, id)}
    {
      hide Layout.Shape, Layout.NoDeadLeaf, Layout.Pairs, RemoveFirst;
      lay.DropIdOk(node, id);
      node.seqIds := RemoveFirst(node.seqIds, id);
      lay := lay.SetIds(node, node.seqIds);
      nodes := lay.nodes.Keys;
    }

    method RemoveSeqIdFromNode(path: seq<TokenId>, id: SeqId) returns (ghost target: RadixNode)
      requires Valid() && lay.Holds(path, id)
      modifies this`lay, this`nodes, nodes
      ensures Mirrors() && lay.Shape() && nodes == old(nodes)
      ensures target in lay.nodes && lay.nodes[target].path == path && lay.NoDeadLeaf({target})
      ensures lay.Pairs() == old(lay).Pairs() - {(path, id)}
    {
      target :| target in lay.nodes && lay.nodes[target].path == path && id in lay.nodes[target].seqIds;
      var node := root;
      var idx := 0;
      while true
        invariant lay == old(lay) && Valid() && lay.Cursor(node, path, idx)
        decreases |path| - idx
      {
        if idx >= |path| {
          lay.SamePathSameNode(node, target);
          DropId(node, id);
          break;
        }
        lay.WalkOn(node, path, idx, target);
        var next := path[idx];
        if next in node.children {
          var child := node.children[next];
          idx := idx + |child.tokens|;
          node := child;
        } else {
          break;
        }
      }
    }

    /** Unlinks a child left without ids and children. */
    method RemoveChild(node: RadixNode, next: TokenId)
      requires Mirrors() && lay.Shape() && node in lay.nodes && next in node.children
      requires var c := node.children[next];
        c in lay.nodes && c != root && lay.nodes[c].Dead() && lay.NoDeadLeaf({c})
      modifies this`lay, this`nodes, node
      ensures Mirrors() && lay.Shape() && lay.SubLayout(old(lay))
      ensures node in lay.nodes && lay.NoDeadLeaf({node}) && lay.Pairs() == old(lay).Pairs()
    {
      hide Layout.Shape, Layout.NoDeadLeaf, Layout.Pairs, Layout.SubLayout, Layout.DropLeaf;
      ghost var child := node.children[next];
      lay.ChildPlace(node, next);
      lay.DropLeafOk(child);
      lay.DropLeafSub(child);
      lay.DropLeafFields(child);
      node.children := node.children - {next};
      lay := lay.DropLeaf(child);
      nodes := lay.nodes.Keys;
    }

    /** Walks down the path and, on the way back, drops each child left without ids and children. */
    method PrunePath(node: RadixNode, path: seq<TokenId>, idx: nat, ghost target: RadixNode) returns (dead: bool)
      requires Mirrors() && lay.Shape() && lay.Cursor(node, path, idx)
      requires target in lay.nodes && lay.nodes[target].path == path && lay.NoDeadLeaf({target})
      modifies this`lay, this`nodes, nodes
      ensures Mirrors() && lay.Shape() && lay.SubLayout(old(lay))
      ensures node in lay.nodes && lay.NoDeadLeaf({node}) && dead == lay.nodes[node].Dead()
      ensures lay.Pairs() == old(lay).Pairs()
      decreases |path| - idx
    {
      if idx < |path| {
        lay.WalkOn(node, path, idx, target);
        var next := path[idx];
        var shouldRemove := false;
        if next in node.children {
          var child := node.children[next];
          shouldRemove := PrunePath(child, path, idx + |child.tokens|, target);
          assert lay.NodeOk(child);
        }
        if shouldRemove {
          RemoveChild(node, next);
        }
      } else {
        lay.SamePathSameNode(node, target);
      }
      dead := node.seqIds == [] && node.children == map[];
    }

    /** Some sequence at or below this node; the children are visited in no particular order. */
    method FindAnySequence(node: RadixNode) returns (r: Option<SeqId>)
      requires Valid() && node in lay.nodes
      ensures r.Some? ==> lay.IdBelow(node, r.value)
      ensures r.None? ==> forall id :: !lay.IdBelow(node, id)
      decreases lay.Below(node)
    {
      if node.seqIds != [] {
        assert node in lay.Below(node) && node.seqIds[0] in lay.nodes[node].seqIds;
        return Some(node.seqIds[0]);
      }
      var rest := node.children.Keys;
      while rest != {}
        invariant rest <= node.children.Keys
        invariant forall t, id :: t in node.children && t !in rest ==> !lay.IdBelowChild(node, t, id)
        decreases rest
      {
        var t :| t in rest;
        rest := rest - {t};
        lay.ChildBelow(node, t);
        r := FindAnySequence(node.children[t]);
        if r.Some? {
          assert lay.Below(node.children[t]) <= lay.Below(node);
          return;
        }
      }
      forall id
        ensures !lay.IdBelow(node, id)
      {
        lay.IdBelowSplits(node, id);
      }
      r := None;
    }

    /** Adds every sequence at or below this node to `found`, once. */
    method CollectAllSequences(node: RadixNode, found: seq<SeqId>) returns (out: seq<SeqId>)
      requires Valid() && node in lay.nodes && NoDup(found)
      ensures NoDup(out)
      ensures forall id :: id in out <==> id in found || lay.IdBelow(node, id)
      decreases lay.Below(node)
    {
      out := found;
      for i := 0 to |node.seqIds|
        invariant NoDup(out)
        invariant forall id :: id in out <==> id in found || id in node.seqIds[..i]
      {
        if node.seqIds[i] !in out {
          out := out + [node.seqIds[i]];
        }
      }
      assert node.seqIds[..|node.seqIds|] == node.seqIds;
      var rest := node.children.Keys;
      while rest != {}
        invariant rest <= node.children.Keys && NoDup(out)
        invariant forall id :: id in out <==>
          id in found || id in node.seqIds || exists t ::
            t in node.children && t !in rest && lay.IdBelowChild(node, t, id)
        decreases rest
      {
        var t :| t in rest;
        lay.ChildBelow(node, t);
        out := CollectAllSequences(node.children[t], out);
        rest := rest - {t};
      }
      forall id
        ensures lay.IdBelow(node, id) <==>
          id in node.seqIds || exists t :: t in node.children && lay.IdBelowChild(node, t, id)
      {
        lay.IdBelowSplits(node, id);
      }
    }
  }
}
