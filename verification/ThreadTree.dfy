/**
 The thread creation tree: threads with their creation edges, and the ancestor and sibling
 queries on it.
 */
module ThreadTree {
  type NodeID = nat
  type CxtThread = nat
  type Edges = map<NodeID, set<NodeID>>

  function At(e: Edges, t: NodeID): set<NodeID>
  {
    if t in e then e[t] else {}
  }

  /** `q` is the source of the one edge into `t`. */
  predicate IsParent(ins: Edges, t: NodeID, q: NodeID)
  {
    At(ins, t) == {q}
  }

  ghost predicate HasParent(ins: Edges, t: NodeID)
  {
    exists q :: IsParent(ins, t, q)
  }

  /** From a thread to its parent, to that one's parent and so on. */
  ghost predicate IsChain(ins: Edges, chain: seq<NodeID>)
  {
    |chain| > 0 && forall i :: 0 <= i < |chain| - 1 ==> IsParent(ins, chain[i], chain[i + 1])
  }

  ghost predicate IsAncestor(ins: Edges, t: NodeID, a: NodeID)
  {
    exists chain :: IsChain(ins, chain) && |chain| > 1 && chain[0] == t && chain[|chain| - 1] == a
  }

  ghost predicate IsSibling(ins: Edges, outs: Edges, t: NodeID, c: NodeID)
  {
    c != t && exists q :: IsParent(ins, t, q) && c in At(outs, q)
  }

  /** Every edge is entered at both ends. */
  ghost predicate BothEnds(ins: Edges, outs: Edges)
  {
    forall q: NodeID, c: NodeID :: c in At(outs, q) <==> q in At(ins, c)
  }

  ghost function EdgeSet(outs: Edges): set<(NodeID, NodeID)>
  {
    set q, c | q in outs && c in outs[q] :: (q, c)
  }

  ghost predicate Linked(ids: set<NodeID>, ins: Edges, outs: Edges, n: nat)
  {
    && BothEnds(ins, outs)
    && (forall q: NodeID, c: NodeID {:trigger c in At(outs, q)} :: c in At(outs, q) ==> q in ids && c in ids)
    && n == |EdgeSet(outs)|
  }

  lemma EdgeEntered(ids: set<NodeID>, ins: Edges, outs: Edges, n: nat, src: NodeID, dst: NodeID)
    requires Linked(ids, ins, outs, n) && src in ids && dst in ids && dst !in At(outs, src)
    ensures Linked(ids, ins[dst := At(ins, dst) + {src}], outs[src := At(outs, src) + {dst}], n + 1)
  {
    var ins', outs' := ins[dst := At(ins, dst) + {src}], outs[src := At(outs, src) + {dst}];
    EdgeCounted(outs, src, dst);
    hide EdgeSet, At;
    forall q: NodeID, c: NodeID {:trigger c in At(outs', q)} {:trigger q in At(ins', c)}
      ensures c in At(outs', q) <==> q in At(ins', c)
    {
      BothEndsAt(ins, outs, src, dst, q, c);
    }
    forall q: NodeID, c: NodeID {:trigger c in At(outs', q)} | c in At(outs', q)
      ensures q in ids && c in ids
    {
      BothEndsAt(ins, outs, src, dst, q, c);
    }
  }

  lemma BothEndsAt(ins: Edges, outs: Edges, src: NodeID, dst: NodeID, q: NodeID, c: NodeID)
    requires c in At(outs, q) <==> q in At(ins, c)
    ensures c in At(outs[src := At(outs, src) + {dst}], q) <==> q in At(ins[dst := At(ins, dst) + {src}], c)
    ensures c in At(outs[src := At(outs, src) + {dst}], q) ==> c in At(outs, q) || (q == src && c == dst)
  {
  }

  lemma EdgeCounted(outs: Edges, src: NodeID, dst: NodeID)
    requires dst !in At(outs, src)
    ensures |EdgeSet(outs[src := At(outs, src) + {dst}])| == |EdgeSet(outs)| + 1
  {
    assert (src, dst) !in EdgeSet(outs);
    assert EdgeSet(outs[src := At(outs, src) + {dst}]) == EdgeSet(outs) + {(src, dst)};
  }

  lemma SoleParent(ins: Edges, t: NodeID, q: NodeID, r: NodeID)
    requires IsParent(ins, t, q) && r in At(ins, t)
    ensures r == q
  {
  }

  lemma ParentIsAncestor(ins: Edges, t: NodeID, q: NodeID)
    requires IsParent(ins, t, q)
    ensures IsAncestor(ins, t, q)
  {
    assert IsChain(ins, [t, q]);
  }

  lemma AncestorNext(ins: Edges, t: NodeID, a: NodeID, q: NodeID)
    requires IsAncestor(ins, t, a) && IsParent(ins, a, q)
    ensures IsAncestor(ins, t, q)
  {
    var chain :| IsChain(ins, chain) && |chain| > 1 && chain[0] == t && chain[|chain| - 1] == a;
    var longer := chain + [q];
    assert IsChain(ins, longer) && longer[|longer| - 1] == q;
  }

  /** Threads with the same parent have the same ancestors. */
  lemma SameParentSameAncestors(ins: Edges, t: NodeID, c: NodeID, q: NodeID, a: NodeID)
    requires IsParent(ins, t, q) && IsParent(ins, c, q) && IsAncestor(ins, t, a)
    ensures IsAncestor(ins, c, a)
  {
    var chain :| IsChain(ins, chain) && |chain| > 1 && chain[0] == t && chain[|chain| - 1] == a;
    assert IsParent(ins, chain[0], chain[1]);
    SoleParent(ins, t, q, chain[1]);
    var other := chain[0 := c];
    assert IsChain(ins, other) && other[|other| - 1] == a;
  }

  /** A sibling relation holds both ways, and with the same ancestors, exactly if the sibling
      has a single creator as well; a thread with several creators counts as having none. */
  lemma SiblingsAgree(ins: Edges, outs: Edges, t: NodeID, c: NodeID)
    requires BothEnds(ins, outs) && IsSibling(ins, outs, t, c)
    ensures IsSibling(ins, outs, c, t) <==> HasParent(ins, c)
    ensures (forall a :: IsAncestor(ins, c, a) <==> IsAncestor(ins, t, a)) <==> HasParent(ins, c)
  {
    var q :| IsParent(ins, t, q) && c in At(outs, q);
    assert q in At(ins, c) && t in At(outs, q);
    if HasParent(ins, c) {
      var r :| IsParent(ins, c, r);
      SoleParent(ins, c, r, q);
      forall a
        ensures IsAncestor(ins, c, a) <==> IsAncestor(ins, t, a)
      {
        if IsAncestor(ins, t, a) {
          SameParentSameAncestors(ins, t, c, q, a);
        }
        if IsAncestor(ins, c, a) {
          SameParentSameAncestors(ins, c, t, q, a);
        }
      }
    } else {
      ParentIsAncestor(ins, t, q);
      NoneAbove(ins, c);
      assert !IsAncestor(ins, c, q);
    }
  }

  class TCT {
    var threads: map<NodeID, CxtThread>
    var ctpToNodeMap: map<CxtThread, NodeID>
    var ins: Edges
    var outs: Edges
    var TCTNodeNum: nat
    var TCTEdgeNum: nat

    ghost predicate Valid()
      reads this
    {
      && (forall id: NodeID :: id in threads <==> id < TCTNodeNum)
      && (forall id :: id in threads ==> threads[id] in ctpToNodeMap && ctpToNodeMap[threads[id]] == id)
      && (forall ct :: ct in ctpToNodeMap ==> ctpToNodeMap[ct] in threads && threads[ctpToNodeMap[ct]] == ct)
      && Linked(threads.Keys, ins, outs, TCTEdgeNum)
    }

    constructor ()
      ensures Valid() && threads == map[] && ins == map[] && outs == map[] && TCTNodeNum == 0
    {
      threads, ctpToNodeMap, ins, outs, TCTNodeNum, TCTEdgeNum := map[], map[], map[], map[], 0, 0;
      new;
      assert EdgeSet(outs) == {};
    }

    /** A thread not seen before gets the next number. */
    method AddTCTNode(ct: CxtThread) returns (id: NodeID)
      requires Valid() && ct !in ctpToNodeMap
      modifies this`threads, this`ctpToNodeMap, this`TCTNodeNum
      ensures Valid() && id == old(TCTNodeNum) && TCTNodeNum == id + 1 && id !in old(threads)
      ensures threads == old(threads)[id := ct] && ctpToNodeMap == old(ctpToNodeMap)[ct := id]
    {
      id := TCTNodeNum;
      threads := threads[id := ct];
      TCTNodeNum := TCTNodeNum + 1;
      ctpToNodeMap := ctpToNodeMap[ct := id];
    }

    /** An edge is entered at both ends, once. */
    method AddTCTEdge(src: NodeID, dst: NodeID) returns (added: bool)
      requires Valid() && src in threads && dst in threads
      modifies this`ins, this`outs, this`TCTEdgeNum
      ensures Valid() && (added <==> dst !in At(old(outs), src))
      ensures outs == if added then old(outs)[src := At(old(outs), src) + {dst}] else old(outs)
      ensures ins == if added then old(ins)[dst := At(old(ins), dst) + {src}] else old(ins)
    {
      if dst !in At(outs, src) {
        EdgeEntered(threads.Keys, ins, outs, TCTEdgeNum, src, dst);
        hide Linked, At;
        ins := ins[dst := At(ins, dst) + {src}];
        outs := outs[src := At(outs, src) + {dst}];
        TCTEdgeNum := TCTEdgeNum + 1;
        return true;
      }
      return false;
    }

    method HasParentThread(tid: NodeID) returns (r: bool)
      ensures r <==> HasParent(ins, tid)
      ensures r <==> |At(ins, tid)| == 1
    {
      r := |At(ins, tid)| == 1;
      if r {
        var q :| q in At(ins, tid);
        assert |At(ins, tid) - {q}| == 0;
        assert At(ins, tid) == {q};
        assert IsParent(ins, tid, q);
      }
    }

    method GetParentThread(tid: NodeID) returns (q: NodeID)
      requires HasParent(ins, tid)
      ensures IsParent(ins, tid, q) && At(ins, tid) == {q}
    {
      q :| q in At(ins, tid);
    }

    /** The threads one or more parent steps above, on any graph. */
    method GetAncestorThread(tid: NodeID) returns (tds: set<NodeID>)
      requires Valid()
      ensures forall a :: a in tds <==> IsAncestor(ins, tid, a)
    {
      hide IsAncestor;
      tds := {};
      var has := HasParentThread(tid);
      if !has {
        NoneAbove(ins, tid);
        return;
      }
      var q := GetParentThread(tid);
      var worklist := {q};
      ParentIsAncestor(ins, tid, q);
      assert tid in At(outs, q);
      while worklist != {}
        invariant forall a :: a in tds + worklist ==> IsAncestor(ins, tid, a)
        invariant q in tds + worklist && IsParent(ins, tid, q)
        invariant forall t, p {:trigger IsParent(ins, t, p)} :: t in tds && IsParent(ins, t, p) ==> p in tds + worklist
        invariant tds <= threads.Keys
        invariant forall t :: t in worklist ==> t in threads
        decreases threads.Keys - tds, worklist
      {
        var t :| t in worklist;
        worklist := worklist - {t};
        if t !in tds {
          tds := tds + {t};
          var more := HasParentThread(t);
          if more {
            var p := GetParentThread(t);
            AncestorNext(ins, tid, t, p);
            assert t in At(outs, p);
            worklist := worklist + {p};
          }
        }
      }
      AllAncestors(ins, tid, q, tds);
    }

    /** The other threads of the parent. */
    method GetSiblingThread(tid: NodeID) returns (tds: set<NodeID>)
      ensures forall c :: c in tds <==> IsSibling(ins, outs, tid, c)
      ensures forall c :: c in tds <==> c != tid && exists q :: At(ins, tid) == {q} && c in At(outs, q)
    {
      tds := {};
      var has := HasParentThread(tid);
      if !has {
        return;
      }
      var q := GetParentThread(tid);
      var rest := At(outs, q);
      while rest != {}
        invariant rest <= At(outs, q)
        invariant tds == At(outs, q) - rest - {tid}
      {
        var child :| child in rest;
        if child != tid {
          tds := tds + {child};
        }
        rest := rest - {child};
      }
    }
  }

  method FourThreads() returns (t: TCT)
    ensures fresh(t) && t.Valid() && t.ins == t.outs == map[] && t.threads.Keys == {0, 1, 2, 3}
  {
    hide Linked;
    t := new TCT();
    for i := 0 to 4
      invariant fresh(t) && t.Valid() && t.ins == t.outs == map[]
      invariant t.TCTNodeNum == i && forall ct :: ct in t.ctpToNodeMap ==> ct < i
    {
      var _ := t.AddTCTNode(i);
    }
  }

  /** A thread with two creators is a sibling of a thread that is none of its own: 0 and 3
      both create 2, and 0 creates 1 as well. */
  method TwoCreators() returns (t: TCT)
    ensures fresh(t) && t.Valid() && At(t.ins, 2) == {0, 3}
    ensures IsSibling(t.ins, t.outs, 1, 2) && !IsSibling(t.ins, t.outs, 2, 1)
  {
    t := FourThreads();
    hide Linked;
    assert {0, 1, 2, 3} <= t.threads.Keys;
    var added := t.AddTCTEdge(0, 1);
    added := t.AddTCTEdge(0, 2);
    added := t.AddTCTEdge(3, 2);
    Lopsided(t.ins, t.outs);
  }

  lemma Lopsided(ins: Edges, outs: Edges)
    requires At(ins, 1) == {0} && At(ins, 2) == {0, 3} && 2 in At(outs, 0)
    ensures IsSibling(ins, outs, 1, 2) && !IsSibling(ins, outs, 2, 1)
  {
    assert IsParent(ins, 1, 0);
    assert 0 in At(ins, 2) && 3 in At(ins, 2);
  }

  lemma NoneAbove(ins: Edges, t: NodeID)
    requires !HasParent(ins, t)
    ensures forall a :: !IsAncestor(ins, t, a)
  {
    if a :| IsAncestor(ins, t, a) {
      AncestorHasParent(ins, t, a);
    }
  }

  lemma AncestorHasParent(ins: Edges, t: NodeID, a: NodeID)
    requires IsAncestor(ins, t, a)
    ensures HasParent(ins, t)
  {
    var chain :| IsChain(ins, chain) && |chain| > 1 && chain[0] == t && chain[|chain| - 1] == a;
    assert IsParent(ins, chain[0], chain[1]);
  }

  lemma AllAncestors(ins: Edges, t: NodeID, q: NodeID, tds: set<NodeID>)
    requires IsParent(ins, t, q) && q in tds
    requires forall u, p {:trigger IsParent(ins, u, p)} :: u in tds && IsParent(ins, u, p) ==> p in tds
    ensures forall a :: IsAncestor(ins, t, a) ==> a in tds
  {
    forall a | IsAncestor(ins, t, a)
      ensures a in tds
    {
      var chain :| IsChain(ins, chain) && |chain| > 1 && chain[0] == t && chain[|chain| - 1] == a;
      ChainInside(ins, t, q, tds, chain, |chain| - 1);
    }
  }

  lemma {:induction false} ChainInside(ins: Edges, t: NodeID, q: NodeID, tds: set<NodeID>, chain: seq<NodeID>, n: nat)
    requires IsParent(ins, t, q) && q in tds && IsChain(ins, chain) && chain[0] == t && 0 < n < |chain|
    requires forall u, p {:trigger IsParent(ins, u, p)} :: u in tds && IsParent(ins, u, p) ==> p in tds
    ensures chain[n] in tds
  {
    assert IsParent(ins, chain[n - 1], chain[n - 1 + 1]);
    if n == 1 {
      SoleParent(ins, t, q, chain[1]);
    } else {
      ChainInside(ins, t, q, tds, chain, n - 1);
    }
  }
}
