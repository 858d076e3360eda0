/**
 The graph underlying all program representations: nodes and edges registered under their
 ids, every edge also kept at its two ends, and ids generated on demand.
 */
module GenericGraph {

  const MAX_ID: nat := 0xFFFF_FFFF      // of nodes and edges
  const KINDS: nat := 256               // an edge kind takes the low 8 bits of a flag

  /** A flag tells apart edges of one kind by a call site id, shifted in 32 bits. */
  function MakeEdgeFlag(kind: nat, csId: nat): nat
    requires kind < KINDS
  {
    csId * KINDS % (MAX_ID + 1) + kind
  }

  /** The kind can be read back, but call sites are told apart by their low 24 bits only. */
  lemma FlagsTellApart(kind1: nat, csId1: nat, kind2: nat, csId2: nat)
    requires kind1 < KINDS && kind2 < KINDS
    ensures MakeEdgeFlag(kind1, csId1) % KINDS == kind1
    ensures MakeEdgeFlag(kind1, csId1) == MakeEdgeFlag(kind2, csId2) <==>
            kind1 == kind2 && csId1 % 0x100_0000 == csId2 % 0x100_0000
  {
    var low1, low2 := csId1 % 0x100_0000, csId2 % 0x100_0000;
    ShiftedOut(csId1);
    ShiftedOut(csId2);
    assert MakeEdgeFlag(kind1, csId1) == low1 * 256 + kind1;
    assert MakeEdgeFlag(kind2, csId2) == low2 * 256 + kind2;
    hide MakeEdgeFlag;
    LowDigit(low1, kind1);
    LowDigit(low2, kind2);
  }

  /** Call sites 1 and 2^24 + 1, for instance, get the same flag. */
  lemma FlagsCollide(kind: nat)
    requires kind < KINDS
    ensures MakeEdgeFlag(kind, 1) == MakeEdgeFlag(kind, 0x100_0001)
  {
    FlagsTellApart(kind, 1, kind, 0x100_0001);
  }

  lemma LowDigit(high: nat, low: nat)
    requires low < 256
    ensures (high * 256 + low) % 256 == low && (high * 256 + low) / 256 == high
  {
  }

  lemma ShiftedOut(csId: nat)
    ensures csId * KINDS % (MAX_ID + 1) == csId % 0x100_0000 * 256
  {
    var high, low := csId / 0x100_0000, csId % 0x100_0000;
    assert csId * 256 == high * 0x1_0000_0000 + low * 256;
    Remainder(high, low * 256);
  }

  lemma Remainder(high: nat, rest: nat)
    requires rest < 0x1_0000_0000
    ensures (high * 0x1_0000_0000 + rest) % 0x1_0000_0000 == rest
  {
  }

  class GNode {
    const id: nat
    var inEdges: set<GEdge>
    var outEdges: set<GEdge>

    constructor (id: nat)
      ensures this.id == id && inEdges == {} && outEdges == {}
    {
      this.id := id;
      inEdges, outEdges := {}, {};
    }

    /** Edge sets hold no two edges equal on flag, source id and destination id. */
    method AddIncomingEdge(e: GEdge) returns (added: bool)
      modifies this`inEdges
      ensures added <==> forall o :: o in old(inEdges) ==> !SameKey(o, e)
      ensures inEdges == if added then old(inEdges) + {e} else old(inEdges)
    {
      added := forall o :: o in inEdges ==> !SameKey(o, e);
      if added {
        inEdges := inEdges + {e};
      }
    }

    method AddOutgoingEdge(e: GEdge) returns (added: bool)
      modifies this`outEdges
      ensures added <==> forall o :: o in old(outEdges) ==> !SameKey(o, e)
      ensures outEdges == if added then old(outEdges) + {e} else old(outEdges)
    {
      added := forall o :: o in outEdges ==> !SameKey(o, e);
      if added {
        outEdges := outEdges + {e};
      }
    }

    /** Erases the edges equal to `e`, which need not be `e` itself. */
    method RemoveIncomingEdge(e: GEdge)
      requires exists o :: o in inEdges && SameKey(o, e)
      modifies this`inEdges
      ensures inEdges == set o | o in old(inEdges) && !SameKey(o, e)
    {
      inEdges := set o | o in inEdges && !SameKey(o, e);
    }

    method RemoveOutgoingEdge(e: GEdge)
      requires exists o :: o in outEdges && SameKey(o, e)
      modifies this`outEdges
      ensures outEdges == set o | o in old(outEdges) && !SameKey(o, e)
    {
      outEdges := set o | o in outEdges && !SameKey(o, e);
    }
  }

  class GEdge {
    const src: GNode
    const dst: GNode
    const id: nat
    const edgeFlag: nat

    constructor (src: GNode, dst: GNode, id: nat, edgeFlag: nat)
      ensures this.src == src && this.dst == dst && this.id == id && this.edgeFlag == edgeFlag
    {
      this.src, this.dst, this.id, this.edgeFlag := src, dst, id, edgeFlag;
    }
  }

  predicate SameKey(d: GEdge, e: GEdge)
  {
    d.edgeFlag == e.edgeFlag && d.src.id == e.src.id && d.dst.id == e.dst.id
  }

  /** Two maps between ids and objects that undo each other. */
  ghost predicate Inverse<T>(byId: map<nat, T>, ids: map<T, nat>)
  {
    && (forall i :: i in byId ==> byId[i] in ids && ids[byId[i]] == i)
    && (forall x :: x in ids ==> ids[x] in byId && byId[ids[x]] == x)
  }

  lemma InverseAdd<T>(byId: map<nat, T>, ids: map<T, nat>, id: nat, x: T)
    requires Inverse(byId, ids) && id !in byId && x !in ids
    ensures Inverse(byId[id := x], ids[x := id])
  {
  }

  lemma InverseRemove<T>(byId: map<nat, T>, ids: map<T, nat>, id: nat, x: T)
    requires Inverse(byId, ids) && x in ids && ids[x] == id
    ensures Inverse(byId - {id}, ids - {x})
  {
  }

  /** The registered edges leaving and entering a node. */
  ghost function Leaving(edges: map<GEdge, nat>, n: GNode): set<GEdge>
  {
    set e | e in edges && e.src == n
  }

  ghost function Entering(edges: map<GEdge, nat>, n: GNode): set<GEdge>
  {
    set e | e in edges && e.dst == n
  }

  lemma EdgeAdded(edges: map<GEdge, nat>, edge: GEdge, n: GNode)
    ensures Leaving(edges[edge := edge.id], n) == Leaving(edges, n) + if edge.src == n then {edge} else {}
    ensures Entering(edges[edge := edge.id], n) == Entering(edges, n) + if edge.dst == n then {edge} else {}
  {
  }

  lemma EdgeRemoved(edges: map<GEdge, nat>, edge: GEdge, n: GNode)
    ensures Leaving(edges - {edge}, n) == Leaving(edges, n) - if edge.src == n then {edge} else {}
    ensures Entering(edges - {edge}, n) == Entering(edges, n) - if edge.dst == n then {edge} else {}
  {
  }

  class GenericGraph {
    var IDToNodeMap: map<nat, GNode>
    var NodeToIDMap: map<GNode, nat>
    var IDToEdgeMap: map<nat, GEdge>
    var EdgeToIDMap: map<GEdge, nat>
    var currentNodeId: nat
    var currentEdgeId: nat

    /** The maps undo each other and register nodes and edges under their own ids. */
    ghost predicate Registered()
      reads this
    {
      && Inverse(IDToNodeMap, NodeToIDMap) && Inverse(IDToEdgeMap, EdgeToIDMap)
      && (forall n :: n in NodeToIDMap ==> NodeToIDMap[n] == n.id)
      && (forall e :: e in EdgeToIDMap ==> EdgeToIDMap[e] == e.id && e.src in NodeToIDMap && e.dst in NodeToIDMap)
    }

    /** No two registered edges are equal on flag, source and destination. */
    ghost predicate Distinct()
      reads this
    {
      forall d, e {:trigger SameKey(d, e)} :: d in EdgeToIDMap && e in EdgeToIDMap && SameKey(d, e) ==> d == e
    }

    /** The edges kept at a node are its registered edges. */
    ghost predicate EndsAgree(n: GNode)
      reads this, n
    {
      && n.outEdges == Leaving(EdgeToIDMap, n)
      && n.inEdges == Entering(EdgeToIDMap, n)
    }

    ghost predicate Valid()
      reads this, NodeToIDMap.Keys
    {
      Registered() && Distinct() && forall n {:trigger EndsAgree(n)} :: n in NodeToIDMap ==> EndsAgree(n)
    }

    constructor ()
      ensures Valid() && NodeToIDMap == map[] && EdgeToIDMap == map[]
      ensures currentNodeId == 0 && currentEdgeId == 0
    {
      IDToNodeMap, NodeToIDMap, IDToEdgeMap, EdgeToIDMap := map[], map[], map[], map[];
      currentNodeId, currentEdgeId := 0, 0;
    }

    /** A node brings no registered edges with it, so it had better carry none. */
    method AddGNode(node: GNode)
      requires Valid() && node.id !in IDToNodeMap && node !in NodeToIDMap
      modifies this`IDToNodeMap, this`NodeToIDMap
      ensures Registered() && Distinct() && (Valid() <==> node.inEdges == {} && node.outEdges == {})
      ensures forall n :: n in NodeToIDMap && n != node ==> EndsAgree(n)
      ensures IDToNodeMap == old(IDToNodeMap)[node.id := node] && NodeToIDMap == old(NodeToIDMap)[node := node.id]
    {
      assert Leaving(EdgeToIDMap, node) == {} && Entering(EdgeToIDMap, node) == {};
      IDToNodeMap := IDToNodeMap[node.id := node];
      NodeToIDMap := NodeToIDMap[node := node.id];
      forall n | n in NodeToIDMap && n != node
        ensures EndsAgree(n)
      {
        assert old(EndsAgree(n));
      }
      assert EndsAgree(node) <==> node.inEdges == {} && node.outEdges == {};
    }

    method RemoveGNode(node: GNode)
      requires Valid() && node in NodeToIDMap && node.inEdges == {} && node.outEdges == {}
      modifies this`IDToNodeMap, this`NodeToIDMap
      ensures Valid()
      ensures IDToNodeMap == old(IDToNodeMap) - {node.id} && NodeToIDMap == old(NodeToIDMap) - {node}
    {
      assert EndsAgree(node);
      forall e | e in EdgeToIDMap
        ensures e.src != node && e.dst != node
      {
        assert e !in node.outEdges && e !in node.inEdges;
      }
      IDToNodeMap := IDToNodeMap - {node.id};
      NodeToIDMap := NodeToIDMap - {node};
      forall n | n in NodeToIDMap
        ensures EndsAgree(n)
      {
        assert old(EndsAgree(n));
      }
    }

    /** Without effect for an id that is not in use. */
    method RemoveGNodeById(id: nat)
      requires Valid() && (id in IDToNodeMap ==> IDToNodeMap[id].inEdges == {} && IDToNodeMap[id].outEdges == {})
      modifies this`IDToNodeMap, this`NodeToIDMap
      ensures Valid() && IDToNodeMap == old(IDToNodeMap) - {id}
    {
      if id in IDToNodeMap {
        RemoveGNode(IDToNodeMap[id]);
      } else {
        assert IDToNodeMap - {id} == IDToNodeMap;
      }
    }

    /** Enters a new edge in the two maps. */
    method Register(edge: GEdge)
      requires Registered() && Distinct() && edge.src in NodeToIDMap && edge.dst in NodeToIDMap
      requires edge !in EdgeToIDMap && edge.id !in IDToEdgeMap
      requires forall e :: e in EdgeToIDMap ==> !SameKey(e, edge)
      modifies this`IDToEdgeMap, this`EdgeToIDMap
      ensures Registered() && Distinct()
      ensures IDToEdgeMap == old(IDToEdgeMap)[edge.id := edge] && EdgeToIDMap == old(EdgeToIDMap)[edge := edge.id]
    {
      InverseAdd(IDToEdgeMap, EdgeToIDMap, edge.id, edge);
      hide Inverse;
      IDToEdgeMap := IDToEdgeMap[edge.id := edge];
      EdgeToIDMap := EdgeToIDMap[edge := edge.id];
    }

    method Unregister(edge: GEdge)
      requires Registered() && Distinct() && edge in EdgeToIDMap
      modifies this`IDToEdgeMap, this`EdgeToIDMap
      ensures Registered() && Distinct()
      ensures IDToEdgeMap == old(IDToEdgeMap) - {edge.id} && EdgeToIDMap == old(EdgeToIDMap) - {edge}
    {
      InverseRemove(IDToEdgeMap, EdgeToIDMap, edge.id, edge);
      hide Inverse;
      EdgeToIDMap := EdgeToIDMap - {edge};
      IDToEdgeMap := IDToEdgeMap - {edge.id};
    }

    /** The edge is entered at both ends: neither holds an equal one. */
    method AddGEdge(edge: GEdge)
      requires Valid() && edge.src in NodeToIDMap && edge.dst in NodeToIDMap
      requires edge !in EdgeToIDMap && edge.id !in IDToEdgeMap
      requires forall e :: e in EdgeToIDMap ==> !SameKey(e, edge)
      modifies this`IDToEdgeMap, this`EdgeToIDMap, edge.dst`inEdges, edge.src`outEdges
      ensures Valid()
      ensures IDToEdgeMap == old(IDToEdgeMap)[edge.id := edge] && EdgeToIDMap == old(EdgeToIDMap)[edge := edge.id]
      ensures edge.dst.inEdges == old(edge.dst.inEdges) + {edge}
      ensures edge.src.outEdges == old(edge.src.outEdges) + {edge}
    {
      hide Registered, Distinct;
      assert EndsAgree(edge.src) && EndsAgree(edge.dst);
      assert forall e :: e in edge.dst.inEdges + edge.src.outEdges ==> e in EdgeToIDMap;
      Register(edge);
      var added1 := edge.dst.AddIncomingEdge(edge);
      var added2 := edge.src.AddOutgoingEdge(edge);
      assert added1 && added2;
      assert edge.dst.inEdges == old(edge.dst.inEdges) + {edge};
      assert edge.src.outEdges == old(edge.src.outEdges) + {edge};
      hide Leaving, Entering, SameKey;
      forall n | n in NodeToIDMap
        ensures EndsAgree(n)
      {
        assert old(EndsAgree(n));
        EdgeAdded(old(EdgeToIDMap), edge, n);
        assert n.outEdges == old(n.outEdges) + if edge.src == n then {edge} else {};
        assert n.inEdges == old(n.inEdges) + if edge.dst == n then {edge} else {};
      }
    }

    /** The edge leaves both ends; what is erased there as equal to it is the edge itself. */
    method RemoveGEdge(edge: GEdge)
      requires Valid() && edge in EdgeToIDMap
      modifies this`IDToEdgeMap, this`EdgeToIDMap, edge.dst`inEdges, edge.src`outEdges
      ensures Valid()
      ensures IDToEdgeMap == old(IDToEdgeMap) - {edge.id} && EdgeToIDMap == old(EdgeToIDMap) - {edge}
      ensures edge.dst.inEdges == old(edge.dst.inEdges) - {edge}
      ensures edge.src.outEdges == old(edge.src.outEdges) - {edge}
    {
      OnlyItself(edge);
      assert EndsAgree(edge.src) && EndsAgree(edge.dst);
      hide Registered, Distinct;
      edge.src.RemoveOutgoingEdge(edge);
      edge.dst.RemoveIncomingEdge(edge);
      assert edge.src.outEdges == old(edge.src.outEdges) - {edge};
      assert edge.dst.inEdges == old(edge.dst.inEdges) - {edge};
      Unregister(edge);
      hide Leaving, Entering, SameKey;
      forall n | n in NodeToIDMap
        ensures EndsAgree(n)
      {
        assert old(EndsAgree(n));
        EdgeRemoved(old(EdgeToIDMap), edge, n);
      }
    }

    lemma OnlyItself(edge: GEdge)
      requires Valid() && edge in EdgeToIDMap
      ensures edge.src in NodeToIDMap && edge.dst in NodeToIDMap && SameKey(edge, edge)
      ensures edge in edge.dst.inEdges && forall o :: o in edge.dst.inEdges && SameKey(o, edge) ==> o == edge
      ensures edge in edge.src.outEdges && forall o :: o in edge.src.outEdges && SameKey(o, edge) ==> o == edge
    {
      assert EndsAgree(edge.src) && EndsAgree(edge.dst);
    }

    /** Looks among the edges leaving `src`: finds the registered edge with this flag if there
        is one, and never counts a second. */
    method GetGEdge(src: GNode, dst: GNode, flag: nat) returns (ret: GEdge?, ghost n: nat)
      requires Valid() && src in NodeToIDMap && dst in NodeToIDMap
      ensures n <= 1
      ensures ret == null <==> forall e :: e in EdgeToIDMap ==> !(e.src == src && e.dst == dst && e.edgeFlag == flag)
      ensures ret != null ==> ret in EdgeToIDMap && ret.src == src && ret.dst == dst && ret.edgeFlag == flag
    {
      assert EndsAgree(src);
      n, ret := 0, null;
      var rest := src.outEdges;
      while rest != {}
        invariant rest <= src.outEdges
        invariant n == if ret == null then 0 else 1
        invariant ret != null ==> ret in src.outEdges && ret.dst == dst && ret.edgeFlag == flag
        invariant ret != null ==> forall e :: e in rest ==> !(e.dst == dst && e.edgeFlag == flag)
        invariant ret == null ==> forall e :: e in src.outEdges && e !in rest ==> !(e.dst == dst && e.edgeFlag == flag)
      {
        var oe :| oe in rest;
        if oe.dst == dst && oe.edgeFlag == flag {
          forall e | e in rest && e != oe
            ensures !(e.dst == dst && e.edgeFlag == flag)
          {
            assert !SameKey(oe, e);
          }
          n, ret := n + 1, oe;
        }
        rest := rest - {oe};
      }
    }

    /** Skips ids in use; ids handed out are unused and increase from call to call. */
    method GetNextNodeId() returns (id: nat)
      requires exists free :: currentNodeId <= free < MAX_ID && free !in IDToNodeMap
      modifies this`currentNodeId
      ensures id !in IDToNodeMap && old(currentNodeId) <= id < currentNodeId == id + 1 <= MAX_ID
      ensures forall i :: old(currentNodeId) <= i < id ==> i in IDToNodeMap
    {
      ghost var free :| currentNodeId <= free < MAX_ID && free !in IDToNodeMap;
      while currentNodeId in IDToNodeMap
        invariant old(currentNodeId) <= currentNodeId <= free
        invariant forall i :: old(currentNodeId) <= i < currentNodeId ==> i in IDToNodeMap
        decreases free - currentNodeId
      {
        currentNodeId := currentNodeId + 1;
        assert currentNodeId < MAX_ID;
      }
      id := currentNodeId;
      currentNodeId := currentNodeId + 1;
    }

    method GetNextEdgeId() returns (id: nat)
      requires exists free :: currentEdgeId <= free < MAX_ID && free !in IDToEdgeMap
      modifies this`currentEdgeId
      ensures id !in IDToEdgeMap && old(currentEdgeId) <= id < currentEdgeId == id + 1 <= MAX_ID
      ensures forall i :: old(currentEdgeId) <= i < id ==> i in IDToEdgeMap
    {
      ghost var free :| currentEdgeId <= free < MAX_ID && free !in IDToEdgeMap;
      while currentEdgeId in IDToEdgeMap
        invariant old(currentEdgeId) <= currentEdgeId <= free
        invariant forall i :: old(currentEdgeId) <= i < currentEdgeId ==> i in IDToEdgeMap
        decreases free - currentEdgeId
      {
        currentEdgeId := currentEdgeId + 1;
        assert currentEdgeId < MAX_ID;
      }
      id := currentEdgeId;
      currentEdgeId := currentEdgeId + 1;
    }

    /** Adds a call edge unless one with the same flag runs between the two nodes already:
        so a call site shares the edge of every one equal to it in its low 24 bits. */
    method AddCallEdge(caller: GNode, callee: GNode, kind: nat, csId: nat) returns (edge: GEdge)
      requires Valid() && caller in NodeToIDMap && callee in NodeToIDMap && kind < KINDS
      requires (forall e :: e in EdgeToIDMap ==>
                  !(e.src == caller && e.dst == callee && e.edgeFlag == MakeEdgeFlag(kind, csId)))
               ==> exists free :: currentEdgeId <= free < MAX_ID && free !in IDToEdgeMap
      modifies this`IDToEdgeMap, this`EdgeToIDMap, this`currentEdgeId, caller`outEdges, callee`inEdges
      ensures Valid() && edge in EdgeToIDMap
      ensures edge.src == caller && edge.dst == callee && edge.edgeFlag == MakeEdgeFlag(kind, csId)
      ensures EdgeToIDMap.Keys == old(EdgeToIDMap.Keys) + {edge}
      ensures edge in old(EdgeToIDMap) || fresh(edge)
    {
      var flag := MakeEdgeFlag(kind, csId);
      var found, n := GetGEdge(caller, callee, flag);
      if found != null {
        edge := found;
        assert EdgeToIDMap.Keys == old(EdgeToIDMap.Keys) + {edge};
        return;
      }
      var id := GetNextEdgeId();
      assert forall m {:trigger EndsAgree(m)} :: m in NodeToIDMap ==> old(EndsAgree(m)) && EndsAgree(m);
      edge := new GEdge(caller, callee, id, flag);
      assert forall e :: e in EdgeToIDMap ==> !SameKey(e, edge);
      AddGEdge(edge);
    }
  }

  /** So their calls of one function share an edge. */
  method TwoSitesOneEdge(graph: GenericGraph, caller: GNode, callee: GNode, kind: nat) returns (first: GEdge,
                         second: GEdge)
    requires graph.Valid() && caller in graph.NodeToIDMap && callee in graph.NodeToIDMap && kind < KINDS
    requires exists free :: graph.currentEdgeId <= free < MAX_ID && free !in graph.IDToEdgeMap
    modifies graph`IDToEdgeMap, graph`EdgeToIDMap, graph`currentEdgeId, caller`outEdges, callee`inEdges
    ensures graph.Valid() && first == second
  {
    FlagsCollide(kind);
    first := graph.AddCallEdge(caller, callee, kind, 1);
    second := graph.AddCallEdge(caller, callee, kind, 0x100_0001);
    assert SameKey(first, second);
  }
}
