/**
 The flow-sensitive analysis on the incremental store.  Beside it, a plain store makes the
 same calls: it has the same sets and gives the same answers after every single call.
 */
module FlowSensitiveSolver {
  import opened DataFlowModel
  import opened DataFlowStores
  import opened FlowSensitiveModel

  class FlowSensitive {
    const ptD: IncMutableDFPTData
    var svfg: Graph
    var worklist: set<LocID>
    ghost var plain: Sets
    ghost var sinks: Sinks

    /** The stores agree, and unflagged sets have reached all their sinks. */
    ghost predicate Twin()
      reads this`plain, this`sinks, ptD, ptD.base
    {
      ptD.Valid() && Same(plain, ptD.View().store) && Delivered(ptD.View(), sinks)
    }

    ghost predicate Running()
      reads this`svfg, this`plain, this`sinks, ptD, ptD.base
    {
      Twin() && WellFormed(svfg) && sinks == SinksOf(svfg)
    }

    constructor (svfg: Graph)
      requires WellFormed(svfg)
      ensures fresh(ptD) && fresh(ptD.base)
      ensures Running() && this.svfg == svfg && worklist == {} && plain == DataFlowModel.Store(map[], map[], map[])
    {
      ptD := new IncMutableDFPTData();
      this.svfg, worklist := svfg, {};
      plain, sinks := DataFlowModel.Store(map[], map[], map[]), SinksOf(svfg);
      new;
      StartsDelivered(plain, ptD.View(), sinks);
    }

    // -------------------------------------------------------------- calls

    method GetPts(v: NodeID) returns (pts: set<NodeID>)
      requires Twin()
      ensures pts == Pts(plain, v)
    {
      pts := Entry(ptD.base.ptsMap, v);
      assert Val(plain, Top(v)) == Val(ptD.View().store, Top(v));
    }

    method UnionPts(key: NodeID, pts: set<NodeID>) returns (changed: bool)
      requires Twin()
      modifies `plain, ptD.base
      ensures Twin() && PlainStep(old(plain), UnionTop(key, pts), plain, changed)
    {
      ghost var i := ptD.View();
      changed := ptD.UnionTopPts(key, pts);
      plain := Lockstep(plain, i, sinks, UnionTop(key, pts), ptD.View(), changed);
    }

    method UnionPtsFromIn(stmt: LocID, srcVar: NodeID, dstVar: NodeID) returns (changed: bool)
      requires Twin() && Allowed(plain, sinks, TLVFromIn(In(stmt, srcVar), Top(dstVar)))
      modifies `plain, ptD, ptD.base
      ensures Twin() && PlainStep(old(plain), TLVFromIn(In(stmt, srcVar), Top(dstVar)), plain, changed)
    {
      hide Allowed;
      ghost var i := ptD.View();
      changed := ptD.UpdateTLVPts(stmt, srcVar, dstVar);
      plain := Lockstep(plain, i, sinks, TLVFromIn(In(stmt, srcVar), Top(dstVar)), ptD.View(), changed);
    }

    method UnionPtsFromTop(stmt: LocID, srcVar: NodeID, dstVar: NodeID) returns (changed: bool)
      requires Twin()
      modifies `plain, ptD, ptD.base
      ensures Twin() && PlainStep(old(plain), ATVFromTop(Top(srcVar), Out(stmt, dstVar)), plain, changed)
    {
      ghost var i := ptD.View();
      changed := ptD.UpdateATVPts(srcVar, stmt, dstVar);
      plain := Lockstep(plain, i, sinks, ATVFromTop(Top(srcVar), Out(stmt, dstVar)), ptD.View(), changed);
    }

    method UpdateOutFromIn(stmt: LocID, singleton: NodeID, strong: bool) returns (changed: bool)
      requires Twin() && Allowed(plain, sinks, AllOutFromIn(stmt, singleton, strong))
      modifies `plain, ptD, ptD.base
      ensures Twin() && PlainStep(old(plain), AllOutFromIn(stmt, singleton, strong), plain, changed)
    {
      hide Allowed;
      ghost var i := ptD.View();
      changed := ptD.UpdateAllDFOutFromIn(stmt, singleton, strong);
      plain := Lockstep(plain, i, sinks, AllOutFromIn(stmt, singleton, strong), ptD.View(), changed);
    }

    method UpdateInFromIn(src: LocID, dst: LocID, v: NodeID) returns (changed: bool)
      requires Twin() && Allowed(plain, sinks, InFromIn(In(src, v), In(dst, v)))
      modifies `plain, ptD, ptD.base
      ensures Twin() && PlainStep(old(plain), InFromIn(In(src, v), In(dst, v)), plain, changed)
    {
      hide Allowed;
      ghost var i := ptD.View();
      changed := ptD.UpdateDFInFromIn(src, v, dst, v);
      plain := Lockstep(plain, i, sinks, InFromIn(In(src, v), In(dst, v)), ptD.View(), changed);
    }

    method UpdateInFromOut(src: LocID, dst: LocID, v: NodeID) returns (changed: bool)
      requires Twin() && Allowed(plain, sinks, InFromOut(Out(src, v), In(dst, v)))
      modifies `plain, ptD, ptD.base
      ensures Twin() && PlainStep(old(plain), InFromOut(Out(src, v), In(dst, v)), plain, changed)
    {
      hide Allowed;
      ghost var i := ptD.View();
      changed := ptD.UpdateDFInFromOut(src, v, dst, v);
      plain := Lockstep(plain, i, sinks, InFromOut(Out(src, v), In(dst, v)), ptD.View(), changed);
    }

    method ClearAllDFOutVarFlag(stmt: LocID)
      requires Twin() && Allowed(plain, sinks, ClearOutFlags(stmt))
      modifies ptD
      ensures Twin() && forall k :: !Flagged(ptD.View(), Out(stmt, k))
    {
      ghost var i := ptD.View();
      ptD.ClearAllDFOutUpdatedVar(stmt);
      assert forall k :: !Flagged(ptD.View(), Out(stmt, k));
      hide Allowed, Delivered, IncStep;
      StepRefines(plain, i, sinks, ClearOutFlags(stmt), plain, ptD.View(), false, false);
    }

    // -------------------------------------------------------------- nodes

    method ProcessAddr(n: LocID) returns (changed: bool)
      requires Running() && n in svfg.nodes && svfg.stmt(n).Addr?
      modifies `plain, ptD, ptD.base
      ensures Running() && Moved(svfg, old(plain), plain, Writes(svfg, n), changed) && NodeHolds(svfg, plain, n)
    {
      var st := svfg.stmt(n);
      AddrDemands(svfg, plain, n);
      changed := UnionPts(st.dst, {st.obj});
      UnionTopMoves(svfg, old(plain), st.dst, {st.obj}, plain, changed);
      WritesTop(svfg, n);
    }

    method ProcessCopy(n: LocID) returns (changed: bool)
      requires Running() && n in svfg.nodes && svfg.stmt(n).Copy?
      modifies `plain, ptD, ptD.base
      ensures Running() && Moved(svfg, old(plain), plain, Writes(svfg, n), changed) && NodeHolds(svfg, plain, n)
    {
      var st := svfg.stmt(n);
      var pts := GetPts(st.src);
      CopyDemands(svfg, plain, n, st.src);
      changed := UnionPts(st.dst, pts);
      UnionTopMoves(svfg, old(plain), st.dst, pts, plain, changed);
      WritesTop(svfg, n);
    }

    method ProcessPhi(n: LocID) returns (changed: bool)
      requires Running() && n in svfg.nodes && svfg.stmt(n).Phi?
      modifies `plain, ptD, ptD.base
      ensures Running() && Moved(svfg, old(plain), plain, Writes(svfg, n), changed) && NodeHolds(svfg, plain, n)
    {
      var st := svfg.stmt(n);
      changed := false;
      WritesTop(svfg, n);
      MovedNot(svfg, plain, Writes(svfg, n));
      var ops := st.ops;
      while ops != {}
        invariant ops <= st.ops
        invariant Running() && Moved(svfg, old(plain), plain, Writes(svfg, n), changed)
        invariant forall src {:trigger Pts(plain, src)} :: src in st.ops - ops ==> Pts(plain, src) <= Pts(plain, st.dst)
      {
        var src :| src in ops;
        ghost var s, was := plain, changed;
        var pts := GetPts(src);
        CopyDemands(svfg, plain, n, src);
        var grew := UnionPts(st.dst, pts);
        UnionTopMoves(svfg, s, st.dst, pts, plain, grew);
        if grew {
          changed := true;
        }
        MovedOn(svfg, old(plain), s, plain, Writes(svfg, n), was, grew);
        OperandsKept(s, plain, st.dst, src, st.ops - ops);
        assert st.ops - (ops - {src}) == st.ops - ops + {src};
        ops := ops - {src};
      }
    }

    method ProcessGep(n: LocID) returns (changed: bool)
      requires Running() && n in svfg.nodes && svfg.stmt(n).Gep?
      modifies `plain, ptD, ptD.base
      ensures Running() && Moved(svfg, old(plain), plain, Writes(svfg, n), changed) && NodeHolds(svfg, plain, n)
    {
      var st := svfg.stmt(n);
      var srcPts := GetPts(st.src);
      var tmpDstPts: set<NodeID> := {};
      var rest := srcPts;
      while rest != {}
        invariant rest <= srcPts && tmpDstPts == FieldsOf(svfg, n, srcPts - rest)
      {
        var o :| o in rest;
        tmpDstPts := tmpDstPts + {svfg.field(n, o)};
        assert srcPts - (rest - {o}) == srcPts - rest + {o};
        rest := rest - {o};
      }
      assert srcPts - rest == srcPts;
      GepDemands(svfg, plain, n);
      changed := UnionPts(st.dst, tmpDstPts);
      UnionTopMoves(svfg, old(plain), st.dst, tmpDstPts, plain, changed);
      WritesTop(svfg, n);
      assert StmtOk(svfg, st);
      assert Val(old(plain), Top(st.src)) == Val(plain, Top(st.src));
    }

    method ProcessLoad(n: LocID) returns (changed: bool)
      requires Running() && n in svfg.nodes && svfg.stmt(n).Load?
      modifies `plain, ptD, ptD.base
      ensures Running() && Moved(svfg, old(plain), plain, Writes(svfg, n), changed) && NodeHolds(svfg, plain, n)
    {
      var st := svfg.stmt(n);
      var srcPts := GetPts(st.src);
      changed := false;
      WritesTop(svfg, n);
      MovedNot(svfg, plain, Writes(svfg, n));
      assert StmtOk(svfg, st);
      hide Moved, Writes, WellFormed, SinksOf, Twin;
      var rest := srcPts;
      while rest != {}
        invariant rest <= srcPts
        invariant Running() && Moved(svfg, old(plain), plain, Writes(svfg, n), changed)
        invariant Loaded(svfg, plain, n, srcPts - rest)
      {
        var o :| o in rest;
        ghost var s, was := plain, changed;
        if !svfg.inert(o) {
          LoadStill(svfg, old(plain), s, n, changed);
          var grew := LoadMembers(n, o);
          if grew {
            changed := true;
          }
          MovedOn(svfg, old(plain), s, plain, Writes(svfg, n), was, grew);
          LoadedStays(svfg, s, plain, n, srcPts - rest, grew);
        }
        LoadedMore(svfg, plain, n, srcPts - rest, o);
        assert srcPts - (rest - {o}) == srcPts - rest + {o};
        rest := rest - {o};
      }
      assert srcPts - rest == srcPts;
      LoadStill(svfg, old(plain), plain, n, changed);
      LoadedHolds(svfg, plain, n);
    }

    method LoadMember(n: LocID, m: NodeID) returns (changed: bool)
      requires Running() && n in svfg.nodes && svfg.stmt(n).Load? && Reads(svfg, Pts(plain, svfg.stmt(n).src), m)
      modifies `plain, ptD, ptD.base
      ensures Running() && Moved(svfg, old(plain), plain, Writes(svfg, n), changed)
      ensures Val(plain, In(n, m)) <= Pts(plain, svfg.stmt(n).dst)
    {
      hide WellFormed, SinksOf, Moved, Reads, Allowed;
      var st := svfg.stmt(n);
      WritesTop(svfg, n);
      LoadDemands(svfg, plain, n, m);
      LoadAllowed(svfg, plain, n, m);
      changed := UnionPtsFromIn(n, m, st.dst);
      FlowMoves(svfg, old(plain), In(n, m), Top(st.dst), plain, Writes(svfg, n), changed);
    }

    /** The object and, if it is field-insensitive, its fields. */
    method LoadMembers(n: LocID, o: NodeID) returns (changed: bool)
      requires Running() && n in svfg.nodes && svfg.stmt(n).Load?
      requires o in Pts(plain, svfg.stmt(n).src) && !svfg.inert(o)
      modifies `plain, ptD, ptD.base
      ensures Running() && Moved(svfg, old(plain), plain, Writes(svfg, n), changed)
      ensures MembersLoaded(svfg, plain, n, Members(svfg, o))
    {
      var st := svfg.stmt(n);
      var members := Members(svfg, o);
      changed := false;
      MovedNot(svfg, plain, Writes(svfg, n));
      assert StmtOk(svfg, st);
      assert svfg.stmt(n).Load? && WellFormed(svfg);
      hide WellFormed, SinksOf, Writes, Moved, Running, Val, MembersLoaded, StmtOk, Pts, Members;
      var rest := members;
      NoMembersLoaded(svfg, plain, n);
      assert members - rest == {};
      while rest != {}
        invariant rest <= members
        invariant Running() && Moved(svfg, old(plain), plain, Writes(svfg, n), changed)
        invariant MembersLoaded(svfg, plain, n, members - rest)
      {
        var m :| m in rest;
        ghost var s, was := plain, changed;
        LoadStill(svfg, old(plain), s, n, changed);
        assert Reads(svfg, Pts(s, st.src), m);
        var grew := LoadMember(n, m);
        MembersMore(svfg, s, plain, n, grew, members - rest, m);
        if grew {
          changed := true;
        }
        MovedOn(svfg, old(plain), s, plain, Writes(svfg, n), was, grew);
        assert members - (rest - {m}) == members - rest + {m};
        rest := rest - {m};
      }
      assert members - rest == members;
    }

    /** A store is left alone until the pointer it writes through points to something. */
    method ProcessStore(n: LocID) returns (changed: bool)
      requires Running() && n in svfg.nodes && svfg.stmt(n).Assign?
      modifies `plain, ptD, ptD.base
      ensures Running() && Moved(svfg, old(plain), plain, Writes(svfg, n), changed) && NodeHolds(svfg, plain, n)
    {
      var st := svfg.stmt(n);
      var dstPts := GetPts(st.dst);
      MovedNot(svfg, plain, Writes(svfg, n));
      if dstPts == {} {
        return false;
      }
      hide WellFormed, SinksOf, Writes, Moved, Twin, Val, Stored, NodeHolds;
      changed := StoreToObjects(n, dstPts);
      ghost var s := plain;
      AssignStill(svfg, old(plain), s, n, changed);
      var grew := MoveInToOut(n, dstPts);
      StoreHolds(svfg, s, plain, n, grew);
      MovedOn(svfg, old(plain), s, plain, Writes(svfg, n), changed, grew);
      changed := changed || grew;
    }

    method StoreToObjects(n: LocID, dstPts: set<NodeID>) returns (changed: bool)
      requires Running() && n in svfg.nodes && svfg.stmt(n).Assign? && dstPts == Pts(plain, svfg.stmt(n).dst)
      modifies `plain, ptD, ptD.base
      ensures Running() && Moved(svfg, old(plain), plain, Writes(svfg, n), changed)
      ensures Stored(svfg, plain, n, dstPts)
    {
      var st := svfg.stmt(n);
      changed := false;
      var srcPts := GetPts(st.src);
      MovedNot(svfg, plain, Writes(svfg, n));
      NothingStored(svfg, plain, n);
      if srcPts == {} {
        return;
      }
      hide WellFormed, SinksOf, Writes, Moved, Running, Val, Stored, Pts;
      var rest := dstPts;
      assert dstPts - rest == {};
      while rest != {}
        invariant rest <= dstPts
        invariant Running() && Moved(svfg, old(plain), plain, Writes(svfg, n), changed)
        invariant Stored(svfg, plain, n, dstPts - rest)
      {
        var o :| o in rest;
        ghost var s, was := plain, changed;
        AssignStill(svfg, old(plain), s, n, changed);
        var grew := StoreToObject(n, o);
        if grew {
          changed := true;
        }
        StoredMore(svfg, s, plain, n, grew, dstPts - rest, o);
        MovedOn(svfg, old(plain), s, plain, Writes(svfg, n), was, grew);
        assert dstPts - (rest - {o}) == dstPts - rest + {o};
        rest := rest - {o};
      }
      assert dstPts - rest == dstPts;
    }

    method StoreToObject(n: LocID, o: NodeID) returns (changed: bool)
      requires Running() && n in svfg.nodes && svfg.stmt(n).Assign?
      requires o in Pts(plain, svfg.stmt(n).dst)
      modifies `plain, ptD, ptD.base
      ensures Running() && Moved(svfg, old(plain), plain, Writes(svfg, n), changed)
      ensures !svfg.inert(o) ==> Pts(plain, svfg.stmt(n).src) <= Val(plain, Out(n, o))
    {
      MovedNot(svfg, plain, Writes(svfg, n));
      if svfg.inert(o) {
        return false;
      }
      hide WellFormed, SinksOf, Moved;
      var src := svfg.stmt(n).src;
      AssignDemands(svfg, plain, n, o);
      changed := UnionPtsFromTop(n, src, o);
      FlowMoves(svfg, old(plain), Top(src), Out(n, o), plain, Writes(svfg, n), changed);
      assert Val(plain, Top(src)) == Val(old(plain), Top(src));
    }

    /** A strong update if the pointer has a single target that allows it. */
    method MoveInToOut(n: LocID, dstPts: set<NodeID>) returns (changed: bool)
      requires Running() && n in svfg.nodes && svfg.stmt(n).Assign?
      requires dstPts == Pts(plain, svfg.stmt(n).dst) && dstPts != {}
      modifies `plain, ptD, ptD.base
      ensures Running() && Moved(svfg, old(plain), plain, Writes(svfg, n), changed)
      ensures forall k: NodeID {:trigger Out(n, k)} :: Val(plain, Out(n, k)) ==
                old(Val(plain, Out(n, k)))
                + if dstPts == {k} && svfg.strong(k) then {} else old(Val(plain, In(n, k)))
    {
      hide WellFormed, SinksOf, Moved, Twin, Val, Allowed;
      var singleton :| singleton in dstPts;
      var strong := dstPts == {singleton} && svfg.strong(singleton);
      ghost var op := AllOutFromIn(n, if strong then singleton else 0, strong);
      assert UpdateCall(svfg, dstPts, n, op);
      UpdateAllowed(svfg, plain, n, op);
      if strong {
        changed := UpdateOutFromIn(n, singleton, true);
      } else {
        changed := UpdateOutFromIn(n, 0, false);
      }
      UpdateMoves(svfg, old(plain), n, op, plain, changed);
    }

    method ProcessSVFGNode(n: LocID) returns (changed: bool, ghost grew: bool)
      requires Running() && n in svfg.nodes
      modifies `plain, ptD, ptD.base
      ensures Running() && Moved(svfg, old(plain), plain, Writes(svfg, n), grew) && NodeHolds(svfg, plain, n)
      ensures changed == (grew || Always(svfg.stmt(n)))
    {
      hide Running, Twin, WellFormed, Moved, Writes;
      grew := false;
      MovedNot(svfg, plain, Writes(svfg, n));
      match svfg.stmt(n)
      case Addr(_, _) =>
        changed := ProcessAddr(n);
        grew := changed;
      case Copy(_, _) =>
        changed := ProcessCopy(n);
        grew := changed;
      case Phi(_, _) =>
        changed := ProcessPhi(n);
        grew := changed;
      case Gep(_, _) =>
        changed := ProcessGep(n);
        grew := changed;
      case Load(_, _) =>
        changed := ProcessLoad(n);
        grew := changed;
      case Assign(_, _) =>
        changed := ProcessStore(n);
        grew := changed;
      case Other => changed := false;
      case _ => changed := true;
    }

    // -------------------------------------------------------------- edges

    method PropVarPtsFromSrcToDst(v: NodeID, e: Edge) returns (changed: bool)
      requires Running() && e in svfg.edges && e.Indirect? && Carries(svfg, e, v)
      modifies `plain, ptD, ptD.base
      ensures Running() && Flowed(old(plain), From(svfg, e.src, v), In(e.dst, v), plain)
      ensures Moved(svfg, old(plain), plain, Targets(svfg, e), changed)
    {
      hide WellFormed, SinksOf, Carries, Allowed, Val, Moved, Twin;
      EdgeAllowed(svfg, plain, e, v);
      CarryDemands(svfg, plain, e, v);
      if svfg.stmt(e.src).Assign? {
        changed := UpdateInFromOut(e.src, e.dst, v);
      } else {
        changed := UpdateInFromIn(e.src, e.dst, v);
      }
      FlowMoves(svfg, old(plain), From(svfg, e.src, v), In(e.dst, v), plain, Targets(svfg, e), changed);
    }

    /** The object and, if it is field-insensitive, its fields. */
    method PropMembers(v: NodeID, e: Edge) returns (changed: bool)
      requires Running() && e in svfg.edges && e.Indirect? && v in e.pts
      modifies `plain, ptD, ptD.base
      ensures Running() && Moved(svfg, old(plain), plain, Targets(svfg, e), changed)
      ensures SourceStill(svfg, old(plain), plain, e)
      ensures MembersArrived(svfg, old(plain), plain, e, Members(svfg, v))
    {
      changed := false;
      NoneArrived(svfg, plain, e);
      MovedNot(svfg, plain, Targets(svfg, e));
      hide WellFormed, SinksOf, Val, Moved, Twin, SourceStill, MembersArrived, Flowed, Targets;
      var members := Members(svfg, v);
      var rest := members;
      assert members - rest == {};
      while rest != {}
        invariant rest <= members
        invariant Running() && Moved(svfg, old(plain), plain, Targets(svfg, e), changed)
        invariant SourceStill(svfg, old(plain), plain, e)
        invariant MembersArrived(svfg, old(plain), plain, e, members - rest)
      {
        var m :| m in rest;
        ghost var s, was := plain, changed;
        var grew := PropVarPtsFromSrcToDst(m, e);
        if grew {
          changed := true;
        }
        MemberArrives(svfg, old(plain), s, plain, e, members - rest, m);
        MovedOn(svfg, old(plain), s, plain, Targets(svfg, e), was, grew);
        assert members - (rest - {m}) == members - rest + {m};
        rest := rest - {m};
      }
      assert members - rest == members;
    }

    method PropAlongIndirectEdge(e: Edge) returns (changed: bool)
      requires Running() && e in svfg.edges && e.Indirect?
      modifies `plain, ptD, ptD.base
      ensures Running() && Moved(svfg, old(plain), plain, Targets(svfg, e), changed) && EdgeHolds(svfg, plain, e)
    {
      changed := false;
      NoneArrived(svfg, plain, e);
      MovedNot(svfg, plain, Targets(svfg, e));
      hide WellFormed, SinksOf, Val, Twin, SourceStill, MembersArrived, Arrived, Targets, EdgeHolds;
      var rest := e.pts;
      assert e.pts - rest == {};
      while rest != {}
        invariant rest <= e.pts
        invariant Running() && Moved(svfg, old(plain), plain, Targets(svfg, e), changed)
        invariant SourceStill(svfg, old(plain), plain, e)
        invariant Arrived(svfg, old(plain), plain, e, e.pts - rest)
      {
        var v :| v in rest;
        ghost var s, was := plain, changed;
        var grew := PropMembers(v, e);
        if grew {
          changed := true;
        }
        VarArrives(svfg, old(plain), s, plain, e, e.pts - rest, v);
        MovedOn(svfg, old(plain), s, plain, Targets(svfg, e), was, grew);
        assert e.pts - (rest - {v}) == e.pts - rest + {v};
        rest := rest - {v};
      }
      assert e.pts - rest == e.pts;
      ArrivedHolds(svfg, old(plain), plain, e);
    }

    /** Between actual and formal parameters or returns a set is passed; any other direct edge
        wakes a use of what changed. */
    method PropAlongDirectEdge(e: Edge) returns (changed: bool, ghost grew: bool)
      requires Running() && e in svfg.edges && e.Direct?
      modifies `plain, ptD, ptD.base
      ensures Running() && Moved(svfg, old(plain), plain, Targets(svfg, e), grew) && EdgeHolds(svfg, plain, e)
      ensures changed == (grew || Wakes(svfg, e))
    {
      var src, dst := svfg.stmt(e.src), svfg.stmt(e.dst);
      assert EdgeOk(svfg, e);
      if src.Passes? {
        var pts := GetPts(src.v);
        PassDemands(svfg, plain, e);
        changed := UnionPts(dst.v, pts);
        grew := changed;
        UnionTopMoves(svfg, old(plain), dst.v, pts, plain, changed);
      } else {
        changed, grew := true, false;
        MovedNot(svfg, plain, Targets(svfg, e));
      }
    }

    method PropFromSrcToDst(e: Edge) returns (changed: bool, ghost grew: bool)
      requires Running() && e in svfg.edges
      modifies `plain, ptD, ptD.base
      ensures Running() && Moved(svfg, old(plain), plain, Targets(svfg, e), grew) && EdgeHolds(svfg, plain, e)
      ensures changed == (grew || Wakes(svfg, e))
    {
      hide Running, Moved, Targets, EdgeHolds;
      match e
      case Direct(_, _) =>
        changed, grew := PropAlongDirectEdge(e);
      case Indirect(_, _, _) =>
        changed := PropAlongIndirectEdge(e);
        grew := changed;
    }

    method Propagate(n: LocID) returns (ghost grew: bool)
      requires Running() && Justified(svfg, plain) && Settled(svfg, plain, worklist, OutEdges(svfg, n))
      modifies `plain, `worklist, ptD, ptD.base
      ensures Running() && Justified(svfg, plain) && Settled(svfg, plain, worklist, {})
      ensures Within(old(plain), plain) && grew == !Same(old(plain), plain)
      ensures Pushed(svfg, n, old(worklist), worklist, grew)
    {
      grew := false;
      var todo := OutEdges(svfg, n);
      hide Twin, WellFormed, SinksOf, Justified, Settled, Moved, EdgeHolds, Targets;
      SameWithin(plain);
      hide Within, Same;
      while todo != {}
        invariant todo <= OutEdges(svfg, n)
        invariant Running() && Justified(svfg, plain) && Settled(svfg, plain, worklist, todo)
        invariant Within(old(plain), plain) && grew == !Same(old(plain), plain)
        invariant Pushed(svfg, n, old(worklist), worklist, grew)
      {
        var e :| e in todo;
        ghost var s, work := plain, worklist;
        var changed, more := PropFromSrcToDst(e);
        if changed {
          worklist := worklist + {e.dst};
        }
        FollowSettles(svfg, s, plain, work, todo, e, more, worklist);
        MovedJustified(svfg, s, plain, Targets(svfg, e), more);
        MovedWithin(svfg, old(plain), s, plain, Targets(svfg, e), grew, more);
        PushedMore(svfg, n, old(worklist), work, grew, e, more, worklist);
        todo, grew := todo - {e}, grew || more;
      }
    }

    // -------------------------------------------------------------- solving

    method ProcessNode(n: LocID)
      requires Running() && Justified(svfg, plain) && n in svfg.nodes
      requires n !in worklist && worklist <= svfg.nodes && Settled(svfg, plain, worklist + {n}, {})
      modifies `plain, `worklist, ptD, ptD.base
      ensures Running() && Justified(svfg, plain) && worklist <= svfg.nodes && Settled(svfg, plain, worklist, {})
      ensures Progress(svfg, old(plain), old(worklist) + {n}, plain, worklist)
      ensures forall k :: !Flagged(ptD.View(), Out(n, k))
    {
      hide Twin, SinksOf, Justified, Settled, Moved, NodeHolds, Writes, Same, Within;
      ghost var work := worklist;
      var changed, grew := ProcessSVFGNode(n);
      VisitSettles(svfg, old(plain), plain, work + {n}, n, grew, changed);
      MovedJustified(svfg, old(plain), plain, Writes(svfg, n), grew);
      ghost var s, more := plain, false;
      assert work + {n} - {n} == work;
      SameWithin(plain);
      if changed {
        more := Propagate(n);
      }
      VisitedAll(svfg, old(plain), s, plain, work, n, grew, more, worklist);
      StoresServed(svfg, plain, worklist, n);
      hide WellFormed;
      ClearAllowed(svfg, plain, n);
      ClearAllDFOutVarFlag(n);
    }

    method SolveWorklist()
      requires Running() && Justified(svfg, plain) && worklist <= svfg.nodes && Settled(svfg, plain, worklist, {})
      modifies `plain, `worklist, ptD, ptD.base
      ensures Running() && Solved(svfg, plain) && Justified(svfg, plain) && worklist == {}
    {
      hide Running, Justified, Settled, Progress;
      while worklist != {}
        invariant Running() && Justified(svfg, plain) && worklist <= svfg.nodes && Settled(svfg, plain, worklist, {})
        decreases |Missing(svfg, plain)|, |Loud(svfg, worklist)|, |worklist|
      {
        ghost var s, work := plain, worklist;
        var n :| n in worklist;
        worklist := worklist - {n};
        assert worklist + {n} == work;
        ProcessNode(n);
        ProgressDown(svfg, s, work, plain, worklist);
      }
      SettledSolved(svfg, plain);
    }

    // -------------------------------------------------------------- call graph updates

    /** Serves one variable of a new edge whatever its flag says. */
    method PropVarPtsAfterCGUpdated(v: NodeID, e: Edge) returns (changed: bool)
      requires Twin() && WellFormed(svfg) && e in svfg.edges && e.Indirect? && Carries(svfg, e, v)
      modifies `plain, `sinks, ptD, ptD.base
      ensures Twin() && sinks == old(sinks) + iset{(From(svfg, e.src, v), In(e.dst, v))}
      ensures Flowed(old(plain), From(svfg, e.src, v), In(e.dst, v), plain)
      ensures Moved(svfg, old(plain), plain, Targets(svfg, e), changed)
    {
      hide WellFormed, Carries, Val, Moved;
      CarryDemands(svfg, plain, e, v);
      ghost var i := ptD.View();
      ghost var op := if svfg.stmt(e.src).Assign? then AllInFromOut(Out(e.src, v), In(e.dst, v))
                      else AllInFromIn(In(e.src, v), In(e.dst, v));
      if svfg.stmt(e.src).Assign? {
        changed := ptD.UpdateAllDFInFromOut(e.src, v, e.dst, v);
      } else {
        changed := ptD.UpdateAllDFInFromIn(e.src, v, e.dst, v);
      }
      plain := Lockstep(plain, i, sinks, op, ptD.View(), changed);
      sinks := NextSinks(sinks, op);
      FlowMoves(svfg, old(plain), From(svfg, e.src, v), In(e.dst, v), plain, Targets(svfg, e), changed);
    }

    method ServeMembers(v: NodeID, e: Edge) returns (changed: bool)
      requires Twin() && WellFormed(svfg) && e in svfg.edges && e.Indirect? && v in e.pts
      modifies `plain, `sinks, ptD, ptD.base
      ensures Twin() && Moved(svfg, old(plain), plain, Targets(svfg, e), changed)
      ensures sinks == old(sinks) + NewSinks(svfg, e, Members(svfg, v))
      ensures SourceStill(svfg, old(plain), plain, e)
      ensures MembersArrived(svfg, old(plain), plain, e, Members(svfg, v))
    {
      changed := false;
      NoneArrived(svfg, plain, e);
      MovedNot(svfg, plain, Targets(svfg, e));
      hide WellFormed, Val, Moved, Twin, SourceStill, MembersArrived, Flowed, Targets;
      var members := Members(svfg, v);
      var rest := members;
      assert members - rest == {};
      while rest != {}
        invariant rest <= members
        invariant Twin() && Moved(svfg, old(plain), plain, Targets(svfg, e), changed)
        invariant sinks == old(sinks) + NewSinks(svfg, e, members - rest)
        invariant SourceStill(svfg, old(plain), plain, e)
        invariant MembersArrived(svfg, old(plain), plain, e, members - rest)
      {
        var m :| m in rest;
        ghost var s, was := plain, changed;
        assert Carries(svfg, e, m);
        var grew := PropVarPtsAfterCGUpdated(m, e);
        if grew {
          changed := true;
        }
        MemberArrives(svfg, old(plain), s, plain, e, members - rest, m);
        MovedOn(svfg, old(plain), s, plain, Targets(svfg, e), was, grew);
        NewSinksMore(svfg, e, members - rest, {m});
        OneNewSink(svfg, e, m);
        assert members - (rest - {m}) == members - rest + {m};
        rest := rest - {m};
      }
      assert members - rest == members;
    }

    method ServeNewEdge(e: Edge) returns (changed: bool)
      requires Twin() && WellFormed(svfg) && e in svfg.edges && e.Indirect?
      modifies `plain, `sinks, ptD, ptD.base
      ensures Twin() && Moved(svfg, old(plain), plain, Targets(svfg, e), changed) && EdgeHolds(svfg, plain, e)
      ensures sinks == old(sinks) + iset p: (Cell, Cell) | EdgeSink(svfg, e, p.0, p.1)
    {
      changed := false;
      NoneArrived(svfg, plain, e);
      MovedNot(svfg, plain, Targets(svfg, e));
      hide WellFormed, Val, Twin, SourceStill, MembersArrived, Arrived, Targets, EdgeHolds, EdgeSink, Moved;
      ghost var all: set<NodeID> := {};
      var rest := e.pts;
      assert e.pts - rest == {};
      while rest != {}
        invariant rest <= e.pts
        invariant Twin() && Moved(svfg, old(plain), plain, Targets(svfg, e), changed)
        invariant sinks == old(sinks) + NewSinks(svfg, e, all)
        invariant all == set v, m | v in e.pts - rest && m in Members(svfg, v) :: m
        invariant SourceStill(svfg, old(plain), plain, e)
        invariant Arrived(svfg, old(plain), plain, e, e.pts - rest)
      {
        var v :| v in rest;
        ghost var s, was := plain, changed;
        var grew := ServeMembers(v, e);
        if grew {
          changed := true;
        }
        MovedGrows(svfg, s, plain, Targets(svfg, e), grew);
        VarArrives(svfg, old(plain), s, plain, e, e.pts - rest, v);
        MovedOn(svfg, old(plain), s, plain, Targets(svfg, e), was, grew);
        NewSinksMore(svfg, e, all, Members(svfg, v));
        assert e.pts - (rest - {v}) == e.pts - rest + {v};
        all, rest := all + Members(svfg, v), rest - {v};
      }
      assert e.pts - rest == e.pts;
      ArrivedHolds(svfg, old(plain), plain, e);
      NewSinksAll(svfg, e, all);
    }

    method UpdateConnectedNode(e: Edge, ghost g: Graph, ghost done: set<Edge>)
      requires Twin() && WellFormed(svfg) && Justified(svfg, plain) && sinks == SinksWith(g, svfg, done)
      requires g.edges + done <= svfg.edges && EdgesServed(svfg, plain, g.edges + done)
      requires e in svfg.edges && (e.Indirect? ==> svfg.stmt(e.dst).Region? && svfg.stmt(e.dst).entry)
      modifies `worklist, `plain, `sinks, ptD, ptD.base
      ensures Twin() && Justified(svfg, plain) && sinks == SinksWith(g, svfg, done + {e})
      ensures EdgesServed(svfg, plain, g.edges + (done + {e})) && Within(old(plain), plain)
      ensures old(worklist) <= worklist && (e.Direct? && svfg.stmt(e.dst).Phi? ==> e.dst in worklist)
      ensures Same(old(plain), plain) || e.dst in worklist
    {
      hide Twin, Justified, EdgesServed, SinksWith, Moved, Targets, WellFormed, EdgeHolds, EdgeSink;
      SameWithin(plain);
      hide Within;
      var changed := false;
      SinksWithMore(g, svfg, done, e);
      assert g.edges + done + {e} == g.edges + (done + {e});
      if e.Direct? {
        changed := svfg.stmt(e.dst).Phi?;
        DirectServed(svfg, plain, g.edges + done, e);
      } else {
        changed := ServeNewEdge(e);
        MovedJustified(svfg, old(plain), plain, Targets(svfg, e), changed);
        NewEdgeServed(svfg, old(plain), plain, g.edges + done, e, changed);
        MovedGrows(svfg, old(plain), plain, Targets(svfg, e), changed);
        MovedSame(svfg, old(plain), plain, Targets(svfg, e), changed);
      }
      if changed {
        worklist := worklist + {e.dst};
      }
    }

    /** Takes over an updated graph: new edges into formal-in and actual-out nodes are served at
        once, extended phi nodes are queued. */
    method UpdateConnectedNodes(h: Graph)
      requires Running() && Solved(svfg, plain) && Justified(svfg, plain)
      requires WellFormed(h) && Extends(svfg, h) && NewEdgesOk(svfg, h)
      modifies `svfg, `worklist, `plain, `sinks, ptD, ptD.base
      ensures Running() && svfg == h && Justified(svfg, plain) && EdgesServed(svfg, plain, svfg.edges)
      ensures Within(old(plain), plain)
      ensures forall e :: e in h.edges - old(svfg.edges) && e.Direct? && h.stmt(e.dst).Phi? ==> e.dst in worklist
    {
      ghost var g := svfg;
      var svfgNewEdges := h.edges - svfg.edges;
      ServedBefore(g, h, plain);
      ExtendedJustified(g, h, plain);
      SameWithin(plain);
      NoNewSinks(g, h);
      AllNewSinks(g, h);
      svfg := h;
      assert g.edges + svfgNewEdges == h.edges;
      hide Twin, Justified, EdgesServed, SinksWith, SinksOf, WellFormed, Extends, Solved, Within;
      var rest := svfgNewEdges;
      assert svfgNewEdges - rest == {} && g.edges + {} == g.edges;
      while rest != {}
        invariant rest <= svfgNewEdges && svfg == h
        invariant Twin() && Justified(h, plain) && sinks == SinksWith(g, h, svfgNewEdges - rest)
        invariant EdgesServed(h, plain, g.edges + (svfgNewEdges - rest)) && Within(old(plain), plain)
        invariant forall e :: e in svfgNewEdges - rest && e.Direct? && h.stmt(e.dst).Phi? ==> e.dst in worklist
      {
        var e :| e in rest;
        ghost var s, done := plain, svfgNewEdges - rest;
        assert svfgNewEdges - (rest - {e}) == done + {e};
        UpdateConnectedNode(e, g, done);
        WithinOn(old(plain), s, plain);
        rest := rest - {e};
      }
      assert svfgNewEdges - rest == svfgNewEdges;
    }

    // -------------------------------------------------------------- the analysis

    /** One round solves the graph; the call graph found then extends it for the next round. */
    method Analyze(graphs: seq<Graph>)
      requires graphs != [] && svfg == graphs[0] && GraphsOk(graphs)
      requires Running() && plain == DataFlowModel.Store(map[], map[], map[])
      modifies `svfg, `worklist, `plain, `sinks, ptD, ptD.base
      ensures Running() && svfg == graphs[|graphs| - 1]
      ensures Solved(svfg, ptD.View().store) && Justified(svfg, ptD.View().store)
      // a store leaves what is stored, and what came in unless it is killed
      ensures forall n, k :: n in svfg.nodes && svfg.stmt(n).Assign? ==> StoreLeaves(svfg, ptD.View().store, n, k)
    {
      StartsServed(svfg);
      hide Running, Justified, EdgesServed, WellFormed, Extends, NewEdgesOk, Solved, Settled;
      var i := 0;
      while true
        invariant i < |graphs| && svfg == graphs[i]
        invariant Running() && Justified(svfg, plain) && EdgesServed(svfg, plain, svfg.edges)
        decreases |graphs| - i
      {
        QueueAll(svfg, plain);
        worklist := svfg.nodes;
        SolveWorklist();
        if i == |graphs| - 1 {
          break;
        }
        UpdateConnectedNodes(graphs[i + 1]);
        i := i + 1;
      }
      AgreeOnResult();
      StoresLeave();
    }

    lemma AgreeOnResult()
      requires Running() && Solved(svfg, plain) && Justified(svfg, plain)
      ensures Solved(svfg, ptD.View().store) && Justified(svfg, ptD.View().store)
    {
      SolvedSame(svfg, plain, ptD.View().store);
    }

    lemma StoresLeave()
      requires Solved(svfg, ptD.View().store) && Justified(svfg, ptD.View().store)
      ensures forall n, k :: n in svfg.nodes && svfg.stmt(n).Assign? ==> StoreLeaves(svfg, ptD.View().store, n, k)
    {
      hide Solved, Justified, StoreLeaves;
      forall n, k | n in svfg.nodes && svfg.stmt(n).Assign?
        ensures StoreLeaves(svfg, ptD.View().store, n, k)
      {
        StoreExact(svfg, ptD.View().store, n, k);
      }
    }
  }
}
