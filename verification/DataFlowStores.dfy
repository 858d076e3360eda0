/**
 The two data-flow points-to stores as the program updates them: nested maps of sets
 changed in place, and for the incremental store two maps of flags on top.
 */
module DataFlowStores {
  import opened DataFlowModel

  class MutableDFPTData {
    var ptsMap: PtsMap
    var dfInPtsMap: DFPtsMap
    var dfOutPtsMap: DFPtsMap

    function View(): Store
      reads this
    {
      Store(ptsMap, dfInPtsMap, dfOutPtsMap)
    }

    constructor ()
      ensures View() == Store(map[], map[], map[])
    {
      ptsMap, dfInPtsMap, dfOutPtsMap := map[], map[], map[];
    }

    /** Unions the set of `a` into the set of `b`; tells whether the latter grew. */
    method UnionPts(b: Cell, a: Cell) returns (changed: bool)
      modifies this
      ensures Flowed(old(View()), a, b, View()) && changed == Grows(old(View()), a, b)
      ensures dfInPtsMap.Keys == old(dfInPtsMap.Keys) + if b.In? then {b.loc} else {}
      ensures dfOutPtsMap.Keys == old(dfOutPtsMap.Keys) + if b.Out? then {b.loc} else {}
    {
      hide Flowed;
      PutFlows(View(), a, b);
      var src, dst := Val(View(), a), Val(View(), b);
      changed := !(src <= dst);
      match b
      case Top(k) => ptsMap := ptsMap[k := dst + src];
      case In(l, k) => dfInPtsMap := dfInPtsMap[l := Row(dfInPtsMap, l)[k := dst + src]];
      case Out(l, k) => dfOutPtsMap := dfOutPtsMap[l := Row(dfOutPtsMap, l)[k := dst + src]];
      assert View() == Put(old(View()), b, dst + src);
    }

    /** Unions given targets into a top-level set. */
    method UnionTopPts(key: NodeID, pts: set<NodeID>) returns (changed: bool)
      modifies this
      ensures PlainStep(old(View()), UnionTop(key, pts), View(), changed)
      ensures dfInPtsMap == old(dfInPtsMap) && dfOutPtsMap == old(dfOutPtsMap)
    {
      var dst := Entry(ptsMap, key);
      changed := !(pts <= dst);
      ptsMap := ptsMap[key := dst + pts];
    }

    method UpdateDFInFromIn(srcLoc: LocID, srcVar: NodeID, dstLoc: LocID, dstVar: NodeID) returns (changed: bool)
      modifies this
      ensures PlainStep(old(View()), InFromIn(In(srcLoc, srcVar), In(dstLoc, dstVar)), View(), changed)
    {
      changed := UnionPts(In(dstLoc, dstVar), In(srcLoc, srcVar));
    }

    method UpdateDFInFromOut(srcLoc: LocID, srcVar: NodeID, dstLoc: LocID, dstVar: NodeID) returns (changed: bool)
      modifies this
      ensures PlainStep(old(View()), InFromOut(Out(srcLoc, srcVar), In(dstLoc, dstVar)), View(), changed)
    {
      changed := UnionPts(In(dstLoc, dstVar), Out(srcLoc, srcVar));
    }

    method UpdateDFOutFromIn(srcLoc: LocID, srcVar: NodeID, dstLoc: LocID, dstVar: NodeID) returns (changed: bool)
      modifies this
      ensures PlainStep(old(View()), OutFromIn(In(srcLoc, srcVar), Out(dstLoc, dstVar)), View(), changed)
      ensures dfInPtsMap == old(dfInPtsMap)
    {
      var pts := Val(View(), In(srcLoc, srcVar));
      var row := Row(dfOutPtsMap, dstLoc);
      changed := !(pts <= Entry(row, dstVar));
      dfOutPtsMap := dfOutPtsMap[dstLoc := row[dstVar := Entry(row, dstVar) + pts]];
    }

    method UpdateAllDFInFromOut(srcLoc: LocID, srcVar: NodeID, dstLoc: LocID, dstVar: NodeID) returns (changed: bool)
      modifies this
      ensures PlainStep(old(View()), AllInFromOut(Out(srcLoc, srcVar), In(dstLoc, dstVar)), View(), changed)
    {
      changed := UpdateDFInFromOut(srcLoc, srcVar, dstLoc, dstVar);
    }

    method UpdateAllDFInFromIn(srcLoc: LocID, srcVar: NodeID, dstLoc: LocID, dstVar: NodeID) returns (changed: bool)
      modifies this
      ensures PlainStep(old(View()), AllInFromIn(In(srcLoc, srcVar), In(dstLoc, dstVar)), View(), changed)
    {
      changed := UpdateDFInFromIn(srcLoc, srcVar, dstLoc, dstVar);
    }

    method UpdateAllDFOutFromIn(loc: LocID, singleton: NodeID, strongUpdates: bool) returns (changed: bool)
      modifies this
      ensures PlainStep(old(View()), AllOutFromIn(loc, singleton, strongUpdates), View(), changed)
    {
      hide PlainUpTo, PlainStep;
      ghost var op := AllOutFromIn(loc, singleton, strongUpdates);
      ghost var start := View();
      changed := false;
      PlainStart(start, op);
      if loc in dfInPtsMap {
        var vars := dfInPtsMap[loc].Keys;
        var todo := vars;
        assert vars - todo == {};
        while todo != {}
          invariant todo <= vars && dfInPtsMap == start.dfIn
          invariant PlainUpTo(start, op, vars - todo, View(), changed)
          decreases todo
        {
          var v :| v in todo;
          ghost var before, was := View(), changed;
          var grew := false;
          if !(strongUpdates && v == singleton) {
            grew := UpdateDFOutFromIn(loc, v, loc, v);
            if grew {
              changed := true;
            }
          }
          PlainAdvance(start, op, vars - todo, v, before, was, View(), grew);
          assert vars - (todo - {v}) == vars - todo + {v};
          todo := todo - {v};
        }
        assert vars - todo == vars;
      }
      PlainFinish(start, op, View(), changed);
    }

    method UpdateTLVPts(srcLoc: LocID, srcVar: NodeID, dstVar: NodeID) returns (changed: bool)
      modifies this
      ensures PlainStep(old(View()), TLVFromIn(In(srcLoc, srcVar), Top(dstVar)), View(), changed)
    {
      changed := UnionPts(Top(dstVar), In(srcLoc, srcVar));
    }

    method UpdateATVPts(srcVar: NodeID, dstLoc: LocID, dstVar: NodeID) returns (changed: bool)
      modifies this
      ensures PlainStep(old(View()), ATVFromTop(Top(srcVar), Out(dstLoc, dstVar)), View(), changed)
    {
      changed := UnionPts(Out(dstLoc, dstVar), Top(srcVar));
    }
  }

  /** The store that remembers which sets changed and moves only those. */
  class IncMutableDFPTData {
    const base: MutableDFPTData
    var inUpdatedVarMap: Flags
    var outUpdatedVarMap: Flags

    function View(): Inc
      reads this, base
    {
      Inc(base.View(), inUpdatedVarMap, outUpdatedVarMap)
    }

    /** Flags are raised only where a set was written. */
    ghost predicate Valid()
      reads this, base
    {
      inUpdatedVarMap.Keys <= base.dfInPtsMap.Keys && outUpdatedVarMap.Keys <= base.dfOutPtsMap.Keys
    }

    constructor ()
      ensures Valid() && fresh(base)
      ensures View() == Inc(Store(map[], map[], map[]), map[], map[])
    {
      base := new MutableDFPTData();
      inUpdatedVarMap, outUpdatedVarMap := map[], map[];
    }

    method SetVarUpdated(c: Cell)
      requires c.In? ==> c.loc in base.dfInPtsMap
      requires c.Out? ==> c.loc in base.dfOutPtsMap
      requires Valid()
      modifies this
      ensures Valid() && FlagsAre(old(View()), View(), if c.Top? then {} else {c}, {})
    {
      match c
      case Top(_) =>
      case In(l, k) =>
        inUpdatedVarMap := inUpdatedVarMap[l := {k} + if l in inUpdatedVarMap then inUpdatedVarMap[l] else {}];
      case Out(l, k) =>
        outUpdatedVarMap := outUpdatedVarMap[l := {k} + if l in outUpdatedVarMap then outUpdatedVarMap[l] else {}];
    }

    method RemoveVarFromDFInUpdatedSet(loc: LocID, v: NodeID)
      requires Valid()
      modifies this
      ensures Valid() && FlagsAre(old(View()), View(), {}, {In(loc, v)})
    {
      if loc in inUpdatedVarMap {
        inUpdatedVarMap := inUpdatedVarMap[loc := inUpdatedVarMap[loc] - {v}];
      }
    }

    method RemoveVarFromDFOutUpdatedSet(loc: LocID, v: NodeID)
      requires Valid()
      modifies this
      ensures Valid() && inUpdatedVarMap == old(inUpdatedVarMap)
      ensures FlagsAre(old(View()), View(), {}, {Out(loc, v)})
      ensures outUpdatedVarMap.Keys == old(outUpdatedVarMap.Keys)
    {
      if loc in outUpdatedVarMap {
        outUpdatedVarMap := outUpdatedVarMap[loc := outUpdatedVarMap[loc] - {v}];
      }
    }

    /** The unconditional move all update calls share: raise the flag of `b` on growth. */
    method MoveAndFlag(b: Cell, a: Cell) returns (changed: bool)
      requires Valid()
      modifies this, base
      ensures Valid() && changed == Grows(old(View()).store, a, b)
      ensures Flowed(old(View()).store, a, b, View().store)
      ensures FlagsAre(old(View()), View(), if changed && !b.Top? then {b} else {}, {})
    {
      hide Flowed, FlagsAre, Grows, Val;
      ghost var start := View();
      changed := base.UnionPts(b, a);
      ghost var moved := View();
      if changed {
        SetVarUpdated(b);
      }
      SameFlags(start, moved, View(), if changed && !b.Top? then {b} else {});
      assert View().store == moved.store;
    }

    method UnionTopPts(key: NodeID, pts: set<NodeID>) returns (changed: bool)
      requires Valid()
      modifies base
      ensures Valid()
      ensures IncStep(old(View()), UnionTop(key, pts), View(), changed)
    {
      changed := base.UnionTopPts(key, pts);
    }

    method UpdateDFInFromIn(srcLoc: LocID, srcVar: NodeID, dstLoc: LocID, dstVar: NodeID) returns (changed: bool)
      requires Valid()
      modifies this, base
      ensures Valid()
      ensures IncStep(old(View()), InFromIn(In(srcLoc, srcVar), In(dstLoc, dstVar)), View(), changed)
    {
      changed := false;
      if HasFlag(inUpdatedVarMap, srcLoc, srcVar) {
        changed := MoveAndFlag(In(dstLoc, dstVar), In(srcLoc, srcVar));
      }
    }

    method UpdateDFInFromOut(srcLoc: LocID, srcVar: NodeID, dstLoc: LocID, dstVar: NodeID) returns (changed: bool)
      requires Valid()
      modifies this, base
      ensures Valid()
      ensures IncStep(old(View()), InFromOut(Out(srcLoc, srcVar), In(dstLoc, dstVar)), View(), changed)
    {
      changed := false;
      if HasFlag(outUpdatedVarMap, srcLoc, srcVar) {
        changed := MoveAndFlag(In(dstLoc, dstVar), Out(srcLoc, srcVar));
      }
    }

    method UpdateDFOutFromIn(srcLoc: LocID, srcVar: NodeID, dstLoc: LocID, dstVar: NodeID) returns (changed: bool)
      requires Valid()
      modifies this, base
      ensures Valid()
      ensures IncStep(old(View()), OutFromIn(In(srcLoc, srcVar), Out(dstLoc, dstVar)), View(), changed)
    {
      changed := false;
      if HasFlag(inUpdatedVarMap, srcLoc, srcVar) {
        RemoveVarFromDFInUpdatedSet(srcLoc, srcVar);
        changed := MoveAndFlag(Out(dstLoc, dstVar), In(srcLoc, srcVar));
      }
    }

    method UpdateAllDFInFromOut(srcLoc: LocID, srcVar: NodeID, dstLoc: LocID, dstVar: NodeID) returns (changed: bool)
      requires Valid()
      modifies this, base
      ensures Valid()
      ensures IncStep(old(View()), AllInFromOut(Out(srcLoc, srcVar), In(dstLoc, dstVar)), View(), changed)
    {
      changed := MoveAndFlag(In(dstLoc, dstVar), Out(srcLoc, srcVar));
    }

    method UpdateAllDFInFromIn(srcLoc: LocID, srcVar: NodeID, dstLoc: LocID, dstVar: NodeID) returns (changed: bool)
      requires Valid()
      modifies this, base
      ensures Valid()
      ensures IncStep(old(View()), AllInFromIn(In(srcLoc, srcVar), In(dstLoc, dstVar)), View(), changed)
    {
      changed := MoveAndFlag(In(dstLoc, dstVar), In(srcLoc, srcVar));
    }

    /** Walks a copy of the flag set while each update takes its own flag down. */
    method UpdateAllDFOutFromIn(loc: LocID, singleton: NodeID, strongUpdates: bool) returns (changed: bool)
      requires Valid()
      modifies this, base
      ensures Valid()
      ensures IncStep(old(View()), AllOutFromIn(loc, singleton, strongUpdates), View(), changed)
    {
      hide IncUpTo, IncStep;
      ghost var op := AllOutFromIn(loc, singleton, strongUpdates);
      ghost var start := View();
      changed := false;
      IncStart(start, op);
      if loc in base.dfInPtsMap {
        var vars := if loc in inUpdatedVarMap then inUpdatedVarMap[loc] else {};
        var todo := vars;
        assert vars - todo == {};
        while todo != {}
          invariant Valid() && todo <= vars
          invariant IncUpTo(start, op, vars - todo, View(), changed)
          decreases todo
        {
          var v :| v in todo;
          ghost var before, was := View(), changed;
          var grew := false;
          if !(strongUpdates && v == singleton) {
            grew := UpdateDFOutFromIn(loc, v, loc, v);
            if grew {
              changed := true;
            }
          }
          assert Flagged(start, In(loc, v));
          IncAdvance(start, op, vars - todo, v, before, was, View(), grew);
          assert vars - (todo - {v}) == vars - todo + {v};
          todo := todo - {v};
        }
        assert vars - todo == vars;
        IncFinish(start, op, vars, View(), changed);
      } else {
        IncFinish(start, op, {}, View(), changed);
      }
    }

    method UpdateTLVPts(srcLoc: LocID, srcVar: NodeID, dstVar: NodeID) returns (changed: bool)
      requires Valid()
      modifies this, base
      ensures Valid()
      ensures IncStep(old(View()), TLVFromIn(In(srcLoc, srcVar), Top(dstVar)), View(), changed)
    {
      changed := false;
      if HasFlag(inUpdatedVarMap, srcLoc, srcVar) {
        RemoveVarFromDFInUpdatedSet(srcLoc, srcVar);
        changed := MoveAndFlag(Top(dstVar), In(srcLoc, srcVar));
      }
    }

    method UpdateATVPts(srcVar: NodeID, dstLoc: LocID, dstVar: NodeID) returns (changed: bool)
      requires Valid()
      modifies this, base
      ensures Valid()
      ensures IncStep(old(View()), ATVFromTop(Top(srcVar), Out(dstLoc, dstVar)), View(), changed)
    {
      changed := MoveAndFlag(Out(dstLoc, dstVar), Top(srcVar));
    }

    method ClearAllDFOutUpdatedVar(loc: LocID)
      requires Valid()
      modifies this
      ensures Valid()
      ensures IncStep(old(View()), ClearOutFlags(loc), View(), false)
    {
      if loc !in base.dfOutPtsMap {
        return;
      }
      ghost var start := View();
      var vars := if loc in outUpdatedVarMap then outUpdatedVarMap[loc] else {};
      var todo := vars;
      while todo != {}
        invariant Valid() && todo <= vars
        invariant View().store == start.store && inUpdatedVarMap == start.inUpdated
        invariant forall l, k :: HasFlag(outUpdatedVarMap, l, k) <==>
                                   HasFlag(start.outUpdated, l, k) && !(l == loc && k in vars - todo)
        decreases todo
      {
        var v :| v in todo;
        ghost var before := View();
        RemoveVarFromDFOutUpdatedSet(loc, v);
        forall l, k
          ensures HasFlag(outUpdatedVarMap, l, k) <==> HasFlag(before.outUpdated, l, k) && !(l == loc && k == v)
        {
          assert Flagged(View(), Out(l, k)) <==> Flagged(before, Out(l, k)) && Out(l, k) != Out(loc, v);
        }
        todo := todo - {v};
      }
    }
  }
}
