/**
 The in-place points-to store with its reverse index, and the layer on top of it that
 remembers what has already been propagated.
 */
module PointsToStores {

  type NodeID = nat
  type PtsMap = map<NodeID, set<NodeID>>

  function Get(m: PtsMap, k: NodeID): set<NodeID>
  {
    if k in m then m[k] else {}
  }

  /** Every pointer is listed under each object it points to. */
  ghost predicate Indexed(pts: PtsMap, rev: PtsMap)
  {
    forall k, o :: o in Get(pts, k) ==> k in Get(rev, o)
  }

  /** The two maps are inverse relations. */
  ghost predicate Exact(pts: PtsMap, rev: PtsMap)
  {
    forall k, o :: o in Get(pts, k) <==> k in Get(rev, o)
  }

  function Renamed(pts: set<NodeID>, field: NodeID, fieldBase: NodeID): set<NodeID>
  {
    if field in pts then pts - {field} + {fieldBase} else pts
  }

  lemma UnionKeepsIndex(pts: PtsMap, rev: PtsMap, dst: NodeID, src: set<NodeID>, next: PtsMap)
    requires forall o :: Get(next, o) == Get(rev, o) + if o in src then {dst} else {}
    ensures Indexed(pts, rev) ==> Indexed(pts[dst := Get(pts, dst) + src], next)
    ensures Exact(pts, rev) ==> Exact(pts[dst := Get(pts, dst) + src], next)
  {
    var pts' := pts[dst := Get(pts, dst) + src];
    forall k, o
      ensures o in Get(pts', k) <==> o in Get(pts, k) || (k == dst && o in src)
      ensures k in Get(next, o) <==> k in Get(rev, o) || (k == dst && o in src)
    {
    }
  }

  /** Removing objects without touching the reverse index keeps it complete, and keeps it
      exact precisely when none of them was there. */
  lemma RemovalAndIndex(pts: PtsMap, rev: PtsMap, k: NodeID, kept: set<NodeID>)
    requires Indexed(pts, rev) && kept <= Get(pts, k)
    ensures Indexed(pts[k := kept], rev)
    ensures Exact(pts, rev) ==> (Exact(pts[k := kept], rev) <==> kept == Get(pts, k))
  {
    var pts' := pts[k := kept];
    forall j, o | o in Get(pts', j)
      ensures j in Get(rev, o)
    {
      assert o in Get(pts, j);
    }
    if Exact(pts, rev) && kept != Get(pts, k) {
      var o :| o in Get(pts, k) && o !in kept;
      assert k in Get(rev, o) && o !in Get(pts', k);
    }
    if kept == Get(pts, k) {
      assert forall j :: Get(pts', j) == Get(pts, j);
    }
  }

  class MutablePTData {
    const rev: bool
    var ptsMap: PtsMap
    var revPtsMap: PtsMap

    /** With reverse support the index never misses a pointer. */
    ghost predicate Valid()
      reads this
    {
      rev ==> Indexed(ptsMap, revPtsMap)
    }

    ghost predicate ExactIndex()
      reads this
    {
      rev ==> Exact(ptsMap, revPtsMap)
    }

    constructor (rev: bool)
      ensures this.rev == rev && ptsMap == map[] && revPtsMap == map[]
      ensures Valid() && ExactIndex()
    {
      this.rev := rev;
      ptsMap, revPtsMap := map[], map[];
    }

    method Clear()
      modifies this
      ensures Valid() && ExactIndex() && ptsMap == map[]
    {
      ptsMap, revPtsMap := map[], map[];
    }

    method AddRevPts(pts: set<NodeID>, tgr: NodeID)
      modifies this`revPtsMap
      ensures forall o :: Get(revPtsMap, o) ==
                          Get(old(revPtsMap), o) + if rev && o in pts then {tgr} else {}
    {
      if rev {
        var todo := pts;
        while todo != {}
          invariant todo <= pts
          invariant forall o :: Get(revPtsMap, o) ==
                                Get(old(revPtsMap), o) + if o in pts - todo then {tgr} else {}
          decreases todo
        {
          var o :| o in todo;
          revPtsMap := revPtsMap[o := Get(revPtsMap, o) + {tgr}];
          todo := todo - {o};
        }
      }
    }

    method UnionPtsSet(dst: NodeID, src: set<NodeID>) returns (changed: bool)
      requires Valid()
      modifies this
      ensures Valid() && (old(ExactIndex()) ==> ExactIndex())
      ensures ptsMap == old(ptsMap)[dst := Get(old(ptsMap), dst) + src]
      ensures changed <==> Get(ptsMap, dst) != Get(old(ptsMap), dst)
    {
      AddRevPts(src, dst);
      if rev {
        UnionKeepsIndex(ptsMap, old(revPtsMap), dst, src, revPtsMap);
      }
      changed := !(src <= Get(ptsMap, dst));
      ptsMap := ptsMap[dst := Get(ptsMap, dst) + src];
      assert !changed ==> Get(old(ptsMap), dst) + src == Get(old(ptsMap), dst);
    }

    method UnionPts(dst: NodeID, src: NodeID) returns (changed: bool)
      requires Valid()
      modifies this
      ensures Valid() && (old(ExactIndex()) ==> ExactIndex())
      ensures ptsMap == old(ptsMap)[dst := Get(old(ptsMap), dst) + Get(old(ptsMap), src)]
      ensures changed <==> Get(ptsMap, dst) != Get(old(ptsMap), dst)
    {
      changed := UnionPtsSet(dst, Get(ptsMap, src));
    }

    method AddPts(dst: NodeID, o: NodeID) returns (changed: bool)
      requires Valid()
      modifies this
      ensures Valid() && (old(ExactIndex()) ==> ExactIndex())
      ensures ptsMap == old(ptsMap)[dst := Get(old(ptsMap), dst) + {o}]
      ensures changed <==> o !in Get(old(ptsMap), dst)
    {
      changed := UnionPtsSet(dst, {o});
    }

    /** Leaves the reverse index alone: the index stays complete, and stays exact
        precisely when there was nothing to remove. */
    method ClearPts(k: NodeID, o: NodeID)
      requires Valid()
      modifies this`ptsMap
      ensures Valid() && ptsMap == old(ptsMap)[k := Get(old(ptsMap), k) - {o}]
      ensures rev && old(ExactIndex()) ==> (ExactIndex() <==> o !in Get(old(ptsMap), k))
    {
      var kept := Get(ptsMap, k) - {o};
      if rev {
        RemovalAndIndex(ptsMap, revPtsMap, k, kept);
      }
      ptsMap := ptsMap[k := kept];
    }

    method ClearFullPts(k: NodeID)
      requires Valid()
      modifies this`ptsMap
      ensures Valid() && ptsMap == old(ptsMap)[k := {}]
      ensures rev && old(ExactIndex()) ==> (ExactIndex() <==> Get(old(ptsMap), k) == {})
    {
      if rev {
        RemovalAndIndex(ptsMap, revPtsMap, k, {});
      }
      ptsMap := ptsMap[k := {}];
    }

    /** Replaces a field object by its base in every pointer the reverse index lists.
        A complete index means no pointer to the field survives; an exact one means
        nothing but the replacement happens. */
    method CollapseField(field: NodeID, fieldBase: NodeID)
      requires Valid() && rev && field != fieldBase
      modifies this
      ensures Valid()
      ensures forall k :: Get(ptsMap, k) == Get(old(ptsMap), k) - {field}
                                            + if k in Get(old(revPtsMap), field) then {fieldBase} else {}
      ensures forall k :: field !in Get(ptsMap, k)
      ensures forall k :: field in Get(old(ptsMap), k) ==> fieldBase in Get(ptsMap, k)
      ensures old(ExactIndex()) ==> forall k :: Get(ptsMap, k) == Renamed(Get(old(ptsMap), k), field, fieldBase)
    {
      var keys := Get(revPtsMap, field);
      var todo := keys;
      while todo != {}
        invariant todo <= keys && Valid()
        invariant forall k :: Get(ptsMap, k) ==
                    if k in keys - todo then Get(old(ptsMap), k) - {field} + {fieldBase} else Get(old(ptsMap), k)
        decreases todo
      {
        var k :| k in todo;
        ClearPts(k, field);
        var _ := AddPts(k, fieldBase);
        todo := todo - {k};
      }
    }
  }

  /** Adding an object and removing it again leaves a stale entry in the reverse index. */
  method StaleEntry() returns (d: MutablePTData)
    ensures fresh(d) && d.Valid() && !d.ExactIndex()
  {
    d := new MutablePTData(true);
    var _ := d.AddPts(1, 2);
    d.ClearPts(1, 2);
  }

  class MutableDiffPTData {
    const mutPTData: MutablePTData
    var diffPtsMap: PtsMap
    var propaPtsMap: PtsMap

    constructor (rev: bool)
      ensures fresh(mutPTData) && mutPTData.Valid()
      ensures mutPTData.ptsMap == map[] && diffPtsMap == map[] && propaPtsMap == map[]
    {
      mutPTData := new MutablePTData(rev);
      diffPtsMap, propaPtsMap := map[], map[];
    }

    /** What is in `all` but was not propagated before becomes the difference, and all of
        it counts as propagated from now on. */
    method ComputeDiffPts(k: NodeID, all: set<NodeID>) returns (nonEmpty: bool)
      modifies this
      ensures Get(diffPtsMap, k) == all - Get(old(propaPtsMap), k)
      ensures propaPtsMap == old(propaPtsMap)[k := all]
      ensures nonEmpty <==> Get(diffPtsMap, k) != {}
    {
      var propa := Get(propaPtsMap, k);
      diffPtsMap := diffPtsMap[k := all - propa];
      propaPtsMap := propaPtsMap[k := all];
      nonEmpty := all - propa != {};
    }

    method UpdatePropaPtsMap(src: NodeID, dst: NodeID)
      modifies this`propaPtsMap
      ensures propaPtsMap == old(propaPtsMap)[dst := Get(old(propaPtsMap), dst) * Get(old(propaPtsMap), src)]
    {
      propaPtsMap := propaPtsMap[dst := Get(propaPtsMap, dst) * Get(propaPtsMap, src)];
    }

    method ClearPropaPts(k: NodeID)
      modifies this`propaPtsMap
      ensures propaPtsMap == old(propaPtsMap)[k := {}]
    {
      propaPtsMap := propaPtsMap[k := {}];
    }
  }
}
