/**
 The worklist solver for inclusion constraints, over the difference-propagating store.
 */
module AndersenSolver {
  import opened PointsToStores
  import opened AndersenModel

  class Andersen {
    const c: Constraints
    const ptd: MutableDiffPTData
    var copyEdges: Edges
    var worklist: set<NodeID>

    ghost function Now(): State
      reads this, ptd, ptd.mutPTData
    {
      State(ptd.mutPTData.ptsMap, ptd.propaPtsMap, copyEdges, worklist)
    }

    ghost predicate Valid()
      reads this, ptd, ptd.mutPTData
    {
      WellFormed(c) && ptd.mutPTData.Valid()
    }

    constructor (c: Constraints)
      requires WellFormed(c)
      ensures this.c == c && Valid() && fresh(ptd) && fresh(ptd.mutPTData)
      ensures Now() == State(map[], map[], c.copies, {})
    {
      this.c := c;
      ptd := new MutableDiffPTData(true);
      copyEdges, worklist := c.copies, {};
    }

    /** `dst` receives `pts` and is queued if its set grew. */
    method UnionAndPush(dst: NodeID, pts: set<NodeID>)
      requires Valid()
      modifies this`worklist, ptd.mutPTData
      ensures Valid() && Now() == Receive(old(Now()), dst, pts)
    {
      var changed := ptd.mutPTData.UnionPtsSet(dst, pts);
      if changed {
        worklist := worklist + {dst};
      }
    }

    method AddCopyEdge(src: NodeID, dst: NodeID) returns (added: bool)
      requires Valid()
      modifies this`copyEdges, ptd`propaPtsMap
      ensures Valid() && added == ((src, dst) !in old(copyEdges) && src != dst)
      ensures Now() == AddEdge(old(Now()), src, dst).(work := old(worklist))
    {
      added := (src, dst) !in copyEdges && src != dst;
      if added {
        copyEdges := copyEdges + {(src, dst)};
        ptd.UpdatePropaPtsMap(dst, src);
      }
    }

    /** Every pointer whose address is taken starts with the objects it is given. */
    method ProcessAllAddr()
      requires Valid() && Now() == State(map[], map[], c.copies, {})
      modifies this`worklist, ptd.mutPTData
      ensures Valid() && Invariant(c, Now(), {})
    {
      hide Loaded, Indexed, Exact;
      var todo := c.addrs;
      assert c.addrs - todo == {};
      NothingLoaded(c);
      while todo != {}
        invariant Valid() && todo <= c.addrs
        invariant Now() == State(ptd.mutPTData.ptsMap, map[], c.copies, worklist)
        invariant Loaded(c, c.addrs - todo, ptd.mutPTData.ptsMap, worklist)
        decreases todo
      {
        var addr :| addr in todo;
        var (o, p) := addr;
        assert (o, p) in c.addrs;
        LoadOne(c, c.addrs - todo, o, p, ptd.mutPTData.ptsMap, worklist);
        var changed := ptd.mutPTData.AddPts(p, o);
        if changed {
          worklist := worklist + {p};
        }
        assert c.addrs - (todo - {addr}) == c.addrs - todo + {(o, p)};
        todo := todo - {addr};
      }
      assert c.addrs - todo == c.addrs;
      AddressesLoaded(c, Now());
    }

    /** Copy edges for the loads and stores through `n`, for every object it points to.
        A source that gains an edge is queued. */
    method HandleLoadStore(n: NodeID)
      requires Valid() && n in c.nodes && Invariant(c, Now(), {n})
      modifies this, ptd`propaPtsMap
      ensures Valid() && Invariant(c, Now(), {n}) && Wired(c, Now(), n)
      ensures Progress(c, old(Now()), Now()) && Now().pts == old(Now()).pts
    {
      hide Invariant, Progress, WellFormed;
      ProgressReflexive(c, Now());
      var pts := Get(ptd.mutPTData.ptsMap, n);
      var todo := pts;
      while todo != {}
        invariant todo <= pts
        invariant Valid() && Invariant(c, Now(), {n})
        invariant Progress(c, old(Now()), Now()) && Now().pts == old(Now()).pts
        invariant forall o, a, b {:trigger (a, b) in Derived(c, n, o)} ::
                    o in pts - todo && (a, b) in Derived(c, n, o) && a != b ==> (a, b) in copyEdges
        decreases todo
      {
        var o :| o in todo;
        ghost var before := Now();
        if o !in c.inert {
          WireObject(n, o);
          ProgressTransitive(c, old(Now()), before, Now());
        }
        todo := todo - {o};
      }
    }

    method WireObject(n: NodeID, o: NodeID)
      requires Valid() && n in c.nodes && Invariant(c, Now(), {n})
      requires o in Get(ptd.mutPTData.ptsMap, n) && o !in c.inert
      modifies this, ptd`propaPtsMap
      ensures Valid() && Invariant(c, Now(), {n})
      ensures Progress(c, old(Now()), Now()) && Now().pts == old(Now()).pts
      ensures old(copyEdges) <= copyEdges
      ensures forall a, b {:trigger (a, b) in Derived(c, n, o)} ::
                (a, b) in Derived(c, n, o) && a != b ==> (a, b) in copyEdges
    {
      hide Invariant, Progress, WellFormed;
      ProgressReflexive(c, Now());
      var derived := Derived(c, n, o);
      var todo := derived;
      while todo != {}
        invariant todo <= derived
        invariant Valid() && Invariant(c, Now(), {n})
        invariant Progress(c, old(Now()), Now()) && Now().pts == old(Now()).pts
        invariant old(copyEdges) <= copyEdges
        invariant forall a, b {:trigger (a, b) in derived} :: (a, b) in derived - todo && a != b ==> (a, b) in copyEdges
        decreases todo
      {
        var edge :| edge in todo;
        var (a, b) := edge;
        ghost var before := Now();
        AddEdgeKeeps(c, before, a, b, n, o);
        DerivedNodes(c, before, n, o, a, b);
        AddEdgeProgress(c, before, a, b);
        var added := AddCopyEdge(a, b);
        if added {
          worklist := worklist + {a};
        }
        assert Now() == AddEdge(before, a, b);
        ProgressTransitive(c, old(Now()), before, Now());
        todo := todo - {edge};
      }
    }

    /** Sends what `n` has not sent before along its copy and field edges. */
    method HandleCopyGep(n: NodeID)
      requires Valid() && n in c.nodes && Invariant(c, Now(), {n}) && Wired(c, Now(), n)
      modifies this`worklist, ptd, ptd.mutPTData
      ensures Valid() && Invariant(c, Now(), {})
      ensures Progress(c, old(Now()), Now()) && Sent(c, old(Now()), Now(), n)
    {
      hide Progress, WellFormed, Spread;
      ghost var start := Now();
      var pts := Get(ptd.mutPTData.ptsMap, n);
      var nonEmpty := ptd.ComputeDiffPts(n, pts);
      var diff := Get(ptd.diffPtsMap, n);
      var edges := set e | e in copyEdges && e.0 == n;
      DeclareKeeps(c, start, n, diff, edges);
      DeclareProgress(c, start, n);
      assert Now() == Declare(start, n);
      if nonEmpty {
        ghost var declared := Now();
        SendCopies(n, diff, edges);
        ghost var copied := Now();
        SendFields(n, diff, edges, declared);
        ArrivedEverywhere(c, Now(), n, diff, {});
        ProgressTransitive(c, declared, copied, Now());
        ProgressTransitive(c, start, declared, Now());
      } else {
        assert forall o :: o in Get(start.pts, n) && o !in Get(start.propa, n) ==> o in diff;
        NothingToSend(c, start, n);
      }
    }

    /** `n` is sending `diff`; the edges `todo` and `gepTodo` are still to be served. */
    ghost predicate Sending(n: NodeID, diff: set<NodeID>, todo: Edges, gepTodo: set<GepEdge>)
      reads this, ptd, ptd.mutPTData
    {
      && Valid() && n in c.nodes && diff <= Get(Now().pts, n)
      && Typed(c, Now()) && Done(c, Now(), {}) && Justified(c, Now())
      && Arrived(c, Now(), n, diff, todo, gepTodo)
    }

    method SendCopies(n: NodeID, diff: set<NodeID>, edges: Edges)
      requires Sending(n, diff, edges, c.geps) && edges <= copyEdges && forall e :: e in edges ==> e.0 == n
      modifies this`worklist, ptd.mutPTData
      ensures Sending(n, diff, {}, c.geps) && Progress(c, old(Now()), Now())
      ensures Spread(c, old(Now()), Now(), edges, {}, n, diff)
    {
      hide Progress, WellFormed, Done, Justified, Arrived, Spread, Receive;
      ProgressReflexive(c, Now());
      SpreadNothing(c, Now(), n, diff);
      var todo := edges;
      assert edges - todo == {};
      while todo != {}
        invariant todo <= edges
        invariant Sending(n, diff, todo, c.geps) && Progress(c, old(Now()), Now())
        invariant copyEdges == old(copyEdges) && Spread(c, old(Now()), Now(), edges - todo, {}, n, diff)
        decreases todo
      {
        var e :| e in todo;
        var m := e.1;
        assert e == (n, m);
        ghost var before := Now();
        assert (n, m) in copyEdges;
        SentIsJustified(c, before, n, m, diff);
        ReceiveKeeps(c, before, n, diff, todo, c.geps, m, diff);
        ReceiveProgress(c, before, m, diff);
        SpreadCopy(c, old(Now()), before, edges - todo, {}, n, diff, m);
        assert edges - (todo - {e}) == edges - todo + {(n, m)};
        UnionAndPush(m, diff);
        ProgressTransitive(c, old(Now()), before, Now());
        todo := todo - {e};
      }
      assert edges - todo == edges;
    }

    method SendFields(n: NodeID, diff: set<NodeID>, ghost edges: Edges, ghost start: State)
      requires Sending(n, diff, {}, c.geps) && Spread(c, start, Now(), edges, {}, n, diff)
      requires edges == set e | e in start.edges && e.0 == n
      modifies this`worklist, ptd.mutPTData
      ensures Sending(n, diff, {}, {}) && Progress(c, old(Now()), Now())
      ensures Spread(c, start, Now(), start.edges, c.geps, n, diff)
    {
      hide Progress, Done, Justified, Arrived, Spread, Receive;
      ProgressReflexive(c, Now());
      var geps := set e | e in c.geps && e.src == n;
      var todo := geps;
      ArrivedOwn(c, Now(), n, diff, {}, c.geps, todo);
      assert geps - todo == {};
      while todo != {}
        invariant todo <= geps
        invariant Sending(n, diff, {}, todo) && Progress(c, old(Now()), Now())
        invariant Spread(c, start, Now(), edges, geps - todo, n, diff)
        decreases todo
      {
        var e :| e in todo;
        ghost var before := Now();
        var fields := Fields(c, diff, e.offset);
        assert diff <= c.nodes;
        SentFieldsJustified(c, before, e, diff);
        ReceiveKeeps(c, before, n, diff, {}, todo, e.dst, fields);
        ReceiveProgress(c, before, e.dst, fields);
        SpreadGep(c, start, before, edges, geps - todo, n, diff, e);
        assert geps - (todo - {e}) == geps - todo + {e};
        UnionAndPush(e.dst, fields);
        ProgressTransitive(c, old(Now()), before, Now());
        todo := todo - {e};
      }
      assert geps - todo == geps;
      SpreadOwn(c, start, Now(), edges, geps, n, diff, start.edges, c.geps);
    }

    /** Solves from any consistent state; the order of the worklist does not matter. */
    method SolveWorklist()
      requires Valid() && Invariant(c, Now(), {})
      modifies this, ptd, ptd.mutPTData
      ensures Valid() && worklist == {}
      ensures Solution(c, ptd.mutPTData.ptsMap)
      ensures forall sol :: Solution(c, sol) ==> Within(ptd.mutPTData.ptsMap, sol)
    {
      hide Solution, WellFormed, Invariant, Wired, Within;
      while worklist != {}
        invariant Valid() && Invariant(c, Now(), {})
        decreases MissingEdges(c, Now()), MissingPts(c, Now()), worklist
      {
        var n :| n in worklist;
        ghost var start := Now();
        PopKeeps(c, start, n);
        worklist := worklist - {n};
        ghost var popped := Now();
        assert popped == start.(work := start.work - {n});
        HandleLoadStore(n);
        ghost var wired := Now();
        HandleCopyGep(n);
        ProgressTransitive(c, popped, wired, Now());
        PoppedMeasure(c, start, n);
      }
      DrainedIsLeast(c, Now());
    }

    /** The whole analysis computes the least solution of the constraints. */
    method Analyze()
      requires Valid() && Now() == State(map[], map[], c.copies, {})
      modifies this, ptd, ptd.mutPTData
      ensures Solution(c, ptd.mutPTData.ptsMap)
      ensures forall s, d, o :: (s, d) in c.loads && o in Get(ptd.mutPTData.ptsMap, s) && o !in c.inert ==>
                Get(ptd.mutPTData.ptsMap, o) <= Get(ptd.mutPTData.ptsMap, d)
      ensures forall s, d, o :: (s, d) in c.stores && o in Get(ptd.mutPTData.ptsMap, d) && o !in c.inert ==>
                Get(ptd.mutPTData.ptsMap, s) <= Get(ptd.mutPTData.ptsMap, o)
      ensures forall sol :: Solution(c, sol) ==> Within(ptd.mutPTData.ptsMap, sol)
    {
      hide WellFormed, Invariant, Within;
      ProcessAllAddr();
      SolveWorklist();
    }
  }
}
