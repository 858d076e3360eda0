/**
 Runs of the difference-propagating solver in which nodes are merged: merging intersects
 what the two nodes have propagated, moves their edges to the representative, and drops the
 edges between them.
 */
module AndersenRuns {
  import opened PointsToStores
  import opened AndersenModel

  /** The solver while nodes are being merged.
      s      sets, copy edges and queue
      geps   field edges
      rep    representative of every node
      asked  copy constraints added so far, between the original nodes */
  datatype Live = Live(s: State, geps: set<GepEdge>, rep: NodeID -> NodeID, asked: Edges)

  datatype Step =
    | Load(o: NodeID, p: NodeID)       // p points to o
    | Wire(a: NodeID, b: NodeID)       // a new copy constraint
    | Send(n: NodeID)                  // the difference of n goes out
    | Merge(node: NodeID, into: NodeID)

  function Target(n: NodeID, node: NodeID, rep: NodeID): NodeID
  {
    if n == node then rep else n
  }

  function Moved(e: GepEdge, node: NodeID, rep: NodeID): GepEdge
  {
    GepEdge(Target(e.src, node, rep), Target(e.dst, node, rep), e.offset)
  }

  /** An edge that joins `node` to itself or to `rep` disappears. */
  predicate Inner(a: NodeID, b: NodeID, node: NodeID, rep: NodeID)
  {
    node in {a, b} && a in {node, rep} && b in {node, rep}
  }

  predicate SameEnds(e: GepEdge, f: GepEdge)
  {
    e.src == f.src && e.dst == f.dst
  }

  ghost predicate UniqueEnds(geps: set<GepEdge>)
  {
    forall e, f :: e in geps && f in geps && e.src == f.src && e.dst == f.dst ==> e == f
  }

  ghost predicate HasOrigin(geps: set<GepEdge>, node: NodeID, rep: NodeID, e: GepEdge)
  {
    exists f :: f in geps && !Inner(f.src, f.dst, node, rep) && Moved(f, node, rep) == e
  }

  ghost predicate Joined(geps: set<GepEdge>, e: GepEdge)
  {
    exists f :: f in geps && SameEnds(f, e)
  }

  /** Field edges after a merge: those elsewhere stay, those of `node` move, but an edge is
      refused when its new ends are joined already, at whatever offset. */
  ghost predicate GepsMoved(geps: set<GepEdge>, after: set<GepEdge>, node: NodeID, rep: NodeID)
  {
    && (forall e :: e in geps && node !in {e.src, e.dst} ==> e in after)
    && (forall e {:trigger HasOrigin(geps, node, rep, e)} :: e in after ==> HasOrigin(geps, node, rep, e))
    && (forall e {:trigger Moved(e, node, rep)} ::
          e in geps && !Inner(e.src, e.dst, node, rep) ==> Joined(after, Moved(e, node, rep)))
    && (forall e, f {:trigger SameEnds(e, f)} ::
          e in after && f in after && SameEnds(e, f) ==> e == f || (e in geps && f in geps))
  }

  /** Sets are united, propagated sets intersected, and the copy edges of `node` move. */
  ghost function Merged(s: State, node: NodeID, rep: NodeID): State
  {
    State(s.pts[rep := Get(s.pts, rep) + Get(s.pts, node)][node := {}],
          s.propa[rep := Get(s.propa, rep) * Get(s.propa, node)][node := {}],
          set e | e in s.edges && !Inner(e.0, e.1, node, rep) :: (Target(e.0, node, rep), Target(e.1, node, rep)),
          s.work)
  }

  ghost predicate Next(c: Constraints, x: Live, step: Step, y: Live)
  {
    match step
    case Load(o, p) => y == x.(s := Receive(x.s, x.rep(p), {o}))
    case Wire(a, b) => y == x.(s := AddEdge(x.s, x.rep(a), x.rep(b)), asked := x.asked + {(a, b)})
    case Send(n) => y == x.(s := y.s) && Sent(c.(geps := x.geps), x.s, y.s, n)
    case Merge(node, into) =>
      && node != into && y.s == Merged(x.s, node, into) && y.asked == x.asked
      && GepsMoved(x.geps, y.geps, node, into)
      && forall n :: y.rep(n) == Target(x.rep(n), node, into)
  }

  /** A run: each state follows from the one before. */
  ghost predicate Run(c: Constraints, states: seq<Live>, steps: seq<Step>)
  {
    |states| == |steps| + 1 && forall i :: 0 <= i < |steps| ==> Next(c, states[i], steps[i], states[i + 1])
  }

  /** Every copy constraint joins representatives by an edge, or joins merged nodes. */
  ghost predicate Represented(x: Live)
  {
    forall a, b {:trigger (a, b) in x.asked} :: (a, b) in x.asked ==>
      x.rep(a) == x.rep(b) || (x.rep(a), x.rep(b)) in x.s.edges
  }

  /** What holds in every state: nothing counts as propagated that has not arrived at all
      successors. */
  ghost predicate Sound(c: Constraints, x: Live)
  {
    AllArrived(c.(geps := x.geps), x.s) && Represented(x)
  }

  // ---------------------------------------------------------------- single steps

  lemma LoadSound(c: Constraints, x: Live, m: NodeID, pts: set<NodeID>)
    requires AllArrived(c, x.s)
    ensures AllArrived(c, Receive(x.s, m, pts))
  {
    var t := Receive(x.s, m, pts);
    assert forall n :: Get(x.s.pts, n) <= Get(t.pts, n);
  }

  lemma WireSound(c: Constraints, s: State, a: NodeID, b: NodeID)
    requires AllArrived(c, s)
    ensures AllArrived(c, AddEdge(s, a, b))
  {
    var t := AddEdge(s, a, b);
    forall e | e in c.geps
      ensures Fields(c, Get(t.propa, e.src), e.offset) <= Get(t.pts, e.dst)
    {
      assert Get(t.propa, e.src) <= Get(s.propa, e.src);
      assert Fields(c, Get(t.propa, e.src), e.offset) <= Fields(c, Get(s.propa, e.src), e.offset);
    }
  }

  lemma SendSound(c: Constraints, s: State, t: State, n: NodeID)
    requires AllArrived(c, s) && Sent(c, s, t, n)
    ensures AllArrived(c, t)
  {
    var all := Get(s.pts, n);
    forall m
      ensures Get(s.pts, m) + Carried(c, s.edges, c.geps, n, all, m) == Get(t.pts, m)
    {
      DifferenceIsEnough(c, s, n, m);
      assert Get(t.pts, m) == Get(Declare(s, n).pts, m)
                              + Carried(c, s.edges, c.geps, n, Get(s.pts, n) - Get(s.propa, n), m);
    }
    forall a, b | (a, b) in t.edges
      ensures Get(t.propa, a) <= Get(t.pts, b)
    {
      assert Get(s.pts, b) + Carried(c, s.edges, c.geps, n, all, b) == Get(t.pts, b);
      assert a != n ==> Get(s.propa, a) <= Get(s.pts, b);
    }
    forall e | e in c.geps
      ensures Fields(c, Get(t.propa, e.src), e.offset) <= Get(t.pts, e.dst)
    {
      assert Get(s.pts, e.dst) + Carried(c, s.edges, c.geps, n, all, e.dst) == Get(t.pts, e.dst);
      if e.src == n {
        assert Fields(c, all, e.offset) <= Carried(c, s.edges, c.geps, n, all, e.dst);
      }
    }
    forall a
      ensures Get(t.propa, a) <= Get(t.pts, a)
    {
      assert Get(s.pts, a) + Carried(c, s.edges, c.geps, n, all, a) == Get(t.pts, a);
    }
  }

  lemma MergedSets(s: State, node: NodeID, rep: NodeID)
    requires node != rep
    ensures var t := Merged(s, node, rep);
            && Get(t.pts, rep) == Get(s.pts, rep) + Get(s.pts, node)
            && Get(t.propa, rep) == Get(s.propa, rep) * Get(s.propa, node)
            && Get(t.pts, node) == {} && Get(t.propa, node) == {}
            && (forall a :: a != rep && a != node ==> Get(t.pts, a) == Get(s.pts, a))
            && (forall a :: a != rep && a != node ==> Get(t.propa, a) == Get(s.propa, a))
  {
  }

  /** The representative has propagated at most what the merged node has, and its set holds
      all that the merged node's held. */
  lemma MergedBounds(s: State, node: NodeID, rep: NodeID, n: NodeID)
    requires node != rep
    ensures Get(Merged(s, node, rep).propa, Target(n, node, rep)) <= Get(s.propa, n)
    ensures Get(s.pts, n) <= Get(Merged(s, node, rep).pts, Target(n, node, rep))
  {
    MergedSets(s, node, rep);
  }

  /** The edge that a field edge after the merge stems from. */
  lemma Origin(geps: set<GepEdge>, after: set<GepEdge>, node: NodeID, rep: NodeID, e: GepEdge) returns (f: GepEdge)
    requires GepsMoved(geps, after, node, rep) && e in after
    ensures f in geps && !Inner(f.src, f.dst, node, rep) && Moved(f, node, rep) == e
  {
    assert HasOrigin(geps, node, rep, e);
    f :| f in geps && !Inner(f.src, f.dst, node, rep) && Moved(f, node, rep) == e;
  }

  lemma FieldsMonotone(c: Constraints, pts: set<NodeID>, more: set<NodeID>, offset: nat)
    requires pts <= more
    ensures Fields(c, pts, offset) <= Fields(c, more, offset)
  {
  }

  lemma MergeSound(c: Constraints, s: State, node: NodeID, rep: NodeID, after: set<GepEdge>)
    requires node != rep && AllArrived(c, s) && GepsMoved(c.geps, after, node, rep)
    ensures AllArrived(c.(geps := after), Merged(s, node, rep))
  {
    var t := Merged(s, node, rep);
    forall a
      ensures Get(t.propa, a) <= Get(t.pts, a)
    {
      MergedSets(s, node, rep);
      assert Get(s.propa, a) <= Get(s.pts, a);
    }
    hide Merged, GepsMoved, Fields;
    MergedEdgesArrived(c, s, node, rep);
    forall e | e in after
      ensures Fields(c.(geps := after), Get(t.propa, e.src), e.offset) <= Get(t.pts, e.dst)
    {
      MergedGepArrived(c, s, node, rep, after, e);
    }
  }

  lemma MergedGepArrived(c: Constraints, s: State, node: NodeID, rep: NodeID, after: set<GepEdge>, e: GepEdge)
    requires node != rep && AllArrived(c, s) && GepsMoved(c.geps, after, node, rep) && e in after
    ensures Fields(c.(geps := after), Get(Merged(s, node, rep).propa, e.src), e.offset)
            <= Get(Merged(s, node, rep).pts, e.dst)
  {
    hide Merged, GepsMoved;
    var f := Origin(c.geps, after, node, rep, e);
    MergedBounds(s, node, rep, f.src);
    MergedBounds(s, node, rep, f.dst);
    FieldsMonotone(c, Get(Merged(s, node, rep).propa, e.src), Get(s.propa, f.src), f.offset);
    assert Fields(c, Get(s.propa, f.src), f.offset) <= Get(s.pts, f.dst);
  }

  lemma MergedEdgesArrived(c: Constraints, s: State, node: NodeID, rep: NodeID)
    requires node != rep && AllArrived(c, s)
    ensures var t := Merged(s, node, rep);
            forall a, b {:trigger (a, b) in t.edges} :: (a, b) in t.edges ==> Get(t.propa, a) <= Get(t.pts, b)
  {
    var t := Merged(s, node, rep);
    forall a, b | (a, b) in t.edges
      ensures Get(t.propa, a) <= Get(t.pts, b)
    {
      var e :| e in s.edges && !Inner(e.0, e.1, node, rep)
               && a == Target(e.0, node, rep) && b == Target(e.1, node, rep);
      var (from, to) := e;
      assert (from, to) in s.edges;
      MergedBounds(s, node, rep, from);
      MergedBounds(s, node, rep, to);
      assert Get(s.propa, from) <= Get(s.pts, to);
    }
  }

  lemma MergeRepresented(c: Constraints, x: Live, y: Live, node: NodeID, into: NodeID)
    requires Represented(x) && Next(c, x, Merge(node, into), y)
    ensures Represented(y)
  {
    forall a, b | (a, b) in y.asked
      ensures y.rep(a) == y.rep(b) || (y.rep(a), y.rep(b)) in y.s.edges
    {
      var p, q := x.rep(a), x.rep(b);
      assert y.rep(a) == Target(p, node, into) && y.rep(b) == Target(q, node, into);
      if p != q {
        var e := (p, q);
        assert e in x.s.edges;
        assert Inner(e.0, e.1, node, into) || (Target(e.0, node, into), Target(e.1, node, into)) in y.s.edges;
      }
    }
  }

  lemma NextSound(c: Constraints, x: Live, step: Step, y: Live)
    requires Sound(c, x) && Next(c, x, step, y)
    ensures Sound(c, y)
  {
    var d := c.(geps := x.geps);
    hide AllArrived;
    match step
    case Load(o, p) => LoadSound(d, x, x.rep(p), {o});
    case Wire(a, b) => WireSound(d, x.s, x.rep(a), x.rep(b));
    case Send(n) => SendSound(d, x.s, y.s, n);
    case Merge(node, into) =>
      MergeSound(d, x.s, node, into, y.geps);
      assert d.(geps := y.geps) == c.(geps := y.geps);
      MergeRepresented(c, x, y, node, into);
  }

  // ---------------------------------------------------------------- whole runs

  /** Loading, adding edges, sending differences and merging, in any order: in every state,
      what counts as propagated has arrived, along copy and field edges. */
  lemma {:induction false} RunSound(c: Constraints, states: seq<Live>, steps: seq<Step>, i: nat)
    requires Run(c, states, steps) && Sound(c, states[0]) && i < |states|
    ensures Sound(c, states[i])
  {
    if i > 0 {
      RunSound(c, states, steps, i - 1);
      NextSound(c, states[i - 1], steps[i - 1], states[i - 1 + 1]);
    }
  }

  /** No node has anything left to send. */
  ghost predicate Quiescent(x: Live)
  {
    forall n {:trigger Get(x.s.pts, n)} :: Get(x.s.pts, n) <= Get(x.s.propa, n)
  }

  /** When the differences are empty, the whole sets have been propagated: along every field
      edge, and for every copy constraint ever added, whatever was merged in between. */
  lemma QuietIsPropagated(c: Constraints, states: seq<Live>, steps: seq<Step>)
    requires Run(c, states, steps) && Sound(c, states[0]) && Quiescent(states[|steps|])
    ensures var x := states[|steps|];
            && (forall a, b {:trigger (a, b) in x.s.edges} :: (a, b) in x.s.edges ==>
                  Get(x.s.pts, a) <= Get(x.s.pts, b))
            && (forall a, b {:trigger (a, b) in x.asked} :: (a, b) in x.asked ==>
                  Get(x.s.pts, x.rep(a)) <= Get(x.s.pts, x.rep(b)))
            && (forall e :: e in x.geps ==> Fields(c, Get(x.s.pts, e.src), e.offset) <= Get(x.s.pts, e.dst))
  {
    RunSound(c, states, steps, |steps|);
    var x := states[|steps|];
    var d := c.(geps := x.geps);
    forall e | e in x.geps
      ensures Fields(c, Get(x.s.pts, e.src), e.offset) <= Get(x.s.pts, e.dst)
    {
      assert e in d.geps && Fields(d, Get(x.s.propa, e.src), e.offset) <= Get(x.s.pts, e.dst);
      assert Get(x.s.pts, e.src) == Get(x.s.propa, e.src);
    }
  }

  // ---------------------------------------------------------------- field edges and merging

  /** Field edges are never doubled by merging. */
  lemma UniqueEndsKept(geps: set<GepEdge>, after: set<GepEdge>, node: NodeID, rep: NodeID)
    requires UniqueEnds(geps) && GepsMoved(geps, after, node, rep)
    ensures UniqueEnds(after)
  {
    forall e, f | e in after && f in after && e.src == f.src && e.dst == f.dst
      ensures e == f
    {
      assert SameEnds(e, f);
    }
  }

  /** Two field edges that a merge would give the same ends, at different offsets, neither of
      them an edge of `node` to itself or between the two. */
  ghost predicate Clash(geps: set<GepEdge>, node: NodeID, rep: NodeID)
  {
    exists e, f ::
      && e in geps && f in geps && e.offset != f.offset
      && (e.src == f.src || {e.src, f.src} == {node, rep}) && (e.dst == f.dst || {e.dst, f.dst} == {node, rep})
      && !(node in {e.src, e.dst} && {e.src, e.dst} <= {node, rep})
      && !(node in {f.src, f.dst} && {f.src, f.dst} <= {node, rep})
  }

  lemma ClashMeans(geps: set<GepEdge>, node: NodeID, rep: NodeID)
    requires node != rep
    ensures Clash(geps, node, rep) <==>
            exists e, f :: e in geps && f in geps && !Inner(e.src, e.dst, node, rep)
                           && !Inner(f.src, f.dst, node, rep)
                           && SameEnds(Moved(e, node, rep), Moved(f, node, rep)) && e.offset != f.offset
  {
    forall a: NodeID, b: NodeID
      ensures Target(a, node, rep) == Target(b, node, rep) <==> a == b || {a, b} == {node, rep}
    {
      TargetsMeet(a, b, node, rep);
    }
  }

  lemma TargetsMeet(a: NodeID, b: NodeID, node: NodeID, rep: NodeID)
    requires node != rep
    ensures Target(a, node, rep) == Target(b, node, rep) <==> a == b || {a, b} == {node, rep}
  {
    if {a, b} == {node, rep} {
      assert a in {node, rep} && b in {node, rep} && node in {a, b} && rep in {a, b};
    }
  }

  /** An edge is kept unless another is found between its new ends. */
  lemma MovedOrRefused(geps: set<GepEdge>, after: set<GepEdge>, node: NodeID, rep: NodeID,
                       e: GepEdge) returns (g: GepEdge)
    requires GepsMoved(geps, after, node, rep) && e in geps && !Inner(e.src, e.dst, node, rep)
    ensures g in geps && !Inner(g.src, g.dst, node, rep) && SameEnds(Moved(g, node, rep), Moved(e, node, rep))
    ensures Moved(g, node, rep) in after
  {
    assert Joined(after, Moved(e, node, rep));
    var f :| f in after && SameEnds(f, Moved(e, node, rep));
    g := Origin(geps, after, node, rep, f);
  }

  /** A merge keeps the fields taken along all outer edges if and only if no two of them
      come to lie between the same nodes at different offsets. */
  lemma MergeKeepsFields(geps: set<GepEdge>, after: set<GepEdge>, node: NodeID, rep: NodeID)
    requires UniqueEnds(geps) && GepsMoved(geps, after, node, rep) && node != rep
    ensures (forall e :: e in geps && !(node in {e.src, e.dst} && {e.src, e.dst} <= {node, rep}) ==>
               GepEdge(if e.src == node then rep else e.src, if e.dst == node then rep else e.dst, e.offset) in after)
            <==> !Clash(geps, node, rep)
  {
    MovedKept(geps, after, node, rep);
    OuterMeans(node, rep);
    hide Inner, Moved, GepsMoved, UniqueEnds, Clash;
  }

  lemma OuterMeans(node: NodeID, rep: NodeID)
    ensures forall e: GepEdge :: Inner(e.src, e.dst, node, rep) <==>
              node in {e.src, e.dst} && {e.src, e.dst} <= {node, rep}
    ensures forall e: GepEdge :: Moved(e, node, rep) ==
              GepEdge(if e.src == node then rep else e.src, if e.dst == node then rep else e.dst, e.offset)
  {
  }

  lemma MovedKept(geps: set<GepEdge>, after: set<GepEdge>, node: NodeID, rep: NodeID)
    requires UniqueEnds(geps) && GepsMoved(geps, after, node, rep) && node != rep
    ensures (forall e :: e in geps && !Inner(e.src, e.dst, node, rep) ==> Moved(e, node, rep) in after) <==>
            !Clash(geps, node, rep)
  {
    UniqueEndsKept(geps, after, node, rep);
    ClashMeans(geps, node, rep);
    hide GepsMoved, Inner, Clash;
    if !Clash(geps, node, rep) {
      forall e | e in geps && !Inner(e.src, e.dst, node, rep)
        ensures Moved(e, node, rep) in after
      {
        var g := MovedOrRefused(geps, after, node, rep, e);
        assert g.offset == e.offset;
        assert Moved(g, node, rep) == Moved(e, node, rep);
      }
    } else {
      var e, f :| e in geps && f in geps && !Inner(e.src, e.dst, node, rep) && !Inner(f.src, f.dst, node, rep)
                  && SameEnds(Moved(e, node, rep), Moved(f, node, rep)) && e.offset != f.offset;
      assert Moved(e, node, rep) !in after || Moved(f, node, rep) !in after;
    }
  }

  /** `q = &p->f1; r = &p->f2; q = r; r = q`: merging the cycle loses one of the fields. */
  lemma FieldIsLost(after: set<GepEdge>)
    requires GepsMoved({GepEdge(0, 1, 1), GepEdge(0, 2, 2)}, after, 2, 1)
    ensures after == {GepEdge(0, 1, 1)}
  {
    var e, f := GepEdge(0, 1, 1), GepEdge(0, 2, 2);
    var geps := {e, f};
    UniqueEndsKept(geps, after, 2, 1);
    assert e in geps && e in after;
    hide GepsMoved;
    forall g | g in after
      ensures g == e
    {
      var h := Origin(geps, after, 2, 1, g);
      assert SameEnds(e, g);
    }
  }

  // ---------------------------------------------------------------- merged runs are exact

  ghost predicate Leads(edges: Edges, path: seq<NodeID>)
  {
    |path| > 0 && forall i :: 0 <= i < |path| - 1 ==> (path[i], path[i + 1]) in edges
  }

  ghost predicate OnCycle(edges: Edges, a: NodeID, b: NodeID)
  {
    && (exists path :: Leads(edges, path) && path[0] == a && path[|path| - 1] == b)
    && (exists path :: Leads(edges, path) && path[0] == b && path[|path| - 1] == a)
  }

  /** Steps a solver of the constraints takes: it loads address constraints, adds copy
      constraints that are given or called for by a load or store (of whatever nodes a
      representative stands for), and merges nodes of a copy cycle. */
  ghost predicate Licensed(c: Constraints, x: Live, step: Step)
  {
    match step
    case Load(o, p) => (o, p) in c.addrs
    case Wire(a, b) => (a, b) in c.copies || exists n, o :: o in Get(x.s.pts, x.rep(n)) && (a, b) in Derived(c, n, o)
    case Send(n) => true
    case Merge(node, into) => OnCycle(x.s.edges, node, into)
  }

  ghost predicate LicensedRun(c: Constraints, states: seq<Live>, steps: seq<Step>)
  {
    Run(c, states, steps) && forall i :: 0 <= i < |steps| ==> Licensed(c, states[i], steps[i])
  }

  /** Before the first step: nothing is loaded or merged. */
  ghost predicate Initial(c: Constraints, x: Live)
  {
    && (forall n :: Get(x.s.pts, n) == {} && Get(x.s.propa, n) == {})
    && x.s.edges == {} && x.geps == c.geps && x.asked == {} && forall n :: x.rep(n) == n
  }

  /** Everything in `x` follows from the constraints: `sol` is any solution. */
  ghost predicate Implied(x: Live, fields: Constraints, sol: PtsMap)
  {
    && (forall n {:trigger Get(x.s.pts, n)} :: Get(x.s.pts, n) <= Get(sol, n))
    && (forall a, b {:trigger (a, b) in x.s.edges} :: (a, b) in x.s.edges ==> Get(sol, a) <= Get(sol, b))
    && (forall e :: e in x.geps ==> Fields(fields, Get(sol, e.src), e.offset) <= Get(sol, e.dst))
    && (forall n {:trigger x.rep(n)} :: Get(sol, x.rep(n)) == Get(sol, n))
  }

  lemma {:induction false} PathIncludes(edges: Edges, sol: PtsMap, path: seq<NodeID>)
    requires Leads(edges, path)
    requires forall a, b {:trigger (a, b) in edges} :: (a, b) in edges ==> Get(sol, a) <= Get(sol, b)
    ensures Get(sol, path[0]) <= Get(sol, path[|path| - 1])
  {
    if |path| > 1 {
      var rest := path[1..];
      assert (path[0], path[0 + 1]) in edges;
      assert Leads(edges, rest) by {
        forall i | 0 <= i < |rest| - 1
          ensures (rest[i], rest[i + 1]) in edges
        {
          assert (path[i + 1], path[i + 1 + 1]) in edges;
        }
      }
      PathIncludes(edges, sol, rest);
    }
  }

  /** Nodes of a cycle have the same set in every solution. */
  lemma CycleAgrees(edges: Edges, sol: PtsMap, a: NodeID, b: NodeID)
    requires OnCycle(edges, a, b)
    requires forall a, b {:trigger (a, b) in edges} :: (a, b) in edges ==> Get(sol, a) <= Get(sol, b)
    ensures Get(sol, a) == Get(sol, b)
  {
    var there :| Leads(edges, there) && there[0] == a && there[|there| - 1] == b;
    var back :| Leads(edges, back) && back[0] == b && back[|back| - 1] == a;
    PathIncludes(edges, sol, there);
    PathIncludes(edges, sol, back);
  }

  lemma MergeImplied(c: Constraints, x: Live, y: Live, node: NodeID, into: NodeID, sol: PtsMap)
    requires Implied(x, c, sol) && Next(c, x, Merge(node, into), y) && OnCycle(x.s.edges, node, into)
    ensures Implied(y, c, sol)
  {
    CycleAgrees(x.s.edges, sol, node, into);
    MergedSets(x.s, node, into);
    assert forall n :: Get(sol, Target(n, node, into)) == Get(sol, n);
    hide GepsMoved, OnCycle, Fields;
    forall a, b | (a, b) in y.s.edges
      ensures Get(sol, a) <= Get(sol, b)
    {
      var e :| e in x.s.edges && !Inner(e.0, e.1, node, into)
               && a == Target(e.0, node, into) && b == Target(e.1, node, into);
      assert (e.0, e.1) in x.s.edges;
    }
    forall e | e in y.geps
      ensures Fields(c, Get(sol, e.src), e.offset) <= Get(sol, e.dst)
    {
      var f := Origin(x.geps, y.geps, node, into, e);
      assert Get(sol, e.src) == Get(sol, f.src) && Get(sol, e.dst) == Get(sol, f.dst);
    }
  }

  lemma WireImplied(c: Constraints, x: Live, a: NodeID, b: NodeID, sol: PtsMap)
    requires Solution(c, sol) && Implied(x, c, sol) && Licensed(c, x, Wire(a, b))
    ensures Get(sol, x.rep(a)) <= Get(sol, x.rep(b))
  {
    if (a, b) !in c.copies {
      var n, o :| o in Get(x.s.pts, x.rep(n)) && (a, b) in Derived(c, n, o);
      assert o in Get(sol, n);
    }
    assert Get(sol, a) <= Get(sol, b);
  }

  lemma SendImplied(c: Constraints, x: Live, y: Live, n: NodeID, sol: PtsMap)
    requires Implied(x, c, sol) && Next(c, x, Send(n), y)
    ensures Implied(y, c, sol)
  {
    var diff := Get(x.s.pts, n) - Get(x.s.propa, n);
    var d := c.(geps := x.geps);
    forall m: NodeID
      ensures Get(y.s.pts, m) <= Get(sol, m)
    {
      assert Get(y.s.pts, m) == Get(Declare(x.s, n).pts, m) + Carried(d, x.s.edges, d.geps, n, diff, m);
      forall o: NodeID | o in Carried(d, x.s.edges, d.geps, n, diff, m)
        ensures o in Get(sol, m)
      {
        if !((n, m) in x.s.edges && o in diff) {
          var e :| e in x.geps && e.src == n && e.dst == m && o in Fields(d, diff, e.offset);
          assert o in Fields(c, Get(sol, e.src), e.offset);
        }
      }
    }
  }

  lemma NextImplied(c: Constraints, x: Live, step: Step, y: Live, sol: PtsMap)
    requires Solution(c, sol) && Implied(x, c, sol) && Next(c, x, step, y) && Licensed(c, x, step)
    ensures Implied(y, c, sol)
  {
    match step
    case Load(o, p) =>
      assert o in Get(sol, p) && Get(sol, p) == Get(sol, x.rep(p));
      forall n
        ensures Get(y.s.pts, n) <= Get(sol, n)
      {
        assert Get(y.s.pts, n) == Get(x.s.pts, n) + if n == x.rep(p) then {o} else {};
      }
    case Wire(a, b) =>
      WireImplied(c, x, a, b, sol);
    case Send(n) =>
      SendImplied(c, x, y, n, sol);
    case Merge(node, into) =>
      MergeImplied(c, x, y, node, into, sol);
  }

  lemma {:induction false} RunImplied(c: Constraints, states: seq<Live>, steps: seq<Step>, i: nat, sol: PtsMap)
    requires LicensedRun(c, states, steps) && Initial(c, states[0]) && i < |states| && Solution(c, sol)
    ensures Implied(states[i], c, sol)
  {
    if i == 0 {
      assert forall e :: e in c.geps ==> Fields(c, Get(sol, e.src), e.offset) <= Get(sol, e.dst);
    } else {
      RunImplied(c, states, steps, i - 1, sol);
      NextImplied(c, states[i - 1], steps[i - 1], states[i - 1 + 1], sol);
    }
  }

  lemma InitialSound(c: Constraints, x: Live)
    requires Initial(c, x)
    ensures Sound(c, x)
  {
    forall e | e in x.geps
      ensures Fields(c.(geps := x.geps), Get(x.s.propa, e.src), e.offset) <= Get(x.s.pts, e.dst)
    {
      assert Get(x.s.propa, e.src) == {};
    }
  }

  /** The state in which solving starts, after the address constraints were loaded: `Sound`
      as well. */
  lemma LoadedIsSound(c: Constraints, x: Live)
    requires x.s.propa == map[] && x.s.edges == c.copies && x.geps == c.geps && x.asked == c.copies
    requires forall n :: x.rep(n) == n
    ensures Sound(c, x)
  {
    forall e | e in x.geps
      ensures Fields(c.(geps := x.geps), Get(x.s.propa, e.src), e.offset) <= Get(x.s.pts, e.dst)
    {
      assert Get(x.s.propa, e.src) == {};
    }
  }

  /** Every field constraint is represented, at its own offset. */
  ghost predicate FieldsKept(c: Constraints, x: Live)
  {
    forall e :: e in c.geps ==> GepEdge(x.rep(e.src), x.rep(e.dst), e.offset) in x.geps
  }

  /** No merge of the run lost a field edge: none joined its two nodes, and no two clashed. */
  ghost predicate NoFieldLost(states: seq<Live>, steps: seq<Step>)
    requires |states| == |steps| + 1
  {
    forall i {:trigger steps[i]} :: 0 <= i < |steps| && steps[i].Merge? ==>
      && !Clash(states[i].geps, steps[i].node, steps[i].into)
      && forall e :: e in states[i].geps ==>
           !(steps[i].node in {e.src, e.dst} && {e.src, e.dst} <= {steps[i].node, steps[i].into})
  }

  lemma {:induction false} RunKeepsFields(c: Constraints, states: seq<Live>, steps: seq<Step>, i: nat)
    requires Run(c, states, steps) && Initial(c, states[0]) && UniqueEnds(c.geps) && NoFieldLost(states, steps)
    requires i < |states|
    ensures FieldsKept(c, states[i]) && UniqueEnds(states[i].geps)
  {
    if i > 0 {
      RunKeepsFields(c, states, steps, i - 1);
      var x, step, y := states[i - 1], steps[i - 1], states[i - 1 + 1];
      assert Next(c, x, step, y);
      if step.Merge? {
        MergeKeepsFieldsHere(c, x, y, step.node, step.into);
      }
    }
  }

  lemma MergeKeepsFieldsHere(c: Constraints, x: Live, y: Live, node: NodeID, into: NodeID)
    requires Next(c, x, Merge(node, into), y) && FieldsKept(c, x) && UniqueEnds(x.geps)
    requires !Clash(x.geps, node, into) && forall e :: e in x.geps ==>
               !(node in {e.src, e.dst} && {e.src, e.dst} <= {node, into})
    ensures FieldsKept(c, y) && UniqueEnds(y.geps)
  {
    UniqueEndsKept(x.geps, y.geps, node, into);
    MovedKept(x.geps, y.geps, node, into);
    assert forall e :: e in x.geps ==> !Inner(e.src, e.dst, node, into) by {
      OuterMeans(node, into);
    }
    hide GepsMoved, UniqueEnds, Clash, Inner, Merged;
    forall e | e in c.geps
      ensures GepEdge(y.rep(e.src), y.rep(e.dst), e.offset) in y.geps
    {
      var f := GepEdge(x.rep(e.src), x.rep(e.dst), e.offset);
      assert f in x.geps && Moved(f, node, into) in y.geps;
    }
  }

  /** Nothing is left to load or to add. */
  ghost predicate Complete(c: Constraints, x: Live)
  {
    && (forall o, p {:trigger (o, p) in c.addrs} :: (o, p) in c.addrs ==> o in Get(x.s.pts, x.rep(p)))
    && c.copies <= x.asked
    && (forall n, o, a, b {:trigger o in Get(x.s.pts, x.rep(n)), (a, b) in Derived(c, n, o)} ::
          o in Get(x.s.pts, x.rep(n)) && (a, b) in Derived(c, n, o) ==> (a, b) in x.asked)
  }

  /** The sets read through the representatives. */
  ghost predicate ReadOff(x: Live, pts: PtsMap)
  {
    forall n {:trigger Get(pts, n)} :: Get(pts, n) == Get(x.s.pts, x.rep(n))
  }

  /** A run that merges only nodes of copy cycles, and ends with nothing left to load, add or
      send, has computed the least solution, read through the representatives, provided no
      merge lost a field edge. */
  lemma MergedRunIsLeast(c: Constraints, states: seq<Live>, steps: seq<Step>, pts: PtsMap)
    requires LicensedRun(c, states, steps) && Initial(c, states[0]) && UniqueEnds(c.geps)
    requires NoFieldLost(states, steps)
    requires Quiescent(states[|steps|]) && Complete(c, states[|steps|]) && ReadOff(states[|steps|], pts)
    ensures Solution(c, pts)
    ensures forall sol :: Solution(c, sol) ==> Within(pts, sol)
  {
    InitialSound(c, states[0]);
    QuietIsPropagated(c, states, steps);
    RunKeepsFields(c, states, steps, |steps|);
    forall sol | Solution(c, sol)
      ensures Within(pts, sol)
    {
      RunImplied(c, states, steps, |steps|, sol);
      ReadWithin(c, states[|steps|], pts, sol);
    }
    hide LicensedRun, Run, Initial, NoFieldLost;
    ReadSolves(c, states[|steps|], pts);
  }

  lemma ReadWithin(c: Constraints, x: Live, pts: PtsMap, sol: PtsMap)
    requires Implied(x, c, sol) && ReadOff(x, pts)
    ensures Within(pts, sol)
  {
    forall n
      ensures Get(pts, n) <= Get(sol, n)
    {
      assert Get(x.s.pts, x.rep(n)) <= Get(sol, x.rep(n)) == Get(sol, n);
    }
  }

  lemma ReadSolves(c: Constraints, x: Live, pts: PtsMap)
    requires Complete(c, x) && ReadOff(x, pts) && FieldsKept(c, x)
    requires forall a, b {:trigger (a, b) in x.asked} :: (a, b) in x.asked ==>
               Get(x.s.pts, x.rep(a)) <= Get(x.s.pts, x.rep(b))
    requires forall e :: e in x.geps ==> Fields(c, Get(x.s.pts, e.src), e.offset) <= Get(x.s.pts, e.dst)
    ensures Solution(c, pts)
  {
    DerivedMeans(c, pts);
    FieldsMean(c, pts);
    hide Derived, Fields;
    forall a, b | (a, b) in x.asked
      ensures Get(pts, a) <= Get(pts, b)
    {
    }
    forall n, o, a, b | o in Get(pts, n) && (a, b) in Derived(c, n, o)
      ensures Get(pts, a) <= Get(pts, b)
    {
      assert o in Get(x.s.pts, x.rep(n));
      assert (a, b) in x.asked;
    }
    forall e | e in c.geps
      ensures Fields(c, Get(pts, e.src), e.offset) <= Get(pts, e.dst)
    {
      var f := GepEdge(x.rep(e.src), x.rep(e.dst), e.offset);
      assert f in x.geps && Get(pts, e.src) == Get(x.s.pts, f.src) && Get(pts, e.dst) == Get(x.s.pts, f.dst);
    }
  }
}
