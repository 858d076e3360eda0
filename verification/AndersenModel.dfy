/**
 Inclusion-based points-to constraints, and the invariants under which propagating only
 differences, over copy edges that appear while solving, loses nothing.
 */
module AndersenModel {
  import opened PointsToStores

  datatype GepEdge = GepEdge(src: NodeID, dst: NodeID, offset: nat)

  /** The constraint graph: `(o, p)` in addrs for p = &o, `(s, d)` in copies for d = s,
      loads for d = *s and stores for *d = s. */
  datatype Constraints = Constraints(
    nodes: set<NodeID>,
    addrs: set<(NodeID, NodeID)>,
    copies: set<(NodeID, NodeID)>,
    loads: set<(NodeID, NodeID)>,
    stores: set<(NodeID, NodeID)>,
    geps: set<GepEdge>,
    inert: set<NodeID>,                     // constant or non-pointer objects
    field: (NodeID, nat) -> NodeID)         // field object of an object at an offset

  ghost predicate WellFormed(c: Constraints)
  {
    && (forall a, b {:trigger (a, b) in c.addrs} :: (a, b) in c.addrs ==> a in c.nodes && b in c.nodes)
    && (forall a, b {:trigger (a, b) in c.copies} :: (a, b) in c.copies ==> a in c.nodes && b in c.nodes)
    && (forall a, b {:trigger (a, b) in c.loads} :: (a, b) in c.loads ==> a in c.nodes && b in c.nodes)
    && (forall a, b {:trigger (a, b) in c.stores} :: (a, b) in c.stores ==> a in c.nodes && b in c.nodes)
    && (forall e :: e in c.geps ==> e.src in c.nodes && e.dst in c.nodes)
    && (forall o, n: nat :: o in c.nodes ==> c.field(o, n) in c.nodes)
  }

  function Fields(c: Constraints, pts: set<NodeID>, offset: nat): set<NodeID>
  {
    set o | o in pts :: c.field(o, offset)
  }

  type Edges = set<(NodeID, NodeID)>

  /** Copy edges that the loads and stores of `n` call for when it points to `o`. */
  function Derived(c: Constraints, n: NodeID, o: NodeID): Edges
  {
    if o in c.inert then {}
    else (set e | e in c.loads && e.0 == n :: (o, e.1)) + (set e | e in c.stores && e.1 == n :: (e.0, o))
  }

  /** All constraints hold of the sets `pts`: a load `d = *s` and a store `*d = s` copy from
      and to every object the dereferenced pointer may hold, inert ones aside. */
  ghost predicate Solution(c: Constraints, pts: PtsMap)
  {
    && (forall o, p {:trigger (o, p) in c.addrs} :: (o, p) in c.addrs ==> o in Get(pts, p))
    && (forall a, b {:trigger (a, b) in c.copies} :: (a, b) in c.copies ==> Get(pts, a) <= Get(pts, b))
    && (forall s: NodeID, d: NodeID, o: NodeID {:trigger (s, d) in c.loads, o in Get(pts, s)} ::
          (s, d) in c.loads && o in Get(pts, s) && o !in c.inert ==> Get(pts, o) <= Get(pts, d))
    && (forall s: NodeID, d: NodeID, o: NodeID {:trigger (s, d) in c.stores, o in Get(pts, d)} ::
          (s, d) in c.stores && o in Get(pts, d) && o !in c.inert ==> Get(pts, s) <= Get(pts, o))
    && (forall e: GepEdge, o: NodeID {:trigger e in c.geps, o in Get(pts, e.src)} ::
          e in c.geps && o in Get(pts, e.src) ==> c.field(o, e.offset) in Get(pts, e.dst))
  }

  /** The copy edges that loads and stores call for say what these say. */
  lemma DerivedMeans(c: Constraints, pts: PtsMap)
    ensures (forall n: NodeID, o: NodeID, a: NodeID, b: NodeID
               {:trigger o in Get(pts, n), (a, b) in Derived(c, n, o)} ::
               o in Get(pts, n) && (a, b) in Derived(c, n, o) ==> Get(pts, a) <= Get(pts, b)) <==>
            && (forall s: NodeID, d: NodeID, o: NodeID {:trigger (s, d) in c.loads, o in Get(pts, s)} ::
                  (s, d) in c.loads && o in Get(pts, s) && o !in c.inert ==> Get(pts, o) <= Get(pts, d))
            && (forall s: NodeID, d: NodeID, o: NodeID {:trigger (s, d) in c.stores, o in Get(pts, d)} ::
                  (s, d) in c.stores && o in Get(pts, d) && o !in c.inert ==> Get(pts, s) <= Get(pts, o))
  {
    forall s: NodeID, d: NodeID, o: NodeID
      ensures (s, d) in c.loads && o !in c.inert ==> (o, d) in Derived(c, s, o)
      ensures (s, d) in c.stores && o !in c.inert ==> (s, o) in Derived(c, d, o)
    {
    }
    forall n: NodeID, o: NodeID, a: NodeID, b: NodeID | (a, b) in Derived(c, n, o)
      ensures o !in c.inert && ((a == o && (n, b) in c.loads) || (b == o && (a, n) in c.stores))
    {
    }
    hide Get, Derived;
  }

  lemma FieldsMean(c: Constraints, pts: PtsMap)
    ensures (forall e :: e in c.geps ==> Fields(c, Get(pts, e.src), e.offset) <= Get(pts, e.dst)) <==>
            forall e: GepEdge, o: NodeID {:trigger e in c.geps, o in Get(pts, e.src)} ::
              e in c.geps && o in Get(pts, e.src) ==> c.field(o, e.offset) in Get(pts, e.dst)
  {
    forall e: GepEdge, o: NodeID | o in Get(pts, e.src)
      ensures c.field(o, e.offset) in Fields(c, Get(pts, e.src), e.offset)
    {
    }
  }

  lemma DerivedHolds(c: Constraints, pts: PtsMap, n: NodeID, o: NodeID, a: NodeID, b: NodeID)
    requires Solution(c, pts) && o in Get(pts, n) && (a, b) in Derived(c, n, o)
    ensures Get(pts, a) <= Get(pts, b)
  {
    DerivedMeans(c, pts);
  }

  lemma FieldsHold(c: Constraints, pts: PtsMap, e: GepEdge)
    requires Solution(c, pts) && e in c.geps
    ensures Fields(c, Get(pts, e.src), e.offset) <= Get(pts, e.dst)
  {
    FieldsMean(c, pts);
  }

  ghost predicate Within(a: PtsMap, b: PtsMap)
  {
    forall n :: Get(a, n) <= Get(b, n)
  }

  /** The solver's state: points-to sets, propagated sets, copy edges so far, worklist. */
  datatype State = State(pts: PtsMap, propa: PtsMap, edges: Edges, work: set<NodeID>)

  /** Everything stays inside the graph. */
  ghost predicate Typed(c: Constraints, s: State)
  {
    && WellFormed(c)
    && (forall n :: Get(s.pts, n) <= c.nodes)
    && (forall n :: Get(s.pts, n) != {} ==> n in c.nodes)
    && (forall a, b {:trigger (a, b) in s.edges} :: (a, b) in s.edges ==> a in c.nodes && b in c.nodes)
    && s.work <= c.nodes
    && c.copies <= s.edges
    && (forall o, p {:trigger (o, p) in c.addrs} :: (o, p) in c.addrs ==> o in Get(s.pts, p))
  }

  /** What counts as propagated by `n` has arrived at its successors, save that `diff` is
      still on its way along the edges `todo` and the field edges `gepTodo` of `n`. */
  ghost predicate Arrived(c: Constraints, s: State, n: NodeID, diff: set<NodeID>, todo: Edges, gepTodo: set<GepEdge>)
  {
    && (forall a :: Get(s.propa, a) <= Get(s.pts, a))
    && (forall a, b {:trigger (a, b) in s.edges} :: (a, b) in s.edges ==>
          Get(s.propa, a) - (if a == n && (a, b) in todo then diff else {}) <= Get(s.pts, b))
    && (forall e :: e in c.geps ==>
          Fields(c, Get(s.propa, e.src) - (if e.src == n && e in gepTodo then diff else {}), e.offset)
          <= Get(s.pts, e.dst))
  }

  ghost predicate AllArrived(c: Constraints, s: State)
  {
    && (forall a :: Get(s.propa, a) <= Get(s.pts, a))
    && (forall a, b {:trigger (a, b) in s.edges} :: (a, b) in s.edges ==> Get(s.propa, a) <= Get(s.pts, b))
    && (forall e :: e in c.geps ==> Fields(c, Get(s.propa, e.src), e.offset) <= Get(s.pts, e.dst))
  }

  /** The loads and stores of `n` have their copy edges for everything `n` points to; a node
      needs none to itself. */
  ghost predicate Wired(c: Constraints, s: State, n: NodeID)
  {
    forall o, a, b {:trigger o in Get(s.pts, n), (a, b) in Derived(c, n, o)} ::
      o in Get(s.pts, n) && (a, b) in Derived(c, n, o) && a != b ==> (a, b) in s.edges
  }

  /** Nodes that are neither waiting nor exempt have nothing left to do. */
  ghost predicate Done(c: Constraints, s: State, exempt: set<NodeID>)
  {
    forall n {:trigger Wired(c, s, n)} ::
      n in c.nodes && n !in s.work && n !in exempt ==> Get(s.pts, n) <= Get(s.propa, n) && Wired(c, s, n)
  }

  /** Nothing but consequences of the constraints was recorded. */
  ghost predicate Justified(c: Constraints, s: State)
  {
    forall sol {:trigger Solution(c, sol)} :: Solution(c, sol) ==>
      Within(s.pts, sol) && forall a, b {:trigger (a, b) in s.edges} :: (a, b) in s.edges ==> Get(sol, a) <= Get(sol, b)
  }

  ghost predicate Invariant(c: Constraints, s: State, exempt: set<NodeID>)
  {
    Typed(c, s) && AllArrived(c, s) && Done(c, s, exempt) && Justified(c, s)
  }

  // ---------------------------------------------------------------- the end of solving

  /** With the worklist empty the sets are the least solution: they satisfy every
      constraint in full, although only differences were ever propagated, and they lie
      within any other solution. */
  lemma DrainedIsLeast(c: Constraints, s: State)
    requires Invariant(c, s, {}) && s.work == {}
    ensures Solution(c, s.pts)
    ensures forall sol :: Solution(c, sol) ==> Within(s.pts, sol)
  {
    DerivedMeans(c, s.pts);
    FieldsMean(c, s.pts);
    forall a, b | (a, b) in s.edges
      ensures Get(s.pts, a) <= Get(s.pts, b)
    {
      assert Wired(c, s, a) && Get(s.pts, a) <= Get(s.propa, a) <= Get(s.pts, b);
    }
    forall n, o, a, b | o in Get(s.pts, n) && (a, b) in Derived(c, n, o)
      ensures Get(s.pts, a) <= Get(s.pts, b)
    {
      assert Wired(c, s, n) && (a != b ==> (a, b) in s.edges);
    }
    forall e | e in c.geps
      ensures Fields(c, Get(s.pts, e.src), e.offset) <= Get(s.pts, e.dst)
    {
      assert Wired(c, s, e.src);
      assert Get(s.propa, e.src) == Get(s.pts, e.src);
    }
  }

  // ---------------------------------------------------------------- steps

  /** A new copy edge restarts propagation at its source with whatever its target has not
      already passed on itself, instead of sending the source's whole set at once.  Edges
      from a node to itself are refused. */
  ghost function AddEdge(s: State, a: NodeID, b: NodeID): State
  {
    if (a, b) in s.edges || a == b then s
    else s.(edges := s.edges + {(a, b)}, propa := s.propa[a := Get(s.propa, a) * Get(s.propa, b)], work := s.work + {a})
  }

  lemma AddEdgeKeeps(c: Constraints, s: State, a: NodeID, b: NodeID, n: NodeID, o: NodeID)
    requires Invariant(c, s, {n}) && n in c.nodes && o in Get(s.pts, n)
    requires (a, b) in Derived(c, n, o)
    ensures Invariant(c, AddEdge(s, a, b), {n})
  {
    var t := AddEdge(s, a, b);
    if (a, b) !in s.edges && a != b {
      assert o in c.nodes;
      forall x, y | (x, y) in t.edges
        ensures Get(t.propa, x) <= Get(t.pts, y)
      {
      }
      forall e | e in c.geps
        ensures Fields(c, Get(t.propa, e.src), e.offset) <= Get(t.pts, e.dst)
      {
        assert Get(t.propa, e.src) <= Get(s.propa, e.src);
      }
      forall m | m in c.nodes && m !in t.work && m != n
        ensures Get(t.pts, m) <= Get(t.propa, m) && Wired(c, t, m)
      {
        assert Wired(c, s, m);
      }
      AddEdgeJustified(c, s, a, b, n, o);
    }
  }

  lemma AddEdgeJustified(c: Constraints, s: State, a: NodeID, b: NodeID, n: NodeID, o: NodeID)
    requires Justified(c, s) && o in Get(s.pts, n) && (a, b) in Derived(c, n, o)
    ensures Justified(c, AddEdge(s, a, b))
  {
    var t := AddEdge(s, a, b);
    forall sol | Solution(c, sol)
      ensures Within(t.pts, sol)
      ensures forall x, y {:trigger (x, y) in t.edges} :: (x, y) in t.edges ==> Get(sol, x) <= Get(sol, y)
    {
      assert Get(s.pts, n) <= Get(sol, n);
      assert o in Get(sol, n);
      DerivedHolds(c, sol, n, o, a, b);
    }
  }

  /** `n` declares its whole set propagated; `diff` is what it now has to send. */
  ghost function Declare(s: State, n: NodeID): State
  {
    s.(propa := s.propa[n := Get(s.pts, n)])
  }

  lemma DeclareKeeps(c: Constraints, s: State, n: NodeID, diff: set<NodeID>, todo: Edges)
    requires Invariant(c, s, {n}) && Wired(c, s, n)
    requires diff == Get(s.pts, n) - Get(s.propa, n)
    requires todo == set e | e in s.edges && e.0 == n
    ensures var t := Declare(s, n);
            Typed(c, t) && Done(c, t, {}) && Justified(c, t) && Arrived(c, t, n, diff, todo, c.geps)
    ensures diff == {} ==> AllArrived(c, Declare(s, n))
  {
    var t := Declare(s, n);
    forall m | m in c.nodes && m !in t.work
      ensures Get(t.pts, m) <= Get(t.propa, m) && Wired(c, t, m)
    {
      assert Wired(c, s, m);
    }
    forall x, y | (x, y) in t.edges
      ensures Get(t.propa, x) - (if x == n && (x, y) in todo then diff else {}) <= Get(t.pts, y)
    {
      if x == n {
        assert (x, y) in todo;
        assert Get(t.propa, x) - diff <= Get(s.propa, x);
      }
    }
    forall e | e in c.geps
      ensures Fields(c, Get(t.propa, e.src) - (if e.src == n && e in c.geps then diff else {}), e.offset)
              <= Get(t.pts, e.dst)
    {
      if e.src == n {
        assert Get(t.propa, n) - diff <= Get(s.propa, n);
      }
    }
    if diff == {} {
      assert forall o :: o in Get(s.pts, n) && o !in Get(s.propa, n) ==> o in diff;
      assert Get(s.propa, n) <= Get(s.pts, n) && Get(t.propa, n) == Get(s.propa, n);
      assert forall m {:trigger Get(t.propa, m)} :: Get(t.propa, m) == Get(s.propa, m);
    }
  }

  /** `m` receives `pts`, and waits if that made its set grow. */
  ghost function Receive(s: State, m: NodeID, pts: set<NodeID>): State
  {
    s.(pts := s.pts[m := Get(s.pts, m) + pts],
       work := if pts <= Get(s.pts, m) then s.work else s.work + {m})
  }

  /** Sending along one copy or field edge, from a source that keeps its own set. */
  lemma ReceiveKeeps(c: Constraints, s: State, n: NodeID, diff: set<NodeID>, todo: Edges, gepTodo: set<GepEdge>,
                     m: NodeID, pts: set<NodeID>)
    requires Typed(c, s) && Done(c, s, {}) && Justified(c, s) && Arrived(c, s, n, diff, todo, gepTodo)
    requires m in c.nodes && pts <= c.nodes && n in c.nodes
    requires forall sol :: Solution(c, sol) ==> pts <= Get(sol, m)
    ensures var t := Receive(s, m, pts);
            && Typed(c, t) && Done(c, t, {}) && Justified(c, t)
            && Arrived(c, t, n, diff, todo, gepTodo)
            && (diff <= pts ==> Arrived(c, t, n, diff, todo - {(n, m)}, gepTodo))
            && (forall e :: e in c.geps && e.src == n && e.dst == m && Fields(c, diff, e.offset) <= pts ==>
                  Arrived(c, t, n, diff, todo, gepTodo - {e}))
  {
    var t := Receive(s, m, pts);
    assert forall x :: Get(s.pts, x) <= Get(t.pts, x);
    forall x | x in c.nodes && x !in t.work
      ensures Get(t.pts, x) <= Get(t.propa, x) && Wired(c, t, x)
    {
      assert Wired(c, s, x);
      assert Get(t.pts, x) == Get(s.pts, x);
    }
    assert Justified(c, t) by {
      forall sol | Solution(c, sol)
        ensures Within(t.pts, sol)
        ensures forall x, y {:trigger (x, y) in t.edges} :: (x, y) in t.edges ==> Get(sol, x) <= Get(sol, y)
      {
        assert Within(s.pts, sol);
        forall x
          ensures Get(t.pts, x) <= Get(sol, x)
        {
          assert Get(s.pts, x) <= Get(sol, x);
        }
      }
    }
    ArrivedGrows(c, s, t, n, diff, todo, gepTodo);
    if diff <= pts {
      ArrivedEdge(c, t, n, diff, todo, gepTodo, m);
    }
    forall e | e in c.geps && e.src == n && e.dst == m && Fields(c, diff, e.offset) <= pts
      ensures Arrived(c, t, n, diff, todo, gepTodo - {e})
    {
      ArrivedGep(c, t, n, diff, todo, gepTodo, e);
    }
  }

  lemma ArrivedGrows(c: Constraints, s: State, t: State, n: NodeID, diff: set<NodeID>, todo: Edges,
                     gepTodo: set<GepEdge>)
    requires Arrived(c, s, n, diff, todo, gepTodo)
    requires t.propa == s.propa && t.edges == s.edges
    requires forall x :: Get(s.pts, x) <= Get(t.pts, x)
    ensures Arrived(c, t, n, diff, todo, gepTodo)
  {
    forall x
      ensures Get(t.propa, x) <= Get(t.pts, x)
    {
      assert Get(s.propa, x) <= Get(s.pts, x) <= Get(t.pts, x);
    }
    forall e | e in c.geps
      ensures Fields(c, Get(t.propa, e.src) - (if e.src == n && e in gepTodo then diff else {}), e.offset)
              <= Get(t.pts, e.dst)
    {
      assert Get(s.pts, e.dst) <= Get(t.pts, e.dst);
    }
  }

  lemma ArrivedEdge(c: Constraints, t: State, n: NodeID, diff: set<NodeID>, todo: Edges, gepTodo: set<GepEdge>,
                    m: NodeID)
    requires Arrived(c, t, n, diff, todo, gepTodo) && diff <= Get(t.pts, m)
    ensures Arrived(c, t, n, diff, todo - {(n, m)}, gepTodo)
  {
  }

  lemma ArrivedGep(c: Constraints, t: State, n: NodeID, diff: set<NodeID>, todo: Edges, gepTodo: set<GepEdge>,
                   e: GepEdge)
    requires Arrived(c, t, n, diff, todo, gepTodo) && e.src == n
    requires Fields(c, diff, e.offset) <= Get(t.pts, e.dst)
    ensures Arrived(c, t, n, diff, todo, gepTodo - {e})
  {
    forall f | f in c.geps
      ensures Fields(c, Get(t.propa, f.src) - (if f.src == n && f in gepTodo - {e} then diff else {}), f.offset)
              <= Get(t.pts, f.dst)
    {
      if f == e {
        var all, rest := Get(t.propa, n), Get(t.propa, n) - diff;
        assert Fields(c, all, e.offset) <= Fields(c, rest, e.offset) + Fields(c, diff, e.offset);
      }
    }
  }

  lemma ArrivedEverywhere(c: Constraints, s: State, n: NodeID, diff: set<NodeID>, todo: Edges)
    requires Arrived(c, s, n, diff, {}, {})
    ensures AllArrived(c, s)
  {
    forall e | e in c.geps
      ensures Fields(c, Get(s.propa, e.src), e.offset) <= Get(s.pts, e.dst)
    {
      assert Get(s.propa, e.src) - {} == Get(s.propa, e.src);
    }
    forall a, b | (a, b) in s.edges
      ensures Get(s.propa, a) <= Get(s.pts, b)
    {
      assert Get(s.propa, a) - {} == Get(s.propa, a);
    }
  }

  // ---------------------------------------------------------------- what sending achieves

  /** What `m` gets when `n` sends `pts` along the copy edges `edges` and field edges `geps`. */
  ghost function Carried(c: Constraints, edges: Edges, geps: set<GepEdge>, n: NodeID, pts: set<NodeID>,
                         m: NodeID): set<NodeID>
  {
    (if (n, m) in edges then pts else {}) +
    set e, x | e in geps && e.src == n && e.dst == m && x in Fields(c, pts, e.offset) :: x
  }

  /** From `s` to `t` exactly this is sent, and whoever grew is queued. */
  ghost predicate Spread(c: Constraints, s: State, t: State, edges: Edges, geps: set<GepEdge>, n: NodeID,
                         pts: set<NodeID>)
  {
    && t.propa == s.propa && t.edges == s.edges
    && (forall m {:trigger Get(t.pts, m)} :: Get(t.pts, m) == Get(s.pts, m) + Carried(c, edges, geps, n, pts, m))
    && (forall m {:trigger m in t.work} :: m in t.work <==> m in s.work || Get(t.pts, m) != Get(s.pts, m))
  }

  /** `n` sends along all its edges, but only what it has not sent before. */
  ghost predicate Sent(c: Constraints, s: State, t: State, n: NodeID)
  {
    Spread(c, Declare(s, n), t, s.edges, c.geps, n, Get(s.pts, n) - Get(s.propa, n))
  }

  lemma SpreadNothing(c: Constraints, s: State, n: NodeID, pts: set<NodeID>)
    ensures Spread(c, s, s, {}, {}, n, pts)
  {
  }

  lemma SpreadCopy(c: Constraints, s: State, t: State, edges: Edges, geps: set<GepEdge>, n: NodeID,
                   pts: set<NodeID>, m: NodeID)
    requires Spread(c, s, t, edges, geps, n, pts)
    ensures Spread(c, s, Receive(t, m, pts), edges + {(n, m)}, geps, n, pts)
  {
    var u := Receive(t, m, pts);
    forall k
      ensures Get(u.pts, k) == Get(s.pts, k) + Carried(c, edges + {(n, m)}, geps, n, pts, k)
      ensures k in u.work <==> k in s.work || Get(u.pts, k) != Get(s.pts, k)
    {
      assert Get(t.pts, k) == Get(s.pts, k) + Carried(c, edges, geps, n, pts, k);
    }
  }

  lemma SpreadGep(c: Constraints, s: State, t: State, edges: Edges, geps: set<GepEdge>, n: NodeID,
                  pts: set<NodeID>, e: GepEdge)
    requires Spread(c, s, t, edges, geps, n, pts) && e.src == n
    ensures Spread(c, s, Receive(t, e.dst, Fields(c, pts, e.offset)), edges, geps + {e}, n, pts)
  {
    var u := Receive(t, e.dst, Fields(c, pts, e.offset));
    forall k
      ensures Get(u.pts, k) == Get(s.pts, k) + Carried(c, edges, geps + {e}, n, pts, k)
      ensures k in u.work <==> k in s.work || Get(u.pts, k) != Get(s.pts, k)
    {
      assert Get(t.pts, k) == Get(s.pts, k) + Carried(c, edges, geps, n, pts, k);
      CarriedMore(c, edges, geps, n, pts, e, k);
    }
  }

  lemma CarriedMore(c: Constraints, edges: Edges, geps: set<GepEdge>, n: NodeID, pts: set<NodeID>, e: GepEdge,
                    k: NodeID)
    requires e.src == n
    ensures Carried(c, edges, geps + {e}, n, pts, k) ==
            Carried(c, edges, geps, n, pts, k) + if k == e.dst then Fields(c, pts, e.offset) else {}
  {
  }

  lemma SpreadOwn(c: Constraints, s: State, t: State, edges: Edges, geps: set<GepEdge>, n: NodeID, pts: set<NodeID>,
                  allEdges: Edges, allGeps: set<GepEdge>)
    requires Spread(c, s, t, edges, geps, n, pts)
    requires edges == set e | e in allEdges && e.0 == n
    requires geps == set e | e in allGeps && e.src == n
    ensures Spread(c, s, t, allEdges, allGeps, n, pts)
  {
    forall m
      ensures Carried(c, edges, geps, n, pts, m) == Carried(c, allEdges, allGeps, n, pts, m)
    {
    }
  }

  lemma NothingToSend(c: Constraints, s: State, n: NodeID)
    requires Get(s.pts, n) <= Get(s.propa, n)
    ensures Sent(c, s, Declare(s, n), n)
  {
    assert Get(s.pts, n) - Get(s.propa, n) == {};
    assert forall offset :: Fields(c, {}, offset) == {};
  }

  /** Sending only what is new has the effect of sending everything: where the propagated
      part has arrived, the difference gives a successor all that the whole set would. */
  lemma DifferenceIsEnough(c: Constraints, s: State, n: NodeID, m: NodeID)
    requires AllArrived(c, s)
    ensures Get(s.pts, m) + Carried(c, s.edges, c.geps, n, Get(s.pts, n) - Get(s.propa, n), m) ==
            Get(s.pts, m) + Carried(c, s.edges, c.geps, n, Get(s.pts, n), m)
  {
    var all, diff := Get(s.pts, n), Get(s.pts, n) - Get(s.propa, n);
    forall x | x in Carried(c, s.edges, c.geps, n, all, m)
      ensures x in Get(s.pts, m) + Carried(c, s.edges, c.geps, n, diff, m)
    {
      if !((n, m) in s.edges && x in all) {
        var e :| e in c.geps && e.src == n && e.dst == m && x in Fields(c, all, e.offset);
        var o :| o in all && x == c.field(o, e.offset);
        if o in Get(s.propa, n) {
          assert x in Fields(c, Get(s.propa, e.src), e.offset);
        } else {
          assert x in Fields(c, diff, e.offset);
        }
      }
    }
    forall x | x in Carried(c, s.edges, c.geps, n, diff, m)
      ensures x in Carried(c, s.edges, c.geps, n, all, m)
    {
      if !((n, m) in s.edges && x in diff) {
        var e :| e in c.geps && e.src == n && e.dst == m && x in Fields(c, diff, e.offset);
        assert x in Fields(c, all, e.offset);
      }
    }
  }

  // ---------------------------------------------------------------- progress

  ghost function MissingEdges(c: Constraints, s: State): Edges
  {
    set a, b | a in c.nodes && b in c.nodes && (a, b) !in s.edges :: (a, b)
  }

  ghost function MissingPts(c: Constraints, s: State): set<(NodeID, NodeID)>
  {
    set n, o | n in c.nodes && o in c.nodes && o !in Get(s.pts, n) :: (n, o)
  }

  /** Edges and sets grow; if neither does, nothing joins the worklist. */
  ghost predicate Progress(c: Constraints, s: State, t: State)
  {
    && s.edges <= t.edges
    && (forall n :: Get(s.pts, n) <= Get(t.pts, n))
    && MissingEdges(c, t) <= MissingEdges(c, s)
    && (MissingEdges(c, t) == MissingEdges(c, s) ==> MissingPts(c, t) <= MissingPts(c, s))
    && (MissingEdges(c, t) == MissingEdges(c, s) && MissingPts(c, t) == MissingPts(c, s) ==> t.work <= s.work)
  }

  lemma ProgressTransitive(c: Constraints, s: State, t: State, u: State)
    requires Progress(c, s, t) && Progress(c, t, u)
    ensures Progress(c, s, u)
  {
    forall n
      ensures Get(s.pts, n) <= Get(u.pts, n)
    {
      assert Get(s.pts, n) <= Get(t.pts, n) <= Get(u.pts, n);
    }
  }

  lemma ProgressReflexive(c: Constraints, s: State)
    ensures Progress(c, s, s)
  {
  }

  lemma DeclareProgress(c: Constraints, s: State, n: NodeID)
    ensures Progress(c, s, Declare(s, n))
  {
    assert MissingEdges(c, s) == MissingEdges(c, Declare(s, n));
    assert MissingPts(c, s) == MissingPts(c, Declare(s, n));
  }

  lemma PopKeeps(c: Constraints, s: State, n: NodeID)
    requires Invariant(c, s, {}) && n in s.work
    ensures n in c.nodes && Invariant(c, s.(work := s.work - {n}), {n})
  {
    var t := s.(work := s.work - {n});
    forall m | m in c.nodes && m !in t.work && m != n
      ensures Get(t.pts, m) <= Get(t.propa, m) && Wired(c, t, m)
    {
      assert Wired(c, s, m);
    }
  }

  lemma PoppedMeasure(c: Constraints, s: State, n: NodeID)
    ensures MissingEdges(c, s.(work := s.work - {n})) == MissingEdges(c, s)
    ensures MissingPts(c, s.(work := s.work - {n})) == MissingPts(c, s)
  {
  }

  lemma DerivedNodes(c: Constraints, s: State, n: NodeID, o: NodeID, a: NodeID, b: NodeID)
    requires Invariant(c, s, {n}) && o in Get(s.pts, n) && (a, b) in Derived(c, n, o)
    ensures a in c.nodes && b in c.nodes
  {
    assert Get(s.pts, n) <= c.nodes;
  }

  /** Field edges of other nodes need no serving. */
  lemma ArrivedOwn(c: Constraints, s: State, n: NodeID, diff: set<NodeID>, todo: Edges,
                   geps: set<GepEdge>, own: set<GepEdge>)
    requires Arrived(c, s, n, diff, todo, geps)
    requires own == set e | e in geps && e.src == n
    ensures Arrived(c, s, n, diff, todo, own)
  {
    forall e | e in c.geps
      ensures Fields(c, Get(s.propa, e.src) - (if e.src == n && e in own then diff else {}), e.offset)
              <= Get(s.pts, e.dst)
    {
      assert (e.src == n && e in own) == (e.src == n && e in geps);
    }
  }

  lemma AddEdgeProgress(c: Constraints, s: State, a: NodeID, b: NodeID)
    requires a in c.nodes && b in c.nodes
    ensures Progress(c, s, AddEdge(s, a, b))
  {
    if (a, b) !in s.edges && a != b {
      assert (a, b) in MissingEdges(c, s) && (a, b) !in MissingEdges(c, AddEdge(s, a, b));
    }
  }

  lemma ReceiveProgress(c: Constraints, s: State, m: NodeID, pts: set<NodeID>)
    requires m in c.nodes && pts <= c.nodes
    ensures Progress(c, s, Receive(s, m, pts))
  {
    var t := Receive(s, m, pts);
    assert forall n :: Get(s.pts, n) <= Get(t.pts, n);
    assert MissingEdges(c, t) == MissingEdges(c, s);
    if !(pts <= Get(s.pts, m)) {
      var o :| o in pts && o !in Get(s.pts, m);
      assert (m, o) in MissingPts(c, s) && (m, o) !in MissingPts(c, t);
    }
  }

  /** Objects that `n` sends along an edge are consequences of the constraints. */
  lemma SentIsJustified(c: Constraints, s: State, n: NodeID, m: NodeID, pts: set<NodeID>)
    requires Justified(c, s) && (n, m) in s.edges && pts <= Get(s.pts, n)
    ensures forall sol :: Solution(c, sol) ==> pts <= Get(sol, m)
  {
    forall sol | Solution(c, sol)
      ensures pts <= Get(sol, m)
    {
      assert Within(s.pts, sol);
      assert Get(s.pts, n) <= Get(sol, n) <= Get(sol, m);
    }
  }

  lemma SentFieldsJustified(c: Constraints, s: State, e: GepEdge, pts: set<NodeID>)
    requires Justified(c, s) && e in c.geps && pts <= Get(s.pts, e.src)
    ensures forall sol :: Solution(c, sol) ==> Fields(c, pts, e.offset) <= Get(sol, e.dst)
  {
    forall sol | Solution(c, sol)
      ensures Fields(c, pts, e.offset) <= Get(sol, e.dst)
    {
      assert Within(s.pts, sol);
      assert Get(s.pts, e.src) <= Get(sol, e.src);
      FieldsHold(c, sol, e);
      assert Fields(c, pts, e.offset) <= Fields(c, Get(sol, e.src), e.offset);
    }
  }

  /** The address constraints of `done` were loaded into empty sets. */
  ghost predicate Loaded(c: Constraints, done: Edges, pts: PtsMap, work: set<NodeID>)
  {
    && work <= c.nodes
    && (forall o: NodeID, p: NodeID :: o in Get(pts, p) <==> (o, p) in done)
    && (forall n :: Get(pts, n) != {} ==> n in work)
  }

  lemma NothingLoaded(c: Constraints)
    ensures Loaded(c, {}, map[], {})
  {
  }

  lemma LoadOne(c: Constraints, done: Edges, o: NodeID, p: NodeID, pts: PtsMap, work: set<NodeID>)
    requires Loaded(c, done, pts, work) && p in c.nodes
    ensures Loaded(c, done + {(o, p)}, pts[p := Get(pts, p) + {o}], if o in Get(pts, p) then work else work + {p})
  {
    var next := pts[p := Get(pts, p) + {o}];
    forall x: NodeID, y: NodeID
      ensures x in Get(next, y) <==> (x, y) in done + {(o, p)}
    {
      assert x in Get(pts, y) <==> (x, y) in done;
    }
  }

  lemma AddressesLoaded(c: Constraints, s: State)
    requires WellFormed(c) && s.propa == map[] && s.edges == c.copies
    requires Loaded(c, c.addrs, s.pts, s.work)
    ensures Invariant(c, s, {})
  {
    forall n | n in c.nodes && n !in s.work
      ensures Get(s.pts, n) <= Get(s.propa, n) && Wired(c, s, n)
    {
      assert Get(s.pts, n) == {};
    }
    forall sol | Solution(c, sol)
      ensures Within(s.pts, sol)
      ensures forall a, b {:trigger (a, b) in s.edges} :: (a, b) in s.edges ==> Get(sol, a) <= Get(sol, b)
    {
    }
  }
}
