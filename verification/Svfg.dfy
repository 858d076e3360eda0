/**
 The sparse value-flow graph that the demand-driven solver walks, and the equations
 one statement contributes to the points-to problem.  A query item ("dpm") is a
 location together with a variable.  Strong updates are part of the equations.
 */
module Svfg {

  type NodeID = nat   // pointers and memory objects share one id space
  type LocID = nat    // nodes of the value-flow graph

  /** What a value-flow node does. `Copy` stands for every node that only forwards
      its direct predecessors: copies, phis, parameters, returns, null pointers. */
  datatype Stmt =
    | Addr(obj: NodeID)
    | Copy
    | Gep
    | Load(src: NodeID)
    | Store(dst: NodeID, src: NodeID)
    | MR
  {
    predicate TopLevel() { !Store? && !MR? }
  }

  datatype Edge =
    | Direct(src: LocID, dst: LocID)
    | Indirect(src: LocID, dst: LocID, guard: set<NodeID>)

  datatype Dpm = Dpm(loc: LocID, v: NodeID)

  datatype Graph = Graph(
    locs: set<LocID>,
    vars: set<NodeID>,
    objs: set<NodeID>,
    edges: set<Edge>,
    inert: set<NodeID>,                          // constant or non-pointer objects
    stmt: LocID -> Stmt,
    lhs: LocID -> NodeID,                        // top-level pointer a node defines
    def: NodeID -> LocID,                        // node that defines a pointer
    concrete: (NodeID, LocID) -> bool,           // neither heap, array, field-insensitive nor recursive
    gep: (LocID, set<NodeID>) -> set<NodeID>)    // field objects of a Gep node

  /** What the solver relies on: edges join known nodes, direct edges leave top-level
      nodes and indirect edges leave Store or MR nodes, and the operands of a load or
      store are pointers defined by a node with a direct edge into it. */
  ghost predicate WellFormed(g: Graph)
  {
    && g.objs <= g.vars
    && (forall e :: e in g.edges ==> EdgeOk(g, e))
    && (forall n :: n in g.locs ==> StmtOk(g, n))
    && (forall n, s: set<NodeID> :: s <= g.objs ==> g.gep(n, s) <= g.objs)
  }

  ghost predicate EdgeOk(g: Graph, e: Edge)
  {
    && e.src in g.locs && e.dst in g.locs
    && (e.Direct? ==> g.stmt(e.src).TopLevel() && g.lhs(e.src) in g.vars)
    && (e.Indirect? ==> !g.stmt(e.src).TopLevel())
  }

  ghost predicate StmtOk(g: Graph, n: LocID)
  {
    match g.stmt(n)
    case Addr(o) => o in g.objs
    case Load(p) => OperandOk(g, n, p)
    case Store(p, q) => OperandOk(g, n, p) && OperandOk(g, n, q)
    case _ => true
  }

  predicate OperandOk(g: Graph, n: LocID, p: NodeID)
  {
    p in g.vars && g.lhs(g.def(p)) == p && Direct(g.def(p), n) in g.edges
  }

  /** `Gep` handling adds more field objects when given more base objects. */
  ghost predicate MonotoneGep(g: Graph)
  {
    forall n, s: set<NodeID>, t: set<NodeID> :: s <= t ==> g.gep(n, s) <= g.gep(n, t)
  }

  /** `Gep` handling that maps the base objects one by one is of that kind. */
  lemma PointwiseGepIsMonotone(g: Graph, field: (LocID, NodeID) -> NodeID)
    requires forall n, s: set<NodeID> :: g.gep(n, s) == set o | o in s :: field(n, o)
    ensures MonotoneGep(g)
  {
    forall n, s: set<NodeID>, t: set<NodeID> | s <= t
      ensures g.gep(n, s) <= g.gep(n, t)
    {
      forall x | x in g.gep(n, s)
        ensures x in g.gep(n, t)
      {
        var o :| o in s && x == field(n, o);
        assert o in t;
      }
    }
  }

  /** The items a search can reach: a top-level node answers for the pointer it defines, a
      Store or MR node for any variable. */
  ghost function Universe(g: Graph): set<Dpm>
  {
    set n, v | n in g.locs && v in g.vars && (g.stmt(n).TopLevel() ==> v == g.lhs(n)) :: Dpm(n, v)
  }

  // ---------------------------------------------------------------- cache entries

  /** How the caches of top-level nodes are keyed: by item, or by the item's variable alone. */
  datatype Keying = PerItem | PerVariable

  /** Two items have the same cache entry. */
  predicate Shares(g: Graph, k: Keying, d: Dpm, e: Dpm)
  {
    d == e || (k.PerVariable? && g.stmt(d.loc).TopLevel() && g.stmt(e.loc).TopLevel() && d.v == e.v)
  }

  /** No two items a search can reach have the same cache entry. */
  ghost predicate Separate(g: Graph, k: Keying)
  {
    forall d, e {:trigger Shares(g, k, d, e)} ::
      d in Universe(g) && e in Universe(g) && Shares(g, k, d, e) ==> d == e
  }

  /** No pointer is the pointer of two top-level nodes. */
  ghost predicate OneNodePerPointer(g: Graph)
  {
    forall m, n {:trigger g.stmt(m), g.stmt(n)} ::
      (m in g.locs && n in g.locs && g.stmt(m).TopLevel() && g.stmt(n).TopLevel()
       && g.lhs(m) == g.lhs(n) && g.lhs(m) in g.vars) ==> m == n
  }

  /** Keyed by item entries are never shared; keyed by variable they are not exactly if no
      pointer belongs to two top-level nodes. */
  lemma SeparateExactly(g: Graph)
    ensures Separate(g, PerItem)
    ensures Separate(g, PerVariable) <==> OneNodePerPointer(g)
  {
    if Separate(g, PerVariable) {
      forall m, n | m in g.locs && n in g.locs && g.stmt(m).TopLevel() && g.stmt(n).TopLevel()
                    && g.lhs(m) == g.lhs(n) && g.lhs(m) in g.vars
        ensures m == n
      {
        assert Shares(g, PerVariable, Dpm(m, g.lhs(m)), Dpm(n, g.lhs(n)));
      }
    }
    if OneNodePerPointer(g) {
      forall d, e | d in Universe(g) && e in Universe(g) && Shares(g, PerVariable, d, e)
        ensures d == e
      {
        assert d != e ==> g.stmt(d.loc).TopLevel() && g.stmt(e.loc).TopLevel();
      }
    }
  }

  // ---------------------------------------------------------------- assignments

  /** An assignment of points-to sets; a missing entry is the empty set. */
  type Rho = map<Dpm, set<NodeID>>

  function Get(rho: Rho, d: Dpm): set<NodeID>
  {
    if d in rho then rho[d] else {}
  }

  ghost predicate Below(a: Rho, b: Rho)
  {
    forall d :: Get(a, d) <= Get(b, d)
  }

  ghost function UnionOf(rho: Rho, ds: set<Dpm>): set<NodeID>
  {
    set y, o | y in ds && o in Get(rho, y) :: o
  }

  // ---------------------------------------------------------------- equations

  function InEdges(g: Graph, n: LocID): set<Edge>
  {
    set e | e in g.edges && e.dst == n
  }

  function OutEdges(g: Graph, n: LocID): set<Edge>
  {
    set e | e in g.edges && e.src == n
  }

  ghost function DirectFrom(g: Graph, es: set<Edge>): set<Dpm>
  {
    set e | e in es && e.Direct? :: Dpm(e.src, g.lhs(e.src))
  }

  ghost function IndirectFrom(es: set<Edge>, o: NodeID): set<Dpm>
  {
    set e | e in es && e.Indirect? && o in e.guard :: Dpm(e.src, o)
  }

  ghost function DirectDeps(g: Graph, n: LocID): set<Dpm>
  {
    DirectFrom(g, InEdges(g, n))
  }

  ghost function IndirectDeps(g: Graph, n: LocID, o: NodeID): set<Dpm>
  {
    if o in g.inert then {} else IndirectFrom(InEdges(g, n), o)
  }

  predicate StrongUpdate(g: Graph, n: LocID, pts: set<NodeID>)
  {
    |pts| == 1 && forall o | o in pts :: g.concrete(o, n)
  }

  /** The item holding the targets of a load or store. */
  function Base(g: Graph, n: LocID): Dpm
    requires g.stmt(n).Load? || g.stmt(n).Store?
  {
    var p := if g.stmt(n).Load? then g.stmt(n).src else g.stmt(n).dst;
    Dpm(g.def(p), p)
  }

  ghost predicate HasBase(g: Graph, n: LocID) { g.stmt(n).Load? || g.stmt(n).Store? }

  /** Items whose values reach `d` because the load or store base points to `o`. */
  ghost function ObjDeps(g: Graph, d: Dpm, pts: set<NodeID>, o: NodeID): set<Dpm>
    requires HasBase(g, d.loc)
  {
    if g.stmt(d.loc).Load? then IndirectDeps(g, d.loc, o)
    else if o != d.v then IndirectDeps(g, d.loc, d.v)
    else {Dpm(g.def(g.stmt(d.loc).src), g.stmt(d.loc).src)} +
         if StrongUpdate(g, d.loc, pts) then {} else IndirectDeps(g, d.loc, o)
  }

  ghost function ObjsDeps(g: Graph, d: Dpm, pts: set<NodeID>, done: set<NodeID>): set<Dpm>
    requires HasBase(g, d.loc)
  {
    set o, y | o in done && y in ObjDeps(g, d, pts, o) :: y
  }

  /** Items whose values flow into `d` under the assignment `rho`. */
  ghost function ValueDeps(g: Graph, rho: Rho, d: Dpm): set<Dpm>
  {
    match g.stmt(d.loc)
    case Addr(_) => {}
    case Copy => DirectDeps(g, d.loc)
    case Gep => DirectDeps(g, d.loc)
    case MR => IndirectDeps(g, d.loc, d.v)
    case _ =>
      var pts := Get(rho, Base(g, d.loc));
      ObjsDeps(g, d, pts, pts)
  }

  ghost function Deps(g: Graph, rho: Rho, d: Dpm): set<Dpm>
  {
    ValueDeps(g, rho, d) + if HasBase(g, d.loc) then {Base(g, d.loc)} else {}
  }

  /** The right-hand side of the equation for `d`. */
  ghost function Eval(g: Graph, rho: Rho, d: Dpm): set<NodeID>
  {
    var flow := UnionOf(rho, ValueDeps(g, rho, d));
    match g.stmt(d.loc)
    case Addr(o) => {o}
    case Gep => g.gep(d.loc, flow)
    case _ => flow
  }

  ghost predicate Closed(g: Graph, rho: Rho, d: Dpm)
  {
    Eval(g, rho, d) <= Get(rho, d)
  }

  /** `rho` satisfies every equation as an inclusion. */
  ghost predicate Solution(g: Graph, rho: Rho)
  {
    forall d :: d in Universe(g) ==> Closed(g, rho, d)
  }

  // ---------------------------------------------------------------- what the equations say

  /** `x` comes along a direct edge into `n`, from the pointer its source defines. */
  ghost predicate ComesDirectly(g: Graph, rho: Rho, n: LocID, x: NodeID)
  {
    exists e :: e in g.edges && e.Direct? && e.dst == n && x in Get(rho, Dpm(e.src, g.lhs(e.src)))
  }

  /** `x` comes along an indirect edge into `n` that carries `v`, no constant and no non-pointer
      object. */
  ghost predicate ComesIndirectly(g: Graph, rho: Rho, n: LocID, v: NodeID, x: NodeID)
  {
    && v !in g.inert
    && exists e :: e in g.edges && e.Indirect? && e.dst == n && v in e.guard && x in Get(rho, Dpm(e.src, v))
  }

  /** What the statement at `d.loc` contributes to `d`.  A load passes on what the objects hold
      that its pointer may address.  A store gives an object it may address the value stored;
      what the object held before stays, unless the pointer has no target yet, or the object
      is the only one and concrete. */
  ghost predicate Contributes(g: Graph, rho: Rho, d: Dpm, x: NodeID)
  {
    match g.stmt(d.loc)
    case Addr(o) => x == o
    case Copy => ComesDirectly(g, rho, d.loc, x)
    case Gep => ComesDirectly(g, rho, d.loc, x)
    case MR => ComesIndirectly(g, rho, d.loc, d.v, x)
    case Load(p) => exists o :: o in Get(rho, Dpm(g.def(p), p)) && ComesIndirectly(g, rho, d.loc, o, x)
    case Store(p, q) =>
      var pts := Get(rho, Dpm(g.def(p), p));
      || (d.v in pts && x in Get(rho, Dpm(g.def(q), q)))
      || (pts != {} && !(pts == {d.v} && g.concrete(d.v, d.loc)) && ComesIndirectly(g, rho, d.loc, d.v, x))
  }

  lemma DirectMeans(g: Graph, rho: Rho, n: LocID, x: NodeID)
    ensures x in UnionOf(rho, DirectDeps(g, n)) <==> ComesDirectly(g, rho, n, x)
  {
    hide Get;
    if e :| e in g.edges && e.Direct? && e.dst == n && x in Get(rho, Dpm(e.src, g.lhs(e.src))) {
      assert e in InEdges(g, n) && Dpm(e.src, g.lhs(e.src)) in DirectDeps(g, n);
    }
  }

  lemma IndirectMeans(g: Graph, rho: Rho, n: LocID, v: NodeID, x: NodeID)
    ensures x in UnionOf(rho, IndirectDeps(g, n, v)) <==> ComesIndirectly(g, rho, n, v, x)
  {
    hide Get;
    if ComesIndirectly(g, rho, n, v, x) {
      var e :| e in g.edges && e.Indirect? && e.dst == n && v in e.guard && x in Get(rho, Dpm(e.src, v));
      assert e in InEdges(g, n) && Dpm(e.src, v) in IndirectDeps(g, n, v);
    }
  }

  lemma LoadMeans(g: Graph, rho: Rho, d: Dpm, x: NodeID)
    requires g.stmt(d.loc).Load?
    ensures x in Eval(g, rho, d) <==> Contributes(g, rho, d, x)
  {
    var pts := Get(rho, Base(g, d.loc));
    forall o
      ensures x in UnionOf(rho, ObjDeps(g, d, pts, o)) <==> ComesIndirectly(g, rho, d.loc, o, x)
    {
      IndirectMeans(g, rho, d.loc, o, x);
    }
    hide Get, ComesIndirectly, ObjDeps;
    if x in Eval(g, rho, d) {
      var y :| y in ObjsDeps(g, d, pts, pts) && x in Get(rho, y);
      var o :| o in pts && y in ObjDeps(g, d, pts, o);
      assert x in UnionOf(rho, ObjDeps(g, d, pts, o));
    }
    if o :| o in pts && ComesIndirectly(g, rho, d.loc, o, x) {
      var y :| y in ObjDeps(g, d, pts, o) && x in Get(rho, y);
      assert y in ObjsDeps(g, d, pts, pts);
    }
  }

  lemma StoreMeans(g: Graph, rho: Rho, d: Dpm, x: NodeID)
    requires g.stmt(d.loc).Store?
    ensures x in Eval(g, rho, d) <==> Contributes(g, rho, d, x)
  {
    var pts, stored := Get(rho, Base(g, d.loc)), Dpm(g.def(g.stmt(d.loc).src), g.stmt(d.loc).src);
    IndirectMeans(g, rho, d.loc, d.v, x);
    var before := IndirectDeps(g, d.loc, d.v);
    StoreReads(g, d, pts);
    assert x in Eval(g, rho, d) <==> x in UnionOf(rho, ObjsDeps(g, d, pts, pts));
    hide Get, ComesIndirectly, ObjsDeps, IndirectDeps, UnionOf;
    UnionOne(rho, stored, x);
    UnionParts(rho, if d.v in pts then {stored} else {},
               if pts != {} && !(pts == {d.v} && g.concrete(d.v, d.loc)) then before else {}, x);
  }

  /** The items a store reads for `d`. */
  lemma StoreReads(g: Graph, d: Dpm, pts: set<NodeID>)
    requires g.stmt(d.loc).Store?
    ensures var stored := Dpm(g.def(g.stmt(d.loc).src), g.stmt(d.loc).src);
            ObjsDeps(g, d, pts, pts) ==
            (if d.v in pts then {stored} else {})
            + if pts != {} && !(pts == {d.v} && g.concrete(d.v, d.loc)) then IndirectDeps(g, d.loc, d.v) else {}
  {
    if o :| o in pts && o != d.v {
      OtherObject(g, d, pts, o);
    } else if d.v in pts {
      assert pts == {d.v};
      OnlyObject(g, d, pts);
    } else {
      assert pts == {};
    }
  }

  lemma OtherObject(g: Graph, d: Dpm, pts: set<NodeID>, o: NodeID)
    requires g.stmt(d.loc).Store? && o in pts && o != d.v
    ensures ObjsDeps(g, d, pts, pts) ==
            (if d.v in pts then {Dpm(g.def(g.stmt(d.loc).src), g.stmt(d.loc).src)} else {})
            + IndirectDeps(g, d.loc, d.v)
  {
    var stored := Dpm(g.def(g.stmt(d.loc).src), g.stmt(d.loc).src);
    var before := IndirectDeps(g, d.loc, d.v);
    hide IndirectDeps, StrongUpdate;
    forall y
      ensures y in ObjsDeps(g, d, pts, pts) <==> (d.v in pts && y == stored) || y in before
    {
      assert y in before ==> y in ObjDeps(g, d, pts, o);
      assert d.v in pts ==> stored in ObjDeps(g, d, pts, d.v);
    }
  }

  lemma OnlyObject(g: Graph, d: Dpm, pts: set<NodeID>)
    requires g.stmt(d.loc).Store? && pts == {d.v}
    ensures ObjsDeps(g, d, pts, pts) ==
            {Dpm(g.def(g.stmt(d.loc).src), g.stmt(d.loc).src)}
            + if g.concrete(d.v, d.loc) then {} else IndirectDeps(g, d.loc, d.v)
  {
    assert StrongUpdate(g, d.loc, pts) <==> g.concrete(d.v, d.loc);
    hide IndirectDeps, StrongUpdate;
    assert ObjsDeps(g, d, pts, pts) == ObjDeps(g, d, pts, d.v);
  }

  lemma UnionParts(rho: Rho, a: set<Dpm>, b: set<Dpm>, x: NodeID)
    ensures x in UnionOf(rho, a + b) <==> x in UnionOf(rho, a) || x in UnionOf(rho, b)
    ensures x !in UnionOf(rho, {})
  {
  }

  lemma UnionOne(rho: Rho, y: Dpm, x: NodeID)
    ensures x in UnionOf(rho, {y}) <==> x in Get(rho, y)
  {
    UnionOfMember(rho, {y}, y);
  }

  /** The right-hand sides say what the statements contribute. */
  lemma EvalMeans(g: Graph, rho: Rho, d: Dpm)
    ensures !g.stmt(d.loc).Gep? ==> forall x :: x in Eval(g, rho, d) <==> Contributes(g, rho, d, x)
    ensures g.stmt(d.loc).Gep? ==> exists flow ::
              (forall x :: x in flow <==> Contributes(g, rho, d, x)) && Eval(g, rho, d) == g.gep(d.loc, flow)
  {
    hide Contributes;
    if g.stmt(d.loc).Gep? {
      var flow := UnionOf(rho, ValueDeps(g, rho, d));
      forall x
        ensures x in flow <==> Contributes(g, rho, d, x)
      {
        ForwardMeans(g, rho, d, x);
      }
      assert Eval(g, rho, d) == g.gep(d.loc, flow);
    } else {
      forall x
        ensures x in Eval(g, rho, d) <==> Contributes(g, rho, d, x)
      {
        ForwardMeans(g, rho, d, x);
      }
    }
  }

  lemma ForwardMeans(g: Graph, rho: Rho, d: Dpm, x: NodeID)
    ensures g.stmt(d.loc).Gep? ==> (x in UnionOf(rho, ValueDeps(g, rho, d)) <==> Contributes(g, rho, d, x))
    ensures !g.stmt(d.loc).Gep? ==> (x in Eval(g, rho, d) <==> Contributes(g, rho, d, x))
  {
    match g.stmt(d.loc)
    case Load(_) => LoadMeans(g, rho, d, x);
    case Store(_, _) => StoreMeans(g, rho, d, x);
    case MR => IndirectMeans(g, rho, d.loc, d.v, x);
    case _ => DirectMeans(g, rho, d.loc, x);
  }

  /** A growing `y` makes the solver re-run `z`: some edge joins their locations, and
      for an indirect edge into anything but a load both carry the same variable. */
  predicate Triggers(g: Graph, y: Dpm, z: Dpm)
  {
    exists e | e in g.edges :: EdgeTriggers(g, e, y, z)
  }

  predicate EdgeTriggers(g: Graph, e: Edge, y: Dpm, z: Dpm)
  {
    && e.src == y.loc && e.dst == z.loc
    && (e.Indirect? && !g.stmt(z.loc).Load? ==> y.v == z.v)
  }

  // ---------------------------------------------------------------- facts

  lemma AlongEdge(g: Graph, e: Edge, y: Dpm, z: Dpm)
    requires e in g.edges && EdgeTriggers(g, e, y, z)
    ensures Triggers(g, y, z)
  {
  }

  lemma TriggeredAlong(g: Graph, e: Edge, y: Dpm, z: Dpm)
    requires e.src == y.loc && e.dst == z.loc
    ensures EdgeTriggers(g, e, y, z) <==> !(e.Indirect? && !g.stmt(z.loc).Load? && y.v != z.v)
  {
  }

  /** The item consulted along an edge can be reached by a search. */
  lemma EdgeSource(g: Graph, e: Edge, ptr: NodeID)
    requires WellFormed(g) && e in g.edges && ptr in g.vars && (e.Direct? ==> ptr == g.lhs(e.src))
    ensures Dpm(e.src, ptr) in Universe(g) && (e.Direct? <==> g.stmt(e.src).TopLevel())
  {
    assert EdgeOk(g, e);
  }

  lemma DirectFromNext(g: Graph, deps: set<Dpm>, es: set<Edge>, todo: set<Edge>, e: Edge)
    requires e in todo && todo <= es
    ensures var done, next := deps + DirectFrom(g, es - todo), deps + DirectFrom(g, es - (todo - {e}));
            next == if e.Direct? then done + {Dpm(e.src, g.lhs(e.src))} else done
  {
    assert es - (todo - {e}) == (es - todo) + {e};
  }

  lemma IndirectFromNext(deps: set<Dpm>, es: set<Edge>, todo: set<Edge>, e: Edge, o: NodeID)
    requires e in todo && todo <= es
    ensures var done, next := deps + IndirectFrom(es - todo, o), deps + IndirectFrom(es - (todo - {e}), o);
            next == if e.Indirect? && o in e.guard then done + {Dpm(e.src, o)} else done
  {
    assert es - (todo - {e}) == (es - todo) + {e};
  }

  lemma UnionMonotone(a: Rho, b: Rho, ds: set<Dpm>, es: set<Dpm>)
    requires Below(a, b) && ds <= es
    ensures UnionOf(a, ds) <= UnionOf(b, es)
  {
    forall y, o | y in ds && o in Get(a, y)
      ensures o in UnionOf(b, es)
    {
      assert Get(a, y) <= Get(b, y);
    }
  }

  lemma UnionOfMember(rho: Rho, ds: set<Dpm>, y: Dpm)
    requires y in ds
    ensures Get(rho, y) <= UnionOf(rho, ds)
  {
  }

  lemma UnionOfSubset(rho: Rho, ds: set<Dpm>, es: set<Dpm>)
    requires ds <= es
    ensures UnionOf(rho, ds) <= UnionOf(rho, es)
  {
  }

  lemma LoadDeps(g: Graph, d: Dpm, pts: set<NodeID>, o: NodeID)
    requires g.stmt(d.loc).Load?
    ensures ObjDeps(g, d, pts, o) == IndirectDeps(g, d.loc, o)
  {
  }

  lemma ObjsDepsStart(g: Graph, d: Dpm, pts: set<NodeID>)
    requires HasBase(g, d.loc)
    ensures ObjsDeps(g, d, pts, pts - pts) == {}
  {
  }

  lemma ObjsDepsNext(g: Graph, d: Dpm, pts: set<NodeID>, todo: set<NodeID>, o: NodeID)
    requires HasBase(g, d.loc) && o in todo && todo <= pts
    ensures ObjsDeps(g, d, pts, pts - (todo - {o})) == ObjsDeps(g, d, pts, pts - todo) + ObjDeps(g, d, pts, o)
  {
    assert pts - (todo - {o}) == (pts - todo) + {o};
  }

  /** What a store contributes for its own object: the stored value, and the previous
      contents unless the update is strong. */
  lemma StoreDeps(g: Graph, d: Dpm, pts: set<NodeID>, deps: set<Dpm>)
    requires g.stmt(d.loc).Store?
    ensures var src := Dpm(g.def(g.stmt(d.loc).src), g.stmt(d.loc).src);
            && src in ObjDeps(g, d, pts, d.v)
            && (!StrongUpdate(g, d.loc, pts) ==> IndirectDeps(g, d.loc, d.v) <= ObjDeps(g, d, pts, d.v))
            && deps + ObjDeps(g, d, pts, d.v) ==
               if StrongUpdate(g, d.loc, pts) then deps + {src} else deps + {src} + IndirectDeps(g, d.loc, d.v)
  {
  }

  /** Whatever an equation reads can re-trigger it. */
  lemma DepsTrigger(g: Graph, rho: Rho, d: Dpm, y: Dpm)
    requires WellFormed(g) && d.loc in g.locs && y in Deps(g, rho, d)
    ensures Triggers(g, y, d)
  {
    assert StmtOk(g, d.loc);
    if HasBase(g, d.loc) && y == Base(g, d.loc) {
      assert EdgeTriggers(g, Direct(y.loc, d.loc), y, d);
    } else if HasBase(g, d.loc) {
      var pts := Get(rho, Base(g, d.loc));
      var o :| o in pts && y in ObjDeps(g, d, pts, o);
      ObjDepsTrigger(g, d, pts, o, y);
    } else if g.stmt(d.loc).MR? {
      IndirectDepsTrigger(g, d, d.v, y);
    } else {
      var e :| e in InEdges(g, d.loc) && e.Direct? && y == Dpm(e.src, g.lhs(e.src));
      assert EdgeTriggers(g, e, y, d);
    }
  }

  lemma ObjDepsTrigger(g: Graph, d: Dpm, pts: set<NodeID>, o: NodeID, y: Dpm)
    requires WellFormed(g) && d.loc in g.locs && HasBase(g, d.loc) && y in ObjDeps(g, d, pts, o)
    ensures Triggers(g, y, d)
  {
    assert StmtOk(g, d.loc);
    if g.stmt(d.loc).Store? && y == Dpm(g.def(g.stmt(d.loc).src), g.stmt(d.loc).src) {
      assert EdgeTriggers(g, Direct(y.loc, d.loc), y, d);
    } else {
      IndirectDepsTrigger(g, d, if g.stmt(d.loc).Load? then o else d.v, y);
    }
  }

  lemma IndirectDepsTrigger(g: Graph, d: Dpm, o: NodeID, y: Dpm)
    requires y in IndirectDeps(g, d.loc, o)
    requires g.stmt(d.loc).Load? || o == d.v
    ensures Triggers(g, y, d)
  {
    var e :| e in InEdges(g, d.loc) && e.Indirect? && o in e.guard && y == Dpm(e.src, o);
    assert EdgeTriggers(g, e, y, d);
  }

  /** An equation depends on nothing but the items it reads. */
  lemma EvalAgree(g: Graph, a: Rho, b: Rho, d: Dpm)
    requires forall y :: y in Deps(g, a, d) ==> Get(a, y) == Get(b, y)
    ensures Deps(g, a, d) == Deps(g, b, d) && Eval(g, a, d) == Eval(g, b, d)
  {
    if HasBase(g, d.loc) {
      assert Base(g, d.loc) in Deps(g, a, d);
    }
    assert ValueDeps(g, a, d) == ValueDeps(g, b, d);
    var ds := ValueDeps(g, a, d);
    assert forall y :: y in ds ==> y in Deps(g, a, d);
    assert UnionOf(a, ds) == UnionOf(b, ds);
  }

  /** Enlarging the target set of a store never drops an item it reads, although it
      can turn a strong update into a weak one. */
  lemma ObjsDepsMonotone(g: Graph, d: Dpm, s: set<NodeID>, t: set<NodeID>)
    requires HasBase(g, d.loc) && s <= t
    ensures ObjsDeps(g, d, s, s) <= ObjsDeps(g, d, t, t)
  {
    forall o, y | o in s && y in ObjDeps(g, d, s, o)
      ensures y in ObjsDeps(g, d, t, t)
    {
      if StrongUpdate(g, d.loc, t) && !StrongUpdate(g, d.loc, s) {
        Singleton(s, t, o);
      }
      assert y in ObjDeps(g, d, t, o);
    }
  }

  lemma Singleton(s: set<NodeID>, t: set<NodeID>, o: NodeID)
    requires s <= t && o in s && |t| == 1
    ensures s == t
  {
    assert |t - {o}| == 0;
    assert t == {o};
  }

  /** Strong updates included, the equations are monotone. */
  lemma EvalMonotone(g: Graph, a: Rho, b: Rho, d: Dpm)
    requires MonotoneGep(g) && Below(a, b)
    ensures ValueDeps(g, a, d) <= ValueDeps(g, b, d)
    ensures Eval(g, a, d) <= Eval(g, b, d)
  {
    if HasBase(g, d.loc) {
      ObjsDepsMonotone(g, d, Get(a, Base(g, d.loc)), Get(b, Base(g, d.loc)));
    }
    UnionMonotone(a, b, ValueDeps(g, a, d), ValueDeps(g, b, d));
  }
}
