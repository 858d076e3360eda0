/**
 The flow-sensitive analysis over the data-flow store: the equations of its nodes and edges,
 the sinks its calls keep served, and what one visit of a node leaves to be done.
 */
module FlowSensitiveModel {
  import opened DataFlowModel
  import FiniteSets

  type Sets = DataFlowModel.Store

  datatype Stmt =
    | Addr(dst: NodeID, obj: NodeID)
    | Copy(dst: NodeID, src: NodeID)
    | Phi(dst: NodeID, ops: set<NodeID>)
    | Gep(dst: NodeID, src: NodeID)
    | Load(dst: NodeID, src: NodeID)
    | Assign(dst: NodeID, src: NodeID)    // a store through `dst`
    | Passes(v: NodeID)                   // actual parameter, formal return
    | Receives(v: NodeID)                 // formal parameter, actual return
    | Null                                // null pointer
    | Region(entry: bool)                 // memory regions; `entry` for formal-in and actual-out
    | Other                               // comparison or arithmetic

  datatype Edge =
    | Direct(src: LocID, dst: LocID)
    | Indirect(src: LocID, dst: LocID, pts: set<NodeID>)

  /** `fields` are the field objects that stand for a field-insensitive object, empty for the
      others; `strong` objects may be updated strongly; nothing is read from or written to
      `inert` ones. */
  datatype Graph = Graph(nodes: set<LocID>, vars: set<NodeID>, objs: set<NodeID>, stmt: LocID -> Stmt,
                         edges: set<Edge>, field: (LocID, NodeID) -> NodeID, fields: NodeID -> set<NodeID>,
                         inert: NodeID -> bool, strong: NodeID -> bool)

  function Members(g: Graph, o: NodeID): set<NodeID>
  {
    {o} + g.fields(o)
  }

  predicate Uses(st: Stmt, v: NodeID)
  {
    match st
    case Copy(_, src) => v == src
    case Phi(_, ops) => v in ops
    case Gep(_, src) => v == src
    case Load(_, src) => v == src
    case Assign(dst, src) => v == dst || v == src
    case Passes(u) => v == u
    case _ => false
  }

  /** The top-level pointer a node defines. */
  predicate Defines(st: Stmt, v: NodeID)
  {
    match st
    case Receives(u) => v == u
    case Addr(dst, _) => v == dst
    case Copy(dst, _) => v == dst
    case Phi(dst, _) => v == dst
    case Gep(dst, _) => v == dst
    case Load(dst, _) => v == dst
    case _ => false
  }

  ghost predicate StmtOk(g: Graph, st: Stmt)
  {
    && (forall v {:trigger Defines(st, v)} :: Defines(st, v) ==> v in g.vars)
    && (st.Addr? ==> st.obj in g.objs)
    && (st.Gep? || st.Load? ==> st.dst != st.src)
  }

  /** Direct edges lead from definitions to uses, or from a passing node to a receiving one;
      indirect ones start where memory is defined. */
  ghost predicate EdgeOk(g: Graph, e: Edge)
  {
    && e.src in g.nodes && e.dst in g.nodes
    && (e.Direct? ==>
          && !g.stmt(e.src).Region? && !g.stmt(e.dst).Null?
          && (g.stmt(e.dst).Receives? <==> g.stmt(e.src).Passes?))
    && (e.Indirect? ==> (g.stmt(e.src).Assign? || g.stmt(e.src).Region?) && e.pts <= g.objs)
  }

  ghost predicate WellFormed(g: Graph)
  {
    && (forall n {:trigger g.stmt(n)} :: n in g.nodes ==> StmtOk(g, g.stmt(n)))
    && (forall e {:trigger EdgeOk(g, e)} :: e in g.edges ==> EdgeOk(g, e))
    && (forall o {:trigger g.fields(o)} :: o in g.objs ==> g.fields(o) <= g.objs)
    && (forall n, o {:trigger g.field(n, o)} :: o in g.objs ==> g.field(n, o) in g.objs)
    && (forall m, n, v {:trigger Defines(g.stmt(m), v), Uses(g.stmt(n), v)} ::
          m in g.nodes && n in g.nodes && Defines(g.stmt(m), v) && Uses(g.stmt(n), v) ==> Direct(m, n) in g.edges)
  }

  // ---------------------------------------------------------------- equations

  function Pts(s: Sets, v: NodeID): set<NodeID>
  {
    Val(s, Top(v))
  }

  function FieldsOf(g: Graph, n: LocID, pts: set<NodeID>): set<NodeID>
  {
    set o | o in pts :: g.field(n, o)
  }

  /** `m` may be reached through a pointer to one of `pts`. */
  ghost predicate Reads(g: Graph, pts: set<NodeID>, m: NodeID)
  {
    exists o :: o in pts && !g.inert(o) && m in Members(g, o)
  }

  /** What a node asks of the sets.  A load reads every object its pointer may address, with
      the field objects that stand for it, inert ones aside.  A store whose pointer has a
      target writes to all of them, and keeps what comes in, except of the one object it can
      write to if that may be updated strongly. */
  ghost predicate NodeHolds(g: Graph, s: Sets, n: LocID)
  {
    match g.stmt(n)
    case Addr(d, o) => o in Pts(s, d)
    case Copy(d, src) => Pts(s, src) <= Pts(s, d)
    case Phi(d, ops) => forall src {:trigger Pts(s, src)} :: src in ops ==> Pts(s, src) <= Pts(s, d)
    case Gep(d, src) => forall o: NodeID {:trigger g.field(n, o)} :: o in Pts(s, src) ==> g.field(n, o) in Pts(s, d)
    case Load(d, src) =>
      forall o: NodeID, m: NodeID {:trigger o in Pts(s, src), In(n, m)} ::
        o in Pts(s, src) && !g.inert(o) && (m == o || m in g.fields(o)) ==> Val(s, In(n, m)) <= Pts(s, d)
    case Assign(d, src) =>
      Pts(s, d) != {} ==>
        && (forall o: NodeID {:trigger Out(n, o)} ::
              o in Pts(s, d) && !g.inert(o) ==> Pts(s, src) <= Val(s, Out(n, o)))
        && (forall k: NodeID {:trigger Out(n, k)} ::
              !(Pts(s, d) == {k} && g.strong(k)) ==> Val(s, In(n, k)) <= Val(s, Out(n, k)))
    case _ => true
  }

  /** The set of `m` that leaves `n`: stores have an OUT set, other nodes pass on their IN set. */
  function From(g: Graph, n: LocID, m: NodeID): Cell
  {
    if g.stmt(n).Assign? then Out(n, m) else In(n, m)
  }

  ghost predicate Carries(g: Graph, e: Edge, m: NodeID)
    requires e.Indirect?
  {
    exists v :: v in e.pts && m in Members(g, v)
  }

  /** Along an indirect edge go the sets of its objects, with their field objects, from OUT at
      stores and from IN elsewhere; between parameters or returns the pointer's set. */
  ghost predicate EdgeHolds(g: Graph, s: Sets, e: Edge)
  {
    match e
    case Indirect(src, dst, pts) =>
      forall v: NodeID, m: NodeID {:trigger v in pts, In(dst, m)} :: v in pts && (m == v || m in g.fields(v)) ==>
        (if g.stmt(src).Assign? then Val(s, Out(src, m)) else Val(s, In(src, m))) <= Val(s, In(dst, m))
    case Direct(src, dst) =>
      g.stmt(src).Passes? && g.stmt(dst).Receives? ==> Pts(s, g.stmt(src).v) <= Pts(s, g.stmt(dst).v)
  }

  lemma GepMeans(g: Graph, s: Sets, n: LocID)
    requires g.stmt(n).Gep?
    ensures NodeHolds(g, s, n) <==> FieldsOf(g, n, Pts(s, g.stmt(n).src)) <= Pts(s, g.stmt(n).dst)
  {
    forall o | o in Pts(s, g.stmt(n).src)
      ensures g.field(n, o) in FieldsOf(g, n, Pts(s, g.stmt(n).src))
    {
    }
  }

  lemma LoadMeans(g: Graph, s: Sets, n: LocID)
    requires g.stmt(n).Load?
    ensures NodeHolds(g, s, n) <==> forall m {:trigger In(n, m)} ::
              Reads(g, Pts(s, g.stmt(n).src), m) ==> Val(s, In(n, m)) <= Pts(s, g.stmt(n).dst)
  {
    hide Val;
    if NodeHolds(g, s, n) {
      forall m | Reads(g, Pts(s, g.stmt(n).src), m)
        ensures Val(s, In(n, m)) <= Pts(s, g.stmt(n).dst)
      {
        var o :| o in Pts(s, g.stmt(n).src) && !g.inert(o) && m in Members(g, o);
      }
    } else {
      var o, m :| o in Pts(s, g.stmt(n).src) && !g.inert(o) && (m == o || m in g.fields(o))
                  && !(Val(s, In(n, m)) <= Pts(s, g.stmt(n).dst));
      assert m in Members(g, o);
      assert Reads(g, Pts(s, g.stmt(n).src), m);
    }
  }

  lemma IndirectMeans(g: Graph, s: Sets, e: Edge)
    requires e.Indirect?
    ensures EdgeHolds(g, s, e) <==> forall m {:trigger In(e.dst, m)} ::
              Carries(g, e, m) ==> Val(s, From(g, e.src, m)) <= Val(s, In(e.dst, m))
  {
    hide Val;
    if EdgeHolds(g, s, e) {
      forall m | Carries(g, e, m)
        ensures Val(s, From(g, e.src, m)) <= Val(s, In(e.dst, m))
      {
        var v :| v in e.pts && m in Members(g, v);
      }
    } else {
      var v, m :| v in e.pts && (m == v || m in g.fields(v))
                  && !((if g.stmt(e.src).Assign? then Val(s, Out(e.src, m)) else Val(s, In(e.src, m)))
                       <= Val(s, In(e.dst, m)));
      assert m in Members(g, v);
      assert Carries(g, e, m);
    }
  }

  ghost predicate Solved(g: Graph, s: Sets)
  {
    && (forall n {:trigger NodeHolds(g, s, n)} :: n in g.nodes ==> NodeHolds(g, s, n))
    && (forall e {:trigger EdgeHolds(g, s, e)} :: e in g.edges ==> EdgeHolds(g, s, e))
  }

  ghost predicate Within(s: Sets, t: Sets)
  {
    forall c :: Val(s, c) <= Val(t, c)
  }

  /** No more than any solution demands. */
  ghost predicate Justified(g: Graph, s: Sets)
  {
    forall sol {:trigger Solved(g, sol)} :: Solved(g, sol) ==> Within(s, sol)
  }

  // ---------------------------------------------------------------- calls

  /** The plain store after a call. */
  ghost function PlainNext(s: Sets, op: Op): Sets
  {
    if op.Moves() then Put(s, op.b, Val(s, op.b) + Val(s, op.a))
    else if op.AllOutFromIn? then
      var row, ins := Row(s.dfOut, op.loc), Row(s.dfIn, op.loc);
      s.(dfOut := s.dfOut[op.loc := map k | k in row.Keys + ins.Keys ::
                            Entry(row, k) + if Eligible(op, k) then Entry(ins, k) else {}])
    else if op.UnionTop? then Put(s, Top(op.key), Pts(s, op.key) + op.pts)
    else s
  }

  ghost function PlainAnswer(s: Sets, op: Op): bool
  {
    if op.Moves() then Grows(s, op.a, op.b)
    else if op.AllOutFromIn? then exists k :: Eligible(op, k) && Grows(s, In(op.loc, k), Out(op.loc, k))
    else if op.UnionTop? then !(op.pts <= Pts(s, op.key))
    else false
  }

  lemma PlainNextStep(s: Sets, op: Op)
    ensures PlainStep(s, op, PlainNext(s, op), PlainAnswer(s, op))
  {
  }

  /** A call on the incremental store has a counterpart on the plain one. */
  lemma Lockstep(s: Sets, i: Inc, sinks: Sinks, op: Op, j: Inc, q: bool) returns (t: Sets)
    requires Same(s, i.store) && Delivered(i, sinks) && Allowed(s, sinks, op) && IncStep(i, op, j, q)
    ensures PlainStep(s, op, t, q) && Same(t, j.store) && Delivered(j, NextSinks(sinks, op))
  {
    t := PlainNext(s, op);
    PlainNextStep(s, op);
    hide PlainNext, PlainAnswer, PlainStep, IncStep, Allowed, Delivered, Same;
    StepRefines(s, i, sinks, op, t, j, PlainAnswer(s, op), q);
  }

  ghost predicate IsSink(g: Graph, a: Cell, b: Cell)
  {
    || (b.In? && exists e :: e in g.edges && e.Indirect? && e.dst == b.loc && Carries(g, e, b.key)
                             && a == From(g, e.src, b.key))
    || (a.In? && a.loc in g.nodes && g.stmt(a.loc).Assign? && b == Out(a.loc, a.key))
    || (a.In? && a.loc in g.nodes && g.stmt(a.loc).Load? && b == Top(g.stmt(a.loc).dst))
  }

  /** Where the sets with flags go. */
  ghost function SinksOf(g: Graph): Sinks
  {
    iset p: (Cell, Cell) | IsSink(g, p.0, p.1)
  }

  lemma LoadAllowed(g: Graph, s: Sets, n: LocID, m: NodeID)
    requires WellFormed(g) && n in g.nodes && g.stmt(n).Load?
    ensures Allowed(s, SinksOf(g), TLVFromIn(In(n, m), Top(g.stmt(n).dst)))
  {
    forall b | (In(n, m), b) in SinksOf(g)
      ensures b == Top(g.stmt(n).dst)
    {
      OnlySink(g, n, m, b);
    }
  }

  lemma OnlySink(g: Graph, n: LocID, m: NodeID, b: Cell)
    requires WellFormed(g) && n in g.nodes && IsSink(g, In(n, m), b)
    ensures g.stmt(n).Load? ==> b == Top(g.stmt(n).dst)
    ensures g.stmt(n).Assign? ==> b == Out(n, m)
  {
    if e :| e in g.edges && e.Indirect? && b.In? && e.dst == b.loc && In(n, m) == From(g, e.src, b.key) {
      assert EdgeOk(g, e);
    }
  }

  lemma UpdateAllowed(g: Graph, s: Sets, n: LocID, op: Op)
    requires WellFormed(g) && n in g.nodes && g.stmt(n).Assign? && op.AllOutFromIn? && op.loc == n
    ensures Allowed(s, SinksOf(g), op)
  {
    forall k, b | (In(n, k), b) in SinksOf(g)
      ensures b == Out(n, k)
    {
      OnlySink(g, n, k, b);
    }
  }

  lemma EdgeAllowed(g: Graph, s: Sets, e: Edge, m: NodeID)
    requires e in g.edges && e.Indirect? && Carries(g, e, m)
    ensures g.stmt(e.src).Assign? ==> Allowed(s, SinksOf(g), InFromOut(Out(e.src, m), In(e.dst, m)))
    ensures !g.stmt(e.src).Assign? ==> Allowed(s, SinksOf(g), InFromIn(In(e.src, m), In(e.dst, m)))
  {
    assert IsSink(g, From(g, e.src, m), In(e.dst, m));
  }

  /** Flags of OUT sets may go once the edges of the node have been served. */
  lemma ClearAllowed(g: Graph, s: Sets, n: LocID)
    requires forall e :: e in g.edges && e.src == n && g.stmt(n).Assign? ==> EdgeHolds(g, s, e)
    ensures Allowed(s, SinksOf(g), ClearOutFlags(n))
  {
    forall k, b | (Out(n, k), b) in SinksOf(g)
      ensures Val(s, Out(n, k)) <= Val(s, b)
    {
      assert IsSink(g, Out(n, k), b);
      var e :| e in g.edges && e.Indirect? && e.dst == b.loc && Carries(g, e, b.key)
               && Out(n, k) == From(g, e.src, b.key);
      assert EdgeHolds(g, s, e) && In(e.dst, b.key) == b;
    }
  }

  // ---------------------------------------------------------------- what calls do

  /** Sets grew, only in `where`, by no more than every solution demands; `changed` tells
      whether any did. */
  ghost predicate Moved(g: Graph, s: Sets, t: Sets, where: iset<Cell>, changed: bool)
  {
    && Within(s, t)
    && (forall c :: c !in where ==> Val(t, c) == Val(s, c))
    && (changed <==> !Same(s, t))
    && (forall sol {:trigger Solved(g, sol)} :: Solved(g, sol) && Within(s, sol) ==> Within(t, sol))
  }

  lemma MovedNot(g: Graph, s: Sets, where: iset<Cell>)
    ensures Moved(g, s, s, where, false)
  {
  }

  lemma MovedOn(g: Graph, s: Sets, t: Sets, u: Sets, where: iset<Cell>, c: bool, d: bool)
    requires Moved(g, s, t, where, c) && Moved(g, t, u, where, d)
    ensures Moved(g, s, u, where, c || d)
  {
    hide Val, Solved;
    if Same(s, u) {
      forall x
        ensures Val(s, x) == Val(t, x)
      {
        assert Val(s, x) <= Val(t, x) <= Val(u, x);
      }
    }
  }

  lemma FlowMoves(g: Graph, s: Sets, a: Cell, b: Cell, t: Sets, where: iset<Cell>, changed: bool)
    requires Flowed(s, a, b, t) && changed == Grows(s, a, b) && b in where
    requires forall sol {:trigger Solved(g, sol)} :: Solved(g, sol) && Within(s, sol) ==> Val(sol, a) <= Val(sol, b)
    ensures Moved(g, s, t, where, changed) && Val(s, a) <= Val(t, b)
  {
    hide Val, Solved;
    if Same(s, t) {
      assert Val(s, b) == Val(t, b);
    }
    forall sol | Solved(g, sol) && Within(s, sol)
      ensures Within(t, sol)
    {
      forall c
        ensures Val(t, c) <= Val(sol, c)
      {
        assert Val(s, c) <= Val(sol, c) && Val(s, a) <= Val(sol, a);
      }
    }
  }

  lemma UnionTopMoves(g: Graph, s: Sets, key: NodeID, pts: set<NodeID>, t: Sets, changed: bool)
    requires PlainStep(s, UnionTop(key, pts), t, changed)
    requires forall sol {:trigger Solved(g, sol)} :: Solved(g, sol) && Within(s, sol) ==> pts <= Pts(sol, key)
    ensures Moved(g, s, t, iset{Top(key)}, changed) && pts <= Pts(t, key)
  {
    var b := Top(key);
    assert forall c :: Val(t, c) == if c == b then Val(s, c) + pts else Val(s, c);
    hide Val, Solved;
    if Same(s, t) {
      assert Val(s, b) == Val(t, b);
    }
    forall sol | Solved(g, sol) && Within(s, sol)
      ensures Within(t, sol)
    {
      forall c
        ensures Val(t, c) <= Val(sol, c)
      {
        assert Val(s, c) <= Val(sol, c);
      }
    }
  }

  // ---------------------------------------------------------------- what visiting a node does

  /** Cells a visit of the node itself writes. */
  ghost function Writes(g: Graph, n: LocID): iset<Cell>
  {
    match g.stmt(n)
    case Assign(_, _) => iset c: Cell | c.Out? && c.loc == n
    case Receives(_) => iset{}
    case _ => iset c: Cell | c.Top? && Defines(g.stmt(n), c.key)
  }

  lemma WritesTop(g: Graph, n: LocID)
    requires g.stmt(n).Addr? || g.stmt(n).Copy? || g.stmt(n).Phi? || g.stmt(n).Gep? || g.stmt(n).Load?
    ensures Writes(g, n) == iset{Top(g.stmt(n).dst)}
  {
  }

  lemma OperandsKept(s: Sets, t: Sets, dst: NodeID, src: NodeID, done: set<NodeID>)
    requires Pts(s, src) <= Pts(t, dst) && Pts(s, dst) <= Pts(t, dst)
    requires forall v :: v != dst ==> Pts(t, v) == Pts(s, v)
    requires forall v {:trigger Pts(s, v)} :: v in done ==> Pts(s, v) <= Pts(s, dst)
    ensures forall v {:trigger Pts(t, v)} :: v in done + {src} ==> Pts(t, v) <= Pts(t, dst)
  {
    forall v | v in done + {src}
      ensures Pts(t, v) <= Pts(t, dst)
    {
      if v != dst && v in done {
        assert Pts(s, v) <= Pts(s, dst);
      }
    }
  }

  /** A load has served the objects of `done`. */
  ghost predicate Loaded(g: Graph, s: Sets, n: LocID, done: set<NodeID>)
    requires g.stmt(n).Load?
  {
    forall o, m {:trigger o in done, In(n, m)} :: o in done && !g.inert(o) && m in Members(g, o) ==>
      Val(s, In(n, m)) <= Pts(s, g.stmt(n).dst)
  }

  lemma LoadStill(g: Graph, s: Sets, t: Sets, n: LocID, changed: bool)
    requires g.stmt(n).Load? && StmtOk(g, g.stmt(n)) && Moved(g, s, t, Writes(g, n), changed)
    ensures Pts(t, g.stmt(n).src) == Pts(s, g.stmt(n).src)
    ensures forall m {:trigger In(n, m)} :: Val(t, In(n, m)) == Val(s, In(n, m))
  {
    WritesTop(g, n);
    hide Val;
  }

  ghost predicate MembersLoaded(g: Graph, s: Sets, n: LocID, members: set<NodeID>)
    requires g.stmt(n).Load?
  {
    forall m {:trigger In(n, m)} :: m in members ==> Val(s, In(n, m)) <= Pts(s, g.stmt(n).dst)
  }

  lemma NoMembersLoaded(g: Graph, s: Sets, n: LocID)
    requires g.stmt(n).Load?
    ensures MembersLoaded(g, s, n, {})
  {
  }

  lemma MembersMore(g: Graph, s: Sets, t: Sets, n: LocID, grew: bool, done: set<NodeID>, m: NodeID)
    requires g.stmt(n).Load? && Moved(g, s, t, Writes(g, n), grew) && MembersLoaded(g, s, n, done)
    requires Val(t, In(n, m)) <= Pts(t, g.stmt(n).dst)
    ensures MembersLoaded(g, t, n, done + {m})
  {
    WritesTop(g, n);
    hide Val;
    assert Val(s, Top(g.stmt(n).dst)) <= Val(t, Top(g.stmt(n).dst));
  }

  lemma LoadedStays(g: Graph, s: Sets, t: Sets, n: LocID, done: set<NodeID>, changed: bool)
    requires g.stmt(n).Load? && Moved(g, s, t, Writes(g, n), changed) && Loaded(g, s, n, done)
    ensures Loaded(g, t, n, done)
  {
    WritesTop(g, n);
    hide Val;
    assert Val(s, Top(g.stmt(n).dst)) <= Val(t, Top(g.stmt(n).dst));
  }

  lemma LoadedMore(g: Graph, s: Sets, n: LocID, done: set<NodeID>, o: NodeID)
    requires g.stmt(n).Load? && Loaded(g, s, n, done)
    requires !g.inert(o) ==> MembersLoaded(g, s, n, Members(g, o))
    ensures Loaded(g, s, n, done + {o})
  {
  }

  lemma LoadedHolds(g: Graph, s: Sets, n: LocID)
    requires g.stmt(n).Load? && Loaded(g, s, n, Pts(s, g.stmt(n).src))
    ensures NodeHolds(g, s, n)
  {
  }

  lemma AddrDemands(g: Graph, s: Sets, n: LocID)
    requires n in g.nodes && g.stmt(n).Addr?
    ensures forall sol {:trigger Solved(g, sol)} :: Solved(g, sol) && Within(s, sol) ==>
              {g.stmt(n).obj} <= Pts(sol, g.stmt(n).dst)
  {
    forall sol | Solved(g, sol)
      ensures {g.stmt(n).obj} <= Pts(sol, g.stmt(n).dst)
    {
      assert NodeHolds(g, sol, n);
    }
  }

  lemma CopyDemands(g: Graph, s: Sets, n: LocID, src: NodeID)
    requires n in g.nodes && ((g.stmt(n).Copy? && src == g.stmt(n).src) || (g.stmt(n).Phi? && src in g.stmt(n).ops))
    ensures forall sol {:trigger Solved(g, sol)} :: Solved(g, sol) && Within(s, sol) ==>
              Pts(s, src) <= Pts(sol, g.stmt(n).dst)
  {
    forall sol | Solved(g, sol) && Within(s, sol)
      ensures Pts(s, src) <= Pts(sol, g.stmt(n).dst)
    {
      assert NodeHolds(g, sol, n);
      assert Val(s, Top(src)) <= Val(sol, Top(src));
      assert Pts(sol, src) <= Pts(sol, g.stmt(n).dst);
    }
  }

  lemma GepDemands(g: Graph, s: Sets, n: LocID)
    requires n in g.nodes && g.stmt(n).Gep?
    ensures forall sol {:trigger Solved(g, sol)} :: Solved(g, sol) && Within(s, sol) ==>
              FieldsOf(g, n, Pts(s, g.stmt(n).src)) <= Pts(sol, g.stmt(n).dst)
  {
    forall sol | Solved(g, sol) && Within(s, sol)
      ensures FieldsOf(g, n, Pts(s, g.stmt(n).src)) <= Pts(sol, g.stmt(n).dst)
    {
      assert NodeHolds(g, sol, n);
      var c := Top(g.stmt(n).src);
      assert Val(s, c) <= Val(sol, c);
      assert FieldsOf(g, n, Val(s, c)) <= FieldsOf(g, n, Val(sol, c));
    }
  }

  lemma LoadDemands(g: Graph, s: Sets, n: LocID, m: NodeID)
    requires n in g.nodes && g.stmt(n).Load? && Reads(g, Pts(s, g.stmt(n).src), m)
    ensures forall sol {:trigger Solved(g, sol)} :: Solved(g, sol) && Within(s, sol) ==>
              Val(sol, In(n, m)) <= Val(sol, Top(g.stmt(n).dst))
  {
    forall sol | Solved(g, sol) && Within(s, sol)
      ensures Val(sol, In(n, m)) <= Val(sol, Top(g.stmt(n).dst))
    {
      assert NodeHolds(g, sol, n);
      var c := Top(g.stmt(n).src);
      assert Val(s, c) <= Val(sol, c);
      var o :| o in Pts(s, g.stmt(n).src) && !g.inert(o) && m in Members(g, o);
      assert Reads(g, Pts(sol, g.stmt(n).src), m);
    }
  }

  lemma AssignDemands(g: Graph, s: Sets, n: LocID, o: NodeID)
    requires n in g.nodes && g.stmt(n).Assign? && o in Pts(s, g.stmt(n).dst) && !g.inert(o)
    ensures forall sol {:trigger Solved(g, sol)} :: Solved(g, sol) && Within(s, sol) ==>
              Val(sol, Top(g.stmt(n).src)) <= Val(sol, Out(n, o))
  {
    forall sol | Solved(g, sol) && Within(s, sol)
      ensures Val(sol, Top(g.stmt(n).src)) <= Val(sol, Out(n, o))
    {
      assert NodeHolds(g, sol, n);
      var c := Top(g.stmt(n).dst);
      assert Val(s, c) <= Val(sol, c);
    }
  }

  /** A store has written to the objects of `done`. */
  ghost predicate Stored(g: Graph, s: Sets, n: LocID, done: set<NodeID>)
    requires g.stmt(n).Assign?
  {
    forall o {:trigger Out(n, o)} :: o in done && !g.inert(o) ==> Pts(s, g.stmt(n).src) <= Val(s, Out(n, o))
  }

  lemma AssignStill(g: Graph, s: Sets, t: Sets, n: LocID, changed: bool)
    requires g.stmt(n).Assign? && Moved(g, s, t, Writes(g, n), changed)
    ensures Pts(t, g.stmt(n).src) == Pts(s, g.stmt(n).src) && Pts(t, g.stmt(n).dst) == Pts(s, g.stmt(n).dst)
    ensures forall m {:trigger In(n, m)} :: Val(t, In(n, m)) == Val(s, In(n, m))
    ensures forall m {:trigger Out(n, m)} :: Val(s, Out(n, m)) <= Val(t, Out(n, m))
  {
    hide Val;
  }

  lemma NothingStored(g: Graph, s: Sets, n: LocID)
    requires g.stmt(n).Assign?
    ensures Stored(g, s, n, {}) && (Pts(s, g.stmt(n).src) == {} ==> Stored(g, s, n, Pts(s, g.stmt(n).dst)))
  {
  }

  lemma StoredMore(g: Graph, s: Sets, t: Sets, n: LocID, changed: bool, done: set<NodeID>, o: NodeID)
    requires g.stmt(n).Assign? && Moved(g, s, t, Writes(g, n), changed) && Stored(g, s, n, done)
    requires !g.inert(o) ==> Pts(t, g.stmt(n).src) <= Val(t, Out(n, o))
    ensures Stored(g, t, n, done + {o})
  {
    AssignStill(g, s, t, n, changed);
    hide Val, Moved;
  }

  lemma StoreHolds(g: Graph, s: Sets, t: Sets, n: LocID, changed: bool)
    requires g.stmt(n).Assign? && Moved(g, s, t, Writes(g, n), changed)
    requires Stored(g, s, n, Pts(s, g.stmt(n).dst))
    requires forall k: NodeID {:trigger Out(n, k)} :: !(Pts(s, g.stmt(n).dst) == {k} && g.strong(k)) ==>
               Val(s, In(n, k)) <= Val(t, Out(n, k))
    ensures NodeHolds(g, t, n)
  {
    AssignStill(g, s, t, n, changed);
    hide Val, Moved;
  }

  /** The call a store makes to move its IN sets: strong if it may kill its only target. */
  ghost predicate UpdateCall(g: Graph, pts: set<NodeID>, n: LocID, op: Op)
  {
    && op.AllOutFromIn? && op.loc == n
    && forall k: NodeID {:trigger Eligible(op, k)} :: Eligible(op, k) <==> !(pts == {k} && g.strong(k))
  }

  /** A larger points-to set of the pointer written through kills no more. */
  lemma UpdateDemands(g: Graph, s: Sets, n: LocID, k: NodeID)
    requires n in g.nodes && g.stmt(n).Assign? && Pts(s, g.stmt(n).dst) != {}
    requires !(Pts(s, g.stmt(n).dst) == {k} && g.strong(k))
    ensures forall sol {:trigger Solved(g, sol)} :: Solved(g, sol) && Within(s, sol) ==>
              Val(s, In(n, k)) <= Val(sol, Out(n, k))
  {
    forall sol | Solved(g, sol) && Within(s, sol)
      ensures Val(s, In(n, k)) <= Val(sol, Out(n, k))
    {
      assert NodeHolds(g, sol, n);
      var c := Top(g.stmt(n).dst);
      assert Val(s, c) <= Val(sol, c) && Val(s, In(n, k)) <= Val(sol, In(n, k));
      assert !(Val(sol, c) == {k} && g.strong(k));
    }
  }

  lemma UpdateMoves(g: Graph, s: Sets, n: LocID, op: Op, t: Sets, changed: bool)
    requires n in g.nodes && g.stmt(n).Assign? && Pts(s, g.stmt(n).dst) != {}
    requires UpdateCall(g, Pts(s, g.stmt(n).dst), n, op) && PlainStep(s, op, t, changed)
    ensures Moved(g, s, t, Writes(g, n), changed)
    ensures forall k: NodeID {:trigger Out(n, k)} :: Val(t, Out(n, k)) ==
              Val(s, Out(n, k)) + if Pts(s, g.stmt(n).dst) == {k} && g.strong(k) then {} else Val(s, In(n, k))
  {
    UpdateStep(s, n, op, t, changed);
    hide Val, Solved, PlainStep, Same, Grows, Pts, Eligible;
    forall sol | Solved(g, sol) && Within(s, sol)
      ensures Within(t, sol)
    {
      UpdateWithin(g, s, n, op, t, sol);
    }
  }

  lemma UpdateStep(s: Sets, n: LocID, op: Op, t: Sets, changed: bool)
    requires op.AllOutFromIn? && op.loc == n && PlainStep(s, op, t, changed)
    ensures Within(s, t) && (forall c: Cell :: !(c.Out? && c.loc == n) ==> Val(t, c) == Val(s, c))
    ensures changed <==> !Same(s, t)
    ensures forall k {:trigger Eligible(op, k)} :: Eligible(op, k) ==>
               Val(t, Out(n, k)) == Val(s, Out(n, k)) + Val(s, In(n, k))
    ensures forall k {:trigger Eligible(op, k)} :: !Eligible(op, k) ==> Val(t, Out(n, k)) == Val(s, Out(n, k))
  {
    assert forall c :: Val(t, c) == if c.Out? && c.loc == n && Eligible(op, c.key)
                                    then Val(s, c) + Val(s, In(n, c.key)) else Val(s, c);
    assert changed == exists k :: Eligible(op, k) && Grows(s, In(n, k), Out(n, k));
    hide Val, PlainStep;
    if changed {
      var k :| Eligible(op, k) && Grows(s, In(n, k), Out(n, k));
      assert Val(t, Out(n, k)) != Val(s, Out(n, k));
    } else {
      forall c
        ensures Val(s, c) == Val(t, c)
      {
        if c.Out? && c.loc == n && Eligible(op, c.key) {
          assert !Grows(s, In(n, c.key), c);
        }
      }
    }
  }

  lemma UpdateWithin(g: Graph, s: Sets, n: LocID, op: Op, t: Sets, sol: Sets)
    requires n in g.nodes && g.stmt(n).Assign? && Pts(s, g.stmt(n).dst) != {}
    requires UpdateCall(g, Pts(s, g.stmt(n).dst), n, op)
    requires forall c: Cell :: !(c.Out? && c.loc == n) ==> Val(t, c) == Val(s, c)
    requires forall k {:trigger Eligible(op, k)} :: Eligible(op, k) ==>
               Val(t, Out(n, k)) == Val(s, Out(n, k)) + Val(s, In(n, k))
    requires forall k {:trigger Eligible(op, k)} :: !Eligible(op, k) ==> Val(t, Out(n, k)) == Val(s, Out(n, k))
    requires Solved(g, sol) && Within(s, sol)
    ensures Within(t, sol)
  {
    hide Val, Solved, Eligible;
    forall c
      ensures Val(t, c) <= Val(sol, c)
    {
      assert Val(s, c) <= Val(sol, c);
      if c.Out? && c.loc == n && Eligible(op, c.key) {
        UpdateDemands(g, s, n, c.key);
        assert c == Out(n, c.key);
      }
    }
  }

  // ---------------------------------------------------------------- what is left to be done

  function OutEdges(g: Graph, n: LocID): set<Edge>
  {
    set e | e in g.edges && e.src == n
  }

  /** `e` puts its target into the worklist whether or not a set grows. */
  predicate Wakes(g: Graph, e: Edge)
  {
    e.Direct? && !g.stmt(e.src).Passes?
  }

  /** `n` will be visited: it is queued, or an edge still to be followed leads to it, or a
      queued node that always passes its visit on. */
  ghost predicate Awaits(g: Graph, work: set<LocID>, todo: set<Edge>, n: LocID)
  {
    || n in work
    || (exists e :: e in todo && e.Direct? && e.dst == n)
    || (exists e :: e in g.edges && e.Direct? && e.dst == n && e.src in work && g.stmt(e.src).Receives?)
  }

  ghost predicate EdgeAwaits(g: Graph, work: set<LocID>, todo: set<Edge>, e: Edge)
  {
    || (e.Indirect? && g.stmt(e.src).Region? && e.src in work)
    || (e.Direct? && g.stmt(e.src).Passes? && Awaits(g, work, todo, e.src))
  }

  /** Whatever does not hold yet is going to be looked at; `todo` are edges of the node being
      visited.  Edges of stores hold already. */
  ghost predicate Settled(g: Graph, s: Sets, work: set<LocID>, todo: set<Edge>)
  {
    && (forall n {:trigger NodeHolds(g, s, n)} :: n in g.nodes ==> NodeHolds(g, s, n) || Awaits(g, work, todo, n))
    && (forall e {:trigger EdgeHolds(g, s, e)} ::
          e in g.edges ==> EdgeHolds(g, s, e) || e in todo || EdgeAwaits(g, work, todo, e))
  }

  /** Nothing left to do: a solution. */
  lemma SettledSolved(g: Graph, s: Sets)
    requires Settled(g, s, {}, {})
    ensures Solved(g, s)
  {
  }

  /** The visit continues along the edges even if nothing changed at the node. */
  predicate Always(st: Stmt)
  {
    st.Passes? || st.Receives? || st.Null? || st.Region?
  }

  lemma NodeStays(g: Graph, s: Sets, t: Sets, n: LocID, changed: bool, x: LocID)
    requires WellFormed(g) && n in g.nodes && x in g.nodes && x != n
    requires Moved(g, s, t, Writes(g, n), changed) && NodeHolds(g, s, x)
    ensures NodeHolds(g, t, x) || (changed && Direct(n, x) in OutEdges(g, n))
  {
    if v :| Uses(g.stmt(x), v) && Defines(g.stmt(n), v) && Pts(s, v) != Pts(t, v) {
      assert Direct(n, x) in g.edges;
      assert changed;
    } else {
      UnusedStays(g, s, t, n, changed, x);
    }
  }

  lemma UnusedStays(g: Graph, s: Sets, t: Sets, n: LocID, changed: bool, x: LocID)
    requires Moved(g, s, t, Writes(g, n), changed) && NodeHolds(g, s, x) && x != n
    requires forall v :: Uses(g.stmt(x), v) && Defines(g.stmt(n), v) ==> Pts(s, v) == Pts(t, v)
    ensures NodeHolds(g, t, x)
  {
    forall v | Uses(g.stmt(x), v)
      ensures Pts(t, v) == Pts(s, v)
    {
      assert Top(v) in Writes(g, n) ==> Defines(g.stmt(n), v);
    }
    forall m
      ensures Val(t, In(x, m)) == Val(s, In(x, m))
    {
      assert In(x, m) !in Writes(g, n);
    }
    HoldsMore(g, s, t, x);
  }

  /** An equation survives growth if the sets it reads stay the same. */
  lemma HoldsMore(g: Graph, s: Sets, t: Sets, x: LocID)
    requires NodeHolds(g, s, x) && Within(s, t)
    requires forall v :: Uses(g.stmt(x), v) ==> Pts(t, v) == Pts(s, v)
    requires forall m :: Val(t, In(x, m)) == Val(s, In(x, m))
    ensures NodeHolds(g, t, x)
  {
    hide Val;
    match g.stmt(x)
    case Addr(d, o) =>
      assert Val(s, Top(d)) <= Val(t, Top(d));
    case Copy(d, src) =>
      assert Val(s, Top(d)) <= Val(t, Top(d)) && Uses(g.stmt(x), src);
    case Phi(d, ops) =>
      forall src | src in ops
        ensures Pts(t, src) <= Pts(t, d)
      {
        assert Val(s, Top(d)) <= Val(t, Top(d)) && Uses(g.stmt(x), src);
        assert Pts(s, src) <= Pts(s, d);
      }
    case Gep(d, src) =>
      assert Val(s, Top(d)) <= Val(t, Top(d)) && Uses(g.stmt(x), src);
      GepMeans(g, s, x);
      GepMeans(g, t, x);
    case Load(d, src) =>
      assert Val(s, Top(d)) <= Val(t, Top(d)) && Uses(g.stmt(x), src);
      LoadMeans(g, s, x);
      LoadMeans(g, t, x);
    case Assign(d, src) =>
      assert Uses(g.stmt(x), d) && Uses(g.stmt(x), src);
      assert Pts(t, d) == Pts(s, d) && Pts(t, src) == Pts(s, src);
      forall k: NodeID
        ensures Val(s, Out(x, k)) <= Val(t, Out(x, k))
      {
      }
    case _ =>
  }

  /** After visiting `n` itself, its edges remain to be followed if anything changed. */
  lemma VisitSettles(g: Graph, s: Sets, t: Sets, work: set<LocID>, n: LocID, grew: bool, flag: bool)
    requires WellFormed(g) && n in g.nodes && n in work && Settled(g, s, work, {})
    requires Moved(g, s, t, Writes(g, n), grew) && NodeHolds(g, t, n) && flag == (grew || Always(g.stmt(n)))
    ensures Settled(g, t, work - {n}, if flag then OutEdges(g, n) else {})
  {
    var rest, todo := work - {n}, if flag then OutEdges(g, n) else {};
    hide NodeHolds, EdgeHolds, Moved, Writes;
    forall x | x in g.nodes
      ensures NodeHolds(g, t, x) || Awaits(g, rest, todo, x)
    {
      if x != n && NodeHolds(g, s, x) {
        NodeStays(g, s, t, n, grew, x);
      } else if x != n {
        VisitAwaits(g, work, n, flag, x);
      }
    }
    forall e | e in g.edges
      ensures EdgeHolds(g, t, e) || e in todo || EdgeAwaits(g, rest, todo, e)
    {
      VisitEdge(g, s, t, work, n, grew, flag, e);
    }
  }

  lemma VisitAwaits(g: Graph, work: set<LocID>, n: LocID, flag: bool, x: LocID)
    requires Awaits(g, work, {}, x) && x != n && (g.stmt(n).Receives? ==> flag)
    ensures Awaits(g, work - {n}, if flag then OutEdges(g, n) else {}, x)
  {
    if x !in work {
      var e :| e in g.edges && e.Direct? && e.dst == x && e.src in work && g.stmt(e.src).Receives?;
      if e.src == n {
        assert e in OutEdges(g, n);
      }
    }
  }

  lemma VisitEdge(g: Graph, s: Sets, t: Sets, work: set<LocID>, n: LocID, grew: bool, flag: bool, e: Edge)
    requires WellFormed(g) && n in g.nodes && n in work && Settled(g, s, work, {}) && e in g.edges
    requires Moved(g, s, t, Writes(g, n), grew) && flag == (grew || Always(g.stmt(n)))
    ensures var todo := if flag then OutEdges(g, n) else {};
            EdgeHolds(g, t, e) || e in todo || EdgeAwaits(g, work - {n}, todo, e)
  {
    var rest, todo := work - {n}, if flag then OutEdges(g, n) else {};
    assert EdgeOk(g, e);
    if e.src == n && flag {
      assert e in todo;
    } else if EdgeAwaits(g, work, {}, e) {
      if e.Direct? && e.src != n {
        VisitAwaits(g, work, n, flag, e.src);
      }
    } else {
      assert EdgeHolds(g, s, e);
      match e
      case Indirect(src, dst, _) =>
        forall m | Carries(g, e, m)
          ensures Val(t, From(g, src, m)) <= Val(t, In(dst, m))
        {
          assert From(g, src, m) !in Writes(g, n) || (src == n && !grew);
          assert Val(s, In(dst, m)) <= Val(t, In(dst, m));
        }
      case Direct(src, dst) =>
        if g.stmt(src).Passes? && !EdgeHolds(g, t, e) {
          var v := g.stmt(src).v;
          assert Val(s, Top(g.stmt(dst).v)) <= Val(t, Top(g.stmt(dst).v));
          assert Top(v) in Writes(g, n) && Uses(g.stmt(src), v);
          assert Direct(n, src) in OutEdges(g, n);
        }
    }
  }

  // ---------------------------------------------------------------- following an edge

  /** Cells that following an edge writes. */
  ghost function Targets(g: Graph, e: Edge): iset<Cell>
  {
    match e
    case Indirect(_, dst, _) => iset c: Cell | c.In? && c.loc == dst
    case Direct(src, dst) =>
      if g.stmt(src).Passes? && g.stmt(dst).Receives? then iset{Top(g.stmt(dst).v)} else iset{}
  }

  /** The target is queued if a set grew, and in any case behind edges that always wake it. */
  ghost predicate Followed(g: Graph, e: Edge, work: set<LocID>, grew: bool, after: set<LocID>)
  {
    after == if grew || Wakes(g, e) then work + {e.dst} else work
  }

  lemma FollowSettles(g: Graph, s: Sets, t: Sets, work: set<LocID>, todo: set<Edge>, e: Edge, grew: bool,
                      after: set<LocID>)
    requires WellFormed(g) && e in g.edges && e in todo && Settled(g, s, work, todo)
    requires Moved(g, s, t, Targets(g, e), grew) && EdgeHolds(g, t, e) && Followed(g, e, work, grew, after)
    ensures Settled(g, t, after, todo - {e})
  {
    hide NodeHolds, EdgeHolds, Moved, Targets, Followed;
    forall x | x in g.nodes
      ensures NodeHolds(g, t, x) || Awaits(g, after, todo - {e}, x)
    {
      if NodeHolds(g, s, x) {
        NodeStaysFollowing(g, s, t, work, todo, e, grew, after, x);
      } else {
        FollowAwaits(g, work, todo, e, grew, after, x);
        if g.stmt(x).Receives? {
          ReceivesHolds(g, t, x);
        }
      }
    }
    forall d | d in g.edges
      ensures EdgeHolds(g, t, d) || d in todo - {e} || EdgeAwaits(g, after, todo - {e}, d)
    {
      FollowEdge(g, s, t, work, todo, e, grew, after, d);
    }
  }

  lemma ReceivesHolds(g: Graph, s: Sets, x: LocID)
    requires g.stmt(x).Receives?
    ensures NodeHolds(g, s, x)
  {
  }

  lemma FollowAwaits(g: Graph, work: set<LocID>, todo: set<Edge>, e: Edge, grew: bool, after: set<LocID>, x: LocID)
    requires WellFormed(g) && e in g.edges && Followed(g, e, work, grew, after) && Awaits(g, work, todo, x)
    ensures Awaits(g, after, todo - {e}, x) || g.stmt(x).Receives?
  {
    assert EdgeOk(g, e);
    if d :| d in todo && d.Direct? && d.dst == x {
      assert d == e || d in todo - {e};
    }
  }

  lemma NodeStaysFollowing(g: Graph, s: Sets, t: Sets, work: set<LocID>, todo: set<Edge>, e: Edge, grew: bool,
                           after: set<LocID>, x: LocID)
    requires WellFormed(g) && e in g.edges && Followed(g, e, work, grew, after) && x in g.nodes
    requires Moved(g, s, t, Targets(g, e), grew) && NodeHolds(g, s, x)
    ensures NodeHolds(g, t, x) || Awaits(g, after, todo - {e}, x)
  {
    assert EdgeOk(g, e);
    if v :| Uses(g.stmt(x), v) && Pts(t, v) != Pts(s, v) {
      assert Top(v) in Targets(g, e) && grew;
      assert Defines(g.stmt(e.dst), v);
      assert Direct(e.dst, x) in g.edges;
    } else if m :| Val(t, In(x, m)) != Val(s, In(x, m)) {
      assert In(x, m) in Targets(g, e) && grew;
    } else {
      HoldsMore(g, s, t, x);
    }
  }

  lemma FollowEdge(g: Graph, s: Sets, t: Sets, work: set<LocID>, todo: set<Edge>, e: Edge, grew: bool,
                   after: set<LocID>, d: Edge)
    requires WellFormed(g) && e in g.edges && e in todo && Settled(g, s, work, todo) && d in g.edges
    requires Moved(g, s, t, Targets(g, e), grew) && EdgeHolds(g, t, e) && Followed(g, e, work, grew, after)
    ensures EdgeHolds(g, t, d) || d in todo - {e} || EdgeAwaits(g, after, todo - {e}, d)
  {
    assert EdgeOk(g, e) && EdgeOk(g, d);
    if d == e || d in todo {
    } else if EdgeAwaits(g, work, todo, d) {
      if d.Direct? {
        FollowAwaits(g, work, todo, e, grew, after, d.src);
      }
    } else {
      assert EdgeHolds(g, s, d);
      match d
      case Indirect(src, dst, _) =>
        if !g.stmt(src).Region? || !(e.Indirect? && e.dst == src && grew) {
          forall m | Carries(g, d, m)
            ensures Val(t, From(g, src, m)) <= Val(t, In(dst, m))
          {
            assert Val(s, From(g, src, m)) <= Val(s, In(dst, m)) <= Val(t, In(dst, m));
            assert From(g, src, m) !in Targets(g, e) || !grew;
          }
        }
      case Direct(src, dst) =>
        if g.stmt(src).Passes? && !EdgeHolds(g, t, d) {
          var v := g.stmt(src).v;
          assert Val(s, Top(g.stmt(dst).v)) <= Val(t, Top(g.stmt(dst).v));
          assert Top(v) in Targets(g, e) && grew && Uses(g.stmt(src), v);
          assert Defines(g.stmt(e.dst), v) && Direct(e.dst, src) in g.edges && e.dst in after;
        }
    }
  }

  lemma MovedJustified(g: Graph, s: Sets, t: Sets, where: iset<Cell>, changed: bool)
    requires Justified(g, s) && Moved(g, s, t, where, changed)
    ensures Justified(g, t)
  {
  }

  lemma MovedWithin(g: Graph, s: Sets, t: Sets, u: Sets, where: iset<Cell>, c: bool, d: bool)
    requires Within(s, t) && c == !Same(s, t) && Moved(g, t, u, where, d)
    ensures Within(s, u) && (c || d) == !Same(s, u)
  {
    hide Val;
    forall x
      ensures Val(s, x) <= Val(u, x)
    {
      assert Val(s, x) <= Val(t, x) <= Val(u, x);
    }
    if Same(s, u) {
      forall x
        ensures Val(s, x) == Val(t, x) == Val(u, x)
      {
        assert Val(s, x) <= Val(t, x) <= Val(u, x);
      }
    }
  }

  /** What leaves the source of `e` stays the same while `e` is followed. */
  ghost predicate SourceStill(g: Graph, s: Sets, t: Sets, e: Edge)
  {
    forall m {:trigger From(g, e.src, m)} :: Val(t, From(g, e.src, m)) == Val(s, From(g, e.src, m))
  }

  /** The sets of `vars` and their members have reached the target of `e`. */
  ghost predicate Arrived(g: Graph, s: Sets, t: Sets, e: Edge, vars: set<NodeID>)
  {
    forall v, m {:trigger v in vars, In(e.dst, m)} :: v in vars && m in Members(g, v) ==>
      Val(s, From(g, e.src, m)) <= Val(t, In(e.dst, m))
  }

  ghost predicate MembersArrived(g: Graph, s: Sets, t: Sets, e: Edge, members: set<NodeID>)
  {
    forall m {:trigger In(e.dst, m)} :: m in members ==> Val(s, From(g, e.src, m)) <= Val(t, In(e.dst, m))
  }

  lemma NoneArrived(g: Graph, s: Sets, e: Edge)
    ensures SourceStill(g, s, s, e) && Arrived(g, s, s, e, {}) && MembersArrived(g, s, s, e, {})
  {
  }

  lemma MemberArrives(g: Graph, s: Sets, t: Sets, u: Sets, e: Edge, done: set<NodeID>, m: NodeID)
    requires SourceStill(g, s, t, e) && MembersArrived(g, s, t, e, done)
    requires Flowed(t, From(g, e.src, m), In(e.dst, m), u)
    ensures SourceStill(g, s, u, e) && MembersArrived(g, s, u, e, done + {m})
  {
    hide Val;
    forall k
      ensures Val(u, From(g, e.src, k)) == Val(s, From(g, e.src, k))
    {
    }
    forall k | k in done + {m}
      ensures Val(s, From(g, e.src, k)) <= Val(u, In(e.dst, k))
    {
      assert Val(t, From(g, e.src, k)) == Val(s, From(g, e.src, k));
      if k in done {
        assert Val(s, From(g, e.src, k)) <= Val(t, In(e.dst, k));
      }
    }
  }

  lemma VarArrives(g: Graph, s: Sets, t: Sets, u: Sets, e: Edge, done: set<NodeID>, v: NodeID)
    requires SourceStill(g, s, t, e) && Arrived(g, s, t, e, done) && Within(t, u)
    requires SourceStill(g, t, u, e) && MembersArrived(g, t, u, e, Members(g, v))
    ensures SourceStill(g, s, u, e) && Arrived(g, s, u, e, done + {v})
  {
    hide Val;
    forall k
      ensures Val(u, From(g, e.src, k)) == Val(s, From(g, e.src, k))
    {
      assert Val(t, From(g, e.src, k)) == Val(s, From(g, e.src, k));
    }
    forall x, m | x in done + {v} && m in Members(g, x)
      ensures Val(s, From(g, e.src, m)) <= Val(u, In(e.dst, m))
    {
      assert Val(t, From(g, e.src, m)) == Val(s, From(g, e.src, m));
      assert Val(t, In(e.dst, m)) <= Val(u, In(e.dst, m));
      if x != v {
        assert Val(s, From(g, e.src, m)) <= Val(t, In(e.dst, m));
      }
    }
  }

  lemma ArrivedHolds(g: Graph, s: Sets, t: Sets, e: Edge)
    requires e.Indirect? && SourceStill(g, s, t, e) && Arrived(g, s, t, e, e.pts)
    ensures EdgeHolds(g, t, e)
  {
    hide Val;
    forall m | Carries(g, e, m)
      ensures Val(t, From(g, e.src, m)) <= Val(t, In(e.dst, m))
    {
      assert Val(t, From(g, e.src, m)) == Val(s, From(g, e.src, m));
    }
  }

  lemma CarryDemands(g: Graph, s: Sets, e: Edge, m: NodeID)
    requires e in g.edges && e.Indirect? && Carries(g, e, m)
    ensures forall sol {:trigger Solved(g, sol)} :: Solved(g, sol) && Within(s, sol) ==>
              Val(sol, From(g, e.src, m)) <= Val(sol, In(e.dst, m))
  {
    forall sol | Solved(g, sol)
      ensures Val(sol, From(g, e.src, m)) <= Val(sol, In(e.dst, m))
    {
      assert EdgeHolds(g, sol, e);
    }
  }

  lemma PassDemands(g: Graph, s: Sets, e: Edge)
    requires e in g.edges && e.Direct? && g.stmt(e.src).Passes? && g.stmt(e.dst).Receives?
    ensures forall sol {:trigger Solved(g, sol)} :: Solved(g, sol) && Within(s, sol) ==>
              Pts(s, g.stmt(e.src).v) <= Pts(sol, g.stmt(e.dst).v)
  {
    forall sol | Solved(g, sol) && Within(s, sol)
      ensures Pts(s, g.stmt(e.src).v) <= Pts(sol, g.stmt(e.dst).v)
    {
      assert EdgeHolds(g, sol, e);
      var c := Top(g.stmt(e.src).v);
      assert Val(s, c) <= Val(sol, c);
    }
  }

  // ---------------------------------------------------------------- progress

  /** Everything points to everything. */
  ghost function Full(g: Graph): Sets
  {
    DataFlowModel.Store(map v | v in g.vars :: g.objs,
                        map n | n in g.nodes :: map o | o in g.objs :: g.objs,
                        map n | n in g.nodes :: map o | o in g.objs :: g.objs)
  }

  lemma FullSolves(g: Graph)
    requires WellFormed(g)
    ensures Solved(g, Full(g))
  {
    var s := Full(g);
    forall n | n in g.nodes
      ensures NodeHolds(g, s, n)
    {
      FullNode(g, n);
    }
    forall e | e in g.edges
      ensures EdgeHolds(g, s, e)
    {
      FullEdge(g, e);
    }
  }

  lemma FullNode(g: Graph, n: LocID)
    requires WellFormed(g) && n in g.nodes
    ensures NodeHolds(g, Full(g), n)
  {
    var s, st := Full(g), g.stmt(n);
    assert StmtOk(g, st);
    forall v
      ensures Pts(s, v) == if v in g.vars then g.objs else {}
    {
    }
    forall k
      ensures Val(s, In(n, k)) == Val(s, Out(n, k)) <= g.objs
      ensures k in g.objs ==> Val(s, Out(n, k)) == g.objs
    {
    }
    hide Full, Val;
    match st
    case Addr(d, _) => assert Defines(st, d);
    case Copy(d, _) => assert Defines(st, d);
    case Phi(d, _) => assert Defines(st, d);
    case Gep(d, _) => assert Defines(st, d);
    case Load(d, _) => assert Defines(st, d);
    case _ =>
  }

  lemma FullEdge(g: Graph, e: Edge)
    requires WellFormed(g) && e in g.edges
    ensures EdgeHolds(g, Full(g), e)
  {
    assert EdgeOk(g, e);
    match e
    case Indirect(src, dst, pts) =>
      forall m | Carries(g, e, m)
        ensures m in g.objs
      {
        var v :| v in pts && m in Members(g, v);
        assert g.fields(v) <= g.objs;
      }
    case Direct(src, dst) =>
      if g.stmt(dst).Receives? {
        assert StmtOk(g, g.stmt(dst)) && Defines(g.stmt(dst), g.stmt(dst).v);
      }
  }

  /** Cells of the graph. */
  ghost function Cells(g: Graph): set<Cell>
  {
    (set v | v in g.vars :: Top(v)) + (set n, o | n in g.nodes && o in g.objs :: In(n, o))
    + (set n, o | n in g.nodes && o in g.objs :: Out(n, o))
  }

  /** What the sets may still gain. */
  ghost function Missing(g: Graph, s: Sets): set<(Cell, NodeID)>
  {
    set c, o | c in Cells(g) && o in g.objs && o !in Val(s, c) :: (c, o)
  }

  lemma MissingShrinks(g: Graph, s: Sets, t: Sets)
    requires WellFormed(g) && Within(s, t) && Justified(g, t)
    ensures |Missing(g, t)| <= |Missing(g, s)|
    ensures !Same(s, t) ==> |Missing(g, t)| < |Missing(g, s)|
  {
    forall c, o | (c, o) in Missing(g, t)
      ensures (c, o) in Missing(g, s)
    {
      assert Val(s, c) <= Val(t, c);
    }
    FiniteSets.SubsetCard(Missing(g, t), Missing(g, s));
    if !Same(s, t) {
      var c :| Val(s, c) != Val(t, c);
      assert Val(s, c) <= Val(t, c);
      var o :| o in Val(t, c) && o !in Val(s, c);
      FullSolves(g);
      assert Val(t, c) <= Val(Full(g), c);
      FullCells(g, c, o);
      FiniteSets.SmallerCard(Missing(g, t), Missing(g, s), (c, o));
    }
  }

  lemma FullCells(g: Graph, c: Cell, o: NodeID)
    requires o in Val(Full(g), c)
    ensures c in Cells(g) && o in g.objs
  {
  }

  /** Queued nodes that wake their successors without anything growing. */
  ghost function Loud(g: Graph, work: set<LocID>): set<LocID>
  {
    set n | n in work && (g.stmt(n).Receives? || g.stmt(n).Null?)
  }

  /** A visit either lets some set grow, or shortens the queue of nodes that wake others, or
      the queue itself. */
  ghost predicate Progress(g: Graph, s: Sets, work: set<LocID>, t: Sets, after: set<LocID>)
  {
    && |Missing(g, t)| <= |Missing(g, s)|
    && (|Missing(g, t)| == |Missing(g, s)| ==>
          && |Loud(g, after)| <= |Loud(g, work)|
          && (|Loud(g, after)| == |Loud(g, work)| ==> |after| < |work|))
  }

  /** Without growth, a visit queues only what edges wake. */
  ghost predicate Queued(g: Graph, n: LocID, work: set<LocID>, after: set<LocID>)
  {
    && work <= after
    && forall x :: x in after && x !in work ==> (Always(g.stmt(n)) && Direct(n, x) in g.edges && !g.stmt(n).Passes?)
  }

  /** What following edges of `n` has put into the worklist. */
  ghost predicate Pushed(g: Graph, n: LocID, work: set<LocID>, after: set<LocID>, grew: bool)
  {
    && work <= after
    && (forall x :: x in after && x !in work ==> exists e :: e in OutEdges(g, n) && e.dst == x)
    && (!grew ==> forall x :: x in after && x !in work ==> Direct(n, x) in g.edges && !g.stmt(n).Passes?)
  }

  lemma PushedMore(g: Graph, n: LocID, start: set<LocID>, work: set<LocID>, grew: bool, e: Edge, more: bool,
                   after: set<LocID>)
    requires Pushed(g, n, start, work, grew) && e in OutEdges(g, n) && Followed(g, e, work, more, after)
    ensures Pushed(g, n, start, after, grew || more)
  {
    if !grew && !more {
      forall x | x in after && x !in start
        ensures Direct(n, x) in g.edges && !g.stmt(n).Passes?
      {
        if x !in work {
          assert e == Direct(n, x);
        }
      }
    }
  }

  lemma SameWithin(s: Sets)
    ensures Within(s, s) && Same(s, s)
  {
  }

  lemma VisitProgress(g: Graph, s: Sets, work: set<LocID>, n: LocID, t: Sets, after: set<LocID>)
    requires WellFormed(g) && n in work && Within(s, t) && Justified(g, t)
    requires Same(s, t) ==> Queued(g, n, work - {n}, after)
    ensures Progress(g, s, work, t, after)
  {
    MissingShrinks(g, s, t);
    if Same(s, t) {
      hide Missing, Same, Within, Justified;
      forall x | x in after && x !in work - {n}
        ensures (g.stmt(n).Receives? || g.stmt(n).Null?) && !g.stmt(x).Receives? && !g.stmt(x).Null?
      {
        assert EdgeOk(g, Direct(n, x));
      }
      assert Loud(g, after) <= Loud(g, work);
      FiniteSets.SubsetCard(Loud(g, after), Loud(g, work));
      if n in Loud(g, work) {
        assert n !in Loud(g, after);
        FiniteSets.SmallerCard(Loud(g, after), Loud(g, work), n);
      } else {
        assert after == work - {n};
      }
    }
  }

  /** A whole visit: the node itself, then its edges if `grew` or the node always goes on. */
  lemma VisitedAll(g: Graph, s: Sets, m: Sets, t: Sets, work: set<LocID>, n: LocID, grew: bool, more: bool,
                   after: set<LocID>)
    requires WellFormed(g) && work <= g.nodes && n in g.nodes && n !in work
    requires Moved(g, s, m, Writes(g, n), grew) && Within(m, t) && more == !Same(m, t) && Justified(g, t)
    requires if grew || Always(g.stmt(n)) then Pushed(g, n, work, after, more) else m == t && after == work
    ensures after <= g.nodes && Progress(g, s, work + {n}, t, after)
  {
    assert forall e :: e in OutEdges(g, n) ==> EdgeOk(g, e);
    hide WellFormed, Moved, Writes, Justified;
    WithinBoth(g, s, m, t, Writes(g, n), grew, more);
    assert work + {n} - {n} == work;
    VisitProgress(g, s, work + {n}, n, t, after);
  }

  lemma WithinBoth(g: Graph, s: Sets, m: Sets, t: Sets, where: iset<Cell>, grew: bool, more: bool)
    requires Moved(g, s, m, where, grew) && Within(m, t) && more == !Same(m, t)
    ensures Within(s, t) && (grew || more) == !Same(s, t)
  {
    hide Val;
    forall x
      ensures Val(s, x) <= Val(m, x) <= Val(t, x)
    {
    }
    if Same(s, t) {
      forall x
        ensures Val(s, x) == Val(m, x) == Val(t, x)
      {
        assert Val(s, x) <= Val(m, x) <= Val(t, x);
      }
    }
  }

  /** Between visits the OUT sets of every store have reached their targets. */
  lemma StoresServed(g: Graph, s: Sets, work: set<LocID>, n: LocID)
    requires Settled(g, s, work, {})
    ensures forall e {:trigger EdgeHolds(g, s, e)} :: e in g.edges && g.stmt(e.src).Assign? ==> EdgeHolds(g, s, e)
  {
  }

  lemma ProgressDown(g: Graph, s: Sets, work: set<LocID>, t: Sets, after: set<LocID>)
    requires Progress(g, s, work, t, after)
    ensures |Missing(g, t)| < |Missing(g, s)| || (|Missing(g, t)| == |Missing(g, s)| &&
              (|Loud(g, after)| < |Loud(g, work)| || (|Loud(g, after)| == |Loud(g, work)| && |after| < |work|)))
  {
  }

  // ---------------------------------------------------------------- growing graphs

  /** The call graph was updated: more edges, and more operands at phi nodes. */
  ghost predicate Extends(g: Graph, h: Graph)
  {
    && g.nodes == h.nodes && g.vars == h.vars && g.objs == h.objs && g.field == h.field && g.fields == h.fields
    && g.inert == h.inert && g.strong == h.strong && g.edges <= h.edges
    && forall n {:trigger h.stmt(n)} :: n in g.nodes ==>
         || g.stmt(n) == h.stmt(n)
         || (g.stmt(n).Phi? && h.stmt(n).Phi? && g.stmt(n).dst == h.stmt(n).dst && g.stmt(n).ops <= h.stmt(n).ops)
  }

  lemma ExtendedSolves(g: Graph, h: Graph, sol: Sets)
    requires WellFormed(g) && Extends(g, h) && Solved(h, sol)
    ensures Solved(g, sol)
  {
    forall n | n in g.nodes
      ensures NodeHolds(g, sol, n)
    {
      assert NodeHolds(h, sol, n);
      assert g.stmt(n) == h.stmt(n) || g.stmt(n).Phi?;
    }
    forall e | e in g.edges
      ensures EdgeHolds(g, sol, e)
    {
      assert EdgeHolds(h, sol, e) && EdgeOk(g, e);
      ExtendedFrom(g, h, e);
    }
  }

  lemma ExtendedFrom(g: Graph, h: Graph, e: Edge)
    requires Extends(g, h) && EdgeOk(g, e)
    ensures forall m {:trigger In(e.dst, m)} :: From(g, e.src, m) == From(h, e.src, m)
    ensures e.Indirect? ==> forall m {:trigger Carries(g, e, m)} :: Carries(g, e, m) <==> Carries(h, e, m)
    ensures g.stmt(e.src).Passes? <==> h.stmt(e.src).Passes?
    ensures g.stmt(e.dst).Receives? <==> h.stmt(e.dst).Receives?
  {
    assert g.stmt(e.src) == h.stmt(e.src) || (g.stmt(e.src).Phi? && h.stmt(e.src).Phi?);
    assert g.stmt(e.dst) == h.stmt(e.dst) || (g.stmt(e.dst).Phi? && h.stmt(e.dst).Phi?);
    assert g.stmt(e.src).Assign? <==> h.stmt(e.src).Assign?;
    forall m
      ensures From(g, e.src, m) == From(h, e.src, m)
    {
    }
  }

  lemma ExtendedJustified(g: Graph, h: Graph, s: Sets)
    requires WellFormed(g) && Extends(g, h) && Justified(g, s)
    ensures Justified(h, s)
  {
    forall sol | Solved(h, sol)
      ensures Within(s, sol)
    {
      ExtendedSolves(g, h, sol);
    }
  }

  /** New indirect edges lead to formal-in or actual-out nodes. */
  ghost predicate NewEdgesOk(g: Graph, h: Graph)
  {
    forall e {:trigger e in h.edges} :: e in h.edges && e !in g.edges && e.Indirect? ==>
      h.stmt(e.dst).Region? && h.stmt(e.dst).entry
  }

  ghost predicate EdgeSink(g: Graph, e: Edge, a: Cell, b: Cell)
  {
    e.Indirect? && b.In? && b.loc == e.dst && Carries(g, e, b.key) && a == From(g, e.src, b.key)
  }

  /** The sinks that `e` adds for the variables of `members`. */
  ghost function NewSinks(g: Graph, e: Edge, members: set<NodeID>): Sinks
  {
    iset p: (Cell, Cell) | p.1.In? && p.1.loc == e.dst && p.1.key in members && p.0 == From(g, e.src, p.1.key)
  }

  lemma NewSinksMore(g: Graph, e: Edge, done: set<NodeID>, members: set<NodeID>)
    ensures NewSinks(g, e, done) + NewSinks(g, e, members) == NewSinks(g, e, done + members)
  {
  }

  lemma OneNewSink(g: Graph, e: Edge, m: NodeID)
    ensures NewSinks(g, e, {m}) == iset{(From(g, e.src, m), In(e.dst, m))}
  {
  }

  lemma NewSinksAll(g: Graph, e: Edge, all: set<NodeID>)
    requires e.Indirect? && all == set v, m | v in e.pts && m in Members(g, v) :: m
    ensures NewSinks(g, e, all) == iset p: (Cell, Cell) | EdgeSink(g, e, p.0, p.1)
  {
    forall m
      ensures m in all <==> Carries(g, e, m)
    {
    }
  }

  /** Sinks once the edges of `done` are known. */
  ghost function SinksWith(g: Graph, h: Graph, done: set<Edge>): Sinks
  {
    SinksOf(g) + iset p: (Cell, Cell) | exists e :: e in done && EdgeSink(h, e, p.0, p.1)
  }

  lemma NoNewSinks(g: Graph, h: Graph)
    ensures SinksWith(g, h, {}) == SinksOf(g)
  {
  }

  lemma AllNewSinks(g: Graph, h: Graph)
    requires WellFormed(g) && WellFormed(h) && Extends(g, h)
    ensures SinksWith(g, h, h.edges - g.edges) == SinksOf(h)
  {
    forall a, b
      ensures (a, b) in SinksWith(g, h, h.edges - g.edges) <==> (a, b) in SinksOf(h)
    {
      NewSink(g, h, a, b);
    }
  }

  lemma NewSink(g: Graph, h: Graph, a: Cell, b: Cell)
    requires WellFormed(g) && WellFormed(h) && Extends(g, h)
    ensures IsSink(h, a, b) <==> IsSink(g, a, b) || exists e :: e in h.edges - g.edges && EdgeSink(h, e, a, b)
  {
    assert a.In? && a.loc in g.nodes ==> g.stmt(a.loc) == h.stmt(a.loc) || (g.stmt(a.loc).Phi? && h.stmt(a.loc).Phi?);
    if e :| e in g.edges && EdgeSink(h, e, a, b) {
      OldSink(g, h, e, a, b);
    }
    if e :| e in g.edges && EdgeSink(g, e, a, b) {
      OldSink(g, h, e, a, b);
    }
    EdgeSinks(g, a, b);
    EdgeSinks(h, a, b);
    hide EdgeSink;
    if e :| e in h.edges && EdgeSink(h, e, a, b) {
      assert e in g.edges || e in h.edges - g.edges;
    }
  }

  lemma EdgeSinks(g: Graph, a: Cell, b: Cell)
    ensures IsSink(g, a, b) <==>
            || (exists e :: e in g.edges && EdgeSink(g, e, a, b))
            || (a.In? && a.loc in g.nodes && g.stmt(a.loc).Assign? && b == Out(a.loc, a.key))
            || (a.In? && a.loc in g.nodes && g.stmt(a.loc).Load? && b == Top(g.stmt(a.loc).dst))
  {
    if b.In? {
      if e :| e in g.edges && e.Indirect? && e.dst == b.loc && Carries(g, e, b.key) && a == From(g, e.src, b.key) {
        assert EdgeSink(g, e, a, b);
      }
    }
  }

  lemma OldSink(g: Graph, h: Graph, e: Edge, a: Cell, b: Cell)
    requires WellFormed(g) && Extends(g, h) && e in g.edges
    ensures EdgeSink(g, e, a, b) <==> EdgeSink(h, e, a, b)
  {
    assert EdgeOk(g, e);
    ExtendedFrom(g, h, e);
    if e.Indirect? && b.In? {
      assert In(e.dst, b.key) == In(e.dst, b.key);
    }
  }

  /** The edges of `edges` that leave stores are served. */
  ghost predicate EdgesServed(g: Graph, s: Sets, edges: set<Edge>)
  {
    forall e {:trigger EdgeHolds(g, s, e)} :: e in edges && g.stmt(e.src).Assign? ==> EdgeHolds(g, s, e)
  }

  lemma ServedBefore(g: Graph, h: Graph, s: Sets)
    requires WellFormed(g) && Extends(g, h) && Solved(g, s)
    ensures EdgesServed(h, s, g.edges)
  {
    forall e | e in g.edges && h.stmt(e.src).Assign?
      ensures EdgeHolds(h, s, e)
    {
      assert EdgeOk(g, e) && EdgeHolds(g, s, e);
      ExtendedFrom(g, h, e);
    }
  }

  lemma MovedGrows(g: Graph, s: Sets, t: Sets, where: iset<Cell>, changed: bool)
    requires Moved(g, s, t, where, changed)
    ensures Within(s, t)
  {
  }

  lemma MovedSame(g: Graph, s: Sets, t: Sets, where: iset<Cell>, changed: bool)
    requires Moved(g, s, t, where, changed)
    ensures changed <==> !Same(s, t)
  {
  }

  lemma SinksWithMore(g: Graph, h: Graph, done: set<Edge>, e: Edge)
    ensures SinksWith(g, h, done + {e}) == SinksWith(g, h, done) + iset p: (Cell, Cell) | EdgeSink(h, e, p.0, p.1)
    ensures e.Direct? ==> SinksWith(g, h, done + {e}) == SinksWith(g, h, done)
  {
    hide EdgeSink, SinksOf;
    DirectSinks(h, e);
    forall p: (Cell, Cell)
      ensures (exists d :: d in done + {e} && EdgeSink(h, d, p.0, p.1)) <==>
              (exists d :: d in done && EdgeSink(h, d, p.0, p.1)) || EdgeSink(h, e, p.0, p.1)
    {
      if EdgeSink(h, e, p.0, p.1) {
        assert e in done + {e};
      }
      if d :| d in done && EdgeSink(h, d, p.0, p.1) {
        assert d in done + {e};
      }
    }
  }

  lemma DirectSinks(h: Graph, e: Edge)
    ensures e.Direct? ==> forall a, b :: !EdgeSink(h, e, a, b)
  {
  }

  lemma DirectServed(g: Graph, s: Sets, edges: set<Edge>, e: Edge)
    requires EdgesServed(g, s, edges) && e.Direct?
    ensures EdgesServed(g, s, edges + {e})
  {
  }

  lemma NewEdgeServed(g: Graph, s: Sets, t: Sets, edges: set<Edge>, e: Edge, changed: bool)
    requires WellFormed(g) && edges <= g.edges && e in g.edges && e.Indirect? && EdgeHolds(g, t, e)
    requires EdgesServed(g, s, edges) && Moved(g, s, t, Targets(g, e), changed)
    ensures EdgesServed(g, t, edges + {e})
  {
    ServedStays(g, s, t, edges, e, changed);
    hide EdgeHolds;
  }

  lemma WithinOn(r: Sets, s: Sets, t: Sets)
    requires Within(r, s) && Within(s, t)
    ensures Within(r, t)
  {
    hide Val;
    forall c
      ensures Val(r, c) <= Val(t, c)
    {
      assert Val(r, c) <= Val(s, c) <= Val(t, c);
    }
  }

  /** OUT sets are not written when edges are followed. */
  lemma ServedStays(g: Graph, s: Sets, t: Sets, edges: set<Edge>, e: Edge, grew: bool)
    requires WellFormed(g) && edges <= g.edges && e.Indirect?
    requires EdgesServed(g, s, edges) && Moved(g, s, t, Targets(g, e), grew)
    ensures EdgesServed(g, t, edges)
  {
    forall d | d in edges && g.stmt(d.src).Assign?
      ensures EdgeHolds(g, t, d)
    {
      assert EdgeHolds(g, s, d);
      if d.Indirect? {
        forall m | Carries(g, d, m)
          ensures Val(t, From(g, d.src, m)) <= Val(t, In(d.dst, m))
        {
          assert Val(s, From(g, d.src, m)) <= Val(s, In(d.dst, m)) <= Val(t, In(d.dst, m));
        }
      }
    }
  }

  lemma QueueAll(g: Graph, s: Sets)
    requires WellFormed(g) && EdgesServed(g, s, g.edges)
    ensures Settled(g, s, g.nodes, {})
  {
    forall e | e in g.edges
      ensures EdgeHolds(g, s, e) || EdgeAwaits(g, g.nodes, {}, e)
    {
      assert EdgeOk(g, e);
    }
  }

  lemma StartsServed(g: Graph)
    ensures var s := DataFlowModel.Store(map[], map[], map[]);
            EdgesServed(g, s, g.edges) && Justified(g, s)
  {
  }

  /** The graphs of successive rounds. */
  ghost predicate GraphsOk(graphs: seq<Graph>)
  {
    && (forall i {:trigger graphs[i]} :: 0 <= i < |graphs| ==> WellFormed(graphs[i]))
    && (forall i {:trigger graphs[i + 1]} :: 0 <= i < |graphs| - 1 ==>
          Extends(graphs[i], graphs[i + 1]) && NewEdgesOk(graphs[i], graphs[i + 1]))
  }

  lemma SolvedSame(g: Graph, s: Sets, t: Sets)
    requires Solved(g, s) && Justified(g, s) && Same(s, t)
    ensures Solved(g, t) && Justified(g, t)
  {
    forall n | n in g.nodes
      ensures NodeHolds(g, t, n)
    {
      assert NodeHolds(g, s, n);
      SameNode(g, s, t, n);
    }
    forall e | e in g.edges
      ensures EdgeHolds(g, t, e)
    {
      assert EdgeHolds(g, s, e);
      SameEdge(g, s, t, e);
    }
    hide Val;
    forall sol | Solved(g, sol)
      ensures Within(t, sol)
    {
      forall c
        ensures Val(t, c) <= Val(sol, c)
      {
        assert Val(s, c) <= Val(sol, c) && Val(s, c) == Val(t, c);
      }
    }
  }

  lemma SameNode(g: Graph, s: Sets, t: Sets, n: LocID)
    requires NodeHolds(g, s, n) && Same(s, t)
    ensures NodeHolds(g, t, n)
  {
    hide Val;
    forall v
      ensures Pts(s, v) == Pts(t, v)
    {
      assert Val(s, Top(v)) == Val(t, Top(v));
    }
    forall c
      ensures Val(s, c) <= Val(t, c)
    {
      assert Val(s, c) == Val(t, c);
    }
    forall m
      ensures Val(s, In(n, m)) == Val(t, In(n, m))
    {
    }
    HoldsMore(g, s, t, n);
  }

  lemma SameEdge(g: Graph, s: Sets, t: Sets, e: Edge)
    requires EdgeHolds(g, s, e) && Same(s, t)
    ensures EdgeHolds(g, t, e)
  {
    match e
    case Indirect(src, dst, _) =>
      forall m | Carries(g, e, m)
        ensures Val(t, From(g, src, m)) <= Val(t, In(dst, m))
      {
        assert Val(s, From(g, src, m)) == Val(t, From(g, src, m)) && Val(s, In(dst, m)) == Val(t, In(dst, m));
      }
    case Direct(src, dst) =>
      if g.stmt(src).Passes? && g.stmt(dst).Receives? {
        var a, b := Top(g.stmt(src).v), Top(g.stmt(dst).v);
        assert Val(s, a) == Val(t, a) && Val(s, b) == Val(t, b);
      }
  }

  // ---------------------------------------------------------------- stores in the result

  lemma StoreLowered(g: Graph, s: Sets, n: LocID, k: NodeID, want: set<NodeID>, x: LocID)
    requires NodeHolds(g, s, x) && g.stmt(n).Assign?
    requires x == n && k in Pts(s, g.stmt(n).dst) && !g.inert(k) ==> Pts(s, g.stmt(n).src) <= want
    requires x == n && Pts(s, g.stmt(n).dst) != {} && !(Pts(s, g.stmt(n).dst) == {k} && g.strong(k)) ==>
               Val(s, In(n, k)) <= want
    ensures NodeHolds(g, Put(s, Out(n, k), want), x)
  {
    var t := Put(s, Out(n, k), want);
    assert forall v :: Pts(t, v) == Pts(s, v);
    assert forall m :: Val(t, In(x, m)) == Val(s, In(x, m));
    assert forall m :: Val(t, Out(x, m)) == if x == n && m == k then want else Val(s, Out(x, m));
    hide Val, Put;
    match g.stmt(x)
    case Load(d, src) =>
      LoadMeans(g, s, x);
      LoadMeans(g, t, x);
    case Gep(d, src) =>
      GepMeans(g, s, x);
      GepMeans(g, t, x);
    case Phi(d, ops) =>
      forall src | src in ops
        ensures Pts(t, src) <= Pts(t, d)
      {
        assert Pts(s, src) <= Pts(s, d);
      }
    case _ =>
  }

  lemma EdgeLowered(g: Graph, s: Sets, n: LocID, k: NodeID, want: set<NodeID>, e: Edge)
    requires EdgeHolds(g, s, e) && want <= Val(s, Out(n, k))
    ensures EdgeHolds(g, Put(s, Out(n, k), want), e)
  {
    var t := Put(s, Out(n, k), want);
    assert forall v :: Pts(t, v) == Pts(s, v);
    assert forall x, m :: Val(t, In(x, m)) == Val(s, In(x, m)) && Val(t, Out(x, m)) <= Val(s, Out(x, m));
    hide Val, Put;
    if e.Indirect? {
      IndirectMeans(g, s, e);
      IndirectMeans(g, t, e);
    }
  }

  /** A store leaves exactly this in its OUT set of `k`: what is stored, if its pointer may
      address `k`, and what came in, unless the pointer has no target yet or `k` is its only
      one and may be updated strongly. */
  ghost predicate StoreLeaves(g: Graph, s: Sets, n: LocID, k: NodeID)
    requires g.stmt(n).Assign?
  {
    var targets := Val(s, Top(g.stmt(n).dst));
    Val(s, Out(n, k)) ==
      (if k in targets && !g.inert(k) then Val(s, Top(g.stmt(n).src)) else {})
      + if targets != {} && !(targets == {k} && g.strong(k)) then Val(s, In(n, k)) else {}
  }

  lemma StoreExact(g: Graph, s: Sets, n: LocID, k: NodeID)
    requires n in g.nodes && g.stmt(n).Assign? && Solved(g, s) && Justified(g, s)
    ensures StoreLeaves(g, s, n, k)
  {
    var d, q := Pts(s, g.stmt(n).dst), Pts(s, g.stmt(n).src);
    var want := (if k in d && !g.inert(k) then q else {})
                + if d != {} && !(d == {k} && g.strong(k)) then Val(s, In(n, k)) else {};
    assert NodeHolds(g, s, n) && want <= Val(s, Out(n, k));
    var t := Put(s, Out(n, k), want);
    forall x | x in g.nodes
      ensures NodeHolds(g, t, x)
    {
      assert NodeHolds(g, s, x);
      StoreLowered(g, s, n, k, want, x);
    }
    forall e | e in g.edges
      ensures EdgeHolds(g, t, e)
    {
      assert EdgeHolds(g, s, e);
      EdgeLowered(g, s, n, k, want, e);
    }
    assert Val(s, Out(n, k)) <= Val(t, Out(n, k)) by {
      assert Solved(g, t);
      hide Val, Put;
    }
  }

  /** Solutions that no solution falls short of are the same: the result depends neither on
      the order of visits nor on the store. */
  lemma OneResult(g: Graph, s: Sets, t: Sets)
    requires Solved(g, s) && Justified(g, s) && Solved(g, t) && Justified(g, t)
    ensures Same(s, t)
  {
    forall c
      ensures Val(s, c) == Val(t, c)
    {
      assert Val(s, c) <= Val(t, c) && Val(t, c) <= Val(s, c);
    }
  }
}
