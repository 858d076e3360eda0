/**
 Two runs of the demand-driven solver on concrete graphs: one in which a downgrade spreads to
 a later query, and one in which keying top-level caches by variable hides a growing set.
 */
module DemandExamples {
  import opened Svfg
  import opened LeastSolution
  import opened DemandProtocol
  import opened DemandSolver
  import FiniteSets

  // ---------------------------------------------------------------- a downgrade that spreads

  const P := Dpm(0, 1)
  const Q := Dpm(1, 2)
  const R := Dpm(2, 5)

  /** `p = &o; q = p; r = q`, with `p` = 1, `q` = 2, `r` = 5, `o` = 3, and another object 4. */
  ghost function Copies(): Graph
  {
    Graph({0, 1, 2}, {1, 2, 3, 4, 5}, {3, 4}, {Direct(0, 1), Direct(1, 2)}, {},
          (n: LocID) => if n == 0 then Addr(3) else Copy,
          (n: LocID) => if n == 0 then 1 else if n == 1 then 2 else 5,
          (v: NodeID) => if v == 1 then 0 else if v == 2 then 1 else 2,
          (o: NodeID, n: LocID) => false,
          (n: LocID, s: set<NodeID>) => s)
  }

  /** A sound pre-analysis that is coarse about `q`. */
  ghost function CoarseAboutQ(): PreAnalysis
  {
    (v: NodeID) => if v == 1 then {3} else if v == 2 || v == 5 then {3, 4} else {}
  }

  lemma CopiesOk()
    ensures WellFormed(Copies()) && OneNodePerPointer(Copies())
    ensures InEdges(Copies(), 1) == {Direct(0, 1)} && InEdges(Copies(), 2) == {Direct(1, 2)}
  {
    var g := Copies();
    assert forall n :: n in g.locs ==> StmtOk(g, n);
    assert forall e :: e in g.edges ==> EdgeOk(g, e);
  }

  lemma CopiesEvals(rho: Rho)
    ensures Deps(Copies(), rho, Q) == {P} && Deps(Copies(), rho, R) == {Q} && Eval(Copies(), rho, R) == Get(rho, Q)
  {
    CopiesOk();
    assert DirectDeps(Copies(), 1) == {P} && DirectDeps(Copies(), 2) == {Q};
  }

  lemma CopiesFacts()
    ensures var g := Copies();
            && WellFormed(g) && MonotoneGep(g) && SoundFor(g, CoarseAboutQ()) && OneNodePerPointer(g)
            && Q in Universe(g) && R in Universe(g) && g.stmt(1).TopLevel() && g.stmt(2).TopLevel()
  {
    var g := Copies();
    CopiesOk();
    hide WellFormed, OneNodePerPointer;
    assert forall n :: n in g.locs ==> Includes(g, CoarseAboutQ(), n);
    InclusionsAreSound(g, CoarseAboutQ());
    hide SoundFor;
  }

  lemma CopiesSeparate(k: Keying)
    ensures Separate(Copies(), k)
  {
    CopiesOk();
    SeparateExactly(Copies());
    hide Separate, Copies;
    assert k == PerItem || k == PerVariable;
  }

  /** The whole-program answer for `r` is its one target. */
  lemma CopiesLeast()
    ensures WellFormed(Copies()) && Get(Least(Copies()), R) <= {3}
  {
    CopiesFacts();
    var g := Copies();
    var sol: Rho := map[P := {3}, Q := {3}, R := {3}];
    forall d | d in Universe(g)
      ensures Closed(g, sol, d)
    {
    }
    LeastIsLeast(g, sol);
  }

  /** Marking `q` in a closed state takes two marks. */
  lemma TwoMarks(rho: Rho, marked: set<Dpm>)
    requires AllClosed(Copies(), rho, marked, {}) && Q in marked
    ensures |marked| >= 2
  {
    CopiesEvals(rho);
    assert Closed(Copies(), rho, Q);
    assert {P, Q} <= marked;
    FiniteSets.SubsetCard({P, Q}, marked);
  }

  /** In a query for `r` with `q` still marked, `r` is all that is evaluated, and once. */
  ghost predicate OnlyR(s: Snap, frames: set<Frame>)
  {
    && s.root == R && s.max == 1 && !s.out && s.steps == |s.here|
    && s.here <= {R} && s.grown <= {R} && Q in s.visited
    && (R in s.here ==> R in s.visited)
    && forall f :: f in frames ==> f.item == R
  }

  lemma OnlyRTriggers(s: Snap, frames: set<Frame>, d: Dpm)
    requires OnlyR(s, frames) && d in Universe(Copies())
    ensures !Triggered(Copies(), s, d)
    ensures Asked(Copies(), s, frames, d) ==> d == R || d == Q
  {
    forall x | x in s.grown
      ensures !Triggers(Copies(), x, d)
    {
    }
  }

  lemma OnlyRClosed()
    ensures StepClosed(Copies(), WatchR())
  {
    var g := Copies();
    forall step, a, fa, b, fb | WatchR()(a, fa) && Next(g, step, a, fa, b, fb)
      ensures WatchR()(b, fb)
    {
      OnlyRStep(step, a, fa, b, fb);
    }
  }

  ghost function WatchR(): Watch
  {
    (s, frames) => OnlyR(s, frames)
  }

  lemma OnlyRStep(step: Step, a: Snap, fa: set<Frame>, b: Snap, fb: set<Frame>)
    requires OnlyR(a, fa) && Next(Copies(), step, a, fa, b, fb)
    ensures OnlyR(b, fb)
  {
    hide Copies, Evaluates, Grew;
    match step
    case Enter(d) =>
      OnlyRTriggers(a, fa, d);
      hide Triggered, Asked, Universe;
      assert a.here == {};
      assert b.here == {R};
    case Consult(below, d, log, y) =>
      assert Frame(d, log) in fa;
    case Leave(below, d, log, res) =>
      assert Frame(d, log) in fa;
    case Unmark(d) =>
      UnmarkInside(a, fa, d);
    case Note =>
  }

  lemma UnmarkInside(s: Snap, frames: set<Frame>, d: Dpm)
    requires OnlyR(s, frames) && d in s.here
    ensures !Triggered(Copies(), s, d)
  {
    assert d == R && R in Universe(Copies());
    OnlyRTriggers(s, frames, d);
  }

  /** A query that gave up makes a later query for a copy, which stays within budget, reply
      more than the whole-program answer. */
  method DowngradeSpreads(solver: Solver) returns (first: Reply, second: Reply)
    requires solver.g == Copies() && solver.ander == CoarseAboutQ() && solver.maxBudget == 1
    requires solver.Shape() && Quiet(solver.g, solver.watch, solver.Now(), {}, {})
    requires Standing(solver.g, solver.ander, solver.Now())
    requires solver.visited == {} && solver.outOfBudgetDpms == {}
    modifies solver
    ensures first.Downgraded? && second.InBudget?
    ensures WellFormed(solver.g) && Get(Least(solver.g), R) < second.pts
  {
    hide Quiet, Standing, Located, Least, Universe, SoundFor, WellFormed, MonotoneGep, Deps, Eval, Answer, AllClosed,
         Below, Copies, CoarseAboutQ, Separate, StepClosed, Merged, Ample, OnlyR, OneNodePerPointer, Shared, Within,
         Faithful, WatchR;
    CopiesFacts();
    AnythingHolds(solver.g, AfterReset(solver.Now(), Q), {});
    first := solver.Query(Q, Anything());
    if first.InBudget? {
      CopiesSeparate(solver.keying);
      assert solver.outOfBudgetDpms == {} && solver.visited - {} == solver.visited;
      TwoMarks(solver.Cached(), solver.visited);
      assert false;
    }
    assert solver.outOfBudgetDpms == {Q};
    PinnedStayMarked(solver.g, solver.watch, solver.Now(), R);
    OnlyRClosed();
    OnlyRStarts(AfterReset(solver.Now(), R));
    second := solver.Query(R, WatchR());
    OnlyRInBudget();
    SpreadsToR(solver.g, solver.keying, solver.ander, second);
  }

  lemma PinnedStayMarked(g: Graph, w: Watch, s: Snap, d: Dpm)
    requires Quiet(g, w, s, {}, {})
    ensures s.pinned <= AfterReset(s, d).visited
  {
  }

  lemma OnlyRStarts(s: Snap)
    requires s.root == R && s.max == 1 && !s.out && s.steps == 0 && s.here == s.grown == {} && Q in s.visited
    ensures WatchR()(s, {})
  {
  }

  lemma OnlyRInBudget()
    ensures forall s, frames {:trigger WatchR()(s, frames)} :: WatchR()(s, frames) ==> !s.out
  {
  }

  lemma SpreadsToR(g: Graph, k: Keying, ander: PreAnalysis, reply: Reply)
    requires g == Copies() && ander == CoarseAboutQ() && WellFormed(g) && SoundFor(g, ander)
    requires reply.InBudget? && Faithful(g, k, ander, {Q}, R, reply)
    ensures Get(Least(g), R) < reply.pts
  {
    CopiesFacts();
    CopiesLeast();
    CopiesSeparate(k);
    hide Copies, Universe, Least, Separate, OneNodePerPointer, MonotoneGep, SoundFor, WellFormed, LeastAbove;
    assert {Q} <= Universe(g);
    AnswerBetween(g, k, ander, {Q});
    CopiesEvals(Answer(g, k, ander, {Q}));
    assert Closed(g, Answer(g, k, ander, {Q}), R);
    assert {3, 4} <= reply.pts;
  }

  // ---------------------------------------------------------------- growth that is hidden

  /** A node that forwards its own pointer, as an actual parameter does. */
  ghost predicate Forwards(g: Graph, n: LocID)
  {
    n in g.locs && g.stmt(n).Copy? && forall y :: y in DirectDeps(g, n) ==> y.v == g.lhs(n)
  }

  /** Such nodes have not grown in the current query. */
  ghost predicate Masked(g: Graph, s: Snap, frames: set<Frame>)
  {
    && s.k == PerVariable && Shared(g, s.k, s.rho)
    && (forall f :: f in frames ==> Covers(s.rho, f.log))
    && forall n {:trigger Forwards(g, n)} :: Forwards(g, n) ==> Dpm(n, g.lhs(n)) !in s.grown
  }

  ghost function WatchMasked(g: Graph): Watch
  {
    (s, frames) => Masked(g, s, frames)
  }

  /** On every graph: keyed by variable, a node that forwards its own pointer is never seen to
      grow, since whatever it forwards is in its cache entry already; so nothing behind it is
      ever re-run on its account. */
  lemma ForwardersNeverGrow(g: Graph)
    requires WellFormed(g) && MonotoneGep(g)
    ensures StepClosed(g, WatchMasked(g))
  {
    forall step, a, fa, b, fb | WatchMasked(g)(a, fa) && Next(g, step, a, fa, b, fb)
      ensures WatchMasked(g)(b, fb)
    {
      MaskedStep(g, step, a, fa, b, fb);
    }
  }

  lemma MaskedStep(g: Graph, step: Step, a: Snap, fa: set<Frame>, b: Snap, fb: set<Frame>)
    requires WellFormed(g) && MonotoneGep(g) && Masked(g, a, fa) && Next(g, step, a, fa, b, fb)
    ensures Masked(g, b, fb)
  {
    hide WellFormed, MonotoneGep, Evaluates, Triggered, Asked, Forwards, Universe, Shared;
    match step
    case Leave(below, d, log, res) =>
      assert Frame(d, log) in fa && Covers(a.rho, log);
      GrewShared(g, a.k, a.rho, b.rho, d, res);
      GrewBelow(g, a.k, a.rho, b.rho, d, res);
      hide Grew;
      forall f | f in below
        ensures Covers(b.rho, f.log)
      {
        CoversMore(a.rho, b.rho, f.log);
      }
      forall n | Forwards(g, n)
        ensures Dpm(n, g.lhs(n)) !in b.grown
      {
        if d == Dpm(n, g.lhs(n)) {
          ForwardedAlready(g, a.rho, n, log, res);
        }
      }
    case Consult(below, d, log, y) =>
      assert Frame(d, log) in fa;
    case _ =>
  }

  lemma GrewShared(g: Graph, k: Keying, a: Rho, b: Rho, d: Dpm, res: set<NodeID>)
    requires Shared(g, k, a) && Grew(g, k, a, b, d, res)
    ensures Shared(g, k, b)
  {
    forall x, y | x in Universe(g) && y in Universe(g) && Shares(g, k, x, y)
      ensures Get(b, x) == Get(b, y)
    {
      assert Shares(g, k, d, x) <==> Shares(g, k, d, y);
    }
  }

  lemma ForwardedAlready(g: Graph, rho: Rho, n: LocID, log: set<Read>, res: set<NodeID>)
    requires WellFormed(g) && MonotoneGep(g) && Forwards(g, n) && Shared(g, PerVariable, rho)
    requires Dpm(n, g.lhs(n)) in Universe(g) && Covers(rho, log) && Evaluates(g, Dpm(n, g.lhs(n)), log, res)
    ensures res <= Get(rho, Dpm(n, g.lhs(n)))
  {
    var d := Dpm(n, g.lhs(n));
    CopyEval(g, rho, d, DirectDeps(g, n));
    forall y | y in DirectDeps(g, n)
      ensures Get(rho, y) == Get(rho, d)
    {
      var e :| e in InEdges(g, n) && e.Direct? && y == Dpm(e.src, g.lhs(e.src));
      EdgeSource(g, e, g.lhs(e.src));
      assert Shares(g, PerVariable, y, d);
    }
  }

  /** Keyed by variable, the caches can agree with the whole-program answer only where that
      gives the nodes of one pointer the same set. */
  lemma AgreementNeeded(g: Graph, k: Keying, rho: Rho, marked: set<Dpm>)
    requires WellFormed(g) && Shared(g, k, rho) && marked <= Universe(g)
    requires forall z :: z in marked ==> Get(rho, z) == Get(Least(g), z)
    ensures forall d, e {:trigger Shares(g, k, d, e)} ::
              d in marked && e in marked && Shares(g, k, d, e) ==> Get(Least(g), d) == Get(Least(g), e)
  {
    hide Least;
  }

  const A0 := Dpm(0, 1)        // a = &o
  const A1 := Dpm(1, 1)        // a as actual parameter
  const F := Dpm(2, 2)         // f as formal parameter
  const L := Dpm(3, 3)         // p = *f
  const A2 := Dpm(4, 3)        // p as actual parameter

  /** `n *b = &o2, **a = &o; *a = b; walk(a);` with `void walk(n **f) { n *p = *f; walk(p); }`,
      where `a` = 1, `f` = 2, `p` = 3, `b` = 4, `o` = 10 and `o2` = 11.  Node 7 stands for the
      memory regions between the store to `o` and the load. */
  ghost function Walk(): Graph
  {
    Graph({0, 1, 2, 3, 4, 5, 6, 7}, {1, 2, 3, 4, 10, 11}, {10, 11},
          {Direct(0, 1), Direct(1, 2), Direct(4, 2), Direct(2, 3), Direct(3, 4), Direct(0, 6), Direct(5, 6),
           Indirect(6, 7, {10}), Indirect(7, 3, {10})}, {},
          (n: LocID) => if n == 0 then Addr(10) else if n == 5 then Addr(11) else if n == 3 then Load(2)
                        else if n == 6 then Store(1, 4) else if n == 7 then MR else Copy,
          (n: LocID) => if n == 0 || n == 1 then 1 else if n == 2 then 2 else if n == 5 then 4 else 3,
          (v: NodeID) => if v == 1 then 0 else if v == 2 then 2 else if v == 4 then 5 else 3,
          (o: NodeID, n: LocID) => false,
          (n: LocID, s: set<NodeID>) => s)
  }

  lemma WalkOk()
    ensures WellFormed(Walk()) && MonotoneGep(Walk()) && !OneNodePerPointer(Walk())
    ensures {A0, A1, F, L, A2, Dpm(5, 4), Dpm(6, 10), Dpm(7, 10)} <= Universe(Walk())
  {
    var g := Walk();
    assert forall n :: n in g.locs ==> StmtOk(g, n);
    assert forall e :: e in g.edges ==> EdgeOk(g, e);
    assert g.stmt(0).TopLevel() && g.stmt(1).TopLevel() && g.lhs(0) == g.lhs(1);
  }

  lemma WalkEdges()
    ensures var g := Walk();
            && InEdges(g, 1) == {Direct(0, 1)} && InEdges(g, 2) == {Direct(1, 2), Direct(4, 2)}
            && InEdges(g, 3) == {Direct(2, 3), Indirect(7, 3, {10})} && InEdges(g, 4) == {Direct(3, 4)}
            && InEdges(g, 7) == {Indirect(6, 7, {10})}
  {
  }

  lemma WalkEvals(rho: Rho)
    ensures var g := Walk();
            && Eval(g, rho, A0) == {10} && Eval(g, rho, A1) == Get(rho, A0)
            && Eval(g, rho, F) == Get(rho, A1) + Get(rho, A2) && Eval(g, rho, A2) == Get(rho, L)
            && (Get(rho, F) == {} ==> Eval(g, rho, L) == {})
  {
    WalkEdges();
    WalkLoad(rho);
    var g := Walk();
    assert DirectDeps(g, 1) == {A0} && DirectDeps(g, 4) == {L} && DirectDeps(g, 2) == {A1, A2};
    CopyEval(g, rho, A1, {A0});
    CopyEval(g, rho, A2, {L});
    CopyEval(g, rho, F, {A1, A2});
  }

  lemma CopyEval(g: Graph, rho: Rho, d: Dpm, deps: set<Dpm>)
    requires g.stmt(d.loc).Copy? && DirectDeps(g, d.loc) == deps
    ensures Eval(g, rho, d) == UnionOf(rho, deps)
  {
  }

  lemma WalkLoad(rho: Rho)
    ensures Get(rho, F) == {} ==> Eval(Walk(), rho, L) == {}
  {
    assert Base(Walk(), 3) == F;
  }

  /** What the solver does on this graph with caches keyed by variable: no actual parameter is
      ever seen to grow, so `f` is evaluated once, before `p` points to anything. */
  ghost predicate Hidden(s: Snap, frames: set<Frame>)
  {
    && s.k == PerVariable && s.grown <= Universe(Walk()) && A1 !in s.grown && A2 !in s.grown
    && Get(s.rho, A0) == Get(s.rho, A1) <= {10} && Get(s.rho, L) == Get(s.rho, A2)
    && (forall f :: f in frames ==> f.item in s.here && Covers(s.rho, f.log))
    && (F in s.here ==> F in s.visited)
    && (|| (Get(s.rho, F) == {} && Get(s.rho, L) == {})
        || (Get(s.rho, F) <= {10} && F in s.here && forall f :: f in frames ==> f.item != F))
  }

  lemma FUntriggered(s: Snap, frames: set<Frame>)
    requires Hidden(s, frames)
    ensures !Triggered(Walk(), s, F)
  {
    forall x | x in s.grown
      ensures !Triggers(Walk(), x, F)
    {
      assert x.loc == 1 ==> x == A1;
      assert x.loc == 4 ==> x == A2;
    }
  }

  lemma CoversMore(a: Rho, b: Rho, log: set<Read>)
    requires Covers(a, log) && Below(a, b)
    ensures Covers(b, log)
  {
    forall r | r in log
      ensures r.pts <= Get(b, r.item)
    {
      assert Get(a, r.item) <= Get(b, r.item);
    }
  }

  /** Items of this graph and the entries they write. */
  lemma WalkShares(d: Dpm)
    requires d in Universe(Walk())
    ensures var g, k := Walk(), PerVariable;
            && (Shares(g, k, d, A0) <==> d == A0 || d == A1) && (Shares(g, k, d, A1) <==> d == A0 || d == A1)
            && (Shares(g, k, d, L) <==> d == L || d == A2) && (Shares(g, k, d, A2) <==> d == L || d == A2)
            && (Shares(g, k, d, F) <==> d == F)
  {
  }

  lemma HiddenLeave(a: Snap, fa: set<Frame>, b: Snap, below: set<Frame>, d: Dpm, log: set<Read>, res: set<NodeID>)
    requires Hidden(a, fa) && Next(Walk(), Leave(below, d, log, res), a, fa, b, below)
    ensures Hidden(b, below)
  {
    hide Walk, Universe, Shares, Evaluates, Triggered, Grew, Covers, Below;
    assert Frame(d, log) in fa;
    LeaveValues(a, fa, b, d, log, res);
    FUntriggered(a, fa);
    FramesCovered(a, fa, b, below);
  }

  lemma FramesCovered(a: Snap, fa: set<Frame>, b: Snap, below: set<Frame>)
    requires Hidden(a, fa) && below <= fa && Below(a.rho, b.rho) && a.here <= b.here
    ensures forall f :: f in below ==> f.item in b.here && Covers(b.rho, f.log)
  {
    hide Walk, Universe, Covers, Below;
    forall f | f in below
      ensures f.item in b.here && Covers(b.rho, f.log)
    {
      CoversMore(a.rho, b.rho, f.log);
    }
  }

  /** Whatever is written on this graph, of the actual parameters only a known set is. */
  lemma LeaveValues(a: Snap, fa: set<Frame>, b: Snap, d: Dpm, log: set<Read>, res: set<NodeID>)
    requires Hidden(a, fa) && d in Universe(Walk()) && Frame(d, log) in fa && Evaluates(Walk(), d, log, res)
    requires Grew(Walk(), PerVariable, a.rho, b.rho, d, res)
    ensures Below(a.rho, b.rho)
    ensures d == A1 || d == A2 ==> res <= Get(a.rho, d)
    ensures Get(b.rho, A0) == Get(b.rho, A1) <= {10} && Get(b.rho, L) == Get(b.rho, A2)
    ensures d == F ==> Get(b.rho, F) <= Get(a.rho, F) + {10} + Get(a.rho, L)
    ensures d != F ==> Get(b.rho, F) == Get(a.rho, F)
    ensures Get(a.rho, F) == {} && Get(a.rho, L) == {} ==> Get(b.rho, L) == {}
  {
    var g := Walk();
    assert Covers(a.rho, log);
    EvaluatedBelow(g, a.rho, d, log, res);
    WalkShares(d);
    WalkEvals(a.rho);
    WritesInside(g, a.rho, b.rho, d, res);
    GrewBelow(g, PerVariable, a.rho, b.rho, d, res);
    hide Walk, Universe, Shares, Evaluates, Grew, Eval, Below, Covers;
  }

  lemma EvaluatedBelow(g: Graph, rho: Rho, d: Dpm, log: set<Read>, res: set<NodeID>)
    requires g == Walk() && Evaluates(g, d, log, res) && Covers(rho, log)
    ensures res <= Eval(g, rho, d)
  {
    WalkOk();
    hide Walk, WellFormed, MonotoneGep, Eval;
  }

  lemma GrewBelow(g: Graph, k: Keying, a: Rho, b: Rho, d: Dpm, res: set<NodeID>)
    requires Grew(g, k, a, b, d, res)
    ensures Below(a, b)
  {
  }

  lemma WritesInside(g: Graph, a: Rho, b: Rho, d: Dpm, res: set<NodeID>)
    requires g == Walk() && Grew(g, PerVariable, a, b, d, res) && d in Universe(g)
    ensures forall e {:trigger Get(b, e)} :: e in {A0, A1, F, L, A2} ==>
              Get(b, e) == Get(a, e) + if Shares(g, PerVariable, d, e) then res else {}
  {
    WalkOk();
  }

  lemma HiddenClosed()
    ensures StepClosed(Walk(), (s, frames) => Hidden(s, frames))
  {
    var g := Walk();
    forall step, a, fa, b, fb | Hidden(a, fa) && Next(g, step, a, fa, b, fb)
      ensures Hidden(b, fb)
    {
      HiddenStep(step, a, fa, b, fb);
    }
  }

  lemma HiddenStep(step: Step, a: Snap, fa: set<Frame>, b: Snap, fb: set<Frame>)
    requires Hidden(a, fa) && Next(Walk(), step, a, fa, b, fb)
    ensures Hidden(b, fb)
  {
    FUntriggered(a, fa);
    match step
    case Leave(below, d, log, res) =>
      HiddenLeave(a, fa, b, below, d, log, res);
    case Consult(below, d, log, y) =>
      hide Triggered, Universe, Walk, Triggers;
      assert Frame(d, log) in fa;
    case _ =>
      hide Triggered, Universe, Walk, Triggers, Asked;
  }

  /** The whole-program answer for `f` has both targets. */
  lemma WalkLeast()
    ensures WellFormed(Walk()) && {10, 11} <= Get(Least(Walk()), F)
  {
    WalkOk();
    WalkSolutions(Least(Walk()));
  }

  lemma WalkSolutions(sol: Rho)
    requires Solution(Walk(), sol)
    ensures {10, 11} <= Get(sol, F)
  {
    var g := Walk();
    WalkOk();
    WalkEvals(sol);
    WalkStore(sol);
    hide Walk, Eval, WellFormed, Universe, MonotoneGep, OneNodePerPointer;
    assert Closed(g, sol, A0) && Closed(g, sol, A1) && Closed(g, sol, F);
    assert Closed(g, sol, Dpm(5, 4)) && Closed(g, sol, Dpm(6, 10)) && Closed(g, sol, Dpm(7, 10));
    assert Closed(g, sol, L) && Closed(g, sol, A2);
  }

  lemma WalkStore(rho: Rho)
    ensures var g := Walk();
            && (Closed(g, rho, Dpm(5, 4)) && 10 in Get(rho, A0) ==> 11 in Eval(g, rho, Dpm(6, 10)))
            && (11 in Get(rho, Dpm(6, 10)) ==> 11 in Eval(g, rho, Dpm(7, 10)))
            && (11 in Get(rho, Dpm(7, 10)) && 10 in Get(rho, F) ==> 11 in Eval(g, rho, L))
  {
    var g := Walk();
    WalkEdges();
    var b := Dpm(5, 4);
    assert Base(g, 6) == A0 && Base(g, 3) == F;
    assert 10 in Get(rho, A0) ==> b in ObjDeps(g, Dpm(6, 10), Get(rho, A0), 10);
    assert IndirectDeps(g, 7, 10) == {Dpm(6, 10)} && IndirectDeps(g, 3, 10) == {Dpm(7, 10)};
    assert 10 in Get(rho, F) ==> Dpm(7, 10) in ObjDeps(g, L, Get(rho, F), 10);
  }

  /** The query for `f`, with any ample budget: keyed by variable it misses a target, in every
      order in which the edges may be followed; keyed by item it does not. */
  method WalkFallsShort(solver: Solver) returns (reply: Reply)
    requires solver.g == Walk() && Ample(Walk()) <= solver.maxBudget
    requires solver.Shape() && Quiet(solver.g, solver.watch, solver.Now(), {}, {})
    requires Standing(solver.g, solver.ander, solver.Now()) && solver.outOfBudgetDpms == {}
    requires forall d :: Get(solver.Cached(), d) == {}
    modifies solver
    ensures WellFormed(Walk()) && reply.InBudget?
    ensures solver.keying == PerVariable ==> reply.pts < Get(Least(Walk()), F)
    ensures solver.keying == PerItem ==> reply.pts == Get(Least(Walk()), F)
  {
    hide Quiet, Standing, Located, Least, SoundFor, WellFormed, MonotoneGep, Answer, AllClosed,
         Below, Walk, Separate, StepClosed, Merged, Ample, Hidden, OneNodePerPointer;
    WalkOk();
    WalkLeast();
    WalkTopLevel();
    SeparateExactly(solver.g);
    StandingParts(solver.g, solver.ander, solver.Now());
    if solver.keying == PerVariable {
      HiddenClosed();
      HiddenStarts(AfterReset(solver.Now(), F));
      reply := solver.Query(F, (s, frames) => Hidden(s, frames));
      HiddenBound(solver.Now());
    } else {
      AnythingHolds(solver.g, AfterReset(solver.Now(), F), {});
      reply := solver.Query(F, Anything());
    }
  }

  lemma WalkTopLevel()
    ensures Walk().stmt(2).TopLevel()
  {
  }

  lemma HiddenStarts(s: Snap)
    requires s.k == PerVariable && s.grown == s.here == {} && forall d :: Get(s.rho, d) == {}
    ensures Hidden(s, {})
  {
  }

  lemma HiddenBound(s: Snap)
    requires Hidden(s, {})
    ensures Get(s.rho, F) <= {10}
  {
  }
}
