/**
 The whole-program answer: the least solution of all equations at once, reached by
 iterating them from the empty assignment.
 */
module LeastSolution {
  import opened Svfg

  /** Facts `o in pts(d)` that an assignment does not contain yet. */
  ghost function Missing(g: Graph, rho: Rho): set<(Dpm, NodeID)>
  {
    set d, o | d in Universe(g) && o in g.objs && o !in Get(rho, d) :: (d, o)
  }

  /** Assignments over the graph's own items and objects. */
  ghost predicate Within(g: Graph, rho: Rho)
  {
    forall d :: Get(rho, d) != {} ==> d in Universe(g) && Get(rho, d) <= g.objs
  }

  /** Items with the same cache entry have the same set. */
  ghost predicate Shared(g: Graph, k: Keying, rho: Rho)
  {
    forall d, e {:trigger Shares(g, k, d, e)} ::
      d in Universe(g) && e in Universe(g) && Shares(g, k, d, e) ==> Get(rho, d) == Get(rho, e)
  }

  /** One round of all equations, keeping what is there and sharing cache entries. */
  ghost function Step(g: Graph, k: Keying, rho: Rho): Rho
  {
    map d | d in Universe(g) ::
      set e, o | e in Universe(g) && Shares(g, k, d, e) && o in Get(rho, e) + Eval(g, rho, e) :: o
  }

  lemma MissingShrinks(g: Graph, a: Rho, b: Rho)
    requires Below(a, b)
    ensures Missing(g, b) <= Missing(g, a)
  {
    forall d, o | (d, o) in Missing(g, b)
      ensures (d, o) in Missing(g, a)
    {
      assert Get(a, d) <= Get(b, d);
    }
  }

  lemma EvalWithin(g: Graph, rho: Rho, d: Dpm)
    requires WellFormed(g) && Within(g, rho) && d in Universe(g)
    ensures Eval(g, rho, d) <= g.objs
  {
    assert StmtOk(g, d.loc);
    assert UnionOf(rho, ValueDeps(g, rho, d)) <= g.objs;
  }

  lemma StepHolds(g: Graph, k: Keying, rho: Rho, d: Dpm)
    requires d in Universe(g)
    ensures Get(rho, d) + Eval(g, rho, d) <= Get(Step(g, k, rho), d)
    ensures forall e {:trigger Shares(g, k, d, e)} ::
              e in Universe(g) && Shares(g, k, d, e) ==> Get(rho, e) <= Get(Step(g, k, rho), d)
  {
    assert Shares(g, k, d, d);
    forall e, o {:trigger Shares(g, k, d, e), o in Get(rho, e)} |
      e in Universe(g) && Shares(g, k, d, e) && o in Get(rho, e)
      ensures o in Get(Step(g, k, rho), d)
    {
      assert o in Get(rho, e) + Eval(g, rho, e);
    }
  }

  lemma StepGrows(g: Graph, k: Keying, rho: Rho)
    requires WellFormed(g) && Within(g, rho)
    ensures Within(g, Step(g, k, rho)) && Below(rho, Step(g, k, rho))
  {
    forall d | d in Universe(g)
      ensures Get(Step(g, k, rho), d) <= g.objs
    {
      StepWithin(g, k, rho, d);
    }
    hide Step, Eval, WellFormed;
    forall d
      ensures Get(rho, d) <= Get(Step(g, k, rho), d)
    {
      if d in Universe(g) {
        StepHolds(g, k, rho, d);
      }
    }
  }

  lemma StepWithin(g: Graph, k: Keying, rho: Rho, d: Dpm)
    requires WellFormed(g) && Within(g, rho) && d in Universe(g)
    ensures Get(Step(g, k, rho), d) <= g.objs
  {
    forall e | e in Universe(g)
      ensures Get(rho, e) + Eval(g, rho, e) <= g.objs
    {
      EvalWithin(g, rho, e);
    }
    hide Eval, WellFormed, Shares, Universe;
  }

  lemma InObjs(g: Graph, top: Rho, d: Dpm, o: NodeID)
    requires Within(g, top) && o in Get(top, d)
    ensures d in Universe(g) && o in g.objs
  {
  }

  lemma StrictStep(g: Graph, k: Keying, rho: Rho)
    requires WellFormed(g) && Within(g, rho) && !Below(Step(g, k, rho), rho)
    ensures Missing(g, Step(g, k, rho)) < Missing(g, rho)
  {
    var next := Step(g, k, rho);
    StepGrows(g, k, rho);
    hide Step, WellFormed;
    MissingShrinks(g, rho, next);
    var d :| !(Get(next, d) <= Get(rho, d));
    var o :| o in Get(next, d) && o !in Get(rho, d);
    InObjs(g, next, d, o);
    hide Within, Below, Universe;
    assert (d, o) in Missing(g, rho) && (d, o) !in Missing(g, next);
  }

  lemma StepStopped(g: Graph, k: Keying, rho: Rho)
    requires Below(Step(g, k, rho), rho)
    ensures Solution(g, rho) && Shared(g, k, rho)
  {
    forall d | d in Universe(g)
      ensures Eval(g, rho, d) <= Get(rho, d)
      ensures forall e {:trigger Shares(g, k, d, e)} ::
                e in Universe(g) && Shares(g, k, d, e) ==> Get(rho, d) == Get(rho, e)
    {
      StepHolds(g, k, rho, d);
      assert Get(Step(g, k, rho), d) <= Get(rho, d);
      forall e | e in Universe(g) && Shares(g, k, d, e)
        ensures Get(rho, d) == Get(rho, e)
      {
        assert Shares(g, k, e, d);
        StepHolds(g, k, rho, e);
        assert Get(Step(g, k, rho), e) <= Get(rho, e);
      }
    }
  }

  /** The least solution of all equations that contains `start` and respects shared entries. */
  ghost function LeastAbove(g: Graph, k: Keying, start: Rho): (r: Rho)
    requires WellFormed(g) && Within(g, start)
    ensures Within(g, r) && Solution(g, r) && Shared(g, k, r) && Below(start, r)
    decreases Missing(g, start)
  {
    var next := Step(g, k, start);
    StepGrows(g, k, start);
    if Below(next, start) then
      StepStopped(g, k, start);
      start
    else
      StrictStep(g, k, start);
      LeastAbove(g, k, next)
  }

  /** The answer a whole-program analysis computes. */
  ghost function Least(g: Graph): (r: Rho)
    requires WellFormed(g)
    ensures Within(g, r) && Solution(g, r)
  {
    LeastAbove(g, PerItem, map[])
  }

  lemma StepBelow(g: Graph, k: Keying, start: Rho, sol: Rho)
    requires MonotoneGep(g) && Solution(g, sol) && Shared(g, k, sol) && Below(start, sol)
    ensures Below(Step(g, k, start), sol)
  {
    forall d | d in Universe(g)
      ensures Get(Step(g, k, start), d) <= Get(sol, d)
    {
      forall e | e in Universe(g) && Shares(g, k, d, e)
        ensures Get(start, e) + Eval(g, start, e) <= Get(sol, d)
      {
        EvalMonotone(g, start, sol, e);
        assert Closed(g, sol, e) && Get(start, e) <= Get(sol, e);
      }
    }
  }

  lemma {:induction false} LeastAboveIsLeast(g: Graph, k: Keying, start: Rho, sol: Rho)
    requires WellFormed(g) && MonotoneGep(g) && Within(g, start)
    requires Solution(g, sol) && Shared(g, k, sol) && Below(start, sol)
    ensures Below(LeastAbove(g, k, start), sol)
    decreases Missing(g, start)
  {
    var next := Step(g, k, start);
    if !Below(next, start) {
      StepGrows(g, k, start);
      StrictStep(g, k, start);
      StepBelow(g, k, start, sol);
      LeastAboveIsLeast(g, k, next, sol);
    }
  }

  /** `Least` lies within every solution of the equations. */
  lemma LeastIsLeast(g: Graph, sol: Rho)
    requires WellFormed(g) && MonotoneGep(g) && Solution(g, sol)
    ensures Below(Least(g), sol)
  {
    LeastAboveIsLeast(g, PerItem, map[], sol);
  }

  /** The least solution satisfies the equations exactly. */
  lemma LeastIsExact(g: Graph, d: Dpm)
    requires WellFormed(g) && MonotoneGep(g) && d in Universe(g)
    ensures Get(Least(g), d) == Eval(g, Least(g), d)
  {
    var rho := Least(g);
    var lower := rho[d := Eval(g, rho, d)];
    assert Closed(g, rho, d);
    assert Below(lower, rho);
    hide Least, Eval, Universe;
    forall z | z in Universe(g)
      ensures Closed(g, lower, z)
    {
      assert Closed(g, rho, z);
      EvalMonotone(g, lower, rho, z);
    }
    LeastIsLeast(g, lower);
    assert Get(rho, d) <= Get(lower, d);
  }

  /** So each of its sets holds just what the statement contributes. */
  lemma LeastMeans(g: Graph, d: Dpm)
    requires WellFormed(g) && MonotoneGep(g) && d in Universe(g)
    ensures !g.stmt(d.loc).Gep? ==> forall x :: x in Get(Least(g), d) <==> Contributes(g, Least(g), d, x)
    ensures g.stmt(d.loc).Gep? ==> exists flow ::
              (forall x :: x in flow <==> Contributes(g, Least(g), d, x)) && Get(Least(g), d) == g.gep(d.loc, flow)
  {
    LeastIsExact(g, d);
    hide Least, Eval, Universe, Contributes;
    EvalMeans(g, Least(g), d);
  }

  lemma SeparateShared(g: Graph, k: Keying, rho: Rho)
    requires Separate(g, k)
    ensures Shared(g, k, rho)
  {
  }

  /** The same graph with no object fit for strong updates. */
  ghost function Weak(g: Graph): Graph
  {
    g.(concrete := (o: NodeID, n: LocID) => false)
  }

  lemma WeakEval(g: Graph, rho: Rho, d: Dpm)
    requires MonotoneGep(g)
    ensures Eval(g, rho, d) <= Eval(Weak(g), rho, d)
  {
    var w := Weak(g);
    if HasBase(g, d.loc) {
      var pts := Get(rho, Base(g, d.loc));
      forall o, y | o in pts && y in ObjDeps(g, d, pts, o)
        ensures y in ObjDeps(w, d, pts, o)
      {
      }
      assert ObjsDeps(g, d, pts, pts) <= ObjsDeps(w, d, pts, pts);
    }
    assert ValueDeps(g, rho, d) <= ValueDeps(w, rho, d);
    assert UnionOf(rho, ValueDeps(g, rho, d)) <= UnionOf(rho, ValueDeps(w, rho, d));
  }

  /** Strong updates only take away: the least solution lies within that of the same
      equations with weak updates throughout. */
  lemma StrongWithinWeak(g: Graph)
    requires WellFormed(g) && MonotoneGep(g)
    ensures WellFormed(Weak(g)) && MonotoneGep(Weak(g)) && Below(Least(g), Least(Weak(g)))
  {
    var w := Weak(g);
    assert WellFormed(w) by {
      assert forall e :: e in g.edges ==> EdgeOk(g, e) && EdgeOk(w, e);
      assert forall n :: n in g.locs ==> StmtOk(g, n) && StmtOk(w, n);
    }
    forall d | d in Universe(g)
      ensures Closed(g, Least(w), d)
    {
      assert d in Universe(w) && Closed(w, Least(w), d);
      WeakEval(g, Least(w), d);
    }
    LeastIsLeast(g, Least(w));
  }

  /** `rho` on the items of `part`, `rest` elsewhere. */
  ghost function Patch(rho: Rho, rest: Rho, part: set<Dpm>): (r: Rho)
    ensures forall d :: Get(r, d) == if d in part then Get(rho, d) else Get(rest, d)
  {
    map d | d in rest.Keys + part :: if d in part then Get(rho, d) else rest[d]
  }

  /** `d` satisfies its equation within `part` and contains `start`, or already holds all
      that `above` gives it. */
  ghost predicate Secured(g: Graph, start: Rho, rho: Rho, above: Rho, part: set<Dpm>, d: Dpm)
  {
    || (Closed(g, rho, d) && Deps(g, rho, d) <= part && Get(start, d) <= Get(rho, d))
    || Get(above, d) <= Get(rho, d)
  }

  lemma PatchIsSolution(g: Graph, start: Rho, rho: Rho, above: Rho, part: set<Dpm>, d: Dpm)
    requires MonotoneGep(g) && Below(rho, above) && Closed(g, above, d) && Get(start, d) <= Get(above, d)
    requires d in part ==> Secured(g, start, rho, above, part, d)
    ensures Closed(g, Patch(rho, above, part), d) && Get(start, d) <= Get(Patch(rho, above, part), d)
  {
    var patched := Patch(rho, above, part);
    if d in part && Closed(g, rho, d) && Deps(g, rho, d) <= part {
      EvalAgree(g, rho, patched, d);
    } else {
      EvalMonotone(g, patched, above, d);
    }
  }

  lemma PatchedSolves(g: Graph, start: Rho, rho: Rho, above: Rho, part: set<Dpm>)
    requires MonotoneGep(g) && Below(rho, above) && Solution(g, above) && Below(start, above)
    requires part <= Universe(g)
    requires forall d {:trigger d in part} :: d in part ==> Secured(g, start, rho, above, part, d)
    ensures Solution(g, Patch(rho, above, part)) && Below(start, Patch(rho, above, part))
  {
    hide Closed, MonotoneGep, Secured, Universe;
    forall d
      ensures Get(start, d) <= Get(Patch(rho, above, part), d)
      ensures d in Universe(g) ==> Closed(g, Patch(rho, above, part), d)
    {
      if d in Universe(g) {
        PatchIsSolution(g, start, rho, above, part, d);
      }
    }
  }

  /** Without shared entries, an assignment below the least solution containing `start`
      agrees with it on a set of items that satisfy their equations and read only each other,
      or already hold all that solution gives them. */
  lemma ClosedPartIsLeast(g: Graph, k: Keying, start: Rho, rho: Rho, part: set<Dpm>)
    requires WellFormed(g) && MonotoneGep(g) && Within(g, start) && part <= Universe(g) && Separate(g, k)
    requires Below(rho, LeastAbove(g, k, start))
    requires forall d {:trigger d in part} ::
               d in part ==> Secured(g, start, rho, LeastAbove(g, k, start), part, d)
    ensures forall d :: d in part ==> Get(rho, d) == Get(LeastAbove(g, k, start), d)
  {
    hide LeastAbove, Within, MonotoneGep, WellFormed, Secured, Solution, Universe, Patch, Separate, Shared;
    var above := LeastAbove(g, k, start);
    var patched := Patch(rho, above, part);
    PatchedSolves(g, start, rho, above, part);
    SeparateShared(g, k, patched);
    LeastAboveIsLeast(g, k, start, patched);
    forall d | d in part
      ensures Get(rho, d) == Get(above, d)
    {
      assert Get(above, d) <= Get(patched, d) && Get(rho, d) <= Get(above, d);
    }
  }

  // ---------------------------------------------------------------- the pre-analysis

  /** What a flow-insensitive pre-analysis found for each variable. */
  type PreAnalysis = NodeID -> set<NodeID>

  ghost function Everywhere(g: Graph, ander: PreAnalysis): Rho
  {
    map d | d in Universe(g) :: ander(d.v)
  }

  /** The pre-analysis is sound: at every location its sets satisfy all equations. */
  ghost predicate SoundFor(g: Graph, ander: PreAnalysis)
  {
    (forall v :: v in g.vars ==> ander(v) <= g.objs) && Solution(g, Everywhere(g, ander))
  }

  /** The inclusions a flow-insensitive analysis satisfies for the statement at `n`: one set
      for each variable wherever it is read or written, and no strong updates. */
  ghost predicate Includes(g: Graph, ander: PreAnalysis, n: LocID)
  {
    match g.stmt(n)
    case Addr(o) => o in ander(g.lhs(n))
    case Copy => forall y :: y in DirectDeps(g, n) ==> ander(y.v) <= ander(g.lhs(n))
    case Gep => g.gep(n, UnionOf(Everywhere(g, ander), DirectDeps(g, n))) <= ander(g.lhs(n))
    case Load(p) => forall o :: o in ander(p) ==> ander(o) <= ander(g.lhs(n))
    case Store(p, q) => forall o :: o in ander(p) ==> ander(q) <= ander(o)
    case MR => true
  }

  /** A flow-insensitive analysis is sound for the flow-sensitive equations. */
  lemma InclusionsAreSound(g: Graph, ander: PreAnalysis)
    requires WellFormed(g) && (forall v :: v in g.vars ==> ander(v) <= g.objs)
    requires forall n :: n in g.locs ==> Includes(g, ander, n)
    ensures SoundFor(g, ander)
  {
    forall d | d in Universe(g)
      ensures Closed(g, Everywhere(g, ander), d)
    {
      assert Includes(g, ander, d.loc) && StmtOk(g, d.loc);
      if HasBase(g, d.loc) {
        forall y, x | y in ValueDeps(g, Everywhere(g, ander), d) && x in Get(Everywhere(g, ander), y)
          ensures x in ander(d.v)
        {
          DepIncluded(g, ander, d, y);
        }
      }
    }
  }

  lemma DepIncluded(g: Graph, ander: PreAnalysis, d: Dpm, y: Dpm)
    requires WellFormed(g) && d in Universe(g) && HasBase(g, d.loc) && Includes(g, ander, d.loc)
    requires y in ValueDeps(g, Everywhere(g, ander), d)
    ensures Get(Everywhere(g, ander), y) <= ander(d.v)
  {
    assert StmtOk(g, d.loc);
    var rho := Everywhere(g, ander);
    var pts := Get(rho, Base(g, d.loc));
    var o :| o in pts && y in ObjDeps(g, d, pts, o);
    assert o in ander(Base(g, d.loc).v) && Get(rho, y) <= ander(y.v);
  }

  /** Items given up get the set of the pre-analysis, nothing is known of the others. */
  ghost function Pins(pinned: set<Dpm>, ander: PreAnalysis): Rho
  {
    map d | d in pinned :: ander(d.v)
  }

  lemma PinsWithin(g: Graph, ander: PreAnalysis, pinned: set<Dpm>)
    requires SoundFor(g, ander) && pinned <= Universe(g)
    ensures Within(g, Pins(pinned, ander))
  {
  }

  /** The answer to expect once the items of `pinned` were given up. */
  ghost function Answer(g: Graph, k: Keying, ander: PreAnalysis, pinned: set<Dpm>): (r: Rho)
    requires WellFormed(g) && SoundFor(g, ander) && pinned <= Universe(g)
    ensures Within(g, r) && Solution(g, r) && Shared(g, k, r) && Below(Pins(pinned, ander), r)
  {
    LeastAbove(g, k, Pins(pinned, ander))
  }

  lemma EverywhereShared(g: Graph, k: Keying, ander: PreAnalysis)
    ensures Shared(g, k, Everywhere(g, ander))
  {
  }

  /** It lies between the whole-program answer and the pre-analysis, is the latter on the
      items given up, and grows with them. */
  lemma AnswerBetween(g: Graph, k: Keying, ander: PreAnalysis, pinned: set<Dpm>)
    requires WellFormed(g) && MonotoneGep(g) && SoundFor(g, ander) && pinned <= Universe(g)
    ensures Below(Least(g), Answer(g, k, ander, pinned))
    ensures Below(Answer(g, k, ander, pinned), Everywhere(g, ander))
    ensures forall d :: d in pinned ==> Get(Answer(g, k, ander, pinned), d) == ander(d.v)
  {
    hide LeastAbove, Least, Within, Solution, MonotoneGep, WellFormed, Shared;
    LeastIsLeast(g, Answer(g, k, ander, pinned));
    assert Below(Pins(pinned, ander), Everywhere(g, ander)) && Solution(g, Everywhere(g, ander));
    EverywhereShared(g, k, ander);
    LeastAboveIsLeast(g, k, Pins(pinned, ander), Everywhere(g, ander));
    forall d | d in pinned
      ensures Get(Answer(g, k, ander, pinned), d) == ander(d.v)
    {
      assert Get(Pins(pinned, ander), d) <= Get(Answer(g, k, ander, pinned), d) <= Get(Everywhere(g, ander), d);
    }
  }

  lemma AnswerGrows(g: Graph, k: Keying, ander: PreAnalysis, pinned: set<Dpm>, more: set<Dpm>)
    requires WellFormed(g) && MonotoneGep(g) && SoundFor(g, ander) && pinned <= more <= Universe(g)
    ensures Below(Answer(g, k, ander, pinned), Answer(g, k, ander, more))
  {
    forall d
      ensures Get(Pins(pinned, ander), d) <= Get(Answer(g, k, ander, more), d)
    {
      assert Get(Pins(pinned, ander), d) <= Get(Pins(more, ander), d);
    }
    hide Shared, LeastAbove;
    LeastAboveIsLeast(g, k, Pins(pinned, ander), Answer(g, k, ander, more));
  }

  /** It is the whole-program answer throughout if and only if the pre-analysis was already
      exact on every item given up, and the whole-program answer gives items with the same
      cache entry the same set. */
  lemma AnswerExact(g: Graph, k: Keying, ander: PreAnalysis, pinned: set<Dpm>)
    requires WellFormed(g) && MonotoneGep(g) && SoundFor(g, ander) && pinned <= Universe(g)
    ensures (forall d :: Get(Answer(g, k, ander, pinned), d) == Get(Least(g), d)) <==>
            Shared(g, k, Least(g)) && forall d :: d in pinned ==> ander(d.v) == Get(Least(g), d)
  {
    hide LeastAbove, Least, Within, Solution, MonotoneGep, WellFormed, SoundFor, Shared;
    AnswerBetween(g, k, ander, pinned);
    PinsWithin(g, ander, pinned);
    var answer := Answer(g, k, ander, pinned);
    if Shared(g, k, Least(g)) && forall d :: d in pinned ==> ander(d.v) == Get(Least(g), d) {
      assert Below(Pins(pinned, ander), Least(g));
      LeastAboveIsLeast(g, k, Pins(pinned, ander), Least(g));
      forall d
        ensures Get(answer, d) == Get(Least(g), d)
      {
        assert Get(Least(g), d) <= Get(answer, d) <= Get(Least(g), d);
      }
    } else if d :| d in pinned && ander(d.v) != Get(Least(g), d) {
      assert Get(answer, d) == ander(d.v);
    } else if forall d :: Get(answer, d) == Get(Least(g), d) {
      SharedSame(g, k, answer, Least(g));
    }
  }

  lemma SharedSame(g: Graph, k: Keying, a: Rho, b: Rho)
    requires Shared(g, k, a) && forall d :: Get(a, d) == Get(b, d)
    ensures Shared(g, k, b)
  {
  }

  // ---------------------------------------------------------------- bounding the caches

  /** An assignment that evaluating any statement within it does not leave. */
  ghost predicate Roof(g: Graph, k: Keying, top: Rho)
  {
    && Within(g, top) && Shared(g, k, top)
    && if MonotoneGep(g) then Solution(g, top) else forall d :: d in Universe(g) ==> Get(top, d) == g.objs
  }

  /** No cached set exceeds the answer to expect, if field handling is monotone. */
  ghost function Ceiling(g: Graph, k: Keying, ander: PreAnalysis, pinned: set<Dpm>): (r: Rho)
    requires WellFormed(g) && SoundFor(g, ander) && pinned <= Universe(g)
    ensures Roof(g, k, r)
  {
    if MonotoneGep(g) then Answer(g, k, ander, pinned)
    else map d | d in Universe(g) :: g.objs
  }

  lemma RoofHolds(g: Graph, k: Keying, top: Rho, d: Dpm)
    requires WellFormed(g) && d in Universe(g) && Roof(g, k, top)
    ensures Eval(g, top, d) <= Get(top, d)
  {
    EvalWithin(g, top, d);
    if MonotoneGep(g) {
      assert Closed(g, top, d);
    }
  }
}
