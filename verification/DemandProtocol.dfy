/**
 The bookkeeping argument behind the demand-driven solver, over immutable snapshots of
 its state: which items may still violate their equation while evaluations are active
 on the call stack, and why a growing cache with a re-run of its successors keeps that
 under control.
 */
module DemandProtocol {
  import opened Svfg
  import opened LeastSolution
  import FiniteSets

  /** One cached set consulted by an evaluation in progress, with the value it saw. */
  datatype Read = Read(item: Dpm, pts: set<NodeID>)

  /** An active evaluation of `item` and what it has consulted so far. */
  datatype Frame = Frame(item: Dpm, log: set<Read>)

  /** A snapshot of the solver.
      rho      cached points-to sets
      visited  items marked visited
      here     items first reached in the current query
      settled  items finished by earlier queries
      loads    items with an entry in the load maps
      out      query ran out of budget
      steps    step counter; evals counts statement evaluations of the query
      pinned   items given up, whose sets were replaced by the pre-analysis
      top      assignment no cached set exceeds
      grown    items whose evaluation made their cached set grow in the current query
      max      budget of a query; k is how the caches are keyed, root what the query asks for */
  datatype Snap = Snap(rho: Rho, visited: set<Dpm>, here: set<Dpm>, settled: set<Dpm>,
                       loads: set<Dpm>, out: bool, steps: nat, evals: nat,
                       pinned: set<Dpm>, top: Rho, grown: set<Dpm>, max: nat, k: Keying, root: Dpm)
  {
    ghost function Seen(): set<Dpm> { here + settled }
  }

  /** The query is within budget, and no cache entry is shared: then it is known which items
      may still violate their equation. */
  ghost predicate Tracked(g: Graph, s: Snap)
  {
    !s.out && Separate(g, s.k)
  }

  ghost predicate SettledClosed(g: Graph, s: Snap)
  {
    forall z {:trigger Closed(g, s.rho, z)} {:trigger Deps(g, s.rho, z)} ::
      z in s.settled && z !in s.pinned ==> Closed(g, s.rho, z) && Deps(g, s.rho, z) <= s.settled
  }

  ghost predicate Finished(g: Graph, s: Snap)
  {
    Separate(g, s.k) ==> SettledClosed(g, s)
  }

  lemma FinishedSame(g: Graph, a: Snap, b: Snap)
    requires Finished(g, a) && b.settled == a.settled && a.pinned <= b.pinned && b.k == a.k
    requires forall d :: Get(a.rho, d) == Get(b.rho, d)
    ensures Finished(g, b)
  {
    if Separate(g, b.k) {
      forall z | z in b.settled && z !in b.pinned
        ensures Closed(g, b.rho, z) && Deps(g, b.rho, z) <= b.settled
      {
        assert Closed(g, a.rho, z) && Deps(g, a.rho, z) <= a.settled;
        EvalAgree(g, a.rho, b.rho, z);
      }
    }
  }

  ghost predicate Budgeted(s: Snap)
  {
    && s.evals <= s.max
    && (if s.out then s.evals == s.max && s.steps == s.max + 1 else s.evals == s.steps && |s.here| <= s.evals)
  }

  /** How marks, load maps and the sets of finished and given-up items fit together. */
  ghost predicate Marked(g: Graph, s: Snap)
  {
    && s.Seen() <= Universe(g)
    && s.here !! s.settled
    && s.visited <= s.Seen()
    && s.settled <= s.visited
    && s.grown <= s.here
    && s.pinned <= s.Seen() && (!s.out ==> s.pinned <= s.settled)
    && (forall d :: d in s.here && !g.stmt(d.loc).TopLevel() ==> d in s.loads)
  }

  /** Holds whenever no statement of the solver is half executed. */
  ghost predicate Consistent(g: Graph, s: Snap)
  {
    && WellFormed(g)
    && Marked(g, s)
    && Below(s.rho, s.top) && Roof(g, s.k, s.top)
    && Finished(g, s)
    && Budgeted(s)
  }

  ghost predicate Fresh(rho: Rho, log: set<Read>)
  {
    forall r :: r in log ==> Get(rho, r.item) == r.pts
  }

  ghost predicate FrameOk(g: Graph, s: Snap, f: Frame)
  {
    && f.item in s.here
    && forall r :: r in f.log ==> r.item in s.Seen() && Triggers(g, r.item, f.item)
  }

  ghost predicate FramesOk(g: Graph, s: Snap, frames: set<Frame>)
  {
    forall f {:trigger FrameOk(g, s, f)} :: f in frames ==> FrameOk(g, s, f)
  }

  /** `z` satisfies its equation, or an active evaluation of `z` has seen only values
      that are still current. */
  ghost predicate Explained(g: Graph, s: Snap, frames: set<Frame>, z: Dpm)
  {
    || (Closed(g, s.rho, z) && Deps(g, s.rho, z) <= s.Seen())
    || exists f :: f in frames && f.item == z && Fresh(s.rho, f.log)
  }

  /** The stack invariant: only items pending in some re-run loop lack an explanation. */
  ghost predicate Settling(g: Graph, s: Snap, pend: set<Dpm>, frames: set<Frame>)
  {
    forall z {:trigger Explained(g, s, frames, z)} ::
      z in s.here && z !in pend ==> Explained(g, s, frames, z)
  }

  /** An active evaluation of `item`: the values consulted so far, the items pending in
      re-run loops further down the stack, and the evaluations active there. */
  datatype Ctx = Ctx(item: Dpm, log: set<Read>, pend: set<Dpm>, below: set<Frame>)
  {
    ghost function Frames(): set<Frame> { below + {Frame(item, log)} }

    ghost predicate Extends(c: Ctx)
    {
      item == c.item && c.log <= log && pend == c.pend && below == c.below
    }
  }

  // ---------------------------------------------------------- atomic steps

  /** `d` was triggered by an item that grew. */
  ghost predicate Triggered(g: Graph, s: Snap, d: Dpm)
  {
    exists x :: x in s.grown && Triggers(g, x, d)
  }

  /** `d` is what the query asks for, or what an active evaluation reads, or was triggered. */
  ghost predicate Asked(g: Graph, s: Snap, frames: set<Frame>, d: Dpm)
  {
    d == s.root || Triggered(g, s, d) || exists f :: f in frames && Triggers(g, d, f.item)
  }

  /** From `a` to `b` the cache entry of `d` gains `res`. */
  ghost predicate Grew(g: Graph, k: Keying, a: Rho, b: Rho, d: Dpm, res: set<NodeID>)
  {
    forall e {:trigger Get(b, e)} :: Get(b, e) == Get(a, e) + if e in Universe(g) && Shares(g, k, d, e) then res else {}
  }

  /** The budget test of a visit: `b` has the item marked and one more step counted, and
      an evaluation is under way unless the query is out of budget. */
  ghost predicate VisitStep(a: Snap, b: Snap, d: Dpm)
  {
    && b == a.(visited := a.visited + {d}, here := a.here + {d}, out := b.out, steps := b.steps, evals := b.evals)
    && (if a.out then b.out && b.steps == a.steps && b.evals == a.evals
        else && b.steps == a.steps + 1
             && b.out == (b.steps > a.max)
             && b.evals == if b.out then a.evals else a.evals + 1)
  }

  /** What the solver does at a time: it starts an evaluation, or would if it had budget left,
      consults an item for one, ends one, withdraws a mark for a re-run, or writes load maps. */
  datatype Step =
    | Enter(d: Dpm)
    | Consult(below: set<Frame>, d: Dpm, log: set<Read>, y: Dpm)
    | Leave(below: set<Frame>, d: Dpm, log: set<Read>, res: set<NodeID>)
    | Unmark(d: Dpm)
    | Note

  ghost predicate Next(g: Graph, step: Step, a: Snap, fa: set<Frame>, b: Snap, fb: set<Frame>)
  {
    match step
    case Enter(d) =>
      && d in Universe(g) && d !in a.visited && (d in a.here ==> Triggered(g, a, d)) && Asked(g, a, fa, d)
      && VisitStep(a, b, d) && fb == if b.out then fa else fa + {Frame(d, {})}
    case Consult(below, d, log, y) =>
      && fa == below + {Frame(d, log)} && fb == below + {Frame(d, log + {Read(y, Get(a.rho, y))})}
      && Triggers(g, y, d) && b == a
    case Leave(below, d, log, res) =>
      && fa == below + {Frame(d, log)} && fb == below
      && d in Universe(g) && (forall f :: f in below && f.item == d ==> Triggered(g, a, d))
      && Evaluates(g, d, log, res) && Grew(g, a.k, a.rho, b.rho, d, res)
      && b == a.(rho := b.rho, grown := a.grown + if res <= Get(a.rho, d) then {} else {d})
    case Unmark(d) =>
      d in a.here && Triggered(g, a, d) && b == a.(visited := a.visited - {d}) && fb == fa
    case Note =>
      b == a.(loads := b.loads) && a.loads <= b.loads && fb == fa
  }

  /** A property of states and the evaluations active in them. */
  type Watch = (Snap, set<Frame>) -> bool

  ghost predicate StepClosed(g: Graph, w: Watch)
  {
    forall step, a, fa, b, fb {:trigger Next(g, step, a, fa, b, fb)} ::
      w(a, fa) && Next(g, step, a, fa, b, fb) ==> w(b, fb)
  }

  /** The property that is being watched holds. */
  ghost predicate Watched(g: Graph, w: Watch, s: Snap, frames: set<Frame>)
  {
    StepClosed(g, w) && w(s, frames)
  }

  /** Watches nothing. */
  ghost function Anything(): Watch
  {
    (s: Snap, frames: set<Frame>) => true
  }

  lemma AnythingHolds(g: Graph, s: Snap, frames: set<Frame>)
    ensures Watched(g, Anything(), s, frames) && StepClosed(g, Anything()) && Anything()(s, frames)
  {
  }

  lemma WatchStep(g: Graph, w: Watch, step: Step, a: Snap, fa: set<Frame>, b: Snap, fb: set<Frame>)
    requires Watched(g, w, a, fa) && Next(g, step, a, fa, b, fb)
    ensures Watched(g, w, b, fb)
  {
  }

  /** Between statements: all marks are in place and only `pend` awaits a re-run. */
  ghost predicate Quiet(g: Graph, w: Watch, s: Snap, pend: set<Dpm>, frames: set<Frame>)
  {
    && Consistent(g, s)
    && s.visited == s.Seen()
    && FramesOk(g, s, frames)
    && (Tracked(g, s) ==> Settling(g, s, pend, frames))
    && Watched(g, w, s, frames)
  }

  /** An item is evaluated while an evaluation of it is active only after a trigger. */
  ghost predicate Nested(g: Graph, s: Snap, c: Ctx)
  {
    forall f :: f in c.below && f.item == c.item ==> Triggered(g, s, c.item)
  }

  /** The evaluation described by `c` is the innermost active one. */
  ghost predicate Evaluating(g: Graph, w: Watch, s: Snap, c: Ctx)
  {
    Quiet(g, w, s, c.pend, c.Frames()) && c.item in s.here && Nested(g, s, c)
  }

  /** `d` may be queried: either nothing is disturbed, or only its own mark was just
      cleared, which makes it pending. */
  ghost predicate Ready(g: Graph, w: Watch, s: Snap, d: Dpm, pend: set<Dpm>, frames: set<Frame>)
  {
    && d in Universe(g)
    && (!g.stmt(d.loc).TopLevel() ==> d in s.loads)
    && Consistent(g, s)
    && FramesOk(g, s, frames)
    && Watched(g, w, s, frames) && Asked(g, s, frames, d)
    && (if d in s.visited || d !in s.here
        then s.visited == s.Seen() && (Tracked(g, s) ==> Settling(g, s, pend, frames))
        else s.visited == s.Seen() - {d} && Triggered(g, s, d)
              && (Tracked(g, s) ==> Settling(g, s, pend + {d}, frames)))
  }

  // ---------------------------------------------------------- progress and its price

  ghost function Times(c: nat, n: nat): nat
  {
    if n == 0 then 0 else Times(c, n - 1) + c
  }

  /** Re-runs that one growing cache entry can cause. */
  ghost function Effort(g: Graph): (r: int)
    ensures r >= 0
  {
    Times(|Universe(g)|, |g.edges|)
  }

  /** Evaluations so far, and those that marks still to come and growth still possible can
      cause. */
  ghost function Cost(g: Graph, s: Snap): nat
  {
    s.evals + |Universe(g) - s.visited| + Times(Effort(g), |Missing(g, s.rho)|)
  }

  /** At most `extra` was spent, and if the budget ran out, it was smaller than the price. */
  ghost predicate Thrifty(g: Graph, a: Snap, b: Snap, extra: int)
  {
    && Cost(g, b) <= Cost(g, a) + extra
    && (b.out && !a.out ==> a.max < Cost(g, a) + extra)
  }

  /** What any stretch of solver code does to the state. */
  ghost predicate Advances(g: Graph, a: Snap, b: Snap, extra: int)
  {
    && a.settled == b.settled && a.pinned == b.pinned && a.top == b.top && a.max == b.max && a.k == b.k
    && a.root == b.root && a.here <= b.here
    && a.loads <= b.loads
    && a.grown <= b.grown
    && Below(a.rho, b.rho)
    && Missing(g, b.rho) <= Missing(g, a.rho)
    && (a.out ==> b.out)
    && (Missing(g, b.rho) == Missing(g, a.rho) ==> a.visited <= b.visited)
    && Thrifty(g, a, b, extra)
  }

  ghost predicate Evolves(g: Graph, a: Snap, b: Snap)
  {
    Advances(g, a, b, 0)
  }

  lemma EvolvesAdvances(g: Graph, a: Snap, b: Snap)
    ensures Evolves(g, a, b) <==> Advances(g, a, b, 0)
  {
  }

  lemma EvaluatingItem(g: Graph, w: Watch, s: Snap, c: Ctx)
    requires Evaluating(g, w, s, c)
    ensures c.item in Universe(g) && c.item.loc in g.locs && c.item.v in g.vars
    ensures !g.stmt(c.item.loc).TopLevel() ==> c.item in s.loads
    ensures Roof(g, s.k, s.top)
  {
  }

  /** Progress of the termination measure, whether or not a cache grew. */
  lemma EvolvesShrinks(g: Graph, a: Snap, b: Snap)
    requires Evolves(g, a, b)
    ensures Missing(g, b.rho) <= Missing(g, a.rho) && a.loads <= b.loads
    ensures Missing(g, b.rho) == Missing(g, a.rho) ==> Universe(g) - b.visited <= Universe(g) - a.visited
  {
  }

  lemma EvolvesReflexive(g: Graph, a: Snap)
    ensures Evolves(g, a, a)
  {
    hide Cost;
  }

  lemma BelowTransitive(a: Rho, b: Rho, c: Rho)
    requires Below(a, b) && Below(b, c)
    ensures Below(a, c)
  {
    forall d
      ensures Get(a, d) <= Get(c, d)
    {
      assert Get(a, d) <= Get(b, d) <= Get(c, d);
    }
  }

  lemma AdvancesTransitive(g: Graph, a: Snap, b: Snap, c: Snap, x: int, y: int)
    requires Advances(g, a, b, x) && Advances(g, b, c, y) && y >= 0
    ensures Advances(g, a, c, x + y)
  {
    hide Cost, Missing, Below;
    BelowTransitive(a.rho, b.rho, c.rho);
  }

  lemma EvolvesTransitive(g: Graph, a: Snap, b: Snap, c: Snap)
    requires Evolves(g, a, b) && Evolves(g, b, c)
    ensures Evolves(g, a, c)
  {
    hide Advances;
    AdvancesTransitive(g, a, b, c, 0, 0);
  }

  lemma AdvancesMeasure(g: Graph, a: Snap, b: Snap, extra: int)
    requires Advances(g, a, b, extra)
    ensures Missing(g, b.rho) <= Missing(g, a.rho) && a.here <= b.here && a.grown <= b.grown
  {
  }

  lemma AdvancesWeaker(g: Graph, a: Snap, b: Snap, x: int, y: int)
    requires Advances(g, a, b, x) && x <= y
    ensures Advances(g, a, b, y)
  {
    hide Cost, Missing, Below;
  }

  lemma FramesPersist(g: Graph, a: Snap, b: Snap, frames: set<Frame>)
    requires FramesOk(g, a, frames) && a.here <= b.here && a.settled == b.settled
    ensures FramesOk(g, b, frames)
  {
    forall f | f in frames
      ensures FrameOk(g, b, f)
    {
      assert FrameOk(g, a, f);
    }
  }

  // ---------------------------------------------------------- evaluations in progress

  ghost function Items(log: set<Read>): set<Dpm>
  {
    set r | r in log :: r.item
  }

  /** `rho` holds at least what was seen. */
  ghost predicate Covers(rho: Rho, log: set<Read>)
  {
    forall r :: r in log ==> r.pts <= Get(rho, r.item)
  }

  /** `res` is the union over `deps` for every assignment that agrees with the log, and within
      it for every larger one. */
  ghost predicate Computes(log: set<Read>, res: set<NodeID>, deps: set<Dpm>)
  {
    && deps <= Items(log)
    && (forall rho: Rho {:trigger Fresh(rho, log)} :: Fresh(rho, log) ==> UnionOf(rho, deps) == res)
    && (forall rho: Rho {:trigger Covers(rho, log)} :: Covers(rho, log) ==> res <= UnionOf(rho, deps))
  }

  /** A finished evaluation: on any assignment that agrees with the log, `res` is the
      right-hand side for `d` and nothing else was consulted; on a larger one it is part of
      it, if field handling is monotone. */
  ghost predicate Evaluates(g: Graph, d: Dpm, log: set<Read>, res: set<NodeID>)
  {
    && (forall rho: Rho {:trigger Fresh(rho, log)} ::
          Fresh(rho, log) ==> Eval(g, rho, d) == res && Deps(g, rho, d) <= Items(log))
    && (MonotoneGep(g) ==> forall rho: Rho {:trigger Covers(rho, log)} ::
          Covers(rho, log) ==> res <= Eval(g, rho, d))
  }

  lemma ComputesNothing(log: set<Read>)
    ensures Computes(log, {}, {})
  {
  }

  lemma ComputesRead(log: set<Read>, res: set<NodeID>, deps: set<Dpm>, r: Read)
    requires Computes(log, res, deps)
    ensures Computes(log + {r}, res + r.pts, deps + {r.item})
    ensures Computes(log + {r}, res, deps)
  {
    forall rho: Rho | Fresh(rho, log + {r})
      ensures UnionOf(rho, deps + {r.item}) == res + r.pts && UnionOf(rho, deps) == res
    {
      assert Fresh(rho, log) && r in log + {r};
      assert UnionOf(rho, deps) == res && Get(rho, r.item) == r.pts;
    }
    forall rho: Rho | Covers(rho, log + {r})
      ensures res + r.pts <= UnionOf(rho, deps + {r.item}) && res <= UnionOf(rho, deps)
    {
      assert Covers(rho, log) && r in log + {r};
      UnionOfSubset(rho, deps, deps + {r.item});
      UnionOfMember(rho, deps + {r.item}, r.item);
    }
    assert Items(log + {r}) == Items(log) + {r.item};
  }

  lemma ComputesLonger(log: set<Read>, res: set<NodeID>, deps: set<Dpm>, longer: set<Read>)
    requires Computes(log, res, deps) && log <= longer
    ensures Computes(longer, res, deps)
  {
    forall rho: Rho | Fresh(rho, longer)
      ensures UnionOf(rho, deps) == res
    {
      assert Fresh(rho, log);
    }
    forall rho: Rho | Covers(rho, longer)
      ensures res <= UnionOf(rho, deps)
    {
      assert Covers(rho, log);
    }
  }

  /** The evaluation of a copy, phi or memory-region item. */
  lemma FlowEvaluates(g: Graph, d: Dpm, log: set<Read>, res: set<NodeID>, deps: set<Dpm>)
    requires g.stmt(d.loc).Copy? || g.stmt(d.loc).MR? || g.stmt(d.loc).Gep?
    requires deps == if g.stmt(d.loc).MR? then IndirectDeps(g, d.loc, d.v) else DirectDeps(g, d.loc)
    requires Computes(log, res, deps)
    ensures Evaluates(g, d, log, if g.stmt(d.loc).Gep? then g.gep(d.loc, res) else res)
  {
    forall rho: Rho
      ensures Deps(g, rho, d) == deps && ValueDeps(g, rho, d) == deps
      ensures Fresh(rho, log) ==> Eval(g, rho, d) == if g.stmt(d.loc).Gep? then g.gep(d.loc, res) else res
      ensures MonotoneGep(g) && Covers(rho, log) ==>
                (if g.stmt(d.loc).Gep? then g.gep(d.loc, res) else res) <= Eval(g, rho, d)
    {
      assert ValueDeps(g, rho, d) == deps;
    }
  }

  /** The evaluation of a load or store whose base was seen to point to `pts`. */
  lemma BaseEvaluates(g: Graph, d: Dpm, log: set<Read>, res: set<NodeID>, pts: set<NodeID>)
    requires HasBase(g, d.loc)
    requires Computes(log, pts, {Base(g, d.loc)})
    requires Computes(log, res, ObjsDeps(g, d, pts, pts))
    ensures Evaluates(g, d, log, res)
  {
    var base := Base(g, d.loc);
    forall rho: Rho | Fresh(rho, log)
      ensures Eval(g, rho, d) == res
      ensures Deps(g, rho, d) <= Items(log)
    {
      assert Get(rho, base) == UnionOf(rho, {base}) == pts;
      assert ValueDeps(g, rho, d) == ObjsDeps(g, d, pts, pts);
    }
    forall rho: Rho | Covers(rho, log)
      ensures res <= Eval(g, rho, d)
    {
      assert pts <= UnionOf(rho, {base}) == Get(rho, base);
      ObjsDepsMonotone(g, d, pts, Get(rho, base));
      UnionOfSubset(rho, ObjsDeps(g, d, pts, pts), ValueDeps(g, rho, d));
    }
  }

  // ---------------------------------------------------------- steps of the protocol

  /** Starting an evaluation explains its item. */
  lemma StartEvaluation(g: Graph, a: Snap, b: Snap, d: Dpm, pend: set<Dpm>, frames: set<Frame>)
    requires Settling(g, a, pend + {d}, frames)
    requires b.rho == a.rho && b.here == a.here + {d} && b.settled == a.settled
    ensures Settling(g, b, pend, frames + {Frame(d, {})})
  {
    forall z | z in b.here && z !in pend
      ensures Explained(g, b, frames + {Frame(d, {})}, z)
    {
      if z == d {
        assert Frame(d, {}) in frames + {Frame(d, {})} && Fresh(b.rho, Frame(d, {}).log);
      } else {
        ExplainedWiden(g, a, b, frames, frames + {Frame(d, {})}, z);
      }
    }
  }

  lemma ExplainedWiden(g: Graph, a: Snap, b: Snap, fs: set<Frame>, gs: set<Frame>, z: Dpm)
    requires Explained(g, a, fs, z)
    requires b.rho == a.rho && a.here <= b.here && a.settled == b.settled
    requires forall f :: f in fs ==> f in gs
    ensures Explained(g, b, gs, z)
  {
  }

  /** Consulting the current value of an item keeps an evaluation as fresh as it was. */
  lemma ExtendEvaluation(g: Graph, s: Snap, d: Dpm, log: set<Read>, r: Read,
                         pend: set<Dpm>, frames: set<Frame>)
    requires Settling(g, s, pend, frames + {Frame(d, log)})
    requires Get(s.rho, r.item) == r.pts
    ensures Settling(g, s, pend, frames + {Frame(d, log + {r})})
  {
    var longer := Frame(d, log + {r});
    forall z | z in s.here && z !in pend
      ensures Explained(g, s, frames + {longer}, z)
    {
      assert Explained(g, s, frames + {Frame(d, log)}, z);
      if !(Closed(g, s.rho, z) && Deps(g, s.rho, z) <= s.Seen()) {
        var f :| f in frames + {Frame(d, log)} && f.item == z && Fresh(s.rho, f.log);
        if f !in frames {
          assert Fresh(s.rho, longer.log) && longer in frames + {longer};
        } else {
          assert f in frames + {longer};
        }
      }
    }
  }

  /** Ending an evaluation whose result is already cached leaves its item closed. */
  lemma EndWithoutGrowth(g: Graph, s: Snap, d: Dpm, log: set<Read>, res: set<NodeID>,
                         pend: set<Dpm>, frames: set<Frame>)
    requires Settling(g, s, pend, frames + {Frame(d, log)})
    requires FrameOk(g, s, Frame(d, log))
    requires Evaluates(g, d, log, res)
    requires res <= Get(s.rho, d)
    ensures Settling(g, s, pend, frames)
  {
    forall z | z in s.here && z !in pend
      ensures Explained(g, s, frames, z)
    {
      assert Explained(g, s, frames + {Frame(d, log)}, z);
      if z == d && Fresh(s.rho, log) {
        assert Eval(g, s.rho, d) == res;
        assert Deps(g, s.rho, d) <= s.Seen();
      }
    }
  }

  ghost function Grown(rho: Rho, d: Dpm, res: set<NodeID>): Rho
  {
    rho[d := Get(rho, d) + res]
  }

  /** Items of the current query that a growing `d` re-runs. */
  ghost function Successors(g: Graph, s: Snap, d: Dpm): set<Dpm>
  {
    set z | z in s.here && Triggers(g, d, z)
  }

  /** Growth of `d` leaves every item explained that does not have to be re-run. */
  lemma ExplainedAfterGrowth(g: Graph, a: Snap, b: Snap, d: Dpm, res: set<NodeID>,
                             frames: set<Frame>, z: Dpm)
    requires WellFormed(g) && z.loc in g.locs && FramesOk(g, a, frames)
    requires b.rho == Grown(a.rho, d, res) && b.here == a.here && b.settled == a.settled
    requires Explained(g, a, frames, z) && !Triggers(g, d, z)
    ensures Explained(g, b, frames, z)
  {
    if Closed(g, a.rho, z) && Deps(g, a.rho, z) <= a.Seen() {
      ClosedAfterGrowth(g, a.rho, d, res, z);
    } else {
      var f :| f in frames && f.item == z && Fresh(a.rho, f.log);
      assert FrameOk(g, a, f);
      assert Fresh(b.rho, f.log);
    }
  }

  lemma ClosedAfterGrowth(g: Graph, rho: Rho, d: Dpm, res: set<NodeID>, z: Dpm)
    requires WellFormed(g) && z.loc in g.locs
    requires d !in Deps(g, rho, z) || !Triggers(g, d, z)
    ensures Deps(g, Grown(rho, d, res), z) == Deps(g, rho, z)
    ensures Eval(g, Grown(rho, d, res), z) == Eval(g, rho, z)
    ensures Closed(g, rho, z) ==> Closed(g, Grown(rho, d, res), z)
  {
    if d in Deps(g, rho, z) {
      DepsTrigger(g, rho, z, d);
    }
    EvalAgree(g, rho, Grown(rho, d, res), z);
  }

  /** Ending an evaluation with growth leaves only the successors to be re-run. */
  lemma EndWithGrowth(g: Graph, a: Snap, b: Snap, d: Dpm, log: set<Read>, res: set<NodeID>,
                      pend: set<Dpm>, frames: set<Frame>)
    requires WellFormed(g) && a.here <= Universe(g)
    requires Settling(g, a, pend, frames + {Frame(d, log)})
    requires FramesOk(g, a, frames + {Frame(d, log)})
    requires Evaluates(g, d, log, res)
    requires b.rho == Grown(a.rho, d, res) && b.here == a.here && b.settled == a.settled
    ensures Settling(g, b, pend + Successors(g, a, d), frames)
  {
    var frame := Frame(d, log);
    assert frame in frames + {frame};
    forall z | z in b.here && z !in pend + Successors(g, a, d)
      ensures Explained(g, b, frames, z)
    {
      ExplainedAfterGrowth(g, a, b, d, res, frames + {frame}, z);
      if z == d && Fresh(b.rho, log) {
        FrameOkAfterGrowth(g, a, d, log, res);
        assert Eval(g, b.rho, d) == res <= Get(b.rho, d);
        assert Deps(g, b.rho, d) <= b.Seen();
      }
    }
  }

  lemma FrameOkAfterGrowth(g: Graph, a: Snap, d: Dpm, log: set<Read>, res: set<NodeID>)
    requires FrameOk(g, a, Frame(d, log))
    ensures forall r :: r in log ==> r.item in a.Seen()
  {
  }

  /** Finished items of earlier queries are never disturbed. */
  lemma SettledAfterGrowth(g: Graph, a: Snap, b: Snap, d: Dpm, res: set<NodeID>)
    requires WellFormed(g) && SettledClosed(g, a) && d !in a.settled && a.settled <= Universe(g)
    requires b.rho == Grown(a.rho, d, res) && b.settled == a.settled && b.pinned == a.pinned
    ensures SettledClosed(g, b)
  {
    forall z | z in b.settled && z !in b.pinned
      ensures Closed(g, b.rho, z) && Deps(g, b.rho, z) <= b.settled
    {
      assert Closed(g, a.rho, z) && Deps(g, a.rho, z) <= a.settled;
      ClosedAfterGrowth(g, a.rho, d, res, z);
    }
  }

  lemma GrowthBounds(g: Graph, k: Keying, top: Rho, a: Rho, b: Rho, d: Dpm, res: set<NodeID>)
    requires d in Universe(g) && Within(g, top) && Shared(g, k, top)
    requires Below(a, top) && res <= Get(top, d) && Grew(g, k, a, b, d, res)
    ensures Below(a, b) && Below(b, top)
    ensures Missing(g, b) <= Missing(g, a)
    ensures !(res <= Get(a, d)) ==> Missing(g, b) < Missing(g, a)
  {
    forall e
      ensures Get(a, e) <= Get(b, e) <= Get(top, e)
    {
      if e in Universe(g) && Shares(g, k, d, e) {
        assert Get(top, d) == Get(top, e);
      }
      assert Get(b, e) == Get(a, e) + if e in Universe(g) && Shares(g, k, d, e) then res else {};
    }
    hide Within, Shared;
    MissingShrinks(g, a, b);
    if !(res <= Get(a, d)) {
      var o :| o in res && o !in Get(a, d);
      assert Shares(g, k, d, d) && o in Get(b, d) && o in Get(top, d);
      assert (d, o) !in Missing(g, b);
      assert Missing(g, b) != Missing(g, a) by {
        InObjs(g, top, d, o);
        assert (d, o) in Missing(g, a);
      }
    }
  }

  lemma CostDrops(g: Graph, a: Snap, b: Snap)
    requires b.evals == a.evals && b.visited == a.visited && Missing(g, b.rho) <= Missing(g, a.rho)
    ensures Cost(g, b) <= Cost(g, a)
    ensures Missing(g, b.rho) < Missing(g, a.rho) ==> Cost(g, b) <= Cost(g, a) - Effort(g)
  {
    hide Missing, Universe, Effort;
    var x, y := Missing(g, b.rho), Missing(g, a.rho);
    FiniteSets.SubsetCard(x, y);
    TimesMonotone(Effort(g), |x|, |y|);
    if x < y {
      var f :| f in y && f !in x;
      FiniteSets.SmallerCard(x, y, f);
      TimesMonotone(Effort(g), |x| + 1, |y|);
    }
  }

  lemma {:induction false} TimesMonotone(c: nat, x: nat, y: nat)
    requires x <= y
    ensures Times(c, x) <= Times(c, y) && Times(c, x + 1) == Times(c, x) + c
  {
    if x < y {
      TimesMonotone(c, x, y - 1);
    }
  }

  /** Without shared entries nothing but `d` grows. */
  lemma GrewAlone(g: Graph, k: Keying, a: Rho, b: Rho, d: Dpm, res: set<NodeID>)
    requires Separate(g, k) && d in Universe(g) && Grew(g, k, a, b, d, res)
    ensures forall e :: Get(Grown(a, d, res), e) == Get(b, e)
  {
    forall e
      ensures Get(Grown(a, d, res), e) == Get(b, e)
    {
      assert Shares(g, k, d, d);
      assert e in Universe(g) && Shares(g, k, d, e) ==> d == e;
    }
  }

  lemma GrowthFinished(g: Graph, a: Snap, b: Snap, d: Dpm, res: set<NodeID>)
    requires WellFormed(g) && Finished(g, a) && a.settled <= Universe(g) && d in Universe(g) && d !in a.settled
    requires Grew(g, a.k, a.rho, b.rho, d, res) && b == a.(rho := b.rho, grown := b.grown)
    ensures Finished(g, b)
  {
    if Separate(g, a.k) {
      hide Closed, Deps, Universe;
      var c := a.(rho := Grown(a.rho, d, res));
      SettledAfterGrowth(g, a, c, d, res);
      GrewAlone(g, a.k, a.rho, b.rho, d, res);
      FinishedSame(g, c, b);
    }
  }

  lemma GrowthConsistent(g: Graph, a: Snap, b: Snap, d: Dpm, res: set<NodeID>)
    requires Consistent(g, a) && d in a.here && res <= Get(a.top, d)
    requires Grew(g, a.k, a.rho, b.rho, d, res)
    requires b == a.(rho := b.rho, grown := b.grown) && a.grown <= b.grown <= a.grown + {d}
    ensures Consistent(g, b) && d in Universe(g)
    ensures Evolves(g, a, b)
    ensures !(res <= Get(a.rho, d)) ==> Missing(g, b.rho) < Missing(g, a.rho) && Advances(g, a, b, -Effort(g))
  {
    hide Universe, WellFormed, Missing, Below, Grew, Effort, Finished, Advances, Evolves, Within, Shared,
         Solution, MonotoneGep;
    assert d in Universe(g) && d !in a.settled;
    GrowthBounds(g, a.k, a.top, a.rho, b.rho, d, res);
    GrowthFinished(g, a, b, d, res);
    GrowthAdvances(g, a, b);
    hide Roof;
  }

  lemma GrowthAdvances(g: Graph, a: Snap, b: Snap)
    requires b == a.(rho := b.rho, grown := b.grown) && a.grown <= b.grown
    requires Below(a.rho, b.rho) && Missing(g, b.rho) <= Missing(g, a.rho)
    ensures Evolves(g, a, b)
    ensures Missing(g, b.rho) < Missing(g, a.rho) ==> Advances(g, a, b, -Effort(g))
  {
    hide Missing, Below, Cost, Effort;
    CostDrops(g, a, b);
  }

  lemma SettlingSameValues(g: Graph, a: Snap, b: Snap, pend: set<Dpm>, frames: set<Frame>)
    requires Settling(g, a, pend, frames)
    requires forall d :: Get(a.rho, d) == Get(b.rho, d)
    requires a.here == b.here && a.settled == b.settled
    ensures Settling(g, b, pend, frames)
  {
    forall z | z in b.here && z !in pend
      ensures Explained(g, b, frames, z)
    {
      assert Explained(g, a, frames, z);
      EvalAgree(g, a.rho, b.rho, z);
      if f :| f in frames && f.item == z && Fresh(a.rho, f.log) {
        assert Fresh(b.rho, f.log);
      }
    }
  }

  lemma VisitBudgeted(a: Snap, b: Snap, d: Dpm)
    requires Budgeted(a) && VisitStep(a, b, d)
    ensures Budgeted(b)
  {
    assert |a.here + {d}| <= |a.here| + 1 by {
      if d in a.here {
        assert a.here + {d} == a.here;
      }
    }
  }

  lemma VisitConsistent(g: Graph, a: Snap, b: Snap, d: Dpm)
    requires Consistent(g, a) && VisitStep(a, b, d)
    requires d in Universe(g) && d !in a.settled && (!g.stmt(d.loc).TopLevel() ==> d in a.loads)
    ensures Consistent(g, b)
  {
    hide Below, Roof, Universe, WellFormed, Budgeted, Finished;
    FinishedSame(g, a, b);
    VisitBudgeted(a, b, d);
  }

  lemma ReadyUnvisited(g: Graph, w: Watch, a: Snap, d: Dpm, pend: set<Dpm>, frames: set<Frame>)
    requires Ready(g, w, a, d, pend, frames) && d !in a.visited
    ensures Consistent(g, a) && FramesOk(g, a, frames) && Watched(g, w, a, frames) && Asked(g, a, frames, d)
    ensures d in Universe(g) && d !in a.settled && (!g.stmt(d.loc).TopLevel() ==> d in a.loads)
    ensures a.visited + {d} == a.Seen() + {d} && (d in a.here ==> Triggered(g, a, d))
    ensures Tracked(g, a) ==> Settling(g, a, pend + {d}, frames)
  {
    hide Finished, Below, Roof, Universe, WellFormed, Budgeted, FramesOk, Separate, Triggered, Watched, Asked;
    if Tracked(g, a) && d !in a.here {
      SettlingSkip(g, a, d, pend, frames);
    }
  }

  lemma VisitCost(g: Graph, a: Snap, b: Snap, d: Dpm)
    requires VisitStep(a, b, d) && d in Universe(g) && d !in a.visited && (a.out || a.evals == a.steps)
    ensures Thrifty(g, a, b, 0)
  {
    hide Missing, Universe, Effort;
    assert Universe(g) - b.visited == Universe(g) - a.visited - {d};
    assert |Universe(g) - b.visited| == |Universe(g) - a.visited| - 1;
  }

  lemma VisitEvolves(g: Graph, a: Snap, b: Snap, d: Dpm)
    requires Consistent(g, a) && VisitStep(a, b, d) && d in Universe(g) && d !in a.visited
    ensures Evolves(g, a, b) && Universe(g) - b.visited < Universe(g) - a.visited
  {
    hide Missing, Universe, Thrifty, Finished, Roof, WellFormed, Marked;
    VisitCost(g, a, b, d);
    assert d in Universe(g) - a.visited;
  }

  lemma BeginVisit(g: Graph, w: Watch, a: Snap, b: Snap, d: Dpm, pend: set<Dpm>, frames: set<Frame>)
    requires Ready(g, w, a, d, pend, frames) && d !in a.visited
    requires VisitStep(a, b, d)
    ensures b.out ==> Quiet(g, w, b, pend, frames)
    ensures !b.out ==> Evaluating(g, w, b, Ctx(d, {}, pend, frames))
    ensures Evolves(g, a, b) && Universe(g) - b.visited < Universe(g) - a.visited
  {
    hide Ready, Consistent, Universe, Missing, FramesOk, Settling, Separate, Watched, Triggered, Asked;
    ReadyUnvisited(g, w, a, d, pend, frames);
    VisitConsistent(g, a, b, d);
    VisitEvolves(g, a, b, d);
    hide Evolves;
    FramesPersist(g, a, b, frames);
    assert b.visited == b.Seen();
    WatchStep(g, w, Enter(d), a, frames, b, if b.out then frames else frames + {Frame(d, {})});
    if !b.out {
      FramesWiden(g, b, d, frames);
      NestedEntry(g, a, b, d, pend, frames);
      if Tracked(g, b) {
        StartEvaluation(g, a, b, d, pend, frames);
      }
    }
  }

  lemma NestedEntry(g: Graph, a: Snap, b: Snap, d: Dpm, pend: set<Dpm>, frames: set<Frame>)
    requires FramesOk(g, a, frames) && (d in a.here ==> Triggered(g, a, d)) && b.grown == a.grown
    ensures Nested(g, b, Ctx(d, {}, pend, frames))
  {
    forall f | f in frames && f.item == d
      ensures Triggered(g, b, d)
    {
      assert FrameOk(g, a, f);
    }
  }

  lemma TriggeredStays(g: Graph, a: Snap, b: Snap, d: Dpm)
    requires Triggered(g, a, d) && a.grown <= b.grown
    ensures Triggered(g, b, d)
  {
  }

  lemma NestedStays(g: Graph, a: Snap, b: Snap, c: Ctx)
    requires Nested(g, a, c) && a.grown <= b.grown
    ensures Nested(g, b, c)
  {
  }

  lemma FramesWiden(g: Graph, s: Snap, d: Dpm, frames: set<Frame>)
    requires FramesOk(g, s, frames) && d in s.here
    ensures FramesOk(g, s, frames + {Frame(d, {})})
  {
    forall f | f in frames + {Frame(d, {})}
      ensures FrameOk(g, s, f)
    {
    }
  }

  /** An item given up keeps its mark, so it is not visited again before the query is out of
      budget. */
  lemma UnvisitedUnpinned(g: Graph, w: Watch, s: Snap, d: Dpm, pend: set<Dpm>, frames: set<Frame>)
    requires Ready(g, w, s, d, pend, frames) && d !in s.visited
    ensures d in s.pinned ==> s.out
  {
  }

  lemma SettlingSkip(g: Graph, a: Snap, d: Dpm, pend: set<Dpm>, frames: set<Frame>)
    requires Settling(g, a, pend, frames)
    ensures Settling(g, a, pend + {d}, frames)
  {
  }

  lemma QuietWeaken(g: Graph, w: Watch, s: Snap, pend: set<Dpm>, more: set<Dpm>, frames: set<Frame>)
    requires Quiet(g, w, s, pend, frames) && pend <= more
    ensures Quiet(g, w, s, more, frames)
  {
  }

  lemma ClearedConsistent(g: Graph, a: Snap, b: Snap, z: Dpm)
    requires Consistent(g, a) && z in a.here && b == a.(visited := a.visited - {z})
    ensures Consistent(g, b) && z in Universe(g) && (!g.stmt(z.loc).TopLevel() ==> z in b.loads)
  {
    hide Below, Roof, Universe, WellFormed, Finished;
    FinishedSame(g, a, b);
  }

  /** Clearing the mark of a pending item that was triggered makes it ready to run again. */
  lemma ClearedReady(g: Graph, w: Watch, a: Snap, b: Snap, z: Dpm, pend: set<Dpm>, frames: set<Frame>)
    requires Quiet(g, w, a, pend + {z}, frames) && z in a.here && Triggered(g, a, z)
    requires b == a.(visited := a.visited - {z})
    ensures Ready(g, w, b, z, pend, frames)
    ensures Universe(g) - b.visited <= Universe(g)
  {
    hide Consistent, Universe, FramesOk, Settling, Separate, Watched;
    ClearedConsistent(g, a, b, z);
    FramesPersist(g, a, b, frames);
    TriggeredStays(g, a, b, z);
    WatchStep(g, w, Unmark(z), a, frames, b, frames);
    if Tracked(g, a) {
      SettlingSameValues(g, a, b, pend + {z}, frames);
    }
  }

  /** The price of withdrawing one mark. */
  lemma UnmarkCost(g: Graph, a: Snap, b: Snap, z: Dpm)
    requires b == a.(visited := a.visited - {z})
    ensures Thrifty(g, a, b, 1)
  {
    hide Missing, Universe, Effort;
    assert Universe(g) - b.visited <= Universe(g) - a.visited + {z};
    FiniteSets.SubsetCard(Universe(g) - b.visited, Universe(g) - a.visited + {z});
  }

  lemma AllMarked(g: Graph, w: Watch, s: Snap, pend: set<Dpm>, frames: set<Frame>)
    requires Quiet(g, w, s, pend, frames)
    ensures s.visited == s.Seen()
  {
  }

  lemma RerunAdvances(g: Graph, w: Watch, a: Snap, b: Snap, c: Snap, z: Dpm, pend: set<Dpm>, frames: set<Frame>)
    requires Quiet(g, w, a, pend + {z}, frames) && b == a.(visited := a.visited - {z})
    requires Evolves(g, b, c) && Quiet(g, w, c, pend, frames)
    ensures Advances(g, a, c, 1)
  {
    UnmarkCost(g, a, b, z);
    AllMarked(g, w, a, pend + {z}, frames);
    AllMarked(g, w, c, pend, frames);
    hide Cost, Quiet, Missing, Below;
  }

  lemma EvaluatingParts(g: Graph, w: Watch, s: Snap, c: Ctx)
    requires Evaluating(g, w, s, c)
    ensures Consistent(g, s) && s.visited == s.Seen() && c.item in s.here
    ensures WellFormed(g) && s.here <= Universe(g)
    ensures FramesOk(g, s, c.Frames()) && FramesOk(g, s, c.below) && FrameOk(g, s, Frame(c.item, c.log))
    ensures Watched(g, w, s, c.Frames()) && Nested(g, s, c)
    ensures Tracked(g, s) ==> Settling(g, s, c.pend, c.Frames())
  {
    hide Finished, Below, Roof, WellFormed, Universe, Budgeted, Settling, FrameOk, Separate, Watched, Nested;
    assert Frame(c.item, c.log) in c.Frames();
    assert forall f :: f in c.below ==> f in c.Frames();
  }

  /** The state after the result of an evaluation was united into its cache entry. */
  lemma EndVisit(g: Graph, w: Watch, a: Snap, b: Snap, c: Ctx, res: set<NodeID>)
    requires Evaluating(g, w, a, c)
    requires Evaluates(g, c.item, c.log, res) && res <= Get(a.top, c.item)
    requires Grew(g, a.k, a.rho, b.rho, c.item, res)
    requires b == a.(rho := b.rho, grown := a.grown + if res <= Get(a.rho, c.item) then {} else {c.item})
    ensures Evolves(g, a, b)
    ensures if res <= Get(a.rho, c.item) then Quiet(g, w, b, c.pend, c.below)
            else Quiet(g, w, b, c.pend + Successors(g, b, c.item), c.below)
                 && Missing(g, b.rho) < Missing(g, a.rho) && Advances(g, a, b, -Effort(g)) && c.item in b.grown
  {
    hide Consistent, Universe, Missing, WellFormed, Evaluating, Triggers, Advances, Evaluates, Fresh, Grew,
         FramesOk, FrameOk, Settling, Grown, Separate, Watched, Effort, Evolves, Nested;
    EvaluatingParts(g, w, a, c);
    GrowthConsistent(g, a, b, c.item, res);
    FramesPersist(g, a, b, c.below);
    LeaveWatched(g, w, a, b, c, res);
    if Tracked(g, a) {
      EndSettling(g, a, b, c, res);
    }
  }

  lemma LeaveWatched(g: Graph, w: Watch, a: Snap, b: Snap, c: Ctx, res: set<NodeID>)
    requires Watched(g, w, a, c.Frames()) && Nested(g, a, c) && c.item in Universe(g)
    requires Evaluates(g, c.item, c.log, res) && Grew(g, a.k, a.rho, b.rho, c.item, res)
    requires b == a.(rho := b.rho, grown := a.grown + if res <= Get(a.rho, c.item) then {} else {c.item})
    ensures Watched(g, w, b, c.below)
  {
    hide Evaluates, Grew, Triggered, Universe;
    WatchStep(g, w, Leave(c.below, c.item, c.log, res), a, c.Frames(), b, c.below);
  }

  lemma EndSettling(g: Graph, a: Snap, b: Snap, c: Ctx, res: set<NodeID>)
    requires WellFormed(g) && a.here <= Universe(g) && c.item in Universe(g) && Tracked(g, a)
    requires FramesOk(g, a, c.Frames()) && FrameOk(g, a, Frame(c.item, c.log)) && Settling(g, a, c.pend, c.Frames())
    requires Evaluates(g, c.item, c.log, res) && Grew(g, a.k, a.rho, b.rho, c.item, res)
    requires b == a.(rho := b.rho, grown := b.grown)
    ensures if res <= Get(a.rho, c.item) then Settling(g, b, c.pend, c.below)
            else Settling(g, b, c.pend + Successors(g, b, c.item), c.below)
  {
    hide Universe, WellFormed, Triggers, Evaluates, Fresh, FramesOk, FrameOk, Settling, Grown, Grew, Separate;
    GrewAlone(g, a.k, a.rho, b.rho, c.item, res);
    var grown := a.(rho := Grown(a.rho, c.item, res));
    if res <= Get(a.rho, c.item) {
      EndWithoutGrowth(g, a, c.item, c.log, res, c.pend, c.below);
      NoGrowth(a.rho, c.item, res);
      SettlingSameValues(g, a, b, c.pend, c.below);
    } else {
      EndWithGrowth(g, a, grown, c.item, c.log, res, c.pend, c.below);
      assert Successors(g, b, c.item) == Successors(g, a, c.item);
      SettlingSameValues(g, grown, b, c.pend + Successors(g, a, c.item), c.below);
    }
  }

  lemma NoGrowth(rho: Rho, d: Dpm, res: set<NodeID>)
    requires res <= Get(rho, d)
    ensures forall e :: Get(rho, e) == Get(Grown(rho, d, res), e)
  {
  }

  lemma LoadsConsistent(g: Graph, s: Snap, t: Snap)
    requires Consistent(g, s) && s.loads <= t.loads && t == s.(loads := t.loads)
    ensures Consistent(g, t)
  {
    hide Below, Roof, Universe, WellFormed, Finished;
    FinishedSame(g, s, t);
  }

  lemma LoadsGrow(g: Graph, w: Watch, s: Snap, c: Ctx, loads: set<Dpm>)
    requires Evaluating(g, w, s, c) && s.loads <= loads
    ensures Evaluating(g, w, s.(loads := loads), c)
    ensures Evolves(g, s, s.(loads := loads))
  {
    var t := s.(loads := loads);
    hide Consistent, FramesOk, Settling, Missing, Separate, Watched, Nested;
    LoadsConsistent(g, s, t);
    FramesPersist(g, s, t, c.Frames());
    NestedStays(g, s, t, c);
    WatchStep(g, w, Note, s, c.Frames(), t, c.Frames());
    if Tracked(g, s) {
      SettlingSameValues(g, s, t, c.pend, c.Frames());
    }
  }

  /** What an evaluation may ask for next: a top-level item, or an item already in the
      load maps. */
  lemma BeforeRead(g: Graph, w: Watch, a: Snap, b: Snap, c: Ctx, y: Dpm)
    requires Evaluating(g, w, a, c) && y in Universe(g)
    requires b == a.(loads := b.loads) && a.loads <= b.loads
    requires (!g.stmt(y.loc).TopLevel() ==> y in b.loads) && Triggers(g, y, c.item)
    ensures Ready(g, w, b, y, c.pend, c.Frames())
    ensures Evaluating(g, w, b, c)
  {
    hide Consistent, FramesOk, Settling, Separate, Watched, Nested, Evolves, Triggers, Universe;
    LoadsGrow(g, w, a, c, b.loads);
    assert Frame(c.item, c.log) in c.Frames();
    assert Asked(g, b, c.Frames(), y);
    hide Asked;
  }

  lemma AfterRead(g: Graph, w: Watch, a: Snap, b: Snap, c: Ctx, y: Dpm)
    requires c.item in a.here && Nested(g, a, c) && Evolves(g, a, b)
    requires Quiet(g, w, b, c.pend, c.Frames()) && y in b.visited
    requires Triggers(g, y, c.item)
    ensures Evaluating(g, w, b, c.(log := c.log + {Read(y, Get(b.rho, y))}))
  {
    hide Consistent, Settling, Triggers, Universe, Below, Missing, Separate, Watched, Thrifty, Triggered;
    var r := Read(y, Get(b.rho, y));
    var longer := Frame(c.item, c.log + {r});
    assert c.item in b.here && c.(log := c.log + {r}).Frames() == c.below + {longer};
    if Tracked(g, b) {
      ExtendEvaluation(g, b, c.item, c.log, r, c.pend, c.below);
    }
    WatchStep(g, w, Consult(c.below, c.item, c.log, y), b, c.Frames(), b, c.below + {longer});
    NestedStays(g, a, b, c);
    forall f | f in c.below + {longer}
      ensures FrameOk(g, b, f)
    {
      assert Frame(c.item, c.log) in c.Frames();
      assert FrameOk(g, b, Frame(c.item, c.log));
      if f != longer {
        assert f in c.Frames();
      }
    }
  }

  /** So far the evaluation of `c` has gathered `res` from `deps`, within `cap`. */
  ghost predicate Gathered(c: Ctx, res: set<NodeID>, deps: set<Dpm>, cap: set<NodeID>)
  {
    Computes(c.log, res, deps) && res <= cap
  }

  lemma GatherMore(g: Graph, s: Snap, c: Ctx, res: set<NodeID>, deps: set<Dpm>, cap: set<NodeID>, y: Dpm)
    requires Consistent(g, s)
    requires Gathered(c, res, deps, cap) && Get(s.top, y) <= cap
    ensures Gathered(c.(log := c.log + {Read(y, Get(s.rho, y))}), res + Get(s.rho, y), deps + {y}, cap)
  {
    ComputesRead(c.log, res, deps, Read(y, Get(s.rho, y)));
    assert Get(s.rho, y) <= Get(s.top, y);
  }

  /** The item `y` was queried from `b`, after its load-map entry was written in `a`. */
  lemma ReadDone(g: Graph, w: Watch, a: Snap, b: Snap, s: Snap, c: Ctx, y: Dpm,
                 res: set<NodeID>, deps: set<Dpm>, cap: set<NodeID>)
    requires Evaluating(g, w, a, c) && b == a.(loads := b.loads) && a.loads <= b.loads
    requires Evaluating(g, w, b, c) && Evolves(g, b, s)
    requires Quiet(g, w, s, c.pend, c.Frames()) && y in s.visited
    requires Triggers(g, y, c.item)
    requires Gathered(c, res, deps, cap) && Get(a.top, y) <= cap
    ensures var d := c.(log := c.log + {Read(y, Get(s.rho, y))});
            Evaluating(g, w, s, d) && d.Extends(c) && Gathered(d, res + Get(s.rho, y), deps + {y}, cap)
    ensures Evolves(g, a, s)
  {
    AfterRead(g, w, b, s, c, y);
    GatherMore(g, s, c, res, deps, cap, y);
    LoadsGrow(g, w, a, c, b.loads);
    EvolvesTransitive(g, a, b, s);
  }

  // ---------------------------------------------------------- staying below the roof

  /** Values that flow into `d` from items within the roof stay within it. */
  lemma FlowBelow(g: Graph, k: Keying, top: Rho, d: Dpm)
    requires WellFormed(g) && Roof(g, k, top) && d in Universe(g)
    requires g.stmt(d.loc).Copy? || g.stmt(d.loc).MR?
    ensures var deps := if g.stmt(d.loc).MR? then IndirectDeps(g, d.loc, d.v) else DirectDeps(g, d.loc);
            UnionOf(top, deps) <= Get(top, d)
  {
    RoofHolds(g, k, top, d);
  }

  lemma ObjFlowBelow(g: Graph, k: Keying, top: Rho, d: Dpm, pts: set<NodeID>, o: NodeID)
    requires WellFormed(g) && Roof(g, k, top) && d in Universe(g) && HasBase(g, d.loc)
    requires o in pts && pts <= Get(top, Base(g, d.loc))
    ensures o in g.vars
    ensures UnionOf(top, ObjDeps(g, d, pts, o)) <= Get(top, d)
  {
    hide Universe, Eval;
    ObjsDepsMonotone(g, d, pts, Get(top, Base(g, d.loc)));
    assert ObjDeps(g, d, pts, o) <= ObjsDeps(g, d, pts, pts) <= ValueDeps(g, top, d);
    BaseFlowBelow(g, k, top, d, ObjDeps(g, d, pts, o));
  }

  lemma BaseFlowBelow(g: Graph, k: Keying, top: Rho, d: Dpm, deps: set<Dpm>)
    requires WellFormed(g) && Roof(g, k, top) && d in Universe(g) && HasBase(g, d.loc)
    requires deps <= ValueDeps(g, top, d)
    ensures UnionOf(top, deps) <= Get(top, d)
  {
    RoofHolds(g, k, top, d);
    UnionMonotone(top, top, deps, ValueDeps(g, top, d));
    assert Eval(g, top, d) == UnionOf(top, ValueDeps(g, top, d));
  }

  lemma AddrEvaluates(g: Graph, k: Keying, top: Rho, d: Dpm, log: set<Read>)
    requires WellFormed(g) && Roof(g, k, top) && d in Universe(g) && g.stmt(d.loc).Addr?
    ensures Evaluates(g, d, log, {g.stmt(d.loc).obj}) && g.stmt(d.loc).obj in Get(top, d)
  {
    RoofHolds(g, k, top, d);
  }

  lemma GepBelow(g: Graph, k: Keying, top: Rho, d: Dpm, pts: set<NodeID>)
    requires WellFormed(g) && Roof(g, k, top) && d in Universe(g) && g.stmt(d.loc).Gep?
    requires pts <= UnionOf(top, DirectDeps(g, d.loc))
    ensures g.gep(d.loc, pts) <= Get(top, d)
  {
    RoofHolds(g, k, top, d);
    if !MonotoneGep(g) {
      assert UnionOf(top, DirectDeps(g, d.loc)) <= g.objs;
    }
  }

  // ---------------------------------------------------------- queries

  /** Every marked item that was not given up satisfies its equation and reads only marked
      items. */
  ghost predicate AllClosed(g: Graph, rho: Rho, marked: set<Dpm>, pinned: set<Dpm>)
  {
    forall z {:trigger Closed(g, rho, z)} ::
      z in marked && z !in pinned ==> Closed(g, rho, z) && Deps(g, rho, z) <= marked
  }

  /** When a query ends within budget nothing is left to settle. */
  lemma QuietClosed(g: Graph, w: Watch, s: Snap)
    requires Quiet(g, w, s, {}, {}) && Tracked(g, s)
    ensures AllClosed(g, s.rho, s.visited, s.pinned)
  {
    forall z | z in s.visited && z !in s.pinned
      ensures Closed(g, s.rho, z) && Deps(g, s.rho, z) <= s.visited
    {
      if z in s.here {
        assert Explained(g, s, {}, z);
      } else {
        assert Closed(g, s.rho, z) && Deps(g, s.rho, z) <= s.settled;
      }
    }
  }

  /** The state in which the next query, for `d`, starts, after the one that ended in `s`. */
  ghost function AfterReset(s: Snap, d: Dpm): Snap
  {
    var kept := if s.out then s.settled + s.pinned else s.Seen();
    Snap(s.rho, kept, {}, kept, {}, false, 0, 0, s.pinned, s.top, {}, s.max, s.k, d)
  }

  /** Marks that survive the reset belong to items that are closed or given up. */
  lemma ResetClosed(g: Graph, w: Watch, s: Snap, d: Dpm)
    requires Quiet(g, w, s, {}, {}) && Separate(g, s.k)
    ensures AllClosed(g, s.rho, AfterReset(s, d).visited, s.pinned)
  {
    hide Closed, Deps, Below, Roof, Universe, WellFormed, Budgeted, FramesOk, Settling, Separate, Watched;
    if s.out {
      forall z | z in AfterReset(s, d).visited && z !in s.pinned
        ensures Closed(g, s.rho, z) && Deps(g, s.rho, z) <= AfterReset(s, d).visited
      {
        assert z in s.settled;
      }
    } else {
      QuietClosed(g, w, s);
    }
  }

  lemma ResetConsistent(g: Graph, s: Snap, d: Dpm)
    requires Consistent(g, s) && (Separate(g, s.k) ==> AllClosed(g, s.rho, AfterReset(s, d).visited, s.pinned))
    ensures Consistent(g, AfterReset(s, d)) && AfterReset(s, d).visited == AfterReset(s, d).Seen()
  {
    hide Below, Roof, Universe, WellFormed, Separate, AllClosed, SettledClosed;
    if Separate(g, s.k) {
      AllClosedSettled(g, s, AfterReset(s, d));
    }
    assert Finished(g, AfterReset(s, d));
    hide Finished;
  }

  /** The next query may watch another property. */
  lemma ResetQuiet(g: Graph, w: Watch, next: Watch, s: Snap, d: Dpm)
    requires Quiet(g, w, s, {}, {}) && StepClosed(g, next) && next(AfterReset(s, d), {})
    ensures Quiet(g, next, AfterReset(s, d), {}, {})
    ensures Separate(g, s.k) ==> AllClosed(g, s.rho, AfterReset(s, d).visited, s.pinned)
    ensures s.here !! s.settled && s.visited == s.Seen() && s.pinned <= s.Seen()
  {
    if Separate(g, s.k) {
      ResetClosed(g, w, s, d);
    }
    hide Below, Roof, Universe, WellFormed, FrameOk, Separate, StepClosed, Finished, AllClosed, Settling, AfterReset,
         Budgeted;
    ResetConsistent(g, s, d);
    NothingSettling(g, s, d);
  }

  lemma AllClosedSettled(g: Graph, s: Snap, t: Snap)
    requires AllClosed(g, s.rho, t.settled, s.pinned) && t.rho == s.rho && t.pinned == s.pinned
    ensures SettledClosed(g, t)
  {
    forall z | z in t.settled && z !in t.pinned
      ensures Closed(g, t.rho, z) && Deps(g, t.rho, z) <= t.settled
    {
      assert Closed(g, s.rho, z) && Deps(g, s.rho, z) <= t.settled;
    }
  }

  lemma NothingSettling(g: Graph, s: Snap, d: Dpm)
    ensures Settling(g, AfterReset(s, d), {}, {}) && !AfterReset(s, d).out
  {
  }

  /** Items given up hold at least the set of the pre-analysis, and no set exceeds the
      answer to expect. */
  ghost predicate Standing(g: Graph, ander: PreAnalysis, s: Snap)
  {
    && WellFormed(g) && SoundFor(g, ander) && s.pinned <= Universe(g)
    && s.top == Ceiling(g, s.k, ander, s.pinned)
    && forall d :: d in s.pinned ==> ander(d.v) <= Get(s.rho, d)
  }

  /** Before any query. */
  lemma FirstQuiet(g: Graph, ander: PreAnalysis, s: Snap)
    requires WellFormed(g) && SoundFor(g, ander) && s.top == Ceiling(g, s.k, ander, {})
    requires s.visited == s.here == s.settled == s.loads == s.pinned == s.grown == {}
    requires !s.out && s.steps == s.evals == 0 && forall d :: Get(s.rho, d) == {}
    ensures Quiet(g, Anything(), s, {}, {}) && Standing(g, ander, s)
  {
    AnythingHolds(g, s, {});
    hide WellFormed, SoundFor, Ceiling, StepClosed, Roof, Separate, Anything, Watched;
    assert Settling(g, s, {}, {});
  }

  lemma StandingAfterReset(g: Graph, ander: PreAnalysis, s: Snap, d: Dpm)
    requires Standing(g, ander, s)
    ensures Standing(g, ander, AfterReset(s, d))
  {
    hide SoundFor, WellFormed, Ceiling;
  }

  lemma StandingEvolves(g: Graph, ander: PreAnalysis, a: Snap, b: Snap)
    requires Standing(g, ander, a) && Evolves(g, a, b)
    ensures Standing(g, ander, b)
  {
    hide SoundFor, WellFormed, Ceiling;
    forall d | d in b.pinned
      ensures ander(d.v) <= Get(b.rho, d)
    {
      assert ander(d.v) <= Get(a.rho, d) <= Get(b.rho, d);
    }
  }

  /** In-budget answers are those of the whole-program analysis that takes the items given
      up so far from the pre-analysis. */
  lemma QuietExact(g: Graph, ander: PreAnalysis, w: Watch, s: Snap)
    requires Quiet(g, w, s, {}, {}) && Tracked(g, s) && Standing(g, ander, s) && MonotoneGep(g)
    ensures forall z :: z in s.visited ==> Get(s.rho, z) == Get(Answer(g, s.k, ander, s.pinned), z)
  {
    QuietClosed(g, w, s);
    AnswerBetween(g, s.k, ander, s.pinned);
    PinsWithin(g, ander, s.pinned);
    var start := Pins(s.pinned, ander);
    hide Within, Closed, SoundFor, WellFormed;
    forall z | z in s.visited
      ensures Secured(g, start, s.rho, LeastAbove(g, s.k, start), s.visited, z)
    {
      if z in s.pinned {
        assert Get(Answer(g, s.k, ander, s.pinned), z) == ander(z.v) <= Get(s.rho, z);
      } else {
        assert Closed(g, s.rho, z) && Deps(g, s.rho, z) <= s.visited && Get(start, z) == {};
      }
    }
    ClosedPartIsLeast(g, s.k, start, s.rho, s.visited);
  }

  lemma QueryReady(g: Graph, w: Watch, s: Snap, d: Dpm)
    requires Quiet(g, w, s, {}, {}) && d in Universe(g) && g.stmt(d.loc).TopLevel() && s.root == d
    ensures Ready(g, w, s, d, {}, {})
  {
  }

  /** What the end of a search guarantees. */
  lemma QueryDone(g: Graph, ander: PreAnalysis, w: Watch, s: Snap)
    requires Quiet(g, w, s, {}, {}) && Standing(g, ander, s)
    ensures s.evals <= s.max && (s.out ==> s.evals == s.max) && (!s.out ==> |s.here| <= s.evals)
    ensures w(s, {})
    ensures Tracked(g, s) ==> AllClosed(g, s.rho, s.visited, s.pinned)
    ensures Tracked(g, s) && MonotoneGep(g) ==>
              forall z :: z in s.visited ==> Get(s.rho, z) == Get(Answer(g, s.k, ander, s.pinned), z)
    ensures MonotoneGep(g) ==> Below(s.rho, Answer(g, s.k, ander, s.pinned))
  {
    hide Settling, FramesOk, Separate, Marked, Finished, StepClosed, Roof, SoundFor, WellFormed, MonotoneGep,
         Answer, AllClosed;
    if Tracked(g, s) {
      QuietClosed(g, w, s);
      if MonotoneGep(g) {
        QuietExact(g, ander, w, s);
      }
    }
  }

  /** A budget no query exceeds, computed from the graph alone. */
  ghost function Ample(g: Graph): nat
  {
    |Universe(g)| + Times(Effort(g), |Missing(g, map[])|)
  }

  /** A query that starts with an ample budget never runs out of it. */
  lemma AmpleSuffices(g: Graph, a: Snap, b: Snap)
    requires Evolves(g, a, b) && !a.out && a.evals == 0 && Ample(g) <= a.max
    ensures !b.out
  {
    hide Missing, Universe, Effort;
    FiniteSets.SubsetCard(Universe(g) - a.visited, Universe(g));
    assert Missing(g, a.rho) <= Missing(g, map[]) by {
      MissingShrinks(g, map[], a.rho);
    }
    FiniteSets.SubsetCard(Missing(g, a.rho), Missing(g, map[]));
    TimesMonotone(Effort(g), |Missing(g, a.rho)|, |Missing(g, map[])|);
  }

  // ---------------------------------------------------------- giving up

  /** Closed items hold all that their statements contribute. */
  lemma ClosedMeans(g: Graph, rho: Rho, marked: set<Dpm>, pinned: set<Dpm>)
    requires AllClosed(g, rho, marked, pinned)
    ensures forall z, x {:trigger Contributes(g, rho, z, x)} ::
              z in marked - pinned && !g.stmt(z.loc).Gep? && Contributes(g, rho, z, x) ==> x in Get(rho, z)
  {
    hide Contributes, Eval;
    forall z, x {:trigger Contributes(g, rho, z, x)} |
        z in marked - pinned && !g.stmt(z.loc).Gep? && Contributes(g, rho, z, x)
      ensures x in Get(rho, z)
    {
      EvalMeans(g, rho, z);
      assert Closed(g, rho, z);
    }
  }

  /** The search is over, and nothing is watched any more. */
  lemma Unwatched(g: Graph, w: Watch, s: Snap)
    requires Quiet(g, w, s, {}, {})
    ensures Quiet(g, Anything(), s, {}, {}) && w(s, {})
  {
    AnythingHolds(g, s, {});
    hide Consistent, Settling, FramesOk, Separate, StepClosed, Anything;
  }

  /** Before an item that was given up takes over the set of the pre-analysis. */
  lemma RaiseTop(g: Graph, ander: PreAnalysis, s: Snap, d: Dpm)
    requires Quiet(g, Anything(), s, {}, {}) && s.out && Standing(g, ander, s) && d in s.here
    ensures d in Universe(g)
    ensures var t := s.(top := Ceiling(g, s.k, ander, s.pinned + {d}));
            Quiet(g, Anything(), t, {}, {}) && ander(d.v) <= Get(t.top, d)
  {
    hide Universe, WellFormed, Marked, FramesOk, Finished, Budgeted, Roof, Below, SoundFor, Ceiling, Watched;
    QuietItem(g, Anything(), s, d);
    CeilingRises(g, s.k, ander, s.pinned, d);
    TopChanges(g, s, Ceiling(g, s.k, ander, s.pinned + {d}));
  }

  lemma TopChanges(g: Graph, s: Snap, top: Rho)
    requires Quiet(g, Anything(), s, {}, {}) && s.out && Below(s.top, top) && Roof(g, s.k, top)
    ensures Quiet(g, Anything(), s.(top := top), {}, {})
  {
    AnythingHolds(g, s.(top := top), {});
    var t := s.(top := top);
    TopRaised(s.rho, s.top, top);
    hide Universe, WellFormed, FramesOk, Roof, Below, Finished, Separate;
    FinishedSame(g, s, t);
  }

  lemma CeilingRises(g: Graph, k: Keying, ander: PreAnalysis, pinned: set<Dpm>, d: Dpm)
    requires WellFormed(g) && SoundFor(g, ander) && pinned <= Universe(g) && d in Universe(g)
    ensures Below(Ceiling(g, k, ander, pinned), Ceiling(g, k, ander, pinned + {d}))
    ensures ander(d.v) <= Get(Ceiling(g, k, ander, pinned + {d}), d)
  {
    if MonotoneGep(g) {
      hide LeastAbove, WellFormed, MonotoneGep, Solution, Within, Shared;
      AnswerGrows(g, k, ander, pinned, pinned + {d});
      AnswerBetween(g, k, ander, pinned + {d});
    }
  }

  lemma TopRaised(rho: Rho, top: Rho, higher: Rho)
    requires Below(rho, top) && Below(top, higher)
    ensures Below(rho, higher)
  {
    forall d
      ensures Get(rho, d) <= Get(higher, d)
    {
      assert Get(rho, d) <= Get(top, d) <= Get(higher, d);
    }
  }

  /** The set of the pre-analysis is united into the cache entry of `d`. */
  lemma Overwritten(g: Graph, a: Snap, b: Snap, d: Dpm, res: set<NodeID>)
    requires Quiet(g, Anything(), a, {}, {}) && a.out && d in a.here && res <= Get(a.top, d)
    requires Grew(g, a.k, a.rho, b.rho, d, res)
    requires b == a.(rho := b.rho, grown := a.grown + if res <= Get(a.rho, d) then {} else {d})
    ensures Quiet(g, Anything(), b, {} + Successors(g, b, d), {}) && Quiet(g, Anything(), b, {}, {}) && Evolves(g, a, b)
    ensures !(res <= Get(a.rho, d)) ==> Advances(g, a, b, -Effort(g)) && d in b.grown
  {
    AnythingHolds(g, b, {});
    hide Grew, Separate, Consistent, Missing, Effort, Advances, Evolves;
    GrowthConsistent(g, a, b, d, res);
  }

  lemma GivenUp(g: Graph, s: Snap, d: Dpm)
    requires Quiet(g, Anything(), s, {}, {}) && s.out && d in s.here
    ensures Quiet(g, Anything(), s.(pinned := s.pinned + {d}), {}, {})
  {
    AnythingHolds(g, s.(pinned := s.pinned + {d}), {});
    hide Below, Roof, Universe, WellFormed, FrameOk, Settling, Finished, Separate;
    FinishedSame(g, s, s.(pinned := s.pinned + {d}));
  }

  lemma QuietItem(g: Graph, w: Watch, s: Snap, d: Dpm)
    requires Quiet(g, w, s, {}, {}) && d in s.here
    ensures d in Universe(g) && d in s.visited
  {
  }

  lemma StandingParts(g: Graph, ander: PreAnalysis, s: Snap)
    requires Standing(g, ander, s)
    ensures WellFormed(g) && SoundFor(g, ander) && s.pinned <= Universe(g)
  {
  }

  lemma EvolvesParts(g: Graph, a: Snap, b: Snap)
    requires Evolves(g, a, b)
    ensures a.settled == b.settled && a.pinned == b.pinned && a.top == b.top && a.here <= b.here
    ensures a.max == b.max && a.k == b.k
    ensures Below(a.rho, b.rho) && (a.out ==> b.out)
  {
  }

  lemma AdvancesKeeps(g: Graph, a: Snap, b: Snap, extra: int, d: Dpm, res: set<NodeID>)
    requires Advances(g, a, b, extra) && res <= Get(a.rho, d)
    ensures res <= Get(b.rho, d)
  {
    assert Get(a.rho, d) <= Get(b.rho, d);
  }

  lemma GrewHolds(g: Graph, k: Keying, a: Rho, b: Rho, d: Dpm, res: set<NodeID>)
    requires Grew(g, k, a, b, d, res) && d in Universe(g)
    ensures res <= Get(b, d)
  {
    assert Shares(g, k, d, d);
  }

  lemma EdgeTriggered(g: Graph, s: Snap, e: Edge, d: Dpm, z: Dpm)
    requires e in g.edges && EdgeTriggers(g, e, d, z) && d in s.grown
    ensures Triggered(g, s, z)
  {
  }

  lemma ReachedItems(g: Graph, w: Watch, s: Snap, pend: set<Dpm>, frames: set<Frame>, items: set<Dpm>)
    requires Quiet(g, w, s, pend, frames) && items <= s.here
    ensures |items| <= |Universe(g)|
  {
    assert s.here <= Universe(g);
    FiniteSets.SubsetCard(items, Universe(g));
  }

  lemma NoEdgeYet(g: Graph, s: Snap, all: set<Edge>)
    requires Evolves(g, s, s)
    ensures Advances(g, s, s, Times(|Universe(g)|, |all - all|))
  {
    hide Advances, Universe;
    assert all - all == {};
  }

  /** One more edge of a re-run loop was served. */
  lemma OneEdgeMore(g: Graph, a: Snap, b: Snap, c: Snap, all: set<Edge>, todo: set<Edge>, e: Edge)
    requires Advances(g, a, b, Times(|Universe(g)|, |all - todo|)) && Advances(g, b, c, |Universe(g)|)
    requires e in todo && todo <= all
    ensures Advances(g, a, c, Times(|Universe(g)|, |all - (todo - {e})|))
  {
    hide Advances, Universe;
    hide Times;
    FiniteSets.OneMore(all, todo, e);
    TimesMonotone(|Universe(g)|, |all - todo|, |all - todo| + 1);
    AdvancesTransitive(g, a, b, c, Times(|Universe(g)|, |all - todo|), |Universe(g)|);
  }

  lemma EdgesEffort(g: Graph, a: Snap, b: Snap, all: set<Edge>, todo: set<Edge>)
    requires Advances(g, a, b, Times(|Universe(g)|, |all - todo|)) && todo == {} && all <= g.edges
    ensures Advances(g, a, b, Effort(g))
  {
    hide Advances, Universe;
    assert all - todo == all;
    FiniteSets.SubsetCard(all, g.edges);
    TimesMonotone(|Universe(g)|, |all|, |g.edges|);
    AdvancesWeaker(g, a, b, Times(|Universe(g)|, |all|), Effort(g));
  }

  /** `d` holds the set of the pre-analysis in `b`, on top of what was cached in `a`. */
  lemma StandingGivenUp(g: Graph, ander: PreAnalysis, a: Snap, b: Snap, d: Dpm)
    requires Standing(g, ander, a) && d in Universe(g) && Below(a.rho, b.rho) && ander(d.v) <= Get(b.rho, d)
    requires b.pinned == a.pinned && b.k == a.k && b.top == Ceiling(g, a.k, ander, a.pinned + {d})
    ensures Standing(g, ander, b.(pinned := b.pinned + {d}))
  {
    hide SoundFor, WellFormed, Ceiling;
    forall e | e in a.pinned
      ensures ander(e.v) <= Get(b.rho, e)
    {
      assert ander(e.v) <= Get(a.rho, e) <= Get(b.rho, e);
    }
  }

  /** Items that were not marked before the query were reached in it. */
  lemma NewlySeen(g: Graph, w: Watch, a: Snap, b: Snap, before: set<Dpm>)
    requires Evolves(g, a, b) && a.visited == a.settled && a.settled <= before
    requires Quiet(g, w, b, {}, {})
    ensures |b.visited - before| <= |b.here|
    ensures forall d :: d in b.visited && d !in a.visited ==> d in b.here
  {
    assert b.visited - before <= b.here;
    FiniteSets.SubsetCard(b.visited - before, b.here);
  }

  lemma ReplyBounds(g: Graph, k: Keying, ander: PreAnalysis, pinned: set<Dpm>, d: Dpm)
    requires WellFormed(g) && MonotoneGep(g) && SoundFor(g, ander) && pinned <= Universe(g) && d in Universe(g)
    ensures Get(Least(g), d) <= Get(Answer(g, k, ander, pinned), d) <= ander(d.v)
  {
    hide LeastAbove, Least, SoundFor, WellFormed, MonotoneGep, Answer;
    AnswerBetween(g, k, ander, pinned);
    assert Get(Everywhere(g, ander), d) == ander(d.v);
  }
}
