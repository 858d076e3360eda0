/**
 The demand-driven solver itself: re-entrant, memoised and budgeted.  `FindPT` evaluates
 one item, recursively querying what its statement reads; when a cached set grows, the
 items at the successor locations lose their visited mark and run again, even those
 whose evaluation is still active further down the call stack.
 */
module DemandSolver {
  import opened Svfg
  import opened LeastSolution
  import opened DemandProtocol
  import FiniteSets

  ghost function Located(byLoc: map<LocID, set<Dpm>>): set<Dpm>
  {
    set n, d | n in byLoc && d in byLoc[n] :: d
  }

  lemma LocatedAt(byLoc: map<LocID, set<Dpm>>, n: LocID)
    requires n in byLoc
    ensures byLoc[n] <= Located(byLoc)
    ensures Keyed(byLoc) ==> forall d :: d in byLoc[n] ==> d.loc == n
    ensures forall d :: d in Located(byLoc) && d.loc == n && Keyed(byLoc) ==> d in byLoc[n]
  {
  }

  lemma NoneLocated(byLoc: map<LocID, set<Dpm>>, n: LocID)
    requires n !in byLoc
    ensures Keyed(byLoc) ==> forall d :: d in Located(byLoc) ==> d.loc != n
  {
  }

  ghost predicate Keyed(byLoc: map<LocID, set<Dpm>>)
  {
    forall n, d :: n in byLoc && d in byLoc[n] ==> d.loc == n
  }

  /** What a cache entry of a top-level node is kept under. */
  datatype Key = OfItem(d: Dpm) | OfVariable(v: NodeID)

  function KeyOf(k: Keying, d: Dpm): Key
  {
    match k
    case PerItem => OfItem(d)
    case PerVariable => OfVariable(d.v)
  }

  function Entry(m: map<Key, set<NodeID>>, key: Key): set<NodeID>
  {
    if key in m then m[key] else {}
  }

  /** What is recorded for an item: the load its search came from and the variable it is for. */
  ghost predicate LoadsOk(g: Graph, dpms: map<Dpm, Dpm>, vars: map<Dpm, NodeID>)
  {
    dpms.Keys == vars.Keys && forall d :: d in vars ==> vars[d] == d.v && g.stmt(dpms[d].loc).Load?
  }

  /** Both caches together, seen item by item. */
  ghost function Merged(g: Graph, k: Keying, tl: map<Key, set<NodeID>>, ad: Rho): Rho
  {
    map d | d in Universe(g) :: if g.stmt(d.loc).TopLevel() then Entry(tl, KeyOf(k, d)) else Get(ad, d)
  }

  lemma MergedShared(g: Graph, k: Keying, tl: map<Key, set<NodeID>>, ad: Rho)
    ensures Shared(g, k, Merged(g, k, tl, ad))
  {
  }

  lemma MergedUpdate(g: Graph, k: Keying, tl: map<Key, set<NodeID>>, ad: Rho, d: Dpm, pts: set<NodeID>)
    requires d in Universe(g)
    ensures var key := KeyOf(k, d);
            if g.stmt(d.loc).TopLevel()
            then Grew(g, k, Merged(g, k, tl, ad), Merged(g, k, tl[key := Entry(tl, key) + pts], ad), d, pts)
            else Grew(g, k, Merged(g, k, tl, ad), Merged(g, k, tl, ad[d := Get(ad, d) + pts]), d, pts)
  {
    if g.stmt(d.loc).TopLevel() {
      TopLevelUpdate(g, k, tl, ad, d, pts);
    }
  }

  lemma TopLevelUpdate(g: Graph, k: Keying, tl: map<Key, set<NodeID>>, ad: Rho, d: Dpm, pts: set<NodeID>)
    requires d in Universe(g) && g.stmt(d.loc).TopLevel()
    ensures Grew(g, k, Merged(g, k, tl, ad), Merged(g, k, tl[KeyOf(k, d) := Entry(tl, KeyOf(k, d)) + pts], ad), d, pts)
  {
    var tl' := tl[KeyOf(k, d) := Entry(tl, KeyOf(k, d)) + pts];
    var a, b := Merged(g, k, tl, ad), Merged(g, k, tl', ad);
    hide Universe;
    forall e
      ensures Get(b, e) == Get(a, e) + if e in Universe(g) && Shares(g, k, d, e) then pts else {}
    {
      if e in Universe(g) && g.stmt(e.loc).TopLevel() {
        assert Entry(tl', KeyOf(k, e)) == Entry(tl, KeyOf(k, e)) + if KeyOf(k, e) == KeyOf(k, d) then pts else {};
        assert KeyOf(k, e) == KeyOf(k, d) <==> Shares(g, k, d, e);
      }
    }
  }

  /** A reply to a query: the set of the pre-analysis, or what the search found. */
  datatype Reply = Downgraded(pts: set<NodeID>) | InBudget(pts: set<NodeID>)

  /** The items for which a sequence of queries was given up. */
  ghost function GivenUpBy(queries: seq<Dpm>, replies: seq<Reply>): set<Dpm>
    requires |queries| == |replies|
  {
    set i | 0 <= i < |queries| && replies[i].Downgraded? :: queries[i]
  }

  lemma NoneGivenUp()
    ensures GivenUpBy([], []) == {}
  {
  }

  lemma GivenUpByNext(queries: seq<Dpm>, replies: seq<Reply>, reply: Reply)
    requires |replies| < |queries|
    ensures GivenUpBy(queries[..|replies| + 1], replies + [reply]) ==
            GivenUpBy(queries[..|replies|], replies) + if reply.Downgraded? then {queries[|replies|]} else {}
  {
    var n, longer := |replies|, replies + [reply];
    assert forall i :: 0 <= i < n ==> longer[i] == replies[i];
    forall d | d in GivenUpBy(queries[..n], replies)
      ensures d in GivenUpBy(queries[..n + 1], longer)
    {
      var i :| 0 <= i < n && replies[i].Downgraded? && d == queries[i];
      assert longer[i].Downgraded?;
    }
  }

  /** What a reply says about the item `d`, once the items of `pinned` were given up.  It never
      exceeds the pre-analysis, nor within budget the answer to expect then.  If no cache
      entry is shared, it is that answer within budget, hence the whole-program answer if the
      pre-analysis was exact on all of `pinned`, and never misses any of the latter. */
  ghost predicate Faithful(g: Graph, k: Keying, ander: PreAnalysis, pinned: set<Dpm>, d: Dpm, reply: Reply)
    requires WellFormed(g) && SoundFor(g, ander)
  {
    && pinned <= Universe(g)
    && (reply.Downgraded? ==> reply.pts == ander(d.v))
    && (MonotoneGep(g) ==>
          && reply.pts <= ander(d.v)
          && (reply.InBudget? ==> reply.pts <= Get(Answer(g, k, ander, pinned), d))
          && (Separate(g, k) ==> Exact(g, k, ander, pinned, d, reply)))
  }

  ghost predicate Exact(g: Graph, k: Keying, ander: PreAnalysis, pinned: set<Dpm>, d: Dpm, reply: Reply)
    requires WellFormed(g) && SoundFor(g, ander) && pinned <= Universe(g)
  {
    && (reply.InBudget? ==> reply.pts == Get(Answer(g, k, ander, pinned), d))
    && (reply.InBudget? && (forall p :: p in pinned ==> ander(p.v) == Get(Least(g), p))
        ==> reply.pts == Get(Least(g), d))
    && Get(Least(g), d) <= reply.pts
  }

  lemma IsFaithful(g: Graph, k: Keying, ander: PreAnalysis, pinned: set<Dpm>, d: Dpm, reply: Reply)
    requires WellFormed(g) && SoundFor(g, ander) && pinned <= Universe(g) && d in Universe(g)
    requires reply.Downgraded? ==> reply.pts == ander(d.v)
    requires MonotoneGep(g) && reply.InBudget? ==> reply.pts <= Get(Answer(g, k, ander, pinned), d)
    requires MonotoneGep(g) && reply.InBudget? && Separate(g, k) ==>
               reply.pts == Get(Answer(g, k, ander, pinned), d)
    ensures Faithful(g, k, ander, pinned, d, reply)
  {
    hide SoundFor, WellFormed, MonotoneGep, Answer, Least, Separate, Shared;
    if MonotoneGep(g) {
      ReplyBounds(g, k, ander, pinned, d);
      if Separate(g, k) {
        SeparateShared(g, k, Least(g));
        AnswerExact(g, k, ander, pinned);
      }
    }
  }

  lemma QueryFaithful(g: Graph, ander: PreAnalysis, w: Watch, s: Snap, pinned: set<Dpm>, d: Dpm, reply: Reply)
    requires Quiet(g, w, s, {}, {}) && Standing(g, ander, s) && d in s.visited && d in Universe(g)
    requires reply == if s.out then Downgraded(ander(d.v)) else InBudget(Get(s.rho, d))
    requires pinned <= s.pinned && (!s.out ==> pinned == s.pinned)
    ensures WellFormed(g) && SoundFor(g, ander) && Faithful(g, s.k, ander, pinned, d, reply)
  {
    StandingParts(g, ander, s);
    QueryDone(g, ander, w, s);
    hide SoundFor, WellFormed, MonotoneGep, Answer, Least, Quiet, Standing, Universe, Faithful, AllClosed, Separate;
    IsFaithful(g, s.k, ander, pinned, d, reply);
  }

  /** Every reply is faithful, given the items of `pinned` and those given up before it. */
  ghost predicate AllFaithful(g: Graph, k: Keying, ander: PreAnalysis, pinned: set<Dpm>,
                              queries: seq<Dpm>, replies: seq<Reply>)
    requires WellFormed(g) && SoundFor(g, ander) && |replies| <= |queries|
  {
    forall i :: 0 <= i < |replies| ==>
      Faithful(g, k, ander, pinned + GivenUpBy(queries[..i], replies[..i]), queries[i], replies[i])
  }

  lemma AllFaithfulNext(g: Graph, k: Keying, ander: PreAnalysis, pinned: set<Dpm>,
                        queries: seq<Dpm>, replies: seq<Reply>, reply: Reply)
    requires WellFormed(g) && SoundFor(g, ander) && |replies| < |queries|
    requires AllFaithful(g, k, ander, pinned, queries, replies)
    requires Faithful(g, k, ander, pinned + GivenUpBy(queries[..|replies|], replies), queries[|replies|], reply)
    ensures AllFaithful(g, k, ander, pinned, queries, replies + [reply])
  {
    hide WellFormed, SoundFor, Faithful, GivenUpBy;
    var longer := replies + [reply];
    forall i | 0 <= i < |longer|
      ensures Faithful(g, k, ander, pinned + GivenUpBy(queries[..i], longer[..i]), queries[i], longer[i])
    {
      assert longer[..i] == replies[..i];
      assert replies[..|replies|] == replies;
    }
  }

  class Solver {
    const g: Graph
    const maxBudget: nat
    const keying: Keying                    // how the cache for top-level statements is keyed
    const ander: PreAnalysis                // the set of each pointer in the whole-program pre-analysis

    var visited: set<Dpm>
    var tlPts: map<Key, set<NodeID>>        // cache for top-level statements
    var adPts: Rho                          // cache for Store and MR statements
    var locToDpms: map<LocID, set<Dpm>>
    var loadDpms: map<Dpm, Dpm>
    var loadVars: map<Dpm, NodeID>
    var outOfBudget: bool
    var steps: nat
    var outOfBudgetDpms: set<Dpm>           // items given up, in this and earlier queries

    ghost var settled: set<Dpm>             // items with a mark from earlier queries
    ghost var evals: nat                    // statement evaluations of this query
    ghost var grown: set<Dpm>               // items that grew in this query
    ghost var top: Rho                      // assignment no cached set exceeds
    ghost var watch: Watch                  // property watched in this query
    ghost var root: Dpm                     // what this query asks for

    ghost function Cached(): Rho
      reads this
    {
      Merged(g, keying, tlPts, adPts)
    }

    ghost function Here(): set<Dpm>
      reads this
    {
      Located(locToDpms)
    }

    ghost function Now(): Snap
      reads this
    {
      Snap(Cached(), visited, Here(), settled, loadVars.Keys, outOfBudget, steps, evals, outOfBudgetDpms, top, grown,
           maxBudget, keying, root)
    }

    /** The maps are keyed the way the solver keys them. */
    ghost predicate Shape()
      reads this
    {
      && WellFormed(g)
      && Keyed(locToDpms)
      && LoadsOk(g, loadDpms, loadVars)
    }

    constructor (g: Graph, keying: Keying, maxBudget: nat, ander: PreAnalysis)
      requires WellFormed(g) && SoundFor(g, ander)
      ensures Shape() && Quiet(g, watch, Now(), {}, {}) && Standing(g, ander, Now())
      ensures this.g == g && this.keying == keying && this.maxBudget == maxBudget && this.ander == ander
      ensures visited == {} && outOfBudgetDpms == {} && forall d :: Get(Cached(), d) == {}
    {
      this.g, this.keying, this.maxBudget, this.ander := g, keying, maxBudget, ander;
      visited, tlPts, adPts := {}, map[], map[];
      locToDpms, loadDpms, loadVars := map[], map[], map[];
      outOfBudget, steps, outOfBudgetDpms := false, 0, {};
      settled, evals, grown, top, watch := {}, 0, {}, Ceiling(g, keying, ander, {}), Anything();
      root := Dpm(0, 0);
      new;
      hide WellFormed, SoundFor, Ceiling, Quiet, Standing, StepClosed, Universe;
      assert Here() == {} && loadVars.Keys == {};
      FirstQuiet(g, ander, Now());
    }

    // -------------------------------------------------------------- caches and marks

    function CachedPts(d: Dpm): (pts: set<NodeID>)
      reads this
      requires d in Universe(g)
      ensures pts == Get(Cached(), d)
    {
      if g.stmt(d.loc).TopLevel() then Entry(tlPts, KeyOf(keying, d)) else Get(adPts, d)
    }

    /** Unites `pts` into the cache entry of `d`; tells whether the entry grew. */
    method UnionCached(d: Dpm, pts: set<NodeID>) returns (grew: bool)
      requires Shape() && d in Universe(g)
      modifies this`tlPts, this`adPts, this`grown
      ensures Shape() && Grew(g, keying, old(Cached()), Cached(), d, pts)
      ensures grew <==> !(pts <= Get(old(Cached()), d))
      ensures grown == old(grown) + if grew then {d} else {}
    {
      hide WellFormed, Located, Grew;
      var before := CachedPts(d);
      grew := !(pts <= before);
      MergedUpdate(g, keying, tlPts, adPts, d, pts);
      if g.stmt(d.loc).TopLevel() {
        tlPts := tlPts[KeyOf(keying, d) := before + pts];
      } else {
        adPts := adPts[d := before + pts];
      }
      if grew {
        grown := grown + {d};
      }
    }

    method MarkVisited(d: Dpm)
      requires Shape()
      modifies this`visited
      ensures Shape() && visited == old(visited) + {d}
    {
      hide Merged, LoadsOk, WellFormed;
      visited := visited + {d};
    }

    method ClearVisited(d: Dpm)
      requires Shape() && d in visited
      modifies this`visited
      ensures Shape() && visited == old(visited) - {d}
    {
      hide Merged, LoadsOk, WellFormed;
      visited := visited - {d};
    }

    method AddDpmToLoc(d: Dpm)
      requires Shape()
      modifies this`locToDpms
      ensures Shape() && Here() == old(Here()) + {d}
    {
      hide Merged, LoadsOk, WellFormed;
      var dpms := if d.loc in locToDpms then locToDpms[d.loc] else {};
      locToDpms := locToDpms[d.loc := dpms + {d}];
      assert forall e :: e in Here() ==> e in old(Here()) + {d};
      forall e | e in old(Here()) + {d}
        ensures e in Here()
      {
        assert e.loc in locToDpms && e in locToDpms[e.loc];
      }
    }

    // -------------------------------------------------------------- load maps

    function GetLoadDpm(d: Dpm): (load: Dpm)
      reads this
      requires Shape() && d in loadVars
      ensures g.stmt(load.loc).Load?
    {
      loadDpms[d]
    }

    function GetLoadCVar(d: Dpm): (v: NodeID)
      reads this
      requires Shape() && d in loadVars
      ensures v == d.v
    {
      loadVars[d]
    }

    method AddLoadDpmAndCVar(d: Dpm, loadDpm: Dpm, loadVar: NodeID)
      requires Shape() && loadVar == d.v && g.stmt(loadDpm.loc).Load?
      modifies this`loadDpms, this`loadVars
      ensures Shape() && loadVars == old(loadVars)[d := loadVar] && loadDpms == old(loadDpms)[d := loadDpm]
    {
      hide Merged, WellFormed;
      loadVars := loadVars[d := loadVar];
      loadDpms := loadDpms[d := loadDpm];
    }

    /** The item for `obj` at the location of `oldDpm`, recorded in the load maps at
        loads and stores. */
    method GetDpmWithOldCond(oldDpm: Dpm, obj: NodeID) returns (d: Dpm)
      requires Shape()
      requires g.stmt(oldDpm.loc).Store? ==> oldDpm in loadVars
      modifies this`loadDpms, this`loadVars
      ensures Shape() && d == Dpm(oldDpm.loc, obj)
      ensures loadVars.Keys == old(loadVars.Keys) + if HasBase(g, oldDpm.loc) then {d} else {}
      ensures g.stmt(oldDpm.loc).Load? ==> loadDpms == old(loadDpms)[d := oldDpm]
      ensures g.stmt(oldDpm.loc).Store? ==> loadDpms == old(loadDpms)[d := old(loadDpms[oldDpm])]
      ensures oldDpm in old(loadVars) && obj == oldDpm.v ==> Now() == old(Now())
    {
      hide Merged, LoadsOk, WellFormed, Located;
      d := Dpm(oldDpm.loc, obj);
      if g.stmt(oldDpm.loc).Store? {
        AddLoadDpmAndCVar(d, GetLoadDpm(oldDpm), obj);
      }
      if g.stmt(oldDpm.loc).Load? {
        AddLoadDpmAndCVar(d, oldDpm, obj);
      }
    }

    // -------------------------------------------------------------- budget

    method TestOutOfBudget(d: Dpm) returns (out: bool)
      requires Shape()
      modifies this`outOfBudget, this`steps
      ensures Shape() && (out <==> d in outOfBudgetDpms || outOfBudget)
      ensures old(outOfBudget) ==> outOfBudget && steps == old(steps)
      ensures !old(outOfBudget) ==> steps == old(steps) + 1 && (outOfBudget <==> steps > maxBudget)
    {
      hide Merged, LoadsOk, WellFormed;
      if outOfBudget {
        return true;
      }
      steps := steps + 1;
      if steps > maxBudget {
        outOfBudget := true;
      }
      out := d in outOfBudgetDpms || outOfBudget;
    }

    /** Marks `d` and charges the budget for evaluating it. */
    method Visit(d: Dpm) returns (out: bool)
      requires Shape() && (d in outOfBudgetDpms ==> outOfBudget)
      modifies `visited, `locToDpms, `outOfBudget, `steps, `evals, `grown
      ensures Shape() && out == outOfBudget
      ensures VisitStep(old(Now()), Now(), d)
    {
      hide Merged, LoadsOk, WellFormed, Located;
      MarkVisited(d);
      AddDpmToLoc(d);
      out := TestOutOfBudget(d);
      if !out {
        evals := evals + 1;
      }
    }

    // -------------------------------------------------------------- the solver

    /** The points-to set of `d`.  On return every item reached in this query satisfies
        its equation, up to the evaluations and re-runs that were already under way. */
    method FindPT(d: Dpm, ghost pend: set<Dpm>, ghost frames: set<Frame>)
      returns (pts: set<NodeID>)
      requires Shape() && Ready(g, watch, Now(), d, pend, frames)
      modifies `visited, `tlPts, `adPts, `locToDpms, `loadDpms, `loadVars, `outOfBudget, `steps, `evals, `grown
      ensures Shape() && Quiet(g, watch, Now(), pend, frames)
      ensures d in Universe(g) && d in visited && pts == Get(Cached(), d)
      ensures d in old(visited) ==> Now() == old(Now())
      ensures Evolves(g, old(Now()), Now())
      decreases Missing(g, Cached()), Universe(g) - visited, 1
    {
      hide Merged, LoadsOk, WellFormed, Consistent, Settling, FramesOk, Below, Missing, Located, Thrifty, Watched,
           Separate, Triggered, Nested;
      if d in visited {
        EvolvesReflexive(g, Now());
        return CachedPts(d);
      }
      ghost var start := Now();
      UnvisitedUnpinned(g, watch, start, d, pend, frames);
      var out := Visit(d);
      BeginVisit(g, watch, start, Now(), d, pend, frames);
      if !out {
        ghost var begun := Now();
        var res, c := HandleSingleStatement(d, Ctx(d, {}, pend, frames));
        ghost var evaluated := Now();
        EvolvesTransitive(g, start, begun, evaluated);
        UpdateCachedPointsTo(d, res, c);
        EvolvesTransitive(g, start, evaluated, Now());
      }
      pts := CachedPts(d);
    }

    /** Evaluates the statement of `d`; the result is the right-hand side of its equation
        on every assignment that agrees with the values it consulted. */
    method HandleSingleStatement(d: Dpm, ghost c: Ctx) returns (pts: set<NodeID>, ghost c': Ctx)
      requires c.item == d && c.log == {}
      requires Shape() && Evaluating(g, watch, Now(), c)
      modifies `visited, `tlPts, `adPts, `locToDpms, `loadDpms, `loadVars, `outOfBudget, `steps, `evals, `grown
      ensures Shape() && Evaluating(g, watch, Now(), c')
      ensures c'.Extends(c) && Evolves(g, old(Now()), Now())
      ensures Evaluates(g, d, c'.log, pts) && pts <= Get(top, d)
      decreases Missing(g, Cached()), Universe(g) - visited, 13
    {
      hide Merged, LoadsOk, Thrifty, Quiet, Evaluating, Consistent, Computes, Evaluates, Below, Missing, Eval, Deps,
           ValueDeps, Located, Universe, UnionOf, Triggers;
      EvaluatingItem(g, watch, Now(), c);
      EvolvesReflexive(g, Now());
      ComputesNothing(c.log);
      match g.stmt(d.loc)
      case Addr(obj) =>
        pts, c' := {obj}, c;
        AddrEvaluates(g, keying, top, d, c.log);
      case Copy =>
        FlowBelow(g, keying, top, d);
        pts, c' := BacktraceAlongDirectVF({}, d, c, {}, Get(top, d));
        FlowEvaluates(g, d, c'.log, pts, {} + DirectDeps(g, d.loc));
      case Gep =>
        var gepPts;
        gepPts, c' := BacktraceAlongDirectVF({}, d, c, {}, UnionOf(top, DirectDeps(g, d.loc)));
        pts := g.gep(d.loc, gepPts);
        FlowEvaluates(g, d, c'.log, gepPts, {} + DirectDeps(g, d.loc));
        GepBelow(g, keying, top, d, gepPts);
      case Load(_) =>
        pts, c' := HandleLoad(d, c);
      case Store(_, _) =>
        pts, c' := HandleStore(d, c);
      case MR =>
        FlowBelow(g, keying, top, d);
        pts, c' := BacktraceAlongIndirectVF({}, d, c, {}, Get(top, d));
        FlowEvaluates(g, d, c'.log, pts, {} + IndirectDeps(g, d.loc, d.v));
    }

    method HandleLoad(d: Dpm, ghost c: Ctx) returns (pts: set<NodeID>, ghost c': Ctx)
      requires c.item == d && g.stmt(d.loc).Load?
      requires Shape() && Evaluating(g, watch, Now(), c)
      modifies `visited, `tlPts, `adPts, `locToDpms, `loadDpms, `loadVars, `outOfBudget, `steps, `evals, `grown
      ensures Shape() && Evaluating(g, watch, Now(), c')
      ensures c'.Extends(c) && Evolves(g, old(Now()), Now())
      ensures Evaluates(g, d, c'.log, pts) && pts <= Get(top, d)
      decreases Missing(g, Cached()), Universe(g) - visited, 12
    {
      hide Merged, LoadsOk, Thrifty, Quiet, Evaluating, Consistent, Computes, Evaluates, Below, Missing, Eval, Deps,
           ValueDeps, Located, Universe, UnionOf, Triggers, ObjDeps, ObjsDeps, WellFormed;
      EvaluatingItem(g, watch, Now(), c);
      var loadPts;
      ghost var c1;
      loadPts, c1 := StartNewPTCompFromBase(d, c);
      ghost var before := Now();
      EvolvesShrinks(g, old(Now()), before);
      pts, c' := LoadThroughObjects(d, loadPts, c1);
      EvolvesTransitive(g, old(Now()), before, Now());
      ComputesLonger(c1.log, loadPts, {Base(g, d.loc)}, c'.log);
      BaseEvaluates(g, d, c'.log, pts, loadPts);
    }

    /** What the load of `d` finds in each object its pointer may address. */
    method LoadThroughObjects(d: Dpm, loadPts: set<NodeID>, ghost c: Ctx) returns (pts: set<NodeID>, ghost c': Ctx)
      requires c.item == d && g.stmt(d.loc).Load?
      requires Shape() && Evaluating(g, watch, Now(), c) && loadPts <= Get(top, Base(g, d.loc))
      modifies `visited, `tlPts, `adPts, `locToDpms, `loadDpms, `loadVars, `outOfBudget, `steps, `evals, `grown
      ensures Shape() && Evaluating(g, watch, Now(), c')
      ensures c'.Extends(c) && Evolves(g, old(Now()), Now())
      ensures Gathered(c', pts, ObjsDeps(g, d, loadPts, loadPts), Get(top, d))
      decreases Missing(g, Cached()), Universe(g) - visited, 11
    {
      hide Merged, LoadsOk, Thrifty, Quiet, Evaluating, Consistent, Computes, Evaluates, Below, Missing, Evolves,
           Eval, Deps, ValueDeps, Located, Universe, UnionOf, Triggers, ObjDeps, ObjsDeps;
      EvaluatingItem(g, watch, Now(), c);
      EvolvesReflexive(g, Now());
      pts, c' := {}, c;
      var todo := loadPts;
      ComputesNothing(c.log);
      ObjsDepsStart(g, d, loadPts);
      while todo != {}
        invariant todo <= loadPts
        invariant Shape() && Evaluating(g, watch, Now(), c')
        invariant c'.Extends(c) && Evolves(g, old(Now()), Now())
        invariant Gathered(c', pts, ObjsDeps(g, d, loadPts, loadPts - todo), Get(top, d))
        decreases todo
      {
        var o :| o in todo;
        ghost var before := Now();
        EvolvesShrinks(g, old(Now()), before);
        ObjsDepsNext(g, d, loadPts, todo, o);
        ObjFlowBelow(g, keying, top, d, loadPts, o);
        LoadDeps(g, d, loadPts, o);
        pts, c' := BacktraceObject(pts, d, o, c', ObjsDeps(g, d, loadPts, loadPts - todo), Get(top, d));
        EvolvesTransitive(g, old(Now()), before, Now());
        todo := todo - {o};
      }
      assert loadPts - todo == loadPts;
    }

    method HandleStore(d: Dpm, ghost c: Ctx) returns (pts: set<NodeID>, ghost c': Ctx)
      requires c.item == d && g.stmt(d.loc).Store?
      requires Shape() && Evaluating(g, watch, Now(), c)
      modifies `visited, `tlPts, `adPts, `locToDpms, `loadDpms, `loadVars, `outOfBudget, `steps, `evals, `grown
      ensures Shape() && Evaluating(g, watch, Now(), c')
      ensures c'.Extends(c) && Evolves(g, old(Now()), Now())
      ensures Evaluates(g, d, c'.log, pts) && pts <= Get(top, d)
      decreases Missing(g, Cached()), Universe(g) - visited, 12
    {
      hide Merged, LoadsOk, Thrifty, Quiet, Evaluating, Consistent, Computes, Evaluates, Below, Missing, Eval, Deps,
           ValueDeps, Located, Universe, UnionOf, Triggers, ObjDeps, ObjsDeps, WellFormed;
      EvaluatingItem(g, watch, Now(), c);
      var storePts;
      ghost var c1;
      storePts, c1 := StartNewPTCompFromBase(d, c);
      ghost var before := Now();
      EvolvesShrinks(g, old(Now()), before);
      pts, c' := StoreThroughObjects(d, storePts, c1);
      EvolvesTransitive(g, old(Now()), before, Now());
      ComputesLonger(c1.log, storePts, {Base(g, d.loc)}, c'.log);
      BaseEvaluates(g, d, c'.log, pts, storePts);
    }

    /** What the store of `d` contributes for each object its pointer may address. */
    method StoreThroughObjects(d: Dpm, storePts: set<NodeID>, ghost c: Ctx) returns (pts: set<NodeID>, ghost c': Ctx)
      requires c.item == d && g.stmt(d.loc).Store?
      requires Shape() && Evaluating(g, watch, Now(), c) && storePts <= Get(top, Base(g, d.loc))
      modifies `visited, `tlPts, `adPts, `locToDpms, `loadDpms, `loadVars, `outOfBudget, `steps, `evals, `grown
      ensures Shape() && Evaluating(g, watch, Now(), c')
      ensures c'.Extends(c) && Evolves(g, old(Now()), Now())
      ensures Gathered(c', pts, ObjsDeps(g, d, storePts, storePts), Get(top, d))
      decreases Missing(g, Cached()), Universe(g) - visited, 11
    {
      hide Merged, LoadsOk, Thrifty, Quiet, Evaluating, Consistent, Computes, Evaluates, Below, Missing, Evolves,
           Eval, Deps, ValueDeps, Located, Universe, UnionOf, Triggers, ObjDeps, ObjsDeps, WellFormed;
      EvolvesReflexive(g, Now());
      pts, c' := {}, c;
      var todo := storePts;
      ComputesNothing(c.log);
      ObjsDepsStart(g, d, storePts);
      while todo != {}
        invariant todo <= storePts
        invariant Shape() && Evaluating(g, watch, Now(), c')
        invariant c'.Extends(c) && Evolves(g, old(Now()), Now())
        invariant Gathered(c', pts, ObjsDeps(g, d, storePts, storePts - todo), Get(top, d))
        decreases todo
      {
        var o :| o in todo;
        ghost var before := Now();
        EvolvesShrinks(g, old(Now()), before);
        ObjsDepsNext(g, d, storePts, todo, o);
        pts, c' := StoreThroughObject(pts, d, o, storePts, c', ObjsDeps(g, d, storePts, storePts - todo));
        EvolvesTransitive(g, old(Now()), before, Now());
        todo := todo - {o};
      }
      assert storePts - todo == storePts;
    }

    /** Queries the pointer a load reads through or a store writes through. */
    method StartNewPTCompFromBase(d: Dpm, ghost c: Ctx) returns (pts: set<NodeID>, ghost c': Ctx)
      requires c.item == d && HasBase(g, d.loc)
      requires Shape() && Evaluating(g, watch, Now(), c)
      modifies `visited, `tlPts, `adPts, `locToDpms, `loadDpms, `loadVars, `outOfBudget, `steps, `evals, `grown
      ensures Shape() && Evaluating(g, watch, Now(), c')
      ensures c'.Extends(c) && Evolves(g, old(Now()), Now())
      ensures Computes(c'.log, pts, {Base(g, d.loc)}) && pts <= Get(top, Base(g, d.loc))
      decreases Missing(g, Cached()), Universe(g) - visited, 8
    {
      hide Merged, LoadsOk, Thrifty, Quiet, Evaluating, Consistent, Computes, Evaluates, Below, Missing, Eval, Deps,
           ValueDeps, Located, Universe, UnionOf, Triggers;
      EvaluatingItem(g, watch, Now(), c);
      assert StmtOk(g, d.loc);
      var base := Base(g, d.loc);
      var edge := Direct(base.loc, d.loc);
      ComputesNothing(c.log);
      assert EdgeTriggers(g, edge, base, d);
      pts, c' := BackwardPropDpm({}, base.v, d, edge, c, {}, Get(top, base));
      assert {} + {base} == {base};
    }

    /** Follows the indirect edges that carry `o` into the load or store of `d`. */
    method BacktraceObject(pts: set<NodeID>, d: Dpm, o: NodeID,
                           ghost c: Ctx, ghost deps: set<Dpm>, ghost cap: set<NodeID>)
      returns (res: set<NodeID>, ghost c': Ctx)
      requires c.item == d && HasBase(g, d.loc) && o in g.vars
      requires g.stmt(d.loc).Store? ==> o == d.v
      requires Shape() && Evaluating(g, watch, Now(), c)
      requires Gathered(c, pts, deps, cap)
      requires UnionOf(top, IndirectDeps(g, d.loc, o)) <= cap
      modifies `visited, `tlPts, `adPts, `locToDpms, `loadDpms, `loadVars, `outOfBudget, `steps, `evals, `grown
      ensures Shape() && Evaluating(g, watch, Now(), c')
      ensures c'.Extends(c) && Evolves(g, old(Now()), Now())
      ensures Gathered(c', res, deps + IndirectDeps(g, d.loc, o), cap)
      decreases Missing(g, Cached()), Universe(g) - visited, 8
    {
      hide Merged, LoadsOk, Thrifty, Quiet, Evaluating, Consistent, Computes, Evaluates, Below, Missing, Eval, Deps,
           ValueDeps, Located, Universe, UnionOf, ObjDeps, IndirectDeps, StrongUpdate;
      EvaluatingItem(g, watch, Now(), c);
      ghost var start := Now();
      var dpm := GetDpmWithOldCond(d, o);
      ghost var asked := Now();
      LoadsGrow(g, watch, start, c, asked.loads);
      res, c' := BacktraceAlongIndirectVF(pts, dpm, c, deps, cap);
      EvolvesTransitive(g, start, asked, Now());
    }

    method StoreThroughObject(pts: set<NodeID>, d: Dpm, o: NodeID, storePts: set<NodeID>,
                              ghost c: Ctx, ghost deps: set<Dpm>)
      returns (res: set<NodeID>, ghost c': Ctx)
      requires c.item == d && g.stmt(d.loc).Store?
      requires Shape() && Evaluating(g, watch, Now(), c)
      requires o in storePts && storePts <= Get(top, Base(g, d.loc))
      requires Gathered(c, pts, deps, Get(top, d))
      modifies `visited, `tlPts, `adPts, `locToDpms, `loadDpms, `loadVars, `outOfBudget, `steps, `evals, `grown
      ensures Shape() && Evaluating(g, watch, Now(), c')
      ensures c'.Extends(c) && Evolves(g, old(Now()), Now())
      ensures Gathered(c', res, deps + ObjDeps(g, d, storePts, o), Get(top, d))
      decreases Missing(g, Cached()), Universe(g) - visited, 10
    {
      hide Merged, LoadsOk, Thrifty, Quiet, Evaluating, Consistent, Computes, Evaluates, Below, Missing, Eval, Deps,
           ValueDeps, Located, Universe, UnionOf, Triggers;
      EvaluatingItem(g, watch, Now(), c);
      ObjFlowBelow(g, keying, top, d, storePts, o);
      if o != GetLoadCVar(d) {
        res, c' := BacktraceAlongIndirectVF(pts, d, c, deps, Get(top, d));
      } else {
        res, c' := StoreToObject(pts, d, o, storePts, c, deps);
      }
    }

    /** Evaluates a store for its own object: the stored value, and the previous contents
        unless the update is strong. */
    method StoreToObject(pts: set<NodeID>, d: Dpm, o: NodeID, storePts: set<NodeID>,
                         ghost c: Ctx, ghost deps: set<Dpm>)
      returns (res: set<NodeID>, ghost c': Ctx)
      requires c.item == d && g.stmt(d.loc).Store? && o == d.v
      requires Shape() && Evaluating(g, watch, Now(), c)
      requires Gathered(c, pts, deps, Get(top, d))
      requires UnionOf(top, ObjDeps(g, d, storePts, o)) <= Get(top, d)
      modifies `visited, `tlPts, `adPts, `locToDpms, `loadDpms, `loadVars, `outOfBudget, `steps, `evals, `grown
      ensures Shape() && Evaluating(g, watch, Now(), c')
      ensures c'.Extends(c) && Evolves(g, old(Now()), Now())
      ensures Gathered(c', res, deps + ObjDeps(g, d, storePts, o), Get(top, d))
      decreases Missing(g, Cached()), Universe(g) - visited, 9
    {
      hide Merged, LoadsOk, Thrifty, Quiet, Evaluating, Consistent, Computes, Evaluates, Below, Missing, Evolves,
           Eval, Deps, ValueDeps, Located, Universe, UnionOf, ObjDeps, IndirectDeps, StrongUpdate;
      EvaluatingItem(g, watch, Now(), c);
      ghost var source := Dpm(g.def(g.stmt(d.loc).src), g.stmt(d.loc).src);
      StoreDeps(g, d, storePts, deps);
      UnionOfMember(top, ObjDeps(g, d, storePts, o), source);
      res, c' := BacktraceToStoreSrc(pts, d, c, deps, Get(top, d));
      if !StrongUpdate(g, d.loc, storePts) {
        ghost var before := Now();
        EvolvesShrinks(g, old(Now()), before);
        assert before.rho == Cached() && before.visited == visited;
        UnionOfSubset(top, IndirectDeps(g, d.loc, o), ObjDeps(g, d, storePts, o));
        res, c' := BacktraceObject(res, d, o, c', deps + {source}, Get(top, d));
        EvolvesTransitive(g, old(Now()), before, Now());
      }
    }

    /** Queries the stored value.  Re-recording the item of `d` leaves the load maps'
        keys alone, since it is being evaluated and hence recorded. */
    method BacktraceToStoreSrc(pts: set<NodeID>, d: Dpm,
                               ghost c: Ctx, ghost deps: set<Dpm>, ghost cap: set<NodeID>)
      returns (res: set<NodeID>, ghost c': Ctx)
      requires c.item == d && g.stmt(d.loc).Store?
      requires Shape() && Evaluating(g, watch, Now(), c)
      requires Gathered(c, pts, deps, cap)
      requires Get(top, Dpm(g.def(g.stmt(d.loc).src), g.stmt(d.loc).src)) <= cap
      modifies `visited, `tlPts, `adPts, `locToDpms, `loadDpms, `loadVars, `outOfBudget, `steps, `evals, `grown
      ensures Shape() && Evaluating(g, watch, Now(), c')
      ensures c'.Extends(c) && Evolves(g, old(Now()), Now())
      ensures Gathered(c', res, deps + {Dpm(g.def(g.stmt(d.loc).src), g.stmt(d.loc).src)}, cap)
      decreases Missing(g, Cached()), Universe(g) - visited, 7
    {
      hide Merged, LoadsOk, Thrifty, Quiet, Evaluating, Consistent, Computes, Evaluates, Below, Missing, Eval, Deps,
           ValueDeps, Located, Universe, UnionOf, Triggers;
      EvaluatingItem(g, watch, Now(), c);
      var dpm := GetDpmWithOldCond(d, d.v);
      assert StmtOk(g, d.loc);
      var src := g.stmt(d.loc).src;
      var edge := Direct(g.def(src), d.loc);
      assert EdgeTriggers(g, edge, Dpm(g.def(src), src), d);
      res, c' := BackwardPropDpm(pts, src, dpm, edge, c, deps, cap);
    }

    /** Consults the item for `ptr` at the source of `edge` and adds its set to `pts`. */
    method BackwardPropDpm(pts: set<NodeID>, ptr: NodeID, oldDpm: Dpm, edge: Edge,
                           ghost c: Ctx, ghost deps: set<Dpm>, ghost cap: set<NodeID>)
      returns (res: set<NodeID>, ghost c': Ctx)
      requires Shape() && Evaluating(g, watch, Now(), c)
      requires edge in g.edges && ptr in g.vars && (edge.Direct? ==> ptr == g.lhs(edge.src))
      requires EdgeTriggers(g, edge, Dpm(edge.src, ptr), c.item)
      requires edge.Indirect? ==> oldDpm in loadVars && oldDpm.v == ptr
      requires Gathered(c, pts, deps, cap) && Get(top, Dpm(edge.src, ptr)) <= cap
      modifies `visited, `tlPts, `adPts, `locToDpms, `loadDpms, `loadVars, `outOfBudget, `steps, `evals, `grown
      ensures Shape() && Evaluating(g, watch, Now(), c')
      ensures c'.Extends(c) && Evolves(g, old(Now()), Now())
      ensures Gathered(c', res, deps + {Dpm(edge.src, ptr)}, cap)
      decreases Missing(g, Cached()), Universe(g) - visited, 6
    {
      hide Merged, LoadsOk, Thrifty, Quiet, Evaluating, Consistent, Computes, Evaluates, Below, Missing, Eval, Deps,
           ValueDeps, Located, Universe, UnionOf, Triggers, WellFormed;
      EvaluatingItem(g, watch, Now(), c);
      ghost var start := Now();
      EdgeSource(g, edge, ptr);
      AlongEdge(g, edge, Dpm(edge.src, ptr), c.item);
      var dpm := Dpm(edge.src, ptr);
      if edge.Indirect? {
        AddLoadDpmAndCVar(dpm, GetLoadDpm(oldDpm), GetLoadCVar(oldDpm));
      }
      ghost var asked := Now();
      BeforeRead(g, watch, start, asked, c, dpm);
      var found := FindPT(dpm, c.pend, c.Frames());
      res := pts + found;
      c' := c.(log := c.log + {Read(dpm, found)});
      ReadDone(g, watch, start, asked, Now(), c, dpm, pts, deps, cap);
    }

    method BacktraceAlongDirectVF(pts: set<NodeID>, oldDpm: Dpm,
                                  ghost c: Ctx, ghost deps: set<Dpm>, ghost cap: set<NodeID>)
      returns (res: set<NodeID>, ghost c': Ctx)
      requires Shape() && Evaluating(g, watch, Now(), c) && oldDpm == c.item
      requires Gathered(c, pts, deps, cap)
      requires UnionOf(top, DirectDeps(g, oldDpm.loc)) <= cap
      modifies `visited, `tlPts, `adPts, `locToDpms, `loadDpms, `loadVars, `outOfBudget, `steps, `evals, `grown
      ensures Shape() && Evaluating(g, watch, Now(), c')
      ensures c'.Extends(c) && Evolves(g, old(Now()), Now())
      ensures Gathered(c', res, deps + DirectDeps(g, oldDpm.loc), cap)
      decreases Missing(g, Cached()), Universe(g) - visited, 7
    {
      hide Merged, LoadsOk, Thrifty, Quiet, Evaluating, Consistent, Computes, Evaluates, Below, Missing, Evolves,
           Eval, Deps, ValueDeps, Located, Universe, UnionOf, Triggers;
      EvaluatingItem(g, watch, Now(), c);
      EvolvesReflexive(g, Now());
      res, c' := pts, c;
      var edges := InEdges(g, oldDpm.loc);
      var todo := edges;
      assert deps + DirectFrom(g, edges - todo) == deps;
      while todo != {}
        invariant todo <= edges
        invariant Shape() && Evaluating(g, watch, Now(), c')
        invariant c'.Extends(c) && Evolves(g, old(Now()), Now())
        invariant Gathered(c', res, deps + DirectFrom(g, edges - todo), cap)
        decreases todo
      {
        var e :| e in todo;
        ghost var before := Now();
        EvolvesShrinks(g, old(Now()), before);
        assert before.rho == Cached() && before.visited == visited;
        DirectFromNext(g, deps, edges, todo, e);
        if e.Direct? {
          assert EdgeOk(g, e);
          UnionOfMember(top, DirectDeps(g, oldDpm.loc), Dpm(e.src, g.lhs(e.src)));
          res, c' := BackwardPropDpm(res, g.lhs(e.src), oldDpm, e, c', deps + DirectFrom(g, edges - todo), cap);
          EvolvesTransitive(g, old(Now()), before, Now());
        }
        todo := todo - {e};
      }
      assert DirectFrom(g, edges - todo) == DirectDeps(g, oldDpm.loc);
    }

    method BacktraceAlongIndirectVF(pts: set<NodeID>, oldDpm: Dpm,
                                    ghost c: Ctx, ghost deps: set<Dpm>, ghost cap: set<NodeID>)
      returns (res: set<NodeID>, ghost c': Ctx)
      requires Shape() && Evaluating(g, watch, Now(), c)
      requires oldDpm.loc == c.item.loc && oldDpm.v in g.vars && oldDpm in loadVars
      requires g.stmt(c.item.loc).Load? || oldDpm.v == c.item.v
      requires Gathered(c, pts, deps, cap)
      requires UnionOf(top, IndirectDeps(g, oldDpm.loc, oldDpm.v)) <= cap
      modifies `visited, `tlPts, `adPts, `locToDpms, `loadDpms, `loadVars, `outOfBudget, `steps, `evals, `grown
      ensures Shape() && Evaluating(g, watch, Now(), c')
      ensures c'.Extends(c) && Evolves(g, old(Now()), Now())
      ensures Gathered(c', res, deps + IndirectDeps(g, oldDpm.loc, oldDpm.v), cap)
      decreases Missing(g, Cached()), Universe(g) - visited, 7
    {
      hide Merged, LoadsOk, Thrifty, Quiet, Evaluating, Consistent, Computes, Evaluates, Below, Missing, Evolves,
           Eval, Deps, ValueDeps, Located, Universe, UnionOf, Triggers;
      EvaluatingItem(g, watch, Now(), c);
      EvolvesReflexive(g, Now());
      res, c' := pts, c;
      var obj := oldDpm.v;
      if obj in g.inert {
        assert deps + IndirectDeps(g, oldDpm.loc, obj) == deps;
        return;
      }
      var edges := InEdges(g, oldDpm.loc);
      var todo := edges;
      assert deps + IndirectFrom(edges - todo, obj) == deps;
      while todo != {}
        invariant todo <= edges
        invariant Shape() && Evaluating(g, watch, Now(), c')
        invariant c'.Extends(c) && Evolves(g, old(Now()), Now())
        invariant Gathered(c', res, deps + IndirectFrom(edges - todo, obj), cap)
        decreases todo
      {
        var e :| e in todo;
        ghost var before := Now();
        EvolvesShrinks(g, old(Now()), before);
        assert before.rho == Cached() && before.visited == visited;
        IndirectFromNext(deps, edges, todo, e, obj);
        if e.Indirect? && obj in e.guard {
          UnionOfMember(top, IndirectDeps(g, oldDpm.loc, obj), Dpm(e.src, obj));
          res, c' := BackwardPropDpm(res, obj, oldDpm, e, c', deps + IndirectFrom(edges - todo, obj), cap);
          EvolvesTransitive(g, old(Now()), before, Now());
        }
        todo := todo - {e};
      }
      assert IndirectFrom(edges - todo, obj) == IndirectDeps(g, oldDpm.loc, obj);
    }

    method UpdateCachedPointsTo(d: Dpm, pts: set<NodeID>, ghost c: Ctx)
      requires c.item == d
      requires Shape() && Evaluating(g, watch, Now(), c)
      requires Evaluates(g, d, c.log, pts) && pts <= Get(top, d)
      modifies `visited, `tlPts, `adPts, `locToDpms, `loadDpms, `loadVars, `outOfBudget, `steps, `evals, `grown
      ensures Shape() && Quiet(g, watch, Now(), c.pend, c.below)
      ensures Evolves(g, old(Now()), Now())
      decreases Missing(g, Cached()), Universe(g) - visited, 0
    {
      hide Merged, LoadsOk, WellFormed, Consistent, Settling, FramesOk, Below, Missing, Located, Grew, Advances,
           Evolves, Watched, Separate, Effort;
      EvaluatingItem(g, watch, Now(), c);
      ghost var start := Now();
      var grew := UnionCached(d, pts);
      ghost var wider := Now();
      EndVisit(g, watch, start, wider, c, pts);
      if grew {
        ReCompute(d, c.pend, c.below);
        AdvancesTransitive(g, start, wider, Now(), -Effort(g), Effort(g));
        EvolvesAdvances(g, start, Now());
      }
    }

    method ReCompute(d: Dpm, ghost pend: set<Dpm>, ghost frames: set<Frame>)
      requires Shape() && d in grown
      requires Quiet(g, watch, Now(), pend + Successors(g, Now(), d), frames)
      modifies `visited, `tlPts, `adPts, `locToDpms, `loadDpms, `loadVars, `outOfBudget, `steps, `evals, `grown
      ensures Shape() && Quiet(g, watch, Now(), pend, frames)
      ensures Advances(g, old(Now()), Now(), Effort(g))
      decreases Missing(g, Cached()), Universe(g), 6
    {
      ReComputeForEdges(d, OutEdges(g, d.loc), pend, frames);
    }

    /** Re-runs every item of this query at the targets of `edgeSet`, except items of
        another variable behind an indirect edge that does not enter a load. */
    method ReComputeForEdges(d: Dpm, edgeSet: set<Edge>, ghost pend: set<Dpm>, ghost frames: set<Frame>)
      requires Shape() && d in grown
      requires edgeSet == OutEdges(g, d.loc)
      requires Quiet(g, watch, Now(), pend + Successors(g, Now(), d), frames)
      modifies `visited, `tlPts, `adPts, `locToDpms, `loadDpms, `loadVars, `outOfBudget, `steps, `evals, `grown
      ensures Shape() && Quiet(g, watch, Now(), pend, frames)
      ensures Advances(g, old(Now()), Now(), Effort(g))
      decreases Missing(g, Cached()), Universe(g), 5
    {
      hide Merged, LoadsOk, Quiet, Consistent, Below, Missing, Settling, FramesOk, WellFormed, Effort, Universe,
           Thrifty, Times;
      EvolvesReflexive(g, Now());
      NoEdgeYet(g, Now(), edgeSet);
      var edges := edgeSet;
      ghost var left := Successors(g, Now(), d);
      while edges != {}
        invariant edges <= edgeSet
        invariant Shape() && Quiet(g, watch, Now(), pend + left, frames)
        invariant Advances(g, old(Now()), Now(), Times(|Universe(g)|, |edgeSet - edges|))
        invariant left <= Here()
        invariant forall z :: z in left ==> exists e :: e in edges && EdgeTriggers(g, e, d, z)
        decreases edges
      {
        var e :| e in edges;
        ghost var before := Now();
        left := ReRunTargets(d, e, left, pend, frames);
        OneEdgeMore(g, old(Now()), before, Now(), edgeSet, edges, e);
        edges := edges - {e};
      }
      assert pend + left == pend;
      EdgesEffort(g, old(Now()), Now(), edgeSet, edges);
    }

    /** Re-runs the items of this query at the target of one edge; `left` are the items
        that still await a re-run, and those `e` is responsible for are done on return. */
    method ReRunTargets(d: Dpm, e: Edge, ghost left: set<Dpm>, ghost pend: set<Dpm>, ghost frames: set<Frame>)
      returns (ghost rest: set<Dpm>)
      requires Shape() && e in g.edges && e.src == d.loc && d in grown
      requires left <= Here() && Quiet(g, watch, Now(), pend + left, frames)
      modifies `visited, `tlPts, `adPts, `locToDpms, `loadDpms, `loadVars, `outOfBudget, `steps, `evals, `grown
      ensures Shape() && Quiet(g, watch, Now(), pend + rest, frames)
      ensures Advances(g, old(Now()), Now(), |Universe(g)|)
      ensures rest <= left && forall z :: z in rest ==> !EdgeTriggers(g, e, d, z)
      decreases Missing(g, Cached()), Universe(g), 4
    {
      hide Merged, LoadsOk, Quiet, Advances, WellFormed, Universe, Triggers, Missing, Evolves, Located, Keyed;
      if e.dst !in locToDpms {
        rest := left;
        NoneLocated(locToDpms, e.dst);
        EvolvesReflexive(g, Now());
        EvolvesAdvances(g, Now(), Now());
        AdvancesWeaker(g, Now(), Now(), 0, |Universe(g)|);
        return;
      }
      var dpmSet := locToDpms[e.dst];
      LocatedAt(locToDpms, e.dst);
      ReachedItems(g, watch, Now(), pend + left, frames, dpmSet);
      rest := ReRunAll(d, e, dpmSet, left, pend, frames);
      AdvancesWeaker(g, old(Now()), Now(), |dpmSet|, |Universe(g)|);
    }

    method ReRunAll(d: Dpm, e: Edge, dpmSet: set<Dpm>, ghost left: set<Dpm>,
                    ghost pend: set<Dpm>, ghost frames: set<Frame>)
      returns (ghost rest: set<Dpm>)
      requires Shape() && e in g.edges && e.src == d.loc && d in grown
      requires dpmSet <= Here() && forall z :: z in dpmSet ==> z.loc == e.dst
      requires Quiet(g, watch, Now(), pend + left, frames)
      modifies `visited, `tlPts, `adPts, `locToDpms, `loadDpms, `loadVars, `outOfBudget, `steps, `evals, `grown
      ensures Shape() && Quiet(g, watch, Now(), pend + rest, frames)
      ensures Advances(g, old(Now()), Now(), |dpmSet|)
      ensures rest <= left && forall z :: z in rest && EdgeTriggers(g, e, d, z) ==> z !in dpmSet
      decreases Missing(g, Cached()), Universe(g), 3
    {
      hide Merged, LoadsOk, Quiet, Advances, WellFormed, Universe, Triggers, Missing, Evolves, Located, Keyed,
           EdgeTriggers;
      EvolvesReflexive(g, Now());
      EvolvesAdvances(g, Now(), Now());
      rest := left;
      var todo := dpmSet;
      ghost var runs := 0;
      while todo != {}
        invariant todo <= dpmSet <= Here() && d in grown
        invariant Shape() && Quiet(g, watch, Now(), pend + rest, frames)
        invariant Advances(g, old(Now()), Now(), runs) && runs + |todo| <= |dpmSet|
        invariant rest <= left && forall z :: z in rest && EdgeTriggers(g, e, d, z) && z in dpmSet ==> z in todo
        decreases todo
      {
        var z :| z in todo;
        ghost var before := Now();
        AdvancesMeasure(g, old(Now()), before, runs);
        TriggeredAlong(g, e, d, z);
        rest := ReRun(z, d, e, rest, pend, frames);
        AdvancesTransitive(g, old(Now()), before, Now(), runs, 1);
        runs := runs + 1;
        todo := todo - {z};
      }
      AdvancesWeaker(g, old(Now()), Now(), runs, |dpmSet|);
    }

    /** Re-runs an item unless the edge carries another variable to it. */
    method ReRun(z: Dpm, d: Dpm, e: Edge, ghost left: set<Dpm>, ghost pend: set<Dpm>, ghost frames: set<Frame>)
      returns (ghost rest: set<Dpm>)
      requires Shape() && z in Here() && d in grown && e in g.edges && e.src == d.loc && z.loc == e.dst
      requires Quiet(g, watch, Now(), pend + left, frames)
      modifies `visited, `tlPts, `adPts, `locToDpms, `loadDpms, `loadVars, `outOfBudget, `steps, `evals, `grown
      ensures Shape() && Quiet(g, watch, Now(), pend + rest, frames)
      ensures Advances(g, old(Now()), Now(), 1) && old(Here()) <= Here() && old(grown) <= grown
      ensures rest == if e.Indirect? && !g.stmt(z.loc).Load? && d.v != z.v then left else left - {z}
      decreases Missing(g, Cached()), Universe(g), 2
    {
      hide Merged, LoadsOk, Consistent, Below, Missing, Settling, FramesOk, WellFormed, Located, Watched, Separate,
           Triggered, Thrifty;
      ghost var start := Now();
      EvolvesReflexive(g, start);
      EvolvesAdvances(g, start, start);
      AdvancesWeaker(g, start, start, 0, 1);
      rest := left;
      if !e.Indirect? || g.stmt(e.dst).Load? || z.v == d.v {
        rest := left - {z};
        EdgeTriggered(g, start, e, d, z);
        QuietWeaken(g, watch, start, pend + left, pend + rest + {z}, frames);
        ClearVisited(z);
        ghost var cleared := Now();
        ClearedReady(g, watch, start, cleared, z, pend + rest, frames);
        var _ := FindPT(z, pend + rest, frames);
        RerunAdvances(g, watch, start, cleared, Now(), z, pend + rest, frames);
        AdvancesMeasure(g, start, Now(), 1);
      }
    }

    // -------------------------------------------------------------- queries

    /** Clears the marks of the items first reached in an out-of-budget query, except of
        items given up. */
    method OOBResetVisited()
      requires Shape() && visited == Now().Seen() && Here() !! settled && outOfBudgetDpms <= visited
      modifies this`visited
      ensures Shape() && visited == settled + outOfBudgetDpms
    {
      hide Merged, LoadsOk, WellFormed;
      ghost var kept := settled + outOfBudgetDpms;
      var locs := locToDpms.Keys;
      while locs != {}
        invariant locs <= locToDpms.Keys
        invariant Shape()
        invariant visited == kept + (set n, d | n in locs && d in locToDpms[n] :: d)
        decreases locs
      {
        var n :| n in locs;
        ghost var others := kept + (set m, d | m in locs - {n} && d in locToDpms[m] :: d);
        var dpmSet := locToDpms[n];
        assert visited == others + dpmSet;
        assert forall d :: d in dpmSet ==> d in Here() && d.loc == n;
        assert others !! dpmSet - outOfBudgetDpms;
        while dpmSet != {}
          invariant dpmSet <= locToDpms[n]
          invariant Shape()
          invariant visited == others + dpmSet
          decreases dpmSet
        {
          var d :| d in dpmSet;
          if d !in outOfBudgetDpms {
            ClearVisited(d);
          }
          dpmSet := dpmSet - {d};
        }
        locs := locs - {n};
      }
    }

    method ClearQueryState()
      requires Shape()
      modifies `locToDpms, `loadDpms, `loadVars, `outOfBudget, `steps, `settled, `evals, `grown
      ensures Shape() && Here() == loadVars.Keys == {} && settled == visited
      ensures !outOfBudget && steps == evals == 0 && grown == {}
    {
      hide Merged, WellFormed;
      locToDpms, loadDpms, loadVars := map[], map[], map[];
      outOfBudget, steps := false, 0;
      settled, evals, grown := visited, 0, {};
    }

    /** Prepares the next query: marks of a finished query stay; those of one that ran out
        of budget are withdrawn, except of items given up.  Without shared cache entries
        every mark that remains belongs to a closed item or one given up. */
    method ResetQuery(ghost d: Dpm, ghost next: Watch)
      requires Shape() && Quiet(g, watch, Now(), {}, {})
      requires StepClosed(g, next) && next(AfterReset(Now(), d), {})
      modifies this
      ensures Shape() && Quiet(g, watch, Now(), {}, {}) && watch == next
      ensures Now() == AfterReset(old(Now()), d)
      ensures Separate(g, keying) ==> AllClosed(g, Cached(), visited, outOfBudgetDpms)
      ensures outOfBudgetDpms <= visited <= old(visited)
    {
      hide Merged, LoadsOk, WellFormed, Quiet, AllClosed, Separate, StepClosed;
      ghost var before := Now();
      ResetQuiet(g, watch, next, before, d);
      if outOfBudget {
        OOBResetVisited();
      }
      hide Merged, LoadsOk, Located;
      ClearQueryState();
      watch, root := next, d;
    }

    /** The cache entry of `d` takes over `pts`, without any statement being evaluated. */
    method OverwriteCachedPointsTo(d: Dpm, pts: set<NodeID>)
      requires Shape() && Quiet(g, watch, Now(), {}, {}) && watch == Anything() && outOfBudget && d in Here()
      requires pts <= Get(top, d)
      modifies `visited, `tlPts, `adPts, `locToDpms, `loadDpms, `loadVars, `outOfBudget, `steps, `evals, `grown
      ensures Shape() && Quiet(g, watch, Now(), {}, {})
      ensures Evolves(g, old(Now()), Now()) && pts <= Get(Cached(), d)
    {
      hide Merged, LoadsOk, WellFormed, Quiet, Below, Missing, Located, Successors, Evolves, Advances, Effort, Grew;
      ghost var start := Now();
      QuietItem(g, watch, start, d);
      var grew := UnionCached(d, pts);
      ghost var wider := Now();
      Overwritten(g, start, wider, d, pts);
      GrewHolds(g, keying, start.rho, wider.rho, d, pts);
      if grew {
        ReCompute(d, {}, {});
        AdvancesTransitive(g, start, wider, Now(), -Effort(g), Effort(g));
        EvolvesAdvances(g, start, Now());
        AdvancesKeeps(g, wider, Now(), Effort(g), d, pts);
      }
    }

    /** Gives `d` up: it takes over the set of the pre-analysis and keeps its mark. */
    method HandleOutOfBudgetDpm(d: Dpm) returns (anderPts: set<NodeID>)
      requires Shape() && Quiet(g, watch, Now(), {}, {}) && watch == Anything() && outOfBudget && d in Here()
      requires Standing(g, ander, Now())
      modifies this
      ensures Shape() && Quiet(g, watch, Now(), {}, {}) && outOfBudget && d in visited
      ensures Standing(g, ander, Now())
      ensures outOfBudgetDpms == old(outOfBudgetDpms) + {d}
      ensures anderPts == ander(d.v)
    {
      hide Merged, LoadsOk, WellFormed, Quiet, Standing, Below, Missing, Located, Ceiling, Evolves, SoundFor, Universe;
      ghost var start := Now();
      StandingParts(g, ander, start);
      RaiseTop(g, ander, start, d);
      top := Ceiling(g, keying, ander, outOfBudgetDpms + {d});
      ghost var raised := Now();
      anderPts := ander(d.v);
      OverwriteCachedPointsTo(d, anderPts);
      ghost var end := Now();
      QuietItem(g, watch, start, d);
      EvolvesParts(g, raised, end);
      StandingGivenUp(g, ander, start, end, d);
      GivenUp(g, end, d);
      outOfBudgetDpms := outOfBudgetDpms + {d};
      QuietItem(g, watch, end, d);
    }

    /** The search of one top-level query, which may run out of budget. */
    method Search(d: Dpm, ghost w: Watch) returns (pts: set<NodeID>)
      requires Shape() && Quiet(g, watch, Now(), {}, {}) && Standing(g, ander, Now())
      requires d in Universe(g) && g.stmt(d.loc).TopLevel()
      requires StepClosed(g, w) && w(AfterReset(Now(), d), {})
      modifies this
      ensures Shape() && Quiet(g, watch, Now(), {}, {}) && Standing(g, ander, Now()) && watch == w
      ensures d in visited && pts == Get(Cached(), d) && w(Now(), {})
      ensures outOfBudgetDpms == old(outOfBudgetDpms)
      ensures outOfBudget ==> d in Here() && d !in outOfBudgetDpms && maxBudget < Ample(g)
      ensures |visited - old(visited)| <= |Here()|
    {
      hide Merged, LoadsOk, Quiet, AllClosed, Below, WellFormed, Located, Universe, Standing, Ceiling, Missing, Ready,
           StepClosed, Ample, Thrifty, Separate;
      ghost var before := Now();
      ResetQuery(d, w);
      ghost var start := Now();
      QueryReady(g, watch, start, d);
      pts := FindPT(d, {}, {});
      StandingAfterReset(g, ander, before, d);
      StandingEvolves(g, ander, start, Now());
      NewlySeen(g, watch, start, Now(), before.visited);
      Unwatched(g, watch, Now());
      if outOfBudget && Ample(g) <= maxBudget {
        AmpleSuffices(g, start, Now());
      }
    }

    /** One top-level query, in any state earlier queries may have left behind. */
    method Query(d: Dpm, ghost w: Watch) returns (reply: Reply)
      requires Shape() && Quiet(g, watch, Now(), {}, {}) && Standing(g, ander, Now())
      requires d in Universe(g) && g.stmt(d.loc).TopLevel()
      // any property that the atomic steps of the solver preserve may be watched
      requires StepClosed(g, w) && w(AfterReset(Now(), d), {})
      modifies this
      ensures Shape() && Quiet(g, watch, Now(), {}, {}) && Standing(g, ander, Now())
      ensures d in visited && Faithful(g, keying, ander, old(outOfBudgetDpms), d, reply)
      ensures reply.InBudget? ==> reply.pts == Get(Cached(), d) && w(Now(), {})
      ensures reply.Downgraded? ==> exists s: Snap :: s.out && w(s, {})
      // the budget bounds the work, is used up when the query gives up, and pays for every
      // item first reached in the query; an ample one never runs out
      ensures evals <= maxBudget && (reply.Downgraded? ==> evals == maxBudget)
      ensures reply.InBudget? ==> |visited - old(visited)| <= evals
      ensures Ample(g) <= maxBudget ==> reply.InBudget?
      // an item is given up at most once
      ensures outOfBudgetDpms == old(outOfBudgetDpms) + if reply.Downgraded? then {d} else {}
      ensures d in old(outOfBudgetDpms) ==> reply.InBudget?
      // within budget, unless cache entries are shared, every marked item that was not given
      // up satisfies its equation
      ensures reply.InBudget? && Separate(g, keying) ==>
                && AllClosed(g, Cached(), visited, outOfBudgetDpms)
                && forall z, x {:trigger Contributes(g, Cached(), z, x)} ::
                     z in visited - outOfBudgetDpms && !g.stmt(z.loc).Gep? && Contributes(g, Cached(), z, x) ==>
                       x in Get(Cached(), z)
      // and the caches are exactly the answer to expect after the items given up so far
      ensures reply.InBudget? && Separate(g, keying) && MonotoneGep(g) ==>
                forall z :: z in visited ==> Get(Cached(), z) == Get(Answer(g, keying, ander, outOfBudgetDpms), z)
      // in or out of budget, shared or not, nothing beyond that answer is ever cached
      ensures MonotoneGep(g) ==> Below(Cached(), Answer(g, keying, ander, outOfBudgetDpms))
    {
      hide Merged, LoadsOk, Quiet, AllClosed, Below, Least, WellFormed, Located, Universe, Standing, Answer, SoundFor,
           MonotoneGep, Faithful, Ample, Separate, StepClosed;
      ghost var pinned := outOfBudgetDpms;
      var pts := Search(d, w);
      reply := InBudget(pts);
      if outOfBudget {
        Unwatched(g, watch, Now());
        watch := Anything();
        pts := HandleOutOfBudgetDpm(d);
        reply := Downgraded(pts);
      }
      StandingParts(g, ander, Now());
      QueryDone(g, ander, watch, Now());
      QueryFaithful(g, ander, watch, Now(), pinned, d, reply);
      if !outOfBudget && Separate(g, keying) {
        ClosedMeans(g, Cached(), visited, outOfBudgetDpms);
      }
    }

    /** Any sequence of queries on one solver: every reply is faithful to the whole-program
        answer, given the items given up before it. */
    method AnswerQueries(queries: seq<Dpm>) returns (replies: seq<Reply>)
      requires Shape() && Quiet(g, watch, Now(), {}, {}) && Standing(g, ander, Now())
      requires forall i :: 0 <= i < |queries| ==> queries[i] in Universe(g) && g.stmt(queries[i].loc).TopLevel()
      modifies this
      ensures Shape() && Quiet(g, watch, Now(), {}, {}) && Standing(g, ander, Now())
      ensures |replies| == |queries|
      ensures outOfBudgetDpms == old(outOfBudgetDpms) + GivenUpBy(queries, replies)
      ensures AllFaithful(g, keying, ander, old(outOfBudgetDpms), queries, replies)
      ensures Ample(g) <= maxBudget ==> forall i :: 0 <= i < |replies| ==> replies[i].InBudget?
    {
      hide Merged, LoadsOk, Quiet, AllClosed, Below, WellFormed, Located, SoundFor, Universe, Standing, Faithful,
           GivenUpBy, MonotoneGep, Answer;
      replies := [];
      ghost var pinned := outOfBudgetDpms;
      NoneGivenUp();
      StandingParts(g, ander, Now());
      for i := 0 to |queries|
        invariant Shape() && Quiet(g, watch, Now(), {}, {}) && Standing(g, ander, Now())
        invariant |replies| == i && outOfBudgetDpms == pinned + GivenUpBy(queries[..i], replies)
        invariant AllFaithful(g, keying, ander, pinned, queries, replies)
        invariant Ample(g) <= maxBudget ==> forall j :: 0 <= j < i ==> replies[j].InBudget?
      {
        hide AllFaithful;
        var reply := Query(queries[i], Anything());
        GivenUpByNext(queries, replies, reply);
        AllFaithfulNext(g, keying, ander, pinned, queries, replies, reply);
        replies := replies + [reply];
      }
      assert queries[..|queries|] == queries;
    }
  }
}
