/**
 Thread interleavings: for every statement the threads that may run alongside it, and from
 these the may-happen-in-parallel queries.
 */
module Interleaving {
  import opened TokenFlow

  type Tid = nat
  type Inst = nat

  /** Control flow of context- and thread-sensitive statements. `joined` holds the threads
      joined at a join site outside loops, `placed` where a thread is entered at first: its
      own start, after the fork sites of its ancestors and at the starts of its siblings. */
  datatype Program = Program(
    stmts: set<Stmt>, threads: set<Tid>, succ: Stmt -> set<Stmt>, toEnd: Stmt -> nat, longest: nat,
    inst: Stmt -> Inst, tid: Stmt -> Tid, joined: Stmt -> set<Tid>, placed: Tid -> set<Stmt>,
    multiforked: Tid -> bool, inRecursion: Inst -> bool)

  predicate IsMustJoin(p: Program, tid: Tid, joinsite: Inst)
  {
    !p.multiforked(tid) && !p.inRecursion(joinsite)
  }

  /** A join site removes all threads joined there, unless the thread executing it is forked
      repeatedly or the site lies in a recursion. */
  ghost function FlowOf(p: Program): Flow
  {
    Flow(p.stmts, p.threads, p.succ,
         u => if p.multiforked(p.tid(u)) || p.inRecursion(p.inst(u)) then {} else p.joined(u), p.toEnd, p.longest)
  }

  /** A join site is a call: its successor comes later in the same basic block. */
  ghost predicate ProgramOk(p: Program)
  {
    && (forall u :: u in p.stmts ==> p.succ(u) <= p.stmts && p.toEnd(u) < p.longest)
    && (forall u, t {:trigger t in p.succ(u)} ::
          u in p.stmts && t in p.succ(u) && p.joined(u) != {} ==> p.toEnd(t) < p.toEnd(u))
    && (forall x {:trigger p.placed(x)} :: x in p.threads ==> p.placed(x) <= p.stmts)
  }

  ghost function SeedsOf(p: Program, roots: set<Tid>): Seeds
  {
    set x, r | x in roots && r in p.placed(x) :: (r, x)
  }

  /** Some thread may run alongside `u` just before it ... */
  ghost predicate Reached(f: Flow, seeds: Seeds, u: Stmt)
  {
    exists x :: Arrives(f, seeds, u, x)
  }

  // ---------------------------------------------------------------- index

  /** Statements with interleavings are listed, those that served theirs have listed
      successors, and nothing is listed without reason. */
  ghost predicate IndexKept(f: Flow, seeds: Seeds, s: State, listed: set<Stmt>, exempt: set<Stmt>)
  {
    && (forall u {:trigger Toks(s, u)} :: Toks(s, u) != {} ==> u in listed)
    && (forall u {:trigger u in listed} :: u in listed ==> Reached(f, seeds, u))
    && (forall r, x {:trigger (r, x) in seeds} :: (r, x) in seeds ==> r in listed)
    && (forall u {:trigger f.succ(u)} :: u !in s.work && u !in exempt && Toks(s, u) != {} ==> f.succ(u) <= listed)
  }

  /** With nothing queued, the index lists exactly the statements some thread arrives at. */
  lemma DrainedIndex(f: Flow, seeds: Seeds, s: State, listed: set<Stmt>, u: Stmt)
    requires Invariant(f, seeds, s, {}) && IndexKept(f, seeds, s, listed, {}) && s.work == {}
    ensures u in listed <==> Reached(f, seeds, u)
  {
    hide Invariant, Survives, Arrives;
    if Reached(f, seeds, u) {
      var x: Token :| Arrives(f, seeds, u, x);
      var v := ArrivesFrom(f, seeds, u, x);
      if (u, x) !in seeds {
        DrainedAt(f, seeds, s, v, x);
        assert u in f.succ(v) && Toks(s, v) != {};
      }
    }
  }

  lemma ReachedMoreSeeds(f: Flow, seeds: Seeds, more: Seeds, u: Stmt)
    requires Reached(f, seeds, u) && seeds <= more
    ensures Reached(f, more, u)
  {
    var x :| Arrives(f, seeds, u, x);
    ArrivesMoreSeeds(f, seeds, more, u, x);
  }

  lemma SeededIndex(f: Flow, seeds: Seeds, s: State, listed: set<Stmt>, r: Stmt, x: Tid)
    requires IndexKept(f, seeds, s, listed, {})
    ensures IndexKept(f, seeds + {(r, x)}, With(s, r, Toks(s, r) + {x}), listed + {r}, {})
  {
    hide Reached, Toks, With;
    var more, t := seeds + {(r, x)}, With(s, r, Toks(s, r) + {x});
    SeedReached(f, more, r, x);
    SeededReached(f, seeds, more, listed, r);
    forall v | Toks(t, v) != {}
      ensures v in listed + {r}
    {
      assert v != r ==> Toks(t, v) == Toks(s, v);
    }
    forall v | v !in t.work && Toks(t, v) != {}
      ensures f.succ(v) <= listed + {r}
    {
      assert Toks(t, v) == Toks(s, v) && v !in s.work;
    }
  }

  lemma SeedReached(f: Flow, seeds: Seeds, r: Stmt, x: Tid)
    requires (r, x) in seeds
    ensures Reached(f, seeds, r)
  {
    SeedArrives(f, seeds, r, x);
  }

  lemma SeededReached(f: Flow, seeds: Seeds, more: Seeds, listed: set<Stmt>, r: Stmt)
    requires seeds <= more && Reached(f, more, r)
    requires forall u {:trigger u in listed} :: u in listed ==> Reached(f, seeds, u)
    ensures forall u {:trigger u in listed + {r}} :: u in listed + {r} ==> Reached(f, more, u)
  {
    hide Reached;
    forall u | u in listed
      ensures Reached(f, more, u)
    {
      ReachedMoreSeeds(f, seeds, more, u);
    }
  }

  lemma BegunIndex(f: Flow, seeds: Seeds, s: State, listed: set<Stmt>, u: Stmt)
    requires IndexKept(f, seeds, s, listed, {}) && u in s.work
    ensures IndexKept(f, seeds, Begin(f, s, u), listed, {u})
  {
    BeginElsewhere(f, s, u);
    hide Begin, Reached, Toks;
    assert Toks(Begin(f, s, u), u) <= Toks(s, u);
  }

  lemma PassedReached(f: Flow, seeds: Seeds, s: State, u: Stmt, t: Stmt)
    requires Sound(f, seeds, s) && Toks(s, u) * f.kill(u) == {} && t in f.succ(u) && Toks(s, u) != {}
    ensures Reached(f, seeds, t)
  {
    var x :| x in Toks(s, u);
    assert x !in f.kill(u) by {
      assert x !in Toks(s, u) * f.kill(u);
    }
    ArrivesNext(f, seeds, u, t, x);
  }

  lemma PassedOnIndex(f: Flow, seeds: Seeds, s: State, listed: set<Stmt>, u: Stmt, t: Stmt,
                      todo: set<Stmt>, after: set<Stmt>)
    requires Invariant(f, seeds, s, {u}) && Toks(s, u) * f.kill(u) == {} && t in f.succ(u)
    requires IndexKept(f, seeds, s, listed, {u}) && (Toks(s, u) != {} ==> f.succ(u) - todo <= listed)
    requires after == if Toks(s, u) <= Toks(s, t) then listed else listed + {t}
    ensures IndexKept(f, seeds, PassOn(s, u, t), after, {u})
    ensures Toks(PassOn(s, u, t), u) != {} ==> f.succ(u) - (todo - {t}) <= after
  {
    assert Sound(f, seeds, s);
    hide PassOn, IndexKept, Invariant, Toks, Sound;
    if Toks(s, u) <= Toks(s, t) {
      PassedNothing(f, seeds, s, listed, u, t, todo);
    } else {
      PassedReached(f, seeds, s, u, t);
      PassedSomething(f, seeds, s, listed, u, t, todo);
    }
  }

  lemma PassedNothing(f: Flow, seeds: Seeds, s: State, listed: set<Stmt>, u: Stmt, t: Stmt, todo: set<Stmt>)
    requires IndexKept(f, seeds, s, listed, {u}) && (Toks(s, u) != {} ==> f.succ(u) - todo <= listed)
    requires Toks(s, u) <= Toks(s, t)
    ensures IndexKept(f, seeds, PassOn(s, u, t), listed, {u})
    ensures Toks(PassOn(s, u, t), u) != {} ==> f.succ(u) - (todo - {t}) <= listed
  {
    hide Reached, Toks, With;
    assert Toks(s, t) + Toks(s, u) == Toks(s, t);
    assert forall v :: Toks(PassOn(s, u, t), v) == Toks(s, v);
    assert Toks(s, u) != {} ==> t in listed;
  }

  lemma PassedSomething(f: Flow, seeds: Seeds, s: State, listed: set<Stmt>, u: Stmt, t: Stmt, todo: set<Stmt>)
    requires IndexKept(f, seeds, s, listed, {u}) && (Toks(s, u) != {} ==> f.succ(u) - todo <= listed)
    requires Reached(f, seeds, t) && Toks(s, u) != {}
    ensures IndexKept(f, seeds, PassOn(s, u, t), listed + {t}, {u})
    ensures f.succ(u) - (todo - {t}) <= listed + {t}
  {
    hide Reached, Toks, With;
    var q := PassOn(s, u, t);
    forall v | v !in q.work && v != u && Toks(q, v) != {}
      ensures f.succ(v) <= listed + {t}
    {
      assert Toks(q, v) == Toks(s, v) && v !in s.work;
    }
    forall v | Toks(q, v) != {}
      ensures v in listed + {t}
    {
      assert v != t ==> Toks(q, v) == Toks(s, v);
    }
  }

  /** The last round of handing on from `u` done, nothing is exempt any more. */
  lemma EndedIndex(f: Flow, seeds: Seeds, s: State, listed: set<Stmt>, u: Stmt)
    requires IndexKept(f, seeds, s, listed, {u}) && (Toks(s, u) != {} ==> f.succ(u) - {} <= listed)
    ensures IndexKept(f, seeds, s, listed, {})
  {
    hide Reached;
  }

  // ---------------------------------------------------------------- representation

  type Index = map<Inst, set<Stmt>>
  type Interleavings = map<Stmt, set<Tid>>

  ghost function Lists(m: Index): set<Stmt>
  {
    set i, c | i in m && c in m[i] :: c
  }

  /** Statements are listed under their own instruction, and no list is empty. */
  ghost predicate UnderOwnInst(p: Program, m: Index)
  {
    && (forall i {:trigger m[i]} :: i in m ==> m[i] != {})
    && (forall i, c {:trigger c in m[i]} :: i in m && c in m[i] ==> p.inst(c) == i)
  }

  function Enlist(p: Program, m: Index, cts: Stmt): Index
  {
    m[p.inst(cts) := (if p.inst(cts) in m then m[p.inst(cts)] else {}) + {cts}]
  }

  lemma EnlistAdds(p: Program, m: Index, cts: Stmt)
    requires UnderOwnInst(p, m)
    ensures UnderOwnInst(p, Enlist(p, m, cts)) && Lists(Enlist(p, m, cts)) == Lists(m) + {cts}
  {
    var n := Enlist(p, m, cts);
    assert cts in n[p.inst(cts)];
    forall c
      ensures c in Lists(n) <==> c in Lists(m) + {cts}
    {
      if c in Lists(m) {
        var i :| i in m && c in m[i];
        assert i in n && c in n[i];
      }
    }
  }

  function Threads(m: Interleavings, cts: Stmt): set<Tid>
  {
    if cts in m then m[cts] else {}
  }

  ghost function NonEmpty(m: Interleavings): map<Stmt, set<Tid>>
  {
    map cts | cts in m && m[cts] != {} :: m[cts]
  }

  lemma ThreadsAreToks(m: Interleavings, work: set<Stmt>, cts: Stmt)
    ensures Threads(m, cts) == Toks(State(NonEmpty(m), work), cts)
  {
  }

  lemma SetThreads(m: Interleavings, work: set<Stmt>, cts: Stmt, x: set<Tid>)
    ensures With(State(NonEmpty(m), work), cts, x) ==
            State(NonEmpty(m[cts := x]), if x == Threads(m, cts) then work else work + {cts})
  {
    assert With(State(NonEmpty(m), work), cts, x).toks == NonEmpty(m[cts := x]);
  }

  // ---------------------------------------------------------------- the analysis

  ghost predicate HandingOn(p: Program, seeds: Seeds, u: Stmt, b: State, n: State, listed: set<Stmt>, todo: set<Stmt>)
  {
    && u in p.stmts
    && Invariant(FlowOf(p), seeds, n, {u})
    && Served(FlowOf(p), n, u, todo)
    && Passed(FlowOf(p), u, b, n)
    && IndexKept(FlowOf(p), seeds, n, listed, {u})
    && (Toks(n, u) != {} ==> p.succ(u) - todo <= listed)
  }

  lemma FlowOk(p: Program)
    requires ProgramOk(p)
    ensures WellFormed(FlowOf(p)) && KillsEnd(FlowOf(p))
  {
    var f := FlowOf(p);
    forall u, t | u in f.stmts && t in f.succ(u) && f.kill(u) != {}
      ensures f.toEnd(t) < f.toEnd(u)
    {
      assert t in p.succ(u) && p.joined(u) != {};
    }
  }

  lemma HandOn(p: Program, seeds: Seeds, u: Stmt, b: State, n: State, listed: set<Stmt>,
               todo: set<Stmt>, t: Stmt, m: State)
    requires ProgramOk(p) && HandingOn(p, seeds, u, b, n, listed, todo) && t in p.succ(u)
    requires m == PassOn(n, u, t)
    ensures HandingOn(p, seeds, u, b, m, if Toks(n, u) <= Toks(n, t) then listed else listed + {t}, todo - {t})
  {
    hide Invariant, Passed, Toks, KillsEnd, WellFormed, PassOn, IndexKept;
    var f := FlowOf(p);
    var after := if Toks(n, u) <= Toks(n, t) then listed else listed + {t};
    FlowOk(p);
    assert Toks(n, u) * f.kill(u) == {} by {
      assert Served(f, n, u, todo);
    }
    PassOnKeeps(f, seeds, n, u, t, todo);
    PassOnPassed(f, seeds, n, u, t);
    PassedTransitive(f, u, b, n, m);
    PassedOnIndex(f, seeds, n, listed, u, t, todo, after);
  }

  lemma BeginHandingOn(p: Program, seeds: Seeds, s: State, listed: set<Stmt>, u: Stmt)
    requires Invariant(FlowOf(p), seeds, s, {}) && IndexKept(FlowOf(p), seeds, s, listed, {}) && u in s.work
    ensures HandingOn(p, seeds, u, Begin(FlowOf(p), s, u), Begin(FlowOf(p), s, u), listed, p.succ(u))
  {
    BeginKeeps(FlowOf(p), seeds, s, u);
    BegunIndex(FlowOf(p), seeds, s, listed, u);
    hide Begin, Invariant, IndexKept, Served;
    assert p.succ(u) - p.succ(u) == {};
  }

  lemma EndHandingOn(p: Program, seeds: Seeds, s: State, n: State, listed: set<Stmt>, u: Stmt)
    requires ProgramOk(p) && Invariant(FlowOf(p), seeds, s, {}) && u in s.work
    requires HandingOn(p, seeds, u, Begin(FlowOf(p), s, u), n, listed, {})
    ensures Invariant(FlowOf(p), seeds, n, {}) && IndexKept(FlowOf(p), seeds, n, listed, {})
    ensures Room(FlowOf(p), n) <= Room(FlowOf(p), s)
    ensures Room(FlowOf(p), n) == Room(FlowOf(p), s) ==>
              && PlainWork(FlowOf(p), n) <= PlainWork(FlowOf(p), s)
              && (PlainWork(FlowOf(p), n) == PlainWork(FlowOf(p), s) ==>
                    Burden(FlowOf(p), n, p.longest) < Burden(FlowOf(p), s, p.longest))
  {
    var f := FlowOf(p);
    assert n.work <= f.stmts && s.work <= f.stmts && WellFormed(f);
    hide Invariant, IndexKept, Passed, Served, Room, PlainWork, Burden, Begin, WellFormed;
    EndKeeps(f, seeds, n, u);
    EndedIndex(f, seeds, n, listed, u);
    HandledProgress(f, s, u, n);
  }

  /** All threads entered so far have been spread along control flow. */
  ghost predicate Settled(p: Program, roots: set<Tid>, s: State, m: Index)
  {
    && s.work == {} && UnderOwnInst(p, m)
    && Invariant(FlowOf(p), SeedsOf(p, roots), s, {})
    && IndexKept(FlowOf(p), SeedsOf(p, roots), s, Lists(m), {})
  }

  lemma NoneJoined(p: Program, u: Stmt)
    ensures p.joined(u) == {} ==> FlowOf(p).kill(u) == {}
  {
  }

  /** Where nothing is removed, popping is all there is to begin with. */
  lemma NotJoin(p: Program, s: State, u: Stmt, m: Interleavings)
    requires u in s.work && s.toks == NonEmpty(m)
    ensures Begin(FlowOf(p), s, u) ==
            With(s.(work := s.work - {u}), u, Toks(s.(work := s.work - {u}), u) - FlowOf(p).kill(u))
    ensures p.joined(u) == {} ==> Begin(FlowOf(p), s, u) == s.(work := s.work - {u})
  {
    hide FlowOf;
    NoneJoined(p, u);
    BeginParts(FlowOf(p), s, u, m);
  }

  lemma BeginParts(f: Flow, s: State, u: Stmt, m: Interleavings)
    requires u in s.work && s.toks == NonEmpty(m)
    ensures Begin(f, s, u) == With(s.(work := s.work - {u}), u, Toks(s.(work := s.work - {u}), u) - f.kill(u))
    ensures f.kill(u) == {} ==> Begin(f, s, u) == s.(work := s.work - {u})
  {
    var popped := s.(work := s.work - {u});
    assert Toks(s, u) - {} == Toks(s, u) == Toks(popped, u);
    assert With(popped, u, Toks(s, u)).toks == s.toks;
  }

  lemma NothingPlaced(p: Program, s: State)
    requires ProgramOk(p) && s == State(map[], {})
    ensures Settled(p, {}, s, map[])
  {
  }

  lemma PlacedIndex(f: Flow, seeds: Seeds, s: State, listed: set<Stmt>, r: Stmt, x: Tid)
    requires IndexKept(f, seeds, s, listed, {})
    ensures IndexKept(f, seeds + {(r, x)}, With(s, r, Toks(s, r) + {x}),
                      if x in Toks(s, r) then listed else listed + {r}, {})
  {
    assert x in Toks(s, r) ==> r in listed;
    hide IndexKept, With, Toks;
    SeededIndex(f, seeds, s, listed, r, x);
    if x in Toks(s, r) {
      assert listed + {r} == listed;
    }
  }

  lemma PlacedInvariant(p: Program, seeds: Seeds, s: State, r: Stmt, x: Tid)
    requires Invariant(FlowOf(p), seeds, s, {}) && r in p.stmts && x in p.threads
    ensures Invariant(FlowOf(p), seeds + {(r, x)}, With(s, r, Toks(s, r) + {x}), {})
  {
    hide Invariant, With, Toks;
    assert SeedsAt(r, {x}) == {(r, x)};
    SeedKeeps(FlowOf(p), seeds, s, r, {x});
  }

  lemma SeedsGrow(p: Program, roots: set<Tid>, tid: Tid)
    ensures SeedsOf(p, roots + {tid}) == SeedsOf(p, roots) + set r | r in p.placed(tid) :: (r, tid)
  {
  }

  // ---------------------------------------------------------------- queries

  /** Some thread gets to `u`, a statement of instruction `i`. */
  ghost predicate RunsAt(p: Program, i: Inst, u: Stmt)
  {
    p.inst(u) == i && Reached(FlowOf(p), SeedsOf(p, p.threads), u)
  }

  ghost predicate Alongside(p: Program, u: Stmt, x: Tid)
  {
    Survives(FlowOf(p), SeedsOf(p, p.threads), u, x)
  }

  /** A path along which `x` comes from a place it is entered at to `u`, past every statement
      that joins it for certain. */
  ghost predicate Comes(p: Program, path: seq<Stmt>, u: Stmt, x: Tid)
  {
    && |path| > 0 && x in p.threads && path[0] in p.placed(x) && path[|path| - 1] == u
    && forall i :: 0 <= i < |path| - 1 ==>
         && path[i + 1] in p.succ(path[i])
         && (p.multiforked(p.tid(path[i])) || p.inRecursion(p.inst(path[i])) || x !in p.joined(path[i]))
  }

  /** `x` runs alongside `u` if it comes there and is not joined there for certain: never
      where the executing thread is forked repeatedly or the site lies in a recursion. */
  lemma AlongsideMeans(p: Program, u: Stmt, x: Tid)
    ensures Alongside(p, u, x) <==>
            && (exists path :: Comes(p, path, u, x))
            && (p.multiforked(p.tid(u)) || p.inRecursion(p.inst(u)) || x !in p.joined(u))
  {
    var f, seeds := FlowOf(p), SeedsOf(p, p.threads);
    forall path: seq<Stmt>
      ensures Comes(p, path, u, x) <==> Carries(f, seeds, path, x) && path[|path| - 1] == u
    {
    }
  }

  lemma ComesMeans(p: Program, u: Stmt)
    ensures Reached(FlowOf(p), SeedsOf(p, p.threads), u) <==> exists x, path :: Comes(p, path, u, x)
  {
    var f, seeds := FlowOf(p), SeedsOf(p, p.threads);
    forall path: seq<Stmt>, x
      ensures Comes(p, path, u, x) <==> Carries(f, seeds, path, x) && path[|path| - 1] == u
    {
    }
    if x, path :| Comes(p, path, u, x) {
      assert Arrives(f, seeds, u, x);
    }
  }

  /** Each runs alongside the other's thread; one thread only if it is forked repeatedly. */
  ghost predicate InParallel(p: Program, a: Stmt, b: Stmt)
  {
    if p.tid(a) != p.tid(b) then Alongside(p, a, p.tid(b)) && Alongside(p, b, p.tid(a)) else p.multiforked(p.tid(a))
  }

  lemma ThreadsExact(p: Program, m: Interleavings, work: set<Stmt>, index: Index, u: Stmt, x: Tid)
    requires Settled(p, p.threads, State(NonEmpty(m), work), index)
    ensures x in Threads(m, u) <==> Alongside(p, u, x)
  {
    ThreadsAreToks(m, work, u);
    hide FlowOf, SeedsOf, Invariant, NonEmpty, Threads, Toks, Survives, IndexKept;
    DrainedAt(FlowOf(p), SeedsOf(p, p.threads), State(NonEmpty(m), work), u, x);
  }

  lemma IndexExact(p: Program, m: Interleavings, work: set<Stmt>, index: Index, i: Inst, u: Stmt)
    requires Settled(p, p.threads, State(NonEmpty(m), work), index)
    ensures i in index && u in index[i] <==> RunsAt(p, i, u)
  {
    hide Invariant, IndexKept, Reached, NonEmpty;
    DrainedIndex(FlowOf(p), SeedsOf(p, p.threads), State(NonEmpty(m), work), Lists(index), u);
    ListedOnce(p, index, i, u);
  }

  /** A query over two instructions is one over the two lists of the index. */
  lemma QueryOverIndex(p: Program, m: Interleavings, work: set<Stmt>, index: Index, i1: Inst, i2: Inst)
    requires Settled(p, p.threads, State(NonEmpty(m), work), index)
    ensures (exists a, b :: RunsAt(p, i1, a) && RunsAt(p, i2, b) && InParallel(p, a, b)) <==>
            i1 in index && i2 in index && exists a, b :: a in index[i1] && b in index[i2] && InParallel(p, a, b)
  {
    hide Settled, RunsAt, InParallel;
    if a, b :| RunsAt(p, i1, a) && RunsAt(p, i2, b) && InParallel(p, a, b) {
      IndexExact(p, m, work, index, i1, a);
      IndexExact(p, m, work, index, i2, b);
    }
    if i1 in index && i2 in index {
      if a, b :| a in index[i1] && b in index[i2] && InParallel(p, a, b) {
        IndexExact(p, m, work, index, i1, a);
        IndexExact(p, m, work, index, i2, b);
        assert RunsAt(p, i1, a) && RunsAt(p, i2, b);
      }
    }
  }

  lemma ListedOnce(p: Program, index: Index, i: Inst, u: Stmt)
    requires UnderOwnInst(p, index)
    ensures i in index && u in index[i] <==> p.inst(u) == i && u in Lists(index)
  {
    if u in Lists(index) {
      var j :| j in index && u in index[j];
      assert p.inst(u) == j;
    }
  }

  class MHP {
    const p: Program
    var threadStmtToTheadInterLeav: Interleavings
    var instToTSMap: Index
    var cxtStmtList: set<Stmt>

    ghost function Now(): State
      reads this
    {
      State(NonEmpty(threadStmtToTheadInterLeav), cxtStmtList)
    }

    constructor (p: Program)
      ensures this.p == p && Now() == State(map[], {}) && instToTSMap == map[]
    {
      this.p := p;
      threadStmtToTheadInterLeav, instToTSMap, cxtStmtList := map[], map[], {};
    }

    /** Enters one thread at a statement. */
    method AddInterleavingThread(tgr: Stmt, tid: Tid)
      requires UnderOwnInst(p, instToTSMap)
      modifies this
      ensures Now() == With(old(Now()), tgr, Toks(old(Now()), tgr) + {tid})
      ensures UnderOwnInst(p, instToTSMap)
      ensures Lists(instToTSMap) ==
              if tid in Toks(old(Now()), tgr) then old(Lists(instToTSMap)) else old(Lists(instToTSMap)) + {tgr}
    {
      hide UnderOwnInst, Lists, Enlist, NonEmpty, Toks, With;
      var had := Threads(threadStmtToTheadInterLeav, tgr);
      ThreadsAreToks(threadStmtToTheadInterLeav, cxtStmtList, tgr);
      SetThreads(threadStmtToTheadInterLeav, cxtStmtList, tgr, had + {tid});
      threadStmtToTheadInterLeav := threadStmtToTheadInterLeav[tgr := had + {tid}];
      if tid !in had {
        EnlistAdds(p, instToTSMap, tgr);
        instToTSMap := Enlist(p, instToTSMap, tgr);
        cxtStmtList := cxtStmtList + {tgr};
        assert had + {tid} != had;
      } else {
        assert had + {tid} == had;
      }
    }

    /** Enters at `tgr` all threads of `src`. */
    method AddInterleavingFrom(tgr: Stmt, src: Stmt)
      requires UnderOwnInst(p, instToTSMap)
      modifies this
      ensures Now() == PassOn(old(Now()), src, tgr)
      ensures UnderOwnInst(p, instToTSMap)
      ensures Lists(instToTSMap) ==
              if Toks(old(Now()), src) <= Toks(old(Now()), tgr) then old(Lists(instToTSMap))
              else old(Lists(instToTSMap)) + {tgr}
    {
      hide UnderOwnInst, Lists, Enlist, NonEmpty, Toks, With;
      var had := Threads(threadStmtToTheadInterLeav, tgr);
      var more := Threads(threadStmtToTheadInterLeav, src);
      ThreadsAreToks(threadStmtToTheadInterLeav, cxtStmtList, tgr);
      ThreadsAreToks(threadStmtToTheadInterLeav, cxtStmtList, src);
      SetThreads(threadStmtToTheadInterLeav, cxtStmtList, tgr, had + more);
      threadStmtToTheadInterLeav := threadStmtToTheadInterLeav[tgr := had + more];
      var changed := had + more != had;
      assert changed <==> !(more <= had);
      if changed {
        EnlistAdds(p, instToTSMap, tgr);
        instToTSMap := Enlist(p, instToTSMap, tgr);
        cxtStmtList := cxtStmtList + {tgr};
      }
    }

    /** Takes the joined threads away, if the join is certain to happen for the thread
        executing it; the test does not depend on the joined thread. */
    method RmInterleavingThread(tgr: Stmt, tids: set<Tid>, joinsite: Inst)
      modifies this`threadStmtToTheadInterLeav, this`cxtStmtList
      ensures Now() == With(old(Now()), tgr,
                            Toks(old(Now()), tgr)
                            - if p.multiforked(p.tid(tgr)) || p.inRecursion(joinsite) then {} else tids)
    {
      hide NonEmpty, Toks, With;
      var joinedTids: set<Tid> := {};
      var rest := tids;
      while rest != {}
        invariant rest <= tids
        invariant joinedTids == if IsMustJoin(p, p.tid(tgr), joinsite) then tids - rest else {}
      {
        var t :| t in rest;
        if IsMustJoin(p, p.tid(tgr), joinsite) {
          joinedTids := joinedTids + {t};
        }
        rest := rest - {t};
      }
      assert joinedTids == if IsMustJoin(p, p.tid(tgr), joinsite) then tids else {};
      var had := Threads(threadStmtToTheadInterLeav, tgr);
      ThreadsAreToks(threadStmtToTheadInterLeav, cxtStmtList, tgr);
      SetThreads(threadStmtToTheadInterLeav, cxtStmtList, tgr, had - joinedTids);
      threadStmtToTheadInterLeav := threadStmtToTheadInterLeav[tgr := had - joinedTids];
      if had - joinedTids != had {
        cxtStmtList := cxtStmtList + {tgr};
      }
    }

    /** One round of the worklist loop, after `cts` was taken from the queue of `s`. */
    method HandleStatement(cts: Stmt, ghost seeds: Seeds, ghost s: State)
      requires ProgramOk(p) && cts in s.work && Now() == s.(work := s.work - {cts})
      requires UnderOwnInst(p, instToTSMap) && Invariant(FlowOf(p), seeds, s, {})
      requires IndexKept(FlowOf(p), seeds, s, Lists(instToTSMap), {})
      modifies this
      ensures UnderOwnInst(p, instToTSMap)
      ensures HandingOn(p, seeds, cts, Begin(FlowOf(p), s, cts), Now(), Lists(instToTSMap), {})
    {
      hide UnderOwnInst, Lists, NonEmpty, Toks, With, Invariant, IndexKept, HandingOn, PassOn, ProgramOk;
      ghost var b := Begin(FlowOf(p), s, cts);
      NotJoin(p, s, cts, threadStmtToTheadInterLeav);
      if p.joined(cts) != {} {
        RmInterleavingThread(cts, p.joined(cts), p.inst(cts));
      }
      BeginHandingOn(p, seeds, s, Lists(instToTSMap), cts);
      hide Begin, FlowOf;
      var next := p.succ(cts);
      while next != {}
        invariant next <= p.succ(cts) && UnderOwnInst(p, instToTSMap)
        invariant HandingOn(p, seeds, cts, b, Now(), Lists(instToTSMap), next)
      {
        ghost var n, listed := Now(), Lists(instToTSMap);
        var t :| t in next;
        AddInterleavingFrom(t, cts);
        HandOn(p, seeds, cts, b, n, listed, next, t, Now());
        next := next - {t};
      }
    }

    /** Spreads what is queued until nothing is. */
    method Drain(ghost seeds: Seeds)
      requires ProgramOk(p) && UnderOwnInst(p, instToTSMap) && Invariant(FlowOf(p), seeds, Now(), {})
      requires IndexKept(FlowOf(p), seeds, Now(), Lists(instToTSMap), {})
      modifies this
      ensures cxtStmtList == {} && UnderOwnInst(p, instToTSMap) && Invariant(FlowOf(p), seeds, Now(), {})
      ensures IndexKept(FlowOf(p), seeds, Now(), Lists(instToTSMap), {})
    {
      hide UnderOwnInst, Lists, NonEmpty, Invariant, IndexKept, HandingOn, ProgramOk, FlowOf, Begin;
      hide Room, PlainWork, Burden;
      while cxtStmtList != {}
        invariant UnderOwnInst(p, instToTSMap) && Invariant(FlowOf(p), seeds, Now(), {})
        invariant IndexKept(FlowOf(p), seeds, Now(), Lists(instToTSMap), {})
        decreases Room(FlowOf(p), Now()), PlainWork(FlowOf(p), Now()), Burden(FlowOf(p), Now(), p.longest)
      {
        ghost var s := Now();
        var cts :| cts in cxtStmtList;
        cxtStmtList := cxtStmtList - {cts};
        HandleStatement(cts, seeds, s);
        EndHandingOn(p, seeds, s, Now(), Lists(instToTSMap), cts);
      }
    }

    /** Enters a thread wherever it may start running alongside. */
    method PlaceThread(tid: Tid, ghost roots: set<Tid>)
      requires ProgramOk(p) && tid in p.threads && Settled(p, roots, Now(), instToTSMap)
      modifies this
      ensures UnderOwnInst(p, instToTSMap) && Invariant(FlowOf(p), SeedsOf(p, roots + {tid}), Now(), {})
      ensures IndexKept(FlowOf(p), SeedsOf(p, roots + {tid}), Now(), Lists(instToTSMap), {})
    {
      hide UnderOwnInst, Lists, NonEmpty, Invariant, IndexKept, SeedsOf, With, FlowOf, Toks;
      var next := p.placed(tid);
      ghost var done: set<Stmt> := {};
      ghost var seeds := SeedsOf(p, roots);
      while next != {}
        invariant next + done == p.placed(tid)
        invariant seeds == SeedsOf(p, roots) + set r | r in done :: (r, tid)
        invariant UnderOwnInst(p, instToTSMap) && Invariant(FlowOf(p), seeds, Now(), {})
        invariant IndexKept(FlowOf(p), seeds, Now(), Lists(instToTSMap), {})
      {
        ghost var s, listed := Now(), Lists(instToTSMap);
        var r :| r in next;
        AddInterleavingThread(r, tid);
        PlacedInvariant(p, seeds, s, r, tid);
        PlacedIndex(FlowOf(p), seeds, s, listed, r, tid);
        seeds := seeds + {(r, tid)};
        next, done := next - {r}, done + {r};
      }
      assert done == p.placed(tid);
      SeedsGrow(p, roots, tid);
    }

    /** One thread after the other. */
    method AnalyzeInterleaving()
      requires ProgramOk(p) && Now() == State(map[], {}) && instToTSMap == map[]
      modifies this
      ensures Settled(p, p.threads, Now(), instToTSMap)
      ensures forall u, x :: x in Threads(threadStmtToTheadInterLeav, u) <==>
                && (exists path :: Comes(p, path, u, x))
                && (p.multiforked(p.tid(u)) || p.inRecursion(p.inst(u)) || x !in p.joined(u))
    {
      hide UnderOwnInst, Lists, NonEmpty, Invariant, IndexKept, SeedsOf, FlowOf, ProgramOk;
      var next := p.threads;
      ghost var done: set<Tid> := {};
      NothingPlaced(p, Now());
      while next != {}
        invariant next + done == p.threads
        invariant Settled(p, done, Now(), instToTSMap)
      {
        var tid :| tid in next;
        PlaceThread(tid, done);
        Drain(SeedsOf(p, done + {tid}));
        next, done := next - {tid}, done + {tid};
      }
      assert done == p.threads;
      hide Settled, Threads, Comes, Alongside;
      forall u, x
        ensures x in Threads(threadStmtToTheadInterLeav, u) <==>
                && (exists path :: Comes(p, path, u, x))
                && (p.multiforked(p.tid(u)) || p.inRecursion(p.inst(u)) || x !in p.joined(u))
      {
        ThreadsExact(p, threadStmtToTheadInterLeav, cxtStmtList, instToTSMap, u, x);
        AlongsideMeans(p, u, x);
      }
    }

    /** Whether some statement of `tsSet2` may run in parallel with `ts1`. */
    method InParallelWithSome(ts1: Stmt, tsSet2: set<Stmt>) returns (r: bool)
      requires Settled(p, p.threads, Now(), instToTSMap)
      ensures r <==> exists b :: b in tsSet2 && InParallel(p, ts1, b)
    {
      hide Settled, Alongside, NonEmpty, Threads;
      var l1 := Threads(threadStmtToTheadInterLeav, ts1);
      var rest := tsSet2;
      while rest != {}
        invariant rest <= tsSet2
        invariant forall b {:trigger InParallel(p, ts1, b)} :: b in tsSet2 && InParallel(p, ts1, b) ==> b in rest
      {
        var ts2 :| ts2 in rest;
        var l2 := Threads(threadStmtToTheadInterLeav, ts2);
        ThreadsExact(p, threadStmtToTheadInterLeav, cxtStmtList, instToTSMap, ts1, p.tid(ts2));
        ThreadsExact(p, threadStmtToTheadInterLeav, cxtStmtList, instToTSMap, ts2, p.tid(ts1));
        if p.tid(ts1) != p.tid(ts2) {
          if p.tid(ts2) in l1 && p.tid(ts1) in l2 {
            return true;
          }
        } else if p.multiforked(p.tid(ts1)) {
          return true;
        }
        rest := rest - {ts2};
      }
      r := false;
    }

    /** Whether two instructions may happen in parallel, in any of their contexts. */
    method MayHappenInParallelInst(i1: Inst, i2: Inst) returns (r: bool)
      requires Settled(p, p.threads, Now(), instToTSMap)
      // two threads run alongside each other's statements, or one is forked repeatedly
      ensures r <==> exists a, b ::
                && RunsAt(p, i1, a) && RunsAt(p, i2, b)
                && if p.tid(a) == p.tid(b) then p.multiforked(p.tid(a))
                   else Alongside(p, a, p.tid(b)) && Alongside(p, b, p.tid(a))
    {
      hide Settled, RunsAt, NonEmpty, Threads, Alongside;
      assert forall a, b :: InParallel(p, a, b) <==>
               if p.tid(a) == p.tid(b) then p.multiforked(p.tid(a))
               else Alongside(p, a, p.tid(b)) && Alongside(p, b, p.tid(a));
      QueryOverIndex(p, threadStmtToTheadInterLeav, cxtStmtList, instToTSMap, i1, i2);
      if i1 !in instToTSMap || i2 !in instToTSMap {
        return false;
      }
      var tsSet1 := instToTSMap[i1];
      while tsSet1 != {}
        invariant tsSet1 <= instToTSMap[i1]
        invariant forall a, b {:trigger InParallel(p, a, b)} ::
                    a in instToTSMap[i1] && b in instToTSMap[i2] && InParallel(p, a, b) ==> a in tsSet1
      {
        var ts1 :| ts1 in tsSet1;
        var found := InParallelWithSome(ts1, instToTSMap[i2]);
        if found {
          return true;
        }
        tsSet1 := tsSet1 - {ts1};
      }
      r := false;
    }
  }
}
