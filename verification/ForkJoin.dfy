/**
 Fork/join analysis: for every forked thread, a forward traversal from its fork site finds
 the statements at which it may still be running, and from these which threads are
 ordered, and which are joined.
 */
module ForkJoin {
  import opened TokenFlow

  type Tid = nat

  /** Empty, then TDDead, then TDAlive, from the top of the semilattice to its bottom. */
  datatype ValDomain = Empty | TDAlive | TDDead

  type FlagMap = map<Stmt, ValDomain>

  const REACHED: Token := 0
  const ALIVE: Token := 1

  /** A flag as the set of facts it stands for. */
  function Facts(v: ValDomain): set<Token>
  {
    match v
    case Empty => {}
    case TDDead => {REACHED}
    case TDAlive => {REACHED, ALIVE}
  }

  function FlagOf(m: FlagMap, cs: Stmt): ValDomain
  {
    if cs in m then m[cs] else Empty
  }

  ghost function FactMap(m: FlagMap): map<Stmt, set<Token>>
  {
    map cs | cs in m && m[cs] != Empty :: Facts(m[cs])
  }

  // ---------------------------------------------------------------- the program

  /** Control flow and the threads it forks. For a thread: the statements following its
      fork site, the sites outside loops that join it, its parent and the exit of the
      parent's start routine. */
  datatype Program = Program(
    stmts: set<Stmt>, succ: Stmt -> set<Stmt>, toEnd: Stmt -> nat, longest: nat,
    forks: Stmt -> set<Tid>,
    starts: Tid -> set<Stmt>, joins: Tid -> set<Stmt>, parent: Tid -> Tid, exits: Tid -> set<Stmt>)

  ghost function FlowOf(p: Program, root: Tid): Flow
  {
    Flow(p.stmts, {REACHED, ALIVE}, p.succ, u => if u in p.joins(root) then {ALIVE} else {}, p.toEnd, p.longest)
  }

  ghost function SeedsOf(p: Program, root: Tid): Seeds
  {
    SeedFacts(p.starts(root))
  }

  ghost function SeedFacts(starts: set<Stmt>): Seeds
  {
    set cs, x | cs in starts && x in {REACHED, ALIVE} :: (cs, x)
  }

  /** Join sites are neither fork sites nor returns. */
  ghost predicate ProgramOk(p: Program)
  {
    && (forall u :: u in p.stmts ==> p.succ(u) <= p.stmts && p.toEnd(u) < p.longest)
    && (forall root {:trigger p.starts(root)} :: p.starts(root) <= p.stmts)
    && (forall root, u {:trigger u in p.joins(root)} :: u in p.joins(root) ==> p.forks(u) == {} && u !in p.exits(root))
  }

  /** Some execution path from the fork site of `root` gets to `u` ... */
  ghost predicate Reaches(p: Program, root: Tid, u: Stmt)
  {
    Survives(FlowOf(p, root), SeedsOf(p, root), u, REACHED)
  }

  /** ... and one does without passing a join of `root`. */
  ghost predicate Live(p: Program, root: Tid, u: Stmt)
  {
    Survives(FlowOf(p, root), SeedsOf(p, root), u, ALIVE)
  }

  lemma LiveReaches(p: Program, root: Tid, u: Stmt)
    requires Live(p, root, u)
    ensures Reaches(p, root, u)
  {
    var f, seeds := FlowOf(p, root), SeedsOf(p, root);
    var path :| Carries(f, seeds, path, ALIVE) && path[|path| - 1] == u;
    assert Carries(f, seeds, path, REACHED);
  }

  /** A path from a statement following the fork site of `root` to `u`. */
  ghost predicate Way(p: Program, root: Tid, path: seq<Stmt>, u: Stmt)
  {
    && |path| > 0 && path[0] in p.starts(root) && path[|path| - 1] == u
    && forall i :: 0 <= i < |path| - 1 ==> path[i + 1] in p.succ(path[i])
  }

  /** Reached along some path; live along one that passes no join of `root`, nor ends at one. */
  lemma LiveMeans(p: Program, root: Tid, u: Stmt)
    ensures Reaches(p, root, u) <==> exists path :: Way(p, root, path, u)
    ensures Live(p, root, u) <==> exists path :: Way(p, root, path, u) && forall v :: v in path ==> v !in p.joins(root)
  {
    var f, seeds := FlowOf(p, root), SeedsOf(p, root);
    forall path: seq<Stmt>
      ensures Way(p, root, path, u) <==> Carries(f, seeds, path, REACHED) && path[|path| - 1] == u
    {
    }
    forall path: seq<Stmt> | Way(p, root, path, u)
      ensures Carries(f, seeds, path, ALIVE) && u !in p.joins(root) <==> forall v :: v in path ==> v !in p.joins(root)
    {
      JoinFree(p, root, path, u);
    }
    assert forall path :: Carries(f, seeds, path, ALIVE) && path[|path| - 1] == u ==> Way(p, root, path, u);
  }

  lemma JoinFree(p: Program, root: Tid, path: seq<Stmt>, u: Stmt)
    requires Way(p, root, path, u)
    ensures (forall v :: v in path ==> v !in p.joins(root)) <==>
            (forall i :: 0 <= i < |path| - 1 ==> path[i] !in p.joins(root)) && u !in p.joins(root)
  {
  }

  ghost predicate Forked(p: Program, root: Tid, child: Tid)
  {
    exists u :: child in p.forks(u) && Reaches(p, root, u)
  }

  ghost predicate ForkedLive(p: Program, root: Tid, child: Tid)
  {
    exists u :: child in p.forks(u) && Live(p, root, u)
  }

  lemma FlowOk(p: Program, root: Tid)
    requires ProgramOk(p)
    ensures WellFormed(FlowOf(p, root)) && KillsEnd(FlowOf(p, root))
  {
  }

  // ---------------------------------------------------------------- what is recorded

  datatype Log = Log(hb: set<(Tid, Tid)>, hp: set<(Tid, Tid)>, full: set<(Tid, Tid)>, partial: set<(Tid, Tid)>,
                     direct: set<(Stmt, Tid)>)

  ghost function Pairs(m: map<Stmt, set<Tid>>): set<(Stmt, Tid)>
  {
    set u, t | u in m && t in m[u] :: (u, t)
  }

  /** `root` with each thread forked at `u`, and the other way round. */
  ghost function Spawned(p: Program, root: Tid, u: Stmt): set<(Tid, Tid)>
  {
    From(root, p.forks(u))
  }

  ghost function SpawnedBack(p: Program, root: Tid, u: Stmt): set<(Tid, Tid)>
  {
    To(root, p.forks(u))
  }

  ghost function From(root: Tid, children: set<Tid>): set<(Tid, Tid)>
  {
    set c | c in children :: (root, c)
  }

  ghost function To(root: Tid, children: set<Tid>): set<(Tid, Tid)>
  {
    set c | c in children :: (c, root)
  }

  lemma OneMoreChild(root: Tid, children: set<Tid>, c: Tid, l: set<(Tid, Tid)>)
    ensures l + From(root, children + {c}) == l + From(root, children) + {(root, c)}
    ensures l + From(root, children + {c}) + To(root, children + {c}) ==
            l + From(root, children) + To(root, children) + {(root, c), (c, root)}
  {
    assert From(root, children + {c}) == From(root, children) + {(root, c)};
    assert To(root, children + {c}) == To(root, children) + {(c, root)};
  }

  ghost function Ended(p: Program, root: Tid, u: Stmt): set<(Tid, Tid)>
  {
    if u in p.exits(root) then {(p.parent(root), root)} else {}
  }

  /** What handling `u` once records, `live` being what its flag was then. */
  ghost function Record(p: Program, root: Tid, u: Stmt, live: bool, l: Log): Log
  {
    Log(if live then l.hb else l.hb + Spawned(p, root, u),
        if live then l.hp + Spawned(p, root, u) + SpawnedBack(p, root, u) else l.hp,
        if live then l.full else l.full + Ended(p, root, u),
        if live then l.partial + Ended(p, root, u) else l.partial,
        if u in p.joins(root) then l.direct + {(u, root)} else l.direct)
  }

  /** The records made on the way, `was` and `live` being the flag before and after. */
  ghost predicate Recorded(p: Program, root: Tid, u: Stmt, was: bool, live: bool, l: Log, m: Log)
  {
    && m.hb == (if was then l.hb else l.hb + Spawned(p, root, u))
    && m.hp == (if was then l.hp + Spawned(p, root, u) + SpawnedBack(p, root, u) else l.hp)
    && m.full == (if live then l.full else l.full + Ended(p, root, u))
    && m.partial == (if live then l.partial + Ended(p, root, u) else l.partial)
    && m.direct == (if u in p.joins(root) then l.direct + {(u, root)} else l.direct)
  }

  /** The flag changes only where nothing is forked. */
  lemma RecordedOnce(p: Program, root: Tid, u: Stmt, was: bool, live: bool, l: Log, m: Log)
    requires was == live || p.forks(u) == {}
    requires Recorded(p, root, u, was, live, l, m)
    ensures m == Record(p, root, u, live, l)
  {
    if was != live {
      assert Spawned(p, root, u) == {} && SpawnedBack(p, root, u) == {};
    }
  }

  ghost predicate Below(l: Log, m: Log)
  {
    l.hb <= m.hb && l.hp <= m.hp && l.full <= m.full && l.partial <= m.partial && l.direct <= m.direct
  }

  ghost predicate Noted(p: Program, root: Tid, u: Stmt, live: bool, l: Log)
  {
    Record(p, root, u, live, l) == l
  }

  lemma NotedStays(p: Program, root: Tid, u: Stmt, live: bool, l: Log, m: Log)
    requires Noted(p, root, u, live, l) && Below(l, m)
    ensures Noted(p, root, u, live, m)
  {
    forall c | c in p.forks(u)
      ensures if live then (root, c) in l.hp && (c, root) in l.hp else (root, c) in l.hb
    {
      var r := Record(p, root, u, live, l);
      assert if live then (root, c) in r.hp && (c, root) in r.hp else (root, c) in r.hb;
    }
    assert u in p.exits(root) ==> (p.parent(root), root) in if live then l.partial else l.full;
    assert u in p.joins(root) ==> (u, root) in l.direct;
    assert Record(p, root, u, live, m) == m;
  }

  lemma RecordNotes(p: Program, root: Tid, u: Stmt, live: bool, l: Log)
    ensures Below(l, Record(p, root, u, live, l))
    ensures Noted(p, root, u, live, Record(p, root, u, live, l))
  {
    var r := Record(p, root, u, live, l);
    assert Record(p, root, u, live, r) == r;
  }

  /** The traversal for `root` has added only what some path justifies. */
  ghost predicate Justified(p: Program, root: Tid, before: Log, l: Log)
  {
    && Below(before, l)
    && (forall a, b {:trigger (a, b) in l.hb} :: (a, b) in l.hb ==>
          (a, b) in before.hb || (a == root && Forked(p, root, b)))
    && (forall a, b {:trigger (a, b) in l.hp} :: (a, b) in l.hp ==>
          (a, b) in before.hp || (a == root && ForkedLive(p, root, b)) || (b == root && ForkedLive(p, root, a)))
    && (forall a, b {:trigger (a, b) in l.full} :: (a, b) in l.full ==>
          (a, b) in before.full ||
          (b == root && a == p.parent(root) && exists u :: u in p.exits(root) && Reaches(p, root, u)))
    && (forall a, b {:trigger (a, b) in l.partial} :: (a, b) in l.partial ==>
          (a, b) in before.partial ||
          (b == root && a == p.parent(root) && exists u :: u in p.exits(root) && Live(p, root, u)))
    && (forall u, a {:trigger (u, a) in l.direct} :: (u, a) in l.direct ==>
          (u, a) in before.direct || (a == root && u in p.joins(root) && Reaches(p, root, u)))
  }

  ghost predicate IsFlag(x: set<Token>)
  {
    x == {} || x == {REACHED} || x == {REACHED, ALIVE}
  }

  /** A flag is one of the three values, and only marked statements are queued. */
  ghost predicate Marked(s: State)
  {
    && (forall u {:trigger Toks(s, u)} :: IsFlag(Toks(s, u)))
    && (forall u {:trigger u in s.work} :: u in s.work ==> REACHED in Toks(s, u))
  }

  ghost predicate NotedAt(p: Program, root: Tid, s: State, u: Stmt, l: Log)
  {
    REACHED in Toks(s, u) ==> Noted(p, root, u, ALIVE in Toks(s, u), l)
  }

  /** What is known of a statement no longer queued is recorded. */
  ghost predicate AllNoted(p: Program, root: Tid, s: State, l: Log)
  {
    forall u {:trigger NotedAt(p, root, s, u, l)} :: u !in s.work ==> NotedAt(p, root, s, u, l)
  }

  ghost predicate Booked(p: Program, root: Tid, s: State, before: Log, l: Log)
  {
    Justified(p, root, before, l) && Marked(s) && AllNoted(p, root, s, l)
  }

  lemma RecordJustified(p: Program, root: Tid, before: Log, l: Log, u: Stmt, live: bool)
    requires Justified(p, root, before, l)
    requires Reaches(p, root, u) && (live ==> Live(p, root, u))
    ensures Justified(p, root, before, Record(p, root, u, live, l))
  {
    hide Reaches, Live;
    assert forall c :: c in p.forks(u) ==> Forked(p, root, c) && (live ==> ForkedLive(p, root, c));
  }

  /** What passing on may do to the statements other than its source. */
  ghost predicate Grown(s: State, t: State)
  {
    && s.work <= t.work
    && (forall v {:trigger Toks(t, v)} :: v !in t.work ==> Toks(t, v) == Toks(s, v))
  }

  lemma HandledReaches(p: Program, root: Tid, s: State, u: Stmt)
    requires ProgramOk(p) && u in s.work && REACHED in Toks(s, u)
    requires Invariant(FlowOf(p, root), SeedsOf(p, root), s, {})
    ensures REACHED in Toks(Begin(FlowOf(p, root), s, u), u) && Reaches(p, root, u)
    ensures ALIVE in Toks(Begin(FlowOf(p, root), s, u), u) ==> Live(p, root, u)
  {
    var f := FlowOf(p, root);
    assert Arrives(f, SeedsOf(p, root), u, REACHED);
    if ALIVE in Toks(Begin(f, s, u), u) {
      assert Arrives(f, SeedsOf(p, root), u, ALIVE);
    }
  }

  /** Handling `u` and recording what its flag was keeps the books. */
  lemma HandledBooked(p: Program, root: Tid, s: State, u: Stmt, n: State, before: Log, l: Log)
    requires ProgramOk(p) && Booked(p, root, s, before, l) && u in s.work
    requires Invariant(FlowOf(p, root), SeedsOf(p, root), s, {})
    requires Grown(Begin(FlowOf(p, root), s, u), n) && Toks(n, u) == Toks(Begin(FlowOf(p, root), s, u), u) && Marked(n)
    ensures Booked(p, root, n, before, Record(p, root, u, ALIVE in Toks(n, u), l))
  {
    hide Begin, Invariant, Justified, Record, Noted, NotedAt, AllNoted, Below, Reaches, Live, Toks, FlowOf,
         SeedsOf, Grown;
    var b := Begin(FlowOf(p, root), s, u);
    var live := ALIVE in Toks(n, u);
    HandledReaches(p, root, s, u);
    RecordJustified(p, root, before, l, u, live);
    RecordNotes(p, root, u, live, l);
    BeginElsewhere(FlowOf(p, root), s, u);
    OthersNoted(p, root, s, u, b, n, l, Record(p, root, u, live, l));
  }

  lemma OthersNoted(p: Program, root: Tid, s: State, u: Stmt, b: State, n: State, l: Log, m: Log)
    requires forall v {:trigger Toks(b, v)} {:trigger v in b.work} :: v != u ==>
               Toks(b, v) == Toks(s, v) && (v in b.work <==> v in s.work)
    requires Grown(b, n) && AllNoted(p, root, s, l) && Below(l, m) && Noted(p, root, u, ALIVE in Toks(n, u), m)
    ensures AllNoted(p, root, n, m)
  {
    hide Below, Noted, Record;
    forall v | v !in n.work
      ensures NotedAt(p, root, n, v, m)
    {
      if v != u && REACHED in Toks(n, v) {
        assert v !in b.work && Toks(n, v) == Toks(b, v) == Toks(s, v);
        assert NotedAt(p, root, s, v, l);
        NotedStays(p, root, v, ALIVE in Toks(s, v), l, m);
      }
    }
  }

  /** What one traversal leaves behind. */
  ghost predicate Traversed(p: Program, root: Tid, before: Log, l: Log)
  {
    && Justified(p, root, before, l)
    && (forall b: Tid {:trigger ForkedLive(p, root, b)} :: ForkedLive(p, root, b) ==>
          (root, b) in l.hp && (b, root) in l.hp)
    && (forall b: Tid {:trigger Forked(p, root, b)} :: Forked(p, root, b) && !ForkedLive(p, root, b) ==>
          (root, b) in l.hb)
    && (forall u {:trigger u in p.exits(root)} :: u in p.exits(root) && Reaches(p, root, u) ==>
          (p.parent(root), root) in if Live(p, root, u) then l.partial else l.full)
    && (forall u {:trigger u in p.joins(root)} :: u in p.joins(root) && Reaches(p, root, u) ==> (u, root) in l.direct)
  }

  lemma DrainedTraversed(p: Program, root: Tid, s: State, before: Log, l: Log)
    requires ProgramOk(p) && Booked(p, root, s, before, l) && s.work == {}
    requires Invariant(FlowOf(p, root), SeedsOf(p, root), s, {})
    ensures Traversed(p, root, before, l)
    ensures forall u :: REACHED in Toks(s, u) <==> Reaches(p, root, u)
    ensures forall u :: ALIVE in Toks(s, u) <==> Live(p, root, u)
  {
    DrainedIsExact(FlowOf(p, root), SeedsOf(p, root), s);
    assert forall u {:trigger Reaches(p, root, u)} :: REACHED in Toks(s, u) <==> Reaches(p, root, u);
    assert forall u {:trigger Live(p, root, u)} :: ALIVE in Toks(s, u) <==> Live(p, root, u);
    hide Reaches, Live, Invariant;
    ExactTraversed(p, root, s, before, l);
  }

  lemma ExactTraversed(p: Program, root: Tid, s: State, before: Log, l: Log)
    requires Booked(p, root, s, before, l) && s.work == {}
    requires forall u {:trigger Reaches(p, root, u)} :: REACHED in Toks(s, u) <==> Reaches(p, root, u)
    requires forall u {:trigger Live(p, root, u)} :: ALIVE in Toks(s, u) <==> Live(p, root, u)
    ensures Traversed(p, root, before, l)
  {
    hide Reaches, Live, Justified, Noted;
    forall u | Reaches(p, root, u)
      ensures NotedFacts(p, root, u, Live(p, root, u), l)
    {
      assert NotedAt(p, root, s, u, l);
      NotedIsRecorded(p, root, u, Live(p, root, u), l);
    }
    forall b: Tid | ForkedLive(p, root, b)
      ensures (root, b) in l.hp && (b, root) in l.hp
    {
      var u :| b in p.forks(u) && Live(p, root, u);
      assert ALIVE in Toks(s, u) && REACHED in Toks(s, u);
      assert Reaches(p, root, u) && NotedFacts(p, root, u, Live(p, root, u), l);
    }
    forall b: Tid | Forked(p, root, b) && !ForkedLive(p, root, b)
      ensures (root, b) in l.hb
    {
      var u :| b in p.forks(u) && Reaches(p, root, u);
      assert NotedFacts(p, root, u, Live(p, root, u), l);
    }
  }

  ghost predicate NotedFacts(p: Program, root: Tid, u: Stmt, live: bool, l: Log)
  {
    && (forall c :: c in p.forks(u) ==> if live then (root, c) in l.hp && (c, root) in l.hp else (root, c) in l.hb)
    && (u in p.exits(root) ==> (p.parent(root), root) in if live then l.partial else l.full)
    && (u in p.joins(root) ==> (u, root) in l.direct)
  }

  lemma NotedIsRecorded(p: Program, root: Tid, u: Stmt, live: bool, l: Log)
    requires Noted(p, root, u, live, l)
    ensures NotedFacts(p, root, u, live, l)
  {
    var r := Record(p, root, u, live, l);
    assert forall c :: c in p.forks(u) ==> if live then (root, c) in r.hp && (c, root) in r.hp else (root, c) in r.hb;
    assert r.full == l.full && r.partial == l.partial && r.direct == l.direct;
  }

  // ---------------------------------------------------------------- all threads

  ghost predicate EndReached(p: Program, root: Tid)
  {
    exists u :: u in p.exits(root) && Reaches(p, root, u)
  }

  ghost predicate EndLive(p: Program, root: Tid)
  {
    exists u :: u in p.exits(root) && Live(p, root, u)
  }

  /** The records once the threads of `roots` have been traversed. */
  ghost predicate Analyzed(p: Program, roots: set<Tid>, l: Log)
  {
    && (forall a: Tid, b: Tid {:trigger (a, b) in l.hp} ::
          (a, b) in l.hp <==> (a in roots && ForkedLive(p, a, b)) || (b in roots && ForkedLive(p, b, a)))
    && (forall a: Tid, b: Tid {:trigger (a, b) in l.hb} ::
          && ((a, b) in l.hb ==> a in roots && Forked(p, a, b))
          && (a in roots && Forked(p, a, b) && !ForkedLive(p, a, b) ==> (a, b) in l.hb))
    && (forall a: Tid, b: Tid {:trigger (a, b) in l.partial} ::
          (a, b) in l.partial <==> b in roots && a == p.parent(b) && EndLive(p, b))
    && (forall a: Tid, b: Tid {:trigger (a, b) in l.full} ::
          && ((a, b) in l.full ==> b in roots && a == p.parent(b) && EndReached(p, b))
          && (b in roots && a == p.parent(b) && EndReached(p, b) && !EndLive(p, b) ==> (a, b) in l.full))
    && (forall u: Stmt, a: Tid {:trigger (u, a) in l.direct} ::
          (u, a) in l.direct <==> a in roots && u in p.joins(a) && Reaches(p, a, u))
  }

  lemma NothingAnalyzed(p: Program)
    ensures Analyzed(p, {}, Log({}, {}, {}, {}, {}))
  {
  }

  lemma AnalyzedNext(p: Program, roots: set<Tid>, root: Tid, l: Log, m: Log)
    requires Analyzed(p, roots, l) && Traversed(p, root, l, m)
    ensures Analyzed(p, roots + {root}, m)
  {
    hide Reaches, Live, Forked, ForkedLive;
    if EndReached(p, root) && !EndLive(p, root) {
      var u :| u in p.exits(root) && Reaches(p, root, u);
      assert !Live(p, root, u);
    }
    if EndLive(p, root) {
      var u :| u in p.exits(root) && Live(p, root, u);
      LiveReaches(p, root, u);
    }
  }

  // ---------------------------------------------------------------- the analysis

  /** Statements handed on to so far. */
  ghost predicate HandingOn(p: Program, root: Tid, u: Stmt, b: State, n: State, todo: set<Stmt>)
  {
    && u in p.stmts
    && Invariant(FlowOf(p, root), SeedsOf(p, root), n, {u})
    && Served(FlowOf(p, root), n, u, todo)
    && Passed(FlowOf(p, root), u, b, n) && Grown(b, n) && Toks(n, u) == Toks(b, u)
    && Marked(n)
  }

  lemma HandOn(p: Program, root: Tid, u: Stmt, b: State, n: State, todo: set<Stmt>, t: Stmt, m: State)
    requires ProgramOk(p) && HandingOn(p, root, u, b, n, todo) && t in p.succ(u)
    requires m == PassOn(n, u, t) && Marked(m)
    ensures HandingOn(p, root, u, b, m, todo - {t})
  {
    hide Invariant, Passed, Marked, Toks, KillsEnd, WellFormed;
    var f, seeds := FlowOf(p, root), SeedsOf(p, root);
    FlowOk(p, root);
    assert Toks(n, u) * f.kill(u) == {} by {
      assert Served(f, n, u, todo);
    }
    PassOnKeeps(f, seeds, n, u, t, todo);
    PassOnPassed(f, seeds, n, u, t);
    PassedTransitive(f, u, b, n, m);
    hide FlowOf, Served;
    assert Toks(n, u) + Toks(n, u) == Toks(n, u);
    assert Grown(b, m);
  }

  /** Nothing has been handled yet. */
  ghost predicate Fresh(s: State)
  {
    forall u {:trigger Toks(s, u)} {:trigger u in s.work} ::
      IsFlag(Toks(s, u)) && (REACHED in Toks(s, u) <==> u in s.work)
  }

  lemma NothingYet(p: Program, root: Tid, s: State)
    requires ProgramOk(p) && s == State(map[], {})
    ensures Invariant(FlowOf(p, root), SeedFacts({}), s, {}) && Fresh(s)
  {
    FlowOk(p, root);
    assert forall u {:trigger Served(FlowOf(p, root), s, u, {})} :: Served(FlowOf(p, root), s, u, {});
  }

  lemma SeedOne(p: Program, root: Tid, done: set<Stmt>, s: State, cs: Stmt, t: State)
    requires Invariant(FlowOf(p, root), SeedFacts(done), s, {}) && Fresh(s)
    requires cs in p.stmts && t == With(s, cs, {REACHED, ALIVE})
    ensures Invariant(FlowOf(p, root), SeedFacts(done + {cs}), t, {}) && Fresh(t)
  {
    var given: set<Token> := {REACHED, ALIVE};
    SeedFresh(s, cs, t);
    hide Invariant, SeedFacts, With, Fresh;
    assert Toks(s, cs) + given == given;
    SeedFactsGrow(done, cs, given);
    SeedKeeps(FlowOf(p, root), SeedFacts(done), s, cs, given);
  }

  lemma SeedFactsGrow(done: set<Stmt>, cs: Stmt, given: set<Token>)
    requires given == {REACHED, ALIVE}
    ensures SeedFacts(done) + SeedsAt(cs, given) == SeedFacts(done + {cs})
  {
  }

  lemma SeedFresh(s: State, cs: Stmt, t: State)
    requires Fresh(s) && t == With(s, cs, {REACHED, ALIVE})
    ensures Fresh(t) && Toks(s, cs) <= {REACHED, ALIVE}
  {
    assert IsFlag(Toks(s, cs)) && IsFlag(Toks(t, cs)) && REACHED in Toks(t, cs);
    hide With, Toks;
    forall u | u != cs
      ensures IsFlag(Toks(t, u)) && (REACHED in Toks(t, u) <==> u in t.work)
    {
      assert Toks(t, u) == Toks(s, u);
    }
  }

  lemma FreshBooked(p: Program, root: Tid, s: State, l: Log)
    requires Fresh(s)
    ensures Booked(p, root, s, l, l)
  {
  }

  lemma Progress(p: Program, root: Tid, s: State, u: Stmt, n: State)
    requires ProgramOk(p) && u in s.work
    requires Invariant(FlowOf(p, root), SeedsOf(p, root), s, {}) && Invariant(FlowOf(p, root), SeedsOf(p, root), n, {})
    requires Passed(FlowOf(p, root), u, Begin(FlowOf(p, root), s, u), n)
    ensures var f := FlowOf(p, root);
            && Room(f, n) <= Room(f, s)
            && (Room(f, n) == Room(f, s) ==>
                  && PlainWork(f, n) <= PlainWork(f, s)
                  && (PlainWork(f, n) == PlainWork(f, s) ==> Burden(f, n, f.longest) < Burden(f, s, f.longest)))
  {
    HandledProgress(FlowOf(p, root), s, u, n);
  }

  lemma FlagsExact(p: Program, root: Tid, m: FlagMap)
    requires forall u :: REACHED in Toks(State(FactMap(m), {}), u) <==> Reaches(p, root, u)
    requires forall u :: ALIVE in Toks(State(FactMap(m), {}), u) <==> Live(p, root, u)
    ensures forall cs :: FlagOf(m, cs) ==
                         if Live(p, root, cs) then TDAlive else if Reaches(p, root, cs) then TDDead else Empty
  {
    hide Live, Reaches;
    forall cs
      ensures FlagOf(m, cs) == if Live(p, root, cs) then TDAlive else if Reaches(p, root, cs) then TDDead else Empty
    {
      assert Toks(State(FactMap(m), {}), cs) == Facts(FlagOf(m, cs));
    }
  }

  lemma FactsInjective(v: ValDomain, w: ValDomain)
    ensures Facts(v) == Facts(w) <==> v == w
  {
    assert ALIVE in Facts(TDAlive) && ALIVE !in Facts(TDDead) && REACHED in Facts(TDDead);
  }

  lemma MarkedFacts(m: FlagMap, work: set<Stmt>, cs: Stmt)
    ensures Facts(FlagOf(m, cs)) == Toks(State(FactMap(m), work), cs)
    ensures ALIVE in Facts(FlagOf(m, cs)) <==> FlagOf(m, cs) == TDAlive
    ensures cs !in m ==> FactMap(m[cs := Empty]) == FactMap(m)
  {
  }

  /** Setting a flag, and queueing the statement if this changes it. */
  lemma MarkedWith(m: FlagMap, work: set<Stmt>, cs: Stmt, flag: ValDomain)
    ensures With(State(FactMap(m), work), cs, Facts(flag)) ==
            State(FactMap(m[cs := flag]), if flag == FlagOf(m, cs) then work else work + {cs})
  {
    FactsInjective(flag, FlagOf(m, cs));
    assert With(State(FactMap(m), work), cs, Facts(flag)).toks == FactMap(m[cs := flag]);
  }

  lemma MergedFacts(tgr: ValDomain, src: ValDomain, merged: ValDomain)
    requires merged == if tgr == Empty then src else if tgr == TDDead && src == TDAlive then TDAlive else tgr
    ensures Facts(merged) == Facts(tgr) + Facts(src)
  {
  }

  lemma MarkedPassOn(s: State, src: Stmt, tgr: Stmt)
    ensures Marked(s) ==> Marked(PassOn(s, src, tgr))
  {
    if Marked(s) {
      var n := PassOn(s, src, tgr);
      forall u
        ensures IsFlag(Toks(n, u))
      {
        assert IsFlag(Toks(s, u)) && IsFlag(Toks(s, src)) && IsFlag(Toks(s, src) + Toks(s, u));
        assert Toks(n, u) == Toks(s, u) || Toks(n, u) == Toks(s, src) + Toks(s, u);
      }
    }
  }

  /** Popping `u`, and marking it dead if it joins `root`, is how handling it begins. */
  lemma PoppedIsBegin(p: Program, root: Tid, s: State, u: Stmt, before: Log, l: Log)
    requires Invariant(FlowOf(p, root), SeedsOf(p, root), s, {}) && Booked(p, root, s, before, l) && u in s.work
    ensures Begin(FlowOf(p, root), s, u) ==
            if u in p.joins(root) then With(s.(work := s.work - {u}), u, {REACHED}) else s.(work := s.work - {u})
    ensures Marked(Begin(FlowOf(p, root), s, u)) && Toks(s.(work := s.work - {u}), u) == Toks(s, u)
  {
    hide Invariant, Justified, AllNoted, SeedsOf;
    if u in p.joins(root) {
      assert IsFlag(Toks(s, u)) && Toks(s, u) - {ALIVE} == {REACHED};
    } else {
      assert Toks(s, u) - {} == Toks(s, u);
      assert With(s.(work := s.work - {u}), u, Toks(s, u)) == s.(work := s.work - {u});
    }
    BeginMarked(p, root, s, u);
  }

  lemma BeginMarked(p: Program, root: Tid, s: State, u: Stmt)
    requires Marked(s) && u in s.work
    ensures Marked(Begin(FlowOf(p, root), s, u))
  {
    hide Begin, Toks;
    var b := Begin(FlowOf(p, root), s, u);
    BeginElsewhere(FlowOf(p, root), s, u);
    assert IsFlag(Toks(b, u)) && REACHED in Toks(b, u) by {
      assert IsFlag(Toks(s, u)) && REACHED in Toks(s, u);
      assert Toks(s, u) - {ALIVE} == {REACHED} && Toks(s, u) - {} == Toks(s, u);
    }
    forall v
      ensures IsFlag(Toks(b, v))
    {
      assert IsFlag(Toks(s, v));
      assert v != u ==> Toks(b, v) == Toks(s, v);
    }
  }

  lemma HandingMarked(p: Program, root: Tid, u: Stmt, b: State, n: State, todo: set<Stmt>)
    requires HandingOn(p, root, u, b, n, todo)
    ensures Marked(n)
  {
  }

  lemma BeginHandingOn(p: Program, root: Tid, s: State, u: Stmt)
    requires Invariant(FlowOf(p, root), SeedsOf(p, root), s, {}) && u in s.work
    requires Marked(Begin(FlowOf(p, root), s, u))
    ensures HandingOn(p, root, u, Begin(FlowOf(p, root), s, u), Begin(FlowOf(p, root), s, u), p.succ(u))
  {
    BeginKeeps(FlowOf(p, root), SeedsOf(p, root), s, u);
  }

  lemma Handled(p: Program, root: Tid, s: State, u: Stmt, n: State, was: bool, before: Log, l: Log, m: Log)
    requires ProgramOk(p) && Booked(p, root, s, before, l) && u in s.work
    requires Invariant(FlowOf(p, root), SeedsOf(p, root), s, {})
    requires HandingOn(p, root, u, Begin(FlowOf(p, root), s, u), n, {})
    requires was == (ALIVE in Toks(s, u)) && Recorded(p, root, u, was, ALIVE in Toks(n, u), l, m)
    ensures Invariant(FlowOf(p, root), SeedsOf(p, root), n, {})
    ensures Passed(FlowOf(p, root), u, Begin(FlowOf(p, root), s, u), n)
    ensures Booked(p, root, n, before, m)
  {
    assert was == (ALIVE in Toks(n, u)) || p.forks(u) == {} by {
      assert Toks(n, u) == Toks(s, u) - FlowOf(p, root).kill(u);
    }
    hide Booked, Begin, FlowOf, SeedsOf, Passed, Marked, Record, Recorded;
    RecordedOnce(p, root, u, was, ALIVE in Toks(n, u), l, m);
    HandledBooked(p, root, s, u, n, before, l);
    EndKeeps(FlowOf(p, root), SeedsOf(p, root), n, u);
  }

  lemma ForkedMeans(p: Program, root: Tid, child: Tid)
    ensures Forked(p, root, child) <==> exists u :: child in p.forks(u) && Reaches(p, root, u)
    ensures ForkedLive(p, root, child) <==> exists u :: child in p.forks(u) && Live(p, root, u)
  {
  }

  lemma EndMeans(p: Program, root: Tid)
    ensures EndReached(p, root) <==> exists u :: u in p.exits(root) && Reaches(p, root, u)
    ensures EndLive(p, root) <==> exists u :: u in p.exits(root) && Live(p, root, u)
  {
  }

  class ForkJoinAnalysis {
    const p: Program
    var cxtStmtToAliveFlagMap: FlagMap
    var cxtStmtList: set<Stmt>
    var HBPair: set<(Tid, Tid)>
    var HPPair: set<(Tid, Tid)>
    var fullJoin: set<(Tid, Tid)>
    var partialJoin: set<(Tid, Tid)>
    var directJoinMap: map<Stmt, set<Tid>>

    ghost function Now(): State
      reads this
    {
      State(FactMap(cxtStmtToAliveFlagMap), cxtStmtList)
    }

    ghost function LogNow(): Log
      reads this
    {
      Log(HBPair, HPPair, fullJoin, partialJoin, Pairs(directJoinMap))
    }

    constructor (p: Program)
      ensures this.p == p && Now() == State(map[], {}) && LogNow() == Log({}, {}, {}, {}, {})
    {
      this.p := p;
      cxtStmtToAliveFlagMap, cxtStmtList, directJoinMap := map[], {}, map[];
      HBPair, HPPair, fullJoin, partialJoin := {}, {}, {}, {};
    }

    /** Looking up an unmarked statement enters it as Empty. */
    method GetMarkedFlag(cs: Stmt) returns (v: ValDomain)
      modifies this`cxtStmtToAliveFlagMap
      ensures v == FlagOf(cxtStmtToAliveFlagMap, cs)
      ensures forall c :: FlagOf(cxtStmtToAliveFlagMap, c) == old(FlagOf(cxtStmtToAliveFlagMap, c))
      ensures Now() == old(Now()) && Facts(v) == Toks(Now(), cs)
      ensures ALIVE in Toks(Now(), cs) <==> v == TDAlive
    {
      MarkedFacts(cxtStmtToAliveFlagMap, cxtStmtList, cs);
      if cs !in cxtStmtToAliveFlagMap {
        cxtStmtToAliveFlagMap := cxtStmtToAliveFlagMap[cs := Empty];
      }
      v := cxtStmtToAliveFlagMap[cs];
    }

    /** Overwrites a flag; a change queues the statement. */
    method MarkFlag(tgr: Stmt, flag: ValDomain)
      modifies this`cxtStmtToAliveFlagMap, this`cxtStmtList
      ensures Now() == With(old(Now()), tgr, Facts(flag))
    {
      hide FactMap, Facts, With;
      var was := GetMarkedFlag(tgr);
      MarkedWith(cxtStmtToAliveFlagMap, cxtStmtList, tgr, flag);
      cxtStmtToAliveFlagMap := cxtStmtToAliveFlagMap[tgr := flag];
      if was != flag {
        cxtStmtList := cxtStmtList + {tgr};
      }
    }

    /** The transfer function unites what the two flags stand for. */
    method MarkFromSource(tgr: Stmt, src: Stmt)
      modifies this`cxtStmtToAliveFlagMap, this`cxtStmtList
      ensures Now() == PassOn(old(Now()), src, tgr)
      ensures Marked(old(Now())) ==> Marked(Now())
    {
      hide FactMap, Facts, With, Toks, Marked;
      var flagTgr := GetMarkedFlag(tgr);
      var flagSrc := GetMarkedFlag(src);
      var merged := flagTgr;
      if flagTgr == Empty {
        merged := flagSrc;
      } else if flagTgr == TDDead {
        if flagSrc == TDAlive {
          merged := TDAlive;
        }
      }
      MergedFacts(flagTgr, flagSrc, merged);
      MarkedWith(cxtStmtToAliveFlagMap, cxtStmtList, tgr, merged);
      MarkedPassOn(Now(), src, tgr);
      cxtStmtToAliveFlagMap := cxtStmtToAliveFlagMap[tgr := merged];
      if flagTgr != merged {
        cxtStmtList := cxtStmtList + {tgr};
      }
    }

    method HandleIntra(cts: Stmt, root: Tid, ghost b: State)
      requires ProgramOk(p) && HandingOn(p, root, cts, b, Now(), p.succ(cts))
      modifies this`cxtStmtToAliveFlagMap, this`cxtStmtList
      ensures HandingOn(p, root, cts, b, Now(), {})
    {
      hide HandingOn, PassOn, Marked;
      var next := p.succ(cts);
      while next != {}
        invariant next <= p.succ(cts)
        invariant HandingOn(p, root, cts, b, Now(), next)
      {
        ghost var n := Now();
        var t :| t in next;
        assert Marked(n) by {
          HandingMarked(p, root, cts, b, n, next);
        }
        MarkFromSource(t, cts);
        HandOn(p, root, cts, b, n, next, t, Now());
        next := next - {t};
      }
    }

    /** Notes for every thread forked here whether `root` may still be alive. */
    method HandleFork(cts: Stmt, root: Tid)
      modifies this`cxtStmtToAliveFlagMap, this`HBPair, this`HPPair
      ensures Now() == old(Now())
      ensures if ALIVE in Toks(Now(), cts)
              then HBPair == old(HBPair) && HPPair == old(HPPair) + Spawned(p, root, cts) + SpawnedBack(p, root, cts)
              else HBPair == old(HBPair) + Spawned(p, root, cts) && HPPair == old(HPPair)
    {
      var forked := p.forks(cts);
      ghost var done: set<Tid> := {};
      assert From(root, done) == {} && To(root, done) == {};
      hide From, To, FactMap, Toks;
      while forked != {}
        invariant forked + done == p.forks(cts)
        invariant Now() == old(Now())
        invariant if ALIVE in Toks(Now(), cts)
                  then HBPair == old(HBPair) && HPPair == old(HPPair) + From(root, done) + To(root, done)
                  else HBPair == old(HBPair) + From(root, done) && HPPair == old(HPPair)
      {
        var c :| c in forked;
        OneMoreChild(root, done, c, if ALIVE in Toks(Now(), cts) then old(HPPair) else old(HBPair));
        var flag := GetMarkedFlag(cts);
        if flag != TDAlive {
          HBPair := HBPair + {(root, c)};
        } else {
          HPPair := HPPair + {(root, c), (c, root)};
        }
        forked, done := forked - {c}, done + {c};
      }
      assert done == p.forks(cts);
    }

    /** A matching join kills the thread and is recorded as joining it. */
    method HandleJoin(cts: Stmt, root: Tid)
      modifies this`cxtStmtToAliveFlagMap, this`cxtStmtList, this`directJoinMap
      ensures Now() == if cts in p.joins(root) then With(old(Now()), cts, {REACHED}) else old(Now())
      ensures Pairs(directJoinMap) ==
              if cts in p.joins(root) then old(Pairs(directJoinMap)) + {(cts, root)} else old(Pairs(directJoinMap))
    {
      if cts in p.joins(root) {
        MarkFlag(cts, TDDead);
        directJoinMap := directJoinMap[cts := (if cts in directJoinMap then directJoinMap[cts] else {}) + {root}];
      }
    }

    /** Whether the parent's routine can end before `root` does. */
    method CheckExit(cts: Stmt, root: Tid)
      modifies this`cxtStmtToAliveFlagMap, this`fullJoin, this`partialJoin
      ensures Now() == old(Now())
      ensures if ALIVE in Toks(Now(), cts)
              then fullJoin == old(fullJoin) && partialJoin == old(partialJoin) + Ended(p, root, cts)
              else fullJoin == old(fullJoin) + Ended(p, root, cts) && partialJoin == old(partialJoin)
    {
      if cts in p.exits(root) {
        var flag := GetMarkedFlag(cts);
        if flag != TDAlive {
          fullJoin := fullJoin + {(p.parent(root), root)};
        } else {
          partialJoin := partialJoin + {(p.parent(root), root)};
        }
      }
    }

    /** One round of the worklist loop, after `cts` was taken from the queue of `s`. */
    method HandleStatement(cts: Stmt, root: Tid, ghost s: State, ghost before: Log)
      requires ProgramOk(p) && cts in s.work && Now() == s.(work := s.work - {cts})
      requires Invariant(FlowOf(p, root), SeedsOf(p, root), s, {}) && Booked(p, root, s, before, LogNow())
      modifies this
      ensures Invariant(FlowOf(p, root), SeedsOf(p, root), Now(), {})
      ensures Passed(FlowOf(p, root), cts, Begin(FlowOf(p, root), s, cts), Now())
      ensures Booked(p, root, Now(), before, LogNow())
    {
      hide Invariant, FlowOf, SeedsOf, Passed, Booked, Spawned, SpawnedBack, Ended, Pairs, FactMap, HandingOn, Begin;
      hide With, Toks, Marked, FlagOf, Facts, ProgramOk;
      ghost var l := LogNow();
      ghost var b := Begin(FlowOf(p, root), s, cts);
      PoppedIsBegin(p, root, s, cts, before, l);
      HandleFork(cts, root);
      HandleJoin(cts, root);
      BeginHandingOn(p, root, s, cts);
      HandleIntra(cts, root, b);
      CheckExit(cts, root);
      Handled(p, root, s, cts, Now(), ALIVE in Toks(s, cts), before, l, LogNow());
    }

    /** Everything following the fork site starts out alive. */
    method Seed(root: Tid)
      requires ProgramOk(p)
      modifies this`cxtStmtToAliveFlagMap, this`cxtStmtList
      ensures Invariant(FlowOf(p, root), SeedsOf(p, root), Now(), {}) && Fresh(Now())
    {
      cxtStmtToAliveFlagMap, cxtStmtList := map[], {};
      var next := p.starts(root);
      ghost var done: set<Stmt> := {};
      NothingYet(p, root, Now());
      while next != {}
        invariant next + done == p.starts(root)
        invariant Invariant(FlowOf(p, root), SeedFacts(done), Now(), {}) && Fresh(Now())
      {
        var cs :| cs in next;
        ghost var s := Now();
        MarkFlag(cs, TDAlive);
        SeedOne(p, root, done, s, cs, Now());
        next, done := next - {cs}, done + {cs};
      }
      assert done == p.starts(root);
    }

    /** The traversal from the fork site of `root`. */
    method Traverse(root: Tid)
      requires ProgramOk(p)
      modifies this
      ensures Traversed(p, root, old(LogNow()), LogNow())
      ensures forall cs :: FlagOf(cxtStmtToAliveFlagMap, cs) ==
                           if Live(p, root, cs) then TDAlive else if Reaches(p, root, cs) then TDDead else Empty
    {
      hide Invariant, Fresh, Booked, FlowOf, SeedsOf, Room, PlainWork, Burden, FactMap, Pairs, Traversed, Live,
           Reaches;
      hide Passed, Begin, Toks, FlagOf, ProgramOk;
      ghost var f := FlowOf(p, root);
      ghost var before := LogNow();
      Seed(root);
      FreshBooked(p, root, Now(), before);
      while cxtStmtList != {}
        invariant Invariant(f, SeedsOf(p, root), Now(), {}) && Booked(p, root, Now(), before, LogNow())
        decreases Room(f, Now()), PlainWork(f, Now()), Burden(f, Now(), f.longest)
      {
        ghost var s := Now();
        var cts :| cts in cxtStmtList;
        cxtStmtList := cxtStmtList - {cts};
        HandleStatement(cts, root, s, before);
        Progress(p, root, s, cts, Now());
      }
      DrainedTraversed(p, root, Now(), before, LogNow());
      FlagsExact(p, root, cxtStmtToAliveFlagMap);
    }

    /** One traversal per forked thread; the records accumulate. */
    method AnalyzeForkJoinPair(threads: set<Tid>)
      requires ProgramOk(p) && LogNow() == Log({}, {}, {}, {}, {})
      modifies this
      ensures Analyzed(p, threads, LogNow())
    {
      hide Analyzed, Traversed;
      var next := threads;
      ghost var done: set<Tid> := {};
      NothingAnalyzed(p);
      while next != {}
        invariant next + done == threads
        invariant Analyzed(p, done, LogNow())
      {
        var root :| root in next;
        ghost var l := LogNow();
        Traverse(root);
        AnalyzedNext(p, done, root, l, LogNow());
        next, done := next - {root}, done + {root};
      }
      assert done == threads;
    }

    /** Thread `tid1` happens before `tid2`: it is dead wherever it could fork `tid2`, and
        `tid2` is not seen alive at a fork of `tid1` either. */
    method IsHBPair(tid1: Tid, tid2: Tid, ghost threads: set<Tid>) returns (r: bool)
      requires Analyzed(p, threads, LogNow())
      ensures r <==> && tid1 in threads && (exists u :: tid2 in p.forks(u) && Reaches(p, tid1, u))
                     && (forall u :: tid2 in p.forks(u) ==> !Live(p, tid1, u))
                     && (tid2 in threads ==> forall u :: tid1 in p.forks(u) ==> !Live(p, tid2, u))
    {
      ForkedMeans(p, tid1, tid2);
      ForkedMeans(p, tid2, tid1);
      hide Forked, ForkedLive, Live, Reaches;
      var nonhp := (tid1, tid2) in HBPair;
      var hp := (tid1, tid2) in HPPair;
      ghost var l := LogNow();
      assert ((tid1, tid2) in l.hb) == nonhp && ((tid1, tid2) in l.hp) == hp;
      r := nonhp && !hp;
    }

    /** `tid1` fully joins `tid2`: its routine can end, and never with `tid2` alive. */
    method IsFullJoin(tid1: Tid, tid2: Tid, ghost threads: set<Tid>) returns (r: bool)
      requires Analyzed(p, threads, LogNow())
      ensures r <==> && tid2 in threads && tid1 == p.parent(tid2)
                     && (exists u :: u in p.exits(tid2) && Reaches(p, tid2, u))
                     && (forall u :: u in p.exits(tid2) ==> !Live(p, tid2, u))
    {
      EndMeans(p, tid2);
      hide EndReached, EndLive, Live, Reaches;
      ghost var l := LogNow();
      assert ((tid1, tid2) in l.full) == ((tid1, tid2) in fullJoin);
      assert ((tid1, tid2) in l.partial) == ((tid1, tid2) in partialJoin);
      r := (tid1, tid2) in fullJoin && (tid1, tid2) !in partialJoin;
    }
  }
}
