/**
 Lock analysis: context-sensitive statements are given the locks held whenever they execute,
 and every lock the statements it protects.
 */
module LockSpans {
  import FiniteSets
  import TokenFlow

  type Stmt = TokenFlow.Stmt

  /** A lock is named by the statement acquiring it. */
  type Lock = Stmt
  type LockSets = map<Stmt, set<Lock>>
  type Spans = map<Lock, set<Stmt>>

  /** Control flow, the statements acquiring and releasing some lock and the routine entries
      the traversal starts from. */
  datatype Program = Program(
    stmts: set<Stmt>, succ: Stmt -> set<Stmt>, toEnd: Stmt -> nat, longest: nat,
    acquires: set<Stmt>, releases: set<Stmt>, entries: set<Stmt>)

  /** Acquiring is a call: its successor comes later in the same basic block. */
  ghost predicate ProgramOk(p: Program)
  {
    && (forall u :: u in p.stmts ==> p.succ(u) <= p.stmts && p.toEnd(u) < p.longest)
    && (forall u, t {:trigger t in p.succ(u)} ::
          u in p.stmts && u in p.acquires && t in p.succ(u) ==> p.toEnd(t) < p.toEnd(u))
    && p.acquires !! p.releases && p.entries <= p.stmts
  }

  // ---------------------------------------------------------------- paths

  /** Control flow that the traversal follows: it goes no further at a release. */
  ghost predicate IsWay(p: Program, way: seq<Stmt>)
  {
    |way| > 0 && forall i :: 0 <= i < |way| - 1 ==> way[i] !in p.releases && way[i + 1] in p.succ(way[i])
  }

  ghost predicate Leads(p: Program, u: Stmt, t: Stmt)
  {
    exists way :: IsWay(p, way) && way[0] == u && way[|way| - 1] == t
  }

  ghost predicate Reached(p: Program, t: Stmt)
  {
    exists u :: u in p.entries && Leads(p, u, t)
  }

  lemma LeadsHere(p: Program, u: Stmt)
    ensures Leads(p, u, u)
  {
    assert IsWay(p, [u]) && [u][|[u]| - 1] == u;
  }

  lemma LeadsOn(p: Program, u: Stmt, v: Stmt, t: Stmt)
    requires Leads(p, u, v) && v !in p.releases && t in p.succ(v)
    ensures Leads(p, u, t)
  {
    var way :| IsWay(p, way) && way[0] == u && way[|way| - 1] == v;
    var longer := way + [t];
    assert IsWay(p, longer) && longer[|longer| - 1] == t;
  }

  // ---------------------------------------------------------------- state

  datatype LockState = LockState(ls: LockSets, span: Spans, work: set<Stmt>)

  function Held(s: LockState, u: Stmt): set<Lock>
  {
    if u in s.ls then s.ls[u] else {}
  }

  function SpanOf(span: Spans, l: Lock): set<Stmt>
  {
    if l in span then span[l] else {}
  }

  /** `t` enters the spans of `locks`. */
  function Widen(span: Spans, locks: set<Lock>, t: Stmt): Spans
  {
    map l | l in span.Keys + locks :: if l in locks then SpanOf(span, l) + {t} else SpanOf(span, l)
  }

  /** The transfer function from `u` to `t`: copied to a new statement, else met. */
  function Mark(s: LockState, t: Stmt, u: Stmt): LockState
  {
    if t !in s.ls then
      LockState(if Held(s, u) == {} then s.ls else s.ls[t := Held(s, u)], Widen(s.span, Held(s, u), t), s.work + {t})
    else
      LockState(s.ls[t := s.ls[t] * Held(s, u)], s.span, if s.ls[t] <= Held(s, u) then s.work else s.work + {t})
  }

  /** A held lock has the holder in its span, was acquired on some way to it, and comes with
      every lock held where it is acquired. */
  ghost predicate LockOk(p: Program, s: LockState, l: Lock, t: Stmt)
  {
    t in SpanOf(s.span, l) && l in p.acquires && l in s.ls && Leads(p, l, t) && Held(s, l) <= Held(s, t)
  }

  /** `u` has been met into its successors outside `todo`, unless it holds no lock. */
  ghost predicate Met(p: Program, s: LockState, u: Stmt, todo: set<Stmt>)
  {
    Held(s, u) != {} ==>
      forall t {:trigger t in s.ls} :: t in p.succ(u) && t !in todo ==> t in s.ls && Held(s, t) - {t} <= Held(s, u)
  }

  /** A statement is in the span of a lock only if it has a lockset and the lock was acquired
      on some way to it. */
  ghost predicate SpansOk(p: Program, s: LockState)
  {
    forall t, l {:trigger t in SpanOf(s.span, l)} ::
      t in SpanOf(s.span, l) ==> t in s.ls && l in p.acquires && Leads(p, l, t)
  }

  /** What every state of the traversal keeps; `exempt` is being handled. */
  ghost predicate Kept(p: Program, s: LockState, exempt: set<Stmt>)
  {
    && SpansOk(p, s)
    && s.ls.Keys <= p.stmts && s.work <= p.stmts
    && (forall l, t {:trigger l in Held(s, t)} :: l in Held(s, t) ==> LockOk(p, s, l, t))
    && (forall t {:trigger Reached(p, t)} :: t in s.ls.Keys + s.work ==> Reached(p, t))
    && (forall u {:trigger p.succ(u)} :: u in s.ls && u !in s.work && u !in p.releases && u !in exempt ==>
          p.succ(u) <= s.ls.Keys + s.work)
    && p.entries <= s.ls.Keys + s.work
    && (forall u {:trigger u in s.work} :: u in s.work ==> u !in Held(s, u))
    && (forall u {:trigger Met(p, s, u, {})} :: u in s.ls && u !in s.work && u !in p.releases && u !in exempt ==>
          Met(p, s, u, {}))
  }

  /** In the end the statements given a lockset are those the traversal can reach. */
  lemma DrainedReached(p: Program, s: LockState, t: Stmt)
    requires Kept(p, s, {}) && s.work == {}
    ensures t in s.ls <==> Reached(p, t)
  {
    if t in s.ls {
      assert t in s.ls.Keys + s.work;
    } else if Reached(p, t) {
      var u :| u in p.entries && Leads(p, u, t);
      var way :| IsWay(p, way) && way[0] == u && way[|way| - 1] == t;
      WayIsTaken(p, s, way, |way| - 1);
    }
  }

  lemma {:induction false} WayIsTaken(p: Program, s: LockState, way: seq<Stmt>, n: nat)
    requires Kept(p, s, {}) && s.work == {} && IsWay(p, way) && way[0] in p.entries && n < |way|
    ensures way[n] in s.ls
  {
    if n > 0 {
      WayIsTaken(p, s, way, n - 1);
      assert way[n - 1 + 1] in p.succ(way[n - 1]);
    }
  }

  // ---------------------------------------------------------------- steps

  /** `u` leaves the queue and gets a lockset if it had none. */
  function Pop(s: LockState, u: Stmt): LockState
  {
    LockState(if u in s.ls then s.ls else s.ls[u := {}], s.span, s.work - {u})
  }

  /** `u` holds the lock it acquires. */
  function Acquire(s: LockState, u: Stmt): LockState
  {
    LockState(s.ls[u := Held(s, u) + {u}], Widen(s.span, {u}, u), s.work)
  }

  /** `u` leaves the queue and gets the lock it acquires, if any. */
  function Begun(p: Program, s: LockState, u: Stmt): LockState
  {
    if u in p.acquires then Acquire(Pop(s, u), u) else Pop(s, u)
  }

  /** The statements of `ts` are marked from `u` one after the other. */
  ghost function Marks(s: LockState, ts: seq<Stmt>, u: Stmt): LockState
  {
    if ts == [] then s else Mark(Marks(s, ts[..|ts| - 1], u), ts[|ts| - 1], u)
  }

  ghost predicate Lists(ts: seq<Stmt>, all: set<Stmt>)
  {
    (forall t :: t in ts <==> t in all) && forall i, j :: 0 <= i < j < |ts| ==> ts[i] != ts[j]
  }

  /** One round of the analysis: a queued statement is handled, its successors marked in
      any order, none at a release. */
  ghost predicate Round(p: Program, s: LockState, n: LockState, u: Stmt, ts: seq<Stmt>)
  {
    u in s.work && Lists(ts, if u in p.releases then {} else p.succ(u)) && n == Marks(Begun(p, s, u), ts, u)
  }

  ghost predicate SomeRound(p: Program, s: LockState, n: LockState)
  {
    exists u, ts :: Round(p, s, n, u, ts)
  }

  ghost predicate Rounds(p: Program, run: seq<LockState>)
  {
    forall i {:trigger SomeRound(p, run[i], run[i + 1])} :: 0 <= i < |run| - 1 ==> SomeRound(p, run[i], run[i + 1])
  }

  lemma MarksMore(s: LockState, ts: seq<Stmt>, t: Stmt, u: Stmt)
    ensures Marks(s, ts + [t], u) == Mark(Marks(s, ts, u), t, u)
  {
    assert (ts + [t])[..|ts|] == ts;
  }

  /** Nothing holds a lock named by a release, so none is found to be taken away there. */
  lemma ReleaseUnheld(p: Program, s: LockState, exempt: set<Stmt>, u: Stmt, t: Stmt)
    requires p.acquires !! p.releases && Kept(p, s, exempt) && u in p.releases
    ensures u !in Held(s, t)
  {
    assert u in Held(s, t) ==> LockOk(p, s, u, t);
  }

  /** Held locks come with their acquire, and spans grow along control flow only. */
  lemma SpansKept(p: Program, s: LockState, u: Stmt)
    requires SpansOk(p, s) && forall l :: l in Held(s, u) ==> l in p.acquires && Leads(p, l, u)
    ensures SpansOk(p, Pop(s, u))
    ensures u in p.acquires && u in s.ls ==> SpansOk(p, Acquire(s, u))
    ensures forall t :: u !in p.releases && t in p.succ(u) ==> SpansOk(p, Mark(s, t, u))
  {
    LeadsHere(p, u);
    hide Leads;
    forall t | u !in p.releases && t in p.succ(u)
      ensures SpansOk(p, Mark(s, t, u))
    {
      SpansMarked(p, s, t, u);
    }
  }

  lemma SpansMarked(p: Program, s: LockState, t: Stmt, u: Stmt)
    requires SpansOk(p, s) && forall l :: l in Held(s, u) ==> l in p.acquires && Leads(p, l, u)
    requires u !in p.releases && t in p.succ(u)
    ensures SpansOk(p, Mark(s, t, u))
  {
    var n := Mark(s, t, u);
    forall v, l | v in SpanOf(n.span, l)
      ensures v in n.ls && l in p.acquires && Leads(p, l, v)
    {
      if v !in SpanOf(s.span, l) {
        assert v == t && l in Held(s, u);
        LeadsOn(p, l, u, t);
      }
    }
  }

  lemma HeldLeads(p: Program, s: LockState, exempt: set<Stmt>, u: Stmt)
    requires Kept(p, s, exempt)
    ensures forall l :: l in Held(s, u) ==> l in p.acquires && Leads(p, l, u)
  {
    hide Leads, Reached, Met;
    forall l | l in Held(s, u)
      ensures l in p.acquires && Leads(p, l, u)
    {
      assert LockOk(p, s, l, u);
    }
  }

  lemma PopKeeps(p: Program, s: LockState, u: Stmt)
    requires Kept(p, s, {}) && u in s.work
    ensures Kept(p, Pop(s, u), {u}) && u in Pop(s, u).ls && u !in Pop(s, u).work && u !in Held(Pop(s, u), u)
  {
    HeldLeads(p, s, {}, u);
    SpansKept(p, s, u);
    hide SpansOk;
    var t := Pop(s, u);
    assert t.ls.Keys + t.work == s.ls.Keys + s.work;
    assert forall v :: Held(t, v) == Held(s, v);
    hide Leads, Reached, Held;
    forall l, v | l in Held(t, v)
      ensures LockOk(p, t, l, v)
    {
      assert LockOk(p, s, l, v);
    }
    forall v | v in t.ls && v !in t.work && v !in p.releases && v != u
      ensures Met(p, t, v, {})
    {
      assert Met(p, s, v, {});
    }
  }

  lemma AcquireKeeps(p: Program, s: LockState, u: Stmt)
    requires Kept(p, s, {u}) && u in p.acquires && u in s.ls && u !in s.work
    ensures Kept(p, Acquire(s, u), {u}) && u in Acquire(s, u).ls && u in Held(Acquire(s, u), u)
  {
    HeldLeads(p, s, {u}, u);
    SpansKept(p, s, u);
    hide SpansOk;
    var t := Acquire(s, u);
    assert t.ls.Keys + t.work == s.ls.Keys + s.work;
    assert forall v :: v != u ==> Held(t, v) == Held(s, v);
    LeadsHere(p, u);
    hide Leads, Reached, Held;
    forall l, v | l in Held(t, v)
      ensures LockOk(p, t, l, v)
    {
      assert l in Held(s, v) || (v == u && l == u);
      if l in Held(s, v) {
        assert LockOk(p, s, l, v);
      }
    }
    forall v | v in t.ls && v !in t.work && v !in p.releases && v != u
      ensures Met(p, t, v, {})
    {
      assert Met(p, s, v, {});
    }
  }

  lemma MarkKeeps(p: Program, s: LockState, t: Stmt, u: Stmt, todo: set<Stmt>)
    requires ProgramOk(p) && Kept(p, s, {u}) && u in s.ls && u !in s.work && u !in p.releases && t in p.succ(u)
    requires Met(p, s, u, todo)
    ensures Kept(p, Mark(s, t, u), {u}) && Met(p, Mark(s, t, u), u, todo - {t})
    ensures s.ls.Keys + s.work + {t} <= Mark(s, t, u).ls.Keys + Mark(s, t, u).work
    ensures u in Mark(s, t, u).ls && u !in Mark(s, t, u).work
  {
    var n := Mark(s, t, u);
    assert n.ls.Keys + n.work == s.ls.Keys + s.work + {t};
    HeldLeads(p, s, {u}, u);
    SpansKept(p, s, u);
    hide SpansOk;
    MarkReached(p, u, t);
    MarkLocks(p, s, t, u);
    MarkHolds(p, s, t, u);
    MarkQueue(p, s, t, u);
    hide LockOk, Mark, Held, ProgramOk, Leads, Met;
    MarkMeets(p, s, t, u, todo, n);
  }

  lemma MarkMeets(p: Program, s: LockState, t: Stmt, u: Stmt, todo: set<Stmt>, n: LockState)
    requires Kept(p, s, {u}) && u in s.ls && u !in s.work && Met(p, s, u, todo)
    requires n == Mark(s, t, u)
    ensures Met(p, n, u, todo - {t})
    ensures forall v {:trigger Met(p, n, v, {})} ::
              v in n.ls && v !in n.work && v !in p.releases && v != u ==> Met(p, n, v, {})
  {
    MarkHolds(p, s, t, u);
    hide Mark, LockOk, Held, Reached;
    forall v | v in n.ls && v !in n.work && v !in p.releases && v != u
      ensures Met(p, n, v, {})
    {
      assert Held(n, v) == Held(s, v);
      assert Met(p, s, v, {});
    }
  }

  lemma MarkHolds(p: Program, s: LockState, t: Stmt, u: Stmt)
    requires u in s.ls
    ensures var n := Mark(s, t, u);
            && (forall v {:trigger Held(n, v)} :: v in s.ls ==> v in n.ls && Held(n, v) <= Held(s, v))
            && (forall v {:trigger Held(n, v)} :: v !in n.work || v != t ==> Held(n, v) == Held(s, v))
            && (forall v {:trigger v in n.ls} :: v in n.ls && v !in s.ls ==> v == t && v in n.work)
            && Held(n, t) <= Held(s, u) && Held(n, u) == Held(s, u)
            && (Held(s, u) != {} ==> t in n.ls)
            && s.work <= n.work <= s.work + {t} && (u !in s.work ==> u !in n.work)
  {
  }

  /** A statement is queued again only once it has lost the lock it acquires itself. */
  lemma MarkQueue(p: Program, s: LockState, t: Stmt, u: Stmt)
    requires Kept(p, s, {u}) && u in s.ls
    ensures forall v {:trigger v in Mark(s, t, u).work} :: v in Mark(s, t, u).work ==> v !in Held(Mark(s, t, u), v)
  {
    var n := Mark(s, t, u);
    hide Leads, Reached;
    assert t in Held(s, u) ==> LockOk(p, s, t, u);
    assert forall v {:trigger Held(n, v)} :: v != t ==> Held(n, v) == Held(s, v);
  }

  /** The locks of the marked statement are some of its source's. */
  lemma MarkLocks(p: Program, s: LockState, t: Stmt, u: Stmt)
    requires Kept(p, s, {u}) && u in s.ls && u !in p.releases && t in p.succ(u)
    ensures forall l, v {:trigger l in Held(Mark(s, t, u), v)} ::
              l in Held(Mark(s, t, u), v) ==> LockOk(p, Mark(s, t, u), l, v)
  {
    var n := Mark(s, t, u);
    assert Held(n, t) == if t in s.ls then Held(s, t) * Held(s, u) else Held(s, u);
    assert forall v {:trigger Held(n, v)} :: v != t ==> Held(n, v) == Held(s, v);
    forall l, v | l in Held(n, v)
      ensures LockOk(p, n, l, v)
    {
      MarkLock(p, s, t, u, l, v);
    }
  }

  lemma MarkLock(p: Program, s: LockState, t: Stmt, u: Stmt, l: Lock, v: Stmt)
    requires Kept(p, s, {u}) && u in s.ls && u !in p.releases && t in p.succ(u) && l in Held(Mark(s, t, u), v)
    ensures LockOk(p, Mark(s, t, u), l, v)
  {
    var n := Mark(s, t, u);
    MarkHolds(p, s, t, u);
    hide Leads, Reached;
    if v == t {
      assert l in Held(s, u) && LockOk(p, s, l, u);
      LeadsOn(p, l, u, t);
      if t in s.ls {
        assert l in Held(s, t) && LockOk(p, s, l, t);
      }
    } else {
      assert l in Held(s, v) && LockOk(p, s, l, v);
    }
    assert Held(n, l) <= Held(s, l);
  }

  // ---------------------------------------------------------------- why locks are missing

  /** Some handled predecessor of `t` does not hold `l`. */
  ghost predicate LostBefore(p: Program, s: LockState, t: Stmt, l: Lock)
  {
    exists u :: u in s.ls && u !in p.releases && t in p.succ(u) && l !in Held(s, u) && l != u
  }

  /** Some handled predecessor of `t` holds no lock at all. */
  ghost predicate EmptyBefore(p: Program, s: LockState, t: Stmt)
  {
    exists u :: u in s.ls && u !in p.releases && u !in p.acquires && t in p.succ(u) && Held(s, u) == {}
  }

  /** Acquires hold their own lock, and other locks are missing for a reason only. */
  ghost predicate Grounded(p: Program, s: LockState, exempt: set<Stmt>)
  {
    && (forall u {:trigger u in p.acquires} ::
          u in s.ls && u !in s.work && u !in exempt && u in p.acquires ==> u in Held(s, u))
    && (forall t, l {:trigger LostBefore(p, s, t, l)} ::
          t in s.ls && t !in p.entries && l in p.acquires && l != t && l !in Held(s, t) ==> LostBefore(p, s, t, l))
    && (forall t {:trigger EmptyBefore(p, s, t)} ::
          t in s.work && t !in s.ls && t !in p.entries ==> EmptyBefore(p, s, t))
  }

  /** Reasons outlast a step that adds no locks to handled statements but their own. */
  lemma ReasonsStay(p: Program, s: LockState, n: LockState)
    requires forall u {:trigger Held(n, u)} :: u in s.ls ==> u in n.ls && Held(n, u) <= Held(s, u) + {u}
    requires forall u {:trigger Held(n, u)} :: u in s.ls && u !in p.acquires ==> Held(n, u) <= Held(s, u)
    ensures forall t, l {:trigger LostBefore(p, n, t, l)} :: LostBefore(p, s, t, l) ==> LostBefore(p, n, t, l)
    ensures forall t {:trigger EmptyBefore(p, n, t)} :: EmptyBefore(p, s, t) ==> EmptyBefore(p, n, t)
  {
    forall t, l | LostBefore(p, s, t, l)
      ensures LostBefore(p, n, t, l)
    {
      var u :| u in s.ls && u !in p.releases && t in p.succ(u) && l !in Held(s, u) && l != u;
      assert Held(n, u) <= Held(s, u) + {u};
    }
    forall t | EmptyBefore(p, s, t)
      ensures EmptyBefore(p, n, t)
    {
      var u :| u in s.ls && u !in p.releases && u !in p.acquires && t in p.succ(u) && Held(s, u) == {};
      assert Held(n, u) <= Held(s, u);
    }
  }

  lemma PopGrounded(p: Program, s: LockState, u: Stmt)
    requires Grounded(p, s, {}) && u in s.work
    ensures Grounded(p, Pop(s, u), {u})
  {
    var n := Pop(s, u);
    assert forall v :: Held(n, v) == Held(s, v);
    ReasonsStay(p, s, n);
    forall t, l | t in n.ls && t !in p.entries && l in p.acquires && l != t && l !in Held(n, t)
      ensures LostBefore(p, n, t, l)
    {
      if t in s.ls {
        assert LostBefore(p, s, t, l);
      } else {
        assert EmptyBefore(p, s, u);
        var v :| v in s.ls && v !in p.releases && v !in p.acquires && u in p.succ(v) && Held(s, v) == {};
        assert l !in Held(n, v) && l != v;
      }
    }
    forall t | t in n.work && t !in n.ls && t !in p.entries
      ensures EmptyBefore(p, n, t)
    {
      assert EmptyBefore(p, s, t);
    }
  }

  lemma AcquireGrounded(p: Program, s: LockState, u: Stmt)
    requires Grounded(p, s, {u}) && u in p.acquires && u in s.ls
    ensures Grounded(p, Acquire(s, u), {u})
  {
    var n := Acquire(s, u);
    assert forall v :: v != u ==> Held(n, v) == Held(s, v);
    ReasonsStay(p, s, n);
    forall t, l | t in n.ls && t !in p.entries && l in p.acquires && l != t && l !in Held(n, t)
      ensures LostBefore(p, n, t, l)
    {
      assert LostBefore(p, s, t, l);
    }
    forall t | t in n.work && t !in n.ls && t !in p.entries
      ensures EmptyBefore(p, n, t)
    {
      assert EmptyBefore(p, s, t);
    }
  }

  lemma MarkGrounded(p: Program, s: LockState, t: Stmt, u: Stmt)
    requires Grounded(p, s, {u}) && u in s.ls && u !in p.releases && t in p.succ(u)
    requires u in p.acquires ==> u in Held(s, u)
    ensures Grounded(p, Mark(s, t, u), {u})
  {
    var n := Mark(s, t, u);
    MarkHolds(p, s, t, u);
    ReasonsStay(p, s, n);
    forall v, l | v in n.ls && v !in p.entries && l in p.acquires && l != v && l !in Held(n, v)
      ensures LostBefore(p, n, v, l)
    {
      if v in s.ls && l !in Held(s, v) {
        assert LostBefore(p, s, v, l);
      } else {
        assert v == t && l !in Held(n, u) && l != u;
      }
    }
    forall v | v in n.work && v !in n.ls && v !in p.entries
      ensures EmptyBefore(p, n, v)
    {
      if v in s.work {
        assert EmptyBefore(p, s, v);
      } else {
        assert v == t && Held(n, u) == {} && u !in p.acquires;
      }
    }
  }

  lemma MarkReached(p: Program, u: Stmt, t: Stmt)
    requires u !in p.releases && t in p.succ(u)
    ensures Reached(p, u) ==> Reached(p, t)
  {
    if Reached(p, u) {
      var e :| e in p.entries && Leads(p, e, u);
      LeadsOn(p, e, u, t);
    }
  }

  /** Nothing is exempt once the successors of `u` are queued or done, or it is a release. */
  lemma EndKeeps(p: Program, s: LockState, u: Stmt)
    requires Kept(p, s, {u}) && (u in p.releases || (p.succ(u) <= s.ls.Keys + s.work && Met(p, s, u, {})))
    requires Grounded(p, s, {u}) && (u in p.acquires ==> u in Held(s, u))
    ensures Kept(p, s, {}) && Grounded(p, s, {})
  {
    KeptToo(p, s, u);
    hide Kept, LostBefore, EmptyBefore;
  }

  lemma KeptToo(p: Program, s: LockState, u: Stmt)
    requires Kept(p, s, {u}) && (u in p.releases || (p.succ(u) <= s.ls.Keys + s.work && Met(p, s, u, {})))
    ensures Kept(p, s, {})
  {
  }

  // ---------------------------------------------------------------- progress

  ghost function Untouched(p: Program, s: LockState): set<Stmt>
  {
    p.stmts - s.ls.Keys
  }

  /** Locks that can only be lost: all but the one a statement acquires itself. */
  ghost function OthersHeld(s: LockState): set<(Stmt, Lock)>
  {
    set t, l | t in s.ls && l in s.ls[t] && l != t :: (t, l)
  }

  ghost function PlainQueued(p: Program, s: LockState): set<Stmt>
  {
    set u | u in s.work && u in s.ls && u !in p.acquires
  }

  /** Queued acquires, weighed by their distance from the end of the basic block. */
  ghost function Weight(p: Program, s: LockState): nat
  {
    TokenFlow.Burden(AcquireFlow(p), AcquireQueue(s), p.longest)
  }

  ghost function AcquireFlow(p: Program): TokenFlow.Flow
  {
    TokenFlow.Flow(p.stmts, {}, p.succ, u => if u in p.acquires then {u} else {}, p.toEnd, p.longest)
  }

  ghost function AcquireQueue(s: LockState): TokenFlow.State
  {
    TokenFlow.State(map[], s.work * s.ls.Keys)
  }

  /** Marking from `u` touches a statement, or takes a lock away, or else queues acquires
      only: any if `u` is plain, those later in its block if it is an acquire. */
  ghost predicate Passed(p: Program, u: Stmt, s: LockState, t: LockState)
  {
    && s.ls.Keys <= t.ls.Keys
    && (s.ls.Keys == t.ls.Keys ==>
          && OthersHeld(t) <= OthersHeld(s)
          && (OthersHeld(t) == OthersHeld(s) ==>
                && PlainQueued(p, t) <= PlainQueued(p, s)
                && (u in p.acquires ==>
                      forall v {:trigger v in t.work} :: v in t.ls && v in p.acquires && p.toEnd(v) >= p.toEnd(u) ==>
                        (v in t.work <==> v in s.work))))
  }

  lemma MarkPassed(p: Program, s: LockState, t: Stmt, u: Stmt)
    requires ProgramOk(p) && Kept(p, s, {u}) && u in s.ls && u in p.stmts && t in p.succ(u)
    ensures Passed(p, u, s, Mark(s, t, u))
  {
    hide Leads, Reached;
    var n := Mark(s, t, u);
    if t in s.ls && n.ls.Keys == s.ls.Keys {
      assert forall v :: v in s.ls ==> n.ls[v] <= s.ls[v];
      assert OthersHeld(n) <= OthersHeld(s);
      if l :| l in s.ls[t] && l !in Held(s, u) && l != t {
        assert (t, l) in OthersHeld(s) && (t, l) !in OthersHeld(n);
      } else if t !in p.acquires {
        assert t in Held(s, t) ==> LockOk(p, s, t, t);
        assert s.ls[t] <= Held(s, u);
      }
    }
  }

  lemma PassedTransitive(p: Program, u: Stmt, a: LockState, b: LockState, c: LockState)
    requires Passed(p, u, a, b) && Passed(p, u, b, c)
    ensures Passed(p, u, a, c)
  {
  }

  lemma AcquireCount(p: Program, s: LockState, i: nat)
    ensures TokenFlow.Count(AcquireFlow(p), AcquireQueue(s), i) ==
            |set v | v in s.work && v in s.ls && v in p.acquires && p.toEnd(v) == i|
  {
    var f, q := AcquireFlow(p), AcquireQueue(s);
    assert TokenFlow.KillWork(f, q, i) == set v | v in s.work && v in s.ls && v in p.acquires && p.toEnd(v) == i;
    assert TokenFlow.Doomed(f, q, i) == {};
  }

  lemma WeightShrinks(p: Program, s: LockState, u: Stmt, n: LockState)
    requires ProgramOk(p) && u in p.stmts && u in s.work && u in s.ls && u in p.acquires
    requires n.ls.Keys == s.ls.Keys && n.work <= p.stmts
    requires forall v {:trigger v in n.work} :: v in n.ls && v in p.acquires && p.toEnd(v) >= p.toEnd(u) ==>
               (v in n.work <==> v in s.work && v != u)
    ensures Weight(p, n) < Weight(p, s)
  {
    var f, r := AcquireFlow(p), p.toEnd(u);
    forall i | r <= i < p.longest
      ensures i > r ==> TokenFlow.Count(f, AcquireQueue(n), i) == TokenFlow.Count(f, AcquireQueue(s), i)
      ensures i == r ==> TokenFlow.Count(f, AcquireQueue(n), i) < TokenFlow.Count(f, AcquireQueue(s), i)
    {
      var before := set v | v in s.work && v in s.ls && v in p.acquires && p.toEnd(v) == i;
      var after := set v | v in n.work && v in n.ls && v in p.acquires && p.toEnd(v) == i;
      AcquireCount(p, s, i);
      AcquireCount(p, n, i);
      assert forall v :: v in after <==> v in before && v != u;
      if i == r {
        FiniteSets.SmallerCard(after, before, u);
      } else {
        assert after == before;
      }
    }
    TokenFlow.BurdenShrinks(f, AcquireQueue(s), AcquireQueue(n), r, p.longest);
  }

  /** In this order of importance: statements without a lockset, locks still to be lost,
      queued plain statements, queued acquires far from the block end. */
  ghost predicate Progress(p: Program, s: LockState, n: LockState)
  {
    && Untouched(p, n) <= Untouched(p, s)
    && (Untouched(p, n) == Untouched(p, s) ==>
          && OthersHeld(n) <= OthersHeld(s)
          && (OthersHeld(n) == OthersHeld(s) ==>
                && PlainQueued(p, n) <= PlainQueued(p, s)
                && (PlainQueued(p, n) == PlainQueued(p, s) ==> Weight(p, n) < Weight(p, s))))
  }

  /** Handling one statement makes progress. */
  lemma HandledProgress(p: Program, s: LockState, u: Stmt, n: LockState)
    requires ProgramOk(p) && u in s.work && Kept(p, s, {}) && Kept(p, n, {})
    requires Passed(p, u, Begun(p, s, u), n)
    ensures Progress(p, s, n)
  {
    var b := Begun(p, s, u);
    assert u in p.stmts && n.work <= p.stmts && n.ls.Keys <= p.stmts;
    BegunMeasures(p, s, u);
    hide Weight, ProgramOk, Kept, Pop, Acquire, OthersHeld;
    if u !in s.ls {
      assert u in Untouched(p, s) && u !in Untouched(p, n);
    } else if Untouched(p, n) == Untouched(p, s) {
      assert forall v :: v in n.ls ==> v !in Untouched(p, n);
      assert b.ls.Keys == n.ls.Keys == s.ls.Keys;
      if OthersHeld(n) == OthersHeld(s) && PlainQueued(p, n) == PlainQueued(p, s) {
        assert u !in PlainQueued(p, b);
        WeightShrinks(p, s, u, n);
      }
    }
  }

  lemma BegunMeasures(p: Program, s: LockState, u: Stmt)
    requires u in s.work
    ensures var b := Begun(p, s, u);
            b.ls.Keys == s.ls.Keys + {u} && b.work == s.work - {u}
    ensures var b := Begun(p, s, u);
            u in s.ls ==> OthersHeld(b) == OthersHeld(s) && PlainQueued(p, b) == PlainQueued(p, s) - {u}
  {
  }

  // ---------------------------------------------------------------- the analysis

  ghost predicate HandingOn(p: Program, u: Stmt, b: LockState, n: LockState, todo: set<Stmt>)
  {
    && Kept(p, n, {u}) && Grounded(p, n, {u}) && (u in p.acquires ==> u in Held(n, u))
    && u in n.ls && u !in n.work && Passed(p, u, b, n)
    && p.succ(u) - todo <= n.ls.Keys + n.work
    && Met(p, n, u, todo)
  }

  lemma HandOn(p: Program, u: Stmt, b: LockState, n: LockState, todo: set<Stmt>, t: Stmt)
    requires ProgramOk(p) && HandingOn(p, u, b, n, todo) && u in p.stmts && u !in p.releases && t in p.succ(u)
    ensures HandingOn(p, u, b, Mark(n, t, u), todo - {t})
  {
    MarkHolds(p, n, t, u);
    hide Passed, Kept, Mark, Met, Grounded;
    MarkKeeps(p, n, t, u, todo);
    MarkGrounded(p, n, t, u);
    MarkPassed(p, n, t, u);
    PassedTransitive(p, u, b, n, Mark(n, t, u));
  }

  lemma NothingHandedOn(p: Program, u: Stmt, b: LockState)
    requires Kept(p, b, {u}) && Grounded(p, b, {u}) && (u in p.acquires ==> u in Held(b, u))
    requires u in b.ls && u !in b.work
    ensures HandingOn(p, u, b, b, p.succ(u))
  {
    hide Kept, Grounded;
    assert p.succ(u) - p.succ(u) == {};
  }

  lemma WidenMore(span: Spans, locks: set<Lock>, l: Lock, t: Stmt)
    ensures Widen(Widen(span, locks, t), {l}, t) == Widen(span, locks + {l}, t)
  {
  }

  lemma EntriesKeep(p: Program, s: LockState)
    requires ProgramOk(p) && s == LockState(map[], map[], p.entries)
    ensures Kept(p, s, {}) && Grounded(p, s, {})
  {
    forall t | t in p.entries
      ensures Reached(p, t)
    {
      LeadsHere(p, t);
    }
  }

  /** The result: locksets for the statements reached; each held lock acquired on some way to
      the holder and the holder in its span; no lock held that a predecessor lacks, except
      exactly behind predecessors holding no lock at all; acquires hold their own lock, and
      any other lock is missing only where some predecessor lacks it. */
  ghost predicate Analyzed(p: Program, s: LockState)
  {
    && (forall t :: t in s.ls <==> Reached(p, t))
    && (forall t, l :: l in Held(s, t) ==> l in p.acquires && Leads(p, l, t) && t in SpanOf(s.span, l))
    && SpansOk(p, s)
    && (forall u, t :: Reached(p, u) && u !in p.releases && t in p.succ(u) ==>
          (Held(s, t) - {t} <= Held(s, u) <==> Held(s, u) != {} || Held(s, t) <= {t}))
    && (forall u :: Reached(p, u) && u in p.acquires ==> u in Held(s, u))
    && (forall t, l {:trigger LostBefore(p, s, t, l)} ::
          Reached(p, t) && t !in p.entries && l in p.acquires && l != t && l !in Held(s, t) ==> LostBefore(p, s, t, l))
  }

  /** Meeting two sources at a new statement works only if the first source holds some lock
      (or the second holds none): an empty first lockset does not register the statement. */
  lemma FirstMeet(s: LockState, t: Stmt, u: Stmt, v: Stmt)
    requires t !in s.ls && u in s.ls && v in s.ls
    ensures Held(Mark(Mark(s, t, u), t, v), t) == Held(s, u) * Held(s, v) <==> Held(s, u) != {} || Held(s, v) == {}
  {
    var n := Mark(s, t, u);
    assert Held(n, v) == Held(s, v);
    if Held(s, u) == {} {
      assert Held(Mark(n, t, v), t) == Held(s, v);
      assert Held(s, u) * Held(s, v) == {};
    }
  }

  /** The edge from `u` to `t` is met, or `u` is yet to be handled again. */
  ghost predicate EdgeMet(s: LockState, u: Stmt, t: Stmt)
  {
    t in s.ls && u in s.ls && (Held(s, t) - {t} <= Held(s, u) || u in s.work)
  }

  /** Marking a statement that has a lockset meets it with the source's. */
  lemma {:induction false} MarksMeet(s: LockState, ts: seq<Stmt>, u: Stmt, t: Stmt)
    requires u in s.ls && t in s.ls
    ensures var n := Marks(s, ts, u);
            && u in n.ls && t in n.ls && s.work <= n.work && Held(n, u) == Held(s, u) && Held(n, t) <= Held(s, t)
    ensures t in ts ==> Held(Marks(s, ts, u), t) <= Held(s, u)
  {
    if ts != [] {
      MarksMeet(s, ts[..|ts| - 1], u, t);
      assert ts == ts[..|ts| - 1] + [ts[|ts| - 1]];
    }
  }

  /** Marking from elsewhere keeps a met edge: a source that loses locks is queued. */
  lemma {:induction false} MarksKeepMet(s: LockState, ts: seq<Stmt>, w: Stmt, u: Stmt, t: Stmt)
    requires EdgeMet(s, u, t)
    ensures EdgeMet(Marks(s, ts, w), u, t)
  {
    if ts != [] {
      MarksKeepMet(s, ts[..|ts| - 1], w, u, t);
    }
  }

  lemma RoundMeets(p: Program, s: LockState, n: LockState, w: Stmt, ts: seq<Stmt>, u: Stmt, t: Stmt)
    requires Round(p, s, n, w, ts) && u !in p.releases && t in p.succ(u)
    requires t in s.ls && (w == u || EdgeMet(s, u, t))
    ensures EdgeMet(n, u, t)
  {
    var b := Begun(p, s, w);
    if w == u {
      MarksMeet(b, ts, u, t);
    } else {
      MarksKeepMet(b, ts, w, u, t);
    }
  }

  lemma {:induction false} StaysMet(p: Program, run: seq<LockState>, i: nat, k: nat, u: Stmt, t: Stmt)
    requires Rounds(p, run) && i <= k < |run| && EdgeMet(run[i], u, t) && u !in p.releases && t in p.succ(u)
    ensures EdgeMet(run[k], u, t)
  {
    hide EdgeMet, Round;
    if i < k {
      StaysMet(p, run, i, k - 1, u, t);
      var j := k - 1;
      assert SomeRound(p, run[j], run[j + 1]);
      var w, ts :| Round(p, run[k - 1], run[k], w, ts);
      MetHasLockset(run[k - 1], u, t);
      RoundMeets(p, run[k - 1], run[k], w, ts, u, t);
    }
  }

  lemma MetHasLockset(s: LockState, u: Stmt, t: Stmt)
    requires EdgeMet(s, u, t)
    ensures t in s.ls
  {
  }

  /** Over a whole run: if a source is handled at least once when the target has a lockset
      already, the target ends up without the locks the source ends up without. */
  lemma TouchedInTime(p: Program, run: seq<LockState>, i: nat, ts: seq<Stmt>, u: Stmt, t: Stmt)
    requires Rounds(p, run) && i + 1 < |run| && run[|run| - 1].work == {}
    requires Round(p, run[i], run[i + 1], u, ts) && u !in p.releases && t in p.succ(u) && t in run[i].ls
    ensures Held(run[|run| - 1], t) - {t} <= Held(run[|run| - 1], u)
  {
    hide Round, Rounds, EdgeMet, Held;
    RoundMeets(p, run[i], run[i + 1], u, ts, u, t);
    StaysMet(p, run, i + 1, |run| - 1, u, t);
    MetInTheEnd(run[|run| - 1], u, t);
  }

  lemma MetInTheEnd(s: LockState, u: Stmt, t: Stmt)
    requires EdgeMet(s, u, t) && s.work == {}
    ensures Held(s, t) - {t} <= Held(s, u)
  {
  }

  // ---------------------------------------------------------------- what spans are

  /** A statement is in the span of every lock it holds. */
  ghost predicate HeldSpanned(s: LockState)
  {
    forall t, l {:trigger l in Held(s, t)} :: l in Held(s, t) ==> t in SpanOf(s.span, l)
  }

  /** Marking gives a new statement the source's locks and enters it in their spans; one that
      has a lockset keeps what the source holds too, and the spans stay as they are. */
  lemma MarkMeans(s: LockState, t: Stmt, u: Stmt)
    ensures var n := Mark(s, t, u);
            && Held(n, t) == (if t in s.ls then Held(s, t) * Held(s, u) else Held(s, u))
            && (forall v {:trigger Held(n, v)} :: v != t ==> Held(n, v) == Held(s, v))
            && (forall v, l {:trigger v in SpanOf(n.span, l)} ::
                  v in SpanOf(n.span, l) <==> v in SpanOf(s.span, l) || (v == t && t !in s.ls && l in Held(s, u)))
            && (t in n.work <==> t in s.work || t !in s.ls || !(Held(s, t) <= Held(s, u)))
            && (forall v :: v != t ==> (v in n.work <==> v in s.work))
  {
  }

  lemma {:induction false} MarksHistory(s: LockState, ts: seq<Stmt>, u: Stmt, all: set<Stmt>)
    requires HeldSpanned(s) && u in s.ls && Lists(ts, all)
    ensures var n := Marks(s, ts, u);
            && HeldSpanned(n) && Held(n, u) == Held(s, u) && u in n.ls
            && (forall v {:trigger Held(n, v)} :: v !in ts ==> Held(n, v) == Held(s, v))
            && (forall v, l {:trigger v in SpanOf(n.span, l)} :: v in SpanOf(s.span, l) ==> v in SpanOf(n.span, l))
            && (forall v, l {:trigger v in SpanOf(n.span, l)} ::
                  v in SpanOf(n.span, l) && v !in SpanOf(s.span, l) ==> l in Held(n, v) && v in ts)
  {
    if ts != [] {
      var rest, t := ts[..|ts| - 1], ts[|ts| - 1];
      assert ts == rest + [t] && t !in rest;
      assert Lists(rest, all - {t});
      MarksHistory(s, rest, u, all - {t});
      hide Held, SpanOf, Lists, Mark;
      MarkStep(s, Marks(s, rest, u), rest, t, u);
    }
  }

  lemma MarkStep(s: LockState, m: LockState, rest: seq<Stmt>, t: Stmt, u: Stmt)
    requires HeldSpanned(m) && Held(m, u) == Held(s, u) && u in m.ls && t !in rest
    requires forall v {:trigger Held(m, v)} :: v !in rest ==> Held(m, v) == Held(s, v)
    requires forall v, l {:trigger v in SpanOf(m.span, l)} :: v in SpanOf(s.span, l) ==> v in SpanOf(m.span, l)
    requires forall v, l {:trigger v in SpanOf(m.span, l)} ::
               v in SpanOf(m.span, l) && v !in SpanOf(s.span, l) ==> l in Held(m, v) && v in rest
    ensures var n := Mark(m, t, u);
            && HeldSpanned(n) && Held(n, u) == Held(s, u) && u in n.ls
            && (forall v {:trigger Held(n, v)} :: v !in rest + [t] ==> Held(n, v) == Held(s, v))
            && (forall v, l {:trigger v in SpanOf(n.span, l)} :: v in SpanOf(s.span, l) ==> v in SpanOf(n.span, l))
            && (forall v, l {:trigger v in SpanOf(n.span, l)} ::
                  v in SpanOf(n.span, l) && v !in SpanOf(s.span, l) ==> l in Held(n, v) && v in rest + [t])
  {
    MarkMeans(m, t, u);
    var n := Mark(m, t, u);
    assert u in n.ls;
    hide Held, SpanOf, Mark;
    forall v, l | l in Held(n, v)
      ensures v in SpanOf(n.span, l)
    {
      assert v in SpanOf(m.span, l) || (v == t && t !in m.ls && l in Held(m, u));
    }
  }

  lemma BegunHistory(p: Program, s: LockState, u: Stmt)
    requires HeldSpanned(s)
    ensures var b := Begun(p, s, u);
            && HeldSpanned(b) && u in b.ls && (forall v {:trigger Held(b, v)} :: v != u ==> Held(b, v) == Held(s, v))
            && (forall v, l {:trigger v in SpanOf(b.span, l)} :: v in SpanOf(b.span, l) <==>
                  v in SpanOf(s.span, l) || (v == u && l == u && u in p.acquires))
            && Held(b, u) == Held(s, u) + if u in p.acquires then {u} else {}
  {
    var b := Begun(p, s, u);
    forall v, l {:trigger l in Held(b, v)} | l in Held(b, v)
      ensures v in SpanOf(b.span, l)
    {
      assert l in Held(s, v) || (v == u && l == u && u in p.acquires);
    }
  }

  lemma RoundHistory(p: Program, s: LockState, n: LockState, u: Stmt, ts: seq<Stmt>)
    requires HeldSpanned(s) && Round(p, s, n, u, ts)
    ensures HeldSpanned(n)
    ensures forall t, l {:trigger t in SpanOf(n.span, l)} ::
              t in SpanOf(n.span, l) <==> t in SpanOf(s.span, l) || l in Held(n, t)
  {
    BegunHistory(p, s, u);
    var b := Begun(p, s, u);
    MarksHistory(b, ts, u, if u in p.releases then {} else p.succ(u));
    assert n == Marks(b, ts, u);
    hide Held, SpanOf, Begun, Lists, Marks;
    forall t, l {:trigger t in SpanOf(n.span, l)} | t in SpanOf(n.span, l) && t !in SpanOf(s.span, l)
      ensures l in Held(n, t)
    {
      assert t in SpanOf(b.span, l) ==> t == u && l == u && l in Held(b, u);
    }
    forall t, l {:trigger t in SpanOf(n.span, l)} | t in SpanOf(s.span, l)
      ensures t in SpanOf(n.span, l)
    {
      assert t in SpanOf(b.span, l);
    }
  }

  lemma RoundAt(p: Program, run: seq<LockState>, k: nat) returns (u: Stmt, ts: seq<Stmt>)
    requires Rounds(p, run) && 0 < k < |run|
    ensures Round(p, run[k - 1], run[k], u, ts)
  {
    var j := k - 1;
    assert SomeRound(p, run[j], run[j + 1]);
    u, ts :| Round(p, run[k - 1], run[k], u, ts);
  }

  lemma {:induction false} AlwaysSpanned(p: Program, run: seq<LockState>, k: nat)
    requires Rounds(p, run) && k < |run| && run[0].ls == map[]
    ensures HeldSpanned(run[k])
  {
    if k > 0 {
      hide Round, Rounds, HeldSpanned;
      AlwaysSpanned(p, run, k - 1);
      var u, ts := RoundAt(p, run, k);
      RoundHistory(p, run[k - 1], run[k], u, ts);
    }
  }

  lemma SpanStep(p: Program, run: seq<LockState>, k: nat, t: Stmt, l: Lock)
    requires Rounds(p, run) && 0 < k < |run| && run[0].ls == map[]
    ensures t in SpanOf(run[k].span, l) <==> t in SpanOf(run[k - 1].span, l) || l in Held(run[k], t)
  {
    hide Round, Rounds, HeldSpanned, Held, SpanOf;
    AlwaysSpanned(p, run, k - 1);
    var u, ts := RoundAt(p, run, k);
    RoundHistory(p, run[k - 1], run[k], u, ts);
  }

  ghost predicate HeldBy(run: seq<LockState>, k: nat, t: Stmt, l: Lock)
    requires k < |run|
  {
    exists i :: 0 <= i <= k && l in Held(run[i], t)
  }

  lemma HeldByNext(run: seq<LockState>, k: nat, t: Stmt, l: Lock)
    requires 0 < k < |run|
    ensures HeldBy(run, k, t, l) <==> HeldBy(run, k - 1, t, l) || l in Held(run[k], t)
  {
    hide Held;
    if HeldBy(run, k, t, l) && l !in Held(run[k], t) {
      var i :| 0 <= i <= k && l in Held(run[i], t);
      assert i <= k - 1;
    }
  }

  lemma {:induction false} SpanUpTo(p: Program, run: seq<LockState>, k: nat, t: Stmt, l: Lock)
    requires Rounds(p, run) && k < |run| && run[0].ls == map[] && run[0].span == map[]
    ensures t in SpanOf(run[k].span, l) <==> HeldBy(run, k, t, l)
  {
    hide Rounds, HeldBy, SpanOf, Held;
    if k == 0 {
      NoSpanYet(run, t, l);
    } else {
      SpanUpTo(p, run, k - 1, t, l);
      SpanStep(p, run, k, t, l);
      HeldByNext(run, k, t, l);
    }
  }

  lemma NoSpanYet(run: seq<LockState>, t: Stmt, l: Lock)
    requires run != [] && run[0].ls == map[] && run[0].span == map[]
    ensures t !in SpanOf(run[0].span, l) && !HeldBy(run, 0, t, l)
  {
  }

  /** The span of a lock holds exactly the statements that held it at some time, although
      locks lost in a meet stay in the spans. */
  lemma SpanIsHistory(p: Program, run: seq<LockState>, k: nat, t: Stmt, l: Lock)
    requires Rounds(p, run) && k < |run| && run[0].ls == map[] && run[0].span == map[]
    ensures t in SpanOf(run[k].span, l) <==> exists i :: 0 <= i <= k && l in Held(run[i], t)
  {
    SpanUpTo(p, run, k, t, l);
  }

  /** Queueing first statements with locksets still empty, as entries do. */
  lemma PlainStep(s: LockState, u: Stmt, t: Stmt)
    requires u in s.work && t != u && Held(s, u) == {} && t !in s.ls
    ensures var n := Mark(Pop(s, u), t, u);
            n.ls == Pop(s, u).ls && n.work == s.work - {u} + {t}
  {
  }

  /** A branch at 0 whose ways meet at 3: one acquires lock 1, the other holds nothing. */
  ghost function TwoWays(): Program
  {
    Program({0, 1, 2, 3, 5},
            (u: Stmt) => if u == 0 then {1, 5} else if u == 1 then {2} else if u == 2 || u == 5 then {3} else {},
            (u: Stmt) => if u == 1 then 1 else 0, 2, {1}, {}, {0})
  }

  /** The states of a run from the entry, in the order of a first-in-first-out queue. */
  ghost function LostRun(): (run: seq<LockState>)
    ensures |run| == 6 && run[0] == LockState(map[], map[], {0})
  {
    var s0 := LockState(map[], map[], {0});
    var s1 := Mark(Mark(Pop(s0, 0), 1, 0), 5, 0);
    var s2 := Mark(Acquire(Pop(s1, 1), 1), 2, 1);
    var s3 := Mark(Pop(s2, 5), 3, 5);
    var s4 := Mark(Pop(s3, 2), 3, 2);
    [s0, s1, s2, s3, s4, Pop(s4, 3)]
  }

  lemma LostRunValues()
    ensures var run := LostRun();
            && 0 in run[0].work && 1 in run[1].work && 5 in run[2].work && 2 in run[3].work && 3 in run[4].work
            && run[5].work == {} && Held(run[5], 3) == {1} && Held(run[5], 5) == {}
  {
    hide Widen, SpanOf;
    var run := LostRun();
    assert run[1].work == {1, 5} && run[1].ls == map[0 := {}];
    AcquireStep(run[1], 1, 2);
    assert run[2].work == {5, 2} && run[2].ls == map[0 := {}, 1 := {1}, 2 := {1}];
    PlainStep(run[2], 5, 3);
    assert run[3].work == {2, 3} && run[3].ls == run[2].ls[5 := {}];
    LockedStep(run[3], 2, 3);
    assert run[4].work == {3};
  }

  lemma LostRunFollows()
    ensures Rounds(TwoWays(), LostRun())
  {
    LostRunValues();
    var p, run := TwoWays(), LostRun();
    hide Mark, Pop, Acquire, Held, Round, SomeRound;
    TwoSuccessors(p, run[0], 0, 1, 5);
    OneSuccessor(p, run[1], 1, 2);
    OneSuccessor(p, run[2], 5, 3);
    OneSuccessor(p, run[3], 2, 3);
    NoSuccessor(p, run[4], 3);
  }

  /** It follows the program, and 3 ends up with lock 1 though its predecessor 5 holds none. */
  lemma MeetIsLost()
    ensures ProgramOk(TwoWays()) && Rounds(TwoWays(), LostRun()) && LostRun()[0].work == TwoWays().entries
    ensures LostRun()[5].work == {} && 3 in TwoWays().succ(5)
    ensures Held(LostRun()[5], 3) == {1} && Held(LostRun()[5], 5) == {}
  {
    hide LostRun, Held, Rounds;
    LostRunValues();
    LostRunFollows();
  }

  lemma NoSuccessor(p: Program, s: LockState, u: Stmt)
    requires u in s.work && p.succ(u) == {} && u !in p.acquires
    ensures SomeRound(p, s, Pop(s, u))
  {
    assert Round(p, s, Pop(s, u), u, []);
  }

  lemma OneSuccessor(p: Program, s: LockState, u: Stmt, t: Stmt)
    requires u in s.work && p.succ(u) == {t} && u !in p.releases
    ensures SomeRound(p, s, Mark(Begun(p, s, u), t, u))
  {
    assert [t] == [] + [t];
    MarksMore(Begun(p, s, u), [], t, u);
    assert Round(p, s, Mark(Begun(p, s, u), t, u), u, [t]);
  }

  lemma TwoSuccessors(p: Program, s: LockState, u: Stmt, t: Stmt, v: Stmt)
    requires u in s.work && p.succ(u) == {t, v} && t != v && u !in p.releases
    ensures SomeRound(p, s, Mark(Mark(Begun(p, s, u), t, u), v, u))
  {
    var b := Begun(p, s, u);
    assert [t, v] == [t] + [v] && [t] == [] + [t];
    MarksMore(b, [], t, u);
    MarksMore(b, [t], v, u);
    assert Round(p, s, Mark(Mark(b, t, u), v, u), u, [t, v]);
  }

  lemma AcquireStep(s: LockState, u: Stmt, t: Stmt)
    requires u in s.work && t != u && t !in s.ls && u !in s.ls
    ensures var n := Mark(Acquire(Pop(s, u), u), t, u);
            n.ls == s.ls[u := {u}][t := {u}] && n.work == s.work - {u} + {t}
  {
    assert Held(Pop(s, u), u) + {u} == {u};
  }

  lemma LockedStep(s: LockState, u: Stmt, t: Stmt)
    requires u in s.work && t != u && t !in s.ls && u in s.ls && s.ls[u] != {}
    ensures var n := Mark(Pop(s, u), t, u);
            n.ls == s.ls[t := s.ls[u]] && n.work == s.work - {u} + {t}
  {
  }

  /** In the end a release that is no entry keeps every lock all its handled predecessors
      hold. */
  lemma ReleaseKeepsLocks(p: Program, s: LockState, r: Stmt, l: Lock)
    requires ProgramOk(p) && Analyzed(p, s) && Reached(p, r) && r in p.releases && r !in p.entries && l in p.acquires
    requires forall u :: Reached(p, u) && u !in p.releases && r in p.succ(u) ==> l in Held(s, u)
    ensures l in Held(s, r)
  {
    assert l in Held(s, r) || LostBefore(p, s, r, l);
  }

  lemma ReachedFrom(p: Program, t: Stmt) returns (v: Stmt)
    requires Reached(p, t) && t !in p.entries
    ensures Reached(p, v) && v !in p.releases && t in p.succ(v)
  {
    var u :| u in p.entries && Leads(p, u, t);
    var way :| IsWay(p, way) && way[0] == u && way[|way| - 1] == t;
    var before := way[..|way| - 1];
    v := before[|before| - 1];
    assert IsWay(p, before) && before[0] == u;
    assert Leads(p, u, v);
    assert way[|way| - 2 + 1] in p.succ(way[|way| - 2]);
  }

  /** And it passes nothing on: a statement that only releases precede gets no lockset. */
  lemma ReleasePassesNothing(p: Program, s: LockState, t: Stmt)
    requires Analyzed(p, s) && t !in p.entries
    requires forall u :: Reached(p, u) && t in p.succ(u) ==> u in p.releases
    ensures t !in s.ls
  {
    if Reached(p, t) {
      var _ := ReachedFrom(p, t);
    }
  }

  lemma Drained(p: Program, s: LockState)
    requires Kept(p, s, {}) && Grounded(p, s, {}) && s.work == {}
    ensures Analyzed(p, s)
  {
    forall t
      ensures t in s.ls <==> Reached(p, t)
    {
      DrainedReached(p, s, t);
    }
    hide Leads, Reached, Met, LockOk, Held, LostBefore, EmptyBefore;
    forall t, l | l in Held(s, t)
      ensures l in p.acquires && Leads(p, l, t) && t in SpanOf(s.span, l)
    {
      HeldOk(p, s, l, t);
    }
    forall u, t | u in s.ls && u !in p.releases && t in p.succ(u)
      ensures Held(s, t) - {t} <= Held(s, u) <==> Held(s, u) != {} || Held(s, t) <= {t}
    {
      DrainedMet(p, s, u, t);
    }
  }

  lemma HeldOk(p: Program, s: LockState, l: Lock, t: Stmt)
    requires Kept(p, s, {}) && l in Held(s, t)
    ensures l in p.acquires && Leads(p, l, t) && t in SpanOf(s.span, l)
  {
    assert LockOk(p, s, l, t);
  }

  lemma DrainedMet(p: Program, s: LockState, u: Stmt, t: Stmt)
    requires Kept(p, s, {}) && s.work == {} && u in s.ls && u !in p.releases && t in p.succ(u)
    ensures Held(s, t) - {t} <= Held(s, u) <==> Held(s, u) != {} || Held(s, t) <= {t}
  {
    hide Leads, Reached, LockOk;
    assert Met(p, s, u, {}) && t in s.ls;
    assert forall l :: l in Held(s, t) && l != t ==> l in Held(s, t) - {t};
  }

  class LockAnalysis {
    const p: Program
    var cxtStmtToCxtLockSet: LockSets
    var cxtLocktoSpan: Spans
    var cxtStmtList: set<Stmt>

    ghost function Now(): LockState
      reads this
    {
      LockState(cxtStmtToCxtLockSet, cxtLocktoSpan, cxtStmtList)
    }

    constructor (p: Program)
      ensures this.p == p && Now() == LockState(map[], map[], {})
    {
      this.p := p;
      cxtStmtToCxtLockSet, cxtLocktoSpan, cxtStmtList := map[], map[], {};
    }

    /** The statement is touched even if it held the lock already. */
    method AddCxtStmtToSpan(cts: Stmt, cl: Lock) returns (added: bool)
      modifies this`cxtStmtToCxtLockSet, this`cxtLocktoSpan
      ensures cxtStmtToCxtLockSet == old(cxtStmtToCxtLockSet)[cts := old(Held(Now(), cts)) + {cl}]
      ensures cxtLocktoSpan == Widen(old(cxtLocktoSpan), {cl}, cts)
      ensures added <==> cl !in old(Held(Now(), cts))
    {
      cxtLocktoSpan := cxtLocktoSpan[cl := SpanOf(cxtLocktoSpan, cl) + {cts}];
      var had := if cts in cxtStmtToCxtLockSet then cxtStmtToCxtLockSet[cts] else {};
      added := cl !in had;
      cxtStmtToCxtLockSet := cxtStmtToCxtLockSet[cts := had + {cl}];
      assert cxtLocktoSpan == Widen(old(cxtLocktoSpan), {cl}, cts);
    }

    /** Takes a lock from a statement and the statement from its span, if it is held. */
    method RemoveCxtStmtToSpan(cts: Stmt, cl: Lock) returns (found: bool)
      requires cts in cxtStmtToCxtLockSet
      modifies this`cxtStmtToCxtLockSet, this`cxtLocktoSpan
      ensures found <==> cl in old(Held(Now(), cts))
      ensures !found ==> Now() == old(Now())
      ensures found ==> cxtStmtToCxtLockSet == old(cxtStmtToCxtLockSet)[cts := old(Held(Now(), cts)) - {cl}]
      ensures found ==> cxtLocktoSpan == old(cxtLocktoSpan)[cl := SpanOf(old(cxtLocktoSpan), cl) - {cts}]
    {
      found := cl in cxtStmtToCxtLockSet[cts];
      if found {
        cxtStmtToCxtLockSet := cxtStmtToCxtLockSet[cts := cxtStmtToCxtLockSet[cts] - {cl}];
        cxtLocktoSpan := cxtLocktoSpan[cl := SpanOf(cxtLocktoSpan, cl) - {cts}];
      }
    }

    method TouchCxtStmt(cts: Stmt)
      modifies this`cxtStmtToCxtLockSet
      ensures cxtStmtToCxtLockSet ==
              if cts in old(cxtStmtToCxtLockSet) then old(cxtStmtToCxtLockSet) else old(cxtStmtToCxtLockSet)[cts := {}]
    {
      if cts !in cxtStmtToCxtLockSet {
        cxtStmtToCxtLockSet := cxtStmtToCxtLockSet[cts := {}];
      }
    }

    /** Erases from a lockset what the other lacks; the spans are left alone. */
    method Intersect(tgr: Stmt, srclockset: set<Lock>) returns (changed: bool)
      requires tgr in cxtStmtToCxtLockSet
      modifies this`cxtStmtToCxtLockSet
      ensures cxtStmtToCxtLockSet == old(cxtStmtToCxtLockSet)[tgr := old(cxtStmtToCxtLockSet)[tgr] * srclockset]
      ensures changed <==> !(old(cxtStmtToCxtLockSet)[tgr] <= srclockset)
    {
      var tgrlockset := cxtStmtToCxtLockSet[tgr];
      var toBeDeleted: set<Lock> := {};
      var rest := tgrlockset;
      while rest != {}
        invariant rest <= tgrlockset && toBeDeleted == tgrlockset - rest - srclockset
      {
        var l :| l in rest;
        if l !in srclockset {
          toBeDeleted := toBeDeleted + {l};
        }
        rest := rest - {l};
      }
      changed := toBeDeleted != {};
      if l :| l in tgrlockset && l !in srclockset {
        assert l in toBeDeleted;
      }
      var gone := toBeDeleted;
      while gone != {}
        invariant gone <= toBeDeleted
        invariant tgr in cxtStmtToCxtLockSet && cxtStmtToCxtLockSet[tgr] == tgrlockset - (toBeDeleted - gone)
        invariant cxtStmtToCxtLockSet == old(cxtStmtToCxtLockSet)[tgr := cxtStmtToCxtLockSet[tgr]]
      {
        var l :| l in gone;
        cxtStmtToCxtLockSet := cxtStmtToCxtLockSet[tgr := cxtStmtToCxtLockSet[tgr] - {l}];
        gone := gone - {l};
      }
      assert cxtStmtToCxtLockSet[tgr] == tgrlockset * srclockset;
    }

    method MarkCxtStmtFlag(tgr: Stmt, src: Stmt)
      requires src in cxtStmtToCxtLockSet
      modifies this
      ensures Now() == Mark(old(Now()), tgr, src)
    {
      var srclockset := cxtStmtToCxtLockSet[src];
      if tgr !in cxtStmtToCxtLockSet {
        var rest := srclockset;
        ghost var done: set<Lock> := {};
        assert Widen(cxtLocktoSpan, {}, tgr) == cxtLocktoSpan;
        while rest != {}
          invariant rest + done == srclockset
          invariant cxtStmtList == old(cxtStmtList)
          invariant cxtLocktoSpan == Widen(old(cxtLocktoSpan), done, tgr)
          invariant cxtStmtToCxtLockSet ==
                    if done == {} then old(cxtStmtToCxtLockSet) else old(cxtStmtToCxtLockSet)[tgr := done]
        {
          var l :| l in rest;
          var added := AddCxtStmtToSpan(tgr, l);
          WidenMore(old(cxtLocktoSpan), done, l, tgr);
          rest, done := rest - {l}, done + {l};
        }
        assert done == srclockset;
        cxtStmtList := cxtStmtList + {tgr};
      } else {
        var changed := Intersect(tgr, srclockset);
        if changed {
          cxtStmtList := cxtStmtList + {tgr};
        }
      }
    }

    method HandleIntra(cts: Stmt, ghost b: LockState) returns (ghost ts: seq<Stmt>)
      requires ProgramOk(p) && cts in p.stmts && cts !in p.releases && HandingOn(p, cts, b, Now(), p.succ(cts))
      modifies this
      ensures HandingOn(p, cts, b, Now(), {})
      ensures Lists(ts, p.succ(cts)) && Now() == Marks(old(Now()), ts, cts)
    {
      var next := p.succ(cts);
      ts := [];
      hide Kept, Passed, Mark, ProgramOk;
      while next != {}
        invariant next <= p.succ(cts)
        invariant HandingOn(p, cts, b, Now(), next)
        invariant Lists(ts, p.succ(cts) - next) && Now() == Marks(old(Now()), ts, cts)
      {
        ghost var n := Now();
        var t :| t in next;
        MarkCxtStmtFlag(t, cts);
        HandOn(p, cts, b, n, next, t);
        MarksMore(old(Now()), ts, t, cts);
        next, ts := next - {t}, ts + [t];
      }
    }

    /** One round of the worklist loop, after `cts` was taken from the queue of `s`. */
    method HandleStatement(cts: Stmt, ghost s: LockState) returns (ghost ts: seq<Stmt>)
      requires ProgramOk(p) && cts in s.work && Now() == s.(work := s.work - {cts})
      requires Kept(p, s, {}) && Grounded(p, s, {})
      modifies this
      ensures Kept(p, Now(), {}) && Grounded(p, Now(), {}) && Passed(p, cts, Begun(p, s, cts), Now())
      ensures Round(p, s, Now(), cts, ts)
      // adding always succeeds at an acquire, removing never does at a release
      ensures cts in p.acquires ==> cts !in Held(Pop(s, cts), cts)
      ensures cts in p.releases ==> Now() == Pop(s, cts)
    {
      hide Grounded, LostBefore, EmptyBefore, Mark, Held;
      PopKeeps(p, s, cts);
      PopGrounded(p, s, cts);
      TouchCxtStmt(cts);
      ghost var b := Begun(p, s, cts);
      ts := [];
      if cts in p.acquires {
        var added := AddCxtStmtToSpan(cts, cts);
        assert Now() == b;
        AcquireKeeps(p, Pop(s, cts), cts);
        AcquireGrounded(p, Pop(s, cts), cts);
        if added {
          NothingHandedOn(p, cts, b);
          ts := HandleIntra(cts, b);
        } else {
          assert false;
        }
      } else if cts in p.releases {
        ReleaseUnheld(p, Pop(s, cts), {cts}, cts, cts);
        var found := RemoveCxtStmtToSpan(cts, cts);
        assert Now() == b;
      } else {
        NothingHandedOn(p, cts, b);
        ts := HandleIntra(cts, b);
      }
      EndKeeps(p, Now(), cts);
    }

    /** Takes one statement from the queue and handles it. */
    method HandleNext()
      requires ProgramOk(p) && Kept(p, Now(), {}) && Grounded(p, Now(), {}) && cxtStmtList != {}
      modifies this
      ensures Kept(p, Now(), {}) && Grounded(p, Now(), {})
      ensures Progress(p, old(Now()), Now()) && SomeRound(p, old(Now()), Now())
    {
      hide ProgramOk, Kept, Grounded, Passed, Pop, Acquire, Progress, Round;
      ghost var s := Now();
      var cts :| cts in cxtStmtList;
      cxtStmtList := cxtStmtList - {cts};
      ghost var ts := HandleStatement(cts, s);
      HandledProgress(p, s, cts, Now());
    }

    /** The traversal from the routine entries; `run` are the states it goes through. */
    method AnalyzeLockSpanCxtStmt() returns (ghost run: seq<LockState>)
      requires ProgramOk(p) && Now() == LockState(map[], map[], {})
      modifies this
      ensures Analyzed(p, Now())
      // the span of a lock holds exactly the statements that held it at some time
      ensures run != [] && run[0] == LockState(map[], map[], p.entries) && Rounds(p, run) && run[|run| - 1] == Now()
      ensures forall t, l :: t in SpanOf(cxtLocktoSpan, l) <==> exists i :: 0 <= i < |run| && l in Held(run[i], t)
    {
      hide Analyzed, ProgramOk, Kept, Grounded, Untouched, OthersHeld, PlainQueued, Weight, SomeRound;
      cxtStmtList := p.entries;
      run := [Now()];
      EntriesKeep(p, Now());
      while cxtStmtList != {}
        invariant Kept(p, Now(), {}) && Grounded(p, Now(), {})
        invariant run != [] && run[0] == LockState(map[], map[], p.entries) && Rounds(p, run)
        invariant run[|run| - 1] == Now()
        decreases Untouched(p, Now()), OthersHeld(Now()), PlainQueued(p, Now()), Weight(p, Now())
      {
        HandleNext();
        OneMoreRound(p, run, Now());
        run := run + [Now()];
      }
      Drained(p, Now());
      hide SpanOf, Held, Rounds;
      forall t, l
        ensures t in SpanOf(cxtLocktoSpan, l) <==> exists i :: 0 <= i < |run| && l in Held(run[i], t)
      {
        SpanIsHistory(p, run, |run| - 1, t, l);
      }
    }
  }

  lemma OneMoreRound(p: Program, run: seq<LockState>, n: LockState)
    requires Rounds(p, run) && run != [] && SomeRound(p, run[|run| - 1], n)
    ensures Rounds(p, run + [n])
  {
    hide SomeRound;
    forall i | 0 <= i < |run + [n]| - 1
      ensures SomeRound(p, (run + [n])[i], (run + [n])[i + 1])
    {
      if i < |run| - 1 {
        assert SomeRound(p, run[i], run[i + 1]);
      }
    }
  }
}
