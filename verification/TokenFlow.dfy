/**
 Tokens that spread along control flow and are taken away again at certain statements:
 the common shape of the fork/join flags and of the thread interleavings.
 */
module TokenFlow {
  import opened FiniteSets

  type Stmt = nat       // context-sensitive statements
  type Token = nat

  /** Successor statements, the tokens a statement takes away when it is handled, and its
      distance from the end of its basic block. */
  datatype Flow = Flow(stmts: set<Stmt>, tokens: set<Token>, succ: Stmt -> set<Stmt>, kill: Stmt -> set<Token>,
                       toEnd: Stmt -> nat, longest: nat)

  ghost predicate WellFormed(f: Flow)
  {
    forall u :: u in f.stmts ==> f.succ(u) <= f.stmts && f.toEnd(u) < f.longest
  }

  /** A statement that takes tokens away is a call, never a block terminator: what follows
      it is nearer to the end of the block (or takes away nothing else). */
  ghost predicate KillsEnd(f: Flow)
  {
    forall u, t {:trigger t in f.succ(u)} ::
      u in f.stmts && t in f.succ(u) && f.kill(u) != {} ==> f.kill(t) <= f.kill(u) || f.toEnd(t) < f.toEnd(u)
  }

  type Seeds = set<(Stmt, Token)>

  /** Only statements holding some token are entered in `toks`. */
  datatype State = State(toks: map<Stmt, set<Token>>, work: set<Stmt>)

  function Toks(s: State, u: Stmt): set<Token>
  {
    if u in s.toks then s.toks[u] else {}
  }

  // ---------------------------------------------------------------- paths

  /** A path of at least one statement. */
  ghost predicate IsPath(f: Flow, p: seq<Stmt>)
  {
    |p| > 0 && forall i :: 0 <= i < |p| - 1 ==> p[i + 1] in f.succ(p[i])
  }

  ghost predicate Carries(f: Flow, seeds: Seeds, p: seq<Stmt>, x: Token)
  {
    && IsPath(f, p) && (p[0], x) in seeds
    && forall i :: 0 <= i < |p| - 1 ==> x !in f.kill(p[i])
  }

  /** `x` is handed to `u` along some path from a seed. */
  ghost predicate Arrives(f: Flow, seeds: Seeds, u: Stmt, x: Token)
  {
    exists p :: Carries(f, seeds, p, x) && p[|p| - 1] == u
  }

  /** `x` reaches `u` and is not taken away there. */
  ghost predicate Survives(f: Flow, seeds: Seeds, u: Stmt, x: Token)
  {
    Arrives(f, seeds, u, x) && x !in f.kill(u)
  }

  lemma ArrivesNext(f: Flow, seeds: Seeds, u: Stmt, t: Stmt, x: Token)
    requires Survives(f, seeds, u, x) && t in f.succ(u)
    ensures Arrives(f, seeds, t, x)
  {
    var p :| Carries(f, seeds, p, x) && p[|p| - 1] == u;
    var q := p + [t];
    assert Carries(f, seeds, q, x) && q[|q| - 1] == t;
  }

  lemma SeedArrives(f: Flow, seeds: Seeds, r: Stmt, x: Token)
    requires (r, x) in seeds
    ensures Arrives(f, seeds, r, x)
  {
    assert Carries(f, seeds, [r], x) && [r][|[r]| - 1] == r;
  }

  /** A token that arrives was seeded here or survives at some predecessor. */
  lemma ArrivesFrom(f: Flow, seeds: Seeds, u: Stmt, x: Token) returns (v: Stmt)
    requires Arrives(f, seeds, u, x)
    ensures (u, x) in seeds || (u in f.succ(v) && Survives(f, seeds, v, x))
  {
    var p :| Carries(f, seeds, p, x) && p[|p| - 1] == u;
    v := u;
    if |p| > 1 {
      v := p[|p| - 2];
      var q := p[..|p| - 1];
      assert Carries(f, seeds, q, x) && q[|q| - 1] == v;
      assert p[|p| - 2 + 1] in f.succ(p[|p| - 2]);
    }
  }

  lemma ArrivesMoreSeeds(f: Flow, seeds: Seeds, more: Seeds, u: Stmt, x: Token)
    requires Arrives(f, seeds, u, x) && seeds <= more
    ensures Arrives(f, more, u, x)
  {
    var p :| Carries(f, seeds, p, x) && p[|p| - 1] == u;
    assert Carries(f, more, p, x);
  }

  // ---------------------------------------------------------------- invariant

  /** `u` holds nothing it takes away and has served its successors outside `todo`. */
  ghost predicate Served(f: Flow, s: State, u: Stmt, todo: set<Stmt>)
  {
    && Toks(s, u) * f.kill(u) == {}
    && forall t :: t in f.succ(u) && t !in todo ==> Toks(s, u) <= Toks(s, t) + f.kill(t)
  }

  ghost predicate Sound(f: Flow, seeds: Seeds, s: State)
  {
    forall u, x :: x in Toks(s, u) ==> Arrives(f, seeds, u, x)
  }

  /** The statements of `exempt` are being handled, the rest is queued or served. */
  ghost predicate Invariant(f: Flow, seeds: Seeds, s: State, exempt: set<Stmt>)
  {
    && WellFormed(f)
    && s.work <= f.stmts
    && (forall u :: Toks(s, u) != {} ==> u in f.stmts)
    && (forall u :: Toks(s, u) <= f.tokens)
    && Sound(f, seeds, s)
    && (forall r, x {:trigger (r, x) in seeds} :: (r, x) in seeds ==> x in Toks(s, r) || x in f.kill(r))
    && (forall u {:trigger Served(f, s, u, {})} :: u !in s.work && u !in exempt ==> Served(f, s, u, {}))
  }

  /** With nothing queued every statement holds exactly the tokens that survive at it. */
  lemma DrainedIsExact(f: Flow, seeds: Seeds, s: State)
    requires Invariant(f, seeds, s, {}) && s.work == {}
    ensures forall u, x :: x in Toks(s, u) <==> Survives(f, seeds, u, x)
  {
    forall u, x
      ensures x in Toks(s, u) <==> Survives(f, seeds, u, x)
    {
      DrainedAt(f, seeds, s, u, x);
    }
  }

  lemma DrainedAt(f: Flow, seeds: Seeds, s: State, u: Stmt, x: Token)
    requires Invariant(f, seeds, s, {}) && s.work == {}
    ensures x in Toks(s, u) <==> Survives(f, seeds, u, x)
  {
    if x in Toks(s, u) {
      assert Served(f, s, u, {}) && x !in Toks(s, u) * f.kill(u);
    } else if Survives(f, seeds, u, x) {
      var p :| Carries(f, seeds, p, x) && p[|p| - 1] == u;
      CarriedIsHeld(f, seeds, s, p, x, |p| - 1);
    }
  }

  lemma {:induction false} CarriedIsHeld(f: Flow, seeds: Seeds, s: State, p: seq<Stmt>, x: Token, n: nat)
    requires Invariant(f, seeds, s, {}) && s.work == {}
    requires Carries(f, seeds, p, x) && n < |p| && x !in f.kill(p[n])
    ensures x in Toks(s, p[n])
  {
    if n == 0 {
      assert (p[0], x) in seeds;
    } else {
      CarriedIsHeld(f, seeds, s, p, x, n - 1);
      assert Served(f, s, p[n - 1], {});
      assert p[n] in f.succ(p[n - 1]);
    }
  }

  // ---------------------------------------------------------------- steps

  function With(s: State, u: Stmt, toks: set<Token>): (t: State)
    ensures Toks(t, u) == toks && forall v {:trigger Toks(t, v)} :: v != u ==> Toks(t, v) == Toks(s, v)
    ensures t.work == if toks == Toks(s, u) then s.work else s.work + {u}
  {
    State(if toks == {} then s.toks - {u} else s.toks[u := toks], if toks == Toks(s, u) then s.work else s.work + {u})
  }

  lemma ServedGrows(f: Flow, s: State, t: State, u: Stmt, todo: set<Stmt>)
    requires Served(f, s, u, todo)
    requires Toks(t, u) == Toks(s, u) && forall v :: v in f.succ(u) ==> Toks(s, v) - f.kill(v) <= Toks(t, v)
    ensures Served(f, t, u, todo)
  {
    forall v | v in f.succ(u) && v !in todo
      ensures Toks(t, u) <= Toks(t, v) + f.kill(v)
    {
      assert Toks(s, u) <= Toks(s, v) + f.kill(v);
    }
  }

  ghost function SeedsAt(r: Stmt, given: set<Token>): Seeds
  {
    set x | x in given :: (r, x)
  }

  /** New seeds; the statement is queued if it did not hold all the tokens. */
  lemma SeedKeeps(f: Flow, seeds: Seeds, s: State, r: Stmt, given: set<Token>)
    requires Invariant(f, seeds, s, {}) && r in f.stmts && given <= f.tokens
    ensures Invariant(f, seeds + SeedsAt(r, given), With(s, r, Toks(s, r) + given), {})
  {
    var more := seeds + SeedsAt(r, given);
    var t := With(s, r, Toks(s, r) + given);
    forall u, x | x in Toks(t, u)
      ensures Arrives(f, more, u, x)
    {
      if x in Toks(s, u) {
        ArrivesMoreSeeds(f, seeds, more, u, x);
      } else {
        SeedArrives(f, more, r, x);
      }
    }
    forall q, x {:trigger (q, x) in more} | (q, x) in more
      ensures x in Toks(t, q) || x in f.kill(q)
    {
      assert (q, x) in seeds || (q == r && x in given);
    }
    forall u | u !in t.work
      ensures Served(f, t, u, {})
    {
      assert Served(f, s, u, {});
      ServedGrows(f, s, t, u, {});
    }
  }

  /** Handling `u` begins: it leaves the queue and gives up what it takes away, which
      queues it once more if there was any. */
  ghost function Begin(f: Flow, s: State, u: Stmt): State
  {
    With(s.(work := s.work - {u}), u, Toks(s, u) - f.kill(u))
  }

  lemma BeginElsewhere(f: Flow, s: State, u: Stmt)
    requires u in s.work
    ensures Toks(Begin(f, s, u), u) == Toks(s, u) - f.kill(u)
    ensures forall v {:trigger Toks(Begin(f, s, u), v)} {:trigger v in Begin(f, s, u).work} :: v != u ==>
              Toks(Begin(f, s, u), v) == Toks(s, v) && (v in Begin(f, s, u).work <==> v in s.work)
  {
  }

  lemma BeginKeeps(f: Flow, seeds: Seeds, s: State, u: Stmt)
    requires Invariant(f, seeds, s, {}) && u in s.work
    ensures Invariant(f, seeds, Begin(f, s, u), {u})
    ensures Served(f, Begin(f, s, u), u, f.succ(u))
  {
    var t := Begin(f, s, u);
    assert forall v :: Toks(t, v) <= Toks(s, v);
    forall v | v !in t.work && v != u
      ensures Served(f, t, v, {})
    {
      assert Served(f, s, v, {});
      ServedGrows(f, s, t, v, {});
    }
  }

  /** `u` passes its tokens on to `t`. */
  ghost function PassOn(s: State, u: Stmt, t: Stmt): State
  {
    With(s, t, Toks(s, t) + Toks(s, u))
  }

  lemma PassOnKeeps(f: Flow, seeds: Seeds, s: State, u: Stmt, t: Stmt, todo: set<Stmt>)
    requires Invariant(f, seeds, s, {u}) && u in f.stmts && t in f.succ(u)
    requires Served(f, s, u, todo)
    ensures Invariant(f, seeds, PassOn(s, u, t), {u})
    ensures Served(f, PassOn(s, u, t), u, todo - {t})
  {
    var n := PassOn(s, u, t);
    forall v, x | x in Toks(n, v)
      ensures Arrives(f, seeds, v, x)
    {
      if x !in Toks(s, v) {
        assert x in Toks(s, u) && x !in f.kill(u) by {
          assert x !in Toks(s, u) * f.kill(u);
        }
        ArrivesNext(f, seeds, u, t, x);
      }
    }
    forall v | v !in n.work && v != u
      ensures Served(f, n, v, {})
    {
      assert Served(f, s, v, {});
      ServedGrows(f, s, n, v, {});
    }
    ServedGrows(f, s, n, u, todo);
  }

  lemma EndKeeps(f: Flow, seeds: Seeds, s: State, u: Stmt)
    requires Invariant(f, seeds, s, {u}) && Served(f, s, u, {})
    ensures Invariant(f, seeds, s, {})
  {
  }

  // ---------------------------------------------------------------- progress

  ghost function Room(f: Flow, s: State): set<(Stmt, Token)>
  {
    set u, x | u in f.stmts && x in f.tokens && x !in f.kill(u) && x !in Toks(s, u) :: (u, x)
  }

  ghost function PlainWork(f: Flow, s: State): set<Stmt>
  {
    set u | u in s.work && f.kill(u) == {}
  }

  ghost function KillWork(f: Flow, s: State, i: nat): set<Stmt>
  {
    set u | u in s.work && f.kill(u) != {} && f.toEnd(u) == i
  }

  ghost function Doomed(f: Flow, s: State, i: nat): set<Stmt>
  {
    set u | u in s.work && Toks(s, u) * f.kill(u) != {} && f.toEnd(u) == i
  }

  /** The queued kill statements at distance `i`; those about to take something away count twice. */
  ghost function Count(f: Flow, s: State, i: nat): nat
  {
    |KillWork(f, s, i)| + |Doomed(f, s, i)|
  }

  ghost function Power(b: nat, n: nat): nat
  {
    if n == 0 then 1 else Times(b, Power(b, n - 1))
  }

  ghost function Times(a: nat, b: nat): nat
  {
    a * b
  }

  /** The counts as the digits of one number. */
  ghost function Burden(f: Flow, s: State, n: nat): nat
  {
    if n == 0 then 0 else Burden(f, s, n - 1) + Times(Count(f, s, n - 1), Power(2 * |f.stmts| + 1, n - 1))
  }

  lemma CountBounded(f: Flow, s: State, i: nat)
    requires s.work <= f.stmts
    ensures Count(f, s, i) <= 2 * |f.stmts|
  {
    SubsetCard(KillWork(f, s, i), f.stmts);
    SubsetCard(Doomed(f, s, i), f.stmts);
  }

  /** A lower digit leaves less than one unit of its place. */
  lemma DigitStep(c: nat, d: nat, rest: nat, unit: nat)
    requires c < d && rest < unit
    ensures Times(c, unit) + rest < Times(d, unit)
  {
    var gap := d - c - 1;
    assert d * unit == c * unit + unit + gap * unit;
  }

  lemma {:induction false} BurdenBounded(f: Flow, s: State, n: nat)
    requires s.work <= f.stmts
    ensures Burden(f, s, n) < Power(2 * |f.stmts| + 1, n)
  {
    hide Count;
    if n > 0 {
      var unit := Power(2 * |f.stmts| + 1, n - 1);
      BurdenBounded(f, s, n - 1);
      CountBounded(f, s, n - 1);
      DigitStep(Count(f, s, n - 1), 2 * |f.stmts| + 1, Burden(f, s, n - 1), unit);
    }
  }

  /** A smaller digit outweighs everything below it. */
  lemma {:induction false} BurdenShrinks(f: Flow, s: State, t: State, r: nat, n: nat)
    requires t.work <= f.stmts && r < n
    requires forall i {:trigger Count(f, t, i)} :: r < i < n ==> Count(f, t, i) == Count(f, s, i)
    requires Count(f, t, r) < Count(f, s, r)
    ensures Burden(f, t, n) < Burden(f, s, n)
  {
    hide Count;
    if r < n - 1 {
      BurdenShrinks(f, s, t, r, n - 1);
      assert Count(f, t, n - 1) == Count(f, s, n - 1);
    } else {
      BurdenBounded(f, t, r);
      DigitStep(Count(f, t, r), Count(f, s, r), Burden(f, t, r), Power(2 * |f.stmts| + 1, r));
    }
  }

  /** Passing on from `u` uses up room, or queues no plain statement; and if `u` takes
      tokens away itself, nothing changes except nearer to the end of the block. */
  ghost predicate Passed(f: Flow, u: Stmt, s: State, t: State)
  {
    && Room(f, t) <= Room(f, s)
    && (Room(f, t) == Room(f, s) ==>
          && PlainWork(f, t) <= PlainWork(f, s)
          && (f.kill(u) != {} ==>
                forall v {:trigger Toks(t, v)} {:trigger v in t.work} :: f.toEnd(v) >= f.toEnd(u) ==>
                  (v in t.work <==> v in s.work) && Toks(t, v) == Toks(s, v)))
  }

  lemma PassedTransitive(f: Flow, u: Stmt, a: State, b: State, c: State)
    requires Passed(f, u, a, b) && Passed(f, u, b, c)
    ensures Passed(f, u, a, c)
  {
  }

  lemma PassOnPassed(f: Flow, seeds: Seeds, s: State, u: Stmt, t: Stmt)
    requires Invariant(f, seeds, s, {u}) && u in f.stmts && t in f.succ(u) && KillsEnd(f)
    requires Toks(s, u) * f.kill(u) == {}
    ensures Passed(f, u, s, PassOn(s, u, t))
  {
    var n := PassOn(s, u, t);
    assert forall v :: Toks(s, v) <= Toks(n, v);
    if x :| x in Toks(s, u) && x !in Toks(s, t) && x !in f.kill(t) {
      assert (t, x) in Room(f, s) && (t, x) !in Room(f, n);
    } else if f.kill(u) != {} && f.toEnd(t) >= f.toEnd(u) {
      forall x | x in Toks(s, u)
        ensures x in Toks(s, t)
      {
        assert x !in Toks(s, u) * f.kill(u);
      }
      assert Toks(n, t) == Toks(s, t);
    } else if f.kill(t) == {} {
      assert Toks(n, t) == Toks(s, t);
    }
  }

  /** Handling one queued statement makes progress, in this order of importance: room for
      tokens, queued plain statements, queued kill statements far from the block end. */
  lemma HandledProgress(f: Flow, s: State, u: Stmt, n: State)
    requires u in s.work && s.work <= f.stmts && n.work <= f.stmts && WellFormed(f)
    requires Passed(f, u, Begin(f, s, u), n)
    ensures Room(f, n) <= Room(f, s)
    ensures Room(f, n) == Room(f, s) ==>
              && PlainWork(f, n) <= PlainWork(f, s)
              && (PlainWork(f, n) == PlainWork(f, s) ==> Burden(f, n, f.longest) < Burden(f, s, f.longest))
  {
    hide Begin, Burden, WellFormed;
    var b := Begin(f, s, u);
    BeginRoom(f, s, u);
    if f.kill(u) == {} {
      BeginPlain(f, s, u);
    } else if Room(f, n) == Room(f, s) {
      KillProgress(f, s, u, n);
    }
    if Room(f, n) == Room(f, s) {
      assert PlainWork(f, n) <= PlainWork(f, b) <= PlainWork(f, s);
    }
  }

  lemma BeginRoom(f: Flow, s: State, u: Stmt)
    requires u in s.work
    ensures Room(f, Begin(f, s, u)) == Room(f, s)
    ensures PlainWork(f, Begin(f, s, u)) <= PlainWork(f, s)
  {
    var b := Begin(f, s, u);
    forall v, x | v in f.stmts && x in f.tokens && x !in f.kill(v)
      ensures x in Toks(b, v) <==> x in Toks(s, v)
    {
      assert v != u ==> Toks(b, v) == Toks(s, v);
    }
  }

  lemma BeginPlain(f: Flow, s: State, u: Stmt)
    requires u in s.work && f.kill(u) == {}
    ensures u in PlainWork(f, s) && u !in PlainWork(f, Begin(f, s, u))
  {
    assert Toks(s, u) - f.kill(u) == Toks(s, u);
  }

  lemma SameCount(f: Flow, s: State, t: State, i: nat)
    requires forall v {:trigger Toks(t, v)} {:trigger v in t.work} :: f.toEnd(v) == i ==>
               (v in t.work <==> v in s.work) && Toks(t, v) == Toks(s, v)
    ensures KillWork(f, t, i) == KillWork(f, s, i) && Doomed(f, t, i) == Doomed(f, s, i)
  {
  }

  lemma KillProgress(f: Flow, s: State, u: Stmt, n: State)
    requires u in s.work && s.work <= f.stmts && n.work <= f.stmts && WellFormed(f) && f.kill(u) != {}
    requires forall v {:trigger Toks(n, v)} {:trigger v in n.work} :: f.toEnd(v) >= f.toEnd(u) ==>
                (v in n.work <==> v in Begin(f, s, u).work) && Toks(n, v) == Toks(Begin(f, s, u), v)
    ensures Burden(f, n, f.longest) < Burden(f, s, f.longest)
  {
    var b, r := Begin(f, s, u), f.toEnd(u);
    assert forall v {:trigger Toks(b, v)} {:trigger v in b.work} :: v != u ==>
             Toks(b, v) == Toks(s, v) && (v in b.work <==> v in s.work);
    hide Begin, With, Toks;
    hide KillWork, Doomed;
    forall i | r < i < f.longest
      ensures Count(f, n, i) == Count(f, s, i)
    {
      SameCount(f, s, n, i);
    }
    SameCount(f, b, n, r);
    if Toks(s, u) * f.kill(u) == {} {
      SameButQueue(f, s, b, u);
      SmallerCard(KillWork(f, n, r), KillWork(f, s, r), u);
    } else {
      LosesDoomed(f, s, b, u);
      SmallerCard(Doomed(f, n, r), Doomed(f, s, r), u);
    }
    BurdenShrinks(f, s, n, r, f.longest);
  }

  lemma SameButQueue(f: Flow, s: State, b: State, u: Stmt)
    requires u in s.work && f.kill(u) != {} && Toks(s, u) * f.kill(u) == {} && b == Begin(f, s, u)
    ensures KillWork(f, b, f.toEnd(u)) == KillWork(f, s, f.toEnd(u)) - {u}
    ensures Doomed(f, b, f.toEnd(u)) == Doomed(f, s, f.toEnd(u))
  {
    assert Toks(s, u) - f.kill(u) == Toks(s, u) by {
      forall x | x in Toks(s, u)
        ensures x !in f.kill(u)
      {
        assert x !in Toks(s, u) * f.kill(u);
      }
    }
    assert b.work == s.work - {u};
    assert forall v :: Toks(b, v) == Toks(s, v);
  }

  lemma LosesDoomed(f: Flow, s: State, b: State, u: Stmt)
    requires u in s.work && Toks(s, u) * f.kill(u) != {} && b == Begin(f, s, u)
    ensures KillWork(f, b, f.toEnd(u)) == KillWork(f, s, f.toEnd(u))
    ensures Doomed(f, b, f.toEnd(u)) == Doomed(f, s, f.toEnd(u)) - {u} && u in Doomed(f, s, f.toEnd(u))
  {
    var x :| x in Toks(s, u) * f.kill(u);
    assert x !in Toks(b, u);
    assert b.work == s.work;
    assert Toks(b, u) * f.kill(u) == {};
  }
}
