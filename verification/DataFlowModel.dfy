/**
 What the calls of the data-flow points-to stores mean, for the plain store and for the
 incremental one with its "updated since" flags, and why the two agree.
 */
module DataFlowModel {

  type NodeID = nat     // top-level keys, variables and objects
  type LocID = nat
  type PtsMap = map<NodeID, set<NodeID>>
  type DFPtsMap = map<LocID, PtsMap>

  /** One points-to set of a store. */
  datatype Cell =
    | Top(key: NodeID)
    | In(loc: LocID, key: NodeID)
    | Out(loc: LocID, key: NodeID)

  datatype Store = Store(top: PtsMap, dfIn: DFPtsMap, dfOut: DFPtsMap)

  function Row(m: DFPtsMap, loc: LocID): PtsMap
  {
    if loc in m then m[loc] else map[]
  }

  function Entry(m: PtsMap, key: NodeID): set<NodeID>
  {
    if key in m then m[key] else {}
  }

  /** The set in a cell; absent entries are empty. */
  function Val(s: Store, c: Cell): set<NodeID>
  {
    match c
    case Top(k) => Entry(s.top, k)
    case In(l, k) => Entry(Row(s.dfIn, l), k)
    case Out(l, k) => Entry(Row(s.dfOut, l), k)
  }

  ghost predicate Same(s: Store, t: Store)
  {
    forall c :: Val(s, c) == Val(t, c)
  }

  /** `t` is `s` with the set of `a` added to `b`. */
  ghost predicate Flowed(s: Store, a: Cell, b: Cell, t: Store)
  {
    forall c :: Val(t, c) == if c == b then Val(s, b) + Val(s, a) else Val(s, c)
  }

  function Put(s: Store, c: Cell, v: set<NodeID>): (t: Store)
    ensures forall d :: Val(t, d) == if d == c then v else Val(s, d)
  {
    match c
    case Top(k) => s.(top := s.top[k := v])
    case In(l, k) => s.(dfIn := s.dfIn[l := Row(s.dfIn, l)[k := v]])
    case Out(l, k) => s.(dfOut := s.dfOut[l := Row(s.dfOut, l)[k := v]])
  }

  lemma PutFlows(s: Store, a: Cell, b: Cell)
    ensures Flowed(s, a, b, Put(s, b, Val(s, b) + Val(s, a)))
  {
  }

  predicate Grows(s: Store, a: Cell, b: Cell)
  {
    !(Val(s, a) <= Val(s, b))
  }

  /** The calls.  Guarded ones consult a flag in the incremental store, the forced ones
      serve newly added edges, the consuming ones take a flag down. */
  datatype Op =
    | InFromIn(a: Cell, b: Cell)
    | InFromOut(a: Cell, b: Cell)
    | AllInFromIn(a: Cell, b: Cell)
    | AllInFromOut(a: Cell, b: Cell)
    | OutFromIn(a: Cell, b: Cell)
    | TLVFromIn(a: Cell, b: Cell)
    | ATVFromTop(a: Cell, b: Cell)
    | AllOutFromIn(loc: LocID, singleton: NodeID, strong: bool)
    | ClearOutFlags(loc: LocID)
    | UnionTop(key: NodeID, pts: set<NodeID>)
  {
    ghost predicate WellTyped()
    {
      match this
      case InFromIn(a, b) => a.In? && b.In?
      case InFromOut(a, b) => a.Out? && b.In?
      case AllInFromIn(a, b) => a.In? && b.In?
      case AllInFromOut(a, b) => a.Out? && b.In?
      case OutFromIn(a, b) => a.In? && b.Out?
      case TLVFromIn(a, b) => a.In? && b.Top?
      case ATVFromTop(a, b) => a.Top? && b.Out?
      case _ => true
    }
    predicate Guarded() { InFromIn? || InFromOut? }
    predicate Forced() { AllInFromIn? || AllInFromOut? || ATVFromTop? }
    predicate Consuming() { OutFromIn? || TLVFromIn? }
    predicate Moves() { Guarded() || Forced() || Consuming() }
  }

  predicate Eligible(op: Op, k: NodeID)
    requires op.AllOutFromIn?
  {
    !(op.strong && k == op.singleton)
  }

  // ---------------------------------------------------------------- plain store

  /** Given targets were added to a top-level set. */
  ghost predicate TopUnited(s: Store, key: NodeID, pts: set<NodeID>, t: Store, changed: bool)
  {
    && (forall c :: Val(t, c) == if c == Top(key) then Val(s, c) + pts else Val(s, c))
    && changed == !(pts <= Val(s, Top(key)))
  }

  ghost predicate PlainStep(s: Store, op: Op, t: Store, changed: bool)
  {
    if op.Moves() then Flowed(s, op.a, op.b, t) && changed == Grows(s, op.a, op.b)
    else if op.AllOutFromIn? then
      && (forall c :: Val(t, c) == if c.Out? && c.loc == op.loc && Eligible(op, c.key)
                                   then Val(s, c) + Val(s, In(op.loc, c.key)) else Val(s, c))
      && changed == exists k :: Eligible(op, k) && Grows(s, In(op.loc, k), Out(op.loc, k))
    else if op.UnionTop? then TopUnited(s, op.key, op.pts, t, changed)
    else Same(s, t) && !changed
  }

  // ---------------------------------------------------------------- incremental store

  type Flags = map<LocID, set<NodeID>>

  datatype Inc = Inc(store: Store, inUpdated: Flags, outUpdated: Flags)

  predicate HasFlag(m: Flags, loc: LocID, k: NodeID)
  {
    loc in m && k in m[loc]
  }

  predicate Flagged(i: Inc, c: Cell)
  {
    match c
    case Top(_) => false
    case In(l, k) => HasFlag(i.inUpdated, l, k)
    case Out(l, k) => HasFlag(i.outUpdated, l, k)
  }

  ghost predicate FlagsAre(i: Inc, j: Inc, up: set<Cell>, down: set<Cell>)
  {
    forall c :: Flagged(j, c) <==> (Flagged(i, c) && c !in down) || c in up
  }

  lemma SameFlags(i: Inc, mid: Inc, j: Inc, up: set<Cell>)
    requires mid.inUpdated == i.inUpdated && mid.outUpdated == i.outUpdated
    ensures FlagsAre(mid, j, up, {}) ==> FlagsAre(i, j, up, {})
    ensures FlagsAre(i, mid, {}, {})
  {
  }

  /** Variables an `AllOutFromIn` call delivers in the incremental store. */
  ghost predicate Delivers(i: Inc, op: Op, k: NodeID)
    requires op.AllOutFromIn?
  {
    Eligible(op, k) && Flagged(i, In(op.loc, k))
  }

  ghost predicate IncStep(i: Inc, op: Op, j: Inc, changed: bool)
  {
    if op.Moves() then
      var grows := Grows(i.store, op.a, op.b);
      var raise := if op.b.Top? then {} else {op.b};
      if op.Forced() || Flagged(i, op.a) then
        && Flowed(i.store, op.a, op.b, j.store)
        && changed == grows
        && FlagsAre(i, j, if grows then raise else {}, if op.Consuming() then {op.a} else {})
      else
        Same(i.store, j.store) && FlagsAre(i, j, {}, {}) && !changed
    else if op.AllOutFromIn? then
      && (forall c :: Val(j.store, c) == if c.Out? && c.loc == op.loc && Delivers(i, op, c.key)
                                         then Val(i.store, c) + Val(i.store, In(op.loc, c.key)) else Val(i.store, c))
      && (forall c: Cell :: c.In? ==>
            (Flagged(j, c) <==> Flagged(i, c) && !(c.loc == op.loc && Eligible(op, c.key))))
      && (forall c: Cell :: c.Out? ==>
            (Flagged(j, c) <==> Flagged(i, c) || (c.loc == op.loc && Delivers(i, op, c.key)
                                                  && Grows(i.store, In(op.loc, c.key), c))))
      && changed == exists k :: Delivers(i, op, k) && Grows(i.store, In(op.loc, k), Out(op.loc, k))
    else if op.UnionTop? then
      TopUnited(i.store, op.key, op.pts, j.store, changed) && FlagsAre(i, j, {}, {})
    else
      && Same(i.store, j.store) && !changed
      && forall c :: Flagged(j, c) <==> Flagged(i, c) && !(c.Out? && c.loc == op.loc)
  }

  // ---------------------------------------------------------------- loops over variables

  /** `AllOutFromIn` has handled the variables of `done`. */
  ghost predicate PlainUpTo(s: Store, op: Op, done: set<NodeID>, t: Store, changed: bool)
    requires op.AllOutFromIn?
  {
    && (forall c :: Val(t, c) == if c.Out? && c.loc == op.loc && c.key in done && Eligible(op, c.key)
                                 then Val(s, c) + Val(s, In(op.loc, c.key)) else Val(s, c))
    && changed == exists k :: k in done && Eligible(op, k) && Grows(s, In(op.loc, k), Out(op.loc, k))
  }

  lemma PlainStart(s: Store, op: Op)
    requires op.AllOutFromIn?
    ensures PlainUpTo(s, op, {}, s, false)
  {
  }

  lemma IncStart(i: Inc, op: Op)
    requires op.AllOutFromIn?
    ensures IncUpTo(i, op, {}, i, false)
  {
  }

  lemma PlainAdvance(s: Store, op: Op, done: set<NodeID>, v: NodeID, t: Store, changed: bool, u: Store, grew: bool)
    requires op.AllOutFromIn? && PlainUpTo(s, op, done, t, changed) && v !in done
    requires if Eligible(op, v) then PlainStep(t, OutFromIn(In(op.loc, v), Out(op.loc, v)), u, grew)
             else u == t && !grew
    ensures PlainUpTo(s, op, done + {v}, u, changed || grew)
  {
    assert Val(t, Out(op.loc, v)) == Val(s, Out(op.loc, v)) && Val(t, In(op.loc, v)) == Val(s, In(op.loc, v));
    PlainValues(s, op, done, v, t, u);
    hide Val;
    if Eligible(op, v) {
      assert grew == Grows(s, In(op.loc, v), Out(op.loc, v));
    }
    PlainChanged(s, op, done, v, changed, grew);
  }

  lemma PlainValues(s: Store, op: Op, done: set<NodeID>, v: NodeID, t: Store, u: Store)
    requires op.AllOutFromIn? && v !in done
    requires forall c :: Val(t, c) == if c.Out? && c.loc == op.loc && c.key in done && Eligible(op, c.key)
                                      then Val(s, c) + Val(s, In(op.loc, c.key)) else Val(s, c)
    requires if Eligible(op, v) then Flowed(t, In(op.loc, v), Out(op.loc, v), u) else u == t
    ensures forall c :: Val(u, c) == if c.Out? && c.loc == op.loc && c.key in done + {v} && Eligible(op, c.key)
                                     then Val(s, c) + Val(s, In(op.loc, c.key)) else Val(s, c)
  {
    hide Val;
    forall c
      ensures Val(u, c) == if c.Out? && c.loc == op.loc && c.key in done + {v} && Eligible(op, c.key)
                           then Val(s, c) + Val(s, In(op.loc, c.key)) else Val(s, c)
    {
      assert Val(t, c) == Val(t, c);
    }
  }

  lemma PlainChanged(s: Store, op: Op, done: set<NodeID>, v: NodeID, changed: bool, grew: bool)
    requires op.AllOutFromIn?
    requires changed == exists k :: k in done && Eligible(op, k) && Grows(s, In(op.loc, k), Out(op.loc, k))
    requires grew == (Eligible(op, v) && Grows(s, In(op.loc, v), Out(op.loc, v)))
    ensures (changed || grew) ==
            exists k :: k in done + {v} && Eligible(op, k) && Grows(s, In(op.loc, k), Out(op.loc, k))
  {
    hide Grows;
    if k :| k in done + {v} && Eligible(op, k) && Grows(s, In(op.loc, k), Out(op.loc, k)) {
      assert k in done || k == v;
    }
    if grew {
      assert v in done + {v};
    }
    if changed {
      var k :| k in done && Eligible(op, k) && Grows(s, In(op.loc, k), Out(op.loc, k));
      assert k in done + {v};
    }
  }

  lemma PlainFinish(s: Store, op: Op, t: Store, changed: bool)
    requires op.AllOutFromIn? && PlainUpTo(s, op, Row(s.dfIn, op.loc).Keys, t, changed)
    ensures PlainStep(s, op, t, changed)
  {
    var done := Row(s.dfIn, op.loc).Keys;
    forall c
      ensures Val(t, c) == if c.Out? && c.loc == op.loc && Eligible(op, c.key)
                           then Val(s, c) + Val(s, In(op.loc, c.key)) else Val(s, c)
    {
      if c.Out? && c.key !in done {
        assert Val(s, In(op.loc, c.key)) == {};
      }
    }
    if k :| Eligible(op, k) && Grows(s, In(op.loc, k), Out(op.loc, k)) {
      assert Val(s, In(op.loc, k)) != {};
      assert k in done;
    }
  }

  ghost predicate IncUpTo(i: Inc, op: Op, done: set<NodeID>, j: Inc, changed: bool)
    requires op.AllOutFromIn?
  {
    && PlainUpTo(i.store, op, done, j.store, changed)
    && (forall c: Cell :: c.In? ==>
          (Flagged(j, c) <==> Flagged(i, c) && !(c.loc == op.loc && c.key in done && Eligible(op, c.key))))
    && (forall c: Cell :: c.Out? ==>
          (Flagged(j, c) <==> Flagged(i, c) || (c.loc == op.loc && c.key in done && Eligible(op, c.key)
                                                && Grows(i.store, In(op.loc, c.key), c))))
  }

  lemma IncAdvance(i: Inc, op: Op, done: set<NodeID>, v: NodeID, j: Inc, changed: bool, k: Inc, grew: bool)
    requires op.AllOutFromIn? && IncUpTo(i, op, done, j, changed) && v !in done
    requires Flagged(i, In(op.loc, v))
    requires if Eligible(op, v) then IncStep(j, OutFromIn(In(op.loc, v), Out(op.loc, v)), k, grew)
             else k == j && !grew
    ensures IncUpTo(i, op, done + {v}, k, changed || grew)
  {
    IncAdvanceFlags(i, op, done, v, j, changed, k, grew);
    hide Val, Grows;
    assert Flagged(j, In(op.loc, v));
    if Eligible(op, v) {
      FlaggedMoves(j, OutFromIn(In(op.loc, v), Out(op.loc, v)), k, grew);
    }
    hide IncStep, PlainUpTo, PlainStep;
    PlainAdvance(i.store, op, done, v, j.store, changed, k.store, grew);
  }

  /** A flagged set is moved as in the plain store. */
  lemma FlaggedMoves(i: Inc, op: Op, j: Inc, grew: bool)
    requires op.Moves() && Flagged(i, op.a) && IncStep(i, op, j, grew)
    ensures PlainStep(i.store, op, j.store, grew)
  {
  }

  lemma IncAdvanceFlags(i: Inc, op: Op, done: set<NodeID>, v: NodeID, j: Inc, changed: bool, k: Inc, grew: bool)
    requires op.AllOutFromIn? && IncUpTo(i, op, done, j, changed) && v !in done
    requires Flagged(i, In(op.loc, v))
    requires if Eligible(op, v) then IncStep(j, OutFromIn(In(op.loc, v), Out(op.loc, v)), k, grew)
             else k == j && !grew
    ensures forall c: Cell :: c.In? ==>
              (Flagged(k, c) <==> Flagged(i, c) && !(c.loc == op.loc && c.key in done + {v} && Eligible(op, c.key)))
    ensures forall c: Cell :: c.Out? ==>
              (Flagged(k, c) <==> Flagged(i, c) || (c.loc == op.loc && c.key in done + {v} && Eligible(op, c.key)
                                                    && Grows(i.store, In(op.loc, c.key), c)))
  {
    assert Flagged(j, In(op.loc, v));
    assert Val(j.store, Out(op.loc, v)) == Val(i.store, Out(op.loc, v));
    assert Val(j.store, In(op.loc, v)) == Val(i.store, In(op.loc, v));
    hide Val;
  }

  lemma IncFinish(i: Inc, op: Op, done: set<NodeID>, j: Inc, changed: bool)
    requires op.AllOutFromIn? && IncUpTo(i, op, done, j, changed)
    requires forall k :: Flagged(i, In(op.loc, k)) <==> k in done
    ensures IncStep(i, op, j, changed)
  {
    hide Val, Grows;
    if k :| k in done && Eligible(op, k) && Grows(i.store, In(op.loc, k), Out(op.loc, k)) {
      assert Delivers(i, op, k);
    }
    if k :| Delivers(i, op, k) && Grows(i.store, In(op.loc, k), Out(op.loc, k)) {
      assert k in done && Eligible(op, k);
    }
  }

  // ---------------------------------------------------------------- calling discipline

  /** `(a, b)`: whenever the set of `a` grows, some later call moves it into `b`. */
  type Sinks = iset<(Cell, Cell)>

  /** Only IN and OUT sets carry flags. */
  ghost predicate FlagSources(sinks: Sinks)
  {
    forall a, b {:trigger (a, b) in sinks} :: (a, b) in sinks ==> !a.Top?
  }

  /** An unflagged set has reached all its sinks. */
  ghost predicate Delivered(i: Inc, sinks: Sinks)
  {
    && FlagSources(sinks)
    && forall a, b {:trigger (a, b) in sinks} ::
         (a, b) in sinks && !Flagged(i, a) ==> Val(i.store, a) <= Val(i.store, b)
  }

  /** Every sink of `a` but `except` already holds the set of `a`. */
  ghost predicate Served(s: Store, sinks: Sinks, a: Cell, except: Cell)
  {
    forall b {:trigger (a, b) in sinks} :: (a, b) in sinks && b != except ==> Val(s, a) <= Val(s, b)
  }

  /** What the callers must respect, stated on the plain store: guarded calls follow
      known edges, and a flag is taken down only once its set has reached every sink. */
  ghost predicate Allowed(s: Store, sinks: Sinks, op: Op)
  {
    && op.WellTyped()
    && (op.Guarded() || op.Consuming() ==> (op.a, op.b) in sinks)
    && (op.Consuming() ==> Served(s, sinks, op.a, op.b))
    && (op.AllOutFromIn? ==> forall k :: Eligible(op, k) ==>
          && (Val(s, In(op.loc, k)) != {} ==> (In(op.loc, k), Out(op.loc, k)) in sinks)
          && Served(s, sinks, In(op.loc, k), Out(op.loc, k)))
    && (op.ClearOutFlags? ==> forall k :: Served(s, sinks, Out(op.loc, k), Out(op.loc, k)))
  }

  /** A forced call introduces its edge. */
  ghost function NextSinks(sinks: Sinks, op: Op): Sinks
  {
    if op.AllInFromIn? || op.AllInFromOut? then sinks + iset{(op.a, op.b)} else sinks
  }

  // ---------------------------------------------------------------- refinement

  lemma MoveRefines(s: Store, i: Inc, sinks: Sinks, op: Op, t: Store, j: Inc, r: bool, q: bool)
    requires op.Moves() && Allowed(s, sinks, op)
    requires Same(s, i.store) && Delivered(i, sinks)
    requires PlainStep(s, op, t, r) && IncStep(i, op, j, q)
    ensures Same(t, j.store) && r == q && Delivered(j, NextSinks(sinks, op))
  {
    assert Val(s, op.a) == Val(i.store, op.a) && Val(s, op.b) == Val(i.store, op.b);
    if op.Forced() || Flagged(i, op.a) {
      assert Flowed(i.store, op.a, op.b, j.store);
    } else {
      assert (op.a, op.b) in sinks;
    }
    assert Same(t, j.store) by {
      forall c
        ensures Val(t, c) == Val(j.store, c)
      {
        assert Val(s, c) == Val(i.store, c);
      }
    }
    forall a, b | (a, b) in NextSinks(sinks, op) && !Flagged(j, a)
      ensures Val(j.store, a) <= Val(j.store, b)
    {
      MoveDelivers(s, i, sinks, op, j, q, a, b);
    }
  }

  lemma MoveDelivers(s: Store, i: Inc, sinks: Sinks, op: Op, j: Inc, q: bool, a: Cell, b: Cell)
    requires op.Moves() && Allowed(s, sinks, op)
    requires Same(s, i.store) && Delivered(i, sinks) && IncStep(i, op, j, q)
    requires (a, b) in NextSinks(sinks, op) && !Flagged(j, a)
    ensures Val(j.store, a) <= Val(j.store, b)
  {
    assert Val(i.store, b) <= Val(j.store, b);
    if (a, b) in sinks {
      if Flagged(i, a) {
        assert a == op.a && op.Consuming() && a != op.b;
        assert Val(s, a) == Val(i.store, a) && Val(s, b) == Val(i.store, b);
      } else {
        assert Val(i.store, a) <= Val(i.store, b);
      }
    }
  }

  lemma AllOutRefines(s: Store, i: Inc, sinks: Sinks, op: Op, t: Store, j: Inc, r: bool, q: bool)
    requires op.AllOutFromIn? && Allowed(s, sinks, op)
    requires Same(s, i.store) && Delivered(i, sinks)
    requires PlainStep(s, op, t, r) && IncStep(i, op, j, q)
    ensures Same(t, j.store) && r == q && Delivered(j, NextSinks(sinks, op))
  {
    forall k | Eligible(op, k) && !Flagged(i, In(op.loc, k))
      ensures !Grows(i.store, In(op.loc, k), Out(op.loc, k))
    {
      assert Val(s, In(op.loc, k)) == Val(i.store, In(op.loc, k));
      if Val(s, In(op.loc, k)) != {} {
        assert (In(op.loc, k), Out(op.loc, k)) in sinks;
      }
    }
    forall c
      ensures Val(t, c) == Val(j.store, c)
    {
      assert Val(s, c) == Val(i.store, c);
      if c.Out? {
        assert Val(s, In(op.loc, c.key)) == Val(i.store, In(op.loc, c.key));
      }
    }
    AllOutReturns(s, i, op);
    AllOutDelivers(s, i, sinks, op, j, q);
  }

  lemma AllOutDelivers(s: Store, i: Inc, sinks: Sinks, op: Op, j: Inc, q: bool)
    requires op.AllOutFromIn? && Allowed(s, sinks, op)
    requires Same(s, i.store) && Delivered(i, sinks) && IncStep(i, op, j, q)
    ensures Delivered(j, sinks)
  {
    forall a, b | (a, b) in sinks && !Flagged(j, a)
      ensures Val(j.store, a) <= Val(j.store, b)
    {
      assert Val(i.store, b) <= Val(j.store, b);
      if a.In? && a.loc == op.loc && Eligible(op, a.key) {
        assert Served(s, sinks, a, Out(op.loc, a.key));
        assert Val(s, a) == Val(i.store, a) && Val(s, b) == Val(i.store, b);
      } else {
        assert Val(i.store, a) <= Val(i.store, b);
      }
    }
  }

  lemma AllOutReturns(s: Store, i: Inc, op: Op)
    requires op.AllOutFromIn? && Same(s, i.store)
    requires forall k :: Eligible(op, k) && !Flagged(i, In(op.loc, k)) ==>
               !Grows(i.store, In(op.loc, k), Out(op.loc, k))
    ensures (exists k :: Eligible(op, k) && Grows(s, In(op.loc, k), Out(op.loc, k))) <==>
            (exists k :: Delivers(i, op, k) && Grows(i.store, In(op.loc, k), Out(op.loc, k)))
  {
    forall k
      ensures Grows(s, In(op.loc, k), Out(op.loc, k)) == Grows(i.store, In(op.loc, k), Out(op.loc, k))
    {
      assert Val(s, In(op.loc, k)) == Val(i.store, In(op.loc, k));
      assert Val(s, Out(op.loc, k)) == Val(i.store, Out(op.loc, k));
    }
    if k :| Eligible(op, k) && Grows(s, In(op.loc, k), Out(op.loc, k)) {
      assert Delivers(i, op, k);
    }
    if k :| Delivers(i, op, k) && Grows(i.store, In(op.loc, k), Out(op.loc, k)) {
      assert Eligible(op, k);
    }
  }

  lemma UnionTopRefines(s: Store, i: Inc, sinks: Sinks, op: Op, t: Store, j: Inc, r: bool, q: bool)
    requires op.UnionTop? && Same(s, i.store) && Delivered(i, sinks)
    requires PlainStep(s, op, t, r) && IncStep(i, op, j, q)
    ensures Same(t, j.store) && r == q && Delivered(j, sinks)
  {
    forall c
      ensures Val(t, c) == Val(j.store, c)
    {
      assert Val(s, c) == Val(i.store, c);
    }
    assert Val(s, Top(op.key)) == Val(i.store, Top(op.key));
    forall a, b | (a, b) in sinks && !Flagged(j, a)
      ensures Val(j.store, a) <= Val(j.store, b)
    {
      assert Flagged(j, a) <==> Flagged(i, a);
    }
  }

  /** One call on both stores: same sets, same answer, and flags that still tell the
      truth about what has been delivered. */
  lemma StepRefines(s: Store, i: Inc, sinks: Sinks, op: Op, t: Store, j: Inc, r: bool, q: bool)
    requires Allowed(s, sinks, op)
    requires Same(s, i.store) && Delivered(i, sinks)
    requires PlainStep(s, op, t, r) && IncStep(i, op, j, q)
    ensures Same(t, j.store) && r == q && Delivered(j, NextSinks(sinks, op))
  {
    if op.Moves() {
      MoveRefines(s, i, sinks, op, t, j, r, q);
    } else if op.AllOutFromIn? {
      AllOutRefines(s, i, sinks, op, t, j, r, q);
    } else if op.UnionTop? {
      UnionTopRefines(s, i, sinks, op, t, j, r, q);
    } else {
      forall c
        ensures Val(t, c) == Val(j.store, c)
      {
        assert Val(s, c) == Val(t, c);
      }
      forall a, b | (a, b) in sinks && !Flagged(j, a)
        ensures Val(j.store, a) <= Val(j.store, b)
      {
        assert Val(j.store, a) == Val(s, a) && Val(j.store, b) == Val(s, b);
        if a.Out? && a.loc == op.loc {
          assert Served(s, sinks, a, a);
        }
      }
    }
  }

  // ---------------------------------------------------------------- whole runs

  ghost predicate PlainRun(ss: seq<Store>, ops: seq<Op>, rs: seq<bool>)
  {
    && |ss| == |ops| + 1 && |rs| == |ops|
    && forall n :: 0 <= n < |ops| ==> PlainStep(ss[n], ops[n], ss[n + 1], rs[n])
  }

  ghost predicate IncRun(incs: seq<Inc>, ops: seq<Op>, rs: seq<bool>)
  {
    && |incs| == |ops| + 1 && |rs| == |ops|
    && forall n :: 0 <= n < |ops| ==> IncStep(incs[n], ops[n], incs[n + 1], rs[n])
  }

  ghost function SinksAfter(sinks: Sinks, ops: seq<Op>, n: nat): Sinks
    requires n <= |ops|
  {
    if n == 0 then sinks else NextSinks(SinksAfter(sinks, ops, n - 1), ops[n - 1])
  }

  ghost predicate Disciplined(ss: seq<Store>, sinks: Sinks, ops: seq<Op>)
    requires |ss| == |ops| + 1
  {
    forall n :: 0 <= n < |ops| ==> Allowed(ss[n], SinksAfter(sinks, ops, n), ops[n])
  }

  lemma StartsDelivered(s: Store, i: Inc, sinks: Sinks)
    requires s == Store(map[], map[], map[]) && i == Inc(s, map[], map[]) && FlagSources(sinks)
    ensures Same(s, i.store) && Delivered(i, sinks)
  {
  }

  /** For every disciplined run of calls from empty stores, the incremental store holds
      the sets of the plain one after every call and returns the same answers. */
  lemma {:induction false} RunRefines(ss: seq<Store>, incs: seq<Inc>, sinks: Sinks, ops: seq<Op>,
                                      rs: seq<bool>, qs: seq<bool>, n: nat)
    requires PlainRun(ss, ops, rs) && IncRun(incs, ops, qs) && Disciplined(ss, sinks, ops)
    requires ss[0] == Store(map[], map[], map[]) && incs[0] == Inc(ss[0], map[], map[])
    requires FlagSources(sinks)
    requires n <= |ops|
    ensures Same(ss[n], incs[n].store) && Delivered(incs[n], SinksAfter(sinks, ops, n))
    ensures forall m :: 0 <= m < n ==> rs[m] == qs[m]
  {
    hide Same, Delivered, Allowed, PlainStep, IncStep;
    if n == 0 {
      StartsDelivered(ss[0], incs[0], sinks);
    } else {
      RunRefines(ss, incs, sinks, ops, rs, qs, n - 1);
      StepRefines(ss[n - 1], incs[n - 1], SinksAfter(sinks, ops, n - 1), ops[n - 1],
                  ss[n], incs[n], rs[n - 1], qs[n - 1]);
    }
  }

  // ---------------------------------------------------------------- strong updates

  /** The call takes down the flag of `c`. */
  ghost predicate Consumes(op: Op, c: Cell)
  {
    || (op.Consuming() && op.a == c)
    || (op.AllOutFromIn? && c.In? && c.loc == op.loc && Eligible(op, c.key))
    || (op.ClearOutFlags? && c.Out? && c.loc == op.loc)
  }

  lemma {:induction false} FlagSurvives(incs: seq<Inc>, ops: seq<Op>, rs: seq<bool>, m: nat, n: nat, c: Cell)
    requires IncRun(incs, ops, rs) && m <= n <= |ops| && Flagged(incs[m], c)
    requires forall x {:trigger ops[x]} :: m <= x < n ==> !Consumes(ops[x], c)
    ensures Flagged(incs[n], c)
  {
    if m < n {
      FlagSurvives(incs, ops, rs, m, n - 1, c);
      FlagStays(incs[n - 1], ops[n - 1], incs[n - 1 + 1], rs[n - 1], c);
    }
  }

  lemma FlagStays(i: Inc, op: Op, j: Inc, changed: bool, c: Cell)
    requires IncStep(i, op, j, changed) && Flagged(i, c) && !Consumes(op, c)
    ensures Flagged(j, c)
  {
  }

  /** In any disciplined run, a variable that a strong update skips keeps its OUT set, and its
      flag survives every later call that does not consume it; the next weak update then
      delivers all that the IN set holds by that time. */
  lemma StrongThenWeak(ss: seq<Store>, incs: seq<Inc>, sinks: Sinks, ops: seq<Op>, rs: seq<bool>, qs: seq<bool>,
                       m: nat, n: nat, loc: LocID, v: NodeID, w: NodeID)
    requires PlainRun(ss, ops, rs) && IncRun(incs, ops, qs) && Disciplined(ss, sinks, ops) && FlagSources(sinks)
    requires ss[0] == Store(map[], map[], map[]) && incs[0] == Inc(ss[0], map[], map[])
    requires m < n < |ops| && ops[m] == AllOutFromIn(loc, v, true) && ops[n] == AllOutFromIn(loc, w, false)
    requires forall x {:trigger ops[x]} :: m < x < n ==> !Consumes(ops[x], In(loc, v))
    ensures Val(incs[m + 1].store, Out(loc, v)) == Val(incs[m].store, Out(loc, v))
    ensures Flagged(incs[m], In(loc, v)) ==> Flagged(incs[n], In(loc, v))
    ensures Val(incs[n + 1].store, Out(loc, v)) == Val(incs[n].store, Out(loc, v)) + Val(incs[n].store, In(loc, v))
    ensures !Flagged(incs[n + 1], In(loc, v))
  {
    hide Same, Delivered, Allowed, PlainStep, IncStep, Val, Flagged, SinksAfter, Consumes;
    StrongSkips(incs[m], ops[m], incs[m + 1], qs[m]);
    assert !Consumes(ops[m], In(loc, v)) by {
      OthersConsumed(loc, v);
    }
    if Flagged(incs[m], In(loc, v)) {
      FlagSurvives(incs, ops, qs, m, n, In(loc, v));
    }
    RunRefines(ss, incs, sinks, ops, rs, qs, n);
    assert Allowed(ss[n], SinksAfter(sinks, ops, n), ops[n]);
    WeakDelivers(ss[n], incs[n], SinksAfter(sinks, ops, n), ops[n], incs[n + 1], qs[n], v);
  }

  lemma OthersConsumed(loc: LocID, v: NodeID)
    ensures !Consumes(AllOutFromIn(loc, v, true), In(loc, v))
  {
  }

  lemma StrongSkips(i: Inc, op: Op, j: Inc, changed: bool)
    requires op.AllOutFromIn? && op.strong && IncStep(i, op, j, changed)
    ensures Val(j.store, Out(op.loc, op.singleton)) == Val(i.store, Out(op.loc, op.singleton))
  {
  }

  lemma WeakDelivers(s: Store, i: Inc, sinks: Sinks, op: Op, j: Inc, changed: bool, v: NodeID)
    requires op.AllOutFromIn? && !op.strong && Allowed(s, sinks, op)
    requires Same(s, i.store) && Delivered(i, sinks) && IncStep(i, op, j, changed)
    ensures Val(j.store, Out(op.loc, v)) == Val(i.store, Out(op.loc, v)) + Val(i.store, In(op.loc, v))
    ensures !Flagged(j, In(op.loc, v))
  {
    assert Eligible(op, v) && Val(s, In(op.loc, v)) == Val(i.store, In(op.loc, v));
    if !Flagged(i, In(op.loc, v)) && Val(i.store, In(op.loc, v)) != {} {
      assert (In(op.loc, v), Out(op.loc, v)) in sinks;
    }
  }

  // ---------------------------------------------------------------- when flags may go

  /** The next call `op` gives the same answer on both stores. */
  ghost predicate Agree(s: Store, i: Inc, op: Op)
  {
    forall t, j, r, q :: PlainStep(s, op, t, r) && IncStep(i, op, j, q) ==> r == q
  }

  lemma AgreeUnflagged(s: Store, i: Inc, op: Op)
    requires op.InFromOut? && Same(s, i.store) && !Flagged(i, op.a)
    ensures Agree(s, i, op) <==> Val(s, op.a) <= Val(s, op.b)
  {
    if Grows(s, op.a, op.b) {
      var t := Put(s, op.b, Val(s, op.b) + Val(s, op.a));
      assert PlainStep(s, op, t, true) && IncStep(i, op, i, false);
    }
  }

  /** Taking the OUT flags of a location down is harmless exactly when its OUT sets have
      reached their sinks: the next call along every edge then still gives the plain
      store's answer, and otherwise some edge's next call does not. */
  lemma ClearIsExact(s: Store, i: Inc, sinks: Sinks, loc: LocID, j: Inc)
    requires Same(s, i.store) && IncStep(i, ClearOutFlags(loc), j, false)
    ensures Allowed(s, sinks, ClearOutFlags(loc)) <==>
            forall k, b {:trigger (Out(loc, k), b) in sinks} ::
              (Out(loc, k), b) in sinks ==> Agree(s, j, InFromOut(Out(loc, k), b))
  {
    assert Same(s, j.store) by {
      forall c
        ensures Val(s, c) == Val(j.store, c)
      {
        assert Val(s, c) == Val(i.store, c);
      }
    }
    forall k, b
      ensures Agree(s, j, InFromOut(Out(loc, k), b)) <==> Val(s, Out(loc, k)) <= Val(s, b)
    {
      AgreeUnflagged(s, j, InFromOut(Out(loc, k), b));
    }
    if forall k, b {:trigger (Out(loc, k), b) in sinks} ::
         (Out(loc, k), b) in sinks ==> Agree(s, j, InFromOut(Out(loc, k), b)) {
      forall k
        ensures Served(s, sinks, Out(loc, k), Out(loc, k))
      {
      }
    }
    if Allowed(s, sinks, ClearOutFlags(loc)) {
      forall k, b | (Out(loc, k), b) in sinks
        ensures Val(s, Out(loc, k)) <= Val(s, b)
      {
        assert Served(s, sinks, Out(loc, k), Out(loc, k));
      }
    }
  }

  /** Serving an OUT set's edges one after the other earns the right to clear its flags:
      a served edge stays served while the others are being served. */
  lemma {:induction false} PropagateThenClear(ss: seq<Store>, sinks: Sinks, loc: LocID,
                                              edges: seq<(Cell, Cell)>, rs: seq<bool>)
    requires |ss| == |edges| + 1 && |rs| == |edges|
    requires forall n :: 0 <= n < |edges| ==>
               edges[n].1.In? && edges[n].0.Out?
               && PlainStep(ss[n], InFromOut(edges[n].0, edges[n].1), ss[n + 1], rs[n])
    requires forall a, b {:trigger (a, b) in sinks} :: (a, b) in sinks && a.Out? && a.loc == loc ==> (a, b) in edges
    ensures Allowed(ss[|edges|], sinks, ClearOutFlags(loc))
  {
    forall a, b | (a, b) in sinks && a.Out? && a.loc == loc
      ensures Val(ss[|edges|], a) <= Val(ss[|edges|], b)
    {
      var n :| 0 <= n < |edges| && edges[n] == (a, b);
      StaysServed(ss, edges, rs, n + 1, a, b);
    }
  }

  lemma {:induction false} StaysServed(ss: seq<Store>, edges: seq<(Cell, Cell)>, rs: seq<bool>, n: nat,
                                       a: Cell, b: Cell)
    requires |ss| == |edges| + 1 && |rs| == |edges| && n <= |edges| && a.Out?
    requires forall m :: 0 <= m < |edges| ==>
               edges[m].1.In? && edges[m].0.Out?
               && PlainStep(ss[m], InFromOut(edges[m].0, edges[m].1), ss[m + 1], rs[m])
    requires Val(ss[n], a) <= Val(ss[n], b)
    ensures Val(ss[|edges|], a) <= Val(ss[|edges|], b)
    decreases |edges| - n
  {
    if n < |edges| {
      assert PlainStep(ss[n], InFromOut(edges[n].0, edges[n].1), ss[n + 1], rs[n]);
      StaysServed(ss, edges, rs, n + 1, a, b);
    }
  }

  lemma {:induction false} UnchangedUnflagged(incs: seq<Inc>, ops: seq<Op>, rs: seq<bool>, n: nat, c: Cell)
    requires IncRun(incs, ops, rs) && n <= |ops| && !Flagged(incs[0], c)
    requires forall x {:trigger rs[x]} :: 0 <= x < n ==> !rs[x]
    ensures !Flagged(incs[n], c)
  {
    if n > 0 {
      UnchangedUnflagged(incs, ops, rs, n - 1, c);
      assert IncStep(incs[n - 1], ops[n - 1], incs[n - 1 + 1], rs[n - 1]);
    }
  }

  /** Calls none of which reports a change raise no flags: if the OUT flags of a location were
      down before, clearing them is allowed without propagating anything. */
  lemma UnchangedThenClear(incs: seq<Inc>, ops: seq<Op>, rs: seq<bool>, s: Store, sinks: Sinks, loc: LocID)
    requires IncRun(incs, ops, rs) && (forall x {:trigger rs[x]} :: 0 <= x < |ops| ==> !rs[x])
    requires forall k :: !Flagged(incs[0], Out(loc, k))
    requires Same(s, incs[|ops|].store) && Delivered(incs[|ops|], sinks)
    ensures Allowed(s, sinks, ClearOutFlags(loc))
  {
    var i := incs[|ops|];
    forall k, b | (Out(loc, k), b) in sinks
      ensures Val(s, Out(loc, k)) <= Val(s, b)
    {
      UnchangedUnflagged(incs, ops, rs, |ops|, Out(loc, k));
      assert Val(s, Out(loc, k)) == Val(i.store, Out(loc, k)) && Val(s, b) == Val(i.store, b);
    }
  }
}
