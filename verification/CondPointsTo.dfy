/**
 Conditional points-to sets: a map from conditions to sets of objects standing for a set of
 pairs. Conditions with an empty set may stay behind and stand for nothing.
 */
module CondPointsTo {
  import opened FiniteSets

  type Cond = nat
  type NodeID = nat
  type CondPts = map<Cond, set<NodeID>>

  function At(m: CondPts, c: Cond): set<NodeID>
  {
    if c in m then m[c] else {}
  }

  ghost function Pairs(m: CondPts): set<(Cond, NodeID)>
  {
    set c, x | c in m && x in m[c] :: (c, x)
  }

  lemma PairIn(m: CondPts, c: Cond, x: NodeID)
    ensures (c, x) in Pairs(m) <==> x in At(m, c)
  {
  }

  /** Number of pairs, condition by condition. */
  lemma PairsSplit(m: CondPts, c: Cond)
    requires c in m
    ensures |Pairs(m)| == |m[c]| + |Pairs(m - {c})|
  {
    var own := Pairs(map[c := m[c]]);
    OwnPairs(c, m[c]);
    assert Pairs(m) == own + Pairs(m - {c});
    assert own !! Pairs(m - {c});
  }

  lemma {:induction false} OwnPairs(c: Cond, xs: set<NodeID>)
    ensures |Pairs(map[c := xs])| == |xs|
  {
    if xs == {} {
      assert Pairs(map[c := xs]) == {};
    } else {
      var x :| x in xs;
      OwnPairs(c, xs - {x});
      assert Pairs(map[c := xs]) == Pairs(map[c := xs - {x}]) + {(c, x)};
    }
  }

  /** Inclusion of sets of pairs, seen at the maps. */
  lemma Inclusion(l: CondPts, r: CondPts)
    ensures Pairs(l) <= Pairs(r) <==> forall c :: c in l ==> l[c] <= At(r, c)
  {
    if Pairs(l) <= Pairs(r) {
      forall c, x | c in l && x in l[c]
        ensures x in At(r, c)
      {
        PairIn(l, c, x);
        PairIn(r, c, x);
      }
    }
    if forall c :: c in l ==> l[c] <= At(r, c) {
      forall p | p in Pairs(l)
        ensures p in Pairs(r)
      {
        PairIn(l, p.0, p.1);
        PairIn(r, p.0, p.1);
      }
    }
  }

  lemma Overlap(l: CondPts, r: CondPts)
    ensures Pairs(l) * Pairs(r) != {} <==> exists c :: c in l && c in r && l[c] * r[c] != {}
  {
    if p :| p in Pairs(l) * Pairs(r) {
      assert p.1 in l[p.0] * r[p.0];
    }
    if c :| c in l && c in r && l[c] * r[c] != {} {
      var x :| x in l[c] * r[c];
      assert (c, x) in Pairs(l) * Pairs(r);
    }
  }

  /** `m` is `l` with what `r` holds for the conditions outside `rest`. */
  ghost predicate Joined(l: CondPts, r: CondPts, rest: set<Cond>, m: CondPts)
  {
    && m.Keys == l.Keys + (r.Keys - rest)
    && forall c :: c in m ==> m[c] == At(l, c) + if c in r && c !in rest then r[c] else {}
  }

  ghost predicate Differs(l: CondPts, m: CondPts)
  {
    exists c :: c in m && m[c] != At(l, c)
  }

  lemma NothingJoined(l: CondPts, r: CondPts)
    ensures Joined(l, r, r.Keys, l) && !Differs(l, l)
  {
  }

  lemma JoinedNext(l: CondPts, r: CondPts, rest: set<Cond>, m: CondPts, c: Cond)
    requires Joined(l, r, rest, m) && c in rest && c in r
    ensures Joined(l, r, rest - {c}, m[c := At(m, c) + r[c]])
    ensures Differs(l, m[c := At(m, c) + r[c]]) <==> Differs(l, m) || !(r[c] <= At(m, c))
  {
    var n := m[c := At(m, c) + r[c]];
    assert At(m, c) == At(l, c) && (n[c] != At(l, c) <==> !(r[c] <= At(m, c)));
    if d :| d in m && m[d] != At(l, d) {
      assert n[d] != At(l, d);
    }
    if d :| d in n && n[d] != At(l, d) {
      assert d == c || (d in m && m[d] != At(l, d));
    }
  }

  lemma AllJoined(l: CondPts, r: CondPts, m: CondPts)
    requires Joined(l, r, {}, m)
    ensures Pairs(m) == Pairs(l) + Pairs(r) && (Differs(l, m) <==> Pairs(m) != Pairs(l))
  {
    assert forall c :: c in m ==> m[c] == At(l, c) + At(r, c);
    PairsPlus(l, r, m);
    PairsDiffer(l, m);
  }

  class CondPointsToSet {
    var condPts: CondPts

    constructor ()
      ensures condPts == map[]
    {
      condPts := map[];
    }

    method NumElement() returns (num: nat)
      ensures num == |Pairs(condPts)|
    {
      num := 0;
      var rest := condPts;
      while rest.Keys != {}
        invariant rest.Keys <= condPts.Keys && forall c :: c in rest ==> rest[c] == condPts[c]
        invariant num + |Pairs(rest)| == |Pairs(condPts)|
        decreases |rest.Keys|
      {
        var c :| c in rest.Keys;
        PairsSplit(rest, c);
        num := num + |rest[c]|;
        assert (rest - {c}).Keys == rest.Keys - {c};
        rest := rest - {c};
      }
      assert Pairs(rest) == {};
    }

    method Empty() returns (r: bool)
      ensures r <==> Pairs(condPts) == {}
    {
      var n := NumElement();
      r := n == 0;
    }

    method Aliased(rhs: CondPointsToSet) returns (r: bool)
      ensures r <==> Pairs(condPts) * Pairs(rhs.condPts) != {}
    {
      Overlap(condPts, rhs.condPts);
      hide Pairs;
      if condPts == map[] || rhs.condPts == map[] {
        return false;
      }
      var rest := condPts.Keys;
      while rest != {}
        invariant rest <= condPts.Keys
        invariant forall c :: c in condPts && c !in rest && c in rhs.condPts ==> condPts[c] * rhs.condPts[c] == {}
      {
        var lc :| lc in rest;
        if lc in rhs.condPts {
          if condPts[lc] * rhs.condPts[lc] != {} {
            return true;
          }
        }
        rest := rest - {lc};
      }
      r := false;
    }

    /** Walks over the right-hand side instead. */
    method Intersects(rhs: CondPointsToSet) returns (r: bool)
      ensures r <==> Pairs(condPts) * Pairs(rhs.condPts) != {}
    {
      Overlap(condPts, rhs.condPts);
      hide Pairs;
      if condPts == map[] && rhs.condPts == map[] {
        return false;
      }
      var rest := rhs.condPts.Keys;
      while rest != {}
        invariant rest <= rhs.condPts.Keys
        invariant forall c :: c in rhs.condPts && c !in rest && c in condPts ==> condPts[c] * rhs.condPts[c] == {}
      {
        var cond :| cond in rest;
        if cond in condPts {
          if condPts[cond] * rhs.condPts[cond] != {} {
            return true;
          }
        }
        rest := rest - {cond};
      }
      r := false;
    }

    /** Inclusion of the pairs, and of the conditions even where they stand for nothing. */
    method IsSubset(rhs: CondPointsToSet) returns (r: bool)
      ensures r <==> Pairs(condPts) <= Pairs(rhs.condPts) && condPts.Keys <= rhs.condPts.Keys
    {
      Inclusion(condPts, rhs.condPts);
      hide Pairs;
      if |condPts.Keys| > |rhs.condPts.Keys| {
        if condPts.Keys <= rhs.condPts.Keys {
          SubsetCard(condPts.Keys, rhs.condPts.Keys);
        }
        return false;
      }
      var rest := condPts.Keys;
      while rest != {}
        invariant rest <= condPts.Keys
        invariant forall c :: c in condPts && c !in rest ==> c in rhs.condPts && condPts[c] <= rhs.condPts[c]
      {
        var lc :| lc in rest;
        if lc !in rhs.condPts {
          return false;
        }
        if !(condPts[lc] <= rhs.condPts[lc]) {
          return false;
        }
        rest := rest - {lc};
      }
      r := true;
    }

    /** Takes away what the other holds, which may be this set itself. */
    method IntersectWithComplement(rhs: CondPointsToSet)
      modifies this
      ensures Pairs(condPts) == old(Pairs(condPts)) - old(Pairs(rhs.condPts))
      ensures condPts.Keys == old(condPts.Keys)
    {
      var empty := Empty();
      if empty || rhs.condPts == map[] {
        assert rhs.condPts == map[] ==> Pairs(rhs.condPts) == {};
        return;
      }
      var rest := condPts.Keys;
      while rest != {}
        invariant rest <= condPts.Keys == old(condPts.Keys)
        invariant forall c :: c in rest ==> At(rhs.condPts, c) == At(old(rhs.condPts), c)
        invariant forall c :: c in condPts ==>
                    condPts[c] == if c in rest then old(condPts)[c] else old(condPts)[c] - At(old(rhs.condPts), c)
      {
        var cond :| cond in rest;
        if cond in rhs.condPts {
          condPts := condPts[cond := condPts[cond] - rhs.condPts[cond]];
        }
        rest := rest - {cond};
      }
      PairsMinus(old(condPts), old(rhs.condPts), condPts);
    }

    /** `&=`: keeps what the other holds too. */
    method IntersectWith(rhs: CondPointsToSet) returns (changed: bool)
      modifies this
      ensures Pairs(condPts) == old(Pairs(condPts)) * old(Pairs(rhs.condPts))
      ensures changed <==> Pairs(condPts) != old(Pairs(condPts))
    {
      var empty := Empty();
      if empty {
        return false;
      }
      var rhsEmpty := rhs.Empty();
      if rhsEmpty {
        condPts := map[];
        assert Pairs(condPts) == {};
        return true;
      }
      changed := false;
      var rest := condPts.Keys;
      while rest != {}
        invariant rest <= condPts.Keys == old(condPts.Keys)
        invariant forall c :: c in rest ==> At(rhs.condPts, c) == At(old(rhs.condPts), c)
        invariant forall c :: c in condPts ==>
                    condPts[c] == if c in rest then old(condPts)[c] else old(condPts)[c] * At(old(rhs.condPts), c)
        invariant changed <==> exists c :: c in condPts && condPts[c] != old(condPts)[c]
      {
        var cond :| cond in rest;
        ghost var before := condPts;
        if cond in rhs.condPts {
          if !(condPts[cond] <= rhs.condPts[cond]) {
            changed := true;
          }
          condPts := condPts[cond := condPts[cond] * rhs.condPts[cond]];
        } else {
          if condPts[cond] != {} {
            condPts := condPts[cond := {}];
            changed := true;
          }
        }
        assert forall c :: c in before && c != cond ==> condPts[c] == before[c];
        rest := rest - {cond};
      }
      PairsTimes(old(condPts), old(rhs.condPts), condPts);
      PairsDiffer(old(condPts), condPts);
    }

    /** `|=`: adds what the other holds. */
    method UnionWith(rhs: CondPointsToSet) returns (changed: bool)
      modifies this
      ensures Pairs(condPts) == old(Pairs(condPts)) + old(Pairs(rhs.condPts))
      ensures changed <==> Pairs(condPts) != old(Pairs(condPts))
    {
      hide Pairs, Joined, Differs;
      changed := false;
      var rest := rhs.condPts.Keys;
      ghost var other := rhs.condPts;
      NothingJoined(condPts, other);
      while rest != {}
        invariant rest <= other.Keys && Joined(old(condPts), other, rest, condPts)
        invariant forall c :: c in rest ==> c in rhs.condPts && rhs.condPts[c] == other[c]
        invariant changed <==> Differs(old(condPts), condPts)
      {
        var cond :| cond in rest;
        var pts := At(condPts, cond);
        JoinedNext(old(condPts), other, rest, condPts, cond);
        if !(rhs.condPts[cond] <= pts) {
          changed := true;
        }
        condPts := condPts[cond := pts + rhs.condPts[cond]];
        rest := rest - {cond};
      }
      AllJoined(old(condPts), other, condPts);
    }

    method TestAndSet(c: Cond, x: NodeID) returns (added: bool)
      modifies this
      ensures Pairs(condPts) == old(Pairs(condPts)) + {(c, x)}
      ensures added <==> (c, x) !in old(Pairs(condPts))
    {
      var pts := At(condPts, c);
      added := x !in pts;
      condPts := condPts[c := pts + {x}];
    }

    method Test(c: Cond, x: NodeID) returns (r: bool)
      ensures r <==> (c, x) in Pairs(condPts)
    {
      if c in condPts {
        return x in condPts[c];
      }
      r := false;
    }

    method Set(c: Cond, x: NodeID)
      modifies this
      ensures condPts.Keys == old(condPts.Keys) + {c}
      ensures Pairs(condPts) == old(Pairs(condPts)) + {(c, x)}
    {
      var pts := At(condPts, c);
      condPts := condPts[c := pts + {x}];
    }

    /** The condition stays, even if nothing is left under it. */
    method Reset(c: Cond, x: NodeID)
      modifies this
      ensures condPts.Keys == old(condPts.Keys)
      ensures Pairs(condPts) == old(Pairs(condPts)) - {(c, x)}
    {
      if c in condPts {
        condPts := condPts[c := condPts[c] - {x}];
      }
    }
  }

  lemma PairsMinus(l: CondPts, r: CondPts, m: CondPts)
    requires m.Keys == l.Keys && forall c :: c in m ==> m[c] == l[c] - At(r, c)
    ensures Pairs(m) == Pairs(l) - Pairs(r)
  {
  }

  lemma PairsTimes(l: CondPts, r: CondPts, m: CondPts)
    requires m.Keys == l.Keys && forall c :: c in m ==> m[c] == l[c] * At(r, c)
    ensures Pairs(m) == Pairs(l) * Pairs(r)
  {
  }

  lemma PairsPlus(l: CondPts, r: CondPts, m: CondPts)
    requires m.Keys == l.Keys + r.Keys && forall c :: c in m ==> m[c] == At(l, c) + At(r, c)
    ensures Pairs(m) == Pairs(l) + Pairs(r)
  {
  }

  lemma PairsDiffer(l: CondPts, m: CondPts)
    requires l.Keys <= m.Keys
    ensures Pairs(l) != Pairs(m) <==> exists c :: c in m && m[c] != At(l, c)
  {
    if c :| c in m && m[c] != At(l, c) {
      var x :| x in (m[c] - At(l, c)) + (At(l, c) - m[c]);
      PairIn(l, c, x);
      PairIn(m, c, x);
    } else {
      forall p
        ensures p in Pairs(l) <==> p in Pairs(m)
      {
        PairIn(l, p.0, p.1);
        PairIn(m, p.0, p.1);
      }
    }
  }

  /** A set emptied again is included in every set, but no subset of the empty one. */
  method LeftBehind() returns (l: CondPointsToSet, r: CondPointsToSet, subset: bool)
    ensures Pairs(l.condPts) <= Pairs(r.condPts) && !subset
  {
    l := new CondPointsToSet();
    r := new CondPointsToSet();
    l.Set(0, 1);
    l.Reset(0, 1);
    assert 0 in l.condPts.Keys;
    subset := l.IsSubset(r);
  }
}
