/**
 Type sets of variables: an ordered set with an intersection test by merging, and the two
 indexes between variables and types.
 */
module TypeSets {
  type PTAType = nat        // ordered by address
  type NodeID = nat

  /** The elements of an ordered set, in order. */
  predicate Ordered(s: seq<PTAType>)
  {
    forall i, j :: 0 <= i < j < |s| ==> s[i] < s[j]
  }

  ghost predicate Share(s: seq<PTAType>, t: seq<PTAType>)
  {
    exists x :: x in s && x in t
  }

  class TypeSet {
    var typeSet: seq<PTAType>

    ghost predicate Valid()
      reads this
    {
      Ordered(typeSet)
    }

    constructor ()
      ensures Valid() && typeSet == []
    {
      typeSet := [];
    }

    /** Inserts at the place the order asks for. */
    method AddType(ty: PTAType) returns (added: bool)
      requires Valid()
      modifies this
      ensures Valid() && (added <==> ty !in old(typeSet))
      ensures forall i, j :: 0 <= i < j < |typeSet| ==> typeSet[i] < typeSet[j]
      ensures forall x :: x in typeSet <==> x in old(typeSet) || x == ty
      ensures |typeSet| == |old(typeSet)| + if added then 1 else 0
    {
      var i := 0;
      while i < |typeSet| && typeSet[i] < ty
        invariant i <= |typeSet|
        invariant forall j :: 0 <= j < i ==> typeSet[j] < ty
      {
        i := i + 1;
      }
      added := i == |typeSet| || typeSet[i] != ty;
      if added {
        ghost var was := typeSet;
        typeSet := typeSet[..i] + [ty] + typeSet[i..];
        assert was == was[..i] + was[i..];
        assert forall x :: x in was <==> x in was[..i] || x in was[i..];
      }
    }

    method ContainType(ty: PTAType) returns (r: bool)
      ensures r <==> ty in typeSet
    {
      r := ty in typeSet;
    }

    /** Whether the two sets share a type. Without a singleton on either side, the largest
        elements are looked at, so neither may be empty then. */
    method Intersect(other: TypeSet) returns (r: bool)
      requires Valid() && other.Valid()
      requires |typeSet| == 1 || |other.typeSet| == 1 || (typeSet != [] && other.typeSet != [])
      ensures r <==> exists x :: x in typeSet && x in other.typeSet
    {
      if |typeSet| == 1 {
        r := other.ContainType(typeSet[0]);
        assert forall x :: x in typeSet <==> x == typeSet[0];
      } else if |other.typeSet| == 1 {
        r := ContainType(other.typeSet[0]);
        assert forall x :: x in other.typeSet <==> x == other.typeSet[0];
      } else {
        var t1, t2 := other.typeSet, typeSet;
        var first1, first2 := 0, 0;
        if t1[|t1| - 1] < t2[0] || t2[|t2| - 1] < t1[0] {
          Apart(t1, t2);
          return false;
        }
        while first1 < |t1| && first2 < |t2|
          invariant first1 <= |t1| && first2 <= |t2|
          invariant Share(t1, t2) ==> Share(t1[first1..], t2[first2..])
          decreases |t1| + |t2| - first1 - first2
        {
          if t1[first1] < t2[first2] {
            SkipFirst(t1[first1..], t2[first2..]);
            assert t1[first1..][1..] == t1[first1 + 1..];
            first1 := first1 + 1;
          } else if t2[first2] < t1[first1] {
            SkipFirst(t2[first2..], t1[first1..]);
            assert t2[first2..][1..] == t2[first2 + 1..];
            first2 := first2 + 1;
          } else {
            assert t1[first1] in t1 && t1[first1] in t2;
            return true;
          }
        }
        r := false;
      }
    }
  }

  /** Sets one of which ends below the beginning of the other share nothing. */
  lemma Apart(s: seq<PTAType>, t: seq<PTAType>)
    requires Ordered(s) && Ordered(t) && s != [] && t != []
    requires s[|s| - 1] < t[0] || t[|t| - 1] < s[0]
    ensures !Share(s, t)
  {
    forall x | x in s
      ensures x !in t
    {
      Within(s, x);
      if x in t {
        Within(t, x);
      }
    }
  }

  lemma Within(s: seq<PTAType>, x: PTAType)
    requires Ordered(s) && x in s
    ensures s[0] <= x <= s[|s| - 1]
  {
  }

  /** An element below all of the other set is not shared. */
  lemma SkipFirst(s: seq<PTAType>, t: seq<PTAType>)
    requires Ordered(s) && Ordered(t) && s != [] && t != [] && s[0] < t[0]
    ensures Share(s, t) ==> Share(s[1..], t) && Share(t, s[1..])
  {
    if x :| x in s && x in t {
      Within(t, x);
      assert x in s[1..];
    }
  }

  /** The two indexes between variables and types. */
  class TypeSystem {
    var varToTypeSetMap: map<NodeID, TypeSet>
    var typeToVarsMap: map<PTAType, set<NodeID>>

    ghost predicate Valid()
      reads this, varToTypeSetMap.Values
    {
      && (forall v :: v in varToTypeSetMap ==> varToTypeSetMap[v].Valid())
      && (forall v, w :: v in varToTypeSetMap && w in varToTypeSetMap && varToTypeSetMap[v] == varToTypeSetMap[w] ==>
          v == w)
    }

    ghost predicate HasType(v: NodeID, ty: PTAType)
      reads this, varToTypeSetMap.Values
    {
      v in varToTypeSetMap && ty in varToTypeSetMap[v].typeSet
    }

    predicate HasVar(ty: PTAType, v: NodeID)
      reads this
    {
      ty in typeToVarsMap && v in typeToVarsMap[ty]
    }

    /** The indexes undo each other. */
    ghost predicate Agree()
      reads this, varToTypeSetMap.Values
    {
      forall v, ty :: HasType(v, ty) <==> HasVar(ty, v)
    }

    constructor ()
      ensures Valid() && Agree() && varToTypeSetMap == map[] && typeToVarsMap == map[]
    {
      varToTypeSetMap, typeToVarsMap := map[], map[];
    }

    /** True if the type is new for the variable, which may get its first set. */
    method AddTypeForVar(v: NodeID, ty: PTAType) returns (added: bool)
      requires Valid()
      modifies this`varToTypeSetMap, if v in varToTypeSetMap then {varToTypeSetMap[v]} else {}
      ensures Valid() && (added <==> !old(HasType(v, ty)))
      ensures forall w, t :: HasType(w, t) <==> old(HasType(w, t)) || (w == v && t == ty)
      ensures fresh(varToTypeSetMap.Values - old(varToTypeSetMap.Values))
    {
      if v in varToTypeSetMap {
        added := varToTypeSetMap[v].AddType(ty);
      } else {
        var types := new TypeSet();
        added := types.AddType(ty);
        varToTypeSetMap := varToTypeSetMap[v := types];
      }
    }

    method AddVarForType(v: NodeID, ty: PTAType)
      modifies this`typeToVarsMap
      ensures forall t, w :: HasVar(t, w) <==> old(HasVar(t, w)) || (w == v && t == ty)
    {
      if ty !in typeToVarsMap {
        typeToVarsMap := typeToVarsMap[ty := {v}];
      } else {
        typeToVarsMap := typeToVarsMap[ty := typeToVarsMap[ty] + {v}];
      }
    }

    /** As the callers do: the second index follows only if the first one changed. */
    method AddType(v: NodeID, ty: PTAType)
      requires Valid() && Agree()
      modifies this, if v in varToTypeSetMap then {varToTypeSetMap[v]} else {}
      ensures Valid() && Agree()
      ensures forall w, t :: HasType(w, t) <==> old(HasType(w, t)) || (w == v && t == ty)
    {
      var added := AddTypeForVar(v, ty);
      if added {
        AddVarForType(v, ty);
      }
      forall w, t {:trigger HasType(w, t)} {:trigger HasVar(t, w)}
        ensures HasType(w, t) <==> HasVar(t, w)
      {
        assert old(HasType(w, t)) <==> old(HasVar(t, w));
        assert old(HasType(v, ty)) <==> old(HasVar(ty, v));
      }
    }
  }
}
