/**
 The positional unifier `get_mapping`: it walks a list of domain facts and an equally long
 list of ground heads pair by pair, and inside each pair argument by argument, binding every
 domain argument to the object at the same position. A binding is never revised: the first
 argument that would need a second, different object makes the whole call return `None`.
 */
module Unify {
  import opened Wrappers
  import opened Facts

  /** The unifier's result: a binding of domain arguments (parameters and constants alike) to objects. */
  type Mapping = map<Term, Obj>

  /** The pairs have equal length and each pair has equal arity (what `safe_zip` insists on). */
  predicate SameShape(atoms1: seq<Atom>, atoms2: seq<Head>)
  {
    |atoms1| == |atoms2| &&
    forall a :: 0 <= a < |atoms1| ==> |atoms1[a].args| == |atoms2[a].args|
  }

  /** `SameShape`, and each pair has the same predicate (the `assert` inside the outer loop). */
  predicate Aligned(atoms1: seq<Atom>, atoms2: seq<Head>)
  {
    SameShape(atoms1, atoms2) &&
    forall a :: 0 <= a < |atoms1| ==> atoms1[a].pred == atoms2[a].pred
  }

  /** The arguments of `atoms`, read left to right: the order in which the unifier visits them. */
  function Terms(atoms: seq<Atom>): seq<Term>
  {
    if |atoms| == 0 then [] else atoms[0].args + Terms(atoms[1..])
  }

  /** The arguments of `heads`, read left to right. */
  function Objs(heads: seq<Head>): seq<Obj>
  {
    if |heads| == 0 then [] else heads[0].args + Objs(heads[1..])
  }

  /** Two occurrences of one domain argument face different objects. */
  ghost predicate FlatConflict(ts: seq<Term>, os: seq<Obj>)
    requires |ts| == |os|
  {
    exists p, q :: 0 <= p < |ts| && 0 <= q < |ts| && ts[p] == ts[q] && os[p] != os[q]
  }

  /** Some argument already bound in `m` faces a different object, or `FlatConflict`. */
  ghost predicate Clash(ts: seq<Term>, os: seq<Obj>, m: Mapping)
    requires |ts| == |os|
  {
    (exists p :: 0 <= p < |ts| && ts[p] in m && m[ts[p]] != os[p]) || FlatConflict(ts, os)
  }

  /**
   Two occurrences of one domain argument, at fact `a` position `b` and fact `a2` position `b2`,
   face different objects in `atoms2`: one symbol would need two values.
   */
  ghost predicate Conflict(atoms1: seq<Atom>, atoms2: seq<Head>)
    requires SameShape(atoms1, atoms2)
  {
    exists a, b, a2, b2 ::
      0 <= a < |atoms1| && 0 <= b < |atoms1[a].args| &&
      0 <= a2 < |atoms1| && 0 <= b2 < |atoms1[a2].args| &&
      atoms1[a].args[b] == atoms1[a2].args[b2] && atoms2[a].args[b] != atoms2[a2].args[b2]
  }

  /**
   The inner loop of `get_mapping`: bind `ts[k]` to `os[k]` for each `k` in turn, starting from
   `m`, unless `ts[k]` is already bound to another object.
   */
  function BindArgs(ts: seq<Term>, os: seq<Obj>, m: Mapping): (r: Option<Mapping>)
    requires |ts| == |os|
    ensures r.Some? ==> r.value.Keys == m.Keys + (set t | t in ts)
    ensures r.Some? ==> forall t :: t in m ==> r.value[t] == m[t]
    ensures r.Some? ==> forall k :: 0 <= k < |ts| ==> r.value[ts[k]] == os[k]
    decreases |ts|
  {
    if |ts| == 0 then Some(m)
    else if ts[0] in m && m[ts[0]] != os[0] then None
    else
      var r := BindArgs(ts[1..], os[1..], m[ts[0] := os[0]]);
      assert r.Some? ==> forall k :: 1 <= k < |ts| ==> ts[k] == ts[1..][k - 1];
      r
  }

  /** Binding fails exactly when an argument clashes with an earlier binding or with itself. */
  lemma {:induction false} BindArgsFailsIffClash(ts: seq<Term>, os: seq<Obj>, m: Mapping)
    requires |ts| == |os|
    ensures BindArgs(ts, os, m).None? <==> Clash(ts, os, m)
    decreases |ts|
  {
    if |ts| == 0 {
    } else if ts[0] in m && m[ts[0]] != os[0] {
      assert Clash(ts, os, m);
    } else {
      var m' := m[ts[0] := os[0]];
      var ts', os' := ts[1..], os[1..];
      BindArgsFailsIffClash(ts', os', m');
      if BindArgs(ts, os, m).None? {
        assert Clash(ts', os', m');
        if p :| 0 <= p < |ts'| && ts'[p] in m' && m'[ts'[p]] != os'[p] {
          if ts'[p] == ts[0] {
            assert ts[0] == ts[p + 1] && os[0] != os[p + 1];
            assert FlatConflict(ts, os);
          } else {
            assert ts[p + 1] in m && m[ts[p + 1]] != os[p + 1];
          }
        } else {
          var p, q :| 0 <= p < |ts'| && 0 <= q < |ts'| && ts'[p] == ts'[q] && os'[p] != os'[q];
          assert ts[p + 1] == ts[q + 1] && os[p + 1] != os[q + 1];
          assert FlatConflict(ts, os);
        }
      }
    }
  }

  /** Binding a concatenation is binding the first part, then the second from where it left off. */
  lemma {:induction false} BindArgsAppend(ts1: seq<Term>, ts2: seq<Term>, os1: seq<Obj>, os2: seq<Obj>, m: Mapping)
    requires |ts1| == |os1| && |ts2| == |os2|
    ensures BindArgs(ts1 + ts2, os1 + os2, m) ==
            match BindArgs(ts1, os1, m)
            case None => None
            case Some(m1) => BindArgs(ts2, os2, m1)
    decreases |ts1|
  {
    if |ts1| == 0 {
      assert ts1 + ts2 == ts2 && os1 + os2 == os2;
    } else {
      assert (ts1 + ts2)[1..] == ts1[1..] + ts2;
      assert (os1 + os2)[1..] == os1[1..] + os2;
      if !(ts1[0] in m && m[ts1[0]] != os1[0]) {
        BindArgsAppend(ts1[1..], ts2, os1[1..], os2, m[ts1[0] := os1[0]]);
      }
    }
  }

  /** Facts of equal shape have argument lists of equal total length. */
  lemma {:induction false} TermsObjsLength(atoms1: seq<Atom>, atoms2: seq<Head>)
    requires SameShape(atoms1, atoms2)
    ensures |Terms(atoms1)| == |Objs(atoms2)|
    decreases |atoms1|
  {
    if |atoms1| > 0 {
      TermsObjsLength(atoms1[1..], atoms2[1..]);
    }
  }

  /**
   The two nested loops of `get_mapping` (lines 12-18), with the mapping built so far as `m`.
   They visit exactly the flattened argument lists, so they agree with `BindArgs` on them.
   */
  function BindAtoms(atoms1: seq<Atom>, atoms2: seq<Head>, m: Mapping): (r: Option<Mapping>)
    requires SameShape(atoms1, atoms2)
    ensures |Terms(atoms1)| == |Objs(atoms2)| && r == BindArgs(Terms(atoms1), Objs(atoms2), m)
    decreases |atoms1|
  {
    TermsObjsLength(atoms1, atoms2);
    if |atoms1| == 0 then Some(m)
    else
      assert SameShape(atoms1[1..], atoms2[1..]);
      TermsObjsLength(atoms1[1..], atoms2[1..]);
      BindArgsAppend(atoms1[0].args, Terms(atoms1[1..]), atoms2[0].args, Objs(atoms2[1..]), m);
      match BindArgs(atoms1[0].args, atoms2[0].args, m)
      case None => None
      case Some(m1) => BindAtoms(atoms1[1..], atoms2[1..], m1)
  }

  /** A term occurs among the flattened arguments exactly when some fact mentions it. */
  lemma {:induction false} TermsMention(atoms: seq<Atom>, t: Term)
    ensures t in Terms(atoms) <==> Mentions(atoms, t)
    decreases |atoms|
  {
    if |atoms| > 0 {
      TermsMention(atoms[1..], t);
      if Mentions(atoms[1..], t) {
        var a :| 0 <= a < |atoms[1..]| && t in atoms[1..][a].args;
        assert t in atoms[a + 1].args;
      }
      if Mentions(atoms, t) && t !in atoms[0].args {
        var a :| 0 <= a < |atoms| && t in atoms[a].args;
        assert t in atoms[1..][a - 1].args;
      }
    }
  }

  /** Argument `b` of fact `a` sits at some position `p` of both flattened lists. */
  lemma {:induction false} FlatPosition(atoms1: seq<Atom>, atoms2: seq<Head>, a: nat, b: nat) returns (p: nat)
    requires SameShape(atoms1, atoms2)
    requires a < |atoms1| && b < |atoms1[a].args|
    ensures p < |Terms(atoms1)| && p < |Objs(atoms2)|
    ensures Terms(atoms1)[p] == atoms1[a].args[b] && Objs(atoms2)[p] == atoms2[a].args[b]
    decreases a
  {
    TermsObjsLength(atoms1, atoms2);
    if a == 0 {
      p := b;
    } else {
      assert SameShape(atoms1[1..], atoms2[1..]);
      var p' := FlatPosition(atoms1[1..], atoms2[1..], a - 1, b);
      p := |atoms1[0].args| + p';
    }
  }

  /** Position `p` of the flattened lists is argument `b` of some fact `a`. */
  lemma {:induction false} NestedPosition(atoms1: seq<Atom>, atoms2: seq<Head>, p: nat) returns (a: nat, b: nat)
    requires SameShape(atoms1, atoms2)
    requires p < |Terms(atoms1)|
    ensures a < |atoms1| && b < |atoms1[a].args|
    ensures |Terms(atoms1)| == |Objs(atoms2)|
    ensures Terms(atoms1)[p] == atoms1[a].args[b] && Objs(atoms2)[p] == atoms2[a].args[b]
    decreases |atoms1|
  {
    TermsObjsLength(atoms1, atoms2);
    if p < |atoms1[0].args| {
      a, b := 0, p;
    } else {
      assert SameShape(atoms1[1..], atoms2[1..]);
      var a', b' := NestedPosition(atoms1[1..], atoms2[1..], p - |atoms1[0].args|);
      a, b := a' + 1, b';
    }
  }

  /** A conflict between fact positions is a conflict between flattened positions, and back. */
  lemma ConflictIsFlat(atoms1: seq<Atom>, atoms2: seq<Head>)
    requires SameShape(atoms1, atoms2)
    ensures |Terms(atoms1)| == |Objs(atoms2)|
    ensures Conflict(atoms1, atoms2) <==> FlatConflict(Terms(atoms1), Objs(atoms2))
  {
    TermsObjsLength(atoms1, atoms2);
    var ts, os := Terms(atoms1), Objs(atoms2);
    if Conflict(atoms1, atoms2) {
      var a, b, a2, b2 :|
        0 <= a < |atoms1| && 0 <= b < |atoms1[a].args| &&
        0 <= a2 < |atoms1| && 0 <= b2 < |atoms1[a2].args| &&
        atoms1[a].args[b] == atoms1[a2].args[b2] && atoms2[a].args[b] != atoms2[a2].args[b2];
      var p := FlatPosition(atoms1, atoms2, a, b);
      var q := FlatPosition(atoms1, atoms2, a2, b2);
      assert ts[p] == ts[q] && os[p] != os[q];
    }
    if FlatConflict(ts, os) {
      var p, q :| 0 <= p < |ts| && 0 <= q < |ts| && ts[p] == ts[q] && os[p] != os[q];
      var a, b := NestedPosition(atoms1, atoms2, p);
      var a2, b2 := NestedPosition(atoms1, atoms2, q);
      assert atoms1[a].args[b] == atoms1[a2].args[b2] && atoms2[a].args[b] != atoms2[a2].args[b2];
    }
  }

  /** What the nested walk from the empty mapping computes, stated fact by fact. */
  lemma MappingFacts(atoms1: seq<Atom>, atoms2: seq<Head>)
    requires SameShape(atoms1, atoms2)
    ensures var r := BindAtoms(atoms1, atoms2, map[]);
      && (r.Some? ==> forall t :: t in r.value <==> Mentions(atoms1, t))
      && (r.Some? ==> forall a, b :: 0 <= a < |atoms1| && 0 <= b < |atoms1[a].args| ==>
            atoms1[a].args[b] in r.value && r.value[atoms1[a].args[b]] == atoms2[a].args[b])
      && (r.None? <==> Conflict(atoms1, atoms2))
  {
    var r := BindAtoms(atoms1, atoms2, map[]);
    var ts, os := Terms(atoms1), Objs(atoms2);
    BindArgsFailsIffClash(ts, os, map[]);
    ConflictIsFlat(atoms1, atoms2);
    if r.Some? {
      forall t
        ensures t in r.value <==> Mentions(atoms1, t)
      {
        TermsMention(atoms1, t);
      }
      forall a, b | 0 <= a < |atoms1| && 0 <= b < |atoms1[a].args|
        ensures atoms1[a].args[b] in r.value && r.value[atoms1[a].args[b]] == atoms2[a].args[b]
      {
        var p := FlatPosition(atoms1, atoms2, a, b);
      }
    }
  }

  /**
   `get_mapping(atoms1, atoms2)` (lines 10-19). On success the mapping is defined on exactly the
   arguments of `atoms1` and sends each of them to the object at the same position of `atoms2`;
   it fails exactly when one argument would have to be bound to two different objects.
   */
  function GetMapping(atoms1: seq<Atom>, atoms2: seq<Head>): (r: Option<Mapping>)
    requires Aligned(atoms1, atoms2)
    ensures r.Some? ==> forall t :: t in r.value <==> Mentions(atoms1, t)
    ensures r.Some? ==> forall a, b :: 0 <= a < |atoms1| && 0 <= b < |atoms1[a].args| ==>
              atoms1[a].args[b] in r.value && r.value[atoms1[a].args[b]] == atoms2[a].args[b]
    ensures r.None? <==> Conflict(atoms1, atoms2)
  {
    MappingFacts(atoms1, atoms2);
    BindAtoms(atoms1, atoms2, map[])
  }
}
