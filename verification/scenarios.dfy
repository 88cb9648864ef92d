/**
 Worked scenarios of the instantiator. Each is proved for every valid engine over the given
 stream that knows the given heads, so it holds whatever order the heads were submitted in.
 The stream, predicate and object names are parameters: a scenario holds for any choice of them.
 */
module Scenarios {
  import opened Wrappers
  import opened Facts
  import opened Unify
  import opened Instantiator
  import opened Properties

  // ---------------------------------------------------------------- helpers
  // Small steps the scenarios share. Each keeps one proof obligation small; none states a new
  // property of the instantiator.

  /** Instance `i` of `s` reads input `k` off argument `q` of domain fact `p` when they name one parameter. */
  lemma YieldReadsInput(s: Stream, i: nat, c: seq<Head>, k: nat, p: nat, q: nat)
    requires InputsGrounded(s) && Aligned(s.domain, c) && Yield(s, i, c).Some?
    requires k < |s.inputs| && p < |s.domain| && q < |s.domain[p].args|
    requires s.domain[p].args[q] == Param(s.inputs[k])
    ensures Yield(s, i, c).value.inputs[k] == c[p].args[q]
  {
  }

  /** A sequence with no members is empty. */
  lemma NoMemberEmpty<T>(q: seq<T>)
    ensures (forall x :: x !in q) ==> q == []
  {
    if q != [] {
      assert q[0] in q;
    }
  }

  /** An instance of stream 0 with one input is determined by it. */
  lemma OneInput(inst: Instance, u: Obj)
    requires inst.stream == 0 && |inst.inputs| == 1 && inst.inputs[0] == u
    ensures inst == Instance(0, [u])
  {
    assert inst.inputs == [u];
  }

  /** An instance of stream 0 with two inputs is determined by them. */
  lemma TwoInputs(inst: Instance, u: Obj, v: Obj)
    requires inst.stream == 0 && |inst.inputs| == 2 && inst.inputs[0] == u && inst.inputs[1] == v
    ensures inst == Instance(0, [u, v])
  {
    assert inst.inputs == [u, v];
  }

  /** A unifying combination of known heads witnesses that its instance is derivable. */
  lemma DerivedBy(streams: seq<Stream>, atoms: set<Head>, c: seq<Head>, inst: Instance)
    requires WellFormed(streams) && inst.stream < |streams|
    requires KnownCombo(streams[inst.stream], atoms, c)
    requires Yield(streams[inst.stream], inst.stream, c) == Some(inst)
    ensures Derivable(streams, atoms, inst)
  {
  }

  /** Two sets with the same members are equal. */
  lemma SameMembers<T>(s1: set<T>, s2: set<T>)
    requires forall x :: x in s1 <==> x in s2
    ensures s1 == s2
  {
  }

  /** A created instance sits in a valid engine's queue at most once, and exactly once while
   nothing has been popped. */
  lemma QueuedOnce(e: Engine, inst: Instance)
    requires Valid(e) && inst in e.instances
    ensures multiset(e.queue)[inst] <= 1
    ensures Undrained(e) ==> multiset(e.queue)[inst] == 1
  {
    DistinctAtMostOnce(e.queue, inst);
    if Undrained(e) {
      DistinctCount(e.queue, inst);
    }
  }

  // ---------------------------------------------------------------- a one-input stream

  /** A stream with input `x` and domain `P(?x)`. */
  ghost predicate SingleShape(s: Stream, pred: string, x: string)
  {
    s.inputs == [x] && s.domain == [Atom(pred, [Param(x)])]
  }

  /** The one-input stream reads its input off its only fact. */
  lemma SingleShapeFacts(s: Stream, pred: string, x: string)
    requires SingleShape(s, pred, x)
    ensures InputsGrounded(s) && |s.inputs| == 1 && |s.domain| == 1
    ensures |s.domain[0].args| == 1 && s.domain[0].args[0] == Param(s.inputs[0])
  {
    assert Param(x) in s.domain[0].args;
  }

  /** Whatever head the one-input stream unifies, its instance has that head's object as input. */
  lemma SingleReads(s: Stream, c: seq<Head>, inst: Instance)
    requires InputsGrounded(s) && |s.inputs| == 1 && |s.domain| == 1
    requires |s.domain[0].args| == 1 && s.domain[0].args[0] == Param(s.inputs[0])
    requires Aligned(s.domain, c) && Yield(s, 0, c) == Some(inst)
    ensures inst == Instance(0, [c[0].args[0]])
  {
    YieldReadsInput(s, 0, c, 0, 0, 0);
    OneInput(inst, c[0].args[0]);
  }

  /** A single fact never conflicts with itself. */
  lemma SingleNoConflict(s: Stream, pred: string, x: string, u: Obj)
    requires SingleShape(s, pred, x)
    ensures SameShape(s.domain, [Head(pred, [u])]) && !Conflict(s.domain, [Head(pred, [u])])
  {
  }

  /** Knowing `P(u)`, the one-input stream derives its instance with input `u`. */
  lemma SingleDerivable(streams: seq<Stream>, pred: string, x: string, u: Obj)
    requires WellFormed(streams) && |streams| == 1 && SingleShape(streams[0], pred, x)
    ensures Derivable(streams, {Head(pred, [u])}, Instance(0, [u]))
  {
    var s := streams[0];
    var c := [Head(pred, [u])];
    SingleShapeFacts(s, pred, x);
    SingleNoConflict(s, pred, x, u);
    assert IsCombo(s, c);
    SingleReads(s, c, Yield(s, 0, c).value);
    assert KnownCombo(s, {Head(pred, [u])}, c);
    DerivedBy(streams, {Head(pred, [u])}, c, Instance(0, [u]));
  }

  /** Knowing only `P(u)`, the one-input stream derives nothing but its instance with input `u`. */
  lemma OnlySingleDerivable(streams: seq<Stream>, pred: string, x: string, u: Obj, inst: Instance)
    requires WellFormed(streams) && |streams| == 1 && SingleShape(streams[0], pred, x)
    requires Derivable(streams, {Head(pred, [u])}, inst)
    ensures inst == Instance(0, [u])
  {
    var s := streams[0];
    SingleShapeFacts(s, pred, x);
    forall c | KnownCombo(s, {Head(pred, [u])}, c) && Yield(s, 0, c) == Some(inst)
      ensures inst == Instance(0, [u])
    {
      assert c[0] in {Head(pred, [u])};
      SingleReads(s, c, inst);
    }
  }

  /**
   An engine over the stream `P(?x)` that knows exactly `P(u)` -- however often it was
   submitted -- has created exactly one instance, with input `u`. The queue holds nothing else and
   holds it at most once; exactly once while nothing has been popped.
   */
  lemma SingleInput(e: Engine, pred: string, x: string, u: Obj)
    requires Valid(e) && |e.streams| == 1 && SingleShape(e.streams[0], pred, x)
    requires e.atoms == {Head(pred, [u])}
    ensures e.instances == {Instance(0, [u])}
    ensures forall y :: y in e.queue ==> y == Instance(0, [u])
    ensures multiset(e.queue)[Instance(0, [u])] <= 1
    ensures Undrained(e) ==> multiset(e.queue)[Instance(0, [u])] == 1
  {
    Characterization(e);
    forall inst | inst in e.instances
      ensures inst == Instance(0, [u])
    {
      OnlySingleDerivable(e.streams, pred, x, u, inst);
    }
    SingleDerivable(e.streams, pred, x, u);
    SameMembers(e.instances, {Instance(0, [u])});
    QueuedOnce(e, Instance(0, [u]));
  }

  // ---------------------------------------------------------------- the pair stream

  /** A stream with inputs `x`, `y` and domain `P(?x), P(?y)`. */
  ghost predicate PairShape(s: Stream, pred: string, x: string, y: string)
  {
    x != y && s.inputs == [x, y] && s.domain == [Atom(pred, [Param(x)]), Atom(pred, [Param(y)])]
  }

  /** The pair stream reads its first input off its first fact and its second off its second. */
  lemma PairShapeFacts(s: Stream, pred: string, x: string, y: string)
    requires PairShape(s, pred, x, y)
    ensures InputsGrounded(s) && |s.inputs| == 2 && |s.domain| == 2
    ensures |s.domain[0].args| == 1 && s.domain[0].args[0] == Param(s.inputs[0])
    ensures |s.domain[1].args| == 1 && s.domain[1].args[0] == Param(s.inputs[1])
  {
    assert Param(x) in s.domain[0].args;
    assert Param(y) in s.domain[1].args;
  }

  /** The pair stream's facts share no symbol, so no pair of heads conflicts. */
  lemma PairNoConflict(s: Stream, pred: string, x: string, y: string, u: Obj, v: Obj)
    requires PairShape(s, pred, x, y)
    ensures SameShape(s.domain, [Head(pred, [u]), Head(pred, [v])])
    ensures !Conflict(s.domain, [Head(pred, [u]), Head(pred, [v])])
  {
    assert s.domain[0].args[0] != s.domain[1].args[0];
  }

  /** The pair stream turns the heads `P(u)`, `P(v)` into its instance with inputs `u`, `v`. */
  lemma PairYield(s: Stream, pred: string, x: string, y: string, u: Obj, v: Obj)
    requires PairShape(s, pred, x, y)
    ensures InputsGrounded(s) && IsCombo(s, [Head(pred, [u]), Head(pred, [v])])
    ensures Yield(s, 0, [Head(pred, [u]), Head(pred, [v])]) == Some(Instance(0, [u, v]))
  {
    var c := [Head(pred, [u]), Head(pred, [v])];
    PairShapeFacts(s, pred, x, y);
    PairNoConflict(s, pred, x, y, u, v);
    assert IsCombo(s, c);
    PairReads(s, c, Yield(s, 0, c).value);
    TwoInputs(Yield(s, 0, c).value, u, v);
  }

  /**
   A two-input stream whose facts each carry one input: whatever pair of heads it unifies, the
   instance has their objects as inputs, in the order of the facts.
   */
  lemma PairReads(s: Stream, c: seq<Head>, inst: Instance)
    requires InputsGrounded(s) && |s.inputs| == 2 && |s.domain| == 2
    requires |s.domain[0].args| == 1 && s.domain[0].args[0] == Param(s.inputs[0])
    requires |s.domain[1].args| == 1 && s.domain[1].args[0] == Param(s.inputs[1])
    requires Aligned(s.domain, c) && Yield(s, 0, c) == Some(inst)
    ensures inst.stream == 0 && |inst.inputs| == 2
    ensures inst.inputs[0] == c[0].args[0] && inst.inputs[1] == c[1].args[0]
  {
    YieldReadsInput(s, 0, c, 0, 0, 0);
    YieldReadsInput(s, 0, c, 1, 1, 0);
  }

  /** A combination of the pair stream drawn from `P(a)`, `P(b)` is two of those heads. */
  lemma PairCombo(s: Stream, pred: string, x: string, y: string, a: Obj, b: Obj, c: seq<Head>)
    requires PairShape(s, pred, x, y)
    requires KnownCombo(s, {Head(pred, [a]), Head(pred, [b])}, c)
    ensures Aligned(s.domain, c) && |c| == 2
    ensures c[0] in {Head(pred, [a]), Head(pred, [b])} && c[1] in {Head(pred, [a]), Head(pred, [b])}
  {
    assert c[0] in {Head(pred, [a]), Head(pred, [b])};
    assert c[1] in {Head(pred, [a]), Head(pred, [b])};
  }

  /** Reading one object off each of two heads among `P(a)`, `P(b)` gives one of four pairs. */
  lemma PairSquare(pred: string, a: Obj, b: Obj, c: seq<Head>, inst: Instance)
    requires |c| == 2 && c[0] in {Head(pred, [a]), Head(pred, [b])} && c[1] in {Head(pred, [a]), Head(pred, [b])}
    requires inst.stream == 0 && |inst.inputs| == 2
    requires inst.inputs[0] == c[0].args[0] && inst.inputs[1] == c[1].args[0]
    ensures inst in {Instance(0, [a, a]), Instance(0, [a, b]), Instance(0, [b, a]), Instance(0, [b, b])}
  {
    assert inst.inputs == [inst.inputs[0], inst.inputs[1]];
  }

  /** The pair stream's instance of two heads among `P(a)`, `P(b)` is one of the four pairs. */
  lemma PairOfKnown(s: Stream, pred: string, x: string, y: string, a: Obj, b: Obj, c: seq<Head>, inst: Instance)
    requires PairShape(s, pred, x, y) && InputsGrounded(s)
    requires KnownCombo(s, {Head(pred, [a]), Head(pred, [b])}, c) && Yield(s, 0, c) == Some(inst)
    ensures inst in {Instance(0, [a, a]), Instance(0, [a, b]), Instance(0, [b, a]), Instance(0, [b, b])}
  {
    PairShapeFacts(s, pred, x, y);
    PairCombo(s, pred, x, y, a, b, c);
    PairReads(s, c, inst);
    PairSquare(pred, a, b, c, inst);
  }

  /** Over the pair stream, every pairing of the known heads `P(a)`, `P(b)` is derivable. */
  lemma PairsDerivable(streams: seq<Stream>, pred: string, x: string, y: string, a: Obj, b: Obj, u: Obj, v: Obj)
    requires WellFormed(streams) && |streams| == 1 && PairShape(streams[0], pred, x, y)
    requires u in {a, b} && v in {a, b}
    ensures Derivable(streams, {Head(pred, [a]), Head(pred, [b])}, Instance(0, [u, v]))
  {
    var s := streams[0];
    var c := [Head(pred, [u]), Head(pred, [v])];
    PairYield(s, pred, x, y, u, v);
    assert c[0] in {Head(pred, [a]), Head(pred, [b])} && c[1] in {Head(pred, [a]), Head(pred, [b])};
    assert KnownCombo(s, {Head(pred, [a]), Head(pred, [b])}, c);
    DerivedBy(streams, {Head(pred, [a]), Head(pred, [b])}, c, Instance(0, [u, v]));
  }

  /** Over the pair stream, only pairings of the known heads `P(a)`, `P(b)` are derivable. */
  lemma OnlyPairsDerivable(streams: seq<Stream>, pred: string, x: string, y: string, a: Obj, b: Obj, inst: Instance)
    requires WellFormed(streams) && |streams| == 1 && PairShape(streams[0], pred, x, y)
    requires Derivable(streams, {Head(pred, [a]), Head(pred, [b])}, inst)
    ensures inst in {Instance(0, [a, a]), Instance(0, [a, b]), Instance(0, [b, a]), Instance(0, [b, b])}
  {
    var s := streams[0];
    assert InputsGrounded(s);
    forall c | KnownCombo(s, {Head(pred, [a]), Head(pred, [b])}, c) && Yield(s, 0, c) == Some(inst)
      ensures inst in {Instance(0, [a, a]), Instance(0, [a, b]), Instance(0, [b, a]), Instance(0, [b, b])}
    {
      PairOfKnown(s, pred, x, y, a, b, c, inst);
    }
  }

  /** Over the pair stream, the derivable instances are exactly the pairings of `a` and `b`. */
  lemma PairDerivableSet(streams: seq<Stream>, pred: string, x: string, y: string, a: Obj, b: Obj)
    requires WellFormed(streams) && |streams| == 1 && PairShape(streams[0], pred, x, y)
    ensures forall inst :: Derivable(streams, {Head(pred, [a]), Head(pred, [b])}, inst) <==>
      inst in {Instance(0, [a, a]), Instance(0, [a, b]), Instance(0, [b, a]), Instance(0, [b, b])}
  {
    forall inst | Derivable(streams, {Head(pred, [a]), Head(pred, [b])}, inst)
      ensures inst in {Instance(0, [a, a]), Instance(0, [a, b]), Instance(0, [b, a]), Instance(0, [b, b])}
    {
      OnlyPairsDerivable(streams, pred, x, y, a, b, inst);
    }
    PairsDerivable(streams, pred, x, y, a, b, a, a);
    PairsDerivable(streams, pred, x, y, a, b, a, b);
    PairsDerivable(streams, pred, x, y, a, b, b, a);
    PairsDerivable(streams, pred, x, y, a, b, b, b);
  }

  /**
   An engine over the pair stream `P(?x), P(?y)` that knows exactly `P(a)` and `P(b)` has created
   exactly the four instances `(a, a)`, `(a, b)`, `(b, a)`, `(b, b)`: nothing in the domain
   forbids `x = y`.
   */
  lemma SelfPairing(e: Engine, pred: string, x: string, y: string, a: Obj, b: Obj)
    requires Valid(e) && |e.streams| == 1 && PairShape(e.streams[0], pred, x, y)
    requires e.atoms == {Head(pred, [a]), Head(pred, [b])}
    ensures e.instances == {Instance(0, [a, a]), Instance(0, [a, b]), Instance(0, [b, a]), Instance(0, [b, b])}
  {
    Characterization(e);
    PairDerivableSet(e.streams, pred, x, y, a, b);
    SameMembers(e.instances, {Instance(0, [a, a]), Instance(0, [a, b]), Instance(0, [b, a]), Instance(0, [b, b])});
  }

  // ---------------------------------------------------------------- the join stream

  /** A stream with inputs `x`, `y` and domain `P(?x), Q(?x, ?y)`. */
  ghost predicate JoinShape(s: Stream, p: string, q: string, x: string, y: string)
  {
    x != y && s.inputs == [x, y] && s.domain == [Atom(p, [Param(x)]), Atom(q, [Param(x), Param(y)])]
  }

  /** The join stream reads `x` off both facts and `y` off the second. */
  lemma JoinShapeFacts(s: Stream, p: string, q: string, x: string, y: string)
    requires JoinShape(s, p, q, x, y)
    ensures InputsGrounded(s) && |s.inputs| == 2 && |s.domain| == 2
    ensures |s.domain[0].args| == 1 && s.domain[0].args[0] == Param(s.inputs[0])
    ensures |s.domain[1].args| == 2 && s.domain[1].args[0] == Param(s.inputs[0])
    ensures s.domain[1].args[1] == Param(s.inputs[1]) && s.inputs[0] != s.inputs[1]
  {
    assert Param(x) in s.domain[0].args;
    assert Param(y) in s.domain[1].args;
  }

  /** `P(a)`, `Q(a, b)` agree on the one symbol the join stream's facts share. */
  lemma JoinNoConflict(s: Stream, p: string, q: string, x: string, y: string, a: Obj, b: Obj)
    requires JoinShape(s, p, q, x, y)
    ensures SameShape(s.domain, [Head(p, [a]), Head(q, [a, b])])
    ensures !Conflict(s.domain, [Head(p, [a]), Head(q, [a, b])])
  {
    var c := [Head(p, [a]), Head(q, [a, b])];
    assert s.domain[0].args[0] == s.domain[1].args[0] && c[0].args[0] == c[1].args[0];
    assert s.domain[1].args[1] != s.domain[0].args[0];
  }

  /**
   A two-input stream reading its first input off the first argument of each fact and its second
   off the second argument of the second fact: the instance carries those objects, in that order.
   */
  lemma JoinReads(s: Stream, c: seq<Head>)
    requires InputsGrounded(s) && |s.inputs| == 2 && |s.domain| == 2
    requires |s.domain[0].args| == 1 && s.domain[0].args[0] == Param(s.inputs[0])
    requires |s.domain[1].args| == 2 && s.domain[1].args[1] == Param(s.inputs[1])
    requires Aligned(s.domain, c) && Yield(s, 0, c).Some?
    ensures Yield(s, 0, c).value.stream == 0 && |Yield(s, 0, c).value.inputs| == 2
    ensures Yield(s, 0, c).value.inputs[0] == c[0].args[0] && Yield(s, 0, c).value.inputs[1] == c[1].args[1]
  {
    YieldReadsInput(s, 0, c, 0, 0, 0);
    YieldReadsInput(s, 0, c, 1, 1, 1);
  }

  /** The join stream turns `P(a)`, `Q(a, b)` into its instance with inputs `a`, `b`. */
  lemma JoinYield(s: Stream, p: string, q: string, x: string, y: string, a: Obj, b: Obj)
    requires JoinShape(s, p, q, x, y)
    ensures InputsGrounded(s) && IsCombo(s, [Head(p, [a]), Head(q, [a, b])])
    ensures Yield(s, 0, [Head(p, [a]), Head(q, [a, b])]) == Some(Instance(0, [a, b]))
  {
    var c := [Head(p, [a]), Head(q, [a, b])];
    JoinShapeFacts(s, p, q, x, y);
    JoinNoConflict(s, p, q, x, y, a, b);
    assert IsCombo(s, c);
    JoinReads(s, c);
    TwoInputs(Yield(s, 0, c).value, a, b);
  }

  /** Knowing `P(a)` and `Q(a, b)`, the join stream derives its instance with inputs `a`, `b`. */
  lemma JoinDerivable(streams: seq<Stream>, atoms: set<Head>, p: string, q: string, x: string, y: string, a: Obj, b: Obj)
    requires WellFormed(streams) && |streams| == 1 && JoinShape(streams[0], p, q, x, y)
    requires Head(p, [a]) in atoms && Head(q, [a, b]) in atoms
    ensures Derivable(streams, atoms, Instance(0, [a, b]))
  {
    var c := [Head(p, [a]), Head(q, [a, b])];
    JoinYield(streams[0], p, q, x, y, a, b);
    assert KnownCombo(streams[0], atoms, c);
    DerivedBy(streams, atoms, c, Instance(0, [a, b]));
  }

  /**
   An engine over the join stream `P(?x), Q(?x, ?y)` that knows `P(a)` and `Q(a, b)` -- submitted
   in either order -- has created the instance with inputs `a`, `b`. The queue holds it at most
   once; exactly once while nothing has been popped.
   */
  lemma JoinEitherOrder(e: Engine, p: string, q: string, x: string, y: string, a: Obj, b: Obj)
    requires Valid(e) && |e.streams| == 1 && JoinShape(e.streams[0], p, q, x, y)
    requires Head(p, [a]) in e.atoms && Head(q, [a, b]) in e.atoms
    ensures Instance(0, [a, b]) in e.instances
    ensures multiset(e.queue)[Instance(0, [a, b])] <= 1
    ensures Undrained(e) ==> multiset(e.queue)[Instance(0, [a, b])] == 1
  {
    JoinDerivable(e.streams, e.atoms, p, q, x, y, a, b);
    DerivableIsCreated(e, Instance(0, [a, b]));
    QueuedOnce(e, Instance(0, [a, b]));
  }

  // ---------------------------------------------------------------- a literal constant

  /** A stream with input `x` and domain `P(?x, t)` for a literal object `t`. */
  ghost predicate ConstShape(s: Stream, pred: string, x: string, t: Obj)
  {
    s.inputs == [x] && s.domain == [Atom(pred, [Param(x), Const(t)])]
  }

  /** `P(a, t')` does not fit `P(?x, t)` when `t' != t`. */
  lemma ConstMisfit(s: Stream, pred: string, x: string, t: Obj, a: Obj, t': Obj)
    requires ConstShape(s, pred, x, t) && t' != t
    ensures InputsGrounded(s) && s.inputs != [] && |s.domain| == 1
    ensures forall c :: IsCombo(s, c) ==> c[0] != Head(pred, [a, t'])
  {
    assert Param(x) in s.domain[0].args;
    assert s.domain[0].args[1] == Const(t);
    assert !Fits(s.domain[0], Head(pred, [a, t']));
  }

  /** Knowing only `P(a, t')`, nothing is derivable over `P(?x, t)`. */
  lemma NothingDerivable(streams: seq<Stream>, pred: string, x: string, t: Obj, a: Obj, t': Obj, inst: Instance)
    requires WellFormed(streams) && |streams| == 1 && ConstShape(streams[0], pred, x, t) && t' != t
    ensures !Derivable(streams, {Head(pred, [a, t'])}, inst)
  {
    var s := streams[0];
    ConstMisfit(s, pred, x, t, a, t');
    forall c | KnownCombo(s, {Head(pred, [a, t'])}, c)
      ensures c[0] in {Head(pred, [a, t'])} && c[0] != Head(pred, [a, t'])
    {
    }
  }

  /**
   An engine over the stream `P(?x, t)` that knows only `P(a, t')` with `t' != t` lists nothing
   under that slot and has created no instance.
   */
  lemma ConstantMismatch(e: Engine, pred: string, x: string, t: Obj, a: Obj, t': Obj)
    requires Valid(e) && |e.streams| == 1 && ConstShape(e.streams[0], pred, x, t)
    requires t' != t && e.atoms == {Head(pred, [a, t'])}
    ensures Slot(e, 0, 0) == [] && e.instances == {}
  {
    ConstMisfit(e.streams[0], pred, x, t, a, t');
    assert !Fits(e.streams[0].domain[0], Head(pred, [a, t'])) by {
      assert !IsCombo(e.streams[0], [Head(pred, [a, t'])]);
    }
    forall g | g in Slot(e, 0, 0)
      ensures g in e.atoms && Fits(e.streams[0].domain[0], g)
    {
    }
    NoMemberEmpty(Slot(e, 0, 0));
    Characterization(e);
    forall inst | inst in e.instances
      ensures false
    {
      NothingDerivable(e.streams, pred, x, t, a, t', inst);
    }
  }
}
