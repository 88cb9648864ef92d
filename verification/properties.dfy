/**
 What the instantiator guarantees across calls: the created instances are exactly those derivable
 from the streams and the set of known heads, so they do not depend on the order in which atoms
 arrive; re-submitting an atom changes nothing; seeds are queued exactly once; literal constants
 filter the index; and two worked scenarios.
 */
module Properties {
  import opened Wrappers
  import opened Facts
  import opened Unify
  import opened Instantiator

  /** `c` is a combination of stream `s` made only of known heads. */
  ghost predicate KnownCombo(s: Stream, atoms: set<Head>, c: seq<Head>)
  {
    IsCombo(s, c) && forall k :: 0 <= k < |c| ==> c[k] in atoms
  }

  /**
   The instances derivable from `streams` and the known heads `atoms`: the empty-input instance of
   every stream without inputs, and the instance read off every unifying combination of known heads.
   */
  ghost predicate Derivable(streams: seq<Stream>, atoms: set<Head>, x: Instance)
    requires WellFormed(streams)
  {
    x.stream < |streams| &&
    ((streams[x.stream].inputs == [] && x.inputs == []) ||
     exists c :: KnownCombo(streams[x.stream], atoms, c) && Yield(streams[x.stream], x.stream, c) == Some(x))
  }

  /** A created instance is derivable: its combination draws only known heads. */
  lemma CreatedIsDerivable(e: Engine, x: Instance)
    requires Valid(e) && x in e.instances
    ensures Derivable(e.streams, e.atoms, x)
  {
    assert Justified(e, x);
    if !(e.streams[x.stream].inputs == [] && x.inputs == []) {
      var c :| SlotCombo(e, x.stream, c) && IsCombo(e.streams[x.stream], c) &&
        Yield(e.streams[x.stream], x.stream, c) == Some(x);
      forall k | 0 <= k < |c|
        ensures c[k] in e.atoms
      {
        assert c[k] in Slot(e, x.stream, k);
      }
      assert KnownCombo(e.streams[x.stream], e.atoms, c);
    }
  }

  /** A derivable instance is created: its combination sits in the current slot lists. */
  lemma DerivableIsCreated(e: Engine, x: Instance)
    requires Valid(e) && Derivable(e.streams, e.atoms, x)
    ensures x in e.instances
  {
    if !(e.streams[x.stream].inputs == [] && x.inputs == []) {
      var s := e.streams[x.stream];
      var c :| KnownCombo(s, e.atoms, c) && Yield(s, x.stream, c) == Some(x);
      forall k | 0 <= k < |c|
        ensures c[k] in Slot(e, x.stream, k)
      {
        assert c[k] in e.atoms && Fits(s.domain[k], c[k]);
      }
      assert SlotCombo(e, x.stream, c);
    }
  }

  /**
   Between calls, the engine has created exactly the derivable instances: none is missed (the
   semi-naive join finds every combination) and none is invented.
   */
  lemma Characterization(e: Engine)
    requires Valid(e)
    ensures forall x :: x in e.instances <==> Derivable(e.streams, e.atoms, x)
  {
    forall x
      ensures x in e.instances <==> Derivable(e.streams, e.atoms, x)
    {
      if x in e.instances {
        CreatedIsDerivable(e, x);
      }
      if Derivable(e.streams, e.atoms, x) {
        DerivableIsCreated(e, x);
      }
    }
  }

  /** No missed combination: every unifying combination of known heads has its instance created. */
  lemma NoMissedCombination(e: Engine, i: nat, c: seq<Head>)
    requires Valid(e) && i < |e.streams|
    requires KnownCombo(e.streams[i], e.atoms, c) && Yield(e.streams[i], i, c).Some?
    ensures Yield(e.streams[i], i, c).value in e.instances
  {
    Characterization(e);
    assert Derivable(e.streams, e.atoms, Yield(e.streams[i], i, c).value);
  }

  /**
   Two engines over the same streams that know the same heads have created the same instances,
   whatever order the heads arrived in; if neither queue has been popped, they queue the same
   instances.
   */
  lemma OrderIndependence(e1: Engine, e2: Engine)
    requires Valid(e1) && Valid(e2)
    requires e1.streams == e2.streams && e1.atoms == e2.atoms
    ensures e1.instances == e2.instances
    ensures Undrained(e1) && Undrained(e2) ==> forall x :: x in e1.queue <==> x in e2.queue
  {
    Characterization(e1);
    Characterization(e2);
  }

  /** Building the engine from two evaluation lists with the same atoms yields the same instances. */
  lemma InitOrderIndependence(streams: seq<Stream>, evs1: seq<Evaluation>, evs2: seq<Evaluation>)
    requires WellFormed(streams)
    requires forall ev :: ev in evs1 && ev.isAtom ==> ArityAgrees(streams, ev.head)
    requires forall ev :: ev in evs2 && ev.isAtom ==> ArityAgrees(streams, ev.head)
    requires AtomHeads(evs1) == AtomHeads(evs2)
    ensures Init(streams, evs1).instances == Init(streams, evs2).instances
  {
    OrderIndependence(Init(streams, evs1), Init(streams, evs2));
  }

  /** `_add_instance` twice with the same arguments: the second call reports false and changes nothing. */
  lemma AddInstanceIdempotent(e: Engine, x: Instance)
    ensures var once := AddInstance(e, x).engine;
      AddInstance(once, x) == Outcome(once, false)
  {
  }

  /** `add_atom` twice with the same evaluation: the second call reports false and changes nothing. */
  lemma AddAtomIdempotent(e: Engine, ev: Evaluation)
    requires Valid(e)
    requires ev.isAtom && ev.head !in e.atoms ==> ArityAgrees(e.streams, ev.head)
    ensures var once := AddAtom(e, ev).engine;
      AddAtom(once, ev) == Outcome(once, false)
  {
  }

  /** A head that disagrees with a literal constant of a domain fact is never listed under that slot. */
  lemma ConstantFilters(e: Engine, i: nat, k: nat, p: nat, h: Head)
    requires Valid(e) && i < |e.streams| && k < |e.streams[i].domain|
    requires p < |e.streams[i].domain[k].args| && p < |h.args|
    requires e.streams[i].domain[k].args[p].Const? && e.streams[i].domain[k].args[p].obj != h.args[p]
    ensures h !in Slot(e, i, k)
  {
  }

  /**
   A stream without inputs is never queued again, whatever atom arrives: its instance occurs in
   the queue as often as before, at most once, and exactly once while nothing has been popped.
   */
  lemma SeedsSurviveAddAtom(e: Engine, ev: Evaluation, i: nat)
    requires Valid(e)
    requires ev.isAtom && ev.head !in e.atoms ==> ArityAgrees(e.streams, ev.head)
    requires i < |e.streams| && e.streams[i].inputs == []
    ensures var q := AddAtom(e, ev).engine.queue;
      multiset(q)[Instance(i, [])] == multiset(e.queue)[Instance(i, [])] <= 1
    ensures Undrained(e) ==> multiset(AddAtom(e, ev).engine.queue)[Instance(i, [])] == 1
  {
    var r := AddAtom(e, ev).engine;
    var tail := r.queue[|e.queue|..];
    assert r.queue == e.queue + tail;
    assert Instance(i, []) !in tail;
    DistinctAtMostOnce(e.queue, Instance(i, []));
    if Undrained(e) {
      SeedsQueuedOnce(e);
    }
  }

  /**
   A consumer that pops the front of the queue leaves a valid engine, so every guarantee of
   `AddAtom` still holds for the atoms that arrive afterwards.
   */
  lemma PopKeepsValid(e: Engine)
    requires Valid(e) && |e.queue| > 0
    ensures Valid(e.(queue := e.queue[1..]))
  {
    var r := e.(queue := e.queue[1..]);
    assert forall x :: x in r.queue ==> x in e.queue;
    assert forall i: nat, k: nat :: Slot(r, i, k) == Slot(e, i, k);
  }
}
