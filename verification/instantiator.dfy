/**
 The dynamic stream instantiator (class `Instantiator`). The engine keeps the heads of the atoms
 seen so far, for every (stream, domain slot) the list of those heads that fit the slot, the set
 of stream instances already created, and the queue of created instances in creation order.
 Every new atom is appended to each slot it fits, and for each such slot the engine joins the new
 head with the current lists of the stream's other slots (semi-naive evaluation), unifies every
 resulting tuple with the stream's domain and enqueues each instance it has not seen before.
 */
module Instantiator {
  import opened Wrappers
  import opened Facts
  import opened Unify
  import opened Combinations

  /** The state of one `Instantiator` object; `index` is `atoms_from_domain`. */
  datatype Engine = Engine(
    streams: seq<Stream>,
    atoms: set<Head>,
    index: map<(nat, nat), seq<Head>>,
    instances: set<Instance>,
    queue: seq<Instance>)

  /** A new engine state together with the operation's boolean result. */
  datatype Outcome = Outcome(engine: Engine, changed: bool)

  /** `atoms_from_domain[(i, j)]`; a missing key of the `defaultdict` reads as the empty list. */
  function Slot(e: Engine, i: nat, j: nat): seq<Head>
  {
    if (i, j) in e.index then e.index[(i, j)] else []
  }

  /**
   Head `h` fits domain fact `fact`: same predicate and every literal constant of the fact equals
   the object at its position (lines 68-72). The arity conjunct stands for `safe_zip`, which raises
   on a length mismatch; under `ArityAgrees` it follows from the predicate test.
   */
  predicate Fits(fact: Atom, h: Head)
  {
    h.pred == fact.pred && |h.args| == |fact.args| &&
    forall k :: 0 <= k < |h.args| && fact.args[k].Const? ==> fact.args[k].obj == h.args[k]
  }

  /** Every domain fact with the predicate of `h` has the arity of `h`, so `safe_zip` never raises. */
  ghost predicate ArityAgrees(streams: seq<Stream>, h: Head)
  {
    forall i, j :: 0 <= i < |streams| && 0 <= j < |streams[i].domain| && streams[i].domain[j].pred == h.pred ==>
      |streams[i].domain[j].args| == |h.args|
  }

  /** Every stream's inputs occur in its domain, so `mapping[p]` never raises a `KeyError`. */
  ghost predicate WellFormed(streams: seq<Stream>)
  {
    forall i :: 0 <= i < |streams| ==> InputsGrounded(streams[i])
  }

  /** `c` has one head per domain fact of `s` and each head fits its fact. */
  predicate IsCombo(s: Stream, c: seq<Head>)
  {
    |c| == |s.domain| && forall k :: 0 <= k < |c| ==> Fits(s.domain[k], c[k])
  }

  /** `tuple(mapping[p] for p in stream.inputs)` (line 54). */
  function ReadInputs(m: Mapping, inputs: seq<string>): seq<Obj>
    requires forall k :: 0 <= k < |inputs| ==> Param(inputs[k]) in m
  {
    seq(|inputs|, k requires 0 <= k < |inputs| => m[Param(inputs[k])])
  }

  /**
   What one tuple `c` of the product contributes (lines 51-55): nothing when it does not unify
   with the domain, otherwise the instance of stream `i` whose inputs are read off the mapping.
   Each input object is the object found wherever that input parameter occurs in the domain.
   */
  function Yield(s: Stream, i: nat, c: seq<Head>): (r: Option<Instance>)
    requires InputsGrounded(s) && Aligned(s.domain, c)
    ensures r.Some? ==> r.value.stream == i && |r.value.inputs| == |s.inputs|
    ensures r.Some? ==> forall k, a, b ::
              (0 <= k < |s.inputs| && 0 <= a < |s.domain| && 0 <= b < |s.domain[a].args| &&
               s.domain[a].args[b] == Param(s.inputs[k])) ==> r.value.inputs[k] == c[a].args[b]
    ensures r.None? <==> Conflict(s.domain, c)
  {
    match GetMapping(s.domain, c)
    case None => None
    case Some(m) => Some(Instance(i, ReadInputs(m, s.inputs)))
  }

  /**
   The queue lists created instances only, each at most once. A consumer may have popped
   instances off its front, so it need not list every created instance.
   */
  ghost predicate QueueInv(e: Engine)
  {
    Distinct(e.queue) && forall x :: x in e.queue ==> x in e.instances
  }

  /** No instance has been popped yet: the queue lists every created instance. */
  ghost predicate Undrained(e: Engine)
  {
    forall x :: x in e.instances ==> x in e.queue
  }

  /**
   From `e` to `r` the created instances only grow, and the queue grows at its back by exactly
   the newly created instances.
   */
  ghost predicate Appends(e: Engine, r: Engine)
  {
    e.instances <= r.instances && e.queue <= r.queue &&
    forall x :: x in r.queue[|e.queue|..] <==> x in r.instances && x !in e.instances
  }

  /** Two steps that each append their new instances append the new instances of both. */
  lemma AppendsTrans(e: Engine, m: Engine, r: Engine)
    requires Appends(e, m) && Appends(m, r)
    ensures Appends(e, r)
  {
    assert r.queue[|e.queue|..] == m.queue[|e.queue|..] + r.queue[|m.queue|..];
  }

  /** Appending the new instances keeps an undrained queue undrained. */
  lemma AppendsKeepsUndrained(e: Engine, r: Engine)
    requires Undrained(e) && Appends(e, r)
    ensures Undrained(r)
  {
    forall x | x in r.instances
      ensures x in r.queue
    {
      if x !in e.instances {
        assert x in r.queue[|e.queue|..];
      }
    }
  }

  /**
   `_add_instance` (lines 40-46): reports whether the instance is new; a new instance joins the
   set and the back of the queue, a known one changes nothing.
   */
  function AddInstance(e: Engine, inst: Instance): (r: Outcome)
    ensures r.changed <==> inst !in e.instances
    ensures r.engine.instances == e.instances + {inst}
    ensures r.engine.queue == if r.changed then e.queue + [inst] else e.queue
    ensures r.engine == e.(instances := r.engine.instances, queue := r.engine.queue)
    ensures Appends(e, r.engine)
    ensures QueueInv(e) ==> QueueInv(r.engine)
  {
    if inst in e.instances then Outcome(e, false)
    else Outcome(e.(instances := e.instances + {inst}, queue := e.queue + [inst]), true)
  }

  /** The loop of `_add_combinations` (lines 50-55) over the tuples `combos`, in order. */
  function AddEach(e: Engine, i: nat, combos: seq<seq<Head>>): (r: Engine)
    requires i < |e.streams| && InputsGrounded(e.streams[i])
    requires forall n :: 0 <= n < |combos| ==> Aligned(e.streams[i].domain, combos[n])
    ensures r == e.(instances := r.instances, queue := r.queue)
    ensures forall x :: x in r.instances <==>
              x in e.instances || exists n :: 0 <= n < |combos| && Yield(e.streams[i], i, combos[n]) == Some(x)
    ensures Appends(e, r)
    ensures QueueInv(e) ==> QueueInv(r)
    decreases |combos|
  {
    if |combos| == 0 then e
    else
      var y := Yield(e.streams[i], i, combos[0]);
      var e1 := if y.Some? then AddInstance(e, y.value).engine else e;
      var r := AddEach(e1, i, combos[1..]);
      AddEachStep(e, i, combos, e1, r);
      AppendsTrans(e, e1, r);
      r
  }

  /** One iteration of `AddEach`: the first tuple's instance, then those of the remaining tuples. */
  lemma AddEachStep(e: Engine, i: nat, combos: seq<seq<Head>>, e1: Engine, r: Engine)
    requires i < |e.streams| && InputsGrounded(e.streams[i]) && |combos| > 0
    requires forall n :: 0 <= n < |combos| ==> Aligned(e.streams[i].domain, combos[n])
    requires e1.streams == e.streams
    requires forall x :: x in e1.instances <==> x in e.instances || Yield(e.streams[i], i, combos[0]) == Some(x)
    requires forall x :: x in r.instances <==>
               x in e1.instances || exists n :: 0 <= n < |combos[1..]| && Yield(e.streams[i], i, combos[1..][n]) == Some(x)
    ensures forall x :: x in r.instances <==>
              x in e.instances || exists n :: 0 <= n < |combos| && Yield(e.streams[i], i, combos[n]) == Some(x)
  {
    var s := e.streams[i];
    forall x
      ensures x in r.instances <==> x in e.instances || exists n :: 0 <= n < |combos| && Yield(s, i, combos[n]) == Some(x)
    {
      if exists n :: 0 <= n < |combos[1..]| && Yield(s, i, combos[1..][n]) == Some(x) {
        var n :| 0 <= n < |combos[1..]| && Yield(s, i, combos[1..][n]) == Some(x);
        assert combos[1..][n] == combos[n + 1];
      }
      if exists n :: 0 <= n < |combos| && Yield(s, i, combos[n]) == Some(x) {
        var n :| 0 <= n < |combos| && Yield(s, i, combos[n]) == Some(x);
        if n > 0 {
          assert combos[1..][n - 1] == combos[n];
        }
      }
    }
  }

  /** Every tuple drawn from lists whose heads fit their slots is a combination of the stream. */
  lemma DrawnIsCombo(s: Stream, values: seq<seq<Head>>)
    requires |values| == |s.domain|
    requires forall k, h :: 0 <= k < |values| && h in values[k] ==> Fits(s.domain[k], h)
    ensures forall c :: c in Product(values) <==> Drawn(c, values)
    ensures forall c :: Drawn(c, values) ==> IsCombo(s, c) && Aligned(s.domain, c)
  {
    ProductIsDrawn(values);
  }

  /**
   `_add_combinations(stream, values)` (lines 48-55) for stream `i`: afterwards every tuple drawn
   from `values` that unifies has its instance created, and every newly created instance comes
   from such a tuple.
   */
  function AddCombinations(e: Engine, i: nat, values: seq<seq<Head>>): (r: Engine)
    requires i < |e.streams| && InputsGrounded(e.streams[i])
    requires |values| == |e.streams[i].domain|
    requires forall k, h :: 0 <= k < |values| && h in values[k] ==> Fits(e.streams[i].domain[k], h)
    ensures r == e.(instances := r.instances, queue := r.queue)
    ensures forall c :: Drawn(c, values) ==>
              IsCombo(e.streams[i], c) && Aligned(e.streams[i].domain, c) &&
              (Yield(e.streams[i], i, c).Some? ==> Yield(e.streams[i], i, c).value in r.instances)
    ensures forall x :: x in r.instances ==>
              x in e.instances ||
              exists c :: Drawn(c, values) && Aligned(e.streams[i].domain, c) && Yield(e.streams[i], i, c) == Some(x)
    ensures Appends(e, r)
    ensures QueueInv(e) ==> QueueInv(r)
  {
    DrawnIsCombo(e.streams[i], values);
    var combos := Product(values);
    assert forall n :: 0 <= n < |combos| ==> combos[n] in combos;
    AddEach(e, i, combos)
  }

  /** `c` draws its `k`-th head from the current list of slot `(i, k)`, for every slot of stream `i`. */
  ghost predicate SlotCombo(e: Engine, i: nat, c: seq<Head>)
    requires i < |e.streams|
  {
    |c| == |e.streams[i].domain| && forall k :: 0 <= k < |c| ==> c[k] in Slot(e, i, k)
  }

  /** Every listed head fits the slot it is listed under. */
  ghost predicate SlotsFit(e: Engine)
  {
    forall i, k, h :: 0 <= i < |e.streams| && 0 <= k < |e.streams[i].domain| && h in Slot(e, i, k) ==>
      Fits(e.streams[i].domain[k], h)
  }

  /** Every stream without inputs has been instantiated with the empty input tuple (lines 34-36). */
  ghost predicate Seeded(e: Engine)
  {
    forall i :: 0 <= i < |e.streams| && e.streams[i].inputs == [] ==> Instance(i, []) in e.instances
  }

  /** No combination of the current slot lists is missed: each one that unifies has its instance. */
  ghost predicate Complete(e: Engine)
    requires WellFormed(e.streams)
  {
    forall i, c :: (0 <= i < |e.streams| && SlotCombo(e, i, c) && IsCombo(e.streams[i], c) &&
      Yield(e.streams[i], i, c).Some?) ==> Yield(e.streams[i], i, c).value in e.instances
  }

  /** Instance `x` is a zero-input seed or comes from a combination of the current slot lists. */
  ghost predicate Justified(e: Engine, x: Instance)
    requires WellFormed(e.streams)
  {
    x.stream < |e.streams| &&
    ((e.streams[x.stream].inputs == [] && x.inputs == []) ||
     exists c :: SlotCombo(e, x.stream, c) && IsCombo(e.streams[x.stream], c) &&
       Yield(e.streams[x.stream], x.stream, c) == Some(x))
  }

  /** Every created instance is justified. */
  ghost predicate Sound(e: Engine)
    requires WellFormed(e.streams)
  {
    forall x :: x in e.instances ==> Justified(e, x)
  }

  /** The invariant that holds between any two steps of the engine's own loops. */
  ghost predicate Core(e: Engine)
  {
    WellFormed(e.streams) && SlotsFit(e) && QueueInv(e) && Seeded(e) && Complete(e) && Sound(e)
  }

  /** A slot lists exactly the known heads that fit it. */
  ghost predicate IndexExact(e: Engine)
  {
    forall i, k, h :: 0 <= i < |e.streams| && 0 <= k < |e.streams[i].domain| ==>
      (h in Slot(e, i, k) <==> h in e.atoms && Fits(e.streams[i].domain[k], h))
  }

  /** No slot lists a head twice. */
  ghost predicate SlotsDistinct(e: Engine)
  {
    forall i, k :: 0 <= i < |e.streams| && 0 <= k < |e.streams[i].domain| ==> Distinct(Slot(e, i, k))
  }

  /** The invariant of the engine between calls of `add_atom`. */
  ghost predicate Valid(e: Engine)
  {
    Core(e) && IndexExact(e) && SlotsDistinct(e)
  }

  /**
   The candidate lists of lines 74-75 for the slot `(i, j)` that `h` just joined: `[h]` at slot
   `j`, the current list of every other slot.
   */
  function TriggerValues(e: Engine, h: Head, i: nat, j: nat): (values: seq<seq<Head>>)
    requires i < |e.streams| && j < |e.streams[i].domain|
    ensures |values| == |e.streams[i].domain| && values[j] == [h]
    ensures forall k :: 0 <= k < |values| && k != j ==> values[k] == Slot(e, i, k)
  {
    seq(|e.streams[i].domain|, k requires 0 <= k < |e.streams[i].domain| => if k == j then [h] else Slot(e, i, k))
  }

  /**
   The tuples drawn from the candidate lists of slot `(i, j)` are exactly the combinations of the
   current slot lists that have `h` at position `j`: every tuple tried includes the new head, and
   no combination that includes it at `j` is skipped.
   */
  lemma TriggerValuesShape(e: Engine, h: Head, i: nat, j: nat)
    requires i < |e.streams| && j < |e.streams[i].domain| && h in Slot(e, i, j)
    ensures forall c :: Drawn(c, TriggerValues(e, h, i, j)) <==> SlotCombo(e, i, c) && c[j] == h
  {
    var values := TriggerValues(e, h, i, j);
    forall c | SlotCombo(e, i, c) && c[j] == h
      ensures Drawn(c, values)
    {
      forall k | 0 <= k < |c|
        ensures c[k] in values[k]
      {
      }
    }
  }

  /** Lines 73-76 for one slot `(i, j)` that `h` fits: append `h` to its list and join. */
  function Trigger(e: Engine, h: Head, i: nat, j: nat): (r: Engine)
    requires WellFormed(e.streams) && SlotsFit(e)
    requires i < |e.streams| && j < |e.streams[i].domain| && Fits(e.streams[i].domain[j], h)
    ensures r.streams == e.streams && r.atoms == e.atoms
    ensures forall i': nat, k: nat :: Slot(r, i', k) == if i' == i && k == j then Slot(e, i, j) + [h] else Slot(e, i', k)
    ensures Appends(e, r)
  {
    var e1 := e.(index := e.index[(i, j) := Slot(e, i, j) + [h]]);
    AddCombinations(e1, i, TriggerValues(e1, h, i, j))
  }

  /** A combination of the lists after `Trigger` that uses `h` at slot `j` is one `Trigger` joined. */
  lemma TriggerJoinsNew(e: Engine, h: Head, i: nat, j: nat, c: seq<Head>)
    requires WellFormed(e.streams) && SlotsFit(e)
    requires i < |e.streams| && j < |e.streams[i].domain| && Fits(e.streams[i].domain[j], h)
    requires SlotCombo(Trigger(e, h, i, j), i, c) && c[j] == h
    ensures Drawn(c, TriggerValues(e.(index := e.index[(i, j) := Slot(e, i, j) + [h]]), h, i, j))
  {
    var e1 := e.(index := e.index[(i, j) := Slot(e, i, j) + [h]]);
    var values := TriggerValues(e1, h, i, j);
    var r := Trigger(e, h, i, j);
    forall k | 0 <= k < |c|
      ensures c[k] in values[k]
    {
      if k != j {
        assert c[k] in Slot(r, i, k);
      }
    }
  }

  /** A combination of the lists after `Trigger` that does not use `h` at slot `j` was there before. */
  lemma TriggerKeepsOld(e: Engine, h: Head, i: nat, j: nat, i': nat, c: seq<Head>)
    requires WellFormed(e.streams) && SlotsFit(e)
    requires i < |e.streams| && j < |e.streams[i].domain| && Fits(e.streams[i].domain[j], h)
    requires i' < |e.streams| && SlotCombo(Trigger(e, h, i, j), i', c) && !(i' == i && c[j] == h)
    ensures SlotCombo(e, i', c)
  {
    var r := Trigger(e, h, i, j);
    forall k | 0 <= k < |c|
      ensures c[k] in Slot(e, i', k)
    {
      assert c[k] in Slot(r, i', k);
      if i' == i && k == j {
        assert c[j] in Slot(e, i, j) + [h];
      }
    }
  }

  /** A step of `Trigger` misses no combination: those with `h` at slot `j` are exactly the ones it joins. */
  lemma TriggerComplete(e: Engine, h: Head, i: nat, j: nat)
    requires WellFormed(e.streams) && SlotsFit(e) && Complete(e)
    requires i < |e.streams| && j < |e.streams[i].domain| && Fits(e.streams[i].domain[j], h)
    ensures Complete(Trigger(e, h, i, j))
  {
    var e1 := e.(index := e.index[(i, j) := Slot(e, i, j) + [h]]);
    var values := TriggerValues(e1, h, i, j);
    var r := Trigger(e, h, i, j);
    assert r == AddCombinations(e1, i, values);
    forall i', c | 0 <= i' < |r.streams| && SlotCombo(r, i', c) && IsCombo(r.streams[i'], c) &&
        Yield(r.streams[i'], i', c).Some?
      ensures Yield(r.streams[i'], i', c).value in r.instances
    {
      if i' == i && c[j] == h {
        TriggerJoinsNew(e, h, i, j, c);
      } else {
        TriggerKeepsOld(e, h, i, j, i', c);
      }
    }
  }

  /** A justification survives any growth of the slot lists. */
  lemma JustifiedGrows(e: Engine, r: Engine, x: Instance)
    requires WellFormed(e.streams) && r.streams == e.streams
    requires forall i: nat, k: nat, g :: g in Slot(e, i, k) ==> g in Slot(r, i, k)
    requires Justified(e, x)
    ensures Justified(r, x)
  {
    if !(e.streams[x.stream].inputs == [] && x.inputs == []) {
      var c :| SlotCombo(e, x.stream, c) && IsCombo(e.streams[x.stream], c) &&
        Yield(e.streams[x.stream], x.stream, c) == Some(x);
      assert SlotCombo(r, x.stream, c);
    }
  }

  /** A step of `Trigger` only lengthens slot lists, and every head it joins is in the new lists. */
  lemma TriggerGrows(e: Engine, h: Head, i: nat, j: nat)
    requires WellFormed(e.streams) && SlotsFit(e)
    requires i < |e.streams| && j < |e.streams[i].domain| && Fits(e.streams[i].domain[j], h)
    ensures var r := Trigger(e, h, i, j);
      forall i': nat, k: nat, g :: g in Slot(e, i', k) ==> g in Slot(r, i', k)
    ensures var r := Trigger(e, h, i, j);
      var values := TriggerValues(e.(index := e.index[(i, j) := Slot(e, i, j) + [h]]), h, i, j);
      forall c :: Drawn(c, values) ==> SlotCombo(r, i, c)
  {
    var r := Trigger(e, h, i, j);
    var values := TriggerValues(e.(index := e.index[(i, j) := Slot(e, i, j) + [h]]), h, i, j);
    forall i': nat, k: nat, g | g in Slot(e, i', k)
      ensures g in Slot(r, i', k)
    {
      if i' == i && k == j {
        assert Slot(r, i, j) == Slot(e, i, j) + [h];
      }
    }
    forall c | Drawn(c, values)
      ensures SlotCombo(r, i, c)
    {
      forall k | 0 <= k < |c|
        ensures c[k] in Slot(r, i, k)
      {
        assert c[k] in values[k];
      }
    }
  }

  /** Every instance a step of `Trigger` creates comes from a combination of the new slot lists. */
  lemma TriggerSound(e: Engine, h: Head, i: nat, j: nat)
    requires WellFormed(e.streams) && SlotsFit(e) && Sound(e)
    requires i < |e.streams| && j < |e.streams[i].domain| && Fits(e.streams[i].domain[j], h)
    ensures Sound(Trigger(e, h, i, j))
  {
    var s := e.streams[i];
    var e1 := e.(index := e.index[(i, j) := Slot(e, i, j) + [h]]);
    var values := TriggerValues(e1, h, i, j);
    var r := Trigger(e, h, i, j);
    assert r == AddCombinations(e1, i, values);
    TriggerGrows(e, h, i, j);
    forall x | x in r.instances
      ensures Justified(r, x)
    {
      if x in e.instances {
        JustifiedGrows(e, r, x);
      } else {
        var c :| Drawn(c, values) && Aligned(s.domain, c) && Yield(s, i, c) == Some(x);
        assert SlotCombo(r, i, c);
      }
    }
  }

  /** A step of `Trigger` keeps the loop invariant. */
  lemma TriggerKeepsCore(e: Engine, h: Head, i: nat, j: nat)
    requires Core(e)
    requires i < |e.streams| && j < |e.streams[i].domain| && Fits(e.streams[i].domain[j], h)
    ensures Core(Trigger(e, h, i, j))
  {
    TriggerComplete(e, h, i, j);
    TriggerSound(e, h, i, j);
  }

  /** The inner loop of `add_atom` (lines 67-76) over the slots `j..` of stream `i`. */
  function ScanSlots(e: Engine, h: Head, i: nat, j: nat): (r: Engine)
    requires Core(e) && i < |e.streams| && j <= |e.streams[i].domain|
    ensures r.streams == e.streams && r.atoms == e.atoms
    ensures forall i': nat, k: nat :: Slot(r, i', k) ==
              if i' == i && j <= k < |e.streams[i].domain| && Fits(e.streams[i].domain[k], h)
              then Slot(e, i', k) + [h] else Slot(e, i', k)
    ensures Appends(e, r)
    ensures Core(r)
    decreases |e.streams[i].domain| - j
  {
    if j == |e.streams[i].domain| then e
    else if !Fits(e.streams[i].domain[j], h) then ScanSlots(e, h, i, j + 1)
    else
      TriggerKeepsCore(e, h, i, j);
      var m := Trigger(e, h, i, j);
      var r := ScanSlots(m, h, i, j + 1);
      AppendsTrans(e, m, r);
      r
  }

  /** The outer loop of `add_atom` (lines 66-76) over the streams `i..`. */
  function ScanStreams(e: Engine, h: Head, i: nat): (r: Engine)
    requires Core(e) && i <= |e.streams|
    ensures r.streams == e.streams && r.atoms == e.atoms
    ensures forall i': nat, k: nat :: Slot(r, i', k) ==
              if i <= i' < |e.streams| && k < |e.streams[i'].domain| && Fits(e.streams[i'].domain[k], h)
              then Slot(e, i', k) + [h] else Slot(e, i', k)
    ensures Appends(e, r)
    ensures Core(r)
    decreases |e.streams| - i
  {
    if i == |e.streams| then e
    else
      var m := ScanSlots(e, h, i, 0);
      var r := ScanStreams(m, h, i + 1);
      AppendsTrans(e, m, r);
      r
  }

  /**
   `add_atom` (lines 57-77). A non-atom and an already known head are refused with no change. A
   new head is recorded, appended to exactly the slots it fits, and joined with the other slots.
   */
  function AddAtom(e: Engine, ev: Evaluation): (r: Outcome)
    requires Valid(e)
    requires ev.isAtom && ev.head !in e.atoms ==> ArityAgrees(e.streams, ev.head)
    ensures !ev.isAtom ==> r == Outcome(e, false)
    ensures ev.isAtom && ev.head in e.atoms ==> r == Outcome(e, false)
    ensures ev.isAtom && ev.head !in e.atoms ==> r.changed && r.engine.atoms == e.atoms + {ev.head}
    ensures forall i: nat, k: nat :: Slot(r.engine, i, k) ==
              if r.changed && i < |e.streams| && k < |e.streams[i].domain| && Fits(e.streams[i].domain[k], ev.head)
              then Slot(e, i, k) + [ev.head] else Slot(e, i, k)
    ensures r.engine.streams == e.streams
    ensures Appends(e, r.engine)
    ensures Valid(r.engine)
  {
    if !ev.isAtom then Outcome(e, false)
    else if ev.head in e.atoms then Outcome(e, false)
    else
      var r := ScanStreams(e.(atoms := e.atoms + {ev.head}), ev.head, 0);
      AppendKeepsIndex(e, ev.head, r);
      Outcome(r, true)
  }

  /** Appending a new head to exactly the slots it fits keeps the index exact and duplicate-free. */
  lemma AppendKeepsIndex(e: Engine, h: Head, r: Engine)
    requires IndexExact(e) && SlotsDistinct(e) && h !in e.atoms
    requires r.streams == e.streams && r.atoms == e.atoms + {h}
    requires forall i: nat, k: nat :: Slot(r, i, k) ==
               if i < |e.streams| && k < |e.streams[i].domain| && Fits(e.streams[i].domain[k], h)
               then Slot(e, i, k) + [h] else Slot(e, i, k)
    ensures IndexExact(r) && SlotsDistinct(r)
  {
    forall i, k | 0 <= i < |r.streams| && 0 <= k < |r.streams[i].domain|
      ensures Distinct(Slot(r, i, k))
    {
      var old_ := Slot(e, i, k);
      assert forall a :: 0 <= a < |old_| ==> old_[a] in old_;
    }
  }

  /** An engine with no atoms, no index entries and no instances. */
  function Empty(streams: seq<Stream>): Engine
  {
    Engine(streams, {}, map[], {}, [])
  }

  /** The constructor's first loop (lines 34-36) over the streams `i..`: seed each stream without inputs. */
  function Seed(e: Engine, i: nat): (r: Engine)
    requires i <= |e.streams|
    ensures r == e.(instances := r.instances, queue := r.queue)
    ensures forall x :: x in r.instances <==>
              x in e.instances || (i <= x.stream < |e.streams| && e.streams[x.stream].inputs == [] && x.inputs == [])
    ensures Appends(e, r)
    ensures QueueInv(e) ==> QueueInv(r)
    decreases |e.streams| - i
  {
    if i == |e.streams| then e
    else if e.streams[i].inputs == [] then
      var m := AddInstance(e, Instance(i, [])).engine;
      var r := Seed(m, i + 1);
      AppendsTrans(e, m, r);
      r
    else Seed(e, i + 1)
  }

  /** A stream with an empty domain can have no inputs. */
  lemma NoDomainNoInputs(s: Stream)
    requires InputsGrounded(s)
    ensures s.domain == [] ==> s.inputs == []
  {
    assert |s.inputs| > 0 ==> Mentions(s.domain, Param(s.inputs[0]));
  }

  /** After seeding, a fresh engine satisfies the invariant. */
  lemma SeedValid(streams: seq<Stream>)
    requires WellFormed(streams)
    ensures Valid(Seed(Empty(streams), 0))
  {
    var e := Seed(Empty(streams), 0);
    forall i, c | 0 <= i < |e.streams| && SlotCombo(e, i, c) && IsCombo(e.streams[i], c) &&
        Yield(e.streams[i], i, c).Some?
      ensures Yield(e.streams[i], i, c).value in e.instances
    {
      assert e.index == map[];
      assert forall k: nat :: Slot(e, i, k) == [];
      assert |c| == 0;
      NoDomainNoInputs(streams[i]);
    }
  }

  /** The heads of the atoms among `evs`. */
  function AtomHeads(evs: seq<Evaluation>): set<Head>
  {
    set ev | ev in evs && ev.isAtom :: ev.head
  }

  /** The constructor's second loop (lines 37-38): `add_atom` on each evaluation in turn. */
  function Feed(e: Engine, evs: seq<Evaluation>): (r: Engine)
    requires Valid(e)
    requires forall ev :: ev in evs && ev.isAtom ==> ArityAgrees(e.streams, ev.head)
    ensures Valid(r) && r.streams == e.streams
    ensures r.atoms == e.atoms + AtomHeads(evs)
    ensures Appends(e, r)
    decreases |evs|
  {
    if |evs| == 0 then e
    else
      assert forall ev :: ev in evs[1..] ==> ev in evs;
      assert AtomHeads(evs) == AtomHeads(evs[..1]) + AtomHeads(evs[1..]) by {
        assert evs == evs[..1] + evs[1..];
      }
      var m := AddAtom(e, evs[0]).engine;
      var r := Feed(m, evs[1..]);
      AppendsTrans(e, m, r);
      r
  }

  /** A duplicate-free sequence holds each of its elements once. */
  lemma {:induction false} DistinctCount<T>(q: seq<T>, x: T)
    requires Distinct(q) && x in q
    ensures multiset(q)[x] == 1
    decreases |q|
  {
    assert q == [q[0]] + q[1..];
    assert Distinct(q[1..]);
    if q[0] == x {
      assert x !in q[1..];
    } else {
      DistinctCount(q[1..], x);
    }
  }

  /** A duplicate-free sequence holds any value at most once. */
  lemma DistinctAtMostOnce<T>(q: seq<T>, x: T)
    requires Distinct(q)
    ensures multiset(q)[x] <= 1
  {
    if x in q {
      DistinctCount(q, x);
    }
  }

  /**
   `Instantiator(evaluations, streams)` (lines 23-38): seed the streams without inputs, then add
   the evaluations. Each stream without inputs is queued exactly once, with no input objects.
   */
  function Init(streams: seq<Stream>, evaluations: seq<Evaluation>): (r: Engine)
    requires WellFormed(streams)
    requires forall ev :: ev in evaluations && ev.isAtom ==> ArityAgrees(streams, ev.head)
    ensures Valid(r) && r.streams == streams && r.atoms == AtomHeads(evaluations)
    ensures Undrained(r)
    ensures forall i :: 0 <= i < |streams| && streams[i].inputs == [] ==> multiset(r.queue)[Instance(i, [])] == 1
  {
    SeedValid(streams);
    var seeded := Seed(Empty(streams), 0);
    var r := Feed(seeded, evaluations);
    AppendsKeepsUndrained(Empty(streams), seeded);
    AppendsKeepsUndrained(seeded, r);
    SeedsQueuedOnce(r);
    r
  }

  /** In a valid engine that nobody has popped, every stream without inputs sits in the queue exactly once. */
  lemma SeedsQueuedOnce(e: Engine)
    requires Valid(e) && Undrained(e)
    ensures forall i :: 0 <= i < |e.streams| && e.streams[i].inputs == [] ==> multiset(e.queue)[Instance(i, [])] == 1
  {
    forall i | 0 <= i < |e.streams| && e.streams[i].inputs == []
      ensures multiset(e.queue)[Instance(i, [])] == 1
    {
      DistinctCount(e.queue, Instance(i, []));
    }
  }
}
