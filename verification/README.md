# Dynamic stream instantiator, modelled in Dafny

This project models the dynamic stream instantiator of PDDLStream
(`pddlstream/algorithms/instantiation.py`). The instantiator turns ground facts into
stream instances. Each stream declares input parameters and a domain: an ordered list of
facts over those parameters and over literal objects. As facts arrive, the engine finds every
way of matching the stream's domain against known facts and queues each stream instance
(stream, input objects) it has not created before.

The model has two parts.

- **The positional unifier** `get_mapping` (module `Unify`, file `unify.dfy`). It walks
  two equal-shape fact lists pairwise, then their arguments pairwise. It builds a map from
  domain arguments to objects, and fails as soon as one argument would need two values.
  The nested walk is proved equal to a walk over the flattened argument lists. That walk
  fails exactly when two occurrences of one argument face different objects.
- **The semi-naive join** of class `Instantiator` (module `Instantiator`, file
  `instantiator.dfy`). The engine state is an immutable record with these fields:
  - the streams;
  - the set of known heads;
  - `atoms_from_domain`, a map from (stream, slot) to an append-only list of heads;
  - the set of created instances;
  - the queue, as a sequence.

  Each method of the class is a pure transition function. The `for` loops are recursive
  functions over the remaining indices. `itertools.product` is `Combinations.Product`
  (`combinations.dfy`), proved to contain exactly the tuples that draw their k-th element
  from the k-th list.

The supporting files are:

- `facts.dfy` holds the data model: objects, domain terms (parameters or literal objects),
  domain facts, ground heads, evaluations, streams and instances.
- `wrappers.dfy` holds `Option`.
- `properties.dfy` holds the properties that span several calls.
- `scenarios.dfy` holds worked examples. Each is stated for every valid engine that knows
  a given set of heads, so it holds whatever order those heads were submitted in.

The engine invariant `Valid` is the main result. It holds after construction and after every
`add_atom`, and inside the loops its core `Core` holds between any two steps. It states:

- every listed head fits its slot, and a slot lists exactly the known heads that fit it,
  with no duplicates;
- the queue holds created instances only, each at most once;
- every zero-input stream is instantiated;
- every unifying combination of the current slot lists has its instance (completeness);
- every instance comes from such a combination or is a zero-input seed (soundness).

A second predicate, `Undrained`, adds that every created instance is still in the queue. It
holds after construction and is kept by every `add_atom`, since each transition only appends
the instances it creates to the back of the queue (`Appends`). A consumer that pops the front
(`Properties.PopKeepsValid`) keeps `Valid` but may give up `Undrained`.

From `Valid`, `Properties.Characterization` proves that the created instances are exactly the
instances derivable from the known heads. It follows that the outcome does not depend on the
order in which atoms arrive.

Some calls into code outside this file are given abstract stand-ins:

- `stream.get_instance(inputs)` is the injective constructor `Instance(stream index, inputs)`.
- `is_atom` is the flag `Evaluation.isAtom`.
- `head_from_fact` is the identity on a fact's predicate and arguments.
- `Object` is the `Const` case of a domain term.

**Literal constants.** `get_mapping` (lines 14-16) does not compare a literal object with
the candidate's object. It treats the literal like any other key and binds it to the object at
that position. The only constant check is in `add_atom` (lines 70-72), before a head enters an
index list. The model keeps this split:

- `Unify.GetMapping` binds constants as keys.
- `Instantiator.Fits` carries the constant filter.
- `Properties.ConstantFilters` and `Scenarios.ConstantMismatch` prove that a head which
  disagrees with a literal constant never reaches the unifier for that slot.

Every tuple that reaches `get_mapping` is drawn from the index lists, so no tuple that violates a
literal constant is ever unified.

## Model

| member | source | states |
|---|---|---|
| Unify.BindArgs | pddlstream/algorithms/instantiation.py:14-18 | On success the mapping extends the starting one. Its keys are the starting keys plus every visited argument. Each argument is bound to the object at its own position. |
| Unify.BindArgsFailsIffClash | pddlstream/algorithms/instantiation.py:15-18 | The argument walk fails exactly when some argument meets two different objects, or meets one that differs from an earlier binding. |
| Unify.BindArgsAppend | pddlstream/algorithms/instantiation.py:12-18 | Walking two concatenated argument lists is the same as walking the first and then continuing from its mapping. A failure in the first part is final. |
| Unify.BindAtoms | pddlstream/algorithms/instantiation.py:11-19 | The two nested loops over facts and arguments compute the same result as one walk over the flattened argument lists. |
| Unify.TermsMention | pddlstream/algorithms/instantiation.py:12-14 | An argument is visited by the walk exactly when some domain fact mentions it. |
| Unify.ConflictIsFlat | pddlstream/algorithms/instantiation.py:12-18 | A conflict between two fact positions is the same thing as a conflict between two positions of the flattened lists. |
| Unify.MappingFacts | pddlstream/algorithms/instantiation.py:10-19 | Starting from the empty mapping, the walk fails iff there is a conflict. On success its keys are exactly the mentioned arguments, and it agrees with the candidates position by position. |
| Unify.GetMapping | pddlstream/algorithms/instantiation.py:10-19 | Returns None iff one domain argument would be bound to two different objects. On success the keys are exactly the arguments of the domain facts, and every argument maps to the candidate object at the same fact and position. |
| Combinations.Product | pddlstream/algorithms/instantiation.py:50 | Stands for `itertools.product`. Its partner `Combinations.ProductMembership` proves that it holds exactly the tuples drawing their k-th element from the k-th list. |
| Combinations.SpreadMembership | pddlstream/algorithms/instantiation.py:50 | A tuple is in one row of the product exactly when its head comes from the first list and its tail from the product of the rest. |
| Combinations.ProductMembership | pddlstream/algorithms/instantiation.py:50 | A tuple is in `product(*values)` exactly when it draws its k-th element from the k-th list, for every k. |
| Instantiator.Fits | pddlstream/algorithms/instantiation.py:68-72 | The slot filter: same predicate, and every literal constant equals the object at its position. Its partners are `Properties.ConstantFilters`, which proves a head violating a constant is never listed under that slot, and `Instantiator.AppendKeepsIndex`, which proves a slot lists exactly the known heads that fit it. |
| Instantiator.Yield | pddlstream/algorithms/instantiation.py:51-54 | A tuple yields nothing exactly when it conflicts with the domain. Otherwise it yields an instance of that stream with one object per declared input, in declared order. Each object is the one found wherever that input occurs in the domain. |
| Instantiator.AddInstance | pddlstream/algorithms/instantiation.py:40-46 | Returns true iff the instance is new. A new instance joins the set and the back of the queue. A known one changes nothing. The queue grows at its back by exactly the new instance, and the queue invariant is preserved. |
| Instantiator.AddEach | pddlstream/algorithms/instantiation.py:50-55 | After the loop, the instances are the old ones plus the instance yielded by each unifying tuple. Nothing else changes. The queue grows at its back by exactly the new instances, and the queue invariant is preserved. |
| Instantiator.AddCombinations | pddlstream/algorithms/instantiation.py:48-55 | Every unifying tuple drawn from the candidate lists has its instance created. Every new instance comes from such a tuple. The set only grows, the queue grows at its back by exactly the new instances, and the queue invariant is preserved. |
| Instantiator.TriggerValuesShape | pddlstream/algorithms/instantiation.py:74-76 | A tuple is tried by the trigger exactly when it has the new head at the triggering slot and draws every other element from that slot's current index list. |
| Instantiator.Trigger | pddlstream/algorithms/instantiation.py:73-76 | Appends the head to exactly the triggering slot's list and changes no other list. The queue grows at its back by exactly the new instances. |
| Instantiator.TriggerJoinsNew | pddlstream/algorithms/instantiation.py:73-76 | A combination of the lists after the trigger that has the new head at the triggering slot is among the tuples the trigger joins. |
| Instantiator.TriggerKeepsOld | pddlstream/algorithms/instantiation.py:73-76 | A combination of the lists after the trigger that does not use the new head at the triggering slot was already a combination of the old lists. |
| Instantiator.TriggerComplete | pddlstream/algorithms/instantiation.py:73-76 | Semi-naive completeness: after a trigger, no unifying combination of the current lists is missing its instance. |
| Instantiator.TriggerSound | pddlstream/algorithms/instantiation.py:73-76 | After a trigger, every instance still comes from a combination of the current lists or is a zero-input seed. |
| Instantiator.TriggerKeepsCore | pddlstream/algorithms/instantiation.py:73-76 | A trigger keeps the loop invariant. |
| Instantiator.ScanSlots | pddlstream/algorithms/instantiation.py:67-76 | Over the remaining slots of one stream, the head is appended to exactly the lists of the slots it fits. The loop invariant holds throughout. |
| Instantiator.ScanStreams | pddlstream/algorithms/instantiation.py:66-76 | Over the remaining streams, the head is appended to exactly the lists of the slots it fits. The loop invariant holds throughout. |
| Instantiator.AddAtom | pddlstream/algorithms/instantiation.py:57-77 | Three outcomes. A non-atom returns false with no change. A known head returns false with no change. A new head returns true, is added to the known heads, and is appended to exactly the slots whose predicate and literal constants it matches. Atoms and instances only grow, the queue grows at its back by exactly the new instances, and the engine invariant is preserved. This holds for any valid engine, including one whose queue a consumer has partly drained. |
| Instantiator.AppendKeepsIndex | pddlstream/algorithms/instantiation.py:66-73 | Appending a new head to exactly the slots it fits keeps every list equal to the known heads that fit it, with no duplicates. |
| Instantiator.Seed | pddlstream/algorithms/instantiation.py:34-36 | The created instances grow by exactly the empty-input instance of every stream without inputs. Nothing else changes, the queue grows at its back by exactly those instances, and the queue invariant is preserved. |
| Instantiator.SeedValid | pddlstream/algorithms/instantiation.py:28-36 | The freshly seeded engine satisfies the engine invariant. |
| Instantiator.Feed | pddlstream/algorithms/instantiation.py:37-38 | Adding the evaluations in turn adds exactly their atom heads, keeps the engine invariant, and grows the queue at its back by exactly the new instances. |
| Instantiator.Init | pddlstream/algorithms/instantiation.py:23-38 | After construction the engine invariant holds and the known heads are exactly the heads of the atoms among the evaluations. Every created instance is in the queue, and every stream without inputs is queued exactly once, with no inputs. |
| Instantiator.SeedsQueuedOnce | pddlstream/algorithms/instantiation.py:34-36 | In any valid engine that nothing has been popped from, every zero-input stream's instance occurs exactly once in the queue. |
| Instantiator.AppendsTrans | pddlstream/algorithms/instantiation.py:44-45 | Two transitions that each append their new instances to the back of the queue compose into one that does. |
| Instantiator.AppendsKeepsUndrained | pddlstream/algorithms/instantiation.py:44-45 | A transition that appends exactly its new instances keeps every created instance in the queue. |
| Properties.CreatedIsDerivable | pddlstream/algorithms/instantiation.py:48-55 | Every created instance is a zero-input seed or is read off a unifying combination of known heads. |
| Properties.DerivableIsCreated | pddlstream/algorithms/instantiation.py:66-76 | Every seed, and every instance read off a unifying combination of known heads, has been created. |
| Properties.Characterization | pddlstream/algorithms/instantiation.py:57-77 | Between calls, the created instances are exactly the derivable ones: none is missed and none is invented. |
| Properties.NoMissedCombination | pddlstream/algorithms/instantiation.py:66-76 | Every unifying combination of known heads has its instance created, whatever order the heads arrived in. |
| Properties.OrderIndependence | pddlstream/algorithms/instantiation.py:57-77 | Two valid engines over the same streams that know the same heads hold the same instances. If nothing has been popped from either, they also queue the same instances. |
| Properties.InitOrderIndependence | pddlstream/algorithms/instantiation.py:23-38 | Building the engine from two evaluation lists with the same atom heads, in any order and with repetitions, creates the same instances. |
| Properties.AddInstanceIdempotent | pddlstream/algorithms/instantiation.py:40-46 | A second `_add_instance` with the same arguments returns false and leaves the state unchanged. |
| Properties.AddAtomIdempotent | pddlstream/algorithms/instantiation.py:57-63 | A second `add_atom` with the same evaluation returns false and leaves the state unchanged. |
| Properties.ConstantFilters | pddlstream/algorithms/instantiation.py:68-73 | A head that disagrees with a literal constant of a domain fact is never listed under that slot. |
| Properties.SeedsSurviveAddAtom | pddlstream/algorithms/instantiation.py:34-36 | Whatever atom arrives later, a zero-input stream's instance occurs in the queue as often as before and at most once, and exactly once if nothing has been popped. |
| Properties.PopKeepsValid | pddlstream/algorithms/instantiation.py:83-84 | Popping the front of the queue, as the commented-out iterator would, keeps the engine invariant, so every guarantee of `add_atom` still applies afterwards. |
| Scenarios.SingleInput | pddlstream/algorithms/instantiation.py:57-77 | Stream `P(?x)` with only `P(u)` known: exactly one instance (input `u`) is created. The queue holds nothing else and holds it at most once, exactly once if nothing has been popped. |
| Scenarios.PairYield | pddlstream/algorithms/instantiation.py:51-54 | Stream `P(?x), P(?y)` turns `P(u), P(v)` into the instance with inputs `u`, `v`, in declared order. |
| Scenarios.SelfPairing | pddlstream/algorithms/instantiation.py:48-55 | Stream `P(?x), P(?y)` with `P(a)`, `P(b)` known: the instances are exactly `(a,a)`, `(a,b)`, `(b,a)` and `(b,b)`. |
| Scenarios.JoinYield | pddlstream/algorithms/instantiation.py:51-54 | Stream `P(?x), Q(?x, ?y)` turns `P(a), Q(a, b)` into the instance with inputs `a`, `b`. |
| Scenarios.JoinEitherOrder | pddlstream/algorithms/instantiation.py:66-76 | Stream `P(?x), Q(?x, ?y)` with `P(a)` and `Q(a, b)` known, in either order: the instance `(a, b)` is created. It is in the queue at most once, exactly once if nothing has been popped. |
| Scenarios.ConstantMismatch | pddlstream/algorithms/instantiation.py:68-72 | Stream `P(?x, t)` with only `P(a, t')` known, `t' != t`: the slot's list is empty and no instance exists. |

## Left out

- The internals of `get_instance`, `Object`, `is_atom` and `head_from_fact`. They are not part
  of this model and are replaced by the abstract stand-ins described above.
- Consuming the queue. The iterator at lines 79-85 is commented out, and the engine itself
  never pops. Popping the front is modelled only as `Properties.PopKeepsValid`. The claims that
  every created instance is queued, and every zero-input stream exactly once, hold only while
  nothing has been popped (`Undrained`).
- The priority queue named in the TODO at lines 24-26. It is not implemented.
- Instantiator.AddAtom: requires `ArityAgrees`, which says every domain fact with the head's
  predicate has the head's arity. This stands for `safe_zip` at line 71, which raises on a
  length mismatch. The raise is not modelled as an error path.
- Unify.GetMapping: requires `Aligned`, which says equal lengths, equal arities and equal
  predicates pairwise. This stands for `safe_zip` and the `assert` at lines 12-14. Their
  exceptions are not modelled.
- Instantiator.Init: requires `WellFormed`, which says every stream input occurs in the
  stream's domain (the TODO at line 33). Otherwise `mapping[p]` at line 54 raises
  `KeyError`, and that exception is not modelled. A zero-input stream is always well formed.
- Properties.OrderIndependence: states equal instance sets and equal queue membership, not
  equal queue order. The source's queue order depends on the order of arrival, and no
  order-independence of the queue sequence is claimed.
- Exceptions in general are not modelled. Every raise in the core comes from a violated
  caller contract, stated as a precondition above.
- Instance identity. `get_instance` is modelled by stream index, so two equal stream
  declarations at different positions count as different streams.
- Evaluations are a sequence. The source accepts any iterable of evaluations; the model
  feeds a sequence, and order independence covers every other order.
