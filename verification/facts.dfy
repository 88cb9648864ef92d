/**
 The data the dynamic stream instantiator works on: objects, domain facts with
 parameters, ground atom heads, stream declarations and stream-instance identities.
 */
module Facts {

  /** An opaque planning-domain object; the engine only ever compares objects for equality. */
  datatype Obj = Obj(name: string)

  /** An argument of a stream's domain fact: a parameter symbol such as `?q`, or a literal object. */
  datatype Term = Param(name: string) | Const(obj: Obj)

  /** A domain fact of a stream declaration: a predicate applied to parameters and constants. */
  datatype Atom = Atom(pred: string, args: seq<Term>)

  /** The head of a ground atom: a predicate applied to objects. Heads are the unit of deduplication. */
  datatype Head = Head(pred: string, args: seq<Obj>)

  /**
   An evaluation handed to the engine. `isAtom` stands for the collaborator `is_atom`: it is
   false for evaluations that are not true atoms (function values, negated atoms), which the
   engine ignores.
   */
  datatype Evaluation = Evaluation(head: Head, isAtom: bool)

  /** A stream declaration: ordered input parameters and an ordered list of domain facts. */
  datatype Stream = Stream(name: string, inputs: seq<string>, domain: seq<Atom>)

  /**
   The identity of a stream instance: the index of its stream in the engine's stream list and
   its input objects. It stands for `stream.get_instance(input_objects)`, which returns equal
   instances for equal arguments and distinct instances otherwise; a constructor is exactly that.
   */
  datatype Instance = Instance(stream: nat, inputs: seq<Obj>)

  /** Term `t` occurs as an argument of some fact of `atoms`. */
  ghost predicate Mentions(atoms: seq<Atom>, t: Term)
  {
    exists a :: 0 <= a < |atoms| && t in atoms[a].args
  }

  /**
   Every input parameter of `s` occurs in its domain. The engine reads each input off the
   unifier's mapping, which is only defined on terms of the domain.
   */
  ghost predicate InputsGrounded(s: Stream)
  {
    forall k :: 0 <= k < |s.inputs| ==> Mentions(s.domain, Param(s.inputs[k]))
  }

  /** No element of `q` occurs twice. */
  predicate Distinct<T(==)>(q: seq<T>)
  {
    forall a, b :: 0 <= a < b < |q| ==> q[a] != q[b]
  }
}
