/**
 * Events of the callback-to-generator scheduler.
 *
 * An event is an object that, when called with a resume callback ("armed"),
 * eventually calls that callback.  Every event object carries the identity
 * Python's `id()` would give it: `And` tells its children apart by that
 * identity, and the activation state of a combinator lives on the instance,
 * so two occurrences of the same id are the same object.
 */
module Events {

  datatype Event =
      /** `Immediate`: resumes synchronously, inside the arming call. */
    | Immediate(id: nat)
      /** The tests' `Increament` double: adds one to a shared counter, then resumes synchronously. */
    | Increment(id: nat)
      /** A leaf registered with an outside source (a timer, a widget binding); it resumes when that source fires. */
    | Deferred(id: nat)
      /** `And(*events)`: resumes once every distinct child identity has fired. */
    | And(id: nat, children: seq<Event>)
      /** `Or(*events)`: resumes on the first child fire. */
    | Or(id: nat, children: seq<Event>)
      /** `Generator(gen)`: drives a nested body; resumes when that body stops. */
    | Generator(id: nat, body: seq<Event>)

  /** `a & b` (`EventBase.__and__`): a new binary `And`; chains nest, they do not flatten. */
  function Conj(id: nat, a: Event, b: Event): (r: Event)
    ensures Total(r) == Total(a) + Total(b)
    ensures FireCost(r) == Total(a) + FireCost(b)
  {
    assert [a, b][..1] == [a] && [a][..0] == [] && TotalSeq([a]) == Total(a);
    And(id, [a, b])
  }

  /** `a | b` (`EventBase.__or__`): a new binary `Or`; `a | b | c` is `Or(Or(a, b), c)`. */
  function Disj(id: nat, a: Event, b: Event): (r: Event)
    ensures Total(r) == Total(a) + Total(b)
    ensures FireCost(r) == FireCost(a)
  {
    assert [a, b][..1] == [a] && [a][..0] == [] && TotalSeq([a]) == Total(a);
    Or(id, [a, b])
  }

  /** `GeneratorFunction(create_gen, *args)`: the nested body is built when the event is constructed. */
  function GeneratorFunction<A>(id: nat, createGen: A -> seq<Event>, arg: A): (r: Event)
    ensures Sync(r) <==> SyncSeq(createGen(arg))
    ensures Total(r) == TotalSeq(createGen(arg)) && FireCost(r) == FireCostSeq(createGen(arg))
  {
    Generator(id, createGen(arg))
  }

  // ---------------------------------------------------------------------
  // Identities

  /** Every object identity occurring in an event tree. */
  function Ids(e: Event): set<nat>
  {
    match e
    case And(i, cs) => {i} + IdsSeq(cs)
    case Or(i, cs) => {i} + IdsSeq(cs)
    case Generator(i, b) => {i} + IdsSeq(b)
    case _ => {e.id}
  }

  function IdsSeq(es: seq<Event>): set<nat>
  {
    if es == [] then {} else IdsSeq(es[..|es| - 1]) + Ids(es[|es| - 1])
  }

  /** No object occurs twice in the tree (what fresh constructor calls produce). */
  predicate Distinct(e: Event)
  {
    match e
    case And(i, cs) => i !in IdsSeq(cs) && DistinctSeq(cs)
    case Or(i, cs) => i !in IdsSeq(cs) && DistinctSeq(cs)
    case Generator(i, b) => i !in IdsSeq(b) && DistinctSeq(b)
    case _ => true
  }

  predicate DistinctSeq(es: seq<Event>)
  {
    (forall j :: 0 <= j < |es| ==> Distinct(es[j])) &&
    (forall i, j :: 0 <= i < j < |es| ==> Ids(es[i]) !! Ids(es[j]))
  }

  lemma {:induction false} IdsSeqCovers(es: seq<Event>, j: nat)
    requires j < |es|
    ensures Ids(es[j]) <= IdsSeq(es)
    decreases |es|
  {
    if j < |es| - 1 {
      IdsSeqCovers(es[..|es| - 1], j);
    }
  }

  /** An identity of the sequence comes from one of its elements. */
  lemma {:induction false} IdsSeqSource(es: seq<Event>, x: nat) returns (j: nat)
    requires x in IdsSeq(es)
    ensures j < |es| && x in Ids(es[j])
    decreases |es|
  {
    if x in Ids(es[|es| - 1]) {
      j := |es| - 1;
    } else {
      j := IdsSeqSource(es[..|es| - 1], x);
    }
  }

  lemma IdInIds(e: Event)
    ensures e.id in Ids(e)
  {
  }

  // ---------------------------------------------------------------------
  // Synchronous trees and their costs

  /**
   * Every leaf resumes inside its arming call and every combinator can
   * complete: an `And` or `Or` without children never resumes.
   */
  predicate Sync(e: Event)
  {
    match e
    case Immediate(_) => true
    case Increment(_) => true
    case Deferred(_) => false
    case And(_, cs) => |cs| > 0 && SyncSeq(cs)
    case Or(_, cs) => |cs| > 0 && SyncSeq(cs)
    case Generator(_, b) => SyncSeq(b)
  }

  predicate SyncSeq(es: seq<Event>)
  {
    forall j :: 0 <= j < |es| ==> Sync(es[j])
  }

  /** How much arming the event adds to the counter, all its leftover work included. */
  function Total(e: Event): nat
  {
    match e
    case Increment(_) => 1
    case And(_, cs) => TotalSeq(cs)
    case Or(_, cs) => TotalSeq(cs)
    case Generator(_, b) => TotalSeq(b)
    case _ => 0
  }

  function TotalSeq(es: seq<Event>): nat
  {
    if es == [] then 0 else TotalSeq(es[..|es| - 1]) + Total(es[|es| - 1])
  }

  /**
   * How much the counter has grown when a synchronous event calls its
   * resume.  `Or` resumes as soon as its first child does; `And` resumes
   * when its last child does, after the earlier children have finished all
   * of their work; a nested body stops once each of its events has resumed
   * it, before their leftover work runs.
   */
  function FireCost(e: Event): nat
  {
    match e
    case Increment(_) => 1
    case And(_, cs) => if cs == [] then 0 else TotalSeq(cs[..|cs| - 1]) + FireCost(cs[|cs| - 1])
    case Or(_, cs) => if cs == [] then 0 else FireCost(cs[0])
    case Generator(_, b) => FireCostSeq(b)
    case _ => 0
  }

  function FireCostSeq(es: seq<Event>): nat
  {
    if es == [] then 0 else FireCostSeq(es[..|es| - 1]) + FireCost(es[|es| - 1])
  }

  /** A synchronous event resumes its caller no later than the end of its own work. */
  lemma {:induction false} FireCostAtMostTotal(e: Event)
    requires Sync(e)
    ensures FireCost(e) <= Total(e)
  {
    match e
    case Immediate(_) =>
    case Increment(_) =>
    case And(_, cs) =>
      FireCostAtMostTotal(cs[|cs| - 1]);
    case Or(_, cs) =>
      FireCostAtMostTotal(cs[0]);
      TotalSeqAtLeastFirst(cs);
    case Generator(_, b) =>
      FireCostSeqAtMostTotalSeq(b);
  }

  lemma {:induction false} FireCostSeqAtMostTotalSeq(es: seq<Event>)
    requires SyncSeq(es)
    ensures FireCostSeq(es) <= TotalSeq(es)
    decreases es
  {
    if es != [] {
      FireCostSeqAtMostTotalSeq(es[..|es| - 1]);
      FireCostAtMostTotal(es[|es| - 1]);
    }
  }

  lemma {:induction false} TotalSeqAtLeastFirst(es: seq<Event>)
    requires es != []
    ensures Total(es[0]) <= TotalSeq(es)
    decreases |es|
  {
    if |es| > 1 {
      TotalSeqAtLeastFirst(es[..|es| - 1]);
    }
  }
}
