/**
 * The library's own usage scenarios, each as a driven body of events
 * with distinct identities (every constructor call in the tests makes a
 * new object).  The synchronous ones follow from the main theorem; the
 * ones with deferred leaves and with a shared child are run step by step.
 */
module Scenarios {
  import opened Events
  import opened Combinators
  import opened Machine
  import opened Synchronous

  // ---------------------------------------------------------------------
  // The folds over short literal sequences

  lemma Facts1(a: Event)
    ensures [a][..0] == []
    ensures IdsSeq([a]) == Ids(a) && TotalSeq([a]) == Total(a) && FireCostSeq([a]) == FireCost(a)
  {
    assert [a][..0] == [];
  }

  lemma Facts2(a: Event, b: Event)
    ensures [a, b][..1] == [a]
    ensures IdsSeq([a, b]) == Ids(a) + Ids(b)
    ensures TotalSeq([a, b]) == Total(a) + Total(b)
    ensures FireCostSeq([a, b]) == FireCost(a) + FireCost(b)
  {
    assert [a, b][..1] == [a];
    Facts1(a);
  }

  lemma Facts3(a: Event, b: Event, c: Event)
    ensures [a, b, c][..1] == [a] && [a, b, c][..2] == [a, b]
    ensures IdsSeq([a, b, c]) == Ids(a) + Ids(b) + Ids(c)
    ensures TotalSeq([a, b, c]) == Total(a) + Total(b) + Total(c)
    ensures FireCostSeq([a, b, c]) == FireCost(a) + FireCost(b) + FireCost(c)
  {
    assert [a, b, c][..2] == [a, b];
    Facts2(a, b);
  }

  lemma Facts4(a: Event, b: Event, c: Event, d: Event)
    ensures [a, b, c, d][..1] == [a] && [a, b, c, d][..2] == [a, b] && [a, b, c, d][..3] == [a, b, c]
    ensures TotalSeq([a, b, c, d]) == Total(a) + Total(b) + Total(c) + Total(d)
    ensures FireCostSeq([a, b, c, d]) == FireCost(a) + FireCost(b) + FireCost(c) + FireCost(d)
  {
    assert [a, b, c, d][..3] == [a, b, c];
    Facts3(a, b, c);
  }

  /** Every identity in `s` lies in `[lo, hi)`. */
  predicate Within(s: set<nat>, lo: nat, hi: nat)
  {
    forall x | x in s :: lo <= x < hi
  }

  /** A synchronous event tree whose objects are numbered without repeats inside `[lo, hi)`. */
  predicate Fit(e: Event, lo: nat, hi: nat)
  {
    Sync(e) && Distinct(e) && Within(Ids(e), lo, hi)
  }

  predicate FitSeq(es: seq<Event>, lo: nat, hi: nat)
  {
    SyncSeq(es) && DistinctSeq(es) && Within(IdsSeq(es), lo, hi)
  }

  lemma Leaf(n: nat)
    ensures Fit(Increment(n), n, n + 1) && Total(Increment(n)) == 1 && FireCost(Increment(n)) == 1
  {
  }

  lemma Single(a: Event, lo: nat, hi: nat)
    requires Fit(a, lo, hi)
    ensures FitSeq([a], lo, hi) && TotalSeq([a]) == Total(a) && FireCostSeq([a]) == FireCost(a)
  {
    Facts1(a);
  }

  lemma Pair(a: Event, b: Event, lo: nat, mid: nat, hi: nat)
    requires Fit(a, lo, mid) && Fit(b, mid, hi)
    ensures FitSeq([a, b], lo, hi) && [a, b][..1] == [a]
    ensures TotalSeq([a, b]) == Total(a) + Total(b) && FireCostSeq([a, b]) == FireCost(a) + FireCost(b)
  {
    Facts2(a, b);
    var es := [a, b];
    forall i, j | 0 <= i < j < 2
      ensures Ids(es[i]) !! Ids(es[j])
    {
    }
  }

  lemma Triple(a: Event, b: Event, c: Event, lo: nat, m1: nat, m2: nat, hi: nat)
    requires Fit(a, lo, m1) && Fit(b, m1, m2) && Fit(c, m2, hi)
    ensures FitSeq([a, b, c], lo, hi) && [a, b, c][..2] == [a, b]
    ensures TotalSeq([a, b, c]) == Total(a) + Total(b) + Total(c)
  {
    Facts3(a, b, c);
    var es := [a, b, c];
    forall i, j | 0 <= i < j < 3
      ensures Ids(es[i]) !! Ids(es[j])
    {
    }
  }

  /** A combinator object numbered just before its children fits around them. */
  lemma Node(e: Event, hi: nat)
    requires (e.And? || e.Or? || e.Generator?) && e.id < hi
    requires var cs := if e.Generator? then e.body else e.children;
             FitSeq(cs, e.id + 1, hi) && (e.Generator? || cs != [])
    ensures Fit(e, e.id, hi)
  {
    var cs := if e.Generator? then e.body else e.children;
    assert Ids(e) == {e.id} + IdsSeq(cs);
  }

  /** `a & b` fits around its operands; it resumes once `a` has finished and `b` has fired. */
  lemma ConjFit(i: nat, a: Event, b: Event, mid: nat, hi: nat)
    requires Fit(a, i + 1, mid) && Fit(b, mid, hi)
    ensures Fit(Conj(i, a, b), i, hi)
    ensures Total(Conj(i, a, b)) == Total(a) + Total(b)
    ensures FireCost(Conj(i, a, b)) == Total(a) + FireCost(b)
  {
    Pair(a, b, i + 1, mid, hi);
    Node(Conj(i, a, b), hi);
  }

  /** `a | b` fits around its operands; it resumes with `a`. */
  lemma DisjFit(i: nat, a: Event, b: Event, mid: nat, hi: nat)
    requires Fit(a, i + 1, mid) && Fit(b, mid, hi)
    ensures Fit(Disj(i, a, b), i, hi)
    ensures Total(Disj(i, a, b)) == Total(a) + Total(b)
    ensures FireCost(Disj(i, a, b)) == FireCost(a)
  {
    Pair(a, b, i + 1, mid, hi);
    Node(Disj(i, a, b), hi);
  }

  /** `And(Inc, Inc, Inc)` numbered from `i`. */
  lemma AllIncs(i: nat)
    ensures var e := And(i, [Increment(i + 1), Increment(i + 2), Increment(i + 3)]);
            Fit(e, i, i + 4) && Total(e) == 3 && FireCost(e) == 3
  {
    Leaf(i + 1);
    Leaf(i + 2);
    Leaf(i + 3);
    Triple(Increment(i + 1), Increment(i + 2), Increment(i + 3), i + 1, i + 2, i + 3, i + 4);
    Facts2(Increment(i + 1), Increment(i + 2));
    Node(And(i, [Increment(i + 1), Increment(i + 2), Increment(i + 3)]), i + 4);
  }

  /** `Or(Inc, Inc, Inc)` numbered from `i`. */
  lemma AnyIncs(i: nat)
    ensures var e := Or(i, [Increment(i + 1), Increment(i + 2), Increment(i + 3)]);
            Fit(e, i, i + 4) && Total(e) == 3 && FireCost(e) == 1
  {
    Leaf(i + 1);
    Leaf(i + 2);
    Leaf(i + 3);
    Triple(Increment(i + 1), Increment(i + 2), Increment(i + 3), i + 1, i + 2, i + 3, i + 4);
    Node(Or(i, [Increment(i + 1), Increment(i + 2), Increment(i + 3)]), i + 4);
  }

  /** `create_gen(times)` of the generator test: `times` increments, numbered from `first`. */
  function IncRun(arg: (nat, nat)): (r: seq<Event>)
    ensures |r| == arg.1
    ensures forall i :: 0 <= i < |r| ==> r[i] == Increment(arg.0 + i)
    decreases arg.1
  {
    if arg.1 == 0 then [] else IncRun((arg.0, arg.1 - 1)) + [Increment(arg.0 + arg.1 - 1)]
  }

  /** Appending a fitting event to a fitting sequence numbered just before it. */
  lemma Snoc(es: seq<Event>, x: Event, lo: nat, mid: nat, hi: nat)
    requires lo <= mid && FitSeq(es, lo, mid) && Fit(x, mid, hi)
    ensures FitSeq(es + [x], lo, hi)
    ensures TotalSeq(es + [x]) == TotalSeq(es) + Total(x)
    ensures FireCostSeq(es + [x]) == FireCostSeq(es) + FireCost(x)
  {
    var all := es + [x];
    assert all[..|es|] == es;
    assert IdsSeq(all) == IdsSeq(es) + Ids(x);
    forall i, j | 0 <= i < j < |all|
      ensures Ids(all[i]) !! Ids(all[j])
    {
      if j == |es| {
        IdsSeqCovers(es, i);
      }
    }
  }

  /** Increments numbered consecutively from `n` fit their range, and each of them fires at once. */
  lemma {:induction false} IncrementsFit(es: seq<Event>, n: nat)
    requires forall i :: 0 <= i < |es| ==> es[i] == Increment(n + i)
    ensures FitSeq(es, n, n + |es|) && TotalSeq(es) == |es| && FireCostSeq(es) == |es|
    decreases |es|
  {
    if es != [] {
      var init := es[..|es| - 1];
      var x := es[|es| - 1];
      assert es == init + [x];
      IncrementsFit(init, n);
      Leaf(n + |init|);
      Snoc(init, x, n, n + |init|, n + |es|);
    }
  }

  /** `GeneratorFunction(create_gen, k)` numbered from `i`: it resumes only after all `k` increments. */
  lemma GenIncs(i: nat, k: nat)
    ensures Fit(GeneratorFunction<(nat, nat)>(i, IncRun, (i + 1, k)), i, i + 1 + k)
    ensures Total(GeneratorFunction<(nat, nat)>(i, IncRun, (i + 1, k))) == k
    ensures FireCost(GeneratorFunction<(nat, nat)>(i, IncRun, (i + 1, k))) == k
  {
    IncrementsFit(IncRun((i + 1, k)), i + 1);
    GenFit(i, IncRun((i + 1, k)), k);
  }

  /** A nested body fitting just after the generator object. */
  lemma GenFit(i: nat, es: seq<Event>, k: nat)
    requires FitSeq(es, i + 1, i + 1 + k) && TotalSeq(es) == k && FireCostSeq(es) == k
    ensures Fit(Generator(i, es), i, i + 1 + k) && Total(Generator(i, es)) == k && FireCost(Generator(i, es)) == k
  {
    Node(Generator(i, es), i + 1 + k);
  }

  /** Driving a body of two fitting events: the observations are the running fire costs. */
  lemma Run2(a: Event, b: Event, n0: nat, n1: nat, n2: nat) returns (c': Config)
    requires Fit(a, n0, n1) && Fit(b, n1, n2)
    ensures Reaches(Start([a, b]), c') && c'.stack == [] && c'.w.finished && !c'.w.failed
    ensures c'.w.observed == [0, FireCost(a), FireCost(a) + FireCost(b)]
    ensures c'.w.counter == Total(a) + Total(b)
  {
    Pair(a, b, n0, n1, n2);
    Facts1(a);
    var body := [a, b];
    assert body[..0] == [] && body[..2] == body;
    c' := SyncBodyRunsToCompletion(body);
    assert c'.w.observed == [c'.w.observed[0], c'.w.observed[1], c'.w.observed[2]];
  }

  /** Four fitting events numbered one after the other make a fitting body. */
  lemma Quad(a: Event, b: Event, c: Event, d: Event, n0: nat, n1: nat, n2: nat, n3: nat, n4: nat)
    requires Fit(a, n0, n1) && Fit(b, n1, n2) && Fit(c, n2, n3) && Fit(d, n3, n4)
    ensures SyncSeq([a, b, c, d]) && DistinctSeq([a, b, c, d])
  {
    var body := [a, b, c, d];
    forall i, j | 0 <= i < j < 4
      ensures Ids(body[i]) !! Ids(body[j])
    {
    }
  }

  /** Driving a body of four fitting events numbered one after the other. */
  lemma Run4(a: Event, b: Event, c: Event, d: Event, n0: nat, n1: nat, n2: nat, n3: nat, n4: nat)
    returns (c': Config)
    requires Fit(a, n0, n1) && Fit(b, n1, n2) && Fit(c, n2, n3) && Fit(d, n3, n4)
    ensures Reaches(Start([a, b, c, d]), c') && c'.stack == [] && c'.w.finished && !c'.w.failed
    ensures c'.w.observed == [0, FireCost(a), FireCost(a) + FireCost(b),
                              FireCost(a) + FireCost(b) + FireCost(c),
                              FireCost(a) + FireCost(b) + FireCost(c) + FireCost(d)]
    ensures c'.w.counter == Total(a) + Total(b) + Total(c) + Total(d)
  {
    var body := [a, b, c, d];
    Quad(a, b, c, d, n0, n1, n2, n3, n4);
    c' := SyncBodyRunsToCompletion(body);
    Slices4(a, b, c, d);
    var obs := c'.w.observed;
    assert obs[1] == FireCost(a) by {
      assert obs[1] == FireCostSeq(body[..1]);
      Facts1(a);
    }
    assert obs[2] == FireCost(a) + FireCost(b) by {
      assert obs[2] == FireCostSeq(body[..2]);
      Facts2(a, b);
    }
    assert obs[3] == FireCost(a) + FireCost(b) + FireCost(c) by {
      assert obs[3] == FireCostSeq(body[..3]);
      Facts3(a, b, c);
    }
    assert obs[4] == FireCost(a) + FireCost(b) + FireCost(c) + FireCost(d) by {
      assert obs[4] == FireCostSeq(body[..4]);
      Facts4(a, b, c, d);
    }
    assert obs[0] == 0 by {
      assert obs[0] == FireCostSeq(body[..0]);
    }
    Sums5(obs, FireCost(a), FireCost(b), FireCost(c), FireCost(d));
    assert c'.w.counter == Total(a) + Total(b) + Total(c) + Total(d) by {
      Facts4(a, b, c, d);
    }
  }

  lemma Slices4(a: Event, b: Event, c: Event, d: Event)
    ensures [a, b, c, d][..0] == [] && [a, b, c, d][..1] == [a] && [a, b, c, d][..2] == [a, b]
    ensures [a, b, c, d][..3] == [a, b, c] && [a, b, c, d][..4] == [a, b, c, d]
  {
    assert [a, b, c, d][..3] == [a, b, c];
    assert [a, b, c, d][..2] == [a, b];
    assert [a, b, c, d][..1] == [a];
  }

  /** Five running sums, spelled out as a sequence. */
  lemma Sums5(obs: seq<nat>, x: nat, y: nat, z: nat, u: nat)
    requires |obs| == 5 && obs[0] == 0 && obs[1] == x && obs[2] == x + y
    requires obs[3] == x + y + z && obs[4] == x + y + z + u
    ensures obs == [0, x, x + y, x + y + z, x + y + z + u]
  {
  }

  // ---------------------------------------------------------------------
  // The binary operators

  /**
   * Arming `a | b` calls the resume as soon as `a` has called back, with the
   * counter grown by `a`'s fire cost; `b` is armed only after that call
   * returns, below `a`'s own leftover work.
   */
  lemma DisjFiresWithLeft(id: nat, a: Event, b: Event, k: Cont, rest: seq<Frame>, c: Config)
      returns (c': Config)
    requires Sync(Disj(id, a, b)) && Distinct(Disj(id, a, b)) && FreshIn(c.w, Ids(Disj(id, a, b)))
    requires c.stack == [Arm(Disj(id, a, b), k)] + rest
    ensures Reaches(c, c') && c'.stack == [Resume(k)] + (Leftover(a) + ([Arm(b, OrChild(id))] + rest))
    ensures c'.w.counter == c.w.counter + FireCost(a)
  {
    c' := ArmFires(Disj(id, a, b), k, rest, c);
    assert [a, b][1..] == [b];
    Assoc(Leftover(a), [Arm(b, OrChild(id))], rest);
  }

  /**
   * Arming `a & b` calls the resume once `b` has called back, by which time
   * all of `a`'s work is done: the counter has grown by `a`'s total and
   * `b`'s fire cost, and only `b`'s leftover work remains.
   */
  lemma ConjFiresAfterBoth(id: nat, a: Event, b: Event, k: Cont, rest: seq<Frame>, c: Config)
      returns (c': Config)
    requires Sync(Conj(id, a, b)) && Distinct(Conj(id, a, b)) && FreshIn(c.w, Ids(Conj(id, a, b)))
    requires c.stack == [Arm(Conj(id, a, b), k)] + rest
    ensures Reaches(c, c') && c'.stack == [Resume(k)] + (Leftover(b) + rest)
    ensures c'.w.counter == c.w.counter + Total(a) + FireCost(b)
    ensures Done(a, c'.w)
  {
    c' := ArmFires(Conj(id, a, b), k, rest, c);
    assert [a, b][0] == a;
  }

  /**
   * `a | b | c` nests to the left; arming it still calls the resume as soon
   * as `a` has called back, and `b`, then `c`, are armed only after that
   * call returns.
   */
  lemma DisjChainFiresWithFirst(i: nat, j: nat, a: Event, b: Event, d: Event, k: Cont, rest: seq<Frame>, c: Config)
      returns (c': Config)
    requires var e := Disj(j, Disj(i, a, b), d); Sync(e) && Distinct(e) && FreshIn(c.w, Ids(e))
    requires c.stack == [Arm(Disj(j, Disj(i, a, b), d), k)] + rest
    ensures Reaches(c, c')
    ensures c'.stack == [Resume(k)] + (Leftover(a) + ([Arm(b, OrChild(i))] + ([Arm(d, OrChild(j))] + rest)))
    ensures c'.w.counter == c.w.counter + FireCost(a)
  {
    c' := DisjFiresWithLeft(j, Disj(i, a, b), d, k, rest, c);
    assert [a, b][1..] == [b];
    assert Leftover(Disj(i, a, b)) == Leftover(a) + [Arm(b, OrChild(i))];
    Assoc(Leftover(a), [Arm(b, OrChild(i))], [Arm(d, OrChild(j))] + rest);
  }

  /** `a & b & c` nests to the left; arming it calls the resume once `a` and `b` are done and `c` has called back. */
  lemma ConjChainFiresAfterAll(i: nat, j: nat, a: Event, b: Event, d: Event, k: Cont, rest: seq<Frame>, c: Config)
      returns (c': Config)
    requires var e := Conj(j, Conj(i, a, b), d); Sync(e) && Distinct(e) && FreshIn(c.w, Ids(e))
    requires c.stack == [Arm(Conj(j, Conj(i, a, b), d), k)] + rest
    ensures Reaches(c, c') && c'.stack == [Resume(k)] + (Leftover(d) + rest)
    ensures c'.w.counter == c.w.counter + Total(a) + Total(b) + FireCost(d)
    ensures Done(a, c'.w) && Done(b, c'.w)
  {
    c' := ConjFiresAfterBoth(j, Conj(i, a, b), d, k, rest, c);
    assert [a, b][0] == a && [a, b][1] == b;
  }

  // ---------------------------------------------------------------------
  // Synchronous scenarios
  //
  // Each test body is built with its objects numbered from `n + 1` on, in
  // the order the test constructs them; the outcomes hold for every `n`.

  /** `test_callback`: a plain function yielded as an event, then an `Increament` object. */
  function CallbackBody(n: nat): seq<Event>
  {
    [Increment(n + 1), Increment(n + 2)]
  }

  /** `test_and`: `Inc & Inc`, `Inc & Inc & Inc`, `And(Inc, Inc, Inc)` twice. */
  function AndBody(n: nat): seq<Event>
  {
    [ Conj(n + 1, Increment(n + 2), Increment(n + 3)),
      Conj(n + 4, Conj(n + 5, Increment(n + 6), Increment(n + 7)), Increment(n + 8)),
      And(n + 9, [Increment(n + 10), Increment(n + 11), Increment(n + 12)]),
      And(n + 13, [Increment(n + 14), Increment(n + 15), Increment(n + 16)]) ]
  }

  /** `test_or`: the same shapes with `|` and `Or`. */
  function OrBody(n: nat): seq<Event>
  {
    [ Disj(n + 1, Increment(n + 2), Increment(n + 3)),
      Disj(n + 4, Disj(n + 5, Increment(n + 6), Increment(n + 7)), Increment(n + 8)),
      Or(n + 9, [Increment(n + 10), Increment(n + 11), Increment(n + 12)]),
      Or(n + 13, [Increment(n + 14), Increment(n + 15), Increment(n + 16)]) ]
  }

  /** `test_mix`: `Inc | Inc & Inc` binds as `Inc | (Inc & Inc)`; `Inc & Inc | Inc` as `(Inc & Inc) | Inc`. */
  function MixBody(n: nat): seq<Event>
  {
    [ Disj(n + 1, Increment(n + 2), Conj(n + 3, Increment(n + 4), Increment(n + 5))),
      Disj(n + 6, Conj(n + 7, Increment(n + 8), Increment(n + 9)), Increment(n + 10)) ]
  }

  /** `test_generator`: `GF(create_gen, 2)`, `G(create_gen(1))`, then `|` and `&` of two generator functions. */
  function GeneratorBody(n: nat): seq<Event>
  {
    [ GeneratorFunction<(nat, nat)>(n + 1, IncRun, (n + 2, 2)),
      Generator(n + 4, IncRun((n + 5, 1))),
      Disj(n + 6, GeneratorFunction<(nat, nat)>(n + 7, IncRun, (n + 8, 2)), GeneratorFunction<(nat, nat)>(n + 10, IncRun, (n + 11, 1))),
      Conj(n + 12, GeneratorFunction<(nat, nat)>(n + 13, IncRun, (n + 14, 2)), GeneratorFunction<(nat, nat)>(n + 16, IncRun, (n + 17, 1))) ]
  }

  lemma CallbackScenario(n: nat) returns (c': Config)
    ensures Reaches(Start(CallbackBody(n)), c') && c'.stack == [] && c'.w.finished
    ensures c'.w.observed == [0, 1, 2] && c'.w.counter == 2
  {
    Leaf(n + 1);
    Leaf(n + 2);
    c' := Run2(Increment(n + 1), Increment(n + 2), n + 1, n + 2, n + 3);
  }

  lemma AndScenario(n: nat) returns (c': Config)
    ensures Reaches(Start(AndBody(n)), c') && c'.stack == [] && c'.w.finished
    ensures c'.w.observed == [0, 2, 5, 8, 11] && c'.w.counter == 11
  {
    var b := AndBody(n);
    AndItems(n);
    AllIncs(n + 9);
    AllIncs(n + 13);
    c' := Run4(b[0], b[1], b[2], b[3], n + 1, n + 4, n + 9, n + 13, n + 17);
    assert b == [b[0], b[1], b[2], b[3]];
  }

  /** The two binary items of `test_and`. */
  lemma AndItems(n: nat)
    ensures var b := AndBody(n);
            && Fit(b[0], n + 1, n + 4) && Total(b[0]) == 2 && FireCost(b[0]) == 2
            && Fit(b[1], n + 4, n + 9) && Total(b[1]) == 3 && FireCost(b[1]) == 3
  {
    Leaf(n + 2);
    Leaf(n + 3);
    ConjFit(n + 1, Increment(n + 2), Increment(n + 3), n + 3, n + 4);
    Leaf(n + 6);
    Leaf(n + 7);
    Leaf(n + 8);
    ConjFit(n + 5, Increment(n + 6), Increment(n + 7), n + 7, n + 8);
    ConjFit(n + 4, Conj(n + 5, Increment(n + 6), Increment(n + 7)), Increment(n + 8), n + 8, n + 9);
  }

  lemma OrScenario(n: nat) returns (c': Config)
    ensures Reaches(Start(OrBody(n)), c') && c'.stack == [] && c'.w.finished
    ensures c'.w.observed == [0, 1, 2, 3, 4] && c'.w.counter == 11
  {
    var b := OrBody(n);
    OrItems(n);
    AnyIncs(n + 9);
    AnyIncs(n + 13);
    c' := Run4(b[0], b[1], b[2], b[3], n + 1, n + 4, n + 9, n + 13, n + 17);
    assert b == [b[0], b[1], b[2], b[3]];
  }

  /** The two binary items of `test_or`. */
  lemma OrItems(n: nat)
    ensures var b := OrBody(n);
            && Fit(b[0], n + 1, n + 4) && Total(b[0]) == 2 && FireCost(b[0]) == 1
            && Fit(b[1], n + 4, n + 9) && Total(b[1]) == 3 && FireCost(b[1]) == 1
  {
    Leaf(n + 2);
    Leaf(n + 3);
    DisjFit(n + 1, Increment(n + 2), Increment(n + 3), n + 3, n + 4);
    Leaf(n + 6);
    Leaf(n + 7);
    Leaf(n + 8);
    DisjFit(n + 5, Increment(n + 6), Increment(n + 7), n + 7, n + 8);
    DisjFit(n + 4, Disj(n + 5, Increment(n + 6), Increment(n + 7)), Increment(n + 8), n + 8, n + 9);
  }

  lemma MixScenario(n: nat) returns (c': Config)
    ensures Reaches(Start(MixBody(n)), c') && c'.stack == [] && c'.w.finished
    ensures c'.w.observed == [0, 1, 3] && c'.w.counter == 6
  {
    var b := MixBody(n);
    Leaf(n + 2);
    Leaf(n + 4);
    Leaf(n + 5);
    ConjFit(n + 3, Increment(n + 4), Increment(n + 5), n + 5, n + 6);
    DisjFit(n + 1, Increment(n + 2), Conj(n + 3, Increment(n + 4), Increment(n + 5)), n + 3, n + 6);
    Leaf(n + 8);
    Leaf(n + 9);
    Leaf(n + 10);
    ConjFit(n + 7, Increment(n + 8), Increment(n + 9), n + 9, n + 10);
    DisjFit(n + 6, Conj(n + 7, Increment(n + 8), Increment(n + 9)), Increment(n + 10), n + 10, n + 11);
    c' := Run2(b[0], b[1], n + 1, n + 6, n + 11);
    assert b == [b[0], b[1]];
  }

  lemma GeneratorScenario(n: nat) returns (c': Config)
    ensures Reaches(Start(GeneratorBody(n)), c') && c'.stack == [] && c'.w.finished
    ensures c'.w.observed == [0, 2, 3, 5, 8] && c'.w.counter == 9
  {
    var b := GeneratorBody(n);
    GeneratorItems(n);
    c' := Run4(b[0], b[1], b[2], b[3], n + 1, n + 4, n + 6, n + 12, n + 18);
    assert b == [b[0], b[1], b[2], b[3]];
  }

  /** The items of `test_generator`. */
  lemma GeneratorItems(n: nat)
    ensures var b := GeneratorBody(n);
            && Fit(b[0], n + 1, n + 4) && Total(b[0]) == 2 && FireCost(b[0]) == 2
            && Fit(b[1], n + 4, n + 6) && Total(b[1]) == 1 && FireCost(b[1]) == 1
            && Fit(b[2], n + 6, n + 12) && Total(b[2]) == 3 && FireCost(b[2]) == 2
            && Fit(b[3], n + 12, n + 18) && Total(b[3]) == 3 && FireCost(b[3]) == 3
  {
    GenIncs(n + 1, 2);
    GenIncs(n + 4, 1);
    GenDisj(n + 6);
    GenConj(n + 12);
  }

  /** `GeneratorFunction(create_gen, 2) | GeneratorFunction(create_gen, 1)` numbered from `i`. */
  lemma GenDisj(i: nat)
    ensures var e := Disj(i, GeneratorFunction<(nat, nat)>(i + 1, IncRun, (i + 2, 2)),
                             GeneratorFunction<(nat, nat)>(i + 4, IncRun, (i + 5, 1)));
            Fit(e, i, i + 6) && Total(e) == 3 && FireCost(e) == 2
  {
    GenIncs(i + 1, 2);
    GenIncs(i + 4, 1);
    DisjFit(i, GeneratorFunction<(nat, nat)>(i + 1, IncRun, (i + 2, 2)),
            GeneratorFunction<(nat, nat)>(i + 4, IncRun, (i + 5, 1)), i + 4, i + 6);
  }

  /** `GeneratorFunction(create_gen, 2) & GeneratorFunction(create_gen, 1)` numbered from `i`. */
  lemma GenConj(i: nat)
    ensures var e := Conj(i, GeneratorFunction<(nat, nat)>(i + 1, IncRun, (i + 2, 2)),
                             GeneratorFunction<(nat, nat)>(i + 4, IncRun, (i + 5, 1)));
            Fit(e, i, i + 6) && Total(e) == 3 && FireCost(e) == 3
  {
    GenIncs(i + 1, 2);
    GenIncs(i + 4, 1);
    ConjFit(i, GeneratorFunction<(nat, nat)>(i + 1, IncRun, (i + 2, 2)),
            GeneratorFunction<(nat, nat)>(i + 4, IncRun, (i + 5, 1)), i + 4, i + 6);
  }

  // ---------------------------------------------------------------------
  // Scenarios with outside sources and with a shared child, run step by step

  /** One step more, when the stack is not empty. */
  lemma StepsUnfold(c: Config, k: nat)
    requires c.stack != []
    ensures Steps(c, k + 1) == Steps(Step(c), k)
  {
  }

  lemma AndFramesTwo(o: nat, a: Event, b: Event)
    ensures AndFrames(o, [a, b]) == [Arm(a, AndChild(o, a.id)), Arm(b, AndChild(o, b.id))]
  {
    assert [a, b][1..] == [b];
    assert [b][1..] == [];
  }

  /** `yield a | b` for two events an outside source fires later, e.g. two tk events. */
  function RaceBody(n: nat): seq<Event>
  {
    [Disj(n + 1, Deferred(n + 2), Deferred(n + 3))]
  }

  /** The race as it waits: both leaves registered with the `Or`'s callback. */
  predicate RaceWaiting(c: Config, n: nat)
  {
    && c.body == RaceBody(n) && c.stack == [] && c.w.yielded == 1 && !c.w.finished && c.w.counter == 0
    && c.w.observed == [0] && n + 1 in c.w.ors && c.w.ors[n + 1] == OrArm(Driver)
    && c.w.pending == [Registration(n + 2, OrChild(n + 1)), Registration(n + 3, OrChild(n + 1))]
  }

  /** Calling the decorated function runs to the yield, arms the `Or`, and both leaves register. */
  lemma RaceArms(n: nat) returns (idle: Config)
    ensures idle == Steps(Start(RaceBody(n)), 4) && RaceWaiting(idle, n)
  {
    var o := n + 1;
    var c0 := Start(RaceBody(n));
    var c1 := Step(c0);
    assert c1.stack == [Arm(Disj(o, Deferred(n + 2), Deferred(n + 3)), Driver)];
    var c2 := Step(c1);
    assert c2.stack == [Arm(Deferred(n + 2), OrChild(o)), Arm(Deferred(n + 3), OrChild(o))];
    var c3 := Step(c2);
    idle := Step(c3);
    StepsUnfold(c0, 3);
    StepsUnfold(c1, 2);
    StepsUnfold(c2, 1);
    StepsUnfold(c3, 0);
  }

  /** Whichever leaf fires first resumes the body, which has nothing more to yield and stops. */
  lemma RaceFirstFire(n: nat, idle: Config, first: nat) returns (resumed: Config)
    requires RaceWaiting(idle, n) && first < 2
    ensures resumed == Steps(Fire(idle, first), 2)
    ensures resumed.stack == [] && resumed.w.observed == [0, 0] && resumed.w.finished
    ensures resumed.w.pending == [idle.w.pending[1 - first]]
    ensures n + 1 in resumed.w.ors && resumed.w.ors[n + 1].isTriggered
  {
    var o := n + 1;
    var f := Fire(idle, first);
    assert f.stack == [Resume(OrChild(o))];
    assert f.w.pending == [idle.w.pending[1 - first]];
    var f1 := Step(f);
    assert f1.stack == [Resume(Driver)];
    resumed := Step(f1);
    StepsUnfold(f, 1);
    StepsUnfold(f1, 0);
  }

  /**
   * Both leaves register and the body waits; whichever fires first resumes
   * the body, which then stops; the other one firing afterwards runs the
   * `Or`'s callback and changes nothing else.
   */
  lemma RaceScenario(n: nat, first: nat) returns (idle: Config, resumed: Config, late: Config)
    requires first < 2
    ensures idle == Steps(Start(RaceBody(n)), 4)
    ensures idle.stack == [] && idle.w.observed == [0] && !idle.w.finished
    ensures idle.w.pending == [Registration(n + 2, OrChild(n + 1)), Registration(n + 3, OrChild(n + 1))]
    ensures resumed == Steps(Fire(idle, first), 2)
    ensures resumed.stack == [] && resumed.w.observed == [0, 0] && resumed.w.finished
    ensures resumed.w.pending == [idle.w.pending[1 - first]]
    ensures late == Steps(Fire(resumed, 0), 1)
    ensures late.stack == [] && late.w == resumed.w.(pending := [])
  {
    idle := RaceArms(n);
    resumed := RaceFirstFire(n, idle, first);
    var g := Fire(resumed, 0);
    OrLateFireIgnored(g, n + 1);
    late := Step(g);
    StepsUnfold(g, 0);
  }

  /** `yield a & b` for two events an outside source fires later. */
  function BothBody(n: nat): seq<Event>
  {
    [Conj(n + 1, Deferred(n + 2), Deferred(n + 3))]
  }

  /** The conjunction as it waits for its first fire. */
  predicate BothWaiting(c: Config, n: nat)
  {
    && c.body == BothBody(n) && c.stack == [] && c.w.yielded == 1 && !c.w.finished && c.w.counter == 0
    && c.w.observed == [0] && n + 1 in c.w.ands && c.w.ands[n + 1] == AndArm(2, Driver)
    && c.w.pending == [Registration(n + 2, AndChild(n + 1, n + 2)), Registration(n + 3, AndChild(n + 1, n + 3))]
  }

  lemma BothArms(n: nat) returns (idle: Config)
    ensures idle == Steps(Start(BothBody(n)), 4) && BothWaiting(idle, n)
  {
    var a := n + 1;
    var c0 := Start(BothBody(n));
    var c1 := Step(c0);
    assert c1.stack == [Arm(Conj(a, Deferred(n + 2), Deferred(n + 3)), Driver)];
    var c2 := Step(c1);
    AndFramesTwo(a, Deferred(n + 2), Deferred(n + 3));
    assert c2.stack == [Arm(Deferred(n + 2), AndChild(a, n + 2)), Arm(Deferred(n + 3), AndChild(a, n + 3))];
    var c3 := Step(c2);
    idle := Step(c3);
    StepsUnfold(c0, 3);
    StepsUnfold(c1, 2);
    StepsUnfold(c2, 1);
    StepsUnfold(c3, 0);
  }

  /** The first fire, whichever leaf it is, only counts that leaf. */
  lemma BothFirstFire(n: nat, idle: Config, first: nat) returns (half: Config)
    requires BothWaiting(idle, n) && first < 2
    ensures half == Steps(Fire(idle, first), 1)
    ensures half.stack == [] && half.w.observed == [0] && !half.w.finished && half.w.yielded == 1
    ensures half.body == BothBody(n) && half.w.counter == 0
    ensures half.w.pending == [idle.w.pending[1 - first]]
    ensures n + 1 in half.w.ands && half.w.ands[n + 1] == AndState(1, {idle.w.pending[first].leaf}, Driver)
  {
    var f := Fire(idle, first);
    assert f.stack == [Resume(idle.w.pending[first].k)];
    half := Step(f);
    StepsUnfold(f, 0);
  }

  /** The body waits through the first fire and resumes, then stops, on the second. */
  lemma BothScenario(n: nat, first: nat) returns (idle: Config, half: Config, resumed: Config)
    requires first < 2
    ensures idle == Steps(Start(BothBody(n)), 4)
    ensures idle.stack == [] && idle.w.observed == [0] && !idle.w.finished
    ensures idle.w.pending == [Registration(n + 2, AndChild(n + 1, n + 2)), Registration(n + 3, AndChild(n + 1, n + 3))]
    ensures half == Steps(Fire(idle, first), 1)
    ensures half.stack == [] && half.w.observed == [0] && !half.w.finished && |half.w.pending| == 1
    ensures resumed == Steps(Fire(half, 0), 2)
    ensures resumed.stack == [] && resumed.w.observed == [0, 0] && resumed.w.finished && resumed.w.pending == []
  {
    idle := BothArms(n);
    half := BothFirstFire(n, idle, first);
    resumed := BothSecondFire(n, idle, half, first);
  }

  /** The second fire completes the `And`, which resumes the body; it stops. */
  lemma BothSecondFire(n: nat, idle: Config, half: Config, first: nat) returns (resumed: Config)
    requires BothWaiting(idle, n) && first < 2
    requires half.stack == [] && half.w.observed == [0] && !half.w.finished && half.w.yielded == 1
    requires half.body == BothBody(n) && half.w.counter == 0
    requires half.w.pending == [idle.w.pending[1 - first]]
    requires n + 1 in half.w.ands && half.w.ands[n + 1] == AndState(1, {idle.w.pending[first].leaf}, Driver)
    ensures resumed == Steps(Fire(half, 0), 2)
    ensures resumed.stack == [] && resumed.w.observed == [0, 0] && resumed.w.finished && resumed.w.pending == []
  {
    var a := n + 1;
    var y := idle.w.pending[1 - first];
    var g := Fire(half, 0);
    assert g.stack == [Resume(AndChild(a, y.leaf))];
    assert y.leaf !in half.w.ands[a].triggered;
    var g1 := Step(g);
    assert g1.stack == [Resume(Driver)];
    resumed := Step(g1);
    StepsUnfold(g, 1);
    StepsUnfold(g1, 0);
  }

  /** `yield x & x`: one object armed twice under the same `And`. */
  function SharedBody(n: nat): seq<Event>
  {
    [And(n + 1, [Increment(n + 2), Increment(n + 2)])]
  }

  /**
   * Both arms fire, but the second fire carries an identity already
   * triggered and is ignored: the stack runs empty with the body never
   * resumed, although the counter shows both fires.
   */
  lemma SharedScenario(n: nat) returns (stuck: Config)
    ensures stuck == Steps(Start(SharedBody(n)), 6)
    ensures stuck.stack == [] && stuck.w.pending == []
    ensures stuck.w.observed == [0] && !stuck.w.finished && stuck.w.counter == 2
  {
    var a := n + 1;
    var x := Increment(n + 2);
    var c0 := Start(SharedBody(n));
    var c1 := Step(c0);
    assert c1.stack == [Arm(And(a, [x, x]), Driver)];
    var c2 := Step(c1);
    AndFramesTwo(a, x, x);
    assert c2.stack == [Arm(x, AndChild(a, n + 2)), Arm(x, AndChild(a, n + 2))];
    var c3 := Step(c2);
    var c4 := Step(c3);
    assert c4.w.ands[a] == AndState(1, {n + 2}, Driver);
    assert c4.stack == [Arm(x, AndChild(a, n + 2))];
    var c5 := Step(c4);
    AndDuplicateFireIgnored(c5, a, n + 2);
    stuck := Step(c5);
    StepsUnfold(c0, 5);
    StepsUnfold(c1, 4);
    StepsUnfold(c2, 3);
    StepsUnfold(c3, 2);
    StepsUnfold(c4, 1);
    StepsUnfold(c5, 0);
  }
}
