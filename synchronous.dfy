/**
 * Runs in which every event resumes inside its own arming call.
 *
 * The central fact: arming a synchronous event `e` with resume `k` reaches,
 * after finitely many steps, a stack whose top is the call of `k`; below it
 * sits `Leftover(e)`, the part of `e`'s own work that only runs once `k`
 * has returned (the `Or` siblings not yet armed, the leftovers of nested
 * bodies).  By then the counter has grown by `FireCost(e)`.  Running the
 * leftover later adds the rest, `Total(e) - FireCost(e)`.  Chaining these
 * along the driven body shows that a synchronous body runs to completion
 * within one call, and at which counter value each of its statements runs.
 */
module Synchronous {
  import opened Events
  import opened Combinators
  import opened Machine

  /** The work `e` still has to do when it resumes its caller. */
  function Leftover(e: Event): seq<Frame>
  {
    match e
    case Or(o, cs) => if cs == [] then [] else Leftover(cs[0]) + OrFrames(o, cs[1..])
    case And(_, cs) => if cs == [] then [] else Leftover(cs[|cs| - 1])
    case Generator(_, b) => LeftoverSeq(b)
    case _ => []
  }

  /** The leftovers of a run of yielded events, the latest on top. */
  function LeftoverSeq(es: seq<Event>): seq<Frame>
  {
    if es == [] then [] else Leftover(es[|es| - 1]) + LeftoverSeq(es[..|es| - 1])
  }

  /** The counter values at which a body's statements run: before each yield. */
  function Checkpoints(es: seq<Event>): seq<int>
  {
    if es == [] then [] else Checkpoints(es[..|es| - 1]) + [FireCostSeq(es[..|es| - 1])]
  }

  // ---------------------------------------------------------------------
  // Object states

  function GenPos(w: World, g: nat): nat
  {
    if g in w.gens then w.gens[g] else 0
  }

  /** No object with these identities has been armed yet. */
  ghost predicate FreshIn(w: World, s: set<nat>)
  {
    forall i :: i in s ==> i !in w.ands && i !in w.ors && i !in w.gens
  }

  /** The object with identity `i` is in the same state in both worlds. */
  ghost predicate Same(w: World, w': World, i: nat)
  {
    && (i in w.ands <==> i in w'.ands) && (i in w.ands ==> w.ands[i] == w'.ands[i])
    && (i in w.ors <==> i in w'.ors) && (i in w.ors ==> w.ors[i] == w'.ors[i])
    && (i in w.gens <==> i in w'.gens) && (i in w.gens ==> w.gens[i] == w'.gens[i])
  }

  ghost predicate SameOn(w: World, w': World, s: set<nat>)
  {
    forall i :: i in s ==> Same(w, w', i)
  }

  /** Everything but the counter and the objects in `s` is as it was. */
  ghost predicate Agree(w: World, w': World, s: set<nat>)
  {
    && w'.observed == w.observed && w'.yielded == w.yielded && w'.finished == w.finished
    && w'.pending == w.pending && w'.failed == w.failed
    && forall i :: i !in s ==> Same(w, w', i)
  }

  /**
   * The objects of `e` at the moment `e` resumes its caller: every
   * combinator armed so far has completed, the `Or` siblings after the
   * first child are not armed yet.
   */
  ghost predicate Fired(e: Event, w: World)
  {
    match e
    case Or(o, cs) =>
      && cs != [] && o in w.ors && w.ors[o].isTriggered && Fired(cs[0], w)
      && forall j :: 1 <= j < |cs| ==> FreshIn(w, Ids(cs[j]))
    case And(a, cs) =>
      && cs != [] && a in w.ands && Fired(cs[|cs| - 1], w)
      && forall j :: 0 <= j < |cs| - 1 ==> Done(cs[j], w)
    case Generator(g, b) =>
      GenPos(w, g) == |b| && forall j :: 0 <= j < |b| ==> Fired(b[j], w)
    case _ => true
  }

  /** The objects of `e` once all of its work, leftover included, has run. */
  ghost predicate Done(e: Event, w: World)
  {
    match e
    case Or(o, cs) => o in w.ors && w.ors[o].isTriggered && forall j :: 0 <= j < |cs| ==> Done(cs[j], w)
    case And(a, cs) => a in w.ands && forall j :: 0 <= j < |cs| ==> Done(cs[j], w)
    case Generator(g, b) => GenPos(w, g) == |b| && forall j :: 0 <= j < |b| ==> Done(b[j], w)
    case _ => true
  }

  // ---------------------------------------------------------------------
  // Frame lemmas

  lemma AgreeTrans(w1: World, w2: World, w3: World, s1: set<nat>, s2: set<nat>, s: set<nat>)
    requires Agree(w1, w2, s1) && Agree(w2, w3, s2) && s1 + s2 <= s
    ensures Agree(w1, w3, s)
  {
  }

  lemma AgreeSameOn(w: World, w': World, s: set<nat>, t: set<nat>)
    requires Agree(w, w', s) && s !! t
    ensures SameOn(w, w', t)
  {
  }

  lemma {:induction false} FiredKept(e: Event, w: World, w': World)
    requires SameOn(w, w', Ids(e)) && Fired(e, w)
    ensures Fired(e, w')
    decreases e, 1
  {
    match e
    case Immediate(_) =>
    case Increment(_) =>
    case Deferred(_) =>
    case Or(o, cs) =>
      IdsSeqCovers(cs, 0);
      FiredKept(cs[0], w, w');
      forall j | 1 <= j < |cs|
        ensures FreshIn(w', Ids(cs[j]))
      {
        IdsSeqCovers(cs, j);
      }
    case And(a, cs) =>
      IdsSeqCovers(cs, |cs| - 1);
      FiredKept(cs[|cs| - 1], w, w');
      forall j | 0 <= j < |cs| - 1
        ensures Done(cs[j], w')
      {
        IdsSeqCovers(cs, j);
        DoneKept(cs[j], w, w');
      }
    case Generator(g, b) =>
      assert Same(w, w', g);
      forall j | 0 <= j < |b|
        ensures Fired(b[j], w')
      {
        IdsSeqCovers(b, j);
        FiredKept(b[j], w, w');
      }
  }

  lemma {:induction false} DoneKept(e: Event, w: World, w': World)
    requires SameOn(w, w', Ids(e)) && Done(e, w)
    ensures Done(e, w')
    decreases e, 0
  {
    match e
    case Immediate(_) =>
    case Increment(_) =>
    case Deferred(_) =>
    case Or(o, cs) =>
      forall j | 0 <= j < |cs|
        ensures Done(cs[j], w')
      {
        IdsSeqCovers(cs, j);
        DoneKept(cs[j], w, w');
      }
    case And(a, cs) =>
      forall j | 0 <= j < |cs|
        ensures Done(cs[j], w')
      {
        IdsSeqCovers(cs, j);
        DoneKept(cs[j], w, w');
      }
    case Generator(g, b) =>
      assert Same(w, w', g);
      forall j | 0 <= j < |b|
        ensures Done(b[j], w')
      {
        IdsSeqCovers(b, j);
        DoneKept(b[j], w, w');
      }
  }

  /** The children of a distinct combinator: distinct, pairwise disjoint, apart from the parent. */
  lemma ChildFacts(i: nat, cs: seq<Event>, j: nat)
    requires i !in IdsSeq(cs) && DistinctSeq(cs) && j < |cs|
    ensures Distinct(cs[j]) && i !in Ids(cs[j]) && cs[j].id in Ids(cs[j])
    ensures Ids(cs[j]) <= IdsSeq(cs)
    ensures forall l :: 0 <= l < |cs| && l != j ==> Ids(cs[l]) !! Ids(cs[j])
  {
    IdsSeqCovers(cs, j);
    IdInIds(cs[j]);
    forall l | 0 <= l < |cs| && l != j
      ensures Ids(cs[l]) !! Ids(cs[j])
    {
      if l < j {
        assert Ids(cs[l]) !! Ids(cs[j]);
      } else {
        assert Ids(cs[j]) !! Ids(cs[l]);
      }
    }
  }

  /** An object untouched outside `s` stays unarmed. */
  lemma FreshAfter(w: World, w': World, s: set<nat>, t: set<nat>)
    requires Agree(w, w', s) && FreshIn(w, t) && s !! t
    ensures FreshIn(w', t)
  {
    forall i | i in t
      ensures i !in w'.ands && i !in w'.ors && i !in w'.gens
    {
      assert Same(w, w', i);
    }
  }

  /** When only child `j` and objects outside the children changed, every sibling keeps its state. */
  lemma SiblingsKept(es: seq<Event>, j: nat, extra: set<nat>, w: World, w': World)
    requires DistinctSeq(es) && j < |es| && extra !! IdsSeq(es)
    requires Agree(w, w', Ids(es[j]) + extra)
    ensures forall i :: 0 <= i < |es| && i != j && Fired(es[i], w) ==> Fired(es[i], w')
    ensures forall i :: 0 <= i < |es| && i != j && Done(es[i], w) ==> Done(es[i], w')
    ensures forall i :: 0 <= i < |es| && i != j && FreshIn(w, Ids(es[i])) ==> FreshIn(w', Ids(es[i]))
  {
    forall i | 0 <= i < |es| && i != j
      ensures (Fired(es[i], w) ==> Fired(es[i], w'))
           && (Done(es[i], w) ==> Done(es[i], w'))
           && (FreshIn(w, Ids(es[i])) ==> FreshIn(w', Ids(es[i])))
    {
      IdsSeqCovers(es, i);
      if i < j {
        assert Ids(es[i]) !! Ids(es[j]);
      } else {
        assert Ids(es[j]) !! Ids(es[i]);
      }
      AgreeSameOn(w, w', Ids(es[j]) + extra, Ids(es[i]));
      if Fired(es[i], w) {
        FiredKept(es[i], w, w');
      }
      if Done(es[i], w) {
        DoneKept(es[i], w, w');
      }
      if FreshIn(w, Ids(es[i])) {
        FreshAfter(w, w', Ids(es[j]) + extra, Ids(es[i]));
      }
    }
  }

  /** The identities of the first children, as `And` records them in `triggered`. */
  function ChildIds(cs: seq<Event>): set<nat>
  {
    if cs == [] then {} else ChildIds(cs[..|cs| - 1]) + {cs[|cs| - 1].id}
  }

  lemma {:induction false} ChildIdsAvoid(cs: seq<Event>, x: nat)
    requires forall i :: 0 <= i < |cs| ==> cs[i].id != x
    ensures x !in ChildIds(cs)
    decreases |cs|
  {
    if cs != [] {
      ChildIdsAvoid(cs[..|cs| - 1], x);
    }
  }

  /** Child `j` of a distinct combinator is new to the identities of the children before it. */
  lemma ChildIdApart(cs: seq<Event>, j: nat)
    requires DistinctSeq(cs) && j < |cs|
    ensures cs[j].id !in ChildIds(cs[..j])
    ensures ChildIds(cs[..j + 1]) == ChildIds(cs[..j]) + {cs[j].id}
  {
    forall i | 0 <= i < j
      ensures cs[..j][i].id != cs[j].id
    {
      IdInIds(cs[i]);
      IdInIds(cs[j]);
      assert Ids(cs[i]) !! Ids(cs[j]);
    }
    ChildIdsAvoid(cs[..j], cs[j].id);
    assert cs[..j + 1][..j] == cs[..j];
  }

  /** The identities of a prefix are apart from those of the next element. */
  lemma PrefixApart(es: seq<Event>, p: nat)
    requires DistinctSeq(es) && p < |es|
    ensures IdsSeq(es[..p]) !! Ids(es[p])
  {
    forall x | x in IdsSeq(es[..p])
      ensures x !in Ids(es[p])
    {
      var j := IdsSeqSource(es[..p], x);
      assert es[..p][j] == es[j];
    }
  }

  lemma OrFramesCons(o: nat, cs: seq<Event>, j: nat)
    requires j < |cs|
    ensures OrFrames(o, cs[j..]) == [Arm(cs[j], OrChild(o))] + OrFrames(o, cs[j + 1..])
  {
    assert cs[j..][1..] == cs[j + 1..];
  }

  lemma AndFramesCons(a: nat, cs: seq<Event>, j: nat)
    requires j < |cs|
    ensures AndFrames(a, cs[j..]) == [Arm(cs[j], AndChild(a, cs[j].id))] + AndFrames(a, cs[j + 1..])
  {
    assert cs[j..][1..] == cs[j + 1..];
  }

  lemma Assoc<T>(a: seq<T>, b: seq<T>, c: seq<T>)
    ensures (a + b) + c == a + (b + c)
  {
  }

  // ---------------------------------------------------------------------
  // Single steps, one lemma per kind of frame

  lemma StepArmLeaf(e: Event, k: Cont, rest: seq<Frame>, c: Config) returns (c': Config)
    requires e.Immediate? || e.Increment?
    requires c.stack == [Arm(e, k)] + rest
    ensures Reaches(c, c') && c'.body == c.body
    ensures c'.stack == [Resume(k)] + rest
    ensures c'.w == c.w.(counter := c.w.counter + FireCost(e))
  {
    assert c.stack[0] == Arm(e, k) && c.stack[1..] == rest;
    c' := Step(c);
    ReachesStep(c);
  }

  lemma StepArmOr(o: nat, cs: seq<Event>, k: Cont, rest: seq<Frame>, c: Config) returns (c': Config)
    requires c.stack == [Arm(Or(o, cs), k)] + rest
    ensures Reaches(c, c') && c'.body == c.body
    ensures c'.stack == OrFrames(o, cs) + rest
    ensures c'.w.counter == c.w.counter && Agree(c.w, c'.w, {o})
    ensures o in c'.w.ors && c'.w.ors[o] == OrArm(k)
  {
    assert c.stack[0] == Arm(Or(o, cs), k) && c.stack[1..] == rest;
    c' := Step(c);
    ReachesStep(c);
  }

  lemma StepArmAnd(a: nat, cs: seq<Event>, k: Cont, rest: seq<Frame>, c: Config) returns (c': Config)
    requires c.stack == [Arm(And(a, cs), k)] + rest
    ensures Reaches(c, c') && c'.body == c.body
    ensures c'.stack == AndFrames(a, cs) + rest
    ensures c'.w.counter == c.w.counter && Agree(c.w, c'.w, {a})
    ensures a in c'.w.ands && c'.w.ands[a] == AndState(|cs|, {}, k)
  {
    assert c.stack[0] == Arm(And(a, cs), k) && c.stack[1..] == rest;
    c' := Step(c);
    ReachesStep(c);
  }

  lemma StepArmGen(g: nat, b: seq<Event>, k: Cont, rest: seq<Frame>, c: Config) returns (c': Config)
    requires c.stack == [Arm(Generator(g, b), k)] + rest
    ensures Reaches(c, c') && c'.body == c.body
    ensures c'.stack == [Resume(Nested(g, b, k))] + rest && c'.w == c.w
  {
    assert c.stack[0] == Arm(Generator(g, b), k) && c.stack[1..] == rest;
    c' := Step(c);
    ReachesStep(c);
  }

  lemma StepOrFirst(o: nat, rest: seq<Frame>, c: Config) returns (c': Config)
    requires c.stack == [Resume(OrChild(o))] + rest
    requires o in c.w.ors && !c.w.ors[o].isTriggered
    ensures Reaches(c, c') && c'.body == c.body
    ensures c'.stack == [Resume(c.w.ors[o].resume)] + rest
    ensures c'.w.counter == c.w.counter && Agree(c.w, c'.w, {o})
    ensures o in c'.w.ors && c'.w.ors[o].isTriggered
  {
    assert c.stack[0] == Resume(OrChild(o)) && c.stack[1..] == rest;
    c' := Step(c);
    ReachesStep(c);
  }

  lemma StepOrLate(o: nat, rest: seq<Frame>, c: Config) returns (c': Config)
    requires c.stack == [Resume(OrChild(o))] + rest
    requires o in c.w.ors && c.w.ors[o].isTriggered
    ensures Reaches(c, c') && c'.body == c.body
    ensures c'.stack == rest && c'.w == c.w
  {
    assert c.stack[0] == Resume(OrChild(o)) && c.stack[1..] == rest;
    OrLateFireIgnored(c, o);
    c' := Step(c);
    ReachesStep(c);
  }

  lemma StepAndChild(a: nat, child: nat, rest: seq<Frame>, c: Config) returns (c': Config)
    requires c.stack == [Resume(AndChild(a, child))] + rest
    requires a in c.w.ands && child !in c.w.ands[a].triggered && c.w.ands[a].numLeft >= 1
    ensures Reaches(c, c') && c'.body == c.body
    ensures c'.stack == if c.w.ands[a].numLeft == 1 then [Resume(c.w.ands[a].resume)] + rest else rest
    ensures c'.w.counter == c.w.counter && Agree(c.w, c'.w, {a})
    ensures a in c'.w.ands
    ensures c'.w.ands[a] == AndState(c.w.ands[a].numLeft - 1, c.w.ands[a].triggered + {child}, c.w.ands[a].resume)
  {
    assert c.stack[0] == Resume(AndChild(a, child)) && c.stack[1..] == rest;
    c' := Step(c);
    ReachesStep(c);
  }

  lemma StepNestedNext(g: nat, b: seq<Event>, k: Cont, rest: seq<Frame>, c: Config) returns (c': Config)
    requires c.stack == [Resume(Nested(g, b, k))] + rest && GenPos(c.w, g) < |b|
    ensures Reaches(c, c') && c'.body == c.body
    ensures c'.stack == [Arm(b[GenPos(c.w, g)], Nested(g, b, k))] + rest
    ensures c'.w.counter == c.w.counter && Agree(c.w, c'.w, {g})
    ensures GenPos(c'.w, g) == GenPos(c.w, g) + 1
  {
    assert c.stack[0] == Resume(Nested(g, b, k)) && c.stack[1..] == rest;
    c' := Step(c);
    ReachesStep(c);
  }

  lemma StepNestedEnd(g: nat, b: seq<Event>, k: Cont, rest: seq<Frame>, c: Config) returns (c': Config)
    requires c.stack == [Resume(Nested(g, b, k))] + rest && GenPos(c.w, g) >= |b|
    ensures Reaches(c, c') && c'.body == c.body
    ensures c'.stack == [Resume(k)] + rest && c'.w == c.w
  {
    assert c.stack[0] == Resume(Nested(g, b, k)) && c.stack[1..] == rest;
    c' := Step(c);
    ReachesStep(c);
  }

  lemma StepDriverNext(rest: seq<Frame>, c: Config) returns (c': Config)
    requires c.stack == [Resume(Driver)] + rest && !c.w.finished && c.w.yielded < |c.body|
    ensures Reaches(c, c') && c'.body == c.body
    ensures c'.stack == [Arm(c.body[c.w.yielded], Driver)] + rest
    ensures c'.w == c.w.(observed := c.w.observed + [c.w.counter], yielded := c.w.yielded + 1)
  {
    assert c.stack[0] == Resume(Driver) && c.stack[1..] == rest;
    c' := Step(c);
    ReachesStep(c);
  }

  lemma StepDriverStop(rest: seq<Frame>, c: Config) returns (c': Config)
    requires c.stack == [Resume(Driver)] + rest && !c.w.finished && c.w.yielded >= |c.body|
    ensures Reaches(c, c') && c'.body == c.body
    ensures c'.stack == rest
    ensures c'.w == c.w.(observed := c.w.observed + [c.w.counter], finished := true)
  {
    assert c.stack[0] == Resume(Driver) && c.stack[1..] == rest;
    c' := Step(c);
    ReachesStep(c);
  }

  // ---------------------------------------------------------------------
  // Arming a synchronous event reaches the call of its resume

  /**
   * Arming a synchronous event `e` with `k` reaches the call of `k`, with
   * `e`'s leftover work queued beneath it, the counter grown by
   * `FireCost(e)`, and only `e`'s own objects touched.
   */
  lemma {:induction false} ArmFires(e: Event, k: Cont, rest: seq<Frame>, c: Config) returns (c': Config)
    requires Sync(e) && Distinct(e)
    requires c.stack == [Arm(e, k)] + rest
    requires FreshIn(c.w, Ids(e))
    ensures Reaches(c, c') && c'.body == c.body
    ensures c'.stack == [Resume(k)] + (Leftover(e) + rest)
    ensures c'.w.counter == c.w.counter + FireCost(e)
    ensures Agree(c.w, c'.w, Ids(e))
    ensures Fired(e, c'.w)
    decreases e, 4, 0, 0
  {
    match e
    case Immediate(_) =>
      c' := StepArmLeaf(e, k, rest, c);
    case Increment(_) =>
      c' := StepArmLeaf(e, k, rest, c);
    case Or(_, _) =>
      c' := ArmOrFires(e, k, rest, c);
    case And(_, _) =>
      c' := ArmAndFires(e, k, rest, c);
    case Generator(_, _) =>
      c' := ArmGenFires(e, k, rest, c);
  }

  /** `Or.__call__`: the flag is cleared, the first child fires it, and the outer resume runs. */
  lemma {:induction false} ArmOrFires(e: Event, k: Cont, rest: seq<Frame>, c: Config) returns (c': Config)
    requires e.Or? && Sync(e) && Distinct(e)
    requires c.stack == [Arm(e, k)] + rest
    requires FreshIn(c.w, Ids(e))
    ensures Reaches(c, c') && c'.body == c.body
    ensures c'.stack == [Resume(k)] + (Leftover(e) + rest)
    ensures c'.w.counter == c.w.counter + FireCost(e)
    ensures Agree(c.w, c'.w, Ids(e))
    ensures Fired(e, c'.w)
    decreases e, 3, 0, 0
  {
    var o, cs := e.id, e.children;
    var first := cs[0];
    ChildFacts(o, cs, 0);
    var c1 := StepArmOr(o, cs, k, rest, c);
    var more := OrFrames(o, cs[1..]) + rest;
    assert cs[0..] == cs;
    OrFramesCons(o, cs, 0);
    Assoc([Arm(first, OrChild(o))], OrFrames(o, cs[1..]), rest);
    FreshAfter(c.w, c1.w, {o}, Ids(first));
    var c2 := ArmFires(first, OrChild(o), more, c1);
    AgreeSameOn(c1.w, c2.w, Ids(first), {o});
    assert Same(c1.w, c2.w, o);
    var c3 := StepOrFirst(o, Leftover(first) + more, c2);
    Assoc(Leftover(first), OrFrames(o, cs[1..]), rest);
    ReachesTrans(c, c1, c2);
    ReachesTrans(c, c2, c3);
    AgreeTrans(c.w, c1.w, c2.w, {o}, Ids(first), Ids(first) + {o});
    AgreeTrans(c.w, c2.w, c3.w, Ids(first) + {o}, {o}, Ids(first) + {o});
    AgreeSameOn(c2.w, c3.w, {o}, Ids(first));
    FiredKept(first, c2.w, c3.w);
    forall j | 1 <= j < |cs|
      ensures FreshIn(c3.w, Ids(cs[j]))
    {
      ChildFacts(o, cs, j);
      FreshAfter(c.w, c3.w, Ids(first) + {o}, Ids(cs[j]));
    }
    c' := c3;
  }

  /** `And.__call__`: the activation is reset, then the children are armed in order. */
  lemma {:induction false} ArmAndFires(e: Event, k: Cont, rest: seq<Frame>, c: Config) returns (c': Config)
    requires e.And? && Sync(e) && Distinct(e)
    requires c.stack == [Arm(e, k)] + rest
    requires FreshIn(c.w, Ids(e))
    ensures Reaches(c, c') && c'.body == c.body
    ensures c'.stack == [Resume(k)] + (Leftover(e) + rest)
    ensures c'.w.counter == c.w.counter + FireCost(e)
    ensures Agree(c.w, c'.w, Ids(e))
    ensures Fired(e, c'.w)
    decreases e, 3, 0, 0
  {
    var a, cs := e.id, e.children;
    var c1 := StepArmAnd(a, cs, k, rest, c);
    forall j | 0 <= j < |cs|
      ensures FreshIn(c1.w, Ids(cs[j]))
    {
      ChildFacts(a, cs, j);
      FreshAfter(c.w, c1.w, {a}, Ids(cs[j]));
    }
    assert cs[..0] == [] && cs[0..] == cs;
    c' := ArmAndFrom(e, k, rest, c1, 0, c.w.counter);
    ReachesTrans(c, c1, c');
    AgreeTrans(c.w, c1.w, c'.w, {a}, Ids(e), Ids(e));
  }

  /** `Generator.__call__`: the internal resume is called at once and arms the first nested event. */
  lemma {:induction false} ArmGenFires(e: Event, k: Cont, rest: seq<Frame>, c: Config) returns (c': Config)
    requires e.Generator? && Sync(e) && Distinct(e)
    requires c.stack == [Arm(e, k)] + rest
    requires FreshIn(c.w, Ids(e))
    ensures Reaches(c, c') && c'.body == c.body
    ensures c'.stack == [Resume(k)] + (Leftover(e) + rest)
    ensures c'.w.counter == c.w.counter + FireCost(e)
    ensures Agree(c.w, c'.w, Ids(e))
    ensures Fired(e, c'.w)
    decreases e, 3, 0, 0
  {
    var g, b := e.id, e.body;
    var c1 := StepArmGen(g, b, k, rest, c);
    assert b[..0] == [];
    assert LeftoverSeq(b[..0]) + rest == rest;
    forall j | 0 <= j < |b|
      ensures FreshIn(c1.w, Ids(b[j]))
    {
      ChildFacts(g, b, j);
    }
    c' := NestedFrom(e, k, rest, c1, 0, c.w.counter);
    ReachesTrans(c, c1, c');
  }

  /** `And.__call__`'s loop from child `j` on; every earlier child has fired and finished. */
  lemma {:induction false} ArmAndFrom(e: Event, k: Cont, rest: seq<Frame>, c: Config, j: nat, base: int)
      returns (c': Config)
    requires e.And? && Sync(e) && Distinct(e) && j < |e.children|
    requires c.stack == AndFrames(e.id, e.children[j..]) + rest
    requires e.id in c.w.ands
    requires c.w.ands[e.id] == AndState(|e.children| - j, ChildIds(e.children[..j]), k)
    requires forall i :: 0 <= i < j ==> Done(e.children[i], c.w)
    requires forall i :: j <= i < |e.children| ==> FreshIn(c.w, Ids(e.children[i]))
    requires c.w.counter == base + TotalSeq(e.children[..j])
    ensures Reaches(c, c') && c'.body == c.body
    ensures c'.stack == [Resume(k)] + (Leftover(e) + rest)
    ensures c'.w.counter == base + FireCost(e)
    ensures Agree(c.w, c'.w, Ids(e))
    ensures Fired(e, c'.w)
    decreases e, 2, |e.children| - j, 2
  {
    var a, cs := e.id, e.children;
    var c3 := AndChildFires(e, k, rest, c, j, base);
    if j == |cs| - 1 {
      assert cs[..|cs| - 1] == cs[..j];
      c' := c3;
    } else {
      ChildFacts(a, cs, j);
      var c4 := AndChildFinishes(e, k, rest, c3, j, base);
      ReachesTrans(c, c3, c4);
      AgreeTrans(c.w, c3.w, c4.w, Ids(cs[j]) + {a}, Ids(cs[j]), Ids(e));
      c' := ArmAndFrom(e, k, rest, c4, j + 1, base);
      ReachesTrans(c, c4, c');
      AgreeTrans(c.w, c4.w, c'.w, Ids(e), Ids(e), Ids(e));
    }
  }

  /** Child `j` of an `And` is armed and, being synchronous, reports to the activation. */
  lemma {:induction false} AndChildFires(e: Event, k: Cont, rest: seq<Frame>, c: Config, j: nat, base: int)
      returns (c': Config)
    requires e.And? && Sync(e) && Distinct(e) && j < |e.children|
    requires c.stack == AndFrames(e.id, e.children[j..]) + rest
    requires e.id in c.w.ands
    requires c.w.ands[e.id] == AndState(|e.children| - j, ChildIds(e.children[..j]), k)
    requires forall i :: 0 <= i < j ==> Done(e.children[i], c.w)
    requires forall i :: j <= i < |e.children| ==> FreshIn(c.w, Ids(e.children[i]))
    requires c.w.counter == base + TotalSeq(e.children[..j])
    ensures Reaches(c, c') && c'.body == c.body
    ensures j == |e.children| - 1 ==> c'.stack == [Resume(k)] + (Leftover(e) + rest)
    ensures j < |e.children| - 1 ==>
              c'.stack == Leftover(e.children[j]) + (AndFrames(e.id, e.children[j + 1..]) + rest)
    ensures e.id in c'.w.ands
    ensures c'.w.ands[e.id] == AndState(|e.children| - j - 1, ChildIds(e.children[..j + 1]), k)
    ensures Fired(e.children[j], c'.w)
    ensures forall i :: 0 <= i < j ==> Done(e.children[i], c'.w)
    ensures forall i :: j < i < |e.children| ==> FreshIn(c'.w, Ids(e.children[i]))
    ensures c'.w.counter == base + TotalSeq(e.children[..j]) + FireCost(e.children[j])
    ensures Agree(c.w, c'.w, Ids(e.children[j]) + {e.id})
    decreases e, 2, |e.children| - j, 1
  {
    var a, cs := e.id, e.children;
    var child := cs[j];
    ChildFacts(a, cs, j);
    ChildIdApart(cs, j);
    var more := AndFrames(a, cs[j + 1..]) + rest;
    AndFramesCons(a, cs, j);
    Assoc([Arm(child, AndChild(a, child.id))], AndFrames(a, cs[j + 1..]), rest);
    var c2 := ArmFires(child, AndChild(a, child.id), more, c);
    AgreeSameOn(c.w, c2.w, Ids(child), {a});
    assert Same(c.w, c2.w, a);
    c' := StepAndChild(a, child.id, Leftover(child) + more, c2);
    ReachesTrans(c, c2, c');
    AgreeTrans(c.w, c2.w, c'.w, Ids(child), {a}, Ids(child) + {a});
    AgreeSameOn(c2.w, c'.w, {a}, Ids(child));
    FiredKept(child, c2.w, c'.w);
    SiblingsKept(cs, j, {a}, c.w, c'.w);
    if j == |cs| - 1 {
      assert cs[j + 1..] == [];
      assert more == rest;
    }
  }

  /** The leftover of child `j` runs once the outer resume has returned; the next child is then armed. */
  lemma {:induction false} AndChildFinishes(e: Event, k: Cont, rest: seq<Frame>, c: Config, j: nat, base: int)
      returns (c': Config)
    requires e.And? && Sync(e) && Distinct(e) && j < |e.children| - 1
    requires c.stack == Leftover(e.children[j]) + (AndFrames(e.id, e.children[j + 1..]) + rest)
    requires e.id in c.w.ands
    requires c.w.ands[e.id] == AndState(|e.children| - j - 1, ChildIds(e.children[..j + 1]), k)
    requires Fired(e.children[j], c.w)
    requires forall i :: 0 <= i < j ==> Done(e.children[i], c.w)
    requires forall i :: j < i < |e.children| ==> FreshIn(c.w, Ids(e.children[i]))
    requires c.w.counter == base + TotalSeq(e.children[..j]) + FireCost(e.children[j])
    ensures Reaches(c, c') && c'.body == c.body
    ensures c'.stack == AndFrames(e.id, e.children[j + 1..]) + rest
    ensures e.id in c'.w.ands
    ensures c'.w.ands[e.id] == AndState(|e.children| - (j + 1), ChildIds(e.children[..j + 1]), k)
    ensures forall i :: 0 <= i < j + 1 ==> Done(e.children[i], c'.w)
    ensures forall i :: j + 1 <= i < |e.children| ==> FreshIn(c'.w, Ids(e.children[i]))
    ensures c'.w.counter == base + TotalSeq(e.children[..j + 1])
    ensures Agree(c.w, c'.w, Ids(e.children[j]))
    decreases e, 2, |e.children| - j, 0
  {
    var a, cs := e.id, e.children;
    var child := cs[j];
    ChildFacts(a, cs, j);
    c' := LeftoverRuns(child, AndFrames(a, cs[j + 1..]) + rest, c);
    AgreeSameOn(c.w, c'.w, Ids(child), {a});
    assert Same(c.w, c'.w, a);
    SiblingsKept(cs, j, {}, c.w, c'.w);
    assert cs[..j + 1][..j] == cs[..j];
  }

  /** A `Generator`'s internal resume after `p` nested events have resumed it. */
  lemma {:induction false} NestedFrom(e: Event, k: Cont, rest: seq<Frame>, c: Config, p: nat, base: int)
      returns (c': Config)
    requires e.Generator? && Sync(e) && Distinct(e) && p <= |e.body|
    requires c.stack == [Resume(Nested(e.id, e.body, k))] + (LeftoverSeq(e.body[..p]) + rest)
    requires GenPos(c.w, e.id) == p
    requires forall i :: 0 <= i < p ==> Fired(e.body[i], c.w)
    requires forall i :: p <= i < |e.body| ==> FreshIn(c.w, Ids(e.body[i]))
    requires c.w.counter == base + FireCostSeq(e.body[..p])
    ensures Reaches(c, c') && c'.body == c.body
    ensures c'.stack == [Resume(k)] + (Leftover(e) + rest)
    ensures c'.w.counter == base + FireCost(e)
    ensures Agree(c.w, c'.w, Ids(e))
    ensures Fired(e, c'.w)
    decreases e, 2, |e.body| - p, 1
  {
    var g, b := e.id, e.body;
    if p == |b| {
      assert b[..p] == b;
      c' := StepNestedEnd(g, b, k, LeftoverSeq(b[..p]) + rest, c);
    } else {
      var c3 := NestedNext(e, k, rest, c, p, base);
      c' := NestedFrom(e, k, rest, c3, p + 1, base);
      ReachesTrans(c, c3, c');
      AgreeTrans(c.w, c3.w, c'.w, Ids(e), Ids(e), Ids(e));
    }
  }

  /** The internal resume arms nested event `p`, which resumes it again synchronously. */
  lemma {:induction false} NestedNext(e: Event, k: Cont, rest: seq<Frame>, c: Config, p: nat, base: int)
      returns (c': Config)
    requires e.Generator? && Sync(e) && Distinct(e) && p < |e.body|
    requires c.stack == [Resume(Nested(e.id, e.body, k))] + (LeftoverSeq(e.body[..p]) + rest)
    requires GenPos(c.w, e.id) == p
    requires forall i :: 0 <= i < p ==> Fired(e.body[i], c.w)
    requires forall i :: p <= i < |e.body| ==> FreshIn(c.w, Ids(e.body[i]))
    requires c.w.counter == base + FireCostSeq(e.body[..p])
    ensures Reaches(c, c') && c'.body == c.body
    ensures c'.stack == [Resume(Nested(e.id, e.body, k))] + (LeftoverSeq(e.body[..p + 1]) + rest)
    ensures GenPos(c'.w, e.id) == p + 1
    ensures forall i :: 0 <= i < p + 1 ==> Fired(e.body[i], c'.w)
    ensures forall i :: p + 1 <= i < |e.body| ==> FreshIn(c'.w, Ids(e.body[i]))
    ensures c'.w.counter == base + FireCostSeq(e.body[..p + 1])
    ensures Agree(c.w, c'.w, Ids(e))
    decreases e, 2, |e.body| - p, 0
  {
    var g, b := e.id, e.body;
    var item := b[p];
    ChildFacts(g, b, p);
    var below := LeftoverSeq(b[..p]) + rest;
    assert c.stack == [Resume(Nested(g, b, k))] + below;
    var c2 := StepNestedNext(g, b, k, below, c);
    FreshAfter(c.w, c2.w, {g}, Ids(item));
    c' := ArmFires(item, Nested(g, b, k), below, c2);
    Assoc(Leftover(item), LeftoverSeq(b[..p]), rest);
    ReachesTrans(c, c2, c');
    AgreeTrans(c.w, c2.w, c'.w, {g}, Ids(item), Ids(item) + {g});
    AgreeSameOn(c2.w, c'.w, Ids(item), {g});
    assert Same(c2.w, c'.w, g);
    SiblingsKept(b, p, {g}, c.w, c'.w);
    PrefixGrows(b, p);
  }

  // ---------------------------------------------------------------------
  // Running the leftover work

  /** Running the leftover of a fired event adds the rest of its work and completes its objects. */
  lemma {:induction false} LeftoverRuns(e: Event, rest: seq<Frame>, c: Config) returns (c': Config)
    requires Sync(e) && Distinct(e)
    requires c.stack == Leftover(e) + rest
    requires Fired(e, c.w)
    ensures Reaches(c, c') && c'.body == c.body
    ensures c'.stack == rest
    ensures c'.w.counter == c.w.counter + Total(e) - FireCost(e)
    ensures Agree(c.w, c'.w, Ids(e))
    ensures Done(e, c'.w)
    decreases e, 4, 0, 0
  {
    match e
    case Immediate(_) =>
      c' := c;
      ReachesRefl(c);
    case Increment(_) =>
      c' := c;
      ReachesRefl(c);
    case Or(_, _) =>
      c' := LeftoverOrRuns(e, rest, c);
    case And(a, cs) =>
      var last := cs[|cs| - 1];
      ChildFacts(a, cs, |cs| - 1);
      c' := LeftoverRuns(last, rest, c);
      AgreeSameOn(c.w, c'.w, Ids(last), {a});
      assert Same(c.w, c'.w, a);
      SiblingsKept(cs, |cs| - 1, {}, c.w, c'.w);
    case Generator(g, b) =>
      assert b[..|b|] == b;
      c' := LeftoverSeqRuns(b, rest, c, |b|);
      AgreeSameOn(c.w, c'.w, IdsSeq(b), {g});
      assert Same(c.w, c'.w, g);
  }

  /** What an `Or` leaves behind: its first child's leftover, then the arms of the later children. */
  lemma {:induction false} LeftoverOrRuns(e: Event, rest: seq<Frame>, c: Config) returns (c': Config)
    requires e.Or? && Sync(e) && Distinct(e)
    requires c.stack == Leftover(e) + rest
    requires Fired(e, c.w)
    ensures Reaches(c, c') && c'.body == c.body
    ensures c'.stack == rest
    ensures c'.w.counter == c.w.counter + Total(e) - FireCost(e)
    ensures Agree(c.w, c'.w, Ids(e))
    ensures Done(e, c'.w)
    decreases e, 3, 0, 0
  {
    var o, cs := e.id, e.children;
    var first := cs[0];
    ChildFacts(o, cs, 0);
    var more := OrFrames(o, cs[1..]) + rest;
    Assoc(Leftover(first), OrFrames(o, cs[1..]), rest);
    var c1 := LeftoverRuns(first, more, c);
    AgreeSameOn(c.w, c1.w, Ids(first), {o});
    assert Same(c.w, c1.w, o);
    SiblingsKept(cs, 0, {}, c.w, c1.w);
    assert cs[..1][..0] == [];
    assert cs[..1][0] == first;
    assert TotalSeq(cs[..1]) == Total(first);
    c' := OrRestFrom(e, rest, c1, 1, c.w.counter - FireCost(first));
    ReachesTrans(c, c1, c');
    AgreeTrans(c.w, c1.w, c'.w, Ids(first), Ids(e), Ids(e));
  }

  /** The rest of `Or.__call__`'s loop: every later child fires into a set flag. */
  lemma {:induction false} OrRestFrom(e: Event, rest: seq<Frame>, c: Config, j: nat, base: int)
      returns (c': Config)
    requires e.Or? && Sync(e) && Distinct(e) && 1 <= j <= |e.children|
    requires c.stack == OrFrames(e.id, e.children[j..]) + rest
    requires e.id in c.w.ors && c.w.ors[e.id].isTriggered
    requires forall i :: 0 <= i < j ==> Done(e.children[i], c.w)
    requires forall i :: j <= i < |e.children| ==> FreshIn(c.w, Ids(e.children[i]))
    requires c.w.counter == base + TotalSeq(e.children[..j])
    ensures Reaches(c, c') && c'.body == c.body
    ensures c'.stack == rest
    ensures c'.w.counter == base + Total(e)
    ensures Agree(c.w, c'.w, Ids(e))
    ensures Done(e, c'.w)
    decreases e, 2, |e.children| - j, 2
  {
    var cs := e.children;
    if j == |cs| {
      assert cs[..j] == cs;
      assert cs[j..] == [];
      c' := c;
      ReachesRefl(c);
    } else {
      var c4 := OrLateChild(e, rest, c, j, base);
      c' := OrRestFrom(e, rest, c4, j + 1, base);
      ReachesTrans(c, c4, c');
      AgreeTrans(c.w, c4.w, c'.w, Ids(e), Ids(e), Ids(e));
    }
  }

  /** A later child of an `Or` fires into the set flag; nothing resumes, and its leftover runs. */
  lemma {:induction false} OrLateChild(e: Event, rest: seq<Frame>, c: Config, j: nat, base: int)
      returns (c': Config)
    requires e.Or? && Sync(e) && Distinct(e) && 1 <= j < |e.children|
    requires c.stack == OrFrames(e.id, e.children[j..]) + rest
    requires e.id in c.w.ors && c.w.ors[e.id].isTriggered
    requires forall i :: 0 <= i < j ==> Done(e.children[i], c.w)
    requires forall i :: j <= i < |e.children| ==> FreshIn(c.w, Ids(e.children[i]))
    requires c.w.counter == base + TotalSeq(e.children[..j])
    ensures Reaches(c, c') && c'.body == c.body
    ensures c'.stack == OrFrames(e.id, e.children[j + 1..]) + rest
    ensures e.id in c'.w.ors && c'.w.ors[e.id].isTriggered
    ensures forall i :: 0 <= i < j + 1 ==> Done(e.children[i], c'.w)
    ensures forall i :: j + 1 <= i < |e.children| ==> FreshIn(c'.w, Ids(e.children[i]))
    ensures c'.w.counter == base + TotalSeq(e.children[..j + 1])
    ensures Agree(c.w, c'.w, Ids(e))
    decreases e, 2, |e.children| - j, 1
  {
    var o, cs := e.id, e.children;
    var child := cs[j];
    ChildFacts(o, cs, j);
    var more := OrFrames(o, cs[j + 1..]) + rest;
    var c3 := OrLateFires(e, rest, c, j);
    c' := LeftoverRuns(child, more, c3);
    ReachesTrans(c, c3, c');
    AgreeTrans(c.w, c3.w, c'.w, Ids(child), Ids(child), Ids(child));
    AgreeSameOn(c.w, c'.w, Ids(child), {o});
    assert Same(c.w, c'.w, o);
    SiblingsKept(cs, j, {}, c.w, c'.w);
    TotalGrows(cs, j);
  }

  /** The work of a prefix grows by the next event's work. */
  lemma TotalGrows(es: seq<Event>, j: nat)
    requires j < |es|
    ensures TotalSeq(es[..j + 1]) == TotalSeq(es[..j]) + Total(es[j])
  {
    assert es[..j + 1][..j] == es[..j];
    assert es[..j + 1][j] == es[j];
  }

  /** The arming and the ignored report of a later `Or` child, before its leftover runs. */
  lemma {:induction false} OrLateFires(e: Event, rest: seq<Frame>, c: Config, j: nat)
      returns (c': Config)
    requires e.Or? && Sync(e) && Distinct(e) && 1 <= j < |e.children|
    requires c.stack == OrFrames(e.id, e.children[j..]) + rest
    requires e.id in c.w.ors && c.w.ors[e.id].isTriggered
    requires FreshIn(c.w, Ids(e.children[j]))
    ensures Reaches(c, c') && c'.body == c.body
    ensures c'.stack == Leftover(e.children[j]) + (OrFrames(e.id, e.children[j + 1..]) + rest)
    ensures Fired(e.children[j], c'.w)
    ensures c'.w.counter == c.w.counter + FireCost(e.children[j])
    ensures Agree(c.w, c'.w, Ids(e.children[j]))
    decreases e, 2, |e.children| - j, 0
  {
    var o, cs := e.id, e.children;
    var child := cs[j];
    ChildFacts(o, cs, j);
    var more := OrFrames(o, cs[j + 1..]) + rest;
    OrFramesCons(o, cs, j);
    Assoc([Arm(child, OrChild(o))], OrFrames(o, cs[j + 1..]), rest);
    var c2 := ArmFires(child, OrChild(o), more, c);
    AgreeSameOn(c.w, c2.w, Ids(child), {o});
    assert Same(c.w, c2.w, o);
    c' := StepOrLate(o, Leftover(child) + more, c2);
    ReachesTrans(c, c2, c');
  }

  /** The leftovers of the first `p` yielded events, latest first, run down to `rest`. */
  lemma {:induction false} LeftoverSeqRuns(es: seq<Event>, rest: seq<Frame>, c: Config, p: nat)
      returns (c': Config)
    requires SyncSeq(es) && DistinctSeq(es) && p <= |es|
    requires c.stack == LeftoverSeq(es[..p]) + rest
    requires forall i :: 0 <= i < p ==> Fired(es[i], c.w)
    ensures Reaches(c, c') && c'.body == c.body
    ensures c'.stack == rest
    ensures c'.w.counter == c.w.counter + TotalSeq(es[..p]) - FireCostSeq(es[..p])
    ensures Agree(c.w, c'.w, IdsSeq(es[..p]))
    ensures forall i :: 0 <= i < p ==> Done(es[i], c'.w)
    decreases es, 2, p, 0
  {
    if p == 0 {
      c' := c;
      ReachesRefl(c);
    } else {
      var item := es[p - 1];
      assert es[..p][..p - 1] == es[..p - 1];
      assert es[..p][p - 1] == item;
      Assoc(Leftover(item), LeftoverSeq(es[..p - 1]), rest);
      var c1 := LeftoverRuns(item, LeftoverSeq(es[..p - 1]) + rest, c);
      SiblingsKept(es, p - 1, {}, c.w, c1.w);
      c' := LeftoverSeqRuns(es, rest, c1, p - 1);
      ReachesTrans(c, c1, c');
      AgreeTrans(c.w, c1.w, c'.w, Ids(item), IdsSeq(es[..p - 1]), IdsSeq(es[..p]));
      PrefixApart(es, p - 1);
      AgreeSameOn(c1.w, c'.w, IdsSeq(es[..p - 1]), Ids(item));
      DoneKept(item, c1.w, c'.w);
    }
  }

  // ---------------------------------------------------------------------
  // The driven body

  /** Entry `j` of the checkpoints is the counter after the first `j` events have resumed. */
  lemma {:induction false} CheckpointsAt(es: seq<Event>)
    ensures |Checkpoints(es)| == |es|
    ensures forall j :: 0 <= j < |es| ==> Checkpoints(es)[j] == FireCostSeq(es[..j])
    decreases |es|
  {
    if es != [] {
      var p := es[..|es| - 1];
      CheckpointsAt(p);
      forall j | 0 <= j < |es| - 1
        ensures Checkpoints(es)[j] == FireCostSeq(es[..j])
      {
        assert p[..j] == es[..j];
      }
    }
  }

  /** Changing only the driver's own bookkeeping keeps every object as it was. */
  lemma DriverKeepsObjects(es: seq<Event>, lo: nat, w: World, w': World)
    requires w'.ands == w.ands && w'.ors == w.ors && w'.gens == w.gens && lo <= |es|
    requires forall i :: 0 <= i < lo ==> Fired(es[i], w)
    requires forall i :: lo <= i < |es| ==> FreshIn(w, Ids(es[i]))
    ensures forall i :: 0 <= i < lo ==> Fired(es[i], w')
    ensures forall i :: lo <= i < |es| ==> FreshIn(w', Ids(es[i]))
  {
    forall i | 0 <= i < lo
      ensures Fired(es[i], w')
    {
      FiredKept(es[i], w, w');
    }
  }

  /** `resume_gen` called for the `p+1`-th time: it records the counter and runs the body on. */
  lemma {:induction false} DriverFrom(c: Config, p: nat) returns (c': Config)
    requires SyncSeq(c.body) && DistinctSeq(c.body) && p <= |c.body|
    requires c.stack == [Resume(Driver)] + LeftoverSeq(c.body[..p])
    requires c.w.yielded == p && !c.w.finished && !c.w.failed && c.w.pending == []
    requires c.w.observed == Checkpoints(c.body[..p])
    requires forall i :: 0 <= i < p ==> Fired(c.body[i], c.w)
    requires forall i :: p <= i < |c.body| ==> FreshIn(c.w, Ids(c.body[i]))
    requires c.w.counter == FireCostSeq(c.body[..p])
    ensures Reaches(c, c') && c'.body == c.body
    ensures c'.stack == [] && c'.w.finished && !c'.w.failed && c'.w.pending == []
    ensures c'.w.counter == TotalSeq(c.body)
    ensures c'.w.observed == Checkpoints(c.body) + [FireCostSeq(c.body)]
    decreases |c.body| - p
  {
    var b := c.body;
    if p == |b| {
      assert b[..p] == b;
      var c1 := StepDriverStop(LeftoverSeq(b), c);
      DriverKeepsObjects(b, p, c.w, c1.w);
      assert c1.stack == LeftoverSeq(b[..p]) + [];
      c' := LeftoverSeqRuns(b, [], c1, p);
      ReachesTrans(c, c1, c');
    } else {
      var c2 := DriverNext(c, p);
      c' := DriverFrom(c2, p + 1);
      ReachesTrans(c, c2, c');
    }
  }

  /** One round of the driver: the body yields its `p`-th event, which fires and resumes it. */
  lemma DriverNext(c: Config, p: nat) returns (c2: Config)
    requires SyncSeq(c.body) && DistinctSeq(c.body) && p < |c.body|
    requires c.stack == [Resume(Driver)] + LeftoverSeq(c.body[..p])
    requires c.w.yielded == p && !c.w.finished && !c.w.failed && c.w.pending == []
    requires c.w.observed == Checkpoints(c.body[..p])
    requires forall i :: 0 <= i < p ==> Fired(c.body[i], c.w)
    requires forall i :: p <= i < |c.body| ==> FreshIn(c.w, Ids(c.body[i]))
    requires c.w.counter == FireCostSeq(c.body[..p])
    ensures Reaches(c, c2) && c2.body == c.body
    ensures c2.stack == [Resume(Driver)] + LeftoverSeq(c.body[..p + 1])
    ensures c2.w.yielded == p + 1 && !c2.w.finished && !c2.w.failed && c2.w.pending == []
    ensures c2.w.observed == Checkpoints(c.body[..p + 1])
    ensures forall i :: 0 <= i < p + 1 ==> Fired(c.body[i], c2.w)
    ensures forall i :: p + 1 <= i < |c.body| ==> FreshIn(c2.w, Ids(c.body[i]))
    ensures c2.w.counter == FireCostSeq(c.body[..p + 1])
  {
    var b := c.body;
    var item := b[p];
    var c1 := StepDriverNext(LeftoverSeq(b[..p]), c);
    DriverKeepsObjects(b, p, c.w, c1.w);
    c2 := ArmFires(item, Driver, LeftoverSeq(b[..p]), c1);
    ReachesTrans(c, c1, c2);
    SiblingsKept(b, p, {}, c1.w, c2.w);
    PrefixGrows(b, p);
  }

  /** How the prefix functions grow when the body yields one more event. */
  lemma PrefixGrows(b: seq<Event>, p: nat)
    requires p < |b|
    ensures LeftoverSeq(b[..p + 1]) == Leftover(b[p]) + LeftoverSeq(b[..p])
    ensures Checkpoints(b[..p + 1]) == Checkpoints(b[..p]) + [FireCostSeq(b[..p])]
    ensures FireCostSeq(b[..p + 1]) == FireCostSeq(b[..p]) + FireCost(b[p])
  {
    assert b[..p + 1][..p] == b[..p];
    assert b[..p + 1][p] == b[p];
  }

  /**
   * The main property of a synchronous body (every event it yields, and
   * every event nested in those, resumes inside its own arming call) whose
   * event objects are all distinct: calling the decorated function runs
   * the whole body to completion before the call returns, with no
   * assertion failure and nothing left registered.  The body runs on
   * `|body| + 1` times, the `j`-th time with the counter at the fire cost
   * of its first `j` events, and at the end the counter holds the total
   * work of every event, leftovers included.
   */
  lemma SyncBodyRunsToCompletion(body: seq<Event>) returns (c': Config)
    requires SyncSeq(body) && DistinctSeq(body)
    ensures Reaches(Start(body), c')
    ensures c'.stack == [] && c'.w.finished && !c'.w.failed && c'.w.pending == []
    ensures c'.w.counter == TotalSeq(body)
    ensures |c'.w.observed| == |body| + 1
    ensures forall j :: 0 <= j <= |body| ==> c'.w.observed[j] == FireCostSeq(body[..j])
  {
    var c := Start(body);
    assert body[..0] == [];
    assert c.stack == [Resume(Driver)] + LeftoverSeq(body[..0]);
    c' := DriverFrom(c, 0);
    CheckpointsAt(body);
    assert body[..|body|] == body;
  }
}
