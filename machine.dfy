/**
 * The scheduler as a machine over an explicit call stack.
 *
 * In the library every resume is an ordinary, re-entrant function call:
 * when a child fires inside `Or.__call__`'s arming loop, the outer body
 * resumes and runs on before the remaining siblings are armed.  Here the
 * Python call stack is a sequence of frames; a step pops the top frame and
 * pushes the calls it makes, above the work still waiting in the frames
 * below.  Combinator activations and generator positions live in maps
 * keyed by the instance's identity.
 */
module Machine {
  import opened Events
  import opened Combinators

  /** The resume callbacks the library hands out. */
  datatype Cont =
      /** `resume_gen` of the `callbackgoaway` wrapper: advances the driven body. */
    | Driver
      /** `partial(And.on_child_event, id(child))` */
    | AndChild(owner: nat, child: nat)
      /** `partial(Or.on_child_event)` */
    | OrChild(owner: nat)
      /** `internal_resume_gen` of a `Generator` instance; `outer` is the resume it was armed with. */
    | Nested(gen: nat, body: seq<Event>, outer: Cont)

  /** A pending call: an event being armed, or a resume callback being called. */
  datatype Frame = Arm(event: Event, k: Cont) | Resume(k: Cont)

  /** A deferred leaf waiting for its outside source. */
  datatype Registration = Registration(leaf: nat, k: Cont)

  datatype World = World(
    counter: int,                      // the counter the `Increament` test double bumps
    observed: seq<int>,                // the counter each time the driven body ran on
    yielded: nat,                      // events the driven body has yielded
    finished: bool,                    // the driven body stopped (StopIteration swallowed)
    ands: map<nat, AndState<Cont>>,    // activation of each armed `And`
    ors: map<nat, OrState<Cont>>,      // activation of each armed `Or`
    gens: map<nat, nat>,               // events consumed from each `Generator`'s body
    pending: seq<Registration>,        // deferred leaves armed and not yet fired
    failed: bool)                      // an assertion raised and unwound every frame

  /** A driven body, the call stack, and the state of every object. */
  datatype Config = Config(body: seq<Event>, stack: seq<Frame>, w: World)

  const EmptyWorld: World := World(0, [], 0, false, map[], map[], map[], [], false)

  /** Calling the decorated function: the body is created, then `resume_gen()` is called. */
  function Start(body: seq<Event>): Config
  {
    Config(body, [Resume(Driver)], EmptyWorld)
  }

  /** The `Arm` frames `And.__call__`'s loop makes, one per child, in declaration order. */
  function AndFrames(owner: nat, cs: seq<Event>): (fs: seq<Frame>)
    ensures |fs| == |cs|
    ensures forall j :: 0 <= j < |cs| ==> fs[j] == Arm(cs[j], AndChild(owner, cs[j].id))
  {
    if cs == [] then [] else [Arm(cs[0], AndChild(owner, cs[0].id))] + AndFrames(owner, cs[1..])
  }

  /** The `Arm` frames `Or.__call__`'s loop makes, one per child, in declaration order. */
  function OrFrames(owner: nat, cs: seq<Event>): (fs: seq<Frame>)
    ensures |fs| == |cs|
    ensures forall j :: 0 <= j < |cs| ==> fs[j] == Arm(cs[j], OrChild(owner))
  {
    if cs == [] then [] else [Arm(cs[0], OrChild(owner))] + OrFrames(owner, cs[1..])
  }

  /** Calling an event with a resume callback. */
  function ArmStep(body: seq<Event>, e: Event, k: Cont, rest: seq<Frame>, w: World): Config
  {
    match e
    case Immediate(_) =>
      Config(body, [Resume(k)] + rest, w)
    case Increment(_) =>
      Config(body, [Resume(k)] + rest, w.(counter := w.counter + 1))
    case Deferred(i) =>
      Config(body, rest, w.(pending := w.pending + [Registration(i, k)]))
    case And(a, cs) =>
      Config(body, AndFrames(a, cs) + rest, w.(ands := w.ands[a := AndArm(|cs|, k)]))
    case Or(o, cs) =>
      Config(body, OrFrames(o, cs) + rest, w.(ors := w.ors[o := OrArm(k)]))
    case Generator(g, b) =>
      Config(body, [Resume(Nested(g, b, k))] + rest, w)
  }

  /** Calling a resume callback. */
  function ResumeStep(body: seq<Event>, k: Cont, rest: seq<Frame>, w: World): Config
  {
    match k
    case Driver =>
      if w.finished then
        Config(body, rest, w)
      else
        var w1 := w.(observed := w.observed + [w.counter]);
        if w.yielded < |body| then
          Config(body, [Arm(body[w.yielded], Driver)] + rest, w1.(yielded := w.yielded + 1))
        else
          Config(body, rest, w1.(finished := true))
    case AndChild(a, child) =>
      if a !in w.ands then
        Config(body, rest, w)
      else
        var (st, outcome) := AndOnChild(w.ands[a], child);
        var w1 := w.(ands := w.ands[a := st]);
        if outcome == Completed then
          Config(body, [Resume(st.resume)] + rest, w1)
        else if outcome == Violated then
          Config(body, [], w1.(failed := true))
        else
          Config(body, rest, w1)
    case OrChild(o) =>
      if o !in w.ors then
        Config(body, rest, w)
      else
        var (st, resumed) := OrOnChild(w.ors[o]);
        var w1 := w.(ors := w.ors[o := st]);
        if resumed then Config(body, [Resume(st.resume)] + rest, w1) else Config(body, rest, w1)
    case Nested(g, b, outer) =>
      var pos := if g in w.gens then w.gens[g] else 0;
      if pos < |b| then
        Config(body, [Arm(b[pos], Nested(g, b, outer))] + rest, w.(gens := w.gens[g := pos + 1]))
      else
        Config(body, [Resume(outer)] + rest, w)
  }

  /** One step: pop the top frame and perform it. */
  function Step(c: Config): Config
    requires c.stack != []
  {
    match c.stack[0]
    case Arm(e, k) => ArmStep(c.body, e, k, c.stack[1..], c.w)
    case Resume(k) => ResumeStep(c.body, k, c.stack[1..], c.w)
  }

  /** `n` steps, or fewer if the stack empties first. */
  function Steps(c: Config, n: nat): Config
    decreases n
  {
    if n == 0 || c.stack == [] then c else Steps(Step(c), n - 1)
  }

  ghost predicate Reaches(c: Config, c': Config)
  {
    exists n: nat :: Steps(c, n) == c'
  }

  /** An outside source fires the `i`-th pending registration; it runs while the stack is idle. */
  function Fire(c: Config, i: nat): Config
  {
    if c.stack != [] || i >= |c.w.pending| then
      c
    else
      var r := c.w.pending[i];
      Config(c.body, [Resume(r.k)], c.w.(pending := c.w.pending[..i] + c.w.pending[i + 1..]))
  }

  /**
   * Arming keeps the frames beneath, never moves the driven body, never
   * fails, and only an `Increament` touches the counter.
   */
  lemma ArmStepKeeps(body: seq<Event>, e: Event, k: Cont, rest: seq<Frame>, w: World)
    ensures var r := ArmStep(body, e, k, rest, w);
      && r.body == body
      && |rest| <= |r.stack| && r.stack[|r.stack| - |rest|..] == rest
      && r.w.counter == w.counter + (if e.Increment? then 1 else 0)
      && r.w.observed == w.observed && r.w.yielded == w.yielded && r.w.finished == w.finished
      && r.w.failed == w.failed
  {
  }

  /**
   * A resume never changes the counter or the registrations and records at
   * most one observation.  An assertion it raises empties the stack;
   * otherwise it keeps the frames beneath and pushes at most one call.
   */
  lemma ResumeStepKeeps(body: seq<Event>, k: Cont, rest: seq<Frame>, w: World)
    ensures var r := ResumeStep(body, k, rest, w);
      && r.body == body
      && r.w.counter == w.counter && r.w.pending == w.pending
      && (r.w.observed == w.observed || r.w.observed == w.observed + [w.counter])
      && (w.failed ==> r.w.failed)
      && (r.w.failed != w.failed ==> r.stack == [])
      && (!r.w.failed ==> r.stack == rest || (r.stack != [] && r.stack[1..] == rest))
  {
    match k
    case Driver =>
    case AndChild(_, _) =>
    case OrChild(_) =>
    case Nested(_, _, _) =>
  }

  /**
   * An outside source firing a registration while the stack is idle: the
   * registered resume becomes the one pending call, that registration and
   * no other is dropped, and nothing else changes.  At any other time, or
   * for no such registration, nothing happens.
   */
  lemma FireTakesOne(c: Config, i: nat)
    ensures c.stack != [] || i >= |c.w.pending| ==> Fire(c, i) == c
    ensures c.stack == [] && i < |c.w.pending| ==>
              && Fire(c, i).stack == [Resume(c.w.pending[i].k)]
              && Fire(c, i).body == c.body
              && Fire(c, i).w.(pending := c.w.pending) == c.w
              && multiset(Fire(c, i).w.pending) + multiset{c.w.pending[i]} == multiset(c.w.pending)
  {
    if c.stack == [] && i < |c.w.pending| {
      var p := c.w.pending;
      assert p == p[..i] + [p[i]] + p[i + 1..];
    }
  }

  // ---------------------------------------------------------------------
  // Basic facts about runs

  lemma {:induction false} StepsAdd(c: Config, m: nat, n: nat)
    ensures Steps(c, m + n) == Steps(Steps(c, m), n)
    decreases m
  {
    if m > 0 && c.stack != [] {
      var d := Step(c);
      assert Steps(c, m) == Steps(d, m - 1);
      assert Steps(c, m + n) == Steps(d, m - 1 + n);
      StepsAdd(d, m - 1, n);
    }
  }

  lemma ReachesRefl(c: Config)
    ensures Reaches(c, c)
  {
    assert Steps(c, 0) == c;
  }

  lemma ReachesStep(c: Config)
    requires c.stack != []
    ensures Reaches(c, Step(c))
  {
    assert Steps(c, 1) == Step(c);
  }

  lemma ReachesTrans(c1: Config, c2: Config, c3: Config)
    requires Reaches(c1, c2) && Reaches(c2, c3)
    ensures Reaches(c1, c3)
  {
    var m: nat :| Steps(c1, m) == c2;
    var n: nat :| Steps(c2, n) == c3;
    StepsAdd(c1, m, n);
  }

  /** An idle configuration stays put. */
  lemma {:induction false} StepsIdle(c: Config, n: nat)
    requires c.stack == []
    ensures Steps(c, n) == c
  {
  }

  /** Once a run has emptied the stack, more steps change nothing. */
  lemma StepsPastIdle(c: Config, m: nat, n: nat)
    requires m <= n && Steps(c, m).stack == []
    ensures Steps(c, n) == Steps(c, m)
  {
    StepsAdd(c, m, n - m);
    StepsIdle(Steps(c, m), n - m);
  }

  lemma {:induction false} StepsSnoc(c: Config, n: nat)
    requires Steps(c, n).stack != []
    ensures Steps(c, n + 1) == Step(Steps(c, n))
  {
    StepsAdd(c, n, 1);
  }

  // ---------------------------------------------------------------------
  // Single-step rules

  /**
   * Calling the decorated function runs the body up to its first yield and
   * arms the yielded event with the driver's `resume_gen`; a body with
   * nothing to yield stops at once, and nothing is armed.
   */
  lemma InvokeRunsToFirstYield(body: seq<Event>)
    ensures var c := Step(Start(body));
            && c.w.observed == [0]
            && (body != [] ==> c.stack == [Arm(body[0], Driver)] && c.w.yielded == 1 && !c.w.finished)
            && (body == [] ==> c.stack == [] && c.w.finished)
  {
  }

  /**
   * `Immediate` calls its resume inside the arming call and touches
   * nothing else; the `Increament` double first adds one to the counter.
   */
  lemma LeafResumesAtOnce(c: Config, e: Event, k: Cont)
    requires c.stack != [] && c.stack[0] == Arm(e, k) && (e.Immediate? || e.Increment?)
    ensures Step(c).stack == [Resume(k)] + c.stack[1..]
    ensures Step(c).w == c.w.(counter := c.w.counter + if e.Increment? then 1 else 0)
  {
  }

  /** Once the body has stopped, resuming it again runs nothing and arms nothing. */
  lemma ResumeAfterStopIsInert(c: Config)
    requires c.stack != [] && c.stack[0] == Resume(Driver) && c.w.finished
    ensures Step(c) == c.(stack := c.stack[1..])
  {
  }

  /** When the body stops, StopIteration is swallowed: no frame is pushed. */
  lemma BodyStopArmsNothing(c: Config)
    requires c.stack != [] && c.stack[0] == Resume(Driver)
    requires !c.w.finished && c.w.yielded >= |c.body|
    ensures Step(c).stack == c.stack[1..]
    ensures Step(c).w.finished
  {
  }

  /**
   * Arming an `And` resets its activation (every child outstanding, none
   * triggered, the new resume stored) and queues one arm per child, in
   * declaration order, each tagged with that child's identity.
   */
  lemma ArmAndResets(c: Config, a: nat, cs: seq<Event>, k: Cont)
    requires c.stack != [] && c.stack[0] == Arm(And(a, cs), k)
    ensures Step(c).w.ands[a] == AndState(|cs|, {}, k)
    ensures Step(c).stack == AndFrames(a, cs) + c.stack[1..]
    ensures forall j :: 0 <= j < |cs| ==> Step(c).stack[j] == Arm(cs[j], AndChild(a, cs[j].id))
  {
  }

  /**
   * A child of an `Or` that fires after the first one is ignored: the flag
   * stays set and nothing is resumed.
   */
  lemma OrLateFireIgnored(c: Config, o: nat)
    requires c.stack != [] && c.stack[0] == Resume(OrChild(o))
    requires o in c.w.ors && c.w.ors[o].isTriggered
    ensures Step(c) == c.(stack := c.stack[1..])
  {
    assert c.w.ors[o := c.w.ors[o]] == c.w.ors;
  }

  /** A repeat fire of an `And` child identity already triggered changes nothing. */
  lemma AndDuplicateFireIgnored(c: Config, a: nat, child: nat)
    requires c.stack != [] && c.stack[0] == Resume(AndChild(a, child))
    requires a in c.w.ands && child in c.w.ands[a].triggered
    ensures Step(c) == c.(stack := c.stack[1..])
  {
    assert c.w.ands[a := c.w.ands[a]] == c.w.ands;
  }

  /**
   * The internal resume of a `Generator` calls the outer resume only once
   * its nested body is exhausted; before that it arms the next nested event
   * with itself.
   */
  lemma NestedResumesOuterOnlyAtEnd(c: Config, g: nat, b: seq<Event>, outer: Cont)
    requires c.stack != [] && c.stack[0] == Resume(Nested(g, b, outer))
    ensures var pos := if g in c.w.gens then c.w.gens[g] else 0;
            && (pos < |b| ==> Step(c).stack == [Arm(b[pos], Nested(g, b, outer))] + c.stack[1..]
                              && Step(c).w.gens[g] == pos + 1)
            && (pos >= |b| ==> Step(c).stack == [Resume(outer)] + c.stack[1..] && Step(c).w == c.w)
  {
  }
}
