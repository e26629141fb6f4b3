/**
 * The library's objects as the program keeps them: `And` and `Or`
 * instances whose fields are updated in place by `__call__` and
 * `on_child_event`, and a scheduler that owns the call stack and the world
 * and advances them one call at a time.  Each method is proved against
 * the functions of `Combinators` and `Machine`.
 */
module Scheduling {
  import opened Optional
  import opened Events
  import opened Combinators
  import opened Machine
  import opened Synchronous

  /**
   * An `And` instance as an object whose fields its methods update in place;
   * `K` is the type of the resume callbacks it is handed.  It stands alone:
   * `Scheduler` keeps the same activations as values in its world, and both
   * follow the transition functions of `Combinators`.
   */
  class AndEvent<K> {
    /** `id(event)` of each child, in declaration order (`self.events`). */
    const children: seq<nat>
    var numLeft: int
    var triggered: set<nat>
    /** `self.resume_gen`: set by the first `__call__`. */
    var resume: Option<K>

    /** The activation, once armed. */
    function State(): AndState<K>
      requires resume.Some?
      reads this
    {
      AndState(numLeft, triggered, resume.value)
    }

    /** Every fire counted so far is a distinct identity. */
    predicate Counted()
      reads this
    {
      resume.Some? ==> numLeft == |children| - |triggered|
    }

    constructor(children: seq<nat>)
      ensures this.children == children && resume.None? && Counted()
    {
      this.children := children;
      numLeft := 0;
      triggered := {};
      resume := None;
    }

    /**
     * `__call__`: reset the activation.  Arming the children themselves is
     * the caller's part here: `tags` are the identities to tag them with,
     * in declaration order.
     */
    method Arm(k: K) returns (tags: seq<nat>)
      modifies this
      ensures resume.Some? && State() == AndArm(|children|, k) && Counted()
      ensures tags == children
    {
      numLeft := |children|;
      resume := Some(k);
      triggered := {};
      tags := children;
    }

    /** `on_child_event(event_id)`: the partial exists only once the instance has been armed. */
    method OnChild(child: nat) returns (outcome: AndOutcome)
      requires resume.Some? && Counted()
      modifies this
      ensures resume == old(resume) && Counted()
      ensures (State(), outcome) == AndOnChild(old(State()), child)
    {
      if child !in triggered {
        triggered := triggered + {child};
        numLeft := numLeft - 1;
        if numLeft == 0 {
          outcome := Completed;
        } else if numLeft > 0 {
          outcome := Waiting;
        } else {
          outcome := Violated;
        }
      } else {
        outcome := Duplicate;
      }
    }
  }

  /** An `Or` instance as an object updated in place; standalone, like `AndEvent`. */
  class OrEvent<K> {
    var isTriggered: bool
    var resume: Option<K>

    function State(): OrState<K>
      requires resume.Some?
      reads this
    {
      OrState(isTriggered, resume.value)
    }

    constructor()
      ensures resume.None?
    {
      isTriggered := false;
      resume := None;
    }

    /** `__call__`: clear the flag and store the resume; arming the children is the caller's part. */
    method Arm(k: K)
      modifies this
      ensures resume.Some? && State() == OrArm(k)
    {
      isTriggered := false;
      resume := Some(k);
    }

    /** `on_child_event`: only the first fire calls the stored resume. */
    method OnChild() returns (resumed: bool)
      requires resume.Some?
      modifies this
      ensures resume == old(resume)
      ensures (State(), resumed) == OrOnChild(old(State()))
    {
      if !isTriggered {
        isTriggered := true;
        resumed := true;
      } else {
        resumed := false;
      }
    }
  }

  /**
   * The driven body, the pending calls and every object's state, advanced
   * by `Step` until the stack is empty or the step budget is spent.
   */
  class Scheduler {
    var body: seq<Event>
    var stack: seq<Frame>
    var w: World

    function Current(): Config
      reads this
    {
      Config(body, stack, w)
    }

    /** Calling the decorated function: the body is created, and `resume_gen()` is the first call made. */
    constructor(body: seq<Event>)
      ensures Current() == Start(body)
    {
      this.body := body;
      stack := [Resume(Driver)];
      w := EmptyWorld;
    }

    /** Performs calls until the stack is empty (every callback returned) or `fuel` calls were made. */
    method RunToIdle(fuel: nat) returns (steps: nat)
      modifies this
      ensures steps <= fuel && Current() == Steps(old(Current()), steps)
      ensures Current().stack != [] ==> steps == fuel
    {
      ghost var c0 := Current();
      steps := 0;
      while steps < fuel && stack != []
        invariant steps <= fuel && Current() == Steps(c0, steps)
      {
        StepsSnoc(c0, steps);
        var c := Step(Current());
        body, stack, w := c.body, c.stack, c.w;
        steps := steps + 1;
      }
    }

    /** An outside source fires the `i`-th pending registration; nothing runs until `RunToIdle`. */
    method FireRegistration(i: nat)
      modifies this
      ensures Current() == Fire(old(Current()), i)
    {
      var c := Fire(Current(), i);
      body, stack, w := c.body, c.stack, c.w;
    }
  }

  /** Two runs that both emptied the stack ended in the same configuration. */
  lemma IdleIsUnique(c: Config, m: nat, n: nat)
    requires Steps(c, m).stack == [] && Steps(c, n).stack == []
    ensures Steps(c, m) == Steps(c, n)
  {
    if m <= n {
      StepsPastIdle(c, m, n);
    } else {
      StepsPastIdle(c, n, m);
    }
  }

  /**
   * Calling a decorated function whose body yields only synchronous events:
   * whenever the run empties the stack within `fuel` calls, the body has
   * finished, the counter has grown by everything armed, and the body saw
   * the counter at each of its checkpoints.
   */
  method Invoke(body: seq<Event>, fuel: nat) returns (s: Scheduler, steps: nat)
    requires SyncSeq(body) && DistinctSeq(body)
    ensures s.Current() == Steps(Start(body), steps) && steps <= fuel
    ensures s.stack == [] ==> s.w.finished && !s.w.failed && s.w.counter == TotalSeq(body)
    ensures s.stack == [] ==> |s.w.observed| == |body| + 1
    ensures s.stack == [] ==> forall j :: 0 <= j <= |body| ==> s.w.observed[j] == FireCostSeq(body[..j])
  {
    s := new Scheduler(body);
    steps := s.RunToIdle(fuel);
    if s.stack == [] {
      ghost var done := SyncBodyRunsToCompletion(body);
      ghost var n: nat :| Steps(Start(body), n) == done;
      IdleIsUnique(Start(body), n, steps);
    }
  }
}
