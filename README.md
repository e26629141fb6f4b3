# callback-go-away in Dafny

`callbackgoaway` turns callback-style code into straight-line generator
code. A decorated generator function is a *body*. The body yields *events*,
and an event is any object that, called with a resume callback ("armed"),
calls that callback later. The decorator's `resume_gen` advances the body
one yield at a time. `And` and `Or` combine events: `And` resumes once
every child has fired, and `Or` resumes on the first fire. `Generator` and
`GeneratorFunction` wrap a whole nested body as one event. The tkinter
adapter adds an `Event` that binds a widget event once, and a replacement
`Misc.unbind` that removes one bound command from the script Tk keeps for
an event sequence.

The project models:

- **Events** (`events.dfy`): the event tree as a datatype. Each node carries
  the identity Python's `id()` gives the object. `Increment` is the tests'
  `Increament` double. `Deferred` is a leaf whose outside source (a timer, a
  widget binding) fires it later. The file also defines the work an event
  does (`Total`) and how much the counter has grown by the time a
  synchronous event resumes its caller (`FireCost`).
- **Combinators** (`combinators.dfy`): the per-instance rules of `And` and
  `Or` as pure transition functions. Folds over sequences of child fires
  give the quorum and resume-once properties.
- **Machine** (`machine.dfy`): the whole library as a machine over an
  explicit call stack. Every resume in the library is an ordinary,
  re-entrant call. The stack of `Arm`/`Resume` frames makes explicit which
  work runs before which: a child that fires inside `Or.__call__`'s loop
  resumes the outer body before the remaining siblings are armed.
  Combinator activations and generator positions live in maps keyed by
  identity.
- **Synchronous** (`synchronous.dfy`): runs in which every event resumes
  inside its own arming call. The main theorem, `SyncBodyRunsToCompletion`,
  covers bodies whose events are synchronous and whose objects are
  distinct. For such a body, one call of the decorated function runs it to
  completion (given unbounded call depth; see "Left out"). It leaves no registration behind and raises no assertion.
  The counter ends at the total work of all events, and the body's `j`-th
  statement runs with the counter at the fire cost of the first `j` yields.
- **Scenarios** (`scenarios.dfy`): the synchronous test bodies of
  `tests/test_sync.py` and `tests/test_core.py`, with the counter values
  their assertions check. There are also step-by-step runs of bodies whose
  leaves an outside source fires: an `Or` race, an `And` that waits for
  two fires, and an `And` given the same object twice.
- **Scheduling** (`scheduler.dfy`): the objects the library updates in
  place. `AndEvent` and `OrEvent` are classes whose methods are proved
  against the transition functions. `Scheduler` owns the stack and the
  world and advances them call by call.
- **TkUnbind** and **TkEvent** (`tk_unbind.dfy`, `tk_event.dfy`): the
  tkinter adapter's `_new_unbind` as a function on the script text, and its
  `Event` and `patch_unbind` as classes.

Some points of the code's behaviour that the model keeps:

- `a | b | c` builds `Or(Or(a, b), c)`, and `a & b & c` builds
  `And(And(a, b), c)`: chains are not flattened.
  `DisjChainFiresWithFirst` and `ConjChainFiresAfterAll` give the counter
  value at which such a chain resumes.
- `And` always waits for every child; there is no threshold.
- The arguments a child passes to its resume are discarded; no per-child
  results reach the body.
- The decorated function returns nothing, so there is no handle and no
  `cancel`.
- Arming an `And` or `Or` again silently resets its activation
  (`Machine.ArmAndResets`). The tkinter `Event` asserts that it is armed
  once (so does kivy's, which is not part of this model).

## Model

| member | source | states |
|---|---|---|
| Events.FireCostAtMostTotal | callbackgoaway/__init__.py:53-109 | a synchronous event resumes its caller no later than the end of its own work |
| Events.Conj | callbackgoaway/__init__.py:32-33 | `a & b` is a two-child `And`: its work is the work of both, and it resumes its caller after all of `a`'s work and `b`'s fire cost |
| Events.Disj | callbackgoaway/__init__.py:35-36 | `a \| b` is a two-child `Or`: its work is the work of both, and its fire cost is `a`'s |
| Events.GeneratorFunction | callbackgoaway/__init__.py:112-115 | wrapping `create_gen(arg)` gives an event that is synchronous exactly when every event of the created body is, with the body's total work and fire cost |
| Combinators.AndOnChild | callbackgoaway/__init__.py:60-70 | a child identity already triggered is a duplicate and changes nothing; otherwise it is recorded and `num_left` drops by one; the resume is called exactly when `num_left` reaches 0; the assertion fails exactly when it drops below 0 |
| Combinators.AndArm | callbackgoaway/__init__.py:53-56 | the activation `__call__` sets up: every child outstanding, none triggered, the new resume stored |
| Combinators.AndQuorum | callbackgoaway/__init__.py:53-70 | after arming and any sequence of own-child fires (any order, repeats allowed): triggered is the set of distinct identities seen; `num_left` is the child count minus that set's size and never negative; the assertion never fails; the resume has been called once exactly when as many distinct identities have fired as the `And` has children (with distinct children: when all have fired), and otherwise never |
| Combinators.AndResumesWhenAllFired | callbackgoaway/__init__.py:53-70 | with distinct children, `And` resumes at most once, and exactly when the fired identities are all of its children; until then a child is outstanding |
| Combinators.AndSharedChildNeverResumes | callbackgoaway/__init__.py:57-63 | when one object is a child twice, the `And` never resumes, whatever fires |
| Combinators.RepeatFireIgnored | callbackgoaway/__init__.py:60-70 | a repeated fire of an identity already counted leaves the whole activation and the resume count unchanged |
| Combinators.OrOnChild | callbackgoaway/__init__.py:89-92 | the flag ends set, and the resume is called exactly when the flag was clear |
| Combinators.OrArm | callbackgoaway/__init__.py:79-81 | the activation `__call__` sets up: flag clear, the new resume stored |
| Combinators.OrResumesOnce | callbackgoaway/__init__.py:79-92 | after arming, `n` child fires resume the outer callback exactly once if `n > 0`, never otherwise |
| Machine.AndFrames | callbackgoaway/__init__.py:57-58 | arming an `And` queues one arm per child: the `j`-th arms the `j`-th child with `on_child_event` tagged by that child's identity |
| Machine.OrFrames | callbackgoaway/__init__.py:82-87 | arming an `Or` queues one arm per child, in declaration order, each with the `Or`'s shared `on_child_event` |
| Machine.Start | callbackgoaway/__init__.py:15-26 | calling the decorated function: the body is created and `resume_gen()` is the one call on the stack, with no object armed |
| Machine.ArmStep | callbackgoaway/__init__.py:42-109 | every `__call__`: `Immediate` (42-44) and `Increament` resume at once, `And` (53-58) and `Or` (79-87) reset their activation and push one arm per child, `Generator` (101-109) calls its internal resume, a deferred leaf registers |
| Machine.ArmStepKeeps | callbackgoaway/__init__.py:42-109 | arming keeps the frames beneath, never moves the driven body, never raises, and only an `Increament` changes the counter (by one) |
| Machine.ResumeStep | callbackgoaway/__init__.py:20-108 | every resume: `resume_gen` (20-24) observes the counter and arms the next yield or stops; `And` (60-70) and `Or` (89-92) `on_child_event`; a `Generator`'s internal resume (104-108) |
| Machine.ResumeStepKeeps | callbackgoaway/__init__.py:20-108 | a resume never changes the counter or the registrations and records at most one observation; a failed assertion empties the stack, otherwise it keeps the frames beneath and pushes at most one call |
| Machine.Fire | callbackgoaway/tkinter.py:35-37 | an outside source calls the resume of one registration while the library is idle |
| Machine.FireTakesOne | callbackgoaway/tkinter.py:35-37 | firing the `i`-th registration while idle makes its resume the one call, removes that registration and no other, and changes nothing else; at any other time nothing happens |
| Machine.InvokeRunsToFirstYield | callbackgoaway/__init__.py:15-27 | calling the decorated function runs the body to its first yield and arms that event with the driver's resume; an empty body stops at once with nothing armed |
| Machine.ResumeAfterStopIsInert | callbackgoaway/__init__.py:20-24 | resuming a body that has stopped pops the call and changes nothing else |
| Machine.BodyStopArmsNothing | callbackgoaway/__init__.py:21-24 | when the body has nothing left to yield, StopIteration is swallowed: the body is finished and nothing is pushed |
| Machine.LeafResumesAtOnce | callbackgoaway/__init__.py:42-44 | `Immediate` calls its resume inside the arming call and changes nothing; `Increament` first adds one to the counter |
| Machine.ArmAndResets | callbackgoaway/__init__.py:53-58 | arming an `And` resets its activation (all children outstanding, none triggered, new resume) and arms each child in declaration order, tagged with that child's identity |
| Machine.OrLateFireIgnored | callbackgoaway/__init__.py:89-92 | a fire reaching an `Or` whose flag is set only pops the call |
| Machine.AndDuplicateFireIgnored | callbackgoaway/__init__.py:60-70 | a repeat fire of a triggered `And` child only pops the call |
| Machine.NestedResumesOuterOnlyAtEnd | callbackgoaway/__init__.py:101-109 | a `Generator`'s internal resume arms the next nested event with itself, advancing the position by one; only once the nested body is exhausted does it call the outer resume, with the world unchanged |
| Synchronous.ArmFires | callbackgoaway/__init__.py:42-109 | arming a synchronous event with distinct fresh objects reaches the call of its resume; its leftover work lies beneath; the counter has grown by its fire cost; nothing outside its own objects has changed |
| Synchronous.LeftoverRuns | callbackgoaway/__init__.py:79-109 | running that leftover work adds the rest of the event's total and completes every object in it |
| Synchronous.DriverFrom | callbackgoaway/__init__.py:20-24 | from the `p`-th resume of the body, the run reaches an empty stack with the body finished, no failure, nothing pending, the counter at the total, and every checkpoint recorded |
| Synchronous.SyncBodyRunsToCompletion | callbackgoaway/__init__.py:15-27 | for a body of synchronous events whose objects are all distinct, the run from the call reaches an empty stack with the body finished, no assertion failed, nothing registered, the counter equal to the total work, and the `j`-th observation equal to the fire cost of the first `j` events |
| Scenarios.DisjFiresWithLeft | callbackgoaway/__init__.py:35-36 | arming `a \| b` reaches the call of its resume with the counter grown by `a`'s fire cost, `a`'s leftover work beneath, and the arm of `b` still to come after it |
| Scenarios.ConjFiresAfterBoth | callbackgoaway/__init__.py:32-33 | arming `a & b` reaches the call of its resume with `a` done, the counter grown by `a`'s whole work plus `b`'s fire cost, and only `b`'s leftover work beneath |
| Scenarios.DisjChainFiresWithFirst | callbackgoaway/__init__.py:35-36 | arming the nested `a \| b \| c` reaches the call of its resume with the counter grown by `a`'s fire cost; `a`'s leftover, then the arms of `b` and of `c`, wait beneath |
| Scenarios.ConjChainFiresAfterAll | callbackgoaway/__init__.py:32-33 | arming the nested `a & b & c` reaches the call of its resume with `a` and `b` done, the counter grown by their whole work plus `c`'s fire cost, and only `c`'s leftover beneath |
| Scenarios.IncRun | tests/test_sync.py:115-117 | `create_gen(times)` yields `times` increments, the `i`-th with identity `first + i` |
| Scenarios.IncrementsFit | tests/test_sync.py:11-19 | a run of increments is synchronous with distinct objects; each one adds one to the counter before it resumes |
| Scenarios.GenIncs | callbackgoaway/__init__.py:112-115 | `GeneratorFunction(create_gen, k)` resumes its caller only after all `k` increments, adding `k` |
| Scenarios.CallbackScenario | tests/test_sync.py:36-47 | the body runs to completion with the counter seen at 0, 1, 2, and it ends at 2 |
| Scenarios.AndScenario | tests/test_sync.py:49-64 | observations 0, 2, 5, 8, 11; final counter 11 |
| Scenarios.OrScenario | tests/test_sync.py:66-92 | observations 0, 1, 2, 3, 4; the unarmed siblings still run afterwards, so the final counter is 11 |
| Scenarios.MixScenario | tests/test_sync.py:94-111 | observations 0, 1, 3; final counter 6 |
| Scenarios.GeneratorScenario | tests/test_sync.py:113-135 | observations 0, 2, 3, 5, 8; final counter 9 |
| Scenarios.RaceScenario | callbackgoaway/__init__.py:79-92 | `yield a \| b` with two outside leaves: the body waits with both registered; whichever fires first resumes it and it stops; the later fire only drops its registration |
| Scenarios.BothScenario | callbackgoaway/__init__.py:53-70 | `yield a & b` with two outside leaves: the first fire (either one) leaves the body waiting; the second resumes it and it stops, with nothing pending |
| Scenarios.SharedScenario | callbackgoaway/__init__.py:57-65 | `yield x & x`: both arms run, the second report is a duplicate, and the body never resumes after its first yield |
| Scheduling.AndEvent.constructor | callbackgoaway/__init__.py:49-51 | keeps the children's identities; not yet armed |
| Scheduling.AndEvent.Arm | callbackgoaway/__init__.py:53-56 | resets the activation to `AndArm` and returns the tags the caller arms the children with, in declaration order |
| Scheduling.AndEvent.OnChild | callbackgoaway/__init__.py:60-70 | the new activation and the outcome are exactly `AndOnChild` of the old activation; `num_left` stays the children minus the triggered |
| Scheduling.OrEvent.constructor | callbackgoaway/__init__.py:75-77 | not yet armed |
| Scheduling.OrEvent.Arm | callbackgoaway/__init__.py:79-81 | clears the flag and stores the resume: the activation becomes `OrArm` |
| Scheduling.OrEvent.OnChild | callbackgoaway/__init__.py:89-92 | the new state and whether it resumed are exactly `OrOnChild` of the old state |
| Scheduling.Scheduler.constructor | callbackgoaway/__init__.py:17-18 | the body is created, and `resume_gen()` is the pending call |
| Scheduling.Scheduler.RunToIdle | callbackgoaway/__init__.py:20-26 | the new state is the old one advanced by the number of calls made; it stops early only when the stack is empty |
| Scheduling.Scheduler.FireRegistration | callbackgoaway/tkinter.py:35-37 | the new state is the old one with the chosen registration's resume called |
| Scheduling.IdleIsUnique | callbackgoaway/__init__.py:15-27 | two runs that both emptied the stack ended in the same state |
| Scheduling.Invoke | callbackgoaway/__init__.py:15-27 | for a synchronous body with distinct objects: if the run empties the stack within the budget, the body has finished without failure, the counter equals the total work, and the `j`-th observation is the fire cost of the first `j` events |
| TkEvent.BindEvent.constructor | callbackgoaway/tkinter.py:24-28 | `bind_id` is None and no resume is stored |
| TkEvent.BindEvent.Arm | callbackgoaway/tkinter.py:30-33 | succeeds exactly when `bind_id` was None, then stores the new bind id and the resume; otherwise the assertion fails and nothing changes |
| TkEvent.BindEvent.Callback | callbackgoaway/tkinter.py:35-37 | first unbinds its own name and bind id, then calls the stored resume; an instance never armed fails after the unbind |
| TkEvent.ArmFireRearm | callbackgoaway/tkinter.py:30-37 | an instance armed once unbinds its own id and resumes when fired; arming it again fails |
| TkEvent.UnbindPatch.constructor | callbackgoaway/tkinter.py:40 | `_old_unbind` is None; `Misc.unbind` is the original |
| TkEvent.UnbindPatch.Patch | callbackgoaway/tkinter.py:55-61 | only while `_old_unbind` is None: it remembers `Misc.unbind` and installs the replacement; otherwise nothing changes |
| TkEvent.PatchTwice | callbackgoaway/tkinter.py:58-61 | patching twice keeps the original unbind saved and the replacement installed |
| TkUnbind.Slice | callbackgoaway/tkinter.py:50 | Python slicing clamps out-of-range bounds; the length and each character of the result |
| TkUnbind.Names | callbackgoaway/tkinter.py:50 | a line names the funcid when its clamped slice from column 6, the funcid's length long, equals the funcid |
| TkUnbind.Split | callbackgoaway/tkinter.py:49 | `split('\n')` gives at least one piece, none holding a newline |
| TkUnbind.Join | callbackgoaway/tkinter.py:51 | joining one piece gives that piece |
| TkUnbind.SplitJoin | callbackgoaway/tkinter.py:49-51 | splitting the join of newline-free pieces gives the pieces back |
| TkUnbind.JoinSplit | callbackgoaway/tkinter.py:49-51 | joining the split of a text gives the text back |
| TkUnbind.NamesAt | callbackgoaway/tkinter.py:50 | for a non-empty funcid, a line names it iff it is long enough and carries it at column 6 |
| TkUnbind.BindLine | callbackgoaway/tkinter.py:50 | the line tkinter writes for a bound command puts the command at column 6 |
| TkUnbind.OwnLineNamed | callbackgoaway/tkinter.py:50 | a command's own bind line is dropped when that command is unbound |
| TkUnbind.OtherLineNotNamed | callbackgoaway/tkinter.py:50 | the line of another command of the same length is kept |
| TkUnbind.Filter | callbackgoaway/tkinter.py:50 | a line is kept iff it was present and does not name the funcid |
| TkUnbind.FilterCount | callbackgoaway/tkinter.py:50 | every copy of a kept line survives: a line naming the funcid occurs 0 times in the result, and any other line as often as in the input |
| TkUnbind.FilterAppend | callbackgoaway/tkinter.py:50 | the filter decides line by line: filtering a concatenation is the concatenation of the filtered parts |
| TkUnbind.FilterSubsequence | callbackgoaway/tkinter.py:50 | the kept lines are unchanged and in their original order |
| TkUnbind.FilterIdempotent | callbackgoaway/tkinter.py:50 | filtering again with the same funcid drops nothing more |
| TkUnbind.FilterKeepsAllWhenNoneNamed | callbackgoaway/tkinter.py:50 | when no line names the funcid, every line is kept |
| TkUnbind.NewUnbind | callbackgoaway/tkinter.py:43-52 | with no funcid or an empty one, the script is cleared and nothing is deleted; otherwise that funcid is deleted |
| TkUnbind.NewUnbindLines | callbackgoaway/tkinter.py:49-51 | with a funcid, the new script's lines are the old lines that do not name it, in order (an empty script when none is left), and unbinding it again leaves the script unchanged |

## Left out

- `callbackgoaway/kivy.py` and `callbackgoaway/pyglet.py`: other toolkit adapters, outside this model.
- tkinter `Sleep`, and the `bind`, `after`, `tk.call` and `deletecommand` calls: toolkit I/O. The bound script is passed in as text, and the effect is returned as the new script plus the deleted command.
- The logger from `setup_logging` and the `debug` call for a duplicate fire: logging only. A duplicate fire is modelled as ignored.
- The example programs, and the kivy tests.
- `Wait`, `Never`, a wrapper that returns the generator, and values sent back into the body: some tests and examples use them, but `callbackgoaway/__init__.py` does not implement them. The arguments a resume receives are discarded there, so no per-child results exist.
- Garbage collection, weak references and object-identity reuse: each object carries a fixed identity, and no identity is reused while the object lives.
- The code a body runs between its yields: a body is a fixed sequence of events, and the only trace of that code is the one counter observation each resume records. Which event a body yields next cannot depend on what happened earlier in the run.
- Closing a generator and its `finally` blocks: there is no cancellation in the modelled code.
- Exceptions other than the `And` assertion: a failed assertion is recorded as `failed` and unwinds every frame. An exception raised inside a body or a callback is not modelled.
- Synchronous.SyncBodyRunsToCompletion: Python's limit on call depth is not modelled. Each synchronous yield nests a `resume_gen` call inside the event's `__call__` (callbackgoaway/__init__.py:22 and 42-44). A long synchronous body therefore overflows the interpreter stack (RecursionError) before it completes. The machine's stack has no bound.
- Synchronous.SyncBodyRunsToCompletion: covers only bodies whose event objects are all distinct (`DistinctSeq`). A body that yields or nests one object twice is outside it; `Scenarios.SharedScenario` shows one such run, which never resumes.
- Scheduling.AndEvent.Arm: arming the children is left to the caller, which gets the tags to use; the arming loop itself is modelled in `Machine.ArmStep`.
- Scheduling.OrEvent.Arm: arming the children is left to the caller; the arming loop itself is modelled in `Machine.ArmStep`.
- Scheduling.Invoke: Python's call depth is not modelled, as for `Synchronous.SyncBodyRunsToCompletion`: a run that empties the model's stack may have exceeded the interpreter's recursion limit.
- Scheduling.Invoke: termination within a given number of calls is not stated. The method runs up to `fuel` calls, and its guarantees hold when the stack empties within them. `Synchronous.SyncBodyRunsToCompletion` proves that some finite number of calls suffices.
- Scheduling.Scheduler.RunToIdle: bounded by `fuel`; that every run stops within some number of calls is not proved in general, only for the synchronous bodies of `Synchronous.SyncBodyRunsToCompletion`.
- TkEvent.BindEvent.Callback: returns the unbind it requests as an action. The link to `TkUnbind.NewUnbind`, which performs it on the script, is not made inside one member.
- TkUnbind.BindLine: the Tk script format is modelled only up to column 6, where tkinter writes the command name. The rest of each line is free text.
