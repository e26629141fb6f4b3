/**
 * The per-instance rules of the `And` and `Or` combinators: what arming
 * resets and what one child fire does to the activation kept on the
 * instance.  `K` is the type of the stored outer resume callback.
 */
module Combinators {

  // ---------------------------------------------------------------------
  // And

  /** The activation an `And` keeps on its instance between arm and resume. */
  datatype AndState<K> = AndState(numLeft: int, triggered: set<nat>, resume: K)

  /** What one child fire makes `And.on_child_event` do. */
  datatype AndOutcome =
    | Completed   // the last missing child: the stored resume is called
    | Waiting     // counted, more children to go
    | Duplicate   // this child identity already fired: ignored (only logged)
    | Violated    // `assert self.num_left > 0` fails

  /** Arming resets the activation: every child outstanding, none triggered. */
  function AndArm<K>(count: nat, k: K): AndState<K>
  {
    AndState(count, {}, k)
  }

  function AndOnChild<K>(st: AndState<K>, child: nat): (r: (AndState<K>, AndOutcome))
    ensures r.1 == Duplicate <==> child in st.triggered
    ensures r.1 == Duplicate ==> r.0 == st
    ensures r.1 != Duplicate ==>
              r.0 == st.(numLeft := st.numLeft - 1, triggered := st.triggered + {child})
    ensures r.1 == Completed <==> child !in st.triggered && st.numLeft == 1
    ensures r.1 == Violated <==> child !in st.triggered && st.numLeft < 1
  {
    if child in st.triggered then
      (st, Duplicate)
    else
      var left := st.numLeft - 1;
      (st.(numLeft := left, triggered := st.triggered + {child}),
       if left == 0 then Completed else if left > 0 then Waiting else Violated)
  }

  /** The activation after a run of child fires, how often it resumed, and whether it failed. */
  datatype AndRun<K> = AndRun(state: AndState<K>, resumes: nat, failed: bool)

  /** Child fires delivered one after the other; a failed assertion ends the run. */
  function FeedAnd<K>(st: AndState<K>, fires: seq<nat>): AndRun<K>
  {
    if fires == [] then
      AndRun(st, 0, false)
    else
      var before := FeedAnd(st, fires[..|fires| - 1]);
      if before.failed then
        before
      else
        var (st', outcome) := AndOnChild(before.state, fires[|fires| - 1]);
        AndRun(st', before.resumes + (if outcome == Completed then 1 else 0), outcome == Violated)
  }

  function SetOf(s: seq<nat>): set<nat>
  {
    set x | x in s
  }

  predicate NoDup(s: seq<nat>)
  {
    forall i, j :: 0 <= i < j < |s| ==> s[i] != s[j]
  }

  lemma {:induction false} SetOfCard(s: seq<nat>)
    ensures |SetOf(s)| <= |s|
    ensures NoDup(s) <==> |SetOf(s)| == |s|
  {
    if s != [] {
      var p := s[..|s| - 1];
      var x := s[|s| - 1];
      SetOfCard(p);
      assert s == p + [x];
      assert SetOf(s) == SetOf(p) + {x};
      if x in p {
        var i :| 0 <= i < |p| && p[i] == x;
        assert s[i] == s[|s| - 1];
        assert SetOf(s) == SetOf(p);
      } else {
        assert NoDup(s) <==> NoDup(p);
      }
    }
  }

  lemma SubsetCard(a: set<nat>, b: set<nat>)
    requires a <= b
    ensures |a| <= |b|
    ensures |a| == |b| ==> a == b
  {
    assert b == a + (b - a);
    assert |b| == |a| + |b - a|;
    if |a| == |b| {
      assert |b - a| == 0;
    }
  }

  /**
   * The quorum rule of `And`: fed only fires of its own children, in any
   * order and with repeats, the activation counts each distinct identity
   * once, `num_left` is the number of children minus the distinct
   * identities seen and never drops below zero, the assertion never fails,
   * and the stored resume has been called once exactly when the distinct
   * identities seen are as many as the children.
   */
  lemma {:induction false} AndQuorum<K>(ids: seq<nat>, k: K, fires: seq<nat>)
    requires forall f :: f in fires ==> f in ids
    ensures var r := FeedAnd(AndArm(|ids|, k), fires);
            && r.state.triggered == SetOf(fires)
            && r.state.numLeft == |ids| - |SetOf(fires)| >= 0
            && r.state.resume == k
            && !r.failed
            && r.resumes == (if |ids| > 0 && |SetOf(fires)| == |ids| then 1 else 0)
  {
    SetOfCard(ids);
    if fires != [] {
      var p := fires[..|fires| - 1];
      var f := fires[|fires| - 1];
      assert fires == p + [f];
      AndQuorum(ids, k, p);
      assert SetOf(fires) == SetOf(p) + {f};
      assert SetOf(fires) <= SetOf(ids);
      SubsetCard(SetOf(fires), SetOf(ids));
      if f !in SetOf(p) {
        assert |SetOf(fires)| == |SetOf(p)| + 1;
      }
    }
  }

  /**
   * With distinct children the `And` resumes at most once, and it has
   * resumed exactly when every child has fired; until then at least one
   * child is outstanding.
   */
  lemma AndResumesWhenAllFired<K>(ids: seq<nat>, k: K, fires: seq<nat>)
    requires NoDup(ids)
    requires forall f :: f in fires ==> f in ids
    ensures var r := FeedAnd(AndArm(|ids|, k), fires);
            && r.resumes <= 1
            && (r.resumes == 1 <==> ids != [] && SetOf(fires) == SetOf(ids))
            && (r.resumes == 0 && ids != [] ==> r.state.numLeft > 0)
  {
    AndQuorum(ids, k, fires);
    SetOfCard(ids);
    assert SetOf(fires) <= SetOf(ids);
    SubsetCard(SetOf(fires), SetOf(ids));
  }

  /**
   * The same child object given twice (`And(e, e)`): its second fire is a
   * duplicate, so `num_left` never reaches zero and the `And` never resumes.
   */
  lemma AndSharedChildNeverResumes<K>(ids: seq<nat>, k: K, fires: seq<nat>)
    requires !NoDup(ids)
    requires forall f :: f in fires ==> f in ids
    ensures FeedAnd(AndArm(|ids|, k), fires).resumes == 0
    ensures FeedAnd(AndArm(|ids|, k), fires).state.numLeft > 0
  {
    AndQuorum(ids, k, fires);
    SetOfCard(ids);
    assert SetOf(fires) <= SetOf(ids);
    SubsetCard(SetOf(fires), SetOf(ids));
  }

  /** A repeated fire of an identity already counted changes nothing at all. */
  lemma RepeatFireIgnored<K>(st: AndState<K>, fires: seq<nat>, f: nat)
    requires !FeedAnd(st, fires).failed
    requires f in FeedAnd(st, fires).state.triggered
    ensures FeedAnd(st, fires + [f]) == FeedAnd(st, fires)
  {
    assert (fires + [f])[..|fires + [f]| - 1] == fires;
  }

  // ---------------------------------------------------------------------
  // Or

  /** The activation an `Or` keeps on its instance: one flag and the outer resume. */
  datatype OrState<K> = OrState(isTriggered: bool, resume: K)

  /** Arming clears the flag and stores the outer resume. */
  function OrArm<K>(k: K): OrState<K>
  {
    OrState(false, k)
  }

  /** `Or.on_child_event`: the first fire sets the flag and resumes; later ones do nothing. */
  function OrOnChild<K>(st: OrState<K>): (r: (OrState<K>, bool))
    ensures r.1 <==> !st.isTriggered
    ensures r.0 == st.(isTriggered := true)
  {
    if !st.isTriggered then (st.(isTriggered := true), true) else (st, false)
  }

  datatype OrRun<K> = OrRun(state: OrState<K>, resumes: nat)

  /** `fires` child fires delivered one after the other. */
  function FeedOr<K>(st: OrState<K>, fires: nat): OrRun<K>
  {
    if fires == 0 then
      OrRun(st, 0)
    else
      var before := FeedOr(st, fires - 1);
      var (st', resumed) := OrOnChild(before.state);
      OrRun(st', before.resumes + if resumed then 1 else 0)
  }

  /** After arming, an `Or` resumes exactly once as soon as any child fires, however many follow. */
  lemma {:induction false} OrResumesOnce<K>(k: K, fires: nat)
    ensures FeedOr(OrArm(k), fires).resumes == (if fires > 0 then 1 else 0)
    ensures FeedOr(OrArm(k), fires).state == OrState(fires > 0, k)
  {
    if fires > 0 {
      OrResumesOnce(k, fires - 1);
    }
  }
}
