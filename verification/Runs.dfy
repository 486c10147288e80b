/** Runs of a state machine, given as sequences of states joined by a step relation. */
module Runs {

  ghost predicate StepAt<S>(trace: seq<S>, i: nat, step: (S, S) -> bool)
    requires i + 1 < |trace|
  {
    step(trace[i], trace[i + 1])
  }

  ghost predicate IsRun<S>(trace: seq<S>, init: S, step: (S, S) -> bool) {
    && trace != [] && trace[0] == init
    && forall i {:trigger StepAt(trace, i, step)} :: 0 <= i < |trace| - 1 ==> StepAt(trace, i, step)
  }

  ghost predicate Preserved<S(!new)>(step: (S, S) -> bool, inv: S -> bool) {
    forall s, t {:trigger step(s, t)} :: inv(s) && step(s, t) ==> inv(t)
  }

  /** What holds initially and is kept by every step holds all along a run. */
  lemma {:induction false} Invariant<S(!new)>(trace: seq<S>, init: S, step: (S, S) -> bool, inv: S -> bool, i: nat)
    requires IsRun(trace, init, step) && i < |trace|
    requires inv(init) && Preserved(step, inv)
    ensures inv(trace[i])
  {
    if i > 0 {
      Invariant(trace, init, step, inv, i - 1);
      assert StepAt(trace, i - 1, step);
    }
  }

  /** A preorder that relates the states before and after each step relates every earlier to every later state. */
  lemma {:induction false} Monotone<S(!new)>(trace: seq<S>, init: S, step: (S, S) -> bool, inv: S -> bool,
                                              rel: (S, S) -> bool, i: nat, j: nat)
    requires IsRun(trace, init, step) && i <= j < |trace|
    requires inv(init) && Preserved(step, inv)
    requires forall s :: inv(s) ==> rel(s, s)
    requires forall s, t {:trigger step(s, t)} :: inv(s) && step(s, t) ==> rel(s, t)
    requires forall s, t, u :: rel(s, t) && rel(t, u) ==> rel(s, u)
    ensures rel(trace[i], trace[j])
    decreases j
  {
    if i == j {
      Invariant(trace, init, step, inv, i);
    } else {
      Monotone(trace, init, step, inv, rel, i, j - 1);
      Invariant(trace, init, step, inv, j - 1);
      assert StepAt(trace, j - 1, step);
    }
  }

  lemma RunPrefix<S(!new)>(trace: seq<S>, init: S, step: (S, S) -> bool, n: nat)
    requires IsRun(trace, init, step) && 0 < n <= |trace|
    ensures IsRun(trace[..n], init, step)
  {
    forall i: nat | i < n - 1 ensures StepAt(trace[..n], i, step) { assert StepAt(trace, i, step); }
  }

  lemma RunExtended<S(!new)>(trace: seq<S>, init: S, step: (S, S) -> bool, next: S)
    requires IsRun(trace, init, step) && step(trace[|trace| - 1], next)
    ensures IsRun(trace + [next], init, step)
  {
    var whole := trace + [next];
    forall i: nat | i < |whole| - 1
      ensures StepAt(whole, i, step)
    {
      if i < |trace| - 1 { assert StepAt(trace, i, step); }
    }
  }

  lemma RunBegins<S(!new)>(first: S, rest: seq<S>, step: (S, S) -> bool)
    requires rest != [] && IsRun(rest, rest[0], step) && step(first, rest[0])
    ensures IsRun([first] + rest, first, step)
  {
    var whole := [first] + rest;
    forall i: nat | i < |whole| - 1
      ensures StepAt(whole, i, step)
    {
      if i > 0 { assert StepAt(rest, i - 1, step); }
    }
  }

  // ---------------------------------------------------------------- infinite runs

  ghost predicate StepsFrom<S>(f: nat -> S, step: (S, S) -> bool, i: nat) { step(f(i), f(i + 1)) }

  ghost predicate IsInfiniteRun<S>(f: nat -> S, init: S, step: (S, S) -> bool) {
    f(0) == init && forall i: nat {:trigger StepsFrom(f, step, i)} :: StepsFrom(f, step, i)
  }

  lemma {:induction false} InvariantForever<S(!new)>(f: nat -> S, init: S, step: (S, S) -> bool, inv: S -> bool, i: nat)
    requires IsInfiniteRun(f, init, step) && inv(init) && Preserved(step, inv)
    ensures inv(f(i))
  {
    if i > 0 {
      InvariantForever(f, init, step, inv, i - 1);
      assert StepsFrom(f, step, i - 1);
    }
  }

  ghost predicate DropsAfter<S>(f: nat -> S, measure: S -> nat, i: nat) {
    exists j: nat :: j >= i && DropsAt(f, measure, j)
  }

  predicate DropsAt<S>(f: nat -> S, measure: S -> nat, j: nat) {
    measure(f(j + 1)) < measure(f(j))
  }

  ghost predicate NeverGrows<S>(f: nat -> S, measure: S -> nat, from: nat) {
    forall j: nat {:trigger GrowsAt(f, measure, j)} :: j >= from ==> !GrowsAt(f, measure, j)
  }

  predicate GrowsAt<S>(f: nat -> S, measure: S -> nat, j: nat) {
    measure(f(j + 1)) > measure(f(j))
  }

  lemma {:induction false} OnlySinks<S(!new)>(f: nat -> S, measure: S -> nat, from: nat, i: nat, j: nat)
    requires NeverGrows(f, measure, from) && from <= i <= j
    ensures measure(f(j)) <= measure(f(i))
    decreases j
  {
    if i < j {
      OnlySinks(f, measure, from, i, j - 1);
      assert !GrowsAt(f, measure, j - 1);
    }
  }

  /** A measure that is positive at one time and zero at a later one has dropped in between. */
  lemma {:induction false} DropBetween<S(!new)>(f: nat -> S, measure: S -> nat, i: nat, j: nat)
    requires i <= j && measure(f(i)) > 0 && measure(f(j)) == 0
    ensures DropsAfter(f, measure, i)
    decreases j - i
  {
    if measure(f(i + 1)) < measure(f(i)) {
      assert DropsAt(f, measure, i);
    } else {
      DropBetween(f, measure, i + 1, j);
      var d: nat :| d >= i + 1 && DropsAt(f, measure, d);
    }
  }

  /** A measure that never grows and drops again and again while it is positive reaches zero. */
  lemma {:induction false} ReachesZero<S(!new)>(f: nat -> S, measure: S -> nat, from: nat) returns (end: nat)
    requires NeverGrows(f, measure, from)
    requires forall i: nat {:trigger DropsAfter(f, measure, i)} ::
      i >= from && measure(f(i)) > 0 ==> DropsAfter(f, measure, i)
    ensures end >= from && measure(f(end)) == 0
    decreases measure(f(from))
  {
    if measure(f(from)) == 0 {
      end := from;
    } else {
      assert DropsAfter(f, measure, from);
      var j: nat :| j >= from && DropsAt(f, measure, j);
      OnlySinks(f, measure, from, from, j);
      end := ReachesZero(f, measure, j + 1);
    }
  }
}
