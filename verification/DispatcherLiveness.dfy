/** Delivery in infinite runs of the event dispatcher: under fair scheduling every accepted observation is dispatched
    and reaches every observer that takes it, unless Run ends first. */
module DispatcherLiveness {
  import opened Foundation
  import opened Runs
  import opened EventDispatch

  type Behaviour = nat -> State

  ghost predicate IsBehaviour(c: Config, f: Behaviour) { IsInfiniteRun(f, Init(c), Steps) }

  predicate ConsumerEnabled(s: State) {
    DoConsumer(s, false, 0).Some? || (s.consumer.Selecting? && s.cancelled)
  }

  ghost predicate ConsumerServed(f: Behaviour, j: nat) {
    ConsumerEnabled(f(j)) ==> f(j + 1).consumer != f(j).consumer
  }

  ghost predicate ConsumerServedAfter(f: Behaviour, i: nat) { exists j: nat :: j >= i && ConsumerServed(f, j) }

  /** The consumer is not passed over for ever: again and again it is unable to move, or moves. Of the observers this
      asks that their calls end. */
  ghost predicate WeaklyFair(f: Behaviour, from: nat) {
    forall i: nat {:trigger ConsumerServedAfter(f, i)} :: i >= from ==> ConsumerServedAfter(f, i)
  }

  // ---------------------------------------------------------------- what one step does

  /** How many steps the consumer needs at most for one observation. */
  function Round(n: nat): nat { 3 * n + 5 }

  /** How many steps are left of the dispatch in progress, for n observers. */
  function StepsLeft(c: Consumer, n: nat): nat {
    match c
    case Starting => Round(n) + 1
    case Selecting => Round(n)
    case Measuring(_) => Round(n) - 1
    case Dispatching(_, next) => if next <= n then 3 * (n - next) + 1 else 0
    case Calling(_, next, _) => if next <= n then 3 * (n - next) + 3 else 0
    case Unwinding(_, next, frames) => if frames > 0 && next <= n then 3 * (n - next) + 2 else 1
    case _ => 0
  }

  /** Nothing more is to be done for the observation at place m. */
  predicate Settled(s: State, m: nat) { s.consumer.Over() || m < |s.dispatched| }

  /** How many steps the consumer still takes before the observation at place m is dispatched. */
  function Left(m: nat): State -> nat {
    (s: State) =>
      if Settled(s, m) then 0
      else (m - |s.dispatched|) * Round(|s.config.observers|) + StepsLeft(s.consumer, |s.config.observers|)
  }

  lemma RoundsLeft(k: nat, n: nat)
    ensures k * Round(n) >= 0
  {
  }

  /** One step of the consumer ends the dispatch in progress, ends Run, or comes closer to one of the two. */
  lemma ConsumerProgress(s: State, panics: bool, now: int, t: State)
    requires Inv(s) && DoConsumer(s, panics, now) == Some(t)
    ensures t.config == s.config && !s.consumer.Over() && StepsLeft(s.consumer, |s.config.observers|) > 0
    ensures
      || t.consumer.Over()
      || (|t.dispatched| == |s.dispatched| + 1 && t.consumer == Selecting)
      || (t.dispatched == s.dispatched
          && StepsLeft(t.consumer, |s.config.observers|) < StepsLeft(s.consumer, |s.config.observers|))
  {
  }

  lemma ConsumerSinks(s: State, panics: bool, now: int, t: State, m: nat)
    requires Inv(s) && DoConsumer(s, panics, now) == Some(t) && !Settled(s, m)
    ensures Left(m)(t) < Left(m)(s)
  {
    var n, d := |s.config.observers|, |s.dispatched|;
    ConsumerProgress(s, panics, now, t);
    RoundsLeft(m - d, n);
    if !Settled(t, m) && |t.dispatched| > d {
      assert (m - d) * Round(n) == (m - d - 1) * Round(n) + Round(n);
    }
  }

  lemma OthersKeep(s: State, a: Action, t: State, m: nat)
    requires Inv(s) && s.consumer != Absent && Do(s, a) == Some(t) && !a.Step? && !a.StopStep?
    ensures t.consumer == s.consumer && t.dispatched == s.dispatched && t.config == s.config
  {
  }

  lemma StepSinks(s: State, a: Action, t: State, m: nat)
    requires Inv(s) && s.consumer != Absent && Do(s, a) == Some(t)
    ensures t.consumer != Absent && Left(m)(t) <= Left(m)(s)
    ensures t.consumer != s.consumer && !Settled(s, m) ==> Left(m)(t) < Left(m)(s)
  {
    StepGrows(s, a, t);
    if a.Step? {
      if !Settled(s, m) { ConsumerSinks(s, a.panics, a.now, t, m); }
    } else if a.StopStep? {
      if !Settled(s, m) { assert Left(m)(s) >= Round(|s.config.observers|); }
    } else {
      OthersKeep(s, a, t, m);
    }
  }

  /** A consumer that is not finished with an accepted observation can move. */
  lemma ConsumerCanMove(s: State, m: nat)
    requires Inv(s) && s.consumer != Absent && m < |s.accepted| && !Settled(s, m)
    ensures ConsumerEnabled(s) && Left(m)(s) > 0
  {
    RoundsLeft(m - |s.dispatched|, |s.config.observers|);
  }

  // ---------------------------------------------------------------- along a behaviour

  lemma {:induction false} InvAlong(c: Config, f: Behaviour, i: nat)
    requires IsBehaviour(c, f)
    ensures Inv(f(i)) && f(i).config == c
  {
    var inv := (s: State) => Inv(s) && s.config == c;
    forall s, t | inv(s) && Steps(s, t)
      ensures inv(t)
    {
      var a :| Do(s, a) == Some(t);
      StepKeepsInv(s, a, t);
      StepKeepsConfig(s, a, t);
    }
    InvariantForever(f, Init(c), Steps, inv, i);
  }

  lemma {:induction false} NextSinks(c: Config, f: Behaviour, i: nat, m: nat)
    requires IsBehaviour(c, f) && f(i).consumer != Absent
    ensures f(i + 1).consumer != Absent && !GrowsAt(f, Left(m), i)
    ensures f(i + 1).consumer != f(i).consumer && !Settled(f(i), m) ==> DropsAt(f, Left(m), i)
    ensures Grows(f(i), f(i + 1))
  {
    InvAlong(c, f, i);
    assert StepsFrom(f, Steps, i);
    var a :| Do(f(i), a) == Some(f(i + 1));
    StepSinks(f(i), a, f(i + 1), m);
    StepGrows(f(i), a, f(i + 1));
  }

  lemma {:induction false} HistoryStays(c: Config, f: Behaviour, i: nat, j: nat)
    requires IsBehaviour(c, f) && f(i).consumer != Absent && i <= j
    ensures f(j).consumer != Absent && f(i).accepted <= f(j).accepted && f(i).dispatched <= f(j).dispatched
    decreases j
  {
    if i < j {
      HistoryStays(c, f, i, j - 1);
      NextSinks(c, f, j - 1, 0);
    }
  }

  lemma {:induction false} ConsumerMoves(c: Config, f: Behaviour, i: nat, m: nat, k: nat)
    requires IsBehaviour(c, f) && WeaklyFair(f, i) && f(i).consumer != Absent && m < |f(i).accepted|
    requires k >= i && Left(m)(f(k)) > 0
    ensures DropsAfter(f, Left(m), k)
  {
    assert ConsumerServedAfter(f, k);
    var j: nat :| j >= k && ConsumerServed(f, j);
    HistoryStays(c, f, i, j);
    InvAlong(c, f, j);
    if Settled(f(j), m) {
      DropBetween(f, Left(m), k, j);
    } else {
      ConsumerCanMove(f(j), m);
      NextSinks(c, f, j, m);
    }
  }

  /** In every infinite run in which Run has been called, fair scheduling dispatches every accepted observation and
      hands it to every observer that takes it, however many more are offered, unless Run ends before. */
  lemma {:induction false} FairRunsDispatch(c: Config, f: Behaviour, i: nat, m: nat) returns (j: nat)
    requires IsBehaviour(c, f) && WeaklyFair(f, i) && f(i).consumer != Absent && m < |f(i).accepted|
    ensures j >= i
    ensures f(j).consumer.Over() || DeliveredAt(f(j), m, f(i).accepted[m])
  {
    forall k: nat | k >= i
      ensures !GrowsAt(f, Left(m), k)
    {
      HistoryStays(c, f, i, k);
      NextSinks(c, f, k, m);
    }
    forall k: nat | k >= i && Left(m)(f(k)) > 0
      ensures DropsAfter(f, Left(m), k)
    {
      ConsumerMoves(c, f, i, m, k);
    }
    j := ReachesZero(f, Left(m), i);
    HistoryStays(c, f, i, j);
    InvAlong(c, f, j);
    if !Settled(f(j), m) { ConsumerCanMove(f(j), m); }
    if !f(j).consumer.Over() { DispatchedIsDelivered(f(j), m); }
  }

  /** The observation at place m was o, is dispatched, and is in the records of every observer that takes it. */
  ghost predicate DeliveredAt(s: State, m: nat, o: Observation) {
    && m < |s.dispatched| && s.dispatched[m] == o
    && |s.logs| == |s.config.observers|
    && forall k :: 0 <= k < |s.logs| && (o.Event? || s.config.observers[k].takesLag) ==> o in s.logs[k]
  }

  lemma DispatchedIsDelivered(s: State, m: nat)
    requires Inv(s) && m < |s.dispatched|
    ensures DeliveredAt(s, m, s.accepted[m])
  {
    var o := s.dispatched[m];
    forall k | 0 <= k < |s.logs| && (o.Event? || s.config.observers[k].takesLag)
      ensures o in s.logs[k]
    {
      var seen := SeenBy(s.consumer, s.dispatched, k);
      assert seen[m] == o;
      ExpectedCounts(s.config.observers[k], seen, o);
    }
  }

  // ---------------------------------------------------------------- runs that are not ended

  ghost predicate Undisturbed(f: Behaviour, j: nat) { !f(j).cancelled && !ClockPanics(f(j), f(j + 1)) }

  ghost predicate NeverEnded(f: Behaviour) { forall j: nat {:trigger Undisturbed(f, j)} :: Undisturbed(f, j) }

  lemma {:induction false} StaysUp(c: Config, f: Behaviour, j: nat)
    requires IsBehaviour(c, f) && NeverEnded(f)
    ensures !f(j).consumer.Over() && !f(j).consumer.Doomed()
  {
    if j > 0 {
      StaysUp(c, f, j - 1);
      InvAlong(c, f, j - 1);
      assert StepsFrom(f, Steps, j - 1) && Undisturbed(f, j - 1);
      var a :| Do(f(j - 1), a) == Some(f(j));
      StepToDoom(f(j - 1), a, f(j));
    }
  }

  /** While the context is not cancelled and the consumer's clock does not panic, everything accepted is delivered. */
  lemma {:induction false} EverythingIsDelivered(c: Config, f: Behaviour, i: nat, m: nat) returns (j: nat)
    requires IsBehaviour(c, f) && NeverEnded(f)
    requires WeaklyFair(f, i) && f(i).consumer != Absent && m < |f(i).accepted|
    ensures j >= i && DeliveredAt(f(j), m, f(i).accepted[m])
  {
    j := FairRunsDispatch(c, f, i, m);
    StaysUp(c, f, j);
  }

  // ---------------------------------------------------------------- Run can always be ended

  /** How far a consumer is from its next select, for n observers. */
  function ToSelect(c: Consumer, n: nat): nat { if c.Selecting? then 1 else StepsLeft(c, n) + 1 }

  /** From every state of a called Run, once the context is cancelled, the consumer alone can go on to its end. */
  lemma {:induction false} CanEnd(s: State) returns (rest: seq<State>)
    requires Inv(s) && s.cancelled && s.consumer != Absent
    ensures IsRun(rest, s, Steps) && rest[|rest| - 1].consumer.Over()
    decreases ToSelect(s.consumer, |s.config.observers|)
  {
    if s.consumer.Over() {
      rest := [s];
    } else if s.consumer.Selecting? {
      var t := s.(consumer := Stopped, running := false);
      assert Do(s, StopStep) == Some(t);
      rest := [s] + [t];
      RunExtended([s], s, Steps, t);
    } else {
      var t := MovesOn(s);
      var more := CanEnd(t);
      rest := [s] + more;
      RunBegins(s, more, Steps);
    }
  }

  lemma MovesOn(s: State) returns (t: State)
    requires Inv(s) && s.cancelled && s.consumer != Absent && !s.consumer.Over() && !s.consumer.Selecting?
    ensures Steps(s, t) && Inv(t) && t.cancelled && t.consumer != Absent && t.config == s.config
    ensures t.consumer.Over() || t.consumer.Selecting?
            || ToSelect(t.consumer, |s.config.observers|) < ToSelect(s.consumer, |s.config.observers|)
    ensures ToSelect(s.consumer, |s.config.observers|) > 1
  {
    t := DoConsumer(s, false, 0).value;
    assert Do(s, Step(false, 0)) == Some(t);
    StepKeepsInv(s, Step(false, 0), t);
    ConsumerProgress(s, false, 0, t);
  }

  /** Every run in which Run was called can be cancelled and then goes on to its end. */
  lemma {:induction false} EveryRunCanEnd(c: Config, trace: seq<State>) returns (rest: seq<State>)
    requires IsRun(trace, Init(c), Steps) && trace[|trace| - 1].consumer != Absent
    ensures IsRun(rest, trace[|trace| - 1], Steps) && rest[|rest| - 1].consumer.Over()
  {
    var s := trace[|trace| - 1];
    RunKeepsInv(c, trace, |trace| - 1);
    var t := Do(s, Cancel).value;
    assert Steps(s, t);
    StepKeepsInv(s, Cancel, t);
    CancelStep(s, Cancel, t);
    var more := CanEnd(t);
    rest := [s] + more;
    RunBegins(s, more, Steps);
  }

  // ---------------------------------------------------------------- fair runs exist

  /** Run is called, o is offered, and from then on only the consumer moves; its clock works. */
  ghost function Alone(c: Config, o: Observation): Behaviour { (i: nat) => AloneAt(c, o, i) }

  function AloneAt(c: Config, o: Observation, i: nat): State {
    if i == 0 then Init(c)
    else if i == 1 then Init(c).(consumer := Starting)
    else if i == 2 then Init(c).(consumer := Starting, queue := [o], accepted := [o], offered := 1)
    else Next(AloneAt(c, o, i - 1), false, 0)
  }

  lemma AloneSteps(c: Config, o: Observation, i: nat)
    requires c.capacity > 0
    ensures Steps(AloneAt(c, o, i), AloneAt(c, o, i + 1))
  {
    var s, t := AloneAt(c, o, i), AloneAt(c, o, i + 1);
    if i == 0 {
      assert Do(s, RunCall) == Some(t);
    } else if i == 1 {
      assert s.queue + [o] == [o] && s.accepted + [o] == [o];
      assert Do(s, Offer(o, true)) == Some(t);
    } else if t == s {
      assert Do(s, Offer(o, false)) == Some(t);
    } else {
      assert Do(s, Step(false, 0)) == Some(t);
    }
  }

  lemma {:induction false} AloneIsUndisturbed(c: Config, o: Observation, i: nat)
    ensures !AloneAt(c, o, i).cancelled && !AloneAt(c, o, i).consumer.Doomed()
  {
    if i > 2 {
      AloneIsUndisturbed(c, o, i - 1);
      NextIsUndisturbed(AloneAt(c, o, i - 1));
    }
  }

  lemma NextIsUndisturbed(s: State)
    requires !s.cancelled && !s.consumer.Doomed()
    ensures !Next(s, false, 0).cancelled && !Next(s, false, 0).consumer.Doomed()
  {
  }

  /** A step of the consumer changes where it is. */
  lemma ConsumerStepMoves(s: State)
    requires ConsumerEnabled(s) && !s.cancelled
    ensures Next(s, false, 0).consumer != s.consumer
  {
  }

  /** So the hypotheses can be met, at a time when nothing is dispatched yet. */
  lemma {:induction false} FairDispatchExists(c: Config, o: Observation) returns (f: Behaviour)
    requires c.capacity > 0
    ensures IsBehaviour(c, f) && NeverEnded(f) && WeaklyFair(f, 2)
    ensures f(2).consumer == Starting && f(2).accepted == [o] && f(2).dispatched == []
  {
    f := Alone(c, o);
    forall i: nat
      ensures StepsFrom(f, Steps, i) && Undisturbed(f, i)
    {
      AloneSteps(c, o, i);
      AloneIsUndisturbed(c, o, i);
      AloneIsUndisturbed(c, o, i + 1);
    }
    forall i: nat | i >= 2
      ensures ConsumerServedAfter(f, i)
    {
      AloneIsUndisturbed(c, o, i);
      if ConsumerEnabled(f(i)) { ConsumerStepMoves(f(i)); }
      assert ConsumerServed(f, i);
    }
  }
}
