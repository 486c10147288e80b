/** What the goroutines of the supervisor may do in any run: how Start gives up or succeeds, when a heartbeat reports,
    and who takes errors out of the channel. */
module SupervisorLaws {
  import opened Foundation
  import opened Runs
  import opened WorkerSupervision
  import opened SupervisorOutcomes

  // ---------------------------------------------------------------- heartbeats

  ghost predicate SameBeat(s: State, t: State, k: nat)
    requires k < |s.entries| == |t.entries|
  {
    s.entries[k].beat == t.entries[k].beat
  }

  /** A heartbeat starts by waiting for its ticker, looks at the recorded health after a tick only, fails only after a
      report for a worker that was recorded healthy, records the worker as failed before it sends its error, and leaves
      without one only out of its wait and after the cancellation. */
  ghost predicate BeatLaw(s: State, t: State, k: nat)
    requires k < |s.entries| == |t.entries|
  {
    var b, b' := s.entries[k].beat, t.entries[k].beat;
    b' != b ==>
      && (b.Unspawned? ==> b' == Waiting && s.starter == SpawningBeat(k))
      && (b'.Observing? ==> b == Waiting)
      && (b'.BeatReporting? ==> b == Observing && (b'.healthy <==> s.entries[k].health == Healthy))
      && (b'.FailingBeat? ==> b == BeatReporting(true))
      && (b'.SendingBeat? ==> b == FailingBeat && t.entries[k].health == Failed)
      && (b'.LeavingBeat? ==> (b == Waiting && s.cancelled) || (b == SendingBeat && FromBeat(k) in t.emitted))
      && (b'.Gone? ==> b == LeavingBeat)
      && !b'.BlockedBeat? && !b'.Unspawned?
  }

  lemma StarterBeat(s: State, o: Outcome, t: State, k: nat)
    requires Inv(s) && DoStarter(s, o) == Some(t) && k < |s.entries|
    ensures |t.entries| == |s.entries| && BeatLaw(s, t, k)
  {
    assert EntryOk(s.entries[k], k, s.launched, s.starter, s.cancelled);
  }

  lemma OwnBeat(s: State, i: nat, choice: bool, t: State, k: nat)
    requires Inv(s) && i < |s.entries| && DoBeat(s, i, choice) == Some(t) && k < |s.entries|
    ensures |t.entries| == |s.entries| && BeatLaw(s, t, k)
  {
    assert EntryOk(s.entries[i], i, s.launched, s.starter, s.cancelled);
    if s.entries[i].beat == SendingBeat {
      assert !HasSent(s, FromBeat(i));
      SendHasRoom(s, FromBeat(i));
    }
  }

  lemma OtherBeat(s: State, a: Action, t: State, k: nat)
    requires Inv(s) && Do(s, a) == Some(t) && k < |s.entries| && !a.StarterStep? && !a.BeatStep?
    ensures |t.entries| == |s.entries| && SameBeat(s, t, k)
  {
  }

  // ---------------------------------------------------------------- Start

  /** Start gives up on entry k: while it waits for it, when it finds it no longer starting, which alone makes it look
      for an error afterwards, or after recording it as failed because of its first heartbeat. */
  ghost predicate GivesUp(s: State, t: State, k: nat) {
    && s.launched == k + 1 && k < |s.entries| == |t.entries|
    && ( || (s.starter == AwaitingReady(k) && t.starter == LaunchingCloser(false, false))
         || (s.starter == Marking(k) && s.entries[k].health != Starting && t.starter == LaunchingCloser(false, true))
         || (s.starter == FailingEntry(k) && t.entries[k].health == Failed
             && t.starter == LaunchingCloser(false, false)))
  }

  /** Start succeeds only past its last entry, fails only by giving up on one, spawns a heartbeat only after a report
      for a worker recorded healthy, drains only after it found a worker stopped, and returns what it has decided. */
  ghost predicate StartLaw(s: State, t: State) {
    var c, c' := s.starter, t.starter;
    c' != c ==>
      && (c'.Reporting? ==>
            c == ReadingHealth(c'.k) && c'.k < |s.entries| && (c'.healthy <==> s.entries[c'.k].health == Healthy))
      && (c'.SpawningBeat? ==> c == Reporting(c'.k, true))
      && (c'.FailingEntry? ==> c.Reporting? && c.k == c'.k)
      && (c'.LaunchingCloser? ==>
            if c'.ok then !c'.drain && c == AtEntry(|s.entries|) else exists k :: GivesUp(s, t, k))
      && (c'.Draining? ==> c == LaunchingCloser(false, true))
      && (c'.Returned? ==>
            || c == LaunchingCloser(c'.ok, false)
            || (c == Draining && !c'.ok)
            || (c == Allocating && s.entries == [] && c'.ok))
  }

  lemma StarterLawful(s: State, o: Outcome, t: State)
    requires Inv(s) && DoStarter(s, o) == Some(t) && DrainsOnlyFailure(s)
    ensures StartLaw(s, t) && DrainsOnlyFailure(t)
  {
    StarterKeepsSize(s, o, t);
    if s.starter.AwaitingReady? && t.starter.LaunchingCloser? { assert GivesUp(s, t, s.starter.k); }
    if s.starter.Marking? && t.starter.LaunchingCloser? { assert GivesUp(s, t, s.starter.k); }
    if s.starter.FailingEntry? { assert GivesUp(s, t, s.starter.k); }
  }

  /** Only a failing Start looks for an error. */
  predicate DrainsOnlyFailure(s: State) { s.starter.LaunchingCloser? && s.starter.drain ==> !s.starter.ok }

  lemma OtherStart(s: State, a: Action, t: State)
    requires Inv(s) && Do(s, a) == Some(t) && !a.StarterStep?
    ensures t.starter == s.starter || (s.starter == NotCalled && t.starter == Allocating)
  {
  }

  // ---------------------------------------------------------------- receiving errors

  /** Errors are taken out one at a time, by Start when it gives up waiting or drains, and by its caller once it has
      succeeded; a Start that drains takes one if there is one. */
  ghost predicate ReceiveLaw(s: State, t: State) {
    && t.received in {s.received, s.received + 1}
    && (t.received != s.received ==>
          && s.received < |s.emitted|
          && ( || (s.starter.AwaitingReady? && t.starter == LaunchingCloser(false, false))
               || (s.starter == Draining && t.starter == Returned(false))
               || s.starter == t.starter == Returned(true)))
    && (s.starter == Draining && t.starter != Draining && s.received < |s.emitted| ==> t.received == s.received + 1)
  }

  lemma StarterReceives(s: State, o: Outcome, t: State)
    requires Inv(s) && DoStarter(s, o) == Some(t)
    ensures ReceiveLaw(s, t)
  {
  }

  lemma OtherReceives(s: State, a: Action, t: State)
    requires Inv(s) && Do(s, a) == Some(t) && !a.StarterStep?
    ensures ReceiveLaw(s, t)
  {
  }

  /** The caller of a successful Start can take an error exactly when one is waiting. */
  lemma CallerReceivesExactly(s: State)
    requires Inv(s)
    ensures Do(s, Receive)
      == if s.starter == Returned(true) && s.received < |s.emitted| then Some(s.(received := s.received + 1)) else None
  {
  }

  // ---------------------------------------------------------------- every step of every run

  ghost predicate Lawful(s: State, t: State, k: nat) {
    && k < |s.entries| == |t.entries|
    && BeatLaw(s, t, k) && StartLaw(s, t) && ReceiveLaw(s, t)
  }

  lemma StepIsLawful(s: State, a: Action, t: State)
    requires Inv(s) && DrainsOnlyFailure(s) && Do(s, a) == Some(t)
    ensures |t.entries| == |s.entries| && StartLaw(s, t) && ReceiveLaw(s, t) && DrainsOnlyFailure(t)
  {
    StepKeepsSize(s, a, t);
    if a.StarterStep? {
      StarterLawful(s, a.outcome, t);
      StarterReceives(s, a.outcome, t);
    } else {
      OtherStart(s, a, t);
      OtherReceives(s, a, t);
    }
  }

  lemma BeatIsLawful(s: State, a: Action, t: State, k: nat)
    requires Inv(s) && Do(s, a) == Some(t) && k < |s.entries|
    ensures |t.entries| == |s.entries| && BeatLaw(s, t, k)
  {
    match a
    case StarterStep(o) => StarterBeat(s, o, t, k);
    case BeatStep(i, choice) => OwnBeat(s, i, choice, t, k);
    case _ => OtherBeat(s, a, t, k);
  }

  lemma {:induction false} DrainsAlong(n: nat, trace: seq<State>, i: nat)
    requires IsRun(trace, Init(n), Steps) && i < |trace|
    ensures Inv(trace[i]) && DrainsOnlyFailure(trace[i])
  {
    var inv := (s: State) => Inv(s) && DrainsOnlyFailure(s);
    InitInv(n);
    forall s, t | inv(s) && Steps(s, t)
      ensures inv(t)
    {
      var a :| Do(s, a) == Some(t);
      StepKeepsInv(s, a, t);
      StepIsLawful(s, a, t);
    }
    Invariant(trace, Init(n), Steps, inv, i);
  }

  /** Every step of every run keeps the laws of heartbeats, of Start and of the channel. */
  lemma {:induction false} RunIsLawful(n: nat, trace: seq<State>, i: nat, k: nat)
    requires IsRun(trace, Init(n), Steps) && i + 1 < |trace| && k < n
    ensures Lawful(trace[i], trace[i + 1], k)
  {
    RunKeepsInv(n, trace, i);
    DrainsAlong(n, trace, i);
    assert StepAt(trace, i, Steps);
    var a :| Do(trace[i], a) == Some(trace[i + 1]);
    StepIsLawful(trace[i], a, trace[i + 1]);
    BeatIsLawful(trace[i], a, trace[i + 1], k);
  }

  // ---------------------------------------------------------------- reasons

  predicate Failing(c: Starter) { c == Returned(false) || c.Draining? || (c.LaunchingCloser? && !c.ok) }

  ghost predicate GivesUpAt(trace: seq<State>, j: nat, k: nat) { j + 1 < |trace| && GivesUp(trace[j], trace[j + 1], k) }

  /** Start fails only for a reason: at some time it has given up on an entry that it had launched. */
  lemma {:induction false} StartFailsForAReason(n: nat, trace: seq<State>, i: nat) returns (j: nat, k: nat)
    requires IsRun(trace, Init(n), Steps) && i < |trace| && Failing(trace[i].starter)
    ensures j < i && k < n && GivesUpAt(trace, j, k)
    decreases i
  {
    assert i > 0;
    if Failing(trace[i - 1].starter) {
      j, k := StartFailsForAReason(n, trace, i - 1);
    } else {
      RunKeepsInv(n, trace, i - 1);
      DrainsAlong(n, trace, i - 1);
      assert StepAt(trace, i - 1, Steps);
      var a :| Do(trace[i - 1], a) == Some(trace[i]);
      StepIsLawful(trace[i - 1], a, trace[i]);
      k :| GivesUp(trace[i - 1], trace[i], k);
      j := i - 1;
    }
  }

  ghost predicate Ticked(trace: seq<State>, j: nat, k: nat) {
    && j + 1 < |trace| && k < |trace[j].entries| == |trace[j + 1].entries|
    && trace[j].entries[k].beat == Waiting && trace[j + 1].entries[k].beat == Observing
  }

  ghost predicate SeenHealthy(trace: seq<State>, j: nat, k: nat) {
    j < |trace| && k < |trace[j].entries| && trace[j].entries[k].beat == Observing
      && trace[j].entries[k].health == Healthy
  }

  /** A heartbeat that is past its report has had a tick, and has then seen its worker recorded healthy. */
  lemma {:induction false} BeatHasReason(n: nat, trace: seq<State>, i: nat, k: nat) returns (tick: nat, seen: nat)
    requires IsRun(trace, Init(n), Steps) && i < |trace| && k < n && |trace[i].entries| == n
    requires trace[i].entries[k].beat in {Observing, BeatReporting(true), FailingBeat, SendingBeat}
    ensures tick < i && Ticked(trace, tick, k)
    ensures trace[i].entries[k].beat != Observing ==> tick < seen < i && SeenHealthy(trace, seen, k)
    decreases i
  {
    RunKeepsInv(n, trace, 0);
    assert i > 0;
    RunIsLawful(n, trace, i - 1, k);
    var before := trace[i - 1].entries[k].beat;
    if before == Waiting {
      tick, seen := i - 1, 0;
    } else {
      RunKeepsInv(n, trace, i - 1);
      tick, seen := BeatHasReason(n, trace, i - 1, k);
      if before == Observing && trace[i].entries[k].beat != Observing { seen := i - 1; }
    }
  }

  /** An error of a heartbeat: after a tick it saw its worker recorded healthy, its report was refused, and it has
      recorded the worker as failed. */
  lemma {:induction false} BeatErrorHasReason(n: nat, trace: seq<State>, i: nat, k: nat)
    returns (tick: nat, seen: nat, failed: nat)
    requires IsRun(trace, Init(n), Steps) && i < |trace| && k < n && FromBeat(k) in trace[i].emitted
    ensures tick < seen < failed < i && Ticked(trace, tick, k) && SeenHealthy(trace, seen, k)
    ensures BeatFailsAt(trace, k, failed) && trace[failed + 1].entries[k].health == Failed
  {
    BeatSendsExactly(n, trace, i, k);
    failed :| failed < i && BeatFailsAt(trace, k, failed);
    RunKeepsInv(n, trace, failed);
    RunIsLawful(n, trace, failed, k);
    StepAlong(n, trace, failed + 1, k);
    tick, seen := BeatHasReason(n, trace, failed, k);
  }
}
