/** What the supervisor has reported about each worker once everything is over: which errors were sent, and whether a
    worker is recorded as stopped or as failed. */
module SupervisorOutcomes {
  import opened Foundation
  import opened Runs
  import opened WorkerSupervision

  ghost predicate Launched(s: State, k: nat) { k < s.launched <= |s.entries| }

  /** Between times j and j + 1 the Run of worker k ends. */
  ghost predicate EndsAt(trace: seq<State>, k: nat, j: nat) {
    && j + 1 < |trace| && k < |trace[j].entries| && k < |trace[j + 1].entries|
    && trace[j].entries[k].worker == Running && trace[j + 1].entries[k].worker != Running
  }

  /** Between times j and j + 1 worker k, whose Run has ended, looks at the context and finds it alive. */
  ghost predicate FailsAt(trace: seq<State>, k: nat, j: nat) {
    && j + 1 < |trace| && k < |trace[j].entries| && k < |trace[j + 1].entries|
    && trace[j].entries[k].worker == RunReturned && trace[j + 1].entries[k].worker != RunReturned
    && !trace[j].cancelled
  }

  /** Between times j and j + 1 Start records worker k as failed, because its first heartbeat was not accepted. */
  ghost predicate BlamedAt(trace: seq<State>, k: nat, j: nat) {
    j + 1 < |trace| && trace[j].starter == FailingEntry(k) && trace[j + 1].starter != FailingEntry(k)
  }

  /** Between times j and j + 1 the heartbeat of worker k records it as failed. */
  ghost predicate BeatFailsAt(trace: seq<State>, k: nat, j: nat) {
    && j + 1 < |trace| && k < |trace[j].entries| && k < |trace[j + 1].entries|
    && trace[j].entries[k].beat == FailingBeat && trace[j + 1].entries[k].beat != FailingBeat
  }

  ghost predicate Failed(trace: seq<State>, i: nat, k: nat) { exists j: nat :: j < i && FailsAt(trace, k, j) }

  ghost predicate Blamed(trace: seq<State>, i: nat, k: nat) { exists j: nat :: j < i && BlamedAt(trace, k, j) }

  ghost predicate BeatFailed(trace: seq<State>, i: nat, k: nat) { exists j: nat :: j < i && BeatFailsAt(trace, k, j) }

  // ---------------------------------------------------------------- one step

  /** How an action changes the worker goroutine of entry k and what it has sent. */
  ghost predicate WorkerTells(s: State, t: State, k: nat)
    requires k < |s.entries| == |t.entries|
  {
    var w, w' := s.entries[k].worker, t.entries[k].worker;
    && (FromWorker(k) in t.emitted <==> FromWorker(k) in s.emitted || (w == Sending && w' != Sending))
    && (w == RunReturned && w' != RunReturned ==> w' == if s.cancelled then Deferred else MarkingFailed)
    && (w' == MarkingFailed && w != MarkingFailed ==> w == RunReturned)
    && (w == MarkingFailed && w' != MarkingFailed ==> w' == Sending)
    && (w' == Sending && w != Sending ==> w == MarkingFailed)
    && (w' == RunReturned && w != RunReturned ==> w == Running)
    && (w' in {Unlaunched, Running} && w' != w ==> w == Unlaunched)
    && (s.cancelled ==> t.cancelled)
  }

  ghost predicate BeatTells(s: State, t: State, k: nat)
    requires k < |s.entries| == |t.entries|
  {
    var b, b' := s.entries[k].beat, t.entries[k].beat;
    && (FromBeat(k) in t.emitted <==> FromBeat(k) in s.emitted || (b == SendingBeat && b' != SendingBeat))
    && (b == FailingBeat && b' != FailingBeat ==> b' == SendingBeat)
    && (b' == SendingBeat && b != SendingBeat ==> b == FailingBeat)
  }

  /** Who writes failed or stopped. */
  ghost predicate RecordTells(s: State, t: State, k: nat)
    requires k < |s.entries| == |t.entries|
  {
    var e, e' := s.entries[k], t.entries[k];
    && (e'.health.Failed? && !e.health.Failed? ==>
          || (e.worker == MarkingFailed && e'.worker == Sending)
          || (e.beat == FailingBeat && e'.beat != FailingBeat)
          || (s.starter == FailingEntry(k) && t.starter != FailingEntry(k)))
    && (e'.health.Stopped? && !e.health.Stopped? ==> e.worker == MarkingStopped)
    && (e'.worker == MarkingStopped && e.worker != MarkingStopped ==> s.cancelled)
  }

  ghost predicate Tells(s: State, t: State, k: nat) {
    && k < |s.entries| == |t.entries|
    && WorkerTells(s, t, k) && BeatTells(s, t, k) && RecordTells(s, t, k)
  }

  lemma StarterTellsWorker(s: State, o: Outcome, t: State, k: nat)
    requires Inv(s) && DoStarter(s, o) == Some(t) && k < |s.entries| == |t.entries|
    ensures WorkerTells(s, t, k)
  {
    assert EntryOk(s.entries[k], k, s.launched, s.starter, s.cancelled);
  }

  lemma StarterTells(s: State, o: Outcome, t: State, k: nat)
    requires Inv(s) && DoStarter(s, o) == Some(t) && k < |s.entries|
    ensures Tells(s, t, k)
  {
    StarterKeepsSize(s, o, t);
    StarterTellsWorker(s, o, t, k);
    assert EntryOk(s.entries[k], k, s.launched, s.starter, s.cancelled);
  }

  /** One step of a worker goroutine, seen from its entry alone. */
  lemma OwnStepTells(s: State, i: nat, t: State)
    requires i < |s.entries| && DoWorker(s, i) == Some(t)
    ensures Tells(s, t, i)
  {
  }

  lemma WorkerStepTells(s: State, i: nat, t: State, k: nat)
    requires Inv(s) && i < |s.entries| && DoWorker(s, i) == Some(t) && k < |s.entries|
    ensures Tells(s, t, k)
  {
    if k == i { OwnStepTells(s, i, t); }
  }

  lemma BeatStepTells(s: State, i: nat, choice: bool, t: State, k: nat)
    requires Inv(s) && i < |s.entries| && DoBeat(s, i, choice) == Some(t) && k < |s.entries|
    ensures Tells(s, t, k)
  {
    if s.entries[i].beat == SendingBeat {
      assert !HasSent(s, FromBeat(i));
      SendHasRoom(s, FromBeat(i));
    }
    assert EntryOk(s.entries[i], i, s.launched, s.starter, s.cancelled);
  }

  lemma StepTells(s: State, a: Action, t: State, k: nat)
    requires Inv(s) && Do(s, a) == Some(t) && k < |s.entries|
    ensures Tells(s, t, k)
  {
    match a
    case StarterStep(o) => StarterTells(s, o, t, k);
    case WorkerStep(i) => WorkerStepTells(s, i, t, k);
    case BeatStep(i, choice) => BeatStepTells(s, i, choice, t, k);
    case _ =>
  }

  // ---------------------------------------------------------------- along a run

  ghost predicate TellsAt(trace: seq<State>, i: nat, k: nat) { 0 < i < |trace| && Tells(trace[i - 1], trace[i], k) }

  lemma {:induction false} StepAlong(n: nat, trace: seq<State>, i: nat, k: nat)
    requires IsRun(trace, Init(n), Steps) && 0 < i < |trace| && k < n
    ensures |trace[i - 1].entries| == |trace[i].entries| == n && TellsAt(trace, i, k)
  {
    RunKeepsInv(n, trace, i - 1);
    assert StepAt(trace, i - 1, Steps);
    var a :| Do(trace[i - 1], a) == Some(trace[i]);
    StepTells(trace[i - 1], a, trace[i], k);
  }

  /** A worker is on its way to send an error, or has sent it, exactly when it has found the context alive after its
      Run had ended. */
  lemma {:induction false} SendsExactly(n: nat, trace: seq<State>, i: nat, k: nat)
    requires IsRun(trace, Init(n), Steps) && i < |trace| && k < n
    ensures |trace[i].entries| == n
    ensures Failed(trace, i, k)
      <==> trace[i].entries[k].worker in {MarkingFailed, Sending} || FromWorker(k) in trace[i].emitted
  {
    if i > 0 {
      SendsExactly(n, trace, i - 1, k);
      StepAlong(n, trace, i, k);
      assert Failed(trace, i, k) <==> Failed(trace, i - 1, k) || FailsAt(trace, k, i - 1);
      if trace[i - 1].entries[k].worker == RunReturned {
        NotYetSent(n, trace, i - 1, k);
      }
    }
  }

  /** A worker whose Run has not ended, or has only just ended, has sent nothing. */
  lemma {:induction false} NotYetSent(n: nat, trace: seq<State>, i: nat, k: nat)
    requires IsRun(trace, Init(n), Steps) && i < |trace| && k < n
    ensures |trace[i].entries| == n
    ensures !trace[i].entries[k].worker.PastSend() ==> FromWorker(k) !in trace[i].emitted
    ensures !trace[i].entries[k].beat.PastSend() ==> FromBeat(k) !in trace[i].emitted
  {
    RunKeepsInv(n, trace, i);
    if FromWorker(k) in trace[i].emitted { assert HasSent(trace[i], FromWorker(k)); }
    if FromBeat(k) in trace[i].emitted { assert HasSent(trace[i], FromBeat(k)); }
  }

  lemma {:induction false} BeatSendsExactly(n: nat, trace: seq<State>, i: nat, k: nat)
    requires IsRun(trace, Init(n), Steps) && i < |trace| && k < n
    ensures |trace[i].entries| == n
    ensures BeatFailed(trace, i, k) <==> trace[i].entries[k].beat == SendingBeat || FromBeat(k) in trace[i].emitted
  {
    if i > 0 {
      BeatSendsExactly(n, trace, i - 1, k);
      StepAlong(n, trace, i, k);
      assert BeatFailed(trace, i, k) <==> BeatFailed(trace, i - 1, k) || BeatFailsAt(trace, k, i - 1);
    }
  }

  /** A worker is recorded as failed only for a reason, and as stopped only after the context was cancelled. */
  lemma {:induction false} FailedHasReason(n: nat, trace: seq<State>, i: nat, k: nat)
    requires IsRun(trace, Init(n), Steps) && i < |trace| && k < n
    ensures |trace[i].entries| == n
    ensures trace[i].entries[k].health.Failed? ==> Failed(trace, i, k) || BeatFailed(trace, i, k) || Blamed(trace, i, k)
    ensures trace[i].entries[k].health.Stopped? || trace[i].entries[k].worker == MarkingStopped ==> trace[i].cancelled
  {
    if i > 0 {
      FailedHasReason(n, trace, i - 1, k);
      StepAlong(n, trace, i, k);
      SendsExactly(n, trace, i, k);
      var e, e' := trace[i - 1].entries[k], trace[i].entries[k];
      if e.beat == FailingBeat && e'.beat != FailingBeat { assert BeatFailsAt(trace, k, i - 1); }
      if trace[i - 1].starter == FailingEntry(k) && trace[i].starter != FailingEntry(k) {
        assert BlamedAt(trace, k, i - 1);
      }
    }
  }

  /** When done is closed, every launched worker is recorded as stopped or as failed. It is recorded as stopped if
      neither it nor its heartbeat has sent an error and Start has not blamed it; and it has sent one error exactly
      if it found the context alive when its Run had ended, and none otherwise. */
  lemma {:induction false} OutcomeIsReported(n: nat, trace: seq<State>, i: nat, k: nat)
    requires IsRun(trace, Init(n), Steps) && i < |trace| && trace[i].done == Closed && Launched(trace[i], k)
    ensures trace[i].entries[k].health.Failed? || trace[i].entries[k].health.Stopped?
    ensures FromWorker(k) !in trace[i].emitted && FromBeat(k) !in trace[i].emitted && !Blamed(trace, i, k) ==>
      trace[i].entries[k].health.Stopped?
    ensures trace[i].entries[k].health.Stopped? ==> trace[i].cancelled
    ensures multiset(trace[i].emitted)[FromWorker(k)] == if Failed(trace, i, k) then 1 else 0
    ensures multiset(trace[i].emitted)[FromBeat(k)] == if BeatFailed(trace, i, k) then 1 else 0
  {
    RunKeepsInv(n, trace, i);
    ClosedMeansQuiet(n, trace, i, k);
    assert EntryOk(trace[i].entries[k], k, trace[i].launched, trace[i].starter, trace[i].cancelled);
    SendsExactly(n, trace, i, k);
    BeatSendsExactly(n, trace, i, k);
    FailedHasReason(n, trace, i, k);
    CountOnce(trace[i].emitted, FromWorker(k));
    CountOnce(trace[i].emitted, FromBeat(k));
  }

  lemma {:induction false} CountOnce(s: seq<Origin>, o: Origin)
    requires Distinct(s)
    ensures multiset(s)[o] == if o in s then 1 else 0
  {
    if s != [] {
      assert s == s[..|s| - 1] + [s[|s| - 1]];
      CountOnce(s[..|s| - 1], o);
    }
  }

  lemma {:induction false} StaysCancelled(n: nat, trace: seq<State>, i: nat, j: nat, k: nat)
    requires IsRun(trace, Init(n), Steps) && i <= j < |trace| && trace[i].cancelled && k < n
    ensures trace[j].cancelled
    decreases j
  {
    if i < j {
      StaysCancelled(n, trace, i, j - 1, k);
      StepAlong(n, trace, j, k);
    }
  }

  /** A worker whose Run ends after the cancellation never sends an error. */
  lemma {:induction false} EndedAfterCancel(n: nat, trace: seq<State>, i: nat, k: nat, j: nat)
    requires IsRun(trace, Init(n), Steps) && j < i < |trace| && k < n
    requires EndsAt(trace, k, j) && trace[j].cancelled
    ensures FromWorker(k) !in trace[i].emitted
  {
    SendsExactly(n, trace, i, k);
    if m: nat :| m < i && FailsAt(trace, k, m) {
      SendsExactly(n, trace, m, k);
      if m >= j { StaysCancelled(n, trace, j, m, k); } else { NeverRunsAgain(n, trace, m, j, k); }
    }
  }

  /** A goroutine whose Run has ended does not run again. */
  lemma {:induction false} NeverRunsAgain(n: nat, trace: seq<State>, i: nat, j: nat, k: nat)
    requires IsRun(trace, Init(n), Steps) && i <= j < |trace| && k < n
    requires |trace[i].entries| == n && trace[i].entries[k].worker !in {Unlaunched, Running}
    ensures |trace[j].entries| == n && trace[j].entries[k].worker !in {Unlaunched, Running}
    decreases j
  {
    if i < j {
      NeverRunsAgain(n, trace, i, j - 1, k);
      StepAlong(n, trace, j, k);
    }
  }

  /** One launched worker, with no more done by Start than waiting for it. */
  function OneWorker(health: Health, worker: Worker, group: nat, cancelled: bool): State {
    State([Entry(health, worker, Unspawned, 0)], 1, AwaitingReady(0), Open, 0, NoCloser, group, 0, cancelled, [], 0)
  }

  lemma Extended(trace: seq<State>, a: Action, t: State)
    requires IsRun(trace, Init(1), Steps) && Shape(trace[|trace| - 1]) && Do(trace[|trace| - 1], a) == Some(t)
    ensures IsRun(trace + [t], Init(1), Steps)
  {
    RunExtended(trace, Init(1), Steps, t);
  }

  lemma WorkerGoes(health: Health, worker: Worker, group: nat, cancelled: bool)
    requires worker.Live() && !worker.Sending? && (worker.Leaving? ==> group > 0)
    ensures var e := NextWorker(Entry(health, worker, Unspawned, 0), cancelled);
      && Shape(OneWorker(health, worker, group, cancelled))
      && Do(OneWorker(health, worker, group, cancelled), WorkerStep(0))
         == Some(OneWorker(e.health, e.worker, if worker.Leaving? then group - 1 else group, cancelled))
  {
    var s := OneWorker(health, worker, group, cancelled);
    var e := NextWorker(s.entries[0], cancelled);
    assert s.entries[0 := e] == [e];
  }

  lemma {:induction false} LaunchOne() returns (trace: seq<State>)
    ensures IsRun(trace, Init(1), Steps) && trace[|trace| - 1] == OneWorker(Starting, Running, 1, false)
  {
    var s0 := Init(1);
    assert s0.entries == [FRESH];
    var s1 := s0.(starter := Allocating, done := Open);
    var s2 := s1.(starter := AtEntry(0));
    var s3 := s2.(starter := Spawning(0), entries := [FRESH.(health := Starting)]);
    var launched := OneWorker(Starting, Running, 1, false);
    assert s2.entries[0 := s3.entries[0]] == s3.entries && s3.entries[0 := launched.entries[0]] == launched.entries;
    Extended([s0], StartCall, s1);
    Extended([s0] + [s1], StarterStep(Proceed), s2);
    Extended([s0] + [s1] + [s2], StarterStep(Proceed), s3);
    Extended([s0] + [s1] + [s2] + [s3], StarterStep(Proceed), launched);
    trace := [s0] + [s1] + [s2] + [s3] + [launched];
  }

  /** The run goes on with one step of the worker. */
  lemma {:induction false} WorkerGoesOn(trace: seq<State>, health: Health, worker: Worker, group: nat, cancelled: bool)
    returns (more: seq<State>)
    requires IsRun(trace, Init(1), Steps) && trace[|trace| - 1] == OneWorker(health, worker, group, cancelled)
    requires worker.Live() && !worker.Sending? && (worker.Leaving? ==> group > 0)
    ensures IsRun(more, Init(1), Steps) && trace < more
    ensures var e := NextWorker(Entry(health, worker, Unspawned, 0), cancelled);
      && |more| == |trace| + 1
      && more[|trace|] == OneWorker(e.health, e.worker, if worker.Leaving? then group - 1 else group, cancelled)
  {
    WorkerGoes(health, worker, group, cancelled);
    var t := Do(trace[|trace| - 1], WorkerStep(0)).value;
    Extended(trace, WorkerStep(0), t);
    more := trace + [t];
  }

  /** Ending before the cancellation is not enough for an error: a worker that finds the context cancelled when it
      looks keeps silent, and is recorded as stopped. */
  lemma {:induction false} EndedBeforeMayBeSilent() returns (trace: seq<State>, j: nat)
    ensures IsRun(trace, Init(1), Steps) && EndsAt(trace, 0, j) && !trace[j + 1].cancelled
    ensures trace[|trace| - 1] == OneWorker(Stopped, Exited, 0, true)
  {
    var launch := LaunchOne();
    j := |launch| - 1;
    var ended := WorkerGoesOn(launch, Starting, Running, 1, false);
    var cancelled := ended + [OneWorker(Starting, RunReturned, 1, true)];
    Extended(ended, Cancel, OneWorker(Starting, RunReturned, 1, true));
    var looked := WorkerGoesOn(cancelled, Starting, RunReturned, 1, true);
    var deferred := WorkerGoesOn(looked, Starting, Deferred, 1, true);
    var stopped := WorkerGoesOn(deferred, Starting, MarkingStopped, 1, true);
    trace := WorkerGoesOn(stopped, Stopped, Leaving, 1, true);
    assert trace[j] == launch[j] && trace[j + 1] == ended[j + 1];
  }
}
