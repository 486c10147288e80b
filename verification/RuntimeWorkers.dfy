/** The runtime worker supervisor as a state machine. One step is one atomic action of one goroutine: a
    critical section, a channel operation, a wait-group operation or an observation of the context. */
module WorkerSupervision {
  import opened Foundation
  import opened Numbering
  import opened Runs

  datatype Health = Created | Starting | Healthy | Stale | Failed | Stopped {
    predicate Terminal() { Failed? || Stopped? }
  }

  /** Where the goroutine that called Start is; k is the entry it works on. */
  datatype Starter =
    | NotCalled
    | Allocating                        // past the locked section, before the channel exists
    | AtEntry(k: nat)                   // loop head
    | Spawning(k: nat)                  // entry marked starting
    | AwaitingReady(k: nat)
    | Marking(k: nat)
    | AskingReporter(k: nat)
    | ReadingHealth(k: nat)             // first heartbeat report, inside its critical section
    | Reporting(k: nat, healthy: bool)
    | SpawningBeat(k: nat)
    | FailingEntry(k: nat)
    | LaunchingCloser(ok: bool, drain: bool)
    | Draining
    | Returned(ok: bool)
  {
    /** Between spawning entry k and marking it healthy. */
    predicate BeforeMark() { AwaitingReady? || Marking? }

    /** Between marking entry k healthy and being done with it. */
    predicate AfterMark() { AskingReporter? || ReadingHealth? || Reporting? || SpawningBeat? || FailingEntry? }

    /** Every launched entry has been marked healthy. */
    predicate AllMarked() {
      AtEntry? || Spawning? || AfterMark() || this == Returned(true) || (LaunchingCloser? && ok)
    }
  }

  datatype Worker =
    | Unlaunched | Running | RunReturned | MarkingFailed | Sending | Deferred | MarkingStopped | Leaving | Exited
  {
    predicate Live() { !Unlaunched? && !Exited? }

    predicate PastSend() { Deferred? || MarkingStopped? || Leaving? || Exited? }

    /** The worker has recorded how it ended. */
    predicate Settled() { Sending? || Leaving? || Exited? }
  }

  datatype Beat =
    | Unspawned | Waiting | Observing | BeatReporting(healthy: bool)
    | FailingBeat | SendingBeat | BlockedBeat | LeavingBeat | Gone
  {
    predicate Live() { !Unspawned? && !Gone? }

    predicate PastSend() { LeavingBeat? || Gone? }
  }

  datatype Closer = NoCloser | AwaitingWorkers | AwaitingBeats | ClosingDone | Finished

  datatype Done = Absent | Open | Closed

  /** Who put an error into the bounded channel. */
  datatype Origin = FromWorker(i: nat) | FromBeat(i: nat)

  /** One worker entry: its recorded health, its two goroutines, and how often it was marked healthy. */
  datatype Entry = Entry(health: Health, worker: Worker, beat: Beat, marks: nat)

  datatype State = State(
    entries: seq<Entry>,
    launched: nat,
    starter: Starter,
    done: Done,
    closes: nat,                        // how often done was closed
    closer: Closer,
    workerGroup: nat,                   // wait-group counters
    beatGroup: nat,
    cancelled: bool,
    emitted: seq<Origin>,               // every error ever sent
    received: nat)                      // how many of them were taken out again
  {
    function Capacity(): nat { 2 * |entries| }

    function Queued(): int { |emitted| - received }
  }

  const FRESH := Entry(Created, Unlaunched, Unspawned, 0)

  function Init(n: nat): State {
    State(seq(n, _ => FRESH), 0, NotCalled, Absent, 0, NoCloser, 0, 0, false, [], 0)
  }

  /** What the environment decides for the starting goroutine where it has a choice. */
  datatype Outcome = Proceed | ErrorArrived | ContextDone | TimedOut | Refused

  datatype Action =
    | StartCall
    | StarterStep(outcome: Outcome)
    | WorkerStep(i: nat)
    | BeatStep(i: nat, choice: bool)
    | CloserStep
    | Cancel
    | Receive                           // the caller of Start takes an error from the channel

  function TakeError(s: State): Option<State> {
    if s.Queued() > 0 then Some(s.(received := s.received + 1)) else None
  }

  function FailStartup(s: State): State { s.(starter := LaunchingCloser(false, false)) }

  function SetEntry(s: State, i: nat, e: Entry): State
    requires i < |s.entries|
  {
    s.(entries := s.entries[i := e])
  }

  /** What the starting goroutine does to the entry it works on. */
  function StarterEntry(starter: Starter, e: Entry): Entry {
    if starter.AtEntry? then e.(health := Starting)
    else if starter.Spawning? then e.(worker := Running)
    else if starter.Marking? && e.health.Starting? then e.(health := Healthy, marks := e.marks + 1)
    else if starter.SpawningBeat? then e.(beat := Waiting)
    else if starter.FailingEntry? then e.(health := Failed)
    else e
  }

  /** One step of the goroutine running Start. */
  function DoStarter(s: State, o: Outcome): Option<State>
    requires Shape(s)
  {
    match s.starter
    case NotCalled => None
    case Allocating =>
      if s.entries != [] then Some(s.(starter := AtEntry(0)))
      else if s.done.Open? then Some(s.(starter := Returned(true), done := Closed, closes := s.closes + 1))
      else None
    case AtEntry(k) =>
      if k == |s.entries| then Some(s.(starter := LaunchingCloser(true, false)))
      else Some(SetEntry(s, k, StarterEntry(s.starter, s.entries[k])).(starter := Spawning(k)))
    case Spawning(k) =>
      Some(SetEntry(s, k, StarterEntry(s.starter, s.entries[k]))
           .(starter := AwaitingReady(k), workerGroup := s.workerGroup + 1, launched := k + 1))
    case AwaitingReady(k) => DoAwait(s, k, o)
    case Marking(k) =>
      Some(SetEntry(s, k, StarterEntry(s.starter, s.entries[k]))
           .(starter := if s.entries[k].health.Starting? then AskingReporter(k) else LaunchingCloser(false, true)))
    case AskingReporter(k) => Some(s.(starter := if o.Proceed? then ReadingHealth(k) else AtEntry(k + 1)))
    case ReadingHealth(k) => Some(s.(starter := Reporting(k, s.entries[k].health.Healthy?)))
    case Reporting(k, healthy) =>
      Some(s.(starter := if healthy && o.Proceed? then SpawningBeat(k) else FailingEntry(k)))
    case SpawningBeat(k) =>
      Some(SetEntry(s, k, StarterEntry(s.starter, s.entries[k]))
           .(starter := AtEntry(k + 1), beatGroup := s.beatGroup + 1))
    case FailingEntry(k) =>
      Some(SetEntry(s, k, StarterEntry(s.starter, s.entries[k])).(starter := LaunchingCloser(false, false)))
    case LaunchingCloser(ok, drain) =>
      Some(s.(starter := if drain then Draining else Returned(ok), closer := AwaitingWorkers))
    case Draining =>
      (match TakeError(s)
       case Some(t) => Some(t.(starter := Returned(false)))
       case None => Some(s.(starter := Returned(false))))
    case Returned(_) => None
  }

  /** The select that waits until entry k is ready. */
  function DoAwait(s: State, k: nat, o: Outcome): Option<State> {
    match o
    case Proceed => Some(s.(starter := Marking(k)))
    case ErrorArrived => (match TakeError(s) case Some(t) => Some(FailStartup(t)) case None => None)
    case ContextDone => if s.cancelled then Some(FailStartup(s)) else None
    case TimedOut => Some(FailStartup(s))
    case Refused => None
  }

  /** What one step of its worker goroutine does to an entry. */
  function NextWorker(e: Entry, cancelled: bool): Entry {
    match e.worker
    case Running => e.(worker := RunReturned)
    case RunReturned => e.(worker := if cancelled then Deferred else MarkingFailed)
    case MarkingFailed => e.(worker := Sending, health := Failed)
    case Sending => e.(worker := Deferred)
    case Deferred => e.(worker := if cancelled then MarkingStopped else Leaving)
    case MarkingStopped => e.(worker := Leaving, health := Stopped)
    case Leaving => e.(worker := Exited)
    case Unlaunched => e
    case Exited => e
  }

  /** One step of worker i. A send waits for room in the channel; leaving a wait group at zero would panic. */
  function DoWorker(s: State, i: nat): Option<State>
    requires i < |s.entries|
  {
    var e := s.entries[i];
    var t := SetEntry(s, i, NextWorker(e, s.cancelled));
    if !e.worker.Live() then None
    else if e.worker.Sending? then
      if s.Queued() < s.Capacity() then Some(t.(emitted := s.emitted + [FromWorker(i)])) else None
    else if e.worker.Leaving? then
      if s.workerGroup > 0 then Some(t.(workerGroup := s.workerGroup - 1)) else None
    else Some(t)
  }

  /** What one step of its heartbeat goroutine does to an entry; choice resolves its selects and the
      reporter's answer. */
  function NextBeat(e: Entry, cancelled: bool, room: bool, choice: bool): Entry {
    match e.beat
    case Waiting => e.(beat := if choice then Observing else if cancelled then LeavingBeat else Waiting)
    case Observing => e.(beat := BeatReporting(e.health.Healthy?))
    case BeatReporting(healthy) => e.(beat := if healthy && choice then FailingBeat else Waiting)
    case FailingBeat => e.(beat := SendingBeat, health := Failed)
    case SendingBeat => e.(beat := if room then LeavingBeat else BlockedBeat)
    case BlockedBeat => e.(beat := if room || cancelled then LeavingBeat else BlockedBeat)
    case LeavingBeat => e.(beat := Gone)
    case Unspawned => e
    case Gone => e
  }

  /** One step of the heartbeat goroutine of worker i: a send is tried at once, then awaited until the context
      ends. */
  function DoBeat(s: State, i: nat, choice: bool): Option<State>
    requires i < |s.entries|
  {
    var e, room := s.entries[i], s.Queued() < s.Capacity();
    var t := SetEntry(s, i, NextBeat(e, s.cancelled, room, choice));
    if t == s then None
    else if e.beat.SendingBeat? || e.beat.BlockedBeat? then
      Some(if room then t.(emitted := s.emitted + [FromBeat(i)]) else t)
    else if e.beat.LeavingBeat? then
      if s.beatGroup > 0 then Some(t.(beatGroup := s.beatGroup - 1)) else None
    else Some(t)
  }

  function DoCloser(s: State): Option<State> {
    match s.closer
    case NoCloser => None
    case AwaitingWorkers => if s.workerGroup == 0 then Some(s.(closer := AwaitingBeats)) else None
    case AwaitingBeats => if s.beatGroup == 0 then Some(s.(closer := ClosingDone)) else None
    case ClosingDone =>
      if s.done.Open? then Some(s.(closer := Finished, done := Closed, closes := s.closes + 1)) else None
    case Finished => None
  }

  /** One atomic step; None when it is not enabled. Every further call of Start only returns an error. */
  function Do(s: State, a: Action): Option<State>
    requires Shape(s)
  {
    match a
    case StartCall => if s.starter.NotCalled? then Some(s.(starter := Allocating, done := Open)) else Some(s)
    case StarterStep(o) => DoStarter(s, o)
    case WorkerStep(i) => if i < |s.entries| then DoWorker(s, i) else None
    case BeatStep(i, choice) => if i < |s.entries| then DoBeat(s, i, choice) else None
    case CloserStep => DoCloser(s)
    case Cancel => Some(s.(cancelled := true))
    case Receive => if s.starter == Returned(true) then TakeError(s) else None
  }

  // ---------------------------------------------------------------- the invariant

  ghost predicate Shape(s: State) {
    && s.launched <= |s.entries|
    && (s.starter.NotCalled? || s.starter.Allocating? ==> s.launched == 0)
    && (s.starter.AtEntry? ==> s.starter.k == s.launched)
    && (s.starter.Spawning? ==> s.starter.k == s.launched < |s.entries|)
    && (s.starter.BeforeMark() || s.starter.AfterMark() ==> s.launched == s.starter.k + 1)
    && (s.starter == Returned(true) || (s.starter.LaunchingCloser? && s.starter.ok) ==> s.launched == |s.entries|)
  }

  /** Entry i was launched, marked and given a heartbeat in the order the loop prescribes. */
  ghost predicate EntryOk(e: Entry, i: nat, launched: nat, starter: Starter, cancelled: bool) {
    && (e.worker != Unlaunched <==> i < launched)
    && e.marks <= 1
    && (i >= launched ==> e.marks == 0 && e.health == if starter == Spawning(i) then Starting else Created)
    && (i + 1 < launched ==> e.marks == 1)
    && (i + 1 == launched && starter.BeforeMark() ==> e.marks == 0)
    && (i + 1 == launched && starter.AllMarked() ==> e.marks == 1)
    && (e.beat != Unspawned ==> e.marks == 1)
    && (i + 1 == launched && starter.AfterMark() ==> e.beat == Unspawned)
    && (i < launched && e.marks == 0 ==> e.health == Starting || e.health.Terminal())
    && (i < launched && e.marks == 1 ==> e.health == Healthy || e.health.Terminal())
    && (e.worker.Settled() ==> e.health.Terminal())
    && (e.worker == Deferred ==> cancelled || e.health.Terminal())
    && e.beat != BlockedBeat
  }

  ghost predicate EntriesOk(s: State) {
    forall i :: 0 <= i < |s.entries| ==> EntryOk(s.entries[i], i, s.launched, s.starter, s.cancelled)
  }

  /** A sender has passed its only send on its way out. */
  ghost predicate HasSent(s: State, o: Origin) {
    && o.i < |s.entries|
    && (o.FromWorker? ==> s.entries[o.i].worker.PastSend())
    && (o.FromBeat? ==> s.entries[o.i].beat.PastSend())
  }

  ghost predicate ErrorsOk(s: State) {
    && s.received <= |s.emitted|
    && Distinct(s.emitted)
    && forall o {:trigger HasSent(s, o)} :: o in s.emitted ==> HasSent(s, o)
  }

  function LiveWorkers(es: seq<Entry>): nat {
    if es == [] then 0 else (if es[0].worker.Live() then 1 else 0) + LiveWorkers(es[1..])
  }

  function LiveBeats(es: seq<Entry>): nat {
    if es == [] then 0 else (if es[0].beat.Live() then 1 else 0) + LiveBeats(es[1..])
  }

  ghost predicate GroupsOk(s: State) {
    s.workerGroup == LiveWorkers(s.entries) && s.beatGroup == LiveBeats(s.entries)
  }

  ghost predicate ClosingOk(s: State) {
    && (s.done == Absent <==> s.starter == NotCalled)
    && s.closes == (if s.done.Closed? then 1 else 0)
    && (s.done.Closed? <==> s.closer == Finished || (s.entries == [] && s.starter.Returned?))
    && (s.closer != NoCloser ==> s.starter.Draining? || s.starter.Returned?)
    && (s.closer == NoCloser ==> !s.starter.Draining? && (s.starter.Returned? ==> s.entries == []))
    && (s.entries == [] ==>
      s.closer == NoCloser && (s.starter.NotCalled? || s.starter.Allocating? || s.starter == Returned(true)))
    && (s.closer.AwaitingBeats? || s.closer.ClosingDone? || s.closer.Finished? ==> s.workerGroup == 0)
    && (s.closer.ClosingDone? || s.closer.Finished? ==> s.beatGroup == 0)
  }

  ghost predicate Inv(s: State) {
    Shape(s) && EntriesOk(s) && ErrorsOk(s) && GroupsOk(s) && ClosingOk(s)
  }

  // ---------------------------------------------------------------- every step keeps it

  lemma {:induction false} LiveUpdate(es: seq<Entry>, i: nat, e: Entry)
    requires i < |es|
    ensures LiveWorkers(es[i := e])
      == LiveWorkers(es) - (if es[i].worker.Live() then 1 else 0) + (if e.worker.Live() then 1 else 0)
    ensures LiveBeats(es[i := e])
      == LiveBeats(es) - (if es[i].beat.Live() then 1 else 0) + (if e.beat.Live() then 1 else 0)
    ensures es[i].worker.Live() ==> LiveWorkers(es) > 0
    ensures es[i].beat.Live() ==> LiveBeats(es) > 0
  {
    if i > 0 {
      assert es[i := e][1..] == es[1..][i - 1 := e];
      LiveUpdate(es[1..], i - 1, e);
    } else {
      assert es[i := e][1..] == es[1..];
    }
  }

  lemma {:induction false} FreshIsIdle(n: nat)
    ensures LiveWorkers(seq(n, _ => FRESH)) == 0 && LiveBeats(seq(n, _ => FRESH)) == 0
  {
    if n > 0 {
      FreshIsIdle(n - 1);
      assert seq(n, _ => FRESH)[1..] == seq(n - 1, _ => FRESH);
    }
  }

  /** n workers and n heartbeats can send at most 2n different errors. */
  lemma AtMostTwoEach(n: nat, emitted: seq<Origin>)
    requires Distinct(emitted) && forall o :: o in emitted ==> o.i < n
    ensures |emitted| <= 2 * n
  {
    OriginsUpTo(n);
    DistinctFits(emitted, Origins(n));
  }

  function Origins(n: nat): set<Origin> {
    if n == 0 then {} else Origins(n - 1) + {FromWorker(n - 1), FromBeat(n - 1)}
  }

  lemma {:induction false} OriginsUpTo(n: nat)
    ensures |Origins(n)| == 2 * n
    ensures forall o: Origin :: o in Origins(n) <==> o.i < n
  {
    if n > 0 {
      OriginsUpTo(n - 1);
      var w, b := FromWorker(n - 1), FromBeat(n - 1);
      assert w !in Origins(n - 1) && b !in Origins(n - 1);
      assert Origins(n) == (Origins(n - 1) + {w}) + {b};
      forall o: Origin
        ensures o in Origins(n) <==> o.i < n
      {
        assert o == FromWorker(o.i) || o == FromBeat(o.i);
        assert o in Origins(n) <==> o in Origins(n - 1) || o == w || o == b;
      }
    }
  }

  lemma SendHasRoom(s: State, o: Origin)
    requires ErrorsOk(s) && o.i < |s.entries| && o !in s.emitted
    ensures s.Queued() < s.Capacity()
  {
    forall o' | o' in s.emitted + [o] ensures o'.i < |s.entries| { if o' in s.emitted { assert HasSent(s, o'); } }
    AtMostTwoEach(|s.entries|, s.emitted + [o]);
  }

  lemma InitInv(n: nat)
    ensures Inv(Init(n))
  {
    FreshIsIdle(n);
  }

  lemma WorkerKeepsEntries(s: State, i: nat, t: State)
    requires EntriesOk(s) && i < |s.entries| && DoWorker(s, i) == Some(t)
    ensures EntriesOk(t)
  {
    forall j | 0 <= j < |t.entries|
      ensures EntryOk(t.entries[j], j, t.launched, t.starter, t.cancelled)
    {
      assert EntryOk(s.entries[j], j, s.launched, s.starter, s.cancelled);
    }
  }

  lemma WorkerKeepsErrors(s: State, i: nat, t: State)
    requires ErrorsOk(s) && i < |s.entries| && DoWorker(s, i) == Some(t)
    ensures ErrorsOk(t)
  {
    if s.entries[i].worker == Sending { assert !HasSent(s, FromWorker(i)); }
    forall o | o in t.emitted ensures HasSent(t, o) { if o in s.emitted { assert HasSent(s, o); } }
  }

  lemma WorkerKeepsCounts(s: State, i: nat, t: State)
    requires GroupsOk(s) && i < |s.entries| && DoWorker(s, i) == Some(t)
    ensures GroupsOk(t)
  {
    LiveUpdate(s.entries, i, t.entries[i]);
    assert t.entries == s.entries[i := t.entries[i]];
  }

  lemma WorkerKeepsInv(s: State, i: nat, t: State)
    requires Inv(s) && i < |s.entries| && DoWorker(s, i) == Some(t)
    ensures Inv(t)
  {
    WorkerKeepsEntries(s, i, t);
    WorkerKeepsErrors(s, i, t);
    WorkerKeepsCounts(s, i, t);
  }

  lemma BeatKeepsEntries(s: State, i: nat, choice: bool, t: State)
    requires EntriesOk(s) && ErrorsOk(s) && i < |s.entries| && DoBeat(s, i, choice) == Some(t)
    ensures EntriesOk(t)
  {
    if s.entries[i].beat == SendingBeat {
      assert !HasSent(s, FromBeat(i));
      SendHasRoom(s, FromBeat(i));
    }
    forall j | 0 <= j < |t.entries|
      ensures EntryOk(t.entries[j], j, t.launched, t.starter, t.cancelled)
    {
      assert EntryOk(s.entries[j], j, s.launched, s.starter, s.cancelled);
    }
  }

  lemma BeatKeepsErrors(s: State, i: nat, choice: bool, t: State)
    requires ErrorsOk(s) && i < |s.entries| && DoBeat(s, i, choice) == Some(t)
    ensures ErrorsOk(t)
  {
    if !s.entries[i].beat.PastSend() { assert !HasSent(s, FromBeat(i)); }
    forall o | o in t.emitted ensures HasSent(t, o) { if o in s.emitted { assert HasSent(s, o); } }
  }

  lemma BeatKeepsCounts(s: State, i: nat, choice: bool, t: State)
    requires GroupsOk(s) && i < |s.entries| && DoBeat(s, i, choice) == Some(t)
    ensures GroupsOk(t)
  {
    LiveUpdate(s.entries, i, t.entries[i]);
    assert t.entries == s.entries[i := t.entries[i]];
  }

  lemma BeatKeepsInv(s: State, i: nat, choice: bool, t: State)
    requires Inv(s) && i < |s.entries| && DoBeat(s, i, choice) == Some(t)
    ensures Inv(t)
  {
    BeatKeepsEntries(s, i, choice, t);
    BeatKeepsErrors(s, i, choice, t);
    BeatKeepsCounts(s, i, choice, t);
  }

  lemma LaunchKeepsEntry(s: State, o: Outcome, t: State, j: nat)
    requires Shape(s) && DoStarter(s, o) == Some(t) && j < |s.entries|
    requires s.starter.Allocating? || s.starter.AtEntry? || s.starter.Spawning?
    requires EntryOk(s.entries[j], j, s.launched, s.starter, s.cancelled)
    ensures |t.entries| == |s.entries| && EntryOk(t.entries[j], j, t.launched, t.starter, t.cancelled)
  {
  }

  lemma MarkKeepsEntry(s: State, o: Outcome, t: State, j: nat)
    requires Shape(s) && DoStarter(s, o) == Some(t) && j < |s.entries|
    requires s.starter.BeforeMark()
    requires EntryOk(s.entries[j], j, s.launched, s.starter, s.cancelled)
    ensures |t.entries| == |s.entries| && EntryOk(t.entries[j], j, t.launched, t.starter, t.cancelled)
  {
  }

  lemma FirstBeatKeepsEntry(s: State, o: Outcome, t: State, j: nat)
    requires Shape(s) && DoStarter(s, o) == Some(t) && j < |s.entries|
    requires s.starter.AfterMark()
    requires EntryOk(s.entries[j], j, s.launched, s.starter, s.cancelled)
    ensures |t.entries| == |s.entries| && EntryOk(t.entries[j], j, t.launched, t.starter, t.cancelled)
  {
  }

  lemma ReturnKeepsEntry(s: State, o: Outcome, t: State, j: nat)
    requires Shape(s) && DoStarter(s, o) == Some(t) && j < |s.entries|
    requires s.starter.LaunchingCloser? || s.starter.Draining?
    requires EntryOk(s.entries[j], j, s.launched, s.starter, s.cancelled)
    ensures |t.entries| == |s.entries| && EntryOk(t.entries[j], j, t.launched, t.starter, t.cancelled)
  {
  }

  lemma {:induction false} StarterKeepsEntry(s: State, o: Outcome, t: State, j: nat)
    requires Shape(s) && DoStarter(s, o) == Some(t) && j < |s.entries|
    requires EntryOk(s.entries[j], j, s.launched, s.starter, s.cancelled)
    ensures |t.entries| == |s.entries| && EntryOk(t.entries[j], j, t.launched, t.starter, t.cancelled)
  {
    if s.starter.BeforeMark() { MarkKeepsEntry(s, o, t, j); }
    else if s.starter.AfterMark() { FirstBeatKeepsEntry(s, o, t, j); }
    else if s.starter.LaunchingCloser? || s.starter.Draining? { ReturnKeepsEntry(s, o, t, j); }
    else { LaunchKeepsEntry(s, o, t, j); }
  }

  lemma StarterKeepsSize(s: State, o: Outcome, t: State)
    requires Shape(s) && DoStarter(s, o) == Some(t)
    ensures |t.entries| == |s.entries|
  {
  }

  lemma {:induction false} StarterKeepsEntries(s: State, o: Outcome, t: State)
    requires Shape(s) && EntriesOk(s) && DoStarter(s, o) == Some(t)
    ensures EntriesOk(t)
  {
    StarterKeepsSize(s, o, t);
    forall j | 0 <= j < |t.entries|
      ensures EntryOk(t.entries[j], j, t.launched, t.starter, t.cancelled)
    {
      StarterKeepsEntry(s, o, t, j);
    }
  }

  lemma StarterKeepsShape(s: State, o: Outcome, t: State)
    requires Shape(s) && DoStarter(s, o) == Some(t)
    ensures Shape(t)
  {
  }

  lemma StarterKeepsErrors(s: State, o: Outcome, t: State)
    requires Shape(s) && EntriesOk(s) && ErrorsOk(s) && DoStarter(s, o) == Some(t)
    ensures ErrorsOk(t)
  {
    forall o | o in t.emitted
      ensures HasSent(t, o)
    {
      assert HasSent(s, o) && EntryOk(s.entries[o.i], o.i, s.launched, s.starter, s.cancelled);
    }
  }

  lemma StarterKeepsGroups(s: State, o: Outcome, t: State)
    requires Shape(s) && EntriesOk(s) && GroupsOk(s) && DoStarter(s, o) == Some(t)
    ensures GroupsOk(t)
  {
    if s.starter.BeforeMark() || s.starter.AfterMark() || s.starter.Spawning?
      || (s.starter.AtEntry? && s.starter.k < |s.entries|) {
      var k := s.starter.k;
      assert EntryOk(s.entries[k], k, s.launched, s.starter, s.cancelled);
      LiveUpdate(s.entries, k, StarterEntry(s.starter, s.entries[k]));
      assert s.entries[k := s.entries[k]] == s.entries;
    }
  }

  lemma StarterKeepsClosing(s: State, o: Outcome, t: State)
    requires Shape(s) && ClosingOk(s) && DoStarter(s, o) == Some(t)
    ensures ClosingOk(t)
  {
  }

  lemma StarterKeepsInv(s: State, o: Outcome, t: State)
    requires Inv(s) && DoStarter(s, o) == Some(t)
    ensures Inv(t)
  {
    StarterKeepsShape(s, o, t);
    StarterKeepsEntries(s, o, t);
    StarterKeepsErrors(s, o, t);
    StarterKeepsGroups(s, o, t);
    StarterKeepsClosing(s, o, t);
  }

  lemma OtherKeepsInv(s: State, a: Action, t: State)
    requires Inv(s) && (a.StartCall? || a.CloserStep? || a.Cancel? || a.Receive?) && Do(s, a) == Some(t)
    ensures Inv(t)
  {
    forall j | 0 <= j < |t.entries|
      ensures EntryOk(t.entries[j], j, t.launched, t.starter, t.cancelled)
    {
      assert EntryOk(s.entries[j], j, s.launched, s.starter, s.cancelled);
    }
    forall o | o in t.emitted ensures HasSent(t, o) { assert HasSent(s, o); }
  }

  lemma StepKeepsInv(s: State, a: Action, t: State)
    requires Inv(s) && Do(s, a) == Some(t)
    ensures Inv(t)
  {
    match a
    case StarterStep(o) => StarterKeepsInv(s, o, t);
    case WorkerStep(i) => WorkerKeepsInv(s, i, t);
    case BeatStep(i, choice) => BeatKeepsInv(s, i, choice, t);
    case _ => OtherKeepsInv(s, a, t);
  }

  // ---------------------------------------------------------------- what holds in every run

  /** One step of some goroutine. Shape holds in every reachable state, so it excludes nothing. */
  ghost predicate Steps(s: State, t: State) {
    Shape(s) && exists a :: Do(s, a) == Some(t)
  }

  lemma {:induction false} StepsKeepInv()
    ensures Preserved(Steps, Inv)
  {
    forall s, t | Inv(s) && Steps(s, t)
      ensures Inv(t)
    {
      var a :| Do(s, a) == Some(t);
      StepKeepsInv(s, a, t);
    }
  }

  lemma {:induction false} RunKeepsInv(n: nat, trace: seq<State>, i: nat)
    requires IsRun(trace, Init(n), Steps) && i < |trace|
    ensures Inv(trace[i]) && |trace[i].entries| == n
  {
    InitInv(n);
    StepsKeepInv();
    Invariant(trace, Init(n), Steps, Inv, i);
    SizeIsFixed(n, trace, i);
  }

  lemma StepKeepsSize(s: State, a: Action, t: State)
    requires Shape(s) && Do(s, a) == Some(t)
    ensures |t.entries| == |s.entries|
  {
    if a.StarterStep? { StarterKeepsSize(s, a.outcome, t); }
  }

  lemma {:induction false} SizeIsFixed(n: nat, trace: seq<State>, i: nat)
    requires IsRun(trace, Init(n), Steps) && i < |trace|
    ensures |trace[i].entries| == n
  {
    var sized := (s: State) => |s.entries| == n;
    forall s, t | sized(s) && Steps(s, t)
      ensures sized(t)
    {
      var a :| Do(s, a) == Some(t);
      StepKeepsSize(s, a, t);
    }
    Invariant(trace, Init(n), Steps, sized, i);
  }

  /** Every send finds room: at most 2n errors are ever sent, each by a different origin. */
  lemma {:induction false} SendsNeverBlock(n: nat, trace: seq<State>, i: nat, k: nat)
    requires IsRun(trace, Init(n), Steps) && i < |trace| && k < n
    ensures |trace[i].emitted| <= trace[i].Capacity() == 2 * n && Distinct(trace[i].emitted)
    ensures |trace[i].entries| == n && trace[i].entries[k].beat != BlockedBeat
    ensures trace[i].entries[k].worker == Sending ==> DoWorker(trace[i], k).Some?
    ensures trace[i].entries[k].beat == SendingBeat ==> trace[i].Queued() < trace[i].Capacity()
  {
    RunKeepsInv(n, trace, i);
    var s := trace[i];
    assert EntryOk(s.entries[k], k, s.launched, s.starter, s.cancelled);
    forall o | o in s.emitted ensures o.i < n { assert HasSent(s, o); }
    AtMostTwoEach(n, s.emitted);
    if s.entries[k].worker == Sending {
      assert !HasSent(s, FromWorker(k));
      SendHasRoom(s, FromWorker(k));
    }
    if s.entries[k].beat == SendingBeat {
      assert !HasSent(s, FromBeat(k));
      SendHasRoom(s, FromBeat(k));
    }
  }

  /** The order in which health can change. */
  function Rank(h: Health): nat {
    match h
    case Created => 0
    case Starting => 1
    case Healthy => 2
    case Stale => 2
    case Failed => 3
    case Stopped => 3
  }

  /** From health h and mark count m an entry may move on to h' and m'. */
  predicate Advances(e: Entry, e': Entry) {
    && Rank(e.health) <= Rank(e'.health)
    && e'.marks == e.marks + (if e'.health == Healthy != e.health then 1 else 0)
    && (e'.health == Healthy != e.health ==> e.health == Starting)
  }

  lemma StarterAdvances(s: State, o: Outcome, t: State, k: nat)
    requires Shape(s) && EntriesOk(s) && DoStarter(s, o) == Some(t) && k < |s.entries|
    ensures |t.entries| == |s.entries| && Advances(s.entries[k], t.entries[k])
  {
    assert EntryOk(s.entries[k], k, s.launched, s.starter, s.cancelled);
  }

  lemma WorkerAdvances(s: State, i: nat, t: State, k: nat)
    requires EntriesOk(s) && i < |s.entries| && DoWorker(s, i) == Some(t) && k < |s.entries|
    ensures |t.entries| == |s.entries| && Advances(s.entries[k], t.entries[k])
  {
    assert EntryOk(s.entries[k], k, s.launched, s.starter, s.cancelled);
  }

  lemma BeatAdvances(s: State, i: nat, choice: bool, t: State, k: nat)
    requires EntriesOk(s) && i < |s.entries| && DoBeat(s, i, choice) == Some(t) && k < |s.entries|
    ensures |t.entries| == |s.entries| && Advances(s.entries[k], t.entries[k])
  {
    assert EntryOk(s.entries[k], k, s.launched, s.starter, s.cancelled);
  }

  lemma {:induction false} StepAdvances(s: State, a: Action, t: State, k: nat)
    requires Inv(s) && Do(s, a) == Some(t) && k < |s.entries|
    ensures |t.entries| == |s.entries| && Advances(s.entries[k], t.entries[k])
  {
    match a
    case StarterStep(o) => StarterAdvances(s, o, t, k);
    case WorkerStep(i) => WorkerAdvances(s, i, t, k);
    case BeatStep(i, choice) => BeatAdvances(s, i, choice, t, k);
    case _ =>
  }

  /** Health never moves back: created, starting, healthy, then failed or stopped for good. So a worker is
      healthy during one stretch of a run at most, entered from starting. */
  lemma {:induction false} HealthNeverMovesBack(n: nat, trace: seq<State>, i: nat, j: nat, k: nat)
    requires IsRun(trace, Init(n), Steps) && i <= j < |trace| && k < n
    ensures |trace[i].entries| == |trace[j].entries| == n
    ensures Rank(trace[i].entries[k].health) <= Rank(trace[j].entries[k].health)
    ensures trace[i].entries[k].marks <= trace[j].entries[k].marks <= 1
    ensures trace[i].entries[k].health != Created ==> trace[j].entries[k].health != Created
    ensures trace[i].entries[k].health == Healthy ==> trace[j].entries[k].health !in {Created, Starting}
    ensures trace[i].entries[k].health in {Failed, Stopped} ==> trace[j].entries[k].health in {Failed, Stopped}
  {
    var later := (s: State, t: State) =>
      k < |s.entries| ==>
        k < |t.entries| && Rank(s.entries[k].health) <= Rank(t.entries[k].health)
          && s.entries[k].marks <= t.entries[k].marks;
    forall s, t | Inv(s) && Steps(s, t)
      ensures later(s, t)
    {
      var a :| Do(s, a) == Some(t);
      if k < |s.entries| { StepAdvances(s, a, t, k); }
    }
    InitInv(n);
    StepsKeepInv();
    Monotone(trace, Init(n), Steps, Inv, later, i, j);
    RunKeepsInv(n, trace, i);
    RunKeepsInv(n, trace, j);
    assert EntryOk(trace[j].entries[k], k, trace[j].launched, trace[j].starter, trace[j].cancelled);
  }

  /** A worker is launched only after its predecessor was marked healthy, and a successful Start has marked
      every worker exactly once. */
  lemma {:induction false} LaunchOrder(n: nat, trace: seq<State>, i: nat, k: nat)
    requires IsRun(trace, Init(n), Steps) && i < |trace| && k < n
    ensures |trace[i].entries| == n
    ensures k + 1 < n && trace[i].entries[k + 1].worker != Unlaunched ==> trace[i].entries[k].marks == 1
    ensures trace[i].entries[k].beat != Unspawned ==> trace[i].entries[k].marks == 1
    ensures trace[i].starter == Returned(true) ==> trace[i].entries[k].marks == 1
  {
    RunKeepsInv(n, trace, i);
    var s := trace[i];
    assert EntryOk(s.entries[k], k, s.launched, s.starter, s.cancelled);
    if k + 1 < n { assert EntryOk(s.entries[k + 1], k + 1, s.launched, s.starter, s.cancelled); }
  }

  /** done is closed at most once, never twice, and only when every launched goroutine has exited and every
      launched worker is recorded as failed or stopped. */
  lemma {:induction false} ClosedMeansQuiet(n: nat, trace: seq<State>, i: nat, k: nat)
    requires IsRun(trace, Init(n), Steps) && i < |trace| && k < n
    ensures trace[i].closes <= 1 && |trace[i].entries| == n
    ensures trace[i].done == Closed ==>
      && trace[i].closes == 1 && (trace[i].starter.Returned? || trace[i].starter.Draining?)
      && !trace[i].entries[k].worker.Live() && !trace[i].entries[k].beat.Live()
      && (if k < trace[i].launched then trace[i].entries[k].health.Terminal() else trace[i].entries[k] == FRESH)
  {
    RunKeepsInv(n, trace, i);
    var s := trace[i];
    assert EntryOk(s.entries[k], k, s.launched, s.starter, s.cancelled);
    LiveUpdate(s.entries, k, s.entries[k]);
  }

  /** Neither the wait groups nor the closing of done can panic: a goroutine leaves its wait group only while it is
      counted, and done is open when it is closed. */
  lemma {:induction false} NothingPanics(n: nat, trace: seq<State>, i: nat, k: nat)
    requires IsRun(trace, Init(n), Steps) && i < |trace| && k < n
    ensures |trace[i].entries| == n
    ensures trace[i].entries[k].worker == Leaving ==> trace[i].workerGroup > 0
    ensures trace[i].entries[k].beat == LeavingBeat ==> trace[i].beatGroup > 0
    ensures trace[i].closer == ClosingDone ==> trace[i].done == Open
  {
    RunKeepsInv(n, trace, i);
    LiveUpdate(trace[i].entries, k, trace[i].entries[k]);
  }

  // ---------------------------------------------------------------- shutdown is always possible

  function WorkerDistance(w: Worker): nat {
    match w
    case Unlaunched => 0
    case Running => 8
    case RunReturned => 7
    case MarkingFailed => 6
    case Sending => 5
    case Deferred => 4
    case MarkingStopped => 3
    case Leaving => 2
    case Exited => 0
  }

  function BeatDistance(b: Beat): nat {
    match b
    case Unspawned => 0
    case Observing => 6
    case BeatReporting(_) => 5
    case Waiting => 4
    case FailingBeat => 4
    case SendingBeat => 3
    case BlockedBeat => 2
    case LeavingBeat => 1
    case Gone => 0
  }

  function CloserDistance(c: Closer): nat {
    match c
    case NoCloser => 4
    case AwaitingWorkers => 3
    case AwaitingBeats => 2
    case ClosingDone => 1
    case Finished => 0
  }

  function Distance(es: seq<Entry>): nat {
    if es == [] then 0 else WorkerDistance(es[0].worker) + BeatDistance(es[0].beat) + Distance(es[1..])
  }

  lemma {:induction false} DistanceUpdate(es: seq<Entry>, i: nat, e: Entry)
    requires i < |es|
    ensures Distance(es[i := e]) == Distance(es) - WorkerDistance(es[i].worker) - BeatDistance(es[i].beat)
                                    + WorkerDistance(e.worker) + BeatDistance(e.beat)
  {
    if i > 0 {
      assert es[i := e][1..] == es[1..][i - 1 := e];
      DistanceUpdate(es[1..], i - 1, e);
    } else {
      assert es[i := e][1..] == es[1..];
    }
  }

  lemma {:induction false} SomeoneLives(es: seq<Entry>) returns (k: nat)
    requires LiveWorkers(es) > 0 || LiveBeats(es) > 0
    ensures k < |es| && (es[k].worker.Live() || es[k].beat.Live())
  {
    if es[0].worker.Live() || es[0].beat.Live() {
      k := 0;
    } else {
      var m := SomeoneLives(es[1..]);
      k := m + 1;
    }
  }

  function Remaining(s: State): nat { Distance(s.entries) + CloserDistance(s.closer) }

  lemma WorkerShutdownStep(s: State, k: nat)
    requires Inv(s) && s.cancelled && k < |s.entries| && s.entries[k].worker.Live()
    ensures DoWorker(s, k).Some? && Remaining(DoWorker(s, k).value) < Remaining(s)
    ensures DoWorker(s, k).value.cancelled && DoWorker(s, k).value.closer == s.closer
  {
    LiveUpdate(s.entries, k, s.entries[k]);
    if s.entries[k].worker == Sending {
      assert !HasSent(s, FromWorker(k));
      SendHasRoom(s, FromWorker(k));
    }
    DistanceUpdate(s.entries, k, NextWorker(s.entries[k], true));
  }

  lemma BeatShutdownStep(s: State, k: nat)
    requires Inv(s) && s.cancelled && k < |s.entries| && s.entries[k].beat.Live()
    ensures DoBeat(s, k, false).Some? && Remaining(DoBeat(s, k, false).value) < Remaining(s)
    ensures DoBeat(s, k, false).value.cancelled && DoBeat(s, k, false).value.closer == s.closer
  {
    LiveUpdate(s.entries, k, s.entries[k]);
    var e' := NextBeat(s.entries[k], true, s.Queued() < s.Capacity(), false);
    assert EntryOk(s.entries[k], k, s.launched, s.starter, s.cancelled);
    assert s.entries[k := e'][k] == e' != s.entries[k];
    DistanceUpdate(s.entries, k, e');
  }

  /** Once the context is cancelled some goroutine can always move closer to its exit. */
  lemma ShutdownStep(s: State) returns (a: Action)
    requires Inv(s) && s.cancelled && s.closer != NoCloser && s.closer != Finished
    ensures Do(s, a).Some? && Remaining(Do(s, a).value) < Remaining(s)
    ensures Do(s, a).value.cancelled && Do(s, a).value.closer != NoCloser
  {
    a := CloserStep;
    if s.workerGroup > 0 || s.beatGroup > 0 {
      var k := SomeoneLives(s.entries);
      if s.entries[k].worker.Live() {
        WorkerShutdownStep(s, k);
        a := WorkerStep(k);
      } else {
        BeatShutdownStep(s, k);
        a := BeatStep(k, false);
      }
    }
  }

  /** How far Start still has to go before it has launched the closer or closed done itself, once the context is
      cancelled. */
  function StarterDistance(s: State): nat {
    if s.closer != NoCloser || s.done.Closed? then 0
    else
      match s.starter
      case Marking(_) => 11
      case AskingReporter(_) => 10
      case ReadingHealth(_) => 9
      case Reporting(_, _) => 8
      case SpawningBeat(_) => 7
      case FailingEntry(_) => 6
      case Allocating => 6
      case AtEntry(_) => 5
      case Spawning(_) => 4
      case AwaitingReady(_) => 3
      case LaunchingCloser(_, _) => 2
      case _ => 1
  }

  /** Inside Start the cancelled context always opens a way on: out of the wait for readiness, and from there to
      the closer. */
  lemma StartShutdownStep(s: State) returns (a: Action)
    requires Inv(s) && s.cancelled && s.starter != NotCalled && s.closer == NoCloser && !s.done.Closed?
    ensures Do(s, a).Some? && StarterDistance(Do(s, a).value) < StarterDistance(s)
    ensures Do(s, a).value.cancelled && Do(s, a).value.starter != NotCalled
  {
    a := StarterStep(if s.starter.AwaitingReady? then ContextDone else Proceed);
  }

  lemma CloserKeepsGoing(s: State, a: Action)
    requires Inv(s) && s.closer != NoCloser && (a.CloserStep? || a.WorkerStep? || a.BeatStep?) && Do(s, a).Some?
    ensures Do(s, a).value.closer != NoCloser && Do(s, a).value.starter == s.starter
  {
  }

  /** From every state of a called Start, cancelling the context leaves a way to the closed done channel: neither
      Start nor a worker nor a heartbeat nor the closer can be stuck. */
  lemma {:induction false} CanShutDown(s: State) returns (rest: seq<State>)
    requires Inv(s) && s.cancelled && s.starter != NotCalled
    ensures IsRun(rest, s, Steps) && Inv(rest[|rest| - 1])
    ensures rest[|rest| - 1].done == Closed && rest[|rest| - 1].closes == 1
    decreases StarterDistance(s), Remaining(s)
  {
    if s.done.Closed? {
      rest := [s];
    } else {
      var a;
      if s.closer == NoCloser {
        a := StartShutdownStep(s);
      } else {
        a := ShutdownStep(s);
        CloserKeepsGoing(s, a);
      }
      var t := Do(s, a).value;
      StepKeepsInv(s, a, t);
      var more := CanShutDown(t);
      rest := [s] + more;
      forall i: nat | i < |rest| - 1
        ensures StepAt(rest, i, Steps)
      {
        if i > 0 { assert StepAt(more, i - 1, Steps); }
      }
    }
  }

  /** Every run in which Start has been called can be continued to one that ends with done closed, once: the
      supervisor without entries, a failing Start and a Start in mid-launch included. */
  lemma {:induction false} EveryRunCanShutDown(n: nat, trace: seq<State>) returns (rest: seq<State>)
    requires IsRun(trace, Init(n), Steps) && trace[|trace| - 1].starter != NotCalled
    ensures IsRun(trace + rest, Init(n), Steps)
    ensures (trace + rest)[|trace + rest| - 1].closes == 1 && (trace + rest)[|trace + rest| - 1].done == Closed
  {
    var s := trace[|trace| - 1];
    RunKeepsInv(n, trace, |trace| - 1);
    var c := s.(cancelled := true);
    assert Do(s, Cancel) == Some(c);
    StepKeepsInv(s, Cancel, c);
    rest := CanShutDown(c);
    var whole := trace + rest;
    forall i: nat | i < |whole| - 1
      ensures StepAt(whole, i, Steps)
    {
      if i < |trace| - 1 { assert StepAt(trace, i, Steps); }
      if i >= |trace| { assert StepAt(rest, i - |trace|, Steps); }
    }
  }

  /** Whenever Start has returned, on whichever path, the closer is on its way, or there was nothing to close and
      done is closed already. */
  lemma {:induction false} ReturnedMeansClosing(n: nat, trace: seq<State>, i: nat)
    requires IsRun(trace, Init(n), Steps) && i < |trace|
    ensures trace[i].starter.Returned? ==>
      trace[i].closer != NoCloser || (n == 0 && trace[i].done == Closed && trace[i].closes == 1)
    ensures trace[i].done != Absent <==> trace[i].starter != NotCalled
    ensures trace[i].closer == Finished ==> trace[i].done == Closed && trace[i].closes == 1
  {
    RunKeepsInv(n, trace, i);
  }

  // ---------------------------------------------------------------- the guarded fields

  /** How Wait ends, if it does. */
  datatype WaitEnd = Ended | Interrupted | Blocked

  /** When Wait reports the end, because Start was not called or done is closed, no goroutine of a worker or of a
      heartbeat is left. */
  lemma {:induction false} WaitMeansQuiet(n: nat, trace: seq<State>, i: nat, k: nat)
    requires IsRun(trace, Init(n), Steps) && i < |trace| && k < n
    requires trace[i].starter.NotCalled? || trace[i].done.Closed?
    ensures |trace[i].entries| == n && !trace[i].entries[k].worker.Live() && !trace[i].entries[k].beat.Live()
  {
    ClosedMeansQuiet(n, trace, i, k);
    RunKeepsInv(n, trace, i);
    assert EntryOk(trace[i].entries[k], k, trace[i].launched, trace[i].starter, trace[i].cancelled);
  }

  datatype WorkerConfig = WorkerConfig(name: string, hasWorker: bool)

  /** The fields that the supervisor's mutex guards. Each method is one critical section. */
  class RuntimeWorkers {
    const names: seq<string>
    var started: bool
    var done: Done
    var states: map<string, Health>

    ghost predicate Valid()
      reads this
    {
      Distinct(names) && forall name :: name in states <==> name in names
    }

    /** The recorded states are those of the protocol state s. */
    ghost predicate Records(s: State)
      reads this
    {
      && |s.entries| == |names| && done == s.done && (started <==> s.starter != NotCalled)
      && forall i :: 0 <= i < |names| ==> names[i] in states && states[names[i]] == s.entries[i].health
    }

    constructor (names: seq<string>)
      requires Distinct(names)
      ensures this.names == names && Valid() && !started && done == Absent && Records(Init(|names|))
    {
      this.names := names;
      started, done := false, Absent;
      states := map name | name in names :: Created;
    }

    static method New(configs: seq<WorkerConfig>) returns (r: Option<RuntimeWorkers>)
      ensures r.Some? <==>
        && (forall c :: c in configs ==> c.name != "" && c.hasWorker)
        && (forall i, j :: 0 <= i < j < |configs| ==> configs[i].name != configs[j].name)
      ensures r.Some? ==> fresh(r.value) && r.value.Valid() && r.value.Records(Init(|configs|))
    {
      var clean: seq<string> := [];
      for i := 0 to |configs|
        invariant |clean| == i && forall k :: 0 <= k < i ==> clean[k] == configs[k].name
        invariant forall k :: 0 <= k < i ==> configs[k].name != "" && configs[k].hasWorker
        invariant Distinct(clean)
      {
        if configs[i].name == "" || !configs[i].hasWorker {
          return None;
        }
        if configs[i].name in clean {
          return None;
        }
        clean := clean + [configs[i].name];
      }
      var workers := new RuntimeWorkers(clean);
      return Some(workers);
    }

    /** The locked section of Start: only the first call gets through. */
    method Begin() returns (first: bool)
      modifies `started, `done
      ensures first == !old(started) && started
      ensures done == if first then Open else old(done)
      ensures forall s :: old(Records(s)) && Shape(s) ==> Do(s, StartCall).Some? && Records(Do(s, StartCall).value)
    {
      if started {
        return false;
      }
      started, done := true, Open;
      first := true;
    }

    method SetState(name: string, h: Health)
      requires Valid()
      modifies `states
      ensures Valid()
      ensures states == if name in old(states) then old(states)[name := h] else old(states)
      ensures forall s, i :: old(Records(s)) && 0 <= i < |names| && names[i] == name ==>
                               Records(SetEntry(s, i, s.entries[i].(health := h)))
    {
      if name in states {
        states := states[name := h];
      }
    }

    method MarkHealthy(name: string) returns (marked: bool)
      requires Valid()
      modifies `states
      ensures Valid()
      ensures marked <==> name in old(states) && old(states)[name] == Starting
      ensures states == if marked then old(states)[name := Healthy] else old(states)
      ensures forall s, i :: old(Records(s)) && 0 <= i < |names| && names[i] == name ==>
                               Records(SetEntry(s, i, StarterEntry(Marking(i), s.entries[i])))
    {
      if name !in states || states[name] != Starting {
        return false;
      }
      states := states[name := Healthy];
      marked := true;
    }

    /** Reports stale for a worker recorded as healthy whose readiness probe fails, and failed for a name that
        is not supervised. */
    method WorkerHealth(name: string, ready: bool) returns (h: Health)
      ensures h == Healthy <==> name in states && states[name] == Healthy && ready
      ensures h == Stale <==> name in states && (states[name] == Stale || (states[name] == Healthy && !ready))
      ensures name !in states ==> h == Failed
      ensures name in states && h != states[name] ==> h == Stale
    {
      if name !in states {
        return Failed;
      }
      h := states[name];
      if h == Healthy && !ready {
        h := Stale;
      }
    }

    /** The select of Wait. interrupted tells whether the context is done; where both channels are ready, pick
        decides. */
    method Wait(interrupted: bool, pick: bool) returns (r: WaitEnd)
      requires started <==> done != Absent
      ensures r == Blocked <==> done == Open && !interrupted
      ensures r == Interrupted ==> interrupted && done != Absent
      ensures r == Ended ==> done != Open
      ensures r == Ended && done == Closed ==> pick || !interrupted
      ensures forall s :: Records(s) && r == Ended ==> s.starter.NotCalled? || s.done.Closed?
    {
      if !started || done == Absent {
        return Ended;
      }
      if done == Closed && (pick || !interrupted) {
        return Ended;
      }
      r := if interrupted then Interrupted else Blocked;
    }
  }
}
