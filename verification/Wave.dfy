/** Execution waves: the ready window, the shared start, pauses, and replacement by a fresh wave. */
module Waves {
  import opened Foundation
  import opened Runs

  datatype Member = Member(participant: Id, ready: bool)

  datatype WindowState = Open | Consumed | Expired | Withdrawn | UnknownWindowState

  datatype Window = Window(
    id: Id, waveId: Id, revision: Id, state: WindowState, openedAt: Time, deadline: Time, consumedAt: Option<Time>)
  {
    predicate Valid() {
      && id != 0 && waveId != 0 && revision != 0
      && !state.UnknownWindowState?
      && !openedAt.IsZero() && deadline.After(openedAt)
      && (if state.Consumed? then consumedAt.Some? && Admits(consumedAt.value) else consumedAt.None?)
    }

    /** The instant lies inside the window, its ends included. */
    predicate Admits(at: Time) { !at.Before(openedAt) && !at.After(deadline) }
  }

  datatype WaveState =
    | Planned | ReadyWindowOpen | Ready | Active | Paused | Completed | ReadyWindowExpired | Superseded | UnknownState

  datatype WaveError =
    | InvalidWave | BadTransition | StaleWindow | DeadlinePassed | AlreadyStarted | MemberNotFound | ReplacementReuse

  datatype Wave = Wave(
    id: Id, tournament: Id, revision: Id, state: WaveState, members: seq<Member>,
    window: Option<Window>, startedAt: Option<Time>, pausedAt: Option<Time>)
  {
    predicate Valid() {
      && id != 0 && tournament != 0 && revision != 0
      && MembersValid(members)
      && (window.Some? ==> window.value.Valid() && window.value.waveId == id)
      && StateEvidence()
    }

    predicate HasWindow(s: WindowState) { window.Some? && window.value.state == s }

    predicate StateEvidence() {
      match state
      case Planned => window.None? && startedAt.None? && pausedAt.None? && NoneReady(members)
      case ReadyWindowOpen => HasWindow(Open) && startedAt.None? && pausedAt.None? && !AllReady(members)
      case Ready => HasWindow(Open) && startedAt.None? && pausedAt.None? && AllReady(members)
      case Active => HasWindow(Consumed) && startedAt.Some? && pausedAt.None? && AllReady(members)
      case Completed => HasWindow(Consumed) && startedAt.Some? && pausedAt.None? && AllReady(members)
      case Paused =>
        HasWindow(Consumed) && startedAt.Some? && pausedAt.Some? && !pausedAt.value.Before(startedAt.value)
          && AllReady(members)
      case ReadyWindowExpired => HasWindow(Expired) && startedAt.None? && pausedAt.None? && NoneReady(members)
      case Superseded => HasWindow(Withdrawn) && pausedAt.None? && NoneReady(members)
      case UnknownState => false
    }

    function Participants(): seq<Id> { seq(|members|, i requires 0 <= i < |members| => members[i].participant) }
  }

  predicate MembersValid(members: seq<Member>) {
    && |members| >= 2
    && (forall i :: 0 <= i < |members| ==> members[i].participant != 0)
    && (forall i, j :: 0 <= i < j < |members| ==> members[i].participant != members[j].participant)
  }

  predicate AllReady(members: seq<Member>) {
    |members| > 0 && forall i :: 0 <= i < |members| ==> members[i].ready
  }

  predicate NoneReady(members: seq<Member>) {
    forall i :: 0 <= i < |members| ==> !members[i].ready
  }

  function Cleared(members: seq<Member>): seq<Member> {
    seq(|members|, i requires 0 <= i < |members| => members[i].(ready := false))
  }

  // ---------------------------------------------------------------- what each command does to a wave

  function Opened(w: Wave, id: Id, revision: Id, openedAt: Time, deadline: Time): Result<Wave, WaveError> {
    var window := Window(id, w.id, revision, Open, openedAt, deadline, None);
    if w.state != Planned then Err(BadTransition)
    else if !w.Valid() || !window.Valid() then Err(InvalidWave)
    else Ok(w.(window := Some(window), state := ReadyWindowOpen))
  }

  /** The first member with the identity, or the number of members. */
  function Position(members: seq<Member>, participant: Id): nat {
    if members == [] || members[0].participant == participant then 0 else 1 + Position(members[1..], participant)
  }

  /** The flag tells whether the call changed anything. */
  function MarkedReady(w: Wave, windowId: Id, participant: Id, at: Time): Result<(bool, Wave), WaveError> {
    if w.state != ReadyWindowOpen && w.state != Ready then Err(BadTransition)
    else if !w.HasWindow(Open) || w.window.value.id != windowId then Err(StaleWindow)
    else if !w.window.value.Admits(at) then Err(DeadlinePassed)
    else
      var i := Position(w.members, participant);
      if i >= |w.members| then Err(MemberNotFound)
      else if w.members[i].ready then Ok((false, w))
      else
        var members := w.members[i := w.members[i].(ready := true)];
        Ok((true, w.(members := members, state := if AllReady(members) then Ready else w.state)))
  }

  function Started(w: Wave, windowId: Id, at: Time): Result<Wave, WaveError> {
    if w.startedAt.Some? then Err(AlreadyStarted)
    else if w.state != Ready || !w.HasWindow(Open) then Err(BadTransition)
    else if w.window.value.id != windowId then Err(StaleWindow)
    else if !w.window.value.Admits(at) then Err(DeadlinePassed)
    else Ok(w.(startedAt := Some(at), window := Some(w.window.value.(state := Consumed, consumedAt := Some(at))),
               state := Active))
  }

  function PausedAt(w: Wave, at: Time): Result<Wave, WaveError> {
    if w.state != Active || w.startedAt.None? || at.Before(w.startedAt.value) then Err(BadTransition)
    else Ok(w.(pausedAt := Some(at), state := Paused))
  }

  function Resumed(w: Wave): Result<Wave, WaveError> {
    if w.state != Paused then Err(BadTransition) else Ok(w.(pausedAt := None, state := Active))
  }

  function ExpiredAt(w: Wave, windowId: Id, at: Time): Result<Wave, WaveError> {
    if w.state != ReadyWindowOpen || !w.HasWindow(Open) then Err(BadTransition)
    else if w.window.value.id != windowId then Err(StaleWindow)
    else if !at.After(w.window.value.deadline) then Err(BadTransition)
    else Ok(w.(members := Cleared(w.members), window := Some(w.window.value.(state := Expired)),
               state := ReadyWindowExpired))
  }

  datatype Replacement = Replacement(
    id: Id, revision: Id, windowId: Id, windowRevision: Id, openedAt: Time, deadline: Time)

  predicate Reuses(w: Wave, r: Replacement)
    requires w.window.Some?
  {
    r.id == w.id || r.revision == w.revision || r.windowId == w.window.value.id
      || r.windowRevision == w.window.value.revision
  }

  /** The superseded wave and the wave that replaces it. */
  function SupersededBy(w: Wave, r: Replacement): Result<(Wave, Wave), WaveError> {
    if !w.Valid() then Err(InvalidWave)
    else if w.state == Completed || w.state == Superseded || w.window.None? then Err(BadTransition)
    else if Reuses(w, r) then Err(ReplacementReuse)
    else
      var planned := Wave(r.id, w.tournament, r.revision, Planned, Cleared(w.members), None, None, None);
      match Opened(planned, r.windowId, r.windowRevision, r.openedAt, r.deadline)
      case Err(e) => Err(e)
      case Ok(next) =>
        if !next.Valid() then Err(InvalidWave)
        else
          var gone := w.(members := Cleared(w.members),
                         window := Some(w.window.value.(state := Withdrawn, consumedAt := None)),
                         pausedAt := None, state := Superseded);
          Ok((gone, next))
  }

  /** The commands on a single wave. Completing is done by the execution workflow, which also gives the wave a
      new revision. */
  datatype Command =
    | OpenCommand(windowId: Id, windowRevision: Id, openedAt: Time, deadline: Time)
    | ReadyCommand(windowId: Id, participant: Id, at: Time)
    | StartCommand(windowId: Id, at: Time)
    | PauseCommand(at: Time)
    | ResumeCommand
    | ExpireCommand(windowId: Id, at: Time)
    | CompleteCommand(revision: Id)

  function CompletedAs(w: Wave, revision: Id): Result<Wave, WaveError> {
    if w.state != Active || revision == w.revision || revision == 0 then Err(BadTransition)
    else Ok(w.(revision := revision, state := Completed))
  }

  function Applied(w: Wave, c: Command): Result<Wave, WaveError> {
    match c
    case OpenCommand(id, revision, openedAt, deadline) => Opened(w, id, revision, openedAt, deadline)
    case ReadyCommand(windowId, participant, at) =>
      (match MarkedReady(w, windowId, participant, at) case Ok(p) => Ok(p.1) case Err(e) => Err(e))
    case StartCommand(windowId, at) => Started(w, windowId, at)
    case PauseCommand(at) => PausedAt(w, at)
    case ResumeCommand => Resumed(w)
    case ExpireCommand(windowId, at) => ExpiredAt(w, windowId, at)
    case CompleteCommand(revision) => CompletedAs(w, revision)
  }

  // ---------------------------------------------------------------- one command

  lemma {:induction false} PositionFinds(members: seq<Member>, participant: Id)
    ensures Position(members, participant) <= |members|
    ensures Position(members, participant) < |members| ==>
      members[Position(members, participant)].participant == participant
    ensures forall i :: 0 <= i < Position(members, participant) ==> members[i].participant != participant
  {
    if members != [] && members[0].participant != participant { PositionFinds(members[1..], participant); }
  }

  /** The window was consumed exactly by the shared start. */
  predicate StartMatchesWindow(w: Wave) {
    w.HasWindow(Consumed) ==> w.startedAt.Some? && w.window.value.consumedAt == w.startedAt
  }

  ghost predicate Sound(w: Wave) { w.Valid() && StartMatchesWindow(w) }

  /** Every command keeps a valid wave valid, and keeps its participants, its tournament and its shared start. */
  lemma CommandKeepsWave(w: Wave, c: Command)
    requires w.Valid() && Applied(w, c).Ok?
    ensures Applied(w, c).value.Valid()
    ensures StartMatchesWindow(w) ==> StartMatchesWindow(Applied(w, c).value)
    ensures Applied(w, c).value.Participants() == w.Participants() && Applied(w, c).value.tournament == w.tournament
    ensures w.startedAt.Some? ==> Applied(w, c).value.startedAt == w.startedAt
    ensures Applied(w, c).value.startedAt != w.startedAt ==> c.StartCommand?
    ensures c.StartCommand? ==> w.startedAt.None? && Applied(w, c).value.startedAt == Some(c.at)
  {
    PositionFinds(w.members, if c.ReadyCommand? then c.participant else 0);
    assert Applied(w, c).value.Participants() == w.Participants();
  }

  /** A running, paused or completed wave was started at the instant its ready window was consumed, inside the
      window and with every member ready. */
  predicate StartedInTime(w: Wave) {
    w.state.Active? || w.state.Paused? || w.state.Completed? ==>
      && w.startedAt.Some? && w.window.Some? && w.window.value.consumedAt == w.startedAt
      && w.window.value.Admits(w.startedAt.value)
      && forall i :: 0 <= i < |w.members| ==> w.members[i].ready
  }

  lemma RunningMeansReadyInTime(w: Wave)
    requires Sound(w)
    ensures StartedInTime(w)
  {
  }

  /** Nothing can be done to a superseded wave any more. */
  lemma SupersededIsFinal(w: Wave, c: Command, r: Replacement)
    requires w.state == Superseded
    ensures Applied(w, c).Err? && SupersededBy(w, r).Err?
  {
  }

  lemma ReplacementIsSound(w: Wave, r: Replacement)
    requires w.Valid() && SupersededBy(w, r).Ok?
    ensures var (gone, next) := SupersededBy(w, r).value;
      && Sound(gone) && gone.state == Superseded && gone.startedAt == w.startedAt && gone.id == w.id
        && gone.revision == w.revision
      && Sound(next) && next.state == ReadyWindowOpen && next.startedAt.None?
      && gone.Participants() == next.Participants() == w.Participants() && NoneReady(next.members)
      && gone.tournament == next.tournament == w.tournament
      && next.id != gone.id && next.revision != gone.revision
      && next.window.value.id != gone.window.value.id && next.window.value.revision != gone.window.value.revision
  {
    var (gone, next) := SupersededBy(w, r).value;
    assert gone.Participants() == w.Participants() && next.Participants() == w.Participants();
  }

  /** A valid wave with a window that is neither completed nor superseded can be replaced exactly when the new
      identities are present, differ from its own, and span a proper window. */
  lemma ReplaceableExactly(w: Wave, r: Replacement)
    requires w.Valid()
    ensures SupersededBy(w, r).Ok? <==>
      && w.window.Some? && w.state != Completed && w.state != Superseded
      && r.id != 0 && r.revision != 0 && r.windowId != 0 && r.windowRevision != 0
      && !r.openedAt.IsZero() && r.deadline.After(r.openedAt)
      && !Reuses(w, r)
  {
    var members := Cleared(w.members);
    assert MembersValid(members) && !members[0].ready;
  }

  /** Freshness is demanded only against the direct predecessor: the wave after next may take back every
      identity of a superseded wave. */
  lemma GrandparentIdentitiesMayReturn(w: Wave, r: Replacement)
    requires w.Valid() && SupersededBy(w, r).Ok?
    ensures var next := SupersededBy(w, r).value.1;
            var back := Replacement(w.id, w.revision, w.window.value.id, w.window.value.revision, r.openedAt,
                                    r.deadline);
            SupersededBy(next, back).Ok? && SupersededBy(next, back).value.1.id == w.id
  {
    ReplacementIsSound(w, r);
    ReplaceableExactly(w, r);
    var next := SupersededBy(w, r).value.1;
    ReplaceableExactly(next,
      Replacement(w.id, w.revision, w.window.value.id, w.window.value.revision, r.openedAt, r.deadline));
  }

  /** Resuming undoes pausing. */
  lemma PauseThenResume(w: Wave, at: Time)
    requires w.Valid() && PausedAt(w, at).Ok?
    ensures PausedAt(w, at).value.pausedAt == Some(at) && PausedAt(w, at).value.Valid()
    ensures Resumed(PausedAt(w, at).value) == Ok(w)
  {
    assert w.pausedAt.None?;
  }

  /** A ready mark sets the flag of that participant alone, is repeated without effect, and tells whether it
      changed anything. */
  lemma {:induction false} ReadyMarksOne(w: Wave, windowId: Id, participant: Id, at: Time)
    requires w.Valid() && MarkedReady(w, windowId, participant, at).Ok?
    ensures var (changed, v) := MarkedReady(w, windowId, participant, at).value;
      && v.members == WithReady(w.members, participant)
      && (changed <==> Member(participant, false) in w.members)
      && (v.state == Ready
        <==> forall i :: 0 <= i < |w.members| && w.members[i].participant != participant ==> w.members[i].ready)
      && MarkedReady(v, windowId, participant, at) == Ok((false, v))
  {
    var (changed, v) := MarkedReady(w, windowId, participant, at).value;
    PositionFinds(w.members, participant);
    var k := Position(w.members, participant);
    forall i | 0 <= i < |w.members| && w.members[i].participant == participant
      ensures i == k
    {
    }
    assert v.members == WithReady(w.members, participant);
    CommandKeepsWave(w, ReadyCommand(windowId, participant, at));
    SamePosition(w.members, v.members, participant);
    forall i | 0 <= i < |w.members| ensures v.members[i].ready <==> w.members[i].ready || i == k {}
    if !w.members[k].ready { assert w.members[k] == Member(participant, false); }
  }

  function WithReady(members: seq<Member>, participant: Id): seq<Member> {
    seq(|members|, i requires 0 <= i < |members| =>
      if members[i].participant == participant then members[i].(ready := true) else members[i])
  }

  lemma {:induction false} SamePosition(a: seq<Member>, b: seq<Member>, participant: Id)
    requires |a| == |b| && forall i :: 0 <= i < |a| ==> a[i].participant == b[i].participant
    ensures Position(a, participant) == Position(b, participant)
  {
    if a != [] && a[0].participant != participant { SamePosition(a[1..], b[1..], participant); }
  }

  /** Once the deadline of its open window has passed, a wave accepts nothing but the expiry of that window, and
      that only while some member is not ready. A wave whose members are all ready can then neither start nor
      expire: of its own operations only replacement is left. */
  lemma LateWaveOnlyExpires(w: Wave, c: Command)
    requires w.Valid() && w.HasWindow(Open)
    requires c.StartCommand? || c.ReadyCommand? || c.ExpireCommand? ==> c.at.After(w.window.value.deadline)
    ensures Applied(w, c).Ok? <==> c.ExpireCommand? && c.windowId == w.window.value.id && !AllReady(w.members)
  {
  }

  // ---------------------------------------------------------------- whole lineages

  /** The waves of a lineage in the order they were created, and how often each was started. */
  datatype Lineage = Lineage(waves: seq<Wave>, starts: seq<nat>)

  function Commanded(l: Lineage, i: nat, c: Command): Option<Lineage>
    requires i < |l.waves| == |l.starts|
  {
    match Applied(l.waves[i], c)
    case Err(_) => None
    case Ok(w) => Some(Lineage(l.waves[i := w], if c.StartCommand? then l.starts[i := l.starts[i] + 1] else l.starts))
  }

  function Replaced(l: Lineage, i: nat, r: Replacement): Option<Lineage>
    requires i < |l.waves| == |l.starts|
  {
    match SupersededBy(l.waves[i], r)
    case Err(_) => None
    case Ok(p) => Some(Lineage(l.waves[i := p.0] + [p.1], l.starts + [0]))
  }

  ghost predicate Steps(l: Lineage, m: Lineage) {
    && |l.waves| == |l.starts|
    && ((exists i: nat, c :: i < |l.waves| && Commanded(l, i, c) == Some(m))
        || (exists i: nat, r :: i < |l.waves| && Replaced(l, i, r) == Some(m)))
  }

  predicate Fresh(gone: Wave, next: Wave) {
    next.id != gone.id && (gone.window.Some? && next.window.Some? ==>
      next.window.value.id != gone.window.value.id && next.window.value.revision != gone.window.value.revision)
  }

  ghost predicate LineageOk(l: Lineage, first: Wave) {
    && |l.waves| == |l.starts| >= 1
    && (forall i :: 0 <= i < |l.waves| ==> WaveOk(l.waves[i], l.starts[i], first))
    && (forall i :: 0 <= i < |l.waves| - 1 ==> l.waves[i].state == Superseded)
    && (forall i {:trigger l.waves[i]} :: 0 <= i < |l.waves| - 1 ==> Fresh(l.waves[i], l.waves[i + 1]))
    && (|l.waves| > 1 ==> l.waves[|l.waves| - 1].window.Some?)
  }

  ghost predicate WaveOk(w: Wave, starts: nat, first: Wave) {
    && Sound(w)
    && starts == (if w.startedAt.Some? then 1 else 0)
    && w.Participants() == first.Participants() && w.tournament == first.tournament
  }

  /** A command reaches only the newest wave of a lineage. */
  lemma CommandHitsNewest(l: Lineage, first: Wave, i: nat, c: Command)
    requires LineageOk(l, first) && i < |l.waves| && Applied(l.waves[i], c).Ok?
    ensures i == |l.waves| - 1
    ensures WaveOk(Applied(l.waves[i], c).value, l.starts[i] + (if c.StartCommand? then 1 else 0), first)
  {
    assert WaveOk(l.waves[i], l.starts[i], first);
    CommandKeepsWave(l.waves[i], c);
    if i < |l.waves| - 1 { SupersededIsFinal(l.waves[i], c, Replacement(0, 0, 0, 0, ZERO_TIME, ZERO_TIME)); }
  }

  lemma {:induction false} CommandKeepsLineage(l: Lineage, first: Wave, i: nat, c: Command, m: Lineage)
    requires LineageOk(l, first) && i < |l.waves| && Commanded(l, i, c) == Some(m)
    ensures LineageOk(m, first)
  {
    CommandHitsNewest(l, first, i, c);
    CommandKeepsIdentity(l.waves[i], c);
    forall j | 0 <= j < |m.waves|
      ensures WaveOk(m.waves[j], m.starts[j], first)
    {
      if j != i { assert WaveOk(l.waves[j], l.starts[j], first); }
    }
    forall j | 0 <= j < |m.waves| - 1
      ensures Fresh(m.waves[j], m.waves[j + 1])
    {
      assert Fresh(l.waves[j], l.waves[j + 1]);
    }
  }

  lemma CommandIsLater(l: Lineage, first: Wave, i: nat, c: Command, m: Lineage)
    requires LineageOk(l, first) && i < |l.waves| && Commanded(l, i, c) == Some(m)
    ensures Later(l, m)
  {
    assert WaveOk(l.waves[i], l.starts[i], first);
    CommandKeepsWave(l.waves[i], c);
    if l.waves[i].state == Superseded {
      SupersededIsFinal(l.waves[i], c, Replacement(0, 0, 0, 0, ZERO_TIME, ZERO_TIME));
    }
  }

  lemma CommandKeepsIdentity(w: Wave, c: Command)
    requires Applied(w, c).Ok?
    ensures var v := Applied(w, c).value;
      && v.id == w.id
      && (w.window.Some? ==>
            v.window.Some? && v.window.value.id == w.window.value.id
            && v.window.value.revision == w.window.value.revision)
  {
  }

  lemma ReplacementKeepsLineage(l: Lineage, first: Wave, i: nat, r: Replacement, m: Lineage)
    requires LineageOk(l, first) && i < |l.waves| && Replaced(l, i, r) == Some(m)
    ensures LineageOk(m, first)
  {
    var w := l.waves[i];
    assert WaveOk(w, l.starts[i], first);
    if i < |l.waves| - 1 { SupersededIsFinal(w, ResumeCommand, r); }
    ReplacementIsSound(w, r);
    forall j | 0 <= j < |m.waves|
      ensures WaveOk(m.waves[j], m.starts[j], first)
    {
      if j < i { assert WaveOk(l.waves[j], l.starts[j], first); }
    }
    forall j | 0 <= j < |m.waves| - 1
      ensures Fresh(m.waves[j], m.waves[j + 1])
    {
      if j < i { assert Fresh(l.waves[j], l.waves[j + 1]); }
    }
  }

  lemma ReplacementIsLater(l: Lineage, first: Wave, i: nat, r: Replacement, m: Lineage)
    requires LineageOk(l, first) && i < |l.waves| && Replaced(l, i, r) == Some(m)
    ensures Later(l, m)
  {
    assert WaveOk(l.waves[i], l.starts[i], first);
    ReplacementIsSound(l.waves[i], r);
  }

  /** What cannot be undone: waves stay, a superseded wave stays as it is, and a shared start never moves. */
  ghost predicate Later(l: Lineage, m: Lineage) {
    && |l.waves| <= |m.waves|
    && (forall i :: 0 <= i < |l.waves| && l.waves[i].state == Superseded ==> m.waves[i] == l.waves[i])
    && (forall i :: 0 <= i < |l.waves| && l.waves[i].startedAt.Some? ==> m.waves[i].startedAt == l.waves[i].startedAt)
  }

  function Beginning(w: Wave): Lineage { Lineage([w], [0]) }

  lemma {:induction false} StepKeepsLineage(l: Lineage, first: Wave, m: Lineage)
    requires LineageOk(l, first) && Steps(l, m)
    ensures LineageOk(m, first) && Later(l, m)
  {
    if i: nat, c :| i < |l.waves| && Commanded(l, i, c) == Some(m) {
      CommandKeepsLineage(l, first, i, c, m);
      CommandIsLater(l, first, i, c, m);
    } else {
      var i: nat, r :| i < |l.waves| && Replaced(l, i, r) == Some(m);
      ReplacementKeepsLineage(l, first, i, r, m);
      ReplacementIsLater(l, first, i, r, m);
    }
  }

  /** Over every lineage grown from a planned wave: all waves are valid, all but the newest are superseded, each
      was started at most once and, if it ran, in time and with every member ready, and the participants and the
      tournament are those of the first wave. */
  lemma {:induction false} LineageInvariant(first: Wave, trace: seq<Lineage>, k: nat)
    requires first.Valid() && first.state == Planned
    requires IsRun(trace, Beginning(first), Steps) && k < |trace|
    ensures LineageOk(trace[k], first)
    ensures forall i :: 0 <= i < |trace[k].waves| ==> trace[k].starts[i] <= 1 && StartedInTime(trace[k].waves[i])
  {
    var inv := (l: Lineage) => LineageOk(l, first);
    forall l, m | inv(l) && Steps(l, m)
      ensures inv(m)
    {
      StepKeepsLineage(l, first, m);
    }
    Invariant(trace, Beginning(first), Steps, inv, k);
    forall i | 0 <= i < |trace[k].waves|
      ensures trace[k].starts[i] <= 1 && StartedInTime(trace[k].waves[i])
    {
      assert WaveOk(trace[k].waves[i], trace[k].starts[i], first);
      RunningMeansReadyInTime(trace[k].waves[i]);
    }
  }

  lemma {:induction false} LineageIsMonotone(first: Wave, trace: seq<Lineage>, j: nat, k: nat)
    requires first.Valid() && first.state == Planned
    requires IsRun(trace, Beginning(first), Steps) && j <= k < |trace|
    ensures Later(trace[j], trace[k])
  {
    var inv := (l: Lineage) => LineageOk(l, first);
    forall l, m | inv(l) && Steps(l, m)
      ensures inv(m) && Later(l, m)
    {
      StepKeepsLineage(l, first, m);
    }
    Monotone(trace, Beginning(first), Steps, inv, Later, j, k);
  }

  // ---------------------------------------------------------------- identities along a lineage

  /** The four identities that a replacement brings. */
  datatype Kind = WaveId | WaveRevision | WindowId | WindowRevision

  function Identity(w: Wave, kind: Kind): Option<Id> {
    match kind
    case WaveId => Some(w.id)
    case WaveRevision => Some(w.revision)
    case WindowId => if w.window.Some? then Some(w.window.value.id) else None
    case WindowRevision => if w.window.Some? then Some(w.window.value.revision) else None
  }

  function Identities(l: Lineage, kind: Kind): seq<Option<Id>> {
    seq(|l.waves|, i requires 0 <= i < |l.waves| => Identity(l.waves[i], kind))
  }

  datatype Request = OnWave(i: nat, c: Command) | Replace(i: nat, r: Replacement)

  /** The lineage after a request that succeeds. */
  function Granted(l: Lineage, q: Request): Option<Lineage> {
    if q.i >= |l.waves| || |l.waves| != |l.starts| then None
    else match q case OnWave(i, c) => Commanded(l, i, c) case Replace(i, r) => Replaced(l, i, r)
  }

  /** A failing request changes nothing. */
  function Handled(l: Lineage, q: Request): Lineage {
    match Granted(l, q) case Some(m) => m case None => l
  }

  function After(l: Lineage, qs: seq<Request>): Lineage {
    if qs == [] then l else Handled(After(l, qs[..|qs| - 1]), qs[|qs| - 1])
  }

  /** The identity of a kind that the request names, if it names one. */
  function Brings(q: Request, kind: Kind): Option<Id> {
    match q
    case Replace(_, r) =>
      Some(match kind
           case WaveId => r.id
           case WaveRevision => r.revision
           case WindowId => r.windowId
           case WindowRevision => r.windowRevision)
    case OnWave(_, OpenCommand(id, revision, _, _)) =>
      (match kind case WindowId => Some(id) case WindowRevision => Some(revision) case _ => None)
    case OnWave(_, CompleteCommand(revision)) => (match kind case WaveRevision => Some(revision) case _ => None)
    case _ => None
  }

  /** What a caller can check beforehand: the identity it names occurs nowhere in the lineage so far. */
  predicate Unused(l: Lineage, q: Request, kind: Kind) {
    Brings(q, kind).Some? ==> Brings(q, kind) !in Identities(l, kind)
  }

  lemma CommandIdentity(w: Wave, c: Command, kind: Kind)
    requires w.Valid() && Applied(w, c).Ok?
    ensures Identity(Applied(w, c).value, kind)
      == (if Brings(OnWave(0, c), kind).Some? then Brings(OnWave(0, c), kind) else Identity(w, kind))
    ensures Brings(OnWave(0, c), kind).Some? ==> Identity(w, kind) != Brings(OnWave(0, c), kind)
  {
  }

  lemma ReplacementIdentity(w: Wave, r: Replacement, kind: Kind)
    requires w.Valid() && SupersededBy(w, r).Ok?
    ensures Identity(SupersededBy(w, r).value.0, kind) == Identity(w, kind)
    ensures Identity(SupersededBy(w, r).value.1, kind) == Brings(Replace(0, r), kind)
  {
  }

  lemma {:induction false} CommandedNewest(l: Lineage, first: Wave, i: nat, c: Command, m: Lineage)
    requires LineageOk(l, first) && i < |l.waves| && Commanded(l, i, c) == Some(m)
    ensures LineageOk(m, first) && i == |l.waves| - 1 && l.waves[i].Valid()
    ensures Applied(l.waves[i], c).Ok? && m.waves == l.waves[i := Applied(l.waves[i], c).value]
  {
    assert WaveOk(l.waves[i], l.starts[i], first);
    CommandHitsNewest(l, first, i, c);
    CommandKeepsLineage(l, first, i, c, m);
  }

  lemma CommandIdentities(l: Lineage, i: nat, c: Command, m: Lineage, kind: Kind)
    requires i < |l.waves| && l.waves[i].Valid() && Applied(l.waves[i], c).Ok?
    requires m.waves == l.waves[i := Applied(l.waves[i], c).value]
    ensures var x := Brings(OnWave(i, c), kind);
            && Identities(m, kind) == (if x.Some? then Identities(l, kind)[i := x] else Identities(l, kind))
            && (x.Some? ==> Identities(l, kind)[i] != x)
  {
    CommandIdentity(l.waves[i], c, kind);
    assert Brings(OnWave(i, c), kind) == Brings(OnWave(0, c), kind);
  }

  lemma {:induction false} ReplacementIdentities(l: Lineage, first: Wave, i: nat, r: Replacement, m: Lineage,
                                                 kind: Kind)
    requires LineageOk(l, first) && i < |l.waves| && Replaced(l, i, r) == Some(m)
    ensures LineageOk(m, first) && i == |l.waves| - 1
    ensures Identities(m, kind) == Identities(l, kind) + [Brings(Replace(i, r), kind)]
  {
    assert WaveOk(l.waves[i], l.starts[i], first) && l.waves[i].state != Superseded;
    ReplacementKeepsLineage(l, first, i, r, m);
    ReplacementIdentity(l.waves[i], r, kind);
    assert Brings(Replace(i, r), kind) == Brings(Replace(0, r), kind);
  }

  lemma {:induction false} StepIdentities(l: Lineage, first: Wave, q: Request, kind: Kind)
    requires LineageOk(l, first) && Granted(l, q).Some?
    ensures LineageOk(Granted(l, q).value, first) && q.i == |l.waves| - 1
    ensures var ids, ids' := Identities(l, kind), Identities(Granted(l, q).value, kind);
      match q
      case OnWave(i, _) => ids' == if Brings(q, kind).Some? then ids[i := Brings(q, kind)] else ids
      case Replace(_, _) => ids' == ids + [Brings(q, kind)]
    ensures q.OnWave? && Brings(q, kind).Some? ==> Identities(l, kind)[q.i] != Brings(q, kind)
  {
    match q
    case OnWave(i, c) =>
      CommandedNewest(l, first, i, c, Granted(l, q).value);
      CommandIdentities(l, i, c, Granted(l, q).value, kind);
    case Replace(i, r) => ReplacementIdentities(l, first, i, r, Granted(l, q).value, kind);
  }

  lemma DistinctWithOneMore(ids: seq<Option<Id>>, x: Option<Id>)
    requires Distinct(ids)
    ensures Distinct(ids + [x]) <==> x !in ids
  {
    if x in ids {
      var i :| 0 <= i < |ids| && ids[i] == x;
      assert (ids + [x])[i] == (ids + [x])[|ids|];
    }
  }

  lemma DistinctWithLastChanged(ids: seq<Option<Id>>, x: Option<Id>)
    requires Distinct(ids) && ids != [] && ids[|ids| - 1] != x
    ensures Distinct(ids[|ids| - 1 := x]) <==> x !in ids
  {
    var n := |ids| - 1;
    if x in ids {
      var i :| 0 <= i < |ids| && ids[i] == x;
      assert ids[n := x][i] == ids[n := x][n];
    }
  }

  /** A granted request leaves the identities of a kind pairwise different exactly when the one it brings is used by
      no wave of the lineage so far. The code checks the direct predecessor only. */
  lemma {:induction false} DistinctExactly(l: Lineage, first: Wave, q: Request, kind: Kind)
    requires LineageOk(l, first) && Distinct(Identities(l, kind))
    ensures Distinct(Identities(Handled(l, q), kind)) <==> (Granted(l, q).Some? ==> Unused(l, q, kind))
  {
    if Granted(l, q).Some? {
      StepIdentities(l, first, q, kind);
      var ids := Identities(l, kind);
      match q
      case Replace(_, _) => DistinctWithOneMore(ids, Brings(q, kind));
      case OnWave(_, _) => if Brings(q, kind).Some? { DistinctWithLastChanged(ids, Brings(q, kind)); }
    }
  }

  lemma {:induction false} RequestsKeepLineage(first: Wave, qs: seq<Request>)
    requires first.Valid() && first.state == Planned
    ensures LineageOk(After(Beginning(first), qs), first)
  {
    if qs == [] {
      assert first.Participants() == first.Participants();
    } else {
      var init := qs[..|qs| - 1];
      RequestsKeepLineage(first, init);
      var l, q := After(Beginning(first), init), qs[|qs| - 1];
      if Granted(l, q).Some? { StepIdentities(l, first, q, WaveId); }
    }
  }

  /** Request k of a run, where it is granted, brings an identity that no wave has used. */
  ghost predicate UnusedAt(first: Wave, qs: seq<Request>, kind: Kind, k: nat)
    requires k < |qs|
  {
    var l := After(Beginning(first), qs[..k]);
    Granted(l, qs[k]).Some? ==> Unused(l, qs[k], kind)
  }

  ghost predicate DistinctAt(first: Wave, qs: seq<Request>, kind: Kind, k: nat)
    requires k <= |qs|
  {
    Distinct(Identities(After(Beginning(first), qs[..k]), kind))
  }

  lemma {:induction false} NextAfter(first: Wave, qs: seq<Request>, k: nat)
    requires k < |qs|
    ensures After(Beginning(first), qs[..k + 1]) == Handled(After(Beginning(first), qs[..k]), qs[k])
  {
    assert qs[..k + 1][..k] == qs[..k];
  }

  lemma {:induction false} DistinctUpTo(first: Wave, qs: seq<Request>, kind: Kind, k: nat)
    requires first.Valid() && first.state == Planned && k <= |qs|
    requires forall j {:trigger UnusedAt(first, qs, kind, j)} :: 0 <= j < k ==> UnusedAt(first, qs, kind, j)
    ensures DistinctAt(first, qs, kind, k)
  {
    if k > 0 {
      DistinctUpTo(first, qs, kind, k - 1);
      NextAfter(first, qs, k - 1);
      RequestsKeepLineage(first, qs[..k - 1]);
      assert UnusedAt(first, qs, kind, k - 1);
      DistinctExactly(After(Beginning(first), qs[..k - 1]), first, qs[k - 1], kind);
    }
  }

  /** Over every run of requests from a planned wave: the identities of a kind stay pairwise different at every
      point exactly when every granted request brings one that no earlier wave of the lineage has. */
  lemma {:induction false} DistinctAlongRunsExactly(first: Wave, qs: seq<Request>, kind: Kind)
    requires first.Valid() && first.state == Planned
    ensures (forall k {:trigger DistinctAt(first, qs, kind, k)} :: 0 <= k <= |qs| ==> DistinctAt(first, qs, kind, k))
            <==> (forall k {:trigger UnusedAt(first, qs, kind, k)} :: 0 <= k < |qs| ==> UnusedAt(first, qs, kind, k))
  {
    if forall k {:trigger UnusedAt(first, qs, kind, k)} :: 0 <= k < |qs| ==> UnusedAt(first, qs, kind, k) {
      forall k | 0 <= k <= |qs|
        ensures DistinctAt(first, qs, kind, k)
      {
        DistinctUpTo(first, qs, kind, k);
      }
    }
    if forall k {:trigger DistinctAt(first, qs, kind, k)} :: 0 <= k <= |qs| ==> DistinctAt(first, qs, kind, k) {
      forall k | 0 <= k < |qs|
        ensures UnusedAt(first, qs, kind, k)
      {
        assert DistinctAt(first, qs, kind, k) && DistinctAt(first, qs, kind, k + 1);
        NextAfter(first, qs, k);
        RequestsKeepLineage(first, qs[..k]);
        DistinctExactly(After(Beginning(first), qs[..k]), first, qs[k], kind);
      }
    }
  }

  /** Only completing changes an identity of an existing wave, and only its revision; so for the other kinds
      repeats never go away, and the final lineage tells. */
  lemma {:induction false} RepeatsStay(first: Wave, qs: seq<Request>, kind: Kind, k: nat)
    requires first.Valid() && first.state == Planned && kind != WaveRevision && k <= |qs|
    requires Distinct(Identities(After(Beginning(first), qs), kind))
    ensures DistinctAt(first, qs, kind, k)
    decreases |qs| - k
  {
    if k == |qs| {
      assert qs[..k] == qs;
    } else {
      RepeatsStay(first, qs, kind, k + 1);
      NextAfter(first, qs, k);
      RequestsKeepLineage(first, qs[..k]);
      EarlierDistinct(After(Beginning(first), qs[..k]), first, qs[k], kind);
    }
  }

  lemma {:induction false} EarlierDistinct(l: Lineage, first: Wave, q: Request, kind: Kind)
    requires LineageOk(l, first) && kind != WaveRevision && Distinct(Identities(Handled(l, q), kind))
    ensures Distinct(Identities(l, kind))
  {
    if Granted(l, q).Some? {
      StepIdentities(l, first, q, kind);
      var ids, ids' := Identities(l, kind), Identities(Handled(l, q), kind);
      if q.OnWave? && Brings(q, kind).Some? {
        OpenedFirst(l, first, q.i, q.c);
      } else {
        forall i, j | 0 <= i < j < |ids| ensures ids[i] != ids[j] { assert ids'[i] != ids'[j]; }
      }
    }
  }

  /** Only the first wave of a lineage is ever opened by command. */
  lemma OpenedFirst(l: Lineage, first: Wave, i: nat, c: Command)
    requires LineageOk(l, first) && i < |l.waves| && c.OpenCommand? && Applied(l.waves[i], c).Ok?
    ensures |l.waves| == 1
  {
    assert WaveOk(l.waves[i], l.starts[i], first);
  }

  lemma {:induction false} FinalLineageTells(first: Wave, qs: seq<Request>, kind: Kind)
    requires first.Valid() && first.state == Planned && kind != WaveRevision
    ensures Distinct(Identities(After(Beginning(first), qs), kind))
            <==> (forall k {:trigger UnusedAt(first, qs, kind, k)} :: 0 <= k < |qs| ==> UnusedAt(first, qs, kind, k))
  {
    DistinctAlongRunsExactly(first, qs, kind);
    if Distinct(Identities(After(Beginning(first), qs), kind)) {
      forall k | 0 <= k <= |qs| ensures DistinctAt(first, qs, kind, k) { RepeatsStay(first, qs, kind, k); }
    }
    assert qs[..|qs|] == qs;
    assert DistinctAt(first, qs, kind, |qs|) <==> Distinct(Identities(After(Beginning(first), qs), kind));
  }

  // ---------------------------------------------------------------- the wave object

  method ValidateMembers(members: seq<Member>) returns (ok: bool)
    ensures ok == MembersValid(members)
  {
    if |members| < 2 {
      return false;
    }
    var seen: set<Id> := {};
    for i := 0 to |members|
      invariant seen == set k | 0 <= k < i :: members[k].participant
      invariant forall k :: 0 <= k < i ==> members[k].participant != 0
      invariant forall j, k :: 0 <= j < k < i ==> members[j].participant != members[k].participant
    {
      if members[i].participant == 0 || members[i].participant in seen {
        return false;
      }
      seen := seen + {members[i].participant};
    }
    ok := true;
  }

  method HasUnreadyMember(members: seq<Member>) returns (found: bool)
    ensures found == exists i :: 0 <= i < |members| && !members[i].ready
  {
    for i := 0 to |members|
      invariant forall k :: 0 <= k < i ==> members[k].ready
    {
      if !members[i].ready {
        return true;
      }
    }
    found := false;
  }

  method AnyMemberReady(members: seq<Member>) returns (found: bool)
    ensures found == !NoneReady(members)
  {
    for i := 0 to |members|
      invariant forall k :: 0 <= k < i ==> !members[k].ready
    {
      if members[i].ready {
        return true;
      }
    }
    found := false;
  }

  /** The wave with its fields updated in place. Each command answers like its function on the old value, and
      leaves the wave untouched when it fails. */
  class ExecutionWave {
    var id: Id
    var tournament: Id
    var revision: Id
    var state: WaveState
    var members: seq<Member>
    var window: Option<Window>
    var startedAt: Option<Time>
    var pausedAt: Option<Time>

    function Value(): Wave
      reads this
    {
      Wave(id, tournament, revision, state, members, window, startedAt, pausedAt)
    }

    constructor (w: Wave)
      ensures Value() == w
    {
      id, tournament, revision, state := w.id, w.tournament, w.revision, w.state;
      members, window, startedAt, pausedAt := w.members, w.window, w.startedAt, w.pausedAt;
    }

    method OpenReadyWindow(windowId: Id, windowRevision: Id, openedAt: Time, deadline: Time)
      returns (failure: Option<WaveError>)
      modifies this
      ensures match Opened(old(Value()), windowId, windowRevision, openedAt, deadline)
              case Ok(w) => failure.None? && Value() == w
              case Err(e) => failure == Some(e) && Value() == old(Value())
    {
      if state != Planned {
        return Some(BadTransition);
      }
      if !Value().Valid() {
        return Some(InvalidWave);
      }
      var candidate := Window(windowId, id, windowRevision, Open, openedAt, deadline, None);
      if !candidate.Valid() {
        return Some(InvalidWave);
      }
      window, state := Some(candidate), ReadyWindowOpen;
      failure := None;
    }

    method MarkReady(windowId: Id, participant: Id, at: Time) returns (r: Result<bool, WaveError>)
      modifies this
      ensures match MarkedReady(old(Value()), windowId, participant, at)
              case Ok(p) => r == Ok(p.0) && Value() == p.1
              case Err(e) => r == Err(e) && Value() == old(Value())
    {
      if state != ReadyWindowOpen && state != Ready {
        return Err(BadTransition);
      }
      if window.None? || window.value.id != windowId || window.value.state != Open {
        return Err(StaleWindow);
      }
      if at.Before(window.value.openedAt) || at.After(window.value.deadline) {
        return Err(DeadlinePassed);
      }
      PositionFinds(members, participant);
      for i := 0 to |members|
        invariant Value() == old(Value())
        invariant i <= Position(members, participant)
      {
        if members[i].participant != participant {
          continue;
        }
        assert i == Position(members, participant);
        if members[i].ready {
          return Ok(false);
        }
        members := members[i := members[i].(ready := true)];
        var unready := HasUnreadyMember(members);
        if !unready {
          state := Ready;
        }
        return Ok(true);
      }
      r := Err(MemberNotFound);
    }

    method Start(windowId: Id, at: Time) returns (failure: Option<WaveError>)
      modifies this
      ensures match Started(old(Value()), windowId, at)
              case Ok(w) => failure.None? && Value() == w
              case Err(e) => failure == Some(e) && Value() == old(Value())
    {
      if startedAt.Some? {
        return Some(AlreadyStarted);
      }
      if state != Ready || window.None? || window.value.state != Open {
        return Some(BadTransition);
      }
      if window.value.id != windowId {
        return Some(StaleWindow);
      }
      if at.Before(window.value.openedAt) || at.After(window.value.deadline) {
        return Some(DeadlinePassed);
      }
      startedAt := Some(at);
      window := Some(window.value.(state := Consumed));
      window := Some(window.value.(consumedAt := Some(at)));
      state := Active;
      failure := None;
    }

    method Pause(at: Time) returns (failure: Option<WaveError>)
      modifies this
      ensures match PausedAt(old(Value()), at)
              case Ok(w) => failure.None? && Value() == w
              case Err(e) => failure == Some(e) && Value() == old(Value())
    {
      if state != Active || startedAt.None? || at.Before(startedAt.value) {
        return Some(BadTransition);
      }
      pausedAt, state := Some(at), Paused;
      failure := None;
    }

    method Resume() returns (failure: Option<WaveError>)
      modifies this
      ensures match Resumed(old(Value()))
              case Ok(w) => failure.None? && Value() == w
              case Err(e) => failure == Some(e) && Value() == old(Value())
    {
      if state != Paused {
        return Some(BadTransition);
      }
      pausedAt, state := None, Active;
      failure := None;
    }

    method ClearReadiness()
      modifies `members
      ensures members == Cleared(old(members))
    {
      for i := 0 to |members|
        invariant |members| == |old(members)|
        invariant forall k :: 0 <= k < i ==> members[k] == old(members)[k].(ready := false)
        invariant forall k :: i <= k < |members| ==> members[k] == old(members)[k]
      {
        members := members[i := members[i].(ready := false)];
      }
    }

    method ExpireReadyWindow(windowId: Id, at: Time) returns (failure: Option<WaveError>)
      modifies this
      ensures match ExpiredAt(old(Value()), windowId, at)
              case Ok(w) => failure.None? && Value() == w
              case Err(e) => failure == Some(e) && Value() == old(Value())
    {
      if state != ReadyWindowOpen || window.None? || window.value.state != Open {
        return Some(BadTransition);
      }
      if window.value.id != windowId {
        return Some(StaleWindow);
      }
      if !at.After(window.value.deadline) {
        return Some(BadTransition);
      }
      ClearReadiness();
      window := Some(window.value.(state := Expired));
      state := ReadyWindowExpired;
      failure := None;
    }

    method SupersedeWithReplacement(r: Replacement) returns (next: Result<ExecutionWave, WaveError>)
      modifies this
      ensures match SupersededBy(old(Value()), r)
              case Ok(p) => next.Ok? && fresh(next.value) && Value() == p.0 && next.value.Value() == p.1
              case Err(e) => next == Err(e) && Value() == old(Value())
    {
      if !Value().Valid() {
        return Err(InvalidWave);
      }
      if state == Completed || state == Superseded || window.None? {
        return Err(BadTransition);
      }
      if r.id == id || r.revision == revision || r.windowId == window.value.id
        || r.windowRevision == window.value.revision {
        return Err(ReplacementReuse);
      }
      var replacement := new ExecutionWave(
        Wave(r.id, tournament, r.revision, Planned, Cleared(members), None, None, None));
      var failure := replacement.OpenReadyWindow(r.windowId, r.windowRevision, r.openedAt, r.deadline);
      if failure.Some? {
        return Err(failure.value);
      }
      if !replacement.Value().Valid() {
        return Err(InvalidWave);
      }
      ClearReadiness();
      window := Some(window.value.(state := Withdrawn));
      window := Some(window.value.(consumedAt := None));
      pausedAt, state := None, Superseded;
      next := Ok(replacement);
    }
  }
}
