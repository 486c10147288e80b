/** What each command on a valid wave answers and changes, told by the fields of the wave alone. */
module WaveCommands {
  import opened Foundation
  import opened Waves

  predicate InWindow(w: Wave, at: Time)
    requires w.window.Some?
  {
    w.window.value.openedAt.instant <= at.instant <= w.window.value.deadline.instant
  }

  /** The evidence that goes with each state, field by field. */
  ghost predicate EvidenceFits(w: Wave) {
    && (w.window.None? <==> w.state.Planned?)
    && (w.window.Some? ==>
          var window := w.window.value;
          && window.id != 0 && window.waveId == w.id && window.revision != 0
          && window.openedAt.instant != 0 && window.openedAt.instant < window.deadline.instant
          && (window.state == Open <==> w.state.ReadyWindowOpen? || w.state.Ready?)
          && (window.state == Consumed <==> w.state.Active? || w.state.Paused? || w.state.Completed?)
          && (window.state == Expired <==> w.state.ReadyWindowExpired?)
          && (window.state == Withdrawn <==> w.state.Superseded?)
          && (window.consumedAt.Some? <==> window.state == Consumed)
          && (window.consumedAt.Some? ==> InWindow(w, window.consumedAt.value)))
    && (!w.state.Superseded? ==> (w.startedAt.Some? <==> w.state.Active? || w.state.Paused? || w.state.Completed?))
    && (w.pausedAt.Some? <==> w.state.Paused?)
    && (w.state.Paused? ==> w.pausedAt.value.instant >= w.startedAt.value.instant)
  }

  /** How ready the members are in each state. */
  ghost predicate ReadinessFits(w: Wave) {
    && (w.state in {Ready, Active, Paused, Completed} ==> forall m :: m in w.members ==> m.ready)
    && (w.state == ReadyWindowOpen ==> exists m :: m in w.members && !m.ready)
    && (w.state in {Planned, ReadyWindowExpired, Superseded} ==> forall m :: m in w.members ==> !m.ready)
  }

  lemma MembersExactly(members: seq<Member>)
    ensures MembersValid(members) <==>
      && |members| >= 2 && (forall m :: m in members ==> m.participant != 0)
      && (forall i, j :: 0 <= i < |members| && 0 <= j < |members| && i != j ==>
            members[i].participant != members[j].participant)
    ensures AllReady(members) <==> |members| > 0 && forall m :: m in members ==> m.ready
    ensures NoneReady(members) <==> forall m :: m in members ==> !m.ready
  {
    assert forall i :: 0 <= i < |members| ==> members[i] in members;
  }

  lemma WindowExactly(w: Wave)
    requires w.state != UnknownState && w.id != 0 && |w.members| > 0
    ensures (w.window.Some? ==> w.window.value.Valid() && w.window.value.waveId == w.id) && w.StateEvidence() <==>
      EvidenceFits(w) && ReadinessFits(w)
  {
    MembersExactly(w.members);
  }

  /** A wave is valid exactly when its identities are present, it has two or more present and different members, and
      window, times and readiness fit its state. */
  lemma ValidExactly(w: Wave)
    ensures w.Valid() <==>
      && w.id != 0 && w.tournament != 0 && w.revision != 0 && w.state != UnknownState
      && |w.members| >= 2 && (forall m :: m in w.members ==> m.participant != 0)
      && (forall i, j :: 0 <= i < |w.members| && 0 <= j < |w.members| && i != j ==>
            w.members[i].participant != w.members[j].participant)
      && EvidenceFits(w) && ReadinessFits(w)
  {
    MembersExactly(w.members);
    if w.state != UnknownState && w.id != 0 && |w.members| > 0 { WindowExactly(w); }
  }

  /** Opening takes a planned wave and a proper window. */
  lemma OpenExactly(w: Wave, id: Id, revision: Id, openedAt: Time, deadline: Time)
    requires w.Valid()
    ensures var r := Applied(w, OpenCommand(id, revision, openedAt, deadline));
      && (r.Ok? <==> w.state == Planned && id != 0 && revision != 0 && 0 != openedAt.instant < deadline.instant)
      && (r.Err? ==> r.error == if w.state == Planned then InvalidWave else BadTransition)
      && (r.Ok? ==> r.value == w.(state := ReadyWindowOpen,
                                  window := Some(Window(id, w.id, revision, Open, openedAt, deadline, None))))
  {
  }

  /** A ready mark takes the open window, a time inside it and a member. */
  lemma {:induction false} ReadyExactly(w: Wave, windowId: Id, participant: Id, at: Time)
    requires w.Valid()
    ensures var r := MarkedReady(w, windowId, participant, at);
      && (r == Err(BadTransition) <==> w.state != ReadyWindowOpen && w.state != Ready)
      && (w.state == ReadyWindowOpen || w.state == Ready ==>
            && (r == Err(StaleWindow) <==> windowId != w.window.value.id)
            && (r == Err(DeadlinePassed) <==> windowId == w.window.value.id && !InWindow(w, at))
            && (r == Err(MemberNotFound) <==>
                  && windowId == w.window.value.id && InWindow(w, at)
                  && forall m :: m in w.members ==> m.participant != participant)
            && (r.Ok? <==> windowId == w.window.value.id && InWindow(w, at)
                           && exists m :: m in w.members && m.participant == participant))
      && (r.Ok? ==> Marks(w, participant, r.value.0, r.value.1))
  {
    PositionFinds(w.members, participant);
    var k := Position(w.members, participant);
    if k < |w.members| { assert w.members[k] in w.members; }
    if MarkedReady(w, windowId, participant, at).Ok? { MarkChanges(w, windowId, participant, at); }
  }

  /** The wave with the flag of one participant set, and whether that changed anything. */
  ghost predicate Marks(w: Wave, participant: Id, changed: bool, v: Wave) {
    && v == w.(members := v.members, state := v.state)
    && (forall i :: 0 <= i < |w.members| ==> ReadyAfter(w.members, v.members, participant, i))
    && (changed <==> Member(participant, false) in w.members)
    && (v.state == if forall m :: m in v.members ==> m.ready then Ready else ReadyWindowOpen)
  }

  lemma {:induction false} MarkChanges(w: Wave, windowId: Id, participant: Id, at: Time)
    requires w.Valid() && MarkedReady(w, windowId, participant, at).Ok?
    ensures var r := MarkedReady(w, windowId, participant, at).value; Marks(w, participant, r.0, r.1)
  {
    var v := MarkedReady(w, windowId, participant, at).value.1;
    ReadyMarksOne(w, windowId, participant, at);
    CommandKeepsWave(w, ReadyCommand(windowId, participant, at));
    MembersExactly(v.members);
  }

  /** Member i afterwards: ready if it is the participant, and otherwise as it was. */
  predicate ReadyAfter(before: seq<Member>, after: seq<Member>, participant: Id, i: nat) {
    && i < |before| == |after| && after[i].participant == before[i].participant
    && (after[i].ready <==> before[i].ready || before[i].participant == participant)
  }

  /** Starting takes a ready wave, its own window and a time inside it, and writes one instant twice. */
  lemma StartExactly(w: Wave, windowId: Id, at: Time)
    requires w.Valid()
    ensures var r := Applied(w, StartCommand(windowId, at));
      && (r == Err(AlreadyStarted) <==> w.startedAt.Some?)
      && (r == Err(BadTransition) <==> w.startedAt.None? && w.state != Ready)
      && (w.state == Ready ==>
            && (r == Err(StaleWindow) <==> windowId != w.window.value.id)
            && (r == Err(DeadlinePassed) <==> windowId == w.window.value.id && !InWindow(w, at))
            && (r.Ok? <==> windowId == w.window.value.id && InWindow(w, at)))
      && (r.Ok? ==> r.value == w.(state := Active, startedAt := Some(at),
                                  window := Some(w.window.value.(state := Consumed, consumedAt := Some(at)))))
  {
  }

  /** Pausing takes an active wave and a time not before its start. */
  lemma PauseExactly(w: Wave, at: Time)
    requires w.Valid()
    ensures var r := Applied(w, PauseCommand(at));
      && (r.Ok? <==> w.state == Active && w.startedAt.value.instant <= at.instant)
      && (r.Err? ==> r.error == BadTransition)
      && (r.Ok? ==> r.value == w.(state := Paused, pausedAt := Some(at)))
  {
  }

  lemma ResumeExactly(w: Wave)
    requires w.Valid()
    ensures var r := Applied(w, ResumeCommand);
      && (r.Ok? <==> w.state == Paused) && (r.Err? ==> r.error == BadTransition)
      && (r.Ok? ==> r.value == w.(state := Active, pausedAt := None))
  {
  }

  /** Expiry takes a wave with unready members, its own window and a time after the deadline; nobody stays ready. */
  lemma ExpireExactly(w: Wave, windowId: Id, at: Time)
    requires w.Valid()
    ensures var r := Applied(w, ExpireCommand(windowId, at));
      && (r.Ok? <==>
            && w.state == ReadyWindowOpen && windowId == w.window.value.id
            && at.instant > w.window.value.deadline.instant)
      && (r.Err? ==> r.error == if w.state == ReadyWindowOpen && windowId != w.window.value.id then StaleWindow
                                else BadTransition)
      && (r.Ok? ==> r.value == w.(state := ReadyWindowExpired, members := r.value.members,
                                  window := Some(w.window.value.(state := Expired)))
                    && AreIdle(w.members, r.value.members))
  {
  }

  /** The same members, none of them ready. */
  predicate AreIdle(before: seq<Member>, after: seq<Member>) {
    |before| == |after| && forall i :: 0 <= i < |after| ==> after[i] == Member(before[i].participant, false)
  }

  lemma CompleteExactly(w: Wave, revision: Id)
    requires w.Valid()
    ensures var r := Applied(w, CompleteCommand(revision));
      && (r.Ok? <==> w.state == Active && revision != 0 && revision != w.revision)
      && (r.Err? ==> r.error == BadTransition)
      && (r.Ok? ==> r.value == w.(state := Completed, revision := revision))
  {
  }

  /** An invalid wave is neither opened nor replaced. */
  lemma InvalidIsRefused(w: Wave, r: Replacement, id: Id, revision: Id, openedAt: Time, deadline: Time)
    requires !w.Valid()
    ensures SupersededBy(w, r) == Err(InvalidWave)
    ensures Applied(w, OpenCommand(id, revision, openedAt, deadline))
      == Err(if w.state == Planned then InvalidWave else BadTransition)
  {
  }

  /** What a replacement leaves of the old wave and what the new one looks like. */
  lemma ReplaceExactly(w: Wave, r: Replacement)
    requires w.Valid()
    ensures SupersededBy(w, r).Ok? ==>
      var (gone, next) := SupersededBy(w, r).value;
      && gone == w.(state := Superseded, members := gone.members, pausedAt := None,
                    window := Some(w.window.value.(state := Withdrawn, consumedAt := None)))
      && next == Wave(r.id, w.tournament, r.revision, ReadyWindowOpen, next.members,
                      Some(Window(r.windowId, r.id, r.windowRevision, Open, r.openedAt, r.deadline, None)), None, None)
      && AreIdle(w.members, gone.members) && AreIdle(w.members, next.members)
    ensures SupersededBy(w, r) == Err(BadTransition) <==> w.state in {Planned, Completed, Superseded}
    ensures w.state !in {Planned, Completed, Superseded} ==>
      (SupersededBy(w, r) == Err(ReplacementReuse) <==>
         || r.id == w.id || r.revision == w.revision
         || r.windowId == w.window.value.id || r.windowRevision == w.window.value.revision)
    ensures SupersededBy(w, r).Ok? <==>
      && w.state !in {Planned, Completed, Superseded}
      && r.id !in {0, w.id} && r.revision !in {0, w.revision}
      && r.windowId !in {0, w.window.value.id} && r.windowRevision !in {0, w.window.value.revision}
      && 0 != r.openedAt.instant < r.deadline.instant
  {
    ReplaceableExactly(w, r);
  }
}
