/** Golden groups told by their fields alone: what a valid attempt looks like and what each change answers. */
module GoldenAnswers {
  import opened Foundation
  import opened Numbering
  import opened GoldenGroups

  /** The times an attempt carries in each state. */
  ghost predicate TimesFit(a: Attempt) {
    && (a.state in {Planned, WaitingReady} ==> a.startedAt.None? && a.finishedAt.None?)
    && (a.state == Active ==> a.startedAt.Some? && a.finishedAt.None?)
    && (a.state in {Completed, Voided} ==> a.startedAt.Some? && a.finishedAt.Some?)
    && (a.state == Cancelled ==> a.finishedAt.Some?)
    && (a.startedAt.Some? && a.finishedAt.Some? ==> a.startedAt.value.instant <= a.finishedAt.value.instant)
    && (a.retainedAt.Some? && a.startedAt.Some? ==> a.retainedAt.value.instant <= a.startedAt.value.instant)
    && (a.retainedAt.Some? && a.finishedAt.Some? ==> a.retainedAt.value.instant <= a.finishedAt.value.instant)
    && forall at :: Some(at) in {a.startedAt, a.finishedAt, a.retainedAt} ==> at.instant != 0 && at.utc
  }

  /** An attempt is valid exactly when its identities are present, exactly the first has no predecessor and no other
      names itself, it has two or more present and different participants, and its times fit its state. */
  lemma AttemptValidExactly(a: Attempt)
    ensures a.Valid() <==>
      && a.id != 0 && a.group != 0 && a.groupRevision != 0 && a.no > 0
      && (a.previous.None? <==> a.no == 1) && a.previous !in {Some(0), Some(a.id)}
      && |a.participants| >= 2 && (forall p :: p in a.participants ==> p > 0)
      && (forall i, j :: 0 <= i < j < |a.participants| ==> a.participants[i] != a.participants[j])
      && a.state in {Planned, WaitingReady, Active, Completed, Voided, Cancelled} && TimesFit(a)
  {
    if a.Valid() {
      forall at | Some(at) in {a.startedAt, a.finishedAt, a.retainedAt} ensures at.instant != 0 && at.utc {}
    } else if TimesFit(a) {
      forall t | t in {a.startedAt, a.finishedAt, a.retainedAt} && t.Some?
        ensures ValidTime(t)
      {
        assert Some(t.value) in {a.startedAt, a.finishedAt, a.retainedAt};
      }
    }
  }

  /** Which of the two errors an invalid group has: its own faults come before those of its attempts. */
  lemma FailureTells(g: Group)
    ensures Failure(g) == Some(InvalidGroup) <==> !GroupOk(g)
    ensures Failure(g) == Some(InvalidAttempt) <==> GroupOk(g) && !AttemptsOk(g)
    ensures Failure(g) == None <==> GroupOk(g) && AttemptsOk(g)
  {
  }

  lemma UnknownIsNotFound(g: Group, c: Call)
    requires Failure(g).None?
    ensures c.Retain? && (forall a :: a in g.attempts ==> a.id != c.attempt) ==> Apply(g, c) == Err(AttemptNotFound)
    ensures c.Exclude? && (forall m :: m in g.members ==> m.participant != c.participant) ==>
      Apply(g, c) == Err(ParticipantNotFound)
    ensures c.Establish? ==> Apply(g, c) == Ok(Change(g.(established := true), !g.established))
  {
  }

  /** Retaining attempt k: only an attempt that has not started can be retained, it is the last one, and it keeps the
      first time it is given. */
  lemma {:induction false} RetainExactly(g: Group, k: nat, at: Time)
    requires Failure(g).None? && k < |g.attempts|
    ensures var a, r := g.attempts[k], Apply(g, Retain(g.attempts[k].id, at));
      if a.state !in {Planned, WaitingReady} then r == Err(AttemptAlreadyStarted)
      else
        && k == |g.attempts| - 1
        && (if a.retainedAt.Some? then r == Ok(Change(g, false))
            else if at.instant == 0 || !at.utc then r == Err(InvalidAttempt)
            else r == Ok(Change(g.(attempts := g.attempts[k := a.(retainedAt := Some(at))]), true)))
  {
    var a := g.attempts[k];
    assert Placed(g, k) && AttemptIds(g.attempts)[k] == a.id;
    AttemptValidExactly(a);
    forall b | b in g.attempts && b.id == a.id
      ensures b == a
    {
      var i :| 0 <= i < |g.attempts| && g.attempts[i] == b;
      DistinctAttempt(g, i, k);
    }
    assert a in g.attempts;
    if a.state in {Planned, WaitingReady} { RetainingTouchesLast(g, a.id, at, k); }
  }

  /** Excluding member k sets its mark alone, once. */
  lemma {:induction false} ExcludeExactly(g: Group, k: nat)
    requires Failure(g).None? && k < |g.members|
    ensures Apply(g, Exclude(g.members[k].participant))
      == Ok(Change(g.(members := g.members[k := g.members[k].(excluded := true)]), !g.members[k].excluded))
  {
    var m := g.members[k];
    assert Participants(g.members)[k] == m.participant;
    forall i | 0 <= i < |g.members| && g.members[i].participant == m.participant
      ensures i == k
    {
      DistinctMember(g, i, k);
    }
    assert Excluding(g.members, m.participant) == g.members[k := m.(excluded := true)];
    if !m.excluded { assert m in g.members; }
  }
}
