/** The pairing of a Swiss round: a backtracking search for a complete matching without repeated meetings. */
module SwissMatching {
  import opened Foundation
  import opened Ordering

  const MIN_PARTICIPANTS := 4
  const MAX_PARTICIPANTS := 16

  datatype Pair = Pair(first: Id, second: Id)

  /** An unordered pair. */
  datatype PairKey = PairKey(first: Id, second: Id)

  function Key(a: Id, b: Id): PairKey { if a > b then PairKey(b, a) else PairKey(a, b) }

  lemma KeyIsUnordered(a: Id, b: Id, c: Id, d: Id)
    ensures Key(a, b) == Key(c, d) <==> (a == c && b == d) || (a == d && b == c)
    ensures Key(a, b).first <= Key(a, b).second && {Key(a, b).first, Key(a, b).second} == {a, b}
  {
  }

  function Met(m: Pair): PairKey { Key(m.first, m.second) }

  // ---------------------------------------------------------------- matchings

  function Members(m: seq<Pair>): multiset<Id> {
    if m == [] then multiset{} else multiset{m[0].first, m[0].second} + Members(m[1..])
  }

  function Meetings(m: seq<Pair>): multiset<PairKey> {
    if m == [] then multiset{} else multiset{Met(m[0])} + Meetings(m[1..])
  }

  /** Everybody plays exactly once, and nobody meets an opponent again. Neither the order of the pairs nor the order
      inside a pair matters. */
  ghost predicate IsMatching(ids: seq<Id>, blocked: set<PairKey>, m: seq<Pair>) {
    Members(m) == multiset(ids) && forall i :: 0 <= i < |m| ==> Met(m[i]) !in blocked
  }

  /** The list without its first entry and without entry c. */
  function Remaining(ids: seq<Id>, c: nat): seq<Id>
    requires 1 <= c < |ids|
  {
    ids[1..c] + ids[c + 1..]
  }

  lemma RemainingMembers(ids: seq<Id>, c: nat)
    requires 1 <= c < |ids|
    ensures multiset(ids) == multiset{ids[0], ids[c]} + multiset(Remaining(ids, c))
  {
    assert ids == [ids[0]] + ids[1..c] + [ids[c]] + ids[c + 1..];
  }

  lemma Regroup<T>(a: multiset<T>, p: multiset<T>, b: multiset<T>)
    ensures p + (a + b) == (p + a) + b && a + (p + b) == p + (a + b)
  {
  }

  lemma {:induction false} JoinedMembers(a: seq<Pair>, b: seq<Pair>)
    ensures Members(a + b) == Members(a) + Members(b)
  {
    if a == [] {
      assert a + b == b;
    } else {
      assert (a + b)[1..] == a[1..] + b;
      JoinedMembers(a[1..], b);
      Regroup(Members(a[1..]), multiset{a[0].first, a[0].second}, Members(b));
    }
  }

  lemma {:induction false} JoinedMeetings(a: seq<Pair>, b: seq<Pair>)
    ensures Meetings(a + b) == Meetings(a) + Meetings(b)
  {
    if a == [] {
      assert a + b == b;
    } else {
      assert (a + b)[1..] == a[1..] + b;
      JoinedMeetings(a[1..], b);
      Regroup(Meetings(a[1..]), multiset{Met(a[0])}, Meetings(b));
    }
  }

  lemma {:induction false} WithoutPair(m: seq<Pair>, k: nat)
    requires k < |m|
    ensures Members(m) == multiset{m[k].first, m[k].second} + Members(m[..k] + m[k + 1..])
  {
    assert m == m[..k] + m[k..] && m[k..][1..] == m[k + 1..];
    JoinedMembers(m[..k], m[k..]);
    JoinedMembers(m[..k], m[k + 1..]);
    Regroup(Members(m[..k]), multiset{m[k].first, m[k].second}, Members(m[k + 1..]));
  }

  lemma {:induction false} WithoutMeeting(m: seq<Pair>, k: nat)
    requires k < |m|
    ensures Meetings(m) == multiset{Met(m[k])} + Meetings(m[..k] + m[k + 1..])
  {
    assert m == m[..k] + m[k..] && m[k..][1..] == m[k + 1..];
    JoinedMeetings(m[..k], m[k..]);
    JoinedMeetings(m[..k], m[k + 1..]);
    Regroup(Meetings(m[..k]), multiset{Met(m[k])}, Meetings(m[k + 1..]));
  }

  lemma Opponent(p: Pair, id: Id) returns (other: Id)
    requires p.first == id || p.second == id
    ensures multiset{p.first, p.second} == multiset{id, other} && Met(p) == Key(id, other)
  {
    other := if p.first == id then p.second else p.first;
  }

  lemma Cancel<T>(a: multiset<T>, b: multiset<T>, c: multiset<T>)
    requires a + b == a + c
    ensures b == c
  {
    assert b == (a + b) - a && c == (a + c) - a;
  }

  /** Who is paired with the first participant is somebody later, and the rest are the others. */
  lemma PeelMembers(ids: seq<Id>, other: Id, rest: multiset<Id>) returns (c: nat)
    requires ids != [] && multiset(ids) == multiset{ids[0], other} + rest
    ensures 1 <= c < |ids| && ids[c] == other && multiset(Remaining(ids, c)) == rest
  {
    assert ids == [ids[0]] + ids[1..];
    assert multiset{ids[0], other} + rest == multiset{ids[0]} + (multiset{other} + rest);
    Cancel(multiset{ids[0]}, multiset(ids[1..]), multiset{other} + rest);
    assert other in multiset(ids[1..]);
    var i :| 0 <= i < |ids[1..]| && ids[1..][i] == other;
    c := i + 1;
    RemainingMembers(ids, c);
    Cancel(multiset{ids[0], other}, multiset(Remaining(ids, c)), rest);
  }

  lemma {:induction false} MemberHasPair(m: seq<Pair>, id: Id) returns (k: nat)
    requires id in Members(m)
    ensures k < |m| && (m[k].first == id || m[k].second == id)
  {
    if m[0].first == id || m[0].second == id {
      k := 0;
    } else {
      var j := MemberHasPair(m[1..], id);
      k := j + 1;
    }
  }

  /** Every matching pairs the first participant with somebody later, and matches the rest. */
  lemma {:induction false} MatchingPeels(ids: seq<Id>, blocked: set<PairKey>, m: seq<Pair>)
    returns (c: nat, rest: seq<Pair>)
    requires IsMatching(ids, blocked, m) && ids != []
    ensures 1 <= c < |ids| && Key(ids[0], ids[c]) !in blocked && IsMatching(Remaining(ids, c), blocked, rest)
    ensures Meetings(m) == multiset{Key(ids[0], ids[c])} + Meetings(rest)
  {
    assert ids[0] in multiset(ids);
    var k := MemberHasPair(m, ids[0]);
    WithoutPair(m, k);
    WithoutMeeting(m, k);
    rest := m[..k] + m[k + 1..];
    var other := Opponent(m[k], ids[0]);
    c := PeelMembers(ids, other, Members(rest));
    assert Met(m[k]) !in blocked;
    forall i | 0 <= i < |rest| ensures Met(rest[i]) !in blocked { assert rest[i] == m[if i < k then i else i + 1]; }
  }

  // ---------------------------------------------------------------- the choices of the search

  /** At each level the place of the opponent of the first participant among those left. */
  ghost predicate Legal(ids: seq<Id>, blocked: set<PairKey>, choices: seq<nat>)
    decreases |choices|
  {
    if ids == [] then choices == []
    else
      && choices != [] && 1 <= choices[0] < |ids|
      && Key(ids[0], ids[choices[0]]) !in blocked
      && Legal(Remaining(ids, choices[0]), blocked, choices[1..])
  }

  ghost function Chosen(ids: seq<Id>, blocked: set<PairKey>, choices: seq<nat>): seq<Pair>
    requires Legal(ids, blocked, choices)
    decreases |choices|
  {
    if ids == [] then []
    else [Pair(ids[0], ids[choices[0]])] + Chosen(Remaining(ids, choices[0]), blocked, choices[1..])
  }

  lemma {:induction false} ChosenNext(ids: seq<Id>, blocked: set<PairKey>, c: nat, choices: seq<nat>)
    requires 1 <= c < |ids| && Key(ids[0], ids[c]) !in blocked && Legal(Remaining(ids, c), blocked, choices)
    ensures Legal(ids, blocked, [c] + choices)
    ensures Chosen(ids, blocked, [c] + choices) == [Pair(ids[0], ids[c])] + Chosen(Remaining(ids, c), blocked, choices)
    ensures IsMatching(ids, blocked, Chosen(ids, blocked, [c] + choices))
  {
    assert ([c] + choices)[1..] == choices;
    ChosenIsMatching(ids, blocked, [c] + choices);
  }

  lemma {:induction false} ChosenIsMatching(ids: seq<Id>, blocked: set<PairKey>, choices: seq<nat>)
    requires Legal(ids, blocked, choices)
    ensures IsMatching(ids, blocked, Chosen(ids, blocked, choices))
    decreases |choices|
  {
    if ids != [] {
      var c := choices[0];
      ChosenIsMatching(Remaining(ids, c), blocked, choices[1..]);
      RemainingMembers(ids, c);
      var rest := Chosen(Remaining(ids, c), blocked, choices[1..]);
      assert ([Pair(ids[0], ids[c])] + rest)[1..] == rest;
    }
  }

  /** Every matching, however it is written, is what some choices lead to. */
  lemma {:induction false} MatchingIsChosen(ids: seq<Id>, blocked: set<PairKey>, m: seq<Pair>)
    returns (choices: seq<nat>)
    requires IsMatching(ids, blocked, m)
    ensures Legal(ids, blocked, choices) && Meetings(Chosen(ids, blocked, choices)) == Meetings(m)
    decreases |ids|
  {
    if ids == [] {
      choices := [];
      if m != [] { PairsHaveMembers(m); }
    } else {
      var c, rest := MatchingPeels(ids, blocked, m);
      var more := MatchingIsChosen(Remaining(ids, c), blocked, rest);
      choices := [c] + more;
      assert choices[1..] == more;
      var tail := Chosen(Remaining(ids, c), blocked, more);
      assert ([Pair(ids[0], ids[c])] + tail)[1..] == tail;
    }
  }

  lemma PairsHaveMembers(m: seq<Pair>)
    requires m != []
    ensures Members(m) != multiset{}
  {
    assert m[0].first in Members(m);
  }

  ghost predicate Impossible(ids: seq<Id>, blocked: set<PairKey>) {
    forall m {:trigger IsMatching(ids, blocked, m)} :: !IsMatching(ids, blocked, m)
  }

  /** No legal choices come before these. */
  ghost predicate First(ids: seq<Id>, blocked: set<PairKey>, choices: seq<nat>) {
    && Legal(ids, blocked, choices)
    && forall other: seq<nat> {:trigger Legal(ids, blocked, other)} ::
      Legal(ids, blocked, other) ==> !LexLess(other, choices)
  }

  /** Pairing the first participant with entry c leads nowhere. */
  ghost predicate DeadEnd(ids: seq<Id>, blocked: set<PairKey>, c: nat)
    requires 1 <= c < |ids|
  {
    Key(ids[0], ids[c]) in blocked || Impossible(Remaining(ids, c), blocked)
  }

  lemma {:induction false} LeadsSomewhere(ids: seq<Id>, blocked: set<PairKey>, m: seq<Pair>) returns (c: nat)
    requires ids != [] && IsMatching(ids, blocked, m)
    ensures 1 <= c < |ids| && !DeadEnd(ids, blocked, c)
  {
    var rest;
    c, rest := MatchingPeels(ids, blocked, m);
    assert IsMatching(Remaining(ids, c), blocked, rest);
  }

  lemma {:induction false} AllDeadEnds(ids: seq<Id>, blocked: set<PairKey>)
    requires ids != [] && forall c :: 1 <= c < |ids| ==> DeadEnd(ids, blocked, c)
    ensures Impossible(ids, blocked)
  {
    forall m | IsMatching(ids, blocked, m)
      ensures false
    {
      var c := LeadsSomewhere(ids, blocked, m);
    }
  }

  lemma {:induction false} LegalIsLive(ids: seq<Id>, blocked: set<PairKey>, choices: seq<nat>)
    requires ids != [] && Legal(ids, blocked, choices)
    ensures choices != [] && 1 <= choices[0] < |ids| && !DeadEnd(ids, blocked, choices[0])
    ensures Legal(Remaining(ids, choices[0]), blocked, choices[1..])
  {
    var rest := Remaining(ids, choices[0]);
    ChosenIsMatching(rest, blocked, choices[1..]);
    assert IsMatching(rest, blocked, Chosen(rest, blocked, choices[1..]));
  }

  lemma {:induction false} FirstExtends(ids: seq<Id>, blocked: set<PairKey>, c: nat, choices: seq<nat>)
    requires 1 <= c < |ids| && Key(ids[0], ids[c]) !in blocked && First(Remaining(ids, c), blocked, choices)
    requires forall b :: 1 <= b < c ==> DeadEnd(ids, blocked, b)
    ensures First(ids, blocked, [c] + choices)
  {
    assert ([c] + choices)[1..] == choices;
    forall other: seq<nat> | Legal(ids, blocked, other)
      ensures !LexLess(other, [c] + choices)
    {
      LegalIsLive(ids, blocked, other);
    }
  }

  // ---------------------------------------------------------------- the search

  /** The matching that the first legal choices lead to. */
  ghost predicate IsFirst(ids: seq<Id>, blocked: set<PairKey>, choices: seq<nat>, m: seq<Pair>) {
    First(ids, blocked, choices) && m == Chosen(ids, blocked, choices) && IsMatching(ids, blocked, m)
  }

  lemma NothingToMatch(blocked: set<PairKey>)
    ensures IsFirst([], blocked, [], [])
  {
  }

  lemma {:induction false} FirstFound(ids: seq<Id>, blocked: set<PairKey>, c: nat, choices: seq<nat>, tail: seq<Pair>)
    requires 1 <= c < |ids| && Key(ids[0], ids[c]) !in blocked && IsFirst(Remaining(ids, c), blocked, choices, tail)
    requires forall b :: 1 <= b < c ==> DeadEnd(ids, blocked, b)
    ensures IsFirst(ids, blocked, [c] + choices, [Pair(ids[0], ids[c])] + tail)
  {
    FirstExtends(ids, blocked, c, choices);
    ChosenNext(ids, blocked, c, choices);
  }

  /** First choices are first: there is only one such matching. */
  lemma FirstIsUnique(ids: seq<Id>, blocked: set<PairKey>, choices: seq<nat>, m: seq<Pair>, choices': seq<nat>,
                      m': seq<Pair>)
    requires IsFirst(ids, blocked, choices, m) && IsFirst(ids, blocked, choices', m')
    ensures choices == choices' && m == m'
  {
    LexTrichotomy(choices, choices');
  }

  lemma {:induction false} LeastLive(ids: seq<Id>, blocked: set<PairKey>, live: nat) returns (c: nat)
    requires 1 <= live < |ids| && !DeadEnd(ids, blocked, live)
    ensures 1 <= c < |ids| && !DeadEnd(ids, blocked, c) && forall b :: 1 <= b < c ==> DeadEnd(ids, blocked, b)
    decreases live
  {
    c := live;
    if b :| 1 <= b < live && !DeadEnd(ids, blocked, b) { c := LeastLive(ids, blocked, b); }
  }

  /** Where there is a matching, some choices are the first. */
  lemma {:induction false} FirstExists(ids: seq<Id>, blocked: set<PairKey>, m: seq<Pair>)
    returns (choices: seq<nat>, first: seq<Pair>)
    requires IsMatching(ids, blocked, m)
    ensures IsFirst(ids, blocked, choices, first)
    decreases |ids|
  {
    if ids == [] {
      NothingToMatch(blocked);
      choices, first := [], [];
    } else {
      var live := LeadsSomewhere(ids, blocked, m);
      var c := LeastLive(ids, blocked, live);
      var rest :| IsMatching(Remaining(ids, c), blocked, rest);
      var more, tail := FirstExists(Remaining(ids, c), blocked, rest);
      FirstFound(ids, blocked, c, more, tail);
      choices, first := [c] + more, [Pair(ids[0], ids[c])] + tail;
    }
  }

  /** Tries the opponents of the first participant in order. A matching is found exactly when there is one, and it
      is the one whose choices come first. */
  method {:induction false} Search(ids: seq<Id>, blocked: set<PairKey>)
    returns (r: Option<seq<Pair>>, ghost choices: seq<nat>)
    ensures r.None? ==> Impossible(ids, blocked)
    ensures r.Some? ==> IsFirst(ids, blocked, choices, r.value)
    decreases |ids|
  {
    if |ids| == 0 {
      NothingToMatch(blocked);
      return Some([]), [];
    }
    var first := ids[0];
    for candidateIndex := 1 to |ids|
      invariant forall c :: 1 <= c < candidateIndex ==> DeadEnd(ids, blocked, c)
    {
      var second := ids[candidateIndex];
      if Key(first, second) in blocked {
        continue;
      }
      var remaining := ids[1..candidateIndex] + ids[candidateIndex + 1..];
      var tail, rest := Search(remaining, blocked);
      if tail.Some? {
        FirstFound(ids, blocked, candidateIndex, rest, tail.value);
        return Some([Pair(first, second)] + tail.value), [candidateIndex] + rest;
      }
    }
    AllDeadEnds(ids, blocked);
    return None, [];
  }

  datatype SwissError = InvalidMatching | MatchingImpossible

  ghost predicate EligibleOk(ids: seq<Id>) {
    MIN_PARTICIPANTS <= |ids| <= MAX_PARTICIPANTS && |ids| % 2 == 0 && 0 !in ids && Distinct(ids)
  }

  method ValidateEligible(ids: seq<Id>) returns (ok: bool)
    ensures ok <==> EligibleOk(ids)
    ensures ok <==> 4 <= |ids| <= 16 && |ids| % 2 == 0 && 0 !in ids && Distinct(ids)
  {
    if |ids| < MIN_PARTICIPANTS || |ids| > MAX_PARTICIPANTS || |ids| % 2 != 0 {
      return false;
    }
    var seen: set<Id> := {};
    for i := 0 to |ids|
      invariant seen == set k | 0 <= k < i :: ids[k]
      invariant 0 !in ids[..i] && Distinct(ids[..i])
    {
      if ids[i] == 0 || ids[i] in seen {
        return false;
      }
      assert ids[..i + 1] == ids[..i] + [ids[i]];
      seen := seen + {ids[i]};
    }
    assert ids[..|ids|] == ids;
    ok := true;
  }

  predicate MeetingOk(m: Pair) { m.first != 0 && m.second != 0 && m.first != m.second }

  function MetPairs(meetings: seq<Pair>): set<PairKey> { set m | m in meetings :: Met(m) }

  lemma MetPairsNext(meetings: seq<Pair>, m: Pair)
    ensures MetPairs(meetings + [m]) == MetPairs(meetings) + {Met(m)}
  {
    forall key | key in MetPairs(meetings) + {Met(m)}
      ensures key in MetPairs(meetings + [m])
    {
      var n :| n in meetings + [m] && Met(n) == key;
    }
  }

  lemma MetPairsTell(meetings: seq<Pair>)
    ensures forall a, b :: Key(a, b) in MetPairs(meetings) <==> Pair(a, b) in meetings || Pair(b, a) in meetings
  {
    forall a, b
      ensures Key(a, b) in MetPairs(meetings) <==> Pair(a, b) in meetings || Pair(b, a) in meetings
    {
      if Pair(a, b) in meetings { assert Met(Pair(a, b)) == Key(a, b); }
      if Pair(b, a) in meetings { assert Met(Pair(b, a)) == Key(a, b); }
      if Key(a, b) in MetPairs(meetings) {
        var m :| m in meetings && Met(m) == Key(a, b);
        KeyIsUnordered(a, b, m.first, m.second);
        assert m == Pair(m.first, m.second);
      }
    }
  }

  /** The pairs that have met, as a set of unordered pairs. */
  method PreviousMeetingSet(meetings: seq<Pair>) returns (r: Option<set<PairKey>>)
    ensures r.Some? <==> forall m :: m in meetings ==> MeetingOk(m)
    ensures r.Some? <==> forall m :: m in meetings ==> m.first > 0 && m.second > 0 && m.first != m.second
    ensures r.Some? ==> r.value == MetPairs(meetings)
    ensures r.Some? ==> forall a, b :: Key(a, b) in r.value <==> Pair(a, b) in meetings || Pair(b, a) in meetings
  {
    var keys: set<PairKey> := {};
    for i := 0 to |meetings|
      invariant forall m :: m in meetings[..i] ==> MeetingOk(m)
      invariant keys == MetPairs(meetings[..i])
    {
      var m := meetings[i];
      if !MeetingOk(m) {
        return None;
      }
      assert meetings[..i + 1] == meetings[..i] + [m];
      MetPairsNext(meetings[..i], m);
      keys := keys + {Key(m.first, m.second)};
    }
    assert meetings[..|meetings|] == meetings;
    MetPairsTell(meetings);
    r := Some(keys);
  }

  /** The participants of a pair have not met before, in either order. */
  predicate NewMeeting(meetings: seq<Pair>, m: Pair) { m !in meetings && Pair(m.second, m.first) !in meetings }

  ghost predicate IsRound(ids: seq<Id>, meetings: seq<Pair>, m: seq<Pair>) {
    Members(m) == multiset(ids) && forall i :: 0 <= i < |m| ==> NewMeeting(meetings, m[i])
  }

  /** The round whose choices come first, if there is any round. */
  ghost function FirstRound(ids: seq<Id>, meetings: seq<Pair>): Option<seq<Pair>> {
    if choices, m :| IsFirst(ids, MetPairs(meetings), choices, m) then Some(m) else None
  }

  lemma FirstRoundIs(ids: seq<Id>, meetings: seq<Pair>, choices: seq<nat>, m: seq<Pair>)
    requires IsFirst(ids, MetPairs(meetings), choices, m)
    ensures FirstRound(ids, meetings) == Some(m)
  {
    var first := FirstRound(ids, meetings).value;
    var choices' :| IsFirst(ids, MetPairs(meetings), choices', first);
    FirstIsUnique(ids, MetPairs(meetings), choices, m, choices', first);
  }

  lemma {:induction false} FirstRoundIsRound(ids: seq<Id>, meetings: seq<Pair>)
    ensures FirstRound(ids, meetings).Some? ==> IsRound(ids, meetings, FirstRound(ids, meetings).value)
    ensures FirstRound(ids, meetings).None? ==>
      forall m {:trigger IsRound(ids, meetings, m)} :: !IsRound(ids, meetings, m)
  {
    MetPairsTell(meetings);
    if FirstRound(ids, meetings).Some? {
      SameRounds(ids, meetings, MetPairs(meetings), FirstRound(ids, meetings).value);
    }
    forall m | IsRound(ids, meetings, m)
      ensures FirstRound(ids, meetings).Some?
    {
      SameRounds(ids, meetings, MetPairs(meetings), m);
      var choices, first := FirstExists(ids, MetPairs(meetings), m);
    }
  }

  /** For a proper field and proper earlier meetings a round is found exactly when there is one, and it is the one
      whose choices come first. */
  method FindMatching(ids: seq<Id>, meetings: seq<Pair>) returns (r: Result<seq<Pair>, SwissError>)
    ensures r == Err(InvalidMatching) <==> !EligibleOk(ids) || exists m :: m in meetings && !MeetingOk(m)
    ensures r == Err(InvalidMatching) <==>
      || !(4 <= |ids| <= 16 && |ids| % 2 == 0 && 0 !in ids && Distinct(ids))
      || exists m :: m in meetings && (m.first == 0 || m.second == 0 || m.first == m.second)
    ensures r.Ok? ==> IsRound(ids, meetings, r.value) && FirstRound(ids, meetings) == Some(r.value)
    ensures r == Err(MatchingImpossible) ==> forall m {:trigger IsRound(ids, meetings, m)} :: !IsRound(ids, meetings, m)
  {
    var ok := ValidateEligible(ids);
    if !ok {
      return Err(InvalidMatching);
    }
    var blocked := PreviousMeetingSet(meetings);
    if blocked.None? {
      return Err(InvalidMatching);
    }
    var matching, choices := Search(ids, blocked.value);
    forall m
      ensures IsMatching(ids, blocked.value, m) <==> IsRound(ids, meetings, m)
    {
      SameRounds(ids, meetings, blocked.value, m);
    }
    if matching.Some? { FirstRoundIs(ids, meetings, choices, matching.value); }
    r := if matching.Some? then Ok(matching.value) else Err(MatchingImpossible);
  }

  lemma {:induction false} SameRounds(ids: seq<Id>, meetings: seq<Pair>, blocked: set<PairKey>, m: seq<Pair>)
    requires forall a, b :: Key(a, b) in blocked <==> Pair(a, b) in meetings || Pair(b, a) in meetings
    ensures IsMatching(ids, blocked, m) <==> IsRound(ids, meetings, m)
  {
    forall i | 0 <= i < |m|
      ensures Met(m[i]) !in blocked <==> NewMeeting(meetings, m[i])
    {
      assert Met(m[i]) == Key(m[i].first, m[i].second);
      assert m[i] == Pair(m[i].first, m[i].second);
    }
  }
}
