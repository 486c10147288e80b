/** The automatic pairing of a Swiss round: participants and earlier meetings become the inputs of a decision record,
    whose replayed order is read back and paired, so that the record alone reproduces the pairing. */
module AutomaticPairings {
  import opened Foundation
  import opened Ordering
  import opened DecisionEvidence
  import opened SwissMatching

  const PARTICIPANT_PREFIX: Bytes := Ascii("participant:")
  const MEETING_PREFIX: Bytes := Ascii("meeting:")
  const COLON: Byte := 58
  const DASH: Byte := 45

  /** One past the largest identity of 128 bits. */
  const ID_LIMIT := Pow256(16)

  /** Reads the text of an identity. */
  type Parser = Bytes -> Option<Id>

  /** What one input stands for. */
  datatype Item = Participant(id: Id) | Meeting(meeting: Pair) | Unreadable {
    predicate Known() {
      match this
      case Participant(id) => id < ID_LIMIT
      case Meeting(m) => m.first < ID_LIMIT && m.second < ID_LIMIT
      case Unreadable => false
    }
  }

  // ---------------------------------------------------------------- writing and reading inputs

  function Line(lib: Library, item: Item): Bytes {
    match item
    case Participant(id) => PARTICIPANT_PREFIX + lib.idText(id)
    case Meeting(m) => MEETING_PREFIX + (lib.idText(m.first) + [COLON] + lib.idText(m.second))
    case Unreadable => []
  }

  function Writer(lib: Library): Item -> Bytes { (item: Item) => Line(lib, item) }

  /** The fields between colons, as strings.Split returns them. */
  function Split(value: Bytes): (fields: seq<Bytes>)
    ensures fields != []
  {
    if value == [] then [[]]
    else
      var rest := Split(value[1..]);
      if value[0] == COLON then [[]] + rest else [[value[0]] + rest[0]] + rest[1..]
  }

  function ReadMeeting(parse: Parser, value: Bytes): Item {
    var parts := Split(value);
    if |parts| != 2 then Unreadable
    else
      var first, second := parse(parts[0]), parse(parts[1]);
      if first.None? || second.None? then Unreadable else Meeting(Pair(first.value, second.value))
  }

  function Read(parse: Parser, value: Bytes): Item {
    if PARTICIPANT_PREFIX <= value then
      match parse(value[|PARTICIPANT_PREFIX|..]) case Some(id) => Participant(id) case None => Unreadable
    else if MEETING_PREFIX <= value then ReadMeeting(parse, value[|MEETING_PREFIX|..])
    else Unreadable
  }

  function Reader(parse: Parser): Bytes -> Item { (value: Bytes) => Read(parse, value) }

  /** What is assumed of the texts of identities: they are read back, contain no colon, and make lines that are
      trimmed, proper UTF-8 and of a length that a Go string can have. */
  ghost predicate TextsOk(lib: Library, parse: Parser) {
    && (forall id: Id :: id < ID_LIMIT ==> parse(lib.idText(id)) == Some(id) && COLON !in lib.idText(id))
    && (forall item: Item :: item.Known() ==> PlainLine(lib, Line(lib, item)))
  }

  ghost predicate PlainLine(lib: Library, line: Bytes) {
    lib.trim(line) == line && lib.validUtf8(line) && |line| < Pow256(PREFIX_SIZE)
  }

  lemma {:induction false} SplitOne(value: Bytes)
    requires COLON !in value
    ensures Split(value) == [value]
  {
    if value != [] {
      SplitOne(value[1..]);
      assert value == [value[0]] + value[1..];
    }
  }

  lemma {:induction false} SplitAtColon(a: Bytes, b: Bytes)
    requires COLON !in a
    ensures Split(a + [COLON] + b) == [a] + Split(b)
  {
    var value := a + [COLON] + b;
    if a == [] {
      assert value[1..] == b;
    } else {
      assert value[1..] == a[1..] + [COLON] + b && value[0] == a[0];
      SplitAtColon(a[1..], b);
      assert a == [a[0]] + a[1..];
    }
  }

  /** Reading undoes writing. */
  lemma ReadLine(lib: Library, parse: Parser, item: Item)
    requires TextsOk(lib, parse) && item.Known()
    ensures Read(parse, Line(lib, item)) == item && Line(lib, item) != []
  {
    var line := Line(lib, item);
    match item
    case Participant(id) =>
      assert line[|PARTICIPANT_PREFIX|..] == lib.idText(id);
    case Meeting(m) =>
      var value := lib.idText(m.first) + [COLON] + lib.idText(m.second);
      assert line[0] == MEETING_PREFIX[0] && line[|MEETING_PREFIX|..] == value;
      SplitAtColon(lib.idText(m.first), lib.idText(m.second));
      SplitOne(lib.idText(m.second));
  }

  // ---------------------------------------------------------------- the inputs of a field

  /** The pair with the smaller identity first. */
  function Ordered(m: Pair): Pair { Pair(Met(m).first, Met(m).second) }

  lemma OrderedTells(m: Pair, n: Pair)
    ensures Ordered(m) == Ordered(n) <==> Met(m) == Met(n)
    ensures Ordered(m) == Ordered(n) ==>
      (m.first == n.first && m.second == n.second) || (m.first == n.second && m.second == n.first)
    ensures Ordered(m) == if m.first <= m.second then m else Pair(m.second, m.first)
  {
  }

  function Items(ids: seq<Id>, pairs: seq<Pair>): seq<Item> {
    seq(|ids| + |pairs|, i requires 0 <= i < |ids| + |pairs| =>
      if i < |ids| then Participant(ids[i]) else Meeting(pairs[i - |ids|]))
  }

  function Lines(lib: Library, ids: seq<Id>, meetings: seq<Pair>): seq<Bytes> {
    Mapped(Items(ids, Mapped(meetings, Ordered)), Writer(lib))
  }

  ghost predicate Involves(ids: seq<Id>, m: Pair) { MeetingOk(m) && m.first in ids && m.second in ids }

  /** The meetings are between participants, and no two are the same. */
  ghost predicate MeetingsOk(ids: seq<Id>, meetings: seq<Pair>) {
    (forall m :: m in meetings ==> Involves(ids, m)) && Distinct(Mapped(meetings, Ordered))
  }

  ghost predicate FieldOk(ids: seq<Id>, meetings: seq<Pair>) {
    EligibleOk(ids) && MeetingsOk(ids, meetings)
  }

  predicate Real(ids: seq<Id>) { forall id :: id in ids ==> id < ID_LIMIT }

  method ParticipantInputs(lib: Library, ids: seq<Id>) returns (inputs: seq<Bytes>, eligible: set<Id>)
    ensures |inputs| == |ids| && forall k :: 0 <= k < |ids| ==> inputs[k] == Line(lib, Participant(ids[k]))
    ensures forall id :: id in eligible <==> id in ids
  {
    inputs, eligible := [], {};
    for i := 0 to |ids|
      invariant forall id :: id in eligible <==> id in ids[..i]
      invariant |inputs| == i && forall k :: 0 <= k < i ==> inputs[k] == Line(lib, Participant(ids[k]))
    {
      assert ids[..i + 1] == ids[..i] + [ids[i]];
      eligible := eligible + {ids[i]};
      inputs := inputs + [PARTICIPANT_PREFIX + lib.idText(ids[i])];
    }
    assert ids[..|ids|] == ids;
  }

  lemma MeetingsNext(ids: seq<Id>, meetings: seq<Pair>, m: Pair)
    requires MeetingsOk(ids, meetings) && Involves(ids, m)
    ensures MeetingsOk(ids, meetings + [m]) <==> Met(m) !in MetPairs(meetings)
  {
    var keys, more := Mapped(meetings, Ordered), Mapped(meetings + [m], Ordered);
    assert more == keys + [Ordered(m)];
    forall k | 0 <= k < |meetings| ensures Met(meetings[k]) == Met(m) <==> keys[k] == more[|meetings|] {
      OrderedTells(meetings[k], m);
    }
    if Met(m) in MetPairs(meetings) {
      var k :| 0 <= k < |meetings| && Met(meetings[k]) == Met(m);
      assert more[k] == more[|meetings|];
    } else {
      forall k | 0 <= k < |meetings| ensures Met(meetings[k]) != Met(m) { assert meetings[k] in meetings; }
    }
  }

  lemma MeetingsPrefix(ids: seq<Id>, meetings: seq<Pair>, n: nat)
    requires MeetingsOk(ids, meetings) && n <= |meetings|
    ensures MeetingsOk(ids, meetings[..n])
  {
    assert Mapped(meetings[..n], Ordered) == Mapped(meetings, Ordered)[..n];
  }

  method BuildInputs(lib: Library, ids: seq<Id>, meetings: seq<Pair>) returns (r: Option<seq<Bytes>>)
    ensures r.Some? <==> FieldOk(ids, meetings)
    ensures r.Some? ==> r.value == Lines(lib, ids, meetings)
  {
    var ok := ValidateEligible(ids);
    if !ok {
      return None;
    }
    var inputs, eligible := ParticipantInputs(lib, ids);
    var seen: set<PairKey> := {};
    ghost var lines := Lines(lib, ids, meetings);
    assert forall k :: 0 <= k < |ids| ==> inputs[k] == lines[k];
    for i := 0 to |meetings|
      invariant inputs == lines[..|ids| + i]
      invariant seen == MetPairs(meetings[..i]) && MeetingsOk(ids, meetings[..i])
    {
      var m := meetings[i];
      if !MeetingOk(m) || m.first !in eligible || m.second !in eligible {
        assert m in meetings && !Involves(ids, m);
        return None;
      }
      var key := Met(m);
      assert meetings[..i + 1] == meetings[..i] + [m];
      MeetingsNext(ids, meetings[..i], m);
      if key in seen {
        if FieldOk(ids, meetings) { MeetingsPrefix(ids, meetings, i + 1); }
        return None;
      }
      MetPairsNext(meetings[..i], m);
      seen := seen + {key};
      assert lines[|ids| + i] == Line(lib, Meeting(Ordered(m)));
      inputs := inputs + [MEETING_PREFIX + (lib.idText(key.first) + [COLON] + lib.idText(key.second))];
    }
    assert meetings[..|meetings|] == meetings && lines[..|ids| + |meetings|] == lines;
    r := Some(inputs);
  }

  /** The same field, however it is listed and whichever participant of a meeting is named first. */
  ghost predicate SameField(ids: seq<Id>, meetings: seq<Pair>, ids': seq<Id>, meetings': seq<Pair>) {
    && multiset(ids) == multiset(ids')
    && multiset(Mapped(meetings, Ordered)) == multiset(Mapped(meetings', Ordered))
  }

  lemma SameFieldInvolves(ids: seq<Id>, meetings: seq<Pair>, ids': seq<Id>, meetings': seq<Pair>, m: Pair)
    requires SameField(ids, meetings, ids', meetings') && FieldOk(ids, meetings) && m in meetings'
    ensures Involves(ids', m)
  {
    DistinctPermutation(ids, ids');
    var keys, keys' := Mapped(meetings, Ordered), Mapped(meetings', Ordered);
    DistinctPermutation(keys, keys');
    var j :| 0 <= j < |meetings'| && meetings'[j] == m;
    assert keys'[j] in keys;
    var i :| 0 <= i < |keys| && keys[i] == keys'[j];
    assert meetings[i] in meetings && Involves(ids, meetings[i]);
    OrderedTells(meetings[i], m);
  }

  lemma SameFieldOk(ids: seq<Id>, meetings: seq<Pair>, ids': seq<Id>, meetings': seq<Pair>)
    requires SameField(ids, meetings, ids', meetings') && FieldOk(ids, meetings)
    ensures FieldOk(ids', meetings')
  {
    DistinctPermutation(ids, ids');
    DistinctPermutation(Mapped(meetings, Ordered), Mapped(meetings', Ordered));
    forall m | m in meetings'
      ensures Involves(ids', m)
    {
      SameFieldInvolves(ids, meetings, ids', meetings', m);
    }
  }

  lemma SameMetPairs(meetings: seq<Pair>, meetings': seq<Pair>)
    requires multiset(Mapped(meetings, Ordered)) == multiset(Mapped(meetings', Ordered))
    ensures MetPairs(meetings) <= MetPairs(meetings')
  {
    var keys, keys' := Mapped(meetings, Ordered), Mapped(meetings', Ordered);
    DistinctPermutation(keys, keys');
    forall key | key in MetPairs(meetings)
      ensures key in MetPairs(meetings')
    {
      var i :| 0 <= i < |meetings| && Met(meetings[i]) == key;
      assert keys[i] in keys';
      var j :| 0 <= j < |keys'| && keys'[j] == keys[i];
      OrderedTells(meetings[i], meetings'[j]);
      assert meetings'[j] in meetings';
    }
  }

  lemma {:induction false} SameFieldRounds(ids: seq<Id>, meetings: seq<Pair>, ids': seq<Id>, meetings': seq<Pair>,
                                           m: seq<Pair>)
    requires SameField(ids, meetings, ids', meetings')
    ensures IsRound(ids, meetings, m) <==> IsRound(ids', meetings', m)
  {
    SameMetPairs(meetings, meetings');
    SameMetPairs(meetings', meetings);
    MetPairsTell(meetings);
    MetPairsTell(meetings');
    SameRounds(ids, meetings, MetPairs(meetings), m);
    SameRounds(ids', meetings', MetPairs(meetings'), m);
  }

  // ---------------------------------------------------------------- reading a permutation of the inputs back

  function Participants(items: seq<Item>): seq<Id> {
    if items == [] then []
    else
      var last := items[|items| - 1];
      Participants(items[..|items| - 1]) + (if last.Participant? then [last.id] else [])
  }

  function Opponents(items: seq<Item>): seq<Pair> {
    if items == [] then []
    else
      var last := items[|items| - 1];
      Opponents(items[..|items| - 1]) + (if last.Meeting? then [last.meeting] else [])
  }

  lemma {:induction false} CountParticipants(items: seq<Item>, id: Id)
    ensures multiset(Participants(items))[id] == multiset(items)[Participant(id)]
  {
    if items != [] {
      var n := |items| - 1;
      CountParticipants(items[..n], id);
      assert items == items[..n] + [items[n]];
    }
  }

  lemma {:induction false} CountOpponents(items: seq<Item>, m: Pair)
    ensures multiset(Opponents(items))[m] == multiset(items)[Meeting(m)]
  {
    if items != [] {
      var n := |items| - 1;
      CountOpponents(items[..n], m);
      assert items == items[..n] + [items[n]];
    }
  }

  lemma OneMore(items: seq<Item>, item: Item)
    ensures Participants(items + [item]) == Participants(items) + (if item.Participant? then [item.id] else [])
    ensures Opponents(items + [item]) == Opponents(items) + (if item.Meeting? then [item.meeting] else [])
  {
    assert (items + [item])[..|items|] == items;
  }

  lemma LastItem(ids: seq<Id>, pairs: seq<Pair>)
    ensures pairs != [] ==>
      Items(ids, pairs) == Items(ids, pairs[..|pairs| - 1]) + [Meeting(pairs[|pairs| - 1])]
    ensures pairs == [] && ids != [] ==>
      Items(ids, pairs) == Items(ids[..|ids| - 1], []) + [Participant(ids[|ids| - 1])]
  {
  }

  lemma {:induction false} SortedOut(ids: seq<Id>, pairs: seq<Pair>)
    ensures Participants(Items(ids, pairs)) == ids && Opponents(Items(ids, pairs)) == pairs
    decreases |ids| + |pairs|
  {
    LastItem(ids, pairs);
    if pairs != [] {
      var k := |pairs| - 1;
      SortedOut(ids, pairs[..k]);
      OneMore(Items(ids, pairs[..k]), Meeting(pairs[k]));
    } else if ids != [] {
      var k := |ids| - 1;
      SortedOut(ids[..k], []);
      OneMore(Items(ids[..k], []), Participant(ids[k]));
    }
  }

  lemma PermutedItems(items: seq<Item>, ids: seq<Id>, pairs: seq<Pair>)
    requires multiset(items) == multiset(Items(ids, pairs))
    ensures multiset(Participants(items)) == multiset(ids) && multiset(Opponents(items)) == multiset(pairs)
  {
    SortedOut(ids, pairs);
    forall id: Id
      ensures multiset(Participants(items))[id] == multiset(ids)[id]
    {
      CountParticipants(items, id);
      CountParticipants(Items(ids, pairs), id);
    }
    forall m: Pair
      ensures multiset(Opponents(items))[m] == multiset(pairs)[m]
    {
      CountOpponents(items, m);
      CountOpponents(Items(ids, pairs), m);
    }
  }

  lemma ItemsAreKnown(ids: seq<Id>, meetings: seq<Pair>)
    requires FieldOk(ids, meetings) && Real(ids)
    ensures forall item :: item in Items(ids, Mapped(meetings, Ordered)) ==> item.Known()
    ensures Distinct(Items(ids, Mapped(meetings, Ordered)))
  {
    var pairs := Mapped(meetings, Ordered);
    forall k | 0 <= k < |pairs|
      ensures pairs[k].first < ID_LIMIT && pairs[k].second < ID_LIMIT
    {
      assert meetings[k] in meetings && Involves(ids, meetings[k]);
      OrderedTells(meetings[k], meetings[k]);
      assert pairs[k] == Ordered(meetings[k]);
    }
    forall item | item in Items(ids, pairs)
      ensures item.Known()
    {
      var k :| 0 <= k < |ids| + |pairs| && Items(ids, pairs)[k] == item;
      if k < |ids| { assert ids[k] in ids; }
    }
  }

  lemma ReadLines(lib: Library, parse: Parser, items: seq<Item>)
    requires TextsOk(lib, parse) && forall item :: item in items ==> item.Known()
    ensures Mapped(Mapped(items, Writer(lib)), Reader(parse)) == items
  {
    forall k | 0 <= k < |items|
      ensures Read(parse, Line(lib, items[k])) == items[k]
    {
      assert items[k] in items;
      ReadLine(lib, parse, items[k]);
    }
  }

  lemma OrderedTwice(pairs: seq<Pair>, meetings: seq<Pair>)
    requires multiset(pairs) == multiset(Mapped(meetings, Ordered))
    ensures Mapped(pairs, Ordered) == pairs
  {
    DistinctPermutation(pairs, Mapped(meetings, Ordered));
    forall k | 0 <= k < |pairs|
      ensures Ordered(pairs[k]) == pairs[k]
    {
      assert pairs[k] in Mapped(meetings, Ordered);
      var j :| 0 <= j < |meetings| && Mapped(meetings, Ordered)[j] == pairs[k];
      OrderedIsOrdered(meetings[j]);
    }
  }

  lemma OrderedIsOrdered(m: Pair)
    ensures Ordered(Ordered(m)) == Ordered(m)
  {
  }

  /** Whatever order the inputs of a field come back in, what is read from them is the same field. */
  lemma {:induction false} ReadBack(lib: Library, parse: Parser, ids: seq<Id>, meetings: seq<Pair>, values: seq<Bytes>)
    requires TextsOk(lib, parse) && FieldOk(ids, meetings) && Real(ids)
    requires multiset(values) == multiset(Lines(lib, ids, meetings))
    ensures var items := Mapped(values, Reader(parse));
      Unreadable !in items && SameField(ids, meetings, Participants(items), Opponents(items))
  {
    var items := Mapped(values, Reader(parse));
    var pairs := Mapped(meetings, Ordered);
    MappedPermutation(values, Lines(lib, ids, meetings), Reader(parse));
    ItemsAreKnown(ids, meetings);
    ReadLines(lib, parse, Items(ids, pairs));
    DistinctPermutation(items, Items(ids, pairs));
    PermutedItems(items, ids, pairs);
    OrderedTwice(Opponents(items), meetings);
  }

  // ---------------------------------------------------------------- replay

  /** What is wrong when a pairing is refused. */
  datatype Cause = BadInput | BadEvidence(DecisionError) | NoMatching

  datatype PairingError = InvalidPairing(cause: Cause) | PairingMismatch

  ghost function PairingOfField(ids: seq<Id>, meetings: seq<Pair>): Result<seq<Pair>, PairingError> {
    if !FieldOk(ids, meetings) then Err(InvalidPairing(BadInput))
    else match FirstRound(ids, meetings) case None => Err(InvalidPairing(NoMatching)) case Some(m) => Ok(m)
  }

  /** The pairing of the field that these values list. */
  ghost function PairingOfValues(parse: Parser, values: seq<Bytes>): Result<seq<Pair>, PairingError> {
    var items := Mapped(values, Reader(parse));
    if Unreadable in items then Err(InvalidPairing(BadInput)) else PairingOfField(Participants(items), Opponents(items))
  }

  /** The pairing that a decision record determines. */
  ghost function PairingOf(lib: Library, parse: Parser, e: Evidence): Result<seq<Pair>, PairingError> {
    if e.purpose != Pairing then Err(InvalidPairing(BadInput))
    else match Failure(lib, e)
      case Some(failure) => Err(InvalidPairing(BadEvidence(failure)))
      case None => PairingOfValues(parse, e.result)
  }

  method ReadValues(parse: Parser, values: seq<Bytes>) returns (r: Option<(seq<Id>, seq<Pair>)>)
    ensures var items := Mapped(values, Reader(parse));
      r == if Unreadable in items then None else Some((Participants(items), Opponents(items)))
  {
    var participants: seq<Id> := [];
    var previousMeetings: seq<Pair> := [];
    ghost var items := Mapped(values, Reader(parse));
    for i := 0 to |values|
      invariant Unreadable !in items[..i]
      invariant participants == Participants(items[..i]) && previousMeetings == Opponents(items[..i])
    {
      assert items[..i + 1][..i] == items[..i];
      var item := Read(parse, values[i]);
      assert items[i] == item;
      match item {
        case Participant(id) => participants := participants + [id];
        case Meeting(m) => previousMeetings := previousMeetings + [m];
        case Unreadable => return None;
      }
    }
    assert items[..|values|] == items;
    r := Some((participants, previousMeetings));
  }

  method PairField(lib: Library, ids: seq<Id>, meetings: seq<Pair>) returns (r: Result<seq<Pair>, PairingError>)
    ensures r == PairingOfField(ids, meetings)
  {
    var inputs := BuildInputs(lib, ids, meetings);
    if inputs.None? {
      return Err(InvalidPairing(BadInput));
    }
    FieldIsProper(ids, meetings);
    var matching := FindMatching(ids, meetings);
    FirstRoundIsRound(ids, meetings);
    assert matching.Err? ==> matching.error == MatchingImpossible;
    assert matching.Err? ==> matching == Err(MatchingImpossible);
    r := if matching.Ok? then Ok(matching.value) else Err(InvalidPairing(NoMatching));
  }

  lemma FieldIsProper(ids: seq<Id>, meetings: seq<Pair>)
    requires FieldOk(ids, meetings)
    ensures EligibleOk(ids) && forall m :: m in meetings ==> MeetingOk(m)
  {
    assert forall m :: m in meetings ==> Involves(ids, m);
  }

  method ReplayEvidence(lib: Library, parse: Parser, e: Evidence) returns (r: Result<seq<Pair>, PairingError>)
    requires Fit(e.inputs) && Fit(e.result)
    ensures r == PairingOf(lib, parse, e)
  {
    if e.purpose != Pairing {
      return Err(InvalidPairing(BadInput));
    }
    var failure := Validate(lib, e);
    if failure.Some? {
      return Err(InvalidPairing(BadEvidence(failure.value)));
    }
    var field := ReadValues(parse, e.result);
    if field.None? {
      return Err(InvalidPairing(BadInput));
    }
    r := PairField(lib, field.value.0, field.value.1);
  }

  datatype AutomaticPairing = AutomaticPairing(pairings: seq<Pair>, evidence: Evidence)

  method EqualPairs(first: seq<Pair>, second: seq<Pair>) returns (equal: bool)
    ensures equal <==> first == second
  {
    if |first| != |second| {
      return false;
    }
    for i := 0 to |first|
      invariant first[..i] == second[..i]
    {
      if first[i].first != second[i].first || first[i].second != second[i].second {
        assert first[i] != second[i];
        return false;
      }
    }
    equal := true;
  }

  /** The recorded pairing, if the record's evidence determines just that. */
  method Replay(lib: Library, parse: Parser, p: AutomaticPairing) returns (r: Result<seq<Pair>, PairingError>)
    requires Fit(p.evidence.inputs) && Fit(p.evidence.result)
    ensures r == Ok(p.pairings) <==> PairingOf(lib, parse, p.evidence) == Ok(p.pairings)
    ensures r.Ok? ==> r.value == p.pairings
    ensures r.Err? && PairingOf(lib, parse, p.evidence).Ok? ==> r.error == PairingMismatch
    ensures r.Err? && PairingOf(lib, parse, p.evidence).Err? ==> r.error == PairingOf(lib, parse, p.evidence).error
  {
    r := ReplayEvidence(lib, parse, p.evidence);
    if r.Ok? {
      var equal := EqualPairs(r.value, p.pairings);
      if !equal {
        r := Err(PairingMismatch);
      }
    }
  }

  /** What each refusal says about the record: it is not for pairings or does not list a proper field, it is invalid,
      it does not replay, or its field has no round. */
  lemma {:induction false} RefusalTells(lib: Library, parse: Parser, e: Evidence)
    ensures var r, items := PairingOf(lib, parse, e), Mapped(e.result, Reader(parse));
      var field := Unreadable !in items && FieldOk(Participants(items), Opponents(items));
      var accepted := e.purpose == Pairing && Accepted(lib, e);
      && (r == Err(InvalidPairing(BadInput)) <==> e.purpose != Pairing || (accepted && !field))
      && (r == Err(InvalidPairing(BadEvidence(InvalidEvidence))) <==> e.purpose == Pairing && !WellFormed(lib, e))
      && (r == Err(InvalidPairing(BadEvidence(ReplayMismatch))) <==>
            e.purpose == Pairing && WellFormed(lib, e) && !Accepted(lib, e))
      && (r == Err(InvalidPairing(NoMatching)) <==>
            accepted && field && forall m :: !IsRound(Participants(items), Opponents(items), m))
      && (r.Ok? <==> accepted && field && exists m :: IsRound(Participants(items), Opponents(items), m))
  {
    if Accepted(lib, e) { AcceptedIsWellFormed(lib, e); }
    var items := Mapped(e.result, Reader(parse));
    FirstRoundIsRound(Participants(items), Opponents(items));
  }

  lemma AcceptedIsWellFormed(lib: Library, e: Evidence)
    requires Accepted(lib, e)
    ensures WellFormed(lib, e)
  {
    ReplayedIsPermutation(lib, e);
  }

  // ---------------------------------------------------------------- generation

  /** The record that is made of these inputs. */
  function Recorded(lib: Library, id: Id, inputs: seq<Bytes>, round: Id, decidedAt: Time, seed: Bytes): Evidence {
    var e := Evidence(id, Pairing, ALGORITHM_V1, SortBy(Trimmed(lib, inputs), BytesLess), seed, [], [], round,
                      decidedAt.ToUtc());
    var f := e.(result := Replayed(lib, e));
    f.(replayDigest := ReplayDigest(lib, f, f.result))
  }

  ghost function Generated(lib: Library, parse: Parser, id: Id, round: Id, ids: seq<Id>, meetings: seq<Pair>,
                           decidedAt: Time, seed: Option<Bytes>): Result<AutomaticPairing, PairingError>
  {
    if !FieldOk(ids, meetings) then Err(InvalidPairing(BadInput))
    else if seed.None? then Err(InvalidPairing(BadEvidence(InvalidEvidence)))
    else Completed(lib, parse, Recorded(lib, id, Lines(lib, ids, meetings), round, decidedAt, seed.value))
  }

  ghost function Completed(lib: Library, parse: Parser, e: Evidence): Result<AutomaticPairing, PairingError> {
    if !MetadataOk(e) then Err(InvalidPairing(BadEvidence(InvalidEvidence)))
    else match PairingOf(lib, parse, e)
      case Ok(pairings) => Ok(AutomaticPairing(pairings, e))
      case Err(error) => Err(error)
  }

  /** The inputs of a proper field are usable as they are, in any order. */
  lemma {:induction false} LinesAreUsable(lib: Library, parse: Parser, ids: seq<Id>, meetings: seq<Pair>,
                                          values: seq<Bytes>)
    requires TextsOk(lib, parse) && FieldOk(ids, meetings) && Real(ids)
    requires multiset(values) == multiset(Lines(lib, ids, meetings))
    ensures Usable(lib, values) && Trimmed(lib, values) == values && Fit(values)
  {
    var items := Items(ids, Mapped(meetings, Ordered));
    var lines := Lines(lib, ids, meetings);
    ItemsAreKnown(ids, meetings);
    DistinctPermutation(values, lines);
    forall i, j | 0 <= i < j < |lines|
      ensures lines[i] != lines[j]
    {
      assert items[i] in items && items[j] in items;
      ReadLine(lib, parse, items[i]);
      ReadLine(lib, parse, items[j]);
    }
    forall k | 0 <= k < |values|
      ensures PlainLine(lib, values[k]) && values[k] != []
    {
      assert values[k] in lines;
      var i :| 0 <= i < |lines| && lines[i] == values[k];
      assert items[i] in items;
      ReadLine(lib, parse, items[i]);
    }
    assert Trimmed(lib, values) == values;
  }

  lemma {:induction false} RecordedReplays(lib: Library, id: Id, inputs: seq<Bytes>, round: Id, decidedAt: Time,
                                           seed: Bytes)
    ensures var e := Recorded(lib, id, inputs, round, decidedAt, seed);
      && e.result == Replayed(lib, e) && e.replayDigest == ReplayDigest(lib, e, e.result)
      && Normalizes(lib, inputs, e.inputs)
  {
    var e := Recorded(lib, id, inputs, round, decidedAt, seed);
    var blank := e.(result := [], replayDigest := []);
    SameDecisionSameReplay(lib, blank, e);
    SameDecisionSameReplay(lib, blank.(result := e.result), e);
    BytesOrder();
    SortBySorts(Trimmed(lib, inputs), BytesLess);
  }

  /** The record made of a proper field validates, unless its digest is all zero. */
  lemma {:induction false} RecordedIsAccepted(lib: Library, parse: Parser, id: Id, round: Id, ids: seq<Id>,
                                              meetings: seq<Pair>, decidedAt: Time, seed: Bytes)
    requires TextsOk(lib, parse) && FieldOk(ids, meetings) && Real(ids)
    ensures var e := Recorded(lib, id, Lines(lib, ids, meetings), round, decidedAt, seed);
      && (MetadataOk(e) ==> WellFormed(lib, e))
      && (MetadataOk(e) && !AllZero(e.replayDigest) <==> Accepted(lib, e))
      && multiset(e.result) == multiset(Lines(lib, ids, meetings))
      && Fit(e.inputs) && Fit(e.result)
  {
    var lines := Lines(lib, ids, meetings);
    var e := Recorded(lib, id, lines, round, decidedAt, seed);
    RecordedReplays(lib, id, lines, round, decidedAt, seed);
    LinesAreUsable(lib, parse, ids, meetings, lines);
    LinesAreUsable(lib, parse, ids, meetings, e.inputs);
    ReplayedIsPermutation(lib, e);
    FitPermutation(e.result, e.inputs);
  }

  method Record(lib: Library, ghost parse: Parser, id: Id, round: Id, ghost ids: seq<Id>, ghost meetings: seq<Pair>,
                inputs: seq<Bytes>, decidedAt: Time, seed: Option<Bytes>)
    returns (r: Result<Evidence, DecisionError>)
    requires TextsOk(lib, parse) && FieldOk(ids, meetings) && Real(ids) && inputs == Lines(lib, ids, meetings)
    ensures r.Ok? <==> seed.Some? && MetadataOk(Recorded(lib, id, inputs, round, decidedAt, seed.value))
    ensures r.Ok? ==> r.value == Recorded(lib, id, inputs, round, decidedAt, seed.value)
    ensures r.Err? ==> r.error == InvalidEvidence
  {
    LinesAreUsable(lib, parse, ids, meetings, inputs);
    r := NewDecisionEvidence(lib, id, Pairing, ALGORITHM_V1, inputs, round, decidedAt, seed);
    if r.Ok? {
      RecordedReplays(lib, id, inputs, round, decidedAt, seed.value);
      RecordIsDetermined(lib, r.value, Recorded(lib, id, inputs, round, decidedAt, seed.value), inputs);
    }
  }

  method Generate(lib: Library, parse: Parser, id: Id, round: Id, ids: seq<Id>, meetings: seq<Pair>,
                  decidedAt: Time, seed: Option<Bytes>)
    returns (r: Result<AutomaticPairing, PairingError>)
    requires TextsOk(lib, parse) && Real(ids)
    ensures r == Generated(lib, parse, id, round, ids, meetings, decidedAt, seed)
  {
    var inputs := BuildInputs(lib, ids, meetings);
    if inputs.None? {
      return Err(InvalidPairing(BadInput));
    }
    var evidence := Record(lib, parse, id, round, ids, meetings, inputs.value, decidedAt, seed);
    if evidence.Err? {
      return Err(InvalidPairing(BadEvidence(evidence.error)));
    }
    RecordedIsAccepted(lib, parse, id, round, ids, meetings, decidedAt, seed.value);
    var pairings := ReplayEvidence(lib, parse, evidence.value);
    if pairings.Err? {
      return Err(pairings.error);
    }
    r := Ok(AutomaticPairing(pairings.value, evidence.value));
  }

  lemma RecordIsDetermined(lib: Library, e: Evidence, f: Evidence, inputs: seq<Bytes>)
    requires Normalizes(lib, inputs, e.inputs) && Normalizes(lib, inputs, f.inputs)
    requires e.id == f.id && SameDecision(e, f.(inputs := e.inputs))
    requires e.result == Replayed(lib, e) && e.replayDigest == ReplayDigest(lib, e, e.result)
    requires f.result == Replayed(lib, f) && f.replayDigest == ReplayDigest(lib, f, f.result)
    ensures e == f
  {
    OrderAndPaddingDoNotMatter(lib, inputs, inputs, e, f);
  }

  // ---------------------------------------------------------------- what a generated pairing is worth

  /** Any order of the inputs of a proper field gives a round of that field, if it has one. */
  lemma {:induction false} ValuesGiveRound(lib: Library, parse: Parser, ids: seq<Id>, meetings: seq<Pair>,
                                           values: seq<Bytes>)
    requires TextsOk(lib, parse) && FieldOk(ids, meetings) && Real(ids)
    requires multiset(values) == multiset(Lines(lib, ids, meetings))
    ensures var r := PairingOfValues(parse, values);
      && (r.Ok? ==> IsRound(ids, meetings, r.value))
      && (r.Err? ==> r == Err(InvalidPairing(NoMatching)))
      && (r.Err? ==> forall m :: !IsRound(ids, meetings, m))
  {
    ReadBack(lib, parse, ids, meetings, values);
    var items := Mapped(values, Reader(parse));
    var ids', meetings' := Participants(items), Opponents(items);
    SameFieldOk(ids, meetings, ids', meetings');
    FirstRoundIsRound(ids', meetings');
    forall m
      ensures IsRound(ids, meetings, m) <==> IsRound(ids', meetings', m)
    {
      SameFieldRounds(ids, meetings, ids', meetings', m);
    }
  }

  lemma CompletedExactly(lib: Library, parse: Parser, e: Evidence)
    requires e.purpose == Pairing && (MetadataOk(e) ==> WellFormed(lib, e))
    ensures var r, p := Completed(lib, parse, e), PairingOfValues(parse, e.result);
      if !MetadataOk(e) then r == Err(InvalidPairing(BadEvidence(InvalidEvidence)))
      else if !Accepted(lib, e) then r == Err(InvalidPairing(BadEvidence(ReplayMismatch)))
      else r == if p.Ok? then Ok(AutomaticPairing(p.value, e)) else Err(p.error)
  {
  }

  /** When a pairing is generated: for a proper field and record, unless the digest is all zero, exactly when there
      is a round without a repeated meeting. */
  lemma {:induction false} GeneratedExactly(lib: Library, parse: Parser, id: Id, round: Id, ids: seq<Id>,
                                            meetings: seq<Pair>, decidedAt: Time, seed: Bytes)
    requires TextsOk(lib, parse) && Real(ids)
    ensures var e := Recorded(lib, id, Lines(lib, ids, meetings), round, decidedAt, seed);
      var r := Generated(lib, parse, id, round, ids, meetings, decidedAt, Some(seed));
      var proper := FieldOk(ids, meetings) && MetadataOk(e) && !AllZero(e.replayDigest);
      && (r.Ok? <==> proper && exists m :: IsRound(ids, meetings, m))
      && (r == Err(InvalidPairing(NoMatching)) <==> proper && forall m :: !IsRound(ids, meetings, m))
      && (r == Err(InvalidPairing(BadInput)) <==> !FieldOk(ids, meetings))
      && (FieldOk(ids, meetings) ==>
            Generated(lib, parse, id, round, ids, meetings, decidedAt, None)
            == Err(InvalidPairing(BadEvidence(InvalidEvidence))))
  {
    if FieldOk(ids, meetings) {
      var e := Recorded(lib, id, Lines(lib, ids, meetings), round, decidedAt, seed);
      RecordedIsAccepted(lib, parse, id, round, ids, meetings, decidedAt, seed);
      CompletedExactly(lib, parse, e);
      if MetadataOk(e) && !AllZero(e.replayDigest) { ValuesGiveRound(lib, parse, ids, meetings, e.result); }
    }
  }

  /** What is generated is a round of the given field, and its record alone replays to it. */
  lemma {:induction false} GeneratedReplays(lib: Library, parse: Parser, id: Id, round: Id, ids: seq<Id>,
                                            meetings: seq<Pair>, decidedAt: Time, seed: Option<Bytes>,
                                            p: AutomaticPairing)
    requires TextsOk(lib, parse) && Real(ids)
    requires Generated(lib, parse, id, round, ids, meetings, decidedAt, seed) == Ok(p)
    ensures IsRound(ids, meetings, p.pairings)
    ensures PairingOf(lib, parse, p.evidence) == Ok(p.pairings) && Accepted(lib, p.evidence)
    ensures Fit(p.evidence.inputs) && Fit(p.evidence.result)
  {
    RecordedIsAccepted(lib, parse, id, round, ids, meetings, decidedAt, seed.value);
    ValuesGiveRound(lib, parse, ids, meetings, p.evidence.result);
  }

  lemma {:induction false} ItemCounts(ids: seq<Id>, pairs: seq<Pair>, item: Item)
    ensures multiset(Items(ids, pairs))[item]
            == match item
               case Participant(id) => multiset(ids)[id]
               case Meeting(m) => multiset(pairs)[m]
               case Unreadable => 0
  {
    SortedOut(ids, pairs);
    match item
    case Participant(id) => CountParticipants(Items(ids, pairs), id);
    case Meeting(m) => CountOpponents(Items(ids, pairs), m);
    case Unreadable => assert Unreadable !in Items(ids, pairs);
  }

  lemma {:induction false} SameLines(lib: Library, ids: seq<Id>, meetings: seq<Pair>, ids': seq<Id>,
                                     meetings': seq<Pair>)
    requires SameField(ids, meetings, ids', meetings')
    ensures multiset(Lines(lib, ids, meetings)) == multiset(Lines(lib, ids', meetings'))
  {
    var items, items' := Items(ids, Mapped(meetings, Ordered)), Items(ids', Mapped(meetings', Ordered));
    forall item: Item
      ensures multiset(items)[item] == multiset(items')[item]
    {
      ItemCounts(ids, Mapped(meetings, Ordered), item);
      ItemCounts(ids', Mapped(meetings', Ordered), item);
    }
    MappedPermutation(items, items', Writer(lib));
  }

  lemma {:induction false} SameRecord(lib: Library, parse: Parser, id: Id, round: Id, ids: seq<Id>, meetings: seq<Pair>,
                                      ids': seq<Id>, meetings': seq<Pair>, decidedAt: Time, seed: Bytes)
    requires TextsOk(lib, parse) && Real(ids) && FieldOk(ids, meetings) && SameField(ids, meetings, ids', meetings')
    ensures Recorded(lib, id, Lines(lib, ids, meetings), round, decidedAt, seed)
            == Recorded(lib, id, Lines(lib, ids', meetings'), round, decidedAt, seed)
  {
    var lines, lines' := Lines(lib, ids, meetings), Lines(lib, ids', meetings');
    SameLines(lib, ids, meetings, ids', meetings');
    LinesAreUsable(lib, parse, ids, meetings, lines);
    LinesAreUsable(lib, parse, ids, meetings, lines');
    BytesOrder();
    SortBySorts(lines, BytesLess);
    SortBySorts(lines', BytesLess);
    SortedUnique(SortBy(lines, BytesLess), SortBy(lines', BytesLess), BytesLess);
  }

  /** For a fixed seed the outcome does not depend on the order of the participants and of the meetings, nor on who is
      named first in a meeting. */
  lemma {:induction false} GenerationIgnoresOrder(lib: Library, parse: Parser, id: Id, round: Id, ids: seq<Id>,
                                                  meetings: seq<Pair>, ids': seq<Id>, meetings': seq<Pair>,
                                                  decidedAt: Time, seed: Option<Bytes>)
    requires TextsOk(lib, parse) && Real(ids) && SameField(ids, meetings, ids', meetings')
    ensures Generated(lib, parse, id, round, ids, meetings, decidedAt, seed)
            == Generated(lib, parse, id, round, ids', meetings', decidedAt, seed)
  {
    if FieldOk(ids, meetings) {
      SameFieldOk(ids, meetings, ids', meetings');
      if seed.Some? {
        SameRecord(lib, parse, id, round, ids, meetings, ids', meetings', decidedAt, seed.value);
      }
    } else if FieldOk(ids', meetings') {
      SameFieldOk(ids', meetings', ids, meetings);
    }
  }

  // ---------------------------------------------------------------- the texts of identities

  function HexDigit(d: nat): Byte
    requires d < 16
  {
    if d < 10 then 48 + d else 87 + d
  }

  function DigitValue(b: Byte): nat { if 48 <= b < 58 then b - 48 else if 97 <= b < 103 then b - 87 else 0 }

  /** The low k digits of n, most significant first. */
  function Hex(n: nat, k: nat): (digits: Bytes)
    ensures |digits| == k && COLON !in digits
  {
    if k == 0 then [] else Hex(n / 16, k - 1) + [HexDigit(n % 16)]
  }

  function HexValue(digits: Bytes): nat {
    if digits == [] then 0 else 16 * HexValue(digits[..|digits| - 1]) + DigitValue(digits[|digits| - 1])
  }

  /** The canonical text: 32 lower-case digits in groups of 8, 4, 4, 4 and 12 (section 3 of RFC 4122). */
  function Canonical(id: Id): Bytes { Grouped(Hex(id, 32)) }

  function ParseCanonical(text: Bytes): Option<Id> {
    if |text| != 36 then None else Some(HexValue(Ungrouped(text)))
  }

  lemma {:induction false} HexRoundTrip(n: nat, k: nat)
    requires n < Pow256(k)
    ensures HexValue(Hex(n, 2 * k)) == n
  {
    if k > 0 {
      HexRoundTrip(n / 256, k - 1);
      var high := Hex(n / 256, 2 * (k - 1));
      assert n / 16 / 16 == n / 256;
      assert Hex(n / 16, 2 * k - 1) == high + [HexDigit(n / 16 % 16)];
      assert Hex(n, 2 * k) == high + [HexDigit(n / 16 % 16)] + [HexDigit(n % 16)];
      assert HexValue(high + [HexDigit(n / 16 % 16)]) == 16 * (n / 256) + n / 16 % 16;
    }
  }

  function Grouped(h: Bytes): Bytes
    requires |h| == 32
  {
    h[..8] + [DASH] + h[8..12] + [DASH] + h[12..16] + [DASH] + h[16..20] + [DASH] + h[20..]
  }

  function Ungrouped(text: Bytes): Bytes
    requires |text| == 36
  {
    text[..8] + text[9..13] + text[14..18] + text[19..23] + text[24..]
  }

  lemma UngroupingUndoesGrouping(h: Bytes)
    requires |h| == 32
    ensures |Grouped(h)| == 36 && Ungrouped(Grouped(h)) == h
  {
    var t := Grouped(h);
    assert t[..8] == h[..8] && t[9..13] == h[8..12] && t[14..18] == h[12..16] && t[19..23] == h[16..20];
    assert t[24..] == h[20..];
  }

  lemma {:induction false} CanonicalRoundTrip(id: Id)
    requires id < ID_LIMIT
    ensures ParseCanonical(Canonical(id)) == Some(id) && COLON !in Canonical(id) && |Canonical(id)| == 36
  {
    HexRoundTrip(id, 16);
    UngroupingUndoesGrouping(Hex(id, 32));
  }

  /** The canonical texts are as assumed, where trimming leaves lines alone and lines are proper UTF-8. */
  lemma {:induction false} CanonicalTextsAreOk(lib: Library)
    requires forall id: Id :: lib.idText(id) == Canonical(id)
    requires forall item: Item ::
      item.Known() ==> lib.trim(Line(lib, item)) == Line(lib, item) && lib.validUtf8(Line(lib, item))
    ensures TextsOk(lib, ParseCanonical)
  {
    forall id: Id | id < ID_LIMIT
      ensures ParseCanonical(lib.idText(id)) == Some(id) && COLON !in lib.idText(id)
    {
      CanonicalRoundTrip(id);
    }
    forall item: Item | item.Known()
      ensures PlainLine(lib, Line(lib, item))
    {
      if item.Participant? {
        CanonicalRoundTrip(item.id);
      } else {
        CanonicalRoundTrip(item.meeting.first);
        CanonicalRoundTrip(item.meeting.second);
      }
      assert |Line(lib, item)| <= 100;
    }
  }
}
