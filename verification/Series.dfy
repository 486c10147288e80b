/** Series formats, task categories, and the game slots of a series. */
module Series {
  import opened Foundation
  import opened Numbering

  datatype SeriesFormat = BO1 | BO3 | UnknownFormat(code: nat) {
    function WinsRequired(): nat {
      match this
      case BO1 => 1
      case BO3 => 2
      case UnknownFormat(_) => 0
    }

    predicate Valid() { !UnknownFormat? }

    /** The most game slots a series of this format can need. */
    function SlotLimit(): int { WinsRequired() * 2 - 1 }
  }

  /** The known categories in the alphabetical order of their names, and any other string. */
  datatype Category =
    | Crypto | Forensics | Hardware | Misc | Mobile | Osint | Ppc | Pwn | Reverse | Stego | Web
    | UnknownCategory(code: nat)
  {
    predicate Valid() { !UnknownCategory? }

    /** The position of the name in alphabetical order; unknown names are told apart but never accepted. */
    function Rank(): nat {
      match this
      case Crypto => 0
      case Forensics => 1
      case Hardware => 2
      case Misc => 3
      case Mobile => 4
      case Osint => 5
      case Ppc => 6
      case Pwn => 7
      case Reverse => 8
      case Stego => 9
      case Web => 10
      case UnknownCategory(code) => 11 + code
    }
  }

  datatype Score = Score(first: int, second: int) {
    predicate Valid(format: SeriesFormat) {
      && format.Valid() && first >= 0 && second >= 0
      && first <= format.WinsRequired() && second <= format.WinsRequired()
      && !(first == format.WinsRequired() && second == format.WinsRequired())
    }

    function Winner(a: Id, b: Id, format: SeriesFormat): Option<Id> {
      if format.WinsRequired() == 0 then None
      else if first == format.WinsRequired() then Some(a)
      else if second == format.WinsRequired() then Some(b)
      else None
    }
  }

  /** A score is valid exactly when nobody has more games than win the series, one for BO1 and two for BO3, and not both
      have won it. */
  lemma ScoreValidExactly(s: Score, format: SeriesFormat)
    ensures s.Valid(format) <==>
      || (format == BO1 && s in {Score(0, 0), Score(1, 0), Score(0, 1)})
      || (format == BO3
          && s in {Score(0, 0), Score(1, 0), Score(0, 1), Score(1, 1),
                   Score(2, 0), Score(0, 2), Score(2, 1), Score(1, 2)})
  {
  }

  /** A valid score never counts more games than the series has slots. It is undecided exactly when either
      participant may still win another game, and then a slot is left for it; otherwise the winner is ahead. */
  lemma ScoreFitsSlots(s: Score, a: Id, b: Id, format: SeriesFormat)
    requires s.Valid(format) && a != b
    ensures s.first + s.second <= format.SlotLimit()
    ensures s.Winner(a, b, format).None?
      <==> Score(s.first + 1, s.second).Valid(format) && Score(s.first, s.second + 1).Valid(format)
    ensures s.Winner(a, b, format).None? ==> s.first + s.second < format.SlotLimit()
    ensures s.Winner(a, b, format) == Some(a) ==> s.first > s.second
    ensures s.Winner(a, b, format) == Some(b) ==> s.second > s.first
  {
  }

  /** A game slot; wellFormed stands for the slot's own validation, winners for its decided attempts. */
  datatype Slot = Slot(id: Id, seriesId: Id, position: int, wellFormed: bool, scoreBefore: Score, winners: seq<Id>)

  datatype SeriesHead = SeriesHead(id: Id, first: Id, second: Id, format: SeriesFormat)

  predicate SlotOk(s: SeriesHead, slot: Slot) {
    && slot.wellFormed && slot.scoreBefore.Valid(s.format) && slot.seriesId == s.id
    && forall k :: 0 <= k < |slot.winners| ==> slot.winners[k] == s.first || slot.winners[k] == s.second
  }

  function Positions(slots: seq<Slot>): seq<int> {
    seq(|slots|, i requires 0 <= i < |slots| => slots[i].position)
  }

  /** Slots are accepted exactly when there are not too many, each fits the series, their identities differ and
      their positions are 1 to n in some order. */
  method ValidateSlots(s: SeriesHead, slots: seq<Slot>) returns (ok: bool)
    ensures ok <==>
      && |slots| <= s.format.SlotLimit()
      && (forall i :: 0 <= i < |slots| ==> SlotOk(s, slots[i]))
      && (forall i, j :: 0 <= i < j < |slots| ==> slots[i].id != slots[j].id)
      && Numbered(Positions(slots))
  {
    if |slots| > s.format.SlotLimit() {
      return false;
    }
    var ids: set<Id> := {};
    var taken: set<int> := {};
    ghost var positions := Positions(slots);
    for i := 0 to |slots|
      invariant ids == set k | 0 <= k < i :: slots[k].id
      invariant forall n :: n in taken <==> n in positions[..i]
      invariant forall k :: 0 <= k < i ==> SlotOk(s, slots[k])
      invariant forall j, k :: 0 <= j < k < i ==> slots[j].id != slots[k].id
      invariant Distinct(positions[..i])
    {
      if !SlotOk(s, slots[i]) || slots[i].id in ids {
        return false;
      }
      if slots[i].position in taken {
        assert positions[i] in positions[..i];
        assert !Distinct(positions);
        return false;
      }
      assert positions[..i + 1] == positions[..i] + [slots[i].position];
      ids, taken := ids + {slots[i].id}, taken + {slots[i].position};
    }
    assert positions[..|slots|] == positions;
    for position := 1 to |slots| + 1
      invariant forall n :: 1 <= n < position ==> n in taken
    {
      if position !in taken {
        return false;
      }
    }
    CompleteByCount(positions);
    ok := true;
  }
}
