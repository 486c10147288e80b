/** The two transposition ciphers of the puzzle generator and their decoders: the rail fence and the columnar
    transposition with a ragged last row. */
module Transposition {
  import opened Foundation
  import opened Numbering
  import opened Ordering

  // ---------------------------------------------------------------- cutting a joined text into its parts again

  function Join<T>(parts: seq<seq<T>>): seq<T> {
    if parts == [] then [] else parts[0] + Join(parts[1..])
  }

  /** A Python slice, which stops at the end of the text. */
  function Slice(text: string, from: nat, to: nat): string {
    if from >= |text| || to <= from then "" else if to >= |text| then text[from..] else text[from..to]
  }

  /** What is left of the code at an offset is the join of the parts from i on. */
  ghost predicate Ahead(text: string, offset: int, parts: seq<string>, i: int) {
    0 <= i <= |parts| && 0 <= offset <= |text| && text[offset..] == Join(parts[i..])
  }

  lemma CutNext(text: string, offset: nat, parts: seq<string>, i: nat)
    requires Ahead(text, offset, parts, i) && i < |parts|
    ensures Slice(text, offset, offset + |parts[i]|) == parts[i]
    ensures Ahead(text, offset + |parts[i]|, parts, i + 1)
  {
    var rest, n := text[offset..], |parts[i]|;
    assert parts[i..][0] == parts[i] && parts[i..][1..] == parts[i + 1..];
    assert rest == parts[i] + Join(parts[i + 1..]);
    assert rest[..n] == parts[i] && rest[n..] == Join(parts[i + 1..]);
    assert rest[n..] == text[offset + n..];
    if n > 0 && offset + n < |text| { assert text[offset..offset + n] == rest[..n]; }
    if n > 0 && offset + n == |text| { assert rest == rest[..n]; }
  }

  lemma {:induction false} JoinCharacters(parts: seq<string>, bad: char)
    requires forall i :: 0 <= i < |parts| ==> bad !in parts[i]
    ensures bad !in Join(parts)
  {
    if parts != [] { JoinCharacters(parts[1..], bad); }
  }

  // ---------------------------------------------------------------- what a transposition does

  /** Tells which of two places of the text comes first in the code. */
  type Before = (nat, nat) -> bool

  /** code holds every character of the text once, in this order of their places. */
  ghost predicate Arranged(text: string, code: string, before: Before) {
    exists places :: Reads(text, places, code) && Ascending(places, before) && Covers(places, |text|)
  }

  ghost predicate Reads(text: string, places: seq<nat>, code: string) {
    |places| == |code| && forall i :: 0 <= i < |places| ==> places[i] < |text| && code[i] == text[places[i]]
  }

  ghost predicate Ascending(places: seq<nat>, before: Before) {
    forall i, j :: 0 <= i < j < |places| ==> before(places[i], places[j])
  }

  ghost predicate Covers(places: seq<nat>, n: nat) { forall k :: 0 <= k < n ==> k in places }

  ghost predicate AllBefore(a: seq<nat>, b: seq<nat>, before: Before) {
    forall i, j :: 0 <= i < |a| && 0 <= j < |b| ==> before(a[i], b[j])
  }

  /** Parts that read off ascending lists of places, each list before the later ones. */
  ghost predicate PartsRead(text: string, lists: seq<seq<nat>>, parts: seq<string>, before: Before) {
    && |lists| == |parts|
    && (forall p :: 0 <= p < |lists| ==> Reads(text, lists[p], parts[p]) && Ascending(lists[p], before))
    && (forall p, q :: 0 <= p < q < |lists| ==> AllBefore(lists[p], lists[q], before))
  }

  ghost predicate Listed(lists: seq<seq<nat>>, k: nat) { exists p :: 0 <= p < |lists| && k in lists[p] }

  lemma JoinAscends(a: seq<nat>, b: seq<nat>, before: Before)
    requires Ascending(a, before) && Ascending(b, before) && AllBefore(a, b, before)
    ensures Ascending(a + b, before)
  {
  }

  lemma {:induction false} JoinedPlaces(lists: seq<seq<nat>>, k: nat)
    ensures k in Join(lists) <==> Listed(lists, k)
  {
    if lists != [] {
      JoinedPlaces(lists[1..], k);
      forall p | 0 <= p < |lists| && k in lists[p]
        ensures k in Join(lists)
      {
        if p > 0 { assert lists[1..][p - 1] == lists[p]; }
      }
      if k in Join(lists[1..]) {
        var p :| 0 <= p < |lists[1..]| && k in lists[1..][p];
        assert k in lists[p + 1];
      }
    }
  }

  lemma {:induction false} JoinReads(text: string, lists: seq<seq<nat>>, parts: seq<string>, before: Before)
    requires PartsRead(text, lists, parts, before)
    ensures Reads(text, Join(lists), Join(parts)) && Ascending(Join(lists), before)
  {
    if lists != [] {
      assert PartsRead(text, lists[1..], parts[1..], before) by {
        assert forall p :: 0 <= p < |lists| - 1 ==> lists[1..][p] == lists[p + 1] && parts[1..][p] == parts[p + 1];
      }
      JoinReads(text, lists[1..], parts[1..], before);
      FirstIsBefore(lists, before);
      JoinAscends(lists[0], Join(lists[1..]), before);
    }
  }

  lemma {:induction false} FirstIsBefore(lists: seq<seq<nat>>, before: Before)
    requires lists != [] && forall p, q :: 0 <= p < q < |lists| ==> AllBefore(lists[p], lists[q], before)
    ensures AllBefore(lists[0], Join(lists[1..]), before)
  {
    var rest := Join(lists[1..]);
    forall i, j | 0 <= i < |lists[0]| && 0 <= j < |rest|
      ensures before(lists[0][i], rest[j])
    {
      JoinedPlaces(lists[1..], rest[j]);
      var p :| 0 <= p < |lists[1..]| && rest[j] in lists[1..][p];
      assert AllBefore(lists[0], lists[p + 1], before);
      var m :| 0 <= m < |lists[p + 1]| && lists[p + 1][m] == rest[j];
    }
  }

  lemma {:induction false} JoinIsArranged(text: string, lists: seq<seq<nat>>, parts: seq<string>, before: Before)
    requires PartsRead(text, lists, parts, before)
    requires forall k {:trigger Listed(lists, k)} :: 0 <= k < |text| ==> Listed(lists, k)
    ensures Arranged(text, Join(parts), before)
  {
    JoinReads(text, lists, parts, before);
    forall k | 0 <= k < |text|
      ensures k in Join(lists)
    {
      assert Listed(lists, k);
      JoinedPlaces(lists, k);
    }
    assert Covers(Join(lists), |text|);
  }

  /** Every two places are in one order. */
  ghost predicate Total(before: Before) {
    && IsOrder(before)
    && forall j: nat, k: nat :: j != k ==> before(j, k) || before(k, j)
  }

  lemma {:induction false} AscendingOnce(places: seq<nat>, before: Before)
    requires Total(before) && Ascending(places, before)
    ensures Distinct(places) && Sorted(places, before)
  {
    forall i, j | 0 <= i < j < |places|
      ensures places[i] != places[j] && !before(places[j], places[i])
    {
      assert before(places[i], places[j]);
    }
  }

  lemma {:induction false} SamePlaces(a: seq<nat>, b: seq<nat>, n: nat)
    requires Distinct(a) && Distinct(b) && Covers(a, n) && Covers(b, n)
    requires forall k :: k in a || k in b ==> k < n
    ensures multiset(a) == multiset(b)
  {
    DistinctIsMultiplicityOne(a);
    DistinctIsMultiplicityOne(b);
    forall k: nat
      ensures multiset(a)[k] == multiset(b)[k]
    {
      assert k in a <==> k in b;
      assert k !in a ==> multiset(a)[k] == 0;
      assert k !in b ==> multiset(b)[k] == 0;
    }
  }

  /** An order of the places leaves one code only. */
  lemma {:induction false} OneArrangement(text: string, code: string, other: string, before: Before)
    requires Total(before) && Arranged(text, code, before) && Arranged(text, other, before)
    ensures code == other
  {
    var a :| Reads(text, a, code) && Ascending(a, before) && Covers(a, |text|);
    var b :| Reads(text, b, other) && Ascending(b, before) && Covers(b, |text|);
    AscendingOnce(a, before);
    AscendingOnce(b, before);
    SamePlaces(a, b, |text|);
    SortedUnique(a, b, before);
  }

  // ---------------------------------------------------------------- the rail fence

  /** Row and direction of the zigzag before writing character k. */
  function Zigzag(k: nat, rails: nat): (int, int) {
    if k == 0 then (0, 1)
    else
      var (row, direction) := Zigzag(k - 1, rails);
      (row + Turned(row, direction, rails), Turned(row, direction, rails))
  }

  function Turned(row: int, direction: int, rails: nat): int {
    if row == 0 then 1 else if row == rails - 1 then -1 else direction
  }

  lemma {:induction false} ZigzagStaysOnRails(k: nat, rails: nat)
    requires rails >= 2
    ensures 0 <= Zigzag(k, rails).0 < rails
    ensures k > 0 ==> Zigzag(k, rails).1 == 1 || Zigzag(k, rails).1 == -1
  {
    if k > 0 { ZigzagStaysOnRails(k - 1, rails); }
  }

  /** The characters that the zigzag puts on one rail, in order. */
  function Rail(text: string, rails: nat, r: nat): string {
    if text == "" then ""
    else
      var n := |text| - 1;
      Rail(text[..n], rails, r) + (if Zigzag(n, rails).0 == r then [text[n]] else [])
  }

  function Rails(text: string, rails: nat): seq<string> {
    seq(rails, r requires 0 <= r < rails => Rail(text, rails, r))
  }

  function RailCode(text: string, rails: nat): string { Join(Rails(text, rails)) }

  /** How many of the first k characters lie on rail r. */
  function RailCount(k: nat, rails: nat, r: nat): nat {
    if k == 0 then 0 else RailCount(k - 1, rails, r) + (if Zigzag(k - 1, rails).0 == r then 1 else 0)
  }

  lemma {:induction false} RailLength(text: string, rails: nat, r: nat)
    ensures |Rail(text, rails, r)| == RailCount(|text|, rails, r)
  {
    if text != "" { RailLength(text[..|text| - 1], rails, r); }
  }

  /** Character k sits on its rail behind the earlier characters of that rail. */
  lemma {:induction false} RailAt(text: string, rails: nat, k: nat)
    requires k < |text| && Zigzag(k, rails).0 >= 0
    ensures var r := Zigzag(k, rails).0 as nat;
            RailCount(k, rails, r) < |Rail(text, rails, r)| && Rail(text, rails, r)[RailCount(k, rails, r)] == text[k]
  {
    var r, n := Zigzag(k, rails).0 as nat, |text| - 1;
    RailLength(text[..n], rails, r);
    if k < n { RailAt(text[..n], rails, k); }
  }

  /** The rail of place k: from the first rail down to the last and up again, without end. */
  function Bounce(k: nat, rails: nat): nat
    requires rails >= 2
  {
    var m := k % (2 * (rails - 1));
    if m < rails then m else 2 * (rails - 1) - m
  }

  /** Rail by rail, and from left to right on each. */
  function RailBefore(rails: nat): Before
    requires rails >= 2
  {
    (j: nat, k: nat) => Bounce(j, rails) < Bounce(k, rails) || (Bounce(j, rails) == Bounce(k, rails) && j < k)
  }

  lemma RailBeforeIsTotal(rails: nat)
    requires rails >= 2
    ensures Total(RailBefore(rails))
  {
  }

  lemma NextInCycle(k: nat, cycle: nat)
    requires cycle > 0
    ensures (k + 1) % cycle == if k % cycle + 1 == cycle then 0 else k % cycle + 1
  {
    var q, m := k / cycle, k % cycle;
    assert k == q * cycle + m;
    if m + 1 == cycle {
      assert k + 1 == (q + 1) * cycle + 0;
      SameRemainder(k + 1, q + 1, cycle, 0);
    } else {
      SameRemainder(k + 1, q, cycle, m + 1);
    }
  }

  lemma SameRemainder(k: nat, q: nat, cycle: nat, m: nat)
    requires m < cycle && k == q * cycle + m
    ensures k % cycle == m
  {
    assert k == k / cycle * cycle + k % cycle;
    Quotient(k / cycle, q, cycle, m, k % cycle);
  }

  /** The zigzag visits the rails in just that way. */
  lemma {:induction false} ZigzagBounces(k: nat, rails: nat)
    requires rails >= 2
    ensures Zigzag(k, rails).0 == Bounce(k, rails)
    ensures k > 0 && 0 < Bounce(k, rails) < rails - 1 ==>
      Zigzag(k, rails).1 == if k % (2 * (rails - 1)) < rails then 1 else -1
  {
    if k == 0 {
      SameRemainder(0, 0, 2 * (rails - 1), 0);
    } else {
      ZigzagBounces(k - 1, rails);
      NextInCycle(k - 1, 2 * (rails - 1));
    }
  }

  /** The places that the zigzag puts on one rail, in order. */
  function Places(n: nat, rails: nat, r: nat): seq<nat> {
    if n == 0 then [] else Places(n - 1, rails, r) + (if Zigzag(n - 1, rails).0 == r then [n - 1] else [])
  }

  lemma {:induction false} PlacesOnRail(text: string, rails: nat, r: nat)
    requires rails >= 2
    ensures Reads(text, Places(|text|, rails, r), Rail(text, rails, r))
    ensures Ascending(Places(|text|, rails, r), RailBefore(rails))
    ensures forall k :: 0 <= k < |text| ==> (k in Places(|text|, rails, r) <==> Bounce(k, rails) == r)
    ensures forall k :: k in Places(|text|, rails, r) ==> k < |text|
  {
    if text != "" {
      var n := |text| - 1;
      PlacesOnRail(text[..n], rails, r);
      ZigzagBounces(n, rails);
      var before := Places(n, rails, r);
      forall i | 0 <= i < |before|
        ensures before[i] < n && Bounce(before[i], rails) == r
      {
        assert before[i] in before;
      }
    }
  }

  lemma {:induction false} RailCodeIsArranged(text: string, rails: nat)
    requires rails >= 2
    ensures Arranged(text, RailCode(text, rails), RailBefore(rails))
  {
    var lists := seq(rails, r requires 0 <= r < rails => Places(|text|, rails, r));
    forall r | 0 <= r < rails
      ensures Reads(text, lists[r], Rails(text, rails)[r]) && Ascending(lists[r], RailBefore(rails))
      ensures forall i :: 0 <= i < |lists[r]| ==> Bounce(lists[r][i], rails) == r
    {
      PlacesOnRail(text, rails, r);
      forall i | 0 <= i < |lists[r]| ensures Bounce(lists[r][i], rails) == r { assert lists[r][i] in lists[r]; }
    }
    forall k: nat | k < |text|
      ensures Listed(lists, k)
    {
      PlacesOnRail(text, rails, Bounce(k, rails));
      assert k in lists[Bounce(k, rails)];
    }
    JoinIsArranged(text, lists, Rails(text, rails), RailBefore(rails));
  }

  /** A fence of one rail. */
  lemma OneRail(text: string)
    requires |text| <= 1
    ensures RailCode(text, 1) == text
  {
    var rail := Rail(text, 1, 0);
    assert Rails(text, 1) == [rail] && [rail][1..] == [];
    assert Join([rail]) == rail;
    if text != "" {
      assert Zigzag(0, 1).0 == 0 && rail == Rail(text[..0], 1, 0) + [text[0]];
      assert rail == text;
    }
  }

  /** None stands for the index error that a zigzag leaving the fence raises. */
  method RailFence(value: string, rails: nat) returns (r: Option<string>)
    ensures r.Some? <==> rails >= 2 || |value| <= rails
    ensures r.Some? ==> r.value == RailCode(value, rails)
    ensures rails >= 2 ==> Arranged(value, r.value, RailBefore(rails))
    ensures r.Some? && rails < 2 ==> r.value == value
  {
    var fences: seq<string> := seq(rails, _ => "");
    var row: int, direction: int := 0, 1;
    for k := 0 to |value|
      invariant |fences| == rails && (row, direction) == Zigzag(k, rails)
      invariant forall j :: 0 <= j < rails ==> fences[j] == Rail(value[..k], rails, j)
      invariant k > 0 && rails < 2 ==> rails == 1 && k == row == 1
    {
      if rails >= 2 { ZigzagStaysOnRails(k, rails); }
      if row >= rails {
        return None;
      }
      assert value[..k + 1][..k] == value[..k];
      fences := fences[row := fences[row] + [value[k]]];
      if row == 0 {
        direction := 1;
      } else if row == rails - 1 {
        direction := -1;
      }
      row := row + direction;
    }
    assert value[..|value|] == value;
    assert fences == Rails(value, rails);
    r := Some(Join(fences));
    if rails >= 2 {
      RailCodeIsArranged(value, rails);
    } else if rails == 1 {
      OneRail(value);
    }
  }

  /** Recovers the text from its length and its code alone; the ghost text is what has to come out. */
  method UnrailFence(value: string, rails: nat, ghost text: string) returns (r: string)
    requires rails >= 2 && |value| == |text| && value == RailCode(text, rails)
    ensures r == text
  {
    var pattern := RailPattern(|value|, rails);
    var fences := CutRails(value, rails, pattern, text);
    r := Weave(pattern, rails, fences, text);
  }

  /** Walks the zigzag once to learn the rail of every character. */
  method RailPattern(n: nat, rails: nat) returns (pattern: seq<nat>)
    requires rails >= 2
    ensures |pattern| == n
      && forall j {:trigger pattern[j]} :: 0 <= j < n ==> pattern[j] == Zigzag(j, rails).0 && pattern[j] < rails
  {
    pattern := [];
    var row: int, direction: int := 0, 1;
    for k := 0 to n
      invariant |pattern| == k && (row, direction) == Zigzag(k, rails)
      invariant forall j {:trigger pattern[j]} :: 0 <= j < k ==> pattern[j] == Zigzag(j, rails).0 && pattern[j] < rails
    {
      ZigzagStaysOnRails(k, rails);
      pattern := pattern + [row];
      if row == 0 {
        direction := 1;
      } else if row == rails - 1 {
        direction := -1;
      }
      row := row + direction;
    }
  }

  /** Takes the next unread character of the rail that the zigzag visits. */
  method Weave(pattern: seq<nat>, rails: nat, fences: seq<string>, ghost text: string) returns (r: string)
    requires |pattern| == |text| && fences == Rails(text, rails)
    requires forall j {:trigger pattern[j]} ::
      0 <= j < |pattern| ==> pattern[j] == Zigzag(j, rails).0 && pattern[j] < rails
    ensures r == text
  {
    var positions: seq<nat> := seq(rails, _ => 0);
    r := "";
    for k := 0 to |pattern|
      invariant |positions| == rails && forall j :: 0 <= j < rails ==> positions[j] == RailCount(k, rails, j)
      invariant r == text[..k]
    {
      var fenceRow := pattern[k];
      RailAt(text, rails, k);
      r := r + [fences[fenceRow][positions[fenceRow]]];
      positions := positions[fenceRow := positions[fenceRow] + 1];
    }
  }

  /** Cuts the code into rails by counting how often the zigzag visits each of them. */
  method CutRails(value: string, rails: nat, pattern: seq<nat>, ghost text: string) returns (fences: seq<string>)
    requires |pattern| == |text| && value == RailCode(text, rails)
    requires forall j {:trigger pattern[j]} :: 0 <= j < |pattern| ==> pattern[j] == Zigzag(j, rails).0
    ensures fences == Rails(text, rails)
  {
    fences := [];
    var offset := 0;
    ghost var parts := Rails(text, rails);
    for index := 0 to rails
      invariant Ahead(value, offset, parts, index)
      invariant |fences| == index && forall j :: 0 <= j < index ==> fences[j] == parts[j]
    {
      var count := CountRail(pattern, rails, index);
      RailLength(text, rails, index);
      CutNext(value, offset, parts, index);
      fences := fences + [Slice(value, offset, offset + count)];
      offset := offset + count;
    }
  }

  method CountRail(pattern: seq<nat>, rails: nat, index: nat) returns (count: nat)
    requires forall j {:trigger pattern[j]} :: 0 <= j < |pattern| ==> pattern[j] == Zigzag(j, rails).0
    ensures count == RailCount(|pattern|, rails, index)
  {
    count := 0;
    for k := 0 to |pattern|
      invariant count == RailCount(k, rails, index)
    {
      if pattern[k] == index {
        count := count + 1;
      }
    }
  }

  // ---------------------------------------------------------------- the columnar transposition

  /** The text cut into rows of the key's width; only the last row may be shorter. */
  function Rows(value: string, width: nat): seq<string>
    requires width > 0
    decreases |value|
  {
    if value == "" then []
    else if |value| <= width then [value]
    else [value[..width]] + Rows(value[width..], width)
  }

  /** The characters of one column, skipping rows that are too short. */
  function Column(rows: seq<string>, column: int): string {
    if rows == [] then ""
    else (if 0 <= column < |rows[0]| then [rows[0][column]] else []) + Column(rows[1..], column)
  }

  function KeyAt(key: string, i: int): int { if 0 <= i < |key| then key[i] as int else 0 }

  predicate ColumnLess(key: string, i: int, j: int) {
    KeyAt(key, i) < KeyAt(key, j) || (KeyAt(key, i) == KeyAt(key, j) && i < j)
  }

  function ByKey(key: string): (int, int) -> bool {
    (i: int, j: int) => ColumnLess(key, i, j)
  }

  lemma ByKeyIsOrder(key: string)
    ensures IsOrder(ByKey(key))
  {
  }

  function Indices(n: nat): (r: seq<int>)
    ensures |r| == n && forall c :: 0 <= c < n ==> r[c] == c
  {
    seq(n, i => i)
  }

  /** Columns ordered by their key character; a stable sort leaves equal characters in column order. */
  function ColumnOrder(key: string): seq<int> {
    SortBy(Indices(|key|), ByKey(key))
  }

  lemma ColumnOrderIsPermutation(key: string)
    ensures |ColumnOrder(key)| == |key| && Distinct(ColumnOrder(key))
    ensures forall c :: c in ColumnOrder(key) <==> 0 <= c < |key|
  {
    var columns := Indices(|key|);
    forall c | 0 <= c < |key| ensures c in columns { assert columns[c] == c; }
    ByKeyIsOrder(key);
    SortBySorts(columns, ByKey(key));
    DistinctPermutation(columns, SortBy(columns, ByKey(key)));
  }

  function Columns(value: string, width: nat, order: seq<int>): seq<string>
    requires width > 0
  {
    seq(|order|, i requires 0 <= i < |order| => Column(Rows(value, width), order[i]))
  }

  function Columnar(value: string, key: string): string
    requires key != ""
  {
    Join(Columns(value, |key|, ColumnOrder(key)))
  }

  /** Column by column in the order of the key, columns with equal key characters from left to right, and from top to
      bottom in each. */
  function ColumnBefore(key: string): Before
    requires key != ""
  {
    (j: nat, k: nat) =>
      var c, d := j % |key|, k % |key|;
      key[c] < key[d] || (key[c] == key[d] && (c < d || (c == d && j < k)))
  }

  /** The places of the first m rows in one column. */
  function ColumnPlaces(m: nat, width: nat, c: nat): seq<nat> { seq(m, r requires 0 <= r < m => r * width + c) }

  lemma ColumnPlace(text: string, width: nat, c: nat, r: nat)
    requires c < width && r < |Column(Rows(text, width), c)|
    ensures r * width + c < |text| && Column(Rows(text, width), c)[r] == text[r * width + c]
    ensures (r * width + c) % width == c
  {
    ColumnAt(text, width, c, r, r * width);
    SameRemainder(r * width + c, r, width, c);
  }

  lemma ColumnPlacesAscend(m: nat, key: string, c: nat)
    requires c < |key|
    ensures Ascending(ColumnPlaces(m, |key|, c), ColumnBefore(key))
  {
    var places := ColumnPlaces(m, |key|, c);
    forall i, j | 0 <= i < j < |places|
      ensures ColumnBefore(key)(places[i], places[j])
    {
      MulMonotone(i + 1, j, |key|);
      SameRemainder(places[i], i, |key|, c);
      SameRemainder(places[j], j, |key|, c);
    }
  }

  lemma RowOf(text: string, width: nat, c: nat, k: nat) returns (r: nat)
    requires width > 0 && k < |text| && k % width == c
    ensures k == r * width + c && r < |Column(Rows(text, width), c)|
  {
    r := k / width;
    assert k == r * width + c;
    ColumnAt(text, width, c, r, r * width);
  }

  lemma ColumnHolds(text: string, width: nat, c: nat, k: nat)
    requires width > 0 && k < |text| && k % width == c
    ensures k in ColumnPlaces(|Column(Rows(text, width), c)|, width, c)
  {
    var r := RowOf(text, width, c, k);
    assert ColumnPlaces(|Column(Rows(text, width), c)|, width, c)[r] == k;
  }

  lemma ColumnBeforeIsTotal(key: string)
    requires key != ""
    ensures Total(ColumnBefore(key))
  {
  }

  lemma {:induction false} PlacesInColumn(text: string, key: string, c: nat) returns (places: seq<nat>)
    requires c < |key|
    ensures Reads(text, places, Column(Rows(text, |key|), c)) && Ascending(places, ColumnBefore(key))
    ensures forall i :: 0 <= i < |places| ==> places[i] % |key| == c
    ensures forall k :: 0 <= k < |text| && k % |key| == c ==> k in places
  {
    var column := Column(Rows(text, |key|), c);
    places := ColumnPlaces(|column|, |key|, c);
    ColumnPlacesAscend(|column|, key, c);
    forall r: nat | r < |column|
      ensures places[r] < |text| && column[r] == text[places[r]] && places[r] % |key| == c
    {
      ColumnPlace(text, |key|, c, r);
    }
    forall k: nat | k < |text| && k % |key| == c
      ensures k in places
    {
      ColumnHolds(text, |key|, c, k);
    }
  }

  lemma OrderFollowsKey(key: string, i: nat, j: nat)
    requires i < j < |key|
    ensures |ColumnOrder(key)| == |key| && 0 <= ColumnOrder(key)[i] < |key| && 0 <= ColumnOrder(key)[j] < |key|
    ensures var c, d := ColumnOrder(key)[i], ColumnOrder(key)[j]; key[c] < key[d] || (key[c] == key[d] && c < d)
  {
    var order := ColumnOrder(key);
    ColumnOrderIsPermutation(key);
    assert order[i] in order && order[j] in order;
    ByKeyIsOrder(key);
    SortBySorts(Indices(|key|), ByKey(key));
    SortedAt(order, ByKey(key), i, j);
    assert order[i] != order[j];
  }

  /** The columnar code. */
  lemma {:induction false} ColumnarIsArranged(text: string, key: string)
    requires key != ""
    ensures Arranged(text, Columnar(text, key), ColumnBefore(key))
  {
    var order, parts := ColumnOrder(key), Columns(text, |key|, ColumnOrder(key));
    ColumnOrderIsPermutation(key);
    var lists := ColumnLists(text, key, |order|);
    forall p, q | 0 <= p < q < |lists|
      ensures AllBefore(lists[p], lists[q], ColumnBefore(key))
    {
      OrderFollowsKey(key, p, q);
    }
    forall k: nat | k < |text|
      ensures Listed(lists, k)
    {
      assert k % |key| in order;
      var p :| 0 <= p < |order| && order[p] == k % |key|;
      assert k in lists[p];
    }
    JoinIsArranged(text, lists, parts, ColumnBefore(key));
  }

  lemma {:induction false} ColumnLists(text: string, key: string, n: nat) returns (lists: seq<seq<nat>>)
    requires key != "" && n <= |ColumnOrder(key)|
    ensures |lists| == n
    ensures forall p :: 0 <= p < n ==> 0 <= ColumnOrder(key)[p] < |key|
    ensures forall p :: 0 <= p < n ==>
      && Reads(text, lists[p], Columns(text, |key|, ColumnOrder(key))[p]) && Ascending(lists[p], ColumnBefore(key))
      && (forall i :: 0 <= i < |lists[p]| ==> lists[p][i] % |key| == ColumnOrder(key)[p])
      && (forall k :: 0 <= k < |text| && k % |key| == ColumnOrder(key)[p] ==> k in lists[p])
  {
    if n == 0 {
      lists := [];
    } else {
      var before := ColumnLists(text, key, n - 1);
      ColumnOrderIsPermutation(key);
      assert ColumnOrder(key)[n - 1] in ColumnOrder(key);
      var places := PlacesInColumn(text, key, ColumnOrder(key)[n - 1]);
      lists := before + [places];
    }
  }

  lemma RowBase(r: nat, width: nat)
    ensures r == 0 ==> r * width == 0
    ensures r > 0 ==> r * width == (r - 1) * width + width && (r - 1) * width >= 0
  {
  }

  /** Row r of column c holds the character at r times the width plus c, and the column ends where the text does. */
  lemma {:induction false} ColumnAt(value: string, width: nat, c: nat, r: nat, base: nat)
    requires c < width && base == r * width
    ensures base + c < |value| ==>
      r < |Column(Rows(value, width), c)| && Column(Rows(value, width), c)[r] == value[base + c]
    ensures base + c >= |value| ==> |Column(Rows(value, width), c)| <= r
    decreases |value|
  {
    var rows := Rows(value, width);
    RowBase(r, width);
    if value == "" {
    } else if |value| <= width {
      assert rows == [value] && rows[1..] == [];
    } else {
      assert rows[0] == value[..width] && rows[1..] == Rows(value[width..], width);
      if r > 0 {
        ColumnAt(value[width..], width, c, r - 1, base - width);
      }
    }
  }

  /** Recovers the text from the code, the key and the length of the text. */
  method Uncolumnar(value: string, key: string, originalLength: nat, ghost text: string) returns (r: string)
    requires key != "" && originalLength == |text| && value == Columnar(text, key)
    ensures r == text
  {
    ghost var parts := Columns(text, |key|, ColumnOrder(key));
    assert parts[0..] == parts && value[0..] == value;
    ColumnOrderIsPermutation(key);
    var columns := CutColumns(value, ColumnOrder(key), originalLength, |key|, text);
    r := ReadRows(columns, originalLength, |key|, text);
  }

  /** Reads the columns row by row. */
  method ReadRows(columns: seq<string>, n: nat, width: nat, ghost text: string) returns (r: string)
    requires width > 0 && |columns| == width && n == |text|
    requires forall c :: 0 <= c < width ==> columns[c] == Column(Rows(text, width), c)
    ensures r == text
  {
    var rowCount := RowCount(n, width);
    r := "";
    ghost var base := 0;
    for row := 0 to rowCount
      invariant base == row * width && r == Prefix(text, base)
    {
      r := ReadRow(columns, n, width, row, base, r, text);
      NextRow(row, width);
      base := base + width;
    }
    RowsCover(n, width);
  }

  method ReadRow(columns: seq<string>, n: nat, width: nat, row: nat, ghost base: nat, read: string, ghost text: string)
    returns (r: string)
    requires width > 0 && |columns| == width && n == |text| && base == row * width && read == Prefix(text, base)
    requires forall c :: 0 <= c < width ==> columns[c] == Column(Rows(text, width), c)
    ensures r == Prefix(text, base + width)
  {
    r := read;
    for column := 0 to width
      invariant r == Prefix(text, base + column)
    {
      ColumnAt(text, width, column, row, base);
      if row * width + column < n {
        r := r + [columns[column][row]];
      }
    }
  }

  function Prefix(text: string, n: nat): string {
    if n <= |text| then text[..n] else text
  }

  /** Cuts the code into columns, taking them in the order of the key. */
  method CutColumns(value: string, order: seq<int>, n: nat, width: nat, ghost text: string)
    returns (columns: seq<string>)
    requires width > 0 && n == |text| && Ahead(value, 0, Columns(text, width, order), 0)
    requires forall c :: c in order <==> 0 <= c < width
    ensures |columns| == width && forall c :: 0 <= c < width ==> columns[c] == Column(Rows(text, width), c)
  {
    ghost var parts := Columns(text, width, order);
    columns := seq(width, _ => "");
    var offset := 0;
    for i := 0 to |order|
      invariant |columns| == width && Ahead(value, offset, parts, i)
      invariant forall c {:trigger columns[c]} ::
        0 <= c < width && c in order[..i] ==> columns[c] == Column(Rows(text, width), c)
    {
      var column := order[i];
      assert column in order && order[..i + 1] == order[..i] + [column];
      var length := ColumnLength(n, width, RowCount(n, width), column, text);
      CutNext(value, offset, parts, i);
      columns := columns[column := Slice(value, offset, offset + length)];
      offset := offset + length;
    }
    assert order[..|order|] == order;
  }

  lemma NextRow(row: nat, width: nat)
    ensures (row + 1) * width == row * width + width
  {
  }

  /** The number of rows, the last one possibly ragged. */
  function RowCount(n: nat, width: nat): nat
    requires width > 0
  {
    (n + width - 1) / width
  }

  lemma RowsCover(n: nat, width: nat)
    requires width > 0
    ensures RowCount(n, width) * width >= n
  {
  }

  /** Counts the rows that reach the given column. */
  method ColumnLength(n: nat, width: nat, rowCount: nat, column: nat, ghost text: string) returns (length: nat)
    requires column < width && rowCount == RowCount(n, width) && n == |text|
    ensures length == |Column(Rows(text, width), column)|
  {
    length := 0;
    for row := 0 to rowCount
      invariant length == if row <= |Column(Rows(text, width), column)| then row
        else |Column(Rows(text, width), column)|
    {
      ColumnAt(text, width, column, row, row * width);
      if row * width + column < n {
        length := length + 1;
      }
    }
    RowsCover(n, width);
    ColumnAt(text, width, column, rowCount, rowCount * width);
  }
}
