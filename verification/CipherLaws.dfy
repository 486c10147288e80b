/** What each cipher of the puzzle generator does to a text, told without the functions that compute it: by distances
    in the alphabet, bits, and the order of places. */
module CipherLaws {
  import opened Foundation
  import opened Substitution
  import opened Transposition
  import opened Puzzles

  /** Both are small letters, or both are capitals. */
  predicate SameCase(c: char, d: char) {
    ('a' <= c <= 'z' && 'a' <= d <= 'z') || ('A' <= c <= 'Z' && 'A' <= d <= 'Z')
  }

  predicate NoLetter(c: char) { !('a' <= c <= 'z') && !('A' <= c <= 'Z') }

  /** d lies so many places further in the alphabet, going round; other characters stay. */
  predicate PlacesOn(c: char, d: char, places: int) {
    if NoLetter(c) then d == c else SameCase(c, d) && (d as int - c as int - places) % 26 == 0
  }

  lemma Congruent(x: int)
    ensures (x % 26 - x) % 26 == 0
  {
  }

  lemma ShiftGoesOn(c: char, shift: int)
    ensures PlacesOn(c, Shifted(c, shift), shift)
  {
    if !NoLetter(c) {
      Congruent(c as int - (if IsLower(c) then 97 else 65) + shift);
    }
  }

  /** d is as far from the end of the alphabet as c is from its beginning. */
  predicate Opposite(c: char, d: char) {
    if NoLetter(c) then d == c
    else SameCase(c, d) && c as int + d as int == if c >= 'a' then 'a' as int + 'z' as int else 'A' as int + 'Z' as int
  }

  lemma MirrorIsOpposite(c: char)
    ensures Opposite(c, Mirrored(c))
  {
  }

  /** Printable characters move by half of their 94. */
  predicate HalfTurn(c: char, d: char) {
    if '!' <= c <= '~' then '!' <= d <= '~' && (d as int - c as int) in {47, -47} else d == c
  }

  lemma RotationIsHalfTurn(c: char)
    ensures HalfTurn(c, Rotated47(c))
  {
  }

  /** With a at place 0, place p goes to 5p + 8, going round. */
  predicate AffinePlaces(c: char, d: char) {
    if NoLetter(c) then d == c
    else
      var a := if c >= 'a' then 'a' as int else 'A' as int;
      SameCase(c, d) && (d as int - a - 5 * (c as int - a) - 8) % 26 == 0
  }

  lemma AffineGoesOn(c: char)
    ensures AffinePlaces(c, AffineChar(c))
  {
    if !NoLetter(c) {
      var a := if IsLower(c) then 97 else 65;
      Congruent(5 * (c as int - a) + 8);
    }
  }

  // ---------------------------------------------------------------- Vigenere

  /** How many letters stand before a place. */
  lemma {:induction false} LettersBefore(value: string, n: nat)
    requires n <= |value|
    ensures LettersIn(value, n) == |set k: nat | k < n && !NoLetter(value[k])|
  {
    var before := set k: nat | k < n && !NoLetter(value[k]);
    if n == 0 {
      assert before == {};
    } else {
      LettersBefore(value, n - 1);
      var earlier := set k: nat | k < n - 1 && !NoLetter(value[k]);
      assert before == if NoLetter(value[n - 1]) then earlier else earlier + {n - 1};
    }
  }

  /** Each letter goes on by the place of the key letter that is due: the key is repeated along the letters alone. */
  ghost predicate KeyedBy(value: string, code: string, key: string) {
    && |code| == |value| && key != ""
    && forall i :: 0 <= i < |value| ==> DueTells(value, code, key, i)
  }

  ghost predicate DueTells(value: string, code: string, key: string, i: nat)
    requires i < |value| == |code| && key != ""
  {
    var due := key[|set k: nat | k < i && !NoLetter(value[k])| % |key|];
    PlacesOn(value[i], code[i], due as int - if due >= 'a' then 'a' as int else 'A' as int)
  }

  lemma {:induction false} VigenereIsKeyed(value: string, key: string)
    requires key != "" && forall i :: 0 <= i < |key| ==> IsLetter(key[i])
    ensures KeyedBy(value, VigenereText(value, key, LowerOne, 1), key)
  {
    var code := VigenereText(value, key, LowerOne, 1);
    forall i | 0 <= i < |value|
      ensures DueTells(value, code, key, i)
    {
      LettersBefore(value, i);
      var due := key[LettersIn(value, i) % |key|];
      assert IsLetter(due);
      var shift := KeyShift(key, LowerOne, LettersIn(value, i)).value;
      assert shift == due as int - if due >= 'a' then 97 else 65;
      assert code[i] == Shifted(value[i], 1 * shift);
      ShiftGoesOn(value[i], shift);
    }
  }

  // ---------------------------------------------------------------- repeating XOR

  function BitOf(a: nat, k: nat): nat { if k == 0 then a % 2 else BitOf(a / 2, k - 1) }

  lemma {:induction false} XorBit(a: nat, b: nat, n: nat, k: nat)
    requires k < n
    ensures BitOf(XorBits(a, b, n), k) == 1 <==> BitOf(a, k) != BitOf(b, k)
  {
    Halves(XorBits(a / 2, b / 2, n - 1), (a + b) % 2);
    if k > 0 { XorBit(a / 2, b / 2, n - 1, k - 1); }
  }

  /** Bit k of byte i is one exactly where data and the key, repeated, differ. */
  lemma XorTells(data: Bytes, key: Bytes, i: nat, k: nat)
    requires i < |data| && key != [] && k < 8
    ensures |XorRepeating(data, key)| == |data|
    ensures BitOf(XorRepeating(data, key)[i], k) == 1 <==> BitOf(data[i], k) != BitOf(key[i % |key|], k)
  {
    EightBits();
    XorBit(data[i], key[i % |key|], 8, k);
  }

  // ---------------------------------------------------------------- Bacon

  /** Five signs in the case of the letter; sign k is a b exactly where bit 4 - k of its place is one. Other
      characters stand for themselves. */
  ghost predicate Spells(c: char, token: string) {
    if NoLetter(c) then token == [c]
    else
      var a := if c >= 'a' then 'a' else 'A';
      && |token| == 5
      && forall k :: 0 <= k < 5 ==>
           token[k] == if BitOf(c as int - a as int, 4 - k) == 1 then (a as int + 1) as char else a
  }

  lemma BaconSpells(c: char)
    ensures Spells(c, BaconToken(c))
  {
    if !NoLetter(c) {
      var n := if c >= 'a' then c as int - 97 else c as int - 65;
      FiveBits(n);
    }
  }

  lemma FiveBits(n: nat)
    requires n < 26
    ensures BitOf(n, 4) == Digit(n, 16) && BitOf(n, 3) == Digit(n, 8) && BitOf(n, 2) == Digit(n, 4)
    ensures BitOf(n, 1) == Digit(n, 2) && BitOf(n, 0) == Digit(n, 1)
  {
    NextBit(n, 3, 8);
    NextBit(n, 2, 4);
    NextBit(n, 1, 2);
    NextBit(n, 0, 1);
    NextBit(n / 2, 2, 4);
    NextBit(n / 2, 1, 2);
    NextBit(n / 2, 0, 1);
    NextBit(n / 4, 1, 2);
    NextBit(n / 4, 0, 1);
    NextBit(n / 8, 0, 1);
  }

  lemma NextBit(n: nat, k: nat, weight: nat)
    requires n < 26 && weight in {1, 2, 4, 8}
    ensures BitOf(n, k + 1) == BitOf(n / 2, k) && n / 2 / weight == n / (2 * weight)
  {
  }

  // ---------------------------------------------------------------- the checker programs

  /** The Python checker holds the answer with the bits of 29, 36, 43 and so on flipped, byte by byte. */
  lemma PythonMasks(raw: Bytes, i: nat, k: nat)
    requires i < |raw| && k < 8
    ensures |PythonExpected(raw)| == |raw|
    ensures BitOf(PythonExpected(raw)[i], k) == 1 <==> BitOf(raw[i], k) != BitOf((29 + 7 * i) % 256, k)
  {
    EightBits();
    XorBit(raw[i], PythonMask(i), 8, k);
  }

  /** The JavaScript checker holds the answer with 0, 3, 6 and so on added, byte by byte. */
  lemma JavaScriptOffsets(raw: Bytes, i: nat)
    requires i < |raw|
    ensures |JavaScriptExpected(raw)| == |raw|
    ensures JavaScriptExpected(raw)[i] == raw[i] + 3 * i - (raw[i] + 3 * i) / 256 * 256
  {
  }

  // ---------------------------------------------------------------- the puzzles

  ghost predicate EachGoes(answer: string, code: string, goes: (char, char) -> bool) {
    |code| == |answer| && forall i :: 0 <= i < |answer| ==> goes(answer[i], code[i])
  }

  ghost predicate EachSpells(answer: string, tokens: seq<string>) {
    |tokens| == |answer| && forall i :: 0 <= i < |answer| ==> Spells(answer[i], tokens[i])
  }

  function On(places: int): (char, char) -> bool { (c: char, d: char) => PlacesOn(c, d, places) }

  predicate Backwards(a: string, b: string) { |a| == |b| && forall i :: 0 <= i < |a| ==> b[i] == a[|a| - 1 - i] }

  /** What each kind of puzzle tells its solver about the code. */
  ghost predicate Described(kind: Kind, answer: string, code: string) {
    match kind
    case Rot13 => EachGoes(answer, code, On(13))
    case CaesarSeven => EachGoes(answer, code, On(7))
    case AtbashText => EachGoes(answer, code, Opposite)
    case Rot47Text => EachGoes(answer, code, HalfTurn)
    case VigenereLemon => KeyedBy(answer, code, "LEMON")
    case VigenereKey => KeyedBy(answer, code, "KEY")
    case AffineText => EachGoes(answer, code, AffinePlaces)
    case ReverseText => Backwards(answer, code)
    case RailFenceThree => Arranged(answer, code, RailBefore(3))
    case ColumnarOrbit => Arranged(answer, code, ColumnBefore("ORBIT"))
    case BaconText => exists tokens :: EachSpells(answer, tokens) && code == Spaced(tokens)
    case AffineRailFence =>
      exists inner :: EachGoes(answer, inner, AffinePlaces) && Arranged(inner, code, RailBefore(3))
    case VigenereReverse => exists inner :: KeyedBy(answer, inner, "ORANGE") && Backwards(inner, code)
  }

  /** Every puzzle is its code and a line end, and the code is as described. */
  lemma {:induction false} PuzzleIsDescribed(kind: Kind, answer: string, text: string)
    requires Puzzle(kind, answer) == Some(text)
    ensures exists code :: text == code + "\n" && Described(kind, answer, code)
  {
    var code := Cipher(kind, answer);
    match kind
    case Rot13 => forall i | 0 <= i < |answer| ensures On(13)(answer[i], code[i]) { ShiftGoesOn(answer[i], 13); }
    case CaesarSeven => forall i | 0 <= i < |answer| ensures On(7)(answer[i], code[i]) { ShiftGoesOn(answer[i], 7); }
    case AtbashText =>
      forall i | 0 <= i < |answer| ensures Opposite(answer[i], code[i]) { MirrorIsOpposite(answer[i]); }
    case Rot47Text =>
      forall i | 0 <= i < |answer| ensures HalfTurn(answer[i], code[i]) { RotationIsHalfTurn(answer[i]); }
    case VigenereLemon => VigenereIsKeyed(answer, "LEMON");
    case VigenereKey => VigenereIsKeyed(answer, "KEY");
    case AffineText => AffineIsDescribed(answer);
    case ReverseText =>
    case RailFenceThree => RailCodeIsArranged(answer, 3);
    case ColumnarOrbit => ColumnarIsArranged(answer, "ORBIT");
    case BaconText =>
      forall i | 0 <= i < |answer| ensures Spells(answer[i], Tokens(answer)[i]) { BaconSpells(answer[i]); }
    case AffineRailFence =>
      AffineIsDescribed(answer);
      RailCodeIsArranged(EachChar(answer, AffineChar), 3);
    case VigenereReverse => VigenereIsKeyed(answer, "ORANGE");
    assert text == code + "\n" && Described(kind, answer, code);
  }

  lemma AffineIsDescribed(answer: string)
    ensures EachGoes(answer, EachChar(answer, AffineChar), AffinePlaces)
  {
    forall i | 0 <= i < |answer|
      ensures AffinePlaces(answer[i], AffineChar(answer[i]))
    {
      AffineGoesOn(answer[i]);
    }
  }
}
