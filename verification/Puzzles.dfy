/** The text puzzles of the puzzle generator: how they are made from an answer, and that every one can be solved
    from its kind, its text and the length of the answer. */
module Puzzles {
  import opened Foundation
  import opened Substitution
  import opened Transposition

  datatype Kind =
    | Rot13 | CaesarSeven | AtbashText | Rot47Text | VigenereLemon | VigenereKey | AffineText | ReverseText
    | RailFenceThree | ColumnarOrbit | BaconText | AffineRailFence | VigenereReverse

  function EachChar(value: string, f: char -> char): string {
    seq(|value|, i requires 0 <= i < |value| => f(value[i]))
  }

  function ShiftBy(shift: int): char -> char { c => Shifted(c, shift) }

  function Reversed(value: string): string {
    seq(|value|, i requires 0 <= i < |value| => value[|value| - 1 - i])
  }

  /** The cipher text of each kind, before the line end is added. */
  function Cipher(kind: Kind, answer: string): string {
    match kind
    case Rot13 => EachChar(answer, ShiftBy(13))
    case CaesarSeven => EachChar(answer, ShiftBy(7))
    case AtbashText => EachChar(answer, Mirrored)
    case Rot47Text => EachChar(answer, Rotated47)
    case VigenereLemon => VigenereText(answer, "LEMON", LowerOne, 1)
    case VigenereKey => VigenereText(answer, "KEY", LowerOne, 1)
    case AffineText => EachChar(answer, AffineChar)
    case ReverseText => Reversed(answer)
    case RailFenceThree => RailCode(answer, 3)
    case ColumnarOrbit => Columnar(answer, "ORBIT")
    case BaconText => BaconCode(answer)
    case AffineRailFence => RailCode(EachChar(answer, AffineChar), 3)
    case VigenereReverse => Reversed(VigenereText(answer, "ORANGE", LowerOne, 1))
  }

  predicate IsAscii(value: string) {
    forall i :: 0 <= i < |value| ==> value[i] as int < 128
  }

  /** None stands for the encoding error that an answer outside ASCII raises. */
  function Puzzle(kind: Kind, answer: string): Option<string> {
    if IsAscii(answer) then Some(Cipher(kind, answer) + "\n") else None
  }

  method MakePuzzle(kind: Kind, answer: string) returns (r: Option<string>)
    ensures r == Puzzle(kind, answer)
  {
    if !IsAscii(answer) {
      return None;
    }
    var encoded: string;
    match kind {
      case Rot13 => encoded := Caesar(answer, 13);
      case CaesarSeven => encoded := Caesar(answer, 7);
      case AtbashText => encoded := Atbash(answer);
      case Rot47Text => encoded := EachChar(answer, Rotated47);
      case VigenereLemon =>
        var text := Vigenere(answer, "LEMON", LowerOne, 1);
        encoded := text.value;
      case VigenereKey =>
        var text := Vigenere(answer, "KEY", LowerOne, 1);
        encoded := text.value;
      case AffineText => encoded := Affine(answer);
      case ReverseText => encoded := Reversed(answer);
      case RailFenceThree =>
        var fence := RailFence(answer, 3);
        encoded := fence.value;
      case ColumnarOrbit => encoded := Columnar(answer, "ORBIT");
      case BaconText => encoded := Bacon(answer);
      case AffineRailFence =>
        var inner := Affine(answer);
        var fence := RailFence(inner, 3);
        assert inner == EachChar(answer, AffineChar);
        encoded := fence.value;
      case VigenereReverse =>
        var inner := Vigenere(answer, "ORANGE", LowerOne, 1);
        encoded := Reversed(inner.value);
    }
    assert encoded == Cipher(kind, answer);
    r := Some(encoded + "\n");
  }

  function StripLines(text: string): string {
    if text != "" && text[|text| - 1] == '\n' then StripLines(text[..|text| - 1]) else text
  }

  lemma StripOne(text: string)
    requires '\n' !in text
    ensures StripLines(text + "\n") == text
  {
    assert (text + "\n")[..|text|] == text;
  }

  lemma {:induction false} RailKeeps(text: string, rails: nat, r: nat)
    requires '\n' !in text
    ensures '\n' !in Rail(text, rails, r)
  {
    if text != "" { RailKeeps(text[..|text| - 1], rails, r); }
  }

  lemma {:induction false} ColumnKeeps(rows: seq<string>, c: nat)
    requires forall i :: 0 <= i < |rows| ==> '\n' !in rows[i]
    ensures '\n' !in Column(rows, c)
  {
    if rows != [] { ColumnKeeps(rows[1..], c); }
  }

  lemma {:induction false} RowsKeep(value: string, width: nat)
    requires width > 0 && '\n' !in value
    ensures forall i :: 0 <= i < |Rows(value, width)| ==> '\n' !in Rows(value, width)[i]
    decreases |value|
  {
    if |value| > width { RowsKeep(value[width..], width); }
  }

  lemma {:induction false} SpacedKeeps(tokens: seq<string>)
    requires forall i :: 0 <= i < |tokens| ==> '\n' !in tokens[i]
    ensures '\n' !in Spaced(tokens)
  {
    if |tokens| > 1 { SpacedKeeps(tokens[1..]); }
  }

  lemma RailCodeKeeps(value: string, rails: nat)
    requires '\n' !in value
    ensures '\n' !in RailCode(value, rails)
  {
    forall r | 0 <= r < rails ensures '\n' !in Rails(value, rails)[r] { RailKeeps(value, rails, r); }
    JoinCharacters(Rails(value, rails), '\n');
  }

  lemma ColumnarKeeps(value: string, key: string)
    requires key != "" && '\n' !in value
    ensures '\n' !in Columnar(value, key)
  {
    var parts := Columns(value, |key|, ColumnOrder(key));
    ColumnOrderIsPermutation(key);
    RowsKeep(value, |key|);
    forall i | 0 <= i < |parts|
      ensures '\n' !in parts[i]
    {
      assert ColumnOrder(key)[i] in ColumnOrder(key);
      ColumnKeeps(Rows(value, |key|), ColumnOrder(key)[i]);
    }
    JoinCharacters(parts, '\n');
  }

  lemma VigenereKeeps(value: string, key: string)
    requires key != "" && '\n' !in value
    ensures '\n' !in VigenereText(value, key, LowerOne, 1)
  {
    forall i | 0 <= i < |value|
      ensures VigenereChar(value, key, LowerOne, i, 1) != '\n'
    {
      ShiftInverse(value[i], KeyShift(key, LowerOne, LettersIn(value, i)).value);
    }
  }

  lemma EachCharKeeps(value: string, f: char -> char)
    requires '\n' !in value && forall c :: f(c) == '\n' ==> c == '\n'
    ensures '\n' !in EachChar(value, f)
  {
  }

  lemma BaconKeeps(value: string)
    requires '\n' !in value
    ensures '\n' !in BaconCode(value)
  {
    forall i | 0 <= i < |value| ensures '\n' !in Tokens(value)[i] { TokenCharacters(value[i]); }
    SpacedKeeps(Tokens(value));
  }

  /** No cipher introduces a line end. */
  lemma CipherHasNoLineEnd(kind: Kind, answer: string)
    requires '\n' !in answer
    ensures '\n' !in Cipher(kind, answer)
  {
    match kind
    case RailFenceThree => RailCodeKeeps(answer, 3);
    case ColumnarOrbit => ColumnarKeeps(answer, "ORBIT");
    case BaconText => BaconKeeps(answer);
    case AffineText => EachCharKeeps(answer, AffineChar);
    case AffineRailFence =>
      EachCharKeeps(answer, AffineChar);
      RailCodeKeeps(EachChar(answer, AffineChar), 3);
    case VigenereLemon => VigenereKeeps(answer, "LEMON");
    case VigenereKey => VigenereKeeps(answer, "KEY");
    case VigenereReverse => VigenereKeeps(answer, "ORANGE");
    case Rot13 => EachCharKeeps(answer, ShiftBy(13));
    case CaesarSeven => EachCharKeeps(answer, ShiftBy(7));
    case AtbashText => EachCharKeeps(answer, Mirrored);
    case Rot47Text => EachCharKeeps(answer, Rotated47);
    case ReverseText =>
  }

  /** An answer a puzzle can carry: no line end, and for Bacon's cipher no space. */
  predicate Carries(kind: Kind, answer: string) {
    '\n' !in answer && (kind.BaconText? ==> ' ' !in answer)
  }

  /** Every generated puzzle is solvable: the decoder sees only the kind, the puzzle text and the length of
      the answer, and returns the answer. */
  method Solve(kind: Kind, source: string, originalLength: nat, ghost answer: string) returns (r: string)
    requires Puzzle(kind, answer) == Some(source) && originalLength == |answer| && Carries(kind, answer)
    ensures r == answer
  {
    CipherHasNoLineEnd(kind, answer);
    StripOne(Cipher(kind, answer));
    var text := StripLines(source);
    match kind {
      case Rot13 => r := Unshift(text, 13, answer);
      case CaesarSeven => r := Unshift(text, 7, answer);
      case AtbashText =>
        r := Atbash(text);
        forall i | 0 <= i < |answer| ensures r[i] == answer[i] { MirrorInvolution(answer[i]); }
      case Rot47Text =>
        r := EachChar(text, Rotated47);
        forall i | 0 <= i < |answer| ensures r[i] == answer[i] { Rot47Involution(answer[i]); }
      case VigenereLemon =>
        VigenereInverse(answer, "LEMON", LowerOne);
        var plain := Vigenere(text, "LEMON", LowerOne, -1);
        r := plain.value;
      case VigenereKey =>
        VigenereInverse(answer, "KEY", LowerOne);
        var plain := Vigenere(text, "KEY", LowerOne, -1);
        r := plain.value;
      case AffineText => r := Unaffine(text, answer);
      case ReverseText =>
        r := Reversed(text);
        assert Reversed(Reversed(answer)) == answer;
      case RailFenceThree =>
        RailCodeLength(answer, 3);
        r := UnrailFence(text, 3, answer);
      case ColumnarOrbit => r := Uncolumnar(text, "ORBIT", originalLength, answer);
      case BaconText =>
        BaconInverse(answer);
        r := DecodeBacon(text);
      case AffineRailFence =>
        RailCodeLength(EachChar(answer, AffineChar), 3);
        var inner := UnrailFence(text, 3, EachChar(answer, AffineChar));
        r := Unaffine(inner, answer);
      case VigenereReverse =>
        VigenereInverse(answer, "ORANGE", LowerOne);
        assert Reversed(text) == VigenereText(answer, "ORANGE", LowerOne, 1);
        var plain := Vigenere(Reversed(text), "ORANGE", LowerOne, -1);
        r := plain.value;
    }
  }

  method Unshift(text: string, shift: int, ghost answer: string) returns (r: string)
    requires text == EachChar(answer, ShiftBy(shift))
    ensures r == answer
  {
    r := Caesar(text, -shift);
    forall i | 0 <= i < |answer| ensures r[i] == answer[i] { ShiftInverse(answer[i], shift); }
  }

  method Unaffine(text: string, ghost answer: string) returns (r: string)
    requires text == EachChar(answer, AffineChar)
    ensures r == answer
  {
    r := EachChar(text, UnaffineChar);
    forall i | 0 <= i < |answer| ensures r[i] == answer[i] { AffineInverse(answer[i]); }
  }

  // ---------------------------------------------------------------- the rail fence loses no character

  function TotalCount(k: nat, rails: nat, from: nat): nat
    requires from <= rails
    decreases rails - from
  {
    if from == rails then 0 else RailCount(k, rails, from) + TotalCount(k, rails, from + 1)
  }

  lemma {:induction false} OneMore(k: nat, rails: nat, from: nat)
    requires from <= rails && 0 <= Zigzag(k, rails).0 < rails
    ensures TotalCount(k + 1, rails, from) == TotalCount(k, rails, from) + (if from <= Zigzag(k, rails).0 then 1 else 0)
    decreases rails - from
  {
    if from < rails { OneMore(k, rails, from + 1); }
  }

  lemma {:induction false} EveryCharacterOnARail(k: nat, rails: nat)
    requires rails >= 2
    ensures TotalCount(k, rails, 0) == k
  {
    if k == 0 {
      NoneYet(rails, 0);
    } else {
      EveryCharacterOnARail(k - 1, rails);
      ZigzagStaysOnRails(k - 1, rails);
      OneMore(k - 1, rails, 0);
    }
  }

  lemma {:induction false} NoneYet(rails: nat, from: nat)
    requires from <= rails
    ensures TotalCount(0, rails, from) == 0
    decreases rails - from
  {
    if from < rails { NoneYet(rails, from + 1); }
  }

  lemma {:induction false} JoinedLength(text: string, rails: nat, from: nat)
    requires from <= rails
    ensures |Join(Rails(text, rails)[from..])| == TotalCount(|text|, rails, from)
    decreases rails - from
  {
    if from < rails {
      var parts := Rails(text, rails);
      JoinedLength(text, rails, from + 1);
      RailLength(text, rails, from);
      assert parts[from..][1..] == parts[from + 1..];
    }
  }

  /** The code is as long as the text. */
  lemma RailCodeLength(text: string, rails: nat)
    requires rails >= 2
    ensures |RailCode(text, rails)| == |text|
  {
    assert Rails(text, rails)[0..] == Rails(text, rails);
    JoinedLength(text, rails, 0);
    EveryCharacterOnARail(|text|, rails);
  }

  // ---------------------------------------------------------------- the generated checker programs

  function PythonMask(index: nat): Byte { (index * 7 + 29) % 256 }

  /** The list that the generated Python checker holds. */
  function PythonExpected(raw: Bytes): Bytes {
    seq(|raw|, i requires 0 <= i < |raw| => Xor(raw[i], PythonMask(i)))
  }

  predicate PythonAccepts(expected: Bytes, candidate: Bytes) {
    |candidate| == |expected| && forall i :: 0 <= i < |candidate| ==> Xor(candidate[i], PythonMask(i)) == expected[i]
  }

  /** The list that the generated JavaScript checker holds. */
  function JavaScriptExpected(raw: Bytes): Bytes {
    seq(|raw|, i requires 0 <= i < |raw| => (raw[i] + i * 3) % 256)
  }

  predicate JavaScriptAccepts(expected: Bytes, candidate: Bytes) {
    |candidate| == |expected| && forall i :: 0 <= i < |candidate| ==> (candidate[i] + i * 3) % 256 == expected[i]
  }

  /** Encoding a typed line to ASCII with errors ignored drops every other character. */
  function EncodeIgnoring(line: string): Bytes {
    if line == "" then []
    else (if line[0] as int < 128 then [line[0] as int] else []) + EncodeIgnoring(line[1..])
  }

  function AsciiPart(line: string): string {
    if line == "" then "" else (if line[0] as int < 128 then [line[0]] else "") + AsciiPart(line[1..])
  }

  /** The generated Python checker, from the line its user types to its verdict. */
  predicate PythonProgramAccepts(answer: string, line: string) {
    PythonAccepts(PythonExpected(EncodeIgnoring(answer)), EncodeIgnoring(line))
  }

  /** The comparison inside the Python checker accepts the bytes it was made from and nothing else. */
  lemma PythonComparisonIsExact(raw: Bytes, candidate: Bytes)
    ensures PythonAccepts(PythonExpected(raw), candidate) <==> candidate == raw
  {
    if PythonAccepts(PythonExpected(raw), candidate) {
      forall i | 0 <= i < |raw|
        ensures candidate[i] == raw[i]
      {
        assert Xor(candidate[i], PythonMask(i)) == Xor(raw[i], PythonMask(i));
        XorUndone(candidate[i], PythonMask(i));
        XorUndone(raw[i], PythonMask(i));
      }
    }
  }

  lemma {:induction false} EncodesAsciiPart(line: string)
    ensures EncodeIgnoring(AsciiPart(line)) == EncodeIgnoring(line)
  {
    if line != "" {
      EncodesAsciiPart(line[1..]);
      var rest := AsciiPart(line[1..]);
      if line[0] as int < 128 {
        assert AsciiPart(line) == [line[0]] + rest && ([line[0]] + rest)[1..] == rest;
      } else {
        assert AsciiPart(line) == rest;
      }
    }
  }

  lemma {:induction false} AsciiPartIsAscii(line: string)
    ensures IsAscii(AsciiPart(line))
    ensures IsAscii(line) ==> AsciiPart(line) == line
  {
    if line != "" {
      AsciiPartIsAscii(line[1..]);
      assert line == [line[0]] + line[1..];
    }
  }

  lemma {:induction false} AsciiCodesDiffer(a: string, b: string)
    requires IsAscii(a) && IsAscii(b) && EncodeIgnoring(a) == EncodeIgnoring(b)
    ensures a == b
  {
    if a != "" && b != "" {
      assert EncodeIgnoring(a)[0] == EncodeIgnoring(b)[0];
      assert EncodeIgnoring(a)[1..] == EncodeIgnoring(a[1..]) && EncodeIgnoring(b)[1..] == EncodeIgnoring(b[1..]);
      AsciiCodesDiffer(a[1..], b[1..]);
      assert a == [a[0]] + a[1..] && b == [b[0]] + b[1..];
    } else {
      assert a != "" ==> |EncodeIgnoring(a)| > 0;
      assert b != "" ==> |EncodeIgnoring(b)| > 0;
    }
  }

  /** The generated Python checker accepts a line exactly when the line is the answer once its characters outside
      ASCII are dropped. */
  lemma {:induction false} PythonCheckerAcceptsExactly(answer: string, line: string)
    requires IsAscii(answer)
    ensures PythonProgramAccepts(answer, line) <==> AsciiPart(line) == answer
    ensures IsAscii(line) ==> (PythonProgramAccepts(answer, line) <==> line == answer)
  {
    PythonComparisonIsExact(EncodeIgnoring(answer), EncodeIgnoring(line));
    EncodesAsciiPart(line);
    AsciiPartIsAscii(line);
    if EncodeIgnoring(line) == EncodeIgnoring(answer) { AsciiCodesDiffer(AsciiPart(line), answer); }
  }

  /** So it accepts more than the answer: an accented letter in front of it goes unnoticed. */
  lemma PythonCheckerAcceptsMore(answer: string)
    requires IsAscii(answer)
    ensures ['\U{E9}'] + answer != answer && PythonProgramAccepts(answer, ['\U{E9}'] + answer)
  {
    var line := ['\U{E9}'] + answer;
    assert line[1..] == answer;
    AsciiPartIsAscii(answer);
    PythonCheckerAcceptsExactly(answer, line);
  }

  /** The generated JavaScript checker accepts the bytes of its answer and nothing else. */
  lemma JavaScriptCheckerIsExact(raw: Bytes, candidate: Bytes)
    ensures JavaScriptAccepts(JavaScriptExpected(raw), candidate) <==> candidate == raw
  {
    if JavaScriptAccepts(JavaScriptExpected(raw), candidate) {
      forall i | 0 <= i < |raw|
        ensures candidate[i] == raw[i]
      {
        SameResidue(candidate[i], raw[i], i * 3);
      }
    }
  }

  lemma SameResidue(a: Byte, b: Byte, k: int)
    requires (a + k) % 256 == (b + k) % 256
    ensures a == b
  {
    var p, q := (a + k) / 256, (b + k) / 256;
    assert a - b == 256 * (p - q);
  }

  // ---------------------------------------------------------------- the answers of the generator

  /** A flag built from the first twenty digits of a hexadecimal digest. */
  function Answer(digest: string): string { "TPM{" + digest + "}" }

  /** The generator's own answers can be carried by every kind of puzzle. */
  lemma GeneratedAnswersAreCarried(kind: Kind, digest: string)
    requires |digest| == 20 && forall i :: 0 <= i < 20 ==> digest[i] in "0123456789abcdef"
    ensures Carries(kind, Answer(digest)) && Puzzle(kind, Answer(digest)).Some?
  {
    var answer := Answer(digest);
    forall i | 0 <= i < |answer|
      ensures answer[i] != '\n' && answer[i] != ' ' && answer[i] as int < 128
    {
      if 4 <= i < 24 { assert answer[i] == digest[i - 4]; }
    }
  }
}
