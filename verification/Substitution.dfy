/** The letter-by-letter ciphers of the puzzle generator, each beside the decoder that undoes it. */
module Substitution {
  import opened Foundation

  predicate IsLower(c: char) { 'a' <= c <= 'z' }

  predicate IsUpper(c: char) { 'A' <= c <= 'Z' }

  predicate IsLetter(c: char) { IsLower(c) || IsUpper(c) }

  /** Replaces the position of a letter in its alphabet and keeps its case; other characters stay. */
  function OnLetter(c: char, f: int -> int): char {
    if IsLower(c) then (f(c as int - 97) % 26 + 97) as char
    else if IsUpper(c) then (f(c as int - 65) % 26 + 65) as char
    else c
  }

  function Shifted(c: char, shift: int): char { OnLetter(c, x => x + shift) }

  method Caesar(value: string, shift: int) returns (result: string)
    ensures |result| == |value| && forall i :: 0 <= i < |value| ==> result[i] == Shifted(value[i], shift)
  {
    result := "";
    for i := 0 to |value|
      invariant |result| == i && forall k :: 0 <= k < i ==> result[k] == Shifted(value[k], shift)
    {
      var c := value[i];
      if 'a' <= c <= 'z' {
        result := result + [((c as int - 97 + shift) % 26 + 97) as char];
      } else if 'A' <= c <= 'Z' {
        result := result + [((c as int - 65 + shift) % 26 + 65) as char];
      } else {
        result := result + [c];
      }
    }
  }

  /** Shifting back by the same amount restores every character, whatever the sign or size of the shift. */
  lemma {:induction false} ShiftInverse(c: char, shift: int)
    ensures Shifted(Shifted(c, shift), -shift) == c
    ensures IsLetter(Shifted(c, shift)) <==> IsLetter(c)
    ensures IsLower(Shifted(c, shift)) <==> IsLower(c)
  {
    if IsLetter(c) {
      var x := c as int - (if IsLower(c) then 97 else 65);
      ModShift(x, shift);
    }
  }

  lemma ModShift(x: int, shift: int)
    requires 0 <= x < 26
    ensures ((x + shift) % 26 - shift) % 26 == x
  {
    var y, q := (x + shift) % 26, (x + shift) / 26;
    assert x + shift == 26 * q + y;
    assert y - shift == x - 26 * q;
  }

  function Mirrored(c: char): char {
    if IsLower(c) then (122 - (c as int - 97)) as char
    else if IsUpper(c) then (90 - (c as int - 65)) as char
    else c
  }

  lemma MirrorInvolution(c: char)
    ensures Mirrored(Mirrored(c)) == c
  {
  }

  method Atbash(value: string) returns (result: string)
    ensures |result| == |value| && forall i :: 0 <= i < |value| ==> result[i] == Mirrored(value[i])
  {
    result := "";
    for i := 0 to |value|
      invariant |result| == i && forall k :: 0 <= k < i ==> result[k] == Mirrored(value[k])
    {
      var c := value[i];
      if 'a' <= c <= 'z' {
        result := result + [(122 - (c as int - 97)) as char];
      } else if 'A' <= c <= 'Z' {
        result := result + [(90 - (c as int - 65)) as char];
      } else {
        result := result + [c];
      }
    }
  }

  function Rotated47(c: char): char {
    if '!' <= c <= '~' then (33 + (c as int - 33 + 47) % 94) as char else c
  }

  /** Half of the 94 printable characters: the rotation is its own inverse. */
  lemma Rot47Involution(c: char)
    ensures Rotated47(Rotated47(c)) == c
    ensures Rotated47(c) == '\n' ==> c == '\n'
  {
  }

  /** p goes to 5p + 8; 21 is the inverse of 5 modulo 26. */
  function AffineChar(c: char): char { OnLetter(c, p => 5 * p + 8) }

  function UnaffineChar(c: char): char { OnLetter(c, q => 21 * (q - 8)) }

  method Affine(value: string) returns (result: string)
    ensures |result| == |value| && forall i :: 0 <= i < |value| ==> result[i] == AffineChar(value[i])
  {
    result := "";
    for i := 0 to |value|
      invariant |result| == i && forall k :: 0 <= k < i ==> result[k] == AffineChar(value[k])
    {
      var c := value[i];
      if 'a' <= c <= 'z' {
        result := result + [((5 * (c as int - 97) + 8) % 26 + 97) as char];
      } else if 'A' <= c <= 'Z' {
        result := result + [((5 * (c as int - 65) + 8) % 26 + 65) as char];
      } else {
        result := result + [c];
      }
    }
  }

  lemma {:induction false} AffineInverse(c: char)
    ensures UnaffineChar(AffineChar(c)) == c
  {
    if IsLetter(c) {
      var p := c as int - (if IsLower(c) then 97 else 65);
      AffineModInverse(p);
    }
  }

  lemma AffineModInverse(p: int)
    requires 0 <= p < 26
    ensures (21 * ((5 * p + 8) % 26 - 8)) % 26 == p
  {
    var y, q := (5 * p + 8) % 26, (5 * p + 8) / 26;
    assert 21 * (y - 8) == p + 26 * (4 * p - 21 * q);
    MultipleAdded(p, 4 * p - 21 * q);
  }

  lemma MultipleAdded(p: int, k: int)
    requires 0 <= p < 26
    ensures (p + 26 * k) % 26 == p
  {
  }

  // ---------------------------------------------------------------- Vigenere

  /** How many of the first n characters are letters: the key advances only on those. */
  function LettersIn(value: string, n: nat): nat
    requires n <= |value|
  {
    if n == 0 then 0 else LettersIn(value, n - 1) + (if IsLetter(value[n - 1]) then 1 else 0)
  }

  /** ASCII lower-casing. */
  function Lower(c: char): char { if IsUpper(c) then (c as int + 32) as char else c }

  /** Python's lower-casing of one character, which may yield several; any function may stand for it. */
  type Lowering = char -> string

  /** On ASCII it is this one. */
  function LowerOne(c: char): string { [Lower(c)] }

  /** The shift that letter number k of a text meets: None where the key is empty (a division by zero) or its
      character lower-cases to anything but one character (a type error). */
  function KeyShift(key: string, lower: Lowering, k: nat): Option<int> {
    if key == "" || |lower(key[k % |key|])| != 1 then None else Some(lower(key[k % |key|])[0] as int - 97)
  }

  /** Every letter of the text meets a shift. */
  ghost predicate Keyed(value: string, key: string, lower: Lowering) {
    forall i :: 0 <= i < |value| && IsLetter(value[i]) ==> KeyShift(key, lower, LettersIn(value, i)).Some?
  }

  /** Sign 1 enciphers and -1 deciphers. */
  function VigenereChar(value: string, key: string, lower: Lowering, i: nat, sign: int): char
    requires i < |value|
  {
    match KeyShift(key, lower, LettersIn(value, i))
    case Some(shift) => Shifted(value[i], sign * shift)
    case None => value[i]
  }

  function VigenereText(value: string, key: string, lower: Lowering, sign: int): string {
    seq(|value|, i requires 0 <= i < |value| => VigenereChar(value, key, lower, i, sign))
  }

  method Vigenere(value: string, key: string, lower: Lowering, sign: int) returns (r: Option<string>)
    ensures r.Some? <==> Keyed(value, key, lower)
    ensures r.Some? ==> r.value == VigenereText(value, key, lower, sign)
  {
    var result := "";
    var keyIndex := 0;
    for i := 0 to |value|
      invariant keyIndex == LettersIn(value, i)
      invariant forall k :: 0 <= k < i && IsLetter(value[k]) ==> KeyShift(key, lower, LettersIn(value, k)).Some?
      invariant |result| == i && forall k :: 0 <= k < i ==> result[k] == VigenereChar(value, key, lower, k, sign)
    {
      var c := value[i];
      if 'a' <= c <= 'z' || 'A' <= c <= 'Z' {
        var base := if IsLower(c) then 97 else 65;
        var keyShift := KeyShift(key, lower, keyIndex);
        if keyShift.None? {
          return None;
        }
        var shift := sign * keyShift.value;
        result := result + [((c as int - base + shift) % 26 + base) as char];
        keyIndex := keyIndex + 1;
      } else {
        result := result + [c];
      }
    }
    r := Some(result);
  }

  lemma {:induction false} SameLetters(value: string, cipher: string, n: nat)
    requires |value| == |cipher| && n <= |value|
    requires forall i :: 0 <= i < |value| ==> (IsLetter(cipher[i]) <==> IsLetter(value[i]))
    ensures LettersIn(cipher, n) == LettersIn(value, n)
  {
    if n > 0 { SameLetters(value, cipher, n - 1); }
  }

  lemma {:induction false} CipherKeepsLetters(value: string, key: string, lower: Lowering, i: nat)
    requires i < |value|
    ensures IsLetter(VigenereText(value, key, lower, 1)[i]) <==> IsLetter(value[i])
  {
    match KeyShift(key, lower, LettersIn(value, i))
    case Some(shift) => ShiftInverse(value[i], shift);
    case None =>
  }

  lemma {:induction false} CipherCounts(value: string, key: string, lower: Lowering, i: nat)
    requires i < |value|
    ensures LettersIn(VigenereText(value, key, lower, 1), i) == LettersIn(value, i)
  {
    var cipher := VigenereText(value, key, lower, 1);
    forall j | 0 <= j < |value|
      ensures IsLetter(cipher[j]) <==> IsLetter(value[j])
    {
      CipherKeepsLetters(value, key, lower, j);
    }
    SameLetters(value, cipher, i);
  }

  lemma {:induction false} VigenereCharInverse(value: string, key: string, lower: Lowering, i: nat)
    requires i < |value|
    ensures VigenereChar(VigenereText(value, key, lower, 1), key, lower, i, -1) == value[i]
  {
    CipherCounts(value, key, lower, i);
    var shift := KeyShift(key, lower, LettersIn(value, i));
    if shift.Some? {
      assert 1 * shift.value == shift.value && -1 * shift.value == -shift.value;
      ShiftInverse(value[i], shift.value);
    }
  }

  /** Deciphering undoes enciphering for every text, key and lower-casing, because both see the same letters. */
  lemma {:induction false} VigenereInverse(value: string, key: string, lower: Lowering)
    ensures VigenereText(VigenereText(value, key, lower, 1), key, lower, -1) == value
    ensures Keyed(VigenereText(value, key, lower, 1), key, lower) <==> Keyed(value, key, lower)
  {
    forall i | 0 <= i < |value|
      ensures VigenereChar(VigenereText(value, key, lower, 1), key, lower, i, -1) == value[i]
      ensures LettersIn(VigenereText(value, key, lower, 1), i) == LettersIn(value, i)
    {
      VigenereCharInverse(value, key, lower, i);
      CipherCounts(value, key, lower, i);
    }
    forall i | 0 <= i < |value|
      ensures IsLetter(VigenereText(value, key, lower, 1)[i]) <==> IsLetter(value[i])
    {
      CipherKeepsLetters(value, key, lower, i);
    }
  }

  // ---------------------------------------------------------------- repeating XOR

  function TwoTo(k: nat): nat { if k == 0 then 1 else 2 * TwoTo(k - 1) }

  /** The exclusive or of the low k bits of two numbers. */
  function XorBits(a: nat, b: nat, k: nat): (r: nat)
    ensures r < TwoTo(k)
  {
    if k == 0 then 0 else 2 * XorBits(a / 2, b / 2, k - 1) + (a + b) % 2
  }

  lemma Halves(q: nat, bit: nat)
    requires bit < 2
    ensures (2 * q + bit) / 2 == q && (2 * q + bit) % 2 == bit
  {
  }

  lemma ParityReturns(a: nat, b: nat, q: nat)
    ensures (2 * q + (a + b) % 2 + b) % 2 == a % 2
  {
    var p := (a + b) / 2;
    assert 2 * q + (a + b) % 2 + b == a + 2 * (q - p + b);
  }

  lemma {:induction false} XorTwice(a: nat, b: nat, k: nat)
    requires a < TwoTo(k)
    ensures XorBits(XorBits(a, b, k), b, k) == a
  {
    if k > 0 {
      var half := XorBits(a / 2, b / 2, k - 1);
      XorTwice(a / 2, b / 2, k - 1);
      Halves(half, (a + b) % 2);
      ParityReturns(a, b, half);
      var x := 2 * half + (a + b) % 2;
      assert XorBits(x, b, k) == 2 * XorBits(x / 2, b / 2, k - 1) + (x + b) % 2;
      assert 2 * (a / 2) + a % 2 == a;
    }
  }

  lemma EightBits()
    ensures TwoTo(8) == 256
  {
    assert TwoTo(4) == 16;
  }

  function Xor(a: Byte, b: Byte): Byte {
    EightBits();
    XorBits(a, b, 8)
  }

  lemma XorUndone(a: Byte, b: Byte)
    ensures Xor(Xor(a, b), b) == a
  {
    EightBits();
    XorTwice(a, b, 8);
  }

  function XorRepeating(data: Bytes, key: Bytes): Bytes
    requires data != [] ==> key != []
  {
    seq(|data|, i requires 0 <= i < |data| => Xor(data[i], key[i % |key|]))
  }

  lemma {:induction false} XorInvolution(data: Bytes, key: Bytes)
    requires data != [] ==> key != []
    ensures XorRepeating(XorRepeating(data, key), key) == data
  {
    forall i | 0 <= i < |data|
      ensures XorRepeating(XorRepeating(data, key), key)[i] == data[i]
    {
      XorUndone(data[i], key[i % |key|]);
    }
  }

  // ---------------------------------------------------------------- Bacon

  function Digit(number: nat, weight: nat): nat
    requires weight > 0
  {
    number / weight % 2
  }

  /** The five binary digits of a letter, written in a and b, or in A and B for a capital. */
  function BaconToken(c: char): string {
    if !IsLetter(c) then [c]
    else
      var number := Lower(c) as int - 97;
      var symbols := if IsUpper(c) then "AB" else "ab";
      [symbols[Digit(number, 16)], symbols[Digit(number, 8)], symbols[Digit(number, 4)], symbols[Digit(number, 2)],
       symbols[Digit(number, 1)]]
  }

  function Spaced(tokens: seq<string>): string {
    if tokens == [] then "" else if |tokens| == 1 then tokens[0] else tokens[0] + " " + Spaced(tokens[1..])
  }

  function Tokens(value: string): seq<string> {
    seq(|value|, i requires 0 <= i < |value| => BaconToken(value[i]))
  }

  function BaconCode(value: string): string { Spaced(Tokens(value)) }

  method Bacon(value: string) returns (r: string)
    ensures r == BaconCode(value)
  {
    var tokens: seq<string> := [];
    for i := 0 to |value|
      invariant |tokens| == i && forall k :: 0 <= k < i ==> tokens[k] == BaconToken(value[k])
    {
      tokens := tokens + [BaconToken(value[i])];
    }
    assert tokens == Tokens(value);
    r := Spaced(tokens);
  }

  /** Python's split at single spaces: adjacent separators enclose an empty token. */
  function Split(text: string): (tokens: seq<string>)
    ensures tokens != []
  {
    if text == "" then [""]
    else
      var rest := Split(text[1..]);
      if text[0] == ' ' then [""] + rest else [[text[0]] + rest[0]] + rest[1..]
  }

  predicate IsGroup(token: string) {
    |token| == 5 && forall i :: 0 <= i < 5 ==> token[i] in "AaBb"
  }

  function Bit(c: char): nat { if Lower(c) == 'b' then 1 else 0 }

  function DecodeToken(token: string): string {
    if IsGroup(token) then
      var number := 16 * Bit(token[0]) + 8 * Bit(token[1]) + 4 * Bit(token[2]) + 2 * Bit(token[3]) + Bit(token[4]);
      [((if IsUpper(token[0]) then 65 else 97) + number) as char]
    else token
  }

  function DecodeTokens(tokens: seq<string>): string {
    if tokens == [] then "" else DecodeToken(tokens[0]) + DecodeTokens(tokens[1..])
  }

  function DecodeBacon(text: string): string { DecodeTokens(Split(text)) }

  lemma DigitsSum(n: nat)
    requires n < 26
    ensures n == 16 * Digit(n, 16) + 8 * Digit(n, 8) + 4 * Digit(n, 4) + 2 * Digit(n, 2) + Digit(n, 1)
  {
  }

  lemma TokenIsGroup(c: char)
    requires IsLetter(c)
    ensures IsGroup(BaconToken(c)) && IsUpper(BaconToken(c)[0]) == IsUpper(c)
  {
  }

  lemma TokenCharacters(c: char)
    ensures ' ' in BaconToken(c) <==> c == ' '
    ensures '\n' in BaconToken(c) <==> c == '\n'
  {
    if IsLetter(c) { TokenIsGroup(c); }
  }

  lemma {:induction false} TokenBits(c: char)
    requires IsLetter(c)
    ensures var token, n := BaconToken(c), Lower(c) as int - 97;
            16 * Bit(token[0]) + 8 * Bit(token[1]) + 4 * Bit(token[2]) + 2 * Bit(token[3]) + Bit(token[4]) == n
  {
    var token, n := BaconToken(c), Lower(c) as int - 97;
    DigitsSum(n);
    assert Bit(token[0]) == Digit(n, 16) && Bit(token[1]) == Digit(n, 8) && Bit(token[2]) == Digit(n, 4);
    assert Bit(token[3]) == Digit(n, 2) && Bit(token[4]) == Digit(n, 1);
  }

  lemma {:induction false} TokenInverse(c: char)
    ensures DecodeToken(BaconToken(c)) == [c]
  {
    if IsLetter(c) {
      TokenIsGroup(c);
      TokenBits(c);
    }
  }

  lemma {:induction false} SplitWord(word: string)
    requires ' ' !in word
    ensures Split(word) == [word]
  {
    if word != "" {
      SplitWord(word[1..]);
      assert word == [word[0]] + word[1..];
    }
  }

  lemma {:induction false} SplitAfterWord(word: string, rest: string)
    requires ' ' !in word
    ensures Split(word + " " + rest) == [word] + Split(rest)
  {
    var text := word + " " + rest;
    if word == "" {
      assert text[1..] == rest;
    } else {
      SplitAfterWord(word[1..], rest);
      assert text[1..] == word[1..] + " " + rest;
      assert word == [word[0]] + word[1..];
    }
  }

  function WithoutSpaces(value: string): string {
    if value == "" then "" else (if value[0] == ' ' then "" else [value[0]]) + WithoutSpaces(value[1..])
  }

  lemma {:induction false} WithoutSpacesIsShorter(value: string)
    ensures |WithoutSpaces(value)| <= |value|
    ensures |WithoutSpaces(value)| == |value| <==> ' ' !in value
    ensures ' ' !in value ==> WithoutSpaces(value) == value
  {
    if value != "" { WithoutSpacesIsShorter(value[1..]); }
  }

  /** The decoder gives back every text without its spaces. */
  lemma {:induction false} BaconDropsSpaces(value: string)
    ensures DecodeBacon(BaconCode(value)) == WithoutSpaces(value)
  {
    if value != "" {
      var token, rest := BaconToken(value[0]), value[1..];
      BaconDropsSpaces(rest);
      assert Tokens(value) == [token] + Tokens(rest);
      if rest == "" {
        LastToken(value[0]);
        assert BaconCode(value) == token;
      } else {
        assert BaconCode(value) == token + " " + BaconCode(rest);
        FirstToken(value[0], BaconCode(rest));
      }
    }
  }

  lemma LastToken(c: char)
    ensures DecodeTokens(Split(BaconToken(c))) == if c == ' ' then "" else [c]
  {
    TokenInverse(c);
    TokenCharacters(c);
    if c == ' ' {
      SplitAfterWord("", "");
      assert BaconToken(c) == "" + " " + "";
      assert Split(BaconToken(c)) == ["", ""] && ["", ""][1..] == [""] && [""][1..] == [];
    } else {
      SplitWord(BaconToken(c));
      assert [BaconToken(c)][1..] == [];
    }
  }

  lemma FirstToken(c: char, rest: string)
    ensures DecodeTokens(Split(BaconToken(c) + " " + rest))
      == (if c == ' ' then "" else [c]) + DecodeTokens(Split(rest))
  {
    TokenInverse(c);
    TokenCharacters(c);
    if c == ' ' {
      var text := BaconToken(c) + " " + rest;
      assert text == "" + " " + (" " + rest) && " " + rest == "" + " " + rest;
      SplitAfterWord("", " " + rest);
      SplitAfterWord("", rest);
      assert Split(text) == [""] + ([""] + Split(rest));
      assert ([""] + ([""] + Split(rest)))[1..] == [""] + Split(rest) && ([""] + Split(rest))[1..] == Split(rest);
    } else {
      SplitAfterWord(BaconToken(c), rest);
      assert ([BaconToken(c)] + Split(rest))[1..] == Split(rest);
    }
  }

  /** A text survives Bacon's cipher exactly when it has no space. */
  lemma BaconInverse(value: string)
    ensures DecodeBacon(BaconCode(value)) == value <==> ' ' !in value
  {
    BaconDropsSpaces(value);
    WithoutSpacesIsShorter(value);
  }
}
