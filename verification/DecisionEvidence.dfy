/** Replayable decision evidence: normalised inputs, a keyed pseudo-random order, and a digest over a
    length-prefixed record. */
module DecisionEvidence {
  import opened Foundation
  import opened Ordering

  /** The library functions the code relies on. Nothing is assumed of the keyed digest (HMAC, RFC 2104), of the
      UTF-8 test or of the two formatters; trimming has to be idempotent where that is stated. */
  datatype Library = Library(
    mac: (Bytes, Bytes) -> Bytes,
    trim: Bytes -> Bytes,
    validUtf8: Bytes -> bool,
    idText: Id -> Bytes,
    timeText: Time -> Bytes)
  {
    ghost predicate TrimsOnce() { forall s :: trim(trim(s)) == trim(s) }
  }

  datatype Purpose =
    | CategoryChoice | DraftOrder | Pairing | ReserveOrder | TaskChoice | WaveOrder
    | Unknown(name: Bytes)

  function PurposeText(p: Purpose): Bytes {
    match p
    case CategoryChoice => Ascii("category")
    case DraftOrder => Ascii("draft_order")
    case Pairing => Ascii("pairing")
    case ReserveOrder => Ascii("reserve_order")
    case TaskChoice => Ascii("task")
    case WaveOrder => Ascii("wave_order")
    case Unknown(name) => name
  }

  const ALGORITHM_V1: Bytes := Ascii("hmac-sha256-order-v1")
  const RECORDED_RESULT: Bytes := Ascii("recorded-result")

  datatype Evidence = Evidence(
    id: Id, purpose: Purpose, algorithm: Bytes, inputs: seq<Bytes>, seed: Bytes,
    result: seq<Bytes>, replayDigest: Bytes, ownerId: Id, decidedAt: Time)

  datatype DecisionError = InvalidEvidence | ReplayMismatch

  predicate AllZero(value: Bytes) { forall i :: 0 <= i < |value| ==> value[i] == 0 }

  predicate MetadataOk(e: Evidence) {
    && e.id != 0 && e.ownerId != 0
    && !e.purpose.Unknown?
    && e.algorithm == ALGORITHM_V1
    && e.decidedAt.IsServerTime()
    && !AllZero(e.seed)
  }

  /** The purposes that decisions are made for, by name. */
  const PURPOSES: seq<string> := ["category", "draft_order", "pairing", "reserve_order", "task", "wave_order"]

  /** The metadata are proper exactly when record and owner are named, the purpose is one of the six, the algorithm is
      the first version, the time is a server time, and the seed is not all zero. */
  lemma MetadataExactly(e: Evidence)
    ensures MetadataOk(e) <==>
      && e.id > 0 && e.ownerId > 0
      && e.purpose in {CategoryChoice, DraftOrder, Pairing, ReserveOrder, TaskChoice, WaveOrder}
      && e.algorithm == Ascii("hmac-sha256-order-v1")
      && e.decidedAt.instant != 0 && e.decidedAt.utc
      && exists b :: b in e.seed && b != 0
    ensures e.purpose in {CategoryChoice, DraftOrder, Pairing, ReserveOrder, TaskChoice, WaveOrder} ==>
      exists k :: 0 <= k < |PURPOSES| && PurposeText(e.purpose) == Ascii(PURPOSES[k])
  {
    if b :| b in e.seed && b != 0 {
      var i :| 0 <= i < |e.seed| && e.seed[i] == b;
      assert !AllZero(e.seed);
    }
    if !AllZero(e.seed) {
      var i :| 0 <= i < |e.seed| && e.seed[i] != 0;
      assert e.seed[i] in e.seed;
    }
    assert PurposeText(CategoryChoice) == Ascii(PURPOSES[0]) && PurposeText(DraftOrder) == Ascii(PURPOSES[1]);
    assert PurposeText(Pairing) == Ascii(PURPOSES[2]) && PurposeText(ReserveOrder) == Ascii(PURPOSES[3]);
    assert PurposeText(TaskChoice) == Ascii(PURPOSES[4]) && PurposeText(WaveOrder) == Ascii(PURPOSES[5]);
  }

  // ---------------------------------------------------------------- length-prefixed encoding

  const PREFIX_SIZE: nat := 8

  /** The low k bytes of n, most significant first. */
  function BigEndian(n: nat, k: nat): Bytes {
    if k == 0 then [] else BigEndian(n / 256, k - 1) + [n % 256]
  }

  function Field(value: Bytes): Bytes { BigEndian(|value|, PREFIX_SIZE) + value }

  function Encode(values: seq<Bytes>): Bytes {
    if values == [] then [] else Field(values[0]) + Encode(values[1..])
  }

  method EncodeStrings(values: seq<Bytes>) returns (buffer: Bytes)
    ensures buffer == Encode(values)
  {
    buffer := [];
    for i := 0 to |values|
      invariant buffer == Encode(values[..i])
    {
      assert values[..i + 1] == values[..i] + [values[i]];
      EncodeAppend(values[..i], [values[i]]);
      EncodeOne(values[i]);
      buffer := buffer + Field(values[i]);
    }
    assert values[..|values|] == values;
  }

  lemma ConcatAssociates<T>(x: seq<T>, y: seq<T>, z: seq<T>)
    ensures x + (y + z) == (x + y) + z
  {
  }

  lemma {:induction false} EncodeAppend(a: seq<Bytes>, b: seq<Bytes>)
    ensures Encode(a + b) == Encode(a) + Encode(b)
  {
    if a == [] {
      assert a + b == b;
    } else {
      EncodeAppend(a[1..], b);
      assert (a + b)[0] == a[0] && (a + b)[1..] == a[1..] + b;
      ConcatAssociates(Field(a[0]), Encode(a[1..]), Encode(b));
    }
  }

  lemma EncodeOne(value: Bytes)
    ensures Encode([value]) == Field(value)
  {
    assert [value][1..] == [];
  }

  function Pow256(k: nat): nat { if k == 0 then 1 else 256 * Pow256(k - 1) }

  lemma {:induction false} BigEndianInjective(m: nat, n: nat, k: nat)
    requires m < Pow256(k) && n < Pow256(k)
    ensures |BigEndian(m, k)| == |BigEndian(n, k)| == k
    ensures BigEndian(m, k) == BigEndian(n, k) ==> m == n
  {
    if k > 0 {
      BigEndianInjective(m / 256, n / 256, k - 1);
      var x, y := BigEndian(m, k), BigEndian(n, k);
      assert x[..k - 1] == BigEndian(m / 256, k - 1) && y[..k - 1] == BigEndian(n / 256, k - 1);
      assert x[k - 1] == m % 256 && y[k - 1] == n % 256;
    }
  }

  /** The number that bytes stand for, the most significant first. */
  function Positional(bytes: Bytes): nat {
    if bytes == [] then 0 else 256 * Positional(bytes[..|bytes| - 1]) + bytes[|bytes| - 1]
  }

  lemma {:induction false} BigEndianIsPositional(n: nat, k: nat)
    requires n < Pow256(k)
    ensures |BigEndian(n, k)| == k && Positional(BigEndian(n, k)) == n
  {
    if k > 0 {
      BigEndianIsPositional(n / 256, k - 1);
      assert BigEndian(n, k)[..k - 1] == BigEndian(n / 256, k - 1);
    }
  }

  /** A field is eight bytes that stand for the length, and the value. */
  lemma FieldLayout(value: Bytes)
    requires |value| < Pow256(PREFIX_SIZE)
    ensures |Field(value)| == 8 + |value| && Positional(Field(value)[..8]) == |value| && Field(value)[8..] == value
  {
    BigEndianIsPositional(|value|, PREFIX_SIZE);
    assert Field(value)[..8] == BigEndian(|value|, PREFIX_SIZE);
  }

  /** Every Go string is shorter than 2 to the 64 bytes, so its length fits its prefix. */
  ghost predicate Fit(values: seq<Bytes>) {
    forall i :: 0 <= i < |values| ==> |values[i]| < Pow256(PREFIX_SIZE)
  }

  /** Different lists of strings have different encodings. */
  lemma {:induction false} EncodeInjective(a: seq<Bytes>, b: seq<Bytes>)
    requires Fit(a) && Fit(b) && Encode(a) == Encode(b)
    ensures a == b
  {
    if a != [] && b != [] {
      BigEndianInjective(|a[0]|, |b[0]|, PREFIX_SIZE);
      var code, n := Encode(a), |a[0]|;
      assert code[..PREFIX_SIZE] == BigEndian(|a[0]|, PREFIX_SIZE)
        && code[..PREFIX_SIZE] == BigEndian(|b[0]|, PREFIX_SIZE);
      assert code[PREFIX_SIZE..PREFIX_SIZE + n] == a[0] && code[PREFIX_SIZE..PREFIX_SIZE + n] == b[0];
      assert code[PREFIX_SIZE + n..] == Encode(a[1..]) && code[PREFIX_SIZE + n..] == Encode(b[1..]);
      EncodeInjective(a[1..], b[1..]);
      assert a == [a[0]] + a[1..] && b == [b[0]] + b[1..];
    }
  }

  // ---------------------------------------------------------------- normalisation

  predicate BytesLess(a: Bytes, b: Bytes) { LexLess(a, b) }

  lemma BytesOrder()
    ensures IsOrder(BytesLess)
    ensures forall s :: TieFree(s, BytesLess)
  {
    forall a: Bytes, b: Bytes
      ensures BytesLess(a, b) ==> !BytesLess(b, a)
      ensures !BytesLess(a, b) && !BytesLess(b, a) ==> a == b
    {
      LexTrichotomy(a, b);
    }
    forall a: Bytes, b: Bytes, c: Bytes | !BytesLess(b, a) && !BytesLess(c, b)
      ensures !BytesLess(c, a)
    {
      LexTrichotomy(a, b);
      LexTrichotomy(b, c);
      LexTrichotomy(a, c);
      if a != b && b != c { LexTransitive(a, b, c); }
    }
  }

  lemma BytesDiffer()
    ensures forall a, b, c :: a != b && !BytesLess(b, a) && !BytesLess(c, b) ==> a != c
  {
    forall a: Bytes, b: Bytes | a != b && !BytesLess(b, a)
      ensures BytesLess(a, b)
    {
      LexTrichotomy(a, b);
    }
  }

  function Trimmed(lib: Library, inputs: seq<Bytes>): seq<Bytes> {
    seq(|inputs|, i requires 0 <= i < |inputs| => lib.trim(inputs[i]))
  }

  ghost predicate Usable(lib: Library, inputs: seq<Bytes>) {
    && inputs != []
    && (forall v :: v in Trimmed(lib, inputs) ==> v != [] && lib.validUtf8(v))
    && Distinct(Trimmed(lib, inputs))
  }

  /** normalized is the sorted list of the trimmed inputs. */
  ghost predicate Normalizes(lib: Library, inputs: seq<Bytes>, normalized: seq<Bytes>) {
    Sorted(normalized, BytesLess) && multiset(normalized) == multiset(Trimmed(lib, inputs))
  }

  method NormalizeDecisionInputs(lib: Library, inputs: seq<Bytes>) returns (r: Result<seq<Bytes>, DecisionError>)
    ensures r.Ok? <==> Usable(lib, inputs)
    ensures r.Ok? ==> Normalizes(lib, inputs, r.value)
    ensures r.Err? ==> r.error == InvalidEvidence
  {
    if |inputs| == 0 {
      return Err(InvalidEvidence);
    }
    var normalized: seq<Bytes> := [];
    for i := 0 to |inputs|
      invariant |normalized| == i && forall k :: 0 <= k < i ==> normalized[k] == lib.trim(inputs[k])
      invariant forall k :: 0 <= k < i ==> normalized[k] != [] && lib.validUtf8(normalized[k])
    {
      var value := lib.trim(inputs[i]);
      if value == [] || !lib.validUtf8(value) {
        assert Trimmed(lib, inputs)[i] == value && value in Trimmed(lib, inputs);
        return Err(InvalidEvidence);
      }
      normalized := normalized + [value];
    }
    assert normalized == Trimmed(lib, inputs);
    BytesOrder();
    normalized := SortSlice(normalized, BytesLess);
    DistinctPermutation(normalized, Trimmed(lib, inputs));
    for i := 1 to |normalized|
      invariant forall k :: 1 <= k < i ==> normalized[k] != normalized[k - 1]
    {
      if normalized[i] == normalized[i - 1] {
        return Err(InvalidEvidence);
      }
    }
    BytesDiffer();
    NeighboursTell(normalized, BytesLess, (x: Bytes, y: Bytes) => x != y);
    r := Ok(normalized);
  }

  /** Neither the order of the inputs nor their padding matters. */
  lemma NormalizationUnique(lib: Library, inputs: seq<Bytes>, inputs': seq<Bytes>, n: seq<Bytes>, n': seq<Bytes>)
    requires multiset(Trimmed(lib, inputs)) == multiset(Trimmed(lib, inputs'))
    ensures Usable(lib, inputs) <==> Usable(lib, inputs')
    ensures Normalizes(lib, inputs, n) && Normalizes(lib, inputs', n') ==> n == n'
  {
    DistinctPermutation(Trimmed(lib, inputs), Trimmed(lib, inputs'));
    BytesOrder();
    if Normalizes(lib, inputs, n) && Normalizes(lib, inputs', n') { SortedUnique(n, n', BytesLess); }
  }

  /** What was normalised is usable again and normalises to itself. */
  lemma NormalizationIdempotent(lib: Library, inputs: seq<Bytes>, n: seq<Bytes>)
    requires lib.TrimsOnce() && Usable(lib, inputs) && Normalizes(lib, inputs, n)
    ensures Usable(lib, n) && Normalizes(lib, n, n) && Trimmed(lib, n) == n
  {
    DistinctPermutation(n, Trimmed(lib, inputs));
    forall i | 0 <= i < |n|
      ensures lib.trim(n[i]) == n[i]
    {
      assert n[i] in Trimmed(lib, inputs);
      var k :| 0 <= k < |inputs| && Trimmed(lib, inputs)[k] == n[i];
    }
    assert Trimmed(lib, n) == n;
  }

  // ---------------------------------------------------------------- the replayed order

  function ContextFields(lib: Library, e: Evidence): seq<Bytes> {
    [e.algorithm, PurposeText(e.purpose), lib.idText(e.ownerId), lib.timeText(e.decidedAt)] + e.inputs
  }

  function Context(lib: Library, e: Evidence): Bytes { Encode(ContextFields(lib, e)) }

  /** The message whose keyed digest ranks one input. */
  function RankMessage(lib: Library, e: Evidence, value: Bytes): Bytes {
    Context(lib, e) + Field(value)
  }

  /** The message is algorithm, purpose, owner and time, then the inputs, then the value, each as a field. */
  lemma MessageLayout(lib: Library, e: Evidence, value: Bytes)
    ensures RankMessage(lib, e, value)
      == Field(e.algorithm) + Field(PurposeText(e.purpose)) + Field(lib.idText(e.ownerId))
         + Field(lib.timeText(e.decidedAt)) + Encode(e.inputs) + Field(value)
  {
    var a, b, c, d := e.algorithm, PurposeText(e.purpose), lib.idText(e.ownerId), lib.timeText(e.decidedAt);
    EncodeOne(a);
    EncodeOne(b);
    EncodeOne(c);
    EncodeOne(d);
    EncodeAppend([a], [b]);
    EncodeAppend([a, b], [c]);
    EncodeAppend([a, b, c], [d]);
    EncodeAppend([a, b, c, d], e.inputs);
    assert [a] + [b] == [a, b] && [a, b] + [c] == [a, b, c] && [a, b, c] + [d] == [a, b, c, d];
  }

  datatype Rank = Rank(value: Bytes, digest: Bytes)

  predicate RankLess(a: Rank, b: Rank) {
    LexLess(a.digest, b.digest) || (a.digest == b.digest && LexLess(a.value, b.value))
  }

  lemma RankOrder()
    ensures IsOrder(RankLess)
    ensures forall s :: TieFree(s, RankLess)
  {
    forall a: Rank, b: Rank
      ensures RankLess(a, b) ==> !RankLess(b, a)
      ensures !RankLess(a, b) && !RankLess(b, a) ==> a == b
    {
      LexTrichotomy(a.digest, b.digest);
      LexTrichotomy(a.value, b.value);
    }
    forall a: Rank, b: Rank, c: Rank | !RankLess(b, a) && !RankLess(c, b)
      ensures !RankLess(c, a)
    {
      RankChain(a, b, c);
    }
  }

  lemma RankChain(a: Rank, b: Rank, c: Rank)
    requires !RankLess(b, a) && !RankLess(c, b)
    ensures !RankLess(c, a)
  {
    LexTrichotomy(a.digest, b.digest);
    LexTrichotomy(b.digest, c.digest);
    LexTrichotomy(a.digest, c.digest);
    LexTrichotomy(a.value, b.value);
    LexTrichotomy(b.value, c.value);
    LexTrichotomy(a.value, c.value);
    if a.digest != b.digest && b.digest != c.digest { LexTransitive(a.digest, b.digest, c.digest); }
    if a.value != b.value && b.value != c.value && a.digest == b.digest == c.digest {
      LexTransitive(a.value, b.value, c.value);
    }
  }

  function RankOf(lib: Library, e: Evidence, value: Bytes): Rank {
    Rank(value, lib.mac(e.seed, RankMessage(lib, e, value)))
  }

  function Ranks(lib: Library, e: Evidence): seq<Rank> {
    seq(|e.inputs|, i requires 0 <= i < |e.inputs| => RankOf(lib, e, e.inputs[i]))
  }

  function Values(ranks: seq<Rank>): seq<Bytes> {
    if ranks == [] then [] else [ranks[0].value] + Values(ranks[1..])
  }

  /** The order that seed, metadata and inputs determine. */
  function Replayed(lib: Library, e: Evidence): seq<Bytes> {
    Values(SortBy(Ranks(lib, e), RankLess))
  }

  method ReplayResult(lib: Library, e: Evidence) returns (result: seq<Bytes>)
    ensures result == Replayed(lib, e)
  {
    var context := EncodeStrings(ContextFields(lib, e));
    var ranks: seq<Rank> := [];
    for i := 0 to |e.inputs|
      invariant |ranks| == i && forall k :: 0 <= k < i ==> ranks[k] == RankOf(lib, e, e.inputs[k])
    {
      ranks := ranks + [Rank(e.inputs[i], lib.mac(e.seed, context + Field(e.inputs[i])))];
    }
    assert ranks == Ranks(lib, e);
    RankOrder();
    ranks := SortSlice(ranks, RankLess);
    SortBySorts(Ranks(lib, e), RankLess);
    SortedUnique(ranks, SortBy(Ranks(lib, e), RankLess), RankLess);
    result := Values(ranks);
  }

  lemma {:induction false} InsertedValues(x: Rank, s: seq<Rank>)
    ensures multiset(Values(Insert(x, s, RankLess))) == multiset(Values(s)) + multiset{x.value}
  {
    if s != [] && RankLess(s[0], x) {
      InsertedValues(x, s[1..]);
      var rest := Insert(x, s[1..], RankLess);
      assert ([s[0]] + rest)[1..] == rest;
    } else {
      assert ([x] + s)[1..] == s;
    }
  }

  lemma {:induction false} SortedValues(s: seq<Rank>)
    ensures multiset(Values(SortBy(s, RankLess))) == multiset(Values(s))
  {
    if s != [] {
      SortedValues(s[1..]);
      InsertedValues(s[0], SortBy(s[1..], RankLess));
    }
  }

  lemma {:induction false} ValuesAt(ranks: seq<Rank>)
    ensures |Values(ranks)| == |ranks| && forall i :: 0 <= i < |ranks| ==> Values(ranks)[i] == ranks[i].value
  {
    if ranks != [] { ValuesAt(ranks[1..]); }
  }

  /** The replayed order holds exactly the inputs. */
  lemma ReplayedIsPermutation(lib: Library, e: Evidence)
    ensures multiset(Replayed(lib, e)) == multiset(e.inputs) && |Replayed(lib, e)| == |e.inputs|
  {
    var ranks := Ranks(lib, e);
    SortedValues(ranks);
    ValuesAt(ranks);
    assert Values(ranks) == e.inputs;
    assert |multiset(Replayed(lib, e))| == |Replayed(lib, e)| && |multiset(e.inputs)| == |e.inputs|;
  }

  /** The keyed digest that ranks a value. */
  function RankDigest(lib: Library, e: Evidence, value: Bytes): Bytes { lib.mac(e.seed, RankMessage(lib, e, value)) }

  /** The replayed order ascends by the digests, and where they agree by the values themselves. */
  lemma {:induction false} ReplayedAscends(lib: Library, e: Evidence, i: nat, j: nat)
    requires i < j < |Replayed(lib, e)|
    ensures var v, w := Replayed(lib, e)[i], Replayed(lib, e)[j];
      || ComesBefore(RankDigest(lib, e, v), RankDigest(lib, e, w))
      || (RankDigest(lib, e, v) == RankDigest(lib, e, w) && (v == w || ComesBefore(v, w)))
  {
    var ranks := SortBy(Ranks(lib, e), RankLess);
    RankOrder();
    SortBySorts(Ranks(lib, e), RankLess);
    DistinctPermutation(ranks, Ranks(lib, e));
    ValuesAt(ranks);
    forall k | 0 <= k < |ranks|
      ensures ranks[k] == RankOf(lib, e, ranks[k].value)
    {
      assert ranks[k] in Ranks(lib, e);
      var m :| 0 <= m < |e.inputs| && Ranks(lib, e)[m] == ranks[k];
    }
    var a, b := ranks[i], ranks[j];
    SortedAt(ranks, RankLess, i, j);
    LexTrichotomy(a.digest, b.digest);
    LexTrichotomy(a.value, b.value);
    LexLessIsDictionary(a.digest, b.digest);
    LexLessIsDictionary(a.value, b.value);
  }

  // ---------------------------------------------------------------- the recorded digest

  function DigestMessage(lib: Library, e: Evidence, result: seq<Bytes>): Bytes {
    Context(lib, e) + Field(RECORDED_RESULT) + Encode(result)
  }

  function ReplayDigest(lib: Library, e: Evidence, result: seq<Bytes>): Bytes {
    lib.mac(e.seed, DigestMessage(lib, e, result))
  }

  /** The messages that rank inputs determine the whole decision and the ranked value: no two decisions and no
      two values share one. */
  lemma RankMessagesAreDistinct(lib: Library, e: Evidence, f: Evidence, v: Bytes, w: Bytes)
    requires Fit(ContextFields(lib, e) + [v]) && Fit(ContextFields(lib, f) + [w])
    requires RankMessage(lib, e, v) == RankMessage(lib, f, w)
    ensures v == w && e.inputs == f.inputs && e.algorithm == f.algorithm
    ensures PurposeText(e.purpose) == PurposeText(f.purpose)
    ensures lib.idText(e.ownerId) == lib.idText(f.ownerId) && lib.timeText(e.decidedAt) == lib.timeText(f.decidedAt)
  {
    var a, b := ContextFields(lib, e), ContextFields(lib, f);
    EncodeAppend(a, [v]);
    EncodeAppend(b, [w]);
    EncodeOne(v);
    EncodeOne(w);
    EncodeInjective(a + [v], b + [w]);
    assert a == (a + [v])[..|a|] && b == (b + [w])[..|b|];
    assert a + [v] == b + [w] && |a| == |b| && (a + [v])[|a|] == v && (b + [w])[|b|] == w;
    assert e.inputs == a[4..] && f.inputs == b[4..];
    assert a[0] == e.algorithm && a[1] == PurposeText(e.purpose) && a[2] == lib.idText(e.ownerId)
      && a[3] == lib.timeText(e.decidedAt);
    assert b[0] == f.algorithm && b[1] == PurposeText(f.purpose) && b[2] == lib.idText(f.ownerId)
      && b[3] == lib.timeText(f.decidedAt);
  }

  /** Within one decision the digest of the record is never computed over a message that ranks an input. */
  lemma DigestMessageIsNoRankMessage(lib: Library, e: Evidence, result: seq<Bytes>, v: Bytes)
    requires result != [] && Fit(ContextFields(lib, e) + [v]) && Fit(ContextFields(lib, e) + [RECORDED_RESULT] + result)
    ensures DigestMessage(lib, e, result) != RankMessage(lib, e, v)
  {
    var a := ContextFields(lib, e);
    EncodeAppend(a, [v]);
    EncodeAppend(a, [RECORDED_RESULT]);
    EncodeOne(v);
    EncodeOne(RECORDED_RESULT);
    EncodeAppend(a + [RECORDED_RESULT], result);
    if DigestMessage(lib, e, result) == RankMessage(lib, e, v) {
      EncodeInjective(a + [RECORDED_RESULT] + result, a + [v]);
    }
  }

  // ---------------------------------------------------------------- validation and construction

  /** The declarative acceptance condition. */
  ghost predicate Accepted(lib: Library, e: Evidence) {
    && MetadataOk(e)
    && Usable(lib, e.inputs) && Normalizes(lib, e.inputs, e.inputs)
    && e.result == Replayed(lib, e)
    && e.replayDigest == ReplayDigest(lib, e, e.result) && !AllZero(e.replayDigest)
  }

  /** The record is well-formed, whether or not it replays. */
  ghost predicate WellFormed(lib: Library, e: Evidence) {
    && MetadataOk(e)
    && Usable(lib, e.inputs) && Normalizes(lib, e.inputs, e.inputs)
    && multiset(e.result) == multiset(e.inputs)
  }

  ghost function Failure(lib: Library, e: Evidence): Option<DecisionError> {
    if !WellFormed(lib, e) then Some(InvalidEvidence) else if !Accepted(lib, e) then Some(ReplayMismatch) else None
  }

  /** A record that is not well-formed is invalid; a well-formed one that is not accepted fails to replay. */
  method Validate(lib: Library, e: Evidence) returns (failure: Option<DecisionError>)
    requires Fit(e.inputs) && Fit(e.result)
    ensures failure.None? <==> Accepted(lib, e)
    ensures failure == Some(InvalidEvidence) <==> !WellFormed(lib, e)
    ensures failure == Failure(lib, e)
  {
    ReplayedIsPermutation(lib, e);
    if !MetadataOk(e) {
      return Some(InvalidEvidence);
    }
    var normalized := NormalizeDecisionInputs(lib, e.inputs);
    if normalized.Err? {
      return Some(normalized.error);
    }
    BytesOrder();
    if e.inputs != normalized.value {
      if Normalizes(lib, e.inputs, e.inputs) { SortedUnique(e.inputs, normalized.value, BytesLess); }
      return Some(InvalidEvidence);
    }
    var same := SameStringSet(e.result, e.inputs);
    if !same {
      return Some(InvalidEvidence);
    }
    if AllZero(e.replayDigest) || e.replayDigest != ReplayDigest(lib, e, e.result) {
      return Some(ReplayMismatch);
    }
    var replayed := ReplayResult(lib, e);
    var recorded := EncodeStrings(e.result);
    var expected := EncodeStrings(replayed);
    FitPermutation(replayed, e.inputs);
    if recorded != expected {
      return Some(ReplayMismatch);
    }
    EncodeInjective(e.result, replayed);
    failure := None;
  }

  lemma FitPermutation(a: seq<Bytes>, b: seq<Bytes>)
    requires multiset(a) == multiset(b) && Fit(b)
    ensures Fit(a)
  {
    forall i | 0 <= i < |a|
      ensures |a[i]| < Pow256(PREFIX_SIZE)
    {
      assert a[i] in multiset(b);
    }
  }

  /** Compares sorted copies. */
  method SameStringSet(first: seq<Bytes>, second: seq<Bytes>) returns (same: bool)
    ensures same <==> multiset(first) == multiset(second)
  {
    BytesOrder();
    var firstCopy := SortSlice(first, BytesLess);
    var secondCopy := SortSlice(second, BytesLess);
    if multiset(first) == multiset(second) { SortedUnique(firstCopy, secondCopy, BytesLess); }
    same := firstCopy == secondCopy;
  }

  /** seed is what the random source delivers, or None when it fails. */
  method NewDecisionEvidence(lib: Library, id: Id, purpose: Purpose, algorithm: Bytes, inputs: seq<Bytes>,
                             ownerId: Id, decidedAt: Time, seed: Option<Bytes>)
    returns (r: Result<Evidence, DecisionError>)
    ensures r.Ok? <==>
      Usable(lib, inputs) && seed.Some?
      && MetadataOk(Evidence(id, purpose, algorithm, [], seed.value, [], [], ownerId, decidedAt.ToUtc()))
    ensures r.Ok? ==>
      && Normalizes(lib, inputs, r.value.inputs)
      && r.value == Evidence(id, purpose, algorithm, r.value.inputs, seed.value, r.value.result, r.value.replayDigest,
                             ownerId, decidedAt.ToUtc())
      && r.value.result == Replayed(lib, r.value) && r.value.replayDigest == ReplayDigest(lib, r.value, r.value.result)
      && multiset(r.value.result) == multiset(Trimmed(lib, inputs))
    ensures r.Err? ==> r.error == InvalidEvidence
    ensures r.Ok? && lib.TrimsOnce() ==> (Accepted(lib, r.value) <==> !AllZero(r.value.replayDigest))
  {
    var normalized := NormalizeDecisionInputs(lib, inputs);
    if normalized.Err? {
      return Err(normalized.error);
    }
    if seed.None? {
      return Err(InvalidEvidence);
    }
    var e := Evidence(id, purpose, algorithm, normalized.value, seed.value, [], [], ownerId, decidedAt.ToUtc());
    if !MetadataOk(e) {
      return Err(InvalidEvidence);
    }
    var result := ReplayResult(lib, e);
    ReplayedIsPermutation(lib, e);
    e := e.(result := result);
    var digest := ReplayDigest(lib, e, e.result);
    if lib.TrimsOnce() { NormalizationIdempotent(lib, inputs, e.inputs); }
    r := Ok(e.(replayDigest := digest));
    SameDecisionSameReplay(lib, e.(result := []), r.value);
    SameDecisionSameReplay(lib, e, r.value);
  }

  ghost predicate SameDecision(e: Evidence, f: Evidence) {
    && e.algorithm == f.algorithm && e.purpose == f.purpose && e.ownerId == f.ownerId && e.decidedAt == f.decidedAt
    && e.inputs == f.inputs && e.seed == f.seed
  }

  /** Result and digest are functions of the metadata, the seed and the inputs. */
  lemma SameDecisionSameReplay(lib: Library, e: Evidence, f: Evidence)
    requires SameDecision(e, f)
    ensures Replayed(lib, e) == Replayed(lib, f)
    ensures forall result :: ReplayDigest(lib, e, result) == ReplayDigest(lib, f, result)
  {
    assert Context(lib, e) == Context(lib, f);
    forall i | 0 <= i < |e.inputs|
      ensures Ranks(lib, e)[i] == Ranks(lib, f)[i]
    {
      assert RankOf(lib, e, e.inputs[i]) == RankOf(lib, f, e.inputs[i]);
    }
    assert Ranks(lib, e) == Ranks(lib, f);
  }

  /** Two accepted records of the same decision agree in result and digest, whatever the order and padding of
      the inputs they were made from. */
  lemma AcceptedEvidenceIsReplayable(lib: Library, e: Evidence, f: Evidence)
    requires Accepted(lib, e) && Accepted(lib, f) && SameDecision(e, f)
    ensures e.result == f.result && e.replayDigest == f.replayDigest
    ensures multiset(e.result) == multiset(e.inputs)
  {
    SameDecisionSameReplay(lib, e, f);
    ReplayedIsPermutation(lib, e);
  }

  /** Evidence made from permuted or differently padded inputs records the same inputs, result and digest. */
  lemma OrderAndPaddingDoNotMatter(lib: Library, inputs: seq<Bytes>, inputs': seq<Bytes>, e: Evidence, f: Evidence)
    requires multiset(Trimmed(lib, inputs)) == multiset(Trimmed(lib, inputs'))
    requires Normalizes(lib, inputs, e.inputs) && Normalizes(lib, inputs', f.inputs)
    requires SameDecision(e, f.(inputs := e.inputs))
    requires e.result == Replayed(lib, e) && e.replayDigest == ReplayDigest(lib, e, e.result)
    requires f.result == Replayed(lib, f) && f.replayDigest == ReplayDigest(lib, f, f.result)
    ensures e.inputs == f.inputs && e.result == f.result && e.replayDigest == f.replayDigest
  {
    NormalizationUnique(lib, inputs, inputs', e.inputs, f.inputs);
    SameDecisionSameReplay(lib, e, f);
  }
}
