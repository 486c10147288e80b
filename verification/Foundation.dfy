/** Vocabulary shared by the models: optional values, results, identities, instants and byte strings. */
module Foundation {

  datatype Option<+T> = None | Some(value: T)

  datatype Result<+T, +E> = Ok(value: T) | Err(error: E)

  /** An identity of 128 bits read as a number. Zero stands for the nil identity; the fixed-width hexadecimal
      text of two identities compares like their numbers. */
  type Id = nat

  /** A point in time: its instant, where 0 is the zero time, and whether its location is UTC. */
  datatype Time = Time(instant: int, utc: bool) {
    predicate IsZero() { instant == 0 }

    predicate Before(other: Time) { instant < other.instant }

    predicate After(other: Time) { instant > other.instant }

    /** The test for a timestamp taken by the server: present and in UTC. */
    predicate IsServerTime() { !IsZero() && utc }

    function ToUtc(): Time { this.(utc := true) }
  }

  const ZERO_TIME := Time(0, true)

  type Byte = b: int | 0 <= b < 256

  /** A Go string is a sequence of bytes. */
  type Bytes = seq<Byte>

  /** The bytes of an ASCII literal. */
  function Ascii(text: string): Bytes {
    seq(|text|, i requires 0 <= i < |text| => text[i] as int % 256)
  }

  /** One version of a task. */
  datatype VersionRef = VersionRef(taskId: Id, version: int)

  /** The set-shaped map that Go loops use to detect repeats accepts a sequence exactly when it is injective. */
  ghost predicate Distinct<T>(s: seq<T>) {
    forall i, j :: 0 <= i < j < |s| ==> s[i] != s[j]
  }

  lemma SamePlaceInDistinct<T>(s: seq<T>, i: nat, j: nat)
    requires Distinct(s) && i < |s| && j < |s| && s[i] == s[j]
    ensures i == j
  {
  }
}
