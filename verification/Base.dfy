/** What every other module shares: an optional value, an outcome that may be
    an error, and the small facts about sequences that several proofs use. */
module Base {

  datatype Option<+T> = None | Some(value: T)

  datatype Result<+T, +E> = Ok(value: T) | Err(error: E)

  /** No value occurs twice. */
  ghost predicate NoDuplicates<T>(s: seq<T>) {
    forall i, j :: 0 <= i < j < |s| ==> s[i] != s[j]
  }

  lemma NoDuplicatesAppend<T>(s: seq<T>, x: T)
    requires NoDuplicates(s) && x !in s
    ensures NoDuplicates(s + [x])
  {
  }

  /** Of two writes to one row the second is what stays. */
  lemma WrittenTwice<K, V>(rows: map<K, V>, k: K, first: V, second: V)
    ensures rows[k := first][k := second] == rows[k := second]
  {
  }
}
