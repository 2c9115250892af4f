/** Small shared vocabulary: optional values and duplicate-free sequences. */
module Base {

  /** A value that may be absent: a missing dictionary key, a JSON null, a JS `undefined`. */
  datatype Option<+T> = None | Some(value: T)

  /** No element occurs twice in `s`. */
  ghost predicate Distinct<T>(s: seq<T>) {
    forall i, j :: 0 <= i < j < |s| ==> s[i] != s[j]
  }

  lemma AppendAbsentKeepsDistinct<T>(s: seq<T>, x: T)
    requires Distinct(s) && x !in s
    ensures Distinct(s + [x])
  {
  }
}
