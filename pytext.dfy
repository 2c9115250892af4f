/** Python's `str.strip()` with no argument: drop leading and trailing whitespace. */
module PyText {

  /** The characters for which Python's `str.isspace()` holds. */
  predicate IsSpace(c: char) {
    || c == ' '
    || '\U{09}' <= c <= '\U{0D}'
    || '\U{1C}' <= c <= '\U{1F}'
    || c == '\U{85}' || c == '\U{A0}' || c == '\U{1680}'
    || '\U{2000}' <= c <= '\U{200A}'
    || c == '\U{2028}' || c == '\U{2029}' || c == '\U{202F}' || c == '\U{205F}' || c == '\U{3000}'
  }

  ghost predicate AllSpace(s: string) {
    forall k :: 0 <= k < |s| ==> IsSpace(s[k])
  }

  /** Length of the whitespace prefix (see `LeadingSpaceIsLongest`). */
  function LeadingSpace(s: string): (n: nat)
    ensures n <= |s|
    decreases |s|
  {
    if s == [] || !IsSpace(s[0]) then 0 else LeadingSpace(s[1..]) + 1
  }

  /** `LeadingSpace` counts whitespace only, and stops at the first other character. */
  lemma {:induction false} LeadingSpaceIsLongest(s: string)
    ensures var n := LeadingSpace(s); AllSpace(s[..n]) && (n < |s| ==> !IsSpace(s[n]))
    decreases |s|
  {
    if s != [] && IsSpace(s[0]) {
      LeadingSpaceIsLongest(s[1..]);
      var m := LeadingSpace(s[1..]);
      assert s[..m + 1] == [s[0]] + s[1..][..m];
    }
  }

  /** Length of the whitespace suffix (see `TrailingSpaceIsLongest`). */
  function TrailingSpace(s: string): (n: nat)
    ensures n <= |s|
    decreases |s|
  {
    if s == [] || !IsSpace(s[|s| - 1]) then 0 else TrailingSpace(s[..|s| - 1]) + 1
  }

  /** `TrailingSpace` counts whitespace only, and stops at the last other character. */
  lemma {:induction false} TrailingSpaceIsLongest(s: string)
    ensures var n := TrailingSpace(s); AllSpace(s[|s| - n..]) && (n < |s| ==> !IsSpace(s[|s| - n - 1]))
    decreases |s|
  {
    if s != [] && IsSpace(s[|s| - 1]) {
      TrailingSpaceIsLongest(s[..|s| - 1]);
      var m := TrailingSpace(s[..|s| - 1]);
      assert s[|s| - (m + 1)..] == s[..|s| - 1][|s| - 1 - m..] + [s[|s| - 1]];
    }
  }

  /** `s.strip()`. */
  function Strip(s: string): (r: string)
    ensures |r| <= |s|
  {
    var rest := s[LeadingSpace(s)..];
    rest[..|rest| - TrailingSpace(rest)]
  }

  /** `Strip` keeps a slice of `s`: the one that starts after the whitespace prefix. */
  lemma StripKeepsTheMiddle(s: string)
    ensures var r, i := Strip(s), LeadingSpace(s); i + |r| <= |s| && r == s[i..i + |r|]
  {
    var i := LeadingSpace(s);
    var rest := s[i..];
    var r := rest[..|rest| - TrailingSpace(rest)];
    assert forall k :: 0 <= k < |r| ==> r[k] == s[i + k];
  }

  /** What `Strip` drops from either end of `s` is whitespace. */
  lemma StripDropsOnlySpace(s: string)
    ensures var r, i := Strip(s), LeadingSpace(s); i + |r| <= |s| && AllSpace(s[..i]) && AllSpace(s[i + |r|..])
  {
    var i := LeadingSpace(s);
    var rest := s[i..];
    var j := TrailingSpace(rest);
    assert |Strip(s)| == |rest| - j;
    assert s[i + |rest| - j..] == rest[|rest| - j..];
    LeadingSpaceIsLongest(s);
    TrailingSpaceIsLongest(rest);
  }

  /** What `Strip` leaves starts and ends with non-whitespace; nothing is left exactly when `s` is all whitespace. */
  lemma StripTrimsBothEnds(s: string)
    ensures var r := Strip(s);
      && (r == "" || (!IsSpace(r[0]) && !IsSpace(r[|r| - 1])))
      && (r == "" <==> AllSpace(s))
  {
    StripKeepsTheMiddle(s);
    StripDropsOnlySpace(s);
    var i := LeadingSpace(s);
    var rest := s[i..];
    var j := TrailingSpace(rest);
    LeadingSpaceIsLongest(s);
    TrailingSpaceIsLongest(rest);
    var r := Strip(s);
    if i == |s| {
      assert s[..i] == s;
    } else {
      assert !IsSpace(rest[0]);
      assert r != "";
      assert r[0] == s[i];
      assert !AllSpace(s) by { assert !IsSpace(s[i]); }
    }
  }

  /** Stripping twice is stripping once. */
  lemma StripIdempotent(s: string)
    ensures Strip(Strip(s)) == Strip(s)
  {
    StripKeepsTheMiddle(s);
    StripTrimsBothEnds(s);
    var r := Strip(s);
    if r != "" {
      assert LeadingSpace(r) == 0;
      assert r[0..] == r;
      assert TrailingSpace(r) == 0;
      assert r[..|r| - 0] == r;
    }
  }
}
