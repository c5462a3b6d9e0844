/** The string operations the pipeline relies on, with Python's meaning:
    `str.strip()`, `str.replace(pat, "")`, `str.endswith`, `sep.join(...)`,
    decimal formatting and `{i:03d}` zero padding. */
module Text {

  /** Python's `str.isspace()` for one character: the characters `str.strip()`
      removes when called without arguments. */
  predicate IsSpace(c: char) {
    || c == ' '
    || ('\t' <= c <= '\r')
    || ('\U{1C}' <= c <= '\U{1F}')
    || c == '\U{85}' || c == '\U{A0}' || c == '\U{1680}'
    || ('\U{2000}' <= c <= '\U{200A}')
    || c == '\U{2028}' || c == '\U{2029}' || c == '\U{202F}' || c == '\U{205F}' || c == '\U{3000}'
  }

  predicate AllSpace(s: string) {
    forall k :: 0 <= k < |s| ==> IsSpace(s[k])
  }

  /** Neither the first nor the last character is whitespace. */
  predicate NoEdgeSpace(s: string) {
    s == [] || (!IsSpace(s[0]) && !IsSpace(s[|s| - 1]))
  }

  /** Every character of `s` outside the slice `s[a..b]` is whitespace. */
  predicate SpaceOutside(s: string, a: nat, b: nat) {
    forall k :: 0 <= k < |s| && !(a <= k < b) ==> IsSpace(s[k])
  }

  /** Where the whitespace run starting at `i` ends: the first
      non-whitespace index from `i` on, or `|s|`. */
  function SkipSpace(s: string, i: nat): (n: nat)
    requires i <= |s|
    ensures i <= n <= |s|
    ensures forall k :: i <= k < n ==> IsSpace(s[k])
    ensures n < |s| ==> !IsSpace(s[n])
    decreases |s| - i
  {
    if i < |s| && IsSpace(s[i]) then SkipSpace(s, i + 1) else i
  }

  /** Where the whitespace run ending at `j` begins, looking no further
      back than `lo`. */
  function SkipSpaceBack(s: string, lo: nat, j: nat): (n: nat)
    requires lo <= j <= |s|
    ensures lo <= n <= j
    ensures forall k :: n <= k < j ==> IsSpace(s[k])
    ensures lo < n ==> !IsSpace(s[n - 1])
    decreases j
  {
    if lo < j && IsSpace(s[j - 1]) then SkipSpaceBack(s, lo, j - 1) else j
  }

  /** The end of a whitespace run is the first non-whitespace index. */
  lemma {:induction false} SkipSpaceIs(s: string, i: nat, n: nat)
    requires i <= n <= |s|
    requires forall k :: i <= k < n ==> IsSpace(s[k])
    requires n < |s| ==> !IsSpace(s[n])
    ensures SkipSpace(s, i) == n
    decreases n - i
  {
    if i < n { SkipSpaceIs(s, i + 1, n); }
  }

  /** The start of a whitespace run is just after the last non-whitespace
      index. */
  lemma {:induction false} SkipSpaceBackIs(s: string, lo: nat, j: nat, n: nat)
    requires lo <= n <= j <= |s|
    requires forall k :: n <= k < j ==> IsSpace(s[k])
    requires lo < n ==> !IsSpace(s[n - 1])
    ensures SkipSpaceBack(s, lo, j) == n
    decreases j
  {
    if n < j { SkipSpaceBackIs(s, lo, j - 1, n); }
  }

  /** Where the text kept by `Strip` begins and ends. */
  function StripBounds(s: string): (ab: (nat, nat))
    ensures ab.0 <= ab.1 <= |s|
    ensures SpaceOutside(s, ab.0, ab.1)
    ensures ab.0 < ab.1 ==> !IsSpace(s[ab.0]) && !IsSpace(s[ab.1 - 1])
  {
    var a := SkipSpace(s, 0);
    (a, SkipSpaceBack(s, a, |s|))
  }

  /** Python's `s.strip()`: the slice of `s` left once the whitespace at
      both ends is cut off. */
  function Strip(s: string): (r: string)
    ensures NoEdgeSpace(r)
    ensures exists a, b :: 0 <= a <= b <= |s| && r == s[a..b] && SpaceOutside(s, a, b)
  {
    var ab := StripBounds(s);
    var r := s[ab.0..ab.1];
    assert r != [] ==> r[0] == s[ab.0] && r[|r| - 1] == s[ab.1 - 1];
    r
  }

  /** Whatever slice is cut out between two whitespace-only ends, if the slice
      itself has no whitespace at its ends, it is what `Strip` returns. */
  lemma StripUnique(s: string, a: nat, b: nat)
    requires a <= b <= |s| && SpaceOutside(s, a, b)
    requires a < b ==> !IsSpace(s[a]) && !IsSpace(s[b - 1])
    ensures Strip(s) == s[a..b]
  {
    if a == b {
      SkipSpaceIs(s, 0, |s|);
      SkipSpaceBackIs(s, |s|, |s|, |s|);
    } else {
      SkipSpaceIs(s, 0, a);
      SkipSpaceBackIs(s, a, |s|, b);
    }
  }

  /** Text that has no whitespace at either end comes back from `Strip` unchanged. */
  lemma StripClean(s: string)
    requires NoEdgeSpace(s)
    ensures Strip(s) == s
  {
    assert s[0..|s|] == s;
    StripUnique(s, 0, |s|);
  }

  lemma {:induction false} StripIdempotent(s: string)
    ensures Strip(Strip(s)) == Strip(s)
  {
    StripClean(Strip(s));
  }

  /** Whitespace appended at the end does not change what `Strip` returns. */
  lemma {:induction false} StripAppendSpace(s: string, w: string)
    requires AllSpace(w)
    ensures Strip(s + w) == Strip(s)
  {
    var (a, b) := StripBounds(s);
    var u := s + w;
    SpaceOutsideAppend(s, w, a, b);
    assert a < b ==> u[a] == s[a] && u[b - 1] == s[b - 1];
    StripUnique(u, a, b);
    assert u[a..b] == s[a..b];
  }

  lemma SpaceOutsideAppend(s: string, w: string, a: nat, b: nat)
    requires a <= b <= |s| && SpaceOutside(s, a, b) && AllSpace(w)
    ensures SpaceOutside(s + w, a, b)
  {
    var u := s + w;
    forall k | 0 <= k < |u| && !(a <= k < b) ensures IsSpace(u[k]) {
      if k < |s| { assert u[k] == s[k]; } else { assert u[k] == w[k - |s|]; }
    }
  }

  // ---------------------------------------------------------------------
  // Substrings and Python's str.replace(pat, "")

  predicate StartsWith(s: string, p: string) {
    |p| <= |s| && s[..|p|] == p
  }

  predicate EndsWith(s: string, suffix: string) {
    |suffix| <= |s| && s[|s| - |suffix|..] == suffix
  }

  /** `p in s` for Python strings: `p` is a substring of `s`. */
  predicate Occurs(p: string, s: string)
    decreases |s|
  {
    StartsWith(s, p) || (s != [] && Occurs(p, s[1..]))
  }

  lemma {:induction false} TooShortToOccur(p: string, s: string)
    requires |s| < |p|
    ensures !Occurs(p, s)
    decreases |s|
  {
    if s != [] { TooShortToOccur(p, s[1..]); }
  }

  /** Python's `s.replace(pat, "")`: scanning from the left, every
      non-overlapping occurrence of `pat` is deleted. */
  function RemoveAll(s: string, pat: string): (r: string)
    requires pat != []
    ensures |r| <= |s|
    decreases |s|
  {
    if |s| < |pat| then s
    else if s[..|pat|] == pat then RemoveAll(s[|pat|..], pat)
    else [s[0]] + RemoveAll(s[1..], pat)
  }

  /** Text without an occurrence of `pat` is returned unchanged. */
  lemma {:induction false} RemoveAllAbsent(s: string, pat: string)
    requires pat != [] && !Occurs(pat, s)
    ensures RemoveAll(s, pat) == s
    decreases |s|
  {
    if |s| >= |pat| {
      RemoveAllAbsent(s[1..], pat);
      assert s == [s[0]] + s[1..];
    }
  }

  /** A first character that cannot start `pat` survives the deletion. */
  lemma RemoveAllKeepsHead(s: string, pat: string)
    requires pat != [] && s != [] && s[0] != pat[0]
    ensures RemoveAll(s, pat) != [] && RemoveAll(s, pat)[0] == s[0]
  {
    if |s| >= |pat| {
      assert s[..|pat|][0] == s[0];
    }
  }

  const Fence := "```"

  /** Deleting every "```" leaves no "```" behind, however the backticks were
      arranged (a run of k backticks is cut down to k mod 3). */
  lemma {:induction false} RemoveFenceLeavesNoFence(s: string)
    ensures !Occurs(Fence, RemoveAll(s, Fence))
    decreases |s|
  {
    var r := RemoveAll(s, Fence);
    if |s| < 3 {
      TooShortToOccur(Fence, s);
    } else if s[..3] == Fence {
      RemoveFenceLeavesNoFence(s[3..]);
    } else {
      var r1 := RemoveAll(s[1..], Fence);
      RemoveFenceLeavesNoFence(s[1..]);
      assert r == [s[0]] + r1;
      assert r[1..] == r1;
      if s[0] != '`' {
        assert r[0] == s[0];
      } else if s[1] != '`' {
        RemoveAllKeepsHead(s[1..], Fence);
        assert r[1] == s[1];
      } else {
        assert s[..3][2] == s[2];
        assert s[2] != '`';
        if |s| == 3 {
          assert r1 == s[1..];
        } else {
          assert s[1..][..3][1] == s[2];
          assert r1 == [s[1]] + RemoveAll(s[2..], Fence);
          RemoveAllKeepsHead(s[2..], Fence);
        }
        assert r[2] == s[2];
      }
      assert |r| >= 3 ==> r[..3][0] == r[0] && r[..3][1] == r[1] && r[..3][2] == r[2];
    }
  }

  /** Text in which the first character of `pat` never appears, followed by
      one `pat`: deleting every `pat` gives back the text. */
  lemma {:induction false} RemoveTrailingPattern(body: string, pat: string)
    requires pat != [] && pat[0] !in body
    ensures RemoveAll(body + pat, pat) == body
    decreases |body|
  {
    var u := body + pat;
    if body == [] {
      assert u == pat;
      assert RemoveAll(u, pat) == RemoveAll(u[|pat|..], pat);
      assert u[|pat|..] == [];
    } else {
      assert |u| >= |pat| ==> u[..|pat|][0] == body[0];
      assert u[1..] == body[1..] + pat;
      RemoveTrailingPattern(body[1..], pat);
    }
  }

  /** A seven-character marker beginning with a backtick cannot occur in
      backtick-free text followed by a three-character fence. */
  lemma {:induction false} NoOpeningMarker(body: string, marker: string)
    requires '`' !in body && |marker| == 7 && marker[0] == '`'
    ensures !Occurs(marker, body + Fence)
    decreases |body|
  {
    var u := body + Fence;
    if body == [] {
      TooShortToOccur(marker, u);
    } else {
      assert u[1..] == body[1..] + Fence;
      NoOpeningMarker(body[1..], marker);
      assert |u| >= 7 ==> u[..7][0] == body[0];
    }
  }

  // ---------------------------------------------------------------------
  // Joining

  /** Python's `sep.join(xs)`. */
  function Join(xs: seq<string>, sep: string): string {
    if |xs| == 0 then ""
    else if |xs| == 1 then xs[0]
    else xs[0] + sep + Join(xs[1..], sep)
  }

  /** The pieces of `xs`, each followed by `sep`, run together. */
  function ConcatEach(xs: seq<string>, sep: string): string {
    if xs == [] then "" else xs[0] + sep + ConcatEach(xs[1..], sep)
  }

  /** Putting a separator after every piece is joining them and adding one
      separator at the end. */
  lemma {:induction false} ConcatEachIsJoin(xs: seq<string>, sep: string)
    requires xs != []
    ensures ConcatEach(xs, sep) == Join(xs, sep) + sep
    decreases |xs|
  {
    if |xs| == 1 {
      assert ConcatEach(xs, sep) == xs[0] + sep + ConcatEach([], sep);
    } else {
      ConcatEachIsJoin(xs[1..], sep);
    }
  }

  // ---------------------------------------------------------------------
  // Decimal numbers

  predicate IsDigit(c: char) { '0' <= c <= '9' }

  predicate AllDigits(s: string) {
    forall k :: 0 <= k < |s| ==> IsDigit(s[k])
  }

  function DigitChar(d: nat): (c: char)
    requires d < 10
    ensures IsDigit(c) && c as int - '0' as int == d
  {
    ('0' as int + d) as char
  }

  /** The decimal digits of `n`, most significant first, without leading zeros. */
  function NatToString(n: nat): (r: string)
    ensures 1 <= |r| && AllDigits(r)
    ensures |r| > 1 ==> r[0] != '0'
  {
    if n < 10 then [DigitChar(n)] else NatToString(n / 10) + [DigitChar(n % 10)]
  }

  /** The number a string of decimal digits stands for. */
  function DigitsValue(s: string): nat
    requires AllDigits(s)
  {
    if s == [] then 0 else DigitsValue(s[..|s| - 1]) * 10 + (s[|s| - 1] as int - '0' as int)
  }

  lemma {:induction false} NatToStringRoundTrip(n: nat)
    ensures DigitsValue(NatToString(n)) == n
  {
    if n >= 10 {
      var r := NatToString(n);
      assert r[..|r| - 1] == NatToString(n / 10);
      NatToStringRoundTrip(n / 10);
    }
  }

  function Zeros(k: nat): (r: string)
    ensures |r| == k && AllDigits(r)
  {
    if k == 0 then "" else "0" + Zeros(k - 1)
  }

  lemma {:induction false} LeadingZerosAddNothing(k: nat, d: string)
    requires AllDigits(d)
    ensures DigitsValue(Zeros(k) + d) == DigitsValue(d)
    decreases |d|
  {
    if d == [] {
      assert Zeros(k) + d == Zeros(k);
      ZerosValue(k);
    } else {
      var u := Zeros(k) + d;
      assert u[..|u| - 1] == Zeros(k) + d[..|d| - 1];
      LeadingZerosAddNothing(k, d[..|d| - 1]);
    }
  }

  lemma {:induction false} ZerosValue(k: nat)
    ensures DigitsValue(Zeros(k)) == 0
  {
    if k > 0 {
      var z := Zeros(k);
      assert z[..|z| - 1] == Zeros(k - 1) by {
        ZerosAppend(k - 1);
      }
      ZerosValue(k - 1);
    }
  }

  lemma {:induction false} ZerosAppend(k: nat)
    ensures Zeros(k + 1) == Zeros(k) + "0"
  {
    if k > 0 { ZerosAppend(k - 1); }
  }

  /** Python's `f"{i:03d}"`: the decimal digits of `i`, left-padded with zeros
      to at least three characters. */
  function Pad3(i: nat): (r: string)
    ensures |r| >= 3 && AllDigits(r)
  {
    var d := NatToString(i);
    if |d| < 3 then Zeros(3 - |d|) + d else d
  }

  /** The padded form reads back as the number it was made from. */
  lemma Pad3RoundTrip(i: nat)
    ensures DigitsValue(Pad3(i)) == i
  {
    var d := NatToString(i);
    NatToStringRoundTrip(i);
    if |d| < 3 { LeadingZerosAddNothing(3 - |d|, d); }
  }

  /** Distinct numbers get distinct padded forms. */
  lemma Pad3Injective(i: nat, j: nat)
    requires Pad3(i) == Pad3(j)
    ensures i == j
  {
    Pad3RoundTrip(i);
    Pad3RoundTrip(j);
  }

  /** Python's `str(i)` for an integer. */
  function IntToString(i: int): (r: string)
    ensures |r| >= 1
  {
    if i < 0 then "-" + NatToString(-i) else NatToString(i)
  }
}
