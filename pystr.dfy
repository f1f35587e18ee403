/**
  The pieces of Python's string and list semantics that the modelled code relies on:
  `pat in s`, `s.split(sep)[0]`, `[1]` and `[-1]`, `str.partition`, `str.strip()`,
  `str.lower()`, `", ".join(...)` and list slicing with negative or out-of-range bounds.
*/
module PyStr {
  import opened Wrappers

  /** `pat` occurs in `s` starting at index `i`. */
  predicate MatchAt(s: string, pat: string, i: nat) {
    i + |pat| <= |s| && s[i..i + |pat|] == pat
  }

  /** Python's `pat in s`. */
  predicate Contains(s: string, pat: string) {
    exists i: nat | i <= |s| :: MatchAt(s, pat, i)
  }

  /** First occurrence of `pat` in `s` at or after `k` (Python's `s.find(pat, k)`). */
  function FindFrom(s: string, pat: string, k: nat): (r: Option<nat>)
    ensures r.Some? ==> k <= r.value && MatchAt(s, pat, r.value)
    ensures r.Some? ==> forall j :: k <= j < r.value ==> !MatchAt(s, pat, j)
    ensures r.None? ==> forall j :: k <= j ==> !MatchAt(s, pat, j)
    decreases |s| + 1 - k
  {
    if |s| < k + |pat| then None
    else if s[k..k + |pat|] == pat then Some(k)
    else FindFrom(s, pat, k + 1)
  }

  /** First occurrence of `pat` in `s`; `None` exactly when `pat in s` is false. */
  function Find(s: string, pat: string): (r: Option<nat>)
    ensures r.Some? ==> MatchAt(s, pat, r.value)
    ensures r.Some? ==> forall j :: 0 <= j < r.value ==> !MatchAt(s, pat, j)
    ensures r.None? <==> !Contains(s, pat)
  {
    FindFrom(s, pat, 0)
  }

  /** `s.split(sep)[0]`: the text before the first `sep`, or all of `s`. */
  function Before(s: string, sep: string): (r: string)
    ensures |r| <= |s| && r == s[..|r|]
    ensures !Contains(s, sep) ==> r == s
  {
    match Find(s, sep)
    case Some(i) => s[..i]
    case None => s
  }

  /** The text after the first `sep`. */
  function After(s: string, sep: string): (r: string)
    requires Contains(s, sep)
    ensures |r| + |sep| <= |s| && r == s[|s| - |r|..]
  {
    var i := Find(s, sep).value;
    s[i + |sep|..]
  }

  /** `s.split(sep)[1]`: the text between the first and the second `sep`. */
  function Piece1(s: string, sep: string): string
    requires Contains(s, sep)
  {
    Before(After(s, sep), sep)
  }

  /** `s.split(sep)[-1]`: the text after the last of the non-overlapping occurrences
      that Python's left-to-right split finds. */
  function LastPiece(s: string, sep: string): (r: string)
    requires sep != []
    ensures !Contains(r, sep)
    decreases |s|
  {
    if Contains(s, sep) then LastPiece(After(s, sep), sep) else s
  }

  /** `c.isspace()` for the characters Python counts as whitespace. */
  predicate IsSpace(c: char) {
    c == ' ' || ('\t' <= c <= '\r') || ('\U{1C}' <= c <= '\U{1F}') || c == '\U{85}'
    || c == '\U{A0}' || c == '\U{1680}' || ('\U{2000}' <= c <= '\U{200A}')
    || c == '\U{2028}' || c == '\U{2029}' || c == '\U{202F}' || c == '\U{205F}' || c == '\U{3000}'
  }

  function StripLeft(s: string): (r: string)
    ensures |r| <= |s| && r == s[|s| - |r|..]
    ensures r != [] ==> !IsSpace(r[0])
  {
    if s != [] && IsSpace(s[0]) then StripLeft(s[1..]) else s
  }

  function StripRight(s: string): (r: string)
    ensures |r| <= |s| && r == s[..|r|]
    ensures r != [] ==> !IsSpace(r[|r| - 1])
  {
    if s != [] && IsSpace(s[|s| - 1]) then StripRight(s[..|s| - 1]) else s
  }

  /** `s.strip()`: the longest slice of `s` that neither starts nor ends with whitespace. */
  function Strip(s: string): (r: string)
    ensures |r| <= |s|
    ensures r != [] ==> !IsSpace(r[0]) && !IsSpace(r[|r| - 1])
  {
    var l := StripLeft(s);
    var r := StripRight(l);
    assert r != [] ==> r[0] == l[0];
    r
  }

  /** ASCII case folding; `str.lower()` on letters A-Z. */
  function LowerChar(c: char): char {
    if 'A' <= c <= 'Z' then (c as int + 32) as char else c
  }

  function Lower(s: string): (r: string)
    ensures |r| == |s|
    ensures forall i :: 0 <= i < |s| ==> r[i] == LowerChar(s[i])
  {
    seq(|s|, i requires 0 <= i < |s| => LowerChar(s[i]))
  }

  /** `sep.join(parts)`. */
  function Join(sep: string, parts: seq<string>): string {
    if parts == [] then ""
    else if |parts| == 1 then parts[0]
    else parts[0] + sep + Join(sep, parts[1..])
  }

  /** `"".join(parts)`. */
  function Concat(parts: seq<string>): string {
    if parts == [] then "" else parts[0] + Concat(parts[1..])
  }

  /** Index of the first `c` in `s`, or `|s|` when `c` does not occur (Python's
      `s.find(c)` with the length in place of `-1`). */
  function IndexOf(s: string, c: char): (i: nat)
    ensures i <= |s|
  {
    if s == [] then 0 else if s[0] == c then 0 else 1 + IndexOf(s[1..], c)
  }

  /** `IndexOf` finds the first occurrence, and finds none exactly when `c` is not in `s`. */
  lemma {:induction false} IndexOfFirst(s: string, c: char)
    ensures IndexOf(s, c) < |s| ==> s[IndexOf(s, c)] == c
    ensures forall j :: 0 <= j < IndexOf(s, c) ==> s[j] != c
    ensures IndexOf(s, c) == |s| <==> c !in s
  {
    if s != [] {
      IndexOfFirst(s[1..], c);
      assert s == [s[0]] + s[1..];
    }
  }

  /** The first `c` after a prefix free of `c` is found past the prefix. */
  lemma {:induction false} IndexOfShift(a: string, s: string, c: char)
    requires IndexOf(a, c) == |a|
    ensures IndexOf(a + s, c) == |a| + IndexOf(s, c)
  {
    if a == [] {
      assert a + s == s;
    } else {
      assert (a + s)[0] == a[0];
      assert (a + s)[1..] == a[1..] + s;
      IndexOfShift(a[1..], s, c);
    }
  }

  /** `s.split(c)` for a one-character separator: every piece, in order. */
  function SplitChar(s: string, c: char): (r: seq<string>)
    ensures |r| >= 1
    decreases |s|
  {
    var i := IndexOf(s, c);
    if i == |s| then [s] else [s[..i]] + SplitChar(s[i + 1..], c)
  }

  /** `s.partition(c)` without the separator: the text before the first `c` and the
      text after it (empty when `c` does not occur). */
  function Partition(s: string, c: char): (r: (string, string))
    ensures |r.0| == IndexOf(s, c)
  {
    var i := IndexOf(s, c);
    if i == |s| then (s, "") else (s[..i], s[i + 1..])
  }

  /** The partition gives back the text around the first separator: the whole text when
      there is none, else a head free of `c`, the separator and the rest. */
  lemma {:induction false} PartitionSplits(s: string, c: char)
    ensures c !in s ==> Partition(s, c) == (s, "")
    ensures c in s ==> var r := Partition(s, c); s == r.0 + [c] + r.1 && c !in r.0
  {
    IndexOfFirst(s, c);
    var i := IndexOf(s, c);
    if i < |s| {
      assert s == s[..i] + [c] + s[i + 1..];
      assert forall j :: 0 <= j < |s[..i]| ==> s[..i][j] != c;
    }
  }

  /** The decimal digits of a natural number, most significant first. */
  function Digits(n: nat): (r: string)
    ensures |r| >= 1 && forall k :: 0 <= k < |r| ==> '0' <= r[k] <= '9'
  {
    if n < 10 then [('0' as int + n) as char] else Digits(n / 10) + [('0' as int + n % 10) as char]
  }

  /** `str(n)` for an integer. */
  function Decimal(n: int): (r: string)
    ensures |r| >= 1
    ensures n >= 0 ==> r == Digits(n)
    ensures n < 0 ==> r == "-" + Digits(-n)
  {
    if n < 0 then "-" + Digits(-n) else Digits(n)
  }

  /** Python's bound normalisation for `s[start:stop]`. */
  function ClampIndex(i: int, n: nat): (r: nat)
    ensures r <= n
  {
    if i < 0 then (if n + i < 0 then 0 else n + i) else if i > n then n else i
  }

  /** Python's `s[start:stop]` on a list. */
  function Slice<T>(s: seq<T>, start: int, stop: int): (r: seq<T>)
    ensures |r| <= |s|
  {
    var a := ClampIndex(start, |s|);
    var b := ClampIndex(stop, |s|);
    if a < b then s[a..b] else []
  }

  /** Python's `s[start:]` on a list. */
  function SliceFrom<T>(s: seq<T>, start: int): (r: seq<T>)
    ensures r == s[ClampIndex(start, |s|)..]
  {
    s[ClampIndex(start, |s|)..]
  }

  // ---------------------------------------------------------------------
  // Containment facts used by the parsers

  lemma {:induction false} ContainsSuffix(s: string, k: nat, pat: string)
    requires k <= |s| && Contains(s[k..], pat)
    ensures Contains(s, pat)
  {
    var i: nat :| i <= |s[k..]| && MatchAt(s[k..], pat, i);
    assert s[k..][i..i + |pat|] == s[k + i..k + i + |pat|];
    assert MatchAt(s, pat, k + i);
  }

  lemma {:induction false} ContainsPrefix(s: string, k: nat, pat: string)
    requires k <= |s| && Contains(s[..k], pat)
    ensures Contains(s, pat)
  {
    var i: nat :| i <= |s[..k]| && MatchAt(s[..k], pat, i);
    assert s[..k][i..i + |pat|] == s[i..i + |pat|];
    assert MatchAt(s, pat, i);
  }

  /** A slice of a string that lacks `pat` lacks it too. */
  lemma {:induction false} ContainsSlice(s: string, a: nat, b: nat, pat: string)
    requires a <= b <= |s| && Contains(s[a..b], pat)
    ensures Contains(s, pat)
  {
    assert s[a..b] == s[..b][a..];
    ContainsSuffix(s[..b], a, pat);
    ContainsPrefix(s, b, pat);
  }

  /** `s.split(sep)[0]` never contains `sep`. */
  lemma {:induction false} BeforeLacksSep(s: string, sep: string)
    requires sep != []
    ensures !Contains(Before(s, sep), sep)
  {
    match Find(s, sep)
    case None =>
    case Some(i) =>
      forall j: nat | j <= |s[..i]|
        ensures !MatchAt(s[..i], sep, j)
      {
        if j + |sep| <= i {
          assert s[..i][j..j + |sep|] == s[j..j + |sep|];
          assert !MatchAt(s, sep, j);
        }
      }
  }

  lemma {:induction false} StripLeftLacks(s: string, pat: string)
    requires !Contains(s, pat)
    ensures !Contains(StripLeft(s), pat)
  {
    if s != [] && IsSpace(s[0]) {
      if Contains(s[1..], pat) { ContainsSuffix(s, 1, pat); }
      StripLeftLacks(s[1..], pat);
    }
  }

  lemma {:induction false} StripRightLacks(s: string, pat: string)
    requires !Contains(s, pat)
    ensures !Contains(StripRight(s), pat)
  {
    if s != [] && IsSpace(s[|s| - 1]) {
      if Contains(s[..|s| - 1], pat) { ContainsPrefix(s, |s| - 1, pat); }
      StripRightLacks(s[..|s| - 1], pat);
    }
  }

  /** Stripping never introduces a substring. */
  lemma {:induction false} StripLacks(s: string, pat: string)
    requires !Contains(s, pat)
    ensures !Contains(Strip(s), pat)
  {
    StripLeftLacks(s, pat);
    StripRightLacks(StripLeft(s), pat);
  }

  /** A string already free of surrounding whitespace is its own strip. */
  lemma {:induction false} StripTrimmed(s: string)
    requires s != [] ==> !IsSpace(s[0]) && !IsSpace(s[|s| - 1])
    ensures Strip(s) == s
  {
  }

  /** Every string occurs in itself. */
  lemma {:induction false} ContainsWhole(s: string)
    ensures Contains(s, s)
  {
    assert MatchAt(s, s, 0);
  }

  /** Where a pattern occurs, so does each of its prefixes. */
  lemma {:induction false} ContainsPatternPrefix(s: string, pat: string, k: nat)
    requires Contains(s, pat) && k <= |pat|
    ensures Contains(s, pat[..k])
  {
    var i: nat :| i <= |s| && MatchAt(s, pat, i);
    assert s[i..i + k] == s[i..i + |pat|][..k];
    assert MatchAt(s, pat[..k], i);
  }

  /** Whatever occurs in `s.split(sep)[0]` occurs in `s`. */
  lemma {:induction false} ContainsBefore(s: string, sep: string, pat: string)
    requires Contains(Before(s, sep), pat)
    ensures Contains(s, pat)
  {
    ContainsPrefix(s, |Before(s, sep)|, pat);
  }

  /** What `s` lacks, `s.split(sep)[0]` lacks too. */
  lemma {:induction false} BeforeKeepsLacking(s: string, sep: string, pat: string)
    requires !Contains(s, pat)
    ensures !Contains(Before(s, sep), pat)
  {
    if Contains(Before(s, sep), pat) {
      ContainsBefore(s, sep, pat);
    }
  }

  /** Whatever occurs after the first `sep` occurs in `s`. */
  lemma {:induction false} ContainsAfter(s: string, sep: string, pat: string)
    requires Contains(s, sep) && Contains(After(s, sep), pat)
    ensures Contains(s, pat)
  {
    ContainsSuffix(s, |s| - |After(s, sep)|, pat);
  }

  /** Whatever occurs in `s.split(sep)[1]` occurs in `s`. */
  lemma {:induction false} ContainsPiece1(s: string, sep: string, pat: string)
    requires Contains(s, sep) && Contains(Piece1(s, sep), pat)
    ensures Contains(s, pat)
  {
    ContainsBefore(After(s, sep), sep, pat);
    ContainsAfter(s, sep, pat);
  }

  /** Whatever occurs in `s.strip()` occurs in `s`. */
  lemma {:induction false} ContainsStripped(s: string, pat: string)
    requires Contains(Strip(s), pat)
    ensures Contains(s, pat)
  {
    if !Contains(s, pat) {
      StripLacks(s, pat);
    }
  }

  /** Where `s.split(sep)[-1]` starts: just after an occurrence of `sep` when there
      is one, else at 0. */
  lemma {:induction false} LastPieceStart(s: string, sep: string) returns (j: nat)
    requires sep != []
    ensures j <= |s| && LastPiece(s, sep) == s[j..]
    ensures Contains(s, sep) ==> j >= |sep| && MatchAt(s, sep, j - |sep|)
    ensures !Contains(s, sep) ==> j == 0
    decreases |s|
  {
    if Contains(s, sep) {
      var k := LastPieceStart(After(s, sep), sep);
      j := LastPieceShift(s, sep, k);
    } else {
      j := 0;
    }
  }

  /** Where `sep` occurs, `s.split(sep)[-1]` is what follows an occurrence of `sep`
      that no later occurrence follows. */
  lemma {:induction false} LastOccurrence(s: string, sep: string) returns (j: nat)
    requires sep != [] && Contains(s, sep)
    ensures MatchAt(s, sep, j) && LastPiece(s, sep) == s[j + |sep|..]
    ensures forall k :: j + |sep| <= k ==> !MatchAt(s, sep, k)
  {
    var start := LastPieceStart(s, sep);
    j := start - |sep|;
    SuffixLacks(s, start, sep);
  }

  /** The start of the last piece of `s` is the start of the last piece of what
      follows the first `sep`, shifted past it. */
  lemma {:induction false} LastPieceShift(s: string, sep: string, k: nat) returns (j: nat)
    requires sep != [] && Contains(s, sep)
    requires k <= |After(s, sep)| && LastPiece(After(s, sep), sep) == After(s, sep)[k..]
    requires Contains(After(s, sep), sep) ==> k >= |sep| && MatchAt(After(s, sep), sep, k - |sep|)
    requires !Contains(After(s, sep), sep) ==> k == 0
    ensures j == Find(s, sep).value + |sep| + k
    ensures j <= |s| && LastPiece(s, sep) == s[j..] && j >= |sep| && MatchAt(s, sep, j - |sep|)
  {
    ShiftedPiece(s, sep, k);
    var i := Find(s, sep).value;
    assert After(s, sep) == s[i + |sep|..];
    j := i + |sep| + k;
    ShiftedMatch(s, sep, i, k, j);
  }

  /** An occurrence of `sep` at `i`, and possibly one `k` past its end: either way
      an occurrence ends at `j`, `k` past the end of the first. */
  lemma {:induction false} ShiftedMatch(s: string, sep: string, i: nat, k: nat, j: nat)
    requires MatchAt(s, sep, i)
    requires k == 0 || (k >= |sep| && MatchAt(s[i + |sep|..], sep, k - |sep|))
    requires j == i + |sep| + k
    ensures j >= |sep| && MatchAt(s, sep, j - |sep|)
  {
    if k != 0 {
      MatchInSuffix(s, i + |sep|, sep, k - |sep|);
    }
  }

  lemma {:induction false} ShiftedPiece(s: string, sep: string, k: nat)
    requires sep != [] && Contains(s, sep)
    requires k <= |After(s, sep)| && LastPiece(After(s, sep), sep) == After(s, sep)[k..]
    ensures var j := Find(s, sep).value + |sep| + k;
      j <= |s| && LastPiece(s, sep) == s[j..]
  {
    var i := Find(s, sep).value;
    var a := After(s, sep);
    assert a == s[i + |sep|..];
    assert LastPiece(s, sep) == LastPiece(a, sep);
    assert a[k..] == s[i + |sep| + k..];
  }

  /** An occurrence in a suffix is an occurrence in the whole string. */
  lemma {:induction false} MatchInSuffix(s: string, d: nat, pat: string, m: nat)
    requires d <= |s| && MatchAt(s[d..], pat, m)
    ensures MatchAt(s, pat, d + m)
  {
    assert s[d..][m..m + |pat|] == s[d + m..d + m + |pat|];
  }

  /** A suffix that lacks `sep` has no occurrence starting in it. */
  lemma {:induction false} SuffixLacks(s: string, j: nat, sep: string)
    requires j <= |s| && !Contains(s[j..], sep)
    ensures forall m :: j <= m ==> !MatchAt(s, sep, m)
  {
    forall m | j <= m && MatchAt(s, sep, m)
      ensures false
    {
      assert s[j..][m - j..m - j + |sep|] == s[m..m + |sep|];
      assert MatchAt(s[j..], sep, m - j);
    }
  }
  /** `s.split(marker)[1].split(eol)[0].strip()`: the rest of the line after the first
      `marker`, stripped; it holds no line break and is text of `s`. */
  function LineAfter(s: string, marker: string, eol: string): (r: string)
    requires Contains(s, marker) && eol != []
    ensures !Contains(r, eol)
    ensures r != [] ==> !IsSpace(r[0]) && !IsSpace(r[|r| - 1])
    ensures Contains(s, r)
  {
    var piece := Piece1(s, marker);
    var line := Before(piece, eol);
    BeforeLacksSep(piece, eol);
    StripLacks(line, eol);
    StripOccurs(line);
    ContainsBefore(piece, eol, Strip(line));
    ContainsPiece1(s, marker, Strip(line));
    Strip(line)
  }

  /** A string's strip occurs in it. */
  lemma {:induction false} StripOccurs(s: string)
    ensures Contains(s, Strip(s))
  {
    ContainsWhole(Strip(s));
    ContainsStripped(s, Strip(s));
  }
}
