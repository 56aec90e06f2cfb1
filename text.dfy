/**
 * The JavaScript string operations the storefront relies on, over `seq<char>`:
 * `indexOf`, `replace` with a string pattern (first occurrence only),
 * `split` with a non-empty string separator, `startsWith`, and the decimal
 * rendering of a non-negative integer (`Number.prototype.toString()`).
 */
module Text {

  /** `pat` occurs in `s` starting at position `i`. */
  predicate OccursAt(s: string, pat: string, i: int) {
    0 <= i && i + |pat| <= |s| && s[i..i + |pat|] == pat
  }

  /** The first position at or after `k` where `pat` occurs, or -1 (see `IndexFromSpec`). */
  function IndexFrom(s: string, pat: string, k: nat): (r: int)
    ensures r == -1 || (k <= r && r + |pat| <= |s|)
    decreases |s| - k
  {
    if k + |pat| > |s| then -1
    else if s[k..k + |pat|] == pat then k
    else IndexFrom(s, pat, k + 1)
  }

  /** `s.indexOf(pat)`: the first position where `pat` occurs, or -1 (see `IndexOfSpec`). */
  function IndexOf(s: string, pat: string): (r: int)
    ensures r == -1 || (0 <= r && r + |pat| <= |s|)
  {
    IndexFrom(s, pat, 0)
  }

  /** The scan from `k` finds an occurrence, and none lies between `k` and it; -1 means none at or after `k`. */
  lemma {:induction false} IndexFromSpec(s: string, pat: string, k: nat)
    ensures var r := IndexFrom(s, pat, k);
      && (r == -1 || OccursAt(s, pat, r))
      && (forall j :: k <= j && (r == -1 || j < r) ==> !OccursAt(s, pat, j))
    decreases |s| - k
  {
    if k + |pat| <= |s| && s[k..k + |pat|] != pat {
      IndexFromSpec(s, pat, k + 1);
    }
  }

  /** `indexOf` returns the first occurrence, and -1 exactly when there is none. */
  lemma IndexOfSpec(s: string, pat: string)
    ensures var r := IndexOf(s, pat);
      && (r == -1 || OccursAt(s, pat, r))
      && (forall j :: 0 <= j && (r == -1 || j < r) ==> !OccursAt(s, pat, j))
  {
    IndexFromSpec(s, pat, 0);
  }

  /** `s.replace(pat, rep)` with a string pattern: only the first occurrence is replaced. */
  function ReplaceFirst(s: string, pat: string, rep: string): string {
    var i := IndexOf(s, pat);
    if i == -1 then s else s[..i] + rep + s[i + |pat|..]
  }

  /** `s.split(sep)` for a non-empty separator: the pieces between non-overlapping occurrences, scanned left to right. */
  function Split(s: string, sep: string): (parts: seq<string>)
    requires |sep| > 0
    ensures |parts| >= 1
    decreases |s|
  {
    var i := IndexOf(s, sep);
    if i == -1 then [s] else [s[..i]] + Split(s[i + |sep|..], sep)
  }

  /** `parts.join(sep)`; the inverse of `Split`. */
  function Join(parts: seq<string>, sep: string): string {
    if |parts| == 0 then ""
    else if |parts| == 1 then parts[0]
    else parts[0] + sep + Join(parts[1..], sep)
  }

  /** Joining the pieces with the separator gives back the original string. */
  lemma {:induction false} JoinSplit(s: string, sep: string)
    requires |sep| > 0
    ensures Join(Split(s, sep), sep) == s
    decreases |s|
  {
    var i := IndexOf(s, sep);
    if i != -1 {
      IndexOfSpec(s, sep);
      var rest := s[i + |sep|..];
      JoinSplit(rest, sep);
      SplitAt(s, sep, i);
      var parts := Split(s, sep);
      assert Join(parts, sep) == s[..i] + sep + Join(Split(rest, sep), sep);
      assert s == s[..i] + s[i..i + |sep|] + rest;
    }
  }

  /** The first occurrence in a string is also the first occurrence in any prefix long enough to hold it. */
  lemma IndexOfInPrefix(s: string, pat: string, n: int)
    requires IndexOf(s, pat) != -1 && IndexOf(s, pat) + |pat| <= n <= |s|
    ensures IndexOf(s[..n], pat) == IndexOf(s, pat)
  {
    var i := IndexOf(s, pat);
    var t := s[..n];
    IndexOfSpec(s, pat);
    IndexOfSpec(t, pat);
    assert OccursAt(t, pat, i) by {
      assert t[i..i + |pat|] == s[i..i + |pat|];
    }
    forall j | 0 <= j < i && OccursAt(t, pat, j)
      ensures OccursAt(s, pat, j)
    {
      assert t[j..j + |pat|] == s[j..j + |pat|];
    }
  }

  /** The first piece is a prefix of the string; there is a second piece exactly when the separator occurs, and the pieces after the first are the split of what follows its first occurrence. */
  lemma {:induction false} SplitHead(s: string, sep: string)
    requires |sep| > 0
    ensures var parts := Split(s, sep);
      && |parts[0]| <= |s| && parts[0] == s[..|parts[0]|]
      && (|parts| >= 2 <==> IndexOf(s, sep) != -1)
      && (|parts| >= 2 ==> IndexOf(s, sep) == |parts[0]| && parts[1..] == Split(s[|parts[0]| + |sep|..], sep))
  {
    var i := IndexOf(s, sep);
    if i != -1 {
      SplitAt(s, sep, i);
    } else {
      SplitWithoutSeparator(s, sep);
    }
  }

  /** A prefix that stops before the first occurrence holds no occurrence. */
  lemma NoOccurrenceBefore(s: string, pat: string, i: int)
    requires |pat| > 0 && 0 <= i <= |s|
    requires forall j :: 0 <= j < i ==> !OccursAt(s, pat, j)
    ensures IndexOf(s[..i], pat) == -1
  {
    var r := IndexOf(s[..i], pat);
    IndexOfSpec(s[..i], pat);
    if r != -1 {
      assert r < i;
      assert s[..i][r..r + |pat|] == s[r..r + |pat|];
      assert OccursAt(s, pat, r);
    }
  }

  /** No piece of a split contains the separator. */
  lemma {:induction false} SplitPiecesFree(s: string, sep: string)
    requires |sep| > 0
    ensures forall k :: 0 <= k < |Split(s, sep)| ==> IndexOf(Split(s, sep)[k], sep) == -1
    decreases |s|
  {
    var i := IndexOf(s, sep);
    if i != -1 {
      IndexOfSpec(s, sep);
      NoOccurrenceBefore(s, sep, i);
      SplitPiecesFree(s[i + |sep|..], sep);
    }
  }

  /** Splitting at the first occurrence of the separator. */
  lemma {:induction false} SplitAt(s: string, sep: string, i: int)
    requires |sep| > 0 && i != -1 && IndexOf(s, sep) == i
    ensures i + |sep| <= |s|
    ensures Split(s, sep)[0] == s[..i] && Split(s, sep)[1..] == Split(s[i + |sep|..], sep)
  {
  }

  /** Without an occurrence of the separator the whole string is the only piece. */
  lemma SplitWithoutSeparator(s: string, sep: string)
    requires |sep| > 0 && IndexOf(s, sep) == -1
    ensures Split(s, sep) == [s]
  {
  }

  /** A one-character pattern occurs nowhere in a string none of whose characters it is. */
  lemma IndexOfAbsentChar(s: string, c: char)
    requires forall k :: 0 <= k < |s| ==> s[k] != c
    ensures IndexOf(s, [c]) == -1
  {
    IndexOfSpec(s, [c]);
    forall j | 0 <= j
      ensures !OccursAt(s, [c], j)
    {
      if j + 1 <= |s| {
        assert s[j..j + 1][0] == s[j];
      }
    }
  }

  /** A one-character separator right after a piece free of it is the first occurrence. */
  lemma IndexOfAfterFree(a: string, sep: string, b: string)
    requires |sep| == 1 && IndexOf(a, sep) == -1
    ensures IndexOf(a + sep + b, sep) == |a|
  {
    var t := a + sep + b;
    IndexOfSpec(a, sep);
    IndexOfSpec(t, sep);
    assert OccursAt(t, sep, |a|) by {
      assert t[|a|..|a| + 1] == sep;
    }
    forall j | 0 <= j < |a|
      ensures !OccursAt(t, sep, j)
    {
      assert !OccursAt(a, sep, j);
      assert t[j..j + 1] == a[j..j + 1];
    }
  }

  /** Splitting undoes joining when no piece holds the (one-character) separator. */
  lemma {:induction false} SplitJoin(parts: seq<string>, sep: string)
    requires |sep| == 1 && |parts| >= 1
    requires forall k :: 0 <= k < |parts| ==> IndexOf(parts[k], sep) == -1
    ensures Split(Join(parts, sep), sep) == parts
    decreases |parts|
  {
    if |parts| == 1 {
      SplitWithoutSeparator(parts[0], sep);
    } else {
      var a, rest := parts[0], Join(parts[1..], sep);
      var t := a + sep + rest;
      assert Join(parts, sep) == t;
      IndexOfAfterFree(a, sep, rest);
      SplitAt(t, sep, |a|);
      assert t[..|a|] == a && t[|a| + |sep|..] == rest;
      SplitJoin(parts[1..], sep);
      var pieces := Split(t, sep);
      assert pieces == [pieces[0]] + pieces[1..];
    }
  }

  /** When the pattern is a prefix, replacing it with nothing strips it. */
  lemma ReplaceFirstPrefix(pat: string, rest: string)
    ensures ReplaceFirst(pat + rest, pat, "") == rest
  {
    assert pat <= pat + rest;
  }

  /** The replacement removes exactly one occurrence, the first, wherever it is. */
  lemma ReplaceFirstRemovesOne(s: string, pat: string)
    requires IndexOf(s, pat) != -1
    ensures |ReplaceFirst(s, pat, "")| == |s| - |pat|
    ensures ReplaceFirst(s, pat, "") == s[..IndexOf(s, pat)] + s[IndexOf(s, pat) + |pat|..]
  {
  }

  /** `s.startsWith(prefix)`. */
  predicate StartsWith(s: string, prefix: string) {
    |prefix| <= |s| && s[..|prefix|] == prefix
  }

  // ---- trimming -----------------------------------------------------------

  /** The white-space characters `String.prototype.trim` strips (ASCII subset). */
  predicate IsSpace(c: char) {
    c == ' ' || c == '\t' || c == '\n' || c == '\r' || c == '\U{B}' || c == '\U{C}'
  }

  /** Drops leading white space: the result is a suffix of `s`. */
  function TrimStart(s: string): (r: string)
    ensures |r| <= |s| && r == s[|s| - |r|..]
    ensures |r| == 0 || !IsSpace(r[0])
  {
    if |s| > 0 && IsSpace(s[0]) then TrimStart(s[1..]) else s
  }

  /** Drops trailing white space: the result is a prefix of `s`. */
  function TrimEnd(s: string): (r: string)
    ensures |r| <= |s| && r == s[..|r|]
    ensures |r| == 0 || !IsSpace(r[|r| - 1])
  {
    if |s| > 0 && IsSpace(s[|s| - 1]) then TrimEnd(s[..|s| - 1]) else s
  }

  /** `s.trim()`: the middle part of `s` left once white space is dropped at both ends. */
  function Trim(s: string): (r: string)
    ensures |r| <= |s|
    ensures |r| == 0 || (!IsSpace(r[0]) && !IsSpace(r[|r| - 1]))
  {
    var t := TrimStart(s);
    var r := TrimEnd(t);
    assert |r| > 0 ==> r[0] == t[0];
    r
  }

  /** Trimming keeps a contiguous part of the input, starting after the leading white space. */
  lemma {:induction false} TrimIsSlice(s: string)
    ensures |s| - |TrimStart(s)| + |Trim(s)| <= |s|
    ensures Trim(s) == s[|s| - |TrimStart(s)|..|s| - |TrimStart(s)| + |Trim(s)|]
  {
    var t := TrimStart(s);
    var r := Trim(s);
    var i := |s| - |t|;
    assert r == t[..|r|];
    assert t[..|r|] == s[i..i + |r|];
  }

  /** Trimming twice is trimming once. */
  lemma TrimIdempotent(s: string)
    ensures Trim(Trim(s)) == Trim(s)
  {
  }

  // ---- decimal rendering -------------------------------------------------

  predicate IsDigit(c: char) { '0' <= c <= '9' }

  function DigitChar(d: nat): (c: char)
    requires d < 10
    ensures IsDigit(c) && c as int - '0' as int == d
  {
    (d + '0' as int) as char
  }

  /** `n.toString()` for a non-negative integer: decimal digits, no leading zero. */
  function NatToString(n: nat): (s: string)
    ensures |s| >= 1
    ensures forall k :: 0 <= k < |s| ==> IsDigit(s[k])
    ensures |s| > 1 ==> s[0] != '0'
  {
    if n < 10 then [DigitChar(n)] else NatToString(n / 10) + [DigitChar(n % 10)]
  }

  /** Reads a string of decimal digits back into its value. */
  function DigitsValue(s: string): int
    requires forall k :: 0 <= k < |s| ==> IsDigit(s[k])
  {
    if |s| == 0 then 0 else 10 * DigitsValue(s[..|s| - 1]) + (s[|s| - 1] as int - '0' as int)
  }

  lemma {:induction false} NatToStringRoundTrip(n: nat)
    ensures DigitsValue(NatToString(n)) == n
  {
    if n >= 10 {
      NatToStringRoundTrip(n / 10);
      var s := NatToString(n);
      assert s[..|s| - 1] == NatToString(n / 10);
    }
  }
}
