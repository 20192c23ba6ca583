/**
  The string helpers the service leans on: `Character.isWhitespace`,
  `StringUtils.isBlank`, `String.trim`, `String.replaceAll` with a pattern
  free of regex metacharacters, `String.toUpperCase`, `String.endsWith` and
  `String.join`. Strings are sequences of `char`.
 */
module JavaStrings {

  /** `Character.isWhitespace`: the Unicode space, line and paragraph
      separators other than the three non-breaking spaces, plus the ASCII
      controls TAB, LF, VT, FF, CR and FS, GS, RS, US. */
  predicate IsWhitespace(c: char) {
    || ('\t' <= c <= '\r')
    || ('\U{1C}' <= c <= ' ')
    || c == '\U{1680}'
    || ('\U{2000}' <= c <= '\U{2006}')
    || ('\U{2008}' <= c <= '\U{200A}')
    || c == '\U{2028}' || c == '\U{2029}'
    || c == '\U{205F}' || c == '\U{3000}'
  }

  /** `StringUtils.isBlank` on a non-null string: empty or whitespace only. */
  predicate IsBlank(s: string) {
    forall i :: 0 <= i < |s| ==> IsWhitespace(s[i])
  }

  /** `String.trim` removes the characters at or below U+0020 at both ends. */
  predicate IsTrimmable(c: char) {
    c <= ' '
  }

  /** Index of the first character that `String.trim` keeps (or |s|). */
  function TrimStart(s: string): (lo: nat)
    ensures lo <= |s|
    ensures forall i :: 0 <= i < lo ==> IsTrimmable(s[i])
    ensures lo < |s| ==> !IsTrimmable(s[lo])
  {
    if |s| > 0 && IsTrimmable(s[0]) then
      var rest := TrimStart(s[1..]);
      assert forall i :: 1 <= i < 1 + rest ==> s[i] == s[1..][i - 1];
      1 + rest
    else 0
  }

  /** One past the last character that `String.trim` keeps, scanning down
      from the end but never below `lo`. */
  function TrimEnd(s: string, lo: nat): (hi: nat)
    requires lo <= |s|
    ensures lo <= hi <= |s|
    ensures forall i :: hi <= i < |s| ==> IsTrimmable(s[i])
    ensures lo < hi ==> !IsTrimmable(s[hi - 1])
  {
    if lo < |s| && IsTrimmable(s[|s| - 1]) then
      var hi := TrimEnd(s[..|s| - 1], lo);
      assert forall i :: hi <= i < |s| - 1 ==> s[i] == s[..|s| - 1][i];
      hi
    else |s|
  }

  /** `String.trim`. */
  function Trim(s: string): (r: string)
    ensures |r| <= |s|
    ensures |r| > 0 ==> !IsTrimmable(r[0]) && !IsTrimmable(r[|r| - 1])
    ensures forall i :: 0 <= i < |r| ==> r[i] in s
    ensures (|s| == 0 || (!IsTrimmable(s[0]) && !IsTrimmable(s[|s| - 1]))) ==> r == s
  {
    var lo := TrimStart(s);
    var hi := TrimEnd(s, lo);
    assert forall i :: 0 <= i < hi - lo ==> s[lo..hi][i] == s[lo + i];
    s[lo..hi]
  }

  /** `String.trim` returns a contiguous slice of its input: only trimmable
      characters are dropped, and only from the two ends. With the contract
      of `Trim` (the slice starts and ends with a kept character) this
      determines the result. */
  lemma TrimIsSlice(s: string)
    ensures exists lo, hi ::
      && 0 <= lo <= hi <= |s|
      && Trim(s) == s[lo..hi]
      && (forall i :: 0 <= i < lo ==> IsTrimmable(s[i]))
      && (forall i :: hi <= i < |s| ==> IsTrimmable(s[i]))
  {
    var lo := TrimStart(s);
    var hi := TrimEnd(s, lo);
    assert Trim(s) == s[lo..hi];
  }

  /** A blank string stays blank when trimmed: trimming only drops characters. */
  lemma {:induction false} TrimKeepsBlank(s: string)
    requires IsBlank(s)
    ensures IsBlank(Trim(s))
  {
    var r := Trim(s);
    forall i | 0 <= i < |r|
      ensures IsWhitespace(r[i])
    {
      var j :| 0 <= j < |s| && s[j] == r[i];
    }
  }

  /** `s` holds `pat` starting at index `i`. */
  predicate OccursAt(s: string, pat: string, i: nat) {
    i + |pat| <= |s| && forall q :: i <= q < i + |pat| ==> s[q] == pat[q - i]
  }

  /** `s.replaceAll(pat, "")` for a pattern without regex metacharacters:
      every leftmost, non-overlapping occurrence of `pat` is deleted, and
      scanning resumes right after each deleted occurrence. */
  function RemoveAll(s: string, pat: string): (r: string)
    requires |pat| > 0
    ensures |r| <= |s|
  {
    RemoveAllFrom(s, pat, 0)
  }

  /** The scan of `RemoveAll` from index `i` on: what it yields for the
      rest of `s`. */
  function RemoveAllFrom(s: string, pat: string, i: nat): (r: string)
    requires |pat| > 0 && i <= |s|
    ensures |r| <= |s| - i
    decreases |s| - i
  {
    if i + |pat| > |s| then s[i..]
    else if OccursAt(s, pat, i) then RemoveAllFrom(s, pat, i + |pat|)
    else [s[i]] + RemoveAllFrom(s, pat, i + 1)
  }

  /** Removal only deletes: every character of the result comes from the
      input. */
  lemma RemoveAllOnlyDeletes(s: string, pat: string)
    requires |pat| > 0
    ensures forall j :: 0 <= j < |RemoveAll(s, pat)| ==> RemoveAll(s, pat)[j] in s
  {
    RemoveAllFromOnlyDeletes(s, pat, 0);
  }

  lemma {:induction false} RemoveAllFromOnlyDeletes(s: string, pat: string, i: nat)
    requires |pat| > 0 && i <= |s|
    ensures forall j :: 0 <= j < |RemoveAllFrom(s, pat, i)| ==> RemoveAllFrom(s, pat, i)[j] in s
    decreases |s| - i
  {
    var r := RemoveAllFrom(s, pat, i);
    if i + |pat| > |s| {
      forall j | 0 <= j < |r|
        ensures r[j] in s
      {
        assert r[j] == s[i + j];
      }
    } else if OccursAt(s, pat, i) {
      RemoveAllFromOnlyDeletes(s, pat, i + |pat|);
    } else {
      var rest := RemoveAllFrom(s, pat, i + 1);
      assert r == [s[i]] + rest;
      RemoveAllFromOnlyDeletes(s, pat, i + 1);
      forall j | 0 <= j < |r|
        ensures r[j] in s
      {
        if j > 0 {
          assert r[j] == rest[j - 1];
        }
      }
    }
  }

  /** A string in which `pat` never occurs comes back unchanged. */
  lemma RemoveAllAbsent(s: string, pat: string)
    requires |pat| > 0
    requires forall i :: 0 <= i <= |s| - |pat| ==> !OccursAt(s, pat, i)
    ensures RemoveAll(s, pat) == s
  {
    RemoveAllFromAbsent(s, pat, 0);
  }

  lemma {:induction false} RemoveAllFromAbsent(s: string, pat: string, i: nat)
    requires |pat| > 0 && i <= |s|
    requires forall j :: i <= j <= |s| - |pat| ==> !OccursAt(s, pat, j)
    ensures RemoveAllFrom(s, pat, i) == s[i..]
    decreases |s| - i
  {
    if i + |pat| <= |s| {
      assert !OccursAt(s, pat, i);
      RemoveAllFromAbsent(s, pat, i + 1);
      assert [s[i]] + s[i + 1..] == s[i..];
    }
  }

  /** Text before the first occurrence of `pat` is kept, that occurrence is
      deleted, and the scan resumes right after it. With `RemoveAllAbsent`
      this determines the result on every input. */
  lemma RemoveAllFirstOccurrence(s: string, pat: string, k: nat)
    requires |pat| > 0
    requires OccursAt(s, pat, k)
    requires forall i :: 0 <= i < k ==> !OccursAt(s, pat, i)
    ensures RemoveAll(s, pat) == s[..k] + RemoveAllFrom(s, pat, k + |pat|)
    ensures RemoveAll(s, pat) == s[..k] + RemoveAll(s[k + |pat|..], pat)
  {
    var i := k + |pat|;
    RemoveAllFromKeepsUpTo(s, pat, 0, k);
    assert s[0..k] == s[..k];
    RemoveAllFromShift(s, pat, i, 0);
    assert RemoveAllFrom(s, pat, i) == RemoveAll(s[i..], pat);
  }

  /** Scanning `s` from `i + j` is scanning the suffix `s[i..]` from `j`. */
  lemma {:induction false} RemoveAllFromShift(s: string, pat: string, i: nat, j: nat)
    requires |pat| > 0 && i + j <= |s|
    ensures RemoveAllFrom(s, pat, i + j) == RemoveAllFrom(s[i..], pat, j)
    decreases |s| - i - j, 1
  {
    if i + j + |pat| > |s| {
      assert s[i + j..] == s[i..][j..];
    } else if OccursAt(s, pat, i + j) {
      ShiftPastOccurrence(s, pat, i, j);
    } else {
      ShiftPastKept(s, pat, i, j);
    }
  }

  lemma {:induction false} ShiftPastOccurrence(s: string, pat: string, i: nat, j: nat)
    requires |pat| > 0 && OccursAt(s, pat, i + j)
    ensures RemoveAllFrom(s, pat, i + j) == RemoveAllFrom(s[i..], pat, j)
    decreases |s| - i - j, 0
  {
    var t, n := s[i..], j + |pat|;
    OccursInSuffix(s, pat, i, j);
    RemoveAllFromShift(s, pat, i, n);
    assert RemoveAllFrom(s, pat, i + j) == RemoveAllFrom(s, pat, i + n);
    assert RemoveAllFrom(t, pat, j) == RemoveAllFrom(t, pat, n);
  }

  lemma {:induction false} ShiftPastKept(s: string, pat: string, i: nat, j: nat)
    requires |pat| > 0 && i + j + |pat| <= |s| && !OccursAt(s, pat, i + j)
    ensures RemoveAllFrom(s, pat, i + j) == RemoveAllFrom(s[i..], pat, j)
    decreases |s| - i - j, 0
  {
    var t := s[i..];
    OccursInSuffix(s, pat, i, j);
    RemoveAllFromShift(s, pat, i, j + 1);
    RemoveAllFromKeepsAt(s, pat, i, j);
    RemoveAllFromKeeps(t, pat, j);
    assert t[j] == s[i + j];
    SameHeadSameTail(s[i + j], RemoveAllFrom(s, pat, i + (j + 1)), RemoveAllFrom(t, pat, j + 1),
                     RemoveAllFrom(s, pat, i + j), RemoveAllFrom(t, pat, j));
  }

  lemma RemoveAllFromKeepsAt(s: string, pat: string, i: nat, j: nat)
    requires |pat| > 0 && i + j + |pat| <= |s| && !OccursAt(s, pat, i + j)
    ensures RemoveAllFrom(s, pat, i + j) == [s[i + j]] + RemoveAllFrom(s, pat, i + (j + 1))
  {
    RemoveAllFromKeeps(s, pat, i + j);
    assert i + (j + 1) == i + j + 1;
  }

  lemma SameHeadSameTail(c: char, x: string, y: string, a: string, b: string)
    requires a == [c] + x && b == [c] + y && x == y
    ensures a == b
  {
  }

  /** A position that starts no occurrence keeps its character. */
  lemma RemoveAllFromKeeps(s: string, pat: string, i: nat)
    requires |pat| > 0 && i + |pat| <= |s| && !OccursAt(s, pat, i)
    ensures RemoveAllFrom(s, pat, i) == [s[i]] + RemoveAllFrom(s, pat, i + 1)
  {
  }

  lemma OccursInSuffix(s: string, pat: string, i: nat, j: nat)
    requires i + j <= |s|
    ensures OccursAt(s, pat, i + j) == OccursAt(s[i..], pat, j)
  {
    var t := s[i..];
    if OccursAt(s, pat, i + j) {
      forall m | 0 <= m < |pat|
        ensures t[j + m] == pat[m]
      {
        assert s[i + j + m] == pat[m];
      }
    }
    if OccursAt(t, pat, j) {
      forall m | 0 <= m < |pat|
        ensures s[i + j + m] == pat[m]
      {
        assert t[j + m] == pat[m];
      }
    }
  }

  lemma {:induction false} RemoveAllFromKeepsUpTo(s: string, pat: string, i: nat, k: nat)
    requires |pat| > 0 && i <= k
    requires OccursAt(s, pat, k)
    requires forall j :: i <= j < k ==> !OccursAt(s, pat, j)
    ensures RemoveAllFrom(s, pat, i) == s[i..k] + RemoveAllFrom(s, pat, k + |pat|)
    decreases k - i, 1
  {
    if i == k {
      assert s[i..k] + RemoveAllFrom(s, pat, k + |pat|) == RemoveAllFrom(s, pat, k + |pat|);
    } else {
      KeepOneBefore(s, pat, i, k);
    }
  }

  lemma {:induction false} KeepOneBefore(s: string, pat: string, i: nat, k: nat)
    requires |pat| > 0 && i < k
    requires OccursAt(s, pat, k)
    requires forall j :: i <= j < k ==> !OccursAt(s, pat, j)
    ensures RemoveAllFrom(s, pat, i) == s[i..k] + RemoveAllFrom(s, pat, k + |pat|)
    decreases k - i, 0
  {
    var rest := RemoveAllFrom(s, pat, k + |pat|);
    assert !OccursAt(s, pat, i);
    RemoveAllFromKeepsUpTo(s, pat, i + 1, k);
    assert [s[i]] + (s[i + 1..k] + rest) == s[i..k] + rest;
  }

  /** Removing a pattern from the pattern itself leaves nothing. */
  lemma RemoveAllSelf(pat: string)
    requires |pat| > 0
    ensures RemoveAll(pat, pat) == ""
  {
    assert OccursAt(pat, pat, 0);
  }

  /** Removal and trimming only drop characters, so a blank string can never
      become non-blank through them. */
  lemma RemoveAllTrimKeepsBlank(s: string, pat: string)
    requires |pat| > 0
    requires IsBlank(s)
    ensures IsBlank(Trim(RemoveAll(s, pat)))
  {
    var r := RemoveAll(s, pat);
    RemoveAllOnlyDeletes(s, pat);
    forall i | 0 <= i < |r|
      ensures IsWhitespace(r[i])
    {
      var j :| 0 <= j < |s| && s[j] == r[i];
    }
    TrimKeepsBlank(r);
  }

  /** `Character.toUpperCase` restricted to ASCII letters. */
  function UpperChar(c: char): (u: char)
    ensures 'a' <= c <= 'z' ==> 'A' <= u <= 'Z'
    ensures !('a' <= c <= 'z') ==> u == c
  {
    if 'a' <= c <= 'z' then (c as int - 32) as char else c
  }

  /** `String.toUpperCase` on text without letters outside ASCII. */
  function ToUpper(s: string): (r: string)
    ensures |r| == |s|
    ensures forall i :: 0 <= i < |s| ==> r[i] == UpperChar(s[i])
  {
    seq(|s|, i requires 0 <= i < |s| => UpperChar(s[i]))
  }

  /** A string holding no lower-case ASCII letter is its own upper case. */
  lemma ToUpperNoLower(s: string)
    requires forall i :: 0 <= i < |s| ==> !('a' <= s[i] <= 'z')
    ensures ToUpper(s) == s
  {
  }

  /** `String.endsWith`. */
  predicate EndsWith(s: string, suffix: string) {
    |suffix| <= |s| && s[|s| - |suffix|..] == suffix
  }

  /** `String.join(sep, parts)`: the parts in order, with `sep` between
      neighbours and nowhere else. */
  function Join(sep: string, parts: seq<string>): (r: string)
    ensures |parts| == 1 ==> r == parts[0]
    ensures |parts| == 0 ==> r == ""
  {
    if |parts| == 0 then ""
    else if |parts| == 1 then parts[0]
    else Join(sep, parts[..|parts| - 1]) + sep + parts[|parts| - 1]
  }

  /** Read from the front: the first part, the separator, then the rest
      joined. */
  lemma {:induction false} JoinFront(sep: string, parts: seq<string>)
    requires |parts| > 1
    ensures Join(sep, parts) == parts[0] + sep + Join(sep, parts[1..])
    decreases |parts|
  {
    var n := |parts|;
    var init, last, rest := parts[..n - 1], parts[n - 1], parts[1..];
    if n > 2 {
      assert rest[..|rest| - 1] == init[1..];
      assert rest[|rest| - 1] == last;
      assert Join(sep, rest) == Join(sep, init[1..]) + sep + last;
      JoinFront(sep, init);
      assert init[0] == parts[0];
    } else {
      assert init == [parts[0]] && rest == [last];
    }
  }
}
