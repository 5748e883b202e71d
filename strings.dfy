/** The few Python string operations the client relies on, as total functions on `seq<char>`. */
module Strings {

  /** Python's `s[:n]` for a non-negative `n`. */
  function Take(s: string, n: nat): (r: string)
    ensures |r| == (if |s| <= n then |s| else n)
    ensures r <= s
  {
    if |s| <= n then s else s[..n]
  }

  predicate OccursAt(s: string, p: string, i: int) {
    0 <= i && i + |p| <= |s| && s[i..i + |p|] == p
  }

  /** Python's `p in s`. */
  predicate Contains(s: string, p: string) {
    exists i | 0 <= i <= |s| - |p| :: OccursAt(s, p, i)
  }

  /** An occurrence in `s[1..]` is an occurrence in `s`, one position later, and back. */
  lemma OccursTail(s: string, p: string)
    requires |s| >= 1
    ensures forall i :: OccursAt(s[1..], p, i) ==> OccursAt(s, p, i + 1)
    ensures forall i :: 1 <= i && OccursAt(s, p, i) ==> OccursAt(s[1..], p, i - 1)
  {
    forall i | OccursAt(s[1..], p, i) ensures OccursAt(s, p, i + 1) {
      assert s[1..][i..i + |p|] == s[i + 1..i + 1 + |p|];
    }
    forall i | 1 <= i && OccursAt(s, p, i) ensures OccursAt(s[1..], p, i - 1) {
      assert s[1..][i - 1..i - 1 + |p|] == s[i..i + |p|];
    }
  }

  /** A string lacking one of the pattern's characters holds no occurrence of it. */
  lemma {:induction false} MissingCharNoOccurrence(s: string, p: string, k: nat)
    requires k < |p| && p[k] !in s
    ensures !Contains(s, p)
  {
  }

  /** An occurrence inside a prefix is an occurrence in the whole string. */
  lemma PrefixOccurrence(r: string, s: string, p: string, i: int)
    requires r <= s && OccursAt(r, p, i)
    ensures OccursAt(s, p, i)
  {
    assert s[i..i + |p|] == r[i..i + |p|];
  }

  /**
   * Python's `s.replace(pat, "")`: occurrences are found left to right in the
   * original string and never overlap; the result is not scanned again.
   */
  function RemoveAll(s: string, pat: string): (r: string)
    requires pat != ""
    ensures |r| <= |s|
    ensures !Contains(s, pat) ==> r == s
    decreases |s|
  {
    if |s| < |pat| then s
    else if s[..|pat|] == pat then
      assert OccursAt(s, pat, 0);
      RemoveAll(s[|pat|..], pat)
    else
      OccursTail(s, pat);
      [s[0]] + RemoveAll(s[1..], pat)
  }

  /** Without an occurrence at the front, removal keeps the first character and goes on. */
  lemma RemoveAllStep(s: string, pat: string)
    requires pat != "" && |s| >= |pat| && !OccursAt(s, pat, 0)
    ensures RemoveAll(s, pat) == [s[0]] + RemoveAll(s[1..], pat)
  {
    assert s[..|pat|] != pat;
  }

  lemma ConcatAssoc<T>(a: seq<T>, b: seq<T>, c: seq<T>)
    ensures a + (b + c) == (a + b) + c
  {
  }

  /** No occurrence starting before `n` in `s` means none before `n - 1` in `s[1..]`. */
  lemma NoOccurrenceInTail(s: string, pat: string, n: nat)
    requires 1 <= n <= |s|
    requires forall i :: 0 <= i < n ==> !OccursAt(s, pat, i)
    ensures forall i :: 0 <= i < n - 1 ==> !OccursAt(s[1..], pat, i)
  {
    OccursTail(s, pat);
  }

  /** One unfolding of the removal in front of a prefix that the tail keeps. */
  lemma RemoveAllPrefixStep(s: string, pat: string, n: nat)
    requires pat != "" && 1 <= n <= |s| && |pat| <= |s| && !OccursAt(s, pat, 0)
    requires RemoveAll(s[1..], pat) == s[1..][..n - 1] + RemoveAll(s[1..][n - 1..], pat)
    ensures RemoveAll(s, pat) == s[..n] + RemoveAll(s[n..], pat)
  {
    var head, rest := s[1..][..n - 1], RemoveAll(s[n..], pat);
    assert s[1..][n - 1..] == s[n..];
    RemoveAllStep(s, pat);
    assert RemoveAll(s, pat) == [s[0]] + (head + rest);
    assert [s[0]] + head == s[..n];
    ConcatAssoc([s[0]], head, rest);
  }

  /** With no occurrence starting before `n`, removal keeps the first `n` characters unchanged. */
  lemma {:induction false} RemoveAllKeepsPrefix(s: string, pat: string, n: nat)
    requires pat != "" && n <= |s|
    requires forall i :: 0 <= i < n ==> !OccursAt(s, pat, i)
    ensures RemoveAll(s, pat) == s[..n] + RemoveAll(s[n..], pat)
    decreases n
  {
    if n == 0 {
      assert s[0..] == s;
    } else if |s| < |pat| {
      assert RemoveAll(s[n..], pat) == s[n..];
      assert s[..n] + s[n..] == s;
    } else {
      NoOccurrenceInTail(s, pat, n);
      RemoveAllKeepsPrefix(s[1..], pat, n - 1);
      RemoveAllPrefixStep(s, pat, n);
    }
  }

  /** With no occurrence starting inside `x`, removal passes over `x` unchanged. */
  lemma RemoveAllKeepsHead(x: string, y: string, pat: string)
    requires pat != ""
    requires forall i :: 0 <= i < |x| ==> !OccursAt(x + y, pat, i)
    ensures RemoveAll(x + y, pat) == x + RemoveAll(y, pat)
  {
    RemoveAllKeepsPrefix(x + y, pat, |x|);
    assert (x + y)[..|x|] == x && (x + y)[|x|..] == y;
  }

  /**
   * Python's `s.split(sep)[0]`: everything before the first occurrence of
   * `sep`, or all of `s` when there is none.
   */
  function Before(s: string, sep: string): (r: string)
    requires sep != ""
    ensures r <= s
    ensures forall i :: 0 <= i < |r| ==> !OccursAt(s, sep, i)
    ensures r == s || OccursAt(s, sep, |r|)
    decreases |s|
  {
    if |s| < |sep| then s
    else if s[..|sep|] == sep then []
    else
      OccursTail(s, sep);
      [s[0]] + Before(s[1..], sep)
  }

  /** The cut leaves no occurrence of the separator behind. */
  lemma BeforeHasNoSeparator(s: string, sep: string)
    requires sep != ""
    ensures !Contains(Before(s, sep), sep)
  {
    var r := Before(s, sep);
    if Contains(r, sep) {
      var i :| 0 <= i <= |r| - |sep| && OccursAt(r, sep, i);
      PrefixOccurrence(r, s, sep, i);
      assert false;
    }
  }

  /** Python's `sep.join(parts)`. */
  function Join(parts: seq<string>, sep: string): string
  {
    if |parts| == 0 then ""
    else if |parts| == 1 then parts[0]
    else parts[0] + sep + Join(parts[1..], sep)
  }

  /** The first position of `c` in `s`. */
  function IndexOf(s: string, c: char): (i: nat)
    requires c in s
    ensures i < |s| && s[i] == c && c !in s[..i]
  {
    if s[0] == c then 0
    else
      assert c in s[1..];
      var j := IndexOf(s[1..], c);
      assert s[..j + 1] == [s[0]] + s[1..][..j];
      j + 1
  }

  /** Python's `s.split(sep)` for a one-character separator. */
  function Split(s: string, sep: char): (r: seq<string>)
    ensures |r| >= 1
    decreases |s|
  {
    if sep in s then
      var i := IndexOf(s, sep);
      [s[..i]] + Split(s[i + 1..], sep)
    else [s]
  }

  /** The first separator of `head + [sep] + rest` is the one after `head` when `head` has none. */
  lemma {:induction false} IndexAfterPart(head: string, rest: string, sep: char)
    requires sep !in head
    ensures sep in head + [sep] + rest
    ensures IndexOf(head + [sep] + rest, sep) == |head|
  {
    var s := head + [sep] + rest;
    assert s[|head|] == sep;
    if |head| > 0 {
      assert s[0] == head[0];
      assert s[1..] == head[1..] + [sep] + rest;
      IndexAfterPart(head[1..], rest, sep);
    }
  }

  /** Splitting a join on a separator that no part contains gives the parts back. */
  lemma {:induction false} SplitJoin(parts: seq<string>, sep: char)
    requires |parts| >= 1
    requires forall k :: 0 <= k < |parts| ==> sep !in parts[k]
    ensures Split(Join(parts, [sep]), sep) == parts
  {
    if |parts| > 1 {
      var head, tail := parts[0], parts[1..];
      forall k | 0 <= k < |tail|
        ensures sep !in tail[k]
      {
        assert tail[k] == parts[k + 1];
      }
      var rest := Join(tail, [sep]);
      var s := head + [sep] + rest;
      assert Join(parts, [sep]) == s;
      assert sep !in head;
      IndexAfterPart(head, rest, sep);
      assert s[..|head|] == head;
      assert s[|head| + 1..] == rest;
      assert Split(s, sep) == [head] + Split(rest, sep);
      SplitJoin(tail, sep);
      assert [head] + tail == parts;
    } else {
      assert Join(parts, [sep]) == parts[0];
      assert sep !in parts[0];
      assert [parts[0]] == parts;
    }
  }

  function DigitChar(d: nat): char
    requires d < 10
  {
    (48 + d) as char
  }

  function DigitValue(c: char): int {
    c as int - 48
  }

  /** Python's `str(n)` for a natural number: decimal, no leading zero. */
  function NatToString(n: nat): (s: string)
    ensures |s| >= 1
    ensures (n < 10) == (|s| == 1)
    ensures forall k :: 0 <= k < |s| ==> '0' <= s[k] <= '9'
    ensures n > 0 ==> s[0] != '0'
    decreases n
  {
    if n < 10 then [DigitChar(n)] else NatToString(n / 10) + [DigitChar(n % 10)]
  }

  /** Reads a string of decimal digits back as a number (Python's `int(s)`). */
  function ParseDigits(s: string): int
  {
    if s == [] then 0 else ParseDigits(s[..|s| - 1]) * 10 + DigitValue(s[|s| - 1])
  }

  /** The decimal rendering loses nothing: parsing it gives the number back. */
  lemma {:induction false} ParseNatToString(n: nat)
    ensures ParseDigits(NatToString(n)) == n
  {
    var s := NatToString(n);
    if n >= 10 {
      ParseNatToString(n / 10);
      assert s[..|s| - 1] == NatToString(n / 10);
    }
  }
}
