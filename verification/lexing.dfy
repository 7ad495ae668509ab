/**
 * The small pieces of Python string handling that `process_message` relies on:
 * `str.strip()`, `str.split(" ")` and the decimal rendering of an `int` inside an
 * f-string.
 */
module Lexing {

  /** Python's `str.isspace()`, which is also what `\s` matches in a `str` pattern. */
  predicate IsSpace(c: char) {
    || ('\t' <= c <= '\r')            // \t \n \v \f \r
    || ('\U{1C}' <= c <= '\U{1F}')    // file, group, record and unit separators
    || c == ' '
    || c == '\U{85}' || c == '\U{A0}' || c == '\U{1680}'
    || ('\U{2000}' <= c <= '\U{200A}')
    || c == '\U{2028}' || c == '\U{2029}' || c == '\U{202F}' || c == '\U{205F}'
    || c == '\U{3000}'
  }

  /** The ASCII whitespace characters are spaces; letters, digits, ':' and '#' are not. */
  lemma SpaceClasses(c: char)
    ensures c == ' ' || '\t' <= c <= '\r' ==> IsSpace(c)
    ensures IsDigit(c) || 'A' <= c <= 'Z' || 'a' <= c <= 'z' || c == ':' || c == '#' ==> !IsSpace(c)
  {
  }

  predicate AllSpace(s: string) {
    forall k :: 0 <= k < |s| ==> IsSpace(s[k])
  }

  /** Where the text after position k starts: k moved past a run of whitespace. */
  function SpaceRun(s: string, k: nat): (n: nat)
    requires k <= |s|
    ensures k <= n <= |s| && AllSpace(s[k..n])
    ensures n < |s| ==> !IsSpace(s[n])
    decreases |s| - k
  {
    if k < |s| && IsSpace(s[k]) then SpaceRun(s, k + 1) else k
  }

  /** Where the text before position k ends, not going below lo: k moved back over whitespace. */
  function TextEnd(s: string, lo: nat, k: nat): (n: nat)
    requires lo <= k <= |s|
    ensures lo <= n <= k && AllSpace(s[n..k])
    ensures lo < n ==> !IsSpace(s[n - 1])
    decreases k
  {
    if lo < k && IsSpace(s[k - 1]) then
      var n := TextEnd(s, lo, k - 1);
      assert s[n..k] == s[n..k - 1] + [s[k - 1]];
      n
    else k
  }

  /** `str.strip()` with no argument: the line between its leading and trailing whitespace. */
  function Strip(s: string): (r: string)
    ensures r != [] ==> !IsSpace(r[0]) && !IsSpace(r[|r| - 1])
    ensures exists i, j :: 0 <= i <= j <= |s| && r == s[i..j] && AllSpace(s[..i]) && AllSpace(s[j..])
  {
    var i := SpaceRun(s, 0);
    var j := TextEnd(s, i, |s|);
    assert s[..i] == s[0..i] && s[j..] == s[j..|s|];
    s[i..j]
  }

  /** `str.split(" ")`: split on every single space, keeping empty fields. */
  function Split(s: string): (parts: seq<string>)
    ensures |parts| >= 1
    ensures forall i :: 0 <= i < |parts| ==> ' ' !in parts[i]
    decreases |s|
  {
    if s == [] then [""]
    else
      var rest := Split(s[1..]);
      if s[0] == ' ' then [""] + rest
      else [[s[0]] + rest[0]] + rest[1..]
  }

  /** `" ".join(parts)`, the inverse of Split. */
  function Join(parts: seq<string>): string
    requires |parts| >= 1
  {
    if |parts| == 1 then parts[0] else parts[0] + " " + Join(parts[1..])
  }

  /** Splitting loses nothing: joining the fields back with spaces gives the line. */
  lemma {:induction false} JoinSplit(s: string)
    ensures Join(Split(s)) == s
    decreases |s|
  {
    if s != [] {
      JoinSplit(s[1..]);
      var rest := Split(s[1..]);
      if s[0] == ' ' {
        assert Split(s)[1..] == rest;
      } else {
        if |rest| == 1 {
          assert Join(Split(s)) == [s[0]] + rest[0];
        } else {
          assert Split(s)[1..] == rest[1..];
          assert Join(Split(s)) == [s[0]] + rest[0] + " " + Join(rest[1..]);
        }
      }
    }
  }

  /** Splitting a line whose first field is `a` (which has no space) yields `a` first. */
  lemma {:induction false} SplitCons(a: string, b: string)
    requires ' ' !in a
    ensures Split(a + " " + b) == [a] + Split(b)
    decreases |a|
  {
    if a == [] {
      assert a + " " + b == [' '] + b;
      assert (a + " " + b)[1..] == b;
    } else {
      SplitCons(a[1..], b);
      assert (a + " " + b)[1..] == a[1..] + " " + b;
      assert [a[0]] + a[1..] == a;
    }
  }

  /** Splitting undoes joining, so fields are recovered exactly. */
  lemma {:induction false} SplitJoin(parts: seq<string>)
    requires |parts| >= 1
    requires forall i :: 0 <= i < |parts| ==> ' ' !in parts[i]
    ensures Split(Join(parts)) == parts
    decreases |parts|
  {
    if |parts| == 1 {
      SplitNoSpace(parts[0]);
    } else {
      SplitJoin(parts[1..]);
      SplitCons(parts[0], Join(parts[1..]));
    }
  }

  /** A line without a space is a single field. */
  lemma {:induction false} SplitNoSpace(s: string)
    requires ' ' !in s
    ensures Split(s) == [s]
    decreases |s|
  {
    if s != [] {
      SplitNoSpace(s[1..]);
      assert [s[0]] + s[1..] == s;
    }
  }

  /** The line has a second field exactly when it contains a space, and then it is
      the first field, one space, and the rest. */
  lemma SplitFields(s: string)
    ensures |Split(s)| > 1 <==> ' ' in s
    ensures |Split(s)| == 1 ==> Split(s)[0] == s
    ensures |Split(s)| > 1 ==> s == Split(s)[0] + " " + Join(Split(s)[1..])
  {
    JoinSplit(s);
    if |Split(s)| > 1 {
      assert s == Split(s)[0] + " " + Join(Split(s)[1..]);
      assert s[|Split(s)[0]|] == ' ';
    }
  }

  predicate IsDigit(c: char) {
    '0' <= c <= '9'
  }

  function DigitValue(c: char): (d: nat)
    requires IsDigit(c)
    ensures d < 10
  {
    c as int - '0' as int
  }

  function DigitChar(d: nat): (c: char)
    requires d < 10
    ensures IsDigit(c)
  {
    (('0' as int) + d) as char
  }

  /** Python's decimal rendering of a non-negative `int`, as an f-string does it. */
  function NatToString(n: nat): (s: string)
    ensures |s| >= 1
    ensures forall i :: 0 <= i < |s| ==> IsDigit(s[i])
    ensures |s| > 1 ==> s[0] != '0'
    decreases n
  {
    if n < 10 then [DigitChar(n)] else NatToString(n / 10) + [DigitChar(n % 10)]
  }

  /** The number a string of decimal digits denotes. */
  function DecimalValue(s: string): nat
    requires forall i :: 0 <= i < |s| ==> IsDigit(s[i])
  {
    if s == [] then 0
    else DecimalValue(s[..|s| - 1]) * 10 + DigitValue(s[|s| - 1])
  }

  /** The rendered count reads back as the same number. */
  lemma {:induction false} DecimalRoundTrip(n: nat)
    ensures DecimalValue(NatToString(n)) == n
    decreases n
  {
    if n >= 10 {
      DecimalRoundTrip(n / 10);
      var s := NatToString(n);
      assert s[..|s| - 1] == NatToString(n / 10);
    }
  }
}
