/** String helpers shared by the weather-file reader, the JSON helpers and the
    database generator: character classes, prefix tests, splitting on a separator,
    maximal letter and digit runs (the two regular expressions of the reader),
    whitespace trimming and lower-casing. Letters and digits are ASCII-classified. */
module Text {

  predicate IsLetter(c: char) {
    ('a' <= c <= 'z') || ('A' <= c <= 'Z')
  }

  predicate IsDigit(c: char) {
    '0' <= c <= '9'
  }

  /** The characters Python's `str.strip()` removes: the white space of
      `str.isspace`, which includes the ASCII separators 0x1C-0x1F and the
      Unicode spaces. */
  predicate IsSpace(c: char) {
    var n := c as int;
    || c == ' ' || c == '\t' || c == '\n' || c == '\r' || n == 11 || n == 12
    || (0x1C <= n <= 0x1F) || n == 0x85 || n == 0xA0 || n == 0x1680
    || (0x2000 <= n <= 0x200A) || n == 0x2028 || n == 0x2029 || n == 0x202F || n == 0x205F || n == 0x3000
  }

  predicate StartsWith(s: string, prefix: string) {
    |prefix| <= |s| && s[..|prefix|] == prefix
  }

  predicate AllLetters(s: string) {
    forall i :: 0 <= i < |s| ==> IsLetter(s[i])
  }

  predicate AllDigits(s: string) {
    forall i :: 0 <= i < |s| ==> IsDigit(s[i])
  }

  predicate NoDigits(s: string) {
    forall i :: 0 <= i < |s| ==> !IsDigit(s[i])
  }

  predicate AllSpaces(s: string) {
    forall i :: 0 <= i < |s| ==> IsSpace(s[i])
  }

  /** Concatenation is associative; stated once so that proofs about
      recursive functions on sequences need not rediscover it. */
  lemma AppendAssociative<T>(x: seq<T>, y: seq<T>, z: seq<T>)
    ensures x + (y + z) == (x + y) + z
  {
  }

  // ---------------------------------------------------------------------------
  // Splitting on a separator character (Python's `str.split(sep)`)
  // ---------------------------------------------------------------------------

  /** Position of the first occurrence of `c` in `s`. */
  function IndexOf(s: string, c: char): (k: nat)
    requires c in s
    ensures k < |s| && s[k] == c
    ensures forall i :: 0 <= i < k ==> s[i] != c
  {
    if s[0] == c then 0 else IndexOf(s[1..], c) + 1
  }

  /** The pieces of `s` between occurrences of `sep`; there is always at least one. */
  function Split(s: string, sep: char): (parts: seq<string>)
    ensures |parts| >= 1
    ensures forall i :: 0 <= i < |parts| ==> sep !in parts[i]
    decreases |s|
  {
    if sep !in s then [s]
    else
      var k := IndexOf(s, sep);
      assert forall i :: 0 <= i < k ==> s[..k][i] == s[i];
      [s[..k]] + Split(s[k + 1..], sep)
  }

  /** Python's `sep.join(parts)`. */
  function Join(parts: seq<string>, sep: char): string
    requires |parts| >= 1
  {
    if |parts| == 1 then parts[0] else parts[0] + [sep] + Join(parts[1..], sep)
  }

  /** Joining the pieces of a split gives back the original string. */
  lemma {:induction false} JoinSplit(s: string, sep: char)
    ensures Join(Split(s, sep), sep) == s
    decreases |s|
  {
    if sep in s {
      var k := IndexOf(s, sep);
      var tail := s[k + 1..];
      JoinSplit(tail, sep);
      var parts := Split(tail, sep);
      assert Split(s, sep) == [s[..k]] + parts;
      assert Join([s[..k]] + parts, sep) == s[..k] + [sep] + Join(parts, sep);
      assert s == s[..k] + [sep] + tail;
    }
  }

  /** Splitting a join of separator-free pieces gives back the pieces. */
  lemma {:induction false} SplitJoin(parts: seq<string>, sep: char)
    requires |parts| >= 1
    requires forall i :: 0 <= i < |parts| ==> sep !in parts[i]
    ensures Split(Join(parts, sep), sep) == parts
  {
    if |parts| > 1 {
      var rest := Join(parts[1..], sep);
      var s := parts[0] + [sep] + rest;
      assert s[|parts[0]|] == sep;
      assert s[..|parts[0]|] == parts[0];
      assert forall i :: 0 <= i < |parts[0]| ==> s[i] == parts[0][i];
      var k := IndexOf(s, sep);
      assert k == |parts[0]|;
      assert s[k + 1..] == rest;
      SplitJoin(parts[1..], sep);
      assert Split(s, sep) == [parts[0]] + parts[1..];
    }
  }

  /** A prefix length characterised by "all of the first `n` characters satisfy `P`
      and the next one does not" is unique. */
  lemma PrefixLength(s: string, u: string, v: string, n: nat, P: char -> bool)
    requires s == u + v
    requires n <= |s|
    requires forall i :: 0 <= i < n ==> P(s[i])
    requires n < |s| ==> !P(s[n])
    requires forall i :: 0 <= i < |u| ==> P(u[i])
    requires |v| == 0 || !P(v[0])
    ensures n == |u|
  {
    assert forall i :: 0 <= i < |u| ==> s[i] == u[i];
    assert |v| > 0 ==> s[|u|] == v[0];
  }

  // ---------------------------------------------------------------------------
  // Maximal runs of letters (the reader's `[a-zA-Z]+` with `findall`)
  // ---------------------------------------------------------------------------

  /** Length of the longest all-letter prefix. */
  function LetterPrefix(s: string): (n: nat)
    ensures n <= |s|
    ensures forall i :: 0 <= i < n ==> IsLetter(s[i])
    ensures n < |s| ==> !IsLetter(s[n])
  {
    if |s| == 0 || !IsLetter(s[0]) then 0 else 1 + LetterPrefix(s[1..])
  }

  /** Length of the longest prefix without letters. */
  function NonLetterPrefix(s: string): (n: nat)
    ensures n <= |s|
    ensures forall i :: 0 <= i < n ==> !IsLetter(s[i])
    ensures n < |s| ==> IsLetter(s[n])
  {
    if |s| == 0 || IsLetter(s[0]) then 0 else 1 + NonLetterPrefix(s[1..])
  }

  /** The maximal runs of ASCII letters of `s`, left to right. */
  function LetterRuns(s: string): (runs: seq<string>)
    ensures forall i :: 0 <= i < |runs| ==> |runs[i]| > 0 && AllLetters(runs[i])
    decreases |s|
  {
    var skip := NonLetterPrefix(s);
    if skip == |s| then []
    else
      var rest := s[skip..];
      var n := LetterPrefix(rest);
      [rest[..n]] + LetterRuns(rest[n..])
  }

  /** A leading non-letter contributes nothing. */
  lemma LetterRunsSkip(c: char, b: string)
    requires !IsLetter(c)
    ensures LetterRuns([c] + b) == LetterRuns(b)
  {
    var s := [c] + b;
    assert s[1..] == b;
    var skip := NonLetterPrefix(s);
    var skipB := NonLetterPrefix(b);
    assert skip == 1 + skipB;
    if skipB < |b| {
      assert s[skip..] == b[skipB..];
    }
  }

  /** A maximal leading word is the first run. */
  lemma LetterRunsWord(w: string, b: string)
    requires |w| > 0 && AllLetters(w)
    requires |b| == 0 || !IsLetter(b[0])
    ensures LetterRuns(w + b) == [w] + LetterRuns(b)
  {
    var s := w + b;
    assert IsLetter(s[0]);
    assert NonLetterPrefix(s) == 0;
    assert s[0..] == s;
    var n := LetterPrefix(s);
    PrefixLength(s, w, b, n, IsLetter);
    assert s[..n] == w;
    assert s[n..] == b;
  }

  /** A word on its own is its only run. */
  lemma LetterRunsSingle(a: string)
    requires |a| > 0 && AllLetters(a)
    ensures LetterRuns(a) == [a]
  {
    assert a + [] == a;
    LetterRunsWord(a, []);
    assert LetterRuns([]) == [];
  }

  /** A word followed by a separator: the word is one run, and the separator
      is skipped. */
  lemma LetterRunsOneWord(a: string, c: char, b: string)
    requires |a| > 0 && AllLetters(a) && !IsLetter(c)
    ensures LetterRuns(a + [c] + b) == LetterRuns(a) + LetterRuns(b)
  {
    LetterRunsWord(a, [c] + b);
    LetterRunsSkip(c, b);
    LetterRunsSingle(a);
    assert a + [c] + b == a + ([c] + b);
  }

  /** The step of `LetterRunsSeparator` for a leading non-letter. */
  lemma LetterRunsSeparatorSkip(a: string, c: char, b: string)
    requires |a| > 0 && !IsLetter(a[0]) && !IsLetter(c)
    requires LetterRuns(a[1..] + [c] + b) == LetterRuns(a[1..]) + LetterRuns(b)
    ensures LetterRuns(a + [c] + b) == LetterRuns(a) + LetterRuns(b)
  {
    var a' := a[1..];
    assert a + [c] + b == [a[0]] + (a' + [c] + b);
    assert a == [a[0]] + a';
    LetterRunsSkip(a[0], a' + [c] + b);
    LetterRunsSkip(a[0], a');
  }

  /** Cutting `a` at `n` and regrouping `a + [c] + b` around the cut. */
  lemma CutAround(a: string, n: nat, c: char, b: string)
    requires n < |a|
    ensures a == a[..n] + a[n..]
    ensures a + [c] + b == a[..n] + (a[n..] + [c] + b)
    ensures (a[n..] + [c] + b)[0] == a[n]
  {
  }

  /** The step of `LetterRunsSeparator` for a leading word followed by more text. */
  lemma LetterRunsSeparatorWord(a: string, n: nat, c: char, b: string)
    requires 0 < n < |a| && !IsLetter(c)
    requires forall i :: 0 <= i < n ==> IsLetter(a[i])
    requires !IsLetter(a[n])
    requires LetterRuns(a[n..] + [c] + b) == LetterRuns(a[n..]) + LetterRuns(b)
    ensures LetterRuns(a + [c] + b) == LetterRuns(a) + LetterRuns(b)
  {
    var w, tail := a[..n], a[n..];
    var t := tail + [c] + b;
    assert LetterRuns(a + [c] + b) == [w] + LetterRuns(t) by {
      CutAround(a, n, c, b);
      LetterRunsWord(w, t);
    }
    assert LetterRuns(a) == [w] + LetterRuns(tail) by {
      CutAround(a, n, c, b);
      LetterRunsWord(w, tail);
    }
    AppendAssociative([w], LetterRuns(tail), LetterRuns(b));
  }

  /** A non-letter separates runs: the runs of `a + [c] + b` are those of `a`
      followed by those of `b`. With `LetterRunsWord` and `LetterRuns("") == []`
      this determines the runs of every string. */
  lemma {:induction false} LetterRunsSeparator(a: string, c: char, b: string)
    requires !IsLetter(c)
    ensures LetterRuns(a + [c] + b) == LetterRuns(a) + LetterRuns(b)
    decreases |a|
  {
    if |a| == 0 {
      assert a + [c] + b == [c] + b;
      LetterRunsSkip(c, b);
      assert LetterRuns(a) == [];
    } else if !IsLetter(a[0]) {
      LetterRunsSeparator(a[1..], c, b);
      LetterRunsSeparatorSkip(a, c, b);
    } else {
      var n := LetterPrefix(a);
      if n == |a| {
        assert a[..n] == a;
        LetterRunsOneWord(a, c, b);
      } else {
        LetterRunsSeparator(a[n..], c, b);
        LetterRunsSeparatorWord(a, n, c, b);
      }
    }
  }

  // ---------------------------------------------------------------------------
  // The first maximal run of digits (the reader's `int(re.findall(r"\d+", x)[0])`)
  // ---------------------------------------------------------------------------

  function DigitPrefix(s: string): (n: nat)
    ensures n <= |s|
    ensures forall i :: 0 <= i < n ==> IsDigit(s[i])
    ensures n < |s| ==> !IsDigit(s[n])
  {
    if |s| == 0 || !IsDigit(s[0]) then 0 else 1 + DigitPrefix(s[1..])
  }

  function NonDigitPrefix(s: string): (n: nat)
    ensures n <= |s|
    ensures forall i :: 0 <= i < n ==> !IsDigit(s[i])
    ensures n < |s| ==> IsDigit(s[n])
  {
    if |s| == 0 || IsDigit(s[0]) then 0 else 1 + NonDigitPrefix(s[1..])
  }

  /** The decimal value of a digit string (`int("0450") == 450`). */
  function DigitsValue(d: string): nat
    requires AllDigits(d)
  {
    if |d| == 0 then 0
    else DigitsValue(d[..|d| - 1]) * 10 + ((d[|d| - 1] as int) - ('0' as int))
  }

  /** The decimal rendering of a natural number, as `str(n)` gives it. */
  function NatDigits(n: nat): (d: string)
    ensures |d| > 0 && AllDigits(d)
    ensures DigitsValue(d) == n
  {
    var last := ((n % 10) + ('0' as int)) as char;
    if n < 10 then
      assert [last][..0] == [];
      [last]
    else
      var front := NatDigits(n / 10);
      assert (front + [last])[..|front|] == front;
      front + [last]
  }

  /** The value of the first maximal digit run of `s`, or `None` when `s` has no
      digit (where the source's `findall(...)[0]` raises). */
  function FirstDigitRun(s: string): (r: Option<nat>)
    ensures r.None? <==> NoDigits(s)
  {
    var k := NonDigitPrefix(s);
    if k == |s| then None
    else
      var rest := s[k..];
      var n := DigitPrefix(rest);
      Some(DigitsValue(rest[..n]))
  }

  /** The first digit run is the one that follows a digit-free prefix, whatever comes
      after a non-digit. */
  lemma FirstDigitRunOf(p: string, d: string, q: string)
    requires NoDigits(p)
    requires |d| > 0 && AllDigits(d)
    requires |q| == 0 || !IsDigit(q[0])
    ensures FirstDigitRun(p + d + q) == Some(DigitsValue(d))
  {
    var s := p + d + q;
    AppendAssociative(p, d, q);
    var k := NonDigitPrefix(s);
    PrefixLength(s, p, d + q, k, c => !IsDigit(c));
    var rest := s[k..];
    assert rest == d + q;
    var n := DigitPrefix(rest);
    PrefixLength(rest, d, q, n, IsDigit);
    assert rest[..n] == d;
  }

  // ---------------------------------------------------------------------------
  // Trimming (Python's `str.strip()`) and lower-casing (`str.lower()`)
  // ---------------------------------------------------------------------------

  function LeadingSpaces(s: string): (i: nat)
    ensures i <= |s|
    ensures forall k :: 0 <= k < i ==> IsSpace(s[k])
    ensures i < |s| ==> !IsSpace(s[i])
  {
    if |s| == 0 || !IsSpace(s[0]) then 0 else LeadingSpaces(s[1..]) + 1
  }

  function TrailingStart(s: string): (j: nat)
    ensures j <= |s|
    ensures forall k :: j <= k < |s| ==> IsSpace(s[k])
    ensures j > 0 ==> !IsSpace(s[j - 1])
  {
    if |s| == 0 || !IsSpace(s[|s| - 1]) then |s| else TrailingStart(s[..|s| - 1])
  }

  function Trim(s: string): (r: string)
    ensures |r| <= |s|
  {
    var i := LeadingSpaces(s);
    var j := TrailingStart(s[i..]);
    s[i..][..j]
  }

  /** Stripping surrounding whitespace from a string whose ends are not whitespace
      gives that string back. */
  lemma TrimOf(pre: string, core: string, post: string)
    requires AllSpaces(pre) && AllSpaces(post)
    requires |core| > 0 ==> !IsSpace(core[0]) && !IsSpace(core[|core| - 1])
    ensures Trim(pre + core + post) == core
  {
    var s := pre + core + post;
    var i := LeadingSpaces(s);
    if |core| > 0 {
      PrefixLength(s, pre, core + post, i, IsSpace);
      var t := s[i..];
      assert t == core + post;
      var j := TrailingStart(t);
      assert forall k :: 0 <= k < |post| ==> t[|core| + k] == post[k];
      assert t[|core| - 1] == core[|core| - 1];
      assert j == |core|;
      assert t[..j] == core;
    } else {
      assert s == pre + post;
      assert forall k :: 0 <= k < |s| ==> IsSpace(s[k]);
      assert i == |s|;
    }
  }

  function LowerChar(c: char): (r: char)
    ensures !('A' <= r <= 'Z')
  {
    if 'A' <= c <= 'Z' then ((c as int) + 32) as char else c
  }

  function Lower(s: string): (r: string)
    ensures |r| == |s|
    ensures forall i :: 0 <= i < |s| ==> r[i] == LowerChar(s[i])
  {
    seq(|s|, i requires 0 <= i < |s| => LowerChar(s[i]))
  }

  /** Lower-casing twice is lower-casing once. */
  lemma LowerIdempotent(s: string)
    ensures Lower(Lower(s)) == Lower(s)
  {
  }

  import opened Wrappers
}
