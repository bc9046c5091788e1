/** The pieces of Python's `str` that the outreach tool relies on:
    `strip`, `startswith`, `endswith`, `in`, `split`, `lower`, `join`,
    and prefix slicing with Python's index rules. */
module Text {
  import opened Wrappers

  /** The characters for which Python's `str.isspace()` holds: the ones
      that `strip()` and `split()` treat as whitespace. */
  const Whitespace: set<char> :=
    {' ', '\t', '\n', '\r', '\U{0B}', '\U{0C}', '\U{1C}', '\U{1D}', '\U{1E}', '\U{1F}',
     '\U{85}', '\U{A0}', '\U{1680}', '\U{2000}', '\U{2001}', '\U{2002}', '\U{2003}',
     '\U{2004}', '\U{2005}', '\U{2006}', '\U{2007}', '\U{2008}', '\U{2009}', '\U{200A}',
     '\U{2028}', '\U{2029}', '\U{202F}', '\U{205F}', '\U{3000}'}

  predicate IsSpace(c: char) {
    c in Whitespace
  }

  predicate AllSpace(s: string) {
    forall i :: 0 <= i < |s| ==> IsSpace(s[i])
  }

  /** A string that `strip()` leaves alone. */
  predicate Stripped(s: string) {
    s == [] || (!IsSpace(s[0]) && !IsSpace(s[|s| - 1]))
  }

  /** `s.lstrip()`: the longest suffix of `s` that does not start with whitespace. */
  function LStrip(s: string): (r: string)
    ensures |r| <= |s| && r == s[|s| - |r|..]
    ensures AllSpace(s[..|s| - |r|])
    ensures r == [] || !IsSpace(r[0])
  {
    if |s| > 0 && IsSpace(s[0]) then
      var r := LStrip(s[1..]);
      LStripStep(s, r);
      r
    else
      s
  }

  /** One leading space more in front of a string whose `lstrip` is known. */
  lemma LStripStep(s: string, r: string)
    requires |s| > 0 && IsSpace(s[0])
    requires |r| <= |s| - 1 && r == s[1..][|s| - 1 - |r|..]
    requires AllSpace(s[1..][..|s| - 1 - |r|])
    ensures r == s[|s| - |r|..]
    ensures AllSpace(s[..|s| - |r|])
  {
    var n := |s| - |r|;
    assert s[1..][n - 1..] == s[n..];
    forall i | 0 <= i < n ensures IsSpace(s[..n][i]) {
      if i > 0 {
        assert s[..n][i] == s[1..][..n - 1][i - 1];
      }
    }
  }

  /** `s.rstrip()`: the longest prefix of `s` that does not end with whitespace. */
  function RStrip(s: string): (r: string)
    ensures |r| <= |s| && r == s[..|r|]
    ensures AllSpace(s[|r|..])
    ensures r == [] || !IsSpace(r[|r| - 1])
  {
    if |s| > 0 && IsSpace(s[|s| - 1]) then
      var r := RStrip(s[..|s| - 1]);
      RStripStep(s, r);
      r
    else s
  }

  /** One trailing space more after a string whose `rstrip` is known. */
  lemma RStripStep(s: string, r: string)
    requires |s| > 0 && IsSpace(s[|s| - 1])
    requires |r| <= |s| - 1 && r == s[..|s| - 1][..|r|]
    requires AllSpace(s[..|s| - 1][|r|..])
    ensures r == s[..|r|]
    ensures AllSpace(s[|r|..])
  {
    forall i | 0 <= i < |s| - |r| ensures IsSpace(s[|r|..][i]) {
      if i < |s| - 1 - |r| {
        assert s[|r|..][i] == s[..|s| - 1][|r|..][i];
      }
    }
  }

  /** `s.strip()`: `s` without leading and trailing whitespace. */
  function Strip(s: string): (r: string)
    ensures Stripped(r)
    ensures |r| <= |s|
  {
    var l := LStrip(s);
    var r := RStrip(l);
    PrefixStripped(l, r);
    r
  }

  /** A prefix of a string that does not start with whitespace, ending in
      something other than whitespace, is stripped. */
  lemma PrefixStripped(l: string, r: string)
    requires l == [] || !IsSpace(l[0])
    requires |r| <= |l| && r == l[..|r|]
    requires r == [] || !IsSpace(r[|r| - 1])
    ensures Stripped(r)
  {
    if r != [] {
      assert r[0] == l[0];
    }
  }

  lemma {:induction false} LStripSpacesThen(w: string, p: string)
    requires AllSpace(w)
    ensures LStrip(w + p) == LStrip(p)
    decreases |w|
  {
    if w == [] {
      assert w + p == p;
    } else {
      assert (w + p)[0] == w[0] && (w + p)[1..] == w[1..] + p;
      LStripSpacesThen(w[1..], p);
    }
  }

  lemma {:induction false} RStripThenSpaces(p: string, w: string)
    requires AllSpace(w)
    ensures RStrip(p + w) == RStrip(p)
    decreases |w|
  {
    if w == [] {
      assert p + w == p;
    } else {
      assert (p + w)[|p + w| - 1] == w[|w| - 1] && (p + w)[..|p + w| - 1] == p + w[..|w| - 1];
      RStripThenSpaces(p, w[..|w| - 1]);
    }
  }

  /** Whitespace added around an already stripped string is exactly what
      `strip()` removes. */
  lemma StripPadded(w1: string, p: string, w2: string)
    requires AllSpace(w1) && AllSpace(w2) && Stripped(p)
    ensures Strip(w1 + p + w2) == p
  {
    assert w1 + p + w2 == w1 + (p + w2);
    LStripSpacesThen(w1, p + w2);
    if p == [] {
      LStripSpacesThen(w2, []);
      assert w2 + [] == w2;
    } else {
      assert LStrip(p + w2) == p + w2;
    }
    RStripThenSpaces(p, w2);
  }

  lemma StripStripped(p: string)
    requires Stripped(p)
    ensures Strip(p) == p
  {
    assert LStrip(p) == p;
    assert RStrip(p) == p;
  }

  predicate StartsWith(s: string, p: string) {
    |p| <= |s| && s[..|p|] == p
  }

  predicate EndsWith(s: string, p: string) {
    |p| <= |s| && s[|s| - |p|..] == p
  }

  /** `p` occurs in `s` at index `k`. */
  predicate OccursAt(s: string, p: string, k: int) {
    0 <= k && k + |p| <= |s| && s[k..k + |p|] == p
  }

  /** `s.find(p, i)`: the first index at or after `i` where `p` occurs. */
  function FindFrom(s: string, p: string, i: nat): (r: Option<nat>)
    ensures r.Some? ==> i <= r.value && OccursAt(s, p, r.value)
    ensures r.Some? ==> forall j :: i <= j < r.value ==> !OccursAt(s, p, j)
    ensures r.None? ==> forall j :: i <= j ==> !OccursAt(s, p, j)
    decreases |s| - i
  {
    if i + |p| > |s| then None
    else if s[i..i + |p|] == p then Some(i)
    else FindFrom(s, p, i + 1)
  }

  function Find(s: string, p: string): Option<nat> {
    FindFrom(s, p, 0)
  }

  /** Python's `p in s`. */
  predicate Contains(s: string, p: string) {
    Find(s, p).Some?
  }

  lemma ContainsIff(s: string, p: string)
    ensures Contains(s, p) <==> exists k :: OccursAt(s, p, k)
  {
  }

  /** `s.split(sep)[0]` for a non-empty separator: the text before the first `sep`. */
  function BeforeFirst(s: string, sep: string): (r: string)
    ensures StartsWith(s, r)
    ensures Contains(s, sep) ==> OccursAt(s, sep, |r|)
    ensures !Contains(s, sep) ==> r == s
  {
    match Find(s, sep)
    case Some(k) => s[..k]
    case None => s
  }

  /** `s.split(sep)[1]` when `sep` occurs in `s`: the text between the first
      and the second occurrence of `sep` (or to the end of `s`). */
  function SecondPiece(s: string, sep: string): (r: string)
    requires Contains(s, sep)
  {
    var k := Find(s, sep).value;
    BeforeFirst(s[k + |sep|..], sep)
  }

  /** `s[:k]` for any integer `k`, with Python's rules for negative and
      too-large bounds. */
  function PyPrefix(s: string, k: int): (r: string)
    ensures StartsWith(s, r)
    ensures 0 <= k ==> |r| == if k <= |s| then k else |s|
    ensures k < 0 ==> |r| == if -k <= |s| then |s| + k else 0
  {
    if k >= 0 then (if k <= |s| then s[..k] else s)
    else (if -k <= |s| then s[..|s| + k] else [])
  }

  /** `str.lower()` on ASCII letters. */
  function LowerChar(c: char): char {
    if 'A' <= c <= 'Z' then (c as int + 32) as char else c
  }

  function Lower(s: string): (r: string)
    ensures |r| == |s|
    ensures forall i :: 0 <= i < |s| ==> r[i] == LowerChar(s[i])
  {
    seq(|s|, i requires 0 <= i < |s| => LowerChar(s[i]))
  }

  /** The prefix of `s` up to its first whitespace character. */
  function TakeWord(s: string): (r: string)
    ensures StartsWith(s, r)
    ensures forall i :: 0 <= i < |r| ==> !IsSpace(r[i])
    ensures |r| < |s| ==> IsSpace(s[|r|])
  {
    if s == [] || IsSpace(s[0]) then []
    else
      var w := TakeWord(s[1..]);
      assert s[1..][..|w|] == s[1..1 + |w|];
      [s[0]] + w
  }

  /** `s.split()[0]`: the first whitespace-separated word, or `None` where
      Python raises IndexError because `s` holds no word. */
  function FirstWord(s: string): (r: Option<string>)
    ensures r.None? <==> AllSpace(s)
    ensures r.Some? ==> r.value != [] && forall i :: 0 <= i < |r.value| ==> !IsSpace(r.value[i])
  {
    var t := LStrip(s);
    if t == [] then None else Some(TakeWord(t))
  }

  /** `sep.join(parts)`. */
  function Join(sep: string, parts: seq<string>): (r: string)
    ensures |parts| == 0 ==> r == []
    ensures |parts| == 1 ==> r == parts[0]
    ensures |parts| > 0 ==> StartsWith(r, parts[0])
  {
    if |parts| == 0 then []
    else if |parts| == 1 then parts[0]
    else parts[0] + sep + Join(sep, parts[1..])
  }

  function DigitsOf(n: nat): (r: string)
    ensures |r| > 0
    ensures forall i :: 0 <= i < |r| ==> '0' <= r[i] <= '9'
  {
    if n < 10 then [(n + 48) as char] else DigitsOf(n / 10) + [(n % 10 + 48) as char]
  }

  /** `str(n)` for an integer. */
  function IntToString(n: int): string {
    if n < 0 then "-" + DigitsOf(-n) else DigitsOf(n)
  }
}
