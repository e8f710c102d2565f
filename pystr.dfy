/** The small part of Python's `str` behaviour that the text analyzer relies on:
    whitespace, lower-casing, `split()`, `split('.')`, `'.'.join`, `strip()`,
    the substring test `w in t` and the slice `t[:n]`. */
module PyStr {

  /** `c.isspace()` for the characters Python's `split()` and `strip()` treat as
      whitespace: ASCII \t \n \v \f \r and space, the separators U+001C..U+001F,
      U+0085, U+00A0, U+1680, U+2000..U+200A, U+2028, U+2029, U+202F, U+205F, U+3000. */
  predicate IsSpace(c: char) {
    var n := c as int;
    n == 0x20 || 0x09 <= n <= 0x0D || 0x1C <= n <= 0x1F || n == 0x85 || n == 0xA0
    || n == 0x1680 || 0x2000 <= n <= 0x200A || n == 0x2028 || n == 0x2029
    || n == 0x202F || n == 0x205F || n == 0x3000
  }

  predicate NoSpace(s: string) {
    forall i :: 0 <= i < |s| ==> !IsSpace(s[i])
  }

  predicate AllSpace(s: string) {
    forall i :: 0 <= i < |s| ==> IsSpace(s[i])
  }

  function Min(a: int, b: int): int { if a <= b then a else b }

  // ---------------------------------------------------------------------------
  // lower()

  function LowerChar(c: char): (d: char)
    ensures 'A' <= c <= 'Z' ==> d as int == c as int + 32
    ensures !('A' <= c <= 'Z') ==> d == c
  {
    if 'A' <= c <= 'Z' then (c as int + 32) as char else c
  }

  /** `s.lower()`, restricted to the ASCII letters. */
  function Lower(s: string): (r: string)
    ensures |r| == |s|
    ensures forall i :: 0 <= i < |s| ==> r[i] == LowerChar(s[i])
  {
    seq(|s|, i requires 0 <= i < |s| => LowerChar(s[i]))
  }

  // ---------------------------------------------------------------------------
  // Slicing `s[:n]`

  /** `s[:n]` for a non-negative `n`: the first `n` characters, or all of `s`. */
  function Take<T>(s: seq<T>, n: nat): (r: seq<T>)
    ensures |r| == Min(|s|, n)
    ensures r <= s
  {
    if |s| <= n then s else s[..n]
  }

  // ---------------------------------------------------------------------------
  // Substring test `w in t`

  /** `w` occurs in `t` starting at position `i`. */
  predicate OccursAt(w: string, t: string, i: int) {
    0 <= i <= |t| - |w| && t[i..i + |w|] == w
  }

  /** `w in t` on Python strings: `w` occurs somewhere in `t` as a contiguous run. */
  predicate IsSubstring(w: string, t: string)
    decreases |t|
  {
    w <= t || (t != [] && IsSubstring(w, t[1..]))
  }

  /** The recursive test agrees with "there is a position where `w` starts in `t`". */
  lemma {:induction false} IsSubstringAt(w: string, t: string)
    ensures IsSubstring(w, t) <==> exists i :: OccursAt(w, t, i)
    decreases |t|
  {
    if w <= t {
      assert OccursAt(w, t, 0);
    } else if t == [] {
    } else {
      IsSubstringAt(w, t[1..]);
      if IsSubstring(w, t[1..]) {
        var i :| OccursAt(w, t[1..], i);
        assert t[i + 1..i + 1 + |w|] == t[1..][i..i + |w|];
        assert OccursAt(w, t, i + 1);
      }
      if exists i :: OccursAt(w, t, i) {
        var i :| OccursAt(w, t, i);
        if i > 0 {
          assert t[1..][i - 1..i - 1 + |w|] == w;
          assert OccursAt(w, t[1..], i - 1);
        }
      }
    }
  }

  // ---------------------------------------------------------------------------
  // Whitespace split `s.split()`

  /** Length of the run of non-whitespace characters at the start of `s`. */
  function WordLength(s: string): (n: nat)
    ensures n <= |s|
    ensures forall i :: 0 <= i < n ==> !IsSpace(s[i])
    ensures n < |s| ==> IsSpace(s[n])
  {
    if s == [] || IsSpace(s[0]) then 0 else 1 + WordLength(s[1..])
  }

  /** `s.split()`: the maximal runs of non-whitespace characters, in order. */
  function Words(s: string): (r: seq<string>)
    ensures forall i :: 0 <= i < |r| ==> r[i] != [] && NoSpace(r[i])
    decreases |s|
  {
    if s == [] then []
    else if IsSpace(s[0]) then Words(s[1..])
    else
      var n := WordLength(s);
      [s[..n]] + Words(s[n..])
  }

  function Concat(parts: seq<string>): string {
    if parts == [] then [] else parts[0] + Concat(parts[1..])
  }

  /** The non-whitespace characters of `s`, in order. */
  function DropSpace(s: string): (r: string)
    ensures NoSpace(r)
  {
    if s == [] then [] else (if IsSpace(s[0]) then [] else [s[0]]) + DropSpace(s[1..])
  }

  lemma {:induction false} DropSpaceAppend(a: string, b: string)
    ensures DropSpace(a + b) == DropSpace(a) + DropSpace(b)
    decreases |a|
  {
    if a == [] {
      assert a + b == b;
    } else {
      assert (a + b)[1..] == a[1..] + b;
      DropSpaceAppend(a[1..], b);
    }
  }

  lemma {:induction false} DropSpaceOfWord(s: string)
    requires NoSpace(s)
    ensures DropSpace(s) == s
    decreases |s|
  {
    if s != [] {
      DropSpaceOfWord(s[1..]);
    }
  }

  /** `split()` loses exactly the whitespace: gluing the words back together
      gives the non-whitespace characters of the input. */
  lemma {:induction false} WordsKeepAllText(s: string)
    ensures Concat(Words(s)) == DropSpace(s)
    decreases |s|
  {
    if s == [] {
    } else if IsSpace(s[0]) {
      WordsKeepAllText(s[1..]);
    } else {
      var n := WordLength(s);
      assert s == s[..n] + s[n..];
      WordsKeepAllText(s[n..]);
      DropSpaceOfWord(s[..n]);
      DropSpaceAppend(s[..n], s[n..]);
      assert Words(s)[1..] == Words(s[n..]);
    }
  }

  /** A word ends where whitespace begins. */
  lemma {:induction false} WordLengthBeforeSpace(x: string, z: string)
    requires z != [] && IsSpace(z[0])
    ensures WordLength(x + z) == WordLength(x)
    decreases |x|
  {
    if x == [] {
      assert x + z == z;
    } else if !IsSpace(x[0]) {
      assert (x + z)[1..] == x[1..] + z;
      WordLengthBeforeSpace(x[1..], z);
    }
  }

  /** `split()` cuts at every whitespace character: splitting around one gives
      the words before it followed by the words after it. */
  lemma {:induction false} WordsSplitAtSpace(x: string, c: char, y: string)
    requires IsSpace(c)
    ensures Words(x + [c] + y) == Words(x) + Words(y)
    decreases |x|
  {
    var s := x + [c] + y;
    if x == [] {
      assert s[1..] == y;
    } else if IsSpace(x[0]) {
      assert s[1..] == x[1..] + [c] + y;
      WordsSplitAtSpace(x[1..], c, y);
    } else {
      WordLengthBeforeSpace(x, [c] + y);
      assert s == x + ([c] + y);
      var n := WordLength(x);
      assert s[..n] == x[..n];
      assert s[n..] == x[n..] + [c] + y;
      WordsSplitAtSpace(x[n..], c, y);
    }
  }

  /** `split()` cuts nowhere else: a run without whitespace is one word. */
  lemma WordsOfWord(w: string)
    requires w != [] && NoSpace(w)
    ensures Words(w) == [w]
  {
    assert WordLength(w) == |w|;
    assert w[..|w|] == w;
    assert w[|w|..] == [];
  }

  // ---------------------------------------------------------------------------
  // Split on one character `s.split(d)` and `d.join(parts)`

  function CountOf(s: string, c: char): (k: nat)
    ensures k <= |s|
    ensures k == 0 <==> c !in s
  {
    if s == [] then 0 else (if s[0] == c then 1 else 0) + CountOf(s[1..], c)
  }

  lemma {:induction false} CountOfAppend(a: string, b: string, c: char)
    ensures CountOf(a + b, c) == CountOf(a, c) + CountOf(b, c)
    decreases |a|
  {
    if a == [] {
      assert a + b == b;
    } else {
      assert (a + b)[1..] == a[1..] + b;
      CountOfAppend(a[1..], b, c);
    }
  }

  /** Index of the first `c` in `s`. */
  function IndexOf(s: string, c: char): (k: nat)
    requires c in s
    ensures k < |s| && s[k] == c && c !in s[..k]
  {
    if s[0] == c then 0 else 1 + IndexOf(s[1..], c)
  }

  /** `s.split(d)`: the pieces between occurrences of `d`, empty pieces included. */
  function SplitOn(s: string, d: char): (r: seq<string>)
    ensures forall i :: 0 <= i < |r| ==> d !in r[i]
    decreases |s|
  {
    if d !in s then [s]
    else
      var k := IndexOf(s, d);
      [s[..k]] + SplitOn(s[k + 1..], d)
  }

  /** `sep.join(parts)`. */
  function Join(parts: seq<string>, sep: string): string {
    if parts == [] then []
    else if |parts| == 1 then parts[0]
    else parts[0] + sep + Join(parts[1..], sep)
  }

  /** `split(d)` yields one piece more than there are `d`s. */
  lemma {:induction false} SplitOnCount(s: string, d: char)
    ensures |SplitOn(s, d)| == CountOf(s, d) + 1
    decreases |s|
  {
    if d in s {
      var k := IndexOf(s, d);
      assert s == s[..k] + [d] + s[k + 1..];
      CountOfAppend(s[..k] + [d], s[k + 1..], d);
      CountOfAppend(s[..k], [d], d);
      SplitOnCount(s[k + 1..], d);
    }
  }

  /** `d.join(s.split(d)) == s`. */
  lemma {:induction false} JoinSplitOn(s: string, d: char)
    ensures Join(SplitOn(s, d), [d]) == s
    decreases |s|
  {
    if d in s {
      var k := IndexOf(s, d);
      JoinSplitOn(s[k + 1..], d);
      assert s == s[..k] + [d] + s[k + 1..];
    }
  }

  // ---------------------------------------------------------------------------
  // strip()

  /** Number of whitespace characters at the start of `s`. */
  function LeadingSpace(s: string): (n: nat)
    ensures n <= |s| && AllSpace(s[..n])
    ensures n < |s| ==> !IsSpace(s[n])
  {
    if s != [] && IsSpace(s[0]) then
      var n := 1 + LeadingSpace(s[1..]);
      assert forall k :: 1 <= k < n ==> s[k] == s[1..][k - 1];
      n
    else 0
  }

  /** Number of whitespace characters at the end of `s`. */
  function TrailingSpace(s: string): (n: nat)
    ensures n <= |s| && AllSpace(s[|s| - n..])
    ensures n < |s| ==> !IsSpace(s[|s| - n - 1])
  {
    if s != [] && IsSpace(s[|s| - 1]) then
      var n := 1 + TrailingSpace(s[..|s| - 1]);
      assert forall k :: |s| - n <= k < |s| - 1 ==> s[k] == s[..|s| - 1][k];
      n
    else 0
  }

  /** `r` is `s` with the whitespace-only prefix `s[..i]` and a whitespace-only suffix removed. */
  predicate StrippedAt(s: string, r: string, i: int) {
    0 <= i <= |s| - |r| && s[i..i + |r|] == r && AllSpace(s[..i]) && AllSpace(s[i + |r|..])
  }

  /** `s.strip()`: `s` without its leading and trailing whitespace. */
  function Strip(s: string): (r: string)
    ensures r == [] || (!IsSpace(r[0]) && !IsSpace(r[|r| - 1]))
    ensures exists i :: StrippedAt(s, r, i)
  {
    var i := LeadingSpace(s);
    var t := s[i..];
    var j := TrailingSpace(t);
    var r := t[..|t| - j];
    assert StrippedAt(s, r, i) by {
      assert s[i + |r|..] == t[|t| - j..];
    }
    r
  }

  /** `not s.strip()` holds exactly for strings made only of whitespace. */
  lemma StripEmptyIffBlank(s: string)
    ensures Strip(s) == [] <==> AllSpace(s)
  {
    var i := LeadingSpace(s);
    var t := s[i..];
    var j := TrailingSpace(t);
    if AllSpace(s) {
      assert i == |s|;
    }
    if Strip(s) == [] {
      assert j == |t|;
      assert t == [];
      forall k | 0 <= k < |s| ensures IsSpace(s[k]) {
        assert s[..i][k] == s[k];
      }
    }
  }
}
