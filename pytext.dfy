/** The Python `str` operations the core uses, on `seq<char>`: `isspace`,
    `strip`, `lower` (ASCII letters), `split()`, `split(sep)`, `replace`,
    `startswith`, the `in` test, `join` and `str(int)`. */
module PyText {

  import opened Seqs

  /** `c.isspace()`: the characters that `str.split()` and `str.strip()` treat as blanks. */
  predicate IsSpace(c: char) {
    || c == ' ' || ('\t' <= c <= '\r') || ('\U{1C}' <= c <= '\U{1F}')
    || c == '\U{85}' || c == '\U{A0}' || c == '\U{1680}'
    || ('\U{2000}' <= c <= '\U{200A}') || c == '\U{2028}' || c == '\U{2029}'
    || c == '\U{202F}' || c == '\U{205F}' || c == '\U{3000}'
  }

  // ---------------------------------------------------------------- strip

  function LeadingSpaces(s: string): (n: nat)
    ensures n <= |s|
    ensures forall i :: 0 <= i < n ==> IsSpace(s[i])
    ensures n < |s| ==> !IsSpace(s[n])
    decreases |s|
  {
    if s == [] || !IsSpace(s[0]) then 0 else 1 + LeadingSpaces(s[1..])
  }

  function TrailingSpaces(s: string): (n: nat)
    ensures n <= |s|
    ensures forall i :: |s| - n <= i < |s| ==> IsSpace(s[i])
    ensures n < |s| ==> !IsSpace(s[|s| - n - 1])
    decreases |s|
  {
    if s == [] || !IsSpace(s[|s| - 1]) then 0 else 1 + TrailingSpaces(s[..|s| - 1])
  }

  /** `s.lstrip()` */
  function LStrip(s: string): (r: string)
    ensures r == s[LeadingSpaces(s)..]
  {
    s[LeadingSpaces(s)..]
  }

  /** `s.rstrip()` */
  function RStrip(s: string): (r: string)
    ensures r == s[..|s| - TrailingSpaces(s)]
  {
    s[..|s| - TrailingSpaces(s)]
  }

  /** `s.strip()`: the slice of `s` left once the blanks at both ends are removed. */
  function Strip(s: string): (r: string)
    ensures |r| <= |s|
    ensures r == [] || (!IsSpace(r[0]) && !IsSpace(r[|r| - 1]))
  {
    RStrip(LStrip(s))
  }

  /** The strip of `s` is a slice of `s` with only blanks outside it. */
  lemma StripSlice(s: string) returns (i: nat, j: nat)
    ensures 0 <= i <= j <= |s| && Strip(s) == s[i..j]
    ensures forall k :: 0 <= k < i ==> IsSpace(s[k])
    ensures forall k :: j <= k < |s| ==> IsSpace(s[k])
  {
    var t := LStrip(s);
    i := LeadingSpaces(s);
    j := i + |t| - TrailingSpaces(t);
    assert RStrip(t) == s[i..j];
  }

  function Trimmed(s: string): bool {
    s == [] || (!IsSpace(s[0]) && !IsSpace(s[|s| - 1]))
  }

  /** A string with no blank at either end is its own strip. */
  lemma StripTrimmed(s: string)
    requires Trimmed(s)
    ensures Strip(s) == s
  {
    if s != [] {
      assert LeadingSpaces(s) == 0;
      assert TrailingSpaces(s) == 0;
    }
  }

  /** Stripping is idempotent. */
  lemma StripIdempotent(s: string)
    ensures Strip(Strip(s)) == Strip(s)
  {
    StripTrimmed(Strip(s));
  }

  /** Stripping only ever removes blanks at the ends: a prefix without blanks at
      its front and a suffix without blanks at its back survive. */
  lemma {:induction false} StripConcat(a: string, m: string, b: string)
    requires a != [] && !IsSpace(a[0])
    requires b != [] && !IsSpace(b[|b| - 1])
    ensures Strip(a + m + b) == a + m + b
  {
    var s := a + m + b;
    assert s[0] == a[0];
    assert s[|s| - 1] == b[|b| - 1];
    StripTrimmed(s);
  }

  // ---------------------------------------------------------------- lower

  /** `c.lower()` for ASCII letters; every other character is its own lower case. */
  function LowerChar(c: char): char {
    if 'A' <= c <= 'Z' then (c as int + 32) as char else c
  }

  /** Every character is in the ASCII range, where `LowerChar` is Python's own case mapping. */
  predicate IsAscii(s: string) {
    forall k :: 0 <= k < |s| ==> s[k] <= '\U{7F}'
  }

  /** `s.lower()`, character by character. */
  function Lower(s: string): (r: string)
    ensures |r| == |s|
    ensures forall i :: 0 <= i < |s| ==> r[i] == LowerChar(s[i])
  {
    seq(|s|, i requires 0 <= i < |s| => LowerChar(s[i]))
  }

  lemma LowerKeepsSpaces(c: char)
    ensures IsSpace(LowerChar(c)) <==> IsSpace(c)
  {
  }

  lemma LowerSlice(s: string, i: int, j: int)
    requires 0 <= i <= j <= |s|
    ensures Lower(s)[i..j] == Lower(s[i..j])
  {
  }

  // ---------------------------------------------------------------- split()

  /** Length of the run of non-blank characters that `s` starts with. */
  function WordLen(s: string): (n: nat)
    ensures n <= |s|
    ensures forall i :: 0 <= i < n ==> !IsSpace(s[i])
    ensures n < |s| ==> IsSpace(s[n])
    decreases |s|
  {
    if s == [] || IsSpace(s[0]) then 0 else 1 + WordLen(s[1..])
  }

  /** `s.split()`: the maximal runs of non-blank characters, in order. */
  function Words(s: string): (r: seq<string>)
    decreases |s|
  {
    if s == [] then []
    else if IsSpace(s[0]) then Words(s[1..])
    else [s[..WordLen(s)]] + Words(s[WordLen(s)..])
  }

  lemma {:induction false} WordLenLower(s: string)
    ensures WordLen(Lower(s)) == WordLen(s)
    decreases |s|
  {
    if s != [] {
      LowerKeepsSpaces(s[0]);
      if !IsSpace(s[0]) {
        LowerSlice(s, 1, |s|);
        WordLenLower(s[1..]);
      }
    }
  }

  /** Lower-casing never merges or splits words: `len(s.lower().split()) == len(s.split())`. */
  lemma {:induction false} WordsLowerLength(s: string)
    ensures |Words(Lower(s))| == |Words(s)|
    decreases |s|
  {
    if s != [] {
      LowerKeepsSpaces(s[0]);
      if IsSpace(s[0]) {
        LowerSlice(s, 1, |s|);
        assert Lower(s)[1..] == Lower(s[1..]) by {
          assert Lower(s)[1..] == Lower(s)[1..|s|] && s[1..] == s[1..|s|];
        }
        WordsLowerLength(s[1..]);
      } else {
        WordLenLower(s);
        var n := WordLen(s);
        var low := Lower(s);
        LowerSlice(s, n, |s|);
        assert low[n..] == Lower(s[n..]) by {
          assert low[n..] == low[n..|s|] && s[n..] == s[n..|s|];
        }
        assert low != [] && !IsSpace(low[0]);
        assert Words(low) == [low[..n]] + Words(low[n..]);
        assert Words(s) == [s[..n]] + Words(s[n..]);
        WordsLowerLength(s[n..]);
      }
    }
  }

  /** A string without non-blank characters has no words. */
  lemma {:induction false} WordsOfBlank(s: string)
    requires forall k :: 0 <= k < |s| ==> IsSpace(s[k])
    ensures Words(s) == []
    decreases |s|
  {
    if s != [] {
      WordsOfBlank(s[1..]);
    }
  }

  // ---------------------------------------------------------------- in, startswith

  /** `s.startswith(p)` */
  predicate StartsWith(s: string, p: string) {
    |p| <= |s| && s[..|p|] == p
  }

  /** `p in s`: `p` occurs as a contiguous piece of `s`. */
  predicate IsIn(p: string, s: string)
    decreases |s|
  {
    StartsWith(s, p) || (s != [] && IsIn(p, s[1..]))
  }

  lemma {:induction false} IsInAt(p: string, s: string, i: nat)
    requires i + |p| <= |s| && s[i..i + |p|] == p
    ensures IsIn(p, s)
    decreases i
  {
    if i > 0 {
      SliceOfSlice(s, 1, |s|, i - 1, |p|);
      IsInAt(p, s[1..], i - 1);
    }
  }

  lemma {:induction false} IsInWitness(p: string, s: string) returns (i: nat)
    requires IsIn(p, s)
    ensures i + |p| <= |s| && s[i..i + |p|] == p
    decreases |s|
  {
    if StartsWith(s, p) {
      i := 0;
    } else {
      var j := IsInWitness(p, s[1..]);
      SliceOfSlice(s, 1, |s|, j, |p|);
      i := j + 1;
    }
  }

  /** What occurs in a slice occurs in the whole. */
  lemma IsInSlice(p: string, s: string, a: int, b: int)
    requires 0 <= a <= b <= |s|
    requires IsIn(p, s[a..b])
    ensures IsIn(p, s)
  {
    var i := IsInWitness(p, s[a..b]);
    SliceOfSlice(s, a, b, i, |p|);
    IsInAt(p, s, a + i);
  }

  /** Every string contains the empty string (`"" in s` is always true). */
  lemma EmptyIsIn(s: string)
    ensures IsIn("", s)
  {
    assert StartsWith(s, "");
  }

  // ---------------------------------------------------------------- split(sep)

  /** `s.split(sep)`: the pieces between the leftmost non-overlapping occurrences of `sep`. */
  function SplitOn(s: string, sep: string): (r: seq<string>)
    requires sep != []
    ensures |r| >= 1
    ensures StartsWith(s, r[0])
    decreases |s|
  {
    if |s| < |sep| then [s]
    else if s[..|sep|] == sep then [""] + SplitOn(s[|sep|..], sep)
    else
      var rest := SplitOn(s[1..], sep);
      [[s[0]] + rest[0]] + rest[1..]
  }

  /** No piece of `s.split(sep)` contains `sep`. */
  lemma {:induction false} SplitOnPieces(s: string, sep: string)
    requires sep != []
    ensures forall k :: 0 <= k < |SplitOn(s, sep)| ==> !IsIn(sep, SplitOn(s, sep)[k])
    decreases |s|
  {
    var r := SplitOn(s, sep);
    if |s| < |sep| {
      forall k | 0 <= k < |r| ensures !IsIn(sep, r[k]) {
        NotInShorter(sep, s);
      }
    } else if s[..|sep|] == sep {
      SplitOnPieces(s[|sep|..], sep);
      forall k | 0 <= k < |r| ensures !IsIn(sep, r[k]) {
        if k == 0 {
          NotInShorter(sep, "");
        } else {
          assert r[k] == SplitOn(s[|sep|..], sep)[k - 1];
        }
      }
    } else {
      var rest := SplitOn(s[1..], sep);
      SplitOnPieces(s[1..], sep);
      var head := [s[0]] + rest[0];
      assert head == s[..|head|];
      if |sep| <= |head| {
        assert head[..|sep|] == s[..|sep|];
      }
      assert !StartsWith(head, sep);
      assert head[1..] == rest[0];
      assert !IsIn(sep, head);
      forall k | 0 <= k < |r| ensures !IsIn(sep, r[k]) {
        if k > 0 {
          assert r[k] == rest[k];
        }
      }
    }
  }

  lemma {:induction false} NotInShorter(p: string, s: string)
    requires |s| < |p|
    ensures !IsIn(p, s)
    decreases |s|
  {
    if s != [] {
      NotInShorter(p, s[1..]);
    }
  }

  // ---------------------------------------------------------------- replace

  /** `s.replace(pat, rep)`: every leftmost non-overlapping occurrence of `pat` replaced. */
  function ReplaceAll(s: string, pat: string, rep: string): string
    requires pat != []
    decreases |s|
  {
    if |s| < |pat| then s
    else if s[..|pat|] == pat then rep + ReplaceAll(s[|pat|..], pat, rep)
    else [s[0]] + ReplaceAll(s[1..], pat, rep)
  }

  /** Replacing a pattern that does not occur leaves the string as it is. */
  lemma {:induction false} ReplaceAbsent(s: string, pat: string, rep: string)
    requires pat != [] && !IsIn(pat, s)
    ensures ReplaceAll(s, pat, rep) == s
    decreases |s|
  {
    if |s| >= |pat| {
      assert !StartsWith(s, pat);
      assert s != [];
      ReplaceAbsent(s[1..], pat, rep);
    }
  }

  /** A leading occurrence is replaced and the scan goes on after it. */
  lemma ReplaceLeading(pat: string, s: string, rep: string)
    requires pat != []
    ensures ReplaceAll(pat + s, pat, rep) == rep + ReplaceAll(s, pat, rep)
  {
    assert (pat + s)[..|pat|] == pat;
    assert (pat + s)[|pat|..] == s;
  }

  /** A one-character pattern: `s.replace(c, d)` maps characters. */
  lemma {:induction false} ReplaceChar(s: string, c: char, d: char)
    ensures ReplaceAll(s, [c], [d]) == seq(|s|, i requires 0 <= i < |s| => if s[i] == c then d else s[i])
    decreases |s|
  {
    if s != [] {
      ReplaceChar(s[1..], c, d);
    }
  }

  // ---------------------------------------------------------------- join, str(int)

  /** `sep.join(parts)` */
  function Join(sep: string, parts: seq<string>): string
    decreases |parts|
  {
    if parts == [] then ""
    else if |parts| == 1 then parts[0]
    else parts[0] + sep + Join(sep, parts[1..])
  }

  /** Every part of a joined list occurs in the joined string. */
  lemma {:induction false} JoinHas(sep: string, parts: seq<string>, k: nat)
    requires k < |parts|
    ensures IsIn(parts[k], Join(sep, parts))
    decreases |parts|
  {
    var j := Join(sep, parts);
    if |parts| == 1 {
      assert j[0..|parts[0]|] == parts[0];
      IsInAt(parts[0], j, 0);
    } else if k == 0 {
      assert j == parts[0] + (sep + Join(sep, parts[1..]));
      assert j[0..|parts[0]|] == parts[0];
      IsInAt(parts[0], j, 0);
    } else {
      var rest := Join(sep, parts[1..]);
      JoinHas(sep, parts[1..], k - 1);
      assert j == (parts[0] + sep) + rest;
      var off := |parts[0] + sep|;
      assert j[off..|j|] == rest;
      IsInSlice(parts[k], j, off, |j|);
    }
  }

  predicate IsDigit(c: char) {
    '0' <= c <= '9'
  }

  function DigitChar(d: nat): (c: char)
    requires d < 10
    ensures IsDigit(c)
  {
    ('0' as int + d) as char
  }

  /** `str(n)` for a natural number: its decimal digits, no leading zero. */
  function NatToString(n: nat): (r: string)
    ensures r != [] && forall k :: 0 <= k < |r| ==> IsDigit(r[k])
    ensures |r| > 1 ==> r[0] != '0'
    decreases n
  {
    if n < 10 then [DigitChar(n)] else NatToString(n / 10) + [DigitChar(n % 10)]
  }

  /** `str(i)` for an integer. */
  function IntToString(i: int): (r: string)
    ensures r != []
    ensures (r[0] == '-') <==> i < 0
  {
    if i < 0 then "-" + NatToString(-i) else NatToString(i)
  }

  /** The position of the first `c` in `s`, if any (`s.find(c)`). */
  function FindChar(s: string, c: char): (r: int)
    ensures -1 <= r < |s|
    ensures r == -1 <==> c !in s
    ensures 0 <= r ==> s[r] == c && c !in s[..r]
    decreases |s|
  {
    if s == [] then -1
    else if s[0] == c then 0
    else
      var k := FindChar(s[1..], c);
      if k < 0 then -1 else
        assert s[..k + 1] == [s[0]] + s[1..][..k];
        k + 1
  }

  /** The first `c` in `a + b` is the first of `b` when `a` has none. */
  lemma {:induction false} FindCharAfter(a: string, b: string, c: char)
    requires c !in a && b != [] && b[0] == c
    ensures FindChar(a + b, c) == |a|
    decreases |a|
  {
    if a != [] {
      assert (a + b)[1..] == a[1..] + b;
      FindCharAfter(a[1..], b, c);
    }
  }

  /** A one-character string occurs exactly where its character does. */
  lemma IsInChar(c: char, s: string)
    ensures IsIn([c], s) ==> c in s
  {
    if IsIn([c], s) {
      var i := IsInWitness([c], s);
      assert s[i] == s[i..i + 1][0];
    }
  }
}
