/**
 * The string operations the recruiter relies on: Python's `str.strip`,
 * `str.find`, slicing, `str.split`, `str.join`, `str.replace` and
 * `str.isdigit`/`int`, and JavaScript's `String.prototype.trim` and
 * `String.prototype.split`. A string is a sequence of Unicode scalar values.
 */
module Text {

  // ---------------------------------------------------------------------------
  // Whitespace
  // ---------------------------------------------------------------------------

  /** Non-ASCII characters that both Python and JavaScript treat as white space. */
  predicate IsUnicodeSpace(c: char) {
    || c == '\U{A0}' || c == '\U{1680}'
    || ('\U{2000}' <= c <= '\U{200A}')
    || c == '\U{2028}' || c == '\U{2029}'
    || c == '\U{202F}' || c == '\U{205F}' || c == '\U{3000}'
  }

  /** Python's `str.isspace()`: the characters `str.strip()` removes. */
  predicate IsPySpace(c: char) {
    || ('\t' <= c <= '\r') || c == ' '
    || ('\U{1C}' <= c <= '\U{1F}') || c == '\U{85}'
    || IsUnicodeSpace(c)
  }

  /** JavaScript's WhiteSpace and LineTerminator: the characters `trim()` removes. */
  predicate IsJsSpace(c: char) {
    || ('\t' <= c <= '\r') || c == ' '
    || c == '\U{FEFF}'
    || IsUnicodeSpace(c)
  }

  predicate AllSpace(s: string, sp: char -> bool) {
    forall k :: 0 <= k < |s| ==> sp(s[k])
  }

  /** Removes the leading characters that satisfy `sp`. */
  function TrimStart(s: string, sp: char -> bool): string {
    if s != [] && sp(s[0]) then TrimStart(s[1..], sp) else s
  }

  /** Removes the trailing characters that satisfy `sp`. */
  function TrimEnd(s: string, sp: char -> bool): string {
    if s != [] && sp(s[|s| - 1]) then TrimEnd(s[..|s| - 1], sp) else s
  }

  /** What `TrimStart` removes is a run of white space, and what it keeps is
      a suffix that does not begin with white space. */
  lemma {:induction false} TrimStartSpec(s: string, sp: char -> bool)
    ensures var r := TrimStart(s, sp);
            && |r| <= |s| && r == s[|s| - |r|..]
            && AllSpace(s[..|s| - |r|], sp)
            && (r == [] || !sp(r[0]))
  {
    if s != [] && sp(s[0]) {
      TrimStartSpec(s[1..], sp);
      var r := TrimStart(s[1..], sp);
      assert s[..|s| - |r|] == [s[0]] + s[1..][..|s| - 1 - |r|];
    }
  }

  /** What `TrimEnd` removes is a run of white space, and what it keeps is
      a prefix that does not end with white space. */
  lemma {:induction false} TrimEndSpec(s: string, sp: char -> bool)
    ensures var r := TrimEnd(s, sp);
            && |r| <= |s| && r == s[..|r|]
            && AllSpace(s[|r|..], sp)
            && (r == [] || !sp(r[|r| - 1]))
  {
    if s != [] && sp(s[|s| - 1]) {
      TrimEndSpec(s[..|s| - 1], sp);
      var r := TrimEnd(s[..|s| - 1], sp);
      assert s[|r|..] == s[..|s| - 1][|r|..] + [s[|s| - 1]];
    }
  }

  function StripWith(s: string, sp: char -> bool): string {
    TrimEnd(TrimStart(s, sp), sp)
  }

  /** Python's `s.strip()`. */
  function Strip(s: string): string {
    StripWith(s, IsPySpace)
  }

  /** JavaScript's `s.trim()`. */
  function Trim(s: string): string {
    StripWith(s, IsJsSpace)
  }

  /** Stripping leaves exactly the empty string when every character is white space. */
  lemma StripEmptyIff(s: string, sp: char -> bool)
    ensures StripWith(s, sp) == [] <==> AllSpace(s, sp)
  {
    var t := TrimStart(s, sp);
    TrimStartSpec(s, sp);
    TrimEndSpec(t, sp);
    if StripWith(s, sp) == [] {
      assert t[0..] == t;
      forall k | 0 <= k < |s| ensures sp(s[k]) {
        if k < |s| - |t| {
          assert s[..|s| - |t|][k] == s[k];
        }
      }
    }
  }

  /** The stripped string lies inside the original, between two runs of white space. */
  lemma StripIsInfix(s: string, sp: char -> bool)
    ensures var i := |s| - |TrimStart(s, sp)|;
            var r := StripWith(s, sp);
            && 0 <= i && i + |r| <= |s|
            && r == s[i..i + |r|]
            && AllSpace(s[..i], sp)
            && AllSpace(s[i + |r|..], sp)
  {
    var t := TrimStart(s, sp);
    var i := |s| - |t|;
    var r := TrimEnd(t, sp);
    TrimStartSpec(s, sp);
    TrimEndSpec(t, sp);
    assert s[i + |r|..] == t[|r|..];
  }

  /** A string that begins and ends with a non-space character is left alone. */
  lemma StripUnchanged(s: string, sp: char -> bool)
    requires s == [] || (!sp(s[0]) && !sp(s[|s| - 1]))
    ensures StripWith(s, sp) == s
  {
  }

  /** Stripping twice is stripping once. */
  lemma StripIdempotent(s: string, sp: char -> bool)
    ensures StripWith(StripWith(s, sp), sp) == StripWith(s, sp)
  {
    var r := StripWith(s, sp);
    var t := TrimStart(s, sp);
    TrimStartSpec(s, sp);
    TrimEndSpec(t, sp);
    if r != [] {
      assert r[0] == t[0];
      StripUnchanged(r, sp);
    }
  }

  /** A string that starts with `p`, where `p` starts and ends with a
      non-space character, still starts with `p` after stripping. */
  lemma StripKeepsPrefix(s: string, p: string, sp: char -> bool)
    requires StartsWith(s, p) && p != []
    requires !sp(p[0]) && !sp(p[|p| - 1])
    ensures StartsWith(StripWith(s, sp), p)
  {
    assert s[0] == p[0];
    assert TrimStart(s, sp) == s;
    var r := TrimEnd(s, sp);
    TrimEndSpec(s, sp);
    assert |r| >= |p| by {
      assert s[|p| - 1] == p[|p| - 1];
    }
    assert r[..|p|] == s[..|p|];
  }

  // ---------------------------------------------------------------------------
  // Occurrences and Python's str.find
  // ---------------------------------------------------------------------------

  predicate StartsWith(s: string, p: string) {
    |p| <= |s| && s[..|p|] == p
  }

  predicate OccursAt(s: string, p: string, i: int) {
    0 <= i && i + |p| <= |s| && s[i..i + |p|] == p
  }

  /** Python's `p in s`. */
  predicate Contains(s: string, p: string) {
    exists i :: 0 <= i <= |s| && OccursAt(s, p, i)
  }

  function FindFrom(s: string, p: string, from: nat): (r: int)
    requires from <= |s|
    ensures r == -1 || (from <= r && OccursAt(s, p, r))
    ensures r == -1 ==> forall i :: from <= i ==> !OccursAt(s, p, i)
    ensures r != -1 ==> forall i :: from <= i < r ==> !OccursAt(s, p, i)
    decreases |s| - from
  {
    if OccursAt(s, p, from) then from
    else if from == |s| then -1
    else FindFrom(s, p, from + 1)
  }

  /** Python's `s.find(p)`: the lowest index where `p` occurs, or -1. */
  function Find(s: string, p: string): (r: int)
    ensures r == -1 <==> !Contains(s, p)
    ensures r != -1 ==> OccursAt(s, p, r) && forall i :: 0 <= i < r ==> !OccursAt(s, p, i)
  {
    FindFrom(s, p, 0)
  }

  /** An occurrence inside one part of a concatenation is an occurrence in the whole. */
  lemma ContainsInConcat(a: string, b: string, p: string)
    ensures Contains(a, p) ==> Contains(a + b, p)
    ensures Contains(b, p) ==> Contains(a + b, p)
  {
    if Contains(a, p) {
      var i :| 0 <= i <= |a| && OccursAt(a, p, i);
      assert (a + b)[i..i + |p|] == a[i..i + |p|];
      assert OccursAt(a + b, p, i);
    }
    if Contains(b, p) {
      var i :| 0 <= i <= |b| && OccursAt(b, p, i);
      assert (a + b)[|a| + i..|a| + i + |p|] == b[i..i + |p|];
      assert OccursAt(a + b, p, |a| + i);
    }
  }

  /** Every character covered by an occurrence of `p` is a character of `p`. */
  lemma CharOfOccurrence(s: string, p: string, i: int, j: int)
    requires OccursAt(s, p, i) && i <= j < i + |p|
    ensures s[j] in p
  {
    assert s[i..i + |p|][j - i] == s[j];
  }

  /** A pattern free of the separator cannot straddle it. */
  lemma ContainsAcrossSeparator(a: string, c: char, b: string, p: string)
    requires c !in p
    ensures Contains(a + [c] + b, p) <==> Contains(a, p) || Contains(b, p)
  {
    var s := a + [c] + b;
    if Contains(s, p) {
      var i :| 0 <= i <= |s| && OccursAt(s, p, i);
      if i + |p| <= |a| {
        assert a[i..i + |p|] == s[i..i + |p|];
        assert OccursAt(a, p, i);
      } else if i > |a| {
        assert b[i - |a| - 1..i - |a| - 1 + |p|] == s[i..i + |p|];
        assert OccursAt(b, p, i - |a| - 1);
      } else {
        CharOfOccurrence(s, p, i, |a|);
        assert false;
      }
    }
    ContainsInConcat(a + [c], b, p);
    ContainsInConcat(a, [c] + b, p);
    assert a + [c] + b == a + ([c] + b);
  }

  // ---------------------------------------------------------------------------
  // Python slicing
  // ---------------------------------------------------------------------------

  /** How Python reads a slice bound `i` on a string of length `n`: a
      negative bound counts from the end, then the bound is clamped to [0, n]. */
  function SliceBound(i: int, n: nat): (r: nat)
    ensures r <= n
    ensures 0 <= i <= n ==> r == i
    ensures i < 0 <= n + i ==> r == n + i
  {
    if i < 0 then (if i + n < 0 then 0 else i + n)
    else if i > n then n
    else i
  }

  /** Python's `s[i:j]`. */
  function PySlice(s: string, i: int, j: int): (r: string)
    ensures |r| <= |s|
  {
    var a, b := SliceBound(i, |s|), SliceBound(j, |s|);
    if a < b then s[a..b] else []
  }

  // ---------------------------------------------------------------------------
  // Splitting and joining
  // ---------------------------------------------------------------------------

  /** The index of the first `c` in `s`. */
  function IndexOf(s: string, c: char): (r: nat)
    requires c in s
    ensures r < |s| && s[r] == c && c !in s[..r]
  {
    if s[0] == c then 0
    else
      var r := 1 + IndexOf(s[1..], c);
      assert s[..r] == [s[0]] + s[1..][..r - 1];
      r
  }

  /** Python's `sep.join(parts)`. */
  function JoinWith(parts: seq<string>, sep: string): string {
    if |parts| == 0 then []
    else if |parts| == 1 then parts[0]
    else parts[0] + sep + JoinWith(parts[1..], sep)
  }

  /** Every part occurs in the joined text. */
  lemma {:induction false} JoinContainsParts(parts: seq<string>, sep: string, k: nat)
    requires k < |parts|
    ensures Contains(JoinWith(parts, sep), parts[k])
  {
    if |parts| == 1 || k == 0 {
      assert OccursAt(parts[k], parts[k], 0);
      if |parts| > 1 {
        ContainsInConcat(parts[0], sep + JoinWith(parts[1..], sep), parts[0]);
        assert parts[0] + sep + JoinWith(parts[1..], sep) == parts[0] + (sep + JoinWith(parts[1..], sep));
      }
    } else {
      JoinContainsParts(parts[1..], sep, k - 1);
      ContainsInConcat(parts[0] + sep, JoinWith(parts[1..], sep), parts[k]);
    }
  }

  /** Python's and JavaScript's `s.split(c)` on a one-character separator. */
  function Split(s: string, c: char): (r: seq<string>)
    ensures |r| >= 1
    ensures forall k :: 0 <= k < |r| ==> c !in r[k]
    ensures JoinWith(r, [c]) == s
    decreases |s|
  {
    if c !in s then [s]
    else
      var i := IndexOf(s, c);
      var rest := Split(s[i + 1..], c);
      var r := [s[..i]] + rest;
      assert r[1..] == rest;
      assert s == s[..i] + [c] + s[i + 1..];
      r
  }

  /** Python's `s.split(c, 1)`: one piece when `c` does not occur, else the
      text before the first `c` and the text after it. */
  function SplitFirst(s: string, c: char): (r: seq<string>)
    ensures |r| == 1 <==> c !in s
    ensures |r| == 1 ==> r[0] == s
    ensures |r| != 1 ==> |r| == 2 && c !in r[0] && r[0] + [c] + r[1] == s
  {
    if c !in s then [s]
    else
      var i := IndexOf(s, c);
      assert s == s[..i] + [c] + s[i + 1..];
      [s[..i], s[i + 1..]]
  }

  /** The two pieces of `s.split(c, 1)` lie on either side of the first `c`. */
  lemma SplitFirstAt(s: string, c: char)
    requires c in s
    ensures SplitFirst(s, c) == [s[..IndexOf(s, c)], s[IndexOf(s, c) + 1..]]
  {
  }

  /** Joining pieces free of the separator and splitting again gives the pieces back. */
  lemma {:induction false} SplitJoin(parts: seq<string>, c: char)
    requires |parts| >= 1
    requires forall k :: 0 <= k < |parts| ==> c !in parts[k]
    ensures Split(JoinWith(parts, [c]), c) == parts
    decreases |parts|
  {
    if |parts| > 1 {
      var rest := JoinWith(parts[1..], [c]);
      var s := JoinWith(parts, [c]);
      assert s == parts[0] + [c] + rest;
      IndexOfFirstSeparator(parts[0], c, rest);
      assert Split(s, c) == [parts[0]] + Split(rest, c);
      SplitJoin(parts[1..], c);
      assert parts == [parts[0]] + parts[1..];
    }
  }

  /** In `a + [c] + b` with no `c` in `a`, the first `c` is the one after `a`. */
  lemma IndexOfFirstSeparator(a: string, c: char, b: string)
    requires c !in a
    ensures var s := a + [c] + b;
            c in s && IndexOf(s, c) == |a| && s[..|a|] == a && s[|a| + 1..] == b
  {
    var s := a + [c] + b;
    assert s[|a|] == c;
    var i := IndexOf(s, c);
    if i != |a| {
      assert false;
    }
    assert s[..|a|] == a;
    assert s[|a| + 1..] == b;
  }

  predicate SomePieceContains(pieces: seq<string>, p: string) {
    exists k :: 0 <= k < |pieces| && Contains(pieces[k], p)
  }

  lemma SomePieceCons(h: string, rest: seq<string>, p: string)
    ensures SomePieceContains([h] + rest, p) <==> Contains(h, p) || SomePieceContains(rest, p)
  {
    var r := [h] + rest;
    if SomePieceContains(rest, p) {
      var k :| 0 <= k < |rest| && Contains(rest[k], p);
      assert r[k + 1] == rest[k];
    }
    if SomePieceContains(r, p) {
      var k :| 0 <= k < |r| && Contains(r[k], p);
      if k > 0 {
        assert r[k] == rest[k - 1];
      }
    }
    assert r[0] == h;
  }

  /** A pattern free of the separator occurs in a string exactly when it
      occurs in one of the string's pieces. */
  lemma {:induction false} ContainsSomePiece(s: string, c: char, p: string)
    requires c !in p
    ensures Contains(s, p) <==> SomePieceContains(Split(s, c), p)
    decreases |s|
  {
    if c !in s {
      SomePieceCons(s, [], p);
    } else {
      var i := IndexOf(s, c);
      var head, tail := s[..i], s[i + 1..];
      assert s == head + [c] + tail;
      assert Split(s, c) == [head] + Split(tail, c);
      ContainsAcrossSeparator(head, c, tail, p);
      ContainsSomePiece(tail, c, p);
      SomePieceCons(head, Split(tail, c), p);
    }
  }

  // ---------------------------------------------------------------------------
  // Python's str.replace(p, '')
  // ---------------------------------------------------------------------------

  /** Python's `s.replace(p, '')`: removes the non-overlapping occurrences of
      `p`, scanning from the left. */
  function RemoveAll(s: string, p: string): (r: string)
    ensures |r| <= |s|
    decreases |s|
  {
    if p == [] || |s| < |p| then s
    else if s[..|p|] == p then RemoveAll(s[|p|..], p)
    else [s[0]] + RemoveAll(s[1..], p)
  }

  /** Nothing to remove leaves the string unchanged. */
  lemma {:induction false} RemoveAllAbsent(s: string, p: string)
    requires !Contains(s, p)
    ensures RemoveAll(s, p) == s
    decreases |s|
  {
    if p != [] && |s| >= |p| {
      assert !OccursAt(s, p, 0);
      if Contains(s[1..], p) {
        var i :| 0 <= i <= |s[1..]| && OccursAt(s[1..], p, i);
        assert s[1 + i..1 + i + |p|] == s[1..][i..i + |p|];
        assert OccursAt(s, p, 1 + i);
      }
      RemoveAllAbsent(s[1..], p);
      assert s == [s[0]] + s[1..];
    }
  }

  // ---------------------------------------------------------------------------
  // Digits and decimal numerals
  // ---------------------------------------------------------------------------

  /** `str.isdigit()` restricted to the ASCII digits. */
  predicate IsDigit(c: char) {
    '0' <= c <= '9'
  }

  predicate AllDigits(s: string) {
    forall k :: 0 <= k < |s| ==> IsDigit(s[k])
  }

  /** Python's `''.join(filter(str.isdigit, s))`. */
  function Digits(s: string): (r: string)
    ensures AllDigits(r)
    ensures |r| <= |s|
  {
    if s == [] then []
    else if IsDigit(s[0]) then [s[0]] + Digits(s[1..])
    else Digits(s[1..])
  }

  /** Filtering a concatenation filters each part. */
  lemma {:induction false} DigitsAppend(a: string, b: string)
    ensures Digits(a + b) == Digits(a) + Digits(b)
  {
    if a == [] {
      assert a + b == b;
    } else {
      assert (a + b)[0] == a[0];
      assert (a + b)[1..] == a[1..] + b;
      DigitsAppend(a[1..], b);
    }
  }

  /** A string of digits filters to itself. */
  lemma {:induction false} DigitsOfDigits(s: string)
    requires AllDigits(s)
    ensures Digits(s) == s
  {
    if s != [] {
      DigitsOfDigits(s[1..]);
    }
  }

  /** Text without digits filters to nothing. */
  lemma {:induction false} DigitsOfNonDigits(s: string)
    requires forall k :: 0 <= k < |s| ==> !IsDigit(s[k])
    ensures Digits(s) == []
  {
    if s != [] {
      assert forall k :: 0 <= k < |s[1..]| ==> s[1..][k] == s[k + 1];
      DigitsOfNonDigits(s[1..]);
    }
  }

  function DigitValue(c: char): (d: nat)
    requires IsDigit(c)
    ensures d < 10
  {
    (c as int) - ('0' as int)
  }

  function DigitChar(d: nat): (c: char)
    requires d < 10
    ensures IsDigit(c) && DigitValue(c) == d
  {
    (('0' as int) + d) as char
  }

  /** Python's `int(ds)` on a non-empty string of ASCII digits (leading zeros allowed). */
  function ParseDecimal(ds: string): nat
    requires AllDigits(ds)
  {
    if ds == [] then 0
    else 10 * ParseDecimal(ds[..|ds| - 1]) + DigitValue(ds[|ds| - 1])
  }

  /** Python's `str(n)` for a natural number. */
  function NatToDecimal(n: nat): (r: string)
    ensures r != [] && AllDigits(r)
  {
    if n < 10 then [DigitChar(n)]
    else NatToDecimal(n / 10) + [DigitChar(n % 10)]
  }

  /** Python's `str(i)` for an integer. */
  function IntToDecimal(i: int): string {
    if i < 0 then "-" + NatToDecimal(-i) else NatToDecimal(i)
  }

  /** Reading back a printed natural number gives the number. */
  lemma {:induction false} ParsePrinted(n: nat)
    ensures ParseDecimal(NatToDecimal(n)) == n
  {
    var r := NatToDecimal(n);
    if n >= 10 {
      assert r[..|r| - 1] == NatToDecimal(n / 10);
      ParsePrinted(n / 10);
    }
  }

  // ---------------------------------------------------------------------------
  // Case
  // ---------------------------------------------------------------------------

  function ToLowerChar(c: char): char {
    if 'A' <= c <= 'Z' then ((c as int) + 32) as char else c
  }

  /** JavaScript's `s.toLowerCase()` on ASCII letters. */
  function ToLower(s: string): (r: string)
    ensures |r| == |s|
    ensures forall k :: 0 <= k < |s| ==> r[k] == ToLowerChar(s[k])
  {
    if s == [] then [] else [ToLowerChar(s[0])] + ToLower(s[1..])
  }
}
