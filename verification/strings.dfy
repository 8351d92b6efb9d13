/** The PHP string built-ins the client relies on, over `string` (a sequence
    of Unicode scalar values): truthiness, `implode`, `explode`, the ASCII
    `strtoupper` / `strtolower`, and `str_replace` with its match count. */
module Strings {

  /** PHP's truthiness of a string: exactly "" and "0" are false. */
  predicate Truthy(s: string) {
    s != "" && s != "0"
  }

  // ---------------------------------------------------------------------------
  // implode / explode
  // ---------------------------------------------------------------------------

  /** `implode(sep, xs)`: the elements in order, `sep` between neighbours. */
  function Join(sep: string, xs: seq<string>): string {
    if |xs| == 0 then ""
    else if |xs| == 1 then xs[0]
    else xs[0] + sep + Join(sep, xs[1..])
  }

  /** `explode(sep, s)` for a one-character separator: the maximal runs of `s`
      between separators, so there is always at least one part. */
  function Split(s: string, sep: char): (parts: seq<string>)
    ensures |parts| >= 1
    ensures forall k :: 0 <= k < |parts| ==> sep !in parts[k]
    decreases |s|
  {
    if |s| == 0 then [""]
    else
      var rest := Split(s[1..], sep);
      if s[0] == sep then [""] + rest
      else [[s[0]] + rest[0]] + rest[1..]
  }

  lemma JoinCons(sep: string, x: string, ys: seq<string>)
    ensures Join(sep, [x] + ys) == if |ys| == 0 then x else x + sep + Join(sep, ys)
  {
    assert ([x] + ys)[1..] == ys;
  }

  /** A character absent from the separator and from every element is absent
      from the join. */
  lemma JoinAvoids(sep: string, xs: seq<string>, c: char)
    requires c !in sep
    requires forall k :: 0 <= k < |xs| ==> c !in xs[k]
    ensures c !in Join(sep, xs)
  {
    if |xs| > 1 {
      JoinAvoids(sep, xs[1..], c);
    }
  }

  /** Joining the parts of a split restores the string, for every string. */
  lemma {:induction false} JoinSplit(s: string, sep: char)
    ensures Join([sep], Split(s, sep)) == s
    decreases |s|
  {
    if |s| > 0 {
      JoinSplit(s[1..], sep);
      JoinSplitStep(s, sep);
    }
  }

  /** One step of `JoinSplit`: the first character joins back onto the rest. */
  lemma JoinSplitStep(s: string, sep: char)
    requires |s| > 0 && Join([sep], Split(s[1..], sep)) == s[1..]
    ensures Join([sep], Split(s, sep)) == s
  {
    var rest := Split(s[1..], sep);
    if s[0] == sep {
      JoinCons([sep], "", rest);
      assert s == [sep] + s[1..];
    } else {
      JoinGrowFirst([sep], s[0], rest);
      assert s == [s[0]] + s[1..];
    }
  }

  /** Prefixing the first element with `c` prefixes the join with `c`. */
  lemma JoinGrowFirst(sep: string, c: char, xs: seq<string>)
    requires |xs| > 0
    ensures Join(sep, [[c] + xs[0]] + xs[1..]) == [c] + Join(sep, xs)
  {
    JoinCons(sep, [c] + xs[0], xs[1..]);
    JoinCons(sep, xs[0], xs[1..]);
    assert [xs[0]] + xs[1..] == xs;
    if |xs| > 1 {
      var tail := Join(sep, xs[1..]);
      assert [c] + xs[0] + sep + tail == [c] + (xs[0] + sep + tail);
    }
  }

  lemma {:induction false} SplitWithoutSep(s: string, sep: char)
    requires sep !in s
    ensures Split(s, sep) == [s]
    decreases |s|
  {
    if |s| > 0 {
      assert sep !in s[1..];
      SplitWithoutSep(s[1..], sep);
      assert [s[0]] + s[1..] == s;
    }
  }

  lemma {:induction false} SplitAfterSep(a: string, b: string, sep: char)
    requires sep !in a
    ensures Split(a + [sep] + b, sep) == [a] + Split(b, sep)
    decreases |a|
  {
    if |a| == 0 {
      assert a + [sep] + b == [sep] + b;
      assert ([sep] + b)[1..] == b;
    } else {
      assert (a + [sep] + b)[1..] == a[1..] + [sep] + b;
      assert sep !in a[1..];
      SplitAfterSep(a[1..], b, sep);
      assert [a[0]] + a[1..] == a;
    }
  }

  /** Splitting a join on its separator recovers the list, provided the list
      is non-empty and no element contains the separator. */
  lemma {:induction false} SplitJoin(xs: seq<string>, sep: char)
    requires |xs| >= 1
    requires forall k :: 0 <= k < |xs| ==> sep !in xs[k]
    ensures Split(Join([sep], xs), sep) == xs
    decreases |xs|
  {
    if |xs| == 1 {
      SplitWithoutSep(xs[0], sep);
    } else {
      SplitJoin(xs[1..], sep);
      SplitAfterSep(xs[0], Join([sep], xs[1..]), sep);
      assert [xs[0]] + xs[1..] == xs;
    }
  }

  // ---------------------------------------------------------------------------
  // strtoupper / strtolower (ASCII only, as in PHP 8)
  // ---------------------------------------------------------------------------

  predicate IsLowerAscii(c: char) { 'a' <= c <= 'z' }
  predicate IsUpperAscii(c: char) { 'A' <= c <= 'Z' }

  function UpperChar(c: char): char {
    if IsLowerAscii(c) then (c as int - 32) as char else c
  }

  function LowerChar(c: char): char {
    if IsUpperAscii(c) then (c as int + 32) as char else c
  }

  /** `strtoupper`: each ASCII lower-case letter becomes its capital; nothing
      else changes, and no lower-case ASCII letter is left. */
  function ToUpper(s: string): (r: string)
    ensures |r| == |s|
    ensures forall i :: 0 <= i < |s| && !IsLowerAscii(s[i]) ==> r[i] == s[i]
    ensures forall i :: 0 <= i < |s| && IsLowerAscii(s[i]) ==> r[i] as int == s[i] as int - 32
    ensures forall i :: 0 <= i < |r| ==> !IsLowerAscii(r[i])
  {
    seq(|s|, i requires 0 <= i < |s| => UpperChar(s[i]))
  }

  /** `strtolower`: each ASCII capital becomes its lower-case letter; nothing
      else changes, and no upper-case ASCII letter is left. */
  function ToLower(s: string): (r: string)
    ensures |r| == |s|
    ensures forall i :: 0 <= i < |s| && !IsUpperAscii(s[i]) ==> r[i] == s[i]
    ensures forall i :: 0 <= i < |s| && IsUpperAscii(s[i]) ==> r[i] as int == s[i] as int + 32
    ensures forall i :: 0 <= i < |r| ==> !IsUpperAscii(r[i])
  {
    seq(|s|, i requires 0 <= i < |s| => LowerChar(s[i]))
  }

  /** Upper-casing twice is upper-casing once. */
  lemma ToUpperIdempotent(s: string)
    ensures ToUpper(ToUpper(s)) == ToUpper(s)
  {
  }

  /** Lower-casing twice is lower-casing once. */
  lemma ToLowerIdempotent(s: string)
    ensures ToLower(ToLower(s)) == ToLower(s)
  {
  }

  // ---------------------------------------------------------------------------
  // str_replace
  // ---------------------------------------------------------------------------

  /** `pat` occurs in `s` starting at index `i`. */
  predicate MatchAt(s: string, pat: string, i: int) {
    0 <= i && i + |pat| <= |s| && s[i..i + |pat|] == pat
  }

  /** `str_replace(pat, rep, s)`: scanning left to right, every occurrence of
      `pat` that does not overlap an earlier replaced one becomes `rep`; an
      empty `pat` leaves `s` unchanged. */
  function StrReplace(pat: string, rep: string, s: string): string
    decreases |s|
  {
    if |pat| == 0 || |s| < |pat| then s
    else if s[..|pat|] == pat then rep + StrReplace(pat, rep, s[|pat|..])
    else [s[0]] + StrReplace(pat, rep, s[1..])
  }

  /** The number of replacements `StrReplace` performs (the `$count` result
      of `str_replace`). */
  function CountMatches(pat: string, s: string): nat
    decreases |s|
  {
    if |pat| == 0 || |s| < |pat| then 0
    else if s[..|pat|] == pat then 1 + CountMatches(pat, s[|pat|..])
    else CountMatches(pat, s[1..])
  }

  /** No occurrence of `pat` begins inside `a` and ends inside `b`. */
  predicate NoStraddle(pat: string, a: string, b: string) {
    forall i :: 0 <= i < |a| < i + |pat| ==> !MatchAt(a + b, pat, i)
  }

  /** Dropping a prefix of length `k` shifts every occurrence left by `k`. */
  lemma MatchShift(pat: string, s: string, k: nat, i: int)
    requires k <= |s| && 0 <= i
    ensures MatchAt(s[k..], pat, i) == MatchAt(s, pat, i + k)
  {
    if i + |pat| <= |s[k..]| {
      assert s[k..][i..i + |pat|] == s[i + k..i + k + |pat|];
    }
  }

  /** A string in which `pat` never occurs is left alone. */
  lemma {:induction false} ReplaceWithoutMatch(pat: string, rep: string, s: string)
    requires forall i :: !MatchAt(s, pat, i)
    ensures StrReplace(pat, rep, s) == s
    ensures CountMatches(pat, s) == 0
    decreases |s|
  {
    if |pat| > 0 && |s| >= |pat| {
      assert !MatchAt(s, pat, 0);
      forall i | 0 <= i ensures !MatchAt(s[1..], pat, i) {
        MatchShift(pat, s, 1, i);
      }
      ReplaceWithoutMatch(pat, rep, s[1..]);
      assert [s[0]] + s[1..] == s;
    }
  }

  /** The count is zero exactly when `pat` occurs nowhere (for non-empty `pat`). */
  lemma {:induction false} CountZeroIffNoMatch(pat: string, s: string)
    requires |pat| > 0
    ensures CountMatches(pat, s) == 0 <==> forall i :: !MatchAt(s, pat, i)
    decreases |s|
  {
    if |s| < |pat| {
    } else if s[..|pat|] == pat {
      assert MatchAt(s, pat, 0);
    } else {
      CountZeroIffNoMatch(pat, s[1..]);
      forall i | 0 <= i ensures MatchAt(s[1..], pat, i) == MatchAt(s, pat, i + 1) {
        MatchShift(pat, s, 1, i);
      }
      assert !MatchAt(s, pat, 0);
      if CountMatches(pat, s) != 0 {
        var j :| MatchAt(s[1..], pat, j);
        assert MatchAt(s, pat, j + 1);
      } else {
        forall i | 1 <= i ensures !MatchAt(s, pat, i) {
          assert MatchAt(s[1..], pat, i - 1) == MatchAt(s, pat, i);
        }
      }
    }
  }

  /** Dropping a prefix of `a` keeps `a` and `b` free of straddling matches. */
  lemma NoStraddleShift(pat: string, a: string, b: string, k: nat)
    requires k <= |a|
    requires NoStraddle(pat, a, b)
    ensures NoStraddle(pat, a[k..], b)
  {
    assert a[k..] + b == (a + b)[k..];
    forall i | 0 <= i < |a[k..]| < i + |pat| ensures !MatchAt(a[k..] + b, pat, i) {
      MatchShift(pat, a + b, k, i);
    }
  }

  /** `str_replace` distributes over a concatenation that no occurrence of
      `pat` straddles. */
  lemma {:induction false} ReplaceConcat(pat: string, rep: string, a: string, b: string)
    requires NoStraddle(pat, a, b)
    ensures StrReplace(pat, rep, a + b) == StrReplace(pat, rep, a) + StrReplace(pat, rep, b)
    decreases |a|
  {
    var n := |pat|;
    if n == 0 {
    } else if |a| == 0 {
      assert a + b == b;
    } else if |a + b| < n {
    } else if (a + b)[..n] == pat {
      MatchAtFront(pat, a, b);
      NoStraddleShift(pat, a, b, n);
      ReplaceConcat(pat, rep, a[n..], b);
    } else {
      NoMatchAtFront(pat, a, b);
      NoStraddleShift(pat, a, b, 1);
      ReplaceConcat(pat, rep, a[1..], b);
    }
  }

  /** An occurrence at the front of `a + b` that does not straddle lies
      within `a`. */
  lemma MatchAtFront(pat: string, a: string, b: string)
    requires 0 < |pat| <= |a + b| && |a| > 0 && (a + b)[..|pat|] == pat
    requires NoStraddle(pat, a, b)
    ensures |pat| <= |a| && a[..|pat|] == pat
    ensures (a + b)[|pat|..] == a[|pat|..] + b
  {
    assert MatchAt(a + b, pat, 0);
    assert a[..|pat|] == pat;
    assert (a + b)[|pat|..] == a[|pat|..] + b;
  }

  /** Without an occurrence at the front, `a + b` and `a` both start with
      `a[0]`, and `a` has no occurrence at its front either. */
  lemma NoMatchAtFront(pat: string, a: string, b: string)
    requires 0 < |pat| <= |a + b| && |a| > 0 && (a + b)[..|pat|] != pat
    ensures (a + b)[1..] == a[1..] + b && (a + b)[0] == a[0]
    ensures |a| >= |pat| ==> a[..|pat|] != pat
    ensures [a[0]] + a[1..] == a
  {
    assert (a + b)[1..] == a[1..] + b;
    if |a| >= |pat| {
      assert a[..|pat|] == (a + b)[..|pat|];
    }
    assert [a[0]] + a[1..] == a;
  }

  /** The replacement count of a concatenation that no occurrence of `pat`
      straddles is the sum of the counts. */
  lemma {:induction false} CountConcat(pat: string, a: string, b: string)
    requires NoStraddle(pat, a, b)
    ensures CountMatches(pat, a + b) == CountMatches(pat, a) + CountMatches(pat, b)
    decreases |a|
  {
    var n := |pat|;
    if n == 0 {
    } else if |a| == 0 {
      assert a + b == b;
    } else if |a + b| < n {
    } else if (a + b)[..n] == pat {
      assert MatchAt(a + b, pat, 0);
      assert a[..n] == pat;
      assert (a + b)[n..] == a[n..] + b;
      NoStraddleShift(pat, a, b, n);
      CountConcat(pat, a[n..], b);
    } else {
      assert (a + b)[1..] == a[1..] + b;
      NoStraddleShift(pat, a, b, 1);
      CountConcat(pat, a[1..], b);
      if |a| >= n {
        assert a[..n] == (a + b)[..n];
      }
    }
  }

  /** An occurrence at the front is replaced and counted. */
  lemma ReplaceAtFront(pat: string, rep: string, b: string)
    requires |pat| > 0
    ensures StrReplace(pat, rep, pat + b) == rep + StrReplace(pat, rep, b)
    ensures CountMatches(pat, pat + b) == 1 + CountMatches(pat, b)
  {
    assert (pat + b)[..|pat|] == pat;
    assert (pat + b)[|pat|..] == b;
  }

  /** Every occurrence of `pat` ends in the last character of `pat`; so if that
      character appears in `s` only too early to end an occurrence, `pat` does
      not occur in `s`. */
  lemma NoMatchByLastChar(pat: string, s: string)
    requires |pat| > 0
    requires forall j :: 0 <= j < |s| && s[j] == pat[|pat| - 1] ==> j < |pat| - 1
    ensures forall i :: !MatchAt(s, pat, i)
  {
    forall i | MatchAt(s, pat, i) ensures s[i + |pat| - 1] == pat[|pat| - 1] {
      var w := s[i..i + |pat|];
      assert w[|pat| - 1] == s[i + |pat| - 1];
    }
  }

  /** An occurrence straddling `a` and `b` contains both the last character
      of `a` and the first character of `b`. */
  lemma StraddleTouchesBoundary(pat: string, a: string, b: string)
    ensures forall i :: 0 <= i < |a| < i + |pat| && MatchAt(a + b, pat, i) ==>
      a[|a| - 1] in pat && b[0] in pat
  {
    forall i | 0 <= i < |a| < i + |pat| && MatchAt(a + b, pat, i)
      ensures a[|a| - 1] in pat && b[0] in pat
    {
      var w := (a + b)[i..i + |pat|];
      assert w[|a| - 1 - i] == a[|a| - 1];
      assert w[|a| - i] == b[0];
    }
  }

  /** So a boundary character that `pat` does not contain rules out any
      straddling occurrence. */
  lemma NoStraddleByBoundary(pat: string, a: string, b: string)
    requires (|a| > 0 && a[|a| - 1] !in pat) || (|b| > 0 && b[0] !in pat)
    ensures NoStraddle(pat, a, b)
  {
    StraddleTouchesBoundary(pat, a, b);
  }

  /** A string without the last character of `pat` holds no occurrence of
      it, so `str_replace` leaves it alone and counts nothing. */
  lemma ReplaceWithoutLastChar(pat: string, rep: string, s: string)
    requires |pat| > 0 && pat[|pat| - 1] !in s
    ensures StrReplace(pat, rep, s) == s
    ensures CountMatches(pat, s) == 0
  {
    NoMatchByLastChar(pat, s);
    ReplaceWithoutMatch(pat, rep, s);
  }

  /** An occurrence straddling `a` and `b` ends inside `b`, so `b` lacking
      the last character of `pat` rules it out. */
  lemma NoStraddleByLastChar(pat: string, a: string, b: string)
    requires |pat| > 0 && pat[|pat| - 1] !in b
    ensures NoStraddle(pat, a, b)
  {
    StraddleEndsInRight(pat, a, b);
  }

  lemma StraddleEndsInRight(pat: string, a: string, b: string)
    requires |pat| > 0
    ensures forall i :: 0 <= i < |a| < i + |pat| && MatchAt(a + b, pat, i) ==>
      pat[|pat| - 1] in b
  {
    forall i | 0 <= i < |a| < i + |pat| && MatchAt(a + b, pat, i)
      ensures pat[|pat| - 1] in b
    {
      var w := (a + b)[i..i + |pat|];
      assert w[|pat| - 1] == b[i + |pat| - 1 - |a|];
    }
  }
  /** Likewise every occurrence starts with the first character of `pat`. */
  lemma MatchStartsWithFirst(pat: string, s: string)
    requires |pat| > 0
    ensures forall i :: MatchAt(s, pat, i) ==> s[i] == pat[0]
  {
    forall i | MatchAt(s, pat, i) ensures s[i] == pat[0] {
      var w := s[i..i + |pat|];
      assert w[0] == s[i];
    }
  }

  lemma ReplaceWithoutFirstChar(pat: string, rep: string, s: string)
    requires |pat| > 0 && pat[0] !in s
    ensures StrReplace(pat, rep, s) == s
    ensures CountMatches(pat, s) == 0
  {
    MatchStartsWithFirst(pat, s);
    ReplaceWithoutMatch(pat, rep, s);
  }
}
