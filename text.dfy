/** The pieces of Rust's `str` API that the modelled code calls, over `string` (`seq<char>`). */
module Text {
  import opened Arith

  /** `char::is_whitespace`: the Unicode White_Space property, which `str::trim` strips. */
  predicate IsWhitespace(c: char)
  {
    ('\t' <= c <= '\r') || c == ' ' || c == '\U{0085}' || c == '\U{00A0}' || c == '\U{1680}'
    || ('\U{2000}' <= c <= '\U{200A}') || c == '\U{2028}' || c == '\U{2029}'
    || c == '\U{202F}' || c == '\U{205F}' || c == '\U{3000}'
  }

  /** `str::trim_start`: drops the leading whitespace. */
  function TrimStart(s: string): string
  {
    if s != [] && IsWhitespace(s[0]) then TrimStart(s[1..]) else s
  }

  /** `str::trim_end`: drops the trailing whitespace. */
  function TrimEnd(s: string): string
  {
    if s != [] && IsWhitespace(s[|s| - 1]) then TrimEnd(s[..|s| - 1]) else s
  }

  /** `str::trim`: whitespace dropped at both ends. */
  function Trim(s: string): string
  {
    TrimEnd(TrimStart(s))
  }

  /** `trim_start` keeps the suffix from some index `k` on: everything before `k` is
      whitespace and the character at `k`, if any, is not. */
  lemma {:induction false} TrimStartSuffix(s: string) returns (k: nat)
    ensures k <= |s| && TrimStart(s) == s[k..]
    ensures forall i :: 0 <= i < k ==> IsWhitespace(s[i])
    ensures k == |s| || !IsWhitespace(s[k])
  {
    if s != [] && IsWhitespace(s[0]) {
      var k' := TrimStartSuffix(s[1..]);
      k := k' + 1;
      assert s[1..][k'..] == s[k..];
      forall i | 0 <= i < k ensures IsWhitespace(s[i]) {
        if i > 0 {
          assert s[i] == s[1..][i - 1];
        }
      }
    } else {
      k := 0;
    }
  }

  /** `trim_end` keeps the prefix up to some index `n`: everything from `n` on is
      whitespace and the character before `n`, if any, is not. */
  lemma {:induction false} TrimEndPrefix(s: string) returns (n: nat)
    ensures n <= |s| && TrimEnd(s) == s[..n]
    ensures forall i :: n <= i < |s| ==> IsWhitespace(s[i])
    ensures n == 0 || !IsWhitespace(s[n - 1])
  {
    if s != [] && IsWhitespace(s[|s| - 1]) {
      var s' := s[..|s| - 1];
      n := TrimEndPrefix(s');
      assert s'[..n] == s[..n];
      forall i | n <= i < |s| ensures IsWhitespace(s[i]) {
        if i < |s| - 1 {
          assert s[i] == s'[i];
        }
      }
    } else {
      n := |s|;
    }
  }

  /** `trim` keeps the slice `s[a..b]`: everything outside it is whitespace, and it
      neither starts nor ends with whitespace. */
  lemma {:induction false} TrimSlice(s: string) returns (a: nat, b: nat)
    ensures a <= b <= |s| && Trim(s) == s[a..b]
    ensures forall i :: 0 <= i < a ==> IsWhitespace(s[i])
    ensures forall i :: b <= i < |s| ==> IsWhitespace(s[i])
    ensures a == b || (!IsWhitespace(s[a]) && !IsWhitespace(s[b - 1]))
  {
    a := TrimStartSuffix(s);
    var t := s[a..];
    var n := TrimEndPrefix(t);
    b := a + n;
    assert t[..n] == s[a..b];
    forall i | b <= i < |s| ensures IsWhitespace(s[i]) {
      assert s[i] == t[i - a];
    }
    if a < b {
      assert s[a] == t[0] && s[b - 1] == t[n - 1];
    }
  }

  /** Trimming leaves nothing exactly when the text is all whitespace. */
  lemma {:induction false} TrimEmptyIffBlank(s: string)
    ensures Trim(s) == [] <==> forall i :: 0 <= i < |s| ==> IsWhitespace(s[i])
  {
    var a, b := TrimSlice(s);
    if a < b {
      assert |Trim(s)| == b - a;
    }
  }

  /** `str::trim_end_matches(c)` for one character `c`. */
  function TrimEndMatches(s: string, c: char): (r: string)
    ensures |r| <= |s| && r == s[..|r|]
    ensures forall i :: |r| <= i < |s| ==> s[i] == c
    ensures r == [] || r[|r| - 1] != c
  {
    if s != [] && s[|s| - 1] == c then TrimEndMatches(s[..|s| - 1], c) else s
  }

  /** The parts joined back together, `sep` between each two. */
  function Join(parts: seq<string>, sep: string): (s: string)
    requires |parts| >= 1
  {
    if |parts| == 1 then parts[0] else parts[0] + sep + Join(parts[1..], sep)
  }

  /** The joined text starts with the first part. */
  lemma {:induction false} JoinHead(parts: seq<string>, sep: string)
    requires |parts| >= 1
    ensures |parts[0]| <= |Join(parts, sep)| && Join(parts, sep)[..|parts[0]|] == parts[0]
  {
  }

  lemma JoinGrowHead(x: string, parts: seq<string>, sep: string)
    requires |parts| >= 1
    ensures Join([x + parts[0]] + parts[1..], sep) == x + Join(parts, sep)
  {
    var q := [x + parts[0]] + parts[1..];
    if |parts| > 1 {
      assert q[1..] == parts[1..];
    }
  }

  /** `str::split(sep)` for one character: the pieces between the separators, empty ones included. */
  function Split(s: string, sep: char): (parts: seq<string>)
    ensures |parts| >= 1
    ensures forall i :: 0 <= i < |parts| ==> sep !in parts[i]
    ensures Join(parts, [sep]) == s
  {
    if s == [] then [[]]
    else
      var rest := Split(s[1..], sep);
      if s[0] == sep then
        assert ([[]] + rest)[1..] == rest;
        [[]] + rest
      else
        JoinGrowHead([s[0]], rest, [sep]);
        [[s[0]] + rest[0]] + rest[1..]
  }

  /** `u8::to_ascii_lowercase` on a character: only 'A'..'Z' change. */
  function AsciiLower(c: char): (r: char)
  {
    if 'A' <= c <= 'Z' then (c as int + 32) as char else c
  }

  /** `u8::to_ascii_uppercase` on a character: only 'a'..'z' change. */
  function AsciiUpper(c: char): (r: char)
  {
    if 'a' <= c <= 'z' then (c as int - 32) as char else c
  }

  /** `str::to_ascii_lowercase`. */
  function ToAsciiLowercase(s: string): (r: string)
    ensures |r| == |s| && forall i :: 0 <= i < |s| ==> r[i] == AsciiLower(s[i])
  {
    seq(|s|, i requires 0 <= i < |s| => AsciiLower(s[i]))
  }

  /** `pat` occurs in `t` starting at index `i`. */
  predicate OccursAt(t: string, pat: string, i: int)
  {
    0 <= i && i + |pat| <= |t| && t[i..i + |pat|] == pat
  }

  predicate Occurs(t: string, pat: string)
  {
    exists i :: 0 <= i <= |t| && OccursAt(t, pat, i)
  }

  /** `str::replace(pat, rep)` for a non-empty pattern: scans left to right and replaces
      each match that does not overlap an earlier one. */
  function Replace(s: string, pat: string, rep: string): (r: string)
    requires pat != []
    decreases |s|
  {
    if |s| < |pat| then s
    else if s[..|pat|] == pat then rep + Replace(s[|pat|..], pat, rep)
    else [s[0]] + Replace(s[1..], pat, rep)
  }

  /** The text between the matches that `Replace` finds, in order (`str::split` on a string). */
  function SplitOn(s: string, pat: string): (pieces: seq<string>)
    requires pat != []
    ensures |pieces| >= 1
    decreases |s|
  {
    if |s| < |pat| then [s]
    else if s[..|pat|] == pat then [[]] + SplitOn(s[|pat|..], pat)
    else
      var rest := SplitOn(s[1..], pat);
      [[s[0]] + rest[0]] + rest[1..]
  }

  /** Replacing is splitting at the matches and joining with the replacement. */
  lemma {:induction false} ReplaceIsSplitJoin(s: string, pat: string, rep: string)
    requires pat != []
    ensures Replace(s, pat, rep) == Join(SplitOn(s, pat), rep)
    decreases |s|
  {
    if |s| < |pat| {
    } else if s[..|pat|] == pat {
      ReplaceIsSplitJoin(s[|pat|..], pat, rep);
      assert ([[]] + SplitOn(s[|pat|..], pat))[1..] == SplitOn(s[|pat|..], pat);
    } else {
      ReplaceIsSplitJoin(s[1..], pat, rep);
      JoinGrowHead([s[0]], SplitOn(s[1..], pat), rep);
    }
  }

  /** Joining the pieces with the pattern itself gives back the input. */
  lemma {:induction false} SplitOnJoin(s: string, pat: string)
    requires pat != []
    ensures Join(SplitOn(s, pat), pat) == s
    decreases |s|
  {
    if |s| < |pat| {
    } else if s[..|pat|] == pat {
      SplitOnJoin(s[|pat|..], pat);
      SplitOnJoinMatch(s, pat);
    } else {
      SplitOnJoin(s[1..], pat);
      SplitOnJoinSkip(s, pat);
    }
  }

  /** The step of `SplitOnJoin` where the input starts with the pattern. */
  lemma {:induction false} SplitOnJoinMatch(s: string, pat: string)
    requires pat != [] && |s| >= |pat| && s[..|pat|] == pat
    requires Join(SplitOn(s[|pat|..], pat), pat) == s[|pat|..]
    ensures Join(SplitOn(s, pat), pat) == s
  {
    assert ([[]] + SplitOn(s[|pat|..], pat))[1..] == SplitOn(s[|pat|..], pat);
    assert s == s[..|pat|] + s[|pat|..];
  }

  /** The step of `SplitOnJoin` where the input does not start with the pattern. */
  lemma {:induction false} SplitOnJoinSkip(s: string, pat: string)
    requires pat != [] && |s| >= |pat| && s[..|pat|] != pat
    requires Join(SplitOn(s[1..], pat), pat) == s[1..]
    ensures Join(SplitOn(s, pat), pat) == s
  {
    JoinGrowHead([s[0]], SplitOn(s[1..], pat), pat);
    assert s == [s[0]] + s[1..];
  }

  /** No piece contains the pattern: every occurrence was consumed by a match. */
  lemma {:induction false} SplitOnPiecesFree(s: string, pat: string)
    requires pat != []
    ensures forall k :: 0 <= k < |SplitOn(s, pat)| ==> !Occurs(SplitOn(s, pat)[k], pat)
    decreases |s|
  {
    var pieces := SplitOn(s, pat);
    if |s| < |pat| {
    } else if s[..|pat|] == pat {
      SplitOnPiecesFree(s[|pat|..], pat);
      assert pieces[1..] == SplitOn(s[|pat|..], pat);
      assert !Occurs(pieces[0], pat);
    } else {
      var rest := SplitOn(s[1..], pat);
      SplitOnPiecesFree(s[1..], pat);
      SplitOnJoin(s[1..], pat);
      var first := [s[0]] + rest[0];
      assert pieces[0] == first;
      assert first == s[..|first|] by {
        JoinHead(rest, pat);
        assert rest[0] == s[1..][..|rest[0]|];
      }
      forall i | OccursAt(first, pat, i)
        ensures false
      {
        if i > 0 {
          assert first[i..i + |pat|] == rest[0][i - 1..i - 1 + |pat|];
          assert OccursAt(rest[0], pat, i - 1);
        }
      }
      forall k | 1 <= k < |pieces|
        ensures !Occurs(pieces[k], pat)
      {
        assert pieces[k] == rest[k];
      }
    }
  }

  /** A string in which the pattern does not occur is left as it is. */
  lemma {:induction false} ReplaceAbsent(s: string, pat: string, rep: string)
    requires pat != [] && !Occurs(s, pat)
    ensures Replace(s, pat, rep) == s
    decreases |s|
  {
    if |s| >= |pat| {
      assert !OccursAt(s, pat, 0);
      forall i | OccursAt(s[1..], pat, i)
        ensures false
      {
        assert s[1..][i..i + |pat|] == s[i + 1..i + 1 + |pat|];
        assert OccursAt(s, pat, i + 1);
      }
      ReplaceAbsent(s[1..], pat, rep);
    }
  }

  /** Occurrences of one character. */
  function CountChar(s: string, c: char): (n: nat)
    ensures n <= |s|
    ensures n == 0 <==> c !in s
  {
    if s == [] then 0 else (if s[0] == c then 1 else 0) + CountChar(s[1..], c)
  }

  /** Replacing a character by `rep` grows the text by `|rep| - 1` per copy. */
  lemma {:induction false} ReplaceCharLength(s: string, c: char, rep: string)
    ensures |Replace(s, [c], rep)| == |s| + CountChar(s, c) * (|rep| - 1)
    decreases |s|
  {
    if |s| >= 1 {
      ReplaceCharLength(s[1..], c, rep);
      if s[..1] == [c] {
        MulAdd(CountChar(s[1..], c), 1, |rep| - 1);
      } else {
        assert s[0] != c;
      }
    }
  }
}
