/** The Python string operations the core relies on: `str.replace`, `str.upper` and
    `str.isupper` on one character, with `str.split`/`str.join` as the reference
    against which `replace` is characterised. */
module Text {

  /** `pat` occurs in `s` starting at index `i`. */
  predicate OccursAt(s: string, pat: string, i: int)
  {
    0 <= i && i + |pat| <= |s| && s[i..i + |pat|] == pat
  }

  predicate Occurs(s: string, pat: string)
  {
    exists i :: 0 <= i <= |s| && OccursAt(s, pat, i)
  }

  /** `s.replace(pat, rep)`: every non-overlapping occurrence of `pat`, scanning from the
      left, becomes `rep`. With an empty `pat`, Python puts `rep` before every character
      and at the end. */
  function ReplaceAll(s: string, pat: string, rep: string): string
    decreases |s|
  {
    if |pat| == 0 then
      if s == [] then rep else rep + [s[0]] + ReplaceAll(s[1..], pat, rep)
    else if |s| < |pat| then s
    else if s[..|pat|] == pat then rep + ReplaceAll(s[|pat|..], pat, rep)
    else [s[0]] + ReplaceAll(s[1..], pat, rep)
  }

  /** `s.split(pat)` for a non-empty separator: the pieces between the non-overlapping
      occurrences of `pat`, scanning from the left. */
  function Split(s: string, pat: string): (parts: seq<string>)
    requires |pat| > 0
    ensures |parts| >= 1
    decreases |s|
  {
    if |s| < |pat| then [s]
    else if s[..|pat|] == pat then [[]] + Split(s[|pat|..], pat)
    else
      var t := Split(s[1..], pat);
      [[s[0]] + t[0]] + t[1..]
  }

  /** `sep.join(parts)`. */
  function Join(parts: seq<string>, sep: string): string
    decreases |parts|
  {
    if parts == [] then []
    else if |parts| == 1 then parts[0]
    else parts[0] + sep + Join(parts[1..], sep)
  }

  lemma JoinWithLongerHead(c: char, parts: seq<string>, sep: string)
    requires |parts| >= 1
    ensures Join([[c] + parts[0]] + parts[1..], sep) == [c] + Join(parts, sep)
  {
    var q := [[c] + parts[0]] + parts[1..];
    assert q[1..] == parts[1..];
  }

  /** Replacing is splitting at the pattern and joining with the replacement. */
  lemma {:induction false} ReplaceIsJoinOfSplit(s: string, pat: string, rep: string)
    requires |pat| > 0
    ensures ReplaceAll(s, pat, rep) == Join(Split(s, pat), rep)
    decreases |s|
  {
    if |s| < |pat| {
    } else if s[..|pat|] == pat {
      ReplaceIsJoinOfSplit(s[|pat|..], pat, rep);
      var t := Split(s[|pat|..], pat);
      assert ([[]] + t)[1..] == t;
    } else {
      ReplaceIsJoinOfSplit(s[1..], pat, rep);
      JoinWithLongerHead(s[0], Split(s[1..], pat), rep);
    }
  }

  /** Replacing a pattern by itself changes nothing. */
  lemma {:induction false} ReplaceBySelf(s: string, pat: string)
    ensures ReplaceAll(s, pat, pat) == s
    decreases |s|
  {
    if |pat| == 0 {
      if s != [] {
        ReplaceBySelf(s[1..], pat);
        assert s == [s[0]] + s[1..];
      }
    } else if |s| < |pat| {
    } else if s[..|pat|] == pat {
      ReplaceBySelf(s[|pat|..], pat);
      assert s == s[..|pat|] + s[|pat|..];
    } else {
      ReplaceBySelf(s[1..], pat);
      assert s == [s[0]] + s[1..];
    }
  }

  /** `pat.join(s.split(pat)) == s`. */
  lemma SplitJoinRoundTrip(s: string, pat: string)
    requires |pat| > 0
    ensures Join(Split(s, pat), pat) == s
  {
    ReplaceIsJoinOfSplit(s, pat, pat);
    ReplaceBySelf(s, pat);
  }

  /** The first piece of a split is a prefix of the string. */
  lemma {:induction false} SplitHeadIsPrefix(s: string, pat: string)
    requires |pat| > 0
    ensures Split(s, pat)[0] <= s
    decreases |s|
  {
    if |s| < |pat| {
    } else if s[..|pat|] == pat {
    } else {
      SplitHeadIsPrefix(s[1..], pat);
      var h := Split(s[1..], pat)[0];
      assert s == [s[0]] + s[1..];
      assert [s[0]] + h <= [s[0]] + s[1..];
    }
  }

  lemma OccursInTail(s: string, pat: string, j: int)
    requires |s| > 0 && OccursAt(s[1..], pat, j)
    ensures OccursAt(s, pat, j + 1)
  {
    assert s[1..][j..j + |pat|] == s[j + 1..j + 1 + |pat|];
  }

  /** No piece of a split contains the separator: every occurrence was cut out. */
  lemma {:induction false} SplitPiecesAreFree(s: string, pat: string)
    requires |pat| > 0
    ensures forall k :: 0 <= k < |Split(s, pat)| ==> !Occurs(Split(s, pat)[k], pat)
    decreases |s|
  {
    var parts := Split(s, pat);
    if |s| < |pat| {
      assert parts == [s];
      assert forall i :: !OccursAt(s, pat, i);
    } else if s[..|pat|] == pat {
      var t := Split(s[|pat|..], pat);
      SplitPiecesAreFree(s[|pat|..], pat);
      assert parts == [[]] + t;
      assert forall i :: !OccursAt([], pat, i);
      forall k | 0 <= k < |parts| ensures !Occurs(parts[k], pat) {
        if k > 0 { assert parts[k] == t[k - 1]; }
      }
    } else {
      var t := Split(s[1..], pat);
      SplitPiecesAreFree(s[1..], pat);
      SplitHeadIsPrefix(s[1..], pat);
      var head := [s[0]] + t[0];
      assert parts == [head] + t[1..];
      assert head <= s by {
        assert s == [s[0]] + s[1..];
      }
      forall i | OccursAt(head, pat, i) ensures false {
        if i > 0 {
          assert head[1..] == t[0];
          assert head[i..i + |pat|] == t[0][i - 1..i - 1 + |pat|];
          assert OccursAt(t[0], pat, i - 1);
        }
      }
      forall k | 0 <= k < |parts| ensures !Occurs(parts[k], pat) {
        if k > 0 { assert parts[k] == t[k]; }
      }
    }
  }

  /** A string in which the pattern does not occur is left as it is. */
  lemma {:induction false} ReplaceAbsent(s: string, pat: string, rep: string)
    requires |pat| > 0 && !Occurs(s, pat)
    ensures ReplaceAll(s, pat, rep) == s
    decreases |s|
  {
    if |s| < |pat| {
    } else if s[..|pat|] == pat {
      assert OccursAt(s, pat, 0);
    } else {
      forall j | OccursAt(s[1..], pat, j) ensures false {
        OccursInTail(s, pat, j);
      }
      ReplaceAbsent(s[1..], pat, rep);
      assert s == [s[0]] + s[1..];
    }
  }

  /** `ch.isupper()` for the ASCII letters. */
  predicate IsUpper(c: char)
  {
    'A' <= c <= 'Z'
  }

  /** `c.upper()`: ASCII lower-case letters, and the non-ASCII characters whose upper-case
      form is made only of ASCII letters (dotless i, long s, sharp s, the Latin ligatures).
      Every other character is kept: its real upper-case form is again non-ASCII. */
  function UpperChar(c: char): string
  {
    if 'a' <= c <= 'z' then [(c as int - 32) as char]
    else if c == '\U{0131}' then "I"
    else if c == '\U{017F}' then "S"
    else if c == '\U{00DF}' then "SS"
    else if c == '\U{FB00}' then "FF"
    else if c == '\U{FB01}' then "FI"
    else if c == '\U{FB02}' then "FL"
    else if c == '\U{FB03}' then "FFI"
    else if c == '\U{FB04}' then "FFL"
    else if c == '\U{FB05}' || c == '\U{FB06}' then "ST"
    else [c]
  }

  /** `s.upper()`. */
  function Upper(s: string): string
    decreases |s|
  {
    if s == [] then [] else UpperChar(s[0]) + Upper(s[1..])
  }

  /** Upper-casing leaves a word of ASCII capitals as it is. */
  lemma {:induction false} UpperKeepsCapitals(s: string)
    requires forall i :: 0 <= i < |s| ==> 'A' <= s[i] <= 'Z'
    ensures Upper(s) == s
    decreases |s|
  {
    if s != [] {
      UpperKeepsCapitals(s[1..]);
      assert s == [s[0]] + s[1..];
    }
  }

  /** Two ASCII letters that differ at most in case. */
  predicate SameLetterIgnoringCase(a: char, b: char)
  {
    ('A' <= a <= 'Z' || 'a' <= a <= 'z') &&
    (b == a || b as int == a as int + 32 || b as int == a as int - 32) &&
    ('A' <= b <= 'Z' || 'a' <= b <= 'z')
  }

  /** Upper-casing makes two ASCII words that differ only in case the same. */
  lemma {:induction false} UpperIgnoresCase(s: string, t: string)
    requires |s| == |t|
    requires forall i :: 0 <= i < |s| ==> SameLetterIgnoringCase(s[i], t[i])
    ensures Upper(s) == Upper(t)
    decreases |s|
  {
    if s != [] {
      UpperIgnoresCase(s[1..], t[1..]);
      assert UpperChar(s[0]) == UpperChar(t[0]);
    }
  }
}
