/** The Python string operations the assistant relies on: the substring test
    `t in s`, `s.split(sep)` with a one-character separator, `s.strip()` and
    `s.lower()`. */
module Text {

  // ---------------------------------------------------------------------------
  // Substring test
  // ---------------------------------------------------------------------------

  /** Python's `t in s` on strings: `t` occurs in `s` as a contiguous run. */
  function Contains(s: string, t: string): (r: bool)
    ensures t <= s ==> r
    ensures r ==> |t| <= |s|
    decreases |s|
  {
    t <= s || (|s| > 0 && Contains(s[1..], t))
  }

  /** An occurrence of `t` at position `i` makes `t in s` true. */
  lemma {:induction false} ContainsAt(s: string, t: string, i: nat)
    requires i + |t| <= |s| && s[i..i + |t|] == t
    ensures Contains(s, t)
    decreases i
  {
    if i == 0 {
      assert s[..|t|] == t;
    } else {
      assert s[1..][i - 1..i - 1 + |t|] == s[i..i + |t|];
      ContainsAt(s[1..], t, i - 1);
    }
  }

  /** Conversely, when `t in s` holds there is a position where `t` occurs. */
  lemma {:induction false} ContainsIndex(s: string, t: string) returns (i: nat)
    requires Contains(s, t)
    ensures i + |t| <= |s| && s[i..i + |t|] == t
    decreases |s|
  {
    if t <= s {
      i := 0;
    } else {
      var j := ContainsIndex(s[1..], t);
      i := j + 1;
      assert s[1..][j..j + |t|] == s[i..i + |t|];
    }
  }

  /** Every string occurs in a string that is built around it. */
  lemma ContainsInfix(a: string, t: string, b: string)
    ensures Contains(a + t + b, t)
  {
    assert (a + t + b)[|a|..|a| + |t|] == t;
    ContainsAt(a + t + b, t, |a|);
  }

  // ---------------------------------------------------------------------------
  // split and its inverse, join
  // ---------------------------------------------------------------------------

  /** Python's `sep.join(parts)`. */
  function Join(parts: seq<string>, sep: char): (s: string)
  {
    if |parts| == 0 then ""
    else if |parts| == 1 then parts[0]
    else parts[0] + [sep] + Join(parts[1..], sep)
  }

  /** Python's `s.split(sep)` for a one-character separator: the pieces of `s`
      between separators, read from left to right. */
  function Split(s: string, sep: char): (parts: seq<string>)
    ensures |parts| >= 1
    decreases |s|
  {
    if s == [] then [""]
    else
      var rest := Split(s[1..], sep);
      if s[0] == sep then [""] + rest
      else [[s[0]] + rest[0]] + rest[1..]
  }

  /** There is one more piece than there are separators. */
  lemma {:induction false} SplitCount(s: string, sep: char)
    ensures |Split(s, sep)| == multiset(s)[sep] + 1
    decreases |s|
  {
    if s != [] {
      assert s == [s[0]] + s[1..];
      SplitCount(s[1..], sep);
    }
  }

  /** No piece holds a separator. */
  lemma {:induction false} SplitPieces(s: string, sep: char)
    ensures forall i :: 0 <= i < |Split(s, sep)| ==> sep !in Split(s, sep)[i]
    decreases |s|
  {
    if s != [] {
      SplitPieces(s[1..], sep);
      var rest := Split(s[1..], sep);
      if s[0] != sep {
        var parts := Split(s, sep);
        assert forall i :: 1 <= i < |parts| ==> parts[i] == rest[i];
      }
    }
  }

  /** Joining the pieces back with the separator gives the string again. */
  lemma {:induction false} SplitJoin(s: string, sep: char)
    ensures Join(Split(s, sep), sep) == s
    decreases |s|
  {
    if s != [] {
      SplitJoin(s[1..], sep);
      var rest := Split(s[1..], sep);
      var parts := Split(s, sep);
      if s[0] == sep {
        assert parts[1..] == rest;
      } else {
        assert parts[1..] == rest[1..];
        if |rest| > 1 {
          assert Join(rest, sep) == rest[0] + [sep] + Join(rest[1..], sep);
        }
      }
      assert s == [s[0]] + s[1..];
    }
  }

  /** Splitting at a separator splits each side on its own. */
  lemma {:induction false} SplitAround(x: string, sep: char, y: string)
    ensures Split(x + [sep] + y, sep) == Split(x, sep) + Split(y, sep)
    decreases |x|
  {
    if x == [] {
      assert [sep] + y == x + [sep] + y;
      assert ([sep] + y)[1..] == y;
    } else {
      var xy := x + [sep] + y;
      assert xy[0] == x[0];
      assert xy[1..] == x[1..] + [sep] + y;
      SplitAround(x[1..], sep, y);
    }
  }

  /** A string without the separator splits into itself alone. */
  lemma SplitWhole(s: string, sep: char)
    requires sep !in s
    ensures Split(s, sep) == [s]
  {
    SplitCount(s, sep);
    SplitJoin(s, sep);
    assert sep !in multiset(s);
  }

  // ---------------------------------------------------------------------------
  // strip
  // ---------------------------------------------------------------------------

  /** The characters Python's `str.isspace()` accepts, which `strip()` removes. */
  predicate IsSpace(c: char): (r: bool)
    ensures r ==> !('0' <= c <= '9') && !('A' <= c <= 'Z') && !('a' <= c <= 'z')
  {
    c == ' ' || ('\t' <= c <= '\r') || ('\U{1C}' <= c <= '\U{1F}')
    || c == '\U{85}' || c == '\U{A0}' || c == '\U{1680}'
    || ('\U{2000}' <= c <= '\U{200A}') || c == '\U{2028}' || c == '\U{2029}'
    || c == '\U{202F}' || c == '\U{205F}' || c == '\U{3000}'
  }

  /** `s.lstrip()`: a suffix of `s`. */
  function TrimStart(s: string): (r: string)
    ensures |r| <= |s| && r == s[|s| - |r|..]
    decreases |s|
  {
    if s != [] && IsSpace(s[0]) then TrimStart(s[1..]) else s
  }

  /** `s.rstrip()`: a prefix of `s`. */
  function TrimEnd(s: string): (r: string)
    ensures |r| <= |s| && r == s[..|r|]
    decreases |s|
  {
    if s != [] && IsSpace(s[|s| - 1]) then TrimEnd(s[..|s| - 1]) else s
  }

  /** `s.strip()`. */
  function Strip(s: string): (r: string)
    ensures |r| <= |s|
  {
    TrimEnd(TrimStart(s))
  }

  /** `lstrip()` removes whitespace only, and all of the leading whitespace. */
  lemma {:induction false} TrimStartSpaces(s: string)
    ensures forall i :: 0 <= i < |s| - |TrimStart(s)| ==> IsSpace(s[i])
    ensures TrimStart(s) != [] ==> !IsSpace(TrimStart(s)[0])
    decreases |s|
  {
    if s != [] && IsSpace(s[0]) {
      TrimStartSpaces(s[1..]);
    }
  }

  /** `rstrip()` removes whitespace only, and all of the trailing whitespace. */
  lemma {:induction false} TrimEndSpaces(s: string)
    ensures forall i :: |TrimEnd(s)| <= i < |s| ==> IsSpace(s[i])
    ensures TrimEnd(s) != [] ==> !IsSpace(TrimEnd(s)[|TrimEnd(s)| - 1])
    decreases |s|
  {
    if s != [] && IsSpace(s[|s| - 1]) {
      TrimEndSpaces(s[..|s| - 1]);
    }
  }

  /** What `strip()` keeps is one run of `s` that neither starts nor ends with
      whitespace, and everything around that run is whitespace. */
  lemma StripRun(s: string) returns (start: nat)
    ensures start + |Strip(s)| <= |s| && Strip(s) == s[start..start + |Strip(s)|]
    ensures Strip(s) != [] ==> !IsSpace(Strip(s)[0]) && !IsSpace(Strip(s)[|Strip(s)| - 1])
    ensures forall i :: 0 <= i < start ==> IsSpace(s[i])
    ensures forall i :: start + |Strip(s)| <= i < |s| ==> IsSpace(s[i])
  {
    var t := TrimStart(s);
    var r := TrimEnd(t);
    start := |s| - |t|;
    assert Strip(s) == r;
    assert forall i :: 0 <= i < start ==> IsSpace(s[i]) by {
      TrimStartSpaces(s);
    }
    assert start + |r| <= |s| && r == s[start..start + |r|]
        && forall i :: start + |r| <= i < |s| ==> IsSpace(s[i]) by {
      TrimEndSpaces(t);
      SpacesAround(s, t, r, start);
    }
    assert r != [] ==> !IsSpace(r[0]) && !IsSpace(r[|r| - 1]) by {
      StripEnds(s);
    }
  }

  /** Whitespace after a run that starts `t`, a suffix of `s`, is whitespace at
      the end of `s`. */
  lemma SpacesAround(s: string, t: string, r: string, start: nat)
    requires start + |t| == |s| && t == s[start..] && |r| <= |t| && r == t[..|r|]
    requires forall i :: |r| <= i < |t| ==> IsSpace(t[i])
    ensures start + |r| <= |s| && r == s[start..start + |r|]
    ensures forall i :: start + |r| <= i < |s| ==> IsSpace(s[i])
  {
    forall i | start + |r| <= i < |s|
      ensures IsSpace(s[i])
    {
      assert s[i] == t[i - start];
    }
  }

  /** What `strip()` keeps neither starts nor ends with whitespace. */
  lemma StripEnds(s: string)
    ensures Strip(s) != [] ==> !IsSpace(Strip(s)[0]) && !IsSpace(Strip(s)[|Strip(s)| - 1])
  {
    var t := TrimStart(s);
    var r := TrimEnd(t);
    assert Strip(s) == r;
    TrimStartSpaces(s);
    TrimEndSpaces(t);
    assert r != [] ==> t[0] == r[0];
  }

  /** `strip()` gives the empty string exactly for all-whitespace strings. */
  lemma StripEmpty(s: string)
    ensures Strip(s) == [] <==> forall i :: 0 <= i < |s| ==> IsSpace(s[i])
  {
    var start := StripRun(s);
    StripEnds(s);
    if Strip(s) != [] {
      assert !IsSpace(s[start]);
    }
  }

  /** Hence the stripped string occurs in the original one. */
  lemma StripInfix(s: string)
    ensures Contains(s, Strip(s))
  {
    var start := StripRun(s);
    ContainsAt(s, Strip(s), start);
  }

  /** A string already without outer whitespace is left as it is by `strip()`. */
  lemma StripUntrimmed(s: string)
    requires s != [] ==> !IsSpace(s[0]) && !IsSpace(s[|s| - 1])
    ensures Strip(s) == s
  {
  }

  // ---------------------------------------------------------------------------
  // lower
  // ---------------------------------------------------------------------------

  /** `c.lower()` for the Latin and Cyrillic capitals; other characters are
      returned unchanged. */
  function LowerChar(c: char): (d: char)
    ensures !('A' <= d <= 'Z') && !('\U{400}' <= d <= '\U{42F}')
    ensures d == c || ('A' <= c <= 'Z') || ('\U{400}' <= c <= '\U{42F}')
  {
    if 'A' <= c <= 'Z' then (c as int + 0x20) as char
    else if '\U{410}' <= c <= '\U{42F}' then (c as int + 0x20) as char
    else if '\U{400}' <= c <= '\U{40F}' then (c as int + 0x50) as char
    else c
  }

  /** `s.lower()`, character by character. */
  function Lower(s: string): (r: string)
    ensures |r| == |s|
    decreases |s|
  {
    if s == [] then [] else [LowerChar(s[0])] + Lower(s[1..])
  }

  /** Each character of `s.lower()` is the lowered character of `s`. */
  lemma {:induction false} LowerAt(s: string, i: nat)
    requires i < |s|
    ensures Lower(s)[i] == LowerChar(s[i])
    decreases i
  {
    if i > 0 {
      LowerAt(s[1..], i - 1);
    }
  }

  /** Lowering keeps whitespace whitespace and everything else not. */
  lemma LowerCharSpace(c: char)
    ensures IsSpace(LowerChar(c)) == IsSpace(c)
  {
  }

  /** Lowering twice is lowering once. */
  lemma LowerCharIdempotent(c: char)
    ensures LowerChar(LowerChar(c)) == LowerChar(c)
  {
  }
}
