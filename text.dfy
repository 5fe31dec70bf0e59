/** String helpers the relay and the summariser rely on: concatenation of a
    list of fragments, Python's `str.upper()` restricted to ASCII letters, and
    Python's `str.strip()` with no argument (which removes the characters for
    which `str.isspace()` holds from both ends). */
module Text {

  /** The concatenation of `ss` in order: `"".join(ss)`. */
  function Concat(ss: seq<string>): string
  {
    if ss == [] then "" else ss[0] + Concat(ss[1..])
  }

  /** Concatenation distributes over appending lists of fragments. */
  lemma {:induction false} ConcatAppend(a: seq<string>, b: seq<string>)
    ensures Concat(a + b) == Concat(a) + Concat(b)
  {
    if a == [] {
      assert a + b == b;
    } else {
      assert (a + b)[1..] == a[1..] + b;
      ConcatAppend(a[1..], b);
    }
  }

  /** Python's `str.isspace()` for one character: the whitespace set that
      `str.strip()` and `str.split()` use. */
  predicate IsSpace(c: char)
  {
    c == ' ' || ('\t' <= c <= '\r') || ('\U{1c}' <= c <= '\U{1f}')
    || c == '\U{85}' || c == '\U{a0}' || c == '\U{1680}'
    || ('\U{2000}' <= c <= '\U{200a}') || c == '\U{2028}' || c == '\U{2029}'
    || c == '\U{202f}' || c == '\U{205f}' || c == '\U{3000}'
  }

  predicate AllSpace(s: string)
  {
    forall k :: 0 <= k < |s| ==> IsSpace(s[k])
  }

  /** The whitespace `s` starts with. */
  function Leading(s: string): (p: string)
    ensures |p| <= |s| && p == s[..|p|] && AllSpace(p)
    ensures |p| < |s| ==> !IsSpace(s[|p|])
  {
    if s != "" && IsSpace(s[0]) then
      var q := Leading(s[1..]);
      assert [s[0]] + q == s[..1 + |q|];
      [s[0]] + q
    else ""
  }

  /** The whitespace `s` ends with. */
  function Trailing(s: string): (p: string)
    ensures |p| <= |s| && p == s[|s| - |p|..] && AllSpace(p)
    ensures |p| < |s| ==> !IsSpace(s[|s| - |p| - 1])
  {
    if s != "" && IsSpace(s[|s| - 1]) then
      var q := Trailing(s[..|s| - 1]);
      assert q + [s[|s| - 1]] == s[|s| - |q| - 1..];
      q + [s[|s| - 1]]
    else ""
  }

  /** Python's `s.strip()`: the leading whitespace is cut off, then the
      trailing whitespace of what remains. */
  function Strip(s: string): string
  {
    var t := s[|Leading(s)|..];
    t[..|t| - |Trailing(t)|]
  }

  /** What `strip` keeps: the input is its leading whitespace, then the
      result, then more whitespace; the result neither starts nor ends with
      whitespace. */
  lemma StripShape(s: string)
    ensures var post := Trailing(s[|Leading(s)|..]);
      && s == Leading(s) + Strip(s) + post
      && AllSpace(Leading(s)) && AllSpace(post)
      && (Strip(s) == "" || (!IsSpace(Strip(s)[0]) && !IsSpace(Strip(s)[|Strip(s)| - 1])))
  {
    StripSplit(s);
    StripEnds(s);
  }

  lemma StripSplit(s: string)
    ensures s == Leading(s) + Strip(s) + Trailing(s[|Leading(s)|..])
  {
    var pre := Leading(s);
    var t := s[|pre|..];
    var post := Trailing(t);
    LeadingSplit(s);
    StripRest(s);
    SplitThree(s, pre, t, Strip(s), post);
  }

  /** What remains after the leading whitespace is the result followed by
      the trailing whitespace. */
  lemma StripRest(s: string)
    ensures var t := s[|Leading(s)|..]; t == Strip(s) + Trailing(t)
  {
    var t := s[|Leading(s)|..];
    TrailingSplit(t);
  }

  lemma SplitThree(s: string, pre: string, t: string, mid: string, post: string)
    requires s == pre + t && t == mid + post
    ensures s == pre + mid + post
  {
  }

  lemma LeadingSplit(s: string)
    ensures s == Leading(s) + s[|Leading(s)|..]
  {
    var pre := Leading(s);
    assert pre == s[..|pre|];
  }

  lemma TrailingSplit(t: string)
    ensures t == t[..|t| - |Trailing(t)|] + Trailing(t)
  {
    var post := Trailing(t);
    assert post == t[|t| - |post|..];
  }

  lemma StripEnds(s: string)
    ensures Strip(s) == "" || (!IsSpace(Strip(s)[0]) && !IsSpace(Strip(s)[|Strip(s)| - 1]))
  {
    var n := |Leading(s)|;
    var t := s[n..];
    var m := |Trailing(t)|;
    var r := Strip(s);
    assert r == t[..|t| - m];
    if r != "" {
      assert n < |s|;
      assert r[0] == t[0] == s[n];
      assert m < |t|;
      assert r[|r| - 1] == t[|t| - m - 1];
    }
  }

  /** A string of whitespace strips to the empty string, and only such a
      string does. */
  lemma StripEmpty(s: string)
    ensures Strip(s) == "" <==> AllSpace(s)
  {
    StripShape(s);
    var pre := Leading(s);
    var post := Trailing(s[|pre|..]);
    if Strip(s) == "" {
      assert s == pre + post;
      assert pre == s;
    } else {
      assert s[|pre|] == Strip(s)[0];
    }
  }

  /** Stripping twice is stripping once. */
  lemma StripIdempotent(s: string)
    ensures Strip(Strip(s)) == Strip(s)
  {
    StripEnds(s);
    StripClean(Strip(s));
  }

  /** A string that neither starts nor ends with whitespace strips to
      itself. */
  lemma StripClean(r: string)
    requires r == "" || (!IsSpace(r[0]) && !IsSpace(r[|r| - 1]))
    ensures Strip(r) == r
  {
    assert Leading(r) == "";
    assert r[0..] == r;
    assert Trailing(r) == "";
    assert r[..|r|] == r;
  }

  /** Python's `str.upper()` on one character, ASCII letters only. */
  function UpperChar(c: char): char
  {
    if 'a' <= c <= 'z' then (c as int - 32) as char else c
  }

  /** Python's `str.upper()`, ASCII letters only. */
  function Upper(s: string): (r: string)
    ensures |r| == |s|
    ensures forall i :: 0 <= i < |s| ==> r[i] == UpperChar(s[i])
  {
    if s == "" then "" else [UpperChar(s[0])] + Upper(s[1..])
  }

  /** `upper` has no effect on a line break, so it adds none to a role label. */
  lemma UpperKeepsLineBreaks(s: string)
    ensures forall i :: 0 <= i < |s| ==> (Upper(s)[i] == '\n' <==> s[i] == '\n')
  {
  }

  /** Number of occurrences of `c` in `s`. */
  function Count(c: char, s: string): nat
  {
    if s == "" then 0 else (if s[0] == c then 1 else 0) + Count(c, s[1..])
  }

  lemma {:induction false} CountAppend(c: char, a: string, b: string)
    ensures Count(c, a + b) == Count(c, a) + Count(c, b)
  {
    if a == "" {
      assert a + b == b;
    } else {
      assert (a + b)[1..] == a[1..] + b;
      CountAppend(c, a[1..], b);
    }
  }

  lemma {:induction false} CountAbsent(c: char, s: string)
    requires forall i :: 0 <= i < |s| ==> s[i] != c
    ensures Count(c, s) == 0
  {
    if s != "" {
      CountAbsent(c, s[1..]);
    }
  }
}
