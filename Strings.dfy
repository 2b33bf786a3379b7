/** The few pieces of Python's `str` behaviour the modelled code relies on:
    `strip()`, `upper()`, `lower()` and `rfind()`, plus a distinctness
    predicate on sequences. */
module Strings {

  /** `str.isspace()` for one character: the Unicode white-space set Python
      strips (ASCII controls 9-13 and 28-31, space, NEL, NBSP and the
      Unicode space separators). */
  predicate IsSpace(c: char)
  {
    || c == ' ' || ('\t' <= c <= '\r') || ('\U{1c}' <= c <= '\U{1f}')
    || c == '\U{85}' || c == '\U{a0}' || c == '\U{1680}'
    || ('\U{2000}' <= c <= '\U{200a}') || c == '\U{2028}' || c == '\U{2029}'
    || c == '\U{202f}' || c == '\U{205f}' || c == '\U{3000}'
  }

  /** `s.lstrip()`: `s` without its leading white space. */
  function TrimStart(s: string): (r: string)
    ensures |r| <= |s|
  {
    if s != [] && IsSpace(s[0]) then TrimStart(s[1..]) else s
  }

  /** `s.rstrip()`: `s` without its trailing white space. */
  function TrimEnd(s: string): (r: string)
    ensures |r| <= |s|
  {
    if s != [] && IsSpace(s[|s| - 1]) then TrimEnd(s[..|s| - 1]) else s
  }

  /** `s.strip()`. */
  function Strip(s: string): (r: string)
    ensures |r| <= |s|
  {
    TrimEnd(TrimStart(s))
  }

  /** `lstrip` removes exactly the leading run of white space. */
  lemma {:induction false} TrimStartSpec(s: string)
    ensures var r := TrimStart(s);
      && r == s[|s| - |r|..]
      && (r == [] || !IsSpace(r[0]))
      && forall k :: 0 <= k < |s| - |r| ==> IsSpace(s[k])
  {
    if s != [] && IsSpace(s[0]) {
      TrimStartSpec(s[1..]);
    }
  }

  /** `rstrip` removes exactly the trailing run of white space. */
  lemma {:induction false} TrimEndSpec(s: string)
    ensures var r := TrimEnd(s);
      && r == s[..|r|]
      && (r == [] || !IsSpace(r[|r| - 1]))
      && forall k :: |r| <= k < |s| ==> IsSpace(s[k])
  {
    if s != [] && IsSpace(s[|s| - 1]) {
      TrimEndSpec(s[..|s| - 1]);
    }
  }

  /** `strip` leaves a string that neither starts nor ends with white space,
      and leaves nothing exactly when the input is all white space. */
  lemma StripSpec(s: string)
    ensures var r := Strip(s);
      && (r == [] || (!IsSpace(r[0]) && !IsSpace(r[|r| - 1])))
      && (r == [] <==> forall k :: 0 <= k < |s| ==> IsSpace(s[k]))
  {
    var t := TrimStart(s);
    TrimStartSpec(s);
    TrimEndSpec(t);
    var r := TrimEnd(t);
    if r != [] {
      assert r[0] == t[0];
    }
  }

  /** A string that starts and ends with a non-space character is its own strip. */
  lemma StripNoop(s: string)
    requires s == [] || (!IsSpace(s[0]) && !IsSpace(s[|s| - 1]))
    ensures Strip(s) == s
  {
  }

  lemma StripIdempotent(s: string)
    ensures Strip(Strip(s)) == Strip(s)
  {
    StripSpec(s);
    StripNoop(Strip(s));
  }

  /** `str.upper()` on one character: ASCII letters, plus the two non-ASCII
      letters whose upper case is a single ASCII letter (dotless i and long s).
      Every other character is left alone; Python would change some of them,
      but never into a string of ASCII capitals the modelled code compares
      against (see README). */
  function UpperChar(c: char): char
  {
    if 'a' <= c <= 'z' then (c as int - 32) as char
    else if c == '\U{131}' then 'I'
    else if c == '\U{17f}' then 'S'
    else c
  }

  function Upper(s: string): (r: string)
    ensures |r| == |s|
  {
    if s == [] then [] else [UpperChar(s[0])] + Upper(s[1..])
  }

  /** Upper-casing twice changes nothing more. */
  lemma {:induction false} UpperIdempotent(s: string)
    ensures Upper(Upper(s)) == Upper(s)
  {
    if s != [] {
      UpperIdempotent(s[1..]);
      assert Upper(s)[1..] == Upper(s[1..]);
    }
  }

  /** A string of ASCII capitals is already upper case. */
  lemma {:induction false} UpperKeepsCapitals(s: string)
    requires forall k :: 0 <= k < |s| ==> 'A' <= s[k] <= 'Z'
    ensures Upper(s) == s
  {
    if s != [] {
      UpperKeepsCapitals(s[1..]);
    }
  }

  /** `str.lower()` on ASCII letters; other characters are left alone. */
  function LowerChar(c: char): char
  {
    if 'A' <= c <= 'Z' then (c as int + 32) as char else c
  }

  function Lower(s: string): (r: string)
    ensures |r| == |s|
  {
    if s == [] then [] else [LowerChar(s[0])] + Lower(s[1..])
  }

  /** `s.rfind(c)`: the last index holding `c`, or -1. */
  function LastIndexOf(s: string, c: char): (i: int)
    ensures -1 <= i < |s|
    ensures i >= 0 ==> s[i] == c
    ensures forall j :: i < j < |s| ==> s[j] != c
  {
    if s == [] then -1
    else if s[|s| - 1] == c then |s| - 1
    else LastIndexOf(s[..|s| - 1], c)
  }

  /** Appending characters other than `c` does not move the last `c`. */
  lemma {:induction false} LastIndexOfAppend(s: string, t: string, c: char)
    requires c !in t
    ensures LastIndexOf(s + t, c) == LastIndexOf(s, c)
  {
    if t == [] {
      assert s + t == s;
    } else {
      var t' := t[..|t| - 1];
      assert (s + t)[|s + t| - 1] == t[|t| - 1] != c;
      assert (s + t)[..|s + t| - 1] == s + t';
      assert c !in t' by {
        assert forall x :: x in t' ==> x in t;
      }
      LastIndexOfAppend(s, t', c);
    }
  }

  predicate Distinct<T(==)>(s: seq<T>)
  {
    forall i, j :: 0 <= i < j < |s| ==> s[i] != s[j]
  }

  /** A duplicate-free sequence whose elements all occur in `ys` is no longer than `ys`. */
  lemma DistinctLengthBound<T>(xs: seq<T>, ys: seq<T>)
    requires Distinct(xs)
    requires forall x :: x in xs ==> x in ys
    ensures |xs| <= |ys|
  {
    var sx := set x | x in xs;
    var sy := set y | y in ys;
    DistinctSetSize(xs);
    SetSizeBound(ys);
    assert sx <= sy;
    assert |sy| == |sx| + |sy - sx|;
  }

  lemma {:induction false} DistinctSetSize<T>(xs: seq<T>)
    requires Distinct(xs)
    ensures |set x | x in xs| == |xs|
  {
    if xs != [] {
      var rest := xs[1..];
      assert Distinct(rest);
      DistinctSetSize(rest);
      assert (set x | x in xs) == {xs[0]} + (set x | x in rest);
      assert xs[0] !in (set x | x in rest);
    }
  }

  /** A sequence with a repeated first element has fewer distinct elements
      than positions. */
  lemma RepeatShrinksSet<T>(xs: seq<T>)
    requires xs != [] && xs[0] in xs[1..]
    ensures |set x | x in xs| < |xs|
  {
    assert (set x | x in xs) == (set x | x in xs[1..]);
    SetSizeBound(xs[1..]);
  }

  /** A sequence with as many distinct elements as positions has no repeats. */
  lemma {:induction false} FullSetDistinct<T>(xs: seq<T>)
    requires |set x | x in xs| == |xs|
    ensures Distinct(xs)
  {
    if xs != [] {
      var rest := xs[1..];
      if xs[0] in rest {
        RepeatShrinksSet(xs);
        assert false;
      }
      assert (set x | x in xs) == {xs[0]} + (set x | x in rest);
      SetSizeBound(rest);
      FullSetDistinct(rest);
      forall i, j | 0 <= i < j < |xs| ensures xs[i] != xs[j] {
        assert xs[j] == rest[j - 1];
        if i > 0 {
          assert xs[i] == rest[i - 1];
        }
      }
    }
  }

  lemma {:induction false} SetSizeBound<T>(ys: seq<T>)
    ensures |set y | y in ys| <= |ys|
  {
    if ys != [] {
      var rest := ys[1..];
      SetSizeBound(rest);
      assert (set y | y in ys) == {ys[0]} + (set y | y in rest);
    }
  }
}
