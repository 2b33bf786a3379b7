/** The POSIX path operations the logger configuration relies on, from
    Python's `os.path` and `pathlib`: `isabs`, `dirname`, `join`, the
    normalised string of `Path(root) / v`, and `Path(p).suffix`. */
module Paths {
  import opened Strings

  /** `os.path.isabs` on POSIX. */
  predicate IsAbsolute(p: string)
  {
    |p| > 0 && p[0] == '/'
  }

  /** A string with no separator in it. */
  predicate NoSlash(x: string)
  {
    forall k :: 0 <= k < |x| ==> x[k] != '/'
  }

  /** A non-empty string whose last character is not a separator. */
  predicate EndsClean(x: string)
  {
    x != "" && x[|x| - 1] != '/'
  }

  /** The text after the last '/' of `p` (all of `p` when it has none). */
  function LastSegment(p: string): (seg: string)
    ensures NoSlash(seg)
    ensures |seg| <= |p| && seg == p[|p| - |seg|..]
  {
    p[LastIndexOf(p, '/') + 1..]
  }

  /** The components `pathlib` keeps: the '/'-separated segments of `p`
      other than empty ones and "."; so the last one, when there is one, is
      not empty and does not end with a separator. */
  function Parts(p: string): (ps: seq<string>)
    ensures ps != [] ==> EndsClean(ps[|ps| - 1])
    decreases |p|
  {
    var i := LastIndexOf(p, '/');
    var seg := LastSegment(p);
    var init := if i < 0 then [] else Parts(p[..i]);
    if seg == "" || seg == "." then init else init + [seg]
  }

  /** The components joined by single slashes. */
  function Join(ps: seq<string>): (s: string)
    ensures ps != [] ==> |s| >= |ps[|ps| - 1]| && s[|s| - |ps[|ps| - 1]|..] == ps[|ps| - 1]
  {
    if ps == [] then ""
    else if |ps| == 1 then ps[0]
    else Join(ps[..|ps| - 1]) + "/" + ps[|ps| - 1]
  }

  /** The root part of a POSIX path as `pathlib` keeps it: exactly two
      leading slashes survive, one or three and more become one. */
  function Anchor(p: string): (a: string)
    ensures a == "" || a == "/" || a == "//"
    ensures a != "" <==> IsAbsolute(p)
  {
    if |p| >= 2 && p[0] == '/' && p[1] == '/' && (|p| == 2 || p[2] != '/') then "//"
    else if IsAbsolute(p) then "/"
    else ""
  }

  /** `str(Path(root) / rel)` for a relative `rel`: the anchor of `root`
      followed by the components of both, or "." when there are none. */
  function RootJoin(root: string, rel: string): (r: string)
    ensures IsAbsolute(root) ==> IsAbsolute(r)
  {
    AnchorJoin(Anchor(root), Parts(root) + Parts(rel))
  }

  /** An anchor followed by the joined components, or "." for nothing. */
  function AnchorJoin(anchor: string, ps: seq<string>): (r: string)
    ensures anchor != "" && anchor[0] == '/' ==> IsAbsolute(r)
  {
    if anchor == "" && ps == [] then "." else anchor + Join(ps)
  }

  /** Joining components whose last one ends cleanly gives a string that
      ends cleanly. */
  lemma JoinEnd(ps: seq<string>)
    requires ps != [] && EndsClean(ps[|ps| - 1])
    ensures EndsClean(Join(ps))
  {
    var last := ps[|ps| - 1];
    var j := Join(ps);
    assert j[|j| - |last|..] == last;
    assert j[|j| - 1] == last[|last| - 1];
  }

  /** Once there is a component to join, the joined path does not end with
      a separator. */
  lemma RootJoinEnd(root: string, rel: string)
    requires Parts(root) + Parts(rel) != []
    ensures EndsClean(RootJoin(root, rel))
  {
    AnchorJoinEnd(Anchor(root), Parts(root), Parts(rel));
  }

  /** The same for any anchor and two lists of components whose last
      elements end cleanly. */
  lemma AnchorJoinEnd(anchor: string, pr: seq<string>, pv: seq<string>)
    requires pr + pv != []
    requires pr != [] ==> EndsClean(pr[|pr| - 1])
    requires pv != [] ==> EndsClean(pv[|pv| - 1])
    ensures EndsClean(AnchorJoin(anchor, pr + pv))
  {
    var ps := pr + pv;
    if pv == [] {
      assert ps[|ps| - 1] == pr[|pr| - 1];
    } else {
      assert ps[|ps| - 1] == pv[|pv| - 1];
    }
    JoinEnd(ps);
    var j := Join(ps);
    var r := anchor + j;
    assert r[|r| - 1] == j[|j| - 1];
  }

  /** `PurePath.name`: the last kept component, or "". */
  function Name(p: string): string
  {
    var ps := Parts(p);
    if ps == [] then "" else ps[|ps| - 1]
  }

  /** `PurePath.suffix`: from the last '.' of the name, provided that dot is
      neither the first nor the last character of the name. */
  function Suffix(p: string): (x: string)
    ensures x == "" || (|x| >= 2 && x[0] == '.')
  {
    var n := Name(p);
    var i := LastIndexOf(n, '.');
    if 0 < i < |n| - 1 then n[i..] else ""
  }

  /** `os.path.dirname` on POSIX: everything up to the last '/', with the
      trailing slashes removed unless it consists of slashes only. */
  function Dirname(p: string): string
  {
    var head := p[..LastIndexOf(p, '/') + 1];
    if exists k :: 0 <= k < |head| && head[k] != '/' then TrimSlashes(head) else head
  }

  function TrimSlashes(s: string): (r: string)
    ensures |r| <= |s|
  {
    if s != [] && s[|s| - 1] == '/' then TrimSlashes(s[..|s| - 1]) else s
  }

  /** `os.path.join(a, b)` for two components on POSIX. */
  function PathJoin(a: string, b: string): (r: string)
    ensures IsAbsolute(a) ==> IsAbsolute(r)
    ensures !IsAbsolute(b) ==> |r| >= |a| && r[..|a|] == a
  {
    if IsAbsolute(b) then b
    else if a == "" || a[|a| - 1] == '/' then a + b
    else a + "/" + b
  }

  /** A path written with a trailing separator names its last directory. */
  lemma DirectoryName(head: string, seg: string)
    requires seg != "" && seg != "." && NoSlash(seg)
    ensures Name(head + "/" + seg + "/") == seg
  {
    var r := head + "/" + seg;
    var q := r + "/";
    LastIndexOfAppend(q, "", '/');
    assert q + "" == q;
    assert LastIndexOf(q, '/') == |r|;
    assert LastSegment(q) == "";
    assert q[..|r|] == r;
    LastIndexOfAppend(head + "/", seg, '/');
    assert r == (head + "/") + seg;
    assert LastIndexOf(r, '/') == |head|;
    assert LastSegment(r) == seg;
    assert Parts(r) == Parts(r[..|head|]) + [seg];
  }

  /** A path whose text after its last separator is a real name has that
      name as its `PurePath.name`. */
  lemma NameIsLastSegment(q: string)
    requires LastSegment(q) != "" && LastSegment(q) != "."
    ensures Name(q) == LastSegment(q)
  {
    var i := LastIndexOf(q, '/');
    var init := if i < 0 then [] else Parts(q[..i]);
    assert Parts(q) == init + [LastSegment(q)];
  }

  /** Appending text without a separator extends the last segment. */
  lemma LastSegmentAppend(p: string, t: string)
    requires '/' !in t
    ensures LastSegment(p + t) == LastSegment(p) + t
  {
    LastIndexOfAppend(p, t, '/');
    var i := LastIndexOf(p, '/');
    assert (p + t)[i + 1..] == p[i + 1..] + t;
  }

  /** A `c` with no `c` after it is the last one. */
  lemma {:induction false} LastIndexAt(s: string, i: int, c: char)
    requires 0 <= i < |s| && s[i] == c
    requires forall j :: i < j < |s| ==> s[j] != c
    ensures LastIndexOf(s, c) == i
    decreases |s|
  {
    if i < |s| - 1 {
      var s' := s[..|s| - 1];
      assert forall j :: i < j < |s'| ==> s'[j] == s[j];
      LastIndexAt(s', i, c);
    }
  }

  /** The characters of `seg + ".log"` from `|seg|` on. */
  lemma LogExtensionChars(seg: string)
    ensures var n := seg + ".log";
            && |n| == |seg| + 4 && n[|seg|] == '.'
            && (forall j :: |seg| < j < |n| ==> n[j] != '.')
            && n[|seg|..] == ".log"
  {
    var n := seg + ".log";
    var i := |seg|;
    assert n[i] == '.' && n[i + 1] == 'l' && n[i + 2] == 'o' && n[i + 3] == 'g';
  }

  /** The last dot of `seg + ".log"` is the one of ".log". */
  lemma LastDotOfLog(seg: string)
    ensures LastIndexOf(seg + ".log", '.') == |seg|
    ensures (seg + ".log")[|seg|..] == ".log"
  {
    LogExtensionChars(seg);
    LastIndexAt(seg + ".log", |seg|, '.');
  }

  /** Appending ".log" to a path whose last character is not a separator
      always yields a path whose suffix is ".log". */
  lemma LogExtensionIsSuffix(p: string)
    requires p != "" && p[|p| - 1] != '/'
    ensures Suffix(p + ".log") == ".log"
  {
    var q := p + ".log";
    var seg := LastSegment(p);
    assert seg != "" by {
      assert LastIndexOf(p, '/') < |p| - 1;
    }
    LastSegmentAppend(p, ".log");
    NameIsLastSegment(q);
    LastDotOfLog(seg);
    assert Name(q) == seg + ".log";
  }

  /** A path that ends with a separator gets the file name ".log", which
      `pathlib` does not count as a suffix (its only dot is its first
      character). */
  lemma TrailingSeparatorGetsNoSuffix(p: string)
    requires p != "" && p[|p| - 1] == '/'
    ensures Suffix(p + ".log") == ""
  {
    var q := p + ".log";
    LastIndexOfAppend(p, ".log", '/');
    assert LastIndexOf(p, '/') == |p| - 1;
    assert LastSegment(q) == ".log";
    assert Name(q) == ".log";
    LastIndexOfAppend(".", "log", '.');
    assert ".log" == "." + "log";
  }
}
