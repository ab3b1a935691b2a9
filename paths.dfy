/** Paths as "/"-separated segment lists, and how the "/data/" → "/export/" rewrite
    acts on them. */
module Paths {
  import opened Strings

  /** "/" before every segment. */
  function Join(segs: seq<string>): (r: string)
    ensures segs == [] <==> r == []
    ensures segs != [] ==> r[0] == '/'
    decreases |segs|
  {
    if segs == [] then [] else "/" + segs[0] + Join(segs[1..])
  }

  /** A segment the rewrite passes over: no "/" in it, and not "data". */
  predicate Plain(s: string) {
    '/' !in s && s != "data"
  }

  lemma {:induction false} JoinAppend(a: seq<string>, b: seq<string>)
    ensures Join(a + b) == Join(a) + Join(b)
    decreases |a|
  {
    if a == [] {
      assert a + b == b;
    } else {
      assert (a + b)[0] == a[0];
      assert (a + b)[1..] == a[1..] + b;
      JoinAppend(a[1..], b);
    }
  }

  /** The index of the first "/" in `s`, or its length. */
  function FirstSlash(s: string): (i: nat)
    ensures i <= |s|
    ensures forall k :: 0 <= k < i ==> s[k] != '/'
    ensures i < |s| ==> s[i] == '/'
    decreases |s|
  {
    if s == [] || s[0] == '/' then 0 else 1 + FirstSlash(s[1..])
  }

  lemma FirstSlashAfter(x: string, xs: string)
    requires '/' !in x
    requires xs == [] || xs[0] == '/'
    ensures FirstSlash(x + xs) == |x|
  {
    var s := x + xs;
    var i := FirstSlash(s);
    assert forall k :: 0 <= k < |x| ==> s[k] == x[k];
    assert |x| < |s| ==> s[|x|] == xs[0];
  }

  /** A segment followed by the rest of a path splits at the first "/". */
  lemma SplitAtSlash(x: string, xs: string, y: string, ys: string)
    requires '/' !in x && '/' !in y
    requires xs == [] || xs[0] == '/'
    requires ys == [] || ys[0] == '/'
    requires x + xs == y + ys
    ensures x == y && xs == ys
  {
    var s := x + xs;
    FirstSlashAfter(x, xs);
    FirstSlashAfter(y, ys);
    assert x == s[..|x|] && y == s[..|y|];
    assert xs == s[|x|..] && ys == s[|y|..];
  }

  /** Paths of "/"-free segments determine their segments. */
  lemma {:induction false} JoinInjective(a: seq<string>, b: seq<string>)
    requires forall k :: 0 <= k < |a| ==> '/' !in a[k]
    requires forall k :: 0 <= k < |b| ==> '/' !in b[k]
    requires Join(a) == Join(b)
    ensures a == b
    decreases |a|
  {
    if a != [] {
      assert Join(a)[1..] == a[0] + Join(a[1..]);
      assert Join(b)[1..] == b[0] + Join(b[1..]);
      SplitAtSlash(a[0], Join(a[1..]), b[0], Join(b[1..]));
      JoinInjective(a[1..], b[1..]);
      assert a == [a[0]] + a[1..] && b == [b[0]] + b[1..];
    }
  }

  /** A segment the rewrite of "/" + `w` + "/" passes over: no "/" in it, and not `w`. */
  predicate Other(s: string, w: string) {
    '/' !in s && s != w
  }

  predicate AllOther(segs: seq<string>, w: string) {
    forall k :: 0 <= k < |segs| ==> Other(segs[k], w)
  }

  lemma AllOtherTail(segs: seq<string>, w: string)
    requires segs != [] && AllOther(segs, w)
    ensures Other(segs[0], w) && AllOther(segs[1..], w)
  {
    forall k | 0 <= k < |segs| - 1
      ensures Other(segs[1..][k], w)
    {
      assert segs[1..][k] == segs[k + 1];
    }
  }

  /** "/" + `w` + "/" cannot start at the "/" in front of another segment. */
  lemma NotSlotPrefix(w: string, pat: string, s0: string, x: string)
    requires pat == "/" + w + "/" && '/' !in w
    requires Other(s0, w)
    requires x == [] || x[0] == '/'
    ensures !(pat <= "/" + s0 + x)
  {
    var s := "/" + s0 + x;
    if |s0| > |w| {
      assert s[|w| + 1] == s0[|w|] && pat[|w| + 1] == '/';
    } else if |s0| == |w| {
      assert s[1..|w| + 1] == s0 && pat[1..|w| + 1] == w;
    } else if |s0| + 1 < |s| {
      assert s[|s0| + 1] == x[0] && pat[|s0| + 1] == w[|s0|];
    }
  }

  /** The rewrite copies a "/" and another segment and carries on after them. */
  lemma ReplaceOverSegment(w: string, pat: string, rep: string, s0: string, x: string)
    requires pat == "/" + w + "/" && '/' !in w
    requires Other(s0, w)
    requires x == [] || x[0] == '/'
    ensures Replace("/" + s0 + x, pat, rep) == "/" + s0 + Replace(x, pat, rep)
  {
    var s := "/" + s0 + x;
    NotSlotPrefix(w, pat, s0, x);
    ReplaceNoMatch(s, pat, rep);
    assert s[1..] == s0 + x;
    ReplaceSkips(s0, x, pat, rep);
  }

  /** The rewrite leaves a path of other segments as it is and carries on after it. */
  lemma {:induction false} ReplaceOverOthers(w: string, pat: string, rep: string, segs: seq<string>, rest: string)
    requires pat == "/" + w + "/" && '/' !in w
    requires AllOther(segs, w)
    requires rest == [] || rest[0] == '/'
    ensures Replace(Join(segs) + rest, pat, rep) == Join(segs) + Replace(rest, pat, rep)
    decreases |segs|
  {
    if segs == [] {
      assert Join(segs) + rest == rest;
    } else {
      var head := "/" + segs[0];
      var j := Join(segs[1..]);
      AllOtherTail(segs, w);
      assert Join(segs) == head + j;
      Regroup(head, j, rest);
      assert j + rest == [] || (j + rest)[0] == '/';
      ReplaceOverSegment(w, pat, rep, segs[0], j + rest);
      ReplaceOverOthers(w, pat, rep, segs[1..], rest);
      Regroup(head, j, Replace(rest, pat, rep));
    }
  }

  lemma Regroup(a: string, b: string, c: string)
    ensures (a + b) + c == a + (b + c)
  {
  }

  /** A last segment without "/" is left as it is. */
  lemma ReplaceLeaf(pat: string, rep: string, leaf: string)
    requires pat != [] && pat[0] == '/'
    requires '/' !in leaf
    ensures Replace(leaf, pat, rep) == leaf
  {
    ReplaceSkips(leaf, [], pat, rep);
    assert leaf + [] == leaf;
  }

  /** Group segments, then the pattern, then a last segment: the pattern is replaced. */
  lemma SlotReplace(w: string, pat: string, rep: string, group: seq<string>, leaf: string)
    requires pat == "/" + w + "/" && '/' !in w
    requires AllOther(group, w)
    requires '/' !in leaf
    ensures Replace(Join(group) + pat + leaf, pat, rep) == Join(group) + rep + leaf
  {
    var t := pat + leaf;
    ReplaceOverOthers(w, pat, rep, group, t);
    assert t[..|pat|] == pat && t[|pat|..] == leaf;
    ReplaceAtMatch(t, pat, rep);
    ReplaceLeaf(pat, rep, leaf);
    assert Join(group) + pat + leaf == Join(group) + t;
  }

  /** Plain segments are the ones the "/data/" rewrite passes over. */
  lemma PlainIsOther(segs: seq<string>)
    requires forall k :: 0 <= k < |segs| ==> Plain(segs[k])
    ensures AllOther(segs, "data")
  {
  }

  /** A group path, "data" and a last segment: "/data/" between the two, and the
      rewrite puts "/export/" in its place. */
  lemma DataPath(group: seq<string>, leaf: string, pat: string, rep: string)
    requires pat == "/data/" && rep == "/export/"
    requires forall k :: 0 <= k < |group| ==> Plain(group[k])
    requires '/' !in leaf
    ensures Join(group + ["data", leaf]) == Join(group) + pat + leaf
    ensures Replace(Join(group + ["data", leaf]), pat, rep) == Join(group) + rep + leaf
  {
    DataJoin(group, leaf, pat);
    PlainIsOther(group);
    assert pat == "/" + "data" + "/";
    SlotReplace("data", pat, rep, group, leaf);
  }

  lemma DataJoin(group: seq<string>, leaf: string, pat: string)
    requires pat == "/data/"
    ensures Join(group + ["data", leaf]) == Join(group) + pat + leaf
  {
    JoinAppend(group, ["data", leaf]);
    assert ["data", leaf][1..] == [leaf];
    assert [leaf][1..] == [];
    assert Join(["data", leaf]) == "/" + "data" + ("/" + leaf + []);
  }

  /** A path of plain segments only is left as it is. */
  lemma PlainPath(segs: seq<string>, pat: string, rep: string)
    requires pat == "/data/"
    requires forall k :: 0 <= k < |segs| ==> Plain(segs[k])
    ensures Replace(Join(segs), pat, rep) == Join(segs)
  {
    PlainIsOther(segs);
    assert pat == "/" + "data" + "/";
    ReplaceOverOthers("data", pat, rep, segs, []);
    assert Join(segs) + [] == Join(segs);
  }
}
