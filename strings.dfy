/** The few Python `str` operations the client relies on. */
module Strings {

  /** `s.startswith(prefix)` */
  predicate StartsWith(s: string, prefix: string) {
    prefix <= s
  }

  /** `sub` occurs in `s` starting at index `i`. */
  predicate OccursAt(sub: string, s: string, i: int) {
    0 <= i && i + |sub| <= |s| && s[i..i + |sub|] == sub
  }

  /** `sub in s` on two strings: `sub` occurs somewhere in `s`. */
  function Occurs(sub: string, s: string): (r: bool)
    ensures r <==> exists i :: OccursAt(sub, s, i)
    decreases |s|
  {
    if sub <= s then
      assert OccursAt(sub, s, 0);
      true
    else if |s| <= |sub| then
      assert forall i :: OccursAt(sub, s, i) ==> i == 0;
      false
    else
      var r := Occurs(sub, s[1..]);
      assert forall i :: 1 <= i ==> (OccursAt(sub, s, i) <==> OccursAt(sub, s[1..], i - 1));
      assert forall i :: OccursAt(sub, s[1..], i) ==> OccursAt(sub, s, i + 1);
      r
  }

  /** The characters for which Python's `str.isspace()` holds. */
  predicate IsSpace(c: char) {
    c in {'\U{0009}', '\U{000A}', '\U{000B}', '\U{000C}', '\U{000D}', '\U{001C}', '\U{001D}', '\U{001E}',
          '\U{001F}', '\U{0020}', '\U{0085}', '\U{00A0}', '\U{1680}', '\U{2000}', '\U{2001}', '\U{2002}',
          '\U{2003}', '\U{2004}', '\U{2005}', '\U{2006}', '\U{2007}', '\U{2008}', '\U{2009}', '\U{200A}',
          '\U{2028}', '\U{2029}', '\U{202F}', '\U{205F}', '\U{3000}'}
  }

  /** The index of the first character of `s` that is not whitespace (`|s|` if none). */
  function TextStart(s: string): (i: nat)
    ensures i <= |s|
    ensures forall k :: 0 <= k < i ==> IsSpace(s[k])
    ensures i < |s| ==> !IsSpace(s[i])
  {
    if s == [] || !IsSpace(s[0]) then 0 else 1 + TextStart(s[1..])
  }

  /** The index just past the last character of `s` that is not whitespace (0 if none). */
  function TextEnd(s: string): (j: nat)
    ensures j <= |s|
    ensures forall k :: j <= k < |s| ==> IsSpace(s[k])
    ensures 0 < j ==> !IsSpace(s[j - 1])
    decreases |s|
  {
    if s == [] || !IsSpace(s[|s| - 1]) then |s| else TextEnd(s[..|s| - 1])
  }

  /** `s.strip()`: `s` without its leading and trailing whitespace. The result is a
      slice of `s` that neither starts nor ends with a space, and everything cut off
      is whitespace. */
  function Strip(s: string): (r: string)
    ensures exists i, j :: 0 <= i <= j <= |s| && r == s[i..j]
              && (forall k :: 0 <= k < i ==> IsSpace(s[k]))
              && (forall k :: j <= k < |s| ==> IsSpace(s[k]))
    ensures r == [] || (!IsSpace(r[0]) && !IsSpace(r[|r| - 1]))
  {
    var i, j := TextStart(s), TextEnd(s);
    if i == |s| then
      assert s[i..i] == [];
      []
    else
      assert i < j;
      s[i..j]
  }

  /** `s.replace(pat, rep)`: every occurrence of `pat`, scanning from the left and
      without overlaps, is replaced by `rep`. */
  function Replace(s: string, pat: string, rep: string): string
    requires pat != []
    decreases |s|
  {
    if pat <= s then rep + Replace(s[|pat|..], pat, rep)
    else if s == [] then []
    else [s[0]] + Replace(s[1..], pat, rep)
  }

  /** Replacing in a string that does not contain the pattern changes nothing. */
  lemma {:induction false} ReplaceAbsent(s: string, pat: string, rep: string)
    requires pat != [] && !Occurs(pat, s)
    ensures Replace(s, pat, rep) == s
    decreases |s|
  {
    if s != [] {
      if |s| > |pat| {
        assert !Occurs(pat, s[1..]);
      } else {
        assert !(pat <= s[1..]);
      }
      ReplaceAbsent(s[1..], pat, rep);
    }
  }

  /** A prefix in which no occurrence of the pattern can start is copied unchanged. */
  lemma {:induction false} ReplaceSkips(pre: string, rest: string, pat: string, rep: string)
    requires pat != [] && pat[0] !in pre
    ensures Replace(pre + rest, pat, rep) == pre + Replace(rest, pat, rep)
    decreases |pre|
  {
    if pre != [] {
      var s := pre + rest;
      assert s[0] == pre[0] != pat[0];
      assert !(pat <= s);
      assert s[1..] == pre[1..] + rest;
      ReplaceSkips(pre[1..], rest, pat, rep);
    } else {
      assert pre + rest == rest;
    }
  }

  /** Where the pattern starts, it is replaced and the scan resumes after it. */
  lemma ReplaceAtMatch(s: string, pat: string, rep: string)
    requires pat != [] && pat <= s
    ensures Replace(s, pat, rep) == rep + Replace(s[|pat|..], pat, rep)
  {
  }

  /** Where it does not, the first character is copied. */
  lemma ReplaceNoMatch(s: string, pat: string, rep: string)
    requires pat != [] && s != [] && !(pat <= s)
    ensures Replace(s, pat, rep) == [s[0]] + Replace(s[1..], pat, rep)
  {
  }
}
