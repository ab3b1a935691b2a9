/** Decoded JSON values and the Python operations the normaliser applies to them:
    `dict.get`, truthiness and `or`, `in`, `[]`, iteration, `float()` and `int()`. */
module Json {
  import opened Wrappers
  import opened Strings

  /** A decoded JSON value. An object keeps its members in document order; a
      decoder produces objects whose keys are distinct. */
  datatype Json =
    | JNull
    | JBool(b: bool)
    | JNum(n: real)
    | JStr(s: string)
    | JArr(items: seq<Json>)
    | JObj(fields: seq<(string, Json)>)

  type Fields = seq<(string, Json)>

  /** The parsers the code borrows from its libraries, which the model does not
      re-implement: `pd.to_datetime(s)`, `pd.to_datetime(s, format="%Y-%m-%d")`,
      `float(s)` and `int(s)` on strings. Each answers None where the library raises.
      Timestamps are microseconds since the epoch. */
  datatype Parsers = Parsers(
    parseIso: string -> Option<int>,
    parseYmd: string -> Option<int>,
    parseFloat: string -> Option<real>,
    parseInt: string -> Option<int>)

  /** `d.get(key)`: the value of the first member named `key`, if any. */
  function Get(fields: Fields, key: string): (r: Option<Json>)
    ensures r.None? <==> forall i :: 0 <= i < |fields| ==> fields[i].0 != key
    ensures r.Some? ==> exists i :: 0 <= i < |fields| && fields[i] == (key, r.value)
                          && forall k :: 0 <= k < i ==> fields[k].0 != key
  {
    if fields == [] then None
    else if fields[0].0 == key then
      assert fields[0] == (key, fields[0].1);
      Some(fields[0].1)
    else
      var r := Get(fields[1..], key);
      assert forall i :: 1 <= i < |fields| ==> fields[i] == fields[1..][i - 1];
      if r.Some? then
        ghost var i :| 0 <= i < |fields[1..]| && fields[1..][i] == (key, r.value)
                       && forall k :: 0 <= k < i ==> fields[1..][k].0 != key;
        assert fields[i + 1] == (key, r.value);
        r
      else
        r
  }

  /** `d.get(key, default)` */
  function GetOr(fields: Fields, key: string, default: Json): Json {
    Get(fields, key).GetOr(default)
  }

  /** The keys of a dict, in order. */
  function Keys(fields: Fields): (ks: seq<string>)
    ensures |ks| == |fields| && forall i :: 0 <= i < |fields| ==> ks[i] == fields[i].0
  {
    if fields == [] then [] else [fields[0].0] + Keys(fields[1..])
  }

  /** Python truthiness: None, False, zero, and empty strings, lists and dicts are false. */
  predicate Truthy(j: Json) {
    match j
    case JNull => false
    case JBool(b) => b
    case JNum(n) => n != 0.0
    case JStr(s) => s != []
    case JArr(xs) => xs != []
    case JObj(fs) => fs != []
  }

  /** `a or b` */
  function Or(a: Json, b: Json): Json {
    if Truthy(a) then a else b
  }

  /** `d.get(primary, 0) or d.get(fallback, 0)`, the normaliser's alias rule. The
      primary field wins when it is present and truthy; otherwise the fallback field
      is used when present, whatever its value; otherwise the value is 0. */
  function Alias(fields: Fields, primary: string, fallback: string): (r: Json)
    ensures if Get(fields, primary).Some? && Truthy(Get(fields, primary).value)
            then r == Get(fields, primary).value
            else if Get(fields, fallback).Some? then r == Get(fields, fallback).value
            else r == JNum(0.0)
  {
    Or(GetOr(fields, primary, JNum(0.0)), GetOr(fields, fallback, JNum(0.0)))
  }

  /** `key in c` for a string `key`: key membership in a dict, element membership in
      a list, substring in a string; a TypeError for numbers, booleans and None. */
  function Contains(key: string, c: Json): (r: Result<bool>)
    ensures c.JObj? ==> r == Ok(Get(c.fields, key).Some?)
    ensures r.Err? <==> c.JNull? || c.JBool? || c.JNum?
  {
    match c
    case JObj(fs) => Ok(Get(fs, key).Some?)
    case JArr(xs) => Ok(JStr(key) in xs)
    case JStr(s) => Ok(Occurs(key, s))
    case _ => Err(TypeError)
  }

  /** `c[key]` for a string `key`: a dict lookup (KeyError when absent); lists and
      strings need integer indices and the other values are not subscriptable. */
  function Subscript(c: Json, key: string): (r: Result<Json>)
    ensures r.Ok? <==> c.JObj? && Get(c.fields, key).Some?
    ensures r.Ok? ==> r.value == Get(c.fields, key).value
  {
    match c
    case JObj(fs) =>
      (match Get(fs, key)
       case Some(v) => Ok(v)
       case None => Err(KeyError(key)))
    case _ => Err(TypeError)
  }

  /** `for x in c`: a list yields its elements, a dict its keys, a string its
      characters; anything else raises TypeError. */
  function Iterate(c: Json): (r: Result<seq<Json>>)
    ensures c.JArr? ==> r == Ok(c.items)
    ensures c.JObj? ==> r.Ok? && |r.value| == |c.fields|
                        && forall k :: 0 <= k < |c.fields| ==> r.value[k] == JStr(c.fields[k].0)
    ensures c.JStr? ==> r.Ok? && |r.value| == |c.s|
                        && forall k :: 0 <= k < |c.s| ==> r.value[k] == JStr([c.s[k]])
    ensures r.Ok? ==> forall k :: 0 <= k < |r.value| ==> c.JArr? || r.value[k].JStr?
    ensures r.Err? <==> c.JNull? || c.JBool? || c.JNum?
  {
    match c
    case JArr(xs) => Ok(xs)
    case JObj(fs) => Ok(seq(|fs|, k requires 0 <= k < |fs| => JStr(fs[k].0)))
    case JStr(s) => Ok(seq(|s|, k requires 0 <= k < |s| => JStr([s[k]])))
    case _ => Err(TypeError)
  }

  /** `float(j)`. Strings go through the float parser (ValueError when it fails);
      None, lists and dicts raise TypeError. */
  function ToFloat(p: Parsers, j: Json): (r: Result<real>)
    ensures j.JNum? ==> r == Ok(j.n)
    ensures r.Err? ==> r.error == TypeError || r.error == ValueError
    ensures r.Err? <==> j.JNull? || j.JArr? || j.JObj? || (j.JStr? && p.parseFloat(j.s).None?)
    ensures (j.JNull? || j.JArr? || j.JObj?) ==> r == Err(TypeError)
    ensures j.JStr? && p.parseFloat(j.s).None? ==> r == Err(ValueError)
    ensures j.JStr? && p.parseFloat(j.s).Some? ==> r == Ok(p.parseFloat(j.s).value)
  {
    match j
    case JNum(n) => Ok(n)
    case JBool(b) => Ok(if b then 1.0 else 0.0)
    case JStr(s) =>
      (match p.parseFloat(s)
       case Some(x) => Ok(x)
       case None => Err(ValueError))
    case _ => Err(TypeError)
  }

  /** Python's `int()` on a number: truncation toward zero. */
  function Truncate(x: real): (i: int)
    ensures 0.0 <= x ==> i as real <= x < i as real + 1.0
    ensures x < 0.0 ==> i as real - 1.0 < x <= i as real
  {
    if 0.0 <= x then x.Floor else -((-x).Floor)
  }

  /** `int(j)`. Numbers are truncated toward zero, strings go through the integer
      parser (ValueError when it fails); None, lists and dicts raise TypeError. */
  function ToInt(p: Parsers, j: Json): (r: Result<int>)
    ensures j.JNum? ==> r == Ok(Truncate(j.n))
    ensures r.Err? ==> r.error == TypeError || r.error == ValueError
    ensures r.Err? <==> j.JNull? || j.JArr? || j.JObj? || (j.JStr? && p.parseInt(j.s).None?)
    ensures (j.JNull? || j.JArr? || j.JObj?) ==> r == Err(TypeError)
    ensures j.JStr? && p.parseInt(j.s).None? ==> r == Err(ValueError)
    ensures j.JStr? && p.parseInt(j.s).Some? ==> r == Ok(p.parseInt(j.s).value)
  {
    match j
    case JNum(n) => Ok(Truncate(n))
    case JBool(b) => Ok(if b then 1 else 0)
    case JStr(s) =>
      (match p.parseInt(s)
       case Some(x) => Ok(x)
       case None => Err(ValueError))
    case _ => Err(TypeError)
  }

  /** A primary field of 0 is falsy, so the alias rule falls through to the fallback. */
  lemma ZeroPrimaryFallsThrough(fields: Fields, primary: string, fallback: string, v: Json)
    requires Get(fields, primary) == Some(JNum(0.0)) && Get(fields, fallback) == Some(v)
    ensures Alias(fields, primary, fallback) == v
  {
  }
}
