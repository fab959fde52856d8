/**
 * The parts of JavaScript's value semantics the tile server relies on:
 * JSON values as JSON.parse produces them, truthiness, own enumerable
 * properties (what `for ... in` visits and `Object.assign({}, v)` copies),
 * string coercion (`"" + v`, `String(v)`), and `String.prototype.replace`
 * with a string pattern, which replaces the first occurrence only.
 */
module Js {

  datatype Option<+T> = None | Some(value: T)

  /** A computation that either yields a value or throws (`reason` names the error). */
  datatype Result<+T> = Ok(value: T) | Err(reason: string)

  /** A JSON value. Numbers are integers; `undefined` is never a value (an
      absent property is `None`). */
  datatype Json =
    | JNull
    | JBool(b: bool)
    | JNum(n: int)
    | JStr(s: string)
    | JArr(items: seq<Json>)
    | JObj(fields: map<string, Json>)

  /** ToBoolean of a property value that may be undefined. */
  predicate Truthy(v: Option<Json>)
  {
    match v
    case None => false
    case Some(JNull) => false
    case Some(JBool(b)) => b
    case Some(JNum(n)) => n != 0
    case Some(JStr(s)) => s != ""
    case Some(_) => true
  }

  /** Reading field `k` of an object; undefined when it has none. */
  function Field(m: map<string, Json>, k: string): Option<Json>
  {
    if k in m then Some(m[k]) else None
  }

  // ---------------------------------------------------------------------
  // Decimal rendering of numbers (Number.prototype.toString for integers)

  function Digit(d: nat): (c: char)
    requires d < 10
    ensures '0' <= c <= '9'
  {
    ('0' as int + d) as char
  }

  function NatToString(n: nat): (s: string)
    ensures 1 <= |s|
    ensures |s| == 1 <==> n < 10
    ensures forall i :: 0 <= i < |s| ==> '0' <= s[i] <= '9'
    decreases n
  {
    if n < 10 then [Digit(n)] else NatToString(n / 10) + [Digit(n % 10)]
  }

  /** Different numbers render differently; this is what makes the index keys
      of an array or a string distinct property names. */
  lemma {:induction false} NatToStringInjective(a: nat, b: nat)
    requires NatToString(a) == NatToString(b)
    ensures a == b
  {
    if a >= 10 && b >= 10 {
      var sa, sb := NatToString(a), NatToString(b);
      assert sa == NatToString(a / 10) + [Digit(a % 10)];
      assert sb == NatToString(b / 10) + [Digit(b % 10)];
      assert NatToString(a / 10) == sa[..|sa| - 1] == sb[..|sb| - 1] == NatToString(b / 10);
      NatToStringInjective(a / 10, b / 10);
      assert Digit(a % 10) == sa[|sa| - 1] == sb[|sb| - 1] == Digit(b % 10);
    } else if a < 10 && b < 10 {
      assert [Digit(a)] == [Digit(b)];
    }
  }

  function IntToString(n: int): string
  {
    if n < 0 then "-" + NatToString(-n) else NatToString(n)
  }

  // ---------------------------------------------------------------------
  // String coercion

  function Join(parts: seq<string>, sep: string): string
  {
    if |parts| == 0 then ""
    else if |parts| == 1 then parts[0]
    else parts[0] + sep + Join(parts[1..], sep)
  }

  /** String(v) for a JSON value: arrays join their elements with commas,
      rendering null elements as the empty string. */
  function ValueToString(v: Json): string
  {
    match v
    case JNull => "null"
    case JBool(b) => if b then "true" else "false"
    case JNum(n) => IntToString(n)
    case JStr(s) => s
    case JArr(items) =>
      Join(seq(|items|, i requires 0 <= i < |items| =>
             if items[i].JNull? then "" else ValueToString(items[i])), ",")
    case JObj(_) => "[object Object]"
  }

  /** String coercion of a property value that may be undefined. */
  function JsString(v: Option<Json>): string
  {
    match v
    case None => "undefined"
    case Some(x) => ValueToString(x)
  }

  /** String coercion of a request parameter that may be undefined. */
  function ParamString(p: Option<string>): string
  {
    match p
    case None => "undefined"
    case Some(s) => s
  }

  // ---------------------------------------------------------------------
  // Own enumerable properties

  /** The properties of an array (or of a string's characters) keyed by index. */
  function IndexMap(items: seq<Json>): map<string, Json>
  {
    forall i, j | 0 <= i < |items| && 0 <= j < |items| && NatToString(i) == NatToString(j)
      ensures i == j
    {
      NatToStringInjective(i, j);
    }
    map i | 0 <= i < |items| :: NatToString(i) := items[i]
  }

  /** The properties of a string: its characters, keyed by index. */
  function CharProps(s: string): map<string, Json>
  {
    IndexMap(seq(|s|, i requires 0 <= i < |s| => JStr([s[i]])))
  }

  /** Own enumerable string-keyed properties of a value: what `for (k in v)`
      visits and what `Object.assign({}, v)` copies. Primitives other than
      strings have none. */
  function Own(v: Json): map<string, Json>
  {
    match v
    case JObj(m) => m
    case JArr(items) => IndexMap(items)
    case JStr(s) => CharProps(s)
    case _ => map[]
  }

  /** `v[k]`: reading a property of undefined or null throws a TypeError. */
  function Prop(v: Option<Json>, k: string): (r: Result<Option<Json>>)
    ensures r.Err? <==> v.None? || v == Some(JNull)
    ensures r.Ok? && v.value.JObj? ==> r.value == Field(v.value.fields, k)
  {
    match v
    case None => Err("TypeError")
    case Some(JNull) => Err("TypeError")
    case Some(x) => Ok(Field(Own(x), k))
  }

  // ---------------------------------------------------------------------
  // String.prototype.replace with a string pattern

  predicate OccursAt(s: string, pat: string, i: nat)
  {
    i + |pat| <= |s| && s[i..i + |pat|] == pat
  }

  /** The first index at or after `from` where `pat` occurs. */
  function FindFrom(s: string, pat: string, from: nat): (r: Option<nat>)
    requires from <= |s|
    ensures r.Some? ==> from <= r.value && OccursAt(s, pat, r.value)
    ensures r.Some? ==> forall j :: from <= j < r.value ==> !OccursAt(s, pat, j)
    ensures r.None? ==> forall j :: from <= j <= |s| ==> !OccursAt(s, pat, j)
    decreases |s| - from
  {
    if OccursAt(s, pat, from) then Some(from)
    else if from == |s| then None
    else FindFrom(s, pat, from + 1)
  }

  /** `s.indexOf(pat)`, as an option. */
  function FindFirst(s: string, pat: string): (r: Option<nat>)
    ensures r.Some? ==> OccursAt(s, pat, r.value)
    ensures r.Some? ==> forall j :: 0 <= j < r.value ==> !OccursAt(s, pat, j)
    ensures r.None? ==> forall j :: 0 <= j <= |s| ==> !OccursAt(s, pat, j)
  {
    FindFrom(s, pat, 0)
  }

  /** `s.replace(pat, rep)` with a string pattern: only the first occurrence
      is replaced, and a string without one is returned unchanged. */
  function ReplaceFirst(s: string, pat: string, rep: string): (r: string)
    ensures |pat| > 0 && pat[0] !in s ==> r == s
    ensures FindFirst(s, pat).Some? ==> |r| == |s| - |pat| + |rep|
  {
    match FindFirst(s, pat)
    case None => s
    case Some(i) =>
      assert s[i..i + |pat|] == pat;
      assert |pat| > 0 ==> s[i] == pat[0];
      s[..i] + rep + s[i + |pat|..]
  }

  /** A placeholder that opens with a brace, preceded by brace-free text, is
      the first occurrence, and replacing it splices the replacement in. */
  lemma ReplaceFirstAfterPlainText(pre: string, pat: string, post: string, rep: string)
    requires |pat| > 0 && pat[0] == '{'
    requires '{' !in pre
    ensures ReplaceFirst(pre + pat + post, pat, rep) == pre + rep + post
  {
    var s := pre + pat + post;
    assert OccursAt(s, pat, |pre|) by {
      assert s[|pre|..|pre| + |pat|] == pat;
    }
    forall j | 0 <= j < |pre|
      ensures !OccursAt(s, pat, j)
    {
      assert s[j] == pre[j] != '{';
    }
    var r := FindFirst(s, pat);
    assert r == Some(|pre|);
    assert s[..|pre|] == pre;
    assert s[|pre| + |pat|..] == post;
  }

  /** A pattern that does not occur leaves the string unchanged. */
  lemma ReplaceFirstAbsent(s: string, pat: string, rep: string)
    requires forall j :: 0 <= j <= |s| ==> !OccursAt(s, pat, j)
    ensures ReplaceFirst(s, pat, rep) == s
  {
  }
}
