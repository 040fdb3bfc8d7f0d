/** The few JavaScript string operations the sign-in procedure relies on. */
module JsStrings {
  import opened Wrappers

  /** A value the source interpolates as a string although it may be `null` or `undefined`. */
  datatype JsString = Undefined | Null | Str(s: string)

  /** JavaScript truthiness of an optional string: present and not empty. */
  predicate Truthy(s: Option<string>) {
    s.Some? && s.value != ""
  }

  /** The text the template literal `${v}` produces. */
  function Interpolate(v: JsString): (r: string)
    ensures v.Str? ==> r == v.s
    ensures !v.Str? ==> r in {"undefined", "null"}
  {
    match v
    case Undefined => "undefined"
    case Null => "null"
    case Str(s) => s
  }

  /** `toUpperCase` on one character, for the ASCII letters. */
  function UpperChar(c: char): char {
    if 'a' <= c <= 'z' then (c as int - 32) as char else c
  }

  /** `String.prototype.toUpperCase`, restricted to ASCII case mapping. */
  function Upper(s: string): (r: string)
    ensures |r| == |s|
    ensures forall i :: 0 <= i < |s| ==> r[i] == UpperChar(s[i])
  {
    if s == [] then [] else [UpperChar(s[0])] + Upper(s[1..])
  }

  /** `t` is the upper-casing of `s` when it agrees with it character by character. */
  lemma UpperIs(s: string, t: string)
    requires |s| == |t| && forall i :: 0 <= i < |s| ==> UpperChar(s[i]) == t[i]
    ensures Upper(s) == t
  {
  }

  /** `pat` occurs in `s` starting at index `j`. */
  predicate OccursAt(s: string, pat: string, j: nat) {
    j + |pat| <= |s| && s[j..j + |pat|] == pat
  }

  /** The least index at or after `from` where `pat` occurs in `s`, as `indexOf` finds it. */
  function IndexFrom(s: string, pat: string, from: nat): (r: Option<nat>)
    ensures r.Some? ==> from <= r.value && OccursAt(s, pat, r.value)
    ensures r.Some? ==> forall j :: from <= j < r.value ==> !OccursAt(s, pat, j)
    ensures r.None? ==> forall j :: from <= j ==> !OccursAt(s, pat, j)
    decreases |s| - from
  {
    if from + |pat| > |s| then None
    else if s[from..from + |pat|] == pat then Some(from)
    else IndexFrom(s, pat, from + 1)
  }

  /** `s.replace(pat, '')` with a string pattern: removes the first occurrence of `pat`, if any. */
  function ReplaceFirst(s: string, pat: string): (r: string)
    ensures (exists j :: OccursAt(s, pat, j)) ==> |r| == |s| - |pat|
    ensures (forall j :: !OccursAt(s, pat, j)) ==> r == s
    ensures forall i: nat :: OccursAt(s, pat, i) && (forall j: nat :: j < i ==> !OccursAt(s, pat, j)) ==>
              r == s[..i] + s[i + |pat|..]
  {
    match IndexFrom(s, pat, 0)
    case None => s
    case Some(i) => s[..i] + s[i + |pat|..]
  }

  /** A string that starts with `pat` loses exactly that leading `pat`. */
  lemma {:induction false} ReplaceFirstStripsLeading(pat: string, rest: string)
    ensures ReplaceFirst(pat + rest, pat) == rest
  {
    var s := pat + rest;
    assert s[0..|pat|] == pat;
    assert OccursAt(s, pat, 0);
    var found := IndexFrom(s, pat, 0);
    assert found == Some(0);
    assert s[|pat|..] == rest;
  }
}
