/**
 * The JavaScript string operators the stack settings component relies on:
 * truthiness of an optional string, `a || b`, `a ?? b`, `s.includes(p)`
 * and `s.slice(0, -k)`.
 */
module JsStrings {
  import opened Wrappers

  /** JavaScript truthiness of an optional string: `undefined` and `""` are falsy. */
  function Truthy(o: Option<string>): (b: bool)
    ensures b <==> o != None && o != Some("")
  {
    o.Some? && o.value != ""
  }

  /** `a || b` where `a` is an optional string. */
  function OrElse(a: Option<string>, b: string): (r: string)
    ensures Truthy(a) ==> r == a.value
    ensures !Truthy(a) ==> r == b
    ensures r == "" ==> b == ""
  {
    if Truthy(a) then a.value else b
  }

  /** `a ?? b` where `a` is an optional string: only `undefined` falls back. */
  function Coalesce(a: Option<string>, b: string): (r: string)
    ensures a.Some? ==> r == a.value
    ensures a.None? ==> r == b
  {
    match a
    case Some(v) => v
    case None => b
  }

  /** `p` occurs in `s` as a contiguous piece starting at index `i`. */
  predicate OccursAt(s: string, p: string, i: nat) {
    i + |p| <= |s| && s[i..i + |p|] == p
  }

  /** An occurrence in `s[1..]` is an occurrence in `s` one index further on. */
  lemma OccursShift(s: string, p: string)
    requires s != []
    ensures forall i: nat :: OccursAt(s[1..], p, i) <==> OccursAt(s, p, i + 1)
  {
  }

  /** `s.includes(p)`: a substring test, true when `p` occurs anywhere in `s`. */
  function Includes(s: string, p: string): (r: bool)
    ensures r <==> exists i: nat :: OccursAt(s, p, i)
    decreases |s|
  {
    if |s| < |p| then
      false
    else if s[..|p|] == p then
      assert OccursAt(s, p, 0);
      true
    else
      assert !OccursAt(s, p, 0);
      OccursShift(s, p);
      assert forall j: nat :: OccursAt(s, p, j) ==> j >= 1 && OccursAt(s[1..], p, j - 1);
      Includes(s[1..], p)
  }

  /** `s.slice(0, -k)` for a positive `k`: everything but the last `k` characters. */
  function DropLast(s: string, k: nat): (r: string)
    requires k > 0
    ensures |s| >= k ==> |r| == |s| - k && s == r + s[|s| - k..]
    ensures |s| < k ==> r == ""
  {
    if |s| >= k then s[..|s| - k] else ""
  }

  /** A prefix occurrence is one occurrence among others: `Includes` accepts it. */
  lemma PrefixIsIncluded(s: string, p: string)
    requires |p| <= |s| && s[..|p|] == p
    ensures Includes(s, p)
  {
  }

  /** Prepending anything to `s` keeps every occurrence of `p` in it. */
  lemma IncludedAfterPrepend(t: string, s: string, p: string)
    requires Includes(s, p)
    ensures Includes(t + s, p)
  {
    var i: nat :| OccursAt(s, p, i);
    assert (t + s)[|t| + i..|t| + i + |p|] == s[i..i + |p|];
    assert OccursAt(t + s, p, |t| + i);
  }
}
