/**
 `np.sort` on the row of neighbour indices: an ascending rearrangement of the
 same indices.
 */
module Sorting {

  predicate Ascending(s: seq<nat>) {
    forall i, j :: 0 <= i < j < |s| ==> s[i] <= s[j]
  }

  predicate StrictlyAscending(s: seq<nat>) {
    forall i, j :: 0 <= i < j < |s| ==> s[i] < s[j]
  }

  /** No index occurs twice. */
  predicate Distinct(s: seq<nat>) {
    forall i, j :: 0 <= i < j < |s| ==> s[i] != s[j]
  }

  /** Every element of t is at least lo, and above it when strict holds. */
  predicate Above(lo: nat, t: seq<nat>, strict: bool) {
    forall k :: 0 <= k < |t| ==> lo <= t[k] && (strict ==> lo < t[k])
  }

  /** Inserts x into an ascending sequence, keeping it ascending. */
  function Insert(x: nat, s: seq<nat>): (r: seq<nat>)
    requires Ascending(s)
    ensures Ascending(r)
    ensures |r| == |s| + 1
    ensures multiset(r) == multiset(s) + multiset{x}
    ensures StrictlyAscending(s) && x !in s ==> StrictlyAscending(r)
  {
    var strict := StrictlyAscending(s) && x !in s;
    if s == [] || x <= s[0] then
      assert Above(x, s, strict);
      ConsAscending(x, s, strict);
      [x] + s
    else
      assert strict ==> StrictlyAscending(s[1..]) && x !in s[1..];
      var t := Insert(x, s[1..]);
      AboveHead(x, s, t);
      ConsAscending(s[0], t, strict);
      assert s == [s[0]] + s[1..];
      [s[0]] + t
  }

  /** Everything in t, a rearrangement of s's tail and x, lies above s's head. */
  lemma AboveHead(x: nat, s: seq<nat>, t: seq<nat>)
    requires Ascending(s) && s != [] && s[0] < x
    requires multiset(t) == multiset(s[1..]) + multiset{x}
    ensures Above(s[0], t, StrictlyAscending(s) && x !in s)
  {
    forall k | 0 <= k < |t|
      ensures s[0] <= t[k] && (StrictlyAscending(s) && x !in s ==> s[0] < t[k])
    {
      assert t[k] in multiset(t);
      if t[k] != x {
        assert t[k] in multiset(s[1..]);
        var i :| 0 <= i < |s[1..]| && s[1..][i] == t[k];
        assert s[i + 1] == t[k];
      }
    }
  }

  lemma ConsAscending(h: nat, t: seq<nat>, strict: bool)
    requires Ascending(t) && Above(h, t, strict)
    ensures Ascending([h] + t)
    ensures strict && StrictlyAscending(t) ==> StrictlyAscending([h] + t)
  {
  }

  /** The indices in ascending order. */
  function Sort(s: seq<nat>): (r: seq<nat>)
    ensures Ascending(r)
    ensures |r| == |s|
    ensures multiset(r) == multiset(s)
    ensures Distinct(s) ==> StrictlyAscending(r)
  {
    if s == [] then
      []
    else
      assert s == [s[0]] + s[1..];
      assert Distinct(s) ==> s[0] !in multiset(s[1..]);
      Insert(s[0], Sort(s[1..]))
  }
}
