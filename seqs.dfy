/** `Array.prototype.filter` and the facts about it the editor and the matrix view rely on. */
module Seqs {

  /** `r` occurs in `s` in the same relative order, possibly with gaps. */
  predicate Embeds<T(==)>(r: seq<T>, s: seq<T>)
    decreases |s|
  {
    r == [] || (s != [] && if r[0] == s[0] then Embeds(r[1..], s[1..]) else Embeds(r, s[1..]))
  }

  predicate Distinct<T(==)>(s: seq<T>) {
    forall i, j :: 0 <= i < j < |s| ==> s[i] != s[j]
  }

  /**
   * `s.filter(p)`: the elements of `s` that satisfy `p`, each as often as in
   * `s`, in their original order.
   */
  function Keep<T(==,!new)>(s: seq<T>, p: T -> bool): (r: seq<T>)
    ensures |r| <= |s|
    ensures forall x :: x in r <==> x in s && p(x)
    ensures Embeds(r, s)
  {
    if s == [] then []
    else
      var rest := Keep(s[1..], p);
      assert s == [s[0]] + s[1..];
      if p(s[0]) then
        assert ([s[0]] + rest)[1..] == rest;
        [s[0]] + rest
      else
        rest
  }

  /** Filtering keeps each element that satisfies `p` exactly as often as it occurs, and drops every other. */
  lemma {:induction false} KeepCount<T(!new)>(s: seq<T>, p: T -> bool)
    ensures forall x :: multiset(Keep(s, p))[x] == if p(x) then multiset(s)[x] else 0
  {
    if s != [] {
      KeepCount(s[1..], p);
      assert s == [s[0]] + s[1..];
      var head := if p(s[0]) then [s[0]] else [];
      assert Keep(s, p) == head + Keep(s[1..], p);
      assert multiset(s) == multiset([s[0]]) + multiset(s[1..]);
      assert multiset(Keep(s, p)) == multiset(head) + multiset(Keep(s[1..], p));
    }
  }

  /** Filtering a list extended at the end extends the filtered list at the end. */
  lemma {:induction false} KeepSnoc<T(!new)>(s: seq<T>, x: T, p: T -> bool)
    ensures Keep(s + [x], p) == Keep(s, p) + (if p(x) then [x] else [])
  {
    if s == [] {
      assert [x][1..] == [];
    } else {
      var t := s + [x];
      assert t[0] == s[0] && t[1..] == s[1..] + [x];
      KeepSnoc(s[1..], x, p);
      var head := if p(s[0]) then [s[0]] else [];
      assert Keep(t, p) == head + Keep(t[1..], p);
      assert Keep(s, p) == head + Keep(s[1..], p);
    }
  }

  /** Filtering keeps a list free of duplicates. */
  lemma {:induction false} KeepDistinct<T(!new)>(s: seq<T>, p: T -> bool)
    requires Distinct(s)
    ensures Distinct(Keep(s, p))
  {
    if s != [] {
      assert Distinct(s[1..]);
      KeepDistinct(s[1..], p);
      assert s[0] !in s[1..];
    }
  }
}
