/**
 * The JavaScript string operations the market-map code relies on, over
 * `seq<char>`: `trim`, `substring(0, n)`, the `\s` character class,
 * `toLowerCase`, `replace(/\s+/g, '-')` and the default ordering used by
 * `Array.prototype.sort`. White space and case are the ASCII versions.
 */
module JsText {

  /** The ASCII characters that JavaScript's `\s` and `trim` treat as white space. */
  predicate IsSpace(c: char) {
    c == ' ' || c == '\t' || c == '\n' || c == '\r' || c == '\U{000B}' || c == '\U{000C}'
  }

  predicate NoSpace(s: string) {
    forall i :: 0 <= i < |s| ==> !IsSpace(s[i])
  }

  /** Drops leading white space: the result is the longest suffix that does not start with a space. */
  function TrimStart(s: string): (r: string)
    ensures |r| <= |s| && r == s[|s| - |r|..]
    ensures r == [] || !IsSpace(r[0])
    ensures forall i :: 0 <= i < |s| - |r| ==> IsSpace(s[i])
    ensures s != [] && IsSpace(s[0]) ==> |r| < |s|
  {
    if s != [] && IsSpace(s[0]) then TrimStart(s[1..]) else s
  }

  /** Drops trailing white space: the result is the longest prefix that does not end with a space. */
  function TrimEnd(s: string): (r: string)
    ensures |r| <= |s| && r == s[..|r|]
    ensures r == [] || !IsSpace(r[|r| - 1])
    ensures forall i :: |r| <= i < |s| ==> IsSpace(s[i])
  {
    if s != [] && IsSpace(s[|s| - 1]) then TrimEnd(s[..|s| - 1]) else s
  }

  /** `r` is the slice of `s` starting at `a`, and everything cut away on either side is white space. */
  predicate SpaceAround(s: string, r: string, a: int) {
    0 <= a <= |s| - |r| && r == s[a..a + |r|]
    && (forall i :: 0 <= i < a ==> IsSpace(s[i]))
    && (forall i :: a + |r| <= i < |s| ==> IsSpace(s[i]))
  }

  /** A suffix `t` of `s` behind white space, then a prefix `r` of `t` before white space, is `s` with white space cut around it. */
  lemma SpaceAroundSlices(s: string, t: string, r: string)
    requires |t| <= |s| && t == s[|s| - |t|..] && forall i :: 0 <= i < |s| - |t| ==> IsSpace(s[i])
    requires |r| <= |t| && r == t[..|r|] && forall i :: |r| <= i < |t| ==> IsSpace(t[i])
    ensures SpaceAround(s, r, |s| - |t|)
  {
    var a := |s| - |t|;
    assert r == s[a..a + |r|];
    forall i | a + |r| <= i < |s|
      ensures IsSpace(s[i])
    {
      assert s[i] == t[i - a];
    }
  }

  /** Trimming the start and then the end cuts only white space from either side. */
  lemma TrimsAround(s: string)
    ensures SpaceAround(s, TrimEnd(TrimStart(s)), |s| - |TrimStart(s)|)
  {
    var t := TrimStart(s);
    var r := TrimEnd(t);
    assert |t| <= |s| && t == s[|s| - |t|..];
    assert |r| <= |t| && r == t[..|r|];
    SpaceAroundSlices(s, t, r);
  }

  /** `String.prototype.trim`: a contiguous slice of `s` with only white space cut away at either end. */
  function Trim(s: string): (r: string)
    ensures |r| <= |s|
    ensures exists a :: SpaceAround(s, r, a)
    ensures r == [] || (!IsSpace(r[0]) && !IsSpace(r[|r| - 1]))
    ensures (s == [] || (!IsSpace(s[0]) && !IsSpace(s[|s| - 1]))) ==> r == s
  {
    TrimsAround(s);
    TrimEnd(TrimStart(s))
  }

  /** `substring(0, n)`: the first `n` characters, or all of them when there are fewer. */
  function Prefix(s: string, n: nat): (r: string)
    ensures |r| <= n && |r| <= |s|
    ensures r == s[..|r|]
    ensures |s| <= n ==> r == s
    ensures n <= |s| ==> |r| == n
  {
    if |s| <= n then s else s[..n]
  }

  /** ASCII `toLowerCase` of one character. */
  function LowerChar(c: char): char {
    if 'A' <= c <= 'Z' then (c as int + 32) as char else c
  }

  function ToLower(s: string): (r: string)
    ensures |r| == |s|
    ensures forall i :: 0 <= i < |s| ==> r[i] == LowerChar(s[i])
  {
    seq(|s|, i requires 0 <= i < |s| => LowerChar(s[i]))
  }

  /** `replace(/\s+/g, '-')`: every maximal run of white space becomes one hyphen. */
  function Hyphenate(s: string): (r: string)
    ensures NoSpace(r)
    ensures s != [] ==> r != []
    ensures NoSpace(s) ==> r == s
    decreases |s|
  {
    if s == [] then []
    else if IsSpace(s[0]) then ['-'] + Hyphenate(TrimStart(s))
    else
      assert NoSpace(s) ==> NoSpace(s[1..]);
      assert s == [s[0]] + s[1..];
      [s[0]] + Hyphenate(s[1..])
  }

  predicate AllSpace(s: string) {
    forall i :: 0 <= i < |s| ==> IsSpace(s[i])
  }

  /** Trimming the start drops a whole run of white space and stops at the first other character. */
  lemma {:induction false} TrimStartRun(sp: string, rest: string)
    requires AllSpace(sp) && (rest == [] || !IsSpace(rest[0]))
    ensures TrimStart(sp + rest) == rest
    decreases |sp|
  {
    if sp != [] {
      assert (sp + rest)[1..] == sp[1..] + rest;
      TrimStartRun(sp[1..], rest);
    } else {
      assert sp + rest == rest;
    }
  }

  /**
   * A word, then a maximal run of white space of any length, hyphenates to the
   * word and a single hyphen, followed by the hyphenated remainder.
   */
  lemma {:induction false} HyphenateRun(w: string, sp: string, rest: string)
    requires NoSpace(w) && sp != [] && AllSpace(sp) && (rest == [] || !IsSpace(rest[0]))
    ensures Hyphenate(w + sp + rest) == w + "-" + Hyphenate(rest)
    decreases |w|
  {
    if w == [] {
      assert w + sp + rest == sp + rest;
      TrimStartRun(sp, rest);
    } else {
      assert (w + sp + rest)[1..] == w[1..] + sp + rest;
      HyphenateRun(w[1..], sp, rest);
    }
  }

  lemma ToLowerConcat(a: string, b: string)
    ensures ToLower(a + b) == ToLower(a) + ToLower(b)
  {
    assert forall i :: 0 <= i < |a + b| ==> ToLower(a + b)[i] == (ToLower(a) + ToLower(b))[i];
  }

  /** `replace(/\s+/g, '-').toLowerCase()`, the map identifier derived from a map name. */
  function Slug(name: string): (r: string)
    ensures NoSpace(r)
    ensures name != [] ==> r != []
    ensures forall i :: 0 <= i < |r| ==> !('A' <= r[i] <= 'Z')
    ensures NoSpace(name) ==> r == ToLower(name)
  {
    ToLower(Hyphenate(name))
  }

  /** In a slug, a word followed by a run of white space becomes the lower-case word and one hyphen. */
  lemma SlugRun(w: string, sp: string, rest: string)
    requires NoSpace(w) && sp != [] && AllSpace(sp) && (rest == [] || !IsSpace(rest[0]))
    ensures Slug(w + sp + rest) == ToLower(w) + "-" + Slug(rest)
  {
    HyphenateRun(w, sp, rest);
    ToLowerConcat(w + "-", Hyphenate(rest));
    ToLowerConcat(w, "-");
  }

  /** Names that differ only in the length of a run of white space share a slug. */
  lemma SlugRunLength(w: string, sp1: string, sp2: string, rest: string)
    requires NoSpace(w) && (rest == [] || !IsSpace(rest[0]))
    requires sp1 != [] && AllSpace(sp1) && sp2 != [] && AllSpace(sp2)
    ensures Slug(w + sp1 + rest) == Slug(w + sp2 + rest)
  {
    SlugRun(w, sp1, rest);
    SlugRun(w, sp2, rest);
  }

  /**
   * The comparison `Array.prototype.sort` applies to strings by default:
   * lexicographic on character codes, a proper prefix first.
   */
  predicate Before(a: string, b: string)
    decreases |a|
  {
    if a == [] then b != []
    else if b == [] then false
    else if a[0] != b[0] then a[0] < b[0]
    else Before(a[1..], b[1..])
  }

  lemma {:induction false} BeforeIrreflexive(a: string)
    ensures !Before(a, a)
    decreases |a|
  {
    if a != [] {
      BeforeIrreflexive(a[1..]);
    }
  }

  lemma {:induction false} BeforeTransitive(a: string, b: string, c: string)
    requires Before(a, b) && Before(b, c)
    ensures Before(a, c)
    decreases |a|
  {
    if a != [] && b != [] && c != [] && a[0] == b[0] && b[0] == c[0] {
      BeforeTransitive(a[1..], b[1..], c[1..]);
    }
  }

  lemma {:induction false} BeforeTotal(a: string, b: string)
    requires a != b
    ensures Before(a, b) || Before(b, a)
    decreases |a|
  {
    if a != [] && b != [] && a[0] == b[0] {
      assert a == [a[0]] + a[1..] && b == [b[0]] + b[1..];
      BeforeTotal(a[1..], b[1..]);
    }
  }

  lemma BeforeAsymmetric(a: string, b: string)
    requires Before(a, b)
    ensures !Before(b, a)
  {
    if Before(b, a) {
      BeforeTransitive(a, b, a);
      BeforeIrreflexive(a);
    }
  }
}
