/** Tag parsing and the unordered pair key of the partial-mesh planner.
    These are the three pure expressions of the planning loop: the prefix test,
    the removal of the prefix from a tag, and the key of a pair of site ids. */
module Tags {

  /** The reserved prefix that marks a tag as a mesh-domain membership. */
  const Prefix: string := "AUTO-MESH_"

  predicate StartsWith(s: string, p: string) {
    |p| <= |s| && s[..|p|] == p
  }

  /** True iff `pat` occurs in `s` starting at position `i`. */
  predicate OccursAt(s: string, pat: string, i: int) {
    0 <= i && i + |pat| <= |s| && s[i..i + |pat|] == pat
  }

  /** True iff `pat` occurs nowhere in `s`. */
  predicate NoOccurrence(s: string, pat: string) {
    forall i | 0 <= i <= |s| - |pat| :: !OccursAt(s, pat, i)
  }

  /** A tag qualifies when it starts with the prefix and is longer than 11
      characters, so at least two characters must follow the 10-character prefix. */
  predicate Qualifies(tag: string) {
    StartsWith(tag, Prefix) && |tag| > 11
  }

  /** Python's `s.replace(pat, "")`: scanning from the left, every
      non-overlapping occurrence of `pat` is removed. */
  function RemoveAll(s: string, pat: string): (r: string)
    requires |pat| > 0
    ensures |r| <= |s|
    decreases |s|
  {
    if |s| < |pat| then s
    else if s[..|pat|] == pat then RemoveAll(s[|pat|..], pat)
    else [s[0]] + RemoveAll(s[1..], pat)
  }

  /** The domain a tag names: the tag with every occurrence of the prefix removed. */
  function Domain(tag: string): string {
    RemoveAll(tag, Prefix)
  }

  /** Python's `<=` on strings: lexicographic by code point, a prefix first. */
  predicate LexLe(a: string, b: string)
    decreases |a|
  {
    |a| == 0 || (|b| > 0 && (a[0] < b[0] || (a[0] == b[0] && LexLe(a[1..], b[1..]))))
  }

  /** `''.join(sorted([a, b]))`: the two ids concatenated, the smaller first. */
  function PairKey(a: string, b: string): (r: string)
    ensures |r| == |a| + |b|
    ensures r == a + b || r == b + a
  {
    if LexLe(a, b) then a + b else b + a
  }

  // ---------------------------------------------------------------------------
  // The tag test

  /** A tag qualifies exactly when it is the prefix followed by at least two characters. */
  lemma QualifiesIff(tag: string)
    ensures Qualifies(tag) <==> exists rest :: tag == Prefix + rest && |rest| >= 2
  {
    if Qualifies(tag) {
      var rest := tag[|Prefix|..];
      assert tag == Prefix + rest;
    }
    if exists rest :: tag == Prefix + rest && |rest| >= 2 {
      var rest :| tag == Prefix + rest && |rest| >= 2;
      assert tag[..|Prefix|] == Prefix;
    }
  }

  /** A single character after the prefix is not enough. */
  lemma OneCharacterSuffixRejected(c: char)
    ensures !Qualifies(Prefix + [c])
  {
  }

  // ---------------------------------------------------------------------------
  // Removal of the prefix

  /** Removal changes a string iff the pattern occurs in it. */
  lemma {:induction false} RemoveAllIdentityIff(s: string, pat: string)
    requires |pat| > 0
    ensures RemoveAll(s, pat) == s <==> NoOccurrence(s, pat)
  {
    if NoOccurrence(s, pat) {
      RemoveAllNoOccurrence(s, pat);
    } else {
      var i :| OccursAt(s, pat, i);
      RemoveAllShortens(s, pat, i);
    }
  }

  lemma {:induction false} RemoveAllNoOccurrence(s: string, pat: string)
    requires |pat| > 0
    requires NoOccurrence(s, pat)
    ensures RemoveAll(s, pat) == s
    decreases |s|
  {
    if |s| >= |pat| {
      assert !OccursAt(s, pat, 0);
      assert s[0..|pat|] == s[..|pat|];
      forall i ensures !OccursAt(s[1..], pat, i) {
        if OccursAt(s[1..], pat, i) {
          assert s[1..][i..i + |pat|] == s[i + 1..i + 1 + |pat|];
          assert OccursAt(s, pat, i + 1);
        }
      }
      RemoveAllNoOccurrence(s[1..], pat);
      assert [s[0]] + s[1..] == s;
    }
  }

  lemma {:induction false} RemoveAllShortens(s: string, pat: string, i: int)
    requires |pat| > 0
    requires OccursAt(s, pat, i)
    ensures |RemoveAll(s, pat)| < |s|
    decreases |s|
  {
    if s[..|pat|] != pat {
      assert i != 0;
      assert s[1..][i - 1..i - 1 + |pat|] == s[i..i + |pat|];
      RemoveAllShortens(s[1..], pat, i - 1);
    }
  }

  /** A qualifying tag whose suffix holds no further prefix names that suffix. */
  lemma DomainOfPlainSuffix(rest: string)
    requires NoOccurrence(rest, Prefix)
    ensures Domain(Prefix + rest) == rest
  {
    assert (Prefix + rest)[..|Prefix|] == Prefix;
    assert (Prefix + rest)[|Prefix|..] == rest;
    RemoveAllNoOccurrence(rest, Prefix);
  }

  /** Every occurrence is removed, not only the leading one: this tag
      qualifies, yet the domain it names is empty. */
  lemma DoublePrefixNamesEmptyDomain()
    ensures Qualifies(Prefix + Prefix)
    ensures Domain(Prefix + Prefix) == ""
  {
    var t := Prefix + Prefix;
    assert t[..|Prefix|] == Prefix;
    assert t[|Prefix|..] == Prefix;
    assert Prefix[..|Prefix|] == Prefix;
    assert Prefix[|Prefix|..] == "";
    assert RemoveAll(t, Prefix) == RemoveAll(Prefix, Prefix);
    assert RemoveAll(Prefix, Prefix) == RemoveAll("", Prefix) == "";
  }

  // ---------------------------------------------------------------------------
  // The pair key

  lemma {:induction false} LexLeTotal(a: string, b: string)
    ensures LexLe(a, b) || LexLe(b, a)
    decreases |a|
  {
    if |a| > 0 && |b| > 0 && a[0] == b[0] {
      LexLeTotal(a[1..], b[1..]);
    }
  }

  lemma {:induction false} LexLeAntisymmetric(a: string, b: string)
    requires LexLe(a, b) && LexLe(b, a)
    ensures a == b
    decreases |a|
  {
    if |a| > 0 {
      LexLeAntisymmetric(a[1..], b[1..]);
      assert a == [a[0]] + a[1..];
      assert b == [b[0]] + b[1..];
    }
  }

  /** The key does not depend on the order of the two ids. */
  lemma PairKeySymmetric(a: string, b: string)
    ensures PairKey(a, b) == PairKey(b, a)
  {
    LexLeTotal(a, b);
    if LexLe(a, b) && LexLe(b, a) {
      LexLeAntisymmetric(a, b);
    }
  }

  /** The key is not injective: two different pairs can share it. */
  lemma PairKeyCollides()
    ensures PairKey("a", "bc") == PairKey("ab", "c") == "abc"
  {
    assert LexLe("a", "bc");
    assert LexLe("ab", "c");
  }

  /** When all four ids have the same length, equal keys mean the same unordered pair. */
  lemma PairKeyInjectiveOnEqualLengths(a: string, b: string, c: string, d: string)
    requires |a| == |b| == |c| == |d|
    requires PairKey(a, b) == PairKey(c, d)
    ensures (a == c && b == d) || (a == d && b == c)
  {
    var n := |a|;
    var k1, k2 := PairKey(a, b), PairKey(c, d);
    assert (a + b)[..n] == a && (a + b)[n..] == b;
    assert (b + a)[..n] == b && (b + a)[n..] == a;
    assert (c + d)[..n] == c && (c + d)[n..] == d;
    assert (d + c)[..n] == d && (d + c)[n..] == c;
    assert k1[..n] == k2[..n] && k1[n..] == k2[n..];
  }
}
