/**
 * The string built-ins the pages and routes use, on `string` = `seq<char>`:
 * `startsWith`, `includes`, `split(c)[0]` and the `||` default on an
 * optional string (where the empty string counts as absent).
 */
module Text {
  import opened Wrappers

  /** `s.startsWith(p)` */
  predicate StartsWith(s: string, p: string) {
    |p| <= |s| && s[..|p|] == p
  }

  /** `sub` occurs in `s` at offset `i`. */
  predicate OccursAt(s: string, sub: string, i: nat) {
    i + |sub| <= |s| && s[i..i + |sub|] == sub
  }

  /** `s.includes(sub)`, scanning the offsets left to right. */
  predicate Contains(s: string, sub: string)
    decreases |s|
  {
    StartsWith(s, sub) || (|s| > 0 && Contains(s[1..], sub))
  }

  /** The scan finds an occurrence exactly when there is one. */
  lemma {:induction false} ContainsIffOccurs(s: string, sub: string)
    ensures Contains(s, sub) <==> exists i: nat :: OccursAt(s, sub, i)
    decreases |s|
  {
    if Contains(s, sub) {
      if StartsWith(s, sub) {
        assert OccursAt(s, sub, 0);
      } else {
        ContainsIffOccurs(s[1..], sub);
        var i: nat :| OccursAt(s[1..], sub, i);
        assert s[1..][i..i + |sub|] == s[i + 1..i + 1 + |sub|];
        assert OccursAt(s, sub, i + 1);
      }
    }
    if exists i: nat :: OccursAt(s, sub, i) {
      var i: nat :| OccursAt(s, sub, i);
      if i == 0 {
        assert StartsWith(s, sub);
      } else {
        assert s[1..][i - 1..i - 1 + |sub|] == s[i..i + |sub|];
        assert OccursAt(s[1..], sub, i - 1);
        ContainsIffOccurs(s[1..], sub);
      }
    }
  }

  /** Every string contains its own prefixes. */
  lemma PrefixIsContained(s: string, p: string)
    requires StartsWith(s, p)
    ensures Contains(s, p)
  {
  }

  /** If `s` contains `a` and `a` contains `b`, then `s` contains `b`. */
  lemma ContainsTransitive(s: string, a: string, b: string)
    requires Contains(s, a) && Contains(a, b)
    ensures Contains(s, b)
  {
    ContainsIffOccurs(s, a);
    ContainsIffOccurs(a, b);
    var i: nat :| OccursAt(s, a, i);
    var j: nat :| OccursAt(a, b, j);
    forall k | 0 <= k < |b| ensures s[i + j + k] == b[k] {
      assert b[k] == a[j..j + |b|][k] == a[j + k];
      assert a[j + k] == s[i..i + |a|][j + k] == s[i + j + k];
    }
    assert s[i + j..i + j + |b|] == b;
    assert OccursAt(s, b, i + j);
    ContainsIffOccurs(s, b);
  }

  /** A text contains the text it ends with. */
  lemma ContainsSuffix(pre: string, sub: string)
    ensures Contains(pre + sub, sub)
  {
    var s := pre + sub;
    assert s[|pre|..|pre| + |sub|] == sub;
    assert OccursAt(s, sub, |pre|);
    ContainsIffOccurs(s, sub);
  }

  /** Whatever contains `pre + sub` contains `sub`. */
  lemma ContainsLonger(s: string, pre: string, sub: string)
    requires Contains(s, pre + sub)
    ensures Contains(s, sub)
  {
    ContainsSuffix(pre, sub);
    ContainsTransitive(s, pre + sub, sub);
  }

  /** `s.split(c)[0]`: the text before the first `c`, or all of `s`. */
  function SplitFirst(s: string, c: char): (r: string)
    ensures StartsWith(s, r)
    ensures c !in r
    ensures |r| < |s| ==> s[|r|] == c
  {
    if s == [] then []
    else if s[0] == c then []
    else [s[0]] + SplitFirst(s[1..], c)
  }

  /** A string with no `c` in it splits to itself. */
  lemma SplitFirstWithout(s: string, c: char)
    requires c !in s
    ensures SplitFirst(s, c) == s
  {
  }

  /** `p + [c] + q` with `c` not in `p` splits to `p`. */
  lemma {:induction false} SplitFirstAt(p: string, c: char, q: string)
    requires c !in p
    ensures SplitFirst(p + [c] + q, c) == p
  {
    var s := p + [c] + q;
    if p != [] {
      assert s[0] == p[0] != c;
      assert s[1..] == p[1..] + [c] + q;
      SplitFirstAt(p[1..], c, q);
    }
  }

  /** JavaScript truthiness of an optional string. */
  predicate Truthy(a: Option<string>) {
    a.Some? && a.value != ""
  }

  /** `a || d` on an optional string. */
  function Or(a: Option<string>, d: string): (r: string)
    ensures Truthy(a) ==> r == a.value
    ensures !Truthy(a) ==> r == d
  {
    if Truthy(a) then a.value else d
  }

  /** `a || b`, both optional. */
  function OrElse(a: Option<string>, b: Option<string>): (r: Option<string>)
    ensures Truthy(r) <==> Truthy(a) || Truthy(b)
  {
    if Truthy(a) then a else b
  }
}
