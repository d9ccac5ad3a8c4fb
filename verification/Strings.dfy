/** Order of strings by code point, as Python's `sorted` uses it. */
module Strings {
  predicate LexLess(a: string, b: string)
    decreases |a|
  {
    b != [] && (a == [] || a[0] < b[0] || (a[0] == b[0] && LexLess(a[1..], b[1..])))
  }

  lemma {:induction false} LexTotal(a: string, b: string)
    ensures a != b ==> LexLess(a, b) || LexLess(b, a)
    ensures !(LexLess(a, b) && LexLess(b, a))
    decreases |a|
  {
    if a != [] && b != [] && a[0] == b[0] {
      LexTotal(a[1..], b[1..]);
      assert a == [a[0]] + a[1..] && b == [b[0]] + b[1..];
    }
  }

  lemma {:induction false} LexTransitive(a: string, b: string, c: string)
    requires LexLess(a, b) && LexLess(b, c)
    ensures LexLess(a, c)
    decreases |a|
  {
    if a != [] && a[0] == b[0] && b[0] == c[0] {
      LexTransitive(a[1..], b[1..], c[1..]);
    }
  }

  predicate Ascending(s: seq<string>) {
    forall i, j | 0 <= i < j < |s| :: LexLess(s[i], s[j])
  }

  /** `listing` is `sorted(keys)`. */
  ghost predicate IsSorted(listing: seq<string>, keys: set<string>) {
    Ascending(listing) && (forall k :: k in listing <==> k in keys)
  }

  lemma {:induction false} SortedIsUnique(a: seq<string>, b: seq<string>, keys: set<string>)
    requires IsSorted(a, keys) && IsSorted(b, keys)
    ensures a == b
    decreases |a|
  {
    var first := if b == [] then "" else b[0];
    assert b == [] || first in b;
    if a != [] {
      assert a[0] in keys;
      FirstIsLeast(a, b, keys);
      FirstIsLeast(b, a, keys);
      LexTotal(a[0], b[0]);
      var rest := keys - {a[0]};
      WithoutFirst(a, keys);
      WithoutFirst(b, keys);
      SortedIsUnique(a[1..], b[1..], rest);
      assert a == [a[0]] + a[1..] && b == [b[0]] + b[1..];
    }
  }

  lemma FirstIsLeast(a: seq<string>, b: seq<string>, keys: set<string>)
    requires IsSorted(a, keys) && IsSorted(b, keys) && a != []
    ensures b != [] && !LexLess(b[0], a[0])
  {
    assert a[0] in a;
    assert a[0] in b;
    assert b[0] in b;
    assert b[0] in a;
    var i :| 0 <= i < |a| && a[i] == b[0];
    if i > 0 {
      assert LexLess(a[0], a[i]);
    }
    LexTotal(a[0], b[0]);
  }

  lemma WithoutFirst(a: seq<string>, keys: set<string>)
    requires IsSorted(a, keys) && a != []
    ensures IsSorted(a[1..], keys - {a[0]})
  {
    forall i | 1 <= i < |a| ensures a[i] != a[0] {
      LexTotal(a[0], a[i]);
    }
    forall k ensures k in a[1..] <==> k in keys - {a[0]} {
      if k in keys - {a[0]} {
        var i :| 0 <= i < |a| && a[i] == k;
        assert a[1..][i - 1] == k;
      }
      if k in a[1..] {
        var i :| 0 <= i < |a| - 1 && a[1..][i] == k;
        assert a[i + 1] == k;
      }
    }
  }

  /** `sorted(keys)` by insertion. */
  method SortKeys(keys: set<string>) returns (listing: seq<string>)
    ensures IsSorted(listing, keys)
  {
    listing := [];
    var rest := keys;
    while rest != {}
      invariant rest <= keys && IsSorted(listing, keys - rest)
      decreases rest
    {
      var k :| k in rest;
      var n := 0;
      while n < |listing| && LexLess(listing[n], k)
        invariant 0 <= n <= |listing|
        invariant forall i | 0 <= i < n :: LexLess(listing[i], k)
      {
        n := n + 1;
      }
      InsertKeepsSorted(listing, n, k, keys - rest);
      listing := listing[..n] + [k] + listing[n..];
      rest := rest - {k};
      assert keys - rest == keys - (rest + {k}) + {k};
    }
    assert keys - rest == keys;
  }

  lemma InsertKeepsSorted(s: seq<string>, n: nat, k: string, keys: set<string>)
    requires IsSorted(s, keys) && n <= |s| && k !in keys
    requires forall i | 0 <= i < n :: LexLess(s[i], k)
    requires n < |s| ==> !LexLess(s[n], k)
    ensures IsSorted(s[..n] + [k] + s[n..], keys + {k})
  {
    var t := s[..n] + [k] + s[n..];
    forall j | n <= j < |s| ensures LexLess(k, s[j]) {
      assert s[n] in keys;
      LexTotal(s[n], k);
      if j > n { LexTransitive(k, s[n], s[j]); }
    }
    forall i, j | 0 <= i < j < |t| ensures LexLess(t[i], t[j]) {
      var a := if i < n then i else i - 1;
      var b := if j < n then j else j - 1;
      if i != n { assert t[i] == s[a]; }
      if j != n { assert t[j] == s[b]; }
    }
    forall x ensures x in t <==> x in keys + {k} {
      if x in s {
        var i :| 0 <= i < |s| && s[i] == x;
        assert t[if i < n then i else i + 1] == x;
      }
      assert t[n] == k;
    }
  }
}
