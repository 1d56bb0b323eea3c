/** Map keys in a stable order: sorted by their characters, as sort.Strings leaves them. */
module Sorting {

  /** Strictly before, character by character. */
  predicate Before(a: string, b: string) {
    b != [] && (a == [] || a[0] < b[0] || (a[0] == b[0] && Before(a[1..], b[1..])))
  }

  lemma {:induction false} BeforeIsTotal(a: string, b: string)
    ensures !Before(a, a)
    ensures a != b ==> Before(a, b) != Before(b, a)
  {
    if a != [] {
      BeforeIsTotal(a[1..], a[1..]);
    }
    if a != [] && b != [] && a[0] == b[0] {
      BeforeIsTotal(a[1..], b[1..]);
      assert a == [a[0]] + a[1..] && b == [b[0]] + b[1..];
    }
  }

  /** The order is by the first character in which they differ, a prefix coming first. */
  lemma {:induction false} BeforeIff(a: string, b: string)
    ensures Before(a, b) <==> a < b || exists i :: DifferAt(a, b, i) && a[i] < b[i]
  {
    forall i | DifferAt(a, b, i) && i > 0 ensures a[0] == b[0] { SameFirst(a, b, i); }
    if a != [] && b != [] && a[0] == b[0] {
      BeforeIff(a[1..], b[1..]);
      assert a == [a[0]] + a[1..] && b == [b[0]] + b[1..];
      if a[1..] < b[1..] { assert a < b; }
      if i :| DifferAt(a[1..], b[1..], i) && a[1..][i] < b[1..][i] { DifferLater(a, b, i); }
      if i :| DifferAt(a, b, i) && a[i] < b[i] { DifferLater(a, b, i - 1); }
    } else if a != [] && b != [] {
      assert a[0] < b[0] ==> DifferAt(a, b, 0);
    }
  }

  ghost predicate DifferAt(a: string, b: string, i: int) {
    0 <= i < |a| && i < |b| && a[..i] == b[..i] && a[i] != b[i]
  }

  lemma SameFirst(a: string, b: string, i: int)
    requires 0 < i <= |a| && i <= |b| && a[..i] == b[..i]
    ensures a[0] == b[0]
  {
    assert a[..i][0] == b[..i][0];
  }

  lemma DifferLater(a: string, b: string, i: int)
    requires a != [] && b != [] && a[0] == b[0] && i >= 0
    ensures DifferAt(a, b, i + 1) <==> DifferAt(a[1..], b[1..], i)
  {
    if i + 1 < |a| && i + 1 < |b| {
      assert a[..i + 1] == [a[0]] + a[1..][..i] && b[..i + 1] == [b[0]] + b[1..][..i];
      assert a[..i + 1][1..] == a[1..][..i] && b[..i + 1][1..] == b[1..][..i];
    }
  }

  lemma {:induction false} BeforeIsTransitive(a: string, b: string, c: string)
    requires Before(a, b) && Before(b, c)
    ensures Before(a, c)
  {
    if a != [] && a[0] == b[0] == c[0] {
      BeforeIsTransitive(a[1..], b[1..], c[1..]);
    }
  }

  ghost predicate Ascending(s: seq<string>) {
    forall i, j :: 0 <= i < j < |s| ==> Before(s[i], s[j])
  }

  function Insert(s: seq<string>, x: string): (r: seq<string>)
    ensures forall y :: y in r <==> y in s || y == x
  {
    if s == [] || Before(x, s[0]) then [x] + s
    else
      var rest := Insert(s[1..], x);
      assert s == [s[0]] + s[1..];
      [s[0]] + rest
  }

  lemma {:induction false} InsertKeepsOrder(s: seq<string>, x: string)
    requires Ascending(s) && x !in s
    ensures Ascending(Insert(s, x))
  {
    if s == [] {
    } else if Before(x, s[0]) {
      forall j | 0 <= j < |s| ensures Before(x, s[j]) {
        if j > 0 {
          BeforeIsTransitive(x, s[0], s[j]);
        }
      }
    } else {
      BeforeIsTotal(x, s[0]);
      InsertKeepsOrder(s[1..], x);
      var rest := Insert(s[1..], x);
      forall j | 0 <= j < |rest| ensures Before(s[0], rest[j]) {
        assert rest[j] in rest;
        if rest[j] != x {
          var k :| 0 <= k < |s[1..]| && s[1..][k] == rest[j];
          assert Before(s[0], s[k + 1]);
        }
      }
    }
  }

  lemma FirstIsThere(s: seq<string>)
    ensures s != [] ==> s[0] in s
  {
  }

  /** Two ascending sequences of the same strings are the same: the order is stable. */
  lemma {:induction false} AscendingIsUnique(a: seq<string>, b: seq<string>)
    requires Ascending(a) && Ascending(b) && forall x :: x in a <==> x in b
    ensures a == b
  {
    FirstIsThere(a);
    FirstIsThere(b);
    if a != [] {
      assert a[0] == b[0] by {
        var i :| 0 <= i < |a| && a[i] == b[0];
        var j :| 0 <= j < |b| && b[j] == a[0];
        BeforeIsTotal(a[0], b[0]);
      }
      BeforeIsTotal(a[0], a[0]);
      forall x ensures x in a[1..] <==> x in b[1..] {
        assert x in a <==> x == a[0] || x in a[1..];
        assert x in b <==> x == b[0] || x in b[1..];
        if x in a[1..] {
          var k :| 0 <= k < |a[1..]| && a[1..][k] == x;
          assert Before(a[0], a[k + 1]);
        }
        if x in b[1..] {
          var k :| 0 <= k < |b[1..]| && b[1..][k] == x;
          assert Before(b[0], b[k + 1]);
        }
      }
      AscendingIsUnique(a[1..], b[1..]);
    }
  }

  /** The keys are met in any order; what comes out is sorted, each key once. */
  method SortedKeys(keys: set<string>) returns (out: seq<string>)
    ensures Ascending(out)
    ensures forall k :: k in out <==> k in keys
  {
    out := [];
    var left := keys;
    while left != {}
      invariant Ascending(out) && left <= keys
      invariant forall k :: k in out <==> k in keys && k !in left
      decreases |left|
    {
      var k :| k in left;
      InsertKeepsOrder(out, k);
      out := Insert(out, k);
      left := left - {k};
    }
  }
}
