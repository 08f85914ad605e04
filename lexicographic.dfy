/**
 * Python's ordering of `str` values (code point by code point, a proper
 * prefix first), the strictly ascending sequences that `sorted(listdir(...))`
 * produces, and the "last k" slice `xs[-k:]`.
 */
module Lexicographic {

  /** `a < b` on Python strings. */
  predicate Below(a: string, b: string)
    decreases |a|
  {
    if |b| == 0 then false
    else if |a| == 0 then true
    else if a[0] != b[0] then a[0] < b[0]
    else Below(a[1..], b[1..])
  }

  lemma {:induction false} BelowIrreflexive(a: string)
    ensures !Below(a, a)
    decreases |a|
  {
    if |a| > 0 {
      BelowIrreflexive(a[1..]);
    }
  }

  lemma {:induction false} BelowTransitive(a: string, b: string, c: string)
    requires Below(a, b) && Below(b, c)
    ensures Below(a, c)
    decreases |a|
  {
    if |a| > 0 && a[0] == b[0] && b[0] == c[0] {
      BelowTransitive(a[1..], b[1..], c[1..]);
    }
  }

  lemma {:induction false} BelowTotal(a: string, b: string)
    requires a != b
    ensures Below(a, b) || Below(b, a)
    decreases |a|
  {
    if |a| > 0 && |b| > 0 && a[0] == b[0] {
      assert a == [a[0]] + a[1..] && b == [b[0]] + b[1..];
      BelowTotal(a[1..], b[1..]);
    }
  }

  lemma BelowAsymmetric(a: string, b: string)
    requires Below(a, b)
    ensures !Below(b, a) && a != b
  {
    BelowIrreflexive(a);
    if Below(b, a) {
      BelowTransitive(a, b, a);
    }
  }

  /**
   * Comparing two strings whose first parts have the same length: the
   * first parts decide unless they are equal, and then the rest decides.
   * This is why fixed-width, zero-padded fields sort field by field.
   */
  lemma {:induction false} BelowConcat(x1: string, y1: string, x2: string, y2: string)
    requires |x1| == |x2|
    ensures x1 + y1 == x2 + y2 <==> x1 == x2 && y1 == y2
    ensures Below(x1 + y1, x2 + y2) <==> if x1 == x2 then Below(y1, y2) else Below(x1, x2)
    decreases |x1|
  {
    if |x1| == 0 {
      assert x1 + y1 == y1 && x2 + y2 == y2;
    } else {
      assert (x1 + y1)[0] == x1[0] && (x2 + y2)[0] == x2[0];
      assert (x1 + y1)[1..] == x1[1..] + y1 && (x2 + y2)[1..] == x2[1..] + y2;
      assert x1 == [x1[0]] + x1[1..] && x2 == [x2[0]] + x2[1..];
      if x1[0] != x2[0] {
        assert (x1 + y1)[0] != (x2 + y2)[0];
      } else {
        BelowConcat(x1[1..], y1, x2[1..], y2);
        assert x1 + y1 == [x1[0]] + (x1[1..] + y1);
        assert x2 + y2 == [x2[0]] + (x2[1..] + y2);
      }
    }
  }

  /** Strictly ascending: what sorting a directory listing yields. */
  predicate StrictlySorted(s: seq<string>) {
    forall i, j :: 0 <= i < j < |s| ==> Below(s[i], s[j])
  }

  lemma SortedCons(x: string, s: seq<string>)
    requires StrictlySorted(s)
    requires |s| == 0 || Below(x, s[0])
    ensures StrictlySorted([x] + s)
  {
    forall j | 0 < j < |s|
      ensures Below(x, s[j])
    {
      BelowTransitive(x, s[0], s[j]);
    }
  }

  lemma SortedDistinct(s: seq<string>, i: int, j: int)
    requires StrictlySorted(s)
    requires 0 <= i < |s| && 0 <= j < |s| && i != j
    ensures s[i] != s[j]
  {
    if i < j {
      BelowAsymmetric(s[i], s[j]);
    } else {
      BelowAsymmetric(s[j], s[i]);
    }
  }

  /** Adds `x` to a sorted listing, keeping it sorted; a name already present changes nothing. */
  function Insert(s: seq<string>, x: string): (r: seq<string>)
    requires StrictlySorted(s)
    ensures StrictlySorted(r)
    ensures forall y :: y in r <==> y in s || y == x
    ensures x in s ==> r == s
    ensures x !in s ==> |r| == |s| + 1
    decreases |s|
  {
    if |s| == 0 then [x]
    else if x == s[0] then s
    else if Below(x, s[0]) then
      SortedCons(x, s);
      assert x !in s by {
        forall j | 0 < j < |s| ensures s[j] != x {
          BelowTransitive(x, s[0], s[j]);
          BelowIrreflexive(x);
        }
      }
      [x] + s
    else
      BelowTotal(x, s[0]);
      var rest := Insert(s[1..], x);
      assert s == [s[0]] + s[1..];
      assert forall j :: 0 < j < |s| ==> Below(s[0], s[j]);
      assert Below(s[0], rest[0]) by {
        assert rest[0] in s[1..] || rest[0] == x;
      }
      SortedCons(s[0], rest);
      [s[0]] + rest
  }

  /** `sorted(names)`: names in ascending order, each once. */
  function SortNames(names: seq<string>): (r: seq<string>)
    ensures StrictlySorted(r)
    ensures forall y :: y in r <==> y in names
    decreases |names|
  {
    if |names| == 0 then []
    else Insert(SortNames(names[..|names| - 1]), names[|names| - 1])
  }

  /** A strictly ascending sequence is determined by its elements, so `SortNames` is the sorted order. */
  lemma {:induction false} SortedUnique(a: seq<string>, b: seq<string>)
    requires StrictlySorted(a) && StrictlySorted(b)
    requires forall y :: y in a <==> y in b
    ensures a == b
    decreases |a|
  {
    assert |a| > 0 ==> a[0] in b;
    assert |b| > 0 ==> b[0] in a;
    if |a| > 0 {
      var k :| 0 <= k < |b| && b[k] == a[0];
      var m :| 0 <= m < |a| && a[m] == b[0];
      if k > 0 {
        if m > 0 {
          BelowAsymmetric(a[0], a[m]);
        } else {
          SortedDistinct(b, 0, k);
        }
      }
      assert a[0] == b[0];
      forall y
        ensures y in a[1..] <==> y in b[1..]
      {
        if y in a[1..] {
          var i :| 1 <= i < |a| && a[i] == y;
          SortedDistinct(a, 0, i);
          assert y in b;
        }
        if y in b[1..] {
          var i :| 1 <= i < |b| && b[i] == y;
          SortedDistinct(b, 0, i);
          assert y in a;
        }
      }
      SortedUnique(a[1..], b[1..]);
      assert a == [a[0]] + a[1..] && b == [b[0]] + b[1..];
    }
  }

  /**
   * `xs[-k:]` for a list `xs` and a positive `k`: the last `k` elements, or
   * all of them when there are fewer. (`xs[-0:]` would be all of `xs`.)
   */
  function Newest<T>(xs: seq<T>, k: nat): (r: seq<T>)
    requires k > 0
    ensures |r| == if |xs| < k then |xs| else k
    ensures r == xs[|xs| - |r|..]
  {
    if |xs| <= k then xs else xs[|xs| - k..]
  }

  /**
   * On a sorted sequence, `Newest` keeps the largest elements: whatever it
   * drops is below everything it keeps.
   */
  lemma NewestKeepsLargest(xs: seq<string>, k: nat)
    requires k > 0
    requires StrictlySorted(xs)
    ensures StrictlySorted(Newest(xs, k))
    ensures forall x, y :: x in xs && x !in Newest(xs, k) && y in Newest(xs, k) ==> Below(x, y)
  {
    var r := Newest(xs, k);
    var d := |xs| - |r|;
    forall x, y | x in xs && x !in r && y in r
      ensures Below(x, y)
    {
      var i :| 0 <= i < |xs| && xs[i] == x;
      var j :| 0 <= j < |r| && r[j] == y;
      assert xs[d + j] == y;
      assert forall t :: d <= t < |xs| ==> xs[t] == r[t - d];
    }
  }
}
