/** Filters, maps and subsequences. */
module Sequences {
  function Filter<T>(keep: T -> bool, s: seq<T>): (r: seq<T>)
    ensures forall i :: 0 <= i < |r| ==> keep(r[i])
    ensures |r| <= |s|
  {
    if s == [] then []
    else
      var n := |s| - 1;
      Filter(keep, s[..n]) + if keep(s[n]) then [s[n]] else []
  }

  lemma FilterSnoc<T>(keep: T -> bool, s: seq<T>, x: T)
    ensures Filter(keep, s + [x]) == Filter(keep, s) + if keep(x) then [x] else []
  {
    assert (s + [x])[..|s|] == s;
  }

  lemma {:induction false} FilterConcat<T>(keep: T -> bool, a: seq<T>, b: seq<T>)
    ensures Filter(keep, a + b) == Filter(keep, a) + Filter(keep, b)
  {
    if b == [] {
      assert a + b == a;
      assert Filter(keep, a) + [] == Filter(keep, a);
    } else {
      var n := |b| - 1;
      FilterConcat(keep, a, b[..n]);
      assert a + b == (a + b[..n]) + [b[n]];
      FilterSnoc(keep, a + b[..n], b[n]);
      assert b == b[..n] + [b[n]];
      FilterSnoc(keep, b[..n], b[n]);
      var last := if keep(b[n]) then [b[n]] else [];
      assert Filter(keep, a) + (Filter(keep, b[..n]) + last) == Filter(keep, a) + Filter(keep, b[..n]) + last;
    }
  }

  lemma {:induction false} FilterNone<T>(keep: T -> bool, s: seq<T>)
    requires forall i :: 0 <= i < |s| ==> !keep(s[i])
    ensures Filter(keep, s) == []
  {
    if s != [] {
      FilterNone(keep, s[..|s| - 1]);
    }
  }

  lemma {:induction false} FilterAll<T>(keep: T -> bool, s: seq<T>)
    requires forall i :: 0 <= i < |s| ==> keep(s[i])
    ensures Filter(keep, s) == s
  {
    if s != [] {
      FilterAll(keep, s[..|s| - 1]);
      assert s == s[..|s| - 1] + [s[|s| - 1]];
    }
  }

  /** Filters that agree on the elements of a sequence give the same result. */
  lemma {:induction false} FilterSame<T>(f: T -> bool, g: T -> bool, s: seq<T>)
    requires forall i :: 0 <= i < |s| ==> f(s[i]) == g(s[i])
    ensures Filter(f, s) == Filter(g, s)
  {
    if s != [] {
      FilterSame(f, g, s[..|s| - 1]);
    }
  }

  function Map<T, U>(f: T -> U, s: seq<T>): (r: seq<U>)
    ensures |r| == |s| && forall i :: 0 <= i < |s| ==> r[i] == f(s[i])
  {
    seq(|s|, i requires 0 <= i < |s| => f(s[i]))
  }

  lemma MapConcat<T, U>(f: T -> U, a: seq<T>, b: seq<T>)
    ensures Map(f, a + b) == Map(f, a) + Map(f, b)
  {
  }

  /** `a` can be had from `b` by leaving elements out. */
  ghost predicate Subseq<T>(a: seq<T>, b: seq<T>)
    decreases |b|
  {
    if a == [] then true
    else if b == [] then false
    else
      var m, n := |a| - 1, |b| - 1;
      (a[m] == b[n] && Subseq(a[..m], b[..n])) || Subseq(a, b[..n])
  }

  lemma SubseqSnoc<T>(a: seq<T>, b: seq<T>, x: T)
    requires Subseq(a, b)
    ensures Subseq(a + [x], b + [x]) && Subseq(a, b + [x])
  {
    assert (a + [x])[..|a|] == a && (b + [x])[..|b|] == b;
  }

  lemma {:induction false} SubseqLength<T>(a: seq<T>, b: seq<T>)
    requires Subseq(a, b)
    ensures |a| <= |b|
    decreases |b|
  {
    if a != [] && b != [] {
      var m, n := |a| - 1, |b| - 1;
      if a[m] == b[n] && Subseq(a[..m], b[..n]) {
        SubseqLength(a[..m], b[..n]);
      } else {
        SubseqLength(a, b[..n]);
      }
    }
  }

  lemma {:induction false} SubseqSelf<T>(a: seq<T>)
    ensures Subseq(a, a)
  {
    if a != [] {
      SubseqSelf(a[..|a| - 1]);
    }
  }

  lemma {:induction false} SubseqConcat<T>(a: seq<T>, b: seq<T>, x: seq<T>, y: seq<T>)
    requires Subseq(a, b) && Subseq(x, y)
    ensures Subseq(a + x, b + y)
    decreases |y|
  {
    if y == [] {
      assert a + x == a && b + y == b;
    } else {
      var n := |y| - 1;
      assert b + y == (b + y[..n]) + [y[n]];
      if x == [] {
        SubseqConcat(a, b, x, y[..n]);
        SubseqSnoc(a + x, b + y[..n], y[n]);
      } else {
        var m := |x| - 1;
        if x[m] == y[n] && Subseq(x[..m], y[..n]) {
          SubseqConcat(a, b, x[..m], y[..n]);
          SubseqSnoc(a + x[..m], b + y[..n], y[n]);
          assert a + x == (a + x[..m]) + [x[m]];
        } else {
          SubseqConcat(a, b, x, y[..n]);
          SubseqSnoc(a + x, b + y[..n], y[n]);
        }
      }
    }
  }

  lemma {:induction false} SubseqFilter<T>(keep: T -> bool, a: seq<T>, b: seq<T>)
    requires Subseq(a, b)
    ensures Subseq(Filter(keep, a), Filter(keep, b))
    decreases |b|
  {
    if a != [] && b != [] {
      var m, n := |a| - 1, |b| - 1;
      assert Filter(keep, b[..n]) + [] == Filter(keep, b[..n]);
      assert Filter(keep, a[..m]) + [] == Filter(keep, a[..m]);
      if a[m] == b[n] && Subseq(a[..m], b[..n]) {
        SubseqFilter(keep, a[..m], b[..n]);
        if keep(b[n]) {
          SubseqSnoc(Filter(keep, a[..m]), Filter(keep, b[..n]), b[n]);
        }
      } else {
        SubseqFilter(keep, a, b[..n]);
        if keep(b[n]) {
          SubseqSnoc(Filter(keep, a), Filter(keep, b[..n]), b[n]);
        }
      }
    }
  }

  lemma {:induction false} SubseqMap<T, U>(f: T -> U, a: seq<T>, b: seq<T>)
    requires Subseq(a, b)
    ensures Subseq(Map(f, a), Map(f, b))
    decreases |b|
  {
    if a != [] && b != [] {
      var m, n := |a| - 1, |b| - 1;
      assert Map(f, b) == Map(f, b[..n]) + [f(b[n])];
      if a[m] == b[n] && Subseq(a[..m], b[..n]) {
        assert Map(f, a) == Map(f, a[..m]) + [f(a[m])];
        SubseqMap(f, a[..m], b[..n]);
        SubseqSnoc(Map(f, a[..m]), Map(f, b[..n]), f(b[n]));
      } else {
        SubseqMap(f, a, b[..n]);
        SubseqSnoc(Map(f, a), Map(f, b[..n]), f(b[n]));
      }
    }
  }

  lemma {:induction false} SubseqTrans<T>(a: seq<T>, b: seq<T>, c: seq<T>)
    requires Subseq(a, b) && Subseq(b, c)
    ensures Subseq(a, c)
    decreases |b| + |c|
  {
    if a != [] {
      var l, m, n := |a| - 1, |b| - 1, |c| - 1;
      if b[m] == c[n] && Subseq(b[..m], c[..n]) {
        if a[l] == b[m] && Subseq(a[..l], b[..m]) {
          SubseqTrans(a[..l], b[..m], c[..n]);
        } else {
          SubseqTrans(a, b[..m], c[..n]);
        }
      } else {
        SubseqTrans(a, b, c[..n]);
      }
    }
  }
}
