/**
 * The three array operations the components use on lists of nodes and
 * workflows: `find` (first match), `filter` (order-preserving selection) and
 * `flat` (one level of concatenation).
 */
module Seqs {
  import opened Wrappers

  /** `xs.find(p)`: the first element satisfying `p`, or none. */
  function FindFirst<T(==)>(xs: seq<T>, p: T -> bool): (r: Option<T>)
    ensures r.None? <==> forall i :: 0 <= i < |xs| ==> !p(xs[i])
    ensures r.Some? ==> exists i :: 0 <= i < |xs| && xs[i] == r.value && p(xs[i]) &&
                          forall j :: 0 <= j < i ==> !p(xs[j])
  {
    if xs == [] then None
    else if p(xs[0]) then
      Some(xs[0])
    else
      var r := FindFirst(xs[1..], p);
      if r.Some? then
        var i :| 0 <= i < |xs[1..]| && xs[1..][i] == r.value && p(xs[1..][i]) &&
                 forall j :: 0 <= j < i ==> !p(xs[1..][j]);
        assert xs[i + 1] == r.value;
        assert forall j :: 0 <= j < i + 1 ==> !p(xs[j]) by {
          forall j | 0 <= j < i + 1 ensures !p(xs[j]) {
            if j > 0 { assert xs[j] == xs[1..][j - 1]; }
          }
        }
        r
      else
        assert forall i :: 0 <= i < |xs| ==> !p(xs[i]) by {
          forall i | 0 <= i < |xs| ensures !p(xs[i]) {
            if i > 0 { assert xs[i] == xs[1..][i - 1]; }
          }
        }
        r
  }

  /** `xs.filter(p)`: the elements satisfying `p`, in their original order. */
  function Filter<T(==)>(xs: seq<T>, p: T -> bool): (r: seq<T>)
    ensures |r| <= |xs|
    ensures forall i :: 0 <= i < |r| ==> p(r[i]) && r[i] in xs
    ensures forall i :: 0 <= i < |xs| && p(xs[i]) ==> xs[i] in r
  {
    if xs == [] then []
    else
      var rest := Filter(xs[1..], p);
      assert forall i :: 1 <= i < |xs| ==> xs[i] == xs[1..][i - 1];
      if p(xs[0]) then [xs[0]] + rest else rest
  }

  /** Filtering distributes over concatenation: together with the one-element
      case this pins the result down as the order-preserving selection. */
  lemma {:induction false} FilterAppend<T>(xs: seq<T>, ys: seq<T>, p: T -> bool)
    ensures Filter(xs + ys, p) == Filter(xs, p) + Filter(ys, p)
  {
    if xs == [] {
      assert xs + ys == ys;
    } else {
      assert (xs + ys)[1..] == xs[1..] + ys;
      FilterAppend(xs[1..], ys, p);
    }
  }

  /** A list whose elements all pass is kept whole; one whose elements all
      fail is dropped entirely. */
  lemma {:induction false} FilterAllOrNone<T>(xs: seq<T>, p: T -> bool)
    ensures (forall i :: 0 <= i < |xs| ==> p(xs[i])) ==> Filter(xs, p) == xs
    ensures (forall i :: 0 <= i < |xs| ==> !p(xs[i])) ==> Filter(xs, p) == []
  {
    if xs != [] {
      FilterAllOrNone(xs[1..], p);
      assert forall i :: 1 <= i < |xs| ==> xs[1..][i - 1] == xs[i];
    }
  }

  /** Filtering a list that starts with a failing element skips it; one
      that starts with a passing element keeps it in front. */
  lemma FilterFirst<T>(xs: seq<T>, p: T -> bool)
    requires xs != []
    ensures Filter(xs, p) == if p(xs[0]) then [xs[0]] + Filter(xs[1..], p) else Filter(xs[1..], p)
  {
  }

  /** A leading run of failing elements is dropped. */
  lemma {:induction false} FilterSkipFailing<T>(xs: seq<T>, p: T -> bool, n: int)
    requires 0 <= n <= |xs|
    requires forall i :: 0 <= i < n ==> !p(xs[i])
    ensures Filter(xs, p) == Filter(xs[n..], p)
    decreases n
  {
    if n > 0 {
      var t := xs[1..];
      assert forall i :: 0 <= i < n - 1 ==> !p(t[i]) by {
        forall i | 0 <= i < n - 1 ensures !p(t[i]) {
          assert t[i] == xs[i + 1];
        }
      }
      FilterSkipFailing(t, p, n - 1);
      FilterFirst(xs, p);
      assert t[n - 1..] == xs[n..];
    }
  }

  /** A list whose first n elements pass and whose others fail keeps
      exactly those n. */
  lemma {:induction false} FilterKeepPassing<T>(xs: seq<T>, p: T -> bool, n: int)
    requires 0 <= n <= |xs|
    requires forall i :: 0 <= i < |xs| ==> (p(xs[i]) <==> i < n)
    ensures Filter(xs, p) == xs[..n]
    decreases n
  {
    if n == 0 {
      FilterAllOrNone(xs, p);
    } else {
      var t := xs[1..];
      assert forall i :: 0 <= i < |t| ==> (p(t[i]) <==> i < n - 1) by {
        forall i | 0 <= i < |t| ensures p(t[i]) <==> i < n - 1 {
          assert t[i] == xs[i + 1];
        }
      }
      FilterKeepPassing(t, p, n - 1);
      FilterFirst(xs, p);
      assert xs[..n] == [xs[0]] + t[..n - 1];
    }
  }

  /** When exactly the elements at positions lo..hi pass, those are kept. */
  lemma FilterRun<T>(xs: seq<T>, p: T -> bool, lo: int, hi: int)
    requires 0 <= lo <= hi <= |xs|
    requires forall i :: 0 <= i < |xs| ==> (p(xs[i]) <==> lo <= i < hi)
    ensures Filter(xs, p) == xs[lo..hi]
  {
    FilterSkipFailing(xs, p, lo);
    var t := xs[lo..];
    assert forall i :: 0 <= i < |t| ==> (p(t[i]) <==> i < hi - lo) by {
      forall i | 0 <= i < |t| ensures p(t[i]) <==> i < hi - lo {
        assert t[i] == xs[lo + i];
      }
    }
    FilterKeepPassing(t, p, hi - lo);
    SliceOfSuffix(xs, lo, hi);
  }

  lemma SliceOfSuffix<T>(xs: seq<T>, lo: int, hi: int)
    requires 0 <= lo <= hi <= |xs|
    ensures xs[lo..][..hi - lo] == xs[lo..hi]
  {
  }

  /** Filtering twice with the same test is filtering once. */
  lemma {:induction false} FilterIdempotent<T>(xs: seq<T>, p: T -> bool)
    ensures Filter(Filter(xs, p), p) == Filter(xs, p)
  {
    if xs != [] {
      FilterIdempotent(xs[1..], p);
    }
  }

  /** `xss.flat()`: the inner lists one after another. */
  function Concat<T>(xss: seq<seq<T>>): (r: seq<T>)
  {
    if xss == [] then [] else xss[0] + Concat(xss[1..])
  }

  /** Flattening distributes over concatenation of the outer list. */
  lemma {:induction false} ConcatAppend<T>(xss: seq<seq<T>>, yss: seq<seq<T>>)
    ensures Concat(xss + yss) == Concat(xss) + Concat(yss)
  {
    if xss == [] {
      assert xss + yss == yss;
    } else {
      assert (xss + yss)[1..] == xss[1..] + yss;
      ConcatAppend(xss[1..], yss);
    }
  }
}
