/** Order-preserving selection on sequences, the shape of JavaScript's `Array.prototype.filter`. */
module Seqs {

  /** `a` can be obtained from `b` by deleting elements, keeping the order of the rest. */
  ghost predicate SubsequenceOf<T>(a: seq<T>, b: seq<T>)
    decreases |b|
  {
    |a| == 0 || (|b| > 0 && ((a[0] == b[0] && SubsequenceOf(a[1..], b[1..])) || SubsequenceOf(a, b[1..])))
  }

  /** The elements of `s` that satisfy `f`, in their original order. */
  function Filter<T(==,!new)>(s: seq<T>, f: T -> bool): (r: seq<T>)
    ensures |r| <= |s|
    ensures forall x :: x in r <==> x in s && f(x)
    ensures SubsequenceOf(r, s)
  {
    if |s| == 0 then []
    else if f(s[0]) then [s[0]] + Filter(s[1..], f)
    else Filter(s[1..], f)
  }

  /** A filter keeps every copy of what it accepts: each accepted element occurs in
      the result as often as in the input, and a rejected one not at all. */
  lemma {:induction false} FilterCounts<T(!new)>(s: seq<T>, f: T -> bool)
    ensures forall x :: multiset(Filter(s, f))[x] == if f(x) then multiset(s)[x] else 0
  {
    if |s| > 0 {
      FilterCounts(s[1..], f);
      assert s == [s[0]] + s[1..];
    }
  }

  /** Position of the first occurrence of `x` in `s`, or `|s|` when there is none. */
  function IndexOf<T(==)>(s: seq<T>, x: T): (k: nat)
    ensures k <= |s|
    ensures forall j :: 0 <= j < k ==> s[j] != x
    ensures k < |s| <==> x in s
    ensures k < |s| ==> s[k] == x
  {
    if |s| == 0 || s[0] == x then 0 else 1 + IndexOf(s[1..], x)
  }

  /** Appending an element does not move the first occurrence of anything already present. */
  lemma IndexOfAppend<T>(s: seq<T>, e: T, x: T)
    requires x in s
    ensures IndexOf(s + [e], x) == IndexOf(s, x)
  {
    var k, m := IndexOf(s, x), IndexOf(s + [e], x);
    assert (s + [e])[k] == x;
    if m < k {
      assert s[m] == (s + [e])[m];
    }
  }

  /** A filter that rejects nothing is the identity. */
  lemma {:induction false} FilterAllKept<T(!new)>(s: seq<T>, f: T -> bool)
    ensures (forall x :: x in s ==> f(x)) ==> Filter(s, f) == s
  {
    if |s| > 0 && (forall x :: x in s ==> f(x)) {
      assert forall x :: x in s[1..] ==> x in s;
      FilterAllKept(s[1..], f);
      assert [s[0]] + s[1..] == s;
    }
  }

  /** Two filters in a row equal one filter by the conjunction. */
  lemma {:induction false} FilterFuse<T(!new)>(s: seq<T>, f: T -> bool, g: T -> bool, h: T -> bool)
    requires forall x :: h(x) == (f(x) && g(x))
    ensures Filter(Filter(s, f), g) == Filter(s, h)
  {
    if |s| > 0 {
      FilterFuse(s[1..], f, g, h);
      if f(s[0]) {
        assert Filter(s, f) == [s[0]] + Filter(s[1..], f);
        assert Filter(s, f)[1..] == Filter(s[1..], f);
      }
    }
  }

  /** The order in which two filters run does not matter. */
  lemma {:induction false} FilterCommute<T(!new)>(s: seq<T>, f: T -> bool, g: T -> bool)
    ensures Filter(Filter(s, f), g) == Filter(Filter(s, g), f)
  {
    if |s| > 0 {
      FilterCommute(s[1..], f, g);
      if f(s[0]) {
        assert Filter(s, f)[1..] == Filter(s[1..], f);
      }
      if g(s[0]) {
        assert Filter(s, g)[1..] == Filter(s[1..], g);
      }
    }
  }

  /** Filtering twice by the same predicate changes nothing the second time. */
  lemma FilterIdempotent<T(!new)>(s: seq<T>, f: T -> bool)
    ensures Filter(Filter(s, f), f) == Filter(s, f)
  {
    FilterAllKept(Filter(s, f), f);
  }

  /** Removing the element at `k` from `s` when it is the only one `f` rejects. */
  lemma {:induction false} FilterDropsOne<T(!new)>(s: seq<T>, f: T -> bool, k: nat)
    requires k < |s|
    requires !f(s[k])
    requires forall i :: 0 <= i < |s| && i != k ==> f(s[i])
    ensures Filter(s, f) == s[..k] + s[k + 1..]
  {
    var t := s[1..];
    if k == 0 {
      FilterDropsHead(s, f);
      assert s[..0] + s[1..] == t;
    } else {
      assert forall i :: 0 <= i < |t| && i != k - 1 ==> f(t[i]) by {
        forall i | 0 <= i < |t| && i != k - 1 ensures f(t[i]) {
          assert t[i] == s[i + 1];
        }
      }
      FilterDropsOne(t, f, k - 1);
      assert Filter(s, f) == [s[0]] + Filter(t, f);
      ConsSlices(s, k);
    }
  }

  /** The head rejected and the rest kept: filtering drops just the head. */
  lemma FilterDropsHead<T(!new)>(s: seq<T>, f: T -> bool)
    requires |s| > 0 && !f(s[0])
    requires forall i :: 0 < i < |s| ==> f(s[i])
    ensures Filter(s, f) == s[1..]
  {
    var t := s[1..];
    assert forall x :: x in t ==> f(x) by {
      forall x | x in t ensures f(x) {
        var j :| 0 <= j < |t| && t[j] == x;
        assert s[j + 1] == x;
      }
    }
    FilterAllKept(t, f);
  }

  /** Putting the head back in front of the tail with one element cut out. */
  lemma ConsSlices<T>(s: seq<T>, k: nat)
    requires 0 < k < |s|
    ensures [s[0]] + (s[1..][..k - 1] + s[1..][k..]) == s[..k] + s[k + 1..]
  {
    assert s[1..][..k - 1] == s[1..k];
    assert s[1..][k..] == s[k + 1..];
    assert [s[0]] + s[1..k] == s[..k];
  }

  /** Every element of a subsequence is an element of the whole. */
  lemma {:induction false} SubsequenceMembers<T>(a: seq<T>, b: seq<T>)
    requires SubsequenceOf(a, b)
    ensures forall x :: x in a ==> x in b
    decreases |b|
  {
    if |a| > 0 {
      if a[0] == b[0] && SubsequenceOf(a[1..], b[1..]) {
        SubsequenceMembers(a[1..], b[1..]);
        assert forall x :: x in a ==> x == a[0] || x in a[1..];
      } else {
        SubsequenceMembers(a, b[1..]);
      }
    }
  }

  /** When only `v` and `f` occur and `v` occurs first, the first-occurrence list is `[v, f]`. */
  lemma TwoDistinct<T>(d: seq<T>, xs: seq<T>, v: T, f: T)
    requires v != f
    requires forall x :: x in d <==> x in xs
    requires forall i, j :: 0 <= i < j < |d| ==> d[i] != d[j]
    requires forall i, j :: 0 <= i < j < |d| ==> IndexOf(xs, d[i]) < IndexOf(xs, d[j])
    requires forall x :: x in xs ==> x == v || x == f
    requires IndexOf(xs, v) < IndexOf(xs, f) < |xs|
    ensures d == [v, f]
  {
    assert v in d && f in d;
    assert |d| <= 2 by {
      var seen := set x | x in d;
      assert seen <= {v, f} by {
        forall x | x in seen ensures x == v || x == f {
          assert x in xs;
        }
      }
      NoRepeatsCount(d);
      SubsetCount(seen, {v, f});
    }
    assert |d| >= 2 by {
      var i :| 0 <= i < |d| && d[i] == v;
      var j :| 0 <= j < |d| && d[j] == f;
    }
    assert d[0] in xs && d[1] in xs;
  }

  /** A list without repeats has as many elements as its set of elements. */
  lemma {:induction false} NoRepeatsCount<T>(d: seq<T>)
    requires forall i, j :: 0 <= i < j < |d| ==> d[i] != d[j]
    ensures |set x | x in d| == |d|
  {
    if |d| > 0 {
      NoRepeatsCount(d[1..]);
      assert (set x | x in d) == {d[0]} + (set x | x in d[1..]);
      assert d[0] !in d[1..];
    }
  }

  /** A subset is no larger than its superset. */
  lemma {:induction false} SubsetCount<T>(a: set<T>, b: set<T>)
    requires a <= b
    ensures |a| <= |b|
    decreases a
  {
    if a != {} {
      var x :| x in a;
      SubsetCount(a - {x}, b - {x});
    }
  }
}
