/** Sequence helpers shared by the store, the turn loop and the views. */
module Seqs {

  lemma ConcatAssoc<T>(x: seq<T>, y: seq<T>, z: seq<T>)
    ensures (x + y) + z == x + (y + z)
  {
  }

  /** The elements of `s` that satisfy `p`, in their original order. */
  function Filter<T>(s: seq<T>, p: T -> bool): (r: seq<T>)
    ensures |r| <= |s|
  {
    if s == [] then [] else (if p(s[0]) then [s[0]] else []) + Filter(s[1..], p)
  }

  /** A filter keeps exactly the elements that pass: what it returns comes from `s` and
      passes `p`, and every element of `s` that passes is kept. */
  lemma {:induction false} FilterMembers<T>(s: seq<T>, p: T -> bool)
    ensures forall k :: 0 <= k < |Filter(s, p)| ==> Filter(s, p)[k] in s && p(Filter(s, p)[k])
    ensures forall k :: 0 <= k < |s| && p(s[k]) ==> s[k] in Filter(s, p)
  {
    if s != [] {
      FilterMembers(s[1..], p);
      var r, rest := Filter(s, p), Filter(s[1..], p);
      forall k | 0 <= k < |r| ensures r[k] in s && p(r[k]) {
        if !(p(s[0]) && k == 0) {
          var j := if p(s[0]) then k - 1 else k;
          assert r[k] == rest[j];
        }
      }
      forall k | 0 <= k < |s| && p(s[k]) ensures s[k] in r {
        if k > 0 {
          assert s[k] == s[1..][k - 1];
        }
      }
    }
  }

  lemma {:induction false} FilterConcat<T>(a: seq<T>, b: seq<T>, p: T -> bool)
    ensures Filter(a + b, p) == Filter(a, p) + Filter(b, p)
  {
    if a == [] {
      assert a + b == b;
    } else {
      var head := if p(a[0]) then [a[0]] else [];
      assert (a + b)[0] == a[0] && (a + b)[1..] == a[1..] + b;
      FilterConcat(a[1..], b, p);
      ConcatAssoc(head, Filter(a[1..], p), Filter(b, p));
    }
  }

  /** A filter keeps everything when every element passes and nothing when none does. */
  lemma {:induction false} FilterAllOrNone<T>(s: seq<T>, p: T -> bool)
    ensures (forall k :: 0 <= k < |s| ==> p(s[k])) ==> Filter(s, p) == s
    ensures (forall k :: 0 <= k < |s| ==> !p(s[k])) ==> Filter(s, p) == []
  {
    if s != [] {
      FilterAllOrNone(s[1..], p);
      assert forall k :: 0 <= k < |s[1..]| ==> s[1..][k] == s[k + 1];
      assert s == [s[0]] + s[1..];
    }
  }

  lemma FilterSingle<T>(x: T, p: T -> bool)
    ensures Filter([x], p) == if p(x) then [x] else []
  {
    assert [x][1..] == [];
  }

  lemma FilterPairExact<T>(x: T, y: T, p: T -> bool)
    ensures Filter([x, y], p) == (if p(x) then [x] else []) + (if p(y) then [y] else [])
  {
    assert [x, y][1..] == [y];
    FilterSingle(y, p);
  }

  /** Every earlier element is related to every later one. */
  ghost predicate Pairwise<T>(s: seq<T>, rel: (T, T) -> bool) {
    forall i, j :: 0 <= i < j < |s| ==> rel(s[i], s[j])
  }

  /** Dropping elements keeps a pairwise ordering: a filter is a subsequence. */
  lemma {:induction false} FilterPairwise<T>(s: seq<T>, p: T -> bool, rel: (T, T) -> bool)
    requires Pairwise(s, rel)
    ensures Pairwise(Filter(s, p), rel)
  {
    if s != [] {
      var tail := s[1..];
      assert Pairwise(tail, rel) by {
        forall i, j | 0 <= i < j < |tail| ensures rel(tail[i], tail[j]) {
          assert tail[i] == s[i + 1] && tail[j] == s[j + 1];
        }
      }
      FilterPairwise(tail, p, rel);
      FilterMembers(tail, p);
      var ft := Filter(tail, p);
      if p(s[0]) {
        var r := [s[0]] + ft;
        forall i, j | 0 <= i < j < |r| ensures rel(r[i], r[j]) {
          if i == 0 {
            assert r[j] == ft[j - 1] && ft[j - 1] in tail;
            var k :| 0 <= k < |tail| && tail[k] == ft[j - 1];
            assert s[k + 1] == tail[k];
          } else {
            assert r[i] == ft[i - 1] && r[j] == ft[j - 1];
          }
        }
      }
    }
  }

  /** `f` applied to each element together with its number, counting from `start`, and the
      results concatenated in order. */
  function Numbered<T, U>(f: (int, T) -> seq<U>, xs: seq<T>, start: int): seq<U> {
    if xs == [] then [] else f(start, xs[0]) + Numbered(f, xs[1..], start + 1)
  }

  /** Numbering runs on across a split. */
  lemma {:induction false} NumberedConcat<T, U>(f: (int, T) -> seq<U>, a: seq<T>, b: seq<T>, start: int)
    ensures Numbered(f, a + b, start) == Numbered(f, a, start) + Numbered(f, b, start + |a|)
    decreases |a|
  {
    if a == [] {
      assert a + b == b;
    } else {
      NumberedConcat(f, a[1..], b, start + 1);
      assert (a + b)[1..] == a[1..] + b;
    }
  }

  /** Number of elements satisfying `p`. */
  function Count<T>(s: seq<T>, p: T -> bool): nat {
    |Filter(s, p)|
  }

  function Reverse<T>(s: seq<T>): (r: seq<T>)
    ensures |r| == |s|
  {
    if s == [] then [] else Reverse(s[1..]) + [s[0]]
  }

  lemma {:induction false} ReverseAt<T>(s: seq<T>, k: nat)
    requires k < |s|
    ensures Reverse(s)[k] == s[|s| - 1 - k]
  {
    if k < |s| - 1 {
      ReverseAt(s[1..], k);
    }
  }

  /** `Reverse(Reverse(s)) == s`, and taking `n` from the back of a reversed sequence
      reversed again is the last `n` elements. */
  lemma {:induction false} ReverseTakeIsSuffix<T>(s: seq<T>, n: nat)
    requires n <= |s|
    ensures Reverse(Reverse(s)[..n]) == s[|s| - n..]
  {
    var l := Reverse(s)[..n];
    var r := Reverse(l);
    var t := s[|s| - n..];
    assert |r| == n == |t|;
    forall k | 0 <= k < n ensures r[k] == t[k] {
      ReverseAt(l, k);
      assert r[k] == l[n - 1 - k];
      ReverseAt(s, n - 1 - k);
      assert l[n - 1 - k] == s[|s| - n + k];
    }
  }

  lemma {:induction false} ReverseReverse<T>(s: seq<T>)
    ensures Reverse(Reverse(s)) == s
  {
    ReverseTakeIsSuffix(s, |s|);
    assert Reverse(s)[..|s|] == Reverse(s);
  }
}
