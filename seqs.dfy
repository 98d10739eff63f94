/** Sequence operations the source expresses with `Array.prototype.filter`,
    `splice` and string accumulation. */
module Seqs {

  /** `s.filter(p)`: the elements of `s` that satisfy `p`, in their order. */
  function Filter<T>(s: seq<T>, p: T -> bool): (r: seq<T>)
    ensures |r| <= |s|
    ensures forall i :: 0 <= i < |r| ==> r[i] in s && p(r[i])
    ensures forall i :: 0 <= i < |s| && p(s[i]) ==> s[i] in r
  {
    if |s| == 0 then []
    else Filter(s[..|s| - 1], p) + (if p(s[|s| - 1]) then [s[|s| - 1]] else [])
  }

  /** Filtering distributes over concatenation, so the survivors of an
      earlier part of `s` come before those of a later part. */
  lemma {:induction false} FilterAppend<T>(a: seq<T>, b: seq<T>, p: T -> bool)
    ensures Filter(a + b, p) == Filter(a, p) + Filter(b, p)
  {
    if |b| == 0 {
      assert a + b == a;
    } else {
      assert (a + b)[..|a + b| - 1] == a + b[..|b| - 1];
      FilterAppend(a, b[..|b| - 1], p);
    }
  }

  /** The blocks `f(x)` of the elements of `s`, joined in their order, as a
      loop that appends one block per element builds them. */
  function Concat<T, U>(s: seq<T>, f: T -> seq<U>): seq<U>
  {
    if |s| == 0 then []
    else Concat(s[..|s| - 1], f) + f(s[|s| - 1])
  }

  /** Joining distributes over concatenation. */
  lemma {:induction false} ConcatAppend<T, U>(a: seq<T>, b: seq<T>, f: T -> seq<U>)
    ensures Concat(a + b, f) == Concat(a, f) + Concat(b, f)
  {
    if |b| == 0 {
      assert a + b == a;
    } else {
      assert (a + b)[..|a + b| - 1] == a + b[..|b| - 1];
      ConcatAppend(a, b[..|b| - 1], f);
    }
  }

  /** When no element satisfies `p`, filtering leaves nothing. */
  lemma {:induction false} FilterNone<T>(s: seq<T>, p: T -> bool)
    requires forall i :: 0 <= i < |s| ==> !p(s[i])
    ensures Filter(s, p) == []
  {
    if |s| > 0 {
      FilterNone(s[..|s| - 1], p);
    }
  }

  /** `key` strictly increases along `s`. */
  ghost predicate IncreasingBy<T>(s: seq<T>, key: T -> int) {
    forall i, j :: 0 <= i < j < |s| ==> key(s[i]) < key(s[j])
  }

  /** Filtering keeps the relative order of the survivors: a sequence whose
      keys strictly increase still has strictly increasing keys afterwards. */
  lemma {:induction false} FilterIncreasing<T>(s: seq<T>, p: T -> bool, key: T -> int)
    requires IncreasingBy(s, key)
    ensures IncreasingBy(Filter(s, p), key)
  {
    if |s| > 0 {
      var init := s[..|s| - 1];
      var last := s[|s| - 1];
      assert IncreasingBy(init, key);
      FilterIncreasing(init, p, key);
      var f := Filter(init, p);
      if p(last) {
        forall i | 0 <= i < |f| ensures key(f[i]) < key(last) {
          assert f[i] in init;
        }
      }
    }
  }

  /** `s.filter((_, index) => index !== k)`: drop the element whose
      position is `k`; any other `k` keeps every element. */
  function RemoveIndex<T>(s: seq<T>, k: int): (r: seq<T>)
    ensures |r| == if 0 <= k < |s| then |s| - 1 else |s|
    ensures forall i :: 0 <= i < |r| ==> r[i] in s
  {
    if |s| == 0 then []
    else RemoveIndex(s[..|s| - 1], k) + (if |s| - 1 == k then [] else [s[|s| - 1]])
  }

  /** The index filter removes exactly position `k` when it is in range and
      nothing otherwise; the rest keep their order. */
  lemma {:induction false} RemoveIndexSplices<T>(s: seq<T>, k: int)
    ensures RemoveIndex(s, k) == if 0 <= k < |s| then s[..k] + s[k + 1..] else s
  {
    if |s| > 0 {
      var n := |s| - 1;
      var init := s[..n];
      RemoveIndexSplices(init, k);
      assert RemoveIndex(s, k) == RemoveIndex(init, k) + (if n == k then [] else [s[n]]);
      if 0 <= k < n {
        assert init[..k] == s[..k];
        assert init[k + 1..] + [s[n]] == s[k + 1..];
      } else if k == n {
        assert s[..k] + s[k + 1..] == init;
      } else {
        assert init + [s[n]] == s;
      }
    }
  }

  /** The surviving elements, position by position: those before `k` stay
      put and those after it move down by one. */
  lemma RemoveIndexAt<T>(s: seq<T>, k: int)
    requires 0 <= k < |s|
    ensures |RemoveIndex(s, k)| == |s| - 1
    ensures forall j :: 0 <= j < k ==> RemoveIndex(s, k)[j] == s[j]
    ensures forall j :: k <= j < |s| - 1 ==> RemoveIndex(s, k)[j] == s[j + 1]
  {
    RemoveIndexSplices(s, k);
  }

  /** Appending an element and then removing the last position undoes the append. */
  lemma RemoveIndexAfterAppend<T>(s: seq<T>, x: T)
    ensures RemoveIndex(s + [x], |s|) == s
  {
    RemoveIndexSplices(s + [x], |s|);
    assert (s + [x])[..|s|] == s;
  }
}
