/** Array.prototype.filter / find / some over sequences, with the facts the model relies on. */
module Seqs {
  import opened Wrappers

  /** `s.filter(p)`: the elements satisfying `p`, in their original order. */
  function Filter<T>(s: seq<T>, p: T -> bool): (r: seq<T>)
    ensures |r| <= |s|
  {
    if s == [] then [] else (if p(s[0]) then [s[0]] else []) + Filter(s[1..], p)
  }

  /** The filtered sequence holds exactly the elements that satisfy `p`. */
  lemma {:induction false} FilterMembers<T>(s: seq<T>, p: T -> bool)
    ensures forall x | x in Filter(s, p) :: x in s && p(x)
    ensures forall x | x in s && p(x) :: x in Filter(s, p)
  {
    if s != [] {
      FilterMembers(s[1..], p);
      assert s == [s[0]] + s[1..];
    }
  }

  /** Filtering distributes over concatenation, so the kept elements stay in order. */
  lemma {:induction false} FilterConcat<T>(a: seq<T>, b: seq<T>, p: T -> bool)
    ensures Filter(a + b, p) == Filter(a, p) + Filter(b, p)
  {
    if a == [] {
      assert a + b == b;
    } else {
      var head := if p(a[0]) then [a[0]] else [];
      assert (a + b)[0] == a[0];
      assert (a + b)[1..] == a[1..] + b;
      assert Filter(a + b, p) == head + Filter(a[1..] + b, p);
      FilterConcat(a[1..], b, p);
      assert Filter(a, p) == head + Filter(a[1..], p);
    }
  }

  /** Filtering a slice `s[i..k]` filters its two parts either side of `j`. */
  lemma FilterSplit<T>(s: seq<T>, i: nat, j: nat, k: nat, p: T -> bool)
    requires i <= j <= k <= |s|
    ensures Filter(s[i..k], p) == Filter(s[i..j], p) + Filter(s[j..k], p)
  {
    assert s[i..k] == s[i..j] + s[j..k];
    FilterConcat(s[i..j], s[j..k], p);
  }

  /** Filtering a sequence filters the four parts that the cuts `a`, `b` and `c` make. */
  lemma FilterCuts<T>(s: seq<T>, a: nat, b: nat, c: nat, p: T -> bool)
    requires a <= b <= c <= |s|
    ensures Filter(s, p) == Filter(s[0..a], p) + (Filter(s[a..b], p) + (Filter(s[b..c], p) + Filter(s[c..|s|], p)))
  {
    assert s[0..|s|] == s;
    FilterSplit(s, 0, a, |s|, p);
    FilterSplit(s, a, b, |s|, p);
    FilterSplit(s, b, c, |s|, p);
  }

  /** When every element satisfies `p`, filtering keeps the whole sequence. */
  lemma {:induction false} FilterAll<T>(s: seq<T>, p: T -> bool)
    requires forall x | x in s :: p(x)
    ensures Filter(s, p) == s
  {
    if s != [] {
      FilterAll(s[1..], p);
    }
  }

  /** When no element satisfies `p`, filtering leaves nothing. */
  lemma {:induction false} FilterNone<T>(s: seq<T>, p: T -> bool)
    requires forall x | x in s :: !p(x)
    ensures Filter(s, p) == []
  {
    if s != [] {
      FilterNone(s[1..], p);
    }
  }

  /** Filtering twice with the same predicate changes nothing. */
  lemma FilterIdempotent<T>(s: seq<T>, p: T -> bool)
    ensures Filter(Filter(s, p), p) == Filter(s, p)
  {
    FilterMembers(s, p);
    FilterAll(Filter(s, p), p);
  }

  /** When `p` rejects exactly the element at `i`, filtering drops just that element. */
  lemma {:induction false} FilterDropsOne<T>(s: seq<T>, i: nat, p: T -> bool)
    requires i < |s| && !p(s[i])
    requires forall j | 0 <= j < |s| && j != i :: p(s[j])
    ensures Filter(s, p) == s[..i] + s[i + 1..]
  {
    if i == 0 {
      forall x | x in s[1..]
        ensures p(x)
      {
        var k :| 0 <= k < |s[1..]| && s[1..][k] == x;
        assert s[k + 1] == x;
      }
      FilterAll(s[1..], p);
    } else {
      FilterDropsOne(s[1..], i - 1, p);
      assert s[1..][..i - 1] + s[1..][i..] == s[1..i] + s[i + 1..];
      assert [s[0]] + s[1..i] == s[..i];
    }
  }

  /** Leaving out an element `p` rejects does not change the filtered result. */
  lemma {:induction false} FilterSkipRejected<T>(s: seq<T>, i: nat, p: T -> bool)
    requires i < |s| && !p(s[i])
    ensures Filter(s[..i] + s[i + 1..], p) == Filter(s, p)
  {
    if i == 0 {
      assert s[..0] + s[1..] == s[1..];
    } else {
      FilterSkipRejected(s[1..], i - 1, p);
      var t := s[..i] + s[i + 1..];
      assert t[0] == s[0];
      assert t[1..] == s[1..][..i - 1] + s[1..][i..];
    }
  }

  /** `s.findIndex(p)`, absent as None: the least index whose element satisfies `p`. */
  function FindIndex<T>(s: seq<T>, p: T -> bool): (r: Option<nat>)
    ensures r.Some? ==> r.value < |s| && p(s[r.value]) && forall j | 0 <= j < r.value :: !p(s[j])
    ensures r.None? ==> forall j | 0 <= j < |s| :: !p(s[j])
  {
    if s == [] then None
    else if p(s[0]) then Some(0)
    else match FindIndex(s[1..], p)
      case None => None
      case Some(k) => Some(k + 1)
  }

  /** `s.find(p)`, with undefined as None. */
  function Find<T>(s: seq<T>, p: T -> bool): (r: Option<T>)
    ensures r.Some? <==> exists j | 0 <= j < |s| :: p(s[j])
    ensures r.Some? ==> r.value in s && p(r.value)
  {
    match FindIndex(s, p)
    case None => None
    case Some(k) => Some(s[k])
  }

  /** The number of elements satisfying `p`. */
  function Count<T>(s: seq<T>, p: T -> bool): nat {
    |Filter(s, p)|
  }

  /** `s.map(f)` */
  function Map<T, U>(s: seq<T>, f: T -> U): (r: seq<U>)
    ensures |r| == |s| && forall i | 0 <= i < |s| :: r[i] == f(s[i])
  {
    seq(|s|, i requires 0 <= i < |s| => f(s[i]))
  }

  /** `s.slice(0, end)` with JavaScript's clamping of out-of-range and negative ends. */
  function Prefix<T>(s: seq<T>, end: int): (r: seq<T>)
    ensures |r| <= |s| && r == s[..|r|]
    ensures 0 <= end ==> |r| == (if end <= |s| then end else |s|)
    ensures end < 0 ==> |r| == (if 0 <= |s| + end then |s| + end else 0)
  {
    if end < 0 then (if 0 <= |s| + end then s[..|s| + end] else [])
    else if end <= |s| then s[..end]
    else s
  }

  /** Taking `k` elements of the first `n` is taking the first `k`. */
  lemma PrefixOfPrefix<T>(a: seq<T>, n: nat, k: nat)
    requires k <= n <= |a|
    ensures a[..k] == a[..n][..k]
  {
  }

  /** An element inside a prefix is the element of the whole sequence. */
  lemma PrefixIndex<T>(a: seq<T>, b: seq<T>, k: nat)
    requires |b| <= |a| && a[..|b|] == b && k < |b|
    ensures a[k] == b[k]
  {
  }
}
