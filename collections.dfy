/** Sequence operations the views apply to the NFT list: `Array.prototype.filter` and `reverse` on a copy. */
module Collections {

  /** The elements of `s` that satisfy `p`, in their original order. */
  function Filter<T(==,!new)>(s: seq<T>, p: T -> bool): (r: seq<T>)
    ensures |r| <= |s|
    ensures forall x :: x in r <==> x in s && p(x)
  {
    if s == [] then []
    else
      var rest := Filter(s[1..], p);
      assert s == [s[0]] + s[1..];
      if p(s[0]) then [s[0]] + rest else rest
  }

  /** Filtering keeps every copy of an element that satisfies `p` and drops every copy of one that does not. */
  lemma {:induction false} FilterCount<T(!new)>(s: seq<T>, p: T -> bool, x: T)
    ensures multiset(Filter(s, p))[x] == if p(x) then multiset(s)[x] else 0
  {
    if s != [] {
      assert s == [s[0]] + s[1..];
      FilterCount(s[1..], p, x);
    }
  }

  /** One step of `Filter`: the head, when it passes, followed by the filtered tail. */
  lemma FilterStep<T(!new)>(s: seq<T>, p: T -> bool)
    requires s != []
    ensures Filter(s, p) == (if p(s[0]) then [s[0]] else []) + Filter(s[1..], p)
  {
  }

  /** Filtering commutes with concatenation, so the kept elements stay in the order of `s`. */
  lemma {:induction false} FilterDistributes<T(!new)>(a: seq<T>, b: seq<T>, p: T -> bool)
    ensures Filter(a + b, p) == Filter(a, p) + Filter(b, p)
  {
    if a == [] {
      assert a + b == b;
    } else {
      var ab := a + b;
      assert ab[0] == a[0] && ab[1..] == a[1..] + b;
      FilterDistributes(a[1..], b, p);
      FilterStep(ab, p);
      FilterStep(a, p);
    }
  }

  /** `s` read from its last element to its first. */
  function Reverse<T>(s: seq<T>): (r: seq<T>)
    ensures |r| == |s|
    ensures forall k :: 0 <= k < |s| ==> r[k] == s[|s| - 1 - k]
  {
    if s == [] then [] else Reverse(s[1..]) + [s[0]]
  }
}
