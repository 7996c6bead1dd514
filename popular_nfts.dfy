// The "Popular NFTs" carousel: the ten best-selling NFTs, most sales first.
//
// The source copies the list, sorts the copy with a comparator on `salesCount`
// (descending) and keeps the first ten. JavaScript's sort is stable, so records
// with equal sales keep their relative order; `SortBySales` is the stable
// insertion sort that produces that order.

module PopularNFTs {
  import opened Collections
  import opened NFTContext

  /** How many NFTs the carousel shows at most. */
  const TopCount: nat := 10

  /** More ranked NFTs than this and the scroll arrows appear. */
  const ArrowThreshold: nat := 4

  /** Ordered by non-increasing sales count. */
  predicate RankedBySales(s: seq<NFT>) {
    forall i, j :: 0 <= i < j < |s| ==> s[i].salesCount >= s[j].salesCount
  }

  /** A record with at least the sales of a ranked list's head keeps the list ranked in front of it. */
  lemma RankedCons(h: NFT, t: seq<NFT>)
    requires RankedBySales(t)
    requires |t| > 0 ==> h.salesCount >= t[0].salesCount
    ensures RankedBySales([h] + t)
  {
    var r := [h] + t;
    forall i, j | 0 <= i < j < |r|
      ensures r[i].salesCount >= r[j].salesCount
    {
      if i == 0 {
        assert r[j] == t[j - 1];
        assert t[0].salesCount >= t[j - 1].salesCount;
      } else {
        assert r[i] == t[i - 1] && r[j] == t[j - 1];
      }
    }
  }

  /** Puts `x` in front of the first record that has no more sales than it does. */
  function InsertBySales(x: NFT, s: seq<NFT>): (r: seq<NFT>)
    requires RankedBySales(s)
    ensures RankedBySales(r)
    ensures multiset(r) == multiset(s) + multiset{x}
    ensures |r| == |s| + 1
    ensures r[0] == x || (|s| > 0 && r[0] == s[0])
  {
    if |s| == 0 || s[0].salesCount <= x.salesCount then
      RankedCons(x, s);
      [x] + s
    else
      var rest := InsertBySales(x, s[1..]);
      assert s == [s[0]] + s[1..];
      assert |s[1..]| > 0 ==> s[1..][0] == s[1];
      RankedCons(s[0], rest);
      [s[0]] + rest
  }

  /** `[...nfts].sort((a, b) => b.salesCount - a.salesCount)`. */
  function SortBySales(nfts: seq<NFT>): (r: seq<NFT>)
    ensures RankedBySales(r)
    ensures multiset(r) == multiset(nfts)
    ensures |r| == |nfts|
  {
    if |nfts| == 0 then []
    else
      assert nfts == [nfts[0]] + nfts[1..];
      InsertBySales(nfts[0], SortBySales(nfts[1..]))
  }

  /** The records of `s` with exactly `count` sales, in their order in `s`. */
  function WithSales(s: seq<NFT>, count: nat): seq<NFT> {
    Filter(s, (n: NFT) => n.salesCount == count)
  }

  /** `WithSales` of a record put in front of a list. */
  lemma WithSalesCons(x: NFT, t: seq<NFT>, count: nat)
    ensures WithSales([x] + t, count) == if x.salesCount == count then [x] + WithSales(t, count) else WithSales(t, count)
  {
    var p := (n: NFT) => n.salesCount == count;
    FilterDistributes([x], t, p);
    assert [x][1..] == [];
  }

  /** Inserting `x` puts it ahead of every record with the same sales and leaves their order alone. */
  lemma {:induction false} InsertKeepsTies(x: NFT, t: seq<NFT>, count: nat)
    requires RankedBySales(t)
    ensures WithSales(InsertBySales(x, t), count) ==
      if x.salesCount == count then [x] + WithSales(t, count) else WithSales(t, count)
  {
    if |t| == 0 || t[0].salesCount <= x.salesCount {
      WithSalesCons(x, t, count);
    } else {
      assert t == [t[0]] + t[1..];
      InsertKeepsTies(x, t[1..], count);
      WithSalesCons(t[0], InsertBySales(x, t[1..]), count);
      WithSalesCons(t[0], t[1..], count);
    }
  }

  /** Stability: records with equal sales keep the relative order they had in `nfts`. */
  lemma {:induction false} SortBySalesIsStable(nfts: seq<NFT>, count: nat)
    ensures WithSales(SortBySales(nfts), count) == WithSales(nfts, count)
  {
    if |nfts| > 0 {
      assert nfts == [nfts[0]] + nfts[1..];
      SortBySalesIsStable(nfts[1..], count);
      InsertKeepsTies(nfts[0], SortBySales(nfts[1..]), count);
      WithSalesCons(nfts[0], nfts[1..], count);
    }
  }

  function Min(a: nat, b: nat): nat {
    if a <= b then a else b
  }

  /** `popularNFTs`: the sorted copy cut to its first ten records. */
  function TopBySales(nfts: seq<NFT>): (r: seq<NFT>)
    ensures |r| == Min(TopCount, |nfts|)
    ensures multiset(r) <= multiset(nfts)
    ensures RankedBySales(r)
  {
    var sorted := SortBySales(nfts);
    assert sorted == sorted[..Min(TopCount, |nfts|)] + sorted[Min(TopCount, |nfts|)..];
    sorted[..Min(TopCount, |nfts|)]
  }

  /** What a prefix leaves out of a list lies in the rest of the list. */
  lemma LeftOutLiesInSuffix(s: seq<NFT>, k: nat, x: NFT)
    requires k <= |s|
    requires x in multiset(s) - multiset(s[..k])
    ensures x in s[k..]
  {
    assert s == s[..k] + s[k..];
    assert multiset(s) == multiset(s[..k]) + multiset(s[k..]);
  }

  /** Top-k: no NFT left out of the carousel has more sales than one shown in it. */
  lemma TopBySalesIsTopK(nfts: seq<NFT>, x: NFT, y: NFT)
    requires x in multiset(nfts) - multiset(TopBySales(nfts))
    requires y in TopBySales(nfts)
    ensures x.salesCount <= y.salesCount
  {
    var sorted := SortBySales(nfts);
    var k := Min(TopCount, |nfts|);
    assert TopBySales(nfts) == sorted[..k];
    LeftOutLiesInSuffix(sorted, k, x);
    var i :| 0 <= i < k && sorted[..k][i] == y;
    var j :| 0 <= j < |sorted| - k && sorted[k..][j] == x;
    assert sorted[i] == y && sorted[k + j] == x;
  }

  /** Every record shown has at least as many sales as any record of the whole list that is not shown. */
  lemma TopBySalesDominatesRest(nfts: seq<NFT>, i: nat)
    requires i < |nfts| && nfts[i] !in TopBySales(nfts)
    ensures forall y :: y in TopBySales(nfts) ==> nfts[i].salesCount <= y.salesCount
  {
    assert nfts[i] in multiset(nfts);
    assert nfts[i] !in multiset(TopBySales(nfts));
    forall y | y in TopBySales(nfts)
      ensures nfts[i].salesCount <= y.salesCount
    {
      TopBySalesIsTopK(nfts, nfts[i], y);
    }
  }

  /** `if (popularNFTs.length === 0) return null`: the section shows exactly when there is an NFT. */
  function RendersSection(nfts: seq<NFT>): (r: bool)
    ensures r <==> |nfts| > 0
  {
    |TopBySales(nfts)| != 0
  }

  /** `popularNFTs.length > 4`: the arrows show exactly when at least five NFTs exist. */
  function ShowsArrows(nfts: seq<NFT>): (r: bool)
    ensures r <==> |nfts| > ArrowThreshold
    ensures r ==> RendersSection(nfts)
  {
    |TopBySales(nfts)| > ArrowThreshold
  }
}
