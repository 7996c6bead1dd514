/**
 * What the context's operations do to the records and the ledger, one operation at a
 * time, and what every sequence of operations keeps.
 */
module NFTContextProperties {
  import opened Wrappers
  import opened NFTContext

  /** The operations that update records by id. */
  predicate ById(a: Action) {
    a.ListNFTForSale? || a.ListNFTForAuction? || a.BuyNFT? || a.PlaceBid?
    || a.CancelListing? || a.UpdateNFTPrice? || a.FinalizeAuction?
  }

  /** A by-id update keeps the list's length and ids, leaves records with another id alone,
      and at most appends one transaction. */
  lemma ByIdUpdateFrame(s: State, a: Action, nftAddress: string)
    requires ById(a)
    ensures var r := Apply(s, a, nftAddress);
      && |r.nfts| == |s.nfts|
      && (forall i :: 0 <= i < |s.nfts| ==> r.nfts[i].id == s.nfts[i].id)
      && (forall i :: 0 <= i < |s.nfts| && s.nfts[i].id != a.nftId ==> r.nfts[i] == s.nfts[i])
      && s.transactions <= r.transactions && |r.transactions| <= |s.transactions| + 1
      && r.walletConnected == s.walletConnected && r.walletAddress == s.walletAddress
  {
    var r := Apply(s, a, nftAddress);
    forall i | 0 <= i < |s.nfts|
      ensures r.nfts[i].id == s.nfts[i].id
    {
      match a
      case ListNFTForSale(id, price) =>
      case ListNFTForAuction(id, startingBid, endTime) =>
      case BuyNFT(id, txId, now) =>
      case PlaceBid(id, amount, now) =>
      case CancelListing(id) =>
      case UpdateNFTPrice(id, newPrice) =>
      case FinalizeAuction(id, txId, now) =>
    }
  }

  /** `createNFT` appends one record owned by the current wallet, with no sales, the given
      token id, and the configured contract address whatever the caller's data said. */
  lemma CreateNFTAppends(s: State, data: NFTData, tokenId: string, newId: string, now: int, nftAddress: string)
    ensures var r := Apply(s, CreateNFT(data, tokenId, newId, now), nftAddress);
      && |r.nfts| == |s.nfts| + 1 && r.nfts[..|s.nfts|] == s.nfts
      && r.transactions == s.transactions
      && var n := r.nfts[|s.nfts|];
         && n.id == newId && n.tokenId == tokenId && n.owner == s.walletAddress
         && n.salesCount == 0 && n.createdAt == now && n.contractAddress == nftAddress
         && n.name == data.name && n.creator == data.creator
         && n.description == data.description && n.image == data.image
         && n.price == data.price && n.isForSale == data.isForSale && n.isForAuction == data.isForAuction
         && n.auctionEndTime == data.auctionEndTime && n.currentBid == data.currentBid
         && n.highestBidder == data.highestBidder && n.bids == data.bids
  {
  }

  /** `listNFTForSale` marks every record with the id for sale at `price` and not for auction. */
  lemma ListForSaleSetsPrice(s: State, id: string, price: int, nftAddress: string)
    ensures var r := Apply(s, ListNFTForSale(id, price), nftAddress);
      forall i :: 0 <= i < |s.nfts| && s.nfts[i].id == id ==>
        && r.nfts[i].isForSale && !r.nfts[i].isForAuction && r.nfts[i].price == Some(price)
        && r.nfts[i] == s.nfts[i].(isForSale := true, isForAuction := false, price := Some(price))
  {
  }

  /** `listNFTForAuction` opens a fresh auction: starting bid, end time, empty bid list, no highest bidder. */
  lemma ListForAuctionOpensAuction(s: State, id: string, startingBid: int, endTime: int, nftAddress: string)
    ensures var r := Apply(s, ListNFTForAuction(id, startingBid, endTime), nftAddress);
      forall i :: 0 <= i < |s.nfts| && s.nfts[i].id == id ==>
        && r.nfts[i].isForAuction && !r.nfts[i].isForSale
        && r.nfts[i].currentBid == Some(startingBid) && r.nfts[i].auctionEndTime == Some(endTime)
        && r.nfts[i].bids == Some([]) && r.nfts[i].highestBidder.None?
        && r.nfts[i].owner == s.nfts[i].owner && r.nfts[i].price == s.nfts[i].price
        && r.nfts[i].salesCount == s.nfts[i].salesCount
  {
  }

  /** `buyNFT` does nothing when the first record with the id is missing or has no truthy price;
      otherwise it records one sale at the old price and hands every record with the id to the wallet. */
  lemma BuyTransfersToWallet(s: State, id: string, txId: string, now: int, nftAddress: string)
    ensures var r := Apply(s, BuyNFT(id, txId, now), nftAddress);
      var found := IndexOfId(s.nfts, id);
      if found.None? || !HasAmount(s.nfts[found.value].price) then r == s
      else
        var nft := s.nfts[found.value];
        && r.transactions == s.transactions + [Transaction(txId, id, nft.name, s.walletAddress, nft.owner, nft.price.value, now)]
        && |r.nfts| == |s.nfts|
        && forall i :: 0 <= i < |s.nfts| && s.nfts[i].id == id ==>
             r.nfts[i] == s.nfts[i].(owner := s.walletAddress, isForSale := false, price := None,
                                     salesCount := s.nfts[i].salesCount + 1)
  {
  }

  /** The bid leads the auction: there is a last bid, and the current bid and highest bidder are its amount and bidder. */
  predicate LastBidLeads(n: NFT) {
    var bids := BidsOf(n);
    |bids| > 0 && n.currentBid == Some(bids[|bids| - 1].amount) && n.highestBidder == Some(bids[|bids| - 1].bidder)
  }

  /** `placeBid` ignores records not up for auction; on the others it appends exactly one bid by the
      wallet and makes it the current bid, whatever its amount. */
  lemma PlaceBidAppendsBid(s: State, id: string, amount: int, now: int, nftAddress: string)
    ensures var r := Apply(s, PlaceBid(id, amount, now), nftAddress);
      && r.transactions == s.transactions
      && forall i :: 0 <= i < |s.nfts| && s.nfts[i].id == id ==>
           if !s.nfts[i].isForAuction then r.nfts[i] == s.nfts[i]
           else
             && BidsOf(r.nfts[i]) == BidsOf(s.nfts[i]) + [Bid(s.walletAddress, amount, now)]
             && r.nfts[i].currentBid == Some(amount) && r.nfts[i].highestBidder == Some(s.walletAddress)
             && LastBidLeads(r.nfts[i])
             && r.nfts[i].isForAuction && r.nfts[i].owner == s.nfts[i].owner
             && r.nfts[i].auctionEndTime == s.nfts[i].auctionEndTime && r.nfts[i].price == s.nfts[i].price
  {
    var r := Apply(s, PlaceBid(id, amount, now), nftAddress);
    forall i | 0 <= i < |s.nfts| && s.nfts[i].id == id
      ensures r.nfts[i] == WithBid(s.nfts[i], s.walletAddress, amount, now)
    {
    }
  }

  /** `cancelListing` clears both listing flags and the price but leaves the auction fields as they were. */
  lemma CancelKeepsAuctionData(s: State, id: string, nftAddress: string)
    ensures var r := Apply(s, CancelListing(id), nftAddress);
      forall i :: 0 <= i < |s.nfts| && s.nfts[i].id == id ==>
        && !r.nfts[i].isForSale && !r.nfts[i].isForAuction && r.nfts[i].price.None?
        && r.nfts[i].currentBid == s.nfts[i].currentBid
        && r.nfts[i].auctionEndTime == s.nfts[i].auctionEndTime
        && r.nfts[i].bids == s.nfts[i].bids
        && r.nfts[i].highestBidder == s.nfts[i].highestBidder
        && r.nfts[i] == s.nfts[i].(isForSale := false, isForAuction := false, price := None)
  {
  }

  /** `updateNFTPrice` changes the price and nothing else. */
  lemma UpdatePriceChangesOnlyPrice(s: State, id: string, newPrice: int, nftAddress: string)
    ensures var r := Apply(s, UpdateNFTPrice(id, newPrice), nftAddress);
      forall i :: 0 <= i < |s.nfts| && s.nfts[i].id == id ==> r.nfts[i] == s.nfts[i].(price := Some(newPrice))
  {
  }

  /** `finalizeAuction` does nothing without a highest bidder and a truthy current bid; otherwise it
      records the settlement, clears the auction and counts a sale, but the owner stays the seller. */
  lemma FinalizeKeepsOwner(s: State, id: string, txId: string, now: int, nftAddress: string)
    ensures var r := Apply(s, FinalizeAuction(id, txId, now), nftAddress);
      var found := IndexOfId(s.nfts, id);
      if found.None? || !HasAddress(s.nfts[found.value].highestBidder) || !HasAmount(s.nfts[found.value].currentBid) then r == s
      else
        var nft := s.nfts[found.value];
        && r.transactions == s.transactions
             + [Transaction(txId, id, nft.name, nft.highestBidder.value, nft.owner, nft.currentBid.value, now)]
        && r.nfts[found.value].owner == nft.owner
        && (nft.highestBidder.value != nft.owner ==> r.nfts[found.value].owner != nft.highestBidder.value)
        && forall i :: 0 <= i < |s.nfts| && s.nfts[i].id == id ==>
             && r.nfts[i].owner == nft.owner
             && !r.nfts[i].isForAuction && r.nfts[i].currentBid.None? && r.nfts[i].auctionEndTime.None?
             && r.nfts[i].bids.None? && r.nfts[i].highestBidder.None?
             && r.nfts[i].salesCount == s.nfts[i].salesCount + 1
             && r.nfts[i].contractAddress == SettledContractAddress
             && r.nfts[i].isForSale == s.nfts[i].isForSale && r.nfts[i].price == s.nfts[i].price
  {
  }

  // ---------------------------------------------------------------------------
  // Any sequence of operations
  // ---------------------------------------------------------------------------

  predicate Exclusive(n: NFT) {
    !(n.isForSale && n.isForAuction)
  }

  predicate AllExclusive(nfts: seq<NFT>) {
    forall i :: 0 <= i < |nfts| ==> Exclusive(nfts[i])
  }

  /** Every record the sequence creates starts neither for sale nor for auction, as the mint form does. */
  predicate CreatesUnlisted(acts: seq<Action>) {
    forall k :: 0 <= k < |acts| && acts[k].CreateNFT? ==> !acts[k].data.isForSale && !acts[k].data.isForAuction
  }

  lemma ApplyKeepsExclusive(s: State, a: Action, nftAddress: string)
    requires AllExclusive(s.nfts)
    requires a.CreateNFT? ==> !a.data.isForSale && !a.data.isForAuction
    ensures AllExclusive(Apply(s, a, nftAddress).nfts)
  {
    var r := Apply(s, a, nftAddress);
    forall i | 0 <= i < |r.nfts|
      ensures Exclusive(r.nfts[i])
    {
      if i < |s.nfts| {
        assert Exclusive(s.nfts[i]);
      }
    }
  }

  /** No record is ever both for sale and for auction. */
  lemma {:induction false} ListingsStayExclusive(s: State, acts: seq<Action>, nftAddress: string)
    requires AllExclusive(s.nfts)
    requires CreatesUnlisted(acts)
    ensures AllExclusive(Run(s, acts, nftAddress).nfts)
    decreases |acts|
  {
    if acts != [] {
      ApplyKeepsExclusive(s, acts[0], nftAddress);
      assert forall k :: 0 <= k < |acts[1..]| ==> acts[1..][k] == acts[k + 1];
      ListingsStayExclusive(Apply(s, acts[0], nftAddress), acts[1..], nftAddress);
    }
  }

  /** The number of `createNFT` calls in a sequence. */
  function Creations(acts: seq<Action>): nat {
    if acts == [] then 0 else (if acts[0].CreateNFT? then 1 else 0) + Creations(acts[1..])
  }

  /** The number of `buyNFT` and `finalizeAuction` calls in a sequence. */
  function Settlements(acts: seq<Action>): nat {
    if acts == [] then 0 else (if acts[0].BuyNFT? || acts[0].FinalizeAuction? then 1 else 0) + Settlements(acts[1..])
  }

  /** The ledger only grows at its end, by at most one entry per purchase or settlement; records
      are never removed or re-identified, and only `createNFT` adds them. */
  lemma {:induction false} LedgerIsAppendOnly(s: State, acts: seq<Action>, nftAddress: string)
    ensures var r := Run(s, acts, nftAddress);
      && s.transactions <= r.transactions
      && |r.transactions| <= |s.transactions| + Settlements(acts)
      && |r.nfts| == |s.nfts| + Creations(acts)
      && forall i :: 0 <= i < |s.nfts| ==> r.nfts[i].id == s.nfts[i].id
    decreases |acts|
  {
    if acts != [] {
      var next := Apply(s, acts[0], nftAddress);
      if ById(acts[0]) {
        ByIdUpdateFrame(s, acts[0], nftAddress);
      }
      LedgerIsAppendOnly(next, acts[1..], nftAddress);
    }
  }
}
