// The "My NFTs" page: the connected wallet's unlisted NFTs, and the two
// listing dialogs (fixed-price sale and timed auction).

module MyNFTs {
  import opened Wrappers
  import opened Collections
  import opened Addresses
  import opened NFTContext
  import opened Auction

  /** The test inside `nfts.filter(...)`: owned by the wallet (ignoring case) and listed nowhere. */
  predicate OwnedAndUnlisted(n: NFT, walletAddress: string) {
    SameAddress(n.owner, walletAddress) && !n.isForSale && !n.isForAuction
  }

  /** `myNFTs`: the wallet's records that are neither for sale nor up for auction. */
  function MyNFTList(nfts: seq<NFT>, walletAddress: string): (r: seq<NFT>)
    ensures forall n :: n in r <==>
      n in nfts && SameAddress(n.owner, walletAddress) && !n.isForSale && !n.isForAuction
    ensures |r| <= |nfts|
  {
    Filter(nfts, (n: NFT) => OwnedAndUnlisted(n, walletAddress))
  }

  /** The list keeps the store's order and each kept record's multiplicity. */
  lemma MyNFTListKeepsOrder(a: seq<NFT>, b: seq<NFT>, walletAddress: string)
    ensures MyNFTList(a + b, walletAddress) == MyNFTList(a, walletAddress) + MyNFTList(b, walletAddress)
    ensures forall n :: multiset(MyNFTList(a, walletAddress))[n] ==
                        (if OwnedAndUnlisted(n, walletAddress) then multiset(a)[n] else 0)
  {
    var p := (n: NFT) => OwnedAndUnlisted(n, walletAddress);
    FilterDistributes(a, b, p);
    forall n
      ensures multiset(MyNFTList(a, walletAddress))[n] == if OwnedAndUnlisted(n, walletAddress) then multiset(a)[n] else 0
    {
      FilterCount(a, p, n);
    }
  }

  /** After `listNFTForSale` or `listNFTForAuction` on an id, no record with that id is on the page. */
  lemma ListingLeavesMyNFTs(s: State, a: Action, nftAddress: string, walletAddress: string)
    requires a.ListNFTForSale? || a.ListNFTForAuction?
    ensures forall n :: n in MyNFTList(Apply(s, a, nftAddress).nfts, walletAddress) ==> n.id != a.nftId
  {
    var r := Apply(s, a, nftAddress);
    forall n | n in MyNFTList(r.nfts, walletAddress)
      ensures n.id != a.nftId
    {
      var i :| 0 <= i < |r.nfts| && r.nfts[i] == n;
      assert n.id == s.nfts[i].id;
      assert n.id == a.nftId ==> n.isForSale || n.isForAuction;
    }
  }

  /** After `cancelListing` on an id, every record with that id the wallet owns is back on the page. */
  lemma CancelReturnsToMyNFTs(s: State, id: string, nftAddress: string, walletAddress: string, i: nat)
    requires i < |s.nfts| && s.nfts[i].id == id
    requires SameAddress(s.nfts[i].owner, walletAddress)
    ensures var r := Apply(s, Action.CancelListing(id), nftAddress);
      i < |r.nfts| && r.nfts[i] in MyNFTList(r.nfts, walletAddress)
  {
    var r := Apply(s, Action.CancelListing(id), nftAddress);
    assert r.nfts[i] == Unlisted(s.nfts[i]);
  }

  // ---------------------------------------------------------------------------
  // Auction dialog
  // ---------------------------------------------------------------------------

  /**
   * `confirmAuction`: with a selected id, a starting price and a duration, the
   * auction listing to perform; `hours` is `parseInt(auctionDuration)`,
   * `startingBid` is `parseFloat(auctionPrice)` and `now` is `Date.now()`.
   */
  function ConfirmAuction(selected: Option<string>, auctionPrice: string, auctionDuration: string,
                          startingBid: int, hours: int, now: int): (r: Option<Action>)
    ensures r.Some? <==> selected.Some? && selected.value != "" && auctionPrice != "" && auctionDuration != ""
    ensures r.Some? ==> r.value.ListNFTForAuction? && r.value.nftId == selected.value && r.value.startingBid == startingBid
    ensures r.Some? ==> r.value.endTime - now == hours * MsPerHour
  {
    if selected.Some? && selected.value != "" && auctionPrice != "" && auctionDuration != "" then
      Some(Action.ListNFTForAuction(selected.value, startingBid, now + hours * 60 * 60 * 1000))
    else
      None
  }

  /** An auction of `hours` hours opened at `now` shows exactly `hours` hours left at `now`, or has already ended. */
  lemma EndTimeCountsDown(hours: int, now: int)
    ensures FormatTimeRemaining(now + hours * MsPerHour, now) ==
      if hours > 0 then Remaining(hours, 0, 0) else AuctionEnded
  {
    var remaining := now + hours * MsPerHour - now;
    assert remaining == hours * MsPerHour;
    if hours > 0 {
      assert remaining / MsPerHour == hours;
      assert remaining % MsPerHour == 0;
      assert remaining % MsPerMinute == 0;
    }
  }

  /** A confirmed auction dialog opens the auction: fresh bids, the starting price as current bid, and the chosen duration on the clock. */
  lemma ConfirmedAuctionOpens(s: State, selected: Option<string>, auctionPrice: string, auctionDuration: string,
                              startingBid: int, hours: int, now: int, nftAddress: string, i: nat)
    requires ConfirmAuction(selected, auctionPrice, auctionDuration, startingBid, hours, now).Some?
    requires i < |s.nfts| && s.nfts[i].id == selected.value
    ensures var a := ConfirmAuction(selected, auctionPrice, auctionDuration, startingBid, hours, now).value;
      var r := Apply(s, a, nftAddress);
      && i < |r.nfts|
      && r.nfts[i].isForAuction && !r.nfts[i].isForSale
      && r.nfts[i].currentBid == Some(startingBid) && BidsOf(r.nfts[i]) == []
      && r.nfts[i].auctionEndTime == Some(now + hours * MsPerHour)
      && FormatTimeRemaining(r.nfts[i].auctionEndTime.value, now) ==
           (if hours > 0 then Remaining(hours, 0, 0) else AuctionEnded)
      && (hours > 0 ==> !IsEnded(r.nfts[i], now))
  {
    var a := ConfirmAuction(selected, auctionPrice, auctionDuration, startingBid, hours, now).value;
    var r := Apply(s, a, nftAddress);
    assert r.nfts[i] == ListedForAuction(s.nfts[i], startingBid, now + hours * MsPerHour);
    EndTimeCountsDown(hours, now);
  }

  // ---------------------------------------------------------------------------
  // Sale dialog
  // ---------------------------------------------------------------------------

  /** How far `confirmSale` gets before the ownership query and the contract calls, which are not modelled. */
  datatype SaleStep =
    | Ignored
    | NoMetaMask
    | MissingContractAddress
    | Failed
    | SubmitListing(contractAddress: string, tokenId: string, salePrice: string)

  /**
   * `confirmSale` up to the ownership query: nothing without a selection or a
   * price, an alert without MetaMask, the catch's alert when the signer request
   * (`signerObtained`) or the conversion of the price to wei (`priceConverts`)
   * throws, an alert without a contract address, otherwise the listing request
   * with `tokenId || id` as the token.
   */
  function ConfirmSale(selected: Option<NFT>, salePrice: string, metaMaskPresent: bool,
                       signerObtained: bool, priceConverts: bool): (r: SaleStep)
    ensures r.Ignored? <==> selected.None? || salePrice == ""
    ensures r.NoMetaMask? <==> selected.Some? && salePrice != "" && !metaMaskPresent
    ensures r.MissingContractAddress? <==>
      selected.Some? && salePrice != "" && metaMaskPresent && signerObtained && selected.value.contractAddress == ""
    ensures r.SubmitListing? <==>
      && selected.Some? && salePrice != "" && metaMaskPresent && signerObtained && priceConverts
      && selected.value.contractAddress != ""
    ensures r.SubmitListing? ==>
      && r.contractAddress == selected.value.contractAddress
      && r.salePrice == salePrice
      && (r.tokenId == selected.value.tokenId || (selected.value.tokenId == "" && r.tokenId == selected.value.id))
      && (r.tokenId != "" <==> selected.value.tokenId != "" || selected.value.id != "")
  {
    if selected.None? || salePrice == "" then Ignored
    else if !metaMaskPresent then NoMetaMask
    else if !signerObtained then Failed
    else if selected.value.contractAddress == "" then MissingContractAddress
    else if !priceConverts then Failed
    else
      var n := selected.value;
      SubmitListing(n.contractAddress, if n.tokenId != "" then n.tokenId else n.id, salePrice)
  }

  /** Every record `createNFT` mints carries the configured contract address, so once the signer and
      the price conversion succeed a non-empty address always reaches the listing request. */
  lemma MintedRecordsReachListing(s: State, a: Action, nftAddress: string, salePrice: string)
    requires a.CreateNFT? && nftAddress != "" && salePrice != ""
    ensures var n := Apply(s, a, nftAddress).nfts[|s.nfts|];
      ConfirmSale(Some(n), salePrice, true, true, true) == SubmitListing(nftAddress, if a.tokenId != "" then a.tokenId else a.newId, salePrice)
  {
  }
}
