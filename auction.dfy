/**
 * The auction page: which records it lists, the countdown it shows, the bid check it
 * performs before calling `placeBid`, which buttons it offers, and the bid history.
 * The clock reading `currentTime` is a parameter.
 */
module Auction {
  import opened Wrappers
  import opened Collections
  import opened Addresses
  import opened NFTContext

  const MsPerMinute: int := 60000
  const MsPerSecond: int := 1000

  /** `nfts.filter(nft => nft.isForAuction)`. */
  function AuctionNFTs(nfts: seq<NFT>): (r: seq<NFT>)
    ensures forall n :: n in r <==> n in nfts && n.isForAuction
    ensures |r| <= |nfts|
  {
    Filter(nfts, (n: NFT) => n.isForAuction)
  }

  /** The auction list keeps the store's order: listing a concatenation lists each part in turn. */
  lemma AuctionNFTsKeepOrder(a: seq<NFT>, b: seq<NFT>)
    ensures AuctionNFTs(a + b) == AuctionNFTs(a) + AuctionNFTs(b)
    ensures forall n :: multiset(AuctionNFTs(a))[n] == if n.isForAuction then multiset(a)[n] else 0
  {
    FilterDistributes(a, b, (n: NFT) => n.isForAuction);
    forall n: NFT
      ensures multiset(AuctionNFTs(a))[n] == if n.isForAuction then multiset(a)[n] else 0
    {
      FilterCount(a, (n: NFT) => n.isForAuction, n);
    }
  }

  // ---------------------------------------------------------------------------
  // Countdown
  // ---------------------------------------------------------------------------

  /** What `formatTimeRemaining` renders: "Auction Ended", or hours, minutes and seconds left. */
  datatype Countdown = AuctionEnded | Remaining(hours: int, minutes: int, seconds: int)

  /** Whole hours, minutes and seconds of a positive number of milliseconds, each unit below the next. */
  lemma SplitMilliseconds(remaining: int)
    requires remaining > 0
    ensures var h := remaining / MsPerHour;
      var m := (remaining % MsPerHour) / MsPerMinute;
      var sec := (remaining % MsPerMinute) / MsPerSecond;
      && 0 <= h && 0 <= m < 60 && 0 <= sec < 60
      && h * MsPerHour + m * MsPerMinute + sec * MsPerSecond <= remaining
      && remaining < h * MsPerHour + m * MsPerMinute + sec * MsPerSecond + MsPerSecond
  {
    var h := remaining / MsPerHour;
    var r1 := remaining % MsPerHour;
    var m := r1 / MsPerMinute;
    var r2 := r1 % MsPerMinute;
    assert remaining == h * MsPerHour + r1 && 0 <= r1 < MsPerHour;
    assert r1 == m * MsPerMinute + r2 && 0 <= r2 < MsPerMinute;
    assert 0 <= m < 60;
    assert remaining == (h * 60 + m) * MsPerMinute + r2;
    assert remaining % MsPerMinute == r2;
  }

  /** `formatTimeRemaining(endTime)` at clock reading `currentTime`. */
  function FormatTimeRemaining(endTime: int, currentTime: int): (r: Countdown)
    ensures r.AuctionEnded? <==> endTime - currentTime <= 0
    ensures r.Remaining? ==> 0 <= r.hours && 0 <= r.minutes < 60 && 0 <= r.seconds < 60
    ensures r.Remaining? ==>
      var shown := r.hours * MsPerHour + r.minutes * MsPerMinute + r.seconds * MsPerSecond;
      shown <= endTime - currentTime < shown + MsPerSecond
  {
    var remaining := endTime - currentTime;
    if remaining <= 0 then AuctionEnded
    else
      SplitMilliseconds(remaining);
      Remaining(remaining / MsPerHour, (remaining % MsPerHour) / MsPerMinute, (remaining % MsPerMinute) / MsPerSecond)
  }

  // ---------------------------------------------------------------------------
  // Per-card tests and buttons
  // ---------------------------------------------------------------------------

  /** `nft.owner.toLowerCase() === walletAddress.toLowerCase()`: the wallet owns the card when the
      two addresses differ at most in the case of their letters. */
  predicate IsOwner(n: NFT, walletAddress: string)
    ensures IsOwner(n, walletAddress) <==>
      |n.owner| == |walletAddress| && forall i :: 0 <= i < |n.owner| ==> SameLetter(n.owner[i], walletAddress[i])
  {
    SameAddressIgnoresCase(n.owner, walletAddress);
    SameAddress(n.owner, walletAddress)
  }

  /** `nft.auctionEndTime && nft.auctionEndTime <= currentTime`: an unset or zero end time never ends;
      otherwise the card is ended exactly when its countdown reads "Auction Ended". */
  predicate IsEnded(n: NFT, currentTime: int)
    ensures n.auctionEndTime.None? || n.auctionEndTime == Some(0) ==> !IsEnded(n, currentTime)
    ensures n.auctionEndTime.Some? && n.auctionEndTime.value != 0 ==>
      (IsEnded(n, currentTime) <==> FormatTimeRemaining(n.auctionEndTime.value, currentTime).AuctionEnded?)
  {
    n.auctionEndTime.Some? && n.auctionEndTime.value != 0 && n.auctionEndTime.value <= currentTime
  }

  /** Once ended, a card stays ended as the clock moves on. */
  lemma EndedStaysEnded(n: NFT, currentTime: int, later: int)
    requires IsEnded(n, currentTime) && currentTime <= later
    ensures IsEnded(n, later)
  {
  }

  /** Which of the two action buttons a card shows. */
  datatype Buttons = Buttons(placeBid: bool, finalize: bool)

  /** Place Bid goes to a non-owner before the end; Finalize to the owner after the end, once someone has bid. */
  function CardButtons(n: NFT, walletAddress: string, currentTime: int): (r: Buttons)
    ensures r.placeBid <==> !IsOwner(n, walletAddress) && !IsEnded(n, currentTime)
    ensures r.finalize <==> IsOwner(n, walletAddress) && IsEnded(n, currentTime) && HasAddress(n.highestBidder)
    ensures !(r.placeBid && r.finalize)
  {
    var owner := IsOwner(n, walletAddress);
    var ended := IsEnded(n, currentTime);
    Buttons(!owner && !ended, owner && ended && HasAddress(n.highestBidder))
  }

  /** The bid history, newest bid first (`[...nft.bids].reverse()`). */
  function BidHistory(n: NFT): (r: seq<Bid>)
    ensures |r| == |BidsOf(n)|
    ensures forall k :: 0 <= k < |r| ==> r[k] == BidsOf(n)[|r| - 1 - k]
  {
    Reverse(BidsOf(n))
  }

  // ---------------------------------------------------------------------------
  // The bid check
  // ---------------------------------------------------------------------------

  /** The check before `placeBid`: refused when the current bid is truthy and the amount does not
      exceed it. It accepts what the corrected check accepts, and in addition any amount at all
      when the current bid is 0. */
  predicate AcceptsBid(currentBid: Option<int>, amount: int)
    ensures AcceptsBid(currentBid, amount) <==> RaisesCurrentBid(currentBid, amount) || currentBid == Some(0)
  {
    !(HasAmount(currentBid) && amount <= currentBid.value)
  }

  /** What `confirmBid` does. */
  datatype BidOutcome = NoAction | TooLow | Placed(nftId: string, amount: int)

  /** `confirmBid`, with `amount` the parsed value of the non-empty text `bidAmount`. */
  function ConfirmBid(selected: Option<NFT>, bidAmount: string, amount: int): (r: BidOutcome)
    ensures r.Placed? <==> selected.Some? && bidAmount != "" && AcceptsBid(selected.value.currentBid, amount)
    ensures r.Placed? ==> r.nftId == selected.value.id && r.amount == amount
    ensures r.TooLow? <==> selected.Some? && bidAmount != "" && !AcceptsBid(selected.value.currentBid, amount)
    ensures selected.Some? && HasAmount(selected.value.currentBid) && amount <= selected.value.currentBid.value ==> !r.Placed?
  {
    if selected.None? || bidAmount == "" then NoAction
    else if !AcceptsBid(selected.value.currentBid, amount) then TooLow
    else Placed(selected.value.id, amount)
  }

  /** The evidently intended check: refused whenever a current bid is set and not exceeded, also when it is 0. */
  predicate RaisesCurrentBid(currentBid: Option<int>, amount: int) {
    currentBid.None? || amount > currentBid.value
  }

  /** Before every `placeBid` in a run, the bid passed the check against each record with that id. */
  predicate PassesCheck(s: State, a: Action, corrected: bool) {
    a.PlaceBid? ==>
      forall i :: 0 <= i < |s.nfts| && s.nfts[i].id == a.nftId ==>
        if corrected then RaisesCurrentBid(s.nfts[i].currentBid, a.amount)
        else AcceptsBid(s.nfts[i].currentBid, a.amount)
  }

  predicate CheckedRun(s: State, acts: seq<Action>, nftAddress: string, corrected: bool)
    decreases |acts|
  {
    acts == [] ||
    (PassesCheck(s, acts[0], corrected) && CheckedRun(Apply(s, acts[0], nftAddress), acts[1..], nftAddress, corrected))
  }

  predicate StrictlyIncreasing(bids: seq<Bid>) {
    forall i, j :: 0 <= i < j < |bids| ==> bids[i].amount < bids[j].amount
  }

  /** The record's bids strictly increase and its current bid is the last bid's amount. */
  predicate BidsAscend(n: NFT) {
    var bids := BidsOf(n);
    StrictlyIncreasing(bids) && (|bids| > 0 ==> n.currentBid == Some(bids[|bids| - 1].amount))
  }

  predicate LastBidNonZero(n: NFT) {
    var bids := BidsOf(n);
    |bids| > 0 ==> bids[|bids| - 1].amount != 0
  }

  predicate AllAscend(nfts: seq<NFT>, corrected: bool) {
    forall i :: 0 <= i < |nfts| ==> BidsAscend(nfts[i]) && (!corrected ==> LastBidNonZero(nfts[i]))
  }

  /** Records created in the run carry no bids, as the mint form's records do. */
  predicate CreatesWithoutBids(acts: seq<Action>) {
    forall k :: 0 <= k < |acts| && acts[k].CreateNFT? ==> acts[k].data.bids.None?
  }

  predicate NonZeroBids(acts: seq<Action>) {
    forall k :: 0 <= k < |acts| && acts[k].PlaceBid? ==> acts[k].amount != 0
  }

  /** Every operation other than `placeBid` either keeps a record's bids and current bid or leaves it without bids. */
  lemma OtherActionKeepsBids(s: State, a: Action, nftAddress: string, i: nat)
    requires !a.PlaceBid?
    requires a.CreateNFT? ==> a.data.bids.None?
    requires i < |Apply(s, a, nftAddress).nfts|
    ensures var m := Apply(s, a, nftAddress).nfts[i];
      BidsOf(m) == [] || (i < |s.nfts| && m.bids == s.nfts[i].bids && m.currentBid == s.nfts[i].currentBid)
  {
    match a
    case CreateNFT(data, tokenId, newId, now) =>
    case ListNFTForSale(id, price) =>
    case ListNFTForAuction(id, startingBid, endTime) =>
    case BuyNFT(id, txId, now) =>
    case CancelListing(id) =>
    case UpdateNFTPrice(id, newPrice) =>
    case FinalizeAuction(id, txId, now) =>
    case ConnectWallet(account) =>
    case DisconnectWallet =>
  }

  /** A bid that exceeds the last one keeps the record's bids ascending. */
  lemma BidKeepsAscending(n: NFT, bidder: string, amount: int, now: int, corrected: bool)
    requires BidsAscend(n) && (!corrected ==> LastBidNonZero(n))
    requires |BidsOf(n)| > 0 ==> amount > BidsOf(n)[|BidsOf(n)| - 1].amount
    requires !corrected ==> amount != 0
    ensures var m := WithBid(n, bidder, amount, now); BidsAscend(m) && (!corrected ==> LastBidNonZero(m))
  {
  }

  lemma ApplyKeepsBidsAscending(s: State, a: Action, nftAddress: string, corrected: bool)
    requires AllAscend(s.nfts, corrected)
    requires PassesCheck(s, a, corrected)
    requires a.CreateNFT? ==> a.data.bids.None?
    requires !corrected && a.PlaceBid? ==> a.amount != 0
    ensures AllAscend(Apply(s, a, nftAddress).nfts, corrected)
  {
    var r := Apply(s, a, nftAddress);
    if a.PlaceBid? {
      forall i | 0 <= i < |r.nfts|
        ensures BidsAscend(r.nfts[i]) && (!corrected ==> LastBidNonZero(r.nfts[i]))
      {
        var n := s.nfts[i];
        assert r.nfts[i] == if n.id == a.nftId then WithBid(n, s.walletAddress, a.amount, a.now) else n;
        if n.id == a.nftId {
          var bids := BidsOf(n);
          if |bids| > 0 {
            assert n.currentBid == Some(bids[|bids| - 1].amount);
            assert !corrected ==> bids[|bids| - 1].amount != 0;
          }
          BidKeepsAscending(n, s.walletAddress, a.amount, a.now, corrected);
        }
      }
    } else {
      forall i | 0 <= i < |r.nfts|
        ensures BidsAscend(r.nfts[i]) && (!corrected ==> LastBidNonZero(r.nfts[i]))
      {
        OtherActionKeepsBids(s, a, nftAddress, i);
      }
    }
  }

  lemma {:induction false} CheckedRunKeepsBidsAscending(s: State, acts: seq<Action>, nftAddress: string, corrected: bool)
    requires AllAscend(s.nfts, corrected)
    requires CheckedRun(s, acts, nftAddress, corrected)
    requires CreatesWithoutBids(acts)
    requires !corrected ==> NonZeroBids(acts)
    ensures AllAscend(Run(s, acts, nftAddress).nfts, corrected)
    decreases |acts|
  {
    if acts != [] {
      ApplyKeepsBidsAscending(s, acts[0], nftAddress, corrected);
      assert forall k :: 0 <= k < |acts[1..]| ==> acts[1..][k] == acts[k + 1];
      CheckedRunKeepsBidsAscending(Apply(s, acts[0], nftAddress), acts[1..], nftAddress, corrected);
    }
  }

  /** When every bid goes through the page's check and no bid is 0, each auction's bids strictly
      increase and its current bid is the last one. */
  lemma BidsRiseThroughConfirmBid(s: State, acts: seq<Action>, nftAddress: string)
    requires AllAscend(s.nfts, false)
    requires CheckedRun(s, acts, nftAddress, false)
    requires CreatesWithoutBids(acts) && NonZeroBids(acts)
    ensures var r := Run(s, acts, nftAddress);
      forall i :: 0 <= i < |r.nfts| ==> StrictlyIncreasing(BidsOf(r.nfts[i]))
  {
    CheckedRunKeepsBidsAscending(s, acts, nftAddress, false);
  }

  /** Under the page's check, a bid of 0 on an auction that starts at 0 is accepted, and so is a
      second bid of 0: the bid list is no longer strictly increasing. */
  lemma ZeroBidLetsEqualBidThrough()
    ensures
      var data := NFTData("Art", "Ann", "", "", "", None, false, false, None, None, None, None);
      var s := State([Minted(data, "7", "n1", "0xA", 0, "0xC")], [], true, "0xB");
      var acts := [ListNFTForAuction("n1", 0, 100), PlaceBid("n1", 0, 10), PlaceBid("n1", 0, 20)];
      && AllAscend(s.nfts, false)
      && CheckedRun(s, acts, "0xC", false)
      && BidsOf(Run(s, acts, "0xC").nfts[0]) == [Bid("0xB", 0, 10), Bid("0xB", 0, 20)]
      && !StrictlyIncreasing(BidsOf(Run(s, acts, "0xC").nfts[0]))
  {
    var data := NFTData("Art", "Ann", "", "", "", None, false, false, None, None, None, None);
    var s0 := State([Minted(data, "7", "n1", "0xA", 0, "0xC")], [], true, "0xB");
    var s1 := Apply(s0, ListNFTForAuction("n1", 0, 100), "0xC");
    assert s1.nfts[0].currentBid == Some(0) && BidsOf(s1.nfts[0]) == [];
    var s2 := Apply(s1, PlaceBid("n1", 0, 10), "0xC");
    assert s2.nfts[0].currentBid == Some(0) && BidsOf(s2.nfts[0]) == [Bid("0xB", 0, 10)];
    var s3 := Apply(s2, PlaceBid("n1", 0, 20), "0xC");
    assert BidsOf(s3.nfts[0]) == [Bid("0xB", 0, 10), Bid("0xB", 0, 20)];
    assert !(BidsOf(s3.nfts[0])[0].amount < BidsOf(s3.nfts[0])[1].amount);
    var acts := [ListNFTForAuction("n1", 0, 100), PlaceBid("n1", 0, 10), PlaceBid("n1", 0, 20)];
    assert Run(s0, acts, "0xC") == s3 by {
      assert acts[1..] == [PlaceBid("n1", 0, 10), PlaceBid("n1", 0, 20)];
      assert acts[1..][1..] == [PlaceBid("n1", 0, 20)];
    }
    assert CheckedRun(s0, acts, "0xC", false) by {
      assert acts[1..] == [PlaceBid("n1", 0, 10), PlaceBid("n1", 0, 20)];
      assert acts[1..][1..] == [PlaceBid("n1", 0, 20)];
    }
  }

  /** With the corrected check, every auction's bids strictly increase and its current bid is the
      last one, whatever the amounts. */
  lemma BidsRiseThroughCorrectedCheck(s: State, acts: seq<Action>, nftAddress: string)
    requires AllAscend(s.nfts, true)
    requires CheckedRun(s, acts, nftAddress, true)
    requires CreatesWithoutBids(acts)
    ensures var r := Run(s, acts, nftAddress);
      forall i :: 0 <= i < |r.nfts| ==>
        var bids := BidsOf(r.nfts[i]);
        StrictlyIncreasing(bids) && (|bids| > 0 ==> r.nfts[i].currentBid == Some(bids[|bids| - 1].amount))
  {
    CheckedRunKeepsBidsAscending(s, acts, nftAddress, true);
  }
}
