/**
 * The application context: an ordered list of NFT records, an append-only ledger of
 * completed transfers, and the wallet session. Every operation replaces the list (or
 * the ledger) by a new one; the record-level changes are the object spreads that the
 * operations apply inside `prev.map(...)`, written here as functions on `NFT`.
 *
 * Amounts (prices, bids) are integers in the smallest currency unit; times are
 * milliseconds. Identifiers and timestamps that the source draws from the clock are
 * parameters.
 */
module NFTContext {
  import opened Wrappers

  /** One entry of an auction's bid list. */
  datatype Bid = Bid(bidder: string, amount: int, time: int)

  /** One NFT record; optional fields are `Option`s. */
  datatype NFT = NFT(
    id: string,
    tokenId: string,
    name: string,
    creator: string,
    contractAddress: string,
    description: string,
    image: string,
    owner: string,
    price: Option<int>,
    isForSale: bool,
    isForAuction: bool,
    auctionEndTime: Option<int>,
    currentBid: Option<int>,
    highestBidder: Option<string>,
    bids: Option<seq<Bid>>,
    salesCount: nat,
    createdAt: int)

  /** What a caller hands to `createNFT`: an NFT without id, owner, salesCount, createdAt and tokenId. */
  datatype NFTData = NFTData(
    name: string,
    creator: string,
    contractAddress: string,
    description: string,
    image: string,
    price: Option<int>,
    isForSale: bool,
    isForAuction: bool,
    auctionEndTime: Option<int>,
    currentBid: Option<int>,
    highestBidder: Option<string>,
    bids: Option<seq<Bid>>)

  /** One completed transfer (a sale or an auction settlement). */
  datatype Transaction = Transaction(
    id: string,
    nftId: string,
    nftName: string,
    buyer: string,
    seller: string,
    price: int,
    timestamp: int)

  /** The provider's four pieces of state. */
  datatype State = State(
    nfts: seq<NFT>,
    transactions: seq<Transaction>,
    walletConnected: bool,
    walletAddress: string)

  /** The contract address that finalizing an auction writes into the record. */
  const SettledContractAddress: string := "0x5FbDB2315678afecb367f032d93F642f64180aa3"

  /** Milliseconds in an hour (`1000 * 60 * 60`). */
  const MsPerHour: int := 3600000

  /** JavaScript truthiness of an optional amount: set and not 0. */
  predicate HasAmount(o: Option<int>) {
    o.Some? && o.value != 0
  }

  /** JavaScript truthiness of an optional address: set and not the empty string. */
  predicate HasAddress(o: Option<string>) {
    o.Some? && o.value != ""
  }

  /** `nft.bids || []`. */
  function BidsOf(n: NFT): seq<Bid> {
    if n.bids.Some? then n.bids.value else []
  }

  // ---------------------------------------------------------------------------
  // Record-level changes (the object spreads inside `prev.map`)
  // ---------------------------------------------------------------------------

  /** The record `createNFT` builds: the caller's data, then the fields it forces. */
  function Minted(data: NFTData, tokenId: string, id: string, owner: string, now: int, nftAddress: string): NFT {
    NFT(id, tokenId, data.name, data.creator, nftAddress, data.description, data.image, owner,
        data.price, data.isForSale, data.isForAuction, data.auctionEndTime, data.currentBid,
        data.highestBidder, data.bids, 0, now)
  }

  function ListedForSale(n: NFT, price: int): NFT {
    n.(isForSale := true, price := Some(price), isForAuction := false)
  }

  function ListedForAuction(n: NFT, startingBid: int, endTime: int): NFT {
    n.(isForAuction := true, isForSale := false, currentBid := Some(startingBid),
       auctionEndTime := Some(endTime), bids := Some([]), highestBidder := None)
  }

  function Sold(n: NFT, buyer: string): NFT {
    n.(owner := buyer, isForSale := false, price := None, salesCount := n.salesCount + 1)
  }

  /** A bid is recorded only on a record that is up for auction. */
  function WithBid(n: NFT, bidder: string, amount: int, now: int): NFT {
    if n.isForAuction then
      n.(currentBid := Some(amount), highestBidder := Some(bidder),
         bids := Some(BidsOf(n) + [Bid(bidder, amount, now)]))
    else n
  }

  function Unlisted(n: NFT): NFT {
    n.(isForSale := false, isForAuction := false, price := None)
  }

  function Repriced(n: NFT, newPrice: int): NFT {
    n.(price := Some(newPrice))
  }

  /** `owner` is taken from the record found before the update, not from the highest bidder. */
  function Settled(n: NFT, owner: string): NFT {
    n.(owner := owner, isForAuction := false, currentBid := None, auctionEndTime := None,
       bids := None, highestBidder := None, salesCount := n.salesCount + 1,
       contractAddress := SettledContractAddress)
  }

  /** `nfts.map(nft => nft.id === id ? f(nft) : nft)`. */
  function MapWhere(nfts: seq<NFT>, id: string, f: NFT -> NFT): seq<NFT> {
    seq(|nfts|, i requires 0 <= i < |nfts| => if nfts[i].id == id then f(nfts[i]) else nfts[i])
  }

  /** The position `nfts.find(n => n.id === id)` returns, if any: the first record with that id. */
  function IndexOfId(nfts: seq<NFT>, id: string): (r: Option<nat>)
    ensures r.None? ==> forall i :: 0 <= i < |nfts| ==> nfts[i].id != id
    ensures r.Some? ==> r.value < |nfts| && nfts[r.value].id == id
    ensures r.Some? ==> forall j :: 0 <= j < r.value ==> nfts[j].id != id
  {
    if nfts == [] then None
    else if nfts[0].id == id then Some(0)
    else match IndexOfId(nfts[1..], id)
      case None => None
      case Some(k) => Some(k + 1)
  }

  // ---------------------------------------------------------------------------
  // Operations on the whole state
  // ---------------------------------------------------------------------------

  /** The operations the context exposes, with the clock readings and ids they draw as arguments. */
  datatype Action =
    | CreateNFT(data: NFTData, tokenId: string, newId: string, now: int)
    | ListNFTForSale(nftId: string, price: int)
    | ListNFTForAuction(nftId: string, startingBid: int, endTime: int)
    | BuyNFT(nftId: string, txId: string, now: int)
    | PlaceBid(nftId: string, amount: int, now: int)
    | CancelListing(nftId: string)
    | UpdateNFTPrice(nftId: string, newPrice: int)
    | FinalizeAuction(nftId: string, txId: string, now: int)
    | ConnectWallet(account: Option<string>)
    | DisconnectWallet

  /** `buyNFT`: silently ignored unless the record exists and has a truthy price; otherwise one
      ledger entry, in which the wallet buys from the owner at that price. */
  function Buy(s: State, id: string, txId: string, now: int): (r: State)
    ensures |r.nfts| == |s.nfts| && s.transactions <= r.transactions
    ensures |r.transactions| == |s.transactions| + 1 <==>
      IndexOfId(s.nfts, id).Some? && HasAmount(s.nfts[IndexOfId(s.nfts, id).value].price)
    ensures |r.transactions| == |s.transactions| ==> r == s
    ensures |r.transactions| != |s.transactions| ==>
      && |r.transactions| == |s.transactions| + 1 && IndexOfId(s.nfts, id).Some?
      && var tx := r.transactions[|s.transactions|];
      var k := IndexOfId(s.nfts, id).value;
      && tx.nftId == id && tx.buyer == s.walletAddress && tx.seller == s.nfts[k].owner
      && tx.price != 0 && Some(tx.price) == s.nfts[k].price
    ensures r.walletAddress == s.walletAddress && r.walletConnected == s.walletConnected
  {
    match IndexOfId(s.nfts, id)
    case None => s
    case Some(i) =>
      var nft := s.nfts[i];
      if !HasAmount(nft.price) then s
      else
        var tx := Transaction(txId, nft.id, nft.name, s.walletAddress, nft.owner, nft.price.value, now);
        s.(transactions := s.transactions + [tx],
           nfts := MapWhere(s.nfts, id, n => Sold(n, s.walletAddress)))
  }

  /** `finalizeAuction`: silently ignored unless the record has a highest bidder and a truthy current
      bid; otherwise one ledger entry, in which the highest bidder buys from the owner at that bid. */
  function Settle(s: State, id: string, txId: string, now: int): (r: State)
    ensures |r.nfts| == |s.nfts| && s.transactions <= r.transactions
    ensures |r.transactions| == |s.transactions| + 1 <==>
      && IndexOfId(s.nfts, id).Some?
      && HasAddress(s.nfts[IndexOfId(s.nfts, id).value].highestBidder)
      && HasAmount(s.nfts[IndexOfId(s.nfts, id).value].currentBid)
    ensures |r.transactions| == |s.transactions| ==> r == s
    ensures |r.transactions| != |s.transactions| ==>
      && |r.transactions| == |s.transactions| + 1 && IndexOfId(s.nfts, id).Some?
      && var tx := r.transactions[|s.transactions|];
      var k := IndexOfId(s.nfts, id).value;
      && tx.nftId == id && tx.buyer != "" && Some(tx.buyer) == s.nfts[k].highestBidder
      && tx.seller == s.nfts[k].owner && tx.price != 0 && Some(tx.price) == s.nfts[k].currentBid
    ensures r.walletAddress == s.walletAddress && r.walletConnected == s.walletConnected
  {
    match IndexOfId(s.nfts, id)
    case None => s
    case Some(i) =>
      var nft := s.nfts[i];
      if !HasAddress(nft.highestBidder) || !HasAmount(nft.currentBid) then s
      else
        var tx := Transaction(txId, nft.id, nft.name, nft.highestBidder.value, nft.owner, nft.currentBid.value, now);
        s.(transactions := s.transactions + [tx],
           nfts := MapWhere(s.nfts, id, n => Settled(n, nft.owner)))
  }

  /** The state after one operation. `nftAddress` is the configured NFT contract address. Records
      are only ever appended, by `createNFT`, and keep their ids; the ledger grows by at most one
      entry, only through `buyNFT` and `finalizeAuction`; only the wallet operations touch the wallet. */
  function Apply(s: State, a: Action, nftAddress: string): (r: State)
    ensures |r.nfts| == |s.nfts| + (if a.CreateNFT? then 1 else 0)
    ensures forall i :: 0 <= i < |s.nfts| ==> r.nfts[i].id == s.nfts[i].id
    ensures s.transactions <= r.transactions && |r.transactions| <= |s.transactions| + 1
    ensures !(a.BuyNFT? || a.FinalizeAuction?) ==> r.transactions == s.transactions
    ensures !(a.ConnectWallet? || a.DisconnectWallet?) ==>
      r.walletAddress == s.walletAddress && r.walletConnected == s.walletConnected
  {
    match a
    case CreateNFT(data, tokenId, newId, now) =>
      s.(nfts := s.nfts + [Minted(data, tokenId, newId, s.walletAddress, now, nftAddress)])
    case ListNFTForSale(id, price) =>
      s.(nfts := MapWhere(s.nfts, id, n => ListedForSale(n, price)))
    case ListNFTForAuction(id, startingBid, endTime) =>
      s.(nfts := MapWhere(s.nfts, id, n => ListedForAuction(n, startingBid, endTime)))
    case BuyNFT(id, txId, now) =>
      Buy(s, id, txId, now)
    case PlaceBid(id, amount, now) =>
      s.(nfts := MapWhere(s.nfts, id, n => WithBid(n, s.walletAddress, amount, now)))
    case CancelListing(id) =>
      s.(nfts := MapWhere(s.nfts, id, n => Unlisted(n)))
    case UpdateNFTPrice(id, newPrice) =>
      s.(nfts := MapWhere(s.nfts, id, n => Repriced(n, newPrice)))
    case FinalizeAuction(id, txId, now) =>
      Settle(s, id, txId, now)
    case ConnectWallet(account) =>
      if account.Some? then s.(walletConnected := true, walletAddress := account.value) else s
    case DisconnectWallet =>
      s.(walletConnected := false, walletAddress := "")
  }

  /** The state after a sequence of operations, applied one after another. */
  function Run(s: State, acts: seq<Action>, nftAddress: string): State
    decreases |acts|
  {
    if acts == [] then s else Run(Apply(s, acts[0], nftAddress), acts[1..], nftAddress)
  }

  /** The wallet address restored at start-up: only when the saved flag is the string "true" and a non-empty address was saved. */
  function RestoredWallet(savedWallet: Option<string>, savedAddress: Option<string>): (r: Option<string>)
    ensures r.Some? <==> savedWallet == Some("true") && HasAddress(savedAddress)
    ensures r.Some? ==> savedAddress == Some(r.value) && r.value != ""
  {
    if savedWallet == Some("true") && HasAddress(savedAddress) then savedAddress else None
  }

  // ---------------------------------------------------------------------------
  // The provider, as an object whose fields the operations replace
  // ---------------------------------------------------------------------------

  class Provider {
    var nfts: seq<NFT>
    var transactions: seq<Transaction>
    var walletConnected: bool
    var walletAddress: string
    /** The NFT contract address that `createNFT` stamps on every new record. */
    const nftAddress: string

    function Snapshot(): State
      reads this
    {
      State(nfts, transactions, walletConnected, walletAddress)
    }

    /** A fresh provider: no records, no transactions, no wallet. */
    constructor (nftAddress: string)
      ensures this.nftAddress == nftAddress
      ensures Snapshot() == State([], [], false, "")
    {
      this.nftAddress := nftAddress;
      nfts, transactions := [], [];
      walletConnected, walletAddress := false, "";
    }

    /** The start-up restore of the saved wallet session; the saved address is trusted as it is. */
    method RestoreWallet(savedWallet: Option<string>, savedAddress: Option<string>)
      modifies this
      ensures nfts == old(nfts) && transactions == old(transactions)
      ensures RestoredWallet(savedWallet, savedAddress).Some? ==>
                walletConnected && walletAddress == RestoredWallet(savedWallet, savedAddress).value
      ensures RestoredWallet(savedWallet, savedAddress).None? ==>
                walletConnected == old(walletConnected) && walletAddress == old(walletAddress)
    {
      var restored := RestoredWallet(savedWallet, savedAddress);
      if restored.Some? {
        walletConnected, walletAddress := true, restored.value;
      }
    }

    /** `account` is the first account the wallet provider returned; None stands for no provider or a
        rejected request, after which nothing changes. An empty account list is not modelled. */
    method ConnectWallet(account: Option<string>)
      modifies this
      ensures Snapshot() == Apply(old(Snapshot()), Action.ConnectWallet(account), nftAddress)
    {
      if account.Some? {
        walletAddress := account.value;
        walletConnected := true;
      }
    }

    method DisconnectWallet()
      modifies this
      ensures Snapshot() == Apply(old(Snapshot()), Action.DisconnectWallet, nftAddress)
      ensures !walletConnected && walletAddress == ""
    {
      walletConnected := false;
      walletAddress := "";
    }

    method CreateNFT(data: NFTData, tokenId: string, newId: string, now: int)
      modifies this
      ensures Snapshot() == Apply(old(Snapshot()), Action.CreateNFT(data, tokenId, newId, now), nftAddress)
      ensures |nfts| == |old(nfts)| + 1 && nfts[..|old(nfts)|] == old(nfts)
    {
      nfts := nfts + [Minted(data, tokenId, newId, walletAddress, now, nftAddress)];
    }

    method ListNFTForSale(nftId: string, price: int)
      modifies this
      ensures Snapshot() == Apply(old(Snapshot()), Action.ListNFTForSale(nftId, price), nftAddress)
    {
      nfts := MapWhere(nfts, nftId, n => ListedForSale(n, price));
    }

    method ListNFTForAuction(nftId: string, startingBid: int, endTime: int)
      modifies this
      ensures Snapshot() == Apply(old(Snapshot()), Action.ListNFTForAuction(nftId, startingBid, endTime), nftAddress)
    {
      nfts := MapWhere(nfts, nftId, n => ListedForAuction(n, startingBid, endTime));
    }

    method BuyNFT(nftId: string, txId: string, now: int)
      modifies this
      ensures Snapshot() == Apply(old(Snapshot()), Action.BuyNFT(nftId, txId, now), nftAddress)
      ensures old(transactions) <= transactions && |transactions| <= |old(transactions)| + 1
    {
      var found := IndexOfId(nfts, nftId);
      if found.None? {
        return;
      }
      var nft := nfts[found.value];
      if !HasAmount(nft.price) {
        return;
      }
      var buyer := walletAddress;
      transactions := transactions + [Transaction(txId, nft.id, nft.name, buyer, nft.owner, nft.price.value, now)];
      nfts := MapWhere(nfts, nftId, n => Sold(n, buyer));
    }

    method PlaceBid(nftId: string, amount: int, now: int)
      modifies this
      ensures Snapshot() == Apply(old(Snapshot()), Action.PlaceBid(nftId, amount, now), nftAddress)
    {
      var bidder := walletAddress;
      nfts := MapWhere(nfts, nftId, n => WithBid(n, bidder, amount, now));
    }

    method CancelListing(nftId: string)
      modifies this
      ensures Snapshot() == Apply(old(Snapshot()), Action.CancelListing(nftId), nftAddress)
    {
      nfts := MapWhere(nfts, nftId, n => Unlisted(n));
    }

    method UpdateNFTPrice(nftId: string, newPrice: int)
      modifies this
      ensures Snapshot() == Apply(old(Snapshot()), Action.UpdateNFTPrice(nftId, newPrice), nftAddress)
    {
      nfts := MapWhere(nfts, nftId, n => Repriced(n, newPrice));
    }

    method FinalizeAuction(nftId: string, txId: string, now: int)
      modifies this
      ensures Snapshot() == Apply(old(Snapshot()), Action.FinalizeAuction(nftId, txId, now), nftAddress)
      ensures old(transactions) <= transactions && |transactions| <= |old(transactions)| + 1
    {
      var found := IndexOfId(nfts, nftId);
      if found.None? {
        return;
      }
      var nft := nfts[found.value];
      if !HasAddress(nft.highestBidder) || !HasAmount(nft.currentBid) {
        return;
      }
      transactions := transactions + [Transaction(txId, nft.id, nft.name, nft.highestBidder.value, nft.owner, nft.currentBid.value, now)];
      var keptOwner := nft.owner;
      nfts := MapWhere(nfts, nftId, n => Settled(n, keptOwner));
    }
  }
}
