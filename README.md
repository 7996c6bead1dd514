# NFT marketplace front end: the state context and the auction pages

This project models the client-side core of a React NFT marketplace and proves properties of that model in Dafny. The model covers four parts:

- **The shared context** (`NFTContext`). It holds the list of NFT records, the ledger of sale transactions and the connected wallet. It offers eight operations: create, list for sale, list for auction, buy, place a bid, cancel a listing, update a price and finalize an auction. It also covers connecting and disconnecting a wallet, and restoring a saved wallet session at start-up.
  - The operations are pure functions on a `State` value. `Apply` performs one operation and `Run` performs a sequence of them.
  - The class `NFTContext.Provider` holds the same four fields. Each of its methods replaces them, and its contract says the new state is `Apply` of the old one.
- **The auction page** (`Auction`). It covers the auction list, the countdown text and the ended test. It decides which button a card shows, shows the bid history newest first, and checks a bid before passing it to the context.
- **The popular carousel** (`PopularNFTs`). It shows the ten records with the most sales, most sales first, using a stable sort. It decides whether the section renders and whether the scroll arrows show.
- **The "My NFTs" page** (`MyNFTs`). It lists the wallet's unlisted records, matching the owner ignoring case. It also has the two listing dialogs: the auction dialog, with its guard and end-time arithmetic, and the sale dialog, with its guards up to the contract calls.

Modelling choices:

- **Truthiness.** JavaScript truthiness is written out:
  - `!nft.price` and `!nft.currentBid` mean the amount is unset or 0 (`HasAmount`);
  - `!nft.highestBidder` means the address is unset or empty (`HasAddress`);
  - `nft.auctionEndTime && …` means the end time is set and not 0.
- **Inputs taken as parameters.** Clock readings, ids drawn from `Date.now()`, parsed numbers and the wallet's answer are all parameters.
- **Amounts.** Amounts are integers.
- **First match and all matches.**
  - `buyNFT` and `finalizeAuction` look up the first record with the id, as `find` does, and then update every record with that id, as `map` does. The model does the same.
  - `finalizeAuction` keeps that first record's owner as the owner. The code does not transfer the NFT to the highest bidder, although the ledger entry names the bidder as buyer and the page asks "transfer NFT?". The model follows the code (`NFTContextProperties.FinalizeKeepsOwner`).
- **The bid check.** The page refuses a bid only when the current bid is truthy and not exceeded. Since a current bid of 0 is falsy, that check lets equal bids through. See Findings.

## Model

| member | source | states |
|---|---|---|
| NFTContext.Apply | src/context/NFTContext.tsx:133-265 | one operation: records are only appended, by `createNFT`, and keep their ids; the ledger keeps its entries and grows by at most one, only through `buyNFT` and `finalizeAuction`; only connecting and disconnecting touch the wallet |
| NFTContext.Buy | src/context/NFTContext.tsx:174-200 | a ledger entry is added exactly when the first record with the id has a truthy price; otherwise nothing changes. The entry names the record, the wallet as buyer, the owner as seller and that non-zero price |
| NFTContext.Settle | src/context/NFTContext.tsx:233-247 | a ledger entry is added exactly when the first record with the id has a non-empty highest bidder and a truthy current bid; otherwise nothing changes. The entry names the record, the bidder as buyer, the owner as seller and that non-zero bid |
| NFTContext.IndexOfId | src/context/NFTContext.tsx:175 | the position found is the first record with the id, or there is none |
| NFTContext.RestoredWallet | src/context/NFTContext.tsx:85-88 | a session is restored exactly when the saved flag is the string "true" and a non-empty address was saved; the address restored is the saved one |
| NFTContext.Provider.constructor | src/context/NFTContext.tsx:63-66 | the provider starts with no records, no transactions and no wallet |
| NFTContext.Provider.RestoreWallet | src/context/NFTContext.tsx:85-88 | records and ledger are untouched; the wallet becomes connected with the saved address exactly when one is restored, otherwise it stays as it was |
| NFTContext.Provider.ConnectWallet | src/context/NFTContext.tsx:107-124 | the new state is `Apply` of `connectWallet` with the first account: connected with that address; unchanged when there is no provider or the request is rejected |
| NFTContext.Provider.DisconnectWallet | src/context/NFTContext.tsx:126-131 | the wallet is disconnected and its address is empty, and the new state is `Apply` of `disconnectWallet` |
| NFTContext.Provider.CreateNFT | src/context/NFTContext.tsx:133-148 | the new state is `Apply` of `createNFT` on the old one |
| NFTContext.Provider.ListNFTForSale | src/context/NFTContext.tsx:150-156 | the new state is `Apply` of `listNFTForSale` on the old one |
| NFTContext.Provider.ListNFTForAuction | src/context/NFTContext.tsx:158-172 | the new state is `Apply` of `listNFTForAuction` on the old one |
| NFTContext.Provider.BuyNFT | src/context/NFTContext.tsx:174-200 | the new state is `Apply` of `buyNFT`; the ledger keeps its old entries and grows by at most one |
| NFTContext.Provider.PlaceBid | src/context/NFTContext.tsx:202-215 | the new state is `Apply` of `placeBid` on the old one |
| NFTContext.Provider.CancelListing | src/context/NFTContext.tsx:217-223 | the new state is `Apply` of `cancelListing` on the old one |
| NFTContext.Provider.UpdateNFTPrice | src/context/NFTContext.tsx:225-231 | the new state is `Apply` of `updateNFTPrice` on the old one |
| NFTContext.Provider.FinalizeAuction | src/context/NFTContext.tsx:233-265 | the new state is `Apply` of `finalizeAuction`; the ledger keeps its old entries and grows by at most one |
| NFTContextProperties.ByIdUpdateFrame | src/context/NFTContext.tsx:150-265 | every by-id operation keeps the number of records and their ids; it leaves records with another id and the wallet unchanged, and appends at most one transaction |
| NFTContextProperties.CreateNFTAppends | src/context/NFTContext.tsx:133-148 | `createNFT` appends one record: owned by the wallet, 0 sales, the given id, token id and creation time, the configured contract address, and the caller's other fields; the ledger is unchanged |
| NFTContextProperties.ListForSaleSetsPrice | src/context/NFTContext.tsx:150-156 | every record with the id is for sale at the price and not for auction, with its other fields kept |
| NFTContextProperties.ListForAuctionOpensAuction | src/context/NFTContext.tsx:158-172 | every record with the id is up for auction and not for sale, with the starting bid as current bid, the end time, no bids and no highest bidder |
| NFTContextProperties.BuyTransfersToWallet | src/context/NFTContext.tsx:174-200 | nothing changes when the id is missing or the first match has no truthy price; otherwise one transaction is appended (buyer is the wallet, seller is the owner, price is the record's price), and every record with the id goes to the wallet, off sale, without a price, with one more sale |
| NFTContextProperties.PlaceBidAppendsBid | src/context/NFTContext.tsx:202-215 | a record with the id that is up for auction gets the bid appended, and the bid becomes its current bid and highest bidder; every other record is unchanged |
| NFTContextProperties.CancelKeepsAuctionData | src/context/NFTContext.tsx:217-223 | cancel clears both listing flags and the price, and keeps the current bid, end time, bids and highest bidder |
| NFTContextProperties.UpdatePriceChangesOnlyPrice | src/context/NFTContext.tsx:225-231 | only the price of records with the id changes |
| NFTContextProperties.FinalizeKeepsOwner | src/context/NFTContext.tsx:233-265 | nothing changes without a truthy highest bidder and current bid. Otherwise one settlement is recorded and the auction fields are cleared. The record gets one more sale and the fixed contract address. The owner stays the seller and is not the highest bidder |
| NFTContextProperties.ApplyKeepsExclusive | src/context/NFTContext.tsx:150-265 | no operation leaves a record both for sale and up for auction, when it started that way and is created unlisted |
| NFTContextProperties.ListingsStayExclusive | src/context/NFTContext.tsx:150-172 | across any sequence of operations, no record is ever both for sale and up for auction |
| NFTContextProperties.LedgerIsAppendOnly | src/context/NFTContext.tsx:147-265 | across any sequence of operations: the ledger only grows at its end, by at most one entry per buy or finalize; records are never removed or re-identified; only `createNFT` adds records |
| Collections.Filter | src/components/Auction.tsx:13 | the result holds exactly the elements that pass the test, and is no longer than the input |
| Collections.FilterDistributes | src/components/MyNFTs.tsx:30-35 | filtering a concatenation is concatenating the filtered parts: the input's order is kept |
| Collections.FilterCount | src/components/MyNFTs.tsx:30-35 | each passing element keeps its multiplicity, and each failing one is dropped |
| Collections.Reverse | src/components/Auction.tsx:200 | the result is the input read from its end |
| Addresses.ToLower | src/components/Auction.tsx:97 | the lowered address has the same length, no upper-case letter left, and at each position the same letter as before |
| Addresses.MatchesLowered | src/components/Auction.tsx:97 | lowering twice is lowering once, so every address matches its lowered form |
| Addresses.SameAddressIgnoresCase | src/components/Auction.tsx:97 | two addresses match exactly when they have the same length and each position holds the same character or the upper- and lower-case forms of one letter |
| Auction.AuctionNFTs | src/components/Auction.tsx:13 | the auction list holds exactly the records up for auction |
| Auction.AuctionNFTsKeepOrder | src/components/Auction.tsx:13 | the auction list keeps the store's order and each record's multiplicity |
| Auction.SplitMilliseconds | src/components/Auction.tsx:27-29 | hours, minutes and seconds of a positive duration are whole units, minutes and seconds below 60, and together within a second of the duration |
| Auction.FormatTimeRemaining | src/components/Auction.tsx:23-32 | "Auction Ended" exactly when the end time is not after the clock; otherwise the hours, minutes and seconds shown are within one second below the time left |
| Auction.IsOwner | src/components/Auction.tsx:97 | the wallet owns a card exactly when the owner and wallet addresses have the same length and differ at most in the case of letters |
| Auction.IsEnded | src/components/Auction.tsx:98-99 | a card without an end time, or with end time 0, is never ended; otherwise it is ended exactly when its countdown reads "Auction Ended" |
| Auction.EndedStaysEnded | src/components/Auction.tsx:98 | once ended, a card stays ended at every later clock reading |
| Auction.CardButtons | src/components/Auction.tsx:162-178 | "Place Bid" shows exactly for a non-owner before the end. "Finalize" shows exactly for the owner after the end, when there is a highest bidder. The two never show together |
| Auction.BidHistory | src/components/Auction.tsx:193-200 | the history lists every bid, newest first |
| Auction.AcceptsBid | src/components/Auction.tsx:43 | the page's check accepts exactly what the corrected check accepts, plus any amount when the current bid is 0 |
| Auction.ConfirmBid | src/components/Auction.tsx:40-52 | nothing happens without a selection or a bid text. A bid not above a truthy current bid is refused. Otherwise the bid goes to `placeBid` on the selected record's id |
| Auction.OtherActionKeepsBids | src/context/NFTContext.tsx:133-265 | every operation but `placeBid` either keeps a record's bids and current bid or leaves it without bids |
| Auction.BidKeepsAscending | src/context/NFTContext.tsx:202-215 | a bid above the last one keeps the record's bids strictly increasing, with the current bid as the last bid |
| Auction.ApplyKeepsBidsAscending | src/components/Auction.tsx:43-47 | one operation, with `placeBid` behind the page's check, keeps every record's bids strictly increasing |
| Auction.CheckedRunKeepsBidsAscending | src/components/Auction.tsx:43-47 | the same across any sequence of operations |
| Auction.BidsRiseThroughConfirmBid | src/components/Auction.tsx:43-47 | when every bid passes the page's check and no bid is 0, each record's bids strictly increase |
| Auction.ZeroBidLetsEqualBidThrough | src/components/Auction.tsx:43 | an auction starting at 0 accepts a bid of 0 and then another bid of 0, so its bids are not strictly increasing |
| Auction.BidsRiseThroughCorrectedCheck | src/components/Auction.tsx:43 | with the corrected check, each record's bids strictly increase and its current bid is the last one, for any amounts |
| PopularNFTs.RankedCons | src/components/PopularNFTs.tsx:12 | a record with at least the head's sales, put in front of a ranked list, keeps it ranked |
| PopularNFTs.InsertBySales | src/components/PopularNFTs.tsx:12 | inserting into a ranked list keeps it ranked and adds exactly the one record |
| PopularNFTs.SortBySales | src/components/PopularNFTs.tsx:11-12 | the sorted copy is ranked by non-increasing sales and is a permutation of the records |
| PopularNFTs.WithSalesCons | src/components/PopularNFTs.tsx:12 | the records with a given sales count, from a list with one record put in front |
| PopularNFTs.InsertKeepsTies | src/components/PopularNFTs.tsx:12 | an inserted record goes ahead of every record with the same sales, whose order is kept |
| PopularNFTs.SortBySalesIsStable | src/components/PopularNFTs.tsx:12 | records with equal sales keep their relative order |
| PopularNFTs.TopBySales | src/components/PopularNFTs.tsx:11-13 | the carousel holds min(10, n) records, drawn from the store, ranked by sales |
| PopularNFTs.LeftOutLiesInSuffix | src/components/PopularNFTs.tsx:13 | what the first k records leave out lies among the others |
| PopularNFTs.TopBySalesIsTopK | src/components/PopularNFTs.tsx:11-13 | no record left out of the carousel has more sales than a record shown |
| PopularNFTs.TopBySalesDominatesRest | src/components/PopularNFTs.tsx:11-13 | each stored record not shown has no more sales than any record shown |
| PopularNFTs.RendersSection | src/components/PopularNFTs.tsx:26 | the section renders exactly when there is a record |
| PopularNFTs.ShowsArrows | src/components/PopularNFTs.tsx:53 | the scroll arrows show exactly when there are more than four records |
| MyNFTs.MyNFTList | src/components/MyNFTs.tsx:30-35 | the page holds exactly the records owned by the wallet, ignoring case, that are neither for sale nor up for auction |
| MyNFTs.MyNFTListKeepsOrder | src/components/MyNFTs.tsx:30-35 | the page keeps the store's order and each kept record's multiplicity |
| MyNFTs.ListingLeavesMyNFTs | src/components/MyNFTs.tsx:30-35 | after listing an id for sale or auction, no record with that id is on the page |
| MyNFTs.CancelReturnsToMyNFTs | src/components/MyNFTs.tsx:30-35 | after cancelling a listing, every record with the id that the wallet owns is back on the page |
| MyNFTs.ConfirmAuction | src/components/MyNFTs.tsx:131-140 | an auction is listed exactly when an id, a starting price and a duration are given; it is for that id at that starting bid, ending `hours` × 3 600 000 ms after now |
| MyNFTs.EndTimeCountsDown | src/components/MyNFTs.tsx:133 | an auction of h hours shows exactly "h h 0 m 0 s" left at the moment it opens, or has ended when h ≤ 0 |
| MyNFTs.ConfirmedAuctionOpens | src/components/MyNFTs.tsx:131-140 | a confirmed dialog leaves the record up for auction and not for sale, with the starting price as current bid, no bids and the chosen duration on the clock; it is not ended when the duration is positive |
| MyNFTs.ConfirmSale | src/components/MyNFTs.tsx:47-80 | nothing happens without a selection or a price. Without MetaMask an alert stops it. If the signer request or the conversion of the price to wei fails, the catch's alert stops it. Without a contract address an alert stops it. Otherwise the page prepares the listing request, which carries the record's contract address, the price, and `tokenId` when it is set, else the id |
| MyNFTs.MintedRecordsReachListing | src/components/MyNFTs.tsx:58-80 | once the signer and the price conversion succeed, a freshly minted record with a configured contract address always reaches the listing request with its token id, or its id when the token id is empty |

## Left out

- On-chain and IPFS calls are not modelled: the ethers contract calls, MetaMask requests and mint receipts. In `confirmSale` the signer request (`provider.getSigner()`, src/components/MyNFTs.tsx:58-59) and the conversion of the price to wei (`ethers.parseEther`, src/components/MyNFTs.tsx:80) are not computed. Whether each succeeds is a parameter, and a failure leads to the catch's alert at src/components/MyNFTs.tsx:115-125. Everything from the ownership query at src/components/MyNFTs.tsx:93 on is left out. These are network calls and a library conversion through an ABI that is not part of this model. The wallet's answer to `eth_requestAccounts` is the `account` parameter.
- `connectWallet` with an empty account list is not modelled. The source then sets the connected flag and stores an undefined address (src/context/NFTContext.tsx:113-117). `None` stands only for a missing provider or a rejected request.
- localStorage persistence and JSON encoding are I/O and are left out. Only the wallet-restore test at start-up is modelled. The record list is written to storage only when it is non-empty, so emptying it does not clear the saved copy. The model has no storage, so this is not captured.
- `Date.now()` and the one-second `setInterval` clock are parameters (`now`, `currentTime`, `txId`, `newId`). Ids drawn from the clock may collide in the source, and the model allows any ids, including equal ones.
- React's closure snapshots are not modelled: `buyNFT` and `finalizeAuction` read the rendered `nfts` but update through `prev`. The model applies operations one at a time to a single state.
- Amounts are integers. Floating point, `parseFloat`, `parseInt`, NaN, `toFixed` and the suggested bid of current bid + 0.01 are left out. `ConfirmAuction` takes `hours` as the already parsed duration.
- Case-insensitive address comparison lowers ASCII letters only. JavaScript's full Unicode `toLowerCase` is not modelled, because addresses are hexadecimal.
- The countdown is modelled as hours, minutes and seconds. Rendering it as the text "Xh Ym Zs" is left out.
- `NFT_ADDRESS` comes from a constants file that is not part of this model. It is the `nftAddress` parameter, fixed per `Provider` by its constructor.
- The presentation components (Market, History, CreateModal, Community, Home, Navbar, Footer, NFTCard), animations and the carousel's scroll handler are out of scope.

## Findings

| source | as written | input that shows it | evidently intended | confidence | as-written member | corrected member |
|---|---|---|---|---|---|---|
| src/components/Auction.tsx:43 | a bid is refused only when `currentBid` is truthy and the bid does not exceed it, so a current bid of 0 refuses nothing | an auction listed with starting bid 0, then a bid of 0, then another bid of 0: both bids are accepted and the bid list [0, 0] does not increase | refuse any bid that does not exceed a set current bid, so bids strictly increase | not executed | Auction.ZeroBidLetsEqualBidThrough | Auction.BidsRiseThroughCorrectedCheck |
