# Auction simulator (observer pattern) — Dafny model

This project models the auction engine of `Lab6CodeWithExample/auction_simulator.py`:

- an **Auctioneer** keeps the highest bid, the bidder holding it and an ordered
  registry of bidder callbacks. `accept_bid` takes a bid only when it is strictly
  higher than the current one and then notifies every registered bidder except
  the one leading at the moment it is reached;
- a **Bidder**, when called, computes a candidate (its increase factor times the
  current highest bid), always subtracts it from its budget, and submits it only
  when it does not lead, the candidate fits in the already-reduced budget, and a
  random draw is below its bid probability;
- an **Auction** seeds the highest bid with the opening price (through the
  property setter, so nobody is notified), calls each listed bidder once in
  order, and reports the winner and a summary `name -> recorded bid` of the
  bidders whose recorded bid is positive.

Everything lives in module `Simulator` (`auction_simulator.dfy`). The classes
`Auctioneer`, `Bidder` and `Auction` keep the source's fields and update them in
place; bidders are compared by object identity, as the source does (there is no
`__eq__`). Amounts are `real`. `random.random()` is the injected oracle
`Random`: the n-th number drawn is `source(n)`, and a number is drawn only when
the first two tests of the decision pass, as Python's short-circuit `and` does.

The driver never registers its bidders with its auctioneer (lines 125-126), so
during `simulate_auction` the notification loop runs over an empty registry and
an accepted bid triggers no further calls. `Auction.Valid()` states this, and
`SimulateAuction` is proved equal to the value-level function `Run`: every
listed bidder answers once, in order, each answer being one `Respond`.
`Auction.__init__` (lines 119-126) never calls `register_bidder`, so within
`simulate_auction` no accepted bid notifies anyone; the model follows the code
here. The general cascade, which arises when a caller registers bidders on an
`Auctioneer` itself, is modelled by the mutually recursive methods `AcceptBid`,
`NotifyBidders`, `NotifyEntry` and `Bidder.Call`, with a `fuel` bound on its
depth.

Two behaviours of the code that the model keeps and proves:
`reset_auctioneer` leaves the leader in place, and a bidder records its
candidate before the auctioneer decides, so with an increase factor of at most 1
the summary can list an amount the auctioneer refused (`RecordedBidMayBeRefused`).

## Model

| member | source | states |
|---|---|---|
| Simulator.Random.Next | Lab6CodeWithExample/auction_simulator.py:91 | a draw returns the next number of the injected stream and advances it by one |
| Simulator.Respond | Lab6CodeWithExample/auction_simulator.py:88-104 | one bidder call: the budget drops by the candidate whether or not it bids; a number is drawn exactly when it does not lead and the candidate fits the reduced budget; its recorded bid becomes the candidate exactly when it submits; the auctioneer changes only by taking a strictly higher bid from it; a leader changes nothing |
| Simulator.Bidder.constructor | Lab6CodeWithExample/auction_simulator.py:81-86 | fields take the arguments (defaults 100, 0.35, 1.1) and the recorded bid starts at 0 |
| Simulator.Bidder.Call | Lab6CodeWithExample/auction_simulator.py:88-104 | keeps the registry, never lowers the highest bid, changes the leader only with a strictly higher bid; when no bid is accepted the bidder's fields and the draw count are those of one `Respond` and no other registered bidder is touched; when the cascade cannot reach the bidder again its fields are those of `Respond`; with an empty registry the whole call is one `Respond` |
| Simulator.Auctioneer.constructor | Lab6CodeWithExample/auction_simulator.py:15-19 | empty registry, highest bid 0, no leader |
| Simulator.Auctioneer.SetHighestBid | Lab6CodeWithExample/auction_simulator.py:25-27 | sets the highest bid; registry and leader are unchanged and nobody is notified |
| Simulator.Auctioneer.RegisterBidder | Lab6CodeWithExample/auction_simulator.py:33-38 | appends the bidder at the end; earlier entries and their order are kept, duplicates allowed; highest bid and leader are unchanged |
| Simulator.Auctioneer.ResetAuctioneer | Lab6CodeWithExample/auction_simulator.py:40-46 | empties the registry and zeroes the highest bid; the leader is left unchanged |
| Simulator.Auctioneer.NotifyBidders | Lab6CodeWithExample/auction_simulator.py:48-62 | keeps the registry, never lowers the highest bid, changes the leader only with a strictly higher bid; a pass in which every entry is the current leader calls nobody and changes nothing; a pass that accepts no bid never touches the leader, and calls exactly the non-leading entries in list order, the result being `Run` of `Skip` of the registry |
| Simulator.Auctioneer.NotifyEntry | Lab6CodeWithExample/auction_simulator.py:61-62 | one iteration of the loop: the leader is skipped and nothing changes; when no bid is accepted, a non-leader's call is exactly one `Step` and the leader is untouched |
| Simulator.Auctioneer.AcceptBid | Lab6CodeWithExample/auction_simulator.py:64-76 | a bid not strictly above the highest is a silent no-op; an accepted bid stands (bid and leader) unless the cascade outbids it; with nobody registered the bid and leader are set to exactly the given ones and no number is drawn; the highest bid never decreases, and if it ends where it started nothing has changed |
| Simulator.Step | Lab6CodeWithExample/auction_simulator.py:138-139 | one answer of a listed bidder keeps the set of tracked bidders |
| Simulator.Run | Lab6CodeWithExample/auction_simulator.py:138-139 | a pass over the list keeps the set of tracked bidders |
| Simulator.Skip | Lab6CodeWithExample/auction_simulator.py:58-62 | the entries a notification pass calls while the leader keeps the lead: every one is a registry entry other than the leader, every non-leading entry is among them, and there are no more of them than entries |
| Simulator.RunSkipSnoc | Lab6CodeWithExample/auction_simulator.py:58-62 | extending the notification loop by one entry adds one `Step` for a non-leader and nothing for the leader |
| Simulator.RunMonotone | Lab6CodeWithExample/auction_simulator.py:73-75 | over a pass the highest bid never decreases, and if it ends where it started the leader is the same |
| Simulator.RunWinnerListed | Lab6CodeWithExample/auction_simulator.py:138-140 | the winner after a pass is the leader before it or one of the listed bidders |
| Simulator.RunNoWinner | Lab6CodeWithExample/auction_simulator.py:135-141 | there is no winner after a pass iff there was no leader before it and no bid was accepted during it |
| Simulator.RunUntouched | Lab6CodeWithExample/auction_simulator.py:138-139 | a bidder that is not in the list keeps its budget and recorded bid |
| Simulator.RunWinnerBid | Lab6CodeWithExample/auction_simulator.py:91-104 | a pass that changes the floor leaves its winner with the final highest bid as its recorded bid |
| Simulator.RunBudgetsFall | Lab6CodeWithExample/auction_simulator.py:89-90 | with a non-negative opening price and non-negative factors no budget grows over a pass |
| Simulator.RecordedBidMayBeRefused | Lab6CodeWithExample/auction_simulator.py:91-93 | a submitting bidder with factor at most 1 records a positive bid that the auctioneer refuses |
| Simulator.Summary | Lab6CodeWithExample/auction_simulator.py:147 | a name is in the summary iff some listed bidder with that name has a positive recorded bid |
| Simulator.SummaryLastWins | Lab6CodeWithExample/auction_simulator.py:147 | the amount shown for a name is that of the last listed bidder with that name and a positive bid |
| Simulator.Auction.constructor | Lab6CodeWithExample/auction_simulator.py:119-126 | keeps the given list and builds a fresh auctioneer that has no registered bidders |
| Simulator.Auction.SimulateAuction | Lab6CodeWithExample/auction_simulator.py:128-149 | the registry stays empty; the new purses, highest bid, leader and draw count are `Run` of the list from the opening price and the previous leader; the winner is the leader and the summary is `Summary` of the list |
| Simulator.SingleBidderRun | Lab6CodeWithExample/auction_simulator.py:128-149 | one bidder (1000, probability 1, factor 1.5) at opening price 100 wins with 150, budget 850, summary {A: 150} |
| Simulator.TwoBidderRun | Lab6CodeWithExample/auction_simulator.py:128-149 | A (50, factor 1.2) cannot afford 120 and ends at budget -70; B (1000, factor 1.1) wins with 110; summary {B: 110} |
| Simulator.NoBidderRun | Lab6CodeWithExample/auction_simulator.py:128-149 | with no bidders there is no winner and the summary is empty |

## Left out

- `main()` (lines 152-200): console prompts, parsing of typed numbers and the hard-coded bidders.
- All printing (lines 96-102, 136, 141-144, 148-149) and `__str__`/`__repr__` (lines 106-110); `SimulateAuction` returns the winner and the summary instead of printing them, and its `item` argument is only announced.
- The imports of `names` and `self` (lines 5-6), which the core does not use.
- The distribution of `random.random()`: draws come from an arbitrary injected stream; the model does not require them to lie in [0, 1).
- Floating-point rounding of the candidate and of the budget subtraction: amounts are exact `real` numbers.
- Simulator.Auctioneer.AcceptBid: a cascade deeper than `fuel` nested notification passes is cut (the last accepted bid is recorded, nobody is notified), because the code gives no termination guarantee; its contract states monotonicity and the no-op case rather than the exact outcome of a cascade.
- Simulator.Auctioneer.NotifyBidders: for a pass in which some bid is accepted, the order and set of bidders called (including the nested passes) are not stated in the contract, only what the pass preserves; a pass that accepts no bid is stated exactly.
- Simulator.Bidder.Call and Simulator.Auctioneer.AcceptBid: the callbacks in the registry are always `Bidder` objects; the source accepts any callable taking the auctioneer (lines 36 and 70-71), and other callables are not modelled.
- Simulator.Auction.constructor: the auction keeps its own reference to the caller's list (line 125); a later change to that list by the caller would show in the auction, which the model, holding an immutable sequence, does not capture.
- Simulator.Bidder.Call: when the bidder is itself registered with the auctioneer, the contract does not state its final budget, since the cascade may call it again.
