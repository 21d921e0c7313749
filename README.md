# agent.os trading core in Dafny

agent.os is a marketplace where AI agents trade items. Its core is two
round-based engines and one HTTP endpoint:

- **One-to-one negotiation** (`src/engine/negotiation.ts`). A seller agent
  asks the item's current price. A buyer agent opens at a random 30%-55% of
  it. Each later round both sides concede: the ask drops and the bid rises,
  by shares that grow as the rounds run out. The ask never drops below 90%
  of the midpoint and the bid never rises above 110% of it. A round ends
  the talks when the new spread is within 8% of the item's base price, or
  when it is the last round. The deal then settles at the midpoint rounded
  to one decimal, and four settlement records are emitted: escrow, payment,
  item transfer, completion.
- **Battle royale auction** (`src/engine/battle-royale.ts`). Several
  buyers bid on one item over up to five rounds:
  - Round 0: every active buyer places an opening bid.
  - Middle rounds: each active buyer either raises or drops out. It drops
    out when its proposal exceeds its budget or its balance.
  - Early win: in a middle round, the auction ends when at most one buyer
    still stands and the highest standing new bid is positive.
  - Last round: every remaining buyer places a final bid. The highest
    standing bid wins, and on a tie the earliest such bid wins.
  - Elimination is permanent: an eliminated buyer never bids again.
  - When no buyer is active, the auction is cancelled.
- **Negotiation endpoint** (`src/app/api/negotiate/route.ts`). A stateless
  copy of the negotiation rule behind `POST /api/negotiate`, guarded by a
  required-field check.

Each round is a deterministic function of the session snapshot, the agents'
traits, the item's prices and a few uniform random draws. The model makes
those draws explicit parameters. Prices are `real`. JavaScript's
`Math.round(x * 10) / 10` is `Domain.Round1`. The engines return partial
session updates (`Partial<Session>`). The driver merges them into its
session, and the model writes that merge as `Apply`. The driver loops
themselves are `Negotiation.RunNegotiation` and
`BattleArena.RunBattle`.

Files:

- `domain.dfy` holds agents, items, the two-number max and min, and the
  one-decimal rounding.
- `settlement.dfy` holds the settlement records and the shape of a
  successful sale.
- `negotiation.dfy` holds the negotiation engine and its properties.
- `battle_royale.dfy` holds the auction round as a function
  (`BattleRound`). It also holds the source's `forEach` loops as a method
  with `while` loops (`ProcessBattleRound`), proved equal to that function.
- `battle_royale_properties.dfy` holds what the auction promises within
  one round and across rounds.
- `battle_arena.dfy` holds the auction driver of
  `src/components/BattleArena.tsx` (`RunBattle`) and its termination.
- `negotiate_route.dfy` holds the endpoint.

What the proofs establish, in brief:

- **Negotiation.** The last round always ends in a deal. A rejection
  requires a negative base price, so it never happens when the base price
  is at least 0: the 8% test that opens the decision can never pass while
  the 30% acceptance test fails. A deal's four records carry the deal price
  on consecutive blocks. A fresh session reaches `deal_reached` or
  `deal_failed` within 8 driver calls.
- **Auction.** The round splits into cases, and each case is characterised
  exactly. Elimination stays permanent across the whole bid list. With
  distinct buyer ids, each round bids at most once per buyer. A fresh
  auction ends, completed or cancelled, within 5 driver calls.
- **Auction's missing highest bid.** The source computes the current
  highest bid as `Math.max` over the standing bids. With bids present but
  none standing, that is `-Infinity`. Every round keeps `RoundDefined`,
  which rules this case out: a round in which every active buyer drops out
  is always followed by a cancellation. So the case never arises on any run
  that starts from a fresh session.
- **Endpoint.** From round 1 on, it gives the same outcome as the engine
  on the same inputs. Round 0 differs: the engine only opens the talks
  there, while the endpoint has no round-0 case, so it concedes at once
  and can already report a deal. The endpoint rejects a request with a
  missing name before computing anything.

The last round always accepts: the acceptance test of
`src/engine/negotiation.ts:197` also passes on the last round, so a
rejection can only happen in an earlier round.
`Negotiation.ForcedFinalRoundDeals` states it.

## Model

| member | source | states |
|---|---|---|
| `Domain.Round1` | src/engine/battle-royale.ts:123 | `Math.round(x * 10) / 10` lands within (-0.05, +0.05] of x and has at most one decimal place |
| `Settlement.SuccessChain` | src/engine/negotiation.ts:243-303 | the four sale records move the money from the buyer to the escrow and from the escrow to the seller, the item from the seller to the buyer, and report completion from the protocol to the marketplace; they have the success-chain shape and start at the drawn base block |
| `Settlement.CancelRecord` | src/engine/negotiation.ts:351-364 | a failed negotiation's record is a confirmed deal_cancelled of amount 0 from the protocol to the marketplace, tagged with the session, the item and the drawn block |
| `Settlement.SuccessChainShape` | src/engine/negotiation.ts:243-303 | a sale emits exactly escrow, payment, transfer, completion, in that order; blocks are consecutive; amounts are price, price, 0, price; every record is confirmed and tagged with the session and item |
| `Negotiation.CreateNegotiationSession` | src/engine/negotiation.ts:94-112 | a new session is waiting in round 0 of 8; the ask is the item's current price; for a draw in [0, 1) the bid is 30%-55% of that price and below the ask |
| `Negotiation.Concession` | src/engine/negotiation.ts:182-190 | the new ask is at least 90% and the new bid at most 110% of the old midpoint |
| `Negotiation.ConcessionNarrows` | src/engine/negotiation.ts:183-190 | for 0 <= bid <= ask and draws in [0, 1), the ask does not rise and the bid does not fall, within those limits |
| `Negotiation.ProcessNegotiationRound` | src/engine/negotiation.ts:120-470 | the round counter advances by one; a deal emits exactly 4 records and sets a final price; a failure emits exactly 1 record; no other outcome sets a final price (which outcome a round takes is `Negotiation.DealTest`) |
| `Negotiation.OpeningRound` | src/engine/negotiation.ts:139-180 | round 0 only sets status negotiating and round 1, emits no record, and leaves the prices alone |
| `Negotiation.ForcedFinalRoundDeals` | src/engine/negotiation.ts:196-199 | a round at or past maxRounds - 1 always reaches a deal |
| `Negotiation.DealTest` | src/engine/negotiation.ts:192-197 | from round 1 on, both ways: a deal exactly on the last round or when the new spread is within both 8% and 30% of the base price; no decision exactly when it is not the last round and the new spread exceeds 8% of the base price |
| `Negotiation.FailureNeedsNegativeBase` | src/engine/negotiation.ts:192-197 | the round fails exactly when it is not the last one and the new spread lies in (30%, 8%] of the base price; so it never fails when basePrice >= 0 |
| `Negotiation.DealSettlement` | src/engine/negotiation.ts:199-316 | a deal stores the new offers and the final price; the final price is the midpoint rounded to one decimal and lies within 0.05 of the two offers; the four records run from buyer to escrow to seller and back to the buyer |
| `Negotiation.FailureSettlement` | src/engine/negotiation.ts:351-376 | a failure emits one cancellation record of amount 0 for this session and item, and sets no final price |
| `Negotiation.ContinuingRound` | src/engine/negotiation.ts:461-469 | an undecided round emits nothing, leaves the status alone, and stores the new offers; the spread was above 8% of the base price and it was not the last round (the converse is `Negotiation.DealTest`) |
| `Negotiation.GoldenRoundOne` | src/engine/negotiation.ts:183-190 | at price 100 with every draw at mid-range, the bid opens at 42.5 and round 1 of 8 moves the offers to 96.25 and 44.625 |
| `Negotiation.Apply` | src/app/page.tsx:458-461 | merging a partial update keeps the id and maxRounds, takes the new round, and changes the status only when the update sets one |
| `Negotiation.RunNegotiation` | src/app/page.tsx:292-474 | each driver call moves the round by one; a decided session is left as it is; a session still undecided after the draws has used all of them; id and maxRounds never change |
| `Negotiation.RunReachesTerminal` | src/engine/negotiation.ts:196-199 | from round r < maxRounds (maxRounds >= 2), maxRounds - r driver calls reach deal_reached or deal_failed, and the round never passes maxRounds |
| `Negotiation.FreshSessionTerminates` | src/engine/negotiation.ts:106-107 | a fresh session ends within 8 driver calls |
| `BattleRoyale.CreateBattleSession` | src/engine/battle-royale.ts:48-64 | a new auction is waiting in round 0 of 5, with no bids and no winner; its buyer ids follow the buyers in order |
| `BattleRoyale.EliminatedIds` | src/engine/battle-royale.ts:85-87 | an id is in the set exactly when some bid in the list is an eliminated bid of that buyer |
| `BattleRoyale.ActiveBuyers` | src/engine/battle-royale.ts:85-88 | a buyer is active exactly when it is one of the buyers and has no eliminated bid; the active buyers keep the order in which the buyers were given |
| `BattleRoyale.Standing` | src/engine/battle-royale.ts:105 | the standing bids are exactly the bids that are not eliminated, in list order |
| `BattleRoyale.MaxStanding` | src/engine/battle-royale.ts:104-106 | the current highest is an upper bound of every standing bid and is the amount of one of them |
| `BattleRoyale.CurrentHighest` | src/engine/battle-royale.ts:104-106 | before any bid the reference price is 40% of the item price; afterwards it is at least every standing amount and equal to one of them |
| `BattleRoyale.LastBid` | src/engine/battle-royale.ts:150-151 | a buyer with no standing bid gets the fallback; otherwise the amount of its last standing bid |
| `BattleRoyale.LastStanding` | src/engine/battle-royale.ts:150-151 | a buyer's last bid is the amount of its last standing bid; it is absent exactly when the buyer has no standing bid |
| `BattleRoyale.OpeningBid` | src/engine/battle-royale.ts:111-129 | an opening bid is the buyer's, in round 0, standing, with one decimal, within 0.05 of the opening amount |
| `BattleRoyale.MidBid` | src/engine/battle-royale.ts:257-305 | a middle bid is the buyer's, in this round; it drops out exactly when the proposal exceeds budget or balance, and then keeps the last bid; otherwise it is the proposal, within budget and balance |
| `BattleRoyale.FinalBid` | src/engine/battle-royale.ts:150-169 | a final bid is the buyer's, in this round, standing, with one decimal, within 0.05 of the final amount of its last bid (the current highest if it has none) |
| `BattleRoyale.HighestOrZero` | src/engine/battle-royale.ts:309 | the highest standing new amount, or 0: never negative, at least every standing amount, and when positive the amount of a standing bid |
| `BattleRoyale.FirstMax` | src/engine/battle-royale.ts:173-175 | the first element of a stable descending sort is a bid of maximal amount, and every bid before it is strictly lower |
| `BattleRoyale.FirstStanding` | src/engine/battle-royale.ts:313 | `find` returns the first bid that is not eliminated |
| `BattleRoyale.Completion` | src/engine/battle-royale.ts:178-250 | a completed auction appends the new bids, records the winner and price, and emits the four-record sale chain from the winner |
| `BattleRoyale.BattleRound` | src/engine/battle-royale.ts:73-400 | the round counter advances by one; bids are only ever appended; no more new bids than buyers (which buyer each new bid belongs to is `NewBidsFollowActive`); records are emitted exactly when the auction completes, and then a winner and price are set |
| `BattleRoyale.OpeningPass` | src/engine/battle-royale.ts:110-130 | the opening loop pushes each active buyer's opening bid, in order |
| `BattleRoyale.FinalPass` | src/engine/battle-royale.ts:149-170 | the final loop pushes each active buyer's final bid, in order |
| `BattleRoyale.MidPass` | src/engine/battle-royale.ts:255-306 | the middle loop pushes each active buyer's raise or drop-out, and lists exactly as many eliminated ids as eliminations |
| `BattleRoyale.ProcessBattleRound` | src/engine/battle-royale.ts:73-400 | the imperative round returns exactly what `BattleRound` specifies |
| `BattleRoyale.Apply` | src/components/BattleArena.tsx:95-99 | merging a partial update keeps the id and maxRounds, takes the new round, and replaces the status and bid list only when the update sets them |
| `BattleRoyaleProperties.ActiveBuyersDistinct` | src/engine/battle-royale.ts:88 | filtering buyers with distinct ids keeps the ids distinct |
| `BattleRoyaleProperties.ActiveBuyersCount` | src/engine/battle-royale.ts:88 | the active filter keeps every copy of a buyer whose id is not eliminated and no copy of one whose id is, so with membership and order it fixes the result exactly |
| `BattleRoyaleProperties.StandingCount` | src/engine/battle-royale.ts:105 | the standing filter keeps every copy of a standing bid and no copy of an eliminated one |
| `BattleRoyaleProperties.EliminatedPlusStanding` | src/engine/battle-royale.ts:255-308 | the count of eliminated bids plus the number of standing bids is the length of the list; with one new bid per active buyer, the count subtracted at line 308 leaves the number of standing new bids |
| `BattleRoyaleProperties.NewBidsFollowActive` | src/engine/battle-royale.ts:110-305 | a round's new bids are one per active buyer, in order, with that buyer's id and name and the current round |
| `BattleRoyaleProperties.EliminatedNeverBidAgain` | src/engine/battle-royale.ts:85-88 | a buyer with an eliminated bid receives no new bid |
| `BattleRoyaleProperties.CancelledIffNoActive` | src/engine/battle-royale.ts:90-101 | the auction is cancelled exactly when no buyer is active, and then nothing is bid, stored or emitted |
| `BattleRoyaleProperties.OpeningRound` | src/engine/battle-royale.ts:108-143 | round 0 moves to bidding in round 1, emits nothing, and gives each active buyer one standing round-0 bid: its opening amount rounded to one decimal |
| `BattleRoyaleProperties.OpeningAmountRange` | src/engine/battle-royale.ts:111-113 | for a draw in [0, 1) and aggressiveness 0-10, an opening amount is 28%-72% of the item price |
| `BattleRoyaleProperties.OpeningAmountMonotone` | src/engine/battle-royale.ts:111-113 | with equal price and draw, more aggressiveness never lowers the opening amount |
| `BattleRoyaleProperties.OpeningBidMonotone` | src/engine/battle-royale.ts:111-123 | with equal draw, a more aggressive buyer never opens lower, even after rounding |
| `BattleRoyaleProperties.OpeningExample` | src/engine/battle-royale.ts:111-123 | at price 100 with mid-range draws, aggressiveness 9, 5 and 2 open at 55.1, 47.5 and 41.8 |
| `BattleRoyaleProperties.MaxBudgetRange` | src/engine/battle-royale.ts:262-263 | with traits on the 0-10 scale, a buyer's middle-round budget is 80%-140% of a non-negative item price |
| `BattleRoyaleProperties.ProposedRange` | src/engine/battle-royale.ts:265-267 | a proposal is the higher of the last bid and the current highest, raised by 3%-15% of a non-negative current highest, within 0.05 for the rounding, with one decimal |
| `BattleRoyaleProperties.MidRoundBids` | src/engine/battle-royale.ts:257-305 | in a middle round a buyer drops out exactly when its proposal exceeds its budget or its balance, and keeps its last bid as the amount; otherwise it bids the proposal, within both budget and balance |
| `BattleRoyaleProperties.LastBuyerStanding` | src/engine/battle-royale.ts:308-388 | a middle round completes exactly when at most one new bid stands and the highest is positive; the winner is then the only standing new bid |
| `BattleRoyaleProperties.AllEliminatedThenCancel` | src/engine/battle-royale.ts:308-312 | when every active buyer drops out, the round leaves the status alone and the next call cancels |
| `BattleRoyaleProperties.FinalRoundWinner` | src/engine/battle-royale.ts:147-175 | the last round completes; every new bid stands at the final amount rounded; the winning price is at least every standing bid, old or new; the winner holds the first such maximum |
| `BattleRoyaleProperties.FinalAmountRaises` | src/engine/battle-royale.ts:152-153 | a final bid raises a non-negative last bid by 5%-20% before rounding |
| `BattleRoyaleProperties.RoundDefinedPreserved` | src/engine/battle-royale.ts:103-106 | every round keeps the highest-bid reading defined for the next call |
| `BattleRoyaleProperties.StickyPreserved` | src/engine/battle-royale.ts:85-88 | with distinct buyer ids, a round bids at most once per buyer, and elimination stays permanent across the whole bid list |
| `BattleArena.RunBattle` | src/components/BattleArena.tsx:79-118 | each driver call moves the round by one and only appends bids; a closed auction is left as it is; an auction still open after the draws has used all of them; id and maxRounds never change |
| `BattleArena.RunBattleReachesTerminal` | src/engine/battle-royale.ts:146-147 | from round r < maxRounds (maxRounds >= 2), maxRounds - r driver calls complete or cancel the auction, and the round never passes maxRounds |
| `BattleArena.FreshBattleTerminates` | src/engine/battle-royale.ts:61 | a fresh auction ends within 5 driver calls |
| `NegotiateRoute.ProcessNegotiation` | src/app/api/negotiate/route.ts:90-185 | a response never reports both a deal and a failure; a final price is present exactly on a deal, and is the one-decimal midpoint of the reported offers (which outcome a round takes is `NegotiateRoute.DealTest`) |
| `NegotiateRoute.Post` | src/app/api/negotiate/route.ts:187-209 | an unparseable body gives 500; a falsy seller, buyer or item name gives 400 with the missing-fields message; no other typed request gives either |
| `NegotiateRoute.AcceptedRequest` | src/app/api/negotiate/route.ts:199-201 | a request with all three names gets 200 and the round's result |
| `NegotiateRoute.RouteOffers` | src/app/api/negotiate/route.ts:101-113 | the new ask is at least 90% and the new bid at most 110% of the incoming midpoint |
| `NegotiateRoute.RouteOffersAreEngineOffers` | src/app/api/negotiate/route.ts:101-113 | the endpoint's concession step equals the engine's |
| `NegotiateRoute.OffersReported` | src/app/api/negotiate/route.ts:112-179 | on every round, round 0 and negative rounds included: deal and failure answers report exactly the `RouteOffers` ask and bid, within 90%/110% of the midpoint; other answers report exactly their `Round1`, one decimal and within 0.05 of those bounds |
| `NegotiateRoute.ForcedFinalRoundDeals` | src/app/api/negotiate/route.ts:119-136 | the last round always answers a deal, with an excited seller and a happy buyer |
| `NegotiateRoute.DealTest` | src/app/api/negotiate/route.ts:115-120 | on every round, both ways: a deal exactly on the last round or when the new spread is within both 8% and 30% of the base price; neither outcome exactly when it is not the last round and the new spread exceeds 8% of the base price |
| `NegotiateRoute.NeverFailsWithNonNegativeBase` | src/app/api/negotiate/route.ts:116-151 | the endpoint reports a failure exactly when it is not the last round and the spread lies in (30%, 8%] of the base price; so never when basePrice >= 0 |
| `NegotiateRoute.MoodsFollowOutcome` | src/app/api/negotiate/route.ts:131-181 | a deal gives an excited seller and a happy buyer; a failure gives a disappointed seller and an angry buyer; otherwise both are angry exactly on a high incoming spread, and thinking otherwise |
| `NegotiateRoute.IsHighSpread` | src/app/api/negotiate/route.ts:155 | the spread is high exactly when the bid is below 65% of a positive ask, above 65% of a negative ask, or negative against a zero ask |
| `NegotiateRoute.AgreesWithEngine` | src/app/api/negotiate/route.ts:106-121 | from round 1 on, the endpoint and the engine give the same deal and failure outcome and final price; the same offers on a decision; the engine's offers rounded otherwise |

## Left out

- Chat messages, message templates and the random template picks. They are presentation only. So is the engine's message mood, and so is the auction's `systemMessage`.
- Record ids, transaction hashes, timestamps, gas figures, `startedAt` and `completedAt`: they are random or clock values with no bearing on the outcome. The randomly drawn base block number is a parameter.
- `Math.random`: each draw is an explicit parameter. The order in which the source interleaves concession draws with template picks is not modelled.
- Floating point: prices are exact reals. Rounding near a half and overflow behave as in exact arithmetic, not as IEEE doubles.
- `maxRounds == 0`: the source divides by it (Infinity or NaN). `Negotiation.ProcessNegotiationRound`, `NegotiateRoute.ProcessNegotiation` and `NegotiateRoute.Post` require it to be non-zero on the paths that divide. The auction round never divides by it.
- `BattleRoyale.BattleRound`: with bids present but none standing, the source computes a highest bid of `-Infinity`. The model requires `RoundDefined` instead, and `RoundDefinedPreserved` proves that every round keeps it.
- `NegotiateRoute.ProcessNegotiation`: round and maxRounds are JavaScript numbers; the model takes them as integers. NaN and non-numeric JSON fields are not modelled. A zero ask's spread test follows JavaScript's signed-infinity division.
- `NegotiateRoute.Post`: a parsed body whose `currentBidPrice` is missing or a string makes `currentBidPrice.toFixed(1)` throw on a regular round (route.ts:164), and the source then answers 500. The typed request cannot express such a body, so the model's 500 covers only the unparseable body.
- The request fields `sellerId`, `buyerId`, the personalities, the rarity and the history feed only the messages, so they are not modelled.
- The endpoint's `GET` returns static JSON and is not modelled.
- The UI components that drive the engines are not part of this model. Their loops appear only as `RunNegotiation` and `RunBattle`, which take one draw record per call and pass the same agents and item each time.
