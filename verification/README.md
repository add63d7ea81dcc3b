# perpdex-l1: the account ledger, public pools, perp fills and the oracle sidecar

A Dafny model of the core of perpdex-l1, a Cosmos SDK chain for perpetual
futures, with proofs about every run of it.

* **The ledger** (`Store`, `Funding`, `Trades`, `Messages`). The stores of
  x/account and x/asset together with the module's bank coins form one value,
  `State`. Each message is a transition on it (`Exec...`), and so are the entry
  points other modules drive: spot locks and moves, funding settlement, and the
  whole perp trade engine of x/trade (`ApplyMatch`). `Deliver` runs one message,
  dropping its writes when it fails, and `Run` a sequence of them. The engine is
  an attempt that says where it stopped: matching runs it on a branch and drops
  a failed one (`PerpFill`), while market expiry, auto-deleveraging and the
  insurance fund's takeovers run it on the stores themselves and only log its
  error, so that what it wrote stays (`CloseOut`).
* **The objects** (`Keeper`, `Engine`). The class `Keeper` holds the stores as
  fields and does what the Go keepers do, write by write in their order; `Engine`
  runs a fill on it, and `App` routes messages and walks an expiring market. Each
  method is proved to perform the corresponding transition, the engine's also up
  to the point where it fails.
* **The invariant** (`Invariants`, `Preservation`, `Delivery`, `Genesis`,
  `Reachable`). `Core` says that pool shares add up, that the owner and
  sub-account indices agree with the account table, that locks are covered, that
  an unfrozen pool's operator keeps its floor, that closed positions carry no
  entry quote and that assets do not share denoms or names. Every message and
  every fill keeps it, a close-out that fails half way included, so it holds in
  every reachable state; export followed by import restores every reachable state.
* **The books** (`Flows`, `Delivery`, `Reachable`). `Gap` is what the module owes
  in an asset beyond its coins. Every message moves it by an exactly known amount,
  which gives solvency where it holds, its exact condition where fills can break
  it, and a zero-sum law for trading as a whole. A market's longs and shorts differ
  by exactly what torn close-outs left unpaired.
* **The journal** (`Journal`, `FillLaws`). Every message has a journal of postings,
  written in the message's own numbers; every balance of every account, and every
  coin, moves by exactly the journal, and a fill that fails has posted the first
  part of its own.
* **Prices and gates** (`PoolTerms`, `Gates`). Every quotient a message computes is
  pinned by its two bounds from the stores and the message alone, and each message
  has the exact condition under which it is accepted.
* **Expiry** (`Exit`, `Instances`). The walk that closes a market against the
  insurance fund, and concrete runs from boot on which two properties fail.
* **Frames and ownership** (`Frames`, `Ownership`). Which accounts a message may
  touch; over any run in which its owner sends nothing and nothing of its own is
  settled, what an account holds never falls.
* **Public pools** (`Pools`, `PoolRuns`, `CostBasis`). Share quotations, the
  operator fee and payouts, with truncation written out. The main result: over
  any run in which the pool's own trading does not lose, the value of a share
  never falls.
* **Spot balances** (`Spot`). Conservation and locks.
* **Position math** (`Positions`). One fill, and sequences of fills on one position.
* **The oracle** (`Median`, `Oracle`). The in-place median, the aggregation and
  the orchestrator, under every map iteration order and every interleaving of
  ingestion and ticks.

What the code asks of other modules (PnL, available collateral, health and risk
verdicts, market parameters, funding prefix sums, block time, the bank's answers)
is an arbitrary `Env` value that accompanies each message, so the theorems hold
whatever those answers are.

## Where the code and its documentation differ

The model follows the code.

* `ApplyFill` documents its realised amount as a profit, but the amount it
  computes has the opposite sign, and x/trade adds it to collateral. A fee-free
  fill therefore need not preserve an account's value at the fill price
  (`CrossFillCanMoveValue` is an instance, `CrossFillPreservesValueIff` the exact
  condition), and it moves the module's debts in USDC against its coins
  (`LeakFromBoot` is a run from boot, `FillLeaksNothingIff` the exact condition
  for one fill, `BooksAlwaysBalance` and `SolventIffNothingLeaked` the exact law
  for a run).
* A fill is described as one step for both sides
  (x/trade/keeper/perp/engine.go:87-99). Matching makes it one by running it on a
  branch (x/matching/keeper/match_core.go:208-220). Expiry
  (x/liquidation/keeper/exit.go:47-64), auto-deleveraging
  (x/liquidation/keeper/adl.go:219-233) and the insurance fund's takeover
  (x/liquidation/keeper/llp.go:79-102) do not: they pass over a failed fill and keep
  its writes. When the maker's new position is within bounds and the taker's is
  not, the maker stays closed with no counterpart (`OrphanFromBoot` is a run from
  boot, `CloseOutOrphansIff` the exact condition for one close-out, `LongsMatchShorts`
  for a run); when a later step fails, part of the amounts is not routed
  (`OnlyTornFillsStray`, `GapIsInOpenPositions`).
* `TransferAccountAssetBalance` is described as an atomic move. With equal source
  and destination its second write overwrites the first and the balance grows
  (`SelfTransferInstance` is an instance, `TransferConservesIff` the exact
  condition). Matching never fills an account against itself
  (x/matching/keeper/match_core.go:75); `NoSelfMoves` states that of a run where
  a result needs it.
* `CreatePublicPool` is described as giving the insurance-fund master an
  insurance-fund account in unified mode; the code always creates a public pool
  in simple mode.
* `SharesToUSDCValue` is described in terms of the absolute account value; the
  code quotes zero when that value is not positive.
* `ForceBurnShares` comments that governance is not the insurance fund's
  operator; `isPoolOperator` says it is.
* `StrategyTransfer` can never succeed from the default genesis, since no message
  ever funds a strategy bucket (`StrategiesNeverMove`).
* The trade engine comments that the fee recipients are disjoint from maker and
  taker; nothing enforces it, and no result here relies on it.

## Model

| member | source | states |
|---|---|---|
| Reachability.ReachableIsOk | x/account/keeper/msg_server.go:42-504 | every state reached from the default genesis by any messages, locks, spot moves, funding settlements, perp fills and close-outs that may fail half way, under any environment, satisfies the invariant |
| Reachability.ReachableSteps | x/account/keeper/msg_server.go:42-504 | reachable states are closed under every message, accepted or refused |
| Reachability.SharesAlwaysAddUp | x/account/keeper/public_pool.go:112-177 | in every reachable state a pool's total shares are the operator's plus the sum of all LP entries, none negative; entries are positive, for distinct pools, at most 16 per account |
| Reachability.FloorAlwaysHolds | x/account/keeper/public_pool.go:291-307 | in every reachable state the operator of an unfrozen pool holds its minimum share rate, also after operator mints, which are not checked |
| Reachability.BooksAlwaysBalance | x/trade/keeper/perp/engine.go:100-246 | in every reachable state, per asset, module coins at internal precision plus what fills and close-outs routed in USDC plus what spot moves from an account to itself added equal all spot balances, and for USDC all collateral and isolated margin |
| Reachability.SolventIffNothingLeaked | x/trade/keeper/perp/cross.go:31-45 | a reachable state is solvent in every asset exactly when what its fills routed and its self-moves sum to zero asset by asset |
| Reachability.AlwaysSolvent | x/account/keeper/msg_server.go:42-211 | without fills and self-moves every reachable state is exactly solvent in every asset |
| Reachability.SpotAlwaysSolvent | x/account/keeper/asset.go:62-164 | every asset but USDC is exactly solvent whatever trades |
| Reachability.GapIsInOpenPositions | x/trade/keeper/perp/engine.go:131-203 | with fills and close-outs, cross or isolated and with any fees, the USDC debts beyond the coins plus all entry quotes equal the funding paid plus what torn close-outs left unpaired or unrouted, up to one unit per position that shrank; the torn part is zero when no close-out stops between its first position write and its last credit |
| Reachability.ClosedMarketsSettle | x/trade/keeper/perp/engine.go:131-203 | once every position is closed the coins cover the USDC debts up to the funding paid, the torn part and one unit per position that shrank |
| Reachability.LongsMatchShorts | x/trade/keeper/perp/engine.go:131-152 | in every reachable state the signed size of every market is exactly what its close-outs orphaned, and longs match shorts throughout a run if and only if no close-out of positive size met a taker out of bounds after its maker was written |
| Reachability.AssetsStayDistinct | x/asset/keeper/msg_server.go:32-113 | in every reachable state no two assets share a denom or a folded display name, and only one is a margin asset |
| Reachability.IndicesAlwaysAgree | x/account/keeper/account.go:47-186 | in every reachable state both secondary indices are exactly what a scan of the table gives, index ranges are disjoint, and the next master or sub-account index handed out is unused |
| Reachability.ExportIsLossless | x/account/keeper/genesis.go:60-139 | importing the export of any reachable state into an empty store gives the state back |
| Reachability.StrategiesNeverMove | x/account/keeper/msg_server_publicpool.go:570-624 | no reachable state accepts a strategy transfer |
| Delivery.RunKeeps | x/account/keeper/msg_server.go:42-504 | the invariant survives every run of messages, fills and close-outs, half done ones included |
| Delivery.RunIsBooked | x/trade/keeper/perp/engine.go:100-246 | over any run every gap moves by exactly what leaked, the entry quotes by funding paid and the unpaired notional less what the written sides realised, up to one unit per shrinking position, and every market's signed size by exactly what was left unpaired in it |
| Delivery.DeliverKeeps | x/account/keeper/msg_server.go:42-504 | one message of any kind, accepted, refused and rolled back, or failed half way without a rollback, keeps the invariant and is booked exactly |
| Journals.DeliverPosts | x/account/keeper/msg_server.go:42-504 | every accepted message moves each book of each account (collateral, spot balance, lock, isolated margin) and each module coin by exactly its journal, which is written in the message's numbers and its reply; a fill posts its journal in order, all of it when it finishes |
| Journals.DepositPosts | x/account/keeper/msg_server.go:42-115 | the module's coins rise by the amount and the beneficiary's master gains the amount at the asset's precision, in collateral or in the spot row as the route says; nothing else moves |
| Journals.WithdrawPosts | x/account/keeper/msg_server.go:117-211 | the account loses the amount at the asset's precision from the ledger its route names, the coins fall by the amount; nothing else moves |
| Journals.TransferPosts | x/account/keeper/msg_server.go:292-369 | the source loses and the target gains exactly the amount times the asset's multiplier, in collateral for USDC and in the spot row otherwise; no other book moves |
| Journals.UpdateMarginPosts | x/account/keeper/msg_server.go:371-443 | adding raises isolated margin and lowers collateral by the amount, removing does the opposite |
| Journals.CreatePublicPoolPosts | x/account/keeper/msg_server_publicpool.go:22-99 | exactly 1000 USDC a share moves from the master's collateral to the new pool |
| Journals.MintPosts | x/account/keeper/msg_server_publicpool.go:268-362 | the deposit moves from the sender's master to the pool and nothing else moves |
| Journals.BurnPosts | x/account/keeper/msg_server_publicpool.go:522-554 | what a burn replies moves from the pool to the depositor and nothing else moves |
| Journals.MoveSpotPosts | x/account/keeper/asset.go:111-164 | the two rows of a spot move, with the lock it draws on; from an account to itself only the credit is left |
| Journals.LocksPost | x/account/keeper/asset.go:200-245 | a lock rises by the amount and falls by at most what is locked |
| Journals.MatchPosts | x/trade/keeper/perp/engine.go:100-203 | a match posts, in order and as far as it gets, the taker's amounts, the maker's, then the fees to their recipients, in collateral or isolated margin |
| FillLaws.CrossFillCharges | x/trade/keeper/perp/engine.go:154-203 | an accepted match between cross positions gives each side the notional it closes and the entry quote it releases, less its own rate of the notional rounded down; the maker also pays the liquidation fee, the treasury gets the two fees, the recipient the third and nobody else anything, whoever coincides |
| FillLaws.FillPositions | x/trade/keeper/perp/engine.go:131-152 | after an accepted match both positions are, but for their isolated margin, the fills of the settled ones at the match's size and price |
| FillLaws.FillSizes | x/trade/keeper/perp/engine.go:100-246 | a match, wherever it stops, moves the sizes of its written sides by their deltas and no other size of any account in any market |
| Delivery.FillMoves | x/trade/keeper/perp/engine.go:100-246 | a match, wherever it stops, keeps the invariant, adds to the USDC debts exactly what it routed, to the entry quotes the funding and the unpaired notional less what its written sides realise, up to one unit per shrinking side, and to its market the unpaired size; a finished one writes both sides and routes exactly what they realise |
| Delivery.RouteStep | x/trade/keeper/perp/engine.go:154-203 | routing that finishes adds exactly the realised amounts to the debts, in both margin modes, since fees only change hands; routing that fails adds exactly what it reached. Who pays which fee is CrossFillCharges |
| Delivery.IsolatedStep | x/trade/keeper/perp/isolated.go:61-125 | an isolated side adds its realised amount less its fees, and re-margining moves nothing in total unless it fails between margin and collateral |
| Delivery.ChangeBothStep | x/trade/keeper/perp/engine.go:131-152 | two position changes cancel in size and in notional; a taker that does not fit leaves the maker's change alone |
| Delivery.FillLeaksNothingIff | x/trade/keeper/perp/cross.go:31-45 | an accepted fill leaves the USDC debts unchanged exactly when the entry quote its closing sides release is the notional they close, read off the two settled positions and the match |
| Delivery.CloseOutOrphansIff | x/liquidation/keeper/exit.go:47-64 | a close-out changes its market's signed size exactly when its maker's new position is within bounds, its taker's is not and its size is positive, and then by the maker's delta |
| Delivery.OnlyTornFillsStray | x/liquidation/keeper/adl.go:219-233 | a fill that does not stop between its first position write and its last credit leaves nothing unpaired and routes exactly what it realises, even when a later check refuses it |
| Instances.LeakFromBoot | x/trade/keeper/perp/cross.go:31-45 | a run from boot, three deposits and two accepted fills, after which the debts and the coins differ by 200 units |
| Instances.OrphanFromBoot | x/liquidation/keeper/exit.go:47-64 | a run from boot that leaves two matched longs of 50 million units at a price of 10^9, one the insurance fund's; closing the other against the fund, as expiry does, empties it and fails, and the market is short by its size |
| Instances.FirstMintFromBoot | x/account/keeper/public_pool.go:239-241 | from boot a deposit of 10 USDC buys 10000 shares of the insurance fund |
| Exits.ExitFlattens | x/liquidation/keeper/exit.go:32-70 | every account the walk meets, other than the insurance fund, ends without a position in the market, whether or not its close failed |
| Exits.ExitSettlesAtMark | x/liquidation/keeper/exit.go:44-57 | a close that succeeds settles at the mark without fees: the account gets its settled entry quote less its size at the mark, the fund what its side closes, nobody else anything |
| Exits.ExitLeavesFund | x/liquidation/keeper/exit.go:19-78 | after expiry nobody but the insurance fund holds a position in the market, and the fund's size is the market's signed size before plus what the walk orphaned; a matched market whose closes all fit is closed altogether |
| Exits.ExitIsReachable | x/liquidation/keeper/exit.go:32-70 | expiry leads from reachable states to reachable states, so every result above holds after it |
| Trades.RebalanceMargins | x/trade/keeper/perp/isolated.go:142-215 | re-margining: a closed position keeps no positive margin, a flipped one is worth exactly its initial margin, a shrinking one stays above its requirement and its share of the old value and releases all it can, a growing one is topped up by exactly the added requirement less what the fill earned |
| Trades.FeeWithinImprovement | x/trade/keeper/perp/engine.go:281-309 | the liquidation fee never exceeds the improvement over the zero price, nor its rate of the notional |
| Trades.SidesPayTheirRates | x/trade/keeper/perp/engine.go:154-170 | the taker pays the taker rate and the maker the maker rate of the notional, each rounded down; a fee-free match pays none |
| Trades.ImprovementFeeIsFloor | x/trade/keeper/perp/engine.go:281-309 | the liquidation fee is its rate of the notional where the improvement allows it, otherwise the improvement to within one tick of the price, and zero without one |
| Trades.InitialMarginIsFloor | x/trade/keeper/perp/isolated.go:142-215 | the initial margin is its fraction of the marked size, rounded down |
| Funding.PaymentIsTruncated | x/funding/keeper/keeper.go:80-101 | a payment is size times the rise of the prefix sum in rate ticks, cut toward zero, so longs pay when it rises |
| Funding.SettlingOftenPaysTheSame | x/funding/keeper/keeper.go:80-101 | over any sequence of settlements a position pays its size times the total rise, within one unit a settlement |
| Funding.SettleOnce | x/funding/keeper/keeper.go:80-101 | a settlement moves the entry quote by the truncated due, remembers the prefix and changes nothing when repeated |
| Funding.SweepSettlesEach | x/account/keeper/guards.go:26-49 | the sweep settles each open position of the account as a single settlement would and leaves every other position |
| Preservation.FundingIsZeroSum | x/funding/keeper/keeper.go:80-101 | in a market whose longs match its shorts, settled last at one prefix, the payments of all positions cancel within one unit a row |
| Preservation.DepositKeeps | x/account/keeper/msg_server.go:42-115 | a deposit credits exactly the coins it takes in, at the asset's precision, and keeps the invariant, also when it creates the beneficiary's master |
| Preservation.WithdrawKeeps | x/account/keeper/msg_server.go:117-211 | a withdrawal debits exactly the coins it pays out, settles the funding of all open positions on the perps route, and keeps the invariant |
| Preservation.TransferKeeps | x/account/keeper/msg_server.go:292-369 | a transfer moves no gap, settles the funding of the source on the margin route, and keeps the invariant; how much it moves is TransferPosts |
| Preservation.UpdateMarginKeeps | x/account/keeper/msg_server.go:371-443 | moving isolated margin leaves collateral plus margin unchanged after settling the position, and keeps the invariant |
| Preservation.SettleAllStep | x/account/keeper/guards.go:26-49 | sweeping an account settles exactly its open positions: no gap and no size moves, and the entry quotes move by the sum of the payments |
| Preservation.SettlePositionStep | x/funding/keeper/keeper.go:80-101 | one settlement moves the entry quote by its payment and nothing else |
| Preservation.MoveSpotMoves | x/account/keeper/asset.go:111-164 | a spot move keeps the invariant, moves no gap between distinct accounts and the moved amount from an account to itself, in both drain modes |
| Preservation.CreateSubAccountKeeps | x/account/keeper/account.go:154-186 | a new sub-account takes an unused index and keeps both indices exact |
| Preservation.EnsureMasterStep | x/account/keeper/account.go:113-152 | first use of an owner creates one indexed master holding nothing; later uses change nothing owed |
| Preservation.CreatePublicPoolKeeps | x/account/keeper/msg_server_publicpool.go:22-99 | pool creation moves no gap, settles the master's funding and keeps the invariant; what it writes is CreatePublicPoolWrites |
| Preservation.UpdatePublicPoolKeeps | x/account/keeper/msg_server_publicpool.go:106-178 | freezing or re-configuring a pool keeps the invariant, the operator's floor included |
| Preservation.MintWrites | x/account/keeper/msg_server_publicpool.go:268-362 | an accepted mint settles the payer's funding and writes exactly two rows, the payer's and the pool's; the shares it issues are pinned by MintSettles |
| Preservation.MintKeeps | x/account/keeper/msg_server_publicpool.go:268-362 | an accepted mint moves no gap and keeps shares adding up and the floor |
| Preservation.BurnGuards | x/account/keeper/msg_server_publicpool.go:403-477 | an accepted burn passed the cap, holding, positive-quote and floor gates and paid exactly the quoted terms |
| Preservation.BurnWrites | x/account/keeper/msg_server_publicpool.go:522-554 | an accepted burn writes exactly two rows, under the quoted terms |
| Preservation.BurnKeeps | x/account/keeper/msg_server_publicpool.go:395-565 | an accepted burn, forced or not, by LP or operator, moves no gap and keeps shares adding up and the floor |
| Preservation.StrategyTransferRefused | x/account/keeper/msg_server_publicpool.go:570-624 | under the invariant every strategy transfer is refused |
| Preservation.RegisterAssetKeeps | x/asset/keeper/msg_server.go:32-113 | a new asset has an unused index, denom and name and no coins counted, so no gap moves |
| Preservation.UpdateAssetKeeps | x/asset/keeper/msg_server.go:115-153 | an update never changes denom, name, multiplier or margin role, so no gap moves |
| Frames.UntouchedIsFramed | x/account/keeper/msg_server.go:42-504 | a message leaves the row, balances, locks and positions of every account it does not name exactly as they were |
| Frames.RecordsAreKept | x/account/keeper/public_pool.go:76-104 | only pool messages write pool records and share entries; everything else changes at most collateral and trading mode of a row |
| Frames.FillEnriches | x/trade/keeper/perp/engine.go:184-203 | a match, wherever it stops, never takes from an account that is not one of its sides; it may credit it with fees |
| Ownership.OthersCannotTake | x/account/keeper/account.go:204-216 | no message of anyone but the owner, governance included, and no settlement of others, lowers an account's collateral or balances or changes its locks or positions; only a forced burn touches its pool entries |
| Ownership.IdleOwnerLosesNothing | x/account/keeper/msg_server.go:42-504 | the same over any run in which the owner sends nothing and nothing of the account itself is settled, whatever others trade |
| PoolRuns.DeliverEvolves | x/account/keeper/msg_server_publicpool.go:106-665 | any message leaves every pool in place, never unfreezes it and never raises its fee; unless it fills the pool itself it neither dilutes it nor makes it insolvent at unchanged PnL |
| PoolRuns.FreezeIsForever | x/account/keeper/msg_server_publicpool.go:106-178 | over any run a pool never disappears, a frozen pool stays frozen and the operator fee never rises |
| PoolRuns.WaitingNeverCosts | x/account/keeper/public_pool.go:179-252 | over any run, fills included, in which the pool keeps shares and its own trading never loses, value per share and hence every quote never falls, and a solvent pool stays solvent |
| PoolRuns.LpBurnNeverBreaksFloor | x/account/keeper/msg_server_publicpool.go:522-554 | the defensive floor check never rejects an LP burn |
| PoolRuns.AcceptedBurnIsFair | x/account/keeper/msg_server_publicpool.go:395-565 | an accepted burn pays within available collateral and within one unit of a fresh quote; an LP in profit gets at least the cost basis, an LP at a loss and the operator the whole quote |
| PoolRuns.AllRedemptionsCovered | x/account/keeper/public_pool.go:186-218 | the quotes of all LPs and of the operator together never exceed the pool's account value |
| PoolRuns.MintThenBurnAll | x/account/keeper/msg_server_publicpool.go:268-565 | a new LP who mints and burns everything at unchanged PnL restores the pool's record and every row but the two collaterals, its own funding settled, and loses between nothing and one share's value plus one unit |
| Pools.BurnNeverDilutes | x/account/keeper/msg_server_publicpool.go:479-554 | after any burn the remaining value per remaining share is no lower and the pool is not overdrawn |
| Pools.MintNeverDilutes | x/account/keeper/public_pool.go:223-252 | a mint into a priced pool is always quoted, and never lowers value per share |
| Pools.QuotesNeverFall | x/account/keeper/public_pool.go:186-218 | when value per share does not fall, no quote falls |
| Pools.FeeNeverTakesPrincipal | x/account/keeper/msg_server_publicpool.go:479-517 | the fee is strictly below the shares burned (the clamp never fires), is its fraction of the profit to within one share, zero without profit, and leaves a profitable LP at least the cost basis |
| Pools.FeeIsFloor | x/account/keeper/msg_server_publicpool.go:479-508 | the fee is exactly the operator's fraction of the profit at the pool's value, in shares, rounded down |
| Pools.MintIsFloor | x/account/keeper/public_pool.go:223-252 | shares are issued at 1000 uusdc in an empty pool and at the value of a share otherwise, rounded down; only an insolvent pool refuses |
| Pools.CapIsExact | x/account/keeper/public_pool.go:259-289 | the burn cap admits exactly the burns whose value the available collateral covers |
| Pools.PaidWithinNav | x/account/keeper/msg_server_publicpool.go:510-517 | the payout never exceeds the value of the shares destroyed |
| Pools.BurnCapSuffices | x/account/keeper/public_pool.go:259-289 | a burn within the cap pays no more than the available collateral |
| Pools.OneShotPayoutRefinesRequote | x/account/keeper/msg_server_publicpool.go:510-517 | the one-division payout is the fresh quote of the destroyed shares or one unit less |
| Pools.MintThenRedeem | x/account/keeper/public_pool.go:186-252 | redeeming a fresh mint at unchanged PnL charges no fee, never returns more than was paid and loses less than a share's value plus one unit |
| Pools.OperatorMintKeepsFloor | x/account/keeper/msg_server_publicpool.go:268-362 | an operator mint, which is not checked, keeps the floor |
| Pools.LpBurnKeepsFloor | x/account/keeper/msg_server_publicpool.go:522-554 | an LP burn with any fee keeps the floor |
| PoolTerms.MintSettles | x/account/keeper/msg_server_publicpool.go:268-362 | an accepted mint replies with at least one share, issued at the initial price into an empty pool and at the value of a share otherwise; the record gains them, and with them the operator, or the sender's entry, which also gains the deposit and restarts its clock |
| PoolTerms.LpBurnSettles | x/account/keeper/msg_server_publicpool.go:403-554 | an LP's burn, forced or not: quote, cost basis, fee and payout each by two bounds from the stores; the record loses the shares but for the fee, which the operator gains, and the entry loses the shares and their basis |
| PoolTerms.OperatorBurnSettles | x/account/keeper/msg_server_publicpool.go:403-554 | the operator's burn pays the whole quote, takes no fee and lowers total and operator shares alike |
| PoolTerms.CreatePublicPoolWrites | x/account/keeper/msg_server_publicpool.go:22-99 | a new pool is active with the fee and rate asked for, all shares its operator's, backed by 1000 USDC each out of the master's collateral, which is also what it quotes |
| PoolTerms.UpdatePublicPoolWrites | x/account/keeper/msg_server_publicpool.go:106-178 | an update writes status, fee and rate only, and a frozen liquidity pool stops being the liquidity pool |
| PoolTerms.UpsertWrites | x/account/keeper/public_pool.go:112-138 | a mint adds shares and principal to the LP's entry and sets its time; other entries stay |
| PoolTerms.ReduceWrites | x/account/keeper/public_pool.go:148-177 | a burn takes shares and their principal from the entry, removes it when emptied and keeps its time; other entries stay |
| Gates.DepositAcceptedIff | x/account/keeper/msg_server.go:42-115 | a deposit is accepted exactly when its asset is enabled, the amount reaches both minimums, the route fits, the bank pays and an index is left for a new owner; it replies with the beneficiary's master |
| Gates.WithdrawAcceptedIff | x/account/keeper/msg_server.go:117-211 | exactly when the owner withdraws from a trading account at least the minimums, coins and the unlocked balance cover it, and on the perps route the markets are known and the risk check passes |
| Gates.TransferAcceptedIff | x/account/keeper/msg_server.go:292-369 | exactly when the owner moves at least the minimums between two trading accounts and the source covers it, or for USDC its markets are known and the risk check passes |
| Gates.UpdateMarginAcceptedIff | x/account/keeper/msg_server.go:371-443 | exactly when the owner moves a positive amount of an isolated position in a known market, removing no more than there is, and the risk check passes |
| Gates.CreateSubAccountAcceptedIff | x/account/keeper/msg_server.go:213-239 | exactly when the owner of a master asks and an index is left; the new row is empty and filed under the master |
| Gates.UpdateAccountConfigAcceptedIff | x/account/keeper/msg_server.go:241-264 | exactly when the owner of a trading account names a known mode, which alone changes |
| Gates.UpdateAccountAssetConfigAcceptedIff | x/account/keeper/msg_server.go:266-290 | exactly when the owner of a trading account names a known mode, which alone changes in the row |
| Gates.UpdateLeverageAcceptedIff | x/account/keeper/msg_server.go:445-488 | exactly when the position is empty and the fraction lies between the market's minimum and one; mode and fraction alone change |
| Gates.UpdateParamsAcceptedIff | x/account/keeper/msg_server.go:490-504 | exactly when the authority sends valid parameters |
| Gates.CreatePublicPoolAcceptedIff | x/account/keeper/msg_server_publicpool.go:22-99 | exactly when a master's owner asks for shares it can back at 1000 USDC each, fee and rate are in range, its markets are known, an index is left and the risk check passes |
| Gates.UpdatePublicPoolAcceptedIff | x/account/keeper/msg_server_publicpool.go:106-212 | exactly when the operator updates an active pool to a fee no higher and a floor it meets, and freezes it only healthy, without orders and without positions |
| Gates.MintAcceptedIff | x/account/keeper/msg_server_publicpool.go:268-362 | exactly when the sender's master can pay, the deposit buys a share of an active pool, and for an LP the floor holds afterwards and the list has room |
| Gates.BurnAcceptedIff | x/account/keeper/msg_server_publicpool.go:367-477 | exactly when the sender holds the shares, as operator above the floor or in an entry past its lock-up, they are worth a unit, and the available collateral covers them |
| Gates.ForceBurnAcceptedIff | x/account/keeper/msg_server_publicpool.go:628-665 | exactly when governance burns an LP's covered shares of the insurance fund while it is the liquidity pool, lock-up or not |
| Gates.LockAcceptedIff | x/account/keeper/asset.go:200-245 | a lock needs the unlocked balance; an unlock only a non-negative amount |
| Gates.MoveSpotAcceptedIff | x/account/keeper/asset.go:111-164 | a move needs the whole balance when it drains and the unlocked part otherwise |
| Gates.RegisterAssetAcceptedIff | x/asset/keeper/msg_server.go:32-113 | exactly when governance registers an unused denom and name within the limits; the new asset is enabled, not margin, at the next index |
| Gates.UpdateAssetAcceptedIff | x/asset/keeper/msg_server.go:115-153 | exactly when governance sends positive minimums for an existing asset and keeps USDC enabled; nothing else of it changes |
| Gates.CrossFillAcceptedIff | x/trade/keeper/perp/engine.go:100-246 | a match between cross positions is accepted exactly when its market is known, both new positions fit in 56 bits, the open interest is taken and the risk verdicts it asks for are good |
| Gates.CrossFillRefusal | x/trade/keeper/perp/engine.go:131-246 | a refused one names what failed, the maker's bounds before the taker's and the taker's risk before the maker's, which is what the matching loop evicts or stops by |
| Gates.RebalanceAcceptedIff | x/trade/keeper/perp/isolated.go:89-125 | re-margining goes through exactly when a mark is there if needed and free collateral covers a top-up that is not exempt |
| CostBasis.BasisConserved | x/account/keeper/public_pool.go:112-177 | over any run the principal an LP's accepted burns were charged with, forced ones included, plus the basis left equals the basis there was plus the principal of its accepted mints |
| CostBasis.EmptiedEntryConsumedAll | x/account/keeper/public_pool.go:148-177 | an LP that starts and ends a run without shares has been charged exactly what it deposited |
| CostBasis.BurnNeverLowersBasisPerShare | x/account/keeper/public_pool.go:168-170 | truncation never lowers the principal per remaining share |
| SpotLedger.TransferConserves | x/account/keeper/asset.go:111-164 | between distinct accounts every asset's total is conserved |
| SpotLedger.SelfTransferMints | x/account/keeper/asset.go:111-164 | an accepted self-transfer adds its amount to the asset's total |
| SpotLedger.SelfTransferInstance | x/account/keeper/asset.go:111-164 | an accepted self-transfer of 4 out of 10 units leaves 14 |
| SpotLedger.TransferConservesIff | x/account/keeper/asset.go:111-164 | an accepted transfer conserves the asset it moves exactly when the accounts differ or the amount is zero |
| SpotLedger.TransferMovesAmount | x/account/keeper/asset.go:111-164 | effect on both rows: draining pays out of the lock first, otherwise the lock stays and stays covered; the receiver's lock is untouched |
| SpotLedger.AvailableNeverUnderflows | x/account/keeper/asset.go:174-193 | after any run available is exactly balance less lock and not negative, so the clamp never fires |
| SpotLedger.LockThenUnlock | x/account/keeper/asset.go:200-245 | unlocking a locked amount always succeeds and restores the row |
| Positions.FillValueIdentity | x/account/types/position_math.go:164-224 | at every mark a fill moves value by the marked size change plus the realised amount plus a residue, zero except on an inexact partial decrease, where it is the entry's sign |
| Positions.EntryIdentity | x/account/types/position_math.go:164-224 | the same law for the entry quote, without a mark |
| Positions.FlipIsCloseThenOpen | x/account/types/position_math.go:164-224 | a flip equals a full close followed by an open, in position and in realised amount |
| Positions.SameSideFillsCompose | x/account/types/position_math.go:164-224 | two same-side fills at one price equal one fill and realise nothing |
| Positions.DecreaseKeepsAverageEntry | x/account/types/position_math.go:61-224 | a decrease keeps the average entry within truncation and never raises a margin requirement |
| Positions.CrossFillCanMoveValue | x/trade/keeper/perp/cross.go:31-45 | a concrete fee-free fill at the mark that takes value from the account |
| Positions.CrossFillDoublesRealized | x/trade/keeper/perp/cross.go:31-45 | a fee-free cross fill moves account value at the fill price by twice the realised amount, up to the truncation residue |
| Positions.CrossFillPreservesValueIff | x/trade/keeper/perp/cross.go:31-45 | account value at the fill price is preserved exactly when the fill is empty, opens, adds, or the position was entered at that price on average |
| Positions.EntryIsTradedLessRealized | x/account/types/position_math.go:164-224 | over any sequence of fills the entry quote is what was traded less what was realised, within one unit per partial decrease |
| Positions.RealizedIsClosedNotional | x/account/types/position_math.go:164-224 | a fill realises exactly the notional of the part it closes, with the trade's sign, plus the entry quote that part releases |
| Positions.OpenedEarnsTheMove | x/account/types/position_math.go:103-121 | a position opened at one price is worth, at any mark, its margin plus its size times the move |
| Positions.RequirementIsFloor | x/account/types/position_math.go:61-101 | a margin requirement is its fraction of the marked size, rounded down |
| Genesis.ExportImportRoundTrip | x/account/keeper/genesis.go:10-139 | export then import is the identity on every state that satisfies the invariant, counters and rebuilt indices included |
| Genesis.ImportRebuildsIndices | x/account/keeper/genesis.go:10-58 | importing rows in any order builds exactly the indices of the table |
| Genesis.IndicesDetermined | x/account/keeper/account.go:47-91 | the table determines both indices |
| Genesis.BootIsOk | x/account/types/genesis.go:9-36 | the default genesis satisfies the invariant, is solvent and has no entry quotes |
| Medians.Median | services/oracle/oracle/aggregator.go:19-27 | absent for no samples, otherwise the lower median by rank |
| Medians.LowerMedianUnique | services/oracle/oracle/aggregator.go:19-27 | samples have at most one lower median |
| Medians.MedianPermutes | services/oracle/oracle/aggregator.go:19-27 | the lower median does not depend on the order of the samples |
| Medians.MajorityBoundsMedian | services/oracle/oracle/aggregator.go:19-27 | the lower median lies in every band that holds more than half of the samples |
| Oracle.Aggregate | services/oracle/oracle/aggregator.go:49-75 | for every name the result is that of the last input under it with enough fresh positive samples, and absent if there is none |
| Oracle.SomeInputDecides | services/oracle/oracle/aggregator.go:49-75 | a published price is the lower median of one of the name's inputs; a name is absent only when all its inputs are silent |
| Oracle.SlotIsLastOfSource | services/oracle/oracle/oracle.go:92-102 | each slot holds the last sample its provider sent for its pair |
| Oracle.LastOfSourceHasSlot | services/oracle/oracle/oracle.go:92-102 | with plain names the last sample of every provider for every pair is in a slot |
| Oracle.KeysSeparate | services/oracle/oracle/oracle.go:99-100 | slot keys of plain names coincide exactly for the same pair and provider |
| Oracle.OrderIrrelevant | services/oracle/oracle/oracle.go:104-122 | the eligible values of a name do not depend on the order the map is walked in |
| Oracle.AnyOrderDecides | services/oracle/oracle/oracle.go:104-122 | a snapshot that is right for one order of walking the slots is right for all |
| Oracle.DeclaredPairPublishes | services/oracle/oracle/oracle.go:104-122 | a declared pair publishes exactly the lower median of its own fresh samples; of the other names only the zero pair's can appear |
| Oracle.MinorityCannotMovePrice | services/oracle/oracle/oracle.go:104-122 | a published price stays in every band that holds more than half of the pair's eligible samples |
| Oracle.PriceIsMedianOfLastSamples | services/oracle/oracle/oracle.go:92-122 | at every point of every interleaving, for plain names, a declared pair's price is the lower median of the fresh positive ones among the last samples each provider had sent for it at the last tick, and absent exactly when those are too few |
| Oracle.MinorityOfProvidersCannotMovePrice | services/oracle/oracle/oracle.go:92-122 | at every point of every interleaving a published price lies in every band that holds more than half of the fresh positive last samples of the providers |
| Oracle.PublishesIff | services/oracle/oracle/aggregator.go:49-75 | a price is published exactly when the positive samples within the age bound are at least one and at least the required number, and is one of their prices |
| Oracle.PriceIsSomeProviders | services/oracle/oracle/oracle.go:92-122 | at every point of every interleaving the same holds of the providers' last samples |
| Oracle.BucketsPublish | services/oracle/oracle/oracle.go:104-122 | grouping the slots and aggregating the groups yields the snapshot of the slots |
| Oracle.Bucket | services/oracle/oracle/oracle.go:104-112 | every name with samples gets all of its slots and no others |
| Oracle.BuildInputs | services/oracle/oracle/oracle.go:113-119 | each group becomes one input, under its declared pair or the zero pair |
| Oracle.Orchestrator.constructor | services/oracle/oracle/oracle.go:34-49 | starts with no samples and indexes exactly the providers' pairs |
| Oracle.Orchestrator.Ingest | services/oracle/oracle/oracle.go:92-102 | appends the batch to the history the slots represent and leaves the snapshot alone |
| Oracle.Orchestrator.RecomputeSnapshot | services/oracle/oracle/oracle.go:104-122 | the snapshot becomes that of everything ingested so far, at the tick's time; slots are untouched |
| Engines.App.Deliver | x/account/keeper/msg_server.go:42-504 | runs one message, fill or close-out as its transition, undoes a refused message or branched fill entirely, keeps what a failed close-out wrote, and keeps the invariant |
| Engines.App.RouteFill | x/matching/keeper/match_core.go:208-220 | a fill on a branch reports its error, to be rolled back; a close-out drops it and leaves the stores where the engine stopped |
| Engines.App.ExitAccount | x/liquidation/keeper/exit.go:33-67 | closes one account's whole position against the insurance fund at the mark, passing over a failure |
| Engines.App.ExitMarket | x/liquidation/keeper/exit.go:19-78 | walks the accounts and performs exactly the run of close-outs of the expiry transition, or nothing when the mark price is unset |
| Engines.App.constructor | x/account/types/genesis.go:9-36 | boots from the default documents into a solvent state that satisfies the invariant |
| Engines.Engine.Apply | x/trade/keeper/perp/engine.go:100-246 | runs the fill pipeline of ApplyMatch step by step, or returns its error with the stores as they stood when the step failed; what that pipeline charges is CrossFillCharges and MatchPosts |
| Engines.Engine.ChangeSides | x/trade/keeper/perp/engine.go:131-152 | changes both positions, the maker's first; a taker out of bounds leaves the maker's written |
| Engines.Engine.ApplyPositionChange | x/trade/keeper/perp/position.go:39-98 | rewrites one position within its bounds and reports the side, or returns the out-of-bounds error |
| Engines.Engine.ApplyCrossAccount | x/trade/keeper/perp/cross.go:31-45 | routes realised amount, fee and liquidation fee into cross collateral, up to the write that fails |
| Engines.Engine.ApplyIsolatedAccount | x/trade/keeper/perp/isolated.go:61-77 | folds realised amount, fee and liquidation fee into isolated margin, then re-margins, up to the write that fails |
| Engines.Engine.RebalanceIsolatedMargin | x/trade/keeper/perp/isolated.go:89-125 | moves the computed amount between cross collateral and isolated margin, or reports the shortfall |
| Engines.Engine.CalculateIsolatedMarginDelta | x/trade/keeper/perp/isolated.go:142-215 | computes the amount to move in each of the four cases |
| Engines.Engine.LiquidationImprovementFee | x/trade/keeper/perp/engine.go:281-309 | computes the capped improvement fee |
| Engines.Engine.CheckRisk | x/trade/keeper/perp/engine.go:214-246 | applies the risk verdicts with their exemptions, the taker first |
| Keepers.Keeper.Deposit | x/account/keeper/msg_server.go:42-115 | performs the deposit transition or returns its error |
| Keepers.Keeper.Withdraw | x/account/keeper/msg_server.go:117-211 | performs the withdrawal transition or returns its error |
| Keepers.Keeper.CreateSubAccount | x/account/keeper/msg_server.go:213-239 | performs the sub-account transition or returns its error |
| Keepers.Keeper.UpdateAccountConfig | x/account/keeper/msg_server.go:241-264 | changes the trading mode only, or returns its error |
| Keepers.Keeper.UpdateAccountAssetConfig | x/account/keeper/msg_server.go:266-290 | changes one row's margin mode only, or returns its error |
| Keepers.Keeper.Transfer | x/account/keeper/msg_server.go:292-369 | performs the transfer transition, pinned by TransferPosts and TransferAcceptedIff, or returns its error |
| Keepers.Keeper.UpdateMargin | x/account/keeper/msg_server.go:371-443 | performs the margin transition or returns its error |
| Keepers.Keeper.UpdateLeverage | x/account/keeper/msg_server.go:445-488 | changes one position's margin mode and fraction only, or returns its error |
| Keepers.Keeper.UpdateParams | x/account/keeper/msg_server.go:490-504 | replaces the parameters for the authority only |
| Keepers.Keeper.CreatePublicPool | x/account/keeper/msg_server_publicpool.go:22-99 | performs the pool-creation transition, pinned by CreatePublicPoolWrites and CreatePublicPoolAcceptedIff, or returns its error |
| Keepers.Keeper.UpdatePublicPool | x/account/keeper/msg_server_publicpool.go:106-178 | performs the pool-update transition or returns its error |
| Keepers.Keeper.AssertPoolEmpty | x/account/keeper/msg_server_publicpool.go:182-212 | passes exactly when the pool is healthy, has no resting orders and no open position |
| Keepers.Keeper.IsPoolOperator | x/account/keeper/msg_server_publicpool.go:249-262 | governance operates the insurance fund, the master's owner any other pool |
| Keepers.Keeper.MintShares | x/account/keeper/msg_server_publicpool.go:268-362 | performs the mint transition, pinned by MintSettles and MintAcceptedIff, and returns the shares, or its error |
| Keepers.Keeper.BurnShares | x/account/keeper/msg_server_publicpool.go:367-387 | performs the burn transition and returns the payout, or its error |
| Keepers.Keeper.BurnSharesCore | x/account/keeper/msg_server_publicpool.go:395-565 | performs the shared burn transition, with or without cooldown |
| Keepers.Keeper.AdmitBurn | x/account/keeper/msg_server_publicpool.go:403-477 | passes exactly the gates of a burn, in order, and finds the entry it draws on |
| Keepers.Keeper.QuoteBurn | x/account/keeper/msg_server_publicpool.go:479-517 | computes the terms of a burn, pinned by LpBurnSettles and OperatorBurnSettles |
| Keepers.Keeper.FeeOnProfit | x/account/keeper/msg_server_publicpool.go:479-508 | computes the operator's fee in shares, pinned by FeeIsFloor |
| Keepers.Keeper.WritePayOut | x/account/keeper/msg_server_publicpool.go:522-554 | performs the writes of a burn, in order |
| Keepers.Keeper.StrategyTransfer | x/account/keeper/msg_server_publicpool.go:570-624 | performs the strategy transition or returns its error |
| Keepers.Keeper.ForceBurnShares | x/account/keeper/msg_server_publicpool.go:628-665 | performs the forced burn transition or returns its error |
| Keepers.Keeper.CreateAccount | x/account/keeper/account.go:47-65 | files a row and its index entries |
| Keepers.Keeper.EnsureMasterAccount | x/account/keeper/account.go:113-152 | the owner's master, created at the next index on first use, or range exhausted |
| Keepers.Keeper.AllocateSubIndex | x/account/keeper/public_pool.go:59-74 | takes the next sub-account index, or range exhausted |
| Keepers.Keeper.UpsertPublicPoolShare | x/account/keeper/public_pool.go:112-138 | extends or appends the LP's entry within the list bound |
| Keepers.Keeper.ReducePublicPoolShare | x/account/keeper/public_pool.go:148-177 | takes shares and their part of the principal, removing an emptied entry |
| Keepers.FindEntry | x/account/keeper/public_pool.go:329-336 | the first entry of a pool, if any |
| Keepers.Keeper.AddAccountAssetBalance | x/account/keeper/asset.go:62-82 | moves a balance, refusing to overdraw |
| Keepers.Keeper.TransferAccountAssetBalance | x/account/keeper/asset.go:111-164 | performs the two writes of a spot move or returns its error |
| Keepers.Keeper.IncreaseLockedBalance | x/account/keeper/asset.go:200-220 | reserves within what is available |
| Keepers.Keeper.DecreaseLockedBalance | x/account/keeper/asset.go:228-245 | releases within what is reserved |
| Keepers.Keeper.SettlePositionFunding | x/funding/keeper/keeper.go:80-101 | settles a position against its market's prefix sum in the entry quote, or reports an unknown market |
| Keepers.Keeper.SettleAllPositionFunding | x/account/keeper/guards.go:26-49 | settles exactly the open positions of an account, or reports an unknown market |
| Keepers.Keeper.HasDisplayName | x/asset/keeper/asset.go:128-152 | tells whether an asset answers to the folded name, which a blank name never does |
| Keepers.Keeper.RegisterAsset | x/asset/keeper/msg_server.go:32-113 | performs the registration transition or returns its error |
| Keepers.Keeper.UpdateAsset | x/asset/keeper/msg_server.go:115-153 | performs the asset-update transition or returns its error |
| Keepers.Keeper.InitGenesis | x/account/keeper/genesis.go:10-58 | imports a document as the import transition does |
| Keepers.Keeper.ExportGenesis | x/account/keeper/genesis.go:60-139 | from any state, lists every row of every table exactly once, with the counters and parameters |

## Left out

- Matching, order book, liquidation search and the choice of auto-deleveraging counterparties: they decide which fills happen; a run may contain any fills, with any of their fee and risk-check flags, on a branch or on the stores themselves.
- ExitMarket: the accounts to visit, in the order of the store, and the mark price are parameters.
- A spot fill as one step: its transfers appear as separate spot moves, so a run may also stop between them.
- The risk, market, funding-rate and bank modules: their answers are the arbitrary `Env` of a message, and open interest is a verdict of the market.
- On-chain oracle and vote extensions: outside the modelled core.
- 256-bit overflow and 64-bit conversions: integers are unbounded.
- Address syntax: an address is a non-empty string.
- Unicode: display names are trimmed and folded as ASCII, and their length counts characters.
- Panics: a division by an empty entry's shares is an error like any other, since both abort the message.
- Fields of accounts, positions and assets that no modelled code reads, nil normalisation, events, queries and application wiring: they would add only easy members.
- Genesis validation and the row order of an export: an export is any list of each table's rows.
- x/asset parameters and their update message: they carry no ledger state.
- The oracle's goroutines, clock and deep copy of the snapshot: ingestion and ticks interleave freely, and the time of a tick is a parameter.
- SortInPlace: an insertion sort stands for the library sort; only order and permutation are used.
- Keeper: one class holds the stores of the account and asset keepers and the module's coins; its one-line lookups have no rows above.
- CrossFillCharges: stated for cross positions; what an isolated side posts is in MatchPosts and RebalanceMargins.
- CrossFillAcceptedIff: stated for cross positions of distinct existing accounts; an isolated side's extra condition is RebalanceAcceptedIff.
- CrossFillRefusal: stated for cross positions of distinct existing accounts.
- FillPositions: stated for distinct maker and taker; matching never fills an account against itself.
- MintThenBurnAll: stated for an LP without an earlier entry in the pool, since an earlier entry's cost basis changes the fee on the way out.
- BasisConserved: stated for an account that exists when the run starts; a new account starts without entries.
