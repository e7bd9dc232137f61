# Custody and settlement of an order-book exchange

Tonic is an on-chain order-book exchange for NEAR. Its contract holds the tokens of all its users, and every
unit it holds has to be somewhere: in an account's balance, behind a resting order, in a market's accrued fees,
in a transfer that has been scheduled but not settled, or in rounding dust. This project models how the contract
moves value between these places and proves what the code relies on: that the ledger stays solvent over every
run, but for the single yoctoNEARs that the code attaches to payouts; that its "bug" assertions and "should never
happen" branches are unreachable; that the order books and the lists kept on the accounts agree; that a bid never
overspends and its lock covers its whole life; that cancels always find their order and fit in storage; and that a
failed withdrawal is credited back at most once, and exactly when somebody can hold it.

## How the model is laid out

* `Outcomes`, `Types`, `Arithmetic`, `Sums`: results, records, floor-division facts, sums over maps.
* `StoredAccount`, `StoredMarket`, `OrderBook`, `MatchingEngine`, `Fees`, `Ledger`, `OrderIndex`: the stored values.
* `Settlement`, `Orders`: what one order settles for makers, referrer, market and taker.
* `Exchange`: every public call as a function from a state to the next state, or to the panic that reverts it;
  `Action`, `Next` and `Run` make it a state machine.
* `Account`, `Market`, `Contract`: the objects of the source, with their fields, changed in place by methods and
  loops. Every public method is proved to take exactly the step of the state machine, or to fail with exactly its
  error and leave every field as it was, so the theorems about runs are theorems about these methods.
* `Requests`, `Calls`: what a request means in the caller's own terms, when a call goes through, and exactly what it
  then changes.
* `Solvency`, `Invariants`, `Reachability`, `NoBugs`, `CancelProgress`, `BidLife`, `Protocols`, `RoundTrips`: the
  theorems. `Examples`: concrete runs from deployment at which a stronger claim would fail.

Four theorems say most of it. `Reachability.RunMovesGap`: along any run, from any state, what is held of a token
less what is owed in it changes by the sum of amounts that are each named for what the code does. With it,
`Reachability.SolventOverRuns`: what is owed in a token never exceeds what is held of it, except that NEAR may fall
short by one yocto for each swap that paid out another token. `NoBugs.RunsNeverBug`: no call on a reachable state
ends in an error that the code holds impossible. `Protocols.ListsOverRuns`: in every reachable state books and
account lists mirror each other order by order.

## Reading the model

* A panic is an `Err`, and the call leaves the state as it was. `IsBug` singles out what the code holds impossible:
  the "bug" and "over-counted", "overspent" and "oversold" assertions, the lookup of a fill's maker, the "should
  never happen" lookup of a cancelled order and the ownership assertion behind it, and the unchecked subtractions.
  The two `unwrap`s of the order views have a theorem of their own. Other `unwrap`s fail on ordinary input, such as
  a missing limit price, an unknown market or a product that overflows, and are ordinary errors here. Two pairs that
  share a message in the source are kept apart so that the impossible one can be named: an unknown maker
  (`MakerNotFound`) and an unknown caller, an order missing from the book (`OrderNotOnBook`,
  `tonic-dex/src/market/mod.rs:389-392`) and one missing from the account's list (`:398`).
* Integers are unbounded, and every width that matters is written out: `as u64` keeps the low 64 bits
  (`StoredMarket.ToLots`), 128- and 256-bit results fail with `Overflow`, and a stored balance
  is of a type that fits 128 bits.
* The matching engine is part of an SDK whose source is not part of this model. `MatchingEngine.EngineOk` states,
  as an assumption, what settlement relies on: fills take lots of somebody else's resting order at its price and
  within the limit, quote paid is the quantity's value rounded down, filled plus open quantity stays within the
  request and quote within the budget, immediate-or-cancel and fill-or-kill orders never rest. An action that
  places an order carries the engine's answer, and the theorems hold for every answer that meets the assumption.
  `Market.Market.PlaceOrder`, a price-time matching loop, is proved to meet it. Where the engine's cancel
  functions put an order is likewise stated by `TakeOrder`.
* Bytes of a stored account depend on serialised sizes computed by the SDK and on the price of a byte; both are
  parameters (`Sizes`). The block time is the parameter `now`, and `ids` of `CancelAll` is the order in which a
  hash map hands out its keys.
* The packed order id is identified with the sequence number inside it, which alone makes it unique.
* The immutable fields of a market are grouped as `Terms`; `TermsOk` collects what creation and the metadata
  callbacks establish.
* `held`, `storageHeld` and `sends` are what the chain knows: tokens held for trading, NEAR held against storage
  deposits, and the transfers scheduled so far with what became of them. The yoctoNEAR that `assert_one_yocto` makes
  a caller attach is kept (`TakeYocto`); the one that the contract attaches to a transfer of any token but NEAR
  counts as owed while the transfer is in flight, is gone when it is delivered and comes back when it bounces
  (`tonic-dex/src/balances.rs:146-179`).

## What the proofs found

* A swap that pays out a token attaches a yoctoNEAR to the transfer and takes none in
  (`tonic-dex/src/balances.rs:146-179`, `tonic-dex/src/swap_order.rs:53-55`). That is the one way in which the gap of
  a token falls (`Reachability.NearGapShrinksExactly`). `Examples.TokenPayoutTakesNear` is a run after which four
  yocto are held and five are owed. Withdrawals of NEAR and storage calls take a yocto in and keep it.
* A taker that names itself as referrer loses the rebate. The rebate is written to the stored account, and the
  copy of that account loaded before it is saved over it afterwards (`tonic-dex/src/market/mod.rs:186`, `:214`);
  the amount is held by the contract and owed to nobody. `Examples.SelfReferralLosesRebate` is a run in which this
  happens, and `Protocols.TwoPhaseIsOneLedger` shows that it is the only way in which settling makers and taker in
  two phases differs from one ledger.
* The comment and the name of the lot-size check speak of powers of ten, and the check accepts every multiple of
  ten (`tonic-dex/src/market/mod.rs:250-259`). No split of an order loses a unit exactly when the denomination
  divides the product of the lot sizes (`StoredMarket.EvenLotsExactly`). For powers of ten the metadata check implies
  that (`StoredMarket.PowerOfTenLotsAreEven`); for lots that pass all checks it may fail
  (`StoredMarket.CheckedLotsMayBeUneven`).
* A swap computes the part of the input that it did not use and drops it (`tonic-dex/src/swap_order.rs:45-49`).
  It stays with the contract: `Solvency.ChainConserves` counts it, and in `Examples.IdleSwapKeepsInput` it is all
  of the input.
* The callback of a bounced transfer runs once. If nobody is registered to receive the amount, or the account it
  falls to lacks the storage or would overflow, the amount stays with the contract
  (`Protocols.CallbackCreditsOnce`, `Examples.BouncedAmountIsStranded`).
* A limit price below one quote lot is rounded down to zero lots, and an order at that price can rest: nothing in
  the contract refuses it, and `EngineOk` allows the engine to post it. While it is the best order of its side, the
  window check of every further limit order of that side divides by zero (`Protocols.ZeroPriceBlocks`);
  `Examples.ZeroPricedAskBlocksAsks` is a run in which this happens.
* A maker whose storage deposit does not cover the balance entries that a fill would add fails every order that
  matches it; `Settlement.FillSettlesExactly` says when.

## Model

| member | source | states |
|---|---|---|
| `Reachability.SolventOverRuns` | tonic-dex/tests/util.rs:230-259 | After any run of calls from deployment: balances, refund values of resting orders, accrued fees and transfers under way together never exceed what is held; for NEAR, up to one yocto for each swap that paid out another token. |
| `Reachability.StepMovesGap` | tonic-dex/src/lib.rs:85-133 | From any state, every call changes held less owed, of every token, by exactly its named amount: dust, dropped inputs, lost rebates, stranded amounts and yoctos. |
| `Reachability.RunMovesGap` | tonic-dex/src/lib.rs:85-133 | Along runs of any length the change is the sum of these amounts. |
| `Reachability.NearGapShrinksExactly` | tonic-dex/src/balances.rs:146-179 | The gap of NEAR falls, by one yocto, if and only if a completed swap pays out another token and its hops leave no NEAR behind. |
| `Protocols.PaysOutTokenExactly` | tonic-dex/src/swap_order.rs:37-55 | Whether a completed swap pays out a token other than NEAR can be read off its last hop: its market and side name the token, and a positive minimum ensures an amount. |
| `Reachability.SurplusSign` | tonic-dex/src/balances.rs:120-179 | The named amount of a call is negative in that one case only, for any token. |
| `Reachability.GapNeverShrinks` | tonic-dex/src/lib.rs:85-133 | From any state, no call makes the difference between held and owed smaller, for any token but NEAR. |
| `Reachability.GapGrowsAlongRuns` | tonic-dex/src/lib.rs:85-133 | The same along runs of any length. |
| `Reachability.ExactOverRuns` | tonic-dex/tests/util.rs:230-259 | The difference never changes at all over runs in which lots divide evenly, bid prices are whole lots, no referrer is the taker, swaps use their whole input without dust, no callback strands its amount and, for NEAR, no yocto is kept, returned or paid out. |
| `Reachability.ExactStep` | tonic-dex/tests/util.rs:230-259 | The same for one call. |
| `Reachability.RunIsSound` | tonic-dex/src/lib.rs:64-97 | In every reachable state books and lists agree, order ids are distinct within and across markets, no order on a book is used up, accounts are covered and capped, and storage deposits add up to the NEAR held against them. |
| `Reachability.ApplyKeepsSound` | tonic-dex/src/lib.rs:64-133 | Every call keeps that invariant. |
| `Solvency.SwapsConserve` | tonic-dex/src/swap_order.rs:28-57 | A whole swap, from arriving tokens to the scheduled transfer, changes each gap by what its hops leave behind, less the yoctoNEAR attached to a payout in another token. |
| `Reachability.SwapPayout` | tonic-dex/src/swap_order.rs:53-55 | A swap takes that yocto exactly when its chain ends with a positive amount of a token other than NEAR. |
| `Reachability.OrderMovesGap` | tonic-dex/src/market/mod.rs:175-218 | An order changes the gap by its named surplus, which is never negative and is zero under even lots, whole-lot bid prices and a referrer other than the taker. |
| `Solvency.OrderConserves` | tonic-dex/src/limit_order.rs:93-134 | An order changes the gap of each token by exactly three named amounts: the part of the lock that no refund returns, the dust of filled bids, and a rebate lost to self-referral. |
| `Solvency.OrderSurplusSign` | tonic-dex/src/limit_order.rs:127-131 | Those amounts are never negative, and zero under even lots, whole-lot bid prices and no self-referral. |
| `Solvency.TradeBalances` | tonic-dex/src/settlement.rs:40-67 | Before the taker settles, balances and claims of the market change by what the taker is about to pay and receive, up to dust: nothing is created by makers, referrer and fees together. |
| `Solvency.TradeEffect` | tonic-dex/src/settlement.rs:20-115 | Each account ends with its own proceeds and rebate, the referrer with the referral, and the total of balances grows by the sum of these. |
| `Solvency.NewBookClaim` | tonic-dex/src/market/v1.rs:173-201 | Matching releases from escrow exactly what the makers gave, plus dust for bids, and adds the refund value of what is posted. |
| `Solvency.FillDustIsSmall` | tonic-dex/src/market/mod.rs:442-454 | Dust is at most one unit per fill, never negative, and zero for even lots. |
| `Solvency.HopConserves` | tonic-dex/src/swap_order.rs:91-188 | One hop changes the gap beside the amount in hand by exactly its dropped input refund and the dust of filled bids. |
| `Solvency.ChainConserves` | tonic-dex/src/swap_order.rs:41-57 | Over any chain the gap beside the amount in hand grows by exactly the sum of dropped inputs and dust, which is never negative. |
| `Solvency.ChainGainsNothingExactly` | tonic-dex/src/swap_order.rs:41-57 | That sum is zero for every token if and only if every hop uses its whole input and leaves no dust. |
| `Solvency.UnfilledHopDropsInput` | tonic-dex/src/swap_order.rs:145-152 | A hop that fills nothing produces nothing and drops its whole input. |
| `Solvency.CancelConserves` | tonic-dex/src/market/mod.rs:378-400 | A cancel moves the refund from escrow to a balance and changes no gap. |
| `Solvency.CancelAllConserves` | tonic-dex/src/market/mod.rs:355-375 | So does cancelling all orders of an account in a market. |
| `Solvency.CancelEachConserves` | tonic-dex/src/market/mod.rs:339-351 | So does clearing a book. |
| `Solvency.DepositConserves` | tonic-dex/src/balances.rs:27-35 | A deposit credits what arrived. |
| `Solvency.WithdrawConserves` | tonic-dex/src/balances.rs:37-65 | A withdrawal moves a balance into a transfer under way; the yocto its caller attaches travels on, except with NEAR, where it is kept. |
| `Solvency.TransferConserves` | tonic-dex/src/balances.rs:120-179 | A delivery changes no gap, and a bounce only returns the yocto attached to it. |
| `Solvency.CallbackConserves` | tonic-dex/src/balances.rs:68-102 | The callback changes the gap exactly by an amount that nobody can be credited with. |
| `Solvency.DepositSucceedsExactly` | tonic-dex/src/account/mod.rs:69-73 | A deposit succeeds if and only if the account is registered, does not overflow and has the storage for the entry. |
| `Solvency.UnregisterConserves` | tonic-dex/src/storage_manager.rs:127-140 | Unregistering removes an account without balances, so nothing owed disappears; the yocto attached is kept. |
| `Solvency.StorageWithdrawConserves` | tonic-dex/src/storage_manager.rs:101-121 | A storage withdrawal changes no gap but for the yocto it keeps. |
| `Solvency.SetMarketStateConserves` | tonic-dex/src/admin.rs:17-22 | Changing a market's state changes no gap. |
| `Protocols.ZeroPriceBlocks` | tonic-dex/src/limit_order.rs:43-50 | An order panics on a division by zero if and only if it passes the guards of the call, is a limit order whose price can be scaled, and the best order of its own side rests at zero lots; while one does, no limit order of that side succeeds. |
| `Protocols.TwoPhaseLedger` | tonic-dex/src/market/mod.rs:185-215 | Every account's final balance is the old one plus its net entry on one ledger, less the overwritten self-referral. |
| `Protocols.TwoPhaseIsOneLedger` | tonic-dex/src/market/mod.rs:185-215 | Balances, lists, storage deposits, book, fees and counter end where one ledger with all transfers would leave them if and only if it is not the case that the taker names itself as referrer, a fee is left after rebates, and its account can hold the credit. |
| `Protocols.TwoPhaseKeepsTheRest` | tonic-dex/src/market/mod.rs:185-215 | Everything but the balances always ends there. |
| `Protocols.TwoPhaseLists` | tonic-dex/src/limit_order.rs:93-144 | Every account loses exactly its own consumed orders from its lists, and the caller gains what it posted. |
| `Protocols.MakersLists` | tonic-dex/src/settlement.rs:46-67 | The maker loop takes every consumed order off its owner's list, whatever the order of the fills. |
| `Protocols.OwnReferral` | tonic-dex/src/settlement.rs:96-115 | The taker is paid as its own referrer exactly under these conditions. |
| `Examples.SelfReferralLosesRebate` | tonic-dex/src/market/mod.rs:185-215 | After a run from deployment with storage that costs something, an order whose taker pays a rebate to itself that reaches neither its balance nor the market's fees. |
| `Examples.TokenPayoutTakesNear` | tonic-dex/src/balances.rs:146-179 | A run after which the maker is owed five yoctoNEAR and four are held, because another's swap was delivered in a token. |
| `Examples.BouncedAmountIsStranded` | tonic-dex/src/balances.rs:88-100 | A run after which five units are held and owed to nobody: their owner unregistered, and the contract's owner never registered. |
| `Examples.IdleSwapKeepsInput` | tonic-dex/src/swap_order.rs:45-55 | A run in which a swap into an empty book sends nothing and keeps its whole input. |
| `Examples.ZeroPricedAskBlocksAsks` | tonic-dex/src/limit_order.rs:184-191 | A run in which an ask at five, with a quote lot of ten, rests at zero lots and the same ask again divides by zero. |
| `Examples.SetupRuns` | tonic-dex/src/market/mod.rs:175-218 | The market, accounts and offer of the examples are reached by a run from deployment. |
| `Protocols.ChainThreads` | tonic-dex/src/swap_order.rs:41-52 | In a completed chain every hop takes the token of its market, starts from exactly the amount the previous hop produced and meets its own minimum. |
| `Protocols.CompletedChainPays` | tonic-dex/src/swap_order.rs:37-56 | A completed chain schedules one transfer to the sender, of the last hop's output, which is at least the demanded minimum. |
| `Protocols.StepsSends` | tonic-dex/src/balances.rs:85-144 | A call does nothing to the sends, schedules one, settles the one in flight it names, or closes the settled one it names. |
| `Protocols.RunAdvancesSends` | tonic-dex/src/balances.rs:85-144 | Over any run a send keeps token, receiver and amount, and its status only moves forward: resolved once, closed once. |
| `Protocols.CreditedAtMostOnce` | tonic-dex/src/balances.rs:85-101 | Over any interleaving of calls, the number of callbacks that find an account able to hold a bounced send is one if the send ends as credited and zero otherwise. |
| `Protocols.DeliveredIsNeverCredited` | tonic-dex/src/balances.rs:85-88 | A delivered send is never credited back, whatever follows. |
| `Protocols.CallbackCreditsOnce` | tonic-dex/src/balances.rs:88-100 | The callback of a failed send credits its full amount to the receiver if registered at that moment and otherwise to the owner, if and only if that account is registered, does not overflow and has the storage; it moves no other balance. |
| `Protocols.SequenceGrows` | tonic-dex/src/lib.rs:106-109 | The counter grows by one with every order, and a new order is numbered above every order on every book. |
| `Protocols.ListsOverRuns` | tonic-dex/src/account/v1.rs:156-214 | In every reachable state an order is on a book under an owner if and only if the owner lists it there; every order on a book has lots left, no list is empty, none exceeds the cap, no id is on two books. |
| `Protocols.StepsSequence` | tonic-dex/src/lib.rs:106-109 | A successful call hands out one number for an order, one for each hop of a swap, and none otherwise. |
| `Protocols.SequenceNeverFalls` | tonic-dex/src/lib.rs:106-109 | The counter never goes back over any run. |
| `Protocols.LaterOrdersAreNumberedHigher` | tonic-dex/src/lib.rs:106-109 | Of two orders in any markets, with any calls in between, the later one has the larger number. |
| `RoundTrips.BouncedWithdrawalIsUndone` | tonic-dex/src/balances.rs:85-118 | A withdrawal from a covered account whose transfer fails at once is undone: the callback cannot fail, credits the caller, and apart from the closed send and the yocto kept the state is the one before. |
| `RoundTrips.BouncedWithdrawalIsUndoneOverRuns` | tonic-dex/src/balances.rs:85-118 | So it is for every withdrawal after any run from deployment. |
| `RoundTrips.DepositThenWithdraw` | tonic-dex/src/balances.rs:27-44 | What is deposited can be withdrawn at once and every balance is as before; the whole ledger is, unless the entry had held zero. |
| `RoundTrips.DepositThenTake` | tonic-dex/src/account/v1.rs:111-136 | The same for one account, storage lock included. |
| `RoundTrips.TakeThenDeposit` | tonic-dex/src/account/v1.rs:111-136 | Withdrawing and depositing the same amount restores the account. |
| `RoundTrips.RegisterThenUnregister` | tonic-dex/src/storage_manager.rs:27-140 | Registering and unregistering gives back exactly what was kept and restores the whole state but for the yocto attached. |
| `NoBugs.RunsNeverBug` | tonic-dex/src/limit_order.rs:113-133 | In no reachable state does any call end in a bug error: the accounting assertions, the lookup of a fill's maker, the "should never happen" lookup and the ownership assertion of a cancel, and the unchecked subtractions. |
| `NoBugs.ApplyNeverBugs` | tonic-dex/src/market/mod.rs:387-399 | The same for one call from any state that meets the invariant. |
| `NoBugs.OrderNeverBugs` | tonic-dex/src/market/mod.rs:175-218 | No order hits an accounting assertion, an unknown maker or an underflow. |
| `NoBugs.SwapRefundNeverUnderflows` | tonic-dex/src/swap_order.rs:145-152 | Output and input refund of a swap can be computed on both sides for every answer of the engine. |
| `NoBugs.SwapsNeverBug` | tonic-dex/src/swap_order.rs:28-188 | Nor does a swap chain of any length reach a bug. |
| `NoBugs.ListedIsOnBook` | tonic-dex/src/market/mod.rs:387-392 | An order found on the account's list is on the book under that owner. |
| `NoBugs.CancelNeverBugs` | tonic-dex/src/market/mod.rs:378-400 | A cancel never finds the order missing from the book or owned by another account. |
| `NoBugs.CancelAllNeverBugs` | tonic-dex/src/market/mod.rs:355-375 | Nor does cancelling all. |
| `NoBugs.AvailableNeverUnderflows` | tonic-dex/src/storage_manager.rs:63-75 | For a covered account the available storage deposit is the deposit less the lock, and the subtraction cannot underflow. |
| `NoBugs.PermittedStorageWithdrawSucceeds` | tonic-dex/src/storage_manager.rs:101-121 | A storage withdrawal succeeds if and only if no more than the unlocked part is asked for; its own save never fails. |
| `NoBugs.ViewLookupsNeverFail` | tonic-dex/src/views.rs:243-279 | The `unwrap`s of both order views succeed in every reachable state. |
| `CancelProgress.CancelsOverRuns` | tonic-dex/src/market/mod.rs:155-171 | After any run no cancel fails its storage check when a balance entry is no larger than the reserve of an order, and moreover the public calls cancel a listed order, or all of them, whenever contract and market allow it and what is owed of the pair fits 128 bits. |
| `CancelProgress.OwedFitsOverRuns` | tonic-dex/src/market/mod.rs:404-463 | What is owed of a pair fits 128 bits in every reachable state in which what is held does, with room for the yoctos paid out. |
| `CancelProgress.CancelFitsStorage` | tonic-dex/src/account/v1.rs:73-98 | One cancel never fails for lack of storage. |
| `CancelProgress.CancelAllFitsStorage` | tonic-dex/src/account/v1.rs:73-98 | Nor does cancelling all orders in a market. |
| `CancelProgress.CancelSucceeds` | tonic-dex/src/market/mod.rs:378-400 | In a sound state whose owed amounts of the pair fit 128 bits, with balance entries no larger than the reserve of an order, the owner of a listed order can cancel it: found, no overflow, fits storage. |
| `CancelProgress.CancelAllSucceeds` | tonic-dex/src/market/mod.rs:355-375 | And all of its orders in a market, on the same two conditions. |
| `CancelProgress.RefundSucceedsExactly` | tonic-dex/src/market/mod.rs:418-463 | A refund goes through if and only if the order is the owner's and its value, its base and the balance after it fit 128 bits. |
| `CancelProgress.CancelEffect` | tonic-dex/src/market/mod.rs:378-400 | A cancel gives the owner the refund value in the token of its side, touches no other balance, account or market, and takes one order off the book. |
| `CancelProgress.ClearPrefix` | tonic-dex/src/market/mod.rs:339-351 | On the same two conditions, clearing the first n orders of a snapshot: every cancel succeeds against the state the previous ones left, exactly the rest remain, every account gains the sum of its own refunds. |
| `CancelProgress.ClearingCancelsTheFront` | tonic-dex/src/market/mod.rs:331-352 | On the same two conditions, clearing cannot fail, cancels the first min(limit, total) orders, asks before bids, and keeps the others in their order. |
| `CancelProgress.PlaceThenCancel` | tonic-dex/tests/trading.rs:688-760 | An order that fills nothing can be cancelled at once on the same two conditions, and then every balance of every account and every list is as before, but for what a bid's lock exceeds its refund by: nothing for an ask at any price and a bid at a whole-lot price. Whoever the referrer is. |
| `CancelProgress.PostingLedger` | tonic-dex/src/limit_order.rs:119-134 | Posting without fills takes exactly the lock from the owner's balance and changes no other. |
| `CancelProgress.PostedIsRemembered` | tonic-dex/src/limit_order.rs:136-144 | A posted order can be taken off the book under its id, at its price in lots and with its open quantity, and its owner remembers the time and an original size between what was filled plus rests and what was asked. |
| `Invariants.OrderKeepsSound` | tonic-dex/src/market/mod.rs:175-218 | An order keeps the invariant. |
| `Invariants.SwapsKeepSound` | tonic-dex/src/swap_order.rs:28-57 | So does a swap chain. |
| `Invariants.CancelKeepsSound` | tonic-dex/src/market/mod.rs:378-400 | So does a cancel. |
| `Reachability.CancelAllKeepsSound` | tonic-dex/src/market/mod.rs:355-375 | So does cancelling all. |
| `Reachability.UnregisterKeepsSound` | tonic-dex/src/storage_manager.rs:127-140 | So does unregistering: an unregistered account had no orders on any book. |
| `Reachability.StorageDepositKeepsSound` | tonic-dex/src/storage_manager.rs:27-61 | So does a storage deposit, which leaves the account covered and the deposits backed. |
| `Reachability.StorageWithdrawKeepsSound` | tonic-dex/src/storage_manager.rs:101-121 | So does a storage withdrawal. |
| `Reachability.CreateMarketKeepsSound` | tonic-dex/src/market/mod.rs:70-101 | So does creating a market whose rates and lots pass the checks. |
| `Reachability.SetMarketStateKeepsSound` | tonic-dex/src/admin.rs:17-22 | So does changing a market's state. |
| `Reachability.CallbackKeepsSound` | tonic-dex/src/balances.rs:68-102 | So does the withdrawal callback. |
| `Requests.LimitBuyBudget` | tonic-dex/src/limit_order.rs:52-71 | A limit buy's budget is what the fee leaves of `max_spend`, or of price times quantity without one, to within one quote lot, and its price is the limit price to within one lot, for counts that fit 64 bits. |
| `Requests.LimitBuyQuantity` | tonic-dex/src/limit_order.rs:72-79 | A number of lots is at most what a limit buy asks for if and only if the request allows it and the budget pays for it at the limit price. |
| `Requests.LimitSellRequest` | tonic-dex/src/limit_order.rs:202-220 | A limit sell asks for its quantity and price to within one lot, without a budget. |
| `Requests.MarketRequest` | tonic-dex/src/market_order.rs:21-48 | A market order asks for its quantity to within one lot at any price; a buy's budget is what the fee leaves of `max_spend` to within one quote lot, and the largest number of lots without one. |
| `Requests.SwapRequest` | tonic-dex/src/swap_order.rs:98-119 | A swap hop offers its whole input to within one lot: the amount itself on the sell side, and on the buy side what the fee leaves of it, against the lots of the largest 128-bit amount. |
| `Requests.LimitBuyKeepsCap` | tonic-dex/src/limit_order.rs:53-134 | A limit buy that goes through locks and pays, fee included, at most `max_spend`, or price times quantity without one. |
| `Requests.MarketBuyKeepsCap` | tonic-dex/src/market_order.rs:88-102 | A market buy that goes through pays, fee included, at most its `max_spend`, and rests nothing. |
| `Requests.OrderKeepsCap` | tonic-dex/src/limit_order.rs:119-134 | No order takes more from its caller's balance than that: a sell its quantity, a buy its cap. |
| `Requests.LimitBuyPreparesExactly` | tonic-dex/src/limit_order.rs:43-79 | A limit buy reaches the engine if and only if it names a price inside the window, its cap and the fee on it can be computed, its budget makes at least one lot, and the lots it pays for fit 64 bits. |
| `Requests.LimitSellPreparesExactly` | tonic-dex/src/limit_order.rs:184-209 | A limit sell reaches the engine if and only if it names a price inside the window. |
| `Requests.MarketPreparesExactly` | tonic-dex/src/market_order.rs:21-36 | A market order reaches the engine if and only if it asks for at least one lot and the fee on its limit can be computed. |
| `Requests.BuyerSettlesExactly` | tonic-dex/src/limit_order.rs:119-144 | A limit buyer settles if and only if nothing overflows, lock, trade and fee stay within the cap and the balance, and its list has room. |
| `Requests.SellerSettlesExactly` | tonic-dex/src/limit_order.rs:251-275 | A limit seller settles if and only if the fee fits the proceeds, nothing overflows, the base sold and locked stays within quantity and balance, and its list has room. |
| `Requests.MarketTakerSettlesExactly` | tonic-dex/src/market_order.rs:88-105 | A market taker settles if and only if its debit stays within limit and balance and its credit does not overflow. |
| `Requests.TradeSettlesExactly` | tonic-dex/src/settlement.rs:34-115 | A trade settles if and only if every fill does, the fee can be computed and covers the rebates, and the referrer's credit does not overflow. |
| `Requests.OrderSucceedsExactly` | tonic-dex/src/market/mod.rs:175-218 | An order goes through if and only if the guards of the call hold, it can be prepared, the engine answers it, makers and taker settle, the fees do not overflow and the taker's storage covers what it ends with. |
| `Requests.FeesAccrueInOrder` | tonic-dex/src/market_order.rs:97-106 | Which failure is reported: the overflow of the fees before the taker's for a limit order, after it for a market order. |
| `Requests.HopSucceedsExactly` | tonic-dex/src/swap_order.rs:59-152 | A hop goes through if and only if its market trades the token in hand, the fee on the amount can be computed, the engine answers, the makers settle, the amount covers the trade and the output reaches the minimum. |
| `Requests.SwapsSucceedExactly` | tonic-dex/src/swap_order.rs:35-57 | A swap goes through if and only if the contract is active, there are hops, the last one names a minimum, and the chain completes. |
| `Requests.ChainSucceedsExactly` | tonic-dex/src/swap_order.rs:43-52 | A chain goes on if and only if its next hop does, on what the hops before it produced. |
| `Protocols.WindowRefusesExactly` | tonic-dex/src/limit_order.rs:43-50 | An order is refused for its price if and only if it passes the guards of the call and its price is outside the window around the best one of its side, compared without rounding. |
| `Protocols.PlacedInsideWindow` | tonic-dex/src/limit_order.rs:184-191 | A limit order that goes through beside others is inside the window: a bid reaches its share of the best bid, an ask stays below one basis point above its share of the best ask. |
| `Orders.LimitBuyNeverOverspends` | tonic-dex/src/limit_order.rs:53-134 | Locked quote, traded quote and taker fee stay within the code's own maximum debit for every input that reaches the assertion; `Requests.LimitBuyKeepsCap` says what that is for the caller. |
| `Orders.NeverMoreThanAsked` | tonic-dex/src/limit_order.rs:262-264 | What an order of any type trades and rests together never exceeds the quantity it asks for; in particular a sell never oversells. |
| `Orders.TakerNeverBugs` | tonic-dex/src/limit_order.rs:119-134 | No assertion or subtraction of the taker phase of any order type can fail. |
| `Orders.TakerEffect` | tonic-dex/src/limit_order.rs:119-144 | The taker's account ends with its net entry in every token, the posted order on its list and the same storage deposit, for every order type and side. |
| `Orders.FillsWithinLimit` | tonic-dex/src/limit_order.rs:81-91 | Fills within the limit cost no more than their quantity at the raw limit price, however many roundings. |
| `Orders.AffordableExactly` | tonic-dex/src/limit_order.rs:72-79 | The two floor divisions admit a quantity if and only if its unrounded value at the limit fits the budget: nothing affordable is cut off. |
| `Orders.AffordableQty` | tonic-dex/src/limit_order.rs:72-79 | The quantity cut to the budget is worth no more than the budget. |
| `BidLife.LockCoversBidOverRuns` | tonic-dex/src/limit_order.rs:127-131 | The life of a posted bid through any run of calls: what it pays, what is refunded of it and what cancelling it now would give back stay within the amount locked at its posting, short by at most one unit for each of its fills at a whole-lot price and by nothing for even lots. |
| `BidLife.RunTakes` | tonic-dex/src/market/mod.rs:442-454 | The same from any sound state for any bid, by order id. |
| `BidLife.StepTakes` | tonic-dex/src/market/mod.rs:442-454 | Whatever is called, a bid keeps its price and owner, and what leaves it is paid to its owner or refunded, but for a unit a fill. |
| `BidLife.BidThroughFills` | tonic-dex/src/settlement.rs:40-67 | The same for one list of fills. |
| `OrderBook.BidLifetime` | tonic-dex/src/market/mod.rs:442-454 | The arithmetic of it: for any quantities taken in turn, payments plus final refund stay within the lock. |
| `OrderBook.ReduceAt` | tonic-dex/src/settlement.rs:40-50 | A consumed order keeps its place with what is left of it, or leaves it, and the others keep their order. |
| `OrderBook.InsertAt` | tonic-dex/src/market/v1.rs:186-200 | A posted order is inserted at its rank, and the others keep their order. |
| `OrderBook.BidsRelease` | tonic-dex/src/settlement.rs:41-44 | Filled bids give up the quote paid plus at most one unit of dust per fill. |
| `OrderBook.AsksRelease` | tonic-dex/src/settlement.rs:41-44 | Filled asks give up exactly the base traded. |
| `OrderBook.ValuesExactly` | tonic-dex/src/limit_order.rs:127-131 | The lock is quantity times lot times raw limit price, and a refund that with the price in lots, each divided by the denomination and rounded down once. |
| `OrderBook.LockCoversValue` | tonic-dex/src/limit_order.rs:127-131 | The lock at the raw limit price covers the refund at the price rounded down to lots, and equals it when the price is a whole number of lots. |
| `Settlement.MakersAreFolded` | tonic-dex/src/settlement.rs:34-92 | For any fill list every account ends with its old balance plus the proceeds of its own fills, and the returned totals are the sums over the list. |
| `Settlement.FillSettlesExactly` | tonic-dex/src/settlement.rs:41-67 | One fill settles if and only if its maker is registered, nothing overflows, and the maker's deposit covers its account without the consumed order and with the balance entries it gains. |
| `Settlement.MakersTotal` | tonic-dex/src/settlement.rs:34-92 | The total of all balances grows by what the makers receive together. |
| `Settlement.MakersAreFound` | tonic-dex/src/settlement.rs:46 | The maker of every fill is registered when its turn comes. |
| `Settlement.MakersKeepIndex` | tonic-dex/src/settlement.rs:46-67 | After the loop the lists agree with the consumed book, and no other market's lists moved. |
| `Settlement.MakersKeepAccounts` | tonic-dex/src/settlement.rs:46-67 | The maker phase leaves every account covered and capped, with the same storage deposits. |
| `Settlement.FirstErrorWins` | tonic-dex/src/settlement.rs:40-67 | A panic at one fill is the panic of the loop. |
| `Settlement.RebatesWithinFee` | tonic-dex/src/fees.rs:61-69 | Maker rebates floored fill by fill never exceed the taker fee floored once. |
| `Settlement.FeeSplitIsTotal` | tonic-dex/src/limit_order.rs:107-117 | The taker fee is rebates plus referral plus newly accrued fees, whether or not the referrer's save succeeds, and the referral is all or nothing. |
| `Settlement.FeeSplitNeverFails` | tonic-dex/src/limit_order.rs:107-117 | No subtraction of the split underflows, its assertion cannot fire, and the fee fits in the quote traded. |
| `Settlement.ReferrerIsPaidExactly` | tonic-dex/src/settlement.rs:96-115 | A named referrer is paid the whole remaining fee if and only if there is one, the referrer is registered, and its deposit covers the bytes of its account and of a new entry if it needs one; otherwise nothing. |
| `Fees.FeeExactly` | tonic-dex/src/fees.rs:61-69 | A fee is the rate in ten-thousandths of the amount, rounded down. |
| `Fees.WithholdExactly` | tonic-dex/src/fees.rs:71-74 | What is withheld from an amount is exactly the fee on all of it. |
| `Fees.FeeSplit` | tonic-dex/src/fees.rs:61-69 | Fees floored on the parts stay within the fee floored on the whole. |
| `Fees.WithholdingSuffices` | tonic-dex/src/fees.rs:71-74 | Whatever part of the withheld budget is spent, its own fee still fits the original amount. |
| `Fees.FeeWithin` | tonic-dex/src/fees.rs:66-69 | For any 8-bit rate the fee is at most the amount. |
| `StoredMarket.LotsExactly` | tonic-dex/src/market/v1.rs:138-148 | A conversion to lots that fits 64 bits loses less than a lot. |
| `StoredMarket.LotsWithin` | tonic-dex/src/market/v1.rs:138-148 | Converting to lots, truncation included, never exceeds the amount and fits 64 bits. |
| `StoredMarket.PowerOfTenLotsAreEven` | tonic-dex/src/market/v1.rs:30-43 | Power-of-ten lots that pass the metadata check make the denomination divide the product of the lot sizes. |
| `StoredMarket.EvenLotsExactly` | tonic-dex/src/market/v1.rs:30-43 | The denomination divides the product of the lot sizes if and only if no quantity at any price loses a unit by being split. |
| `StoredMarket.CheckedLotsMayBeUneven` | tonic-dex/src/market/mod.rs:250-266 | Lots that pass every check and still round: splitting a fill of three loses a unit. |
| `StoredAccount.DepositEffect` | tonic-dex/src/account/v1.rs:111-118 | A deposit adds to one balance and touches nothing else. |
| `StoredAccount.WithdrawEffect` | tonic-dex/src/account/v1.rs:122-136 | A withdrawal subtracts from one balance and touches nothing else. |
| `StoredAccount.SaveThenRemove` | tonic-dex/src/account/v1.rs:156-214 | Listing a fresh order and removing it restores the index. |
| `StoredAccount.SaveKeepsShape` | tonic-dex/src/account/v1.rs:156-178 | Listing keeps each market's list non-empty and within the cap. |
| `StoredAccount.RemoveKeepsShape` | tonic-dex/src/account/v1.rs:199-214 | Removing keeps that shape; a list that becomes empty is dropped. |
| `StoredAccount.RemoveKeepsOthers` | tonic-dex/src/account/v1.rs:199-214 | Removing an order leaves balances, deposit and what is remembered of every other order. |
| `StoredAccount.RemoveHas` | tonic-dex/src/account/v1.rs:199-214 | Removing forgets exactly the one order. |
| `StoredAccount.SaveSize` | tonic-dex/src/account/v1.rs:73-87 | Listing a fresh order takes exactly 117 bytes, and 192 with the set's overhead for the market's first. |
| `StoredAccount.RemoveSize` | tonic-dex/src/account/v1.rs:73-87 | Forgetting a listed order frees exactly these bytes, the market's with its last order. |
| `StoredAccount.RemoveAllSize` | tonic-dex/src/account/v1.rs:73-87 | Forgetting a market frees 117 bytes for each order and 192 with the set's overhead for the market. |
| `StoredAccount.EmptySize` | tonic-dex/src/storage.rs:22-24 | An account with nothing in it takes 134 bytes and an empty map. |
| `StoredAccount.SaveSucceedsExactly` | tonic-dex/src/account/v1.rs:156-178 | An order is listed if and only if its market's list is below the cap or new, with the given size and time, and nothing else changes. |
| `StoredAccount.BalancesMoveExactly` | tonic-dex/src/account/v1.rs:111-136 | A deposit fails only on overflow and always leaves an entry; a withdrawal succeeds if and only if there is an entry that large, and drops it when drained. |
| `StoredAccount.WithdrawSize` | tonic-dex/src/account/v1.rs:94-136 | A withdrawal frees the bytes of an entry that it drains, and no others. |
| `StoredAccount.DepositSize` | tonic-dex/src/account/v1.rs:94-118 | A deposit costs bytes only for a new entry. |
| `StoredAccount.SizeAtLeastAccount` | tonic-dex/src/storage_manager.rs:142-147 | The lock is never below the minimum of the storage bounds. |
| `Calls.DepositExactly` | tonic-dex/src/account/mod.rs:65-73 | A deposit goes through if and only if the contract is active and the account can hold it; it adds to that one balance and to what is held. |
| `Calls.WithdrawExactly` | tonic-dex/src/balances.rs:106-118 | A withdrawal from a covered account goes through if and only if the contract is active, the amount positive and an entry that large; it takes from that one balance and schedules one transfer to the caller. |
| `Calls.TransferExactly` | tonic-dex/src/balances.rs:120-144 | A scheduled transfer settles once, with its own amount. |
| `Calls.StorageDepositExactly` | tonic-dex/src/storage_manager.rs:27-61 | The four cases: a registered account asked only to register gets everything back; otherwise it adds the amount; a new account is refused below the minimum, keeps exactly the minimum if it only registers, and all of the amount if not. |
| `Calls.StorageWithdrawExactly` | tonic-dex/src/storage_manager.rs:101-121 | A storage withdrawal takes from the deposit what was asked for, or all that is not locked. |
| `Calls.UnregisterExactly` | tonic-dex/src/storage_manager.rs:127-140 | An account is unregistered if and only if it has no balance entries and no orders; its deposit is paid out. |
| `Calls.CreateMarketExactly` | tonic-dex/src/market/mod.rs:70-99 | A market is created if and only if it is new, trades two different tokens, pays makers less than it takes or nothing for both, and its lot sizes are one or positive multiples of ten; its book starts empty. |
| `Calls.HaltedMarketStandsStill` | tonic-dex/src/market/v1.rs:203-216 | Nothing but a new state from the owner touches a paused or uninitialised market: neither book nor fees nor terms. |
| `Calls.MarketStateStops` | tonic-dex/src/market/v1.rs:203-216 | No order or hop goes through a market that is not active, and no cancel through one that is neither active nor cancel-only. |
| `Calls.CallsNeed` | tonic-dex/src/lib.rs:111-132 | Which calls need an active contract, which one that is not paused, and which the owner. |
| `Calls.OrdersNeed` | tonic-dex/src/market/mod.rs:268-285 | An order that goes through asks for a positive quantity, at a positive price and within a positive limit where given. |
| `Calls.OwnerSets` | tonic-dex/src/admin.rs:17-22 | The owner, and nobody else, sets the states of contract and market, and nothing else with them. |
| `Account.Enumerate` | tonic-dex/src/account/v1.rs:182-188 | Collecting the keys of a map yields each of them once. |
| `Account.AccountV1.Deposit` | tonic-dex/src/account/v1.rs:111-118 | The object's balances change as the stored account's do, or the call fails with nothing changed. |
| `Account.AccountV1.Withdraw` | tonic-dex/src/account/v1.rs:122-136 | Likewise; an entry drained to zero disappears. |
| `Account.AccountV1.SaveNewOrderInfo` | tonic-dex/src/account/v1.rs:156-178 | Likewise for listing an order under the cap. |
| `Account.AccountV1.RemoveOrderInfo` | tonic-dex/src/account/v1.rs:199-214 | Likewise for removing one, reporting whether it was listed. |
| `Account.AccountV1.RemoveAllOrderInfos` | tonic-dex/src/account/v1.rs:182-188 | Returns every id listed for the market once, and forgets the market. |
| `Account.AccountV1.SizeInBytes` | tonic-dex/src/account/v1.rs:73-98 | The loops over balances and lists compute the sum that defines the account's size. |
| `Account.AccountV1.IsStorageCovered` | tonic-dex/src/account/v1.rs:231-237 | Tells whether the deposit covers the lock. |
| `Market.Market.IncrFeesAccrued` | tonic-dex/src/market/v1.rs:161-163 | Adds to the accrued fees, or fails with nothing changed. |
| `Market.Market.PlaceOrder` | tonic-dex/src/market/v1.rs:173-201 | A price-time matching loop that shows the engine assumption can be met: its answer meets `EngineOk`, its book is `NewBook`, every fill takes from the best order left, what is left of an order that may rest and crosses nothing rests behind every order at its price or better, it stops only when quantity, budget, book or limit is exhausted (on books without used-up orders, as all reachable ones are), and it fails only on a self-trade, with the book unchanged. |
| `Market.Market.CancelOrders` | tonic-dex/src/market/mod.rs:364 | Takes the orders off the book in turn, ending at the first that is missing. |
| `Contract.Contract.constructor` | tonic-dex/src/lib.rs:88-97 | A new contract is the deployed state. |
| `Contract.Contract.SaveAccount` | tonic-dex/src/account/mod.rs:27-35 | Stores a covered account, otherwise fails with nothing changed. |
| `Contract.Contract.SettleMaker` | tonic-dex/src/settlement.rs:41-67 | One turn of the maker loop on loaded and saved objects is the specified step. |
| `Contract.Contract.SettleMakerFills` | tonic-dex/src/settlement.rs:20-93 | The loop with its accumulators computes the specified fold over the fills. |
| `Contract.Contract.SettleReferrerRebate` | tonic-dex/src/settlement.rs:96-115 | Credits and saves the referrer, returning zero when it cannot be saved. |
| `Contract.Contract.SettleFills` | tonic-dex/src/limit_order.rs:93-117 | Makers, fee and referrer together are the specified trade, whose remainder is left to accrue. |
| `Contract.Contract.PayForBuy` | tonic-dex/src/limit_order.rs:119-144 | The buyer's settlement changes the loaded account as specified. |
| `Contract.Contract.PayForSell` | tonic-dex/src/limit_order.rs:251-275 | The seller's settlement likewise. |
| `Contract.Contract.PayForMarket` | tonic-dex/src/market_order.rs:88-105 | The market order's settlement likewise. |
| `Contract.Contract.PlaceOrder` | tonic-dex/src/market/mod.rs:188-210 | An order of any type run on the objects ends in the specified accounts, market and taker, or in the specified error; fees accrue before the taker of a limit order settles and after that of a market order. |
| `Contract.Contract.NewOrder` | tonic-dex/src/market/mod.rs:175-218 | The public call takes the state machine's step, or fails with its error and every field as before. |
| `Contract.Contract.InternalSwap` | tonic-dex/src/swap_order.rs:91-188 | A swap on the loaded market is the specified swap. |
| `Contract.Contract.ExecuteSwapAction` | tonic-dex/src/swap_order.rs:59-89 | One hop is the specified hop. |
| `Contract.Contract.ExecuteHops` | tonic-dex/src/swap_order.rs:41-52 | The loop over the hops computes the specified chain. |
| `Contract.Contract.ExecuteSwaps` | tonic-dex/src/swap_order.rs:28-57 | The public call takes the state machine's step or changes nothing. |
| `Contract.CreditRefunds` | tonic-dex/src/market/mod.rs:404-439 | The loop over cancelled orders credits the loaded account as specified. |
| `Contract.CreditRefund` | tonic-dex/src/market/mod.rs:418-435 | One refund: ownership check, amount, deposit, removal from the list. |
| `Contract.Contract.InternalCancelOrder` | tonic-dex/src/market/mod.rs:378-400 | The cancel on loaded objects is the specified cancel or changes nothing. |
| `Contract.Contract.InternalCancelAllOrders` | tonic-dex/src/market/mod.rs:355-375 | Likewise for all orders of an account. |
| `Contract.Contract.CancelOrder` | tonic-dex/src/market/mod.rs:167-171 | The public cancel takes the state machine's step. |
| `Contract.Contract.CancelAllOrders` | tonic-dex/src/market/mod.rs:157-163 | So does the public cancel of all orders. |
| `Contract.Contract.ClearOrderbook` | tonic-dex/src/market/mod.rs:331-352 | The loop over the snapshot, each turn reloading the stored market, takes the state machine's step or reverts to the start. |
| `Contract.Contract.DepositTokens` | tonic-dex/src/external_tokens/token_receiver.rs:11-27 | Deposits take the state machine's step. |
| `Contract.Contract.WithdrawTokens` | tonic-dex/src/balances.rs:106-118 | Withdrawals take the state machine's step. |
| `Contract.Contract.CallbackPostWithdraw` | tonic-dex/src/balances.rs:68-102 | The callback takes the state machine's step for the send it resolves. |
| `Contract.Contract.StorageDeposit` | tonic-dex/src/storage_manager.rs:27-61 | Takes the state machine's step and refunds what is not kept. |
| `Contract.Contract.StorageWithdraw` | tonic-dex/src/storage_manager.rs:101-121 | Takes the state machine's step. |
| `Contract.Contract.StorageUnregister` | tonic-dex/src/storage_manager.rs:127-140 | Takes the state machine's step. |
| `Contract.Contract.SetContractState` | tonic-dex/src/lib.rs:99-102 | Takes the state machine's step. |
| `Contract.Contract.SetMarketState` | tonic-dex/src/admin.rs:17-22 | Takes the state machine's step. |

## Left out

- The internals of the matching engine: the vector order book, id packing, price rank and best prices after an order; see `EngineOk` above.
- `Market.Market.PlaceOrder`: shows that the assumption can be met; it is not claimed to be the engine of the SDK, and `EngineOk` does not ask for best execution.
- Events, logs, gas (also as it moves the contract's NEAR) and serialisation. Of an event only the checked multiplication of its open or cancelled quantity is kept, because it can revert the call; the conversions of best prices in events are not.
- The version wrappers around accounts and markets, and the formatting of views; only the lookups behind the order views are covered.
- Market creation beyond its checks: the hashed market id, the metadata promise chain, the creation deposit. A market enters with its decimals known and open for trading; `CreateMarket` therefore covers only base decimals whose denomination fits 128 bits. The multi-token metadata callback does not run the lot check, so the lot condition is a hypothesis wherever it is needed.
- Owner actions outside the ledger: deleting markets, transferring ownership, forced unregistering, the setters of the price window. The owner's cancels are the same internal cancels with another caller check.
- The batch wrapper over actions, which keeps the yoctoNEAR its caller attaches, and parsing of messages sent along with tokens: arriving tokens are deposited or swapped.
- `Protocols.SequenceGrows`: the counter is unbounded here; the wrap-around of its 64 bits is not modelled.
- `Contract.Contract.StorageDeposit`: transfers of storage refunds back to a depositor are assumed to succeed, and NEAR kept for storage is counted apart from NEAR for trading.
- `Settlement.FeeSplitNeverFails`: a maker's settlement may fail its storage check, since a partial fill can add a balance entry without freeing an order; that is an ordinary failure here as in the source.
- `CancelProgress.CancelSucceeds`: that what is owed of a pair fits 128 bits follows from solvency when the holdings do, which is a fact about token contracts and stays a hypothesis; the claim about storage alone does not need it.
