# Verified model of the trading API and of the harness that checks it

The repository holds a small trading API (orders, portfolios, a PostgreSQL schema whose balances
are views over the orders table) and a harness that drives it, predicts what it will answer, breaks
its connections on purpose and audits its database. This project models both in Dafny and proves
the claims they make about each other.

## What is modelled

**The target.** `OrderRules`, `Ledger` and `Placement` give one placement and one cancel as a single
act on the orders table; a balance is never stored, it is a fold over the FILLED rows.
`OrdersService` is the code's own form: a repository and a service that run the statements one by
one on mutable state, proved equal to that act. `Protocol` takes the statements apart: any number of
placements, for any users and keys, each under its user's lock and each able to give up at any point
before its commit, interleave with cancels that take no lock and with closes that move. A step that
is not enabled does nothing, so every sequence of steps is a run and every theorem about `Run(s,
steps)` is about all of them. `ProtocolInvariant` keeps what the lock is for (what its holder has
read still equals the committed folds), `Serializability` turns that into the serial meaning of
every run and into one order per key, with `QuoteSources` for where each price came from, and
`Conflicts` and `FreshConflicts` for the one answer no serial order explains, `LedgerSafety` into no
overdraft and no oversell, `Portfolio` into conservation of value.

**The shadow.** `ShadowLedger` is the harness's mutable predictor, method by method. `ShadowWorld`
puts it beside the target: orders are sent, processed in any order, shed, answered in any order,
lost and processed later, generations are opened, users are seeded, closes move. `ShadowSoundness`
proves what its numbers are worth, `ShadowTrust` what they go by, `ShadowForesight` that it foresees
exactly the orders no run can refuse, once it has heard what was answered, `ShadowPromises` that a
predicted fill is filled even after the shadow has lost track of it, `ShadowStrays` by how much a
trusted shadow can be off, `ShadowRefusals` exactly when an order in flight can be refused and when
it can be filled, `Drift` what the balance comparison can report, `ShadowLimits` and
`ShadowOvertakes` the exact families where an unqualified claim about the shadow fails, and
`ShadowWitness` one run from a fresh ledger that reaches them. `JointRuns` ties the atomic target of
`ShadowWorld` to the interleaved one of `Protocol`, call by call, and carries agreement and
prediction soundness over; `JointRetries` is its call begun after the order was stored, and a run
that hides an answer and sends again. `Simulation` is the path of one order through the shadow, and
the read-backs that restore its trust.

**The audit.** `Money` proves the two pairs of decimal printers and parsers inverse and equal.
`Checkers` is the invariant checker with its loops, running minima and floors, each check proved
exact; `CheckersPass` proves that honest evidence of any run of harness and target passes all five,
but for conservation where an order strayed from a shadow it compares, and `RunEvidence` when what a
load run collects is honest evidence.

**The supporting state.** `AttemptsStore` and `AnomaliesStore` are the two rings (over `Rings`),
refining an unbounded log. `Backoffice` is the scan cursor and the reconciliation of lost orders,
`LostOrders` says when its verdict is final, `LogicalOrder` and `Gateway` follow one order through a
hidden answer, a timeout, a late commit and the retry, `HiddenOrders` follows it on to what is
pending and to its verdict, `LoadRun` is the accounting of a load run, `LoadWave` one wave of it
among other clients and the back office's scans, `CancelDance` its cancels against the target, and
`Profiles` its plan, which `ProfileShares` shows to spread as it should. `SeqSum` and `Options` are
helpers.

## Where the code and its comments disagree

The model follows the code. In each case the property is false in general; a run that breaks it is
built, and the exact condition is proved.

- `src/orders/orders.service.ts:85-94`: the status that explains a refused cancel is read after the
  UPDATE, so a 409 can say that an order is NEW. It does so exactly when the UPDATE saw no row and the
  re-read finds one, NEW (`StaleConflictIff`); known at the UPDATE, it can happen for an id handed out
  exactly when a NEW order of it is written and not committed (`ConflictOutlook`), and for one not handed
  out yet exactly when some user can rest an order (`FreshConflictOutlook`). `StaleConflictRun` builds a
  run.
- `tools/src/simulation/shadow-ledger.ts:236-242`: a cover does not survive an order in flight that
  holds nothing and may still fill: one whose price is not known, or one the user is short for while
  another is outstanding. For any orders in flight the target can refuse one exactly when others can
  fill in turn and leave too little (`RefusedInSomeRunIff`); for buys, exactly when some sub-collection
  of the others costs no more than the cash, and more with it (`PredictedFillIsRefusedIff`).
  `APredictedFillIsRefused` and `APredictedFillIsRefusedByAShortOne` build the runs;
  `PredictedFillsFill` proves the claim where every MARKET order was predicted to fill by a shadow still
  clean, through lost answers and everything after.
- `tools/src/simulation/shadow-ledger.ts:236-242`: with nothing else in flight a refusal is not sure
  either, since an order sent afterwards can be processed first. The target fills an order in some run
  exactly when others of the user can fill in turn and leave enough for it (`FilledInSomeRunIff`): a buy
  predicted REJECTED from rest, exactly when the sale behind it is held and makes up the difference
  (`PredictedRefusalFillsIff`). `APredictedRefusalIsFilled` builds a run, on which
  `tools/src/backoffice/detectors.ts:102-118` accuses a target that does nothing wrong.
- `tools/src/backoffice/detectors.ts:180-184`: equal snapshots do not mean that nothing moved between
  them. A buy and a sale around the read bring the shadow back to its figure, and the comparison
  reports a drift (`OutAndBackDrifts`, `ADriftIsInvented`); it does so exactly when the ledger moved
  between the snapshot and the read (`DriftIffLedgerMoved`), so never for a user nothing was sent for
  (`StandingStillNeverDrifts`).
- `tools/src/simulation/shadow-ledger.ts:74-76`: dropping the orders of an older generation is safe
  for the shadow's own sums but not for its agreement with the database (`ReseedForgetsTheFlight`,
  `ATrustedShadowIsWrong`). A trusted shadow at rest agrees exactly when what its seed misread and what
  landed since, unheard, add up to zero (`TrustedIsRightIffNothingStrayed`); a seed by one read with
  nothing in flight, and no answer lost since, makes it so (`ShadowAgrees`).
- `tools/src/load/load.service.ts:54-58`: one wave can outgrow the ring, since a send whose answer is
  hidden and retried leaves four rows. A wave is folded whole exactly when the rows recorded from its
  first call on fit the ring (`Wave`); up to a quarter of the ring wide it always is, with nobody else
  recording (`NarrowWaveFits`), and past that it need not be (`WideWaveIsNotFolded`).
  `SentIsAccountedFor` and `Unanswered` hold all the same.
- `tools/src/load/load.service.ts:361-366`: an answered call that the ring dropped is in the run's tally
  only if it was the run's own. The answers agree exactly when the rows nobody can name are within the
  allowance (`ReadingsPass`), as they are when every stored order is accounted for (`Collect`); an order
  of another client, answered and dropped since, is reported with nothing wrong
  (`ADroppedCallIsReported`).

## What is taken as given

- The per-user advisory lock is exclusive and held to commit or abort; a READ COMMITTED statement
  sees all committed rows and its own; one UPDATE is atomic; a portfolio reads one snapshot.
- The request validation of `src/orders/place-order.dto.ts:18-59`: a price exactly on LIMIT orders,
  exactly one of size and amount, and their ranges. Closes are not negative.
- Each order the harness sends carries a key nobody else uses, and in `JointRuns` every placement is
  the harness's own.
- Times, dice, database answers and replies are parameters: the theorems hold for all of them.

## Model

| member | source | states |
|---|---|---|
| OrderRules.ResolveSize | src/orders/order-rules.ts:44-65 | a size given is kept; a size from an amount is the largest count whose price fits, between 1 and 2147483647; both, neither, too little and too much are refused |
| OrderRules.DivideDown | src/orders/order-rules.ts:52-64 | truncating division of positive money is the floor, and a zero price never reaches it |
| OrderRules.SizedIffSomeCountFits | src/orders/order-rules.ts:54-64 | an amount is sized exactly when some count of 1 to 2147483647 shares fits it and one more does not |
| OrderRules.Cancellable | src/orders/orders.service.ts:30-32 | NEW is the only status a cancel can take |
| Ledger.ViewsAreFolds | src/portfolio/portfolio.repository.ts:32-56 | a view read with the missing row as zero is the fold of the FILLED rows, for cash and for any position, also one whose net is zero and has left the view |
| Ledger.TradeDelta | tools/src/load/invariants.ts:22-47 | a filled trade moves its size in shares and its worth at its price in cash, in opposite directions; anything else moves neither |
| Ledger.TransferDelta | db/init.sql:60-75 | a transfer moves its worth in or out and no shares, and a side nobody recognises moves nothing |
| Ledger.ByKey | src/orders/orders.repository.ts:78-88 | finds a row of the user under the key exactly when there is one |
| Ledger.FindId | src/orders/orders.repository.ts:106-115 | finds the row with an id exactly when there is one |
| Placement.Tradable | src/orders/orders.service.ts:165-186 | a quote is either refused with its own error or is of a tradable instrument with a close |
| Placement.AnswerIsExact | src/orders/orders.service.ts:109-186 | every answer a placement can get, each for exactly one reason: the key first, then the user, then what the quote lacks |
| Placement.AmountIsFloored | src/orders/orders.service.ts:126-137 | an order for an amount, bought or sold, is stored for the floor of the amount at the LIMIT or the close, and is a bad size exactly when no column-sized count is that floor |
| Placement.BuyByAmountIsCovered | src/orders/orders.service.ts:124-146 | a BUY for an amount the user has in cash is never REJECTED and never costs more than the amount |
| Placement.AcceptedIsCovered | src/orders/orders.service.ts:132-162 | a stored row carries the request, its type, and as price the LIMIT or the close, and is REJECTED exactly when the folds it was decided on do not cover it |
| Placement.StoredAsAsked | src/orders/orders.service.ts:148-162 | an order sized in shares under a free key is stored with the user, instrument, side, size and type asked for |
| Placement.OtherCommitKeepsView | src/orders/orders.service.ts:105-107 | a commit for another user changes nothing a placement reads |
| Placement.CancelKeepsView | src/orders/orders.service.ts:83-85 | a cancel changes no balance and no key of anybody, so it needs no lock |
| Placement.CancelKeepsKey | src/orders/orders.service.ts:111-118 | a key names the same order after a cancel, its status moved at most from NEW to CANCELLED |
| Placement.CancelIsExact | src/orders/orders.service.ts:82-98 | a cancel takes its order exactly while it is NEW, and a refusal names the status in the way |
| OrdersService.OrdersRepository.LockPlacements | src/orders/orders.repository.ts:41-48 | takes the user's lock |
| OrdersService.OrdersRepository.EndTransaction | src/orders/orders.service.ts:55-64 | the lock goes with its transaction |
| OrdersService.OrdersRepository.ByIdempotencyKey | src/orders/orders.repository.ts:78-88 | the row of the user under the key, if there is one |
| OrdersService.OrdersRepository.StatusOf | src/orders/orders.repository.ts:106-115 | no status exactly when no row has the id |
| OrdersService.OrdersRepository.Insert | src/orders/orders.repository.ts:63-76 | appends the row under the next id, or nothing where the unique index forbids it; the id is spent either way |
| OrdersService.OrdersRepository.CancelRow | src/orders/orders.repository.ts:90-102 | one conditional update: moves the row exactly when it is there and cancellable |
| OrdersService.OrdersService.PlaceWithin | src/orders/orders.service.ts:100-163 | the statements of one placement, in order, give the answer and the table of the atomic placement |
| OrdersService.OrdersService.PlaceOrder | src/orders/orders.service.ts:53-80 | a whole placement does too, and leaves the locks as they were |
| OrdersService.OrdersService.CancelOrder | src/orders/orders.service.ts:82-98 | update then status read is the atomic cancel |
| ProtocolInvariant.NextKeepsInv | src/orders/orders.service.ts:100-163 | every statement of every call keeps the invariant; its core is that what the lock holder has read still equals the committed folds |
| ProtocolInvariant.Reachable | src/orders/orders.service.ts:53-163 | the invariant holds in every state of every run: any users, keys, abort points, cancels and market moves |
| ProtocolInvariant.CommitKeepsInv | src/orders/orders.service.ts:148-162 | a commit keeps it: the row is new, newer than the user's other rows, and decided on the balance it leaves |
| ProtocolInvariant.CancelUpdateKeepsInv | src/orders/orders.repository.ts:90-102 | a cancel between a placement's read and its commit leaves what was read true |
| ProtocolInvariant.TxOkFrame | src/orders/orders.service.ts:105-107 | what a transaction knows survives any change its user's view does not show |
| Serializability.Serializable | src/orders/orders.service.ts:100-163 | every run leaves the table that its calls leave when run whole, one at a time, in the order of their effects, with the same answers, stale conflicts aside, each at a quote the market showed between its start and its end |
| QuoteSources.RunIsSourced | src/orders/orders.service.ts:124-186 | in every run each placement that looked anything up was decided with its user as the users table has it and at the quote some state of the run showed while it was being decided |
| Serializability.TableWellFormed | db/init.sql:32-34 | in every reachable state keys are unique per user, ids are unique and rise in commit order for each user, and the unique index has never fired |
| Serializability.OneHolderPerUser | src/orders/orders.repository.ts:39-48 | two transactions of one user are never both between their lock and their end |
| Conflicts.ConflictIsFinalOnceSeen | src/orders/orders.service.ts:85-94 | a 409 whose UPDATE saw the row names a final status |
| Conflicts.StaleConflictIff | src/orders/orders.service.ts:85-94 | a cancel that missed answers NEW exactly when its UPDATE saw no row and the row is there, NEW, at its re-read |
| Conflicts.StaleConflictHappens | src/orders/orders.service.ts:85-94 | from any state with a NEW order written and not committed, a cancel around the commit answers 409 naming NEW |
| Conflicts.StaleConflictRun | src/orders/orders.service.ts:85-94 | such a run exists, step by step, from a seed |
| Conflicts.ConflictOutlook | src/orders/orders.service.ts:85-94 | known at the UPDATE: an id handed out can be answered NEW in some continuation exactly when a NEW order of it is written and not committed then; a committed one and one that was rolled back never is |
| FreshConflicts.FreshConflictOutlook | src/orders/orders.service.ts:85-94 | an id not handed out yet can be exactly when some user has a centavo, or a share of an instrument that trades, or no debt and room before that id to be given shares at a close of zero |
| FreshConflicts.NextKeepsBarred | src/orders/orders.service.ts:100-163 | where no user has, no step of any call gives anybody the means |
| Serializability.KeyKeepsItsOrder | src/orders/orders.service.ts:111-118 | once a key names an order it names that order for ever |
| Serializability.EffectOnKey | src/orders/orders.service.ts:111-118 | a key becomes taken by a 201 under it and by nothing else |
| Serializability.OneOrderPerKey | src/orders/orders.service.ts:111-118 | after one answer under a key every later answer is a replay of that order, unchanged but for a cancel |
| Serializability.KeyTakenIffCreated | src/orders/orders.service.ts:109-118 | a key is taken exactly when the seed or a 201 took it: a refusal or an abort leaves it free |
| Serializability.RetryNamesSameOrder | src/orders/orders.service.ts:111-118 | a client answered once that sends again is told of the same order or is shed |
| Serializability.TwoCallsOneOrder | src/orders/orders.service.ts:111-118 | two answered calls of one logical order name the same order, and one of them at most was a 201 |
| LedgerSafety.CreatedPaysForItself | src/orders/order-rules.ts:76-83 | an accepted row pays for itself out of the table it was decided on |
| LedgerSafety.AppendIsSafe | src/orders/order-rules.ts:76-83 | such a row takes no prefix of cash below zero and no position below both zero and where it was |
| LedgerSafety.CancelKeepsSafe | src/orders/orders.service.ts:83-85 | a cancel moves no prefix of any fold |
| LedgerSafety.SerialIsSafe | tools/src/load/invariants.ts:139-211 | any serial history keeps a solvent user solvent and sells nothing that was not held |
| LedgerSafety.ReachableIsSafe | src/orders/orders.service.ts:105-107 | so does every run of the interleaved protocol |
| LedgerSafety.PositionFloor | tools/src/load/invariants.ts:171-174 | a position never falls below the least of zero and its lowest point in the seed, short positions included |
| Portfolio.TotalIsFolds | src/portfolio/portfolio.service.ts:48-52 | the total is the cash fold plus every listed position at its close, vanished positions counting zero |
| Portfolio.PositionIsExact | src/portfolio/portfolio.repository.ts:58-80 | lists each instrument of the catalogue that is not currency and of which the shares are not zero, with those shares, worth what they are at its close, or nothing without one |
| Portfolio.FillCancelsOut | src/portfolio/portfolio.service.ts:49-52 | what a fill takes in cash it gives back in shares at the close, to the centavo |
| Portfolio.FillMovesOneWorth | src/portfolio/portfolio.repository.ts:58-80 | a row moves the worth of its own position and of no other |
| Portfolio.SerialKeepsValue | src/portfolio/portfolio.service.ts:38-52 | any serial history at fixed closes leaves every user's total value where it was |
| Portfolio.ValueIsConserved | src/portfolio/portfolio.service.ts:38-52 | so does every run of the protocol at fixed closes, wherever the portfolio is read |
| Portfolio.TornReadMissesTheOrder | src/portfolio/portfolio.service.ts:38-46 | cash and holdings read from two different tables miss an order: the one snapshot is needed |
| ShadowLedger.ShadowLedger.Reseed | tools/src/simulation/shadow-ledger.ts:77-83 | opens a generation with every given user blank |
| ShadowLedger.ShadowLedger.Seed | tools/src/simulation/shadow-ledger.ts:85-103 | adopts a portfolio in its own generation only, trusted only with nothing outstanding |
| ShadowLedger.ShadowLedger.ReserveOrder | tools/src/simulation/shadow-ledger.ts:110-136 | holds aside exactly what an expected fill would consume |
| ShadowLedger.ShadowLedger.SettleReservation | tools/src/simulation/shadow-ledger.ts:142-168 | learns the close of a MARKET answer, lets the hold go in its own generation, and moves cash and shares of a fill |
| ShadowLedger.ShadowLedger.LoseReservation | tools/src/simulation/shadow-ledger.ts:174-179 | lets the hold go and stops trusting the user |
| ShadowLedger.ShadowLedger.Release | tools/src/simulation/shadow-ledger.ts:245-257 | a reservation of an older generation or of an unknown user changes nothing |
| ShadowWorld.AfterKeeps | tools/src/simulation/shadow-ledger.ts:110-179 | every act of the harness or the target keeps the books of every user and the agreement of every cleanly seeded one |
| ShadowWorld.ActsKeep | tools/src/simulation/shadow-ledger.ts:77-179 | and so does every run from a fresh ledger |
| ShadowWorld.SendKeeps | tools/src/simulation/shadow-ledger.ts:110-136 | a reservation joins the sums it is part of |
| ShadowWorld.ProcessKeeps | src/orders/orders.service.ts:100-163 | an order the target processes becomes owed to the shadow by exactly its move |
| ShadowWorld.DeliverKeeps | tools/src/simulation/shadow-ledger.ts:142-168 | a settlement takes its own reservation out of the sums and pays what was owed |
| ShadowWorld.VanishKeeps | tools/src/simulation/shadow-ledger.ts:170-179 | a lost answer takes its reservation out and the user out of the trusted ones |
| ShadowWorld.NewGenerationKeeps | tools/src/simulation/shadow-ledger.ts:74-83 | old reservations stop counting in every sum |
| ShadowWorld.SeedKeeps | tools/src/simulation/shadow-ledger.ts:85-103 | a seed that reads cash and shares as they are, at any closes, with nothing in flight starts in agreement |
| ShadowWorld.ClosesMayMove | tools/src/simulation/shadow-ledger.ts:85-103 | closes that move between the portfolio's read and its seed change neither figure the shadow keeps |
| ShadowWorld.SeedReadsFolds | tools/src/simulation/shadow-ledger.ts:91-97 | the seeded shares are the folds of every listed instrument |
| ShadowSoundness.BooksBalance | tools/src/simulation/shadow-ledger.ts:77-168 | over any run outstanding and both holds are the sums over the live reservations, and outstanding is zero exactly when none is live |
| ShadowSoundness.RejectedMeansShort | tools/src/simulation/shadow-ledger.ts:236-242 | a predicted rejection is short of the user's whole balance |
| ShadowSoundness.ShadowAgrees | tools/src/simulation/shadow-ledger.ts:138-168 | a cleanly seeded user with nothing outstanding has the database's cash and shares, whatever order the answers came in |
| ShadowSoundness.AloneTheShadowIsExact | tools/src/simulation/shadow-ledger.ts:210-243 | with nothing outstanding and prices current the prediction is exactly the decision |
| ShadowTrust.PriceIsTheLastAnswered | tools/src/simulation/shadow-ledger.ts:142-150 | over any run the learned price is the one the last MARKET answer was executed at, FILLED or REJECTED, of this generation or an older one |
| ShadowTrust.LearnsWhatIsAnswered | tools/src/simulation/shadow-ledger.ts:142-150 | nothing else moves a price |
| ShadowTrust.OpinionNeedsTrust | tools/src/simulation/shadow-ledger.ts:210-243 | the shadow has an opinion only of a MARKET order at a learned price of a trusted user, always where nothing else is out, and holds nothing for an order it does not expect to fill |
| ShadowTrust.TrustReturns | tools/src/simulation/shadow-ledger.ts:85-103 | an untrusted user is trusted again exactly by a portfolio read in this generation with nothing outstanding |
| ShadowTrust.UntrustedUntilRead | tools/src/simulation/shadow-ledger.ts:170-179 | from a lost answer or a new generation on, until such a read, no order of the user is foreseen and none holds anything |
| ShadowTrust.ReadBackIsAskedIffItHelps | tools/src/simulation/shadow-ledger.ts:181-192 | a read-back is asked for exactly when the user is not trusted and would be once read |
| ShadowPromises.CoversPromise | tools/src/simulation/shadow-ledger.ts:236-240 | where every order of the user in flight is backed by its hold, the committed balance covers all of them together |
| ShadowPromises.PromisedFills | tools/src/simulation/shadow-ledger.ts:236-240 | so the target fills whichever it processes next, one the harness has given up on included |
| ShadowPromises.ProcessKeepsPromise | src/orders/orders.service.ts:100-163 | what the target fills takes no more than it was promised, and anything else takes nothing of the user's |
| ShadowPromises.KeepingRunKeeps | tools/src/simulation/shadow-ledger.ts:74-179 | the cover outlives the shadow's trust: it stands over any run that keeps the closes and sends the user's MARKET orders only from a clean shadow that predicts they fill, through lost answers, new generations and new seeds |
| ShadowPromises.PredictedFillsFill | tools/src/simulation/shadow-ledger.ts:210-243 | in such a run the target fills every one of them it processes, for every processing order, every shed subset and every order of answers, and after any of them is lost, the shadow read again or its generation closed |
| ShadowForesight.ForeseenIffNeverRefused | tools/src/simulation/shadow-ledger.ts:227-242 | behind orders that were all predicted to fill, some run refuses a MARKET order exactly when it needs more than the shadow counts as unheld and is yet to hear of: a predicted fill is never refused, and one never refused is a predicted fill unless the difference is in an answer on its way |
| ShadowForesight.ForeseenOverRuns | tools/src/simulation/shadow-ledger.ts:227-242 | so over runs, with no answer on its way, a MARKET order is predicted FILLED exactly when no undisturbed run refuses it |
| ShadowForesight.ARefusalOnItsWay | tools/src/simulation/shadow-ledger.ts:227-242 | with a refusal on its way, an order that no run refuses is not foreseen |
| ShadowStrays.AfterTracks | tools/src/simulation/shadow-ledger.ts:74-179 | every act keeps a trusted shadow, what it is going to be told and what strayed from it equal to the database, in cash and in each position |
| ShadowStrays.StrayIsTheGap | tools/src/simulation/shadow-ledger.ts:74-103 | in any run from a fresh ledger a trusted shadow with nothing outstanding is off by exactly what its seed misread and what landed since of older generations and of orders given up on |
| ShadowStrays.TrustedIsRightIffNothingStrayed | tools/src/simulation/shadow-ledger.ts:74-103 | so it has the cash and the shares of the database exactly when that sum is zero, as it is for a user seeded by one read at rest that lost no answer |
| ShadowRefusals.RefusedInSomeRunIff | tools/src/simulation/shadow-ledger.ts:236-242 | any orders in flight, bought or sold, predicted or not: the target refuses one in some run exactly when others of the user can fill in turn and leave too little for it |
| ShadowRefusals.FilledInSomeRunIff | tools/src/simulation/shadow-ledger.ts:236-242 | and fills it in some run exactly when some of them can fill in turn and leave enough |
| ShadowRefusals.ExhaustibleIffSomeCost | tools/src/simulation/shadow-ledger.ts:236-242 | for buys the order of filling drops out: exactly when some sub-collection of the others is one the cash pays for, and not with this one |
| ShadowRefusals.BuyRefusedInSomeRunIff | tools/src/simulation/shadow-ledger.ts:236-242 | a buy in flight can be refused exactly then |
| ShadowLimits.PredictedFillIsRefusedIff | tools/src/simulation/shadow-ledger.ts:236-242 | among any number of buys sent together from rest, predicted or not, a predicted fill is REJECTED in some run exactly when some sub-collection of the others costs no more than the cash, and more with it |
| ShadowLimits.BlindOrderBreaksTheCover | tools/src/simulation/shadow-ledger.ts:236-242 | with two: a predicted fill behind an order of unknown price is REJECTED in some run exactly when the balance pays for the first order and not for both |
| ShadowLimits.LaterOrderBreaksTheCover | tools/src/simulation/shadow-ledger.ts:236-242 | so is one sent before an order the shadow is short for and expects nothing of |
| ShadowOvertakes.PredictedRefusalFillsIff | tools/src/simulation/shadow-ledger.ts:236-242 | a buy predicted REJECTED from rest is filled in some run behind a later sale exactly when the sale is held and makes up the difference |
| ShadowOvertakes.APredictedRefusalIsFilled | tools/src/backoffice/detectors.ts:102-118 | in a run from a fresh ledger an order predicted REJECTED is answered FILLED by a target that does nothing wrong |
| ShadowLimits.OutAndBackDrifts | tools/src/backoffice/detectors.ts:180-226 | a buy and a sale settled around the balance read make the comparison report a drift nobody caused |
| ShadowLimits.ReseedForgetsTheFlight | tools/src/simulation/shadow-ledger.ts:74-83 | a generation opened and seeded over an order in flight leaves a trusted shadow at rest that differs from the database exactly when that order was filled for anything but nothing |
| ShadowWitness.WarmupRuns | tools/src/simulation/shadow-ledger.ts:77-168 | a run from a fresh ledger reaches a world those three start from |
| ShadowWitness.APredictedFillIsRefused | tools/src/simulation/shadow-ledger.ts:236-242 | in a run from a fresh ledger an order predicted FILLED is REJECTED |
| ShadowWitness.APredictedFillIsRefusedByAShortOne | tools/src/simulation/shadow-ledger.ts:236-242 | and so is one whose rival was UNKNOWN only because the user was short with that order outstanding |
| ShadowWitness.ADriftIsInvented | tools/src/backoffice/detectors.ts:180-226 | in such a run two quiet snapshots agree and the balance between them differs |
| ShadowWitness.ATrustedShadowIsWrong | tools/src/simulation/shadow-ledger.ts:74-103 | in such a run a seeded, trusted shadow with nothing outstanding differs from the database |
| JointRuns.CommitIsProcessing | src/orders/orders.service.ts:148-163 | a commit of the interleaved target is the processing of its order: still pending, under a free key, answered with the row the transaction wrote |
| JointRuns.TargetsMoveTogether | src/orders/orders.service.ts:53-163 | every move of harness and target together, a call begun before or after its order was stored included, leaves the atomic target and the interleaved one with the same rows, users and closes |
| JointRuns.JNextKeeps | tools/src/simulation/simulation.service.ts:317-344 | and keeps each call tied to its order: until it is over the order is pending, or its key names a row |
| JointRuns.JointRunIsBoth | tools/src/simulation/simulation.service.ts:317-344 | a joint run is a run of the protocol and a run of the harness |
| JointRuns.ShadowAgreesOverRuns | tools/src/simulation/shadow-ledger.ts:138-168 | against the interleaved target a trusted shadow with nothing outstanding is off by what strayed, and by nothing for a cleanly seeded user |
| JointRuns.PredictedFillsFillInRuns | tools/src/simulation/shadow-ledger.ts:210-243 | while closes stand and MARKET orders are sent from a clean shadow that predicts they fill, each one that commits in the interleaved target commits FILLED, sent again or given up on as it may be |
| JointRetries.AJointRunIsCovered | tools/src/simulation/simulation.service.ts:277-292 | a joint run from a fresh harness reaches a cleanly seeded user at rest before the interleaved target, where both of those speak |
| JointRetries.RetryReplays | tools/src/gateway/gateway.service.ts:87-115 | from any state of a joint run a call begun after its order was stored is answered with a replay of the row its key names, and moves nothing |
| JointRetries.AHiddenAnswerIsReplayed | tools/src/gateway/gateway.service.ts:57-66 | in a joint run an order is stored, its answer hidden, and the call sent after it answered with the same row; the harness then gives the order up |
| Simulation.SimulationService.Answered | tools/src/simulation/simulation.service.ts:321-344 | settle or lose, complete the row if it is retained, and ask for a read-back exactly when one can help; keeps that an idle untrusted user is being read, or its last read brought nothing |
| Simulation.SimulationService.Prepare | tools/src/simulation/simulation.service.ts:277-284 | a new shadow, every user of it about to be read |
| Simulation.SimulationService.Reserving | tools/src/simulation/simulation.service.ts:316-320 | a reservation keeps that too |
| Simulation.SimulationService.ReadDone | tools/src/simulation/simulation.service.ts:286-292 | a read that came back seeds its generation or nothing, and keeps that too |
| Simulation.SimulationService.AllHealed | tools/src/simulation/simulation.service.ts:346-365 | with no read under way and none that failed, every idle user is seeded and trusted |
| Simulation.SimulationService.Count | tools/src/simulation/simulation.service.ts:302-311 | every answer is counted once |
| Simulation.ReadBackHeals | tools/src/simulation/simulation.service.ts:341-343 | one read-back restores trust, or the last order sent meanwhile asks for another |
| Drift.DriftFindings | tools/src/backoffice/detectors.ts:185-226 | counts the users both snapshots show alike, trusted and at rest, and reports exactly those of them whose API figure differs, with both figures |
| Drift.SnapshotsComparedIff | tools/src/backoffice/detectors.ts:185-212 | two snapshots of the shadow are compared exactly for a user both show seeded, trusted, at rest and at one figure, and the API at all |
| Drift.ComparableCash | tools/src/load/load.service.ts:417-442 | keeps exactly the balances that stood still and are trusted |
| Drift.StillCash | tools/src/load/load.service.ts:388-411 | a reading is evidence exactly when both reads gave the same figure |
| Drift.DriftIffLedgerMoved | tools/src/backoffice/detectors.ts:180-184 | for a user at rest the comparison differs exactly when the ledger moved between the snapshot and the read |
| Drift.StandingStillNeverDrifts | tools/src/backoffice/detectors.ts:180-226 | a user nothing is sent for never drifts, whatever the others do |
| Drift.NoSendNoMove | tools/src/backoffice/detectors.ts:180-184 | without an order of the user's own, shadow and folds of the user stand still |
| Drift.ConservationHolds | tools/src/load/invariants.ts:91-137 | and all balances of the conservation check agree for that user |
| Money.ParseUndoesPrint | src/money.ts:8-30 | parsing a printed amount gives it back, for every integer |
| Money.PrintIsInjective | src/money.ts:24-30 | two amounts never print alike |
| Money.PrintUndoesParseIffCanonical | src/money.ts:6-30 | printing a parsed text gives it back exactly when it is the two-decimal form without leading zeros or a negative zero |
| Money.MatchIsComplete | src/money.ts:6-14 | every text of the grammar is recognised, as the parts it is made of |
| Money.MoneyOfIsApiString | tools/src/load/invariants.ts:13-17 | the harness prints every amount as the API does |
| Money.ParsersAgree | tools/src/load/invariants.ts:6-11 | the harness reads every text of the grammar as the API does |
| Checkers.ByUser | tools/src/load/invariants.ts:49-57 | groups the rows by user in first-seen order, each group the user's own rows in table order |
| Checkers.LowestFold | tools/src/load/invariants.ts:148-157 | the running minimum of a user's fold and the first row that reached it |
| Checkers.NoOverdraft | tools/src/load/invariants.ts:143-169 | fails exactly when some prefix of some user's cash is negative, and names the lowest point and the first row at it |
| Checkers.NoOversell | tools/src/load/invariants.ts:175-211 | reports, in order, exactly the rows past the mark that put their position under its floor, users and instruments interleaved anyhow |
| Checkers.FloorIsUnder | tools/src/load/invariants.ts:185-193 | the floor is at most zero and at most every fold up to the mark |
| Checkers.FloorIsReached | tools/src/load/invariants.ts:185-193 | and is zero or one of them |
| Checkers.SinksMeans | tools/src/load/invariants.ts:183-198 | a row past the mark sinks exactly when it leaves its position lower than zero and than it had been after any row up to the mark |
| Checkers.OversellsNamed | tools/src/load/invariants.ts:191-195 | each is reported with its position, the row, what that left and how low it had been |
| Checkers.NothingOversoldIff | tools/src/load/invariants.ts:175-211 | it reports nothing exactly when no row sinks |
| Checkers.Conservation | tools/src/load/invariants.ts:91-137 | passes exactly when every balance that was read prints the fold of its user and any shadow balance beside it does too, and reports exactly those that do not, with both figures |
| Checkers.ResponseDbAgreement | tools/src/load/invariants.ts:223-289 | passes exactly when every answered order has its row and agrees with it, and unmatched rows are within the allowance |
| Checkers.CancelSafety | tools/src/load/invariants.ts:295-344 | passes exactly when every cancelled id reads CANCELLED; dropping the cancelled rows never moves a fold |
| Checkers.UnmatchedAreCounted | tools/src/load/invariants.ts:265-271 | the rows counted against the allowance are those past the mark that nobody acknowledged |
| Checkers.CheckInvariants | tools/src/load/invariants.ts:357-370 | the five verdicts together, each said of the rows, the balances and the answers themselves: size, price and status of every answer, folds of every prefix |
| CheckersPass.NoOverdraftPasses | tools/src/load/invariants.ts:139-169 | on every reachable ledger, for users solvent in the seed, no overdraft is reported |
| CheckersPass.NoOversellPasses | tools/src/load/invariants.ts:171-211 | on every reachable ledger, from any seed and for any mark at or past it, no oversell is reported |
| CheckersPass.ResponsesAgree | tools/src/load/invariants.ts:235-263 | every answered placement agrees with its row, NEW to CANCELLED by a cancel of the run excused |
| CheckersPass.NoPhantoms | tools/src/load/invariants.ts:265-279 | rows nobody was answered for never exceed the unanswered calls |
| CheckersPass.CancelSafetyPasses | tools/src/load/invariants.ts:302-311 | an order answered as cancelled reads CANCELLED |
| CheckersPass.UnmatchedAreSilent | tools/src/load/invariants.ts:267-271 | each unmatched row is owed to an unanswered call of its own |
| CheckersPass.ConservationOverRuns | tools/src/load/invariants.ts:91-137 | on the table of any run, whoever read the balances, conservation passes exactly when each prints the user's fold of the run and the shadow's beside it does |
| CheckersPass.ReadingsPass | tools/src/load/invariants.ts:357-370 | on honest readings of any run of the protocol three checks pass, conservation reports exactly a comparable shadow that is off, and the answers agree exactly when the rows nobody can name are within the allowance |
| CheckersPass.ReachableRunPasses | tools/src/load/invariants.ts:357-370 | on honest evidence, where the allowance covers the silent calls, four checks pass and conservation does the same |
| RunEvidence.AllowanceCovers | tools/src/load/load.service.ts:343-371 | the calls that stored an order nobody can name are within the allowance when each is one of the run's own that went unanswered, or anybody's that did, in the run's window, and that the ring still holds |
| RunEvidence.Collect | tools/src/load/load.service.ts:304-345 | what a run hands to its check, from its own books: the ids it can name, the allowance, and honest evidence whenever every stored order is accounted for so |
| RunEvidence.ADroppedCallIsReported | tools/src/load/load.service.ts:361-371 | with nothing unanswered, an order of another client, answered and dropped by the ring, fails the agreement check of a target that did nothing wrong |
| CheckersPass.JointRunPasses | tools/src/load/invariants.ts:357-370 | the shadow read off the run as well: conservation passes exactly when nothing strayed from a shadow it compares, and all five pass when those users were seeded at rest and lost no answer |
| AttemptsStore.AttemptsStore.Record | tools/src/store/attempts.store.ts:49-65 | appends to the log under the next id; the ring stays its newest part |
| AttemptsStore.AttemptsStore.Annotate | tools/src/store/attempts.store.ts:67-74 | changes exactly the named row if it is retained and nothing otherwise, for any integer id |
| AttemptsStore.AttemptsStore.Recent | tools/src/store/attempts.store.ts:76-84 | the newest rows, as many as asked for and held, newest first |
| AttemptsStore.AttemptsStore.PositionOf | tools/src/store/attempts.store.ts:67-68 | attempt N sits in slot N - 1 modulo the capacity |
| AttemptsStore.Annotated | tools/src/store/attempts.store.ts:69-74 | an annotation changes neither the id nor what was measured, nor what the call was |
| AnomaliesStore.AnomaliesStore.Record | tools/src/backoffice/anomalies.store.ts:26-41 | a finding gets the next id ever |
| AnomaliesStore.AnomaliesStore.Clear | tools/src/backoffice/anomalies.store.ts:57-64 | empties the ring and keeps counting ids |
| AnomaliesStore.AnomaliesStore.Recent | tools/src/backoffice/anomalies.store.ts:43-51 | the newest findings since the last clear, newest first, ids strictly falling |
| Rings.BackSlot | tools/src/store/attempts.store.ts:76-84 | counting back from the cursor finds the newest rows in a filling and in a full ring |
| Rings.SlotsDiffer | tools/src/store/attempts.store.ts:67-68 | rows less than a lap apart never share a slot |
| Backoffice.BackofficeService.Scan | tools/src/backoffice/backoffice.service.ts:167-204 | looks at every retained row past the cursor up to the first that landed too recently, in id order, and passes over no row the ring holds |
| Backoffice.BackofficeService.Look | tools/src/backoffice/backoffice.service.ts:171-203 | one row: counted if expected, pending if lost, and the cursor moves last |
| Backoffice.BackofficeService.SimulatedAreCounted | tools/src/backoffice/backoffice.service.ts:194-196 | the simulated orders are the rows looked at that carry an expectation, notes aside |
| Backoffice.BackofficeService.Due | tools/src/backoffice/backoffice.service.ts:208-210 | the candidates whose late-commit time has passed, in id order |
| Backoffice.BackofficeService.Acknowledged | tools/src/backoffice/backoffice.service.ts:215-220 | the order ids of the retained answers |
| Backoffice.BackofficeService.SettleAll | tools/src/backoffice/backoffice.service.ts:222-254 | settles due candidates in id order up to the first the database cannot be read for, and records for each that it was lost and, where a retried one has two rows, that it was executed twice |
| Backoffice.FindingsOn | tools/src/backoffice/detectors.ts:152-155 | one finding for a candidate, two exactly when it was retried and two rows or more answer its key |
| Backoffice.OneFindingEach | tools/src/backoffice/backoffice.service.ts:222-254 | a pass makes one finding for each candidate exactly when none it read had been retried and has two rows |
| Backoffice.BackofficeService.OthersRecord | tools/src/store/attempts.store.ts:49-74 | calls of other clients, and annotations, do not disturb the cursor |
| Backoffice.BackofficeService.Reconcile | tools/src/backoffice/backoffice.service.ts:206-258 | that, with the run stamp and the error of the outcome, and no question asked when nothing is due |
| Backoffice.LookingKeepsAccounts | tools/src/backoffice/backoffice.service.ts:195-199 | a row looked at keeps each lost candidate in exactly one of pending and settled |
| Backoffice.SettlingKeepsAccounts | tools/src/backoffice/backoffice.service.ts:206-258 | so does any reconciliation, and none is settled before its late-commit time |
| Backoffice.NoneSettledEarly | tools/src/backoffice/detectors.ts:176-177 | what a pass settles was sent at least sixteen seconds before |
| Backoffice.SettlingMoves | tools/src/backoffice/backoffice.service.ts:238-246 | exactly the settled candidates leave pending, and what was settled before stays as it was |
| Backoffice.NonePassedOver | tools/src/backoffice/backoffice.service.ts:171-177 | a scan that starts past the ring's oldest row has skipped only rows the ring dropped |
| LostOrders.VerdictIsFinal | tools/src/backoffice/detectors.ts:120-142 | with no call under the key in flight the verdict on a lost order holds in every continuation |
| LostOrders.NeverProcessedWasNeverAnswered | tools/src/backoffice/detectors.ts:122-131 | an order called never processed was named in no answer |
| LostOrders.DuplicateNeverFires | tools/src/chaos/rules.ts:10-17 | with the rows of any run of the target, the duplicate-execution rule fires on no candidate, retried or not |
| LogicalOrder.AtMostOneRow | db/init.sql:32-34 | in every run the look-up by key finds at most one row |
| LogicalOrder.AnsweredOrderIsFound | src/orders/orders.service.ts:111-118 | an order named in an answer is the row it finds, unchanged but for a cancel |
| LogicalOrder.OneKeyPerOrder | src/orders/orders.service.ts:111-118 | two answers name the same order exactly when they were given under one user and key |
| LogicalOrder.MatchIsByKey | tools/src/backoffice/reconciler.ts:13-19 | where keys are unique the harness's look-up is the target's own |
| LogicalOrder.LookupIsFinal | tools/src/backoffice/detectors.ts:7-19 | once no call under a key is in flight and none is sent again, what the look-up finds is final |
| LogicalOrder.EarlyLookupIsNotFinal | tools/src/backoffice/detectors.ts:7-19 | made sooner it can find nothing one step before the order lands |
| LogicalOrder.NextKeepsSpent | src/orders/orders.service.ts:111-118 | no step of any other call changes what a spent key names |
| Gateway.GatewayService.Send | tools/src/gateway/gateway.service.ts:43-81 | leaves exactly the rows of its trace and tells the caller of the first call only |
| Gateway.GatewayService.SendFirst | tools/src/gateway/gateway.service.ts:50-76 | the first call's row, its answer hidden or not, and the note of the hiding |
| Gateway.GatewayService.Probe | tools/src/gateway/gateway.service.ts:87-115 | the retry's row and note, and the link back if the retried row is retained |
| Gateway.TraceIsHonest | tools/src/gateway/gateway.service.ts:43-115 | all calls of a send carry the one key, a hidden status is kept, and the rows of a retry name each other |
| Gateway.OneLogicalOrder | tools/src/gateway/gateway.service.ts:83-115 | whatever is hidden, silent or late, both calls that name an order name the one row the look-up finds, and one at most is a 201 |
| HiddenOrders.CandidatesOfATrace | tools/src/backoffice/detectors.ts:164-174 | the first row of a send owes an order exactly when it places one and its answer was hidden or never came, a retry's exactly when its own never came, a note never |
| HiddenOrders.FirstRowIsHonest | tools/src/gateway/gateway.service.ts:54-76 | the first row says when the call went out, how long its caller waited with the delay in it, and what the caller was told |
| HiddenOrders.RetryRowIsHonest | tools/src/gateway/gateway.service.ts:87-115 | a placement without an answer is sent again exactly when the dice say so, and the retry's row has the order and the status it was answered with |
| HiddenOrders.OnlySilenceHidesAnOrder | tools/src/backoffice/detectors.ts:160-163 | an answer names an order exactly when it is a success, and no refusal stored one |
| HiddenOrders.ScanReaches | tools/src/backoffice/backoffice.service.ts:167-204 | a scan that comes to a row that owes an order makes it pending |
| HiddenOrders.SendAndScan | tools/src/backoffice/backoffice.service.ts:195-198 | after a send and a scan the order of a hidden or silent answer is pending under its user and its key |
| HiddenOrders.ReconcileReports | tools/src/backoffice/backoffice.service.ts:206-258 | sixteen seconds after the call the order is settled on what the database holds under its key |
| HiddenOrders.AnsweredIsRecovered | tools/src/backoffice/detectors.ts:120-142 | an order some call was answered with is settled as recovered exactly when a retained row names it, and else as unacknowledged |
| HiddenOrders.AHiddenOrderIsRecovered | tools/src/gateway/gateway.service.ts:83-115 | from the send to the verdict: hidden, sent again, answered with the order, and reported as recovered |
| LoadRun.LoadRun.Fire | tools/src/load/load.service.ts:218-227 | one request for one step: the longest-resting order is cancelled, or the fallback placed when none rests |
| LoadRun.LoadRun.Issued | tools/src/load/load.service.ts:266-269 | a request is recorded, counted once and waited for |
| LoadRun.LoadRun.PlaceAnswered | tools/src/load/load.service.ts:229-245 | an order answered NEW rests, at the end of the queue |
| LoadRun.LoadRun.CancelAnswered | tools/src/load/load.service.ts:250-264 | an answered cancel is counted as cancelled, conflicted or neither |
| LoadRun.LoadRun.FoldRow | tools/src/load/load.service.ts:276-290 | a row of the run's own leaves what it waits for and is counted once |
| LoadRun.LoadRun.Fold | tools/src/load/load.service.ts:275-301 | takes out every retained row; nothing is left to wait for exactly when the rows recorded from the first call waited for on, anybody's, fit the ring |
| LoadRun.LoadRun.OthersRecord | tools/src/store/attempts.store.ts:49-74 | calls of other clients, and annotations, do not disturb what the run waits for |
| LoadWave.Wave | tools/src/load/load.service.ts:189-192 | a wave among other clients' calls and back-office scans leaves nothing pending exactly when the rows recorded from its first call on fit the ring |
| LoadWave.NarrowWaveFits | tools/src/load/load.service.ts:54-58 | with nobody else recording a wave of at most 1250 calls, a quarter of the ring, always folds |
| LoadWave.OneToFourRows | tools/src/load/load.service.ts:54-58 | its calls leave between one row and four each |
| LoadWave.WideWaveIsNotFolded | tools/src/load/load.service.ts:54-58 | a wave of any width past a quarter of the ring, its answers hidden and its calls retried, leaves calls pending that the ring has dropped |
| LoadRun.LoadRun.SentIsAccountedFor | tools/src/load/load.service.ts:275-301 | the counts by status and the requests waited for add up to the requests sent |
| LoadRun.LoadRun.Unanswered | tools/src/load/load.service.ts:352-371 | the allowance is never short of the run's unanswered calls, whatever the ring dropped |
| LoadRun.LostAreExact | tools/src/load/load.service.ts:352-360 | the ring's share of it is the placements sent from the window's start on that nobody answered, counted once each |
| LoadRun.EveryRowIsCounted | tools/src/load/load.service.ts:280-281 | the counts by status add up to the rows folded |
| LoadRun.CountsAreExact | tools/src/load/load.service.ts:280-290 | each count by status and by outcome is the number of rows that have it |
| LoadRun.LatenciesAreOfAnswers | tools/src/load/load.service.ts:283-286 | the latencies are those of the rows that were answered, one for each |
| LoadRun.NoneCancelledTwice | tools/src/load/load.service.ts:218-264 | answers that name orders of their own are cancelled once at most, and not while still queued |
| CancelDance.RunCancelsNoneTwice | tools/src/load/load.service.ts:218-264 | a run whose answers were read off any run of the target, one fresh key for each request, cancels no order twice, nor one it holds as resting |
| LoadRun.SilentAreCounted | tools/src/load/load.service.ts:294-294 | the count under status 0 covers every folded row that went unanswered |
| Profiles.PlanWaves | tools/src/load/profiles.ts:96-111 | the waves are steps 0 to the last, in order, none empty or wider than asked, and none but the last narrower than one before it |
| Profiles.ConcurrencyGrows | tools/src/load/profiles.ts:86-94 | the width never falls, a ramp opens at one, and from half the run on it is the profile's |
| Profiles.EveryCancelHasItsOrder | tools/src/load/profiles.ts:37-70 | in every prefix of a cancelling plan the resting orders number the cancels or one more |
| Profiles.NoDance | tools/src/load/profiles.ts:41-63 | outside a cancelling contention profile nothing rests and nothing is cancelled |
| Profiles.EveryStepIsAccepted | tools/src/load/profiles.ts:27-78 | every order a plan can place passes the target's validation, for a user of the profile and a tradable instrument |
| Profiles.PeriodAtLeastTwo | tools/src/load/profiles.ts:37-43 | a mix of at most a half gives a period of at least two |
| Profiles.StepsCount | tools/src/load/profiles.ts:104-106 | the plan holds each step of the profile once |
| ProfileShares.EveryUserGetsAShare | tools/src/load/profiles.ts:32-35 | outside contention a plan sends each user of its profile the same share of any stretch from its start, to within one order |
| ProfileShares.EveryInstrumentGetsAShare | tools/src/load/profiles.ts:27-30 | and each tradable instrument, unless it asks for one |
| ProfileShares.SidesAndSizesTakeTurns | tools/src/load/profiles.ts:46-78 | where nothing is cancelled every order is a MARKET one, every other a sale, and the sizes one to three take turns |
| ProfileShares.OneCancelEachPeriod | tools/src/load/profiles.ts:62-69 | a cancelling plan holds one cancel and one resting order in each period |
| ProfileShares.PeriodIsNearest | tools/src/load/profiles.ts:41-43 | the period is the whole number nearest to the mix asked for |
| ProfileShares.RampIsLinear | tools/src/load/profiles.ts:86-94 | a ramp climbs linearly over the first half of the run, rounded down, and is at the profile's width from there on |
| ProfileShares.RestingOrderRests | tools/src/load/profiles.ts:49-59 | a resting order rests exactly while its user has a peso, and never fills |

## Left out

- Serializability.Serializable: exempts the one answer that no serial order gives, a 409 naming NEW; `Conflicts.StaleConflictIff` and `Conflicts.ConflictOutlook` say when it is given.
- ShadowSoundness.ShadowAgrees: shares agree for instruments that are listed as positions; currency is the cash line and the shadow never reads it as a position.
- ShadowRefusals.RefusedInSomeRunIff: the closes stand and the user sends nothing more in the runs it and `FilledInSomeRunIff` speak of; those are the runs in which a prediction made at the close means anything.
- ShadowOvertakes.PredictedRefusalFillsIff: one sale sent behind one buy; with more of either in flight it is `ShadowRefusals.FilledInSomeRunIff`.
- Portfolio.ValueIsConserved: average cost and total return are rounded figures nobody folds and are not part of the model; neither is the overflow of the `::int` cast in `holdings`.
- LogicalOrder.EarlyLookupIsNotFinal: shows one late commit, of a call that has written its row; whether an earlier call still lands depends on the market it finds.
- Backoffice.BackofficeService.Reconcile: keeps copies of the pending attempts, where the code keeps references to the recorder's rows; the one field the rules read that an annotation can change, the link to a retry, is read with each look-up. Nothing else of the back office runs between its look-ups.
- Gateway.GatewayService.Send: the rows of one send are recorded without rows of other clients in between; `Probe` covers them, as it assumes nothing of the log but that the retried row is in it. The calls of a wave are recorded one whole send after the other.
- HiddenOrders.AHiddenOrderIsRecovered: the send, the scan and the pass follow one another; `ScanReaches`, `ReconcileReports` and `AnsweredIsRecovered` assume nothing of what other clients record in between.
- LoadRun.LoadRun.Issued: recording a call and counting it are one act; the code counts it a turn later, and no fold runs in between.
- JointRuns.JNextKeeps: an order is heard as refused once all its calls are over and none placed it, and as processed once it commits; which of its calls the harness hears first is not told apart, as both name the same row.
- CheckersPass.JointRunPasses: the readings are those of one state of the run; that a reading around moving orders is discarded is `Drift.StillCash`.
- Profiles.PlanWaves: widths and the cancel period are computed in exact arithmetic, where the code uses floating point.
- OrdersService.OrdersService.PlaceOrder: runs alone on its table; the interleaved reading is `Protocol`.
- ShadowLedger.ShadowLedger.SettleReservation: money is exact, where the code keeps centavos in a floating-point number; user records are values in the map, where the code changes them in place.
- Checkers.CheckInvariants: the verdicts and their breaches are modelled, the notes and the detail text are not.
- Columns that are null, statuses and sides nobody writes (an unknown side counts nothing), and the ten-row limit of a detail text.
- HTTP, controllers, validation decorators, Prisma, `fetch`, timers, the run history on disk, container pauses and the web panel.
- The latency, 5xx, shedding and unexpected-status rules, statistics, percentiles and the quiet mark: one branch each over a single attempt.
- The choice of the next random order, the start and stop of the simulation loop, and the quiesce wait of a load run.
- Instrument search and the paging of past runs.
