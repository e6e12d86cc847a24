# Stockastic: a verified model

Stockastic runs a trading competition: teams trade shares at simulated prices, the best of them form
investment funds that issue units at a net asset value (NAV), investors buy and redeem units, and
organisers drive the day with an event clock and a news schedule. Everything that matters is one record in
an append-only log, kept in a file or in PostgreSQL; after a crash the server rebuilds itself from it.

This project models that logic in Dafny and proves what the design promises of it. State that the program
changes in place is modelled by classes whose methods are proved against a specification on values; the
long-range results are lemmas about those specifications, over every run or interleaving.

| file | what it models |
|---|---|
| Numeric.dfy, Options.dfy | Go's integer and rounding operations; sums over maps; optional values |
| WriteAheadLog.dfy | group commit of many appenders, crashes at any byte, torn-tail recovery, replay |
| Compaction.dfy, CompactFile.dfy, CompactTable.dfy | which records a compaction keeps and why replay means the same; the two-pass rewrite of the file; the rewrite of the database table |
| PgWriter.dfy, PgAnswers.dfy, PgLimits.dfy | the database log: batches, retries over dropped connections, the write lock, several servers; where each answer comes from; exactly when it refuses what it stored and when a fenced server writes again |
| Ledger.dfy, Trading.dfy | accounts in integer paise, average cost, trades; idempotent execution |
| FundBook.dfy, BookHistory.dfy, Formation.dfy, StalePlan.dfy | units, high-water marks, fees, drawdowns; the book as told by its events; forming and dissolving funds; trades between a formation's plan and its moves |
| FundFlows.dfy, FlowRules.dfy, Liquidation.dfy, AllocationCaps.dfy | investing and redeeming with rounding, and why they are refused; selling to pay out; the equal-cap rule |
| Platform.dfy, Retries.dfy, Restore.dfy | all of it together: interleaved operations, failed writes, resets, crashes, restore; what retries get, and when the live state and the log part; what replaying each record does against what its operation did |
| EventClock.dfy, ClockRestart.dfy, NewsSchedule.dfy, NewsRules.dfy, NewsDispatch.dfy | the clock and its restarts, the scheduler of scripted news and what its rules come to, the two news feeds |
| Ranking.dfy | the Phase 1 ranking and the mirror pairing |
| TokenBuckets.dfy, TradeLimiter.dfy, LoginGuard.dfy | request limits, the rolling trade limit, sign-in locks |

Run `dafny verify dfyconfig.toml` to check everything.

## Where the code does not keep a promise

Each of these has a lemma with a concrete run or input, and beside it the exact condition under which the
promise holds.

- Compaction moves the newest record of a key to where its first one was. If a reset lies in between, replay
  then discards it: `Compaction.ClockLostAfterReset`; exact conditions `Compaction.MeaningKept` for the file and
  `CompactTable.TableRestoresIff` for the table.
- A record the database writer stores one by one can be refused although it was stored, without stopping the
  log: `PgLimits.RefusedYetStored`; exact condition `PgLimits.StoredYetRefusedIff`. The live state and the log
  then differ; exact condition `Retries.LiveIsReplayIff`. The retry of such a trade is made a second time:
  `Retries.SlippedTradeRunsTwice`; exact condition `Retries.TwiceIff`.
- A server that lost the write lock can get it back and store records after another server's:
  `PgLimits.FencedServerReturns`; exact conditions `PgLimits.FencedWritesIff` and
  `PgLimits.WritesAgainOnlyLocked`.
- Forming funds reads the teams' accounts and moves what it read without their locks. Trades in between can
  overdraw a team (`StalePlan.StalePlanOverdraws`) or leave it a holding of negative cost
  (`StalePlan.StalePlanBreaksCost`); exact conditions `StalePlan.StaleFormation` and, with trades between the
  single moves, `StalePlan.StaleFormationInTurns`. They can also make the restored accounts differ from the live
  ones: `StalePlan.TwoTradesDisagree`; exact condition, trade by trade, `StalePlan.TradeAndMove`.
- A fund can start above the launch NAV: `Formation.SeedCapitalRaisesNav`; exact condition
  `Formation.LaunchNav`.
- Raising cash for a redemption can fail although there is enough: `Liquidation.UnpricedFirstFails`; exact
  condition `Liquidation.RaiseFailsIff`.
- Redemptions round down after adding 1e-9 paise, which can pay a hair too much: `FundFlows.SlackPays`; exact
  conditions `FundFlows.PayoutAboveIff` and `FundFlows.RedeemNavIff`.
- The equal-cap level can drop back to 1: `AllocationCaps.LevelFallsBack`; exact condition
  `AllocationCaps.LevelFallsIff`.
- A refund takes back the newest counted trade, not the one that failed, so more trades than allowed can stand
  in a window: `TradeLimiter.LateRefund`. `TradeLimiter.CountsStandingIff` is the exact condition for the limiter
  to count the trades that stand; under it at most n stand (`TradeLimiter.AcceptedAtMostN`). A late refund that
  no further trade follows does no harm, so for at most n it is sufficient and not necessary.
- A saved clock can count announcements that were never made, because the organiser's handlers save it at any
  moment and every announcement saves it too: `ClockRestart.OnlyBlockLost`, `ClockRestart.SecondBlockLost`; exact
  conditions `ClockRestart.RestartCoversIff` and `ClockRestart.CutIff`.
- Saves of the news schedule can overtake each other, and a restart then repeats news:
  `NewsSchedule.LateSaveForgets`; exact condition `NewsSchedule.RestartForgetsIff`.

The libraries that compact the file and the table differ on a rule that keeps no record
(`CompactTable.RulesBelowOneDiffer`; exact condition `CompactTable.AgreeIff`). The program has no such rule.

## Model

| member | source | states |
|---|---|---|
| WriteAheadLog.AcknowledgedSurvives | apps/api/internal/store/store.go:145-197 | When Append returns nil, its record lies in the synced front of the file; at any later moment, after any crashes, whatever the disk may then hold reads back as a prefix of the written records that has this record in its place |
| WriteAheadLog.NobodyIsStranded | apps/api/internal/store/store.go:170-195 | In every interleaving at most one sync runs, a sleeping appender always has one running, and while any call is unfinished a further step of some call is possible |
| WriteAheadLog.StepsMean | apps/api/internal/store/store.go:145-240 | What each step leaves: a write appends the record under the next number, a failed one breaks the log; a sync takes on everything written so far, and if it succeeds makes it safe, else breaks the log; after closing it is closed and after a crash it takes calls; nobody sleeps through a failure, the end of a sync or a close |
| WriteAheadLog.AnythingCanHappen | apps/api/internal/store/store.go:145-197 | Nothing is assumed of callers and machine: at every moment of every run a call is taken exactly while the log is open and unbroken, with any part of the buffer passed on and even if its write fails, a flush may fail after any part, and a crash may leave any front of the written bytes that has all that is safe |
| WriteAheadLog.SyncSettles | apps/api/internal/store/store.go:170-195 | After a sync ends, the next look of every call it covered returns: acknowledged if the sync succeeded, otherwise acknowledged only if an earlier sync had covered it; so no call runs two syncs |
| WriteAheadLog.NothingAfterBroken | apps/api/internal/store/store.go:156-161 | Once a write or sync has failed, or the log is closed, every later call gets an error, for as long as the process lives |
| WriteAheadLog.NextKeeps | apps/api/internal/store/store.go:145-240 | Every step (write, failed write, check, sync result, close, crash with any cut) keeps the counters, the durable bytes and the states of all calls consistent |
| WriteAheadLog.CutFile | apps/api/internal/store/store.go:124-143 | A file cut at any byte yields its records in order, every record that ended before the cut, and nothing else |
| WriteAheadLog.ValidLength | apps/api/internal/store/store.go:124-143 | The length kept on opening is exactly that of the complete, parseable lines at the front |
| WriteAheadLog.Replay | apps/api/internal/store/store.go:199-223 | Replay hands over exactly those records, oldest first |
| WriteAheadLog.ReplaySeesWhatOpenKept | apps/api/internal/store/store.go:88-122 | Although opening also asks for a kind and replay does not, after opening both see the same records, and opening again cuts nothing |
| Compaction.MeaningKept | apps/api/internal/app/app.go:231-262 | For a last-writer-wins key the compacted log restores to the same value as the whole log if and only if the last reset of the key does not lie between two of its records |
| Compaction.EverythingKept | apps/api/internal/app/app.go:428-576 | If no such reset exists the whole restored map is unchanged |
| Compaction.HistoryKept | apps/api/internal/store/compact.go:109-130 | For a kind of which several records are kept, the newest still-valid ones are the same before and after, resets or not |
| Compaction.FrontMeaningKept | apps/api/internal/store/compact.go:42-196 | A log whose front alone is compacted restores a key to the same value if and only if several records of its kind are kept, or the last reset of the key in the front does not lie between two of its records there, or the rest resets or records the key again |
| Compaction.FrontHistoryKept | apps/api/internal/store/compact.go:109-130 | With the front alone compacted, the newest still-valid records of a kind of which several are kept are always those of the whole log |
| Compaction.NewestSurvive | apps/api/internal/store/compact.go:109-130 | Of every group exactly the newest records survive, as many as the rule says, in order |
| Compaction.UnruledSurvive | apps/api/internal/store/compact.go:42-46 | Every record of a kind without a rule survives, in order |
| Compaction.DefinedBefore | apps/api/internal/store/compact.go:18-20 | A key of which one record is kept is defined before exactly the same unruled records as it was before |
| Compaction.CompactingTwice | apps/api/internal/store/compact.go:42-196 | Compacting a compacted log changes nothing |
| Compaction.ClockLostAfterReset | apps/api/internal/app/app.go:496-503 | A clock record, a reset, a clock record: the whole log restores the second clock record, the compacted one none (counterexample to compaction preserving every log) |
| CompactFile.Compact | apps/api/internal/store/compact.go:42-196 | The two-pass rewrite turns the file into exactly the bytes of the surviving records of its valid part, drops a torn tail, leaves a file with nothing to drop alone, and reports the right sizes and counts |
| CompactFile.Survey | apps/api/internal/store/compact.go:69-107 | The first pass finds every group's records with their position, offset and length, and where the valid part ends |
| CompactFile.Decide | apps/api/internal/store/compact.go:109-130 | Going through the groups in any order marks exactly the records that go and what is written over those that stay |
| CompactFile.Rewrite | apps/api/internal/store/compact.go:142-187 | The second pass writes exactly the survivors |
| CompactTable.Compact | apps/api/internal/pgstore/schema.go:139-230 | The table ends up with the kept rows of the taken-in part, each under its own number, followed by the rest untouched, and the number of rows dropped is reported |
| CompactTable.TableMeansTheSame | apps/api/internal/pgstore/schema.go:133-138 | The taken-in records of the resulting table are what the log file's compaction keeps, and the row numbers still grow |
| CompactTable.TableRestoresIff | apps/api/internal/pgstore/schema.go:133-230 | The whole compacted table, rows not taken in included, restores a key to the same value as before if and only if several records of its kind are kept, or the last reset of the key among the taken-in rows does not lie between two of its records there, or a later row resets or records the key again |
| CompactTable.AgreeIff | apps/api/internal/pgstore/schema.go:190-194 | For every log and policy: the table's compaction keeps what the file's does if and only if no two records of the log supersede each other under a rule that keeps none |
| CompactTable.RaisedSame | apps/api/internal/pgstore/schema.go:190-194 | A policy whose every rule keeps at least one record, as all rules of the program do, is left as it is |
| CompactTable.RulesBelowOneDiffer | apps/api/internal/pgstore/schema.go:190-194 | Two clock records under a rule that keeps none: the file's compaction keeps both, the table's the newer one (counterexample to the two always agreeing) |
| PgWriter.ExactlyOnce | apps/api/internal/pgstore/pg.go:251-294 | Over every run: an acknowledged record is in the table exactly once from then on, each server's records are in queue order, a record refused for its content cannot be stored and is never there, one refused because the log stopped means it has, and one refused with its fate unknown was in a batch of at most 256 with a record that cannot be stored |
| PgWriter.GoodServer | apps/api/internal/pgstore/pg.go:249-250 | A server whose every record can be stored never stores one by one, and each of its records is acknowledged or refused because the log has stopped |
| PgWriter.StepKeeps | apps/api/internal/pgstore/pg.go:189-349 | Every step of any number of writers and of the database, including inserts that commit after their connection is gone, keeps the lock, order and answer invariants |
| PgWriter.OnlyTheLockHolderWrites | apps/api/internal/pgstore/pg.go:131-147 | The table only grows, and only through the session that holds the write lock |
| PgWriter.AnswersFinal | apps/api/internal/pgstore/pg.go:251-294 | Records are answered in queue order, once, and a stopped writer stays stopped |
| PgWriter.NothingAfterStop | apps/api/internal/pgstore/pg.go:252-257 | However a run goes on after a writer has stopped, every later answer is a refusal |
| PgAnswers.AnswerHasCause | apps/api/internal/pgstore/pg.go:251-294 | Over every run each answer was given, in the record's turn, by a step that calls for it: acknowledged after the database said stored, refused for its content after it said so of that record alone, its fate unknown after its own insert failed for another reason or its answer was lost, stopped after the writer gave up |
| PgAnswers.StepAnswers | apps/api/internal/pgstore/pg.go:251-294 | Every step answers exactly the next so many records, each as it calls for: a stored batch all of it, the one-by-one pass one at a time |
| PgAnswers.BadAlone | apps/api/internal/pgstore/pg.go:249-250 | If the database fails no insert for another reason, no answer is lost and no writer gives up, every answered record is acknowledged if and only if it can be stored, and refused for its content otherwise: a bad record affects no other |
| PgAnswers.NobodyIsStranded | apps/api/internal/pgstore/pg.go:189-349 | In every state a run can reach, a writer that is not gone and has records to answer can go on: with the next useful step (the largest batch allowed, up to 256) while it has its connection and the lock, else by noticing that it does not; and then it may also give up |
| PgAnswers.GoneForGood | apps/api/internal/pgstore/pg.go:189-349 | A server can go at any time; over the rest of every run it takes no step and gives no answer |
| PgAnswers.LockedUnheard | apps/api/internal/pgstore/pg.go:131-148 | A writer that asks for the lock may get it and not hear of it: nobody can take it until the database has noticed that the session is gone |
| PgLimits.StoredYetRefusedIff | apps/api/internal/pgstore/pg.go:268-275 | From every reachable state with a batch about to be sent, a record of it can come to be stored and yet refused, the log going on, if and only if the batch has a record that cannot be stored |
| PgLimits.RefusedYetStored | apps/api/internal/pgstore/pg.go:268-275 | Reachable: a record stored one by one whose answer is lost is refused although it is in the table, and the log does not stop |
| PgLimits.WritesAgainOnlyLocked | apps/api/internal/pgstore/pg.go:296-320 | Over every run, between another server's insert and a later one of its own a server has taken the write lock again, and the lock was free then |
| PgLimits.FencedWritesIff | apps/api/internal/pgstore/pg.go:296-320 | While another server holds the lock, a server can still come to store further records if and only if it has neither stopped itself nor died (that one stops writing at once holds only then) |
| PgLimits.FencedServerReturns | apps/api/internal/pgstore/pg.go:296-320 | Reachable: a server that lost the lock gets it back within its retry time and stores a record after one of another server it has never seen |
| Ledger.AverageCostBound | apps/api/internal/ledger/ledger.go:153-221 | Over any run of buys, grants, sells and revokes the stored cost is never below the exact rational cost basis, exceeds it by less than one paisa per sell or revoke, and is zero when the holding is |
| Ledger.AccountCostBound | apps/api/internal/ledger/ledger.go:113-221 | The same for any account over any run of allowed operations on any accounts, as long as no shares are moved out of the holding at a cost of their own |
| Ledger.ApplyAmounts | apps/api/internal/ledger/ledger.go:113-299 | An allowed operation changes the cash and the shares of every account by exactly these amounts: a trade by price times quantity against the quantity, a grant, a revocation, a correction or a move by what it says |
| Ledger.OpensAndRemoves | apps/api/internal/ledger/ledger.go:97-110 | Opening gives an account its cash and no shares unless it exists, removing takes it away, and neither touches another |
| Ledger.Conserved | apps/api/internal/ledger/ledger.go:241-299 | Every operation changes the total cash and the total shares of each company by exactly what it creates or destroys; moves by nothing |
| Ledger.AllowedStaysSane | apps/api/internal/ledger/ledger.go:113-140 | An operation that passed its checks never makes cash, shares or cost negative |
| Ledger.ApplyLocal | apps/api/internal/ledger/ledger.go:97-110 | An operation reads and writes only the accounts it names |
| Ledger.TradeDoneIff | apps/api/internal/ledger/ledger.go:113-140 | A trade goes through exactly when its checks pass and it was made durable |
| Ledger.Ledger.TradeAt | apps/api/internal/ledger/ledger.go:113-140 | Check, make durable, apply: the new ledger, the log and the refusal of every failing check |
| Ledger.Ledger.ReplayTrade | apps/api/internal/ledger/ledger.go:142-151 | Replay applies without checking balances |
| Ledger.Account.ApplyTrade | apps/api/internal/ledger/ledger.go:153-174 | One trade in place, at average cost rounded down, with the clamp at zero |
| Ledger.Ledger.RevokeShares | apps/api/internal/ledger/ledger.go:199-221 | Revokes at average cost; the forced form clamps |
| Ledger.Ledger.MoveCash | apps/api/internal/ledger/ledger.go:241-273 | Cash moves between two accounts as one step after the record is durable, or not at all |
| Ledger.Ledger.MoveSharesOf | apps/api/internal/ledger/ledger.go:395-430 | Shares move with exactly the given cost |
| Ledger.Ledger.Total | apps/api/internal/ledger/ledger.go:359-377 | The sums over all accounts of cash and of each company's shares |
| Trading.RunConsistent | apps/api/internal/trading/trading.go:174-225 | Over any sequence of calls the balances are the replay of the log, never negative, and no (account, client trade id) is traded twice |
| Trading.RetryReturnsOriginal | apps/api/internal/trading/trading.go:186-195 | A retry of a finished trade gets the original trade if it matches and a mismatch if it does not, whatever happened in between |
| Trading.ExecEither | apps/api/internal/trading/trading.go:174-225 | A call changes nothing, or makes and remembers exactly one allowed trade under a new id |
| Trading.TradesIff | apps/api/internal/trading/trading.go:174-225 | A new trade is made if and only if the request is complete and its id new, the company has a positive price, the one expected if any was, the guard agrees, the account can afford it at that price and the record can be stored |
| Trading.TradeExact | apps/api/internal/trading/trading.go:193-224 | It is made at the market's price of that moment: cash falls or rises by quantity times price against the shares, for this account and company alone, and id, stage and time are recorded as given |
| Trading.RefusalMeans | apps/api/internal/trading/trading.go:174-225 | Every refusal tells the truth about the request, the market and the account |
| Trading.Executor.Execute | apps/api/internal/trading/trading.go:174-225 | The call in place: every refusal in the source's order, deduplication, write before acknowledge |
| Platform.LiveIsReplay | apps/api/internal/app/app.go:428-576 | At every moment of every interleaving of trades, grants, fund operations, resets, writes of any of these that fail in any way, and crashes, the records the live state knows replay to what it becomes when the committed operations finish, and at rest to itself; as long as no stored record is refused they are the whole log, it replays without error, and nothing is ever negative |
| Platform.NextKeeps | apps/api/internal/trading/trading.go:205-224 | Every step keeps that relation: commit, each later step, a refusal, a write that fails for good or is stored and refused, a reset of either kind however its own write ends, and a crash |
| Platform.CrashRecoversAsApplied | apps/api/internal/app/funds.go:90-161 | A crash loses nothing that is durable, and if the log is what the live state knew, an operation caught between commit and its last step comes back fully applied; what else comes back are failed writes that reached the disk after all, a reset among them |
| Platform.LostEitherWay | apps/api/internal/app/app.go:428-576 | A write or reset that failed for good changes nothing, and a later crash can find it on disk, after what was lost before it, or not |
| Platform.ResetIff | apps/api/internal/app/schedule.go:193-213 | A reset goes through, or fails either way, exactly while the log takes records and no operation is under way |
| Platform.Commute | apps/api/internal/ledger/ledger.go:241-299 | Steps on different accounts, the fund book and different trade-id sets commute |
| Platform.FormingIsReady | apps/api/internal/app/funds.go:166-219 | A formation planned on the live accounts passes every check of every one of its steps, so it can be committed as one record |
| Platform.DissolvingIsReady | apps/api/internal/app/funds.go:398-426 | So does a dissolution while the funds still hold what was moved in |
| Retries.RetryReturnsOriginal | apps/api/internal/trading/trading.go:186-195 | Over every interleaving, crashes and refused records of any kind included, from a trade's commit until a reset of the event is tried: a retry returns that trade, or a mismatch if it asks for something else |
| Retries.TwiceIff | apps/api/internal/pgstore/pg.go:268-275 | Over every run: the log has two trades of one (account, client trade id) with no reset between them if and only if a trade under that id was refused although it was stored, and before the next restart or reset another was recorded under it: committed, refused and stored again, or failed and found by a restart |
| Retries.SlippedTradeRunsTwice | apps/api/internal/pgstore/pg.go:268-275 | Reachable: a refused trade that was stored is made again by its retry; after a restart the team has bought twice and its cash is negative |
| Retries.NoTradeTwice | apps/api/internal/trading/trading.go:186-195 | In a log that replays without error, no (account, client trade id) is twice between two resets |
| Retries.LiveIsReplayIff | apps/api/internal/app/app.go:428-576 | From any moment at which log and live state restore to the same, such as the last restart: if the records refused since although they were stored are none, or one of them is a trade not made again, restarted or reset since, then at rest the live state is what a restart would restore if and only if there were none |
| Retries.AgreeAgain | apps/api/internal/app/app.go:428-576 | Log and live state restore to the same at the start, after every restart and after a reset that drops the teams; after a reset that keeps them, if and only if both knew the same teams |
| Restore.TradeRestored | apps/api/internal/app/app.go:439-449 | Whatever is asked of the trading service, its new balances and remembered ids are the replay of the trade it made, if any |
| Restore.AllocRestored | apps/api/internal/app/funds.go:103-115 | Replaying an investment's record gives exactly the accounts and the book that the desk left; a refused one has no record and changed nothing |
| Restore.RedeemRestored | apps/api/internal/app/funds.go:103-115 | Replaying the records of a redemption, those of its sales and its own, gives exactly the accounts, the book and the remembered trades that the desk left, whether it was paid or refused half way |
| Restore.AllocInAmounts | apps/api/internal/app/funds.go:103-115 | After an investment's record the investor has the amount less and the fund more, both have the units more, and the window's inflow has grown by the amount; nothing else has changed |
| Restore.RedeemInAmounts | apps/api/internal/app/funds.go:107-113 | After a redemption's record the fund has the amount less and the investor more, and both have the units less; nothing else has changed |
| Restore.RegisterRestored | apps/api/internal/app/app.go:430-438 | A registration's record opens the account with the starting cash and no shares |
| Restore.CorrectionRestored | apps/api/internal/app/app.go:518-532 | A grant's record adds the shares and quantity times price to their cost, a cash correction's the cash; to that account alone |
| Restore.RevocationRestored | apps/api/internal/app/app.go:518-526 | A revocation's record takes the shares that are there, at average cost, from that account alone |
| Restore.ResetRestored | apps/api/internal/app/app.go:496-503 | A reset's record leaves the teams, if they are kept, with the starting cash each, and no shares, funds or remembered trades |
| Restore.FormingInAmounts | apps/api/internal/app/funds.go:130-161 | After a planned formation's record a joining team has no cash and no listed shares left, and its fund has the seed capital and everything its teams had, at the cost it had |
| Restore.FormingReplayed | apps/api/internal/app/funds.go:127-143 | A formation's record opens the new funds' accounts with the seed capital and then makes exactly its moves |
| Restore.DissolveReplayed | apps/api/internal/app/funds.go:117-129 | A dissolution's record makes exactly its moves, then closes the funds' accounts and empties the book |
| Restore.DissolveUndoesFormInLog | apps/api/internal/app/funds.go:116-161 | A planned formation's record and then its dissolution's give every account back its cash, shares and cost, leave no account more or less, and empty the book |
| FundBook.UnitsAlwaysTied | apps/api/internal/funds/funds.go:231-340 | On every run whose redemptions respect the holder's units, a fund's units are the sum of all holdings and seed plus minted minus redeemed |
| FundBook.HighWaterIsMax | apps/api/internal/funds/funds.go:579-610 | The high-water mark is the maximum of its start and every checkpoint NAV |
| FundBook.FeesOverRun | apps/api/internal/funds/funds.go:600-606 | Over every run with constant units the performance fees in the checkpoint rows add up to the fee on the rise of the high-water mark over the run, up to half a paisa per new high |
| FundBook.PlanIsCharged | apps/api/internal/funds/funds.go:579-610 | What a checkpoint plan charges is what that theorem assumes of checkpoints |
| FundBook.FeesTelescope | apps/api/internal/funds/funds.go:600-606 | With constant units the performance fees on any list of NAVs add up to the fee on the whole rise, up to half a paisa per new high |
| FundBook.LargestFallIsExact | apps/api/internal/funds/funds.go:312-323 | The streaming largest fall is the maximum over all pairs of an earlier and a later sample |
| FundBook.PlanIsPlanned | apps/api/internal/funds/funds.go:579-610 | What a checkpoint plan writes is what the high-water theorem assumes of checkpoints |
| FundBook.State.Apply | apps/api/internal/funds/funds.go:212-371 | Every event in place, and which events are refused |
| FundBook.State.PlanCheckpoint | apps/api/internal/funds/funds.go:579-610 | The plan, built in a loop, without changing the book |
| BookHistory.BookTells | apps/api/internal/funds/funds.go:212-371 | Over any run in which nothing is dissolved: what a holder put in and took out is the sum of its own investments and redemptions, a window's inflow the sum of the fund's investments in it, and funds neither come nor go |
| BookHistory.UnitsTell | apps/api/internal/funds/funds.go:257-288 | A holder's units are what it bought less what it redeemed |
| BookHistory.DetailsTell | apps/api/internal/funds/funds.go:251-371 | A fund's fee, trader and disqualification are what its own events last said, and it has counted exactly the samples of its assets since its last checkpoint |
| BookHistory.RowTells | apps/api/internal/funds/funds.go:579-610 | A checkpoint has one row for each fund in order, with the NAV given or the launch NAV, the assets now and on average, and the mark before and after; the management fee is the rate's share of the average to the nearest paisa, at the fund's own rate if it set one, and none at the first checkpoint |
| BookHistory.PlanTells | apps/api/internal/funds/funds.go:579-610 | So after any run since the formation: the average is that of the samples since the fund's last checkpoint and the rate the one it set last |
| BookHistory.FormingTells | apps/api/internal/funds/funds.go:216-250 | After a formation each new fund starts at the launch NAV, as mark and as peak, with its first member as trader unless another is named, and with the units and paise of its teams' seeds and nothing else |
| BookHistory.AcceptedIff | apps/api/internal/funds/funds.go:212-371 | Which events the book accepts, and that a refused one changes nothing |
| Formation.DissolveUndoesForm | apps/api/internal/app/funds.go:147-219 | Forming and then dissolving with nothing in between gives every team exactly its cash, share counts and cost basis back, also when both teams of a fund hold the same company |
| Formation.PlanIsAllowed | apps/api/internal/app/funds.go:166-219 | Every move of the plan is covered, one after the other |
| Formation.TransfersExact | apps/api/internal/app/funds.go:147-161 | Allowed moves change every account's cash, shares and cost by exactly their net amounts |
| Formation.BackAllowed | apps/api/internal/app/funds.go:417-426 | While the funds hold what was moved in, every move back is covered |
| Formation.ReversedOps | apps/api/internal/app/funds.go:417-420 | The dissolving event's moves are the formation's transfers, each the other way |
| Formation.LaunchAmounts | apps/api/internal/app/funds.go:162-219 | After a formation a fund is worth its seed capital plus what its teams brought, and its units are what the priced part buys at the launch NAV |
| Formation.TeamGivesAll | apps/api/internal/app/funds.go:166-219 | After the plan a joining team has no cash and no listed shares left |
| Formation.FundReceives | apps/api/internal/app/funds.go:166-219 | And its fund has all of them, at the cost they had |
| Formation.SeedsByTeam | apps/api/internal/app/funds.go:166-198 | Every team that brings something is credited once, in its own name and fund, with its cash and priced shares, in units at the launch NAV; nobody else is |
| Formation.LaunchNav | apps/api/internal/app/funds.go:162-165 | A fund starts exactly at the launch NAV if and only if seed capital and unpriced holdings are worth nothing together |
| Formation.SeedCapitalRaisesNav | apps/api/internal/app/funds.go:130-139 | A team's rupee and a rupee of seed capital: the fund starts at twice the launch NAV (counterexample to starting exactly there) |
| Formation.SeedFunds | apps/api/internal/app/funds.go:166-219 | The plan's moves and seed units, built in loops |
| StalePlan.StaleFormation | apps/api/internal/app/funds.go:147-219 | A plan made from the accounts as they were and carried out on them as they are keeps every balance and cost at or above zero if and only if every sender, when the moves begin, has the cash, and for shares either none stay behind or their cost does |
| StalePlan.StaleFormationInTurns | apps/api/internal/app/funds.go:147-219 | The plan's moves and the members' trades taking turns in any way: no balance and no cost is ever below zero if and only if each move is covered in that sense by its sender as it is when that move is made |
| StalePlan.SaneThroughoutIff | apps/api/internal/app/funds.go:147-161 | The same for any list of moves, among any operations that pass their checks and close no account |
| StalePlan.UncheckedCash | apps/api/internal/app/funds.go:147-161 | A cash move without checks keeps every balance at or above zero if and only if the sender has the cash |
| StalePlan.UncheckedShares | apps/api/internal/ledger/ledger.go:395-430 | A share move without checks keeps every holding and cost at or above zero if and only if no shares stay behind or their cost does, and makes up no shares if and only if the sender has them |
| StalePlan.TradeAndMove | apps/api/internal/app/funds.go:143-161 | A trade logged after the formation's record and made before its move leads to the same accounts as the restore if and only if: for a buy, more shares are held than moved, or exactly those at that cost; for a sale, none are left over, or the sold ones take the same cost with them |
| StalePlan.OneTradeAgrees | apps/api/internal/app/funds.go:143-161 | A single trade between a plan and its moves never sets live and restored accounts apart |
| StalePlan.TwoTradesDisagree | apps/api/internal/app/funds.go:143-161 | A buy and a sale in between do: live cost 8, restored cost 14 |
| StalePlan.StalePlanOverdraws | apps/api/internal/app/funds.go:166-219 | A team buys for 60 of its 100 paise between the plan and the moves: its cash becomes negative |
| StalePlan.StalePlanBreaksCost | apps/api/internal/app/funds.go:166-219 | A buy and a sale in between leave enough shares and cash, yet a holding with negative cost |
| FundFlows.RoundingNeverPays | apps/api/internal/app/funds.go:518-704 | At fixed prices, from any start in which others hold units of every fund, no sequence of investments and redemptions makes the investor richer, but for at most a billionth of a paisa for each payout rounded up through the slack; and nothing goes into debt |
| FundFlows.AllocFair | apps/api/internal/app/funds.go:574-637 | An investment never makes the investor richer and never lowers the fund's NAV |
| FundFlows.AllocExact | apps/api/internal/app/funds.go:574-637 | The amount is the rupees asked for to the nearest paisa, and the units are the most, to six decimals, that it pays for |
| FundFlows.AllocatesIff | apps/api/internal/app/funds.go:574-637 | When an investment is made: exactly if every check on the rupees, the fund, the cash, the ticket, the share of the wallet, the room and the units passes and the record can be stored |
| FlowRules.NotInvestedBecause | apps/api/internal/app/funds.go:591-637 | What each refusal of an investment says (rupees, fund, account, cash, minimum ticket, share of the wallet, room, less than a millionth of a unit, not moved), and that it changes nothing |
| FundFlows.WalletNearWealth | apps/api/internal/app/funds.go:69-85 | What the desk counts as an investor's wallet is the exact wealth but for half a paisa for each holding |
| FundFlows.RedeemFair | apps/api/internal/app/funds.go:656-715 | A redemption makes the investor richer by no more than the slack, and only if the payout went through it |
| FundFlows.RedeemExact | apps/api/internal/app/funds.go:676-700 | What is redeemed is what was asked for: all units held, or the most, to six decimals, worth no more than the rupees asked for, as far as they are held; and the payout is their worth, never a whole paisa less |
| FundFlows.RedeemsIff | apps/api/internal/app/funds.go:656-715 | When a redemption is paid: exactly if every check on the units, the rupees, the payout and what stays in funds passes, the sales raise the cash, it can be moved and the record can be stored |
| FlowRules.NotPaidBecause | apps/api/internal/app/funds.go:669-712 | What each refusal of a redemption says (no fund, no units, amount, what must stay in funds, the sales, not moved), and that it leaves the book alone |
| FundFlows.RedeemNavIff | apps/api/internal/app/funds.go:691-715 | A redemption lowers the NAV for everyone else if and only if its payout was rounded up through the slack |
| FundFlows.PayoutAboveIff | apps/api/internal/app/funds.go:691-692 | A payout exceeds the exact value if and only if that value is short of a whole paisa by no more than 1e-9, and then by no more than that |
| FundFlows.SlackPays | apps/api/internal/app/funds.go:691-692 | One unit worth a hair less than a paisa is paid a whole one, and the NAV falls (counterexample to rounding down) |
| FundFlows.InvestIsCapStep | apps/api/internal/app/funds.go:536-558 | An accepted investment, its room computed from the window's inflows and the investors' portfolios, is a step of the equal-cap rule, so the results about windows hold of it |
| FundFlows.Desk.Allocate | apps/api/internal/app/funds.go:574-637 | Investing in place: every refusal in order, the room under the equal-cap rule from the window's inflows, the record before the cash moves, then the units |
| FundFlows.Desk.CapRoom | apps/api/internal/app/funds.go:538-558 | The fund's room from all investors' portfolios and all funds' inflows in the window |
| FundFlows.Desk.Redeem | apps/api/internal/app/funds.go:656-715 | The operation in place, the raising of cash included |
| FundFlows.Desk.UnitsValue | apps/api/internal/app/funds.go:69-77 | The rounded value of an investor's units, summed in any order |
| Liquidation.RaiseReaches | apps/api/internal/app/funds.go:718-755 | If the amount needed is at most cash plus priced holdings and all holdings are priced, the sales end with at least that cash, in spite of ceilings, capping and early exit |
| Liquidation.RaiseFailsIff | apps/api/internal/app/funds.go:718-755 | Otherwise it succeeds if and only if something priced is held and no unpriced company comes before the slices of those before it have raised the amount |
| Liquidation.NotRaisedBecause | apps/api/internal/app/funds.go:718-755 | Why no cash is raised: no such account, nothing priced is held, or a sale failed; before any sale nothing has changed |
| Liquidation.UnpricedFirstFails | apps/api/internal/app/funds.go:718-755 | A company without a price listed before a priced one: the sales fail although the holdings suffice (counterexample to raising always succeeding) |
| Liquidation.RaiseExchanges | apps/api/internal/app/funds.go:718-755 | However it ends, the fund's value at these prices is unchanged, it has sold no more than it held, and no other account is touched |
| Liquidation.RaiseSellsParts | apps/api/internal/app/funds.go:718-755 | If every holding has a price, a fund that is short sells its parts in the order of the companies, whole, and no further one once the cash is there |
| Liquidation.SlicesAreParts | apps/api/internal/app/funds.go:734-739 | The part is the same of every holding: what is short of what is held, a thousandth more of it and a hair, rounded up to a share, or the whole holding |
| Liquidation.HeldIsValue | apps/api/internal/app/funds.go:726-731 | What the sales count on is the account's value but for its cash and its holdings without a price |
| Liquidation.SalesAreHonest | apps/api/internal/trading/trading.go:174-225 | Selling through the trading service meets what these results assume of a sale |
| Liquidation.RaiseFundCash | apps/api/internal/app/funds.go:718-755 | The loop over the holdings, in place |
| AllocationCaps.NeverStalls | apps/api/internal/scoring/funds.go:45-51 | While there is an active fund, some active fund has room for at least the smallest ticket |
| AllocationCaps.TrancheShares | apps/api/internal/scoring/funds.go:49-60 | A fund's share is its part of the pool by headcount rounded down; funds of the standard size share it equally, get together no more than there is and leave less than a paisa each |
| AllocationCaps.FilledWithinTicket | apps/api/internal/scoring/funds.go:38-51 | A fund counts as having taken k shares exactly when less than the smallest ticket is missing |
| AllocationCaps.RoomMeans | apps/api/internal/scoring/funds.go:77-93 | A fund may take an amount exactly if it is not disqualified and stays within level times its share, or has no share |
| AllocationCaps.LevelNeverFalls | apps/api/internal/scoring/funds.go:60-76 | Along any run with a fixed pool and equal tranches the level never falls while a fund is active, and no active fund exceeds level times tranche |
| AllocationCaps.LevelFallsIff | apps/api/internal/scoring/funds.go:61-76 | The level falls in a step if and only if the step disqualifies the last active fund of a window that had risen |
| AllocationCaps.LevelFallsBack | apps/api/internal/scoring/funds.go:61-76 | One full fund, disqualified: the level goes from 2 to 1 |
| AllocationCaps.Fair | apps/api/internal/scoring/funds.go:38-44 | Any two active funds differ by at most one tranche plus a ticket minus one |
| AllocationCaps.Caps | apps/api/internal/scoring/funds.go:49-93 | The level and every fund's tranche and room, computed in loops |
| AllocationCaps.MandatoryPool | apps/api/internal/scoring/funds.go:95-102 | The mandatory share of all portfolios, rounded once |
| AllocationCaps.MinInvestment | apps/api/internal/scoring/funds.go:10-18 | The lower of the absolute floor and the share of the wallet |
| EventClock.NoneMissedOrRepeated | apps/api/internal/eventclock/eventclock.go:452-479 | Over any run of start, start-at, pause, resume, jump, nudge, length change, end and tick the announced blocks follow one another without gap or repeat from the starting block |
| EventClock.TickAnnouncesAll | apps/api/internal/eventclock/eventclock.go:455-479 | After a tick every block from the starting one to the current one has been announced |
| EventClock.ResumeKeepsPlace | apps/api/internal/eventclock/eventclock.go:203-233 | Resuming keeps block and time into it; absorbed plus overrun is the lost time; the planned end moves by the overrun; a compressed block keeps a minute or all it had |
| EventClock.ResumeAbsorbs | apps/api/internal/eventclock/eventclock.go:203-233 | Without a block resuming absorbs nothing and changes no length; with one, that block alone loses exactly what is absorbed, which is all the lost time or all the block can give and still keep its minute |
| EventClock.ResumesIff | apps/api/internal/eventclock/eventclock.go:203-222 | A clock resumes if and only if it is paused and the block to shorten, if any, exists and is still to come; otherwise it stays as it is |
| EventClock.PauseStopsTime | apps/api/internal/eventclock/eventclock.go:118-233 | A running clock keeps time, a paused one stands still from the pause on, and one resumed goes on from there |
| EventClock.NudgeMoves | apps/api/internal/eventclock/eventclock.go:260-275 | Nudging moves the elapsed time by that much and nothing else; a fresh clock starts at nought |
| EventClock.RemainingIsRight | apps/api/internal/eventclock/eventclock.go:150-184 | What remains of the current block is exactly how long it takes to reach the start of the next, or the end |
| EventClock.PlannedEndIsEnd | apps/api/internal/eventclock/eventclock.go:150-184 | Left alone, a running clock is over exactly at the planned end |
| EventClock.AcceptedIff | apps/api/internal/eventclock/eventclock.go:175-340 | Which operations are refused, and that a refused one changes nothing |
| EventClock.RefusalMeans | apps/api/internal/eventclock/eventclock.go:175-330 | What each refusal says of the clock and the request: not started, started already, not paused, paused already, no such block, not a later block, a length out of range, a block that is over, or one that has run longer |
| EventClock.IndexOfStart | apps/api/internal/eventclock/eventclock.go:129-148 | For positive lengths the block at a block's start is that block, and at the end of the schedule all are over |
| EventClock.IntoRange | apps/api/internal/eventclock/eventclock.go:150-165 | The time into a block is below its length, and negative if and only if the elapsed time is |
| EventClock.LandsOnEdge | apps/api/internal/eventclock/eventclock.go:246-259 | Jumping and starting at a block land exactly on its edge, ending exactly on the end |
| EventClock.LengthKeepsPlace | apps/api/internal/eventclock/eventclock.go:307-328 | An accepted new length never moves the clock back, and moves it on if and only if the current block has already run exactly that long |
| EventClock.LengthenedIff | apps/api/internal/eventclock/eventclock.go:307-328 | A new length is accepted if and only if the block exists, the length is allowed and the clock has not gone past that much of it; then it is all that changes |
| EventClock.CrashBetweenAnnouncements | apps/api/internal/app/app.go:698-715 | A tick records all due blocks before announcing the first, and every announcement saves the clock: a crash in between loses the others for good |
| ClockRestart.RestartCoversIff | apps/api/internal/app/app.go:698-723 | Over every run of changes, saves by announcements and by the organiser at any moment, ticks beside one another and crashes: all blocks from the first one to the clock's own have been announced, or are about to be, if and only if no crash came while a block was due, counted on disk and unannounced |
| ClockRestart.CutIff | apps/api/internal/app/admin.go:76-164 | A crash loses a block if and only if the clock was saved while a block was due that has not been announced since |
| ClockRestart.RestartCoversBySaves | apps/api/internal/app/app.go:698-723 | So no block is lost if and only if no crash follows such a save |
| ClockRestart.OrganiserActs | apps/api/internal/eventclock/eventclock.go:185-275 | The organiser's operations act on the live clock at once while others announce: a jump lands on its block's edge, a nudge moves the time, a pause stops it, and what is saved and what is due stay as they are |
| ClockRestart.OnlyBlockLost | apps/api/internal/eventclock/eventclock.go:455-479 | A run: one block due, the organiser's handler saves the clock before it is announced, a crash, and the block is never announced |
| ClockRestart.SecondBlockLost | apps/api/internal/app/app.go:698-715 | A run: two blocks due in one tick, a crash after the first announcement, and the second block is never announced |
| ClockRestart.WaitingLosesNothing | apps/api/internal/app/app.go:717-723 | A repair: were the clock saved only while no block is due, no crash would ever lose one |
| ClockRestart.CutOnlyMidway | apps/api/internal/app/app.go:698-723 | A smaller repair: were it saved only when every tick under way has announced its first block, only a crash after some and before all of a tick's announcements could lose blocks; the program does not save so |
| EventClock.RestoreUndoesSnapshot | apps/api/internal/eventclock/eventclock.go:402-450 | What a clock stored is what any clock restores from it |
| EventClock.RestoresIff | apps/api/internal/eventclock/eventclock.go:418-450 | What a clock takes over from a stored state, when it refuses, and that it then stays as it is |
| EventClock.RestoredFine | apps/api/internal/eventclock/eventclock.go:418-450 | In a schedule that is taken over every block can be found by its id, and lasts |
| EventClock.Clock.Resume | apps/api/internal/eventclock/eventclock.go:203-233 | Checks everything before it changes anything, then the new state |
| EventClock.Clock.Tick | apps/api/internal/eventclock/eventclock.go:455-479 | The due blocks, collected in a loop, and the new state |
| EventClock.Clock.IndexAt | apps/api/internal/eventclock/eventclock.go:129-141 | The loop finds the current block |
| EventClock.Clock.SetBlockDuration | apps/api/internal/eventclock/eventclock.go:307-328 | The new state and every refusal |
| EventClock.Clock.JumpTo | apps/api/internal/eventclock/eventclock.go:246-259 | The new state and every refusal |
| EventClock.Clock.StartAt | apps/api/internal/eventclock/eventclock.go:603-619 | The new state and every refusal |
| EventClock.Clock.Restore | apps/api/internal/eventclock/eventclock.go:418-450 | Restores a stored state; lengths that do not fit the stored schedule give way to the schedule's own, a state without a schedule must fit the clock's, and a refusal changes nothing |
| NewsSchedule.EachOnce | apps/api/internal/sim/engine.go:200-315 | Over every run of seconds, manual releases, catch-up, holds, edits, shifts, manual mode, saves stored in any order and restarts, no item goes out twice, as long as every restart finds on disk what has gone out |
| NewsSchedule.RestartForgetsIff | apps/api/internal/sim/engine.go:157-166 | After a restart an item that had gone out can go out again if and only if the state on disk did not know of it |
| NewsSchedule.LateSaveForgets | apps/api/internal/sim/engine.go:226-241 | Two releases whose saves are stored in the other order: both succeed, and the disk has forgotten the second |
| NewsSchedule.OrderedRestartsAreSafe | apps/api/internal/sim/engine.go:226-241 | With saves stored in the order they were taken and none still to be taken or stored at a restart, nothing goes out twice |
| NewsSchedule.SettledRestart | apps/api/internal/sim/engine.go:218-241 | Such a restart loses less than one price interval of open-market seconds, and nothing else |
| NewsSchedule.UnsavedIsQuiet | apps/api/internal/sim/engine.go:218-241 | An operation that is not saved releases nothing and changes nothing but the seconds of open market |
| NewsSchedule.DueExactly | apps/api/internal/sim/engine.go:273-309 | With automatic news on, a second releases exactly the items whose time has come, that are neither out nor held, Phase 2 items only in Phase 2; with it off, none |
| NewsSchedule.HeldStays | apps/api/internal/sim/engine.go:666-686 | A held item never goes out but by hand, and no Phase 2 item by itself in Phase 1 |
| NewsSchedule.StepRecords | apps/api/internal/sim/engine.go:317-320 | Whatever the operation, it releases only items not released before, each once, and records them all |
| NewsSchedule.OneFires | apps/api/internal/sim/engine.go:532-565 | A release by hand happens if and only if the item exists and has not gone out |
| NewsSchedule.GridOverRun | apps/api/internal/sim/engine.go:207-216 | Over every run, whatever is stored in whatever order and however often the server restarts, the number of price changes is the open-market seconds divided by the interval |
| NewsSchedule.GridKept | apps/api/internal/sim/engine.go:207-216 | Every step keeps that |
| NewsSchedule.PendingExactly | apps/api/internal/sim/engine.go:370-394 | A waiting effect is applied in the first second at or after its moment and only then; the shocks added are exactly one for each impact of those effects, in order |
| NewsSchedule.ShocksRunOut | apps/api/internal/sim/engine.go:433-440 | A price change uses up one step of every shock and drops those that are done |
| NewsSchedule.ShocksLeft | apps/api/internal/sim/engine.go:433-440 | After k price changes exactly the shocks with more than k steps are at work, each with k fewer |
| NewsSchedule.Engine.Advance | apps/api/internal/sim/engine.go:200-246 | One second in place: prices' counters, releases, effects; the set of fired ids stays the set form of the list, which has no repeats |
| NewsSchedule.Engine.FireByHand | apps/api/internal/sim/engine.go:532-565 | A release by hand, in place |
| NewsSchedule.Engine.ReleaseOverdue | apps/api/internal/sim/engine.go:666-686 | Catching up, in place |
| NewsSchedule.Engine.SetSkipped | apps/api/internal/sim/engine.go:709-727 | Holding or freeing an item, in place |
| NewsSchedule.Engine.EditOne | apps/api/internal/sim/engine.go:730-758 | Editing an item, in place |
| NewsSchedule.Engine.ShiftUnreleased | apps/api/internal/sim/engine.go:641-662 | Moving every unreleased item, in place |
| NewsSchedule.Engine.Adopt | apps/api/internal/sim/engine.go:157-166 | Carrying on from a saved state rebuilds the set of fired ids |
| NewsSchedule.Engine.ApplyEffects | apps/api/internal/sim/engine.go:370-394 | The filter over the waiting effects, in place |
| NewsRules.EditedItem | apps/api/internal/sim/engine.go:331-342 | An organiser's edit replaces the words if there are new ones and the minute if there is one, and nothing else of the item |
| NewsRules.DueMeans | apps/api/internal/sim/engine.go:278-315 | When an item is due by itself, in milliseconds of its own clock: from its minute on, with a price table earlier by the head start unless it is a regime announcement; never if it is out or held, nor in Phase 1 if it is for Phase 2 |
| NewsRules.RegimeDueMeans | apps/api/internal/sim/engine.go:302-307 | A regime's announcement is due from its minute on, without a head start |
| NewsRules.RegimeWords | apps/api/internal/sim/engine.go:359-366 | An announcement without words of its own says which way the market has turned |
| NewsRules.StepQueues | apps/api/internal/sim/engine.go:344-394 | Whatever releases items, each leaves exactly its own effects waiting until the public has it, in order; a second then takes away those whose moment has come, and nothing else touches them |
| NewsRules.TicksMean | apps/api/internal/sim/engine.go:381-385 | An effect is spread over the fewest price changes, at least one, that cover its minutes |
| NewsRules.ShocksAtChange | apps/api/internal/sim/engine.go:207-216 | What a second of open market does: while the price table lasts a price change forgets the shocks, after it it uses up one step of each |
| NewsRules.SecondSavedIff | apps/api/internal/sim/engine.go:205-241 | A second is saved at once if and only if it changed prices, released something or had an effect to apply |
| NewsRules.OverdueExactly | apps/api/internal/sim/engine.go:664-680 | Catching up sends exactly the items whose own minute has passed and that are neither out nor held, without a head start and in any phase |
| NewsRules.HeldMeans | apps/api/internal/sim/engine.go:708-727 | A known item that is not out is held or freed as asked, and no other; any other request changes nothing |
| NewsRules.EditMeans | apps/api/internal/sim/engine.go:729-758 | An accepted edit gives the item the words and the minute asked for, as far as they were given, and touches no other; a minute outside the day, an unknown item and one that is out are refused |
| NewsRules.ShiftMeans | apps/api/internal/sim/engine.go:639-662 | A shift moves every item that is not out by so many minutes, but not before the start, and leaves its words alone; more than a day is refused |
| NewsDispatch.TwoTiers | apps/api/internal/news/news.go:115-242 | In every interleaving of publishing, timers, recovery and stopping: no item reaches a feed twice, and whatever the public has the fund managers have, and had no later |
| NewsDispatch.LeadIsWaited | apps/api/internal/news/news.go:135-169 | A staggered item is sent to the public only after the waits counted as running add up to the whole head start |
| NewsDispatch.RecoveredLead | apps/api/internal/news/news.go:258-290 | After a restart an item the managers had before it is sent to the public only after what is left of the head start since then has been waited |
| NewsDispatch.ChosenMeans | apps/api/internal/news/news.go:112-135 | Which items wait, for how much, and which go out at once or are done |
| NewsDispatch.LooksMean | apps/api/internal/news/news.go:146-168 | While the event runs an item goes out as soon as nothing is left to wait for, and a timer never runs past what is left or a quarter of a second; while it is paused, the clock is looked at once a second |
| NewsDispatch.CountedWhileRunning | apps/api/internal/news/news.go:160-168 | A wait is counted, whole, exactly when its timer ends while the event is running |
| NewsDispatch.NeverDropped | apps/api/internal/news/news.go:137-189 | While the server is not stopped no item is dropped: every timer that runs goes on to the next look or to the public, what is done the public has, and only an item being waited for can be stopped |
| NewsDispatch.PublishedGetsOut | apps/api/internal/news/news.go:115-189 | From every state, as long as the event runs, a published item gets out to both feeds: to the managers when it is published, and by looks and timers alone to the public |
| NewsDispatch.WaitEnds | apps/api/internal/news/news.go:146-168 | While the event runs, looks and timers bring a waiting item to its public delivery after exactly what is left of its wait, and touch nothing else |
| NewsDispatch.StopMeans | apps/api/internal/news/news.go:279-290 | A stop is possible at any time and sends nothing; the timers that still run then end without a delivery |
| NewsDispatch.StepKeeps | apps/api/internal/news/news.go:115-289 | Every step of the dispatcher keeps the order of the feeds, the delivery log and the counting of every item in flight |
| NewsDispatch.Dispatcher.Deliver | apps/api/internal/news/news.go:191-219 | One delivery in place: the stamp, and whether subscribers are told |
| NewsDispatch.Dispatcher.HistoryOf | apps/api/internal/news/news.go:232-242 | Exactly what a feed has been given, oldest first |
| NewsDispatch.Dispatcher.Reinstate | apps/api/internal/news/news.go:258-265 | The saved release log joins the dispatcher's |
| Ranking.StrictTotal | apps/api/internal/scoring/ranking.go:46-83 | For any tie-break list and coin, of two different accounts exactly one is ahead, and being ahead is transitive |
| Ranking.BeforeMeans | apps/api/internal/scoring/ranking.go:46-83 | A team is ahead exactly when it is worth more; or as much, and the first tie-break that tells them apart prefers it (higher peak, fewer transactions, smaller coin), or none does and its id comes first |
| Ranking.ReasonMeans | apps/api/internal/scoring/ranking.go:46-83 | What each reason says of the two teams: they differ in it and in nothing before it |
| Ranking.OrderDoesNotMatter | apps/api/internal/scoring/ranking.go:85-99 | The ranking, reasons included, is the same for every order of the input |
| Ranking.DecideReason | apps/api/internal/scoring/ranking.go:46-83 | The reason given is the first criterion that separates the two teams, if any does |
| Ranking.RankPhase1 | apps/api/internal/scoring/ranking.go:42-99 | The standings in order, numbered from 1, each with what separated it from the one above |
| Ranking.MirrorPairing | apps/api/internal/scoring/pairing.go:18-28 | Pair k is rank k with rank N+1-k; refused for no or an odd number of qualifiers |
| Ranking.EveryRankOnce | apps/api/internal/scoring/pairing.go:16-17 | Every rank is on exactly one side of exactly one pair |
| Ranking.PairsAreMirrored | apps/api/internal/scoring/pairing.go:16-17 | The two ranks of a pair add up to N+1, the better one first |
| TokenBuckets.ForgettingIsInvisible | apps/api/internal/httpapi/limits.go:13-15 | With time not going back, dropping refilled buckets never changes an answer |
| TokenBuckets.MakesRoom | apps/api/internal/httpapi/limits.go:32-43 | Room is made only for a new key when there are very many, and then exactly by the buckets that are full again |
| TokenBuckets.AtMostBurstPlusRate | apps/api/internal/httpapi/limits.go:13-15 | From any request to any later one at most burst plus rate times the time between them pass |
| TokenBuckets.BucketSet.Allow | apps/api/internal/httpapi/limits.go:53-62 | One request in place, and a wait after which exactly one token is there |
| TokenBuckets.BucketSet.Get | apps/api/internal/httpapi/limits.go:32-50 | The bucket brought up to date, room made first if there are very many |
| TradeLimiter.AlwaysAlike | apps/api/internal/ratelimit/ratelimit.go:30-82 | Forgetting aged-out hits never changes an answer |
| TradeLimiter.AcceptedAtMostN | apps/api/internal/ratelimit/ratelimit.go:48-72 | In any window at most n of an account's accepted calls stand, if every refund comes before the account's next call is accepted |
| TradeLimiter.CountsStandingIff | apps/api/internal/ratelimit/ratelimit.go:59-72 | The limiter counts exactly the accepted calls that were not refunded, at every moment, if and only if every refund comes before the account's next call is accepted |
| TradeLimiter.LateRefund | apps/api/internal/app/trades.go:125-146 | A call accepted while an earlier one that will fail is under way: the refund takes its hit, and three trades stand in a window for two (counterexample to at most n) |
| TradeLimiter.AtMostN | apps/api/internal/ratelimit/ratelimit.go:48-72 | Whatever is refunded, in any window at most n of an account's hits are left |
| TradeLimiter.RetryIsExact | apps/api/internal/ratelimit/ratelimit.go:48-57 | After a denial the account stays denied until the given wait is over, and is allowed then |
| TradeLimiter.RefundUndoes | apps/api/internal/ratelimit/ratelimit.go:59-72 | A refund straight after an accepted call takes back exactly that call |
| TradeLimiter.Limiter.AllowTrade | apps/api/internal/ratelimit/ratelimit.go:48-57 | One call in place |
| TradeLimiter.Limiter.Prune | apps/api/internal/ratelimit/ratelimit.go:30-44 | The hits that still count, in place |
| TradeLimiter.Limiter.RefundTrade | apps/api/internal/ratelimit/ratelimit.go:62-72 | The newest hit goes |
| TradeLimiter.Limiter.SweepAll | apps/api/internal/ratelimit/ratelimit.go:75-81 | Every account pruned, in any order |
| LoginGuard.ForgettingIsInvisible | apps/api/internal/httpapi/loginguard.go:57-63 | Dropping spent keys never changes how long anybody is locked out |
| LoginGuard.LocksIff | apps/api/internal/httpapi/loginguard.go:64-73 | A failure locks an open key exactly when it is the last allowed within the window, and touches no other key |
| LoginGuard.LockedExactly | apps/api/internal/httpapi/loginguard.go:57-90 | Over every run of sign-ins a key is locked exactly while at least the limit of its failures count, within the window and since its last success, and the last of them is less than the lock's length ago |
| LoginGuard.MakesRoom | apps/api/internal/httpapi/loginguard.go:57-63 | Room is made only when there are very many keys, and then only by those that are neither locked nor have failed within the window |
| LoginGuard.LockSurvivesIff | apps/api/internal/httpapi/loginguard.go:64-73 | A failure counted while the key is locked leaves the lock if and only if the first failure is still within the window (or one failure locks) |
| LoginGuard.Guarded.Bump | apps/api/internal/httpapi/loginguard.go:57-74 | One failure, in place |
| LoginGuard.Guarded.Clear | apps/api/internal/httpapi/loginguard.go:92-104 | Every lock is lifted and those in force are counted |

## Left out

- Platform.LiveIsReplay: operations hold the locks of everything they change from their checks to their last step. Forming funds does not lock the teams' accounts; StalePlan has the exact conditions for member trades in between, on the accounts alone. The organiser's share and cash corrections, which log and apply in different orders outside the account lock, are single steps too.
- Retries.LiveIsReplayIff: if stored records have been refused, one of them is a trade that has not been made again, reset or restarted since. Otherwise the two states can meet again by chance (two corrections that cancel out, a buy and a sale both made twice). Retries.TwiceIff has no such hypothesis.
- Retries.NoTradeTwice: the log replays without error; Retries.TwiceIff covers every log a run can produce.
- Platform.LiveIsReplay: records that only feed displays (announcements, audit, snapshots, tickets, watch lists, prices) are not part of the state; Compaction.EverythingKept covers them as last-writer-wins keys.
- FundFlows.RoundingNeverPays: at the start somebody else holds units of every fund, as its teams do. A fund without units is at its launch NAV whatever it still owns, so its first investor gets that too.
- FundFlows.Desk.Allocate: the window's inflows are at least zero and stay below the largest 64-bit integer.
- PgLimits.FencedWritesIff: the records the server has not answered yet can be stored.
- EventClock.Clock.Restore: what is saved comes from a clock (positive lengths, last announced block within the schedule); names, stages, windows and snapshot names of blocks, and the organiser's overrides, are not part of the schedule.
- EventClock.NoneMissedOrRepeated: replacing the schedule and resetting the clock are not part of its runs, because they renumber or restart the blocks on purpose.
- NewsDispatch.TwoTiers: within one run of the server; a delivery that was made but not yet recorded when the server stopped is made again after the restart.
- AllocationCaps.LevelNeverFalls: the pool is fixed during the run and the tranches are equal; the program recomputes the pool from current portfolio values.
- AllocationCaps.Caps: amounts stay below the largest 64-bit integer, and the level times the tranche is not wrapped.
- Floating point is exact real arithmetic; the 1e-9 slack, the six decimals of units and every rounding to paise are modelled, rounding errors of float64 are not.
- 64-bit integers do not wrap around.
- JSON: a written line parses, has no raw newline, and its kind and key can be read from it; key and kind are given functions.
- Disks and PostgreSQL: a successful fsync makes the bytes handed over before it durable, truncation of a torn tail lasts, a rename is atomic, a statement is atomic, an advisory lock lasts until its session ends. SQL texts and the lookup tables are not modelled.
- Maps keyed by two strings stand for nested maps and for keys joined with a zero byte.
- The disk-space guard, the free-form fields of events (reasons, names, profiles, strategy logs), scores and rankings of the book, and diversification figures.
- The random price generator, volatility, price paths and shock compounding; a shock's size per step is a given function.
- Order of the checks before an investment or redemption that concern the person, the window and the pause; they refuse without changing anything.
- HTTP, sign-in tokens, the web socket hub, the web client, the import tools and the simulators.
