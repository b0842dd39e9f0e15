# Verified models of the ledger core

This project models the parts of the ledger core library and of its test tools whose behaviour is written out in the
repository, and proves what they promise. Run `dafny verify dfyconfig.toml` to check it.

| part | modules | of |
|---|---|---|
| asynchronous kernel | `Deferral`, `Network`, `NetworkSoundness`, `NetworkProgress`, `NetworkTermination`, `FutureLaws`, `Collecting`, `Sources`, `ExecuteAllRuns`, `SequenceRuns` (helpers `Outcomes`, `Tallies`) | promises, futures, combinators, `executeAll`, `sequence` |
| simulated chain | `Ledger`, `Wallet`, `WalletHistory`, `CommandEffects`, `Explorer`, `Paging`, `Visibility` | the chain generator and the paginated explorer of the tools |
| database versions | `Migrations` | migration and rollback recursion |
| codecs | `DynamicValues`, `QueryFilters`, `BytesWriting` | dynamic value archives, filter printing and binding, endian-independent bytes |
| waiting | `WakeUp` | the condition-variable bridge of the command-line tool |

**Asynchronous kernel.** `Deferral` has the lock-protected cell as a class, and the machine of its critical sections in
any interleaving. `Network` builds whole networks of cells: user code creates promises, evaluates future expressions and
completes promises at any time, while a scheduler runs one critical section of one thread at a time. A completion with
`setResult` is two steps, the store and the later trigger, as in the code. The meaning of a future is the function
`Denote`, which knows nothing of cells, callbacks or schedules; the theorems say that every schedule computes it, that no
callback is ever refused, that a network at rest is complete, and that every schedule comes to rest after the same number
of steps. `ExecuteAllRuns` and `SequenceRuns` put the two collectors, with the state their callbacks share, on top of
cells that any threads complete and serve in any order.

**Simulated chain.** `Wallet.Generator` is the generator with its loops, and `Wallet.Run` the function of the commands it
is proved equal to; the theorems about value, double spending and picking are about `Run`. `CommandEffects` says, output by
output, what each command puts into the chain. `Explorer.Explorer` is the
explorer with its nested loops, proved against a block-level answer; `Paging` is the client that pages through a chain, and
`Visibility` says what a client of the wallet's addresses gets to see.

## Where the code does less than one might expect

Each of these is a theorem here, with an input and the exact condition.

- `executeAll` of no futures never completes, while `sequence` of none yields the empty vector (`Collecting.NoFutures`);
  with at least one it completes once they all have (`ExecuteAllRuns.CompletesAtRest`).
- `executeAll` reports the first failure delivered, `sequence` that of the lowest index; a run that tells them apart is in
  `ExecuteAllRuns.FailuresDifferInARun`. They agree in every complete run if and only if all failures among the futures are
  the same (`ExecuteAllRuns.AgreesInEveryRunExactlyWhen`).
- `sequence` leaks its buffer in some run, and then in every run that finishes, if and only if some future fails
  (`SequenceRuns.LeaksExactlyWhen`, with a run in `SequenceRuns.FailureLeaks`).
- The explorer looks for input objects, not for their addresses. For wanted addresses of the wallet, a transaction that
  touches them is missed if and only if it is a send that spends from them and leaves no change on them
  (`Visibility.MissedExactlyWhen`). For a client that wants all of the wallet's addresses, these are the sends that use up
  exactly what they picked (`Visibility.MissedAreTheExactSends`, with the smallest input in
  `Visibility.SendingAllIsMissed`), and a download lacks them and nothing else (`Visibility.DownloadLacksTheExactSends`).
- Paging by block never ends on a block that fills a page alone and has a match after it, and ends on all other chains
  (`Paging.DownloadCompletesExactlyWhen`). On generated chains pages of two always end; pages of one end if and only if
  there is at most one match to get (`Paging.SinglesDownloadExactlyWhen`), which two receptions already exceed
  (`Paging.TwoReceptionsStall`).
- An archive does not hold the read-only flag of arrays and objects; a round trip is the identity if and only if no
  container has it set (`DynamicValues.RoundTripExactWhen`, `DynamicValues.FrozenArrayThaws`).
- Filters can print the same text (`QueryFilters.NamesCanHideOperators`). The text reads back as its chain if and only if
  the chain is readable: names of one word, symbols that end where their words say, and no name NOT after a bare AND or
  OR (`QueryFilters.ParsesBackExactlyWhen`).
- `sync` hangs if and only if the callback reports no error and a null result (`WakeUp.SyncHangsExactlyOnNull`, with a run
  in `WakeUp.NullHangs`).

The rollback of version 0 does not update the stored version. Its body is not part of this model. If it removes the row
that holds the version, a rollback restores the database from before all migrations
(`Migrations.RollbackInvertsMigration`). If the row outlives it, still saying 0, the next migration skips version 0, which
is right if and only if version 0 would have nothing to do (`Migrations.RepeatedMigrationIsFreshExactlyWhen`).

## Model

| member | source | states |
|---|---|---|
| `Deferral.Deferred.DrainCallbacks` | lib/ledger/core/async/Deffered.hpp:121-134 | once the value is set, every queued callback is posted with it, oldest first, and the queue is empty; before that nothing happens |
| `Deferral.Deferred.StoreResult` | lib/ledger/core/async/Deffered.hpp:68-73 | the first critical section of `setResult`: accepted exactly if no value was there, and nothing is posted yet |
| `Deferral.Deferred.SetResult` | lib/ledger/core/async/Deffered.hpp:68-75 | undisturbed, the store and the trigger together: first result kept, all callbacks posted; a second result changes nothing |
| `Deferral.Deferred.SetNow` | lib/ledger/core/async/Deffered.hpp:77-91 | `setValue` and `setError` store and post in one critical section, or are refused without effect |
| `Deferral.Deferred.AddCallback` | lib/ledger/core/async/Deffered.hpp:93-98 | the callback joins the end of the queue, and the whole queue is posted if the value is there |
| `Deferral.Promise.Complete` | lib/ledger/core/async/Promise.hpp:56-58 | succeeds exactly on an unset cell and then posts all its callbacks; otherwise throws and changes nothing |
| `Deferral.Promise.TryComplete` | lib/ledger/core/async/Promise.hpp:60-65 | true exactly if it won; a loser returns false without any effect |
| `Deferral.Promise.TrySuccess` | lib/ledger/core/async/Promise.hpp:86-91 | the same for a value |
| `Deferral.Promise.TryFailure` | lib/ledger/core/async/Promise.hpp:93-98 | the same for an exception |
| `Deferral.ExactlyOnceInOrder` | lib/ledger/core/async/Deffered.hpp:68-134 | in every interleaving, callbacks executed, then waiting in the single-thread context, then queued in the cell, are exactly the registrations in lock order |
| `Deferral.DispatchedWithTheValue` | lib/ledger/core/async/Deffered.hpp:68-134 | callbacks are dispatched only with the stored value; a set cell has a non-empty queue only while the trigger of exactly one `setResult` is pending |
| `Deferral.AllDispatchedAtRest` | lib/ledger/core/async/Deffered.hpp:110-134 | with the value set and no trigger pending, every registered callback has been dispatched |
| `Deferral.FirstCompletionWins` | lib/ledger/core/async/Deffered.hpp:68-119 | over any interleaving the stored value is that of the first completion to take the lock, forever |
| `Deferral.LaterCompletionsChangeNothing` | lib/ledger/core/async/Deffered.hpp:116-119 | a completion leaves the machine unchanged if and only if an earlier one took the lock |
| `NetworkSoundness.StepSound` | lib/ledger/core/async/Future.hpp:70-183 | every step of any thread keeps: stored values, values carried by callbacks, and values about to be stored are the denotations of their cells |
| `NetworkSoundness.ValuesAreDenotations` | lib/ledger/core/async/Future.hpp:70-183 | any value any schedule ever puts into a cell of any network is the one the pure evaluator gives |
| `NetworkSoundness.SchedulesAgree` | lib/ledger/core/async/Future.hpp:70-183 | from any reachable network, two arbitrary schedules give each cell the same result whenever both give it one |
| `NetworkSoundness.BuiltDenotation` | lib/ledger/core/async/Future.hpp:70-118 | the denotation of a derived cell is the meaning of the future expression it was built for, over the cells before it |
| `NetworkSoundness.SourceDenotation` | lib/ledger/core/async/Promise.hpp:56-58 | the denotation of a promise's cell is what the outside world puts into it first |
| `NetworkProgress.BuildOwed` | lib/ledger/core/async/Future.hpp:70-118 | building a future registers, for each fresh unfinished cell, exactly one callback that will complete it |
| `NetworkProgress.StoreFindsCellUnset` | lib/ledger/core/async/Future.hpp:82-133 | whenever a combinator's callback is about to store, its cell is unset |
| `NetworkProgress.StepLive` | lib/ledger/core/async/Future.hpp:70-183 | every step keeps: each unfinished derived cell is owed by exactly one closure, no finished one by any, and a set cell with queued callbacks has its trigger pending |
| `NetworkProgress.NoCallbackIsRefused` | lib/ledger/core/async/Future.hpp:70-183 | in no run of any network does ALREADY_COMPLETED hit a combinator's callback |
| `NetworkProgress.RestIsCompletion` | lib/ledger/core/async/Future.hpp:70-183 | when no thread has a step left and all promises are kept, every cell is set, to its denotation |
| `NetworkTermination.ScheduledStepTakesOneOff` | lib/ledger/core/async/Future.hpp:70-183 | each scheduled step spends exactly one unit of the work counted from the denotations |
| `NetworkTermination.EveryScheduleFinishes` | lib/ledger/core/async/Future.hpp:70-183 | with all promises kept, no schedule is longer than that count, and the network is at rest exactly after that many steps |
| `NetworkTermination.EveryStepIsAccountedFor` | lib/ledger/core/async/Future.hpp:70-183 | in every run, also while promises and futures are still being made and completed, the thread steps taken and still to take are exactly those the completions and futures have brought; with all promises kept, the network is at rest exactly when all are taken |
| `FutureLaws.GivesTheMeaning` | lib/ledger/core/async/Future.hpp:70-183 | whatever any run puts into the cell of a future, evaluated anywhere and at any time, is the meaning of its expression |
| `FutureLaws.CompletedInEveryRun` | lib/ledger/core/async/Future.hpp:256-272 | in every run a future made of a value or an exception holds it |
| `FutureLaws.MapInEveryRun` | lib/ledger/core/async/Future.hpp:70-85 | in every run a mapped future holds the function of its source's value, the function's exception, or the source's failure |
| `FutureLaws.FlatMapInEveryRun` | lib/ledger/core/async/Future.hpp:92-118 | in every run `flatMap` holds the source's failure, the function's exception, or what the returned future holds |
| `FutureLaws.RecoverInEveryRun` | lib/ledger/core/async/Future.hpp:125-137 | in every run `recover` keeps a success and replaces a failure |
| `FutureLaws.RecoverWithInEveryRun` | lib/ledger/core/async/Future.hpp:139-161 | the same with a future for the replacement, or the exception of the function |
| `FutureLaws.FallbackInEveryRun` | lib/ledger/core/async/Future.hpp:164-168 | in every run `fallback` keeps a success and otherwise holds its value |
| `FutureLaws.FallbackWithInEveryRun` | lib/ledger/core/async/Future.hpp:169-173 | in every run `fallbackWith` keeps a success and otherwise holds what the other future holds |
| `FutureLaws.FilterInEveryRun` | lib/ledger/core/async/Future.hpp:175-183 | in every run a filtered future passes on its source's failure and the test's exception, keeps a value that passes, and rejects any other with NO_SUCH_ELEMENT |
| `FutureLaws.FailedInEveryRun` | lib/ledger/core/async/Future.hpp:202-214 | in every run the failed projection holds its source's exception as a value, or fails with FUTURE_WAS_SUCCESSFULL |
| `FutureLaws.LeftIdentityInEveryRun` | lib/ledger/core/async/Future.hpp:92-118 | in every run `flatMap` on a successful future holds what the function's future holds |
| `FutureLaws.RightIdentityInEveryRun` | lib/ledger/core/async/Future.hpp:92-118 | in every run `flatMap` with the successful future holds what its source holds |
| `FutureLaws.AssociativityInEveryRun` | lib/ledger/core/async/Future.hpp:92-118 | in every run the two nestings of `flatMap`, evaluated as separate futures, hold the same result |
| `FutureLaws.SameMeaningSameResult` | lib/ledger/core/async/Future.hpp:70-183 | in every run, two future expressions with the same meaning, evaluated anywhere and at any time, hold the same result |
| `FutureLaws.SequenceGoMeaning` | lib/ledger/core/async/algorithm.h:43-54 | entered with the first values buffered, the recursion yields all values in order or the failure of the lowest failing index |
| `FutureLaws.SequenceCanBeEvaluated` | lib/ledger/core/async/algorithm.h:58-66 | in any network user code can evaluate `sequence` over any cells, and its cell is there at once |
| `FutureLaws.SequenceUnderEverySchedule` | lib/ledger/core/async/algorithm.h:58-66 | as a network of futures, under any schedule and completion order, `sequence` ends with the values in order or the lowest-index failure (the buffer is passed along; see `SequenceRuns` for the shared one) |
| `SequenceRuns.BufferWhenCallbackRuns` | lib/ledger/core/async/algorithm.h:43-54 | under every schedule, when the callback of `index` runs, the shared heap buffer holds exactly the first `index` values, is not deleted, and no other callback is on its way |
| `SequenceRuns.OutcomeIsInOrder` | lib/ledger/core/async/algorithm.h:58-66 | under every schedule the outcome is the traversal in order; the buffer is deleted if and only if all succeed, and otherwise still holds the values before the failure |
| `SequenceRuns.CompletesAtRest` | lib/ledger/core/async/algorithm.h:43-66 | with all futures set and no step left, `sequence` has an outcome |
| `SequenceRuns.EveryRunEnds` | lib/ledger/core/async/algorithm.h:43-66 | no run takes more than 2n + 2 effective steps besides two for every cell, and one that cannot go on has finished |
| `SequenceRuns.LeaksExactlyWhen` | lib/ledger/core/async/algorithm.h:58-66 | some run never deletes the buffer if and only if some future fails; then no run that finishes does |
| `SequenceRuns.FailureLeaks` | lib/ledger/core/async/algorithm.h:60-65 | a run over one failing future that ends with the failure and the buffer undeleted |
| `Collecting.SequenceBuffer.SequenceGo` | lib/ledger/core/async/algorithm.h:43-54 | with the results handed in directly: on entry at `index` the buffer holds the first `index` values; on failure exactly those before the failing one |
| `Collecting.SequenceBuffer.Sequence` | lib/ledger/core/async/algorithm.h:58-66 | with the results handed in directly: the in-order traversal, and the buffer deleted if and only if all succeed |
| `Collecting.SlotsArePositions` | lib/ledger/core/async/FutureUtils.hpp:60-61 | each index is registered exactly once, on the future at that index, in ascending order, also if a future occurs twice |
| `Collecting.RegisterAll` | lib/ledger/core/async/FutureUtils.hpp:60-61 | the loop performs, on every future of the vector, the registrations of its positions one after the other, also if a future occurs twice |
| `Collecting.RegisteredInOrder` | lib/ledger/core/async/FutureUtils.hpp:60-61 | all in all every cell has queued or posted its old callbacks and then one per position, in order |
| `Collecting.Container.OnComplete` | lib/ledger/core/async/FutureUtils.hpp:61-73 | one delivery under the container's lock; completing the future is never refused |
| `ExecuteAllRuns.DeliveredAtMostOnce` | lib/ledger/core/async/FutureUtils.hpp:54-78 | from the registration loop on, under any threads, each position is delivered at most once, and the container is always what these deliveries make of it |
| `ExecuteAllRuns.CompletesAtRest` | lib/ledger/core/async/FutureUtils.hpp:54-78 | with at least one future, all set, and no step left, every position has been delivered and `executeAll` holds all values, or the first failure delivered |
| `ExecuteAllRuns.EveryRunEnds` | lib/ledger/core/async/FutureUtils.hpp:54-78 | no run takes more than two effective steps for every future and every cell, and one that cannot go on is complete |
| `ExecuteAllRuns.EveryOrderHappens` | lib/ledger/core/async/FutureUtils.hpp:54-78 | for every order of the futures there is a complete run that delivers in it |
| `ExecuteAllRuns.AgreesInEveryRunExactlyWhen` | lib/ledger/core/async/algorithm.h:43-66 | `executeAll` has the outcome of `sequence` in every complete run if and only if all failures among the futures are the same |
| `ExecuteAllRuns.FailuresDifferInARun` | lib/ledger/core/async/FutureUtils.hpp:71-73 | a complete run over two failing futures in which `executeAll` reports the second failure and `sequence` the first |
| `Collecting.OpenContainer` | lib/ledger/core/async/FutureUtils.hpp:65-69 | while all deliveries succeed, the counter is their number and the future stays open until the last |
| `Collecting.OpenContainerFilled` | lib/ledger/core/async/FutureUtils.hpp:66 | meanwhile exactly the delivered slots hold their values |
| `Collecting.ExecuteAllOutcome` | lib/ledger/core/async/FutureUtils.hpp:54-78 | under every delivery order: the first failure delivered, or all values in place after the last delivery, or still open |
| `Collecting.NoFutures` | lib/ledger/core/async/FutureUtils.hpp:54-78 | with no future `executeAll` never completes and `sequence` succeeds |
| `Ledger.TransactionObject.constructor` | tools/blockchain/datas.py:46-58 | inputs and outputs are numbered in order and outputs get the hash; an object listed twice keeps its last number; distinct outputs become the numbered outputs of the value model |
| `Ledger.NumberOutputs` | tools/blockchain/datas.py:57-58 | the numbering loop |
| `Ledger.MakeBlock` | tools/blockchain/datas.py:16-22 | every transaction of a block carries the block's header |
| `Ledger.TotalConcat` | tools/blockchain/datas.py:64-68 | the sums behind fee and amount are additive |
| `Wallet.Generator.Pick` | tools/gen_data.py:41-48 | the loop pops the prefix that `PickCount` describes, in order, and sums it |
| `Wallet.Generator.ExecuteGet` | tools/gen_data.py:31-39 | a reception: one giver input of amount plus fee, one new external output, appended to the unspent ones, in a new block |
| `Wallet.Generator.ExecuteSend` | tools/gen_data.py:40-57 | a send: oldest outputs in, payment and change out, change appended, new block; or a raise that yields no block |
| `Wallet.Generator.Generate` | tools/gen_data.py:16-62 | the blocks yielded are those of the commands before the first one that raises, or of all commands if none does |
| `Wallet.Conservation` | tools/gen_data.py:31-57 | after any commands the unspent outputs total the amounts received minus amounts and fees sent, for any amounts and fee |
| `Wallet.EveryFeeIsTheFee` | tools/blockchain/datas.py:64-68 | every generated transaction pays exactly the fee, and its amount is what its inputs are worth less the fee (commands of another kind pay nothing) |
| `Wallet.PickIsShortest` | tools/gen_data.py:42-48 | the picked outputs are the shortest non-empty prefix that reaches the target, or everything |
| `Wallet.PickReachesWhatIsThere` | tools/gen_data.py:42-50 | the picked outputs fall short of the target if and only if all outputs together do |
| `Wallet.SendRaisesExactlyWhenShort` | tools/gen_data.py:49-50 | after any receptions of non-negative amounts, a send raises if and only if it exceeds the balance |
| `Wallet.RunRaisesExactlyWhenOverdrawn` | tools/gen_data.py:40-57 | a whole run raises if and only if some send exceeds the balance of the commands before it |
| `Wallet.RepeatedSends` | tools/gen_data.py:40-57 | repeated sends complete if and only if the balance covers them all |
| `Wallet.GetsThenSends` | tools/gen_data.py:68-73 | n receptions of a cover m sends of b if and only if m * (b + fee) <= n * a |
| `WalletHistory.StepShape` | tools/gen_data.py:28-61 | what all commands share: one block, one transaction with a fresh hash, the oldest outputs consumed, at most one wallet output created |
| `WalletHistory.SpentThenUnspent` | tools/gen_data.py:22-57 | the wallet outputs created so far are those spent so far followed by the unspent list: exactly what is left, spent first in first out |
| `WalletHistory.NoDoubleSpend` | tools/gen_data.py:41-46 | no output is spent twice, and none that is spent is still listed |
| `WalletHistory.CreatedResolve` | tools/blockchain/datas.py:41-58 | every wallet output is found at its (hash, index) in the chain |
| `WalletHistory.SpentEarlier` | tools/gen_data.py:41-60 | what a block spends was created, and resolves, in a strictly earlier block |
| `WalletHistory.GeneratedChainIsLinked` | tools/gen_data.py:58-61 | heights count up, parents are the previous hashes, block hashes never repeat, blocks hold at most one transaction |
| `CommandEffects.CountersAreUses` | tools/gen_data.py:19-57 | after any run the external counter is the number of receptions, and the change counter the number of sends with a second output |
| `CommandEffects.ReceptionIs` | tools/gen_data.py:31-39 | the i-th reception has one output, its amount on external address i, and one input, from the account's own address and worth the fee more |
| `CommandEffects.SendIs` | tools/gen_data.py:40-57 | a send spends the shortest covering prefix of the unspent outputs, pays its amount to the account's own address, and leaves what remains, if anything, on change address i, i counting the sends before it that left change |
| `CommandEffects.UnspentIs` | tools/gen_data.py:22-57 | the list the generator keeps is, at every command, what the chain leaves unspent |
| `CommandEffects.HashesAreDraws` | tools/gen_data.py:33-59 | every random hash is used once, in order: for the giver of a reception, for the transaction, for the block |
| `CommandEffects.OtherIs` | tools/gen_data.py:28-61 | a command of another kind has no inputs and no outputs |
| `CommandEffects.GenesisIsFirst` | tools/gen_data.py:23-27 | the chain starts with the literal genesis block |
| `CommandEffects.HeightsArePlaces` | tools/gen_data.py:58-61 | every block is as high as its place in the chain |
| `Explorer.Explorer.constructor` | tools/server.py:54-58 | the index maps each hash to the last block that has it |
| `Explorer.Explorer.Scan` | tools/server.py:68-80 | the nested loops give the block-level answer, for every limit and chain |
| `Explorer.Explorer.GetTransactions` | tools/server.py:63-80 | unknown hash: empty and not truncated; no hash: from the first block, an error on an empty chain; else the block-level answer from the indexed block |
| `Explorer.AnswerUnique` | tools/server.py:68-80 | the block-level answer (all matches through the first block where the count reaches the limit, flag true iff one follows) leaves no choice |
| `Explorer.AnswerIsListed` | tools/server.py:68-80 | an answer lists, in the order of the chain, exactly the transactions with an output on a wanted address up to the end of some block; it is truncated if and only if one follows, and then has at least `limit`, fewer than `limit` of them before the last block |
| `Explorer.SplitRange` | tools/server.py:70-75 | the matches of adjacent block ranges concatenate to those of the whole range |
| `Paging.QueryIsTheExplorer` | tools/server.py:63-80 | whatever the explorer's method answers is the function `Query` from the last block with the hash |
| `Paging.PageEndsWithItsBlock` | tools/server.py:76-79 | the last transaction of a page that ends lies in the block that ended it, and its hash leads back there |
| `Paging.JoinPage` | tools/server.py:70-75 | a page without the repeated boundary block continues exactly what was received before |
| `Paging.DownloadFollows` | tools/server.py:63-80 | after any number of rounds, what was received is exactly all matches from the start through the current block, or to the end once done |
| `Paging.CompletedDownload` | tools/server.py:63-80 | a finished download has all matches in order without repetition |
| `Paging.DownloadCompletesExactlyWhen` | tools/server.py:76-80 | a download finishes if and only if no block fills a page alone with a match after it; then within one round per block |
| `Paging.GeneratedChainsDownload` | tools/gen_data.py:58-61 | on every generated chain, for every client, address set, start and limit of at least 2, paging downloads all matches |
| `Paging.SinglesDownloadExactlyWhen` | tools/server.py:76-80 | on generated chains, pages of one transaction download completely if and only if there is at most one match to get |
| `Paging.TwoReceptionsStall` | tools/gen_data.py:31-39 | after two receptions no client that asks from its last transaction ever finishes getting them one by one |
| `Visibility.MissedExactlyWhen` | tools/server.py:72 | for any wallet addresses, a transaction that touches them is not reported if and only if it is a send that spends from them and leaves no change on them |
| `Visibility.DownloadHasWhatPays` | tools/server.py:63-80 | for any wallet addresses, a download has received the transaction of a command if and only if it is a reception and the next external address is wanted, or a send that leaves change and the next change address is |
| `Visibility.MissedAreTheExactSends` | tools/server.py:72 | for all of the wallet's addresses, the transactions not reported are exactly the sends whose picked inputs total the amount and the fee |
| `Visibility.DownloadLacksTheExactSends` | tools/server.py:63-80 | of the transactions from its start on, a download has received exactly those that pay or spend from the wallet, but for these sends |
| `Visibility.SendingAllIsMissed` | tools/gen_data.py:40-57 | the smallest case: receive an amount and send all of it on |
| `Migrations.Database.Migrate` | lib/ledger/core/database/migrations.hpp:44-61 | the database becomes what `Migrated` says, which `MigrationRuns` spells out; returns whether any version was missing; throws iff a missing version beyond 5 is asked for |
| `Migrations.MigrationRuns` | lib/ledger/core/database/migrations.hpp:50-61 | over a log of events: for each version after the current one, ascending, its migration and then the UPDATE to it, and nothing else |
| `Migrations.RollbackRuns` | lib/ledger/core/database/migrations.hpp:74-98 | over a log of events: the rollbacks from the current version down to 0, each but the last followed by the UPDATE to the version below, and nothing else |
| `Migrations.Database.Rollback` | lib/ledger/core/database/migrations.hpp:63-98 | the database becomes what `Downs` says, which `RollbackRuns` spells out; throws iff the current version is beyond the known ones, and then changes nothing |
| `Migrations.UpsCompose` | lib/ledger/core/database/migrations.hpp:50-61 | applying versions in two stretches is applying them in one |
| `Migrations.MigrationResumes` | lib/ledger/core/database/migrations.hpp:50-61 | stopping at any level and migrating again from the version read then gives the same database, version and failure as one run |
| `Migrations.RollbackInvertsMigration` | lib/ledger/core/database/migrations.hpp:74-98 | if each rollback undoes its migration, the version's row included, migrating to any version and rolling back restores the whole database |
| `Migrations.RepeatedMigrationIsFreshExactlyWhen` | lib/ledger/core/database/migrations.hpp:80-85 | if the row outlives the rollback of version 0, migrating again skips version 0, and equals a fresh migration if and only if version 0 has nothing to do |
| `Migrations.RollbackIgnoresUnknown` | lib/ledger/core/database/migrations.hpp:63-67 | a rollback from beyond the last script is the rollback from the last script, with the stored version moved there |
| `DynamicValues.OutputArchive.OutSerialize` | lib/ledger/core/collections/DynamicValue.hpp:127-168 | the archive grows by exactly the tokens of the value |
| `DynamicValues.OutputArchive.OutElements` | lib/ledger/core/collections/DynamicArray.hpp:107-110 | the elements of an array, in order |
| `DynamicValues.OutputArchive.OutFields` | lib/ledger/core/collections/DynamicObject.hpp:109-112 | the fields of an object, in the order its hash table is walked |
| `DynamicValues.TagsAreTypes` | lib/ledger/core/collections/DynamicValue.hpp:127-168 | the first token is the tag of the value's type, and the next its payload or its size |
| `DynamicValues.InputArchive.InSerialize` | lib/ledger/core/collections/DynamicValue.hpp:171-244 | reading consumes a prefix of the archive and gives the value it denotes, or fails on an archive of another shape |
| `DynamicValues.UndefinedIsZero` | lib/ledger/core/collections/DynamicValue.hpp:173-242 | reading an undefined tag leaves the zero of a new value and consumes nothing more; no value is written with it |
| `DynamicValues.RoundTrip` | lib/ledger/core/collections/DynamicValue.hpp:127-244 | for every tree and every field order, reading what was written gives the value back and leaves any suffix untouched; only read-only flags are lost |
| `DynamicValues.RoundTripExactWhen` | lib/ledger/core/collections/DynamicArray.hpp:107-114 | the round trip is the identity if and only if no container in the tree is read-only |
| `DynamicValues.FrozenArrayThaws` | lib/ledger/core/collections/DynamicArray.hpp:76-84 | an array that refused a push appends it after a round trip |
| `QueryFilters.PrintCondition` | lib/ledger/core/database/query/ConditionQueryFilter.h:55-60 | the text of one condition, with a placeholder unless the symbol mentions NULL |
| `QueryFilters.ToString` | lib/ledger/core/database/query/ConditionQueryFilter.h:55-78 | the stream grows by the text of the whole chain |
| `QueryFilters.TextOfCondition` | lib/ledger/core/database/query/ConditionQueryFilter.h:43-60 | the text of a condition is `prefix.field` or the bare field, the symbol, and the placeholder of the field unless the symbol has NULL in it |
| `QueryFilters.TextOfChain` | lib/ledger/core/database/query/ConditionQueryFilter.h:61-77 | the text of a chain is that of its conditions with the words of the operators between them |
| `QueryFilters.NullTestsMentionNull` | lib/ledger/core/database/query/ConditionQueryFilter.h:56 | a condition counts as a NULL test if and only if the four letters stand somewhere in its symbol |
| `QueryFilters.BindValue` | lib/ledger/core/database/query/ConditionQueryFilter.h:80-87 | the values bound are added, in order, after what was bound before |
| `QueryFilters.BoundAt` | lib/ledger/core/database/query/ConditionQueryFilter.h:80-87 | these are the values of exactly the conditions whose symbol has no NULL in it, each at the place it has among them |
| `QueryFilters.ParsesBackExactlyWhen` | lib/ledger/core/database/query/ConditionQueryFilter.h:55-78 | the printed text of a chain reads back as exactly its conditions and operators if and only if the chain is readable |
| `QueryFilters.ReadableTextsDiffer` | lib/ledger/core/database/query/ConditionQueryFilter.h:55-78 | readable chains with the same text are the same chain, but for the values bound |
| `QueryFilters.PlaceholdersMatchBindings` | lib/ledger/core/database/query/ConditionQueryFilter.h:55-87 | position by position, the i-th placeholder in the text was printed by the very condition whose value is bound i-th |
| `QueryFilters.PiecesMatchBindings` | lib/ledger/core/database/query/ConditionQueryFilter.h:55-87 | the same for any names and symbols, read piece by piece |
| `QueryFilters.PiecesAreTheText` | lib/ledger/core/database/query/ConditionQueryFilter.h:55-78 | for any names and symbols, the text is the pieces printed, joined by single spaces |
| `QueryFilters.PiecesReadBack` | lib/ledger/core/database/query/ConditionQueryFilter.h:55-87 | for any names and symbols, these pieces read back as the chain, with its placeholders in binding order |
| `QueryFilters.NamesCanHideOperators` | lib/ledger/core/database/query/ConditionQueryFilter.h:55-64 | a name holding an operator prints like two conditions |
| `BytesWriting.BytesWriter.WriteBackwards` | lib/ledger/core/bytes/BytesWriter.h:68-72 | the do-while loop appends the memory of the value in reverse |
| `BytesWriting.BytesWriter.WriteBeValue` | lib/ledger/core/bytes/BytesWriter.h:65-79 | on either host, appends the fixed-width base-256 digits, most significant first |
| `BytesWriting.BytesWriter.WriteLeValue` | lib/ledger/core/bytes/BytesWriter.h:86-100 | on either host, appends them least significant first |
| `BytesWriting.Mirrored` | lib/ledger/core/bytes/BytesWriter.h:65-100 | the two orders are each other's reverse |
| `BytesWriting.MemoryIsTheValue` | lib/ledger/core/bytes/BytesWriter.h:66-78 | a value that fits reads back from its memory, first byte first on a big-endian host and last byte first on the other |
| `BytesWriting.ValueOfBigEndian` | lib/ledger/core/bytes/BytesWriter.h:65-79 | the bytes written denote the value if and only if it fits the width |
| `BytesWriting.PadOnLeft` | lib/ledger/core/utils/VectorUtils.h:41-56 | a shorter vector is filled up on its left to the length; others stay |
| `BytesWriting.PaddedMinimalIsBigEndian` | lib/ledger/core/utils/VectorUtils.h:41-56 | zero-padding the minimal digits gives the fixed-width bytes if and only if the value fits |
| `WakeUp.OnEvent` | src/Helper.hpp:15-27 | by code: the failure event sets the error, the two success events set the result, others nothing; a blocked waiter is notified by the first three only |
| `WakeUp.Monitor.OnCallback` | src/Helper.hpp:47-56 | one callback under the lock: error or result recorded, and always a notification |
| `WakeUp.Monitor.Check` | src/Helper.hpp:58-64 | one evaluation of the wait: result first, then error, else block |
| `WakeUp.NoLostWakeUp` | src/Helper.hpp:15-64 | in every interleaving, also with spurious wake-ups, a blocked waiter has nothing to see |
| `WakeUp.LeavesExactlyWhenSignalled` | src/Helper.hpp:29-64 | the waiter can always look when there is something to see, and leaves with the last result, else the last error |
| `WakeUp.EventWaitIsRight` | src/Helper.hpp:15-35 | over any events and looks: the wait returns if and only if one of the two success codes has occurred, and throws if and only if the failure code has and no success code |
| `WakeUp.SyncHangsExactlyOnNull` | src/Helper.hpp:72-77 | after its callback, `sync` has nothing to leave with if and only if there was no error and a null result |
| `WakeUp.NullHangs` | src/Helper.hpp:58-64 | a waiter that is told of a null result blocks again, for good |

## Left out

- Callbacks run in posted runnables. The re-entrancy of the immediate context, which runs them inside the cell's lock,
  and the unlocked read in `Deffered::getValue` are not modelled.
- `async`, `foreach`, the callback adapters, `completeWith` and `tryCompleteWith`: registrations and completions by
  outside code are moves that can happen at any time.
- Network: cells are values in a sequence, taken through the critical sections that `Deferral.Deferred` performs in place;
  the sharing of a cell by its promise, futures and callbacks is its index. Futures are finite expressions over one
  abstract value type. A function given to `flatMap` or `recoverWith` returns futures over cells older than the expression
  it stands in; one that makes a promise and returns its future is encoded by making the promise beforehand, and one
  that reaches a future created later is not captured. Neither are a `flatMap` that calls itself forever, and user
  functions that build further futures and then throw.
- Collecting: futures are counted by the source's 32-bit `int`, so their number is at most 2147483647.
- Collecting.SequenceBuffer.SequenceGo: is handed the results instead of waiting for them, as is
  Collecting.SequenceBuffer.Sequence; waiting, threads and the shared buffer are in `SequenceRuns`.
- Sources: callbacks that other clients register on the same futures are not shown; the deliveries of `executeAll` are
  runs of its callbacks under the container's lock.
- Wallet: outputs are values, numbered when created instead of by the transaction constructor a few statements later;
  sharing of output objects appears only in the classes of `Ledger`. Random hashes are a stream that never repeats.
  Addresses are abstract functions of their number, which may repeat; `World.Valid` only tells the derived ones from the
  account's own. The time stamps and JSON forms are not part of this model.
- Explorer: `get_current_block`, the HTTP handler, which drops the block hash it parses, and pickling.
- Migrations: the bases for version -1 are only declared in the source; they are taken as "nothing to do, returns false"
  and "nothing to undo". The scripts, the UPDATE of the version and the way it is read are functions on an abstract
  database, because their bodies are not part of this model; that a migration leaves a row for its UPDATE, and that each
  rollback undoes its migration, are hypotheses.
- DynamicValues: the byte layout of the archive, the identity of shared pointers and null pointers. The order of fields is
  an arbitrary function of the object, so two equal objects in one tree are walked alike. Doubles are opaque, and 32- and
  64-bit integers are tokens of their own without a range.
- Plain-text filters and the link functions of filters: their bodies are not part of this model.
- WriteBeValue: values are unsigned; a signed value or a struct is its unsigned memory image. The minimal digits of a big
  integer are a specification function, because the big integer's body is not part of this model.
- The shutdown of the Asio context, `delay` (empty in the source), and `async::wait`, which waits without a predicate.
- Optional, either, lazy, sequence and map wrappers, which would only add easy members; the generated API, keychains,
  encodings, HTTP client, command line and logging.
