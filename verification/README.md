# Verified model of the ingestion platform

Two engines feed one warehouse: a Kafka sink written in Java and a polling extractor written in Python.
For every (source, table) pair an ownership row with an epoch decides which of them may write. This
project models that machinery in Dafny and proves what it is relied on for: nothing is lost, nobody
writes what they do not own, a backfill is exact, and the tools around it converge.

`dafny verify dfyconfig.toml` checks the whole project.

## What is modelled

* **Ownership** (`Ownership`, `OwnershipFlows`, `OwnershipRepo`, `Routing`). The transition function,
  retirement, and whole histories of one row from its insertion at epoch 1: who is given a table, when, and
  under which epoch. The fence of `meta.apply_staged_batch` is taken from `warehouse/schema/platform.sql`.
  Histories are those of one row's lifetime.
* **The sink** (`Batches`, `Isolation`, `Retrying`, `SinkWorker`, `Delivery`, `Session`). One pass over a
  batch (`PassMeaning` says what it does by the ownership rows alone), the bisection of a rejected batch,
  the retry loop and its circuit breaker, as functions of the outside world (verdicts of the warehouse,
  rebalances, refreshed snapshots) and as an object with a buffer that its methods change in place.
  `Delivery` then puts any number of workers over one log and one warehouse and lets them interleave freely;
  no step assumes that workers exclude each other. A lost connection may hide a commit that happened
  (`Transient(true)`). `RetryDelivery` shows that a call of the
  retry loop is a run of that machine, and `DeliveryStarts`, `Session`, `SessionRepeats` and `Convergence`
  read single workers and the resulting table out of its executions.
* **The extractor** (`Extraction`, `Reconcile`, `Backfill`). Keyset paging with its NULL-cursor pass,
  lookback and watermark, over a source that may change between queries and with a run that may die at
  any commit; the bucketed comparison; delete detection. The database's own part (ORDER BY … LIMIT,
  GROUP BY) is written out as methods.
* **The connector planner** (`Planner`, `Naming`). Plans, their execution on an idealised Kafka Connect
  (an action succeeds and shows at the next look), names and shards.
* **The load generator's oracle and the encoders** (`LoadTruth`, `LoadProducer`, `CsvCodec`, `CsvArrays`).

Each imperative part (`SinkWorker.Worker`, `Extraction.Target`, `OwnershipRepo.Repository`,
`LoadTruth.GroundTruth`, and the methods with loops) is proved equal to a function. The theorems are about
that function or, for whole runs of the sink, about the machine its calls are runs of.

## Findings

* A batch that commits and whose reply is lost is sent again. A record is applied more than once exactly
  when a transaction that writes it loses its reply and a later one writes it again
  (`RetryCommits.RepeatsIff`); with nothing revoked and ownership unchanged a lost pass is repeated whole
  (`RetryOutcomes.LostReplyAppliesTwice`). Repeats have no lasting effect on the table while the source's
  capture generation stays (`Convergence.RepeatsHaveNoEffect`). The generation is the snapshot's, not the
  record's, so a late write decided after it rose outranks newer rows written before
  (`Convergence.LateWriteUnderNewGeneration`; `Convergence.LatestWinsIff` is the exact condition).
* A partition revoked and assigned again within one poll of an isolation leaves its records in the work,
  and they are applied twice (`SessionWitness.ReassignedInHandAppliesTwice`). Where assignments spare what is
  in hand, no record is applied twice between rebalances without a lost reply
  (`SessionRepeats.RepeatsFollowLostReplies`).
* A skip passes its check only if its table has no ownership row at all (`Routing.SkipPassesIff`): the
  cache stamps epoch 0 on tables it did not load, and no row has that epoch. A worker that keeps skipping
  a record of a table only PYTHON writes never finishes its batch (`RetryOutcomes.OwnedSkipNeverFinishes`).
* The drill-down of a bucket misses a negative key unless it is a multiple of the bucket size, since SQL
  division truncates toward zero (`Reconcile.LostRowNoticedIff`, `Reconcile.NegativeKeyEscapes`).
* Counting keys finds a bucket different only if it lacks and has too many keys in different numbers
  (`BackfillProofs.KeyCountsDifferIff`), so one missing and one extra key cancel
  (`BackfillProofs.SwappedKeysCancel`); a backfill is exact because it first makes the warehouse cover the
  source.
* A scan never reads rows dated before 1970, nor rows with key -2^63
  (`ExtractionProofs.FreshScanReadsIff`); a backfill is exact if and only if such rows were already there
  and the keys to delete are within reach (`BackfillProofs.RunBackfill`).
* A row without columns would read back as one NULL (`CsvCodec.CsvRoundTripIff`). The sink's list of
  column names is not quoted and comes back only if every name is plain (`CsvArrays.IdentifiersBackIff`).

## Model

| member | source | states |
|---|---|---|
| `Ownership.StepKeepsConstraints` | controlplane/ownership.py:112-211 | no transition or retirement of a consistent row violates the table's CHECK constraints or its trigger's epoch rule, and an unchanged epoch means unchanged engine, shadow and pause |
| `Ownership.HandoverOnlyBy` | controlplane/ownership.py:112-211 | production passes from one running engine to another only by a cutover to the shadow that was ready, or by an approved force_assign while no shadow runs |
| `OwnershipFlows.EngineGiven` | controlplane/ownership.py:112-211 | a table comes to a running engine only by an ASSIGN or FORCE_ASSIGN that names that engine, or by the cutover of that engine's shadow |
| `OwnershipFlows.EngineOrigin` | controlplane/ownership.py:112-211 | over every history the running engine goes back to the request that named it, an assignment or the START_SHADOW of the shadow that was cut over, and since it took over no event has changed the engine |
| `OwnershipFlows.AcceptedIff` | controlplane/ownership.py:112-211 | for each action, exactly which requests a consistent row accepts |
| `OwnershipFlows.HandoverSucceeds` | controlplane/ownership.py:125-181 | a shadow, a passing comparison and an approved cutover are all accepted and leave the table with the shadow's engine, steady, two epochs on |
| `OwnershipFlows.FailedComparison` | controlplane/ownership.py:142-164 | a failed comparison puts the shadow back to SHADOWING, from where no cutover is accepted |
| `OwnershipFlows.PauseAndResume` | controlplane/ownership.py:194-201 | a pause and a resumption leave both engines in place two epochs on; a comparison under way has to start over |
| `OwnershipFlows.AssignmentIsSteady` | controlplane/ownership.py:119-123 | an accepted assignment, forced or not, gives the named engine the table, steady under the next epoch |
| `OwnershipFlows.RetiredIsFree` | controlplane/retire.py:126-131 | a retired source's table belongs to nobody and can be assigned at once |
| `OwnershipFlows.AbortRestores` | controlplane/ownership.py:183-192 | in every history an aborted handover leaves production with the engine that had it when the shadow started |
| `Ownership.EffectsFollowShadow` | controlplane/ownership.py:112-211 | the shadow is promoted exactly when its engine takes over, and cleared exactly when one starts or ends without taking over |
| `Ownership.HistoryConsistent` | warehouse/schema/platform.sql:320-330 | every state of every history from a fresh row is consistent |
| `Ownership.EpochNamesAuthority` | controlplane/ownership.py:108-211 | over every history the epoch never falls, and equal epochs mean equal engine, shadow engine and paused flag |
| `Ownership.ShadowOrigin` | controlplane/ownership.py:125-140 | every shadow goes back to a START_SHADOW that named its engine and its requester, with nothing since that ended or replaced it |
| `Ownership.ReadyOrigin` | controlplane/ownership.py:149-153 | CUTOVER_READY holds only directly after a passing RECORD_RECONCILIATION, whose id the row carries |
| `Ownership.CutoverHistory` | controlplane/ownership.py:112-211 | each CUTOVER directly follows the passing reconciliation it relies on, moves production to the engine of the latest START_SHADOW with no abort between, and under parameter-mode dual control its approver is neither its requester nor that shadow's starter |
| `Routing.KeyInjective` | ingestion/ingestion-core/src/main/java/org/apache/fineract/bi/ingestion/routing/OwnershipSnapshot.java:47-49 | the joined text key identifies source and table |
| `Routing.Load` | ingestion/ingestion-core/src/main/java/org/apache/fineract/bi/ingestion/routing/OwnershipCache.java:36-101 | the loaded snapshot holds exactly the rows KAFKA owns or shadows, and the sources of its other statement, read perhaps at another moment |
| `Routing.VerifySkips` | ingestion/ingestion-core/src/main/java/org/apache/fineract/bi/ingestion/sink/WarehouseWriter.java:123-173 | with one check kept per key the batch is refused exactly when some check is stale |
| `Routing.SkipDropsNothingOwned` | ingestion/ingestion-core/src/main/java/org/apache/fineract/bi/ingestion/sink/WarehouseWriter.java:123-173 | a skip that passes its check, however old its snapshot, is of a table KAFKA neither owns nor shadows at commit |
| `Routing.SkipPassesIff` | ingestion/ingestion-core/src/main/java/org/apache/fineract/bi/ingestion/sink/WarehouseWriter.java:123-173 | a skip passes if and only if its table has no ownership row or, for an unknown source, the source is still unregistered |
| `Routing.PythonSkipStaysFenced` | ingestion/ingestion-core/src/main/java/org/apache/fineract/bi/ingestion/routing/OwnershipCache.java:36-40 | so a skip of a table only PYTHON writes is refused as long as its row exists, whatever is refreshed |
| `Routing.StampIff` | extractor/extractor.py:106-120 | what an engine stamps on a write is exactly what the fence would accept of it on the row it was read from |
| `Routing.PythonPlanIff` | extractor/extractor.py:106-120 | on any row the Python engine works for exactly the targets the fence grants it |
| `Routing.EpochAloneFences` | warehouse/schema/platform.sql:1108-1134 | for every history and both engines the fence's answer at commit is the comparison of epochs alone, and an accepted write lands on the target that engine owns then |
| `Routing.OneProductionWriter` | warehouse/schema/platform.sql:1108-1134 | production never has two accepted writers, neither at one moment nor under one epoch |
| `OwnershipRepo.Repository.Apply` | controlplane/ownership_repo.py:148-218 | the committed state after a call, for a failure at any table or at the end, under both modes of dual control |
| `OwnershipRepo.SucceedsIff` | controlplane/ownership_repo.py:148-218 | a call succeeds exactly when no statement fails and every table's move is allowed where it stood |
| `OwnershipRepo.MovesIff` | controlplane/ownership_repo.py:157-184 | exactly when a table may move: it has a row, the request is signed and allowed there, and for a cutover the reconciliation stands and dual control is satisfied in its mode |
| `OwnershipRepo.WhatIsCommitted` | controlplane/ownership_repo.py:148-218 | a failed call leaves everything unchanged, except a cutover, which leaves a prefix of the sorted list moved; the moved tables moved with their side effects, no other table changed, and the generation rises by one exactly for a successful non-empty START_SHADOW to KAFKA |
| `OwnershipRepo.CutoverPromotes` | controlplane/ownership_repo.py:165-207 | a committed cutover carries its promotion: the shadow's rows are production's and the shadow is empty; its reconciliation stood; under database-mode dual control an approval was recorded, and in parameter mode the approver is neither the requester nor the shadow's starter |
| `OwnershipRepo.MoveKeepsTidy` | controlplane/ownership_repo.py:162-203 | a move starts a shadow empty, leaves no shadow rows without a shadow engine, and changes production's rows only by promotion |
| `OwnershipRepo.ApplyKeepsTidy` | controlplane/ownership_repo.py:148-218 | so does every call, also one that fails half way |
| `OwnershipRepo.SortedOnceHolds` | controlplane/ownership_repo.py:157-160 | the list is worked through sorted, each table once |
| `PassMeaning.DisposeMeans` | ingestion/ingestion-sink/src/main/java/org/apache/fineract/bi/ingestion/app/SinkWorker.java:547-602 | by the ownership row the snapshot holds: a record is held exactly if its known table is paused, written exactly if KAFKA owns or shadows it, dead-lettered exactly if unreadable or of an unknown source under that policy, skipped otherwise; and the target and epoch a write is stamped with |
| `PassMeaning.PassMeans` | ingestion/ingestion-sink/src/main/java/org/apache/fineract/bi/ingestion/app/SinkWorker.java:531-604 | a pass reaches exactly the records with no paused table at or before them in their partition; each list is, in batch order, the reached records of its kind; a partition is held from its first record of a paused table; each offset is one past the largest record taken |
| `Batches.PlanIsSafe` | ingestion/ingestion-sink/src/main/java/org/apache/fineract/bi/ingestion/app/SinkWorker.java:531-604 | if everything before each record is settled or earlier in line, committing the pass settles everything below its offsets and keeps the rest so |
| `Batches.PassStopsAtHold` | ingestion/ingestion-sink/src/main/java/org/apache/fineract/bi/ingestion/app/SinkWorker.java:539-570 | no offset of a pass goes beyond the partition's hold or a later record, and its writes are in offset order |
| `Isolation.TurnShrinks` | ingestion/ingestion-sink/src/main/java/org/apache/fineract/bi/ingestion/app/SinkWorker.java:462-504 | each turn of an isolation lowers (sum over parts of 2n-1, or 1 for an empty part; fences left), under any fences, data errors and revocations, so isolation ends |
| `IsolationProofs.TurnSafe` | ingestion/ingestion-sink/src/main/java/org/apache/fineract/bi/ingestion/app/SinkWorker.java:437-524 | one turn loses nothing: below every stored offset, before every buffered record and before all remaining work everything is settled |
| `IsolationProofs.RunSafe` | ingestion/ingestion-sink/src/main/java/org/apache/fineract/bi/ingestion/app/SinkWorker.java:449-504 | the same for a whole isolation, however it ends |
| `IsolationProofs.PassSafe` | ingestion/ingestion-sink/src/main/java/org/apache/fineract/bi/ingestion/app/SinkWorker.java:395-409 | the same for a pass over the whole buffer and any answer of the warehouse |
| `IsolationOrder.RunInOrder` | ingestion/ingestion-sink/src/main/java/org/apache/fineract/bi/ingestion/app/SinkWorker.java:449-504 | in an isolation with ownership re-read between parts neither a returned nor a stored offset passes a partition's first hold, records are applied at most once and in order, and at most the limit is quarantined |
| `IsolationOrder.IsolationInOrder` | ingestion/ingestion-sink/src/main/java/org/apache/fineract/bi/ingestion/app/SinkWorker.java:449-504 | the same for a whole isolation from its start, under the batch's own limit |
| `IsolationExact.RunExact` | ingestion/ingestion-sink/src/main/java/org/apache/fineract/bi/ingestion/app/SinkWorker.java:449-524 | from any work list, an honest warehouse ends with exactly the good records settled and the bad ones quarantined |
| `IsolationExact.BisectionIsExact` | ingestion/ingestion-sink/src/main/java/org/apache/fineract/bi/ingestion/app/SinkWorker.java:449-524 | when a part is rejected exactly if it holds a bad record, the bad ones are within the limit, and there are no holds, fences or rebalances: isolation quarantines exactly the bad records in order, applies every other routable record once in order, and leaves none of the batch buffered |
| `IsolationFences.ExactAfterFences` | ingestion/ingestion-sink/src/main/java/org/apache/fineract/bi/ingestion/app/SinkWorker.java:474-481 | the same after up to four fences of a batch decided under stale ownership: it is routed anew under the last refreshed snapshot, and the outcome is the exact one under that |
| `IsolationFences.TooManyBadTrips` | ingestion/ingestion-sink/src/main/java/org/apache/fineract/bi/ingestion/app/SinkWorker.java:488-495 | with more bad records than the limit the breaker trips: exactly the first `limit` of them are quarantined, the good records before the next one are applied, and the rest stays buffered |
| `IsolationFences.RunFencedOutIff` | ingestion/ingestion-sink/src/main/java/org/apache/fineract/bi/ingestion/app/SinkWorker.java:474-478 | an isolation is fenced out exactly by its fifth fence with no part going through in between |
| `IsolationTurns.TurnStopsIff` | ingestion/ingestion-sink/src/main/java/org/apache/fineract/bi/ingestion/app/SinkWorker.java:474-499 | a turn ends the isolation exactly by a fifth fence, by a bad record beyond the limit, or by the error given for the part or for the quarantine of its only record |
| `IsolationTurns.TurnStaysWithin` | ingestion/ingestion-sink/src/main/java/org/apache/fineract/bi/ingestion/app/SinkWorker.java:437-447 | whatever the answer, a turn applies, dead-letters, skips and stores offsets only for partitions of the assignment it has just seen |
| `IsolationFences.FreshPassesIff` | ingestion/ingestion-core/src/main/java/org/apache/fineract/bi/ingestion/sink/WarehouseWriter.java:44-173 | what is decided on the ownership it commits under passes the fence and the skip checks if and only if it skips no table that has an ownership row |
| `IsolationFences.IsolationNotFencedOut` | ingestion/ingestion-sink/src/main/java/org/apache/fineract/bi/ingestion/app/SinkWorker.java:474-481 | if only what does not pass is fenced, refreshes show the ownership that stands, and no table with a row is skipped, an isolation is never fenced out while ownership changes at most three times |
| `IsolationHolds.RunHolds` | ingestion/ingestion-sink/src/main/java/org/apache/fineract/bi/ingestion/app/SinkWorker.java:449-504 | an isolation that comes to its end with nothing revoked or disowned leaves a partition on hold exactly if records of it are still buffered, the first at the hold |
| `IsolationHolds.IsolationReturnsHolds` | ingestion/ingestion-sink/src/main/java/org/apache/fineract/bi/ingestion/app/SinkWorker.java:411-430 | and the worker then holds the assigned ones of these partitions |
| `Isolation.QuarantineLimit` | ingestion/ingestion-sink/src/main/java/org/apache/fineract/bi/ingestion/app/SinkWorker.java:432-435 | the largest number within the row limit and the ratio of the batch, rounded up, but at least one |
| `SinkWorker.Warehouse.Write` | ingestion/ingestion-core/src/main/java/org/apache/fineract/bi/ingestion/sink/WarehouseWriter.java:44-121 | rows and GREATEST-merged offsets are stored together or not at all |
| `SinkWorker.Worker.RouteBatch` | ingestion/ingestion-sink/src/main/java/org/apache/fineract/bi/ingestion/app/SinkWorker.java:531-604 | the loop over a batch fills the lists and maps as the snapshot's rows say (`PassMeaning.PassIs`) |
| `SinkWorker.Worker.Process` | ingestion/ingestion-sink/src/main/java/org/apache/fineract/bi/ingestion/app/SinkWorker.java:526-642 | letters first, then one transaction, and no transaction without offsets; a failed publish may leave any of its letters out |
| `SinkWorker.Worker.RemoveProcessed` | ingestion/ingestion-sink/src/main/java/org/apache/fineract/bi/ingestion/app/SinkWorker.java:400-409 | the buffer loses exactly the batch's records below the holds |
| `SinkWorker.Worker.DropBuffered` | ingestion/ingestion-sink/src/main/java/org/apache/fineract/bi/ingestion/app/SinkWorker.java:653-656 | a revoked partition leaves the buffer and the holds |
| `SinkWorker.Worker.Quarantine` | ingestion/ingestion-sink/src/main/java/org/apache/fineract/bi/ingestion/app/SinkWorker.java:506-524 | letter, offset, removal, in that order and only as far as each succeeds |
| `SinkWorker.Worker.Isolate` | ingestion/ingestion-sink/src/main/java/org/apache/fineract/bi/ingestion/app/SinkWorker.java:449-504 | the loop over the work deque terminates and ends as the function `Run` says, in buffer, offsets, quarantine and warehouse |
| `SinkWorker.Worker.TryOnce` | ingestion/ingestion-sink/src/main/java/org/apache/fineract/bi/ingestion/app/SinkWorker.java:254-338 | one attempt: settle, isolate, die or wait, by the kind of failure and the breaker; buffer, holds, breaker, offsets and warehouse are those of `OneAttempt`, which `RetryReturns` describes |
| `SinkWorker.Worker.ProcessWithRetry` | ingestion/ingestion-sink/src/main/java/org/apache/fineract/bi/ingestion/app/SinkWorker.java:248-348 | the retry loop ends as the function `Retry` says, holds and returned offsets included |
| `RetryProofs.RetrySafe` | ingestion/ingestion-sink/src/main/java/org/apache/fineract/bi/ingestion/app/SinkWorker.java:248-348 | no loss over a whole call, whatever the warehouse, the broker and the rebalances do |
| `RetryProofs.RetryStores` | ingestion/ingestion-sink/src/main/java/org/apache/fineract/bi/ingestion/app/SinkWorker.java:366-369 | offsets returned for Kafka never run ahead of the stored ones, and stored ones never fall |
| `RetryReturns.HoldsReturned` | ingestion/ingestion-sink/src/main/java/org/apache/fineract/bi/ingestion/app/SinkWorker.java:395-430 | every call that finishes returns as holds exactly the assigned partitions with a buffered record of a table paused in its last attempt's snapshot, and leaves in the buffer exactly what waits at or behind such a record |
| `RetryReturns.EndsAsAnswered` | ingestion/ingestion-sink/src/main/java/org/apache/fineract/bi/ingestion/app/SinkWorker.java:254-338 | a call ends by going through or dies by a permanent error of a pass or of the isolation it starts; every other answer is waited out |
| `RetryReturns.GoesOnIff` | ingestion/ingestion-sink/src/main/java/org/apache/fineract/bi/ingestion/app/SinkWorker.java:254-338 | an attempt is followed by another exactly if it neither went through nor met a permanent error |
| `RetryReturns.SleptWithoutRevoked` | ingestion/ingestion-sink/src/main/java/org/apache/fineract/bi/ingestion/app/SinkWorker.java:371-381 | nothing of a partition revoked while an attempt sleeps stays buffered or on hold, and an attempt that only waited leaves all else |
| `RetryReturns.CallReturnsWhatItStored` | ingestion/ingestion-sink/src/main/java/org/apache/fineract/bi/ingestion/app/SinkWorker.java:254-262 | a call with no lost reply and no isolation cut short returns all it stored: the stored offsets are the earlier ones raised to the returned ones |
| `RetryProofs.OpenBreakerQuarantinesNothing` | ingestion/ingestion-sink/src/main/java/org/apache/fineract/bi/ingestion/app/SinkWorker.java:254-283 | a call that starts with the breaker open quarantines nothing and closes it exactly by settling the whole buffer |
| `RetryProofs.TrippingIsFinal` | ingestion/ingestion-sink/src/main/java/org/apache/fineract/bi/ingestion/app/SinkWorker.java:298-303 | after the attempt that opens the breaker the call quarantines nothing more |
| `RetryCommits.RetryApplies` | ingestion/ingestion-sink/src/main/java/org/apache/fineract/bi/ingestion/app/SinkWorker.java:248-348 | what a call applies is what its transactions wrote, passes and isolated parts, in order |
| `RetryCommits.RepeatsIff` | ingestion/ingestion-sink/src/main/java/org/apache/fineract/bi/ingestion/app/SinkWorker.java:248-348 | for every outside world a call applies a record as often as transactions write it; at most one of these gets its reply, so it is applied more than once if and only if a transaction that writes it loses its reply and a later one writes it again |
| `RetryOutcomes.LostReplyThenOk` | ingestion/ingestion-sink/src/main/java/org/apache/fineract/bi/ingestion/app/SinkWorker.java:320-338 | a call that commits, loses the reply and gets through on the next attempt applies what both passes write, one after the other |
| `RetryOutcomes.LostReplyRepeatsIff` | ingestion/ingestion-sink/src/main/java/org/apache/fineract/bi/ingestion/app/SinkWorker.java:320-338 | for a lost reply on a pass followed by success, from what is known before: a record is applied twice if and only if the first pass writes it over the buffer and the second over what revocations left, each under its own snapshot |
| `RetryOutcomes.LostReplyAppliesTwice` | ingestion/ingestion-sink/src/main/java/org/apache/fineract/bi/ingestion/app/SinkWorker.java:320-338 | with nothing revoked and ownership unchanged it applies the whole batch twice, for every batch that writes anything |
| `RetryOutcomes.OwnedSkipNeverFinishes` | ingestion/ingestion-sink/src/main/java/org/apache/fineract/bi/ingestion/app/SinkWorker.java:263-271 | a call whose every pass skips a record of a table that has an ownership row never finishes, however often ownership is refreshed |
| `RetryOutcomes.BufferedSkipNeverFinishes` | ingestion/ingestion-sink/src/main/java/org/apache/fineract/bi/ingestion/app/SinkWorker.java:263-271 | the same from the buffer: one buffered record of such a table, neither revoked nor on hold, keeps a call that isolates nothing from finishing |
| `DeliveryProofs.ProcessKeeps` | ingestion/ingestion-sink/src/main/java/org/apache/fineract/bi/ingestion/app/SinkWorker.java:526-642 | a pass by any worker, stale or not, keeps the invariant of the whole sink |
| `DeliveryProofs.TurnKeeps` | ingestion/ingestion-sink/src/main/java/org/apache/fineract/bi/ingestion/app/SinkWorker.java:437-524 | so does an isolation turn |
| `DeliveryProofs.RevokeKeeps` | ingestion/ingestion-sink/src/main/java/org/apache/fineract/bi/ingestion/app/SinkWorker.java:653-672 | so does losing partitions |
| `DeliveryProofs.AssignKeeps` | ingestion/ingestion-sink/src/main/java/org/apache/fineract/bi/ingestion/app/SinkWorker.java:675-722 | so does gaining partitions, and no stored offset is ever beyond the log |
| `DeliveryStarts.AssignStarts` | ingestion/ingestion-sink/src/main/java/org/apache/fineract/bi/ingestion/app/SinkWorker.java:675-722 | a gained partition is fetched from its stored offset on, or from the beginning without one; the others go on where they were |
| `DeliveryStarts.RevokeDrops` | ingestion/ingestion-sink/src/main/java/org/apache/fineract/bi/ingestion/app/SinkWorker.java:653-672 | of a lost partition nothing stays buffered or is fetched, and everything else does |
| `DeliveryStarts.RestartsFromStore` | ingestion/ingestion-sink/src/main/java/org/apache/fineract/bi/ingestion/app/SinkWorker.java:675-722 | a worker that crashed starts with nothing in hand, from what is stored |
| `DeliveryStarts.StartsAtStored` | ingestion/ingestion-sink/src/main/java/org/apache/fineract/bi/ingestion/app/SinkWorker.java:675-722 | in every execution, from the assignment of a partition to its next one, the worker has in hand no record of it below the offset stored when it was assigned |
| `DeliveryStarts.CatchesUp` | ingestion/ingestion-sink/src/main/java/org/apache/fineract/bi/ingestion/app/SinkWorker.java:526-722 | an idle worker given a partition reaches, if no table concerned is paused and the warehouse may commit the pass, a state in which it has applied, in order and on top of what was there, exactly the records above the stored offset of tables KAFKA writes, and stored an offset past the last |
| `DeliveryProofs.NoLoss` | ingestion/ingestion-sink/src/main/java/org/apache/fineract/bi/ingestion/app/SinkWorker.java:395-722 | for any number of workers and any interleaving of appends, polls, passes, isolation turns, revocations, assignments, crashes and late writes, each isolation under its own batch's limit: every log position below a stored offset, and below each worker's first buffered record of a partition, is applied, dead-lettered, skipped or empty |
| `RetryDelivery.RetryReaches` | ingestion/ingestion-sink/src/main/java/org/apache/fineract/bi/ingestion/app/SinkWorker.java:248-348 | a whole call of the retry loop, if the warehouse gives only answers it can give, is a run of the machine that ends with the same buffer, breaker and store |
| `RetryDelivery.CallLosesNothing` | ingestion/ingestion-sink/src/main/java/org/apache/fineract/bi/ingestion/app/SinkWorker.java:248-348 | so a call made at the end of any execution leaves every position below a stored offset accounted for |
| `DeliveryFencing.AppliedWhenOwned` | ingestion/ingestion-core/src/main/java/org/apache/fineract/bi/ingestion/sink/WarehouseWriter.java:67-121 | in every execution each application of a record, a repeated one included, was committed while its table was not paused and KAFKA owned the target it went to |
| `DeliveryFencing.SkippedWhenNotOwned` | ingestion/ingestion-core/src/main/java/org/apache/fineract/bi/ingestion/sink/WarehouseWriter.java:123-173 | in every execution each skip of a record, a repeated one included, was committed while KAFKA had no part in its table |
| `DeliveryFencing.LetteredForCause` | ingestion/ingestion-sink/src/main/java/org/apache/fineract/bi/ingestion/app/SinkWorker.java:547-602 | every dead letter of every execution was unreadable, of an unknown source under that policy, or a single record the warehouse refused for its data that was not on hold: none because its table was paused |
| `DeliveryFencing.SkipsPass` | ingestion/ingestion-sink/src/main/java/org/apache/fineract/bi/ingestion/app/SinkWorker.java:576-589 | collapsing a pass's checks to one per table refuses the commit exactly when some skipped record's check is stale |
| `Session.ExecutionInLine` | ingestion/ingestion-sink/src/main/java/org/apache/fineract/bi/ingestion/app/SinkWorker.java:653-722 | in every execution whose rebalances go by the consumer's listener (nothing of a partition is in hand when it is assigned, and what is buffered belongs to the assignment), whatever a worker holds stays in offset order and short of what it will fetch, for any replies, revocations and assignments |
| `Session.AppliedOnceInOrder` | ingestion/ingestion-sink/src/main/java/org/apache/fineract/bi/ingestion/app/SinkWorker.java:395-570 | in every such execution, from any moment until the worker's next rebalance, retained, held and isolated records included, and without a lost reply: the records of the partitions it alone writes to are applied in strictly rising offset order, so each at most once, whatever the other workers do to other partitions |
| `SessionWitness.ReassignedInHandAppliesTwice` | ingestion/ingestion-sink/src/main/java/org/apache/fineract/bi/ingestion/app/SinkWorker.java:437-447 | a whole execution in which a partition is revoked and assigned again within one poll of an isolation: its record, still in the work, is applied twice without a lost reply; only that assignment breaks the listener's rule |
| `SessionRepeats.RepeatsFollowLostReplies` | ingestion/ingestion-sink/src/main/java/org/apache/fineract/bi/ingestion/app/SinkWorker.java:395-570 | in every such execution, from any moment until the worker's next rebalance and for any replies, a record of its partitions is not applied again once a step that lost no reply has applied it |
| `SessionRepeats.CallRepeatsIff` | ingestion/ingestion-sink/src/main/java/org/apache/fineract/bi/ingestion/app/SinkWorker.java:248-348 | so the exact condition for repeats holds of every call a collecting worker makes in such an execution |
| `Convergence.RepeatsHaveNoEffect` | warehouse/schema/platform.sql:1150-1154 | in every execution, for records that carry all their columns and while the capture generation stays, lost replies and stale late writes have no lasting effect: each key holds the row that applying each record once, in any order, gives |
| `Convergence.AgainMattersIff` | warehouse/schema/platform.sql:1150-1154 | one more application changes a key's row exactly when its stamped position is no smaller than the row's and it is not that row |
| `Convergence.LatestWinsIff` | warehouse/schema/platform.sql:1150-1154 | for any applications under any generations, a key's row is its latest record if and only if no older record of the key was applied under a generation above all of the latest one's |
| `Convergence.LateWriteUnderNewGeneration` | ingestion/ingestion-core/src/main/java/org/apache/fineract/bi/ingestion/sink/WarehouseWriter.java:209-213 | a late write stamped with a newer generation takes a key back to an older record |
| `Session.TurnDependsOn` | ingestion/ingestion-sink/src/main/java/org/apache/fineract/bi/ingestion/app/SinkWorker.java:449-504 | a turn depends neither on the offsets collected for the caller nor on what is stored |
| `Extraction.Fetch` | extractor/extractor.py:127-151 | the page query's rows: the first n selected, in order, and all of them if fewer |
| `Extraction.NextAdvances` | extractor/extractor.py:302-312 | continuing after a page's last row leaves ahead exactly the rows after it in scan order |
| `Extraction.PageKeeps` | extractor/extractor.py:295-315 | a page read in order leaves no row behind unread that was there throughout, and a short page leaves nothing for its query |
| `Extraction.SwitchKeeps` | extractor/extractor.py:313-319 | moving from NULL-cursor rows to dated rows leaves nothing behind |
| `Extraction.Target.Update` | extractor/watermark_manager.py:44-52 | the stored watermark is replaced |
| `Extraction.Target.Reset` | extractor/watermark_manager.py:54-59 | the stored watermark is gone |
| `Extraction.Target.Upsert` | extractor/extractor.py:329-375 | all rows of a page become live, later rows winning, or a fenced page changes nothing |
| `Extraction.StorePage` | extractor/extractor.py:302-312 | page and watermark in one commit, or neither when fenced, and the next query continues after the page's last row |
| `Extraction.Extract` | extractor/extractor.py:284-319 | a run over a changing source that may die at any commit: rows read in scan order, none present throughout left behind, the durable watermark is where it stands, the null_phase flag always agrees with the query builder's test, and on an unchanging source it ends within as many commits as rows plus two |
| `ExtractionProofs.NoWatermarkIsComplete` | extractor/watermark_manager.py:34-42 | a watermark never set, or reset, claims nothing, so every first run starts truthful |
| `ExtractionProofs.RunKeepsComplete` | extractor/extractor.py:284-319 | on an unchanging source, wherever a run stops, every reachable row at or before the watermark is in the warehouse, lookback or not |
| `ExtractionProofs.FinishedHoldsAll` | extractor/extractor.py:284-319 | on an unchanging source, after a run that ends, every reachable row is |
| `ExtractionProofs.FreshScanReadsIff` | extractor/extractor.py:123-151 | an uninterrupted scan from a reset watermark reads each row exactly once, and exactly the rows not dated before 1970 and above the lowest key |
| `ExtractionProofs.LookbackReadsIff` | extractor/extractor.py:286-291 | a later run that ends has read a row present throughout it exactly when its cursor is not older than the stored one minus the lookback, however late it became visible |
| `ExtractionProofs.ResumeReadsIff` | extractor/extractor.py:284-319 | without a lookback, or among the NULL-cursor rows, it has read exactly the rows after the stored position |
| `ExtractionProofs.RunLosesNothing` | extractor/extractor.py:284-319 | one more run, dead or alive, over a changing source loses no row ahead of where the first run began, also when it dies re-reading the lookback window |
| `ExtractionProofs.RunAll` | extractor/extractor.py:284-319 | any sequence of runs, each dying anywhere: over a changing source nothing that is there throughout is lost and one run that ends makes up for those that died; on an unchanging source the watermark is truthful after each |
| `Reconcile.GroupBy` | controlplane/reconcile.py:163-207 | the aggregate query's count and sum per non-empty bucket |
| `Reconcile.OwnBucket` | controlplane/reconcile.py:226-235 | a bucket's drill range holds a key of that bucket exactly if the key is non-negative or a multiple of the size |
| `Reconcile.GroupedIsDrilled` | controlplane/reconcile.py:198-236 | for such keys the aggregate and the drill-down agree on every bucket |
| `Reconcile.Compare` | controlplane/reconcile.py:175-248 | mismatched buckets in order and, for the drilled ones, exactly the differing and one-sided keys, each once |
| `Reconcile.PassedIffAggregatesAgree` | controlplane/reconcile.py:44-49 | for findable keys, and unless drilling is off, passed(0) holds exactly when every bucket's count and hash sum agree |
| `Reconcile.PassedIffFew` | controlplane/reconcile.py:44-49 | with a tolerance, exactly when the drilled buckets hold no more differing and one-sided keys than that, each counted once |
| `Reconcile.LostRowNoticedIff` | controlplane/reconcile.py:198-247 | a single lost row is noticed if and only if its key is findable |
| `Reconcile.NegativeKeyEscapes` | controlplane/reconcile.py:198-247 | key -3 in buckets of ten goes unnoticed |
| `Reconcile.MissingKeysAreExact` | controlplane/reconcile.py:226-237 | a findable key is reported missing exactly when it is missing and its bucket was drilled |
| `Backfill.StillMissing` | extractor/extractor.py:412-426 | the keys, in order, that the source still lacks, whatever the chunking |
| `Backfill.Delete` | extractor/extractor.py:394-403 | exactly the listed keys stop being live, whatever the page size, up to the first page that is fenced |
| `Backfill.ReconcileDeletes` | extractor/extractor.py:377-410 | a key the recheck sees is never deleted and no surviving row changes, also when a page is fenced |
| `BackfillProofs.KeyCountsDifferIff` | controlplane/reconcile.py:190-211 | for any two tables, counting keys finds a bucket different if and only if it lacks and has too many keys in different numbers |
| `BackfillProofs.MismatchIffExtra` | controlplane/reconcile.py:198-211 | so when the warehouse covers the source, exactly in the buckets with extra keys |
| `BackfillProofs.SwappedKeysCancel` | controlplane/reconcile.py:190-211 | one missing and one extra key of a bucket cancel |
| `BackfillProofs.LeftAfterDeletes` | extractor/extractor.py:377-410 | the deletes leave a covering warehouse the source's keys and exactly those extra keys outside the ranges of the first 10,000 extra buckets |
| `BackfillProofs.DeletesAreExact` | extractor/extractor.py:377-410 | so it equals the source if and only if every extra key lies in one of those ranges |
| `BackfillProofs.RunBackfill` | extractor/extractor.py:265-282 | whatever the warehouse held before, a backfill of an unchanging source leaves it equal to the source, contents included, if and only if every source row can be read or was already there and every extra key lies in one of those ranges |
| `BackfillProofs.BackfillExactIff` | extractor/extractor.py:377-410 | for a source no row of which is dated before 1970, and extra keys a drill-down finds, that is: the keys to delete lie in at most 10,000 buckets |
| `Naming.NameRoundTrip` | controlplane/registry.py:91-99 | source_id_from_connector undoes connector_name for every generation, exactly for non-empty ids |
| `Naming.ParsedNameShape` | controlplane/registry.py:95-99 | only names of that shape parse |
| `Naming.StartsWithIff` | controlplane/connectors.py:244 | a name is managed exactly if it is the prefix and anything after it |
| `Naming.NamesAreUnique` | controlplane/registry.py:91-92 | no two (source, generation) pairs share a name |
| `Naming.StaleSlotOfSourceIff` | controlplane/reconciler.py:181-187 | a source's slot is selected for cleanup exactly when the ids agree with '-' read as '_', the slot is inactive and it is not the one to keep |
| `Naming.ShardCount` | controlplane/tasks.py:52-53 | the fewest shards that hold the fleet, within the maximum, and at least one |
| `Naming.OneKeeper` | controlplane/reconciler.py:103-114 | each managed connector is observed by exactly one shard, which is the shard that lists its source if any does |
| `Planner.PlanActions` | controlplane/connectors.py:206-254 | the loops with their counters build the plan |
| `Planner.PlansInOrder` | controlplane/connectors.py:217-242 | desired connectors are taken by name, observed ones by cluster and name, each once |
| `Sorting.LexLeIff` | controlplane/connectors.py:217-242 | names are compared by their first difference, a prefix coming first |
| `PlannerProofs.FixesFix` | controlplane/connectors.py:229-238 | executing what is planned for one existing connector leaves nothing to plan for it and touches no other |
| `PlannerProofs.CreationFixes` | controlplane/connectors.py:220-228 | so does creating a missing one, paused or not |
| `PlannerProofs.NothingToFix` | controlplane/connectors.py:229-238 | nothing is planned exactly when configuration, pause and health are as desired |
| `PlannerProofs.AsDesiredMeans` | controlplane/connectors.py:191-203 | as desired: every wanted entry, no other but a name, paused exactly if wanted, and neither the connector nor a task failed |
| `PlannerDeferred.DeferredAreTheRest` | controlplane/connectors.py:206-254 | a plan creates the first missing connectors and deletes the first orphans in order, up to the limits, and reports exactly the others as deferred |
| `PlannerRounds.DifferentSourcesAreDistinct` | controlplane/registry.py:86-92 | connectors wanted for different sources never collide |
| `PlannerRounds.RoundDoes` | controlplane/reconciler.py:154-167 | one round orders every existing wanted connector, creates and deletes up to its limits, deletes only managed, unwanted, unprotected connectors and creates only wanted ones |
| `PlannerRounds.LimitsRespected` | controlplane/connectors.py:220-253 | no plan holds more creations or deletions than allowed |
| `PlannerRounds.NoPlanIff` | controlplane/connectors.py:206-254 | a plan does and defers nothing exactly when all is as desired and no orphan is left |
| `PlannerRounds.EmptyPlanIff` | controlplane/connectors.py:206-254 | after n rounds the plan is empty if and only if n times the creation limit covers what was missing and, where orphans are deleted, n times the deletion limit covers the orphans |
| `PlannerRounds.NeverDeleted` | controlplane/connectors.py:240-253 | over any rounds no unmanaged, protected or wanted connector is deleted |
| `PlannerRounds.UnbuildableIsKept` | controlplane/reconciler.py:148-155 | over any rounds, each protecting what it observes, the connector of a source whose configuration cannot be built is neither deleted nor touched |
| `LoadTruth.GroundTruth.Record` | ingestion/ingestion-loadgen/src/main/java/org/apache/fineract/bi/ingestion/loadgen/GroundTruth.java:60-66 | exactly one cell changes, and only to a later position |
| `LoadTruth.GroundTruth.Live` | ingestion/ingestion-loadgen/src/main/java/org/apache/fineract/bi/ingestion/loadgen/GroundTruth.java:55-58 | whether a cell is touched and not deleted |
| `LoadTruth.GroundTruth.ExpectedOf` | ingestion/ingestion-loadgen/src/main/java/org/apache/fineract/bi/ingestion/loadgen/GroundTruth.java:68-91 | the totals over a table's keys |
| `LoadProducer.Release` | ingestion/ingestion-loadgen/src/main/java/org/apache/fineract/bi/ingestion/loadgen/EventProducer.java:147-162 | releasing from the queue neither loses nor invents a record |
| `LoadProducer.Generate` | ingestion/ingestion-loadgen/src/main/java/org/apache/fineract/bi/ingestion/loadgen/EventProducer.java:113-129 | positions rise per source, creates hit dead keys and updates and deletes live ones, and the oracle mirrors generation order |
| `LoadProducer.Produce` | ingestion/ingestion-loadgen/src/main/java/org/apache/fineract/bi/ingestion/loadgen/EventProducer.java:113-162 | what is sent is what was generated plus the duplicates, as a bag |
| `LoadProducer.OrderDoesNotMatter` | ingestion/ingestion-loadgen/src/main/java/org/apache/fineract/bi/ingestion/loadgen/GroundTruth.java:60-66 | any stream of the same events, in any order and multiplicity, leaves every cell as generation order does |
| `LoadProducer.SentGivesExpected` | ingestion/ingestion-loadgen/src/main/java/org/apache/fineract/bi/ingestion/loadgen/GroundTruth.java:68-91 | so the expected totals are those of the sent stream |
| `LoadProducer.LiveAndDeletedAreTouched` | ingestion/ingestion-loadgen/src/main/java/org/apache/fineract/bi/ingestion/loadgen/GroundTruth.java:68-91 | live plus deleted is the number of touched keys |
| `LoadProducer.TallyAdds` | ingestion/ingestion-loadgen/src/main/java/org/apache/fineract/bi/ingestion/loadgen/GroundTruth.java:68-91 | the totals of keys put together are the sums of theirs |
| `LoadProducer.TallyOfOne` | ingestion/ingestion-loadgen/src/main/java/org/apache/fineract/bi/ingestion/loadgen/GroundTruth.java:68-91 | one live key counts once with its position above the base and, for transactions, its amount; a deleted one only as deleted; an untouched one not at all |
| `LoadProducer.RunAndExpect` | ingestion/ingestion-loadgen/src/main/java/org/apache/fineract/bi/ingestion/loadgen/EventProducer.java:113-162 | the published totals of a whole run are those of a warehouse that applied every sent record |
| `CsvCodec.Append` | ingestion/ingestion-core/src/main/java/org/apache/fineract/bi/ingestion/sink/CsvEncoder.java:28-41 | the sink's loop writes the same field as the extractor's csv_field |
| `CsvCodec.BuildCopyPayload` | extractor/extractor.py:90-96 | the payload, row by row |
| `CsvCodec.CsvRoundTripIff` | extractor/extractor.py:74-96 | a reader following section 2 of RFC 4180, with unquoted empty as NULL, recovers every row exactly when none is without columns |
| `CsvArrays.EscapeIsPerChar` | extractor/extractor.py:83-84 | backslashes first and quotes second escape each character once |
| `CsvArrays.ArrayRoundTrip` | extractor/extractor.py:83-84 | every list of strings is recovered from its array literal by a reader of text[] literals |
| `CsvArrays.ListSurvives` | extractor/extractor.py:74-87 | also through the CSV quoting around it |
| `CsvArrays.IdentifiersBackIff` | ingestion/ingestion-core/src/main/java/org/apache/fineract/bi/ingestion/sink/CsvEncoder.java:43-48 | the same reader recovers column names if and only if each is plain: not empty, not NULL, without comma, brace, quote or backslash, and without a blank at either end |

## Left out

- Kafka client, JDBC and HTTP clients, CLI, Airflow, metrics, health, backoff and jitter: only their outcomes appear, as parameters.
- `allowOffsetReset=true`, logs trimmed by retention, and `startFromEarliestWithoutDbOffset=false`: the sink gives up no-loss there on purpose.
- Pausing and resuming of partitions: `SinkWorker.Worker` keeps the set of holds, not the consumer's paused set, which affects only what is fetched when.
- Interrupts and shutdown inside an attempt: `Retry` stops between attempts.
- Session.AppliedOnceInOrder: does not cover a commit whose reply is lost, where the claim is false: `SessionRepeats.RepeatsFollowLostReplies` and `RetryCommits.RepeatsIff` say exactly when a record is applied again, its order is then left open. Nor does it cover a partition revoked and given back within one keep-alive poll, where it is false too (`SessionWitness.ReassignedInHandAppliesTwice`); `DeliveryProofs.NoLoss` covers both.
- Convergence.RepeatsHaveNoEffect: rows are replaced whole; it does not cover records with unavailable columns, which keep the row's old values (`warehouse/schema/platform.sql`, lines 1143 and 1266-1305) so that their order matters, nor what a tombstone keeps of the deleted row. It speaks of one table; what lands in the shadow is a sequence of its own.
- Login policy: which database user may record an approval; the approver of each table is an input of `OwnershipRepo.Repository.Apply`.
- Who may fire a transition, and the compare-and-set of `transition_ownership`: `Repository.Apply` reads and writes a row under the row's lock, so the comparison cannot fail.
- Ownership across deletion and re-creation of a row, and reuse of capture generations after re-registration.
- Array literals with dimensions or with text after the closing brace, which neither encoder writes; a nested literal counts as unreadable.
- Hash collisions: the hash is any function, and equal sums are not taken to mean equal rows.
- `plan_assignments` is modelled for one ownership row; its filter by contract and its sort order are not.
- BackfillProofs.RunBackfill: covers a run that is neither fenced nor dies; a run that stops at a commit is `Extraction.Extract`'s.
- Planner.PlanActions: the order in which a cluster lists its connectors is a parameter, and an action that fails is not modelled.
- Column values beyond the cursor are one opaque value per row, and withheld personal columns are not modelled.
- Python's white space outside ASCII: `Ownership.Blank` does not know it. What counts as a digit in a name is a parameter.
- `abs(hashtext(...))` is any non-negative hash.
- Connect failures during a round, connectors that fail again, and `cleanup_stale_slots` beyond the choice of slots.
- The generator's key and table distributions, pacing and report counters other than sends, duplicates and deletes.
- Superset, dbt, licences, topic provisioning, contract loading and secrets.
