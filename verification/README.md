# Verified model of the real-time lakehouse pipeline

A Dafny model of the data path and the release chain of the lakehouse repository, with proofs:

* **Source** (`Source`, `SourceRuns`, `SourceRows`, `SourceTables`): the traffic generator as a state machine over
  customers, orders and items. Each action is one commit; every row change is appended to the
  change log of its table. `SourceDb` is the imperative form (one SQL statement a method).
* **Bronze and Silver** (`Cdc`, `Dedup`, `Tables`, `Lakehouse`): topics re-appended on every run,
  `latest_per_key` as `row_number` over any order of ties, tables under dynamic partition overwrite.
  `Warehouse` is the imperative form.
* **Gold** (`Gold`, `GoldLaws`, `GoldRows`, `Relational`, `Dbt`, `Rounding`): the Spark job and the dbt
  models, with SQL NULL as `Option` and money as integer cents.
* **Batch runs** (`LakehouseRuns`, `Leftovers`, `Books`, `EndToEnd`, `GoldRuns`, `SourceToLake`, `SourceToGold`, `Skew`): arbitrary
  schedules of batch runs against a source that keeps committing, each topic read at its own cut;
  which old rows stay behind, what the two Gold tables book, and what each stored row says of the source.
* **Streaming** (`Windows`, `Streaming`, `Interleaved`, `Dashboard`): the one-minute revenue windows as
  an operator with accumulators, checkpoints, crashes and replay, under any watermarks and any
  interleaving of the topic's partitions, and the frame the dashboard shows.
* **Promotion** (`ImagePins`, `Promotion`, `PromoteScript`): `promote.sh` over real `images:` blocks,
  the CD bumps, reverts, ArgoCD's reconciliations and manual syncs.

The main theorems are about every run: `StepKeepsConsistent`/`RunKeepsConsistent` (source invariant),
`StoredEqualsRecompute`, `ItemsEqualRecomputeIff` and `DailyEqualsRecomputeIff` (the stored tables over all
schedules), `SilverColumns`, `MetricsOfSource` and `DailyOfSource` (their columns, read off the source),
`ConservationIff` and `StoredConservationIff` (two independent revenue computations agree, and exactly when,
read off the source at the runs' cuts), `EveryRunFitsWithFewOrders`, `DbtNeverFails`, `MinutesAreWritten`
(exactly which windows the streaming job writes, by the clock), `CrashAndReplayAreInvisible` and
`EveryRunCatchesUp`, `OpenWindowsMatchOrdersTable`, `EveryProdTagWasStaged`, `ProdMovesOnlyAtTheGate` and
`ExitCodeIff`. What a row, a window or an exit code says is stated without the functions the operations
run: columns, days, minutes, statuses and phases are written out.

`dafny verify dfyconfig.toml` checks the whole project.

## Assumptions stated in the contracts

* **Time stamps.** `InOrderPerKey`: `ts_ms` never falls along the events of one key. Ties are allowed as
  long as, at every run, a key's newest Bronze rows agree (`Settled`). `create_order` writes the same order
  twice in one transaction (insert with total 0, then the real total), so this is a real condition, and
  `Cdc.LastUpsertsIffSettled` shows it is the exact one: `Skew.EqualStampsLoseTheTotal` has equal stamps
  and may keep the 0.
* **Retention.** `Retains`: each key's last upsert is still in the topic or already in Bronze.
  `Cdc.RetentionRetains` derives it from `compact,delete`: compaction keeps the last record of each key, and
  whatever has expired had been read before. `Skew.AnyScheduleGoesOn` shows that every schedule can go on
  over topics compacted and expired in any such way.
* **Cuts.** One batch run reads orders, then customers, then items, each after some number of
  whole commits, and runs do not overlap.
* **Streaming replay.** A topic, the places where watermarks fall in it and their values are the same on
  every read. The values are otherwise arbitrary; the operator ignores one that is behind its own.
* **Gate.** A sync operation reported `Succeeded` has rolled the pods (`ValidCall`).

## What the code does, where that differs from what it says

* `02_silver_transform.py:9` says keys whose last operation is a delete are excluded; the code filters to
  upserts before the dedup, so such a key keeps its last image. Silver equals the source exactly when no
  upserted key ends in a delete (`Cdc.FilterThenDedupIffNoDelete`; `Cdc.CreatedAndDeleted` is a
  two-event log where it does not); the generator issues none.
* Items read before their order are stored with a NULL date; such a row stays behind in its NULL partition
  when a later run dates the item and no orphan is left in the bucket, so the line is booked twice
  (`Skew.ConservationNeedsCommonCuts` builds such a run). Line-item revenue equals order-total
  revenue exactly when no stored line without a date belongs to a revenue order, which
  `EndToEnd.ConservationIff` also states in terms of the runs' cuts.
* A month that loses its last revenue order keeps its rows in gold.daily_revenue, because the output no
  longer touches that partition (`Leftovers.DailyEqualsRecomputeIff`;
  `Skew.CancelledMonthKeepsItsRows` builds such a run, with every topic read at one commit).
* Where a dbt model fails on an overflowing cast, the Spark job instead books an order's total in place of
  its items, writes a NULL day, or gives a customer a lifetime revenue of 0 (`Dbt.DbtDailyRefinesSpark`,
  `Dbt.DbtMetricsRefineSpark`). Two lines of nine hundred quadrillion cents are enough (`Dbt.DbtCanFail`); the
  generator's amounts never get there (`GoldRuns.DbtNeverFails`).
* A connector snapshot (`snapshot.mode: always`) repeats inserts of live rows, and the windows then count
  them again: an open window matches the orders table exactly when no row of it was re-read
  (`Interleaved.OpenWindowsMatchOrdersTable`).
* `promote.sh prod --sync --dry-run` opens the gate when the tag is already pinned (`Promotion.DryRun`);
  promoting an already pinned tag ignores a different image name (`Promotion.SuccessPinsSource`); a commit whose
  push failed is not pushed by running the script again (`Promotion.LostPushIsNotRetried`), and
  `Promotion.SuccessReachesMain` says exactly when a reported success is on main.
  The script copies pins, never live state, and never asks whether staging's smoke Job passed.
* `read_image_field` stops at an image name that itself contains `name:`
  (`ImagePins.WrittenPinIsReadBack`); `promote.sh` then reports an unreadable source, so it never copies
  such a pin (`PromoteScript.CopiedPin`).

## Model

| member | source | states |
|---|---|---|
| `SourceRuns.LifecycleShape` | demo/generate_traffic.py:41-47 | terminal statuses are exactly the known ones without a successor; every transition strictly lowers a rank; cancellation is reachable only from pending and confirmed |
| `SourceRuns.AtMostFourTransitions` | demo/generate_traffic.py:66-80 | on every run from the seed, status changes logged for an order plus transitions left never exceed four |
| `SourceRuns.OrderEvents` | demo/generate_traffic.py:138-154 | every event a commit adds to the orders topic is an insert of a pending order, a re-read, or an update that keeps the status or follows STATUS_FLOW, with the true before image |
| `SourceRuns.SeedIsConsistent` | infra/kubernetes/base/postgres/init.sql:60-71 | the seed data satisfies the source invariant |
| `SourceRuns.CreateOrderConsistent` | demo/generate_traffic.py:107-135 | creating an order keeps every total equal to the sum of its one to four lines, foreign keys closed, logs replaying to the tables |
| `SourceRuns.UpdateQuantityConsistent` | demo/generate_traffic.py:157-175 | changing a quantity of a pending order and resumming its total keeps the source invariant for every order |
| `SourceRuns.StepKeepsConsistent` | demo/generate_traffic.py:209-214 | every action keeps the source invariant, and the new state extends the old one (nothing removed, join and partition keys unchanged, placed orders frozen) |
| `SourceRuns.TotalsMatchLines` | demo/generate_traffic.py:122-134 | at every commit of every run each order's total is the sum of quantity times unit price of its items |
| `SourceRuns.FrozenOncePlaced` | demo/generate_traffic.py:157-162 | between any two commits of a run, an order that has left pending keeps its total and items, and a shipped order is never cancelled |
| `SourceRows.CustomerIsCreated` | demo/generate_traffic.py:97-104 | a new customer has the drawn name and address, and nothing else changes |
| `SourceRows.OrderIsCreated` | demo/generate_traffic.py:107-135 | a new order is pending, dated now and totals its lines at catalogue prices, its new items are exactly those lines in order, and no other row changes |
| `SourceRows.OrderIsProgressed` | demo/generate_traffic.py:138-154 | the order has the drawn status and the new update time, unless its status has no successor; nothing else changes |
| `SourceRows.QuantityIsUpdated` | demo/generate_traffic.py:157-175 | the item has the drawn quantity, its order's total has moved by the difference times the price, nothing else changes |
| `SourceRuns.OrdersTopicIsWellFormed` | infra/kubernetes/base/postgres/init.sql:51-54 | without re-snapshots the orders topic is a changelog whose before images are the rows they replace |
| `Interleaved.OrdersTopicIsLegal` | pipelines/streaming/flink-jobs/order-revenue/job.py:12-15 | with re-snapshots every event is still a legal step from the table before it or the first read of a row |
| `SourceTables.SourceDb.CreateOrder` | demo/generate_traffic.py:107-135 | the statement-by-statement transaction, with its running total, has the effect of one specified step |
| `SourceTables.SourceDb.ProgressOrder` | demo/generate_traffic.py:138-154 | the transaction has the effect of one step, nothing happening without a row or a successor |
| `SourceTables.SourceDb.UpdateItemQuantity` | demo/generate_traffic.py:157-175 | the two updates have the effect of one step, the total being the SQL sum after the first |
| `SourceTables.SourceDb.RunActions` | demo/generate_traffic.py:206-215 | the commit loop reaches exactly the specified run state and counts its actions |
| `SourceTables.SumOfLines` | demo/generate_traffic.py:169-174 | the aggregate computed row by row is the order's sum, whatever order the rows come in |
| `Cdc.IngestKeepsFaithful` | pipelines/batch/spark-jobs/01_bronze_ingest.py:75-96 | re-appending any retained part of the grown topic keeps Bronze faithful: only records of the log, every key's last upsert among them |
| `Cdc.RetentionRetains` | pipelines/streaming/kafka-topics/cdc-orders.yaml:13-21 | whatever prefix the last run had read: compaction that keeps each key's last record, and expiry of records read by then, lose nothing that Silver needs, when no key is deleted |
| `Dedup.LatestPerKeyKeepsNewest` | pipelines/batch/spark-jobs/lakehouse_common.py:127-139 | for every bag of rows and every order of ties, exactly one row per key is kept and it has the key's highest ts_ms |
| `Dedup.DeterminedIffTiesAgree` | pipelines/batch/spark-jobs/lakehouse_common.py:138-139 | the kept value of a key is independent of the engine if and only if all its newest rows carry the same value |
| `Dedup.KeepNewest` | pipelines/batch/spark-jobs/lakehouse_common.py:127-139 | the one-pass reading: a loop over the rows keeps for every key of the input, and no other, one of its newest rows |
| `Dedup.OnePassIsRowNumber` | pipelines/batch/spark-jobs/lakehouse_common.py:127-139 | where ties agree, that map and the `row_number` query keep the same rows, whatever the order of ties |
| `Dedup.DedupIsIdempotent` | pipelines/batch/spark-jobs/lakehouse_common.py:127-139 | deduplicating twice keeps exactly the same rows |
| `Cdc.SilverIsLastUpserts` | pipelines/batch/spark-jobs/02_silver_transform.py:29-44 | from any faithful Bronze whose newest rows agree, with duplicates, tombstones and deletes, Silver is exactly each key's last upsert |
| `Cdc.LastUpsertsIffSettled` | pipelines/batch/spark-jobs/lakehouse_common.py:138-139 | under every order of ties Silver is that, if and only if each key's newest Bronze rows agree |
| `Cdc.SettledIfClear` | pipelines/batch/spark-jobs/01_bronze_ingest.py:52-59 | they agree if no upsert in the log ties with its key's last one and differs, and only then when Bronze holds the whole log |
| `Cdc.FilterThenDedupIffNoDelete` | pipelines/batch/spark-jobs/02_silver_transform.py:8-44 | that equals the replayed source table if and only if no upserted key's last event is a delete |
| `Cdc.SilverRefinesSource` | pipelines/batch/spark-jobs/02_silver_transform.py:26-69 | with no delete in the log, Silver's business columns are the source table |
| `Cdc.DeletedRowSurvives` | pipelines/batch/spark-jobs/02_silver_transform.py:29 | deleting any live row takes it out of the source table and leaves it in Silver unchanged |
| `Cdc.CreatedAndDeleted` | pipelines/batch/spark-jobs/02_silver_transform.py:8-9 | a concrete well-formed log, one row created and deleted, whose table is empty while Silver keeps the row |
| `LakehouseRuns.SilverMirrorsSource` | pipelines/batch/spark-jobs/02_silver_transform.py:26-69 | the projected rows hold one row per source key, each the image of its source row |
| `SourceToLake.SilverColumns` | pipelines/batch/spark-jobs/02_silver_transform.py:29-69 | after every schedule silver.orders and silver.customers hold one row per source row at their cuts, equal in every business column, currency NULL |
| `SourceToLake.ItemColumns` | pipelines/batch/spark-jobs/02_silver_transform.py:72-99 | so do the items the last run computed, with line_total the product of quantity and price and the order's date if it was seen; at common cuts the stored table |
| `SourceToLake.PartitionsOfTheDdl` | data/models/iceberg/silver/order_items.sql:20 | two Silver rows share a partition exactly if they were created on one day, items if moreover the bucket of their order is the same |
| `SourceToLake.GoldPartitionsOfTheDdl` | data/models/iceberg/gold/customer_metrics.sql:20 | daily rows share a partition exactly if their dates are in one month, metrics rows if their customers are in one bucket |
| `SourceToLake.GenericEventsAreKept` | pipelines/batch/spark-jobs/01_bronze_ingest.py:99-131 | after every schedule raw.kafka_events holds exactly the records the runs found, in order |
| `Tables.OverwriteIsRecomputeIffTouched` | pipelines/batch/spark-jobs/02_silver_transform.py:46 | a stored table equals the new output, as a list and as a bag, if and only if every old row's partition occurs in the output |
| `Tables.OverwriteReplaces` | pipelines/batch/spark-jobs/02_silver_transform.py:46 | partition by partition, overwriting leaves the output's rows where the output has any and the old rows elsewhere |
| `Tables.Table.OverwritePartitions` | pipelines/batch/spark-jobs/03_gold_aggregate.py:84 | the loop leaves exactly that in every partition |
| `Tables.Table.Append` | pipelines/batch/spark-jobs/01_bronze_ingest.py:89-96 | rows are appended and counted, an empty read changing nothing |
| `Lakehouse.Warehouse.BronzeIngest` | pipelines/batch/spark-jobs/01_bronze_ingest.py:134-144 | the three CDC topics in order and then the generic events are appended, and the total is the number of rows added |
| `Lakehouse.Warehouse.SilverTransform` | pipelines/batch/spark-jobs/02_silver_transform.py:103-110 | in each partition of the three tables the deduplicated rows (whose columns `SourceToLake.SilverColumns` gives) replace the old ones, items joined with the orders just stored |
| `Lakehouse.Warehouse.GoldAggregate` | pipelines/batch/spark-jobs/03_gold_aggregate.py:30-123 | in each partition of both Gold tables the rows computed from the stored Silver tables replace the old ones |
| `Lakehouse.Warehouse.Batch` | pipelines/batch/spark-jobs/01_bronze_ingest.py:134-144 | the three jobs in sequence have the effect of one specified batch run |
| `LakehouseRuns.EnrichedItemsMirror` | pipelines/batch/spark-jobs/02_silver_transform.py:72-99 | the left join with silver.orders has no fan-out and dates each item exactly when its order is there |
| `LakehouseRuns.RunIsHistory` | demo/generate_traffic.py:209-214 | the states of any run of the generator form a history of commits, the world the schedules range over |
| `LakehouseRuns.StoredEqualsRecompute` | pipelines/batch/spark-jobs/02_silver_transform.py:103-110 | after every schedule, silver.orders, silver.customers and gold.customer_metrics are what the last run computed, and the first two mirror the source at their cuts with one row per key |
| `LakehouseRuns.ItemsMirrorSource` | pipelines/batch/spark-jobs/02_silver_transform.py:72-99 | what the last run computed for silver.order_items mirrors the source's items, each dated if its order was seen; at common cuts the stored table does |
| `LakehouseRuns.MetricsHaveOneRowEach` | pipelines/batch/spark-jobs/03_gold_aggregate.py:108-122 | the stored gold.customer_metrics has exactly one row per customer of the source |
| `LakehouseRuns.DatedRowIsReplaced` | data/models/iceberg/silver/order_items.sql:20 | an item row with a date is rewritten in its own partition by every later run |
| `Leftovers.NullRowsAreLeftBehind` | pipelines/batch/spark-jobs/02_silver_transform.py:77-99 | silver.order_items stores an undated row of an order if and only if some run read its items without it and no later run read an orphan of its bucket |
| `Leftovers.ItemsEqualRecomputeIff` | pipelines/batch/spark-jobs/02_silver_transform.py:97-99 | silver.order_items equals its recompute if and only if every order left behind before has an orphan in its bucket again |
| `LakehouseRuns.CommonCutsRecomputeItems` | pipelines/batch/spark-jobs/02_silver_transform.py:97-99 | when all topics of each run are read at one commit, it always does |
| `Leftovers.MonthInOutputIffEarns` | pipelines/batch/spark-jobs/03_gold_aggregate.py:52-82 | a month occurs in the job's output if and only if it has a revenue order |
| `Leftovers.StoredMonths` | data/models/iceberg/gold/daily_revenue.sql:18 | the months stored are exactly those that had a revenue order when some run read the orders |
| `Leftovers.DailyEqualsRecomputeIff` | pipelines/batch/spark-jobs/03_gold_aggregate.py:84 | gold.daily_revenue equals its recompute if and only if no month with a revenue order at some earlier run's cut is without one at the last |
| `LakehouseRuns.SkewedCutsAreClosed` | pipelines/batch/spark-jobs/01_bronze_ingest.py:29-33 | topics read in the configured order: every Silver order has its customer in Silver and every item it had at the orders' cut |
| `GoldLaws.NoFanOut` | pipelines/batch/spark-jobs/03_gold_aggregate.py:38-59 | the join with the per-order aggregate gives one row per revenue order carrying exactly its items, or its total if it has none |
| `GoldLaws.OneRowPerDateAndCurrency` | pipelines/batch/spark-jobs/03_gold_aggregate.py:60-68 | the daily table has one row per date and currency, also after the join with new customers |
| `GoldLaws.DailyCountsOrders` | pipelines/batch/spark-jobs/03_gold_aggregate.py:62 | order_count over all rows sums to the number of revenue orders |
| `GoldLaws.DailyCountsItems` | pipelines/batch/spark-jobs/03_gold_aggregate.py:63 | item_count over all rows sums to the items of the revenue orders |
| `GoldLaws.NewCustomersAddUp` | pipelines/batch/spark-jobs/03_gold_aggregate.py:43-69 | with the NULL currency Silver writes, new_customers sums to the number of distinct customers with a revenue order |
| `GoldRows.DailyRowCounts` | pipelines/batch/spark-jobs/03_gold_aggregate.py:52-63 | for every Silver input a daily row counts the revenue orders created on its day in its currency, at least one, and their items |
| `GoldRows.DailyRowRevenue` | pipelines/batch/spark-jobs/03_gold_aggregate.py:56-66 | gross and net are the lines of those orders, or the total of one without lines, and the average is their mean to the nearest cent |
| `GoldRows.DailyRowNewCustomers` | pipelines/batch/spark-jobs/03_gold_aggregate.py:43-50 | for every Silver input new_customers of a row is the number of distinct customers with a revenue order created on its day and none before; 0 for a missing date |
| `GoldRows.EveryOrderHasItsDay` | pipelines/batch/spark-jobs/03_gold_aggregate.py:53-60 | every revenue order has a row of its day and currency |
| `GoldLaws.DailyNetTotal` | pipelines/batch/spark-jobs/03_gold_aggregate.py:56-65 | if every revenue order's line revenue is known and they fit the column together, net_revenue sums to exactly them, no row NULL or empty |
| `GoldLaws.MetricsRowsAre` | pipelines/batch/spark-jobs/03_gold_aggregate.py:97-120 | one metrics row per upserted customer, computed from exactly that customer's revenue orders |
| `GoldRows.MetricsRowDates` | pipelines/batch/spark-jobs/03_gold_aggregate.py:97-118 | for every Silver input a metrics row counts its customer's revenue orders, gives the day of the first and the last, today minus the last, and churn exactly after more than 90 days |
| `GoldRows.MetricsRowRevenue` | pipelines/batch/spark-jobs/03_gold_aggregate.py:100-116 | its revenue is the sum of their totals, its average their mean to the nearest cent |
| `GoldLaws.MetricsMeetGate` | quality/great-expectations/runner.py:99-107 | for every Silver input each row has first date at most last date, consistent NULLs and a churn flag that is days > 90; the gate's churn query counts zero |
| `GoldRuns.StoredMetricsPassSuite` | quality/great-expectations/expectations/gold_customer_metrics.json:84-149 | on every run and schedule each stored metrics row meets these, with revenue and average not negative, and 0 to 36500 days if the orders were created within a hundred years |
| `GoldRuns.NewCustomersOverSchedules` | pipelines/batch/spark-jobs/03_gold_aggregate.py:43-69 | on every run and schedule the days' new customers sum to the distinct customers with a revenue order in Silver |
| `GoldLaws.MetricsTotal` | pipelines/batch/spark-jobs/03_gold_aggregate.py:97-116 | if every customer of a revenue order is present once, total_revenue sums to the revenue orders' totals |
| `GoldLaws.MetricsCountOrders` | pipelines/batch/spark-jobs/03_gold_aggregate.py:114 | and total_orders sums to their number |
| `Books.LinesMatchTotal` | pipelines/batch/spark-jobs/03_gold_aggregate.py:56-59 | even at skewed cuts the current lines of a revenue order add up to its total_amount |
| `EndToEnd.TablesAreBooked` | pipelines/batch/spark-jobs/03_gold_aggregate.py:38-67 | after every schedule the stored lines of each revenue order are its total plus its undated lines, and its customer is there once |
| `Books.TotalBounds` | infra/kubernetes/base/postgres/init.sql:18 | every order total is positive and at most four lines of five of the dearest product |
| `SourceToGold.MetricsOfSource` | pipelines/batch/spark-jobs/03_gold_aggregate.py:88-122 | after every schedule each stored metrics row gives the number of its customer's revenue orders in the source, the first and last day, the days since and churn |
| `SourceToGold.MetricsRevenueOfSource` | pipelines/batch/spark-jobs/03_gold_aggregate.py:100-101 | and the sum of their totals and the mean, up to 10^12 orders |
| `SourceToGold.DailyOfSource` | pipelines/batch/spark-jobs/03_gold_aggregate.py:30-82 | on every schedule the job's daily rows are one for each day with revenue orders in the source, counting these orders and the customers for whom they are the first |
| `SourceToGold.DailyRevenueOfSource` | pipelines/batch/spark-jobs/03_gold_aggregate.py:64-66 | unless some line was booked twice, whatever the cuts, their revenue is the sum of these orders' totals and the average the mean |
| `EndToEnd.UndatedNeverPileUp` | data/models/iceberg/silver/order_items.sql:20 | after every schedule, however long, the undated lines stored for one order never exceed one order's bound |
| `EndToEnd.EveryRunFitsWithFewOrders` | pipelines/batch/spark-jobs/03_gold_aggregate.py:64-65 | so the summed books of every run of every schedule, at any cuts, stay inside DECIMAL(18,2) for up to 7·10^11 source orders |
| `GoldRuns.EveryCastFits` | pipelines/batch/spark-jobs/lakehouse_common.py:151-154 | and no cast of either implementation overflows: per order, per day, per customer |
| `EndToEnd.RevenueExcess` | pipelines/batch/spark-jobs/03_gold_aggregate.py:38-116 | for every run and schedule, summed net_revenue exceeds summed total_revenue by exactly the undated lines of revenue orders |
| `EndToEnd.ConservationIff` | pipelines/batch/spark-jobs/03_gold_aggregate.py:38-116 | the two agree if and only if no stored undated line belongs to a revenue order, that is, if no order was left behind by some run and earns revenue at the last |
| `EndToEnd.Conservation` | pipelines/batch/spark-jobs/03_gold_aggregate.py:97-116 | with every run ingested at one common cut the two always agree, for up to 10^12 orders |
| `EndToEnd.StoredConservationIff` | pipelines/batch/spark-jobs/03_gold_aggregate.py:84 | whatever the cuts, the two stored Gold tables agree if and only if no line was booked twice and no month has lost its last revenue order |
| `EndToEnd.StoredConservationAtCommonCuts` | pipelines/batch/spark-jobs/03_gold_aggregate.py:84 | at common cuts, if and only if no month has |
| `Skew.CancelledMonthKeepsItsRows` | pipelines/batch/spark-jobs/03_gold_aggregate.py:84 | a source run and a schedule at common cuts are built after which the stored daily table is neither its recompute nor equal to the lifetime revenue |
| `Skew.EqualStampsLoseTheTotal` | demo/generate_traffic.py:116-134 | if the insert and the update of a new order carry the same ts_ms, some order of ties keeps the total 0 |
| `Skew.AnyScheduleGoesOn` | pipelines/batch/spark-jobs/01_bronze_ingest.py:40-59 | any schedule extends, at any later cuts without unsettled ties and on whatever compaction and expiry have left of each topic, by a run that reads exactly that, so the theorems on schedules cover these |
| `Skew.ConservationNeedsCommonCuts` | pipelines/batch/spark-jobs/01_bronze_ingest.py:139-142 | there is a source run and a schedule of two batch runs after which conservation fails, recomputed and stored |
| `Rounding.DoubleRoundingIsHarmless` | pipelines/batch/spark-jobs/03_gold_aggregate.py:66 | rounding half up to 1/m of a cent and then to cents equals direct rounding for every sum whenever the count is small enough |
| `Rounding.DoubleRoundingExactly` | pipelines/dbt/models/gold/daily_revenue.sql:66-68 | no sum is rounded differently if and only if the count is below m (odd) or 2m (even) |
| `Rounding.WithinHalfACent` | pipelines/batch/spark-jobs/03_gold_aggregate.py:101 | the doubly rounded average is within half a cent of the exact one |
| `Dbt.DbtDailyRefinesSpark` | pipelines/dbt/models/gold/daily_revenue.sql:11-86 | for every Silver state, NULLs included, the query returns the rows of the Spark job, or it fails and the Spark job has booked a total for lost items or written a NULL day |
| `Dbt.DbtMetricsRefineSpark` | pipelines/dbt/models/gold/customer_metrics.sql:12-61 | likewise for the customer metrics, recency and churn included; where the query fails the Spark job gives a customer with orders a revenue of 0 |
| `Dbt.DbtCanFail` | pipelines/dbt/models/gold/daily_revenue.sql:28-37 | any Silver state holding just two equal lines of 9·10^17 cents of one order fails the query, and the Spark job books that order's total |
| `GoldRuns.DbtNeverFails` | pipelines/dbt/models/gold/customer_metrics.sql:1-4 | on every run and schedule over fewer than 10^10 orders neither query fails, and they return the stored customer metrics and the Spark job's daily revenue |
| `Windows.IncrementalIsRecompute` | pipelines/streaming/flink-jobs/order-revenue/job.py:90-100 | on every well-formed changelog and for whatever watermarks, wherever they fall, the operator emits exactly the recomputed windows, and each open window's count and sum are those of the live rows in it |
| `Windows.EachWindowOnce` | pipelines/streaming/flink-jobs/order-revenue/job.py:88-89 | each window is emitted at most once, and only after the watermark has passed its end |
| `Streaming.MinutesAreWritten` | pipelines/streaming/flink-jobs/order-revenue/job.py:88-100 | for every well-formed changelog and whatever watermarks, a record writes nothing and a watermark writes, in time order, exactly the whole minutes that end under it and not under an earlier one, with the number and total of the orders then live in [start, end) |
| `Streaming.OpenMinutes` | pipelines/streaming/flink-jobs/order-revenue/job.py:93-99 | a minute that no watermark has passed holds the number and total of the orders live in it |
| `Windows.NewestIsNewest` | pipelines/streaming/flink-jobs/order-revenue/job.py:56 | the time a partition's watermark is derived from is the newest updated_at read from it |
| `Windows.OnTimeIsNeverDropped` | pipelines/streaming/flink-jobs/order-revenue/job.py:56 | with a watermark per partition and their minimum for the job, a change less than five seconds behind the newest row of its own partition comes before the end of its minute has been passed and counts in it |
| `Streaming.RevenueJob.AdvanceWatermark` | pipelines/streaming/flink-jobs/order-revenue/job.py:88-100 | due windows are written in time order and their state dropped, as specified by firing |
| `Streaming.RevenueJob.ReadRecord` | pipelines/streaming/flink-jobs/order-revenue/job.py:12-17 | a record is unwrapped into its retractions and insertions and accumulated one by one |
| `Streaming.RevenueJob.Perform` | pipelines/streaming/flink-jobs/order-revenue/job.py:36-41 | polls, checkpoints and crashes have the specified effect on operator, offset and sink |
| `Streaming.CrashAndReplayAreInvisible` | pipelines/streaming/flink-jobs/order-revenue/job.py:38-40 | for every watermark sequence and every pattern of checkpoints and crashes the dashboard shows the frame of a crash-free run, and at the end of the input state and frame are those of the run that never crashed |
| `Streaming.FirstPolls` | pipelines/streaming/flink-jobs/order-revenue/job.py:54 | n polls from the start read the first n inputs: offset, state and topic are those of the crash-free run over them |
| `Streaming.PollsRead` | pipelines/streaming/flink-jobs/order-revenue/job.py:90-100 | after any checkpoints and crashes, n polls read the next n inputs, or all that are left, and write what the crash-free run writes for them |
| `Streaming.EveryRunCatchesUp` | pipelines/streaming/flink-jobs/order-revenue/job.py:38-40 | after any events, as many polls as there are inputs end at the end of the input, in the state and with the frame of the run that never crashed |
| `Streaming.CrashResumesAtCheckpoint` | pipelines/streaming/flink-jobs/order-revenue/job.py:36-41 | a crash goes back to offset and state at the last checkpoint, or to the start if there was none, and takes back nothing that was written |
| `Interleaved.DeliveredTopicIsValid` | pipelines/streaming/kafka-topics/cdc-orders.yaml:16-17 | without re-snapshots: however the partitions are interleaved, the delivered topic is a well-formed changelog that replays to the orders table |
| `Interleaved.DeliveredTopicIsLegal` | pipelines/streaming/kafka-topics/cdc-orders.yaml:16-17 | with them: however the partitions are interleaved, every delivered event is a legal step from the table before it or the first read of a row, and the topic replays to the orders table |
| `Interleaved.EmittedIsLiveAndRepeated` | pipelines/streaming/flink-jobs/order-revenue/job.py:88-100 | on every such topic each row a watermark emits holds the orders then live in its window, plus once more each row re-read in it |
| `Interleaved.OpenWindowsMatchOrdersTable` | pipelines/streaming/flink-jobs/order-revenue/job.py:48-68 | for every source run with re-snapshots, every interleaving and whatever watermarks, an open window holds the orders last updated in it plus once more each row re-read in it, so it matches the table if and only if there was none |
| `Dashboard.FrameIsSortedLast` | demo/dashboard.py:55 | keep-last and sort give a strictly sorted frame of exactly the last row of each window |
| `Dashboard.DisplayedFrame` | demo/dashboard.py:48-57 | the frame shown is the newest part of that: within six hours of the maximum, at most max_windows rows, and no shorter than these limits demand |
| `Dashboard.SameRowsSameFrame` | demo/dashboard.py:55-57 | topics with the same rows, each window having one value, display the same frame however often and in whatever order rows occur |
| `ImagePins.ReadImageField` | scripts/promote.sh:69-75 | the line loop returns what the awk program prints |
| `ImagePins.ReadsFromList` | scripts/promote.sh:69-75 | wherever the entry sits in the list its name is read, and its tag unless the name contains `name:` |
| `ImagePins.WrittenPinIsReadBack` | scripts/promote.sh:96 | after the edit the written name is read back, and the written tag if and only if the name does not contain `name:` |
| `ImagePins.SetKeepsOthers` | scripts/promote.sh:96 | the edit leaves every other image of the list as it was |
| `PromoteScript.CopiedPin` | scripts/promote.sh:77-96 | a pin that could be read from the source file and is written to the target file is exactly what is read from it afterwards |
| `PromoteScript.Checkout.Run` | scripts/promote.sh:77-173 | the script on files, commits, push and polling has the effect and exit code of the specified promotion; dev and source files never change, a dry run restores the file |
| `PromoteScript.Checkout.CommitTarget` | scripts/promote.sh:108-110 | one commit repinning the target is appended, and main moves only if the push is a fast-forward that arrives |
| `PromoteScript.Checkout.WaitForOperation` | scripts/promote.sh:157-164 | the wait returns the first of the sixty answers that is Succeeded, Failed or Error, or the sixtieth if none is |
| `Promotion.StrictChain` | scripts/promote.sh:19-20 | over every run of bumps, promotions, dry runs, reconciliations, manual syncs, pulls and reverts, each tag pinned in prod was pinned in staging strictly before, and in dev before that |
| `Promotion.EveryProdTagWasStaged` | scripts/promote.sh:19-20 | from one release everywhere, over every such run, each tag ever pinned in prod on main was pinned in staging and dev by then |
| `Promotion.ProdRunsLastSync` | infra/argocd/control-plane/applicationset.yaml:86-95 | under any sync modes and over every run, prod runs what main pinned when prod was last synced, and what it ran before if it never was |
| `Promotion.ProdMovesOnlyAtTheGate` | infra/argocd/envs/prod.yaml:4-12 | with prod's mode manual and however often ArgoCD reconciles, that last sync was the script's gate or a manual one, and prod runs what main pinned then |
| `Promotion.GateIffManual` | infra/argocd/control-plane/applicationset.yaml:86-95 | where main pins something prod does not run, a reconciliation leaves prod alone if and only if its mode is manual |
| `Promotion.LiveProdWasStaged` | scripts/promote.sh:121-155 | whatever runs in prod at any time was pinned in prod, and in staging and dev no later |
| `Promotion.DryRunsCanBeSkipped` | scripts/promote.sh:99-103 | over every run, leaving out all dry runs but `prod --sync` ones changes neither repository nor live state |
| `Promotion.ExitCodeIff` | scripts/promote.sh:77-173 | the script exits 0 if and only if the source pin is readable, the tag is pinned already or the change is clean and a dry run or pushed, and a prod sync that opens the gate has kubectl and finds Succeeded as the first terminal answer |
| `Promotion.SuccessPinsSource` | scripts/promote.sh:87-110 | after exit code 0 the clone pins the source's tag in the target, its name exactly if something changed or it was the same, and no other pin has changed |
| `Promotion.CiIsFreshCheckout` | .github/workflows/promote.yml:47 | a promotion in CI does to main what a local one from a fresh checkout does |
| `Promotion.BumpPinsDev` | .github/workflows/cd.yml:50-76 | a bump leaves main with the new dev pin and both overlays as they were |
| `Promotion.ReconcileRollsToMain` | infra/argocd/control-plane/applicationset.yaml:86-95 | a reconciliation rolls an automated application to main's pin and leaves a manual one, a manual sync rolls any; neither touches another application |
| `Promotion.RevertRestores` | docs/decisions/0012-multi-env-promotion-applicationsets.md:73 | reverting the last commit brings back the pins before it, on main too if pushed |
| `Promotion.ResetRecovers` | scripts/promote.sh:83-110 | after a commit whose push was lost, resetting the clone and promoting again pins main's source tag on main |
| `Promotion.SuccessReachesMain` | scripts/promote.sh:83-110 | after exit code 0 main pins the source's tag if and only if it differed from the clone's target or main had it already |
| `Promotion.SuccessfulGate` | scripts/promote.sh:137-173 | after a successful prod sync prod runs main's pin, which is the clone's staging tag under that same condition before the call |

## Left out

- Spark, Kafka, Trino, Postgres and HTTP clients and session set-up: topics are logs and tables are lists of rows.
- JSON extraction, UUIDs, `cdc_id`, `ingested_at`, `_ingested_at`, `computed_at` and the always-NULL `country_code` and `segment`: metadata outside the business columns.
- The contents of `raw.events` records, the exchange-rate loader, the smoke check and the rest of the quality runner: plain loops and library calls.
- Randomness: draws and the clock are action parameters, weights are dropped, and the lines of an order need not be distinct products (the model allows more runs).
- Floating point in `create_order`: `total` is accumulated in cents, where the source rounds a float sum to cents.
- `row_number` per partition is modelled on one list sorted by `ts_ms` with ties in any order, which has the same per-key ranks; the projection before the dedup is applied after it.
- Overflow inside Spark's and Trino's wider sum types (28 and 38 digits): only the casts to DECIMAL(18,2) can lose a value.
- `ts_ms`, keys and foreign keys that are missing or malformed in an envelope: the connector always writes them.
- Cuts inside a transaction: a topic read is assumed to end between commits of the source.
- Dbt.DbtDailyRefinesSpark: for fewer than 10^10 orders and totals that fit their DECIMAL(18,2) column, the width Silver stores; beyond that count the two roundings can differ.
- Dbt.DbtMetricsRefineSpark: for fewer than 10^10 orders, for the same reason.
- EndToEnd.Conservation: up to 10^12 orders, the number for which the column cannot overflow.
- EndToEnd.StoredConservationAtCommonCuts: likewise up to 10^12 orders.
- EndToEnd.EveryRunFitsWithFewOrders: up to 7·10^11 orders at any cuts, where an order's lines may be booked twice; beyond that an overflow is not excluded.
- EndToEnd.RevenueExcess: up to 7·10^11 orders, for the same reason.
- EndToEnd.ConservationIff: up to 7·10^11 orders, for the same reason.
- EndToEnd.StoredConservationIff: up to 7·10^11 orders, for the same reason.
- SourceToGold.DailyRevenueOfSource: up to 7·10^11 orders, for the same reason; averages for days of fewer than 10^10 orders, beyond which rounding twice can be off by a cent.
- SourceToGold.MetricsRevenueOfSource: up to 10^12 orders, and averages likewise.
- GoldRows.DailyRowRevenue: averages for fewer than 10^10 orders a row; sums that overflow the column are the subject of `Dbt.DbtDailyRefinesSpark`.
- GoldRows.MetricsRowRevenue: likewise.
- GoldRuns.EveryCastFits: up to 7·10^11 orders, for the same reason.
- GoldRuns.DbtNeverFails: for fewer than 10^10 orders, as for the two dbt queries above.
- GoldRuns.StoredMetricsPassSuite: the suite's value ranges; null and uniqueness checks are in the row type and `LakehouseRuns.MetricsHaveOneRowEach`, the two always-NULL columns are not modelled.
- SourceRuns.OrdersTopicIsWellFormed: runs without re-snapshots, which repeat inserts of live rows; `Interleaved.OrdersTopicIsLegal` covers them.
- Interleaved.DeliveredTopicIsValid: likewise; `Interleaved.DeliveredTopicIsLegal` and `Interleaved.EmittedIsLiveAndRepeated` cover them.
- Windows.OnTimeIsNeverDropped: no partition is idle; the idle timeout lets the watermark pass a partition that sends nothing for 30 s, and a row it then sends can be late. The other streaming theorems hold with it.
- Flink's `avg_order_value`, state backend and the sink's delivery guarantee: the sink may repeat rows after a crash but loses none.
- Dates are days of a millisecond clock in one time zone, and `month` and `bucket` transforms are arbitrary functions.
- Option parsing and usage messages of `promote.sh`, the check for kustomize, and its first polling loop, which only chooses a message.
- Kustomize's sorting of the list and its digest handling, git histories beyond their sequence of pins, and merges.
- Streamlit rendering, Grafana, Prometheus, Terraform, Airflow and the Kubernetes manifests: configuration.
