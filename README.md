# Payments batch pipeline: a Dafny model

This project models the batch job `importUserJob` of the Payments service
and proves properties of the model. The job is configured in
`BatchConfiguration` and checked by `JobCompletionNotificationListener`.

- **step1** reads `customer` fragments from an XML source. It inserts them
  into the `customer` table in chunks of ten. The INSERT binds the id to
  parameter 1 and the name to parameter 2.
- **step2** reads the table back through a cursor. It maps each row with
  `UserRowMapper.mapRow`, which as a side effect puts `id -> name` into the
  static map `data`. It then appends each record to `users.csv` as the line
  `id,name`, again in chunks of ten.
- **The job** runs step1 and then step2, under a run id that increases by
  one per launch.
- **After the job,** the listener queries the table and logs every row, but
  only when the job COMPLETED.

Modules, one file each:

- `Wrappers`: `Option`.
- `Chunking`: the chunk-oriented step.
  - A reader is an `Input`: the items in order, plus an optional position at
    which reading throws.
  - The provider pulls up to ten items per chunk. A chunk whose read throws
    is rolled back, so only completed chunks reach the writer (`Delivered`).
  - The writer calls are `Chunks`.
- `Records`: the three field movements.
  - `setValues` and the positional INSERT.
  - The `SELECT id,name` result rows and `mapRow`'s lookups by label.
  - The `DelimitedLineAggregator` line.
- `Cache`: the map `data` as a fold over the mapped records (`Upsert`).
- `Listener`: `afterJob`, as a function from the final status and the table
  to the entries it logs.
- `Job`: one launch of the job as a function of the state before it.
  - It covers the phase machine `NotStarted -> Step1 -> Step2 ->
    Completed`, with `Failed` reachable from either step.
  - It also covers the properties of a whole run.
- `Batch`: the class `BatchConfiguration`. Its fields are updated in place:
  - `table`, `data`, `csv`, `log`, `runId` and `phase`.
  - The writers, `mapRow`, the two chunk loops and the job are methods,
    each proved against the functions above.

`ImportUserJob`'s postcondition ties its new state to `Job.Job`. The
properties of `Job.Job` are lemmas.

## Model

| member | source | states |
|---|---|---|
| `Batch.BatchConfiguration.constructor` | src/main/java/com/nordea/payments/app/BatchConfiguration.java:73 | The shared map starts empty, as its initializer makes it. The model also starts the table, the file, the log and the run counter empty. That is an assumption about the environment, listed under "Left out". |
| `Batch.BatchConfiguration.Display` | src/main/java/com/nordea/payments/app/BatchConfiguration.java:247-255 | `display()` returns the shared map itself and changes nothing (no `modifies`). |
| `Records.SetValues` | src/main/java/com/nordea/payments/app/BatchConfiguration.java:125-128 | `setValues` binds parameter 1 to the item's id and parameter 2 to its name. Every other parameter keeps its binding, and no other parameter is added. |
| `Records.Insert` | src/main/java/com/nordea/payments/app/BatchConfiguration.java:109 | `INSERT INTO customer (id, name) VALUES (?,?)` yields a row exactly when parameters 1 and 2 are both bound. The row's id is parameter 1 and its name is parameter 2. |
| `Records.InsertStoresItem` | src/main/java/com/nordea/payments/app/BatchConfiguration.java:122-129 | Binding id to parameter 1 and name to parameter 2, then executing the INSERT, stores a row equal to the item field for field, whatever the statement held before. |
| `Batch.BatchConfiguration.WriteToTable` | src/main/java/com/nordea/payments/app/BatchConfiguration.java:104-114 | Writing one chunk appends exactly one stored row per item, in order, after the existing rows. One prepared statement is rebound for each item. |
| `Records.MapRowCopiesRow` | src/main/java/com/nordea/payments/app/BatchConfiguration.java:154-157 | A selected row carries both labels, and mapping it by label copies the row's id and name unchanged. |
| `Records.RowToPojo` | src/main/java/com/nordea/payments/app/BatchConfiguration.java:155-157 | `mapRow` builds the record by label: its id is the value in the first column labelled `id`, and its name the value in the first column labelled `name`. |
| `Records.IndexOf` | src/main/java/com/nordea/payments/app/BatchConfiguration.java:156-157 | The label lookup returns the first column carrying that label. |
| `Batch.BatchConfiguration.MapRow` | src/main/java/com/nordea/payments/app/BatchConfiguration.java:151-164 | `mapRow` returns the record built from the row by label, and sets `data[id] := name` with every other key unchanged. |
| `Records.StoreRecordAt` | src/main/java/com/nordea/payments/app/BatchConfiguration.java:140-148 | The cursor over `SELECT id,name FROM customer` yields, at each position, the record holding that table row's id and name. |
| `Job.CursorAt` | src/main/java/com/nordea/payments/app/BatchConfiguration.java:140-148 | One pull from the cursor gives the injected failure, else the mapped row while rows remain, else end of input. |
| `Batch.BatchConfiguration.ReadMapped` | src/main/java/com/nordea/payments/app/BatchConfiguration.java:141-162 | One `read()` of the cursor returns what `CursorAt` describes, and caches exactly the record it returns. |
| `Cache.UpsertSnoc` | src/main/java/com/nordea/payments/app/BatchConfiguration.java:159 | The cache fold (`Upsert`): mapping one more record updates only that record's id. |
| `Cache.UpsertKeys` | src/main/java/com/nordea/payments/app/BatchConfiguration.java:73-159 | After mapping a sequence of records, the keys are the old keys plus the ids mapped; no key is ever removed. |
| `Cache.UpsertLastWins` | src/main/java/com/nordea/payments/app/BatchConfiguration.java:159 | An id is bound to the name of the last record carrying it, so a later duplicate overwrites an earlier one. |
| `Cache.UpsertKeepsOthers` | src/main/java/com/nordea/payments/app/BatchConfiguration.java:159 | A key that no mapped record carries keeps its old value. |
| `Cache.UpsertAppend` | src/main/java/com/nordea/payments/app/BatchConfiguration.java:151-162 | Mapping `a` and then `b` equals mapping `a + b`, so successive chunks and runs accumulate in the one map. |
| `Records.LineFields` | src/main/java/com/nordea/payments/app/BatchConfiguration.java:178-183 | The aggregator's line (`Line`) is the id, then one comma, then the name, with nothing before, between or after them. |
| `Records.LineRoundTrip` | src/main/java/com/nordea/payments/app/BatchConfiguration.java:178-183 | The line is `id`, a comma and `name`; splitting it at the first comma gives the record back whenever the id holds no comma. |
| `Records.LineIsAmbiguous` | src/main/java/com/nordea/payments/app/BatchConfiguration.java:178-183 | The aggregator does not quote fields, so two different records can produce the same line. |
| `Records.LineOfRow` | src/main/java/com/nordea/payments/app/BatchConfiguration.java:144-183 | The line written for the i-th record read back from the table is that row's `id + "," + name`. |
| `Batch.BatchConfiguration.WriteToCsv` | src/main/java/com/nordea/payments/app/BatchConfiguration.java:172-186 | In append mode, writing one chunk adds one line per record, in order, after the file's existing lines. |
| `Chunking.Read` | src/main/java/com/nordea/payments/app/BatchConfiguration.java:197-198 | The reader yields a prefix of its items: all of them if it never throws, otherwise exactly those before the failing position. |
| `Chunking.Delivered` | src/main/java/com/nordea/payments/app/BatchConfiguration.java:195-202 | Only completed chunks reach the writer. A reader that never throws delivers everything; one that throws delivers a multiple of ten items, fewer than ten short of what was read. |
| `Chunking.ReadAt` | src/main/java/com/nordea/payments/app/BatchConfiguration.java:197-198 | One `read()` throws exactly at the failing position. Otherwise it returns the item at that position while items remain, and reports end of input after the last one. |
| `Chunking.ReadAtLimit` | src/main/java/com/nordea/payments/app/BatchConfiguration.java:197-198 | Pulling below the read limit returns the item there; at the limit a pull throws or reports end of input. |
| `Chunking.PullStep` | src/main/java/com/nordea/payments/app/BatchConfiguration.java:197 | One pull inside a chunk either extends the chunk by the next item read, or records the end of input or the exception. |
| `Chunking.PullDone` | src/main/java/com/nordea/payments/app/BatchConfiguration.java:197 | Pulls that stop at ten items, at end of input or at an exception have produced the next chunk. |
| `Chunking.ReadChunk` | src/main/java/com/nordea/payments/app/BatchConfiguration.java:197-198 | The chunk provider of step1 returns the next `min(10, remaining)` items read, and reports a failure exactly when the reader throws within them. |
| `Chunking.AfterChunk` | src/main/java/com/nordea/payments/app/BatchConfiguration.java:195-202 | A failed chunk ends the step with the earlier chunks delivered, and an empty chunk ends it with everything delivered. Any other chunk becomes the next writer call and leaves the step at a chunk boundary. |
| `Chunking.ChunksFlatten` | src/main/java/com/nordea/payments/app/BatchConfiguration.java:197 | Concatenating the writer calls (`Chunks`) gives back the delivered items in order. |
| `Chunking.ChunksBounded` | src/main/java/com/nordea/payments/app/BatchConfiguration.java:212 | Every writer call gets between 1 and 10 items. |
| `Chunking.ChunksCount` | src/main/java/com/nordea/payments/app/BatchConfiguration.java:197 | N items give ceil(N/10) writer calls. |
| `Chunking.ChunksAppend` | src/main/java/com/nordea/payments/app/BatchConfiguration.java:212 | Delivering a further chunk of 1 to 10 items after a multiple of ten adds exactly one writer call. |
| `Chunking.OneOverChunkSize` | src/main/java/com/nordea/payments/app/BatchConfiguration.java:197 | Eleven items are written as a call of ten followed by a call of one. |
| `Batch.BatchConfiguration.Step1` | src/main/java/com/nordea/payments/app/BatchConfiguration.java:194-202 | step1 succeeds exactly when the XML reader does not throw. Its writer calls are the chunks of the delivered items, and the table gains one stored row per delivered item. |
| `Batch.BatchConfiguration.ReadMappedChunk` | src/main/java/com/nordea/payments/app/BatchConfiguration.java:210-216 | step2's chunk provider returns the next chunk of mapped rows. Every row it read, including the rows of a chunk that then fails, is already in the cache. |
| `Batch.BatchConfiguration.Step2` | src/main/java/com/nordea/payments/app/BatchConfiguration.java:210-216 | step2 succeeds exactly when the cursor does not throw. Every row read is mapped into the cache in order, and the file gains one line per delivered record, written as the chunks of those records. |
| `Batch.Step2Ends` | src/main/java/com/nordea/payments/app/BatchConfiguration.java:210-216 | When the chunk read is empty or failed, step2 ends: it fails exactly when the cursor throws, its writer calls so far are the chunks of what the cursor delivers, and the cache holds every row read, including the failed chunk's. |
| `Batch.Step2Continues` | src/main/java/com/nordea/payments/app/BatchConfiguration.java:210-216 | A non-empty chunk read without failure becomes the next writer call and leaves step2 at a chunk boundary. The cache and the file grow by exactly that chunk. |
| `Batch.BatchConfiguration.ImportUserJob` | src/main/java/com/nordea/payments/app/BatchConfiguration.java:229-239 | A launch leaves the table, cache, file, log, run id, phase and phase trace exactly as `Job.Job` prescribes for the state before it. |
| `Job.Job` | src/main/java/com/nordea/payments/app/BatchConfiguration.java:233 | Every launch takes the next run id. |
| `Job.JobTable` | src/main/java/com/nordea/payments/app/BatchConfiguration.java:195-202 | After a launch, the table is the old table followed by the rows of the delivered source items. |
| `Job.JobTrace` | src/main/java/com/nordea/payments/app/BatchConfiguration.java:229-239 | A launch passes through NotStarted and Step1, then ends in Failed if step1 failed. Otherwise it goes through Step2 and ends in Failed or Completed, depending on whether the cursor throws. |
| `Job.JobLog` | src/main/java/com/nordea/payments/app/BatchConfiguration.java:229-239 | After a launch, the log is the old log followed by what `afterJob` logs for the launch's final status over the final table. |
| `Job.TraceShapesAreRuns` | src/main/java/com/nordea/payments/app/BatchConfiguration.java:235-236 | Both shapes a launch can take follow the phase machine, from NotStarted to a terminal phase. |
| `Job.JobFollowsPhases` | src/main/java/com/nordea/payments/app/BatchConfiguration.java:235-236 | Every launch goes from NotStarted to Completed or Failed, along the transitions of `.start(step1).next(step2)`. |
| `Job.Step2OnlyAfterStep1` | src/main/java/com/nordea/payments/app/BatchConfiguration.java:232-237 | step2 runs if and only if step1 succeeded. A failed step1 leaves the cache and the file untouched. |
| `Job.CompletedIff` | src/main/java/com/nordea/payments/app/BatchConfiguration.java:229-239 | A launch completes if and only if neither the XML reader nor the cursor throws. |
| `Job.Step1AppendsSource` | src/main/java/com/nordea/payments/app/BatchConfiguration.java:195-202 | The table afterwards is the old table followed by one row per delivered source item, field for field. |
| `Job.FreshRunStoresSource` | src/main/java/com/nordea/payments/app/BatchConfiguration.java:125-128 | From an empty table, a well-formed source of N items leaves exactly N rows, equal to the items field for field. |
| `Job.AppendOnly` | src/main/java/com/nordea/payments/app/BatchConfiguration.java:109-177 | A launch only adds: the old table, file and log are prefixes of the new ones, and no cache key disappears. |
| `Job.CompletedRunWritesEveryRow` | src/main/java/com/nordea/payments/app/BatchConfiguration.java:210-216 | A launch in which neither reader throws, which is exactly a completed one (`CompletedIff`), appends one line `id,name` per row of the whole table, in table order. |
| `Job.CacheOfTable` | src/main/java/com/nordea/payments/app/BatchConfiguration.java:151-162 | Mapping a table into the cache gives the old keys plus the table's ids. Each id ends bound to the name of its last row, and every other key keeps its value. |
| `Job.CompletedRunCache` | src/main/java/com/nordea/payments/app/BatchConfiguration.java:210-216 | After a launch in which neither reader throws, which is exactly a completed one (`CompletedIff`), the cache is the old cache with every row of the final table mapped in order. The file is the old file plus one line per such record. |
| `Job.FailedStep2Cache` | src/main/java/com/nordea/payments/app/BatchConfiguration.java:154-160 | When the cursor throws, the rows of the unfinished chunk reached the cache (they were mapped) but not the file, and there are fewer than ten of them. |
| `Job.LogOnlyWhenCompleted` | src/main/java/com/nordea/payments/app/JobCompletionNotificationListener.java:31-41 | A launch that does not complete logs nothing. A completed one logs what `afterJob` logs for COMPLETED over the final table. |
| `Job.AliceAndBobTable` | src/main/java/com/nordea/payments/app/BatchConfiguration.java:229-239 | Two customers into an empty system: the launch completes, the table holds both rows, and the listener logs the banner and both rows. |
| `Job.AliceAndBobOutputs` | src/main/java/com/nordea/payments/app/BatchConfiguration.java:151-186 | Two customers into an empty system: the file holds `1,Alice` and `2,Bob`, and the cache maps both ids. |
| `Job.AliceAndBobReadBack` | src/main/java/com/nordea/payments/app/BatchConfiguration.java:151-186 | Reading the two-customer table back gives the lines `1,Alice` and `2,Bob` and the cache `1 -> Alice, 2 -> Bob`. |
| `Job.EmptySource` | src/main/java/com/nordea/payments/app/BatchConfiguration.java:229-239 | An empty source over an empty table still completes, writes nothing and logs only the banner. |
| `Job.MalformedSecondFragment` | src/main/java/com/nordea/payments/app/BatchConfiguration.java:195-202 | A parse failure at the second of three fragments fails the job in step1, before any write. The table, cache and file are unchanged. |
| `Listener.AfterJob` | src/main/java/com/nordea/payments/app/JobCompletionNotificationListener.java:31-41 | A status other than COMPLETED logs nothing. COMPLETED logs the banner and then one "Found" entry per table row, in query order. The table is only an input, so the listener cannot change it. |
| `Listener.AfterJobText` | src/main/java/com/nordea/payments/app/JobCompletionNotificationListener.java:33-39 | For a completed job, the first logged line is the banner `!!! JOB FINISHED! Time to verify the results`. Row i's line is `Found <id, name> in the database.`, with that row's id and name. |
| `Listener.ListenerSeesMappedRecords` | src/main/java/com/nordea/payments/app/JobCompletionNotificationListener.java:35-39 | Each pair the listener logs is the record step2's row mapper builds from the same row. |
| `Records.LabelsMatchPositions` | src/main/java/com/nordea/payments/app/JobCompletionNotificationListener.java:36-38 | Reading a selected row by position gives the same values as reading it by label: column 1 is `id` and column 2 is `name`. |

## Left out

- XML decoding (XStream over StAX, `fileReader`): the source is given as the
  sequence of customers it decodes to, plus an optional position at which
  decoding throws.
- JDBC, the DataSource, transactions, and the job repository with its restart
  behaviour: the table is a sequence of rows, and a chunk write is atomic.
- Write failures of the INSERT and of the file are not modelled. A step fails
  only when its reader throws.
- The `customer` table's schema is not part of this model, so no uniqueness
  constraint on `id` is modelled. The Java code does not reject a duplicate
  id either: duplicate rows are stored, and in the cache the last one wins.
- step2 reads the whole table, including the rows of earlier launches, because
  that is what `SELECT id,name FROM customer` does. The model follows the
  query rather than limiting step2 to the current launch's rows.
- `taskExecutor` (a concurrency limit of 5) is not wired into any step, and
  concurrency is not modelled.
- The `log.info` output of `writer`, `mapRow` and `display` is not modelled.
  Only the listener's entries are, as a sequence of log entries.
- The `@Cacheable` proxy on `display()`: the call from `mapRow` is a
  self-call that bypasses the proxy, so `display` simply returns `data`.
- `CustomerController` (an HTTP endpoint returning `display()`) and
  `BatchProcessingApplication` (the Spring Boot bootstrap) are not part of
  this model.
- Query row order: `SELECT id,name FROM customer` has no ORDER BY, so SQL
  promises no row order. The model assumes both queries (step2's cursor and
  the listener's) return rows in the order they were inserted. The order of
  the CSV lines, which duplicate id wins in the cache, and the order of the
  listener's entries all rest on this assumption. A table keyed on `id`, for
  example, could return its rows in `id` order instead.
- The map `data` is `static`: every instance of `BatchConfiguration` shares
  it, and creating an instance does not clear it. The model makes it a field
  of the one `BatchConfiguration` object, which the constructor starts empty.
  It does not capture a second instance, such as the one `CustomerController`
  creates, seeing the same map.
- Java `null` values are not modelled: ids and names are always strings. A
  fragment without `<name>` would store SQL NULL. `mapRow` would then put a
  null value into `data`, the file would get the line `1,null`, and the
  listener would log `Found <1, null> in the database.` None of this is
  represented.
- Label lookup in a result row is exact string comparison. JDBC's
  case-insensitive matching of column labels is not modelled.
- `Batch.BatchConfiguration.constructor`: assumes a fresh database (an empty
  `customer` table), an empty `users.csv` and a fresh job repository. The Java
  code initializes only `data` (BatchConfiguration.java:73). The table belongs
  to the database, and `users.csv` is opened in append mode (line 177), so a
  second process start would see the earlier rows and lines.
- `Listener.AfterJob`: a failure of the listener's own query
  (JobCompletionNotificationListener.java:35) after the banner is logged is
  not modelled. The job would stay COMPLETED with only the banner in the log;
  the model always logs the banner and every row.
- `Job.Job`: its own postcondition states only the run id. What a launch does
  to the table, the cache, the file and the log is stated by the lemmas beside
  it.
