# Batch coalescing for an Arrow IPC query pipe

The program reads an Arrow IPC stream from standard input, gathers its record
batches into one batch, runs a SQL query over it and writes the result back as
an Arrow IPC stream. This project models the gathering step,
`coalesce_batches_from_iter` in `src/coalesce.rs`, and proves what it
promises.

The function pulls items from an iterator. Each item is a record batch or an
`io::Error`. It returns the first error unchanged. It pushes every batch into
arrow's `BatchCoalescer`, whose target size is `max_rows`. Then it flushes the
coalescer's buffer, drains the completed batches in order and concatenates
them into one batch under the stream's schema.

Files:

- `wrappers.dfy`: `Result`, `Option` and `Outcome`.
- `batches.dfy`: schemas, record batches (row by row, with `Column` giving
  the column view), `RowsOf`, and `ConcatBatches`, a model of arrow's
  `concat_batches`.
- `coalescer.dfy`: the `BatchCoalescer` class with `buffer` and `completed`
  fields and its `PushBatch`, `FinishBufferedBatch` and `NextCompletedBatch`
  methods. Arrow's own source is not part of this model. The class follows
  arrow's documented behaviour: a push cuts batches of exactly `target` rows,
  leaving fewer than `target` rows buffered, and a finish queues the buffered
  rows (if any) as one batch.
- `coalesce.dfy`: `CoalesceBatchesFromIter`, the drain loop, and `Coalesced`.
  `Coalesced` is a reference definition that scans the items one by one with
  no buffering and no target size. Lemmas about it cover the unit tests of
  `src/coalesce.rs`.

The main method's contract is `r == Coalesced(schema, items)`. `Coalesced`
does not mention `max_rows`, so the result cannot depend on it.

Schema checking is a choice of the model. It rejects at push time every batch
whose schema differs in any way from the configured one, and the call then
returns `Arrow(SchemaMismatch(..))`. Arrow's coalescer is not part of this
model, and nothing here shows that arrow rejects every such batch: a batch
that differs only in field names or nullability, or that has no rows, may
pass through arrow and come out under the configured schema.

## Model

| member | source | states |
|---|---|---|
| Coalesce.CoalesceBatchesFromIter | src/coalesce.rs:11-34 | The result equals the unbuffered reference `Coalesced`, whatever `max_rows` is. On success every item was pulled. On failure the last item pulled is the first one not accepted, the error is that item's error unchanged (or the schema mismatch), and every earlier item was accepted. The ghost count `pulled` is that index plus one (or the item count on success); it names the position of the first failing item and is not a record of which items an iterator handed out. |
| Coalesce.DrainCompleted | src/coalesce.rs:28-31 | Returns exactly the queued completed batches in the order they were produced, and leaves the queue empty and the buffer untouched. |
| Coalescer.BatchCoalescer.constructor | src/coalesce.rs:16-17 | A new coalescer has the given schema and a positive target size, an empty buffer and no completed batches. |
| Coalescer.BatchCoalescer.PushBatch | src/coalesce.rs:21 | A batch under another schema fails with a schema mismatch and changes nothing. Otherwise the held rows become the old ones followed by the batch's rows. Earlier completed batches stay as they were. Each newly completed batch has exactly `target` rows. Their number is (buffered + pushed) / target, and the buffer keeps the remainder, which is below `target`. |
| Coalescer.CutBatches | src/coalesce.rs:21 | Cuts the buffered rows followed by the pushed rows into full batches of `target` rows and a remainder, losing and reordering nothing. Gives the quotient/remainder count. |
| Coalescer.BatchCoalescer.FinishBufferedBatch | src/coalesce.rs:24-26 | Queues the buffered rows as one final batch (nothing if the buffer is empty) and empties the buffer. The rows held are unchanged. |
| Coalescer.BatchCoalescer.NextCompletedBatch | src/coalesce.rs:29 | Pops the oldest completed batch, or returns `None` and changes nothing when the queue is empty. |
| Batches.ConcatBatches | src/coalesce.rs:33 | Succeeds exactly when every batch has the given schema. It then returns a batch under that schema holding all rows in order; no batches give an empty batch under the schema. A failure names a mismatching batch's schema. |
| Coalesce.CoalescedOk | src/coalesce.rs:17-33 | The result is a batch exactly when every item is a batch under the schema, and then its rows are the input batches' rows concatenated in arrival order. |
| Coalesce.CoalescedFirstRejection | src/coalesce.rs:19-21 | If item k is the first not accepted, the result is its error (an input error unchanged, or the schema mismatch), whatever items follow. |
| Coalesce.RowCountConserved | src/coalesce.rs:92-96 | On success the output row count is the sum of the input batches' row counts. |
| Coalesce.ColumnsPreserved | src/coalesce.rs:97-102 | On success the output is well formed, has every schema column, and each column is the concatenation of the inputs' same column in arrival order. |
| Coalesce.EmptyInput | src/coalesce.rs:62-71 | No input gives `Ok` with zero rows and every column of the schema. |
| Coalesce.SingleBatchIdentity | src/coalesce.rs:73-82 | A single batch under the schema comes back equal to itself. The model proves this for every target size. |
| Coalesce.CoalesceIgnoresMaxRows | src/coalesce.rs:11-17 | Two runs over the same items with different positive targets return the same result. |
| Coalesce.TestSchema | src/coalesce.rs:44-49 | The two-column test schema: a and b, both Int32, neither nullable. |
| Coalesce.TestBatch | src/coalesce.rs:51-60 | A test batch built from columns `a` and `b` is well formed and has exactly those two columns. |
| Coalesce.MultipleSmallBatches | src/coalesce.rs:84-103 | Batches of 2, 3 and 1 rows give the single 6-row batch of the test. |
| Coalesce.ExceedMaxRows | src/coalesce.rs:105-124 | Batches of 4, 4 and 2 rows give the single 10-row batch of the test. |
| Coalesce.SplitPastThreshold | src/coalesce.rs:105-115 | With target 5, pushing those same 4, 4 and 2 rows produces two completed batches of exactly 5 rows each. |
| Coalesce.ErrorInStream | src/coalesce.rs:126-136 | A good batch followed by `Err(Other("test error"))` returns exactly that error. |

## Left out

- `src/ipc.rs` (arrow IPC decoding, buffered reading), `src/df.rs` (DataFusion planning and execution, async streams, IPC writing) and `src/main.rs` (arguments, stdin/stdout, runtime, exit codes) are not part of this model: they are foreign library calls and I/O.
- Arrow's column types and memory layout: values are abstract integers stored row by row. `Column` gives the column view. Field types are kept only as part of the schema that is compared.
- Coalescer.BatchCoalescer.PushBatch: rejects every batch whose schema differs from the coalescer's, including one that differs only in field names or nullability and one with no rows; arrow may accept both (its push returns at once for a batch with no rows, and later steps compare column types), so the model does not promise arrow's behaviour for those two cases.
- The input iterator is a finite sequence of items, so laziness is not modelled. The ghost `pulled` is fixed by the items alone (the index of the first failing item plus one, or the item count); it is not a record of which items an iterator handed out.
- `max_rows == 0` is excluded by a precondition, because the source does not say what it means.
- Coalescer.BatchCoalescer.FinishBufferedBatch: never fails. The model assumes that finishing cannot fail once push has checked the schema; arrow's internal failure paths are not modelled, so the `finish_buffered_batch` error path of src/coalesce.rs:24-26 is not either.
- Batches.ConcatBatches: compares whole schemas, not column types one by one as recent arrow versions do. The batches the coalescer produces always carry its schema, so the two agree here.
- Whether finishing an empty buffer queues an empty batch: the model queues nothing. This cannot be seen in the concatenated result.
- Arrow's other coalescer options (a size limit for batches passed through unchanged, memory accounting) and `usize` overflow.
