/** A model of arrow's `BatchCoalescer`, the buffering object that
    `coalesce_batches_from_iter` drives: rows pushed into it are cut into
    batches of exactly `target` rows, which queue up in `completed`; the rows
    of an unfinished batch wait in `buffer`. */
module Coalescer {
  import opened Wrappers
  import opened Batches

  class BatchCoalescer {
    const schema: Schema
    const target: nat
    var buffer: seq<Row>
    var completed: seq<Batch>

    /** The buffer never holds a full batch between operations, and every
        queued batch carries the coalescer's schema and at most `target` rows. */
    ghost predicate Valid()
      reads this
    {
      0 < target && |buffer| < target &&
      forall i :: 0 <= i < |completed| ==>
        completed[i].schema == schema && 0 < |completed[i].rows| <= target
    }

    /** Every row the coalescer holds, in the order it was pushed. */
    ghost function Contents(): seq<Row>
      reads this
    {
      RowsOf(completed) + buffer
    }

    constructor (schema: Schema, target: nat)
      requires 0 < target
      ensures Valid()
      ensures this.schema == schema && this.target == target
      ensures buffer == [] && completed == []
    {
      this.schema := schema;
      this.target := target;
      buffer := [];
      completed := [];
    }

    /** Appends the rows of `batch`; every time the buffer reaches `target`
        rows they are queued as one completed batch. A batch under another
        schema is refused and changes nothing. */
    method PushBatch(batch: Batch) returns (outcome: Outcome<ArrowError>)
      requires Valid()
      modifies this
      ensures Valid()
      ensures batch.schema != schema ==>
        outcome == Fail(SchemaMismatch(schema, batch.schema)) &&
        buffer == old(buffer) && completed == old(completed)
      ensures batch.schema == schema ==>
        outcome == Pass && Contents() == old(Contents()) + batch.rows
      ensures |old(completed)| <= |completed| && completed[..|old(completed)|] == old(completed)
      ensures forall i :: |old(completed)| <= i < |completed| ==> |completed[i].rows| == target
      ensures batch.schema == schema ==>
        |completed| - |old(completed)| == (|old(buffer)| + |batch.rows|) / target &&
        |buffer| == (|old(buffer)| + |batch.rows|) % target
    {
      if batch.schema != schema {
        return Fail(SchemaMismatch(schema, batch.schema));
      }
      var full, rest := CutBatches(schema, target, buffer, batch.rows);
      RowsOfAppend(completed, full);
      var queued := completed + full;
      forall i | 0 <= i < |queued|
        ensures queued[i].schema == schema && 0 < |queued[i].rows| <= target
      {
        if i < |completed| {
          assert queued[i] == completed[i];
        } else {
          assert queued[i] == full[i - |completed|];
        }
      }
      calc {
        RowsOf(queued) + rest;
        (RowsOf(completed) + RowsOf(full)) + rest;
        RowsOf(completed) + (RowsOf(full) + rest);
        RowsOf(completed) + (buffer + batch.rows);
        (RowsOf(completed) + buffer) + batch.rows;
      }
      completed, buffer := queued, rest;
      return Pass;
    }

    /** Queues whatever the buffer holds as one last, possibly short, batch.
        An empty buffer queues nothing. */
    method FinishBufferedBatch()
      requires Valid()
      modifies this
      ensures Valid()
      ensures buffer == [] && Contents() == old(Contents())
      ensures completed == old(completed) + (if old(buffer) == [] then [] else [Batch(schema, old(buffer))])
    {
      if buffer != [] {
        var last := Batch(schema, buffer);
        RowsOfSnoc(completed, last);
        completed := completed + [last];
        buffer := [];
      }
    }

    /** Removes and returns the oldest completed batch, if there is one. */
    method NextCompletedBatch() returns (next: Option<Batch>)
      requires Valid()
      modifies this
      ensures Valid() && buffer == old(buffer)
      ensures old(completed) == [] ==> next == None && completed == []
      ensures old(completed) != [] ==> next == Some(old(completed)[0]) && completed == old(completed)[1..]
    {
      if completed == [] {
        return None;
      }
      next := Some(completed[0]);
      completed := completed[1..];
    }
  }

  /** The cutting step of `push_batch`: the rows of `pending` followed by
      `rows` become as many batches of exactly `target` rows as they fill, and
      the fewer than `target` rows left over. */
  method CutBatches(schema: Schema, target: nat, pending: seq<Row>, rows: seq<Row>)
    returns (full: seq<Batch>, rest: seq<Row>)
    requires 0 < target && |pending| < target
    ensures FullBatches(full, schema, target)
    ensures RowsOf(full) + rest == pending + rows
    ensures |full| == (|pending| + |rows|) / target && |rest| == (|pending| + |rows|) % target
  {
    var offset := 0;
    full, rest := [], pending;
    while |rows| - offset > target - |rest|
      invariant 0 <= offset <= |rows| && |rest| < target
      invariant FullBatches(full, schema, target)
      invariant RowsOf(full) + rest == pending + rows[..offset]
      decreases |rows| - offset
    {
      var room := target - |rest|;
      var next := Batch(schema, rest + rows[offset..offset + room]);
      CutStep(full, rest, pending, rows, offset, offset + room, schema);
      FullBatchesSnoc(full, next, schema, target);
      full, rest, offset := full + [next], [], offset + room;
    }
    CutStep(full, rest, pending, rows, offset, |rows|, schema);
    assert rows[..|rows|] == rows && rows[offset..|rows|] == rows[offset..];
    rest := rest + rows[offset..];
    if |rest| == target {
      RowsOfSnoc(full, Batch(schema, rest));
      FullBatchesSnoc(full, Batch(schema, rest), schema, target);
      full, rest := full + [Batch(schema, rest)], [];
    }
    CutCounts(schema, target, full, rest, pending + rows);
  }

  /** Taking the rows from `offset` up to `upto` into the pending batch keeps
      every row, in order. */
  lemma CutStep(full: seq<Batch>, rest: seq<Row>, pending: seq<Row>, rows: seq<Row>, offset: nat, upto: nat, schema: Schema)
    requires offset <= upto <= |rows|
    requires RowsOf(full) + rest == pending + rows[..offset]
    ensures RowsOf(full + [Batch(schema, rest + rows[offset..upto])]) == pending + rows[..upto]
    ensures RowsOf(full) + (rest + rows[offset..upto]) == pending + rows[..upto]
  {
    calc {
      RowsOf(full + [Batch(schema, rest + rows[offset..upto])]);
      { RowsOfSnoc(full, Batch(schema, rest + rows[offset..upto])); }
      RowsOf(full) + (rest + rows[offset..upto]);
      (RowsOf(full) + rest) + rows[offset..upto];
      (pending + rows[..offset]) + rows[offset..upto];
      pending + (rows[..offset] + rows[offset..upto]);
      { assert rows[..offset] + rows[offset..upto] == rows[..upto]; }
      pending + rows[..upto];
    }
  }

  /** However the rows were cut, full batches and a short remainder determine
      the count of batches and the size of the remainder. */
  lemma CutCounts(schema: Schema, target: nat, full: seq<Batch>, rest: seq<Row>, rows: seq<Row>)
    requires 0 < target && |rest| < target
    requires FullBatches(full, schema, target) && RowsOf(full) + rest == rows
    ensures |full| == |rows| / target && |rest| == |rows| % target
  {
    FullBatchesCount(full, schema, target);
    DivModOfBatches(|rows|, target, |full|, |rest|);
  }

  /** Batches of exactly `target` rows under `schema`. */
  ghost predicate FullBatches(batches: seq<Batch>, schema: Schema, target: nat) {
    forall i :: 0 <= i < |batches| ==> batches[i].schema == schema && |batches[i].rows| == target
  }

  lemma FullBatchesSnoc(full: seq<Batch>, b: Batch, schema: Schema, target: nat)
    requires FullBatches(full, schema, target) && b.schema == schema && |b.rows| == target
    ensures FullBatches(full + [b], schema, target)
  {
    assert forall i :: 0 <= i < |full| ==> (full + [b])[i] == full[i];
  }

  lemma {:induction false} FullBatchesCount(batches: seq<Batch>, schema: Schema, target: nat)
    requires FullBatches(batches, schema, target)
    ensures |RowsOf(batches)| == target * |batches|
  {
    if batches != [] {
      var init := batches[..|batches| - 1];
      FullBatchesCount(init, schema, target);
      assert target * |batches| == target * |init| + target;
    }
  }

  /** `n` rows cut into `k` batches of `t` rows leave `b < t` over exactly
      when `k` and `b` are the quotient and remainder of `n` by `t`. */
  lemma DivModOfBatches(n: nat, t: nat, k: nat, b: nat)
    requires 0 <= b < t && n == b + t * k
    ensures n / t == k && n % t == b
  {
    var q, r := n / t, n % t;
    assert t * (k - q) == r - b;
    MulAwayFromZero(t, k - q);
  }

  lemma MulAwayFromZero(t: int, d: int)
    requires 0 < t
    ensures d > 0 ==> t * d >= t
    ensures d < 0 ==> t * d <= -t
  {
  }
}
