/** `coalesce_batches_from_iter`: reads a finite stream of batches or errors,
    feeds the batches through a `BatchCoalescer` whose target size is
    `max_rows`, and returns the single batch that concatenates everything the
    coalescer produced, or the first error met. */
module Coalesce {
  import opened Wrappers
  import opened Batches
  import opened Coalescer

  /** The `io::Error` the function returns: one that came from the input with
      its own message, or an arrow error wrapped by `io::Error::other`. */
  datatype IoError = Other(message: string) | Arrow(cause: ArrowError)

  /** One item pulled from the input iterator. */
  type Item = Result<Batch, IoError>

  /** An item the loop pushes without failing: a batch under the schema. */
  predicate Accepted(schema: Schema, item: Item) {
    item.Ok? && item.value.schema == schema
  }

  /** Every item is a batch under the schema. */
  predicate AllAccepted(schema: Schema, items: seq<Item>) {
    forall i :: 0 <= i < |items| ==> items[i].Ok? && items[i].value.schema == schema
  }

  /** The error an item that is not accepted makes the function return: an
      input error unchanged, or the coalescer's schema mismatch. */
  function Rejection(schema: Schema, item: Item): IoError
    requires !Accepted(schema, item)
  {
    match item
    case Err(e) => e
    case Ok(b) => Arrow(SchemaMismatch(schema, b.schema))
  }

  /** What the function computes, item by item and without any buffering:
      stop at the first item not accepted, otherwise append its rows. The
      target batch size does not appear. */
  function Coalesced(schema: Schema, items: seq<Item>): Result<Batch, IoError>
  {
    if items == [] then Ok(Batch(schema, []))
    else
      var last := items[|items| - 1];
      match Coalesced(schema, items[..|items| - 1])
      case Err(e) => Err(e)
      case Ok(acc) =>
        if Accepted(schema, last) then Ok(Batch(schema, acc.rows + last.value.rows))
        else Err(Rejection(schema, last))
  }

  /** The batches of a stream whose items are all batches. */
  function BatchesOf(items: seq<Item>): (batches: seq<Batch>)
    requires forall i :: 0 <= i < |items| ==> items[i].Ok?
    ensures |batches| == |items|
    ensures forall i :: 0 <= i < |items| ==> batches[i] == items[i].value
  {
    seq(|items|, i requires 0 <= i < |items| => items[i].value)
  }

  method CoalesceBatchesFromIter(schema: Schema, items: seq<Item>, maxRows: nat)
    returns (r: Result<Batch, IoError>, ghost pulled: nat)
    requires 0 < maxRows
    ensures r == Coalesced(schema, items)
    ensures pulled <= |items|
    ensures r.Ok? ==> pulled == |items|
    ensures r.Err? ==>
      0 < pulled && !Accepted(schema, items[pulled - 1]) &&
      r.error == Rejection(schema, items[pulled - 1])
    ensures forall k :: 0 <= k < pulled - 1 ==> Accepted(schema, items[k])
  {
    var coalescer := new BatchCoalescer(schema, maxRows);
    var i := 0;
    assert items[..0] == [] && coalescer.Contents() == [];
    while i < |items|
      invariant 0 <= i <= |items|
      invariant coalescer.Valid() && coalescer.schema == schema
      invariant forall k :: 0 <= k < i ==> Accepted(schema, items[k])
      invariant Coalesced(schema, items[..i]) == Ok(Batch(schema, coalescer.Contents()))
    {
      assert items[..i + 1][..i] == items[..i];
      match items[i]
      case Err(e) =>
        CoalescedFirstRejection(schema, items, i);
        return Err(e), i + 1;
      case Ok(batch) =>
        var outcome := coalescer.PushBatch(batch);
        if outcome.Fail? {
          CoalescedFirstRejection(schema, items, i);
          return Err(Arrow(outcome.error)), i + 1;
        }
      i := i + 1;
    }
    assert items[..i] == items;

    coalescer.FinishBufferedBatch();
    ghost var produced := coalescer.completed;
    assert RowsOf(produced) == coalescer.Contents();

    var drained := DrainCompleted(coalescer);

    var concatenated := ConcatBatches(schema, drained);
    r := match concatenated
      case Ok(b) => Ok(b)
      case Err(e) => Err(Arrow(e));
    pulled := |items|;
  }

  /** The drain loop: asks the coalescer for its next completed batch until
      it has none, collecting the batches in the order they were produced. */
  method DrainCompleted(coalescer: BatchCoalescer) returns (drained: seq<Batch>)
    requires coalescer.Valid()
    modifies coalescer
    ensures coalescer.Valid() && coalescer.buffer == old(coalescer.buffer)
    ensures drained == old(coalescer.completed) && coalescer.completed == []
  {
    drained := [];
    while true
      invariant coalescer.Valid() && coalescer.buffer == old(coalescer.buffer)
      invariant drained + coalescer.completed == old(coalescer.completed)
      decreases |coalescer.completed|
    {
      ghost var queued := coalescer.completed;
      var next := coalescer.NextCompletedBatch();
      if next.None? {
        break;
      }
      assert drained + queued == (drained + [next.value]) + coalescer.completed;
      drained := drained + [next.value];
    }
  }

  /** The result is a batch exactly when every item is a batch under the
      schema, and then it holds their rows in arrival order. */
  lemma {:induction false} CoalescedOk(schema: Schema, items: seq<Item>)
    ensures Coalesced(schema, items).Ok? <==> AllAccepted(schema, items)
    ensures Coalesced(schema, items).Ok? ==>
      Coalesced(schema, items).value == Batch(schema, RowsOf(BatchesOf(items)))
  {
    if items != [] {
      var init := items[..|items| - 1];
      CoalescedOk(schema, init);
      if AllAccepted(schema, items) {
        assert BatchesOf(items)[..|items| - 1] == BatchesOf(init);
      } else if Coalesced(schema, init).Ok? {
        assert AllAccepted(schema, init);
        assert !Accepted(schema, items[|items| - 1]);
      }
    }
  }

  /** The result is the error of the first item not accepted, whatever follows it. */
  lemma {:induction false} CoalescedFirstRejection(schema: Schema, items: seq<Item>, k: nat)
    requires k < |items| && !Accepted(schema, items[k])
    requires forall i :: 0 <= i < k ==> Accepted(schema, items[i])
    ensures Coalesced(schema, items) == Err(Rejection(schema, items[k]))
  {
    var init := items[..|items| - 1];
    if k < |items| - 1 {
      CoalescedFirstRejection(schema, init, k);
    } else {
      CoalescedOk(schema, init);
    }
  }

  /** The result has as many rows as all the input batches together. */
  lemma RowCountConserved(schema: Schema, items: seq<Item>)
    requires AllAccepted(schema, items)
    ensures Coalesced(schema, items).Ok?
    ensures NumRows(Coalesced(schema, items).value) == TotalRows(BatchesOf(items))
  {
    CoalescedOk(schema, items);
    RowsOfCount(BatchesOf(items));
  }

  /** Read column by column, the result is every input batch's column in
      arrival order, and it keeps every column of the schema. */
  lemma {:induction false} ColumnsPreserved(schema: Schema, items: seq<Item>, j: nat)
    requires AllAccepted(schema, items)
    requires forall i :: 0 <= i < |items| ==> WellFormed(items[i].value)
    requires j < |schema.fields|
    ensures Coalesced(schema, items).Ok?
    ensures NumColumns(Coalesced(schema, items).value) == |schema.fields|
    ensures WellFormed(Coalesced(schema, items).value)
    ensures Column(Coalesced(schema, items).value, j) == ColumnOf(BatchesOf(items), j)
  {
    CoalescedOk(schema, items);
    if items != [] {
      var init := items[..|items| - 1];
      ColumnsPreserved(schema, init, j);
      assert BatchesOf(items)[..|items| - 1] == BatchesOf(init);
      ColumnOfAppend(schema, Coalesced(schema, init).value.rows, items[|items| - 1].value.rows, j);
    }
  }

  /** No input at all gives an empty batch that still has every schema column. */
  lemma EmptyInput(schema: Schema)
    ensures Coalesced(schema, []) == Ok(Batch(schema, []))
    ensures NumRows(Coalesced(schema, []).value) == 0
    ensures NumColumns(Coalesced(schema, []).value) == |schema.fields|
  {
  }

  /** One batch under the schema comes back equal to itself. */
  lemma SingleBatchIdentity(schema: Schema, batch: Batch)
    requires batch.schema == schema
    ensures Coalesced(schema, [Ok(batch)]) == Ok(batch)
  {
    var items: seq<Item> := [Ok(batch)];
    assert items[..0] == [];
    assert Coalesced(schema, items[..0]) == Ok(Batch(schema, []));
    assert [] + batch.rows == batch.rows;
  }

  /** The result depends on the items only, not on the target batch size. */
  method CoalesceIgnoresMaxRows(schema: Schema, items: seq<Item>, maxRows1: nat, maxRows2: nat)
    returns (r1: Result<Batch, IoError>, r2: Result<Batch, IoError>)
    requires 0 < maxRows1 && 0 < maxRows2
    ensures r1 == r2
  {
    ghost var p1, p2;
    r1, p1 := CoalesceBatchesFromIter(schema, items, maxRows1);
    r2, p2 := CoalesceBatchesFromIter(schema, items, maxRows2);
  }

  /** The two-column schema `a: Int32, b: Int32` of the unit tests. */
  function TestSchema(): (s: Schema)
    ensures |s.fields| == 2 && s.fields[0].name == "a" && s.fields[1].name == "b"
    ensures forall i :: 0 <= i < |s.fields| ==> s.fields[i].dataType == Int32 && !s.fields[i].nullable
  {
    Schema([Field("a", Int32, false), Field("b", Int32, false)])
  }

  /** A batch of the test schema given by its two columns. */
  function TestBatch(a: seq<Value>, b: seq<Value>): (batch: Batch)
    requires |a| == |b|
    ensures batch.schema == TestSchema() && WellFormed(batch)
    ensures Column(batch, 0) == a && Column(batch, 1) == b
  {
    Batch(TestSchema(), seq(|a|, i requires 0 <= i < |a| => [a[i], b[i]]))
  }

  /** Stacking test batches stacks their columns. */
  lemma TestBatchAppend(a1: seq<Value>, b1: seq<Value>, a2: seq<Value>, b2: seq<Value>)
    requires |a1| == |b1| && |a2| == |b2|
    ensures TestBatch(a1, b1).rows + TestBatch(a2, b2).rows == TestBatch(a1 + a2, b1 + b2).rows
  {
    var x, y, z := TestBatch(a1, b1).rows, TestBatch(a2, b2).rows, TestBatch(a1 + a2, b1 + b2).rows;
    forall i | 0 <= i < |z| ensures (x + y)[i] == z[i] {
      if i >= |x| { assert (x + y)[i] == y[i - |x|]; }
    }
  }

  lemma RowsOfThree(schema: Schema, a1: seq<Value>, b1: seq<Value>, a2: seq<Value>, b2: seq<Value>,
                    a3: seq<Value>, b3: seq<Value>, bs: seq<Batch>)
    requires |a1| == |b1| && |a2| == |b2| && |a3| == |b3|
    requires bs == [TestBatch(a1, b1), TestBatch(a2, b2), TestBatch(a3, b3)]
    ensures RowsOf(bs) == TestBatch(a1 + a2 + a3, b1 + b2 + b3).rows
  {
    assert bs == [] + [bs[0]] + [bs[1]] + [bs[2]];
    RowsOfSnoc([], bs[0]);
    RowsOfSnoc([bs[0]], bs[1]);
    RowsOfSnoc([bs[0], bs[1]], bs[2]);
    assert [bs[0]] + [bs[1]] == [bs[0], bs[1]];
    assert [bs[0], bs[1]] + [bs[2]] == bs;
    TestBatchAppend(a1, b1, a2, b2);
    TestBatchAppend(a1 + a2, b1 + b2, a3, b3);
  }

  /** Batches of 2, 3 and 1 rows come back as one batch of 6 rows, in order. */
  lemma MultipleSmallBatches()
    ensures Coalesced(TestSchema(), [
      Ok(TestBatch([1, 2], [10, 11])),
      Ok(TestBatch([3, 4, 5], [12, 13, 14])),
      Ok(TestBatch([6], [15]))
    ]) == Ok(TestBatch([1, 2, 3, 4, 5, 6], [10, 11, 12, 13, 14, 15]))
  {
    var items: seq<Item> := [
      Ok(TestBatch([1, 2], [10, 11])),
      Ok(TestBatch([3, 4, 5], [12, 13, 14])),
      Ok(TestBatch([6], [15]))
    ];
    assert AllAccepted(TestSchema(), items);
    CoalescedOk(TestSchema(), items);
    assert [1, 2] + [3, 4, 5] + [6] == [1, 2, 3, 4, 5, 6];
    assert [10, 11] + [12, 13, 14] + [15] == [10, 11, 12, 13, 14, 15];
    RowsOfThree(TestSchema(), [1, 2], [10, 11], [3, 4, 5], [12, 13, 14], [6], [15], BatchesOf(items));
  }

  /** Batches of 4, 4 and 2 rows, more in total than a target of 5, come back as
      one batch of 10 rows, in order. */
  lemma ExceedMaxRows()
    ensures Coalesced(TestSchema(), [
      Ok(TestBatch([1, 2, 3, 4], [10, 11, 12, 13])),
      Ok(TestBatch([5, 6, 7, 8], [14, 15, 16, 17])),
      Ok(TestBatch([9, 10], [18, 19]))
    ]) == Ok(TestBatch([1, 2, 3, 4, 5, 6, 7, 8, 9, 10], [10, 11, 12, 13, 14, 15, 16, 17, 18, 19]))
  {
    var items: seq<Item> := [
      Ok(TestBatch([1, 2, 3, 4], [10, 11, 12, 13])),
      Ok(TestBatch([5, 6, 7, 8], [14, 15, 16, 17])),
      Ok(TestBatch([9, 10], [18, 19]))
    ];
    assert AllAccepted(TestSchema(), items);
    CoalescedOk(TestSchema(), items);
    assert [1, 2, 3, 4] + [5, 6, 7, 8] + [9, 10] == [1, 2, 3, 4, 5, 6, 7, 8, 9, 10];
    assert [10, 11, 12, 13] + [14, 15, 16, 17] + [18, 19] == [10, 11, 12, 13, 14, 15, 16, 17, 18, 19];
    RowsOfThree(TestSchema(), [1, 2, 3, 4], [10, 11, 12, 13], [5, 6, 7, 8], [14, 15, 16, 17], [9, 10], [18, 19], BatchesOf(items));
  }

  /** An error item after a good batch is returned as it came, message and all. */
  lemma ErrorInStream()
    ensures Coalesced(TestSchema(), [Ok(TestBatch([1, 2], [10, 11])), Err(Other("test error"))])
      == Err(Other("test error"))
  {
    var items: seq<Item> := [Ok(TestBatch([1, 2], [10, 11])), Err(Other("test error"))];
    CoalescedFirstRejection(TestSchema(), items, 1);
  }

  /** The coalescer's side of the threshold test: 4, 4 and 2 rows pushed with
      a target of 5 are cut into two completed batches of 5 rows each and
      nothing stays buffered. */
  method SplitPastThreshold() returns (sizes: seq<nat>)
    ensures sizes == [5, 5]
  {
    var coalescer := new BatchCoalescer(TestSchema(), 5);
    var _ := coalescer.PushBatch(TestBatch([1, 2, 3, 4], [10, 11, 12, 13]));
    var _ := coalescer.PushBatch(TestBatch([5, 6, 7, 8], [14, 15, 16, 17]));
    var _ := coalescer.PushBatch(TestBatch([9, 10], [18, 19]));
    coalescer.FinishBufferedBatch();
    var drained := DrainCompleted(coalescer);
    sizes := seq(|drained|, i requires 0 <= i < |drained| => NumRows(drained[i]));
  }
}
