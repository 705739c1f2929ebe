/** Record batches as the coalescer sees them: a schema and rows of values.
    Arrow stores a batch column by column; the model stores it row by row and
    recovers each column with `Column`. */
module Batches {
  import opened Wrappers

  /** The column types a schema may name. The tests use only `Int32`; the
      others exist so that two schemas can differ by type. Values are abstract
      integers whatever the declared type; only their order and identity
      matter to coalescing. */
  datatype DataType = Int32 | Int64 | Float64 | Utf8 | Boolean

  datatype Field = Field(name: string, dataType: DataType, nullable: bool)

  datatype Schema = Schema(fields: seq<Field>)

  type Value = int

  /** One row: one value per schema field. */
  type Row = seq<Value>

  datatype Batch = Batch(schema: Schema, rows: seq<Row>)

  /** The errors arrow reports to the coalescer. */
  datatype ArrowError = SchemaMismatch(expected: Schema, found: Schema)

  function NumRows(b: Batch): nat { |b.rows| }

  function NumColumns(b: Batch): nat { |b.schema.fields| }

  /** Every row has one value per column, as a RecordBatch guarantees. */
  predicate WellFormed(b: Batch) {
    forall i :: 0 <= i < |b.rows| ==> |b.rows[i]| == NumColumns(b)
  }

  /** The `j`-th column of a batch, top to bottom. */
  function Column(b: Batch, j: nat): (c: seq<Value>)
    requires WellFormed(b) && j < NumColumns(b)
    ensures |c| == NumRows(b)
    ensures forall i :: 0 <= i < |c| ==> c[i] == b.rows[i][j]
  {
    seq(|b.rows|, i requires 0 <= i < |b.rows| => b.rows[i][j])
  }

  /** The rows of a sequence of batches, batch after batch. */
  function RowsOf(batches: seq<Batch>): seq<Row>
  {
    if batches == [] then [] else RowsOf(batches[..|batches| - 1]) + batches[|batches| - 1].rows
  }

  /** The sum of the row counts of a sequence of batches. */
  function TotalRows(batches: seq<Batch>): nat
  {
    if batches == [] then 0 else TotalRows(batches[..|batches| - 1]) + NumRows(batches[|batches| - 1])
  }

  lemma RowsOfSnoc(batches: seq<Batch>, b: Batch)
    ensures RowsOf(batches + [b]) == RowsOf(batches) + b.rows
  {
    assert (batches + [b])[..|batches|] == batches;
  }

  lemma {:induction false} RowsOfAppend(xs: seq<Batch>, ys: seq<Batch>)
    ensures RowsOf(xs + ys) == RowsOf(xs) + RowsOf(ys)
  {
    if ys == [] {
      assert xs + ys == xs;
    } else {
      var init := ys[..|ys| - 1];
      assert (xs + ys)[..|xs + ys| - 1] == xs + init;
      RowsOfAppend(xs, init);
    }
  }

  lemma {:induction false} RowsOfCount(batches: seq<Batch>)
    ensures |RowsOf(batches)| == TotalRows(batches)
  {
    if batches != [] {
      RowsOfCount(batches[..|batches| - 1]);
    }
  }

  /** Models arrow's `concat_batches(schema, batches)`: no batches gives an
      empty batch that still has every column of `schema`; a batch whose schema
      differs is an error; otherwise the rows of all batches, in order. */
  function ConcatBatches(schema: Schema, batches: seq<Batch>): (r: Result<Batch, ArrowError>)
    ensures r.Ok? <==> forall i :: 0 <= i < |batches| ==> batches[i].schema == schema
    ensures r.Ok? ==> r.value.schema == schema && r.value.rows == RowsOf(batches)
    ensures r.Err? ==> exists i :: 0 <= i < |batches| && r.error == SchemaMismatch(schema, batches[i].schema)
  {
    if batches == [] then Ok(Batch(schema, []))
    else
      var last := batches[|batches| - 1];
      match ConcatBatches(schema, batches[..|batches| - 1])
      case Err(e) => Err(e)
      case Ok(prefix) =>
        if last.schema != schema then Err(SchemaMismatch(schema, last.schema))
        else Ok(Batch(schema, prefix.rows + last.rows))
  }

  /** The columns of two batches stacked are the columns of each, stacked. */
  lemma ColumnOfAppend(schema: Schema, x: seq<Row>, y: seq<Row>, j: nat)
    requires WellFormed(Batch(schema, x)) && WellFormed(Batch(schema, y))
    requires j < |schema.fields|
    ensures WellFormed(Batch(schema, x + y))
    ensures Column(Batch(schema, x + y), j) == Column(Batch(schema, x), j) + Column(Batch(schema, y), j)
  {
    assert WellFormed(Batch(schema, x + y)) by {
      forall i | 0 <= i < |x + y| ensures |(x + y)[i]| == |schema.fields| {
        if i >= |x| { assert (x + y)[i] == y[i - |x|]; }
      }
    }
  }

  /** Column `j` of a sequence of batches, batch after batch. */
  function ColumnOf(batches: seq<Batch>, j: nat): seq<Value>
    requires forall i :: 0 <= i < |batches| ==> WellFormed(batches[i]) && j < NumColumns(batches[i])
  {
    if batches == [] then []
    else ColumnOf(batches[..|batches| - 1], j) + Column(batches[|batches| - 1], j)
  }
}
