/**
 * The two containers the generators work on: pandas data frames (a value
 * `Table`, and a `DataFrame` object for the operations that write columns in
 * place) and the NMDC `Database` object whose record lists they append to.
 */
module Frames {
  import opened Common

  /** A data frame: its column names in order and its rows. */
  datatype Table = Table(columns: seq<string>, rows: seq<Row>)

  /** Every row has exactly the frame's columns as keys. */
  predicate WellFormed(t: Table)
  {
    NoDuplicates(t.columns)
    && forall i :: 0 <= i < |t.rows| ==> t.rows[i].Keys == ColumnSet(t.columns)
  }

  function ColumnSet(columns: seq<string>): set<string>
  {
    set c | c in columns
  }

  /** `pd.DataFrame([row])` for a row given as column/value pairs. */
  function SingleRow(columns: seq<string>, values: seq<Value>): (t: Table)
    requires |columns| == |values| && NoDuplicates(columns)
    ensures WellFormed(t) && t.columns == columns && |t.rows| == 1
    ensures forall k :: 0 <= k < |columns| ==> t.rows[0][columns[k]] == values[k]
  {
    var row := map k | 0 <= k < |columns| :: columns[k] := values[k];
    assert forall k :: 0 <= k < |columns| ==> row[columns[k]] == values[k] by {
      forall k | 0 <= k < |columns| ensures row[columns[k]] == values[k] {
        assert forall j :: 0 <= j < |columns| && columns[j] == columns[k] ==> j == k;
      }
    }
    Table(columns, [row])
  }

  /** The columns of `b` that `a` lacks, in `b`'s order. */
  function NewColumns(a: seq<string>, b: seq<string>): (r: seq<string>)
    ensures forall c :: c in r <==> c in b && c !in a
    ensures NoDuplicates(b) ==> NoDuplicates(r)
  {
    if b == [] then []
    else
      var rest := NewColumns(a, b[1..]);
      if b[0] in a then rest else [b[0]] + rest
  }

  /** `a` is `b` with some elements left out, in `b`'s order. */
  predicate Subsequence(a: seq<string>, b: seq<string>)
    decreases |b|
  {
    a == [] || (b != [] && ((a[0] == b[0] && Subsequence(a[1..], b[1..])) || Subsequence(a, b[1..])))
  }

  /** The required columns `columns` lacks, in the order they are required. */
  function MissingFrom(required: seq<string>, columns: seq<string>): (missing: seq<string>)
    ensures forall c :: c in missing <==> c in required && c !in columns
    ensures |missing| <= |required|
    ensures Subsequence(missing, required)
  {
    if required == [] then []
    else
      var rest := MissingFrom(required[1..], columns);
      if required[0] in columns then rest
      else
        var missing := [required[0]] + rest;
        assert missing[1..] == rest;
        missing
  }

  /** A row widened to `columns`, with NaN in the cells it lacks. */
  function Widen(r: Row, columns: set<string>): (w: Row)
    ensures w.Keys == r.Keys + columns
    ensures forall c :: c in r ==> w[c] == r[c]
  {
    map c | c in r.Keys + columns :: if c in r then r[c] else NaN
  }

  /** Every row of `rs` widened to `columns`. */
  function WidenRows(rs: seq<Row>, columns: set<string>): (w: seq<Row>)
    ensures |w| == |rs|
    ensures forall i :: 0 <= i < |rs| ==> w[i] == Widen(rs[i], columns)
  {
    seq(|rs|, i requires 0 <= i < |rs| => Widen(rs[i], columns))
  }

  lemma WidenRowsKeys(rs: seq<Row>, keys: set<string>, columns: set<string>)
    requires keys <= columns
    requires forall i :: 0 <= i < |rs| ==> rs[i].Keys == keys
    ensures forall i :: 0 <= i < |rs| ==> WidenRows(rs, columns)[i].Keys == columns
  {
  }

  lemma UnionColumnsDistinct(a: seq<string>, b: seq<string>)
    requires NoDuplicates(a) && NoDuplicates(b)
    ensures NoDuplicates(a + NewColumns(a, b))
  {
    var extra := NewColumns(a, b);
    var columns := a + extra;
    forall i, j | 0 <= i < j < |columns| ensures columns[i] != columns[j] {
      if j >= |a| {
        assert columns[j] == extra[j - |a|];
        if i >= |a| {
          assert columns[i] == extra[i - |a|];
        } else {
          assert columns[j] !in a;
        }
      }
    }
  }

  /**
   * `pd.concat([a, b], ignore_index=True)`: the rows of `a` then those of `b`,
   * under the union of the columns (those of `a` first); a cell a frame did
   * not have is NaN.
   */
  function Concat(a: Table, b: Table): (t: Table)
    requires WellFormed(a) && WellFormed(b)
    ensures WellFormed(t)
    ensures t.columns == a.columns + NewColumns(a.columns, b.columns)
    ensures t.rows == WidenRows(a.rows, ColumnSet(t.columns)) + WidenRows(b.rows, ColumnSet(t.columns))
  {
    var columns := a.columns + NewColumns(a.columns, b.columns);
    var all := ColumnSet(columns);
    UnionColumnsDistinct(a.columns, b.columns);
    WidenRowsKeys(a.rows, ColumnSet(a.columns), all);
    WidenRowsKeys(b.rows, ColumnSet(b.columns), all);
    var rows := WidenRows(a.rows, all) + WidenRows(b.rows, all);
    assert forall i :: 0 <= i < |rows| ==> rows[i].Keys == all by {
      forall i | 0 <= i < |rows| ensures rows[i].Keys == all {
        if i >= |a.rows| {
          assert rows[i] == WidenRows(b.rows, all)[i - |a.rows|];
        }
      }
    }
    Table(columns, rows)
  }

  /** The rows of a concatenation: the first frame's rows, widened, then the second's. */
  lemma ConcatRows(a: Table, b: Table)
    requires WellFormed(a) && WellFormed(b)
    ensures var t := Concat(a, b);
      |t.rows| == |a.rows| + |b.rows|
      && (forall i :: 0 <= i < |a.rows| ==> t.rows[i] == Widen(a.rows[i], ColumnSet(t.columns)))
      && (forall i :: 0 <= i < |b.rows| ==> t.rows[|a.rows| + i] == Widen(b.rows[i], ColumnSet(t.columns)))
  {
    var t := Concat(a, b);
    var all := ColumnSet(t.columns);
    ConcatRowsAt(t.rows, WidenRows(a.rows, all), WidenRows(b.rows, all));
  }

  lemma ConcatRowsAt(rows: seq<Row>, front: seq<Row>, back: seq<Row>)
    requires rows == front + back
    ensures forall i :: 0 <= i < |front| ==> rows[i] == front[i]
    ensures forall i :: 0 <= i < |back| ==> rows[|front| + i] == back[i]
  {
  }

  /**
   * Appending a one-row frame: one more row, the first frame's columns in
   * front, every cell of the new row in the last row and every cell of an
   * earlier row where it was.
   */
  lemma ConcatOneRow(a: Table, b: Table)
    requires WellFormed(a) && WellFormed(b) && |b.rows| == 1
    ensures |Concat(a, b).rows| == |a.rows| + 1
    ensures |a.columns| <= |Concat(a, b).columns| && Concat(a, b).columns[..|a.columns|] == a.columns
    ensures forall c :: c in b.rows[0] ==> c in Concat(a, b).rows[|a.rows|] && Concat(a, b).rows[|a.rows|][c] == b.rows[0][c]
    ensures forall i, c :: 0 <= i < |a.rows| && c in a.rows[i] ==>
      c in Concat(a, b).rows[i] && Concat(a, b).rows[i][c] == a.rows[i][c]
  {
    ConcatRows(a, b);
    ConcatColumns(a, b);
  }

  /** A concatenation keeps the first frame's columns, in order, at the front. */
  lemma ConcatColumns(a: Table, b: Table)
    requires WellFormed(a) && WellFormed(b)
    ensures var t := Concat(a, b);
      |a.columns| <= |t.columns| && t.columns[..|a.columns|] == a.columns
  {
    var extra := NewColumns(a.columns, b.columns);
    assert (a.columns + extra)[..|a.columns|] == a.columns;
  }

  lemma NoNewColumns(a: seq<string>, b: seq<string>)
    requires forall c :: c in b ==> c in a
    ensures NewColumns(a, b) == []
  {
  }

  /** A row that already has exactly the given columns is left as it is by widening. */
  lemma WidenComplete(r: Row, columns: set<string>)
    requires r.Keys == columns
    ensures Widen(r, columns) == r
  {
    var w := Widen(r, columns);
    assert w.Keys == r.Keys;
    assert forall c :: c in w ==> w[c] == r[c];
  }

  /** Concatenating frames with the same columns keeps the columns and leaves every row as it was. */
  lemma ConcatSameColumns(a: Table, b: Table)
    requires WellFormed(a) && WellFormed(b) && a.columns == b.columns
    ensures Concat(a, b) == Table(a.columns, a.rows + b.rows)
  {
    NoNewColumns(a.columns, b.columns);
    var t := Concat(a, b);
    var all := ColumnSet(a.columns);
    assert t.columns == a.columns;
    var both := a.rows + b.rows;
    forall i | 0 <= i < |both| ensures t.rows[i] == both[i] {
      if i < |a.rows| {
        WidenComplete(a.rows[i], all);
      } else {
        assert t.rows[i] == WidenRows(b.rows, all)[i - |a.rows|];
        WidenComplete(b.rows[i - |a.rows|], all);
      }
    }
    assert t.rows == both;
  }

  /** The cell of row `i` in column `c` (None when the row lacks the column). */
  function Cell(t: Table, i: nat, c: string): Value
    requires i < |t.rows|
  {
    Get(t.rows[i], c)
  }

  /** `df[c]` as a list. */
  function Column(t: Table, c: string): (col: seq<Value>)
    ensures |col| == |t.rows|
    ensures forall i :: 0 <= i < |t.rows| ==> col[i] == Get(t.rows[i], c)
  {
    seq(|t.rows|, i requires 0 <= i < |t.rows| => Get(t.rows[i], c))
  }

  /** `df[c].isnull().all()`. */
  predicate AllNull(t: Table, c: string)
  {
    forall i :: 0 <= i < |t.rows| ==> IsNull(Get(t.rows[i], c))
  }

  /** `df[c].isnull().any()`. */
  predicate AnyNull(t: Table, c: string)
  {
    exists i :: 0 <= i < |t.rows| && IsNull(Get(t.rows[i], c))
  }

  /** `df[c] = v` with one value for every row: the column is overwritten
      where it exists and appended otherwise. */
  function AssignColumn(t: Table, c: string, v: Value): (r: Table)
    requires WellFormed(t)
    ensures WellFormed(r)
    ensures r.columns == if c in t.columns then t.columns else t.columns + [c]
    ensures |r.rows| == |t.rows|
    ensures forall i :: 0 <= i < |t.rows| ==> r.rows[i] == t.rows[i][c := v]
  {
    var cols := if c in t.columns then t.columns else t.columns + [c];
    assert ColumnSet(cols) == ColumnSet(t.columns) + {c};
    Table(cols, seq(|t.rows|, i requires 0 <= i < |t.rows| => t.rows[i][c := v]))
  }

  /**
   * `df.loc[df[key] == k, c] = v`: `c` becomes `v` in the rows whose `key`
   * cell is the string `k`; a new column `c` is NaN in every other row.
   */
  function AssignWhere(t: Table, key: string, k: string, c: string, v: Value): (r: Table)
    ensures r.columns == if c in t.columns then t.columns else t.columns + [c]
    ensures |r.rows| == |t.rows|
    ensures forall i :: 0 <= i < |t.rows| ==>
      r.rows[i] == if Get(t.rows[i], key) == Str(k) then t.rows[i][c := v]
                   else if c in t.columns then t.rows[i] else t.rows[i][c := NaN]
  {
    var cols := if c in t.columns then t.columns else t.columns + [c];
    Table(cols, seq(|t.rows|, i requires 0 <= i < |t.rows| =>
                      if Get(t.rows[i], key) == Str(k) then t.rows[i][c := v]
                      else if c in t.columns then t.rows[i] else t.rows[i][c := NaN]))
  }

  /** Assigning one column leaves every other column as it was. */
  lemma AssignWhereKeepsColumn(t: Table, key: string, k: string, c: string, v: Value, other: string)
    requires other != c
    ensures Column(AssignWhere(t, key, k, c, v), other) == Column(t, other)
    ensures other in AssignWhere(t, key, k, c, v).columns <==> other in t.columns
  {
    var r := AssignWhere(t, key, k, c, v);
    assert forall i :: 0 <= i < |t.rows| ==> Get(r.rows[i], other) == Get(t.rows[i], other);
  }

  /** A frame whose columns the generators overwrite in place. */
  class DataFrame {
    var table: Table

    constructor (t: Table)
      ensures table == t
    {
      table := t;
    }
  }

  /** A schema object (an instance of one of the NMDC record classes) whose
      slots the generators assign after building it. */
  class SchemaObject {
    var slots: Row

    constructor (r: Row)
      ensures slots == r
    {
      slots := r;
    }
  }

  /** The record lists of an NMDC `Database` object that the generators append to. */
  class Database {
    var dataObjectSet: seq<Row>
    var calibrationSet: seq<Row>
    var manifestSet: seq<Row>
    var biosampleSet: seq<Row>
    var processedSampleSet: seq<Row>
    var materialProcessingSet: seq<Row>
    var workflowExecutionSet: seq<Row>
    var dataGenerationSet: seq<Row>

    constructor ()
      ensures dataObjectSet == [] && calibrationSet == [] && manifestSet == [] && biosampleSet == []
      ensures processedSampleSet == [] && materialProcessingSet == []
      ensures workflowExecutionSet == [] && dataGenerationSet == []
    {
      dataObjectSet := [];
      calibrationSet := [];
      manifestSet := [];
      biosampleSet := [];
      processedSampleSet := [];
      materialProcessingSet := [];
      workflowExecutionSet := [];
      dataGenerationSet := [];
    }
  }
}
