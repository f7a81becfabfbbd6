/** storage/csv_history.py: batches of rows appended to data/dolar_history.csv. */
module CsvHistory {
  import opened Files

  /** The file after `append_to_csv(rows)`: an empty batch writes nothing. */
  function CsvAfter(f: CsvFile, columns: seq<string>, rows: seq<seq<Cell>>, writable: bool): (g: CsvFile)
    ensures rows == [] ==> g == f
    ensures rows != [] ==> g == CsvAppended(f, columns, rows, writable)
  {
    if rows == [] then f else CsvAppended(f, columns, rows, writable)
  }

  /** What `append_to_csv` logs: the caught write failure of a non-empty batch. */
  function CsvErrors(rows: seq<seq<Cell>>, writable: bool): seq<string> {
    if rows != [] && !writable then ["Error escribiendo en CSV histórico"] else []
  }

  /** `append_to_csv(csv_rows)`: the write failure is logged, never raised. */
  method AppendToCsv(disk: Disk, columns: seq<string>, rows: seq<seq<Cell>>)
    modifies disk`csv, disk`errorLog
    ensures disk.csv == CsvAfter(old(disk.csv), columns, rows, disk.writable)
    ensures disk.errorLog == old(disk.errorLog) + CsvErrors(rows, disk.writable)
  {
    if rows != [] {
      var ok := disk.AppendCsv(columns, rows);
      if !ok {
        disk.LogError("Error escribiendo en CSV histórico");
      }
    }
  }

  /** The data rows of a file, in order. */
  function DataRows(lines: seq<CsvLine>): seq<seq<Cell>> {
    if lines == [] then []
    else DataRows(lines[..|lines| - 1]) + (if lines[|lines| - 1].Row? then [lines[|lines| - 1].cells] else [])
  }

  lemma {:induction false} DataRowsAppend(a: seq<CsvLine>, b: seq<CsvLine>)
    ensures DataRows(a + b) == DataRows(a) + DataRows(b)
    decreases |b|
  {
    if b == [] {
      assert a + b == a;
    } else {
      var b' := b[..|b| - 1];
      assert (a + b)[..|a + b| - 1] == a + b';
      DataRowsAppend(a, b');
    }
  }

  lemma {:induction false} DataRowsOfRows(cells: seq<seq<Cell>>)
    ensures DataRows(Rows(cells)) == cells
  {
    if cells != [] {
      var init := cells[..|cells| - 1];
      assert Rows(cells)[..|cells| - 1] == Rows(init);
      DataRowsOfRows(init);
    }
  }

  /** One batch: its rows follow the file's earlier rows, in the given order. */
  lemma BatchRowsAppended(f: CsvFile, columns: seq<string>, rows: seq<seq<Cell>>)
    ensures DataRows(CsvAfter(f, columns, rows, true).lines) == DataRows(f.lines) + rows
  {
    if rows != [] {
      var header: seq<CsvLine> := if f.present then [] else [Header(columns)];
      DataRowsAppend(f.lines + header, Rows(rows));
      DataRowsAppend(f.lines, header);
      DataRowsOfRows(rows);
      assert DataRows(header) == [] by {
        if !f.present {
          assert header[..0] == [];
        }
      }
    }
  }

  /** A run of batches, oldest first, all under the same column names. */
  function CsvAfterAll(f: CsvFile, columns: seq<string>, batches: seq<seq<seq<Cell>>>, writable: bool): CsvFile {
    if batches == [] then f
    else CsvAfter(CsvAfterAll(f, columns, batches[..|batches| - 1], writable), columns, batches[|batches| - 1], writable)
  }

  function Concat(batches: seq<seq<seq<Cell>>>): seq<seq<Cell>> {
    if batches == [] then [] else Concat(batches[..|batches| - 1]) + batches[|batches| - 1]
  }

  /**
   * Over any run of batches the file keeps a single header at most, at its top, and its data rows
   * are the earlier ones followed by every batch's rows in order.
   */
  lemma {:induction false} CsvRun(f: CsvFile, columns: seq<string>, batches: seq<seq<seq<Cell>>>)
    requires CsvWellFormed(f)
    ensures CsvWellFormed(CsvAfterAll(f, columns, batches, true))
    ensures DataRows(CsvAfterAll(f, columns, batches, true).lines) == DataRows(f.lines) + Concat(batches)
  {
    if batches != [] {
      var init, last := batches[..|batches| - 1], batches[|batches| - 1];
      var g := CsvAfterAll(f, columns, init, true);
      assert CsvAfterAll(f, columns, batches, true) == CsvAfter(g, columns, last, true);
      assert Concat(batches) == Concat(init) + last;
      CsvRun(f, columns, init);
      CsvRunStep(f, g, columns, Concat(init), last);
    }
  }

  /** One more batch on a file whose rows are already the earlier ones followed by `prior`. */
  lemma CsvRunStep(f: CsvFile, g: CsvFile, columns: seq<string>, prior: seq<seq<Cell>>, last: seq<seq<Cell>>)
    requires CsvWellFormed(g)
    requires DataRows(g.lines) == DataRows(f.lines) + prior
    ensures CsvWellFormed(CsvAfter(g, columns, last, true))
    ensures DataRows(CsvAfter(g, columns, last, true).lines) == DataRows(f.lines) + (prior + last)
  {
    CsvAppendWellFormed(g, columns, last, true);
    BatchRowsAppended(g, columns, last);
    assert (DataRows(f.lines) + prior) + last == DataRows(f.lines) + (prior + last);
  }
}
