// The exporter (src/vscsim/utils/exporter.py): flat rows built from a
// simulation's histories, the overwrite check, and what export_csv writes.
// Whether the target file exists is a parameter; the writing itself is
// modelled by the content it produces.

module Exporter {
  import opened Common

  /** ExportConfig: whether an existing file may be replaced. */
  datatype ExportConfig = ExportConfig(overwrite: bool)

  /** The configuration used when none is given. */
  const DefaultConfig: ExportConfig := ExportConfig(false)

  /** _ensure_can_write: FileExistsError exactly when the file exists and
      overwriting is off. */
  function EnsureCanWrite(fileExists: bool, cfg: ExportConfig): (r: Option<Error>)
    ensures r.Some? <==> fileExists && !cfg.overwrite
    ensures r.Some? ==> r.value == FileExistsError
  {
    if fileExists && !cfg.overwrite then Some(FileExistsError) else None
  }

  /** _normalize_rows: one copy of each row, in order. */
  method NormalizeRows<V>(data: seq<Dict<V>>) returns (rows: seq<Dict<V>>)
    ensures |rows| == |data|
    ensures forall i :: 0 <= i < |data| ==> rows[i] == data[i]
  {
    rows := [];
    for i := 0 to |data|
      invariant |rows| == i
      invariant forall j :: 0 <= j < i ==> rows[j] == data[j]
    {
      var row := data[i];
      rows := rows + [row];
    }
  }

  // ---------------------------------------------------------------------
  // Rows of a simulation
  // ---------------------------------------------------------------------

  /** The row of one instant: "t", then the states, then (when given) the
      algebraic variables, a name of y overwriting the same name of x. */
  function Row(t: real, x: Dict<real>, y: Option<Dict<real>>): (r: Dict<real>)
    ensures |r| > 0 && r[0].0 == "t"
  {
    PutAllKeysPrefix([("t", t)], x);
    var withX := PutAll([("t", t)], x);
    if y.Some? then
      PutAllKeysPrefix(withX, y.value);
      PutAll(withX, y.value)
    else withX
  }

  /** The names of a row: its first column is "t", and a name is present
      exactly when it is "t", a name of x, or a name of the given y; the
      names are distinct. */
  lemma RowKeys(t: real, x: Dict<real>, y: Option<Dict<real>>)
    requires Unique(x) && (y.Some? ==> Unique(y.value))
    ensures var row := Row(t, x, y);
            && Unique(row)
            && |Keys(row)| > 0 && Keys(row)[0] == "t"
            && (forall k :: HasKey(row, k) <==> k == "t" || HasKey(x, k) || (y.Some? && HasKey(y.value, k)))
  {
    RowFirstColumn(t, x, y);
    forall k ensures HasKey(Row(t, x, y), k) <==> k == "t" || HasKey(x, k) || (y.Some? && HasKey(y.value, k)) {
      RowHasKey(t, x, y, k);
    }
  }

  lemma RowHasKey(t: real, x: Dict<real>, y: Option<Dict<real>>, k: string)
    requires Unique(x) && (y.Some? ==> Unique(y.value))
    ensures HasKey(Row(t, x, y), k) <==> k == "t" || HasKey(x, k) || (y.Some? && HasKey(y.value, k))
  {
    var base: Dict<real> := [("t", t)];
    assert HasKey(base, k) <==> k == "t" by {
      if k == "t" {
        assert base[0].0 == k;
      }
    }
    PutAllHasKey(base, x, k);
    if y.Some? {
      PutAllHasKey(PutAll(base, x), y.value, k);
    }
  }

  /** A row's names are distinct and "t" comes first. */
  lemma RowFirstColumn(t: real, x: Dict<real>, y: Option<Dict<real>>)
    ensures var row := Row(t, x, y);
            Unique(row) && |Keys(row)| > 0 && Keys(row)[0] == "t"
  {
    var base: Dict<real> := [("t", t)];
    assert Keys(base) == ["t"];
    PutAllUnique(base, x);
    PutAllKeysPrefix(base, x);
    var withX := PutAll(base, x);
    assert Keys(withX)[..1] == ["t"];
    if y.Some? {
      PutAllUnique(withX, y.value);
      PutAllKeysPrefix(withX, y.value);
      assert Keys(PutAll(withX, y.value))[..|Keys(withX)|] == Keys(withX);
      assert Keys(PutAll(withX, y.value))[0] == Keys(withX)[0];
    }
  }

  /** The values of a row: a name of y has y's value, else a name of x has
      x's value, else "t" has the time (on a name collision y wins). */
  lemma RowValues(t: real, x: Dict<real>, y: Option<Dict<real>>)
    requires Unique(x) && (y.Some? ==> Unique(y.value))
    ensures var row := Row(t, x, y);
            && (forall k :: y.Some? && HasKey(y.value, k) ==> Get(row, k) == Get(y.value, k))
            && (forall k :: (y.None? || !HasKey(y.value, k)) && HasKey(x, k) ==> Get(row, k) == Get(x, k))
            && ((y.None? || !HasKey(y.value, "t")) && !HasKey(x, "t") ==> Get(row, "t") == Some(t))
  {
    var base: Dict<real> := [("t", t)];
    assert Get(base, "t") == Some(t);
    PutAllFacts(base, x);
    if y.Some? {
      PutAllFacts(PutAll(base, x), y.value);
    }
  }

  /** A row whose x and y have only names of a reference row's x and y has
      only columns of that row's header. */
  lemma RowWithin(t: real, x: Dict<real>, y: Option<Dict<real>>, t0: real, x0: Dict<real>, y0: Option<Dict<real>>)
    requires Unique(x) && (y.Some? ==> Unique(y.value))
    requires Unique(x0) && (y0.Some? ==> Unique(y0.value))
    requires y.Some? <==> y0.Some?
    requires forall k :: HasKey(x, k) ==> HasKey(x0, k)
    requires y.Some? ==> forall k :: HasKey(y.value, k) ==> HasKey(y0.value, k)
    ensures FieldsWithin(Row(t, x, y), Keys(Row(t0, x0, y0)))
  {
    var row, row0 := Row(t, x, y), Row(t0, x0, y0);
    RowKeys(t, x, y);
    RowKeys(t0, x0, y0);
    forall j | 0 <= j < |row|
      ensures row[j].0 in Keys(row0)
    {
      var k := row[j].0;
      assert HasKey(row, k);
      assert HasKey(row0, k);
      var m := IndexOf(row0, k);
      assert Keys(row0)[m] == k;
    }
  }

  /** The body of the loop for one instant: row["t"], then every x entry,
      then every y entry. */
  method BuildRow(t: real, x: Dict<real>, y: Option<Dict<real>>) returns (row: Dict<real>)
    ensures row == Row(t, x, y)
  {
    row := [("t", t)];
    for j := 0 to |x|
      invariant row == PutAll([("t", t)], x[..j])
    {
      assert x[..j + 1][..j] == x[..j];
      row := Put(row, x[j].0, x[j].1);
    }
    assert x[..|x|] == x;
    if y.Some? {
      var ys := y.value;
      ghost var withX := row;
      for j := 0 to |ys|
        invariant row == PutAll(withX, ys[..j])
      {
        assert ys[..j + 1][..j] == ys[..j];
        row := Put(row, ys[j].0, ys[j].1);
      }
      assert ys[..|ys|] == ys;
    }
  }

  /** The y snapshot of instant i, when a y history is given. */
  function YAt(yHistory: Option<seq<Dict<real>>>, i: nat): Option<Dict<real>>
    requires yHistory.Some? ==> i < |yHistory.value|
  {
    if yHistory.Some? then Some(yHistory.value[i]) else None
  }

  /** The histories line up with the times. */
  predicate Aligned(times: seq<real>, xHistory: seq<Dict<real>>, yHistory: Option<seq<Dict<real>>>)
  {
    |xHistory| == |times| && (yHistory.Some? ==> |yHistory.value| == |times|)
  }

  /** rows[i] is the row of instant i, for every row built so far. */
  predicate RowsOf(times: seq<real>, xHistory: seq<Dict<real>>, yHistory: Option<seq<Dict<real>>>, rows: seq<Dict<real>>)
    requires Aligned(times, xHistory, yHistory) && |rows| <= |times|
  {
    forall i :: 0 <= i < |rows| ==> rows[i] == Row(times[i], xHistory[i], YAt(yHistory, i))
  }

  /** Appending the row of the next instant keeps the rows in order. */
  lemma RowsOfSnoc(times: seq<real>, xHistory: seq<Dict<real>>, yHistory: Option<seq<Dict<real>>>,
                   rows: seq<Dict<real>>, row: Dict<real>)
    requires Aligned(times, xHistory, yHistory) && |rows| < |times|
    requires RowsOf(times, xHistory, yHistory, rows)
    requires row == Row(times[|rows|], xHistory[|rows|], YAt(yHistory, |rows|))
    ensures RowsOf(times, xHistory, yHistory, rows + [row])
  {
    forall i | 0 <= i < |rows| + 1
      ensures (rows + [row])[i] == Row(times[i], xHistory[i], YAt(yHistory, i))
    {
      if i < |rows| {
        assert (rows + [row])[i] == rows[i];
      }
    }
  }

  /** build_timeseries_rows: ValueError when x_history, or a given
      y_history, does not have one entry per time; otherwise one row per
      time, in order, row i being Row(times[i], x_history[i], y_history[i]). */
  method BuildTimeseriesRows(times: seq<real>, xHistory: seq<Dict<real>>, yHistory: Option<seq<Dict<real>>>)
    returns (r: Result<seq<Dict<real>>>)
    ensures |xHistory| != |times| ==> r == Err(ValueError)
    ensures r.Ok? <==> Aligned(times, xHistory, yHistory)
    ensures r.Err? ==> r.error == ValueError
    ensures r.Ok? ==> |r.value| == |times|
                      && forall i :: 0 <= i < |times| ==> r.value[i] == Row(times[i], xHistory[i], YAt(yHistory, i))
  {
    var n := |times|;
    if |xHistory| != n {
      return Err(ValueError);
    }
    if yHistory.Some? && |yHistory.value| != n {
      return Err(ValueError);
    }
    var rows: seq<Dict<real>> := [];
    for idx := 0 to n
      invariant |rows| == idx
      invariant RowsOf(times, xHistory, yHistory, rows)
    {
      var row := BuildRow(times[idx], xHistory[idx], YAt(yHistory, idx));
      RowsOfSnoc(times, xHistory, yHistory, rows, row);
      rows := rows + [row];
    }
    return Ok(rows);
  }

  // ---------------------------------------------------------------------
  // CSV content
  // ---------------------------------------------------------------------

  /** What export_csv leaves in the file: nothing at all, or a header and
      one record per row (a missing field is written empty, here None). */
  datatype CsvContent<V> = Empty | Table(header: seq<string>, records: seq<seq<Option<V>>>)

  /** Every field of the row is a column of the header (csv.DictWriter
      raises ValueError for a row with any other field). */
  predicate FieldsWithin<V>(row: Dict<V>, header: seq<string>)
  {
    forall j :: 0 <= j < |row| ==> row[j].0 in header
  }

  /** The record csv.DictWriter writes for a row: its value for each column
      of the header, in the header's order. */
  function RecordOf<V>(row: Dict<V>, header: seq<string>): (r: seq<Option<V>>)
    ensures |r| == |header|
    ensures forall j :: 0 <= j < |header| ==> r[j] == Get(row, header[j])
  {
    seq(|header|, j requires 0 <= j < |header| => Get(row, header[j]))
  }

  /** The first |records| rows fit the header and are written as records. */
  ghost predicate Written<V>(data: seq<Dict<V>>, header: seq<string>, records: seq<seq<Option<V>>>)
  {
    && |records| <= |data|
    && forall m :: 0 <= m < |records| ==> FieldsWithin(data[m], header) && records[m] == RecordOf(data[m], header)
  }

  /** Writing the next row, which fits the header, extends the records. */
  lemma WrittenSnoc<V>(data: seq<Dict<V>>, header: seq<string>, records: seq<seq<Option<V>>>)
    requires Written(data, header, records) && |records| < |data|
    requires FieldsWithin(data[|records|], header)
    ensures Written(data, header, records + [RecordOf(data[|records|], header)])
  {
    var next := records + [RecordOf(data[|records|], header)];
    forall m | 0 <= m < |next|
      ensures FieldsWithin(data[m], header) && next[m] == RecordOf(data[m], header)
    {
      if m < |records| {
        assert next[m] == records[m];
      }
    }
  }

  /** export_csv(data, path, config): the overwrite check first; no rows
      gives an empty file without header; otherwise the header is the first
      row's keys, in order, and each row is written in turn, a row with a
      field outside the header raising ValueError. */
  method ExportCsv<V>(data: seq<Dict<V>>, fileExists: bool, cfg: ExportConfig) returns (r: Result<CsvContent<V>>)
    ensures EnsureCanWrite(fileExists, cfg).Some? ==> r == Err(FileExistsError)
    ensures EnsureCanWrite(fileExists, cfg).None? && data == [] ==> r == Ok(Empty)
    ensures EnsureCanWrite(fileExists, cfg).None? && data != [] ==>
              (r.Ok? <==> forall i :: 0 <= i < |data| ==> FieldsWithin(data[i], Keys(data[0])))
    ensures r.Err? && EnsureCanWrite(fileExists, cfg).None? ==> r.error == ValueError
    ensures r.Ok? && data != [] ==>
              && r.value.Table? && r.value.header == Keys(data[0])
              && |r.value.records| == |data|
              && forall i :: 0 <= i < |data| ==> r.value.records[i] == RecordOf(data[i], Keys(data[0]))
  {
    var denied := EnsureCanWrite(fileExists, cfg);
    if denied.Some? {
      return Err(denied.value);
    }
    var rows := NormalizeRows(data);
    assert rows == data;
    if rows == [] {
      return Ok(Empty);
    }
    var fieldnames := Keys(rows[0]);
    var records: seq<seq<Option<V>>> := [];
    for i := 0 to |rows|
      invariant |records| == i
      invariant Written(data, fieldnames, records)
    {
      var row := rows[i];
      if !FieldsWithin(row, fieldnames) {
        assert !FieldsWithin(data[i], Keys(data[0]));
        return Err(ValueError);
      }
      WrittenSnoc(data, fieldnames, records);
      records := records + [RecordOf(row, fieldnames)];
    }
    return Ok(Table(fieldnames, records));
  }

  /** The table written for aligned, non-empty histories: the first row's
      names as header, and row i's value under each of them as record i. */
  function SimulationTable(times: seq<real>, xHistory: seq<Dict<real>>, yHistory: Option<seq<Dict<real>>>): (c: CsvContent<real>)
    requires Aligned(times, xHistory, yHistory) && times != []
    ensures c.Table? && |c.records| == |times|
  {
    var header := Keys(Row(times[0], xHistory[0], YAt(yHistory, 0)));
    Table(header, seq(|times|, i requires 0 <= i < |times| => RecordOf(Row(times[i], xHistory[i], YAt(yHistory, i)), header)))
  }

  /** Every row of the simulation has only fields of row 0's header, the
      condition under which csv.DictWriter writes them all. */
  predicate RowsFit(times: seq<real>, xHistory: seq<Dict<real>>, yHistory: Option<seq<Dict<real>>>)
    requires Aligned(times, xHistory, yHistory) && times != []
  {
    forall i :: 0 <= i < |times| ==>
      FieldsWithin(Row(times[i], xHistory[i], YAt(yHistory, i)), Keys(Row(times[0], xHistory[0], YAt(yHistory, 0))))
  }

  /** On the rows built from the histories, RowsFit is the writer's
      condition that every row's fields lie within row 0's header. */
  lemma RowsFitIff(times: seq<real>, xHistory: seq<Dict<real>>, yHistory: Option<seq<Dict<real>>>, rows: seq<Dict<real>>)
    requires Aligned(times, xHistory, yHistory) && times != []
    requires |rows| == |times| && forall i :: 0 <= i < |times| ==> rows[i] == Row(times[i], xHistory[i], YAt(yHistory, i))
    ensures RowsFit(times, xHistory, yHistory) <==> forall i :: 0 <= i < |rows| ==> FieldsWithin(rows[i], Keys(rows[0]))
  {
    assert rows[0] == Row(times[0], xHistory[0], YAt(yHistory, 0));
  }

  /** export_simulation_csv: the rows first (so a length mismatch raises
      ValueError even when the file exists), then export_csv. */
  method ExportSimulationCsv(times: seq<real>, xHistory: seq<Dict<real>>, yHistory: Option<seq<Dict<real>>>,
                             fileExists: bool, cfg: ExportConfig) returns (r: Result<CsvContent<real>>)
    ensures !Aligned(times, xHistory, yHistory) ==> r == Err(ValueError)
    ensures Aligned(times, xHistory, yHistory) && EnsureCanWrite(fileExists, cfg).Some? ==> r == Err(FileExistsError)
    ensures r.Ok? && times != [] ==> r.value == SimulationTable(times, xHistory, yHistory)
    ensures r.Ok? && times == [] ==> r.value == Empty
    ensures Aligned(times, xHistory, yHistory) && EnsureCanWrite(fileExists, cfg).None? && times == [] ==> r == Ok(Empty)
    ensures Aligned(times, xHistory, yHistory) && EnsureCanWrite(fileExists, cfg).None? && times != [] ==>
              (r.Ok? <==> RowsFit(times, xHistory, yHistory))
    ensures r.Err? && Aligned(times, xHistory, yHistory) && EnsureCanWrite(fileExists, cfg).None? ==> r.error == ValueError
  {
    var rows :- BuildTimeseriesRows(times, xHistory, yHistory);
    r := ExportCsv(rows, fileExists, cfg);
    if times != [] && EnsureCanWrite(fileExists, cfg).None? {
      RowsFitIff(times, xHistory, yHistory, rows);
    }
  }

  /** Every x snapshot has only names of the first, and so has every y
      snapshot: the shape of the histories a run produces. */
  ghost predicate SameNames(xHistory: seq<Dict<real>>, yHistory: Option<seq<Dict<real>>>)
  {
    && (forall i, k :: 0 <= i < |xHistory| && HasKey(xHistory[i], k) ==> HasKey(xHistory[0], k))
    && (yHistory.Some? ==> forall i, k :: 0 <= i < |yHistory.value| && HasKey(yHistory.value[i], k) ==> HasKey(yHistory.value[0], k))
  }

  /** Rows built from histories whose snapshots share the first one's names
      never raise in the writer: every field is in the header. */
  lemma RowsWithinHeader(times: seq<real>, xHistory: seq<Dict<real>>, yHistory: Option<seq<Dict<real>>>,
                         rows: seq<Dict<real>>)
    requires Aligned(times, xHistory, yHistory) && times != []
    requires forall i :: 0 <= i < |times| ==> Unique(xHistory[i]) && (yHistory.Some? ==> Unique(yHistory.value[i]))
    requires SameNames(xHistory, yHistory)
    requires |rows| == |times| && forall i :: 0 <= i < |times| ==> rows[i] == Row(times[i], xHistory[i], YAt(yHistory, i))
    ensures forall i :: 0 <= i < |rows| ==> FieldsWithin(rows[i], Keys(rows[0]))
  {
    forall i | 0 <= i < |rows|
      ensures FieldsWithin(rows[i], Keys(rows[0]))
    {
      RowWithin(times[i], xHistory[i], YAt(yHistory, i), times[0], xHistory[0], YAt(yHistory, 0));
    }
  }
}
