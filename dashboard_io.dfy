// The dashboard's file layer (dashboard/io.py): the run id of a file, the
// choice of one file per run id, the CSV reader and the suffix dispatch.
// Files are given as the lists rglob yields; a CSV file as the records
// csv.reader yields for it. Parquet reading (pandas) is outside the model:
// its outcome is a parameter.

module DashboardIo {
  import opened Common
  import Exporter

  /** A file: the directory it sits in and its name. */
  datatype Path = Path(dir: string, name: string)

  // ---------------------------------------------------------------------
  // Run ids
  // ---------------------------------------------------------------------

  /** str.rfind('.'): the position of the last dot, or -1. */
  function LastDot(s: string): (i: int)
    ensures -1 <= i < |s|
    ensures i >= 0 ==> s[i] == '.'
    ensures forall j :: i < j < |s| ==> s[j] != '.'
  {
    if s == [] then -1
    else if s[|s| - 1] == '.' then |s| - 1
    else LastDot(s[..|s| - 1])
  }

  /** Where pathlib splits a name into stem and suffix: at the last dot,
      unless that dot is the first or the last character (then the suffix
      is empty). */
  function SuffixStart(name: string): (k: nat)
    ensures k <= |name|
  {
    var i := LastDot(name);
    if 0 < i < |name| - 1 then i else |name|
  }

  /** Path.suffix */
  function Suffix(name: string): (r: string)
    ensures r == [] || IsExtension(r)
  {
    name[SuffixStart(name)..]
  }

  /** Path.stem */
  function Stem(name: string): (r: string)
    ensures r + Suffix(name) == name
    ensures r == [] <==> name == []
  {
    name[..SuffixStart(name)]
  }

  /** A file extension as pathlib sees one: a dot and at least one further
      character, none of them a dot. */
  predicate IsExtension(ext: string)
  {
    |ext| >= 2 && ext[0] == '.' && forall j :: 1 <= j < |ext| ==> ext[j] != '.'
  }

  /** A name made of a non-empty base and an extension splits into exactly
      those two, whatever dots the base holds. */
  lemma ExtensionSplit(base: string, ext: string)
    requires base != [] && IsExtension(ext)
    ensures Stem(base + ext) == base && Suffix(base + ext) == ext
  {
    var name := base + ext;
    var i := LastDot(name);
    assert name[|base|] == '.';
    assert forall j :: |base| < j < |name| ==> name[j] == ext[j - |base|];
    assert i == |base|;
    assert name[..|base|] == base && name[|base|..] == ext;
  }

  /** The spaces of s replaced by underscores. */
  function Underscored(s: string): (r: string)
    ensures |r| == |s|
    ensures forall i :: 0 <= i < |s| ==> r[i] == (if s[i] == ' ' then '_' else s[i])
  {
    seq(|s|, i requires 0 <= i < |s| => if s[i] == ' ' then '_' else s[i])
  }

  /** What a run id looks like: no space and no upper-case letter. */
  predicate Canonical(s: string)
  {
    forall i :: 0 <= i < |s| ==> s[i] != ' ' && !('A' <= s[i] <= 'Z')
  }

  /** build_run_id: the stem with spaces replaced by "_", lower-cased. */
  function BuildRunId(p: Path): (r: string)
    ensures |r| == |Stem(p.name)| && Canonical(r)
  {
    CanonicalForm(Stem(p.name));
    Lower(Underscored(Stem(p.name)))
  }

  /** Replacing the spaces and lower-casing gives a canonical string with
      one character per character of s. */
  lemma CanonicalForm(s: string)
    ensures |Lower(Underscored(s))| == |s| && Canonical(Lower(Underscored(s)))
  {
    var u := Underscored(s);
    forall i | 0 <= i < |u|
      ensures Lower(u)[i] != ' ' && !('A' <= Lower(u)[i] <= 'Z')
    {
      assert Lower(u)[i] == LowerChar(u[i]);
    }
  }

  /** A canonical string is its own canonical form. */
  lemma CanonicalFixed(s: string)
    requires Canonical(s)
    ensures Lower(Underscored(s)) == s
  {
    var r := Lower(Underscored(s));
    forall i | 0 <= i < |s|
      ensures r[i] == s[i]
    {
      assert Underscored(s)[i] == s[i];
    }
  }

  /** A file named after a canonical id, with any extension, has that id:
      the file the exporter writes for a run is found again under it. */
  lemma RunIdOfNamedFile(dir: string, id: string, ext: string)
    requires id != [] && Canonical(id) && IsExtension(ext)
    ensures BuildRunId(Path(dir, id + ext)) == id
  {
    ExtensionSplit(id, ext);
    CanonicalFixed(id);
  }

  /** A CSV and a Parquet file with the same base name, in any directories,
      share their run id. */
  lemma CsvAndParquetShareId(dir1: string, dir2: string, base: string)
    requires base != []
    ensures BuildRunId(Path(dir1, base + ".csv")) == BuildRunId(Path(dir2, base + ".parquet"))
  {
    ExtensionSplit(base, ".csv");
    ExtensionSplit(base, ".parquet");
  }

  /** Building the id is idempotent: a file named after an id has that id. */
  lemma RunIdIdempotent(p: Path, dir: string)
    requires BuildRunId(p) != []
    ensures BuildRunId(Path(dir, BuildRunId(p) + ".csv")) == BuildRunId(p)
  {
    CanonicalForm(Stem(p.name));
    RunIdOfNamedFile(dir, BuildRunId(p), ".csv");
  }

  // ---------------------------------------------------------------------
  // One file per run id
  // ---------------------------------------------------------------------

  /** The run ids of the files, in order. */
  function RunIdsOf(files: seq<Path>): (ids: seq<string>)
    ensures |ids| == |files|
  {
    seq(|files|, i requires 0 <= i < |files| => BuildRunId(files[i]))
  }

  /** The position of the first occurrence of id, or |ids| when there is
      none. */
  function FirstIndex(ids: seq<string>, id: string): (i: nat)
    ensures i <= |ids|
    ensures i < |ids| <==> id in ids
    ensures i < |ids| ==> ids[i] == id
    ensures id !in ids[..i]
  {
    if ids == [] then 0
    else if ids[0] == id then 0
    else
      var k := FirstIndex(ids[1..], id);
      assert ids[..k + 1] == [ids[0]] + ids[1..][..k];
      assert ids == [ids[0]] + ids[1..];
      k + 1
  }

  /** A position holding id with no id before it is the first index. */
  lemma FirstIndexAt(ids: seq<string>, id: string, i: nat)
    requires i < |ids| && ids[i] == id && id !in ids[..i]
    ensures FirstIndex(ids, id) == i
  {
    var f := FirstIndex(ids, id);
    assert f <= i by {
      assert id in ids[..i + 1];
    }
    assert f >= i by {
      assert forall k :: 0 <= k < f ==> ids[k] == ids[..f][k];
    }
  }

  /** The file a run id stands for: the first CSV file with that id, else
      (only when pandas is available) the first Parquet file with it. */
  function Chosen(id: string, csvFiles: seq<Path>, parquetFiles: seq<Path>, hasPandas: bool): (r: Option<Path>)
    ensures r.Some? ==> BuildRunId(r.value) == id
    ensures r.Some? ==> r.value in csvFiles || (hasPandas && r.value in parquetFiles)
  {
    var c := FirstWithId(id, csvFiles);
    if c.Some? then c
    else if hasPandas then FirstWithId(id, parquetFiles)
    else None
  }

  /** The first of the files whose run id is id, if any. */
  function FirstWithId(id: string, files: seq<Path>): (r: Option<Path>)
    ensures r.Some? ==> BuildRunId(r.value) == id && r.value in files
  {
    var i := FirstIndex(RunIdsOf(files), id);
    if i < |files| then Some(files[i]) else None
  }

  /** What Chosen means: a file is chosen exactly when some CSV file, or
      (with pandas) some Parquet file, has the id; the chosen file has the
      id; it is a CSV file whenever one has the id, and no CSV file before
      it has the id. */
  lemma ChosenFacts(id: string, csvFiles: seq<Path>, parquetFiles: seq<Path>, hasPandas: bool)
    ensures var c := Chosen(id, csvFiles, parquetFiles, hasPandas);
            && (c.Some? <==> (exists k :: 0 <= k < |csvFiles| && BuildRunId(csvFiles[k]) == id)
                             || (hasPandas && exists k :: 0 <= k < |parquetFiles| && BuildRunId(parquetFiles[k]) == id))
            && (c.Some? ==> BuildRunId(c.value) == id)
            && ((exists k :: 0 <= k < |csvFiles| && BuildRunId(csvFiles[k]) == id) ==>
                  exists i :: 0 <= i < |csvFiles| && c == Some(csvFiles[i])
                              && forall k :: 0 <= k < i ==> BuildRunId(csvFiles[k]) != id)
  {
    var cids := RunIdsOf(csvFiles);
    var i := FirstIndex(cids, id);
    HasIdInIds(csvFiles, id);
    HasIdInIds(parquetFiles, id);
    if i < |csvFiles| {
      forall k | 0 <= k < i
        ensures BuildRunId(csvFiles[k]) != id
      {
        assert cids[k] == cids[..i][k];
      }
    }
  }

  /** Some file has the id exactly when the id is among the files' ids. */
  lemma HasIdInIds(files: seq<Path>, id: string)
    ensures id in RunIdsOf(files) <==> exists k :: 0 <= k < |files| && BuildRunId(files[k]) == id
  {
    if exists k :: 0 <= k < |files| && BuildRunId(files[k]) == id {
      var k :| 0 <= k < |files| && BuildRunId(files[k]) == id;
      assert RunIdsOf(files)[k] == id;
    }
  }

  /** find_run_file: the CSV files first, then (with pandas) the Parquet
      files, the first file with the id being returned; FileNotFoundError
      when none has it. */
  method FindRunFile(runId: string, csvFiles: seq<Path>, parquetFiles: seq<Path>, hasPandas: bool) returns (r: Result<Path>)
    ensures Chosen(runId, csvFiles, parquetFiles, hasPandas).Some? ==> r == Ok(Chosen(runId, csvFiles, parquetFiles, hasPandas).value)
    ensures Chosen(runId, csvFiles, parquetFiles, hasPandas).None? ==> r == Err(FileNotFoundError)
  {
    var c := ScanFiles(runId, csvFiles);
    if c.Some? {
      return Ok(c.value);
    }
    if hasPandas {
      var p := ScanFiles(runId, parquetFiles);
      if p.Some? {
        return Ok(p.value);
      }
    }
    return Err(FileNotFoundError);
  }

  /** One of find_run_file's loops: the files in order, stopping at the
      first whose run id is runId. */
  method ScanFiles(runId: string, files: seq<Path>) returns (r: Option<Path>)
    ensures r == FirstWithId(runId, files)
  {
    var ids := RunIdsOf(files);
    for i := 0 to |files|
      invariant runId !in ids[..i]
    {
      if BuildRunId(files[i]) == runId {
        FirstIndexAt(ids, runId, i);
        return Some(files[i]);
      }
      assert ids[..i + 1] == ids[..i] + [ids[i]];
    }
    assert ids[..|files|] == ids;
    return None;
  }

  /** Python's order on str: code point by code point, a proper prefix
      first. */
  predicate StrLess(a: string, b: string)
  {
    if a == [] then b != []
    else if b == [] then false
    else if a[0] != b[0] then a[0] < b[0]
    else StrLess(a[1..], b[1..])
  }

  lemma {:induction false} StrLessIrreflexive(a: string)
    ensures !StrLess(a, a)
  {
    if a != [] {
      StrLessIrreflexive(a[1..]);
    }
  }

  lemma {:induction false} StrLessTotal(a: string, b: string)
    requires a != b
    ensures StrLess(a, b) || StrLess(b, a)
  {
    if a != [] && b != [] && a[0] == b[0] {
      assert a == [a[0]] + a[1..] && b == [b[0]] + b[1..];
      StrLessTotal(a[1..], b[1..]);
    }
  }

  lemma {:induction false} StrLessTransitive(a: string, b: string, c: string)
    requires StrLess(a, b) && StrLess(b, c)
    ensures StrLess(a, c)
  {
    if a != [] && b != [] && c != [] && a[0] == b[0] && b[0] == c[0] {
      StrLessTransitive(a[1..], b[1..], c[1..]);
    }
  }

  /** The ids of a list of (id, path) entries. */
  function RunIds(runs: seq<(string, Path)>): set<string>
  {
    set e | e in runs :: e.0
  }

  /** Entries in strictly increasing order of id. */
  predicate SortedById(runs: seq<(string, Path)>)
  {
    forall i, j :: 0 <= i < j < |runs| ==> StrLess(runs[i].0, runs[j].0)
  }

  /** e placed in front of the first entry with a greater id. */
  function Insert(runs: seq<(string, Path)>, e: (string, Path)): (r: seq<(string, Path)>)
    ensures |r| == |runs| + 1
    ensures forall x :: x in r <==> x in runs || x == e
  {
    if runs == [] then [e]
    else if StrLess(e.0, runs[0].0) then [e] + runs
    else [runs[0]] + Insert(runs[1..], e)
  }

  lemma {:induction false} InsertSorted(runs: seq<(string, Path)>, e: (string, Path))
    requires SortedById(runs) && e.0 !in RunIds(runs)
    ensures SortedById(Insert(runs, e))
  {
    if runs == [] {
    } else if StrLess(e.0, runs[0].0) {
      forall j | 0 <= j < |runs|
        ensures StrLess(e.0, runs[j].0)
      {
        if j > 0 {
          StrLessTransitive(e.0, runs[0].0, runs[j].0);
        }
      }
    } else {
      assert runs[0] in runs && runs[0].0 in RunIds(runs);
      StrLessTotal(e.0, runs[0].0);
      assert RunIds(runs[1..]) <= RunIds(runs) by {
        forall x | x in runs[1..] ensures x in runs { }
      }
      InsertSorted(runs[1..], e);
      var rest := Insert(runs[1..], e);
      forall j | 0 <= j < |rest|
        ensures StrLess(runs[0].0, rest[j].0)
      {
        if rest[j] != e {
          assert rest[j] in runs[1..];
          var k :| 0 <= k < |runs[1..]| && runs[1..][k] == rest[j];
          assert runs[k + 1] == rest[j];
        }
      }
      assert Insert(runs, e) == [runs[0]] + rest;
    }
  }

  lemma InsertIds(runs: seq<(string, Path)>, e: (string, Path))
    ensures RunIds(Insert(runs, e)) == RunIds(runs) + {e.0}
  {
    var r := Insert(runs, e);
    forall x | x in RunIds(r)
      ensures x in RunIds(runs) + {e.0}
    {
      var y :| y in r && y.0 == x;
    }
    forall x | x in RunIds(runs) + {e.0}
      ensures x in RunIds(r)
    {
      if x == e.0 {
        assert e in r;
      } else {
        var y :| y in runs && y.0 == x;
        assert y in r;
      }
    }
  }

  /** One step of SortedItems: the entry of k moves from rest to items. */
  lemma InsertStep(items: seq<(string, Path)>, rest: set<string>, m: map<string, Path>, k: string)
    requires SortedById(items)
    requires RunIds(items) !! rest && RunIds(items) + rest == m.Keys
    requires forall e :: e in items ==> e.0 in m && m[e.0] == e.1
    requires k in rest
    ensures var next := Insert(items, (k, m[k]));
            && SortedById(next)
            && RunIds(next) !! (rest - {k}) && RunIds(next) + (rest - {k}) == m.Keys
            && forall e :: e in next ==> e.0 in m && m[e.0] == e.1
  {
    InsertSorted(items, (k, m[k]));
    InsertIds(items, (k, m[k]));
  }

  /** sorted(runs.items()): the map's entries, one per key, in increasing
      order of id. */
  method SortedItems(m: map<string, Path>) returns (items: seq<(string, Path)>)
    ensures SortedById(items)
    ensures RunIds(items) == m.Keys
    ensures forall e :: e in items ==> e.0 in m && m[e.0] == e.1
  {
    items := [];
    var rest := m.Keys;
    while rest != {}
      invariant SortedById(items)
      invariant RunIds(items) !! rest && RunIds(items) + rest == m.Keys
      invariant forall e :: e in items ==> e.0 in m && m[e.0] == e.1
      decreases |rest|
    {
      var k :| k in rest;
      InsertStep(items, rest, m, k);
      items := Insert(items, (k, m[k]));
      rest := rest - {k};
    }
  }

  /** list_runs: every CSV file's id, then (with pandas) every Parquet
      file's id, the first path seen for an id being kept (setdefault); the
      entries sorted by id. An id is listed exactly when some file has it,
      and its path is the one find_run_file returns for it. */
  method ListRuns(csvFiles: seq<Path>, parquetFiles: seq<Path>, hasPandas: bool) returns (runs: seq<(string, Path)>)
    ensures SortedById(runs)
    ensures forall id :: id in RunIds(runs) <==> Chosen(id, csvFiles, parquetFiles, hasPandas).Some?
    ensures forall e :: e in runs ==> Chosen(e.0, csvFiles, parquetFiles, hasPandas) == Some(e.1)
  {
    var m := CollectCsv(csvFiles);
    if hasPandas {
      m := CollectParquet(m, csvFiles, parquetFiles);
    }
    runs := SortedItems(m);
  }

  /** The CSV loop of list_runs: each CSV file's id, with the first CSV
      file that has it. */
  method CollectCsv(csvFiles: seq<Path>) returns (m: map<string, Path>)
    ensures forall id :: id in m <==> id in RunIdsOf(csvFiles)
    ensures forall id :: id in m ==> m[id] == csvFiles[FirstIndex(RunIdsOf(csvFiles), id)]
  {
    var ids := RunIdsOf(csvFiles);
    m := map[];
    for i := 0 to |csvFiles|
      invariant forall id :: id in m <==> id in ids[..i]
      invariant forall id :: id in m ==> FirstIndex(ids, id) < |ids| && m[id] == csvFiles[FirstIndex(ids, id)]
    {
      var id := BuildRunId(csvFiles[i]);
      assert ids[..i + 1] == ids[..i] + [id];
      if id !in m {
        FirstIndexAt(ids, id, i);
        m := m[id := csvFiles[i]];
      }
    }
    assert ids[..|csvFiles|] == ids;
  }

  /** The Parquet loop of list_runs: setdefault keeps the CSV entries and
      adds each remaining id with its first Parquet file. */
  method CollectParquet(csvRuns: map<string, Path>, csvFiles: seq<Path>, parquetFiles: seq<Path>) returns (m: map<string, Path>)
    requires forall id :: id in csvRuns <==> id in RunIdsOf(csvFiles)
    requires forall id :: id in csvRuns ==> csvRuns[id] == csvFiles[FirstIndex(RunIdsOf(csvFiles), id)]
    ensures forall id :: id in m <==> id in RunIdsOf(csvFiles) || id in RunIdsOf(parquetFiles)
    ensures forall id :: id in m ==> Chosen(id, csvFiles, parquetFiles, true) == Some(m[id])
  {
    var cids := RunIdsOf(csvFiles);
    var pids := RunIdsOf(parquetFiles);
    m := csvRuns;
    for i := 0 to |parquetFiles|
      invariant forall id :: id in m <==> id in cids || id in pids[..i]
      invariant forall id :: id in m ==> Chosen(id, csvFiles, parquetFiles, true) == Some(m[id])
    {
      var id := BuildRunId(parquetFiles[i]);
      assert pids[..i + 1] == pids[..i] + [id];
      if id !in m {
        FirstIndexAt(pids, id, i);
        m := m[id := parquetFiles[i]];
      }
    }
    assert pids[..|parquetFiles|] == pids;
  }

  // ---------------------------------------------------------------------
  // Reading a CSV file
  // ---------------------------------------------------------------------

  /** No name occurs twice. */
  predicate Distinct(s: seq<string>)
  {
    forall i, j :: 0 <= i < j < |s| ==> s[i] != s[j]
  }

  /** The position of the last occurrence of c, or -1. */
  function LastIndex(header: seq<string>, c: string): (j: int)
    ensures -1 <= j < |header|
    ensures j >= 0 ==> header[j] == c
    ensures j < 0 ==> c !in header
    ensures forall k :: j < k < |header| ==> header[k] != c
  {
    if header == [] then -1
    else if header[|header| - 1] == c then |header| - 1
    else LastIndex(header[..|header| - 1], c)
  }

  /** A cell as csv.DictReader gives it: text, or None (restval) for a
      column the record is too short to reach. */
  datatype Cell = Text(s: string) | Missing

  /** row.get(c, ""): a name absent from the header gives ""; otherwise
      the field under the name's last occurrence (DictReader zips the
      header with the record, a later column overwriting an earlier one of
      the same name), or None when the record is too short for it. */
  function CellOf(header: seq<string>, row: seq<string>, c: string): Cell
  {
    var j := LastIndex(header, c);
    if j < 0 then Text("")
    else if j < |row| then Text(row[j])
    else Missing
  }

  /** The time of a record: float() of its time cell, or nothing (None
      raises TypeError, a non-numeral ValueError). */
  function TimeOf(header: seq<string>, row: seq<string>, tc: string): Option<real>
  {
    match CellOf(header, row, tc)
    case Text(s) => ParseDecimal(s)
    case Missing => None
  }

  /** The value of a signal in a record: None for "" or a missing cell,
      float() of the text otherwise, None when that fails. */
  function SignalOf(header: seq<string>, row: seq<string>, c: string): Option<real>
  {
    match CellOf(header, row, c)
    case Text(s) => if s == "" then None else ParseDecimal(s)
    case Missing => None
  }

  /** A record the reader keeps: not blank (DictReader skips those) and
      with a time that parses. */
  predicate Kept(header: seq<string>, row: seq<string>, tc: string)
  {
    row != [] && TimeOf(header, row, tc).Some?
  }

  /** The times of the kept records, in order. */
  function KeptTimes(header: seq<string>, rows: seq<seq<string>>, tc: string): seq<real>
  {
    if rows == [] then []
    else
      var row := rows[|rows| - 1];
      KeptTimes(header, rows[..|rows| - 1], tc) + (if Kept(header, row, tc) then [TimeOf(header, row, tc).value] else [])
  }

  /** The values of signal c in the kept records, in order. */
  function Column(header: seq<string>, rows: seq<seq<string>>, tc: string, c: string): seq<Option<real>>
  {
    if rows == [] then []
    else
      var row := rows[|rows| - 1];
      Column(header, rows[..|rows| - 1], tc, c) + (if Kept(header, row, tc) then [SignalOf(header, row, c)] else [])
  }

  /** Every signal has one value per kept time. */
  lemma {:induction false} ColumnLength(header: seq<string>, rows: seq<seq<string>>, tc: string, c: string)
    ensures |Column(header, rows, tc, c)| == |KeptTimes(header, rows, tc)|
  {
    if rows != [] {
      ColumnLength(header, rows[..|rows| - 1], tc, c);
    }
  }

  /** A header without the time column keeps no record at all. */
  lemma {:induction false} KeptTimesWithoutColumn(header: seq<string>, rows: seq<seq<string>>, tc: string)
    requires tc !in header
    ensures KeptTimes(header, rows, tc) == []
  {
    if rows != [] {
      KeptTimesWithoutColumn(header, rows[..|rows| - 1], tc);
      assert CellOf(header, rows[|rows| - 1], tc) == Text("");
    }
  }

  /** Records that are all non-blank with parsing times ts keep exactly
      those times. */
  lemma {:induction false} KeptTimesAll(header: seq<string>, rows: seq<seq<string>>, tc: string, ts: seq<real>)
    requires |rows| == |ts|
    requires forall i :: 0 <= i < |rows| ==> rows[i] != [] && TimeOf(header, rows[i], tc) == Some(ts[i])
    ensures KeptTimes(header, rows, tc) == ts
  {
    if rows != [] {
      var n := |rows|;
      var init := rows[..n - 1];
      var t := TimeOf(header, rows[n - 1], tc);
      assert rows[n - 1] != [] && t == Some(ts[n - 1]);
      KeptTimesAll(header, init, tc, ts[..n - 1]);
      assert ts == ts[..n - 1] + [t.value];
    }
  }

  /** [c for c in header if c != time_column] */
  function OtherCols(header: seq<string>, tc: string): (r: seq<string>)
    ensures forall c :: c in r <==> c in header && c != tc
    ensures Distinct(header) ==> Distinct(r)
  {
    if header == [] then []
    else
      assert Distinct(header) ==> header[0] !in header[1..];
      (if header[0] == tc then [] else [header[0]]) + OtherCols(header[1..], tc)
  }

  /** The times a CSV file yields: none without a header. */
  function CsvTimes(records: seq<seq<string>>, tc: string): seq<real>
  {
    if records == [] then [] else KeptTimes(records[0], records[1..], tc)
  }

  /** list_signals_from_csv: the header's names other than the time
      column, in order; [] for an empty file or an empty header. */
  function ListSignalsFromCsv(records: seq<seq<string>>, tc: string): (r: seq<string>)
    ensures records == [] ==> r == []
    ensures records != [] ==> forall c :: c in r <==> c in records[0] && c != tc
  {
    if records == [] || records[0] == [] then [] else OtherCols(records[0], tc)
  }

  /** One kept record's values appended to the lists of the other columns
      (twice to a list whose name occurs twice). */
  method AppendSignals(signals: map<string, seq<Option<real>>>, header: seq<string>, row: seq<string>, others: seq<string>)
    returns (out: map<string, seq<Option<real>>>)
    requires forall c :: c in others ==> c in signals
    ensures out.Keys == signals.Keys
    ensures Distinct(others) ==>
              forall c :: c in out ==> out[c] == (if c in others then signals[c] + [SignalOf(header, row, c)] else signals[c])
  {
    out := signals;
    for k := 0 to |others|
      invariant out.Keys == signals.Keys
      invariant Distinct(others) ==>
                  forall c :: c in out ==> out[c] == (if c in others[..k] then signals[c] + [SignalOf(header, row, c)] else signals[c])
    {
      var c := others[k];
      assert Distinct(others) ==> c !in others[..k];
      out := out[c := out[c] + [SignalOf(header, row, c)]];
      assert others[..k + 1] == others[..k] + [c];
    }
    assert others[..|others|] == others;
  }

  /** load_csv_timeseries: ([], {}) for an empty file; otherwise one list
      per name of the header other than the time column, and for every
      non-blank record whose time parses, the time and each signal's value.
      With distinct column names every signal list has the values of that
      column and one entry per time. */
  /** The kept times and columns of one more record. */
  lemma KeptStep(header: seq<string>, rows: seq<seq<string>>, i: nat, tc: string)
    requires i < |rows|
    ensures KeptTimes(header, rows[..i + 1], tc) ==
      KeptTimes(header, rows[..i], tc) + (if Kept(header, rows[i], tc) then [TimeOf(header, rows[i], tc).value] else [])
    ensures forall c ::
      Column(header, rows[..i + 1], tc, c) ==
      Column(header, rows[..i], tc, c) + (if Kept(header, rows[i], tc) then [SignalOf(header, rows[i], c)] else [])
  {
    assert rows[..i + 1][..i] == rows[..i];
  }

  method LoadCsvTimeseries(records: seq<seq<string>>, tc: string)
    returns (times: seq<real>, signals: map<string, seq<Option<real>>>)
    ensures times == CsvTimes(records, tc)
    ensures records == [] ==> signals == map[]
    ensures forall c :: c in signals <==> c in ListSignalsFromCsv(records, tc)
    ensures records != [] && Distinct(records[0]) ==>
              forall c :: c in signals ==> signals[c] == Column(records[0], records[1..], tc, c) && |signals[c]| == |times|
  {
    times := [];
    signals := map[];
    if records == [] {
      return;
    }
    var header := records[0];
    var others := OtherCols(header, tc);
    for k := 0 to |others|
      invariant forall c :: c in signals <==> c in others[..k]
      invariant forall c :: c in signals ==> signals[c] == []
    {
      signals := signals[others[k] := []];
      assert others[..k + 1] == others[..k] + [others[k]];
    }
    assert others[..|others|] == others;
    var rows := records[1..];
    for i := 0 to |rows|
      invariant times == KeptTimes(header, rows[..i], tc)
      invariant forall c :: c in signals <==> c in others
      invariant Distinct(header) ==> forall c :: c in signals ==> signals[c] == Column(header, rows[..i], tc, c)
    {
      var row := rows[i];
      var t := TimeOf(header, row, tc);
      KeptStep(header, rows, i, tc);
      if row != [] && t.Some? {
        times := times + [t.value];
        signals := AppendSignals(signals, header, row, others);
      }
    }
    assert rows[..|rows|] == rows;
    if Distinct(header) {
      forall c | c in signals
        ensures |signals[c]| == |times|
      {
        ColumnLength(header, rows, tc, c);
      }
    }
  }

  // ---------------------------------------------------------------------
  // Dispatch by suffix
  // ---------------------------------------------------------------------

  datatype Format = Csv | Parquet

  /** The reader for a path: ".csv" or ".parquet"/".pq", ignoring case;
      ValueError for any other suffix. */
  function FormatOf(p: Path): (r: Result<Format>)
    ensures r.Err? ==> r.error == ValueError
  {
    var s := Lower(Suffix(p.name));
    if s == ".csv" then Ok(Csv)
    else if s in {".parquet", ".pq"} then Ok(Parquet)
    else Err(ValueError)
  }

  /** The dispatch looks only at the extension, whatever its case. */
  lemma FormatOfNamed(dir: string, base: string, ext: string)
    requires base != [] && IsExtension(ext)
    ensures Lower(ext) == ".csv" ==> FormatOf(Path(dir, base + ext)) == Ok(Csv)
    ensures Lower(ext) in {".parquet", ".pq"} ==> FormatOf(Path(dir, base + ext)) == Ok(Parquet)
    ensures Lower(ext) !in {".csv", ".parquet", ".pq"} ==> FormatOf(Path(dir, base + ext)) == Err(ValueError)
  {
    ExtensionSplit(base, ext);
  }

  /** Upper-case extensions dispatch like lower-case ones. */
  lemma FormatOfUpperCase(dir: string, base: string)
    requires base != []
    ensures FormatOf(Path(dir, base + ".CSV")) == Ok(Csv)
    ensures FormatOf(Path(dir, base + ".PQ")) == Ok(Parquet)
  {
    assert Lower(".CSV") == ".csv";
    assert Lower(".PQ") == ".pq";
    FormatOfNamed(dir, base, ".CSV");
    FormatOfNamed(dir, base, ".PQ");
  }

  /** A name without a dot has no suffix and is rejected. */
  lemma NoSuffixRejected(p: Path)
    requires '.' !in p.name
    ensures FormatOf(p) == Err(ValueError)
  {
    assert LastDot(p.name) == -1;
  }

  /** A series as the readers return it. */
  datatype Series = Series(times: seq<real>, signals: map<string, seq<Option<real>>>)

  /** load_timeseries: a CSV file is read by LoadCsvTimeseries, a Parquet
      file gives what the Parquet reader gives (parquet), any other suffix
      raises ValueError. */
  method LoadTimeseries(p: Path, records: seq<seq<string>>, parquet: Result<Series>, tc: string) returns (r: Result<Series>)
    ensures FormatOf(p).Err? ==> r == Err(ValueError)
    ensures FormatOf(p) == Ok(Parquet) ==> r == parquet
    ensures FormatOf(p) == Ok(Csv) ==>
              && r.Ok? && r.value.times == CsvTimes(records, tc)
              && (forall c :: c in r.value.signals <==> c in ListSignalsFromCsv(records, tc))
    ensures FormatOf(p) == Ok(Csv) && records != [] && Distinct(records[0]) ==>
              forall c :: c in r.value.signals ==>
                r.value.signals[c] == Column(records[0], records[1..], tc, c) && |r.value.signals[c]| == |r.value.times|
  {
    var format :- FormatOf(p);
    if format == Csv {
      var times, signals := LoadCsvTimeseries(records, tc);
      return Ok(Series(times, signals));
    }
    return parquet;
  }

  /** list_signals: the same dispatch; for a CSV file, the signal names
      are the keys load_timeseries returns for it. */
  function ListSignals(p: Path, records: seq<seq<string>>, parquetSignals: Result<seq<string>>, tc: string): (r: Result<seq<string>>)
    ensures FormatOf(p).Err? ==> r == Err(ValueError)
    ensures FormatOf(p) == Ok(Csv) ==> r == Ok(ListSignalsFromCsv(records, tc))
    ensures FormatOf(p) == Ok(Parquet) ==> r == parquetSignals
  {
    match FormatOf(p)
    case Err(e) => Err(e)
    case Ok(Csv) => Ok(ListSignalsFromCsv(records, tc))
    case Ok(Parquet) => parquetSignals
  }

  // ---------------------------------------------------------------------
  // Reading back what the exporter writes
  // ---------------------------------------------------------------------

  /** The time column the readers use when none is given. */
  const DefaultTimeColumn: string := "time"

  /** The records csv.reader yields for a file export_csv wrote: the
      header, then each record with a number written as fmt gives it and a
      missing field as "". */
  function Written(content: Exporter.CsvContent<real>, fmt: real -> string): seq<seq<string>>
  {
    match content
    case Empty => []
    case Table(header, recs) =>
      [header] + seq(|recs|, i requires 0 <= i < |recs| =>
                       seq(|recs[i]|, j requires 0 <= j < |recs[i]| =>
                             if recs[i][j].Some? then fmt(recs[i][j].value) else ""))
  }

  /** fmt writes each of the times so that float() reads it back. */
  predicate RoundTrips(fmt: real -> string, times: seq<real>)
  {
    forall i :: 0 <= i < |times| ==> ParseDecimal(fmt(times[i])) == Some(times[i])
  }

  /** The exporter's snapshots: distinct names, none of them "t" or
      "time", one x (and y) per time. */
  ghost predicate PlainHistories(times: seq<real>, xHistory: seq<Dict<real>>, yHistory: Option<seq<Dict<real>>>)
  {
    && Exporter.Aligned(times, xHistory, yHistory)
    && (forall i :: 0 <= i < |times| ==> Unique(xHistory[i]) && !HasKey(xHistory[i], "t") && !HasKey(xHistory[i], "time"))
    && (yHistory.Some? ==> forall i :: 0 <= i < |times| ==>
          Unique(yHistory.value[i]) && !HasKey(yHistory.value[i], "t") && !HasKey(yHistory.value[i], "time"))
  }

  /** The header the exporter writes starts with its "t" column, which
      occurs once, and has no "time" column. */
  lemma ExportedHeader(times: seq<real>, xHistory: seq<Dict<real>>, yHistory: Option<seq<Dict<real>>>)
    requires PlainHistories(times, xHistory, yHistory) && times != []
    ensures var header := Exporter.SimulationTable(times, xHistory, yHistory).header;
            |header| > 0 && header[0] == "t" && "t" !in header[1..] && DefaultTimeColumn !in header
  {
    var row := Exporter.Row(times[0], xHistory[0], Exporter.YAt(yHistory, 0));
    var header := Keys(row);
    Exporter.RowKeys(times[0], xHistory[0], Exporter.YAt(yHistory, 0));
    assert !HasKey(row, DefaultTimeColumn);
    forall k | 0 <= k < |header|
      ensures header[k] != DefaultTimeColumn && (k > 0 ==> header[k] != "t")
    {
      assert header[k] == row[k].0 && header[0] == row[0].0;
    }
    assert forall k :: 0 <= k < |header[1..]| ==> header[1..][k] == header[k + 1];
  }

  /** As written: reading an exported file with the default time column
      finds no "time" column, so every record is dropped, however many
      instants were exported. */
  lemma DefaultColumnDropsExportedRows(times: seq<real>, xHistory: seq<Dict<real>>, yHistory: Option<seq<Dict<real>>>,
                                       fmt: real -> string)
    requires PlainHistories(times, xHistory, yHistory) && times != []
    ensures CsvTimes(Written(Exporter.SimulationTable(times, xHistory, yHistory), fmt), DefaultTimeColumn) == []
  {
    var table := Exporter.SimulationTable(times, xHistory, yHistory);
    var records := Written(table, fmt);
    ExportedHeader(times, xHistory, yHistory);
    assert records[0] == table.header;
    KeptTimesWithoutColumn(records[0], records[1..], DefaultTimeColumn);
  }

  /** Corrected: reading an exported file with the exporter's own time
      column gives back exactly the exported times. */
  lemma ExportColumnRecoversTimes(times: seq<real>, xHistory: seq<Dict<real>>, yHistory: Option<seq<Dict<real>>>,
                                  fmt: real -> string)
    requires PlainHistories(times, xHistory, yHistory) && times != []
    requires RoundTrips(fmt, times)
    ensures CsvTimes(Written(Exporter.SimulationTable(times, xHistory, yHistory), fmt), "t") == times
  {
    var table := Exporter.SimulationTable(times, xHistory, yHistory);
    var header := table.header;
    var records := Written(table, fmt);
    ExportedHeader(times, xHistory, yHistory);
    assert records[0] == header;
    forall m | 1 <= m < |header|
      ensures header[m] != "t"
    {
      assert header[m] == header[1..][m - 1];
    }
    assert LastIndex(header, "t") == 0;
    forall i | 0 <= i < |times|
      ensures records[1..][i] != [] && TimeOf(header, records[1..][i], "t") == Some(times[i])
    {
      var row := Exporter.Row(times[i], xHistory[i], Exporter.YAt(yHistory, i));
      Exporter.RowValues(times[i], xHistory[i], Exporter.YAt(yHistory, i));
      assert table.records[i][0] == Get(row, "t") == Some(times[i]);
      assert records[1..][i][0] == fmt(times[i]);
    }
    KeptTimesAll(header, records[1..], "t", times);
  }

  /** The dashboard's read of an exported run with the exporter's time
      column (the call the app makes, with the column corrected). */
  method LoadExportedRun(p: Path, records: seq<seq<string>>, parquet: Result<Series>) returns (r: Result<Series>)
    ensures FormatOf(p).Err? ==> r == Err(ValueError)
    ensures FormatOf(p) == Ok(Parquet) ==> r == parquet
    ensures FormatOf(p) == Ok(Csv) ==> r.Ok? && r.value.times == CsvTimes(records, "t")
    ensures FormatOf(p) == Ok(Csv) && records != [] && Distinct(records[0]) ==>
              forall c :: c in r.value.signals ==>
                r.value.signals[c] == Column(records[0], records[1..], "t", c) && |r.value.signals[c]| == |r.value.times|
  {
    r := LoadTimeseries(p, records, parquet, "t");
  }
}
