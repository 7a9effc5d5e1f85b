// Helpers of the advanced example scripts (examples/advanced/*.py): turning a
// history into per-step snapshots for the exporter, reading one signal back
// out of a history, the series of time steps, the configuration copies each
// case runs with, the P_ref override, and the current magnitude plotted by
// the current-limit case.

module AdvancedExamples {
  import opened Common
  import Saturation

  // ---------------------------------------------------------------------
  // Column cells: `v[i] if i < len(v) else None`
  // ---------------------------------------------------------------------

  /** The decimal text of n, as a KeyError shows an integer key. */
  function Decimal(n: nat): (s: string)
    ensures s != [] && AllDigits(s) && DigitsValue(s) == n
  {
    var d := [(('0' as int) + n % 10) as char];
    if n < 10 then d
    else
      var prefix := Decimal(n / 10);
      assert (prefix + d)[..|prefix + d| - 1] == prefix;
      prefix + d
  }

  /** `v[i] if i < len(v) else None` for one column v: a list gives its entry,
      a str its i-th character, a dict raises KeyError on the integer key, and
      None, bools and numbers have no len() and raise TypeError. */
  function Cell(v: Value, i: nat): Result<Value>
  {
    match v
    case VList(items) => Ok(if i < |items| then items[i] else VNone)
    case VStr(s) => Ok(if i < |s| then VStr([s[i]]) else VNone)
    case VDict(es) => if i < |es| then Err(KeyError(Decimal(i))) else Ok(VNone)
    case _ => Err(TypeError)
  }

  /** A column that can be read at row 0 can be read at every row. */
  lemma CellOkAtZero(v: Value, i: nat)
    requires Cell(v, 0).Ok?
    ensures Cell(v, i).Ok?
  {
  }

  /** Row i of a dict of columns: `{k: (v[i] if i < len(v) else None) for k, v in d.items()}`. */
  function Snapshot(d: Dict<Value>, i: nat): (r: Result<Dict<Value>>)
    ensures r.Ok? <==> forall j :: 0 <= j < |d| ==> Cell(d[j].1, i).Ok?
    ensures r.Ok? ==>
      |r.value| == |d| &&
      forall j :: 0 <= j < |d| ==> r.value[j] == (d[j].0, Cell(d[j].1, i).value)
  {
    if d == [] then Ok([])
    else
      var c :- Cell(d[0].1, i);
      var rest :- Snapshot(d[1..], i);
      assert forall j :: 1 <= j < |d| ==> d[1..][j - 1] == d[j];
      Ok([(d[0].0, c)] + rest)
  }

  /** `[Snapshot(d, i) for i in range(n)]`: the first failing row raises. */
  function Expand(d: Dict<Value>, n: nat): (r: Result<seq<Dict<Value>>>)
    ensures r.Ok? ==> |r.value| == n && forall i :: 0 <= i < n ==> Snapshot(d, i) == Ok(r.value[i])
  {
    if n == 0 then Ok([])
    else
      var prev :- Expand(d, n - 1);
      var s :- Snapshot(d, n - 1);
      Ok(prev + [s])
  }

  /** Expanding fails exactly when the first row fails, and with its error:
      whether a dict of columns can be expanded depends only on its column types. */
  lemma {:induction false} ExpandFailsAtFirstRow(d: Dict<Value>, n: nat)
    requires n > 0
    ensures Expand(d, n).Err? <==> Snapshot(d, 0).Err?
    ensures Expand(d, n).Err? ==> Expand(d, n).error == Snapshot(d, 0).error
  {
    if n > 1 {
      ExpandFailsAtFirstRow(d, n - 1);
      if Snapshot(d, 0).Ok? {
        forall j | 0 <= j < |d| ensures Cell(d[j].1, n - 1).Ok? {
          CellOkAtZero(d[j].1, n - 1);
        }
      }
    }
  }

  /** Every column is a list. */
  ghost predicate ListColumns(d: Dict<Value>)
  {
    forall j :: 0 <= j < |d| ==> d[j].1.VList?
  }

  /** Entry i of a column, or None past its end. */
  function Padded(col: seq<Value>, i: nat): Value
  {
    if i < |col| then col[i] else VNone
  }

  /** A dict of lists always expands: n rows, each with every key in order,
      holding the column's entry or None where that column is shorter. */
  lemma ListColumnsExpand(d: Dict<Value>, n: nat)
    requires ListColumns(d)
    ensures Expand(d, n).Ok?
    ensures forall i, j :: 0 <= i < n && 0 <= j < |d| ==>
      Expand(d, n).value[i][j] == (d[j].0, Padded(d[j].1.items, i))
  {
    if n > 0 {
      ListColumnsRowZero(d);
      ExpandFailsAtFirstRow(d, n);
    }
  }

  /** n rows without entries. */
  function EmptyRows(n: nat): seq<Dict<Value>>
  {
    seq(n, i => [])
  }

  /** An empty dict expands to n empty rows. */
  lemma {:induction false} EmptyDictExpand(n: nat)
    ensures Expand([], n) == Ok(EmptyRows(n))
  {
    if n > 0 {
      EmptyDictExpand(n - 1);
      assert Snapshot([], n - 1) == Ok([]);
      assert Expand([], n) == Ok(EmptyRows(n - 1) + [[]]);
      assert EmptyRows(n - 1) + [[]] == EmptyRows(n);
    } else {
      assert EmptyRows(0) == [];
    }
  }

  /** Rows as the dict values of the converted history. */
  function AsValues(rows: seq<Dict<Value>>): (vs: seq<Value>)
    ensures |vs| == |rows| && forall i :: 0 <= i < |rows| ==> vs[i] == VDict(rows[i])
  {
    seq(|rows|, i requires 0 <= i < |rows| => VDict(rows[i]))
  }

  /** vs are the n rows of the dict of columns d. */
  ghost predicate RowsOf(d: Dict<Value>, n: nat, vs: seq<Value>)
  {
    |vs| == n && forall i :: 0 <= i < n ==> vs[i].VDict? && Snapshot(d, i) == Ok(vs[i].entries)
  }

  // ---------------------------------------------------------------------
  // normalize_history (export_utils.py)
  // ---------------------------------------------------------------------

  /** `_convert` of normalize_history: a list is kept, a dict is expanded to
      n rows, anything else raises TypeError. */
  function NormalizeOne(n: nat, h: Value): (r: Result<seq<Value>>)
    ensures h.VList? ==> r == Ok(h.items)
    ensures h.VDict? ==> (r.Ok? <==> Expand(h.entries, n).Ok?)
    ensures h.VDict? && r.Ok? ==> RowsOf(h.entries, n, r.value)
    ensures !h.VList? && !h.VDict? ==> r == Err(TypeError)
  {
    match h
    case VList(items) => Ok(items)
    case VDict(d) =>
      var rows :- Expand(d, n);
      Ok(AsValues(rows))
    case _ => Err(TypeError)
  }

  /** normalize_history(times, x_hist, y_hist): both histories converted,
      x first. */
  function NormalizeHistory(times: seq<real>, x: Value, y: Value): (r: Result<(seq<Value>, seq<Value>)>)
    ensures r.Ok? <==> NormalizeOne(|times|, x).Ok? && NormalizeOne(|times|, y).Ok?
    ensures r.Ok? ==> r.value == (NormalizeOne(|times|, x).value, NormalizeOne(|times|, y).value)
    ensures NormalizeOne(|times|, x).Err? ==> r == Err(NormalizeOne(|times|, x).error)
  {
    var xs :- NormalizeOne(|times|, x);
    var ys :- NormalizeOne(|times|, y);
    Ok((xs, ys))
  }

  // ---------------------------------------------------------------------
  // _history_to_snapshots (case_adaptive_dt.py, case_step_pref.py,
  // case_current_limit.py)
  // ---------------------------------------------------------------------

  /** `_convert` of _history_to_snapshots: a falsy history gives [], a list
      whose first element is a dict is copied, a dict is expanded to n rows,
      anything else raises TypeError. */
  function SnapshotsOne(n: nat, h: Value): (r: Result<seq<Value>>)
    ensures !Truthy(h) ==> r == Ok([])
    ensures Truthy(h) && h.VList? ==>
      r == if h.items[0].VDict? then Ok(h.items) else Err(TypeError)
    ensures Truthy(h) && h.VDict? ==> (r.Ok? <==> Expand(h.entries, n).Ok?)
    ensures Truthy(h) && h.VDict? && r.Ok? ==> RowsOf(h.entries, n, r.value)
    ensures !h.VList? && !h.VDict? ==> (r.Ok? <==> !Truthy(h))
    ensures r.Err? ==> Truthy(h)
  {
    if !Truthy(h) then Ok([])
    else if h.VList? && h.items[0].VDict? then Ok(h.items)
    else if h.VDict? then
      var rows :- Expand(h.entries, n);
      Ok(AsValues(rows))
    else Err(TypeError)
  }

  /** _history_to_snapshots(times, x_hist, y_hist). */
  function HistoryToSnapshots(times: seq<real>, x: Value, y: Value): (r: Result<(seq<Value>, seq<Value>)>)
    ensures r.Ok? <==> SnapshotsOne(|times|, x).Ok? && SnapshotsOne(|times|, y).Ok?
    ensures r.Ok? ==> r.value == (SnapshotsOne(|times|, x).value, SnapshotsOne(|times|, y).value)
    ensures SnapshotsOne(|times|, x).Err? ==> r == Err(SnapshotsOne(|times|, x).error)
  {
    var xs :- SnapshotsOne(|times|, x);
    var ys :- SnapshotsOne(|times|, y);
    Ok((xs, ys))
  }

  /** On the inputs both converters are written for — a non-empty list of
      dicts, or a non-empty dict of columns — they agree. */
  lemma ConvertersAgree(n: nat, h: Value)
    requires Truthy(h)
    requires h.VDict? || (h.VList? && h.items[0].VDict?)
    ensures SnapshotsOne(n, h) == NormalizeOne(n, h)
  {
  }

  /** They differ elsewhere: an empty dict gives n empty rows in one and no
      rows in the other, and a list of non-dicts is kept by one and rejected
      by the other. */
  lemma ConvertersDiffer(n: nat, items: seq<Value>)
    requires n > 0 && items != [] && !items[0].VDict?
    ensures NormalizeOne(n, VDict([])) == Ok(seq(n, i => VDict([])))
    ensures SnapshotsOne(n, VDict([])) == Ok([])
    ensures NormalizeOne(n, VList(items)) == Ok(items)
    ensures SnapshotsOne(n, VList(items)) == Err(TypeError)
  {
    EmptyDictExpand(n);
    assert AsValues(EmptyRows(n)) == seq(n, i => VDict([]));
  }

  // ---------------------------------------------------------------------
  // _extract_series (case_adaptive_dt.py, case_step_pref.py,
  // case_current_limit.py)
  // ---------------------------------------------------------------------

  /** `list(v)`: a list's items, a str's characters, a dict's keys; other
      values are not iterable and raise TypeError. */
  function ListOf(v: Value): (r: Result<seq<Value>>)
    ensures v.VList? ==> r == Ok(v.items)
    ensures v.VStr? ==> r.Ok? && |r.value| == |v.s|
    ensures v.VDict? ==> r.Ok? && |r.value| == |v.entries|
    ensures r.Err? <==> v.VNone? || v.VBool? || v.VNum?
  {
    match v
    case VList(items) => Ok(items)
    case VStr(s) => Ok(seq(|s|, i requires 0 <= i < |s| => VStr([s[i]])))
    case VDict(es) => Ok(seq(|es|, i requires 0 <= i < |es| => VStr(es[i].0)))
    case _ => Err(TypeError)
  }

  /** Every element is a dict. */
  predicate AllDicts(items: seq<Value>)
  {
    forall i :: 0 <= i < |items| ==> items[i].VDict?
  }

  /** `s.get(key)`. */
  function GetOrNone(d: Dict<Value>, key: string): Value
  {
    match Get(d, key)
    case Some(v) => v
    case None => VNone
  }

  /** _extract_series(hist, key): `[s.get(key) for s in hist]`, falling back
      on AttributeError to `list(hist.get(key, []))`. Iterating a non-empty
      dict or str yields strs, which have no get(); the fallback then works
      for a dict and raises AttributeError again for a list or a str.
      Iterating None, a bool or a number raises TypeError, which is not
      caught. */
  function ExtractSeries(hist: Value, key: string): (r: Result<seq<Value>>)
    ensures hist.VList? && AllDicts(hist.items) ==>
      r.Ok? && |r.value| == |hist.items| &&
      forall i :: 0 <= i < |hist.items| ==> r.value[i] == GetOrNone(hist.items[i].entries, key)
    ensures hist.VList? && !AllDicts(hist.items) ==> r == Err(AttributeError)
    ensures hist.VDict? && hist.entries != [] && !HasKey(hist.entries, key) ==> r == Ok([])
    ensures hist.VDict? && hist.entries != [] && HasKey(hist.entries, key) ==>
      r == ListOf(Get(hist.entries, key).value)
    ensures hist == VDict([]) || hist == VStr([]) ==> r == Ok([])
  {
    match hist
    case VList(items) =>
      if AllDicts(items) then Ok(seq(|items|, i requires 0 <= i < |items| => GetOrNone(items[i].entries, key)))
      else Err(AttributeError)
    case VDict(d) =>
      if d == [] then Ok([])
      else ListOf(match Get(d, key) case Some(v) => v case None => VList([]))
    case VStr(s) => if s == [] then Ok([]) else Err(AttributeError)
    case _ => Err(TypeError)
  }

  /** Dicts with the same keys in the same order find a key at the same place. */
  lemma {:induction false} SameKeysIndexOf<U, V>(a: Dict<U>, b: Dict<V>, k: string)
    requires |a| == |b| && forall j :: 0 <= j < |a| ==> a[j].0 == b[j].0
    ensures IndexOf(a, k) == IndexOf(b, k)
  {
    IndexOfIs(b, k, IndexOf(a, k));
  }

  /** A column cut or padded with None to n entries. */
  function PaddedTo(col: seq<Value>, n: nat): (r: seq<Value>)
    ensures |r| == n && forall i :: 0 <= i < n ==> r[i] == Padded(col, i)
  {
    seq(n, i requires 0 <= i < n => Padded(col, i))
  }

  /** Row i of a dict of lists holds, under each key, that column's entry i
      or None. */
  lemma RowGet(d: Dict<Value>, i: nat, key: string, col: seq<Value>, row: Dict<Value>)
    requires Get(d, key) == Some(VList(col))
    requires Snapshot(d, i) == Ok(row)
    ensures GetOrNone(row, key) == Padded(col, i)
  {
    var p := IndexOf(d, key);
    SameKeysIndexOf(row, d, key);
    assert row[p] == (d[p].0, Cell(d[p].1, i).value);
  }

  /** Round trip: expanding a dict of lists into rows and then extracting a
      key's series gives back that key's column, cut or padded with None to
      n rows. */
  lemma ExtractFromRows(d: Dict<Value>, n: nat, key: string, col: seq<Value>)
    requires ListColumns(d)
    requires Get(d, key) == Some(VList(col))
    ensures Expand(d, n).Ok?
    ensures ExtractSeries(VList(AsValues(Expand(d, n).value)), key) == Ok(PaddedTo(col, n))
  {
    ListColumnsRowZero(d);
    if n > 0 {
      ExpandFailsAtFirstRow(d, n);
    }
    var rows := Expand(d, n).value;
    var vs := AsValues(rows);
    assert AllDicts(vs);
    var e := ExtractSeries(VList(vs), key);
    assert e.Ok? && |e.value| == n;
    forall i | 0 <= i < n
      ensures e.value[i] == PaddedTo(col, n)[i]
    {
      assert e.value[i] == GetOrNone(rows[i], key);
      RowGet(d, i, key, col, rows[i]);
    }
    assert e.value == PaddedTo(col, n);
  }

  /** Row 0 of a dict of lists can be built. */
  lemma ListColumnsRowZero(d: Dict<Value>)
    requires ListColumns(d)
    ensures Snapshot(d, 0).Ok?
  {
    forall j | 0 <= j < |d| ensures Cell(d[j].1, 0).Ok? {
      assert d[j].1.VList?;
    }
  }

  /** Reading a column straight from a non-empty dict of lists gives the
      whole column. When every column already has n entries, this is the
      series the rows give too. */
  lemma ExtractFromColumns(d: Dict<Value>, n: nat, key: string, col: seq<Value>)
    requires ListColumns(d) && d != []
    requires Get(d, key) == Some(VList(col)) && |col| == n
    ensures ExtractSeries(VDict(d), key) == Ok(col)
    ensures Expand(d, n).Ok?
    ensures ExtractSeries(VList(AsValues(Expand(d, n).value)), key) == ExtractSeries(VDict(d), key)
  {
    ExtractFromRows(d, n, key, col);
    assert PaddedTo(col, n) == col;
  }

  // ---------------------------------------------------------------------
  // _compute_dt_series and the time shift of segment 2
  // ---------------------------------------------------------------------

  /** _compute_dt_series(times): the step between consecutive times. */
  function DtSeries(times: seq<real>): (r: seq<real>)
    ensures |times| < 2 ==> r == []
    ensures |times| >= 2 ==> |r| == |times| - 1
    ensures forall i :: 0 <= i < |r| ==> r[i] == times[i + 1] - times[i]
  {
    if |times| < 2 then []
    else seq(|times| - 1, i requires 0 <= i < |times| - 1 => times[i + 1] - times[i])
  }

  function Sum(s: seq<real>): real
  {
    if s == [] then 0.0 else Sum(s[..|s| - 1]) + s[|s| - 1]
  }

  /** The steps add up to the covered span: times[0] + sum(dt) == times[-1]. */
  lemma {:induction false} DtSeriesTelescopes(times: seq<real>)
    requires times != []
    ensures times[0] + Sum(DtSeries(times)) == times[|times| - 1]
  {
    var n := |times|;
    if n >= 2 {
      var prefix := times[..n - 1];
      DtSeriesTelescopes(prefix);
      var d := DtSeries(times);
      var dp := DtSeries(prefix);
      assert |d| == n - 1 && |dp| == n - 2;
      assert d[..n - 2] == dp by {
        forall i | 0 <= i < n - 2 ensures d[i] == dp[i] {
          assert prefix[i] == times[i] && prefix[i + 1] == times[i + 1];
        }
      }
      assert Sum(d) == Sum(dp) + d[n - 2];
      assert prefix[0] == times[0] && prefix[n - 2] == times[n - 2];
    }
  }

  /** Strictly increasing times give strictly positive steps, and back. */
  lemma DtSeriesPositive(times: seq<real>)
    ensures (forall i :: 0 <= i < |DtSeries(times)| ==> DtSeries(times)[i] > 0.0) <==>
            (forall i :: 0 <= i < |times| - 1 ==> times[i] < times[i + 1])
  {
    var d := DtSeries(times);
    assert forall i :: 0 <= i < |times| - 1 ==> d[i] == times[i + 1] - times[i];
  }

  /** `[t_step + t for t in times]`: the segment-2 times moved to follow segment 1. */
  function Shifted(tStep: real, times: seq<real>): (r: seq<real>)
    ensures |r| == |times|
    ensures forall i :: 0 <= i < |times| ==> r[i] - tStep == times[i]
  {
    seq(|times|, i requires 0 <= i < |times| => tStep + times[i])
  }

  /** Shifting moves no step: the dt series of segment 2 is the same before
      and after the display shift. */
  lemma ShiftKeepsSteps(tStep: real, times: seq<real>)
    ensures DtSeries(Shifted(tStep, times)) == DtSeries(times)
  {
  }

  /** t_end of the second segment: `max(t_end - t_step, 0.0)`. */
  function SecondSegmentEnd(tEnd: real, tStep: real): (r: real)
    ensures r >= 0.0 && r >= tEnd - tStep
    ensures r == 0.0 || r == tEnd - tStep
  {
    if tEnd - tStep > 0.0 then tEnd - tStep else 0.0
  }

  /** Segment 1 covers [0, t_step]; segment 2, shifted by t_step, ends at
      t_end when t_step <= t_end, and at t_step otherwise. */
  lemma SegmentsCoverHorizon(tEnd: real, tStep: real, times: seq<real>)
    requires forall i :: 0 <= i < |times| ==> 0.0 <= times[i] <= SecondSegmentEnd(tEnd, tStep)
    ensures tStep <= tEnd ==> tStep + SecondSegmentEnd(tEnd, tStep) == tEnd
    ensures tStep > tEnd ==> tStep + SecondSegmentEnd(tEnd, tStep) == tStep
    ensures forall i :: 0 <= i < |times| ==>
      tStep <= Shifted(tStep, times)[i] <= tStep + SecondSegmentEnd(tEnd, tStep)
  {
  }

  // ---------------------------------------------------------------------
  // _norm_i (case_current_limit.py)
  // ---------------------------------------------------------------------

  /** `x or 0.0` then squared: falsy values count as 0, True as 1, a
      non-empty str, list or dict cannot be squared (TypeError). */
  function OrZero(v: Value): (r: Result<real>)
    ensures !Truthy(v) ==> r == Ok(0.0)
    ensures v.VNum? ==> r == Ok(v.x)
    ensures r.Err? <==> Truthy(v) && (v.VStr? || v.VList? || v.VDict?)
  {
    if !Truthy(v) then Ok(0.0)
    else match v
      case VNum(x) => Ok(x)
      case VBool(_) => Ok(1.0)
      case _ => Err(TypeError)
  }

  /** The first m magnitudes, the first failing index raising. */
  function Magnitudes(id: seq<Value>, iq: seq<Value>, m: nat, sqrt: Saturation.Sqrt): (r: Result<seq<real>>)
    requires m <= |id| && m <= |iq|
    ensures r.Ok? <==> forall i :: 0 <= i < m ==> OrZero(id[i]).Ok? && OrZero(iq[i]).Ok?
    ensures r.Ok? ==>
      |r.value| == m &&
      forall i :: 0 <= i < m ==>
        r.value[i] == sqrt(Saturation.SquaredNorm(OrZero(id[i]).value, OrZero(iq[i]).value))
  {
    if m == 0 then Ok([])
    else
      var prev :- Magnitudes(id, iq, m - 1, sqrt);
      var a :- OrZero(id[m - 1]);
      var b :- OrZero(iq[m - 1]);
      Ok(prev + [sqrt(Saturation.SquaredNorm(a, b))])
  }

  lemma PositiveProduct(p: real, q: real)
    requires p > 0.0 && q > 0.0
    ensures p * q > 0.0
  {
  }

  lemma DifferenceOfSquares(m: real, x: real)
    ensures (m - x) * (m + x) == m * m - x * x
  {
  }

  lemma SquareOfAbs(a: real)
    ensures Abs(a) * Abs(a) == a * a && a * a >= 0.0
  {
    if a != 0.0 {
      PositiveProduct(Abs(a), Abs(a));
    }
  }

  /** Squaring is monotone on non-negative reals. */
  lemma SquareMonotone(x: real, m: real)
    requires x >= 0.0 && m >= 0.0 && x * x >= m * m
    ensures x >= m
  {
    if x < m {
      PositiveProduct(m - x, m + x);
      DifferenceOfSquares(m, x);
    }
  }

  /** A square root of a^2 + b^2 is at least |a|. */
  lemma NormDominates(x: real, a: real, b: real)
    requires x >= 0.0 && x * x == a * a + b * b
    ensures x >= Abs(a)
  {
    SquareOfAbs(a);
    SquareOfAbs(b);
    SquareMonotone(x, Abs(a));
  }

  /** x is the non-negative square root of a^2 + b^2, hence no smaller than
      either component. */
  predicate IsNorm(x: real, a: real, b: real)
  {
    x >= 0.0 && x * x == a * a + b * b && x >= Abs(a) && x >= Abs(b)
  }

  /** The non-negative root of a^2 + b^2 bounds both a and b. */
  lemma RootIsMagnitude(x: real, a: real, b: real)
    requires x >= 0.0 && x * x == Saturation.SquaredNorm(a, b)
    ensures IsNorm(x, a, b)
  {
    NormDominates(x, a, b);
    NormDominates(x, b, a);
  }

  /** x is the current magnitude of the samples u and w: both convert, and
      x is the norm of the converted pair. */
  ghost predicate IsMagnitude(x: real, u: Value, w: Value)
  {
    OrZero(u).Ok? && OrZero(w).Ok? && IsNorm(x, OrZero(u).value, OrZero(w).value)
  }

  /** A square root of a^2 + b^2 is the norm of (a, b). */
  lemma RootAt(sqrt: Saturation.Sqrt, a: real, b: real)
    requires Saturation.IsSqrt(sqrt)
    ensures IsNorm(sqrt(Saturation.SquaredNorm(a, b)), a, b)
  {
    var v := Saturation.SquaredNorm(a, b);
    assert Saturation.IsSqrtAt(sqrt, v);
    RootIsMagnitude(sqrt(v), a, b);
  }

  lemma MagnitudeAt(id: seq<Value>, iq: seq<Value>, m: nat, sqrt: Saturation.Sqrt, i: nat)
    requires m <= |id| && m <= |iq| && Saturation.IsSqrt(sqrt)
    requires Magnitudes(id, iq, m, sqrt).Ok? && i < m
    ensures IsMagnitude(Magnitudes(id, iq, m, sqrt).value[i], id[i], iq[i])
  {
    var a := OrZero(id[i]).value;
    var b := OrZero(iq[i]).value;
    RootAt(sqrt, a, b);
  }

  /** _norm_i(id_series, iq_series): [] when either is empty; otherwise one
      magnitude per index of the shorter series, None counting as 0. */
  function NormI(id: seq<Value>, iq: seq<Value>, sqrt: Saturation.Sqrt): (r: Result<seq<real>>)
    requires Saturation.IsSqrt(sqrt)
    ensures id == [] || iq == [] ==> r == Ok([])
    ensures r.Ok? && id != [] && iq != [] ==> |r.value| == if |id| < |iq| then |id| else |iq|
    ensures r.Ok? ==> forall i :: 0 <= i < |r.value| ==> IsMagnitude(r.value[i], id[i], iq[i])
    ensures ((forall i :: 0 <= i < |id| ==> id[i].VNum? || id[i].VNone?) &&
             (forall i :: 0 <= i < |iq| ==> iq[i].VNum? || iq[i].VNone?)) ==> r.Ok?
  {
    if id == [] || iq == [] then Ok([])
    else
      var m := if |id| < |iq| then |id| else |iq|;
      var r := Magnitudes(id, iq, m, sqrt);
      if r.Err? then r
      else
        assert forall i :: 0 <= i < m ==> IsMagnitude(r.value[i], id[i], iq[i]) by {
          forall i | 0 <= i < m ensures IsMagnitude(r.value[i], id[i], iq[i]) {
            MagnitudeAt(id, iq, m, sqrt, i);
          }
        }
        r
  }

  // ---------------------------------------------------------------------
  // Configuration dicts changed in place
  // ---------------------------------------------------------------------

  /** Looking up a key in a dict with one more entry in front. */
  lemma GetCons(x: (string, Value), rest: Dict<Value>, j: string)
    ensures Get([x] + rest, j) == if x.0 == j then Some(x.1) else Get(rest, j)
  {
    var r := [x] + rest;
    assert r[1..] == rest;
  }

  /** d after `d.pop(k, None)`. */
  function Without(d: Dict<Value>, k: string): (r: Dict<Value>)
    ensures !HasKey(r, k)
    ensures forall j :: j != k ==> Get(r, j) == Get(d, j)
    ensures !HasKey(d, k) ==> r == d
  {
    if d == [] then []
    else if d[0].0 == k then
      assert forall j :: j != k ==> Get(d, j) == Get(d[1..], j) by {
        forall j | j != k ensures Get(d, j) == Get(d[1..], j) {
          GetCons(d[0], d[1..], j);
          assert [d[0]] + d[1..] == d;
        }
      }
      Without(d[1..], k)
    else
      var rest := Without(d[1..], k);
      var r := [d[0]] + rest;
      assert forall j :: Get(r, j) == if d[0].0 == j then Some(d[0].1) else Get(rest, j) by {
        forall j ensures Get(r, j) == if d[0].0 == j then Some(d[0].1) else Get(rest, j) {
          GetCons(d[0], rest, j);
        }
      }
      r
  }

  /** The keys whose str values the examples drop before simulating. */
  const NrKeys: seq<string> := ["nr_norm", "nr_verbose"]

  /** The value under k is a str. */
  predicate IsStrAt(d: Dict<Value>, k: string)
  {
    Get(d, k).Some? && Get(d, k).value.VStr?
  }

  /** d after popping, for each key of ks in turn, that key when its value is a str. */
  function StripStrings(d: Dict<Value>, ks: seq<string>): Dict<Value>
  {
    if ks == [] then d
    else
      var prev := StripStrings(d, ks[..|ks| - 1]);
      var k := ks[|ks| - 1];
      if IsStrAt(prev, k) then Without(prev, k) else prev
  }

  /** Exactly the listed keys holding a str go; every other entry stays. */
  lemma {:induction false} StripStringsGet(d: Dict<Value>, ks: seq<string>, k: string)
    ensures Get(StripStrings(d, ks), k) == if k in ks && IsStrAt(d, k) then None else Get(d, k)
  {
    if ks != [] {
      var init := ks[..|ks| - 1];
      StripStringsGet(d, init, k);
      assert k in ks <==> k in init || k == ks[|ks| - 1];
    }
  }

  /** After the clean-up no listed key holds a str, so float() cannot fail on
      it for want of a numeral. */
  lemma NoStringLeft(d: Dict<Value>, k: string)
    requires k in NrKeys
    ensures !IsStrAt(StripStrings(d, NrKeys), k)
  {
    StripStringsGet(d, NrKeys, k);
  }

  /** The pair (params, scenario) after `_set_pref(params, scenario, p)`:
      params gets P_ref if it has the key, else scenario if it has it. */
  function WithPref(params: Dict<Value>, scenario: Dict<Value>, p: real): (r: (Dict<Value>, Dict<Value>))
    ensures Keys(r.0) == Keys(params) && Keys(r.1) == Keys(scenario)
    ensures HasKey(params, "P_ref") ==> Get(r.0, "P_ref") == Some(VNum(p)) && r.1 == scenario
    ensures !HasKey(params, "P_ref") ==> r.0 == params
    ensures !HasKey(params, "P_ref") && HasKey(scenario, "P_ref") ==> Get(r.1, "P_ref") == Some(VNum(p))
    ensures !HasKey(params, "P_ref") && !HasKey(scenario, "P_ref") ==> r.1 == scenario
    ensures forall k :: k != "P_ref" ==> Get(r.0, k) == Get(params, k) && Get(r.1, k) == Get(scenario, k)
  {
    if HasKey(params, "P_ref") then (Put(params, "P_ref", VNum(p)), scenario)
    else if HasKey(scenario, "P_ref") then (params, Put(scenario, "P_ref", VNum(p)))
    else (params, scenario)
  }

  /** A configuration dict owned by an example script. */
  class Config {
    var entries: Dict<Value>

    /** `dict(base)`: a new dict with the same entries. */
    constructor Copy(base: Dict<Value>)
      ensures entries == base
    {
      entries := base;
    }

    /** `cfg.pop(k, None)`. */
    method Pop(k: string)
      modifies this
      ensures entries == Without(old(entries), k)
    {
      entries := Without(entries, k);
    }

    /** `cfg[k] = v`. */
    method Set(k: string, v: Value)
      modifies this
      ensures entries == Put(old(entries), k, v)
    {
      entries := Put(entries, k, v);
    }
  }

  /** The NR clean-up loop for one dict: each of nr_norm and nr_verbose is
      popped when its value is a str. */
  method StripNrStrings(cfg: Config)
    modifies cfg
    ensures cfg.entries == StripStrings(old(cfg.entries), NrKeys)
  {
    for i := 0 to |NrKeys|
      invariant cfg.entries == StripStrings(old(cfg.entries), NrKeys[..i])
    {
      var k := NrKeys[i];
      assert NrKeys[..i + 1][..i] == NrKeys[..i];
      var v := Get(cfg.entries, k);
      if v.Some? && v.value.VStr? {
        cfg.Pop(k);
      }
    }
    assert NrKeys[..|NrKeys|] == NrKeys;
  }

  /** _set_pref(params, scenario, P_ref). When both arguments are one dict,
      only the params branch can fire. */
  method SetPref(params: Config, scenario: Config, pRef: real)
    modifies params, scenario
    ensures params != scenario ==>
      (params.entries, scenario.entries) == WithPref(old(params.entries), old(scenario.entries), pRef)
    ensures params == scenario ==>
      params.entries == WithPref(old(params.entries), old(params.entries), pRef).0
  {
    if HasKey(params.entries, "P_ref") {
      params.Set("P_ref", VNum(pRef));
    } else if HasKey(scenario.entries, "P_ref") {
      scenario.Set("P_ref", VNum(pRef));
    }
  }

  /** The configs run_case_adaptive_dt passes to its two runs: two cleaned
      copies of the params and one copy of the scenario; without an
      `adaptive` keyword on run_simulation the second params copy gets
      adaptive = True. The base dicts are not modified. */
  method AdaptiveDtConfigs(paramsBase: Dict<Value>, scenarioBase: Dict<Value>, hasAdaptiveKeyword: bool)
    returns (fixed: Config, adapt: Config, scenario: Config)
    ensures fresh(fixed) && fresh(adapt) && fresh(scenario)
    ensures fixed != adapt && fixed != scenario && adapt != scenario
    ensures fixed.entries == StripStrings(paramsBase, NrKeys)
    ensures adapt.entries ==
      if hasAdaptiveKeyword then StripStrings(paramsBase, NrKeys)
      else Put(StripStrings(paramsBase, NrKeys), "adaptive", VBool(true))
    ensures scenario.entries == scenarioBase
  {
    fixed := new Config.Copy(paramsBase);
    adapt := new Config.Copy(paramsBase);
    scenario := new Config.Copy(scenarioBase);
    StripNrStrings(fixed);
    StripNrStrings(adapt);
    if !hasAdaptiveKeyword {
      adapt.Set("adaptive", VBool(true));
    }
  }

  /** The configs of run_case_step_pref's two segments and their t_end:
      separate copies of params and scenario per segment, cleaned, P_ref set
      to P0 and P1; segment 1 runs to t_step, segment 2 to
      max(t_end - t_step, 0). */
  method StepPrefSegments(paramsBase: Dict<Value>, scenarioBase: Dict<Value>,
                          p0: real, p1: real, tStep: real, tEnd: real)
    returns (params1: Config, scenario1: Config, end1: real,
             params2: Config, scenario2: Config, end2: real)
    ensures fresh(params1) && fresh(scenario1) && fresh(params2) && fresh(scenario2)
    ensures params1 != params2 && scenario1 != scenario2
    ensures (params1.entries, scenario1.entries) == WithPref(StripStrings(paramsBase, NrKeys), scenarioBase, p0)
    ensures (params2.entries, scenario2.entries) == WithPref(StripStrings(paramsBase, NrKeys), scenarioBase, p1)
    ensures end1 == tStep && end2 == SecondSegmentEnd(tEnd, tStep)
  {
    params1 := new Config.Copy(paramsBase);
    scenario1 := new Config.Copy(scenarioBase);
    params2 := new Config.Copy(paramsBase);
    scenario2 := new Config.Copy(scenarioBase);
    StripNrStrings(params1);
    StripNrStrings(params2);
    SetPref(params1, scenario1, p0);
    end1 := tStep;
    SetPref(params2, scenario2, p1);
    end2 := if tEnd - tStep > 0.0 then tEnd - tStep else 0.0;
  }

  /** The configs of run_case_current_limit's nominal and high cases: the
      same construction with P_nominal and P_alto, each case on its own
      copies, so setting one case's P_ref leaves the other's untouched. */
  method CurrentLimitConfigs(paramsBase: Dict<Value>, scenarioBase: Dict<Value>, pNominal: real, pHigh: real)
    returns (paramsNom: Config, scenarioNom: Config, paramsHigh: Config, scenarioHigh: Config)
    ensures fresh(paramsNom) && fresh(scenarioNom) && fresh(paramsHigh) && fresh(scenarioHigh)
    ensures paramsNom != paramsHigh && scenarioNom != scenarioHigh
    ensures (paramsNom.entries, scenarioNom.entries) == WithPref(StripStrings(paramsBase, NrKeys), scenarioBase, pNominal)
    ensures (paramsHigh.entries, scenarioHigh.entries) == WithPref(StripStrings(paramsBase, NrKeys), scenarioBase, pHigh)
  {
    paramsNom := new Config.Copy(paramsBase);
    scenarioNom := new Config.Copy(scenarioBase);
    paramsHigh := new Config.Copy(paramsBase);
    scenarioHigh := new Config.Copy(scenarioBase);
    StripNrStrings(paramsNom);
    StripNrStrings(paramsHigh);
    SetPref(paramsNom, scenarioNom, pNominal);
    SetPref(paramsHigh, scenarioHigh, pHigh);
  }

  /** When either base dict has P_ref, the NR clean-up leaves it in place
      and the case's value lands in exactly one of the two dicts. */
  lemma PrefLandsOnce(params: Dict<Value>, scenario: Dict<Value>, p: real)
    requires HasKey(params, "P_ref") || HasKey(scenario, "P_ref")
    ensures var r := WithPref(StripStrings(params, NrKeys), scenario, p);
      HasKey(params, "P_ref") ==>
        Get(r.0, "P_ref") == Some(VNum(p)) && r.1 == scenario
    ensures var r := WithPref(StripStrings(params, NrKeys), scenario, p);
      !HasKey(params, "P_ref") ==>
        Get(r.1, "P_ref") == Some(VNum(p)) && r.0 == StripStrings(params, NrKeys)
  {
    StripStringsGet(params, NrKeys, "P_ref");
    assert "P_ref" !in NrKeys;
  }
}
