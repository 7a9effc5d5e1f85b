// Shared vocabulary of the simulator model: Python's exceptions as a Result,
// Python values and insertion-ordered dicts, float() conversion, and the two
// key tuples of src/vscsim/model/variables.py.

module Common {

  datatype Option<T> = None | Some(value: T)

  /** The exceptions the modelled code raises. Messages are not modelled. */
  datatype Error =
    | KeyError(key: string)
    | ValueError
    | TypeError
    | AttributeError
    | ZeroDivisionError
    | FileExistsError
    | FileNotFoundError

  /** A computation that returns a value or raises; supports `:-`. */
  datatype Result<T> = Ok(value: T) | Err(error: Error)
  {
    predicate IsFailure() { Err? }

    function PropagateFailure<U>(): Result<U>
      requires Err?
    {
      Err(error)
    }

    function Extract(): T
      requires Ok?
    {
      value
    }
  }

  /** STATE_KEYS: the dynamic states, in matrix column order. */
  const StateKeys: seq<string> := ["id", "iq", "Vdc"]

  /** ALGEBRAIC_KEYS: the algebraic unknowns, in matrix row and column order. */
  const AlgebraicKeys: seq<string> := ["Idc", "P_ac", "Q_ac"]

  /** A matrix as a list of rows. */
  type Matrix = seq<seq<real>>

  predicate Is3x3(m: Matrix)
  {
    |m| == 3 && forall i :: 0 <= i < 3 ==> |m[i]| == 3
  }

  function Abs(v: real): (r: real)
    ensures r >= 0.0 && (r == v || r == -v)
  {
    if v < 0.0 then -v else v
  }

  /** `m[k]`: the value, or KeyError. */
  function Lookup<V>(m: map<string, V>, k: string): (r: Result<V>)
    ensures r.Ok? <==> k in m
    ensures r.Ok? ==> r.value == m[k]
    ensures r.Err? ==> r.error == KeyError(k)
  {
    if k in m then Ok(m[k]) else Err(KeyError(k))
  }

  /** Every key of ks is present in m. */
  predicate HasKeys(m: map<string, real>, ks: seq<string>)
  {
    forall k :: k in ks ==> k in m
  }

  /** A sequence of dict subscriptions `m[k]`, in the order the code performs them. */
  type Reads = seq<(map<string, real>, string)>

  predicate AllPresent(rs: Reads)
  {
    forall i :: 0 <= i < |rs| ==> rs[i].1 in rs[i].0
  }

  /** The key of the first subscription that raises KeyError. */
  function FirstMissing(rs: Reads): (k: string)
    requires !AllPresent(rs)
    ensures exists i :: 0 <= i < |rs| && rs[i].1 == k && k !in rs[i].0
                        && AllPresent(rs[..i])
  {
    if rs[0].1 !in rs[0].0 then
      assert AllPresent(rs[..0]);
      rs[0].1
    else
      var k := FirstMissing(rs[1..]);
      var i :| 0 <= i < |rs[1..]| && rs[1..][i].1 == k && k !in rs[1..][i].0
               && AllPresent(rs[1..][..i]);
      assert rs[..i + 1] == [rs[0]] + rs[1..][..i];
      k
  }

  /** `m.get(k, d)` on a dict of floats. */
  function GetOr(m: map<string, real>, k: string, d: real): real
  {
    if k in m then m[k] else d
  }

  /** `m.get(k, d)` on a dict of Python values. */
  function ValueOr(m: map<string, Value>, k: string, d: Value): (r: Value)
    ensures k in m ==> r == m[k]
    ensures k !in m ==> r == d
  {
    if k in m then m[k] else d
  }

  /** `a / b` on Python floats: ZeroDivisionError when b is zero. */
  function Div(a: real, b: real): (r: Result<real>)
    ensures r.Ok? <==> b != 0.0
    ensures r.Ok? ==> r.value * b == a && r.value == a / b
    ensures r.Err? ==> r.error == ZeroDivisionError
  {
    if b == 0.0 then Err(ZeroDivisionError) else Ok(a / b)
  }

  /** y with d[i] added to the algebraic unknown in position i. */
  function ShiftY(y: map<string, real>, d: seq<real>): (r: map<string, real>)
    requires |d| == 3 && HasKeys(y, AlgebraicKeys)
    ensures r.Keys == y.Keys
    ensures forall i :: 0 <= i < 3 ==> r[AlgebraicKeys[i]] == y[AlgebraicKeys[i]] + d[i]
    ensures forall k :: k in y && k !in AlgebraicKeys ==> r[k] == y[k]
  {
    y["Idc" := y["Idc"] + d[0]]["P_ac" := y["P_ac"] + d[1]]["Q_ac" := y["Q_ac"] + d[2]]
  }

  // ---------------------------------------------------------------------
  // Python values and insertion-ordered dicts
  // ---------------------------------------------------------------------

  /** A value of a JSON-like configuration: None, bool, number, str, list or dict. */
  datatype Value =
    | VNone
    | VBool(b: bool)
    | VNum(x: real)
    | VStr(s: string)
    | VList(items: seq<Value>)
    | VDict(entries: seq<(string, Value)>)

  /** A Python dict: its entries in insertion order. */
  type Dict<V> = seq<(string, V)>

  function Keys<V>(d: Dict<V>): (ks: seq<string>)
    ensures |ks| == |d|
    ensures forall i :: 0 <= i < |d| ==> ks[i] == d[i].0
  {
    if d == [] then [] else Keys(d[..|d| - 1]) + [d[|d| - 1].0]
  }

  /** Keys are pairwise distinct, as in every Python dict. */
  ghost predicate Unique<V>(d: Dict<V>)
  {
    forall i, j :: 0 <= i < j < |d| ==> d[i].0 != d[j].0
  }

  predicate HasKey<V>(d: Dict<V>, k: string)
  {
    exists i :: 0 <= i < |d| && d[i].0 == k
  }

  /** Position of the entry with key k, or |d| when there is none. */
  function IndexOf<V>(d: Dict<V>, k: string): (i: nat)
    ensures i <= |d|
    ensures forall j :: 0 <= j < i ==> d[j].0 != k
    ensures i < |d| ==> d[i].0 == k
    ensures i < |d| <==> HasKey(d, k)
  {
    if d == [] then 0
    else if d[0].0 == k then 0
    else 1 + IndexOf(d[1..], k)
  }

  /** `d.get(k)`: the value stored under k, if any. */
  function Get<V>(d: Dict<V>, k: string): (r: Option<V>)
    ensures r.Some? <==> HasKey(d, k)
  {
    var i := IndexOf(d, k);
    if i < |d| then Some(d[i].1) else None
  }

  /** `d[k] = v`: an existing key keeps its position, a new key goes last. */
  function Put<V>(d: Dict<V>, k: string, v: V): (r: Dict<V>)
    ensures Get(r, k) == Some(v)
    ensures forall j :: j != k ==> Get(r, j) == Get(d, j)
    ensures HasKey(d, k) ==> Keys(r) == Keys(d)
    ensures !HasKey(d, k) ==> Keys(r) == Keys(d) + [k]
  {
    var i := IndexOf(d, k);
    var r := if i < |d| then d[i := (k, v)] else d + [(k, v)];
    PutFacts(d, k, v, i, r);
    r
  }

  /** What storing (k, v) at the search position i does to the dict. */
  lemma PutFacts<V>(d: Dict<V>, k: string, v: V, i: nat, r: Dict<V>)
    requires i == IndexOf(d, k)
    requires r == if i < |d| then d[i := (k, v)] else d + [(k, v)]
    ensures Get(r, k) == Some(v)
    ensures forall j :: j != k ==> Get(r, j) == Get(d, j)
    ensures HasKey(d, k) ==> Keys(r) == Keys(d)
    ensures !HasKey(d, k) ==> Keys(r) == Keys(d) + [k]
  {
    assert forall m :: 0 <= m < |d| ==> r[m].0 == d[m].0;
    IndexOfIs(r, k, i);
    forall j | j != k
      ensures Get(r, j) == Get(d, j)
    {
      PutOther(d, k, v, i, r, j);
    }
    if HasKey(d, k) {
      assert Keys(r) == Keys(d);
    } else {
      assert Keys(r) == Keys(d) + [k];
    }
  }

  lemma PutOther<V>(d: Dict<V>, k: string, v: V, i: nat, r: Dict<V>, j: string)
    requires i == IndexOf(d, k) && j != k
    requires r == if i < |d| then d[i := (k, v)] else d + [(k, v)]
    ensures Get(r, j) == Get(d, j)
  {
    var b := IndexOf(d, j);
    assert forall m :: 0 <= m < |d| ==> r[m].0 == d[m].0;
    if b < |d| {
      IndexOfIs(r, j, b);
      assert r[b] == d[b];
    } else {
      IndexOfIs(r, j, |r|);
    }
  }

  /** The first position holding key k is the one the search returns. */
  lemma IndexOfIs<V>(d: Dict<V>, k: string, i: nat)
    requires i <= |d|
    requires forall j :: 0 <= j < i ==> d[j].0 != k
    requires i < |d| ==> d[i].0 == k
    ensures IndexOf(d, k) == i
  {
  }

  lemma {:induction false} PutUnique<V>(d: Dict<V>, k: string, v: V)
    requires Unique(d)
    ensures Unique(Put(d, k, v))
  {
    var r := Put(d, k, v);
    forall a, b | 0 <= a < b < |r| ensures r[a].0 != r[b].0 {
      if b == |d| {
        assert !HasKey(d, k);
        assert r[a].0 == d[a].0;
      } else {
        assert r[a].0 == d[a].0 && r[b].0 == d[b].0;
      }
    }
  }

  /** In a dict with distinct keys, looking up the key of entry i finds entry i. */
  lemma GetAt<V>(d: Dict<V>, i: nat)
    requires Unique(d) && i < |d|
    ensures HasKey(d, d[i].0)
    ensures Get(d, d[i].0) == Some(d[i].1)
  {
    IndexOfIs(d, d[i].0, i);
  }

  /** A key is present exactly when it is among the listed keys. */
  lemma HasKeyIffInKeys<V>(d: Dict<V>, k: string)
    ensures HasKey(d, k) <==> k in Keys(d)
  {
    if k in Keys(d) {
      var i :| 0 <= i < |Keys(d)| && Keys(d)[i] == k;
      assert d[i].0 == k;
    }
  }

  /** The dict as a map from key to value. */
  function ToMap<V>(d: Dict<V>): (m: map<string, V>)
    ensures forall k :: k in m <==> HasKey(d, k)
    ensures forall k :: k in m ==> Get(d, k) == Some(m[k])
  {
    map k | k in Keys(d) :: Get(d, k).value
  }

  /** Python truthiness of a configuration value. */
  predicate Truthy(v: Value)
  {
    match v
    case VNone => false
    case VBool(b) => b
    case VNum(x) => x != 0.0
    case VStr(s) => s != ""
    case VList(items) => items != []
    case VDict(entries) => entries != []
  }

  // ---------------------------------------------------------------------
  // Python's float() on configuration values and CSV cells
  // ---------------------------------------------------------------------

  predicate IsDigit(c: char) { '0' <= c <= '9' }

  predicate AllDigits(s: string) { forall i :: 0 <= i < |s| ==> IsDigit(s[i]) }

  function DigitsValue(s: string): (n: nat)
    requires AllDigits(s)
  {
    if s == [] then 0
    else DigitsValue(s[..|s| - 1]) * 10 + (s[|s| - 1] as int - '0' as int)
  }

  function Pow10(n: nat): (p: nat)
    ensures p >= 1
  {
    if n == 0 then 1 else 10 * Pow10(n - 1)
  }

  /** Position of the first '.' in s, or |s| when there is none. */
  function DotIndex(s: string): (i: nat)
    ensures i <= |s|
    ensures forall j :: 0 <= j < i ==> s[j] != '.'
    ensures i < |s| ==> s[i] == '.'
  {
    if s == [] then 0
    else if s[0] == '.' then 0
    else 1 + DotIndex(s[1..])
  }

  /** An unsigned decimal numeral: digits, optionally with one '.', at least one digit. */
  function ParseUnsigned(s: string): (r: Option<real>)
    ensures r.Some? ==> r.value >= 0.0
    ensures AllDigits(s) && s != [] ==> r == Some(DigitsValue(s) as real)
  {
    var i := DotIndex(s);
    if i == |s| then
      if s != [] && AllDigits(s) then Some(DigitsValue(s) as real) else None
    else
      var whole, frac := s[..i], s[i + 1..];
      if AllDigits(whole) && AllDigits(frac) && |whole| + |frac| > 0 then
        Some(DigitsValue(whole) as real + DigitsValue(frac) as real / Pow10(|frac|) as real)
      else None
  }

  /** float(s) for a str: an optionally signed decimal numeral, or nothing. */
  function ParseDecimal(s: string): (r: Option<real>)
    ensures s == [] ==> r == None
    ensures AllDigits(s) && s != [] ==> r == Some(DigitsValue(s) as real)
  {
    if s != [] && s[0] == '-' then
      match ParseUnsigned(s[1..])
      case Some(v) => Some(-v)
      case None => None
    else if s != [] && s[0] == '+' then ParseUnsigned(s[1..])
    else ParseUnsigned(s)
  }

  /** float(v): numbers and bools convert, a str is parsed (ValueError when it
      is not a numeral), None, lists and dicts raise TypeError. */
  function ToFloat(v: Value): (r: Result<real>)
    ensures v.VNum? ==> r == Ok(v.x)
    ensures (v.VNone? || v.VList? || v.VDict?) ==> r == Err(TypeError)
    ensures v.VStr? && r.Err? ==> r.error == ValueError
  {
    match v
    case VNum(x) => Ok(x)
    case VBool(b) => Ok(if b then 1.0 else 0.0)
    case VStr(s) =>
      (match ParseDecimal(s)
       case Some(x) => Ok(x)
       case None => Err(ValueError))
    case _ => Err(TypeError)
  }

  // ---------------------------------------------------------------------
  // dict.update
  // ---------------------------------------------------------------------

  /** d after `d[k] = v` for every entry of src, in order. */
  function PutAll<V>(d: Dict<V>, src: Dict<V>): Dict<V>
    decreases |src|
  {
    if src == [] then d
    else Put(PutAll(d, src[..|src| - 1]), src[|src| - 1].0, src[|src| - 1].1)
  }

  /** After the updates, a key of src holds src's value and any other key
      keeps d's; the keys of d stay first, in their order. */
  lemma {:induction false} PutAllFacts<V>(d: Dict<V>, src: Dict<V>)
    requires Unique(src)
    ensures forall k :: HasKey(src, k) ==> Get(PutAll(d, src), k) == Get(src, k)
    ensures forall k :: !HasKey(src, k) ==> Get(PutAll(d, src), k) == Get(d, k)
    decreases |src|
  {
    if src != [] {
      var init := src[..|src| - 1];
      var (k, v) := src[|src| - 1];
      PutAllFacts(d, init);
      var before := PutAll(d, init);
      forall j | HasKey(src, j)
        ensures Get(PutAll(d, src), j) == Get(src, j)
      {
        GetAt(src, |src| - 1);
        if j != k {
          var i := IndexOf(src, j);
          assert i < |init| && init[i].0 == j;
          GetAt(src, i);
          GetAt(init, i);
        }
      }
      forall j | !HasKey(src, j)
        ensures Get(PutAll(d, src), j) == Get(d, j)
      {
        assert j != k;
        assert forall m :: 0 <= m < |init| ==> init[m] == src[m];
      }
    }
  }

  /** PutAll keeps the keys distinct. */
  lemma {:induction false} PutAllUnique<V>(d: Dict<V>, src: Dict<V>)
    requires Unique(d)
    ensures Unique(PutAll(d, src))
    decreases |src|
  {
    if src != [] {
      PutAllUnique(d, src[..|src| - 1]);
      PutUnique(PutAll(d, src[..|src| - 1]), src[|src| - 1].0, src[|src| - 1].1);
    }
  }

  /** A name is present after the updates exactly when it was in d or in src. */
  lemma PutAllHasKey<V>(d: Dict<V>, src: Dict<V>, k: string)
    requires Unique(src)
    ensures HasKey(PutAll(d, src), k) <==> HasKey(d, k) || HasKey(src, k)
  {
    PutAllFacts(d, src);
    assert Get(PutAll(d, src), k).Some? <==> HasKey(PutAll(d, src), k);
    assert Get(d, k).Some? <==> HasKey(d, k);
  }

  /** The keys of d stay first, in their order. */
  lemma {:induction false} PutAllKeysPrefix<V>(d: Dict<V>, src: Dict<V>)
    ensures |Keys(d)| <= |Keys(PutAll(d, src))| && Keys(PutAll(d, src))[..|Keys(d)|] == Keys(d)
    decreases |src|
  {
    if src != [] {
      PutAllKeysPrefix(d, src[..|src| - 1]);
    }
  }

  // ---------------------------------------------------------------------
  // Strings
  // ---------------------------------------------------------------------

  function LowerChar(c: char): char
  {
    if 'A' <= c <= 'Z' then (c as int - 'A' as int + 'a' as int) as char else c
  }

  /** str.lower() on ASCII letters. */
  function Lower(s: string): (r: string)
    ensures |r| == |s|
    ensures forall i :: 0 <= i < |s| ==> r[i] == LowerChar(s[i])
  {
    if s == [] then [] else [LowerChar(s[0])] + Lower(s[1..])
  }
}
