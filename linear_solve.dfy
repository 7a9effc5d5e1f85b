// Dense Gaussian elimination with partial pivoting, the algebraic step of
// Newton-Raphson (_solve_linear_system in src/vscsim/solver/nr.py).

module LinearSolve {
  import opened Common

  /** a is an n x n matrix. */
  predicate IsSquare(a: Matrix, n: nat)
  {
    |a| == n && forall i :: 0 <= i < n ==> |a[i]| == n
  }

  /** The sum of u[j] * x[j] for lo <= j < hi. */
  function DotRange(u: seq<real>, x: seq<real>, lo: nat, hi: nat): real
    requires lo <= hi <= |u| && hi <= |x|
    decreases hi - lo
  {
    if lo == hi then 0.0 else DotRange(u, x, lo, hi - 1) + u[hi - 1] * x[hi - 1]
  }

  /** Row u times column x. */
  function Dot(u: seq<real>, x: seq<real>): real
    requires |u| <= |x|
  {
    DotRange(u, x, 0, |u|)
  }

  /** x solves m x = c: every equation holds. */
  ghost predicate Solves(m: Matrix, x: seq<real>, c: seq<real>)
  {
    |c| == |m| && forall i :: 0 <= i < |m| ==> |m[i]| == |x| && Dot(m[i], x) == c[i]
  }

  function Zeros(n: nat): (z: seq<real>)
    ensures |z| == n && forall i :: 0 <= i < n ==> z[i] == 0.0
  {
    seq(n, _ => 0.0)
  }

  /** a has a non-zero kernel vector, so a x = b has no unique solution. */
  ghost predicate Singular(a: Matrix)
  {
    exists z :: |z| == |a| && z != Zeros(|a|) && Solves(a, z, Zeros(|a|))
  }

  /** s with the entries at i and j exchanged. */
  function Swap<T>(s: seq<T>, i: nat, j: nat): (r: seq<T>)
    requires i < |s| && j < |s|
    ensures |r| == |s| && r[i] == s[j] && r[j] == s[i]
    ensures forall m :: 0 <= m < |s| && m != i && m != j ==> r[m] == s[m]
  {
    s[i := s[j]][j := s[i]]
  }

  // ---------------------------------------------------------------------
  // Facts about DotRange
  // ---------------------------------------------------------------------

  /** A row of length 3 times a vector, written out. */
  lemma Dot3(u: seq<real>, x: seq<real>)
    requires |u| == 3 && |x| == 3
    ensures Dot(u, x) == u[0] * x[0] + u[1] * x[1] + u[2] * x[2]
  {
    assert DotRange(u, x, 0, 1) == u[0] * x[0];
  }

  lemma {:induction false} DotRangeSplit(u: seq<real>, x: seq<real>, lo: nat, mid: nat, hi: nat)
    requires lo <= mid <= hi <= |u| && hi <= |x|
    ensures DotRange(u, x, lo, hi) == DotRange(u, x, lo, mid) + DotRange(u, x, mid, hi)
    decreases hi - mid
  {
    if mid < hi {
      DotRangeSplit(u, x, lo, mid, hi - 1);
    }
  }

  /** A range whose every term has a zero factor sums to zero. */
  lemma {:induction false} DotRangeZero(u: seq<real>, x: seq<real>, lo: nat, hi: nat)
    requires lo <= hi <= |u| && hi <= |x|
    requires forall j :: lo <= j < hi ==> u[j] == 0.0 || x[j] == 0.0
    ensures DotRange(u, x, lo, hi) == 0.0
    decreases hi - lo
  {
    if lo < hi {
      DotRangeZero(u, x, lo, hi - 1);
    }
  }

  /** Only the entries of x inside the range matter. */
  lemma {:induction false} DotRangeAgree(u: seq<real>, x: seq<real>, y: seq<real>, lo: nat, hi: nat)
    requires lo <= hi <= |u| && hi <= |x| && hi <= |y|
    requires forall j :: lo <= j < hi ==> x[j] == y[j]
    ensures DotRange(u, x, lo, hi) == DotRange(u, y, lo, hi)
    decreases hi - lo
  {
    if lo < hi {
      DotRangeAgree(u, x, y, lo, hi - 1);
    }
  }

  /** DotRange is linear in the row. */
  lemma {:induction false} DotRangeLinear(u: seq<real>, a: seq<real>, b: seq<real>, f: real,
                                          x: seq<real>, lo: nat, hi: nat)
    requires lo <= hi <= |u| && hi <= |a| && hi <= |b| && hi <= |x|
    requires forall j :: lo <= j < hi ==> u[j] == a[j] - f * b[j]
    ensures DotRange(u, x, lo, hi) == DotRange(a, x, lo, hi) - f * DotRange(b, x, lo, hi)
    decreases hi - lo
  {
    if lo < hi {
      DotRangeLinear(u, a, b, f, x, lo, hi - 1);
      var j := hi - 1;
      assert u[j] * x[j] == a[j] * x[j] - f * (b[j] * x[j]);
      assert f * DotRange(b, x, lo, hi) == f * DotRange(b, x, lo, j) + f * (b[j] * x[j]);
    }
  }

  // ---------------------------------------------------------------------
  // Row operations keep the solution set
  // ---------------------------------------------------------------------

  /** Exchanging two equations changes no solution. */
  lemma SwapPreserves(m: Matrix, c: seq<real>, k: nat, p: nat, x: seq<real>)
    requires k < |m| && p < |m| && |c| == |m|
    ensures Solves(m, x, c) <==> Solves(Swap(m, k, p), x, Swap(c, k, p))
  {
    var m2, c2 := Swap(m, k, p), Swap(c, k, p);
    if Solves(m, x, c) {
      forall i | 0 <= i < |m2| ensures |m2[i]| == |x| && Dot(m2[i], x) == c2[i] {
        if i == k {
          assert m2[i] == m[p] && c2[i] == c[p];
        } else if i == p {
          assert m2[i] == m[k] && c2[i] == c[k];
        } else {
          assert m2[i] == m[i] && c2[i] == c[i];
        }
      }
    }
    if Solves(m2, x, c2) {
      forall i | 0 <= i < |m| ensures |m[i]| == |x| && Dot(m[i], x) == c[i] {
        if i == k {
          assert m[i] == m2[p] && c[i] == c2[p];
        } else if i == p {
          assert m[i] == m2[k] && c[i] == c2[k];
        } else {
          assert m[i] == m2[i] && c[i] == c2[i];
        }
      }
    }
  }

  /** Subtracting f times equation k from equation i (i != k) changes no solution. */
  lemma ElimPreserves(m: Matrix, c: seq<real>, k: nat, i: nat, f: real, row: seq<real>, x: seq<real>)
    requires k < |m| && i < |m| && i != k && |c| == |m|
    requires |row| == |m[i]| == |m[k]|
    requires forall j :: 0 <= j < |row| ==> row[j] == m[i][j] - f * m[k][j]
    ensures Solves(m, x, c) <==> Solves(m[i := row], x, c[i := c[i] - f * c[k]])
  {
    var m2, c2 := m[i := row], c[i := c[i] - f * c[k]];
    if |row| <= |x| {
      DotRangeLinear(row, m[i], m[k], f, x, 0, |row|);
    }
    if Solves(m, x, c) {
      forall r | 0 <= r < |m2| ensures |m2[r]| == |x| && Dot(m2[r], x) == c2[r] {
        if r != i {
          assert m2[r] == m[r];
        }
      }
    }
    if Solves(m2, x, c2) {
      assert m2[k] == m[k] && c2[k] == c[k];
      assert Dot(m[k], x) == c[k];
      assert m2[i] == row && Dot(row, x) == c[i] - f * c[k];
      forall r | 0 <= r < |m| ensures |m[r]| == |x| && Dot(m[r], x) == c[r] {
        if r != i {
          assert m2[r] == m[r];
        }
      }
    }
  }

  // ---------------------------------------------------------------------
  // The elimination
  // ---------------------------------------------------------------------

  /** max(range(k, n), key=|m[i][k]|): the first row at or below k whose entry
      in column k has the largest magnitude. */
  method FindPivot(m: Matrix, n: nat, k: nat) returns (p: nat)
    requires IsSquare(m, n) && k < n
    ensures k <= p < n
    ensures forall r :: k <= r < n ==> Abs(m[r][k]) <= Abs(m[p][k])
    ensures forall r :: k <= r < p ==> Abs(m[r][k]) < Abs(m[p][k])
  {
    p := k;
    var i := k + 1;
    while i < n
      invariant k <= p < i <= n
      invariant forall r :: k <= r < i ==> Abs(m[r][k]) <= Abs(m[p][k])
      invariant forall r :: k <= r < p ==> Abs(m[r][k]) < Abs(m[p][k])
    {
      if Abs(m[i][k]) > Abs(m[p][k]) {
        p := i;
      }
      i := i + 1;
    }
  }

  /** The inner loop `for j in range(k, n): M[i][j] -= factor * M[k][j]`. */
  method SubtractRow(row: seq<real>, pivot: seq<real>, f: real, k: nat, n: nat) returns (r: seq<real>)
    requires |row| == n && |pivot| == n && k <= n
    ensures |r| == n
    ensures forall j :: 0 <= j < k ==> r[j] == row[j]
    ensures forall j :: k <= j < n ==> r[j] == row[j] - f * pivot[j]
  {
    r := row;
    var j := k;
    while j < n
      invariant k <= j <= n && |r| == n
      invariant forall t :: 0 <= t < k ==> r[t] == row[t]
      invariant forall t :: k <= t < j ==> r[t] == row[t] - f * pivot[t]
      invariant forall t :: j <= t < n ==> r[t] == row[t]
    {
      r := r[j := r[j] - f * pivot[j]];
      j := j + 1;
    }
  }

  /** The elimination loop of step k: every row i below k loses factor times
      row k, factor = M[i][k] / M[k][k], and rhs follows. */
  method EliminateColumn(m: Matrix, rhs: seq<real>, n: nat, k: nat) returns (m2: Matrix, rhs2: seq<real>)
    requires IsSquare(m, n) && |rhs| == n && k < n && m[k][k] != 0.0
    requires forall i, j :: 0 <= j < k && j < i < n ==> m[i][j] == 0.0
    ensures IsSquare(m2, n) && |rhs2| == n
    ensures forall i :: 0 <= i <= k ==> m2[i] == m[i]
    ensures forall i, j :: 0 <= j <= k && j < i < n ==> m2[i][j] == 0.0
    ensures forall x :: Solves(m, x, rhs) <==> Solves(m2, x, rhs2)
    ensures forall x :: Solves(m, x, Zeros(n)) <==> Solves(m2, x, Zeros(n))
  {
    m2, rhs2 := m, rhs;
    var i := k + 1;
    while i < n
      invariant k + 1 <= i <= n && IsSquare(m2, n) && |rhs2| == n
      invariant forall r :: 0 <= r <= k ==> m2[r] == m[r]
      invariant forall r, j :: 0 <= j < k && j < r < n ==> m2[r][j] == 0.0
      invariant forall r :: k < r < i ==> m2[r][k] == 0.0
      invariant forall x :: Solves(m, x, rhs) <==> Solves(m2, x, rhs2)
      invariant forall x :: Solves(m, x, Zeros(n)) <==> Solves(m2, x, Zeros(n))
    {
      var factor := m2[i][k] / m2[k][k];
      var row := SubtractRow(m2[i], m2[k], factor, k, n);
      assert forall j :: 0 <= j < n ==> row[j] == m2[i][j] - factor * m2[k][j];
      assert row[k] == 0.0;
      forall x ensures Solves(m2, x, rhs2) <==> Solves(m2[i := row], x, rhs2[i := rhs2[i] - factor * rhs2[k]]) {
        ElimPreserves(m2, rhs2, k, i, factor, row, x);
      }
      forall x ensures Solves(m2, x, Zeros(n)) <==> Solves(m2[i := row], x, Zeros(n)[i := 0.0 - factor * 0.0]) {
        ElimPreserves(m2, Zeros(n), k, i, factor, row, x);
      }
      assert Zeros(n)[i := 0.0 - factor * 0.0] == Zeros(n);
      rhs2 := rhs2[i := rhs2[i] - factor * rhs2[k]];
      m2 := m2[i := row];
      i := i + 1;
    }
  }

  /** When column k has no non-zero entry at or below the diagonal, a non-zero
      vector solves m z = 0: z[k] = 1, zeros after k, back-substitution before. */
  lemma KernelVector(m: Matrix, n: nat, k: nat) returns (z: seq<real>)
    requires IsSquare(m, n) && k < n
    requires forall i, j :: 0 <= j < k && j < i < n ==> m[i][j] == 0.0
    requires forall i :: 0 <= i < k ==> m[i][i] != 0.0
    requires forall i :: k <= i < n ==> m[i][k] == 0.0
    ensures |z| == n && z[k] == 1.0 && Solves(m, z, Zeros(n))
  {
    z := Zeros(n)[k := 1.0];
    var i := k;
    while i > 0
      invariant 0 <= i <= k && |z| == n && z[k] == 1.0
      invariant forall j :: k < j < n ==> z[j] == 0.0
      invariant forall r :: i <= r < k ==> DotRange(m[r], z, r, n) == 0.0
    {
      i := i - 1;
      var s := -DotRange(m[i], z, i + 1, n);
      var z2 := z[i := s / m[i][i]];
      forall r | i < r < k ensures DotRange(m[r], z2, r, n) == 0.0 {
        DotRangeAgree(m[r], z, z2, r, n);
      }
      DotRangeAgree(m[i], z, z2, i + 1, n);
      DotRangeSplit(m[i], z2, i, i + 1, n);
      assert DotRange(m[i], z2, i, i + 1) == m[i][i] * (s / m[i][i]);
      z := z2;
    }
    forall r | 0 <= r < n ensures Dot(m[r], z) == 0.0 {
      if r < k {
        DotRangeZero(m[r], z, 0, r);
        DotRangeSplit(m[r], z, 0, r, n);
      } else {
        DotRangeZero(m[r], z, 0, n);
      }
    }
  }

  /** An upper-triangular matrix with a non-zero diagonal is not singular:
      m z = 0 forces z = 0, entry by entry from the last row up. */
  lemma {:induction false} TriangularKernelTrivial(m: Matrix, n: nat, z: seq<real>)
    requires IsSquare(m, n) && |z| == n
    requires forall i, j :: 0 <= j < i < n ==> m[i][j] == 0.0
    requires forall i :: 0 <= i < n ==> m[i][i] != 0.0
    requires Solves(m, z, Zeros(n))
    ensures z == Zeros(n)
  {
    var i := n;
    while i > 0
      invariant 0 <= i <= n
      invariant forall j :: i <= j < n ==> z[j] == 0.0
    {
      i := i - 1;
      DotRangeZero(m[i], z, 0, i);
      DotRangeZero(m[i], z, i + 1, n);
      DotRangeSplit(m[i], z, 0, i, n);
      DotRangeSplit(m[i], z, i, i + 1, n);
      assert DotRange(m[i], z, i, i + 1) == m[i][i] * z[i];
      assert m[i][i] * z[i] == 0.0;
    }
  }

  /** Back-substitution on an upper-triangular system with a non-zero diagonal. */
  method BackSubstitute(m: Matrix, c: seq<real>, n: nat) returns (x: seq<real>)
    requires IsSquare(m, n) && |c| == n
    requires forall i, j :: 0 <= j < i < n ==> m[i][j] == 0.0
    requires forall i :: 0 <= i < n ==> m[i][i] != 0.0
    ensures |x| == n && Solves(m, x, c)
  {
    x := Zeros(n);
    var i := n;
    while i > 0
      invariant 0 <= i <= n && |x| == n
      invariant forall r :: i <= r < n ==> DotRange(m[r], x, r, n) == c[r]
    {
      i := i - 1;
      var s := c[i];
      var j := i + 1;
      while j < n
        invariant i + 1 <= j <= n
        invariant s == c[i] - DotRange(m[i], x, i + 1, j)
      {
        s := s - m[i][j] * x[j];
        j := j + 1;
      }
      var x2 := x[i := s / m[i][i]];
      forall r | i < r < n ensures DotRange(m[r], x2, r, n) == c[r] {
        DotRangeAgree(m[r], x, x2, r, n);
      }
      DotRangeAgree(m[i], x, x2, i + 1, n);
      DotRangeSplit(m[i], x2, i, i + 1, n);
      assert DotRange(m[i], x2, i, i + 1) == m[i][i] * (s / m[i][i]);
      x := x2;
    }
    forall r | 0 <= r < n ensures Dot(m[r], x) == c[r] {
      DotRangeZero(m[r], x, 0, r);
      DotRangeSplit(m[r], x, 0, r, n);
    }
  }

  /** _solve_linear_system(A, b): on success x has length n and A x = b; a zero
      pivot raises ValueError, which happens exactly when A is singular.  A and b are values, so
      the caller's lists are untouched. */
  method SolveLinearSystem(a: Matrix, b: seq<real>) returns (r: Result<seq<real>>)
    requires IsSquare(a, |b|)
    ensures r.Ok? ==> |r.value| == |b| && Solves(a, r.value, b)
    ensures r.Err? ==> r.error == ValueError && Singular(a)
    ensures Singular(a) ==> r.Err?
  {
    var n := |b|;
    var m := a;
    var rhs := b;
    var k := 0;
    while k < n
      invariant 0 <= k <= n && IsSquare(m, n) && |rhs| == n
      invariant forall i, j :: 0 <= j < k && j < i < n ==> m[i][j] == 0.0
      invariant forall i :: 0 <= i < k ==> m[i][i] != 0.0
      invariant forall x :: Solves(a, x, b) <==> Solves(m, x, rhs)
      invariant forall x :: Solves(a, x, Zeros(n)) <==> Solves(m, x, Zeros(n))
    {
      var p := FindPivot(m, n, k);
      if Abs(m[p][k]) == 0.0 {
        var z := KernelVector(m, n, k);
        assert z[k] != Zeros(n)[k];
        return Err(ValueError);
      }
      if p != k {
        forall x ensures Solves(m, x, rhs) <==> Solves(Swap(m, k, p), x, Swap(rhs, k, p)) {
          SwapPreserves(m, rhs, k, p, x);
        }
        forall x ensures Solves(m, x, Zeros(n)) <==> Solves(Swap(m, k, p), x, Swap(Zeros(n), k, p)) {
          SwapPreserves(m, Zeros(n), k, p, x);
        }
        assert Swap(Zeros(n), k, p) == Zeros(n);
        m, rhs := Swap(m, k, p), Swap(rhs, k, p);
      }
      m, rhs := EliminateColumn(m, rhs, n, k);
      k := k + 1;
    }
    forall z | |z| == n && Solves(a, z, Zeros(n)) ensures z == Zeros(n) {
      TriangularKernelTrivial(m, n, z);
    }
    var x := BackSubstitute(m, rhs, n);
    return Ok(x);
  }
}
