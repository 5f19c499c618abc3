/** Row-major layout of a fixed-shape matrix: cell (r, c) of an NR x NC
    matrix lives at flat index r * NC + c of a buffer of NR * NC cells. */
module Layout {

  /** Multiplication by a natural number is monotone. */
  lemma {:induction false} MulMonotone(a: nat, b: nat, n: nat)
    requires a <= b
    ensures a * n <= b * n
  {
    if a < b {
      MulMonotone(a, b - 1, n);
      assert (b - 1) * n + n == b * n;
    }
  }

  /** Every valid (r, c) maps inside the buffer. */
  lemma CellInBounds(r: nat, c: nat, nr: nat, nc: nat)
    requires r < nr && c < nc
    ensures r * nc + c < nr * nc
  {
    MulMonotone(r + 1, nr, nc);
    assert (r + 1) * nc == r * nc + nc;
  }

  /** Distinct cells have distinct flat indices. */
  lemma CellInjective(r1: nat, c1: nat, r2: nat, c2: nat, nc: nat)
    requires c1 < nc && c2 < nc
    requires r1 * nc + c1 == r2 * nc + c2
    ensures r1 == r2 && c1 == c2
  {
    assert (r1 + 1) * nc == r1 * nc + nc;
    assert (r2 + 1) * nc == r2 * nc + nc;
    if r1 < r2 {
      MulMonotone(r1 + 1, r2, nc);
    } else if r2 < r1 {
      MulMonotone(r2 + 1, r1, nc);
    }
  }

  /** The flat index of (r, c) divides back into row r and column c. */
  lemma CellOfIndex(r: nat, c: nat, nc: nat)
    requires c < nc
    ensures (r * nc + c) / nc == r && (r * nc + c) % nc == c
  {
    var k := r * nc + c;
    var q, m := k / nc, k % nc;
    assert q * nc + m == k;
    assert 0 <= q;
    CellInjective(q, m, r, c, nc);
  }

  /** Every flat index below NR * NC is the index of exactly one cell. */
  lemma IndexOfCell(k: nat, nr: nat, nc: nat)
    requires k < nr * nc
    ensures nc > 0
    ensures 0 <= k / nc < nr && 0 <= k % nc < nc
    ensures (k / nc) * nc + k % nc == k
  {
    assert nc == 0 ==> nr * nc == 0;
    var q, m := k / nc, k % nc;
    assert q * nc + m == k;
    if nr <= q {
      MulMonotone(nr, q, nc);
    }
  }
}
