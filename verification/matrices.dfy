/**
 * The 4x4 matrix library (vmlib/mat44.hpp) together with the small vector
 * types it works on.  Floats are modelled as reals; the transcendental and
 * otherwise unseen numeric routines the renderer calls are gathered in the
 * `Math` record, whose fields are uninterpreted functions.
 */
module Matrices {

  /** The exact value of std::numbers::pi_v<float>. */
  const Pi: real := 3.1415927410125732421875

  datatype Vec2 = Vec2(x: real, y: real)

  datatype Vec3 = Vec3(x: real, y: real, z: real)
  {
    function Add(o: Vec3): Vec3 { Vec3(x + o.x, y + o.y, z + o.z) }
    function Sub(o: Vec3): Vec3 { Vec3(x - o.x, y - o.y, z - o.z) }
    function Neg(): Vec3 { Vec3(-x, -y, -z) }
    function Scale(k: real): Vec3 { Vec3(k * x, k * y, k * z) }
  }

  /** Vec4f, indexed 0..3 like the source's operator[]. */
  type Vec4 = v: seq<real> | |v| == 4 witness [0.0, 0.0, 0.0, 0.0]

  /** Mat44f: the sixteen floats of the matrix in row-major order. */
  type Mat44 = m: seq<real> | |m| == 16
    witness [0.0, 0.0, 0.0, 0.0, 0.0, 0.0, 0.0, 0.0, 0.0, 0.0, 0.0, 0.0, 0.0, 0.0, 0.0, 0.0]

  /** Mat33f (vmlib/mat33.hpp is not part of this model): nine floats. */
  type Mat33 = m: seq<real> | |m| == 9 witness [0.0, 0.0, 0.0, 0.0, 0.0, 0.0, 0.0, 0.0, 0.0]

  /** The homogeneous point (p, 1). */
  function Point(p: Vec3): Vec4 { [p.x, p.y, p.z, 1.0] }

  /** The x, y, z part of a homogeneous vector. */
  function Xyz(v: Vec4): Vec3 { Vec3(v[0], v[1], v[2]) }

  /**
   * The numeric routines whose values the model does not compute: the
   * transcendental functions, `normalize`, `invert`, `mat44_to_mat33` and the
   * 3x3 matrix-vector product.  Callers state the few facts they rely on.
   */
  datatype Math = Math(
    sin: real -> real,
    cos: real -> real,
    tan: real -> real,
    atan2: (real, real) -> real,
    sqrt: real -> real,
    normalize: Vec3 -> Vec3,
    invert: Mat44 -> Mat44,
    toMat33: Mat44 -> Mat33,
    mul33: (Mat33, Vec3) -> Vec3)
  {
    /** sin 0 = 0 and cos 0 = 1. */
    predicate AtZero() { sin(0.0) == 0.0 && cos(0.0) == 1.0 }
  }

  // ---------------------------------------------------------------------
  // Element access

  /** Mat44f::operator(): element (i, j) of a row-major matrix. */
  function At(m: Mat44, i: nat, j: nat): real
    requires i < 4 && j < 4
  {
    m[i * 4 + j]
  }

  /** Every cell of the storage holds the element of one (row, column)... */
  lemma RowMajorLayout(m: Mat44, n: nat)
    requires n < 16
    ensures n / 4 < 4 && n % 4 < 4 && At(m, n / 4, n % 4) == m[n]
  {
  }

  /** ...and distinct (row, column) pairs live in distinct cells. */
  lemma RowMajorInjective(i: nat, j: nat, p: nat, q: nat)
    requires i < 4 && j < 4 && p < 4 && q < 4
    ensures i * 4 + j < 16
    ensures i * 4 + j == p * 4 + q <==> i == p && j == q
  {
  }

  lemma DivModOfRowMajor(i: nat, j: nat)
    requires i < 4 && j < 4
    ensures (i * 4 + j) / 4 == i && (i * 4 + j) % 4 == j
  {
  }

  /** kIdentity44f. */
  const Identity: Mat44 :=
    [1.0, 0.0, 0.0, 0.0,
     0.0, 1.0, 0.0, 0.0,
     0.0, 0.0, 1.0, 0.0,
     0.0, 0.0, 0.0, 1.0]

  /** The identity has ones on the diagonal and zeros elsewhere. */
  lemma IdentityAt(i: nat, j: nat)
    requires i < 4 && j < 4
    ensures At(Identity, i, j) == if i == j then 1.0 else 0.0
  {
  }

  // ---------------------------------------------------------------------
  // Products

  /** The first n terms of the dot product of row i of a with column j of b. */
  function Dot(a: Mat44, b: Mat44, i: nat, j: nat, n: nat): real
    requires i < 4 && j < 4 && n <= 4
  {
    if n == 0 then 0.0 else Dot(a, b, i, j, n - 1) + Term(a, b, i, j, n - 1)
  }

  /** Term k of the dot product of row i of a with column j of b. */
  function Term(a: Mat44, b: Mat44, i: nat, j: nat, k: nat): real
    requires i < 4 && j < 4 && k < 4
  {
    At(a, i, k) * At(b, k, j)
  }

  /** The four terms of a row-by-column sum, as products of entries. */
  lemma TermsAt(a: Mat44, b: Mat44, i: nat, j: nat)
    requires i < 4 && j < 4
    ensures Term(a, b, i, j, 0) == At(a, i, 0) * At(b, 0, j)
    ensures Term(a, b, i, j, 1) == At(a, i, 1) * At(b, 1, j)
    ensures Term(a, b, i, j, 2) == At(a, i, 2) * At(b, 2, j)
    ensures Term(a, b, i, j, 3) == At(a, i, 3) * At(b, 3, j)
  {
  }

  /** The sixteen terms behind row i of a product, as products of entries. */
  lemma TermsRow(a: Mat44, b: Mat44, i: nat)
    requires i < 4
    ensures Term(a, b, i, 0, 0) == At(a, i, 0) * At(b, 0, 0)
    ensures Term(a, b, i, 0, 1) == At(a, i, 1) * At(b, 1, 0)
    ensures Term(a, b, i, 0, 2) == At(a, i, 2) * At(b, 2, 0)
    ensures Term(a, b, i, 0, 3) == At(a, i, 3) * At(b, 3, 0)
    ensures Term(a, b, i, 1, 0) == At(a, i, 0) * At(b, 0, 1)
    ensures Term(a, b, i, 1, 1) == At(a, i, 1) * At(b, 1, 1)
    ensures Term(a, b, i, 1, 2) == At(a, i, 2) * At(b, 2, 1)
    ensures Term(a, b, i, 1, 3) == At(a, i, 3) * At(b, 3, 1)
    ensures Term(a, b, i, 2, 0) == At(a, i, 0) * At(b, 0, 2)
    ensures Term(a, b, i, 2, 1) == At(a, i, 1) * At(b, 1, 2)
    ensures Term(a, b, i, 2, 2) == At(a, i, 2) * At(b, 2, 2)
    ensures Term(a, b, i, 2, 3) == At(a, i, 3) * At(b, 3, 2)
    ensures Term(a, b, i, 3, 0) == At(a, i, 0) * At(b, 0, 3)
    ensures Term(a, b, i, 3, 1) == At(a, i, 1) * At(b, 1, 3)
    ensures Term(a, b, i, 3, 2) == At(a, i, 2) * At(b, 2, 3)
    ensures Term(a, b, i, 3, 3) == At(a, i, 3) * At(b, 3, 3)
  {
  }

  /** The row-by-column sum as its four terms. */
  lemma DotTerms(a: Mat44, b: Mat44, i: nat, j: nat)
    requires i < 4 && j < 4
    ensures Dot(a, b, i, j, 4) == Term(a, b, i, j, 0) + Term(a, b, i, j, 1) + Term(a, b, i, j, 2) + Term(a, b, i, j, 3)
  {
    assert Dot(a, b, i, j, 1) == Term(a, b, i, j, 0);
    assert Dot(a, b, i, j, 2) == Dot(a, b, i, j, 1) + Term(a, b, i, j, 1);
    assert Dot(a, b, i, j, 3) == Dot(a, b, i, j, 2) + Term(a, b, i, j, 2);
  }

  /** The full row-by-column sum, written out. */
  lemma DotExpanded(a: Mat44, b: Mat44, i: nat, j: nat)
    requires i < 4 && j < 4
    ensures Dot(a, b, i, j, 4) ==
      At(a, i, 0) * At(b, 0, j) + At(a, i, 1) * At(b, 1, j)
      + At(a, i, 2) * At(b, 2, j) + At(a, i, 3) * At(b, 3, j)
  {
    var t0, t1, t2, t3 := Term(a, b, i, j, 0), Term(a, b, i, j, 1), Term(a, b, i, j, 2), Term(a, b, i, j, 3);
    assert Dot(a, b, i, j, 4) == t0 + t1 + t2 + t3 by {
      assert Dot(a, b, i, j, 1) == t0;
      assert Dot(a, b, i, j, 2) == Dot(a, b, i, j, 1) + t1;
      assert Dot(a, b, i, j, 3) == Dot(a, b, i, j, 2) + t2;
    }
    TermsAt(a, b, i, j);
  }

  /** The matrix product, as a value. */
  function MatMul(a: Mat44, b: Mat44): Mat44
  {
    seq(16, n requires 0 <= n < 16 => Dot(a, b, n / 4, n % 4, 4))
  }

  lemma MatMulAt(a: Mat44, b: Mat44, i: nat, j: nat)
    requires i < 4 && j < 4
    ensures At(MatMul(a, b), i, j) == Dot(a, b, i, j, 4)
  {
    DivModOfRowMajor(i, j);
  }

  /** A matrix whose every element is the row-by-column sum is the product. */
  lemma MatMulByEntries(a: Mat44, b: Mat44, r: Mat44)
    requires forall i: nat, j: nat :: i < 4 && j < 4 ==> At(r, i, j) == Dot(a, b, i, j, 4)
    ensures r == MatMul(a, b)
  {
    forall n | 0 <= n < 16 ensures r[n] == MatMul(a, b)[n] {
      RowMajorLayout(r, n);
    }
  }

  /** operator*(Mat44f, Mat44f): the triple loop of the source. */
  method Mul(a: Mat44, b: Mat44) returns (r: Mat44)
    ensures forall i: nat, j: nat :: i < 4 && j < 4 ==> At(r, i, j) == Dot(a, b, i, j, 4)
    ensures r == MatMul(a, b)
  {
    var res := new real[16];
    for i := 0 to 4
      invariant forall p: nat, q: nat :: p < i && q < 4 ==> res[p * 4 + q] == Dot(a, b, p, q, 4)
    {
      for j := 0 to 4
        invariant forall p: nat, q: nat :: p < i && q < 4 ==> res[p * 4 + q] == Dot(a, b, p, q, 4)
        invariant forall q: nat :: q < j ==> res[i * 4 + q] == Dot(a, b, i, q, 4)
      {
        res[i * 4 + j] := 0.0;
        for k := 0 to 4
          invariant forall p: nat, q: nat :: p < i && q < 4 ==> res[p * 4 + q] == Dot(a, b, p, q, 4)
          invariant forall q: nat :: q < j ==> res[i * 4 + q] == Dot(a, b, i, q, 4)
          invariant res[i * 4 + j] == Dot(a, b, i, j, k)
        {
          res[i * 4 + j] := res[i * 4 + j] + At(a, i, k) * At(b, k, j);
        }
      }
    }
    r := res[..];
    MatMulByEntries(a, b, r);
  }

  /** The first n terms of the dot product of row i of m with v. */
  function DotVec(m: Mat44, v: Vec4, i: nat, n: nat): real
    requires i < 4 && n <= 4
  {
    if n == 0 then 0.0 else DotVec(m, v, i, n - 1) + At(m, i, n - 1) * v[n - 1]
  }

  lemma DotVecExpanded(m: Mat44, v: Vec4, i: nat)
    requires i < 4
    ensures DotVec(m, v, i, 4) ==
      At(m, i, 0) * v[0] + At(m, i, 1) * v[1] + At(m, i, 2) * v[2] + At(m, i, 3) * v[3]
  {
    assert DotVec(m, v, i, 1) == At(m, i, 0) * v[0];
    assert DotVec(m, v, i, 2) == DotVec(m, v, i, 1) + At(m, i, 1) * v[1];
    assert DotVec(m, v, i, 3) == DotVec(m, v, i, 2) + At(m, i, 2) * v[2];
  }

  /** The matrix-vector product, as a value. */
  function MatVec(m: Mat44, v: Vec4): Vec4
  {
    [DotVec(m, v, 0, 4), DotVec(m, v, 1, 4), DotVec(m, v, 2, 4), DotVec(m, v, 3, 4)]
  }

  /** operator*(Mat44f, Vec4f): the double loop of the source. */
  method MulVec(m: Mat44, v: Vec4) returns (r: Vec4)
    ensures forall i: nat :: i < 4 ==> r[i] == DotVec(m, v, i, 4)
    ensures r == MatVec(m, v)
  {
    var res := new real[4];
    for i := 0 to 4
      invariant forall p: nat :: p < i ==> res[p] == DotVec(m, v, p, 4)
    {
      res[i] := 0.0;
      for j := 0 to 4
        invariant forall p: nat :: p < i ==> res[p] == DotVec(m, v, p, 4)
        invariant res[i] == DotVec(m, v, i, j)
      {
        res[i] := res[i] + At(m, i, j) * v[j];
      }
    }
    r := res[..];
  }

  /** The product with every element written out as its four-term sum. */
  lemma MatMulFormula(a: Mat44, b: Mat44)
    ensures forall i: nat, j: nat :: i < 4 && j < 4 ==>
      (At(MatMul(a, b), i, j) ==
       At(a, i, 0) * At(b, 0, j) + At(a, i, 1) * At(b, 1, j)
       + At(a, i, 2) * At(b, 2, j) + At(a, i, 3) * At(b, 3, j))
  {
    forall i: nat, j: nat | i < 4 && j < 4
      ensures At(MatMul(a, b), i, j) ==
        At(a, i, 0) * At(b, 0, j) + At(a, i, 1) * At(b, 1, j)
        + At(a, i, 2) * At(b, 2, j) + At(a, i, 3) * At(b, 3, j)
    {
      MatMulAt(a, b, i, j);
      DotExpanded(a, b, i, j);
    }
  }

  /** The matrix-vector product with every component written out. */
  lemma MatVecFormula(m: Mat44, v: Vec4)
    ensures MatVec(m, v) == [
      m[0] * v[0] + m[1] * v[1] + m[2] * v[2] + m[3] * v[3],
      m[4] * v[0] + m[5] * v[1] + m[6] * v[2] + m[7] * v[3],
      m[8] * v[0] + m[9] * v[1] + m[10] * v[2] + m[11] * v[3],
      m[12] * v[0] + m[13] * v[1] + m[14] * v[2] + m[15] * v[3]]
  {
    DotVecExpanded(m, v, 0);
    DotVecExpanded(m, v, 1);
    DotVecExpanded(m, v, 2);
    DotVecExpanded(m, v, 3);
    var r := MatVec(m, v);
    assert r[0] == m[0] * v[0] + m[1] * v[1] + m[2] * v[2] + m[3] * v[3];
    assert r[1] == m[4] * v[0] + m[5] * v[1] + m[6] * v[2] + m[7] * v[3];
    assert r[2] == m[8] * v[0] + m[9] * v[1] + m[10] * v[2] + m[11] * v[3];
    assert r[3] == m[12] * v[0] + m[13] * v[1] + m[14] * v[2] + m[15] * v[3];
  }

  /** transpose: the element swap of the source's double loop, as a value. */
  function Transposed(m: Mat44): Mat44
  {
    seq(16, n requires 0 <= n < 16 => m[(n % 4) * 4 + n / 4])
  }

  method Transpose(m: Mat44) returns (r: Mat44)
    ensures forall i: nat, j: nat :: i < 4 && j < 4 ==> At(r, j, i) == At(m, i, j)
    ensures r == Transposed(m)
  {
    var ret := new real[16];
    for i := 0 to 4
      invariant forall p: nat, q: nat :: p < i && q < 4 ==> ret[q * 4 + p] == At(m, p, q)
    {
      for j := 0 to 4
        invariant forall p: nat, q: nat :: p < i && q < 4 ==> ret[q * 4 + p] == At(m, p, q)
        invariant forall q: nat :: q < j ==> ret[q * 4 + i] == At(m, i, q)
      {
        ret[j * 4 + i] := At(m, i, j);
      }
    }
    r := ret[..];
    forall n | 0 <= n < 16 ensures r[n] == Transposed(m)[n] {
      var p, q := n % 4, n / 4;
      assert q * 4 + p == n;
      assert ret[q * 4 + p] == At(m, p, q);
    }
  }

  lemma TransposedAt(m: Mat44, i: nat, j: nat)
    requires i < 4 && j < 4
    ensures At(Transposed(m), j, i) == At(m, i, j)
  {
    DivModOfRowMajor(j, i);
  }

  /** Transposing twice gives back the matrix. */
  lemma TransposeInvolutive(m: Mat44)
    ensures Transposed(Transposed(m)) == m
  {
    forall n | 0 <= n < 16 ensures Transposed(Transposed(m))[n] == m[n] {
      RowMajorLayout(m, n);
      TransposedAt(m, n / 4, n % 4);
      TransposedAt(Transposed(m), n % 4, n / 4);
      DivModOfRowMajor(n / 4, n % 4);
    }
  }

  // ---------------------------------------------------------------------
  // Equality of matrices

  lemma Cells(m: Mat44)
    ensures m == [m[0], m[1], m[2], m[3], m[4], m[5], m[6], m[7], m[8], m[9], m[10], m[11], m[12], m[13], m[14], m[15]]
  {
  }

  lemma Components(v: Vec4)
    ensures v == [v[0], v[1], v[2], v[3]]
  {
  }

  /** Two matrices that agree in every one of the sixteen cells are equal. */
  lemma EqualByCells(r: Mat44, s: Mat44)
    requires r[0] == s[0] && r[1] == s[1] && r[2] == s[2] && r[3] == s[3] && r[4] == s[4] && r[5] == s[5] && r[6] == s[6] && r[7] == s[7] && r[8] == s[8] && r[9] == s[9] && r[10] == s[10] && r[11] == s[11] && r[12] == s[12] && r[13] == s[13] && r[14] == s[14] && r[15] == s[15]
    ensures r == s
  {
    Cells(r);
    Cells(s);
  }

  /** Two matrices that agree at every (row, column) are equal. */
  lemma EqualByEntries(r: Mat44, s: Mat44)
    requires forall i: nat, j: nat :: i < 4 && j < 4 ==> At(r, i, j) == At(s, i, j)
    ensures r == s
  {
    forall n | 0 <= n < 16 ensures r[n] == s[n] {
      RowMajorLayout(r, n);
      RowMajorLayout(s, n);
    }
  }

  // ---------------------------------------------------------------------
  // Algebra of the products

  /** kIdentity44f is a left identity of the product. */
  lemma IdentityLeft(a: Mat44)
    ensures MatMul(Identity, a) == a
  {
    forall i: nat, j: nat | i < 4 && j < 4 ensures At(MatMul(Identity, a), i, j) == At(a, i, j) {
      MatMulAt(Identity, a, i, j);
      DotExpanded(Identity, a, i, j);
      IdentityAt(i, 0); IdentityAt(i, 1); IdentityAt(i, 2); IdentityAt(i, 3);
    }
    EqualByEntries(MatMul(Identity, a), a);
  }

  /** kIdentity44f is a right identity of the product. */
  lemma IdentityRight(a: Mat44)
    ensures MatMul(a, Identity) == a
  {
    forall i: nat, j: nat | i < 4 && j < 4 ensures At(MatMul(a, Identity), i, j) == At(a, i, j) {
      MatMulAt(a, Identity, i, j);
      DotExpanded(a, Identity, i, j);
      IdentityAt(0, j); IdentityAt(1, j); IdentityAt(2, j); IdentityAt(3, j);
    }
    EqualByEntries(MatMul(a, Identity), a);
  }

  /** kIdentity44f leaves every vector unchanged. */
  lemma IdentityMatVec(v: Vec4)
    ensures MatVec(Identity, v) == v
  {
    MatVecFormula(Identity, v);
    var r := MatVec(Identity, v);
    assert r[0] == v[0] && r[1] == v[1] && r[2] == v[2] && r[3] == v[3];
    Components(r);
    Components(v);
  }

  /** Equal left factors give equal products. */
  lemma TimesEqual(x: real, y: real, z: real)
    requires x == y
    ensures x * z == y * z
  {
  }

  /** Equal right factors give equal products. */
  lemma EqualTimes(z: real, x: real, y: real)
    requires x == y
    ensures z * x == z * y
  {
  }

  /** Products of three reals regroup. */
  lemma TimesAssoc(x: real, y: real, z: real)
    ensures (x * y) * z == x * (y * z)
  {
  }

  /** (y0 + y1 + y2 + y3) x distributes over the sum. */
  lemma SumTimes(y0: real, y1: real, y2: real, y3: real, x: real)
    ensures (y0 + y1 + y2 + y3) * x == y0 * x + y1 * x + y2 * x + y3 * x
  {
  }

  /** x (y0 + y1 + y2 + y3) distributes over the sum. */
  lemma TimesSum(x: real, y0: real, y1: real, y2: real, y3: real)
    ensures x * (y0 + y1 + y2 + y3) == x * y0 + x * y1 + x * y2 + x * y3
  {
  }

  /** Row i of a product, entry by entry, as sums over plain entries. */
  lemma ProductRow(a: Mat44, b: Mat44, i: nat)
    requires i < 4
    ensures At(MatMul(a, b), i, 0) ==
      At(a, i, 0) * At(b, 0, 0) + At(a, i, 1) * At(b, 1, 0) + At(a, i, 2) * At(b, 2, 0) + At(a, i, 3) * At(b, 3, 0)
    ensures At(MatMul(a, b), i, 1) ==
      At(a, i, 0) * At(b, 0, 1) + At(a, i, 1) * At(b, 1, 1) + At(a, i, 2) * At(b, 2, 1) + At(a, i, 3) * At(b, 3, 1)
    ensures At(MatMul(a, b), i, 2) ==
      At(a, i, 0) * At(b, 0, 2) + At(a, i, 1) * At(b, 1, 2) + At(a, i, 2) * At(b, 2, 2) + At(a, i, 3) * At(b, 3, 2)
    ensures At(MatMul(a, b), i, 3) ==
      At(a, i, 0) * At(b, 0, 3) + At(a, i, 1) * At(b, 1, 3) + At(a, i, 2) * At(b, 2, 3) + At(a, i, 3) * At(b, 3, 3)
  {
    MatMulAt(a, b, i, 0); DotTerms(a, b, i, 0);
    MatMulAt(a, b, i, 1); DotTerms(a, b, i, 1);
    MatMulAt(a, b, i, 2); DotTerms(a, b, i, 2);
    MatMulAt(a, b, i, 3); DotTerms(a, b, i, 3);
    TermsRow(a, b, i);
  }

  /** The components of M v, as sums over plain entries. */
  lemma MatVecComponents(m: Mat44, v: Vec4)
    ensures MatVec(m, v)[0] == At(m, 0, 0) * v[0] + At(m, 0, 1) * v[1] + At(m, 0, 2) * v[2] + At(m, 0, 3) * v[3]
    ensures MatVec(m, v)[1] == At(m, 1, 0) * v[0] + At(m, 1, 1) * v[1] + At(m, 1, 2) * v[2] + At(m, 1, 3) * v[3]
    ensures MatVec(m, v)[2] == At(m, 2, 0) * v[0] + At(m, 2, 1) * v[1] + At(m, 2, 2) * v[2] + At(m, 2, 3) * v[3]
    ensures MatVec(m, v)[3] == At(m, 3, 0) * v[0] + At(m, 3, 1) * v[1] + At(m, 3, 2) * v[2] + At(m, 3, 3) * v[3]
  {
    DotVecExpanded(m, v, 0); DotVecExpanded(m, v, 1);
    DotVecExpanded(m, v, 2); DotVecExpanded(m, v, 3);
  }

  /** One row of (A B) v equals the same row of A (B v), given the entries of A B and B v. */
  lemma ProductRowTimes(ab: Mat44, bv: Vec4, a: Mat44, b: Mat44, v: Vec4, i: nat)
    requires i < 4
    requires At(ab, i, 0) == At(a, i, 0) * At(b, 0, 0) + At(a, i, 1) * At(b, 1, 0) + At(a, i, 2) * At(b, 2, 0) + At(a, i, 3) * At(b, 3, 0)
    requires At(ab, i, 1) == At(a, i, 0) * At(b, 0, 1) + At(a, i, 1) * At(b, 1, 1) + At(a, i, 2) * At(b, 2, 1) + At(a, i, 3) * At(b, 3, 1)
    requires At(ab, i, 2) == At(a, i, 0) * At(b, 0, 2) + At(a, i, 1) * At(b, 1, 2) + At(a, i, 2) * At(b, 2, 2) + At(a, i, 3) * At(b, 3, 2)
    requires At(ab, i, 3) == At(a, i, 0) * At(b, 0, 3) + At(a, i, 1) * At(b, 1, 3) + At(a, i, 2) * At(b, 2, 3) + At(a, i, 3) * At(b, 3, 3)
    requires bv[0] == At(b, 0, 0) * v[0] + At(b, 0, 1) * v[1] + At(b, 0, 2) * v[2] + At(b, 0, 3) * v[3]
    requires bv[1] == At(b, 1, 0) * v[0] + At(b, 1, 1) * v[1] + At(b, 1, 2) * v[2] + At(b, 1, 3) * v[3]
    requires bv[2] == At(b, 2, 0) * v[0] + At(b, 2, 1) * v[1] + At(b, 2, 2) * v[2] + At(b, 2, 3) * v[3]
    requires bv[3] == At(b, 3, 0) * v[0] + At(b, 3, 1) * v[1] + At(b, 3, 2) * v[2] + At(b, 3, 3) * v[3]
    ensures At(ab, i, 0) * v[0] + At(ab, i, 1) * v[1] + At(ab, i, 2) * v[2] + At(ab, i, 3) * v[3]
      == At(a, i, 0) * bv[0] + At(a, i, 1) * bv[1] + At(a, i, 2) * bv[2] + At(a, i, 3) * bv[3]
  {
    TimesEqual(At(ab, i, 0), At(a, i, 0) * At(b, 0, 0) + At(a, i, 1) * At(b, 1, 0) + At(a, i, 2) * At(b, 2, 0) + At(a, i, 3) * At(b, 3, 0), v[0]);
    SumTimes(At(a, i, 0) * At(b, 0, 0), At(a, i, 1) * At(b, 1, 0), At(a, i, 2) * At(b, 2, 0), At(a, i, 3) * At(b, 3, 0), v[0]);
    TimesEqual(At(ab, i, 1), At(a, i, 0) * At(b, 0, 1) + At(a, i, 1) * At(b, 1, 1) + At(a, i, 2) * At(b, 2, 1) + At(a, i, 3) * At(b, 3, 1), v[1]);
    SumTimes(At(a, i, 0) * At(b, 0, 1), At(a, i, 1) * At(b, 1, 1), At(a, i, 2) * At(b, 2, 1), At(a, i, 3) * At(b, 3, 1), v[1]);
    TimesEqual(At(ab, i, 2), At(a, i, 0) * At(b, 0, 2) + At(a, i, 1) * At(b, 1, 2) + At(a, i, 2) * At(b, 2, 2) + At(a, i, 3) * At(b, 3, 2), v[2]);
    SumTimes(At(a, i, 0) * At(b, 0, 2), At(a, i, 1) * At(b, 1, 2), At(a, i, 2) * At(b, 2, 2), At(a, i, 3) * At(b, 3, 2), v[2]);
    TimesEqual(At(ab, i, 3), At(a, i, 0) * At(b, 0, 3) + At(a, i, 1) * At(b, 1, 3) + At(a, i, 2) * At(b, 2, 3) + At(a, i, 3) * At(b, 3, 3), v[3]);
    SumTimes(At(a, i, 0) * At(b, 0, 3), At(a, i, 1) * At(b, 1, 3), At(a, i, 2) * At(b, 2, 3), At(a, i, 3) * At(b, 3, 3), v[3]);
    EqualTimes(At(a, i, 0), bv[0], At(b, 0, 0) * v[0] + At(b, 0, 1) * v[1] + At(b, 0, 2) * v[2] + At(b, 0, 3) * v[3]);
    TimesSum(At(a, i, 0), At(b, 0, 0) * v[0], At(b, 0, 1) * v[1], At(b, 0, 2) * v[2], At(b, 0, 3) * v[3]);
    EqualTimes(At(a, i, 1), bv[1], At(b, 1, 0) * v[0] + At(b, 1, 1) * v[1] + At(b, 1, 2) * v[2] + At(b, 1, 3) * v[3]);
    TimesSum(At(a, i, 1), At(b, 1, 0) * v[0], At(b, 1, 1) * v[1], At(b, 1, 2) * v[2], At(b, 1, 3) * v[3]);
    EqualTimes(At(a, i, 2), bv[2], At(b, 2, 0) * v[0] + At(b, 2, 1) * v[1] + At(b, 2, 2) * v[2] + At(b, 2, 3) * v[3]);
    TimesSum(At(a, i, 2), At(b, 2, 0) * v[0], At(b, 2, 1) * v[1], At(b, 2, 2) * v[2], At(b, 2, 3) * v[3]);
    EqualTimes(At(a, i, 3), bv[3], At(b, 3, 0) * v[0] + At(b, 3, 1) * v[1] + At(b, 3, 2) * v[2] + At(b, 3, 3) * v[3]);
    TimesSum(At(a, i, 3), At(b, 3, 0) * v[0], At(b, 3, 1) * v[1], At(b, 3, 2) * v[2], At(b, 3, 3) * v[3]);
    TimesAssoc(At(a, i, 0), At(b, 0, 0), v[0]);
    TimesAssoc(At(a, i, 0), At(b, 0, 1), v[1]);
    TimesAssoc(At(a, i, 0), At(b, 0, 2), v[2]);
    TimesAssoc(At(a, i, 0), At(b, 0, 3), v[3]);
    TimesAssoc(At(a, i, 1), At(b, 1, 0), v[0]);
    TimesAssoc(At(a, i, 1), At(b, 1, 1), v[1]);
    TimesAssoc(At(a, i, 1), At(b, 1, 2), v[2]);
    TimesAssoc(At(a, i, 1), At(b, 1, 3), v[3]);
    TimesAssoc(At(a, i, 2), At(b, 2, 0), v[0]);
    TimesAssoc(At(a, i, 2), At(b, 2, 1), v[1]);
    TimesAssoc(At(a, i, 2), At(b, 2, 2), v[2]);
    TimesAssoc(At(a, i, 2), At(b, 2, 3), v[3]);
    TimesAssoc(At(a, i, 3), At(b, 3, 0), v[0]);
    TimesAssoc(At(a, i, 3), At(b, 3, 1), v[1]);
    TimesAssoc(At(a, i, 3), At(b, 3, 2), v[2]);
    TimesAssoc(At(a, i, 3), At(b, 3, 3), v[3]);
  }

  /** Component i of M v, as a sum over row i. */
  lemma MatVecRow(m: Mat44, v: Vec4, i: nat)
    requires i < 4
    ensures MatVec(m, v)[i] == At(m, i, 0) * v[0] + At(m, i, 1) * v[1] + At(m, i, 2) * v[2] + At(m, i, 3) * v[3]
  {
    DotVecExpanded(m, v, i);
  }

  /** Component i of (A B) v equals component i of A (B v). */
  lemma MatVecOfProductAt(a: Mat44, b: Mat44, v: Vec4, i: nat)
    requires i < 4
    ensures MatVec(MatMul(a, b), v)[i] == MatVec(a, MatVec(b, v))[i]
  {
    var ab, bv := MatMul(a, b), MatVec(b, v);
    MatVecComponents(b, v);
    ProductRow(a, b, i);
    ProductRowTimes(ab, bv, a, b, v, i);
    MatVecRow(ab, v, i);
    MatVecRow(a, bv, i);
  }

  /** Multiplying by a product applies its right factor first: (A B) v = A (B v). */
  lemma MatVecOfProduct(a: Mat44, b: Mat44, v: Vec4)
    ensures MatVec(MatMul(a, b), v) == MatVec(a, MatVec(b, v))
  {
    MatVecOfProductAt(a, b, v, 0);
    MatVecOfProductAt(a, b, v, 1);
    MatVecOfProductAt(a, b, v, 2);
    MatVecOfProductAt(a, b, v, 3);
    Components(MatVec(MatMul(a, b), v));
    Components(MatVec(a, MatVec(b, v)));
  }

  // ---------------------------------------------------------------------
  // Factories

  /** make_rotation_x: rotation about the x axis. */
  function RotationX(m: Math, angle: real): Mat44
  {
    var sa, ca := m.sin(angle), m.cos(angle);
    [1.0, 0.0, 0.0, 0.0,
     0.0, ca, -sa, 0.0,
     0.0, sa, ca, 0.0,
     0.0, 0.0, 0.0, 1.0]
  }

  /** make_rotation_y: rotation about the y axis. */
  function RotationY(m: Math, angle: real): Mat44
  {
    var sa, ca := m.sin(angle), m.cos(angle);
    [ca, 0.0, sa, 0.0,
     0.0, 1.0, 0.0, 0.0,
     -sa, 0.0, ca, 0.0,
     0.0, 0.0, 0.0, 1.0]
  }

  /** make_rotation_z: rotation about the z axis. */
  function RotationZ(m: Math, angle: real): Mat44
  {
    var sa, ca := m.sin(angle), m.cos(angle);
    [ca, -sa, 0.0, 0.0,
     sa, ca, 0.0, 0.0,
     0.0, 0.0, 1.0, 0.0,
     0.0, 0.0, 0.0, 1.0]
  }

  /** make_translation. */
  function Translation(t: Vec3): Mat44
  {
    [1.0, 0.0, 0.0, t.x,
     0.0, 1.0, 0.0, t.y,
     0.0, 0.0, 1.0, t.z,
     0.0, 0.0, 0.0, 1.0]
  }

  /** make_scaling. */
  function Scaling(sx: real, sy: real, sz: real): Mat44
  {
    [sx, 0.0, 0.0, 0.0,
     0.0, sy, 0.0, 0.0,
     0.0, 0.0, sz, 0.0,
     0.0, 0.0, 0.0, 1.0]
  }

  /**
   * make_perspective_projection.  The source divides by tan(fov / 2), by the
   * aspect ratio and by near - far without checking them; the model asks
   * for them to be nonzero, since floating-point infinities are not modelled.
   */
  function Perspective(m: Math, fov: real, aspect: real, near: real, far: real): Mat44
    requires m.tan(fov / 2.0) != 0.0 && aspect != 0.0 && near != far
  {
    var sy := 1.0 / m.tan(fov / 2.0);
    var sx := sy / aspect;
    var a := (far + near) / (near - far);
    var b := 2.0 * far * near / (near - far);
    [sx, 0.0, 0.0, 0.0,
     0.0, sy, 0.0, 0.0,
     0.0, 0.0, a, b,
     0.0, 0.0, -1.0, 0.0]
  }

  /**
   * The normal matrix of a model matrix, `mat44_to_mat33(transpose(invert(t)))`:
   * the 3x3 part of its inverse transposed.
   */
  function NormalMatrix(m: Math, t: Mat44): Mat33
  {
    m.toMat33(Transposed(m.invert(t)))
  }

  /** Rotating by zero about any axis gives kIdentity44f. */
  lemma RotationsAtZero(m: Math)
    requires m.AtZero()
    ensures RotationX(m, 0.0) == Identity
    ensures RotationY(m, 0.0) == Identity
    ensures RotationZ(m, 0.0) == Identity
  {
  }

  /** The quarter-turn rotations of the rotation test, given sin and cos at pi/2. */
  lemma RotationsQuarterTurn(m: Math)
    requires m.sin(Pi / 2.0) == 1.0 && m.cos(Pi / 2.0) == 0.0
    ensures RotationX(m, Pi / 2.0) ==
      [1.0, 0.0, 0.0, 0.0, 0.0, 0.0, -1.0, 0.0, 0.0, 1.0, 0.0, 0.0, 0.0, 0.0, 0.0, 1.0]
    ensures RotationY(m, Pi / 2.0) ==
      [0.0, 0.0, 1.0, 0.0, 0.0, 1.0, 0.0, 0.0, -1.0, 0.0, 0.0, 0.0, 0.0, 0.0, 0.0, 1.0]
    ensures RotationZ(m, Pi / 2.0) ==
      [0.0, -1.0, 0.0, 0.0, 1.0, 0.0, 0.0, 0.0, 0.0, 0.0, 1.0, 0.0, 0.0, 0.0, 0.0, 1.0]
  {
  }

  /** The -45 degree rotations of the rotation test, with r = 1 / sqrt 2. */
  lemma RotationsMinusEighthTurn(m: Math, r: real)
    requires r > 0.0 && r * r == 0.5
    requires m.sin(-Pi / 4.0) == -r && m.cos(-Pi / 4.0) == r
    ensures RotationX(m, -Pi / 4.0) ==
      [1.0, 0.0, 0.0, 0.0, 0.0, r, r, 0.0, 0.0, -r, r, 0.0, 0.0, 0.0, 0.0, 1.0]
    ensures RotationY(m, -Pi / 4.0) ==
      [r, 0.0, -r, 0.0, 0.0, 1.0, 0.0, 0.0, r, 0.0, r, 0.0, 0.0, 0.0, 0.0, 1.0]
    ensures RotationZ(m, -Pi / 4.0) ==
      [r, r, 0.0, 0.0, -r, r, 0.0, 0.0, 0.0, 0.0, 1.0, 0.0, 0.0, 0.0, 0.0, 1.0]
  {
  }

  /** A translation moves a point by its offset and keeps w = 1. */
  lemma TranslationMovesPoint(t: Vec3, p: Vec3)
    ensures MatVec(Translation(t), Point(p)) == Point(p.Add(t))
  {
    MatVecComponents(Translation(t), Point(p));
    Components(MatVec(Translation(t), Point(p)));
  }

  /** The translation test: (1, 2.4, 3.6, 1) moved by (-1.3, -0.3, -8). */
  lemma TranslationTestCase()
    ensures MatVec(Translation(Vec3(-1.3, -0.3, -8.0)), [1.0, 2.4, 3.6, 1.0]) == [1.0 + -1.3, 2.4 + -0.3, 3.6 + -8.0, 1.0]
  {
    TranslationMovesPoint(Vec3(-1.3, -0.3, -8.0), Vec3(1.0, 2.4, 3.6));
  }

  /** A scaling is diagonal with (sx, sy, sz, 1) on the diagonal. */
  lemma ScalingDiagonal(sx: real, sy: real, sz: real)
    ensures forall i: nat, j: nat :: i < 4 && j < 4 && i != j ==> At(Scaling(sx, sy, sz), i, j) == 0.0
    ensures At(Scaling(sx, sy, sz), 0, 0) == sx && At(Scaling(sx, sy, sz), 1, 1) == sy
    ensures At(Scaling(sx, sy, sz), 2, 2) == sz && At(Scaling(sx, sy, sz), 3, 3) == 1.0
  {
    forall i: nat, j: nat | i < 4 && j < 4 && i != j ensures At(Scaling(sx, sy, sz), i, j) == 0.0 {
      RowMajorInjective(i, j, 0, 0);
      RowMajorInjective(i, j, 1, 1);
      RowMajorInjective(i, j, 2, 2);
      RowMajorInjective(i, j, 3, 3);
    }
  }

  /** A scaling scales each coordinate of a point by its own factor. */
  lemma ScalingPoint(sx: real, sy: real, sz: real, p: Vec3)
    ensures MatVec(Scaling(sx, sy, sz), Point(p)) == Point(Vec3(sx * p.x, sy * p.y, sz * p.z))
  {
    var m, v := Scaling(sx, sy, sz), Point(p);
    MatVecComponents(m, v);
    TimesEqual(At(m, 0, 0), sx, v[0]);
    EqualTimes(sx, v[0], p.x);
    TimesEqual(At(m, 1, 1), sy, v[1]);
    EqualTimes(sy, v[1], p.y);
    TimesEqual(At(m, 2, 2), sz, v[2]);
    EqualTimes(sz, v[2], p.z);
    var r := MatVec(m, v);
    assert r[0] == sx * p.x;
    assert r[1] == sy * p.y;
    assert r[2] == sz * p.z;
    assert r[3] == 1.0;
    Components(r);
  }

  /** The projection's bottom row is (0, 0, -1, 0): the output w is -z. */
  lemma PerspectiveW(m: Math, fov: real, aspect: real, near: real, far: real, v: Vec4)
    requires m.tan(fov / 2.0) != 0.0 && aspect != 0.0 && near != far
    ensures At(Perspective(m, fov, aspect, near, far), 3, 0) == 0.0
    ensures At(Perspective(m, fov, aspect, near, far), 3, 1) == 0.0
    ensures At(Perspective(m, fov, aspect, near, far), 3, 2) == -1.0
    ensures At(Perspective(m, fov, aspect, near, far), 3, 3) == 0.0
    ensures MatVec(Perspective(m, fov, aspect, near, far), v)[3] == -v[2]
  {
    MatVecRow(Perspective(m, fov, aspect, near, far), v, 3);
  }

  /** The scale factors: sy * tan(fov / 2) = 1 and sx * aspect = sy. */
  lemma PerspectiveScales(m: Math, fov: real, aspect: real, near: real, far: real)
    requires m.tan(fov / 2.0) != 0.0 && aspect != 0.0 && near != far
    ensures At(Perspective(m, fov, aspect, near, far), 1, 1) * m.tan(fov / 2.0) == 1.0
    ensures At(Perspective(m, fov, aspect, near, far), 0, 0) * aspect == At(Perspective(m, fov, aspect, near, far), 1, 1)
    ensures At(Perspective(m, fov, aspect, near, far), 2, 2) * (near - far) == far + near
    ensures At(Perspective(m, fov, aspect, near, far), 2, 3) * (near - far) == 2.0 * far * near
  {
  }

  /**
   * Depth mapping: a point on the near plane (z = -near) lands at clip depth
   * -near with w = near, and one on the far plane at depth far with w = far,
   * i.e. normalised depths -1 and +1.
   */
  lemma PerspectiveDepth(m: Math, fov: real, aspect: real, near: real, far: real, x: real, y: real)
    requires m.tan(fov / 2.0) != 0.0 && aspect != 0.0 && near != far
    ensures MatVec(Perspective(m, fov, aspect, near, far), [x, y, -near, 1.0])[2] == -near
    ensures MatVec(Perspective(m, fov, aspect, near, far), [x, y, -near, 1.0])[3] == near
    ensures MatVec(Perspective(m, fov, aspect, near, far), [x, y, -far, 1.0])[2] == far
    ensures MatVec(Perspective(m, fov, aspect, near, far), [x, y, -far, 1.0])[3] == far
  {
    var p := Perspective(m, fov, aspect, near, far);
    var a, b := (far + near) / (near - far), 2.0 * far * near / (near - far);
    MatVecRow(p, [x, y, -near, 1.0], 2);
    MatVecRow(p, [x, y, -near, 1.0], 3);
    MatVecRow(p, [x, y, -far, 1.0], 2);
    MatVecRow(p, [x, y, -far, 1.0], 3);
    assert a * -near + b == -near by {
      assert (a * -near + b) * (near - far) == -near * (near - far);
    }
    assert a * -far + b == far by {
      assert (a * -far + b) * (near - far) == far * (near - far);
    }
  }

  /**
   * The projection test: every entry of a 45 degree, 16:9, 0.1..100 projection
   * is within the test's tolerance of the expected matrix, given tan(pi / 8)
   * to seven digits.
   */
  lemma PerspectiveTestCase(m: Math)
    requires 0.4142135 < m.tan(Pi / 4.0 / 2.0) < 0.4142136
    ensures var p := Perspective(m, Pi / 4.0, 1920.0 / 1080.0, 0.1, 100.0);
      -0.00001 < At(p, 0, 0) - 1.358 < 0.00001 && -0.00001 < At(p, 1, 1) - 2.41421 < 0.00001
      && -0.00001 < At(p, 2, 2) - -1.002 < 0.00001 && -0.00001 < At(p, 2, 3) - -0.2002 < 0.00001
      && At(p, 3, 2) == -1.0 && At(p, 3, 3) == 0.0
    ensures var p := Perspective(m, Pi / 4.0, 1920.0 / 1080.0, 0.1, 100.0);
      At(p, 0, 1) == 0.0 && At(p, 0, 2) == 0.0 && At(p, 0, 3) == 0.0
      && At(p, 1, 0) == 0.0 && At(p, 1, 2) == 0.0 && At(p, 1, 3) == 0.0
      && At(p, 2, 0) == 0.0 && At(p, 2, 1) == 0.0 && At(p, 3, 0) == 0.0 && At(p, 3, 1) == 0.0
  {
    var t := m.tan(Pi / 4.0 / 2.0);
    var sy := 1.0 / t;
    assert sy * t == 1.0;
  }

  /** The operands and expected result of the matrix-by-matrix test. */
  const MulTestLeft: Mat44 :=
    [-1.2, 3.4, -5.6, 7.8, -9.0, 1.1, -2.2, 3.3, -4.4, 5.5, -6.6, 7.7, -8.8, 9.9, -0.1, 2.0]
  const MulTestRight: Mat44 :=
    [-1.3, 2.4, -3.5, 4.6, -5.7, 6.8, -7.9, 8.0, -9.1, 0.2, -1.3, 2.4, -3.5, 4.6, -5.7, 6.8]
  const MulTestProduct: Mat44 :=
    [5.84, 55.0, -59.84, 61.28, 13.9, 0.62, 6.86, -15.44, 7.48, 60.94, -63.36, 60.28, -51.08, 55.38, -58.68, 52.08]

  lemma MatMulTestTop()
    ensures MatMul(MulTestLeft, MulTestRight)[0] == 5.84
    ensures MatMul(MulTestLeft, MulTestRight)[1] == 55.0
    ensures MatMul(MulTestLeft, MulTestRight)[2] == -59.84
    ensures MatMul(MulTestLeft, MulTestRight)[3] == 61.28
    ensures MatMul(MulTestLeft, MulTestRight)[4] == 13.9
    ensures MatMul(MulTestLeft, MulTestRight)[5] == 0.62
    ensures MatMul(MulTestLeft, MulTestRight)[6] == 6.86
    ensures MatMul(MulTestLeft, MulTestRight)[7] == -15.44
  {
    ProductRow(MulTestLeft, MulTestRight, 0);
    ProductRow(MulTestLeft, MulTestRight, 1);
  }

  lemma MatMulTestBottom()
    ensures MatMul(MulTestLeft, MulTestRight)[8] == 7.48
    ensures MatMul(MulTestLeft, MulTestRight)[9] == 60.94
    ensures MatMul(MulTestLeft, MulTestRight)[10] == -63.36
    ensures MatMul(MulTestLeft, MulTestRight)[11] == 60.28
    ensures MatMul(MulTestLeft, MulTestRight)[12] == -51.08
    ensures MatMul(MulTestLeft, MulTestRight)[13] == 55.38
    ensures MatMul(MulTestLeft, MulTestRight)[14] == -58.68
    ensures MatMul(MulTestLeft, MulTestRight)[15] == 52.08
  {
    ProductRow(MulTestLeft, MulTestRight, 2);
    ProductRow(MulTestLeft, MulTestRight, 3);
  }

  /** The matrix-by-matrix test: the product of its two operands, exactly. */
  lemma MatMulTestCase()
    ensures MatMul(MulTestLeft, MulTestRight) == MulTestProduct
  {
    MatMulTestTop();
    MatMulTestBottom();
    EqualByCells(MatMul(MulTestLeft, MulTestRight), MulTestProduct);
  }

  /** The matrix-by-vector test: a fixed product, exactly. */
  lemma MatVecTestCase()
    ensures MatVec([-0.1, 1.2, -2.3, 3.4, -4.5, 5.6, -6.7, 7.8, -8.9, 9.0, -1.1, 2.2, -3.3, 4.4, -5.5, 6.6],
      [4.0, 3.2, -1.0, 0.0]) == [5.74, 6.62, -5.7, 6.38]
  {
    var m: Mat44 := [-0.1, 1.2, -2.3, 3.4, -4.5, 5.6, -6.7, 7.8, -8.9, 9.0, -1.1, 2.2, -3.3, 4.4, -5.5, 6.6];
    MatVecComponents(m, [4.0, 3.2, -1.0, 0.0]);
    Components(MatVec(m, [4.0, 3.2, -1.0, 0.0]));
  }
}
