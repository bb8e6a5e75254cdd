/**
 * The 4x4 matrix helpers of the stereo renderer. A matrix is 16 numbers in
 * column-major order, as OpenXR and OpenGL ES use them: the element in row
 * `row` and column `col` is stored at index `col * 4 + row`. The source
 * works on `float`; the model uses `real`, so rounding is not modelled.
 * The helpers write into caller-provided arrays (the methods); the pure
 * functions state what those arrays hold afterwards.
 */
module Matrix {

  type Mat4 = m: seq<real> | |m| == 16 witness seq(16, i => 0.0)

  /** Where the element in row `row` and column `col` is stored. */
  function Index(row: nat, col: nat): (n: nat)
    ensures row < 4 && col < 4 ==> n < 16
  {
    col * 4 + row
  }

  /** The element in row `row` and column `col`. */
  function At(m: Mat4, row: nat, col: nat): real
    requires row < 4 && col < 4
  {
    m[Index(row, col)]
  }

  /** Distinct (row, column) pairs are stored at distinct indices. */
  lemma IndexInjective(row1: nat, col1: nat, row2: nat, col2: nat)
    requires row1 < 4 && col1 < 4 && row2 < 4 && col2 < 4
    ensures Index(row1, col1) == Index(row2, col2) <==> row1 == row2 && col1 == col2
  {
  }

  /** The identity matrix, element by element in storage order. */
  function Identity(): (m: Mat4)
    ensures forall row, col :: 0 <= row < 4 && 0 <= col < 4 ==>
      At(m, row, col) == if row == col then 1.0 else 0.0
  {
    [1.0, 0.0, 0.0, 0.0, 0.0, 1.0, 0.0, 0.0, 0.0, 0.0, 1.0, 0.0, 0.0, 0.0, 0.0, 1.0]
  }

  /** The translation by (x, y, z): the identity with (x, y, z) in the fourth column. */
  function Translate(x: real, y: real, z: real): (m: Mat4)
    ensures forall row, col :: 0 <= row < 4 && 0 <= col < 3 ==> At(m, row, col) == At(Identity(), row, col)
    ensures At(m, 0, 3) == x && At(m, 1, 3) == y && At(m, 2, 3) == z && At(m, 3, 3) == 1.0
  {
    [1.0, 0.0, 0.0, 0.0, 0.0, 1.0, 0.0, 0.0, 0.0, 0.0, 1.0, 0.0, x, y, z, 1.0]
  }

  /** Row `row` of a times column `col` of b: the (row, col) element of the product a * b. */
  function Dot(a: Mat4, b: Mat4, row: nat, col: nat): real
    requires row < 4 && col < 4
  {
    At(a, row, 0) * At(b, 0, col) + At(a, row, 1) * At(b, 1, col) +
    At(a, row, 2) * At(b, 2, col) + At(a, row, 3) * At(b, 3, col)
  }

  /** The first `k` terms of the sum the source accumulates into r[col * 4 + row]. */
  function PartialSum(a: Mat4, b: Mat4, col: nat, row: nat, k: nat): real
    requires col < 4 && row < 4 && k <= 4
  {
    if k == 0 then 0.0
    else PartialSum(a, b, col, row, k - 1) + At(a, row, k - 1) * At(b, k - 1, col)
  }

  /** The complete sum is the (row, col) element of the product. */
  lemma {:induction false} PartialSumComplete(a: Mat4, b: Mat4, row: nat, col: nat)
    requires row < 4 && col < 4
    ensures PartialSum(a, b, col, row, 4) == Dot(a, b, row, col)
  {
    assert PartialSum(a, b, col, row, 1) == At(a, row, 0) * At(b, 0, col);
    assert PartialSum(a, b, col, row, 2) == PartialSum(a, b, col, row, 1) + At(a, row, 1) * At(b, 1, col);
    assert PartialSum(a, b, col, row, 3) == PartialSum(a, b, col, row, 2) + At(a, row, 2) * At(b, 2, col);
  }

  /** The identity is a left unit of the column-major product. */
  lemma IdentityLeftUnit(b: Mat4, row: nat, col: nat)
    requires row < 4 && col < 4
    ensures Dot(Identity(), b, row, col) == At(b, row, col)
  {
    var id := Identity();
    assert At(id, row, row) == 1.0;
    assert forall k :: 0 <= k < 4 && k != row ==> At(id, row, k) == 0.0;
  }

  /** The identity is a right unit of the column-major product. */
  lemma IdentityRightUnit(a: Mat4, row: nat, col: nat)
    requires row < 4 && col < 4
    ensures Dot(a, Identity(), row, col) == At(a, row, col)
  {
    var id := Identity();
    assert At(id, col, col) == 1.0;
    assert forall k :: 0 <= k < 4 && k != col ==> At(id, k, col) == 0.0;
  }

  /** Composing two translations translates by the sum of their offsets. */
  lemma TranslateCompose(x1: real, y1: real, z1: real, x2: real, y2: real, z2: real, row: nat, col: nat)
    requires row < 4 && col < 4
    ensures Dot(Translate(x1, y1, z1), Translate(x2, y2, z2), row, col) == At(Translate(x1 + x2, y1 + y2, z1 + z2), row, col)
  {
    var t1, t2 := Translate(x1, y1, z1), Translate(x2, y2, z2);
    if col < 3 {
      assert forall k :: 0 <= k < 4 ==> At(t2, k, col) == At(Identity(), k, col);
      IdentityRightUnit(t1, row, col);
    } else {
      assert At(t1, row, 0) == At(Identity(), row, 0);
      assert At(t1, row, 1) == At(Identity(), row, 1);
      assert At(t1, row, 2) == At(Identity(), row, 2);
    }
  }

  /** A 16-element sequence holding the identity's elements is the identity. */
  lemma IsIdentity(s: seq<real>)
    requires |s| == 16
    requires s[0] == s[5] == s[10] == s[15] == 1.0
    requires s[1] == s[2] == s[3] == s[4] == s[6] == s[7] == s[8] == s[9] == 0.0
    requires s[11] == s[12] == s[13] == s[14] == 0.0
    ensures s == Identity()
  {
  }

  /** A 16-element sequence that agrees with the identity but for x, y, z at 12, 13, 14 is that translation. */
  lemma IsTranslate(s: seq<real>, x: real, y: real, z: real)
    requires |s| == 16
    requires forall n :: 0 <= n < 12 || n == 15 ==> s[n] == Identity()[n]
    requires s[12] == x && s[13] == y && s[14] == z
    ensures s == Translate(x, y, z)
  {
    assert forall n :: 0 <= n < 16 ==> s[n] == Translate(x, y, z)[n];
  }

  // ---------------------------------------------------------------------
  // The helpers as the source writes them: into an output array.

  /** matrix_identity: writes the identity into m. */
  method MatrixIdentity(m: array<real>)
    requires m.Length == 16
    modifies m
    ensures m[..] == Identity()
  {
    m[0] := 1.0; m[4] := 0.0; m[8] := 0.0;  m[12] := 0.0;
    m[1] := 0.0; m[5] := 1.0; m[9] := 0.0;  m[13] := 0.0;
    m[2] := 0.0; m[6] := 0.0; m[10] := 1.0; m[14] := 0.0;
    m[3] := 0.0; m[7] := 0.0; m[11] := 0.0; m[15] := 1.0;
    IsIdentity(m[..]);
  }

  /** matrix_translate: writes the identity, then the offsets into elements 12, 13 and 14. */
  method MatrixTranslate(x: real, y: real, z: real, m: array<real>)
    requires m.Length == 16
    modifies m
    ensures m[..] == Translate(x, y, z)
  {
    MatrixIdentity(m);
    ghost var id := m[..];
    m[12] := x;
    m[13] := y;
    m[14] := z;
    assert forall n :: 0 <= n < 12 || n == 15 ==> m[..][n] == id[n];
    IsTranslate(m[..], x, y, z);
  }

  /**
   * The innermost loop of matrix_multiply: zeroes r[i * 4 + j] and adds the
   * four products into it, leaving every other element of r as it was.
   */
  method AccumulateEntry(a: array<real>, b: array<real>, r: array<real>, i: nat, j: nat)
    requires a.Length == 16 && b.Length == 16 && r.Length == 16
    requires r != a && r != b && i < 4 && j < 4
    modifies r
    ensures r[Index(j, i)] == Dot(a[..], b[..], j, i)
    ensures forall n :: 0 <= n < 16 && n != Index(j, i) ==> r[n] == old(r[n])
  {
    var n := i * 4 + j;
    r[n] := 0.0;
    var k := 0;
    while k < 4
      invariant 0 <= k <= 4
      invariant r[n] == PartialSum(a[..], b[..], i, j, k)
      invariant forall m :: 0 <= m < 16 && m != n ==> r[m] == old(r[m])
    {
      r[n] := r[n] + a[k * 4 + j] * b[i * 4 + k];
      k := k + 1;
    }
    PartialSumComplete(a[..], b[..], j, i);
  }

  /**
   * matrix_multiply: the three nested loops of the source; afterwards every
   * element of r is the corresponding element of the product a * b. The
   * output array must be distinct from both inputs, as it is at every call
   * site.
   */
  method MatrixMultiply(a: array<real>, b: array<real>, r: array<real>)
    requires a.Length == 16 && b.Length == 16 && r.Length == 16
    requires r != a && r != b
    modifies r
    ensures forall row, col :: 0 <= row < 4 && 0 <= col < 4 ==> At(r[..], row, col) == Dot(a[..], b[..], row, col)
  {
    ghost var ma, mb := a[..], b[..];
    var i := 0;
    while i < 4
      invariant 0 <= i <= 4 && a[..] == ma && b[..] == mb
      invariant forall row, col :: 0 <= row < 4 && 0 <= col < i ==> r[Index(row, col)] == Dot(ma, mb, row, col)
    {
      var j := 0;
      while j < 4
        invariant 0 <= j <= 4 && a[..] == ma && b[..] == mb
        invariant forall row, col :: 0 <= row < 4 && 0 <= col < i ==> r[Index(row, col)] == Dot(ma, mb, row, col)
        invariant forall row :: 0 <= row < j ==> r[Index(row, i)] == Dot(ma, mb, row, i)
      {
        AccumulateEntry(a, b, r, i, j);
        j := j + 1;
      }
      forall row, col | 0 <= row < 4 && 0 <= col < i + 1
        ensures r[Index(row, col)] == Dot(ma, mb, row, col)
      {
        if col == i {
          assert 0 <= row < j;
        }
      }
      i := i + 1;
    }
  }
}
