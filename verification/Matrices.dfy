/** Row-major buffers and the matrices they hold. */
module Matrices {
  import opened Reals

  /** Offset of element (i, j) in a row-major buffer with ld elements per row. */
  function At(i: int, ld: int, j: int): int {
    i * ld + j
  }

  lemma {:induction false} Multiply(a: int, b: int, c: int)
    requires a <= b && 0 <= c
    ensures a * c <= b * c
  {
  }

  lemma {:induction false} AtInBounds(i: int, rows: int, ld: int, j: int)
    requires 0 <= i < rows && 0 <= j < ld
    ensures 0 <= At(i, ld, j) < rows * ld
  {
    Multiply(0, i, ld);
    Multiply(i + 1, rows, ld);
  }

  /** Elements of an earlier row come before every element of a later one. */
  lemma {:induction false} AtOrder(i: int, j: int, i': int, j': int, ld: int)
    requires i < i' && j < ld && 0 <= j'
    requires 0 <= ld
    ensures At(i, ld, j) < At(i', ld, j')
  {
    Multiply(i + 1, i', ld);
  }

  /** An element lies in row i exactly when its offset does. */
  lemma {:induction false} RowRange(i: int, i': int, d: int, dim: int)
    requires 0 <= d < dim
    ensures At(i, dim, 0) <= At(i', dim, d) < At(i, dim, 0) + dim <==> i' == i
  {
    if i' < i {
      AtOrder(i', d, i, 0, dim);
    } else if i < i' {
      AtOrder(i, dim - 1, i', d, dim);
    }
  }

  lemma {:induction false} AtInjective(i: int, j: int, i': int, j': int, ld: int)
    requires 0 <= j < ld && 0 <= j' < ld && At(i, ld, j) == At(i', ld, j')
    ensures i == i' && j == j'
  {
    if i < i' {
      AtOrder(i, j, i', j', ld);
    } else if i' < i {
      AtOrder(i', j', i, j, ld);
    }
  }

  /** Every offset is the offset of some element. */
  lemma {:induction false} AtSurjective(x: int, rows: int, ld: int)
    requires 0 < ld && 0 <= x < rows * ld
    ensures 0 <= x / ld < rows && 0 <= x % ld < ld && At(x / ld, ld, x % ld) == x
  {
    if x / ld >= rows {
      Multiply(rows, x / ld, ld);
    }
  }

  type Matrix = (int, int) -> real

  /** The matrix stored in a row-major buffer (zero outside of the buffer). */
  ghost function View(a: seq<real>, ld: int): Matrix {
    (i: int, j: int) => if 0 <= At(i, ld, j) < |a| then a[At(i, ld, j)] else 0.0
  }

  /** Inner product of the first n elements of row i of x with row j of y. */
  function Dot(x: Matrix, i: int, y: Matrix, j: int, n: nat): real {
    if n == 0 then 0.0 else Dot(x, i, y, j, n - 1) + Scaled(x(i, n - 1), y(j, n - 1))
  }

  type IntMatrix = (int, int) -> int

  /** A product of two lanes, named so that proofs can treat it as a unit. */
  function Product(a: int, b: int): int {
    a * b
  }

  ghost function IntDot(x: IntMatrix, i: int, y: IntMatrix, j: int, n: nat): int {
    if n == 0 then 0 else IntDot(x, i, y, j, n - 1) + Product(x(i, n - 1), y(j, n - 1))
  }
}
