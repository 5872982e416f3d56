/** The 2D affine transforms of an HTML canvas context.

    A canvas holds a 2x3 matrix `[a c e; b d f]` (row-major canvas convention,
    the same order as the arguments of `context.transform(a, b, c, d, e, f)`).
    Every transform call multiplies the current matrix on the right.
    The model keeps the accumulated transform as the sequence of operations that
    were applied (`Op`), so that rotation can stay a symbolic angle in degrees;
    `MatrixOf` gives that sequence its matrix meaning, for any rotation matrix
    function `rot` that maps 0 degrees to the identity. */
module Geometry {

  datatype Affine = Affine(a: real, b: real, c: real, d: real, e: real, f: real)

  const Identity := Affine(1.0, 0.0, 0.0, 1.0, 0.0, 0.0)

  /** `m` followed by `n`: the matrix after `context.transform(n...)` on a context holding `m`. */
  function Compose(m: Affine, n: Affine): Affine
  {
    Affine(m.a * n.a + m.c * n.b,
           m.b * n.a + m.d * n.b,
           m.a * n.c + m.c * n.d,
           m.b * n.c + m.d * n.d,
           m.a * n.e + m.c * n.f + m.e,
           m.b * n.e + m.d * n.f + m.f)
  }

  lemma ComposeIdentity(m: Affine)
    ensures Compose(m, Identity) == m && Compose(Identity, m) == m
  {
  }

  /** One call of the canvas transform API. */
  datatype Op =
    | Translate(x: real, y: real)
    | Rotate(degrees: real)
    | Scale(x: real, y: real)
    | Transform(m: Affine)

  /** The matrix one operation multiplies in; rotation is left to `rot`. */
  function OpMatrix(op: Op, rot: real -> Affine): Affine
  {
    match op
    case Translate(x, y) => Affine(1.0, 0.0, 0.0, 1.0, x, y)
    case Rotate(deg) => rot(deg)
    case Scale(x, y) => Affine(x, 0.0, 0.0, y, 0.0, 0.0)
    case Transform(m) => m
  }

  /** An operation that leaves every matrix as it is (for a rotation function that fixes 0). */
  predicate IsIdentityOp(op: Op)
  {
    match op
    case Translate(x, y) => x == 0.0 && y == 0.0
    case Rotate(deg) => deg == 0.0
    case Scale(x, y) => x == 1.0 && y == 1.0
    case Transform(m) => m == Identity
  }

  /** The matrix of a sequence of operations applied in order to the identity. */
  function MatrixOf(ops: seq<Op>, rot: real -> Affine): Affine
  {
    if ops == [] then Identity
    else Compose(MatrixOf(ops[..|ops| - 1], rot), OpMatrix(ops[|ops| - 1], rot))
  }

  lemma IdentityOpMatrix(op: Op, rot: real -> Affine)
    requires rot(0.0) == Identity
    requires IsIdentityOp(op)
    ensures OpMatrix(op, rot) == Identity
  {
  }

  /** Appending operations that are all identities does not change the matrix. */
  lemma {:induction false} AppendIdentityOps(ops: seq<Op>, extra: seq<Op>, rot: real -> Affine)
    requires rot(0.0) == Identity
    requires forall k :: 0 <= k < |extra| ==> IsIdentityOp(extra[k])
    ensures MatrixOf(ops + extra, rot) == MatrixOf(ops, rot)
  {
    if extra != [] {
      var init := extra[..|extra| - 1];
      assert (ops + extra)[..|ops + extra| - 1] == ops + init;
      AppendIdentityOps(ops, init, rot);
      IdentityOpMatrix(extra[|extra| - 1], rot);
      ComposeIdentity(MatrixOf(ops + init, rot));
    } else {
      assert ops + extra == ops;
    }
  }
}
