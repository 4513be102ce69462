/** Values of the 4-slot homogeneous storage [x, y, z, w] of a point, and the
    pure operations of Point3d on them: arithmetic, dot and cross products,
    translation, and the axis rotations as 4x4 matrix-vector products. */
module Homogeneous {
  import opened Errors

  /** The storage of a point: slots 0, 1, 2 are x, y, z and slot 3 is w. */
  type Coords = s: seq<real> | |s| == 4 witness [0.0, 0.0, 0.0, 1.0]

  /** A 4x4 matrix given by its rows. */
  type Matrix = m: seq<seq<real>> | |m| == 4 && forall i :: 0 <= i < 4 ==> |m[i]| == 4
    witness [[0.0, 0.0, 0.0, 0.0], [0.0, 0.0, 0.0, 0.0], [0.0, 0.0, 0.0, 0.0], [0.0, 0.0, 0.0, 0.0]]

  /** The storage of the point (x, y, z): the homogeneous slot is 1. */
  function Point(x: real, y: real, z: real): Coords
  {
    [x, y, z, 1.0]
  }

  /** The homogeneous-coordinate convention: w is exactly 1. */
  predicate IsPoint(c: Coords)
  {
    c[3] == 1.0
  }

  /** Python indexing of the storage: keys 0..3 name a slot, keys -4..-1 count
      from the end, any other key raises IndexError. */
  function SlotOf(key: int): (r: Result<nat>)
    ensures r.Ok? <==> -4 <= key < 4
    ensures r.Ok? ==> r.value < 4 && r.value % 4 == key % 4
    ensures r.Err? ==> r.error == IndexError
  {
    if 0 <= key < 4 then Ok(key)
    else if -4 <= key < 0 then Ok(key + 4)
    else Err(IndexError)
  }

  /** The full dot product of two equally long vectors (numpy's dot). */
  function DotProduct(a: seq<real>, b: seq<real>): real
    requires |a| == |b|
    decreases |a|
  {
    if |a| == 0 then 0.0 else a[0] * b[0] + DotProduct(a[1..], b[1..])
  }

  /** The dot product restricted to x, y, z. */
  function Dot3(a: Coords, b: Coords): real
  {
    a[0] * b[0] + a[1] * b[1] + a[2] * b[2]
  }

  /** The square of length(): x*x + y*y + z*z. */
  function SquaredLength(a: Coords): (r: real)
    ensures r >= 0.0
  {
    a[0] * a[0] + a[1] * a[1] + a[2] * a[2]
  }

  /** p + q: a new point from the component sums of x, y, z. */
  function Sum(a: Coords, b: Coords): (r: Coords)
    ensures IsPoint(r)
  {
    Point(a[0] + b[0], a[1] + b[1], a[2] + b[2])
  }

  /** p - q: a new point from the component differences of x, y, z. */
  function Difference(a: Coords, b: Coords): (r: Coords)
    ensures IsPoint(r)
  {
    Point(a[0] - b[0], a[1] - b[1], a[2] - b[2])
  }

  /** p * k: a new point from x, y, z each multiplied by k. */
  function Scaled(a: Coords, k: real): (r: Coords)
    ensures IsPoint(r)
  {
    Point(a[0] * k, a[1] * k, a[2] * k)
  }

  /** -p, which the class computes as p * -1. */
  function Negated(a: Coords): (r: Coords)
    ensures IsPoint(r)
  {
    Scaled(a, -1.0)
  }

  /** cross(a, b): the 3-D cross product of the x, y, z parts, with w set to 1. */
  function CrossProduct(a: Coords, b: Coords): (r: Coords)
    ensures IsPoint(r)
  {
    Point(a[1] * b[2] - a[2] * b[1], a[2] * b[0] - a[0] * b[2], a[0] * b[1] - a[1] * b[0])
  }

  /** translate(v) applied to the storage a: v's x, y, z are added, w is kept. */
  function Translated(a: Coords, v: Coords): (r: Coords)
    ensures r[3] == a[3]
  {
    [a[0] + v[0], a[1] + v[1], a[2] + v[2], a[3]]
  }

  /** The matrix-vector product m . v (numpy's dot of a 2-D by a 1-D array). */
  function MatVec(m: Matrix, v: Coords): (r: Coords)
  {
    seq(4, i requires 0 <= i < 4 => DotProduct(m[i], v))
  }

  /** The rotation matrices of rotateX, rotateY and rotateZ, for an angle whose
      cosine is c and whose sine is s. */
  function XMatrix(c: real, s: real): Matrix
  {
    [[1.0, 0.0, 0.0, 0.0],
     [0.0, c, -s, 0.0],
     [0.0, s, c, 0.0],
     [0.0, 0.0, 0.0, 1.0]]
  }

  function YMatrix(c: real, s: real): Matrix
  {
    [[c, 0.0, s, 0.0],
     [0.0, 1.0, 0.0, 0.0],
     [-s, 0.0, c, 0.0],
     [0.0, 0.0, 0.0, 1.0]]
  }

  function ZMatrix(c: real, s: real): Matrix
  {
    [[c, -s, 0.0, 0.0],
     [s, c, 0.0, 0.0],
     [0.0, 0.0, 1.0, 0.0],
     [0.0, 0.0, 0.0, 1.0]]
  }

  function RotatedX(a: Coords, c: real, s: real): Coords
  {
    MatVec(XMatrix(c, s), a)
  }

  function RotatedY(a: Coords, c: real, s: real): Coords
  {
    MatVec(YMatrix(c, s), a)
  }

  function RotatedZ(a: Coords, c: real, s: real): Coords
  {
    MatVec(ZMatrix(c, s), a)
  }

  // ---------------------------------------------------------------------------
  // Arithmetic

  /** Subtracting q undoes adding q: (p + q) - q has the x, y, z of p. */
  lemma SubUndoesAdd(p: Coords, q: Coords)
    ensures Difference(Sum(p, q), q) == Point(p[0], p[1], p[2])
    ensures IsPoint(p) ==> Difference(Sum(p, q), q) == p
  {
  }

  /** The origin is the additive identity for points. */
  lemma AddOrigin(p: Coords)
    requires IsPoint(p)
    ensures Sum(p, Point(0.0, 0.0, 0.0)) == p
  {
  }

  /** Scaling acts on each of x, y, z and distributes over addition. */
  lemma ScaledDistributes(p: Coords, q: Coords, k: real)
    ensures Scaled(p, k)[..3] == [p[0] * k, p[1] * k, p[2] * k]
    ensures Scaled(Sum(p, q), k) == Sum(Scaled(p, k), Scaled(q, k))
  {
    var l, r := Scaled(Sum(p, q), k), Sum(Scaled(p, k), Scaled(q, k));
    assert l[0] == r[0] && l[1] == r[1] && l[2] == r[2];
  }

  /** -p is the additive inverse of p, and negation is an involution on points. */
  lemma NegatedIsInverse(p: Coords)
    ensures Sum(p, Negated(p)) == Point(0.0, 0.0, 0.0)
    ensures IsPoint(p) ==> Negated(Negated(p)) == p
  {
  }

  // ---------------------------------------------------------------------------
  // Dot product

  /** The dot product of two 4-slot vectors, written out. */
  lemma DotProduct4(a: seq<real>, b: seq<real>)
    requires |a| == 4 && |b| == 4
    ensures DotProduct(a, b) == a[0] * b[0] + a[1] * b[1] + a[2] * b[2] + a[3] * b[3]
  {
    assert DotProduct(a[3..], b[3..]) == a[3] * b[3] by {
      assert a[3..][1..] == [] && b[3..][1..] == [];
    }
    assert DotProduct(a[2..], b[2..]) == a[2] * b[2] + DotProduct(a[3..], b[3..]) by {
      assert a[2..][1..] == a[3..] && b[2..][1..] == b[3..];
    }
    assert DotProduct(a[1..], b[1..]) == a[1] * b[1] + DotProduct(a[2..], b[2..]) by {
      assert a[1..][1..] == a[2..] && b[1..][1..] == b[2..];
    }
  }

  /** The dot product is symmetric, for vectors of any length. */
  lemma {:induction false} DotSymmetric(a: seq<real>, b: seq<real>)
    requires |a| == |b|
    ensures DotProduct(a, b) == DotProduct(b, a)
    decreases |a|
  {
    if |a| > 0 {
      DotSymmetric(a[1..], b[1..]);
    }
  }

  /** dot sums over all four slots, so for two points it is the 3-D dot
      product plus the homogeneous term 1*1. */
  lemma DotOfPoints(a: Coords, b: Coords)
    requires IsPoint(a) && IsPoint(b)
    ensures DotProduct(a, b) == Dot3(a, b) + 1.0
    ensures DotProduct(a, b) == DotProduct(b, a)
  {
    DotProduct4(a, b);
    DotProduct4(b, a);
  }

  // ---------------------------------------------------------------------------
  // Cross product

  /** Swapping the operands of cross negates the result. */
  lemma CrossAntiCommutes(a: Coords, b: Coords)
    ensures CrossProduct(b, a) == Negated(CrossProduct(a, b))
  {
  }

  /** A vector crossed with another has no component along either of them. */
  lemma TripleProductVanishes(a0: real, a1: real, a2: real, b0: real, b1: real, b2: real)
    ensures (a1 * b2 - a2 * b1) * a0 + (a2 * b0 - a0 * b2) * a1 + (a0 * b1 - a1 * b0) * a2 == 0.0
    ensures (a1 * b2 - a2 * b1) * b0 + (a2 * b0 - a0 * b2) * b1 + (a0 * b1 - a1 * b0) * b2 == 0.0
  {
  }

  /** The x, y, z of cross(a, b) are orthogonal to those of a and of b. */
  lemma CrossOrthogonal(a: Coords, b: Coords)
    ensures Dot3(CrossProduct(a, b), a) == 0.0
    ensures Dot3(CrossProduct(a, b), b) == 0.0
  {
    TripleProductVanishes(a[0], a[1], a[2], b[0], b[1], b[2]);
  }

  /** Through the full four-slot dot, the product of cross(a, b) with a point
      a is therefore 1, not 0. */
  lemma CrossDotPointIsOne(a: Coords, b: Coords)
    requires IsPoint(a)
    ensures DotProduct(CrossProduct(a, b), a) == 1.0
  {
    CrossOrthogonal(a, b);
    DotOfPoints(CrossProduct(a, b), a);
  }

  /** The unit axes: i.j is 1 (the homogeneous offset), i x j is k and j x i is -k. */
  lemma UnitAxes()
    ensures DotProduct(Point(1.0, 0.0, 0.0), Point(0.0, 1.0, 0.0)) == 1.0
    ensures CrossProduct(Point(1.0, 0.0, 0.0), Point(0.0, 1.0, 0.0)) == Point(0.0, 0.0, 1.0)
    ensures CrossProduct(Point(0.0, 1.0, 0.0), Point(1.0, 0.0, 0.0)) == Point(0.0, 0.0, -1.0)
  {
    DotOfPoints(Point(1.0, 0.0, 0.0), Point(0.0, 1.0, 0.0));
  }

  // ---------------------------------------------------------------------------
  // Translation

  /** On a point, translating by v is the same as adding v; translating by -v
      undoes translating by v. */
  lemma TranslatedIsSum(a: Coords, v: Coords)
    ensures IsPoint(a) ==> Translated(a, v) == Sum(a, v)
    ensures Translated(Translated(a, v), Negated(v)) == a
  {
  }

  // ---------------------------------------------------------------------------
  // Rotations

  /** rotateX, written out: x and w are fixed, (y, z) turns by (c, s). */
  lemma RotatedXClosedForm(a: Coords, c: real, s: real)
    ensures RotatedX(a, c, s) == [a[0], c * a[1] - s * a[2], s * a[1] + c * a[2], a[3]]
  {
    var m, r := XMatrix(c, s), RotatedX(a, c, s);
    DotProduct4(m[0], a);
    DotProduct4(m[1], a);
    DotProduct4(m[2], a);
    DotProduct4(m[3], a);
    assert r[0] == a[0] && r[1] == c * a[1] - s * a[2] && r[2] == s * a[1] + c * a[2] && r[3] == a[3];
  }

  /** rotateY, written out: y and w are fixed, (z, x) turns by (c, s). */
  lemma RotatedYClosedForm(a: Coords, c: real, s: real)
    ensures RotatedY(a, c, s) == [c * a[0] + s * a[2], a[1], c * a[2] - s * a[0], a[3]]
  {
    var m, r := YMatrix(c, s), RotatedY(a, c, s);
    DotProduct4(m[0], a);
    DotProduct4(m[1], a);
    DotProduct4(m[2], a);
    DotProduct4(m[3], a);
    assert r[0] == c * a[0] + s * a[2] && r[1] == a[1] && r[2] == c * a[2] - s * a[0] && r[3] == a[3];
  }

  /** rotateZ, written out: z and w are fixed, (x, y) turns by (c, s). */
  lemma RotatedZClosedForm(a: Coords, c: real, s: real)
    ensures RotatedZ(a, c, s) == [c * a[0] - s * a[1], s * a[0] + c * a[1], a[2], a[3]]
  {
    var m, r := ZMatrix(c, s), RotatedZ(a, c, s);
    DotProduct4(m[0], a);
    DotProduct4(m[1], a);
    DotProduct4(m[2], a);
    DotProduct4(m[3], a);
    assert r[0] == c * a[0] - s * a[1] && r[1] == s * a[0] + c * a[1] && r[2] == a[2] && r[3] == a[3];
  }

  /** Each rotation leaves its own axis and the homogeneous slot unchanged,
      whatever c and s are. */
  lemma RotationsFixTheirAxis(a: Coords, c: real, s: real)
    ensures RotatedX(a, c, s)[0] == a[0] && RotatedX(a, c, s)[3] == a[3]
    ensures RotatedY(a, c, s)[1] == a[1] && RotatedY(a, c, s)[3] == a[3]
    ensures RotatedZ(a, c, s)[2] == a[2] && RotatedZ(a, c, s)[3] == a[3]
  {
    RotatedXClosedForm(a, c, s);
    RotatedYClosedForm(a, c, s);
    RotatedZClosedForm(a, c, s);
  }

  /** (p, q) turned by (c, s) to (u, v) and back by (c, -s) to (p', q') is (p, q)
      again, when c and s are the cosine and sine of one angle. */
  lemma TurnBack(p: real, q: real, c: real, s: real, u: real, v: real, p': real, q': real)
    requires c * c + s * s == 1.0
    requires u == c * p - s * q && v == s * p + c * q
    requires p' == c * u - -s * v && q' == -s * u + c * v
    ensures p' == p && q' == q
  {
    assert p' == (c * c + s * s) * p;
    assert q' == (c * c + s * s) * q;
  }

  /** Turning (p, q) by (c, s) to (u, v) keeps the squared norm, when
      c*c + s*s == 1. */
  lemma TurnKeepsNorm(p: real, q: real, c: real, s: real, u: real, v: real)
    requires c * c + s * s == 1.0
    requires u == c * p - s * q && v == s * p + c * q
    ensures u * u + v * v == p * p + q * q
  {
    assert u * u + v * v == (c * c + s * s) * (p * p + q * q);
  }

  /** Rotating about the x axis by the opposite angle (c, -s) undoes a rotation by
      (c, s), when c*c + s*s == 1. */
  lemma RotatedXInverts(a: Coords, c: real, s: real)
    requires c * c + s * s == 1.0
    ensures RotatedX(RotatedX(a, c, s), c, -s) == a
  {
    var r := RotatedX(a, c, s);
    var b := RotatedX(r, c, -s);
    RotatedXClosedForm(a, c, s);
    RotatedXClosedForm(r, c, -s);
    TurnBack(a[1], a[2], c, s, r[1], r[2], b[1], b[2]);
    assert b[0] == a[0] && b[1] == a[1] && b[2] == a[2] && b[3] == a[3];
  }

  /** Rotating about the x axis keeps the squared length, when c*c + s*s == 1. */
  lemma RotatedXKeepsLength(a: Coords, c: real, s: real)
    requires c * c + s * s == 1.0
    ensures SquaredLength(RotatedX(a, c, s)) == SquaredLength(a)
  {
    var r := RotatedX(a, c, s);
    RotatedXClosedForm(a, c, s);
    TurnKeepsNorm(a[1], a[2], c, s, r[1], r[2]);
    assert SquaredLength(r) == r[0] * r[0] + r[1] * r[1] + r[2] * r[2];
  }

  /** Rotating about the y axis by the opposite angle (c, -s) undoes a rotation by
      (c, s), when c*c + s*s == 1. */
  lemma RotatedYInverts(a: Coords, c: real, s: real)
    requires c * c + s * s == 1.0
    ensures RotatedY(RotatedY(a, c, s), c, -s) == a
  {
    var r := RotatedY(a, c, s);
    var b := RotatedY(r, c, -s);
    RotatedYClosedForm(a, c, s);
    RotatedYClosedForm(r, c, -s);
    TurnBack(a[2], a[0], c, s, r[2], r[0], b[2], b[0]);
    assert b[0] == a[0] && b[1] == a[1] && b[2] == a[2] && b[3] == a[3];
  }

  /** Rotating about the y axis keeps the squared length, when c*c + s*s == 1. */
  lemma RotatedYKeepsLength(a: Coords, c: real, s: real)
    requires c * c + s * s == 1.0
    ensures SquaredLength(RotatedY(a, c, s)) == SquaredLength(a)
  {
    var r := RotatedY(a, c, s);
    RotatedYClosedForm(a, c, s);
    TurnKeepsNorm(a[2], a[0], c, s, r[2], r[0]);
    assert SquaredLength(r) == r[0] * r[0] + r[1] * r[1] + r[2] * r[2];
  }

  /** Rotating about the z axis by the opposite angle (c, -s) undoes a rotation by
      (c, s), when c*c + s*s == 1. */
  lemma RotatedZInverts(a: Coords, c: real, s: real)
    requires c * c + s * s == 1.0
    ensures RotatedZ(RotatedZ(a, c, s), c, -s) == a
  {
    var r := RotatedZ(a, c, s);
    var b := RotatedZ(r, c, -s);
    RotatedZClosedForm(a, c, s);
    RotatedZClosedForm(r, c, -s);
    TurnBack(a[0], a[1], c, s, r[0], r[1], b[0], b[1]);
    assert b[0] == a[0] && b[1] == a[1] && b[2] == a[2] && b[3] == a[3];
  }

  /** Rotating about the z axis keeps the squared length, when c*c + s*s == 1. */
  lemma RotatedZKeepsLength(a: Coords, c: real, s: real)
    requires c * c + s * s == 1.0
    ensures SquaredLength(RotatedZ(a, c, s)) == SquaredLength(a)
  {
    var r := RotatedZ(a, c, s);
    RotatedZClosedForm(a, c, s);
    TurnKeepsNorm(a[0], a[1], c, s, r[0], r[1]);
    assert SquaredLength(r) == r[0] * r[0] + r[1] * r[1] + r[2] * r[2];
  }
}
