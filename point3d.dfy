/** The Point3d class: a point kept as a 4-slot homogeneous array
    [x, y, z, 1] plus the cursor of its own iteration. Setters, translate,
    the rotations and next change the object in place; the arithmetic
    operators and cross return new points. */
module Points {
  import opened Errors
  import opened Homogeneous
  import opened Construction
  import opened Cursor

  class Point3d {
    /** The storage [x, y, z, w]. */
    var coords: array<real>
    /** The iteration cursor: the slot next() yields next. */
    var iter: nat

    /** The storage has four slots and the cursor stays within 0..3. The
        homogeneous slot is not part of it: p[3] = v may overwrite it. */
    ghost predicate Valid()
      reads this
    {
      coords.Length == 4 && iter <= 3
    }

    // -------------------------------------------------------------------------
    // Construction

    /** Point3d(x, y, z): the storage [x, y, z, 1] and a fresh cursor. */
    constructor FromScalars(x: real, y: real, z: real)
      ensures Valid() && fresh(coords)
      ensures coords[..] == Point(x, y, z) && iter == 0
    {
      var a := FreshArray(Point(x, y, z));
      coords := a;
      iter := 0;
    }

    /** A point over a fresh copy of the storage c. */
    constructor FromCoords(c: Coords)
      ensures Valid() && fresh(coords)
      ensures coords[..] == c && iter == 0
    {
      var a := FreshArray(c);
      coords := a;
      iter := 0;
    }

    /** Point3d(p) for a point p: p's storage is copied, without any check,
        into fresh storage. */
    constructor Clone(p: Point3d)
      requires p.Valid()
      ensures Valid() && fresh(coords)
      ensures coords[..] == p.coords[..] && iter == 0
    {
      var a := FreshArray(p.coords[..]);
      coords := a;
      iter := 0;
    }

    /** Point3d(arg) for a scalar triple, a list, a tuple or an array: a new
        point over the storage Build gives, or the ValueError it raises. */
    static method New(arg: Arg) returns (r: Result<Point3d>)
      ensures r.Ok? <==> Build(arg).Ok?
      ensures r.Ok? ==> fresh(r.value) && fresh(r.value.coords) && r.value.Valid()
      ensures r.Ok? ==> r.value.coords[..] == Build(arg).value && r.value.iter == 0
      ensures r.Err? ==> r.error == Build(arg).error
    {
      var built := Build(arg);
      if built.Ok? {
        var p := new Point3d.FromCoords(built.value);
        r := Ok(p);
      } else {
        r := Err(built.error);
      }
    }

    /** copy(): builds a new point from the storage taken as an array, so it
        succeeds exactly when the homogeneous slot is still 1. */
    method Copy() returns (r: Result<Point3d>)
      requires Valid()
      ensures r.Ok? <==> coords[3] == 1.0
      ensures r.Ok? ==> fresh(r.value) && fresh(r.value.coords) && r.value.Valid()
      ensures r.Ok? ==> r.value.coords[..] == coords[..] && r.value.iter == 0
      ensures r.Err? ==> r.error == ValueError(ArrayMessage)
    {
      r := New(NdArray(1, coords[..]));
    }

    // -------------------------------------------------------------------------
    // Component access

    /** p.x: the slot that indices 0 and -4 also read. */
    function X(): (r: real)
      reads this, coords
      requires Valid()
      ensures Get(0) == Get(-4) == Ok(r)
    {
      coords[0]
    }

    /** p.y: the slot that indices 1 and -3 also read. */
    function Y(): (r: real)
      reads this, coords
      requires Valid()
      ensures Get(1) == Get(-3) == Ok(r)
    {
      coords[1]
    }

    /** p.z: the slot that indices 2 and -2 also read. */
    function Z(): (r: real)
      reads this, coords
      requires Valid()
      ensures Get(2) == Get(-2) == Ok(r)
    {
      coords[2]
    }

    /** p[key]: the slot Python indexing selects, or IndexError. */
    function Get(key: int): (r: Result<real>)
      reads this, coords
      requires Valid()
      ensures r.Ok? <==> -4 <= key < 4
      ensures r.Ok? ==> exists i :: 0 <= i < 4 && i % 4 == key % 4 && r.value == coords[i]
      ensures r.Err? ==> r.error == IndexError
    {
      var slot := SlotOf(key);
      if slot.Ok? then Ok(coords[slot.value]) else Err(slot.error)
    }

    /** x, y and z read the same storage as indices 0, 1, 2 (and -4, -3, -2),
        and index 3 (and -1) exposes the homogeneous slot. */
    lemma Aliases()
      requires Valid()
      ensures Get(0) == Get(-4) == Ok(X())
      ensures Get(1) == Get(-3) == Ok(Y())
      ensures Get(2) == Get(-2) == Ok(Z())
      ensures Get(3) == Get(-1) == Ok(coords[3])
    {
    }

    /** p.x = v: slot 0 becomes v; nothing else changes. */
    method SetX(v: real)
      requires Valid()
      modifies coords
      ensures Valid() && coords[..] == old(coords[..])[0 := v]
    {
      coords[0] := v;
    }

    /** p.y = v: slot 1 becomes v; nothing else changes. */
    method SetY(v: real)
      requires Valid()
      modifies coords
      ensures Valid() && coords[..] == old(coords[..])[1 := v]
    {
      coords[1] := v;
    }

    /** p.z = v: slot 2 becomes v; nothing else changes. */
    method SetZ(v: real)
      requires Valid()
      modifies coords
      ensures Valid() && coords[..] == old(coords[..])[2 := v]
    {
      coords[2] := v;
    }

    /** p[key] = v: the slot Python indexing selects becomes v and nothing
        else changes; a key outside -4..3 raises IndexError and changes
        nothing. */
    method SetItem(key: int, v: real) returns (r: Result<()>)
      requires Valid()
      modifies coords
      ensures Valid()
      ensures r.Ok? <==> -4 <= key < 4
      ensures r.Ok? ==> coords[..] == old(coords[..])[SlotOf(key).value := v]
      ensures r.Err? ==> r.error == IndexError && coords[..] == old(coords[..])
    {
      var slot := SlotOf(key);
      if slot.Ok? {
        coords[slot.value] := v;
        r := Ok(());
      } else {
        r := Err(slot.error);
      }
    }

    // -------------------------------------------------------------------------
    // Operators

    /** p + q: a new point; neither operand changes. */
    method Add(other: Point3d) returns (r: Point3d)
      requires Valid() && other.Valid()
      ensures fresh(r) && fresh(r.coords) && r.Valid() && r.iter == 0
      ensures r.coords[..] == Sum(coords[..], other.coords[..])
    {
      r := new Point3d.FromScalars(X() + other.X(), Y() + other.Y(), Z() + other.Z());
    }

    /** p - q: a new point; neither operand changes. */
    method Sub(other: Point3d) returns (r: Point3d)
      requires Valid() && other.Valid()
      ensures fresh(r) && fresh(r.coords) && r.Valid() && r.iter == 0
      ensures r.coords[..] == Difference(coords[..], other.coords[..])
    {
      r := new Point3d.FromScalars(X() - other.X(), Y() - other.Y(), Z() - other.Z());
    }

    /** p * k: a new point; p does not change. */
    method Mul(k: real) returns (r: Point3d)
      requires Valid()
      ensures fresh(r) && fresh(r.coords) && r.Valid() && r.iter == 0
      ensures r.coords[..] == Scaled(coords[..], k)
    {
      r := new Point3d.FromScalars(X() * k, Y() * k, Z() * k);
      ghost var want := Scaled(old(coords[..]), k);
      assert r.coords[0] == want[0] && r.coords[1] == want[1] && r.coords[2] == want[2];
    }

    /** +p: the very same object, not a copy. */
    method Pos() returns (r: Point3d)
      ensures r == this
    {
      r := this;
    }

    /** -p: computed as p * -1, a new point. */
    method Neg() returns (r: Point3d)
      requires Valid()
      ensures fresh(r) && fresh(r.coords) && r.Valid() && r.iter == 0
      ensures r.coords[..] == Negated(coords[..])
    {
      r := Mul(-1.0);
    }

    /** p.dot(q): the dot product of the full storages; for two points with
        w == 1 that is the 3-D dot product plus 1. */
    function Dot(other: Point3d): (r: real)
      reads this, coords, other, other.coords
      requires Valid() && other.Valid()
      ensures IsPoint(coords[..]) && IsPoint(other.coords[..]) ==>
                r == X() * other.X() + Y() * other.Y() + Z() * other.Z() + 1.0
      ensures r == DotProduct(other.coords[..], coords[..])
    {
      DotProduct4(coords[..], other.coords[..]);
      DotSymmetric(coords[..], other.coords[..]);
      DotProduct(coords[..], other.coords[..])
    }

    /** p.cross(q): a new point built from the list of the three components of
        the cross product. */
    method Cross(other: Point3d) returns (r: Point3d)
      requires Valid() && other.Valid()
      ensures fresh(r) && fresh(r.coords) && r.Valid() && r.iter == 0
      ensures r.coords[..] == CrossProduct(coords[..], other.coords[..])
    {
      var c := CrossProduct(coords[..], other.coords[..]);
      var built := New(List([c[0], c[1], c[2]]));
      SequencesMatchScalars(c[0], c[1], c[2]);
      r := built.value;
    }

    // -------------------------------------------------------------------------
    // Iteration

    /** iter(p): the point is its own iterator; the cursor is not reset. */
    method Iter() returns (r: Point3d)
      ensures r == this
    {
      r := this;
    }

    /** next(): one step of the cursor state machine. */
    method Next() returns (y: Yield)
      requires Valid()
      modifies this`iter
      ensures Valid()
      ensures (y, iter) == Step(coords[..], old(iter))
    {
      if iter >= coords.Length - 1 {
        iter := 0;
        y := Stop;
      } else {
        iter := iter + 1;
        y := Value(coords[iter - 1]);
      }
    }

    // -------------------------------------------------------------------------
    // Transformations

    /** translate(v): adds v's x, y, z to this point in place; w and the
        cursor are kept, and v's storage changes only if it is this point's. */
    method Translate(v: Point3d)
      requires Valid() && v.Valid()
      modifies coords
      ensures Valid()
      ensures coords[..] == Translated(old(coords[..]), old(v.coords[..]))
      ensures v.coords != coords ==> v.coords[..] == old(v.coords[..])
    {
      coords[0] := coords[0] + v.coords[0];
      coords[1] := coords[1] + v.coords[1];
      coords[2] := coords[2] + v.coords[2];
    }

    /** rotateX for an angle with cosine c and sine s: the storage is replaced
        by a new array holding the rotation matrix times the old storage. */
    method RotateX(c: real, s: real)
      requires Valid()
      modifies this
      ensures Valid() && fresh(coords) && iter == old(iter)
      ensures coords[..] == RotatedX(old(coords[..]), c, s)
    {
      coords := FreshArray(RotatedX(coords[..], c, s));
    }

    /** rotateY for an angle with cosine c and sine s, as rotateX. */
    method RotateY(c: real, s: real)
      requires Valid()
      modifies this
      ensures Valid() && fresh(coords) && iter == old(iter)
      ensures coords[..] == RotatedY(old(coords[..]), c, s)
    {
      coords := FreshArray(RotatedY(coords[..], c, s));
    }

    /** rotateZ for an angle with cosine c and sine s, as rotateX. */
    method RotateZ(c: real, s: real)
      requires Valid()
      modifies this
      ensures Valid() && fresh(coords) && iter == old(iter)
      ensures coords[..] == RotatedZ(old(coords[..]), c, s)
    {
      coords := FreshArray(RotatedZ(coords[..], c, s));
    }
  }

  /** A new array holding the four slots of c. */
  method FreshArray(c: Coords) returns (a: array<real>)
    ensures fresh(a) && a[..] == c
  {
    a := new real[4];
    a[0], a[1], a[2], a[3] := c[0], c[1], c[2], c[3];
  }

  /** A copy made with Point3d(p) owns its storage: setting its x leaves p as
      it was. */
  method CopyIsIndependent(p: Point3d, v: real) returns (q: Point3d)
    requires p.Valid()
    ensures fresh(q) && q.Valid()
    ensures q.coords[..] == old(p.coords[..])[0 := v]
    ensures p.coords[..] == old(p.coords[..])
  {
    q := new Point3d.Clone(p);
    q.SetX(v);
  }
}
