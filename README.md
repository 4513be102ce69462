# Point3d in Dafny

A model of `Point3d`, a 3-D point kept as a homogeneous 4-slot array
`coords = [x, y, z, 1]` together with an iteration cursor `iter`.

- `errors.dfy` (module `Errors`): the two exceptions the class raises, `ValueError` (constructor) and
  `IndexError` (indexing), and a `Result` type that carries them.
- `homogeneous.dfy` (module `Homogeneous`): the storage as a value (`Coords`, a sequence of four reals)
  and the pure operations on it. These are `+`, `-`, scalar `*`, unary `-`, `dot` (numpy's dot over all
  four slots), `cross`, translation, and the three axis rotations as 4x4 matrix-vector products. Python
  indexing (`SlotOf`) is also here. The lemmas cover the round trips, symmetry, anti-commutativity,
  orthogonality, fixed axes, inverse rotations and kept lengths.
- `construction.dfy` (module `Construction`): the constructor's argument kinds as a datatype (`Arg`:
  scalars, list, tuple, numpy array with its number of dimensions). `Build` gives the storage each one
  yields, or the `ValueError` with the source's message.
- `cursor.dfy` (module `Cursor`): `next()` as a state machine over the cursor (`Step`), and sequences of
  calls (`Run`). The lemmas show that a pass yields x, y, z and then stops without ever yielding slot 3.
  A pass already under way resumes where it was, and the iteration restarts after every pass.
- `point3d.dfy` (module `Points`): the class `Point3d` with an `array<real>` of length 4 and the cursor
  field. Setters, `translate`, the rotations and `next` are methods that change the object in place.
  The operators return fresh points whose storage is given by the functions of `Homogeneous`.

Coordinates are Dafny `real`s in place of float64, so every property holds exactly. The rotations take
the cosine `c` and the sine `s` of the angle as parameters. Where a property needs a real angle, it
assumes `c*c + s*s == 1`.

Three behaviours of the code are easy to miss:

- `copy()` is not the same as `Point3d(self)`. It calls `Point3d(self.coords)`, which goes through the
  array branch of the constructor. So it raises `ValueError` when the homogeneous slot is no longer 1,
  which `p[3] = v` can cause (`Points.Point3d.Copy`). `Point3d(p)` copies without any check
  (`Points.Point3d.Clone`).
- Indexing uses numpy's rules. Keys -4..-1 count from the end. Any other key outside 0..3 raises
  `IndexError`.
- The rotations assign a new array to `coords` rather than writing into the old one.

## Model

| member | source | states |
|---|---|---|
| Homogeneous.SlotOf | point3d.py:56-57 | a key selects a slot exactly when it lies in -4..3; the slot is the key modulo 4; any other key raises IndexError |
| Homogeneous.Sum | point3d.py:80-84 | `p + q` re-establishes the homogeneous slot: the result has w == 1 |
| Homogeneous.Difference | point3d.py:86-90 | `p - q` has w == 1 |
| Homogeneous.Scaled | point3d.py:92-96 | `p * k` has w == 1 |
| Homogeneous.Negated | point3d.py:110-111 | `-p`, computed as `p * -1`, has w == 1 |
| Homogeneous.CrossProduct | point3d.py:101-105 | `cross` has w == 1 |
| Homogeneous.Translated | point3d.py:127-130 | translation keeps the homogeneous slot of the receiver |
| Homogeneous.SquaredLength | point3d.py:124-125 | the square of `length()` is never negative |
| Homogeneous.SubUndoesAdd | point3d.py:80-90 | `(p + q) - q` has the x, y, z of p, and is p itself when p has w == 1 |
| Homogeneous.AddOrigin | point3d.py:80-84 | adding the origin to a point gives the same point |
| Homogeneous.ScaledDistributes | point3d.py:92-96 | `p * k` multiplies each of x, y, z by k, and scaling distributes over `+` |
| Homogeneous.NegatedIsInverse | point3d.py:107-111 | `p + -p` is the origin; negating twice gives back a point |
| Homogeneous.DotProduct4 | point3d.py:98-99 | `dot` sums the products of all four slots, the homogeneous one included |
| Homogeneous.DotSymmetric | point3d.py:98-99 | `dot` is symmetric for vectors of any length (proved by induction) |
| Homogeneous.DotOfPoints | point3d.py:98-99 | for two points with w == 1, `dot` is x1*x2 + y1*y2 + z1*z2 + 1 and is symmetric |
| Homogeneous.CrossAntiCommutes | point3d.py:101-105 | `b.cross(a)` is `-(a.cross(b))` |
| Homogeneous.CrossOrthogonal | point3d.py:101-105 | the x, y, z of `a.cross(b)` are orthogonal to those of a and of b |
| Homogeneous.CrossDotPointIsOne | point3d.py:98-105 | because `dot` includes the homogeneous term, `a.cross(b).dot(a)` is 1 rather than 0 for a point a |
| Homogeneous.UnitAxes | point3d.py:98-105 | `i.dot(j)` is 1, `i.cross(j)` is k and `j.cross(i)` is -k |
| Homogeneous.TranslatedIsSum | point3d.py:127-130 | translating a point by v equals `p + v`; translating by -v undoes translating by v |
| Homogeneous.RotatedXClosedForm | point3d.py:132-139 | the rotateX matrix product keeps x and w and turns (y, z) by (c, s) |
| Homogeneous.RotatedYClosedForm | point3d.py:141-148 | the rotateY matrix product keeps y and w and turns (z, x) by (c, s) |
| Homogeneous.RotatedZClosedForm | point3d.py:150-157 | the rotateZ matrix product keeps z and w and turns (x, y) by (c, s) |
| Homogeneous.RotationsFixTheirAxis | point3d.py:132-157 | for any c and s, each rotation leaves its own axis slot and slot 3 unchanged |
| Homogeneous.RotatedXInverts | point3d.py:132-139 | when c*c + s*s == 1, rotateX by (c, -s) undoes rotateX by (c, s) |
| Homogeneous.RotatedYInverts | point3d.py:141-148 | the same for rotateY |
| Homogeneous.RotatedZInverts | point3d.py:150-157 | the same for rotateZ |
| Homogeneous.RotatedXKeepsLength | point3d.py:132-139 | when c*c + s*s == 1, rotateX keeps x*x + y*y + z*z |
| Homogeneous.RotatedYKeepsLength | point3d.py:141-148 | the same for rotateY |
| Homogeneous.RotatedZKeepsLength | point3d.py:150-157 | the same for rotateZ |
| Construction.Build | point3d.py:11-38 | every accepted argument builds a storage with w == 1; every rejection is a ValueError |
| Construction.SequencesMatchScalars | point3d.py:12-25 | a list or tuple of three numbers builds the same storage `[a, b, c, 1]` as the three scalars |
| Construction.SequenceLengthChecked | point3d.py:12-25 | a list or tuple is accepted exactly when its length is 3, keeps its elements in order, and otherwise raises its own ValueError |
| Construction.ArrayChecked | point3d.py:26-34 | an array is accepted exactly when it has one dimension, size 4 and a last element of exactly 1, and is then copied verbatim; otherwise ValueError |
| Construction.Examples | point3d.py:11-38 | `Point3d()` is the origin; `[1,2,3,0]` is rejected; `[1,2,3,1]` equals `Point3d(1,2,3)` |
| Cursor.Step | point3d.py:116-122 | one `next` leaves the cursor in 0..3, yields only one of slots 0..2, and signals stop exactly when it resets the cursor to 0 |
| Cursor.Run | point3d.py:116-122 | n calls of `next` give n outcomes and keep the cursor in 0..3 |
| Cursor.ResumeFrom | point3d.py:113-122 | from a cursor k in 0..3, `next` yields slots k..2 in order, then stops and resets; `__iter__` does not restart the pass |
| Cursor.OnePass | point3d.py:116-122 | from cursor 0, `next` yields x, y, z, then stops, leaving the cursor at 0 |
| Cursor.RunSplits | point3d.py:116-122 | n + m calls are n calls followed by m calls from the cursor they leave |
| Cursor.Restartable | point3d.py:113-122 | every pass from a fresh cursor yields x, y, z and stop again |
| Points.Point3d.FromCoords | point3d.py:11-40 | the step every constructor branch shares: fresh storage holding the given four slots, and cursor 0 |
| Points.Point3d.FromScalars | point3d.py:37-40 | `Point3d(x, y, z)` has fresh storage `[x, y, z, 1]` and cursor 0 |
| Points.Point3d.Clone | point3d.py:35-36 | `Point3d(p)` has fresh storage equal to p's, unchecked, and cursor 0 |
| Points.Point3d.New | point3d.py:11-40 | construction succeeds exactly when Build does, with fresh storage and cursor 0, and otherwise raises Build's ValueError |
| Points.Point3d.Copy | point3d.py:42-43 | `copy()` succeeds exactly when slot 3 is 1, and then gives equal storage in a fresh array |
| Points.Point3d.X | point3d.py:46-50 | `p.x` reads slot 0, the slot that indices 0 and -4 read |
| Points.Point3d.Y | point3d.py:46-52 | `p.y` reads slot 1, the slot that indices 1 and -3 read |
| Points.Point3d.Z | point3d.py:46-54 | `p.z` reads slot 2, the slot that indices 2 and -2 read |
| Points.Point3d.Get | point3d.py:56-57 | `p[key]` succeeds exactly for keys in -4..3 and reads the slot congruent to the key modulo 4; any other key raises IndexError |
| Points.Point3d.Aliases | point3d.py:46-57 | x, y, z read the same slots as indices 0, 1, 2 and -4, -3, -2; index 3 and -1 read the homogeneous slot |
| Points.Point3d.SetX | point3d.py:59-63 | `p.x = v` changes slot 0 only; the cursor is not in the frame |
| Points.Point3d.SetY | point3d.py:59-65 | `p.y = v` changes slot 1 only |
| Points.Point3d.SetZ | point3d.py:59-67 | `p.z = v` changes slot 2 only |
| Points.Point3d.SetItem | point3d.py:71-72 | `p[key] = v` changes exactly the selected slot; a bad key raises IndexError and changes nothing |
| Points.Point3d.Add | point3d.py:80-84 | `p + q` is a fresh point with storage `Sum`; neither operand is in the frame |
| Points.Point3d.Sub | point3d.py:86-90 | `p - q` is a fresh point with storage `Difference` |
| Points.Point3d.Mul | point3d.py:92-96 | `p * k` is a fresh point with storage `Scaled` |
| Points.Point3d.Pos | point3d.py:107-108 | `+p` is the very same object |
| Points.Point3d.Neg | point3d.py:110-111 | `-p` is a fresh point with the storage of `p * -1` |
| Points.Point3d.Dot | point3d.py:98-99 | `p.dot(q)` is symmetric and, for two points with w == 1, equals x1*x2 + y1*y2 + z1*z2 + 1 |
| Points.Point3d.Cross | point3d.py:101-105 | `p.cross(q)` is a fresh point built through the list branch, with storage `CrossProduct` |
| Points.Point3d.Iter | point3d.py:113-114 | `iter(p)` is p itself and leaves the cursor where it is |
| Points.Point3d.Next | point3d.py:116-122 | `next` performs one `Step` of the cursor state machine on the storage |
| Points.Point3d.Translate | point3d.py:127-130 | `translate(v)` adds v's x, y, z in place, keeps w and the cursor, and leaves v unchanged unless v is this point |
| Points.Point3d.RotateX | point3d.py:132-139 | `rotateX` replaces the storage with a fresh array holding the rotateX matrix product; the cursor is kept |
| Points.Point3d.RotateY | point3d.py:141-148 | the same for rotateY |
| Points.Point3d.RotateZ | point3d.py:150-157 | the same for rotateZ |
| Points.CopyIsIndependent | point3d.py:35-36 | setting x on a copy made with `Point3d(p)` leaves p as it was |

## Left out

- `length()` needs a square root. Only its square is modelled (`SquaredLength`).
- `__repr__` and `__str__` depend on the platform's float-to-string formatting.
- The demo script after `if __name__ == '__main__'` is I/O. So are the diagnostic prints on the failing
  array path. Any array for which `x[3]` itself fails (fewer than four elements or rows, or
  zero dimensions) makes those prints raise IndexError rather than ValueError; the model reports every
  such case as a ValueError.
- Rotations: `np.cos` and `np.sin` are foreign calls. The rotations take the cosine and the sine as
  parameters instead of the angle.
- Float64 rounding is not modelled. Coordinates are reals, so the round trips hold exactly where the
  source holds them only approximately.
- Constructor arguments:
  - Arrays of more than one dimension are modelled only by their dimension count, which is enough to
    reject them.
  - Elements that are not numbers are not modelled.
  - Subclasses of list or tuple are not modelled. The source compares exact types, so these fall
    through to the scalar branch.
- Python's attribute hooks:
  - `__getattr__` returns None for any other unknown attribute. This is not modelled.
  - `__setattr__` stores any other name normally. Assigning to `iter` directly is not modelled.
  - Reassigning `coords` to an array other than four elements is not modelled.
- Indexing with slices or numpy integer arrays is not modelled; keys are integers.
- `p * q` with a point as the right operand is not modelled; the scalar is a real.
- `+=`, `-=` and `*=` rebind the variable to the result of `+`, `-` or `*`. They are not separate
  operations of the class.
- The class invariant does not include w == 1, because `p[3] = v` can overwrite the homogeneous slot.
