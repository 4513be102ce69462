/** The arguments the Point3d constructor accepts, and the storage it builds
    from each of them or the ValueError it raises instead. A Point3d argument
    is handled by the class itself (Points.Point3d.Clone), since copying reads
    the other point's storage. */
module Construction {
  import opened Errors
  import opened Homogeneous

  /** The kinds of argument the constructor branches on: three scalars, a
      list, a tuple, or a numpy array given by its number of dimensions and
      its elements. */
  datatype Arg =
    | Scalars(x: real, y: real, z: real)
    | List(items: seq<real>)
    | Tuple(items: seq<real>)
    | NdArray(ndim: nat, items: seq<real>)

  /** Point3d() with no argument: the scalars default to 0. */
  const Default: Arg := Scalars(0.0, 0.0, 0.0)

  const ListMessage := "To create a Point3d with a list it must have length 3"
  const TupleMessage := "To create a Point3d with a tuple it must have length 3"
  const ArrayMessage := "To create a Point3d with an np.array it must have ndim 1, size 4, and the last element must be 1"

  /** The storage built from an argument: a list or tuple of length 3 gets the
      homogeneous 1 appended, a one-dimensional array of four elements whose
      last is 1 is taken as it is, and anything else raises ValueError. */
  function Build(arg: Arg): (r: Result<Coords>)
    ensures r.Ok? ==> IsPoint(r.value)
    ensures r.Err? ==> r.error.ValueError?
  {
    match arg
    case Scalars(x, y, z) => Ok(Point(x, y, z))
    case List(s) =>
      if |s| == 3 then Ok(s + [1.0]) else Err(ValueError(ListMessage))
    case Tuple(s) =>
      if |s| == 3 then Ok(s + [1.0]) else Err(ValueError(TupleMessage))
    case NdArray(d, s) =>
      if d == 1 && |s| == 4 && s[3] == 1.0 then Ok(s) else Err(ValueError(ArrayMessage))
  }

  /** A list or tuple of three numbers builds the same point as the three
      numbers given as scalars. */
  lemma SequencesMatchScalars(x: real, y: real, z: real)
    ensures Build(List([x, y, z])) == Ok(Point(x, y, z))
    ensures Build(Tuple([x, y, z])) == Ok(Point(x, y, z))
    ensures Build(Scalars(x, y, z)) == Ok(Point(x, y, z))
  {
    assert [x, y, z] + [1.0] == Point(x, y, z);
  }

  /** A list or tuple is accepted exactly when it has three elements, and
      then its elements are x, y, z in order. */
  lemma SequenceLengthChecked(s: seq<real>)
    ensures Build(List(s)).Ok? <==> |s| == 3
    ensures Build(Tuple(s)).Ok? <==> |s| == 3
    ensures |s| == 3 ==> Build(List(s)).value[..3] == s && Build(Tuple(s)).value[..3] == s
    ensures |s| != 3 ==> Build(List(s)) == Err(ValueError(ListMessage))
    ensures |s| != 3 ==> Build(Tuple(s)) == Err(ValueError(TupleMessage))
  {
  }

  /** An array is accepted exactly when it is one-dimensional, has four
      elements and its last is exactly 1; it is then copied verbatim. */
  lemma ArrayChecked(d: nat, s: seq<real>)
    ensures Build(NdArray(d, s)).Ok? <==> d == 1 && |s| == 4 && s[3] == 1.0
    ensures Build(NdArray(d, s)).Ok? ==> Build(NdArray(d, s)).value == s
    ensures Build(NdArray(d, s)).Err? ==> Build(NdArray(d, s)).error == ValueError(ArrayMessage)
  {
  }

  /** Point3d() is the origin; np.array([1, 2, 3, 0]) is rejected while
      np.array([1, 2, 3, 1]) builds the same point as Point3d(1, 2, 3). */
  lemma Examples()
    ensures Build(Default) == Ok(Point(0.0, 0.0, 0.0))
    ensures Build(NdArray(1, [1.0, 2.0, 3.0, 0.0])).Err?
    ensures Build(NdArray(1, [1.0, 2.0, 3.0, 1.0])) == Build(Scalars(1.0, 2.0, 3.0))
  {
  }
}
