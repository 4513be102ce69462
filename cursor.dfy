/** The iteration protocol of Point3d as a state machine over the cursor
    field: each call of next either yields the slot under the cursor and
    advances it, or signals the end of the pass and resets the cursor to 0. */
module Cursor {
  import opened Homogeneous

  /** The outcome of one call of next: a value, or StopIteration. */
  datatype Yield = Value(v: real) | Stop

  /** One call of next on storage c with the cursor at `cursor`: the pass ends
      once the cursor reaches the last slot, so the homogeneous slot is never
      yielded. Returns the outcome and the new cursor. */
  function Step(c: Coords, cursor: nat): (r: (Yield, nat))
    ensures r.1 <= 3
    ensures r.0.Value? ==> r.0.v in c[..3]
    ensures r.0.Stop? <==> r.1 == 0
  {
    if cursor >= |c| - 1 then (Stop, 0)
    else (Value(c[cursor]), cursor + 1)
  }

  /** The outcomes of n successive calls of next from `cursor`, and the cursor
      they leave behind. */
  function Run(c: Coords, cursor: nat, n: nat): (r: (seq<Yield>, nat))
    ensures |r.0| == n
    ensures cursor <= 3 ==> r.1 <= 3
    ensures n > 0 ==> r.1 <= 3
    decreases n
  {
    if n == 0 then ([], cursor)
    else
      var first := Step(c, cursor);
      var rest := Run(c, first.1, n - 1);
      ([first.0] + rest.0, rest.1)
  }

  /** The values of a sequence, each wrapped as an outcome of next. */
  function Values(s: seq<real>): (r: seq<Yield>)
  {
    seq(|s|, i requires 0 <= i < |s| => Value(s[i]))
  }

  /** The outcomes of one full pass from a fresh cursor. */
  function Pass(c: Coords): seq<Yield>
  {
    [Value(c[0]), Value(c[1]), Value(c[2]), Stop]
  }

  /** `passes` passes, one after the other. */
  function Repeat(t: seq<Yield>, passes: nat): (r: seq<Yield>)
    ensures |r| == |t| * passes
  {
    if passes == 0 then [] else t + Repeat(t, passes - 1)
  }

  /** From any cursor k within 0..3, next yields the slots k..2 in order,
      then signals the end and resets the cursor: nothing restarts a pass that
      is under way. */
  lemma {:induction false} ResumeFrom(c: Coords, k: nat)
    requires k <= 3
    ensures Run(c, k, 4 - k) == (Values(c[k..3]) + [Stop], 0)
    decreases 3 - k
  {
    if k == 3 {
      assert Step(c, 3) == (Stop, 0);
      assert Run(c, 0, 0) == ([], 0);
      assert Run(c, 3, 1) == ([Stop] + [], 0);
      assert [Stop] + [] == [Stop] == Values(c[3..3]) + [Stop];
      assert Run(c, 3, 1) == ([Stop], 0);
    } else {
      ResumeFrom(c, k + 1);
      assert Step(c, k) == (Value(c[k]), k + 1);
      assert Run(c, k, 4 - k).0 == [Value(c[k])] + Run(c, k + 1, 4 - (k + 1)).0;
      assert Run(c, k, 4 - k).1 == Run(c, k + 1, 4 - (k + 1)).1;
      assert Values(c[k..3]) == [Value(c[k])] + Values(c[k + 1..3]);
      assert [Value(c[k])] + (Values(c[k + 1..3]) + [Stop]) == Values(c[k..3]) + [Stop];
    }
  }

  /** From a fresh cursor, next yields x, y, z in order, then signals the end
      and leaves the cursor at 0. */
  lemma OnePass(c: Coords)
    ensures Run(c, 0, 4) == (Pass(c), 0)
  {
    ResumeFrom(c, 0);
    assert Values(c[0..3]) + [Stop] == Pass(c);
  }

  /** n + m calls are n calls followed by m calls from where they left off. */
  lemma {:induction false} RunSplits(c: Coords, k: nat, n: nat, m: nat)
    ensures Run(c, k, n + m).0 == Run(c, k, n).0 + Run(c, Run(c, k, n).1, m).0
    ensures Run(c, k, n + m).1 == Run(c, Run(c, k, n).1, m).1
    decreases n
  {
    if n > 0 {
      var first := Step(c, k);
      RunSplits(c, first.1, n - 1, m);
      assert Run(c, k, n + m).0 == [first.0] + Run(c, first.1, n - 1 + m).0;
    }
  }

  /** The iteration is restartable: from a fresh cursor, every pass yields x,
      y, z and the end signal again, and the cursor is back at 0 after each. */
  lemma {:induction false} Restartable(c: Coords, passes: nat)
    ensures Run(c, 0, 4 * passes) == (Repeat(Pass(c), passes), 0)
    decreases passes
  {
    if passes > 0 {
      RunSplits(c, 0, 4, 4 * (passes - 1));
      OnePass(c);
      Restartable(c, passes - 1);
    }
  }
}
