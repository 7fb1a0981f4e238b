/** Values shared by the track, player and icon models: the engine's vectors,
    its integer random draw, and counting of boolean flags. */
module Common {

  /** Unity's Vector3; the engine's float components are modelled as reals. */
  datatype Vec3 = Vec3(x: real, y: real, z: real)

  /** Unity's Vector2 (movement input and the smoothed input vector). */
  datatype Vec2 = Vec2(x: real, y: real)

  function Add(a: Vec3, b: Vec3): Vec3 {
    Vec3(a.x + b.x, a.y + b.y, a.z + b.z)
  }

  /** `v * s`: a vector scaled component-wise by a scalar. */
  function Scale(v: Vec3, s: real): Vec3 {
    Vec3(v.x * s, v.y * s, v.z * s)
  }

  /** The rotation `Quaternion.Euler(0, 180, 0)` applied to a vector:
      half a turn about the y axis. */
  function Rotate180Y(v: Vec3): Vec3 {
    Vec3(-v.x, v.y, -v.z)
  }

  /** Unity's integer `Random.Range(lo, hi)`. The generator's raw output is
      supplied as `u`; the result lies in [lo, hi), and is `lo` when the range
      is empty. */
  function RandomRange(lo: int, hi: int, u: nat): (r: int)
    ensures hi > lo ==> lo <= r < hi
    ensures hi <= lo ==> r == lo
  {
    if hi > lo then lo + u % (hi - lo) else lo
  }

  /** No value of a non-empty range is excluded: every v in [lo, hi) is the
      draw for some raw output. */
  lemma RandomRangeCovers(lo: int, hi: int, v: int)
    requires lo <= v < hi
    ensures RandomRange(lo, hi, (v - lo) as nat) == v
  {
    var d := v - lo;
    assert 0 <= d < hi - lo;
    assert d % (hi - lo) == d;
  }

  /** The number of true entries of `bs`. */
  function CountTrue(bs: seq<bool>): (r: nat)
    ensures r <= |bs|
  {
    if |bs| == 0 then 0
    else CountTrue(bs[..|bs| - 1]) + (if bs[|bs| - 1] then 1 else 0)
  }

  /** No entry is true exactly when the count is zero. */
  lemma {:induction false} CountTrueZero(bs: seq<bool>)
    ensures CountTrue(bs) == 0 <==> forall i :: 0 <= i < |bs| ==> !bs[i]
  {
    if |bs| > 0 {
      var p := bs[..|bs| - 1];
      CountTrueZero(p);
      assert forall i :: 0 <= i < |p| ==> p[i] == bs[i];
    }
  }

  /** Clearing an entry that was true lowers the count by exactly one;
      clearing one that was false leaves it as it was. */
  lemma {:induction false} CountTrueClear(bs: seq<bool>, k: nat)
    requires k < |bs|
    ensures CountTrue(bs[k := false]) == CountTrue(bs) - (if bs[k] then 1 else 0)
  {
    var n := |bs|;
    var cs := bs[k := false];
    if k == n - 1 {
      assert cs[..n - 1] == bs[..n - 1];
    } else {
      assert cs[..n - 1] == bs[..n - 1][k := false];
      CountTrueClear(bs[..n - 1], k);
    }
  }

  /** A count of one means a single index is true and all others false,
      and conversely. */
  lemma {:induction false} CountTrueOne(bs: seq<bool>, k: nat)
    requires k < |bs| && bs[k]
    ensures CountTrue(bs) == 1 <==> forall i :: 0 <= i < |bs| && i != k ==> !bs[i]
  {
    var cs := bs[k := false];
    CountTrueClear(bs, k);
    CountTrueZero(cs);
    assert (forall i :: 0 <= i < |cs| ==> !cs[i]) <==> (forall i :: 0 <= i < |bs| && i != k ==> !bs[i]) by {
      assert forall i :: 0 <= i < |bs| && i != k ==> cs[i] == bs[i];
      assert !cs[k];
    }
  }
}
