/**
 * Per-axis conversion between voxel indices and the scene's unit coordinates,
 * as done by the position fields of src/GuiController.js. Each axis carries
 * its own descriptor; the three axes never mix.
 */
module AxisConversion {
  import opened Geometry

  /** One axis of the dataset: `{originalSize, finalSize, offset, reversed}`. */
  datatype Axis = Axis(originalSize: real, finalSize: real, offset: real, reversed: bool)

  datatype AxisInfo = AxisInfo(x: Axis, y: Axis, z: Axis)

  /**
   * A double computed from finite inputs. A division by zero anywhere in the
   * conversion leaves an infinity or NaN, which `NonFinite` stands for.
   */
  datatype Num = Finite(value: real) | NonFinite

  datatype NumTriple = NumTriple(x: Num, y: Num, z: Num)

  /** Both sizes are non-zero, so the conversions divide by non-zero numbers only. */
  predicate Invertible(a: Axis) {
    a.originalSize != 0.0 && a.finalSize != 0.0
  }

  predicate AllInvertible(info: AxisInfo) {
    Invertible(info.x) && Invertible(info.y) && Invertible(info.z)
  }

  /**
   * Voxel to unit on one axis: normalise by the original size, flip if the
   * axis is reversed, then rescale to the final size and shift by the offset.
   * The original size cancels: the result is `(v + offset) / finalSize`, or
   * `(originalSize - v + offset) / finalSize` on a reversed axis.
   */
  function VoxelToUnit(a: Axis, v: real): (r: Num)
    ensures r.Finite? <==> Invertible(a)
    ensures r.Finite? && !a.reversed ==> r.value == (v + a.offset) / a.finalSize
    ensures r.Finite? && a.reversed ==> r.value == (a.originalSize - v + a.offset) / a.finalSize
  {
    if !Invertible(a) then NonFinite
    else
      var t := v / a.originalSize;
      var t' := if a.reversed then 1.0 - t else t;
      VoxelToUnitClosedForm(a, v, t');
      Finite(t' * (a.originalSize / a.finalSize) + a.offset / a.finalSize)
  }

  lemma VoxelToUnitClosedForm(a: Axis, v: real, t': real)
    requires Invertible(a)
    requires t' == if a.reversed then 1.0 - v / a.originalSize else v / a.originalSize
    ensures !a.reversed ==> t' * (a.originalSize / a.finalSize) + a.offset / a.finalSize == (v + a.offset) / a.finalSize
    ensures a.reversed ==> t' * (a.originalSize / a.finalSize) + a.offset / a.finalSize
                           == (a.originalSize - v + a.offset) / a.finalSize
  {
    var o, f := a.originalSize, a.finalSize;
    assert (v / o) * (o / f) == v / f;
    assert (1.0 - v / o) * (o / f) == o / f - v / f;
  }

  /**
   * Unit to voxel on one axis: remove the offset, undo the rescale, flip if
   * the axis is reversed, then multiply by the original size. The result is
   * `u * finalSize - offset`, or `originalSize - (u * finalSize - offset)` on
   * a reversed axis.
   */
  function UnitToVoxel(a: Axis, u: real): (r: Num)
    ensures r.Finite? <==> Invertible(a)
    ensures r.Finite? && !a.reversed ==> r.value == u * a.finalSize - a.offset
    ensures r.Finite? && a.reversed ==> r.value == a.originalSize - (u * a.finalSize - a.offset)
  {
    if !Invertible(a) then NonFinite
    else
      var b := (u - a.offset / a.finalSize) / (a.originalSize / a.finalSize);
      var b' := if a.reversed then 1.0 - b else b;
      UnitToVoxelClosedForm(a, u, b, b');
      Finite(b' * a.originalSize)
  }

  lemma UnitToVoxelClosedForm(a: Axis, u: real, b: real, b': real)
    requires Invertible(a)
    requires b == (u - a.offset / a.finalSize) / (a.originalSize / a.finalSize)
    requires b' == if a.reversed then 1.0 - b else b
    ensures !a.reversed ==> b' * a.originalSize == u * a.finalSize - a.offset
    ensures a.reversed ==> b' * a.originalSize == a.originalSize - (u * a.finalSize - a.offset)
  {
    var o, f := a.originalSize, a.finalSize;
    assert b * o == (u - a.offset / f) * f by {
      assert b * (o / f) == u - a.offset / f;
      assert b * o == b * (o / f) * f;
    }
    assert (u - a.offset / f) * f == u * f - a.offset;
    assert (1.0 - b) * o == o - b * o;
  }

  /** Voxel to unit and back gives the voxel again, on a reversed axis too. */
  lemma RoundTripVoxel(a: Axis, v: real)
    requires Invertible(a)
    ensures UnitToVoxel(a, VoxelToUnit(a, v).value) == Finite(v)
  {
    var u := VoxelToUnit(a, v).value;
    var f := a.finalSize;
    if a.reversed {
      assert u * f == a.originalSize - v + a.offset;
    } else {
      assert u * f == v + a.offset;
    }
  }

  /** Unit to voxel and back gives the unit coordinate again, on a reversed axis too. */
  lemma RoundTripUnit(a: Axis, u: real)
    requires Invertible(a)
    ensures VoxelToUnit(a, UnitToVoxel(a, u).value) == Finite(u)
  {
    var v := UnitToVoxel(a, u).value;
    var f := a.finalSize;
    if a.reversed {
      assert a.originalSize - v + a.offset == u * f;
    } else {
      assert v + a.offset == u * f;
    }
    assert (u * f) / f == u;
  }

  /** A voxel coordinate shown for `u` on any axis is finite only if it converts back to `u`. */
  lemma ShownVoxelConvertsBack(a: Axis, u: real)
    ensures UnitToVoxel(a, u).Finite? ==> VoxelToUnit(a, UnitToVoxel(a, u).value) == Finite(u)
  {
    if Invertible(a) {
      RoundTripUnit(a, u);
    }
  }

  /**
   * The three axes of a voxel position, each converted with its own
   * descriptor: a degenerate axis spoils its own coordinate only.
   */
  function VoxelToUnit3(info: AxisInfo, v: Vec3): (r: NumTriple)
    ensures r.x.Finite? <==> Invertible(info.x)
    ensures r.y.Finite? <==> Invertible(info.y)
    ensures r.z.Finite? <==> Invertible(info.z)
    ensures (r.x.Finite? && r.y.Finite? && r.z.Finite?) <==> AllInvertible(info)
  {
    NumTriple(VoxelToUnit(info.x, v.x), VoxelToUnit(info.y, v.y), VoxelToUnit(info.z, v.z))
  }

  /**
   * The three axes of a unit position, each converted with its own
   * descriptor: a degenerate axis spoils its own coordinate only.
   */
  function UnitToVoxel3(info: AxisInfo, u: Vec3): (r: NumTriple)
    ensures r.x.Finite? <==> Invertible(info.x)
    ensures r.y.Finite? <==> Invertible(info.y)
    ensures r.z.Finite? <==> Invertible(info.z)
    ensures (r.x.Finite? && r.y.Finite? && r.z.Finite?) <==> AllInvertible(info)
  {
    NumTriple(UnitToVoxel(info.x, u.x), UnitToVoxel(info.y, u.y), UnitToVoxel(info.z, u.z))
  }

  /** The finite values of a triple, when all three are finite. */
  function Values(t: NumTriple): Vec3
    requires t.x.Finite? && t.y.Finite? && t.z.Finite?
  {
    Vec3(t.x.value, t.y.value, t.z.value)
  }

  /**
   * Axes are independent: each output coordinate depends only on the same
   * input coordinate and that axis's descriptor, in both directions.
   */
  lemma AxesIndependent(info: AxisInfo, info': AxisInfo, v: Vec3, v': Vec3)
    ensures info.x == info'.x && v.x == v'.x ==>
              VoxelToUnit3(info, v).x == VoxelToUnit3(info', v').x && UnitToVoxel3(info, v).x == UnitToVoxel3(info', v').x
    ensures info.y == info'.y && v.y == v'.y ==>
              VoxelToUnit3(info, v).y == VoxelToUnit3(info', v').y && UnitToVoxel3(info, v).y == UnitToVoxel3(info', v').y
    ensures info.z == info'.z && v.z == v'.z ==>
              VoxelToUnit3(info, v).z == VoxelToUnit3(info', v').z && UnitToVoxel3(info, v).z == UnitToVoxel3(info', v').z
  {
  }

  /** The three-axis round trip in both directions, when every axis is invertible. */
  lemma RoundTrip3(info: AxisInfo, p: Vec3)
    requires AllInvertible(info)
    ensures UnitToVoxel3(info, Values(VoxelToUnit3(info, p))) == NumTriple(Finite(p.x), Finite(p.y), Finite(p.z))
    ensures VoxelToUnit3(info, Values(UnitToVoxel3(info, p))) == NumTriple(Finite(p.x), Finite(p.y), Finite(p.z))
  {
    RoundTripVoxel(info.x, p.x);
    RoundTripVoxel(info.y, p.y);
    RoundTripVoxel(info.z, p.z);
    RoundTripUnit(info.x, p.x);
    RoundTripUnit(info.y, p.y);
    RoundTripUnit(info.z, p.z);
  }
}
