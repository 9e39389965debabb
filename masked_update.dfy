/**
 The two ways `LocalRotate.__call__` overwrites the masked columns of the
 copied cloud, stated on values. A cloud is the sequence of its columns:
 `pts[j]` is point j, that is column `y[:, j]`.

 - Anisotropic: the loop `for index, transform_id in enumerate(mask)` that
   rotates column `mask[index]` by the matrix of angle column `index`, one
   column at a time, each time reading the column as it then is.
 - Isotropic: the block assignment `y[:, mask] = np.dot(R, y[:, mask])`,
   which first gathers the masked columns, rotates them all by one matrix,
   and then scatters the results back in mask order.
 */
module MaskedUpdate {
  import opened Geometry
  import opened Rotation
  import opened Sorting

  /** Every index of the mask names a column of a cloud of n points. */
  predicate InRange(mask: seq<nat>, n: nat) {
    forall i :: 0 <= i < |mask| ==> mask[i] < n
  }

  /** The cloud after the first k passes of the anisotropic loop. */
  function AnisotropicPrefix(pts: seq<Vec3>, mask: seq<nat>, params: seq<Vec3>, trig: Trig, k: nat): (r: seq<Vec3>)
    requires k <= |mask| == |params| && InRange(mask, |pts|)
    ensures |r| == |pts|
  {
    if k == 0 then
      pts
    else
      var prev := AnisotropicPrefix(pts, mask, params, trig, k - 1);
      var j := mask[k - 1];
      prev[j := Apply(BuildRotationMatrix(trig, params[k - 1]), prev[j])]
  }

  /** One pass of the anisotropic loop. */
  lemma AnisotropicStep(pts: seq<Vec3>, mask: seq<nat>, params: seq<Vec3>, trig: Trig, k: nat)
    requires k < |mask| == |params| && InRange(mask, |pts|)
    ensures var prev := AnisotropicPrefix(pts, mask, params, trig, k);
            AnisotropicPrefix(pts, mask, params, trig, k + 1)
            == prev[mask[k] := Apply(BuildRotationMatrix(trig, params[k]), prev[mask[k]])]
  {
  }

  /** The cloud after the whole anisotropic loop. */
  function AnisotropicUpdate(pts: seq<Vec3>, mask: seq<nat>, params: seq<Vec3>, trig: Trig): (r: seq<Vec3>)
    requires |mask| == |params| && InRange(mask, |pts|)
    ensures |r| == |pts|
  {
    AnisotropicPrefix(pts, mask, params, trig, |mask|)
  }

  /** `y[:, mask]`: the masked columns, in mask order. */
  function Gather(pts: seq<Vec3>, mask: seq<nat>): (block: seq<Vec3>)
    requires InRange(mask, |pts|)
    ensures |block| == |mask|
    ensures forall i :: 0 <= i < |mask| ==> block[i] == pts[mask[i]]
  {
    seq(|mask|, i requires 0 <= i < |mask| => pts[mask[i]])
  }

  /** `np.dot(m, block)`: every column of the block rotated by m. */
  function RotateBlock(m: Mat3, block: seq<Vec3>): (r: seq<Vec3>)
    ensures |r| == |block|
    ensures forall i :: 0 <= i < |block| ==> r[i] == Apply(m, block[i])
  {
    seq(|block|, i requires 0 <= i < |block| => Apply(m, block[i]))
  }

  /** `y[:, mask] = block` after its first k column writes. */
  function ScatterPrefix(pts: seq<Vec3>, mask: seq<nat>, block: seq<Vec3>, k: nat): (r: seq<Vec3>)
    requires k <= |mask| == |block| && InRange(mask, |pts|)
    ensures |r| == |pts|
  {
    if k == 0 then pts else ScatterPrefix(pts, mask, block, k - 1)[mask[k - 1] := block[k - 1]]
  }

  /** The cloud after the isotropic block assignment with the shared matrix m. */
  function IsotropicUpdate(pts: seq<Vec3>, mask: seq<nat>, m: Mat3): (r: seq<Vec3>)
    requires InRange(mask, |pts|)
    ensures |r| == |pts|
  {
    ScatterPrefix(pts, mask, RotateBlock(m, Gather(pts, mask)), |mask|)
  }

  /** A column that no pass of the anisotropic loop names keeps its value. */
  lemma {:induction false} AnisotropicPrefixFrame(pts: seq<Vec3>, mask: seq<nat>, params: seq<Vec3>, trig: Trig, k: nat, j: nat)
    requires k <= |mask| == |params| && InRange(mask, |pts|)
    requires j < |pts| && j !in mask[..k]
    ensures AnisotropicPrefix(pts, mask, params, trig, k)[j] == pts[j]
  {
    if k > 0 {
      assert mask[..k - 1] + [mask[k - 1]] == mask[..k];
      AnisotropicPrefixFrame(pts, mask, params, trig, k - 1, j);
    }
  }

  /**
   With distinct indices, after k passes the column named at position i < k
   holds the input column rotated by the matrix of angle column i.
   */
  lemma {:induction false} AnisotropicPrefixAt(pts: seq<Vec3>, mask: seq<nat>, params: seq<Vec3>, trig: Trig, k: nat, i: nat)
    requires k <= |mask| == |params| && InRange(mask, |pts|) && Distinct(mask)
    requires i < k
    ensures AnisotropicPrefix(pts, mask, params, trig, k)[mask[i]]
         == Apply(BuildRotationMatrix(trig, params[i]), pts[mask[i]])
  {
    if i == k - 1 {
      assert mask[i] !in mask[..i];
      AnisotropicPrefixFrame(pts, mask, params, trig, i, mask[i]);
    } else {
      AnisotropicPrefixAt(pts, mask, params, trig, k - 1, i);
    }
  }

  /**
   The isotropic block assignment after k writes: a column named among the
   first k mask positions holds the rotated input column, any other column its
   input value. Repeated indices would write the same value twice.
   */
  lemma {:induction false} IsotropicPrefixAt(pts: seq<Vec3>, mask: seq<nat>, m: Mat3, k: nat, j: nat)
    requires k <= |mask| && InRange(mask, |pts|) && j < |pts|
    ensures ScatterPrefix(pts, mask, RotateBlock(m, Gather(pts, mask)), k)[j]
         == if j in mask[..k] then Apply(m, pts[j]) else pts[j]
  {
    if k > 0 {
      assert mask[..k - 1] + [mask[k - 1]] == mask[..k];
      IsotropicPrefixAt(pts, mask, m, k - 1, j);
    }
  }

  /** Anisotropic mode: a column outside the mask is left as it was. */
  lemma AnisotropicUnmasked(pts: seq<Vec3>, mask: seq<nat>, params: seq<Vec3>, trig: Trig, j: nat)
    requires |mask| == |params| && InRange(mask, |pts|)
    requires j < |pts| && j !in mask
    ensures |AnisotropicUpdate(pts, mask, params, trig)| == |pts|
    ensures AnisotropicUpdate(pts, mask, params, trig)[j] == pts[j]
  {
    assert mask[..|mask|] == mask;
    AnisotropicPrefixFrame(pts, mask, params, trig, |mask|, j);
  }

  /**
   Anisotropic mode with distinct indices: column mask[i] holds input column
   mask[i] rotated by the matrix built from angle column i alone.
   */
  lemma AnisotropicMasked(pts: seq<Vec3>, mask: seq<nat>, params: seq<Vec3>, trig: Trig, i: nat)
    requires |mask| == |params| && InRange(mask, |pts|) && Distinct(mask)
    requires i < |mask|
    ensures AnisotropicUpdate(pts, mask, params, trig)[mask[i]]
         == Apply(BuildRotationMatrix(trig, params[i]), pts[mask[i]])
  {
    AnisotropicPrefixAt(pts, mask, params, trig, |mask|, i);
  }

  /**
   Isotropic mode: every masked column holds its input rotated by the shared
   matrix m, every other column its input value.
   */
  lemma IsotropicAt(pts: seq<Vec3>, mask: seq<nat>, m: Mat3, j: nat)
    requires InRange(mask, |pts|) && j < |pts|
    ensures |IsotropicUpdate(pts, mask, m)| == |pts|
    ensures IsotropicUpdate(pts, mask, m)[j] == if j in mask then Apply(m, pts[j]) else pts[j]
  {
    assert mask[..|mask|] == mask;
    IsotropicPrefixAt(pts, mask, m, |mask|, j);
  }

  /**
   The per-column loop and the block assignment agree whenever every angle
   column is the same p and no index repeats.
   */
  lemma IsotropicMatchesAnisotropic(pts: seq<Vec3>, mask: seq<nat>, params: seq<Vec3>, trig: Trig, p: Vec3)
    requires |mask| == |params| && InRange(mask, |pts|) && Distinct(mask)
    requires forall i :: 0 <= i < |params| ==> params[i] == p
    ensures AnisotropicUpdate(pts, mask, params, trig) == IsotropicUpdate(pts, mask, BuildRotationMatrix(trig, p))
  {
    var a := AnisotropicUpdate(pts, mask, params, trig);
    var b := IsotropicUpdate(pts, mask, BuildRotationMatrix(trig, p));
    forall j | 0 <= j < |pts|
      ensures a[j] == b[j]
    {
      IsotropicAt(pts, mask, BuildRotationMatrix(trig, p), j);
      if j in mask {
        var i :| 0 <= i < |mask| && mask[i] == j;
        AnisotropicMasked(pts, mask, params, trig, i);
      } else {
        AnisotropicUnmasked(pts, mask, params, trig, j);
      }
    }
  }
}
