/**
 The `LocalRotate` transform: copy a 3×N point cloud, pick the neighbourhood
 of one point, and overwrite the neighbourhood's columns with rotated copies,
 either each by its own rotation (anisotropic mode) or all by one shared
 rotation (isotropic mode). It returns the new cloud, the 3×num_samples
 array of rotation angles and the index mask repeated on three rows.

 What the model takes from outside: the nearest-neighbour query's result
 (`neighbours`), the uniform angle draws (`draws`: num_samples columns in
 anisotropic mode, one column in isotropic mode) and the cosine and sine
 functions (`trig`). The choice of the anchor point only feeds the query and
 does not appear.
 */
module LocalRotation {
  import opened Geometry
  import opened Rotation
  import opened Sorting
  import opened MaskedUpdate

  /** `out_features`: the number of rows of a cloud, fixed at 3 by the base transform. */
  const OutFeatures: nat := 3

  /** The prefix that selects the per-point path. */
  const AnisoPrefix: string := "aniso"

  datatype Error =
    | EmptyCloud        // `np.random.randint(low=0, high=0)` rejects a cloud with no points
    | ScalarIndex       // a query for one neighbour returns a bare index, which `np.sort` rejects
    | IndexOutOfBounds  // a mask index that is not a column of the cloud

  datatype Result<T> = Ok(value: T) | Err(error: Error)

  /** `get_config()`: the dictionary with keys 'name', 'sampled points', 'mode' and 'range'. */
  datatype Config = Config(name: string, sampledPoints: nat, mode: string, range: (real, real))

  /** The three results of a call, as values: the cloud as its columns. */
  datatype Output = Output(cloud: seq<Vec3>, parameters: seq<Vec3>, mask: seq<seq<nat>>)

  /** The three results of a call as the method returns them: the cloud is a fresh array. */
  datatype Returned = Returned(y: array2<real>, parameters: seq<Vec3>, mask: seq<seq<nat>>)

  /** `mode.startswith('aniso')` */
  function IsAnisotropic(mode: string): (r: bool)
    ensures r <==> exists rest: string :: mode == AnisoPrefix + rest
  {
    if |mode| >= |AnisoPrefix| && mode[..|AnisoPrefix|] == AnisoPrefix then
      assert mode == AnisoPrefix + mode[|AnisoPrefix|..];
      true
    else
      false
  }

  /**
   The angle array returned by a call, as its columns. Anisotropic mode keeps
   the num_samples drawn columns; isotropic mode repeats its one drawn column
   num_samples times (`np.repeat(matrix, num_samples, axis=1)`).
   */
  function Parameters(aniso: bool, draws: seq<Vec3>, numSamples: nat): (r: seq<Vec3>)
    requires |draws| == if aniso then numSamples else 1
    ensures |r| == numSamples
    ensures aniso ==> r == draws
    ensures !aniso ==> forall i :: 0 <= i < numSamples ==> r[i] == draws[0]
  {
    if aniso then draws else seq(numSamples, _ => draws[0])
  }

  /** The sorted index row repeated on `out_features` rows. */
  function MaskRows(mask: seq<nat>): (rows: seq<seq<nat>>)
    ensures |rows| == OutFeatures
    ensures forall k :: 0 <= k < |rows| ==> rows[k] == mask
  {
    seq(OutFeatures, _ => mask)
  }

  /**
   What a k-nearest-neighbour query over n points can return: indices up to
   n, where n itself stands for a missing neighbour (the query pads with it
   only when k > n), and no real index twice.
   */
  predicate QueryResult(neighbours: seq<nat>, n: nat) {
    && (forall i :: 0 <= i < |neighbours| ==> neighbours[i] <= n)
    && (forall i, j :: 0 <= i < j < |neighbours| ==> neighbours[i] != neighbours[j] || neighbours[i] == n)
    && (|neighbours| <= n ==> n !in neighbours)
  }

  /** Column j of a 3×N array. */
  function ColumnOf(a: array2<real>, j: nat): Vec3
    reads a
    requires a.Length0 == OutFeatures && j < a.Length1
  {
    Vec3(a[0, j], a[1, j], a[2, j])
  }

  /** The array a holds the cloud pts, column by column. */
  ghost predicate Holds(a: array2<real>, pts: seq<Vec3>)
    reads a
  {
    a.Length0 == OutFeatures && a.Length1 == |pts| &&
    forall j :: 0 <= j < |pts| ==> ColumnOf(a, j) == pts[j]
  }

  /** The cloud an array holds. */
  ghost function Points(a: array2<real>): (pts: seq<Vec3>)
    reads a
    requires a.Length0 == OutFeatures
    ensures Holds(a, pts)
  {
    seq(a.Length1, j requires 0 <= j < a.Length1 reads a => ColumnOf(a, j))
  }

  /** `x.copy()` */
  method CopyCloud(x: array2<real>) returns (y: array2<real>)
    requires x.Length0 == OutFeatures
    ensures fresh(y) && Holds(y, Points(x))
  {
    y := new real[OutFeatures, x.Length1]((i, j) requires 0 <= i < OutFeatures && 0 <= j < x.Length1 reads x => x[i, j]);
  }

  /** `y[:, j] = v` */
  method SetColumn(y: array2<real>, j: nat, v: Vec3, ghost pts: seq<Vec3>)
    requires Holds(y, pts) && j < |pts|
    modifies y
    ensures Holds(y, pts[j := v])
  {
    y[0, j] := v.x;
    y[1, j] := v.y;
    y[2, j] := v.z;
  }

  /** `y[:, j] = np.dot(m, y[:, j])` */
  method RotateColumn(y: array2<real>, j: nat, m: Mat3, ghost pts: seq<Vec3>)
    requires Holds(y, pts) && j < |pts|
    modifies y
    ensures Holds(y, pts[j := Apply(m, pts[j])])
  {
    SetColumn(y, j, Apply(m, ColumnOf(y, j)), pts);
  }

  /** The anisotropic loop: each masked column rotated by the matrix of its own angle column. */
  method RotateEach(y: array2<real>, mask: seq<nat>, params: seq<Vec3>, trig: Trig, ghost pts: seq<Vec3>)
    requires Holds(y, pts) && |mask| == |params| && InRange(mask, |pts|)
    modifies y
    ensures Holds(y, AnisotropicUpdate(pts, mask, params, trig))
  {
    for index := 0 to |mask|
      invariant Holds(y, AnisotropicPrefix(pts, mask, params, trig, index))
    {
      var rotation := BuildRotationMatrix(trig, params[index]);
      AnisotropicStep(pts, mask, params, trig, index);
      RotateColumn(y, mask[index], rotation, AnisotropicPrefix(pts, mask, params, trig, index));
    }
  }

  /** The isotropic block assignment `y[:, mask] = np.dot(m, y[:, mask])`. */
  method RotateMasked(y: array2<real>, mask: seq<nat>, m: Mat3, ghost pts: seq<Vec3>)
    requires Holds(y, pts) && InRange(mask, |pts|)
    modifies y
    ensures Holds(y, IsotropicUpdate(pts, mask, m))
  {
    var block: seq<Vec3> := [];
    for i := 0 to |mask|
      invariant |block| == i
      invariant forall k :: 0 <= k < i ==> block[k] == Apply(m, pts[mask[k]])
    {
      block := block + [Apply(m, ColumnOf(y, mask[i]))];
    }
    assert block == RotateBlock(m, Gather(pts, mask));
    for i := 0 to |mask|
      invariant Holds(y, ScatterPrefix(pts, mask, block, i))
    {
      SetColumn(y, mask[i], block[i], ScatterPrefix(pts, mask, block, i));
    }
  }

  /** n distinct indices below n name every index below n. */
  lemma {:induction false} DistinctCovers(s: seq<nat>, n: nat, j: nat)
    requires Distinct(s) && InRange(s, n) && |s| == n && j < n
    ensures j in s
  {
    if j !in s {
      // Renumber so that every entry lies below n - 1: the value n - 1 moves to the unused j.
      var moved := seq(|s|, i requires 0 <= i < |s| => if s[i] == n - 1 then j else s[i]);
      forall i, k | 0 <= i < k < |moved| ensures moved[i] != moved[k] {
        assert s[i] != s[k] && s[i] != j && s[k] != j;
      }
      forall i | 0 <= i < |moved| ensures moved[i] < n - 1 {
        assert s[i] != j;
      }
      DistinctBound(moved, n - 1);
    }
  }

  /** Distinct indices below n number at most n. */
  lemma {:induction false} DistinctBound(s: seq<nat>, n: nat)
    requires Distinct(s) && InRange(s, n)
    ensures |s| <= n
    decreases |s|
  {
    if s != [] {
      var top := s[0];
      var rest := s[1..];
      // Renumber the tail so that it lies below n - 1: the value n - 1 moves to top.
      var moved := seq(|rest|, i requires 0 <= i < |rest| => if rest[i] == n - 1 then top else rest[i]);
      forall i, j | 0 <= i < j < |moved| ensures moved[i] != moved[j] {
        assert rest[i] != rest[j] && rest[i] != top && rest[j] != top;
      }
      forall i | 0 <= i < |moved| ensures moved[i] < n - 1 {
        assert rest[i] != top;
      }
      DistinctBound(moved, n - 1);
    }
  }

  /**
   A query result with no padding index is a set of distinct real columns;
   the padding index occurs exactly when the query asked for more neighbours
   than there are points.
   */
  lemma QueryResultShape(neighbours: seq<nat>, n: nat)
    requires QueryResult(neighbours, n)
    ensures n !in neighbours ==> Distinct(neighbours) && InRange(neighbours, n)
    ensures n in neighbours <==> |neighbours| > n
  {
    if n !in neighbours {
      forall i | 0 <= i < |neighbours| ensures neighbours[i] < n {
        assert neighbours[i] != n;
      }
      forall i, j | 0 <= i < j < |neighbours| ensures neighbours[i] != neighbours[j] {
        assert neighbours[i] != n;
      }
      DistinctBound(neighbours, n);
    }
  }

  class LocalRotate {
    const numSamples: nat
    const mode: string
    const low: real
    const high: real

    /**
     `LocalRotate(num_samples, mode, transform_range)`, with the range already
     resolved to (low, high).
     */
    constructor (numSamples: nat, mode: string, low: real, high: real)
      ensures GetConfig() == Config("LocalRotate", numSamples, mode, (low, high))
    {
      this.numSamples := numSamples;
      this.mode := mode;
      this.low := low;
      this.high := high;
    }

    /** The default configuration: 512 sampled points, isotropic mode. */
    constructor Default(low: real, high: real)
      ensures numSamples == 512 && mode == "isotropic" && !IsAnisotropic(mode)
      ensures (this.low, this.high) == (low, high)
    {
      numSamples := 512;
      mode := "isotropic";
      this.low := low;
      this.high := high;
      assert "isotropic"[0] != AnisoPrefix[0];
    }

    function GetConfig(): Config {
      Config("LocalRotate", numSamples, mode, (low, high))
    }

    /** What a call needs of its inputs: one query result of num_samples entries and the draws of its mode. */
    predicate Arguments(neighbours: seq<nat>, draws: seq<Vec3>) {
      && numSamples >= 1
      && |neighbours| == numSamples
      && |draws| == if IsAnisotropic(mode) then numSamples else 1
    }

    /** The outcome of `__call__` on the cloud pts, as a value. */
    function Expected(pts: seq<Vec3>, neighbours: seq<nat>, draws: seq<Vec3>, trig: Trig): Result<Output>
      requires Arguments(neighbours, draws)
    {
      if |pts| == 0 then
        Err(EmptyCloud)
      else if numSamples == 1 then
        Err(ScalarIndex)
      else
        var mask := Sort(neighbours);
        var aniso := IsAnisotropic(mode);
        var params := Parameters(aniso, draws, numSamples);
        if !InRange(mask, |pts|) then
          Err(IndexOutOfBounds)
        else
          var cloud :=
            if aniso then AnisotropicUpdate(pts, mask, params, trig)
            else IsotropicUpdate(pts, mask, BuildRotationMatrix(trig, params[0]));
          Ok(Output(cloud, params, MaskRows(mask)))
    }

    /** `__call__(x)` */
    method Call(x: array2<real>, neighbours: seq<nat>, draws: seq<Vec3>, trig: Trig) returns (r: Result<Returned>)
      requires x.Length0 == OutFeatures
      requires Arguments(neighbours, draws)
      ensures unchanged(x)
      ensures Expected(Points(x), neighbours, draws, trig).Err? ==>
                r == Err(Expected(Points(x), neighbours, draws, trig).error)
      ensures Expected(Points(x), neighbours, draws, trig).Ok? ==>
                var out := Expected(Points(x), neighbours, draws, trig).value;
                && r.Ok? && fresh(r.value.y)
                && Holds(r.value.y, out.cloud)
                && r.value.parameters == out.parameters
                && r.value.mask == out.mask
    {
      var n := x.Length1;
      if n == 0 {
        return Err(EmptyCloud);
      }
      if numSamples == 1 {
        return Err(ScalarIndex);
      }
      var mask := Sort(neighbours);
      var aniso := IsAnisotropic(mode);
      var params := Parameters(aniso, draws, numSamples);
      if !InRange(mask, n) {
        return Err(IndexOutOfBounds);
      }
      var y := CopyCloud(x);
      if aniso {
        RotateEach(y, mask, params, trig, Points(x));
      } else {
        RotateMasked(y, mask, BuildRotationMatrix(trig, params[0]), Points(x));
      }
      r := Ok(Returned(y, params, MaskRows(mask)));
    }

    /**
     The error cases: an empty cloud; a query for a single neighbour, whose
     bare index cannot be sorted; and a query padded with the missing index,
     which always happens when the cloud has fewer points than num_samples.
     Otherwise the call succeeds.
     */
    lemma Failures(pts: seq<Vec3>, neighbours: seq<nat>, draws: seq<Vec3>, trig: Trig)
      requires Arguments(neighbours, draws) && QueryResult(neighbours, |pts|)
      ensures Expected(pts, neighbours, draws, trig) == Err(EmptyCloud) <==> |pts| == 0
      ensures Expected(pts, neighbours, draws, trig) == Err(ScalarIndex) <==> 0 < |pts| && numSamples == 1
      ensures Expected(pts, neighbours, draws, trig) == Err(IndexOutOfBounds) <==> 0 < |pts| && numSamples > 1 && |pts| in neighbours
      ensures Expected(pts, neighbours, draws, trig).Ok? <==> 0 < |pts| && numSamples > 1 && |pts| !in neighbours
      ensures numSamples > |pts| ==> Expected(pts, neighbours, draws, trig).Err?
      ensures 2 <= numSamples <= |pts| ==> Expected(pts, neighbours, draws, trig).Ok?
    {
      QueryResultShape(neighbours, |pts|);
      var mask := Sort(neighbours);
      assert |pts| in neighbours <==> |pts| in multiset(mask);
      if |pts| in neighbours {
        var i :| 0 <= i < |mask| && mask[i] == |pts|;
      } else {
        forall i | 0 <= i < |mask| ensures mask[i] < |pts| {
          assert mask[i] in multiset(neighbours);
        }
      }
    }

    /**
     A successful call returns a cloud of the input's shape, num_samples
     angle columns and a mask of three rows that are each the neighbour
     indices in strictly ascending order, all columns of the cloud.
     */
    lemma OutputShapes(pts: seq<Vec3>, neighbours: seq<nat>, draws: seq<Vec3>, trig: Trig)
      requires Arguments(neighbours, draws) && QueryResult(neighbours, |pts|)
      requires Expected(pts, neighbours, draws, trig).Ok?
      ensures var out := Expected(pts, neighbours, draws, trig).value;
              && |out.cloud| == |pts|
              && |out.parameters| == numSamples
              && |out.mask| == OutFeatures
              && forall k :: 0 <= k < OutFeatures ==>
                   && out.mask[k] == out.mask[0]
                   && StrictlyAscending(out.mask[k])
                   && multiset(out.mask[k]) == multiset(neighbours)
                   && InRange(out.mask[k], |pts|)
    {
      Failures(pts, neighbours, draws, trig);
      QueryResultShape(neighbours, |pts|);
    }

    /** A column whose index the query did not return is copied unchanged. */
    lemma UnmaskedPointsUnchanged(pts: seq<Vec3>, neighbours: seq<nat>, draws: seq<Vec3>, trig: Trig, j: nat)
      requires Arguments(neighbours, draws)
      requires Expected(pts, neighbours, draws, trig).Ok?
      requires j < |pts| && j !in neighbours
      ensures |Expected(pts, neighbours, draws, trig).value.cloud| == |pts|
      ensures Expected(pts, neighbours, draws, trig).value.cloud[j] == pts[j]
    {
      var mask := Sort(neighbours);
      assert j !in multiset(mask);
      if IsAnisotropic(mode) {
        AnisotropicUnmasked(pts, mask, draws, trig, j);
      } else {
        IsotropicAt(pts, mask, BuildRotationMatrix(trig, draws[0]), j);
      }
    }

    /**
     A neighbourhood as large as the cloud: the call succeeds, every column
     is in the mask, and in isotropic mode every column is rotated by the one
     shared matrix.
     */
    lemma WholeCloud(pts: seq<Vec3>, neighbours: seq<nat>, draws: seq<Vec3>, trig: Trig, j: nat)
      requires Arguments(neighbours, draws) && QueryResult(neighbours, |pts|)
      requires 2 <= numSamples == |pts| && j < |pts|
      ensures Expected(pts, neighbours, draws, trig).Ok?
      ensures var out := Expected(pts, neighbours, draws, trig).value;
              && |out.mask| == OutFeatures && j in out.mask[0]
              && |out.cloud| == |pts|
              && (!IsAnisotropic(mode) ==> out.cloud[j] == Apply(BuildRotationMatrix(trig, draws[0]), pts[j]))
    {
      Failures(pts, neighbours, draws, trig);
      QueryResultShape(neighbours, |pts|);
      DistinctCovers(neighbours, |pts|, j);
      var mask := Sort(neighbours);
      assert j in multiset(mask);
      if !IsAnisotropic(mode) {
        IsotropicAt(pts, mask, BuildRotationMatrix(trig, draws[0]), j);
      }
    }

    /**
     Anisotropic mode: the angle columns are the drawn ones, and the column
     at mask position i is the input column rotated by the matrix of angle
     column i.
     */
    lemma AnisotropicPoints(pts: seq<Vec3>, neighbours: seq<nat>, draws: seq<Vec3>, trig: Trig, i: nat)
      requires Arguments(neighbours, draws) && QueryResult(neighbours, |pts|)
      requires IsAnisotropic(mode) && Expected(pts, neighbours, draws, trig).Ok?
      requires i < numSamples
      ensures var out := Expected(pts, neighbours, draws, trig).value;
              && out.parameters == draws
              && |out.cloud| == |pts| && |out.mask| == OutFeatures && |out.mask[0]| == numSamples
              && out.mask[0][i] < |pts|
              && out.cloud[out.mask[0][i]] == Apply(BuildRotationMatrix(trig, draws[i]), pts[out.mask[0][i]])
    {
      Failures(pts, neighbours, draws, trig);
      QueryResultShape(neighbours, |pts|);
      AnisotropicMasked(pts, Sort(neighbours), draws, trig, i);
    }

    /**
     Isotropic mode: all num_samples angle columns equal the one drawn column,
     every returned neighbour's column is the input column rotated by the
     matrix of that shared column, and every other column is unchanged.
     */
    lemma IsotropicPoints(pts: seq<Vec3>, neighbours: seq<nat>, draws: seq<Vec3>, trig: Trig, j: nat)
      requires Arguments(neighbours, draws)
      requires !IsAnisotropic(mode) && Expected(pts, neighbours, draws, trig).Ok?
      requires j < |pts|
      ensures var out := Expected(pts, neighbours, draws, trig).value;
              && |out.parameters| == numSamples
              && (forall i :: 0 <= i < numSamples ==> out.parameters[i] == out.parameters[0])
              && |out.cloud| == |pts|
              && out.cloud[j] == if j in neighbours then Apply(BuildRotationMatrix(trig, out.parameters[0]), pts[j]) else pts[j]
    {
      var mask := Sort(neighbours);
      assert j in neighbours <==> j in multiset(mask);
      IsotropicAt(pts, mask, BuildRotationMatrix(trig, draws[0]), j);
    }

    /**
     When the drawn angles lie in [low, high), so do all returned angles
     (in isotropic mode the one drawn column is all that is repeated).
     */
    lemma ParametersInRange(pts: seq<Vec3>, neighbours: seq<nat>, draws: seq<Vec3>, trig: Trig)
      requires Arguments(neighbours, draws)
      requires forall i :: 0 <= i < |draws| ==> InInterval(draws[i], low, high)
      requires Expected(pts, neighbours, draws, trig).Ok?
      ensures forall i :: 0 <= i < numSamples ==>
                InInterval(Expected(pts, neighbours, draws, trig).value.parameters[i], low, high)
    {
    }

    /** Two transforms with the same configuration give the same outcome on the same inputs. */
    lemma ConfigDeterminesOutcome(other: LocalRotate, pts: seq<Vec3>, neighbours: seq<nat>, draws: seq<Vec3>, trig: Trig)
      requires GetConfig() == other.GetConfig()
      requires Arguments(neighbours, draws)
      ensures other.Arguments(neighbours, draws)
      ensures Expected(pts, neighbours, draws, trig) == other.Expected(pts, neighbours, draws, trig)
    {
    }
  }

  /** All three angles of p lie in [low, high). */
  predicate InInterval(p: Vec3, low: real, high: real) {
    low <= p.x < high && low <= p.y < high && low <= p.z < high
  }
}
