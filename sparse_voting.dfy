/**
 * The buffer marshalling of one sparse ball voting pass
 * (SparseVotingCloudGPU::process): extract the coordinates of the cloud,
 * clear the kernel's log, run the voting kernel, reshape its raw field into
 * per-point 3x3 matrices, run the tensor-split kernel and attach its
 * saliencies and stick orientations to the cloud as descriptors.
 *
 * The two GPU kernels are supplied by the caller as functions; all they
 * promise is the length of every buffer they fill.
 */
module SparseVoting {
  import opened LinAlg
  import opened CloudModel

  /** What CudaVoting::sparseBallVoting leaves in its two output buffers. */
  datatype Voted<T> = Voted(field: seq<Float3<T>>, log: seq<Int2>)

  /** What CudaVoting::tensorSplitWithField leaves in its five output buffers. */
  datatype Split<T> = Split(
    stick: seq<T>, plate: seq<T>, ball: seq<T>,
    stickField: seq<Float3<T>>, plateField: seq<Float3<T>>)

  /** sparseBallVoting(points, sigma, numPoints, log), as a function of its inputs. */
  type VotingKernel<!T> = (seq<Float3<T>>, T, nat, seq<Int2>) -> Voted<T>

  /** tensorSplitWithField(field, numPoints), as a function of its inputs. */
  type SplitKernel<!T> = (seq<Float3<T>>, nat) -> Split<T>

  /** For n points the voting kernel fills 3n field vectors and n log entries. */
  ghost predicate VotingContract<T(!new)>(vote: VotingKernel<T>) {
    forall pts: seq<Float3<T>>, sigma: T, n: nat, log: seq<Int2> ::
      |pts| == n && |log| == n ==>
        |vote(pts, sigma, n, log).field| == 3 * n && |vote(pts, sigma, n, log).log| == n
  }

  /** Every buffer of the tensor split holds one entry per point. */
  predicate SplitShaped<T>(out: Split<T>, n: nat) {
    |out.stick| == n && |out.plate| == n && |out.ball| == n &&
    |out.stickField| == n && |out.plateField| == n
  }

  /** For a field of 3n vectors the split kernel fills n entries of each buffer. */
  ghost predicate SplitContract<T(!new)>(split: SplitKernel<T>) {
    forall field: seq<Float3<T>>, n: nat :: |field| == 3 * n ==> SplitShaped(split(field, n), n)
  }

  /** The point count: the feature matrix's element count divided by four. */
  function NumPoints<T>(features: Matrix<T>): nat {
    |features.data| / 4
  }

  /** Every features(r, i) with r < 3 and i < NumPoints(features) lies inside the matrix. */
  predicate ExtractableShape<T>(features: Matrix<T>) {
    HasColumns3(features, NumPoints(features))
  }

  /**
   * For the homogeneous 4 x N feature matrix of a 3D cloud the point count is
   * the column count, and extraction stays inside the matrix.
   */
  lemma HomogeneousPointCount<T>(features: Matrix<T>)
    requires features.Valid() && features.rows == 4
    ensures NumPoints(features) == features.cols
    ensures ExtractableShape(features)
  {
  }

  /** The coordinates of the cloud: rows 0, 1 and 2 of each of the first NumPoints columns. */
  function Coordinates<T>(features: Matrix<T>): (pts: seq<Float3<T>>)
    requires ExtractableShape(features)
    ensures |pts| == NumPoints(features)
  {
    Columns3(features, NumPoints(features))
  }

  /**
   * Extraction undoes homogenisation: whatever the homogeneous coordinate, the
   * coordinates of the homogeneous matrix of pts are pts.
   */
  lemma ExtractHomogeneous<T>(pts: seq<Float3<T>>, w: T)
    ensures ExtractableShape(Homogeneous(pts, w))
    ensures Coordinates(Homogeneous(pts, w)) == pts
  {
    var m := Homogeneous(pts, w);
    HomogeneousPointCount(m);
    forall i | 0 <= i < |pts|
      ensures Coordinates(m)[i] == pts[i]
    {
      HomogeneousColumn(pts, w, i);
    }
  }

  /**
   * Row 3 is never read: two feature matrices of the same shape that agree on
   * rows 0, 1 and 2 have the same coordinates.
   */
  lemma CoordinatesIgnoreRow3<T>(f: Matrix<T>, g: Matrix<T>)
    requires ExtractableShape(f) && g.Valid() && g.rows == f.rows && g.cols == f.cols
    requires forall r, c :: 0 <= r < 3 <= f.rows && 0 <= c < f.cols ==> f.At(r, c) == g.At(r, c)
    ensures ExtractableShape(g)
    ensures Coordinates(f) == Coordinates(g)
  {
  }

  /** Step 2 of process: copy x, y, z of every point into a float3 buffer. */
  method ExtractPoints<T(0)>(features: Matrix<T>) returns (points: array<Float3<T>>)
    requires ExtractableShape(features)
    ensures fresh(points)
    ensures points.Length == NumPoints(features)
    ensures forall i :: 0 <= i < points.Length ==>
      points[i] == Float3(features.At(0, i), features.At(1, i), features.At(2, i))
    ensures points[..] == Coordinates(features)
  {
    var numPoints := NumPoints(features);
    points := new Float3<T>[numPoints];
    for i := 0 to numPoints
      invariant forall k :: 0 <= k < i ==> points[k] == Column3(features, k)
    {
      points[i] := Float3(features.At(0, i), features.At(1, i), features.At(2, i));
    }
  }

  /** n cleared log entries. */
  function Zeros(n: nat): (log: seq<Int2>)
    ensures |log| == n && forall k :: 0 <= k < n ==> log[k] == Int2(0, 0)
  {
    seq(n, _ => Int2(0, 0))
  }

  /** Step 3 of process: a log buffer of n entries, every one cleared. */
  method ClearLog(n: nat) returns (log: array<Int2>)
    ensures fresh(log)
    ensures log.Length == n
    ensures forall k :: 0 <= k < n ==> log[k] == Int2(0, 0)
  {
    log := new Int2[n];
    forall k | 0 <= k < n {
      log[k] := Int2(0, 0);
    }
  }

  /** The raw field read three vectors at a time, each three the rows of one matrix. */
  function Reshape<T>(field: seq<Float3<T>>): (ms: seq<Mat3<T>>)
    requires |field| % 3 == 0
    ensures |ms| == |field| / 3
    decreases |field|
  {
    if field == [] then [] else [Mat3(field[0], field[1], field[2])] + Reshape(field[3..])
  }

  /** The rows of every matrix, matrix after matrix. */
  function Flatten<T>(ms: seq<Mat3<T>>): (field: seq<Float3<T>>)
    ensures |field| == 3 * |ms|
  {
    if ms == [] then [] else [ms[0].r0, ms[0].r1, ms[0].r2] + Flatten(ms[1..])
  }

  lemma {:induction false} ReshapeAt<T>(field: seq<Float3<T>>, i: nat)
    requires |field| % 3 == 0 && i < |field| / 3
    ensures Reshape(field)[i] == Mat3(field[3 * i], field[3 * i + 1], field[3 * i + 2])
    decreases |field|
  {
    if i > 0 {
      ReshapeAt(field[3..], i - 1);
    }
  }

  /** Flattening the reshaped field gives back the raw field. */
  lemma {:induction false} FlattenReshape<T>(field: seq<Float3<T>>)
    requires |field| % 3 == 0
    ensures Flatten(Reshape(field)) == field
    decreases |field|
  {
    if field != [] {
      FlattenReshape(field[3..]);
      assert field == field[..3] + field[3..];
    }
  }

  /** Reshaping a flattened sequence of matrices gives back the matrices. */
  lemma {:induction false} ReshapeFlatten<T>(ms: seq<Mat3<T>>)
    ensures Reshape(Flatten(ms)) == ms
  {
    if ms != [] {
      ReshapeFlatten(ms[1..]);
      var f := Flatten(ms);
      assert f[3..] == Flatten(ms[1..]);
      assert ms == [ms[0]] + ms[1..];
    }
  }

  /**
   * Step 5 of process: matrix i of sparseField has as row r the field vector
   * 3i + r. The result is built and dropped, as in process.
   */
  method ReshapeField<T(0)>(field: seq<Float3<T>>, n: nat) returns (sparseField: array<Mat3<T>>)
    requires |field| == 3 * n
    ensures fresh(sparseField)
    ensures sparseField.Length == n
    ensures forall i, r, c :: 0 <= i < n && 0 <= r < 3 && 0 <= c < 3 ==>
      sparseField[i].Entry(r, c) == field[3 * i + r].Get(c)
    ensures sparseField[..] == Reshape(field)
    ensures Flatten(sparseField[..]) == field
  {
    sparseField := new Mat3<T>[n];
    for i := 0 to n
      invariant forall k :: 0 <= k < i ==>
        sparseField[k] == Mat3(field[k * 3 + 0], field[k * 3 + 1], field[k * 3 + 2])
    {
      sparseField[i] := Mat3(field[i * 3 + 0], field[i * 3 + 1], field[i * 3 + 2]);
    }
    forall k | 0 <= k < n
      ensures sparseField[k] == Reshape(field)[k]
    {
      ReshapeAt(field, k);
    }
    FlattenReshape(field);
  }

  /** The four descriptors of one pass, built from the split kernel's outputs. */
  function SaliencyDescriptors<T>(out: Split<T>): map<string, Matrix<T>> {
    map["stick" := RowMatrix(out.stick),
        "plate" := RowMatrix(out.plate),
        "ball" := RowMatrix(out.ball),
        "normals" := ColumnsMatrix(out.stickField)]
  }

  /** The descriptor names in the order process adds them. */
  const DescriptorNames: seq<string> := ["stick", "plate", "ball", "normals"]

  /**
   * Step 7 of process: zero-filled 1 x n stick, plate and ball matrices and a
   * 3 x n normals matrix, into which entry i of each saliency buffer and the
   * stick orientation vector i are copied. The plate orientations are not read.
   */
  method WriteSaliency<T>(out: Split<T>, n: nat, zero: T)
    returns (stick: Matrix<T>, plate: Matrix<T>, ball: Matrix<T>, normals: Matrix<T>)
    requires SplitShaped(out, n)
    ensures stick == RowMatrix(out.stick)
    ensures plate == RowMatrix(out.plate)
    ensures ball == RowMatrix(out.ball)
    ensures normals == ColumnsMatrix(out.stickField)
  {
    var st := new T[n](_ => zero);
    var pl := new T[n](_ => zero);
    var ba := new T[n](_ => zero);
    var no := new T[3 * n](_ => zero);
    for i := 0 to n
      invariant forall k :: 0 <= k < i ==> st[k] == out.stick[k]
      invariant forall k :: 0 <= k < i ==> pl[k] == out.plate[k]
      invariant forall k :: 0 <= k < i ==> ba[k] == out.ball[k]
      invariant forall k, r :: 0 <= k < i && 0 <= r < 3 ==> no[3 * k + r] == out.stickField[k].Get(r)
    {
      st[i] := out.stick[i];
      pl[i] := out.plate[i];
      ba[i] := out.ball[i];
      no[3 * i], no[3 * i + 1], no[3 * i + 2] :=
        out.stickField[i].x, out.stickField[i].y, out.stickField[i].z;
    }
    stick, plate, ball := Matrix(1, n, st[..]), Matrix(1, n, pl[..]), Matrix(1, n, ba[..]);
    ComponentsLength(out.stickField);
    forall j | 0 <= j < 3 * n
      ensures no[j] == Components(out.stickField)[j]
    {
      var k, r := j / 3, j % 3;
      ComponentsAt(out.stickField, k, r);
      assert 3 * k + r == j;
    }
    normals := Matrix(3, n, no[..]);
  }

  /** What the split kernel returns in one pass over the cloud with these features. */
  function KernelOutputs<T>(features: Matrix<T>, sigma: T, vote: VotingKernel<T>, split: SplitKernel<T>): Split<T>
    requires ExtractableShape(features)
  {
    var n := NumPoints(features);
    split(vote(Coordinates(features), sigma, n, Zeros(n)).field, n)
  }

  /** The descriptors one pass over the cloud with these features writes. */
  function Pipeline<T>(features: Matrix<T>, sigma: T, vote: VotingKernel<T>, split: SplitKernel<T>): map<string, Matrix<T>>
    requires ExtractableShape(features)
  {
    SaliencyDescriptors(KernelOutputs(features, sigma, vote, split))
  }

  /**
   * SparseVotingCloudGPU::process(cloud, sigma). The descriptors "stick",
   * "plate", "ball" and "normals" are added or replaced, in that order; nothing
   * else in the cloud changes.
   */
  method Process<T(0,!new)>(cloud: DataPoints<T>, sigma: T, zero: T, vote: VotingKernel<T>, split: SplitKernel<T>)
    requires cloud.Valid() && ExtractableShape(cloud.features)
    requires VotingContract(vote) && SplitContract(split)
    modifies cloud
    ensures cloud.Valid()
    ensures cloud.features == old(cloud.features)
    ensures cloud.descriptors == old(cloud.descriptors) + Pipeline(cloud.features, sigma, vote, split)
    ensures cloud.labels == AddLabels(old(cloud.labels), DescriptorNames)
  {
    var numPoints := NumPoints(cloud.features);
    var points := ExtractPoints(cloud.features);
    var log := ClearLog(numPoints);
    assert log[..] == Zeros(numPoints);
    var voted := vote(points[..], sigma, numPoints, log[..]);
    assert |voted.field| == 3 * numPoints;
    var sparseField := ReshapeField(voted.field, numPoints);
    var out := split(voted.field, numPoints);
    assert out == KernelOutputs(cloud.features, sigma, vote, split);
    assert SplitShaped(out, numPoints);
    var stick, plate, ball, normals := WriteSaliency(out, numPoints, zero);
    ghost var descriptors0, labels0 := cloud.descriptors, cloud.labels;
    cloud.AddDescriptor("stick", stick);
    cloud.AddDescriptor("plate", plate);
    cloud.AddDescriptor("ball", ball);
    cloud.AddDescriptor("normals", normals);
    AddDescriptorsInSequence(descriptors0, out);
    AddLabelsInSequence(labels0);
  }

  /** Four updates in a row are the merge with SaliencyDescriptors. */
  lemma AddDescriptorsInSequence<T>(d: map<string, Matrix<T>>, out: Split<T>)
    ensures d["stick" := RowMatrix(out.stick)]["plate" := RowMatrix(out.plate)]
             ["ball" := RowMatrix(out.ball)]["normals" := ColumnsMatrix(out.stickField)]
         == d + SaliencyDescriptors(out)
  {
  }

  lemma AddLabelsInSequence(ls: seq<string>)
    ensures AddLabels(ls, DescriptorNames)
         == AddLabel(AddLabel(AddLabel(AddLabel(ls, "stick"), "plate"), "ball"), "normals")
  {
    var names := DescriptorNames;
    assert names[1..] == ["plate", "ball", "normals"];
    assert names[1..][1..] == ["ball", "normals"];
    assert names[1..][1..][1..] == ["normals"];
  }

  /**
   * One pass writes exactly the four descriptors, stick, plate and ball of
   * shape 1 x N and normals of shape 3 x N, with N the point count; for the
   * homogeneous 4 x N feature matrix N is the cloud's column count.
   */
  lemma PipelineShape<T(!new)>(features: Matrix<T>, sigma: T, vote: VotingKernel<T>, split: SplitKernel<T>)
    requires ExtractableShape(features) && VotingContract(vote) && SplitContract(split)
    ensures var d, n := Pipeline(features, sigma, vote, split), NumPoints(features);
      d.Keys == {"stick", "plate", "ball", "normals"} &&
      d["stick"].Valid() && d["stick"].rows == 1 && d["stick"].cols == n &&
      d["plate"].Valid() && d["plate"].rows == 1 && d["plate"].cols == n &&
      d["ball"].Valid() && d["ball"].rows == 1 && d["ball"].cols == n &&
      d["normals"].Valid() && d["normals"].rows == 3 && d["normals"].cols == n
    ensures features.rows == 4 ==>
      forall name :: name in Pipeline(features, sigma, vote, split) ==>
        Pipeline(features, sigma, vote, split)[name].cols == features.cols
  {
    var n := NumPoints(features);
    var voted := vote(Coordinates(features), sigma, n, Zeros(n));
    assert |voted.field| == 3 * n;
    assert SplitShaped(split(voted.field, n), n);
  }

  /**
   * Entry i of stick, plate and ball is the split kernel's i-th saliency, and
   * column i of normals is its i-th stick orientation vector.
   */
  lemma PipelineEntries<T(!new)>(features: Matrix<T>, sigma: T, vote: VotingKernel<T>, split: SplitKernel<T>, i: nat)
    requires ExtractableShape(features) && VotingContract(vote) && SplitContract(split)
    requires i < NumPoints(features)
    ensures var d, out := Pipeline(features, sigma, vote, split), KernelOutputs(features, sigma, vote, split);
      i < |out.stick| && i < |out.stickField| &&
      d["stick"].Valid() && i < d["stick"].cols && d["stick"].At(0, i) == out.stick[i] &&
      d["plate"].Valid() && i < d["plate"].cols && d["plate"].At(0, i) == out.plate[i] &&
      d["ball"].Valid() && i < d["ball"].cols && d["ball"].At(0, i) == out.ball[i] &&
      HasColumns3(d["normals"], i + 1) && Column3(d["normals"], i) == out.stickField[i]
  {
    PipelineShape(features, sigma, vote, split);
    var out := KernelOutputs(features, sigma, vote, split);
    ColumnsMatrixRoundTrip(out.stickField);
    assert Columns3(ColumnsMatrix(out.stickField), |out.stickField|)[i] == out.stickField[i];
  }

  /** An empty cloud gets four descriptors with no columns and no elements. */
  lemma EmptyCloud<T(!new)>(features: Matrix<T>, sigma: T, vote: VotingKernel<T>, split: SplitKernel<T>)
    requires ExtractableShape(features) && VotingContract(vote) && SplitContract(split)
    requires NumPoints(features) == 0
    ensures var d := Pipeline(features, sigma, vote, split);
      forall name :: name in d ==> d[name].cols == 0 && d[name].data == []
  {
    PipelineShape(features, sigma, vote, split);
  }

  /** The plate orientation vectors never reach the cloud. */
  lemma PlateFieldUnused<T>(out: Split<T>, plateField: seq<Float3<T>>)
    ensures SaliencyDescriptors(out.(plateField := plateField)) == SaliencyDescriptors(out)
  {
  }

  /** The kernel's log never reaches the cloud. */
  lemma LogUnused<T>(features: Matrix<T>, sigma: T, vote: VotingKernel<T>, vote': VotingKernel<T>, split: SplitKernel<T>)
    requires ExtractableShape(features)
    requires forall pts, s, n, log :: vote(pts, s, n, log).field == vote'(pts, s, n, log).field
    ensures Pipeline(features, sigma, vote, split) == Pipeline(features, sigma, vote', split)
  {
  }

  /**
   * On a cloud without any of the four names, process appends them to the
   * labels in the order stick, plate, ball, normals.
   */
  lemma DescriptorOrder(labels: seq<string>)
    requires forall l :: l in DescriptorNames ==> l !in labels
    ensures AddLabels(labels, DescriptorNames) == labels + ["stick", "plate", "ball", "normals"]
  {
    AddLabelsAppends(labels, DescriptorNames);
  }
}
