/**
 * The small vector and matrix types that the sparse voting pipeline moves
 * between buffers: CUDA's float3 and int2, Eigen's Matrix3f and Eigen's
 * dynamic matrices. The element type T stands for the source's float; the
 * pipeline only copies elements and never computes with them.
 */
module LinAlg {

  /** CUDA's float3: the x, y and z of one point or one vector. */
  datatype Float3<T> = Float3(x: T, y: T, z: T) {
    /** Component c, in the order x, y, z. */
    function Get(c: nat): (v: T)
      requires c < 3
      ensures c == 0 ==> v == x
      ensures c == 1 ==> v == y
      ensures c == 2 ==> v == z
    {
      if c == 0 then x else if c == 1 then y else z
    }
  }

  /** CUDA's int2: one per-point entry of the voting kernel's log. */
  datatype Int2 = Int2(x: int, y: int)

  /** Eigen's Matrix3f, held as its three rows. */
  datatype Mat3<T> = Mat3(r0: Float3<T>, r1: Float3<T>, r2: Float3<T>) {
    function Row(r: nat): Float3<T>
      requires r < 3
    {
      if r == 0 then r0 else if r == 1 then r1 else r2
    }

    function Entry(r: nat, c: nat): T
      requires r < 3 && c < 3
    {
      Row(r).Get(c)
    }
  }

  /**
   * A dense dynamic matrix in Eigen's default column-major storage:
   * entry (r, c) is element c * rows + r of data, and data holds
   * rows * cols elements.
   */
  datatype Matrix<T> = Matrix(rows: nat, cols: nat, data: seq<T>) {
    predicate Valid() {
      |data| == rows * cols
    }

    function At(r: nat, c: nat): T
      requires Valid() && r < rows && c < cols
    {
      CellInBounds(rows, cols, r, c);
      data[c * rows + r]
    }
  }

  /** The storage position of an entry inside the matrix lies inside data. */
  lemma CellInBounds(rows: nat, cols: nat, r: nat, c: nat)
    requires r < rows && c < cols
    ensures c * rows + r < rows * cols
  {
    MulMonotone(c + 1, cols, rows);
  }

  lemma MulMonotone(a: nat, b: nat, k: nat)
    requires a <= b
    ensures a * k <= b * k
  {
  }

  /** Rows 0, 1 and 2 of column c, as one vector. */
  function Column3<T>(m: Matrix<T>, c: nat): Float3<T>
    requires m.Valid() && 3 <= m.rows && c < m.cols
  {
    Float3(m.At(0, c), m.At(1, c), m.At(2, c))
  }

  /** The first n columns of m have the three rows that Column3 reads. */
  predicate HasColumns3<T>(m: Matrix<T>, n: nat) {
    m.Valid() && (n == 0 || (3 <= m.rows && n <= m.cols))
  }

  /** Rows 0, 1 and 2 of each of the first n columns. */
  function Columns3<T>(m: Matrix<T>, n: nat): (vs: seq<Float3<T>>)
    requires HasColumns3(m, n)
    ensures |vs| == n
  {
    seq(n, i requires 0 <= i < n => Column3(m, i))
  }

  /** A 1 x |s| matrix whose single row is s. */
  function RowMatrix<T>(s: seq<T>): (m: Matrix<T>)
    ensures m.Valid() && m.rows == 1 && m.cols == |s|
    ensures forall i :: 0 <= i < |s| ==> m.At(0, i) == s[i]
  {
    Matrix(1, |s|, s)
  }

  /** The components of vs laid out vector after vector. */
  function Components<T>(vs: seq<Float3<T>>): seq<T>
  {
    if vs == [] then [] else [vs[0].x, vs[0].y, vs[0].z] + Components(vs[1..])
  }

  lemma {:induction false} ComponentsLength<T>(vs: seq<Float3<T>>)
    ensures |Components(vs)| == 3 * |vs|
  {
    if vs != [] {
      ComponentsLength(vs[1..]);
    }
  }

  lemma {:induction false} ComponentsAt<T>(vs: seq<Float3<T>>, i: nat, r: nat)
    requires i < |vs| && r < 3
    ensures |Components(vs)| == 3 * |vs|
    ensures Components(vs)[3 * i + r] == vs[i].Get(r)
  {
    ComponentsLength(vs);
    if i > 0 {
      ComponentsAt(vs[1..], i - 1, r);
    }
  }

  /** A 3 x |vs| matrix whose column i is vs[i]. */
  function ColumnsMatrix<T>(vs: seq<Float3<T>>): (m: Matrix<T>)
    ensures m.Valid() && m.rows == 3 && m.cols == |vs|
  {
    ComponentsLength(vs);
    Matrix(3, |vs|, Components(vs))
  }

  /** Reading the columns of ColumnsMatrix(vs) back gives vs again. */
  lemma ColumnsMatrixRoundTrip<T>(vs: seq<Float3<T>>)
    ensures HasColumns3(ColumnsMatrix(vs), |vs|)
    ensures Columns3(ColumnsMatrix(vs), |vs|) == vs
  {
    var m := ColumnsMatrix(vs);
    forall i | 0 <= i < |vs|
      ensures Column3(m, i) == vs[i]
    {
      ComponentsAt(vs, i, 0);
      ComponentsAt(vs, i, 1);
      ComponentsAt(vs, i, 2);
    }
  }

  /** The components of each point followed by the homogeneous coordinate w. */
  function HomogeneousData<T>(pts: seq<Float3<T>>, w: T): seq<T>
  {
    if pts == [] then [] else [pts[0].x, pts[0].y, pts[0].z, w] + HomogeneousData(pts[1..], w)
  }

  lemma {:induction false} HomogeneousDataLength<T>(pts: seq<Float3<T>>, w: T)
    ensures |HomogeneousData(pts, w)| == 4 * |pts|
  {
    if pts != [] {
      HomogeneousDataLength(pts[1..], w);
    }
  }

  lemma {:induction false} HomogeneousDataAt<T>(pts: seq<Float3<T>>, w: T, i: nat, r: nat)
    requires i < |pts| && r < 4
    ensures |HomogeneousData(pts, w)| == 4 * |pts|
    ensures HomogeneousData(pts, w)[4 * i + r] == if r == 3 then w else pts[i].Get(r)
  {
    HomogeneousDataLength(pts, w);
    if i > 0 {
      HomogeneousDataAt(pts[1..], w, i - 1, r);
    }
  }

  /**
   * The 4 x |pts| homogeneous feature matrix of a 3D point cloud: column i
   * holds pts[i] and, in row 3, the homogeneous coordinate w.
   */
  function Homogeneous<T>(pts: seq<Float3<T>>, w: T): (m: Matrix<T>)
    ensures m.Valid() && m.rows == 4 && m.cols == |pts|
  {
    HomogeneousDataLength(pts, w);
    Matrix(4, |pts|, HomogeneousData(pts, w))
  }

  lemma HomogeneousColumn<T>(pts: seq<Float3<T>>, w: T, i: nat)
    requires i < |pts|
    ensures Column3(Homogeneous(pts, w), i) == pts[i]
    ensures Homogeneous(pts, w).At(3, i) == w
  {
    HomogeneousDataAt(pts, w, i, 0);
    HomogeneousDataAt(pts, w, i, 1);
    HomogeneousDataAt(pts, w, i, 2);
    HomogeneousDataAt(pts, w, i, 3);
  }
}
