# Sparse ball voting on a point cloud: buffer marshalling

This project models the core of `SparseVotingCloudGPU::process` from libcudavoting's
ROS demo node. The routine takes a libpointmatcher point cloud and runs one sparse
tensor-voting pass over it on the GPU. It does five things in order:

1. It computes the point count as the feature matrix's element count divided by four.
   It then copies rows 0, 1 and 2 of every column into a flat `float3` buffer.
2. It zero-fills the per-point `int2` log and calls the voting kernel
   `CudaVoting::sparseBallVoting`. The kernel fills a buffer of 3N `float3` field
   vectors.
3. It reshapes that buffer into N 3x3 matrices (`sparseField`). Row r of matrix i is
   field vector 3i + r. Nothing downstream uses the result.
4. It calls the tensor-split kernel `CudaVoting::tensorSplitWithField`. That kernel
   fills N stick, plate and ball saliencies and N stick and N plate orientation vectors.
5. It copies the saliencies and the stick orientations into zero-initialised 1xN, 1xN,
   1xN and 3xN matrices. It adds them to the cloud as the descriptors "stick",
   "plate", "ball" and "normals", in that order.

The model's modules are:

- `LinAlg` (linalg.dfy) holds the value types: `Float3`, `Int2`, `Mat3` (Eigen's
  `Matrix3f`, row by row) and `Matrix` (Eigen's dynamic matrix, stored column-major).
  It also holds the column and homogeneous-layout functions that the pipeline's
  properties are stated with.
- `CloudModel` (cloud.dfy) holds the point cloud as a class `DataPoints`. The class has
  the feature matrix, a map from descriptor name to matrix, and the descriptor names in
  the order they were first added. `AddDescriptor` inserts or replaces an entry.
- `SparseVoting` (sparse_voting.dfy) holds the pipeline. Each loop of `process` is a
  method over arrays with loop invariants: `ExtractPoints`, `ReshapeField` and
  `WriteSaliency`. The zero-fill is `ClearLog`. `Process` strings the steps together
  and mutates the cloud. `Pipeline` is the descriptor map that one pass writes, as a
  function of the features, sigma and the two kernels.

The element type `T` stands for `float`: the routine only copies floats and never
computes with them. The two kernels are caller-supplied functions, `VotingKernel` and
`SplitKernel`. `VotingContract` and `SplitContract` say only what `process` relies on:
for N points, the voting kernel fills 3N field vectors and N log entries, and the split
kernel fills N entries in each of its five buffers. With those contracts, every buffer
index that `process` uses is proved in range.

## Model

| member | source | states |
|---|---|---|
| `SparseVoting.Process` | src/demo_sparse_gpu.cpp:130-210 | The features are unchanged. The descriptor map is the old map merged with `Pipeline(features, sigma, vote, split)`. The label list gets "stick", "plate", "ball", "normals" added in that order. The cloud invariant is kept. |
| `SparseVoting.HomogeneousPointCount` | src/demo_sparse_gpu.cpp:132 | For a 4xN feature matrix, the point count size()/4 equals the column count, and every coordinate read is in range. |
| `SparseVoting.ExtractPoints` | src/demo_sparse_gpu.cpp:141-149 | The buffer has NumPoints entries. Entry i is (features(0,i), features(1,i), features(2,i)). The buffer equals `Coordinates(features)`. |
| `SparseVoting.ExtractHomogeneous` | src/demo_sparse_gpu.cpp:144-149 | Extraction inverts homogenisation. The coordinates of the homogeneous matrix of pts are pts, for any homogeneous coordinate w. |
| `SparseVoting.CoordinatesIgnoreRow3` | src/demo_sparse_gpu.cpp:144-149 | Row 3 is never read. Two matrices of one shape that agree on rows 0-2 give the same coordinates. |
| `SparseVoting.ClearLog` | src/demo_sparse_gpu.cpp:150-153 | The log has N entries and each one is (0, 0). This is what the voting kernel receives. |
| `SparseVoting.Zeros` | src/demo_sparse_gpu.cpp:153 | The cleared log of n entries has length n, and each entry is (0, 0). |
| `SparseVoting.ReshapeField` | src/demo_sparse_gpu.cpp:159-168 | The result has N matrices. Entry (r,c) of matrix i is component c of field vector 3i+r, and every index read is below 3N. The result equals `Reshape(field)`, and flattening it gives the field back. |
| `SparseVoting.ReshapeAt` | src/demo_sparse_gpu.cpp:161-167 | Matrix i of the reshaped field has rows field[3i], field[3i+1], field[3i+2]. |
| `SparseVoting.FlattenReshape` | src/demo_sparse_gpu.cpp:160-168 | Flattening the reshaped field gives back the raw field, so no vector is lost or reordered. |
| `SparseVoting.ReshapeFlatten` | src/demo_sparse_gpu.cpp:160-168 | Reshaping a flattened matrix sequence gives back the matrices, so the reshape is a bijection. |
| `SparseVoting.WriteSaliency` | src/demo_sparse_gpu.cpp:184-195 | The stick, plate and ball matrices are the 1xN rows of the split's saliencies. The normals matrix is the 3xN matrix whose columns are the stick orientations. The zero fill leaves no trace. |
| `SparseVoting.PipelineShape` | src/demo_sparse_gpu.cpp:185-199 | One pass writes exactly four descriptors. Stick, plate and ball are 1xN, normals is 3xN, and N is the point count. For a 4-row feature matrix, each has as many columns as the cloud. |
| `SparseVoting.PipelineEntries` | src/demo_sparse_gpu.cpp:189-195 | Entry i of stick, plate and ball is the split kernel's i-th saliency. Column i of normals is its i-th stick orientation vector. |
| `SparseVoting.EmptyCloud` | src/demo_sparse_gpu.cpp:185-199 | With N = 0, all four descriptors have zero columns and no elements. |
| `SparseVoting.PlateFieldUnused` | src/demo_sparse_gpu.cpp:177-195 | The descriptors do not depend on the plate orientation buffer. |
| `SparseVoting.LogUnused` | src/demo_sparse_gpu.cpp:151-157 | The descriptors do not depend on what the voting kernel writes to its log. |
| `SparseVoting.DescriptorOrder` | src/demo_sparse_gpu.cpp:196-199 | On a cloud without these names, the labels become the old labels followed by stick, plate, ball, normals. |
| `CloudModel.DataPoints.AddDescriptor` | src/demo_sparse_gpu.cpp:196-199 | The name maps to the new matrix. A new name goes last in the label list. The features and the other descriptors are unchanged. |
| `CloudModel.AddLabelsAppends` | src/demo_sparse_gpu.cpp:196-199 | Adding distinct names that are not yet present appends them in order. |
| `CloudModel.AddLabelsKeeps` | src/demo_sparse_gpu.cpp:196-199 | Adding names keeps the old labels as a prefix and never repeats a label. The result holds exactly the old labels and the added names. |
| `LinAlg.RowMatrix` | src/demo_sparse_gpu.cpp:185-193 | A matrix with one row and one column per element of s; entry (0,i) is s[i]. |
| `LinAlg.ColumnsMatrixRoundTrip` | src/demo_sparse_gpu.cpp:188-194 | Reading the columns of the normals layout back gives the orientation vectors. |
| `LinAlg.ComponentsAt` | src/demo_sparse_gpu.cpp:194 | In column-major 3xN storage, vector i's component r sits at element 3i + r. |
| `LinAlg.HomogeneousColumn` | src/demo_sparse_gpu.cpp:144-149 | Column i of the homogeneous matrix holds pts[i] in rows 0-2 and w in row 3. |

## Left out

- The two CUDA kernels are not modelled inside. Voting and eigen-decomposition are GPU
  floating-point code that is not part of this model. Each kernel is a function passed
  to `Process`, and its only contract is the length of each buffer it fills.
- ROS transport, parameter loading, the node's constructor, `gotCloud`, `publish` and
  `main` are left out. So are the VTK dump and the console output. They are I/O and
  configuration.
- `malloc`, `bzero` and `free` become Dafny array allocation. Dafny reclaims memory
  itself, so the eight `free` calls have no counterpart. The contents of a freshly
  allocated buffer are whatever the element type's default is, standing for malloc's
  unspecified memory.
- libpointmatcher's `addDescriptor` is an insert or replace into the descriptor map.
  The model keeps the first-insertion order of the labels. Its own checks on row and
  column counts are not part of this model.
- The `unsigned int` point count itself (line 132) wraps modulo 2^32 only for clouds
  of more than 2^34 feature elements. The model's point count is unbounded.
- `SparseVoting.ReshapeField`: the indices `i*3 + r` at lines 164-166 are computed in
  32-bit unsigned arithmetic, and so is the product `numPoints*3` in the size at line
  138. Both wrap once N >= 1431655766. The source then reads the wrong field vectors
  and allocates a buffer of only a few bytes. The model's indices and buffer lengths
  are unbounded and never wrap. The other byte-size products for `malloc` are not
  modelled either.
- `sigma` is handed to the voting kernel unchecked, as in the source. No sigma > 0
  check is modelled because the routine does none.
- The routine does not symmetrise the tensors. It checks no shapes and raises no
  shape error, and it writes the descriptors one at a time rather than all-or-nothing.
  The model does none of these either. The reshaped `sparseField` is built and never
  used, and the model builds and drops it too.
- `SparseVoting.ExtractPoints` and `SparseVoting.Process` require that every
  `features(r, i)` read (r < 3, i < size()/4) lies inside the matrix. Eigen does not
  check this in release builds, and an out-of-range read is undefined behaviour. A
  4-row homogeneous matrix always satisfies it (`HomogeneousPointCount`).
