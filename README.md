# torchure_smplx core, modelled in Dafny

This project models the algorithmic core of `torchure_smplx`, a C++/LibTorch port of the
SMPL body model. The model has one module per source file:

- **Converter** (`include/smplx/converter.hpp`): `.npy` arrays to tensors. `convertTensor`
  gathers a 2-D or 3-D array into row-major order, from C or Fortran storage order.
  `cnpyToTensor` dispatches on the dtype.
- **Utils** (`include/utils.hpp`): the case-insensitive file-extension check, and the 2-D and
  3-D `load_tensor`, which flatten nested vectors.
- **KnnSort** and **Knn** (`thirdparty/chamferdist/chamfer.h`): the K-nearest-neighbour
  front end. It covers:
  - the invalid-slot mask, with the sort and gather of each row of K slots;
  - `mask_invalid_dists`, `KNNPointsFunction::forward` and `backward`;
  - `knn_gather` and `knn_points`, over a brute-force reference backend.
- **Chamfer** (`thirdparty/chamferdist/chamfer.h`): `ChamferDistance::forward`. It covers the
  input checks, the nearest-neighbour query in each direction, the point and batch
  reductions, and the choice between the forward, reverse and bidirectional results.
- **BodyModel**, **SmplNpz** and **SmplJson** (`src/model/smplx.cpp`, `body_models.cpp`): the
  bookkeeping of `SMPL::construct` and `SMPL::forward_impl`.
  - `construct` fills in the shape coefficients and the kid-template column, the zero
    defaults of absent parameters, the template override and the `posedirs` reshape.
  - `forward_impl` builds the full pose and the batch size, broadcasts `betas`, adds the
    translation and selects the optional outputs.
  - The class `BodyModel.Smpl` holds the fields these two functions update.
  - SmplNpz reads the arrays from an `.npz` archive; SmplJson reads them from a JSON document.
- **Text** and **Obj** (`fitting.cpp`, `benchmark.cpp`): `save_obj`. It writes one `v` line
  per vertex, then one `f` line per face with 1-based indices, through the class `Obj.ObjFile`.
- **Convert** (`convert.py`): the pickle-to-JSON converter. It covers:
  - the key loop that skips entries it cannot convert;
  - the gender read from character 11 of the file name;
  - the output path, and the run over every model on the command line.
- **CnpyTest** (`tests/cnpy/test_cnpy_smplx.cpp`): `shapeMatches`, the table of expected
  shapes and dtypes, and the loop that converts and checks each array of an SMPL archive.

Tensors are Dafny sequences, and real numbers are Dafny `real`. `Knn.Dist` is a squared
distance or the `Inf` marker that stands for `INFINITY`. Every `std::runtime_error` or
`TORCH_CHECK` becomes an `Err`/`Fail` value that carries the source's message.

## Model

| member | source | states |
|---|---|---|
| Converter.ConvertTensor | include/smplx/converter.hpp:11-76 | A rank other than 2 or 3 gives the error "Only 2D or 3D arrays are supported.". Otherwise the result is a tensor with the array's shape and the requested dtype. Its elements are the array's, read in row-major order through the storage-order map. |
| Converter.Gather2 | include/smplx/converter.hpp:23-39 | The two nested loops push exactly as many elements as the array holds. Output position t holds the storage element `Src2(t)`. |
| Converter.Gather3 | include/smplx/converter.hpp:45-68 | The three nested loops push exactly as many elements as the array holds. Output position t holds the storage element `Src3(t)`. |
| Converter.CnpyToTensor | include/smplx/converter.hpp:78-94 | The conversion succeeds iff the dtype is float32, float64, int32, int64 or uint32 and the rank is 2 or 3. Any other dtype gives "Unsupported dtype in cnpyToTensor.". A supported dtype with a bad rank gives the rank error. A success keeps the array's shape and takes the requested dtype. |
| Converter.COrder2 | include/smplx/converter.hpp:33-39 | A C-order 2-D array is copied unchanged: `out[i*ncols+j] == data[i*ncols+j]`. |
| Converter.FortranOrder2 | include/smplx/converter.hpp:27-32 | A Fortran-order 2-D array is transposed into row-major order: `out[i*ncols+j] == data[j*nrows+i]`. |
| Converter.COrder3 | include/smplx/converter.hpp:59-68 | A C-order 3-D array is copied unchanged. |
| Converter.FortranOrder3 | include/smplx/converter.hpp:50-58 | A Fortran-order 3-D array gives `out[i*d1*d2+j*d2+k] == data[k*d1*d0+j*d0+i]`. |
| Converter.ReadsEachElementOnce | include/smplx/converter.hpp:20-68 | Every read position is in range, no two output positions read the same element, and every stored element is read by some output position. The conversion is therefore a permutation. |
| Converter.Src2Inverse | include/smplx/converter.hpp:27-32 | The Fortran read map of an (r, c) array and that of the transposed (c, r) array are inverse to each other. |
| Converter.Src3Inverse | include/smplx/converter.hpp:50-58 | The Fortran read map of a (d0, d1, d2) array and that of the reversed shape are inverse to each other. |
| Utils.FileName | include/utils.hpp:10 | The last path component has no '/' and is no longer than the path. |
| Utils.ExtensionShape | include/utils.hpp:10 | `path::extension()` is either empty or a '.' followed by dot-free, slash-free text. It is a suffix of the path. |
| Utils.ExtensionOfName | include/utils.hpp:10 | The extension of `stem.x`, where neither part has a '.' or '/', is `.x`. |
| Utils.Lower | include/utils.hpp:20 | `tolower` in the C locale adds 32 to an ASCII capital and leaves every other character alone. |
| Utils.EqualIgnoringCaseIff | include/utils.hpp:18-20 | The four-iterator `std::equal` with the case-folding predicate holds iff the lengths are equal and every character pair is equal after lower-casing. |
| Utils.CheckFileExt | include/utils.hpp:9-21 | The method erases one leading '.' in place and compares. It returns true iff `ExtMatches`: the extension minus its '.' equals `ext`, ignoring case. |
| Utils.DottedExtNeverMatches | include/utils.hpp:13-16 | Only the extension's own single '.' is stripped, so an `ext` that contains a '.' never matches. |
| Utils.MatchIgnoresCase | include/utils.hpp:18-20 | Two spellings of `ext` that differ only in letter case give the same answer. |
| Utils.NameMatches | include/utils.hpp:9-21 | For `stem.x`, the check holds iff `x` and `ext` have equal lengths and are equal ignoring case. |
| Utils.UpperCaseExtMatches | include/utils.hpp:18-20 | `stem.NPZ` matches `npz`. |
| Utils.ShorterExtFails | include/utils.hpp:18-19 | `stem.npz` does not match `np`: the lengths must be equal. |
| Utils.NoExtMatchesOnlyEmpty | include/utils.hpp:13-19 | A name without a '.' matches only the empty extension. |
| Utils.DotFileHasNoExt | include/utils.hpp:10-19 | `.x` has no extension, so it matches only the empty `ext`. |
| Utils.UnflattenFlatten | include/utils.hpp:45-46 | Flattening rectangular rows gives rows × cols elements. Cutting them back into rows gives the rows again. |
| Utils.FlattenUnflatten | include/utils.hpp:45-46 | Cutting a flat vector into rows and flattening again gives the vector back. |
| Utils.LoadTensor2 | include/utils.hpp:38-53 | The loop appends every row in order. The result has shape (`data.size()`, `data[0].size()`) and the requested dtype. Its data is the first rows × cols elements of the concatenation. |
| Utils.LoadTensor2Exact | include/utils.hpp:42-52 | For rectangular input every element is kept, and the loaded tensor cut into rows is `data` itself. |
| Utils.LoadTensor2At | include/utils.hpp:42-52 | For rectangular input, `flat[i*cols+j] == data[i][j]`. |
| Utils.LoadTensor3 | include/utils.hpp:55-72 | The loop appends every row of every matrix. The result has shape (`data.size()`, `data[0].size()`, `data[0][0].size()`) and the requested dtype. Its data is a prefix of the concatenation. |
| Utils.LoadTensor3At | include/utils.hpp:59-71 | For cuboid input, `flat[(a*d1+b)*d2+c] == data[a][b][c]`, and the flat length is d0 × d1 × d2. |
| KnnSort.SortedIsSorted | thirdparty/chamferdist/chamfer.h:52-53 | The values `sort(2)` returns for a row are non-decreasing. |
| KnnSort.SortPermUpToMultiset | thirdparty/chamferdist/chamfer.h:52-54 | The sort indices of the first n slots are a permutation of 0..n-1. |
| KnnSort.SortedFirstIsMin | thirdparty/chamferdist/chamfer.h:52-53 | The first sorted value is at most every slot of the row. |
| KnnSort.GatherPermutation | thirdparty/chamferdist/chamfer.h:55 | Gathering a row through a permutation of its slots keeps the multiset of its elements. |
| KnnSort.SortKeepsPairs | thirdparty/chamferdist/chamfer.h:52-55 | Sorting the distances and gathering the indices with the same permutation keeps the multiset of (distance, index) pairs. |
| KnnSort.SortPermInfTail | thirdparty/chamferdist/chamfer.h:25-28 | When the slots from m on hold INFINITY, the sort puts the sorted first m slots first and then the INFINITY slots in their original order. The sort is modelled as stable; see "## Left out". |
| Knn.Masked | thirdparty/chamferdist/chamfer.h:22-25 | Slot k of a row of batch b is replaced by the fill value exactly when `lengths2[b] <= k`. Every other slot is unchanged. |
| Knn.ValidCount | thirdparty/chamferdist/chamfer.h:23 | The number n of valid slots is at most K. Slot k is valid iff k < n. |
| Knn.MinOf | thirdparty/chamferdist/chamfer.h:47 | `lengths2.min()` is at most every length and is one of them. |
| Knn.MaskFill | thirdparty/chamferdist/chamfer.h:23-25 | `masked_fill_` in place: every row (b, p) becomes its old contents masked with `lengths2[b]`. |
| Knn.SortLastDim | thirdparty/chamferdist/chamfer.h:26-28 | Row by row, the fresh values are the sorted row and the fresh indices are its sort permutation. |
| Knn.GatherLastDim | thirdparty/chamferdist/chamfer.h:50 | `gather(2, index)`: row (b, p) of the fresh result is the source row read at the index row. |
| Knn.MaskInvalidDists | thirdparty/chamferdist/chamfer.h:17-31 | The caller's `dists` gets INFINITY in its invalid slots, in place. The returned permutation sorts that filled row. The local copy is sorted, with zero in its invalid slots. |
| Knn.Forward | thirdparty/chamferdist/chamfer.h:33-63 | As written, every returned row pair is `ForwardRow` of the backend's row. In the short-batch branch the returned `dists` is the caller's INF-filled array. Outside that branch `dists` is unchanged. Taking the minimum of no lengths is an error. |
| Knn.ForwardCorrected | thirdparty/chamferdist/chamfer.h:33-63 | The same, except that the short-batch branch returns the sorted, zeroed copy: every row pair is `ForwardRowCorrected`. |
| Knn.FullBranchSorts | thirdparty/chamferdist/chamfer.h:51-56 | Full-length branch: each row comes back non-decreasing, and the (distance, index) pairs are a permutation of the backend's. |
| Knn.ShortBranchKeepsOrder | thirdparty/chamferdist/chamfer.h:47-50 | Short-batch branch as written: the distances are not reordered. Valid slots keep the backend's values and invalid slots hold INFINITY, while `idx` is permuted. |
| Knn.ShortBranchCorrected | thirdparty/chamferdist/chamfer.h:25-29 | Corrected short-batch branch: the valid prefix holds the sorted valid distances, each with its own index. Invalid slots hold 0 and keep their index, as a stable sort leaves them; see "## Left out". |
| Knn.ShortBranchCorrectedSorts | thirdparty/chamferdist/chamfer.h:25-29 | Corrected: the valid prefix is non-decreasing and keeps every (distance, index) pair of the valid candidates. |
| Knn.CorrectionOnlyShortBranch | thirdparty/chamferdist/chamfer.h:46-57 | Outside the short-batch branch the as-written and corrected rows are equal. |
| Knn.ShortBranchMisaligns | thirdparty/chamferdist/chamfer.h:47-50 | Take distances (3, 1, 7), indices (10, 11, 12) and two valid slots. As written, `forward` returns (3, 1, INF) with (11, 10, 12), so distance 3 is paired with index 11. The corrected version returns (1, 3, 0). |
| Knn.Backward | thirdparty/chamferdist/chamfer.h:89-97 | `backward` returns exactly 7 entries. Only those for `p1` and `p2` are defined, and they are the backend's gradients. |
| Knn.SqDistSymmetric | thirdparty/chamferdist/chamfer.h:40-41 | The reference backend's squared distance is symmetric. |
| Knn.SqDistSelf | thirdparty/chamferdist/chamfer.h:40-41 | A point is at squared distance 0 from itself. |
| Knn.NearestSq | thirdparty/chamferdist/chamfer.h:40-41 | The nearest squared distance is non-negative, at most the distance to every point, and attained by some point. |
| Knn.BackendFirstIsNearest | thirdparty/chamferdist/chamfer.h:40-43 | Slot 0 of the backend's row is the nearest valid candidate's distance. Its index names a valid candidate at that distance. |
| Knn.LengthsOr | thirdparty/chamferdist/chamfer.h:174-184 | Given lengths are used as they are. Absent lengths are the full point count for every batch. |
| Knn.KnnGather | thirdparty/chamferdist/chamfer.h:104-152 | A batch mismatch gives "x and idx must have the same batch dimension.". `out[n,l,k,u] == x[n][idx[n,l,k]][u]`, except that when `min(lengths) < K` every slot with `lengths[n] <= k` is 0. It fails exactly in the listed failure cases. |
| Knn.KnnPoints | thirdparty/chamferdist/chamfer.h:153-199 | A batch-size mismatch and a dimensionality mismatch are rejected with their messages. Absent lengths default to the full sizes. Every row is the as-written `forward` of the backend's row (`ForwardRow`), short-batch branch included. `knn` is present iff `return_nn` is set, and then it is the masked gather. |
| Chamfer.SumNums | thirdparty/chamferdist/chamfer.h:282 | A sum of non-negative values is a non-negative real. A sum of zeros is 0. |
| Chamfer.MeanNums | thirdparty/chamferdist/chamfer.h:287 | The mean of nothing is NaN. The mean of non-negative values is a non-negative real. |
| Chamfer.PointReduce | thirdparty/chamferdist/chamfer.h:280-291 | `sum` and `mean` reduce an (N, P) matrix to N values. Any other name leaves it unchanged. |
| Chamfer.BatchReduce | thirdparty/chamferdist/chamfer.h:293-304 | `sum` and `mean` reduce to a scalar. Any other name leaves the value unchanged. |
| Chamfer.AddCommutes | thirdparty/chamferdist/chamfer.h:307 | `fwd + bwd` is commutative, including the broadcast case and the failing case. |
| Chamfer.ShapeCheck | thirdparty/chamferdist/chamfer.h:214-237 | The clouds pass iff they are on the same device, both have rank 3, and the batch sizes and dimensionalities are equal. |
| Chamfer.ChamferCheck | thirdparty/chamferdist/chamfer.h:214-251 | Everything checked before the first query passes iff the shape checks pass and both reduction names are sum, mean or none. A shape failure is reported first. |
| Chamfer.NearestOrZero | thirdparty/chamferdist/chamfer.h:263-264 | The value is non-negative. For a non-empty cloud it is the nearest squared distance. |
| Chamfer.NearestAll | thirdparty/chamferdist/chamfer.h:263-274 | The per-point nearest distances form an (N, P) matrix with non-negative entries. |
| Chamfer.FirstSlot | thirdparty/chamferdist/chamfer.h:274 | `select(-1, 0)` is the (N, P) matrix of slot 0. |
| Chamfer.BackendSlotZero | thirdparty/chamferdist/chamfer.h:263-264 | With full lengths and K = 1, slot 0 of the backend is the nearest squared distance. |
| Chamfer.NearestQuery | thirdparty/chamferdist/chamfer.h:263-274 | `knn_points` with K = 1, followed by slot 0, gives exactly `NearestAll`. |
| Chamfer.ChamferForward | thirdparty/chamferdist/chamfer.h:206-313 | The result is `ChamferSpec`. The warning is printed iff the shape checks pass and both flags are set. The method runs no query on a failed check, 2 queries with `reverse` or `bidirectional`, and 1 otherwise. |
| Chamfer.SpecOnPass | thirdparty/chamferdist/chamfer.h:306-312 | Once the checks pass, the result is `fwd + bwd` when bidirectional, otherwise `bwd` when reverse, otherwise `fwd`. |
| Chamfer.BidirectionalSymmetric | thirdparty/chamferdist/chamfer.h:306-307 | The bidirectional distance is the same with the clouds swapped. |
| Chamfer.BidirectionalTakesPrecedence | thirdparty/chamferdist/chamfer.h:238-241 | With both flags set, the result is that of `bidirectional` alone. |
| Chamfer.ReverseIsSwappedForward | thirdparty/chamferdist/chamfer.h:308-309 | `reverse` alone gives the forward distance with the clouds swapped. |
| Chamfer.NearestAllSelf | thirdparty/chamferdist/chamfer.h:263-274 | Every point is at distance 0 from its own cloud. |
| Chamfer.SelfDistanceZero | thirdparty/chamferdist/chamfer.h:263-312 | A cloud is at Chamfer distance 0 from itself, in every direction, under sum or mean point and batch reductions (mean/mean included). A mean needs a non-empty axis: points for the point reduction, batches for the batch reduction. |
| Chamfer.PointReduceZeros | thirdparty/chamferdist/chamfer.h:280-291 | Summing or averaging rows of zeros over the points gives zeros. |
| Chamfer.SelfReducedZero | thirdparty/chamferdist/chamfer.h:273-303 | One direction from a cloud to itself, reduced by sum or mean, is 0. |
| Chamfer.ChamferNonNegative | thirdparty/chamferdist/chamfer.h:280-312 | With sum or mean reductions over a non-empty batch of non-empty clouds, the result is a non-negative real scalar. |
| BodyModel.Zeros | src/model/smplx.cpp:74-76 | `torch::zeros({rows, cols})` has that shape and is 0 everywhere. |
| BodyModel.OrZeros | src/model/smplx.cpp:72-92 | A supplied parameter is kept. An absent one becomes zeros of the given shape. |
| BodyModel.WithDefaults | src/model/smplx.cpp:72-92 | After the defaults, every parameter is present. |
| BodyModel.DefaultShapes | src/model/smplx.cpp:72-92 | Supplied parameters are left as given. Absent ones get zeros of shape (batch, num_betas), (batch, 3), (batch, NUM_BODY_JOINTS·3) and (batch, 3). |
| BodyModel.KidDiff | src/model/smplx.cpp:60-62 | `(kid - mean(kid, 0)) - adult` is defined iff the rows broadcast and the columns broadcast (equal sizes, or either size 1), and then has the broadcast shape. A column mismatch is reported first. |
| BodyModel.AppendColumn | src/model/smplx.cpp:63 | `cat` along dimension 2 succeeds iff the difference has the shape of the basis's first two dimensions, and then adds one shape column. |
| BodyModel.KidColumn | src/model/smplx.cpp:54-64 | The kid basis keeps every adult column. Its last column is the centred kid template minus the adult template, each read through its broadcast row and column. |
| BodyModel.ShapeBasis | src/model/smplx.cpp:47-65 | In kid mode the basis has one more column. Otherwise it is the loaded basis. |
| BodyModel.ShapeStage | src/model/smplx.cpp:42-65 | On success, the basis has the loaded `shapedirs` depth, plus one in kid mode. |
| BodyModel.ReshapePosedirs | src/model/smplx.cpp:100-103 | A (V, C, P) basis becomes (P, V·C). The reshape fails only when P = 0. |
| BodyModel.ReshapeAt | src/model/smplx.cpp:100-103 | Entry [q][v·C+c] of the reshaped basis is entry [v][c][q] of the loaded one. |
| BodyModel.BufferStage | src/model/smplx.cpp:94-105 | On success, the template is the caller's if one was given and the file's otherwise, and `posedirs` is the reshaped file basis. |
| BodyModel.BuildSpec | src/model/smplx.cpp:41-126 | A successful build has `num_betas` equal to the basis depth, complete parameters and well-formed buffers. |
| BodyModel.KidModeAddsCoefficient | src/model/smplx.cpp:43-67 | `num_betas` is the file basis depth, plus one in kid mode. |
| BodyModel.BuiltBuffers | src/model/smplx.cpp:94-111 | A caller's template replaces the file's, though the file's must still load. `posedirs` is the reshaped file basis, `parents` is the table, and the parameters are the defaults on top of the caller's. |
| BodyModel.FirstLoadFailureReported | src/model/smplx.cpp:41-45 | A failure loading `shapedirs`, then `f`, is the error construction reports. When nothing loads, construction fails. |
| BodyModel.FullPose | src/model/smplx.cpp:145-146 | The full pose is defined iff the batch sizes agree. Each row is the `global_orient` row followed by the `body_pose` row. |
| BodyModel.BatchSize | src/model/smplx.cpp:148-150 | `mmax` is at least each of the three batch sizes and equal to one of them. |
| BodyModel.ExpandBetasCases | src/model/smplx.cpp:153-156 | Matching betas are untouched. A single row is repeated for the whole batch. Zero rows divide by zero. Other sizes are refused or left as they are. |
| BodyModel.AddTransl | src/model/smplx.cpp:169-170 | `x += t.unsqueeze(1)` succeeds iff `t` broadcasts, and keeps the shape of `x`. |
| BodyModel.TranslationShifts | src/model/smplx.cpp:169-170 | Every point of batch b moves by row b of the translation. Subtracting it gives the point back. |
| BodyModel.ZeroTranslation | src/model/smplx.cpp:169-170 | The default zero translation moves nothing. |
| BodyModel.PoseSpec | src/model/smplx.cpp:144-179 | The returned betas are the betas left in the parameters. |
| BodyModel.OutputPresence | src/model/smplx.cpp:172-178 | The vertices and the full pose are present iff `return_verts` and `return_full_pose` are set. The returned pose parameters are the stored ones. |
| BodyModel.SingleBetasBroadcast | src/model/smplx.cpp:153-156 | A single row of betas is stored and returned repeated over the whole batch. |
| BodyModel.MapperOnlyChangesJoints | src/model/smplx.cpp:165-167 | A joint mapper changes the joints and nothing else. |
| BodyModel.Smpl.InitParameters | src/model/smplx.cpp:72-92 | The parameters become `WithDefaults` of the old ones. `num_betas` and the buffers are unchanged. |
| BodyModel.Smpl.LoadShapes | src/model/smplx.cpp:42-69 | `shapedirs` and `faces` end as `ShapeStage` says, or the stage's error is reported. No other field changes. |
| BodyModel.Smpl.LoadBuffers | src/model/smplx.cpp:94-105 | The template, `J_regressor`, `posedirs` and the weights end as `BufferStage` says, or its error is reported. No other field changes. |
| BodyModel.Smpl.Build | src/model/smplx.cpp:41-141 | The fields end as `BuildSpec` says, or its first error is reported unchanged. |
| BodyModel.Smpl.Pose | src/model/smplx.cpp:144-179 | The result is `PoseSpec`'s. The stored betas become the expanded ones, and the buffers are unchanged. |
| SmplNpz.LoadRequired | src/model/smplx.cpp:28-39 | A missing array gives "Missing tensor in npz: '<name>'". A failed conversion gives "Failed to load tensor '<name>': <what>". Otherwise the result is the tensor. |
| SmplNpz.KidFromNpz | src/model/smplx.cpp:47-58 | A missing kid path gives "Kid template path does not exist". A failed load is reported. A missing `v_template` is `map::at`'s error. |
| SmplNpz.PreChecks | src/model/smplx.cpp:14-24 | A missing path is reported first. The checks pass iff the path exists, ends in `npz` in any case, and loads. |
| SmplNpz.Construct | src/model/smplx.cpp:10-142 | A failed pre-check is reported. After that, the model ends as `BuildSpec` over the archive's loader, or the build's error is reported. |
| SmplNpz.MissingShapedirsReported | src/model/smplx.cpp:30-42 | An archive without `shapedirs` fails with "Missing tensor in npz: 'shapedirs'". |
| SmplJson.Lookup | body_models.cpp:31-32 | `data[name]` gives the field, or null for a missing key. On null it gives null, and on any other non-object it fails. |
| SmplJson.GetReal | body_models.cpp:50 | `get<float>()` is an arithmetic read: it accepts exactly numbers and booleans, keeps a real unchanged, and reads `true` as 1 and `false` as 0. |
| SmplJson.GetInt | body_models.cpp:36 | `get<int>()` is an arithmetic read: it accepts exactly numbers and booleans, keeps integers unchanged, and reads `true` as 1 and `false` as 0. |
| SmplJson.GetListAll | body_models.cpp:31-32 | Reading a list succeeds iff every element reads, and keeps their order. |
| SmplJson.GetReals2Encode2 | body_models.cpp:90-92 | A matrix written as JSON reads back unchanged. |
| SmplJson.LoadMat2 | body_models.cpp:90-92 | The load succeeds iff the array is non-empty and holds at least rows × cols values. The shape is taken from the array and its first row. |
| SmplJson.LoadMat2Rectangular | body_models.cpp:90-92 | A rectangular array loads as itself. |
| SmplJson.JsonMatRoundTrip | body_models.cpp:90-92 | A non-empty rectangular matrix, written as JSON and loaded, comes back unchanged. |
| SmplJson.LoadCube3 | body_models.cpp:31-33 | The load succeeds iff the array has enough values. The shape comes from the array, its first matrix and that matrix's first row. |
| SmplJson.LoadCube3Cuboid | body_models.cpp:31-33 | A cuboid array loads as itself. |
| SmplJson.LoadInts2 | body_models.cpp:36-37 | The faces load iff they are non-empty and hold enough values. |
| SmplJson.JsonLoad | body_models.cpp:31-107 | Each array is read with the nesting its call site uses. A missing key reads null and fails the array read. |
| SmplJson.TemplateLoaded | body_models.cpp:90-92 | A template stored as a rectangular matrix loads unchanged. |
| SmplJson.KidFromJson | body_models.cpp:40-54 | A missing path, a file that does not open and a parse error are each reported with their message. |
| SmplJson.PreChecks | body_models.cpp:19-27 | A missing path is reported first, then a file that does not open. The checks pass iff the path exists, ends in `json`, opens and parses. |
| SmplJson.Construct | body_models.cpp:15-128 | A failed pre-check is reported. After that, the model ends as `BuildSpec` over the document's loader, or the build's error is reported. |
| SmplJson.ForwardImpl | body_models.cpp:130-173 | The forward pass is `PoseSpec` with no joint mapper, whatever mapper is configured. |
| Text.IntToStringNoSpace | fitting.cpp:29-31 | A printed integer contains no space. |
| Text.ParseIntToString | fitting.cpp:29-31 | A printed integer reads back as itself. |
| Obj.VertexTag | fitting.cpp:23-24 | Every vertex line, complete or cut short, starts with `v `. |
| Obj.FaceTag | fitting.cpp:29-31 | Every face line, complete or cut short, starts with `f `. |
| Obj.FaceLineRoundTrip | fitting.cpp:27-32 | A face line reads back as the stored 0-based indices plus one. |
| Obj.RowsOutcome | fitting.cpp:21-25 | A row loop completes iff every row has three entries. |
| Obj.WrittenComplete | fitting.cpp:21-32 | A save that does not throw writes the line of every vertex and then the line of every face, and nothing else. |
| Obj.ShortVertexStops | fitting.cpp:21-25 | A vertex row with fewer than three coordinates throws the index error. The file then holds the earlier vertex lines plus that row's unfinished start, and no face lines. |
| Obj.ShortFaceStops | fitting.cpp:27-32 | A short face row throws the index error. The file then holds every vertex line, the earlier face lines and that row's unfinished start. |
| Obj.ObjLayout | benchmark.cpp:13-26 | There are V + F lines. Line i < V is vertex i's `v` line, and line V + j is face j's `f` line. |
| Obj.ShortVertexTagged | benchmark.cpp:14-18 | Up to a short vertex row, every line written starts with `v `. |
| Obj.ObjFile.WriteVertices | fitting.cpp:21-25 | The file gains one line per vertex up to the first short row, then that row's fragment. The method reports whether every row was complete. |
| Obj.ObjFile.WriteFaces | fitting.cpp:27-32 | The same for the faces. |
| Obj.ObjFile.SaveObj | fitting.cpp:13-33 | A file that does not open gives "Could not open OBJ file for writing." and keeps its old contents. Otherwise opening empties it, it then holds exactly `Written` (its earlier lines are gone), and the outcome is `SaveOutcome`. |
| Convert.Gender | convert.py:36-41 | The gender is FEMALE, MALE or NEUTRAL. |
| Convert.GenderCases | convert.py:36-41 | FEMALE iff the name is longer than 11 characters and character 11 is 'f'. MALE iff it is longer and character 11 is 'm'. NEUTRAL otherwise. |
| Convert.GenderIgnoresDirectory | convert.py:35 | Only the last path component decides the gender. |
| Convert.Join | convert.py:43 | `path.join` with an absolute second part gives that part. |
| Convert.OutputFileName | convert.py:43 | Whatever the output directory, the file written is named `SMPL_<GENDER>.json`. |
| Convert.CurrentDirOutput | convert.py:43 | With the current directory, the output path is `./SMPL_<GENDER>.json`. |
| Convert.DocumentIsKept | convert.py:20-33 | The key loop fails iff some entry outside the guarded branch fails, and then with the first such message. Otherwise it keeps exactly the converted entries, in order. |
| Convert.KeptEntries | convert.py:21-33 | With distinct keys, a (key, value) pair is in the document iff that key's entry converted to that value. |
| Convert.SkippedAbsent | convert.py:29-33 | A key whose generic conversion raised is absent from the document. |
| Convert.FailureSticks | convert.py:21-33 | Once the loop has failed, later entries change nothing. |
| Convert.ConvertEntries | convert.py:20-33 | The loop's result is `Document(entries)`. |
| Convert.ConvertModel | convert.py:13-46 | A model whose file cannot be opened or unpickled returns that error. Otherwise its document goes to `OutputPath`, or the error of its first unguarded entry is returned. |
| Convert.RunWritesOutputPaths | convert.py:13-46 | Every file written is the output file of some model. |
| Convert.LastModelWins | convert.py:43-46 | In a run that completes, every model loaded and converted, and a model's file holds its document unless a later model writes the same path. |
| Convert.ConvertAll | convert.py:6-46 | An empty list of model paths fails the argument assertion and writes nothing. Otherwise the files and outcome are those of `Run`. |
| Convert.RunFailureSticks | convert.py:13-46 | Once a model has failed, later models write nothing. |
| Convert.LoadFailureEndsRun | convert.py:13-18 | A model whose `open` or `pickle.load` raises ends the run with that error. The files are exactly those the earlier models wrote, and no later model is converted. |
| CnpyTest.ShapeMatches | tests/cnpy/test_cnpy_smplx.cpp:13-23 | The result is true iff the ranks are equal and every dimension is equal, i.e. iff the shapes are equal. |
| CnpyTest.RunTest | tests/cnpy/test_cnpy_smplx.cpp:46-86 | The loop ends with the tensors `Kept` describes and one report per array, in iteration order. |
| CnpyTest.LoadAndRun | tests/cnpy/test_cnpy_smplx.cpp:25-27 | An archive that `npz_load` cannot load ends the test with that error, before any conversion or report. Otherwise the result is that of the loop: `Kept` and `Reports`. |
| CnpyTest.KeptNames | tests/cnpy/test_cnpy_smplx.cpp:56-67 | A name is kept iff some array of that name is in the table and converts. What is kept has the table's dtype. |
| CnpyTest.KeptTensor | tests/cnpy/test_cnpy_smplx.cpp:59-67 | With distinct names, the tensor kept is that array's conversion, with the array's shape. |
| CnpyTest.FailedNotKept | tests/cnpy/test_cnpy_smplx.cpp:59-65 | A failed conversion is never stored. |
| CnpyTest.UnknownSkipped | tests/cnpy/test_cnpy_smplx.cpp:50-54 | A name outside the table is reported as unknown and not stored. |
| CnpyTest.VertSymIdxsRejected | tests/cnpy/test_cnpy_smplx.cpp:36 | The 1-D `vert_sym_idxs` takes the rank error of the conversion. |
| CnpyTest.ExpectedShapeAccepted | tests/cnpy/test_cnpy_smplx.cpp:30-42 | Every other table entry has a supported dtype and rank 2 or 3, so an array of the expected shape converts and passes the check. |
| CnpyTest.WrongShapeReported | tests/cnpy/test_cnpy_smplx.cpp:76-80 | A known 2-D or 3-D array of another shape is stored and reported as a mismatch. |

## Findings

| source | as written | input that shows it | evidently intended | confidence | as-written member | corrected member |
|---|---|---|---|---|---|---|
| thirdparty/chamferdist/chamfer.h:47-50 | In the short-batch branch, `mask_invalid_dists` sorts and zeroes a local copy of `dists` and returns only the permutation. `forward` then returns the caller's unsorted, INF-filled `dists` together with the re-gathered `idx`, so distances and indices no longer line up. | K = 3 and `lengths2 = [2]`. The backend row has distances (3, 1, 7) and indices (10, 11, 12). `forward` returns distances (3, 1, INF) with indices (11, 10, 12). | Return the sorted copy: distances (1, 3, 0) with indices (11, 10, 12). | not executed | Knn.ShortBranchMisaligns | Knn.ShortBranchCorrectedSorts |

`Knn.KnnPoints` runs `forward` as written, so its short-batch rows carry this misalignment;
`Knn.ForwardCorrected` is the corrected `forward`. `Chamfer` asks for K = 1 and never reaches
the sorting branch, so its results do not depend on this finding.

## Left out

- The KNN backend (`KNearestNeighborIdx`, `KNearestNeighborBackward`) is declared in `knn.h`, and knn.h is not part of this model.
  - `Knn.Backend` stands in for it: a brute-force search that returns the candidates in ascending order, with ties in index order.
  - Slots past the candidate count, and rows past `lengths1[b]`, hold distance 0 and index 0. This padding is an assumption.
  - The `version` argument is ignored.
- Knn.Backward: states only which of the 7 entries are defined. The gradient values come from the backend.
- Autograd and devices are not modelled. This covers `save_for_backward`, `mark_non_differentiable`, `requires_grad_`, the float32 casts in `backward`, `.to(device)`, `.contiguous()` and `register_buffer`/`register_parameter`.
  - A device is only a label that Chamfer compares for equality.
  - The empty `is_cuda` test in `ChamferDistance::forward` does nothing and is not modelled.
- Floating point is exact `real`, and `INFINITY` is the `Inf` marker. Only the NaN of a mean over no elements is modelled.
- Chamfer.ChamferNonNegative: assumes non-empty clouds and batch, because an empty mean is NaN.
- The warning that `ChamferDistance::forward` prints is the `warned` result. The messages of `convert.py`, of `construct` and of the cnpy test are left out, except that the test's output per array is its `Report`.
- `dump_tensor` in `converter.hpp` only writes a debugging file, and is not modelled.
- The element width of each dtype is not modelled: a tensor's elements are of one generic type.
- File access is given to the model as parameters: whether a path exists or opens, and the outcome of reading a file. This covers `std::filesystem::exists`, opening `ofstream`/`ifstream`, `cnpy::npz_load`, `nlohmann::json::parse` and pickle loading.
  - Each read is a `Result`, and its failure is modelled where the source meets it. `construct` reports it (SmplNpz.PreChecks, SmplJson.PreChecks). In `convert.py` it ends the run (Convert.LoadFailureEndsRun). In the cnpy test it ends the test (CnpyTest.LoadAndRun).
  - The text of an exception raised by a library is a parameter.
- `lbs::lbs`, `VertexJointSelector` and `joint_mapper` are uninterpreted function parameters.
- `NUM_BODY_JOINTS` = 23 and the `parents` table come from headers that are not part of this model. The table is a parameter.
- The `DEBUG` prints in `smplx.cpp` and the shape prints in `body_models.cpp` are not modelled.
- BodyModel.Smpl.Build: on a failure it states only the reported error. The fields a failing build has already assigned are left unstated.
- JSON `get<float>()` narrowing to float is not modelled.
- SmplJson.LoadMat2: a ragged array with too few values makes `load_tensor` read past its buffer, which is undefined behaviour. It is modelled as an error.
- Utils.LoadTensor2: requires a non-empty input with enough values, because otherwise `from_blob` reads outside the vector.
- Utils.LoadTensor3: requires the same, for the same reason.
- Obj: number formatting is a parameter.
  - `format` prints a coordinate; `fitting.cpp` uses fixed notation with 8 decimals and `benchmark.cpp` the stream's default.
  - The narrowing of coordinates to float is part of `format`.
  - `show` prints an integer, and the round trip is proved for decimal printing.
  - The 64-bit overflow of `index + 1` is not modelled.
- Obj.ObjFile.SaveObj: one member models both `save_obj` functions (fitting.cpp:13-33 and benchmark.cpp:6-27). They differ only in `format`.
- KnnSort.SortPermInfTail: the sort of a row of K slots is modelled as a stable sort: equal distances keep their slot order. `dists.sort(2)` in `chamfer.h` uses torch's default unstable sort, which leaves the order of equal keys unspecified. What the model says about the order of tied slots is therefore an assumption. That covers the INFINITY slots here and every tie below.
- Knn.ShortBranchCorrected and Knn.ShortBranchTail: that an invalid slot keeps its index relies on the stable sort. With torch's sort, the invalid slots hold some permutation of the invalid indices.
- Knn.SortLastDim, Knn.Forward, Knn.ForwardCorrected and Knn.KnnPoints: the order of `idx` among tied distances is that of the stable sort. The distances and the multiset of (distance, index) pairs do not depend on it.
- BodyModel.AsMat, BodyModel.AsCube and BodyModel.AsInts: the model gives each loaded tensor the rank and element kind its later use needs. Templates, regressor and weights are 2-D, `shapedirs` and `posedirs` are 3-D, and `f` holds integers.
  - `construct` itself makes no such check. A tensor of another rank loads, and fails, if at all, in a later torch operation that is not modelled.
  - The messages of these three members ("expected a 2-D tensor for ...") are the model's own.
  - The integer-kind error cannot arise in the source: `cnpyToTensor(..., kUInt32)` always yields an integer tensor.
- SmplNpz.LoadRequired: an archive (`SmplNpz.Npz`) is given as each array's conversion outcome, typed by rank and kind. It is not derived from Converter.CnpyToTensor, which is modelled on its own with its shape and dtype.
- Knn.KnnPoints: the lengths are restricted to the domain of the stand-in backend: one length per batch, each between 0 and the cloud's point count (`LengthsFit`). `knn_points` itself does not check them. With K = 1, or with `return_sorted` false, any lengths tensor reaches `KNearestNeighborIdx`. Its behaviour on a negative length, an over-long length or a wrong count is in `knn.h`, which is not part of this model.
- BodyModel.ExpandBetas: zero-row `betas` make `batch_size / betas.size(0)` an integer division by zero. That is undefined behaviour in C++, typically a crash, and not a catchable error. It is modelled as the error `DivisionByZero`.
- Errors raised inside torch carry approximate texts, without the sizes torch prints. These are the broadcast, `cat`, `expand`, `min()` and `gather` messages. Only the `TORCH_CHECK` and `std::runtime_error` texts are the source's own.
- Convert: failures of the output write, `open(output_path, "w")` or `json.dump`, are not modelled. Every document that is produced is assumed to be written.
- Rows are sequences of any length, so that the index error of a row with fewer than three entries can be stated.
- Convert: the chumpy, sparse and NumPy conversions are not modelled. Each entry carries the outcome of its branch's conversion.
- `json.dump` formatting and `os.makedirs` are not modelled.
- Convert.GenderCases: states its result in terms of `FileName`, the `/`-separated last component, rather than all of `os.path.split`.
- CnpyTest: the archive is a sequence in the map's iteration order.
- The expected table describes the SMPL male model file, whose contents are not part of this model.
