# Gather: the NEON gather kernel and its reference, in Dafny

This project models the element-gather operator of the Arm Compute Library.
Gather builds an output tensor by selecting positions of an input tensor along
one axis, as an index tensor directs. The model covers two implementations:

- **`NEGatherKernel`** (src/core/NEON/kernels/NEGatherKernel.cpp), the CPU kernel:
  - `validate_arguments` / `validate` are a pure `Validate` function returning a `Status`.
  - `configure` is a method of the `GatherKernel` class. It normalises a negative
    axis, selects one of three routines, auto-initialises the output descriptor
    and stores the execution window.
  - `run` dispatches to the selected routine over a window of the output. Each
    routine first scans the index tensor (`validate_indices`). It then writes into
    the output buffer, an `array`, inside a loop proved against a specification
    function.
- **The reference `gather<T>`** (tests/validation/reference/Gather.cpp), the test
  oracle. It allocates the result and fills it with the same kind of loops.

Files and modules:

- `shapes.dfy` (`Shapes`): dense tensors. Dimension 0 varies fastest. `Offset` and
  `Coord` are proved mutually inverse.
- `windows.dfy` (`Windows`): windows and the order in which a window loop visits
  them. The step-k coordinate is `At(w, k)`. `CollapseX` gives the row windows.
  `Written` / `RowsWritten` describe the buffer after k loop steps, and
  `Over` / `RowsOver` the buffer after the whole loop.
- `tensor_info.dfy` (`TensorInfos`): the tensor descriptor, data types, the 32-bit
  index word, and the gather shape.
- `addressing.dfy` (`GatherAddressing`): one addressing rule per code path. It
  holds the whole-result functions (`Rank1Data`, `Axis0Data`, `AxisNData`,
  `MultiData`), the lemmas that relate them, and the coordinate-building and
  row-copying loops the kernel and the reference share.
- `reference_gather.dfy` (`ReferenceGather`): the reference `gather`.
- `ne_gather_kernel.dfy` (`NEGatherKernel`): validation, routine selection, index
  words and the kernel class.

Main results:

- Each kernel routine writes the positions the window reaches with its own
  addressing rule and leaves every other position unchanged. `gather_0_axis`
  writes exactly the window's coordinates. The two row routines write whole rows
  along dimension 0, one for each coordinate of the window with component 0 set
  to 0. Over the whole output the result is the reference result:
  - `gather_0_axis` and `gather_n_axis` agree with the reference rank-1 loop
    (`Axis0DataIsRank1Data`, `AxisNDataIsRank1Data`). A row copy equals the
    element copies with component 0 unchanged.
  - Multi-index gather on axis 1 equals rank-1 gather on axis 1 over the index
    tensor read in flat order (`MultiDataIsRank1Data`).
  - The identity index list returns the input unchanged (`IdentityData`).

Behaviour of the code that the model makes explicit:

- `validate_arguments` accepts an index tensor without dimensions on any axis.
  `configure` then rejects it with its "Not supported" error when the axis is not 1
  (`ValidatedArgumentsSelectRoutine`). Every other validated argument set reaches
  a routine.
- `validate_indices` reads each index word as `int32_t` whatever the template type
  U is. In a build with assertions enabled, a U32 index of 2^31 or more
  therefore aborts like a negative one (`NonNegativeBelowHalf`).
- The multi-index routine reads its row index as `uint32_t` for both index types.
  Once `validate_indices` has passed, both readings agree.
- Neither implementation checks an index against the extent it selects from.
  The model makes that a precondition (`IndicesBelow`, `IndicesUsable`) and adds
  no error for it.

Some lemmas state a promise of the design on their own and are not used by
other proofs: `VisitNext`, `VisitedAll` and `FullVisitsInOrder` describe the
window loop, and `EmptyOutputSkipsChecks`, `ValidateChecksOutput` and
`NonNegativeBelowHalf` describe validation.

Errors:

- `ARM_COMPUTE_RETURN_ERROR_ON` is the `Status` that `Validate` returns. Each
  failing check has its own `ErrorReason`, and the first failing check in source
  order wins.
- The assertion-style `ERROR_ON`, `ERROR` and `ERROR_THROW_ON` are explicit
  outcomes: `ConfigureOutcome` and `RunOutcome.Aborted`. The reference's
  "Not implemented." error is `Outcome.NotImplemented`.

## Model

| member | source | states |
|---|---|---|
| Shapes.SizeZero | src/core/NEON/kernels/NEGatherKernel.cpp:75 | a dense shape holds no element exactly when one of its extents is 0 |
| Shapes.ElementCount | src/core/NEON/kernels/NEGatherKernel.cpp:80 | total_size of a shape is the product of its extents; it is 0 exactly for a shape without dimensions or with an extent 0 |
| Shapes.Coord | tests/validation/reference/Gather.cpp:64 | the coordinates of a flat position of a dense tensor are in bounds and address that position again |
| Shapes.CoordOfOffset | tests/validation/reference/Gather.cpp:64 | dense addressing is injective: Coord undoes Offset on every in-bounds coordinate |
| Shapes.SamePosition | tests/validation/reference/Gather.cpp:64 | a flat position and an in-bounds coordinate address each other in both directions or not at all |
| Shapes.RowOffset | src/core/NEON/kernels/NEGatherKernel.cpp:121 | moving along dimension 0 moves the flat position by the same amount, so a row is contiguous |
| Shapes.RowFits | tests/validation/reference/Gather.cpp:89 | a row that starts at component 0 inside the other extents has all its shape[0] elements inside the buffer |
| Shapes.RowCoord | src/core/NEON/kernels/NEGatherKernel.cpp:165 | element j of the row that starts at r is the element at coordinates r with component 0 set to j |
| Shapes.SizeOfConcat | tests/validation/reference/Gather.cpp:43 | the element count of concatenated shapes is the product of their counts |
| Shapes.OffsetOfConcat | tests/validation/reference/Gather.cpp:84-88 | the flat position of a split coordinate is the leading part's position plus the leading size times the trailing part's position |
| Windows.At | tests/validation/reference/Gather.cpp:50 | the k-th coordinate the window loop visits lies in the window and is visited at rank k |
| Windows.AtRankIn | tests/validation/reference/Gather.cpp:50 | every coordinate of the window is visited, at its rank |
| Windows.VisitNext | tests/validation/reference/Gather.cpp:50 | each step of the loop visits exactly one new coordinate |
| Windows.VisitedAll | tests/validation/reference/Gather.cpp:50 | when the loop ends, every coordinate of the window has been visited |
| Windows.Full | tests/validation/reference/Gather.cpp:47 | use_tensor_dimensions and calculate_max_window span exactly the in-bounds coordinates of the shape |
| Windows.FullVisitsInOrder | tests/validation/reference/Gather.cpp:47-50 | over a whole shape the loop visits flat positions 0, 1, 2, ... in order |
| Windows.CollapseXRows | src/core/NEON/kernels/NEGatherKernel.cpp:155 | after Window::set(DimX, Dimension(0, 1, 1)) the loop visits exactly one coordinate per row of the window (component 0 is 0, the others range over the window), and the window's step count is its dimension-0 extent times the collapsed count |
| Windows.OverFull | tests/validation/reference/Gather.cpp:47-65 | a loop over the whole shape, element by element or row by row, leaves nothing of the previous buffer contents |
| Windows.AtInShape | src/core/NEON/kernels/NEGatherKernel.cpp:134 | the coordinate each step visits lies inside the output |
| Windows.WrittenStep | tests/validation/reference/Gather.cpp:64 | one step of the element loop writes the position of its coordinate and no other |
| Windows.WrittenAll | tests/validation/reference/Gather.cpp:50-65 | after the element loop exactly the coordinates of the window hold the new values |
| Windows.RowStart | src/core/NEON/kernels/NEGatherKernel.cpp:154-158 | the row visited at each step starts at component 0, lies in the output, and its s[0] elements fit in the buffer |
| Windows.RowSpan | src/core/NEON/kernels/NEGatherKernel.cpp:165 | the s[0] positions after a row start are exactly the positions whose coordinates lie in that row |
| Windows.RowStepAt | src/core/NEON/kernels/NEGatherKernel.cpp:158-166 | a step of the row loop adds exactly the positions of its row to those already written |
| Windows.PasteAt | src/core/NEON/kernels/NEGatherKernel.cpp:121 | after copying a block, each position holds the block's element inside it and its old value outside |
| Windows.SpliceAt | src/core/NEON/kernels/NEGatherKernel.cpp:121 | copying a block of the wanted result in place changes that block and nothing else |
| Windows.RowsWrittenAt | src/core/NEON/kernels/NEGatherKernel.cpp:158-166 | one step of the row loop, position by position: its row takes the wanted value, every other position keeps its value |
| Windows.RowsWrittenStep | src/core/NEON/kernels/NEGatherKernel.cpp:158-166 | one step of the row loop writes one contiguous block of s[0] wanted elements and nothing else |
| Windows.RowsWrittenCopy | src/core/NEON/kernels/NEGatherKernel.cpp:165 | copying a row equal to the wanted row, from wherever it is read, completes that step of the row loop |
| Windows.RowsWrittenAll | src/core/NEON/kernels/NEGatherKernel.cpp:154-167 | after the row loop exactly the rows the window reaches hold the new values |
| TensorInfos.ElementSize | src/core/NEON/kernels/NEGatherKernel.cpp:73 | an element size is 0 exactly for the UNKNOWN data type |
| TensorInfos.TensorInfo.TotalSize | src/core/NEON/kernels/NEGatherKernel.cpp:75 | total_size is 0 exactly when the shape holds no element or the data type is unknown |
| NEGatherKernel.AutoInitStaysValid | src/core/NEON/kernels/NEGatherKernel.cpp:242-244 | the output descriptor auto_init_if_empty leaves behind still passes validate_arguments; one that was empty, or that validation compared, has the input's data type and quantization and the gather shape's element count |
| TensorInfos.AsInt32 | src/core/NEON/kernels/NEGatherKernel.cpp:55 | reading an index word as int32_t gives a value congruent to it mod 2^32, negative exactly when the word is 2^31 or more |
| TensorInfos.ComputeGatherShape | tests/validation/reference/Gather.cpp:43 | compute_gather_shape replaces dimension `axis` of the input by the index dimensions and keeps the others in order |
| TensorInfos.GatherShapeSize | src/core/NEON/kernels/NEGatherKernel.cpp:79-80 | the gather shape holds Size(indices) slices where the input holds input[axis] |
| GatherAddressing.Rank1Indices | tests/validation/reference/Gather.cpp:48 | a rank-1 index tensor is the list of its elements |
| GatherAddressing.Rank1Shape | tests/validation/reference/Gather.cpp:57 | for a rank-1 index list the gather shape differs from the input only at `axis`, which is the list length |
| GatherAddressing.MultiShape | tests/validation/reference/Gather.cpp:76-86 | for an index tensor on axis 1 the gather shape is [in0] + index shape + the input extents from 2 on |
| GatherAddressing.Axis0MatchesElementRule | src/core/NEON/kernels/NEGatherKernel.cpp:136-141 | for axis 0, gather_0_axis reads the same input element as the reference element rule |
| GatherAddressing.AxisNMatchesElementRule | src/core/NEON/kernels/NEGatherKernel.cpp:160-165 | for axis >= 1, element c[0] of the row gather_n_axis copies is the element the reference reads for c |
| GatherAddressing.MultiCoordParts | src/core/NEON/kernels/NEGatherKernel.cpp:106-118 | for an output coordinate in bounds, index_offset is inside the index tensor and the trailing components are inside the input |
| GatherAddressing.FlattenKeepsOffset | tests/validation/reference/Gather.cpp:72-89 | a multi-index output coordinate and its flattened rank-1 counterpart are in bounds and have the same flat position |
| GatherAddressing.MultiIsFlattenedRank1 | tests/validation/reference/Gather.cpp:72-89 | the element the multi-index row copy puts at c is the element the rank-1 rule puts at Flatten(c), at the same flat position |
| GatherAddressing.MultiSourceIsElementSource | tests/validation/reference/Gather.cpp:81-87 | src_offset with component 0 moved to c[0] is the source coordinate the rank-1 rule computes for Flatten(c) |
| GatherAddressing.IdentityGather | tests/validation/reference/Gather.cpp:50-64 | with the index list 0..n-1 the gather shape is the input shape and every coordinate reads its own element |
| GatherAddressing.Axis0DataIsRank1Data | src/core/NEON/kernels/NEGatherKernel.cpp:133-143 | over the whole output, gather_0_axis gives the reference rank-1 result for axis 0 |
| GatherAddressing.AxisNDataIsRank1Data | src/core/NEON/kernels/NEGatherKernel.cpp:154-167 | over the whole output, gather_n_axis gives the reference rank-1 result for every axis >= 1 |
| GatherAddressing.MultiSize | tests/validation/reference/Gather.cpp:43 | the multi-index output has as many elements as the rank-1 output over the flattened index list |
| GatherAddressing.MultiDataIsRank1Data | tests/validation/reference/Gather.cpp:69-90 | multi-index gather on axis 1 equals, position by position, rank-1 gather on axis 1 over the index tensor in flat order |
| GatherAddressing.IdentityData | tests/validation/reference/Gather.cpp:48-65 | gathering along any axis with the index list 0..n-1 returns the input data unchanged |
| GatherAddressing.ElementAt | tests/validation/reference/Gather.cpp:64 | the reference result at the position of c is the source element at offset (indices[c[axis]] on the axis, c elsewhere) |
| GatherAddressing.Axis0At | src/core/NEON/kernels/NEGatherKernel.cpp:138-141 | the gather_0_axis result at the position of id is the input element at id with component 0 set to indices[id[0]] |
| GatherAddressing.AxisNRowAt | src/core/NEON/kernels/NEGatherKernel.cpp:165 | element j of each output row is element j of the input row at gather_id, and both rows lie inside their buffers |
| GatherAddressing.AxisNRowMatches | src/core/NEON/kernels/NEGatherKernel.cpp:160-165 | the output row at id is, element by element, the input row that starts at gather_id |
| GatherAddressing.RowSourceFits | src/core/NEON/kernels/NEGatherKernel.cpp:162-165 | the gather_id of an output row start is a row start inside the input |
| GatherAddressing.MultiRuleValue | src/core/NEON/kernels/NEGatherKernel.cpp:104-121 | the multi-index rule at c reads element c[0] of the input row at src_offset for c's row, and that element lies inside the input |
| GatherAddressing.MultiRowAt | src/core/NEON/kernels/NEGatherKernel.cpp:119-121 | element j of each output row of the multi-index copy is element j of the input row at src_offset |
| GatherAddressing.MultiRowMatches | src/core/NEON/kernels/NEGatherKernel.cpp:104-121 | the output row at id is, element by element, the input row at src_offset, and both lie inside their buffers |
| GatherAddressing.MultiRowSourceFits | src/core/NEON/kernels/NEGatherKernel.cpp:106-119 | for a row start in the output, index_offset is inside the index tensor and src_offset starts a row inside the input |
| GatherAddressing.BuildIndexOffset | src/core/NEON/kernels/NEGatherKernel.cpp:105-109 | the index_offset loop builds (id[1], ..., id[R]) |
| GatherAddressing.BuildSourceOffset | src/core/NEON/kernels/NEGatherKernel.cpp:111-118 | the src_offset loop builds (0, row, id[1+R], id[2+R], ...), one component per input dimension |
| GatherAddressing.CopyRow | src/core/NEON/kernels/NEGatherKernel.cpp:121 | memcpy of n elements: the destination block takes the source block and nothing else changes |
| GatherAddressing.CopyRowStep | src/core/NEON/kernels/NEGatherKernel.cpp:119-121 | copying a row that matches the wanted result takes the buffer from k to k + 1 completed steps of the row loop |
| GatherAddressing.MultiStepIn | src/core/NEON/kernels/NEGatherKernel.cpp:104-110 | each step of the multi-index loop visits a row start of the output and reads the index tensor inside its bounds |
| GatherAddressing.MultiRowOffsets | src/core/NEON/kernels/NEGatherKernel.cpp:104-119 | for step k, the output row start, the input row start (through index_offset, row and src_offset) and that the input row is the wanted output row |
| GatherAddressing.GatherRow | tests/validation/reference/Gather.cpp:72-90 | one step of the multi-index row loop (the same code in the kernel) writes the next row of the result and nothing else |
| GatherAddressing.AxisNStepIn | src/core/NEON/kernels/NEGatherKernel.cpp:158-163 | each step of the gather_n_axis loop visits a row start of the output whose gather_id starts a row of the input |
| ReferenceGather.Gather | tests/validation/reference/Gather.cpp:39-99 | the result has the gather shape; it is the rank-1 result for rank-1 indices, the multi-index result on axis 1, and "Not implemented" otherwise, including an index tensor without dimensions on an axis other than 1 |
| ReferenceGather.GatherElements | tests/validation/reference/Gather.cpp:48-66 | the rank-1 branch writes every result coordinate with the source element its offset selects |
| ReferenceGather.BuildOffset | tests/validation/reference/Gather.cpp:52-63 | the offset loop gives indices[id[dim]] on the axis and id[dim] elsewhere |
| ReferenceGather.GatherRows | tests/validation/reference/Gather.cpp:69-91 | the multi-index branch on axis 1 fills the whole result with one input row per result row |
| NEGatherKernel.NormalizeAxis | src/core/NEON/kernels/NEGatherKernel.cpp:66-71 | a negative axis has the rank added to it; the result is in range exactly when -rank <= axis < rank, and a valid axis is kept |
| NEGatherKernel.Validate | src/core/NEON/kernels/NEGatherKernel.cpp:61-86 | the status is Ok exactly when all descriptors are present and every check holds; a null descriptor, rank > 4, UNKNOWN input type or a non-U32/S32 index type are errors |
| NEGatherKernel.EmptyOutputSkipsChecks | src/core/NEON/kernels/NEGatherKernel.cpp:75-81 | when the output holds nothing, its data type, quantization and shape do not affect the status |
| NEGatherKernel.ValidateChecksOutput | src/core/NEON/kernels/NEGatherKernel.cpp:75-81 | a set output that passes validation has the input's data type and quantization and the gather shape's element count |
| NEGatherKernel.IndexTypeOf | src/core/NEON/kernels/NEGatherKernel.cpp:190-200 | the index type U exists exactly for U32 and S32, and it is uint32_t exactly for U32 |
| NEGatherKernel.SelectRoutine | src/core/NEON/kernels/NEGatherKernel.cpp:186-240 | rank-1 indices select gather_0_axis on axis 0 and gather_n_axis otherwise; other ranks select the multi-index routine on axis 1 and fail otherwise |
| NEGatherKernel.ValidatedArgumentsSelectRoutine | src/core/NEON/kernels/NEGatherKernel.cpp:180-240 | after validation the axis check at line 184 cannot fail, and "Not supported" is reached exactly for an index tensor without dimensions on an axis other than 1 |
| NEGatherKernel.NonNegativeBelowHalf | src/core/NEON/kernels/NEGatherKernel.cpp:55-57 | every index read as int32_t is non-negative exactly when every stored word is below 2^31 |
| NEGatherKernel.ValidateIndices | src/core/NEON/kernels/NEGatherKernel.cpp:48-59 | the scan passes exactly when no index word read as int32_t is negative |
| NEGatherKernel.ReadIndex | src/core/NEON/kernels/NEGatherKernel.cpp:138 | an index read through U: the word itself for uint32_t, and for int32_t a value congruent to it that equals it when non-negative |
| NEGatherKernel.GatherKernel.constructor | src/core/NEON/kernels/NEGatherKernel.cpp:89-92 | a new kernel holds no tensors, axis 0, no routine and no window |
| NEGatherKernel.GatherKernel.Configure | src/core/NEON/kernels/NEGatherKernel.cpp:170-250 | null and rejected arguments change nothing; otherwise the tensors and the normalised axis are stored, and then either "Not supported" or the selected routine, the auto-initialised output, which still validates, and the full output window; the tensors' buffers are never replaced, so a configured kernel can be run; after "Not supported" the kernel is consistent exactly when no earlier configure had succeeded |
| NEGatherKernel.GatherKernel.Run | src/core/NEON/kernels/NEGatherKernel.cpp:258-265 | aborts as unconfigured exactly when configure has not succeeded; completes exactly when the indices are non-negative and, for the multi-index routine, of rank 2..3; on completion the window's positions hold the selected routine's result, and over the whole output the reference result |
| NEGatherKernel.GatherKernel.Gather0 | src/core/NEON/kernels/NEGatherKernel.cpp:125-144 | aborts without writing on a negative index; otherwise inside the window output[id] = input[id with component 0 := indices[id[0]]], and outside it nothing changes |
| NEGatherKernel.GatherKernel.GatherN | src/core/NEON/kernels/NEGatherKernel.cpp:146-168 | aborts without writing on a negative index; otherwise every row the window reaches is the input row at gather_id, and no other position changes |
| NEGatherKernel.GatherKernel.GatherMultiIndices | src/core/NEON/kernels/NEGatherKernel.cpp:94-123 | completes exactly when the index rank is 2..3 and no index is negative, and otherwise aborts for the first of those checks that fails without writing; on completion every row the window reaches is the input row at src_offset, and no other position changes |
| NEGatherKernel.AxisNRowOffsets | src/core/NEON/kernels/NEGatherKernel.cpp:160-165 | for step k, the output row start and the start of the input row at gather_id, and that the input row is the wanted output row |
| NEGatherKernel.GatherNRow | src/core/NEON/kernels/NEGatherKernel.cpp:158-166 | one step of the gather_n_axis loop writes the next row of the result and nothing else |

## Left out

- NEGatherKernel.GatherKernel.Run: requires the output shape to be the gather
  shape. `validate_arguments` compares only element counts, and the routines
  address the output by the gather shape's coordinates.
- NEGatherKernel.GatherKernel.Run: requires every index to be below the extent it
  selects from (`IndicesUsable`). Neither implementation checks this, and an index
  out of range would read outside the input.
- NEGatherKernel.GatherKernel.Configure: requires the output to be a different
  tensor from the input and the indices, because it writes the output descriptor.
- ReferenceGather.Gather: requires the indices to be in range when a branch reads
  them, for the same reason.
- ReferenceGather.Gather: requires an index tensor without dimensions to come
  with an axis other than 1, where it reaches "Not implemented.". On axis 1 the
  multi-index branch would run with no index dimensions, which is not modelled.
- Assertions: the model is of a build with assertions enabled.
  `ARM_COMPUTE_ERROR_ON` at NEGatherKernel.cpp:57 (a negative index) and at
  NEGatherKernel.cpp:98 (an index rank outside 2..3) are aborts of `Run`, and so is
  `ARM_COMPUTE_ERROR_ON_UNCONFIGURED_KERNEL` at NEGatherKernel.cpp:261. Without
  assertions these checks compile to nothing. `validate_indices` then rejects
  nothing, negative or large U32 indices are used as offsets, and the multi-index
  routine runs with any index rank. The model says nothing about that build.
- Threads: `ThreadInfo` and the splitting of the window across threads are left
  out. `Run` runs one window, sequentially. The model proves that it writes only
  the positions that window reaches. For the two row routines these are whole
  rows along dimension 0, whatever the window's dimension-0 range is.
- Pointers and buffers: strides, padding, `ptr_to_element`, `Iterator`, and the
  byte counts of `memcpy`/`copy_n`. Tensors are dense, and copies move whole
  elements.
- Element types: T is generic, because no arithmetic is done on elements. The
  float and half instantiations need nothing more.
- TensorShape details:
  - `TensorShape` drops trailing extents of 1 from `num_dimensions()`. The model's
    rank is the length of the listed shape.
  - `use_tensor_dimensions` widens a zero extent to 1. The model's full window
    uses the extents as they are. These differ only for tensors without elements.
- Channels: the number-of-channels part of the index data type check is not
  modelled. Every tensor has one channel.
- Quantization: quantization information is an opaque value that is only compared
  for equality.
- Snapshots: the routines read the input and the index buffers as values taken
  when the routine starts. Nothing writes them while a routine runs, since the
  output is a different buffer.
- NEGatherKernel.GatherKernel.Run: requires `Valid()`. A configure that ends in
  "Not supported" after an earlier successful one stores the new tensors and
  axis but keeps the old routine and window (NEGatherKernel.cpp:175-183). In the
  source, `run` would then apply the old routine to the new tensors. `Configure`
  states that the kernel is then not `Valid()`, and `Run` on that state is not
  modelled.
- Impossible checks: the `ERROR_ON` at NEGatherKernel.cpp:184 and the
  `_func == nullptr` check at NEGatherKernel.cpp:262 cannot fail once configure
  has succeeded, so they have no outcome of their own. `ValidatedArgumentsSelectRoutine`
  proves the first, and the class invariant `Valid` guarantees the second.
- Helpers whose code is not shown (`compute_gather_shape`,
  `calculate_max_window`, `auto_init_if_empty`, `execute_window_loop`) are
  modelled by their effect, as the kernel and the reference use them.
