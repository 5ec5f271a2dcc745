/** Tensor descriptors (ITensorInfo) and the shape calculator used by gather. */
module TensorInfos {
  import opened Shapes

  datatype DataType =
    | Unknown | U8 | S8 | QAsymm8 | QAsymm8Signed | QSymm8
    | U16 | S16 | F16 | BFloat16 | U32 | S32 | F32 | U64 | S64 | F64

  /** Bytes per element; an unknown type has size 0. */
  function ElementSize(dt: DataType): (n: nat)
    ensures n == 0 <==> dt == Unknown
  {
    match dt
    case Unknown => 0
    case U8 | S8 | QAsymm8 | QAsymm8Signed | QSymm8 => 1
    case U16 | S16 | F16 | BFloat16 => 2
    case U32 | S32 | F32 => 4
    case U64 | S64 | F64 => 8
  }

  /** Quantization metadata: gather only compares it for equality. */
  datatype QuantizationInfo = QuantizationInfo(scales: seq<real>, offsets: seq<int>)

  /** A tensor descriptor. A shape lists the first num_dimensions() extents. */
  datatype TensorInfo = TensorInfo(shape: Shape, dataType: DataType, quantization: QuantizationInfo)
  {
    function NumDimensions(): nat
    {
      |shape|
    }

    /** ITensorInfo::total_size(): bytes of a dense tensor; 0 until both the
        shape and the data type are set. */
    function TotalSize(): (n: nat)
      ensures n == 0 <==> ElementCount(shape) == 0 || dataType == Unknown
    {
      ElementCount(shape) * ElementSize(dataType)
    }
  }

  /** auto_init_if_empty: a descriptor whose shape holds no element takes the
      data type, shape and quantization of `source`; any other is left as is. */
  function AutoInitIfEmpty(sink: TensorInfo, source: TensorInfo): (r: TensorInfo)
    ensures ElementCount(sink.shape) == 0 ==> r == source
    ensures ElementCount(sink.shape) != 0 ==> r == sink
  {
    if ElementCount(sink.shape) == 0 then source else sink
  }

  /** A stored 32-bit index word. */
  type Word = x: nat | x < 0x1_0000_0000

  /** The word read as int32_t (two's complement). */
  function AsInt32(w: Word): (v: int)
    ensures -0x8000_0000 <= v < 0x8000_0000
    ensures v >= 0 <==> w < 0x8000_0000
    ensures v % 0x1_0000_0000 == w
  {
    if w < 0x8000_0000 then w else w - 0x1_0000_0000
  }

  /** compute_gather_shape: the dimension `axis` of the input is replaced by
      the dimensions of the index tensor, the others keep their order. */
  function ComputeGatherShape(input: Shape, indices: Shape, axis: nat): (r: Shape)
    requires axis < |input|
    ensures |r| == |input| - 1 + |indices|
    ensures forall d :: 0 <= d < axis ==> r[d] == input[d]
    ensures forall i :: 0 <= i < |indices| ==> r[axis + i] == indices[i]
    ensures forall d :: axis < d < |input| ==> r[d - 1 + |indices|] == input[d]
    ensures |indices| == 1 ==> r == input[axis := indices[0]]
  {
    input[..axis] + indices + input[axis + 1..]
  }

  /** The gathered tensor has Size(indices) slices where the input has
      input[axis]. */
  lemma GatherShapeSize(input: Shape, indices: Shape, axis: nat)
    requires axis < |input|
    ensures Size(ComputeGatherShape(input, indices, axis)) * input[axis]
         == Size(input) * Size(indices)
  {
    var a, m, b := input[..axis], input[axis..axis + 1], input[axis + 1..];
    assert input == a + m + b;
    assert ComputeGatherShape(input, indices, axis) == a + indices + b;
    SizeOfConcat(a + indices, b);
    SizeOfConcat(a, indices);
    SizeOfConcat(a + m, b);
    SizeOfConcat(a, m);
    assert Size(m) == input[axis] by {
      assert m[1..] == [];
    }
    var x, y, z, n := Size(a), Size(indices), Size(b), input[axis];
    MulComm4(x, y, z, n);
  }

  lemma MulComm4(x: nat, y: nat, z: nat, n: nat)
    ensures x * y * z * n == x * n * z * y
  {
  }
}
