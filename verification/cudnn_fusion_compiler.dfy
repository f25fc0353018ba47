/** The decision logic of the cuDNN GEMM-fusion compiler: the opcode and
    element-type tables, the canonical dimension/stride layout built by
    `GemmDimensionAdapter::DimensionsAndStrides`, the choice of an execution
    plan, the per-fingerprint workspace-size cache of `CuDnnFusionVisitor`
    and `GetAvailablePlanCount`.

    The cuDNN frontend and the HLO IR are not part of this model: the
    version of cuDNN is a parameter, `TritonFusionAnalysis::IterSpec` is given
    as a map from dimension index to iteration fragments, and a prepared
    graph is given by its plan count, which plans build and the workspace
    size each built plan needs. */
module CuDnnFusionCompiler {
  import opened Status

  /** `CUDNN_VERSION` from which `kSelect` and integer math are supported. */
  const SelectAndIntegerMathVersion: nat := 90100

  // ---------------------------------------------------------------------
  // GetElementwiseMode

  datatype ComparisonDirection = Eq | Ne | Ge | Gt | Le | Lt

  /** The HLO opcodes the fusion compiler distinguishes; `Other` stands for
      every opcode it does not name. */
  datatype HloOpcode =
    | Abs | Add | Compare(direction: ComparisonDirection) | Convert | Cos | Divide | Exp | Log
    | Maximum | Minimum | Multiply | Negate | Power | Rsqrt | Select | Sin | Sqrt | Subtract
    | Tan | Tanh
    | Atan2 | Clamp | Remainder | Broadcast | Bitcast | Constant | Copy | CustomCall | Dot
    | Parameter | Reshape | Transpose | Tuple
    | Other(name: string)

  /** `cudnn_frontend::PointwiseMode_t`, as far as the table uses it. */
  datatype PointwiseMode =
    | AbsMode | AddMode | CmpEq | CmpNeq | CmpGe | CmpGt | CmpLe | CmpLt | IdentityMode
    | CosMode | DivMode | ExpMode | LogMode | MaxMode | MinMode | MulMode | NegMode | PowMode
    | RsqrtMode | BinarySelectMode | SinMode | SqrtMode | SubMode | TanMode | TanhFwdMode

  /** The opcodes that have a pointwise mode at every cuDNN version. */
  const VersionIndependentOpcodes: set<HloOpcode> :=
    {Abs, Add, Convert, Cos, Divide, Exp, Log, Maximum, Minimum, Multiply, Negate, Power,
     Rsqrt, Sin, Sqrt, Subtract, Tan, Tanh}

  /** `GetElementwiseMode`: the pointwise mode of an elementwise HLO, or none
      when cuDNN has no mode for it. */
  function GetElementwiseMode(opcode: HloOpcode, cudnnVersion: nat): (r: Option<PointwiseMode>)
    ensures opcode.Compare? ==> r.Some? && r.value in {CmpEq, CmpNeq, CmpGe, CmpGt, CmpLe, CmpLt}
    ensures opcode == Convert ==> r == Some(IdentityMode)
    ensures opcode == Select ==> (r.Some? <==> cudnnVersion >= SelectAndIntegerMathVersion)
    ensures !opcode.Compare? && opcode !in VersionIndependentOpcodes && opcode != Select ==> r.None?
    ensures opcode in VersionIndependentOpcodes ==> r.Some?
  {
    match opcode
    case Abs => Some(AbsMode)
    case Add => Some(AddMode)
    case Compare(direction) =>
      (match direction
       case Eq => Some(CmpEq)
       case Ne => Some(CmpNeq)
       case Ge => Some(CmpGe)
       case Gt => Some(CmpGt)
       case Le => Some(CmpLe)
       case Lt => Some(CmpLt))
    case Convert => Some(IdentityMode)
    case Cos => Some(CosMode)
    case Divide => Some(DivMode)
    case Exp => Some(ExpMode)
    case Log => Some(LogMode)
    case Maximum => Some(MaxMode)
    case Minimum => Some(MinMode)
    case Multiply => Some(MulMode)
    case Negate => Some(NegMode)
    case Power => Some(PowMode)
    case Rsqrt => Some(RsqrtMode)
    case Select => if cudnnVersion >= SelectAndIntegerMathVersion then Some(BinarySelectMode) else None
    case Sin => Some(SinMode)
    case Sqrt => Some(SqrtMode)
    case Subtract => Some(SubMode)
    case Tan => Some(TanMode)
    case Tanh => Some(TanhFwdMode)
    case _ => None
  }

  /** The table read backwards: the one opcode each mode comes from. */
  function OpcodeOfMode(mode: PointwiseMode): HloOpcode {
    match mode
    case AbsMode => Abs
    case AddMode => Add
    case CmpEq => Compare(Eq)
    case CmpNeq => Compare(Ne)
    case CmpGe => Compare(Ge)
    case CmpGt => Compare(Gt)
    case CmpLe => Compare(Le)
    case CmpLt => Compare(Lt)
    case IdentityMode => Convert
    case CosMode => Cos
    case DivMode => Divide
    case ExpMode => Exp
    case LogMode => Log
    case MaxMode => Maximum
    case MinMode => Minimum
    case MulMode => Multiply
    case NegMode => Negate
    case PowMode => Power
    case RsqrtMode => Rsqrt
    case BinarySelectMode => Select
    case SinMode => Sin
    case SqrtMode => Sqrt
    case SubMode => Subtract
    case TanMode => Tan
    case TanhFwdMode => Tanh
  }

  /** No two opcodes share a mode (so the six comparison directions get six
      different modes), and every mode is reached at every version, except
      BINARY_SELECT, which is reached from cuDNN 9.1 on. */
  lemma ElementwiseModeIsOneToOne(opcode: HloOpcode, mode: PointwiseMode, cudnnVersion: nat)
    ensures GetElementwiseMode(opcode, cudnnVersion) == Some(mode) ==> OpcodeOfMode(mode) == opcode
    ensures mode != BinarySelectMode || cudnnVersion >= SelectAndIntegerMathVersion ==>
              GetElementwiseMode(OpcodeOfMode(mode), cudnnVersion) == Some(mode)
  {
  }

  // ---------------------------------------------------------------------
  // ToCudnnDataType, GetComputeDataType

  datatype PrimitiveType =
    | Pred | S4 | S8 | S16 | S32 | S64 | U4 | U8 | U16 | U32 | U64
    | F8E5M2 | F8E4M3FN | F16 | BF16 | F32 | F64 | C64 | C128 | TupleType | TokenType

  /** `cudnn_frontend::DataType_t`, as far as the tables use it. */
  datatype CudnnDataType = Float | Half | Bfloat16 | Int32 | Int8

  /** `primitive_util::IsIntegralType`: the signed and unsigned integer types. */
  predicate IsIntegralType(t: PrimitiveType) {
    t in {S4, S8, S16, S32, S64, U4, U8, U16, U32, U64}
  }

  /** `ToCudnnDataType`: five element types map to their cuDNN type, and PRED
      is carried as INT8; every other type has no cuDNN type. */
  function ToCudnnDataType(t: PrimitiveType): (r: Option<CudnnDataType>)
    ensures r.Some? <==> t in {F32, F16, BF16, S32, S8, Pred}
    ensures t == Pred ==> r == Some(Int8)
  {
    match t
    case F32 => Some(Float)
    case F16 => Some(Half)
    case BF16 => Some(Bfloat16)
    case S32 => Some(Int32)
    case S8 => Some(Int8)
    case Pred => Some(Int8)
    case _ => None
  }

  /** The element type each cuDNN type stands for (INT8 for S8). */
  function FromCudnnDataType(d: CudnnDataType): PrimitiveType {
    match d
    case Float => F32
    case Half => F16
    case Bfloat16 => BF16
    case Int32 => S32
    case Int8 => S8
  }

  /** The mapping is one-to-one except that PRED and S8 share INT8. */
  lemma CudnnDataTypeInverse(t: PrimitiveType, d: CudnnDataType)
    ensures ToCudnnDataType(FromCudnnDataType(d)) == Some(d)
    ensures ToCudnnDataType(t) == Some(d) ==> t == FromCudnnDataType(d) || (t == Pred && d == Int8)
  {
  }

  /** `GetComputeDataType`: FLOAT for every non-integral type; INT32 for
      integral types, which need cuDNN 9.1. */
  function GetComputeDataType(t: PrimitiveType, cudnnVersion: nat): (r: Option<CudnnDataType>)
    ensures !IsIntegralType(t) ==> r == Some(Float)
    ensures IsIntegralType(t) ==> (r.Some? <==> cudnnVersion >= SelectAndIntegerMathVersion)
    ensures IsIntegralType(t) && cudnnVersion >= SelectAndIntegerMathVersion ==> r == Some(Int32)
  {
    if IsIntegralType(t) then
      if cudnnVersion >= SelectAndIntegerMathVersion then Some(Int32) else None
    else Some(Float)
  }

  // ---------------------------------------------------------------------
  // GemmDimensionAdapter::DimensionsAndStrides

  /** `TritonFusionAnalysis::Scope`. */
  datatype Scope = LHS | RHS | OUTPUT | META

  /** One fragment of an iteration spec. */
  datatype IterFragment = IterFragment(count: int, stride: int)

  /** The iteration specs of one HLO in one scope, by dimension index; an
      index without an entry has no spec (`IterSpec` returns null). */
  type IterSpecs = map<int, seq<IterFragment>>

  /** The parts of the dot's dimension numbers and shapes that the adapter
      reads: batch and contracting dimensions of both operands, the first
      non-contracting dimension of each (`GetNonContractingDims(...)[0]`),
      and the rank of the dot's result. */
  datatype DotDims = DotDims(
    lhsBatchDims: seq<int>, lhsContractingDims: seq<int>, lhsNonContracting: int,
    rhsBatchDims: seq<int>, rhsContractingDims: seq<int>, rhsNonContracting: int,
    outputRank: int)

  /** What a GEMM fusion's dot always satisfies: it contracts a dimension on
      each side, its LHS non-contracting dimension exists and differs from
      the contracted one, and its result has rank at least 2. */
  predicate WellFormedDot(dot: DotDims) {
    && |dot.lhsContractingDims| > 0 && |dot.rhsContractingDims| > 0
    && dot.lhsNonContracting >= 0 && dot.lhsNonContracting != dot.lhsContractingDims[0]
    && dot.outputRank >= 2
  }

  /** The canonical order of dimensions: batch, then the two matrix
      dimensions; a missing batch dimension is index -1. */
  function DimIndices(dot: DotDims, scope: Scope): (indices: seq<int>)
    requires WellFormedDot(dot) && scope != META
    ensures |indices| == 3
    ensures scope == LHS ==> indices[0] == (if dot.lhsBatchDims == [] then -1 else dot.lhsBatchDims[0])
    ensures scope == RHS ==> indices[0] == (if dot.rhsBatchDims == [] then -1 else dot.rhsBatchDims[0])
    ensures scope == OUTPUT ==> indices[0] == (if dot.lhsBatchDims == [] then -1 else 0)
    ensures scope == OUTPUT ==> indices[2] == dot.outputRank - 1
    ensures scope != RHS ==> indices[1] == LhsNoncontractingIndex(dot, scope) && indices[1] != indices[2]
    ensures scope == LHS ==> indices[2] == dot.lhsContractingDims[0]
    ensures scope == RHS ==> indices[1] == dot.rhsContractingDims[0] && indices[2] == dot.rhsNonContracting
  {
    match scope
    case LHS =>
      [if dot.lhsBatchDims == [] then -1 else dot.lhsBatchDims[0],
       dot.lhsNonContracting, dot.lhsContractingDims[0]]
    case RHS =>
      [if dot.rhsBatchDims == [] then -1 else dot.rhsBatchDims[0],
       dot.rhsContractingDims[0], dot.rhsNonContracting]
    case OUTPUT =>
      [if dot.lhsBatchDims == [] then -1 else 0, dot.outputRank - 2, dot.outputRank - 1]
  }

  /** The only index that may be split: the LHS non-contracting one, as it
      is numbered in the scope; none for RHS. */
  function LhsNoncontractingIndex(dot: DotDims, scope: Scope): int
    requires scope != META
  {
    match scope
    case LHS => dot.lhsNonContracting
    case RHS => -1
    case OUTPUT => dot.outputRank - 2
  }

  /** A dimension split in two is accepted only at fusion level 3 or more,
      without LHS batch dimensions, at the LHS non-contracting index, and —
      in OUTPUT scope — only the way the LHS split was recorded. */
  predicate SplitAccepted(dot: DotDims, scope: Scope, fusionLevel: int, index: int, majorCount: int,
                          recordedSplit: int)
    requires scope != META
  {
    && fusionLevel >= 3
    && dot.lhsBatchDims == []
    && index == LhsNoncontractingIndex(dot, scope)
    && (scope == LHS || (scope == OUTPUT && recordedSplit == majorCount))
  }

  /** The spec of `index` makes `DimensionsAndStrides` return false: it has no
      fragment, more than two, or two that are not an accepted split. */
  predicate Rejects(dot: DotDims, scope: Scope, fusionLevel: int, specs: IterSpecs, index: int,
                    recordedSplit: int)
    requires scope != META
  {
    index in specs &&
    var fragments := specs[index];
    !(|fragments| == 1 ||
      (|fragments| == 2 && SplitAccepted(dot, scope, fusionLevel, index, fragments[1].count, recordedSplit)))
  }

  /** `DimensionsAndStrides` returns true. */
  predicate LayoutAccepted(dot: DotDims, scope: Scope, fusionLevel: int, specs: IterSpecs, recordedSplit: int)
    requires WellFormedDot(dot) && scope != META
  {
    forall j :: 0 <= j < 3 ==> !Rejects(dot, scope, fusionLevel, specs, DimIndices(dot, scope)[j], recordedSplit)
  }

  /** The dimension position `j` contributes: 1 without a spec, else the
      count of the spec's minor (first) fragment. */
  function RawDimension(dot: DotDims, scope: Scope, specs: IterSpecs, j: nat): int
    requires WellFormedDot(dot) && scope != META && j < 3
  {
    var index := DimIndices(dot, scope)[j];
    if index in specs && |specs[index]| > 0 then specs[index][0].count else 1
  }

  /** The stride position `j` contributes: without a spec, the previous
      position's stride (1 for the first); else the minor fragment's stride. */
  function RawStride(dot: DotDims, scope: Scope, specs: IterSpecs, j: nat): int
    requires WellFormedDot(dot) && scope != META && j < 3
  {
    var index := DimIndices(dot, scope)[j];
    if index in specs && |specs[index]| > 0 then specs[index][0].stride
    else if j == 0 then 1
    else RawStride(dot, scope, specs, j - 1)
  }

  /** The major (last) fragment of a split at the middle position, whose
      count and stride are moved into the unused batch position. */
  function MiddleSplit(dot: DotDims, scope: Scope, specs: IterSpecs): Option<IterFragment>
    requires WellFormedDot(dot) && scope != META
  {
    var index := DimIndices(dot, scope)[1];
    if index in specs && |specs[index]| == 2 then Some(specs[index][1]) else None
  }

  datatype Layout = Layout(dimensions: seq<int>, strides: seq<int>)

  /** The vectors after the loop has handled positions `0 .. n-1`. */
  function LayoutAfter(dot: DotDims, scope: Scope, specs: IterSpecs, n: nat): (l: Layout)
    requires WellFormedDot(dot) && scope != META && n <= 3
    ensures |l.dimensions| == n && |l.strides| == n
  {
    var dims := seq(n, j requires 0 <= j < n => RawDimension(dot, scope, specs, j));
    var strides := seq(n, j requires 0 <= j < n => RawStride(dot, scope, specs, j));
    match MiddleSplit(dot, scope, specs)
    case Some(major) =>
      if n >= 2 then Layout(dims[0 := major.count], strides[0 := major.stride]) else Layout(dims, strides)
    case None => Layout(dims, strides)
  }

  /** C++ division of `int64_t`s, which truncates toward zero. */
  function TruncDiv(a: int, b: int): int
    requires b > 0
  {
    if a >= 0 then a / b else -((-a) / b)
  }

  /** The final adjustment for an OUTPUT whose LHS was split but which is not
      itself split: the split becomes the batch dimension and is divided out
      of the non-contracting one. */
  function AdjustForLhsSplit(l: Layout, scope: Scope, recordedSplit: int): (r: Layout)
    requires |l.dimensions| == 3 && |l.strides| == 3
    ensures |r.dimensions| == 3 && |r.strides| == 3
    ensures !(recordedSplit > 1 && scope == OUTPUT && l.dimensions[0] == 1) ==> r == l
    ensures r.dimensions[2] == l.dimensions[2] && r.strides[1..] == l.strides[1..]
    ensures recordedSplit > 1 && scope == OUTPUT && l.dimensions[0] == 1 ==>
              && r.dimensions == [recordedSplit, TruncDiv(l.dimensions[1], recordedSplit), l.dimensions[2]]
              && r.strides == [l.strides[1] * r.dimensions[1], l.strides[1], l.strides[2]]
  {
    if recordedSplit > 1 && scope == OUTPUT && l.dimensions[0] == 1 then
      var dims := l.dimensions[0 := recordedSplit][1 := TruncDiv(l.dimensions[1], recordedSplit)];
      Layout(dims, l.strides[0 := l.strides[1] * dims[1]])
    else l
  }

  /** The vectors `DimensionsAndStrides` fills when it returns true. */
  function ExpectedLayout(dot: DotDims, scope: Scope, specs: IterSpecs, recordedSplit: int): (l: Layout)
    requires WellFormedDot(dot) && scope != META
    ensures |l.dimensions| == 3 && |l.strides| == 3
    ensures scope != OUTPUT || recordedSplit <= 1 ==> l == LayoutAfter(dot, scope, specs, 3)
    ensures l.dimensions[2] == RawDimension(dot, scope, specs, 2) && l.strides[1..] == LayoutAfter(dot, scope, specs, 3).strides[1..]
  {
    AdjustForLhsSplit(LayoutAfter(dot, scope, specs, 3), scope, recordedSplit)
  }

  /** `lhs_noncontracting_split` after the call: an LHS call with an accepted
      split records the split's major count; nothing else changes it. */
  function RecordedSplitAfter(dot: DotDims, scope: Scope, fusionLevel: int, specs: IterSpecs, recordedSplit: int): (r: int)
    requires WellFormedDot(dot) && scope != META
    ensures scope != LHS ==> r == recordedSplit
    ensures r != recordedSplit ==> MiddleSplit(dot, scope, specs).Some? && r == MiddleSplit(dot, scope, specs).value.count
    ensures r != recordedSplit ==> scope == LHS && fusionLevel >= 3 && dot.lhsBatchDims == []
    ensures scope == LHS && MiddleSplit(dot, scope, specs).Some? && fusionLevel >= 3 && dot.lhsBatchDims == [] ==>
              r == MiddleSplit(dot, scope, specs).value.count
  {
    match MiddleSplit(dot, scope, specs)
    case Some(major) =>
      if scope == LHS && SplitAccepted(dot, scope, fusionLevel, DimIndices(dot, scope)[1], major.count, recordedSplit)
      then major.count else recordedSplit
    case None => recordedSplit
  }

  /** Only the middle position can hold an accepted split: the batch
      position's index is -1 (no batch dimensions) and the third index is
      another dimension than the LHS non-contracting one. */
  lemma SplitOnlyInTheMiddle(dot: DotDims, scope: Scope, fusionLevel: int, j: nat, majorCount: int, recordedSplit: int)
    requires WellFormedDot(dot) && scope != META && j < 3
    requires SplitAccepted(dot, scope, fusionLevel, DimIndices(dot, scope)[j], majorCount, recordedSplit)
    ensures j == 1 && DimIndices(dot, scope)[0] == -1
  {
  }

  /** One turn of the loop of `DimensionsAndStrides`: a position without a
      spec appends dimension 1 and repeats the last stride (1 if there is
      none); an unsplit spec appends its fragment; a split in the middle
      moves its major fragment to the batch position and appends its minor
      one. */
  lemma {:induction false} LayoutAfterStep(dot: DotDims, scope: Scope, specs: IterSpecs, i: nat)
    requires WellFormedDot(dot) && scope != META && i < 3
    ensures var index := DimIndices(dot, scope)[i];
            var l := LayoutAfter(dot, scope, specs, i);
            var l' := LayoutAfter(dot, scope, specs, i + 1);
            && (index !in specs ==>
                  l' == Layout(l.dimensions + [1], l.strides + [if i == 0 then 1 else l.strides[i - 1]]))
            && (index in specs && |specs[index]| == 1 ==>
                  l' == Layout(l.dimensions + [specs[index][0].count], l.strides + [specs[index][0].stride]))
            && (index in specs && |specs[index]| == 2 && i == 1 ==>
                  l' == Layout(l.dimensions[0 := specs[index][1].count] + [specs[index][0].count],
                               l.strides[0 := specs[index][1].stride] + [specs[index][0].stride]))
  {
    var index := DimIndices(dot, scope)[i];
    var l := LayoutAfter(dot, scope, specs, i);
    var l' := LayoutAfter(dot, scope, specs, i + 1);
    var rawDims := seq(i + 1, j requires 0 <= j < i + 1 => RawDimension(dot, scope, specs, j));
    var rawStrides := seq(i + 1, j requires 0 <= j < i + 1 => RawStride(dot, scope, specs, j));
    var prefixDims := seq(i, j requires 0 <= j < i => RawDimension(dot, scope, specs, j));
    var prefixStrides := seq(i, j requires 0 <= j < i => RawStride(dot, scope, specs, j));
    assert rawDims == prefixDims + [RawDimension(dot, scope, specs, i)];
    assert rawStrides == prefixStrides + [RawStride(dot, scope, specs, i)];
    var split := MiddleSplit(dot, scope, specs);
    if split.Some? && i >= 2 {
      assert l == Layout(prefixDims[0 := split.value.count], prefixStrides[0 := split.value.stride]);
      assert l' == Layout(rawDims[0 := split.value.count], rawStrides[0 := split.value.stride]);
    } else if split.Some? && i == 1 {
      assert l == Layout(prefixDims, prefixStrides);
      assert l' == Layout(rawDims[0 := split.value.count], rawStrides[0 := split.value.stride]);
    } else {
      assert l == Layout(prefixDims, prefixStrides);
      assert l' == Layout(rawDims, rawStrides);
    }
  }

  /** An index without an iteration spec contributes dimension 1 and
      repeats the stride before it, or stride 1 in the first position (where
      a split in the middle may later take its place). */
  lemma UnspecifiedIndexIsUnitDimension(dot: DotDims, scope: Scope, specs: IterSpecs, j: nat)
    requires WellFormedDot(dot) && scope != META && j < 3
    requires DimIndices(dot, scope)[j] !in specs
    ensures var l := LayoutAfter(dot, scope, specs, 3);
            && (j > 0 ==> l.dimensions[j] == 1 && l.strides[j] == l.strides[j - 1])
            && (j == 0 && MiddleSplit(dot, scope, specs).None? ==> l.dimensions[0] == 1 && l.strides[0] == 1)
  {
  }

  /** Each of the five ways a split dimension is rejected: too many (or no)
      fragments, fusion level below 3, LHS batch dimensions, a split of
      another index than the LHS non-contracting one, and an OUTPUT split
      that differs from the recorded LHS split. */
  lemma SplitRejections(dot: DotDims, scope: Scope, fusionLevel: int, specs: IterSpecs, recordedSplit: int, j: nat)
    requires WellFormedDot(dot) && scope != META && j < 3
    requires DimIndices(dot, scope)[j] in specs
    ensures var index := DimIndices(dot, scope)[j];
            var fragments := specs[index];
            && (|fragments| != 1 && |fragments| != 2 ==> !LayoutAccepted(dot, scope, fusionLevel, specs, recordedSplit))
            && (|fragments| == 2 && LayoutAccepted(dot, scope, fusionLevel, specs, recordedSplit) ==>
                  && fusionLevel >= 3
                  && dot.lhsBatchDims == []
                  && index == LhsNoncontractingIndex(dot, scope)
                  && (scope == LHS || (scope == OUTPUT && recordedSplit == fragments[1].count)))
  {
    assert !Rejects(dot, scope, fusionLevel, specs, DimIndices(dot, scope)[j], recordedSplit)
      || !LayoutAccepted(dot, scope, fusionLevel, specs, recordedSplit);
  }

  /** The OUTPUT adjustment: when the LHS split is recorded as more than 1
      and the batch dimension is still 1, the batch dimension becomes the
      split, the non-contracting dimension is divided by it, and the batch
      stride becomes the non-contracting stride times the new non-contracting
      dimension; the rest is left as the loop built it. */
  lemma OutputTakesRecordedSplit(dot: DotDims, specs: IterSpecs, recordedSplit: int)
    requires WellFormedDot(dot)
    requires recordedSplit > 1 && LayoutAfter(dot, OUTPUT, specs, 3).dimensions[0] == 1
    ensures var before := LayoutAfter(dot, OUTPUT, specs, 3);
            var after := ExpectedLayout(dot, OUTPUT, specs, recordedSplit);
            && after.dimensions == [recordedSplit, TruncDiv(before.dimensions[1], recordedSplit), before.dimensions[2]]
            && after.strides == [before.strides[1] * after.dimensions[1], before.strides[1], before.strides[2]]
  {
  }

  /** Across calls, in the order LHS then OUTPUT: an accepted LHS split with
      major count `s` is recorded, and an OUTPUT whose own non-contracting
      dimension is not split then gets `s` as its batch dimension. */
  lemma LhsSplitReachesOutput(dot: DotDims, fusionLevel: int, lhsSpecs: IterSpecs, outputSpecs: IterSpecs,
                              initialSplit: int, major: IterFragment)
    requires WellFormedDot(dot) && -1 !in lhsSpecs && -1 !in outputSpecs
    requires LayoutAccepted(dot, LHS, fusionLevel, lhsSpecs, initialSplit)
    requires MiddleSplit(dot, LHS, lhsSpecs) == Some(major) && major.count > 1
    requires MiddleSplit(dot, OUTPUT, outputSpecs).None?
    ensures RecordedSplitAfter(dot, LHS, fusionLevel, lhsSpecs, initialSplit) == major.count
    ensures ExpectedLayout(dot, OUTPUT, outputSpecs, major.count).dimensions[0] == major.count
  {
    var index := DimIndices(dot, LHS)[1];
    assert !Rejects(dot, LHS, fusionLevel, lhsSpecs, index, initialSplit);
    assert dot.lhsBatchDims == [];
    assert DimIndices(dot, OUTPUT)[0] == -1;
    assert LayoutAfter(dot, OUTPUT, outputSpecs, 3).dimensions[0] == RawDimension(dot, OUTPUT, outputSpecs, 0) == 1;
  }

  class GemmDimensionAdapter {
    const dot: DotDims
    var lhsNoncontractingSplit: int

    constructor (dot: DotDims)
      ensures this.dot == dot && lhsNoncontractingSplit == 1
    {
      this.dot := dot;
      lhsNoncontractingSplit := 1;
    }

    /** `DimensionsAndStrides` for an HLO in `scope` whose iteration specs are
        `specs`, at the module's `fusionLevel`. The vectors come back with
        one dimension and one stride per canonical index, and the split of
        the LHS non-contracting dimension is recorded for the OUTPUT call.
        The `CHECK_EQ` on the batch dimension is proved to hold. */
    method DimensionsAndStrides(scope: Scope, fusionLevel: int, specs: IterSpecs)
      returns (ok: bool, dimensions: seq<int>, strides: seq<int>)
      requires WellFormedDot(dot) && scope != META
      requires -1 !in specs
      modifies this
      ensures ok == LayoutAccepted(dot, scope, fusionLevel, specs, old(lhsNoncontractingSplit))
      ensures ok ==> Layout(dimensions, strides) == ExpectedLayout(dot, scope, specs, old(lhsNoncontractingSplit))
      ensures lhsNoncontractingSplit == RecordedSplitAfter(dot, scope, fusionLevel, specs, old(lhsNoncontractingSplit))
    {
      var indices := DimIndices(dot, scope);
      var lhsNoncontractingIndex := LhsNoncontractingIndex(dot, scope);
      ghost var recorded := lhsNoncontractingSplit;
      dimensions, strides := [], [];
      var i := 0;
      while i < |indices|
        invariant 0 <= i <= 3
        invariant forall j :: 0 <= j < i ==> !Rejects(dot, scope, fusionLevel, specs, indices[j], recorded)
        invariant Layout(dimensions, strides) == LayoutAfter(dot, scope, specs, i)
        invariant lhsNoncontractingSplit == if i >= 2 then RecordedSplitAfter(dot, scope, fusionLevel, specs, recorded) else recorded
      {
        var index := indices[i];
        LayoutAfterStep(dot, scope, specs, i);
        if index !in specs {
          dimensions := dimensions + [1];
          strides := strides + [if strides == [] then 1 else strides[|strides| - 1]];
        } else {
          var spec := specs[index];
          if |spec| == 1 {
          } else if |spec| == 2 {
            if fusionLevel < 3 {
              return false, dimensions, strides;
            }
            if dot.lhsBatchDims != [] {
              return false, dimensions, strides;
            }
            if index != lhsNoncontractingIndex {
              return false, dimensions, strides;
            }
            match scope {
              case LHS =>
                lhsNoncontractingSplit := spec[1].count;
              case OUTPUT =>
                if lhsNoncontractingSplit != spec[1].count {
                  return false, dimensions, strides;
                }
              case _ =>
                return false, dimensions, strides;
            }
            SplitOnlyInTheMiddle(dot, scope, fusionLevel, i, spec[1].count, recorded);
            assert dimensions[0] == 1;
            dimensions := dimensions[0 := spec[1].count];
            strides := strides[0 := spec[1].stride];
          } else {
            return false, dimensions, strides;
          }
          dimensions := dimensions + [spec[0].count];
          strides := strides + [spec[0].stride];
        }
        i := i + 1;
      }
      if lhsNoncontractingSplit > 1 && scope == OUTPUT && dimensions[0] == 1 {
        dimensions := dimensions[0 := lhsNoncontractingSplit];
        dimensions := dimensions[1 := TruncDiv(dimensions[1], lhsNoncontractingSplit)];
        strides := strides[0 := strides[1] * dimensions[1]];
      }
      return true, dimensions, strides;
    }
  }

  // ---------------------------------------------------------------------
  // Plan selection and the workspace-size cache of CuDnnFusionVisitor

  const NoPlanBuilds: Error := Error(Internal, "No cuDNN plans can be built.")
  const PlanDoesNotExist: Error := Error(Internal, "cuDNN graph plan does not exist.")

  /** A graph `PrepareGraph` produced, as plan selection sees it: how many
      execution plans it has, whether `Build` succeeds for a plan id, and the
      workspace size the graph reports once a plan is built. */
  datatype CudnnGraph = CudnnGraph(planCount: nat, build: int -> Outcome, workspaceSize: int -> int)

  /** The first plan id from `from` on that builds, if any. */
  function FirstBuildablePlan(graph: CudnnGraph, from: nat): (r: Option<nat>)
    ensures r.Some? ==> from <= r.value < graph.planCount && graph.build(r.value).Pass?
    ensures r.Some? ==> forall q :: from <= q < r.value ==> graph.build(q).Fail?
    ensures r.None? ==> forall q :: from <= q < graph.planCount ==> graph.build(q).Fail?
    decreases graph.planCount - from
  {
    if from >= graph.planCount then None
    else if graph.build(from).Pass? then Some(from)
    else FirstBuildablePlan(graph, from + 1)
  }

  /** The plan `HandleFusion` settles on when the cache misses: a requested
      plan id (one that is not negative) must exist and build, and its build
      error is returned as is; without one, the smallest plan id that builds,
      or "No cuDNN plans can be built." */
  function PlanChoice(graph: CudnnGraph, requested: int): (r: Result<int>)
    ensures requested >= graph.planCount ==> r == Err(PlanDoesNotExist)
    ensures 0 <= requested < graph.planCount ==>
              r == (if graph.build(requested).Pass? then Ok(requested) else Err(graph.build(requested).error))
    ensures requested < 0 ==> (r.Ok? <==> exists p :: 0 <= p < graph.planCount && graph.build(p).Pass?)
    ensures requested < 0 && r.Ok? ==>
              && 0 <= r.value < graph.planCount && graph.build(r.value).Pass?
              && forall q :: 0 <= q < r.value ==> graph.build(q).Fail?
    ensures requested < 0 && r.Err? ==> r.error == NoPlanBuilds
  {
    if requested >= 0 then
      if requested >= graph.planCount then Err(PlanDoesNotExist)
      else match graph.build(requested)
           case Fail(e) => Err(e)
           case Pass => Ok(requested)
    else
      match FirstBuildablePlan(graph, 0)
      case Some(p) => Ok(p)
      case None => Err(NoPlanBuilds)
  }

  /** The plan-selection part of `HandleFusion`: build the requested plan,
      or try plan ids in increasing order and stop at the first that builds. */
  method SelectPlan(graph: CudnnGraph, requested: int) returns (r: Result<int>)
    ensures r == PlanChoice(graph, requested)
  {
    var planId := requested;
    if planId >= 0 {
      if planId >= graph.planCount {
        return Err(PlanDoesNotExist);
      }
      var built := graph.build(planId);
      if built.Fail? {
        return Err(built.error);
      }
    } else {
      planId := 0;
      while planId < graph.planCount
        invariant 0 <= planId <= graph.planCount
        invariant FirstBuildablePlan(graph, 0) == FirstBuildablePlan(graph, planId)
      {
        if graph.build(planId).Pass? {
          break;
        }
        planId := planId + 1;
      }
      if planId == graph.planCount {
        return Err(NoPlanBuilds);
      }
    }
    return Ok(planId);
  }

  /** What `HandleFusion` does to one fusion: nothing for a fusion of another
      kind; otherwise it writes a plan id into the fusion's cuDNN config and
      gives the fusion a workspace of the recorded size. */
  datatype FusionRewrite = NotCuDnnFusion | Rewritten(planId: int, workspaceSize: int)

  class CuDnnFusionVisitor {
    /** `workspace_sizes_`: workspace size by fingerprint of the fused
        computation. */
    var workspaceSizes: map<string, int>

    constructor ()
      ensures workspaceSizes == map[]
    {
      workspaceSizes := map[];
    }

    /** `HandleFusion` for a fusion whose backend config says whether it is a
        cuDNN fusion and which plan id it requests (-1 when it has no cuDNN
        config), whose fused computation has `fingerprint`, and for which
        `PrepareGraph` would produce `prepared`. A known fingerprint reuses
        its recorded size without building anything; a new one is inserted
        once, with the workspace size of the built plan; existing entries
        never change. */
    method HandleFusion(isCuDnnFusion: bool, requestedPlanId: int, fingerprint: string, prepared: Result<CudnnGraph>)
      returns (r: Result<FusionRewrite>)
      modifies this
      ensures forall k :: k in old(workspaceSizes) ==> k in workspaceSizes && workspaceSizes[k] == old(workspaceSizes)[k]
      ensures workspaceSizes.Keys <= old(workspaceSizes).Keys + {fingerprint}
      ensures !isCuDnnFusion ==> r == Ok(NotCuDnnFusion) && workspaceSizes == old(workspaceSizes)
      ensures isCuDnnFusion && fingerprint in old(workspaceSizes) ==>
                r == Ok(Rewritten(requestedPlanId, old(workspaceSizes)[fingerprint]))
      ensures isCuDnnFusion && fingerprint !in old(workspaceSizes) && prepared.Err? ==>
                r == Err(prepared.error) && workspaceSizes == old(workspaceSizes)
      ensures isCuDnnFusion && fingerprint !in old(workspaceSizes) && prepared.Ok? ==>
                var choice := PlanChoice(prepared.value, requestedPlanId);
                && (choice.Err? ==> r == Err(choice.error) && workspaceSizes == old(workspaceSizes))
                && (choice.Ok? ==>
                      var size := prepared.value.workspaceSize(choice.value);
                      r == Ok(Rewritten(choice.value, size)) && workspaceSizes == old(workspaceSizes)[fingerprint := size])
    {
      if !isCuDnnFusion {
        return Ok(NotCuDnnFusion);
      }
      if fingerprint in workspaceSizes {
        return Ok(Rewritten(requestedPlanId, workspaceSizes[fingerprint]));
      }
      if prepared.Err? {
        return Err(prepared.error);
      }
      var graph := prepared.value;
      var chosen := SelectPlan(graph, requestedPlanId);
      if chosen.Err? {
        return Err(chosen.error);
      }
      var workspaceSize := graph.workspaceSize(chosen.value);
      workspaceSizes := workspaceSizes[fingerprint := workspaceSize];
      return Ok(Rewritten(chosen.value, workspaceSize));
    }
  }

  // ---------------------------------------------------------------------
  // CuDnnFusionCompiler::GetAvailablePlanCount

  const MaxPlans: nat := 10

  /** `GetAvailablePlanCount`: no plans when the graph cannot be prepared,
      else the graph's plan count capped at 10. */
  function GetAvailablePlanCount(prepared: Result<CudnnGraph>): (r: nat)
    ensures prepared.Err? ==> r == 0
    ensures prepared.Ok? ==> r <= MaxPlans && r <= prepared.value.planCount
    ensures prepared.Ok? ==> r == prepared.value.planCount || r == MaxPlans
  {
    if prepared.Err? then 0
    else if prepared.value.planCount < MaxPlans then prepared.value.planCount
    else MaxPlans
  }

  /** Every plan id below the available count passes `HandleFusion`'s
      existence check: requesting it either builds it or returns its build
      error. */
  lemma AvailablePlansExist(graph: CudnnGraph, planId: int)
    requires 0 <= planId < GetAvailablePlanCount(Ok(graph))
    ensures PlanChoice(graph, planId) != Err(PlanDoesNotExist) || graph.build(planId) == Fail(PlanDoesNotExist)
    ensures graph.build(planId).Pass? ==> PlanChoice(graph, planId) == Ok(planId)
  {
  }
}
