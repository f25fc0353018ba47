# IFRT SerDes, cuDNN fusion compiler decisions and the Python profiler's trace names, in Dafny

This project models three pieces of XLA and proves properties about them.

- **IoCallable SerDes** (`io_callable_program_serdes.dfy`, on top of
  `status.dfy` and `ifrt_types.dfy`). These are the two serialization units
  for `IoCallableProgram` and `IoCallableCompileOptions`, their type names,
  and the registry they are installed in.
  - Serializing a program copies its scalar fields and converts its device
    list and its input and output array specs, in order. The first spec that
    cannot be converted aborts the call.
  - Deserializing parses the message, then resolves the devices and every
    spec through the caller's `lookup_device`. The first error is forwarded
    unchanged.
  - Compile options serialize to the empty string and accept only the empty
    string back.
  - Proved: the round trip `Deserialize(Serialize(p)) == p`, at the level of
    the program, the spec lists and the registry.
- **cuDNN fusion compiler** (`cudnn_fusion_compiler.dfy`):
  - the opcode-to-pointwise-mode table and the compute-type table, which
    depend on the cuDNN version, and the element-type table, which does not;
  - `GemmDimensionAdapter::DimensionsAndStrides`, as a class whose
    `lhs_noncontracting_split` field carries the LHS split over to the
    OUTPUT call;
  - plan selection and the per-fingerprint workspace-size cache of
    `CuDnnFusionVisitor::HandleFusion`;
  - `GetAvailablePlanCount`.
- **Python profiler bindings** (`profiler.dfy`):
  - the `#k=v,...#` encoding of keyword arguments that `TraceMeWrapper`
    appends to a trace name, with `EncodePyObject`;
  - the constructor's and `SetMetadata`'s guard for empty keyword arguments;
  - `FindProfilerApi`, which walks the PJRT extension chain.
  - A reader for the metadata format is defined beside the encoder. Keys and
    values come back in order as long as no key holds `=` or `,` and no value
    holds `,`. A comma inside a value makes two different argument lists
    encode to the same text.

Errors are an `absl::Status`-like `Result`. Each precondition comes from a
specific place:

- **`scope != META`**: the `LOG(FATAL)` of `DimensionsAndStrides`
  (`cudnn_fusion_compiler.cc:239-240`).
- **Non-empty contracting dimensions and an existing first non-contracting
  dimension** (part of `WellFormedDot`): the unchecked `(0)` and
  `.value()[0]` accesses at `cudnn_fusion_compiler.cc:214-232`.
- **The rest of `WellFormedDot` and "no iteration spec for index -1"**:
  assumed properties of the HLO dot and of the fusion analysis. They are
  listed under "## Left out".
- **No duplicate registration**: registering one type twice is treated as a
  fatal configuration error. The registry code that would enforce it
  (`serdes.cc`) is not part of this model.

## Model

| member | source | states |
|---|---|---|
| Status.MapResult | third_party/xla/xla/python/ifrt/io_callable_program_serdes.cc:58-63 | a `TF_ASSIGN_OR_RETURN` loop succeeds iff every element converts; the results keep order and length; a failure returns the error of the first element that fails |
| Status.MapResultStopsAtFirstFailure | third_party/xla/xla/python/ifrt/io_callable_program_serdes.cc:58-60 | once a prefix has failed, the remaining elements do not change the outcome (the loop returns at the first failure) |
| Status.MapResultInverse | third_party/xla/xla/python/ifrt/io_callable_program_serdes.cc:84-90 | a conversion loop whose element conversion is undone by another is undone by the other's loop |
| IfrtTypes.DeviceListToProto | third_party/xla/xla/python/ifrt/io_callable_program_serdes.cc:57 | the device-list message holds the device ids in list order |
| IfrtTypes.DeviceListFromProto | third_party/xla/xla/python/ifrt/io_callable_program_serdes.cc:78-81 | resolution succeeds iff the lookup accepts every id; it yields one device per id in order; otherwise it forwards the lookup's first error verbatim |
| IfrtTypes.DeviceListRoundTrip | third_party/xla/xla/python/ifrt/io_callable_program_serdes.cc:78-81 | a device list comes back unchanged from its message when the lookup resolves each device to itself |
| IfrtTypes.ArraySpecToProto | third_party/xla/xla/python/ifrt/io_callable_program_serdes.cc:58-60 | a spec converts iff its sharding has a SerDes (NotFound otherwise); dtype, shape and devices are kept |
| IfrtTypes.ArraySpecFromProto | third_party/xla/xla/python/ifrt/io_callable_program_serdes.cc:84-89 | a spec message resolves iff its device list does, with that list's error otherwise |
| IfrtTypes.ArraySpecRoundTrip | third_party/xla/xla/python/ifrt/io_callable_program_serdes.cc:84-89 | a convertible spec whose devices resolve comes back unchanged |
| IoCallableProgramSerDes.ProgramToProto | third_party/xla/xla/python/ifrt/io_callable_program_serdes.cc:52-63 | the message copies the three scalar fields and converts devices and every spec in order; it fails iff some spec has no SerDes, with the first failing input's error, else the first failing output's |
| IoCallableProgramSerDes.EncodeProgram | third_party/xla/xla/python/ifrt/io_callable_program_serdes.cc:49-65 | `Serialize` returns the encoded message iff the message could be built, else the error that stopped it |
| IoCallableProgramSerDes.SpecsToProto | third_party/xla/xla/python/ifrt/io_callable_program_serdes.cc:58-63 | the conversion loop over specs returns exactly the `MapResult` walk: all converted in order, or the first error |
| IoCallableProgramSerDes.SerializeProgram | third_party/xla/xla/python/ifrt/io_callable_program_serdes.cc:49-65 | the step-by-step `Serialize` of a program returns exactly `EncodeProgram` |
| IoCallableProgramSerDes.ProgramFromProto | third_party/xla/xla/python/ifrt/io_callable_program_serdes.cc:78-107 | a device-list failure is returned verbatim; otherwise a spec failure returns the first failing input spec's error, else the first failing output spec's; success iff the devices and every spec resolve; the built program copies the scalar fields and keeps spec order and count |
| IoCallableProgramSerDes.DecodeProgram | third_party/xla/xla/python/ifrt/io_callable_program_serdes.cc:73-77 | bytes that do not parse give InvalidArgument "Failed to parse serialized IoCallableProgramProto" and build nothing |
| IoCallableProgramSerDes.SpecsFromProto | third_party/xla/xla/python/ifrt/io_callable_program_serdes.cc:82-99 | the resolution loop over spec messages returns exactly the `MapResult` walk with the lookup |
| IoCallableProgramSerDes.DeserializeProgram | third_party/xla/xla/python/ifrt/io_callable_program_serdes.cc:67-108 | the step-by-step `Deserialize` succeeds iff `DecodeProgram` does, with the same program or the same error |
| IoCallableProgramSerDes.SpecsRoundTrip | third_party/xla/xla/python/ifrt/io_callable_program_serdes.cc:82-99 | a list of convertible specs whose devices resolve comes back unchanged and in order |
| IoCallableProgramSerDes.ProgramRoundTrip | third_party/xla/xla/python/ifrt/io_callable_program_serdes.cc:49-108 | deserializing what `Serialize` produced gives the program back field for field, if the message encoding round-trips and the lookup resolves every device |
| IoCallableProgramSerDes.SerializeCompileOptions | third_party/xla/xla/python/ifrt/io_callable_program_serdes.cc:121-123 | compile options always serialize to the empty string |
| IoCallableProgramSerDes.DeserializeCompileOptions | third_party/xla/xla/python/ifrt/io_callable_program_serdes.cc:125-134 | succeeds iff the bytes are empty, giving the compile options; otherwise InvalidArgument |
| IoCallableProgramSerDes.SerDes.TypeName | third_party/xla/xla/python/ifrt/io_callable_program_serdes.cc:45-47 | the program unit is named "xla::ifrt::IoCallableProgram" and the compile-options unit "xla::ifrt::IoCallableCompileOptions" (lines 117-119); no other name belongs to either |
| IoCallableProgramSerDes.TypeNameOf | third_party/xla/xla/python/ifrt/io_callable_program_serdes.cc:143-151 | the registration key of an object's runtime type: programs under the program name, compile options under the compile-options name, and only those |
| IoCallableProgramSerDes.SerDes.Serialize | third_party/xla/xla/python/ifrt/io_callable_program_serdes.cc:49-123 | a unit's `Serialize` on the type it is registered for: the encoded program (`EncodeProgram`), or the empty string for compile options |
| IoCallableProgramSerDes.SerDes.Deserialize | third_party/xla/xla/python/ifrt/io_callable_program_serdes.cc:67-134 | a unit's `Deserialize`: the compile-options unit gives exactly the emptiness check; the program unit succeeds iff `DecodeProgram` does, with its program or its error; what comes back is of the unit's own type |
| IoCallableProgramSerDes.RegisterSerDes | third_party/xla/xla/python/ifrt/io_callable_program_serdes.cc:142-151 | registration adds exactly the unit's type name, leaves every other entry unchanged, and keeps every unit under its own name |
| IoCallableProgramSerDes.InitRegistry | third_party/xla/xla/python/ifrt/io_callable_program_serdes.cc:142-151 | after both registrations exactly "xla::ifrt::IoCallableProgram" and "xla::ifrt::IoCallableCompileOptions" are known, each mapped to its own unit |
| IoCallableProgramSerDes.SerializeByRuntimeType | third_party/xla/xla/python/ifrt/io_callable_program_serdes.cc:143-151 | an unregistered runtime type gives NotFound; a registered one returns that unit's `Serialize` result unchanged |
| IoCallableProgramSerDes.DeserializeByTypeName | third_party/xla/xla/python/ifrt/io_callable_program_serdes.cc:143-151 | an unregistered name gives NotFound; a registered name hands the bytes and options unchanged to its unit and returns that unit's result (the compile-options emptiness check, or the program decode with its exact value or error); whatever comes back is of the type registered under the name |
| IoCallableProgramSerDes.RegistryRoundTrip | third_party/xla/xla/python/ifrt/io_callable_program_serdes.cc:142-151 | serializing through the registry and deserializing under the object's type name gives the object back, for programs and for compile options (whose options are ignored) |
| CuDnnFusionCompiler.GetElementwiseMode | third_party/xla/xla/service/gpu/cudnn_fusion_compiler.cc:65-129 | comparisons map to a CMP mode and convert to IDENTITY; the eighteen named elementwise opcodes have a mode at every version; select has one only from cuDNN 9.1 (90100); unlisted opcodes have none |
| CuDnnFusionCompiler.ElementwiseModeIsOneToOne | third_party/xla/xla/service/gpu/cudnn_fusion_compiler.cc:65-129 | no two opcodes (or comparison directions) share a mode; every mode other than BINARY_SELECT is produced at every version, and BINARY_SELECT from cuDNN 9.1 |
| CuDnnFusionCompiler.ToCudnnDataType | third_party/xla/xla/service/gpu/cudnn_fusion_compiler.cc:131-149 | exactly F32, F16, BF16, S32, S8 and PRED have a cuDNN type; PRED is carried as INT8 |
| CuDnnFusionCompiler.CudnnDataTypeInverse | third_party/xla/xla/service/gpu/cudnn_fusion_compiler.cc:131-149 | the table is one-to-one except that PRED and S8 share INT8 |
| CuDnnFusionCompiler.GetComputeDataType | third_party/xla/xla/service/gpu/cudnn_fusion_compiler.cc:151-163 | non-integral types compute in FLOAT; integral types compute in INT32 from cuDNN 9.1 and have no compute type before it |
| CuDnnFusionCompiler.DimIndices | third_party/xla/xla/service/gpu/cudnn_fusion_compiler.cc:206-241 | three canonical positions per scope: batch (-1 when there are no batch dimensions), then the two matrix dimensions; LHS is (batch, non-contracting, contracting), RHS (batch, contracting, non-contracting), OUTPUT (0 or -1, rank-2, rank-1); the batch position is the first batch dimension (0 for OUTPUT) when there is one; the middle position is the splittable one for LHS and OUTPUT |
| CuDnnFusionCompiler.RecordedSplitAfter | third_party/xla/xla/service/gpu/cudnn_fusion_compiler.cc:266-276 | only an LHS call at fusion level 3 or more without LHS batch dimensions changes `lhs_noncontracting_split`, and only to the major count of the middle split; under those conditions an LHS middle split is always recorded, so a split rejected at lines 254-261 is never recorded |
| CuDnnFusionCompiler.AdjustForLhsSplit | third_party/xla/xla/service/gpu/cudnn_fusion_compiler.cc:294-306 | the layout is unchanged unless an OUTPUT call with a recorded split above 1 still has batch dimension 1; then the dimensions become (split, non-contracting dimension divided by the split with truncation, last dimension) and the batch stride becomes the non-contracting stride times the new non-contracting dimension; the last dimension and the two matrix strides never change |
| CuDnnFusionCompiler.ExpectedLayout | third_party/xla/xla/service/gpu/cudnn_fusion_compiler.cc:242-306 | outside OUTPUT, or with no split recorded, the layout is what the loop built; the last dimension is always the third index's own, and the matrix strides are kept |
| CuDnnFusionCompiler.LayoutAfterStep | third_party/xla/xla/service/gpu/cudnn_fusion_compiler.cc:244-292 | one loop turn: a missing spec appends dimension 1 and repeats the last stride (1 first); an unsplit spec appends its fragment; a split moves its major fragment to the batch position and appends the minor one |
| CuDnnFusionCompiler.SplitOnlyInTheMiddle | third_party/xla/xla/service/gpu/cudnn_fusion_compiler.cc:253-285 | an accepted split is always at the middle position, and the batch index is then missing, so `CHECK_EQ(dimensions[0], 1)` holds |
| CuDnnFusionCompiler.UnspecifiedIndexIsUnitDimension | third_party/xla/xla/service/gpu/cudnn_fusion_compiler.cc:246-249 | an index without an iteration spec contributes dimension 1 and the previous stride |
| CuDnnFusionCompiler.SplitRejections | third_party/xla/xla/service/gpu/cudnn_fusion_compiler.cc:251-289 | more than two fragments reject the layout; an accepted two-fragment spec implies fusion level at least 3, no LHS batch dimensions, the LHS non-contracting index, and in OUTPUT the recorded split |
| CuDnnFusionCompiler.OutputTakesRecordedSplit | third_party/xla/xla/service/gpu/cudnn_fusion_compiler.cc:294-306 | an unsplit OUTPUT after an LHS split of `s` gets batch dimension `s`, the non-contracting dimension divided by `s` (truncating), and batch stride = non-contracting stride times that dimension |
| CuDnnFusionCompiler.LhsSplitReachesOutput | third_party/xla/xla/service/gpu/cudnn_fusion_compiler.cc:266-306 | an accepted LHS split is recorded in `lhs_noncontracting_split`, and a later unsplit OUTPUT call takes it as its batch dimension |
| CuDnnFusionCompiler.GemmDimensionAdapter.constructor | third_party/xla/xla/service/gpu/cudnn_fusion_compiler.cc:311 | the recorded split starts at 1 |
| CuDnnFusionCompiler.GemmDimensionAdapter.DimensionsAndStrides | third_party/xla/xla/service/gpu/cudnn_fusion_compiler.cc:202-308 | returns true iff no canonical index is rejected; then the vectors are the expected layout; the field afterwards is the split an LHS call records, else unchanged |
| CuDnnFusionCompiler.FirstBuildablePlan | third_party/xla/xla/service/gpu/cudnn_fusion_compiler.cc:614-621 | the smallest plan id from a start that builds, with every id before it failing; none if no id below the plan count builds |
| CuDnnFusionCompiler.PlanChoice | third_party/xla/xla/service/gpu/cudnn_fusion_compiler.cc:605-625 | a requested id at or past the plan count gives "cuDNN graph plan does not exist."; a requested id in range gives itself or its build error; without a request, the first id that builds, or "No cuDNN plans can be built." iff none does |
| CuDnnFusionCompiler.SelectPlan | third_party/xla/xla/service/gpu/cudnn_fusion_compiler.cc:605-625 | the loop that tries plan ids in increasing order returns exactly `PlanChoice` |
| CuDnnFusionCompiler.CuDnnFusionVisitor.constructor | third_party/xla/xla/service/gpu/cudnn_fusion_compiler.cc:656 | the workspace-size cache starts empty |
| CuDnnFusionCompiler.CuDnnFusionVisitor.HandleFusion | third_party/xla/xla/service/gpu/cudnn_fusion_compiler.cc:581-650 | non-cuDNN fusions are untouched; a cached fingerprint reuses its size and the requested plan id without building; a miss forwards a preparation or plan error with the cache unchanged, or inserts the chosen plan's workspace size under the fingerprint; existing entries never change |
| CuDnnFusionCompiler.GetAvailablePlanCount | third_party/xla/xla/service/gpu/cudnn_fusion_compiler.cc:669-677 | 0 when the graph cannot be prepared, else the plan count capped at 10 |
| CuDnnFusionCompiler.AvailablePlansExist | third_party/xla/xla/service/gpu/cudnn_fusion_compiler.cc:605-610 | every plan id below the available count passes the existence check, and one that builds is chosen when requested |
| Profiler.EncodePyObject | third_party/xla/xla/python/profiler.cc:94-99 | `True` is "1", `False` is "0", any other object its `str()` |
| Profiler.BoolEncodingHasNoSeparator | third_party/xla/xla/python/profiler.cc:94-99 | a bool encodes to one character that is neither `,` nor `=` nor `#` |
| Profiler.BoolMetadataRoundTrip | third_party/xla/xla/python/profiler.cc:85-99 | keyword arguments whose values are all bools always read back in order from the metadata, as long as no key holds `=` or `,` |
| Profiler.TerminatedIsJoinedPlusComma | third_party/xla/xla/python/profiler.cc:87-91 | the `key=value,` pieces the loop appends are the comma-joined entries plus one trailing comma, which `back() = '#'` replaces |
| Profiler.AppendMetadata | third_party/xla/xla/python/profiler.cc:85-92 | with arguments the name gets `#k1=v1,...,kn=vn#` in iteration order; without, only `#`; the name itself stays a prefix |
| Profiler.TraceMeName | third_party/xla/xla/python/profiler.cc:55-64 | the trace name is the plain name without keyword arguments, else the name followed by its metadata |
| Profiler.SetMetadata | third_party/xla/xla/python/profiler.cc:68-76 | nothing is appended without keyword arguments; otherwise exactly the metadata encoding |
| Profiler.MetadataRoundTrip | third_party/xla/xla/python/profiler.cc:85-92 | the metadata reads back as the keys and encoded values in order, when no key holds `=` or `,` and no value holds `,` |
| Profiler.CommaInValueIsAmbiguous | third_party/xla/xla/python/profiler.cc:85-92 | a value containing `,` encodes like two separate arguments, since nothing is escaped |
| Profiler.FirstProfilerApi | third_party/xla/xla/python/profiler.cc:111-122 | the api of the first profiler-type extension in the chain, and none iff no extension has the profiler type |
| Profiler.FindProfilerApi | third_party/xla/xla/python/profiler.cc:111-122 | following `next` from `extension_start` returns the first profiler extension's `profiler_api`, or null when the chain ends first |

## Left out

- Protobuf encoding (`SerializeAsString` / `ParseFromString`) is a parameter. The round trip is proved under the precondition that parsing undoes encoding.
- `DeviceList`, `Sharding` and `ArraySpec` and their `ToProto` / `FromProto` are not part of this model. They are kept to what the program SerDes relies on: conversion keeps every field, resolution goes through `lookup_device` and forwards its first error, and a sharding without a registered SerDes cannot be converted (NotFound).
- The registry implementation (`serdes.cc`) is not part of this model.
  - Registration is an explicit `InitRegistry`.
  - Serialization looks up the object's runtime type.
  - Deserialization looks up the type name that travels with the bytes.
  - A second registration under one name is a precondition violation.
- IoCallableProgramSerDes.SerializeByRuntimeType: the NotFound message text is the model's own, since the registry's message is not part of this model.
- The LLVM-RTTI `llvm::cast` of the serializable object and of the options becomes a precondition on the variant. The cast's abort on a wrong type is not modelled.
- CuDnnFusionCompiler.WellFormedDot: it asks that the LHS non-contracting dimension differs from the contracting one and that the result has rank at least 2. Both hold for every dot by construction. The source checks neither.
- CuDnnFusionCompiler.GemmDimensionAdapter.DimensionsAndStrides: the model requires that there is no iteration spec for the missing batch index -1. `TritonFusionAnalysis::IterSpec` returns null for a dimension that does not exist. That analysis is not part of this model.
- The cuDNN version (`CUDNN_VERSION`) is a parameter of the tables, not a build-time constant.
- The HLO IR, `TritonFusionAnalysis` and the cuDNN frontend are not part of this model.
  - Iteration specs are a map from dimension index to fragments.
  - The dot is given by its dimension numbers, its first non-contracting dimensions and its result rank.
  - A prepared graph is given by its plan count, which plans build, and the workspace size it reports.
- `GemmDimensionAdapter::Create`, `FusionLevel` (a parameter here) and the graph construction of `PrepareGraph` / `HloFusionToCuDnnGraph` are left out, together with their acceptance checks:
  - `Create` rejects a fusion without a dot, and a dot with non-default operand precision.
  - `HloFusionToCuDnnGraph` decides which instructions a cuDNN graph may contain: custom calls only for the workspace, tuples only at the root, `select` as the only ternary operation, and constants and broadcasts only from fusion level 2.
  
  In the model a fusion either yields a prepared graph or an error (`prepared`), and which fusions are accepted is not captured.
- CuDnnFusionCompiler.GemmDimensionAdapter.DimensionsAndStrides:
  - The partly filled vectors returned with `false` are not specified, because callers discard them.
  - Products of strides and dimensions are unbounded integers, so `int64_t` overflow is not modelled.
  - The output vectors are returned fresh rather than appended to the caller's, because every caller passes empty ones.
- CuDnnFusionCompiler.CuDnnFusionVisitor.HandleFusion: the following are not modelled:
  - parsing the backend config and writing it back with the plan id (`set_backend_config`);
  - `AddWorkspace` and its possible failure after the cache insert;
  - serializing the graph into `compilation_results_`;
  - `MarkAsChanged`.
- CuDnnFusionCompiler.CuDnnFusionVisitor.HandleFusion: a cache hit returns the plan id the fusion requested (-1 when it had none), as the code writes it back.
- Logging (`VLOG`) is not modelled.
- The `TraceMe` object itself is not part of this model: its level, `Stop`, `IsEnabled`, and how `TraceMe::AppendMetadata` merges metadata into an existing name. The profiler's session, server and capture functions and the nanobind module definitions are left out too. They are I/O and foreign calls.
- Python objects are given by the text `str()` returns for them. A Python exception raised by `str()` or by a non-string key is not modelled.
- The PJRT extension chain is given by its links and each extension's type and profiler api. The `reinterpret_cast` between extension structs becomes a field that is read only for profiler-type extensions.
