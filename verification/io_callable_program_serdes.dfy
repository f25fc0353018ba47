/** The two SerDes units of `io_callable_program_serdes.cc` and the registry
    they are installed in.

    The LLVM-RTTI class hierarchy under `Serializable` becomes the tagged
    variant `Serializable`; `llvm::cast` becomes a `requires` on the variant.
    The registry is a map from type name to SerDes unit, filled by an
    explicit `InitRegistry`. The protobuf byte encoding of
    `IoCallableProgramProto` is a parameter, `ProtoCodec`; where a property
    needs it to round-trip, that is a precondition (`RoundTrips`). */
module IoCallableProgramSerDes {
  import opened Status
  import opened IfrtTypes

  /** A `std::string` holding serialized bytes. */
  type Bytes = string

  /** `IoCallableProgram`. */
  datatype IoCallableProgram = IoCallableProgram(
    programType: string,
    name: string,
    serializedProgramText: string,
    devices: DeviceList,
    inputSpecs: seq<ArraySpec>,
    outputSpecs: seq<ArraySpec>)

  /** `IoCallableProgramProto`. */
  datatype IoCallableProgramProto = IoCallableProgramProto(
    programType: string,
    name: string,
    serializedProgramText: string,
    devices: DeviceListProto,
    inputSpecs: seq<ArraySpecProto>,
    outputSpecs: seq<ArraySpecProto>)

  /** The concrete `Serializable` types this file handles. */
  datatype Serializable = Program(program: IoCallableProgram) | CompileOptions

  /** `DeserializeOptions`: the program SerDes expects the
      `DeserializeProgramOptions` subclass, carrying `lookup_device`. */
  datatype DeserializeOptions = DeserializeProgramOptions(lookupDevice: LookupDevice) | BaseOptions

  /** `SerializeAsString` / `ParseFromString` for `IoCallableProgramProto`. */
  datatype ProtoCodec = ProtoCodec(
    encode: IoCallableProgramProto -> Bytes,
    parse: Bytes -> Option<IoCallableProgramProto>)

  /** Parsing what was encoded gives the message back. */
  ghost predicate RoundTrips(codec: ProtoCodec) {
    forall m :: codec.parse(codec.encode(m)) == Some(m)
  }

  const ProgramTypeName: string := "xla::ifrt::IoCallableProgram"
  const CompileOptionsTypeName: string := "xla::ifrt::IoCallableCompileOptions"

  const ParseFailure: Error := Error(InvalidArgument, "Failed to parse serialized IoCallableProgramProto")
  const NonEmptyCompileOptions: Error := Error(InvalidArgument,
    "Invalid serialized IoCallableCompileOptions; a serialized IoCallableCompileOptions is expected to be an empty string")

  // ---------------------------------------------------------------------
  // IoCallableProgramSerDes::Serialize

  /** The message `Serialize` fills in: the three scalar fields copied, the
      device list converted, and one entry per input and output spec in
      order; the first spec that cannot be converted aborts with its error,
      input specs before output specs. */
  function ProgramToProto(p: IoCallableProgram): (r: Result<IoCallableProgramProto>)
    ensures r.Ok? <==> forall s :: s in p.inputSpecs + p.outputSpecs ==> s.sharding.hasSerDes
    ensures r.Ok? ==>
      && r.value.programType == p.programType
      && r.value.name == p.name
      && r.value.serializedProgramText == p.serializedProgramText
      && r.value.devices == DeviceListToProto(p.devices)
    ensures r.Ok? ==> |r.value.inputSpecs| == |p.inputSpecs| && |r.value.outputSpecs| == |p.outputSpecs|
    ensures r.Ok? ==> forall i :: 0 <= i < |p.inputSpecs| ==> ArraySpecToProto(p.inputSpecs[i]) == Ok(r.value.inputSpecs[i])
    ensures r.Ok? ==> forall i :: 0 <= i < |p.outputSpecs| ==> ArraySpecToProto(p.outputSpecs[i]) == Ok(r.value.outputSpecs[i])
    ensures r.Err? ==>
      || (exists k :: FirstFailure(ArraySpecToProto, p.inputSpecs, k) && ArraySpecToProto(p.inputSpecs[k]) == Err(r.error))
      || ((forall s :: s in p.inputSpecs ==> s.sharding.hasSerDes) &&
          exists k :: FirstFailure(ArraySpecToProto, p.outputSpecs, k) && ArraySpecToProto(p.outputSpecs[k]) == Err(r.error))
  {
    var inputs :- MapResult(ArraySpecToProto, p.inputSpecs);
    var outputs :- MapResult(ArraySpecToProto, p.outputSpecs);
    Ok(IoCallableProgramProto(p.programType, p.name, p.serializedProgramText,
                              DeviceListToProto(p.devices), inputs, outputs))
  }

  /** The bytes `Serialize` returns: the encoded message, or the error that
      stopped it being built. */
  function EncodeProgram(codec: ProtoCodec, p: IoCallableProgram): (r: Result<Bytes>)
    ensures r.Ok? <==> ProgramToProto(p).Ok?
    ensures r.Ok? ==> r.value == codec.encode(ProgramToProto(p).value)
    ensures r.Err? ==> r.error == ProgramToProto(p).error
  {
    var m :- ProgramToProto(p);
    Ok(codec.encode(m))
  }

  /** One of the `add_input_specs` / `add_output_specs` loops: converts each
      spec in turn and returns at the first failure. */
  method SpecsToProto(specs: seq<ArraySpec>) returns (r: Result<seq<ArraySpecProto>>)
    ensures r == MapResult(ArraySpecToProto, specs)
  {
    var protos: seq<ArraySpecProto> := [];
    var i := 0;
    while i < |specs|
      invariant 0 <= i <= |specs|
      invariant MapResult(ArraySpecToProto, specs[..i]) == Ok(protos)
    {
      var converted := ArraySpecToProto(specs[i]);
      assert specs[..i + 1][..i] == specs[..i];
      if converted.Err? {
        MapResultStopsAtFirstFailure(ArraySpecToProto, specs, i + 1);
        return Err(converted.error);
      }
      protos := protos + [converted.value];
      i := i + 1;
    }
    assert specs[..i] == specs;
    return Ok(protos);
  }

  /** `IoCallableProgramSerDes::Serialize`. */
  method SerializeProgram(codec: ProtoCodec, serializable: Serializable) returns (r: Result<Bytes>)
    requires serializable.Program?
    ensures r == EncodeProgram(codec, serializable.program)
  {
    var program := serializable.program;
    var proto := IoCallableProgramProto(program.programType, program.name, program.serializedProgramText,
                                        DeviceListToProto(program.devices), [], []);
    var inputs := SpecsToProto(program.inputSpecs);
    if inputs.Err? {
      return Err(inputs.error);
    }
    proto := proto.(inputSpecs := inputs.value);
    var outputs := SpecsToProto(program.outputSpecs);
    if outputs.Err? {
      return Err(outputs.error);
    }
    proto := proto.(outputSpecs := outputs.value);
    return Ok(codec.encode(proto));
  }

  // ---------------------------------------------------------------------
  // IoCallableProgramSerDes::Deserialize

  /** The program `Deserialize` builds from a parsed message: the device list
      first, then the input specs and the output specs, each in message
      order; the first resolution that fails aborts with its error. */
  function ProgramFromProto(lookup: LookupDevice, m: IoCallableProgramProto): (r: Result<IoCallableProgram>)
    ensures DeviceListFromProto(lookup, m.devices).Err? ==> r == Err(DeviceListFromProto(lookup, m.devices).error)
    ensures r.Ok? <==>
      && DeviceListFromProto(lookup, m.devices).Ok?
      && (forall i :: 0 <= i < |m.inputSpecs| ==> ArraySpecFromProto(lookup, m.inputSpecs[i]).Ok?)
      && (forall i :: 0 <= i < |m.outputSpecs| ==> ArraySpecFromProto(lookup, m.outputSpecs[i]).Ok?)
    ensures r.Ok? ==>
      && r.value.programType == m.programType
      && r.value.name == m.name
      && r.value.serializedProgramText == m.serializedProgramText
      && Ok(r.value.devices) == DeviceListFromProto(lookup, m.devices)
    ensures r.Ok? ==> |r.value.inputSpecs| == |m.inputSpecs| && |r.value.outputSpecs| == |m.outputSpecs|
    ensures r.Ok? ==> forall i :: 0 <= i < |m.inputSpecs| ==> ArraySpecFromProto(lookup, m.inputSpecs[i]) == Ok(r.value.inputSpecs[i])
    ensures r.Ok? ==> forall i :: 0 <= i < |m.outputSpecs| ==> ArraySpecFromProto(lookup, m.outputSpecs[i]) == Ok(r.value.outputSpecs[i])
    ensures DeviceListFromProto(lookup, m.devices).Ok? && r.Err? ==>
      || (exists k :: FirstFailure(SpecResolver(lookup), m.inputSpecs, k) && SpecResolver(lookup)(m.inputSpecs[k]) == Err(r.error))
      || ((forall i :: 0 <= i < |m.inputSpecs| ==> ArraySpecFromProto(lookup, m.inputSpecs[i]).Ok?) &&
          exists k :: FirstFailure(SpecResolver(lookup), m.outputSpecs, k) && SpecResolver(lookup)(m.outputSpecs[k]) == Err(r.error))
  {
    var devices :- DeviceListFromProto(lookup, m.devices);
    var inputs :- MapResult(SpecResolver(lookup), m.inputSpecs);
    var outputs :- MapResult(SpecResolver(lookup), m.outputSpecs);
    Ok(IoCallableProgram(m.programType, m.name, m.serializedProgramText, devices, inputs, outputs))
  }

  /** What `Deserialize` returns for `serialized`: bytes that do not parse
      are an InvalidArgument error and nothing is built. */
  function DecodeProgram(codec: ProtoCodec, serialized: Bytes, lookup: LookupDevice): (r: Result<IoCallableProgram>)
    ensures codec.parse(serialized).None? ==> r == Err(ParseFailure)
    ensures codec.parse(serialized).Some? ==> r == ProgramFromProto(lookup, codec.parse(serialized).value)
  {
    match codec.parse(serialized)
    case None => Err(ParseFailure)
    case Some(m) => ProgramFromProto(lookup, m)
  }

  /** One of the `push_back` loops of `Deserialize`: resolves each spec
      message in turn and returns at the first failure. */
  method SpecsFromProto(lookup: LookupDevice, protos: seq<ArraySpecProto>) returns (r: Result<seq<ArraySpec>>)
    ensures r == MapResult(SpecResolver(lookup), protos)
  {
    var specs: seq<ArraySpec> := [];
    var i := 0;
    while i < |protos|
      invariant 0 <= i <= |protos|
      invariant MapResult(SpecResolver(lookup), protos[..i]) == Ok(specs)
    {
      var resolved := ArraySpecFromProto(lookup, protos[i]);
      assert protos[..i + 1][..i] == protos[..i];
      if resolved.Err? {
        MapResultStopsAtFirstFailure(SpecResolver(lookup), protos, i + 1);
        return Err(resolved.error);
      }
      specs := specs + [resolved.value];
      i := i + 1;
    }
    assert protos[..i] == protos;
    return Ok(specs);
  }

  /** `IoCallableProgramSerDes::Deserialize`. */
  method DeserializeProgram(codec: ProtoCodec, serialized: Bytes, options: DeserializeOptions)
    returns (r: Result<Serializable>)
    requires options.DeserializeProgramOptions?
    ensures r.Ok? <==> DecodeProgram(codec, serialized, options.lookupDevice).Ok?
    ensures r.Ok? ==> r.value == Program(DecodeProgram(codec, serialized, options.lookupDevice).value)
    ensures r.Err? ==> r.error == DecodeProgram(codec, serialized, options.lookupDevice).error
  {
    var lookup := options.lookupDevice;
    var parsed := codec.parse(serialized);
    if parsed.None? {
      return Err(ParseFailure);
    }
    var proto := parsed.value;
    var devices := DeviceListFromProto(lookup, proto.devices);
    if devices.Err? {
      return Err(devices.error);
    }
    var inputs := SpecsFromProto(lookup, proto.inputSpecs);
    if inputs.Err? {
      return Err(inputs.error);
    }
    var outputs := SpecsFromProto(lookup, proto.outputSpecs);
    if outputs.Err? {
      return Err(outputs.error);
    }
    return Ok(Program(IoCallableProgram(proto.programType, proto.name, proto.serializedProgramText,
                                        devices.value, inputs.value, outputs.value)));
  }

  // ---------------------------------------------------------------------
  // Round trip

  /** Every device `p` names — in its device list and in the shardings of
      its specs — resolves to itself. */
  ghost predicate ProgramResolves(lookup: LookupDevice, p: IoCallableProgram) {
    && (forall d :: d in p.devices.devices ==> Resolves(lookup, d))
    && (forall s :: s in p.inputSpecs + p.outputSpecs ==> SpecResolves(lookup, s))
  }

  lemma {:induction false} SpecsRoundTrip(lookup: LookupDevice, specs: seq<ArraySpec>)
    requires forall s :: s in specs ==> s.sharding.hasSerDes && SpecResolves(lookup, s)
    ensures MapResult(ArraySpecToProto, specs).Ok?
    ensures MapResult(SpecResolver(lookup), MapResult(ArraySpecToProto, specs).value) == Ok(specs)
  {
    forall i | 0 <= i < |specs|
      ensures SpecResolver(lookup)(ArraySpecToProto(specs[i]).value) == Ok(specs[i])
    {
      ArraySpecRoundTrip(lookup, specs[i]);
    }
    MapResultInverse(ArraySpecToProto, SpecResolver(lookup), specs);
  }

  /** Deserializing what `Serialize` produced gives back the program, field
      for field and in the same order, when the message encoding round-trips
      and the lookup resolves every device of the program. */
  lemma {:induction false} ProgramRoundTrip(codec: ProtoCodec, lookup: LookupDevice, p: IoCallableProgram)
    requires RoundTrips(codec)
    requires ProgramResolves(lookup, p)
    requires EncodeProgram(codec, p).Ok?
    ensures DecodeProgram(codec, EncodeProgram(codec, p).value, lookup) == Ok(p)
  {
    var m := ProgramToProto(p).value;
    assert codec.parse(codec.encode(m)) == Some(m);
    DeviceListRoundTrip(lookup, p.devices);
    SpecsRoundTrip(lookup, p.inputSpecs);
    SpecsRoundTrip(lookup, p.outputSpecs);
  }

  // ---------------------------------------------------------------------
  // IoCallableCompileOptionsSerDes

  /** `IoCallableCompileOptionsSerDes::Serialize`: the argument is not even
      inspected; the result is always the empty string. */
  function SerializeCompileOptions(serializable: Serializable): (r: Result<Bytes>)
    ensures r.Ok? && r.value == ""
  {
    Ok("")
  }

  /** `IoCallableCompileOptionsSerDes::Deserialize`: only the empty string is
      accepted; the options are ignored. */
  function DeserializeCompileOptions(serialized: Bytes, options: DeserializeOptions): (r: Result<Serializable>)
    ensures r.Ok? <==> serialized == ""
    ensures r.Ok? ==> r.value == CompileOptions
    ensures r.Err? ==> r.error.code == InvalidArgument
  {
    if serialized != "" then Err(NonEmptyCompileOptions) else Ok(CompileOptions)
  }

  // ---------------------------------------------------------------------
  // The SerDes units and their registry

  datatype SerDes = IoCallableProgramSerDes | IoCallableCompileOptionsSerDes {
    /** `type_name()`: the two units have different names. */
    function TypeName(): (name: string)
      ensures IoCallableProgramSerDes? <==> name == ProgramTypeName
      ensures IoCallableCompileOptionsSerDes? <==> name == CompileOptionsTypeName
    {
      match this
      case IoCallableProgramSerDes => ProgramTypeName
      case IoCallableCompileOptionsSerDes => CompileOptionsTypeName
    }

    /** The unit's `Serialize`, for an object of the type it is registered for. */
    function Serialize(codec: ProtoCodec, serializable: Serializable): (r: Result<Bytes>)
      requires TypeName() == TypeNameOf(serializable)
      ensures serializable.Program? ==> r == EncodeProgram(codec, serializable.program)
      ensures serializable.CompileOptions? ==> r == Ok("")
    {
      match this
      case IoCallableProgramSerDes => EncodeProgram(codec, serializable.program)
      case IoCallableCompileOptionsSerDes => SerializeCompileOptions(serializable)
    }

    /** The unit's `Deserialize`. */
    function Deserialize(codec: ProtoCodec, serialized: Bytes, options: DeserializeOptions): (r: Result<Serializable>)
      requires IoCallableProgramSerDes? ==> options.DeserializeProgramOptions?
      ensures r.Ok? ==> TypeNameOf(r.value) == TypeName()
      ensures IoCallableCompileOptionsSerDes? ==> r == DeserializeCompileOptions(serialized, options)
      ensures IoCallableProgramSerDes? ==>
                && (r.Ok? <==> DecodeProgram(codec, serialized, options.lookupDevice).Ok?)
                && (r.Ok? ==> r.value == Program(DecodeProgram(codec, serialized, options.lookupDevice).value))
                && (r.Err? ==> r.error == DecodeProgram(codec, serialized, options.lookupDevice).error)
    {
      match this
      case IoCallableProgramSerDes =>
        var p :- DecodeProgram(codec, serialized, options.lookupDevice);
        Ok(Program(p))
      case IoCallableCompileOptionsSerDes => DeserializeCompileOptions(serialized, options)
    }
  }

  /** The type name an object's runtime type is registered under. */
  function TypeNameOf(serializable: Serializable): (name: string)
    ensures serializable.Program? <==> name == ProgramTypeName
    ensures serializable.CompileOptions? <==> name == CompileOptionsTypeName
  {
    match serializable
    case Program(_) => ProgramTypeName
    case CompileOptions => CompileOptionsTypeName
  }

  type Registry = map<string, SerDes>

  /** Every unit sits under its own type name. */
  ghost predicate WellKeyed(registry: Registry) {
    forall name :: name in registry ==> registry[name].TypeName() == name
  }

  /** `RegisterSerDes<T>(unit)`: installs `unit` under its type name; a
      second registration under one name is a fatal configuration error. */
  function RegisterSerDes(registry: Registry, unit: SerDes): (r: Registry)
    requires unit.TypeName() !in registry
    ensures WellKeyed(registry) ==> WellKeyed(r)
    ensures r.Keys == registry.Keys + {unit.TypeName()}
    ensures r[unit.TypeName()] == unit
    ensures forall name :: name in registry ==> r[name] == registry[name]
  {
    registry[unit.TypeName() := unit]
  }

  /** The two registrations of this file, made explicitly: afterwards both
      type names are known, each to the unit for that type. */
  function InitRegistry(): (r: Registry)
    ensures WellKeyed(r)
    ensures r.Keys == {ProgramTypeName, CompileOptionsTypeName}
    ensures r[ProgramTypeName] == IoCallableProgramSerDes
    ensures r[CompileOptionsTypeName] == IoCallableCompileOptionsSerDes
  {
    var withProgram := RegisterSerDes(map[], IoCallableProgramSerDes);
    RegisterSerDes(withProgram, IoCallableCompileOptionsSerDes)
  }

  /** Serialization through the registry: dispatch on the object's runtime
      type, NotFound when nothing is registered for it. */
  function SerializeByRuntimeType(registry: Registry, codec: ProtoCodec, serializable: Serializable): (r: Result<Bytes>)
    requires WellKeyed(registry)
    ensures TypeNameOf(serializable) !in registry ==> r.Err? && r.error.code == NotFound
    ensures TypeNameOf(serializable) in registry && serializable.Program? ==> r == EncodeProgram(codec, serializable.program)
    ensures TypeNameOf(serializable) in registry && serializable.CompileOptions? ==> r == Ok("")
  {
    var name := TypeNameOf(serializable);
    if name !in registry then Err(Error(NotFound, "No SerDes is registered for " + name))
    else registry[name].Serialize(codec, serializable)
  }

  /** Deserialization through the registry: dispatch on the type name that
      travels with the bytes, NotFound when nothing is registered under it;
      what comes back is of the type registered under that name. */
  function DeserializeByTypeName(registry: Registry, codec: ProtoCodec, typeName: string,
                                 serialized: Bytes, options: DeserializeOptions): (r: Result<Serializable>)
    requires WellKeyed(registry)
    requires typeName == ProgramTypeName ==> options.DeserializeProgramOptions?
    ensures typeName !in registry ==> r.Err? && r.error.code == NotFound
    ensures r.Ok? ==> TypeNameOf(r.value) == typeName
    ensures typeName in registry && typeName == CompileOptionsTypeName ==>
              r == DeserializeCompileOptions(serialized, options)
    ensures typeName in registry && typeName == ProgramTypeName ==>
              && (r.Ok? <==> DecodeProgram(codec, serialized, options.lookupDevice).Ok?)
              && (r.Ok? ==> r.value == Program(DecodeProgram(codec, serialized, options.lookupDevice).value))
              && (r.Err? ==> r.error == DecodeProgram(codec, serialized, options.lookupDevice).error)
  {
    if typeName !in registry then Err(Error(NotFound, "No SerDes is registered for " + typeName))
    else registry[typeName].Deserialize(codec, serialized, options)
  }

  /** The registry round trip: whatever object the initial registry
      serializes, deserializing those bytes under the object's type name
      gives the object back. */
  lemma RegistryRoundTrip(codec: ProtoCodec, options: DeserializeOptions, serializable: Serializable)
    requires RoundTrips(codec)
    requires serializable.Program? ==> options.DeserializeProgramOptions? && ProgramResolves(options.lookupDevice, serializable.program)
    requires SerializeByRuntimeType(InitRegistry(), codec, serializable).Ok?
    ensures DeserializeByTypeName(InitRegistry(), codec, TypeNameOf(serializable),
                                  SerializeByRuntimeType(InitRegistry(), codec, serializable).value,
                                  options) == Ok(serializable)
  {
    if serializable.Program? {
      ProgramRoundTrip(codec, options.lookupDevice, serializable.program);
    }
  }
}
