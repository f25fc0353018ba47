/** The IFRT value types that an `IoCallableProgram` refers to — devices,
    device lists, shardings and array specs — with their protobuf forms and
    the `ToProto` / `FromProto` conversions the program SerDes calls. Their
    C++ implementations are not part of this model; each is kept to what the
    SerDes relies on: conversion to a message keeps every field, conversion
    back resolves device ids through the caller's `lookup_device` and forwards
    its first error, and an array spec whose sharding has no registered SerDes
    cannot be converted. */
module IfrtTypes {
  import opened Status

  type DeviceId = int

  /** A live device handle, as the runtime's device table hands it out. */
  datatype Device = Device(id: DeviceId, processIndex: int)

  /** `DeserializeProgramOptions::lookup_device`: resolves a logical device id
      against the current runtime, and may fail with an error of its own. */
  type LookupDevice = DeviceId -> Result<Device>

  /** `lookup` hands back exactly the device `d` for `d`'s id. */
  ghost predicate Resolves(lookup: LookupDevice, d: Device) {
    lookup(d.id) == Ok(d)
  }

  datatype DeviceList = DeviceList(devices: seq<Device>)

  datatype DeviceListProto = DeviceListProto(deviceIds: seq<DeviceId>)

  /** `DeviceList::ToProto`: the device ids, in list order. */
  function DeviceListToProto(list: DeviceList): (m: DeviceListProto)
    ensures |m.deviceIds| == |list.devices|
    ensures forall i :: 0 <= i < |list.devices| ==> m.deviceIds[i] == list.devices[i].id
  {
    DeviceListProto(DeviceIds(list.devices))
  }

  function DeviceIds(devices: seq<Device>): (ids: seq<DeviceId>)
    ensures |ids| == |devices|
    ensures forall i :: 0 <= i < |devices| ==> ids[i] == devices[i].id
  {
    if devices == [] then [] else [devices[0].id] + DeviceIds(devices[1..])
  }

  /** `DeviceList::FromProto`: looks every id up in order; the first id the
      lookup rejects aborts the conversion with the lookup's own error. */
  function DeviceListFromProto(lookup: LookupDevice, m: DeviceListProto): (r: Result<DeviceList>)
    ensures r.Ok? <==> forall i :: 0 <= i < |m.deviceIds| ==> lookup(m.deviceIds[i]).Ok?
    ensures r.Ok? ==> |r.value.devices| == |m.deviceIds|
    ensures r.Ok? ==> forall i :: 0 <= i < |m.deviceIds| ==> lookup(m.deviceIds[i]) == Ok(r.value.devices[i])
    ensures r.Err? ==> exists k :: FirstFailure(lookup, m.deviceIds, k) && lookup(m.deviceIds[k]) == Err(r.error)
  {
    var devices :- MapResult(lookup, m.deviceIds);
    Ok(DeviceList(devices))
  }

  /** A device list comes back unchanged from its message when the lookup
      resolves each of its devices to itself. */
  lemma DeviceListRoundTrip(lookup: LookupDevice, list: DeviceList)
    requires forall d :: d in list.devices ==> Resolves(lookup, d)
    ensures DeviceListFromProto(lookup, DeviceListToProto(list)) == Ok(list)
  {
    var r := DeviceListFromProto(lookup, DeviceListToProto(list));
    assert forall i :: 0 <= i < |list.devices| ==> Resolves(lookup, list.devices[i]);
    assert r.Ok?;
    assert r.value.devices == list.devices;
  }

  /** A sharding of an array over a device list. `hasSerDes` records whether
      the sharding's concrete type has a SerDes registered; a sharding without
      one has no message form. */
  datatype Sharding = Sharding(kind: string, devices: DeviceList, hasSerDes: bool)

  datatype ShardingProto = ShardingProto(kind: string, devices: DeviceListProto)

  /** `ArraySpec`: element type, shape and sharding of one program argument
      or result. */
  datatype ArraySpec = ArraySpec(dtype: string, shape: seq<int>, sharding: Sharding)

  datatype ArraySpecProto = ArraySpecProto(dtype: string, shape: seq<int>, sharding: ShardingProto)

  /** `ArraySpec::ToProto`: fails, as the SerDes registry does for a type it
      does not know, when the sharding cannot be serialized. */
  function ArraySpecToProto(spec: ArraySpec): (r: Result<ArraySpecProto>)
    ensures r.Ok? <==> spec.sharding.hasSerDes
    ensures r.Err? ==> r.error.code == NotFound
    ensures r.Ok? ==> r.value.dtype == spec.dtype && r.value.shape == spec.shape
    ensures r.Ok? ==> r.value.sharding.devices == DeviceListToProto(spec.sharding.devices)
  {
    if !spec.sharding.hasSerDes then
      Err(Error(NotFound, "No SerDes is registered for the sharding type " + spec.sharding.kind))
    else
      var sharding := ShardingProto(spec.sharding.kind, DeviceListToProto(spec.sharding.devices));
      Ok(ArraySpecProto(spec.dtype, spec.shape, sharding))
  }

  /** `ArraySpec::FromProto`: resolves the sharding's devices through the
      lookup, forwarding its error. */
  function ArraySpecFromProto(lookup: LookupDevice, m: ArraySpecProto): (r: Result<ArraySpec>)
    ensures r.Ok? <==> DeviceListFromProto(lookup, m.sharding.devices).Ok?
    ensures r.Err? ==> r.error == DeviceListFromProto(lookup, m.sharding.devices).error
    ensures r.Ok? ==> r.value.dtype == m.dtype && r.value.shape == m.shape && r.value.sharding.hasSerDes
  {
    var devices :- DeviceListFromProto(lookup, m.sharding.devices);
    Ok(ArraySpec(m.dtype, m.shape, Sharding(m.sharding.kind, devices, true)))
  }

  /** `ArraySpecFromProto` with the lookup fixed, as one value that every
      loop over spec messages applies. */
  function SpecResolver(lookup: LookupDevice): ArraySpecProto -> Result<ArraySpec> {
    m => ArraySpecFromProto(lookup, m)
  }

  /** Every device the spec's sharding names resolves to itself. */
  ghost predicate SpecResolves(lookup: LookupDevice, spec: ArraySpec) {
    forall d :: d in spec.sharding.devices.devices ==> Resolves(lookup, d)
  }

  /** An array spec with a serializable sharding comes back unchanged from
      its message when the lookup resolves each of its devices to itself. */
  lemma ArraySpecRoundTrip(lookup: LookupDevice, spec: ArraySpec)
    requires spec.sharding.hasSerDes && SpecResolves(lookup, spec)
    ensures SpecResolver(lookup)(ArraySpecToProto(spec).value) == Ok(spec)
  {
    DeviceListRoundTrip(lookup, spec.sharding.devices);
  }
}
