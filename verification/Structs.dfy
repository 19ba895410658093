// Custom resources and their lists as Go structs on the heap.
//
// A Go struct is a datatype; its slices and maps are references, nil when null, so structs copied
// by assignment share them. The abstract value of a struct is what the Api types describe.
// Library structs (object and list metadata, resource specs and statuses) are values here.
module Structs {
  import opened Wrappers
  import opened Api

  /******* Structs *******/

  datatype ObjectMeta = ObjectMeta(kind: string, name: string, annotations: map<string, string>)
  datatype ListMeta = ListMeta(kind: string, resourceVersion: string)

  datatype HintsStruct = HintsStruct(sameHost: array?<string>)

  datatype VolumeParametersStruct = VolumeParametersStruct(
    projectId: string,
    cellId: string,
    volumeType: string,
    size: Int64,
    description: string,
    multiattach: bool,
    name: string,
    availabilityZone: string,
    imageRef: string,
    schedulerHints: array?<HintsStruct>)

  datatype VolumeSpecStruct = VolumeSpecStruct(resourceSpec: string, forProvider: VolumeParametersStruct)
  datatype StatusStruct = StatusStruct(ready: bool, atProvider: string)
  datatype VolumeStruct = VolumeStruct(meta: ObjectMeta, spec: VolumeSpecStruct, status: StatusStruct)
  datatype VolumeListStruct = VolumeListStruct(meta: ListMeta, items: array?<VolumeStruct>)

  // A Go map on the heap.
  class GoMap {
    var entries: map<string, string>

    constructor ()
      ensures entries == map[]
    {
      entries := map[];
    }
  }

  datatype VmParametersStruct = VmParametersStruct(
    name: string,
    projectId: string,
    cellId: string,
    accessIPv4: string,
    accessIPv6: string,
    imageRef: string,
    flavorRef: string,
    availabilityZone: string,
    userData: string,
    blockDeviceMapping: array?<BlockDevice>,
    metadata: GoMap?,
    personality: array?<Personality>,
    securityGroups: array?<SecurityGroup>)

  datatype VmSpecStruct = VmSpecStruct(resourceSpec: string, forProvider: VmParametersStruct)
  datatype VmStruct = VmStruct(meta: ObjectMeta, spec: VmSpecStruct, status: StatusStruct)
  datatype VmListStruct = VmListStruct(meta: ListMeta, items: array?<VmStruct>)

  /******* Abstract values *******/

  datatype VolumeValue = VolumeValue(meta: ObjectMeta, resourceSpec: string, forProvider: VolumeParameters, status: StatusStruct)
  datatype VmValue = VmValue(meta: ObjectMeta, resourceSpec: string, forProvider: VmParameters, status: StatusStruct)
  datatype ListValue<V> = ListValue(meta: ListMeta, items: Option<seq<V>>)

  ghost function Slice<T>(a: array?<T>): Option<seq<T>>
    reads a
  {
    if a == null then None else Some(a[..])
  }

  // make and copy.
  method Clone<T>(source: array<T>) returns (out: array<T>)
    ensures fresh(out) && out[..] == source[..]
  {
    out := new T[source.Length](i requires 0 <= i < source.Length reads source => source[i]);
  }

  // make and range, from a value.
  method Build<T>(s: Option<seq<T>>) returns (a: array?<T>)
    ensures Slice(a) == s && (a != null ==> fresh(a))
  {
    a := null;
    if s.Some? {
      var elements := s.value;
      a := new T[|elements|](i requires 0 <= i < |elements| => elements[i]);
      assert a[..] == elements;
    }
  }

  /******* Writes on values *******/

  // Writes to a list and to its copy, in any order.
  datatype Side = Source | Copy
  datatype Sided<W> = Sided(side: Side, write: W)

  // Those of one side.
  function WritesTo<W>(side: Side, writes: seq<Sided<W>>): seq<W>
    decreases |writes|
  {
    if writes == [] then []
    else
      var last := writes[|writes| - 1];
      WritesTo(side, writes[..|writes| - 1]) + if last.side == side then [last.write] else []
  }

  // A write past the end of a slice or to a nil slice panics in Go and writes nothing.
  function Update<T>(s: Option<seq<T>>, index: nat, x: T): Option<seq<T>> {
    if s.Some? && index < |s.value| then Some(s.value[index := x]) else s
  }

  // The items besides one.
  function Without<T>(items: seq<T>, i: nat): seq<T>
    requires i < |items|
  {
    items[..i] + items[i + 1..]
  }
}
