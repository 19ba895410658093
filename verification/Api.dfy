// The custom resources' configurable fields, and the bodies exchanged with the UCAN services.
// Optional sequences and maps keep Go's nil apart from its empty slices and maps.
module Api {
  import opened Wrappers
  import opened Urls

  type Int64 = x: int | -0x8000_0000_0000_0000 <= x < 0x8000_0000_0000_0000

  /******* Custom resources *******/

  datatype BlockDevice = BlockDevice(
    bootIndex: Int64,
    deleteOnTermination: bool,
    deviceName: string,
    sourceType: string,
    destinationType: string,
    volumeSize: Int64,
    volumeType: string,
    uuid: string)

  datatype Personality = Personality(contents: string, path: string)

  datatype SecurityGroup = SecurityGroup(name: string)

  datatype VmParameters = VmParameters(
    name: string,
    projectId: string,
    cellId: string,
    accessIPv4: string,
    accessIPv6: string,
    imageRef: string,
    flavorRef: string,
    availabilityZone: string,
    userData: string,
    blockDeviceMapping: Option<seq<BlockDevice>>,
    metadata: Option<map<string, string>>,
    personality: Option<seq<Personality>>,
    securityGroups: Option<seq<SecurityGroup>>)

  datatype SchedulerHints = SchedulerHints(sameHost: Option<seq<string>>)

  datatype VolumeParameters = VolumeParameters(
    projectId: string,
    cellId: string,
    volumeType: string,
    size: Int64,
    description: string,
    multiattach: bool,
    name: string,
    availabilityZone: string,
    imageRef: string,
    schedulerHints: Option<seq<SchedulerHints>>)

  datatype EipParameters = EipParameters(
    name: string,
    projectId: string,
    cellId: string,
    isp: string,
    floatingNetworkId: string,
    qosPolicyId: string,
    routeId: string,
    description: string,
    reservationId: string,
    bandwidth: Int64,
    availabilityZone: string)

  datatype Spec =
    | VmSpec(vm: VmParameters)
    | VolumeSpec(volume: VolumeParameters)
    | EipSpec(eip: EipParameters)
  {
    function Kind(): Kind {
      match this
      case VmSpec(_) => VirtualMachine
      case VolumeSpec(_) => Volume
      case EipSpec(_) => Floatingip
    }

    // The part of the spec that addresses an item besides its id.
    function Scope(): string {
      if VolumeSpec? then volume.projectId else ""
    }
  }

  /******* Requests *******/

  // The fields after volumeType are never assigned and keep their zero values.
  datatype ServerBlockDevice = ServerBlockDevice(
    bootIndex: Int64,
    deleteOnTermination: bool,
    sourceType: string,
    destinationType: string,
    volumeSize: Int64,
    volumeType: string,
    deviceName: string,
    deviceType: string,
    diskBus: string,
    guestFormat: string,
    noDevice: bool,
    uuid: string,
    tag: string)

  datatype CreateRequest =
    | CreateServer(
        serverName: string,
        serverProject: string,
        serverCell: string,
        imageRef: string,
        flavorRef: string,
        blockDeviceMapping: seq<ServerBlockDevice>)
    | CreateVolume(
        size: Int64,
        volumeDescription: string,
        multiattach: bool,
        volumeName: string,
        volumeType: string,
        volumeCell: string,
        sameHost: Option<seq<string>>)
    | CreateEip(
        eipName: string,
        eipProject: string,
        eipCell: string,
        floatingNetwork: string,
        isp: string,
        bandwidth: Int64,
        eipDescription: string,
        routeId: string)

  /******* Replies *******/

  // The fields that the controllers read of a decoded server, volume or floating IP.
  datatype Body = Body(id: string, status: string)

  type Bytes = seq<bv8>

  // JSON text is not modelled: any encoder and any decoder per kind will do, and both
  // may fail.
  datatype Json = Json(
    marshal: CreateRequest -> Option<Bytes>,
    unmarshal: (Kind, Bytes) -> Option<Body>)
}
