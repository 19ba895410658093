// What one Observe, Create, Update or Delete call does to its custom resource, given what came
// back from the service. The three controllers are proved to follow these functions.
module Lifecycle {
  import opened Wrappers
  import opened Urls
  import opened Api

  const BAD_REQUEST := 400
  const NOT_FOUND := 404
  const NO_CONTENT := 204

  // The parts of a custom resource that the controllers read or write.
  datatype Cr = Cr(spec: Spec, annotations: map<string, string>, status: string, ready: bool) {
    // The remote id this resource is bound to, if any.
    function Id(): Option<string> {
      IdIn(spec.Kind(), annotations)
    }
  }

  // The address a GET or DELETE for a resource is sent to, if it has an id to ask for.
  function Address(cr: Cr): Option<string> {
    match cr.Id()
    case None => None
    case Some(id) => Some(ItemUrl(cr.spec.Kind(), cr.spec.Scope(), id))
  }

  function IdIn(kind: Kind, annotations: map<string, string>): Option<string> {
    if IdKey(kind) in annotations then Some(annotations[IdKey(kind)]) else None
  }

  function IdKey(kind: Kind): string {
    match kind
    case VirtualMachine => "ucan.io/virtualmachine-uuid"
    case Volume => "ucan.io/volume-uuid"
    case Floatingip => "ucan.io/eip-uuid"
  }

  function ReadyStatus(kind: Kind): string {
    match kind
    case VirtualMachine => "Running"
    case Volume => "available"
    case Floatingip => "running"
  }

  // What a call learns from the service: nothing because no request left, nothing because the
  // exchange broke, or a status code with a body that may not decode.
  datatype Answer = Unsent | Broken | Answered(code: int, body: Option<Body>)

  datatype ObserveResult = ObserveFailed | Observation(found: bool, upToDate: bool)
  datatype CreateResult = CreatePanicked | CreateFailed | Created
  datatype DeleteResult = DeleteFailed | Deleted

  function ObserveEffect(cr: Cr, answer: Answer): (Cr, ObserveResult) {
    if cr.Id().None? then
      (cr, Observation(false, false))
    else if answer.Answered? && answer.body.Some? && (answer.code < BAD_REQUEST || answer.code == NOT_FOUND) then
      var found := answer.code != NOT_FOUND;
      var status := answer.body.value.status;
      var ready := cr.ready || (found && status == ReadyStatus(cr.spec.Kind()));
      (cr.(status := status, ready := ready), Observation(found, true))
    else
      (cr, ObserveFailed)
  }

  // A reply that makes Observe report absence. A 404 that does not decode is an error.
  predicate Denies(answer: Answer) {
    answer.Answered? && answer.code == 404 && answer.body.Some?
  }

  // A reply that makes Create record the id it carries.
  predicate Accepts(answer: Answer) {
    answer.Answered? && answer.code < BAD_REQUEST && answer.body.Some?
  }

  // Binding a resource to an id discards every other annotation.
  function Bind(kind: Kind, id: string): map<string, string> {
    map[IdKey(kind) := id]
  }

  function CreateEffect(cr: Cr, answer: Answer): (Cr, CreateResult) {
    if BuildRequest(cr.spec).None? then
      (cr, CreatePanicked)
    else if Accepts(answer) then
      (cr.(annotations := Bind(cr.spec.Kind(), answer.body.value.id)), Created)
    else
      (cr, CreateFailed)
  }

  function DeleteEffect(cr: Cr, answer: Answer): DeleteResult {
    if cr.Id().None? then
      if cr.spec.EipSpec? then DeleteFailed else Deleted
    else if answer.Answered? && answer.code == NO_CONTENT then
      Deleted
    else
      DeleteFailed
  }

  /******* Requests *******/

  function ToServerBlockDevice(d: BlockDevice): ServerBlockDevice {
    ServerBlockDevice(d.bootIndex, d.deleteOnTermination, d.sourceType, d.destinationType, d.volumeSize,
                      d.volumeType, "", "", "", "", false, "", "")
  }

  // A Go slice ranged over: nil has no elements.
  function Elements<T>(s: Option<seq<T>>): seq<T> {
    if s.Some? then s.value else []
  }

  // The body Create posts. There is none for a volume without scheduler hints: its first hint
  // is indexed regardless.
  function BuildRequest(spec: Spec): (r: Option<CreateRequest>)
    ensures r.None? <==> spec.VolumeSpec? && (spec.volume.schedulerHints.None? || spec.volume.schedulerHints == Some([]))
  {
    match spec
    case VmSpec(p) =>
      var devices := Elements(p.blockDeviceMapping);
      Some(CreateServer(p.name, p.projectId, p.cellId, p.imageRef, p.flavorRef,
                        seq(|devices|, i requires 0 <= i < |devices| => ToServerBlockDevice(devices[i]))))
    case VolumeSpec(p) =>
      var hints := Elements(p.schedulerHints);
      if hints == [] then None
      else Some(CreateVolume(p.size, p.description, p.multiattach, p.name, p.volumeType, p.cellId, hints[0].sameHost))
    case EipSpec(p) =>
      Some(CreateEip(p.name, p.projectId, p.cellId, p.floatingNetworkId, p.isp, p.bandwidth, p.description, p.routeId))
  }

  // The request asks for what the spec says, field by field.
  ghost predicate AsksFor(spec: Spec, r: CreateRequest) {
    match spec
    case VmSpec(p) =>
      && r.CreateServer?
      && r.serverName == p.name && r.serverProject == p.projectId && r.serverCell == p.cellId
      && r.imageRef == p.imageRef && r.flavorRef == p.flavorRef
      && AsksForDevices(p.blockDeviceMapping, r.blockDeviceMapping)
    case VolumeSpec(p) =>
      && r.CreateVolume?
      && r.size == p.size && r.volumeDescription == p.description && r.multiattach == p.multiattach
      && r.volumeName == p.name && r.volumeType == p.volumeType && r.volumeCell == p.cellId
      && p.schedulerHints.Some? && |p.schedulerHints.value| > 0 && r.sameHost == p.schedulerHints.value[0].sameHost
    case EipSpec(p) =>
      && r.CreateEip?
      && r.eipName == p.name && r.eipProject == p.projectId && r.eipCell == p.cellId
      && r.floatingNetwork == p.floatingNetworkId && r.isp == p.isp && r.bandwidth == p.bandwidth
      && r.eipDescription == p.description && r.routeId == p.routeId
  }

  // All of them, in order; none if there are none.
  ghost predicate AsksForDevices(devices: Option<seq<BlockDevice>>, requested: seq<ServerBlockDevice>) {
    match devices
    case None => requested == []
    case Some(devices) =>
      && |requested| == |devices|
      && forall i :: 0 <= i < |devices| ==> AsksForDevice(devices[i], requested[i])
  }

  predicate AsksForDevice(d: BlockDevice, r: ServerBlockDevice) {
    && r.bootIndex == d.bootIndex && r.deleteOnTermination == d.deleteOnTermination
    && r.sourceType == d.sourceType && r.destinationType == d.destinationType
    && r.volumeSize == d.volumeSize && r.volumeType == d.volumeType
    && r.deviceName == "" && r.deviceType == "" && r.diskBus == "" && r.guestFormat == ""
    && !r.noDevice && r.uuid == "" && r.tag == ""
  }

  // The request that is built is the one request that asks for what the spec says.
  lemma RequestAsksForSpec(spec: Spec, r: CreateRequest)
    ensures BuildRequest(spec) == Some(r) <==> AsksFor(spec, r)
  {
    if AsksFor(spec, r) && spec.VmSpec? {
      assert r.blockDeviceMapping == BuildRequest(spec).value.blockDeviceMapping;
    }
  }

  /******* What the effects mean *******/

  // The annotation that names the id, and the address within the spec's own project.
  lemma AddressNamesId(cr: Cr)
    ensures match cr.spec
            case VmSpec(_) =>
              Address(cr) == if "ucan.io/virtualmachine-uuid" in cr.annotations
                             then Some(VmItemUrl(cr.annotations["ucan.io/virtualmachine-uuid"])) else None
            case VolumeSpec(p) =>
              Address(cr) == if "ucan.io/volume-uuid" in cr.annotations
                             then Some(VolumeItemUrl(p.projectId, cr.annotations["ucan.io/volume-uuid"])) else None
            case EipSpec(_) =>
              Address(cr) == if "ucan.io/eip-uuid" in cr.annotations
                             then Some(EipItemUrl(cr.annotations["ucan.io/eip-uuid"])) else None
  {
  }

  predicate Decoded(answer: Answer) {
    answer.Answered? && answer.body.Some?
  }

  predicate SaysReady(kind: Kind, status: string) {
    match kind
    case VirtualMachine => status == "Running"
    case Volume => status == "available"
    case Floatingip => status == "running"
  }

  // An observation of a resource with an id fails exactly when there is no decoded body or an
  // error status other than 404, and finds the item exactly when there is no error status.
  lemma ObserveMeans(cr: Cr, answer: Answer)
    requires cr.Id().Some?
    ensures var (cr', r) := ObserveEffect(cr, answer);
            && (r.ObserveFailed? <==> !Decoded(answer) || (answer.code >= 400 && answer.code != 404))
            && (r.Observation? ==> r.upToDate && (r.found <==> answer.code < 400))
            && cr'.spec == cr.spec && cr'.annotations == cr.annotations
            && cr'.status == (if r.Observation? then answer.body.value.status else cr.status)
            && (cr'.ready <==> cr.ready || (r.Observation? && r.found && SaysReady(cr.spec.Kind(), cr'.status)))
  {
  }

  // A Create with something to post succeeds exactly when there is a decoded body and no error
  // status, and then leaves the id as the only annotation.
  lemma CreateMeans(cr: Cr, answer: Answer)
    ensures var (cr', r) := CreateEffect(cr, answer);
            && (r.CreatePanicked? <==> forall request :: !AsksFor(cr.spec, request))
            && (r.Created? <==> !r.CreatePanicked? && Decoded(answer) && answer.code < 400)
            && (if r.Created? then
                  && cr' == cr.(annotations := cr'.annotations)
                  && cr'.Id() == Some(answer.body.value.id) && |cr'.annotations| == 1
                else cr' == cr)
  {
    if BuildRequest(cr.spec).Some? {
      RequestAsksForSpec(cr.spec, BuildRequest(cr.spec).value);
    } else {
      forall request ensures !AsksFor(cr.spec, request) {
        RequestAsksForSpec(cr.spec, request);
      }
    }
  }

  // A Delete of a resource with an id succeeds exactly on 204. Without one it succeeds silently,
  // but for floating IPs, where it is an error.
  lemma DeleteMeans(cr: Cr, answer: Answer)
    ensures DeleteEffect(cr, answer).Deleted? <==>
            if cr.Id().Some? then answer.Answered? && answer.code == 204 else !cr.spec.EipSpec?
  {
  }
}
