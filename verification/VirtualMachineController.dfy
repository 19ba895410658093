// The virtual machine controller.
module VirtualMachineController {
  import opened Urls
  import opened Api
  import opened Lifecycle
  import opened HttpClient
  import opened Managed
  import UcanSdk

  class External {
    const service: Client
    const json: Json

    constructor (service: Client, json: Json)
      ensures this.service == service && this.json == json
    {
      this.service, this.json := service, json;
    }

    method Observe(mg: Resource) returns (r: ObserveResult, ghost outcome: Outcome)
      modifies mg`status, mg`ready, service`calls, service.transport
      ensures Observes(VirtualMachine, service, json, mg, r, outcome)
    {
      outcome := NotSent;
      if !mg.spec.VmSpec? {
        return ObserveFailed, outcome;
      }
      if IdKey(VirtualMachine) !in mg.annotations {
        return Observation(false, false), outcome;
      }
      var uuid := mg.annotations[IdKey(VirtualMachine)];
      var reply := UcanSdk.GetVm(service, uuid);
      outcome := reply;
      if !reply.Received? {
        return ObserveFailed, outcome;
      }
      if reply.code >= BAD_REQUEST && reply.code != NOT_FOUND {
        return ObserveFailed, outcome;
      }
      var resourceExists := reply.code != NOT_FOUND;
      var response := json.unmarshal(VirtualMachine, reply.body);
      if response.None? {
        return ObserveFailed, outcome;
      }
      mg.status := response.value.status;
      if resourceExists && response.value.status == "Running" {
        mg.SetAvailable();
      }
      r := Observation(resourceExists, true);
    }

    method Create(mg: Resource) returns (r: CreateResult, ghost outcome: Outcome)
      modifies mg`annotations, service`calls, service.transport
      ensures Creates(VirtualMachine, service, json, mg, r, outcome)
    {
      outcome := NotSent;
      if !mg.spec.VmSpec? {
        return CreateFailed, outcome;
      }
      var p := mg.spec.vm;
      var devices := TranslateBlockDevices(Elements(p.blockDeviceMapping));
      var req := CreateServer(p.name, p.projectId, p.cellId, p.imageRef, p.flavorRef, devices);
      assert devices == BuildRequest(mg.spec).value.blockDeviceMapping;
      var reqData := json.marshal(req);
      if reqData.None? {
        return CreateFailed, outcome;
      }
      var reply := UcanSdk.CreateVm(service, reqData.value);
      outcome := reply;
      if !reply.Received? {
        return CreateFailed, outcome;
      }
      if reply.code >= BAD_REQUEST {
        return CreateFailed, outcome;
      }
      var response := json.unmarshal(VirtualMachine, reply.body);
      if response.None? {
        return CreateFailed, outcome;
      }
      mg.SetAnnotations(map[IdKey(VirtualMachine) := response.value.id]);
      r := Created;
    }

    // Update only prints.
    method Update(mg: Resource) returns (ok: bool)
      ensures ok == mg.spec.VmSpec?
    {
      ok := mg.spec.VmSpec?;
    }

    method Delete(mg: Resource) returns (r: DeleteResult, ghost outcome: Outcome)
      modifies service`calls, service.transport
      ensures Deletes(VirtualMachine, service, json, mg, r, outcome)
    {
      outcome := NotSent;
      if !mg.spec.VmSpec? {
        return DeleteFailed, outcome;
      }
      if IdKey(VirtualMachine) !in mg.annotations {
        return Deleted, outcome;
      }
      var reply := UcanSdk.DelVm(service, mg.annotations[IdKey(VirtualMachine)]);
      outcome := reply;
      if !reply.Received? {
        return DeleteFailed, outcome;
      }
      if reply.code != NO_CONTENT {
        return DeleteFailed, outcome;
      }
      r := Deleted;
    }
  }

  // The block devices of a request: one for each of the spec's, in order, with six fields
  // carried over and the others left at their zero values.
  method TranslateBlockDevices(devices: seq<BlockDevice>) returns (out: seq<ServerBlockDevice>)
    ensures |out| == |devices|
    ensures forall i :: 0 <= i < |devices| ==>
              && out[i].bootIndex == devices[i].bootIndex
              && out[i].sourceType == devices[i].sourceType
              && out[i].destinationType == devices[i].destinationType
              && out[i].volumeSize == devices[i].volumeSize
              && out[i].volumeType == devices[i].volumeType
              && out[i].deleteOnTermination == devices[i].deleteOnTermination
              && out[i].uuid == "" && out[i].deviceName == ""
    ensures forall i :: 0 <= i < |devices| ==> out[i] == ToServerBlockDevice(devices[i])
  {
    out := [];
    for i := 0 to |devices|
      invariant |out| == i
      invariant forall k :: 0 <= k < i ==> out[k] == ToServerBlockDevice(devices[k])
    {
      var v := devices[i];
      out := out + [ServerBlockDevice(
                      bootIndex := v.bootIndex,
                      deleteOnTermination := v.deleteOnTermination,
                      sourceType := v.sourceType,
                      destinationType := v.destinationType,
                      volumeSize := v.volumeSize,
                      volumeType := v.volumeType,
                      deviceName := "", deviceType := "", diskBus := "", guestFormat := "",
                      noDevice := false, uuid := "", tag := "")];
    }
  }
}
