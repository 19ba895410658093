// The volume controller. Volumes are addressed within the project of their spec.
module VolumeController {
  import opened Urls
  import opened Api
  import opened Lifecycle
  import opened HttpClient
  import opened Managed
  import UcanSdk

  class External {
    const service: Client
    const json: Json

    constructor (service: Client, json: Json)
      ensures this.service == service && this.json == json
    {
      this.service, this.json := service, json;
    }

    method Observe(mg: Resource) returns (r: ObserveResult, ghost outcome: Outcome)
      modifies mg`status, mg`ready, service`calls, service.transport
      ensures Observes(Volume, service, json, mg, r, outcome)
    {
      outcome := NotSent;
      if !mg.spec.VolumeSpec? {
        return ObserveFailed, outcome;
      }
      if IdKey(Volume) !in mg.annotations {
        return Observation(false, false), outcome;
      }
      var uuid := mg.annotations[IdKey(Volume)];
      var reply := UcanSdk.GetVolume(service, mg.spec.volume.projectId, uuid);
      outcome := reply;
      if !reply.Received? {
        return ObserveFailed, outcome;
      }
      if reply.code >= BAD_REQUEST && reply.code != NOT_FOUND {
        return ObserveFailed, outcome;
      }
      var resourceExists := reply.code != NOT_FOUND;
      var response := json.unmarshal(Volume, reply.body);
      if response.None? {
        return ObserveFailed, outcome;
      }
      mg.status := response.value.status;
      if resourceExists && response.value.status == "available" {
        mg.SetAvailable();
      }
      r := Observation(resourceExists, true);
    }

    method Create(mg: Resource) returns (r: CreateResult, ghost outcome: Outcome)
      modifies mg`annotations, service`calls, service.transport
      ensures Creates(Volume, service, json, mg, r, outcome)
    {
      outcome := NotSent;
      if !mg.spec.VolumeSpec? {
        return CreateFailed, outcome;
      }
      var p := mg.spec.volume;
      var hints := Elements(p.schedulerHints);
      if |hints| == 0 {
        return CreatePanicked, outcome;  // index out of range
      }
      var req := Api.CreateVolume(p.size, p.description, p.multiattach, p.name, p.volumeType, p.cellId, hints[0].sameHost);
      var reqData := json.marshal(req);
      if reqData.None? {
        return CreateFailed, outcome;
      }
      var reply := UcanSdk.CreateVolume(service, reqData.value, p.projectId);
      outcome := reply;
      if !reply.Received? {
        return CreateFailed, outcome;
      }
      if reply.code >= BAD_REQUEST {
        return CreateFailed, outcome;
      }
      var response := json.unmarshal(Volume, reply.body);
      if response.None? {
        return CreateFailed, outcome;
      }
      mg.SetAnnotations(map[IdKey(Volume) := response.value.id]);
      r := Created;
    }

    // Update only prints.
    method Update(mg: Resource) returns (ok: bool)
      ensures ok == mg.spec.VolumeSpec?
    {
      ok := mg.spec.VolumeSpec?;
    }

    method Delete(mg: Resource) returns (r: DeleteResult, ghost outcome: Outcome)
      modifies service`calls, service.transport
      ensures Deletes(Volume, service, json, mg, r, outcome)
    {
      outcome := NotSent;
      if !mg.spec.VolumeSpec? {
        return DeleteFailed, outcome;
      }
      if IdKey(Volume) !in mg.annotations {
        return Deleted, outcome;
      }
      var reply := UcanSdk.DelVolume(service, mg.spec.volume.projectId, mg.annotations[IdKey(Volume)]);
      outcome := reply;
      if !reply.Received? {
        return DeleteFailed, outcome;
      }
      if reply.code != NO_CONTENT {
        return DeleteFailed, outcome;
      }
      r := Deleted;
    }
  }
}
