// The SDK: one formatted address and one client call per operation.
module UcanSdk {
  import opened Wrappers
  import opened Urls
  import opened Api
  import opened HttpClient

  method GetVm(client: Client, vmId: string) returns (outcome: Outcome)
    modifies client`calls, client.transport
    ensures client.Requested("GET", ItemUrl(VirtualMachine, "", vmId), None, outcome)
  {
    outcome := client.Get(VmItemUrl(vmId), None);
  }

  method DelVm(client: Client, vmId: string) returns (outcome: Outcome)
    modifies client`calls, client.transport
    ensures client.Requested("DELETE", ItemUrl(VirtualMachine, "", vmId), None, outcome)
  {
    outcome := client.Delete(VmItemUrl(vmId), None);
  }

  method CreateVm(client: Client, req: Bytes) returns (outcome: Outcome)
    modifies client`calls, client.transport
    ensures client.Requested("POST", CollectionUrl(VirtualMachine, ""), Some(req), outcome)
  {
    outcome := client.Post(VmCollectionUrl(), Some(req));
  }

  method GetVolume(client: Client, projectId: string, volumeId: string) returns (outcome: Outcome)
    modifies client`calls, client.transport
    ensures client.Requested("GET", ItemUrl(Volume, projectId, volumeId), None, outcome)
  {
    outcome := client.Get(VolumeItemUrl(projectId, volumeId), None);
  }

  method DelVolume(client: Client, projectId: string, volumeId: string) returns (outcome: Outcome)
    modifies client`calls, client.transport
    ensures client.Requested("DELETE", ItemUrl(Volume, projectId, volumeId), None, outcome)
  {
    outcome := client.Delete(VolumeItemUrl(projectId, volumeId), None);
  }

  method CreateVolume(client: Client, req: Bytes, projectId: string) returns (outcome: Outcome)
    modifies client`calls, client.transport
    ensures client.Requested("POST", CollectionUrl(Volume, projectId), Some(req), outcome)
  {
    outcome := client.Post(VolumeCollectionUrl(projectId), Some(req));
  }

  method GetEip(client: Client, eipId: string) returns (outcome: Outcome)
    modifies client`calls, client.transport
    ensures client.Requested("GET", ItemUrl(Floatingip, "", eipId), None, outcome)
  {
    outcome := client.Get(EipItemUrl(eipId), None);
  }

  method DelEip(client: Client, eipId: string) returns (outcome: Outcome)
    modifies client`calls, client.transport
    ensures client.Requested("DELETE", ItemUrl(Floatingip, "", eipId), None, outcome)
  {
    outcome := client.Delete(EipItemUrl(eipId), None);
  }

  method CreateEip(client: Client, req: Bytes) returns (outcome: Outcome)
    modifies client`calls, client.transport
    ensures client.Requested("POST", CollectionUrl(Floatingip, ""), Some(req), outcome)
  {
    outcome := client.Post(EipCollectionUrl(), Some(req));
  }
}
