// The addresses that the UCAN SDK formats for its three services.
module Urls {
  datatype Kind = VirtualMachine | Volume | Floatingip

  const CLUSTER := "-apiserver.ucan-system.svc.cluster.local:8088"
  const VM_HOST := "http://zed-virtualmachine" + CLUSTER
  const VOLUME_HOST := "http://zed-volume" + CLUSTER
  const EIP_HOST := "http://zed-network" + CLUSTER

  function VmCollectionUrl(): string { VM_HOST + "/v3/servers" }

  function VmItemUrl(id: string): string { VM_HOST + "/v3/servers/" + id }

  function VolumeCollectionUrl(projectId: string): string {
    VOLUME_HOST + "/v3/" + projectId + "/volumes"
  }

  function VolumeItemUrl(projectId: string, id: string): string {
    VOLUME_HOST + "/v3/" + projectId + "/volumes/" + id
  }

  function EipCollectionUrl(): string { EIP_HOST + "/v3/floatingips" }

  function EipItemUrl(id: string): string { EIP_HOST + "/v3/floatingips/" + id }

  // The one address of each kind. Only volumes look at the scope, which is their project id.
  function ItemUrl(kind: Kind, scope: string, id: string): string {
    match kind
    case VirtualMachine => VmItemUrl(id)
    case Volume => VolumeItemUrl(scope, id)
    case Floatingip => EipItemUrl(id)
  }

  function CollectionUrl(kind: Kind, scope: string): string {
    match kind
    case VirtualMachine => VmCollectionUrl()
    case Volume => VolumeCollectionUrl(scope)
    case Floatingip => EipCollectionUrl()
  }

  // The scopes that occur: a project id for volumes, nothing for the other kinds.
  predicate ProperScope(kind: Kind, scope: string) {
    kind.Volume? || scope == ""
  }

  predicate NoSlash(s: string) {
    '/' !in s
  }

  // Every address as text, each an item's below its collection.
  lemma AddressText(projectId: string, id: string)
    ensures CollectionUrl(VirtualMachine, "") ==
            "http://zed-virtualmachine" + "-apiserver.ucan-system.svc.cluster.local:8088" + "/v3/servers"
    ensures CollectionUrl(Volume, projectId) ==
            "http://zed-volume" + "-apiserver.ucan-system.svc.cluster.local:8088" + "/v3/" + projectId + "/volumes"
    ensures CollectionUrl(Floatingip, "") ==
            "http://zed-network" + "-apiserver.ucan-system.svc.cluster.local:8088" + "/v3/floatingips"
    ensures ItemUrl(VirtualMachine, "", id) == CollectionUrl(VirtualMachine, "") + "/" + id
    ensures ItemUrl(Volume, projectId, id) == CollectionUrl(Volume, projectId) + "/" + id
    ensures ItemUrl(Floatingip, "", id) == CollectionUrl(Floatingip, "") + "/" + id
  {
    TrailingSlash();
    Regroup(VM_HOST, "/v3/servers", "/");
    Regroup(VOLUME_HOST + "/v3/" + projectId, "/volumes", "/");
    Regroup(EIP_HOST, "/v3/floatingips", "/");
  }

  lemma TrailingSlash()
    ensures "/v3/servers" + "/" == "/v3/servers/"
    ensures "/volumes" + "/" == "/volumes/"
    ensures "/v3/floatingips" + "/" == "/v3/floatingips/"
  {
  }

  lemma Regroup(a: string, b: string, c: string)
    ensures a + (b + c) == a + b + c
  {
  }

  lemma CancelPrefix(p: string, s: string, t: string)
    requires p + s == p + t
    ensures s == t
  {
    assert (p + s)[|p|..] == s;
    assert (p + t)[|p|..] == t;
  }

  lemma CancelSuffix(p: string, s: string, t: string)
    requires s + p == t + p
    ensures s == t
  {
    assert |s + p| == |t + p|;
    assert (s + p)[..|s|] == s;
    assert (t + p)[..|t|] == t;
  }

  // Text up to the first slash is determined by the whole.
  lemma FirstSegment(a: string, s: string, b: string, t: string)
    requires NoSlash(a) && NoSlash(b)
    requires a + "/" + s == b + "/" + t
    ensures a == b && s == t
  {
    var x, y := a + "/" + s, b + "/" + t;
    assert x[|a|] == '/' && y[|b|] == '/';
    assert |a| == |b|;
    assert a == x[..|a|] && b == y[..|b|];
    assert s == x[|a| + 1..] && t == y[|b| + 1..];
  }

  // Text after the last slash is determined by the whole.
  lemma LastSegment(s: string, a: string, t: string, b: string)
    requires NoSlash(a) && NoSlash(b)
    requires s + "/" + a == t + "/" + b
    ensures a == b && s == t
  {
    var x, y := s + "/" + a, t + "/" + b;
    assert x[|s|] == '/' && y[|t|] == '/';
    assert |s| == |t|;
    assert s == x[..|s|] && t == y[..|t|];
    assert a == x[|s| + 1..] && b == y[|t| + 1..];
  }

  // Two volumes share an address only if they are the same volume of the same project, provided
  // either both project ids or both volume ids are single path segments.
  lemma VolumeUrlInjective(project: string, id: string, project': string, id': string)
    requires (NoSlash(project) && NoSlash(project')) || (NoSlash(id) && NoSlash(id'))
    ensures VolumeItemUrl(project, id) == VolumeItemUrl(project', id') <==> project == project' && id == id'
  {
    if VolumeItemUrl(project, id) == VolumeItemUrl(project', id') {
      var head := VOLUME_HOST + "/v3/";
      assert VolumeItemUrl(project, id) == head + (project + "/volumes/" + id);
      assert VolumeItemUrl(project', id') == head + (project' + "/volumes/" + id');
      CancelPrefix(head, project + "/volumes/" + id, project' + "/volumes/" + id');
      if NoSlash(project) && NoSlash(project') {
        assert "/volumes/" == "/" + "volumes/";
        assert project + "/volumes/" + id == project + "/" + ("volumes/" + id);
        assert project' + "/volumes/" + id' == project' + "/" + ("volumes/" + id');
        FirstSegment(project, "volumes/" + id, project', "volumes/" + id');
        CancelPrefix("volumes/", id, id');
      } else {
        assert "/volumes/" == "/volumes" + "/";
        assert project + "/volumes/" + id == (project + "/volumes") + "/" + id;
        assert project' + "/volumes/" + id' == (project' + "/volumes") + "/" + id';
        LastSegment(project + "/volumes", id, project' + "/volumes", id');
        CancelSuffix("/volumes", project, project');
      }
    }
  }

  // Without that proviso two different volumes can share an address.
  lemma VolumeUrlAmbiguous()
    ensures VolumeItemUrl("a", "x/volumes/b") == VolumeItemUrl("a/volumes/x", "b")
  {
    assert "a" + "/volumes/" + "x/volumes/b" == "a/volumes/x" + "/volumes/" + "b";
    VolumeUrlPath("a", "x/volumes/b");
    VolumeUrlPath("a/volumes/x", "b");
  }

  const VOLUMES := "/volumes/"

  function VolumePath(project: string, id: string): string { project + VOLUMES + id }

  lemma VolumeUrlPath(project: string, id: string)
    ensures VolumeItemUrl(project, id) == VOLUME_HOST + "/v3/" + VolumePath(project, id)
  {
  }

  // The separator stands in the path where the project id ends and nowhere else.
  ghost predicate SeparatedOnce(project: string, id: string) {
    var path := VolumePath(project, id);
    forall k :: SeparatorAt(path, k) ==> k == |project|
  }

  predicate SeparatorAt(path: string, k: int) {
    0 <= k <= |path| - |VOLUMES| && path[k..k + |VOLUMES|] == VOLUMES
  }

  // Exactly when a volume's address belongs to that volume alone.
  lemma VolumeUrlUniqueIff(project: string, id: string)
    ensures SeparatedOnce(project, id) <==>
            forall project', id' :: VolumeItemUrl(project', id') == VolumeItemUrl(project, id) ==>
              project' == project && id' == id
  {
    var path := VolumePath(project, id);
    VolumeUrlPath(project, id);
    if SeparatedOnce(project, id) {
      forall project', id' | VolumeItemUrl(project', id') == VolumeItemUrl(project, id)
        ensures project' == project && id' == id
      {
        VolumeUrlPath(project', id');
        var path' := VolumePath(project', id');
        CancelPrefix(VOLUME_HOST + "/v3/", path', path);
        assert SeparatorAt(path', |project'|);
        assert path'[..|project'|] == project' && path'[|project'| + |VOLUMES|..] == id';
        assert path[..|project|] == project && path[|project| + |VOLUMES|..] == id;
      }
    } else {
      var k :| SeparatorAt(path, k) && k != |project|;
      VolumeUrlPath(path[..k], path[k + |VOLUMES|..]);
      assert VolumePath(path[..k], path[k + |VOLUMES|..]) == path;
      assert VolumeItemUrl(path[..k], path[k + |VOLUMES|..]) == VolumeItemUrl(project, id);
      assert |path[..k]| != |project|;
    }
  }

  // Servers and floating IPs share an address only if their ids are equal, whatever the ids are.
  lemma UnscopedUrlInjective(id: string, id': string)
    ensures VmItemUrl(id) == VmItemUrl(id') <==> id == id'
    ensures EipItemUrl(id) == EipItemUrl(id') <==> id == id'
  {
    if VmItemUrl(id) == VmItemUrl(id') {
      CancelPrefix(VM_HOST + "/v3/servers/", id, id');
    }
    if EipItemUrl(id) == EipItemUrl(id') {
      CancelPrefix(EIP_HOST + "/v3/floatingips/", id, id');
    }
  }

  // The three services live on hosts that no suffix can confuse.
  lemma HostsDiffer(s: string, t: string)
    ensures VM_HOST + s != VOLUME_HOST + t
    ensures VM_HOST + s != EIP_HOST + t
    ensures VOLUME_HOST + s != EIP_HOST + t
  {
    assert |VM_HOST| > 12 && |VOLUME_HOST| > 12 && |EIP_HOST| > 12;
    assert (VM_HOST + s)[12] == VM_HOST[12] == 'i';
    assert (VOLUME_HOST + s)[12] == (VOLUME_HOST + t)[12] == VOLUME_HOST[12] == 'o';
    assert (EIP_HOST + t)[12] == EIP_HOST[12] == 'e';
  }

  // What a GET or DELETE address identifies: the kind, the scope and the id, and nothing else.
  lemma ItemUrlInjective(kind: Kind, scope: string, id: string, kind': Kind, scope': string, id': string)
    requires ProperScope(kind, scope) && ProperScope(kind', scope')
    requires NoSlash(id) && NoSlash(id')
    ensures ItemUrl(kind, scope, id) == ItemUrl(kind', scope', id') <==>
            kind == kind' && scope == scope' && id == id'
  {
    UnscopedUrlInjective(id, id');
    VolumeUrlInjective(scope, id, scope', id');
    var rest := UrlRest(kind, scope, id);
    var rest' := UrlRest(kind', scope', id');
    HostsDiffer(rest, rest');
    HostsDiffer(rest', rest);
  }

  function Host(kind: Kind): string {
    match kind
    case VirtualMachine => VM_HOST
    case Volume => VOLUME_HOST
    case Floatingip => EIP_HOST
  }

  lemma UrlRest(kind: Kind, scope: string, id: string) returns (rest: string)
    ensures ItemUrl(kind, scope, id) == Host(kind) + rest
  {
    match kind
    case VirtualMachine =>
      rest := "/v3/servers/" + id;
    case Volume =>
      rest := "/v3/" + scope + "/volumes/" + id;
      assert VolumeItemUrl(scope, id) == VOLUME_HOST + rest;
    case Floatingip =>
      rest := "/v3/floatingips/" + id;
  }
}
