// The floating IP controller. Each request names the resource's own project in a header of the
// client, which outlives the request.
module FloatingipController {
  import opened Wrappers
  import opened Urls
  import opened Api
  import opened Lifecycle
  import opened HttpClient
  import opened Managed
  import UcanSdk

  const NAMESPACE := "X-UCAN-NS"

  class External {
    const service: Client
    const json: Json

    // The client that newUcanClient returns holds one header, which is another one.
    constructor (service: Client, json: Json)
      requires service.header.Keys == {"Content-Type"}
      requires service.library.canonical("Content-Type") != service.library.canonical(NAMESPACE)
      requires service.library.canonical(NAMESPACE) !in service.library.signed
      ensures this.service == service && this.json == json
      ensures NamespaceAlone()
    {
      this.service, this.json := service, json;
    }

    // No other key of the client denotes the namespace header, and the signer does not write it.
    ghost predicate NamespaceAlone()
      reads service`header
    {
      && service.library.canonical(NAMESPACE) !in service.library.signed
      && forall k :: k in service.header && service.library.canonical(k) == service.library.canonical(NAMESPACE) ==>
           k == NAMESPACE
    }

    // The client names this project.
    predicate Names(project: string)
      reads service`header
    {
      NAMESPACE in service.header && service.header[NAMESPACE] == project
    }

    method Observe(mg: Resource) returns (r: ObserveResult, ghost outcome: Outcome)
      requires NamespaceAlone()
      modifies mg`status, mg`ready, service`calls, service`header, service.transport
      ensures Observes(Floatingip, service, json, mg, r, outcome)
      ensures NamespaceAlone()
      ensures mg.spec.EipSpec? ==> service.Silent() || Names(mg.spec.eip.projectId)
    {
      outcome := NotSent;
      if !mg.spec.EipSpec? {
        return ObserveFailed, outcome;
      }
      if IdKey(Floatingip) !in mg.annotations {
        return Observation(false, false), outcome;
      }
      var uuid := mg.annotations[IdKey(Floatingip)];
      service.SetHeader(NAMESPACE, mg.spec.eip.projectId);
      var reply := UcanSdk.GetEip(service, uuid);
      outcome := reply;
      if !reply.Received? {
        return ObserveFailed, outcome;
      }
      if reply.code >= BAD_REQUEST && reply.code != NOT_FOUND {
        return ObserveFailed, outcome;
      }
      var response := json.unmarshal(Floatingip, reply.body);
      if response.None? {
        return ObserveFailed, outcome;
      }
      var resourceExists := reply.code != NOT_FOUND;
      mg.status := response.value.status;
      if resourceExists && response.value.status == "running" {
        mg.SetAvailable();
      }
      r := Observation(resourceExists, true);
    }

    method Create(mg: Resource) returns (r: CreateResult, ghost outcome: Outcome)
      requires NamespaceAlone()
      modifies mg`annotations, service`calls, service`header, service.transport
      ensures Creates(Floatingip, service, json, mg, r, outcome)
      ensures NamespaceAlone()
      ensures mg.spec.EipSpec? ==> service.Silent() || Names(mg.spec.eip.projectId)
    {
      outcome := NotSent;
      if !mg.spec.EipSpec? {
        return CreateFailed, outcome;
      }
      var p := mg.spec.eip;
      var req := Api.CreateEip(p.name, p.projectId, p.cellId, p.floatingNetworkId, p.isp, p.bandwidth, p.description, p.routeId);
      var reqData := json.marshal(req);
      if reqData.None? {
        return CreateFailed, outcome;
      }
      service.SetHeader(NAMESPACE, p.projectId);
      var reply := UcanSdk.CreateEip(service, reqData.value);
      outcome := reply;
      if !reply.Received? {
        return CreateFailed, outcome;
      }
      if reply.code >= BAD_REQUEST {
        return CreateFailed, outcome;
      }
      var response := json.unmarshal(Floatingip, reply.body);
      if response.None? {
        return CreateFailed, outcome;
      }
      mg.SetAnnotations(map[IdKey(Floatingip) := response.value.id]);
      r := Created;
    }

    // Update only prints.
    method Update(mg: Resource) returns (ok: bool)
      ensures ok == mg.spec.EipSpec?
    {
      ok := mg.spec.EipSpec?;
    }

    method Delete(mg: Resource) returns (r: DeleteResult, ghost outcome: Outcome)
      requires NamespaceAlone()
      modifies service`calls, service`header, service.transport
      ensures Deletes(Floatingip, service, json, mg, r, outcome)
      ensures NamespaceAlone()
      ensures mg.spec.EipSpec? ==> service.Silent() || Names(mg.spec.eip.projectId)
    {
      outcome := NotSent;
      if !mg.spec.EipSpec? {
        return DeleteFailed, outcome;
      }
      if IdKey(Floatingip) !in mg.annotations {
        return DeleteFailed, outcome;
      }
      var uuid := mg.annotations[IdKey(Floatingip)];
      service.SetHeader(NAMESPACE, mg.spec.eip.projectId);
      var reply := UcanSdk.DelEip(service, uuid);
      outcome := reply;
      if !reply.Received? {
        return DeleteFailed, outcome;
      }
      if reply.code != NO_CONTENT {
        return DeleteFailed, outcome;
      }
      r := Deleted;
    }

    // A request of a client whose namespace key stands alone carries that key's value.
    lemma NamespaceCarried(wire: Wire, verb: string, url: string, data: Option<Bytes>)
      requires service.Carries(wire, verb, url, data)
      requires NamespaceAlone() && NAMESPACE in service.header
      ensures HasNamespace(service.library.canonical, wire, service.header[NAMESPACE])
    {
      var canonical := service.library.canonical;
      var order :| RangeOrder(order, service.header)
        && AgreeOff(service.library.signed, wire.header, SetInOrder(canonical, service.header, order));
      SetInOrderEntries(canonical, service.header, order);
      assert NAMESPACE in order;
    }
  }

  predicate HasNamespace(canonical: string -> string, wire: Wire, project: string) {
    canonical("X-UCAN-NS") in wire.header && wire.header[canonical("X-UCAN-NS")] == project
  }

  /******* Serving *******/

  datatype Action = DoObserve | DoCreate | DoDelete | Edit(eip: EipParameters)
  datatype Operation = Operation(action: Action, mg: Resource)

  // What an operation makes of its resource, given what it learns from the service.
  function Effect(v: Cr, action: Action, answer: Answer): Cr {
    match action
    case DoObserve => ObserveEffect(v, answer).0
    case DoCreate => CreateEffect(v, answer).0
    case DoDelete => v
    case Edit(eip) => v.(spec := EipSpec(eip))
  }

  // What an operation on a resource of this value asks the service for.
  datatype Ask = Ask(verb: string, url: string, data: Option<Bytes>)

  function Asks(json: Json, v: Cr, action: Action): Option<Ask> {
    match action
    case DoObserve => if Address(v).Some? then Some(Ask("GET", Address(v).value, None)) else None
    case DoCreate =>
      if BuildRequest(v.spec).Some? && json.marshal(BuildRequest(v.spec).value).Some?
      then Some(Ask("POST", CollectionUrl(Floatingip, ""), json.marshal(BuildRequest(v.spec).value)))
      else None
    case DoDelete => if Address(v).Some? then Some(Ask("DELETE", Address(v).value, None)) else None
    case Edit(_) => None
  }

  // One line per operation: the value its resource had, what left, and what came of it.
  datatype Served = Served(value: Cr, wire: Option<Wire>, outcome: Outcome)

  // A request left exactly if one is asked for and leads to one, and then it is that one and names
  // the project the resource had.
  ghost predicate Right(external: External, action: Action, line: Served)
    reads external.service`query
  {
    var ask := Asks(external.json, line.value, action);
    && line.value.spec.EipSpec?
    && (line.wire.Some? <==> ask.Some? && external.service.Leaves(ask.value.verb, ask.value.url))
    && (line.wire.Some? <==> !line.outcome.NotSent?)
    && (line.wire.Some? ==>
          && external.service.IsFor(line.wire.value, ask.value.verb, ask.value.url, ask.value.data)
          && HasNamespace(external.service.library.canonical, line.wire.value, line.value.spec.eip.projectId))
  }

  function Wires(journal: seq<Served>): seq<Wire> {
    if journal == [] then []
    else
      var last := journal[|journal| - 1];
      Wires(journal[..|journal| - 1]) + if last.wire.Some? then [last.wire.value] else []
  }

  function Outcomes(journal: seq<Served>): seq<Outcome> {
    if journal == [] then []
    else
      var last := journal[|journal| - 1];
      Outcomes(journal[..|journal| - 1]) + if last.wire.Some? then [last.outcome] else []
  }

  // The value of a resource after the operations of the journal, given its first one.
  function ValueAfter(json: Json, operations: seq<Operation>, journal: seq<Served>, mg: Resource, first: Cr): Cr
    requires |journal| <= |operations|
  {
    if journal == [] then first
    else
      var n := |journal| - 1;
      var v := ValueAfter(json, operations, journal[..n], mg, first);
      if operations[n].mg == mg then Effect(v, operations[n].action, Interpret(json, Floatingip, journal[n].outcome)) else v
  }

  // One operation, and its line.
  twostate predicate Performs(external: External, action: Action, mg: Resource, line: Served)
    reads mg, external.service, external.service.transport
  {
    var service := external.service;
    && external.NamespaceAlone() && Right(external, action, line) && line.value == old(mg.Value())
    && mg.Value() == Effect(line.value, action, Interpret(external.json, Floatingip, line.outcome))
    && service.transport.sent == old(service.transport.sent) + (if line.wire.Some? then [line.wire.value] else [])
    && service.transport.replied == old(service.transport.replied) + (if line.wire.Some? then [line.outcome] else [])
  }

  method PerformObserve(external: External, mg: Resource) returns (ghost line: Served)
    requires external.NamespaceAlone() && mg.spec.EipSpec?
    modifies mg, external.service`calls, external.service`header, external.service.transport
    ensures Performs(external, DoObserve, mg, line)
  {
    ghost var v, before := mg.Value(), |external.service.transport.sent|;
    var _, outcome := external.Observe(mg);
    line := Served(v, None, NotSent);
    if Address(v).Some? && !outcome.NotSent? {
      ghost var wire := external.service.transport.sent[before];
      external.NamespaceCarried(wire, "GET", Address(v).value, None);
      line := Served(v, Some(wire), outcome);
    }
  }

  method PerformCreate(external: External, mg: Resource) returns (ghost line: Served)
    requires external.NamespaceAlone() && mg.spec.EipSpec?
    modifies mg, external.service`calls, external.service`header, external.service.transport
    ensures Performs(external, DoCreate, mg, line)
  {
    ghost var v, before := mg.Value(), |external.service.transport.sent|;
    ghost var data := external.json.marshal(BuildRequest(v.spec).value);
    var _, outcome := external.Create(mg);
    line := Served(v, None, NotSent);
    if data.Some? && !outcome.NotSent? {
      ghost var wire := external.service.transport.sent[before];
      external.NamespaceCarried(wire, "POST", CollectionUrl(Floatingip, ""), data);
      line := Served(v, Some(wire), outcome);
    }
  }

  method PerformDelete(external: External, mg: Resource) returns (ghost line: Served)
    requires external.NamespaceAlone() && mg.spec.EipSpec?
    modifies mg, external.service`calls, external.service`header, external.service.transport
    ensures Performs(external, DoDelete, mg, line)
  {
    ghost var v, before := mg.Value(), |external.service.transport.sent|;
    var _, outcome := external.Delete(mg);
    line := Served(v, None, NotSent);
    if Address(v).Some? && !outcome.NotSent? {
      ghost var wire := external.service.transport.sent[before];
      external.NamespaceCarried(wire, "DELETE", Address(v).value, None);
      line := Served(v, Some(wire), outcome);
    }
  }

  method Perform(external: External, operation: Operation) returns (ghost line: Served)
    requires external.NamespaceAlone() && operation.mg.spec.EipSpec?
    modifies operation.mg, external.service`calls, external.service`header, external.service.transport
    ensures Performs(external, operation.action, operation.mg, line)
  {
    match operation.action
    case DoObserve =>
      line := PerformObserve(external, operation.mg);
    case DoCreate =>
      line := PerformCreate(external, operation.mg);
    case DoDelete =>
      line := PerformDelete(external, operation.mg);
    case Edit(eip) =>
      line := Served(operation.mg.Value(), None, NotSent);
      operation.mg.spec := EipSpec(eip);
  }

  // Every resource has the value that the journal gives it.
  ghost predicate Current(json: Json, operations: seq<Operation>, journal: seq<Served>, firsts: seq<Cr>)
    requires |journal| <= |operations| == |firsts|
    reads set o | o in operations :: o.mg
  {
    forall i :: 0 <= i < |operations| ==>
      && operations[i].mg.spec.EipSpec?
      && operations[i].mg.Value() == ValueAfter(json, operations, journal, operations[i].mg, firsts[i])
  }

  // A line is right for the value that the lines before give its resource.
  ghost predicate Continues(external: External, operations: seq<Operation>, journal: seq<Served>, line: Served,
                            firsts: seq<Cr>)
    requires |journal| < |operations| == |firsts|
    reads external.service`query
  {
    var n := |journal|;
    && Right(external, operations[n].action, line)
    && line.value == ValueAfter(external.json, operations, journal, operations[n].mg, firsts[n])
  }

  ghost predicate Kept(external: External, operations: seq<Operation>, journal: seq<Served>, firsts: seq<Cr>)
    requires |journal| <= |operations| == |firsts|
    reads external.service`query
  {
    forall n :: 0 <= n < |journal| ==> Continues(external, operations, journal[..n], journal[n], firsts)
  }

  // Any sequence of operations on any floating IPs through one client, with any edits of their
  // specs in between. Each operation works on the value that its resource then has, sends the one
  // request that the value asks for, with the project that the value names, whenever a request can
  // leave, and makes of the value what the reply calls for; nothing else is sent.
  method Serve(external: External, operations: seq<Operation>, ghost firsts: seq<Cr>) returns (ghost journal: seq<Served>)
    requires external.NamespaceAlone()
    requires |firsts| == |operations|
    requires forall i :: 0 <= i < |operations| ==>
               operations[i].mg.spec.EipSpec? && operations[i].mg.Value() == firsts[i]
    modifies set o | o in operations :: o.mg
    modifies external.service`calls, external.service`header, external.service.transport
    ensures |journal| == |operations|
    ensures Kept(external, operations, journal, firsts) && Current(external.json, operations, journal, firsts)
    ensures external.service.transport.sent == old(external.service.transport.sent) + Wires(journal)
    ensures external.service.transport.replied == old(external.service.transport.replied) + Outcomes(journal)
  {
    ghost var earlier, replied := external.service.transport.sent, external.service.transport.replied;
    journal := [];
    for n := 0 to |operations|
      invariant external.NamespaceAlone() && |journal| == n
      invariant Kept(external, operations, journal, firsts) && Current(external.json, operations, journal, firsts)
      invariant external.service.transport.sent == earlier + Wires(journal)
      invariant external.service.transport.replied == replied + Outcomes(journal)
    {
      assert operations[n] in operations;
      journal := ServeOne(external, operations, n, firsts, journal, earlier, replied);
    }
  }

  // One more operation.
  method ServeOne(external: External, operations: seq<Operation>, n: nat, ghost firsts: seq<Cr>,
                  ghost journal: seq<Served>, ghost earlier: seq<Wire>, ghost replied: seq<Outcome>)
    returns (ghost journal': seq<Served>)
    requires external.NamespaceAlone() && n == |journal| < |operations| == |firsts|
    requires Kept(external, operations, journal, firsts) && Current(external.json, operations, journal, firsts)
    requires external.service.transport.sent == earlier + Wires(journal)
    requires external.service.transport.replied == replied + Outcomes(journal)
    modifies operations[n].mg, external.service`calls, external.service`header, external.service.transport
    ensures external.NamespaceAlone() && |journal'| == n + 1
    ensures Kept(external, operations, journal', firsts) && Current(external.json, operations, journal', firsts)
    ensures external.service.transport.sent == earlier + Wires(journal')
    ensures external.service.transport.replied == replied + Outcomes(journal')
  {
    ghost var line := PerformNext(external, operations, n, firsts, journal);
    journal' := journal + [line];
    JournalMore(external.json, operations, journal, line, firsts);
    KeptMore(external, operations, journal, line, firsts);
    Regroup(earlier, Wires(journal), if line.wire.Some? then [line.wire.value] else []);
    Regroup(replied, Outcomes(journal), if line.wire.Some? then [line.outcome] else []);
  }

  method PerformNext(external: External, operations: seq<Operation>, n: nat, ghost firsts: seq<Cr>,
                     ghost journal: seq<Served>)
    returns (ghost line: Served)
    requires external.NamespaceAlone() && n == |journal| < |operations| == |firsts|
    requires Current(external.json, operations, journal, firsts)
    modifies operations[n].mg, external.service`calls, external.service`header, external.service.transport
    ensures Performs(external, operations[n].action, operations[n].mg, line)
    ensures Continues(external, operations, journal, line, firsts)
    ensures Current(external.json, operations, journal + [line], firsts)
  {
    line := Perform(external, operations[n]);
    JournalMore(external.json, operations, journal, line, firsts);
  }

  lemma Regroup<T>(a: seq<T>, b: seq<T>, c: seq<T>)
    ensures a + b + c == a + (b + c)
  {
  }

  lemma JournalMore(json: Json, operations: seq<Operation>, journal: seq<Served>, line: Served, firsts: seq<Cr>)
    requires |journal| < |operations| == |firsts|
    ensures Wires(journal + [line]) == Wires(journal) + if line.wire.Some? then [line.wire.value] else []
    ensures Outcomes(journal + [line]) == Outcomes(journal) + if line.wire.Some? then [line.outcome] else []
    ensures forall i :: 0 <= i < |operations| ==>
              ValueAfter(json, operations, journal + [line], operations[i].mg, firsts[i]) ==
              var v := ValueAfter(json, operations, journal, operations[i].mg, firsts[i]);
              if operations[|journal|].mg == operations[i].mg
              then Effect(v, operations[|journal|].action, Interpret(json, Floatingip, line.outcome)) else v
  {
    assert (journal + [line])[..|journal|] == journal;
  }

  lemma KeptMore(external: External, operations: seq<Operation>, journal: seq<Served>, line: Served, firsts: seq<Cr>)
    requires |journal| < |operations| == |firsts| && Kept(external, operations, journal, firsts)
    requires Continues(external, operations, journal, line, firsts)
    ensures Kept(external, operations, journal + [line], firsts)
  {
    var journal' := journal + [line];
    forall n | 0 <= n < |journal'| ensures Continues(external, operations, journal'[..n], journal'[n], firsts) {
      assert journal'[..n] == journal[..n];
      assert journal[..|journal|] == journal;
    }
  }
}
