// Managed custom resources, and what every controller promises about its four calls.
module Managed {
  import opened Wrappers
  import opened Urls
  import opened Api
  import opened Lifecycle
  import opened HttpClient

  class Resource {
    var spec: Spec
    var annotations: map<string, string>
    var status: string  // Status.AtProvider.Status
    var ready: bool     // the Ready condition

    constructor (spec: Spec, annotations: map<string, string>)
      ensures Value() == Cr(spec, annotations, "", false)
    {
      this.spec, this.annotations := spec, annotations;
      status, ready := "", false;
    }

    ghost function Value(): Cr
      reads this
    {
      Cr(spec, annotations, status, ready)
    }

    method SetAnnotations(annotations: map<string, string>)
      modifies this`annotations
      ensures this.annotations == annotations
    {
      this.annotations := annotations;
    }

    // SetConditions(Available())
    method SetAvailable()
      modifies this`ready
      ensures ready
    {
      ready := true;
    }
  }

  // What the outcome of a client call tells the controller of a kind.
  function Interpret(json: Json, kind: Kind, outcome: Outcome): (answer: Answer)
    ensures answer.Unsent? <==> outcome.NotSent?
    ensures answer.Answered? <==> outcome.Received?
    ensures answer.Answered? ==> answer.code == outcome.code && (Decoded(answer) <==> Decodes(json, kind, outcome))
  {
    match outcome
    case NotSent => Unsent
    case SendFailed => Broken
    case Received(code, body) => Answered(code, json.unmarshal(kind, body))
  }

  predicate Decodes(json: Json, kind: Kind, outcome: Outcome) {
    outcome.Received? && json.unmarshal(kind, outcome.body).Some?
  }

  // A resource of another kind is refused before anything happens. A resource without an id is
  // absent without asking. Otherwise exactly its own address is asked for.
  twostate predicate Observes(kind: Kind, service: Client, json: Json, mg: Resource, r: ObserveResult, outcome: Outcome)
    reads service, service.transport, mg
  {
    if mg.spec.Kind() != kind then
      r == ObserveFailed && mg.Value() == old(mg.Value()) && service.Silent()
    else match Address(old(mg.Value()))
      case None =>
        && (mg.Value(), r) == ObserveEffect(old(mg.Value()), Unsent)
        && service.Silent()
      case Some(url) =>
        && (mg.Value(), r) == ObserveEffect(old(mg.Value()), Interpret(json, kind, outcome))
        && (r.Observation? <==> Decodes(json, kind, outcome) && (outcome.code < 400 || outcome.code == 404))
        && (r.Observation? ==> r.found == (outcome.code < 400))
        && service.Requested("GET", url, None, outcome)
  }

  // Create posts the translated spec to its collection, unless there is nothing to post.
  twostate predicate Creates(kind: Kind, service: Client, json: Json, mg: Resource, r: CreateResult, outcome: Outcome)
    reads service, service.transport, mg
  {
    if mg.spec.Kind() != kind then
      r == CreateFailed && mg.Value() == old(mg.Value()) && service.Silent()
    else
      var request := BuildRequest(mg.spec);
      if request.None? || json.marshal(request.value).None? then
        && (mg.Value(), r) == CreateEffect(old(mg.Value()), Unsent)
        && service.Silent()
      else
        && (mg.Value(), r) == CreateEffect(old(mg.Value()), Interpret(json, kind, outcome))
        && (r.Created? <==> Decodes(json, kind, outcome) && outcome.code < 400)
        && service.Requested("POST", CollectionUrl(kind, mg.spec.Scope()), json.marshal(request.value), outcome)
  }

  twostate predicate Deletes(kind: Kind, service: Client, json: Json, mg: Resource, r: DeleteResult, outcome: Outcome)
    reads service, service.transport, mg
  {
    if mg.spec.Kind() != kind then
      r == DeleteFailed && service.Silent()
    else match Address(mg.Value())
      case None =>
        r == (if kind.Floatingip? then DeleteFailed else Deleted) && service.Silent()
      case Some(url) =>
        && r == DeleteEffect(mg.Value(), Interpret(json, kind, outcome))
        && (r.Deleted? <==> outcome.Received? && outcome.code == 204)
        && service.Requested("DELETE", url, None, outcome)
  }
}
