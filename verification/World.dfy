// Any number of custom resources, the remote services, and every interleaving of the two.
//
// A reconcile of one resource is two steps: Observe, and then the Create, Update or Delete that
// the observation calls for. Between them anything may happen to other resources and to the
// remote services. An event carries all that is not determined by the controllers: what was
// answered, and what the services did with the request, whatever they answered.
module World {
  import opened Wrappers
  import opened Urls
  import opened Api
  import opened Lifecycle

  type Uid = nat

  // What a resource's worker does next. The spec is the one read when the reconcile started.
  datatype Phase =
    | Idle
    | ToCreate(read: Spec)
    | ToUpdate(read: Spec)
    | ToDelete(read: Spec)
    | Finalized  // the finalizer is gone, and the resource with it

  datatype Tracked = Tracked(cr: Cr, deleting: bool, phase: Phase)

  // A deleted remote resource may linger before it disappears.
  datatype Life = Serving | Lingering(left: nat)

  // Where a remote resource comes from: somebody else, or the logged Create at an index.
  datatype Origin = Elsewhere | Made(entry: nat)

  datatype Live = Live(
    origin: Origin,
    kind: Kind,
    scope: string,
    id: string,
    config: CreateRequest,
    status: string,
    life: Life)

  // History: every Create whose POST took effect, acknowledged when it returned no error, and
  // every observation that found a recorded id gone.
  datatype Entry =
    | Posted(uid: Uid, kind: Kind, scope: string, id: string, config: CreateRequest, acknowledged: bool)
    | Gone(uid: Uid, id: string)

  datatype State = State(
    crs: map<Uid, Tracked>,
    remote: map<string, Live>,  // by item address
    issued: set<(Kind, string)>,
    log: seq<Entry>)

  const EMPTY := State(map[], map[], {}, [])

  // What a service does with a DELETE.
  datatype Removal = Kept | Removed | Marked(left: nat)

  datatype Event =
    // users
    | Submit(uid: Uid, spec: Spec, annotations: map<string, string>)
    | EditSpec(uid: Uid, spec: Spec)
    | Annotate(uid: Uid, annotations: map<string, string>)
    | RequestDeletion(uid: Uid)
    // controllers
    | Observe(uid: Uid, answer: Answer)
    | Create(uid: Uid, answer: Answer, effect: Option<string>, status: string)
    | Update(uid: Uid)
    | Delete(uid: Uid, answer: Answer, removal: Removal)
    // services
    | Appear(kind: Kind, scope: string, id: string, config: CreateRequest, status: string)
    | ChangeStatus(url: string, status: string)
    | Age(url: string)
    | Vanish(url: string)

  // A service issues an id once per kind, and ids are single path segments.
  predicate Issuable(s: State, kind: Kind, id: string) {
    (kind, id) !in s.issued && NoSlash(id)
  }

  // When an event can happen.
  // - Users neither invent nor edit the id annotation, and a spec keeps its kind.
  // - A POST takes effect only if it was sent, and a reply that Create accepts carries the id
  //   that was issued.
  predicate Enabled(s: State, e: Event) {
    match e
    case Submit(uid, spec, annotations) =>
      uid !in s.crs && IdIn(spec.Kind(), annotations).None?
    case EditSpec(uid, spec) =>
      uid in s.crs && spec.Kind() == s.crs[uid].cr.spec.Kind()
    case Annotate(uid, annotations) =>
      uid in s.crs && IdIn(s.crs[uid].cr.spec.Kind(), annotations) == s.crs[uid].cr.Id()
    case RequestDeletion(uid) =>
      uid in s.crs
    case Observe(uid, _) =>
      uid in s.crs && s.crs[uid].phase.Idle?
    case Create(uid, answer, effect, _) =>
      && uid in s.crs && s.crs[uid].phase.ToCreate?
      && var read := s.crs[uid].phase.read;
      && (effect.Some? ==>
            BuildRequest(read).Some? && !answer.Unsent? && Issuable(s, read.Kind(), effect.value))
      && (Accepts(answer) && BuildRequest(read).Some? ==> effect == Some(answer.body.value.id))
    case Update(uid) =>
      uid in s.crs && s.crs[uid].phase.ToUpdate?
    case Delete(uid, answer, removal) =>
      uid in s.crs && s.crs[uid].phase.ToDelete? && (answer.Unsent? ==> removal.Kept?)
    case Appear(kind, scope, id, _, _) =>
      Issuable(s, kind, id) && ProperScope(kind, scope)
    case ChangeStatus(url, _) => url in s.remote
    case Age(url) => url in s.remote && s.remote[url].life.Lingering?
    case Vanish(url) => url in s.remote
  }

  // The documented reconcile: a resource being deleted is deleted while it exists and finalized
  // when it does not; any other is created while it does not exist and updated when it is stale.
  function NextPhase(t: Tracked, r: ObserveResult): Phase {
    if r.ObserveFailed? then Idle
    else if t.deleting then if r.found then ToDelete(t.cr.spec) else Finalized
    else if !r.found then ToCreate(t.cr.spec)
    else if !r.upToDate then ToUpdate(t.cr.spec)
    else Idle
  }

  function ObserveStep(s: State, uid: Uid, answer: Answer): State
    requires uid in s.crs
  {
    var t := s.crs[uid];
    var (cr, r) := ObserveEffect(t.cr, answer);
    var gone := if r.Observation? && !r.found && t.cr.Id().Some? then [Gone(uid, t.cr.Id().value)] else [];
    s.(crs := s.crs[uid := t.(cr := cr, phase := NextPhase(t, r))], log := s.log + gone)
  }

  // The POST goes to the collection of the spec read, and what it makes is below that collection.
  function CreateStep(s: State, uid: Uid, answer: Answer, effect: Option<string>, status: string): State
    requires uid in s.crs && s.crs[uid].phase.ToCreate?
    requires effect.Some? ==> BuildRequest(s.crs[uid].phase.read).Some?
  {
    var t := s.crs[uid];
    var read := t.phase.read;
    var (cr, r) := CreateEffect(t.cr.(spec := read), answer);
    var s1 := s.(crs := s.crs[uid := t.(cr := cr.(spec := t.cr.spec), phase := Idle)]);
    if effect.None? then s1
    else
      var kind, scope, id, config := read.Kind(), read.Scope(), effect.value, BuildRequest(read).value;
      s1.(
        remote := s.remote[ItemUrl(kind, scope, id) := Live(Made(|s.log|), kind, scope, id, config, status, Serving)],
        issued := s.issued + {(kind, id)},
        log := s.log + [Posted(uid, kind, scope, id, config, r.Created?)])
  }

  // The address a Delete is sent to, if it sends anything.
  function DeleteTarget(t: Tracked): Option<string>
    requires t.phase.ToDelete?
  {
    Address(t.cr.(spec := t.phase.read))
  }

  function DeleteStep(s: State, uid: Uid, answer: Answer, removal: Removal): State
    requires uid in s.crs && s.crs[uid].phase.ToDelete?
  {
    var t := s.crs[uid];
    var s1 := s.(crs := s.crs[uid := t.(phase := Idle)]);
    var target := DeleteTarget(t);
    if target.None? || target.value !in s.remote then s1
    else
      match removal
      case Kept => s1
      case Removed => s1.(remote := s.remote - {target.value})
      case Marked(left) => s1.(remote := s.remote[target.value := s.remote[target.value].(life := Lingering(left))])
  }

  function AgeStep(s: State, url: string): State
    requires url in s.remote && s.remote[url].life.Lingering?
  {
    var l := s.remote[url];
    if l.life.left == 0 then s.(remote := s.remote - {url})
    else s.(remote := s.remote[url := l.(life := Lingering(l.life.left - 1))])
  }

  // An event that is not enabled does not happen.
  function Step(s: State, e: Event): State {
    if !Enabled(s, e) then s else
      match e
      case Submit(uid, spec, annotations) =>
        s.(crs := s.crs[uid := Tracked(Cr(spec, annotations, "", false), false, Idle)])
      case EditSpec(uid, spec) =>
        s.(crs := s.crs[uid := s.crs[uid].(cr := s.crs[uid].cr.(spec := spec))])
      case Annotate(uid, annotations) =>
        s.(crs := s.crs[uid := s.crs[uid].(cr := s.crs[uid].cr.(annotations := annotations))])
      case RequestDeletion(uid) =>
        s.(crs := s.crs[uid := s.crs[uid].(deleting := true)])
      case Observe(uid, answer) => ObserveStep(s, uid, answer)
      case Create(uid, answer, effect, status) => CreateStep(s, uid, answer, effect, status)
      case Update(uid) =>
        s.(crs := s.crs[uid := s.crs[uid].(phase := Idle)])
      case Delete(uid, answer, removal) => DeleteStep(s, uid, answer, removal)
      case Appear(kind, scope, id, config, status) =>
        s.(remote := s.remote[ItemUrl(kind, scope, id) := Live(Elsewhere, kind, scope, id, config, status, Serving)],
           issued := s.issued + {(kind, id)})
      case ChangeStatus(url, status) =>
        s.(remote := s.remote[url := s.remote[url].(status := status)])
      case Age(url) => AgeStep(s, url)
      case Vanish(url) =>
        s.(remote := s.remote - {url})
  }

  function After(s: State, events: seq<Event>): State
    decreases |events|
  {
    if events == [] then s else After(Step(s, events[0]), events[1..])
  }

  // The state after a whole run.
  function Run(events: seq<Event>): State {
    After(EMPTY, events)
  }

  lemma {:induction false} AfterConcat(s: State, before: seq<Event>, after: seq<Event>)
    ensures After(s, before + after) == After(After(s, before), after)
    decreases |before|
  {
    if before == [] {
      assert before + after == after;
    } else {
      assert (before + after)[1..] == before[1..] + after;
      AfterConcat(Step(s, before[0]), before[1..], after);
    }
  }
}
