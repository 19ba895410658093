// Whole-run guarantees: conservation of remote resources, isolation between custom resources, and
// configurations that never change.
module Guarantees {
  import opened Wrappers
  import opened Urls
  import opened Api
  import opened Lifecycle
  import opened World
  import opened Conservation

  // A condition on every event of a run, in the state it meets.
  predicate Always(p: (State, Event) -> bool, s: State, events: seq<Event>)
    decreases |events|
  {
    events == [] || (p(s, events[0]) && Always(p, Step(s, events[0]), events[1..]))
  }

  /******* Conservation *******/

  // In every run, each live resource that some Create made has one entry in the log. Its owner
  // holds it only if that Create was acknowledged; otherwise it was not, or its owner found it gone.
  lemma MadeIsLogged(events: seq<Event>, url: string)
    requires url in Run(events).remote && Run(events).remote[url].origin.Made?
    ensures var s := Run(events);
            var i := s.remote[url].origin.entry;
            && i < |s.log| && s.log[i].Posted?
            && url == ItemUrl(s.log[i].kind, s.log[i].scope, s.log[i].id)
            && (forall j :: 0 <= j < |s.log| && Posts(s.log[j], s.log[i].kind, s.log[i].id) ==> j == i)
            && (Holds(s, s.log[i].uid, s.log[i].id) ==> s.log[i].acknowledged)
            && (s.log[i].acknowledged && !Holds(s, s.log[i].uid, s.log[i].id) ==>
                  ReportedGone(s.log, s.log[i].uid, s.log[i].id))
  {
    Reachable(events);
    var s := Run(events);
    assert LiveOk(s, url, s.remote[url]);
    var i := s.remote[url].origin.entry;
    if Holds(s, s.log[i].uid, s.log[i].id) {
      HeldWasAcknowledged(s, i);
    }
  }

  predicate Posts(entry: Entry, kind: Kind, id: string) {
    entry.Posted? && entry.kind == kind && entry.id == id
  }

  // A held id was acknowledged, by the one creation of that id.
  lemma HeldWasAcknowledged(s: State, i: nat)
    requires Inv(s) && i < |s.log| && s.log[i].Posted? && Holds(s, s.log[i].uid, s.log[i].id)
    ensures s.log[i].acknowledged
  {
    var uid, id := s.log[i].uid, s.log[i].id;
    assert TrackedOk(s, uid, s.crs[uid]);
    var j :| 0 <= j < |s.log| && s.log[j].Posted? && s.log[j].uid == uid && s.log[j].id == id && s.log[j].acknowledged;
    assert i == j;
  }

  // In every run a recorded id is replaced only after an observation found it gone, and is
  // never dropped.
  lemma RebindOnlyAfterGone(events: seq<Event>, e: Event, uid: Uid, id: string)
    requires Holds(Run(events), uid, id)
    ensures var s' := Step(Run(events), e);
            && uid in s'.crs && s'.crs[uid].cr.Id().Some?
            && (Holds(s', uid, id) || ReportedGone(Run(events).log, uid, id))
  {
    Reachable(events);
    RebindStep(Run(events), e, uid, id);
  }

  lemma RebindStep(s: State, e: Event, uid: Uid, id: string)
    requires Holds(s, uid, id) && TrackedOk(s, uid, s.crs[uid])
    ensures var s' := Step(s, e);
            && uid in s'.crs && s'.crs[uid].cr.Id().Some?
            && (Holds(s', uid, id) || ReportedGone(s.log, uid, id))
  {
    if !(e.Create? && e.uid == uid && Enabled(s, e)) {
      IdIsKept(s, e, uid);
    }
  }

  lemma IdIsKept(s: State, e: Event, uid: Uid)
    requires uid in s.crs && !(e.Create? && e.uid == uid && Enabled(s, e))
    ensures uid in Step(s, e).crs && Step(s, e).crs[uid].cr.Id() == s.crs[uid].cr.Id()
  {
  }

  /******* Faithful services and settled specs *******/

  // The services do not deny a resource that is there.
  predicate Honest(s: State, e: Event) {
    e.Observe? && Enabled(s, e) ==>
      var cr := s.crs[e.uid].cr;
      var r := ObserveEffect(cr, e.answer).1;
      Address(cr).Some? && r.Observation? && !r.found ==> Address(cr).value !in s.remote
  }

  // The project of a volume stays what it is. The other kinds are addressed by id alone.
  predicate Settled(s: State, e: Event) {
    e.EditSpec? && Enabled(s, e) ==> e.spec.Scope() == s.crs[e.uid].cr.spec.Scope()
  }

  predicate HonestAndSettled(s: State, e: Event) {
    Honest(s, e) && Settled(s, e)
  }

  // No POST takes effect without its Create being told.
  predicate NothingLost(s: State, e: Event) {
    e.Create? && Enabled(s, e) && e.effect.Some? ==> Accepts(e.answer)
  }

  predicate NoHarm(s: State, e: Event) {
    HonestAndSettled(s, e) && NothingLost(s, e)
  }

  predicate Read(t: Tracked, read: Spec) {
    t.phase == ToCreate(read) || t.phase == ToDelete(read)
  }

  // Held ids are where their resource's spec says they are.
  ghost predicate InScope(s: State) {
    && (forall i :: 0 <= i < |s.log| && s.log[i].Posted? && Holds(s, s.log[i].uid, s.log[i].id) ==>
          s.log[i].scope == s.crs[s.log[i].uid].cr.spec.Scope())
    && (forall uid, read :: uid in s.crs && Read(s.crs[uid], read) ==> read.Scope() == s.crs[uid].cr.spec.Scope())
  }

  predicate Is(l: Live, kind: Kind, id: string) {
    l.kind == kind && l.id == id
  }

  // What was found gone is gone for good.
  ghost predicate GoneStaysGone(s: State) {
    forall i, url :: 0 <= i < |s.log| && s.log[i].Gone? && url in s.remote ==>
      s.log[i].uid in s.crs && !Is(s.remote[url], s.crs[s.log[i].uid].cr.spec.Kind(), s.log[i].id)
  }

  ghost predicate FaithfulInv(s: State) {
    Inv(s) && InScope(s) && GoneStaysGone(s)
  }

  // An item of a held id can only be at the address its resource's spec gives.
  lemma HeldItemIsAtItsAddress(s: State, uid: Uid, url: string)
    requires Inv(s) && InScope(s) && uid in s.crs && s.crs[uid].cr.Id().Some? && url in s.remote
    requires Is(s.remote[url], s.crs[uid].cr.spec.Kind(), s.crs[uid].cr.Id().value)
    ensures Some(url) == Address(s.crs[uid].cr)
    ensures s.remote[url].origin.Made? && s.log[s.remote[url].origin.entry].uid == uid
  {
    var id, l := s.crs[uid].cr.Id().value, s.remote[url];
    assert TrackedOk(s, uid, s.crs[uid]) && LiveOk(s, url, l);
    var j :| 0 <= j < |s.log| && s.log[j].Posted? && s.log[j].uid == uid && s.log[j].id == id && s.log[j].acknowledged;
    assert Holds(s, s.log[j].uid, s.log[j].id);
    assert l.origin.Made?;
    assert l.origin.entry == j;
  }

  // Nothing is logged, ids and scopes stay, and remote resources are old ones or newly issued.
  ghost predicate Undisturbed(s: State, s': State) {
    && s'.log == s.log
    && (forall uid :: uid in s.crs ==>
          && uid in s'.crs && s'.crs[uid].cr.Id() == s.crs[uid].cr.Id()
          && s'.crs[uid].cr.spec.Kind() == s.crs[uid].cr.spec.Kind()
          && s'.crs[uid].cr.spec.Scope() == s.crs[uid].cr.spec.Scope())
    && (forall uid, read :: uid in s'.crs && Read(s'.crs[uid], read) ==> uid in s.crs && Read(s.crs[uid], read))
    && (forall url :: url in s'.remote ==>
          || (s'.remote[url].kind, s'.remote[url].id) !in s.issued
          || (url in s.remote && Is(s.remote[url], s'.remote[url].kind, s'.remote[url].id)))
  }

  lemma UndisturbedKeeps(s: State, s': State)
    requires FaithfulInv(s) && Undisturbed(s, s')
    ensures InScope(s') && GoneStaysGone(s')
  {
    forall i, url | 0 <= i < |s'.log| && s'.log[i].Gone? && url in s'.remote
      ensures !Is(s'.remote[url], s'.crs[s'.log[i].uid].cr.spec.Kind(), s'.log[i].id)
    {
      assert s.log[i].uid in s.crs;
      assert (s.crs[s.log[i].uid].cr.spec.Kind(), s.log[i].id) in s.issued;
    }
  }

  lemma CrUndisturbed(s: State, uid: Uid, t: Tracked)
    requires uid in s.crs ==>
               && t.cr.Id() == s.crs[uid].cr.Id() && t.cr.spec.Kind() == s.crs[uid].cr.spec.Kind()
               && t.cr.spec.Scope() == s.crs[uid].cr.spec.Scope()
    requires t.phase.Idle? || (uid in s.crs && t.phase == s.crs[uid].phase)
    ensures Undisturbed(s, s.(crs := s.crs[uid := t]))
  {
  }

  lemma DeleteUndisturbed(s: State, uid: Uid, answer: Answer, removal: Removal)
    requires Enabled(s, Delete(uid, answer, removal))
    ensures Undisturbed(s, DeleteStep(s, uid, answer, removal))
  {
    var s1 := s.(crs := s.crs[uid := s.crs[uid].(phase := Idle)]);
    CrUndisturbed(s, uid, s.crs[uid].(phase := Idle));
    var s' := DeleteStep(s, uid, answer, removal);
    assert s' == s1.(remote := s'.remote);
  }

  lemma SettledStepIsUndisturbed(s: State, e: Event)
    requires Enabled(s, e) && Settled(s, e) && !e.Observe? && !e.Create?
    ensures Undisturbed(s, Step(s, e))
  {
    match e
    case Submit(uid, spec, annotations) =>
      CrUndisturbed(s, uid, Tracked(Cr(spec, annotations, "", false), false, Idle));
    case EditSpec(uid, spec) =>
      CrUndisturbed(s, uid, s.crs[uid].(cr := s.crs[uid].cr.(spec := spec)));
    case Annotate(uid, annotations) =>
      CrUndisturbed(s, uid, s.crs[uid].(cr := s.crs[uid].cr.(annotations := annotations)));
    case RequestDeletion(uid) =>
      CrUndisturbed(s, uid, s.crs[uid].(deleting := true));
    case Update(uid) =>
      CrUndisturbed(s, uid, s.crs[uid].(phase := Idle));
    case Delete(uid, answer, removal) =>
      DeleteUndisturbed(s, uid, answer, removal);
    case _ =>
  }

  lemma FaithfulStepKeeps(s: State, e: Event)
    requires FaithfulInv(s) && HonestAndSettled(s, e)
    ensures FaithfulInv(Step(s, e))
  {
    StepKeeps(s, e);
    if Enabled(s, e) {
      if e.Observe? {
        FaithfulObserve(s, e.uid, e.answer);
      } else if e.Create? {
        FaithfulCreate(s, e.uid, e.answer, e.effect, e.status);
      } else {
        SettledStepIsUndisturbed(s, e);
        UndisturbedKeeps(s, Step(s, e));
      }
    }
  }

  lemma FaithfulObserve(s: State, uid: Uid, answer: Answer)
    requires FaithfulInv(s) && Enabled(s, Observe(uid, answer)) && Honest(s, Observe(uid, answer))
    ensures InScope(ObserveStep(s, uid, answer)) && GoneStaysGone(ObserveStep(s, uid, answer))
  {
    var t := s.crs[uid];
    var s' := ObserveStep(s, uid, answer);
    var r := ObserveEffect(t.cr, answer).1;
    if r.Observation? && !r.found && t.cr.Id().Some? {
      GoneIsAbsent(s, uid);
      var s1 := s.(log := s.log + [Gone(uid, t.cr.Id().value)]);
      LookedAt(s1, uid, s'.crs[uid]);
      assert s' == s1.(crs := s1.crs[uid := s'.crs[uid]]);
    } else {
      LookedAt(s, uid, s'.crs[uid]);
      assert s' == s.(crs := s.crs[uid := s'.crs[uid]]);
    }
  }

  // Logging an id as gone, when there is nothing at its address.
  lemma GoneIsAbsent(s: State, uid: Uid)
    requires FaithfulInv(s) && uid in s.crs && s.crs[uid].cr.Id().Some?
    requires Address(s.crs[uid].cr).value !in s.remote
    ensures var s' := s.(log := s.log + [Gone(uid, s.crs[uid].cr.Id().value)]);
            InScope(s') && GoneStaysGone(s')
  {
    var cr := s.crs[uid].cr;
    forall url | url in s.remote ensures !Is(s.remote[url], cr.spec.Kind(), cr.Id().value) {
      if Is(s.remote[url], cr.spec.Kind(), cr.Id().value) {
        HeldItemIsAtItsAddress(s, uid, url);
      }
    }
  }

  // An observation leaves spec and id as they are, and a worker reads the current spec.
  lemma LookedAt(s: State, uid: Uid, t: Tracked)
    requires InScope(s) && GoneStaysGone(s) && uid in s.crs
    requires t.cr.spec == s.crs[uid].cr.spec && t.cr.Id() == s.crs[uid].cr.Id()
    requires forall read :: Read(t, read) ==> read == t.cr.spec
    ensures InScope(s.(crs := s.crs[uid := t])) && GoneStaysGone(s.(crs := s.crs[uid := t]))
  {
  }

  lemma FaithfulCreate(s: State, uid: Uid, answer: Answer, effect: Option<string>, status: string)
    requires FaithfulInv(s) && Enabled(s, Create(uid, answer, effect, status))
    ensures InScope(CreateStep(s, uid, answer, effect, status))
    ensures GoneStaysGone(CreateStep(s, uid, answer, effect, status))
  {
    var t := s.crs[uid];
    assert Read(t, t.phase.read) && TrackedOk(s, uid, t);
    var s1 := s.(crs := s.crs[uid := t.(phase := Idle)]);
    CrUndisturbed(s, uid, t.(phase := Idle));
    UndisturbedKeeps(s, s1);
    if effect.Some? {
      CreateIsPost(s, uid, answer, effect.value, status);
      PostInScope(s1, uid, t.phase.read, effect.value, status, Accepts(answer));
      PostLeavesGone(s1, uid, t.phase.read, effect.value, status, Accepts(answer));
    }
  }

  lemma PostInScope(s: State, uid: Uid, read: Spec, id: string, status: string, acknowledged: bool)
    requires LogOk(s) && InScope(s) && uid in s.crs && BuildRequest(read).Some?
    requires read.Kind() == s.crs[uid].cr.spec.Kind() && read.Scope() == s.crs[uid].cr.spec.Scope()
    requires Issuable(s, read.Kind(), id)
    ensures InScope(Post(s, uid, read, id, status, acknowledged))
  {
  }

  lemma PostLeavesGone(s: State, uid: Uid, read: Spec, id: string, status: string, acknowledged: bool)
    requires LogOk(s) && GoneStaysGone(s) && uid in s.crs && BuildRequest(read).Some?
    requires Issuable(s, read.Kind(), id)
    ensures GoneStaysGone(Post(s, uid, read, id, status, acknowledged))
  {
  }

  lemma {:induction false} FaithfulAfter(s: State, events: seq<Event>)
    requires FaithfulInv(s) && Always(HonestAndSettled, s, events)
    ensures FaithfulInv(After(s, events))
    decreases |events|
  {
    if events != [] {
      FaithfulStepKeeps(s, events[0]);
      FaithfulAfter(Step(s, events[0]), events[1..]);
    }
  }

  // Where services are honest and specs settled, a live made resource is held by its owner exactly
  // when its Create was acknowledged: the only orphans are of Creates that returned an error.
  lemma LiveIsHeldIff(s: State, url: string)
    requires FaithfulInv(s) && url in s.remote && s.remote[url].origin.Made?
    ensures var i := s.remote[url].origin.entry;
            i < |s.log| && s.log[i].Posted? && (Holds(s, s.log[i].uid, s.log[i].id) <==> s.log[i].acknowledged)
  {
    var l := s.remote[url];
    assert LiveOk(s, url, l);
    var e := s.log[l.origin.entry];
    if Holds(s, e.uid, e.id) {
      HeldWasAcknowledged(s, l.origin.entry);
    }
    assert Is(l, s.crs[e.uid].cr.spec.Kind(), e.id);
    assert !ReportedGone(s.log, e.uid, e.id);
  }

  // So it is in every run with honest services and settled specs.
  lemma LiveIsHeldIffAcknowledged(events: seq<Event>, url: string)
    requires Always(HonestAndSettled, EMPTY, events)
    requires url in Run(events).remote && Run(events).remote[url].origin.Made?
    ensures var s := Run(events);
            var i := s.remote[url].origin.entry;
            i < |s.log| && s.log[i].Posted? && (Holds(s, s.log[i].uid, s.log[i].id) <==> s.log[i].acknowledged)
  {
    FaithfulAfter(EMPTY, events);
    LiveIsHeldIff(Run(events), url);
  }

  /******* Isolation *******/

  // In every run two custom resources of one kind never hold the same id.
  lemma IdsAreNotShared(events: seq<Event>, uid: Uid, uid': Uid, id: string)
    requires Holds(Run(events), uid, id) && Holds(Run(events), uid', id)
    requires Run(events).crs[uid].cr.spec.Kind() == Run(events).crs[uid'].cr.spec.Kind()
    ensures uid == uid'
  {
    Reachable(events);
    var s := Run(events);
    assert TrackedOk(s, uid, s.crs[uid]) && TrackedOk(s, uid', s.crs[uid']);
    var i :| 0 <= i < |s.log| && s.log[i].Posted? && s.log[i].uid == uid && s.log[i].id == id && s.log[i].acknowledged;
    var j :| 0 <= j < |s.log| && s.log[j].Posted? && s.log[j].uid == uid' && s.log[j].id == id && s.log[j].acknowledged;
    assert i == j;
  }

  // The event is a step of the worker of this resource.
  predicate WorkOf(e: Event, uid: Uid) {
    (e.Observe? || e.Create? || e.Update? || e.Delete?) && e.uid == uid
  }

  // In every run, a step for one resource touches no other custom resource, and no remote
  // resource except those its own Creates made.
  lemma WorkIsIsolated(events: seq<Event>, e: Event, uid: Uid)
    requires WorkOf(e, uid)
    ensures Isolated(Run(events), Step(Run(events), e), uid)
  {
    Reachable(events);
    IsolatedStep(Run(events), e, uid);
  }

  predicate OwnedBy(s: State, url: string, uid: Uid)
    requires url in s.remote
  {
    var origin := s.remote[url].origin;
    origin.Made? && origin.entry < |s.log| && s.log[origin.entry].uid == uid
  }

  ghost predicate Isolated(s: State, s': State, uid: Uid) {
    && (forall u :: u in s.crs && u != uid ==> u in s'.crs && s'.crs[u] == s.crs[u])
    && (forall url :: url in s.remote && !OwnedBy(s, url, uid) ==> url in s'.remote && s'.remote[url] == s.remote[url])
  }

  lemma IsolatedStep(s: State, e: Event, uid: Uid)
    requires Inv(s) && WorkOf(e, uid)
    ensures Isolated(s, Step(s, e), uid)
  {
    if Enabled(s, e) {
      if e.Create? {
        IsolatedCreate(s, e);
      } else if e.Delete? {
        IsolatedDelete(s, e);
      }
    }
  }

  lemma IsolatedCreate(s: State, e: Event)
    requires RemoteOk(s) && e.Create? && Enabled(s, e)
    ensures Isolated(s, Step(s, e), e.uid)
  {
    forall url | url in s.remote {
      CreateKeepsRemote(s, e, url);
    }
  }

  lemma DeleteTouchesItsTarget(s: State, e: Event)
    requires e.Delete? && Enabled(s, e)
    ensures forall u :: u in s.crs && u != e.uid ==> u in Step(s, e).crs && Step(s, e).crs[u] == s.crs[u]
    ensures forall url :: url in s.remote && DeleteTarget(s.crs[e.uid]) != Some(url) ==>
              url in Step(s, e).remote && Step(s, e).remote[url] == s.remote[url]
  {
  }

  lemma IsolatedDelete(s: State, e: Event)
    requires Inv(s) && e.Delete? && Enabled(s, e)
    ensures Isolated(s, Step(s, e), e.uid)
  {
    DeleteTouchesItsTarget(s, e);
    var target := DeleteTarget(s.crs[e.uid]);
    if target.Some? && target.value in s.remote {
      DeleteTargetsItsOwn(s, e.uid);
    }
  }

  // A Delete that reaches anything reaches a resource that the same custom resource made.
  lemma DeleteTargetsItsOwn(s: State, uid: Uid)
    requires Inv(s) && uid in s.crs && s.crs[uid].phase.ToDelete?
    requires DeleteTarget(s.crs[uid]).Some? && DeleteTarget(s.crs[uid]).value in s.remote
    ensures OwnedBy(s, DeleteTarget(s.crs[uid]).value, uid)
  {
    var t := s.crs[uid];
    assert TrackedOk(s, uid, t);
    var id, url := t.cr.Id().value, DeleteTarget(t).value;
    var l := s.remote[url];
    assert LiveOk(s, url, l);
    var j :| 0 <= j < |s.log| && s.log[j].Posted? && s.log[j].uid == uid && s.log[j].id == id && s.log[j].acknowledged;
    ItemUrlInjective(l.kind, l.scope, l.id, t.phase.read.Kind(), t.phase.read.Scope(), id);
    assert l.kind == s.log[j].kind && l.id == s.log[j].id;
  }

  /******* Configurations *******/

  // In every run no Update happens.
  lemma NeverUpdated(events: seq<Event>, uid: Uid)
    ensures !Enabled(Run(events), Update(uid))
  {
    Reachable(events);
    if uid in Run(events).crs {
      assert TrackedOk(Run(events), uid, Run(events).crs[uid]);
    }
  }

  // No step ever changes the configuration of a resource that stays.
  lemma ConfigurationIsKept(events: seq<Event>, e: Event, url: string)
    requires url in Run(events).remote && url in Step(Run(events), e).remote
    ensures Step(Run(events), e).remote[url].config == Run(events).remote[url].config
    ensures Step(Run(events), e).remote[url].origin == Run(events).remote[url].origin
  {
    Reachable(events);
    StepKeepsConfiguration(Run(events), e, url);
  }

  lemma StepKeepsConfiguration(s: State, e: Event, url: string)
    requires RemoteOk(s) && url in s.remote && url in Step(s, e).remote
    ensures Step(s, e).remote[url].config == s.remote[url].config
    ensures Step(s, e).remote[url].origin == s.remote[url].origin
  {
    if Enabled(s, e) {
      if e.Create? {
        CreateKeepsRemote(s, e, url);
      } else if e.Appear? {
        FreshUrl(s, e.kind, e.scope, e.id);
      } else {
        OtherStepKeepsConfiguration(s, e, url);
      }
    }
  }

  lemma OtherStepKeepsConfiguration(s: State, e: Event, url: string)
    requires Enabled(s, e) && !e.Create? && !e.Appear? && url in s.remote && url in Step(s, e).remote
    ensures Step(s, e).remote[url].config == s.remote[url].config
    ensures Step(s, e).remote[url].origin == s.remote[url].origin
  {
  }

  lemma CreateKeepsRemote(s: State, e: Event, url: string)
    requires RemoteOk(s) && e.Create? && Enabled(s, e) && url in s.remote
    ensures url in Step(s, e).remote && Step(s, e).remote[url] == s.remote[url]
  {
    if e.effect.Some? {
      var read := s.crs[e.uid].phase.read;
      FreshUrl(s, read.Kind(), read.Scope(), e.effect.value);
    }
  }

  // The missing-id branch of Delete, where the controllers differ, is never taken.
  lemma DeleteAlwaysHasId(events: seq<Event>, uid: Uid)
    requires uid in Run(events).crs && Run(events).crs[uid].phase.ToDelete?
    ensures Run(events).crs[uid].cr.Id().Some? && Run(events).crs[uid].deleting
    ensures DeleteTarget(Run(events).crs[uid]).Some?
  {
    Reachable(events);
    assert TrackedOk(Run(events), uid, Run(events).crs[uid]);
  }
}
