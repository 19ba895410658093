// What every reachable state keeps: no remote resource is lost track of unaccountably.
module Conservation {
  import opened Wrappers
  import opened Urls
  import opened Api
  import opened Lifecycle
  import opened World

  // The log holds the acknowledged creation of this id for this resource.
  ghost predicate Acknowledged(log: seq<Entry>, uid: Uid, id: string) {
    exists i :: 0 <= i < |log| && log[i].Posted? && log[i].uid == uid && log[i].id == id && log[i].acknowledged
  }

  // Some observation of this resource found this id gone.
  ghost predicate ReportedGone(log: seq<Entry>, uid: Uid, id: string) {
    exists i :: 0 <= i < |log| && log[i] == Gone(uid, id)
  }

  // The resource's annotation names this id.
  predicate Holds(s: State, uid: Uid, id: string) {
    uid in s.crs && s.crs[uid].cr.Id() == Some(id)
  }

  ghost predicate LogOk(s: State) {
    && (forall i :: 0 <= i < |s.log| ==> s.log[i].uid in s.crs)
    && (forall i :: 0 <= i < |s.log| && s.log[i].Posted? ==>
          && s.log[i].kind == s.crs[s.log[i].uid].cr.spec.Kind()
          && NoSlash(s.log[i].id) && ProperScope(s.log[i].kind, s.log[i].scope))
    && (forall i :: 0 <= i < |s.log| ==> (s.crs[s.log[i].uid].cr.spec.Kind(), s.log[i].id) in s.issued)
  }

  // An id is posted once.
  ghost predicate PostedOnce(s: State) {
    forall i, j :: 0 <= i < j < |s.log| && s.log[i].Posted? && s.log[j].Posted? ==>
      s.log[i].kind != s.log[j].kind || s.log[i].id != s.log[j].id
  }

  // A remote resource is where its id says, and carries what its Create requested.
  ghost predicate LiveOk(s: State, url: string, l: Live) {
    && (l.kind, l.id) in s.issued && NoSlash(l.id) && ProperScope(l.kind, l.scope)
    && url == ItemUrl(l.kind, l.scope, l.id)
    && match l.origin
       case Made(i) =>
         && i < |s.log| && s.log[i].Posted?
         && s.log[i].kind == l.kind && s.log[i].scope == l.scope && s.log[i].id == l.id
         && s.log[i].config == l.config
       case Elsewhere =>
         forall i :: 0 <= i < |s.log| && s.log[i].Posted? ==> s.log[i].kind != l.kind || s.log[i].id != l.id
  }

  predicate SameItem(l: Live, l': Live) {
    l.kind == l'.kind && l.id == l'.id
  }

  ghost predicate RemoteOk(s: State) {
    && (forall url :: url in s.remote ==> LiveOk(s, url, s.remote[url]))
    && (forall url, url' :: url in s.remote && url' in s.remote && SameItem(s.remote[url], s.remote[url']) ==>
          url == url')
  }

  // A recorded id was acknowledged to this resource. A worker about to create either has no id
  // or found it gone; one about to delete has an id; no worker is about to update.
  ghost predicate TrackedOk(s: State, uid: Uid, t: Tracked) {
    && (t.cr.Id().Some? ==> Acknowledged(s.log, uid, t.cr.Id().value))
    && match t.phase
       case Idle => true
       case ToCreate(read) =>
         read.Kind() == t.cr.spec.Kind() && (t.cr.Id().Some? ==> ReportedGone(s.log, uid, t.cr.Id().value))
       case ToUpdate(_) => false
       case ToDelete(read) => read.Kind() == t.cr.spec.Kind() && t.cr.Id().Some? && t.deleting
       case Finalized => t.deleting && (t.cr.Id().Some? ==> ReportedGone(s.log, uid, t.cr.Id().value))
  }

  ghost predicate CrsOk(s: State) {
    forall uid :: uid in s.crs ==> TrackedOk(s, uid, s.crs[uid])
  }

  // Every creation is held, was never acknowledged, or was found gone before it was let go.
  ghost predicate Accounted(s: State) {
    forall i :: 0 <= i < |s.log| && s.log[i].Posted? ==>
      || !s.log[i].acknowledged
      || Holds(s, s.log[i].uid, s.log[i].id)
      || ReportedGone(s.log, s.log[i].uid, s.log[i].id)
  }

  ghost predicate Inv(s: State) {
    LogOk(s) && PostedOnce(s) && RemoteOk(s) && CrsOk(s) && Accounted(s)
  }

  /******* What an event logs *******/

  // The event is a Create whose POST took effect.
  predicate TakesEffect(s: State, e: Event) {
    e.Create? && Enabled(s, e) && e.effect.Some?
  }

  // The event is an observation that found the id its resource holds gone.
  predicate Misses(s: State, e: Event, uid: Uid, id: string) {
    e.Observe? && e.uid == uid && Enabled(s, e) && Holds(s, uid, id) && Denies(e.answer)
  }

  // A Create that took effect logs its own entry, an observation that found the id it asked for
  // gone logs that, and nothing else is logged.
  lemma LogStep(s: State, e: Event)
    ensures var log, log' := s.log, Step(s, e).log;
            || log' == log
            || (TakesEffect(s, e)
                && log' == log + [Posted(e.uid, s.crs[e.uid].phase.read.Kind(), s.crs[e.uid].phase.read.Scope(),
                                         e.effect.value, BuildRequest(s.crs[e.uid].phase.read).value, Accepts(e.answer))])
            || (e.Observe? && Enabled(s, e) && s.crs[e.uid].cr.Id().Some?
                && Misses(s, e, e.uid, s.crs[e.uid].cr.Id().value)
                && log' == log + [Gone(e.uid, s.crs[e.uid].cr.Id().value)])
  {
  }

  /******* Preservation *******/

  lemma HistoryGrows(log: seq<Entry>, more: seq<Entry>, uid: Uid, id: string)
    ensures Acknowledged(log, uid, id) ==> Acknowledged(log + more, uid, id)
    ensures ReportedGone(log, uid, id) ==> ReportedGone(log + more, uid, id)
  {
    if Acknowledged(log, uid, id) {
      var i :| 0 <= i < |log| && log[i].Posted? && log[i].uid == uid && log[i].id == id && log[i].acknowledged;
      assert (log + more)[i] == log[i];
    }
    if ReportedGone(log, uid, id) {
      var i :| 0 <= i < |log| && log[i] == Gone(uid, id);
      assert (log + more)[i] == log[i];
    }
  }

  // Changing one resource without changing its kind or id, or its place in a reconcile for the
  // worse, keeps the invariant.
  lemma CrStep(s: State, uid: Uid, t: Tracked)
    requires Inv(s)
    requires TrackedOk(s, uid, t)
    requires uid in s.crs ==> t.cr.spec.Kind() == s.crs[uid].cr.spec.Kind() && t.cr.Id() == s.crs[uid].cr.Id()
    requires uid !in s.crs ==> t.cr.Id().None?
    ensures Inv(s.(crs := s.crs[uid := t]))
  {
  }

  lemma GoneKeepsHistory(s: State, uid: Uid, id: string)
    ensures var log' := s.log + [Gone(uid, id)];
            && (forall u, x :: Acknowledged(s.log, u, x) ==> Acknowledged(log', u, x))
            && (forall u, x :: ReportedGone(s.log, u, x) ==> ReportedGone(log', u, x))
            && ReportedGone(log', uid, id)
  {
    forall u, x ensures Acknowledged(s.log, u, x) ==> Acknowledged(s.log + [Gone(uid, id)], u, x)
                ensures ReportedGone(s.log, u, x) ==> ReportedGone(s.log + [Gone(uid, id)], u, x) {
      HistoryGrows(s.log, [Gone(uid, id)], u, x);
    }
    assert (s.log + [Gone(uid, id)])[|s.log|] == Gone(uid, id);
  }

  lemma GoneKeepsRemote(s: State, uid: Uid, id: string)
    requires RemoteOk(s)
    ensures RemoteOk(s.(log := s.log + [Gone(uid, id)]))
  {
    forall url | url in s.remote ensures LiveOk(s.(log := s.log + [Gone(uid, id)]), url, s.remote[url]) {
      LiveStays(s, s.(log := s.log + [Gone(uid, id)]), url, s.remote[url]);
    }
  }

  lemma GoneStep(s: State, uid: Uid)
    requires Inv(s) && uid in s.crs && s.crs[uid].cr.Id().Some?
    ensures var s' := s.(log := s.log + [Gone(uid, s.crs[uid].cr.Id().value)]);
            Inv(s') && ReportedGone(s'.log, uid, s.crs[uid].cr.Id().value)
  {
    GoneKeepsHistory(s, uid, s.crs[uid].cr.Id().value);
    GoneKeepsRemote(s, uid, s.crs[uid].cr.Id().value);
    assert TrackedOk(s, uid, s.crs[uid]);
  }

  lemma ObserveKeeps(s: State, uid: Uid, answer: Answer)
    requires Inv(s) && Enabled(s, Observe(uid, answer))
    ensures Inv(ObserveStep(s, uid, answer))
  {
    var t := s.crs[uid];
    var (cr, r) := ObserveEffect(t.cr, answer);
    var t' := t.(cr := cr, phase := NextPhase(t, r));
    if r.Observation? && !r.found && t.cr.Id().Some? {
      GoneStep(s, uid);
      var s1 := s.(log := s.log + [Gone(uid, t.cr.Id().value)]);
      assert TrackedOk(s1, uid, s1.crs[uid]);
      CrStep(s1, uid, t');
    } else {
      CrStep(s, uid, t');
      assert s.log + [] == s.log;
    }
  }

  // A POST took effect for a resource, which is bound to the new id if it was acknowledged.
  function Post(s: State, uid: Uid, read: Spec, id: string, status: string, acknowledged: bool): State
    requires uid in s.crs && BuildRequest(read).Some?
  {
    var kind, scope, config := read.Kind(), read.Scope(), BuildRequest(read).value;
    var t := s.crs[uid];
    s.(
      crs := if acknowledged then s.crs[uid := t.(cr := t.cr.(annotations := Bind(kind, id)))] else s.crs,
      remote := s.remote[ItemUrl(kind, scope, id) := Live(Made(|s.log|), kind, scope, id, config, status, Serving)],
      issued := s.issued + {(kind, id)},
      log := s.log + [Posted(uid, kind, scope, id, config, acknowledged)])
  }

  ghost predicate Postable(s: State, uid: Uid, read: Spec, id: string, acknowledged: bool) {
    && Inv(s) && uid in s.crs && s.crs[uid].phase.Idle?
    && read.Kind() == s.crs[uid].cr.spec.Kind() && BuildRequest(read).Some?
    && Issuable(s, read.Kind(), id)
    && (acknowledged && s.crs[uid].cr.Id().Some? ==> ReportedGone(s.log, uid, s.crs[uid].cr.Id().value))
  }

  lemma PostKeepsHistory(s: State, uid: Uid, read: Spec, id: string, status: string, acknowledged: bool)
    requires Postable(s, uid, read, id, acknowledged)
    ensures var s' := Post(s, uid, read, id, status, acknowledged);
            && (forall u, x :: Acknowledged(s.log, u, x) ==> Acknowledged(s'.log, u, x))
            && (forall u, x :: ReportedGone(s.log, u, x) ==> ReportedGone(s'.log, u, x))
            && LogOk(s') && PostedOnce(s')
  {
    var s' := Post(s, uid, read, id, status, acknowledged);
    forall u, x ensures Acknowledged(s.log, u, x) ==> Acknowledged(s'.log, u, x)
                ensures ReportedGone(s.log, u, x) ==> ReportedGone(s'.log, u, x) {
      HistoryGrows(s.log, [s'.log[|s.log|]], u, x);
    }
  }

  lemma FreshUrl(s: State, kind: Kind, scope: string, id: string)
    requires RemoteOk(s) && Issuable(s, kind, id) && ProperScope(kind, scope)
    ensures ItemUrl(kind, scope, id) !in s.remote
  {
    var url := ItemUrl(kind, scope, id);
    if url in s.remote {
      var l := s.remote[url];
      assert LiveOk(s, url, l);
      ItemUrlInjective(l.kind, l.scope, l.id, kind, scope, id);
    }
  }

  // A resource stays accounted for as the log and the issued ids grow.
  lemma LiveStays(s: State, s': State, url: string, l: Live)
    requires LiveOk(s, url, l) && s.log <= s'.log && s.issued <= s'.issued
    requires forall i :: |s.log| <= i < |s'.log| && s'.log[i].Posted? ==> s'.log[i].kind != l.kind || s'.log[i].id != l.id
    ensures LiveOk(s', url, l)
  {
  }

  lemma PostKeepsRemote(s: State, uid: Uid, read: Spec, id: string, status: string, acknowledged: bool)
    requires RemoteOk(s) && uid in s.crs && BuildRequest(read).Some? && Issuable(s, read.Kind(), id)
    ensures RemoteOk(Post(s, uid, read, id, status, acknowledged))
  {
    var s' := Post(s, uid, read, id, status, acknowledged);
    var url := ItemUrl(read.Kind(), read.Scope(), id);
    FreshUrl(s, read.Kind(), read.Scope(), id);
    assert LiveOk(s', url, s'.remote[url]);
    forall u | u in s'.remote && u != url
      ensures LiveOk(s', u, s'.remote[u]) && !SameItem(s'.remote[u], s'.remote[url])
    {
      LiveStays(s, s', u, s.remote[u]);
    }
  }

  lemma PostKeepsCrs(s: State, uid: Uid, read: Spec, id: string, status: string, acknowledged: bool)
    requires Postable(s, uid, read, id, acknowledged)
    ensures CrsOk(Post(s, uid, read, id, status, acknowledged))
    ensures Accounted(Post(s, uid, read, id, status, acknowledged))
  {
    var s' := Post(s, uid, read, id, status, acknowledged);
    PostKeepsHistory(s, uid, read, id, status, acknowledged);
    if acknowledged {
      assert s'.log[|s.log|].acknowledged && Acknowledged(s'.log, uid, id);
    }
    forall u | u in s'.crs ensures TrackedOk(s', u, s'.crs[u]) {
      assert TrackedOk(s, u, s.crs[u]);
    }
    forall i | 0 <= i < |s.log| && s.log[i].Posted? && s.log[i].acknowledged && !Holds(s', s.log[i].uid, s.log[i].id)
      ensures ReportedGone(s'.log, s.log[i].uid, s.log[i].id)
    {
      assert ReportedGone(s.log, s.log[i].uid, s.log[i].id);
    }
  }

  lemma CreateKeeps(s: State, uid: Uid, answer: Answer, effect: Option<string>, status: string)
    requires Inv(s) && Enabled(s, Create(uid, answer, effect, status))
    ensures Inv(CreateStep(s, uid, answer, effect, status))
  {
    var t := s.crs[uid];
    assert TrackedOk(s, uid, t);
    CrStep(s, uid, t.(phase := Idle));
    var s1 := s.(crs := s.crs[uid := t.(phase := Idle)]);
    var acknowledged := CreateEffect(t.cr.(spec := t.phase.read), answer).1.Created?;
    if effect.Some? {
      CreateIsPost(s, uid, answer, effect.value, status);
      PostKeeps(s1, uid, t.phase.read, effect.value, status, acknowledged);
    }
  }

  lemma CreateIsPost(s: State, uid: Uid, answer: Answer, id: string, status: string)
    requires Enabled(s, Create(uid, answer, Some(id), status))
    ensures var t := s.crs[uid];
            var s1 := s.(crs := s.crs[uid := t.(phase := Idle)]);
            CreateStep(s, uid, answer, Some(id), status) ==
            Post(s1, uid, t.phase.read, id, status, CreateEffect(t.cr.(spec := t.phase.read), answer).1.Created?)
  {
  }

  lemma PostKeeps(s: State, uid: Uid, read: Spec, id: string, status: string, acknowledged: bool)
    requires Postable(s, uid, read, id, acknowledged)
    ensures Inv(Post(s, uid, read, id, status, acknowledged))
  {
    PostKeepsHistory(s, uid, read, id, status, acknowledged);
    PostKeepsRemote(s, uid, read, id, status, acknowledged);
    PostKeepsCrs(s, uid, read, id, status, acknowledged);
  }

  lemma RemoteKeeps(s: State, remote: map<string, Live>)
    requires Inv(s)
    requires forall url :: url in remote ==>
               url in s.remote && remote[url] == s.remote[url].(status := remote[url].status, life := remote[url].life)
    ensures Inv(s.(remote := remote))
  {
    var s' := s.(remote := remote);
    forall url | url in remote ensures LiveOk(s', url, remote[url]) {
      assert LiveOk(s, url, s.remote[url]);
    }
  }

  lemma AppearKeepsRemote(s: State, e: Event)
    requires RemoteOk(s) && LogOk(s) && e.Appear? && Enabled(s, e)
    ensures RemoteOk(Step(s, e))
  {
    var s' := Step(s, e);
    var url := ItemUrl(e.kind, e.scope, e.id);
    FreshUrl(s, e.kind, e.scope, e.id);
    forall u | u in s'.remote && u != url ensures LiveOk(s', u, s'.remote[u]) {
      LiveStays(s, s', u, s.remote[u]);
    }
  }

  lemma AppearKeeps(s: State, e: Event)
    requires Inv(s) && e.Appear? && Enabled(s, e)
    ensures Inv(Step(s, e))
  {
    AppearKeepsRemote(s, e);
    var s' := Step(s, e);
    assert s'.crs == s.crs && s'.log == s.log && s.issued <= s'.issued;
  }

  lemma DeleteKeeps(s: State, uid: Uid, answer: Answer, removal: Removal)
    requires Inv(s) && Enabled(s, Delete(uid, answer, removal))
    ensures Inv(DeleteStep(s, uid, answer, removal))
  {
    var t := s.crs[uid];
    var s1 := s.(crs := s.crs[uid := t.(phase := Idle)]);
    CrStep(s, uid, t.(phase := Idle));
    RemoteKeeps(s1, DeleteStep(s, uid, answer, removal).remote);
  }

  lemma StepKeeps(s: State, e: Event)
    requires Inv(s)
    ensures Inv(Step(s, e))
  {
    if Enabled(s, e) {
      match e
      case Submit(uid, spec, annotations) =>
        CrStep(s, uid, Tracked(Cr(spec, annotations, "", false), false, Idle));
      case EditSpec(uid, spec) =>
        CrStep(s, uid, s.crs[uid].(cr := s.crs[uid].cr.(spec := spec)));
      case Annotate(uid, annotations) =>
        CrStep(s, uid, s.crs[uid].(cr := s.crs[uid].cr.(annotations := annotations)));
      case RequestDeletion(uid) =>
        CrStep(s, uid, s.crs[uid].(deleting := true));
      case Observe(uid, answer) => ObserveKeeps(s, uid, answer);
      case Create(uid, answer, effect, status) => CreateKeeps(s, uid, answer, effect, status);
      case Update(uid) => CrStep(s, uid, s.crs[uid].(phase := Idle));
      case Delete(uid, answer, removal) => DeleteKeeps(s, uid, answer, removal);
      case Appear(_, _, _, _, _) => AppearKeeps(s, e);
      case ChangeStatus(_, _) => RemoteKeeps(s, Step(s, e).remote);
      case Age(_) => RemoteKeeps(s, Step(s, e).remote);
      case Vanish(_) => RemoteKeeps(s, Step(s, e).remote);
    }
  }

  lemma {:induction false} AfterKeeps(s: State, events: seq<Event>)
    requires Inv(s)
    ensures Inv(After(s, events))
    decreases |events|
  {
    if events != [] {
      StepKeeps(s, events[0]);
      AfterKeeps(Step(s, events[0]), events[1..]);
    }
  }

  lemma Reachable(events: seq<Event>)
    ensures Inv(Run(events))
  {
    AfterKeeps(EMPTY, events);
  }

  // Some run leads here.
  ghost predicate Reached(s: State) {
    exists events :: Run(events) == s
  }

  lemma ReachedKeeps(s: State)
    requires Reached(s)
    ensures Inv(s)
  {
    var events :| Run(events) == s;
    Reachable(events);
  }

  lemma ReachedAfter(s: State, events: seq<Event>)
    requires Reached(s)
    ensures Reached(After(s, events))
  {
    var earlier :| Run(earlier) == s;
    AfterConcat(EMPTY, earlier, events);
    assert Run(earlier + events) == After(s, events);
  }

  lemma ReachedStep(s: State, e: Event)
    requires Reached(s)
    ensures Reached(Step(s, e))
  {
    ReachedAfter(s, [e]);
    assert After(s, [e]) == Step(s, e);
  }
}
