// What the status, the Ready condition and the finalization of a custom resource say about its
// past, and what calls that fail leave behind.
module History {
  import opened Wrappers
  import opened Urls
  import opened Api
  import opened Lifecycle
  import opened World
  import opened Conservation
  import opened Traces

  // The event is an observation of this resource that asked for its id and decoded the body.
  predicate Decodes(s: State, e: Event, uid: Uid) {
    && e.Observe? && e.uid == uid && Enabled(s, e) && s.crs[uid].cr.Id().Some?
    && e.answer.Answered? && e.answer.body.Some? && (e.answer.code < 400 || e.answer.code == 404)
  }

  // The same, and the resource existed with the ready status of its kind.
  predicate SeesReady(s: State, e: Event, uid: Uid) {
    && Decodes(s, e, uid) && e.answer.code != 404
    && SaysReady(s.crs[uid].cr.spec.Kind(), e.answer.body.value.status)
  }

  predicate DecodesAt(events: seq<Event>, k: nat, uid: Uid)
    requires k < |events|
  {
    Decodes(Run(events[..k]), events[k], uid)
  }

  predicate SeesReadyAt(events: seq<Event>, k: nat, uid: Uid)
    requires k < |events|
  {
    SeesReady(Run(events[..k]), events[k], uid)
  }

  function StatusOf(s: State, uid: Uid): string {
    if uid in s.crs then s.crs[uid].cr.status else ""
  }

  predicate ReadyOf(s: State, uid: Uid) {
    uid in s.crs && s.crs[uid].cr.ready
  }

  lemma HistoryStep(s: State, e: Event, uid: Uid)
    ensures StatusOf(Step(s, e), uid) == if Decodes(s, e, uid) then e.answer.body.value.status else StatusOf(s, uid)
    ensures ReadyOf(Step(s, e), uid) <==> ReadyOf(s, uid) || SeesReady(s, e, uid)
  {
  }

  // In every run Ready holds exactly when some observation saw the resource exist with the ready
  // status of its kind; so it is never cleared.
  lemma ReadyIff(events: seq<Event>, uid: Uid)
    ensures ReadyOf(Run(events), uid) <==> exists k :: 0 <= k < |events| && SeesReadyAt(events, k, uid)
  {
    var flag, sets := (s: State) => ReadyOf(s, uid), (s: State, e: Event) => SeesReady(s, e, uid);
    forall s, e ensures flag(Step(s, e)) <==> flag(s) || sets(s, e) {
      HistoryStep(s, e, uid);
    }
    EverIff(flag, sets, events);
    assert forall k :: 0 <= k < |events| ==> SeesReadyAt(events, k, uid) == sets(Run(events[..k]), events[k]);
  }

  // The last observation of a run that decoded a body.
  ghost predicate IsLastDecoded(events: seq<Event>, k: nat, uid: Uid) {
    k < |events| && DecodesAt(events, k, uid) && forall j :: k < j < |events| ==> !DecodesAt(events, j, uid)
  }

  ghost predicate NoneDecoded(events: seq<Event>, uid: Uid) {
    forall k :: 0 <= k < |events| ==> !DecodesAt(events, k, uid)
  }

  function StatusSeen(uid: Uid): (State, Event) -> Option<string> {
    (s: State, e: Event) => if Decodes(s, e, uid) then Some(e.answer.body.value.status) else None
  }

  // In every run the status is that of the last observation that decoded a body, and empty if
  // there was none.
  lemma StatusIsLastDecoded(events: seq<Event>, uid: Uid)
    ensures NoneDecoded(events, uid) ==> StatusOf(Run(events), uid) == ""
    ensures forall k: nat :: IsLastDecoded(events, k, uid) ==>
              StatusOf(Run(events), uid) == events[k].answer.body.value.status
  {
    var value, changes := (s: State) => StatusOf(s, uid), StatusSeen(uid);
    forall s, e ensures value(Step(s, e)) == if changes(s, e).Some? then changes(s, e).value else value(s) {
      HistoryStep(s, e, uid);
    }
    assert forall k :: 0 <= k < |events| ==> ChangeAt(changes, events, k).Some? == DecodesAt(events, k, uid);
    if NoneDecoded(events, uid) {
      NeverChanged(value, changes, events);
    }
    forall k: nat | IsLastDecoded(events, k, uid)
      ensures StatusOf(Run(events), uid) == events[k].answer.body.value.status
    {
      LastChange(value, changes, events, k);
    }
  }

  /******* What users and services change *******/

  function SpecOf(uid: Uid): State -> Option<Spec> {
    (s: State) => if uid in s.crs then Some(s.crs[uid].cr.spec) else None
  }

  // A spec is given by the submission of the resource, once, and by edits that keep its kind.
  function SpecGiven(uid: Uid): (State, Event) -> Option<Option<Spec>> {
    (s: State, e: Event) =>
      if e.Submit? && e.uid == uid && uid !in s.crs && IdIn(e.spec.Kind(), e.annotations).None? then Some(Some(e.spec))
      else if e.EditSpec? && e.uid == uid && uid in s.crs && e.spec.Kind() == s.crs[uid].cr.spec.Kind() then Some(Some(e.spec))
      else None
  }

  // In every run a resource is there exactly if it was submitted, with the spec last given to it.
  lemma SpecIsLastGiven(events: seq<Event>, uid: Uid)
    ensures Never(SpecGiven(uid), events) ==> uid !in Run(events).crs
    ensures forall k: nat :: IsLast(SpecGiven(uid), events, k) ==>
              uid in Run(events).crs && Run(events).crs[uid].cr.spec == events[k].spec
  {
    assert Tracks(SpecOf(uid), SpecGiven(uid)) by {
      forall s, e
        ensures SpecOf(uid)(Step(s, e)) ==
                if SpecGiven(uid)(s, e).Some? then SpecGiven(uid)(s, e).value else SpecOf(uid)(s)
      {
      }
    }
    if Never(SpecGiven(uid), events) {
      NeverChanged(SpecOf(uid), SpecGiven(uid), events);
    }
    forall k: nat | IsLast(SpecGiven(uid), events, k)
      ensures uid in Run(events).crs && Run(events).crs[uid].cr.spec == events[k].spec
    {
      LastChange(SpecOf(uid), SpecGiven(uid), events, k);
    }
  }

  function AnnotationsOf(uid: Uid): State -> Option<map<string, string>> {
    (s: State) => if uid in s.crs then Some(s.crs[uid].cr.annotations) else None
  }

  // The annotations that name an id and nothing else.
  function Naming(kind: Kind, id: string): map<string, string> {
    match kind
    case VirtualMachine => map["ucan.io/virtualmachine-uuid" := id]
    case Volume => map["ucan.io/volume-uuid" := id]
    case Floatingip => map["ucan.io/eip-uuid" := id]
  }

  // Annotations are given by the submission, by users, as long as they leave the id alone, and by
  // a Create that posts and gets a decoded body without an error status.
  function AnnotationsGiven(uid: Uid): (State, Event) -> Option<Option<map<string, string>>> {
    (s: State, e: Event) =>
      if e.Submit? && e.uid == uid && uid !in s.crs && IdIn(e.spec.Kind(), e.annotations).None? then
        Some(Some(e.annotations))
      else if e.Annotate? && e.uid == uid && Enabled(s, e) then
        Some(Some(e.annotations))
      else if e.Create? && e.uid == uid && Enabled(s, e) && e.effect.Some? && Decoded(e.answer) && e.answer.code < 400 then
        Some(Some(Naming(s.crs[uid].phase.read.Kind(), e.effect.value)))
      else None
  }

  lemma AnnotationsStep(s: State, e: Event, uid: Uid)
    ensures AnnotationsOf(uid)(Step(s, e)) ==
            if AnnotationsGiven(uid)(s, e).Some? then AnnotationsGiven(uid)(s, e).value else AnnotationsOf(uid)(s)
  {
    if e.Create? && Enabled(s, e) {
      CreateMeans(s.crs[e.uid].cr.(spec := s.crs[e.uid].phase.read), e.answer);
    }
  }

  // In every run the annotations are those last given: an accepted Create leaves its id alone.
  lemma AnnotationsAreLastGiven(events: seq<Event>, uid: Uid, k: nat)
    requires IsLast(AnnotationsGiven(uid), events, k)
    ensures Some(AnnotationsOf(uid)(Run(events))) == ChangeAt(AnnotationsGiven(uid), events, k)
  {
    forall s, e
      ensures AnnotationsOf(uid)(Step(s, e)) ==
              if AnnotationsGiven(uid)(s, e).Some? then AnnotationsGiven(uid)(s, e).value else AnnotationsOf(uid)(s)
    {
      AnnotationsStep(s, e, uid);
    }
    LastChange(AnnotationsOf(uid), AnnotationsGiven(uid), events, k);
  }

  // The status of what is at an address, if something is.
  function ItemAt(url: string): State -> Option<string> {
    (s: State) => if url in s.remote then Some(s.remote[url].status) else None
  }

  // An item appears by a POST that takes effect or by a third party, changes its status by itself,
  // and goes by itself, by a DELETE that is carried out, or when its lingering ends.
  function ItemChange(url: string): (State, Event) -> Option<Option<string>> {
    (s: State, e: Event) =>
      match e
      case Create(uid, _, effect, status) =>
        if TakesEffect(s, e) && url == ItemUrl(s.crs[uid].phase.read.Kind(), s.crs[uid].phase.read.Scope(), effect.value)
        then Some(Some(status)) else None
      case Appear(kind, scope, id, _, status) =>
        if Enabled(s, e) && url == ItemUrl(kind, scope, id) then Some(Some(status)) else None
      case ChangeStatus(u, status) => if u == url && url in s.remote then Some(Some(status)) else None
      case Vanish(u) => if u == url then Some(None) else None
      case Delete(uid, _, removal) =>
        if Enabled(s, e) && removal.Removed? && DeleteTarget(s.crs[uid]) == Some(url) then Some(None) else None
      case Age(u) => if u == url && url in s.remote && s.remote[url].life == Lingering(0) then Some(None) else None
      case _ => None
  }

  lemma ItemStep(s: State, e: Event, url: string)
    ensures ItemAt(url)(Step(s, e)) ==
            if ItemChange(url)(s, e).Some? then ItemChange(url)(s, e).value else ItemAt(url)(s)
  {
  }

  // In every run an item is there, with its status, exactly as the last change left it.
  lemma ItemIsAsLastChanged(events: seq<Event>, url: string)
    ensures Never(ItemChange(url), events) ==> url !in Run(events).remote
    ensures forall k: nat :: IsLast(ItemChange(url), events, k) ==>
              Some(ItemAt(url)(Run(events))) == ChangeAt(ItemChange(url), events, k)
  {
    forall s, e
      ensures ItemAt(url)(Step(s, e)) ==
              if ItemChange(url)(s, e).Some? then ItemChange(url)(s, e).value else ItemAt(url)(s)
    {
      ItemStep(s, e, url);
    }
    if Never(ItemChange(url), events) {
      NeverChanged(ItemAt(url), ItemChange(url), events);
    }
    forall k: nat | IsLast(ItemChange(url), events, k)
      ensures Some(ItemAt(url)(Run(events))) == ChangeAt(ItemChange(url), events, k)
    {
      LastChange(ItemAt(url), ItemChange(url), events, k);
    }
  }

  /******* Finalization *******/

  predicate FinalizedOf(s: State, uid: Uid) {
    uid in s.crs && s.crs[uid].phase.Finalized?
  }

  predicate DeletingOf(s: State, uid: Uid) {
    uid in s.crs && s.crs[uid].deleting
  }

  // The deletion of the resource is requested.
  predicate RequestedAt(events: seq<Event>, k: nat, uid: Uid)
    requires k < |events|
  {
    events[k] == RequestDeletion(uid) && uid in Run(events[..k]).crs
  }

  // In every run a resource is being deleted exactly when its deletion was requested.
  lemma DeletingIff(events: seq<Event>, uid: Uid)
    ensures DeletingOf(Run(events), uid) <==> exists k :: 0 <= k < |events| && RequestedAt(events, k, uid)
  {
    var flag, sets := (s: State) => DeletingOf(s, uid), (s: State, e: Event) => e == RequestDeletion(uid) && uid in s.crs;
    EverIff(flag, sets, events);
    assert forall k :: 0 <= k < |events| ==> RequestedAt(events, k, uid) == sets(Run(events[..k]), events[k]);
  }

  // The event is an observation of this resource that has no id to ask for or got a 404 whose body
  // decodes.
  predicate Dismisses(s: State, e: Event, uid: Uid) {
    e.Observe? && e.uid == uid && Enabled(s, e) && (s.crs[uid].cr.Id().None? || Denies(e.answer))
  }

  predicate DismissesAt(events: seq<Event>, k: nat, uid: Uid)
    requires k < |events|
  {
    Dismisses(Run(events[..k]), events[k], uid)
  }

  lemma FinalizedStep(s: State, e: Event, uid: Uid)
    ensures FinalizedOf(Step(s, e), uid) <==> FinalizedOf(s, uid) || (Dismisses(s, e, uid) && DeletingOf(s, uid))
  {
  }

  // In every run a resource is finalized exactly when its deletion was requested and some later
  // observation of it had no id to ask for or got a 404 whose body decodes.
  lemma FinalizedIff(events: seq<Event>, uid: Uid)
    ensures FinalizedOf(Run(events), uid) <==>
            exists j, k :: 0 <= j < k < |events| && RequestedAt(events, j, uid) && DismissesAt(events, k, uid)
  {
    var flag := (s: State) => FinalizedOf(s, uid);
    var sets := (s: State, e: Event) => Dismisses(s, e, uid) && DeletingOf(s, uid);
    forall s, e ensures flag(Step(s, e)) <==> flag(s) || sets(s, e) {
      FinalizedStep(s, e, uid);
    }
    EverIff(flag, sets, events);
    forall k | 0 <= k < |events|
      ensures sets(Run(events[..k]), events[k]) <==>
              DismissesAt(events, k, uid) && exists j :: 0 <= j < k && RequestedAt(events, j, uid)
    {
      RequestedBefore(events, k, uid);
    }
  }

  lemma RequestedBefore(events: seq<Event>, k: nat, uid: Uid)
    requires k <= |events|
    ensures DeletingOf(Run(events[..k]), uid) <==> exists j :: 0 <= j < k && RequestedAt(events, j, uid)
  {
    DeletingIff(events[..k], uid);
    forall j | 0 <= j < k ensures RequestedAt(events[..k], j, uid) == RequestedAt(events, j, uid) {
      assert events[..k][..j] == events[..j];
    }
  }

  /******* Delete *******/

  // In every run a Delete succeeds exactly if it is answered 204, whatever becomes of the item.
  lemma DeleteSucceedsIff(events: seq<Event>, uid: Uid, answer: Answer, removal: Removal)
    requires Enabled(Run(events), Event.Delete(uid, answer, removal))
    ensures DeleteOutcome(Run(events), uid, answer).Deleted? <==> answer.Answered? && answer.code == 204
  {
    Reachable(events);
    var t := Run(events).crs[uid];
    assert TrackedOk(Run(events), uid, t);
    DeleteMeans(t.cr.(spec := t.phase.read), answer);
  }

  // What a pending Delete returns.
  function DeleteOutcome(s: State, uid: Uid, answer: Answer): DeleteResult
    requires uid in s.crs && s.crs[uid].phase.ToDelete?
  {
    DeleteEffect(s.crs[uid].cr.(spec := s.crs[uid].phase.read), answer)
  }

  lemma IdStays(s: State, e: Event, uid: Uid)
    requires uid in s.crs && s.crs[uid].cr.Id().Some? && TrackedOk(s, uid, s.crs[uid])
    ensures uid in Step(s, e).crs && Step(s, e).crs[uid].cr.Id().Some?
  {
  }

  lemma {:induction false} UndecodableAfter(s: State, more: seq<Event>, uid: Uid)
    requires Reached(s) && uid in s.crs && s.crs[uid].cr.Id().Some? && !s.crs[uid].phase.Finalized?
    requires forall i :: 0 <= i < |more| && more[i].Observe? && more[i].uid == uid ==> !Denies(more[i].answer)
    ensures !FinalizedOf(After(s, more), uid)
    decreases |more|
  {
    if more != [] {
      ReachedKeeps(s);
      ReachedStep(s, more[0]);
      FinalizedStep(s, more[0], uid);
      IdStays(s, more[0], uid);
      UndecodableAfter(Step(s, more[0]), more[1..], uid);
    }
  }

  // A resource that holds an id is never finalized by a service whose 404s do not decode, however
  // often it is reconciled and whatever else happens.
  lemma UndecodableNeverFinalizes(events: seq<Event>, more: seq<Event>, uid: Uid)
    requires uid in Run(events).crs && Run(events).crs[uid].cr.Id().Some? && !Run(events).crs[uid].phase.Finalized?
    requires forall i :: 0 <= i < |more| && more[i].Observe? && more[i].uid == uid ==> !Denies(more[i].answer)
    ensures !FinalizedOf(Run(events + more), uid)
  {
    assert Reached(Run(events));
    UndecodableAfter(Run(events), more, uid);
    AfterConcat(EMPTY, events, more);
  }

  /******* Failures *******/

  // If the event is a call for this resource, the call returns an error or is a Delete.
  predicate Fails(s: State, e: Event, uid: Uid) {
    match e
    case Observe(u, answer) =>
      u == uid && Enabled(s, e) ==> ObserveEffect(s.crs[uid].cr, answer).1.ObserveFailed?
    case Create(u, answer, _, _) =>
      u == uid && Enabled(s, e) ==> !CreateEffect(s.crs[uid].cr.(spec := s.crs[uid].phase.read), answer).1.Created?
    case EditSpec(u, _) => u != uid
    case Annotate(u, _) => u != uid
    case _ => true
  }

  ghost predicate AllFail(s: State, events: seq<Event>, uid: Uid)
    decreases |events|
  {
    events == [] || (Fails(s, events[0], uid) && AllFail(Step(s, events[0]), events[1..], uid))
  }

  lemma FailureStep(s: State, e: Event, uid: Uid)
    requires uid in s.crs && Fails(s, e, uid)
    ensures uid in Step(s, e).crs && Step(s, e).crs[uid].cr == s.crs[uid].cr
  {
  }

  // Any number of failing calls, interleaved with anything that happens elsewhere, leave the
  // resource's annotations, status and conditions as they were.
  lemma {:induction false} FailuresChangeNothing(s: State, events: seq<Event>, uid: Uid)
    requires uid in s.crs && AllFail(s, events, uid)
    ensures uid in After(s, events).crs && After(s, events).crs[uid].cr == s.crs[uid].cr
    decreases |events|
  {
    if events != [] {
      FailureStep(s, events[0], uid);
      FailuresChangeNothing(Step(s, events[0]), events[1..], uid);
    }
  }

  /******* Volumes without hints *******/

  predicate Hintless(spec: Spec) {
    spec.VolumeSpec? && Elements(spec.volume.schedulerHints) == []
  }

  // No spec of this resource has anything to post.
  predicate Unpostable(s: State, uid: Uid) {
    && (uid in s.crs ==>
          && Hintless(s.crs[uid].cr.spec)
          && (s.crs[uid].phase.ToCreate? ==> Hintless(s.crs[uid].phase.read)))
    && forall i :: 0 <= i < |s.log| && s.log[i].Posted? ==> s.log[i].uid != uid
  }

  // The event gives this resource no spec that has something to post.
  predicate GivesNoHints(e: Event, uid: Uid) {
    (e.Submit? || e.EditSpec?) && e.uid == uid ==> Hintless(e.spec)
  }

  lemma UnpostableStep(s: State, e: Event, uid: Uid)
    requires Unpostable(s, uid) && GivesNoHints(e, uid)
    ensures Unpostable(Step(s, e), uid)
  {
    if e.Create? && Enabled(s, e) {
      UnpostableCreate(s, e, uid);
    }
  }

  lemma UnpostableCreate(s: State, e: Event, uid: Uid)
    requires Unpostable(s, uid) && e.Create? && Enabled(s, e)
    ensures Unpostable(Step(s, e), uid)
  {
  }

  lemma {:induction false} UnpostableAfter(s: State, events: seq<Event>, uid: Uid)
    requires Unpostable(s, uid)
    requires forall i :: 0 <= i < |events| ==> GivesNoHints(events[i], uid)
    ensures Unpostable(After(s, events), uid)
    decreases |events|
  {
    if events != [] {
      assert GivesNoHints(events[0], uid);
      UnpostableStep(s, events[0], uid);
      UnpostableAfter(Step(s, events[0]), events[1..], uid);
    }
  }

  // In every run a volume that never had a scheduler hint was never posted and holds no id: its
  // Create panics before it posts, each time.
  lemma HintlessVolumeIsNeverPosted(events: seq<Event>, uid: Uid)
    requires forall i :: 0 <= i < |events| ==> GivesNoHints(events[i], uid)
    ensures forall i :: 0 <= i < |Run(events).log| && Run(events).log[i].Posted? ==> Run(events).log[i].uid != uid
    ensures uid in Run(events).crs ==> Run(events).crs[uid].cr.Id().None?
  {
    UnpostableAfter(EMPTY, events, uid);
    Reachable(events);
    if uid in Run(events).crs {
      assert TrackedOk(Run(events), uid, Run(events).crs[uid]);
    }
  }
}
