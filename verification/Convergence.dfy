// Deletion converges: a resource whose deletion was requested is finalized after boundedly many
// faithful reconciles, even if what it made lingers and later DELETEs are refused, whatever
// happens to other resources and to its own spec, and however many calls fail in between.
module Convergence {
  import opened Wrappers
  import opened Urls
  import opened Lifecycle
  import opened World
  import opened Conservation
  import opened Guarantees
  import History

  // Where the resource's item is looked for.
  function Home(s: State, uid: Uid): string
    requires uid in s.crs && s.crs[uid].cr.Id().Some?
  {
    Address(s.crs[uid].cr).value
  }

  // The address at which the resource's id was posted. It stays, whatever becomes of the spec.
  ghost predicate PostedAt(s: State, uid: Uid, url: string) {
    && uid in s.crs && s.crs[uid].cr.Id().Some?
    && exists j :: 0 <= j < |s.log| && PostedHere(s.log[j], uid, s.crs[uid].cr.Id().value, url)
  }

  predicate PostedHere(entry: Entry, uid: Uid, id: string, url: string) {
    entry.Posted? && entry.uid == uid && entry.id == id && entry.acknowledged
    && url == ItemUrl(entry.kind, entry.scope, entry.id)
  }

  // The service answers a GET by what is there: an item, or a 404 with a body that decodes.
  predicate FaithfulAnswer(s: State, uid: Uid, answer: Answer) {
    uid in s.crs && s.crs[uid].cr.Id().Some? ==>
      && answer.Answered? && answer.body.Some?
      && if Home(s, uid) in s.remote then answer.code < 400 else answer.code == 404
  }

  // A DELETE never lengthens the life of its target: an item that served lingers for at most the
  // limit, and one that lingered for no longer than before.
  predicate NoLonger(s: State, t: Tracked, removal: Removal, limit: nat)
    requires t.phase.ToDelete?
  {
    removal.Marked? && DeleteTarget(t).Some? && DeleteTarget(t).value in s.remote ==>
      match s.remote[DeleteTarget(t).value].life
      case Serving => removal.left <= limit
      case Lingering(left) => removal.left <= left
  }

  // The DELETE of an item that serves is sent and carried out, whatever is answered.
  predicate FaithfulRemoval(s: State, uid: Uid, answer: Answer, removal: Removal, limit: nat) {
    uid in s.crs && s.crs[uid].phase.ToDelete? && DeleteTarget(s.crs[uid]).Some? ==>
      && NoLonger(s, s.crs[uid], removal, limit)
      && (Serves(s, DeleteTarget(s.crs[uid]).value) ==> !answer.Unsent? && !removal.Kept?)
  }

  // Events that are not steps of this resource's worker.
  predicate Aside(uid: Uid, events: seq<Event>) {
    forall i :: 0 <= i < |events| ==> !WorkOf(events[i], uid)
  }

  // Any event, except that the worker's Observe, if it is not answered faithfully, returns an
  // error. Its Deletes may have an effect or not, whatever they are answered.
  predicate Stumble(uid: Uid, limit: nat, s: State, e: Event) {
    && (e.Observe? && e.uid == uid && Enabled(s, e) ==>
          ObserveEffect(s.crs[uid].cr, e.answer).1.ObserveFailed? || FaithfulAnswer(s, uid, e.answer))
    && (e.Delete? && e.uid == uid && Enabled(s, e) ==> NoLonger(s, s.crs[uid], e.removal, limit))
  }

  ghost predicate Stumbles(uid: Uid, limit: nat, s: State, events: seq<Event>)
    decreases |events|
  {
    events == [] || (Stumble(uid, limit, s, events[0]) && Stumbles(uid, limit, Step(s, events[0]), events[1..]))
  }

  // One faithful reconcile of a resource, with any events of others in between, and any number of
  // calls before and after it that fail or whose outcome is lost. At its end the item, if it
  // lingers, is one step closer to its disappearance.
  datatype Round = Round(
    before: seq<Event>,
    observed: Answer,
    between: seq<Event>,
    answered: Answer,
    removal: Removal,
    afterwards: seq<Event>)

  function Observed(s: State, uid: Uid, r: Round): State {
    Step(After(s, r.before), Event.Observe(uid, r.observed))
  }

  function Removing(s: State, uid: Uid, r: Round): State {
    After(Observed(s, uid, r), r.between)
  }

  function RemovalDone(s: State, uid: Uid, r: Round): State {
    Step(Removing(s, uid, r), Event.Delete(uid, r.answered, r.removal))
  }

  function AfterRound(s: State, uid: Uid, url: string, r: Round): State {
    Step(After(RemovalDone(s, uid, r), r.afterwards), Age(url))
  }

  // The faithful reconcile begins when the worker is at rest.
  ghost predicate Faithful(s: State, uid: Uid, limit: nat, r: Round) {
    && Stumbles(uid, limit, s, r.before) && AtRest(After(s, r.before), uid)
    && FaithfulAnswer(After(s, r.before), uid, r.observed)
    && Aside(uid, r.between)
    && FaithfulRemoval(Removing(s, uid, r), uid, r.answered, r.removal, limit)
    && Stumbles(uid, limit, RemovalDone(s, uid, r), r.afterwards)
  }

  predicate AtRest(s: State, uid: Uid) {
    uid in s.crs && (s.crs[uid].phase.Idle? || s.crs[uid].phase.Finalized?)
  }

  // A round is a run of events.
  lemma RoundIsRun(s: State, uid: Uid, url: string, r: Round)
    ensures AfterRound(s, uid, url, r) ==
            After(s, r.before + ([Event.Observe(uid, r.observed)] + (r.between
                     + ([Event.Delete(uid, r.answered, r.removal)] + (r.afterwards + [Age(url)])))))
  {
    var e1, e2 := [Event.Observe(uid, r.observed)], [Event.Delete(uid, r.answered, r.removal)];
    var tail2 := r.afterwards + [Age(url)];
    var tail1 := r.between + (e2 + tail2);
    AfterConcat(s, r.before, e1 + tail1);
    AfterConcat(After(s, r.before), e1, tail1);
    AfterConcat(Observed(s, uid, r), r.between, e2 + tail2);
    AfterConcat(Removing(s, uid, r), e2, tail2);
    AfterConcat(RemovalDone(s, uid, r), r.afterwards, [Age(url)]);
  }

  function AfterRounds(s: State, uid: Uid, url: string, rounds: seq<Round>): State
    decreases |rounds|
  {
    if rounds == [] then s else AfterRounds(AfterRound(s, uid, url, rounds[0]), uid, url, rounds[1..])
  }

  ghost predicate FaithfulRounds(s: State, uid: Uid, url: string, limit: nat, rounds: seq<Round>)
    decreases |rounds|
  {
    rounds == [] ||
    (Faithful(s, uid, limit, rounds[0]) && FaithfulRounds(AfterRound(s, uid, url, rounds[0]), uid, url, limit, rounds[1..]))
  }

  // The measure: how long an address can still answer.
  function Remaining(s: State, url: string, limit: nat): nat {
    if url !in s.remote then 0
    else match s.remote[url].life
      case Serving => limit + 2
      case Lingering(left) => left + 1
  }

  predicate Serves(s: State, url: string) {
    url in s.remote && s.remote[url].life.Serving?
  }

  predicate Shortens(s: State, s': State, url: string, limit: nat) {
    Remaining(s', url, limit) <= Remaining(s, url, limit) && (Serves(s', url) ==> Serves(s, url))
  }

  /******* The address of the item *******/

  // What is at the posted address is the resource's own.
  lemma PostedIsOwn(s: State, uid: Uid, url: string)
    requires Inv(s) && PostedAt(s, uid, url) && url in s.remote
    ensures OwnedBy(s, url, uid)
  {
    var l := s.remote[url];
    assert LiveOk(s, url, l);
    var j :| 0 <= j < |s.log| && PostedHere(s.log[j], uid, s.crs[uid].cr.Id().value, url);
    ItemUrlInjective(l.kind, l.scope, l.id, s.log[j].kind, s.log[j].scope, s.log[j].id);
    assert Posts(s.log[j], l.kind, l.id);
  }

  // Whatever project the spec names, an item found at home is at the posted address.
  lemma HomeIsPosted(s: State, uid: Uid, url: string)
    requires Inv(s) && PostedAt(s, uid, url) && Home(s, uid) in s.remote
    ensures Home(s, uid) == url
  {
    var cr, l := s.crs[uid].cr, s.remote[Home(s, uid)];
    assert TrackedOk(s, uid, s.crs[uid]) && LiveOk(s, Home(s, uid), l);
    var j :| 0 <= j < |s.log| && PostedHere(s.log[j], uid, cr.Id().value, url);
    ItemUrlInjective(l.kind, l.scope, l.id, cr.spec.Kind(), cr.spec.Scope(), cr.Id().value);
    assert Posts(s.log[j], l.kind, l.id);
  }

  // Another worker's Delete never reaches this resource's item.
  lemma OthersDeleteElsewhere(s: State, e: Event, uid: Uid, url: string)
    requires Inv(s) && e.Delete? && Enabled(s, e) && e.uid != uid
    requires PostedAt(s, uid, url) && url in s.remote
    ensures DeleteTarget(s.crs[e.uid]) != Some(url)
  {
    if DeleteTarget(s.crs[e.uid]) == Some(url) {
      DeleteTargetsItsOwn(s, e.uid);
      PostedIsOwn(s, uid, url);
      assert false;
    }
  }

  // No new item appears at the posted address.
  lemma PostedIsTaken(s: State, uid: Uid, url: string, kind: Kind, scope: string, id: string)
    requires Inv(s) && PostedAt(s, uid, url) && Issuable(s, kind, id) && ProperScope(kind, scope)
    ensures ItemUrl(kind, scope, id) != url
  {
    var j :| 0 <= j < |s.log| && PostedHere(s.log[j], uid, s.crs[uid].cr.Id().value, url);
    ItemUrlInjective(kind, scope, id, s.log[j].kind, s.log[j].scope, s.log[j].id);
  }

  lemma PostedStays(s: State, e: Event, uid: Uid, url: string)
    requires PostedAt(s, uid, url)
    requires uid in Step(s, e).crs && Step(s, e).crs[uid].cr.Id() == s.crs[uid].cr.Id()
    ensures PostedAt(Step(s, e), uid, url)
  {
    var j :| 0 <= j < |s.log| && PostedHere(s.log[j], uid, s.crs[uid].cr.Id().value, url);
    LogStep(s, e);
    assert Step(s, e).log[j] == s.log[j];
  }

  // No event lengthens the life of the item, its own Deletes as far as they may not.
  lemma EventShortens(s: State, e: Event, uid: Uid, url: string, limit: nat)
    requires Inv(s) && PostedAt(s, uid, url)
    requires e.Delete? && e.uid == uid && Enabled(s, e) ==> NoLonger(s, s.crs[uid], e.removal, limit)
    ensures Shortens(s, Step(s, e), url, limit)
  {
    if Enabled(s, e) {
      if e.Delete? {
        if e.uid == uid {
          OwnDeleteShortens(s, e, url, limit);
        } else {
          OtherDeleteShortens(s, e, uid, url, limit);
        }
      } else if e.Create? {
        CreateShortens(s, e, uid, url, limit);
      } else if e.Appear? {
        PostedIsTaken(s, uid, url, e.kind, e.scope, e.id);
      } else {
        OtherStepShortens(s, e, url, limit);
      }
    }
  }

  lemma OwnDeleteShortens(s: State, e: Event, url: string, limit: nat)
    requires e.Delete? && Enabled(s, e) && NoLonger(s, s.crs[e.uid], e.removal, limit)
    ensures Shortens(s, Step(s, e), url, limit)
  {
  }

  lemma OtherDeleteShortens(s: State, e: Event, uid: Uid, url: string, limit: nat)
    requires Inv(s) && PostedAt(s, uid, url) && e.Delete? && Enabled(s, e) && e.uid != uid
    ensures Shortens(s, Step(s, e), url, limit)
  {
    DeleteTouchesItsTarget(s, e);
    DeleteAddsNothing(s, e, url);
    if url in s.remote {
      OthersDeleteElsewhere(s, e, uid, url);
    }
  }

  lemma CreateShortens(s: State, e: Event, uid: Uid, url: string, limit: nat)
    requires Inv(s) && PostedAt(s, uid, url) && e.Create? && Enabled(s, e)
    ensures Shortens(s, Step(s, e), url, limit)
  {
    if e.effect.Some? {
      var read := s.crs[e.uid].phase.read;
      PostedIsTaken(s, uid, url, read.Kind(), read.Scope(), e.effect.value);
    }
  }

  lemma OtherStepShortens(s: State, e: Event, url: string, limit: nat)
    requires Enabled(s, e) && !e.Create? && !e.Appear? && !e.Delete?
    ensures Shortens(s, Step(s, e), url, limit)
  {
  }

  lemma DeleteAddsNothing(s: State, e: Event, url: string)
    requires e.Delete? && Enabled(s, e)
    ensures url in Step(s, e).remote ==> url in s.remote
  {
  }

  /******* The worker *******/

  // The worker is done with the deletion.
  predicate Done(s: State, uid: Uid) {
    uid in s.crs && s.crs[uid].phase.Finalized?
  }

  // About to delete what is at the address.
  predicate Deleting(t: Tracked, url: string) {
    t.phase.ToDelete? && DeleteTarget(t) == Some(url)
  }

  // The worker carries out a deletion, of the item at the address if there is an id.
  ghost predicate Working(s: State, uid: Uid, url: string) {
    && uid in s.crs && s.crs[uid].deleting
    && (s.crs[uid].phase.Idle? || Deleting(s.crs[uid], url))
    && (s.crs[uid].cr.Id().Some? ==> PostedAt(s, uid, url))
  }

  lemma DoneStep(s: State, e: Event, uid: Uid)
    requires Done(s, uid)
    ensures Done(Step(s, e), uid)
  {
  }

  lemma {:induction false} DoneAfter(s: State, events: seq<Event>, uid: Uid)
    requires Done(s, uid)
    ensures Done(After(s, events), uid)
    decreases |events|
  {
    if events != [] {
      DoneStep(s, events[0], uid);
      DoneAfter(Step(s, events[0]), events[1..], uid);
    }
  }

  lemma DoneRound(s: State, uid: Uid, url: string, r: Round)
    requires Done(s, uid)
    ensures Done(AfterRound(s, uid, url, r), uid)
  {
    RoundIsRun(s, uid, url, r);
    DoneAfter(s, r.before + ([Event.Observe(uid, r.observed)] + (r.between
                 + ([Event.Delete(uid, r.answered, r.removal)] + (r.afterwards + [Age(url)])))), uid);
  }

  // What other events leave of a resource being deleted.
  lemma AsideStep(s: State, e: Event, uid: Uid)
    requires uid in s.crs && !WorkOf(e, uid)
    ensures uid in Step(s, e).crs
    ensures var t, t' := s.crs[uid], Step(s, e).crs[uid];
            && t'.cr.Id() == t.cr.Id() && t'.phase == t.phase && (t.deleting ==> t'.deleting)
            && t'.cr.spec.Kind() == t.cr.spec.Kind()
  {
  }

  // A DELETE goes to the address of the spec read, whatever the spec is now.
  lemma TargetByRead(t: Tracked, t': Tracked)
    requires t.phase.ToDelete? && t'.phase == t.phase && t.phase.read.Kind() == t.cr.spec.Kind()
    requires t'.cr.Id() == t.cr.Id() && t'.cr.spec.Kind() == t.cr.spec.Kind()
    ensures DeleteTarget(t') == DeleteTarget(t)
  {
  }

  lemma AsideWorks(s: State, e: Event, uid: Uid, url: string)
    requires Inv(s) && Working(s, uid, url) && !WorkOf(e, uid)
    ensures Working(Step(s, e), uid, url) && Step(s, e).crs[uid].phase == s.crs[uid].phase
    ensures Step(s, e).crs[uid].cr.Id() == s.crs[uid].cr.Id()
  {
    AsideStep(s, e, uid);
    assert TrackedOk(s, uid, s.crs[uid]);
    if s.crs[uid].phase.ToDelete? {
      TargetByRead(s.crs[uid], Step(s, e).crs[uid]);
    }
    if s.crs[uid].cr.Id().Some? {
      PostedStays(s, e, uid, url);
    }
  }

  // An observation that is faithful or fails.
  lemma ObserveWorks(s: State, uid: Uid, answer: Answer, url: string)
    requires Inv(s) && Working(s, uid, url) && s.crs[uid].phase.Idle?
    requires ObserveEffect(s.crs[uid].cr, answer).1.ObserveFailed? || FaithfulAnswer(s, uid, answer)
    ensures var s' := Step(s, Event.Observe(uid, answer));
            Done(s', uid) || (Working(s', uid, url) && s'.crs[uid].cr.Id() == s.crs[uid].cr.Id())
  {
    var e := Event.Observe(uid, answer);
    if s.crs[uid].cr.Id().Some? {
      PostedStays(s, e, uid, url);
      if Home(s, uid) in s.remote {
        HomeIsPosted(s, uid, url);
      }
    }
  }

  lemma DeleteWorks(s: State, uid: Uid, answer: Answer, removal: Removal, url: string)
    requires Working(s, uid, url) && s.crs[uid].phase.ToDelete?
    ensures var s' := Step(s, Event.Delete(uid, answer, removal));
            Working(s', uid, url) && s'.crs[uid].cr.Id() == s.crs[uid].cr.Id()
  {
    if s.crs[uid].cr.Id().Some? {
      PostedStays(s, Event.Delete(uid, answer, removal), uid, url);
    }
  }

  lemma StumbleWorks(s: State, e: Event, uid: Uid, url: string, limit: nat)
    requires Inv(s) && Working(s, uid, url) && Stumble(uid, limit, s, e)
    ensures Done(Step(s, e), uid) || (Working(Step(s, e), uid, url) && Step(s, e).crs[uid].cr.Id() == s.crs[uid].cr.Id())
  {
    if !WorkOf(e, uid) {
      AsideWorks(s, e, uid, url);
    } else if Enabled(s, e) {
      if e.Observe? {
        ObserveWorks(s, uid, e.answer, url);
      } else if e.Delete? {
        DeleteWorks(s, uid, e.answer, e.removal, url);
      }
    }
  }

  // Through any stumbling the worker is done or still at it, with an item no longer lived.
  lemma {:induction false} StumblesWork(s: State, events: seq<Event>, uid: Uid, url: string, limit: nat)
    requires Reached(s) && Working(s, uid, url) && Stumbles(uid, limit, s, events)
    ensures var s' := After(s, events);
            && Reached(s')
            && (Done(s', uid) || (Working(s', uid, url) && s'.crs[uid].cr.Id() == s.crs[uid].cr.Id()))
            && (s.crs[uid].cr.Id().Some? && !Done(s', uid) ==> Shortens(s, s', url, limit))
    decreases |events|
  {
    if events != [] {
      var e, s1 := events[0], Step(s, events[0]);
      ReachedKeeps(s);
      ReachedStep(s, e);
      StumbleWorks(s, e, uid, url, limit);
      if Done(s1, uid) {
        DoneAfter(s1, events[1..], uid);
        ReachedAfter(s1, events[1..]);
      } else {
        if s.crs[uid].cr.Id().Some? {
          EventShortens(s, e, uid, url, limit);
        }
        StumblesWork(s1, events[1..], uid, url, limit);
      }
    }
  }

  lemma {:induction false} AsideAfter(s: State, events: seq<Event>, uid: Uid, url: string, limit: nat)
    requires Reached(s) && Working(s, uid, url) && Aside(uid, events)
    ensures var s' := After(s, events);
            && Reached(s') && Working(s', uid, url) && s'.crs[uid].phase == s.crs[uid].phase
            && s'.crs[uid].cr.Id() == s.crs[uid].cr.Id()
            && (s.crs[uid].cr.Id().Some? ==> Shortens(s, s', url, limit))
    decreases |events|
  {
    if events != [] {
      var e, s1 := events[0], Step(s, events[0]);
      assert !WorkOf(e, uid);
      assert Aside(uid, events[1..]) by {
        forall i | 0 <= i < |events[1..]| ensures !WorkOf(events[1..][i], uid) {
          assert events[1..][i] == events[i + 1];
        }
      }
      ReachedKeeps(s);
      ReachedStep(s, e);
      AsideWorks(s, e, uid, url);
      if s.crs[uid].cr.Id().Some? {
        EventShortens(s, e, uid, url, limit);
      }
      AsideAfter(s1, events[1..], uid, url, limit);
    }
  }

  /******* A round *******/

  // A faithful observation finalizes the resource unless its item is there, and then the worker
  // is about to delete it.
  lemma ObservePart(s: State, uid: Uid, answer: Answer, url: string)
    requires Reached(s) && Working(s, uid, url) && s.crs[uid].phase.Idle? && FaithfulAnswer(s, uid, answer)
    ensures var s' := Step(s, Event.Observe(uid, answer));
            && Reached(s')
            && (Done(s', uid)
                || (Working(s', uid, url) && s'.crs[uid].phase.ToDelete? && s'.crs[uid].cr.Id().Some?
                    && s'.remote == s.remote && url in s.remote))
  {
    ReachedKeeps(s);
    ReachedStep(s, Event.Observe(uid, answer));
    ObserveWorks(s, uid, answer, url);
    if s.crs[uid].cr.Id().Some? && Home(s, uid) in s.remote {
      HomeIsPosted(s, uid, url);
    }
  }

  // A faithful DELETE of the item leaves it gone or lingering.
  lemma RemovalPart(s: State, uid: Uid, answer: Answer, removal: Removal, url: string, limit: nat)
    requires Reached(s) && Working(s, uid, url) && s.crs[uid].phase.ToDelete? && s.crs[uid].cr.Id().Some?
    requires FaithfulRemoval(s, uid, answer, removal, limit)
    ensures var s' := Step(s, Event.Delete(uid, answer, removal));
            && Reached(s') && Working(s', uid, url) && s'.crs[uid].cr.Id().Some?
            && Remaining(s', url, limit) <= Remaining(s, url, limit) && !Serves(s', url)
  {
    ReachedStep(s, Event.Delete(uid, answer, removal));
    DeleteWorks(s, uid, answer, removal, url);
  }

  lemma AgeProgress(s: State, url: string, limit: nat)
    requires !Serves(s, url)
    ensures Remaining(Step(s, Age(url)), url, limit) <= Remaining(s, url, limit)
    ensures Remaining(s, url, limit) > 0 ==> Remaining(Step(s, Age(url)), url, limit) < Remaining(s, url, limit)
  {
  }

  // The end of a round, after its DELETE.
  lemma EndPart(s: State, uid: Uid, afterwards: seq<Event>, url: string, limit: nat)
    requires Reached(s) && Working(s, uid, url) && s.crs[uid].cr.Id().Some? && !Serves(s, url)
    requires Stumbles(uid, limit, s, afterwards)
    ensures var s' := Step(After(s, afterwards), Age(url));
            || Done(s', uid)
            || (&& Reached(s') && Working(s', uid, url) && s'.crs[uid].cr.Id().Some?
                && Remaining(s', url, limit) <= Remaining(s, url, limit)
                && (Remaining(s, url, limit) > 0 ==> Remaining(s', url, limit) < Remaining(s, url, limit)))
  {
    var s1 := After(s, afterwards);
    StumblesWork(s, afterwards, uid, url, limit);
    ReachedStep(s1, Age(url));
    if Done(s1, uid) {
      DoneStep(s1, Age(url), uid);
    } else {
      ReachedKeeps(s1);
      AsideWorks(s1, Age(url), uid, url);
      AgeProgress(s1, url, limit);
    }
  }

  // The middle of a round, from its observation to its DELETE.
  lemma MiddlePart(s: State, uid: Uid, observed: Answer, between: seq<Event>, answered: Answer, removal: Removal,
                   url: string, limit: nat)
    requires Reached(s) && Working(s, uid, url) && s.crs[uid].phase.Idle? && FaithfulAnswer(s, uid, observed)
    requires Aside(uid, between)
    requires FaithfulRemoval(After(Step(s, Event.Observe(uid, observed)), between), uid, answered, removal, limit)
    ensures var s1 := Step(s, Event.Observe(uid, observed));
            var s' := Step(After(s1, between), Event.Delete(uid, answered, removal));
            || Done(s1, uid)
            || (&& Reached(s') && Working(s', uid, url) && s'.crs[uid].cr.Id().Some? && url in s.remote
                && Remaining(s', url, limit) <= Remaining(s, url, limit) && !Serves(s', url))
  {
    ObservePart(s, uid, observed, url);
    var s1 := Step(s, Event.Observe(uid, observed));
    if !Done(s1, uid) {
      AsideAfter(s1, between, uid, url, limit);
      RemovalPart(After(s1, between), uid, answered, removal, url, limit);
    }
  }

  // A round from its observation on.
  lemma RestOfRound(s: State, uid: Uid, url: string, limit: nat, r: Round)
    requires Reached(s) && Working(s, uid, url) && s.crs[uid].phase.Idle?
    requires Faithful(s, uid, limit, r) && r.before == []
    ensures var s' := AfterRound(s, uid, url, r);
            || Done(s', uid)
            || (Reached(s') && Working(s', uid, url) && Remaining(s', url, limit) < Remaining(s, url, limit))
  {
    MiddlePart(s, uid, r.observed, r.between, r.answered, r.removal, url, limit);
    if Done(Observed(s, uid, r), uid) {
      DoneTail(s, uid, url, r);
    } else {
      EndPart(RemovalDone(s, uid, r), uid, r.afterwards, url, limit);
    }
  }

  // One faithful round finalizes the resource or strictly shortens what remains of its item.
  lemma RoundProgress(s: State, uid: Uid, url: string, limit: nat, r: Round)
    requires Reached(s) && Working(s, uid, url) && Faithful(s, uid, limit, r)
    ensures var s' := AfterRound(s, uid, url, r);
            || Done(s', uid)
            || (Reached(s') && Working(s', uid, url) && Remaining(s', url, limit) < Remaining(s, url, limit))
  {
    var s1, rest := After(s, r.before), r.(before := []);
    StumblesWork(s, r.before, uid, url, limit);
    BeforeIsSkipped(s, uid, url, limit, r);
    if Done(s1, uid) {
      DoneRound(s1, uid, url, rest);
    } else {
      RestOfRound(s1, uid, url, limit, rest);
      if !Done(AfterRound(s, uid, url, r), uid) {
        RemainingNeedsId(s1, uid, url, limit, rest);
      }
    }
  }

  lemma BeforeIsSkipped(s: State, uid: Uid, url: string, limit: nat, r: Round)
    requires Faithful(s, uid, limit, r)
    ensures var rest := r.(before := []);
            && Faithful(After(s, r.before), uid, limit, rest)
            && AfterRound(After(s, r.before), uid, url, rest) == AfterRound(s, uid, url, r)
  {
  }

  // A resource without an id is done after its round.
  lemma RemainingNeedsId(s: State, uid: Uid, url: string, limit: nat, r: Round)
    requires Reached(s) && Working(s, uid, url) && s.crs[uid].phase.Idle? && r.before == []
    requires Faithful(s, uid, limit, r) && !Done(AfterRound(s, uid, url, r), uid)
    ensures s.crs[uid].cr.Id().Some?
  {
    if s.crs[uid].cr.Id().None? {
      DoneTail(s, uid, url, r);
    }
  }

  // Once done at or after its observation, a round ends done.
  lemma DoneTail(s: State, uid: Uid, url: string, r: Round)
    requires Done(Step(s, Event.Observe(uid, r.observed)), uid) || Done(s, uid)
    ensures Done(Step(After(Step(After(Step(s, Event.Observe(uid, r.observed)), r.between),
                                 Event.Delete(uid, r.answered, r.removal)), r.afterwards), Age(url)), uid)
  {
    if Done(s, uid) {
      DoneStep(s, Event.Observe(uid, r.observed), uid);
    }
    var s1 := Step(s, Event.Observe(uid, r.observed));
    DoneAfter(s1, r.between, uid);
    DoneStep(After(s1, r.between), Event.Delete(uid, r.answered, r.removal), uid);
    var s2 := Step(After(s1, r.between), Event.Delete(uid, r.answered, r.removal));
    DoneAfter(s2, r.afterwards, uid);
    DoneStep(After(s2, r.afterwards), Age(url), uid);
  }

  // Once the deletion of a resource was requested, whenever its worker is at rest, more faithful
  // rounds than remain to its item finalize the resource, among any events of others, any edits of
  // its own spec, and any number of its own calls that fail, with or without effect.
  lemma {:induction false} DeletionConverges(events: seq<Event>, k: nat, uid: Uid, url: string, limit: nat,
                                             rounds: seq<Round>)
    requires k < |events| && events[k] == RequestDeletion(uid) && uid in Run(events[..k]).crs
    requires uid in Run(events).crs && Run(events).crs[uid].phase.Idle?
    requires Run(events).crs[uid].cr.Id().Some? ==> PostedAt(Run(events), uid, url)
    requires FaithfulRounds(Run(events), uid, url, limit, rounds)
    requires |rounds| > Remaining(Run(events), url, limit)
    ensures Done(AfterRounds(Run(events), uid, url, rounds), uid)
  {
    assert Reached(Run(events));
    assert History.RequestedAt(events, k, uid);
    History.DeletingIff(events, uid);
    RoundsConverge(Run(events), uid, url, limit, rounds);
  }

  // A recorded id has such an address.
  lemma HeldWasPosted(events: seq<Event>, uid: Uid) returns (url: string)
    requires uid in Run(events).crs && Run(events).crs[uid].cr.Id().Some?
    ensures PostedAt(Run(events), uid, url)
  {
    Reachable(events);
    var s := Run(events);
    assert TrackedOk(s, uid, s.crs[uid]);
    var id := s.crs[uid].cr.Id().value;
    var j :| 0 <= j < |s.log| && s.log[j].Posted? && s.log[j].uid == uid && s.log[j].id == id && s.log[j].acknowledged;
    url := ItemUrl(s.log[j].kind, s.log[j].scope, s.log[j].id);
    assert PostedHere(s.log[j], uid, id, url);
  }

  lemma {:induction false} RoundsConverge(s: State, uid: Uid, url: string, limit: nat, rounds: seq<Round>)
    requires Reached(s) && Working(s, uid, url)
    requires FaithfulRounds(s, uid, url, limit, rounds)
    requires |rounds| > Remaining(s, url, limit)
    ensures Done(AfterRounds(s, uid, url, rounds), uid)
    decreases |rounds|
  {
    RoundProgress(s, uid, url, limit, rounds[0]);
    var s' := AfterRound(s, uid, url, rounds[0]);
    if Done(s', uid) {
      DoneForever(s', uid, url, rounds[1..]);
    } else {
      RoundsConverge(s', uid, url, limit, rounds[1..]);
    }
  }

  lemma {:induction false} DoneForever(s: State, uid: Uid, url: string, rounds: seq<Round>)
    requires Done(s, uid)
    ensures Done(AfterRounds(s, uid, url, rounds), uid)
    decreases |rounds|
  {
    if rounds != [] {
      DoneRound(s, uid, url, rounds[0]);
      DoneForever(AfterRound(s, uid, url, rounds[0]), uid, url, rounds[1..]);
    }
  }
}
