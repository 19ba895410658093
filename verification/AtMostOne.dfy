// How many live remote resources one custom resource has.
module AtMostOne {
  import opened Wrappers
  import opened Urls
  import opened Api
  import opened Lifecycle
  import opened World
  import opened Conservation
  import opened Guarantees

  // Where a logged Create posted.
  function EntryUrl(s: State, i: nat): string
    requires i < |s.log| && s.log[i].Posted?
  {
    ItemUrl(s.log[i].kind, s.log[i].scope, s.log[i].id)
  }

  // The resource that a logged Create made is live.
  predicate StillLive(s: State, i: nat)
    requires i < |s.log| && s.log[i].Posted?
  {
    EntryUrl(s, i) in s.remote && s.remote[EntryUrl(s, i)].origin == Made(i)
  }

  // The logged Creates of a resource that are live.
  function LiveCreations(s: State, uid: Uid): set<nat> {
    set i: nat | i < |s.log| && s.log[i].Posted? && s.log[i].uid == uid && StillLive(s, i)
  }

  // The logged Creates of a resource that returned an error although they took effect.
  function LostCreations(s: State, uid: Uid): set<nat> {
    set i: nat | i < |s.log| && s.log[i].Posted? && s.log[i].uid == uid && !s.log[i].acknowledged
  }

  function LiveLost(s: State, uid: Uid): set<nat> {
    LiveCreations(s, uid) * LostCreations(s, uid)
  }

  // An item is where the resource looks for it.
  predicate AtHome(s: State, uid: Uid) {
    uid in s.crs && Address(s.crs[uid].cr).Some? && Address(s.crs[uid].cr).value in s.remote
  }

  // The logged Create, if any, of what is where the resource looks.
  function HomeCreation(s: State, uid: Uid): set<nat> {
    if AtHome(s, uid) then
      match s.remote[Address(s.crs[uid].cr).value].origin
      case Made(i) => {i}
      case Elsewhere => {}
    else {}
  }

  /******* Live creations *******/

  // Live creations that are not lost are of the id that is held.
  lemma KeptIsHeld(s: State, uid: Uid, i: nat)
    requires FaithfulInv(s) && i in LiveCreations(s, uid) && i !in LostCreations(s, uid)
    ensures Holds(s, uid, s.log[i].id) && AtHome(s, uid)
  {
    var url := ItemUrl(s.log[i].kind, s.log[i].scope, s.log[i].id);
    LiveIsHeldIff(s, url);
    assert LiveOk(s, url, s.remote[url]);
    HeldItemIsAtItsAddress(s, uid, url);
  }

  // What is at home is a live creation that is not lost.
  lemma HomeIsKept(s: State, uid: Uid) returns (i: nat)
    requires Inv(s) && AtHome(s, uid)
    ensures i in LiveCreations(s, uid) && i !in LostCreations(s, uid)
    ensures Some(EntryUrl(s, i)) == Address(s.crs[uid].cr) && HomeCreation(s, uid) == {i}
  {
    var cr := s.crs[uid].cr;
    var url, id := Address(cr).value, cr.Id().value;
    var l := s.remote[url];
    assert TrackedOk(s, uid, s.crs[uid]) && LiveOk(s, url, l);
    ItemUrlInjective(l.kind, l.scope, l.id, cr.spec.Kind(), cr.spec.Scope(), id);
    i :| 0 <= i < |s.log| && s.log[i].Posted? && s.log[i].uid == uid && s.log[i].id == id && s.log[i].acknowledged;
    assert l.origin == Made(i);
  }

  lemma KeptIsUnique(s: State, uid: Uid, i: nat, j: nat)
    requires FaithfulInv(s)
    requires i in LiveCreations(s, uid) && i !in LostCreations(s, uid)
    requires j in LiveCreations(s, uid) && j !in LostCreations(s, uid)
    ensures i == j
  {
    KeptIsHeld(s, uid, i);
    KeptIsHeld(s, uid, j);
    PostedIdsDiffer(s, i, j);
  }

  lemma PostedIdsDiffer(s: State, i: nat, j: nat)
    requires Inv(s) && i < |s.log| && j < |s.log| && s.log[i].Posted? && s.log[j].Posted?
    requires s.log[i].uid == s.log[j].uid && s.log[i].id == s.log[j].id
    ensures i == j
  {
  }

  lemma KeptIsHome(s: State, uid: Uid)
    requires FaithfulInv(s)
    ensures LiveCreations(s, uid) - LostCreations(s, uid) == HomeCreation(s, uid)
    ensures AtHome(s, uid) <==> HomeCreation(s, uid) != {}
  {
    if AtHome(s, uid) {
      var i := HomeIsKept(s, uid);
      forall j | j in LiveCreations(s, uid) && j !in LostCreations(s, uid) ensures j == i {
        KeptIsUnique(s, uid, i, j);
      }
    } else {
      forall j | j in LiveCreations(s, uid) && j !in LostCreations(s, uid) ensures false {
        KeptIsHeld(s, uid, j);
      }
    }
  }

  // With honest services and settled projects, the live remote resources of a custom resource are
  // exactly those its lost Creates made and are still there, and the one at home if it is there.
  lemma LiveCreationsAre(events: seq<Event>, uid: Uid)
    requires Always(HonestAndSettled, EMPTY, events)
    ensures var s := Run(events);
            && LiveCreations(s, uid) == LiveLost(s, uid) + HomeCreation(s, uid)
            && LiveLost(s, uid) !! HomeCreation(s, uid)
            && (AtHome(s, uid) <==> HomeCreation(s, uid) != {})
  {
    FaithfulAfter(EMPTY, events);
    KeptIsHome(Run(events), uid);
  }

  // All that a finalized resource leaves live is what its lost Creates made.
  lemma FinalizedLeavesOnlyLost(events: seq<Event>, uid: Uid)
    requires Always(HonestAndSettled, EMPTY, events)
    requires uid in Run(events).crs && Run(events).crs[uid].phase.Finalized?
    ensures LiveCreations(Run(events), uid) <= LostCreations(Run(events), uid)
  {
    FaithfulAfter(EMPTY, events);
    var s := Run(events);
    assert TrackedOk(s, uid, s.crs[uid]);
    forall i | i in LiveCreations(s, uid) ensures i in LostCreations(s, uid) {
      if i !in LostCreations(s, uid) {
        KeptIsHeld(s, uid, i);
        HeldIsNotGone(s, i);
      }
    }
  }

  lemma HeldIsNotGone(s: State, i: nat)
    requires FaithfulInv(s) && i < |s.log| && s.log[i].Posted? && StillLive(s, i)
    ensures !ReportedGone(s.log, s.log[i].uid, s.log[i].id)
  {
    var url := ItemUrl(s.log[i].kind, s.log[i].scope, s.log[i].id);
    assert LiveOk(s, url, s.remote[url]);
    assert Is(s.remote[url], s.crs[s.log[i].uid].cr.spec.Kind(), s.log[i].id);
  }

  /******* Soundness *******/

  // What an event leaves at an address was there, or is of a third party or of a new entry.
  lemma OriginIsOld(s: State, e: Event, url: string)
    requires url in Step(s, e).remote
    ensures var origin := Step(s, e).remote[url].origin;
            (url in s.remote && s.remote[url].origin == origin) || origin.Elsewhere? || origin == Made(|s.log|)
  {
  }

  // Only an effective Create of its own adds a live creation.
  lemma LiveStep(s: State, e: Event, uid: Uid)
    ensures LiveCreations(Step(s, e), uid) <=
            LiveCreations(s, uid) + if TakesEffect(s, e) && e.uid == uid then {|s.log|} else {}
  {
    var s' := Step(s, e);
    LogStep(s, e);
    forall i | i in LiveCreations(s', uid) && i < |s.log| ensures i in LiveCreations(s, uid) {
      assert s'.log[i] == s.log[i];
      OriginIsOld(s, e, EntryUrl(s, i));
    }
  }

  lemma SubsetSize(a: set<nat>, b: set<nat>)
    requires a <= b
    ensures |a| <= |b|
  {
    assert b == a + (b - a);
  }

  // A worker is about to post.
  predicate Pending(s: State, uid: Uid) {
    uid in s.crs && s.crs[uid].phase.ToCreate? && BuildRequest(s.crs[uid].phase.read).Some?
  }

  // All that is live of the resource's is where it looks.
  predicate AllAtHome(s: State, uid: Uid)
    requires uid in s.crs
  {
    forall i :: i in LiveCreations(s, uid) ==> Some(EntryUrl(s, i)) == Address(s.crs[uid].cr)
  }

  // Nothing is live elsewhere than where the resource looks, and if its worker is about to post,
  // nothing is live and the item will be where the resource looks. One that is being deleted has
  // at most one, counting the one about to be posted.
  predicate Sound(s: State, uid: Uid) {
    uid in s.crs ==>
      if s.crs[uid].deleting then
        |LiveCreations(s, uid)| + (if Pending(s, uid) then 1 else 0) <= 1
      else
        && AllAtHome(s, uid)
        && (Pending(s, uid) ==>
              LiveCreations(s, uid) == {} && s.crs[uid].phase.read.Scope() == s.crs[uid].cr.spec.Scope())
  }

  lemma SoundIsAtMostOne(s: State, uid: Uid)
    requires Inv(s) && Sound(s, uid)
    ensures |LiveCreations(s, uid)| <= 1
  {
    if uid in s.crs && !s.crs[uid].deleting && LiveCreations(s, uid) != {} {
      var i :| i in LiveCreations(s, uid);
      forall j | j in LiveCreations(s, uid) ensures j == i {
        assert EntryUrl(s, i) == EntryUrl(s, j);
      }
      assert LiveCreations(s, uid) == {i};
    } else if uid !in s.crs {
      assert LiveCreations(s, uid) == {};
    }
  }

  // What a harmless event other than an observation or a creation of this resource does to it.
  lemma QuietStep(s: State, e: Event, uid: Uid)
    requires uid in s.crs && Enabled(s, e) && Settled(s, e)
    requires !(e.Observe? && e.uid == uid) && !(e.Create? && e.uid == uid)
    ensures uid in Step(s, e).crs
    ensures var t, t' := s.crs[uid], Step(s, e).crs[uid];
            && Address(t'.cr) == Address(t.cr) && t'.cr.spec.Scope() == t.cr.spec.Scope()
            && (t.deleting ==> t'.deleting) && (t'.phase == t.phase || t'.phase.Idle?)
  {
  }

  lemma QuietIsSound(s: State, e: Event, uid: Uid)
    requires Sound(s, uid) && Inv(s) && uid in s.crs && Enabled(s, e) && Settled(s, e)
    requires !(e.Observe? && e.uid == uid) && !(e.Create? && e.uid == uid)
    ensures Sound(Step(s, e), uid)
  {
    var s' := Step(s, e);
    QuietStep(s, e, uid);
    LiveStep(s, e, uid);
    SubsetSize(LiveCreations(s', uid), LiveCreations(s, uid));
    SoundIsAtMostOne(s, uid);
    LogStep(s, e);
    assert forall i :: i in LiveCreations(s', uid) ==> EntryUrl(s', i) == EntryUrl(s, i);
  }

  lemma ObserveIsSound(s: State, uid: Uid, answer: Answer)
    requires Sound(s, uid) && Enabled(s, Event.Observe(uid, answer)) && Honest(s, Event.Observe(uid, answer))
    ensures Sound(Step(s, Event.Observe(uid, answer)), uid)
  {
    var e := Event.Observe(uid, answer);
    var s' := Step(s, e);
    LiveStep(s, e, uid);
    SubsetSize(LiveCreations(s', uid), LiveCreations(s, uid));
    LogStep(s, e);
    assert forall i :: i in LiveCreations(s', uid) ==> EntryUrl(s', i) == EntryUrl(s, i);
    assert s'.crs[uid].cr.spec == s.crs[uid].cr.spec && Address(s'.crs[uid].cr) == Address(s.crs[uid].cr);
  }

  lemma CreateIsSound(s: State, e: Event, uid: Uid)
    requires e.Create? && e.uid == uid && Enabled(s, e) && NothingLost(s, e)
    requires Sound(s, uid) && TrackedOk(s, uid, s.crs[uid])
    ensures Sound(Step(s, e), uid)
  {
    var s' := Step(s, e);
    LiveStep(s, e, uid);
    LogStep(s, e);
    if e.effect.Some? {
      SubsetSize(LiveCreations(s', uid), LiveCreations(s, uid) + {|s.log|});
      assert EntryUrl(s', |s.log|) == ItemUrl(s.crs[uid].phase.read.Kind(), s.crs[uid].phase.read.Scope(), e.effect.value);
    } else {
      SubsetSize(LiveCreations(s', uid), LiveCreations(s, uid));
      assert forall i :: i in LiveCreations(s', uid) ==> EntryUrl(s', i) == EntryUrl(s, i);
    }
  }

  lemma NewIsSound(s: State, e: Event, uid: Uid)
    requires LogOk(s) && uid !in s.crs
    ensures Sound(Step(s, e), uid)
  {
    LiveStep(s, e, uid);
    assert LiveCreations(s, uid) == {};
    assert !(TakesEffect(s, e) && e.uid == uid);
    assert LiveCreations(Step(s, e), uid) == {};
    if uid in Step(s, e).crs {
      assert e.Submit? && Step(s, e).crs[uid] == Tracked(Cr(e.spec, e.annotations, "", false), false, Idle);
    }
  }

  lemma SoundStep(s: State, e: Event, uid: Uid)
    requires Inv(s) && Sound(s, uid) && NoHarm(s, e)
    ensures Sound(Step(s, e), uid)
  {
    if uid !in s.crs {
      NewIsSound(s, e, uid);
    } else if Enabled(s, e) {
      assert TrackedOk(s, uid, s.crs[uid]);
      if e.Observe? && e.uid == uid {
        ObserveIsSound(s, uid, e.answer);
      } else if e.Create? && e.uid == uid {
        CreateIsSound(s, e, uid);
      } else {
        QuietIsSound(s, e, uid);
      }
    }
  }

  lemma {:induction false} SoundAfter(s: State, events: seq<Event>, uid: Uid)
    requires Inv(s) && Sound(s, uid) && Always(NoHarm, s, events)
    ensures |LiveCreations(After(s, events), uid)| <= 1
    decreases |events|
  {
    if events == [] {
      SoundIsAtMostOne(s, uid);
    } else {
      StepKeeps(s, events[0]);
      SoundStep(s, events[0], uid);
      SoundAfter(Step(s, events[0]), events[1..], uid);
    }
  }

  /******* Two live creations *******/

  // An id that no service has issued yet: longer than all that are.
  lemma {:induction false} LongerThanAll(issued: set<(Kind, string)>) returns (n: nat)
    ensures forall kind, id :: (kind, id) in issued ==> |id| < n
  {
    if issued == {} {
      n := 0;
    } else {
      var x :| x in issued;
      n := LongerThanAll(issued - {x});
      n := if n > |x.1| then n else |x.1| + 1;
      forall kind, id | (kind, id) in issued ensures |id| < n {
        assert (kind, id) == x || (kind, id) in issued - {x};
      }
    }
  }

  lemma FreshId(s: State) returns (id: string)
    ensures forall kind :: Issuable(s, kind, id)
  {
    var n := LongerThanAll(s.issued);
    id := seq(n, _ => 'a');
  }

  // A spec of the same kind and project that has something to post.
  function Postable(spec: Spec): (r: Spec)
    ensures r.Kind() == spec.Kind() && r.Scope() == spec.Scope() && BuildRequest(r).Some?
  {
    if spec.VolumeSpec? then VolumeSpec(spec.volume.(schedulerHints := Some([SchedulerHints(None)]))) else spec
  }

  // A harmless continuation that ends a pending Create without effect, and one that creates.
  function Settle(spec: Spec, uid: Uid): seq<Event> {
    [EditSpec(uid, Postable(spec)), Event.Create(uid, Broken, None, "")]
  }

  function Recreate(uid: Uid, id: string): seq<Event> {
    [Event.Observe(uid, Answered(404, Some(Body("", "")))),
     Event.Create(uid, Answered(200, Some(Body(id, ""))), Some(id), "")]
  }

  lemma {:induction false} AlwaysConcat(p: (State, Event) -> bool, s: State, before: seq<Event>, after: seq<Event>)
    requires Always(p, s, before) && Always(p, After(s, before), after)
    ensures Always(p, s, before + after)
    decreases |before|
  {
    if before == [] {
      assert before + after == after;
    } else {
      assert (before + after)[1..] == before[1..] + after;
      AlwaysConcat(p, Step(s, before[0]), before[1..], after);
    }
  }

  lemma OneEvent(p: (State, Event) -> bool, s: State, e: Event)
    ensures After(s, [e]) == Step(s, e)
    ensures p(s, e) ==> Always(p, s, [e])
  {
    assert [e][1..] == [];
    assert After(Step(s, e), []) == Step(s, e);
  }

  lemma TwoEvents(p: (State, Event) -> bool, s: State, e: Event, e': Event)
    ensures After(s, [e, e']) == Step(Step(s, e), e')
    ensures p(s, e) && p(Step(s, e), e') ==> Always(p, s, [e, e'])
  {
    assert [e, e'][1..] == [e'] && [e'][1..] == [];
    assert After(Step(s, e), [e']) == After(Step(Step(s, e), e'), []);
  }

  // After a Create without effect the worker is at rest.
  lemma BrokenCreate(s: State, uid: Uid)
    requires uid in s.crs && (s.crs[uid].phase.Idle? || s.crs[uid].phase.ToCreate?)
    ensures var e := Event.Create(uid, Broken, None, "");
            && Step(s, e) == s.(crs := s.crs[uid := s.crs[uid].(phase := Idle)]) && NoHarm(s, e)
  {
  }

  lemma AfterSettle(s: State, uid: Uid)
    requires Inv(s) && uid in s.crs && !s.crs[uid].deleting
    ensures var more := Settle(s.crs[uid].cr.spec, uid);
            var s' := After(s, more);
            && Always(NoHarm, s, more)
            && s' == s.(crs := s'.crs) && uid in s'.crs && !s'.crs[uid].deleting && s'.crs[uid].phase.Idle?
            && BuildRequest(s'.crs[uid].cr.spec).Some? && Address(s'.crs[uid].cr) == Address(s.crs[uid].cr)
            && RemoteOk(s') && LiveCreations(s', uid) == LiveCreations(s, uid)
  {
    var spec := s.crs[uid].cr.spec;
    var e, e' := EditSpec(uid, Postable(spec)), Event.Create(uid, Broken, None, "");
    assert TrackedOk(s, uid, s.crs[uid]);
    var s1 := Step(s, e);
    assert s1 == s.(crs := s.crs[uid := s.crs[uid].(cr := s.crs[uid].cr.(spec := Postable(spec)))]);
    BrokenCreate(s1, uid);
    TwoEvents(NoHarm, s, e, e');
    StepKeeps(s, e);
    StepKeeps(s1, e');
  }

  // A postable resource with nothing at home, looked at and created again.
  lemma Recreated(s: State, uid: Uid, id: string)
    requires uid in s.crs && !s.crs[uid].deleting && s.crs[uid].phase.Idle?
    requires BuildRequest(s.crs[uid].cr.spec).Some? && !AtHome(s, uid)
    requires Issuable(s, s.crs[uid].cr.spec.Kind(), id)
    ensures var more := Recreate(uid, id);
            var s' := After(s, more);
            && Always(NoHarm, s, more)
            && s.log <= s'.log && (forall url :: url in s.remote && url != NewUrl(s, uid, id) ==>
                 url in s'.remote && s'.remote[url] == s.remote[url])
            && exists i :: |s.log| <= i < |s'.log| && i in LiveCreations(s', uid)
  {
    var e, e' := Recreate(uid, id)[0], Recreate(uid, id)[1];
    MissIsHarmless(s, uid);
    CreateSucceeds(Step(s, e), uid, id);
    TwoEvents(NoHarm, s, e, e');
  }

  lemma MissIsHarmless(s: State, uid: Uid)
    requires uid in s.crs && !s.crs[uid].deleting && s.crs[uid].phase.Idle? && !AtHome(s, uid)
    ensures var e := Event.Observe(uid, Answered(404, Some(Body("", ""))));
            var s' := Step(s, e);
            && NoHarm(s, e) && s.log <= s'.log && s'.remote == s.remote && s'.issued == s.issued
            && uid in s'.crs && s'.crs[uid].phase == ToCreate(s.crs[uid].cr.spec)
  {
  }

  lemma CreateSucceeds(s: State, uid: Uid, id: string)
    requires uid in s.crs && s.crs[uid].phase.ToCreate? && BuildRequest(s.crs[uid].phase.read).Some?
    requires Issuable(s, s.crs[uid].phase.read.Kind(), id)
    ensures var e := Event.Create(uid, Answered(200, Some(Body(id, ""))), Some(id), "");
            var s' := Step(s, e);
            var read := s.crs[uid].phase.read;
            && NoHarm(s, e) && s.log <= s'.log && |s.log| in LiveCreations(s', uid)
            && (forall url :: url in s.remote && url != ItemUrl(read.Kind(), read.Scope(), id) ==>
                  url in s'.remote && s'.remote[url] == s.remote[url])
  {
    var s' := Step(s, Event.Create(uid, Answered(200, Some(Body(id, ""))), Some(id), ""));
    assert s'.log[|s.log|].Posted?;
  }

  function NewUrl(s: State, uid: Uid, id: string): string
    requires uid in s.crs
  {
    ItemUrl(s.crs[uid].cr.spec.Kind(), s.crs[uid].cr.spec.Scope(), id)
  }

  lemma RecreatedBeside(s: State, uid: Uid, id: string, i: nat)
    requires RemoteOk(s) && uid in s.crs && !s.crs[uid].deleting && s.crs[uid].phase.Idle?
    requires BuildRequest(s.crs[uid].cr.spec).Some? && !AtHome(s, uid)
    requires Issuable(s, s.crs[uid].cr.spec.Kind(), id)
    requires i in LiveCreations(s, uid)
    ensures Always(NoHarm, s, Recreate(uid, id)) && |LiveCreations(After(s, Recreate(uid, id)), uid)| >= 2
  {
    FreshUrl(s, s.crs[uid].cr.spec.Kind(), s.crs[uid].cr.spec.Scope(), id);
    Recreated(s, uid, id);
    var s' := After(s, Recreate(uid, id));
    var j :| |s.log| <= j < |s'.log| && j in LiveCreations(s', uid);
    assert s'.log[i] == s.log[i];
    TwoElements(LiveCreations(s', uid), i, j);
  }

  lemma SettledAndRecreated(s: State, uid: Uid, i: nat) returns (more: seq<Event>)
    requires Inv(s) && uid in s.crs && !s.crs[uid].deleting && !AtHome(s, uid) && i in LiveCreations(s, uid)
    ensures Always(NoHarm, s, more) && |LiveCreations(After(s, more), uid)| >= 2
  {
    var before := Settle(s.crs[uid].cr.spec, uid);
    AfterSettle(s, uid);
    var s1 := After(s, before);
    var id := FreshId(s1);
    RecreatedBeside(s1, uid, id, i);
    AlwaysConcat(NoHarm, s, before, Recreate(uid, id));
    AfterConcat(s, before, Recreate(uid, id));
    more := before + Recreate(uid, id);
  }

  // A pending Create joins what is live.
  lemma PendingJoins(s: State, uid: Uid, i: nat) returns (more: seq<Event>)
    requires RemoteOk(s) && Pending(s, uid) && i in LiveCreations(s, uid)
    ensures Always(NoHarm, s, more) && |LiveCreations(After(s, more), uid)| >= 2
  {
    var read := s.crs[uid].phase.read;
    var id := FreshId(s);
    var e := Event.Create(uid, Answered(200, Some(Body(id, ""))), Some(id), "");
    FreshUrl(s, read.Kind(), read.Scope(), id);
    CreateSucceeds(s, uid, id);
    OneEvent(NoHarm, s, e);
    var s' := Step(s, e);
    assert s'.log[i] == s.log[i];
    TwoElements(LiveCreations(s', uid), i, |s.log|);
    more := [e];
  }

  // What is live elsewhere than where the resource looks is joined by what is there or will be.
  lemma StrayIsJoined(s: State, uid: Uid, i: nat) returns (more: seq<Event>)
    requires Inv(s) && uid in s.crs && !s.crs[uid].deleting
    requires i in LiveCreations(s, uid) && Some(EntryUrl(s, i)) != Address(s.crs[uid].cr)
    ensures Always(NoHarm, s, more) && |LiveCreations(After(s, more), uid)| >= 2
  {
    if AtHome(s, uid) {
      var j := HomeIsKept(s, uid);
      TwoElements(LiveCreations(s, uid), i, j);
      more := [];
    } else {
      more := SettledAndRecreated(s, uid, i);
    }
  }

  // A Create that is to post in another project than the spec now names leaves its item astray.
  lemma PendingGoesAstray(s: State, uid: Uid) returns (more: seq<Event>)
    requires Inv(s) && Pending(s, uid) && !s.crs[uid].deleting
    requires s.crs[uid].phase.read.Scope() != s.crs[uid].cr.spec.Scope()
    ensures Always(NoHarm, s, more) && |LiveCreations(After(s, more), uid)| >= 2
  {
    var id := FreshId(s);
    var e := Event.Create(uid, Answered(200, Some(Body(id, ""))), Some(id), "");
    var s' := Step(s, e);
    CreateSucceeds(s, uid, id);
    OneEvent(NoHarm, s, e);
    StepKeeps(s, e);
    AstrayUrl(s, uid, id);
    var rest := StrayIsJoined(s', uid, |s.log|);
    AlwaysConcat(NoHarm, s, [e], rest);
    AfterConcat(s, [e], rest);
    more := [e] + rest;
  }

  lemma AstrayUrl(s: State, uid: Uid, id: string)
    requires Pending(s, uid) && TrackedOk(s, uid, s.crs[uid]) && Issuable(s, s.crs[uid].phase.read.Kind(), id)
    requires s.crs[uid].phase.read.Scope() != s.crs[uid].cr.spec.Scope()
    ensures var s' := Step(s, Event.Create(uid, Answered(200, Some(Body(id, ""))), Some(id), ""));
            && uid in s'.crs && s'.crs[uid].deleting == s.crs[uid].deleting
            && |s'.log| == |s.log| + 1 && s'.log[|s.log|].Posted?
            && Some(EntryUrl(s', |s.log|)) != Address(s'.crs[uid].cr)
  {
    var read, spec := s.crs[uid].phase.read, s.crs[uid].cr.spec;
    ItemUrlInjective(read.Kind(), read.Scope(), id, spec.Kind(), spec.Scope(), id);
  }

  // Whatever is not sound leads to two live creations, without any harm.
  lemma UnsoundIsJoined(s: State, uid: Uid) returns (more: seq<Event>)
    requires Inv(s) && !Sound(s, uid)
    ensures Always(NoHarm, s, more) && |LiveCreations(After(s, more), uid)| >= 2
  {
    if Pending(s, uid) && LiveCreations(s, uid) != {} {
      var i :| i in LiveCreations(s, uid);
      more := PendingJoins(s, uid, i);
    } else if s.crs[uid].deleting {
      more := [];
    } else if !AllAtHome(s, uid) {
      var i :| i in LiveCreations(s, uid) && Some(EntryUrl(s, i)) != Address(s.crs[uid].cr);
      more := StrayIsJoined(s, uid, i);
    } else {
      more := PendingGoesAstray(s, uid);
    }
  }

  lemma TwoElements(a: set<nat>, i: nat, j: nat)
    requires i in a && j in a && i != j
    ensures |a| >= 2
  {
    assert {i, j} <= a;
    assert a == {i, j} + (a - {i, j});
  }

  /******* At most one *******/

  // In every run, after whatever harm, a custom resource has at most one live remote resource from
  // now on, as long as nothing harmful happens, exactly when it is sound.
  lemma AtMostOneIff(events: seq<Event>, uid: Uid)
    ensures var s := Run(events);
            (forall more :: Always(NoHarm, s, more) ==> |LiveCreations(After(s, more), uid)| <= 1) <==> Sound(s, uid)
  {
    Reachable(events);
    var s := Run(events);
    if Sound(s, uid) {
      forall more | Always(NoHarm, s, more) ensures |LiveCreations(After(s, more), uid)| <= 1 {
        SoundAfter(s, more, uid);
      }
    } else {
      var _ := UnsoundIsJoined(s, uid);
    }
  }

  // In a run in which nothing harmful happens there is never more than one.
  lemma AtMostOneLive(events: seq<Event>, uid: Uid)
    requires Always(NoHarm, EMPTY, events)
    ensures |LiveCreations(Run(events), uid)| <= 1
  {
    Reachable([]);
    SoundAfter(EMPTY, events, uid);
  }

  // With honest services and settled projects so far, what is not sound is what is lost.
  lemma SoundIffNoneLost(s: State, uid: Uid)
    requires FaithfulInv(s) && uid in s.crs && !s.crs[uid].deleting
    ensures Sound(s, uid) <==> LiveLost(s, uid) == {}
  {
    assert TrackedOk(s, uid, s.crs[uid]);
    if LiveLost(s, uid) == {} {
      forall i | i in LiveCreations(s, uid)
        ensures Some(EntryUrl(s, i)) == Address(s.crs[uid].cr) && !s.crs[uid].phase.ToCreate?
      {
        assert i !in LiveLost(s, uid);
        KeptIsAtHome(s, uid, i);
        HeldIsNotGone(s, i);
      }
      if Pending(s, uid) {
        assert Read(s.crs[uid], s.crs[uid].phase.read);
      }
    } else {
      var i :| i in LiveLost(s, uid);
      if AtHome(s, uid) {
        var _ := HomeIsKept(s, uid);
      }
    }
  }

  lemma KeptIsAtHome(s: State, uid: Uid, i: nat)
    requires FaithfulInv(s) && i in LiveCreations(s, uid) && i !in LostCreations(s, uid)
    ensures Holds(s, uid, s.log[i].id) && Some(EntryUrl(s, i)) == Address(s.crs[uid].cr)
  {
    KeptIsHeld(s, uid, i);
    assert LiveOk(s, EntryUrl(s, i), s.remote[EntryUrl(s, i)]);
    HeldItemIsAtItsAddress(s, uid, EntryUrl(s, i));
  }

  // So there, exactly when nothing that a lost Create made is live.
  lemma AtMostOneIffNoneLost(events: seq<Event>, uid: Uid)
    requires Always(HonestAndSettled, EMPTY, events)
    requires uid in Run(events).crs && !Run(events).crs[uid].deleting
    ensures var s := Run(events);
            (forall more :: Always(NoHarm, s, more) ==> |LiveCreations(After(s, more), uid)| <= 1)
            <==> LiveCreations(s, uid) * LostCreations(s, uid) == {}
  {
    FaithfulAfter(EMPTY, events);
    AtMostOneIff(events, uid);
    SoundIffNoneLost(Run(events), uid);
  }
}
