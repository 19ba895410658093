// Where a live remote resource comes from: the events of the run that made it.
module Provenance {
  import opened Urls
  import opened Api
  import opened Lifecycle
  import opened World
  import opened Conservation
  import opened Guarantees
  import opened Traces

  predicate TakesEffectAt(events: seq<Event>, k: nat)
    requires k < |events|
  {
    TakesEffect(Run(events[..k]), events[k])
  }

  // The spec a Create of a run works from.
  function ReadAt(events: seq<Event>, k: nat): Spec
    requires k < |events| && TakesEffectAt(events, k)
  {
    Run(events[..k]).crs[events[k].uid].phase.read
  }

  // What a Create of a run logs.
  function EntryOf(events: seq<Event>, k: nat): Entry
    requires k < |events| && TakesEffectAt(events, k)
  {
    var read := ReadAt(events, k);
    Posted(events[k].uid, read.Kind(), read.Scope(), events[k].effect.value, BuildRequest(read).value,
           Accepts(events[k].answer))
  }

  predicate MissesAt(events: seq<Event>, k: nat, uid: Uid, id: string)
    requires k < |events|
  {
    Misses(Run(events[..k]), events[k], uid, id)
  }

  /******* The log and the run *******/

  lemma PrefixRun(events: seq<Event>, k: nat)
    requires k < |events|
    ensures Run(events[..k + 1]) == Step(Run(events[..k]), events[k])
  {
    RunSnoc(events[..k + 1]);
    assert events[..k + 1][..k] == events[..k];
  }

  // Every entry of the log was written by one event of the run.
  lemma {:induction false} EntryHasEvent(events: seq<Event>, i: nat) returns (k: nat)
    requires i < |Run(events).log|
    ensures k < |events| && |Run(events[..k]).log| == i
    ensures Run(events).log[i].Posted? ==> TakesEffectAt(events, k) && EntryOf(events, k) == Run(events).log[i]
    ensures Run(events).log[i].Gone? ==> MissesAt(events, k, Run(events).log[i].uid, Run(events).log[i].id)
    decreases |events|
  {
    assert events != [];
    var n := |events| - 1;
    var front := events[..n];
    RunSnoc(events);
    LogStep(Run(front), events[n]);
    if i < |Run(front).log| {
      k := EntryHasEvent(front, i);
      PrefixOfFront(events, k);
    } else {
      k := n;
    }
  }

  // The log only grows.
  lemma {:induction false} LogGrows(events: seq<Event>, k: nat)
    requires k <= |events|
    ensures Run(events[..k]).log <= Run(events).log
    decreases |events| - k
  {
    if k == |events| {
      assert events[..k] == events;
    } else {
      PrefixRun(events, k);
      LogStep(Run(events[..k]), events[k]);
      LogGrows(events, k + 1);
    }
  }

  lemma LogGrowsBetween(events: seq<Event>, k: nat, m: nat)
    requires k <= m <= |events|
    ensures Run(events[..k]).log <= Run(events[..m]).log
  {
    LogGrows(events[..m], k);
    assert events[..m][..k] == events[..k];
  }

  lemma EffectIsLogged(events: seq<Event>, k: nat)
    requires k < |events| && TakesEffectAt(events, k)
    ensures |Run(events[..k]).log| < |Run(events).log|
    ensures Run(events).log[|Run(events[..k]).log|] == EntryOf(events, k)
  {
    PrefixRun(events, k);
    LogStep(Run(events[..k]), events[k]);
    LogGrows(events, k + 1);
  }

  // No two Creates of a run took effect with one id of one kind.
  lemma EffectsDiffer(events: seq<Event>, k: nat, k': nat)
    requires k < |events| && k' < |events| && TakesEffectAt(events, k) && TakesEffectAt(events, k')
    requires Posts(EntryOf(events, k), EntryOf(events, k').kind, EntryOf(events, k').id)
    ensures k == k'
  {
    Reachable(events);
    EffectIsLogged(events, k);
    EffectIsLogged(events, k');
    if k < k' {
      LoggedAfter(events, k, k');
    } else if k' < k {
      LoggedAfter(events, k', k);
    }
  }

  lemma LoggedAfter(events: seq<Event>, k: nat, m: nat)
    requires k < m <= |events| && TakesEffectAt(events, k)
    ensures |Run(events[..k]).log| < |Run(events[..m]).log|
  {
    PrefixRun(events, k);
    LogStep(Run(events[..k]), events[k]);
    LogGrowsBetween(events, k + 1, m);
  }

  /******* The spec a Create works from *******/

  // The observation that a pending Create follows, with no other step of its worker in between.
  predicate Precedes(events: seq<Event>, j: nat, uid: Uid, read: Spec) {
    && j < |events| && events[j].Observe? && events[j].uid == uid && Enabled(Run(events[..j]), events[j])
    && Run(events[..j]).crs[uid].cr.spec == read
    && forall m :: j < m < |events| ==> !WorksAt(events, m, uid)
  }

  predicate WorksAt(events: seq<Event>, m: nat, uid: Uid)
    requires m < |events|
  {
    WorkOf(events[m], uid) && Enabled(Run(events[..m]), events[m])
  }

  lemma PhaseStep(s: State, e: Event, uid: Uid, read: Spec)
    requires uid in Step(s, e).crs && Step(s, e).crs[uid].phase == ToCreate(read)
    ensures || (e.Observe? && e.uid == uid && Enabled(s, e) && s.crs[uid].cr.spec == read)
            || (uid in s.crs && s.crs[uid].phase == ToCreate(read) && !(WorkOf(e, uid) && Enabled(s, e)))
  {
  }

  // The spec a worker creates from is the one of the observation before.
  lemma {:induction false} ReadAtObservation(events: seq<Event>, uid: Uid) returns (j: nat)
    requires uid in Run(events).crs && Run(events).crs[uid].phase.ToCreate?
    ensures Precedes(events, j, uid, Run(events).crs[uid].phase.read)
    decreases |events|
  {
    assert events != [];
    var n := |events| - 1;
    var front := events[..n];
    var read := Run(events).crs[uid].phase.read;
    RunSnoc(events);
    PhaseStep(Run(front), events[n], uid, read);
    if events[n].Observe? && events[n].uid == uid && Enabled(Run(front), events[n]) {
      j := n;
    } else {
      j := ReadAtObservation(front, uid);
      PrefixOfFront(events, j);
      forall m | j < m < |events| ensures !WorksAt(events, m, uid) {
        if m < n {
          PrefixOfFront(events, m);
          assert WorksAt(front, m, uid) == WorksAt(events, m, uid);
        }
      }
    }
  }

  /******* Life *******/

  // What is live now and was logged before was live before.
  lemma NoRevival(s: State, e: Event, url: string)
    requires url in Step(s, e).remote && Step(s, e).remote[url].origin.Made?
    requires Step(s, e).remote[url].origin.entry < |s.log|
    ensures url in s.remote && s.remote[url].origin == Step(s, e).remote[url].origin
  {
  }

  lemma SameConfig(s: State, e: Event, url: string)
    requires url in Step(s, e).remote && Step(s, e).remote[url].origin.Made?
    requires Step(s, e).remote[url].origin.entry < |s.log|
    ensures url in s.remote && s.remote[url].config == Step(s, e).remote[url].config
  {
    NoRevival(s, e, url);
  }

  // A live made resource was live, and as it is configured, at every state since it was logged.
  lemma {:induction false} LiveSince(events: seq<Event>, url: string, m: nat)
    requires url in Run(events).remote && Run(events).remote[url].origin.Made?
    requires m <= |events| && Run(events).remote[url].origin.entry < |Run(events[..m]).log|
    ensures LiveAt(events, url, m)
    decreases |events| - m
  {
    if m == |events| {
      assert events[..m] == events;
    } else {
      PrefixRun(events, m);
      LogGrowsBetween(events, m, m + 1);
      LiveSince(events, url, m + 1);
      SameConfig(Run(events[..m]), events[m], url);
      NoRevival(Run(events[..m]), events[m], url);
    }
  }

  // The resource that is live now was live, and configured as now, before event m.
  predicate LiveAt(events: seq<Event>, url: string, m: nat)
    requires url in Run(events).remote && m <= |events|
  {
    var now, earlier := Run(events).remote[url], Run(events[..m]).remote;
    url in earlier && earlier[url].origin == now.origin && earlier[url].config == now.config
  }

  /******* The charge *******/

  // Event k is the Create that made what is live at the address.
  predicate MadeAt(events: seq<Event>, k: nat, url: string)
    requires k < |events|
  {
    TakesEffectAt(events, k) && var entry := EntryOf(events, k); url == ItemUrl(entry.kind, entry.scope, entry.id)
  }

  lemma MadeAtOnce(events: seq<Event>, k: nat, k': nat, url: string)
    requires k < |events| && k' < |events| && MadeAt(events, k, url) && MadeAt(events, k', url)
    ensures k == k'
  {
    EntryIsSound(events, k);
    EntryIsSound(events, k');
    var a, b := EntryOf(events, k), EntryOf(events, k');
    ItemUrlInjective(a.kind, a.scope, a.id, b.kind, b.scope, b.id);
    EffectsDiffer(events, k, k');
  }

  lemma EntryIsSound(events: seq<Event>, k: nat)
    requires k < |events| && TakesEffectAt(events, k)
    ensures ProperScope(EntryOf(events, k).kind, EntryOf(events, k).scope) && NoSlash(EntryOf(events, k).id)
  {
  }

  // In every run, each live resource that some Create made is charged to exactly one event k: a
  // Create that posted, to the collection of the spec which its worker had read at the preceding
  // observation j, a request for what that spec says, field by field, and it has been live with that
  // configuration since.
  lemma EveryMadeResourceIsCharged(events: seq<Event>, url: string) returns (j: nat, k: nat)
    requires url in Run(events).remote && Run(events).remote[url].origin.Made?
    ensures j < k < |events| && MadeAt(events, k, url)
    ensures forall k' :: 0 <= k' < |events| && MadeAt(events, k', url) ==> k' == k
    ensures Precedes(events[..k], j, events[k].uid, ReadAt(events, k))
    ensures AsksFor(ReadAt(events, k), Run(events).remote[url].config)
    ensures forall m :: k < m <= |events| ==> LiveAt(events, url, m)
  {
    Reachable(events);
    var l := Run(events).remote[url];
    var i := l.origin.entry;
    assert LiveOk(Run(events), url, l);
    k := EntryHasEvent(events, i);
    j := ReadAtObservation(events[..k], events[k].uid);
    forall k' | 0 <= k' < |events| && MadeAt(events, k', url) ensures k' == k {
      MadeAtOnce(events, k, k', url);
    }
    forall m | k < m <= |events| ensures LiveAt(events, url, m) {
      LoggedAfter(events, k, m);
      LiveSince(events, url, m);
    }
    RequestAsksForSpec(ReadAt(events, k), l.config);
  }

  // The live resource's entry in the log is that of the event that made it.
  lemma MadeIsEntry(events: seq<Event>, url: string, k: nat)
    requires url in Run(events).remote && Run(events).remote[url].origin.Made?
    requires k < |events| && MadeAt(events, k, url)
    ensures var i := Run(events).remote[url].origin.entry;
            i < |Run(events).log| && i == |Run(events[..k]).log| && Run(events).log[i] == EntryOf(events, k)
  {
    Reachable(events);
    assert LiveOk(Run(events), url, Run(events).remote[url]);
    var k' := EntryHasEvent(events, Run(events).remote[url].origin.entry);
    MadeAtOnce(events, k, k', url);
  }

  // It is held by its owner only if that Create returned no error. If neither, its owner was told
  // that the id is gone while the resource was live: a 404 that decodes, at a later event g.
  lemma OrphanIsExplained(events: seq<Event>, url: string, k: nat)
    requires url in Run(events).remote && Run(events).remote[url].origin.Made?
    requires k < |events| && MadeAt(events, k, url)
    ensures var uid, id := events[k].uid, events[k].effect.value;
            && (Holds(Run(events), uid, id) ==> Accepts(events[k].answer))
            && (Accepts(events[k].answer) && !Holds(Run(events), uid, id) ==>
                  exists g :: k < g < |events| && MissesAt(events, g, uid, id) && LiveAt(events, url, g))
  {
    MadeIsEntry(events, url, k);
    MadeIsLogged(events, url);
    var s, entry := Run(events), EntryOf(events, k);
    if entry.acknowledged && !Holds(s, entry.uid, entry.id) {
      var i :| 0 <= i < |s.log| && s.log[i] == Gone(entry.uid, entry.id);
      var g := EntryHasEvent(events, i);
      Reachable(events);
      HeldAfter(events, k, g);
      LoggedAfter(events, k, g);
      LiveSince(events, url, g);
    }
  }

  // An id is held only after the Create that posted it.
  lemma HeldAfter(events: seq<Event>, k: nat, g: nat)
    requires k < |events| && g < |events| && TakesEffectAt(events, k)
    requires Holds(Run(events[..g]), events[k].uid, events[k].effect.value)
    requires events[k].uid in Run(events).crs && Run(events).crs[events[k].uid].cr.spec.Kind() == EntryOf(events, k).kind
    ensures k < g
  {
    var uid, id := events[k].uid, events[k].effect.value;
    var s := Run(events[..g]);
    Reachable(events[..g]);
    Reachable(events);
    assert TrackedOk(s, uid, s.crs[uid]);
    var i :| 0 <= i < |s.log| && s.log[i].Posted? && s.log[i].uid == uid && s.log[i].id == id && s.log[i].acknowledged;
    var k' := EntryHasEvent(events[..g], i);
    assert events[..g][..k'] == events[..k'];
    EffectIsLogged(events, k');
    EffectIsLogged(events, k);
    EffectsDiffer(events, k, k');
  }

  // With honest services and settled projects a live made resource is held exactly when its
  // Create returned no error.
  lemma {:induction false} HeldIffAccepted(events: seq<Event>, url: string, k: nat)
    requires Always(HonestAndSettled, EMPTY, events)
    requires url in Run(events).remote && Run(events).remote[url].origin.Made?
    requires k < |events| && MadeAt(events, k, url)
    ensures Holds(Run(events), events[k].uid, events[k].effect.value) <==> Accepts(events[k].answer)
  {
    MadeIsEntry(events, url, k);
    LiveIsHeldIffAcknowledged(events, url);
  }
}
