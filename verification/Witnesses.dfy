// Runs that show why the guarantees ask for acknowledged Creates, settled projects and honest
// services, each of which alone can fail, and one that shows how a deletion ends.
module Witnesses {
  import opened Wrappers
  import opened Urls
  import opened Api
  import opened Lifecycle
  import opened World
  import opened AtMostOne
  import opened Guarantees
  import opened History

  function VolumeIn(project: string): Spec {
    VolumeSpec(VolumeParameters(project, "", "", 1, "", false, "", "", "", Some([SchedulerHints(None)])))
  }

  const CONFIG := CreateVolume(1, "", false, "", "", "", None)

  function Reply(code: int, id: string): Answer {
    Answered(code, Some(Body(id, "")))
  }

  function Resource(spec: Spec, annotations: map<string, string>, phase: Phase): map<Uid, Tracked> {
    map[0 := Tracked(Cr(spec, annotations, "", false), false, phase)]
  }

  function Item(entry: nat, project: string, id: string): Live {
    Live(Made(entry), Volume, project, id, CONFIG, "", Serving)
  }

  function Submitted(): State { State(Resource(VolumeIn("p"), map[], Idle), map[], {}, []) }

  function Wanting(): State { State(Resource(VolumeIn("p"), map[], ToCreate(VolumeIn("p"))), map[], {}, []) }

  // The first three events of both runs, of which the third differs.
  lemma Opening()
    ensures Step(EMPTY, Submit(0, VolumeIn("p"), map[])) == Submitted()
    ensures Step(Submitted(), Event.Observe(0, Unsent)) == Wanting()
  {
  }

  // One event of a run.
  lemma Forward(s: State, e: Event, rest: seq<Event>)
    ensures After(s, [e] + rest) == After(Step(s, e), rest)
    ensures forall p :: Always(p, s, [e] + rest) <==> p(s, e) && Always(p, Step(s, e), rest)
  {
    assert ([e] + rest)[1..] == rest;
  }

  lemma Last(s: State)
    ensures After(s, []) == s && forall p :: Always(p, s, [])
  {
  }

  /******* A lost reply *******/

  function Lost(phase: Phase): State {
    State(Resource(VolumeIn("p"), map[], phase), map[VolumeItemUrl("p", "a") := Item(0, "p", "a")], {(Volume, "a")},
          [Posted(0, Volume, "p", "a", CONFIG, false)])
  }

  function Repeated(): State {
    State(Resource(VolumeIn("p"), Bind(Volume, "b"), Idle),
          map[VolumeItemUrl("p", "a") := Item(0, "p", "a"), VolumeItemUrl("p", "b") := Item(1, "p", "b")],
          {(Volume, "a"), (Volume, "b")},
          [Posted(0, Volume, "p", "a", CONFIG, false), Posted(0, Volume, "p", "b", CONFIG, true)])
  }

  const LOSE := Event.Create(0, Broken, Some("a"), "")
  const REPEAT := Event.Create(0, Reply(200, "b"), Some("b"), "")

  lemma LostSteps()
    ensures Step(Wanting(), LOSE) == Lost(Idle)
    ensures Step(Lost(Idle), Event.Observe(0, Unsent)) == Lost(ToCreate(VolumeIn("p")))
  {
  }

  lemma RepeatStep()
    ensures Step(Lost(ToCreate(VolumeIn("p"))), REPEAT) == Repeated()
  {
  }

  // A POST that takes effect while its reply is lost is repeated by the next reconcile, although
  // the services are honest and no spec changes: one resource has two live items.
  lemma LostReplyDuplicates() returns (events: seq<Event>)
    ensures Always(HonestAndSettled, EMPTY, events)
    ensures LiveCreations(Run(events), 0) == {0, 1}
  {
    var look := Event.Observe(0, Unsent);
    events := [Submit(0, VolumeIn("p"), map[])] + ([look] + ([LOSE] + ([look] + ([REPEAT] + []))));
    Opening();
    LostSteps();
    RepeatStep();
    Forward(EMPTY, Submit(0, VolumeIn("p"), map[]), [look] + ([LOSE] + ([look] + ([REPEAT] + []))));
    Forward(Submitted(), look, [LOSE] + ([look] + ([REPEAT] + [])));
    Forward(Wanting(), LOSE, [look] + ([REPEAT] + []));
    Forward(Lost(Idle), look, [REPEAT] + []);
    Forward(Lost(ToCreate(VolumeIn("p"))), REPEAT, []);
    Last(Repeated());
    RepeatedLives();
  }

  lemma RepeatedLives()
    ensures LiveCreations(Repeated(), 0) == {0, 1}
  {
    VolumeUrlInjective("p", "a", "p", "b");
  }

  /******* An edited project *******/

  function Bound(project: string, phase: Phase, log: seq<Entry>): State {
    State(Resource(VolumeIn(project), Bind(Volume, "a"), phase), map[VolumeItemUrl("p", "a") := Item(0, "p", "a")],
          {(Volume, "a")}, [Posted(0, Volume, "p", "a", CONFIG, true)] + log)
  }

  function Rebound(): State {
    State(Resource(VolumeIn("q"), Bind(Volume, "b"), Idle),
          map[VolumeItemUrl("p", "a") := Item(0, "p", "a"), VolumeItemUrl("q", "b") := Item(2, "q", "b")],
          {(Volume, "a"), (Volume, "b")},
          [Posted(0, Volume, "p", "a", CONFIG, true), Gone(0, "a"), Posted(0, Volume, "q", "b", CONFIG, true)])
  }

  const FIRST := Event.Create(0, Reply(200, "a"), Some("a"), "")
  const MISS := Event.Observe(0, Reply(404, ""))

  lemma BoundSteps()
    ensures Step(Wanting(), FIRST) == Bound("p", Idle, [])
    ensures Step(Bound("p", Idle, []), EditSpec(0, VolumeIn("q"))) == Bound("q", Idle, [])
  {
  }

  lemma MissStep()
    ensures Step(Bound("q", Idle, []), MISS) == Bound("q", ToCreate(VolumeIn("q")), [Gone(0, "a")])
    ensures Honest(Bound("q", Idle, []), MISS)
  {
    VolumeUrlInjective("q", "a", "p", "a");
  }

  lemma ReboundStep()
    ensures Step(Bound("q", ToCreate(VolumeIn("q")), [Gone(0, "a")]), REPEAT) == Rebound()
  {
  }

  function Ending(): seq<Event> {
    [EditSpec(0, VolumeIn("q"))] + ([MISS] + ([REPEAT] + []))
  }

  lemma EndingRuns()
    ensures After(Bound("p", Idle, []), Ending()) == Rebound()
    ensures Always(Honest, Bound("p", Idle, []), Ending()) && Always(NothingLost, Bound("p", Idle, []), Ending())
  {
    BoundSteps();
    MissStep();
    ReboundStep();
    Forward(Bound("p", Idle, []), EditSpec(0, VolumeIn("q")), [MISS] + ([REPEAT] + []));
    Forward(Bound("q", Idle, []), MISS, [REPEAT] + []);
    Forward(Bound("q", ToCreate(VolumeIn("q")), [Gone(0, "a")]), REPEAT, []);
    Last(Rebound());
  }

  // Once its project is edited a volume is looked for elsewhere, found absent by an honest
  // service and created again, with no reply lost: one resource has two live items.
  lemma ProjectEditDuplicates() returns (events: seq<Event>)
    ensures Always(Honest, EMPTY, events) && Always(NothingLost, EMPTY, events)
    ensures LiveCreations(Run(events), 0) == {0, 2}
  {
    var look := Event.Observe(0, Unsent);
    events := [Submit(0, VolumeIn("p"), map[])] + ([look] + ([FIRST] + Ending()));
    Opening();
    BoundSteps();
    EndingRuns();
    Forward(EMPTY, Submit(0, VolumeIn("p"), map[]), [look] + ([FIRST] + Ending()));
    Forward(Submitted(), look, [FIRST] + Ending());
    Forward(Wanting(), FIRST, Ending());
    ReboundLives();
  }

  lemma ReboundLives()
    ensures LiveCreations(Rebound(), 0) == {0, 2}
  {
    VolumeUrlInjective("p", "a", "q", "b");
  }

  /******* A lie *******/

  function Doubled(): State {
    State(Resource(VolumeIn("p"), Bind(Volume, "b"), Idle),
          map[VolumeItemUrl("p", "a") := Item(0, "p", "a"), VolumeItemUrl("p", "b") := Item(2, "p", "b")],
          {(Volume, "a"), (Volume, "b")},
          [Posted(0, Volume, "p", "a", CONFIG, true), Gone(0, "a"), Posted(0, Volume, "p", "b", CONFIG, true)])
  }

  lemma LieSteps()
    ensures Step(Bound("p", Idle, []), MISS) == Bound("p", ToCreate(VolumeIn("p")), [Gone(0, "a")])
    ensures Step(Bound("p", ToCreate(VolumeIn("p")), [Gone(0, "a")]), REPEAT) == Doubled()
  {
  }

  lemma DoubledLives()
    ensures LiveCreations(Doubled(), 0) == {0, 2}
  {
    VolumeUrlInjective("p", "a", "p", "b");
  }

  lemma LieRuns()
    ensures After(Bound("p", Idle, []), [MISS] + ([REPEAT] + [])) == Doubled()
    ensures Always(Settled, Bound("p", Idle, []), [MISS] + ([REPEAT] + []))
    ensures Always(NothingLost, Bound("p", Idle, []), [MISS] + ([REPEAT] + []))
  {
    LieSteps();
    Forward(Bound("p", Idle, []), MISS, [REPEAT] + []);
    Forward(Bound("p", ToCreate(VolumeIn("p")), [Gone(0, "a")]), REPEAT, []);
    Last(Doubled());
  }

  // A 404 for an item that is there leads to a second one, with no reply lost and no edit.
  lemma LieDuplicates() returns (events: seq<Event>)
    ensures Always(Settled, EMPTY, events) && Always(NothingLost, EMPTY, events)
    ensures LiveCreations(Run(events), 0) == {0, 2}
  {
    var look, rest := Event.Observe(0, Unsent), [MISS] + ([REPEAT] + []);
    events := [Submit(0, VolumeIn("p"), map[])] + ([look] + ([FIRST] + rest));
    Opening();
    BoundSteps();
    LieRuns();
    Forward(EMPTY, Submit(0, VolumeIn("p"), map[]), [look] + ([FIRST] + rest));
    Forward(Submitted(), look, [FIRST] + rest);
    Forward(Wanting(), FIRST, rest);
    DoubledLives();
  }

  /******* A deletion *******/

  // The resource with its deletion requested, and its item if it is still there.
  function Doomed(phase: Phase, there: bool, log: seq<Entry>): State {
    State(map[0 := Tracked(Cr(VolumeIn("p"), Bind(Volume, "a"), "", false), true, phase)],
          if there then map[VolumeItemUrl("p", "a") := Item(0, "p", "a")] else map[],
          {(Volume, "a")}, [Posted(0, Volume, "p", "a", CONFIG, true)] + log)
  }

  const FIND := Event.Observe(0, Reply(200, "a"))
  const DELETE_IN_VAIN := Event.Delete(0, Answered(204, None), Kept)
  const DELETE_UNTOLD := Event.Delete(0, Answered(404, None), Removed)

  lemma RequestSteps()
    ensures Step(Bound("p", Idle, []), RequestDeletion(0)) == Doomed(Idle, true, [])
    ensures Step(Doomed(Idle, true, []), FIND) == Doomed(ToDelete(VolumeIn("p")), true, [])
  {
  }

  lemma DeleteSteps()
    ensures Step(Doomed(ToDelete(VolumeIn("p")), true, []), DELETE_IN_VAIN) == Doomed(Idle, true, [])
    ensures Step(Doomed(ToDelete(VolumeIn("p")), true, []), DELETE_UNTOLD) == Doomed(Idle, false, [])
    ensures Step(Doomed(Idle, false, []), MISS) == Doomed(Finalized, false, [Gone(0, "a")])
  {
  }

  function ToDoom(): seq<Event> {
    [Submit(0, VolumeIn("p"), map[])]
    + ([Event.Observe(0, Unsent)] + ([FIRST] + ([RequestDeletion(0)] + ([FIND] + []))))
  }

  lemma ToDoomRuns()
    ensures Run(ToDoom()) == Doomed(ToDelete(VolumeIn("p")), true, [])
  {
    var rest := [RequestDeletion(0)] + ([FIND] + []);
    Opening();
    BoundSteps();
    RequestSteps();
    Forward(EMPTY, Submit(0, VolumeIn("p"), map[]), [Event.Observe(0, Unsent)] + ([FIRST] + rest));
    Forward(Submitted(), Event.Observe(0, Unsent), [FIRST] + rest);
    Forward(Wanting(), FIRST, rest);
    Forward(Bound("p", Idle, []), RequestDeletion(0), [FIND] + []);
    Forward(Doomed(Idle, true, []), FIND, []);
    Last(Doomed(ToDelete(VolumeIn("p")), true, []));
  }

  // A run that ends with the resource finalized and nothing left of it. In its course a Delete
  // succeeds although the item stays, and one fails although the item is gone.
  lemma DeletionEnds() returns (before: seq<Event>, middle: seq<Event>, after: seq<Event>)
    ensures var s := Run(before);
            && Enabled(s, DELETE_IN_VAIN) && DeleteOutcome(s, 0, DELETE_IN_VAIN.answer).Deleted?
            && VolumeItemUrl("p", "a") in Step(s, DELETE_IN_VAIN).remote
    ensures var s := After(Step(Run(before), DELETE_IN_VAIN), middle);
            && Enabled(s, DELETE_UNTOLD) && DeleteOutcome(s, 0, DELETE_UNTOLD.answer).DeleteFailed?
            && VolumeItemUrl("p", "a") in s.remote && VolumeItemUrl("p", "a") !in Step(s, DELETE_UNTOLD).remote
    ensures var s := Run(before + ([DELETE_IN_VAIN] + (middle + ([DELETE_UNTOLD] + after))));
            FinalizedOf(s, 0) && s.remote == map[]
  {
    before, middle, after := ToDoom(), [FIND] + [], [MISS] + [];
    var s, s' := Doomed(ToDelete(VolumeIn("p")), true, []), Doomed(Idle, true, []);
    var rest := [DELETE_UNTOLD] + after;
    ToDoomRuns();
    RequestSteps();
    DeleteSteps();
    AfterConcat(EMPTY, before, [DELETE_IN_VAIN] + (middle + rest));
    Forward(s, DELETE_IN_VAIN, middle + rest);
    AfterConcat(s', middle, rest);
    Forward(s', FIND, []);
    Last(s);
    Forward(s, DELETE_UNTOLD, after);
    Forward(Doomed(Idle, false, []), MISS, []);
    Last(Doomed(Finalized, false, [Gone(0, "a")]));
  }
}
