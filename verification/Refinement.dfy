// One lifecycle for the three kinds: each custom resource in the world steps as this machine
// does, whatever its kind and whatever happens around it.
module Refinement {
  import opened Wrappers
  import opened Urls
  import opened Lifecycle
  import opened World
  import opened Conservation

  datatype Stage = Watching | Creating | Deleting | Finished

  datatype Machine = Machine(
    held: Option<string>,  // the id the resource is bound to
    gone: bool,            // that id was found gone
    deleting: bool,
    stage: Stage)

  // What an absence leads to.
  function Unheld(m: Machine): Stage {
    if m.deleting then Finished else Creating
  }

  // The moves of the machine. There is none for Update, and none from Deleting without an id.
  ghost predicate Moves(m: Machine, m': Machine) {
    || m' == m
    || m' == m.(deleting := true)
    || (m.stage.Watching? && m.held.None? && m' == m.(stage := Unheld(m)))
    || (m.stage.Watching? && m.held.Some? && m' == m.(gone := true, stage := Unheld(m)))
    || (m.stage.Watching? && m.held.Some? && m.deleting && m' == m.(stage := Deleting))
    || (m.stage.Creating? && m' == m.(stage := Watching))
    || (m.stage.Creating? && (m.held.Some? ==> m.gone) && m'.held.Some? && m'.held != m.held
        && m' == m.(held := m'.held, gone := false, stage := Watching))
    || (m.stage.Deleting? && m.held.Some? && m' == m.(stage := Watching))
  }

  function StageOf(phase: Phase): Stage {
    match phase
    case Idle => Watching
    case ToCreate(_) => Creating
    case ToUpdate(_) => Watching
    case ToDelete(_) => Deleting
    case Finalized => Finished
  }

  ghost function Abstract(s: State, uid: Uid): Machine
    requires uid in s.crs
  {
    var t := s.crs[uid];
    var held := t.cr.Id();
    Machine(held, held.Some? && ReportedGone(s.log, uid, held.value), t.deleting, StageOf(t.phase))
  }

  // A new resource starts unbound.
  const START := Machine(None, false, false, Watching)

  lemma ObserveMoves(s: State, uid: Uid, answer: Answer)
    requires Inv(s) && Enabled(s, Observe(uid, answer))
    ensures Moves(Abstract(s, uid), Abstract(ObserveStep(s, uid, answer), uid))
  {
    var t := s.crs[uid];
    var s' := ObserveStep(s, uid, answer);
    if t.cr.Id().Some? {
      var id := t.cr.Id().value;
      var r := ObserveEffect(t.cr, answer).1;
      if r.Observation? && !r.found {
        assert s'.log[|s.log|] == Gone(uid, id);
      } else {
        assert s'.log == s.log;
      }
    }
  }

  // Nobody has found a new id gone.
  lemma FreshIsNotGone(s: State, uid: Uid, kind: Kind, id: string, entry: Entry)
    requires LogOk(s) && uid in s.crs && kind == s.crs[uid].cr.spec.Kind() && Issuable(s, kind, id) && entry.Posted?
    ensures !ReportedGone(s.log + [entry], uid, id)
  {
    forall i | 0 <= i < |s.log + [entry]| ensures (s.log + [entry])[i] != Gone(uid, id) {
      assert i < |s.log| ==> (s.log + [entry])[i] == s.log[i];
    }
  }

  lemma CreateMoves(s: State, uid: Uid, answer: Answer, effect: Option<string>, status: string)
    requires Inv(s) && Enabled(s, Create(uid, answer, effect, status))
    ensures Moves(Abstract(s, uid), Abstract(CreateStep(s, uid, answer, effect, status), uid))
  {
    var t := s.crs[uid];
    assert TrackedOk(s, uid, t);
    if effect.Some? {
      var s' := CreateStep(s, uid, answer, effect, status);
      var entry := s'.log[|s.log|];
      FreshIsNotGone(s, uid, t.phase.read.Kind(), effect.value, entry);
      if t.cr.Id().Some? {
        GoneUnchanged(s.log, entry, uid, t.cr.Id().value);
        assert t.cr.Id().value != effect.value by {
          HeldIsIssued(s, uid);
        }
      }
    }
  }

  lemma HeldIsIssued(s: State, uid: Uid)
    requires LogOk(s) && uid in s.crs && TrackedOk(s, uid, s.crs[uid]) && s.crs[uid].cr.Id().Some?
    ensures (s.crs[uid].cr.spec.Kind(), s.crs[uid].cr.Id().value) in s.issued
  {
  }

  lemma GoneUnchanged(log: seq<Entry>, entry: Entry, uid: Uid, id: string)
    requires entry != Gone(uid, id)
    ensures ReportedGone(log + [entry], uid, id) <==> ReportedGone(log, uid, id)
  {
    HistoryGrows(log, [entry], uid, id);
  }

  // Only its own observations find this resource's id gone.
  lemma OthersLeaveGone(s: State, e: Event, uid: Uid, id: string)
    requires !(e.Observe? && e.uid == uid)
    ensures ReportedGone(Step(s, e).log, uid, id) <==> ReportedGone(s.log, uid, id)
  {
    var log, log' := s.log, Step(s, e).log;
    LogStep(s, e);
    if log' != log {
      GoneUnchanged(log, log'[|log|], uid, id);
    }
  }

  // What an event other than an observation or creation of this resource does to it.
  lemma QuietStep(s: State, e: Event, uid: Uid)
    requires uid in s.crs && Enabled(s, e)
    requires !(e.Observe? && e.uid == uid) && !(e.Create? && e.uid == uid) && !(e.Update? && e.uid == uid)
    ensures uid in Step(s, e).crs
    ensures var t, t' := s.crs[uid], Step(s, e).crs[uid];
            && t'.cr.Id() == t.cr.Id()
            && (t'.deleting == t.deleting || (t'.deleting && t'.phase == t.phase))
            && (t'.phase == t.phase || (t.phase.ToDelete? && t'.phase.Idle? && t'.deleting == t.deleting))
  {
  }

  lemma QuietMoves(s: State, e: Event, uid: Uid)
    requires uid in s.crs && TrackedOk(s, uid, s.crs[uid]) && Enabled(s, e)
    requires !(e.Observe? && e.uid == uid) && !(e.Create? && e.uid == uid)
    ensures uid in Step(s, e).crs && Moves(Abstract(s, uid), Abstract(Step(s, e), uid))
  {
    QuietStep(s, e, uid);
    if s.crs[uid].cr.Id().Some? {
      OthersLeaveGone(s, e, uid, s.crs[uid].cr.Id().value);
    }
  }

  // In every run, every event is a move of the machine for every custom resource of every kind,
  // and a resource enters at the start.
  lemma EveryStepRefines(events: seq<Event>, e: Event, uid: Uid)
    ensures var s, s' := Run(events), Step(Run(events), e);
            && (uid in s.crs ==> uid in s'.crs && Moves(Abstract(s, uid), Abstract(s', uid)))
            && (uid !in s.crs && uid in s'.crs ==> Abstract(s', uid) == START)
  {
    Reachable(events);
    var s := Run(events);
    if Enabled(s, e) && uid in s.crs {
      if e.Observe? && e.uid == uid {
        ObserveMoves(s, uid, e.answer);
      } else if e.Create? && e.uid == uid {
        CreateMoves(s, uid, e.answer, e.effect, e.status);
      } else {
        assert TrackedOk(s, uid, s.crs[uid]);
        QuietMoves(s, e, uid);
      }
    }
  }
}
