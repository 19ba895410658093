// What a state remembers of its run: properties that some event once set, and values that the last
// of several events determines.
module Traces {
  import opened Wrappers
  import opened World

  lemma RunSnoc(events: seq<Event>)
    requires events != []
    ensures Run(events) == Step(Run(events[..|events| - 1]), events[|events| - 1])
  {
    var front, last := events[..|events| - 1], events[|events| - 1];
    assert events == front + [last];
    AfterConcat(EMPTY, front, [last]);
    assert After(Run(front), [last]) == Step(Run(front), last);
  }

  // The prefix events[..k] of a shorter prefix.
  lemma PrefixOfFront(events: seq<Event>, k: nat)
    requires k < |events|
    ensures events[..|events| - 1][..k] == events[..k]
  {
  }

  // The change that event k of a run makes, if it makes one.
  function ChangeAt<X>(changes: (State, Event) -> Option<X>, events: seq<Event>, k: nat): Option<X>
    requires k < |events|
  {
    changes(Run(events[..k]), events[k])
  }

  // Event k is the last of a run that makes a change.
  ghost predicate IsLast<X>(changes: (State, Event) -> Option<X>, events: seq<Event>, k: nat) {
    && k < |events| && ChangeAt(changes, events, k).Some?
    && forall j :: k < j < |events| ==> ChangeAt(changes, events, j).None?
  }

  ghost predicate Never<X>(changes: (State, Event) -> Option<X>, events: seq<Event>) {
    forall k :: 0 <= k < |events| ==> ChangeAt(changes, events, k).None?
  }

  // The value is what the changes make of it.
  ghost predicate Tracks<X(!new)>(value: State -> X, changes: (State, Event) -> Option<X>) {
    forall s, e :: value(Step(s, e)) == if changes(s, e).Some? then changes(s, e).value else value(s)
  }

  lemma FrontChange<X(!new)>(changes: (State, Event) -> Option<X>, events: seq<Event>, k: nat)
    requires k < |events| - 1
    ensures ChangeAt(changes, events[..|events| - 1], k) == ChangeAt(changes, events, k)
  {
    PrefixOfFront(events, k);
  }

  lemma FrontNever<X(!new)>(changes: (State, Event) -> Option<X>, events: seq<Event>)
    requires events != [] && Never(changes, events)
    ensures Never(changes, events[..|events| - 1])
  {
    var front := events[..|events| - 1];
    forall k | 0 <= k < |front| ensures ChangeAt(changes, front, k).None? {
      FrontChange(changes, events, k);
    }
  }

  lemma FrontLast<X(!new)>(changes: (State, Event) -> Option<X>, events: seq<Event>, k: nat)
    requires IsLast(changes, events, k) && k < |events| - 1
    ensures IsLast(changes, events[..|events| - 1], k)
  {
    var front := events[..|events| - 1];
    FrontChange(changes, events, k);
    forall j | k < j < |front| ensures ChangeAt(changes, front, j).None? {
      FrontChange(changes, events, j);
    }
  }

  // A value is what the last change made it.
  lemma {:induction false} LastChange<X(!new)>(value: State -> X, changes: (State, Event) -> Option<X>,
                                               events: seq<Event>, k: nat)
    requires Tracks(value, changes) && IsLast(changes, events, k)
    ensures Some(value(Run(events))) == ChangeAt(changes, events, k)
    decreases |events|
  {
    OneChange(value, changes, events);
    if k < |events| - 1 {
      FrontLast(changes, events, k);
      FrontChange(changes, events, k);
      LastChange(value, changes, events[..|events| - 1], k);
    }
  }

  // Without one it is what it was at first.
  lemma {:induction false} NeverChanged<X(!new)>(value: State -> X, changes: (State, Event) -> Option<X>, events: seq<Event>)
    requires Tracks(value, changes) && Never(changes, events)
    ensures value(Run(events)) == value(EMPTY)
    decreases |events|
  {
    if events != [] {
      OneChange(value, changes, events);
      FrontNever(changes, events);
      NeverChanged(value, changes, events[..|events| - 1]);
    }
  }

  lemma OneChange<X(!new)>(value: State -> X, changes: (State, Event) -> Option<X>, events: seq<Event>)
    requires Tracks(value, changes) && events != []
    ensures var n := |events| - 1;
            value(Run(events)) ==
            if ChangeAt(changes, events, n).Some? then ChangeAt(changes, events, n).value else value(Run(events[..n]))
  {
    RunSnoc(events);
  }

  // A property that events set and none clears holds exactly if some event set it.
  lemma {:induction false} EverIff(flag: State -> bool, sets: (State, Event) -> bool, events: seq<Event>)
    requires !flag(EMPTY)
    requires forall s, e :: flag(Step(s, e)) <==> flag(s) || sets(s, e)
    ensures flag(Run(events)) <==> exists k :: 0 <= k < |events| && sets(Run(events[..k]), events[k])
    decreases |events|
  {
    if events != [] {
      var n := |events| - 1;
      var front := events[..n];
      RunSnoc(events);
      EverIff(flag, sets, front);
      forall k | 0 <= k < n ensures sets(Run(events[..k]), events[k]) == sets(Run(front[..k]), front[k]) {
        PrefixOfFront(events, k);
      }
    }
  }
}
