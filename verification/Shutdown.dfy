/** Dependency-ordered teardown of the panel (ui/src/lib/shutdown.ts). */
module Shutdowns {

  /** A registered callback; two of them may share a target. */
  datatype Callback = Callback(target: string, deps: seq<string>)

  datatype Phase = Waiting | Running | Finished

  datatype Event = Start(callback: nat) | End(callback: nat)

  /** `other` tears down before `callback`: it names its target, and is another record. */
  predicate DependsOn(callbacks: seq<Callback>, other: nat, callback: nat) {
    && other < |callbacks| && callback < |callbacks|
    && other != callback && callbacks[callback].target in callbacks[other].deps
  }

  /** Its gates are open: everything that depends on it has finished. */
  predicate Startable(callbacks: seq<Callback>, phases: seq<Phase>, callback: nat)
    requires |phases| == |callbacks|
  {
    && callback < |callbacks| && phases[callback] == Waiting
    && forall other :: 0 <= other < |callbacks| && DependsOn(callbacks, other, callback) ==> phases[other] == Finished
  }

  function Startables(callbacks: seq<Callback>, phases: seq<Phase>): set<nat>
    requires |phases| == |callbacks|
  {
    set c: nat | c < |callbacks| && Startable(callbacks, phases, c)
  }

  function Runnings(phases: seq<Phase>): set<nat> {
    set c: nat | c < |phases| && phases[c] == Running
  }

  // ---- cycles --------------------------------------------------------------------------------------

  /** Each one depends on the one before it. */
  ghost predicate Walk(callbacks: seq<Callback>, walk: seq<nat>) {
    && walk != [] && (forall i :: 0 <= i < |walk| ==> walk[i] < |callbacks|)
    && forall i :: 0 <= i < |walk| - 1 ==> DependsOn(callbacks, walk[i + 1], walk[i])
  }

  ghost predicate Repeats(walk: seq<nat>) {
    exists i, j :: 0 <= i < j < |walk| && walk[i] == walk[j]
  }

  /** On a cycle, or depended on, directly or not, by one that is. */
  ghost predicate Blocked(callbacks: seq<Callback>, callback: nat) {
    exists walk :: Walk(callbacks, walk) && walk[0] == callback && Repeats(walk)
  }

  /** Who is blocked waits for somebody who is. */
  lemma BlockedWaits(callbacks: seq<Callback>, callback: nat) returns (other: nat)
    requires Blocked(callbacks, callback)
    ensures DependsOn(callbacks, other, callback) && Blocked(callbacks, other)
  {
    var walk :| Walk(callbacks, walk) && walk[0] == callback && Repeats(walk);
    var i, j :| 0 <= i < j < |walk| && walk[i] == walk[j];
    other := walk[1];
    if i > 0 {
      var rest := walk[1..];
      assert rest[i - 1] == rest[j - 1];
      assert Walk(callbacks, rest) && Repeats(rest);
    } else {
      var round := walk[1..j + 1] + [walk[1]];
      assert round[0] == round[j];
      assert forall k :: 0 <= k < j ==> round[k] == walk[k + 1];
      assert Walk(callbacks, round) && Repeats(round);
    }
  }

  /** Everybody who waits waits for somebody who waits. */
  ghost predicate Stuck(callbacks: seq<Callback>, phases: seq<Phase>)
    requires |phases| == |callbacks|
  {
    && (forall c :: 0 <= c < |callbacks| ==> !Startable(callbacks, phases, c))
    && (forall c :: 0 <= c < |callbacks| ==> phases[c] != Running)
  }

  /** A walk of any length through callbacks that wait. */
  lemma {:induction false} WaitingWalk(callbacks: seq<Callback>, phases: seq<Phase>, callback: nat, length: nat)
    returns (walk: seq<nat>)
    requires |phases| == |callbacks| && Stuck(callbacks, phases)
    requires callback < |callbacks| && phases[callback] == Waiting
    ensures Walk(callbacks, walk) && walk[0] == callback && |walk| == length + 1
    decreases length
  {
    walk := [callback];
    if length > 0 {
      assert !Startable(callbacks, phases, callback);
      var other: nat :| other < |callbacks| && DependsOn(callbacks, other, callback) && phases[other] != Finished;
      var rest := WaitingWalk(callbacks, phases, other, length - 1);
      walk := [callback] + rest;
      forall i | 0 <= i < |walk| - 1 ensures DependsOn(callbacks, walk[i + 1], walk[i]) {
        if i > 0 {
          assert walk[i + 1] == rest[i] && walk[i] == rest[i - 1];
          assert DependsOn(callbacks, rest[i - 1 + 1], rest[i - 1]);
        }
      }
    }
  }

  /** More steps than callbacks: somebody comes twice. */
  lemma {:induction false} Pigeonhole(walk: seq<nat>, size: nat)
    requires |walk| > size && forall i :: 0 <= i < |walk| ==> walk[i] < size
    ensures Repeats(walk)
  {
    if !Repeats(walk) {
      var seen := set i | 0 <= i < |walk| :: walk[i];
      DistinctSize(walk);
      RangeSize(seen, size);
      assert false;
    }
  }

  lemma {:induction false} DistinctSize(walk: seq<nat>)
    requires !Repeats(walk)
    ensures |set i | 0 <= i < |walk| :: walk[i]| == |walk|
  {
    if walk != [] {
      var n := |walk| - 1;
      var init := walk[..n];
      assert forall i, j :: 0 <= i < j < |init| ==> init[i] == walk[i] && init[j] == walk[j];
      DistinctSize(init);
      var before, all := (set i | 0 <= i < |init| :: init[i]), (set i | 0 <= i < |walk| :: walk[i]);
      assert forall i :: 0 <= i < |init| ==> init[i] == walk[i];
      assert all == before + {walk[n]};
      assert walk[n] !in before;
    }
  }

  lemma {:induction false} RangeSize(numbers: set<nat>, size: nat)
    requires forall x :: x in numbers ==> x < size
    ensures |numbers| <= size
    decreases size
  {
    if size > 0 {
      RangeSize(numbers - {size - 1}, size - 1);
      if size - 1 in numbers {
        assert numbers == (numbers - {size - 1}) + {size - 1};
      } else {
        assert numbers - {size - 1} == numbers;
      }
    } else {
      assert numbers == {};
    }
  }

  /** In a run that can go no further, who still waits is blocked. */
  lemma StuckIsBlocked(callbacks: seq<Callback>, phases: seq<Phase>, callback: nat)
    requires |phases| == |callbacks| && Stuck(callbacks, phases)
    requires callback < |callbacks| && phases[callback] == Waiting
    ensures Blocked(callbacks, callback)
  {
    var walk := WaitingWalk(callbacks, phases, callback, |callbacks|);
    Pigeonhole(walk, |callbacks|);
  }

  // ---- runs ----------------------------------------------------------------------------------------

  /** The events so far say how far each callback is, each once. */
  ghost predicate Recorded(phases: seq<Phase>, events: seq<Event>) {
    && (forall c :: 0 <= c < |phases| ==> (Start(c) in events <==> phases[c] != Waiting))
    && (forall c :: 0 <= c < |phases| ==> (End(c) in events <==> phases[c] == Finished))
    && (forall i, j :: 0 <= i < j < |events| ==> events[i] != events[j])
    && (forall i :: 0 <= i < |events| ==> events[i].callback < |phases|)
  }

  /** Whatever starts, starts after the end of everything that depends on it. */
  ghost predicate Ordered(callbacks: seq<Callback>, events: seq<Event>) {
    forall i, other :: 0 <= i < |events| && events[i].Start? && DependsOn(callbacks, other, events[i].callback) ==>
      End(other) in events[..i]
  }

  ghost predicate BlockedWait(callbacks: seq<Callback>, phases: seq<Phase>)
    requires |phases| == |callbacks|
  {
    forall c :: 0 <= c < |callbacks| && Blocked(callbacks, c) ==> phases[c] == Waiting
  }

  lemma BlockedStayWaiting(callbacks: seq<Callback>, phases: seq<Phase>, callback: nat)
    requires |phases| == |callbacks| && BlockedWait(callbacks, phases) && Startable(callbacks, phases, callback)
    ensures !Blocked(callbacks, callback)
  {
    if Blocked(callbacks, callback) {
      var other := BlockedWaits(callbacks, callback);
    }
  }

  lemma OrderedStart(callbacks: seq<Callback>, phases: seq<Phase>, events: seq<Event>, callback: nat)
    requires |phases| == |callbacks| && Recorded(phases, events) && Ordered(callbacks, events)
    requires Startable(callbacks, phases, callback)
    ensures Recorded(phases[callback := Running], events + [Start(callback)])
    ensures Ordered(callbacks, events + [Start(callback)])
  {
    var grown := events + [Start(callback)];
    forall i, other | 0 <= i < |grown| && grown[i].Start? && DependsOn(callbacks, other, grown[i].callback)
      ensures End(other) in grown[..i]
    {
      if i < |events| {
        assert grown[..i] == events[..i] && events[i] == grown[i];
      } else {
        assert grown[..i] == events;
      }
    }
  }

  lemma OrderedEnd(callbacks: seq<Callback>, phases: seq<Phase>, events: seq<Event>, callback: nat)
    requires |phases| == |callbacks| && Recorded(phases, events) && Ordered(callbacks, events)
    requires callback < |phases| && phases[callback] == Running
    ensures Recorded(phases[callback := Finished], events + [End(callback)])
    ensures Ordered(callbacks, events + [End(callback)])
  {
    var grown := events + [End(callback)];
    forall i, other | 0 <= i < |grown| && grown[i].Start? && DependsOn(callbacks, other, grown[i].callback)
      ensures End(other) in grown[..i]
    {
      assert grown[..i] == events[..i] && events[i] == grown[i];
    }
  }

  /** What may happen next: a callback whose gates are open starts, one that runs ends. */
  predicate Enabled(callbacks: seq<Callback>, phases: seq<Phase>, event: Event)
    requires |phases| == |callbacks|
  {
    match event
    case Start(c) => Startable(callbacks, phases, c)
    case End(c) => c < |phases| && phases[c] == Running
  }

  /** What a schedule leads to: each of its events happens when it may, and is passed over when it may not. */
  function After(callbacks: seq<Callback>, schedule: seq<Event>): (run: (seq<Phase>, seq<Event>))
    ensures |run.0| == |callbacks|
  {
    if schedule == [] then (seq(|callbacks|, _ => Waiting), []) else
      var (phases, events) := After(callbacks, schedule[..|schedule| - 1]);
      var event := schedule[|schedule| - 1];
      if !Enabled(callbacks, phases, event) then (phases, events)
      else (phases[event.callback := if event.Start? then Running else Finished], events + [event])
  }

  lemma {:induction false} AllLeft(phases: seq<Phase>)
    requires forall c :: 0 <= c < |phases| ==> phases[c] == Waiting
    ensures Left(phases) == 2 * |phases|
  {
    if phases != [] {
      AllLeft(phases[1..]);
    }
  }

  /** How many steps are left at most. */
  function Left(phases: seq<Phase>): nat {
    if phases == [] then 0
    else (match phases[0] case Waiting => 2 case Running => 1 case Finished => 0) + Left(phases[1..])
  }

  lemma {:induction false} LeftShrinks(phases: seq<Phase>, callback: nat)
    requires callback < |phases| && phases[callback] != Finished
    ensures Left(phases[callback := if phases[callback] == Waiting then Running else Finished]) == Left(phases) - 1
  {
    var next := phases[callback := if phases[callback] == Waiting then Running else Finished];
    if callback > 0 {
      LeftShrinks(phases[1..], callback - 1);
      assert next[1..] == phases[1..][callback - 1 := next[callback]];
    } else {
      assert next[1..] == phases[1..];
    }
  }

  class Process {
    var callbacks: seq<Callback>
    var isShuttingDown: bool

    constructor ()
      ensures callbacks == [] && !isShuttingDown
    {
      callbacks, isShuttingDown := [], false;
    }

    method OnShutdown(target: string, deps: seq<string>)
      modifies `callbacks
      ensures callbacks == old(callbacks) + [Callback(target, deps)]
    {
      callbacks := callbacks + [Callback(target, deps)];
    }

    /** `shutdown`: the callbacks step in any order their gates allow; the timeout may end it at any moment. Without
        the timeout exactly those finish that are neither on a cycle nor depended on by one. */
    method Shutdown(schedule: seq<Event>)
      returns (first: bool, timedOut: bool, phases: seq<Phase>, ghost events: seq<Event>)
      modifies `isShuttingDown
      ensures isShuttingDown && first == !old(isShuttingDown)
      ensures !first ==> events == []
      // whatever the schedule lets happen happens, and the timeout ends it exactly when something could still go on
      ensures first ==> (phases, events) == After(callbacks, schedule)
      ensures first ==> |phases| == |callbacks| && (timedOut <==> exists event :: Enabled(callbacks, phases, event))
      ensures Ordered(callbacks, events) && (forall i, j :: 0 <= i < j < |events| ==> events[i] != events[j])
      // that is: nothing starts before whatever names its target among its deps has ended
      ensures forall i, other: nat ::
                0 <= i < |events| && events[i].Start? && events[i].callback < |callbacks| && other < |callbacks|
                && other != events[i].callback && callbacks[events[i].callback].target in callbacks[other].deps ==>
                  End(other) in events[..i]
      ensures forall c: nat :: Blocked(callbacks, c) ==> Start(c) !in events
      ensures first && !timedOut ==>
                && |phases| == |callbacks|
                && forall c :: 0 <= c < |callbacks| ==>
                     && (phases[c] == Waiting <==> Blocked(callbacks, c))
                     && (phases[c] == Finished <==> !Blocked(callbacks, c))
                     && (End(c) in events <==> !Blocked(callbacks, c))
    {
      first, timedOut, phases, events := !isShuttingDown, false, [], [];
      if isShuttingDown {
        return;
      }
      isShuttingDown := true;
      timedOut, phases, events := RunAll(callbacks, schedule);
      EnabledIff(callbacks, phases);
      NobodyElseStarted(callbacks, phases, events);
      if !timedOut {
        EverybodyElseFinished(callbacks, phases);
      }
    }
  }

  lemma EnabledIff(callbacks: seq<Callback>, phases: seq<Phase>)
    requires |phases| == |callbacks|
    ensures (Startables(callbacks, phases) != {} || Runnings(phases) != {}) <==>
              exists event :: Enabled(callbacks, phases, event)
  {
    if c :| c in Startables(callbacks, phases) {
      assert Enabled(callbacks, phases, Start(c));
    }
    if c :| c in Runnings(phases) {
      assert Enabled(callbacks, phases, End(c));
    }
    if event :| Enabled(callbacks, phases, event) {
      if event.Start? {
        assert event.callback in Startables(callbacks, phases);
      } else {
        assert event.callback in Runnings(phases);
      }
    }
  }

  method RunAll(callbacks: seq<Callback>, schedule: seq<Event>)
    returns (timedOut: bool, phases: seq<Phase>, ghost events: seq<Event>)
    ensures |phases| == |callbacks| && Recorded(phases, events) && Ordered(callbacks, events)
              && BlockedWait(callbacks, phases)
    ensures (phases, events) == After(callbacks, schedule) && |events| + Left(phases) == 2 * |callbacks|
    ensures timedOut <==> Startables(callbacks, phases) != {} || Runnings(phases) != {}
  {
    phases, events := seq(|callbacks|, _ => Waiting), [];
    AllLeft(phases);
    for i := 0 to |schedule|
      invariant |phases| == |callbacks| && (phases, events) == After(callbacks, schedule[..i])
      invariant Recorded(phases, events) && Ordered(callbacks, events) && BlockedWait(callbacks, phases)
      invariant |events| + Left(phases) == 2 * |callbacks|
    {
      hide Recorded, Ordered, BlockedWait, Left, Startable;
      assert schedule[..i + 1][..i] == schedule[..i] && schedule[..i + 1][i] == schedule[i];
      var event := schedule[i];
      if Enabled(callbacks, phases, event) {
        var c := event.callback;
        StepKeeps(callbacks, phases, events, event);
        phases, events := phases[c := if event.Start? then Running else Finished], events + [event];
      }
    }
    assert schedule[..|schedule|] == schedule;
    timedOut := Startables(callbacks, phases) != {} || Runnings(phases) != {};
  }

  lemma StepKeeps(callbacks: seq<Callback>, phases: seq<Phase>, events: seq<Event>, event: Event)
    requires |phases| == |callbacks| && Enabled(callbacks, phases, event)
    requires Recorded(phases, events) && Ordered(callbacks, events) && BlockedWait(callbacks, phases)
    ensures event.callback < |phases|
    ensures var next := phases[event.callback := if event.Start? then Running else Finished];
            && Recorded(next, events + [event]) && Ordered(callbacks, events + [event]) && BlockedWait(callbacks, next)
            && Left(next) == Left(phases) - 1
  {
    hide Left, Recorded, Ordered, Blocked;
    var c := event.callback;
    if event.Start? {
      BlockedStayWaiting(callbacks, phases, c);
      OrderedStart(callbacks, phases, events, c);
    } else {
      OrderedEnd(callbacks, phases, events, c);
    }
    LeftShrinks(phases, c);
  }

  lemma NobodyElseStarted(callbacks: seq<Callback>, phases: seq<Phase>, events: seq<Event>)
    requires |phases| == |callbacks| && Recorded(phases, events) && BlockedWait(callbacks, phases)
    ensures forall c: nat :: Blocked(callbacks, c) ==> Start(c) !in events
  {
    forall c: nat | Blocked(callbacks, c) ensures Start(c) !in events {
      var walk :| Walk(callbacks, walk) && walk[0] == c && Repeats(walk);
      assert c < |callbacks|;
    }
  }

  lemma EverybodyElseFinished(callbacks: seq<Callback>, phases: seq<Phase>)
    requires |phases| == |callbacks| && BlockedWait(callbacks, phases)
    requires Startables(callbacks, phases) == {} && Runnings(phases) == {}
    ensures forall c :: 0 <= c < |callbacks| ==>
              (phases[c] == Waiting <==> Blocked(callbacks, c)) && (phases[c] == Finished <==> !Blocked(callbacks, c))
  {
    forall c | 0 <= c < |callbacks| ensures !Startable(callbacks, phases, c) && phases[c] != Running {
      assert c !in Startables(callbacks, phases) && c !in Runnings(phases);
    }
    forall c | 0 <= c < |callbacks| ensures phases[c] == Waiting <==> Blocked(callbacks, c) {
      if phases[c] == Waiting {
        StuckIsBlocked(callbacks, phases, c);
      }
    }
  }
}
