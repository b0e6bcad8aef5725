/** Panel and host over two files (core/vibedpn/engine/apply.py; the `apply` command of core/vibedpn/cli.py): the
    panel edits config.yaml and asks, the host runs `up` and answers. */
module ApplyHandshakes {
  import opened Options

  const APPLY_TIMEOUT_SECONDS := 300

  /** A request, and how many edits config.yaml had when it was written. */
  datatype Asked = Asked(time: int, version: nat)

  /** The answer to the request of that time; `read` is how many edits the config had that `up` read. */
  datatype Result = Result(requestedAt: int, ok: bool, read: nat)

  datatype State = State(pending: bool, last: Option<Result>)

  /** Where the `apply` command stands: not running or at the top of its loop, the request read, `up` begun, the config
      read by `up`. */
  datatype Phase = Idle | Saw(requested: Option<int>) | Begun(request: int) | Running(request: int, read: nat)

  /** What either side does in one step. The panel: an edit; a request, which first empties its file and then fills it. The
      host: reads the request, reads the result, lets `up` read the config, writes the result, or dies where it stands. */
  datatype Act = Edit | Truncate | Ask(later: nat) | ReadRequest | ReadResult | ReadConfig | Answer(ok: bool) | Die

  /** Both files, the config, the clock of the panel, and what was asked and answered so far. */
  datatype World = World(
    clock: int,                // the time of the last request
    version: nat,              // the edits of config.yaml
    request: Option<int>,      // apply-request; None while it is absent or being written
    result: Option<Result>,    // apply-result.json, replaced by a rename
    phase: Phase,
    asked: seq<Asked>,         // every request written
    handled: seq<int>)         // the requests the host answered

  const START := World(0, 0, None, None, Idle, [], [])

  predicate IsNew(requested: Option<int>, last: Option<Result>) {
    requested.Some? && (last.None? || last.value.requestedAt < requested.value)
  }

  /** One step; an act of the host is one it does in its present phase, or nothing. */
  function Next(w: World, act: Act): World {
    match act
    case Edit => w.(version := w.version + 1)
    case Truncate => w.(request := None)
    case Ask(later) =>
      var now := w.clock + 1 + later;
      w.(clock := now, request := Some(now), asked := w.asked + [Asked(now, w.version)])
    case ReadRequest => if w.phase.Idle? then w.(phase := Saw(w.request)) else w
    case ReadResult =>
      if !w.phase.Saw? then w
      else w.(phase := if IsNew(w.phase.requested, w.result) then Begun(w.phase.requested.value) else Idle)
    case ReadConfig => if w.phase.Begun? then w.(phase := Running(w.phase.request, w.version)) else w
    case Answer(ok) =>
      if !w.phase.Running? then w
      else w.(result := Some(Result(w.phase.request, ok, w.phase.read)), handled := w.handled + [w.phase.request],
          phase := Idle)
    case Die => w.(phase := Idle)
  }

  function Run(w: World, acts: seq<Act>): World
    decreases acts
  {
    if acts == [] then w else Run(Next(w, acts[0]), acts[1..])
  }

  // ---- what every step keeps -----------------------------------------------------------------------

  /** These requests asked for nothing newer than what `up` read for the request of that time. */
  ghost predicate Read(asked: seq<Asked>, request: int, read: nat) {
    forall a :: a in asked && a.time <= request ==> a.version <= read
  }

  ghost predicate Increasing(asked: seq<Asked>, version: nat) {
    && (forall i, j :: 0 <= i < j < |asked| ==> asked[i].time < asked[j].time && asked[i].version <= asked[j].version)
    && (forall i :: 0 <= i < |asked| ==> asked[i].version <= version)
  }

  /** The clock shows the last request, and so does the file, when it shows any. */
  ghost predicate Latest(asked: seq<Asked>, clock: int, request: Option<int>) {
    && (asked != [] ==> asked[|asked| - 1].time == clock)
    && (request.Some? ==> asked != [] && request.value == clock)
  }

  /** The host answered newer and newer requests, and the last of them is in the result. */
  ghost predicate Answered(handled: seq<int>, result: Option<Result>) {
    && (forall i, j :: 0 <= i < j < |handled| ==> handled[i] < handled[j])
    && (if handled == [] then result.None? else result.Some? && result.value.requestedAt == handled[|handled| - 1])
  }

  /** What the host is at: a request that was written, newer than all it answered, and for what it read so far. */
  ghost predicate Underway(w: World) {
    match w.phase
    case Idle => true
    case Saw(requested) => requested.Some? ==> requested.value <= w.clock
    case Begun(request) => request <= w.clock && (w.handled != [] ==> w.handled[|w.handled| - 1] < request)
    case Running(request, read) =>
      request <= w.clock && (w.handled != [] ==> w.handled[|w.handled| - 1] < request)
      && read <= w.version && Read(w.asked, request, read)
  }

  ghost predicate Consistent(w: World) {
    && Increasing(w.asked, w.version) && Latest(w.asked, w.clock, w.request)
    && (w.result.Some? ==>
          && Read(w.asked, w.result.value.requestedAt, w.result.value.read)
          && w.result.value.read <= w.version && w.result.value.requestedAt <= w.clock)
    && Answered(w.handled, w.result)
    && Underway(w)
  }

  /** Nothing written or answered is ever taken back. */
  ghost predicate Grew(before: World, after: World) {
    && before.asked <= after.asked && before.handled <= after.handled
    && before.clock <= after.clock && before.version <= after.version
  }

  lemma AskedNext(asked: seq<Asked>, clock: int, version: nat, now: int)
    requires Increasing(asked, version) && Latest(asked, clock, None) && clock < now
    ensures Increasing(asked + [Asked(now, version)], version) && Latest(asked + [Asked(now, version)], now, Some(now))
    ensures forall request, read :: request <= clock && Read(asked, request, read) ==>
              Read(asked + [Asked(now, version)], request, read)
  {
    var grown := asked + [Asked(now, version)];
    forall i, j | 0 <= i < j < |grown| ensures grown[i].time < grown[j].time && grown[i].version <= grown[j].version {
      assert i < |asked| - 1 ==> asked[i].time < asked[|asked| - 1].time;
    }
  }

  lemma AnsweredNext(handled: seq<int>, result: Option<Result>, next: Result)
    requires Answered(handled, result) && (handled != [] ==> handled[|handled| - 1] < next.requestedAt)
    ensures Answered(handled + [next.requestedAt], Some(next))
  {
    var grown := handled + [next.requestedAt];
    forall i, j | 0 <= i < j < |grown| ensures grown[i] < grown[j] {
      assert i < |handled| - 1 ==> handled[i] < handled[|handled| - 1];
    }
  }

  lemma ReadNow(asked: seq<Asked>, version: nat, request: int)
    requires Increasing(asked, version)
    ensures Read(asked, request, version)
  {
    forall a | a in asked ensures a.version <= version {
      var i :| 0 <= i < |asked| && asked[i] == a;
    }
  }

  lemma LatestWhileRewritten(asked: seq<Asked>, clock: int, request: Option<int>)
    ensures Latest(asked, clock, request) ==> Latest(asked, clock, None)
  {
  }

  lemma AskKeeps(w: World, later: nat)
    requires Consistent(w)
    ensures Consistent(Next(w, Ask(later))) && Grew(w, Next(w, Ask(later)))
  {
    hide Increasing, Latest, Answered, Read;
    LatestWhileRewritten(w.asked, w.clock, w.request);
    AskedNext(w.asked, w.clock, w.version, w.clock + 1 + later);
  }

  lemma ReadConfigKeeps(w: World)
    requires Consistent(w)
    ensures Consistent(Next(w, ReadConfig))
  {
    if w.phase.Begun? {
      ReadNow(w.asked, w.version, w.phase.request);
    }
    hide Increasing, Latest, Answered, Read;
  }

  lemma AnswerKeeps(w: World, ok: bool)
    requires Consistent(w)
    ensures Consistent(Next(w, Answer(ok)))
  {
    if w.phase.Running? {
      AnsweredNext(w.handled, w.result, Result(w.phase.request, ok, w.phase.read));
    }
    hide Increasing, Latest, Answered, Read;
  }

  lemma OtherKeeps(w: World, act: Act)
    requires Consistent(w) && !act.Ask? && !act.ReadConfig? && !act.Answer?
    ensures Consistent(Next(w, act))
  {
  }

  lemma NextGrows(w: World, act: Act)
    ensures Grew(w, Next(w, act))
  {
  }

  lemma NextKeeps(w: World, act: Act)
    requires Consistent(w)
    ensures Consistent(Next(w, act)) && Grew(w, Next(w, act))
  {
    NextGrows(w, act);
    hide *;
    if act.Ask? {
      AskKeeps(w, act.later);
    } else if act.ReadConfig? {
      ReadConfigKeeps(w);
    } else if act.Answer? {
      AnswerKeeps(w, act.ok);
    } else {
      OtherKeeps(w, act);
    }
  }

  /** Whatever panel and host do, in whatever order: answers grow newer, and the last answer is from an `up` that read a
      config at least as new as every request up to the one it answers. */
  lemma {:induction false} RunKeeps(w: World, acts: seq<Act>)
    requires Consistent(w)
    ensures Consistent(Run(w, acts)) && Grew(w, Run(w, acts))
    decreases acts
  {
    if acts != [] {
      NextKeeps(w, acts[0]);
      RunKeeps(Next(w, acts[0]), acts[1..]);
    }
  }

  lemma {:induction false} RunAppend(w: World, a: seq<Act>, b: seq<Act>)
    ensures Run(w, a + b) == Run(Run(w, a), b)
    decreases a
  {
    if a == [] {
      assert a + b == b;
    } else {
      assert (a + b)[1..] == a[1..] + b;
      RunAppend(Next(w, a[0]), a[1..], b);
    }
  }

  // ---- what the panel is shown ---------------------------------------------------------------------

  function StateOf(requested: Option<int>, last: Option<Result>, now: int): State {
    var waiting := IsNew(requested, last);
    if waiting && now - requested.value > APPLY_TIMEOUT_SECONDS
      then State(false, Some(Result(requested.value, false, 0)))
      else State(waiting, last)
  }

  /** An `up` read a config at least as new as each of these requests. */
  ghost predicate Covered(written: seq<Asked>, read: nat) {
    forall a :: a in written ==> a.version <= read
  }

  /** A result covers all requests exactly when it covers the last one; it does when it answers the last one. */
  lemma CoveredIff(written: seq<Asked>, version: nat, read: nat)
    requires Increasing(written, version)
    ensures Covered(written, read) <==> written == [] || written[|written| - 1].version <= read
  {
    if written != [] {
      assert written[|written| - 1] in written;
      forall a | a in written ensures a.version <= written[|written| - 1].version {
        var i :| 0 <= i < |written| && written[i] == a;
      }
    }
  }

  lemma PrefixIncreasing(written: seq<Asked>, asked: seq<Asked>, version: nat)
    requires Increasing(asked, version) && written <= asked
    ensures Increasing(written, version)
    ensures forall a :: a in written ==> a in asked
  {
    assert forall i :: 0 <= i < |written| ==> written[i] == asked[i];
  }

  lemma AnsweredIsCovered(written: seq<Asked>, asked: seq<Asked>, version: nat, last: Result)
    requires Increasing(asked, version) && written <= asked && Read(asked, last.requestedAt, last.read)
    requires written == [] || written[|written| - 1].time <= last.requestedAt
    ensures Covered(written, last.read)
  {
    PrefixIncreasing(written, asked, version);
    CoveredIff(written, version, last.read);
    if written != [] {
      assert written[|written| - 1] in written;
    }
  }

  /** What the last result read, in any state that can be reached. */
  lemma ResultReads(w: World)
    requires Consistent(w) && w.result.Some?
    ensures Increasing(w.asked, w.version) && Read(w.asked, w.result.value.requestedAt, w.result.value.read)
  {
  }

  /** The last request written is the one the file shows, when it shows any. */
  lemma ShowsLast(w: World)
    requires Consistent(w) && w.request.Some?
    ensures w.asked != [] && w.asked[|w.asked| - 1].time == w.request.value
  {
  }

  /** What `up` reads is the config as it is by then. */
  lemma UpReads(w: World, behind: seq<Act>, ok: bool)
    requires w.phase.Begun? && IsPanel(behind)
    ensures var end := Next(Run(Next(w, ReadConfig), behind), Answer(ok));
            && end.phase.Idle? && end.handled == w.handled + [w.phase.request]
            && end.result == Some(Result(w.phase.request, ok, w.version))
  {
    PanelOnly(Next(w, ReadConfig), behind);
  }

  /** How a turn of `apply` ends: going on, well, or with an `up` that failed. `requested` is what it read last, `written`
      what had been asked by then. */
  datatype Ending = Ending(world: World, ended: bool, failed: bool, requested: Option<int>, written: seq<Asked>)

  /** One turn of the loop: the request is read, then the result; a newer request is answered by an `up`, which may fail. The
      panel works on before each of the four accesses. */
  function Turn(w: World, first: seq<Act>, second: seq<Act>, third: seq<Act>, fourth: seq<Act>, up: bool): Ending {
    var asked := Run(w, first);
    var looked := Run(Next(asked, ReadRequest), second);
    var decided := Next(looked, ReadResult);
    if !IsNew(asked.request, looked.result) then Ending(decided, true, false, asked.request, asked.asked)
    else Ending(Next(Run(Next(Run(decided, third), ReadConfig), fourth), Answer(up)), !up, !up, asked.request, asked.asked)
  }

  function Turns(w: World, acts: seq<seq<Act>>, ups: seq<bool>, turn: nat, rounds: nat): Ending
    decreases rounds - turn
  {
    if turn >= rounds then Ending(w, false, false, None, []) else
      var ending := Turn(w, ActsAt(acts, 4 * turn), ActsAt(acts, 4 * turn + 1), ActsAt(acts, 4 * turn + 2),
                         ActsAt(acts, 4 * turn + 3), UpAt(ups, turn));
      if ending.ended then ending else Turns(ending.world, acts, ups, turn + 1, rounds)
  }

  /** Whether the `up` of a turn goes well. */
  function UpAt(ups: seq<bool>, turn: nat): bool {
    turn >= |ups| || ups[turn]
  }

  /** While the panel rests one turn answers what is pending and the next finds nothing more. */
  lemma RestingPanel(w: World, ups: seq<bool>, rounds: nat)
    requires w.phase.Idle? && rounds >= 2
    ensures var end := Turns(w, [], ups, 0, rounds);
            if w.request.None? || (w.result.Some? && w.request.value <= w.result.value.requestedAt) then
              end.world == w && end.ended && !end.failed && end.requested == w.request
            else
              && end.ended && end.failed == !UpAt(ups, 0) && end.world.handled == w.handled + [w.request.value]
              && end.world.result == Some(Result(w.request.value, UpAt(ups, 0), w.version))
  {
    RestingTurn(w, UpAt(ups, 0));
    if IsNew(w.request, w.result) && UpAt(ups, 0) {
      RestingTurn(Turn(w, [], [], [], [], true).world, UpAt(ups, 1));
    }
    hide Turn;
    assert Turns(w, [], ups, 0, rounds)
        == var ending := Turn(w, [], [], [], [], UpAt(ups, 0)); if ending.ended then ending
            else Turns(ending.world, [], ups, 1, rounds);
  }

  lemma RestingTurn(w: World, up: bool)
    requires w.phase.Idle?
    ensures Turn(w, [], [], [], [], up)
         == if IsNew(w.request, w.result)
            then Ending(w.(result := Some(Result(w.request.value, up, w.version)), handled := w.handled + [w.request.value]),
                        !up, !up, w.request, w.asked)
            else Ending(w, true, false, w.request, w.asked)
  {
  }

  class Handshake {
    var world: World

    ghost predicate Valid()
      reads this
    {
      Consistent(world)
    }

    constructor ()
      ensures Valid() && world == START
    {
      world := START;
    }

    method Step(act: Act)
      requires Valid()
      modifies this
      ensures Valid() && world == Next(old(world), act) && Grew(old(world), world)
    {
      NextKeeps(world, act);
      world := Next(world, act);
    }

    /** Panel and host at work, in any order. */
    method Steps(acts: seq<Act>)
      requires Valid()
      modifies this
      ensures Valid() && world == Run(old(world), acts) && Grew(old(world), world)
    {
      for i := 0 to |acts|
        invariant Valid() && Run(world, acts[i..]) == Run(old(world), acts) && Grew(old(world), world)
      {
        assert acts[i..][1..] == acts[i + 1..] && acts[i..][0] == acts[i];
        Step(acts[i]);
      }
      assert acts[|acts|..] == [];
    }

    /** `apply_state`, while host and panel work on: between its two reads either may do anything, write a result or a
        request among it. When it read a request and says that nothing is pending and the last run went well, that run
        read a config at least as new as every request written by then. */
    method ApplyState(now: int, before: seq<Act>, between: seq<Act>)
      returns (state: State, requested: Option<int>, ghost written: seq<Asked>)
      requires Valid()
      modifies this
      ensures Valid() && Grew(old(world), world)
      ensures written == Run(old(world), before).asked && requested == Run(old(world), before).request
      ensures state == StateOf(requested, world.result, now) && world == Run(old(world), before + between)
      ensures requested.Some? && !state.pending && state.last.Some? && state.last.value.ok ==>
                Covered(written, state.last.value.read)
      // whatever it read, the result it shows covers every request written exactly when it covers the last one, and it
      // does when it answers that one
      ensures world.result.Some? ==>
                (Covered(written, world.result.value.read)
                 <==> written == [] || written[|written| - 1].version <= world.result.value.read)
      ensures world.result.Some? && written != [] && written[|written| - 1].time <= world.result.value.requestedAt ==>
                Covered(written, world.result.value.read)
      // pending is a request nobody answered, until it is too old to be answered any more
      ensures state.pending <==> IsNew(requested, world.result) && now - requested.value <= 300
      ensures IsNew(requested, world.result) && !state.pending ==> state.last.Some? && !state.last.value.ok
    {
      hide Consistent, Run, Covered, Read, Increasing, Next;
      Steps(before);
      requested := world.request;
      written := world.asked;
      if requested.Some? {
        ShowsLast(world);
      }
      RunAppend(old(world), before, between);
      Steps(between);
      state := StateOf(requested, world.result, now);
      if world.result.Some? {
        ResultReads(world);
        PrefixIncreasing(written, world.asked, world.version);
        CoveredIff(written, world.version, world.result.value.read);
        if written == [] || written[|written| - 1].time <= world.result.value.requestedAt {
          AnsweredIsCovered(written, world.asked, world.version, world.result.value);
        }
      }
    }

    /** The `apply` command while the panel works on, its acts coming between any two steps. Every request it answers is
        newer than the one before; when it ends without a failure it found no request, or every request it could see
        answered by an `up` that read a config at least as new. */
    method Apply(acts: seq<seq<Act>>, ups: seq<bool>, rounds: nat)
      returns (ended: bool, failed: bool, requested: Option<int>, ghost written: seq<Asked>)
      requires Valid() && world.phase.Idle? && OfPanel(acts)
      modifies this
      ensures Valid() && Grew(old(world), world)
      ensures ended && !failed && requested.Some? ==> world.result.Some? && Covered(written, world.result.value.read)
      ensures failed ==> world.result.Some? && !world.result.value.ok
      ensures Ending(world, ended, failed, requested, written) == Turns(old(world), acts, ups, 0, rounds)
      // a run that did not end answered a newer request every turn
      ensures !ended ==> |world.handled| == |old(world).handled| + rounds
    {
      hide Consistent, Turn, Run, Next;
      ended, failed, requested, written := false, false, None, [];
      for i := 0 to rounds
        invariant Valid() && Grew(old(world), world) && world.phase.Idle?
        invariant |world.handled| == |old(world).handled| + i
        invariant Turns(world, acts, ups, i, rounds) == Turns(old(world), acts, ups, 0, rounds)
      {
        ended, failed, requested, written :=
          Iterate(ActsAt(acts, 4 * i), ActsAt(acts, 4 * i + 1), ActsAt(acts, 4 * i + 2), ActsAt(acts, 4 * i + 3),
              UpAt(ups, i));
        if ended {
          return;
        }
      }
      ended, failed, requested, written := false, false, None, [];
    }

    /** One turn of the loop. */
    method Iterate(first: seq<Act>, second: seq<Act>, third: seq<Act>, fourth: seq<Act>, up: bool)
      returns (ended: bool, failed: bool, requested: Option<int>, ghost written: seq<Asked>)
      requires Valid() && world.phase.Idle?
      requires IsPanel(first) && IsPanel(second) && IsPanel(third) && IsPanel(fourth)
      modifies this
      ensures Valid() && Grew(old(world), world) && world.phase.Idle?
      ensures ended && !failed && requested.Some? ==> world.result.Some? && Covered(written, world.result.value.read)
      ensures failed ==> ended && world.result.Some? && !world.result.value.ok
      // a request that is answered is newer than every one answered before
      ensures !ended || failed ==> requested.Some? && world.handled == old(world).handled + [requested.value]
      // it ends well exactly when the request it reads is answered already, and badly exactly when its `up` fails
      ensures requested == Run(old(world), first).request && written == Run(old(world), first).asked
      ensures ended && !failed <==>
                requested.None? || (old(world).result.Some? && requested.value <= old(world).result.value.requestedAt)
      ensures ended && !failed ==> world.handled == old(world).handled && world.result == old(world).result
      ensures failed <==> !(ended && !failed) && !up
      ensures Ending(world, ended, failed, requested, written) == Turn(old(world), first, second, third, fourth, up)
    {
      hide Consistent, Run, Covered, Read, Increasing;
      Panel(first);
      requested := world.request;
      written := world.asked;
      if requested.Some? {
        ShowsLast(world);
      }
      Step(ReadRequest);
      Panel(second);
      var isNew := IsNew(requested, world.result);
      Step(ReadResult);
      if !isNew {
        if requested.Some? {
          ResultReads(world);
          AnsweredIsCovered(written, world.asked, world.version, world.result.value);
        }
        return true, false, requested, written;
      }
      Up(requested.value, third, fourth, up);
      ended, failed := !up, !up;
    }

    /** `up`, begun for a request, and the result it ends with: it covers every request up to that one. */
    method Up(request: int, before: seq<Act>, behind: seq<Act>, ok: bool)
      requires Valid() && world.phase == Begun(request) && IsPanel(before) && IsPanel(behind)
      modifies this
      ensures Valid() && Grew(old(world), world) && world.phase.Idle?
      ensures world == Next(Run(Next(Run(old(world), before), ReadConfig), behind), Answer(ok))
      ensures world.handled == old(world).handled + [request]
      ensures world.result.Some? && world.result.value.requestedAt == request && world.result.value.ok == ok
      ensures Read(world.asked, request, world.result.value.read) && old(world).version <= world.result.value.read
    {
      hide Consistent, Run, Read, Increasing, Next;
      Panel(before);
      ghost var begun := world;
      Step(ReadConfig);
      Panel(behind);
      UpReads(begun, behind, ok);
      Step(Answer(ok));
      ResultReads(world);
    }

    /** The panel alone: the host stays where it is. */
    method Panel(acts: seq<Act>)
      requires Valid() && IsPanel(acts)
      modifies this
      ensures Valid() && world == Run(old(world), acts) && Grew(old(world), world)
      ensures world.phase == old(world).phase && world.result == old(world).result && world.handled == old(world).handled
    {
      PanelOnly(world, acts);
      Steps(acts);
    }

    /** While the panel rewrites its request a reader finds none, and the answer to an older request passes for the answer
        to everything: from the start of the box, one request answered, one edit and one request more. */
    method RewritingHidesARequest(now: int) returns (state: State)
      requires world == START
      modifies this
      ensures Valid() && state == State(false, Some(Result(1, true, 0)))
      ensures world.asked == [Asked(1, 0), Asked(2, 1)] && !Covered(world.asked, state.last.value.read)
    {
      HiddenRun();
      Steps(HIDING);
      var requested;
      ghost var written;
      state, requested, written := ApplyState(now, [], []);
      assert HIDDEN.asked[1] in HIDDEN.asked;
    }
  }

  const HIDING: seq<Act> := [Ask(0), ReadRequest, ReadResult, ReadConfig, Answer(true), Edit, Ask(0), Truncate]

  const HIDDEN := World(2, 1, None, Some(Result(1, true, 0)), Idle, [Asked(1, 0), Asked(2, 1)], [1])

  lemma HiddenRun()
    ensures Run(START, HIDING) == HIDDEN
  {
    var first := HIDING[..5];
    assert HIDING == first + [Edit, Ask(0), Truncate];
    RunAppend(START, first, [Edit, Ask(0), Truncate]);
    AnsweredOnce();
    var answered := World(1, 0, Some(1), Some(Result(1, true, 0)), Idle, [Asked(1, 0)], [1]);
    RunThree(answered, Edit, Ask(0), Truncate);
  }

  lemma AnsweredOnce()
    ensures Run(START, HIDING[..5]) == World(1, 0, Some(1), Some(Result(1, true, 0)), Idle, [Asked(1, 0)], [1])
  {
    assert HIDING[..5] == [Ask(0), ReadRequest] + [ReadResult, ReadConfig, Answer(true)];
    RunAppend(START, [Ask(0), ReadRequest], [ReadResult, ReadConfig, Answer(true)]);
    RunTwo(START, Ask(0), ReadRequest);
    RunThree(World(1, 0, Some(1), None, Saw(Some(1)), [Asked(1, 0)], []), ReadResult, ReadConfig, Answer(true));
  }

  lemma RunOne(w: World, a: Act)
    ensures Run(w, [a]) == Next(w, a)
  {
    assert [a][1..] == [];
  }

  lemma RunTwo(w: World, a: Act, b: Act)
    ensures Run(w, [a, b]) == Next(Next(w, a), b)
  {
    assert [a, b][1..] == [b];
    RunOne(Next(w, a), b);
  }

  lemma RunThree(w: World, a: Act, b: Act, c: Act)
    ensures Run(w, [a, b, c]) == Next(Next(Next(w, a), b), c)
  {
    assert [a, b, c][1..] == [b, c];
    RunTwo(Next(w, a), b, c);
  }

  predicate IsPanel(acts: seq<Act>) {
    forall a :: a in acts ==> a.Edit? || a.Truncate? || a.Ask?
  }

  predicate OfPanel(acts: seq<seq<Act>>) {
    forall part :: part in acts ==> IsPanel(part)
  }

  function ActsAt(acts: seq<seq<Act>>, i: nat): (part: seq<Act>)
    ensures OfPanel(acts) ==> IsPanel(part)
  {
    if i < |acts| then acts[i] else []
  }

  lemma {:induction false} PanelOnly(w: World, acts: seq<Act>)
    requires IsPanel(acts)
    ensures Run(w, acts).phase == w.phase && Run(w, acts).result == w.result && Run(w, acts).handled == w.handled
    decreases acts
  {
    if acts != [] {
      PanelOnly(Next(w, acts[0]), acts[1..]);
    }
  }
}
