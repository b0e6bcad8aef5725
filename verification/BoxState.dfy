/** The configuration core serves and applies (core/vibedpn/api/state.py). */
module BoxStates {
  import opened Options
  import opened Configuration
  import opened Uplinks
  import opened RuleTable
  import opened Writes
  import Commands
  import opened KillSwitch

  /** How a request ended. Unwritten: the file could not be read or written, and nothing happened. Refused is the
      router's error, which `edit` handles. Raised is any other error behind the rename, which it does not: of the write
      itself, of the apply step (the resolver that is refilled after the router), or of putting the file back. */
  datatype Outcome = Done | Unwritten | Refused | Raised

  /** How the write of the file goes, that of the old text when it is put back, and whether the apply step raises behind
      the router. */
  datatype Faults = Faults(write: Fault, undo: Fault, behind: bool)

  /** How an edit of the file ends, given whether the router took the configuration. */
  function EndOf(before: Config, written: Config, faults: Faults, applied: bool): Outcome {
    if written == before then Done
    else if faults.write == Early then Unwritten
    else if faults.write == Late then Raised
    else if applied then (if faults.behind then Raised else Done)
    else if faults.undo == Fine then Refused
    else Raised
  }

  /** What the file says then. */
  function FileAfter(before: Config, written: Config, faults: Faults, applied: bool): Config {
    if faults.write == Early || (faults.write == Fine && !applied && faults.undo != Early) then before else written
  }

  /** One request of a life of the box, or time. */
  datatype Step = Saving(network: Option<Network>, write: Fault) | Editing(written: Config, faults: Faults) | Waiting

  /** The faults that may leave the file ahead of memory. */
  predicate Tears(step: Step) {
    match step
    case Saving(_, write) => write == Late
    case Editing(_, faults) => faults.write == Late || faults.behind || faults.undo == Early
    case Waiting => false
  }

  /** What requests change; whether the host has its programs and refuses nothing any more, and what the gateway routes are
      once the watchers run again. */
  datatype Moment = Moment(config: Config, pending: Option<Config>, file: Config, host: Host, able: bool,
                           watched: map<int, int>)

  /** An edit that changes the file, given whether the router took it. */
  ghost predicate Edited(before: Moment, written: Config, faults: Faults, applied: bool, haveIp: bool, after: Moment) {
    var outcome := EndOf(before.file, written, faults, applied);
    && after.file == FileAfter(before.file, written, faults, applied)
    && (if outcome == Done then
          && after.config == written.(network := before.config.network)
          && after.pending == if before.pending.Some? then Some(written) else None
        else after.config == before.config && after.pending == before.pending)
    && (applied ==> Steers(after.host, haveIp, written.(network := before.config.network)))
    && (outcome == Unwritten ==> after.host == before.host)
    && (before.able ==> after.able && (faults.write == Fine ==> applied))
  }

  /** One step. A change that is no valid configuration with the network of the file is rejected before it is written; one
      that says what the file says is served at once. */
  ghost predicate Next(before: Moment, step: Step, haveIp: bool, after: Moment) {
    match step
    case Saving(network, write) =>
      var wanted := before.file.(network := network);
      var ok := wanted == before.file || write == Fine;
      after == before.(file := if ok || write == Late then wanted else before.file,
                       pending := if !ok then before.pending
                                  else if network != before.config.network then Some(wanted) else None)
    case Editing(written, faults) =>
      if written.network != before.file.network || !Promised(written) then after == before
      else if written == before.file then after == before.(config := written.(network := before.config.network))
      else exists applied: bool :: Edited(before, written, faults, applied, haveIp, after)
    case Waiting => after == before.(host := before.host.(gateways := before.watched), watched := after.watched)
  }

  ghost predicate IsRun(moments: seq<Moment>, steps: seq<Step>, haveIp: bool) {
    && |moments| == |steps| + 1
    && forall i :: 0 <= i < |steps| ==> Next(moments[i], steps[i], haveIp, moments[i + 1])
  }

  lemma RunGrows(moments: seq<Moment>, steps: seq<Step>, i: nat, haveIp: bool, after: Moment)
    requires i < |steps| && IsRun(moments, steps[..i], haveIp) && Next(moments[i], steps[i], haveIp, after)
    ensures IsRun(moments + [after], steps[..i + 1], haveIp)
  {
    hide Next;
  }

  lemma RunOfNothing(moment: Moment, steps: seq<Step>, haveIp: bool)
    ensures IsRun([moment], steps[..0], haveIp)
  {
  }

  lemma EditIs(before: Moment, written: Config, faults: Faults, applied: bool, haveIp: bool, after: Moment)
    requires written.network == before.file.network && Promised(written) && written != before.file
    requires Edited(before, written, faults, applied, haveIp, after)
    ensures Next(before, Editing(written, faults), haveIp, after)
  {
    hide Edited, Promised;
  }

  /** The promise does not depend on the network. */
  lemma PromisedAnyway(config: Config, network: Option<Network>)
    requires Promised(config)
    ensures Promised(config.(network := network))
  {
    var other := config.(network := network);
    assert other.Channels() == config.Channels() && RuleCountries(other) == RuleCountries(config);
  }

  /** `saved`. */
  function Saved(config: Config, pending: Option<Config>): Config {
    if pending.Some? then pending.value else config
  }

  /** `restart_required`. */
  predicate RestartRequired(config: Config, pending: Option<Config>) {
    pending.Some? && pending.value.network != config.network
  }

  /** File and memory say the same, but for a network that waits for the restart. */
  ghost predicate Agree(config: Config, pending: Option<Config>, file: Config) {
    && file == Saved(config, pending)
    && config == file.(network := config.network)
    && (RestartRequired(config, pending) <==> file.network != config.network)
  }

  /** The host routes what the configuration asks for: its marks, one rule per uplink in use, and their last resorts; for a
      box without a network nothing of that, as far as there is an `ip` command to take it back. */
  ghost predicate Steers(host: Host, haveIp: bool, config: Config) {
    if config.network.None? then host.marks == {} && (haveIp ==> Settled(host, {}, [])) else
      exists used: seq<Key> ::
        && (forall key :: key in used <==> MayTake(config, key))
        && (forall key :: key in used ==> key in UplinkTable(config))
        && Settled(host, RulesetMarks(config), Wanted(UplinkTable(config), used))
  }

  /** An edit keeps the agreement when it goes through, and breaks it when it ends behind the write. */
  lemma EditAgrees(config: Config, pending: Option<Config>, file: Config, written: Config)
    requires Agree(config, pending, file) && written.network == file.network
    ensures var running := written.(network := config.network);
            && (written == file ==> running == config)
            && Agree(running, if pending.Some? then Some(written) else pending, written)
            && (written != file ==> !Agree(config, pending, written))
  {
  }

  lemma EndsAgree(config: Config, pending: Option<Config>, file: Config, written: Config)
    requires written.network == file.network
    ensures var running := written.(network := config.network);
            Agree(config, pending, file) ==>
              && (written == file ==> Agree(running, pending, written))
              && Agree(running, if pending.Some? then Some(written) else None, written)
              && (written != file ==> !Agree(config, pending, written))
  {
    if Agree(config, pending, file) {
      EditAgrees(config, pending, file, written);
    }
  }

  lemma EndOfNothing(file: Config, faults: Faults)
    ensures EndOf(file, file, faults, false) == Done && FileAfter(file, file, faults, false) == file
  {
  }

  /** Only an edit that is done leaves the new text for sure. */
  lemma FileIsEither(before: Config, written: Config, faults: Faults)
    requires written != before
    ensures forall applied :: FileAfter(before, written, faults, applied) in {before, written}
    ensures forall applied :: EndOf(before, written, faults, applied) == Done ==>
              FileAfter(before, written, faults, applied) == written
  {
  }

  class BoxState {
    var config: Config            // what the box runs
    var pending: Option<Config>   // config.yaml with a network change that waits for a restart
    var file: Config              // config.yaml, parsed
    const host: RouterHost

    constructor (config: Config, host: RouterHost)
      requires host.Guarded() && host.Transits() && Promised(config)
      ensures this.host == host && this.config == config && Consistent() && Ready()
    {
      this.config := config;
      this.pending := None;
      this.file := config;
      this.host := host;
    }

    ghost predicate Consistent()
      reads this
    {
      Agree(config, pending, file)
    }

    ghost predicate Ready()
      reads this, host
    {
      host.Guarded() && host.Transits() && Promised(config)
    }

    ghost function Now(): Moment
      reads this, host
    {
      Moment(config, pending, file, host.host, host.Able(), host.Watched())
    }

    /** `save`: only the file changes, for changes of the network itself. */
    method Save(network: Option<Network>, write: Fault) returns (ok: bool)
      requires Ready()
      modifies this`file, this`pending
      ensures var wanted := old(file).(network := network);
              && ok == (wanted == old(file) || write == Fine)
              && file == (if wanted == old(file) || write != Early then wanted else old(file))
              && pending == if ok then (if network != config.network then Some(wanted) else None) else old(pending)
      ensures Ready() && (old(Consistent()) && write != Late ==> Consistent())
    {
      hide RouterHost.Guarded, RouterHost.Transits, Promised;
      var wanted := file.(network := network);
      if wanted != file {
        if write == Early {
          return false;
        }
        file := wanted;
        if write == Late {
          return false;
        }
      }
      pending := if file.network != config.network then Some(file) else None;
      ok := true;
    }

    /** The router's apply step. */
    method Apply(next: Config) returns (ok: bool)
      requires Ready() && Promised(next)
      modifies host
      ensures Ready() && old(host.history) <= host.history
      ensures ok ==> Steers(host.host, host.haveIp, next)
      ensures old(host.Able()) ==> ok && host.Able()
      ensures !ok && old(Shaken()) ==> host.Able()
    {
      hide Promised, Safe;
      var used;
      ok, used := host.ApplyRouter(next);
      if !ok && old(Shaken()) {
        Commands.RanOnce(old(host.refusals), host.refusals);
      }
    }

    /** The host has its programs and refuses one of the coming commands at most. */
    ghost predicate Shaken()
      reads host
    {
      host.haveIp && host.haveIptables && Commands.OneRefusal(host.refusals)
    }

    /** The previous file is put back and applied again, as far as the router takes it; the write itself may fail. */
    method PutBack(before: Config, undo: Fault) returns (ok: bool)
      requires Ready()
      modifies this`file, host
      ensures Ready() && old(host.history) <= host.history && ok == (undo == Fine)
      ensures file == if undo == Early then old(file) else before
      ensures ok && old(host.Able()) ==> Steers(host.host, host.haveIp, config)
    {
      hide Promised, Safe;
      if undo != Early {
        file := before;
      }
      ok := undo == Fine;
      if ok {
        var _ := Apply(config);
      }
    }

    /** What was applied is what core serves from now on. */
    method Serve(running: Config, saved: Option<Config>)
      requires Ready() && Promised(running)
      modifies this`config, this`pending
      ensures Ready() && config == running && pending == saved
    {
      hide Promised, Safe;
      config, pending := running, saved;
    }

    /** `edit`: write, apply, and put the file back when the router refuses. */
    method Edit(written: Config, faults: Faults) returns (outcome: Outcome, ghost applied: bool)
      requires Ready() && written.network == file.network && Promised(written)
      modifies this, host
      ensures Ready() && old(host.history) <= host.history && config.network == old(config.network)
      ensures outcome == EndOf(old(file), written, faults, applied) && file == FileAfter(old(file), written, faults, applied)
      ensures outcome == Done && written != old(file) ==> Steers(host.host, host.haveIp, config)
      ensures outcome == Done ==> config == written.(network := old(config.network))
                                  && (old(Consistent()) ==> Consistent())
      ensures if written == old(file) then Now() == old(Now()).(config := written.(network := old(config.network)))
              else Edited(old(Now()), written, faults, applied, host.haveIp, Now())
      ensures outcome != Done ==> config == old(config) && pending == old(pending)
      ensures outcome == Unwritten ==> host.host == old(host.host) && host.history == old(host.history)
      // a host that refuses nothing takes it; one that refuses a single command routes by the old configuration again
      ensures old(host.Able()) && written != old(file) && faults.write == Fine ==> applied
      ensures outcome == Refused && old(Shaken()) ==> Steers(host.host, host.haveIp, config)
      // behind an error file and memory still agree exactly when the file says what it said
      ensures outcome != Done && old(Consistent()) ==> (Consistent() <==> file == old(file))
    {
      hide Promised, RouterHost.Guarded, RouterHost.Transits, RouterHost.Able, Agree, Steers, Shaken, FileAfter, EndOf;
      EndsAgree(config, pending, file, written);
      if written == file {
        applied := false;
        EndOfNothing(file, faults);
        PromisedAnyway(written, config.network);
        Serve(written.(network := config.network), pending);
        return Done, applied;
      }
      FileIsEither(file, written, faults);
      outcome, applied := Rewrite(written, faults);
    }

    method Rewrite(written: Config, faults: Faults) returns (outcome: Outcome, ghost applied: bool)
      requires Ready() && written != file && Promised(written)
      modifies this, host
      ensures Ready() && old(host.history) <= host.history
      ensures outcome == EndOf(old(file), written, faults, applied) && file == FileAfter(old(file), written, faults, applied)
      ensures if outcome == Done then
                && Steers(host.host, host.haveIp, config) && config == written.(network := old(config.network))
                && pending == if old(pending).Some? then Some(written) else None
              else config == old(config) && pending == old(pending)
      ensures Edited(old(Now()), written, faults, applied, host.haveIp, Now())
      ensures outcome == Unwritten ==> host.host == old(host.host) && host.history == old(host.history)
      ensures old(host.Able()) && faults.write == Fine ==> applied
      ensures outcome == Refused && old(Shaken()) ==> Steers(host.host, host.haveIp, config)
    {
      PromisedAnyway(written, config.network);
      hide Promised, RouterHost.Guarded, RouterHost.Transits, RouterHost.Able, Agree, Steers, Shaken, Safe;
      applied := false;
      if faults.write == Early {
        return Unwritten, applied;
      }
      var before := file;
      var running := written.(network := config.network);
      file := written;
      if faults.write == Late {
        return Raised, applied;
      }
      var ok := Apply(running);
      applied := ok;
      if !ok {
        var back := PutBack(before, faults.undo);
        return if back then Refused else Raised, applied;
      }
      if faults.behind {
        return Raised, applied;
      }
      Serve(running, if pending.Some? then Some(written) else pending);
      outcome := Done;
    }

    /** Any life of the box: any edits and saves, each accepted or refused, with any faults, refused commands and watcher
        rounds at every point. In no state on the way does a marked packet leave its uplink, and the running network stays
        the one the box started with. Without the faults that tear them, file and memory agree to the end. */
    method Live(steps: seq<Step>) returns (ghost moments: seq<Moment>)
      requires Consistent() && Ready()
      modifies this, host
      ensures Ready() && config.network == old(config.network) && old(host.history) <= host.history
      ensures IsRun(moments, steps, host.haveIp) && |moments| == |steps| + 1 && moments[0] == old(Now())
                && moments[|steps|] == Now()
      ensures (forall step :: step in steps ==> !Tears(step)) ==> Consistent()
      ensures forall h :: h in host.history ==> Held(h, host.routed)
    {
      hide *;
      moments := [Now()];
      RunOfNothing(Now(), steps, host.haveIp);
      for i := 0 to |steps|
        invariant Ready() && config.network == old(config.network) && old(host.history) <= host.history
        invariant (forall step :: step in steps ==> !Tears(step)) ==> Consistent()
        invariant IsRun(moments, steps[..i], host.haveIp) && |moments| == i + 1 && moments[0] == old(Now())
                    && moments[i] == Now()
      {
        hide *;
        assert steps[i] in steps;
        Do(steps[i]);
        RunGrows(moments, steps, i, host.haveIp, Now());
        moments := moments + [Now()];
      }
      assert steps[..|steps|] == steps;
      HistoryHeld();
    }

    lemma HistoryHeld()
      requires Ready()
      ensures forall h :: h in host.history ==> Held(h, host.routed)
    {
      forall h | h in host.history ensures Held(h, host.routed) {
        SafeIsHeld(h, host.routed);
      }
    }

    method Do(step: Step)
      requires Ready()
      modifies this, host
      ensures Ready() && config.network == old(config.network) && old(host.history) <= host.history
      ensures Next(old(Now()), step, host.haveIp, Now())
      ensures old(Consistent()) && !Tears(step) ==> Consistent()
    {
      hide RouterHost.Guarded, RouterHost.Transits, Promised, Agree, Steers, Edited;
      match step
      case Saving(network, write) =>
        var _ := Save(network, write);
      case Editing(written, faults) =>
        if written.network == file.network && Promised(written) {
          ghost var before := Now();
          var _, applied := Edit(written, faults);
          if written != before.file {
            EditIs(before, written, faults, applied, host.haveIp, Now());
          }
        }
      case Waiting =>
        host.Watch();
    }
  }
}
