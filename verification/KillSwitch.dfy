/** The LAN router of a host, applied one command at a time while the uplink watchers run beside it
    (core/vibedpn/engine/router.py, `apply_router`, `remove_router`, `set_gateway_route`). */
module KillSwitch {
  import opened Options
  import opened Commands
  import opened Configuration
  import opened Slots
  import opened RuleTable
  import opened Uplinks
  import opened Rulesets
  import DockerUser
  type Args = DockerUser.Args

  /** What the host routes with: the rules in kernel order, per table the gateway of its default route, the
      tables with a last-resort route, and the marks the loaded ruleset can set. */
  datatype Host = Host(rules: seq<Rule>, gateways: map<int, int>, lastResorts: set<int>, marks: set<int>)

  // ---- where a marked packet goes ------------------------------------------------------------------

  datatype Verdict = ToGateway(octet: int) | Unreachable | Elsewhere(table: Option<int>) | NoRoute

  predicate Matches(rule: Rule, mark: int) {
    rule.fwmark.None? || rule.fwmark == Some(mark)
  }

  /** The kernel's lookup: the first matching rule whose table has a route decides. `routed` are the tables
      of others in which the packet would find one, the main table among them; a rule without a table
      decides by itself. The gateway route wins over the last resort: its metric is smaller. */
  function Lookup(rules: seq<Rule>, host: Host, routed: set<int>, mark: int): Verdict {
    if rules == [] then NoRoute
    else if !Matches(rules[0], mark) then Lookup(rules[1..], host, routed, mark)
    else match rules[0].table
      case None => Elsewhere(None)
      case Some(table) =>
        if table in host.gateways then ToGateway(host.gateways[table])
        else if table in host.lastResorts then Unreachable
        else if table in routed then Elsewhere(Some(table))
        else Lookup(rules[1..], host, routed, mark)
  }

  predicate IsSlotMark(mark: int) {
    mark == 0x10 || mark == 0x20 || mark == 0x60 || 0x40 <= mark < 0x48 || 0x50 <= mark < 0x58
  }

  function SlotOfMark(mark: int): (uplink: Uplink)
    requires IsSlotMark(mark)
    ensures IsSlot(uplink) && uplink.mark == mark
  {
    if mark == 0x10 then VPS else if mark == 0x20 then DPN else if mark == 0x60 then TOR
    else if mark < 0x48 then CountryUplink(mark - 0x40) else WgUplink(mark - 0x50)
  }

  /** No rule of others leads a packet of ours away before its own rule is asked: a rule at or below that
      priority that matches its mark looks into a table without a route for it. */
  ghost predicate NoDetour(rules: seq<Rule>, routed: set<int>) {
    forall r, mark :: r in rules && IsSlotMark(mark) && r.priority <= SlotOfMark(mark).table && Matches(r, mark) ==>
      || r == Exact(SlotOfMark(mark))
      || (r.table.Some? && !IsSlotTable(r.table.value) && r.table.value !in routed)
  }

  /** Everything the loaded ruleset can mark has its rule and its last resort. */
  ghost predicate Covered(host: Host) {
    forall mark :: mark in host.marks && mark != BLOCK_MARK ==>
      IsSlotMark(mark) && Exact(SlotOfMark(mark)) in host.rules && SlotOfMark(mark).table in host.lastResorts
  }

  ghost predicate Orderly(host: Host, routed: set<int>) {
    && Sorted(host.rules)
    && NoDetour(host.rules, routed)
    && (forall mark :: IsSlotMark(mark) ==> !Overtaken(host.rules, Exact(SlotOfMark(mark))))
    && (forall mark :: IsSlotMark(mark) && SlotOfMark(mark).table in host.gateways ==>
          host.gateways[SlotOfMark(mark).table] == SlotOfMark(mark).gateway)
    && (forall t :: t in host.gateways || t in host.lastResorts ==> IsSlotTable(t))
  }

  ghost predicate Safe(host: Host, routed: set<int>) {
    Orderly(host, routed) && Covered(host)
  }

  /** The kill switch: a packet with any mark the ruleset can set goes to the gateway of that mark's uplink
      while it has one and is unreachable otherwise. It never reaches another table. */
  ghost predicate Held(host: Host, routed: set<int>) {
    forall mark :: mark in host.marks && mark != BLOCK_MARK ==>
      && IsSlotMark(mark)
      && Lookup(host.rules, host, routed, mark)
         == if SlotOfMark(mark).table in host.gateways then ToGateway(SlotOfMark(mark).gateway) else Unreachable
  }

  lemma {:induction false} LookupFindsOwn(rules: seq<Rule>, host: Host, routed: set<int>, mark: int)
    requires Sorted(rules) && NoDetour(rules, routed)
    requires IsSlotMark(mark) && Exact(SlotOfMark(mark)) in rules
    requires forall t :: t in host.gateways || t in host.lastResorts ==> IsSlotTable(t)
    requires SlotOfMark(mark).table in host.lastResorts
    ensures Lookup(rules, host, routed, mark)
         == if SlotOfMark(mark).table in host.gateways then ToGateway(host.gateways[SlotOfMark(mark).table]) else Unreachable
  {
    var own := Exact(SlotOfMark(mark));
    if rules[0] != own {
      assert rules[0].priority <= own.priority;
      assert own in rules[1..];
      LookupFindsOwn(rules[1..], host, routed, mark);
    }
  }

  lemma SafeIsHeld(host: Host, routed: set<int>)
    requires Safe(host, routed)
    ensures Held(host, routed)
  {
    forall mark | mark in host.marks && mark != BLOCK_MARK
      ensures Lookup(host.rules, host, routed, mark)
           == if SlotOfMark(mark).table in host.gateways then ToGateway(SlotOfMark(mark).gateway) else Unreachable
    {
      LookupFindsOwn(host.rules, host, routed, mark);
    }
  }

  // ---- what one command keeps ----------------------------------------------------------------------

  lemma AddLeadsNowhere(rules: seq<Rule>, routed: set<int>, uplink: Uplink)
    requires NoDetour(rules, routed) && IsSlot(uplink)
    ensures NoDetour(Insert(rules, Exact(uplink)), routed)
  {
    InsertElements(rules, Exact(uplink));
    forall r, mark | r in Insert(rules, Exact(uplink)) && IsSlotMark(mark)
                     && r.priority <= SlotOfMark(mark).table && Matches(r, mark)
      ensures r == Exact(SlotOfMark(mark)) || (r.table.Some? && !IsSlotTable(r.table.value) && r.table.value !in routed)
    {
      if r !in rules {
        SlotsDistinct(uplink, SlotOfMark(mark));
      }
    }
  }

  lemma AddKeepsSafe(host: Host, routed: set<int>, uplink: Uplink)
    requires Safe(host, routed) && IsSlot(uplink)
    ensures Safe(host.(rules := Insert(host.rules, Exact(uplink))), routed)
  {
    var rules := Insert(host.rules, Exact(uplink));
    AddLeadsNowhere(host.rules, routed, uplink);
    InsertKeepsSorted(host.rules, Exact(uplink));
    InsertElements(host.rules, Exact(uplink));
    forall mark | IsSlotMark(mark) ensures !Overtaken(rules, Exact(SlotOfMark(mark))) {
      SlotsDistinct(uplink, SlotOfMark(mark));
      InsertOvertakesNothing(host.rules, Exact(uplink), Exact(SlotOfMark(mark)));
    }
  }

  lemma LastResortKeepsSafe(host: Host, routed: set<int>, uplink: Uplink)
    requires Safe(host, routed) && IsSlot(uplink)
    ensures Safe(host.(lastResorts := host.lastResorts + {uplink.table}), routed)
  {
    SlotsListed(uplink);
  }

  lemma DeleteKeepsOrder(host: Host, routed: set<int>, selector: Rule)
    requires Orderly(host, routed)
    ensures Orderly(host.(rules := DeleteFirst(host.rules, selector)), routed)
  {
    var rules := DeleteFirst(host.rules, selector);
    DeleteKeepsRules(host.rules, selector);
    forall mark | IsSlotMark(mark) ensures !Overtaken(rules, Exact(SlotOfMark(mark))) {
      DeleteOvertakesNothing(host.rules, selector, Exact(SlotOfMark(mark)));
    }
  }

  /** `used` as the uplinks `plan_rules` is given. */
  function Wanted(table: map<Key, Uplink>, used: seq<Key>): (wanted: seq<Uplink>)
    requires forall key :: key in used ==> key in table
    ensures |wanted| == |used| && forall i :: 0 <= i < |used| ==> wanted[i] == table[used[i]]
  {
    seq(|used|, i requires 0 <= i < |used| => table[used[i]])
  }

  lemma WantedByTable(wanted: seq<Uplink>, uplink: Uplink)
    requires uplink in wanted && forall u :: u in wanted ==> IsSlot(u)
    ensures ByTable(wanted, uplink.table) == Some(uplink)
  {
  }

  /** One more delete of the plan: nothing the new marks need goes with it. */
  lemma NextDelete(host: Host, routed: set<int>, listing: seq<Rule>, wanted: seq<Uplink>, ran: nat)
    requires Safe(host, routed) && Sorted(listing)
    requires ran < |PlannedDeletes(listing, wanted, SLOT_TABLES)|
    requires host.rules == Planned(listing, wanted, ran)
    requires forall u :: u in wanted ==> IsSlot(u)
    requires forall mark :: IsSlotMark(mark) ==> !Overtaken(listing, Exact(SlotOfMark(mark)))
    requires forall mark :: mark in host.marks && mark != BLOCK_MARK ==> SlotOfMark(mark) in wanted
    ensures var next := host.(rules := DeleteFirst(host.rules, PlannedDeletes(listing, wanted, SLOT_TABLES)[ran]));
            Safe(next, routed) && next.rules == Planned(listing, wanted, ran + 1)
  {
    var deletes := PlannedDeletes(listing, wanted, SLOT_TABLES);
    var next := host.(rules := DeleteFirst(host.rules, deletes[ran]));
    assert deletes[..ran + 1] == deletes[..ran] + [deletes[ran]];
    DeleteAllAppend(InsertAll(listing, PlannedAdds(listing, wanted, SLOT_TABLES)), deletes[..ran], [deletes[ran]]);
    assert [deletes[ran]][1..] == [];
    DeleteKeepsOrder(host, routed, deletes[ran]);
    forall mark | mark in host.marks && mark != BLOCK_MARK ensures Exact(SlotOfMark(mark)) in next.rules {
      WantedByTable(wanted, SlotOfMark(mark));
      WantedSlot(listing, wanted, ran + 1, SlotOfMark(mark));
    }
  }

  // ---- the host, one command at a time -------------------------------------------------------------

  /** The configurations the kill switch is promised for: `failopen` false, and no traffic for a named exit there is no
      slot for (the code limits countries to eight, but not exits). */
  predicate Promised(config: Config) {
    && Valid(config) && !config.routing.value.failopen
    && forall name :: name in config.upstreams.wg && LeadsTo(config, Exit(name)) ==> ExitPlace(config, name) < MAX_WG_UPLINKS
  }

  /** The mode or a rule names this exit; a network is all it takes for traffic to take it. */
  predicate LeadsTo(config: Config, key: Key) {
    config.routing.Some? &&
      ((config.routing.value.mode == Full && config.routing.value.defaultUpstream == key)
       || (IsSmart(config) && key in ChannelKeys(config.Channels())))
  }

  lemma TakenHasSlot(config: Config, key: Key)
    requires Promised(config) && MayTake(config, key)
    ensures key in TableKeys(config) && key in UplinkTable(config) && IsSlot(UplinkTable(config)[key])
  {
    TakenAreListed(config, key);
    TakenIsSlotIff(config, key);
  }

  /** One round of a watcher: the slot it watches, whether its gateway answered the probe, whether `ip` refused the route. */
  datatype Round = Round(slot: nat, alive: bool, refused: bool)

  /** What a round leaves of the gateway routes. */
  function AfterRound(gateways: map<int, int>, haveIp: bool, round: Round): map<int, int> {
    if round.slot >= |ALL_SLOTS| || !haveIp || round.refused then gateways
    else if round.alive then gateways[ALL_SLOTS[round.slot].table := ALL_SLOTS[round.slot].gateway]
    else gateways - {ALL_SLOTS[round.slot].table}
  }

  function AfterRounds(gateways: map<int, int>, haveIp: bool, rounds: seq<Round>): map<int, int> {
    if rounds == [] then gateways
    else AfterRound(AfterRounds(gateways, haveIp, rounds[..|rounds| - 1]), haveIp, rounds[|rounds| - 1])
  }

  /** The rounds that run before the next command, and those before the later ones. */
  function Meanwhile(rounds: seq<seq<Round>>): seq<Round> { if rounds == [] then [] else rounds[0] }

  function Later(rounds: seq<seq<Round>>): seq<seq<Round>> { if rounds == [] then [] else rounds[1..] }

  class RouterHost {
    var host: Host
    var refusals: seq<bool>                      // which of the coming commands of `apply_router` and `remove_router` are refused
    var rounds: seq<seq<Round>>                  // what the watchers do before each of the coming commands
    const haveIp: bool                           // whether the host has an `ip` command
    const haveIptables: bool                     // and one of the iptables
    var transit: Option<seq<Args>>               // Docker's chain DOCKER-USER; None where there is none
    const transitRules: Network -> seq<Args>     // `router_docker_user_rules`
    ghost var history: seq<Host>  // every state the host went through, the current one last
    ghost const routed: set<int>
    ghost const egress: seq<Args>                // the other group of ours in that chain

    ghost predicate Guarded()
      reads this
    {
      && |history| > 0 && history[|history| - 1] == host
      && Safe(host, routed)
      && forall h :: h in history ==> Safe(h, routed)
    }

    /** The rules of our two groups in DOCKER-USER tell each other apart. */
    ghost predicate Transits()
      reads this`transit
    {
      && (forall n :: DockerUser.Group(transitRules(n), ROUTER_COMMENT) && Apart(transitRules(n)))
      && (transit.Some? ==> Apart(transit.value))
    }

    /** A host some earlier run, or nobody, left behind. */
    constructor (host: Host, transit: Option<seq<Args>>, transitRules: Network -> seq<Args>, refusals: seq<bool>,
                 rounds: seq<seq<Round>>, haveIp: bool, haveIptables: bool, ghost routed: set<int>, ghost egress: seq<Args>)
      requires Safe(host, routed) && (transit.Some? ==> Apart(transit.value))
      requires forall n :: DockerUser.Group(transitRules(n), ROUTER_COMMENT) && Apart(transitRules(n))
      ensures Guarded() && Transits() && this.host == host && this.routed == routed && history == [host]
      ensures this.transit == transit && this.transitRules == transitRules && this.egress == egress
      ensures this.refusals == refusals && this.rounds == rounds && this.haveIp == haveIp && this.haveIptables == haveIptables
    {
      this.host, this.transit, this.transitRules := host, transit, transitRules;
      this.refusals, this.rounds, this.haveIp, this.haveIptables := refusals, rounds, haveIp, haveIptables;
      this.history := [host];
      this.routed, this.egress := routed, egress;
    }

    method Become(next: Host)
      requires Guarded() && Safe(next, routed)
      modifies this`host, this`history
      ensures Guarded() && host == next && history == old(history) + [next]
    {
      host := next;
      history := history + [next];
    }

    /** Whether the next command goes through; without its program it does not. */
    method Try(there: bool) returns (ok: bool)
      modifies this`refusals
      ensures ok == (there && !Refused(old(refusals)))
      ensures refusals == if there then Coming(old(refusals)) else old(refusals)
      ensures there ==> Ran(old(refusals), refusals, ok)
    {
      RanOne(refusals);
      ok := there && !Refused(refusals);
      if there {
        refusals := Coming(refusals);
      }
    }

    /** The host refuses none of the coming commands and has the programs for them. */
    ghost predicate Able()
      reads this
    {
      haveIp && haveIptables && Calm(refusals)
    }

    /** `set_gateway_route`: the route appears while the gateway answers and goes when it does not. */
    method SetGatewayRoute(uplink: Uplink, alive: bool, refused: bool) returns (ok: bool)
      requires Guarded() && IsSlot(uplink)
      modifies this`host, this`history
      ensures Guarded() && old(history) <= history
      ensures host == old(host).(gateways := host.gateways) && ok == (haveIp && !refused)
      ensures host.gateways == if !ok then old(host.gateways)
                               else if alive then old(host.gateways)[uplink.table := uplink.gateway]
                               else old(host.gateways) - {uplink.table}
    {
      ok := haveIp && !refused;
      if !ok {
        return;
      }
      forall mark | IsSlotMark(mark) && SlotOfMark(mark).table == uplink.table ensures SlotOfMark(mark) == uplink {
        SlotsDistinct(SlotOfMark(mark), uplink);
      }
      if alive {
        Become(host.(gateways := host.gateways[uplink.table := uplink.gateway]));
      } else {
        Become(host.(gateways := host.gateways - {uplink.table}));
      }
    }

    /** The rounds of the watchers between two commands. */
    method Watch()
      requires Guarded()
      modifies this`host, this`history, this`rounds
      ensures Guarded() && old(history) <= history && rounds == Later(old(rounds))
      ensures host == old(host).(gateways := AfterRounds(old(host.gateways), haveIp, Meanwhile(old(rounds))))
    {
      var now := Meanwhile(rounds);
      rounds := Later(rounds);
      for i := 0 to |now|
        invariant Guarded() && old(history) <= history
        invariant rounds == Later(old(rounds))
        invariant host == old(host).(gateways := AfterRounds(old(host.gateways), haveIp, now[..i]))
      {
        hide Safe;
        assert now[..i + 1][..i] == now[..i] && now[..i + 1][i] == now[i];
        if now[i].slot < |ALL_SLOTS| {
          SlotsListed(ALL_SLOTS[now[i].slot]);
          var _ := SetGatewayRoute(ALL_SLOTS[now[i].slot], now[i].alive, now[i].refused);
        }
      }
      assert now[..|now|] == now;
    }

    /** What the gateway routes are behind the rounds that run before the next command. */
    ghost function Watched(): map<int, int>
      reads this
    {
      AfterRounds(host.gateways, haveIp, Meanwhile(rounds))
    }

    /** `route replace unreachable default`, after whatever the watchers did. */
    method ReplaceLastResort(uplink: Uplink) returns (ok: bool)
      requires Guarded() && IsSlot(uplink)
      modifies this`host, this`history, this`refusals, this`rounds
      ensures Guarded() && old(history) <= history && ok == (haveIp && !Refused(old(refusals)))
      ensures (haveIp ==> Ran(old(refusals), refusals, ok)) && rounds == Later(old(rounds))
      ensures host == old(host).(gateways := old(Watched()), lastResorts := host.lastResorts)
      ensures host.lastResorts == old(host.lastResorts) + (if ok then {uplink.table} else {})
    {
      Watch();
      ok := Try(haveIp);
      if ok {
        hide Safe;
        LastResortKeepsSafe(host, routed, uplink);
        Become(host.(lastResorts := host.lastResorts + {uplink.table}));
      }
    }

    method AddRule(uplink: Uplink) returns (ok: bool)
      requires Guarded() && IsSlot(uplink)
      modifies this`host, this`history, this`refusals, this`rounds
      ensures Guarded() && old(history) <= history && ok == (haveIp && !Refused(old(refusals)))
      ensures (haveIp ==> Ran(old(refusals), refusals, ok)) && rounds == Later(old(rounds))
      ensures host == old(host).(gateways := old(Watched()), rules := host.rules)
      ensures host.rules == if ok then Insert(old(host.rules), Exact(uplink)) else old(host.rules)
    {
      Watch();
      ok := Try(haveIp);
      if ok {
        AddKeepsSafe(host, routed, uplink);
        Become(host.(rules := Insert(host.rules, Exact(uplink))));
      }
    }

    /** `nft -f -`: the whole table is replaced, or nothing is. */
    method LoadRuleset(marks: set<int>) returns (ok: bool)
      requires Guarded() && Covered(host.(marks := marks))
      modifies this`host, this`history, this`refusals, this`rounds
      ensures Guarded() && old(history) <= history && ok == !Refused(old(refusals))
      ensures Ran(old(refusals), refusals, ok) && rounds == Later(old(rounds))
      ensures host == old(host).(gateways := old(Watched()), marks := host.marks)
      ensures host.marks == if ok then marks else old(host.marks)
    {
      Watch();
      ok := Try(true);
      if ok {
        Become(host.(marks := marks));
      }
    }

    /** `ip rule del`; nothing loaded may need the rule that goes. */
    method DeleteRule(selector: Rule) returns (ok: bool)
      requires Guarded() && Safe(host.(rules := DeleteFirst(host.rules, selector)), routed)
      modifies this`host, this`history, this`refusals, this`rounds
      ensures Guarded() && old(history) <= history && ok == (haveIp && !Refused(old(refusals)))
      ensures (haveIp ==> Ran(old(refusals), refusals, ok)) && rounds == Later(old(rounds))
      ensures host == old(host).(gateways := old(Watched()), rules := host.rules)
      ensures host.rules == if ok then DeleteFirst(old(host.rules), selector) else old(host.rules)
    {
      Watch();
      ok := Try(haveIp);
      if ok {
        Become(host.(rules := DeleteFirst(host.rules, selector)));
      }
    }

    /** `route flush table`; nothing loaded may need the table. */
    method FlushTable(table: int) returns (ok: bool)
      requires Guarded() && Covered(host.(lastResorts := host.lastResorts - {table}))
      modifies this`host, this`history, this`refusals, this`rounds
      ensures Guarded() && old(history) <= history && ok == (haveIp && !Refused(old(refusals)))
      ensures (haveIp ==> Ran(old(refusals), refusals, ok)) && rounds == Later(old(rounds))
      ensures host == old(host).(gateways := host.gateways, lastResorts := host.lastResorts)
      ensures host.lastResorts == old(host.lastResorts) - (if ok then {table} else {})
      ensures host.gateways == old(Watched()) - (if ok then {table} else {})
    {
      Watch();
      ok := Try(haveIp);
      if ok {
        Become(host.(lastResorts := host.lastResorts - {table}, gateways := host.gateways - {table}));
      }
    }

    /** A command that only asks: the parse of a ruleset, the listing of the rules. */
    method Query(there: bool) returns (ok: bool)
      requires Guarded()
      modifies this`host, this`history, this`refusals, this`rounds
      ensures Guarded() && old(history) <= history && ok == (there && !Refused(old(refusals)))
      ensures (there ==> Ran(old(refusals), refusals, ok)) && rounds == Later(old(rounds))
      ensures host == old(host).(gateways := old(Watched()))
    {
      Watch();
      ok := Try(there);
    }

    /** `plan_rules` and the commands around it, as `apply_router` and `remove_router` run them. */
    method AddRules(add: seq<Uplink>) returns (ok: bool)
      requires Guarded() && forall u :: u in add ==> IsSlot(u)
      modifies this`host, this`history, this`refusals, this`rounds
      ensures Guarded() && old(history) <= history
      ensures host == old(host).(gateways := host.gateways, rules := host.rules)
      ensures ok ==> host.rules == InsertAll(old(host.rules), add)
      ensures Foreign(host.rules) == Foreign(old(host.rules))
      ensures haveIp ==> Ran(old(refusals), refusals, ok)
    {
      ok := true;
      RanOne(refusals);
      for i := 0 to |add|
        invariant haveIp ==> Ran(old(refusals), refusals, true)
        invariant Guarded() && old(history) <= history
        invariant host == old(host).(gateways := host.gateways, rules := host.rules)
        invariant InsertAll(host.rules, add[i..]) == InsertAll(old(host.rules), add)
        invariant Foreign(host.rules) == Foreign(old(host.rules))
      {
        SlotsListed(add[i]);
        InsertForeign(host.rules, Exact(add[i]));
        ghost var left := refusals;
        ok := AddRule(add[i]);
        RanOnward(old(refusals), left, ok);
        if !ok {
          return;
        }
      }
    }

    /** The last step of the plan. The listing it was made from has no rule with fewer attributes behind an exact
        one, and everything loaded is wanted: then no delete takes a rule a loaded mark needs. */
    method DeleteRules(delete: seq<Rule>, ghost listing: seq<Rule>, ghost wanted: seq<Uplink>) returns (ok: bool)
      requires Guarded() && Sorted(listing)
      requires delete == PlannedDeletes(listing, wanted, SLOT_TABLES) && host.rules == Planned(listing, wanted, 0)
      requires forall u :: u in wanted ==> IsSlot(u)
      requires forall mark :: IsSlotMark(mark) ==> !Overtaken(listing, Exact(SlotOfMark(mark)))
      requires forall mark :: mark in host.marks && mark != BLOCK_MARK ==> SlotOfMark(mark) in wanted
      modifies this`host, this`history, this`refusals, this`rounds
      ensures Guarded() && old(history) <= history
      ensures host == old(host).(gateways := host.gateways, rules := host.rules)
      ensures ok ==> host.rules == Planned(listing, wanted, |delete|)
      ensures Foreign(host.rules) == Foreign(listing)
      ensures haveIp ==> Ran(old(refusals), refusals, ok)
    {
      hide Safe, Planned, PlannedDeletes, Foreign, IsSlot, IsSlotMark, SlotOfMark, Overtaken, Sorted, Exact, DeleteFirst;
      ok := true;
      PlannedForeign(listing, wanted, 0);
      RanOne(refusals);
      for i := 0 to |delete|
        invariant haveIp ==> Ran(old(refusals), refusals, true)
        invariant Guarded() && old(history) <= history
        invariant host == old(host).(gateways := host.gateways, rules := host.rules)
        invariant host.rules == Planned(listing, wanted, i) && Foreign(host.rules) == Foreign(listing)
      {
        NextDelete(host, routed, listing, wanted, i);
        ghost var left := refusals;
        ok := DeleteRule(delete[i]);
        RanOnward(old(refusals), left, ok);
        if !ok {
          return;
        }
        PlannedForeign(listing, wanted, i + 1);
      }
    }

    /** The tables of uplinks nothing leaves through any more. */
    method FlushUnused(slots: seq<Uplink>, wanted: seq<Uplink>) returns (ok: bool)
      requires Guarded() && ListsEverySlot(slots)
      requires AllWanted(host.marks, wanted) && forall u :: u in wanted ==> u.table in host.lastResorts
      modifies this`host, this`history, this`refusals, this`rounds
      ensures Guarded() && old(history) <= history
      ensures host == old(host).(gateways := host.gateways, lastResorts := host.lastResorts)
      ensures ok ==> host.lastResorts == TablesOf(wanted)
      ensures haveIp ==> Ran(old(refusals), refusals, ok)
    {
      ok := true;
      RanOne(refusals);
      var inUse := TablesOf(wanted);
      for i := 0 to |slots|
        invariant haveIp ==> Ran(old(refusals), refusals, true)
        invariant Guarded() && old(history) <= history
        invariant host == old(host).(gateways := host.gateways, lastResorts := host.lastResorts)
        invariant inUse <= host.lastResorts
        invariant forall u :: u in slots[..i] && u.table !in inUse ==> u.table !in host.lastResorts
      {
        assert slots[..i + 1] == slots[..i] + [slots[i]];
        if slots[i].table !in inUse {
          ghost var left := refusals;
          ok := FlushTable(slots[i].table);
          RanOnward(old(refusals), left, ok);
          if !ok {
            return;
          }
        }
      }
      assert slots[..|slots|] == slots;
      forall t | t in host.lastResorts ensures t in inUse {
        var u :| u in slots && u.table == t;
      }
    }

    /** The last-resort routes of the uplinks in use, before any rule steers traffic to their tables. */
    method ReplaceLastResorts(wanted: seq<Uplink>) returns (ok: bool)
      requires Guarded() && forall u :: u in wanted ==> IsSlot(u)
      modifies this`host, this`history, this`refusals, this`rounds
      ensures Guarded() && old(history) <= history
      ensures host == old(host).(gateways := host.gateways, lastResorts := host.lastResorts)
      ensures ok ==> forall u :: u in wanted ==> u.table in host.lastResorts
      ensures haveIp ==> Ran(old(refusals), refusals, ok)
    {
      ok := true;
      RanOne(refusals);
      for i := 0 to |wanted|
        invariant haveIp ==> Ran(old(refusals), refusals, true)
        invariant Guarded() && old(history) <= history
        invariant host == old(host).(gateways := host.gateways, lastResorts := host.lastResorts)
        invariant forall u :: u in wanted[..i] ==> u.table in host.lastResorts
      {
        assert wanted[..i + 1] == wanted[..i] + [wanted[i]];
        ghost var left := refusals;
        ok := ReplaceLastResort(wanted[i]);
        RanOnward(old(refusals), left, ok);
        if !ok {
          return;
        }
      }
      assert wanted[..|wanted|] == wanted;
    }

    /** What ran so far, and what ran behind it. */
    lemma RanOnward(first: seq<bool>, left: seq<bool>, ok: bool)
      ensures Ran(first, left, true) && Ran(left, refusals, ok) ==> Ran(first, refusals, ok)
    {
      if Ran(first, left, true) && Ran(left, refusals, ok) {
        RanOn(first, left, refusals, ok);
      }
    }

    /** `sync_docker_user` for our transit group: the chain is listed first, which fails without iptables; where there is
        no such chain nothing happens. */
    method SyncTransit(wanted: seq<Args>) returns (ok: bool)
      requires Transits() && DockerUser.Group(wanted, ROUTER_COMMENT) && Apart(wanted)
      modifies this`transit, this`refusals
      ensures Transits() && TransitKept(old(transit), transit, egress)
      ensures ok ==> TransitSynced(old(transit), transit, wanted)
      ensures if haveIptables then Ran(old(refusals), refusals, ok) else !ok && transit == old(transit)
    {
      ok := Try(haveIptables);
      if ok && transit.Some? {
        ghost var left := refusals;
        var after;
        after, ok, refusals := DockerUser.Sync(transit.value, wanted, ROUTER_COMMENT, refusals, egress, EGRESS_COMMENT);
        transit := Some(after);
        RanOnward(old(refusals), left, ok);
      }
    }

    /** The last step of `apply_router`. */
    method SyncNetwork(network: Network) returns (ok: bool)
      requires Guarded() && Transits()
      modifies this`host, this`history, this`transit, this`refusals, this`rounds
      ensures Guarded() && Transits() && old(history) <= history
      ensures host == old(host).(gateways := host.gateways) && TransitKept(old(transit), transit, egress)
      ensures ok ==> TransitSynced(old(transit), transit, transitRules(network))
      ensures if haveIptables then Ran(old(refusals), refusals, ok) else !ok
    {
      hide Safe, TransitSynced, TransitKept;
      Watch();
      ok := SyncTransit(transitRules(network));
    }

    /** `apply_router`. Every command may be refused, which ends it where it stands; the watchers run before
        each one. Whatever happens, every state on the way holds the kill switch; a complete run leaves what
        the configuration asks for, the transit through DOCKER-USER included. */
    method ApplyRouter(config: Config) returns (ok: bool, used: seq<Key>)
      requires Guarded() && Transits() && Promised(config)
      modifies this`host, this`history, this`transit, this`refusals, this`rounds
      ensures Guarded() && Transits() && old(history) <= history
      ensures Foreign(host.rules) == Foreign(old(host.rules)) && TransitKept(old(transit), transit, egress)
      ensures ok && config.network.Some? ==>
                && (forall key :: key in used <==> MayTake(config, key))
                && (forall key :: key in used ==> key in UplinkTable(config))
                && Settled(host, RulesetMarks(config), Wanted(UplinkTable(config), used))
                && TransitSynced(old(transit), transit, transitRules(config.network.value))
      ensures ok && config.network.None? ==> Removed(old(host), old(transit)) && used == []
      // it fails exactly when one of its commands is refused, or a program is missing it cannot do without
      ensures config.network.None? || (haveIp && haveIptables) ==> Ran(old(refusals), refusals, ok)
      ensures config.network.Some? && !(haveIp && haveIptables) ==> !ok
      ensures old(Able()) ==> ok && Able()
    {
      hide IsRuleset, CanSet, RulesetMarks, UplinkTable, MayTake, Safe, Transits, TransitSynced, TransitKept,
           RulesSettled, TablesOf, Foreign, Wanted;
      used := [];
      TransitStays(transit, egress);
      var ruleset := RouterRuleset(config);
      if ruleset.None? {
        ok := RemoveRouter();
      } else {
        ok, used := Start(config, ruleset.value);
        if ok {
          ghost var left := refusals;
          ok := SyncNetwork(config.network.value);
          RanOnward(old(refusals), left, ok);
        }
      }
      CalmRuns(old(refusals), ok);
    }

    lemma CalmRuns(first: seq<bool>, ok: bool)
      ensures Calm(first) && Ran(first, refusals, ok) ==> ok && Calm(refusals)
    {
      if Calm(first) && Ran(first, refusals, ok) {
        RanCalm(first, refusals, ok);
      }
    }

    /** Everything of `apply_router` but the transit: the uplinks in use, the check of the ruleset, the steering. */
    method Start(config: Config, ruleset: Ruleset) returns (ok: bool, used: seq<Key>)
      requires Guarded() && Promised(config) && config.network.Some? && CanSet(ruleset) == RulesetMarks(config)
      modifies this`host, this`history, this`refusals, this`rounds
      ensures Guarded() && old(history) <= history
      ensures Foreign(host.rules) == Foreign(old(host.rules))
      ensures ok ==>
                && (forall key :: key in used <==> MayTake(config, key))
                && (forall key :: key in used ==> key in UplinkTable(config))
                && Settled(host, RulesetMarks(config), Wanted(UplinkTable(config), used))
      ensures if haveIp then Ran(old(refusals), refusals, ok) else !ok
    {
      hide CanSet, RulesetMarks, UplinkTable, MayTake, Safe, Promised, IsSlot;
      var table := UplinkTable(config);
      used := UsedUplinks(config);
      forall key ensures key in used <==> MayTake(config, key) {
        if MayTake(config, key) {
          TakenHasSlot(config, key);
        }
      }
      forall key | MayTake(config, key) ensures key in table && IsSlot(table[key]) {
        TakenHasSlot(config, key);
      }
      var wanted := Wanted(table, used);
      MarksAreWanted(config, table, used, wanted);
      ok := Query(true);  // the parse-only pass of nft
      if ok {
        ghost var left := refusals;
        ok := Steer(CanSet(ruleset), wanted);
        RanOnward(old(refusals), left, ok);
      }
    }

    /** The commands of `apply_router` that steer: last resorts, new rules, new marks, and only then the rules
        of the old marks and the tables nobody uses go. */
    method Steer(marks: set<int>, wanted: seq<Uplink>) returns (ok: bool)
      requires Guarded() && forall u :: u in wanted ==> IsSlot(u)
      requires AllWanted(marks, wanted)
      modifies this`host, this`history, this`refusals, this`rounds
      ensures Guarded() && old(history) <= history
      ensures Foreign(host.rules) == Foreign(old(host.rules))
      ensures ok ==> Settled(host, marks, wanted)
      ensures if haveIp then Ran(old(refusals), refusals, ok) else !ok
    {
      ok := ReplaceLastResorts(wanted);
      if !ok {
        return;
      }
      ghost var left := refusals;
      ok := Query(haveIp);  // ip -j rule show
      RanOnward(old(refusals), left, ok);
      if !ok {
        return;
      }
      left := refusals;
      ok := Replan(marks, wanted);
      RanOnward(old(refusals), left, ok);
      if !ok {
        return;
      }
      EverySlotListed();
      left := refusals;
      ok := FlushUnused(ALL_SLOTS, wanted);
      RanOnward(old(refusals), left, ok);
    }

    lemma GuardedSays()
      requires Guarded()
      ensures RuleTable.Sorted(host.rules) && forall mark :: IsSlotMark(mark) ==>
                !Overtaken(host.rules, Exact(SlotOfMark(mark)))
    {
    }

    /** Never a moment when a mark has no rule: the new rules, then the new marks, then the old rules go. */
    method Replan(marks: set<int>, wanted: seq<Uplink>) returns (ok: bool)
      requires Guarded() && forall u :: u in wanted ==> IsSlot(u) && u.table in host.lastResorts
      requires AllWanted(marks, wanted)
      modifies this`host, this`history, this`refusals, this`rounds
      ensures Guarded() && old(history) <= history
      ensures host.lastResorts == old(host.lastResorts)
      ensures Foreign(host.rules) == Foreign(old(host.rules))
      ensures ok ==> host.marks == marks && RulesSettled(host.rules, wanted)
      ensures haveIp ==> Ran(old(refusals), refusals, ok)
    {
      hide *;
      ghost var listing := host.rules;
      GuardedSays();
      AllWantedSays(marks, wanted);
      NoneDeleted(listing, wanted);
      var delete, add := PlanRules(host.rules, wanted);
      PlannedAddsAreWanted(listing, wanted);
      ok := AddRules(add);
      if !ok {
        return;
      }
      NewMarksCovered(marks, wanted, host, listing);
      ghost var left := refusals;
      ok := LoadRuleset(marks);
      RanOnward(old(refusals), left, ok);
      if !ok {
        return;
      }
      left := refusals;
      ok := DeleteRules(delete, listing, wanted);
      RanOnward(old(refusals), left, ok);
      if ok {
        PlanSettles(listing, wanted);
      }
    }

    /** `remove_router` left nothing of ours, as far as there are programs for it. */
    ghost predicate Removed(before: Host, transitBefore: Option<seq<Args>>)
      reads this
    {
      && host.marks == {}
      && (if haveIp then Settled(host, {}, []) else host.rules == before.rules && host.lastResorts == before.lastResorts)
      && (if haveIptables then TransitSynced(transitBefore, transit, []) else transit == transitBefore)
    }

    /** `remove_router`: the marks go first, then what steered them; where there is no `ip` command they are all
        that goes, and where there is no `iptables` the transit stays. */
    method RemoveRouter() returns (ok: bool)
      requires Guarded() && Transits()
      modifies this`host, this`history, this`transit, this`refusals, this`rounds
      ensures Guarded() && Transits() && old(history) <= history
      ensures Foreign(host.rules) == Foreign(old(host.rules)) && TransitKept(old(transit), transit, egress)
      ensures ok ==> Removed(old(host), old(transit))
      ensures Ran(old(refusals), refusals, ok) && (Calm(old(refusals)) ==> ok)
    {
      hide Safe, TransitSynced, TransitKept;
      TransitStays(transit, egress);
      ok := LoadRuleset({});
      if ok && haveIp {
        ghost var left := refusals;
        ok := RemoveRules();
        RanOnward(old(refusals), left, ok);
      }
      if ok && haveIptables {
        Watch();
        ghost var left := refusals;
        ok := SyncTransit([]);
        RanOnward(old(refusals), left, ok);
      }
      CalmRuns(old(refusals), ok);
    }

    /** The rules and tables of a host whose ruleset is gone. */
    method RemoveRules() returns (ok: bool)
      requires Guarded() && host.marks == {} && haveIp
      modifies this`host, this`history, this`refusals, this`rounds
      ensures Guarded() && old(history) <= history && host.marks == {}
      ensures Foreign(host.rules) == Foreign(old(host.rules))
      ensures ok ==> Settled(host, {}, [])
      ensures Ran(old(refusals), refusals, ok)
    {
      hide *;
      ok := Query(haveIp);  // ip -j rule show
      if !ok {
        return;
      }
      ghost var listing, left := host.rules, refusals;
      GuardedSays();
      NothingWanted(listing);
      var delete, _ := PlanRules(host.rules, []);
      ok := DeleteRules(delete, listing, []);
      RanOnward(old(refusals), left, ok);
      if ok {
        PlanSettles(listing, []);
        EverySlotListed();
        left := refusals;
        ok := FlushUnused(ALL_SLOTS, []);
        RanOnward(old(refusals), left, ok);
        SettledIs(host, {}, []);
      }
    }
  }

  // ---- the transit through DOCKER-USER -------------------------------------------------------------

  const ROUTER_COMMENT := "vibedpn-router"
  const EGRESS_COMMENT := "vibedpn-egress"

  /** No rule carries the comments of both groups. */
  ghost predicate Apart(rules: seq<Args>) {
    forall r :: r in rules ==> !(ROUTER_COMMENT in r && EGRESS_COMMENT in r)
  }

  /** The rules of everybody else stay, in order, and the other group stays in place. */
  ghost predicate TransitKept(before: Option<seq<Args>>, after: Option<seq<Args>>, egress: seq<Args>) {
    && (before.Some? <==> after.Some?)
    && (before.Some? ==>
          && DockerUser.Without(after.value, ROUTER_COMMENT) == DockerUser.Without(before.value, ROUTER_COMMENT)
          && (DockerUser.InPlace(before.value, egress, EGRESS_COMMENT) ==>
              DockerUser.InPlace(after.value, egress, EGRESS_COMMENT)))
  }

  /** Our group is what is wanted: as it stood when it was in place, else on top. */
  ghost predicate TransitSynced(before: Option<seq<Args>>, after: Option<seq<Args>>, wanted: seq<Args>) {
    before.Some? ==> after == Some(if DockerUser.InPlace(before.value, wanted, ROUTER_COMMENT) then before.value
                                   else wanted + DockerUser.Without(before.value, ROUTER_COMMENT))
  }

  lemma TransitStays(transit: Option<seq<Args>>, egress: seq<Args>)
    ensures TransitKept(transit, transit, egress)
  {
  }

  ghost predicate AllWanted(marks: set<int>, wanted: seq<Uplink>) {
    forall mark :: mark in marks && mark != BLOCK_MARK ==> IsSlotMark(mark) && SlotOfMark(mark) in wanted
  }

  /** One exact rule per uplink in use, none at the other slots. */
  ghost predicate RulesSettled(rules: seq<Rule>, wanted: seq<Uplink>) {
    forall t :: IsSlotTable(t) ==>
      At(rules, t) == if ByTable(wanted, t).Some? then [Exact(ByTable(wanted, t).value)] else []
  }

  /** What a complete `apply_router` leaves: the marks of the configuration, its rules, and a last resort in
      exactly the tables in use. */
  ghost predicate Settled(host: Host, marks: set<int>, wanted: seq<Uplink>) {
    && host.marks == marks
    && RulesSettled(host.rules, wanted)
    && host.lastResorts == TablesOf(wanted)
  }

  lemma SettledIs(host: Host, marks: set<int>, wanted: seq<Uplink>)
    ensures Settled(host, marks, wanted) <==>
              host.marks == marks && RulesSettled(host.rules, wanted) && host.lastResorts == TablesOf(wanted)
  {
  }

  lemma NothingWanted(listing: seq<Rule>)
    ensures Planned(listing, [], 0) == listing && AllWanted({}, [])
  {
    NothingToAdd(listing, SLOT_TABLES);
    NoneDeleted(listing, []);
  }

  /** Every mark of the rendered ruleset is the mark of an uplink in use. */
  lemma MarksAreWanted(config: Config, table: map<Key, Uplink>, used: seq<Key>, wanted: seq<Uplink>)
    requires config.network.Some? && table == UplinkTable(config)
    requires forall key :: key in used ==> key in table
    requires forall key :: MayTake(config, key) ==> key in table && IsSlot(table[key])
    requires forall key :: key in used <==> MayTake(config, key)
    requires wanted == Wanted(table, used)
    ensures AllWanted(RulesetMarks(config), wanted) && forall u :: u in wanted ==> IsSlot(u)
  {
    forall mark | mark in RulesetMarks(config) && mark != BLOCK_MARK
      ensures IsSlotMark(mark) && SlotOfMark(mark) in wanted
    {
      MarksAreUsed(config, table, mark);
      var key :| MayTake(config, key) && key in table && table[key].mark == mark;
      var i :| 0 <= i < |used| && used[i] == key;
      assert wanted[i] == table[key];
      SlotsDistinct(table[key], SlotOfMark(mark));
    }
    forall u | u in wanted ensures IsSlot(u) {
      var i :| 0 <= i < |wanted| && wanted[i] == u;
      assert used[i] in used;
    }
  }

  lemma AllWantedSays(marks: set<int>, wanted: seq<Uplink>)
    requires AllWanted(marks, wanted)
    ensures forall mark :: mark in marks && mark != BLOCK_MARK ==> SlotOfMark(mark) in wanted
  {
  }

  lemma NoneDeleted(listing: seq<Rule>, wanted: seq<Uplink>)
    ensures Planned(listing, wanted, 0) == InsertAll(listing, PlannedAdds(listing, wanted, SLOT_TABLES))
  {
    assert PlannedDeletes(listing, wanted, SLOT_TABLES)[..0] == [];
  }

  lemma PlannedAddsAreWanted(rules: seq<Rule>, wanted: seq<Uplink>)
    ensures forall u :: u in PlannedAdds(rules, wanted, SLOT_TABLES) ==> u in wanted
  {
    SlotTablesDistinct();
    AddsAt(rules, wanted, SLOT_TABLES, 7710);
  }

  lemma {:induction false} NothingToAdd(rules: seq<Rule>, tables: seq<int>)
    ensures PlannedAdds(rules, [], tables) == []
  {
    if tables != [] {
      NothingToAdd(rules, tables[1..]);
    }
  }

  /** Between the adds and the load: what the new ruleset can mark has its rule and its last resort. */
  lemma NewMarksCovered(marks: set<int>, wanted: seq<Uplink>, host: Host, listing: seq<Rule>)
    requires AllWanted(marks, wanted) && forall u :: u in wanted ==> IsSlot(u) && u.table in host.lastResorts
    requires Sorted(listing) && host.rules == Planned(listing, wanted, 0)
    requires forall mark :: IsSlotMark(mark) ==> !Overtaken(listing, Exact(SlotOfMark(mark)))
    ensures Covered(host.(marks := marks))
  {
    forall mark | mark in marks && mark != BLOCK_MARK ensures Exact(SlotOfMark(mark)) in host.rules {
      WantedByTable(wanted, SlotOfMark(mark));
      WantedSlot(listing, wanted, 0, SlotOfMark(mark));
    }
  }

  lemma PlanSettles(listing: seq<Rule>, wanted: seq<Uplink>)
    requires Sorted(listing) && forall u :: u in wanted ==> IsSlot(u)
    requires forall mark :: IsSlotMark(mark) ==> !Overtaken(listing, Exact(SlotOfMark(mark)))
    ensures RulesSettled(Planned(listing, wanted, |PlannedDeletes(listing, wanted, SLOT_TABLES)|), wanted)
  {
    var after := Planned(listing, wanted, |PlannedDeletes(listing, wanted, SLOT_TABLES)|);
    forall t | IsSlotTable(t)
      ensures At(after, t) == if ByTable(wanted, t).Some? then [Exact(ByTable(wanted, t).value)] else []
    {
      PlanConverges(listing, wanted, t);
      if ByTable(wanted, t).Some? {
        var u := ByTable(wanted, t).value;
        assert IsSlotMark(u.mark);
        SlotsDistinct(u, SlotOfMark(u.mark));
      }
    }
  }

  function TablesOf(wanted: seq<Uplink>): set<int> {
    set u | u in wanted :: u.table
  }

  ghost predicate ListsEverySlot(slots: seq<Uplink>) {
    forall t :: IsSlotTable(t) ==> exists u :: u in slots && u.table == t
  }

  lemma EverySlotListed()
    ensures ListsEverySlot(ALL_SLOTS)
  {
    forall t | IsSlotTable(t) ensures exists u :: u in ALL_SLOTS && u.table == t {
      var u := if t == 7710 then VPS else if t == 7720 then DPN else if t == 7760 then TOR
               else if t < 7748 then CountryUplink(t - 7740) else WgUplink(t - 7750);
      SlotsListed(u);
    }
  }

  lemma PlannedForeign(rules: seq<Rule>, wanted: seq<Uplink>, ran: nat)
    requires Sorted(rules) && ran <= |PlannedDeletes(rules, wanted, SLOT_TABLES)|
    ensures Foreign(Planned(rules, wanted, ran)) == Foreign(rules)
  {
    var done := PlannedSlot(rules, wanted, ran, 7710);
  }

  lemma OutsideSlotsGetsNoRule(uplink: Uplink, rules: seq<Rule>, wanted: seq<Uplink>)
    requires !IsSlotTable(uplink.table)
    ensures uplink !in PlannedAdds(rules, wanted, SLOT_TABLES)
  {
    SlotTablesDistinct();
    AddsAt(rules, wanted, SLOT_TABLES, 7710);
  }
}
