/** Named exits beyond the eight slots there are for them: which of them get their rule
    (core/vibedpn/engine/router.py, `wg_uplinks`, `plan_rules`). */
module NamedExits {
  import opened Options
  import opened Sequences
  import opened Configuration
  import opened Ordering
  import opened Slots
  import opened RuleTable
  import opened Uplinks
  import opened KillSwitch

  /** The plan adds a rule exactly for what `by_table` keeps at a slot and the listing has not. */
  lemma {:induction false} AddsIff(rules: seq<Rule>, wanted: seq<Uplink>, tables: seq<int>, uplink: Uplink)
    ensures uplink in PlannedAdds(rules, wanted, tables)
       <==> uplink.table in tables && ByTable(wanted, uplink.table) == Some(uplink) && Exact(uplink) !in rules
  {
    if tables != [] {
      AddsIff(rules, wanted, tables[1..], uplink);
      assert uplink.table in tables <==> uplink.table == tables[0] || uplink.table in tables[1..];
    }
  }

  /** It deletes every rule at a slot that is not the one kept there. */
  lemma {:induction false} StaleHas(rules: seq<Rule>, table: int, needed: Option<Uplink>, kept: bool, rule: Rule)
    requires rule in rules && rule.priority == table && (needed.Some? ==> rule != Exact(needed.value))
    ensures rule in Stale(rules, table, needed, kept)
  {
    if rules[0] != rule {
      var keptNow := needed.Some? && rules[0].priority == table && rules[0] == Exact(needed.value);
      StaleHas(rules[1..], table, needed, kept || keptNow, rule);
    }
  }

  lemma {:induction false} DeletesHas(rules: seq<Rule>, wanted: seq<Uplink>, tables: seq<int>, rule: Rule)
    requires rule in rules && rule.priority in tables
    requires var needed := ByTable(wanted, rule.priority); needed.Some? ==> rule != Exact(needed.value)
    ensures rule in PlannedDeletes(rules, wanted, tables)
  {
    if tables[0] == rule.priority {
      StaleHas(rules, tables[0], ByTable(wanted, tables[0]), false, rule);
    } else {
      DeletesHas(rules, wanted, tables[1..], rule);
    }
  }

  lemma {:induction false} LastWins(wanted: seq<Uplink>, i: nat)
    requires i < |wanted| && forall k :: i < k < |wanted| ==> wanted[k].table != wanted[i].table
    ensures ByTable(wanted, wanted[i].table) == Some(wanted[i])
    decreases |wanted|
  {
    if i < |wanted| - 1 {
      LastWins(wanted[..|wanted| - 1], i);
    }
  }

  lemma ExitAt(codes: seq<string>, exits: seq<string>, i: nat)
    requires i < |exits|
    ensures 3 + |codes| + i < |KeysOf(codes, exits)| && KeysOf(codes, exits)[3 + |codes| + i] == Exit(exits[i])
    ensures |KeysOf(codes, exits)| == 3 + |codes| + |exits|
  {
  }

  lemma ExitIndex(codes: seq<string>, exits: seq<string>, name: string)
    requires Ascending(codes) && Ascending(exits) && name in exits
    ensures Exit(name) in KeysOf(codes, exits)
    ensures FirstIndex(KeysOf(codes, exits), Exit(name)) == 3 + |codes| + FirstIndex(exits, name)
  {
    hide Ascending;
    ExitAt(codes, exits, FirstIndex(exits, name));
    KeysDistinct(codes, exits);
    hide KeysOf;
  }

  /** Behind an exit the table lists only exits of later places. */
  lemma BehindExit(codes: seq<string>, exits: seq<string>, name: string, key: Key)
    requires Ascending(codes) && Ascending(exits) && name in exits && key in KeysOf(codes, exits)
               && Exit(name) in KeysOf(codes, exits)
    requires FirstIndex(KeysOf(codes, exits), Exit(name)) < FirstIndex(KeysOf(codes, exits), key)
    ensures key.Exit? && key.name in exits && FirstIndex(exits, name) < FirstIndex(exits, key.name)
  {
    hide Ascending, KeysOf;
    ExitIndex(codes, exits, name);
    ExitAt(codes, exits, FirstIndex(exits, name));
    ExitAt(codes, exits, FirstIndex(KeysOf(codes, exits), key) - 3 - |codes|);
    ExitIndex(codes, exits, key.name);
  }

  /** Of the uplinks in use that count into one table the exit is the last, so `by_table` keeps it. */
  lemma ExitIsKept(config: Config, used: seq<Key>, name: string)
    requires Valid(config) && Exit(name) in used
    requires Listing(TableKeys(config), used) && forall key :: key in used ==>
               MayTake(config, key) && key in UplinkTable(config)
    ensures var uplink := UplinkTable(config)[Exit(name)];
            ByTable(Wanted(UplinkTable(config), used), uplink.table) == Some(uplink)
  {
    var codes, exits := SortedNames(RuleCountries(config)), SortedNames(config.upstreams.wg.Keys);
    var wanted := Wanted(UplinkTable(config), used);
    hide Valid, MayTake, UplinkTable, Ascending, ExitPlace;
    TakenIsSlotIff(config, Exit(name));
    var i :| 0 <= i < |used| && used[i] == Exit(name);
    forall k | i < k < |used| ensures wanted[k].table != wanted[i].table {
      assert used[k] in used && used[i] in used;
      assert name in Elements(exits);
      KeysListed(codes, exits, Exit(name));
      BehindExit(codes, exits, name, used[k]);
      TakenIsSlotIff(config, used[k]);
    }
    LastWins(wanted, i);
  }

  lemma PlaceListed(place: nat)
    ensures WgUplink(place).table in SLOT_TABLES <==> place < MAX_WG_UPLINKS || place == 10
  {
    TableListed(WgUplink(place));
  }

  /** The limit on named exits is needed, exactly: the plan gives an exit that LAN traffic may take its rule when its place
      is one of the first eight, or the eleventh, whose table is Tor's; at any other place no listing makes it do so. */
  lemma ExitRuleIff(config: Config, used: seq<Key>, name: string, rules: seq<Rule>)
    requires Valid(config) && MayTake(config, Exit(name))
    requires Listing(TableKeys(config), used) && forall key :: key in used <==>
               MayTake(config, key) && key in TableKeys(config)
    ensures name in config.upstreams.wg && Exit(name) in UplinkTable(config)
    ensures forall key :: key in used ==> key in UplinkTable(config)
    ensures var uplink, wanted := UplinkTable(config)[Exit(name)], Wanted(UplinkTable(config), used);
            Exact(uplink) !in rules ==>
              (uplink in PlannedAdds(rules, wanted, SLOT_TABLES) <==>
                  ExitPlace(config, name) < MAX_WG_UPLINKS || ExitPlace(config, name) == 10)
  {
    hide *;
    forall key | key in used ensures key in UplinkTable(config) {
      TakenAreListed(config, key);
    }
    TakenAreListed(config, Exit(name));
    TakenIsSlotIff(config, Exit(name));
    var uplink, wanted := UplinkTable(config)[Exit(name)], Wanted(UplinkTable(config), used);
    ExitIsKept(config, used, name);
    AddsIff(rules, wanted, SLOT_TABLES, uplink);
    PlaceListed(ExitPlace(config, name));
  }

  /** And the eleventh exit takes Tor's place: while both are in use Tor's rule is never added, and one that is there is
      planned to go. */
  lemma EleventhTakesTorsRule(config: Config, used: seq<Key>, name: string, rules: seq<Rule>)
    requires Valid(config) && MayTake(config, Exit(name)) && MayTake(config, Fixed(Tor))
    requires Listing(TableKeys(config), used) && forall key :: key in used <==>
               MayTake(config, key) && key in TableKeys(config)
    requires name in config.upstreams.wg && ExitPlace(config, name) == 10
    ensures forall key :: key in used ==> key in UplinkTable(config)
    ensures Fixed(Tor) in used && UplinkTable(config)[Fixed(Tor)] == TOR
    ensures var wanted := Wanted(UplinkTable(config), used);
            && TOR in wanted && TOR !in PlannedAdds(rules, wanted, SLOT_TABLES)
            && (Exact(TOR) in rules ==> Exact(TOR) in PlannedDeletes(rules, wanted, SLOT_TABLES))
  {
    ExitRuleIff(config, used, name, rules);
    TakenAreListed(config, Exit(name));
    TakenAreListed(config, Fixed(Tor));
    TakenIsSlotIff(config, Exit(name));
    ExitIsKept(config, used, name);
    var wanted := Wanted(UplinkTable(config), used);
    TorIsWanted(config, used);
    AddsIff(rules, wanted, SLOT_TABLES, TOR);
    TableListed(TOR);
    if Exact(TOR) in rules {
      DeletesHas(rules, wanted, SLOT_TABLES, Exact(TOR));
    }
  }

  lemma TorIsWanted(config: Config, used: seq<Key>)
    requires Fixed(Tor) in used && forall key :: key in used ==> key in UplinkTable(config)
    ensures UplinkTable(config)[Fixed(Tor)] == TOR && TOR in Wanted(UplinkTable(config), used)
  {
    var i :| 0 <= i < |used| && used[i] == Fixed(Tor);
    assert Wanted(UplinkTable(config), used)[i] == TOR;
  }
}
