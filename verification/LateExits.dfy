/** What happens to traffic for a named exit there is no slot for (core/vibedpn/engine/router.py, `wg_uplinks`,
    `plan_rules`), and a valid configuration that comes to it. */
module LateExits {
  import opened Options
  import opened Names
  import opened Sequences
  import opened Configuration
  import opened Ordering
  import opened Slots
  import opened RuleTable
  import opened Uplinks
  import opened KillSwitch
  import opened NamedExits

  /** The rule every host has: what no other rule took goes by the main table. */
  const MAIN := Rule(32766, None, Some(254))

  /** The rules of a plan made on a host with nothing but its main table. */
  ghost predicate FromPlan(rules: seq<Rule>, wanted: seq<Uplink>) {
    && MAIN in rules
    && forall r :: r in rules ==> r == MAIN || exists u :: u in wanted && IsSlotTable(u.table) && r == Exact(u)
  }

  lemma {:induction false} InsertAllFrom(rules: seq<Rule>, add: seq<Uplink>, wanted: seq<Uplink>)
    requires FromPlan(rules, wanted) && forall u :: u in add ==> u in wanted && IsSlotTable(u.table)
    ensures FromPlan(InsertAll(rules, add), wanted)
    decreases add
  {
    if add != [] {
      InsertElements(rules, Exact(add[0]));
      InsertAllFrom(Insert(rules, Exact(add[0])), add[1..], wanted);
    }
  }

  lemma {:induction false} NothingStale(wanted: seq<Uplink>, tables: seq<int>)
    requires 32766 !in tables
    ensures PlannedDeletes([MAIN], wanted, tables) == []
  {
    if tables != [] {
      assert [MAIN][1..] == [] && MAIN.priority == 32766 != tables[0];
      assert Stale([MAIN], tables[0], ByTable(wanted, tables[0]), false) == [];
      NothingStale(wanted, tables[1..]);
    }
  }

  lemma NothingToDelete(wanted: seq<Uplink>)
    requires PlannedDeletes([MAIN], wanted, SLOT_TABLES) == []
    ensures Planned([MAIN], wanted, 0) == InsertAll([MAIN], PlannedAdds([MAIN], wanted, SLOT_TABLES))
  {
    hide PlannedAdds, PlannedDeletes, InsertAll;
    assert PlannedDeletes([MAIN], wanted, SLOT_TABLES)[..0] == [];
  }

  lemma MainIsFromPlan(wanted: seq<Uplink>)
    ensures FromPlan([MAIN], wanted) && !IsSlotTable(32766)
  {
  }

  /** On such a host the plan deletes nothing and adds rules of slots only. */
  lemma PlanOnMain(wanted: seq<Uplink>)
    ensures PlannedDeletes([MAIN], wanted, SLOT_TABLES) == [] && FromPlan(Planned([MAIN], wanted, 0), wanted)
  {
    hide *;
    MainIsFromPlan(wanted);
    SlotTablesDistinct();
    NothingStale(wanted, SLOT_TABLES);
    AddsAt([MAIN], wanted, SLOT_TABLES, 7710);
    var adds := PlannedAdds([MAIN], wanted, SLOT_TABLES);
    InsertAllFrom([MAIN], adds, wanted);
    NothingToDelete(wanted);
  }

  lemma {:induction false} FallsToMain(rules: seq<Rule>, host: Host, routed: set<int>, mark: int)
    requires MAIN in rules && forall r :: r in rules && r != MAIN ==> !Matches(r, mark)
    requires 254 in routed && 254 !in host.gateways && 254 !in host.lastResorts
    ensures Lookup(rules, host, routed, mark) == Elsewhere(Some(254))
  {
    if rules[0] != MAIN {
      FallsToMain(rules[1..], host, routed, mark);
    }
  }

  /** An uplink of the table with this exit's mark is the exit. */
  lemma OwnMark(config: Config, key: Key, name: string)
    requires Valid(config) && MayTake(config, key) && MayTake(config, Exit(name)) && name in config.upstreams.wg
    requires MAX_WG_UPLINKS <= ExitPlace(config, name) && ExitPlace(config, name) != 16
    ensures key in UplinkTable(config) && Exit(name) in UplinkTable(config)
    ensures UplinkTable(config)[key].mark == UplinkTable(config)[Exit(name)].mark ==>
              UplinkTable(config)[key] == UplinkTable(config)[Exit(name)]
  {
    TakenIsSlotIff(config, key);
    TakenIsSlotIff(config, Exit(name));
    if !key.Exit? {
      var uplink := UplinkTable(config)[key];
      SlotsListed(uplink);
    }
  }

  /** The kill switch needs the limit: behind the plan a packet marked for an exit at place eight or later finds no rule
      and leaves by the main table. (Place ten finds Tor's table, and the mark of place sixteen is Tor's.) */
  lemma LateMarkLeaks(config: Config, used: seq<Key>, name: string, gateways: map<int, int>, routed: set<int>)
    requires Valid(config) && config.network.Some? && MayTake(config, Exit(name)) && name in config.upstreams.wg
    requires Listing(TableKeys(config), used) && forall key :: key in used <==>
               MayTake(config, key) && key in TableKeys(config)
    requires MAX_WG_UPLINKS <= ExitPlace(config, name) && ExitPlace(config, name) !in {10, 16}
    requires 254 in routed && 254 !in gateways
    ensures Exit(name) in UplinkTable(config) && forall key :: key in used ==> key in UplinkTable(config)
    ensures PlannedDeletes([MAIN], Wanted(UplinkTable(config), used), SLOT_TABLES) == []
    ensures var uplink, wanted := UplinkTable(config)[Exit(name)], Wanted(UplinkTable(config), used);
            var host := Host(Planned([MAIN], wanted, 0), gateways, TablesOf(wanted), RulesetMarks(config));
            && Settled(host, RulesetMarks(config), wanted)
            && uplink.mark in host.marks && Lookup(host.rules, host, routed, uplink.mark) == Elsewhere(Some(254))
            && !Held(host, routed)
  {
    hide *;
    UsedAreListed(config, used);
    TakenIsSlotIff(config, Exit(name));
    var uplink, wanted := UplinkTable(config)[Exit(name)], Wanted(UplinkTable(config), used);
    PlanOnMain(wanted);
    SettledOnMain(wanted);
    var rules := Planned([MAIN], wanted, 0);
    NoRuleMatches(config, used, name, rules);
    NoMainTable(config, used);
    var host := Host(rules, gateways, TablesOf(wanted), RulesetMarks(config));
    FallsToMain(rules, host, routed, uplink.mark);
    MarkIsSet(config, name);
    IsSettled(host, RulesetMarks(config), wanted);
    ElsewhereIsLost(host, routed, uplink.mark);
  }

  lemma UsedAreListed(config: Config, used: seq<Key>)
    requires Valid(config) && forall key :: key in used <==> MayTake(config, key) && key in TableKeys(config)
    ensures forall key :: key in used ==> key in UplinkTable(config)
    ensures forall key :: key in used <==> MayTake(config, key)
  {
    hide *;
    forall key | MayTake(config, key) ensures key in UplinkTable(config) && key in TableKeys(config) {
      TakenAreListed(config, key);
    }
  }

  lemma NoRuleMatches(config: Config, used: seq<Key>, name: string, rules: seq<Rule>)
    requires Valid(config) && MayTake(config, Exit(name)) && name in config.upstreams.wg && Exit(name) in UplinkTable(config)
    requires forall key :: key in used ==> key in UplinkTable(config) && MayTake(config, key)
    requires MAX_WG_UPLINKS <= ExitPlace(config, name) && ExitPlace(config, name) !in {10, 16}
    requires FromPlan(rules, Wanted(UplinkTable(config), used))
    ensures MAIN in rules && forall r :: r in rules && r != MAIN ==> !Matches(r, UplinkTable(config)[Exit(name)].mark)
  {
    var uplink, wanted := UplinkTable(config)[Exit(name)], Wanted(UplinkTable(config), used);
    hide Valid, MayTake, UplinkTable, ExitPlace, IsSlotTable, Wanted, Matches;
    forall r | r in rules && r != MAIN ensures !Matches(r, uplink.mark) {
      var u :| u in wanted && IsSlotTable(u.table) && r == Exact(u);
      var key := KeyOfWanted(UplinkTable(config), used, u);
      AnotherMark(config, key, name);
    }
  }

  /** A rule at a slot is not for the mark of an exit there is no slot for. */
  lemma AnotherMark(config: Config, key: Key, name: string)
    requires Valid(config) && MayTake(config, key) && MayTake(config, Exit(name)) && name in config.upstreams.wg
    requires key in UplinkTable(config) && Exit(name) in UplinkTable(config) && IsSlotTable(UplinkTable(config)[key].table)
    requires MAX_WG_UPLINKS <= ExitPlace(config, name) && ExitPlace(config, name) !in {10, 16}
    ensures !Matches(Exact(UplinkTable(config)[key]), UplinkTable(config)[Exit(name)].mark)
  {
    hide Valid, MayTake, UplinkTable, ExitPlace;
    OwnMark(config, key, name);
    TakenIsSlotIff(config, Exit(name));
  }

  lemma KeyOfWanted(table: map<Key, Uplink>, used: seq<Key>, uplink: Uplink) returns (key: Key)
    requires (forall k :: k in used ==> k in table) && uplink in Wanted(table, used)
    ensures key in used && table[key] == uplink
  {
    var i :| 0 <= i < |used| && Wanted(table, used)[i] == uplink;
    key := used[i];
  }

  lemma NoMainTable(config: Config, used: seq<Key>)
    requires Valid(config) && forall key :: key in used ==> key in UplinkTable(config) && MayTake(config, key)
    ensures 254 !in TablesOf(Wanted(UplinkTable(config), used))
  {
    var wanted := Wanted(UplinkTable(config), used);
    hide Valid, MayTake, UplinkTable, ExitPlace, Wanted;
    forall u | u in wanted ensures u.table != 254 {
      var key := KeyOfWanted(UplinkTable(config), used, u);
      TakenIsSlotIff(config, key);
    }
  }

  lemma MarkIsSet(config: Config, name: string)
    requires Valid(config) && config.network.Some? && MayTake(config, Exit(name)) && name in config.upstreams.wg
    ensures Exit(name) in UplinkTable(config) && UplinkTable(config)[Exit(name)].mark in RulesetMarks(config)
    ensures UplinkTable(config)[Exit(name)].mark != BLOCK_MARK
  {
    hide Valid, MayTake, UplinkTable, ExitPlace, MarksIn;
    TakenIsSlotIff(config, Exit(name));
    MarksAreUsed(config, UplinkTable(config), UplinkTable(config)[Exit(name)].mark);
  }

  lemma IsSettled(host: Host, marks: set<int>, wanted: seq<Uplink>)
    requires host.marks == marks && RulesSettled(host.rules, wanted) && host.lastResorts == TablesOf(wanted)
    ensures Settled(host, marks, wanted)
  {
  }

  lemma ElsewhereIsLost(host: Host, routed: set<int>, mark: int)
    requires mark in host.marks && mark != BLOCK_MARK && Lookup(host.rules, host, routed, mark).Elsewhere?
    ensures !Held(host, routed)
  {
  }

  lemma SettledOnMain(wanted: seq<Uplink>)
    ensures PlannedDeletes([MAIN], wanted, SLOT_TABLES) == [] ==> RulesSettled(Planned([MAIN], wanted, 0), wanted)
  {
    if PlannedDeletes([MAIN], wanted, SLOT_TABLES) == [] {
      forall t | IsSlotTable(t)
        ensures At(Planned([MAIN], wanted, 0), t) == if ByTable(wanted, t).Some? then [Exact(ByTable(wanted, t).value)]
                  else []
      {
        PlanConverges([MAIN], wanted, t);
      }
    }
  }

  // ---- a configuration -----------------------------------------------------------------------------

  /** `a` to `k`. */
  function Letter(i: nat): string
    requires i < 11
  {
    ['a' + i as char]
  }

  const LETTERS: seq<string> := seq(11, i requires 0 <= i < 11 => Letter(i))

  const SITES: seq<DomainRule> := [
    DomainRule(Channel(ViaWg, None, Some("i")), ["one", "test"], false, []),
    DomainRule(Channel(ViaWg, None, Some("k")), ["two", "test"], false, [])
  ]

  /** Eleven exits; rules send one site through the ninth and one through the eleventh, and a device goes through Tor. */
  const ELEVEN_EXITS: Config := Config(
    Some(Network("eth0", "192.168.1.0/24", None)),
    Some(Routing(Smart, Fixed(Vps), false, SITES, [], [])),
    [Device(Some("02:00:00:00:00:01"), None, PolicyTor)],
    Upstreams(true, true, true, map name | name in LETTERS :: true),
    false)

  lemma LettersAscend()
    ensures Ascending(LETTERS) && SortedNames(ELEVEN_EXITS.upstreams.wg.Keys) == LETTERS
  {
    forall i, j | 0 <= i < j < 11 ensures Less(LETTERS[i], LETTERS[j]) {
      assert LETTERS[i][0] < LETTERS[j][0];
    }
    assert Elements(LETTERS) == ELEVEN_EXITS.upstreams.wg.Keys;
    AscendingIsUnique(SortedNames(ELEVEN_EXITS.upstreams.wg.Keys), LETTERS);
  }

  lemma SameLetter(i: nat, j: nat)
    requires i < 11 && j < 11 && Letter(i) == Letter(j)
    ensures i == j
  {
    assert Letter(i)[0] == 'a' + i as char && Letter(j)[0] == 'a' + j as char;
  }

  lemma LetterPlace(i: nat)
    requires i < 11
    ensures Letter(i) in ELEVEN_EXITS.upstreams.wg && ExitPlace(ELEVEN_EXITS, Letter(i)) == i
  {
    LettersAscend();
    assert LETTERS[i] == Letter(i);
    var place := FirstIndex(LETTERS, Letter(i));
    assert place < 11 && LETTERS[place] == Letter(place);
    SameLetter(place, i);
  }

  lemma UniqueSites()
    ensures NoDuplicates(AllNames(SITES)) && forall n :: n in AllNames(SITES) ==> IsDomain(n)
  {
    var one, two := ["one", "test"], ["two", "test"];
    assert SITES[1..] == [SITES[1]] && [SITES[1]][1..] == [];
    assert SITES[0].Names() == [one] && SITES[1].Names() == [two];
    assert AllNames([SITES[1]]) == [two] + AllNames([]);
    assert AllNames(SITES) == [one] + AllNames([SITES[1]]);
    assert AllNames(SITES) == [one, two] && [one, two][1..] == [two];
    assert one[0][0] == 'o' && two[0][0] == 't';
    IsDomainTest("one");
    IsDomainTest("two");
  }

  lemma IsDomainTest(first: string)
    requires first == "one" || first == "two"
    ensures IsDomain([first, "test"])
  {
  }

  lemma ElevenChannels()
    ensures ELEVEN_EXITS.Channels() == [SITES[0].channel, SITES[1].channel]
    ensures "i" in ELEVEN_EXITS.upstreams.wg && "k" in ELEVEN_EXITS.upstreams.wg
  {
    assert LETTERS[8] == Letter(8) == "i" && LETTERS[10] == Letter(10) == "k";
    assert "i" in LETTERS && "k" in LETTERS;
  }

  lemma ElevenIsValid()
    ensures Valid(ELEVEN_EXITS)
  {
    UniqueSites();
    ElevenChannels();
    ValidElevenChannels();
    hide ValidChannels, UniqueNames, AllNames;
    forall name | name in LETTERS ensures IsExitName(name) {
      var i :| 0 <= i < 11 && LETTERS[i] == name;
      assert name == Letter(i);
    }
    UniqueEleven();
  }

  lemma UniqueEleven()
    ensures UniqueNames(ELEVEN_EXITS.routing.value)
  {
    UniqueSites();
    hide NoDuplicates, AllNames, IsDomain;
  }

  lemma ValidElevenChannels()
    ensures ValidChannels(ELEVEN_EXITS)
  {
    ElevenChannels();
    var one, two := SITES[0].channel, SITES[1].channel;
    assert forall c :: c in ELEVEN_EXITS.Channels() <==> c == one || c == two;
    assert ELEVEN_EXITS.upstreams.wg["i"] && ELEVEN_EXITS.upstreams.wg["k"];
    assert IsExitName("i") && IsExitName("k");
    assert RuleCountries(ELEVEN_EXITS) == {};
  }

  lemma ElevenTaken()
    ensures MayTake(ELEVEN_EXITS, Exit("i")) && MayTake(ELEVEN_EXITS, Exit("k")) && MayTake(ELEVEN_EXITS, Fixed(Tor))
  {
    ElevenChannels();
    var channels := ELEVEN_EXITS.Channels();
    assert channels[0] in channels && channels[1] in channels;
    assert ChannelKey(channels[0]) == Some(Exit("i")) && ChannelKey(channels[1]) == Some(Exit("k"));
    assert ELEVEN_EXITS.devices[0] in ELEVEN_EXITS.devices;
  }

  /** It comes to it: the ninth exit is taken, its packets are marked, and behind the plan they leave by the main table; and
      with the eleventh in use Tor has no rule. `used` is what `UsedUplinks` returns. */
  lemma NinthExitLeaks(used: seq<Key>)
    requires Listing(TableKeys(ELEVEN_EXITS), used)
    requires forall key :: key in used <==> MayTake(ELEVEN_EXITS, key) && key in TableKeys(ELEVEN_EXITS)
    ensures Valid(ELEVEN_EXITS) && MayTake(ELEVEN_EXITS, Exit("i")) && MayTake(ELEVEN_EXITS, Exit("k"))
              && MayTake(ELEVEN_EXITS, Fixed(Tor))
    ensures forall key :: key in used ==> key in UplinkTable(ELEVEN_EXITS)
    ensures var wanted := Wanted(UplinkTable(ELEVEN_EXITS), used);
            && PlannedDeletes([MAIN], wanted, SLOT_TABLES) == []
            && var host := Host(Planned([MAIN], wanted, 0), map[], TablesOf(wanted), RulesetMarks(ELEVEN_EXITS));
               && Settled(host, RulesetMarks(ELEVEN_EXITS), wanted)
               && 0x58 in host.marks && Lookup(host.rules, host, {254}, 0x58) == Elsewhere(Some(254))
               && TOR in wanted && TOR !in PlannedAdds([MAIN], wanted, SLOT_TABLES)
  {
    LetterPlace(8);
    LetterPlace(10);
    assert Letter(8) == "i" && Letter(10) == "k";
    var mark := WgUplink(8).mark;
    assert mark == 0x58 && ELEVEN_EXITS.network.Some?;
    hide *;
    ElevenIsValid();
    ElevenTaken();
    TakenIsSlotIff(ELEVEN_EXITS, Exit("i"));
    LateMarkLeaks(ELEVEN_EXITS, used, "i", map[], {254});
    EleventhTakesTorsRule(ELEVEN_EXITS, used, "k", [MAIN]);
  }
}
