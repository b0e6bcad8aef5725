/** The LAN router's ruleset (core/vibedpn/engine/router.py, `device_sets` and `router_ruleset`;
    core/vibedpn/templates/lan-router.nft.j2): its sets, and the marks its chains put on packets. */
module Rulesets {
  import opened Options
  import opened Configuration
  import opened Ordering
  import opened Slots
  import opened Uplinks
  import opened Networks
  import opened ChannelSets

  /** The two sets of a policy: MACs, and the addresses of devices without a MAC. */
  datatype DeviceSet = DeviceSet(policy: Policy, macs: seq<string>, ips: seq<int>)

  /** What the template is rendered with, as far as it marks packets. */
  datatype Ruleset = Ruleset(
    devices: seq<DeviceSet>,
    smartSets: set<string>,
    networks: seq<NetworkSet>,
    smartMarks: seq<(string, int)>,   // in the order of the names
    modeMark: Option<int>,
    dnsMark: Option<int>)

  const POLICIES: seq<Policy> := [PolicyVps, PolicyDpn, PolicyTor, PolicyBypass, PolicyBlock]

  function Macs(devices: seq<Device>, policy: Policy): (macs: seq<string>)
    ensures forall mac :: mac in macs <==> exists d :: d in devices && d.policy == policy && d.mac == Some(mac)
  {
    if devices == [] then [] else
      var rest := Macs(devices[1..], policy);
      assert forall d :: d in devices <==> d == devices[0] || d in devices[1..];
      if devices[0].policy == policy && devices[0].mac.Some? then [devices[0].mac.value] + rest else rest
  }

  function Ips(devices: seq<Device>, policy: Policy): (ips: seq<int>)
    ensures forall ip :: ip in ips <==> exists d :: d in devices && d.policy == policy && d.mac.None? && d.ip == Some(ip)
  {
    if devices == [] then [] else
      var rest := Ips(devices[1..], policy);
      assert forall d :: d in devices <==> d == devices[0] || d in devices[1..];
      if devices[0].policy == policy && devices[0].mac.None? && devices[0].ip.Some? then [devices[0].ip.value] + rest
          else rest
  }

  function SetsFor(devices: seq<Device>, policies: seq<Policy>): (sets: seq<DeviceSet>)
    ensures |sets| == |policies|
    ensures forall i :: 0 <= i < |policies| ==>
              sets[i] == DeviceSet(policies[i], Macs(devices, policies[i]), Ips(devices, policies[i]))
  {
    seq(|policies|, i requires 0 <= i < |policies| =>
          DeviceSet(policies[i], Macs(devices, policies[i]), Ips(devices, policies[i])))
  }

  /** `device_sets`. */
  method DeviceSets(devices: seq<Device>) returns (sets: seq<DeviceSet>)
    ensures sets == SetsFor(devices, POLICIES)
  {
    sets := [];
    for i := 0 to |POLICIES|
      invariant sets == SetsFor(devices, POLICIES[..i])
    {
      sets := sets + [DeviceSet(POLICIES[i], Macs(devices, POLICIES[i]), Ips(devices, POLICIES[i]))];
    }
    assert POLICIES[..|POLICIES|] == POLICIES;
  }

  /** What a device policy does with a packet: block and the uplink policies mark it, bypass lets it go. */
  function PolicyMark(policy: Policy): Option<int> {
    if policy == PolicyBlock then Some(BLOCK_MARK)
    else if PolicyUpstream(policy).Some? then Some(FixedUplink(PolicyUpstream(policy).value).mark)
    else None
  }

  /** The marks of a mapping, in the order of its names. */
  function InNameOrder(marks: map<string, int>): (pairs: seq<(string, int)>)
    ensures forall name, mark :: (name, mark) in pairs <==> name in marks && marks[name] == mark
    ensures forall i, j :: 0 <= i < j < |pairs| ==> Less(pairs[i].0, pairs[j].0)
  {
    var names := SortedNames(marks.Keys);
    ListedIff(names, marks.Keys);
    Pairs(names, marks)
  }

  function Pairs(names: seq<string>, marks: map<string, int>): (pairs: seq<(string, int)>)
    requires forall name :: name in names ==> name in marks
    ensures |pairs| == |names| && forall i :: 0 <= i < |names| ==> pairs[i] == (names[i], marks[names[i]])
    ensures forall name, mark :: (name, mark) in pairs <==> name in names && marks[name] == mark
  {
    if names == [] then [] else [(names[0], marks[names[0]])] + Pairs(names[1..], marks)
  }

  /** What the ruleset of a configuration consists of. */
  ghost predicate IsRuleset(config: Config, ruleset: Ruleset) {
    var table := UplinkTable(config);
    && ruleset.devices == SetsFor(config.devices, POLICIES)
    && ruleset.smartSets == SmartSetNames(config)
    && (if IsSmart(config) then Says(table, config.routing.value.networks, ruleset.networks) else ruleset.networks == [])
    && (exists marks :: ruleset.smartMarks == InNameOrder(marks)
                        && if IsSmart(config) then MarksOf(table, marks, config.Channels()) else marks == map[])
    && ruleset.modeMark == ActiveMark(config)
    && ruleset.dnsMark == if config.dnsEnabled then ActiveMark(config) else None
  }

  /** The mark of the uplink of routing.mode full. */
  function ActiveMark(config: Config): Option<int> {
    var active := ActiveUplink(config);
    if active.Some? && active.value in UplinkTable(config) then Some(UplinkTable(config)[active.value].mark) else None
  }

  /** `router_ruleset`: exactly the marks of the uplinks in use, and block where a device is blocked. */
  method RouterRuleset(config: Config) returns (ruleset: Option<Ruleset>)
    requires Valid(config)
    ensures ruleset.None? <==> config.network.None?
    ensures ruleset.Some? ==> IsRuleset(config, ruleset.value) && CanSet(ruleset.value) == RulesetMarks(config)
  {
    if config.network.None? {
      return None;
    }
    hide SetsFor, Says, MarksOf, CanSet, RulesetMarks, UplinkTable, InNameOrder, SmartSetNames, ActiveMark, Valid;
    hide *;
    var devices := DeviceSets(config.devices);
    var networks := SmartNetworks(config);
    var marks := SmartMarks(config);
    var active := ActiveMark(config);
    ruleset := Some(Ruleset(devices, SmartSetNames(config), networks, InNameOrder(marks), active,
                            if config.dnsEnabled then active else None));
    MakesRuleset(config, ruleset.value, marks);
    RulesetSetsMarks(config, ruleset.value);
  }

  lemma MakesRuleset(config: Config, ruleset: Ruleset, marks: map<string, int>)
    requires config.routing.Some? && ruleset.devices == SetsFor(config.devices, POLICIES)
               && ruleset.smartSets == SmartSetNames(config)
    requires if IsSmart(config) then Says(UplinkTable(config), config.routing.value.networks, ruleset.networks)
               else ruleset.networks == []
    requires ruleset.smartMarks == InNameOrder(marks)
    requires if IsSmart(config) then MarksOf(UplinkTable(config), marks, config.Channels()) else marks == map[]
    requires ruleset.modeMark == ActiveMark(config) && ruleset.dnsMark == if config.dnsEnabled then ActiveMark(config)
               else None
    ensures IsRuleset(config, ruleset)
  {
    hide Says, MarksOf, UplinkTable, InNameOrder, SetsFor, SmartSetNames, ActiveMark;
  }

  // ---- the marks the chains can put on a packet ----------------------------------------------------

  function DeviceMarks(devices: seq<DeviceSet>): set<int> {
    set d | d in devices && (d.macs != [] || d.ips != []) && PolicyMark(d.policy).Some? :: PolicyMark(d.policy).value
  }

  function NetworkMarks(networks: seq<NetworkSet>): set<int> {
    set n | n in networks && n.elements != [] && n.mark.Some? :: n.mark.value
  }

  function ValueOf(mark: Option<int>): set<int> {
    if mark.Some? then {mark.value} else {}
  }

  function ValuesOf(marks: seq<(string, int)>): set<int> {
    set m | m in marks :: m.1
  }

  /** Every mark of a rule whose set has an element or may get one, and the marks of the two rules without a set. */
  function CanSet(ruleset: Ruleset): set<int> {
    DeviceMarks(ruleset.devices) + NetworkMarks(ruleset.networks) + ValuesOf(ruleset.smartMarks)
    + ValueOf(ruleset.modeMark) + ValueOf(ruleset.dnsMark)
  }

  lemma DeviceMarksAre(config: Config)
    requires ValidDevices(config)
    ensures DeviceMarks(SetsFor(config.devices, POLICIES))
         == (if exists d :: d in config.devices && d.policy == PolicyBlock then {BLOCK_MARK} else {})
            + KeyMarks(UplinkTable(config), DeviceKeys(config.devices))
  {
    var sets := SetsFor(config.devices, POLICIES);
    var marks := (if exists d :: d in config.devices && d.policy == PolicyBlock then {BLOCK_MARK} else {})
                 + KeyMarks(UplinkTable(config), DeviceKeys(config.devices));
    forall mark ensures mark in DeviceMarks(sets) <==> mark in marks {
      hide *;
      DeviceMarkIff(config, mark);
      PolicyKeys(config, mark);
    }
  }

  lemma DeviceMarkIff(config: Config, mark: int)
    requires ValidDevices(config)
    ensures mark in DeviceMarks(SetsFor(config.devices, POLICIES)) <==>
              exists d :: d in config.devices && PolicyMark(d.policy) == Some(mark)
  {
    var sets := SetsFor(config.devices, POLICIES);
    if mark in DeviceMarks(sets) {
      var s :| s in sets && (s.macs != [] || s.ips != []) && PolicyMark(s.policy) == Some(mark);
      HasDevice(config.devices, s);
    }
    if d :| d in config.devices && PolicyMark(d.policy) == Some(mark) {
      HasSet(config.devices, d);
    }
  }

  lemma HasDevice(devices: seq<Device>, s: DeviceSet)
    requires s in SetsFor(devices, POLICIES) && (s.macs != [] || s.ips != [])
    ensures exists d :: d in devices && d.policy == s.policy
  {
    var sets := SetsFor(devices, POLICIES);
    var i :| 0 <= i < |sets| && sets[i] == s;
    if s.macs != [] {
      assert s.macs[0] in s.macs;
    } else {
      assert s.ips[0] in s.ips;
    }
  }

  lemma HasSet(devices: seq<Device>, d: Device)
    requires d in devices && (d.mac.Some? || d.ip.Some?)
    ensures exists s :: s in SetsFor(devices, POLICIES) && s.policy == d.policy && (s.macs != [] || s.ips != [])
  {
    var sets, i := SetsFor(devices, POLICIES), PlaceOf(d.policy);
    assert sets[i] in sets && sets[i].policy == d.policy;
    if d.mac.Some? {
      assert d.mac.value in sets[i].macs;
    } else {
      assert d.ip.value in sets[i].ips;
    }
  }

  lemma PolicyKeys(config: Config, mark: int)
    ensures mark in (if exists d :: d in config.devices && d.policy == PolicyBlock then {BLOCK_MARK} else {})
                    + KeyMarks(UplinkTable(config), DeviceKeys(config.devices))
       <==> exists d :: d in config.devices && PolicyMark(d.policy) == Some(mark)
  {
    hide KeyMarks, DeviceKeys, UplinkTable, FixedUplink, PolicyUpstream;
    FixedMarks(config);
    KeyMarkIff(UplinkTable(config), config.devices, mark);
    BlockHasNoUpstream();
  }

  lemma BlockHasNoUpstream()
    ensures PolicyUpstream(PolicyBlock).None?
  {
  }

  lemma KeyMarkIff(table: map<Key, Uplink>, devices: seq<Device>, mark: int)
    requires forall u: Upstream :: Fixed(u) in table && table[Fixed(u)] == FixedUplink(u)
    ensures mark in KeyMarks(table, DeviceKeys(devices))
       <==> exists d :: d in devices && PolicyUpstream(d.policy).Some? && FixedUplink(PolicyUpstream(d.policy).value).mark == mark
  {
    hide FixedUplink, PolicyUpstream;
    if d :| d in devices && PolicyUpstream(d.policy).Some? && FixedUplink(PolicyUpstream(d.policy).value).mark == mark {
      var key := Fixed(PolicyUpstream(d.policy).value);
      assert key in DeviceKeys(devices) && table[key].mark == mark;
    }
  }

  lemma FixedMarks(config: Config)
    ensures forall u: Upstream :: Fixed(u) in UplinkTable(config) && UplinkTable(config)[Fixed(u)] == FixedUplink(u)
  {
    var codes, exits := SortedNames(RuleCountries(config)), SortedNames(config.upstreams.wg.Keys);
    forall u: Upstream ensures Fixed(u) in UplinkTable(config) && UplinkTable(config)[Fixed(u)] == FixedUplink(u) {
      KeysListed(codes, exits, Fixed(u));
    }
  }

  /** The values of `smart_marks` are the marks of the channels. */
  lemma SmartMarksAre(table: map<Key, Uplink>, channels: seq<Channel>, marks: map<string, int>)
    requires MarksOf(table, marks, channels)
    ensures ValuesOf(InNameOrder(marks)) == KeyMarks(table, ChannelKeys(channels))
  {
    hide InNameOrder, ChannelSet, Less;
    forall mark | mark in ValuesOf(InNameOrder(marks)) ensures mark in KeyMarks(table, ChannelKeys(channels)) {
      var m :| m in InNameOrder(marks) && m.1 == mark;
      assert (m.0, m.1) in InNameOrder(marks);
      var c :| c in channels && ChannelMark(table, c).Some? && ChannelSet(c) == m.0;
      ChannelHasKey(table, channels, c);
    }
    forall mark | mark in KeyMarks(table, ChannelKeys(channels)) ensures mark in ValuesOf(InNameOrder(marks)) {
      var key :| key in ChannelKeys(channels) && key in table && table[key].mark == mark;
      var c :| c in channels && ChannelKey(c) == Some(key);
      assert (ChannelSet(c), mark) in InNameOrder(marks);
    }
  }

  lemma ChannelHasKey(table: map<Key, Uplink>, channels: seq<Channel>, c: Channel)
    requires c in channels && ChannelMark(table, c).Some?
    ensures ChannelMark(table, c).value in KeyMarks(table, ChannelKeys(channels))
  {
    assert ChannelKey(c).value in ChannelKeys(channels);
  }

  /** A network brings no mark its channel does not have. */
  lemma NetworkMarksAre(table: map<Key, Uplink>, channels: seq<Channel>, networks: seq<NetworkSet>, rules: seq<NetworkRule>)
    requires Says(table, rules, networks) && forall n :: n in rules ==> n.channel in channels
    ensures NetworkMarks(networks) <= KeyMarks(table, ChannelKeys(channels))
  {
    forall mark | mark in NetworkMarks(networks) ensures mark in KeyMarks(table, ChannelKeys(channels)) {
      var s :| s in networks && s.elements != [] && s.mark == Some(mark);
      var n := OneNetwork(table, rules, networks, s);
      ChannelHasKey(table, channels, n.channel);
    }
  }

  /** A set with an element stands for a network rule, and carries the mark of its channel. */
  lemma OneNetwork(table: map<Key, Uplink>, rules: seq<NetworkRule>, networks: seq<NetworkSet>, s: NetworkSet)
    returns (n: NetworkRule)
    requires Says(table, rules, networks) && s in networks && s.elements != []
    ensures n in rules && NetworkSetName(n.channel) == s.name && s.mark == ChannelMark(table, n.channel)
  {
    assert s.elements[0] in s.elements;
    assert Asked(rules, s.name, s.elements[0]);
    n :| n in rules && NetworkSetName(n.channel) == s.name && n.network == s.elements[0];
    assert Listed(networks, NetworkSetName(n.channel), n.network, ChannelMark(table, n.channel));
    var other :| other in networks && other.name == s.name && other.mark == ChannelMark(table, n.channel);
    var i :| 0 <= i < |networks| && networks[i] == s;
    var j :| 0 <= j < |networks| && networks[j] == other;
  }

  lemma RulesetSetsMarks(config: Config, ruleset: Ruleset)
    requires Valid(config) && config.network.Some? && IsRuleset(config, ruleset)
    ensures CanSet(ruleset) == RulesetMarks(config)
  {
    hide Says, MarksOf, DeviceMarks, NetworkMarks, ValuesOf, KeyMarks, ChannelKeys, DeviceKeys, UplinkTable,
         InNameOrder, ValueOf,
         ActiveMark, ActiveUplink, SmartSetNames, SetsFor, ValidDevices, ValidChannels, UniqueNames;
    var table := UplinkTable(config);
    DeviceMarksAre(config);
    ModeMarksAre(config);
    var marks :| ruleset.smartMarks == InNameOrder(marks)
                 && if IsSmart(config) then MarksOf(table, marks, config.Channels()) else marks == map[];
    if IsSmart(config) {
      NetworksAreChannels(config);
      SmartMarksAre(table, config.Channels(), marks);
      NetworkMarksAre(table, config.Channels(), ruleset.networks, config.routing.value.networks);
    } else {
      NothingSmart();
    }
  }

  lemma NothingSmart()
    ensures NetworkMarks([]) == {} && ValuesOf(InNameOrder(map[])) == {}
  {
    var none: map<string, int> := map[];
    assert none.Keys == {} && |SortedNames(none.Keys)| == 0;
    assert InNameOrder(none) == [];
  }

  lemma ModeMarksAre(config: Config)
    requires Valid(config) && config.network.Some?
    ensures ValueOf(ActiveMark(config)) + ValueOf(if config.dnsEnabled then ActiveMark(config) else None)
         == if ActiveUplink(config).Some? then KeyMarks(UplinkTable(config), {ActiveUplink(config).value}) else {}
  {
  }

  lemma NetworksAreChannels(config: Config)
    requires config.routing.Some? && ValidChannels(config)
    ensures forall n :: n in config.routing.value.networks ==> n.channel in config.Channels() && ValidChannel(n.channel)
  {
    var routing := config.routing.value;
    forall n | n in routing.networks ensures n.channel in config.Channels() {
      var i :| 0 <= i < |routing.networks| && routing.networks[i] == n;
      assert config.Channels()[|routing.domains| + |routing.lists| + i] == n.channel;
    }
  }

  // ---- the prerouting chain ------------------------------------------------------------------------

  /** A packet from the LAN to somewhere beyond it. */
  datatype Packet = Packet(mac: string, source: int, destination: Address)

  /** The order the chain asks the device sets in. */
  const CHAIN: seq<Policy> := [PolicyBypass, PolicyBlock, PolicyVps, PolicyDpn, PolicyTor]

  predicate InSets(devices: seq<DeviceSet>, policy: Policy, packet: Packet) {
    exists d :: d in devices && d.policy == policy && (packet.mac in d.macs || packet.source in d.ips)
  }

  function PolicyOf(devices: seq<DeviceSet>, packet: Packet, policies: seq<Policy>): Option<Policy> {
    if policies == [] then None
    else if InSets(devices, policies[0], packet) then Some(policies[0])
    else PolicyOf(devices, packet, policies[1..])
  }

  /** The first network set with a network around the destination; `around` are those networks. */
  function NetworkOf(networks: seq<NetworkSet>, around: set<string>): Option<NetworkSet> {
    if networks == [] then None
    else if exists e :: e in networks[0].elements && e in around then Some(networks[0])
    else NetworkOf(networks[1..], around)
  }

  predicate InTimedSet(elements: Elements, now: int, setName: string, address: Address) {
    (setName, address) in elements && now < elements[(setName, address)]
  }

  /** The mark of the first timed set that holds the address. */
  function SmartMark(marks: seq<(string, int)>, elements: Elements, now: int, address: Address): Option<int> {
    if marks == [] then None
    else if InTimedSet(elements, now, marks[0].0, address) then Some(marks[0].1)
    else SmartMark(marks[1..], elements, now, address)
  }

  /** The chain `prerouting`: device policies, then networks, then domains, then the mode; the first match decides. */
  function MarkOf(ruleset: Ruleset, packet: Packet, around: set<string>, elements: Elements, now: int): Option<int> {
    var policy, network := PolicyOf(ruleset.devices, packet, CHAIN), NetworkOf(ruleset.networks, around);
    var mark := SmartMark(ruleset.smartMarks, elements, now, packet.destination);
    if policy.Some? then PolicyMark(policy.value)
    else if network.Some? then network.value.mark
    else if mark.Some? then mark
    else ruleset.modeMark
  }

  lemma {:induction false} PolicyOfIsIn(devices: seq<DeviceSet>, packet: Packet, policies: seq<Policy>)
    ensures PolicyOf(devices, packet, policies).Some? ==> InSets(devices, PolicyOf(devices, packet, policies).value, packet)
  {
    if policies != [] {
      PolicyOfIsIn(devices, packet, policies[1..]);
    }
  }

  lemma {:induction false} NetworkOfIsIn(networks: seq<NetworkSet>, around: set<string>)
    ensures NetworkOf(networks, around).Some? ==>
              NetworkOf(networks, around).value in networks && NetworkOf(networks, around).value.elements != []
  {
    if networks != [] {
      NetworkOfIsIn(networks[1..], around);
    }
  }

  /** The first set with a network around, and none exactly when no set has one. */
  lemma {:induction false} NetworkOfIsFirst(networks: seq<NetworkSet>, around: set<string>)
    ensures NetworkOf(networks, around).None? ==> forall s, e :: s in networks && e in s.elements ==> e !in around
    ensures NetworkOf(networks, around).Some? ==>
              exists i :: 0 <= i < |networks| && IsFirst(networks, around, i)
                  && NetworkOf(networks, around) == Some(networks[i])
  {
    if networks != [] && !HasOneOf(networks[0], around) {
      var rest := networks[1..];
      NetworkOfIsFirst(rest, around);
      assert forall s :: s in networks <==> s == networks[0] || s in rest;
      if NetworkOf(rest, around).Some? {
        var i :| 0 <= i < |rest| && IsFirst(rest, around, i) && NetworkOf(rest, around) == Some(rest[i]);
        forall j | 0 <= j < i + 1 ensures !HasOneOf(networks[j], around) {
          assert j > 0 ==> networks[j] == rest[j - 1];
        }
        assert IsFirst(networks, around, i + 1);
      }
    } else if networks != [] {
      assert IsFirst(networks, around, 0);
    }
  }

  ghost predicate HasOneOf(networks: NetworkSet, around: set<string>) {
    exists e :: e in networks.elements && e in around
  }

  ghost predicate IsFirst(networks: seq<NetworkSet>, around: set<string>, i: nat)
    requires i < |networks|
  {
    HasOneOf(networks[i], around) && forall j :: 0 <= j < i ==> !HasOneOf(networks[j], around)
  }

  /** A packet is about a network set exactly when a rule has a network around its destination. */
  lemma NetworkOfRules(table: map<Key, Uplink>, rules: seq<NetworkRule>, networks: seq<NetworkSet>, around: set<string>)
    requires Says(table, rules, networks)
    ensures NetworkOf(networks, around).Some? <==> exists n :: n in rules && n.network in around
  {
    NetworkOfIsFirst(networks, around);
    if n :| n in rules && n.network in around {
      assert Listed(networks, NetworkSetName(n.channel), n.network, ChannelMark(table, n.channel));
    }
    if NetworkOf(networks, around).Some? {
      var i :| 0 <= i < |networks| && IsFirst(networks, around, i);
      var e :| e in networks[i].elements && e in around;
      assert Asked(rules, networks[i].name, e);
    }
  }

  /** Of the networks around an address a direct one decides; where all are of one channel, its mark does. */
  lemma NetworkOfChannel(table: map<Key, Uplink>, rules: seq<NetworkRule>, networks: seq<NetworkSet>,
                         around: set<string>, n: NetworkRule)
    requires Says(table, rules, networks) && n in rules && n.network in around
    requires forall o :: o in rules ==> ValidChannel(o.channel)
    requires ChannelMark(table, n.channel).None? || forall o :: o in rules && o.network in around ==> o.channel == n.channel
    ensures NetworkOf(networks, around).Some? && NetworkOf(networks, around).value.mark == ChannelMark(table, n.channel)
  {
    NetworkOfIsFirst(networks, around);
    assert Listed(networks, NetworkSetName(n.channel), n.network, ChannelMark(table, n.channel));
    var s :| s in networks && s.name == NetworkSetName(n.channel) && n.network in s.elements
        && s.mark == ChannelMark(table, n.channel);
    var k :| 0 <= k < |networks| && networks[k] == s;
    assert HasOneOf(networks[k], around);
    var i :| 0 <= i < |networks| && IsFirst(networks, around, i) && NetworkOf(networks, around) == Some(networks[i]);
    assert i <= k;
    SaysOf(table, rules, networks, i, k);
    hide *;
    if s.mark.Some? {
      OneChannel(rules, networks, around, n.channel, i);
    }
  }

  /** Before a direct set stand only direct ones, and no two sets have one name. */
  lemma SaysOf(table: map<Key, Uplink>, rules: seq<NetworkRule>, networks: seq<NetworkSet>, i: nat, k: nat)
    requires Says(table, rules, networks) && i <= k < |networks|
    ensures networks[k].mark.None? ==> networks[i].mark.None?
    ensures networks[i].name == networks[k].name ==> i == k
    ensures forall e :: e in networks[i].elements ==> Asked(rules, networks[i].name, e)
  {
    hide Asked, Listed, Ascending, Less, ChannelMark;
  }

  lemma OneChannel(rules: seq<NetworkRule>, networks: seq<NetworkSet>, around: set<string>, channel: Channel, i: nat)
    requires i < |networks| && IsFirst(networks, around, i)
    requires forall e :: e in networks[i].elements ==> Asked(rules, networks[i].name, e)
    requires forall o :: o in rules && o.network in around ==> o.channel == channel
    ensures networks[i].name == NetworkSetName(channel)
  {
    var e :| e in networks[i].elements && e in around;
    assert Asked(rules, networks[i].name, e);
  }

  /** The mark of the domain sets: there is one exactly when a marked set holds the address, and of several it is that of
      the first name. */
  lemma {:induction false} SmartMarkIs(marks: seq<(string, int)>, elements: Elements, now: int, address: Address)
    requires forall i, j :: 0 <= i < j < |marks| ==> Less(marks[i].0, marks[j].0)
    ensures SmartMark(marks, elements, now, address).None? <==> forall m :: m in marks ==>
              !InTimedSet(elements, now, m.0, address)
    ensures SmartMark(marks, elements, now, address).Some? ==>
              exists m :: m in marks && InTimedSet(elements, now, m.0, address)
                  && SmartMark(marks, elements, now, address) == Some(m.1)
                          && forall o :: o in marks && InTimedSet(elements, now, o.0, address) ==> o == m || Less(m.0, o.0)
  {
    if marks != [] {
      SmartMarkIs(marks[1..], elements, now, address);
      assert forall m :: m in marks <==> m == marks[0] || m in marks[1..];
    }
  }

  /** No packet ever leaves the chain with another mark than those the ruleset can set. */
  lemma OnlyTheseMarks(ruleset: Ruleset, packet: Packet, around: set<string>, elements: Elements, now: int)
    requires forall i, j :: 0 <= i < j < |ruleset.smartMarks| ==> Less(ruleset.smartMarks[i].0, ruleset.smartMarks[j].0)
    ensures MarkOf(ruleset, packet, around, elements, now).Some? ==>
              MarkOf(ruleset, packet, around, elements, now).value in CanSet(ruleset)
  {
    PolicyOfIsIn(ruleset.devices, packet, CHAIN);
    NetworkOfIsIn(ruleset.networks, around);
    SmartMarkIs(ruleset.smartMarks, elements, now, packet.destination);
    var policy := PolicyOf(ruleset.devices, packet, CHAIN);
    if policy.Some? && PolicyMark(policy.value).Some? {
      var d :| d in ruleset.devices && d.policy == policy.value && (packet.mac in d.macs || packet.source in d.ips);
      assert PolicyMark(d.policy).value in DeviceMarks(ruleset.devices);
    }
  }

  /** A device's policy beats the mode and every rule. A device with a MAC is in one set by it; a packet of its that comes
      from the address of a device without one is in the set of that device too, and the chain asks one of the two first. */
  lemma PolicyWins(config: Config, ruleset: Ruleset, d: Device, packet: Packet, around: set<string>,
                   elements: Elements, now: int)
    requires ValidDevices(config) && IsRuleset(config, ruleset) && d in config.devices && d.mac == Some(packet.mac)
    ensures var borrowed := Borrowed(config.devices, packet.source);
            MarkOf(ruleset, packet, around, elements, now)
            == OwnersMark(if borrowed.Some? && Before(borrowed.value, d.policy) then borrowed.value else d.policy)
  {
    MarkInNumbers();
    var borrowed := Borrowed(config.devices, packet.source);
    var first := if borrowed.Some? && Before(borrowed.value, d.policy) then borrowed.value else d.policy;
    forall policy ensures InSets(ruleset.devices, policy, packet) <==> policy == d.policy || borrowed == Some(policy) {
      TwoSets(config, d, packet, policy);
    }
    FirstAsked(ruleset.devices, packet, d.policy, borrowed);
  }

  lemma MarkInNumbers()
    ensures forall policy :: PolicyMark(policy) == OwnersMark(policy)
  {
  }

  /** A device without a policy of its own, and without one borrowed, is in no set. */
  lemma NoPolicy(config: Config, ruleset: Ruleset, packet: Packet)
    requires IsRuleset(config, ruleset)
    requires forall d :: d in config.devices ==>
               d.mac != Some(packet.mac) && (d.mac.None? ==> d.ip != Some(packet.source))
    ensures PolicyOf(ruleset.devices, packet, CHAIN).None?
  {
    forall policy ensures !InSets(ruleset.devices, policy, packet) {
      if InSets(SetsFor(config.devices, POLICIES), policy, packet) {
        InSetsHas(config.devices, policy, packet);
      }
    }
    hide IsRuleset, InSets, SetsFor;
    PolicyOfIsIn(ruleset.devices, packet, CHAIN);
  }

  /** The policy of the device without a MAC that has this address; there is at most one. */
  function Borrowed(devices: seq<Device>, source: int): (policy: Option<Policy>)
    ensures policy.Some? ==> exists d :: d in devices && d.mac.None? && d.ip == Some(source) && d.policy == policy.value
    ensures policy.None? ==> forall d :: d in devices && d.mac.None? ==> d.ip != Some(source)
  {
    if devices == [] then None
    else if devices[0].mac.None? && devices[0].ip == Some(source) then Some(devices[0].policy)
    else Borrowed(devices[1..], source)
  }

  function Turn(policy: Policy): nat {
    match policy
    case PolicyBypass => 0
    case PolicyBlock => 1
    case PolicyVps => 2
    case PolicyDpn => 3
    case PolicyTor => 4
  }

  /** The chain asks for this policy before that one. */
  predicate Before(a: Policy, b: Policy) { Turn(a) < Turn(b) }

  lemma ChainInTurn(i: nat)
    requires i < 5
    ensures |CHAIN| == 5 && Turn(CHAIN[i]) == i
  {
  }

  lemma FirstAsked(devices: seq<DeviceSet>, packet: Packet, own: Policy, borrowed: Option<Policy>)
    requires forall policy :: InSets(devices, policy, packet) <==> policy == own || borrowed == Some(policy)
    ensures PolicyOf(devices, packet, CHAIN)
         == Some(if borrowed.Some? && Before(borrowed.value, own) then borrowed.value else own)
  {
    var first := if borrowed.Some? && Before(borrowed.value, own) then borrowed.value else own;
    ChainInTurn(Turn(first));
    forall i | 0 <= i < Turn(first) ensures !InSets(devices, CHAIN[i], packet) {
      ChainInTurn(i);
    }
    assert CHAIN[Turn(first)] == first by {
      TurnIsOne(CHAIN[Turn(first)], first);
    }
    PolicyFound(devices, packet, CHAIN, Turn(first));
  }

  lemma TurnIsOne(a: Policy, b: Policy)
    ensures Turn(a) == Turn(b) <==> a == b
  {
  }

  lemma {:induction false} PolicyFound(devices: seq<DeviceSet>, packet: Packet, policies: seq<Policy>, i: nat)
    requires i < |policies| && InSets(devices, policies[i], packet) && forall k :: 0 <= k < i ==>
               !InSets(devices, policies[k], packet)
    ensures PolicyOf(devices, packet, policies) == Some(policies[i])
  {
    if i > 0 {
      PolicyFound(devices, packet, policies[1..], i - 1);
    }
  }

  lemma TwoSets(config: Config, d: Device, packet: Packet, policy: Policy)
    requires ValidDevices(config) && d in config.devices && d.mac == Some(packet.mac)
    ensures InSets(SetsFor(config.devices, POLICIES), policy, packet)
       <==> policy == d.policy || Borrowed(config.devices, packet.source) == Some(policy)
  {
    if InSets(SetsFor(config.devices, POLICIES), policy, packet) {
      SameDevice(config, d, packet, policy);
    }
    OwnSet(config.devices, d, packet);
    var borrowed := Borrowed(config.devices, packet.source);
    if borrowed.Some? {
      var other :| other in config.devices && other.mac.None? && other.ip == Some(packet.source)
          && other.policy == borrowed.value;
      BorrowedSet(config.devices, other, packet);
    }
  }

  lemma InSetsHas(devices: seq<Device>, policy: Policy, packet: Packet)
    requires InSets(SetsFor(devices, POLICIES), policy, packet)
    ensures packet.mac in Macs(devices, policy) || packet.source in Ips(devices, policy)
  {
    hide Macs, Ips;
    var sets := SetsFor(devices, POLICIES);
    var s :| s in sets && s.policy == policy && (packet.mac in s.macs || packet.source in s.ips);
    var i :| 0 <= i < |sets| && sets[i] == s;
  }

  lemma DevicesDiffer(config: Config)
    requires ValidDevices(config)
    ensures forall i, j :: 0 <= i < j < |config.devices| ==> config.devices[i].mac.Some? ==>
              config.devices[j].mac != config.devices[i].mac
    ensures forall i, j :: 0 <= i < j < |config.devices| ==> config.devices[i].ip.Some? ==>
              config.devices[j].ip != config.devices[i].ip
  {
  }

  lemma SameDevice(config: Config, d: Device, packet: Packet, policy: Policy)
    requires ValidDevices(config) && d in config.devices && d.mac == Some(packet.mac)
    requires InSets(SetsFor(config.devices, POLICIES), policy, packet)
    ensures policy == d.policy || Borrowed(config.devices, packet.source) == Some(policy)
  {
    hide *;
    DevicesDiffer(config);
    InSetsHas(config.devices, policy, packet);
    if packet.mac in Macs(config.devices, policy) {
      var other :| other in config.devices && other.policy == policy && other.mac == d.mac;
      SameMac(config.devices, d, other);
    } else {
      var other :| other in config.devices && other.policy == policy && other.mac.None? && other.ip == Some(packet.source);
      var found :| found in config.devices && found.mac.None? && found.ip == Some(packet.source)
                   && found.policy == Borrowed(config.devices, packet.source).value;
      SameIp(config.devices, found, other);
    }
  }

  lemma SameMac(devices: seq<Device>, d: Device, other: Device)
    requires forall i, j :: 0 <= i < j < |devices| ==> devices[i].mac.Some? ==> devices[j].mac != devices[i].mac
    requires d in devices && other in devices && d.mac.Some? && other.mac == d.mac
    ensures d == other
  {
    var a :| 0 <= a < |devices| && devices[a] == d;
    var b :| 0 <= b < |devices| && devices[b] == other;
    assert a == b;
  }

  lemma SameIp(devices: seq<Device>, d: Device, other: Device)
    requires forall i, j :: 0 <= i < j < |devices| ==> devices[i].ip.Some? ==> devices[j].ip != devices[i].ip
    requires d in devices && other in devices && d.ip.Some? && other.ip == d.ip
    ensures d == other
  {
    var a :| 0 <= a < |devices| && devices[a] == d;
    var b :| 0 <= b < |devices| && devices[b] == other;
    assert a == b;
  }

  lemma OwnSet(devices: seq<Device>, d: Device, packet: Packet)
    requires d in devices && d.mac == Some(packet.mac)
    ensures InSets(SetsFor(devices, POLICIES), d.policy, packet)
  {
    var sets, i := SetsFor(devices, POLICIES), PlaceOf(d.policy);
    assert sets[i] in sets && sets[i].policy == d.policy && packet.mac in sets[i].macs;
  }

  lemma BorrowedSet(devices: seq<Device>, d: Device, packet: Packet)
    requires d in devices && d.mac.None? && d.ip == Some(packet.source)
    ensures InSets(SetsFor(devices, POLICIES), d.policy, packet)
  {
    var sets, i := SetsFor(devices, POLICIES), PlaceOf(d.policy);
    assert sets[i] in sets && sets[i].policy == d.policy && packet.source in sets[i].ips;
  }

  /** Where the sets of a policy stand. */
  function PlaceOf(policy: Policy): (i: nat)
    ensures i < |POLICIES| && POLICIES[i] == policy
  {
    match policy
    case PolicyVps => 0
    case PolicyDpn => 1
    case PolicyTor => 2
    case PolicyBypass => 3
    case PolicyBlock => 4
  }
}
