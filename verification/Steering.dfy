/** routing.mode smart from end to end: from the rule of a name, over the set its addresses are in and the mark of that
    set, to the uplink its packets leave through (core/vibedpn/engine/resolver.py; core/vibedpn/engine/router.py). */
module Steering {
  import opened Options
  import opened Names
  import opened Configuration
  import opened Ordering
  import opened Slots
  import opened RuleTable
  import opened Uplinks
  import opened Networks
  import opened RuleIndexes
  import opened ChannelSets
  import opened SetHistories
  import opened Resolvers
  import Dicts
  import Replays
  import opened Rulesets
  import opened KillSwitch

  /** The channel of a declared set; there is only one. */
  ghost function ChannelOf(config: Config, setName: string): (channel: Channel)
    requires setName in SmartSetNames(config)
    ensures channel in config.Channels() && ChannelSet(channel) == setName
  {
    var c :| c in config.Channels() && ChannelSet(c) == setName;
    c
  }

  lemma MarkOfSet(table: map<Key, Uplink>, marks: map<string, int>, channels: seq<Channel>, channel: Channel)
    requires MarksOf(table, marks, channels) && channel in channels && forall c :: c in channels ==> ValidChannel(c)
    ensures ChannelSet(channel) in marks <==> ChannelMark(table, channel).Some?
    ensures ChannelSet(channel) in marks ==> marks[ChannelSet(channel)] == ChannelMark(table, channel).value
  {
    hide ChannelSet, ChannelMark, ValidChannel;
    if ChannelSet(channel) in marks {
      var c :| c in channels && ChannelMark(table, c).Some? && ChannelSet(c) == ChannelSet(channel);
      ChannelSetInjective(c, channel);
    }
  }

  /** The channel of a declared set is one some traffic may take, unless it is direct. */
  lemma ChannelIsTaken(config: Config, channel: Channel)
    requires Valid(config) && IsSmart(config) && channel in config.Channels()
    ensures var key := ChannelKey(channel);
            && (key.Some? ==> key.value in UplinkTable(config) && MayTake(config, key.value))
            && ChannelMark(UplinkTable(config), channel) == if key.Some? then Some(UplinkTable(config)[key.value].mark)
                else None
  {
    hide UplinkTable, ChannelKey, ValidChannel;
    if ChannelKey(channel).Some? {
      assert ChannelKey(channel).value in ChannelKeys(config.Channels());
      TakenAreListed(config, ChannelKey(channel).value);
    }
  }

  /** The mark the ruleset has for a set is the mark of its channel's uplink, and there is none exactly for direct. */
  lemma SetHasItsMark(config: Config, ruleset: Ruleset, setName: string)
    requires Valid(config) && IsSmart(config) && IsRuleset(config, ruleset) && setName in SmartSetNames(config)
    ensures var key := ChannelKey(ChannelOf(config, setName));
            && (key.Some? ==> key.value in UplinkTable(config) && MayTake(config, key.value))
            && (key.Some? ==> (setName, UplinkTable(config)[key.value].mark) in ruleset.smartMarks)
            && forall m :: m in ruleset.smartMarks && m.0 == setName ==>
                key.Some? && m.1 == UplinkTable(config)[key.value].mark
  {
    var table, channel := UplinkTable(config), ChannelOf(config, setName);
    ChannelIsTaken(config, channel);
    var marks :| ruleset.smartMarks == InNameOrder(marks) && MarksOf(table, marks, config.Channels());
    hide IsRuleset, UplinkTable, ChannelKey, ChannelMark, ChannelSet, MayTake, InNameOrder, MarksOf, ValidChannel;
    MarkOfSet(table, marks, config.Channels(), channel);
  }

  /** The address of a packet is in the timed set of this name, and in no other one. */
  ghost predicate OnlyIn(elements: Elements, now: int, setName: string, address: Address) {
    && InTimedSet(elements, now, setName, address)
    && forall other :: InTimedSet(elements, now, other, address) ==> other == setName
  }

  lemma MarksInOrder(config: Config, ruleset: Ruleset)
    requires IsRuleset(config, ruleset)
    ensures forall i, j :: 0 <= i < j < |ruleset.smartMarks| ==> Less(ruleset.smartMarks[i].0, ruleset.smartMarks[j].0)
  {
  }

  /** The mark of the only set that holds an address. */
  lemma OnlySetMarks(marks: seq<(string, int)>, elements: Elements, now: int, setName: string, address: Address,
                     mark: Option<int>)
    requires forall i, j :: 0 <= i < j < |marks| ==> Less(marks[i].0, marks[j].0)
    requires OnlyIn(elements, now, setName, address)
    requires forall m :: m in marks && m.0 == setName ==> mark == Some(m.1)
    requires mark.Some? ==> (setName, mark.value) in marks
    ensures SmartMark(marks, elements, now, address) == mark
  {
    SmartMarkIs(marks, elements, now, address);
    hide SmartMark, InTimedSet;
    if SmartMark(marks, elements, now, address).Some? {
      var m :| m in marks && InTimedSet(elements, now, m.0, address) && SmartMark(marks, elements, now, address) == Some(m.1);
      assert m.0 == setName;
    }
  }

  /** The mark the chain puts on a packet of a device without a policy, to an address no network rule is about. */
  lemma SetDecidesMark(config: Config, ruleset: Ruleset, setName: string, packet: Packet, around: set<string>,
                       elements: Elements, now: int)
    requires Valid(config) && IsSmart(config) && IsRuleset(config, ruleset) && setName in SmartSetNames(config)
    requires PolicyOf(ruleset.devices, packet, CHAIN).None? && NetworkOf(ruleset.networks, around).None?
    requires OnlyIn(elements, now, setName, packet.destination)
    ensures var key := ChannelKey(ChannelOf(config, setName));
            && (key.Some? ==> key.value in UplinkTable(config))
            && MarkOf(ruleset, packet, around, elements, now) == if key.Some?
                then Some(UplinkTable(config)[key.value].mark) else None
  {
    NoModeMark(config, ruleset);
    MarksInOrder(config, ruleset);
    SetHasItsMark(config, ruleset, setName);
    var key := ChannelKey(ChannelOf(config, setName));
    var mark := if key.Some? then Some(UplinkTable(config)[key.value].mark) else None;
    OnlySetMarks(ruleset.smartMarks, elements, now, setName, packet.destination, mark);
    hide *;
    ChainDecides(ruleset, packet, around, elements, now, mark);
  }

  lemma ChainDecides(ruleset: Ruleset, packet: Packet, around: set<string>, elements: Elements, now: int, mark: Option<int>)
    requires PolicyOf(ruleset.devices, packet, CHAIN).None? && NetworkOf(ruleset.networks, around).None?
    requires SmartMark(ruleset.smartMarks, elements, now, packet.destination) == mark && ruleset.modeMark == None
    ensures MarkOf(ruleset, packet, around, elements, now) == mark
  {
  }

  lemma NoModeMark(config: Config, ruleset: Ruleset)
    requires IsSmart(config) && IsRuleset(config, ruleset)
    ensures ruleset.modeMark == None
  {
  }

  /** An address that is in the direct set too still leaves through a tunnel: the direct set has no mark. */
  lemma TunnelBeatsDirect(config: Config, ruleset: Ruleset, setName: string, packet: Packet, around: set<string>,
                          elements: Elements, now: int)
    requires Valid(config) && IsSmart(config) && IsRuleset(config, ruleset) && setName in SmartSetNames(config)
    requires PolicyOf(ruleset.devices, packet, CHAIN).None? && NetworkOf(ruleset.networks, around).None?
    requires InTimedSet(elements, now, setName, packet.destination) && setName != DIRECT_SET
    ensures MarkOf(ruleset, packet, around, elements, now).Some?
  {
    MarksInOrder(config, ruleset);
    SetHasItsMark(config, ruleset, setName);
    var channel := ChannelOf(config, setName);
    ChannelsAreValid(config, channel);
    UnmarkedIsDirect(channel);
    hide IsRuleset, UplinkTable, ChannelKey, PolicyOf, NetworkOf, MayTake, InTimedSet;
    assert (setName, UplinkTable(config)[ChannelKey(channel).value].mark) in ruleset.smartMarks;
    SmartMarkIs(ruleset.smartMarks, elements, now, packet.destination);
  }

  lemma ChannelsAreValid(config: Config, channel: Channel)
    requires Valid(config) && channel in config.Channels()
    ensures ValidChannel(channel)
  {
  }

  /** Where a packet with the mark of an uplink in use goes on a host that holds the kill switch. */
  lemma MarkLeadsToUplink(config: Config, key: Key, host: Host, routed: set<int>)
    requires Promised(config) && config.network.Some? && MayTake(config, key)
    requires Held(host, routed) && host.marks == RulesetMarks(config)
    ensures key in UplinkTable(config)
    ensures var uplink := UplinkTable(config)[key];
            Lookup(host.rules, host, routed, uplink.mark)
            == if uplink.table in host.gateways then ToGateway(uplink.gateway) else Unreachable
  {
    TakenHasSlot(config, key);
    var uplink := UplinkTable(config)[key];
    SlotsListed(uplink);
    MarksAreUsed(config, UplinkTable(config), uplink.mark);
    SlotsDistinct(uplink, SlotOfMark(uplink.mark));
  }

  /** Marked for an uplink a packet goes to its gateway, or nowhere while it has none; without one it is not marked. */
  ghost predicate LeavesBy(uplink: Option<Uplink>, mark: Option<int>, host: Host, routed: set<int>) {
    match uplink
    case None => mark == None
    case Some(u) =>
      && mark == Some(u.mark)
      && Lookup(host.rules, host, routed, u.mark) == if u.table in host.gateways then ToGateway(u.gateway) else Unreachable
  }

  /** routing.mode full: what no device policy is about leaves through the default uplink, under its own numbers. */
  lemma FullLeavesByDefault(config: Config, ruleset: Ruleset, packet: Packet, around: set<string>, elements: Elements,
                            now: int,
                            host: Host, routed: set<int>)
    requires Promised(config) && config.routing.value.mode == Full && config.network.Some? && IsRuleset(config, ruleset)
    requires forall d :: d in config.devices ==> d.mac != Some(packet.mac) && (d.mac.None? ==> d.ip != Some(packet.source))
    requires Held(host, routed) && host.marks == CanSet(ruleset)
    ensures var uplink := InNumbers(RuleCountries(config), config.upstreams.wg.Keys, config.routing.value.defaultUpstream);
            LeavesBy(Some(uplink), MarkOf(ruleset, packet, around, elements, now), host, routed)
  {
    var key := config.routing.value.defaultUpstream;
    NoPolicy(config, ruleset, packet);
    RulesetSetsMarks(config, ruleset);
    FullHasItsMark(config, ruleset, packet, around, elements, now);
    hide *;
    TableInNumbers(config, key);
    MarkLeadsToUplink(config, key, host, routed);
    UplinkLeaves(UplinkTable(config)[key], MarkOf(ruleset, packet, around, elements, now), host, routed);
  }

  lemma UplinkLeaves(uplink: Uplink, mark: Option<int>, host: Host, routed: set<int>)
    requires mark == Some(uplink.mark)
    requires Lookup(host.rules, host, routed, uplink.mark)
          == if uplink.table in host.gateways then ToGateway(uplink.gateway) else Unreachable
    ensures LeavesBy(Some(uplink), mark, host, routed)
  {
  }

  lemma NoSmartMarks(marks: seq<(string, int)>)
    requires forall name, mark :: (name, mark) !in marks
    ensures marks == []
  {
    if marks != [] {
      var (name, mark) := marks[0];
      assert false;
    }
  }

  lemma FullHasItsMark(config: Config, ruleset: Ruleset, packet: Packet, around: set<string>, elements: Elements, now: int)
    requires Promised(config) && config.routing.value.mode == Full && config.network.Some? && IsRuleset(config, ruleset)
    requires PolicyOf(ruleset.devices, packet, CHAIN).None?
    ensures var key := config.routing.value.defaultUpstream;
            && MayTake(config, key) && key in UplinkTable(config)
            && MarkOf(ruleset, packet, around, elements, now) == Some(UplinkTable(config)[key].mark)
  {
    hide UplinkTable, PolicyOf, SetsFor, Says, MarksOf, Valid, InNameOrder;
    PromisedIsValid(config);
    TakenAreListed(config, config.routing.value.defaultUpstream);
    var marks :| ruleset.smartMarks == InNameOrder(marks) && marks == map[];
    NoSmartMarks(ruleset.smartMarks);
  }

  /** A device with a policy: bypass is never marked, block has the mark that is dropped, and the others leave through their
      own uplink, whatever the mode and the rules say. */
  lemma DeviceLeavesByItsPolicy(config: Config, ruleset: Ruleset, d: Device, packet: Packet, around: set<string>,
                                elements: Elements, now: int, host: Host, routed: set<int>)
    requires Promised(config) && config.network.Some? && IsRuleset(config, ruleset)
    requires d in config.devices && d.mac == Some(packet.mac)
               && Borrowed(config.devices, packet.source) in {None, Some(d.policy)}
    requires Held(host, routed) && host.marks == CanSet(ruleset)
    ensures var mark := MarkOf(ruleset, packet, around, elements, now);
            match d.policy {
              case PolicyBypass => mark == None
              case PolicyBlock => mark == Some(0x30)
              case PolicyVps => LeavesBy(Some(Uplink(0x10, 7710, 10)), mark, host, routed)
              case PolicyDpn => LeavesBy(Some(Uplink(0x20, 7720, 20)), mark, host, routed)
              case PolicyTor => LeavesBy(Some(Uplink(0x60, 7760, 60)), mark, host, routed)
            }
  {
    hide Promised, Valid, IsRuleset, Held, Lookup, MarkOf, MayTake, UplinkTable, RulesetMarks, Borrowed, LeavesBy, CanSet;
    var mark := MarkOf(ruleset, packet, around, elements, now);
    PromisedIsValid(config);
    DeviceHasItsMark(config, ruleset, d, packet, around, elements, now);
    RulesetSetsMarks(config, ruleset);
    match d.policy
    case PolicyBypass =>
    case PolicyBlock =>
    case PolicyVps => PolicyMayTake(config, d, Fixed(Vps)); FixedLeaves(config, Fixed(Vps), mark, host, routed);
    case PolicyDpn => PolicyMayTake(config, d, Fixed(Dpn)); FixedLeaves(config, Fixed(Dpn), mark, host, routed);
    case PolicyTor => PolicyMayTake(config, d, Fixed(Tor)); FixedLeaves(config, Fixed(Tor), mark, host, routed);
  }

  lemma DeviceHasItsMark(config: Config, ruleset: Ruleset, d: Device, packet: Packet, around: set<string>,
                         elements: Elements, now: int)
    requires Promised(config) && IsRuleset(config, ruleset)
    requires d in config.devices && d.mac == Some(packet.mac)
               && Borrowed(config.devices, packet.source) in {None, Some(d.policy)}
    ensures MarkOf(ruleset, packet, around, elements, now)
         == match d.policy {
              case PolicyBypass => None
              case PolicyBlock => Some(0x30)
              case PolicyVps => Some(0x10)
              case PolicyDpn => Some(0x20)
              case PolicyTor => Some(0x60)
            }
  {
    PromisedIsValid(config);
    assert ValidDevices(config);
    hide Promised, Valid, ValidDevices, IsRuleset, MarkOf, Borrowed;
    PolicyWins(config, ruleset, d, packet, around, elements, now);
  }

  /** A packet with the mark of a fixed uplink, in its own numbers. */
  lemma FixedLeaves(config: Config, key: Key, mark: Option<int>, host: Host, routed: set<int>)
    requires Promised(config) && config.network.Some? && key.Fixed? && MayTake(config, key)
    requires Held(host, routed) && host.marks == RulesetMarks(config)
    ensures var uplink := match key.upstream {
              case Vps => Uplink(0x10, 7710, 10)
              case Dpn => Uplink(0x20, 7720, 20)
              case Tor => Uplink(0x60, 7760, 60)
            };
            mark == Some(uplink.mark) ==> LeavesBy(Some(uplink), mark, host, routed)
  {
    hide Promised, Held, Lookup, MayTake, UplinkTable, RulesetMarks, LeavesBy;
    TableInNumbers(config, key);
    MarkLeadsToUplink(config, key, host, routed);
    if mark == Some(UplinkTable(config)[key].mark) {
      UplinkLeaves(UplinkTable(config)[key], mark, host, routed);
    }
  }

  lemma PolicyMayTake(config: Config, d: Device, key: Key)
    requires Valid(config) && config.network.Some? && d in config.devices && PolicyAsksFor(d.policy, key)
    ensures MayTake(config, key)
  {
    hide Valid, MayTake;
    TakenInWords(config, key);
  }

  /** The main result of routing.mode smart. A name is under a rule of the owner, the resolver answered it, and the answer
      may still be cached: then a packet to one of its addresses, from a device without a policy of its own, leaves through
      the uplink of the channel the owner chose for that rule, or is unreachable while that uplink is down; and it goes
      direct exactly when the owner chose direct. */
  lemma NameLeavesByItsUplink(config: Config, ruleset: Ruleset, sets: map<Name, string>, name: Name,
                              promise: Promise, elements: Elements, now: int,
                              packet: Packet, around: set<string>, host: Host, routed: set<int>)
    requires Promised(config) && IsSmart(config) && config.network.Some? && IsRuleset(config, ruleset)
    requires Declared(sets, SmartSetNames(config)) && Matched(sets, name) == Some(promise.setName)
    requires Kept(elements, promise) && now < promise.until && packet.destination in promise.addresses
    requires PolicyOf(ruleset.devices, packet, CHAIN).None? && NetworkOf(ruleset.networks, around).None?
    requires forall other :: InTimedSet(elements, now, other, packet.destination) ==> other == promise.setName
    requires Held(host, routed) && host.marks == CanSet(ruleset)
    ensures promise.setName in SmartSetNames(config)
    ensures LeavesBy(OwnersUplink(config, ChannelOf(config, promise.setName)), MarkOf(ruleset, packet, around, elements, now),
                     host, routed)
    ensures match ChannelKey(ChannelOf(config, promise.setName)) {
              case None => MarkOf(ruleset, packet, around, elements, now) == None && promise.setName == DIRECT_SET
              case Some(key) =>
                && key in UplinkTable(config)
                && var uplink := UplinkTable(config)[key];
                   && MarkOf(ruleset, packet, around, elements, now) == Some(uplink.mark)
                   && Lookup(host.rules, host, routed, uplink.mark)
                      == if uplink.table in host.gateways then ToGateway(uplink.gateway) else Unreachable
            }
  {
    hide *;
    var setName := promise.setName;
    PromisedIsValid(config);
    PromiseIsIn(config, sets, name, promise, elements, now, packet.destination);
    RulesetSetsMarks(config, ruleset);
    SetLeadsToUplink(config, ruleset, setName, elements, now, packet, around, host, routed);
    KeyLeaves(config, ChannelOf(config, setName), MarkOf(ruleset, packet, around, elements, now), host, routed);
  }

  /** routing.mode smart: an address inside a network of a rule goes by that rule's `via`, in numbers, whatever the domain
      sets say: a direct one always, another one where no network of another channel is around it too. */
  lemma NetworkLeavesByItsUplink(config: Config, ruleset: Ruleset, n: NetworkRule, packet: Packet, around: set<string>,
                                 elements: Elements, now: int, host: Host, routed: set<int>)
    requires Promised(config) && IsSmart(config) && config.network.Some? && IsRuleset(config, ruleset)
    requires n in config.routing.value.networks && n.network in around
    requires n.channel.via == ViaDirect || forall o :: o in config.routing.value.networks && o.network in around ==>
               o.channel == n.channel
    requires PolicyOf(ruleset.devices, packet, CHAIN).None?
    requires Held(host, routed) && host.marks == CanSet(ruleset)
    ensures LeavesBy(OwnersUplink(config, n.channel), MarkOf(ruleset, packet, around, elements, now), host, routed)
  {
    hide *;
    var table, channel := UplinkTable(config), n.channel;
    PromisedIsValid(config);
    NetworkChannelsListed(config);
    RulesetSetsMarks(config, ruleset);
    SaysNetworks(config, ruleset);
    UnmarkedChannel(table, channel);
    NetworkOfChannel(table, config.routing.value.networks, ruleset.networks, around, n);
    NetworkDecides(ruleset, packet, around, elements, now);
    ChannelIsTaken(config, channel);
    if ChannelKey(channel).Some? {
      MarkLeadsToUplink(config, ChannelKey(channel).value, host, routed);
    }
    KeyLeaves(config, channel, MarkOf(ruleset, packet, around, elements, now), host, routed);
  }

  lemma NetworkChannelsListed(config: Config)
    requires Valid(config)
    ensures forall o :: o in config.routing.value.networks ==> o.channel in config.Channels() && ValidChannel(o.channel)
  {
    NetworksAreChannels(config);
  }

  lemma SaysNetworks(config: Config, ruleset: Ruleset)
    requires IsSmart(config) && IsRuleset(config, ruleset)
    ensures Says(UplinkTable(config), config.routing.value.networks, ruleset.networks)
  {
  }

  lemma UnmarkedChannel(table: map<Key, Uplink>, channel: Channel)
    requires ValidChannel(channel)
    ensures channel.via == ViaDirect ==> ChannelMark(table, channel).None?
  {
  }

  lemma NetworkDecides(ruleset: Ruleset, packet: Packet, around: set<string>, elements: Elements, now: int)
    requires PolicyOf(ruleset.devices, packet, CHAIN).None? && NetworkOf(ruleset.networks, around).Some?
    ensures MarkOf(ruleset, packet, around, elements, now) == NetworkOf(ruleset.networks, around).value.mark
  {
  }

  lemma PromiseIsIn(config: Config, sets: map<Name, string>, name: Name, promise: Promise, elements: Elements, now: int,
                    address: Address)
    requires Declared(sets, SmartSetNames(config)) && Matched(sets, name) == Some(promise.setName)
    requires Kept(elements, promise) && now < promise.until && address in promise.addresses
    requires forall other :: InTimedSet(elements, now, other, address) ==> other == promise.setName
    ensures promise.setName in SmartSetNames(config) && OnlyIn(elements, now, promise.setName, address)
  {
    MatchedDeclared(sets, Normal(name), SmartSetNames(config));
  }

  lemma KeyLeaves(config: Config, channel: Channel, mark: Option<int>, host: Host, routed: set<int>)
    requires Valid(config) && channel in config.Channels()
    requires match ChannelKey(channel) {
               case None => mark == None
               case Some(key) =>
                 && key in UplinkTable(config)
                 && var uplink := UplinkTable(config)[key];
                    && mark == Some(uplink.mark)
                    && Lookup(host.rules, host, routed, uplink.mark)
                       == if uplink.table in host.gateways then ToGateway(uplink.gateway) else Unreachable
             }
    ensures LeavesBy(OwnersUplink(config, channel), mark, host, routed)
  {
    hide Valid, ChannelKey, UplinkTable, OwnersUplink, Lookup;
    ViaDecides(config, channel);
  }

  lemma SetLeadsToUplink(config: Config, ruleset: Ruleset, setName: string, elements: Elements, now: int,
                         packet: Packet, around: set<string>, host: Host, routed: set<int>)
    requires Promised(config) && IsSmart(config) && config.network.Some? && IsRuleset(config, ruleset)
    requires setName in SmartSetNames(config) && OnlyIn(elements, now, setName, packet.destination)
    requires PolicyOf(ruleset.devices, packet, CHAIN).None? && NetworkOf(ruleset.networks, around).None?
    requires Held(host, routed) && host.marks == RulesetMarks(config)
    ensures match ChannelKey(ChannelOf(config, setName)) {
              case None => MarkOf(ruleset, packet, around, elements, now) == None && setName == DIRECT_SET
              case Some(key) =>
                && key in UplinkTable(config)
                && var uplink := UplinkTable(config)[key];
                   && MarkOf(ruleset, packet, around, elements, now) == Some(uplink.mark)
                   && Lookup(host.rules, host, routed, uplink.mark)
                      == if uplink.table in host.gateways then ToGateway(uplink.gateway) else Unreachable
            }
  {
    var channel := ChannelOf(config, setName);
    ChannelsAreValid(config, channel);
    hide Valid, IsRuleset, Held, Lookup, MarkOf, MayTake, UplinkTable, OnlyIn, PolicyOf, NetworkOf, ChannelKey, ChannelSet,
         SmartSetNames, RulesetMarks, ValidChannel, ChannelMark;
    SetDecidesMark(config, ruleset, setName, packet, around, elements, now);
    ChannelIsTaken(config, channel);
    UnmarkedIsDirect(channel);
    if ChannelKey(channel).Some? {
      MarkLeadsToUplink(config, ChannelKey(channel).value, host, routed);
    }
  }

  /** The answer may still be cached, and nothing the sets can lose it by happened: no rebuild and no shorter fill since, or
      none but what the name's own last fill behind a replay made good. */
  ghost predicate StillInItsSet(resolver: Resolver, answer: (Name, Given))
    reads resolver
  {
    && resolver.now < answer.1.until
    && ((answer in resolver.told && Replays.LeftAlone(resolver.history, answer.1))
        || (&& answer.0 in resolver.given && resolver.given[answer.0] == answer.1
            && Dicts.Get(resolver.recent, answer.0).Some?
            && Replenished(resolver.history, answer.0, answer.1) && Undisturbed(resolver.history, answer.0, answer.1)))
  }

  lemma AnswerIsKept(resolver: Resolver, answer: (Name, Given))
    requires resolver.Valid() && StillInItsSet(resolver, answer)
    ensures Kept(resolver.elements, answer.1.Promised()) && resolver.now < answer.1.until
    ensures answer.1.Promised() == Promise(answer.1.setName, answer.1.addresses, answer.1.until)
  {
    hide Replays.Recorded, Replays.AllTold, Replays.LeftAlone, Replenished, Undisturbed, Kept;
    resolver.PromisesHold();
  }

  lemma ChannelOfRule(config: Config, rule: DomainRule)
    requires Valid(config) && IsSmart(config) && rule in config.routing.value.domains
    ensures ChannelSet(rule.channel) in SmartSetNames(config) && ChannelOf(config, ChannelSet(rule.channel)) == rule.channel
    ensures ChannelKey(rule.channel).None? <==> rule.channel.via == ViaDirect
  {
    var i :| 0 <= i < |config.routing.value.domains| && config.routing.value.domains[i] == rule;
    assert config.Channels()[i] == rule.channel;
    ChannelsAreValid(config, rule.channel);
    var other := ChannelOf(config, ChannelSet(rule.channel));
    ChannelsAreValid(config, other);
    hide ChannelSet, Valid;
    ChannelSetInjective(rule.channel, other);
  }

  /** The same from the state of the resolver after any run: a name is under a rule of the owner, and an answer for it is
      on record and still in its set. */
  lemma OwnersNameLeavesAsChosen(resolver: Resolver, ruleset: Ruleset, rule: DomainRule, answer: (Name, Given),
                                 packet: Packet, around: set<string>, host: Host, routed: set<int>)
    requires var config := resolver.config;
             && resolver.Valid() && Promised(config) && IsSmart(config) && config.network.Some? && IsRuleset(config, ruleset)
             && rule in config.routing.value.domains
    requires Matched(resolver.index.sets, answer.0) == Some(ChannelSet(rule.channel)) == Some(answer.1.setName)
    requires StillInItsSet(resolver, answer) && packet.destination in answer.1.addresses
    requires PolicyOf(ruleset.devices, packet, CHAIN).None? && NetworkOf(ruleset.networks, around).None?
    requires forall other :: InTimedSet(resolver.elements, resolver.now, other, packet.destination) ==>
               other == answer.1.setName
    requires Held(host, routed) && host.marks == CanSet(ruleset)
    ensures LeavesBy(OwnersUplink(resolver.config, rule.channel),
                     MarkOf(ruleset, packet, around, resolver.elements, resolver.now), host, routed)
    ensures var mark := MarkOf(ruleset, packet, around, resolver.elements, resolver.now);
            match ChannelKey(rule.channel) {
              case None => mark == None && rule.channel.via == ViaDirect
              case Some(key) =>
                && key in UplinkTable(resolver.config)
                && var uplink := UplinkTable(resolver.config)[key];
                   && mark == Some(uplink.mark)
                   && Lookup(host.rules, host, routed, uplink.mark)
                      == if uplink.table in host.gateways then ToGateway(uplink.gateway) else Unreachable
            }
  {
    hide *;
    var config := resolver.config;
    AnswerIsKept(resolver, answer);
    IndexDeclared(resolver);
    PromisedIsValid(config);
    ChannelOfRule(config, rule);
    NameLeavesByItsUplink(config, ruleset, resolver.index.sets, answer.0, answer.1.Promised(), resolver.elements,
        resolver.now,
                          packet, around, host, routed);
  }

  lemma IndexDeclared(resolver: Resolver)
    requires resolver.Valid()
    ensures Declared(resolver.index.sets, SmartSetNames(resolver.config))
  {
  }

  lemma PromisedIsValid(config: Config)
    requires Promised(config)
    ensures Valid(config)
  {
  }
}
