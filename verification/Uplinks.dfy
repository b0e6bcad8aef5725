/** Which uplinks a configuration uses, and which marks and sets its ruleset carries
    (core/vibedpn/engine/router.py, `uplink_table` to `smart_networks`, and `channel_set` of resolver.py). */
module Uplinks {
  import opened Options
  import opened Configuration
  import opened Ordering
  import opened Slots
  import opened Sequences
  import opened Names

  function FixedUplink(upstream: Upstream): Uplink {
    match upstream
    case Vps => VPS
    case Dpn => DPN
    case Tor => TOR
  }

  /** The i-th country and the i-th exit take the i-th number. */
  function Numbered(codes: seq<string>, exits: seq<string>, key: Key): Option<Uplink> {
    match key
    case Fixed(upstream) => Some(FixedUplink(upstream))
    case Country(code) => if code in codes then Some(CountryUplink(FirstIndex(codes, code))) else None
    case Exit(name) => if name in exits then Some(WgUplink(FirstIndex(exits, name))) else None
  }

  function CountryKeys(codes: seq<string>): (keys: seq<Key>)
    ensures |keys| == |codes| && forall i :: 0 <= i < |codes| ==> keys[i] == Country(codes[i])
  {
    seq(|codes|, i requires 0 <= i < |codes| => Country(codes[i]))
  }

  function ExitKeys(names: seq<string>): (keys: seq<Key>)
    ensures |keys| == |names| && forall i :: 0 <= i < |names| ==> keys[i] == Exit(names[i])
  {
    seq(|names|, i requires 0 <= i < |names| => Exit(names[i]))
  }

  function KeysOf(codes: seq<string>, exits: seq<string>): seq<Key> {
    [Fixed(Vps), Fixed(Dpn), Fixed(Tor)] + CountryKeys(codes) + ExitKeys(exits)
  }

  /** The keys of `uplink_table` in its order. */
  function TableKeys(config: Config): seq<Key> {
    KeysOf(SortedNames(RuleCountries(config)), SortedNames(config.upstreams.wg.Keys))
  }

  function TableOf(codes: seq<string>, exits: seq<string>): map<Key, Uplink> {
    map key | key in KeysOf(codes, exits) && Numbered(codes, exits, key).Some? :: Numbered(codes, exits, key).value
  }

  /** `uplink_table`: the numbering follows the sorted names. */
  function UplinkTable(config: Config): map<Key, Uplink> {
    TableOf(SortedNames(RuleCountries(config)), SortedNames(config.upstreams.wg.Keys))
  }

  /** `active_uplink`. */
  function ActiveUplink(config: Config): Option<Key> {
    if config.network.None? || config.routing.None? || config.routing.value.mode != Full then None
    else Some(config.routing.value.defaultUpstream)
  }

  /** The uplink a channel of routing.mode smart leaves through; None is direct. */
  function ChannelKey(channel: Channel): Option<Key> {
    if channel.via == ViaDpn && channel.country.Some? then Some(Country(channel.country.value))
    else if channel.via == ViaWg && channel.uplink.Some? then Some(Exit(channel.uplink.value))
    else if RuleUpstream(channel.via).Some? then Some(Fixed(RuleUpstream(channel.via).value))
    else None
  }

  predicate IsSmart(config: Config) {
    config.routing.Some? && config.routing.value.mode == Smart
  }

  function ChannelKeys(channels: seq<Channel>): set<Key> {
    set c | c in channels && ChannelKey(c).Some? :: ChannelKey(c).value
  }

  function DeviceKeys(devices: seq<Device>): set<Key> {
    set d | d in devices && PolicyUpstream(d.policy).Some? :: Fixed(PolicyUpstream(d.policy).value)
  }

  /** What `used_uplinks` collects, as the property it stands for: some LAN traffic may take this key. */
  predicate MayTake(config: Config, key: Key) {
    || ActiveUplink(config) == Some(key)
    || (IsSmart(config) && key in ChannelKeys(config.Channels()))
    || (config.network.Some? && key in DeviceKeys(config.devices))
  }

  /** A listing of some of the keys, in their order. */
  ghost predicate Listing(keys: seq<Key>, used: seq<Key>) {
    && (forall key :: key in used ==> key in keys)
    && (forall i, j :: 0 <= i < j < |used| && used[i] in keys && used[j] in keys ==>
          FirstIndex(keys, used[i]) < FirstIndex(keys, used[j]))
  }

  lemma KeysTaken(config: Config)
    ensures forall key :: MayTake(config, key) <==>
              || ActiveUplink(config) == Some(key)
              || (IsSmart(config) && key in ChannelKeys(config.Channels()))
              || (config.network.Some? && key in DeviceKeys(config.devices))
  {
  }

  /** `used_uplinks`. */
  method UsedUplinks(config: Config) returns (used: seq<Key>)
    ensures forall key :: key in used <==> key in TableKeys(config) && MayTake(config, key)
    ensures Listing(TableKeys(config), used)
    ensures Valid(config) ==> forall key :: key in used <==> AskedFor(config, key)
  {
    hide ChannelKeys, DeviceKeys, TableKeys, MayTake, Listing, AskedFor, Valid;
    var wanted: set<Key> := {};
    var active := ActiveUplink(config);
    if active.Some? {
      wanted := wanted + {active.value};
    }
    ghost var byMode := wanted;
    if IsSmart(config) {
      var channels := config.Channels();
      NoChannelKeys(channels[..0]);
      for i := 0 to |channels|
        invariant wanted == byMode + ChannelKeys(channels[..i])
      {
        assert channels[..i + 1] == channels[..i] + [channels[i]];
        ChannelKeysAppend(channels[..i], channels[i]);
        var item := channels[i];
        if item.via == ViaDpn && item.country.Some? {
          wanted := wanted + {Country(item.country.value)};
        } else if item.via == ViaWg && item.uplink.Some? {
          wanted := wanted + {Exit(item.uplink.value)};
        } else if RuleUpstream(item.via).Some? {
          wanted := wanted + {Fixed(RuleUpstream(item.via).value)};
        }
      }
      assert channels[..|channels|] == channels;
    }
    if config.network.Some? {
      wanted := wanted + DeviceKeys(config.devices);
    }
    KeysTaken(config);
    hide *;
    TableKeysDistinct(config);
    used := InOrder(TableKeys(config), wanted);
    if Valid(config) {
      forall key ensures MayTake(config, key) <==> AskedFor(config, key) {
        TakenInWords(config, key);
      }
      forall key | MayTake(config, key) ensures key in TableKeys(config) {
        TakenAreListed(config, key);
      }
    }
  }

  /** The keys of a table that are wanted, in the order of the table. */
  method InOrder(keys: seq<Key>, wanted: set<Key>) returns (used: seq<Key>)
    requires forall i, j :: 0 <= i < j < |keys| ==> keys[i] != keys[j]
    ensures forall key :: key in used <==> key in keys && key in wanted
    ensures Listing(keys, used)
  {
    used := [];
    for i := 0 to |keys|
      invariant forall key :: key in used <==> key in keys[..i] && key in wanted
      invariant Listing(keys, used) && forall key :: key in used ==> key in keys && FirstIndex(keys, key) < i
    {
      assert keys[..i + 1] == keys[..i] + [keys[i]];
      if keys[i] in wanted {
        ListingNext(keys, used, i);
        used := used + [keys[i]];
      }
    }
    assert keys[..|keys|] == keys;
  }

  lemma IndexOf(keys: seq<Key>, i: nat)
    requires i < |keys| && forall a, b :: 0 <= a < b < |keys| ==> keys[a] != keys[b]
    ensures FirstIndex(keys, keys[i]) == i
  {
    hide FirstIndex;
  }

  lemma ListingNext(keys: seq<Key>, used: seq<Key>, i: nat)
    requires i < |keys| && forall a, b :: 0 <= a < b < |keys| ==> keys[a] != keys[b]
    requires Listing(keys, used) && forall key :: key in used ==> key in keys && FirstIndex(keys, key) < i
    ensures FirstIndex(keys, keys[i]) == i && Listing(keys, used + [keys[i]])
  {
    hide FirstIndex;
    var next := used + [keys[i]];
    IndexOf(keys, i);
    forall a, b | 0 <= a < b < |next| ensures FirstIndex(keys, next[a]) < FirstIndex(keys, next[b]) {
      assert next[a] == used[a] && used[a] in used;
      if b < |used| {
        assert next[b] == used[b] && used[b] in used;
      }
    }
    assert forall key :: key in next <==> key in used || key == keys[i];
  }

  lemma TableKeysDistinct(config: Config)
    ensures forall i, j :: 0 <= i < j < |TableKeys(config)| ==> TableKeys(config)[i] != TableKeys(config)[j]
  {
    KeysDistinct(SortedNames(RuleCountries(config)), SortedNames(config.upstreams.wg.Keys));
  }

  lemma NoChannelKeys(channels: seq<Channel>)
    requires channels == []
    ensures ChannelKeys(channels) == {}
  {
  }

  lemma ChannelKeysAppend(channels: seq<Channel>, c: Channel)
    ensures ChannelKeys(channels + [c])
         == ChannelKeys(channels) + (if ChannelKey(c).Some? then {ChannelKey(c).value} else {})
  {
    assert forall x :: x in channels + [c] <==> x in channels || x == c;
  }

  lemma KeysDistinct(codes: seq<string>, exits: seq<string>)
    requires Ascending(codes) && Ascending(exits)
    ensures forall i, j :: 0 <= i < j < |KeysOf(codes, exits)| ==> KeysOf(codes, exits)[i] != KeysOf(codes, exits)[j]
  {
    var keys := KeysOf(codes, exits);
    forall i, j | 0 <= i < j < |keys| ensures keys[i] != keys[j] {
      if keys[i].Country? && keys[j].Country? {
        LessIsTotal(codes[i - 3], codes[j - 3]);
      } else if keys[i].Exit? && keys[j].Exit? {
        LessIsTotal(exits[i - 3 - |codes|], exits[j - 3 - |codes|]);
      }
    }
  }

  lemma KeysListed(codes: seq<string>, exits: seq<string>, key: Key)
    ensures key in KeysOf(codes, exits)
       <==> match key { case Fixed(_) => true case Country(code) => code in codes case Exit(name) => name in exits }
  {
    var keys := KeysOf(codes, exits);
    match key {
      case Fixed(upstream) =>
        assert keys[if upstream == Vps then 0 else if upstream == Dpn then 1 else 2] == key;
      case Country(code) =>
        if code in codes {
          assert keys[3 + FirstIndex(codes, code)] == key;
        }
      case Exit(name) =>
        if name in exits {
          assert keys[3 + |codes| + FirstIndex(exits, name)] == key;
        }
    }
  }

  // ---- every key some traffic may take has a slot --------------------------------------------------

  lemma TakenInTable(config: Config, codes: seq<string>, exits: seq<string>, key: Key)
    requires Valid(config) && MayTake(config, key)
    requires forall c :: c in RuleCountries(config) ==> c in codes
    requires forall n :: n in config.upstreams.wg ==> n in exits
    ensures key in TableOf(codes, exits) && key in KeysOf(codes, exits)
  {
    KeysListed(codes, exits, key);
    if key.Country? {
      var c :| c in config.Channels() && ChannelKey(c) == Some(key);
      assert key.code in RuleCountries(config);
    } else if key.Exit? && ActiveUplink(config) != Some(key) {
      var c :| c in config.Channels() && ChannelKey(c) == Some(key);
    }
  }

  /** In a valid configuration every key that may be taken is in the table. */
  lemma TakenAreListed(config: Config, key: Key)
    requires Valid(config) && MayTake(config, key)
    ensures key in UplinkTable(config) && key in TableKeys(config)
  {
    var codes, exits := SortedNames(RuleCountries(config)), SortedNames(config.upstreams.wg.Keys);
    assert forall c :: c in Elements(codes) ==> c in codes;
    assert forall n :: n in Elements(exits) ==> n in exits;
    TakenInTable(config, codes, exits, key);
  }

  /** The place of an exit in the sorted names, which its mark, table and gateway are counted from. */
  function ExitPlace(config: Config, name: string): nat
    requires name in config.upstreams.wg
  {
    var exits := SortedNames(config.upstreams.wg.Keys);
    assert name in Elements(exits);
    FirstIndex(exits, name)
  }

  lemma NumberedIsSlotIff(codes: seq<string>, exits: seq<string>, key: Key)
    requires |codes| <= MAX_COUNTRIES && key in TableOf(codes, exits)
    ensures key.Exit? ==> key.name in exits && TableOf(codes, exits)[key] == WgUplink(FirstIndex(exits, key.name))
    ensures IsSlot(TableOf(codes, exits)[key]) <==> (key.Exit? ==> FirstIndex(exits, key.name) < MAX_WG_UPLINKS)
  {
  }

  /** A taken key has a slot of the fixed numbering, except a named exit behind the eighth place. */
  lemma TakenIsSlotIff(config: Config, key: Key)
    requires Valid(config) && MayTake(config, key)
    ensures key in UplinkTable(config)
    ensures key.Exit? ==> key.name in config.upstreams.wg
                          && UplinkTable(config)[key] == WgUplink(ExitPlace(config, key.name))
    ensures IsSlot(UplinkTable(config)[key]) <==> (key.Exit? ==> ExitPlace(config, key.name) < MAX_WG_UPLINKS)
  {
    var codes, exits := SortedNames(RuleCountries(config)), SortedNames(config.upstreams.wg.Keys);
    TakenAreListed(config, key);
    NumberedIsSlotIff(codes, exits, key);
    assert key.Exit? ==> key.name in Elements(exits);
  }

  /** Two keys never share an uplink: their traffic is told apart by mark, table and gateway. */
  lemma NumberedDistinct(codes: seq<string>, exits: seq<string>, a: Key, b: Key)
    requires |codes| <= MAX_COUNTRIES && |exits| <= MAX_WG_UPLINKS
    requires a in TableOf(codes, exits) && b in TableOf(codes, exits)
    ensures IsSlot(TableOf(codes, exits)[a])
    ensures TableOf(codes, exits)[a] == TableOf(codes, exits)[b] <==> a == b
  {
    NumberedBack(codes, exits, a);
    NumberedBack(codes, exits, b);
    hide *;
  }

  /** The key of an uplink: its table tells the kind, its place the name. */
  lemma NumberedBack(codes: seq<string>, exits: seq<string>, key: Key)
    requires |codes| <= MAX_COUNTRIES && |exits| <= MAX_WG_UPLINKS
    requires key in TableOf(codes, exits)
    ensures var uplink := TableOf(codes, exits)[key];
            IsSlot(uplink) && match key {
              case Fixed(upstream) => uplink.table == if upstream == Vps then 7710 else if upstream == Dpn then 7720 else 7760
              case Country(code) => 7740 <= uplink.table < 7740 + |codes| && codes[uplink.table - 7740] == code
              case Exit(name) => 7750 <= uplink.table < 7750 + |exits| && exits[uplink.table - 7750] == name
            }
  {
  }

  /** With at most eight named exits the whole table lies within the slots. */
  lemma TableIsSlots(config: Config)
    requires Valid(config) && |config.upstreams.wg| <= MAX_WG_UPLINKS
    ensures forall key :: key in UplinkTable(config) ==> IsSlot(UplinkTable(config)[key])
  {
    var codes, exits := SortedNames(RuleCountries(config)), SortedNames(config.upstreams.wg.Keys);
    assert |exits| == |config.upstreams.wg|;
    forall key | key in UplinkTable(config) ensures IsSlot(UplinkTable(config)[key]) {
      NumberedDistinct(codes, exits, key, key);
    }
  }

  // ---- what the owner wrote, in numbers ------------------------------------------------------------

  /** How many of these names come before this one. */
  ghost function PlaceAmong(names: set<string>, name: string): nat { |set n | n in names && Less(n, name)| }

  /** The mark, the table and the gateway of what the owner wrote behind `via`. */
  ghost function OwnersUplink(config: Config, channel: Channel): Option<Uplink> {
    match channel.via
    case ViaDirect => None
    case ViaVps => Some(Uplink(0x10, 7710, 10))
    case ViaDpn =>
      if channel.country.None? then Some(Uplink(0x20, 7720, 20)) else
        var place := PlaceAmong(RuleCountries(config), channel.country.value);
        Some(Uplink(0x40 + place, 7740 + place, 40 + place))
    case ViaWg =>
      var place := PlaceAmong(config.upstreams.wg.Keys, if channel.uplink.Some? then channel.uplink.value else "");
      Some(Uplink(0x50 + place, 7750 + place, 50 + place))
    case ViaTor => Some(Uplink(0x60, 7760, 60))
  }

  /** The same for a device's policy; block has a mark of its own. */
  function OwnersMark(policy: Policy): Option<int> {
    match policy
    case PolicyBypass => None
    case PolicyBlock => Some(0x30)
    case PolicyVps => Some(0x10)
    case PolicyDpn => Some(0x20)
    case PolicyTor => Some(0x60)
  }

  /** The place of a name in the sorted names is how many come before it. */
  lemma PlaceIs(sorted: seq<string>, name: string)
    requires Ascending(sorted) && name in sorted
    ensures PlaceAmong(Elements(sorted), name) == FirstIndex(sorted, name)
  {
    var place := FirstIndex(sorted, name);
    var before := set n | n in Elements(sorted) && Less(n, name);
    assert before == Elements(sorted[..place]) by {
      forall n ensures n in before <==> n in sorted[..place] {
        BeforeIs(sorted, place, n);
      }
    }
    SizeOfElements(sorted[..place]);
  }

  lemma BeforeIs(sorted: seq<string>, place: nat, n: string)
    requires Ascending(sorted) && place < |sorted|
    ensures n in sorted && Less(n, sorted[place]) <==> n in sorted[..place]
  {
    hide Less;
    if n in sorted {
      var i := FirstIndex(sorted, n);
      LessIsTotal(n, sorted[place]);
      LessIsTotal(sorted[place], n);
      assert i < place ==> sorted[..place][i] == n;
    }
  }

  lemma {:induction false} SizeOfElements(sorted: seq<string>)
    requires Ascending(sorted)
    ensures |Elements(sorted)| == |sorted|
  {
    if sorted != [] {
      var n := |sorted| - 1;
      SizeOfElements(sorted[..n]);
      assert Elements(sorted) == Elements(sorted[..n]) + {sorted[n]};
      if sorted[n] in sorted[..n] {
        var i :| 0 <= i < n && sorted[i] == sorted[n];
        LessIsTotal(sorted[i], sorted[n]);
      }
    }
  }

  /** The numbers behind a key, given the countries of the rules and the names of the exits. */
  ghost function InNumbers(countries: set<string>, exits: set<string>, key: Key): Uplink {
    match key
    case Fixed(Vps) => Uplink(0x10, 7710, 10)
    case Fixed(Dpn) => Uplink(0x20, 7720, 20)
    case Fixed(Tor) => Uplink(0x60, 7760, 60)
    case Country(code) =>
      var place := PlaceAmong(countries, code);
      Uplink(0x40 + place, 7740 + place, 40 + place)
    case Exit(name) =>
      var place := PlaceAmong(exits, name);
      Uplink(0x50 + place, 7750 + place, 50 + place)
  }

  lemma NumberedIs(codes: seq<string>, exits: seq<string>, key: Key)
    requires Ascending(codes) && Ascending(exits)
    ensures key in TableOf(codes, exits)
       <==> match key { case Fixed(_) => true case Country(code) => code in codes case Exit(name) => name in exits }
    ensures key in TableOf(codes, exits) ==> TableOf(codes, exits)[key] == InNumbers(Elements(codes), Elements(exits), key)
  {
    hide Ascending, PlaceAmong, KeysOf, FirstIndex;
    KeysListed(codes, exits, key);
    if key.Country? && key.code in codes {
      PlaceIs(codes, key.code);
    } else if key.Exit? && key.name in exits {
      PlaceIs(exits, key.name);
    }
  }

  lemma TableInNumbers(config: Config, key: Key)
    ensures key in UplinkTable(config)
       <==> match key { case Fixed(_) => true case Country(code) => code in RuleCountries(config) case Exit(name) => name in config.upstreams.wg }
    ensures key in UplinkTable(config) ==>
              UplinkTable(config)[key] == InNumbers(RuleCountries(config), config.upstreams.wg.Keys, key)
  {
    hide Ascending, PlaceAmong, RuleCountries, TableOf;
    var codes, exits := SortedNames(RuleCountries(config)), SortedNames(config.upstreams.wg.Keys);
    NumberedIs(codes, exits, key);
    ListedIff(codes, RuleCountries(config));
    ListedIff(exits, config.upstreams.wg.Keys);
  }

  lemma ViaHasKey(config: Config, channel: Channel)
    requires Valid(config) && channel in config.Channels()
    ensures var key := ChannelKey(channel);
            && (key.None? <==> channel.via == ViaDirect)
            && (key.Some? ==> Some(InNumbers(RuleCountries(config), config.upstreams.wg.Keys, key.value)) == OwnersUplink(config, channel))
            && (key.Some? && key.value.Country? ==> key.value.code in RuleCountries(config))
            && (key.Some? && key.value.Exit? ==> key.value.name in config.upstreams.wg)
  {
    hide PlaceAmong;
    assert ValidChannel(channel);
  }

  lemma DirectHasNone(config: Config, channel: Channel)
    ensures OwnersUplink(config, channel).None? <==> channel.via == ViaDirect
  {
    hide PlaceAmong;
  }

  /** What the owner wrote decides: a rule has the uplink of its `via`, and none exactly when it says direct. */
  lemma ViaDecides(config: Config, channel: Channel)
    requires Valid(config) && channel in config.Channels()
    ensures ChannelKey(channel).None? <==> OwnersUplink(config, channel).None?
    ensures ChannelKey(channel).Some? ==>
              && ChannelKey(channel).value in UplinkTable(config)
              && Some(UplinkTable(config)[ChannelKey(channel).value]) == OwnersUplink(config, channel)
    ensures ChannelMark(UplinkTable(config), channel)
         == if OwnersUplink(config, channel).None? then None else Some(OwnersUplink(config, channel).value.mark)
  {
    hide Valid, ChannelKey, UplinkTable, InNumbers, OwnersUplink, PlaceAmong, RuleCountries;
    ViaHasKey(config, channel);
    DirectHasNone(config, channel);
    if ChannelKey(channel).Some? {
      TableInNumbers(config, ChannelKey(channel).value);
    }
  }

  /** Every channel of a valid configuration goes through an upstream that is switched on. */
  lemma ChannelsAreEnabled(config: Config, channel: Channel)
    requires Valid(config) && channel in config.Channels()
    ensures match channel.via {
              case ViaDirect => true
              case ViaVps => config.upstreams.vps
              case ViaDpn => config.upstreams.dpn
              case ViaTor => config.upstreams.tor
              case ViaWg => channel.uplink.Some? && channel.uplink.value in config.upstreams.wg
                  && config.upstreams.wg[channel.uplink.value]
            }
  {
    assert ValidChannel(channel);
  }

  /** The uplink a rule's words ask for. */
  predicate RuleAsksFor(channel: Channel, key: Key) {
    match channel.via
    case ViaDirect => false
    case ViaVps => key == Fixed(Vps)
    case ViaTor => key == Fixed(Tor)
    case ViaDpn => key == if channel.country.Some? then Country(channel.country.value) else Fixed(Dpn)
    case ViaWg => channel.uplink.Some? && key == Exit(channel.uplink.value)
  }

  predicate PolicyAsksFor(policy: Policy, key: Key) {
    match policy
    case PolicyBypass => false
    case PolicyBlock => false
    case PolicyVps => key == Fixed(Vps)
    case PolicyDpn => key == Fixed(Dpn)
    case PolicyTor => key == Fixed(Tor)
  }

  /** The owner's words for an uplink that may be taken: routing.mode full, a rule in routing.mode smart, or a device's
      policy asks for it. */
  predicate AskedFor(config: Config, key: Key) {
    || (config.network.Some? && config.routing.Some? && config.routing.value.mode == Full
        && config.routing.value.defaultUpstream == key)
    || (config.routing.Some? && config.routing.value.mode == Smart && exists c :: c in config.Channels() && RuleAsksFor(c, key))
    || (config.network.Some? && exists d :: d in config.devices && PolicyAsksFor(d.policy, key))
  }

  lemma TakenInWords(config: Config, key: Key)
    requires Valid(config)
    ensures MayTake(config, key) <==> AskedFor(config, key)
  {
    forall c | c in config.Channels() ensures ChannelKey(c) == Some(key) <==> RuleAsksFor(c, key) {
      assert ValidChannel(c);
    }
    hide Valid, RuleAsksFor, ChannelKey;
  }

  // ---- the marks a ruleset carries -----------------------------------------------------------------

  function KeyMarks(table: map<Key, Uplink>, keys: set<Key>): set<int> {
    set key | key in keys && key in table :: table[key].mark
  }

  function MarksIn(config: Config, table: map<Key, Uplink>): set<int> {
    (if exists d :: d in config.devices && d.policy == PolicyBlock then {BLOCK_MARK} else {})
    + KeyMarks(table, DeviceKeys(config.devices))
    + (if IsSmart(config) then KeyMarks(table, ChannelKeys(config.Channels())) else {})
    + (if ActiveUplink(config).Some? then KeyMarks(table, {ActiveUplink(config).value}) else {})
  }

  /** The marks the rendered ruleset can put on a packet: of device policies whose set has an element, of the
      channel and network sets of routing.mode smart, of routing.mode full and of AdGuard's own queries. */
  function RulesetMarks(config: Config): set<int> {
    if config.network.None? then {} else MarksIn(config, UplinkTable(config))
  }

  /** Every mark belongs to an uplink in use, and every uplink in use can be marked: the block mark aside,
      the ruleset and `used_uplinks` speak of the same traffic. */
  lemma MarksAreUsed(config: Config, table: map<Key, Uplink>, mark: int)
    requires config.network.Some? && mark != BLOCK_MARK
    ensures mark in MarksIn(config, table) <==> exists key :: MayTake(config, key) && key in table && table[key].mark == mark
  {
    if mark in MarksIn(config, table) {
      if mark in KeyMarks(table, DeviceKeys(config.devices)) {
        var key :| key in DeviceKeys(config.devices) && key in table && table[key].mark == mark;
        assert MayTake(config, key);
      } else if IsSmart(config) && mark in KeyMarks(table, ChannelKeys(config.Channels())) {
        var key :| key in ChannelKeys(config.Channels()) && key in table && table[key].mark == mark;
        assert MayTake(config, key);
      } else {
        assert MayTake(config, ActiveUplink(config).value);
      }
    }
  }

  // ---- the sets of routing.mode smart --------------------------------------------------------------

  /** `replace('-', '_')`. */
  function Underscored(s: string): (t: string)
    ensures |t| == |s| && forall i :: 0 <= i < |s| ==> t[i] == if s[i] == '-' then '_' else s[i]
  {
    seq(|s|, i requires 0 <= i < |s| => if s[i] == '-' then '_' else s[i])
  }

  /** `channel_set`: the nft set of a channel. */
  function ChannelSet(channel: Channel): string {
    match channel.via
    case ViaDpn =>
      "smart_dpn_" + Lower(if channel.country.Some? && channel.country.value != [] then channel.country.value else "any")
    case ViaWg => "smart_wg_" + Underscored(if channel.uplink.Some? then channel.uplink.value else [])
    case ViaDirect => "smart_direct"
    case ViaVps => "smart_vps"
    case ViaTor => "smart_tor"
  }

  const DIRECT_SET := "smart_direct"
  const NETWORK_SET_SUFFIX := "_net"

  /** `smart_set_names`, as a set. */
  function SmartSetNames(config: Config): set<string> {
    set c | c in config.Channels() :: ChannelSet(c)
  }

  lemma SameChars(prefix: string, s: string, t: string)
    requires prefix + s == prefix + t
    ensures s == t
  {
    assert (prefix + s)[|prefix|..] == s && (prefix + t)[|prefix|..] == t;
  }

  lemma UnderscoredInjective(s: string, t: string)
    requires Underscored(s) == Underscored(t) && '_' !in s && '_' !in t
    ensures s == t
  {
    forall i | 0 <= i < |s| ensures s[i] == t[i] {
      assert Underscored(s)[i] == Underscored(t)[i];
    }
  }

  lemma LowerInjective(s: string, t: string)
    requires IsCountry(s) && IsCountry(t) && Lower(s) == Lower(t)
    ensures s == t
  {
    assert Lower(s)[0] == Lower(t)[0] && Lower(s)[1] == Lower(t)[1];
  }

  /** Two channels never share a set. */
  lemma ChannelSetInjective(a: Channel, b: Channel)
    requires ValidChannel(a) && ValidChannel(b)
    ensures ChannelSet(a) == ChannelSet(b) <==> a == b
  {
    if ChannelSet(a) == ChannelSet(b) {
      assert ChannelSet(a)[6] == ChannelSet(b)[6] && ChannelSet(a)[7] == ChannelSet(b)[7];
      assert a.via == b.via;
      if a.via == ViaWg {
        SameChars("smart_wg_", Underscored(a.uplink.value), Underscored(b.uplink.value));
        UnderscoredInjective(a.uplink.value, b.uplink.value);
      } else if a.via == ViaDpn {
        var x := if a.country.Some? then a.country.value else "any";
        var y := if b.country.Some? then b.country.value else "any";
        SameChars("smart_dpn_", Lower(x), Lower(y));
        assert |x| == |y|;
        if a.country.Some? {
          LowerInjective(x, y);
        }
      }
    }
  }

  /** How the sets are called. */
  lemma SetNames()
    ensures ChannelSet(Channel(ViaVps, None, None)) == "smart_vps" && ChannelSet(Channel(ViaTor, None, None)) == "smart_tor"
    ensures ChannelSet(Channel(ViaDirect, None, None)) == "smart_direct"
    ensures ChannelSet(Channel(ViaDpn, None, None)) == "smart_dpn_any"
              && ChannelSet(Channel(ViaDpn, Some("CZ"), None)) == "smart_dpn_cz"
    ensures ChannelSet(Channel(ViaWg, None, Some("a-b"))) == "smart_wg_a_b"
  {
    assert Lower("any") == "any" && Lower("CZ") == "cz" && Underscored("a-b") == "a_b";
  }

  /** The interval set of a network rule never takes the name of a domain set, except for two exits of which
      one is named like the other with `-net` behind it. */
  lemma NetworkSetCollides(a: Channel, b: Channel)
    requires ValidChannel(a) && ValidChannel(b)
    ensures ChannelSet(a) + NETWORK_SET_SUFFIX == ChannelSet(b)
       <==> a.via == ViaWg && b.via == ViaWg && b.uplink.value == a.uplink.value + "-net"
  {
    if ChannelSet(a) + NETWORK_SET_SUFFIX == ChannelSet(b) {
      assert ChannelSet(b)[6] == ChannelSet(a)[6] && ChannelSet(b)[7] == ChannelSet(a)[7];
      assert a.via == b.via;
      assert a.via == ViaWg;
      SameChars("smart_wg_", Underscored(a.uplink.value) + NETWORK_SET_SUFFIX, Underscored(b.uplink.value));
      UnderscoredSuffix(a.uplink.value, b.uplink.value);
    }
  }

  lemma UnderscoredSuffix(a: string, b: string)
    requires Underscored(a) + NETWORK_SET_SUFFIX == Underscored(b) && '_' !in a && '_' !in b
    ensures b == a + "-net"
  {
    assert |b| == |a| + 4;
    forall i | 0 <= i < |b| ensures b[i] == (a + "-net")[i] {
      assert Underscored(b)[i] == (Underscored(a) + NETWORK_SET_SUFFIX)[i];
    }
  }

  /** `_channel_mark`: the mark of a channel's uplink; None for direct. */
  function ChannelMark(table: map<Key, Uplink>, channel: Channel): Option<int> {
    if ChannelKey(channel).Some? && ChannelKey(channel).value in table
      then Some(table[ChannelKey(channel).value].mark)
      else None
  }

  /** Every channel finds its own mark under its set, and no other set has a mark. */
  ghost predicate MarksOf(table: map<Key, Uplink>, marks: map<string, int>, channels: seq<Channel>) {
    && (forall name :: name in marks ==> exists c :: c in channels && ChannelMark(table, c).Some? && ChannelSet(c) == name)
    && (forall c :: c in channels && ChannelMark(table, c).Some? ==>
          ChannelSet(c) in marks && marks[ChannelSet(c)] == ChannelMark(table, c).value)
  }

  /** Writing the mark of a further channel hides the mark of no other one: no two channels share a set. */
  lemma MarksOfNext(table: map<Key, Uplink>, marks: map<string, int>, channels: seq<Channel>, item: Channel)
    requires MarksOf(table, marks, channels)
    requires ValidChannel(item) && forall c :: c in channels ==> ValidChannel(c)
    requires ChannelMark(table, item).Some?
    ensures MarksOf(table, marks[ChannelSet(item) := ChannelMark(table, item).value], channels + [item])
  {
    var next := marks[ChannelSet(item) := ChannelMark(table, item).value];
    forall c | c in channels + [item] && ChannelMark(table, c).Some?
      ensures ChannelSet(c) in next && next[ChannelSet(c)] == ChannelMark(table, c).value
    {
      ChannelSetInjective(c, item);
    }
    forall name | name in next
      ensures exists c :: c in channels + [item] && ChannelMark(table, c).Some? && ChannelSet(c) == name
    {
      if name == ChannelSet(item) {
        assert item in channels + [item];
      } else {
        var c :| c in channels && ChannelMark(table, c).Some? && ChannelSet(c) == name;
        assert c in channels + [item];
      }
    }
  }

  /** `smart_marks`: the loop overwrites the mark of a set named before, and every channel still finds its own:
      the set a name of that channel is put in carries the mark of the uplink the owner chose. */
  method SmartMarks(config: Config) returns (marks: map<string, int>)
    requires Valid(config)
    ensures if IsSmart(config) then MarksOf(UplinkTable(config), marks, config.Channels()) else marks == map[]
    ensures IsSmart(config) ==> forall c :: c in config.Channels() && OwnersUplink(config, c).Some? ==>
              ChannelSet(c) in marks && marks[ChannelSet(c)] == OwnersUplink(config, c).value.mark
    ensures forall name :: name in marks ==>
              exists c :: c in config.Channels() && ChannelSet(c) == name && OwnersUplink(config, c).Some?
  {
    marks := map[];
    if IsSmart(config) {
      marks := MarkSets(UplinkTable(config), config.Channels());
      hide Valid, UplinkTable, ChannelMark, ChannelSet, OwnersUplink;
      forall c | c in config.Channels()
        ensures OwnersUplink(config, c).None? <==> ChannelMark(UplinkTable(config), c).None?
        ensures OwnersUplink(config, c).Some? ==>
                  ChannelMark(UplinkTable(config), c) == Some(OwnersUplink(config, c).value.mark)
      {
        ViaDecides(config, c);
      }
    }
  }

  method MarkSets(table: map<Key, Uplink>, channels: seq<Channel>) returns (marks: map<string, int>)
    requires forall c :: c in channels ==> ValidChannel(c)
    ensures MarksOf(table, marks, channels)
  {
    marks := map[];
    for i := 0 to |channels|
      invariant MarksOf(table, marks, channels[..i])
    {
      assert channels[..i + 1] == channels[..i] + [channels[i]];
      var mark := ChannelMark(table, channels[i]);
      if mark.Some? {
        MarksOfNext(table, marks, channels[..i], channels[i]);
        marks := marks[ChannelSet(channels[i]) := mark.value];
      }
    }
    assert channels[..|channels|] == channels;
  }

  /** The set of a channel decides its traffic: a set without a mark is the direct one. */
  lemma UnmarkedIsDirect(channel: Channel)
    requires ValidChannel(channel)
    ensures ChannelKey(channel).None? <==> ChannelSet(channel) == DIRECT_SET
  {
    ChannelSetInjective(channel, Channel(ViaDirect, None, None));
  }
}
