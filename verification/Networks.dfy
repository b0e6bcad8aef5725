/** The interval sets of routing.networks (core/vibedpn/engine/router.py, `smart_networks`). */
module Networks {
  import opened Options
  import opened Configuration
  import opened Ordering
  import opened Slots
  import opened Uplinks

  /** A mark of None stands for the empty mark: the network is kept direct. */
  datatype NetworkSet = NetworkSet(name: string, mark: Option<int>, elements: seq<string>)

  function NetworkSetName(channel: Channel): string {
    ChannelSet(channel) + NETWORK_SET_SUFFIX
  }

  lemma NetworkSetNameInjective(a: Channel, b: Channel)
    requires ValidChannel(a) && ValidChannel(b) && NetworkSetName(a) == NetworkSetName(b)
    ensures a == b
  {
    assert NetworkSetName(a)[..|NetworkSetName(a)| - 4] == ChannelSet(a);
    assert NetworkSetName(b)[..|NetworkSetName(b)| - 4] == ChannelSet(b);
    ChannelSetInjective(a, b);
  }

  /** Every network is in the set of its channel, under that channel's mark, and in no other. */
  ghost predicate Grouped(table: map<Key, Uplink>, networks: seq<NetworkRule>, elements: map<string, set<string>>,
                          marks: map<string, Option<int>>)
  {
    && elements.Keys == marks.Keys
    && (forall n :: n in networks ==>
          var name := NetworkSetName(n.channel);
          name in elements && n.network in elements[name] && marks[name] == ChannelMark(table, n.channel))
    && (forall name, e :: name in elements && e in elements[name] ==> Asked(networks, name, e))
  }

  lemma GroupedNext(table: map<Key, Uplink>, networks: seq<NetworkRule>, elements: map<string, set<string>>,
                    marks: map<string, Option<int>>, item: NetworkRule)
    requires Grouped(table, networks, elements, marks)
    requires ValidChannel(item.channel) && forall n :: n in networks ==> ValidChannel(n.channel)
    ensures var name := NetworkSetName(item.channel);
            var known := if name in elements then elements[name] else {};
            Grouped(table, networks + [item], elements[name := known + {item.network}],
                marks[name := ChannelMark(table, item.channel)])
  {
    var name := NetworkSetName(item.channel);
    var known := if name in elements then elements[name] else {};
    var next, marked := elements[name := known + {item.network}], marks[name := ChannelMark(table, item.channel)];
    forall n | n in networks + [item]
      ensures NetworkSetName(n.channel) in next && n.network in next[NetworkSetName(n.channel)]
           && marked[NetworkSetName(n.channel)] == ChannelMark(table, n.channel)
    {
      if NetworkSetName(n.channel) == name {
        NetworkSetNameInjective(n.channel, item.channel);
      }
    }
    forall other, e | other in next && e in next[other]
      ensures Asked(networks + [item], other, e)
    {
      if other in elements && e in elements[other] {
        var n :| n in networks && NetworkSetName(n.channel) == other && n.network == e;
        assert n in networks + [item];
      } else {
        assert item in networks + [item];
      }
    }
  }

  ghost predicate Listed(sets: seq<NetworkSet>, name: string, network: string, mark: Option<int>) {
    exists s :: s in sets && s.name == name && network in s.elements && s.mark == mark
  }

  ghost predicate Asked(networks: seq<NetworkRule>, name: string, network: string) {
    exists n :: n in networks && NetworkSetName(n.channel) == name && n.network == network
  }

  /** What `smart_networks` must say. */
  ghost predicate Says(table: map<Key, Uplink>, networks: seq<NetworkRule>, sets: seq<NetworkSet>) {
    // every network is in the one set of its channel, under that channel's mark
    && (forall n :: n in networks ==> Listed(sets, NetworkSetName(n.channel), n.network, ChannelMark(table, n.channel)))
    && (forall s, e :: s in sets && e in s.elements ==> Asked(networks, s.name, e))
    && (forall i, j :: 0 <= i < j < |sets| ==> sets[i].name != sets[j].name)
    // the direct ones come first: no wider network sent through an uplink catches them
    && (forall i, j :: 0 <= i < j < |sets| && sets[j].mark.None? ==> sets[i].mark.None?)
    // by name inside the direct and inside the marked ones, and by text inside a set
    && (forall i, j :: 0 <= i < j < |sets| && sets[i].mark.None? == sets[j].mark.None? ==> Less(sets[i].name, sets[j].name))
    && (forall s :: s in sets ==> Ascending(s.elements))
  }

  /** The sets of some names, in the order of the names. */
  function SetsOf(names: seq<string>, elements: map<string, set<string>>,
                  marks: map<string, Option<int>>): (sets: seq<NetworkSet>)
    requires forall name :: name in names ==> name in elements && name in marks
    ensures |sets| == |names|
    ensures forall i :: 0 <= i < |names| ==>
              sets[i] == NetworkSet(names[i], marks[names[i]], SortedNames(elements[names[i]]))
  {
    seq(|names|, i requires 0 <= i < |names| => NetworkSet(names[i], marks[names[i]], SortedNames(elements[names[i]])))
  }

  function NamesWith(marks: map<string, Option<int>>, direct: bool): set<string> {
    set name | name in marks && marks[name].None? == direct
  }

  method SmartNetworks(config: Config) returns (sets: seq<NetworkSet>)
    requires Valid(config)
    ensures if IsSmart(config) then Says(UplinkTable(config), config.routing.value.networks, sets) else sets == []
  {
    if !IsSmart(config) {
      return [];
    }
    NetworkChannelsValid(config);
    sets := GroupAndSort(UplinkTable(config), config.routing.value.networks);
  }

  lemma NetworkChannelsValid(config: Config)
    requires config.routing.Some? && ValidChannels(config)
    ensures forall n :: n in config.routing.value.networks ==> ValidChannel(n.channel)
  {
    var routing := config.routing.value;
    forall n | n in routing.networks ensures ValidChannel(n.channel) {
      var i :| 0 <= i < |routing.networks| && routing.networks[i] == n;
      assert config.Channels()[|routing.domains| + |routing.lists| + i] == n.channel;
    }
  }

  method GroupAndSort(table: map<Key, Uplink>, networks: seq<NetworkRule>) returns (sets: seq<NetworkSet>)
    requires forall n :: n in networks ==> ValidChannel(n.channel)
    ensures Says(table, networks, sets)
  {
    var elements: map<string, set<string>> := map[];
    var marks: map<string, Option<int>> := map[];
    for i := 0 to |networks|
      invariant Grouped(table, networks[..i], elements, marks)
    {
      assert networks[..i + 1] == networks[..i] + [networks[i]];
      GroupedNext(table, networks[..i], elements, marks, networks[i]);
      var item := networks[i];
      var name := NetworkSetName(item.channel);
      elements := elements[name := (if name in elements then elements[name] else {}) + {item.network}];
      marks := marks[name := ChannelMark(table, item.channel)];
    }
    assert networks[..|networks|] == networks;
    var direct, marked := SortedNames(NamesWith(marks, true)), SortedNames(NamesWith(marks, false));
    ListedIff(direct, NamesWith(marks, true));
    ListedIff(marked, NamesWith(marks, false));
    sets := SetsOf(direct + marked, elements, marks);
    SortedSays(table, networks, elements, marks, direct, marked);
  }

  lemma SortedSays(table: map<Key, Uplink>, networks: seq<NetworkRule>, elements: map<string, set<string>>,
                   marks: map<string, Option<int>>, direct: seq<string>, marked: seq<string>)
    requires Grouped(table, networks, elements, marks) && Ascending(direct) && Ascending(marked)
    requires forall name :: name in direct <==> name in marks && marks[name].None?
    requires forall name :: name in marked <==> name in marks && marks[name].Some?
    ensures Says(table, networks, SetsOf(direct + marked, elements, marks))
  {
    var names := direct + marked;
    var sets := SetsOf(names, elements, marks);
    hide Ascending, SortedNames, NetworkSetName, ChannelMark, Less;
    SortedOrder(elements, marks, direct, marked);
    forall s | s in sets ensures Ascending(s.elements) {
      var i :| 0 <= i < |sets| && sets[i] == s;
    }
    forall n | n in networks
      ensures Listed(sets, NetworkSetName(n.channel), n.network, ChannelMark(table, n.channel))
    {
      var name := NetworkSetName(n.channel);
      assert name in names;
      var i :| 0 <= i < |names| && names[i] == name;
      ListedIff(sets[i].elements, elements[name]);
      assert sets[i] in sets;
    }
    forall s, e | s in sets && e in s.elements
      ensures Asked(networks, s.name, e)
    {
      var i :| 0 <= i < |sets| && sets[i] == s;
      ListedIff(s.elements, elements[names[i]]);
    }
  }

  lemma SortedOrder(elements: map<string, set<string>>, marks: map<string, Option<int>>, direct: seq<string>,
                    marked: seq<string>)
    requires elements.Keys == marks.Keys && Ascending(direct) && Ascending(marked)
    requires forall name :: name in direct <==> name in marks && marks[name].None?
    requires forall name :: name in marked <==> name in marks && marks[name].Some?
    ensures var sets := SetsOf(direct + marked, elements, marks);
            && (forall i, j :: 0 <= i < j < |sets| ==> sets[i].name != sets[j].name)
            && (forall i, j :: 0 <= i < j < |sets| && sets[j].mark.None? ==> sets[i].mark.None?)
            && (forall i, j :: 0 <= i < j < |sets| && sets[i].mark.None? == sets[j].mark.None? ==>
                Less(sets[i].name, sets[j].name))
  {
    var names := direct + marked;
    var sets := SetsOf(names, elements, marks);
    hide SortedNames, Less;
    forall i, j | 0 <= i < j < |sets|
      ensures sets[i].name != sets[j].name && (sets[j].mark.None? ==> sets[i].mark.None?)
      ensures sets[i].mark.None? == sets[j].mark.None? ==> Less(sets[i].name, sets[j].name)
    {
      if j < |direct| || i >= |direct| {
        LessIsTotal(names[i], names[j]);
      }
      assert i < |direct| ==> direct[i] in direct;
      assert j >= |direct| ==> marked[j - |direct|] in marked;
    }
  }
}
