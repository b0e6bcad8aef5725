/** Domain suffix to channel set (core/vibedpn/engine/resolver.py, `RuleIndex`), and the separate lookup of the
    learner (core/vibedpn/api/smart.py, `rule_of`). */
module RuleIndexes {
  import opened Options
  import opened Names
  import opened Sequences
  import opened Configuration
  import opened Uplinks

  // ---- the lookup ----------------------------------------------------------------------------------

  /** The stored suffix of at least two labels a lookup finds; both lookups walk from the whole name down. */
  function Longest<V>(stored: map<Name, V>, labels: Name): Option<V> {
    if |labels| < 2 then None
    else if labels in stored then Some(stored[labels])
    else Longest(stored, labels[1..])
  }

  function Matched<V>(stored: map<Name, V>, name: Name): Option<V> {
    Longest(stored, Normal(name))
  }

  predicate IsSuffix(suffix: Name, name: Name) {
    |suffix| <= |name| && name[|name| - |suffix|..] == suffix
  }

  /** What a lookup means: nothing when no suffix of two labels is stored, else the value of the longest one. */
  lemma {:induction false} LongestWins<V>(stored: map<Name, V>, labels: Name)
    ensures Longest(stored, labels).None? <==> forall s :: s in stored && IsSuffix(s, labels) ==> |s| < 2
    ensures Longest(stored, labels).Some? ==>
              exists s :: s in stored && IsSuffix(s, labels) && |s| >= 2 && Longest(stored, labels) == Some(stored[s])
                          && forall t :: t in stored && IsSuffix(t, labels) ==> |t| <= |s|
  {
    if |labels| >= 2 {
      if labels in stored {
        assert IsSuffix(labels, labels);
      } else {
        LongestWins(stored, labels[1..]);
        forall s | s in stored ensures IsSuffix(s, labels) <==> IsSuffix(s, labels[1..]) {
          SuffixStep(s, labels);
        }
      }
    }
  }

  /** A name that is matched stays matched when others are added. */
  lemma {:induction false} AddKeepsMatched<V>(stored: map<Name, V>, key: Name, value: V, labels: Name)
    requires Longest(stored, labels).Some?
    ensures Longest(stored[key := value], labels).Some?
  {
    if labels !in stored && labels != key {
      AddKeepsMatched(stored, key, value, labels[1..]);
    }
  }

  lemma SuffixStep(s: Name, labels: Name)
    requires labels != [] && s != labels
    ensures IsSuffix(s, labels) <==> IsSuffix(s, labels[1..])
  {
    if |s| < |labels| {
      assert labels[1..][|labels| - 1 - |s|..] == labels[|labels| - |s|..];
    } else if |s| == |labels| {
      assert labels[0..] == labels;
    }
  }

  // ---- the index of a configuration ----------------------------------------------------------------

  function AddNames(sets: map<Name, string>, names: seq<Name>, setName: string): map<Name, string>
    decreases names
  {
    if names == [] then sets else AddNames(sets[Normal(names[0]) := setName], names[1..], setName)
  }

  function AddLists(sets: map<Name, string>, lists: seq<DomainList>, fetched: map<string, seq<Name>>): map<Name, string>
    decreases lists
  {
    if lists == [] then sets else
      var names := if lists[0].url in fetched then fetched[lists[0].url] else [];
      AddLists(AddNames(sets, names, ChannelSet(lists[0].channel)), lists[1..], fetched)
  }

  function AddDomains(sets: map<Name, string>, domains: seq<DomainRule>): map<Name, string>
    decreases domains
  {
    if domains == [] then sets else
      AddDomains(AddNames(sets, domains[0].Names(), ChannelSet(domains[0].channel)), domains[1..])
  }

  function ConfigIndex(config: Config, fetched: map<string, seq<Name>>): map<Name, string> {
    if config.routing.None? then map[] else
      AddDomains(AddLists(map[], config.routing.value.lists, fetched), config.routing.value.domains)
  }

  /** `rule_of`: the rule domain a name is under, and whether that rule learns. */
  function ByName(stored: map<Name, (Name, bool)>, domains: seq<DomainRule>): map<Name, (Name, bool)>
    decreases domains
  {
    if domains == [] then stored
        else ByName(StoreEach(stored, domains[0].Names(), (domains[0].domain, domains[0].learn)), domains[1..])
  }

  function StoreEach<V>(stored: map<Name, V>, names: seq<Name>, value: V): map<Name, V>
    decreases names
  {
    if names == [] then stored else StoreEach(stored[names[0] := value], names[1..], value)
  }

  function RuleOf(config: Config, name: Name): Option<(Name, bool)> {
    Matched(ByName(map[], if config.routing.Some? then config.routing.value.domains else []), name)
  }

  /** The rule the owner wrote a name under. */
  function OwnerOf(domains: seq<DomainRule>, name: Name): (owner: Option<DomainRule>)
    ensures owner.Some? ==> owner.value in domains && name in owner.value.Names()
    ensures owner.None? ==> name !in AllNames(domains)
  {
    if domains == [] then None
    else if name in domains[0].Names() then Some(domains[0])
    else OwnerOf(domains[1..], name)
  }

  class RuleIndex {
    var sets: map<Name, string>

    constructor ()
      ensures sets == map[]
    {
      sets := map[];
    }

    /** `from_config`: the rules of config.yaml over the domains of its lists. */
    constructor FromConfig(config: Config, lists: map<string, seq<Name>>)
      ensures sets == ConfigIndex(config, lists)
    {
      sets := map[];
      new;
      if config.routing.None? {
        return;
      }
      var routing := config.routing.value;
      for i := 0 to |routing.lists|
        invariant AddLists(sets, routing.lists[i..], lists) == AddLists(map[], routing.lists, lists)
      {
        assert routing.lists[i..][1..] == routing.lists[i + 1..];
        var item := routing.lists[i];
        if item.url in lists {
          AddEach(lists[item.url], ChannelSet(item.channel));
        }
      }
      assert routing.lists[|routing.lists|..] == [];
      ghost var below := sets;
      for i := 0 to |routing.domains|
        invariant AddDomains(sets, routing.domains[i..]) == AddDomains(below, routing.domains)
      {
        assert routing.domains[i..][1..] == routing.domains[i + 1..];
        AddEach(routing.domains[i].Names(), ChannelSet(routing.domains[i].channel));
      }
      assert routing.domains[|routing.domains|..] == [];
    }

    method AddEach(names: seq<Name>, setName: string)
      modifies this
      ensures sets == AddNames(old(sets), names, setName)
    {
      for i := 0 to |names|
        invariant AddNames(sets, names[i..], setName) == AddNames(old(sets), names, setName)
      {
        assert names[i..][1..] == names[i + 1..];
        Add(names[i], setName);
      }
      assert names[|names|..] == [];
    }

    method Add(name: Name, setName: string)
      modifies this
      ensures sets == old(sets)[Normal(name) := setName]
    {
      sets := sets[Normal(name) := setName];
    }

    method Remove(name: Name)
      modifies this
      ensures sets == old(sets) - {Normal(name)}
    {
      sets := sets - {Normal(name)};
    }

    /** `match`: the suffixes of the name, the longest first. */
    method Match(qname: Name) returns (found: Option<string>)
      ensures found == Matched(sets, qname)
    {
      var labels := Normal(qname);
      found := None;
      var start := 0;
      while start + 1 < |labels|
        invariant start <= |labels|
        invariant Longest(sets, labels[start..]) == Matched(sets, qname)
      {
        assert labels[start..][1..] == labels[start + 1..];
        if labels[start..] in sets {
          return Some(sets[labels[start..]]);
        }
        start := start + 1;
      }
    }
  }

  // ---- what is in the index ------------------------------------------------------------------------

  /** One of these names normalizes to this one. */
  predicate Mentions(names: seq<Name>, key: Name) {
    exists n :: n in names && Normal(n) == key
  }

  /** The list was fetched, and one of its names is this one. */
  predicate Lists(list: DomainList, fetched: map<string, seq<Name>>, key: Name) {
    list.url in fetched && Mentions(fetched[list.url], key)
  }

  lemma {:induction false} AddNamesHas(sets: map<Name, string>, names: seq<Name>, setName: string, key: Name)
    ensures key in AddNames(sets, names, setName) <==> key in sets || Mentions(names, key)
    ensures key in AddNames(sets, names, setName) ==>
              AddNames(sets, names, setName)[key] == if Mentions(names, key) then setName else sets[key]
    decreases names
  {
    if names != [] {
      AddNamesHas(sets[Normal(names[0]) := setName], names[1..], setName, key);
      assert Mentions(names, key) <==> Normal(names[0]) == key || Mentions(names[1..], key) by {
        assert forall n :: n in names <==> n == names[0] || n in names[1..];
      }
    }
  }

  /** The last list that has the name, and the last rule. */
  function LastList(lists: seq<DomainList>, fetched: map<string, seq<Name>>, key: Name): (last: Option<nat>)
    ensures last.None? ==> forall i :: 0 <= i < |lists| ==> !Lists(lists[i], fetched, key)
    ensures last.Some? ==> last.value < |lists| && Lists(lists[last.value], fetched, key)
    ensures last.Some? ==> forall i :: last.value < i < |lists| ==> !Lists(lists[i], fetched, key)
  {
    if lists == [] then None
    else if Lists(lists[|lists| - 1], fetched, key) then Some(|lists| - 1)
    else LastList(lists[..|lists| - 1], fetched, key)
  }

  function LastRule(domains: seq<DomainRule>, key: Name): (last: Option<nat>)
    ensures last.None? ==> forall i :: 0 <= i < |domains| ==> !Mentions(domains[i].Names(), key)
    ensures last.Some? ==> last.value < |domains| && Mentions(domains[last.value].Names(), key)
    ensures last.Some? ==> forall i :: last.value < i < |domains| ==> !Mentions(domains[i].Names(), key)
  {
    if domains == [] then None
    else if Mentions(domains[|domains| - 1].Names(), key) then Some(|domains| - 1)
    else LastRule(domains[..|domains| - 1], key)
  }

  lemma {:induction false} AddListsAppend(sets: map<Name, string>, a: seq<DomainList>, b: seq<DomainList>,
                                          fetched: map<string, seq<Name>>)
    ensures AddLists(sets, a + b, fetched) == AddLists(AddLists(sets, a, fetched), b, fetched)
    decreases a
  {
    if a == [] {
      assert a + b == b;
    } else {
      assert (a + b)[1..] == a[1..] + b;
      var names := if a[0].url in fetched then fetched[a[0].url] else [];
      AddListsAppend(AddNames(sets, names, ChannelSet(a[0].channel)), a[1..], b, fetched);
    }
  }

  lemma {:induction false} AddListsHas(sets: map<Name, string>, lists: seq<DomainList>,
                                       fetched: map<string, seq<Name>>, key: Name)
    ensures var after, last := AddLists(sets, lists, fetched), LastList(lists, fetched, key);
            && (key in after <==> key in sets || last.Some?)
            && (last.Some? ==> after[key] == ChannelSet(lists[last.value].channel))
            && (last.None? && key in sets ==> after[key] == sets[key])
  {
    hide Mentions, ChannelSet, AddNames;
    if lists != [] {
      var init, list := lists[..|lists| - 1], lists[|lists| - 1];
      assert lists == init + [list] && [list][1..] == [];
      AddListsAppend(sets, init, [list], fetched);
      AddListsHas(sets, init, fetched, key);
      var names := if list.url in fetched then fetched[list.url] else [];
      AddNamesHas(AddLists(sets, init, fetched), names, ChannelSet(list.channel), key);
      ListMentions(list, fetched, key);
    }
  }

  lemma ListMentions(list: DomainList, fetched: map<string, seq<Name>>, key: Name)
    ensures Lists(list, fetched, key) <==> Mentions(if list.url in fetched then fetched[list.url] else [], key)
  {
  }

  lemma {:induction false} AddDomainsAppend(sets: map<Name, string>, a: seq<DomainRule>, b: seq<DomainRule>)
    ensures AddDomains(sets, a + b) == AddDomains(AddDomains(sets, a), b)
    decreases a
  {
    if a == [] {
      assert a + b == b;
    } else {
      assert (a + b)[1..] == a[1..] + b;
      AddDomainsAppend(AddNames(sets, a[0].Names(), ChannelSet(a[0].channel)), a[1..], b);
    }
  }

  lemma {:induction false} AddDomainsHas(sets: map<Name, string>, domains: seq<DomainRule>, key: Name)
    ensures var after, last := AddDomains(sets, domains), LastRule(domains, key);
            && (key in after <==> key in sets || last.Some?)
            && (last.Some? ==> after[key] == ChannelSet(domains[last.value].channel))
            && (last.None? && key in sets ==> after[key] == sets[key])
  {
    hide Mentions, ChannelSet, AddNames;
    if domains != [] {
      var init, rule := domains[..|domains| - 1], domains[|domains| - 1];
      assert domains == init + [rule] && [rule][1..] == [];
      AddDomainsAppend(sets, init, [rule]);
      AddDomainsHas(sets, init, key);
      AddNamesHas(AddDomains(sets, init), rule.Names(), ChannelSet(rule.channel), key);
    }
  }

  /** What the index of a configuration holds: a name of a rule, with the set of the last rule that has it; and a name no
      rule has exactly when a fetched list has it, with the set of the last such list. */
  lemma IndexHas(config: Config, fetched: map<string, seq<Name>>, key: Name)
    requires config.routing.Some?
    ensures var index, routing := ConfigIndex(config, fetched), config.routing.value;
            var rule, list := LastRule(routing.domains, key), LastList(routing.lists, fetched, key);
            && (key in index <==> rule.Some? || list.Some?)
            && (rule.Some? ==> index[key] == ChannelSet(routing.domains[rule.value].channel))
            && (rule.None? && list.Some? ==> index[key] == ChannelSet(routing.lists[list.value].channel))
  {
    hide Mentions, Lists, ChannelSet, AddLists, AddDomains, LastList, LastRule;
    AddListsHas(map[], config.routing.value.lists, fetched, key);
    AddDomainsHas(AddLists(map[], config.routing.value.lists, fetched), config.routing.value.domains, key);
  }

  lemma {:induction false} AddNamesAt(sets: map<Name, string>, names: seq<Name>, setName: string, key: Name)
    requires forall n :: n in names ==> IsDomain(n)
    ensures key in AddNames(sets, names, setName) <==> key in sets || key in names
    ensures key in names ==> AddNames(sets, names, setName)[key] == setName
    ensures key in sets && key !in names ==> AddNames(sets, names, setName)[key] == sets[key]
    decreases names
  {
    if names != [] {
      DomainIsNormal(names[0]);
      AddNamesAt(sets[names[0] := setName], names[1..], setName, key);
    }
  }

  /** A rule of the owner decides for its names, whatever a list or an earlier rule put there. */
  lemma {:induction false} OwnerDecides(sets: map<Name, string>, domains: seq<DomainRule>, key: Name)
    requires NoDuplicates(AllNames(domains)) && forall n :: n in AllNames(domains) ==> IsDomain(n)
    ensures OwnerOf(domains, key).Some? ==>
              key in AddDomains(sets, domains)
                  && AddDomains(sets, domains)[key] == ChannelSet(OwnerOf(domains, key).value.channel)
    ensures OwnerOf(domains, key).None? ==>
              (key in AddDomains(sets, domains) <==> key in sets)
              && (key in sets ==> AddDomains(sets, domains)[key] == sets[key])
    decreases domains
  {
    if domains != [] {
      var own, rest := domains[0].Names(), domains[1..];
      NoDuplicatesAppend(own, AllNames(rest));
      assert forall n :: n in AllNames(domains) <==> n in own || n in AllNames(rest);
      AddNamesAt(sets, own, ChannelSet(domains[0].channel), key);
      OwnerDecides(AddNames(sets, own, ChannelSet(domains[0].channel)), rest, key);
      if key in own {
        OwnerListed(rest, key);
      }
    }
  }

  lemma {:induction false} OwnerListed(domains: seq<DomainRule>, key: Name)
    ensures OwnerOf(domains, key).Some? <==> key in AllNames(domains)
  {
    if domains != [] {
      OwnerListed(domains[1..], key);
    }
  }

  lemma {:induction false} StoreEachAt<V>(stored: map<Name, V>, names: seq<Name>, value: V, key: Name)
    ensures key in StoreEach(stored, names, value) <==> key in stored || key in names
    ensures key in names ==> StoreEach(stored, names, value)[key] == value
    ensures key in stored && key !in names ==> StoreEach(stored, names, value)[key] == stored[key]
    decreases names
  {
    if names != [] {
      StoreEachAt(stored[names[0] := value], names[1..], value, key);
    }
  }

  lemma {:induction false} LookupOwner(stored: map<Name, (Name, bool)>, domains: seq<DomainRule>, key: Name)
    requires NoDuplicates(AllNames(domains))
    ensures OwnerOf(domains, key).Some? ==>
              key in ByName(stored, domains)
              && ByName(stored, domains)[key] == (OwnerOf(domains, key).value.domain, OwnerOf(domains, key).value.learn)
    ensures OwnerOf(domains, key).None? ==>
              (key in ByName(stored, domains) <==> key in stored)
              && (key in stored ==> ByName(stored, domains)[key] == stored[key])
    decreases domains
  {
    if domains != [] {
      var own, rest := domains[0].Names(), domains[1..];
      NoDuplicatesAppend(own, AllNames(rest));
      StoreEachAt(stored, own, (domains[0].domain, domains[0].learn), key);
      LookupOwner(StoreEach(stored, own, (domains[0].domain, domains[0].learn)), rest, key);
      if key in own {
        OwnerListed(rest, key);
      }
    }
  }

  /** Two maps that both answer by the owner's rule find the same rule for every name. */
  lemma {:induction false} SameRule(sets: map<Name, string>, rules: map<Name, (Name, bool)>, domains: seq<DomainRule>,
                                    labels: Name)
    requires forall key :: (key in sets <==> OwnerOf(domains, key).Some?) && (key in rules <==> OwnerOf(domains, key).Some?)
    requires forall key :: key in sets ==> sets[key] == ChannelSet(OwnerOf(domains, key).value.channel)
    requires forall key :: key in rules ==>
               rules[key] == (OwnerOf(domains, key).value.domain, OwnerOf(domains, key).value.learn)
    ensures match Longest(rules, labels) {
              case None => Longest(sets, labels) == None
              case Some(found) => exists rule :: rule in domains && found == (rule.domain, rule.learn)
                                                 && Longest(sets, labels) == Some(ChannelSet(rule.channel))
            }
  {
    if |labels| >= 2 && labels !in sets {
      SameRule(sets, rules, domains, labels[1..]);
    }
  }

  /** The resolver and the learner never disagree about the owner's rules: without lists one finds a rule
      exactly when the other does, and it is the same one. */
  lemma LookupsAgree(config: Config, name: Name)
    requires Valid(config)
    ensures match RuleOf(config, name) {
              case None => Matched(ConfigIndex(config, map[]), name) == None
              case Some(found) => exists rule :: rule in config.routing.value.domains && found == (rule.domain, rule.learn)
                                                 && Matched(ConfigIndex(config, map[]), name)
                                                     == Some(ChannelSet(rule.channel))
            }
  {
    var domains := config.routing.value.domains;
    var sets, rules := AddDomains(map[], domains), ByName(map[], domains);
    NoLists(map[], config.routing.value.lists);
    forall key
      ensures (key in sets <==> OwnerOf(domains, key).Some?) && (key in rules <==> OwnerOf(domains, key).Some?)
      ensures key in sets ==> sets[key] == ChannelSet(OwnerOf(domains, key).value.channel)
      ensures key in rules ==> rules[key] == (OwnerOf(domains, key).value.domain, OwnerOf(domains, key).value.learn)
    {
      OwnerDecides(map[], domains, key);
      LookupOwner(map[], domains, key);
    }
    SameRule(sets, rules, domains, Normal(name));
  }

  lemma {:induction false} NoLists(sets: map<Name, string>, lists: seq<DomainList>)
    ensures AddLists(sets, lists, map[]) == sets
    decreases lists
  {
    if lists != [] {
      NoLists(sets, lists[1..]);
    }
  }

  /** What the owner wrote is stored under its own name, whatever the lists say. */
  lemma OwnerIsStored(sets: map<Name, string>, domains: seq<DomainRule>, rule: DomainRule, name: Name)
    requires NoDuplicates(AllNames(domains)) && forall n :: n in AllNames(domains) ==> IsDomain(n)
    requires rule in domains && name in rule.Names()
    ensures IsDomain(name) && name in AddDomains(sets, domains)
    ensures AddDomains(sets, domains)[name] == ChannelSet(rule.channel)
  {
    OwnerDecides(sets, domains, name);
    OwnerIsTheRule(domains, rule, name);
  }

  /** An owner's rule beats a list for the same name. */
  lemma OwnerBeatsLists(config: Config, fetched: map<string, seq<Name>>, rule: DomainRule, name: Name)
    requires config.routing.Some? && UniqueNames(config.routing.value)
    requires rule in config.routing.value.domains && name in rule.Names()
    ensures IsDomain(name) && name in ConfigIndex(config, fetched)
    ensures ConfigIndex(config, fetched)[name] == ChannelSet(rule.channel)
    ensures Matched(ConfigIndex(config, fetched), name) == Some(ChannelSet(rule.channel))
  {
    OwnerIsStored(AddLists(map[], config.routing.value.lists, fetched), config.routing.value.domains, rule, name);
    DomainIsNormal(name);
  }

  lemma {:induction false} OwnerIsTheRule(domains: seq<DomainRule>, rule: DomainRule, name: Name)
    requires NoDuplicates(AllNames(domains)) && rule in domains && name in rule.Names()
    ensures OwnerOf(domains, name) == Some(rule) && name in AllNames(domains)
  {
    var own, rest := domains[0].Names(), domains[1..];
    NoDuplicatesAppend(own, AllNames(rest));
    if domains[0] != rule {
      OwnerIsTheRule(rest, rule, name);
    }
  }

  // ---- every set a name can be put in exists -------------------------------------------------------

  ghost predicate Declared(sets: map<Name, string>, declared: set<string>) {
    forall name :: name in sets ==> sets[name] in declared
  }

  lemma {:induction false} MatchedDeclared(sets: map<Name, string>, labels: Name, declared: set<string>)
    requires Declared(sets, declared)
    ensures Longest(sets, labels).Some? ==> Longest(sets, labels).value in declared
  {
    if |labels| >= 2 && labels !in sets {
      MatchedDeclared(sets, labels[1..], declared);
    }
  }

  lemma {:induction false} AddNamesDeclared(sets: map<Name, string>, names: seq<Name>, setName: string,
                                            declared: set<string>)
    requires Declared(sets, declared) && setName in declared
    ensures Declared(AddNames(sets, names, setName), declared)
    decreases names
  {
    if names != [] {
      AddNamesDeclared(sets[Normal(names[0]) := setName], names[1..], setName, declared);
    }
  }

  lemma {:induction false} AddListsDeclared(sets: map<Name, string>, lists: seq<DomainList>,
                                            fetched: map<string, seq<Name>>, declared: set<string>)
    requires Declared(sets, declared) && forall l :: l in lists ==> ChannelSet(l.channel) in declared
    ensures Declared(AddLists(sets, lists, fetched), declared)
    decreases lists
  {
    if lists != [] {
      var names := if lists[0].url in fetched then fetched[lists[0].url] else [];
      AddNamesDeclared(sets, names, ChannelSet(lists[0].channel), declared);
      AddListsDeclared(AddNames(sets, names, ChannelSet(lists[0].channel)), lists[1..], fetched, declared);
    }
  }

  lemma {:induction false} AddDomainsDeclared(sets: map<Name, string>, domains: seq<DomainRule>, declared: set<string>)
    requires Declared(sets, declared) && forall d :: d in domains ==> ChannelSet(d.channel) in declared
    ensures Declared(AddDomains(sets, domains), declared)
    decreases domains
  {
    if domains != [] {
      AddNamesDeclared(sets, domains[0].Names(), ChannelSet(domains[0].channel), declared);
      AddDomainsDeclared(AddNames(sets, domains[0].Names(), ChannelSet(domains[0].channel)), domains[1..], declared);
    }
  }

  /** Every set of the index is one the router of the same configuration declares. */
  lemma ConfigIndexDeclared(config: Config, fetched: map<string, seq<Name>>)
    ensures Declared(ConfigIndex(config, fetched), SmartSetNames(config))
  {
    if config.routing.Some? {
      var routing, channels := config.routing.value, config.Channels();
      forall l | l in routing.lists ensures ChannelSet(l.channel) in SmartSetNames(config) {
        var i :| 0 <= i < |routing.lists| && routing.lists[i] == l;
        assert channels[|routing.domains| + i] == l.channel;
      }
      forall d | d in routing.domains ensures ChannelSet(d.channel) in SmartSetNames(config) {
        var i :| 0 <= i < |routing.domains| && routing.domains[i] == d;
        assert channels[i] == d.channel;
      }
      AddListsDeclared(map[], routing.lists, fetched, SmartSetNames(config));
      AddDomainsDeclared(AddLists(map[], routing.lists, fetched), routing.domains, SmartSetNames(config));
    }
  }
}
