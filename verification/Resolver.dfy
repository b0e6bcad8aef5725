/** The resolver of routing.mode smart (core/vibedpn/engine/resolver.py, `Resolver`). */
module Resolvers {
  import opened Options
  import opened Names
  import opened Sequences
  import opened Dicts
  import opened Commands
  import opened Configuration
  import opened Uplinks
  import opened RuleIndexes
  import opened ChannelSets
  import opened SetHistories
  import opened Replays

  datatype Query = Query(name: Option<Name>, ipv6: bool)

  /** Failed stands for an exception, which the caller answers with SERVFAIL. */
  datatype Response = Empty | Answer(rrsets: seq<RRset>) | Failed

  function AskedName(query: Query): Option<Name> {
    if query.name.Some? then Some(Normal(query.name.value)) else None
  }

  // ---- names that join a rule ----------------------------------------------------------------------

  /** A name that no rule matched joins one: nobody under a rule moves, and only that rule gains names. */
  lemma {:induction false} AddUnmatchedMovesNobody(sets: map<Name, string>, target: Name, setName: string, labels: Name)
    requires Longest(sets, target).None?
    ensures Longest(sets, labels).Some? ==> Longest(sets[target := setName], labels) == Longest(sets, labels)
    ensures Longest(sets, labels).None? ==> Longest(sets[target := setName], labels) in {None, Some(setName)}
  {
    if |labels| >= 2 && labels !in sets && labels != target {
      AddUnmatchedMovesNobody(sets, target, setName, labels[1..]);
    }
  }

  /** CNAME targets that nobody matched join the rule of a site, one after the other. */
  function Joined(sets: map<Name, string>, cnames: seq<(Name, Name)>, targets: seq<Name>, setName: string, site: Name)
    : (map<Name, string>, seq<(Name, Name)>)
    decreases targets
  {
    if targets == [] then (sets, cnames)
    else if Matched(sets, targets[0]).Some? then Joined(sets, cnames, targets[1..], setName, site)
    else Joined(sets[Normal(targets[0]) := setName], Put(cnames, targets[0], site), targets[1..], setName, site)
  }

  /** The name is one of these, or below one. */
  predicate Under(targets: seq<Name>, name: Name) {
    exists t :: t in targets && |Normal(t)| >= 2 && IsSuffix(Normal(t), Normal(name))
  }

  lemma {:induction false} AddedDecides(sets: map<Name, string>, target: Name, setName: string, labels: Name)
    requires Longest(sets, target).None?
    ensures Longest(sets[target := setName], labels)
         == if Longest(sets, labels).None? && |target| >= 2 && IsSuffix(target, labels) then Some(setName)
             else Longest(sets, labels)
  {
    AddUnmatchedMovesNobody(sets, target, setName, labels);
    LongestWins(sets, labels);
    LongestWins(sets[target := setName], labels);
  }

  /** Below a name that is matched everything is. */
  lemma MatchedBelow(sets: map<Name, string>, top: Name, labels: Name)
    requires Longest(sets, top).Some? && IsSuffix(top, labels)
    ensures |top| >= 2 && Longest(sets, labels).Some?
  {
    LongestWins(sets, top);
    LongestWins(sets, labels);
    var s :| s in sets && IsSuffix(s, top) && |s| >= 2;
    assert labels[|labels| - |s|..] == top[|top| - |s|..];
  }

  /** Who is under which rule behind an answer: everybody under one before, as before; of the others exactly the CNAME
      targets and the names below them, under the rule of the site. */
  lemma {:induction false} JoinedExactly(sets: map<Name, string>, cnames: seq<(Name, Name)>, targets: seq<Name>,
                                         setName: string, site: Name, name: Name)
    ensures Matched(Joined(sets, cnames, targets, setName, site).0, name)
         == if Matched(sets, name).None? && Under(targets, name) then Some(setName) else Matched(sets, name)
    decreases targets
  {
    if targets != [] {
      var first, rest := targets[0], targets[1..];
      UnderFirst(targets, name);
      if Matched(sets, first).Some? {
        JoinedExactly(sets, cnames, rest, setName, site, name);
        if IsSuffix(Normal(first), Normal(name)) {
          MatchedBelow(sets, Normal(first), Normal(name));
        }
      } else {
        JoinedExactly(sets[Normal(first) := setName], Put(cnames, first, site), rest, setName, site, name);
        AddedDecides(sets, Normal(first), setName, Normal(name));
      }
    }
  }

  lemma UnderFirst(targets: seq<Name>, name: Name)
    requires targets != []
    ensures Under(targets, name)
       <==> (|Normal(targets[0])| >= 2 && IsSuffix(Normal(targets[0]), Normal(name))) || Under(targets[1..], name)
  {
    assert forall t :: t in targets <==> t == targets[0] || t in targets[1..];
  }

  /** A target that nobody matched when its turn came. */
  ghost predicate Joins(sets: map<Name, string>, targets: seq<Name>, name: Name) {
    Matched(sets, name).None? && exists i :: 0 <= i < |targets| && targets[i] == name && !Under(targets[..i], name)
  }

  /** And these follow the site from then on; nobody else's site is another one. */
  lemma {:induction false} JoinedFollow(sets: map<Name, string>, cnames: seq<(Name, Name)>, targets: seq<Name>,
                                        setName: string, site: Name, name: Name)
    requires IsDict(cnames)
    ensures Get(Joined(sets, cnames, targets, setName, site).1, name)
         == if Joins(sets, targets, name) then Some(site) else Get(cnames, name)
    decreases targets
  {
    if targets != [] {
      var first, rest := targets[0], targets[1..];
      if Matched(sets, first).Some? {
        JoinedFollow(sets, cnames, rest, setName, site, name);
        JoinsMatched(sets, targets, name);
      } else {
        PutIsDict(cnames, first, site);
        JoinedFollow(sets[Normal(first) := setName], Put(cnames, first, site), rest, setName, site, name);
        JoinsNext(sets, targets, setName, name);
      }
    }
  }

  lemma JoinsMatched(sets: map<Name, string>, targets: seq<Name>, name: Name)
    requires targets != [] && Matched(sets, targets[0]).Some?
    ensures Joins(sets, targets, name) <==> Joins(sets, targets[1..], name)
  {
    var first, rest := targets[0], targets[1..];
    if Matched(sets, name).None? {
      if |Normal(first)| >= 2 && IsSuffix(Normal(first), Normal(name)) {
        MatchedBelow(sets, Normal(first), Normal(name));
      }
      JoinsTail(targets, name);
    }
  }

  lemma JoinsNext(sets: map<Name, string>, targets: seq<Name>, setName: string, name: Name)
    requires targets != [] && Matched(sets, targets[0]).None?
    ensures Joins(sets, targets, name) <==>
              name == targets[0] || Joins(sets[Normal(targets[0]) := setName], targets[1..], name)
  {
    var first, rest := targets[0], targets[1..];
    AddedDecides(sets, Normal(first), setName, Normal(name));
    if name == first {
      assert targets[..0] == [] && !Under(targets[..0], name);
    } else if |Normal(first)| >= 2 && IsSuffix(Normal(first), Normal(name)) {
      forall i | 0 < i < |targets| ensures Under(targets[..i], name) {
        assert targets[..i][0] == first && first in targets[..i];
      }
    } else {
      JoinsTail(targets, name);
    }
  }

  lemma JoinsTail(targets: seq<Name>, name: Name)
    requires targets != [] && !(|Normal(targets[0])| >= 2 && IsSuffix(Normal(targets[0]), Normal(name)))
    ensures (exists i :: 0 <= i < |targets| && targets[i] == name && !Under(targets[..i], name))
       <==> (name == targets[0] || exists i :: 0 <= i < |targets[1..]| && targets[1..][i] == name && !Under(targets[1..][..i], name))
  {
    var rest := targets[1..];
    assert targets[..0] == [] && !Under(targets[..0], name);
    forall i | 0 < i < |targets| ensures Under(targets[..i], name) <==> Under(rest[..i - 1], name) {
      UnderFirst(targets[..i], name);
      assert targets[..i][1..] == rest[..i - 1];
    }
    if i :| 0 <= i < |rest| && rest[i] == name && !Under(rest[..i], name) {
      assert targets[i + 1] == name && !Under(targets[..i + 1], name);
    }
    if i :| 0 < i < |targets| && targets[i] == name && !Under(targets[..i], name) {
      assert rest[i - 1] == name && !Under(rest[..i - 1], name);
    }
  }

  /** A learned name stays over a reload exactly when its site is under a rule when its turn comes. */
  lemma {:induction false} StillLearnedExactly(sets: map<Name, string>, learned: seq<(Name, Name)>, i: nat)
    requires IsDict(learned) && i < |learned|
    ensures learned[i] in StillLearned(sets, learned) <==> SiteRule(sets, learned, i).Some?
    decreases learned
  {
    var setName := Matched(sets, learned[0].1);
    var next := if setName.Some? then sets[Normal(learned[0].0) := setName.value] else sets;
    StillLearnedIsDict(next, learned[1..]);
    if i == 0 {
      assert learned[..0] == [];
    } else {
      assert learned[1..][i - 1] == learned[i] && learned[i] in learned[1..];
      StillLearnedExactly(next, learned[1..], i - 1);
      assert learned[..i][1..] == learned[1..][..i - 1] && learned[..i][0] == learned[0];
    }
  }

  // ---- what survives a new configuration -----------------------------------------------------------

  /** CNAME targets follow their site again, in the order they were found. */
  function Rejoined(sets: map<Name, string>, followers: seq<(Name, Name)>): map<Name, string>
    decreases followers
  {
    if followers == [] then sets else
      var setName := Matched(sets, followers[0].1);
      Rejoined(if setName.Some? then sets[Normal(followers[0].0) := setName.value] else sets, followers[1..])
  }

  /** The learned names whose site is still under a rule; the index they see grows as they join. */
  function StillLearned(sets: map<Name, string>, learned: seq<(Name, Name)>): seq<(Name, Name)>
    decreases learned
  {
    if learned == [] then [] else
      var setName := Matched(sets, learned[0].1);
      if setName.Some?
        then [learned[0]] + StillLearned(sets[Normal(learned[0].0) := setName.value], learned[1..])
        else StillLearned(sets, learned[1..])
  }

  lemma {:induction false} RejoinedDeclared(sets: map<Name, string>, followers: seq<(Name, Name)>, declared: set<string>)
    requires Declared(sets, declared)
    ensures Declared(Rejoined(sets, followers), declared)
    decreases followers
  {
    if followers != [] {
      var setName := Matched(sets, followers[0].1);
      if setName.Some? {
        MatchedDeclared(sets, Normal(followers[0].1), declared);
        RejoinedDeclared(sets[Normal(followers[0].0) := setName.value], followers[1..], declared);
      } else {
        RejoinedDeclared(sets, followers[1..], declared);
      }
    }
  }

  lemma {:induction false} StillLearnedIsDict(sets: map<Name, string>, learned: seq<(Name, Name)>)
    requires IsDict(learned)
    ensures IsDict(StillLearned(sets, learned)) && forall p :: p in StillLearned(sets, learned) ==> p in learned
    decreases learned
  {
    if learned != [] {
      var setName := Matched(sets, learned[0].1);
      var next := if setName.Some? then sets[Normal(learned[0].0) := setName.value] else sets;
      StillLearnedIsDict(next, learned[1..]);
      var rest := StillLearned(next, learned[1..]);
      assert ([learned[0]] + rest)[1..] == rest;
    }
  }

  /** A reload keeps the rule of a name the followers do not carry; one they carry it gives to the rule of their
      site, even when the owner wrote a rule for that very name since. */
  lemma {:induction false} RejoinedAt(sets: map<Name, string>, followers: seq<(Name, Name)>, key: Name)
    requires forall f :: f in followers ==> Normal(f.0) != key
    ensures key in Rejoined(sets, followers) <==> key in sets
    ensures key in sets ==> Rejoined(sets, followers)[key] == sets[key]
    decreases followers
  {
    if followers != [] {
      var setName := Matched(sets, followers[0].1);
      RejoinedAt(if setName.Some? then sets[Normal(followers[0].0) := setName.value] else sets, followers[1..], key);
    }
  }

  lemma {:induction false} RejoinedAppend(sets: map<Name, string>, a: seq<(Name, Name)>, b: seq<(Name, Name)>)
    ensures Rejoined(sets, a + b) == Rejoined(Rejoined(sets, a), b)
    decreases a
  {
    if a == [] {
      assert a + b == b;
    } else {
      assert (a + b)[1..] == a[1..] + b;
      var setName := Matched(sets, a[0].1);
      RejoinedAppend(if setName.Some? then sets[Normal(a[0].0) := setName.value] else sets, a[1..], b);
    }
  }

  /** The rule the site of a follower has when its turn comes. */
  function SiteRule(sets: map<Name, string>, followers: seq<(Name, Name)>, i: nat): Option<string>
    requires i < |followers|
  {
    Matched(Rejoined(sets, followers[..i]), followers[i].1)
  }

  /** The last of the first `n` followers that carries `name` to a rule. */
  function LastTaker(sets: map<Name, string>, followers: seq<(Name, Name)>, name: Name, n: nat): (i: Option<nat>)
    requires n <= |followers|
    ensures i.Some? ==> i.value < n && Normal(followers[i.value].0) == name && SiteRule(sets, followers, i.value).Some?
  {
    if n == 0 then None
    else if Normal(followers[n - 1].0) == name && SiteRule(sets, followers, n - 1).Some? then Some(n - 1)
    else LastTaker(sets, followers, name, n - 1)
  }

  lemma {:induction false} LastTakerIsLast(sets: map<Name, string>, followers: seq<(Name, Name)>, name: Name, n: nat,
                                           j: nat)
    requires j < n <= |followers| && Normal(followers[j].0) == name && SiteRule(sets, followers, j).Some?
    ensures var i := LastTaker(sets, followers, name, n); i.Some? && j <= i.value
  {
    hide SiteRule;
    if j < n - 1 {
      LastTakerIsLast(sets, followers, name, n - 1, j);
    }
  }

  function RuleAfter(sets: map<Name, string>, followers: seq<(Name, Name)>, name: Name, n: nat): string
    requires n <= |followers| && (name in sets || LastTaker(sets, followers, name, n).Some?)
  {
    var taker := LastTaker(sets, followers, name, n);
    if taker.Some? then SiteRule(sets, followers, taker.value).value else sets[name]
  }

  /** A name is in the index behind a reload exactly when it was before or a follower took it to a rule; the last that did
      decides. */
  lemma {:induction false} TakerDecides(sets: map<Name, string>, followers: seq<(Name, Name)>, name: Name, n: nat)
    requires n <= |followers|
    ensures name in Rejoined(sets, followers[..n]) <==> name in sets || LastTaker(sets, followers, name, n).Some?
    ensures name in Rejoined(sets, followers[..n]) ==>
              Rejoined(sets, followers[..n])[name] == RuleAfter(sets, followers, name, n)
  {
    hide *;
    TakerNext(sets, followers, name, n);
    if n > 0 {
      TakerDecides(sets, followers, name, n - 1);
      RejoinedNext(sets, followers, n);
    } else {
      assert followers[..0] == [];
      RejoinedNone(sets);
    }
  }

  lemma RejoinedNone(sets: map<Name, string>)
    ensures Rejoined(sets, []) == sets
  {
  }

  lemma TakerNext(sets: map<Name, string>, followers: seq<(Name, Name)>, name: Name, n: nat)
    requires n <= |followers|
    ensures n == 0 ==> LastTaker(sets, followers, name, n).None? && (name in sets ==> RuleAfter(sets, followers, name, n) == sets[name])
    ensures n > 0 ==>
              var rule, before := SiteRule(sets, followers, n - 1), LastTaker(sets, followers, name, n - 1);
              if Normal(followers[n - 1].0) == name && rule.Some?
              then LastTaker(sets, followers, name, n) == Some(n - 1) && RuleAfter(sets, followers, name, n) == rule.value
              else LastTaker(sets, followers, name, n) == before
                   && (name in sets || before.Some? ==>
                       RuleAfter(sets, followers, name, n) == RuleAfter(sets, followers, name, n - 1))
  {
    hide SiteRule, Normal;
  }

  lemma RejoinedNext(sets: map<Name, string>, followers: seq<(Name, Name)>, n: nat)
    requires 0 < n <= |followers|
    ensures var before, rule := Rejoined(sets, followers[..n - 1]), SiteRule(sets, followers, n - 1);
            Rejoined(sets, followers[..n]) == if rule.Some? then before[Normal(followers[n - 1].0) := rule.value] else before
  {
    var before, own := followers[..n - 1], [followers[n - 1]];
    assert followers[..n] == before + own;
    RejoinedAppend(sets, before, own);
    assert own[1..] == [];
  }

  /** A name of the owner keeps its rule across a reload exactly when the last follower that carries it to a rule carries
      it to that one, or no follower carries it. */
  lemma OwnerKeepsIff(config: Config, fetched: map<string, seq<Name>>, rule: DomainRule, name: Name,
                      cnames: seq<(Name, Name)>, learned: seq<(Name, Name)>)
    requires config.routing.Some? && UniqueNames(config.routing.value)
    requires rule in config.routing.value.domains && name in rule.Names()
    ensures var index, followers := ConfigIndex(config, fetched), cnames + learned;
            var taker := LastTaker(index, followers, name, |followers|);
            Matched(Rejoined(Rejoined(index, cnames), learned), name) == Some(ChannelSet(rule.channel))
            <==> (taker.Some? ==> SiteRule(index, followers, taker.value) == Some(ChannelSet(rule.channel)))
  {
    var index, followers := ConfigIndex(config, fetched), cnames + learned;
    OwnerBeatsLists(config, fetched, rule, name);
    RejoinedAppend(index, cnames, learned);
    assert followers[..|followers|] == followers;
    TakerDecides(index, followers, name, |followers|);
    DomainIsNormal(name);
  }

  lemma FollowerTakesTheName(sets: map<Name, string>, name: Name, site: Name, behind: seq<(Name, Name)>)
    requires IsDomain(name) && Matched(sets, site).Some?
    requires forall f :: f in behind ==> Normal(f.0) != name
    ensures Matched(Rejoined(sets, [(name, site)] + behind), name) == Matched(sets, site)
  {
    DomainIsNormal(name);
    var followers := [(name, site)] + behind;
    assert followers[1..] == behind;
    RejoinedAt(sets[name := Matched(sets, site).value], behind, name);
  }

  // ---- runs ----------------------------------------------------------------------------------------

  /** What can happen to a resolver: time passes, AdGuard asks, a name is learned or unlearned, rules or lists change, the
      router loads its table again. */
  datatype Act =
    | Wait(milliseconds: nat)
    | Ask(query: Query, upstream: Option<seq<RRset>>)
    | Follow(name: Name, site: Name)
    | Leave(name: Name)
    | NewRules(config: Config)
    | NewLists(config: Config, lists: map<string, seq<Name>>)
    | NewTable

  /** A query for that name that got an answer from upstream. */
  predicate Renews(act: Act, name: Name) {
    act.Ask? && AskedName(act.query) == Some(name) && act.upstream.Some?
  }

  datatype Book = Book(recent: Recent, history: History, refusals: seq<bool>, given: map<Name, Given>,
      told: seq<(Name, Given)>)

  /** An answer from upstream: it is remembered in the place of the last one of its name; under a rule its addresses go
      into the set, and when nft does not refuse them the answer is given and recorded. Those of other names stay. */
  function AfterAnswer(book: Book, name: Name, setName: Option<string>, answer: seq<RRset>, now: int): Book {
    var kept := book.(recent := RememberedWith(book.recent, name, Addresses(answer), Lowest(answer), now),
                      given := if Addresses(answer) != [] then book.given - {name} else book.given);
    if setName.None? || Steerable(Addresses(answer)) == {} then kept
    else if Refused(book.refusals) then kept.(refusals := Coming(book.refusals))
    else
      var said := AnswerGiven(setName.value, answer, now, |book.history|);
      kept.(refusals := Coming(book.refusals), history := book.history + [AnswerFill(name, setName.value, answer, now)],
            given := kept.given[name := said], told := book.told + [(name, said)])
  }

  /** An IPv6 address of a steered site would leave around its IPv4 sets. */
  predicate Withheld(sets: map<Name, string>, query: Query) {
    query.name.Some? && query.ipv6 && Matched(sets, AskedName(query).value) !in {None, Some(DIRECT_SET)}
  }

  /** The query reaches upstream and is answered. */
  predicate Answers(sets: map<Name, string>, query: Query, upstream: Option<seq<RRset>>) {
    query.name.Some? && upstream.Some? && !Withheld(sets, query)
  }

  function AfterQuery(book: Book, sets: map<Name, string>, query: Query, upstream: Option<seq<RRset>>, now: int): Book {
    if Answers(sets, query, upstream)
      then AfterAnswer(book, AskedName(query).value, Matched(sets, AskedName(query).value), upstream.value, now) else book
  }

  /** What was seen of a learned name lately goes into the set of its site. */
  function AfterLearn(book: Book, sets: map<Name, string>, name: Name, site: Name, now: int): Book {
    if Matched(sets, site).None? || !Refills(book.recent, name, now) then book
    else if Refused(book.refusals) then book.(refusals := Coming(book.refusals))
    else book.(refusals := Coming(book.refusals), history := book.history
        + RefillOf(book.recent, name, Matched(sets, site).value, now))
  }

  lemma LearnIs(book: Book, sets: map<Name, string>, name: Name, site: Name, now: int, filled: bool, after: Book)
    requires var setName, due := Matched(sets, site), Refills(book.recent, name, now);
             && filled == !(setName.Some? && due && Refused(book.refusals))
             && after == book.(history := after.history, refusals := if setName.Some? && due then Coming(book.refusals)
                 else book.refusals)
             && after.history == if setName.Some? && filled
                 then book.history + RefillOf(book.recent, name, setName.value, now) else book.history
    ensures after == AfterLearn(book, sets, name, site, now)
  {
  }

  /** A resolver between two steps. */
  datatype Moment = Moment(
    sets: map<Name, string>,
    cnames: seq<(Name, Name)>,
    learned: seq<(Name, Name)>,
    lists: map<string, seq<Name>>,
    now: int,
    book: Book)

  /** The index of a new configuration, and the names that follow again, and a replay: whole when nft refuses nothing. */
  ghost predicate Reloaded(before: Moment, config: Config, after: Moment) {
    var sites := Rejoined(ConfigIndex(config, after.lists), before.cnames);
    && after.sets == Rejoined(sites, before.learned) && after.learned == StillLearned(sites, before.learned)
    && after.cnames == before.cnames && after.now == before.now
    && after.book == before.book.(history := after.book.history, refusals := after.book.refusals)
    && before.book.history <= after.book.history
    && (Calm(before.book.refusals) ==>
          && Calm(after.book.refusals)
          && after.book.history
              == before.book.history + ReplayFills(Keys(before.book.recent), before.book.recent, after.sets, before.now)
                                + [Replayed(before.now, after.sets)])
  }

  /** One step of a run. */
  ghost predicate Next(before: Moment, act: Act, after: Moment) {
    match act
    case Wait(milliseconds) => after == before.(now := before.now + milliseconds)
    case Ask(query, upstream) =>
      var name := AskedName(query);
      var joined := if Answers(before.sets, query, upstream) && Matched(before.sets, name.value).Some?
        then Joined(before.sets, before.cnames, Targets(upstream.value), Matched(before.sets, name.value).value, name.value)
        else (before.sets, before.cnames);
      after == before.(sets := joined.0, cnames := joined.1,
                       book := AfterQuery(before.book, before.sets, query, upstream, before.now))
    case Follow(name, site) =>
      var setName := Matched(before.sets, site);
      after == before.(sets := if setName.Some? then before.sets[Normal(name) := setName.value] else before.sets,
                       learned := if setName.Some? then Put(before.learned, name, site) else before.learned,
                       book := AfterLearn(before.book, before.sets, name, site, before.now))
    case Leave(name) =>
      after == before.(sets := if Get(before.learned, name).Some? then before.sets - {Normal(name)} else before.sets,
                       learned := Dicts.Remove(before.learned, name))
    case NewRules(config) => after.lists == before.lists && Reloaded(before, config, after)
    case NewLists(config, lists) => after.lists == lists && Reloaded(before, config, after)
    case NewTable => after == before.(book := before.book.(history := before.book.history + [Rebuilt]))
  }

  /** Every step of it follows from the one before. */
  ghost predicate IsRun(moments: seq<Moment>, acts: seq<Act>) {
    |moments| == |acts| + 1 && forall i :: 0 <= i < |acts| ==> Next(moments[i], acts[i], moments[i + 1])
  }

  lemma MomentsGrow(moments: seq<Moment>, acts: seq<Act>, n: nat, last: Moment, next: Moment)
    requires n < |acts| && IsRun(moments, acts[..n]) && moments[n] == last && Next(last, acts[n], next)
    ensures var longer := moments + [next];
            IsRun(longer, acts[..n + 1]) && longer[0] == moments[0] && longer[n + 1] == next
  {
    hide Next;
    var longer := moments + [next];
    forall i | 0 <= i <= n ensures Next(longer[i], acts[..n + 1][i], longer[i + 1]) {
      assert i < n ==> acts[..n][i] == acts[i] && Next(moments[i], acts[i], moments[i + 1]);
    }
  }

  /** A step forgets no answer, and adds the one it gives. */
  lemma NextTells(before: Moment, act: Act, after: Moment)
    requires Next(before, act, after)
    ensures before.book.told <= after.book.told
    ensures act.Ask? && Steers(before, act.query, act.upstream) && !Refused(before.book.refusals) ==>
              after.book.told == before.book.told + [ToldNow(before, act.query, act.upstream)]
    ensures !(act.Ask? && Steers(before, act.query, act.upstream) && !Refused(before.book.refusals)) ==>
              after.book.told == before.book.told
  {
    hide Rejoined, StillLearned, ConfigIndex, ReplayFills, RefillOf, Joined, RememberedWith, AnswerFill, AnswerGiven,
         Steerable;
  }

  lemma NextKeeps(before: Moment, act: Act, after: Moment)
    requires Next(before, act, after)
    ensures before.book.history <= after.book.history && before.book.told <= after.book.told
    ensures Calm(before.book.refusals) ==> Calm(after.book.refusals)
    ensures forall n :: n in before.book.given && !Renews(act, n) ==>
              n in after.book.given && after.book.given[n] == before.book.given[n]
  {
    hide AfterAnswer, Rejoined, StillLearned, ReplayFills, RefillOf, ConfigIndex, Matched, Joined, Calm, Withheld;
    CalmStays(before.book.refusals);
    if act.Ask? && Answers(before.sets, act.query, act.upstream) {
      var name := AskedName(act.query).value;
      AnswerKeepsOthers(before.book, name, Matched(before.sets, name), act.upstream.value, before.now);
    }
  }

  /** The answer brings addresses of a name under a rule. */
  predicate Steers(moment: Moment, query: Query, upstream: Option<seq<RRset>>) {
    && Answers(moment.sets, query, upstream) && Matched(moment.sets, AskedName(query).value).Some?
    && Steerable(Addresses(upstream.value)) != {}
  }

  function ToldNow(moment: Moment, query: Query, upstream: Option<seq<RRset>>): (Name, Given)
    requires Steers(moment, query, upstream)
  {
    var name := AskedName(query).value;
    (name, AnswerGiven(Matched(moment.sets, name).value, upstream.value, moment.now, |moment.book.history|))
  }

  lemma RunTells(moments: seq<Moment>, acts: seq<Act>)
    requires IsRun(moments, acts)
    ensures forall i :: 0 <= i < |acts| && acts[i].Ask? && Steers(moments[i], acts[i].query, acts[i].upstream)
                        && !Refused(moments[i].book.refusals) ==>
              ToldNow(moments[i], acts[i].query, acts[i].upstream) in moments[|acts|].book.told
  {
    hide Next, Steers, ToldNow;
    forall i | 0 <= i < |acts| && acts[i].Ask? && Steers(moments[i], acts[i].query, acts[i].upstream)
               && !Refused(moments[i].book.refusals)
      ensures ToldNow(moments[i], acts[i].query, acts[i].upstream) in moments[|acts|].book.told
    {
      EveryAnswerIsTold(moments, acts, ToldNow(moments[i], acts[i].query, acts[i].upstream));
    }
  }

  /** What is on record at the end of a run is what was there, and every answer the run gave under a rule. */
  lemma {:induction false} EveryAnswerIsTold(moments: seq<Moment>, acts: seq<Act>, answer: (Name, Given))
    requires IsRun(moments, acts)
    ensures answer in moments[|acts|].book.told <==>
              answer in moments[0].book.told
              || exists i :: 0 <= i < |acts| && acts[i].Ask? && Steers(moments[i], acts[i].query, acts[i].upstream)
                             && !Refused(moments[i].book.refusals)
                                 && answer == ToldNow(moments[i], acts[i].query, acts[i].upstream)
    decreases |acts|
  {
    if acts != [] {
      var n := |acts| - 1;
      assert forall i :: 0 <= i < n ==> acts[..n][i] == acts[i];
      EveryAnswerIsTold(moments[..|acts|], acts[..n], answer);
      NextTells(moments[n], acts[n], moments[n + 1]);
    }
  }

  lemma AnswerKeepsOthers(book: Book, name: Name, setName: Option<string>, answer: seq<RRset>, now: int)
    ensures var next := AfterAnswer(book, name, setName, answer, now);
            && book.history <= next.history && book.told <= next.told && (Calm(book.refusals) ==> Calm(next.refusals))
            && forall n :: n in book.given && n != name ==> n in next.given && next.given[n] == book.given[n]
  {
  }

  /** The index has this name with this set, so its names go there. */
  ghost predicate Stored(sets: map<Name, string>, name: Name, setName: string) {
    name in sets && sets[name] == setName
  }

  lemma {:induction false} JoinedKeepsStored(sets: map<Name, string>, cnames: seq<(Name, Name)>, targets: seq<Name>,
                                             joins: string, site: Name, name: Name, setName: string)
    requires Stored(sets, name, setName) && |name| >= 2
    ensures Stored(Joined(sets, cnames, targets, joins, site).0, name, setName)
    decreases targets
  {
    if targets != [] {
      if Matched(sets, targets[0]).Some? {
        JoinedKeepsStored(sets, cnames, targets[1..], joins, site, name, setName);
      } else {
        assert Normal(targets[0]) != name;
        JoinedKeepsStored(sets[Normal(targets[0]) := joins], Put(cnames, targets[0], site), targets[1..], joins, site,
            name, setName);
      }
    }
  }

  /** The name itself is learned or unlearned, or a new index is built. */
  predicate Moves(act: Act, name: Name) {
    act.NewRules? || act.NewLists? || ((act.Follow? || act.Leave?) && Normal(act.name) == name)
  }

  lemma NextKeepsStored(before: Moment, act: Act, after: Moment, name: Name, setName: string)
    requires Next(before, act, after) && Stored(before.sets, name, setName) && |name| >= 2 && !Moves(act, name)
    ensures Stored(after.sets, name, setName)
  {
    hide Joined, AfterQuery, AfterLearn, Reloaded;
    if act.Ask? && Answers(before.sets, act.query, act.upstream) {
      var asked := AskedName(act.query).value;
      if Matched(before.sets, asked).Some? {
        JoinedKeepsStored(before.sets, before.cnames, Targets(act.upstream.value), Matched(before.sets, asked).value,
            asked, name, setName);
      }
    }
  }

  lemma {:induction false} RunKeepsStored(moments: seq<Moment>, acts: seq<Act>, name: Name, setName: string)
    requires IsRun(moments, acts) && Stored(moments[0].sets, name, setName) && |name| >= 2
    requires forall act :: act in acts ==> !Moves(act, name)
    ensures Stored(moments[|acts|].sets, name, setName)
    decreases |acts|
  {
    if acts != [] {
      hide Next, Stored, Moves;
      var n := |acts| - 1;
      assert forall i :: 0 <= i < n ==> acts[..n][i] == acts[i];
      RunKeepsStored(moments[..|acts|], acts[..n], name, setName);
      NextKeepsStored(moments[n], acts[n], moments[n + 1], name, setName);
    }
  }

  /** The owner's choice over a run: a name of the owner is under the owner's rule from a reload on, through queries,
      other names that are learned and rebuilt tables, exactly when the reload gave it to that rule, that is, when the last
      follower that carries the name to a rule carries it to that one. */
  lemma OwnersChoiceHolds(config: Config, fetched: map<string, seq<Name>>, rule: DomainRule, name: Name,
                          cnames: seq<(Name, Name)>, learned: seq<(Name, Name)>, moments: seq<Moment>, acts: seq<Act>)
    requires config.routing.Some? && UniqueNames(config.routing.value)
    requires rule in config.routing.value.domains && name in rule.Names()
    requires IsRun(moments, acts) && moments[0].sets == Rejoined(Rejoined(ConfigIndex(config, fetched), cnames), learned)
    requires forall act :: act in acts ==> !Moves(act, name)
    ensures var index, followers := ConfigIndex(config, fetched), cnames + learned;
            var taker := LastTaker(index, followers, name, |followers|);
            Matched(moments[|acts|].sets, name) == Some(ChannelSet(rule.channel))
            <==> (taker.Some? ==> SiteRule(index, followers, taker.value) == Some(ChannelSet(rule.channel)))
  {
    hide Next, SiteRule, LastTaker, ChannelSet, ConfigIndex;
    OwnerBeatsLists(config, fetched, rule, name);
    DomainIsNormal(name);
    OwnerKeepsIff(config, fetched, rule, name, cnames, learned);
    StaysInIndex(ConfigIndex(config, fetched), cnames, learned, name);
    RunKeepsStored(moments, acts, name, moments[0].sets[name]);
  }

  lemma {:induction false} StaysStored(sets: map<Name, string>, followers: seq<(Name, Name)>, name: Name)
    requires name in sets
    ensures name in Rejoined(sets, followers)
    decreases followers
  {
    if followers != [] {
      var setName := Matched(sets, followers[0].1);
      StaysStored(if setName.Some? then sets[Normal(followers[0].0) := setName.value] else sets, followers[1..], name);
    }
  }

  lemma StaysInIndex(sets: map<Name, string>, cnames: seq<(Name, Name)>, learned: seq<(Name, Name)>, name: Name)
    requires name in sets
    ensures name in Rejoined(Rejoined(sets, cnames), learned)
  {
    StaysStored(sets, cnames, name);
    StaysStored(Rejoined(sets, cnames), learned, name);
  }

  // ---- the resolver --------------------------------------------------------------------------------

  class Resolver {
    var index: RuleIndex
    var recent: Recent
    var cnames: seq<(Name, Name)>         // CNAME target, the name that led to it
    var learned: seq<(Name, Name)>        // CDN, the site it follows
    var lists: map<string, seq<Name>>
    var now: int                          // the monotonic clock, in milliseconds
    ghost var config: Config              // the configuration the router declared its sets for
    ghost var elements: Elements          // the timed sets of the kernel
    ghost var history: History            // what happened to them
    var refusals: seq<bool>               // which of the coming fills nft refuses; behind the end it refuses none
    ghost var given: map<Name, Given>     // the last answers that were given under a rule
    ghost var told: seq<(Name, Given)>    // every answer that was ever given under a rule

    ghost predicate Valid()
      reads this, index
    {
      && IsDict(recent) && |recent| <= RECENT_ANSWERS && IsDict(cnames) && IsDict(learned)
      && elements == ElementsOf(history)
      && Recorded(history, recent, given)
      && AllTold(history, told, given)
      && Declared(index.sets, SmartSetNames(config))
    }

    constructor (config: Config, refusals: seq<bool>)
      ensures Valid() && fresh(index) && index.sets == ConfigIndex(config, map[]) && this.config == config
      ensures this.refusals == refusals && told == [] && now == 0
      ensures recent == [] && cnames == [] && learned == [] && lists == map[] && history == [] && given == map[]
    {
      index := new RuleIndex.FromConfig(config, map[]);
      recent, cnames, learned, lists, now := [], [], [], map[], 0;
      this.config := config;
      this.refusals := refusals;
      elements, history, given, told := map[], [], map[], [];
      new;
      ConfigIndexDeclared(config, map[]);
    }

    lemma ValidIs()
      ensures Valid() <==>
                && IsDict(recent) && |recent| <= RECENT_ANSWERS && IsDict(cnames) && IsDict(learned)
                && elements == ElementsOf(history) && Recorded(history, recent, given) && AllTold(history, told, given)
                && Declared(index.sets, SmartSetNames(config))
    {
    }

    /** What the resolver knows of its answers. */
    ghost function Records(): Book
      reads this
    {
      Book(recent, history, refusals, given, told)
    }

    ghost function State(): Moment
      reads this, index
    {
      Moment(index.sets, cnames, learned, lists, now, Records())
    }

    method Wait(milliseconds: nat)
      requires Valid()
      modifies this`now
      ensures Valid() && now == old(now) + milliseconds
    {
      now := now + milliseconds;
    }

    /** One nft transaction for the addresses of `name`; refused whole or carried out whole. */
    method FillSet(ghost name: Name, setName: string, wanted: set<Address>, seconds: nat) returns (ok: bool)
      requires Valid()
      requires name in given ==> wanted == given[name].addresses && given[name].until <= Deadline(seconds, now)
      modifies this`elements, this`history, this`refusals
      ensures Valid() && ok == !Refused(old(refusals)) && refusals == Coming(old(refusals))
      ensures history == old(history) + if ok then [Filling(name, setName, wanted, Deadline(seconds, now))] else []
    {
      hide *;
      ValidIs();
      ok := !Refused(refusals);
      refusals := Coming(refusals);
      if ok {
        ghost var event := Filling(name, setName, wanted, Deadline(seconds, now));
        FillRecorded(history, event, recent, given);
        ToldStays(history, event, told, given);
        ElementsNext(history, event);
        elements := Renewed(elements, setName, wanted, Deadline(seconds, now));
        history := history + [event];
      }
      ValidIs();
    }

    /** `_fill`. */
    method Fill(name: Name, setName: string) returns (ok: bool)
      requires Valid()
      modifies this`elements, this`history, this`refusals
      ensures Valid() && ok == !(Refills(recent, name, now) && Refused(old(refusals)))
      ensures refusals == if Refills(recent, name, now) then Coming(old(refusals)) else old(refusals)
      ensures history == old(history) + if ok then RefillOf(recent, name, setName, now) else []
    {
      ok := true;
      var remembered := Get(recent, name);
      if remembered.None? {
        return;
      }
      var left := Left(remembered.value.expires, now);
      var wanted := Steerable(remembered.value.addresses);
      if left > 0 && wanted != {} {
        MarginCovers(remembered.value.expires, now);
        ok := FillSet(name, setName, wanted, left);
      }
    }

    /** `_remember`: only an answer with addresses is remembered, with its TTL capped. */
    method Remember(name: Name, addresses: seq<Address>, ttl: Option<nat>)
      requires Valid()
      modifies this`recent, this`given
      ensures Valid()
      ensures recent == RememberedWith(old(recent), name, addresses, ttl, now)
      ensures given == if addresses == [] || ttl.None? then old(given) else old(given) - {name}
      ensures addresses != [] && ttl.Some? ==>
                Get(recent, name) == Some(Remembered(addresses, Until(Min(ttl.value, MAX_ANSWER_TTL), now)))
    {
      if addresses == [] || ttl.None? {
        return;
      }
      var remembered := Remembered(addresses, Until(Min(ttl.value, MAX_ANSWER_TTL), now));
      hide *;
      ValidIs();
      RememberedIs(recent, name, addresses, ttl.value, now);
      PutRecorded(history, recent, given, name, remembered);
      ToldWithout(history, told, given, name);
      given := given - {name};
      recent := Trim(PutLast(recent, name, remembered));
      ValidIs();
    }

    /** A CNAME target that no rule matched follows the site exactly; nobody else moves. */
    method JoinTargets(targets: seq<Name>, setName: string, site: Name)
      requires IsDict(cnames) && setName in SmartSetNames(config) && Declared(index.sets, SmartSetNames(config))
      modifies this`cnames, index
      ensures IsDict(cnames) && Declared(index.sets, SmartSetNames(config))
      ensures (index.sets, cnames) == Joined(old(index.sets), old(cnames), targets, setName, site)
      ensures Follows(old(index.sets), index.sets, setName)
      ensures AllMatched(index.sets, targets)
    {
      JoinNobody(index.sets, setName);
      assert targets[0..] == targets && targets[..0] == [];
      for i := 0 to |targets|
        invariant IsDict(cnames) && Declared(index.sets, SmartSetNames(config))
        invariant Joined(index.sets, cnames, targets[i..], setName, site)
               == Joined(old(index.sets), old(cnames), targets, setName, site)
        invariant Follows(old(index.sets), index.sets, setName)
        invariant AllMatched(index.sets, targets[..i])
      {
        hide Follows, AllMatched, Joined, Matched, Put, IsDict, Declared;
        JoinStep(index.sets, cnames, targets, i, setName, site);
        var found := index.Match(targets[i]);
        if found.None? {
          JoinFollows(old(index.sets), index.sets, targets[i], setName);
          StaysDeclared(index.sets, Normal(targets[i]), setName, SmartSetNames(config));
          index.Add(targets[i], setName);
          PutIsDict(cnames, targets[i], site);
          cnames := Put(cnames, targets[i], site);
        }
      }
      assert targets[..|targets|] == targets && targets[|targets|..] == [];
    }

    method JoinUnder(targets: seq<Name>, setName: string, site: Name)
      requires Valid() && setName in SmartSetNames(config)
      modifies this`cnames, index
      ensures Valid()
      ensures (index.sets, cnames) == Joined(old(index.sets), old(cnames), targets, setName, site)
      ensures Follows(old(index.sets), index.sets, setName)
    {
      hide Follows, Joined, Recorded, AllTold, Declared, IsDict;
      JoinTargets(targets, setName, site);
    }

    /** The fill of an answer that is about to be given. */
    method FillAnswer(qname: Name, setName: string, wanted: set<Address>, ttl: nat) returns (ok: bool)
      requires Valid() && qname !in given && wanted != {}
      requires Linked(recent, qname, Given(setName, wanted, Until(ttl, now), |history|))
      modifies this`elements, this`history, this`refusals, this`given, this`told
      ensures Valid() && ok == !Refused(old(refusals)) && refusals == Coming(old(refusals))
      ensures history == old(history) + if ok then [Filling(qname, setName, wanted, Deadline(ttl, now))] else []
      ensures var answer := Given(setName, wanted, Until(ttl, now), |old(history)|);
              if ok then given == old(given)[qname := answer] && told == old(told) + [(qname, answer)]
              else given == old(given) && told == old(told)
    {
      hide *;
      ValidIs();
      ghost var before := history;
      TtlEndsFirst(ttl, now);
      ok := FillSet(qname, setName, wanted, ttl);
      ValidIs();
      if ok {
        GivenRecorded(before, recent, given, qname, setName, wanted, Until(ttl, now), Deadline(ttl, now));
        NewFill(before, qname, setName, wanted, Until(ttl, now), Deadline(ttl, now));
        ghost var answer := Given(setName, wanted, Until(ttl, now), |before|);
        NowTold(history, told, given, qname, answer);
        given, told := given[qname := answer], told + [(qname, answer)];
      }
      ValidIs();
    }

    /** `resolve` for a name under a rule: the addresses are in its set before the answer is given. */
    method AnswerUnderRule(qname: Name, setName: string, answer: seq<RRset>, targets: seq<Name>)
      returns (response: Response)
      requires Valid() && setName in SmartSetNames(config)
      requires Addresses(answer) != [] ==> qname !in given && Get(recent, qname) == Some(AnswerOf(answer, now))
      modifies this`cnames, this`elements, this`history, this`refusals, this`given, this`told, index
      ensures Valid()
      ensures (index.sets, cnames) == Joined(old(index.sets), old(cnames), targets, setName, qname)
      ensures Follows(old(index.sets), index.sets, setName)
      ensures response == Failed <==> Steerable(Addresses(answer)) != {} && Refused(old(refusals))
      ensures refusals == if Steerable(Addresses(answer)) != {} then Coming(old(refusals)) else old(refusals)
      ensures response != Failed ==> response.Answer? && Served(answer, response.rrsets, true)
      ensures response == Failed || Steerable(Addresses(answer)) == {} ==>
                history == old(history) && given == old(given) && told == old(told)
      ensures response != Failed && Steerable(Addresses(answer)) != {} ==>
                && Lowest(response.rrsets) == Some(TtlOf(answer))
                && history == old(history) + [AnswerFill(qname, setName, answer, now)]
                && given == old(given)[qname := AnswerGiven(setName, answer, now, |old(history)|)]
                && told == old(told) + [(qname, AnswerGiven(setName, answer, now, |old(history)|))]
    {
      hide *;
      JoinUnder(targets, setName, qname);
      var capped, ttl := CapTtl(answer, MAX_ANSWER_TTL);
      CappedIsServed(answer, capped);
      AnswerIs(recent, qname, setName, answer, ttl, now, |history|);
      var wanted := Steerable(Addresses(answer));
      if wanted != {} && ttl.Some? {
        var ok := FillAnswer(qname, setName, wanted, ttl.value);
        if !ok {
          return Failed;
        }
      }
      response := Answer(capped);
    }

    /** `resolve` once upstream answered. */
    method ResolveAnswer(qname: Name, answer: seq<RRset>) returns (response: Response)
      requires Valid()
      modifies this`recent, this`cnames, this`elements, this`history, this`refusals, this`given, this`told, index
      ensures Valid()
      ensures Records() == AfterAnswer(old(Records()), qname, Matched(old(index.sets), qname), answer, now)
      ensures var setName := Matched(old(index.sets), qname);
              if setName.Some? then
                && (index.sets, cnames) == Joined(old(index.sets), old(cnames), Targets(answer), setName.value, qname)
                && Follows(old(index.sets), index.sets, setName.value)
              else index.sets == old(index.sets) && cnames == old(cnames)
      ensures var steered := Matched(old(index.sets), qname).Some? && Steerable(Addresses(answer)) != {};
              && (response == Failed <==> steered && Refused(old(refusals)))
              && (response != Failed ==>
                  response.Answer? && Served(answer, response.rrsets, Matched(old(index.sets), qname).Some?))
              && (response != Failed && steered ==> Lowest(response.rrsets) == Some(TtlOf(answer)))
    {
      hide Valid, Follows, Joined, Longest, Normal, RememberedWith, AnswerFill, AnswerGiven, Addresses, Targets,
           Lowest, Steerable;
      ValidIs();
      var addresses, targets, lowest := AnswerFacts(answer);
      HasTtl(answer);
      Remember(qname, addresses, lowest);
      var setName := index.Match(qname);
      if setName.None? {
        return Answer(answer);
      }
      MatchedDeclared(index.sets, Normal(qname), SmartSetNames(config));
      response := AnswerUnderRule(qname, setName.value, answer, targets);
    }

    /** `resolve`. `upstream` is what the DoH exchange answered, None when it raised. */
    method Resolve(query: Query, upstream: Option<seq<RRset>>) returns (response: Response)
      requires Valid()
      modifies this`recent, this`cnames, this`elements, this`history, this`refusals, this`given, this`told, index
      ensures Valid()
      // an IPv6 query for a steered name, and no other, is answered with nothing; what upstream said is passed on
      ensures response == Empty <==>
                query.ipv6 && query.name.Some?
                    && Matched(old(index.sets), AskedName(query).value) !in {None, Some("smart_direct")}
      ensures response.Answer? ==>
                && upstream.Some?
                && Served(upstream.value, response.rrsets,
                          query.name.Some? && Matched(old(index.sets), AskedName(query).value).Some?)
      // what was answered is remembered, filled, recorded; or nothing happened
      ensures Records() == AfterQuery(old(Records()), old(index.sets), query, upstream, now)
      // CNAME targets join the rule of the site, and nobody under a rule moves because of them
      ensures var name := AskedName(query);
              var setName := if name.Some? then Matched(old(index.sets), name.value) else None;
              if Answers(old(index.sets), query, upstream) && setName.Some? then
                && (index.sets, cnames)
                    == Joined(old(index.sets), old(cnames), Targets(upstream.value), setName.value, name.value)
                && Follows(old(index.sets), index.sets, setName.value)
              else index.sets == old(index.sets) && cnames == old(cnames)
      // an answer with addresses under a rule is given after they are in the set, with the TTL it is remembered with
      ensures var steered := Steers(old(State()), query, upstream);
              && (response == Failed <==>
                  !Withheld(old(index.sets), query) && (upstream.None? || (steered && Refused(old(refusals)))))
              && (steered && response.Answer? ==> Lowest(response.rrsets) == Some(TtlOf(upstream.value)))
    {
      hide Recorded, AllTold, Declared, AfterAnswer, Follows, Joined, Longest, Steerable;
      var qname := AskedName(query);
      if qname.Some? && query.ipv6 {
        var found := index.Match(qname.value);
        if found != None && found != Some(DIRECT_SET) {
          return Empty;
        }
      }
      if upstream.None? {
        return Failed;
      }
      if qname.None? {
        return Answer(upstream.value);
      }
      response := ResolveAnswer(qname.value, upstream.value);
    }

    /** `learn`: a CDN follows its site, and what the resolver saw for it lately goes into the set of the site. */
    method Learn(name: Name, parent: Name) returns (follows: bool, filled: bool)
      requires Valid()
      modifies this`learned, this`elements, this`history, this`refusals, index
      ensures Valid()
      ensures follows == Matched(old(index.sets), parent).Some?
      ensures !follows ==> index.sets == old(index.sets) && learned == old(learned) && history == old(history)
      ensures follows ==>
                && index.sets == old(index.sets)[Normal(name) := Matched(old(index.sets), parent).value]
                && learned == Put(old(learned), name, parent)
                && history == old(history)
                    + (if filled then RefillOf(recent, name, Matched(old(index.sets), parent).value, now) else [])
      ensures filled == !(follows && Refills(recent, name, now) && Refused(old(refusals)))
      ensures refusals == if follows && Refills(recent, name, now) then Coming(old(refusals)) else old(refusals)
    {
      var setName := index.Match(parent);
      if setName.None? {
        return false, true;
      }
      MatchedDeclared(index.sets, Normal(parent), SmartSetNames(config));
      index.Add(name, setName.value);
      PutIsDict(learned, name, parent);
      learned := Put(learned, name, parent);
      filled := Fill(name, setName.value);
      follows := true;
    }

    /** `unlearn`: the name goes direct again; its addresses stay until their timeout runs out. */
    method Unlearn(name: Name)
      requires Valid()
      modifies this`learned, index
      ensures Valid()
      ensures learned == Dicts.Remove(old(learned), name)
      ensures index.sets == if Get(old(learned), name).Some? then old(index.sets) - {Normal(name)} else old(index.sets)
    {
      var known := Get(learned, name);
      RemoveIsDict(learned, name);
      if known.Some? {
        learned := Dicts.Remove(learned, name);
        index.Remove(name);
      } else {
        RemoveAbsent(learned, name);
      }
    }

    lemma RecordedBefore()
      requires Valid()
      ensures forall n :: n in given ==> given[n].place < |history|
    {
      hide IsDict, AllTold, Declared, ElementsOf;
    }

    /** `replay`; it stops where nft refuses a fill. */
    method Replay() returns (ok: bool)
      requires Valid()
      modifies this`elements, this`history, this`refusals
      ensures Valid() && old(history) <= history
      ensures Calm(old(refusals)) ==> ok && Calm(refusals)
      ensures ok ==> history == old(history) + ReplayFills(Keys(recent), recent, index.sets, now) + [Replayed(now, index.sets)]
    {
      hide *;
      ghost var before := history;
      RecordedBefore();
      ok := ReplayEach(Keys(recent));
      if ok {
        ghost var fills := ReplayFills(Keys(recent), recent, index.sets, now);
        ValidIs();
        ReplayRecorded(before, fills, recent, given, now, index.sets);
        ToldStays(history, Replayed(now, index.sets), told, given);
        ElementsStay(history, Replayed(now, index.sets));
        history := history + [Replayed(now, index.sets)];
        ValidIs();
      }
    }

    method ReplayEach(names: seq<Name>) returns (ok: bool)
      requires Valid()
      modifies this`elements, this`history, this`refusals
      ensures Valid() && old(history) <= history
      ensures Calm(old(refusals)) ==> ok && Calm(refusals)
      ensures ok ==> history == old(history) + ReplayFills(names, recent, index.sets, now)
    {
      hide FillsFor, Recorded;
      ok := true;
      for i := 0 to |names|
        invariant Valid() && history == old(history) + ReplayFills(names[..i], recent, index.sets, now)
        invariant Calm(old(refusals)) ==> Calm(refusals)
      {
        ReplayNext(names, i, recent, index.sets, now);
        ghost var before := ReplayFills(names[..i], recent, index.sets, now);
        Associates(old(history), before, FillsFor(recent, names[i], index.sets, now));
        ok := FillFor(names[i]);
        if !ok {
          return;
        }
      }
      assert names[..|names|] == names;
    }

    method FillFor(name: Name) returns (ok: bool)
      requires Valid()
      modifies this`elements, this`history, this`refusals
      ensures Valid() && old(history) <= history
      ensures Calm(old(refusals)) ==> ok && Calm(refusals)
      ensures ok ==> history == old(history) + FillsFor(recent, name, index.sets, now)
    {
      ok := true;
      var setName := index.Match(name);
      if setName.Some? {
        ok := Fill(name, setName.value);
      }
    }

    /** CNAME targets follow their site again. */
    method RejoinTargets()
      modifies index
      ensures index.sets == Rejoined(old(index.sets), cnames)
    {
      for i := 0 to |cnames|
        invariant Rejoined(index.sets, cnames[i..]) == Rejoined(old(index.sets), cnames)
      {
        assert cnames[i..][1..] == cnames[i + 1..] && cnames[i..][0] == cnames[i];
        var setName := index.Match(cnames[i].1);
        if setName.Some? {
          index.Add(cnames[i].0, setName.value);
        }
      }
      assert cnames[|cnames|..] == [];
    }

    /** Learned names follow their site again; the others are forgotten. */
    method RejoinLearned()
      modifies index, this`learned
      ensures index.sets == Rejoined(old(index.sets), old(learned))
      ensures learned == StillLearned(old(index.sets), old(learned))
    {
      var names := learned;
      var kept: seq<(Name, Name)> := [];
      for i := 0 to |names|
        invariant Rejoined(index.sets, names[i..]) == Rejoined(old(index.sets), names)
        invariant kept + StillLearned(index.sets, names[i..]) == StillLearned(old(index.sets), names)
      {
        assert names[i..][1..] == names[i + 1..] && names[i..][0] == names[i];
        var setName := index.Match(names[i].1);
        if setName.Some? {
          index.Add(names[i].0, setName.value);
          kept := kept + [names[i]];
        }
      }
      assert names[|names|..] == [] && kept + [] == kept;
      learned := kept;
    }

    /** `reload`. */
    method Reload(newConfig: Config) returns (ok: bool)
      requires Valid()
      modifies this`index, this`config, this`learned, this`elements, this`history, this`refusals
      ensures Valid() && fresh(index) && config == newConfig
      ensures var sites := Rejoined(ConfigIndex(config, lists), cnames);
              && index.sets == Rejoined(sites, old(learned))
              && learned == StillLearned(sites, old(learned))
      ensures old(history) <= history && (Calm(old(refusals)) ==> ok && Calm(refusals))
      ensures ok ==> history == old(history) + ReplayFills(Keys(recent), recent, index.sets, now) + [Replayed(now, index.sets)]
    {
      hide *;
      ValidIs();
      config := newConfig;
      index := new RuleIndex.FromConfig(newConfig, lists);
      ghost var first := index.sets;
      RejoinTargets();
      ghost var sites := index.sets;
      RejoinLearned();
      ConfigIndexDeclared(newConfig, lists);
      RejoinedDeclared(first, cnames, SmartSetNames(newConfig));
      RejoinedDeclared(sites, old(learned), SmartSetNames(newConfig));
      StillLearnedIsDict(sites, old(learned));
      ValidIs();
      ok := Replay();
    }

    /** `set_lists`. */
    method SetLists(newConfig: Config, newLists: map<string, seq<Name>>) returns (ok: bool)
      requires Valid()
      modifies this`lists, this`index, this`config, this`learned, this`elements, this`history, this`refusals
      ensures Valid() && fresh(index) && config == newConfig && lists == newLists
      ensures var sites := Rejoined(ConfigIndex(config, newLists), cnames);
              && index.sets == Rejoined(sites, old(learned))
              && learned == StillLearned(sites, old(learned))
      ensures old(history) <= history && (Calm(old(refusals)) ==> ok && Calm(refusals))
      ensures ok ==> history == old(history) + ReplayFills(Keys(recent), recent, index.sets, now) + [Replayed(now, index.sets)]
    {
      lists := newLists;
      ok := Reload(newConfig);
    }

    /** The router loads its table again: every set of the kernel is empty. */
    ghost method TableRebuilt()
      requires Valid()
      modifies this`elements, this`history
      ensures Valid() && elements == map[] && history == old(history) + [Rebuilt]
    {
      RebuildRecorded(history, recent, given);
      ToldStays(history, Rebuilt, told, given);
      elements, history := map[], history + [Rebuilt];
    }

    /** One step of a run. */
    method Do(act: Act)
      requires Valid()
      modifies this, index
      ensures Valid() && (index == old(index) || fresh(index))
      ensures Next(old(State()), act, State())
      ensures old(history) <= history && old(told) <= told && (Calm(old(refusals)) ==> Calm(refusals))
      ensures forall n :: n in old(given) && !Renews(act, n) ==> n in given && given[n] == old(given)[n]
    {
      ghost var before := State();
      Step(act);
      NextKeeps(before, act, State());
      hide Next, Valid;
    }

    method Asks(query: Query, upstream: Option<seq<RRset>>)
      requires Valid()
      modifies this`recent, this`cnames, this`elements, this`history, this`refusals, this`given, this`told, index
      ensures Valid() && Next(old(State()), Ask(query, upstream), State())
    {
      hide AfterQuery, Joined, Valid, Longest, Withheld, Steerable;
      var _ := Resolve(query, upstream);
    }

    method LearnsFrom(name: Name, site: Name)
      requires Valid()
      modifies this`learned, this`elements, this`history, this`refusals, index
      ensures Valid() && Next(old(State()), Follow(name, site), State())
    {
      hide AfterLearn, Valid, Longest, Refills, RefillOf, Put, Normal;
      ghost var book, sets := Records(), index.sets;
      var follows, filled := Learn(name, site);
      LearnIs(book, sets, name, site, now, filled, Records());
    }

    method Step(act: Act)
      requires Valid()
      modifies this, index
      ensures Valid() && (index == old(index) || fresh(index))
      ensures Next(old(State()), act, State())
    {
      hide Recorded, AllTold, Declared, AfterAnswer, AfterLearn, Rejoined, StillLearned, ReplayFills, RefillOf,
           ConfigIndex, Matched, Joined,
           Calm, IsDict, Steers, Valid, Withheld, Refills;
      match act
      case Wait(milliseconds) => Wait(milliseconds);
      case Ask(query, upstream) => Asks(query, upstream);
      case Follow(name, site) => LearnsFrom(name, site);
      case Leave(name) => Unlearn(name);
      case NewRules(newConfig) => var _ := Reload(newConfig);
      case NewLists(newConfig, newLists) => var _ := SetLists(newConfig, newLists);
      case NewTable => TableRebuilt();
    }

    /** Any run: queries, learned names, new rules and lists, rebuilt tables, refused fills, time passing. Every answer
        that was ever given under a rule is on record, and is in that rule's set until it may no longer be cached, while no
        table was rebuilt and no fill took time away since. The last answer of a name is so even over rebuilt tables and
        refused fills: while the name is remembered, the last rebuild was followed by a replay that reached it, and no other
        name took time away behind its own last fill. Answers of a name nobody asks again stay what they were. */
    method Live(acts: seq<Act>) returns (ghost moments: seq<Moment>)
      requires Valid()
      modifies this, index
      ensures Valid() && (index == old(index) || fresh(index))
      ensures IsRun(moments, acts) && moments[0] == old(State()) && moments[|acts|] == State()
      ensures forall i :: 0 <= i < |acts| && acts[i].Ask? && Steers(moments[i], acts[i].query, acts[i].upstream)
                          && !Refused(moments[i].book.refusals) ==>
                ToldNow(moments[i], acts[i].query, acts[i].upstream) in told
      ensures old(told) <= told && forall t :: t in told && LeftAlone(history, t.1) ==> Kept(elements, t.1.Promised())
      ensures forall n :: n in given && Get(recent, n).Some?
                          && Replenished(history, n, given[n]) && Undisturbed(history, n, given[n]) ==>
                Kept(elements, given[n].Promised())
      ensures forall n :: n in old(given) && (forall act :: act in acts ==> !Renews(act, n)) ==>
                n in given && given[n] == old(given)[n]
    {
      moments := [State()];
      for i := 0 to |acts|
        invariant Valid() && old(told) <= told && (index == old(index) || fresh(index))
        invariant IsRun(moments, acts[..i]) && moments[0] == old(State()) && moments[i] == State()
        invariant forall n :: n in old(given) && (forall act :: act in acts ==> !Renews(act, n)) ==>
                    n in given && given[n] == old(given)[n]
      {
        hide Recorded, AllTold, Declared, Renews, IsRun, Next, State, Valid;
        assert acts[i] in acts;
        ghost var before := State();
        Do(acts[i]);
        MomentsGrow(moments, acts, i, before, State());
        moments := moments + [State()];
      }
      hide Recorded, AllTold, Declared, Next, IsRun;
      assert acts[..|acts|] == acts;
      RunTells(moments, acts);
      PromisesHold();
    }

    /** What the record says of the sets. */
    lemma PromisesHold()
      requires Valid()
      ensures forall t :: t in told && LeftAlone(history, t.1) ==> Kept(elements, t.1.Promised())
      ensures forall n :: n in given && Get(recent, n).Some?
                          && Replenished(history, n, given[n]) && Undisturbed(history, n, given[n]) ==>
                Kept(elements, given[n].Promised())
    {
      hide LeftAlone, Recorded, AllTold, Declared, Replenished, Undisturbed, IsDict, Get;
      forall t | t in told && LeftAlone(history, t.1) ensures Kept(elements, t.1.Promised()) {
        ToldIsKept(history, told, given, t);
      }
      forall n | n in given && Get(recent, n).Some?
                 && Replenished(history, n, given[n]) && Undisturbed(history, n, given[n])
        ensures Kept(elements, given[n].Promised())
      {
        AnswerOutlivesCache(history, recent, given, n);
      }
    }
  }

  // ---- an answer under a rule ----------------------------------------------------------------------

  /** The TTL an answer is given and remembered with. */
  function TtlOf(answer: seq<RRset>): nat {
    if Lowest(answer).None? then 0 else Min(Lowest(answer).value, MAX_ANSWER_TTL)
  }

  function AnswerOf(answer: seq<RRset>, now: int): Remembered {
    Remembered(Addresses(answer), Until(TtlOf(answer), now))
  }

  function AnswerFill(name: Name, setName: string, answer: seq<RRset>, now: int): Event {
    Filling(name, setName, Steerable(Addresses(answer)), Deadline(TtlOf(answer), now))
  }

  function AnswerGiven(setName: string, answer: seq<RRset>, now: int, place: nat): Given {
    Given(setName, Steerable(Addresses(answer)), Until(TtlOf(answer), now), place)
  }

  /** The fill of an answer and its record, from its capped TTL. */
  lemma AnswerIs(recent: Recent, name: Name, setName: string, answer: seq<RRset>, ttl: Option<nat>, now: int, place: nat)
    requires ttl == if answer == [] then None else Some(Min(Lowest(answer).value, MAX_ANSWER_TTL))
    ensures ttl.None? ==> Steerable(Addresses(answer)) == {}
    ensures ttl.Some? ==>
              var wanted := Steerable(Addresses(answer));
              && ttl.value == TtlOf(answer)
                  && Filling(name, setName, wanted, Deadline(ttl.value, now)) == AnswerFill(name, setName, answer, now)
              && Given(setName, wanted, Until(ttl.value, now), place) == AnswerGiven(setName, answer, now, place)
              && (Get(recent, name) == Some(AnswerOf(answer, now)) ==>
                  Linked(recent, name, AnswerGiven(setName, answer, now, place)))
    ensures Addresses(answer) == [] ==> Steerable(Addresses(answer)) == {}
  {
    hide Deadline, Until;
  }

  lemma TtlEndsFirst(ttl: nat, now: int)
    ensures Until(ttl, now) <= Deadline(ttl, now)
  {
  }

  lemma HasTtl(answer: seq<RRset>)
    ensures Addresses(answer) != [] ==> Lowest(answer).Some?
  {
  }

  /** What was under a rule stays there; the names that joined one joined this one. */
  ghost predicate Follows(before: map<Name, string>, after: map<Name, string>, setName: string) {
    && (forall n :: Matched(before, n).Some? ==> Matched(after, n) == Matched(before, n))
    && (forall n :: Matched(before, n).None? ==> Matched(after, n) in {None, Some(setName)})
  }

  /** Every name of two labels is under a rule. */
  ghost predicate AllMatched(sets: map<Name, string>, names: seq<Name>) {
    forall t :: t in names && |Normal(t)| >= 2 ==> Matched(sets, t).Some?
  }

  lemma JoinNobody(sets: map<Name, string>, setName: string)
    ensures Follows(sets, sets, setName)
  {
  }

  lemma StaysDeclared(sets: map<Name, string>, target: Name, setName: string, declared: set<string>)
    requires Declared(sets, declared) && setName in declared
    ensures Declared(sets[target := setName], declared)
  {
  }

  lemma JoinFollows(first: map<Name, string>, before: map<Name, string>, target: Name, setName: string)
    requires Follows(first, before, setName)
    ensures Matched(before, target).None? ==> Follows(first, before[Normal(target) := setName], setName)
  {
    if Matched(before, target).None? {
      forall n
        ensures Matched(before, n).Some? ==> Matched(before[Normal(target) := setName], n) == Matched(before, n)
        ensures Matched(before, n).None? ==> Matched(before[Normal(target) := setName], n) in {None, Some(setName)}
      {
        AddUnmatchedMovesNobody(before, Normal(target), setName, Normal(n));
      }
    }
  }

  /** One target's turn. */
  lemma JoinStep(sets: map<Name, string>, cnames: seq<(Name, Name)>, targets: seq<Name>, i: nat, setName: string,
                 site: Name)
    requires i < |targets| && AllMatched(sets, targets[..i])
    ensures var next := sets[Normal(targets[i]) := setName];
            if Matched(sets, targets[i]).Some?
            then Joined(sets, cnames, targets[i..], setName, site) == Joined(sets, cnames, targets[i + 1..], setName, site)
                 && AllMatched(sets, targets[..i + 1])
            else Joined(sets, cnames, targets[i..], setName, site)
                 == Joined(next, Put(cnames, targets[i], site), targets[i + 1..], setName, site)
                 && AllMatched(next, targets[..i + 1])
  {
    assert targets[..i + 1] == targets[..i] + [targets[i]];
    assert targets[i..][1..] == targets[i + 1..] && targets[i..][0] == targets[i];
    if Matched(sets, targets[i]).None? {
      forall t | t in targets[..i] && |Normal(t)| >= 2 ensures Matched(sets[Normal(targets[i]) := setName], t).Some? {
        AddKeepsMatched(sets, Normal(targets[i]), setName, Normal(t));
      }
    }
  }

  lemma CappedIsServed(answer: seq<RRset>, capped: seq<RRset>)
    requires |capped| == |answer| && forall i :: 0 <= i < |answer| ==>
               capped[i] == RRset(Min(answer[i].ttl, MAX_ANSWER_TTL), answer[i].data)
    ensures Served(answer, capped, true)
  {
  }

  /** What an answer puts into the set of its rule: every address of its A records that can be steered, until 60 seconds
      behind the end of the lowest TTL, which counts for 300 seconds at most; and what is on record of it: the same
      addresses, until the lowest TTL ends that it is given with. */
  lemma FillIs(name: Name, setName: string, answer: seq<RRset>, now: int, address: Address, place: nat)
    requires answer != []
    ensures var fill := AnswerFill(name, setName, answer, now);
            && AnswerGiven(setName, answer, now, place) == Given(setName, fill.addresses, fill.deadline - 60_000, place)
            && fill.setName == setName
            && (address in fill.addresses <==>
                  IsSteerable(address) && exists r :: r in answer && r.data.A? && address in r.data.addresses)
            && (forall r :: r in answer ==> fill.deadline <= now + (r.ttl + 60) * 1000)
            && fill.deadline <= now + 360_000
            && (fill.deadline == now + 360_000 || exists r :: r in answer && fill.deadline == now + (r.ttl + 60) * 1000)
  {
    FactsAre(answer, address, []);
  }

  /** A second name of the same rule is answered with the same address and a smaller TTL: then the address leaves the set
      before the first answer leaves the caches. */
  method NeighbourShortens(config: Config, rule: DomainRule, first: Name, second: Name, address: Address)
    returns (resolver: Resolver)
    requires config.routing.Some? && UniqueNames(config.routing.value) && rule in config.routing.value.domains
    requires first in rule.Names() && second in rule.Names() && first != second && IsSteerable(address)
    ensures resolver.Valid() && |resolver.told| == 2 && resolver.told[0].0 == first && NoRebuild(resolver.history, 0, 2)
    ensures resolver.told[0].1 == Given(ChannelSet(rule.channel), {address}, 300_000, 0)
    ensures LastEnd(resolver.history, ChannelSet(rule.channel), address) == Some(70_000)
    ensures !Kept(resolver.elements, resolver.told[0].1.Promised())
  {
    OwnerBeatsLists(config, map[], rule, first);
    OwnerBeatsLists(config, map[], rule, second);
    OneAddress(address, 300);
    OneAddress(address, 10);
    resolver := TwoAnswers(config, ChannelSet(rule.channel), first, second, [RRset(300, A([address]))],
        [RRset(10, A([address]))]);
    TwoPromises(ChannelSet(rule.channel), first, second, address);
  }

  const BLANK := Book([], [], [], map[], [])

  method TwoAnswers(config: Config, setName: string, first: Name, second: Name, answer: seq<RRset>, other: seq<RRset>)
    returns (resolver: Resolver)
    requires IsDomain(first) && Matched(ConfigIndex(config, map[]), first) == Some(setName)
    requires IsDomain(second) && Matched(ConfigIndex(config, map[]), second) == Some(setName)
    requires Targets(answer) == []
    ensures resolver.Valid()
    ensures resolver.Records()
              == AfterAnswer(AfterAnswer(BLANK, first, Some(setName), answer, 0), second, Some(setName), other, 0)
  {
    hide AfterAnswer, ConfigIndex, Matched, Recorded, AllTold, Declared;
    DomainIsNormal(first);
    DomainIsNormal(second);
    resolver := new Resolver(config, []);
    var _ := resolver.Resolve(Query(Some(first), false), Some(answer));
    var _ := resolver.Resolve(Query(Some(second), false), Some(other));
  }

  lemma SecondEnds(history: History, setName: string, address: Address)
    requires |history| == 2 && history[1].Filling?
    requires history[1].setName == setName && history[1].addresses == {address} && history[1].deadline == 70_000
    ensures LastEnd(history, setName, address) == Some(70_000)
  {
  }

  lemma TwoPromises(setName: string, first: Name, second: Name, address: Address)
    requires first != second && IsSteerable(address)
    ensures var book := AfterAnswer(AfterAnswer(BLANK, first, Some(setName), [RRset(300, A([address]))], 0),
                                    second, Some(setName), [RRset(10, A([address]))], 0);
            var promised := Given(setName, {address}, 300_000, 0);
            && |book.told| == 2 && book.told[0] == (first, promised) && NoRebuild(book.history, 0, 2)
            && LastEnd(book.history, setName, address) == Some(70_000)
            && !Kept(ElementsOf(book.history), promised.Promised())
  {
    hide RememberedWith, Addresses, Steerable, Lowest, TtlOf, Kept, ElementsOf, LastEnd;
    OneAddress(address, 300);
    OneAddress(address, 10);
    var fills := [Filling(first, setName, {address}, 360_000), Filling(second, setName, {address}, 70_000)];
    var one := AfterAnswer(BLANK, first, Some(setName), [RRset(300, A([address]))], 0);
    assert one.history == [fills[0]] && one.told == [(first, Given(setName, {address}, 300_000, 0))];
    assert AfterAnswer(one, second, Some(setName), [RRset(10, A([address]))], 0).history == fills;
    SecondEnds(fills, setName, address);
    KeptExactly(fills, Given(setName, {address}, 300_000, 0).Promised());
  }

  lemma OneAddress(address: Address, ttl: nat)
    requires IsSteerable(address)
    ensures var answer := [RRset(ttl, A([address]))];
            && Addresses(answer) == [address] && Steerable(Addresses(answer)) == {address} && Targets(answer) == []
            && TtlOf(answer) == Min(ttl, MAX_ANSWER_TTL)
  {
    var answer := [RRset(ttl, A([address]))];
    assert answer[1..] == [] && answer[0].data == A([address]);
    assert Addresses([]) == [] && [address] + [] == [address];
    assert [address][0] == address;
  }

  /** It comes to that: a name is learned to follow a site, the owner then writes a rule for it, and after the reload it
      still goes with the site. */
  method OwnerLosesTheName(before: Config, after: Config, first: DomainRule, siteRule: DomainRule, nameRule: DomainRule,
                           name: Name, site: Name) returns (resolver: Resolver)
    requires Configuration.Valid(before) && first in before.routing.value.domains && site in first.Names()
    requires Configuration.Valid(after) && siteRule in after.routing.value.domains && site in siteRule.Names()
    requires nameRule in after.routing.value.domains && name in nameRule.Names() && siteRule.channel != nameRule.channel
    ensures Matched(ConfigIndex(after, map[]), name) == Some(ChannelSet(nameRule.channel))
    ensures Matched(resolver.index.sets, name) == Some(ChannelSet(siteRule.channel)) != Some(ChannelSet(nameRule.channel))
  {
    OwnerBeatsLists(before, map[], first, site);
    resolver := LearnThenReload(before, after, name, site);
    LearnedBeatsOwner(after, siteRule, nameRule, name, site);
  }

  method LearnThenReload(before: Config, after: Config, name: Name, site: Name) returns (resolver: Resolver)
    requires Matched(ConfigIndex(before, map[]), site).Some?
    ensures resolver.index.sets == Rejoined(ConfigIndex(after, map[]), [(name, site)])
  {
    hide Recorded, AllTold, Declared, ConfigIndex, ReplayFills, RefillOf, StillLearned;
    resolver := new Resolver(before, []);
    var _, _ := resolver.Learn(name, site);
    PutNew(name, site);
    var _ := resolver.Reload(after);
    assert Rejoined(ConfigIndex(after, map[]), []) == ConfigIndex(after, map[]);
  }

  lemma PutNew(name: Name, site: Name)
    ensures Put<Name, Name>([], name, site) == [(name, site)]
  {
  }

  lemma LearnedBeatsOwner(config: Config, siteRule: DomainRule, nameRule: DomainRule, name: Name, site: Name)
    requires Configuration.Valid(config) && siteRule in config.routing.value.domains && site in siteRule.Names()
    requires nameRule in config.routing.value.domains && name in nameRule.Names() && siteRule.channel != nameRule.channel
    ensures Matched(ConfigIndex(config, map[]), name)
              == Some(ChannelSet(nameRule.channel)) != Some(ChannelSet(siteRule.channel))
    ensures Matched(Rejoined(ConfigIndex(config, map[]), [(name, site)]), name) == Some(ChannelSet(siteRule.channel))
  {
    OwnerBeatsLists(config, map[], siteRule, site);
    OwnerBeatsLists(config, map[], nameRule, name);
    assert [(name, site)] + [] == [(name, site)];
    FollowerTakesTheName(ConfigIndex(config, map[]), name, site, []);
    RuleChannelsValid(config);
    ChannelSetInjective(siteRule.channel, nameRule.channel);
  }

  lemma RuleChannelsValid(config: Config)
    requires config.routing.Some? && ValidChannels(config)
    ensures forall rule :: rule in config.routing.value.domains ==> ValidChannel(rule.channel)
  {
    var domains := config.routing.value.domains;
    forall rule | rule in domains ensures ValidChannel(rule.channel) {
      var i :| 0 <= i < |domains| && domains[i] == rule;
      assert config.Channels()[i] == rule.channel;
    }
  }
}
