/** The background loop of routing.mode smart (core/vibedpn/api/smart.py, `SmartLoop`): new records of the query
    log go to the learner, what it learns to the resolver and to the store. */
module SmartLoops {
  import opened Options
  import opened Names
  import opened Dicts
  import opened Commands
  import opened Configuration
  import opened RuleIndexes
  import opened ChannelSets
  import opened Learning
  import opened QueryLogs
  import opened Resolvers
  import Replays

  function RulesOf(config: Config): Rules {
    (name: Name) => RuleOf(config, name)
  }

  /** The stored names, as `names` lists them. */
  type Stored = seq<(Name, Name)>

  /** What the resolver learned, the learner and the store know with the same site. */
  ghost predicate Agree(resolved: seq<(Name, Name)>, learned: map<Name, Name>, stored: Stored, torn: set<Name>) {
    forall n :: Get(resolved, n).Some? && n !in torn ==>
      && n in learned && learned[n] == Get(resolved, n).value
      && Get(stored, n) == Get(resolved, n)
  }

  /** The learner saw nothing later than what was handed on last. */
  ghost predicate HandedOn(seen: Option<int>, history: seq<Event>) {
    history != [] ==> seen.Some? && history[|history| - 1].time <= seen.value
  }

  /** A learned name follows its site in resolver and store when the site is under a rule; an unlearned one leaves both. A
      refused fill or a failed write leaves the store as it was, and a learned name torn. */
  ghost predicate Carried(change: Change, sets: map<Name, string>, before: Stored, resolved: seq<(Name, Name)>,
                          stored: Stored,
                          torn: set<Name>, ok: bool)
  {
    match change
    case Learned(name, parent) =>
      if !UnderRule(sets, parent) then ok && stored == before
      else Get(resolved, name) == Some(parent) && stored == (if ok then Put(before, name, parent) else before) && (!ok ==> name in torn)
    case Unlearned(name) =>
      Get(resolved, name).None? && stored == (if ok then Dicts.Remove(before, name) else before) && name !in torn
  }

  /** Who follows whom: the index, the names the resolver learned, and the store. */
  datatype Followers = Followers(sets: map<Name, string>, resolved: seq<(Name, Name)>, stored: Stored)

  /** A learned name joins the set of its site, the resolver and the store, when that site is under a rule; an unlearned one
      leaves them. */
  function AfterChange(before: Followers, change: Change): Followers {
    match change
    case Learned(name, parent) =>
      var setName := Matched(before.sets, parent);
      if setName.None? then before
      else Followers(before.sets[Normal(name) := setName.value], Put(before.resolved, name, parent),
          Put(before.stored, name, parent))
    case Unlearned(name) =>
      Followers(if Get(before.resolved, name).Some? then before.sets - {Normal(name)} else before.sets,
                Dicts.Remove(before.resolved, name), Dicts.Remove(before.stored, name))
  }

  function AfterChanges(before: Followers, changes: seq<Change>): Followers {
    if changes == [] then before
    else AfterChange(AfterChanges(before, changes[..|changes| - 1]), changes[|changes| - 1])
  }

  lemma {:induction false} ChangesAppend(before: Followers, a: seq<Change>, b: seq<Change>)
    ensures AfterChanges(before, a + b) == AfterChanges(AfterChanges(before, a), b)
    decreases |b|
  {
    if b == [] {
      assert a + b == a;
    } else {
      assert (a + b)[..|a + b| - 1] == a + b[..|b| - 1] && (a + b)[|a + b| - 1] == b[|b| - 1];
      ChangesAppend(before, a, b[..|b| - 1]);
    }
  }

  lemma ChangesOne(before: Followers, changes: seq<Change>)
    requires |changes| <= 1
    ensures AfterChanges(before, changes) == if changes == [] then before else AfterChange(before, changes[0])
  {
    if changes != [] {
      assert changes[..0] == [];
    }
  }

  /** The CNAME targets of sites under a rule the store has not had, in the order they were found. */
  function AfterCnames(store: Stored, known: Stored, cnames: seq<(Name, Name)>, config: Config): Stored {
    if cnames == [] then store else
      var before, last := AfterCnames(store, known, cnames[..|cnames| - 1], config), cnames[|cnames| - 1];
      var rule := RuleOf(config, last.1);
      if Get(known, last.0).None? && rule.Some? then Put(before, last.0, rule.value.0) else before
  }

  /** The loop between two steps. */
  datatype LoopState = LoopState(
    followers: Followers,
    cnames: seq<(Name, Name)>,
    lists: map<string, seq<Name>>,
    config: Config,
    rules: Rules,
    learnt: Learnt,
    log: Log,
    cursor: Option<Stamp>,
    handled: Records)

  function AfterRound(before: Followers, changes: seq<Change>, cnames: seq<(Name, Name)>, config: Config): Followers {
    var told := AfterChanges(before, changes);
    told.(stored := AfterCnames(told.stored, told.stored, cnames, config))
  }

  /** Another configuration than the one the learner has gives it new rules, and no queries before its own. */
  function Refreshed(before: LoopState, same: bool, config: Config): LoopState {
    if same && config == before.config then before
    else before.(config := config, rules := RulesOf(config), learnt := before.learnt.(history := []))
  }

  /** The records the log held behind the cursor when the first page was fetched: the learner heard them, in order, and they
      are handled. `changes` is what it said. */
  ghost predicate Took(before: LoopState, arrived: seq<Records>, learnt: Learnt, handled: Records, changes: seq<Change>) {
    var taken := NewRecordsOf(Grown(before.log, Arriving(arrived, 0)), LastHandled(before.cursor));
    && handled == before.handled + taken && learnt.history == before.learnt.history + EventsOf(taken)
    && learnt == before.learnt.HearsAll(before.rules, EventsOf(taken))
    && changes == before.learnt.SaysAll(before.rules, EventsOf(taken))
  }

  lemma TookIs(before: LoopState, arrived: seq<Records>, learnt: Learnt, handled: Records, changes: seq<Change>,
               taken: Records)
    requires taken == NewRecordsOf(Grown(before.log, Arriving(arrived, 0)), LastHandled(before.cursor))
    requires handled == before.handled + taken && learnt.history == before.learnt.history + EventsOf(taken)
    requires learnt == before.learnt.HearsAll(before.rules, EventsOf(taken))
    requires changes == before.learnt.SaysAll(before.rules, EventsOf(taken))
    ensures Took(before, arrived, learnt, handled, changes)
  {
    hide EventsOf, NewRecordsOf, Learnt.HearsAll, Learnt.SaysAll;
  }

  lemma AfterRoundIs(before: Followers, changes: seq<Change>, cnames: seq<(Name, Name)>, config: Config)
    ensures var told := AfterChanges(before, changes);
            AfterRound(before, changes, cnames, config)
                == Followers(told.sets, told.resolved, AfterCnames(told.stored, told.stored, cnames, config))
  {
  }

  /** A round that went through: what the learner concluded from the records is what changed who follows whom. */
  ghost predicate Rounded(before: LoopState, same: bool, config: Config, arrived: seq<Records>, changes: seq<Change>,
                          after: LoopState) {
    && Took(Refreshed(before, same, config), arrived, after.learnt, after.handled, changes)
    && after.followers == AfterRound(before.followers, changes, before.cnames, config)
    && after.rules == Refreshed(before, same, config).rules
    && after.cnames == before.cnames && after.lists == before.lists && after.config == config && before.log <= after.log
  }

  /** One step that went through, on who follows whom and on what was read. */
  ghost predicate Stepped(before: LoopState, step: Step, after: LoopState) {
    match step
    case Rounding(config, same, arrived) =>
      exists changes :: Rounded(before, same, config, arrived, changes, after)
    case Forgetting(config, same, name) =>
      var start := Refreshed(before, same, config);
      after == start.(followers := AfterChange(before.followers, Unlearned(name)), learnt := Forgotten(start.learnt, name))
    case Asking(query, upstream) =>
      var joined := AfterAsk(before.followers.sets, before.cnames, query, upstream);
      after == before.(followers := before.followers.(sets := joined.0), cnames := joined.1)
    case Configuring(config) => after == AfterReload(before, config)
    case Relisting(config, lists) => after == AfterReload(before.(lists := lists), config)
    case Waiting(_, _) => after == before
  }

  /** As if the name had never been asked. */
  function Forgotten(before: Learnt, name: Name): Learnt {
    Learnt(before.history, before.learned - {name}, before.seenAfter - {name}, before.generic - {name})
  }

  lemma ForgottenIs(before: Learnt, name: Name)
    ensures Forgotten(before, name)
              == Learnt(before.history, before.learned - {name}, before.seenAfter - {name}, before.generic - {name})
  {
  }

  /** CNAME targets of an answer under a rule join it. */
  function AfterAsk(sets: map<Name, string>, cnames: seq<(Name, Name)>, query: Query, upstream: Option<seq<RRset>>)
    : (map<Name, string>, seq<(Name, Name)>)
  {
    if Answers(sets, query, upstream) && Matched(sets, AskedName(query).value).Some? then
      var name := AskedName(query).value;
      Joined(sets, cnames, Targets(upstream.value), Matched(sets, name).value, name)
    else (sets, cnames)
  }

  /** The index of the new rules, and everybody who still follows a site under one. */
  function AfterReload(before: LoopState, config: Config): LoopState {
    var sites := Rejoined(ConfigIndex(config, before.lists), before.cnames);
    before.(followers := Followers(Rejoined(sites, before.followers.resolved), StillLearned(sites, before.followers.resolved),
                                   before.followers.stored))
  }

  /** A run of the loop: what each step did that went through. */
  ghost predicate Went(states: seq<LoopState>, steps: seq<Step>, done: seq<bool>) {
    && |states| == |steps| + 1 && |done| == |steps|
    && forall i :: 0 <= i < |steps| && done[i] ==> Stepped(states[i], steps[i], states[i + 1])
  }

  lemma ReloadSteps(before: LoopState, config: Config, lists: map<string, seq<Name>>, after: LoopState)
    requires var sites := Rejoined(ConfigIndex(config, lists), before.cnames);
             after == before.(lists := lists, followers := Followers(Rejoined(sites, before.followers.resolved),
                                                                     StillLearned(sites, before.followers.resolved),
                                                                         before.followers.stored))
    ensures Stepped(before, Relisting(config, lists), after)
    ensures lists == before.lists ==> Stepped(before, Configuring(config), after)
  {
    hide Rejoined, StillLearned, ConfigIndex;
  }

  lemma StillStands(state: LoopState, step: Step)
    ensures step.Waiting? ==> Stepped(state, step, state)
  {
  }

  lemma RoundSteps(before: LoopState, same: bool, config: Config, arrived: seq<Records>, changes: seq<Change>,
                   after: LoopState)
    requires Rounded(before, same, config, arrived, changes, after)
    ensures Stepped(before, Rounding(config, same, arrived), after)
  {
    hide Rounded;
  }

  lemma AskSteps(before: LoopState, query: Query, upstream: Option<seq<RRset>>, sets: map<Name, string>,
                 cnames: seq<(Name, Name)>)
    requires var name := AskedName(query);
             var setName := if name.Some? then Matched(before.followers.sets, name.value) else None;
             if Answers(before.followers.sets, query, upstream) && setName.Some? then
               (sets, cnames) == Joined(before.followers.sets, before.cnames, Targets(upstream.value), setName.value,
                   name.value)
             else sets == before.followers.sets && cnames == before.cnames
    ensures Stepped(before, Asking(query, upstream), before.(followers := before.followers.(sets := sets), cnames := cnames))
  {
    hide Joined, Matched, Targets;
  }

  lemma WentNowhere(states: seq<LoopState>, steps: seq<Step>)
    requires |states| == 1
    ensures Went(states, steps[..0], [])
  {
  }

  lemma WentOn(states: seq<LoopState>, steps: seq<Step>, done: seq<bool>, i: nat, went: bool, next: LoopState)
    requires i < |steps| && Went(states, steps[..i], done) && (went ==> Stepped(states[i], steps[i], next))
    ensures Went(states + [next], steps[..i + 1], done + [went])
  {
    hide Stepped;
    var (longer, more) := (states + [next], done + [went]);
    forall k | 0 <= k <= i && more[k] ensures Stepped(longer[k], steps[..i + 1][k], longer[k + 1]) {
      assert k < i ==> steps[..i][k] == steps[k] && done[k];
    }
  }

  function EventsOf(records: Records): seq<Event> {
    seq(|records|, i requires 0 <= i < |records| => records[i].event)
  }

  lemma NoEvents()
    ensures EventsOf([]) == []
  {
  }

  lemma NoChanges(before: Followers)
    ensures AfterChanges(before, []) == before
  {
  }

  lemma Associative<T>(a: seq<T>, b: seq<T>, c: seq<T>)
    ensures (a + b) + c == a + (b + c)
  {
  }

  lemma EventsNext(records: Records, i: nat)
    requires i < |records|
    ensures EventsOf(records[..i + 1]) == EventsOf(records[..i]) + [records[i].event]
  {
  }

  /** Whether a change goes through: only a fill that is due can be refused, and only a change of the store can fail. */
  predicate GoesThrough(change: Change, sets: map<Name, string>, recent: Replays.Recent, now: int, refusals: seq<bool>,
                        failures: seq<bool>) {
    match change
    case Learned(name, parent) =>
      !UnderRule(sets, parent) || (!(Replays.Refills(recent, name, now) && Refused(refusals)) && !Refused(failures))
    case Unlearned(_) => !Refused(failures)
  }

  /** Without the name a change speaks of. */
  lemma ButOneAgrees(resolved: seq<(Name, Name)>, learned: map<Name, Name>, stored: Stored, torn: set<Name>, change: Change)
    requires IsDict(resolved) && Agree(resolved, learned, stored, torn + {change.name})
    ensures change.Unlearned? ==> Agree(Dicts.Remove(resolved, change.name), learned, stored, torn)
    ensures Get(resolved, change.name).None? || change.name in torn ==> Agree(resolved, learned, stored, torn)
  {
    hide IsDict, Get;
    RemoveIsDict(resolved, change.name);
  }

  lemma FollowCarries(name: Name, parent: Name, sets: map<Name, string>, recent: Replays.Recent, now: int,
                      refusals: seq<bool>,
                      failures: seq<bool>, stored: Stored, resolved: seq<(Name, Name)>, torn: set<Name>, ok: bool)
    requires IsDict(resolved)
    requires ok == (!UnderRule(sets, parent)
               || (!(Replays.Refills(recent, name, now) && Refused(refusals)) && !Refused(failures)))
    ensures ok == GoesThrough(Learned(name, parent), sets, recent, now, refusals, failures)
    ensures var under := UnderRule(sets, parent);
            Carried(Learned(name, parent), sets, stored, if under then Put(resolved, name, parent) else resolved,
                    if under && ok then Put(stored, name, parent) else stored,
                    if !under then torn else if ok then torn - {name} else torn + {name}, ok)
  {
    hide IsDict, Get, Put, UnderRule, Refused, Replays.Refills;
    PutIsDict(resolved, name, parent);
  }

  lemma ChangeIs(before: Followers, change: Change)
    ensures change.Learned? ==>
              var under := UnderRule(before.sets, change.parent);
              AfterChange(before, change)
              == if !under then before
                 else Followers(before.sets[Normal(change.name) := Matched(before.sets, change.parent).value],
                                Put(before.resolved, change.name, change.parent),
                                    Put(before.stored, change.name, change.parent))
    ensures change.Unlearned? ==>
              AfterChange(before, change)
              == Followers(if Get(before.resolved, change.name).Some? then before.sets - {Normal(change.name)}
                  else before.sets,
                           Dicts.Remove(before.resolved, change.name), Dicts.Remove(before.stored, change.name))
  {
  }

  lemma UnfollowCarries(name: Name, sets: map<Name, string>, recent: Replays.Recent, now: int, refusals: seq<bool>,
                        failures: seq<bool>, stored: Stored, resolved: seq<(Name, Name)>, torn: set<Name>, ok: bool)
    requires IsDict(resolved) && ok == !Refused(failures)
    ensures ok == GoesThrough(Unlearned(name), sets, recent, now, refusals, failures)
    ensures Carried(Unlearned(name), sets, stored, Dicts.Remove(resolved, name),
                    if ok then Dicts.Remove(stored, name) else stored, torn - {name}, ok)
  {
    hide IsDict, Get;
    RemoveIsDict(resolved, name);
  }

  lemma HandsOn(seen: Option<int>, history: seq<Event>, record: Record)
    requires HandedOn(seen, history) && (seen.Some? ==> seen.value <= record.Time())
    ensures history != [] ==> history[|history| - 1].time <= record.event.time
    ensures HandedOn(Some(record.Time()), history + [record.event])
  {
  }

  lemma MovedIs(cursor: Option<Stamp>, at: Position)
    ensures at.pending != [] ==>
              Moved(cursor, at) == Position(at.handled + [at.pending[0]], if cursor.Some? then at.from else at.next,
                                            at.next + 1, at.skipped || (cursor.Some? && at.to < at.next),
                                            at.pending[1..], at.next + 1, at.seen)
  {
  }

  /** Of these names the store learns nothing new. */
  ghost predicate GainsNothing(known: set<Name>, before: Stored, after: Stored) {
    forall n :: n in known && Get(after, n).Some? ==> Get(after, n) == Get(before, n)
  }

  lemma CarriedGains(change: Change, sets: map<Name, string>, before: Stored, resolved: seq<(Name, Name)>, stored: Stored,
                     torn: set<Name>, ok: bool, known: set<Name>)
    requires Carried(change, sets, before, resolved, stored, torn, ok) && IsDict(before)
    requires change.Learned? ==> change.name !in known
    ensures GainsNothing(known, before, stored)
  {
    hide IsDict, Get, Put, UnderRule;
    match change
    case Learned(name, parent) => PutIsDict(before, name, parent);
    case Unlearned(name) => RemoveIsDict(before, name);
  }

  lemma NothingGained(known: set<Name>, store: Stored)
    ensures GainsNothing(known, store, store)
  {
  }

  lemma QuietGoes(change: Change, sets: map<Name, string>, recent: Replays.Recent, now: int, refusals: seq<bool>,
                  failures: seq<bool>)
    ensures Calm(refusals) && Calm(failures) ==> GoesThrough(change, sets, recent, now, refusals, failures)
  {
  }

  /** The name is the CNAME target of a site under a rule. */
  ghost predicate IsTarget(cnames: seq<(Name, Name)>, config: Config, name: Name) {
    exists c :: c in cnames && c.0 == name && RuleOf(config, c.1).Some?
  }

  /** What is in the store now and was not before is a CNAME target. */
  ghost predicate OnlyTargets(before: Stored, after: Stored, cnames: seq<(Name, Name)>, config: Config) {
    forall n :: Get(before, n).None? && Get(after, n).Some? ==> IsTarget(cnames, config, n)
  }

  /** Behind a change only the name it speaks of may be out of agreement. */
  lemma SaidAgrees(resolved: seq<(Name, Name)>, learned: map<Name, Name>, stored: Stored, torn: set<Name>, change: Change)
    requires Agree(resolved, learned, stored, torn) && (change.Learned? ==> change.name !in learned)
    ensures Agree(resolved, Apply(learned, [change]), stored, torn + {change.name})
    ensures change.Learned? ==> Get(resolved, change.name).None? || change.name in torn
  {
  }

  /** The resolver took a name up; once the store has it too, it is not torn any more. */
  lemma FollowedAgrees(resolved: seq<(Name, Name)>, learned: map<Name, Name>, stored: Stored, torn: set<Name>,
                       name: Name, parent: Name)
    requires IsDict(resolved) && IsDict(stored) && Agree(resolved, learned, stored, torn)
    requires name in learned && learned[name] == parent
    ensures Agree(Put(resolved, name, parent), learned, stored, torn + {name})
    ensures Agree(Put(resolved, name, parent), learned, Put(stored, name, parent), torn - {name})
  {
    hide IsDict, Get, Put;
    PutIsDict(resolved, name, parent);
    PutIsDict(stored, name, parent);
  }

  /** Resolver and learner know the name with this site. */
  ghost predicate Knows(resolved: seq<(Name, Name)>, learned: map<Name, Name>, name: Name, parent: Name) {
    Get(resolved, name) == Some(parent) && name in learned && learned[name] == parent
  }

  /** Every other name they knew they still know. */
  ghost predicate KnowsOthers(resolved: seq<(Name, Name)>, learned: map<Name, Name>,
                              resolvedNext: seq<(Name, Name)>, learnedNext: map<Name, Name>, name: Name)
  {
    forall n, p :: n != name && Knows(resolved, learned, n, p) ==> Knows(resolvedNext, learnedNext, n, p)
  }

  lemma KnowsSame(resolved: seq<(Name, Name)>, learned: map<Name, Name>, name: Name)
    ensures KnowsOthers(resolved, learned, resolved, learned, name)
  {
  }

  /** A stored name comes back: to the resolver first, then to the learner. */
  lemma BroughtAgrees(resolved: seq<(Name, Name)>, learned: map<Name, Name>, stored: Stored, torn: set<Name>,
                      name: Name, parent: Name)
    requires IsDict(resolved) && IsDict(stored) && Agree(resolved, learned, stored, torn) && (name, parent) in stored
    ensures Agree(Put(resolved, name, parent), learned, stored, torn + {name})
    ensures Agree(Put(resolved, name, parent), learned[name := parent], stored, torn)
    ensures KnowsOthers(resolved, learned, Put(resolved, name, parent), learned, name)
    ensures KnowsOthers(resolved, learned, Put(resolved, name, parent), learned[name := parent], name)
    ensures Knows(Put(resolved, name, parent), learned[name := parent], name, parent)
  {
    hide IsDict, Get, Put;
    PutIsDict(resolved, name, parent);
    GetOf(stored, name, parent);
  }

  /** A name leaves the resolver, and then the store. */
  lemma RemovedAgrees(resolved: seq<(Name, Name)>, learned: map<Name, Name>, stored: Stored, torn: set<Name>, name: Name)
    requires IsDict(stored) && name !in learned && IsDict(resolved)
               && Agree(Dicts.Remove(resolved, name), learned, stored, torn)
    ensures Agree(Dicts.Remove(resolved, name), learned, stored, torn - {name})
    ensures Agree(Dicts.Remove(resolved, name), learned, Dicts.Remove(stored, name), torn - {name})
  {
    hide IsDict, Get, Put;
    RemoveIsDict(resolved, name);
    RemoveIsDict(stored, name);
  }

  lemma ForgetAgrees(resolved: seq<(Name, Name)>, learned: map<Name, Name>, stored: Stored, torn: set<Name>, name: Name)
    requires IsDict(resolved) && Agree(resolved, learned, stored, torn)
    ensures Agree(Dicts.Remove(resolved, name), learned - {name}, stored, torn)
  {
    hide IsDict, Get, Put;
    RemoveIsDict(resolved, name);
  }

  /** Nothing stored is changed. */
  ghost predicate StoreKept(before: Stored, after: Stored) {
    forall n :: Get(before, n).Some? ==> Get(after, n) == Get(before, n)
  }

  ghost predicate CnamesStored(cnames: seq<(Name, Name)>, config: Config, stored: Stored) {
    forall c :: c in cnames && RuleOf(config, c.1).Some? ==> Get(stored, c.0).Some?
  }

  /** One CNAME target: it is in the store already, its site is under no rule, or it is stored now. */
  lemma CnameStored(stored: Stored, store: Stored, cnames: seq<(Name, Name)>, i: nat, config: Config,
                    resolved: seq<(Name, Name)>, learned: map<Name, Name>, torn: set<Name>)
    requires IsDict(store) && i < |cnames| && StoreKept(stored, store) && CnamesStored(cnames[..i], config, store)
    requires OnlyTargets(stored, store, cnames, config)
    requires Agree(resolved, learned, stored, torn) && Agree(resolved, learned, store, torn)
    ensures var (target, rule) := (cnames[i].0, RuleOf(config, cnames[i].1));
            if Get(stored, target).None? && rule.Some? then
              var next := Put(store, target, rule.value.0);
              IsDict(next) && StoreKept(stored, next) && CnamesStored(cnames[..i + 1], config, next)
              && Agree(resolved, learned, next, torn) && OnlyTargets(stored, next, cnames, config)
            else CnamesStored(cnames[..i + 1], config, store)
  {
    hide IsDict, Get, Put, RuleOf;
    assert cnames[..i + 1] == cnames[..i] + [cnames[i]];
    var rule := RuleOf(config, cnames[i].1);
    if rule.Some? {
      assert cnames[i] in cnames && IsTarget(cnames, config, cnames[i].0);
      PutIsDict(store, cnames[i].0, rule.value.0);
    }
  }

  /** The site is under a rule. */
  predicate UnderRule(sets: map<Name, string>, site: Name) { Matched(sets, site).Some? }

  lemma IsUnderRule(sets: map<Name, string>, site: Name)
    ensures UnderRule(sets, site) <==> Matched(sets, site).Some?
  {
  }

  /** Every name under a rule stays under one. */
  ghost predicate RulesKept(before: map<Name, string>, after: map<Name, string>) {
    forall n :: UnderRule(before, n) ==> UnderRule(after, n)
  }

  lemma KeepsRules(sets: map<Name, string>)
    ensures RulesKept(sets, sets)
  {
  }

  lemma AddKeepsRules(sets: map<Name, string>, name: Name, setName: string)
    ensures RulesKept(sets, sets[Normal(name) := setName])
  {
    forall n | UnderRule(sets, n) ensures UnderRule(sets[Normal(name) := setName], n) {
      AddKeepsMatched(sets, Normal(name), setName, Normal(n));
    }
  }

  class SmartLoop {
    const resolver: Resolver
    const reader: LogReader
    var config: Config
    var learner: Learner
    var store: Stored
    var failures: seq<bool>        // which of the coming accesses to the store fail; behind the end none does
    ghost var torn: set<Name>      // a refused fill or a failed write cut their learning short

    /** No fill will be refused, no access to the store and no request for the log will fail. */
    ghost predicate Quiet()
      reads `failures, resolver`refusals, reader.log`refusals
    {
      Calm(failures) && Calm(resolver.refusals) && Calm(reader.log.refusals)
    }

    ghost function Following(): Followers
      reads `store, resolver, resolver.index
    {
      Followers(resolver.index.sets, resolver.learned, store)
    }

    ghost function Standing(): LoopState
      reads `store, `config, `learner, learner, resolver, resolver.index, reader, reader.log
    {
      LoopState(Following(), resolver.cnames, resolver.lists, config, learner.ruleOf, learner.Now(),
                reader.log.log, reader.cursor, reader.at.handled)
    }

    lemma StandingIs()
      ensures Standing()
           == LoopState(Followers(resolver.index.sets, resolver.learned, store), resolver.cnames, resolver.lists, config,
                        learner.ruleOf, learner.Now(), reader.log.log, reader.cursor, reader.at.handled)
    {
    }

    /** The names the learner has decided about. */
    ghost function Known(): set<Name>
      reads `learner, learner
    {
      learner.learned.Keys + learner.generic
    }

    ghost predicate Stores()
      reads `store, `torn, `learner, resolver, resolver.index, learner
    {
      && resolver.Valid() && learner.Valid() && IsDict(store)
      && Agree(resolver.learned, learner.learned, store, torn)
    }

    ghost predicate Valid()
      reads `store, `torn, `learner, resolver, resolver.index, learner, reader, reader.log
    {
      Stores() && reader.Valid() && (learner.history != [] ==> HandedOn(reader.at.seen, learner.history))
    }

    /** What an earlier run left in the store; the resolver and the learner know nothing yet. */
    constructor (resolver: Resolver, reader: LogReader, store: Stored, config: Config, failures: seq<bool>)
      requires resolver.Valid() && resolver.learned == [] && IsDict(store) && reader.Valid()
      ensures Valid() && this.resolver == resolver && this.reader == reader && this.store == store && fresh(learner)
      ensures learner.learned == map[] && learner.generic == {} && torn == {} && learner.history == []
      ensures learner.seenAfter == map[] && this.failures == failures && forall n :: learner.ruleOf(n) == RuleOf(config, n)
    {
      this.failures := failures;
      this.resolver, this.reader, this.store, this.config := resolver, reader, store, config;
      learner := new Learner(RulesOf(config));
      torn := {};
    }

    /** `start`: what was learned before this start of core comes back where its site is under a rule. It fails when the
        store cannot be read or a fill is refused. */
    method Start(configNow: Config, sameObject: bool) returns (ok: bool, ghost carried: bool)
      requires Valid() && learner.generic == {}
      modifies this`config, this`learner, this`torn, this`failures, resolver`learned, resolver`elements,
               resolver`history, resolver`refusals,
               resolver.index, learner`learned
      ensures Valid() && (learner == old(learner) || fresh(learner))
      ensures (ok ==> carried) && (carried ==> torn == old(torn)) && (old(Quiet()) ==> ok && Quiet())
      ensures ok ==> forall i :: 0 <= i < |store| && UnderRule(old(resolver.index.sets), store[i].1) ==>
                Back(store[i].0, store[i].1)
    {
      hide Resolver.Valid, Learner.Valid, LogReader.Valid, Replays.Recorded, Replays.AllTold, Tracks, Witnessed,
           IsSound, Agree, ExactlyOnce, InTimeOrder, HandedOn;
      CalmStays(failures);
      Refresh(configNow, sameObject);
      ok := !Refused(failures);
      failures := Coming(failures);
      carried := true;
      if ok {
        ok := BringAllBack();
        carried := ok;
      }
    }

    lemma KnownDicts()
      requires resolver.Valid()
      ensures IsDict(resolver.learned) && IsDict(resolver.cnames)
    {
    }

    lemma StoresAre()
      ensures Stores() <==> resolver.Valid() && learner.Valid() && IsDict(store) && Agree(resolver.learned, learner.learned, store, torn)
      ensures Quiet() <==> Calm(failures) && Calm(resolver.refusals) && Calm(reader.log.refusals)
      ensures Known() == learner.learned.Keys + learner.generic
    {
    }

    lemma ValidSays()
      requires Valid()
      ensures torn == {} ==> Agree(resolver.learned, learner.learned, store, {})
      ensures !reader.at.skipped && reader.cursor.Some? ==>
                reader.at.from <= reader.at.to <= |reader.log.log|
                    && reader.at.handled == reader.log.log[reader.at.from..reader.at.to]
    {
      hide Resolver.Valid, Learner.Valid, InTimeOrder, HandedOn, Agree;
    }

    lemma ValidIs()
      ensures Valid() <==> Stores() && reader.Valid() && HandedOn(reader.at.seen, learner.history)
    {
    }

    method BringAllBack() returns (ok: bool)
      requires Stores() && learner.generic == {}
      modifies this`torn, resolver`learned, resolver`elements, resolver`history, resolver`refusals, resolver.index,
               learner`learned
      ensures Stores() && (ok ==> torn == old(torn)) && (old(Quiet()) ==> ok && Quiet())
      ensures ok ==> forall i :: 0 <= i < |store| && UnderRule(old(resolver.index.sets), store[i].1) ==>
                Back(store[i].0, store[i].1)
    {
      hide Resolver.Valid, Learner.Valid, LogReader.Valid, Replays.Recorded, Replays.AllTold, Tracks, Witnessed,
           IsSound, Agree, UnderRule, Declared;
      ghost var sets := resolver.index.sets;
      for i := 0 to |store|
        invariant Stores() && learner.generic == {} && torn == old(torn) && (old(Quiet()) ==> Quiet())
        invariant RulesKept(sets, resolver.index.sets)
        invariant forall k :: 0 <= k < i && UnderRule(sets, store[k].1) ==> Back(store[k].0, store[k].1)
      {
        forall k | 0 <= k < i ensures store[k].0 != store[i].0 {
          KeysApart(store, k, i);
        }
        ok := BringBack(store[i].0, store[i].1);
        if !ok {
          return;
        }
      }
      ok := true;
    }

    ghost predicate Back(name: Name, parent: Name)
      reads `learner, resolver, learner
    {
      Knows(resolver.learned, learner.learned, name, parent)
    }

    lemma BackIs(name: Name, parent: Name)
      ensures Back(name, parent) <==> Knows(resolver.learned, learner.learned, name, parent)
    {
    }

    lemma BackKnows()
      ensures forall n, p :: Back(n, p) ==> Get(resolver.learned, n) == Some(p)
    {
    }

    method BringBack(name: Name, parent: Name) returns (ok: bool)
      requires Stores() && learner.generic == {} && (name, parent) in store
      modifies this`torn, resolver`learned, resolver`elements, resolver`history, resolver`refusals, resolver.index,
               learner`learned
      ensures Stores() && (ok ==> torn == old(torn)) && (old(Quiet()) ==> ok && Quiet())
      ensures ok && UnderRule(old(resolver.index.sets), parent) ==> Back(name, parent)
      ensures KnowsOthers(old(resolver.learned), old(learner.learned), resolver.learned, learner.learned, name)
      ensures RulesKept(old(resolver.index.sets), resolver.index.sets)
    {
      hide *;
      StoresAre();
      KnownDicts();
      PutIsDict(resolver.learned, name, parent);
      BroughtAgrees(resolver.learned, learner.learned, store, torn, name, parent);
      KnowsSame(resolver.learned, learner.learned, name);
      KeepsRules(resolver.index.sets);
      IsUnderRule(resolver.index.sets, parent);
      CalmStays(resolver.refusals);
      ghost var sets := resolver.index.sets;
      var follows, filled := resolver.Learn(name, parent);
      ok := true;
      if follows {
        AddKeepsRules(sets, name, Matched(sets, parent).value);
        if filled {
          learner.Remember(name, parent);
        } else {
          torn := torn + {name};
          ok := false;
        }
      }
      StoresAre();
      BackIs(name, parent);
    }

    /** `_store_cnames`: CNAME targets of sites under a rule are stored too, unless the name is. */
    method StoreCnames(configNow: Config) returns (ok: bool)
      requires Stores()
      modifies this`store, this`failures
      ensures Stores()
      ensures StoreKept(old(store), store)
      ensures OnlyTargets(old(store), store, resolver.cnames, configNow) && (old(Quiet()) ==> ok && Quiet())
      ensures ok ==> CnamesStored(resolver.cnames, configNow, store)
      ensures ok ==> store == AfterCnames(old(store), old(store), resolver.cnames, configNow)
    {
      hide Resolver.Valid, Learner.Valid, LogReader.Valid, Replays.Recorded, Replays.AllTold, Tracks, Witnessed,
           IsSound, Declared, IsDict, Agree, Get, Put, RuleOf, Calm;
      CalmStays(failures);
      ok := !Refused(failures);
      failures := Coming(failures);
      if !ok {
        return;
      }
      var stored := store;
      var cnames := resolver.cnames;
      for i := 0 to |cnames|
        invariant Stores() && StoreKept(stored, store) && CnamesStored(cnames[..i], configNow, store)
        invariant OnlyTargets(stored, store, cnames, configNow) && (old(Quiet()) ==> Quiet())
        invariant store == AfterCnames(stored, stored, cnames[..i], configNow)
      {
        assert cnames[..i + 1][..i] == cnames[..i];
        CalmStays(failures);
        hide StoreKept, CnamesStored, OnlyTargets;
        CnameStored(stored, store, cnames, i, configNow, resolver.learned, learner.learned, torn);
        var (target, site) := cnames[i];
        var rule := RuleOf(configNow, site);
        if Get(stored, target).None? && rule.Some? {
          ok := !Refused(failures);
          failures := Coming(failures);
          if !ok {
            return;
          }
          store := Put(store, target, rule.value.0);
        }
      }
      assert cnames[..|cnames|] == cnames;
      ok := true;
    }

    /** `_refresh`: a configuration that is another object, equal or not, brings a new learner. */
    method Refresh(configNow: Config, sameObject: bool)
      requires Stores()
      modifies this`config, this`learner
      ensures Stores() && (learner == old(learner) || (fresh(learner) && learner.history == []))
      ensures config == configNow && (config != old(config) ==> fresh(learner))
      ensures if sameObject && configNow == old(config) then learner == old(learner) else fresh(learner)
      ensures fresh(learner) ==> forall n :: learner.ruleOf(n) == RuleOf(configNow, n)
      ensures Standing() == Refreshed(old(Standing()), sameObject, configNow)
      ensures learner.learned == old(learner.learned) && learner.generic == old(learner.generic)
      ensures learner.said == old(learner.said)
    {
      if sameObject && configNow == config {
        return;
      }
      config := configNow;
      learner := new Learner.Adopt(RulesOf(configNow), learner);
    }

    /** The learner learned a name: it joins its site in the resolver, then in the store; either may fail. */
    method Follow(name: Name, parent: Name) returns (ok: bool)
      requires Stores() && name in learner.learned && learner.learned[name] == parent
      requires Get(resolver.learned, name).None? || name in torn
      modifies this`store, this`torn, this`failures, resolver`learned, resolver`elements, resolver`history,
               resolver`refusals, resolver.index
      ensures Stores() && (old(Quiet()) ==> Quiet())
      ensures var under := UnderRule(old(resolver.index.sets), parent);
              var filled := !(Replays.Refills(resolver.recent, name, resolver.now) && Refused(old(resolver.refusals)));
              && ok == (!under || (filled && !Refused(old(failures))))
              && failures == (if under && filled then Coming(old(failures)) else old(failures))
              && resolver.learned == (if under then Put(old(resolver.learned), name, parent) else old(resolver.learned))
              && resolver.index.sets
                  == (if under then old(resolver.index.sets)[Normal(name) := Matched(old(resolver.index.sets), parent).value]
                                         else old(resolver.index.sets))
              && store == (if under && ok then Put(old(store), name, parent) else old(store))
              && torn == if !under then old(torn) else if ok then old(torn) - {name} else old(torn) + {name}
    {
      hide *;
      StoresAre();
      KnownDicts();
      CalmStays(resolver.refusals);
      CalmStays(failures);
      FollowedAgrees(resolver.learned, learner.learned, store, torn, name, parent);
      IsUnderRule(resolver.index.sets, parent);
      PutIsDict(store, name, parent);
      var follows, filled := resolver.Learn(name, parent);
      ok := true;
      if follows {
        ok := false;
        if filled {
          ok := !Refused(failures);
          failures := Coming(failures);
        }
        if ok {
          store := Put(store, name, parent);
        }
        torn := if ok then torn - {name} else torn + {name};
      }
      StoresAre();
    }

    /** A learned name is generic after all: it leaves the resolver, then the store. */
    method Unfollow(name: Name) returns (ok: bool)
      requires resolver.Valid() && learner.Valid() && IsDict(store) && name !in learner.learned
      requires Agree(Dicts.Remove(resolver.learned, name), learner.learned, store, torn)
      modifies this`store, this`torn, this`failures, resolver`learned, resolver.index
      ensures Stores() && torn == old(torn) - {name}
      ensures ok == !Refused(old(failures)) && failures == Coming(old(failures)) && (old(Quiet()) ==> Quiet())
      ensures resolver.learned == Dicts.Remove(old(resolver.learned), name)
      ensures resolver.index.sets == if Get(old(resolver.learned), name).Some? then old(resolver.index.sets) - {Normal(name)}
                                     else old(resolver.index.sets)
      ensures store == if ok then Dicts.Remove(old(store), name) else old(store)
    {
      hide *;
      StoresAre();
      KnownDicts();
      CalmStays(failures);
      RemoveIsDict(store, name);
      RemovedAgrees(resolver.learned, learner.learned, store, torn, name);
      resolver.Unlearn(name);
      torn := torn - {name};
      ok := !Refused(failures);
      failures := Coming(failures);
      if ok {
        store := Dicts.Remove(store, name);
      }
      StoresAre();
    }

    lemma FollowingIs()
      ensures Following() == Followers(resolver.index.sets, resolver.learned, store)
    {
    }

    /** What the learner said about a name reaches the resolver and the store. */
    method Carry(change: Change) returns (ok: bool)
      requires resolver.Valid() && learner.Valid() && IsDict(store)
      requires Agree(resolver.learned, learner.learned, store, torn + {change.name})
      requires change.Learned? ==> change.name in learner.learned && learner.learned[change.name] == change.parent
                                   && (Get(resolver.learned, change.name).None? || change.name in torn)
      requires change.Unlearned? ==> change.name !in learner.learned
      modifies this`store, this`torn, this`failures, resolver`learned, resolver`elements, resolver`history,
               resolver`refusals, resolver.index
      ensures Stores() && (ok ==> torn <= old(torn)) && (old(Quiet()) ==> Quiet())
      ensures Carried(change, old(resolver.index.sets), old(store), resolver.learned, store, torn, ok)
      ensures ok == GoesThrough(change, old(resolver.index.sets), resolver.recent, resolver.now, old(resolver.refusals),
                old(failures))
      ensures ok ==> Following() == AfterChange(old(Following()), change)
    {
      hide *;
      StoresAre();
      FollowingIs();
      KnownDicts();
      ButOneAgrees(resolver.learned, learner.learned, store, torn, change);
      ghost var sets, resolved, before, pending, failing, cut := resolver.index.sets, resolver.learned, store,
          resolver.refusals, failures, torn;
      match change {
        case Learned(name, parent) =>
          ok := Follow(name, parent);
          FollowCarries(name, parent, sets, resolver.recent, resolver.now, pending, failing, before, resolved, cut, ok);
          IsUnderRule(sets, parent);
        case Unlearned(name) =>
          ok := Unfollow(name);
          UnfollowCarries(name, sets, resolver.recent, resolver.now, pending, failing, before, resolved, cut, ok);
      }
      ChangeIs(Followers(sets, resolved, before), change);
      FollowingIs();
    }

    /** One record: whatever the learner makes of it is carried on. */
    method Handle(event: Event) returns (ok: bool, changes: seq<Change>)
      requires Stores()
      requires learner.history != [] ==> learner.history[|learner.history| - 1].time <= event.time
      modifies this`store, this`torn, this`failures, resolver`learned, resolver`elements, resolver`history,
               resolver`refusals, resolver.index, learner
      ensures Stores() && learner.history == old(learner.history) + [event] && (ok ==> torn <= old(torn))
      ensures learner.said == old(learner.said) + changes && |changes| <= 1
      ensures changes == Judged(learner.ruleOf, old(learner.history), old(learner.learned), old(learner.seenAfter),
                old(learner.generic), event)
      ensures var name := Normal(event.name);
              Weighed(name, Shown(learner.ruleOf, old(learner.history), event, name), old(learner.seenAfter),
                  old(learner.generic),
                      learner.seenAfter, learner.generic)
      ensures changes == old(learner.Now()).Says(learner.ruleOf, event)
                && learner.Now() == old(learner.Now()).Hears(learner.ruleOf, event)
      ensures changes != [] ==>
                && Carried(changes[0], old(resolver.index.sets), old(store), resolver.learned, store, torn, ok)
                && ok == GoesThrough(changes[0], old(resolver.index.sets), resolver.recent, resolver.now,
                                     old(resolver.refusals), old(failures))
      ensures changes == [] ==> ok && store == old(store) && torn == old(torn) && failures == old(failures)
      ensures changes == [] ==> unchanged(resolver) && unchanged(resolver.index)
      ensures learner.learned == Apply(old(learner.learned), changes) && (old(Quiet()) ==> ok && Quiet())
      // about a name it has decided on the learner says only that it is generic, and the store gains nothing
      ensures old(Known()) <= Known() && GainsNothing(old(Known()), old(store), store)
      ensures changes != [] && changes[0].Learned? ==> changes[0].name !in old(Known())
      ensures ok ==> Following() == AfterChanges(old(Following()), changes)
    {
      hide AfterChange, AfterChanges, Learnt.Hears, Learnt.Says;
      hide Resolver.Valid, Learner.Valid, LogReader.Valid, Replays.Recorded, Replays.AllTold, Tracks, Witnessed,
           IsSound, Declared, Weighed, Verdict, Judged, Shown;
      ghost var known := Known();
      NothingGained(known, store);
      changes := learner.Observe(event);
      ChangesOne(Following(), changes);
      ok := true;
      if changes != [] {
        SaidAgrees(resolver.learned, old(learner.learned), store, torn, changes[0]);
        ghost var before, sets := store, resolver.index.sets;
        QuietGoes(changes[0], sets, resolver.recent, resolver.now, resolver.refusals, failures);
        ok := Carry(changes[0]);
        CarriedGains(changes[0], sets, before, resolver.learned, store, torn, ok, known);
      }
    }

    method Drop(name: Name) returns (ok: bool, removed: bool)
      requires Stores()
      modifies this`store, this`torn, this`failures, resolver`learned, resolver.index, learner`learned, learner`seenAfter,
               learner`generic, learner`said, learner`inherited, learner`since
      ensures Stores() && torn <= old(torn) && learner.history == old(learner.history)
      ensures name !in learner.learned && name !in learner.generic
      ensures Get(resolver.learned, name).None? && name !in torn
      ensures ok ==> Get(store, name).None? && removed == Get(old(store), name).Some?
      ensures store == (if ok then Dicts.Remove(old(store), name) else old(store)) && (old(Quiet()) ==> ok && Quiet())
      ensures Known() == old(Known()) - {name}
      ensures learner.Now() == Forgotten(old(learner.Now()), name)
      ensures ok ==> Following() == AfterChange(old(Following()), Unlearned(name))
    {
      hide *;
      FollowingIs();
      learner.NowIs();
      ForgottenIs(learner.Now(), name);
      ChangeIs(Following(), Unlearned(name));
      StoresAre();
      KnownDicts();
      RemoveIsDict(resolver.learned, name);
      RemoveIsDict(store, name);
      ForgetAgrees(resolver.learned, learner.learned, store, torn, name);
      CalmStays(failures);
      learner.Forget(name);
      removed := Get(store, name).Some?;
      ok := Unfollow(name);
      StoresAre();
      learner.NowIs();
      FollowingIs();
    }

    /** The owner removed a learned name. */
    method Forget(configNow: Config, sameObject: bool, name: Name) returns (ok: bool, removed: bool)
      requires Valid()
      modifies this`config, this`learner, this`store, this`torn, this`failures, resolver`learned, resolver.index, learner
      ensures Valid() && (learner == old(learner) || fresh(learner)) && torn <= old(torn)
      ensures name !in learner.learned && name !in learner.generic && Get(resolver.learned, name).None? && name !in torn
      ensures ok ==> Get(store, name).None? && removed == Get(old(store), name).Some?
      ensures store == (if ok then Dicts.Remove(old(store), name) else old(store)) && (old(Quiet()) ==> ok && Quiet())
      ensures Known() == old(Known()) - {name}
      ensures ok ==> Stepped(old(Standing()), Forgetting(configNow, sameObject, name), Standing())
    {
      hide AfterChange, Stores, Quiet, IsDict, Get, Dicts.Remove, Refreshed, Forgotten;
      hide Resolver.Valid, Learner.Valid, LogReader.Valid, Replays.Recorded, Replays.AllTold, Tracks, Witnessed,
           IsSound, Declared, Agree, ExactlyOnce, InTimeOrder;
      Refresh(configNow, sameObject);
      ok, removed := Drop(name);
    }

    /** `round`: every record taken from the log reaches the learner, in time order; one that fails ends the round
        and stays before the cursor. */
    method Round(configNow: Config, sameObject: bool, arrived: seq<Records>)
      returns (ok: bool, ghost carried: bool, changes: seq<Change>)
      requires Valid()
      modifies `config, `learner, `store, `torn, `failures, resolver`learned, resolver`elements, resolver`history,
               resolver`refusals, resolver.index,
               learner, reader, reader.log
      ensures Valid() && (learner == old(learner) || fresh(learner))
      // unless a change could not be carried out, the stores agree as far as before
      ensures (ok ==> carried) && (carried ==> torn <= old(torn)) && (old(Quiet()) ==> ok && Quiet())
      // what the learner was told, what it said of it, and what became of that
      ensures learner.said == old(learner.said) + changes
      ensures ok ==> Rounded(old(Standing()), sameObject, configNow, arrived, changes, Standing())
      // a name the learner had decided on before, one that was torn among them, enters the store exactly as a CNAME target
      ensures old(Known()) <= Known() && EntersAsTarget(old(Known()), old(store), store, resolver.cnames, configNow)
      ensures ok ==> forall n :: n in old(Known()) && Get(old(store), n).None? ==>
                (Get(store, n).Some? <==> IsTarget(resolver.cnames, configNow, n))
      // what was handled stays handled; a round that succeeds leaves nothing that was in the log when it began
      ensures old(reader.at.handled) <= reader.at.handled && old(reader.log.log) <= reader.log.log
                && old(Behind()) <= Behind()
      ensures ok && reader.cursor.Some? ==> |old(reader.log.log)| <= reader.at.to
      // a record is left out only by a backlog that does not fit the pages of a round
      ensures reader.at.skipped && !old(reader.at.skipped) ==>
                old(reader.cursor).Some? && |reader.log.log| - old(reader.at.to) > Reach(OLDER_PAGES)
    {
      hide Resolver.Valid, Learner.Valid, LogReader.Valid, Replays.Recorded, Replays.AllTold, Tracks, Witnessed,
           IsSound, Declared, Agree, ExactlyOnce, InTimeOrder;
      hide EntersAsTarget, CnamesStored;
      hide AfterRound, NewRecordsOf, EventsOf, Grown;
      Refresh(configNow, sameObject);
      ghost var known, before := Known(), store;
      ok, carried, changes := RunRound(configNow, arrived);
      if ok {
        TargetsEntered(known, before, store, resolver.cnames, configNow);
      }
    }

    lemma BehindIs()
      ensures Behind() == if reader.cursor.Some? then reader.at.to else 0
    {
    }

    lemma FetchRan(first: seq<bool>, found: bool)
      ensures Calm(first) && Ran(first, reader.log.refusals, found) ==> found && Calm(reader.log.refusals)
    {
      if Calm(first) && Ran(first, reader.log.refusals, found) {
        RanCalm(first, reader.log.refusals, found);
      }
    }

    /** The new records of the log, one after the other. */
    method TakeNew(arrived: seq<Records>) returns (ok: bool, ghost carried: bool, changes: seq<Change>)
      requires Valid()
      modifies `store, `torn, `failures, resolver`learned, resolver`elements, resolver`history, resolver`refusals,
               resolver.index, learner, reader,
               reader.log
      ensures Valid() && old(reader.at.handled) <= reader.at.handled
      ensures (ok ==> carried) && (carried ==> torn <= old(torn)) && (old(Quiet()) ==> ok && Quiet())
      ensures learner.said == old(learner.said) + changes
      ensures ok ==> Took(old(Standing()), arrived, learner.Now(), reader.at.handled, changes)
      ensures ok ==> Following() == AfterChanges(old(Following()), changes)
      ensures old(Known()) <= Known() && GainsNothing(old(Known()), old(store), store)
      ensures old(reader.log.log) <= reader.log.log && old(Behind()) <= Behind()
      ensures ok && reader.cursor.Some? ==> |old(reader.log.log)| <= reader.at.to
      ensures reader.at.skipped && !old(reader.at.skipped) ==>
                old(reader.cursor).Some? && |reader.log.log| - old(reader.at.to) > Reach(OLDER_PAGES)
    {
      hide *;
      ghost var standing := Standing();
      StandingIs();
      learner.NowIs();
      BehindIs();
      ValidIs();
      StoresAre();
      NothingGained(Known(), store);
      changes := [];
      var found := reader.Fetch(arrived);
      FetchRan(old(reader.log.refusals), found.Some?);
      StoresAre();
      ValidIs();
      BehindIs();
      if found.None? {
        return false, true, changes;
      }
      ok, changes := TakeAll(found.value);
      carried := ok;
      if ok {
        learner.NowIs();
        TookIs(standing, arrived, learner.Now(), reader.at.handled, changes, found.value);
      }
    }

    method RunRound(configNow: Config, arrived: seq<Records>) returns (ok: bool, ghost carried: bool, changes: seq<Change>)
      requires Valid()
      modifies `store, `torn, `failures, resolver`learned, resolver`elements, resolver`history, resolver`refusals,
               resolver.index, learner, reader,
               reader.log
      ensures Valid() && old(reader.at.handled) <= reader.at.handled
      ensures (ok ==> carried) && (carried ==> torn <= old(torn)) && (old(Quiet()) ==> ok && Quiet())
      ensures learner.said == old(learner.said) + changes
      ensures ok ==> Took(old(Standing()), arrived, learner.Now(), reader.at.handled, changes)
      ensures ok ==> Following() == AfterRound(old(Following()), changes, resolver.cnames, configNow)
      ensures old(Known()) <= Known() && EntersAsTarget(old(Known()), old(store), store, resolver.cnames, configNow)
      ensures (ok ==> CnamesStored(resolver.cnames, configNow, store)) && learner == old(learner)
      ensures old(reader.log.log) <= reader.log.log && old(Behind()) <= Behind()
      ensures ok && reader.cursor.Some? ==> |old(reader.log.log)| <= reader.at.to
      ensures reader.at.skipped && !old(reader.at.skipped) ==>
                old(reader.cursor).Some? && |reader.log.log| - old(reader.at.to) > Reach(OLDER_PAGES)
    {
      hide *;
      FollowingIs();
      NobodyEnters(store, resolver.cnames, configNow);
      ghost var known, before, first := Known(), store, Following();
      ok, carried, changes := TakeNew(arrived);
      ghost var middle := store;
      EntersStep(known, before, store, store, resolver.cnames, configNow);
      if ok {
        FollowingIs();
        NobodyEnters(store, resolver.cnames, configNow);
        AfterRoundIs(first, changes, resolver.cnames, configNow);
        ValidIs();
        BehindIs();
        ok := StoreCnames(configNow);
        EntersStep(known, before, middle, store, resolver.cnames, configNow);
        FollowingIs();
        ValidIs();
        BehindIs();
      }
    }

    method TakeAll(records: Records) returns (ok: bool, changes: seq<Change>)
      requires Valid() && reader.at.pending == records && (reader.cursor.Some? ==> reader.at.to <= reader.at.next)
      modifies `store, `torn, `failures, resolver`learned, resolver`elements, resolver`history, resolver`refusals,
               resolver.index, learner, reader
      ensures Valid() && old(reader.at.handled) <= reader.at.handled && (ok ==> torn <= old(torn))
      ensures old(Quiet()) ==> ok && Quiet()
      ensures old(Known()) <= Known() && GainsNothing(old(Known()), old(store), store) && old(Behind()) <= Behind()
      ensures ok && records != [] ==> reader.cursor.Some? && reader.at.to == old(reader.at.next) + |records|
      ensures ok && records == [] ==> reader.cursor == old(reader.cursor) && reader.at.to == old(reader.at.to)
      ensures reader.at.skipped ==>
                old(reader.at.skipped) || (old(reader.cursor).Some? && old(reader.at.to) < old(reader.at.next))
      ensures learner.said == old(learner.said) + changes
      ensures ok ==> learner.history == old(learner.history) + EventsOf(records) && reader.at.handled == old(reader.at.handled) + records
      ensures ok ==> learner.Now() == old(learner.Now()).HearsAll(learner.ruleOf, EventsOf(records))
                     && changes == old(learner.Now()).SaysAll(learner.ruleOf, EventsOf(records))
      ensures ok ==> Following() == AfterChanges(old(Following()), changes)
    {
      hide *;
      NoEvents();
      BehindIs();
      learner.Now().HearsNothing(learner.ruleOf);
      NothingGained(Known(), store);
      var i := 0;
      ok, changes := true, [];
      NoChanges(Following());
      while ok && i < |records|
        invariant i <= |records| && learner.said == old(learner.said) + changes
        invariant ok ==> learner.history == old(learner.history) + EventsOf(records[..i]) && reader.at.handled == old(reader.at.handled) + records[..i]
        invariant ok ==> Following() == AfterChanges(old(Following()), changes)
        invariant ok ==> learner.Now() == old(learner.Now()).HearsAll(learner.ruleOf, EventsOf(records[..i]))
                         && changes == old(learner.Now()).SaysAll(learner.ruleOf, EventsOf(records[..i]))
        invariant (ok ==> torn <= old(torn)) && (old(Quiet()) ==> ok && Quiet())
        invariant old(Known()) <= Known() && GainsNothing(old(Known()), old(store), store)
        invariant i <= |records| && Valid() && reader.at.pending == records[i..]
        invariant old(reader.at.handled) <= reader.at.handled && reader.at.next == old(reader.at.next) + i
        invariant if i == 0 then reader.cursor == old(reader.cursor) && reader.at.to == old(reader.at.to)
                    && reader.at.skipped == old(reader.at.skipped)
                  else reader.cursor.Some? && reader.at.to == reader.at.next
        invariant reader.at.skipped ==>
                    old(reader.at.skipped) || (old(reader.cursor).Some? && old(reader.at.to) < old(reader.at.next))
        decreases |records| - i, ok
      {
        ghost var known, before := Known(), store;
        var more;
        ok, more := Take(records[i]);
        GainsNothingOn(old(Known()), old(store), known, before, store);
        EventsNext(records, i);
        old(learner.Now()).HearsNext(learner.ruleOf, EventsOf(records[..i]), records[i].event);
        ChangesAppend(old(Following()), changes, more);
        Associative(old(learner.said), changes, more);
        changes := changes + more;
        i := if ok then i + 1 else i;
      }
      assert i == |records| ==> records[..i] == records;
      BehindIs();
    }

    /** One record, and the cursor behind it. */
    method Take(record: Record) returns (ok: bool, changes: seq<Change>)
      requires Valid() && reader.at.pending != [] && record == reader.at.pending[0]
      modifies `store, `torn, `failures, resolver`learned, resolver`elements, resolver`history, resolver`refusals,
               resolver.index, learner, reader
      ensures Valid() && (ok ==> torn <= old(torn)) && (old(Quiet()) ==> ok && Quiet())
      ensures old(Known()) <= Known() && GainsNothing(old(Known()), old(store), store)
      ensures reader.at.handled == old(reader.at.handled) + if ok then [record] else []
      ensures reader.at.pending == old(reader.at.pending)[if ok then 1 else 0..]
      ensures ok ==> reader.cursor.Some? && reader.at.to == reader.at.next == old(reader.at.next) + 1
      ensures ok ==> reader.at.skipped == (old(reader.at.skipped) || (old(reader.cursor).Some? && old(reader.at.to) < old(reader.at.next)))
      ensures !ok ==> reader.cursor == old(reader.cursor) && reader.at.to == old(reader.at.to) && reader.at.next == old(reader.at.next)
                      && reader.at.skipped == old(reader.at.skipped)
      ensures learner.history == old(learner.history) + [record.event] && learner.said == old(learner.said) + changes
      ensures changes == old(learner.Now()).Says(learner.ruleOf, record.event)
              && learner.Now() == old(learner.Now()).Hears(learner.ruleOf, record.event)
      ensures ok ==> Following() == AfterChanges(old(Following()), changes) && reader.cursor == Some(record.stamp)
    {
      hide *;
      ValidIs();
      ghost var seen := reader.at.seen;
      reader.HandOn(record);
      HandsOn(seen, learner.history, record);
      MovedIs(reader.cursor, reader.at);
      ok, changes := Handle(record.event);
      if ok {
        reader.Done(record);
      }
      ValidIs();
    }

    /** config.yaml changed: the resolver forgets the learned names whose site is under no rule any more. */
    method NewRules(configNow: Config) returns (ok: bool)
      requires Valid()
      modifies resolver`index, resolver`config, resolver`learned, resolver`elements, resolver`history, resolver`refusals
      ensures Valid() && fresh(resolver.index) && (old(Quiet()) ==> ok && Quiet())
      ensures Stepped(old(Standing()), Configuring(configNow), Standing())
    {
      hide *;
      ValidIs();
      StoresAre();
      KnownDicts();
      ghost var standing := Standing();
      StandingIs();
      ghost var before := resolver.learned;
      ok := resolver.Reload(configNow);
      StandingIs();
      ReloadSteps(standing, configNow, resolver.lists, Standing());
      StillAgree(Rejoined(ConfigIndex(configNow, resolver.lists), resolver.cnames), before, learner.learned, store, torn);
      StoresAre();
      ValidIs();
    }

    /** New lists of names: the same. */
    method NewLists(configNow: Config, lists: map<string, seq<Name>>) returns (ok: bool)
      requires Valid()
      modifies resolver`lists, resolver`index, resolver`config, resolver`learned, resolver`elements, resolver`history,
               resolver`refusals
      ensures Valid() && fresh(resolver.index) && (old(Quiet()) ==> ok && Quiet())
      ensures Stepped(old(Standing()), Relisting(configNow, lists), Standing())
    {
      hide *;
      ValidIs();
      StoresAre();
      KnownDicts();
      ghost var standing := Standing();
      StandingIs();
      ghost var before := resolver.learned;
      ok := resolver.SetLists(configNow, lists);
      StandingIs();
      ReloadSteps(standing, configNow, lists, Standing());
      StillAgree(Rejoined(ConfigIndex(configNow, lists), resolver.cnames), before, learner.learned, store, torn);
      StoresAre();
      ValidIs();
    }

    /** Time passes, and the router may load its table again. */
    method Meanwhile(milliseconds: nat, ghost rebuilt: bool)
      requires Valid()
      modifies resolver`now, resolver`elements, resolver`history
      ensures Valid() && Standing() == old(Standing())
    {
      hide Resolver.Valid, Learner.Valid, LogReader.Valid, Replays.Recorded, Replays.AllTold, Tracks, Witnessed,
           IsSound, Declared, ExactlyOnce, InTimeOrder, Agree;
      resolver.Wait(milliseconds);
      if rebuilt {
        resolver.TableRebuilt();
      }
    }

    /** AdGuard asks the resolver meanwhile. */
    method Answer(query: Query, upstream: Option<seq<RRset>>) returns (response: Response)
      requires Valid()
      modifies resolver`recent, resolver`cnames, resolver`elements, resolver`history, resolver`refusals,
               resolver`given, resolver`told,
               resolver.index
      ensures Valid() && (old(Quiet()) ==> Quiet()) && CnamesGrow(old(resolver.cnames), resolver.cnames)
      ensures Stepped(old(Standing()), Asking(query, upstream), Standing())
    {
      hide *;
      ghost var standing := Standing();
      StandingIs();
      ValidIs();
      StoresAre();
      KnownDicts();
      CalmStays(resolver.refusals);
      CnamesStay(resolver.cnames);
      QueryKeeps(resolver.Records(), resolver.index.sets, resolver.cnames, query, upstream, resolver.now);
      RecordsAre(resolver);
      response := resolver.Resolve(query, upstream);
      StandingIs();
      AskSteps(standing, query, upstream, resolver.index.sets, resolver.cnames);
      RecordsAre(resolver);
      StoresAre();
      ValidIs();
    }

    /** A device asks for the site. */
    method SeesSite(site: Name, name: Name, client: string)
      requires Stores() && learner.history == [] && learner.learned == map[] && learner.seenAfter == map[]
                 && learner.generic == {}
      requires IsDomain(site) && learner.ruleOf(site) == Some((site, true)) && IsDomain(name) && learner.ruleOf(name).None?
      modifies this`store, this`torn, this`failures, resolver`learned, resolver`elements, resolver`history,
               resolver`refusals,
               resolver.index, learner
      ensures Stores() && unchanged(resolver) && unchanged(resolver.index) && failures == old(failures)
      ensures store == old(store) && torn == old(torn)
      ensures learner.history == [Event(client, site, 0)] && learner.learned == map[] && learner.seenAfter == map[]
                && learner.generic == {}
    {
      hide Stores, Known, Shown, Judged, Carried, GoesThrough, Quiet, GainsNothing, UnderRule;
      ThreeEvents(learner.ruleOf, site, name, client);
      var _, _ := Handle(Event(client, site, 0));
    }

    /** Then for the name, and nft refuses the fill of what is learned. */
    method LearnsTorn(site: Name, name: Name, client: string)
      requires Stores() && learner.history == [Event(client, site, 0)] && learner.learned == map[]
                 && learner.seenAfter == map[]
      requires learner.generic == {} && store == [] && torn == {} && resolver.learned == [] && resolver.refusals == [true]
      requires IsDomain(site) && learner.ruleOf(site) == Some((site, true)) && UnderRule(resolver.index.sets, site)
      requires IsDomain(name) && learner.ruleOf(name).None? && Replays.Refills(resolver.recent, name, resolver.now)
      modifies this`store, this`torn, this`failures, resolver`learned, resolver`elements, resolver`history,
               resolver`refusals,
               resolver.index, learner
      ensures Stores() && name in torn && store == [] && Get(resolver.learned, name) == Some(site)
      ensures learner.history == [Event(client, site, 0), Event(client, name, 1)]
      ensures learner.learned == map[name := site] && learner.seenAfter == map[name := {site}] && learner.generic == {}
    {
      hide Stores, Known, Shown, Judged, Quiet, GainsNothing, UnderRule, Replays.Refills;
      ThreeEvents(learner.ruleOf, site, name, client);
      var _, _ := Handle(Event(client, name, 1));
    }

    /** The record stays before the cursor and is read again: the learner knows the name by now. */
    method ReadsAgain(site: Name, name: Name, client: string)
      requires Stores() && learner.history == [Event(client, site, 0), Event(client, name, 1)]
      requires learner.learned == map[name := site] && learner.seenAfter == map[name := {site}] && learner.generic == {}
      requires IsDomain(site) && learner.ruleOf(site) == Some((site, true)) && IsDomain(name) && learner.ruleOf(name).None?
      modifies this`store, this`torn, this`failures, resolver`learned, resolver`elements, resolver`history,
               resolver`refusals,
               resolver.index, learner
      ensures Stores() && unchanged(resolver) && torn == old(torn) && store == old(store)
                && learner.learned == old(learner.learned)
      ensures learner.history == old(learner.history) + [Event(client, name, 1)]
    {
      hide Stores, Known, Shown, Judged, Carried, GoesThrough, Quiet, GainsNothing, UnderRule;
      ThreeEvents(learner.ruleOf, site, name, client);
      var _, _ := Handle(Event(client, name, 1));
    }

    lemma StoreIsDict()
      requires Valid()
      ensures IsDict(store)
    {
    }

    /** How far the cursor has come. */
    ghost function Behind(): nat
      reads reader
    {
      if reader.cursor.Some? then reader.at.to else 0
    }

    /** Any run of core: the start, then rounds, forgotten names, answers, new rules and lists, rebuilt tables. While every
        change could be carried out, resolver, learner and store agree about every name the resolver learned, and every
        change could be when no fill was refused and no access to the store failed. While no backlog was longer than five
        pages, the records handled are an unbroken stretch of the log, each handled once and in order. A name the learner
        decided on and nobody forgot entered the store only as a CNAME target. */
    method Live(config: Config, steps: seq<Step>)
      returns (started: bool, done: seq<bool>, ghost states: seq<LoopState>, ghost carried: bool, ghost fits: bool)
      requires Valid() && learner.generic == {} && torn == {} && !reader.at.skipped
      modifies this, resolver, resolver.index, learner, reader, reader.log
      ensures Valid() && old(reader.at.handled) <= reader.at.handled && old(reader.log.log) <= reader.log.log
      ensures carried ==> torn == {} && Agree(resolver.learned, learner.learned, store, {})
      ensures Went(states, steps, done) && states[|steps|] == Standing()
      ensures old(Quiet()) ==> carried && started && forall i :: 0 <= i < |steps| ==> done[i]
      // what the start brings back
      ensures started ==> forall i :: 0 <= i < |old(store)| && UnderRule(old(resolver.index.sets), old(store)[i].1) ==>
                Get(states[0].followers.resolved, old(store)[i].0) == Some(old(store)[i].1)
      ensures fits ==> !reader.at.skipped
      ensures fits && reader.cursor.Some? ==>
                reader.at.from <= reader.at.to <= |reader.log.log|
                    && reader.at.handled == reader.log.log[reader.at.from..reader.at.to]
      ensures |reader.log.log| - old(Behind()) <= 1000 ==> fits
    {
      hide *;
      started, carried := Start(config, true);
      StandingIs();
      BackKnows();
      ghost var rest: bool;
      done, states, rest, fits := Run(steps);
      FivePages();
      carried := carried && rest;
      ValidSays();
    }

    method Run(steps: seq<Step>)
      returns (done: seq<bool>, ghost states: seq<LoopState>, ghost carried: bool, ghost fits: bool)
      requires Valid()
      modifies this, resolver, resolver.index, learner, reader, reader.log
      ensures Valid() && old(reader.at.handled) <= reader.at.handled && old(reader.log.log) <= reader.log.log
      ensures Went(states, steps, done) && states[0] == old(Standing()) && states[|steps|] == Standing()
      ensures old(Quiet()) ==> forall i :: 0 <= i < |steps| ==> done[i]
      ensures (carried ==> torn <= old(torn)) && (old(Quiet()) ==> carried)
      ensures fits && !old(reader.at.skipped) ==> !reader.at.skipped
      ensures |reader.log.log| - old(Behind()) <= Reach(OLDER_PAGES) ==> fits
      ensures Unforgotten(old(Known()), steps) <= Known()
      ensures StoreGains(Unforgotten(old(Known()), steps), old(store), store, resolver.cnames)
    {
      hide Valid, Quiet, Known, Behind, StoreGains, CnamesGrow, Forgets, Standing, Stepped, Went;
      ghost var kept := Unforgotten(Known(), steps);
      NothingGains(kept, store, resolver.cnames);
      carried, fits := true, true;
      done, states := [], [Standing()];
      WentNowhere(states, steps);
      for i := 0 to |steps|
        invariant Went(states, steps[..i], done) && |states| == i + 1 && |done| == i
        invariant states[0] == old(Standing()) && states[i] == Standing()
        invariant old(Quiet()) ==> forall k :: 0 <= k < i ==> done[k]
        invariant Valid() && old(reader.at.handled) <= reader.at.handled && old(reader.log.log) <= reader.log.log
        invariant resolver.index == old(resolver.index) || fresh(resolver.index)
        invariant learner == old(learner) || fresh(learner)
        invariant (carried ==> torn <= old(torn)) && (old(Quiet()) ==> carried && Quiet())
        invariant fits && !old(reader.at.skipped) ==> !reader.at.skipped
        invariant (|reader.log.log| - old(Behind()) <= Reach(OLDER_PAGES) ==> fits) && old(Behind()) <= Behind()
        invariant kept <= Known() && StoreGains(kept, old(store), store, resolver.cnames)
      {
        ghost var known, before, cnames := Known(), store, resolver.cnames;
        ghost var stepped, fitted;
        var went;
        UnforgottenStays(old(Known()), steps, i, known);
        went, stepped, fitted := Do(steps[i]);
        WentOn(states, steps, done, i, went, Standing());
        done, states := done + [went], states + [Standing()];
        GainsOn(kept, old(store), before, store, cnames, resolver.cnames, known);
        carried, fits := carried && stepped, fits && fitted;
      }
      assert steps[..|steps|] == steps;
    }

    /** One step of a run, and whether the log behind the cursor fitted the pages a round may fetch. */
    method Do(step: Step) returns (done: bool, ghost carried: bool, ghost fits: bool)
      requires Valid()
      modifies this, resolver, resolver.index, learner, reader, reader.log
      ensures Valid() && (learner == old(learner) || fresh(learner))
                && (resolver.index == old(resolver.index) || fresh(resolver.index))
      ensures (carried ==> torn <= old(torn)) && (old(Quiet()) ==> carried && done && Quiet())
      ensures done ==> Stepped(old(Standing()), step, Standing())
      ensures old(reader.at.handled) <= reader.at.handled && old(reader.log.log) <= reader.log.log
                && old(Behind()) <= Behind()
      ensures fits <==> !step.Rounding? || old(reader.cursor).None? || |reader.log.log| - old(Behind()) <= Reach(OLDER_PAGES)
      ensures fits && !old(reader.at.skipped) ==> !reader.at.skipped
      ensures forall n :: n in old(Known()) && !Forgets(step, n) ==> n in Known()
      ensures StoreGains(old(Known()), old(store), store, resolver.cnames)
                && CnamesGrow(old(resolver.cnames), resolver.cnames)
    {
      hide Valid, Agree, EntersAsTarget, StoreGains, CnamesGrow, IsTarget, IsDict, Calm, Standing, Stepped, Rounded, Quiet,
           Known, Behind, Reach;
      BehindIs();
      done, carried, fits := true, true, true;
      StillStands(Standing(), step);
      NothingGains(Known(), store, resolver.cnames);
      CnamesStay(resolver.cnames);
      ghost var known, before := Known(), store;
      match step
      case Rounding(config, same, arrived) =>
        ghost var behind, first := Behind(), reader.cursor.None?;
        ghost var standing := Standing();
        var changes;
        done, carried, changes := Round(config, same, arrived);
        if done {
          RoundSteps(standing, same, config, arrived, changes, Standing());
        }
        TargetsGain(known, before, store, resolver.cnames, config);
        fits := first || |reader.log.log| - behind <= Reach(OLDER_PAGES);
      case Forgetting(config, same, name) =>
        StoreIsDict();
        RemovedGains(known, before, name, resolver.cnames);
        var removed;
        done, removed := Forget(config, same, name);
      case Asking(query, upstream) =>
        var _ := Answer(query, upstream);
        NothingGains(known, before, resolver.cnames);
      case Configuring(config) =>
        done := NewRules(config);
      case Relisting(config, lists) =>
        done := NewLists(config, lists);
      case Waiting(milliseconds, rebuilt) =>
        Meanwhile(milliseconds, rebuilt);
    }
  }

  // ---- runs ----------------------------------------------------------------------------------------

  /** What can happen to core: a round of the loop, an owner who forgets a name, a query, new rules or lists, time and a
      router that loads its table again. */
  datatype Step =
    | Rounding(config: Config, same: bool, arrived: seq<Records>)
    | Forgetting(config: Config, same: bool, name: Name)
    | Asking(query: Query, upstream: Option<seq<RRset>>)
    | Configuring(config: Config)
    | Relisting(config: Config, lists: map<string, seq<Name>>)
    | Waiting(milliseconds: nat, rebuilt: bool)

  predicate Forgets(step: Step, name: Name) { step.Forgetting? && step.name == name }

  ghost function Unforgotten(known: set<Name>, steps: seq<Step>): set<Name> {
    set n | n in known && forall step :: step in steps ==> !Forgets(step, n)
  }

  lemma UnforgottenStays(known: set<Name>, steps: seq<Step>, i: nat, now: set<Name>)
    requires i < |steps| && Unforgotten(known, steps) <= now
    ensures forall n :: n in Unforgotten(known, steps) ==> n in now && !Forgets(steps[i], n)
  {
    assert steps[i] in steps;
  }

  /** Of these names only CNAME targets of this configuration entered the store. */
  ghost predicate EntersAsTarget(known: set<Name>, before: Stored, after: Stored, cnames: seq<(Name, Name)>,
                                 config: Config) {
    forall n :: n in known && Get(before, n).None? && Get(after, n).Some? ==> IsTarget(cnames, config, n)
  }

  lemma TargetsEntered(known: set<Name>, before: Stored, after: Stored, cnames: seq<(Name, Name)>, config: Config)
    requires EntersAsTarget(known, before, after, cnames, config) && CnamesStored(cnames, config, after)
    ensures forall n :: n in known && Get(before, n).None? ==> (Get(after, n).Some? <==> IsTarget(cnames, config, n))
  {
  }

  lemma NobodyEnters(store: Stored, cnames: seq<(Name, Name)>, config: Config)
    ensures OnlyTargets(store, store, cnames, config)
  {
  }

  lemma EntersStep(known: set<Name>, before: Stored, middle: Stored, after: Stored, cnames: seq<(Name, Name)>,
                   config: Config)
    requires GainsNothing(known, before, middle) && OnlyTargets(middle, after, cnames, config)
    ensures EntersAsTarget(known, before, after, cnames, config)
  {
  }

  lemma GainsNothingOn(kept: set<Name>, first: Stored, known: set<Name>, before: Stored, after: Stored)
    requires kept <= known && GainsNothing(kept, first, before) && GainsNothing(known, before, after)
    ensures GainsNothing(kept, first, after)
  {
  }

  /** Of these names only CNAME targets entered the store. */
  ghost predicate StoreGains(known: set<Name>, before: Stored, after: Stored, cnames: seq<(Name, Name)>) {
    forall n :: n in known && Get(before, n).None? && Get(after, n).Some? ==> Get(cnames, n).Some?
  }

  lemma NothingGains(known: set<Name>, store: Stored, cnames: seq<(Name, Name)>)
    ensures StoreGains(known, store, store, cnames)
  {
  }

  lemma TargetsGain(known: set<Name>, before: Stored, after: Stored, cnames: seq<(Name, Name)>, config: Config)
    requires EntersAsTarget(known, before, after, cnames, config)
    ensures StoreGains(known, before, after, cnames)
  {
  }

  lemma RemovedGains(known: set<Name>, before: Stored, name: Name, cnames: seq<(Name, Name)>)
    requires IsDict(before)
    ensures StoreGains(known, before, Dicts.Remove(before, name), cnames)
  {
    RemoveIsDict(before, name);
  }

  lemma GainsOn(kept: set<Name>, first: Stored, before: Stored, after: Stored, cnames: seq<(Name, Name)>,
                next: seq<(Name, Name)>,
                known: set<Name>)
    requires kept <= known && StoreGains(kept, first, before, cnames) && StoreGains(known, before, after, next)
    requires CnamesGrow(cnames, next)
    ensures StoreGains(kept, first, after, next)
  {
  }

  lemma RecordsAre(resolver: Resolver)
    ensures resolver.Records() == Book(resolver.recent, resolver.history, resolver.refusals, resolver.given, resolver.told)
  {
  }

  /** A query makes no fill refused, and no CNAME target is forgotten. */
  lemma QueryKeeps(book: Book, sets: map<Name, string>, cnames: seq<(Name, Name)>, query: Query,
                   upstream: Option<seq<RRset>>, now: int)
    requires IsDict(cnames)
    ensures Calm(book.refusals) ==> Calm(AfterQuery(book, sets, query, upstream, now).refusals)
    ensures Answers(sets, query, upstream) && Matched(sets, AskedName(query).value).Some? ==>
              var name := AskedName(query).value;
              CnamesGrow(cnames, Joined(sets, cnames, Targets(upstream.value), Matched(sets, name).value, name).1)
    ensures Answers(sets, query, upstream) ==> upstream.Some? && AskedName(query).Some?
  {
    if Answers(sets, query, upstream) {
      hide Calm, IsDict, CnamesGrow, Joined, Matched, AfterAnswer;
      var name := AskedName(query).value;
      AnswerKeepsOthers(book, name, Matched(sets, name), upstream.value, now);
      if Matched(sets, name).Some? {
        JoinedGrows(sets, cnames, Targets(upstream.value), Matched(sets, name).value, name);
      }
    }
  }

  /** Who was a CNAME target is one. */
  ghost predicate CnamesGrow(before: seq<(Name, Name)>, after: seq<(Name, Name)>) {
    forall n :: Get(before, n).Some? ==> Get(after, n).Some?
  }

  lemma CnamesStay(cnames: seq<(Name, Name)>)
    ensures CnamesGrow(cnames, cnames)
  {
  }

  lemma {:induction false} JoinedGrows(sets: map<Name, string>, cnames: seq<(Name, Name)>, targets: seq<Name>,
                                       setName: string, site: Name)
    requires IsDict(cnames)
    ensures CnamesGrow(cnames, Joined(sets, cnames, targets, setName, site).1)
    decreases targets
  {
    if targets != [] {
      if Matched(sets, targets[0]).Some? {
        JoinedGrows(sets, cnames, targets[1..], setName, site);
      } else {
        PutIsDict(cnames, targets[0], site);
        JoinedGrows(sets[Normal(targets[0]) := setName], Put(cnames, targets[0], site), targets[1..], setName, site);
      }
    }
  }

  lemma StillAgree(sets: map<Name, string>, resolved: seq<(Name, Name)>, learned: map<Name, Name>, stored: Stored,
                   torn: set<Name>)
    requires IsDict(resolved) && Agree(resolved, learned, stored, torn)
    ensures Agree(StillLearned(sets, resolved), learned, stored, torn)
  {
    StillLearnedIsDict(sets, resolved);
    forall n | Get(StillLearned(sets, resolved), n).Some?
      ensures Get(resolved, n) == Get(StillLearned(sets, resolved), n)
    {
      GetOf(resolved, n, Get(StillLearned(sets, resolved), n).value);
    }
  }

  // ---- a refused fill ------------------------------------------------------------------------------

  /** It comes to that: nft refuses the fill of a name that is learned; its record is read again, and the learner, which
      knows the name by then, says nothing more. Resolver and learner have it, the store does not. */
  method RefusedFillStaysOut(config: Config, rule: DomainRule, name: Name, address: Address, client: string)
    returns (loop: SmartLoop)
    requires Configuration.Valid(config) && rule in config.routing.value.domains && rule.learn
    requires IsDomain(name) && RuleOf(config, name).None? && IsSteerable(address)
    ensures loop.Stores() && name in loop.torn && loop.store == []
    ensures Get(loop.resolver.learned, name) == Some(rule.domain) && loop.learner.learned == map[name := rule.domain]
    ensures loop.learner.history == [Event(client, rule.domain, 0), Event(client, name, 1), Event(client, name, 1)]
  {
    hide *;
    DomainRuled(config, rule);
    loop := NewLoop(config, name, address);
    loop.SeesSite(rule.domain, name, client);
    loop.LearnsTorn(rule.domain, name, client);
    loop.ReadsAgain(rule.domain, name, client);
  }

  /** A new loop over such a resolver. */
  method NewLoop(config: Config, name: Name, address: Address) returns (loop: SmartLoop)
    requires Configuration.Valid(config) && IsDomain(name) && RuleOf(config, name).None? && IsSteerable(address)
    ensures fresh(loop) && fresh(loop.resolver) && fresh(loop.resolver.index) && fresh(loop.learner)
    ensures loop.Stores() && loop.learner.history == [] && loop.learner.learned == map[] && loop.learner.seenAfter == map[]
    ensures loop.learner.generic == {} && loop.store == [] && loop.torn == {}
              && forall n :: loop.learner.ruleOf(n) == RuleOf(config, n)
    ensures loop.resolver.learned == [] && loop.resolver.refusals == [true]
    ensures loop.resolver.index.sets == ConfigIndex(config, map[])
              && Replays.Refills(loop.resolver.recent, name, loop.resolver.now)
  {
    hide RuleOf, Replays.Refills, IsSteerable, Replays.Recorded, Replays.AllTold, Agree, Tracks, Witnessed, IsSound,
         ConfigIndex,
         Configuration.Valid, Get;
    var resolver := SawName(config, name, address);
    var log := new QueryLog([]);
    var reader := new LogReader(log);
    loop := new SmartLoop(resolver, reader, [], config, []);
  }

  /** A resolver that saw an answer for a name under no rule, and whose next fill will be refused. */
  method SawName(config: Config, name: Name, address: Address) returns (resolver: Resolver)
    requires Configuration.Valid(config) && IsDomain(name) && RuleOf(config, name).None? && IsSteerable(address)
    ensures resolver.Valid() && fresh(resolver) && fresh(resolver.index) && resolver.learned == []
              && resolver.refusals == [true]
    ensures resolver.index.sets == ConfigIndex(config, map[]) && Replays.Refills(resolver.recent, name, resolver.now)
  {
    hide Resolver.Valid, Learner.Valid, LogReader.Valid, Replays.Recorded, Replays.AllTold, Declared, ConfigIndex,
         RuleOf, Configuration.Valid;
    LookupsAgree(config, name);
    DomainIsNormal(name);
    OneAddress(address, 300);
    resolver := new Resolver(config, [true]);
    var _ := resolver.Resolve(Query(Some(name), false), Some([RRset(300, A([address]))]));
  }

  lemma DomainRuled(config: Config, rule: DomainRule)
    requires Configuration.Valid(config) && rule in config.routing.value.domains
    ensures IsDomain(rule.domain) && RuleOf(config, rule.domain) == Some((rule.domain, rule.learn))
    ensures UnderRule(ConfigIndex(config, map[]), rule.domain)
  {
    assert rule.Names()[0] == rule.domain;
    OwnerBeatsLists(config, map[], rule, rule.domain);
    OwnerIsTheRule(config.routing.value.domains, rule, rule.domain);
    LookupOwner(map[], config.routing.value.domains, rule.domain);
    DomainIsNormal(rule.domain);
  }

  lemma ThreeEvents(ruleOf: Learning.Rules, site: Name, name: Name, client: string)
    requires IsDomain(site) && ruleOf(site) == Some((site, true)) && IsDomain(name) && ruleOf(name).None?
    ensures Normal(site) == site && Normal(name) == name
    ensures var first, second := Event(client, site, 0), Event(client, name, 1);
            && Shown(ruleOf, [], first, site) == {} && Judged(ruleOf, [], map[], map[], {}, first) == []
            && Shown(ruleOf, [first], second, name) == {site}
                && Judged(ruleOf, [first], map[], map[], {}, second) == [Learned(name, site)]
            && Shown(ruleOf, [first, second], second, name) == {site}
            && Judged(ruleOf, [first, second], map[name := site], map[name := {site}], {}, second) == []
  {
    var first, second := Event(client, site, 0), Event(client, name, 1);
    DomainIsNormal(site);
    DomainIsNormal(name);
    SitesNext(ruleOf, [], first, client);
    SitesNext(ruleOf, [first], second, client);
    assert [] + [first] == [first] && [first] + [second] == [first, second];
    var visits := [(site, 0)];
    assert visits[1..] == [] && InWindow(visits, 1) == visits;
    assert visits[0] in visits && Domains(visits) == {site};
    assert {site} == {Only({site})};
  }
}
