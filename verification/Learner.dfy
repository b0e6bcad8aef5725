/** Autolearning of routing.mode smart (core/vibedpn/engine/learning.py): a name asked shortly after a site under
    a rule follows that site; a name asked after many sites is generic and follows none. */
module Learning {
  import opened Options
  import opened Names
  import opened Sequences

  /** Ten seconds in microseconds, the resolution of the query log. */
  const WINDOW := 10_000_000
  const GENERIC_PARENTS := 3

  /** One query of the journal; its time in microseconds. */
  datatype Event = Event(client: string, name: Name, time: int)

  datatype Change = Learned(name: Name, parent: Name) | Unlearned(name: Name)

  /** The rule domain a name is under, and whether that rule learns. */
  type Rules = Name -> Option<(Name, bool)>

  /** A site under a learning rule that was asked, and when. */
  type Visits = seq<(Name, int)>

  // ---- what the history says -----------------------------------------------------------------------

  ghost predicate InOrder(history: seq<Event>) {
    forall i, j :: 0 <= i <= j < |history| ==> history[i].time <= history[j].time
  }

  function Learns(ruleOf: Rules, event: Event): bool {
    var rule := ruleOf(Normal(event.name));
    rule.Some? && rule.value.1
  }

  /** Every site under a learning rule a client asked, the first one first. */
  function Sites(ruleOf: Rules, history: seq<Event>, client: string): Visits {
    if history == [] then [] else
      var event := history[|history| - 1];
      var before := Sites(ruleOf, history[..|history| - 1], client);
      if event.client == client && Learns(ruleOf, event)
        then before + [(ruleOf(Normal(event.name)).value.0, event.time)]
        else before
  }

  /** When a client asked last. */
  function LastTime(history: seq<Event>, client: string): int {
    if history == [] then 0
    else if history[|history| - 1].client == client then history[|history| - 1].time
    else LastTime(history[..|history| - 1], client)
  }

  function InWindow(sites: Visits, time: int): Visits {
    if sites == [] then []
    else (if time - sites[0].1 > WINDOW then [] else [sites[0]]) + InWindow(sites[1..], time)
  }

  function Domains(sites: Visits): set<Name> {
    set s | s in sites :: s.0
  }

  function Followed(seenAfter: map<Name, set<Name>>, name: Name): set<Name> {
    if name in seenAfter then seenAfter[name] else {}
  }

  // ---- lemmas about the window ---------------------------------------------------------------------

  ghost predicate Sorted(sites: Visits) {
    forall i, j :: 0 <= i <= j < |sites| ==> sites[i].1 <= sites[j].1
  }

  lemma {:induction false} InWindowAppend(sites: Visits, site: (Name, int), time: int)
    ensures InWindow(sites + [site], time) == InWindow(sites, time) + if time - site.1 > WINDOW then [] else [site]
  {
    if sites != [] {
      assert (sites + [site])[1..] == sites[1..] + [site];
      InWindowAppend(sites[1..], site, time);
    }
  }

  /** What has left the window never comes back. */
  lemma {:induction false} WindowMovesOn(sites: Visits, before: int, time: int)
    requires before <= time
    ensures InWindow(InWindow(sites, before), time) == InWindow(sites, time)
  {
    if sites != [] {
      WindowMovesOn(sites[1..], before, time);
      var rest := InWindow(sites[1..], before);
      if before - sites[0].1 <= WINDOW {
        assert ([sites[0]] + rest)[1..] == rest;
      } else {
        assert [] + rest == rest;
      }
    }
  }

  /** What is popped from the front was outside the window. */
  lemma FirstGone(sites: Visits, time: int)
    requires Sorted(sites) && sites != [] && time - sites[0].1 > WINDOW
    ensures Sorted(sites[1..]) && InWindow(sites[1..], time) == InWindow(sites, time)
  {
  }

  lemma {:induction false} InWindowIn(sites: Visits, time: int)
    ensures forall s :: s in InWindow(sites, time) ==> s in sites
  {
    if sites != [] {
      InWindowIn(sites[1..], time);
    }
  }

  lemma {:induction false} InWindowSorted(sites: Visits, time: int)
    ensures Sorted(sites) ==> Sorted(InWindow(sites, time))
  {
    if sites != [] && Sorted(sites) {
      InWindowSorted(sites[1..], time);
      InWindowIn(sites[1..], time);
      SortedCons(sites[0], sites[1..], InWindow(sites[1..], time));
    }
  }

  lemma SortedCons(first: (Name, int), rest: Visits, some: Visits)
    requires (forall s :: s in rest ==> first.1 <= s.1) && (forall s :: s in some ==> s in rest) && Sorted(some)
    ensures Sorted([first] + some)
  {
  }

  lemma {:induction false} InWindowElements(sites: Visits, time: int)
    ensures forall s :: s in InWindow(sites, time) <==> s in sites && time - s.1 <= WINDOW
    ensures Sorted(sites) ==> Sorted(InWindow(sites, time))
  {
    InWindowSorted(sites, time);
    if sites != [] {
      hide Sorted;
      InWindowElements(sites[1..], time);
      assert forall s :: s in sites <==> s == sites[0] || s in sites[1..];
    }
  }

  /** When the oldest visit is inside the window, so are all. */
  lemma {:induction false} OldestInside(sites: Visits, time: int)
    requires Sorted(sites) && (sites != [] ==> time - sites[0].1 <= WINDOW)
    ensures InWindow(sites, time) == sites
  {
    if sites != [] {
      OldestInside(sites[1..], time);
    }
  }

  lemma {:induction false} SitesInOrder(ruleOf: Rules, history: seq<Event>, client: string)
    requires InOrder(history)
    ensures Sorted(Sites(ruleOf, history, client))
    ensures forall s :: s in Sites(ruleOf, history, client) ==> s.1 <= history[|history| - 1].time
    ensures LastTime(history, client) <= (if history == [] then 0 else history[|history| - 1].time)
         || Sites(ruleOf, history, client) == []
  {
    if history != [] {
      SitesInOrder(ruleOf, history[..|history| - 1], client);
    }
  }

  // ---- what the learner said -----------------------------------------------------------------------

  /** Between two forgets of a name: learned at most once, then unlearned at most once. */
  ghost predicate OncePerForget(said: seq<Change>, name: Name, isLearned: bool, isGeneric: bool) {
    && (forall i :: 0 <= i < |said| ==> said[i].name == name)
    && |said| <= 2
    && (|said| == 2 ==> said[0].Learned? && said[1].Unlearned?)
    && (|said| > 0 && said[|said| - 1].Learned? ==> isLearned)
    && (|said| > 0 && said[|said| - 1].Unlearned? ==> isGeneric)
  }

  function Said(changes: seq<Change>, name: Name): seq<Change> {
    if changes == [] then []
    else (if changes[0].name == name then [changes[0]] else []) + Said(changes[1..], name)
  }

  lemma {:induction false} SaidAppend(a: seq<Change>, b: seq<Change>, name: Name)
    ensures Said(a + b, name) == Said(a, name) + Said(b, name)
  {
    if a == [] {
      assert a + b == b;
    } else {
      assert (a + b)[1..] == a[1..] + b;
      SaidAppend(a[1..], b, name);
      Associates(if a[0].name == name then [a[0]] else [], Said(a[1..], name), Said(b, name));
    }
  }

  function WithoutName(changes: seq<Change>, name: Name): seq<Change> {
    if changes == [] then []
    else (if changes[0].name == name then [] else [changes[0]]) + WithoutName(changes[1..], name)
  }

  lemma {:induction false} SaidWithout(changes: seq<Change>, name: Name, other: Name)
    ensures Said(WithoutName(changes, name), other) == if other == name then [] else Said(changes, other)
  {
    if changes != [] {
      SaidWithout(changes[1..], name, other);
      var rest := WithoutName(changes[1..], name);
      if changes[0].name != name {
        assert ([changes[0]] + rest)[1..] == rest;
      } else {
        assert [] + rest == rest;
      }
    }
  }

  ghost predicate Orderly(said: seq<Change>, learned: set<Name>, generic: set<Name>) {
    forall n {:trigger Said(said, n)} :: OncePerForget(Said(said, n), n, n in learned, n in generic)
  }

  lemma LearnsOnce(said: seq<Change>, name: Name, parent: Name, learned: set<Name>, generic: set<Name>)
    requires Orderly(said, learned, generic) && name !in learned && name !in generic
    ensures Orderly(said + [Learned(name, parent)], learned + {name}, generic)
  {
    forall n ensures OncePerForget(Said(said + [Learned(name, parent)], n), n, n in learned + {name}, n in generic) {
      SaidAppend(said, [Learned(name, parent)], n);
      assert OncePerForget(Said(said, n), n, n in learned, n in generic);
    }
  }

  lemma UnlearnsOnce(said: seq<Change>, name: Name, learned: set<Name>, generic: set<Name>)
    requires Orderly(said, learned, generic) && name in learned && name !in generic
    ensures Orderly(said + [Unlearned(name)], learned - {name}, generic + {name})
  {
    forall n ensures OncePerForget(Said(said + [Unlearned(name)], n), n, n in learned - {name}, n in generic + {name}) {
      SaidAppend(said, [Unlearned(name)], n);
      assert OncePerForget(Said(said, n), n, n in learned, n in generic);
    }
  }

  lemma ForgetsAll(said: seq<Change>, name: Name, learned: set<Name>, generic: set<Name>)
    requires Orderly(said, learned, generic)
    ensures Orderly(WithoutName(said, name), learned - {name}, generic - {name})
  {
    forall n ensures OncePerForget(Said(WithoutName(said, name), n), n, n in learned - {name}, n in generic - {name}) {
      SaidWithout(said, name, n);
      assert OncePerForget(Said(said, n), n, n in learned, n in generic);
    }
  }

  /** Generic is exactly what followed too many sites. */
  ghost predicate Counted(seenAfter: map<Name, set<Name>>, generic: set<Name>) {
    forall n {:trigger Followed(seenAfter, n)} :: n in generic <==> |Followed(seenAfter, n)| > GENERIC_PARENTS
  }

  lemma TurnsGeneric(said: seq<Change>, name: Name, learned: set<Name>, generic: set<Name>)
    requires Orderly(said, learned, generic)
    ensures Orderly(said, learned, generic + {name})
  {
    forall n ensures OncePerForget(Said(said, n), n, n in learned, n in generic + {name}) {
      assert OncePerForget(Said(said, n), n, n in learned, n in generic);
    }
  }

  lemma CountedNext(seenAfter: map<Name, set<Name>>, generic: set<Name>, name: Name, followed: set<Name>)
    requires Counted(seenAfter, generic) && name !in generic
    ensures Counted(seenAfter[name := followed], generic + if |followed| > GENERIC_PARENTS then {name} else {})
  {
    var next := seenAfter[name := followed];
    var isGeneric := generic + if |followed| > GENERIC_PARENTS then {name} else {};
    forall n ensures n in isGeneric <==> |Followed(next, n)| > GENERIC_PARENTS {
      assert n in generic <==> |Followed(seenAfter, n)| > GENERIC_PARENTS;
    }
  }

  lemma CountedForgets(seenAfter: map<Name, set<Name>>, generic: set<Name>, name: Name)
    requires Counted(seenAfter, generic)
    ensures Counted(seenAfter - {name}, generic - {name})
  {
    forall n ensures n != name ==> Followed(seenAfter - {name}, n) == Followed(seenAfter, n) {
    }
  }

  /** No name is both learned and generic, and generic is what followed too many sites. */
  ghost predicate IsSound(said: seq<Change>, learned: set<Name>, generic: set<Name>, seenAfter: map<Name, set<Name>>) {
    generic !! learned && Counted(seenAfter, generic) && Orderly(said, learned, generic)
  }

  // ---- what a learner may conclude, said of the queries themselves ---------------------------------

  /** This client asked, within ten seconds before that time, a name under the rule of `site`, which learns. */
  ghost predicate AskedSite(ruleOf: Rules, history: seq<Event>, client: string, time: int, site: Name) {
    exists i :: 0 <= i < |history| && history[i].client == client && time - history[i].time <= 10_000_000
                && ruleOf(Normal(history[i].name)) == Some((site, true))
  }

  lemma {:induction false} SitesHas(ruleOf: Rules, history: seq<Event>, client: string, visit: (Name, int))
    ensures visit in Sites(ruleOf, history, client) <==>
              exists i :: 0 <= i < |history| && history[i].client == client && history[i].time == visit.1
                          && ruleOf(Normal(history[i].name)) == Some((visit.0, true))
  {
    if history != [] {
      var n := |history| - 1;
      SitesHas(ruleOf, history[..n], client, visit);
      VisitNext(ruleOf, history, client, visit);
      hide *;
      assert forall i :: 0 <= i < n ==> history[..n][i] == history[i];
    }
  }

  lemma VisitNext(ruleOf: Rules, history: seq<Event>, client: string, visit: (Name, int))
    requires history != []
    ensures var last := history[|history| - 1];
            visit in Sites(ruleOf, history, client) <==>
              || visit in Sites(ruleOf, history[..|history| - 1], client)
              || (last.client == client && last.time == visit.1 && ruleOf(Normal(last.name)) == Some((visit.0, true)))
  {
    hide Normal;
    var rule := ruleOf(Normal(history[|history| - 1].name));
    assert rule.Some? ==> rule == Some((rule.value.0, rule.value.1));
  }

  /** A query shows exactly the sites its client asked shortly before, when its name is under no rule. */
  lemma ShownExactly(ruleOf: Rules, history: seq<Event>, event: Event, name: Name, site: Name)
    ensures site in Shown(ruleOf, history, event, name)
       <==> Normal(event.name) == name && ruleOf(name).None? && AskedSite(ruleOf, history, event.client, event.time, site)
  {
    hide Sites, InWindow;
    var sites := Sites(ruleOf, history, event.client);
    InWindowElements(sites, event.time);
    if i :| 0 <= i < |history| && history[i].client == event.client && event.time - history[i].time <= 10_000_000
            && ruleOf(Normal(history[i].name)) == Some((site, true)) {
      SitesHas(ruleOf, history, event.client, (site, history[i].time));
      assert (site, history[i].time) in InWindow(sites, event.time);
    }
    if s :| s in InWindow(sites, event.time) && s.0 == site {
      SitesHas(ruleOf, history, event.client, s);
    }
  }

  /** The evidence of the history: the sites that any client asked shortly before it asked for the name. */
  lemma {:induction false} EvidenceExactly(ruleOf: Rules, history: seq<Event>, from: nat, name: Name, site: Name)
    ensures site in SitesAround(ruleOf, history, from, name)
       <==> ruleOf(name).None? && exists k :: from <= k < |history| && AskedAround(ruleOf, history, k, name, site)
  {
    hide AskedAround, Sites, InWindow, Domains;
    if |history| > from {
      var n := |history| - 1;
      EvidenceExactly(ruleOf, history[..n], from, name, site);
      AroundNow(ruleOf, history, name, site);
      forall k | 0 <= k < n ensures AskedAround(ruleOf, history[..n], k, name, site) <==>
          AskedAround(ruleOf, history, k, name, site) {
        AroundBefore(ruleOf, history, k, name, site);
      }
    }
  }

  /** The query at this place is for the name, and its client asked the site shortly before. */
  ghost predicate AskedAround(ruleOf: Rules, history: seq<Event>, k: nat, name: Name, site: Name)
    requires k < |history|
  {
    Normal(history[k].name) == name && AskedSite(ruleOf, history[..k], history[k].client, history[k].time, site)
  }

  lemma AroundBefore(ruleOf: Rules, history: seq<Event>, k: nat, name: Name, site: Name)
    requires k < |history| - 1
    ensures AskedAround(ruleOf, history[..|history| - 1], k, name, site) <==> AskedAround(ruleOf, history, k, name, site)
  {
    assert history[..|history| - 1][..k] == history[..k];
  }

  lemma AroundNow(ruleOf: Rules, history: seq<Event>, name: Name, site: Name)
    requires history != []
    ensures var n := |history| - 1;
            site in Shown(ruleOf, history[..n], history[n], name)
            <==> ruleOf(name).None? && AskedAround(ruleOf, history, n, name, site)
  {
    var n := |history| - 1;
    ShownExactly(ruleOf, history[..n], history[n], name, site);
  }

  /** What is learned: a name under no rule, not generic and not known yet, right after one learning site alone, with no
      more than three sites against it. */
  ghost predicate Learnable(ruleOf: Rules, history: seq<Event>, learned: map<Name, Name>, seenAfter: map<Name, set<Name>>,
                            generic: set<Name>, event: Event, name: Name, parent: Name)
  {
    && name == Normal(event.name) && ruleOf(name).None? && name !in generic && name !in learned
    && AskedSite(ruleOf, history, event.client, event.time, parent)
    && (forall other :: AskedSite(ruleOf, history, event.client, event.time, other) ==> other == parent)
    && |Followed(seenAfter, name) + {parent}| <= 3
  }

  lemma JudgedExactly(ruleOf: Rules, history: seq<Event>, learned: map<Name, Name>, seenAfter: map<Name, set<Name>>,
                      generic: set<Name>, event: Event, name: Name, parent: Name)
    ensures Learned(name, parent) in Judged(ruleOf, history, learned, seenAfter, generic, event)
       <==> Learnable(ruleOf, history, learned, seenAfter, generic, event, name, parent)
    ensures Unlearned(name) in Judged(ruleOf, history, learned, seenAfter, generic, event)
       <==> var shown := Shown(ruleOf, history, event, name);
            name == Normal(event.name) && shown != {} && name in learned && name !in generic
            && |Followed(seenAfter, name) + shown| > 3
  {
    var shown := Shown(ruleOf, history, event, name);
    var own := Normal(event.name);
    OneShown(ruleOf, history, event, name, parent);
    hide AskedSite, Followed, Shown, Verdict;
    VerdictIs(own, learned, Followed(seenAfter, own) + Shown(ruleOf, history, event, own),
        Shown(ruleOf, history, event, own), name, parent);
  }

  lemma OneShown(ruleOf: Rules, history: seq<Event>, event: Event, name: Name, parent: Name)
    ensures Shown(ruleOf, history, event, name) == {parent}
       <==> && Normal(event.name) == name && ruleOf(name).None?
            && AskedSite(ruleOf, history, event.client, event.time, parent)
            && forall other :: AskedSite(ruleOf, history, event.client, event.time, other) ==> other == parent
  {
    forall site ensures site in Shown(ruleOf, history, event, name)
                   <==> Normal(event.name) == name && ruleOf(name).None? && AskedSite(ruleOf, history, event.client, event.time, site) {
      ShownExactly(ruleOf, history, event, name, site);
    }
    hide AskedSite, Shown;
  }

  lemma VerdictIs(name: Name, learned: map<Name, Name>, followed: set<Name>, sites: set<Name>, n: Name, parent: Name)
    ensures Learned(n, parent) in Verdict(name, learned, followed, sites)
       <==> n == name && name !in learned && |followed| <= 3 && sites == {parent}
    ensures Unlearned(n) in Verdict(name, learned, followed, sites) <==> n == name && name in learned && |followed| > 3
  {
    if |sites| == 1 {
      assert sites == {Only(sites)};
    }
  }

  lemma JudgedIsLearnable(ruleOf: Rules, history: seq<Event>, learned: map<Name, Name>, seenAfter: map<Name, set<Name>>,
                          generic: set<Name>, event: Event)
    ensures forall n, p :: Learned(n, p) in Judged(ruleOf, history, learned, seenAfter, generic, event)
                      <==> Learnable(ruleOf, history, learned, seenAfter, generic, event, n, p)
  {
    hide *;
    forall n, p
      ensures Learned(n, p) in Judged(ruleOf, history, learned, seenAfter, generic, event)
         <==> Learnable(ruleOf, history, learned, seenAfter, generic, event, n, p)
    {
      JudgedExactly(ruleOf, history, learned, seenAfter, generic, event, n, p);
    }
  }

  // ---- where the evidence comes from ---------------------------------------------------------------

  /** The sites that were inside the window of whoever asked for `name` under no rule, from one event of the history on. */
  function SitesAround(ruleOf: Rules, history: seq<Event>, from: nat, name: Name): set<Name> {
    if |history| <= from then {} else
      var before, event := history[..|history| - 1], history[|history| - 1];
      SitesAround(ruleOf, before, from, name)
      + if Normal(event.name) == name && ruleOf(name).None?
          then Domains(InWindow(Sites(ruleOf, before, event.client), event.time)) else {}
  }

  /** All the evidence about a name: what it had when the rules changed, and what the history shows since then or since it
      was forgotten. */
  function Evidence(ruleOf: Rules, history: seq<Event>, inherited: map<Name, set<Name>>, since: map<Name, nat>,
                    name: Name): set<Name> {
    Followed(inherited, name) + SitesAround(ruleOf, history, if name in since then since[name] else 0, name)
  }

  /** A name is generic exactly when the evidence shows it after too many sites; else it followed all of them. */
  ghost predicate IsWitnessed(evidence: set<Name>, followed: set<Name>, isGeneric: bool) {
    && (isGeneric <==> |evidence| > GENERIC_PARENTS)
    && (!isGeneric ==> followed == evidence)
  }

  ghost predicate Witnessed(ruleOf: Rules, history: seq<Event>, inherited: map<Name, set<Name>>, since: map<Name, nat>,
                            seenAfter: map<Name, set<Name>>, generic: set<Name>)
  {
    && (forall n :: n in since ==> since[n] <= |history|)
    && forall n :: IsWitnessed(Evidence(ruleOf, history, inherited, since, n), Followed(seenAfter, n), n in generic)
  }

  lemma {:induction false} MoreEvidence(evidence: set<Name>, followed: set<Name>, isGeneric: bool, sites: set<Name>)
    requires IsWitnessed(evidence, followed, isGeneric)
    ensures if isGeneric then IsWitnessed(evidence + sites, followed, true)
            else IsWitnessed(evidence + sites, followed + sites, |followed + sites| > GENERIC_PARENTS)
  {
    if isGeneric {
      assert evidence + sites == evidence + (sites - evidence);
      assert |evidence + sites| >= |evidence|;
    }
  }

  /** What one event shows about a name. */
  function Shown(ruleOf: Rules, history: seq<Event>, event: Event, name: Name): set<Name> {
    if Normal(event.name) == name && ruleOf(name).None?
        then Domains(InWindow(Sites(ruleOf, history, event.client), event.time)) else {}
  }

  lemma {:induction false} EvidenceNext(ruleOf: Rules, history: seq<Event>, inherited: map<Name, set<Name>>,
                                        since: map<Name, nat>, event: Event, n: Name)
    requires n in since ==> since[n] <= |history|
    ensures Evidence(ruleOf, history + [event], inherited, since, n)
         == Evidence(ruleOf, history, inherited, since, n) + Shown(ruleOf, history, event, n)
  {
    var grown := history + [event];
    assert grown[..|grown| - 1] == history;
  }

  /** What the learner follows and calls generic after one more event. */
  ghost predicate Weighed(name: Name, shown: set<Name>, seenAfter: map<Name, set<Name>>, generic: set<Name>,
                          seenNext: map<Name, set<Name>>, genericNext: set<Name>)
  {
    if shown == {} || name in generic then seenNext == seenAfter && genericNext == generic
    else
      var followed := Followed(seenAfter, name) + shown;
      seenNext == seenAfter[name := followed]
          && genericNext == generic + (if |followed| > GENERIC_PARENTS then {name} else {})
  }

  lemma {:induction false} WeighedAt(n: Name, evidence: set<Name>, name: Name, shown: set<Name>,
                                     seenAfter: map<Name, set<Name>>,
                                     generic: set<Name>, seenNext: map<Name, set<Name>>, genericNext: set<Name>)
    requires IsWitnessed(evidence, Followed(seenAfter, n), n in generic)
    requires Weighed(name, shown, seenAfter, generic, seenNext, genericNext)
    ensures IsWitnessed(evidence + if n == name then shown else {}, Followed(seenNext, n), n in genericNext)
  {
    MoreEvidence(evidence, Followed(seenAfter, n), n in generic, if n == name then shown else {});
    assert evidence + {} == evidence;
  }

  /** One more event: only the evidence about its name may grow. */
  lemma {:induction false} WitnessedNext(ruleOf: Rules, history: seq<Event>, inherited: map<Name, set<Name>>,
                                         since: map<Name, nat>,
                      seenAfter: map<Name, set<Name>>, generic: set<Name>, event: Event,
                      seenNext: map<Name, set<Name>>, genericNext: set<Name>)
    requires Witnessed(ruleOf, history, inherited, since, seenAfter, generic)
    requires Weighed(Normal(event.name), Shown(ruleOf, history, event, Normal(event.name)), seenAfter, generic, seenNext,
               genericNext)
    ensures Witnessed(ruleOf, history + [event], inherited, since, seenNext, genericNext)
  {
    hide Evidence, IsWitnessed, Followed, Weighed;
    var name := Normal(event.name);
    var shown := Shown(ruleOf, history, event, name);
    forall n
      ensures IsWitnessed(Evidence(ruleOf, history + [event], inherited, since, n), Followed(seenNext, n), n in genericNext)
    {
      WeighedAt(n, Evidence(ruleOf, history, inherited, since, n), name, shown, seenAfter, generic, seenNext, genericNext);
      EvidenceNext(ruleOf, history, inherited, since, event, n);
      assert Shown(ruleOf, history, event, n) == if n == name then shown else {};
    }
  }

  /** The rules changed: what was followed so far is inherited. */
  lemma {:induction false} WitnessedAdopted(ruleOf: Rules, seenAfter: map<Name, set<Name>>, generic: set<Name>)
    requires Counted(seenAfter, generic)
    ensures Witnessed(ruleOf, [], seenAfter, map[], seenAfter, generic)
  {
    forall n
      ensures IsWitnessed(Evidence(ruleOf, [], seenAfter, map[], n), Followed(seenAfter, n), n in generic)
    {
      assert Evidence(ruleOf, [], seenAfter, map[], n) == Followed(seenAfter, n);
    }
  }

  lemma NothingWitnessed()
    ensures IsWitnessed({}, {}, false)
  {
  }

  /** A forgotten name starts over. */
  lemma {:induction false} WitnessedForgets(ruleOf: Rules, history: seq<Event>, inherited: map<Name, set<Name>>,
                                            since: map<Name, nat>,
                         seenAfter: map<Name, set<Name>>, generic: set<Name>, name: Name)
    requires Witnessed(ruleOf, history, inherited, since, seenAfter, generic)
    ensures Witnessed(ruleOf, history, inherited - {name}, since[name := |history|], seenAfter - {name}, generic - {name})
  {
    hide Evidence, IsWitnessed;
    forall n
      ensures IsWitnessed(Evidence(ruleOf, history, inherited - {name}, since[name := |history|], n),
                          Followed(seenAfter - {name}, n), n in generic - {name})
    {
      EvidenceForgets(ruleOf, history, inherited, since, name, n);
      assert IsWitnessed(Evidence(ruleOf, history, inherited, since, n), Followed(seenAfter, n), n in generic);
      assert Followed(seenAfter - {name}, n) == if n == name then {} else Followed(seenAfter, n);
      NothingWitnessed();
    }
  }

  lemma {:induction false} EvidenceForgets(ruleOf: Rules, history: seq<Event>, inherited: map<Name, set<Name>>,
                                           since: map<Name, nat>,
                                           name: Name, n: Name)
    ensures Evidence(ruleOf, history, inherited - {name}, since[name := |history|], n)
         == if n == name then {} else Evidence(ruleOf, history, inherited, since, n)
  {
  }

  /** Every window is what the history shows of its client. */
  ghost predicate Tracks(ruleOf: Rules, history: seq<Event>, parents: map<string, Visits>) {
    && InOrder(history)
    && forall c :: Kept(parents, c) == InWindow(Sites(ruleOf, history, c), LastTime(history, c))
  }

  function Kept(parents: map<string, Visits>, client: string): Visits {
    if client in parents then parents[client] else []
  }

  function Visited(ruleOf: Rules, event: Event): Visits {
    if Learns(ruleOf, event) then [(ruleOf(Normal(event.name)).value.0, event.time)] else []
  }

  lemma {:induction false} SitesNext(ruleOf: Rules, history: seq<Event>, event: Event, client: string)
    ensures Sites(ruleOf, history + [event], client)
         == Sites(ruleOf, history, client) + if client == event.client then Visited(ruleOf, event) else []
    ensures LastTime(history + [event], client) == if client == event.client then event.time else LastTime(history, client)
  {
    var grown := history + [event];
    assert grown[..|grown| - 1] == history;
    assert Sites(ruleOf, history, client) + [] == Sites(ruleOf, history, client);
  }

  lemma NothingSeen(ruleOf: Rules, client: string)
    ensures Sites(ruleOf, [], client) == []
  {
  }

  lemma {:induction false} WindowNext(ruleOf: Rules, sites: Visits, event: Event)
    ensures InWindow(sites + Visited(ruleOf, event), event.time) == InWindow(sites, event.time) + Visited(ruleOf, event)
  {
    if Learns(ruleOf, event) {
      InWindowAppend(sites, Visited(ruleOf, event)[0], event.time);
    } else {
      assert sites + [] == sites;
    }
  }

  lemma OrderGrows(history: seq<Event>, event: Event)
    requires InOrder(history) && (history != [] ==> history[|history| - 1].time <= event.time)
    ensures InOrder(history + [event])
  {
  }

  lemma {:induction false} TracksNext(ruleOf: Rules, history: seq<Event>, parents: map<string, Visits>, event: Event)
    requires Tracks(ruleOf, history, parents) && (history != [] ==> history[|history| - 1].time <= event.time)
    ensures Tracks(ruleOf, history + [event],
                   parents[event.client := InWindow(Sites(ruleOf, history, event.client), event.time)
                       + Visited(ruleOf, event)])
  {
    hide Sites, InWindow, Visited, LastTime, InOrder;
    OrderGrows(history, event);
    var recent := InWindow(Sites(ruleOf, history, event.client), event.time) + Visited(ruleOf, event);
    WindowNext(ruleOf, Sites(ruleOf, history, event.client), event);
    forall c
      ensures Kept(parents[event.client := recent], c)
           == InWindow(Sites(ruleOf, history + [event], c), LastTime(history + [event], c))
    {
      SitesNext(ruleOf, history, event, c);
      assert Kept(parents, c) == InWindow(Sites(ruleOf, history, c), LastTime(history, c));
      assert Sites(ruleOf, history, c) + [] == Sites(ruleOf, history, c);
    }
  }

  // ---- the learner ---------------------------------------------------------------------------------

  class Learner {
    const ruleOf: Rules
    var parents: map<string, Visits>         // per client, what may still be in the window
    var seenAfter: map<Name, set<Name>>      // the sites a name followed
    var learned: map<Name, Name>
    var generic: set<Name>
    ghost var history: seq<Event>            // every event since the rules changed
    ghost var inherited: map<Name, set<Name>> // the evidence there was when they changed
    ghost var since: map<Name, nat>          // where in the history a forgotten name started over
    ghost var said: seq<Change>              // every change; those of a name go when it is forgotten

    ghost predicate Valid()
      reads this
    {
      && Tracks(ruleOf, history, parents)
      && Witnessed(ruleOf, history, inherited, since, seenAfter, generic)
      && Sound()
    }

    ghost predicate Sound()
      reads this
    {
      IsSound(said, learned.Keys, generic, seenAfter)
    }

    ghost function Now(): Learnt
      reads this
    {
      Learnt(history, learned, seenAfter, generic)
    }

    lemma NowIs()
      ensures Now() == Learnt(history, learned, seenAfter, generic)
    {
    }

    constructor (ruleOf: Rules)
      ensures Valid() && this.ruleOf == ruleOf
      ensures history == [] && learned == map[] && generic == {} && seenAfter == map[] && said == []
      ensures inherited == map[] && since == map[]
    {
      this.ruleOf := ruleOf;
      parents, seenAfter, learned, generic := map[], map[], map[], {};
      history, said, inherited, since := [], [], map[], map[];
      WitnessedAdopted(ruleOf, map[], {});
    }

    /** The rules changed: `adopt` keeps the evidence and what was learned, and drops the windows. */
    constructor Adopt(ruleOf: Rules, previous: Learner)
      requires previous.Valid()
      ensures Valid() && this.ruleOf == ruleOf && history == []
      ensures seenAfter == previous.seenAfter && learned == previous.learned && generic == previous.generic
      ensures said == previous.said && inherited == previous.seenAfter && since == map[]
    {
      this.ruleOf := ruleOf;
      parents := map[];
      seenAfter, learned, generic := previous.seenAfter, previous.learned, previous.generic;
      history, said, inherited, since := [], previous.said, previous.seenAfter, map[];
      WitnessedAdopted(ruleOf, previous.seenAfter, previous.generic);
    }

    /** A name learned before this start of core. */
    method Remember(name: Name, parent: Name)
      requires Valid()
      modifies this`learned
      ensures learned == old(learned)[name := parent] && (name !in generic ==> Valid())
    {
      learned := learned[name := parent];
    }

    /** The owner removed a learned name: it may be learned again only after new evidence. */
    method Forget(name: Name)
      requires Valid()
      modifies this`learned, this`seenAfter, this`generic, this`said, this`inherited, this`since
      ensures Valid()
      ensures inherited == old(inherited) - {name} && since == old(since)[name := |history|]
      ensures learned == old(learned) - {name} && seenAfter == old(seenAfter) - {name} && generic == old(generic) - {name}
      ensures said == WithoutName(old(said), name)
    {
      hide IsSound, Tracks, Evidence, WithoutName, Witnessed;
      SoundForgets(said, learned, generic, seenAfter, name);
      WitnessedForgets(ruleOf, history, inherited, since, seenAfter, generic, name);
      inherited, since := inherited - {name}, since[name := |history|];
      learned := learned - {name};
      seenAfter := seenAfter - {name};
      generic := generic - {name};
      said := WithoutName(said, name);
    }

    lemma TracksSays(client: string)
      requires Valid()
      ensures InOrder(history)
      ensures Kept(parents, client) == InWindow(Sites(ruleOf, history, client), LastTime(history, client))
    {
      hide Witnessed, IsSound, InOrder, Sites, InWindow, LastTime;
    }

    /** The window of one client, moved to `time`. */
    method Expire(client: string, time: int) returns (recent: Visits)
      requires Valid()
      requires history != [] ==> history[|history| - 1].time <= time
      ensures recent == InWindow(Sites(ruleOf, history, client), time)
    {
      hide *;
      TracksSays(client);
      NothingSeen(ruleOf, client);
      recent := Kept(parents, client);
      ghost var sites := Sites(ruleOf, history, client);
      ghost var last := LastTime(history, client);
      SitesInOrder(ruleOf, history, client);
      InWindowElements(sites, last);
      if sites != [] {
        WindowMovesOn(sites, last, time);
      }
      while recent != [] && time - recent[0].1 > WINDOW
        invariant Sorted(recent)
        invariant InWindow(recent, time) == InWindow(sites, time)
      {
        FirstGone(recent, time);
        recent := recent[1..];
      }
      OldestInside(recent, time);
    }

    /** `observe`, in time order. Only the visits inside the window count, exactly: a name is learned when it is
        under no rule, not generic, not known, has followed few sites and one site alone is inside the window. */
    method Observe(event: Event) returns (changes: seq<Change>)
      requires Valid()
      requires history != [] ==> history[|history| - 1].time <= event.time
      modifies this`parents, this`seenAfter, this`learned, this`generic, this`history, this`said
      ensures Valid() && history == old(history) + [event] && said == old(said) + changes
      ensures parents == old(parents)[event.client := InWindow(Sites(ruleOf, history, event.client), event.time)]
      ensures |changes| <= 1 && learned == Apply(old(learned), changes)
      ensures changes != [] && changes[0].Learned? ==> changes[0].name !in old(learned) && changes[0].name !in old(generic)
      ensures old(learned.Keys + generic) <= learned.Keys + generic
      ensures var name := Normal(event.name);
              var shown := Shown(ruleOf, old(history), event, name);
              Weighed(name, shown, old(seenAfter), old(generic), seenAfter, generic)
      ensures changes == Judged(ruleOf, old(history), old(learned), old(seenAfter), old(generic), event)
      ensures changes == old(Now()).Says(ruleOf, event) && Now() == old(Now()).Hears(ruleOf, event)
      // which says of the queries themselves when a name is learned
      ensures forall n, p :: Learned(n, p) in changes <==>
                Learnable(ruleOf, old(history), old(learned), old(seenAfter), old(generic), event, n, p)
    {
      JudgedIsLearnable(ruleOf, history, learned, seenAfter, generic, event);
      hide Learnable, Shown, Followed, Learnt.Hears;
      hide Tracks, Witnessed, IsSound, Weighed, Verdict, Sites, InWindow;
      var name := Normal(event.name);
      var recent := Expire(event.client, event.time);
      changes := Judge(name, recent, event);
      if Learns(ruleOf, event) {
        recent := recent + [(ruleOf(name).value.0, event.time)];
      }
      Record(event, recent);
      old(Now()).HearsIs(ruleOf, event, Now());
    }

    /** What the query for `name` shows is weighed when it is under no rule. */
    method Judge(name: Name, recent: Visits, ghost event: Event) returns (changes: seq<Change>)
      requires Sound() && Witnessed(ruleOf, history, inherited, since, seenAfter, generic)
      requires name == Normal(event.name) && recent == InWindow(Sites(ruleOf, history, event.client), event.time)
      modifies this`seenAfter, this`learned, this`generic, this`said
      ensures Sound() && said == old(said) + changes
      ensures var shown := Shown(ruleOf, history, event, name);
              && Weighed(name, shown, old(seenAfter), old(generic), seenAfter, generic)
              && changes == if shown == {} || name in old(generic) then [] else
                              Verdict(name, old(learned), Followed(old(seenAfter), name) + shown, shown)
      ensures learned == Apply(old(learned), changes) && old(learned.Keys + generic) <= learned.Keys + generic
      ensures Witnessed(ruleOf, history + [event], inherited, since, seenAfter, generic)
    {
      hide Witnessed, IsSound, Sites, InWindow, Verdict, Evidence, Domains, Followed;
      HasDomain(recent);
      changes := [];
      assert said + [] == said;
      if ruleOf(name).None? && recent != [] && name !in generic {
        changes := Weigh(name, Domains(recent));
      }
      WitnessedNext(ruleOf, history, inherited, since, old(seenAfter), old(generic), event, seenAfter, generic);
    }

    /** The window of the client is kept for its next query. */
    method Record(event: Event, recent: Visits)
      requires Tracks(ruleOf, history, parents) && Sound()
      requires Witnessed(ruleOf, history + [event], inherited, since, seenAfter, generic)
      requires history != [] ==> history[|history| - 1].time <= event.time
      requires recent == InWindow(Sites(ruleOf, history, event.client), event.time) + Visited(ruleOf, event)
      modifies this`parents, this`history
      ensures Valid() && history == old(history) + [event]
      ensures parents == old(parents)[event.client := InWindow(Sites(ruleOf, history, event.client), event.time)]
    {
      TracksNext(ruleOf, history, parents, event);
      hide Tracks, Witnessed, IsSound, Sites, InWindow;
      parents := parents[event.client := recent];
      history := history + [event];
    }

    /** The part of `observe` for a name under no rule, asked while `sites` are inside the window. */
    method Weigh(name: Name, sites: set<Name>) returns (changes: seq<Change>)
      requires Sound() && name !in generic && sites != {}
      modifies this`seenAfter, this`learned, this`generic, this`said
      ensures Sound() && said == old(said) + changes
      ensures changes == Verdict(name, old(learned), Followed(old(seenAfter), name) + sites, sites)
      ensures Weighed(name, sites, old(seenAfter), old(generic), seenAfter, generic)
      ensures learned == Apply(old(learned), changes) && old(learned.Keys + generic) <= learned.Keys + generic
    {
      var followed := Followed(seenAfter, name) + sites;
      SoundNext(said, learned, generic, seenAfter, name, sites, followed);
      hide IsSound, Followed;
      seenAfter := seenAfter[name := followed];
      changes := [];
      if |followed| > GENERIC_PARENTS {
        if name in learned {
          learned := learned - {name};
          changes := [Unlearned(name)];
        }
        generic := generic + {name};
      } else if name !in learned && |sites| == 1 {
        var parent :| parent in sites;
        assert parent == Only(sites);
        learned := learned[name := parent];
        changes := [Learned(name, parent)];
      }
      said := said + changes;
    }
  }

  lemma {:induction false} SoundNext(said: seq<Change>, learned: map<Name, Name>, generic: set<Name>,
                                     seenAfter: map<Name, set<Name>>,
                                     name: Name, sites: set<Name>, followed: set<Name>)
    requires IsSound(said, learned.Keys, generic, seenAfter) && name !in generic
    ensures var changes := Verdict(name, learned, followed, sites);
            IsSound(said + changes, Apply(learned, changes).Keys,
                    generic + (if |followed| > GENERIC_PARENTS then {name} else {}), seenAfter[name := followed])
  {
    CountedNext(seenAfter, generic, name, followed);
    assert said + [] == said;
    if |followed| > GENERIC_PARENTS {
      if name in learned {
        UnlearnsOnce(said, name, learned.Keys, generic);
        assert (learned - {name}).Keys == learned.Keys - {name};
      } else {
        TurnsGeneric(said, name, learned.Keys, generic);
      }
    } else {
      assert generic + {} == generic;
      if name !in learned && |sites| == 1 {
        LearnsOnce(said, name, Only(sites), learned.Keys, generic);
        assert learned[name := Only(sites)].Keys == learned.Keys + {name};
      }
    }
  }

  lemma {:induction false} SoundForgets(said: seq<Change>, learned: map<Name, Name>, generic: set<Name>,
                                        seenAfter: map<Name, set<Name>>, name: Name)
    requires IsSound(said, learned.Keys, generic, seenAfter)
    ensures IsSound(WithoutName(said, name), (learned - {name}).Keys, generic - {name}, seenAfter - {name})
  {
    ForgetsAll(said, name, learned.Keys, generic);
    CountedForgets(seenAfter, generic, name);
    assert (learned - {name}).Keys == learned.Keys - {name};
  }

  ghost function Only(sites: set<Name>): (parent: Name)
    requires |sites| == 1
    ensures sites == {parent}
  {
    var parent :| parent in sites;
    OnlyElement(sites, parent);
    parent
  }

  /** What the evidence about a name says: generic after all, or following the one site it was asked after. */
  ghost function Verdict(name: Name, learned: map<Name, Name>, followed: set<Name>,
                         sites: set<Name>): (changes: seq<Change>)
    ensures |changes| <= 1 && (changes != [] && changes[0].Learned? ==> name !in learned && changes[0].name == name)
  {
    if |followed| > GENERIC_PARENTS then (if name in learned then [Unlearned(name)] else [])
    else if name !in learned && |sites| == 1 then [Learned(name, Only(sites))]
    else []
  }

  /** What the learner makes of an event: nothing of a name under a rule, of one nobody's site is in the window of, or of a
      generic one; else what the evidence says. */
  ghost function Judged(ruleOf: Rules, history: seq<Event>, learned: map<Name, Name>, seenAfter: map<Name, set<Name>>,
                        generic: set<Name>, event: Event): seq<Change>
  {
    var name := Normal(event.name);
    var shown := Shown(ruleOf, history, event, name);
    if shown == {} || name in generic then [] else Verdict(name, learned, Followed(seenAfter, name) + shown, shown)
  }

  /** What a learner knows: the queries since its rules changed, what it learned, whom each name followed, what is generic. */
  datatype Learnt = Learnt(history: seq<Event>, learned: map<Name, Name>, seenAfter: map<Name, set<Name>>, generic: set<Name>)
  {
    ghost function Says(ruleOf: Rules, event: Event): seq<Change> {
      Judged(ruleOf, history, learned, seenAfter, generic, event)
    }

    ghost function Hears(ruleOf: Rules, event: Event): Learnt {
      var name := Normal(event.name);
      var shown := Shown(ruleOf, history, event, name);
      var followed := Followed(seenAfter, name) + shown;
      var weighs := shown != {} && name !in generic;
      Learnt(history + [event], Apply(learned, Says(ruleOf, event)),
             if weighs then seenAfter[name := followed] else seenAfter,
             if weighs && |followed| > GENERIC_PARENTS then generic + {name} else generic)
    }

    /** One query after the other. */
    ghost function HearsAll(ruleOf: Rules, events: seq<Event>): Learnt {
      if events == [] then this
      else HearsAll(ruleOf, events[..|events| - 1]).Hears(ruleOf, events[|events| - 1])
    }

    ghost function SaysAll(ruleOf: Rules, events: seq<Event>): seq<Change> {
      if events == [] then []
      else SaysAll(ruleOf, events[..|events| - 1]) + HearsAll(ruleOf, events[..|events| - 1]).Says(ruleOf, events[|events| - 1])
    }

    lemma HearsNext(ruleOf: Rules, events: seq<Event>, event: Event)
      ensures HearsAll(ruleOf, events + [event]) == HearsAll(ruleOf, events).Hears(ruleOf, event)
      ensures SaysAll(ruleOf, events + [event]) == SaysAll(ruleOf, events) + HearsAll(ruleOf, events).Says(ruleOf, event)
    {
      hide Hears, Says;
      assert (events + [event])[..|events|] == events;
    }

    lemma HearsNothing(ruleOf: Rules)
      ensures HearsAll(ruleOf, []) == this && SaysAll(ruleOf, []) == []
    {
    }

    lemma HearsIs(ruleOf: Rules, event: Event, after: Learnt)
      requires var name := Normal(event.name);
               Weighed(name, Shown(ruleOf, history, event, name), seenAfter, generic, after.seenAfter, after.generic)
      requires after.history == history + [event]
      requires after.learned == Apply(learned, Judged(ruleOf, history, learned, seenAfter, generic, event))
      ensures after == Hears(ruleOf, event)
    {
      hide Shown, Judged, Followed;
      assert generic + {} == generic;
    }
  }

  /** A name is learned when it is not known, has followed few sites, and one site alone is inside the window. */
  lemma VerdictExactly(name: Name, learned: map<Name, Name>, followed: set<Name>, window: Visits, n: Name, parent: Name)
    requires window != []
    ensures Learned(n, parent) in Verdict(name, learned, followed, Domains(window)) <==>
              && n == name && name !in learned && |followed| <= GENERIC_PARENTS
              && forall visit :: visit in window ==> visit.0 == parent
    ensures Unlearned(n) in Verdict(name, learned, followed, Domains(window)) <==>
              n == name && name in learned && |followed| > GENERIC_PARENTS
  {
    var sites := Domains(window);
    assert window[0] in window && window[0].0 in sites;
    if forall visit :: visit in window ==> visit.0 == parent {
      assert sites == {parent};
    }
    if |sites| == 1 {
      assert sites == {Only(sites)};
      assert forall visit :: visit in window ==> visit.0 in sites;
    }
  }

  function Apply(learned: map<Name, Name>, changes: seq<Change>): map<Name, Name>
    requires |changes| <= 1
  {
    if changes == [] then learned
    else match changes[0]
      case Learned(name, parent) => learned[name := parent]
      case Unlearned(name) => learned - {name}
  }

  lemma HasDomain(sites: Visits)
    ensures sites == [] <==> Domains(sites) == {}
  {
    if sites != [] {
      assert sites[0] in sites && sites[0].0 in Domains(sites);
    }
  }

  lemma OnlyElement(sites: set<Name>, parent: Name)
    requires |sites| == 1 && parent in sites
    ensures sites == {parent}
  {
    assert |sites - {parent}| == 0;
  }
}
