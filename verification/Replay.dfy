/** What the resolver remembers of its answers, and the sets filled again from it (core/vibedpn/engine/resolver.py,
    `_remember`, `_fill`, `replay`). */
module Replays {
  import opened Options
  import opened Names
  import opened Sequences
  import opened Dicts
  import opened RuleIndexes
  import opened ChannelSets
  import opened SetHistories

  const RECENT_ANSWERS: nat := 4096

  /** The last answer of a name, and when its TTL ends, in milliseconds. */
  datatype Remembered = Remembered(addresses: seq<Address>, expires: int)

  /** The oldest answer first. */
  type Recent = seq<(Name, Remembered)>

  /** `int(expires - clock())`: whole seconds, what is left of the last one is cut off. */
  function Left(expires: int, now: int): int {
    if expires <= now then 0 else (expires - now) / 1000
  }

  /** When a TTL ends. */
  function Until(ttl: int, now: int): int {
    now + ttl * 1000
  }

  function Deadline(seconds: int, now: int): int {
    Until(seconds + SET_MARGIN_SECONDS, now)
  }

  /** The margin makes up for the seconds cut off: a fill from what is left outlives the answer. */
  lemma MarginCovers(expires: int, now: int)
    ensures expires <= Deadline(Left(expires, now), now)
    ensures Left(expires, now) > 0 <==> now + 1000 <= expires
    ensures now < expires ==> expires + 59_000 < Deadline(Left(expires, now), now) <= expires + 60_000
  {
  }

  predicate Refills(recent: Recent, name: Name, now: int) {
    var known := Get(recent, name);
    known.Some? && Left(known.value.expires, now) > 0 && Steerable(known.value.addresses) != {}
  }

  /** `_fill`. */
  function RefillOf(recent: Recent, name: Name, setName: string, now: int): History {
    if !Refills(recent, name, now) then [] else
      var known := Get(recent, name).value;
      [Filling(name, setName, Steerable(known.addresses), Deadline(Left(known.expires, now), now))]
  }

  function FillsFor(recent: Recent, name: Name, sets: map<Name, string>, now: int): History {
    var setName := Matched(sets, name);
    if setName.None? then [] else RefillOf(recent, name, setName.value, now)
  }

  /** `replay`: the remembered names under a rule. */
  function ReplayFills(names: seq<Name>, recent: Recent, sets: map<Name, string>, now: int): History {
    if names == [] then [] else FillsFor(recent, names[0], sets, now) + ReplayFills(names[1..], recent, sets, now)
  }

  lemma {:induction false} ReplayAppend(a: seq<Name>, b: seq<Name>, recent: Recent, sets: map<Name, string>, now: int)
    ensures ReplayFills(a + b, recent, sets, now) == ReplayFills(a, recent, sets, now) + ReplayFills(b, recent, sets, now)
  {
    if a == [] {
      assert a + b == b;
    } else {
      hide FillsFor;
      assert (a + b)[1..] == a[1..] + b;
      ReplayAppend(a[1..], b, recent, sets, now);
      Associates(FillsFor(recent, a[0], sets, now), ReplayFills(a[1..], recent, sets, now),
          ReplayFills(b, recent, sets, now));
    }
  }

  lemma {:induction false} ReplayNext(names: seq<Name>, i: nat, recent: Recent, sets: map<Name, string>, now: int)
    requires i < |names|
    ensures ReplayFills(names[..i + 1], recent, sets, now)
              == ReplayFills(names[..i], recent, sets, now) + FillsFor(recent, names[i], sets, now)
  {
    hide FillsFor;
    assert names[..i + 1] == names[..i] + [names[i]] && [names[i]][1..] == [];
    ReplayAppend(names[..i], [names[i]], recent, sets, now);
    assert FillsFor(recent, names[i], sets, now) + [] == FillsFor(recent, names[i], sets, now);
  }

  ghost predicate OnlyFills(fills: History) {
    forall k :: 0 <= k < |fills| ==> fills[k].Filling?
  }

  lemma {:induction false} ReplayOnlyFills(names: seq<Name>, recent: Recent, sets: map<Name, string>, now: int)
    ensures OnlyFills(ReplayFills(names, recent, sets, now))
  {
    if names != [] {
      ReplayOnlyFills(names[1..], recent, sets, now);
    }
  }

  /** The fills behind decide where they fill an address, and what was there decides elsewhere. */
  lemma {:induction false} LastEndBehind(history: History, fills: History, setName: string, address: Address)
    requires OnlyFills(fills)
    ensures LastEnd(history + fills, setName, address)
         == if LastEnd(fills, setName, address).Some? then LastEnd(fills, setName, address)
             else LastEnd(history, setName, address)
  {
    if fills == [] {
      assert history + fills == history;
    } else {
      var n := |fills| - 1;
      assert (history + fills)[..|history + fills| - 1] == history + fills[..n];
      LastEndBehind(history, fills[..n], setName, address);
    }
  }

  /** Every address of the promise that these fills touch they leave in the set for long enough. */
  ghost predicate Spares(fills: History, promise: Promise) {
    forall a :: a in promise.addresses && LastEnd(fills, promise.setName, a).Some? ==>
      promise.until <= LastEnd(fills, promise.setName, a).value
  }

  /** These fills bring every address of the promise into the set for long enough. */
  ghost predicate Brings(fills: History, promise: Promise) {
    forall a :: a in promise.addresses ==>
      LastEnd(fills, promise.setName, a).Some? && promise.until <= LastEnd(fills, promise.setName, a).value
  }

  /** A replay keeps a promise that held exactly when the last refill of each address spares it. */
  lemma ReplayKeepsIff(history: History, names: seq<Name>, recent: Recent, sets: map<Name, string>, now: int,
                       promise: Promise)
    requires Kept(ElementsOf(history), promise)
    ensures Kept(ElementsOf(history + ReplayFills(names, recent, sets, now)), promise)
       <==> Spares(ReplayFills(names, recent, sets, now), promise)
  {
    var fills := ReplayFills(names, recent, sets, now);
    ReplayOnlyFills(names, recent, sets, now);
    KeptExactly(history, promise);
    KeptExactly(history + fills, promise);
    forall a ensures LastEnd(history + fills, promise.setName, a)
                  == if LastEnd(fills, promise.setName, a).Some? then LastEnd(fills, promise.setName, a)
                     else LastEnd(history, promise.setName, a) {
      LastEndBehind(history, fills, promise.setName, a);
    }
  }

  /** After a rebuild exactly the promises the replay brings back hold. */
  lemma ReplayRestoresIff(history: History, names: seq<Name>, recent: Recent, sets: map<Name, string>, now: int,
                          promise: Promise)
    ensures Kept(ElementsOf(history + [Rebuilt] + ReplayFills(names, recent, sets, now)), promise)
       <==> Brings(ReplayFills(names, recent, sets, now), promise)
  {
    var fills, before := ReplayFills(names, recent, sets, now), history + [Rebuilt];
    ReplayOnlyFills(names, recent, sets, now);
    KeptExactly(before + fills, promise);
    forall a ensures LastEnd(before + fills, promise.setName, a) == LastEnd(fills, promise.setName, a) {
      LastEndBehind(before, fills, promise.setName, a);
    }
  }

  /** The answer of one name, in the set of its rule. */
  function AnswerPromise(recent: Recent, name: Name, setName: string): Promise
    requires Get(recent, name).Some?
  {
    Promise(setName, Steerable(Get(recent, name).value.addresses), Get(recent, name).value.expires)
  }

  /** A remembered name under a rule, with a second of its answer left, is brought back exactly when the names
      replayed behind it spare it. */
  lemma ReplayCovers(history: History, before: seq<Name>, name: Name, behind: seq<Name>, recent: Recent,
                     sets: map<Name, string>, now: int)
    requires Matched(sets, name).Some? && Refills(recent, name, now)
    ensures var promise := AnswerPromise(recent, name, Matched(sets, name).value);
            Kept(ElementsOf(history + [Rebuilt] + ReplayFills(before + [name] + behind, recent, sets, now)), promise)
            <==> Spares(ReplayFills(behind, recent, sets, now), promise)
  {
    var promise := AnswerPromise(recent, name, Matched(sets, name).value);
    var first, last := ReplayFills(before + [name], recent, sets, now), ReplayFills(behind, recent, sets, now);
    ReplayAppend(before + [name], behind, recent, sets, now);
    ReplayRestoresIff(history, before + [name] + behind, recent, sets, now, promise);
    ReplayOnlyFills(behind, recent, sets, now);
    forall a | a in promise.addresses
      ensures LastEnd(first, promise.setName, a).Some? && promise.until <= LastEnd(first, promise.setName, a).value
      ensures LastEnd(first + last, promise.setName, a)
           == if LastEnd(last, promise.setName, a).Some? then LastEnd(last, promise.setName, a)
              else LastEnd(first, promise.setName, a)
    {
      OwnRefillIsLast(before, name, recent, sets, now, a);
      LastEndBehind(first, last, promise.setName, a);
    }
  }

  lemma OwnRefillIsLast(before: seq<Name>, name: Name, recent: Recent, sets: map<Name, string>, now: int, address: Address)
    requires Matched(sets, name).Some? && Refills(recent, name, now)
    requires address in Steerable(Get(recent, name).value.addresses)
    ensures var known := Get(recent, name).value;
            var end := LastEnd(ReplayFills(before + [name], recent, sets, now), Matched(sets, name).value, address);
            end == Some(Deadline(Left(known.expires, now), now)) && known.expires <= end.value
  {
    var known := Get(recent, name).value;
    ReplayAppend(before, [name], recent, sets, now);
    assert [name][1..] == [];
    var fills := ReplayFills(before, recent, sets, now);
    assert ReplayFills([name], recent, sets, now) == RefillOf(recent, name, Matched(sets, name).value, now) + [];
    assert (fills + ReplayFills([name], recent, sets, now))[|fills|].Filling?;
    MarginCovers(known.expires, now);
  }

  // ---- what is remembered of what was given --------------------------------------------------------

  /** `_remember`: the newest answer last, and no more than RECENT_ANSWERS of them. */
  function MostRecent(recent: Recent): Recent {
    if |recent| <= RECENT_ANSWERS then recent else MostRecent(recent[1..])
  }

  lemma {:induction false} MostRecentIsDict(recent: Recent)
    requires IsDict(recent)
    ensures IsDict(MostRecent(recent)) && |MostRecent(recent)| <= RECENT_ANSWERS
    ensures forall n :: Get(MostRecent(recent), n).Some? ==> Get(MostRecent(recent), n) == Get(recent, n)
    ensures recent != [] ==> recent[|recent| - 1] in MostRecent(recent)
  {
    if |recent| > RECENT_ANSWERS {
      MostRecentIsDict(recent[1..]);
    }
  }

  /** `_remember`: only an answer with addresses is remembered, with its TTL capped. */
  function RememberedWith(recent: Recent, name: Name, addresses: seq<Address>, ttl: Option<nat>, now: int): Recent {
    if addresses == [] || ttl.None? then recent
    else MostRecent(PutLast(recent, name, Remembered(addresses, Until(Min(ttl.value, MAX_ANSWER_TTL), now))))
  }

  /** The newest answer comes last, and of more than 4096 the oldest goes. */
  lemma RemembersLast(recent: Recent, name: Name, addresses: seq<Address>, ttl: nat, now: int)
    requires addresses != []
    ensures RememberedWith(recent, name, addresses, Some(ttl), now) != []
    ensures var next := RememberedWith(recent, name, addresses, Some(ttl), now);
            var others := Dicts.Remove(recent, name);
            && next[|next| - 1] == (name, Remembered(addresses, now + (if ttl > 300 then 300 else ttl) * 1000))
            && next[..|next| - 1] == if |others| < 4096 then others else others[|others| - 4095..]
  {
    var others, entry := Dicts.Remove(recent, name),
        (name, Remembered(addresses, now + (if ttl > 300 then 300 else ttl) * 1000));
    RememberedIs(recent, name, addresses, ttl, now);
    PutsLast(recent, name, entry.1);
    GivenUntil(ttl, now);
    LastOnes(others + [entry]);
    hide *;
    LastSlice(others, entry);
  }

  lemma PutsLast(recent: Recent, name: Name, value: Remembered)
    ensures PutLast(recent, name, value) == Dicts.Remove(recent, name) + [(name, value)]
  {
  }

  lemma GivenUntil(ttl: nat, now: int)
    ensures Until(Min(ttl, MAX_ANSWER_TTL), now) == now + (if ttl > 300 then 300 else ttl) * 1000
  {
  }

  lemma LastSlice<T>(others: seq<T>, entry: T)
    ensures var put := others + [entry];
            var next := if |put| <= 4096 then put else put[|put| - 4096..];
            && next != [] && next[|next| - 1] == entry
            && next[..|next| - 1] == if |others| < 4096 then others else others[|others| - 4095..]
  {
    var put := others + [entry];
    if |put| > 4096 {
      assert put[|put| - 4096..] == others[|others| - 4095..] + [entry];
    }
  }

  lemma {:induction false} LastOnes(recent: Recent)
    ensures MostRecent(recent) == if |recent| <= 4096 then recent else recent[|recent| - 4096..]
  {
    if |recent| > 4096 {
      LastOnes(recent[1..]);
    }
  }

  lemma RememberedIs(recent: Recent, name: Name, addresses: seq<Address>, ttl: nat, now: int)
    ensures addresses != [] ==>
              RememberedWith(recent, name, addresses, Some(ttl), now)
              == MostRecent(PutLast(recent, name, Remembered(addresses, Until(Min(ttl, MAX_ANSWER_TTL), now))))
  {
  }

  method Trim(put: Recent) returns (recent: Recent)
    ensures recent == MostRecent(put)
  {
    recent := put;
    while |recent| > RECENT_ANSWERS
      invariant MostRecent(recent) == MostRecent(put)
    {
      recent := recent[1..];
    }
  }

  /** What is remembered of an answer given under a rule is what was given. */
  ghost predicate Linked(recent: Recent, name: Name, given: Given) {
    Get(recent, name).Some? ==>
      && Steerable(Get(recent, name).value.addresses) == given.addresses
      && Get(recent, name).value.expires == given.until
  }

  /** A replay that reached a name still remembered filled it again. */
  ghost predicate Answered(history: History, recent: Recent, name: Name, given: Given) {
    forall r :: given.place < r < |history| && Reaches(history[r], name, given) && Get(recent, name).Some? ==>
      FilledAgain(history, r, name, given)
  }

  /** What a run keeps of every answer given under a rule. */
  ghost predicate Recorded(history: History, recent: Recent, given: map<Name, Given>) {
    forall n :: n in given ==>
      && given[n].addresses != {}
      && Linked(recent, n, given[n])
      && OwnFillsHold(history, n, given[n])
      && Answered(history, recent, n, given[n])
  }

  lemma HistoryGrows(history: History, event: Event, recent: Recent, name: Name, given: Given)
    requires OwnFillsHold(history, name, given) && Answered(history, recent, name, given)
    requires event.Filling? && event.name == name ==> event.addresses == given.addresses && event.deadline >= given.until
    requires Reaches(event, name, given) && Get(recent, name).Some? ==> FilledAgain(history, |history|, name, given)
    ensures OwnFillsHold(history + [event], name, given) && Answered(history + [event], recent, name, given)
  {
    var grown := history + [event];
    forall r | given.place < r < |grown| && Reaches(grown[r], name, given) && Get(recent, name).Some?
      ensures FilledAgain(grown, r, name, given)
    {
      assert r < |history| ==> grown[r] == history[r];
      assert FilledAgain(history, r, name, given);
      var fill :| given.place < fill < r && fill < |history| && IsOwn(history[fill], name, given.setName)
          && NoRebuild(history, fill, r);
      assert grown[fill] == history[fill] && NoRebuild(grown, fill, r);
    }
  }

  /** A fill for a name that carries what was given for it, or for a name nothing was given for. */
  lemma FillRecorded(history: History, event: Event, recent: Recent, given: map<Name, Given>)
    requires Recorded(history, recent, given) && event.Filling?
    requires event.name in given ==>
               event.addresses == given[event.name].addresses && event.deadline >= given[event.name].until
    ensures Recorded(history + [event], recent, given)
  {
    forall n | n in given
      ensures OwnFillsHold(history + [event], n, given[n]) && Answered(history + [event], recent, n, given[n]) {
      HistoryGrows(history, event, recent, n, given[n]);
    }
  }

  lemma RebuildRecorded(history: History, recent: Recent, given: map<Name, Given>)
    requires Recorded(history, recent, given)
    ensures Recorded(history + [Rebuilt], recent, given)
  {
    forall n | n in given
      ensures OwnFillsHold(history + [Rebuilt], n, given[n]) && Answered(history + [Rebuilt], recent, n, given[n]) {
      HistoryGrows(history, Rebuilt, recent, n, given[n]);
    }
  }

  /** A replay that went through: every name it reaches was among its fills. */
  lemma ReplayRecorded(before: History, fills: History, recent: Recent, given: map<Name, Given>, now: int,
                       sets: map<Name, string>)
    requires Recorded(before + fills, recent, given) && IsDict(recent)
    requires fills == ReplayFills(Keys(recent), recent, sets, now)
    requires forall n :: n in given ==> given[n].place < |before|
    ensures Recorded(before + fills + [Replayed(now, sets)], recent, given)
  {
    var event := Replayed(now, sets);
    forall n | n in given
      ensures OwnFillsHold(before + fills + [event], n, given[n]) && Answered(before + fills + [event], recent, n, given[n]) {
      if Reaches(event, n, given[n]) && Get(recent, n).Some? {
        ReachedIsFilled(before, fills, recent, n, given[n], now, sets);
      }
      HistoryGrows(before + fills, event, recent, n, given[n]);
    }
  }

  lemma ReachedIsFilled(before: History, fills: History, recent: Recent, name: Name, given: Given, now: int,
                        sets: map<Name, string>)
    requires fills == ReplayFills(Keys(recent), recent, sets, now) && given.place < |before|
    requires Get(recent, name).Some? && Linked(recent, name, given) && given.addresses != {}
    requires Matched(sets, name) == Some(given.setName) && now + 1000 <= given.until
    ensures FilledAgain(before + fills, |before + fills|, name, given)
  {
    MarginCovers(given.until, now);
    var keys := Keys(recent);
    var value := Get(recent, name).value;
    var i :| 0 <= i < |recent| && recent[i] == (name, value);
    assert keys[i] == name;
    assert keys == keys[..i + 1] + keys[i + 1..];
    ReplayAppend(keys[..i + 1], keys[i + 1..], recent, sets, now);
    ReplayNext(keys, i, recent, sets, now);
    var first := ReplayFills(keys[..i], recent, sets, now);
    var own := RefillOf(recent, name, given.setName, now);
    hide ReplayFills;
    var fill := |before| + |first|;
    assert (before + fills)[fill] == fills[|first|] == own[0];
    ReplayOnlyFills(keys, recent, sets, now);
    assert NoRebuild(before + fills, fill, |before + fills|);
  }

  /** A new answer of one name: the others keep theirs, or are no longer remembered. */
  lemma RememberRecorded(history: History, before: Recent, recent: Recent, given: map<Name, Given>, name: Name)
    requires Recorded(history, before, given)
    requires forall n :: n != name && Get(recent, n).Some? ==> Get(recent, n) == Get(before, n)
    ensures Recorded(history, recent, given - {name})
  {
    forall n | n in given && n != name ensures Answered(history, recent, n, given[n]) {
    }
  }

  lemma PutRecorded(history: History, before: Recent, given: map<Name, Given>, name: Name, remembered: Remembered)
    requires Recorded(history, before, given) && IsDict(before)
    ensures var recent := MostRecent(PutLast(before, name, remembered));
            && IsDict(recent) && |recent| <= RECENT_ANSWERS && Get(recent, name) == Some(remembered)
            && Recorded(history, recent, given - {name})
  {
    var put := PutLast(before, name, remembered);
    PutLastIsDict(before, name, remembered);
    MostRecentIsDict(put);
    assert put[|put| - 1] == (name, remembered);
    GetOf(MostRecent(put), name, remembered);
    RememberRecorded(history, before, MostRecent(put), given, name);
  }

  /** An answer is given: its fill went before it. */
  lemma GivenRecorded(history: History, recent: Recent, given: map<Name, Given>, name: Name, setName: string,
                      addresses: set<Address>, until: int, deadline: int)
    requires Recorded(history, recent, given) && name !in given && addresses != {} && until <= deadline
    requires Linked(recent, name, Given(setName, addresses, until, |history|))
    ensures Recorded(history + [Filling(name, setName, addresses, deadline)], recent,
                     given[name := Given(setName, addresses, until, |history|)])
  {
    var event := Filling(name, setName, addresses, deadline);
    FillRecorded(history, event, recent, given);
    assert (history + [event])[|history|] == event;
  }

  /** The main result. In every state that keeps the record, an answer given under a rule and still remembered has its
      addresses in that rule's set until it may no longer be cached, unless a rebuild was followed by no replay that
      reached the name, or another name took time away behind its own last fill. */
  lemma AnswerOutlivesCache(history: History, recent: Recent, given: map<Name, Given>, name: Name)
    requires Recorded(history, recent, given) && name in given && Get(recent, name).Some?
    requires Replenished(history, name, given[name]) && Undisturbed(history, name, given[name])
    ensures Kept(ElementsOf(history), given[name].Promised())
  {
    var g := given[name];
    if !NoRebuild(history, g.place, |history|) {
      var r :| g.place < r < |history| && Reaches(history[r], name, g) && NoRebuild(history, r, |history|);
      assert FilledAgain(history, r, name, g);
      var fill :| g.place < fill < r && fill < |history| && IsOwn(history[fill], name, g.setName)
          && NoRebuild(history, fill, r);
      assert NoRebuild(history, fill, |history|);
    }
    OwnFillKeeps(history, name, g);
  }

  // ---- every answer that was ever given ------------------------------------------------------------

  /** The fill of an answer is where the answer says, and the last answer of a name is one of them all. */
  ghost predicate AllTold(history: History, told: seq<(Name, Given)>, given: map<Name, Given>) {
    && (forall t :: t in told ==> HasFill(history, t.0, t.1))
    && (forall n :: n in given ==> (n, given[n]) in told)
  }

  ghost predicate HasFill(history: History, name: Name, given: Given) {
    && given.place < |history| && IsOwn(history[given.place], name, given.setName)
    && history[given.place].addresses == given.addresses && history[given.place].deadline >= given.until
  }

  lemma ToldStays(history: History, event: Event, told: seq<(Name, Given)>, given: map<Name, Given>)
    requires AllTold(history, told, given)
    ensures AllTold(history + [event], told, given)
  {
    forall t | t in told ensures HasFill(history + [event], t.0, t.1) {
      assert HasFill(history, t.0, t.1);
    }
  }

  lemma NowTold(history: History, told: seq<(Name, Given)>, given: map<Name, Given>, name: Name, answer: Given)
    requires AllTold(history, told, given) && HasFill(history, name, answer)
    ensures AllTold(history, told + [(name, answer)], given[name := answer])
  {
    var grown := told + [(name, answer)];
    forall t | t in grown ensures HasFill(history, t.0, t.1) {
      assert t in told || t == (name, answer);
    }
    assert grown[|told|] == (name, answer);
    forall n | n in given ensures (n, given[n]) in grown {
      assert (n, given[n]) in told;
    }
  }

  lemma ToldWithout(history: History, told: seq<(Name, Given)>, given: map<Name, Given>, name: Name)
    requires AllTold(history, told, given)
    ensures AllTold(history, told, given - {name})
  {
  }

  lemma NewFill(history: History, name: Name, setName: string, addresses: set<Address>, until: int, deadline: int)
    requires until <= deadline
    ensures HasFill(history + [Filling(name, setName, addresses, deadline)], name,
              Given(setName, addresses, until, |history|))
  {
  }

  /** Since its fill the table was not rebuilt, and no fill of whatever name took time away. */
  ghost predicate LeftAlone(history: History, given: Given) {
    && NoRebuild(history, given.place, |history|)
    && forall k :: given.place < k < |history| ==> !Disturbs(history[k], given.Promised())
  }

  lemma ToldIsKept(history: History, told: seq<(Name, Given)>, given: map<Name, Given>, answer: (Name, Given))
    requires AllTold(history, told, given) && answer in told && LeftAlone(history, answer.1)
    ensures Kept(ElementsOf(history), answer.1.Promised())
  {
    assert HasFill(history, answer.0, answer.1);
    KeptSince(history, answer.1.place, answer.1.Promised());
  }

  /** A rebuilt table gets back what is remembered and nothing else: an answer with an address no remembered answer of a
      name under that rule has, such as an older answer of the same name, is not in its set after the replay. */
  lemma OlderAnswerIsLost(history: History, recent: Recent, sets: map<Name, string>, now: int, answer: Given,
                          address: Address)
    requires address in answer.addresses
    requires forall n :: Get(recent, n).Some? && Matched(sets, n) == Some(answer.setName) ==>
               address !in Steerable(Get(recent, n).value.addresses)
    ensures !Kept(ElementsOf(history + [Rebuilt] + ReplayFills(Keys(recent), recent, sets, now)), answer.Promised())
  {
    ReplayRestoresIff(history, Keys(recent), recent, sets, now, answer.Promised());
    NothingFills(Keys(recent), recent, sets, now, answer.setName, address);
  }

  lemma {:induction false} NothingFills(names: seq<Name>, recent: Recent, sets: map<Name, string>, now: int,
                                        setName: string,
                                        address: Address)
    requires forall n :: Get(recent, n).Some? && Matched(sets, n) == Some(setName) ==>
               address !in Steerable(Get(recent, n).value.addresses)
    ensures LastEnd(ReplayFills(names, recent, sets, now), setName, address).None?
  {
    if names != [] {
      NothingFills(names[1..], recent, sets, now, setName, address);
      ReplayOnlyFills(names[1..], recent, sets, now);
      LastEndBehind(FillsFor(recent, names[0], sets, now), ReplayFills(names[1..], recent, sets, now), setName, address);
      OneFill(names[0], recent, sets, now, setName, address);
    }
  }

  lemma OneFill(name: Name, recent: Recent, sets: map<Name, string>, now: int, setName: string, address: Address)
    requires Get(recent, name).Some? && Matched(sets, name) == Some(setName) ==>
               address !in Steerable(Get(recent, name).value.addresses)
    ensures LastEnd(FillsFor(recent, name, sets, now), setName, address).None?
  {
    var fills := FillsFor(recent, name, sets, now);
    if fills != [] {
      assert fills[..|fills| - 1] == [];
    }
  }
}
