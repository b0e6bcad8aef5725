/** What happened to the timed sets of the kernel, and which promises hold after it. Nothing here depends on what the
    resolver remembers of it: the events are what nft was told. */
module SetHistories {
  import opened Options
  import opened Names
  import opened RuleIndexes
  import opened ChannelSets

  datatype Event =
    | Filling(name: Name, setName: string, addresses: set<Address>, deadline: int)  // one fill, for one name
    | Rebuilt                                                                       // the router's table is new, every set empty
    | Replayed(now: int, sets: map<Name, string>)                                   // a replay over this index went through

  type History = seq<Event>

  /** What the kernel holds after it all. */
  function ElementsOf(history: History): Elements {
    if history == [] then map[] else
      var before := ElementsOf(history[..|history| - 1]);
      match history[|history| - 1]
      case Filling(_, setName, addresses, deadline) => Renewed(before, setName, addresses, deadline)
      case Rebuilt => map[]
      case Replayed(_, _) => before
  }

  lemma ElementsNext(history: History, event: Event)
    requires event.Filling?
    ensures ElementsOf(history + [event]) == Renewed(ElementsOf(history), event.setName, event.addresses, event.deadline)
  {
    hide Renewed;
    assert (history + [event])[..|history|] == history;
  }

  lemma ElementsStay(history: History, event: Event)
    requires event.Replayed?
    ensures ElementsOf(history + [event]) == ElementsOf(history)
  {
    assert (history + [event])[..|history|] == history;
  }

  /** When an address leaves a set: the last fill of both decides, unless the table was rebuilt since. */
  function LastEnd(history: History, setName: string, address: Address): Option<int> {
    if history == [] then None else
      var last := history[|history| - 1];
      if last.Rebuilt? then None
      else if last.Filling? && last.setName == setName && address in last.addresses then Some(last.deadline)
      else LastEnd(history[..|history| - 1], setName, address)
  }

  lemma {:induction false} ElementIsLastEnd(history: History, setName: string, address: Address)
    ensures (setName, address) in ElementsOf(history) <==> LastEnd(history, setName, address).Some?
    ensures (setName, address) in ElementsOf(history) ==>
              LastEnd(history, setName, address) == Some(ElementsOf(history)[(setName, address)])
  {
    if history != [] {
      var last := history[|history| - 1];
      ElementIsLastEnd(history[..|history| - 1], setName, address);
      if last.Filling? {
        assert (setName, address) in Targeted(last.setName, last.addresses)
          <==> last.setName == setName && address in last.addresses;
      }
    }
  }

  /** A promise holds exactly when the last fill of each of its addresses lasts long enough. */
  lemma KeptExactly(history: History, promise: Promise)
    ensures Kept(ElementsOf(history), promise) <==>
              forall a :: a in promise.addresses ==>
                LastEnd(history, promise.setName, a).Some? && promise.until <= LastEnd(history, promise.setName, a).value
  {
    forall a ensures (promise.setName, a) in ElementsOf(history) <==> LastEnd(history, promise.setName, a).Some?
             ensures (promise.setName, a) in ElementsOf(history) ==>
                       LastEnd(history, promise.setName, a) == Some(ElementsOf(history)[(promise.setName, a)])
    {
      ElementIsLastEnd(history, promise.setName, a);
    }
  }

  /** An event that takes time away from a promise. */
  predicate Disturbs(event: Event, promise: Promise) {
    event.Filling? && Shortens(promise, event.setName, event.addresses, event.deadline)
  }

  ghost predicate NoRebuild(history: History, from: int, to: int) {
    forall k :: 0 <= k < |history| && from <= k < to ==> !history[k].Rebuilt?
  }

  /** A fill that is long enough keeps its promise while the table stays and nothing shortens it. */
  lemma {:induction false} KeptSince(history: History, fill: nat, promise: Promise)
    requires fill < |history| && history[fill].Filling? && history[fill].setName == promise.setName
    requires promise.addresses <= history[fill].addresses && promise.until <= history[fill].deadline
    requires NoRebuild(history, fill, |history|)
    requires forall k :: fill < k < |history| ==> !Disturbs(history[k], promise)
    ensures Kept(ElementsOf(history), promise)
    decreases |history|
  {
    var n := |history| - 1;
    var last, before := history[n], ElementsOf(history[..n]);
    if fill < n {
      KeptSince(history[..n], fill, promise);
      if last.Filling? {
        FillKeepsIff(before, promise, last.setName, last.addresses, last.deadline);
      }
    } else {
      forall a | a in promise.addresses ensures (promise.setName, a) in ElementsOf(history)
                                             && promise.until <= ElementsOf(history)[(promise.setName, a)] {
        assert (promise.setName, a) in Targeted(last.setName, last.addresses);
      }
    }
  }

  // ---- the fills of one name -----------------------------------------------------------------------

  /** The last answer of a name that was given under a rule: its addresses stay in the set until it may no longer be
      cached. `place` is the fill that went before it. */
  datatype Given = Given(setName: string, addresses: set<Address>, until: int, place: nat)
  {
    function Promised(): Promise { Promise(setName, addresses, until) }
  }

  /** A fill for this name and set. */
  predicate IsOwn(event: Event, name: Name, setName: string) {
    event.Filling? && event.name == name && event.setName == setName
  }

  /** Behind the last fill for this name and set; 0 when there is none. */
  function BehindLastOwn(history: History, name: Name, setName: string): (behind: nat)
    ensures behind <= |history|
    ensures behind > 0 ==> IsOwn(history[behind - 1], name, setName)
  {
    if history == [] then 0
    else if IsOwn(history[|history| - 1], name, setName) then |history|
    else BehindLastOwn(history[..|history| - 1], name, setName)
  }

  lemma {:induction false} OwnIsBefore(history: History, name: Name, setName: string, fill: nat)
    requires fill < |history| && IsOwn(history[fill], name, setName)
    ensures fill < BehindLastOwn(history, name, setName)
  {
    if !IsOwn(history[|history| - 1], name, setName) {
      OwnIsBefore(history[..|history| - 1], name, setName, fill);
    }
  }

  /** No fill behind the name's own last one shortens what was promised. */
  ghost predicate Undisturbed(history: History, name: Name, given: Given) {
    forall k :: BehindLastOwn(history, name, given.setName) <= k < |history| ==> !Disturbs(history[k], given.Promised())
  }

  /** Every fill for the name since it was given carries its addresses, for at least as long. */
  ghost predicate OwnFillsHold(history: History, name: Name, given: Given) {
    && given.place < |history| && IsOwn(history[given.place], name, given.setName)
    && forall k :: given.place <= k < |history| && history[k].Filling? && history[k].name == name ==>
         history[k].addresses == given.addresses && history[k].deadline >= given.until
  }

  /** A replay that found the name under its rule, with a whole second of its answer left. */
  predicate Reaches(event: Event, name: Name, given: Given) {
    event.Replayed? && Matched(event.sets, name) == Some(given.setName) && event.now + 1000 <= given.until
  }

  /** The name was filled again since the last rebuild before `to`. */
  ghost predicate FilledAgain(history: History, to: int, name: Name, given: Given) {
    exists fill :: given.place < fill < to && fill < |history| && IsOwn(history[fill], name, given.setName)
        && NoRebuild(history, fill, to)
  }

  /** The table was not rebuilt since the answer, or a replay that reaches the name went through since the last rebuild. */
  ghost predicate Replenished(history: History, name: Name, given: Given) {
    || NoRebuild(history, given.place, |history|)
    || exists r :: given.place < r < |history| && Reaches(history[r], name, given) && NoRebuild(history, r, |history|)
  }

  ghost function LastFill(history: History, name: Name, given: Given): (fill: nat)
    requires OwnFillsHold(history, name, given)
    requires NoRebuild(history, given.place, |history|) || FilledAgain(history, |history|, name, given)
    ensures given.place <= fill < |history| && IsOwn(history[fill], name, given.setName)
              && NoRebuild(history, fill, |history|)
  {
    if NoRebuild(history, given.place, |history|) then given.place
    else
      var fill :| given.place < fill < |history| && IsOwn(history[fill], name, given.setName)
          && NoRebuild(history, fill, |history|);
      fill
  }

  lemma OwnHolds(history: History, name: Name, given: Given, fill: nat)
    requires OwnFillsHold(history, name, given) && given.place <= fill < |history|
               && IsOwn(history[fill], name, given.setName)
    ensures history[fill].Filling? && history[fill].setName == given.setName
    ensures history[fill].addresses == given.addresses && history[fill].deadline >= given.until
  {
  }

  /** Why a promise holds: its own last fill is behind the last rebuild, and nothing shortened it since. */
  lemma OwnFillKeeps(history: History, name: Name, given: Given)
    requires OwnFillsHold(history, name, given) && Undisturbed(history, name, given)
    requires NoRebuild(history, given.place, |history|) || FilledAgain(history, |history|, name, given)
    ensures Kept(ElementsOf(history), given.Promised())
  {
    var fill := LastFill(history, name, given);
    OwnIsBefore(history, name, given.setName, fill);
    var last := BehindLastOwn(history, name, given.setName) - 1;
    OwnHolds(history, name, given, last);
    hide OwnFillsHold, FilledAgain, BehindLastOwn, ElementsOf, Kept, IsOwn, Disturbs;
    KeptSince(history, last, given.Promised());
  }
}
