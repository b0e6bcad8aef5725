/** The timed nft sets of routing.mode smart and what an answer was promised of them
    (core/vibedpn/engine/resolver.py, `answer_facts`, `steerable`, `cap_ttl`, `fill_script`). */
module ChannelSets {
  import opened Options
  import opened Names
  import opened Sequences

  const MAX_ANSWER_TTL: nat := 300
  const SET_MARGIN_SECONDS: nat := 60

  /** An IPv4 address as its number. */
  type Address = int

  datatype Rdata = A(addresses: seq<Address>) | Cname(targets: seq<Name>) | Other

  datatype RRset = RRset(ttl: nat, data: Rdata)

  // ---- what a response says ------------------------------------------------------------------------

  function AddressesOf(data: Rdata): seq<Address> {
    if data.A? then data.addresses else []
  }

  function Addresses(answer: seq<RRset>): seq<Address> {
    if answer == [] then [] else AddressesOf(answer[0].data) + Addresses(answer[1..])
  }

  function TargetsOf(data: Rdata): seq<Name> {
    if data.Cname? then NormalAll(data.targets) else []
  }

  function Targets(answer: seq<RRset>): seq<Name> {
    if answer == [] then [] else TargetsOf(answer[0].data) + Targets(answer[1..])
  }

  function NormalAll(names: seq<Name>): seq<Name> {
    if names == [] then [] else [Normal(names[0])] + NormalAll(names[1..])
  }

  function Min(a: nat, b: nat): nat { if a < b then a else b }

  /** The lowest TTL, which is how long a cache may keep the answer. */
  function Lowest(answer: seq<RRset>): (lowest: Option<nat>)
    ensures lowest.Some? <==> answer != []
    ensures lowest.Some? ==> forall r :: r in answer ==> lowest.value <= r.ttl
    ensures lowest.Some? ==> exists r :: r in answer && r.ttl == lowest.value
  {
    if answer == [] then None
    else if |answer| == 1 then Some(answer[0].ttl)
    else Some(Min(answer[0].ttl, Lowest(answer[1..]).value))
  }

  function Ttls(answer: seq<RRset>): seq<nat> {
    if answer == [] then [] else [answer[0].ttl] + Ttls(answer[1..])
  }

  /** `answer_facts`. */
  method AnswerFacts(answer: seq<RRset>) returns (addresses: seq<Address>, targets: seq<Name>, ttl: Option<nat>)
    ensures addresses == Addresses(answer) && targets == Targets(answer) && ttl == Lowest(answer)
  {
    addresses, targets := [], [];
    var ttls: seq<nat> := [];
    NoFacts();
    LowestOfTtls(answer);
    hide Addresses, Targets, Ttls, NormalAll, Lowest;
    assert answer[..0] == [];
    for i := 0 to |answer|
      invariant addresses == Addresses(answer[..i]) && targets == Targets(answer[..i]) && ttls == Ttls(answer[..i])
    {
      FactsNext(answer, i);
      ttls := ttls + [answer[i].ttl];
      if answer[i].data.A? {
        addresses := addresses + answer[i].data.addresses;
      } else if answer[i].data.Cname? {
        targets := targets + NormalAll(answer[i].data.targets);
      }
    }
    assert answer[..|answer|] == answer;
    ttl := MinOf(ttls);
  }

  lemma NoFacts()
    ensures Addresses([]) == [] && Targets([]) == [] && Ttls([]) == []
  {
  }

  lemma FactsOfFirst(first: RRset, rest: seq<RRset>)
    ensures Addresses([first] + rest) == AddressesOf(first.data) + Addresses(rest)
    ensures Targets([first] + rest) == TargetsOf(first.data) + Targets(rest)
    ensures Ttls([first] + rest) == [first.ttl] + Ttls(rest)
  {
    hide AddressesOf, TargetsOf;
    assert ([first] + rest)[1..] == rest;
  }

  lemma {:induction false} FactsAppend(a: seq<RRset>, b: seq<RRset>)
    ensures Addresses(a + b) == Addresses(a) + Addresses(b)
    ensures Targets(a + b) == Targets(a) + Targets(b)
    ensures Ttls(a + b) == Ttls(a) + Ttls(b)
  {
    hide AddressesOf, TargetsOf;
    if a == [] {
      assert a + b == b;
    } else {
      FactsAppend(a[1..], b);
      FactsOfFirst(a[0], a[1..]);
      FactsOfFirst(a[0], a[1..] + b);
      hide Addresses, Targets, Ttls;
      assert a == [a[0]] + a[1..] && a + b == [a[0]] + (a[1..] + b);
      Associates(AddressesOf(a[0].data), Addresses(a[1..]), Addresses(b));
      Associates(TargetsOf(a[0].data), Targets(a[1..]), Targets(b));
      Associates([a[0].ttl], Ttls(a[1..]), Ttls(b));
    }
  }

  lemma {:induction false} FactsNext(answer: seq<RRset>, i: nat)
    requires i < |answer|
    ensures Addresses(answer[..i + 1]) == Addresses(answer[..i]) + AddressesOf(answer[i].data)
    ensures Targets(answer[..i + 1]) == Targets(answer[..i]) + TargetsOf(answer[i].data)
    ensures Ttls(answer[..i + 1]) == Ttls(answer[..i]) + [answer[i].ttl]
  {
    assert answer[..i + 1] == answer[..i] + [answer[i]] && [answer[i]][1..] == [];
    FactsAppend(answer[..i], [answer[i]]);
  }

  lemma {:induction false} LowestOfTtls(answer: seq<RRset>)
    ensures Ttls(answer) == [] <==> answer == []
    ensures answer == [] ==> Lowest(answer) == None
    ensures answer != [] ==> Lowest(answer).value in Ttls(answer) && forall t :: t in Ttls(answer) ==>
              Lowest(answer).value <= t
  {
    if answer != [] {
      LowestOfTtls(answer[1..]);
    }
  }

  method MinOf(ttls: seq<nat>) returns (min: Option<nat>)
    ensures min.None? <==> ttls == []
    ensures min.Some? ==> min.value in ttls && forall t :: t in ttls ==> min.value <= t
  {
    min := None;
    for i := 0 to |ttls|
      invariant min.None? <==> i == 0
      invariant min.Some? ==> min.value in ttls[..i] && forall t :: t in ttls[..i] ==> min.value <= t
    {
      assert ttls[..i + 1] == ttls[..i] + [ttls[i]];
      min := Some(if min.None? then ttls[i] else Min(min.value, ttls[i]));
    }
    assert ttls[..|ttls|] == ttls;
  }

  /** An address is one of the answer exactly when an A record of it has the address, and nothing else is; a target exactly
      when a CNAME record has a name that normalizes to it. */
  lemma {:induction false} FactsAre(answer: seq<RRset>, address: Address, target: Name)
    ensures address in Addresses(answer) <==> exists r :: r in answer && r.data.A? && address in r.data.addresses
    ensures target in Targets(answer)
       <==> exists r, n :: r in answer && r.data.Cname? && n in r.data.targets && Normal(n) == target
  {
    if answer != [] {
      var first, rest := answer[0], answer[1..];
      FactsAre(rest, address, target);
      assert forall r :: r in answer <==> r == first || r in rest;
      if first.data.Cname? {
        NormalAllHas(first.data.targets, target);
      }
    }
  }

  lemma {:induction false} NormalAllHas(names: seq<Name>, target: Name)
    ensures target in NormalAll(names) <==> exists n :: n in names && Normal(n) == target
  {
    if names != [] {
      NormalAllHas(names[1..], target);
      assert forall n :: n in names <==> n == names[0] || n in names[1..];
    }
  }

  /** What the client gets of what upstream said: the same records in the same order, no TTL above 300 seconds when the name
      is under a rule, and every TTL as it was when it is not. */
  predicate Served(answer: seq<RRset>, given: seq<RRset>, underRule: bool) {
    && |given| == |answer|
    && forall i :: 0 <= i < |answer| ==>
         && given[i].data == answer[i].data
         && given[i].ttl == if underRule && answer[i].ttl > 300 then 300 else answer[i].ttl
  }

  /** `cap_ttl`: no TTL above the cap is left, data and order stay, and the lowest one left is the lowest of the
      answer, capped: the TTL the answer is remembered with is the TTL it is given with. */
  method CapTtl(answer: seq<RRset>, cap: nat) returns (capped: seq<RRset>, lowest: Option<nat>)
    ensures |capped| == |answer|
    ensures forall i :: 0 <= i < |answer| ==> capped[i] == RRset(Min(answer[i].ttl, cap), answer[i].data)
    ensures lowest == Lowest(capped)
    ensures lowest == if answer == [] then None else Some(Min(Lowest(answer).value, cap))
  {
    capped, lowest := answer, None;
    ghost var at := 0;
    for i := 0 to |answer|
      invariant |capped| == |answer|
      invariant forall j :: 0 <= j < i ==> capped[j] == RRset(Min(answer[j].ttl, cap), answer[j].data)
      invariant forall j :: i <= j < |answer| ==> capped[j] == answer[j]
      invariant lowest.None? <==> i == 0
      invariant lowest.Some? ==> 0 <= at < i && lowest.value == capped[at].ttl
      invariant lowest.Some? ==> forall j :: 0 <= j < i ==> lowest.value <= capped[j].ttl
    {
      var ttl := Min(capped[i].ttl, cap);
      capped := capped[i := capped[i].(ttl := ttl)];
      at := if lowest.None? || ttl <= lowest.value then i else at;
      lowest := Some(if lowest.None? then ttl else Min(lowest.value, ttl));
    }
    if answer != [] {
      LowestIs(capped, lowest.value);
      CappedLowest(answer, cap, lowest.value);
    }
  }

  lemma CappedLowest(answer: seq<RRset>, cap: nat, lowest: nat)
    requires exists j :: 0 <= j < |answer| && Min(answer[j].ttl, cap) == lowest
    requires forall j :: 0 <= j < |answer| ==> lowest <= Min(answer[j].ttl, cap)
    ensures lowest == Min(Lowest(answer).value, cap)
  {
    var j :| 0 <= j < |answer| && Min(answer[j].ttl, cap) == lowest;
    assert answer[j] in answer;
    var r :| r in answer && r.ttl == Lowest(answer).value;
    var k :| 0 <= k < |answer| && answer[k] == r;
  }

  lemma LowestIs(answer: seq<RRset>, lowest: nat)
    requires exists j :: 0 <= j < |answer| && answer[j].ttl == lowest
    requires forall j :: 0 <= j < |answer| ==> lowest <= answer[j].ttl
    ensures Lowest(answer) == Some(lowest)
  {
    var j :| 0 <= j < |answer| && answer[j].ttl == lowest;
    assert answer[j] in answer;
  }

  /** `steerable`, for one address: not in 0.0.0.0/8, 127.0.0.0/8, 169.254.0.0/16, 224.0.0.0/4 or 240.0.0.0/4. */
  predicate IsSteerable(address: Address) {
    && address / 0x100_0000 != 0
    && address / 0x100_0000 != 127
    && address / 0x1_0000 != 0xA9FE
    && address / 0x1000_0000 != 14
    && address / 0x1000_0000 != 15
  }

  /** The same, by octets: no host of "this network", of loopback or of link-local, nothing from 224.0.0.0 on. */
  lemma SteerableByOctets(a: nat, b: nat, c: nat, d: nat)
    requires a < 256 && b < 256 && c < 256 && d < 256
    ensures IsSteerable(((a * 256 + b) * 256 + c) * 256 + d) <==> a != 0 && a != 127 && !(a == 169 && b == 254) && a < 224
  {
  }

  function Steerable(addresses: seq<Address>): set<Address> {
    set a | a in addresses && IsSteerable(a)
  }

  // ---- the sets ------------------------------------------------------------------------------------

  /** Every element with the moment, in milliseconds, at which the kernel drops it. */
  type Elements = map<(string, Address), int>

  function Targeted(setName: string, addresses: set<Address>): set<(string, Address)> {
    set a | a in addresses :: (setName, a)
  }

  /** `nft add element`: an element that is there keeps its old timeout. */
  function NftAdd(elements: Elements, setName: string, addresses: set<Address>, now: int, deadline: int): Elements {
    map k | k in elements.Keys + Targeted(setName, addresses) ::
      if k in elements && (k !in Targeted(setName, addresses) || now < elements[k]) then elements[k] else deadline
  }

  /** `nft delete element`: refused when one of them is not there. */
  function NftDelete(elements: Elements, setName: string, addresses: set<Address>, now: int): Option<Elements> {
    if forall k :: k in Targeted(setName, addresses) ==> k in elements && now < elements[k]
      then Some(elements - Targeted(setName, addresses))
      else None
  }

  function Renewed(elements: Elements, setName: string, addresses: set<Address>, deadline: int): Elements {
    map k | k in elements.Keys + Targeted(setName, addresses) ::
      if k in Targeted(setName, addresses) then deadline else elements[k]
  }

  /** `fill_script`: add, delete, add is never refused and renews every timeout; an add alone does not. */
  lemma FillScriptRenews(elements: Elements, setName: string, addresses: set<Address>, now: int, deadline: int)
    requires now < deadline
    ensures var added := NftAdd(elements, setName, addresses, now, deadline);
            var deleted := NftDelete(added, setName, addresses, now);
            && deleted.Some?
            && NftAdd(deleted.value, setName, addresses, now, deadline) == Renewed(elements, setName, addresses, deadline)
  {
  }

  // ---- what an answer was promised -----------------------------------------------------------------

  /** The addresses of an answer stay in the set of its rule until the answer may no longer be cached. */
  datatype Promise = Promise(setName: string, addresses: set<Address>, until: int)

  predicate Kept(elements: Elements, promise: Promise) {
    forall a :: a in promise.addresses ==>
      (promise.setName, a) in elements && promise.until <= elements[(promise.setName, a)]
  }

  /** Another name with an address of this one in the same set, and a shorter life. */
  predicate Shortens(promise: Promise, setName: string, addresses: set<Address>, deadline: int) {
    promise.setName == setName && deadline < promise.until && exists a :: a in promise.addresses && a in addresses
  }

  /** A fill keeps a promise exactly when it does not shorten it: nothing else can break one. */
  lemma FillKeepsIff(elements: Elements, promise: Promise, setName: string, addresses: set<Address>, deadline: int)
    requires Kept(elements, promise)
    ensures Kept(Renewed(elements, setName, addresses, deadline), promise)
       <==> !Shortens(promise, setName, addresses, deadline)
  {
    if Shortens(promise, setName, addresses, deadline) {
      var a :| a in promise.addresses && a in addresses;
      assert (setName, a) in Targeted(setName, addresses);
    }
  }
}
