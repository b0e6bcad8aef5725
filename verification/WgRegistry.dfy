/** Addresses of the WireGuard peers (core/vibedpn/engine/wg.py, `next_address` and `fit_to_subnet`). */
module WgRegistry {
  import opened Options

  const RESERVED_ADDRESSES := 3

  /** MIN_WG_SUBNET_ADDRESSES: a network, a server, a peer and a broadcast address. */
  type Subnet = s: SubnetData | s.size >= 4 witness SubnetData(0, 4)

  datatype SubnetData = SubnetData(network: int, size: int)
  {
    function Server(): int { network + 1 }
    function Broadcast(): int { network + size - 1 }
  }

  datatype Peer = Peer(name: string, address: int, publicKey: string, privateKey: string, created: int, tunnelOnly: bool)

  datatype Renumbered = Renumbered(name: string, was: int, now: int)

  /** In the subnet, and neither its network, nor its broadcast, nor the server. */
  predicate Fits(subnet: Subnet, address: int) {
    && subnet.network <= address <= subnet.Broadcast()
    && address != subnet.network && address != subnet.Broadcast() && address != subnet.Server()
  }

  /** The addresses peers may have. */
  function Room(subnet: Subnet): set<int> {
    set a | subnet.network <= a <= subnet.Broadcast() && Fits(subnet, a)
  }

  function Addresses(peers: seq<Peer>): set<int> {
    set p | p in peers :: p.address
  }

  /** The registry accepts no name and no address twice. */
  predicate Unique(peers: seq<Peer>) {
    forall i, j :: 0 <= i < j < |peers| ==> peers[i].name != peers[j].name && peers[i].address != peers[j].address
  }

  // ---- the lowest free host ------------------------------------------------------------------------

  /** The lowest host from `host` on that is not taken. */
  function FreeFrom(subnet: Subnet, taken: set<int>, host: int): Option<int>
    requires subnet.network < host
    decreases subnet.Broadcast() - host
  {
    if host >= subnet.Broadcast() then None
    else if host !in taken then Some(host)
    else FreeFrom(subnet, taken, host + 1)
  }

  function NextAddress(subnet: Subnet, taken: set<int>): Option<int> {
    FreeFrom(subnet, taken + {subnet.Server()}, subnet.network + 1)
  }

  lemma {:induction false} FreeFromIsLowest(subnet: Subnet, taken: set<int>, host: int)
    requires subnet.network < host
    ensures match FreeFrom(subnet, taken, host) {
              case None => forall a :: host <= a < subnet.Broadcast() ==> a in taken
              case Some(free) => host <= free < subnet.Broadcast() && free !in taken && forall a :: host <= a < free ==>
                  a in taken
            }
    decreases subnet.Broadcast() - host
  {
    if host < subnet.Broadcast() && host in taken {
      FreeFromIsLowest(subnet, taken, host + 1);
    }
  }

  /** A free address is found exactly when one is left, and it is the lowest one. */
  lemma NextAddressIsLowest(subnet: Subnet, taken: set<int>)
    ensures NextAddress(subnet, taken).None? <==> Room(subnet) <= taken
    ensures NextAddress(subnet, taken).Some? ==>
              var free := NextAddress(subnet, taken).value;
              free in Room(subnet) && free !in taken && forall a :: a in Room(subnet) && a < free ==> a in taken
  {
    FreeFromIsLowest(subnet, taken + {subnet.Server()}, subnet.network + 1);
    if NextAddress(subnet, taken).None? {
      forall a | a in Room(subnet) ensures a in taken {
        assert a in taken + {subnet.Server()};
      }
    } else {
      var free := NextAddress(subnet, taken).value;
      forall a | a in Room(subnet) && a < free ensures a in taken {
        assert a in taken + {subnet.Server()};
      }
    }
  }

  /** `next_address`. */
  method LowestFree(subnet: Subnet, peers: seq<Peer>) returns (address: Option<int>)
    ensures address == NextAddress(subnet, Addresses(peers))
  {
    var taken := Addresses(peers) + {subnet.Server()};
    var host := subnet.network + 1;
    while host < subnet.Broadcast()
      invariant subnet.network < host <= subnet.Broadcast()
      invariant FreeFrom(subnet, taken, host) == NextAddress(subnet, Addresses(peers))
    {
      if host !in taken {
        return Some(host);
      }
      host := host + 1;
    }
    address := None;
  }

  // ---- moving everybody into the subnet ------------------------------------------------------------

  function Moved(peer: Peer, address: int): Peer { peer.(address := address) }

  /** Peers that fit stay; each other one takes the lowest address nobody has taken by then. */
  function Placed(subnet: Subnet, peers: seq<Peer>, taken: set<int>): (placed: Option<seq<Peer>>)
    ensures placed.Some? ==> |placed.value| == |peers|
    decreases peers
  {
    if peers == [] then Some([])
    else if Fits(subnet, peers[0].address) then Cons(peers[0], Placed(subnet, peers[1..], taken))
    else match NextAddress(subnet, taken)
      case None => None
      case Some(a) => Cons(Moved(peers[0], a), Placed(subnet, peers[1..], taken + {a}))
  }

  function Cons(peer: Peer, rest: Option<seq<Peer>>): Option<seq<Peer>> {
    if rest.None? then None else Some([peer] + rest.value)
  }

  function Kept(subnet: Subnet, peers: seq<Peer>): seq<Peer> {
    if peers == [] then [] else (if Fits(subnet, peers[0].address) then [peers[0]] else []) + Kept(subnet, peers[1..])
  }

  /** `fit_to_subnet`: everybody in order, or None when the subnet is too small. */
  function FitToSubnet(subnet: Subnet, peers: seq<Peer>): (placed: Option<seq<Peer>>)
    ensures placed.Some? ==> |placed.value| == |peers|
  {
    Placed(subnet, peers, Addresses(Kept(subnet, peers)))
  }

  /** Who moved, and from where. */
  function Renumbering(before: seq<Peer>, placed: seq<Peer>): seq<Renumbered>
    requires |before| == |placed|
  {
    if before == [] then [] else
      var n := |before| - 1;
      Renumbering(before[..n], placed[..n])
      + if before[n].address == placed[n].address then []
        else [Renumbered(before[n].name, before[n].address, placed[n].address)]
  }

  /** The same boxes in the same order; only an address that does not fit is another one. */
  predicate SameBoxes(subnet: Subnet, before: seq<Peer>, placed: seq<Peer>) {
    && |placed| == |before|
    && forall i :: 0 <= i < |before| ==>
         && placed[i] == Moved(before[i], placed[i].address)
         && (Fits(subnet, before[i].address) ==> placed[i] == before[i])
         && Fits(subnet, placed[i].address)
  }

  function Range(low: int, high: int): (range: set<int>)
    ensures forall a :: a in range <==> low <= a < high
    ensures |range| == if low <= high then high - low else 0
    decreases high - low
  {
    if low >= high then {} else Range(low, high - 1) + {high - 1}
  }

  /** The addresses of a subnet but its own, the server's, which is the first, and the broadcast address. */
  lemma RoomIs(subnet: Subnet, address: int)
    ensures address in Room(subnet) <==> subnet.network + 2 <= address <= subnet.network + subnet.size - 2
  {
    assert address in Room(subnet) <==> Fits(subnet, address);
  }

  lemma {:induction false} AddressesSize(peers: seq<Peer>)
    ensures |Addresses(peers)| <= |peers|
  {
    if peers != [] {
      var n := |peers| - 1;
      AddressesSize(peers[..n]);
      assert Addresses(peers) == Addresses(peers[..n]) + {peers[n].address} by {
        assert peers == peers[..n] + [peers[n]];
      }
    }
  }

  /** A registry that has every address of the room is as long as the room. */
  lemma FullIsLong(subnet: Subnet, peers: seq<Peer>)
    requires Room(subnet) <= Addresses(peers)
    ensures |peers| >= subnet.size - RESERVED_ADDRESSES
  {
    RoomSize(subnet);
    SubsetSize(Room(subnet), Addresses(peers));
    AddressesSize(peers);
  }

  lemma RoomSize(subnet: Subnet)
    ensures |Room(subnet)| == subnet.size - RESERVED_ADDRESSES
  {
    assert Room(subnet) == Range(subnet.network + 2, subnet.Broadcast());
  }

  lemma SubsetSize(small: set<int>, big: set<int>)
    requires small <= big
    ensures |small| <= |big| && (|small| == |big| <==> small == big)
  {
    assert big == small + (big - small);
  }

  function Strays(subnet: Subnet, peers: seq<Peer>): nat {
    if peers == [] then 0 else (if Fits(subnet, peers[0].address) then 0 else 1) + Strays(subnet, peers[1..])
  }

  lemma NewAddressFits(subnet: Subnet)
    ensures forall a :: a in Room(subnet) ==> Fits(subnet, a)
  {
  }

  /** Pigeonhole: it works exactly while there is room for the peers that do not fit. */
  lemma {:induction false} PlacedExactly(subnet: Subnet, peers: seq<Peer>, taken: set<int>)
    requires taken <= Room(subnet)
    ensures Placed(subnet, peers, taken).None? <==> |taken| + Strays(subnet, peers) > subnet.size - RESERVED_ADDRESSES
                                                    && Strays(subnet, peers) > 0
    ensures Placed(subnet, peers, taken).Some? ==> SameBoxes(subnet, peers, Placed(subnet, peers, taken).value)
    decreases peers
  {
    hide Room, NextAddress, Fits;
    RoomSize(subnet);
    SubsetSize(taken, Room(subnet));
    NewAddressFits(subnet);
    if peers != [] {
      if Fits(subnet, peers[0].address) {
        PlacedExactly(subnet, peers[1..], taken);
      } else {
        NextAddressIsLowest(subnet, taken);
        var next := NextAddress(subnet, taken);
        if next.Some? {
          PlacedExactly(subnet, peers[1..], taken + {next.value});
        }
      }
    }
  }

  /** Who moves gets an address that was not taken, so nobody shares one. */
  lemma {:induction false} PlacedUnique(subnet: Subnet, peers: seq<Peer>, taken: set<int>)
    requires Unique(peers) && Addresses(Kept(subnet, peers)) <= taken && Placed(subnet, peers, taken).Some?
    requires SameBoxes(subnet, peers, Placed(subnet, peers, taken).value)
    ensures Unique(Placed(subnet, peers, taken).value)
    ensures forall i :: 0 <= i < |peers| && !Fits(subnet, peers[i].address) ==>
              Placed(subnet, peers, taken).value[i].address !in taken
    decreases peers
  {
    if peers != [] {
      var placed, rest := Placed(subnet, peers, taken).value, peers[1..];
      StaysSameBoxes(subnet, peers, placed);
      KeptTail(subnet, peers);
      var next := NextAddress(subnet, taken);
      var taken' := if Fits(subnet, peers[0].address) then taken else taken + {next.value};
      NextAddressIsLowest(subnet, taken);
      PlacedUnique(subnet, rest, taken');
      assert placed[1..] == Placed(subnet, rest, taken').value;
      hide Unique, NextAddress, Kept, Addresses, Fits, Room;
      var first, others := placed[0], placed[1..];
      forall j | 1 <= j < |peers| ensures placed[j].address != first.address {
        assert placed[j] == others[j - 1] && peers[j] == rest[j - 1];
        if Fits(subnet, peers[j].address) {
          KeptHolds(subnet, rest, j - 1);
          AddressesDiffer(peers, 0, j);
        }
      }
      UniqueFrom(peers, placed);
    }
  }

  /** Who moves gets the lowest address of the room that neither a peer who stays nor one who moved before has. */
  lemma {:induction false} PlacedLowest(subnet: Subnet, peers: seq<Peer>, taken: set<int>, i: nat, address: int)
    requires i < |peers| && Placed(subnet, peers, taken).Some? && !Fits(subnet, peers[i].address)
    requires address in Room(subnet) && address < Placed(subnet, peers, taken).value[i].address
    ensures address in taken || exists j :: 0 <= j < i && Placed(subnet, peers, taken).value[j].address == address
    decreases peers
  {
    var placed := Placed(subnet, peers, taken).value;
    NextAddressIsLowest(subnet, taken);
    var next := NextAddress(subnet, taken);
    if i > 0 {
      var taken' := if Fits(subnet, peers[0].address) then taken else taken + {next.value};
      var rest := Placed(subnet, peers[1..], taken').value;
      assert placed == [placed[0]] + rest;
      hide Room, NextAddress, Fits, Placed;
      PlacedLowest(subnet, peers[1..], taken', i - 1, address);
      if address !in taken' {
        var j :| 0 <= j < i - 1 && rest[j].address == address;
        assert placed[j + 1].address == address;
      }
    }
  }

  /** The same for the whole registry: everything below a new address belongs to a peer who stays, or to one further up. */
  lemma FittedLowest(subnet: Subnet, peers: seq<Peer>, i: nat, address: int)
    requires i < |peers| && FitToSubnet(subnet, peers).Some? && !Fits(subnet, peers[i].address)
    requires address in Room(subnet) && address < FitToSubnet(subnet, peers).value[i].address
    ensures || (exists p :: p in peers && p.address == address)
            || (exists j :: 0 <= j < i && FitToSubnet(subnet, peers).value[j].address == address)
  {
    PlacedLowest(subnet, peers, Addresses(Kept(subnet, peers)), i, address);
    KeptFits(subnet, peers);
  }

  ghost predicate TellsOf(before: Peer, placed: Peer, told: Renumbered) {
    before.address != placed.address && told == Renumbered(before.name, before.address, placed.address)
  }

  /** Who moved is told, and nobody else. */
  lemma {:induction false} RenumberingHas(before: seq<Peer>, placed: seq<Peer>, told: Renumbered)
    requires |before| == |placed|
    ensures told in Renumbering(before, placed) <==> exists i :: 0 <= i < |before| && TellsOf(before[i], placed[i], told)
  {
    if before != [] {
      var n := |before| - 1;
      var front, behind := before[..n], placed[..n];
      RenumberingHas(front, behind, told);
      assert told in Renumbering(before, placed) <==>
               told in Renumbering(front, behind) || TellsOf(before[n], placed[n], told);
      hide *;
      if i :| 0 <= i < |before| && TellsOf(before[i], placed[i], told) {
        assert i < n ==> TellsOf(front[i], behind[i], told);
      }
      if i :| 0 <= i < n && TellsOf(front[i], behind[i], told) {
        assert TellsOf(before[i], placed[i], told);
      }
    }
  }

  lemma UniqueFrom(peers: seq<Peer>, placed: seq<Peer>)
    requires placed != [] && |placed| == |peers| && Unique(peers) && Unique(placed[1..])
    requires forall i :: 0 <= i < |peers| ==> placed[i].name == peers[i].name
    requires forall j :: 1 <= j < |placed| ==> placed[j].address != placed[0].address
    ensures Unique(placed)
  {
    forall i, j | 0 <= i < j < |placed| ensures placed[i].name != placed[j].name && placed[i].address != placed[j].address {
      if i > 0 {
        assert placed[1..][i - 1] == placed[i] && placed[1..][j - 1] == placed[j];
      }
    }
  }

  lemma AddressesDiffer(peers: seq<Peer>, i: nat, j: nat)
    requires Unique(peers) && i < j < |peers|
    ensures peers[i].address != peers[j].address
  {
  }

  lemma KeptTail(subnet: Subnet, peers: seq<Peer>)
    requires peers != []
    ensures Addresses(Kept(subnet, peers[1..])) <= Addresses(Kept(subnet, peers))
    ensures Fits(subnet, peers[0].address) ==> peers[0].address in Addresses(Kept(subnet, peers))
  {
    var kept, rest := Kept(subnet, peers), Kept(subnet, peers[1..]);
    if Fits(subnet, peers[0].address) {
      assert kept == [peers[0]] + rest && kept[0] in kept;
    } else {
      assert kept == rest;
    }
  }

  lemma StaysSameBoxes(subnet: Subnet, peers: seq<Peer>, placed: seq<Peer>)
    requires peers != [] && SameBoxes(subnet, peers, placed)
    ensures SameBoxes(subnet, peers[1..], placed[1..])
  {
  }

  lemma {:induction false} KeptHolds(subnet: Subnet, peers: seq<Peer>, i: nat)
    requires i < |peers| && Fits(subnet, peers[i].address)
    ensures peers[i] in Kept(subnet, peers) && peers[i].address in Addresses(Kept(subnet, peers))
  {
    if i > 0 {
      KeptHolds(subnet, peers[1..], i - 1);
    }
  }

  lemma {:induction false} KeptSize(subnet: Subnet, peers: seq<Peer>)
    requires Unique(peers)
    ensures |Addresses(Kept(subnet, peers))| + Strays(subnet, peers) == |peers|
    ensures Addresses(Kept(subnet, peers)) <= Room(subnet)
    ensures forall p :: p in Kept(subnet, peers) ==> p in peers
  {
    if peers != [] {
      KeptSize(subnet, peers[1..]);
      var kept, rest := Kept(subnet, peers), Kept(subnet, peers[1..]);
      if Fits(subnet, peers[0].address) {
        assert kept == [peers[0]] + rest;
        assert Addresses(kept) == {peers[0].address} + Addresses(rest);
        assert peers[0].address !in Addresses(rest);
      } else {
        assert kept == rest;
      }
    }
  }

  /** The main result: a subnet is big enough exactly when its addresses but three are as many as the peers. */
  lemma FitsExactly(subnet: Subnet, peers: seq<Peer>)
    requires Unique(peers)
    ensures FitToSubnet(subnet, peers).Some? <==> |peers| <= subnet.size - RESERVED_ADDRESSES
    ensures FitToSubnet(subnet, peers).Some? ==>
              var placed := FitToSubnet(subnet, peers).value;
              Unique(placed) && SameBoxes(subnet, peers, placed) && FitToSubnet(subnet, placed) == Some(placed)
  {
    var taken := Addresses(Kept(subnet, peers));
    KeptSize(subnet, peers);
    RoomSize(subnet);
    SubsetSize(taken, Room(subnet));
    PlacedExactly(subnet, peers, taken);
    if FitToSubnet(subnet, peers).Some? {
      PlacedUnique(subnet, peers, taken);
      var placed := FitToSubnet(subnet, peers).value;
      AllFit(subnet, placed, Addresses(Kept(subnet, placed)));
    }
  }

  lemma {:induction false} AllFit(subnet: Subnet, peers: seq<Peer>, taken: set<int>)
    requires forall i :: 0 <= i < |peers| ==> Fits(subnet, peers[i].address)
    ensures Placed(subnet, peers, taken) == Some(peers)
  {
    if peers != [] {
      AllFit(subnet, peers[1..], taken);
      assert [peers[0]] + peers[1..] == peers;
    }
  }

  function Names(peers: seq<Peer>): set<string> {
    set p | p in peers :: p.name
  }

  method KeepFitting(subnet: Subnet, peers: seq<Peer>) returns (kept: seq<Peer>)
    ensures kept == Kept(subnet, peers)
  {
    kept := [];
    for i := 0 to |peers|
      invariant kept + Kept(subnet, peers[i..]) == Kept(subnet, peers)
    {
      assert peers[i..][1..] == peers[i + 1..];
      if Fits(subnet, peers[i].address) {
        kept := kept + [peers[i]];
      }
    }
    assert peers[|peers|..] == [] && kept + [] == kept;
  }

  /** `fit_to_subnet`: kept by name, placed in order, moved one after the other. */
  method Fit(subnet: Subnet, peers: seq<Peer>) returns (placed: Option<seq<Peer>>, moved: seq<Renumbered>)
    requires Unique(peers)
    ensures placed == FitToSubnet(subnet, peers)
    ensures moved == if placed.Some? then Renumbering(peers, placed.value) else []
  {
    var taken := KeepFitting(subnet, peers);
    var keptNames := Names(taken);
    var done: seq<Peer> := [];
    moved := [];
    BehindNothing(FitToSubnet(subnet, peers));
    assert peers[0..] == peers;
    for i := 0 to |peers|
      invariant |done| == i && moved == Renumbering(peers[..i], done)
      invariant FitToSubnet(subnet, peers) == Behind(done, Placed(subnet, peers[i..], Addresses(taken)))
    {
      KeptNames(subnet, peers, i);
      PlacedStep(subnet, done, peers, i, taken);
      assert peers[..i + 1] == peers[..i] + [peers[i]];
      if peers[i].name in keptNames {
        RenumberingNext(peers[..i], done, peers[i], peers[i].address);
        done := done + [peers[i]];
      } else {
        var address := LowestFree(subnet, taken);
        if address.None? {
          return None, [];
        }
        RenumberingNext(peers[..i], done, peers[i], address.value);
        taken := taken + [Moved(peers[i], address.value)];
        done := done + [Moved(peers[i], address.value)];
        moved := moved + [Renumbered(peers[i].name, peers[i].address, address.value)];
      }
    }
    assert peers[|peers|..] == [] && peers[..|peers|] == peers && done + [] == done;
    placed := Some(done);
  }

  /** What one peer adds. */
  lemma PlacedStep(subnet: Subnet, done: seq<Peer>, peers: seq<Peer>, i: nat, taken: seq<Peer>)
    requires i < |peers|
    ensures Fits(subnet, peers[i].address) ==>
              Behind(done, Placed(subnet, peers[i..], Addresses(taken)))
              == Behind(done + [peers[i]], Placed(subnet, peers[i + 1..], Addresses(taken)))
    ensures !Fits(subnet, peers[i].address) ==> match NextAddress(subnet, Addresses(taken))
              case None => Behind(done, Placed(subnet, peers[i..], Addresses(taken))) == None
              case Some(a) =>
                && a != peers[i].address
                && Behind(done, Placed(subnet, peers[i..], Addresses(taken)))
                   == Behind(done + [Moved(peers[i], a)],
                       Placed(subnet, peers[i + 1..], Addresses(taken + [Moved(peers[i], a)])))
  {
    assert peers[i..][1..] == peers[i + 1..] && peers[i..][0] == peers[i];
    if Fits(subnet, peers[i].address) {
      BehindCons(done, peers[i], Placed(subnet, peers[i + 1..], Addresses(taken)));
    } else if NextAddress(subnet, Addresses(taken)).Some? {
      NextAddressIsLowest(subnet, Addresses(taken));
      var a := NextAddress(subnet, Addresses(taken)).value;
      assert Addresses(taken + [Moved(peers[i], a)]) == Addresses(taken) + {a};
      BehindCons(done, Moved(peers[i], a), Placed(subnet, peers[i + 1..], Addresses(taken) + {a}));
    }
  }

  lemma BehindCons(done: seq<Peer>, peer: Peer, rest: Option<seq<Peer>>)
    ensures Behind(done, Cons(peer, rest)) == Behind(done + [peer], rest)
  {
    if rest.Some? {
      assert done + ([peer] + rest.value) == done + [peer] + rest.value;
    }
  }

  lemma BehindNothing(rest: Option<seq<Peer>>)
    ensures Behind([], rest) == rest
  {
    if rest.Some? {
      assert [] + rest.value == rest.value;
    }
  }

  function Behind(done: seq<Peer>, rest: Option<seq<Peer>>): Option<seq<Peer>> {
    if rest.None? then None else Some(done + rest.value)
  }

  lemma KeptNames(subnet: Subnet, peers: seq<Peer>, i: nat)
    requires Unique(peers) && i < |peers|
    ensures peers[i].name in Names(Kept(subnet, peers)) <==> Fits(subnet, peers[i].address)
  {
    if Fits(subnet, peers[i].address) {
      KeptHolds(subnet, peers, i);
    } else {
      KeptFits(subnet, peers);
    }
  }

  lemma {:induction false} KeptFits(subnet: Subnet, peers: seq<Peer>)
    ensures forall p :: p in Kept(subnet, peers) ==> p in peers && Fits(subnet, p.address)
  {
    if peers != [] {
      KeptFits(subnet, peers[1..]);
    }
  }

  lemma RenumberingNext(before: seq<Peer>, placed: seq<Peer>, peer: Peer, now: int)
    requires |before| == |placed|
    ensures Renumbering(before + [peer], placed + [Moved(peer, now)])
         == Renumbering(before, placed) + if now == peer.address then [] else [Renumbered(peer.name, peer.address, now)]
  {
    assert (before + [peer])[..|before|] == before;
    assert (placed + [Moved(peer, now)])[..|before|] == placed;
  }
}
