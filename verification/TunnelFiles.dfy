/** The files of the WireGuard server (core/vibedpn/engine/wg.py, `_commit`, `add_peer`, `remove_peer`,
    `ensure_server`), written with core/vibedpn/atomic.py. */
module Tunnels {
  import opened Options
  import opened WgRegistry
  import opened Writes

  /** What `render_server_conf` takes from config.yaml. */
  datatype Server = Server(subnet: Subnet, listenPort: int)

  /** One [Peer] section of wg0.conf. */
  datatype Section = Section(name: string, publicKey: string, address: int)

  /** The text of wg0.conf: what core rendered, or anything else. */
  datatype Text = Rendered(server: Server, key: string, sections: seq<Section>) | Foreign(text: string)

  datatype KeyFile = NoKey | Key(key: string) | BadKey
  datatype PeersFile = NoPeers | Registry(peers: seq<Peer>) | Damaged

  datatype Faults = Faults(key: Fault, conf: Fault, peers: Fault, undo: Fault)

  datatype Outcome = Done(peer: Peer) | BadName | Exists | Full | NotFound | Failed

  function Sections(peers: seq<Peer>): seq<Section> {
    seq(|peers|, i requires 0 <= i < |peers| => Section(peers[i].name, peers[i].publicKey, peers[i].address))
  }

  function Render(server: Server, key: string, peers: seq<Peer>): Text {
    Rendered(server, key, Sections(peers))
  }

  /** `write_private`: content that is there already only gets its mode again. */
  function Write<T(==)>(file: T, content: T, fault: Fault): (result: (T, bool)) {
    if file == content then (file, fault == Fine)
    else match fault
      case Fine => (content, true)
      case Early => (file, false)
      case Late => (content, false)
  }

  /** PEER_NAME: 1 to 32 lowercase letters, digits and hyphens, the first no hyphen. */
  predicate IsPeerName(name: string) {
    && 1 <= |name| <= 32 && name[0] != '-'
    && forall i :: 0 <= i < |name| ==> 'a' <= name[i] <= 'z' || '0' <= name[i] <= '9' || name[i] == '-'
  }

  /** wg0.conf is the rendering of the registry, with the key of the server; or nothing was written yet. */
  predicate InStep(key: KeyFile, conf: Option<Text>, peers: PeersFile) {
    match conf
    case None => peers == NoPeers
    case Some(text) =>
      peers.Registry? && key.Key? && text.Rendered? && text.key == key.key && text.sections == Sections(peers.peers)
  }

  function OnDisk(peers: PeersFile): seq<Peer> {
    if peers.Registry? then peers.peers else []
  }

  /** The registry already says the same to the server. */
  predicate Same(peers: PeersFile, placed: seq<Peer>) {
    peers.Registry? && Sections(peers.peers) == Sections(placed)
  }

  /** No write fails. */
  predicate Smooth(faults: Faults) { faults.key == Fine && faults.conf == Fine && faults.peers == Fine }

  /** The registry can be read: there is none yet, or it is whole, no name and no address twice. */
  predicate Loadable(peers: PeersFile) {
    peers == NoPeers || (peers.Registry? && Unique(peers.peers))
  }

  function KeyAfter(before: KeyFile, generated: string, fault: Fault): KeyFile {
    if before == NoKey && fault != Early then Key(generated) else before
  }

  /** The faults that leave one file behind the other. */
  predicate Tears(faults: Faults) {
    || faults.conf == Late
    || (faults.conf == Fine && faults.peers == Early && faults.undo == Early)
    || (faults.conf == Fine && faults.peers == Late && faults.undo != Early)
  }

  /** One call on the server's files. */
  datatype Call =
    | Ensuring(server: Option<Server>, generated: string, faults: Faults)
    | Adding(to: Server, name: string, publicKey: string, privateKey: string, created: int, tunnelOnly: bool,
        generated: string,
             faults: Faults)
    | Removing(from: Server, name: string, generated: string, faults: Faults)

  datatype Files = Files(key: KeyFile, conf: Option<Text>, peers: PeersFile)

  /** The subnet and the boxes a call puts into the files; None when it ends before it writes. */
  function Asked(before: Files, call: Call): Option<(Server, seq<Peer>)> {
    if !Loadable(before.peers) then None
    else
      var boxes := OnDisk(before.peers);
      match call
      case Ensuring(server, _, _) => if server.None? then None else Some((server.value, boxes))
      case Adding(server, name, publicKey, privateKey, created, tunnelOnly, _, _) =>
        var address := NextAddress(server.subnet, Addresses(boxes));
        if !IsPeerName(name) || name in Names(boxes) || address.None? then None
        else Some((server, boxes + [Peer(name, address.value, publicKey, privateKey, created, tunnelOnly)]))
      case Removing(server, name, _, _) =>
        if name !in Names(boxes) then None else Some((server, Without(boxes, name)))
  }

  /** What a commit leaves: both files say the boxes, moved into the subnet, exactly when no write fails, the key can be
      read and there is room for all; otherwise neither changes, as far as the faults allow. */
  ghost predicate Committed(before: Files, server: Server, members: seq<Peer>, generated: string, faults: Faults,
                            after: Files) {
    && after.key == KeyAfter(before.key, generated, faults.key)
    && if Smooth(faults) && before.key != BadKey && |members| <= server.subnet.size - RESERVED_ADDRESSES then
         && InStep(after.key, after.conf, after.peers) && after.conf.Some? && after.conf.value.server == server
         && SameBoxes(server.subnet, members, OnDisk(after.peers)) && Unique(OnDisk(after.peers))
       else faults.conf != Late && faults.peers != Late && faults.undo != Early ==>
              after.conf == before.conf && after.peers == before.peers
  }

  ghost predicate Next(before: Files, call: Call, after: Files) {
    match Asked(before, call)
    case None => after == before
    case Some((server, members)) => Committed(before, server, members, call.generated, call.faults, after)
  }

  ghost predicate IsRun(files: seq<Files>, calls: seq<Call>) {
    && |files| == |calls| + 1
    && forall i :: 0 <= i < |calls| ==> Next(files[i], calls[i], files[i + 1])
  }

  lemma RunGrows(files: seq<Files>, calls: seq<Call>, i: nat, after: Files)
    requires i < |calls| && IsRun(files, calls[..i]) && Next(files[i], calls[i], after)
    ensures IsRun(files + [after], calls[..i + 1])
  {
    hide Next;
  }

  class TunnelFiles {
    var key: KeyFile
    var conf: Option<Text>
    var peers: PeersFile
    ghost var torn: bool

    ghost predicate Valid()
      reads this
    {
      torn || InStep(key, conf, peers)
    }

    constructor ()
      ensures Valid() && key == NoKey && conf == None && peers == NoPeers && !torn
    {
      key, conf, peers, torn := NoKey, None, NoPeers, false;
    }

    ghost function Now(): Files
      reads this
    {
      Files(key, conf, peers)
    }

    /** `load_or_create_server_key`: a key that is there is never replaced, not even a damaged one. */
    method LoadOrCreateKey(generated: string, fault: Fault) returns (loaded: Option<string>)
      modifies `key
      ensures old(key) != NoKey ==> key == old(key)
      ensures key == KeyAfter(old(key), generated, fault)
      ensures loaded.Some? <==> fault == Fine && old(key) != BadKey
      ensures loaded.Some? ==> key == Key(loaded.value)
    {
      match key
      case BadKey =>
        loaded := None;
      case Key(k) =>
        loaded := if fault == Fine then Some(k) else None;
      case NoKey =>
        key := Write(key, Key(generated), fault).0;
        loaded := if fault == Fine then Some(generated) else None;
    }

    /** Put wg0.conf back as it was. */
    method Undo(previous: Option<Text>, fault: Fault)
      modifies `conf
      ensures conf == if fault == Early then old(conf) else previous
    {
      conf := Write(conf, previous, fault).0;
    }

    /** `_commit`: the configuration first, then the registry, and the configuration back when that fails. */
    method Commit(server: Server, members: seq<Peer>, generated: string, faults: Faults)
      returns (ok: bool, moved: seq<Renumbered>)
      requires Unique(members)
      modifies this
      ensures old(key) != NoKey ==> key == old(key)
      ensures key == KeyAfter(old(key), generated, faults.key)
      // it succeeds exactly when no write fails, the key can be read and there is room for all
      ensures ok <==> Smooth(faults) && old(key) != BadKey && |members| <= server.subnet.size - RESERVED_ADDRESSES
      // success brings both files in step, whatever was there before
      ensures ok ==>
                && FitToSubnet(server.subnet, members) == Some(OnDisk(peers)) && peers.Registry? && key.Key?
                && conf == Some(Render(server, key.key, peers.peers)) && InStep(key, conf, peers) && !torn
                && |members| == |peers.peers| && moved == Renumbering(members, peers.peers)
      ensures ok ==> |members| <= server.subnet.size - RESERVED_ADDRESSES && Unique(peers.peers)
      ensures Committed(old(Now()), server, members, generated, faults, Now())
      // a failed commit changes neither file, when it fails before the rename and the old text can be put back
      ensures !ok && faults.conf != Late && faults.peers != Late && faults.undo != Early ==>
                conf == old(conf) && peers == old(peers)
      // exactly these faults leave one file behind the other
      ensures old(InStep(key, conf, peers)) ==>
                (!InStep(key, conf, peers) <==>
                   && faults.key == Fine && old(key) != BadKey && Tears(faults)
                   && FitToSubnet(server.subnet, members).Some?
                       && !Same(old(peers), FitToSubnet(server.subnet, members).value))
      ensures old(Valid()) ==> Valid()
    {
      ghost var torn0 := torn;
      var loaded := LoadOrCreateKey(generated, faults.key);
      if loaded.None? {
        return false, [];
      }
      FitsExactly(server.subnet, members);
      var placed;
      placed, moved := Fit(server.subnet, members);
      if placed.None? {
        return false, moved;
      }
      ok := WriteBoth(Render(server, loaded.value, placed.value), placed.value, faults);
      torn := if ok then false else torn0 || !InStep(key, conf, peers);
    }

    method WriteBoth(text: Text, placed: seq<Peer>, faults: Faults) returns (ok: bool)
      requires key.Key? && text.Rendered? && text.key == key.key && text.sections == Sections(placed)
      modifies `conf, `peers
      ensures ok <==> faults.conf == Fine && faults.peers == Fine
      ensures ok ==> conf == Some(text) && peers == Registry(placed)
      ensures !ok && faults.conf != Late && faults.peers != Late && faults.undo != Early ==>
                conf == old(conf) && peers == old(peers)
      ensures old(InStep(key, conf, peers)) ==> (!InStep(key, conf, peers) <==> Tears(faults) && !Same(old(peers), placed))
    {
      var previous := conf;
      var written := Write(conf, Some(text), faults.conf);
      conf, ok := written.0, written.1;
      if !ok {
        return;
      }
      var saved := Write(peers, Registry(placed), faults.peers);
      peers, ok := saved.0, saved.1;
      if !ok {
        Undo(previous, faults.undo);
      }
    }

    /** `load_peers`: no file is an empty registry, a damaged one an error. */
    function Load(): (loaded: Option<seq<Peer>>)
      reads `peers
      ensures loaded.Some? <==> Loadable(peers)
      ensures loaded.Some? ==> loaded.value == OnDisk(peers) && Unique(loaded.value)
    {
      if peers.Damaged? || !Unique(OnDisk(peers)) then None else Some(OnDisk(peers))
    }

    /** `ensure_server`, at every start of core. */
    method Ensure(server: Option<Server>, generated: string, faults: Faults) returns (ok: bool, moved: seq<Renumbered>)
      requires Valid()
      modifies this
      ensures Valid() && (old(key) != NoKey ==> key == old(key))
      ensures Next(old(Now()), Ensuring(server, generated, faults), Now())
      ensures old(InStep(key, conf, peers)) && !Tears(faults) ==> InStep(key, conf, peers)
      ensures server.None? ==> key == old(key) && conf == old(conf) && peers == old(peers)
      ensures ok <==> server.None? || (Loadable(old(peers)) && Smooth(faults) && old(key) != BadKey
                                       && |old(OnDisk(peers))| <= server.value.subnet.size - RESERVED_ADDRESSES)
      ensures ok && server.Some? ==>
                && InStep(key, conf, peers)
                && SameBoxes(server.value.subnet, old(OnDisk(peers)), OnDisk(peers)) && Unique(OnDisk(peers))
                && moved == Renumbering(old(OnDisk(peers)), OnDisk(peers))
      ensures !ok && faults.conf != Late && faults.peers != Late && faults.undo != Early ==>
                conf == old(conf) && peers == old(peers)
    {
      ok, moved := true, [];
      if server.Some? {
        var loaded := Load();
        if loaded.None? {
          return false, [];
        }
        FitsExactly(server.value.subnet, loaded.value);
        ok, moved := Commit(server.value, loaded.value, generated, faults);
      }
    }

    /** `add_peer`. The peer it returns is the one in the registry, whoever else is renumbered by the same call. */
    method AddPeer(server: Server, name: string, publicKey: string, privateKey: string, created: int, tunnelOnly: bool,
                   generated: string, faults: Faults) returns (outcome: Outcome)
      requires Valid()
      modifies this
      ensures Valid() && (old(key) != NoKey ==> key == old(key))
      ensures Next(old(Now()), Adding(server, name, publicKey, privateKey, created, tunnelOnly, generated, faults), Now())
      ensures old(InStep(key, conf, peers)) && !Tears(faults) ==> InStep(key, conf, peers)
      ensures outcome == BadName <==> !IsPeerName(name)
      ensures outcome == Exists <==> IsPeerName(name) && Loadable(old(peers)) && name in Names(old(OnDisk(peers)))
      ensures outcome == Full <==>
                IsPeerName(name) && Loadable(old(peers)) && name !in Names(old(OnDisk(peers)))
                && Room(server.subnet) <= Addresses(old(OnDisk(peers)))
      ensures outcome.Done? <==>
                IsPeerName(name) && Loadable(old(peers)) && name !in Names(old(OnDisk(peers))) && Smooth(faults)
                && old(key) != BadKey && |old(OnDisk(peers))| < server.subnet.size - RESERVED_ADDRESSES
      ensures outcome != NotFound
      ensures outcome.Done? ==>
                var before, after := old(OnDisk(peers)), OnDisk(peers);
                && InStep(key, conf, peers) && Unique(after) && |after| == |before| + 1
                && SameBoxes(server.subnet, before, after[..|before|])
                && after[|before|] == outcome.peer && outcome.peer.name == name && outcome.peer.address in Room(server.subnet)
                && outcome.peer == Peer(name, outcome.peer.address, publicKey, privateKey, created, tunnelOnly)
                && outcome.peer.address !in Addresses(before)
                && forall a :: a in Room(server.subnet) && a < outcome.peer.address ==> a in Addresses(before)
      ensures !outcome.Done? && faults.conf != Late && faults.peers != Late && faults.undo != Early ==>
                conf == old(conf) && peers == old(peers)
    {
      if !IsPeerName(name) {
        return BadName;
      }
      var loaded := Load();
      if loaded.None? {
        return Failed;
      }
      var members := loaded.value;
      if name in Names(members) {
        return Exists;
      }
      var address := LowestFree(server.subnet, members);
      NextAddressIsLowest(server.subnet, Addresses(members));
      if address.None? {
        FullIsLong(server.subnet, members);
        return Full;
      }
      var peer := Peer(name, address.value, publicKey, privateKey, created, tunnelOnly);
      UniqueWith(members, peer);
      FitsExactly(server.subnet, members + [peer]);
      var ok, _ := Commit(server, members + [peer], generated, faults);
      if ok {
        NewPeerStays(server.subnet, members, peer, OnDisk(peers));
      }
      outcome := if ok then Done(peer) else Failed;
    }

    /** `remove_peer`. */
    method RemovePeer(server: Server, name: string, generated: string, faults: Faults) returns (outcome: Outcome)
      requires Valid()
      modifies this
      ensures Valid() && (old(key) != NoKey ==> key == old(key))
      ensures Next(old(Now()), Removing(server, name, generated, faults), Now())
      ensures old(InStep(key, conf, peers)) && !Tears(faults) ==> InStep(key, conf, peers)
      ensures outcome == NotFound <==> Loadable(old(peers)) && name !in Names(old(OnDisk(peers)))
      ensures outcome.Done? <==>
                Loadable(old(peers)) && name in Names(old(OnDisk(peers))) && Smooth(faults) && old(key) != BadKey
                && |Without(old(OnDisk(peers)), name)| <= server.subnet.size - RESERVED_ADDRESSES
      ensures outcome.Done? ==>
                && InStep(key, conf, peers) && Unique(OnDisk(peers))
                && outcome.peer in old(OnDisk(peers)) && outcome.peer.name == name
                && SameBoxes(server.subnet, Without(old(OnDisk(peers)), name), OnDisk(peers))
      ensures outcome in {NotFound, Failed} || outcome.Done?
      ensures !outcome.Done? && faults.conf != Late && faults.peers != Late && faults.undo != Early ==>
                conf == old(conf) && peers == old(peers)
    {
      var loaded := Load();
      if loaded.None? {
        return Failed;
      }
      var removed := Find(loaded.value, name);
      if removed.None? {
        return NotFound;
      }
      WithoutUnique(loaded.value, name);
      FitsExactly(server.subnet, Without(loaded.value, name));
      var ok, _ := Commit(server, Without(loaded.value, name), generated, faults);
      outcome := if ok then Done(removed.value) else Failed;
    }

    /** Any run of the three, with any faults: torn or in step, and the key of the server stays what it was. */
    method Live(calls: seq<Call>) returns (ghost files: seq<Files>)
      requires Valid()
      modifies this
      ensures Valid() && (old(key) != NoKey ==> key == old(key))
      ensures IsRun(files, calls) && |files| == |calls| + 1 && files[0] == old(Now()) && files[|calls|] == Now()
      ensures old(InStep(key, conf, peers)) && (forall c :: c in calls ==> !Tears(c.faults)) ==> InStep(key, conf, peers)
    {
      hide Next, InStep, Tears;
      files := [Now()];
      for i := 0 to |calls|
        invariant Valid() && (old(key) != NoKey ==> key == old(key))
        invariant IsRun(files, calls[..i]) && |files| == i + 1 && files[0] == old(Now()) && files[i] == Now()
        invariant old(InStep(key, conf, peers)) && (forall c :: c in calls ==> !Tears(c.faults)) ==> InStep(key, conf, peers)
      {
        assert calls[i] in calls;
        match calls[i] {
          case Ensuring(server, generated, faults) =>
            var _, _ := Ensure(server, generated, faults);
          case Adding(server, name, publicKey, privateKey, created, tunnelOnly, generated, faults) =>
            var _ := AddPeer(server, name, publicKey, privateKey, created, tunnelOnly, generated, faults);
          case Removing(server, name, generated, faults) =>
            var _ := RemovePeer(server, name, generated, faults);
        }
        RunGrows(files, calls, i, Now());
        files := files + [Now()];
      }
      assert calls[..|calls|] == calls;
    }
  }

  function Find(peers: seq<Peer>, name: string): (found: Option<Peer>)
    ensures found.Some? ==> found.value in peers && found.value.name == name
    ensures found.None? ==> forall p :: p in peers ==> p.name != name
  {
    if peers == [] then None else if peers[0].name == name then Some(peers[0]) else Find(peers[1..], name)
  }

  function Without(peers: seq<Peer>, name: string): (rest: seq<Peer>)
    ensures forall p :: p in rest <==> p in peers && p.name != name
  {
    if peers == [] then [] else (if peers[0].name == name then [] else [peers[0]]) + Without(peers[1..], name)
  }

  predicate Differs(peer: Peer, other: Peer) {
    other.name != peer.name && other.address != peer.address
  }

  lemma UniqueTail(peers: seq<Peer>)
    requires Unique(peers) && peers != []
    ensures Unique(peers[1..]) && forall p :: p in peers[1..] ==> Differs(peers[0], p)
  {
  }

  lemma UniqueFront(peer: Peer, rest: seq<Peer>)
    requires Unique(rest) && forall p :: p in rest ==> Differs(peer, p)
    ensures Unique([peer] + rest)
  {
    var peers := [peer] + rest;
    forall i, j | 0 <= i < j < |peers| ensures peers[i].name != peers[j].name && peers[i].address != peers[j].address {
      assert peers[j] == rest[j - 1] && rest[j - 1] in rest;
    }
  }

  lemma {:induction false} WithoutUnique(peers: seq<Peer>, name: string)
    requires Unique(peers)
    ensures Unique(Without(peers, name))
  {
    if peers != [] {
      hide Unique, Differs;
      UniqueTail(peers);
      WithoutUnique(peers[1..], name);
      UniqueFront(peers[0], Without(peers[1..], name));
      assert [] + Without(peers[1..], name) == Without(peers[1..], name);
    }
  }

  lemma UniqueWith(peers: seq<Peer>, peer: Peer)
    requires Unique(peers) && peer.name !in Names(peers) && peer.address !in Addresses(peers)
    ensures Unique(peers + [peer])
  {
    forall i | 0 <= i < |peers| ensures peers[i].name != peer.name && peers[i].address != peer.address {
      assert peers[i] in peers;
    }
  }

  /** Its address fits, so it is kept, and nobody who moves can take it. */
  lemma NewPeerStays(subnet: Subnet, members: seq<Peer>, peer: Peer, after: seq<Peer>)
    requires Fits(subnet, peer.address) && SameBoxes(subnet, members + [peer], after)
    ensures |after| == |members| + 1 && after[|members|] == peer && SameBoxes(subnet, members, after[..|members|])
  {
    var all := members + [peer];
    assert all[|members|] == peer;
    forall i | 0 <= i < |members| ensures all[i] == members[i] && after[..|members|][i] == after[i] {
    }
  }
}
