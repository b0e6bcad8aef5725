/** The server name of a TLS ClientHello and its cut across two records (core/vibedpn/relay.py; section 4.1.2 and
    section 5.1 of RFC 8446, section 3 of RFC 6066). */
module ClientHellos {
  import opened Options
  import opened Octets

  const RECORD_HEADER := 5
  const HANDSHAKE_RECORD: byte := 0x16
  const CLIENT_HELLO: byte := 0x01
  const HOST_NAME_TYPE: byte := 0x00
  const RANDOM_BYTES := 32

  /** Refused stands for RelayError, OutOfRange for the IndexError of a byte behind the end. */
  datatype Named = Named(host: string, at: nat) | Refused | OutOfRange

  // ---- reading -------------------------------------------------------------------------------------

  /** Past a field with a one-byte length. */
  function Past(data: bytes, at: nat): nat {
    if at < |data| then at + 1 + data[at] else at
  }

  /** `decode("ascii", errors="replace").lower()`. */
  function HostChar(b: byte): char {
    if b >= 128 then '\U{FFFD}' else if 65 <= b <= 90 then (b + 32) as char else b as char
  }

  function Host(name: bytes): (host: string)
    ensures |host| == |name|
  {
    seq(|name|, i requires 0 <= i < |name| => HostChar(name[i]))
  }

  function Clamp(data: bytes, end: nat): nat { if end < |data| then end else |data| }

  function ScanEntries(data: bytes, entry: nat, stop: nat): Named
    decreases |data| - entry
  {
    if entry + 3 > stop then Refused
    else if entry >= |data| then OutOfRange
    else
      var length := U16(data, entry + 1);
      var start := entry + 3;
      if length.None? then Refused
      else if data[entry] == HOST_NAME_TYPE then Named(Host(data[start..Clamp(data, start + length.value)]), start)
      else ScanEntries(data, start + length.value, stop)
  }

  function ScanExtensions(data: bytes, at: nat, end: nat): Named
    decreases |data| - at
  {
    if at + 4 > end || at + 4 > |data| then Refused
    else
      var kind, size := U16(data, at).value, U16(data, at + 2).value;
      if kind != 0 then ScanExtensions(data, at + 4 + size, end)
      else ScanEntries(data, at + 4 + 2, at + 4 + size)
  }

  function NameIn(hello: bytes): Named {
    if |hello| < RECORD_HEADER || hello[0] != HANDSHAKE_RECORD then Refused
    else if |hello| <= RECORD_HEADER || hello[RECORD_HEADER] != CLIENT_HELLO then Refused
    else
      var ciphers := Past(hello, RECORD_HEADER + 4 + 2 + RANDOM_BYTES);
      var cipherBytes := U16(hello, ciphers);
      if cipherBytes.None? then Refused
      else
        var extensions := Past(hello, ciphers + 2 + cipherBytes.value);
        var extensionBytes := U16(hello, extensions);
        if extensionBytes.None? then Refused
        else ScanExtensions(hello, extensions + 2, extensions + 2 + extensionBytes.value)
  }

  /** The entries of a server name list, from `at` on. */
  method NameInList(hello: bytes, at: nat, size: nat) returns (found: Named)
    ensures found == ScanEntries(hello, at + 2, at + size)
  {
    var entry := at + 2;
    while entry + 3 <= at + size
      invariant ScanEntries(hello, entry, at + size) == ScanEntries(hello, at + 2, at + size)
      decreases |hello| - entry
    {
      if entry >= |hello| {
        return OutOfRange;
      }
      var nameType, length := hello[entry], U16(hello, entry + 1);
      if length.None? {
        return Refused;
      }
      var start := entry + 3;
      if nameType == HOST_NAME_TYPE {
        return Named(Host(hello[start..Clamp(hello, start + length.value)]), start);
      }
      entry := start + length.value;
    }
    found := Refused;
  }

  /** `server_name`. */
  method ServerName(hello: bytes) returns (found: Named)
    ensures found == NameIn(hello)
  {
    if |hello| < RECORD_HEADER || hello[0] != HANDSHAKE_RECORD {
      return Refused;
    }
    var at: nat := RECORD_HEADER;
    if |hello| <= at || hello[at] != CLIENT_HELLO {
      return Refused;
    }
    at := at + 4 + 2 + RANDOM_BYTES;
    at := Past(hello, at);
    var length := U16(hello, at);
    if length.None? {
      return Refused;
    }
    at := at + 2 + length.value;
    at := Past(hello, at);
    length := U16(hello, at);
    if length.None? {
      return Refused;
    }
    var end := at + 2 + length.value;
    at := at + 2;
    ghost var first := at;
    while at + 4 <= end && at + 4 <= |hello|
      invariant ScanExtensions(hello, at, end) == ScanExtensions(hello, first, end)
      decreases |hello| - at
    {
      var kind, size := U16(hello, at).value, U16(hello, at + 2).value;
      at := at + 4;
      if kind == 0 {
        found := NameInList(hello, at, size);
        return;
      }
      at := at + size;
    }
    found := Refused;
  }

  // ---- writing -------------------------------------------------------------------------------------

  datatype Entry = Entry(nameType: byte, name: bytes)

  datatype Extension = ServerNames(entries: seq<Entry>) | Other(kind: nat, data: bytes)

  /** A ClientHello in one record; a hello before TLS 1.3 may have no extensions at all. */
  datatype Hello = Hello(recordVersion: bytes, version: bytes, random: bytes, session: bytes, ciphers: bytes,
                         compression: bytes, extensions: Option<seq<Extension>>)

  function B3(n: nat): bytes
    requires n < 0x1_0000
  {
    [0] + B2(n)
  }

  predicate FitsEntry(e: Entry) { |e.name| < 0x1_0000 }

  predicate FitEntries(entries: seq<Entry>) {
    entries == [] || (FitsEntry(entries[0]) && FitEntries(entries[1..]))
  }

  function EncodeEntry(e: Entry): bytes
    requires FitsEntry(e)
  {
    [e.nameType] + B2(|e.name|) + e.name
  }

  function EncodeEntries(entries: seq<Entry>): bytes
    requires FitEntries(entries)
  {
    if entries == [] then [] else EncodeEntry(entries[0]) + EncodeEntries(entries[1..])
  }

  predicate FitsExtension(x: Extension) {
    match x
    case ServerNames(entries) =>
      FitEntries(entries) && 2 + |EncodeEntries(entries)| < 0x1_0000
    case Other(kind, data) => 0 < kind < 0x1_0000 && |data| < 0x1_0000
  }

  predicate FitExtensions(extensions: seq<Extension>) {
    extensions == [] || (FitsExtension(extensions[0]) && FitExtensions(extensions[1..]))
  }

  function Data(x: Extension): (data: bytes)
    requires FitsExtension(x)
    ensures |data| < 0x1_0000
  {
    match x
    case ServerNames(entries) => B2(|EncodeEntries(entries)|) + EncodeEntries(entries)
    case Other(_, data) => data
  }

  function EncodeExtension(x: Extension): bytes
    requires FitsExtension(x)
  {
    B2(if x.Other? then x.kind else 0) + B2(|Data(x)|) + Data(x)
  }

  function EncodeExtensions(extensions: seq<Extension>): bytes
    requires FitExtensions(extensions)
  {
    if extensions == [] then [] else EncodeExtension(extensions[0]) + EncodeExtensions(extensions[1..])
  }

  predicate FitsFields(h: Hello) {
    && |h.version| == 2 && |h.random| == RANDOM_BYTES
    && |h.session| < 256 && |h.compression| < 256 && |h.ciphers| < 0x1_0000
    && (h.extensions.Some? ==>
          && FitExtensions(h.extensions.value)
          && |EncodeExtensions(h.extensions.value)| < 0x1_0000)
  }

  /** What RFC 8446 lets a client send in one record; the lengths fit their fields. */
  predicate WellFormed(h: Hello) {
    FitsFields(h) && |h.recordVersion| == 2 && |Body(h)| + 4 < 0x1_0000
  }

  function Prefix(h: Hello): bytes
    requires FitsFields(h)
  {
    h.version + h.random + [|h.session|] + h.session + B2(|h.ciphers|) + h.ciphers + [|h.compression|] + h.compression
  }

  function Body(h: Hello): bytes
    requires FitsFields(h)
  {
    Prefix(h) + if h.extensions.None? then []
                else B2(|EncodeExtensions(h.extensions.value)|) + EncodeExtensions(h.extensions.value)
  }

  /** Record header, handshake header, body. */
  function Encode(h: Hello): bytes
    requires WellFormed(h)
  {
    Header(h) + Body(h)
  }

  function Header(h: Hello): bytes
    requires WellFormed(h)
  {
    [HANDSHAKE_RECORD] + h.recordVersion + B2(4 + |Body(h)|) + [CLIENT_HELLO] + B3(|Body(h)|)
  }

  // ---- what the parser must find -------------------------------------------------------------------

  /** The first host_name of a list, and where its bytes are. */
  function HostOf(entries: seq<Entry>, at: nat): Named
    requires FitEntries(entries)
  {
    if entries == [] then Refused
    else if entries[0].nameType == HOST_NAME_TYPE then Named(Host(entries[0].name), at + 3)
    else HostOf(entries[1..], at + |EncodeEntry(entries[0])|)
  }

  /** The first server_name extension decides. */
  function HostIn(extensions: seq<Extension>, at: nat): Named
    requires FitExtensions(extensions)
  {
    if extensions == [] then Refused
    else if extensions[0].ServerNames? then HostOf(extensions[0].entries, at + 6)
    else HostIn(extensions[1..], at + |EncodeExtension(extensions[0])|)
  }

  // ---- the parser inverts the encoder --------------------------------------------------------------

  predicate Holds(data: bytes, at: nat, part: bytes) {
    at + |part| <= |data| && forall i {:trigger part[i]} :: 0 <= i < |part| ==> data[at + i] == part[i]
  }

  lemma HoldsBoth(data: bytes, at: nat, x: bytes, y: bytes)
    requires Holds(data, at, x + y)
    ensures Holds(data, at, x) && Holds(data, at + |x|, y)
  {
    forall i | 0 <= i < |x| ensures data[at + i] == x[i] {
      assert (x + y)[i] == x[i];
    }
    forall i | 0 <= i < |y| ensures data[at + |x| + i] == y[i] {
      assert (x + y)[|x| + i] == y[i];
    }
  }

  lemma HoldsByte(data: bytes, at: nat, b: byte)
    requires Holds(data, at, [b])
    ensures data[at] == b
  {
    assert [b][0] == b;
  }

  lemma HoldsNumber(data: bytes, at: nat, n: nat)
    requires n < 0x1_0000 && Holds(data, at, B2(n))
    ensures U16(data, at) == Some(n)
  {
    assert data[at] == B2(n)[0] && data[at + 1] == B2(n)[1];
  }

  lemma HoldsAll(data: bytes, at: nat, part: bytes)
    requires Holds(data, at, part)
    ensures data[at..at + |part|] == part
  {
    forall i | 0 <= i < |part| ensures data[at..at + |part|][i] == part[i] {
    }
  }

  lemma HoldsEntry(data: bytes, at: nat, e: Entry)
    requires FitsEntry(e) && Holds(data, at, EncodeEntry(e))
    ensures data[at] == e.nameType && U16(data, at + 1) == Some(|e.name|)
    ensures at + |EncodeEntry(e)| <= |data| && data[at + 3..at + 3 + |e.name|] == e.name
  {
    HoldsBoth(data, at, [e.nameType] + B2(|e.name|), e.name);
    HoldsBoth(data, at, [e.nameType], B2(|e.name|));
    HoldsByte(data, at, e.nameType);
    HoldsNumber(data, at + 1, |e.name|);
    HoldsAll(data, at + 3, e.name);
  }

  lemma {:induction false} ScansEntries(data: bytes, at: nat, entries: seq<Entry>)
    requires FitEntries(entries)
    requires Holds(data, at, EncodeEntries(entries))
    ensures ScanEntries(data, at, at + |EncodeEntries(entries)|) == HostOf(entries, at)
    decreases entries
  {
    if entries != [] {
      var e := entries[0];
      HoldsBoth(data, at, EncodeEntry(e), EncodeEntries(entries[1..]));
      HoldsEntry(data, at, e);
      ScansEntries(data, at + |EncodeEntry(e)|, entries[1..]);
    }
  }

  lemma HoldsExtension(data: bytes, at: nat, x: Extension)
    requires FitsExtension(x) && Holds(data, at, EncodeExtension(x))
    ensures U16(data, at) == Some(if x.Other? then x.kind else 0) && U16(data, at + 2) == Some(|Data(x)|)
    ensures Holds(data, at + 4, Data(x))
  {
    var kind := if x.Other? then x.kind else 0;
    HoldsBoth(data, at, B2(kind) + B2(|Data(x)|), Data(x));
    HoldsBoth(data, at, B2(kind), B2(|Data(x)|));
    HoldsNumber(data, at, kind);
    HoldsNumber(data, at + 2, |Data(x)|);
  }

  lemma ScanStep(data: bytes, at: nat, end: nat, kind: nat, size: nat)
    requires at + 4 <= end && U16(data, at) == Some(kind) && U16(data, at + 2) == Some(size)
    ensures ScanExtensions(data, at, end) == if kind != 0 then ScanExtensions(data, at + 4 + size, end)
                                             else ScanEntries(data, at + 6, at + 4 + size)
  {
  }

  /** The first server_name extension ends the scan. */
  lemma ScansServerNames(data: bytes, at: nat, x: Extension, end: nat)
    requires FitsExtension(x) && x.ServerNames? && Holds(data, at, EncodeExtension(x)) && at + 4 <= end
    ensures ScanExtensions(data, at, end) == HostOf(x.entries, at + 6)
  {
    var encoded := EncodeEntries(x.entries);
    HoldsExtension(data, at, x);
    HoldsBoth(data, at + 4, B2(|encoded|), encoded);
    ScansEntries(data, at + 6, x.entries);
    assert at + 4 + |Data(x)| == at + 6 + |encoded|;
    ScanStep(data, at, end, 0, |Data(x)|);
  }

  lemma ScansOther(data: bytes, at: nat, x: Extension, end: nat)
    requires FitsExtension(x) && x.Other? && Holds(data, at, EncodeExtension(x)) && at + 4 <= end
    ensures ScanExtensions(data, at, end) == ScanExtensions(data, at + |EncodeExtension(x)|, end)
  {
    HoldsExtension(data, at, x);
    ScanStep(data, at, end, x.kind, |Data(x)|);
  }

  /** One extension, when the scan is right about those behind it. */
  lemma ScansFirst(data: bytes, at: nat, extensions: seq<Extension>, end: nat)
    requires extensions != [] && FitExtensions(extensions)
    requires Holds(data, at, EncodeExtension(extensions[0])) && at + 4 <= end
    requires var next := at + |EncodeExtension(extensions[0])|; ScanExtensions(data, next, end) == HostIn(extensions[1..], next)
    ensures ScanExtensions(data, at, end) == HostIn(extensions, at)
  {
    if extensions[0].ServerNames? {
      ScansServerNames(data, at, extensions[0], end);
    } else {
      ScansOther(data, at, extensions[0], end);
    }
  }

  lemma HoldsFirst(data: bytes, at: nat, extensions: seq<Extension>)
    requires FitExtensions(extensions) && extensions != []
    requires Holds(data, at, EncodeExtensions(extensions))
    ensures FitsExtension(extensions[0]) && Holds(data, at, EncodeExtension(extensions[0]))
    ensures Holds(data, at + |EncodeExtension(extensions[0])|, EncodeExtensions(extensions[1..]))
    ensures |EncodeExtensions(extensions)| == |EncodeExtension(extensions[0])| + |EncodeExtensions(extensions[1..])|
  {
    var first, rest := EncodeExtension(extensions[0]), EncodeExtensions(extensions[1..]);
    assert EncodeExtensions(extensions) == first + rest;
    HoldsBoth(data, at, first, rest);
  }

  lemma {:induction false} ScansExtensions(data: bytes, at: nat, extensions: seq<Extension>, end: nat)
    requires FitExtensions(extensions)
    requires Holds(data, at, EncodeExtensions(extensions)) && at + |EncodeExtensions(extensions)| == end == |data|
    ensures ScanExtensions(data, at, end) == HostIn(extensions, at)
    decreases extensions
  {
    if extensions != [] {
      HoldsFirst(data, at, extensions);
      hide Holds, EncodeExtension, EncodeExtensions, ScanExtensions, HostIn, FitsExtension;
      ScansExtensions(data, at + |EncodeExtension(extensions[0])|, extensions[1..], end);
      ScansFirst(data, at, extensions, end);
    }
  }

  lemma HoldsHeader(h: Hello)
    requires WellFormed(h)
    ensures |Header(h)| == 9 && Encode(h)[0] == HANDSHAKE_RECORD && Encode(h)[5] == CLIENT_HELLO
    ensures Holds(Encode(h), 9, Body(h)) && |Encode(h)| == 9 + |Body(h)|
  {
    var header := Header(h);
    assert header[0] == HANDSHAKE_RECORD && header[5] == CLIENT_HELLO;
  }

  /** The fields before the extensions are passed whatever they hold. */
  lemma PassesFields(data: bytes, at: nat, h: Hello)
    requires FitsFields(h) && Holds(data, at, Prefix(h))
    ensures var ciphers := at + 35 + |h.session|;
            && Past(data, at + 34) == ciphers && U16(data, ciphers) == Some(|h.ciphers|)
            && Past(data, ciphers + 2 + |h.ciphers|) == at + |Prefix(h)|
  {
    var head := h.version + h.random;
    var session, ciphers := at + 34, at + 35 + |h.session|;
    HoldsBoth(data, at, head + [|h.session|] + h.session + B2(|h.ciphers|) + h.ciphers + [|h.compression|], h.compression);
    HoldsBoth(data, at, head + [|h.session|] + h.session + B2(|h.ciphers|) + h.ciphers, [|h.compression|]);
    HoldsBoth(data, at, head + [|h.session|] + h.session + B2(|h.ciphers|), h.ciphers);
    HoldsBoth(data, at, head + [|h.session|] + h.session, B2(|h.ciphers|));
    HoldsBoth(data, at, head + [|h.session|], h.session);
    HoldsBoth(data, at, head, [|h.session|]);
    HoldsByte(data, session, |h.session|);
    HoldsNumber(data, ciphers, |h.ciphers|);
    HoldsByte(data, ciphers + 2 + |h.ciphers|, |h.compression|);
  }

  lemma NameStep(data: bytes, ciphers: nat, cipherBytes: nat, extensions: nat, end: nat)
    requires |data| > 5 && data[0] == HANDSHAKE_RECORD && data[5] == CLIENT_HELLO
    requires Past(data, 43) == ciphers && U16(data, ciphers) == Some(cipherBytes)
    requires Past(data, ciphers + 2 + cipherBytes) == extensions
    ensures U16(data, extensions).None? ==> NameIn(data) == Refused
    ensures extensions + 2 <= end && U16(data, extensions) == Some(end - extensions - 2) ==>
              NameIn(data) == ScanExtensions(data, extensions + 2, end)
  {
  }

  lemma HoldsBody(h: Hello)
    requires WellFormed(h)
    ensures Holds(Encode(h), 9, Prefix(h))
    ensures h.extensions.None? ==> |Encode(h)| == 9 + |Prefix(h)|
    ensures h.extensions.Some? ==>
              var encoded := EncodeExtensions(h.extensions.value);
              Holds(Encode(h), 9 + |Prefix(h)|, B2(|encoded|) + encoded) && |Encode(h)| == 11 + |Prefix(h)| + |encoded|
  {
    HoldsHeader(h);
    if h.extensions.None? {
      assert Prefix(h) + [] == Prefix(h);
    } else {
      var encoded := EncodeExtensions(h.extensions.value);
      HoldsBoth(Encode(h), 9, Prefix(h), B2(|encoded|) + encoded);
    }
  }

  lemma ScansBlock(data: bytes, at: nat, extensions: seq<Extension>)
    requires FitExtensions(extensions)
    requires |EncodeExtensions(extensions)| < 0x1_0000
    requires Holds(data, at, B2(|EncodeExtensions(extensions)|) + EncodeExtensions(extensions))
    requires at + 2 + |EncodeExtensions(extensions)| == |data|
    ensures U16(data, at) == Some(|data| - at - 2) && ScanExtensions(data, at + 2, |data|) == HostIn(extensions, at + 2)
  {
    hide *;
    var encoded := EncodeExtensions(extensions);
    HoldsBoth(data, at, B2(|encoded|), encoded);
    HoldsNumber(data, at, |encoded|);
    ScansExtensions(data, at + 2, extensions, |data|);
  }

  /** A record that carries a hello. */
  predicate Carries(data: bytes, h: Hello)
    requires FitsFields(h)
  {
    && |data| > 9 && data[0] == HANDSHAKE_RECORD && data[5] == CLIENT_HELLO
    && Holds(data, 9, Prefix(h))
    && (h.extensions.None? ==> |data| == 9 + |Prefix(h)|)
    && (h.extensions.Some? ==>
          var encoded := EncodeExtensions(h.extensions.value);
          Holds(data, 9 + |Prefix(h)|, B2(|encoded|) + encoded) && |data| == 11 + |Prefix(h)| + |encoded|)
  }

  lemma ReadsFields(data: bytes, h: Hello, at: nat, end: nat)
    requires FitsFields(h) && Carries(data, h) && at == 9 + |Prefix(h)|
    ensures U16(data, at).None? ==> NameIn(data) == Refused
    ensures at + 2 <= end && U16(data, at) == Some(end - at - 2) ==> NameIn(data) == ScanExtensions(data, at + 2, end)
  {
    PassesFields(data, 9, h);
    NameStep(data, 44 + |h.session|, |h.ciphers|, at, end);
  }

  /** The encoder's record carries the hello; the parser asks for no more than that. */
  lemma EncodingCarries(h: Hello)
    requires WellFormed(h)
    ensures FitsFields(h) && Carries(Encode(h), h)
  {
    HoldsHeader(h);
    HoldsBody(h);
  }

  /** The main result: in every record that carries a well-formed ClientHello the parser finds the lower-cased name
      of its first server_name extension at its exact place, and refuses one that names no host. */
  lemma ParserInvertsEncoder(data: bytes, h: Hello, at: nat)
    requires FitsFields(h) && Carries(data, h) && at == 9 + |Prefix(h)|
    ensures NameIn(data) == if h.extensions.None? then Refused else HostIn(h.extensions.value, at + 2)
  {
    ReadsFields(data, h, at, |data|);
    if h.extensions.Some? {
      ScansBlock(data, at, h.extensions.value);
    }
  }
}
