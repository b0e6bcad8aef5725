/** The cut of a ClientHello across two TLS records (core/vibedpn/relay.py, `split_hello`, `Relay.serves` and the cut
    in `Relay.handle`; section 5.1 of RFC 8446). */
module Relays {
  import opened Options
  import opened Octets
  import opened ClientHellos

  const ZONE := "mysterium.network"
  const MAX_RECORD := 0xFFFF

  /** A record as a server reads it. */
  datatype Record = Record(kind: byte, version: bytes, payload: bytes)

  function Framed(version: bytes, part: bytes): bytes
    requires |part| <= MAX_RECORD
  {
    [HANDSHAKE_RECORD] + version + B2(|part|) + part
  }

  function Version(hello: bytes): bytes {
    if |hello| < 1 then [] else hello[1..if |hello| < 3 then |hello| else 3]
  }

  function Payload(hello: bytes): bytes {
    if |hello| < RECORD_HEADER then [] else hello[RECORD_HEADER..]
  }

  /** `split_hello`; None when the cut is outside the ClientHello. */
  function SplitHello(hello: bytes, at: int): Option<bytes>
    requires |Payload(hello)| <= MAX_RECORD
  {
    var payload, cut := Payload(hello), at - RECORD_HEADER;
    if !(0 < cut < |payload|) then None
    else Some(Framed(Version(hello), payload[..cut]) + Framed(Version(hello), payload[cut..]))
  }

  /** The records of a stream; None when it ends inside one. */
  function Records(stream: bytes): Option<seq<Record>> {
    if stream == [] then Some([])
    else if |stream| < RECORD_HEADER then None
    else
      var size := U16(stream, 3).value;
      if RECORD_HEADER + size > |stream| then None
      else match Records(stream[RECORD_HEADER + size..])
        case None => None
        case Some(rest) => Some([Record(stream[0], stream[1..3], stream[RECORD_HEADER..RECORD_HEADER + size])] + rest)
  }

  lemma ReadsFramed(version: bytes, part: bytes, rest: bytes)
    requires |version| == 2 && |part| <= MAX_RECORD
    ensures Records(Framed(version, part) + rest) == match Records(rest)
              case None => None
              case Some(behind) => Some([Record(HANDSHAKE_RECORD, version, part)] + behind)
  {
    var stream := Framed(version, part) + rest;
    var b := B2(|part|);
    assert stream[3] == b[0] && stream[4] == b[1];
    assert stream[1..3] == version;
    assert stream[5..5 + |part|] == part;
    assert stream[5 + |part|..] == rest;
  }

  lemma TwoRecords(version: bytes, first: bytes, second: bytes)
    requires |version| == 2 && |first| <= MAX_RECORD && |second| <= MAX_RECORD
    ensures Records(Framed(version, first) + Framed(version, second))
         == Some([Record(HANDSHAKE_RECORD, version, first), Record(HANDSHAKE_RECORD, version, second)])
  {
    assert Framed(version, second) + [] == Framed(version, second);
    ReadsFramed(version, second, []);
    ReadsFramed(version, first, Framed(version, second));
    var one, two := Record(HANDSHAKE_RECORD, version, first), Record(HANDSHAKE_RECORD, version, second);
    assert [one] + ([two] + []) == [one, two] && Records([]) == Some([]);
  }

  /** What a server reads is one ClientHello in two records: both say something, with the version of the one that
      came in, and together they carry its bytes. */
  lemma SplitKeepsTheHello(hello: bytes, at: int)
    requires RECORD_HEADER <= |hello| <= RECORD_HEADER + MAX_RECORD
    ensures SplitHello(hello, at).Some? <==> RECORD_HEADER < at < |hello|
    ensures SplitHello(hello, at).Some? ==>
              var first, second := hello[RECORD_HEADER..at], hello[at..];
              && Records(SplitHello(hello, at).value)
                 == Some([Record(HANDSHAKE_RECORD, hello[1..3], first), Record(HANDSHAKE_RECORD, hello[1..3], second)])
              && first != [] && second != [] && first + second == Payload(hello)
  {
    if RECORD_HEADER < at < |hello| {
      PartsOfPayload(hello, at);
      TwoRecords(hello[1..3], hello[RECORD_HEADER..at], hello[at..]);
    }
  }

  lemma PartsOfPayload(hello: bytes, at: int)
    requires RECORD_HEADER < at < |hello|
    ensures Payload(hello)[..at - RECORD_HEADER] == hello[RECORD_HEADER..at]
    ensures Payload(hello)[at - RECORD_HEADER..] == hello[at..]
    ensures hello[RECORD_HEADER..at] + hello[at..] == Payload(hello) && Version(hello) == hello[1..3]
  {
  }

  // ---- the name and the cut ------------------------------------------------------------------------

  /** `endswith`. */
  predicate EndsWith(s: string, suffix: string) {
    |s| >= |suffix| && s[|s| - |suffix|..] == suffix
  }

  lemma EndsWithIs(s: string, suffix: string)
    ensures EndsWith(s, suffix) <==> exists front: string :: s == front + suffix
  {
    if EndsWith(s, suffix) {
      assert s == s[..|s| - |suffix|] + suffix;
    }
    if front: string :| s == front + suffix {
      assert s[|front|..] == suffix;
    }
  }

  /** `serves`. */
  predicate Serves(host: string) {
    host == ZONE || EndsWith(host, "." + ZONE)
  }

  /** The zone itself and every name below it, and nothing else. */
  lemma ServesIs(host: string)
    ensures Serves(host) <==> host == "mysterium.network" || exists front: string :: host == front + ".mysterium.network"
  {
    assert "." + ZONE == ".mysterium.network";
    EndsWithIs(host, "." + ZONE);
  }

  /** Where `handle` cuts. */
  function Cut(host: string, at: nat): nat {
    at + if |host| / 2 > 1 then |host| / 2 else 1
  }

  lemma {:induction false} NameInsideList(data: bytes, entry: nat, stop: nat)
    ensures ScanEntries(data, entry, stop).Named? ==>
              var found := ScanEntries(data, entry, stop);
              && entry + 3 <= found.at && found.at + |found.host| <= |data|
              && found.host == Host(data[found.at..found.at + |found.host|])
    decreases |data| - entry
  {
    if entry + 3 <= stop && entry < |data| && U16(data, entry + 1).Some? && data[entry] != HOST_NAME_TYPE {
      NameInsideList(data, entry + 3 + U16(data, entry + 1).value, stop);
    }
  }

  lemma {:induction false} NameInsideExtensions(data: bytes, at: nat, end: nat)
    ensures ScanExtensions(data, at, end).Named? ==>
              var found := ScanExtensions(data, at, end);
              && at + 9 <= found.at && found.at + |found.host| <= |data|
              && found.host == Host(data[found.at..found.at + |found.host|])
    decreases |data| - at
  {
    if at + 4 <= end && at + 4 <= |data| {
      var kind, size := U16(data, at).value, U16(data, at + 2).value;
      if kind != 0 {
        NameInsideExtensions(data, at + 4 + size, end);
      } else {
        NameInsideList(data, at + 6, at + 4 + size);
      }
    }
  }

  /** A name that was found, in whatever record, is lower-cased bytes of that record. */
  lemma NameInsideHello(hello: bytes)
    ensures NameIn(hello).Named? ==>
              var found := NameIn(hello);
              && RECORD_HEADER < found.at && found.at + |found.host| <= |hello|
              && found.host == Host(hello[found.at..found.at + |found.host|])
  {
    if NameIn(hello).Named? {
      var ciphers := Past(hello, 43);
      var extensions := Past(hello, ciphers + 2 + U16(hello, ciphers).value);
      NameInsideExtensions(hello, extensions + 2, extensions + 2 + U16(hello, extensions).value);
    }
  }

  /** For a served name the split never fails, and the cut divides that very occurrence of the name. */
  lemma ServedNameIsCut(hello: bytes)
    requires NameIn(hello).Named? && Serves(NameIn(hello).host) && |hello| <= RECORD_HEADER + MAX_RECORD
    ensures var found := NameIn(hello);
            var cut := Cut(found.host, found.at);
            && found.at < cut < found.at + |found.host| <= |hello|
            && SplitHello(hello, cut).Some?
  {
    NameInsideHello(hello);
    assert |NameIn(hello).host| >= |ZONE|;
    var found := NameIn(hello);
    SplitKeepsTheHello(hello, Cut(found.host, found.at));
  }

  /** The zone at the end of a served name is itself divided exactly when the name has at most 32 characters; the
      zone of a longer one stands whole in the second record. */
  lemma ZoneIsCutIff(host: string, at: nat)
    requires Serves(host)
    ensures var zone, cut := at + |host| - |ZONE|, Cut(host, at);
            && host[|host| - |ZONE|..] == ZONE
            && (zone < cut < zone + |ZONE| <==> |host| <= 32)
            && (|host| > 32 ==> cut <= zone)
  {
    if host != ZONE {
      assert host[|host| - |ZONE|..] == host[|host| - |ZONE| - 1..][1..];
      assert ("." + ZONE)[1..] == ZONE;
    } else {
      assert host[0..] == host;
    }
  }

  // ---- the error that is no RelayError -------------------------------------------------------------

  ghost predicate NoHost(entries: seq<Entry>) {
    forall e :: e in entries ==> e.nameType != HOST_NAME_TYPE
  }

  /** What the record has of these bytes; they may go on behind its end. */
  ghost predicate HoldsCut(data: bytes, at: nat, part: bytes) {
    forall i {:trigger part[i]} :: 0 <= i < |part| && at + i < |data| ==> data[at + i] == part[i]
  }

  /** From here on the record has only entries that name no host, each with its header; they end at or behind the end of
      the record, and the list claims three bytes more. */
  ghost predicate RunsOut(data: bytes, from: nat, stop: nat, entries: seq<Entry>)
    requires FitEntries(entries)
  {
    var list := EncodeEntries(entries);
    && NoHost(entries) && HoldsCut(data, from, list)
    && |data| <= from + |list| && from + |list| + 3 <= stop
    && (entries != [] ==> from + |list| - |entries[|entries| - 1].name| <= |data|)
  }

  lemma HoldsCutBoth(data: bytes, at: nat, x: bytes, y: bytes)
    ensures HoldsCut(data, at, x + y) <==> HoldsCut(data, at, x) && HoldsCut(data, at + |x|, y)
  {
    if HoldsCut(data, at, x + y) {
      forall i | 0 <= i < |x| && at + i < |data| ensures data[at + i] == x[i] {
        assert (x + y)[i] == x[i];
      }
      forall i | 0 <= i < |y| && at + |x| + i < |data| ensures data[at + |x| + i] == y[i] {
        assert (x + y)[|x| + i] == y[i];
      }
    }
    if HoldsCut(data, at, x) && HoldsCut(data, at + |x|, y) {
      forall i | 0 <= i < |x + y| && at + i < |data| ensures data[at + i] == (x + y)[i] {
        if i >= |x| {
          assert (x + y)[i] == y[i - |x|];
        }
      }
    }
  }

  lemma RunsOutNone(data: bytes, from: nat, stop: nat)
    ensures RunsOut(data, from, stop, []) <==> |data| <= from && from + 3 <= stop
  {
  }

  lemma RunsOutFirst(data: bytes, from: nat, stop: nat, entries: seq<Entry>)
    requires FitEntries(entries) && entries != []
    ensures RunsOut(data, from, stop, entries) <==>
              && entries[0].nameType != HOST_NAME_TYPE && from + 3 <= |data| && HoldsCut(data, from, EncodeEntry(entries[0]))
              && RunsOut(data, from + |EncodeEntry(entries[0])|, stop, entries[1..])
  {
    var e, rest := entries[0], entries[1..];
    HoldsCutBoth(data, from, EncodeEntry(e), EncodeEntries(rest));
    assert NoHost(entries) <==> e.nameType != HOST_NAME_TYPE && NoHost(rest) by {
      assert entries == [e] + rest;
    }
    if rest == [] {
      assert |EncodeEntries(rest)| == 0;
    } else {
      assert rest[|rest| - 1] == entries[|entries| - 1];
      LastHeaderInside(rest);
    }
  }

  lemma {:induction false} LastHeaderInside(entries: seq<Entry>)
    requires FitEntries(entries) && entries != []
    ensures |EncodeEntries(entries)| - |entries[|entries| - 1].name| >= 3
  {
    if |entries| > 1 {
      assert entries[1..][|entries| - 2] == entries[|entries| - 1];
      LastHeaderInside(entries[1..]);
    }
  }

  lemma HoldsCutEntry(data: bytes, at: nat, e: Entry)
    requires FitsEntry(e) && at + 3 <= |data| && HoldsCut(data, at, EncodeEntry(e))
    ensures data[at] == e.nameType && U16(data, at + 1) == Some(|e.name|)
  {
    var encoded, size := EncodeEntry(e), B2(|e.name|);
    assert encoded[0] == e.nameType && encoded[1] == size[0] && encoded[2] == size[1];
  }

  lemma {:induction false} RunsOutFails(data: bytes, from: nat, stop: nat, entries: seq<Entry>)
    requires FitEntries(entries) && RunsOut(data, from, stop, entries)
    ensures ScanEntries(data, from, stop) == OutOfRange
    decreases entries
  {
    if entries == [] {
      RunsOutNone(data, from, stop);
    } else {
      RunsOutFirst(data, from, stop, entries);
      HoldsCutEntry(data, from, entries[0]);
      RunsOutFails(data, from + |EncodeEntry(entries[0])|, stop, entries[1..]);
    }
  }

  /** A number is written in one way only. */
  lemma WrittenOnce(high: byte, low: byte)
    ensures B2(high as nat * 256 + low) == [high, low]
  {
    var b := B2(high as nat * 256 + low);
    assert b[0] == high && b[1] == low;
  }

  /** The entry whose header is there, its name filled up with zeros where the record ends inside it. */
  function EntryAt(data: bytes, at: nat): (e: Entry)
    requires at + 3 <= |data|
    ensures FitsEntry(e) && |e.name| == U16(data, at + 1).value && e.nameType == data[at]
  {
    var size, start := U16(data, at + 1).value, at + 3;
    Entry(data[at], seq(size, i requires 0 <= i < size => if start + i < |data| then data[start + i] else 0))
  }

  lemma EntryHolds(data: bytes, at: nat)
    requires at + 3 <= |data|
    ensures HoldsCut(data, at, EncodeEntry(EntryAt(data, at)))
  {
    var e := EntryAt(data, at);
    WrittenOnce(data[at + 1], data[at + 2]);
    HoldsCutBoth(data, at, [e.nameType] + B2(|e.name|), e.name);
  }

  lemma {:induction false} FailsRunOut(data: bytes, from: nat, stop: nat) returns (entries: seq<Entry>)
    requires ScanEntries(data, from, stop) == OutOfRange
    ensures FitEntries(entries) && RunsOut(data, from, stop, entries)
    decreases |data| - from
  {
    if from >= |data| {
      entries := [];
      RunsOutNone(data, from, stop);
    } else {
      var e := EntryAt(data, from);
      var rest := FailsRunOut(data, from + 3 + |e.name|, stop);
      entries := [e] + rest;
      assert entries[1..] == rest;
      EntryHolds(data, from);
      RunsOutFirst(data, from, stop, entries);
    }
  }

  ghost predicate NoServerNames(extensions: seq<Extension>) {
    forall x :: x in extensions ==> x.Other?
  }

  /** Whole extensions of other kinds, and behind them the header of a server_name extension of so many bytes. */
  ghost predicate Claims(data: bytes, at: nat, end: nat, others: seq<Extension>, size: nat)
    requires FitExtensions(others)
  {
    && NoServerNames(others) && size < 0x1_0000
    && Holds(data, at, EncodeExtensions(others))
    && Holds(data, at + |EncodeExtensions(others)|, B2(0) + B2(size))
    && at + |EncodeExtensions(others)| + 4 <= end
  }

  lemma NameHeader(data: bytes, at: nat, size: nat)
    requires size < 0x1_0000 && Holds(data, at, B2(0) + B2(size))
    ensures U16(data, at) == Some(0) && U16(data, at + 2) == Some(size)
  {
    HoldsBoth(data, at, B2(0), B2(size));
    HoldsNumber(data, at, 0);
    HoldsNumber(data, at + 2, size);
  }

  lemma {:induction false} ClaimScanned(data: bytes, at: nat, end: nat, others: seq<Extension>, size: nat)
    requires FitExtensions(others) && Claims(data, at, end, others, size)
    ensures var from := at + |EncodeExtensions(others)|;
            ScanExtensions(data, at, end) == ScanEntries(data, from + 6, from + 4 + size)
    decreases others
  {
    hide Holds, EncodeExtension, ScanExtensions, ScanEntries, B2, U16;
    if others == [] {
      NameHeader(data, at, size);
      ScanStep(data, at, end, 0, size);
    } else {
      HoldsFirst(data, at, others);
      assert others[0] in others;
      ScansOther(data, at, others[0], end);
      ClaimScanned(data, at + |EncodeExtension(others[0])|, end, others[1..], size);
    }
  }

  lemma HoldsSlice(data: bytes, at: nat, end: nat)
    requires at <= end <= |data|
    ensures Holds(data, at, data[at..end])
  {
  }

  lemma HoldsJoined(data: bytes, at: nat, x: bytes, y: bytes)
    requires Holds(data, at, x) && Holds(data, at + |x|, y)
    ensures Holds(data, at, x + y)
  {
    forall i | 0 <= i < |x + y| ensures data[at + i] == (x + y)[i] {
      if i < |x| {
        assert (x + y)[i] == x[i];
      } else {
        assert (x + y)[i] == y[i - |x|];
      }
    }
  }

  lemma NumberHolds(data: bytes, at: nat)
    requires at + 2 <= |data|
    ensures U16(data, at).value < 0x1_0000 && Holds(data, at, B2(U16(data, at).value))
  {
    WrittenOnce(data[at], data[at + 1]);
  }

  lemma {:induction false} FindsClaim(data: bytes, at: nat, end: nat) returns (others: seq<Extension>, size: nat)
    requires ScanExtensions(data, at, end) == OutOfRange
    ensures FitExtensions(others) && Claims(data, at, end, others, size)
    ensures var from := at + |EncodeExtensions(others)|; ScanEntries(data, from + 6, from + 4 + size) == OutOfRange
    decreases |data| - at
  {
    NumberHolds(data, at);
    NumberHolds(data, at + 2);
    var kind := U16(data, at).value;
    size := U16(data, at + 2).value;
    HoldsJoined(data, at, B2(kind), B2(size));
    if kind == 0 {
      others := [];
    } else {
      others, size := OtherThenClaim(data, at, end, kind, size);
    }
  }

  lemma {:induction false} OtherThenClaim(data: bytes, at: nat, end: nat, kind: nat, length: nat)
    returns (others: seq<Extension>, size: nat)
    requires U16(data, at) == Some(kind) && U16(data, at + 2) == Some(length) && 0 < kind < 0x1_0000 && length < 0x1_0000
    requires Holds(data, at, B2(kind) + B2(length))
    requires ScanExtensions(data, at + 4 + length, end) == OutOfRange
    ensures FitExtensions(others) && Claims(data, at, end, others, size)
    ensures var from := at + |EncodeExtensions(others)|; ScanEntries(data, from + 6, from + 4 + size) == OutOfRange
    decreases |data| - at, 0
  {
    hide ScanExtensions, ScanEntries;
    var rest;
    rest, size := FindsClaim(data, at + 4 + length, end);
    var x := Other(kind, data[at + 4..at + 4 + length]);
    others := [x] + rest;
    OtherHolds(data, at, x);
    hide Holds, EncodeExtension, EncodeExtensions, FitExtensions, ScanEntries;
    HoldsJoinedExtension(data, at, x, rest);
  }

  lemma OtherHolds(data: bytes, at: nat, x: Extension)
    requires x.Other? && FitsExtension(x) && at + 4 + |x.data| <= |data| && x.data == data[at + 4..at + 4 + |x.data|]
    requires Holds(data, at, B2(x.kind) + B2(|x.data|))
    ensures Holds(data, at, EncodeExtension(x)) && |EncodeExtension(x)| == 4 + |x.data|
  {
    HoldsSlice(data, at + 4, at + 4 + |x.data|);
    HoldsJoined(data, at, B2(x.kind) + B2(|x.data|), x.data);
  }

  lemma HoldsJoinedExtension(data: bytes, at: nat, x: Extension, rest: seq<Extension>)
    requires FitsExtension(x) && FitExtensions(rest)
    requires Holds(data, at, EncodeExtension(x)) && Holds(data, at + |EncodeExtension(x)|, EncodeExtensions(rest))
    ensures FitExtensions([x] + rest) && Holds(data, at, EncodeExtensions([x] + rest))
    ensures |EncodeExtensions([x] + rest)| == |EncodeExtension(x)| + |EncodeExtensions(rest)|
  {
    assert ([x] + rest)[1..] == rest;
    HoldsJoined(data, at, EncodeExtension(x), EncodeExtensions(rest));
  }

  /** The fields of a ClientHello, and behind them an extension block of so many bytes. */
  ghost predicate Opens(data: bytes, h: Hello, block: nat)
    requires FitsFields(h)
  {
    && |data| > 9 && data[0] == HANDSHAKE_RECORD && data[5] == CLIENT_HELLO && block < 0x1_0000
    && Holds(data, 9, Prefix(h)) && Holds(data, 9 + |Prefix(h)|, B2(block))
  }

  lemma OpenedScanned(data: bytes, h: Hello, block: nat)
    requires FitsFields(h) && Opens(data, h, block)
    ensures var at := 11 + |Prefix(h)|; NameIn(data) == ScanExtensions(data, at, at + block)
  {
    PassesFields(data, 9, h);
    HoldsNumber(data, 9 + |Prefix(h)|, block);
    NameStep(data, 44 + |h.session|, |h.ciphers|, 9 + |Prefix(h)|, 11 + |Prefix(h)| + block);
  }

  /** The fields, cut out of the record. */
  function FieldsOf(data: bytes, ciphers: nat, compression: nat, extensions: nat): Hello
    requires 44 <= ciphers && ciphers + 2 <= compression && compression + 1 <= extensions <= |data|
  {
    Hello([], data[9..11], data[11..43], data[44..ciphers], data[ciphers + 2..compression],
        data[compression + 1..extensions], None)
  }

  lemma FieldsHold(data: bytes, ciphers: nat, compression: nat, extensions: nat)
    requires 44 <= ciphers && ciphers + 2 <= compression && compression + 1 <= extensions <= |data|
    requires data[43] == ciphers - 44 && U16(data, ciphers) == Some(compression - ciphers - 2)
    requires data[compression] == extensions - compression - 1
    ensures var h := FieldsOf(data, ciphers, compression, extensions);
            FitsFields(h) && |Prefix(h)| == extensions - 9 && Holds(data, 9, Prefix(h))
  {
    var h := FieldsOf(data, ciphers, compression, extensions);
    NumberHolds(data, ciphers);
    HoldsSlice(data, 9, 11);
    HoldsSlice(data, 11, 43);
    HoldsJoined(data, 9, h.version, h.random);
    var head := h.version + h.random;
    HoldsJoined(data, 9, head, [|h.session|]);
    HoldsSlice(data, 44, ciphers);
    HoldsJoined(data, 9, head + [|h.session|], h.session);
    HoldsJoined(data, 9, head + [|h.session|] + h.session, B2(|h.ciphers|));
    HoldsSlice(data, ciphers + 2, compression);
    HoldsJoined(data, 9, head + [|h.session|] + h.session + B2(|h.ciphers|), h.ciphers);
    HoldsJoined(data, 9, head + [|h.session|] + h.session + B2(|h.ciphers|) + h.ciphers, [|h.compression|]);
    HoldsSlice(data, compression + 1, extensions);
    HoldsJoined(data, 9, head + [|h.session|] + h.session + B2(|h.ciphers|) + h.ciphers + [|h.compression|], h.compression);
  }

  lemma FindsFields(data: bytes) returns (h: Hello, block: nat)
    requires NameIn(data) == OutOfRange
    ensures FitsFields(h) && Opens(data, h, block)
  {
    var ciphers := Past(data, 43);
    var compression := ciphers + 2 + U16(data, ciphers).value;
    var extensions := Past(data, compression);
    FieldsHold(data, ciphers, compression, extensions);
    NumberHolds(data, extensions);
    h, block := FieldsOf(data, ciphers, compression, extensions), U16(data, extensions).value;
  }

  /** The record is a ClientHello whose first server_name extension claims more than the record holds, and all it holds of
      that extension are entries that name no host. */
  ghost predicate ClaimsTooMuch(data: bytes, h: Hello, block: nat, others: seq<Extension>, size: nat, entries: seq<Entry>) {
    && FitsFields(h) && Opens(data, h, block)
    && FitExtensions(others) && Claims(data, 11 + |Prefix(h)|, 11 + |Prefix(h)| + block, others, size)
    && FitEntries(entries)
    && var from := 15 + |Prefix(h)| + |EncodeExtensions(others)|; RunsOut(data, from + 2, from + size, entries)
  }

  /** The parser reads behind the end of a record exactly when the record claims too much in this way. */
  lemma OutOfRangeIff(data: bytes)
    ensures NameIn(data) == OutOfRange <==>
              exists h, block, others, size, entries :: ClaimsTooMuch(data, h, block, others, size, entries)
  {
    hide NameIn, Opens, Claims, RunsOut, EncodeExtensions, EncodeEntries, ScanExtensions, ScanEntries, Prefix, FitsFields;
    if NameIn(data) == OutOfRange {
      var h, block := FindsFields(data);
      OpenedScanned(data, h, block);
      var others, size := FindsClaim(data, 11 + |Prefix(h)|, 11 + |Prefix(h)| + block);
      var from := 15 + |Prefix(h)| + |EncodeExtensions(others)|;
      var entries := FailsRunOut(data, from + 2, from + size);
      assert ClaimsTooMuch(data, h, block, others, size, entries);
    }
    if h, block, others, size, entries :| ClaimsTooMuch(data, h, block, others, size, entries) {
      TooMuchFails(data, h, block, others, size, entries);
    }
  }

  lemma TooMuchFails(data: bytes, h: Hello, block: nat, others: seq<Extension>, size: nat, entries: seq<Entry>)
    requires ClaimsTooMuch(data, h, block, others, size, entries)
    ensures NameIn(data) == OutOfRange
  {
    hide NameIn, Opens, Claims, RunsOut, EncodeExtensions, EncodeEntries, ScanExtensions, Prefix, FitsFields,
         FitEntries, FitExtensions;
    OpenedScanned(data, h, block);
    ClaimFails(data, 11 + |Prefix(h)|, 11 + |Prefix(h)| + block, others, size, entries);
  }

  lemma ClaimFails(data: bytes, at: nat, end: nat, others: seq<Extension>, size: nat, entries: seq<Entry>)
    requires FitExtensions(others) && Claims(data, at, end, others, size)
    requires FitEntries(entries)
    requires var from := at + 4 + |EncodeExtensions(others)|; RunsOut(data, from + 2, from + size, entries)
    ensures ScanExtensions(data, at, end) == OutOfRange
  {
    hide Claims, RunsOut, EncodeExtensions, EncodeEntries, ScanExtensions, ScanEntries, FitEntries, FitExtensions;
    ClaimScanned(data, at, end, others, size);
    var from := at + 4 + |EncodeExtensions(others)|;
    RunsOutFails(data, from + 2, from + size, entries);
  }

  /** A whole handshake record of 55 bytes, its lengths right: its one extension, server_name, claims five bytes and two
      are there. */
  const TRUNCATED: bytes :=
    [0x16, 3, 1, 0, 50, 1, 0, 0, 46, 3, 3] + seq(32, _ => 0) + [0, 0, 0, 0, 0, 6, 0, 0, 0, 5, 0, 3]

  lemma IndexErrorHappens()
    ensures |TRUNCATED| == 55 && NameIn(TRUNCATED) == OutOfRange
  {
    var data := TRUNCATED;
    assert data[43] == 0 && data[44] == 0 && data[45] == 0 && data[46] == 0 && data[47] == 0 && data[48] == 6;
    assert data[49] == 0 && data[50] == 0 && data[51] == 0 && data[52] == 5;
    NameStep(data, 44, 0, 47, 55);
    ScanStep(data, 49, 55, 0, 5);
  }
}
