/** One ICMP echo (core/vibedpn/engine/probe.py) and the Internet checksum (section 1 of RFC 1071). */
module Probes {
  import opened Options
  import opened Octets

  const ICMP_ECHO_REQUEST: byte := 8
  const ICMP_ECHO_REPLY: byte := 0
  const ICMP_HEADER_SIZE := 8

  /** "vibedpn-uplink". */
  const PAYLOAD: bytes := [118, 105, 98, 101, 100, 112, 110, 45, 117, 112, 108, 105, 110, 107]

  /** The sum of the 16-bit words; an odd byte is the high one of a last word. */
  function WordSum(data: bytes): nat {
    if data == [] then 0
    else if |data| == 1 then data[0] as nat * 256
    else data[0] as nat * 256 + data[1] + WordSum(data[2..])
  }

  /** The end-around carry: what folding a sum comes to. */
  function Folded(sum: nat): nat {
    if sum == 0 then 0 else 1 + (sum - 1) % 0xFFFF
  }

  function Check(data: bytes): nat {
    0xFFFF - Folded(WordSum(data))
  }

  lemma FoldOnce(sum: nat)
    requires sum >= 0x1_0000
    ensures Folded(sum % 0x1_0000 + sum / 0x1_0000) == Folded(sum)
    ensures 0 < sum % 0x1_0000 + sum / 0x1_0000 < sum
  {
    var high, low := sum / 0x1_0000, sum % 0x1_0000;
    assert sum - 1 == 0xFFFF * high + (high + low - 1);
    ModMultiple(high + low - 1, high);
  }

  lemma ModMultiple(n: nat, k: nat)
    ensures (0xFFFF * k + n) % 0xFFFF == n % 0xFFFF
  {
    var q := n / 0xFFFF;
    assert 0xFFFF * k + n == 0xFFFF * (k + q) + n % 0xFFFF;
  }

  /** `checksum`: the fold ends, and keeps the sum modulo 65535. */
  method Checksum(data: bytes) returns (check: nat)
    ensures check == Check(data) <= 0xFFFF
    ensures (WordSum(data) + check) % 0xFFFF == 0
  {
    var total := Sum(data);
    ghost var sum := total;
    while total >= 0x1_0000
      invariant Folded(total) == Folded(sum)
      decreases total
    {
      FoldOnce(total);
      total := total % 0x1_0000 + total / 0x1_0000;
    }
    check := 0xFFFF - total;
    SumsToZero(data);
  }

  method Sum(data: bytes) returns (total: nat)
    ensures total == WordSum(data)
  {
    var padded := if |data| % 2 == 1 then data + [0] else data;
    PaddingIsZero(data);
    total := 0;
    var at := 0;
    while at < |padded|
      invariant at <= |padded| && at % 2 == 0 && |padded| % 2 == 0
      invariant total + WordSum(padded[at..]) == WordSum(data)
    {
      assert padded[at..][2..] == padded[at + 2..];
      total := total + padded[at] as nat * 256 + padded[at + 1];
      at := at + 2;
    }
  }

  lemma {:induction false} PaddingIsZero(data: bytes)
    ensures |data| % 2 == 1 ==> WordSum(data + [0]) == WordSum(data)
  {
    if |data| >= 2 {
      PaddingIsZero(data[2..]);
      assert (data + [0])[2..] == data[2..] + [0];
    }
  }

  lemma FoldedZero(sum: nat)
    ensures Folded(sum) <= 0xFFFF && (sum + (0xFFFF - Folded(sum))) % 0xFFFF == 0
  {
    if sum > 0 {
      var q := (sum - 1) / 0xFFFF;
      ModMultiple(0, q + 1);
      assert sum + (0xFFFF - Folded(sum)) == 0xFFFF * (q + 1) + 0;
    }
  }

  lemma SumsToZero(data: bytes)
    ensures (WordSum(data) + Check(data)) % 0xFFFF == 0
  {
    hide WordSum, Folded;
    FoldedZero(WordSum(data));
  }

  // ---- the echo ------------------------------------------------------------------------------------

  predicate IsWord(n: int) { 0 <= n < 0x1_0000 }

  function Echo(kind: byte, check: nat, ident: nat, sequence: nat): bytes
    requires IsWord(check) && IsWord(ident) && IsWord(sequence)
  {
    [kind, 0] + B2(check) + B2(ident) + B2(sequence) + PAYLOAD
  }

  /** `echo_request`. */
  method EchoRequest(ident: nat, sequence: nat) returns (packet: bytes)
    requires IsWord(ident) && IsWord(sequence)
    ensures packet == Echo(ICMP_ECHO_REQUEST, Check(Echo(ICMP_ECHO_REQUEST, 0, ident, sequence)), ident, sequence)
    ensures Check(packet) == 0
    // the fields of an echo request, section "Echo or Echo Reply Message" of RFC 792
    ensures |packet| == 22 && packet[0] == 8 && packet[1] == 0
    ensures packet[4] as nat * 256 + packet[5] == ident && packet[6] as nat * 256 + packet[7] == sequence
    ensures forall i :: 0 <= i < 14 ==> packet[8 + i] as char == "vibedpn-uplink"[i]
  {
    var check := Checksum(Echo(ICMP_ECHO_REQUEST, 0, ident, sequence));
    packet := Echo(ICMP_ECHO_REQUEST, check, ident, sequence);
    RequestChecks(ident, sequence);
  }

  lemma EchoSum(kind: byte, check: nat, ident: nat, sequence: nat)
    requires IsWord(check) && IsWord(ident) && IsWord(sequence)
    ensures WordSum(Echo(kind, check, ident, sequence)) == kind as nat * 256 + check + ident + sequence + WordSum(PAYLOAD)
  {
    hide WordSum;
    FirstWord(B2(sequence), PAYLOAD);
    FirstWord(B2(ident), B2(sequence) + PAYLOAD);
    FirstWord(B2(check), B2(ident) + (B2(sequence) + PAYLOAD));
    FirstWord([kind, 0], B2(check) + (B2(ident) + (B2(sequence) + PAYLOAD)));
    assert Echo(kind, check, ident, sequence) == [kind, 0] + (B2(check) + (B2(ident) + (B2(sequence) + PAYLOAD)));
  }

  lemma FirstWord(word: bytes, rest: bytes)
    requires |word| == 2
    ensures WordSum(word + rest) == word[0] as nat * 256 + word[1] + WordSum(rest)
  {
    assert (word + rest)[2..] == rest;
  }

  /** A packet summed with its own checksum field comes to zero, for every id and sequence. */
  lemma RequestChecks(ident: nat, sequence: nat)
    requires IsWord(ident) && IsWord(sequence)
    ensures var check := Check(Echo(ICMP_ECHO_REQUEST, 0, ident, sequence));
            IsWord(check) && Check(Echo(ICMP_ECHO_REQUEST, check, ident, sequence)) == 0
  {
    var plain := Echo(ICMP_ECHO_REQUEST, 0, ident, sequence);
    var check := Check(plain);
    EchoSum(ICMP_ECHO_REQUEST, 0, ident, sequence);
    EchoSum(ICMP_ECHO_REQUEST, check, ident, sequence);
    SumsToZero(plain);
    MultipleFolds(WordSum(Echo(ICMP_ECHO_REQUEST, check, ident, sequence)));
  }

  lemma MultipleFolds(sum: nat)
    requires sum > 0 && sum % 0xFFFF == 0
    ensures Folded(sum) == 0xFFFF
  {
    var q := sum / 0xFFFF;
    assert sum - 1 == 0xFFFF * (q - 1) + 0xFFFE;
    ModMultiple(0xFFFE, q - 1);
  }

  /** `is_echo_reply`: the IP header is skipped by its own length field. */
  predicate IsEchoReply(packet: bytes, ident: nat, sequence: nat) {
    packet != [] &&
    var offset := packet[0] % 16 * 4;
    && |packet| >= offset + ICMP_HEADER_SIZE
    && packet[offset] == ICMP_ECHO_REPLY
    && U16(packet, offset + 4) == Some(ident) && U16(packet, offset + 6) == Some(sequence)
  }

  /** Behind any IP header, options and all, exactly the echo with its type, id and sequence is the reply; the
      request itself, which a raw socket may hand back, is none. */
  lemma ReplyBehindAnyHeader(header: bytes, kind: byte, check: nat, ident: nat, sequence: nat, id: nat, seqno: nat)
    requires header != [] && |header| == header[0] % 16 * 4
    requires IsWord(check) && IsWord(ident) && IsWord(sequence)
    ensures IsEchoReply(header + Echo(kind, check, ident, sequence), id, seqno)
       <==> kind == ICMP_ECHO_REPLY && id == ident && seqno == sequence
  {
    var echo := Echo(kind, check, ident, sequence);
    var packet := header + echo;
    assert packet[0] == header[0] && packet[|header|] == echo[0] == kind;
    assert echo[4] == B2(ident)[0] && echo[5] == B2(ident)[1] && echo[6] == B2(sequence)[0] && echo[7] == B2(sequence)[1];
    assert forall i :: 0 <= i < 8 ==> packet[|header| + i] == echo[i];
  }
}
