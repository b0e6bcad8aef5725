/** One ClientHello in bytes, as section 4.1.2 of RFC 8446 and section 3 of RFC 6066 write them. */
module Greetings {
  import opened Options
  import opened Octets
  import opened ClientHellos

  /** A record of 73 bytes: two bytes of cipher suites, one compression method, the extension 43 with one byte, and
      server_name with an entry of type 9 and the host name A.b. */
  const GREETING: bytes := [0x16, 3, 1, 0, 68, 1, 0, 0, 64, 3, 3] + seq(32, _ => 0xFF) + FIELDS + OTHER + NAMES

  const FIELDS: bytes := [0, 0, 2, 0x13, 1, 1, 0, 0, 21]
  const OTHER: bytes := [0, 43, 0, 1, 7]
  const NAMES: bytes := [0, 0, 0, 12, 0, 10, 9, 0, 1, 0xFF, 0, 0, 3, 0x41, 0x2E, 0x62]

  /** Its name is a.b, at byte 70. */
  lemma GreetingNames()
    ensures |GREETING| == 73 && NameIn(GREETING) == Named("a.b", 70)
  {
    ghost var data := GREETING;
    assert data[0] == 0x16 && data[5] == 1 && data[43..52] == FIELDS && data[52..57] == OTHER && data[57..] == NAMES;
    hide *;
    GreetingOpens(data);
    GreetingScans(data);
    GreetingEntries(data);
  }

  lemma GreetingOpens(data: bytes)
    requires |data| == 73 && data[0] == 0x16 && data[5] == 1 && data[43..52] == FIELDS
    ensures NameIn(data) == ScanExtensions(data, 52, 73)
  {
    hide ScanExtensions, NameIn;
    assert forall i :: 0 <= i < 9 ==> data[43 + i] == FIELDS[i];
    NameStep(data, 44, 2, 50, 73);
  }

  lemma GreetingScans(data: bytes)
    requires |data| == 73 && data[52..57] == OTHER && data[57..] == NAMES
    ensures ScanExtensions(data, 52, 73) == ScanEntries(data, 63, 73)
  {
    hide ScanExtensions, ScanEntries;
    assert forall i :: 0 <= i < 5 ==> data[52 + i] == OTHER[i];
    ScanStep(data, 52, 73, 43, 1);
    assert forall i :: 0 <= i < 4 ==> data[57 + i] == NAMES[i];
    ScanStep(data, 57, 73, 0, 12);
  }

  lemma GreetingEntries(data: bytes)
    requires |data| == 73 && data[57..] == NAMES
    ensures ScanEntries(data, 63, 73) == Named("a.b", 70)
  {
    hide Host, ScanEntries;
    assert forall i :: 6 <= i < 16 ==> data[57 + i] == NAMES[i];
    EntryStep(data, 63, 73);
    EntryStep(data, 67, 73);
    assert data[70..73] == [0x41, 0x2E, 0x62];
    HostOfThree();
  }

  lemma EntryStep(data: bytes, entry: nat, stop: nat)
    requires entry + 3 <= stop && entry + 3 <= |data|
    ensures var size, start := data[entry + 1] as nat * 256 + data[entry + 2], entry + 3;
            ScanEntries(data, entry, stop) == if data[entry] == 0
                then Named(Host(data[start..Clamp(data, start + size)]), start)
                                              else ScanEntries(data, start + size, stop)
  {
  }

  lemma HostOfThree()
    ensures Host([0x41, 0x2E, 0x62]) == "a.b"
  {
  }
}
