/** The fixed numbering of uplinks: the marks, tables and gateways of core/vibedpn/engine/router.py. */
module Slots {
  import opened Options

  /** `gateway` is the last octet of the gateway container in 10.77.0.0/24. */
  datatype Uplink = Uplink(mark: int, table: int, gateway: int)

  const VPS := Uplink(0x10, 7710, 10)
  const DPN := Uplink(0x20, 7720, 20)
  const TOR := Uplink(0x60, 7760, 60)
  const BLOCK_MARK := 0x30
  const MAX_COUNTRIES := 8
  const MAX_WG_UPLINKS := 8

  function CountryUplink(index: nat): Uplink {
    Uplink(0x40 + index, 7740 + index, 40 + index)
  }

  function WgUplink(index: nat): Uplink {
    Uplink(0x50 + index, 7750 + index, 50 + index)
  }

  /** Everything `plan_rules` walks and the teardown flushes. */
  const ALL_SLOTS: seq<Uplink> := [
    VPS, DPN, TOR,
    CountryUplink(0), CountryUplink(1), CountryUplink(2), CountryUplink(3),
    CountryUplink(4), CountryUplink(5), CountryUplink(6), CountryUplink(7),
    WgUplink(0), WgUplink(1), WgUplink(2), WgUplink(3),
    WgUplink(4), WgUplink(5), WgUplink(6), WgUplink(7)
  ]

  /** The tables of ALL_SLOTS in ascending order, the order `plan_rules` visits them in. */
  const SLOT_TABLES: seq<int> := [
    7710, 7720, 7740, 7741, 7742, 7743, 7744, 7745, 7746, 7747,
    7750, 7751, 7752, 7753, 7754, 7755, 7756, 7757, 7760
  ]

  predicate IsSlotTable(table: int) {
    table == 7710 || table == 7720 || 7740 <= table < 7748 || 7750 <= table < 7758 || table == 7760
  }

  /** The mark whose table a slot is: the numbering adds the same offset to both. */
  predicate IsSlot(uplink: Uplink) {
    || uplink == VPS || uplink == DPN || uplink == TOR
    || (7740 <= uplink.table < 7748 && uplink == CountryUplink(uplink.table - 7740))
    || (7750 <= uplink.table < 7758 && uplink == WgUplink(uplink.table - 7750))
  }

  /** IsSlot is membership in ALL_SLOTS, and SLOT_TABLES lists exactly the tables of the slots. */
  lemma SlotsListed(uplink: Uplink)
    ensures IsSlot(uplink) <==> uplink in ALL_SLOTS
    ensures IsSlot(uplink) ==> IsSlotTable(uplink.table) && uplink.mark != BLOCK_MARK
    ensures IsSlotTable(uplink.table) <==> uplink.table in SLOT_TABLES
  {
    if IsSlot(uplink) {
      var i := if uplink == VPS then 0 else if uplink == DPN then 1 else if uplink == TOR then 2
               else if uplink.table < 7748 then 3 + uplink.table - 7740 else 11 + uplink.table - 7750;
      assert ALL_SLOTS[i] == uplink;
    }
    TableListed(uplink);
  }

  lemma TableListed(uplink: Uplink)
    ensures IsSlotTable(uplink.table) <==> uplink.table in SLOT_TABLES
  {
    if IsSlotTable(uplink.table) {
      var t := uplink.table;
      var i := if t == 7710 then 0 else if t == 7720 then 1 else if t == 7760 then 18
               else if t < 7748 then 2 + t - 7740 else 10 + t - 7750;
      assert SLOT_TABLES[i] == t;
    }
  }

  /** A mark names one slot, so does a table and so does a gateway: a watcher of one uplink never serves another. */
  lemma SlotsDistinct(a: Uplink, b: Uplink)
    requires IsSlot(a) && IsSlot(b)
    ensures (a.mark == b.mark) <==> (a == b)
    ensures (a.gateway == b.gateway) <==> (a == b)
    ensures (a.table == b.table) <==> (a == b)
  {
  }
}
