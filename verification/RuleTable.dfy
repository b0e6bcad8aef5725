/** The kernel's list of `ip rule` entries and the plan that brings it to the wanted one
    (core/vibedpn/engine/router.py, `plan_rules`). */
module RuleTable {
  import opened Options
  import opened Slots
  import opened Sequences

  /** One listed rule. The listing carries `fwmark` and `table` only when the rule has them. */
  datatype Rule = Rule(priority: int, fwmark: Option<int>, table: Option<int>)

  /** The rule of an uplink, as `add_rules` writes it. */
  function Exact(uplink: Uplink): Rule {
    Rule(uplink.table, Some(uplink.mark), Some(uplink.table))
  }

  /** `ip rule del` compares only the attributes it was given: the selector of a listed rule is that rule,
      and it also hits every rule that agrees on the attributes the listed one has. */
  predicate Hits(selector: Rule, rule: Rule) {
    && selector.priority == rule.priority
    && (selector.fwmark.Some? ==> rule.fwmark == selector.fwmark)
    && (selector.table.Some? ==> rule.table == selector.table)
  }

  /** `ip rule add`: behind every rule of the same or a smaller priority. */
  function Insert(rules: seq<Rule>, rule: Rule): seq<Rule> {
    if rules == [] then [rule]
    else if rules[0].priority > rule.priority then [rule] + rules
    else [rules[0]] + Insert(rules[1..], rule)
  }

  function InsertAll(rules: seq<Rule>, add: seq<Uplink>): seq<Rule>
    decreases add
  {
    if add == [] then rules else InsertAll(Insert(rules, Exact(add[0])), add[1..])
  }

  /** `ip rule del`: the first rule the selector hits goes. */
  function DeleteFirst(rules: seq<Rule>, selector: Rule): seq<Rule> {
    if rules == [] then []
    else if Hits(selector, rules[0]) then rules[1..]
    else [rules[0]] + DeleteFirst(rules[1..], selector)
  }

  function DeleteAll(rules: seq<Rule>, selectors: seq<Rule>): seq<Rule>
    decreases selectors
  {
    if selectors == [] then rules else DeleteAll(DeleteFirst(rules, selectors[0]), selectors[1..])
  }

  /** The rules at one priority, in kernel order. */
  function At(rules: seq<Rule>, priority: int): (at: seq<Rule>)
    ensures forall r :: r in at <==> r in rules && r.priority == priority
  {
    if rules == [] then []
    else if rules[0].priority == priority then [rules[0]] + At(rules[1..], priority)
    else At(rules[1..], priority)
  }

  /** The rules that belong to nobody here, in kernel order. */
  function Foreign(rules: seq<Rule>): seq<Rule> {
    if rules == [] then []
    else if IsSlotTable(rules[0].priority) then Foreign(rules[1..])
    else [rules[0]] + Foreign(rules[1..])
  }

  predicate Sorted(rules: seq<Rule>) {
    rules == [] || ((forall r :: r in rules ==> rules[0].priority <= r.priority) && Sorted(rules[1..]))
  }

  // ---- the plan -----------------------------------------------------------------------------------

  /** `by_table`: of two wanted uplinks with one table the last one stays. */
  function ByTable(wanted: seq<Uplink>, table: int): (needed: Option<Uplink>)
    ensures needed.Some? ==> needed.value in wanted && needed.value.table == table
    ensures needed.None? ==> forall u :: u in wanted ==> u.table != table
  {
    if wanted == [] then None
    else if wanted[|wanted| - 1].table == table then Some(wanted[|wanted| - 1])
    else ByTable(wanted[..|wanted| - 1], table)
  }

  /** What goes at one slot: everything but the first exact rule. */
  function Stale(entries: seq<Rule>, table: int, needed: Option<Uplink>, kept: bool): seq<Rule> {
    if entries == [] then []
    else if entries[0].priority != table then Stale(entries[1..], table, needed, kept)
    else if needed.Some? && entries[0] == Exact(needed.value) && !kept
      then Stale(entries[1..], table, needed, true)
    else [entries[0]] + Stale(entries[1..], table, needed, kept)
  }

  function PlannedDeletes(entries: seq<Rule>, wanted: seq<Uplink>, tables: seq<int>): seq<Rule> {
    if tables == [] then []
    else Stale(entries, tables[0], ByTable(wanted, tables[0]), false) + PlannedDeletes(entries, wanted, tables[1..])
  }

  function PlannedAdds(entries: seq<Rule>, wanted: seq<Uplink>, tables: seq<int>): seq<Uplink> {
    if tables == [] then []
    else
      var needed := ByTable(wanted, tables[0]);
      (if needed.Some? && Exact(needed.value) !in entries then [needed.value] else [])
      + PlannedAdds(entries, wanted, tables[1..])
  }

  /** The inner loop of `plan_rules`: the rules listed at one slot. */
  method PlanSlot(entries: seq<Rule>, table: int, needed: Option<Uplink>) returns (delete: seq<Rule>, kept: bool)
    requires needed.Some? ==> needed.value.table == table
    ensures delete == Stale(entries, table, needed, false)
    ensures kept <==> needed.Some? && Exact(needed.value) in entries
  {
    delete, kept := [], false;
    for j := 0 to |entries|
      invariant delete + Stale(entries[j..], table, needed, kept) == Stale(entries, table, needed, false)
      invariant kept <==> needed.Some? && Exact(needed.value) in entries[..j]
    {
      assert entries[j..][1..] == entries[j + 1..];
      assert entries[..j + 1] == entries[..j] + [entries[j]];
      var entry := entries[j];
      if entry.priority == table {
        if needed.Some? && entry.fwmark == Some(needed.value.mark) && entry.table == Some(table) && !kept {
          kept := true;
        } else {
          delete := delete + [entry];
        }
      }
    }
    assert entries[..|entries|] == entries && entries[|entries|..] == [];
  }

  /** `plan_rules`: exactly one rule per wanted uplink at its own priority, nothing at the others. */
  method PlanRules(entries: seq<Rule>, wanted: seq<Uplink>) returns (delete: seq<Rule>, add: seq<Uplink>)
    ensures delete == PlannedDeletes(entries, wanted, SLOT_TABLES)
    ensures add == PlannedAdds(entries, wanted, SLOT_TABLES)
  {
    delete, add := PlanTables(entries, wanted, SLOT_TABLES);
  }

  /** The outer loop of `plan_rules`. */
  method PlanTables(entries: seq<Rule>, wanted: seq<Uplink>, tables: seq<int>)
    returns (delete: seq<Rule>, add: seq<Uplink>)
    ensures delete == PlannedDeletes(entries, wanted, tables)
    ensures add == PlannedAdds(entries, wanted, tables)
  {
    delete, add := [], [];
    for i := 0 to |tables|
      invariant delete + PlannedDeletes(entries, wanted, tables[i..]) == PlannedDeletes(entries, wanted, tables)
      invariant add + PlannedAdds(entries, wanted, tables[i..]) == PlannedAdds(entries, wanted, tables)
    {
      assert tables[i..][1..] == tables[i + 1..];
      var needed := ByTable(wanted, tables[i]);
      var stale, kept := PlanSlot(entries, tables[i], needed);
      delete := delete + stale;
      if needed.Some? && !kept {
        add := add + [needed.value];
      }
    }
  }

  // ---- what the two kernel operations do at one priority -------------------------------------------

  lemma {:induction false} InsertKeepsRules(rules: seq<Rule>, rule: Rule)
    ensures multiset(Insert(rules, rule)) == multiset(rules) + multiset{rule}
  {
    if rules != [] && rules[0].priority <= rule.priority {
      assert rules == [rules[0]] + rules[1..];
      InsertKeepsRules(rules[1..], rule);
    }
  }

  lemma {:induction false} InsertKeepsSorted(rules: seq<Rule>, rule: Rule)
    requires Sorted(rules)
    ensures Sorted(Insert(rules, rule))
  {
    if rules != [] && rules[0].priority <= rule.priority {
      InsertKeepsSorted(rules[1..], rule);
      var rest := Insert(rules[1..], rule);
      InsertElements(rules[1..], rule);
      assert ([rules[0]] + rest)[1..] == rest;
    } else if rules != [] {
      assert ([rule] + rules)[1..] == rules;
    }
  }

  lemma InsertElements(rules: seq<Rule>, rule: Rule)
    ensures forall r :: r in Insert(rules, rule) <==> r in rules || r == rule
  {
    InsertKeepsRules(rules, rule);
    forall r ensures r in Insert(rules, rule) <==> r in rules || r == rule {
      assert r in multiset(Insert(rules, rule)) <==> r in multiset(rules) + multiset{rule};
    }
  }

  lemma {:induction false} InsertAt(rules: seq<Rule>, rule: Rule, priority: int)
    requires Sorted(rules)
    ensures At(Insert(rules, rule), priority) == At(rules, priority) + (if rule.priority == priority then [rule] else [])
  {
    if rules != [] {
      if rules[0].priority > rule.priority {
        assert rule.priority == priority ==> At(rules, priority) == [] by {
          if At(rules, priority) != [] {
            assert At(rules, priority)[0] in At(rules, priority);
          }
        }
        assert ([rule] + rules)[1..] == rules;
      } else {
        InsertAt(rules[1..], rule, priority);
        assert ([rules[0]] + Insert(rules[1..], rule))[1..] == Insert(rules[1..], rule);
      }
    }
  }

  lemma {:induction false} InsertForeign(rules: seq<Rule>, rule: Rule)
    requires IsSlotTable(rule.priority)
    ensures Foreign(Insert(rules, rule)) == Foreign(rules)
  {
    if rules != [] {
      if rules[0].priority > rule.priority {
        assert ([rule] + rules)[1..] == rules;
      } else {
        InsertForeign(rules[1..], rule);
        assert ([rules[0]] + Insert(rules[1..], rule))[1..] == Insert(rules[1..], rule);
      }
    }
  }

  /** A delete brings nothing in and keeps the order. */
  lemma {:induction false} DeleteKeepsRules(rules: seq<Rule>, selector: Rule)
    ensures forall r :: r in DeleteFirst(rules, selector) ==> r in rules
    ensures Sorted(rules) ==> Sorted(DeleteFirst(rules, selector))
  {
    if rules != [] && !Hits(selector, rules[0]) {
      DeleteKeepsRules(rules[1..], selector);
      var rest := DeleteFirst(rules[1..], selector);
      assert ([rules[0]] + rest)[1..] == rest;
    }
  }

  lemma {:induction false} DeleteAt(rules: seq<Rule>, selector: Rule, priority: int)
    ensures At(DeleteFirst(rules, selector), priority)
         == if selector.priority == priority then DeleteFirst(At(rules, priority), selector) else At(rules, priority)
    ensures IsSlotTable(selector.priority) ==> Foreign(DeleteFirst(rules, selector)) == Foreign(rules)
  {
    if rules != [] && !Hits(selector, rules[0]) {
      DeleteAt(rules[1..], selector, priority);
      assert ([rules[0]] + DeleteFirst(rules[1..], selector))[1..] == DeleteFirst(rules[1..], selector);
    }
  }

  // ---- the plan, one slot at a time ----------------------------------------------------------------

  lemma {:induction false} InsertAllAt(rules: seq<Rule>, add: seq<Uplink>, priority: int)
    requires Sorted(rules)
    ensures At(InsertAll(rules, add), priority) == At(rules, priority) + RulesAt(add, priority)
    decreases add
  {
    if add != [] {
      var x, next := Exact(add[0]), Insert(rules, Exact(add[0]));
      var own := if x.priority == priority then [x] else [];
      InsertKeepsSorted(rules, x);
      InsertAt(rules, x, priority);
      InsertAllAt(next, add[1..], priority);
      Associates(At(rules, priority), own, RulesAt(add[1..], priority));
    }
  }

  lemma Associates(a: seq<Rule>, b: seq<Rule>, c: seq<Rule>)
    ensures (a + b) + c == a + (b + c)
  {
  }

  lemma {:induction false} InsertAllForeign(rules: seq<Rule>, add: seq<Uplink>)
    requires forall u :: u in add ==> IsSlotTable(u.table)
    ensures Foreign(InsertAll(rules, add)) == Foreign(rules)
    decreases add
  {
    if add != [] {
      InsertForeign(rules, Exact(add[0]));
      InsertAllForeign(Insert(rules, Exact(add[0])), add[1..]);
    }
  }

  /** The rules that adding `add` puts at one priority. */
  function RulesAt(add: seq<Uplink>, priority: int): seq<Rule> {
    if add == [] then []
    else (if add[0].table == priority then [Exact(add[0])] else []) + RulesAt(add[1..], priority)
  }

  lemma {:induction false} DeleteAllAt(rules: seq<Rule>, selectors: seq<Rule>, priority: int)
    requires forall s :: s in selectors ==> IsSlotTable(s.priority)
    ensures At(DeleteAll(rules, selectors), priority) == DeleteAll(At(rules, priority), At(selectors, priority))
    ensures Foreign(DeleteAll(rules, selectors)) == Foreign(rules)
    decreases selectors
  {
    if selectors != [] {
      DeleteAt(rules, selectors[0], priority);
      DeleteAllAt(DeleteFirst(rules, selectors[0]), selectors[1..], priority);
    }
  }

  lemma {:induction false} AtAppend(a: seq<Rule>, b: seq<Rule>, priority: int)
    ensures At(a + b, priority) == At(a, priority) + At(b, priority)
  {
    if a == [] {
      assert a + b == b;
    } else {
      AtAppend(a[1..], b, priority);
      assert (a + b)[1..] == a[1..] + b;
      Associates([a[0]], At(a[1..], priority), At(b, priority));
    }
  }

  lemma {:induction false} StaleAt(entries: seq<Rule>, table: int, needed: Option<Uplink>, kept: bool)
    requires needed.Some? ==> needed.value.table == table
    ensures Stale(entries, table, needed, kept) == Stale(At(entries, table), table, needed, kept)
    ensures At(Stale(entries, table, needed, kept), table) == Stale(entries, table, needed, kept)
    ensures forall r :: r in Stale(entries, table, needed, kept) ==> r in entries && r.priority == table
    ensures needed.None? || kept ==> Stale(entries, table, needed, kept) == At(entries, table)
  {
    if entries != [] {
      var rest := entries[1..];
      StaleAt(rest, table, needed, kept);
      if entries[0].priority == table {
        StaleAt(rest, table, needed, true);
        assert ([entries[0]] + At(rest, table))[1..] == At(rest, table);
        if !(needed.Some? && entries[0] == Exact(needed.value) && !kept) {
          var stale := Stale(rest, table, needed, kept);
          assert ([entries[0]] + stale)[1..] == stale;
        }
      }
    }
  }

  lemma {:induction false} AtNone(rules: seq<Rule>, priority: int)
    requires forall r :: r in rules ==> r.priority != priority
    ensures At(rules, priority) == []
  {
    if At(rules, priority) != [] {
      assert At(rules, priority)[0] in At(rules, priority);
    }
  }

  lemma {:induction false} DeletesListed(entries: seq<Rule>, wanted: seq<Uplink>, tables: seq<int>)
    ensures forall r :: r in PlannedDeletes(entries, wanted, tables) ==> r in entries && r.priority in tables
  {
    if tables != [] {
      DeletesListed(entries, wanted, tables[1..]);
      StaleAt(entries, tables[0], ByTable(wanted, tables[0]), false);
    }
  }

  lemma {:induction false} DeletesAt(entries: seq<Rule>, wanted: seq<Uplink>, tables: seq<int>, table: int)
    requires NoDuplicates(tables)
    ensures At(PlannedDeletes(entries, wanted, tables), table)
         == if table in tables then Stale(entries, table, ByTable(wanted, table), false) else []
  {
    if tables != [] {
      DeletesAt(entries, wanted, tables[1..], table);
      var stale := Stale(entries, tables[0], ByTable(wanted, tables[0]), false);
      StaleAt(entries, tables[0], ByTable(wanted, tables[0]), false);
      AtAppend(stale, PlannedDeletes(entries, wanted, tables[1..]), table);
      if tables[0] != table {
        AtNone(stale, table);
      }
    }
  }

  lemma {:induction false} AddsAt(entries: seq<Rule>, wanted: seq<Uplink>, tables: seq<int>, table: int)
    requires NoDuplicates(tables)
    ensures RulesAt(PlannedAdds(entries, wanted, tables), table)
         == var needed := ByTable(wanted, table);
            if table in tables && needed.Some? && Exact(needed.value) !in entries then [Exact(needed.value)] else []
    ensures forall u :: u in PlannedAdds(entries, wanted, tables) ==> u in wanted && u.table in tables
  {
    if tables != [] {
      AddsAt(entries, wanted, tables[1..], table);
      var needed := ByTable(wanted, tables[0]);
      var rest := PlannedAdds(entries, wanted, tables[1..]);
      if needed.Some? && Exact(needed.value) !in entries {
        assert ([needed.value] + rest)[1..] == rest;
      } else {
        assert [] + rest == rest;
      }
    }
  }

  lemma SlotTablesDistinct()
    ensures NoDuplicates(SLOT_TABLES) && forall t :: IsSlotTable(t) <==> t in SLOT_TABLES
  {
    forall t ensures IsSlotTable(t) <==> t in SLOT_TABLES {
      SlotsListed(Uplink(0, t, 0));
    }
    SortedDistinct(SLOT_TABLES);
  }

  lemma {:induction false} SortedDistinct(tables: seq<int>)
    requires forall i, j :: 0 <= i < j < |tables| ==> tables[i] < tables[j]
    ensures NoDuplicates(tables)
  {
    if tables != [] {
      SortedDistinct(tables[1..]);
    }
  }

  // ---- deletes in listing order --------------------------------------------------------------------

  /** The one rule that is left when `y` heads its slot and the selectors of all rules behind it ran. */
  function Survivor(y: Rule, behind: seq<Rule>): Rule
    decreases behind
  {
    if behind == [] then y else Survivor(if Hits(behind[0], y) then behind[0] else y, behind[1..])
  }

  /** A rule with fewer attributes than `exact`, listed behind it: its selector will hit `exact` first. */
  predicate Overtaken(entries: seq<Rule>, exact: Rule) {
    entries != []
    && if entries[0] == exact then exists r :: r in entries[1..] && r != exact && Hits(r, exact)
       else Overtaken(entries[1..], exact)
  }

  /** Selectors run in listing order each take their own rule while nothing kept stands before it. */
  lemma {:induction false} DeleteOwn(own: seq<Rule>, tail: seq<Rule>, ran: nat)
    requires ran <= |own|
    ensures DeleteAll(own + tail, own[..ran]) == own[ran..] + tail
    decreases ran
  {
    if ran > 0 {
      assert own[..ran][0] == own[0] && own[..ran][1..] == own[1..][..ran - 1];
      assert (own + tail)[1..] == own[1..] + tail;
      DeleteOwn(own[1..], tail, ran - 1);
    } else {
      assert own[..0] == [];
    }
  }

  lemma {:induction false} DeleteBehind(y: Rule, behind: seq<Rule>, ran: nat)
    requires ran <= |behind|
    ensures DeleteAll([y] + behind, behind[..ran]) == [Survivor(y, behind[..ran])] + behind[ran..]
    decreases ran
  {
    if ran > 0 {
      var b, rest := behind[0], behind[1..];
      assert behind[..ran][0] == b && behind[..ran][1..] == rest[..ran - 1];
      assert ([y] + behind)[1..] == behind == [b] + rest;
      assert DeleteFirst(behind, b) == rest;
      var next := if Hits(b, y) then b else y;
      assert DeleteFirst([y] + behind, b) == [next] + rest;
      DeleteBehind(next, rest, ran - 1);
    } else {
      assert behind[..0] == [];
    }
  }

  /** Once the head was lost to a rule with fewer attributes, no later delete brings it back. */
  lemma {:induction false} SurvivorIsExact(exact: Rule, y: Rule, behind: seq<Rule>)
    requires exact.fwmark.Some? && exact.table.Some?
    requires y == exact || (Hits(y, exact) && y != exact)
    ensures Survivor(y, behind) == exact
            <==> y == exact && forall r :: r in behind && Hits(r, exact) ==> r == exact
    decreases behind
  {
    if behind != [] {
      var next := if Hits(behind[0], y) then behind[0] else y;
      SurvivorIsExact(exact, next, behind[1..]);
      assert behind == [behind[0]] + behind[1..];
    }
  }

  // ---- the plan carried out ------------------------------------------------------------------------

  /** The rules of the host after all adds and the first `ran` deletes of the plan. */
  ghost function Planned(rules: seq<Rule>, wanted: seq<Uplink>, ran: nat): seq<Rule>
    requires ran <= |PlannedDeletes(rules, wanted, SLOT_TABLES)|
  {
    DeleteAll(InsertAll(rules, PlannedAdds(rules, wanted, SLOT_TABLES)), PlannedDeletes(rules, wanted, SLOT_TABLES)[..ran])
  }

  lemma {:induction false} AtPrefix(rules: seq<Rule>, ran: nat, priority: int) returns (done: nat)
    requires ran <= |rules|
    ensures done <= |At(rules, priority)| && At(rules[..ran], priority) == At(rules, priority)[..done]
    ensures ran == |rules| ==> done == |At(rules, priority)|
  {
    assert rules == rules[..ran] + rules[ran..];
    AtAppend(rules[..ran], rules[ran..], priority);
    done := |At(rules[..ran], priority)|;
    if ran == |rules| {
      assert rules[..ran] == rules;
    }
  }

  /** What a slot holds once the adds ran. */
  function Added(at: seq<Rule>, needed: Option<Uplink>): seq<Rule> {
    at + (if needed.Some? && Exact(needed.value) !in at then [Exact(needed.value)] else [])
  }

  /** One slot, seen apart from the others: its adds ran, and the first `done` of its own deletes. */
  lemma PlannedSlot(rules: seq<Rule>, wanted: seq<Uplink>, ran: nat, table: int) returns (done: nat)
    requires Sorted(rules) && IsSlotTable(table)
    requires ran <= |PlannedDeletes(rules, wanted, SLOT_TABLES)|
    ensures done <= |Stale(At(rules, table), table, ByTable(wanted, table), false)|
    ensures ran == |PlannedDeletes(rules, wanted, SLOT_TABLES)| ==>
              done == |Stale(At(rules, table), table, ByTable(wanted, table), false)|
    ensures At(Planned(rules, wanted, ran), table)
         == DeleteAll(Added(At(rules, table), ByTable(wanted, table)),
                      Stale(At(rules, table), table, ByTable(wanted, table), false)[..done])
    ensures Foreign(Planned(rules, wanted, ran)) == Foreign(rules)
  {
    var tables := SLOT_TABLES;
    SlotTablesDistinct();
    var deletes, adds := PlannedDeletes(rules, wanted, tables), PlannedAdds(rules, wanted, tables);
    DeletesListed(rules, wanted, tables);
    DeletesAt(rules, wanted, tables, table);
    AddsAt(rules, wanted, tables, table);
    StaleAt(rules, table, ByTable(wanted, table), false);
    InsertAllAt(rules, adds, table);
    InsertAllForeign(rules, adds);
    assert At(InsertAll(rules, adds), table) == Added(At(rules, table), ByTable(wanted, table));
    done := AtPrefix(deletes, ran, table);
    DeleteAllAt(InsertAll(rules, adds), deletes[..ran], table);
  }

  /** The first exact rule splits a slot: all before it and all behind it is stale. */
  lemma {:induction false} StaleSplit(entries: seq<Rule>, uplink: Uplink) returns (before: seq<Rule>, behind: seq<Rule>)
    requires forall r :: r in entries ==> r.priority == uplink.table
    requires Exact(uplink) in entries
    ensures entries == before + [Exact(uplink)] + behind && Exact(uplink) !in before
    ensures Stale(entries, uplink.table, Some(uplink), false) == before + behind
    ensures Overtaken(entries, Exact(uplink)) <==> exists r :: r in behind && r != Exact(uplink) && Hits(r, Exact(uplink))
  {
    if entries[0] == Exact(uplink) {
      before, behind := [], entries[1..];
      StaleAt(behind, uplink.table, Some(uplink), true);
      AtAll(behind, uplink.table);
    } else {
      before, behind := StaleSplit(entries[1..], uplink);
      before := [entries[0]] + before;
    }
  }

  lemma {:induction false} AtAll(entries: seq<Rule>, table: int)
    requires forall r :: r in entries ==> r.priority == table
    ensures At(entries, table) == entries
  {
    if entries != [] {
      AtAll(entries[1..], table);
    }
  }

  lemma {:induction false} StaleAll(entries: seq<Rule>, table: int, needed: Option<Uplink>)
    requires forall r :: r in entries ==> r.priority == table
    requires needed.Some? ==> Exact(needed.value) !in entries
    ensures Stale(entries, table, needed, false) == entries
  {
    if entries != [] {
      StaleAll(entries[1..], table, needed);
    }
  }

  lemma {:induction false} OvertakenAt(entries: seq<Rule>, exact: Rule)
    ensures Overtaken(entries, exact) <==> Overtaken(At(entries, exact.priority), exact)
    ensures exact !in entries ==> !Overtaken(entries, exact)
  {
    if entries != [] {
      OvertakenAt(entries[1..], exact);
      if entries[0].priority == exact.priority {
        var at := At(entries[1..], exact.priority);
        assert ([entries[0]] + at)[1..] == at;
      }
    }
  }

  /** What is left of a wanted slot after any number of its deletes, when its rule was just added. */
  lemma AddedSlot(at: seq<Rule>, uplink: Uplink, done: nat)
    requires forall r :: r in at ==> r.priority == uplink.table
    requires Exact(uplink) !in at && done <= |Stale(at, uplink.table, Some(uplink), false)|
    ensures var left := DeleteAll(Added(at, Some(uplink)), Stale(at, uplink.table, Some(uplink), false)[..done]);
            && Exact(uplink) in left
            && (done == |Stale(at, uplink.table, Some(uplink), false)| ==> left == [Exact(uplink)])
  {
    StaleAll(at, uplink.table, Some(uplink));
    DeleteOwn(at, [Exact(uplink)], done);
    assert (at[done..] + [Exact(uplink)])[|at| - done] == Exact(uplink);
  }

  lemma {:induction false} DeleteAllAppend(rules: seq<Rule>, a: seq<Rule>, b: seq<Rule>)
    ensures DeleteAll(rules, a + b) == DeleteAll(DeleteAll(rules, a), b)
    decreases a
  {
    if a == [] {
      assert a + b == b;
    } else {
      assert (a + b)[1..] == a[1..] + b;
      DeleteAllAppend(DeleteFirst(rules, a[0]), a[1..], b);
    }
  }

  /** The same, when its rule was listed already with `before` ahead of it and `behind` after it. */
  lemma KeptSlot(before: seq<Rule>, x: Rule, behind: seq<Rule>, done: nat)
    requires done <= |before + behind|
    ensures var left := DeleteAll(before + ([x] + behind), (before + behind)[..done]);
            if done <= |before| then left == before[done..] + ([x] + behind)
            else left == [Survivor(x, behind[..done - |before|])] + behind[done - |before|..]
  {
    if done <= |before| {
      assert (before + behind)[..done] == before[..done];
      DeleteOwn(before, [x] + behind, done);
    } else {
      var m := done - |before|;
      assert (before + behind)[..done] == before + behind[..m] && before[..|before|] == before;
      DeleteAllAppend(before + ([x] + behind), before, behind[..m]);
      DeleteOwn(before, [x] + behind, |before|);
      assert before[|before|..] + ([x] + behind) == [x] + behind;
      DeleteBehind(x, behind, m);
    }
  }

  lemma KeptUnlessOvertaken(at: seq<Rule>, uplink: Uplink, done: nat)
    requires forall r :: r in at ==> r.priority == uplink.table
    requires Exact(uplink) in at && done <= |Stale(at, uplink.table, Some(uplink), false)|
    ensures var left := DeleteAll(at, Stale(at, uplink.table, Some(uplink), false)[..done]);
            && (!Overtaken(at, Exact(uplink)) ==> Exact(uplink) in left)
            && (done == |Stale(at, uplink.table, Some(uplink), false)| ==>
                  |left| == 1 && (left == [Exact(uplink)] <==> !Overtaken(at, Exact(uplink))))
  {
    var x := Exact(uplink);
    assert x.fwmark.Some? && x.table.Some?;
    hide *;
    var before, behind := StaleSplit(at, uplink);
    Associates(before, [x], behind);
    KeptSplit(before, x, behind, done, Overtaken(at, x));
  }

  lemma KeptSplit(before: seq<Rule>, x: Rule, behind: seq<Rule>, done: nat, overtaken: bool)
    requires x.fwmark.Some? && x.table.Some? && done <= |before + behind|
    requires overtaken <==> exists r :: r in behind && r != x && Hits(r, x)
    ensures var left := DeleteAll(before + ([x] + behind), (before + behind)[..done]);
            && (!overtaken ==> x in left)
            && (done == |before + behind| ==> |left| == 1 && (left == [x] <==> !overtaken))
  {
    hide *;
    KeptSlot(before, x, behind, done);
    KeptIsExact(before, x, behind, done);
  }

  lemma KeptIsExact(before: seq<Rule>, x: Rule, behind: seq<Rule>, done: nat)
    requires x.fwmark.Some? && x.table.Some? && done <= |before + behind|
    ensures var overtaken := exists r :: r in behind && r != x && Hits(r, x);
            var left := if done <= |before| then before[done..] + ([x] + behind)
                        else [Survivor(x, behind[..done - |before|])] + behind[done - |before|..];
            && (!overtaken ==> x in left)
            && (done == |before + behind| ==> |left| == 1 && (left == [x] <==> !overtaken))
  {
    if done <= |before| {
      assert (before[done..] + ([x] + behind))[|before| - done] == x;
      assert done == |before + behind| ==> before[done..] == [] && behind == [];
    } else {
      var m := done - |before|;
      SurvivorIsExact(x, x, behind[..m]);
      assert forall r :: r in behind[..m] ==> r in behind;
      assert ([Survivor(x, behind[..m])] + behind[m..])[0] == Survivor(x, behind[..m]);
      if done == |before + behind| {
        assert behind[..m] == behind && behind[m..] == [];
      }
    }
  }

  /** Adding first and deleting last: in every state between the adds and the last delete a wanted uplink has
      its rule, unless a rule with fewer attributes is listed behind it. */
  lemma WantedSlot(rules: seq<Rule>, wanted: seq<Uplink>, ran: nat, uplink: Uplink)
    requires Sorted(rules) && IsSlotTable(uplink.table) && ByTable(wanted, uplink.table) == Some(uplink)
    requires ran <= |PlannedDeletes(rules, wanted, SLOT_TABLES)|
    ensures !Overtaken(rules, Exact(uplink)) ==> Exact(uplink) in Planned(rules, wanted, ran)
    ensures ran == |PlannedDeletes(rules, wanted, SLOT_TABLES)| ==>
              |At(Planned(rules, wanted, ran), uplink.table)| == 1
              && (At(Planned(rules, wanted, ran), uplink.table) == [Exact(uplink)] <==> !Overtaken(rules, Exact(uplink)))
  {
    var done := PlannedSlot(rules, wanted, ran, uplink.table);
    OvertakenAt(rules, Exact(uplink));
    OvertakenAt(At(rules, uplink.table), Exact(uplink));
    if Exact(uplink) in rules {
      assert Added(At(rules, uplink.table), Some(uplink)) == At(rules, uplink.table);
      KeptUnlessOvertaken(At(rules, uplink.table), uplink, done);
    } else {
      AddedSlot(At(rules, uplink.table), uplink, done);
    }
  }

  /** `plan_rules` converges: after its adds and its deletes nothing is left at a slot nobody wants, a
      wanted slot has one rule, every other rule stands where it stood, and the one rule is the exact one
      unless a rule with fewer attributes was listed behind it: exactly then the delete meant for that
      rule took the exact one. */
  lemma PlanConverges(rules: seq<Rule>, wanted: seq<Uplink>, table: int)
    requires Sorted(rules) && IsSlotTable(table)
    ensures var after := Planned(rules, wanted, |PlannedDeletes(rules, wanted, SLOT_TABLES)|);
            && Foreign(after) == Foreign(rules)
            && match ByTable(wanted, table) {
                 case None => At(after, table) == []
                 case Some(uplink) =>
                   && |At(after, table)| == 1
                   && (At(after, table) == [Exact(uplink)] <==> !Overtaken(rules, Exact(uplink)))
               }
  {
    var all := |PlannedDeletes(rules, wanted, SLOT_TABLES)|;
    var done := PlannedSlot(rules, wanted, all, table);
    match ByTable(wanted, table) {
      case None =>
        var at := At(rules, table);
        StaleAt(rules, table, None, false);
        StaleAt(at, table, None, false);
        assert Added(at, None) == at + [] && at[..done] == at;
        DeleteOwn(at, [], done);
      case Some(uplink) =>
        WantedSlot(rules, wanted, all, uplink);
    }
  }

  /** Planned again, a host that converged needs nothing: no delete and no add. */
  lemma {:induction false} ReplanIsEmpty(after: seq<Rule>, wanted: seq<Uplink>, tables: seq<int>)
    requires forall t :: t in tables ==>
               match ByTable(wanted, t) {
                 case None => At(after, t) == []
                 case Some(uplink) => At(after, t) == [Exact(uplink)]
               }
    ensures PlannedDeletes(after, wanted, tables) == [] && PlannedAdds(after, wanted, tables) == []
  {
    if tables != [] {
      ReplanIsEmpty(after, wanted, tables[1..]);
      var needed := ByTable(wanted, tables[0]);
      StaleAt(after, tables[0], needed, false);
      if needed.Some? {
        assert Exact(needed.value) in At(after, tables[0]);
      }
    }
  }

  /** A listing the plan fails on: an owner's rule without attributes behind the rule of uplink vps. */
  lemma PartialRuleTakesTheExactOne()
    ensures var rules := [Exact(VPS), Rule(7710, None, None)];
            Exact(VPS) !in Planned(rules, [VPS], |PlannedDeletes(rules, [VPS], SLOT_TABLES)|)
  {
    var owner := Rule(7710, None, None);
    var rules := [Exact(VPS), owner];
    assert rules[1..] == [owner] && rules[1..][1..] == [];
    assert owner in rules[1..] && Hits(owner, Exact(VPS));
    assert ByTable([VPS], 7710) == Some(VPS);
    PlanConverges(rules, [VPS], 7710);
  }

  // ---- what stays true of a listing whatever command runs ------------------------------------------

  lemma {:induction false} InsertOvertakesNothing(rules: seq<Rule>, rule: Rule, exact: Rule)
    requires Sorted(rules) && !Overtaken(rules, exact)
    requires rule.priority == exact.priority ==> rule == exact
    ensures !Overtaken(Insert(rules, rule), exact)
  {
    if rules != [] {
      if rules[0].priority > rule.priority {
        assert ([rule] + rules)[1..] == rules;
      } else {
        if rules[0] == exact {
          NoneBehind(rules[1..], exact);
        }
        InsertOvertakesNothing(rules[1..], rule, exact);
        InsertKeepsRules(rules[1..], rule);
        var rest := Insert(rules[1..], rule);
        assert ([rules[0]] + rest)[1..] == rest;
        forall r | r in rest ensures r in rules[1..] || r == rule {
          assert r in multiset(rest);
        }
      }
    }
  }

  lemma {:induction false} DeleteOvertakesNothing(rules: seq<Rule>, selector: Rule, exact: Rule)
    requires !Overtaken(rules, exact)
    ensures !Overtaken(DeleteFirst(rules, selector), exact)
  {
    if rules != [] {
      if rules[0] == exact {
        NoneBehind(rules[1..], exact);
      }
      if !Hits(selector, rules[0]) {
        DeleteOvertakesNothing(rules[1..], selector, exact);
        DeleteKeepsRules(rules[1..], selector);
        var rest := DeleteFirst(rules[1..], selector);
        assert ([rules[0]] + rest)[1..] == rest;
      }
    }
  }

  lemma {:induction false} NoneBehind(rules: seq<Rule>, exact: Rule)
    requires forall r :: r in rules && Hits(r, exact) ==> r == exact
    ensures !Overtaken(rules, exact)
  {
    if rules != [] {
      NoneBehind(rules[1..], exact);
    }
  }
}
