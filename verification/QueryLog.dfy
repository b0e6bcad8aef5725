/** AdGuard's query log behind a cursor (core/vibedpn/engine/querylog.py; core/vibedpn/api/smart.py,
    `_new_records`). */
module QueryLogs {
  import opened Options
  import opened Names
  import opened Commands
  import opened Learning

  const PAGE_LIMIT := 200
  const OLDER_PAGES := 5

  /** The time as AdGuard wrote it: the microseconds, and the nanoseconds behind them. */
  datatype Stamp = Stamp(micros: int, nanos: nat)
  {
    predicate Older(other: Stamp) { micros < other.micros || (micros == other.micros && nanos < other.nanos) }
  }

  datatype Record = Record(event: Event, stamp: Stamp)
  {
    function Time(): int { event.time }
  }

  type Records = seq<Record>

  /** `parse_time`: to the microsecond, the rest is cut off. */
  function ParseTime(stamp: Stamp): int { stamp.micros }

  function Max(a: int, b: int): int { if a < b then b else a }

  // ---- the log -------------------------------------------------------------------------------------

  /** Oldest first, no two records in the same microsecond. */
  predicate Increasing(log: Records) {
    forall i, j :: 0 <= i < j < |log| ==> log[i].Time() < log[j].Time()
  }

  /** `parse_page`. */
  predicate Parsed(log: Records) {
    forall i :: 0 <= i < |log| ==> log[i].Time() == ParseTime(log[i].stamp)
  }

  type Log = log: Records | Increasing(log) && Parsed(log)

  /** Oldest first; records may share a microsecond. */
  predicate NonDecreasing(log: Records) {
    forall i, j :: 0 <= i < j < |log| ==> log[i].Time() <= log[j].Time()
  }

  /** The log as AdGuard writes it: by the nanosecond, so several records may share a microsecond. */
  ghost predicate Written(log: Records) {
    Parsed(log) && forall i, j :: 0 <= i < j < |log| ==> log[i].stamp.Older(log[j].stamp)
  }

  function Reversed(s: Records): (r: Records)
    ensures |r| == |s|
    ensures forall i :: 0 <= i < |s| ==> r[i] == s[|s| - 1 - i]
  {
    seq(|s|, i requires 0 <= i < |s| => s[|s| - 1 - i])
  }

  /** How many leading records were written before `stamp`. */
  function Before(log: Records, stamp: Stamp): (count: nat)
    ensures count <= |log|
  {
    if log == [] || !log[0].stamp.Older(stamp) then 0 else 1 + Before(log[1..], stamp)
  }

  /** How many leading records are not after `time`. */
  function Upto(log: Records, time: int): (count: nat)
    ensures count <= |log|
    ensures forall i :: 0 <= i < count ==> log[i].Time() <= time
    ensures count < |log| ==> log[count].Time() > time
  {
    if log == [] || log[0].Time() > time then 0 else 1 + Upto(log[1..], time)
  }

  /** A page: the newest records older than the given one, newest first. */
  function Page(log: Records, olderThan: Option<Stamp>): Records {
    var end := if olderThan.None? then |log| else Before(log, olderThan.value);
    Reversed(log[Max(0, end - PAGE_LIMIT)..end])
  }

  // ---- `newer_than` --------------------------------------------------------------------------------

  function Newer(records: Records, time: int): Records {
    if records == [] then []
    else (if records[0].Time() > time then [records[0]] else []) + Newer(records[1..], time)
  }

  function InsertByTime(record: Record, sorted: Records): Records {
    if sorted == [] || record.Time() <= sorted[0].Time() then [record] + sorted
    else [sorted[0]] + InsertByTime(record, sorted[1..])
  }

  /** `sorted(..., key=time)`, which keeps the order of equal times. */
  function SortByTime(records: Records): Records {
    if records == [] then [] else InsertByTime(records[0], SortByTime(records[1..]))
  }

  function LastHandled(cursor: Option<Stamp>): Option<int> {
    if cursor.None? then None else Some(ParseTime(cursor.value))
  }

  /** `newer_than`, its cursor parsed. */
  function NewerThan(records: Records, last: Option<int>): Records {
    SortByTime(if last.None? then records else Newer(records, last.value))
  }

  lemma {:induction false} InsertNewest(record: Record, sorted: Records)
    requires forall i :: 0 <= i < |sorted| ==> sorted[i].Time() < record.Time()
    ensures InsertByTime(record, sorted) == sorted + [record]
  {
    if sorted != [] {
      InsertNewest(record, sorted[1..]);
      assert sorted == [sorted[0]] + sorted[1..];
    }
  }

  lemma {:induction false} SortReverses(log: Records)
    requires Increasing(log)
    ensures SortByTime(Reversed(log)) == log
  {
    if log != [] {
      var init := log[..|log| - 1];
      SortReverses(init);
      assert Reversed(log)[1..] == Reversed(init);
      InsertNewest(log[|log| - 1], init);
      assert log == init + [log[|log| - 1]];
    }
  }

  lemma {:induction false} UptoIs(log: Records, time: int, count: nat)
    requires count <= |log|
    requires forall i :: 0 <= i < count ==> log[i].Time() <= time
    requires count < |log| ==> log[count].Time() > time
    ensures Upto(log, time) == count
  {
    if count > 0 {
      UptoIs(log[1..], time, count - 1);
    }
  }

  lemma ReversedAppend(a: Records, b: Records)
    ensures Reversed(a + b) == Reversed(b) + Reversed(a)
  {
  }

  lemma {:induction false} NewerReversed(log: Records, time: int)
    requires NonDecreasing(log)
    ensures Newer(Reversed(log), time) == Reversed(log[Upto(log, time)..])
  {
    if log == [] {
      assert Reversed(log) == [];
    } else {
      hide *;
      var init, last, count := log[..|log| - 1], log[|log| - 1], Upto(log, time);
      NonDecreasingInit(log);
      NewerReversed(init, time);
      SliceLast(log, 0);
      NewerFirst(last, Reversed(init), time);
      UptoLast(log, time);
      if count < |log| {
        SliceLast(log, count);
      } else {
        assert init[|init|..] == [] && log[|log|..] == [];
      }
    }
  }

  lemma NonDecreasingInit(log: Records)
    requires NonDecreasing(log) && log != []
    ensures NonDecreasing(log[..|log| - 1])
  {
  }

  lemma NewerFirst(first: Record, rest: Records, time: int)
    ensures Newer([first] + rest, time) == (if first.Time() > time then [first] else []) + Newer(rest, time)
  {
    assert ([first] + rest)[1..] == rest;
  }

  lemma SliceLast(log: Records, count: nat)
    requires count < |log|
    ensures Reversed(log[count..]) == [log[|log| - 1]] + Reversed(log[..|log| - 1][count..])
  {
    assert log[count..] == log[..|log| - 1][count..] + [log[|log| - 1]];
  }

  lemma UptoLast(log: Records, time: int)
    requires NonDecreasing(log) && log != []
    ensures var last := log[|log| - 1];
            && (last.Time() > time <==> Upto(log, time) < |log|)
            && Upto(log[..|log| - 1], time) == if last.Time() > time then Upto(log, time) else |log| - 1
  {
    var init, count := log[..|log| - 1], Upto(log, time);
    if count == |log| {
      UptoIs(init, time, |init|);
    } else {
      UptoIs(init, time, count);
      assert log[count].Time() <= log[|log| - 1].Time();
    }
  }

  /** What a fetched stretch of the log holds after the cursor, in time order. */
  lemma NewerThanIsSuffix(log: Records, last: Option<int>)
    requires Increasing(log)
    ensures NewerThan(Reversed(log), last) == if last.None? then log else log[Upto(log, last.value)..]
  {
    SortReverses(log);
    if last.Some? {
      var time := last.value;
      NewerReversed(log, time);
      SortReverses(log[Upto(log, time)..]);
    }
  }

  // ---- records that share a microsecond -----------------------------------------------------------

  lemma {:induction false} InsertKeeps(record: Record, sorted: Records)
    ensures forall r :: r in InsertByTime(record, sorted) <==> r == record || r in sorted
  {
    if sorted != [] {
      InsertKeeps(record, sorted[1..]);
      assert forall r :: r in sorted <==> r == sorted[0] || r in sorted[1..];
    }
  }

  lemma {:induction false} SortKeeps(records: Records)
    ensures forall r :: r in SortByTime(records) <==> r in records
  {
    if records != [] {
      SortKeeps(records[1..]);
      InsertKeeps(records[0], SortByTime(records[1..]));
      assert forall r :: r in records <==> r == records[0] || r in records[1..];
    }
  }

  lemma {:induction false} NewerKeeps(records: Records, time: int)
    ensures forall r :: r in Newer(records, time) <==> r in records && r.Time() > time
  {
    if records != [] {
      NewerKeeps(records[1..], time);
      assert forall r :: r in records <==> r == records[0] || r in records[1..];
    }
  }

  lemma WrittenInOrder(log: Records)
    requires Written(log)
    ensures NonDecreasing(log)
  {
    forall i, j | 0 <= i < j < |log| ensures log[i].Time() <= log[j].Time() {
      assert log[i].stamp.Older(log[j].stamp);
    }
  }

  /** Behind the cursor at record k - 1 a fetched stretch hands out exactly the records that do not share its
      microsecond; the others are never handed out again. */
  lemma HandedOutIff(log: Records, start: nat, k: nat, i: nat)
    requires Written(log) && start < k <= i < |log|
    ensures log[i] in NewerThan(Reversed(log[start..]), LastHandled(Some(log[k - 1].stamp))) <==>
              log[i].Time() != log[k - 1].Time()
  {
    var page, time := Reversed(log[start..]), log[k - 1].Time();
    WrittenInOrder(log);
    NewerKeeps(page, time);
    SortKeeps(Newer(page, time));
    assert log[start..][i - start] == log[i];
    assert page[|page| - 1 - (i - start)] == log[i];
  }

  /** Every record behind the cursor is handed out exactly when none of them shares its microsecond. */
  lemma NothingLostIff(log: Records, start: nat, k: nat)
    requires Written(log) && start < k <= |log|
    ensures (forall i :: k <= i < |log| ==> log[i] in NewerThan(Reversed(log[start..]), LastHandled(Some(log[k - 1].stamp))))
       <==> forall i :: k <= i < |log| ==> log[i].Time() != log[k - 1].Time()
  {
    forall i | k <= i < |log|
      ensures log[i] in NewerThan(Reversed(log[start..]), LastHandled(Some(log[k - 1].stamp))) <==>
                log[i].Time() != log[k - 1].Time()
    {
      HandedOutIff(log, start, k, i);
    }
  }

  /** By time; of two records in one microsecond the newer one first. */
  ghost predicate TiesReversed(records: Records) {
    forall i, j :: 0 <= i < j < |records| ==> Follows(records[i], records[j])
  }

  predicate Follows(a: Record, b: Record) {
    a.Time() < b.Time() || (a.Time() == b.Time() && b.stamp.Older(a.stamp))
  }

  lemma {:induction false} InsertTiesReversed(record: Record, sorted: Records)
    requires TiesReversed(sorted) && forall r :: r in sorted ==> r.stamp.Older(record.stamp)
    ensures TiesReversed(InsertByTime(record, sorted))
  {
    if sorted == [] {
    } else if record.Time() <= sorted[0].Time() {
      forall j | 0 <= j < |sorted| ensures Follows(record, sorted[j]) {
        assert sorted[j] in sorted && (j > 0 ==> Follows(sorted[0], sorted[j]));
      }
    } else {
      assert sorted[0] in sorted;
      InsertTiesReversed(record, sorted[1..]);
      InsertKeeps(record, sorted[1..]);
      var rest := InsertByTime(record, sorted[1..]);
      forall j | 0 <= j < |rest| ensures Follows(sorted[0], rest[j]) {
        assert rest[j] in rest;
        if rest[j] != record {
          var i :| 0 <= i < |sorted[1..]| && sorted[1..][i] == rest[j];
          assert Follows(sorted[0], sorted[i + 1]);
        }
      }
    }
  }

  lemma {:induction false} SortTiesReversed(log: Records)
    requires Written(log)
    ensures TiesReversed(SortByTime(Reversed(log)))
  {
    if log != [] {
      var init, last := log[..|log| - 1], log[|log| - 1];
      assert Reversed(log)[1..] == Reversed(init);
      SortTiesReversed(init);
      SortKeeps(Reversed(init));
      forall r | r in SortByTime(Reversed(init)) ensures r.stamp.Older(last.stamp) {
        var i :| 0 <= i < |Reversed(init)| && Reversed(init)[i] == r;
        assert r == log[|init| - 1 - i];
      }
      InsertTiesReversed(last, SortByTime(Reversed(init)));
    }
  }

  lemma SortedBothWays(log: Records)
    requires Written(log) && TiesReversed(log)
    ensures Increasing(log)
  {
    forall i, j | 0 <= i < j < |log| ensures log[i].Time() < log[j].Time() {
      assert log[i].stamp.Older(log[j].stamp) && Follows(log[i], log[j]);
    }
  }

  /** The records behind a cursor are handed out by time, those of one microsecond newest first; so they come in the order
      of the log exactly when no two of them share a microsecond. */
  lemma TimeOrderIff(log: Records, last: Option<int>)
    requires Written(log)
    ensures TiesReversed(NewerThan(Reversed(log), last))
    ensures NewerThan(Reversed(log), last) == Behind(log, last) <==> Increasing(Behind(log, last))
  {
    hide Increasing, TiesReversed;
    var due := Behind(log, last);
    WrittenInOrder(log);
    if last.Some? {
      NewerReversed(log, last.value);
      WrittenBehind(log, Upto(log, last.value));
    }
    SortTiesReversed(due);
    if Increasing(due) {
      SortReverses(due);
    } else if SortByTime(Reversed(due)) == due {
      SortedBothWays(due);
    }
  }

  /** The stretch of the log after a time. */
  function Behind(log: Records, last: Option<int>): Records {
    if last.None? then log else log[Upto(log, last.value)..]
  }

  lemma WrittenBehind(log: Records, start: nat)
    requires Written(log) && start <= |log|
    ensures Written(log[start..])
  {
    assert forall i :: 0 <= i < |log| - start ==> log[start..][i] == log[start + i];
  }

  /** It happens: behind the first of two records of one microsecond the second is lost; behind an earlier cursor both are
      handed out, the second first. */
  lemma OneMicrosecond(first: Record, second: Record, earlier: Stamp)
    requires Written([first, second]) && ParseTime(first.stamp) == ParseTime(second.stamp)
               && ParseTime(earlier) < ParseTime(first.stamp)
    ensures NewerThan([second, first], LastHandled(Some(first.stamp))) == []
    ensures NewerThan([second, first], LastHandled(Some(earlier))) == [second, first]
  {
    var page := [second, first];
    assert [first, second][0] == first && [first, second][1] == second;
    assert page[1..] == [first] && [first][1..] == [];
    assert Newer([first], ParseTime(first.stamp)) == [];
    assert Newer(page, ParseTime(first.stamp)) == [];
    assert Newer([first], ParseTime(earlier)) == [first];
    assert Newer(page, ParseTime(earlier)) == page;
    assert SortByTime([first]) == [first];
  }

  // ---- fetching page by page -----------------------------------------------------------------------

  lemma {:induction false} BeforeIs(log: Records, index: nat)
    requires Increasing(log) && Parsed(log) && index < |log|
    ensures Before(log, log[index].stamp) == index
  {
    if index > 0 {
      assert log[0].Time() < log[index].Time();
      BeforeIs(log[1..], index - 1);
    }
  }

  /** The page behind a fetched stretch is the stretch before it, whatever arrived meanwhile. */
  lemma PageBehind(first: Log, log: Log, start: nat)
    requires first <= log && start < |first|
    ensures Reversed(first[start..]) + Page(log, Some(first[start].stamp)) == Reversed(first[Max(0, start - PAGE_LIMIT)..])
  {
    assert first[start] == log[start];
    BeforeIs(log, start);
    var from := Max(0, start - PAGE_LIMIT);
    assert log[from..start] == first[from..start];
    assert first[from..] == first[from..start] + first[start..];
    ReversedAppend(first[from..start], first[start..]);
    assert Before(log, first[start].stamp) == start;
    assert Page(log, Some(first[start].stamp)) == Reversed(log[from..start]);
  }

  /** The log of AdGuard, which grows at any time. */
  /** Records that arrive go behind the others; such as are not later than those are not part of the model. */
  function Grown(log: Log, records: Records): Log {
    if Increasing(log + records) && Parsed(log + records) then log + records else log
  }

  class QueryLog {
    var log: Log
    var refusals: seq<bool>        // which of the coming requests fail

    constructor (refusals: seq<bool>)
      ensures log == [] && this.refusals == refusals
    {
      log, this.refusals := [], refusals;
    }

    /** Devices ask: records arrive, each later than all before. */
    method Arrive(records: Records)
      modifies `log
      ensures old(log) <= log
      ensures log == Grown(old(log), records)
    {
      if Increasing(log + records) && Parsed(log + records) {
        log := log + records;
      }
    }

    /** One page over HTTP: an error, or the page of what the log holds by then. */
    method Fetch(olderThan: Option<Stamp>, arrived: Records) returns (page: Option<Records>)
      modifies this
      ensures old(log) <= log
      ensures log == Grown(old(log), arrived)
      ensures page == if Refused(old(refusals)) then None else Some(Page(log, olderThan))
      ensures refusals == Coming(old(refusals)) && Ran(old(refusals), refusals, page.Some?)
    {
      Arrive(arrived);
      RanOne(refusals);
      page := if Refused(refusals) then None else Some(Page(log, olderThan));
      refusals := Coming(refusals);
    }
  }

  /** How many records so many full pages hold. */
  function Reach(pages: nat): nat {
    if pages == 0 then 0 else Reach(pages - 1) + PAGE_LIMIT
  }

  lemma FivePages()
    ensures Reach(OLDER_PAGES) == 1000
  {
    assert Reach(5) == Reach(3) + 2 * PAGE_LIMIT && Reach(3) == Reach(1) + 2 * PAGE_LIMIT && Reach(1) == PAGE_LIMIT;
  }

  /** What a round may take: everything after the cursor, up to five pages of it; without a cursor one page. */
  function NewRecordsOf(log: Records, last: Option<int>): Records {
    if last.None? then log[Max(0, |log| - PAGE_LIMIT)..]
    else log[Max(Upto(log, last.value), |log| - Reach(OLDER_PAGES))..]
  }

  /** The newest records of the log, fetched as `|fetched|` of them, cut at the cursor. */
  lemma CutAtCursor(log: Records, start: nat, last: Option<int>)
    requires Increasing(log) && start <= |log|
    ensures NewerThan(Reversed(log[start..]), last)
         == if last.None? then log[start..] else log[Max(Upto(log, last.value), start)..]
  {
    NewerThanIsSuffix(log[start..], last);
    if last.Some? {
      UptoSlice(log, last.value, start);
    }
  }

  lemma UptoSlice(log: Records, time: int, start: nat)
    requires Increasing(log) && start <= |log|
    ensures log[start..][Upto(log[start..], time)..] == log[Max(Upto(log, time), start)..]
  {
    hide Upto;
    var count, tail := Max(Upto(log, time), start), log[start..];
    forall i | 0 <= i < |tail| ensures tail[i].Time() <= time <==> i < count - start {
      assert tail[i] == log[start + i];
      OldNotCounted(log, start + i, time);
    }
    hide Increasing;
    UptoIs(tail, time, count - start);
    assert tail[count - start..] == log[count..];
  }

  lemma OneNewer(records: Records, last: int)
    requires records != []
    ensures NewerThan(records[|records| - 1..], Some(last)) != [] <==> records[|records| - 1].Time() > last
  {
    var one := [records[|records| - 1]];
    assert records[|records| - 1..] == one && one[1..] == [];
    assert Newer([], last) == [] && SortByTime([]) == [];
    assert SortByTime(one) == one;
  }

  /** Why the loop may stop: the log ends, the pages are used up, or the oldest one fetched is not new. */
  lemma NothingCut(log: Log, start: nat, pages: nat, last: Option<int>)
    requires start == Max(0, |log| - Reach(pages)) && 1 <= pages <= OLDER_PAGES
    requires last.None? ==> pages == 1
    requires last.Some? && |log| - start >= PAGE_LIMIT && pages < OLDER_PAGES ==>
               log[start].Time() <= last.value
    ensures NewRecordsOf(log, last) == if last.None? then log[start..] else log[Max(Upto(log, last.value), start)..]
  {
    hide Reach, Upto, Increasing, Parsed;
    ReachGrows(1, pages);
    ReachGrows(pages, OLDER_PAGES);
    OnePage();
    if last.Some? && start > 0 && pages < OLDER_PAGES {
      OldNotCounted(log, start, last.value);
    }
  }

  lemma OnePage()
    ensures Reach(1) == PAGE_LIMIT
  {
  }

  lemma OldNotCounted(log: Records, index: nat, time: int)
    requires Increasing(log) && index < |log|
    ensures log[index].Time() <= time <==> index < Upto(log, time)
  {
    if Upto(log, time) < index {
      assert log[Upto(log, time)].Time() < log[index].Time();
    }
  }

  lemma NextPage(size: nat, pages: nat)
    ensures Max(0, size - Reach(pages + 1)) == Max(0, Max(0, size - Reach(pages)) - PAGE_LIMIT)
  {
  }

  lemma {:induction false} ReachGrows(a: nat, b: nat)
    requires a <= b
    ensures Reach(a) <= Reach(b)
    decreases b - a
  {
    if a < b {
      ReachGrows(a, b - 1);
    }
  }

  /** What so many pages hold, newest first. */
  function Fetched(log: Records, pages: nat): Records {
    Reversed(log[Max(0, |log| - Reach(pages))..])
  }

  lemma FirstPage(log: Records)
    ensures Page(log, None) == Fetched(log, 1)
  {
    assert Reach(1) == PAGE_LIMIT;
  }

  lemma EverythingNew(first: Log, records: Records, pages: nat, last: Option<int>)
    requires records == Fetched(first, pages) && 1 <= pages <= OLDER_PAGES && (last.None? ==> pages == 1)
    requires last.Some? && |records| >= PAGE_LIMIT && pages < OLDER_PAGES ==> records[|records| - 1].Time() <= last.value
    ensures NewerThan(records, last) == NewRecordsOf(first, last)
  {
    var start := Max(0, |first| - Reach(pages));
    NothingCut(first, start, pages, last);
    CutAtCursor(first, start, last);
  }

  /** A full page whose oldest record is still after the cursor: more is behind it. */
  method More(records: Records, last: Option<int>, pages: nat) returns (more: bool)
    ensures more <==> last.Some? && |records| >= PAGE_LIMIT && pages < OLDER_PAGES && records[|records| - 1].Time() > last.value
  {
    more := last.Some? && |records| >= PAGE_LIMIT && pages < OLDER_PAGES && NewerThan(records[|records| - 1..], last) != [];
    if last.Some? && records != [] {
      OneNewer(records, last.value);
    }
  }

  function Arriving(arrived: seq<Records>, fetch: nat): Records {
    if fetch < |arrived| then arrived[fetch] else []
  }

  method OlderPage(log: QueryLog, records: Records, ghost first: Log, ghost pages: nat, arrived: Records)
    returns (longer: Option<Records>)
    requires first <= log.log && records == Fetched(first, pages) && records != []
    modifies log
    ensures first <= log.log
    ensures longer.Some? ==> longer.value == Fetched(first, pages + 1)
    ensures Ran(old(log.refusals), log.refusals, longer.Some?)
  {
    ghost var start := Max(0, |first| - Reach(pages));
    assert records[|records| - 1] == first[start];
    var page := log.Fetch(Some(records[|records| - 1].stamp), arrived);
    PageBehind(first, log.log, start);
    NextPage(|first|, pages);
    longer := if page.None? then None else Some(records + page.value);
  }

  /** `_new_records`: `log.log` as the first page found it decides; what arrives between two pages neither gets
      lost nor is handed out twice. */
  method NewRecords(log: QueryLog, cursor: Option<Stamp>, arrived: seq<Records>)
    returns (found: Option<Records>, ghost first: Log)
    modifies log
    ensures old(log.log) <= first <= log.log && first == Grown(old(log.log), Arriving(arrived, 0))
    ensures found.Some? ==> found.value == NewRecordsOf(first, LastHandled(cursor))
    // it fails exactly when one of its requests does
    ensures Ran(old(log.refusals), log.refusals, found.Some?)
  {
    var page := log.Fetch(None, Arriving(arrived, 0));
    first := log.log;
    FirstPage(first);
    if page.None? {
      return None, first;
    }
    ghost var left := log.refusals;
    found := FetchOlder(log, page.value, LastHandled(cursor), arrived, first);
    RanOn(old(log.refusals), left, log.refusals, found.Some?);
  }

  method FetchOlder(log: QueryLog, newest: Records, last: Option<int>, arrived: seq<Records>, ghost first: Log)
    returns (found: Option<Records>)
    requires first <= log.log && newest == Fetched(first, 1)
    modifies log
    ensures first <= log.log
    ensures found.Some? ==> found.value == NewRecordsOf(first, last)
    ensures Ran(old(log.refusals), log.refusals, found.Some?)
  {
    RanOne(log.refusals);
    var records, pages := newest, 1;
    var more := More(records, last, pages);
    while more
      invariant more <==> last.Some? && |records| >= PAGE_LIMIT && pages < OLDER_PAGES && records[|records| - 1].Time() > last.value
      invariant 1 <= pages <= OLDER_PAGES && (last.None? ==> pages == 1)
      invariant first <= log.log && records == Fetched(first, pages)
      invariant Ran(old(log.refusals), log.refusals, true)
      decreases OLDER_PAGES - pages
    {
      ghost var left := log.refusals;
      var longer := OlderPage(log, records, first, pages, Arriving(arrived, pages));
      RanOn(old(log.refusals), left, log.refusals, longer.Some?);
      if longer.None? {
        return None;
      }
      records, pages := longer.value, pages + 1;
      more := More(records, last, pages);
    }
    EverythingNew(first, records, pages, last);
    found := Some(NewerThan(records, last));
  }

  // ---- the cursor ----------------------------------------------------------------------------------

  /** Where a reader stands. */
  datatype Position = Position(
    handled: Records,     // the records that went all the way through
    from: nat,            // where in the log they begin
    to: nat,              // behind the last of them
    skipped: bool,        // a backlog was longer than the pages of one round
    pending: Records,     // what the round still has to do
    next: nat,            // where in the log it begins
    seen: Option<int>)    // the time of the record handed on last

  /** The first record of the log the next round may take. */
  function Due(log: Records, cursor: Option<Stamp>, to: nat): nat {
    if cursor.Some? then Max(to, |log| - Reach(OLDER_PAGES)) else Max(0, |log| - PAGE_LIMIT)
  }

  /** The cursor stands behind the last record handled; the records handled are a stretch of the log, none left
      out and none twice, unless a backlog did not fit the pages of one round. */
  ghost predicate ExactlyOnce(log: Records, cursor: Option<Stamp>, at: Position) {
    && (cursor.None? ==> at.handled == [] && !at.skipped)
    && (cursor.Some? ==> 0 < at.to <= |log| && cursor.value == log[at.to - 1].stamp)
    && (cursor.Some? && !at.skipped ==> at.from <= at.to && at.handled == log[at.from..at.to])
  }

  /** What is pending is a stretch of the log behind the cursor, and nothing handed on was later. */
  ghost predicate InTimeOrder(log: Records, cursor: Option<Stamp>, at: Position) {
    && at.next + |at.pending| <= |log| && at.pending == log[at.next..at.next + |at.pending|]
    && (cursor.Some? ==> at.to <= at.next)
    && at.next <= Due(log, cursor, at.to)
    && (at.seen.Some? ==> log != [] && at.seen.value <= log[|log| - 1].Time())
    && (at.seen.Some? ==> forall i :: at.next <= i < |log| ==> at.seen.value <= log[i].Time())
  }

  /** What arrives changes neither what was handled nor what was handed on. */
  lemma LogGrows(before: Log, log: Log, cursor: Option<Stamp>, at: Position)
    requires before <= log && ExactlyOnce(before, cursor, at) && InTimeOrder(before, cursor, at)
    ensures ExactlyOnce(log, cursor, at) && InTimeOrder(log, cursor, at)
    ensures Due(before, cursor, at.to) <= Due(log, cursor, at.to)
  {
    assert cursor.Some? ==> log[at.to - 1] == before[at.to - 1];
    assert cursor.Some? && !at.skipped ==> before[at.from..at.to] == log[at.from..at.to];
    assert before[at.next..at.next + |at.pending|] == log[at.next..at.next + |at.pending|];
    if at.seen.Some? {
      assert before[|before| - 1] == log[|before| - 1];
      forall i | at.next <= i < |log| ensures at.seen.value <= log[i].Time() {
        assert i < |before| ==> log[i] == before[i];
      }
    }
  }

  function TakenAt(at: Position, first: Records, cursor: Option<Stamp>): Position {
    at.(pending := NewRecordsOf(first, LastHandled(cursor)), next := Due(first, cursor, at.to))
  }

  lemma NewRecordsAreDue(log: Log, cursor: Option<Stamp>, at: Position)
    requires ExactlyOnce(log, cursor, at)
    ensures Due(log, cursor, at.to) <= |log|
    ensures NewRecordsOf(log, LastHandled(cursor)) == log[Due(log, cursor, at.to)..]
  {
    if cursor.Some? {
      assert log[at.to - 1].Time() == ParseTime(cursor.value);
      UptoIs(log, log[at.to - 1].Time(), at.to);
    }
  }

  /** Pending may be any stretch of the log from where it stood on, as far as it is due. */
  lemma PendingTaken(log: Log, cursor: Option<Stamp>, at: Position, due: nat, end: nat)
    requires ExactlyOnce(log, cursor, at) && InTimeOrder(log, cursor, at)
    requires at.next <= due <= end <= |log| && due <= Due(log, cursor, at.to)
    ensures ExactlyOnce(log, cursor, at.(pending := log[due..end], next := due))
    ensures InTimeOrder(log, cursor, at.(pending := log[due..end], next := due))
  {
  }

  lemma RoundStarts(first: Log, log: Log, cursor: Option<Stamp>, at: Position)
    requires first <= log && ExactlyOnce(first, cursor, at) && InTimeOrder(first, cursor, at)
    ensures ExactlyOnce(log, cursor, TakenAt(at, first, cursor)) && InTimeOrder(log, cursor, TakenAt(at, first, cursor))
    ensures Due(first, cursor, at.to) + |NewRecordsOf(first, LastHandled(cursor))| == |first|
  {
    NewRecordsAreDue(first, cursor, at);
    LogGrows(first, log, cursor, at);
    var due := Due(first, cursor, at.to);
    assert first[due..] == log[due..|first|];
    PendingTaken(log, cursor, at, due, |first|);
    hide NewRecordsOf, Reach, Upto, Increasing, Parsed, ExactlyOnce, InTimeOrder, Due;
  }

  /** A handled record moves the cursor behind itself; records jumped over are a skip. */
  function Moved(cursor: Option<Stamp>, at: Position): Position
    requires at.pending != []
  {
    Position(at.handled + [at.pending[0]], if cursor.Some? then at.from else at.next, at.next + 1,
             at.skipped || (cursor.Some? && at.to < at.next), at.pending[1..], at.next + 1, at.seen)
  }

  lemma SliceNext(log: Records, from: nat, to: nat)
    requires from <= to < |log|
    ensures log[from..to + 1] == log[from..to] + [log[to]]
    ensures from == to ==> log[from..to + 1] == [log[to]]
  {
  }

  lemma MovesInOrder(log: Log, cursor: Option<Stamp>, at: Position)
    requires InTimeOrder(log, cursor, at) && at.pending != []
    ensures InTimeOrder(log, Some(at.pending[0].stamp), Moved(cursor, at))
  {
    assert at.pending[1..] == log[at.next + 1..at.next + |at.pending|];
  }

  lemma CursorMoves(log: Log, cursor: Option<Stamp>, at: Position)
    requires ExactlyOnce(log, cursor, at) && InTimeOrder(log, cursor, at) && at.pending != []
    ensures ExactlyOnce(log, Some(at.pending[0].stamp), Moved(cursor, at))
    ensures InTimeOrder(log, Some(at.pending[0].stamp), Moved(cursor, at))
  {
    MovesInOrder(log, cursor, at);
    hide Due;
    var index := at.next;
    assert at.pending[0] == log[index];
    if cursor.None? {
      SliceNext(log, index, index);
    } else if !at.skipped && at.to == index {
      SliceNext(log, at.from, index);
    }
  }

  lemma Handed(log: Log, cursor: Option<Stamp>, at: Position)
    requires InTimeOrder(log, cursor, at) && at.pending != []
    ensures InTimeOrder(log, cursor, at.(seen := Some(at.pending[0].Time())))
    ensures at.seen.Some? ==> at.seen.value <= at.pending[0].Time()
  {
    assert at.pending[0] == log[at.next];
  }

  /** The part of `SmartLoop` that reads the log. */
  class LogReader {
    const log: QueryLog
    var cursor: Option<Stamp>
    ghost var at: Position

    ghost predicate Valid()
      reads this, log
    {
      ExactlyOnce(log.log, cursor, at) && InTimeOrder(log.log, cursor, at)
    }

    constructor (log: QueryLog)
      ensures Valid() && this.log == log && cursor == None && at == Position([], 0, 0, false, [], 0, None)
    {
      this.log, cursor, at := log, None, Position([], 0, 0, false, [], 0, None);
    }

    /** The records of a round. Everything in the log that is not handled yet is taken, unless it does not fit. */
    method Fetch(arrived: seq<Records>) returns (found: Option<Records>)
      requires Valid()
      modifies log, `at
      ensures Valid() && old(log.log) <= log.log && Ran(old(log.refusals), log.refusals, found.Some?)
      ensures found.None? ==> at == old(at)
      ensures found.Some? ==> at == old(at).(pending := found.value, next := at.next) && |old(log.log)| <= at.next + |found.value| <= |log.log|
      ensures found.Some? ==>
                var first := Grown(old(log.log), Arriving(arrived, 0));
                found.value == NewRecordsOf(first, LastHandled(cursor)) && at.next + |found.value| == |first|
      ensures found.Some? && cursor.Some? ==> at.to <= at.next
      ensures found.Some? && cursor.Some? ==> at.next == at.to || at.next + |at.pending| - at.to > Reach(OLDER_PAGES)
      ensures found.Some? && cursor.Some? && at.pending == [] ==> at.next == at.to
    {
      ghost var before := log.log;
      ghost var first: Log := [];
      found, first := NewRecords(log, cursor, arrived);
      LogGrows(before, log.log, cursor, at);
      if found.Some? {
        LogGrows(before, first, cursor, at);
        RoundStarts(first, log.log, cursor, at);
        at := TakenAt(at, first, cursor);
      }
    }

    /** The next record goes to the learner. */
    ghost method HandOn(record: Record)
      requires Valid() && at.pending != [] && record == at.pending[0]
      modifies `at
      ensures Valid() && at == old(at).(seen := Some(record.Time()))
      ensures old(at).seen.Some? ==> old(at).seen.value <= record.Time()
    {
      Handed(log.log, cursor, at);
      at := at.(seen := Some(record.Time()));
    }

    /** It went through: the cursor moves behind it. */
    method Done(record: Record)
      requires Valid() && at.pending != [] && record == at.pending[0]
      modifies `cursor, `at
      ensures Valid() && cursor == Some(record.stamp) && at == Moved(old(cursor), old(at))
    {
      CursorMoves(log.log, cursor, at);
      at := Moved(cursor, at);
      cursor := Some(record.stamp);
    }
  }
}
