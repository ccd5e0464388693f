/** The bounded, multi-page, non-snapshot scan of `DynamoOnlineRuntime.records`. */
module CandidateScan {
  import opened Ordering
  import opened OnlinePlan

  /** A scanned item: its canonical record, and whether the stored attributes are the record's own. */
  datatype ScanItem = ScanItem(record: OnlineRecord, intact: bool)

  /** One response: the matching items, and the cursor to go on from. */
  datatype ScanPage = ScanPage(items: seq<ScanItem>, next: Option<Key>)

  datatype ScanError = Repeated | Unexpected | Corrupt | Missing | CursorRepeated | OverBudget

  function Budget(plan: Plan): nat {
    |plan.records| + 2
  }

  /** The records of the first `n` pages, in the order received. */
  function Received(pages: nat -> ScanPage, n: nat): seq<OnlineRecord> {
    if n == 0 then [] else Received(pages, n - 1) + RecordsOf(pages(n - 1).items)
  }

  function RecordsOf(items: seq<ScanItem>): (r: seq<OnlineRecord>)
    ensures |r| == |items| && forall i | 0 <= i < |items| :: r[i] == items[i].record
  {
    seq(|items|, i requires 0 <= i < |items| => items[i].record)
  }

  predicate AllIntact(pages: nat -> ScanPage, n: nat) {
    forall i | 0 <= i < n :: forall item | item in pages(i).items :: item.intact
  }

  /** The scan's first page without a cursor is page `n`. */
  predicate EndsAt(pages: nat -> ScanPage, n: nat) {
    pages(n).next.None? && forall i | 0 <= i < n :: pages(i).next.Some?
  }

  predicate CursorsDiffer(pages: nat -> ScanPage, n: nat) {
    forall i, j | 0 <= i < j < n :: pages(i).next != pages(j).next
  }

  /** Every received record is one of the plan's, and none is received twice. */
  ghost predicate Sound(plan: Plan, received: seq<OnlineRecord>) {
    Distinct(received) && forall r | r in received :: r in plan.records
  }

  ghost predicate Fine(plan: Plan, pages: nat -> ScanPage, n: nat) {
    Sound(plan, Received(pages, n)) && AllIntact(pages, n)
  }

  /** The scan that ends at page `n` yielded exactly the plan's records, each once. */
  ghost predicate Exact(plan: Plan, pages: nat -> ScanPage, n: nat) {
    && EndsAt(pages, n) && CursorsDiffer(pages, n) && Fine(plan, pages, n + 1)
    && |Received(pages, n + 1)| == |plan.records|
  }

  lemma PlanIsDistinct(plan: Plan)
    requires WellFormed(plan)
    ensures Distinct(plan.records)
  {
    KeyOrder(set r | r in plan.records :: r.StorageKey());
    forall i, j | 0 <= i < j < |plan.records| ensures plan.records[i] != plan.records[j] {
      assert plan.records[i] in plan.records && StorageLess(plan.records[i], plan.records[j]);
      assert plan.records[j] in plan.records && !StorageLess(plan.records[j], plan.records[i]);
    }
  }

  /** Distinct records of the plan, sorted, are the plan's records iff there are as many. */
  lemma SortedReceivedIs(plan: Plan, received: seq<OnlineRecord>)
    requires WellFormed(plan) && Sound(plan, received)
    ensures StableSort(received, StorageLess) == plan.records <==> |received| == |plan.records|
  {
    var sorted := StableSort(received, StorageLess);
    PlanIsDistinct(plan);
    forall i, j | 0 <= i < j < |received| ensures received[i].StorageKey() != received[j].StorageKey() {
      assert received[i] in received && received[j] in received;
      if received[i].StorageKey() == received[j].StorageKey() {
        StorageKeyIdentifies(received[i], received[j]);
      }
    }
    SortByKey(received, (r: OnlineRecord) => r.StorageKey(), StorageLess);
    if |received| == |plan.records| {
      DistinctCount(received);
      DistinctCount(plan.records);
      SubsetOfSameSize(Elements(received), Elements(plan.records));
      assert forall r :: r in received <==> r in Elements(received);
      SameRecords(sorted, plan.records);
    }
  }

  lemma SubsetOfSameSize<T>(a: set<T>, b: set<T>)
    requires a <= b && |a| == |b|
    ensures a == b
  {
    assert |b - a| == 0;
  }

  /** One page's items, checked one by one against the plan. */
  method CheckPage(plan: Plan, received: seq<OnlineRecord>, items: seq<ScanItem>) returns (r: Result<seq<OnlineRecord>, ScanError>)
    requires WellFormed(plan) && Sound(plan, received)
    ensures r.Ok? <==> Sound(plan, received + RecordsOf(items)) && forall item | item in items :: item.intact
    ensures r.Ok? ==> r.value == received + RecordsOf(items)
  {
    var result := received;
    for j := 0 to |items|
      invariant result == received + RecordsOf(items[..j]) && Sound(plan, result)
      invariant forall item | item in items[..j] :: item.intact
    {
      var item, all := items[j], received + RecordsOf(items);
      assert items[..j + 1] == items[..j] + [item];
      assert all[|result|] == item.record && all[..|result|] == result;
      var seen := set r | r in result :: r.StorageKey();
      if item.record.StorageKey() in seen {
        SeenTwice(plan, result, item.record, all);
        return Err(Repeated);
      }
      if |result| + 1 > |plan.records| {
        TooMany(plan, all);
        return Err(Unexpected);
      }
      if item.record !in plan.records { return Err(Unexpected); }
      if !item.intact { return Err(Corrupt); }
      assert item.record !in result;
      result := result + [item.record];
      assert RecordsOf(items[..j + 1]) == RecordsOf(items[..j]) + [item.record];
    }
    assert items[..|items|] == items;
    r := Ok(result);
  }

  lemma SeenTwice(plan: Plan, result: seq<OnlineRecord>, record: OnlineRecord, all: seq<OnlineRecord>)
    requires WellFormed(plan) && Sound(plan, result)
    requires exists r | r in result :: r.StorageKey() == record.StorageKey()
    requires |result| < |all| && all[..|result|] == result && all[|result|] == record
    ensures !Sound(plan, all)
  {
    var r :| r in result && r.StorageKey() == record.StorageKey();
    assert record in all;
    if record in plan.records {
      StorageKeyIdentifies(r, record);
      var i :| 0 <= i < |result| && result[i] == r;
      assert all[i] == all[|result|];
    }
  }

  lemma TooMany(plan: Plan, all: seq<OnlineRecord>)
    requires |plan.records| < |all|
    ensures !Sound(plan, all)
  {
    if Sound(plan, all) {
      DistinctCount(all);
      DistinctCount(plan.records);
      assert Elements(all) <= Elements(plan.records);
      SubsetSize(Elements(all), Elements(plan.records));
    }
  }

  lemma {:induction false} LongerIsNotSound(plan: Plan, pages: nat -> ScanPage, n: nat, m: nat)
    requires n <= m && !Fine(plan, pages, n)
    ensures !Fine(plan, pages, m)
  {
    if n < m {
      LongerIsNotSound(plan, pages, n, m - 1);
      var shorter, longer := Received(pages, m - 1), Received(pages, m);
      assert longer[..|shorter|] == shorter;
      assert forall r | r in shorter :: r in longer;
      assert forall i | 0 <= i < |shorter| :: shorter[i] == longer[i];
    }
  }

  ghost predicate Accepts(plan: Plan, pages: nat -> ScanPage) {
    exists n | 0 <= n < Budget(plan) :: Exact(plan, pages, n)
  }

  predicate AllGoOn(pages: nat -> ScanPage, n: nat) {
    forall i | 0 <= i < n :: pages(i).next.Some?
  }

  lemma BadPageRejects(plan: Plan, pages: nat -> ScanPage, n: nat)
    requires AllGoOn(pages, n) && !Fine(plan, pages, n + 1)
    ensures !Accepts(plan, pages)
  {
    hide Fine;
    hide CursorsDiffer;
    forall m | 0 <= m < Budget(plan) ensures !Exact(plan, pages, m) {
      if n <= m {
        LongerIsNotSound(plan, pages, n + 1, m + 1);
      } else {
        assert !EndsAt(pages, m);
      }
    }
  }

  lemma LastPageDecides(plan: Plan, pages: nat -> ScanPage, n: nat)
    requires WellFormed(plan) && n < Budget(plan)
    requires AllGoOn(pages, n) && pages(n).next.None? && CursorsDiffer(pages, n)
    requires Fine(plan, pages, n + 1)
    ensures Accepts(plan, pages) <==> StableSort(Received(pages, n + 1), StorageLess) == plan.records
  {
    SortedReceivedIs(plan, Received(pages, n + 1));
    forall m | 0 <= m < Budget(plan) && Exact(plan, pages, m) ensures m == n {
    }
    assert |Received(pages, n + 1)| == |plan.records| ==> Exact(plan, pages, n);
  }

  lemma EndlessRejects(plan: Plan, pages: nat -> ScanPage)
    requires AllGoOn(pages, Budget(plan))
    ensures !Accepts(plan, pages)
  {
  }

  lemma NoCursorTwice(plan: Plan, pages: nat -> ScanPage, i: nat, n: nat)
    requires AllGoOn(pages, n + 1) && i < n && pages(i).next == pages(n).next
    ensures !Accepts(plan, pages)
  {
  }

  /** Whatever the service answers, the scan stops within its budget; it accepts iff within it the
      pages end and carry exactly the plan's records; and what it returns is the plan's records. */
  method Records(plan: Plan, pages: nat -> ScanPage) returns (r: Result<seq<OnlineRecord>, ScanError>)
    requires WellFormed(plan)
    ensures r.Ok? <==> Accepts(plan, pages)
    ensures r.Ok? ==> r.value == plan.records
  {
    var result: seq<OnlineRecord>, seen: set<Option<Key>> := [], {};
    for n := 0 to Budget(plan)
      invariant result == Received(pages, n) && Sound(plan, result) && AllIntact(pages, n)
      invariant AllGoOn(pages, n)
      invariant CursorsDiffer(pages, n) && seen == set i | 0 <= i < n :: pages(i).next
    {
      var page := pages(n);
      var checked := CheckPage(plan, result, page.items);
      assert Received(pages, n + 1) == result + RecordsOf(page.items);
      if checked.Err? {
        BadPageRejects(plan, pages, n);
        return Err(checked.error);
      }
      result := checked.value;
      if page.next.None? {
        LastPageDecides(plan, pages, n);
        var ordered := StableSort(result, StorageLess);
        if ordered != plan.records { return Err(Missing); }
        return Ok(ordered);
      }
      if page.next in seen {
        var i: nat :| i < n && pages(i).next == page.next;
        NoCursorTwice(plan, pages, i, n);
        return Err(CursorRepeated);
      }
      seen := seen + {page.next};
    }
    EndlessRejects(plan, pages);
    r := Err(OverBudget);
  }

  // ---- An honest service -----------------------------------------------------------------------------------

  /** The table holds `r`, and the filter on generation and feature set keeps it. */
  predicate Matching(table: map<Key, OnlineRecord>, plan: Plan, r: OnlineRecord) {
    && r.StorageKey() in table && table[r.StorageKey()] == r
    && r.generationId == plan.generationId && r.envelope.featureSet == plan.envelope.featureSet
  }

  /** The service walks keys in one fixed total order, `rank`. */
  predicate InRange(rank: Key -> int, after: Option<Key>, key: Key, next: Option<Key>) {
    (after.Some? ==> rank(after.value) < rank(key)) && (next.Some? ==> rank(key) <= rank(next.value))
  }

  function CursorBefore(pages: nat -> ScanPage, n: nat): Option<Key> {
    if n == 0 then None else pages(n - 1).next
  }

  /** Page `n` lists each matching item that the table, as it then is, holds between the cursors. */
  ghost predicate HonestPage(plan: Plan, rank: Key -> int, tables: nat -> map<Key, OnlineRecord>, pages: nat -> ScanPage, n: nat) {
    var after, page, received := CursorBefore(pages, n), pages(n), RecordsOf(pages(n).items);
    && (forall item | item in page.items :: item.intact)
    && Distinct(received)
    && (forall r :: r in received <==> Matching(tables(n), plan, r) && InRange(rank, after, r.StorageKey(), page.next))
    && (after.Some? && page.next.Some? ==> rank(after.value) < rank(page.next.value))
  }

  ghost predicate AllHonest(plan: Plan, rank: Key -> int, tables: nat -> map<Key, OnlineRecord>, pages: nat -> ScanPage) {
    forall n: nat {:trigger HonestPage(plan, rank, tables, pages, n)} :: HonestPage(plan, rank, tables, pages, n)
  }

  /** While it is scanned the generation does not change; anything else may. */
  ghost predicate FrozenDuring(plan: Plan, tables: nat -> map<Key, OnlineRecord>) {
    forall n: nat, r :: Matching(tables(n), plan, r) <==> r in plan.records
  }

  lemma {:induction false} CursorsGrow(plan: Plan, rank: Key -> int, tables: nat -> map<Key, OnlineRecord>, pages: nat -> ScanPage, i: nat, j: nat)
    requires i < j && AllGoOn(pages, j + 1) && AllHonest(plan, rank, tables, pages)
    ensures rank(pages(i).next.value) < rank(pages(j).next.value)
  {
    assert HonestPage(plan, rank, tables, pages, j);
    if i < j - 1 {
      CursorsGrow(plan, rank, tables, pages, i, j - 1);
    }
  }

  /** What has been received before page `n`: exactly the plan's records up to its cursor. */
  lemma {:induction false} ReceivedSoFar(plan: Plan, rank: Key -> int, tables: nat -> map<Key, OnlineRecord>, pages: nat -> ScanPage, n: nat)
    requires FrozenDuring(plan, tables)
    requires AllGoOn(pages, n) && AllHonest(plan, rank, tables, pages)
    ensures Distinct(Received(pages, n)) && AllIntact(pages, n)
    ensures forall r :: r in Received(pages, n) <==>
              r in plan.records && n > 0 && rank(r.StorageKey()) <= rank(pages(n - 1).next.value)
  {
    if n > 0 {
      ReceivedSoFar(plan, rank, tables, pages, n - 1);
      assert HonestPage(plan, rank, tables, pages, n - 1);
      AppendPage(plan, rank, tables, pages, n - 1);
    }
  }

  lemma AppendPage(plan: Plan, rank: Key -> int, tables: nat -> map<Key, OnlineRecord>, pages: nat -> ScanPage, n: nat)
    requires FrozenDuring(plan, tables) && HonestPage(plan, rank, tables, pages, n)
    requires n > 0 ==> pages(n - 1).next.Some?
    requires Distinct(Received(pages, n))
    requires forall r :: r in Received(pages, n) <==>
               r in plan.records && n > 0 && rank(r.StorageKey()) <= rank(pages(n - 1).next.value)
    ensures Distinct(Received(pages, n + 1))
    ensures forall r :: r in Received(pages, n + 1) <==>
              r in plan.records && (pages(n).next.None? || rank(r.StorageKey()) <= rank(pages(n).next.value))
  {
    var before, more := Received(pages, n), RecordsOf(pages(n).items);
    assert Received(pages, n + 1) == before + more;
    forall r ensures r in more <==>
        r in plan.records && (n > 0 ==> rank(pages(n - 1).next.value) < rank(r.StorageKey()))
        && (pages(n).next.Some? ==> rank(r.StorageKey()) <= rank(pages(n).next.value))
    {
      assert Matching(tables(n), plan, r) <==> r in plan.records;
    }
    forall i, j | 0 <= i < j < |before + more| ensures (before + more)[i] != (before + more)[j] {
      if i < |before| <= j {
        assert before[i] in before && more[j - |before|] in more;
      }
    }
  }

  lemma HonestEndIsExact(plan: Plan, rank: Key -> int, tables: nat -> map<Key, OnlineRecord>, pages: nat -> ScanPage, n: nat)
    requires WellFormed(plan) && FrozenDuring(plan, tables) && AllHonest(plan, rank, tables, pages) && EndsAt(pages, n)
    ensures Exact(plan, pages, n)
  {
    assert CursorsDiffer(pages, n) by {
      forall i, j | 0 <= i < j < n ensures pages(i).next != pages(j).next {
        CursorsGrow(plan, rank, tables, pages, i, j);
      }
    }
    HonestEndIsEverything(plan, rank, tables, pages, n);
    SameCount(plan, Received(pages, n + 1));
  }

  lemma HonestEndIsEverything(plan: Plan, rank: Key -> int, tables: nat -> map<Key, OnlineRecord>, pages: nat -> ScanPage, n: nat)
    requires WellFormed(plan) && FrozenDuring(plan, tables) && AllHonest(plan, rank, tables, pages) && EndsAt(pages, n)
    ensures Distinct(Received(pages, n + 1)) && AllIntact(pages, n + 1)
    ensures forall r :: r in Received(pages, n + 1) <==> r in plan.records
  {
    ReceivedSoFar(plan, rank, tables, pages, n);
    assert HonestPage(plan, rank, tables, pages, n);
    AppendPage(plan, rank, tables, pages, n);
  }

  lemma SameCount(plan: Plan, received: seq<OnlineRecord>)
    requires WellFormed(plan) && Distinct(received) && forall r :: r in received <==> r in plan.records
    ensures |received| == |plan.records|
  {
    PlanIsDistinct(plan);
    DistinctCount(received);
    DistinctCount(plan.records);
    assert Elements(received) == Elements(plan.records);
  }

  /** Scanning a frozen generation, with any writes to other generations in between, succeeds with
      the plan's records iff the service finishes within the request budget. */
  lemma HonestScanIff(plan: Plan, rank: Key -> int, tables: nat -> map<Key, OnlineRecord>, pages: nat -> ScanPage)
    requires WellFormed(plan) && FrozenDuring(plan, tables)
    requires AllHonest(plan, rank, tables, pages)
    ensures Accepts(plan, pages) <==> (exists n | 0 <= n < Budget(plan) :: EndsAt(pages, n))
  {
    forall n | 0 <= n < Budget(plan) && EndsAt(pages, n) ensures Exact(plan, pages, n) {
      HonestEndIsExact(plan, rank, tables, pages, n);
    }
  }

  // ---- How large a table the scan can cross ------------------------------------------------------------------

  /** `Limit`: how many items of the whole table one request examines. */
  const PAGE_LIMIT: nat := 100

  function Still(table: map<Key, OnlineRecord>): nat -> map<Key, OnlineRecord> {
    (n: nat) => table
  }

  function InPage(rank: Key -> int, keys: set<Key>, after: Option<Key>, next: Option<Key>): set<Key> {
    set k | k in keys && InRange(rank, after, k, next)
  }

  /** A page examines the limit and goes on, or the fewer that remain and ends the scan. */
  ghost predicate FullPages(rank: Key -> int, keys: set<Key>, pages: nat -> ScanPage) {
    forall n: nat {:trigger pages(n)} ::
      var examined := |InPage(rank, keys, CursorBefore(pages, n), pages(n).next)|;
      if pages(n).next.Some? then examined == PAGE_LIMIT else examined < PAGE_LIMIT
  }

  /** An honest service's responses over one still table. */
  ghost predicate HonestPages(plan: Plan, rank: Key -> int, table: map<Key, OnlineRecord>, pages: nat -> ScanPage) {
    AllHonest(plan, rank, Still(table), pages) && FullPages(rank, table.Keys, pages)
  }

  /** The keys passed before page `n`. */
  function Passed(rank: Key -> int, keys: set<Key>, pages: nat -> ScanPage, n: nat): set<Key> {
    if n == 0 then {} else set k | k in keys && InRange(rank, None, k, pages(n - 1).next)
  }

  lemma PassedNext(rank: Key -> int, keys: set<Key>, pages: nat -> ScanPage, n: nat)
    requires AllGoOn(pages, n + 1) && (n > 0 ==> rank(pages(n - 1).next.value) < rank(pages(n).next.value))
    ensures |Passed(rank, keys, pages, n + 1)|
         == |Passed(rank, keys, pages, n)| + |InPage(rank, keys, CursorBefore(pages, n), pages(n).next)|
  {
    var before, page := Passed(rank, keys, pages, n), InPage(rank, keys, CursorBefore(pages, n), pages(n).next);
    assert Passed(rank, keys, pages, n + 1) == before + page && before * page == {};
  }

  lemma PageIsFull(plan: Plan, rank: Key -> int, table: map<Key, OnlineRecord>, pages: nat -> ScanPage, n: nat)
    requires HonestPages(plan, rank, table, pages) && AllGoOn(pages, n + 1)
    ensures |InPage(rank, table.Keys, CursorBefore(pages, n), pages(n).next)| == PAGE_LIMIT
    ensures n > 0 ==> pages(n - 1).next.Some? && pages(n).next.Some? && rank(pages(n - 1).next.value) < rank(pages(n).next.value)
  {
    hide InPage;
    hide Matching;
    assert HonestPage(plan, rank, Still(table), pages, n);
  }

  lemma {:induction false} PassedCount(plan: Plan, rank: Key -> int, table: map<Key, OnlineRecord>, pages: nat -> ScanPage, n: nat)
    requires HonestPages(plan, rank, table, pages) && AllGoOn(pages, n)
    ensures |Passed(rank, table.Keys, pages, n)| == PAGE_LIMIT * n
  {
    if n > 0 {
      hide HonestPages;
      hide Passed;
      hide InPage;
      PassedCount(plan, rank, table, pages, n - 1);
      PageIsFull(plan, rank, table, pages, n - 1);
      PassedNext(rank, table.Keys, pages, n - 1);
    }
  }

  /** The page at which the scan ends is the table's size divided by the limit. */
  lemma EndIsDetermined(plan: Plan, rank: Key -> int, table: map<Key, OnlineRecord>, pages: nat -> ScanPage, n: nat)
    requires HonestPages(plan, rank, table, pages) && EndsAt(pages, n)
    ensures PAGE_LIMIT * n <= |table| < PAGE_LIMIT * (n + 1)
  {
    PassedCount(plan, rank, table, pages, n);
    var before, page := Passed(rank, table.Keys, pages, n), InPage(rank, table.Keys, CursorBefore(pages, n), pages(n).next);
    assert table.Keys == before + page && before * page == {};
    assert |table.Keys| == |table|;
  }

  lemma {:induction false} EndsOrGoesOn(pages: nat -> ScanPage, m: nat)
    ensures (exists n | 0 <= n < m :: EndsAt(pages, n)) || AllGoOn(pages, m)
  {
    if m > 0 {
      EndsOrGoesOn(pages, m - 1);
      if AllGoOn(pages, m - 1) && pages(m - 1).next.None? {
        assert EndsAt(pages, m - 1);
      }
    }
  }

  /** Over a still table an honest scan is accepted iff the whole table, other generations included,
      is smaller than what the request budget of this plan can examine. */
  lemma HonestScanFitsIff(plan: Plan, rank: Key -> int, table: map<Key, OnlineRecord>, pages: nat -> ScanPage)
    requires WellFormed(plan) && FrozenDuring(plan, Still(table)) && HonestPages(plan, rank, table, pages)
    ensures Accepts(plan, pages) <==> |table| < PAGE_LIMIT * Budget(plan)
  {
    HonestScanIff(plan, rank, Still(table), pages);
    hide Accepts;
    hide AllHonest;
    if n :| 0 <= n < Budget(plan) && EndsAt(pages, n) {
      EndIsDetermined(plan, rank, table, pages, n);
    } else {
      EndsOrGoesOn(pages, Budget(plan));
      PassedCount(plan, rank, table, pages, Budget(plan));
      SubsetSize(Passed(rank, table.Keys, pages, Budget(plan)), table.Keys);
      assert |table.Keys| == |table|;
    }
  }
}
