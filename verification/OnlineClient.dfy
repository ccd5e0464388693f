/** The imperative store of `src/featureforge/online.py`: transactions over its tables, keyset
    paging, and `materialize`, with other clients' calls between any two transactions. */
module OnlineClient {
  import opened Ordering
  import opened OnlinePlan
  import opened OnlineStore
  import opened Traces

  // ---- Keyset pages ---------------------------------------------------------------------------------------

  predicate Beyond(after: Option<Key>, r: OnlineRecord) {
    after.None? || KeyLess(after.value, r.EntityKey())
  }

  /** `WHERE (customer_id, feature_name) > after` */
  function Following(rows: seq<OnlineRecord>, after: Option<Key>): seq<OnlineRecord> {
    Filter(rows, (r: OnlineRecord) => Beyond(after, r))
  }

  /** The cursor that stands after the first `n` rows. */
  function CursorAt(rows: seq<OnlineRecord>, n: nat): Option<Key>
    requires n <= |rows|
  {
    if n == 0 then None else Some(rows[n - 1].EntityKey())
  }

  lemma {:induction false} FilterAll(rows: seq<OnlineRecord>, p: OnlineRecord -> bool)
    requires forall r | r in rows :: p(r)
    ensures Filter(rows, p) == rows
  {
    if rows != [] {
      FilterAll(rows[1..], p);
      assert rows == [rows[0]] + rows[1..];
    }
  }

  lemma {:induction false} FilterDropsPrefix(rows: seq<OnlineRecord>, p: OnlineRecord -> bool, n: nat)
    requires n <= |rows|
    requires forall i | 0 <= i < n :: !p(rows[i])
    requires forall i | n <= i < |rows| :: p(rows[i])
    ensures Filter(rows, p) == rows[n..]
  {
    if n == 0 {
      assert rows[0..] == rows;
      FilterAll(rows, p);
    } else {
      FilterDropsPrefix(rows[1..], p, n - 1);
      assert rows[1..][n - 1..] == rows[n..];
    }
  }

  lemma FollowingIsTheRest(rows: seq<OnlineRecord>, n: nat)
    requires n <= |rows| && Increasing(rows, EntityLess)
    ensures Following(rows, CursorAt(rows, n)) == rows[n..]
  {
    var after := CursorAt(rows, n);
    KeyOrder(set r | r in rows :: r.EntityKey());
    if n > 0 {
      forall i | 0 <= i < n ensures !Beyond(after, rows[i]) {
        assert rows[i] in rows && rows[n - 1] in rows;
        assert i < n - 1 ==> EntityLess(rows[i], rows[n - 1]);
      }
      assert forall i | n <= i < |rows| :: EntityLess(rows[n - 1], rows[i]);
    }
    FilterDropsPrefix(rows, (r: OnlineRecord) => Beyond(after, r), n);
  }

  datatype Page = Page(rows: seq<OnlineRecord>, next: Option<Key>)

  function PageOf(rows: seq<OnlineRecord>, pageSize: int, after: Option<Key>): Page
    requires 1 <= pageSize
  {
    var rest := Following(rows, after);
    if |rest| <= pageSize then Page(rest, None) else Page(rest[..pageSize], Some(rest[pageSize - 1].EntityKey()))
  }

  /** `read` is the first `n` rows and `cursor` stands after them. */
  predicate Paged(rows: seq<OnlineRecord>, read: seq<OnlineRecord>, n: int, cursor: Option<Key>) {
    0 <= n <= |rows| && read == rows[..n] && cursor == CursorAt(rows, n)
  }

  lemma PageStep(rows: seq<OnlineRecord>, read: seq<OnlineRecord>, n: int, cursor: Option<Key>, pageSize: int)
    requires Increasing(rows, EntityLess) && 1 <= pageSize && Paged(rows, read, n, cursor)
    ensures var page := PageOf(rows, pageSize, cursor);
      if page.next.None? then read + page.rows == rows
      else Paged(rows, read + page.rows, n + pageSize, page.next)
  {
    hide EntityLess;
    hide Following;
    FollowingIsTheRest(rows, n);
    RestIs(rows, n, pageSize);
  }

  lemma RestIs(rows: seq<OnlineRecord>, n: int, m: int)
    requires 0 <= n <= |rows| && 0 <= m
    ensures rows[..n] + rows[n..] == rows
    ensures n + m <= |rows| ==> rows[..n] + rows[n..][..m] == rows[..n + m]
  {
  }

  predicate KeyedByEntity(records: map<Key, OnlineRecord>) {
    forall k | k in records :: records[k].EntityKey() == k
  }

  lemma StoredPageStep(records: map<Key, OnlineRecord>, read: seq<OnlineRecord>, n: int, cursor: Option<Key>, pageSize: int)
    requires KeyedByEntity(records) && 1 <= pageSize && Paged(StoredRows(records), read, n, cursor)
    ensures var rows, page := StoredRows(records), PageOf(StoredRows(records), pageSize, cursor);
      if page.next.None? then read + page.rows == rows
      else Paged(rows, read + page.rows, n + pageSize, page.next) && n + pageSize <= |records|
  {
    StoredRowsAreSorted(records);
    KeyOrder(records.Keys);
    PageStep(StoredRows(records), read, n, cursor, pageSize);
  }

  // ---- Materializing ----------------------------------------------------------------------------------------

  ghost predicate IsRun(trace: seq<Act<Call>>, t: Tables, t': Tables, met: seq<Call>, sent: seq<Call>) {
    IsTrace(trace, met, sent) && AllLegal(ArrivedIn(trace)) && t' == Run(t, ArrivedIn(trace))
  }

  /** A run of legal calls from `t` to `t'`: this client's, `sent`, and those of others before its
      `n`-th up to its `m`-th transaction. */
  ghost predicate Ran(t: Tables, t': Tables, others: nat -> seq<Call>, n: nat, m: nat, sent: seq<Call>) {
    n <= m && exists trace :: IsRun(trace, t, t', Between(others, n, m), sent)
  }

  lemma {:induction false} RunTwice(t: Tables, a: seq<Call>, b: seq<Call>)
    ensures Run(Run(t, a), b) == Run(t, a + b)
  {
    if b == [] {
      assert a + b == a;
    } else {
      RunTwice(t, a, b[..|b| - 1]);
      assert (a + b)[..|a + b| - 1] == a + b[..|b| - 1];
    }
  }

  lemma LegalTwice(a: seq<Call>, b: seq<Call>)
    requires AllLegal(a) && AllLegal(b)
    ensures AllLegal(a + b)
  {
  }

  lemma RanOn(t: Tables, t': Tables, t'': Tables, others: nat -> seq<Call>, a: nat, b: nat, c: nat, sent: seq<Call>, sent': seq<Call>)
    requires Ran(t, t', others, a, b, sent) && Ran(t', t'', others, b, c, sent')
    ensures Ran(t, t'', others, a, c, sent + sent')
  {
    var x :| IsRun(x, t, t', Between(others, a, b), sent);
    var y :| IsRun(y, t', t'', Between(others, b, c), sent');
    LegalTwice(ArrivedIn(x), ArrivedIn(y));
    hide Run;
    hide AllLegal;
    hide ArrivedIn;
    hide Between;
    hide MetIn;
    hide SentIn;
    TraceTwice(x, y);
    RunTwice(t, ArrivedIn(x), ArrivedIn(y));
    BetweenTwice(others, a, b, c);
    assert IsRun(x + y, t, t'', Between(others, a, c), sent + sent');
  }

  /** A transaction that only reads, after others' calls. */
  lemma RanByOthers(t: Tables, others: nat -> seq<Call>, n: nat)
    requires AllLegal(others(n))
    ensures Ran(t, Run(t, others(n)), others, n, n + 1, [])
  {
    BetweenOne(others, n);
    var trace := TraceOfMet(others(n));
    assert IsRun(trace, t, Run(t, others(n)), others(n), []);
  }

  /** One call, after others' calls. */
  lemma RanByCall(t: Tables, others: nat -> seq<Call>, n: nat, call: Call)
    requires AllLegal(others(n)) && Legal(call)
    ensures Ran(t, Apply(Run(t, others(n)), call).tables, others, n, n + 1, [call])
  {
    BetweenOne(others, n);
    var trace := TraceOfSent(others(n), call, true);
    assert (others(n) + [call])[..|others(n)|] == others(n);
    assert IsRun(trace, t, Apply(Run(t, others(n)), call).tables, others(n), [call]);
  }

  lemma RanOnCall(start: Tables, t: Tables, others: nat -> seq<Call>, n: nat, sent: seq<Call>, call: Call)
    requires Ran(start, t, others, 0, n, sent) && AllLegal(others(n)) && Legal(call)
    ensures Ran(start, Apply(Run(t, others(n)), call).tables, others, 0, n + 1, sent + [call])
  {
    RanByCall(t, others, n, call);
    RanOn(start, t, Apply(Run(t, others(n)), call).tables, others, 0, n, n + 1, sent, [call]);
  }

  lemma OthersKeep(t: Tables, calls: seq<Call>)
    requires Inv(t) && AllLegal(calls)
    ensures Inv(Run(t, calls))
  {
    RunKeeps(t, calls);
  }

  lemma NothingRun(t: Tables)
    ensures Run(t, []) == t
  {
  }

  /** Admission and the reading of what is missing. */
  lemma RanFirst(start: Tables, plan: Plan, others: nat -> seq<Call>)
    requires AllLegal(others(0)) && AllLegal(others(1)) && WellFormed(plan)
    ensures
      var t := Apply(Run(start, others(0)), BeginCall(plan)).tables;
      && Ran(start, t, others, 0, 1, [BeginCall(plan)])
      && Ran(start, Run(t, others(1)), others, 0, 2, [BeginCall(plan)])
  {
    var t := Apply(Run(start, others(0)), BeginCall(plan)).tables;
    RanByCall(start, others, 0, BeginCall(plan));
    RanByOthers(t, others, 1);
    RanOn(start, t, Run(t, others(1)), others, 0, 1, 2, [BeginCall(plan)], []);
    assert [BeginCall(plan)] + [] == [BeginCall(plan)];
  }

  function WritesOf(plan: Plan, records: seq<OnlineRecord>): seq<Call> {
    seq(|records|, i requires 0 <= i < |records| => WriteCall(plan, records[i]))
  }

  /** The calls of an undisturbed `materialize` that finds `missing` to write. */
  function CallsOf(plan: Plan, missing: seq<OnlineRecord>): seq<Call> {
    [BeginCall(plan)] + WritesOf(plan, missing) + [ReconcileCall(plan)]
  }

  lemma CallsSoFar(plan: Plan, missing: seq<OnlineRecord>, i: nat)
    requires i <= |missing|
    ensures [BeginCall(plan)] + WritesOf(plan, missing[..i]) <= CallsOf(plan, missing)
    ensures i < |missing| ==> WritesOf(plan, missing[..i + 1]) == WritesOf(plan, missing[..i]) + [WriteCall(plan, missing[i])]
    ensures WritesOf(plan, missing[..0]) == [] && missing[..|missing|] == missing
  {
  }

  /** `missing` are the plan's records whose keys are not stored. */
  ghost predicate IsMissing(t: Tables, plan: Plan, missing: seq<OnlineRecord>) {
    var stored := if plan.generationId in t.candidates then t.candidates[plan.generationId].records else map[];
    && (forall r :: r in missing <==> r in plan.records && r.EntityKey() !in stored)
    && (Increasing(plan.records, StorageLess) ==> Increasing(missing, StorageLess))
  }

  /** The plan is admitted and nothing is sealed. */
  predicate Fillable(t: Tables, plan: Plan) {
    && plan.generationId in t.candidates
    && t.candidates[plan.generationId].plan == plan && t.candidates[plan.generationId].state == Writing
  }

  /** The plan is admitted and writable, and only `missing` is still to be written. */
  ghost predicate Filling(t: Tables, plan: Plan, missing: seq<OnlineRecord>) {
    && plan.generationId in t.candidates
    && (var c := t.candidates[plan.generationId];
        && c.plan == plan && c.state == Writing
        && (forall r | r in missing :: r in plan.records)
        && (forall r | r in plan.records :: r.EntityKey() in c.records || r in missing))
  }

  lemma BeginAdmits(t: Tables, plan: Plan)
    requires Inv(t) && WellFormed(plan)
    ensures
      var outcome := OnBegin(t, plan);
      && (outcome.reply.Receipted? ==>
            outcome.reply.receipt == ReceiptOf(plan) && Materialized(t, plan) && outcome.tables == t && InversionFree(plan.records))
      && (outcome.reply.Raised? <==> OperationTaken(t, plan) || GenerationTaken(t, plan))
      && (outcome.reply.Admitted? ==>
            Fillable(outcome.tables, plan))
      && !outcome.reply.Activated? && !outcome.reply.Written? && !outcome.reply.Replayed?
  {
    var op, g := plan.envelope.operationId, plan.generationId;
    if op in t.operations {
      assert OperationHolds(t.candidates, op, t.operations[op]);
    }
    if g in t.candidates {
      assert IsAdmitted(t.candidates[g], t.operations, t.pointers) && CandidateHolds(g, t.candidates[g]);
    }
    if OnBegin(t, plan).reply.Receipted? {
      SealedIsMaterialized(t, g);
      OrdersAgreeIff(plan);
    }
  }

  lemma WriteFills(t: Tables, plan: Plan, missing: seq<OnlineRecord>)
    requires CandidatesHold(t.candidates) && Filling(t, plan, missing) && missing != []
    ensures var outcome := OnWrite(t, plan, missing[0]);
      !outcome.reply.Raised? && Filling(outcome.tables, plan, missing[1..])
  {
    assert CandidateHolds(plan.generationId, t.candidates[plan.generationId]);
    assert missing[0] in missing;
    assert forall r | r in missing :: r == missing[0] || r in missing[1..];
  }

  lemma ReconcileCompletes(t: Tables, plan: Plan)
    requires Inv(t) && WellFormed(plan)
    ensures plan.generationId in t.candidates ==> KeyedByEntity(t.candidates[plan.generationId].records)
    ensures Inv(OnReconcile(t, plan).tables)
    ensures OnReconcile(t, plan).reply.Receipted? ==>
              OnReconcile(t, plan).reply.receipt == ReceiptOf(plan) && Materialized(OnReconcile(t, plan).tables, plan)
    ensures Filling(t, plan, []) ==> (OnReconcile(t, plan).reply.Receipted? <==> InversionFree(plan.records))
  {
    var g := plan.generationId;
    ReconcileKeeps(t, plan);
    OrdersAgreeIff(plan);
    if g in t.candidates {
      assert CandidateHolds(g, t.candidates[g]);
      ReconciliationIff(g, t.candidates[g]);
    }
    if OnReconcile(t, plan).reply.Receipted? {
      SealedIsMaterialized(OnReconcile(t, plan).tables, g);
    }
  }

  lemma StaysInOrder(records: seq<OnlineRecord>, i: nat, found: seq<OnlineRecord>)
    requires i < |records| && forall r | r in found :: r in records[..i]
    ensures Increasing(records, StorageLess) && Increasing(found, StorageLess) ==> Increasing(found + [records[i]], StorageLess)
  {
    hide StorageLess;
    if Increasing(records, StorageLess) && Increasing(found, StorageLess) {
      forall j | 0 <= j < |found| ensures StorageLess(found[j], records[i]) {
        assert found[j] in records[..i];
      }
    }
  }

  // ---- The store --------------------------------------------------------------------------------------------

  class LocalOnlineStore {
    var candidates: map<string, Candidate>
    var operations: map<string, Operation>
    var pointers: map<string, Pointer>

    function Db(): Tables
      reads this
    {
      Tables(candidates, operations, pointers)
    }

    function RecordsOf(g: string): map<Key, OnlineRecord>
      reads this
    {
      if g in candidates then candidates[g].records else map[]
    }

    constructor ()
      ensures Db() == EMPTY && Inv(Db())
    {
      candidates, operations, pointers := map[], map[], map[];
      new;
      InitialHolds();
    }

    /** Other clients' transactions. */
    method Others(calls: seq<Call>)
      modifies this
      ensures Db() == Run(old(Db()), calls)
    {
      var t := Run(Db(), calls);
      candidates, operations, pointers := t.candidates, t.operations, t.pointers;
    }

    method BeginMaterialization(plan: Plan) returns (reply: Reply)
      modifies this
      ensures Outcome(Db(), reply) == OnBegin(old(Db()), plan)
    {
      var op, g := plan.envelope.operationId, plan.generationId;
      if op in operations {
        if !operations[op].Materialize? || operations[op].planDigest != plan { return Raised(OperationReused); }
        if operations[op].done.Some? { return Receipted(operations[op].done.value); }
      }
      if g in candidates && candidates[g].plan != plan { return Raised(GenerationReused); }
      if op !in operations { operations := operations[op := OnlineStore.Materialize(plan, None)]; }
      if g !in candidates { candidates := candidates[g := Candidate(plan, Writing, None, map[])]; }
      if plan.envelope.featureSet !in pointers { pointers := pointers[plan.envelope.featureSet := Pointer(None, 0, map[])]; }
      reply := Admitted;
    }

    method WriteRecord(plan: Plan, record: OnlineRecord) returns (reply: Reply)
      modifies `candidates
      ensures Outcome(Db(), reply) == OnWrite(old(Db()), plan, record)
    {
      var g, key := plan.generationId, record.EntityKey();
      if record !in plan.records { return Raised(NotInPlan); }
      if g !in candidates || candidates[g].plan != plan { return Raised(NotAdmitted); }
      var state, stored := candidates[g].state, candidates[g].records;
      if state != Writing && state != Sealed { return Raised(NotWritable); }
      if key in stored {
        if stored[key] != record { return Raised(ConflictingContent); }
        return Replayed;
      }
      if state == Sealed { return Raised(SealedCandidate); }
      candidates := candidates[g := candidates[g].(records := stored[key := record])];
      reply := Written;
    }

    /** The plan's records whose keys are not stored, in plan order. */
    method MissingRecords(plan: Plan) returns (missing: seq<OnlineRecord>)
      ensures forall r :: r in missing <==> r in plan.records && r.EntityKey() !in RecordsOf(plan.generationId)
      ensures Increasing(plan.records, StorageLess) ==> Increasing(missing, StorageLess)
      ensures plan.generationId !in candidates ==> missing == plan.records
    {
      var stored := RecordsOf(plan.generationId).Keys;
      missing := [];
      for i := 0 to |plan.records|
        invariant forall r :: r in missing <==> r in plan.records[..i] && r.EntityKey() !in stored
        invariant Increasing(plan.records, StorageLess) ==> Increasing(missing, StorageLess)
        invariant plan.generationId !in candidates ==> missing == plan.records[..i]
      {
        var record := plan.records[i];
        assert plan.records[..i + 1] == plan.records[..i] + [record];
        if record.EntityKey() !in stored {
          StaysInOrder(plan.records, i, missing);
          missing := missing + [record];
        }
      }
      assert plan.records[..|plan.records|] == plan.records;
    }

    /** One keyset page and the next exclusive cursor; a page size below one is refused. */
    method CandidatePage(g: string, pageSize: int, after: Option<Key>) returns (page: Option<Page>)
      ensures page.Some? <==> 1 <= pageSize
      ensures page.Some? ==> page.value == PageOf(StoredRows(RecordsOf(g)), pageSize, after)
    {
      if pageSize < 1 { return None; }
      var rows := Following(StoredRows(RecordsOf(g)), after);
      if |rows| > pageSize + 1 { rows := rows[..pageSize + 1]; }
      if |rows| <= pageSize { return Some(Page(rows, None)); }
      page := Some(Page(rows[..pageSize], Some(rows[pageSize - 1].EntityKey())));
    }

    /** Read on from the first `n` rows. */
    method ReadOn(g: string, pageSize: int, read: seq<OnlineRecord>, cursor: Option<Key>, ghost n: int)
      returns (ok: bool, rows: seq<OnlineRecord>, next: Option<Key>)
      requires KeyedByEntity(RecordsOf(g)) && Paged(StoredRows(RecordsOf(g)), read, n, cursor)
      ensures ok <==> 1 <= pageSize
      ensures ok && next.None? ==> rows == StoredRows(RecordsOf(g))
      ensures ok && next.Some? ==> Paged(StoredRows(RecordsOf(g)), rows, n + pageSize, next) && n + pageSize <= |RecordsOf(g)|
    {
      var page := CandidatePage(g, pageSize, cursor);
      if page.None? { return false, [], None; }
      StoredPageStep(RecordsOf(g), read, n, cursor, pageSize);
      return true, read + page.value.rows, page.value.next;
    }

    /** Paging through, whatever the page size, is the sorted whole. */
    method CandidateRecords(g: string, pageSize: int) returns (result: Option<seq<OnlineRecord>>)
      requires KeyedByEntity(RecordsOf(g))
      ensures result == if 1 <= pageSize then Some(StoredRows(RecordsOf(g))) else None
    {
      hide StoredRows;
      var ok, rows, cursor := ReadOn(g, pageSize, [], None, 0);
      if !ok { return None; }
      ghost var n := pageSize;
      while cursor.Some?
        invariant cursor.None? ==> rows == StoredRows(RecordsOf(g))
        invariant cursor.Some? ==> n <= |RecordsOf(g)| && Paged(StoredRows(RecordsOf(g)), rows, n, cursor)
        decreases |RecordsOf(g)| - n + if cursor.Some? then 1 else 0
      {
        ok, rows, cursor := ReadOn(g, pageSize, rows, cursor, n);
        n := n + pageSize;
      }
      result := Some(rows);
    }

    method Reconcile(plan: Plan) returns (reply: Reply)
      requires KeyedByEntity(RecordsOf(plan.generationId))
      modifies `candidates, `operations
      ensures Outcome(Db(), reply) == OnReconcile(old(Db()), plan)
    {
      var op, g := plan.envelope.operationId, plan.generationId;
      if g !in candidates || candidates[g].plan != plan { return Raised(PlanMismatch); }
      var rows := CandidateRecords(g, 7);
      if rows.value != StableSort(plan.records, EntityLess) { return Raised(Incomplete); }
      if |rows.value| != |plan.records| || rows.value != plan.records { return Raised(AggregateMismatch); }
      var receipt := Receipt(|rows.value|, rows.value, plan);
      if candidates[g].state != Writing {
        if candidates[g].receipt != Some(receipt) { return Raised(ReceiptMismatch); }
        return Receipted(receipt);
      }
      candidates := candidates[g := candidates[g].(state := Sealed, receipt := Some(receipt))];
      if op in operations && operations[op].Materialize? {
        operations := operations[op := operations[op].(done := Some(receipt))];
      }
      reply := Receipted(receipt);
    }

    method Activate(operationId: string, q: Request) returns (reply: Reply)
      modifies this
      ensures Outcome(Db(), reply) == OnActivate(old(Db()), operationId, q)
    {
      if !GoodActor(q) { return Raised(BadActor); }
      if q.generationId !in candidates { return Raised(NoCandidate); }
      var request := q.(featureSet := candidates[q.generationId].plan.envelope.featureSet);
      if operationId in operations {
        if !operations[operationId].Activate? || operations[operationId].requestDigest != request { return Raised(OperationReused); }
        return Activated(operations[operationId].result);
      }
      var guard := ActivationGuard(Db(), request);
      if guard.Some? { return Raised(guard.value); }
      if HistoryTaken(pointers, request.featureSet, operationId, request.expectedVersion + 1) { return Raised(IntegrityError); }
      var pointer := PointerOf(pointers, request.featureSet);
      var result := Activation(request, operationId, pointer.generation, request.expectedVersion + 1);
      if pointer.generation.Some? && pointer.generation.value != q.generationId && pointer.generation.value in candidates {
        candidates := candidates[pointer.generation.value := candidates[pointer.generation.value].(state := Retired)];
      }
      candidates := candidates[q.generationId := candidates[q.generationId].(state := Active)];
      operations := operations[operationId := OnlineStore.Activate(request, result)];
      var entry := HistoryEntry(pointer.generation, q.generationId, operationId, result);
      pointers := pointers[request.featureSet :=
        Pointer(Some(q.generationId), pointer.version + 1, pointer.history[request.expectedVersion + 1 := entry])];
      reply := Activated(result);
    }

    /** Admission, after others' calls. */
    method Admit(plan: Plan, calls: seq<Call>) returns (reply: Reply)
      requires Inv(Db()) && WellFormed(plan) && AllLegal(calls)
      modifies this
      ensures Inv(Db()) && Outcome(Db(), reply) == Apply(Run(old(Db()), calls), BeginCall(plan))
      ensures reply.Receipted? ==> reply.receipt == ReceiptOf(plan) && Materialized(Db(), plan) && InversionFree(plan.records)
      ensures calls == [] ==> (reply.Raised? <==> OperationTaken(old(Db()), plan) || GenerationTaken(old(Db()), plan))
      ensures reply.Admitted? ==> Fillable(Db(), plan)
      ensures reply.Receipted? || reply.Raised? || reply.Admitted?
    {
      RunKeeps(Db(), calls);
      Others(calls);
      ghost var t := Db();
      BeginKeeps(t, plan);
      BeginAdmits(t, plan);
      reply := BeginMaterialization(plan);
    }

    /** One record written, after others' calls. */
    method WriteNext(plan: Plan, record: OnlineRecord, calls: seq<Call>, ghost missing: seq<OnlineRecord>) returns (reply: Reply)
      requires Inv(Db()) && WellFormed(plan) && AllLegal(calls) && missing != [] && missing[0] == record
      modifies this
      ensures Inv(Db()) && Outcome(Db(), reply) == Apply(Run(old(Db()), calls), WriteCall(plan, record))
      ensures reply.Raised? || reply.Written? || reply.Replayed?
      ensures calls == [] && Filling(old(Db()), plan, missing) ==> !reply.Raised? && Filling(Db(), plan, missing[1..])
    {
      ghost var filling := calls == [] && Filling(Db(), plan, missing);
      RunKeeps(Db(), calls);
      Others(calls);
      ghost var t := Db();
      WriteKeeps(t, plan, record);
      if filling { WriteFills(t, plan, missing); }
      reply := WriteRecord(plan, record);
    }

    /** Reconciliation, after others' calls. */
    method Finish(plan: Plan, calls: seq<Call>) returns (reply: Reply)
      requires Inv(Db()) && WellFormed(plan) && AllLegal(calls)
      modifies this
      ensures Inv(Db()) && Outcome(Db(), reply) == Apply(Run(old(Db()), calls), ReconcileCall(plan))
      ensures reply.Receipted? ==> reply.receipt == ReceiptOf(plan) && Materialized(Db(), plan)
      ensures calls == [] && Filling(old(Db()), plan, []) ==> (reply.Receipted? <==> InversionFree(plan.records))
    {
      RunKeeps(Db(), calls);
      Others(calls);
      ReconcileCompletes(Db(), plan);
      reply := Reconcile(plan);
    }

    /** The records to write, one by one. */
    method WriteMissing(plan: Plan, missing: seq<OnlineRecord>, interruptAfter: Option<nat>, others: nat -> seq<Call>, ghost initial: Tables)
      returns (problem: Option<Reply>, next: nat, ghost written: nat)
      requires Inv(Db()) && WellFormed(plan) && (forall i :: AllLegal(others(i))) && Ran(initial, Db(), others, 0, 2, [BeginCall(plan)])
      modifies this
      ensures written <= |missing| && next > 1
      ensures Inv(Db()) && Ran(initial, Db(), others, 0, next, [BeginCall(plan)] + WritesOf(plan, missing[..written]))
      ensures problem.Some? ==> problem.value.Raised?
      ensures problem.None? ==> written == |missing|
      ensures interruptAfter.None? && Quiet(others) && Filling(old(Db()), plan, missing) ==> problem.None? && Filling(Db(), plan, [])
    {
      hide Ran;
      hide Run;
      hide Apply;
      hide WellFormed;
      hide Inv;
      hide AllLegal;
      ghost var quiet := Quiet(others) && Filling(Db(), plan, missing);
      assert missing[0..] == missing;
      CallsSoFar(plan, missing, 0);
      hide Filling;
      hide WritesOf;
      hide CallsOf;
      problem, next, written := None, 2, 0;
      assert [BeginCall(plan)] + [] == [BeginCall(plan)];
      for i := 0 to |missing|
        invariant Inv(Db()) && next == i + 2 && Ran(initial, Db(), others, 0, next, [BeginCall(plan)] + WritesOf(plan, missing[..i]))
        invariant quiet ==> Filling(Db(), plan, missing[i..])
      {
        assert missing[i..][1..] == missing[i + 1..];
        CallsSoFar(plan, missing, i);
        RanOnCall(initial, Db(), others, next, [BeginCall(plan)] + WritesOf(plan, missing[..i]), WriteCall(plan, missing[i]));
        assert [BeginCall(plan)] + WritesOf(plan, missing[..i + 1]) == [BeginCall(plan)] + WritesOf(plan, missing[..i]) + [WriteCall(plan, missing[i])];
        var reply := WriteNext(plan, missing[i], others(next), missing[i..]);
        next, written := next + 1, i + 1;
        if reply.Raised? { return Some(reply), next, written; }
        if interruptAfter == Some(i + 1) { return Some(Raised(Interrupted)), next, written; }
      }
      written := |missing|;
      assert missing[|missing|..] == [];
    }

    /** `materialize`: admit the plan, write what is missing, reconcile. `others(i)` are the calls
        other clients make before this one's `i`-th transaction; a crash is a return at any of them.
        Its effect is a prefix of those very calls, `sent`, between exactly the others' calls it
        meets; a receipt comes of all of them, or of a replayed admission. Alone, it returns the
        receipt iff the plan's names are free and its orders agree. */
    method Materialize(plan: Plan, interruptAfter: Option<nat>, others: nat -> seq<Call>)
      returns (reply: Reply, next: nat, ghost sent: seq<Call>, ghost missing: seq<OnlineRecord>)
      requires Inv(Db()) && WellFormed(plan) && forall i :: AllLegal(others(i))
      modifies this
      ensures Inv(Db()) && Ran(old(Db()), Db(), others, 0, next, sent)
      ensures sent <= CallsOf(plan, missing) && [BeginCall(plan)] <= sent
      ensures next > 1 ==> IsMissing(Run(Apply(Run(old(Db()), others(0)), BeginCall(plan)).tables, others(1)), plan, missing)
      ensures reply.Receipted? ==> sent == CallsOf(plan, missing) || (sent == [BeginCall(plan)] && next == 1)
      ensures reply.Receipted? ==> reply.receipt == ReceiptOf(plan) && Materialized(Db(), plan)
      ensures interruptAfter.None? && Quiet(others) ==>
                (reply.Receipted? <==>
                   !OperationTaken(old(Db()), plan) && !GenerationTaken(old(Db()), plan) && InversionFree(plan.records))
    {
      hide Ran;
      hide Run;
      hide Apply;
      hide WellFormed;
      hide Inv;
      hide Materialized;
      hide OperationTaken;
      hide GenerationTaken;
      hide InversionFree;
      hide AllLegal;
      ghost var initial := Db();
      RanFirst(initial, plan, others);
      missing, sent, next := [], [BeginCall(plan)], 1;
      var begun := Admit(plan, others(0));
      if begun != Admitted { return begun, next, sent, missing; }
      OthersKeep(Db(), others(1));
      ghost var t := Db();
      Others(others(1));
      next := 2;
      var found := MissingRecords(plan);
      missing := found;
      ghost var quiet := Quiet(others);
      assert quiet ==> Filling(Db(), plan, missing) by { NothingRun(t); }
      hide Filling;
      hide IsMissing;
      hide CallsOf;
      hide WritesOf;
      var problem;
      ghost var written;
      problem, next, written := WriteMissing(plan, found, interruptAfter, others, initial);
      CallsSoFar(plan, missing, written);
      sent := [BeginCall(plan)] + WritesOf(plan, missing[..written]);
      if problem.Some? { return problem.value, next, sent, missing; }
      RanOnCall(initial, Db(), others, next, sent, ReconcileCall(plan));
      reply := Finish(plan, others(next));
      next, sent := next + 1, sent + [ReconcileCall(plan)];
    }
  }
}
