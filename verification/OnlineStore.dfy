/** `LocalOnlineStore` of `src/featureforge/online.py`: each method is one SQLite transaction over
    the tables. Runs over these calls, in any order and number, are what any number of crashed,
    resumed and concurrent `materialize` and `activate` calls do. */
module OnlineStore {
  import opened Ordering
  import opened Model
  import opened OnlinePlan
  import Decimals

  /** FAILED is in the schema but nothing assigns it. */
  datatype State = Writing | Sealed | Active | Retired

  /** A `candidates` row joined with the `records` rows that reference it. */
  datatype Candidate = Candidate(plan: Plan, state: State, receipt: Option<Receipt>, records: map<Key, OnlineRecord>)

  datatype Request = Request(
    featureSet: string,
    generationId: string,
    expectedGeneration: Option<string>,
    expectedVersion: int,
    receiptDigest: Receipt,
    actor: string,
    reason: string,
    policyDecision: Option<string>)

  datatype Activation = Activation(request: Request, operationId: string, fromGeneration: Option<string>, pointerVersion: int)

  datatype Operation = Materialize(planDigest: Plan, done: Option<Receipt>) | Activate(requestDigest: Request, result: Activation)

  datatype HistoryEntry = HistoryEntry(fromGeneration: Option<string>, toGeneration: string, operationId: string, receipt: Activation)

  /** A `pointers` row joined with its `pointer_history`. */
  datatype Pointer = Pointer(generation: Option<string>, version: int, history: map<int, HistoryEntry>)

  datatype Tables = Tables(candidates: map<string, Candidate>, operations: map<string, Operation>, pointers: map<string, Pointer>)

  const EMPTY := Tables(map[], map[], map[])

  datatype Error =
    | OperationReused | GenerationReused | NotInPlan | NotAdmitted | NotWritable | ConflictingContent | SealedCandidate
    | PlanMismatch | Incomplete | AggregateMismatch | ReceiptMismatch | BadActor | NoCandidate | NotValidated
    | CandidateChanged | PointerMoved | IntegrityError | Interrupted

  datatype Reply =
    | Admitted
    | Written
    | Replayed
    | Receipted(receipt: Receipt)
    | Activated(activation: Activation)
    | Raised(error: Error)

  datatype Outcome = Outcome(tables: Tables, reply: Reply)

  function Fail(t: Tables, e: Error): Outcome {
    Outcome(t, Raised(e))
  }

  // ---- Materialization -----------------------------------------------------------------------------------

  function WithPointer(pointers: map<string, Pointer>, featureSet: string): map<string, Pointer> {
    if featureSet in pointers then pointers else pointers[featureSet := Pointer(None, 0, map[])]
  }

  /** The other operation or generation already goes by the plan's name. */
  predicate OperationTaken(t: Tables, plan: Plan) {
    var op := plan.envelope.operationId;
    op in t.operations && !(t.operations[op].Materialize? && t.operations[op].planDigest == plan)
  }

  predicate GenerationTaken(t: Tables, plan: Plan) {
    plan.generationId in t.candidates && t.candidates[plan.generationId].plan != plan
  }

  function OnBegin(t: Tables, plan: Plan): Outcome {
    var op, g := plan.envelope.operationId, plan.generationId;
    if OperationTaken(t, plan) then Fail(t, OperationReused)
    else if op in t.operations && t.operations[op].done.Some? then Outcome(t, Receipted(t.operations[op].done.value))
    else if GenerationTaken(t, plan) then Fail(t, GenerationReused)
    else
      Outcome(
        Tables(if g in t.candidates then t.candidates else t.candidates[g := Candidate(plan, Writing, None, map[])],
               if op in t.operations then t.operations else t.operations[op := Materialize(plan, None)],
               WithPointer(t.pointers, plan.envelope.featureSet)),
        Admitted)
  }

  function OnWrite(t: Tables, plan: Plan, record: OnlineRecord): Outcome {
    var g, key := plan.generationId, record.EntityKey();
    if record !in plan.records then Fail(t, NotInPlan)
    else if g !in t.candidates || t.candidates[g].plan != plan then Fail(t, NotAdmitted)
    else
      var c := t.candidates[g];
      if !c.state.Writing? && !c.state.Sealed? then Fail(t, NotWritable)
      else if key in c.records then if c.records[key] != record then Fail(t, ConflictingContent) else Outcome(t, Replayed)
      else if c.state.Sealed? then Fail(t, SealedCandidate)
      else Outcome(t.(candidates := t.candidates[g := c.(records := c.records[key := record])]), Written)
  }

  /** `SELECT ... ORDER BY customer_id, feature_name` */
  function StoredRows(records: map<Key, OnlineRecord>): (r: seq<OnlineRecord>) {
    KeyOrder(records.Keys);
    var keys := Sorted(records.Keys, KeyLess);
    seq(|keys|, i requires 0 <= i < |keys| => assert keys[i] in keys; records[keys[i]])
  }

  /** The key-by-key comparison, then the aggregate digest over the plan's own order. */
  function Reconciliation(c: Candidate): Option<Error> {
    var rows := StoredRows(c.records);
    if rows != StableSort(c.plan.records, EntityLess) then Some(Incomplete)
    else if rows != c.plan.records then Some(AggregateMismatch)
    else if c.state != Writing && c.receipt != Some(ReceiptOf(c.plan)) then Some(ReceiptMismatch)
    else None
  }

  function OnReconcile(t: Tables, plan: Plan): Outcome {
    if plan.generationId !in t.candidates || t.candidates[plan.generationId].plan != plan then Fail(t, PlanMismatch)
    else Reconciled(t, plan, Reconciliation(t.candidates[plan.generationId]))
  }

  function Reconciled(t: Tables, plan: Plan, problem: Option<Error>): Outcome
    requires plan.generationId in t.candidates
  {
    var op, g := plan.envelope.operationId, plan.generationId;
    if problem.Some? then Fail(t, problem.value)
    else if t.candidates[g].state != Writing then Outcome(t, Receipted(ReceiptOf(plan)))
    else
      Outcome(
        t.(candidates := t.candidates[g := t.candidates[g].(state := Sealed, receipt := Some(ReceiptOf(plan)))],
           operations := if op in t.operations && t.operations[op].Materialize?
                         then t.operations[op := t.operations[op].(done := Some(ReceiptOf(plan)))] else t.operations),
        Receipted(ReceiptOf(plan)))
  }

  // ---- Activation ---------------------------------------------------------------------------------------

  function PointerOf(pointers: map<string, Pointer>, featureSet: string): Pointer {
    if featureSet in pointers then pointers[featureSet] else Pointer(None, 0, map[])
  }

  /** The stored rows still are those of the validation receipt. */
  predicate StillMatches(c: Candidate) {
    c.receipt.Some? && StoredRows(c.records) == c.receipt.value.actualDigest && |c.records| == c.receipt.value.actualCount
  }

  function ActivationGuard(t: Tables, q: Request): Option<Error>
    requires q.generationId in t.candidates
  {
    var c, pointer := t.candidates[q.generationId], PointerOf(t.pointers, q.featureSet);
    if c.state != Sealed || c.receipt != Some(q.receiptDigest) then Some(NotValidated)
    else if !StillMatches(c) then Some(CandidateChanged)
    else if pointer.generation != q.expectedGeneration || pointer.version != q.expectedVersion then Some(PointerMoved)
    else if q.featureSet !in t.pointers then Some(PointerMoved)
    else None
  }

  predicate HistoryTaken(pointers: map<string, Pointer>, featureSet: string, operationId: string, v: int) {
    || v in PointerOf(pointers, featureSet).history
    || exists f, u :: f in pointers && u in pointers[f].history && pointers[f].history[u].operationId == operationId
  }

  /** Retire the former generation, then activate the target. */
  function MoveStates(candidates: map<string, Candidate>, former: Option<string>, target: string): map<string, Candidate>
    requires target in candidates
  {
    var retired := if former.Some? && former.value != target && former.value in candidates
                   then candidates[former.value := candidates[former.value].(state := Retired)] else candidates;
    retired[target := retired[target].(state := Active)]
  }

  function ActivationOf(t: Tables, operationId: string, q: Request): Activation {
    Activation(q, operationId, PointerOf(t.pointers, q.featureSet).generation, q.expectedVersion + 1)
  }

  function Moved(pointer: Pointer, operationId: string, q: Request, receipt: Activation): Pointer {
    Pointer(Some(q.generationId), pointer.version + 1,
            pointer.history[q.expectedVersion + 1 := HistoryEntry(pointer.generation, q.generationId, operationId, receipt)])
  }

  /** The committed writes, once every check has passed. */
  function Commit(t: Tables, operationId: string, q: Request): Tables
    requires q.generationId in t.candidates
  {
    var pointer, receipt := PointerOf(t.pointers, q.featureSet), ActivationOf(t, operationId, q);
    Tables(MoveStates(t.candidates, pointer.generation, q.generationId),
           t.operations[operationId := Activate(q, receipt)],
           t.pointers[q.featureSet := Moved(pointer, operationId, q, receipt)])
  }

  predicate GoodActor(q: Request) {
    0 < |q.actor| <= 128 && 0 < |q.reason| <= 256
  }

  /** `q` is what the caller asked; its feature set is looked up from the candidate. */
  function OnActivate(t: Tables, operationId: string, q: Request): Outcome {
    if !GoodActor(q) then Fail(t, BadActor)
    else if q.generationId !in t.candidates then Fail(t, NoCandidate)
    else
      var request := q.(featureSet := t.candidates[q.generationId].plan.envelope.featureSet);
      if operationId in t.operations then
        if !t.operations[operationId].Activate? || t.operations[operationId].requestDigest != request then Fail(t, OperationReused)
        else Outcome(t, Activated(t.operations[operationId].result))
      else
        var guard := ActivationGuard(t, request);
        if guard.Some? then Fail(t, guard.value)
        else if HistoryTaken(t.pointers, request.featureSet, operationId, request.expectedVersion + 1) then Fail(t, IntegrityError)
        else Outcome(Commit(t, operationId, request), Activated(ActivationOf(t, operationId, request)))
  }

  // ---- Serving ---------------------------------------------------------------------------------------------

  datatype ReaderToken = ReaderToken(featureSet: string, generationId: string, pointerVersion: int)

  datatype Served = Unavailable | Absent | DefinitionMismatch | Expired | Stale | Unreadable | Found(value: Decoded)

  function PinReader(t: Tables, featureSet: string): Option<ReaderToken> {
    var pointer := PointerOf(t.pointers, featureSet);
    if pointer.generation.None? then None else Some(ReaderToken(featureSet, pointer.generation.value, pointer.version))
  }

  predicate Serves(candidates: map<string, Candidate>, g: string, featureSet: string) {
    g in candidates && candidates[g].plan.envelope.featureSet == featureSet && candidates[g].state in {Active, Retired}
  }

  function FoundValue(stored: OnlineValue): Served {
    var decoded := Decode(stored);
    if decoded.None? then Unreadable else Found(decoded.value)
  }

  function Read(t: Tables, token: ReaderToken, key: Key, definitionDigest: string, requestTime: int, maximumAge: Option<int>): Served {
    if !Serves(t.candidates, token.generationId, token.featureSet) then Unavailable
    else
      var records := t.candidates[token.generationId].records;
      if key !in records then Absent
      else if records[key].definitionDigest != definitionDigest then Served.DefinitionMismatch
      else if requestTime >= records[key].expiresAt then Expired
      else if maximumAge.Some? && requestTime - records[key].knowledgeCutoff > maximumAge.value then Stale
      else FoundValue(records[key].value)
  }

  // ---- Runs --------------------------------------------------------------------------------------------------

  datatype Call =
    | BeginCall(plan: Plan)
    | WriteCall(plan: Plan, record: OnlineRecord)
    | ReconcileCall(plan: Plan)
    | ActivateCall(operationId: string, request: Request)

  /** Plans are those `build_materialization_plan` makes. */
  ghost predicate Legal(call: Call) {
    call.ActivateCall? || WellFormed(call.plan)
  }

  function Apply(t: Tables, call: Call): Outcome {
    match call
    case BeginCall(plan) => OnBegin(t, plan)
    case WriteCall(plan, record) => OnWrite(t, plan, record)
    case ReconcileCall(plan) => OnReconcile(t, plan)
    case ActivateCall(op, q) => OnActivate(t, op, q)
  }

  function Run(t: Tables, calls: seq<Call>): Tables {
    if calls == [] then t else Apply(Run(t, calls[..|calls| - 1]), calls[|calls| - 1]).tables
  }

  // ---- Invariant -------------------------------------------------------------------------------------------

  predicate Complete(c: Candidate) {
    forall r | r in c.plan.records :: r.EntityKey() in c.records
  }

  /** Stored records are the plan's; once sealed they are all of them and the receipt is the plan's. */
  ghost predicate CandidateHolds(g: string, c: Candidate) {
    && WellFormed(c.plan) && c.plan.generationId == g
    && (forall k | k in c.records :: c.records[k] in c.plan.records && c.records[k].EntityKey() == k)
    && if c.state == Writing then c.receipt == None
       else Complete(c) && Increasing(c.plan.records, EntityLess) && c.receipt == Some(ReceiptOf(c.plan))
  }

  ghost predicate CandidatesHold(candidates: map<string, Candidate>) {
    forall g {:trigger CandidateHolds(g, candidates[g])} | g in candidates :: CandidateHolds(g, candidates[g])
  }

  /** A materialization is done exactly when its candidate is sealed, with the plan's receipt. */
  predicate OperationHolds(candidates: map<string, Candidate>, op: string, operation: Operation) {
    operation.Materialize? ==>
      var plan := operation.planDigest;
      && plan.envelope.operationId == op
      && plan.generationId in candidates && candidates[plan.generationId].plan == plan
      && operation.done == if candidates[plan.generationId].state == Writing then None else Some(ReceiptOf(plan))
  }

  ghost predicate OperationsHold(candidates: map<string, Candidate>, operations: map<string, Operation>) {
    forall op {:trigger OperationHolds(candidates, op, operations[op])} | op in operations :: OperationHolds(candidates, op, operations[op])
  }

  predicate IsAdmitted(c: Candidate, operations: map<string, Operation>, pointers: map<string, Pointer>) {
    && c.plan.envelope.operationId in operations
    && operations[c.plan.envelope.operationId].Materialize?
    && operations[c.plan.envelope.operationId].planDigest == c.plan
    && c.plan.envelope.featureSet in pointers
  }

  ghost predicate AllAdmitted(t: Tables) {
    forall g {:trigger IsAdmitted(t.candidates[g], t.operations, t.pointers)} | g in t.candidates ::
      IsAdmitted(t.candidates[g], t.operations, t.pointers)
  }

  predicate Shows(candidates: map<string, Candidate>, g: string, featureSet: string) {
    g in candidates && candidates[g].plan.envelope.featureSet == featureSet && candidates[g].state == Active
  }

  function PointedAt(history: map<int, HistoryEntry>, v: int): Option<string> {
    if v in history then Some(history[v].toGeneration) else None
  }

  predicate Linked(history: map<int, HistoryEntry>, v: int) {
    v in history ==> history[v].fromGeneration == PointedAt(history, v - 1)
  }

  /** One history entry a version, chained, and no generation in it twice. */
  ghost predicate HistoryHolds(pointer: Pointer) {
    && 0 <= pointer.version && (pointer.generation.None? <==> pointer.version == 0)
    && (forall v :: v in pointer.history <==> 1 <= v <= pointer.version)
    && (forall v {:trigger Linked(pointer.history, v)} :: Linked(pointer.history, v))
    && PointedAt(pointer.history, pointer.version) == pointer.generation
    && (forall v, w | v in pointer.history && w in pointer.history && pointer.history[v].toGeneration == pointer.history[w].toGeneration
          :: v == w)
  }

  /** Exactly the pointed-to generation is ACTIVE; every generation in the history is served. */
  ghost predicate PointerHolds(candidates: map<string, Candidate>, featureSet: string, pointer: Pointer) {
    && (forall g :: Shows(candidates, g, featureSet) <==> pointer.generation == Some(g))
    && (forall v | v in pointer.history :: Serves(candidates, pointer.history[v].toGeneration, featureSet))
  }

  ghost predicate PointerGood(candidates: map<string, Candidate>, featureSet: string, pointer: Pointer) {
    HistoryHolds(pointer) && PointerHolds(candidates, featureSet, pointer)
  }

  ghost predicate PointersHold(candidates: map<string, Candidate>, pointers: map<string, Pointer>) {
    forall f {:trigger PointerGood(candidates, f, PointerOf(pointers, f))} :: PointerGood(candidates, f, PointerOf(pointers, f))
  }

  /** The history entry of version `v` is the activation `operationId`. */
  predicate Commits(operations: map<string, Operation>, pointers: map<string, Pointer>, operationId: string, featureSet: string, v: int) {
    var history := PointerOf(pointers, featureSet).history;
    && operationId in operations && v in history
    && (var receipt := history[v].receipt;
        && history[v] == HistoryEntry(receipt.fromGeneration, receipt.request.generationId, operationId, receipt)
        && operations[operationId] == Activate(receipt.request, receipt)
        && receipt.operationId == operationId && receipt.request.featureSet == featureSet
        && receipt.pointerVersion == v == receipt.request.expectedVersion + 1
        && receipt.request.expectedGeneration == receipt.fromGeneration)
  }

  /** Activations and history entries are in one-to-one correspondence. */
  ghost predicate CommitsHold(operations: map<string, Operation>, pointers: map<string, Pointer>) {
    && (forall op {:trigger Commits(operations, pointers, op, operations[op].result.request.featureSet, operations[op].result.pointerVersion)}
          | op in operations && operations[op].Activate? ::
          Commits(operations, pointers, op, operations[op].result.request.featureSet, operations[op].result.pointerVersion))
    && (forall f, v {:trigger Commits(operations, pointers, PointerOf(pointers, f).history[v].operationId, f, v)}
          | v in PointerOf(pointers, f).history ::
          Commits(operations, pointers, PointerOf(pointers, f).history[v].operationId, f, v))
  }

  ghost predicate Inv(t: Tables) {
    && CandidatesHold(t.candidates) && OperationsHold(t.candidates, t.operations) && AllAdmitted(t)
    && PointersHold(t.candidates, t.pointers) && CommitsHold(t.operations, t.pointers)
  }

  // ---- Stored rows against the plan ----------------------------------------------------------------------

  lemma StoredRowsAreSorted(records: map<Key, OnlineRecord>)
    requires forall k | k in records :: records[k].EntityKey() == k
    ensures Increasing(StoredRows(records), EntityLess)
    ensures forall r :: r in StoredRows(records) <==> r.EntityKey() in records && records[r.EntityKey()] == r
  {
    KeyOrder(records.Keys);
    var keys, rows := Sorted(records.Keys, KeyLess), StoredRows(records);
    forall i | 0 <= i < |rows| ensures rows[i] == records[keys[i]] && rows[i].EntityKey() == keys[i] {
      assert keys[i] in keys;
    }
    forall r: OnlineRecord | r.EntityKey() in records && records[r.EntityKey()] == r ensures r in rows {
      assert r.EntityKey() in keys;
      var i :| 0 <= i < |keys| && keys[i] == r.EntityKey();
      assert rows[i] == r;
    }
  }

  lemma PlanRowsAreSorted(plan: Plan)
    requires WellFormed(plan)
    ensures Increasing(StableSort(plan.records, EntityLess), EntityLess)
    ensures forall r :: r in StableSort(plan.records, EntityLess) <==> r in plan.records
  {
    var records := plan.records;
    KeyOrder(set r | r in records :: r.StorageKey());
    forall i, j | 0 <= i < j < |records| ensures records[i].EntityKey() != records[j].EntityKey() {
      assert records[i] in records && records[j] in records && StorageLess(records[i], records[j]);
      assert !(StorageLess(records[i], records[j]) && StorageLess(records[j], records[i]));
    }
    SortByKey(records, (r: OnlineRecord) => r.EntityKey(), EntityLess);
  }

  lemma SameEntityOrder(a: seq<OnlineRecord>, b: seq<OnlineRecord>)
    requires Increasing(a, EntityLess) && Increasing(b, EntityLess)
    requires Within(a, b) && Within(b, a)
    ensures a == b
  {
    KeyOrder(set r | r in a :: r.EntityKey());
    KeyOrder(set r | r in b :: r.EntityKey());
    assert forall i | 0 <= i < |a| :: a[i] in a;
    assert forall i | 0 <= i < |b| :: b[i] in b;
    IncreasingIsUnique(a, b, EntityLess);
  }

  /** Reconciliation finds nothing wrong with a candidate of a reachable state iff all records
      are stored and the plan is in entity order. */
  lemma ReconciliationIff(g: string, c: Candidate)
    requires CandidateHolds(g, c)
    ensures Reconciliation(c).None? <==> Complete(c) && Increasing(c.plan.records, EntityLess)
  {
    var rows, sorted, records := StoredRows(c.records), StableSort(c.plan.records, EntityLess), c.plan.records;
    StoredRowsAreSorted(c.records);
    PlanRowsAreSorted(c.plan);
    assert Within(rows, sorted);
    if Complete(c) {
      forall r | r in sorted ensures r in rows {
        assert r in records && r.EntityKey() in c.records;
        assert c.records[r.EntityKey()] in records;
      }
      SameEntityOrder(rows, sorted);
      if Increasing(records, EntityLess) {
        assert Within(sorted, records) && Within(records, sorted);
        SameEntityOrder(sorted, records);
      }
    } else {
      var r :| r in records && r.EntityKey() !in c.records;
      assert r in sorted && r !in rows;
    }
  }

  lemma SealedStillMatches(g: string, c: Candidate)
    requires CandidateHolds(g, c) && c.state != Writing
    ensures StoredRows(c.records) == c.plan.records && StillMatches(c)
  {
    ReconciliationIff(g, c);
    KeyOrder(c.records.Keys);
    assert |StoredRows(c.records)| == |c.records.Keys|;
  }

  // ---- Every call keeps the invariant -----------------------------------------------------------------------

  lemma InitialHolds()
    ensures Inv(EMPTY)
  {
  }

  ghost predicate SamePointers(p: map<string, Pointer>, p': map<string, Pointer>) {
    p.Keys <= p'.Keys && forall f :: PointerOf(p', f) == PointerOf(p, f)
  }

  lemma PointersStay(candidates: map<string, Candidate>, operations: map<string, Operation>, p: map<string, Pointer>, p': map<string, Pointer>)
    requires SamePointers(p, p') && PointersHold(candidates, p) && CommitsHold(operations, p)
    ensures PointersHold(candidates, p') && CommitsHold(operations, p')
  {
    forall f ensures PointerGood(candidates, f, PointerOf(p', f)) {
      assert PointerGood(candidates, f, PointerOf(p, f));
    }
    forall op | op in operations && operations[op].Activate?
      ensures Commits(operations, p', op, operations[op].result.request.featureSet, operations[op].result.pointerVersion)
    {
      assert Commits(operations, p, op, operations[op].result.request.featureSet, operations[op].result.pointerVersion);
    }
    forall f, v | v in PointerOf(p', f).history ensures Commits(operations, p', PointerOf(p', f).history[v].operationId, f, v) {
      assert v in PointerOf(p, f).history;
      assert Commits(operations, p, PointerOf(p, f).history[v].operationId, f, v);
    }
  }

  /** What a call may do to the candidate table: what is served stays, nothing becomes active. */
  ghost predicate ServesAlike(c: map<string, Candidate>, c': map<string, Candidate>) {
    && (forall g, f :: Shows(c', g, f) == Shows(c, g, f))
    && (forall g, f :: Serves(c', g, f) == Serves(c, g, f))
  }

  lemma ServingStays(c: map<string, Candidate>, c': map<string, Candidate>, pointers: map<string, Pointer>)
    requires ServesAlike(c, c') && PointersHold(c, pointers)
    ensures PointersHold(c', pointers)
  {
    forall f ensures PointerGood(c', f, PointerOf(pointers, f)) {
      assert PointerGood(c, f, PointerOf(pointers, f));
    }
  }

  lemma MaterializeStays(operations: map<string, Operation>, operations': map<string, Operation>, pointers: map<string, Pointer>)
    requires CommitsHold(operations, pointers)
    requires operations.Keys <= operations'.Keys
    requires forall op | op in operations' && operations'[op].Activate? :: op in operations && operations[op] == operations'[op]
    requires forall op | op in operations && operations[op].Activate? :: operations'[op] == operations[op]
    ensures CommitsHold(operations', pointers)
  {
    forall op | op in operations' && operations'[op].Activate?
      ensures Commits(operations', pointers, op, operations'[op].result.request.featureSet, operations'[op].result.pointerVersion)
    {
      assert Commits(operations, pointers, op, operations[op].result.request.featureSet, operations[op].result.pointerVersion);
    }
    forall f, v | v in PointerOf(pointers, f).history
      ensures Commits(operations', pointers, PointerOf(pointers, f).history[v].operationId, f, v)
    {
      assert Commits(operations, pointers, PointerOf(pointers, f).history[v].operationId, f, v);
    }
  }

  lemma BeginKeeps(t: Tables, plan: Plan)
    requires Inv(t) && WellFormed(plan)
    ensures Inv(OnBegin(t, plan).tables)
  {
    var op, g := plan.envelope.operationId, plan.generationId;
    var outcome := OnBegin(t, plan);
    if outcome.reply == Admitted {
      var pointers := WithPointer(t.pointers, plan.envelope.featureSet);
      PointersStay(t.candidates, t.operations, t.pointers, pointers);
      if op in t.operations {
        assert OperationHolds(t.candidates, op, t.operations[op]);
        assert outcome.tables == t.(pointers := pointers);
        PointerRowsStay(t, pointers);
      } else {
        assert g in t.candidates ==> IsAdmitted(t.candidates[g], t.operations, t.pointers);
        PointerRowsStay(t, pointers);
        FreshPlanKeeps(t.(pointers := pointers), plan);
      }
    }
  }

  lemma PointerRowsStay(t: Tables, pointers: map<string, Pointer>)
    requires AllAdmitted(t) && t.pointers.Keys <= pointers.Keys
    ensures AllAdmitted(t.(pointers := pointers))
  {
    forall g | g in t.candidates ensures IsAdmitted(t.candidates[g], t.operations, pointers) {
      assert IsAdmitted(t.candidates[g], t.operations, t.pointers);
    }
  }

  lemma FreshPlanKeeps(t: Tables, plan: Plan)
    requires Inv(t) && WellFormed(plan)
    requires plan.envelope.operationId !in t.operations && plan.generationId !in t.candidates && plan.envelope.featureSet in t.pointers
    ensures Inv(t.(candidates := t.candidates[plan.generationId := Candidate(plan, Writing, None, map[])],
                   operations := t.operations[plan.envelope.operationId := Materialize(plan, None)]))
  {
    var candidates := t.candidates[plan.generationId := Candidate(plan, Writing, None, map[])];
    var operations := t.operations[plan.envelope.operationId := Materialize(plan, None)];
    ServingStays(t.candidates, candidates, t.pointers);
    MaterializeStays(t.operations, operations, t.pointers);
    forall g | g in candidates ensures CandidateHolds(g, candidates[g]) {
      if g in t.candidates { assert CandidateHolds(g, t.candidates[g]); }
    }
    forall op | op in operations ensures OperationHolds(candidates, op, operations[op]) {
      if op in t.operations { assert OperationHolds(t.candidates, op, t.operations[op]); }
    }
    forall g | g in candidates ensures IsAdmitted(candidates[g], operations, t.pointers) {
      if g in t.candidates { assert IsAdmitted(t.candidates[g], t.operations, t.pointers); }
    }
  }

  /** What writing and reconciling may do to a candidate. */
  ghost predicate Advances(g: string, c: Candidate, c': Candidate) {
    && c'.plan == c.plan && CandidateHolds(g, c')
    && (c'.state == c.state || (c.state == Writing && c'.state == Sealed))
  }

  lemma AdvanceKeepsTables(t: Tables, g: string, c': Candidate)
    requires Inv(t) && g in t.candidates && Advances(g, t.candidates[g], c')
    ensures CandidatesHold(t.candidates[g := c']) && PointersHold(t.candidates[g := c'], t.pointers)
    ensures AllAdmitted(t.(candidates := t.candidates[g := c']))
  {
    var candidates := t.candidates[g := c'];
    ServingStays(t.candidates, candidates, t.pointers);
    forall x | x in candidates ensures CandidateHolds(x, candidates[x]) {
      if x != g { assert CandidateHolds(x, t.candidates[x]); }
    }
    forall x | x in candidates ensures IsAdmitted(candidates[x], t.operations, t.pointers) {
      assert IsAdmitted(t.candidates[x], t.operations, t.pointers);
    }
  }

  lemma WriteKeeps(t: Tables, plan: Plan, record: OnlineRecord)
    requires Inv(t)
    ensures Inv(OnWrite(t, plan, record).tables)
  {
    var g, outcome := plan.generationId, OnWrite(t, plan, record);
    if outcome.reply == Written {
      var c := t.candidates[g];
      var c' := c.(records := c.records[record.EntityKey() := record]);
      assert CandidateHolds(g, c);
      AdvanceKeepsTables(t, g, c');
      forall op | op in t.operations ensures OperationHolds(t.candidates[g := c'], op, t.operations[op]) {
        assert OperationHolds(t.candidates, op, t.operations[op]);
      }
    }
  }

  lemma ReconcileKeeps(t: Tables, plan: Plan)
    requires Inv(t)
    ensures Inv(OnReconcile(t, plan).tables)
  {
    var g, op := plan.generationId, plan.envelope.operationId;
    if g in t.candidates && t.candidates[g].plan == plan && t.candidates[g].state == Writing && Reconciliation(t.candidates[g]).None? {
      var c := t.candidates[g];
      assert CandidateHolds(g, c) && IsAdmitted(c, t.operations, t.pointers);
      ReconciliationIff(g, c);
      SealKeeps(t, plan);
    }
  }

  lemma SealKeeps(t: Tables, plan: Plan)
    requires Inv(t) && plan.generationId in t.candidates
    requires var c := t.candidates[plan.generationId];
      c.plan == plan && c.state == Writing && Complete(c) && Increasing(plan.records, EntityLess)
      && IsAdmitted(c, t.operations, t.pointers)
    ensures Inv(t.(candidates := t.candidates[plan.generationId :=
                     t.candidates[plan.generationId].(state := Sealed, receipt := Some(ReceiptOf(plan)))],
                   operations := t.operations[plan.envelope.operationId :=
                     t.operations[plan.envelope.operationId].(done := Some(ReceiptOf(plan)))]))
  {
    var g, op := plan.generationId, plan.envelope.operationId;
    var c' := t.candidates[g].(state := Sealed, receipt := Some(ReceiptOf(plan)));
    var candidates, operations := t.candidates[g := c'], t.operations[op := t.operations[op].(done := Some(ReceiptOf(plan)))];
    assert CandidateHolds(g, t.candidates[g]);
    AdvanceKeepsTables(t, g, c');
    MaterializeStays(t.operations, operations, t.pointers);
    forall o | o in operations ensures OperationHolds(candidates, o, operations[o]) {
      assert OperationHolds(t.candidates, o, t.operations[o]);
    }
    forall x | x in candidates ensures IsAdmitted(candidates[x], operations, t.pointers) {
      assert IsAdmitted(t.candidates[x], t.operations, t.pointers);
    }
  }

  // ---- Activation --------------------------------------------------------------------------------------------

  /** `q` with the feature set the store looked up, when this call commits it. */
  ghost predicate Commencing(t: Tables, operationId: string, q: Request) {
    && q.generationId in t.candidates && q.featureSet == t.candidates[q.generationId].plan.envelope.featureSet
    && operationId !in t.operations && ActivationGuard(t, q).None?
  }

  lemma MoveStatesMoves(t: Tables, q: Request)
    requires Inv(t) && q.generationId in t.candidates && t.candidates[q.generationId].state == Sealed
    requires q.featureSet == t.candidates[q.generationId].plan.envelope.featureSet
    ensures
      var candidates, former := t.candidates, PointerOf(t.pointers, q.featureSet).generation;
      var candidates' := MoveStates(candidates, former, q.generationId);
      && candidates'.Keys == candidates.Keys && former != Some(q.generationId)
      && forall g | g in candidates ::
           if g == q.generationId then candidates'[g] == candidates[g].(state := Active)
           else if former == Some(g) then candidates'[g] == candidates[g].(state := Retired) && candidates[g].state == Active
           else candidates'[g] == candidates[g]
  {
    var pointer := PointerOf(t.pointers, q.featureSet);
    assert PointerGood(t.candidates, q.featureSet, pointer);
    if pointer.generation.Some? {
      assert Shows(t.candidates, pointer.generation.value, q.featureSet);
    }
  }

  lemma MoveKeepsCandidates(t: Tables, q: Request)
    requires Inv(t) && q.generationId in t.candidates && t.candidates[q.generationId].state == Sealed
    requires q.featureSet == t.candidates[q.generationId].plan.envelope.featureSet
    ensures
      var candidates' := MoveStates(t.candidates, PointerOf(t.pointers, q.featureSet).generation, q.generationId);
      CandidatesHold(candidates') && OperationsHold(candidates', t.operations)
  {
    hide WellFormed;
    hide ReceiptOf;
    MoveStatesMoves(t, q);
    var candidates' := MoveStates(t.candidates, PointerOf(t.pointers, q.featureSet).generation, q.generationId);
    hide MoveStates;
    forall g | g in candidates' ensures CandidateHolds(g, candidates'[g]) {
      assert CandidateHolds(g, t.candidates[g]);
    }
    forall op | op in t.operations ensures OperationHolds(candidates', op, t.operations[op]) {
      assert OperationHolds(t.candidates, op, t.operations[op]);
    }
  }

  lemma HistoryExtends(t: Tables, operationId: string, q: Request)
    requires Inv(t) && Commencing(t, operationId, q)
    ensures HistoryHolds(Moved(PointerOf(t.pointers, q.featureSet), operationId, q, ActivationOf(t, operationId, q)))
  {
    var pointer := PointerOf(t.pointers, q.featureSet);
    var pointer' := Moved(pointer, operationId, q, ActivationOf(t, operationId, q));
    var n := pointer.version + 1;
    hide StillMatches;
    assert PointerGood(t.candidates, q.featureSet, pointer);
    assert pointer'.history == pointer.history[n := pointer'.history[n]];
    assert n !in pointer.history;
    forall v ensures Linked(pointer'.history, v) {
      assert Linked(pointer.history, v);
    }
    forall v | v in pointer.history ensures pointer.history[v].toGeneration != q.generationId {
      assert Serves(t.candidates, pointer.history[v].toGeneration, q.featureSet);
    }
  }

  lemma PointersMove(t: Tables, operationId: string, q: Request)
    requires Inv(t) && Commencing(t, operationId, q)
    ensures PointersHold(Commit(t, operationId, q).candidates, Commit(t, operationId, q).pointers)
  {
    var t' := Commit(t, operationId, q);
    MoveStatesMoves(t, q);
    HistoryExtends(t, operationId, q);
    forall f ensures PointerGood(t'.candidates, f, PointerOf(t'.pointers, f)) {
      assert PointerGood(t.candidates, f, PointerOf(t.pointers, f));
      PointerMoves(t, t', operationId, q, f);
    }
  }

  lemma PointerMoves(t: Tables, t': Tables, operationId: string, q: Request, f: string)
    requires Inv(t) && Commencing(t, operationId, q) && t' == Commit(t, operationId, q)
    ensures PointerHolds(t'.candidates, f, PointerOf(t'.pointers, f))
  {
    MoveStatesMoves(t, q);
    var pointer, pointer' := PointerOf(t.pointers, f), PointerOf(t'.pointers, f);
    assert PointerGood(t.candidates, f, pointer);
    assert PointerGood(t.candidates, q.featureSet, PointerOf(t.pointers, q.featureSet));
    forall g ensures Shows(t'.candidates, g, f) <==> pointer'.generation == Some(g) {
      assert Shows(t.candidates, g, f) <==> pointer.generation == Some(g);
      assert Shows(t.candidates, g, q.featureSet) <==> PointerOf(t.pointers, q.featureSet).generation == Some(g);
    }
    HistoryServed(t, operationId, q, f);
  }

  lemma HistoryServed(t: Tables, operationId: string, q: Request, f: string)
    requires Inv(t) && Commencing(t, operationId, q)
    ensures var t' := Commit(t, operationId, q);
      forall v | v in PointerOf(t'.pointers, f).history :: Serves(t'.candidates, PointerOf(t'.pointers, f).history[v].toGeneration, f)
  {
    hide StillMatches;
    hide HistoryHolds;
    var t' := Commit(t, operationId, q);
    MoveStatesMoves(t, q);
    var history, history' := PointerOf(t.pointers, f).history, PointerOf(t'.pointers, f).history;
    assert PointerGood(t.candidates, f, PointerOf(t.pointers, f));
    forall v | v in history' ensures Serves(t'.candidates, history'[v].toGeneration, f) {
      if v in history { assert Serves(t.candidates, history[v].toGeneration, f); }
    }
  }

  lemma CommitsStay(t: Tables, operationId: string, q: Request, op: string, f: string, v: int)
    requires Commencing(t, operationId, q) && PointerOf(t.pointers, q.featureSet).version + 1 !in PointerOf(t.pointers, q.featureSet).history
    requires Commits(t.operations, t.pointers, op, f, v)
    ensures Commits(Commit(t, operationId, q).operations, Commit(t, operationId, q).pointers, op, f, v)
  {
  }

  lemma CommitsMove(t: Tables, operationId: string, q: Request)
    requires PointersHold(t.candidates, t.pointers) && CommitsHold(t.operations, t.pointers) && Commencing(t, operationId, q)
    ensures CommitsHold(Commit(t, operationId, q).operations, Commit(t, operationId, q).pointers)
  {
    var t' := Commit(t, operationId, q);
    var pointer, n := PointerOf(t.pointers, q.featureSet), PointerOf(t.pointers, q.featureSet).version + 1;
    assert PointerGood(t.candidates, q.featureSet, pointer);
    assert n !in pointer.history;
    assert Commits(t'.operations, t'.pointers, operationId, q.featureSet, n);
    forall op | op in t'.operations && t'.operations[op].Activate?
      ensures Commits(t'.operations, t'.pointers, op, t'.operations[op].result.request.featureSet, t'.operations[op].result.pointerVersion)
    {
      if op != operationId {
        CommitsStay(t, operationId, q, op, t.operations[op].result.request.featureSet, t.operations[op].result.pointerVersion);
      }
    }
    forall f, v | v in PointerOf(t'.pointers, f).history
      ensures Commits(t'.operations, t'.pointers, PointerOf(t'.pointers, f).history[v].operationId, f, v)
    {
      if f != q.featureSet || v != n {
        assert v in PointerOf(t.pointers, f).history;
        CommitsStay(t, operationId, q, PointerOf(t.pointers, f).history[v].operationId, f, v);
      }
    }
  }

  lemma CommitKeeps(t: Tables, operationId: string, q: Request)
    requires Inv(t) && Commencing(t, operationId, q)
    ensures Inv(Commit(t, operationId, q))
  {
    var t' := Commit(t, operationId, q);
    MoveStatesMoves(t, q);
    MoveKeepsCandidates(t, q);
    PointersMove(t, operationId, q);
    CommitsMove(t, operationId, q);
    forall op | op in t'.operations ensures OperationHolds(t'.candidates, op, t'.operations[op]) {
      if op != operationId { assert OperationHolds(t'.candidates, op, t.operations[op]); }
    }
    forall g | g in t'.candidates ensures IsAdmitted(t'.candidates[g], t'.operations, t'.pointers) {
      assert IsAdmitted(t.candidates[g], t.operations, t.pointers);
    }
  }

  function Looked(t: Tables, q: Request): Request
    requires q.generationId in t.candidates
  {
    q.(featureSet := t.candidates[q.generationId].plan.envelope.featureSet)
  }

  /** An activation call commits exactly what it looked up, or changes nothing. */
  lemma OnlyCommitsChange(t: Tables, operationId: string, q: Request)
    ensures
      var outcome := OnActivate(t, operationId, q);
      || outcome.tables == t
      || (q.generationId in t.candidates && Commencing(t, operationId, Looked(t, q))
          && outcome == Outcome(Commit(t, operationId, Looked(t, q)), Activated(ActivationOf(t, operationId, Looked(t, q)))))
  {
  }

  lemma ApplyKeeps(t: Tables, call: Call)
    requires Inv(t) && Legal(call)
    ensures Inv(Apply(t, call).tables)
  {
    match call
    case BeginCall(plan) => BeginKeeps(t, plan);
    case WriteCall(plan, record) => WriteKeeps(t, plan, record);
    case ReconcileCall(plan) => ReconcileKeeps(t, plan);
    case ActivateCall(op, q) =>
      OnlyCommitsChange(t, op, q);
      if OnActivate(t, op, q).tables != t {
        CommitKeeps(t, op, Looked(t, q));
      }
  }

  /** In every reachable state: every stored record is its plan's, a sealed candidate is complete
      with the plan's own receipt, each feature set has exactly its pointed-to generation ACTIVE,
      and its history is one chain with no generation twice. */
  lemma {:induction false} RunKeeps(t: Tables, calls: seq<Call>)
    requires Inv(t) && forall call | call in calls :: Legal(call)
    ensures Inv(Run(t, calls))
  {
    if calls != [] {
      RunKeeps(t, calls[..|calls| - 1]);
      ApplyKeeps(Run(t, calls[..|calls| - 1]), calls[|calls| - 1]);
    }
  }

  ghost predicate AllLegal(calls: seq<Call>) {
    forall call | call in calls :: Legal(call)
  }

  // ---- Any receipt is the receipt -----------------------------------------------------------------------

  /** The generation holds exactly the plan's records, in the plan's order, under its receipt. */
  ghost predicate Materialized(t: Tables, plan: Plan) {
    && plan.generationId in t.candidates
    && (var c := t.candidates[plan.generationId];
        c.plan == plan && c.state != Writing && c.receipt == Some(ReceiptOf(plan)) && StoredRows(c.records) == plan.records)
  }

  lemma SealedIsMaterialized(t: Tables, g: string)
    requires CandidatesHold(t.candidates) && g in t.candidates && t.candidates[g].state != Writing
    ensures Materialized(t, t.candidates[g].plan)
  {
    assert CandidateHolds(g, t.candidates[g]);
    SealedStillMatches(g, t.candidates[g]);
  }

  /** Whatever interrupted, resumed and concurrent calls came before, every receipt returned for a
      plan is the one an uninterrupted materialization returns, over exactly the plan's records. */
  lemma EveryReceiptIsTheReceipt(calls: seq<Call>, plan: Plan)
    requires AllLegal(calls) && WellFormed(plan)
    ensures
      var t := Run(EMPTY, calls);
      && (OnReconcile(t, plan).reply.Receipted? ==>
            OnReconcile(t, plan).reply.receipt == ReceiptOf(plan) && Materialized(OnReconcile(t, plan).tables, plan))
      && (OnBegin(t, plan).reply.Receipted? ==> OnBegin(t, plan) == Outcome(t, Receipted(ReceiptOf(plan))) && Materialized(t, plan))
  {
    var t, g, op := Run(EMPTY, calls), plan.generationId, plan.envelope.operationId;
    InitialHolds();
    RunKeeps(EMPTY, calls);
    ReconcileKeeps(t, plan);
    if OnReconcile(t, plan).reply.Receipted? {
      SealedIsMaterialized(OnReconcile(t, plan).tables, g);
    }
    if OnBegin(t, plan).reply.Receipted? {
      assert OperationHolds(t.candidates, op, t.operations[op]);
      SealedIsMaterialized(t, g);
    }
  }

  /** The completing call succeeds iff every record is stored and no two identities of the plan
      invert: then, and only then, the entity and storage orders agree. */
  lemma CompletionIff(calls: seq<Call>, plan: Plan)
    requires AllLegal(calls) && WellFormed(plan)
    ensures
      var t := Run(EMPTY, calls);
      OnReconcile(t, plan).reply.Receipted? <==>
        && plan.generationId in t.candidates && t.candidates[plan.generationId].plan == plan
        && Complete(t.candidates[plan.generationId]) && InversionFree(plan.records)
  {
    var t, g := Run(EMPTY, calls), plan.generationId;
    InitialHolds();
    RunKeeps(EMPTY, calls);
    OrdersAgreeIff(plan);
    if g in t.candidates && t.candidates[g].plan == plan {
      assert CandidateHolds(g, t.candidates[g]);
      ReconciliationIff(g, t.candidates[g]);
    }
  }

  /** Admitted, writable, and the first `n` records stored. */
  predicate WrittenTo(t: Tables, plan: Plan, n: nat) {
    && plan.generationId in t.candidates
    && t.candidates[plan.generationId].plan == plan && t.candidates[plan.generationId].state == Writing
    && forall i | 0 <= i < n && i < |plan.records| :: plan.records[i].EntityKey() in t.candidates[plan.generationId].records
  }

  lemma WriteWrites(t: Tables, plan: Plan, n: nat)
    requires n < |plan.records| && WrittenTo(t, plan, n)
    ensures WrittenTo(OnWrite(t, plan, plan.records[n]).tables, plan, n + 1)
  {
  }

  lemma BeginWrites(plan: Plan)
    ensures WrittenTo(OnBegin(EMPTY, plan).tables, plan, 0)
  {
  }

  lemma NextCall(calls: seq<Call>, call: Call)
    ensures Run(EMPTY, calls + [call]) == Apply(Run(EMPTY, calls), call).tables
  {
    assert (calls + [call])[..|calls|] == calls;
  }

  /** Alone, any plan is admitted and written in full. */
  lemma {:induction false} PlanIsWritten(plan: Plan, n: nat) returns (calls: seq<Call>)
    requires WellFormed(plan) && n <= |plan.records|
    ensures AllLegal(calls) && WrittenTo(Run(EMPTY, calls), plan, n)
  {
    hide WrittenTo;
    hide OnWrite;
    hide OnBegin;
    hide WellFormed;
    if n == 0 {
      NextCall([], BeginCall(plan));
      BeginWrites(plan);
      calls := [] + [BeginCall(plan)];
    } else {
      var before := PlanIsWritten(plan, n - 1);
      NextCall(before, WriteCall(plan, plan.records[n - 1]));
      WriteWrites(Run(EMPTY, before), plan, n - 1);
      calls := before + [WriteCall(plan, plan.records[n - 1])];
    }
  }

  /** A plan of accepted rows whose completing call fails after every run, with every record stored too. */
  lemma InvertedPlanNeverCompletes()
    ensures forall calls | AllLegal(calls) :: !OnReconcile(Run(EMPTY, calls), InvertedPlan()).reply.Receipted?
    ensures exists calls :: AllLegal(calls) && WrittenTo(Run(EMPTY, calls), InvertedPlan(), |InvertedPlan().records|)
  {
    var plan := InvertedPlan();
    AnInvertedPlan();
    OrdersAgreeIff(plan);
    forall calls | AllLegal(calls) ensures !OnReconcile(Run(EMPTY, calls), plan).reply.Receipted? {
      CompletionIff(calls, plan);
    }
    var calls := PlanIsWritten(plan, |plan.records|);
  }

  predicate Tampering(reply: Reply) {
    reply.Raised? &&
      (reply.error.SealedCandidate? || reply.error.ConflictingContent? || reply.error.ReceiptMismatch?
       || reply.error.CandidateChanged? || reply.error.IntegrityError?)
  }

  lemma WritesFindNothing(t: Tables, plan: Plan, record: OnlineRecord)
    requires CandidatesHold(t.candidates)
    ensures !Tampering(OnWrite(t, plan, record).reply)
  {
    if plan.generationId in t.candidates {
      assert CandidateHolds(plan.generationId, t.candidates[plan.generationId]);
    }
  }

  lemma ReceiptMatches(g: string, c: Candidate)
    requires CandidateHolds(g, c)
    ensures Reconciliation(c) in {None, Some(Incomplete), Some(AggregateMismatch)}
  {
  }

  lemma ReconcilingFindsNothing(t: Tables, plan: Plan)
    requires CandidatesHold(t.candidates)
    ensures !Tampering(OnReconcile(t, plan).reply)
  {
    if plan.generationId in t.candidates {
      assert CandidateHolds(plan.generationId, t.candidates[plan.generationId]);
      ReceiptMatches(plan.generationId, t.candidates[plan.generationId]);
    }
  }

  lemma GuardFindsNothing(t: Tables, q: Request)
    requires CandidatesHold(t.candidates) && q.generationId in t.candidates
    ensures ActivationGuard(t, q) in {None, Some(NotValidated), Some(PointerMoved)}
  {
    if t.candidates[q.generationId].state == Sealed {
      assert CandidateHolds(q.generationId, t.candidates[q.generationId]);
      SealedStillMatches(q.generationId, t.candidates[q.generationId]);
    }
  }

  lemma ActivationFindsNothing(t: Tables, operationId: string, q: Request)
    requires Inv(t)
    ensures !Tampering(OnActivate(t, operationId, q).reply)
  {
    if q.generationId in t.candidates {
      GuardFindsNothing(t, Looked(t, q));
      if operationId !in t.operations && ActivationGuard(t, Looked(t, q)).None? {
        HistoryIsFree(t, Looked(t, q).featureSet, operationId);
      }
    }
  }

  /** The guards against tampering cannot fire without tampering. */
  lemma NothingIsEverCorrupt(calls: seq<Call>, call: Call)
    requires AllLegal(calls)
    ensures !Tampering(Apply(Run(EMPTY, calls), call).reply)
  {
    var t := Run(EMPTY, calls);
    InitialHolds();
    RunKeeps(EMPTY, calls);
    match call
    case BeginCall(plan) =>
    case WriteCall(plan, record) => WritesFindNothing(t, plan, record);
    case ReconcileCall(plan) => ReconcilingFindsNothing(t, plan);
    case ActivateCall(op, q) => ActivationFindsNothing(t, op, q);
  }

  lemma HistoryIsFree(t: Tables, featureSet: string, operationId: string)
    requires Inv(t) && operationId !in t.operations
    ensures !HistoryTaken(t.pointers, featureSet, operationId, PointerOf(t.pointers, featureSet).version + 1)
  {
    assert PointerGood(t.candidates, featureSet, PointerOf(t.pointers, featureSet));
    forall f, u | f in t.pointers && u in t.pointers[f].history ensures t.pointers[f].history[u].operationId != operationId {
      assert Commits(t.operations, t.pointers, PointerOf(t.pointers, f).history[u].operationId, f, u);
    }
  }

  // ---- Sealed generations are frozen ----------------------------------------------------------------------

  /** Once sealed, a generation keeps its plan, receipt and records; once served, it stays served. */
  ghost predicate Frozen(t: Tables, t': Tables, g: string) {
    g in t.candidates && t.candidates[g].state != Writing ==>
      && g in t'.candidates
      && (var c, c' := t.candidates[g], t'.candidates[g];
          && c'.plan == c.plan && c'.receipt == c.receipt && c'.records == c.records && c'.state != Writing
          && (c.state in {Active, Retired} ==> c'.state in {Active, Retired}))
  }

  lemma ActivationFreezes(t: Tables, operationId: string, q: Request, g: string)
    requires Inv(t)
    ensures Frozen(t, OnActivate(t, operationId, q).tables, g)
  {
    OnlyCommitsChange(t, operationId, q);
    if OnActivate(t, operationId, q).tables != t {
      MoveStatesMoves(t, Looked(t, q));
    }
  }

  lemma BeginFreezes(t: Tables, plan: Plan, g: string)
    ensures Frozen(t, OnBegin(t, plan).tables, g)
  {
  }

  lemma WriteFreezes(t: Tables, plan: Plan, record: OnlineRecord, g: string)
    ensures Frozen(t, OnWrite(t, plan, record).tables, g)
  {
  }

  lemma ReconciledFreezes(t: Tables, plan: Plan, problem: Option<Error>, g: string)
    requires plan.generationId in t.candidates
    ensures Frozen(t, Reconciled(t, plan, problem).tables, g)
  {
  }

  lemma ReconcileFreezes(t: Tables, plan: Plan, g: string)
    ensures Frozen(t, OnReconcile(t, plan).tables, g)
  {
    if plan.generationId in t.candidates {
      ReconciledFreezes(t, plan, Reconciliation(t.candidates[plan.generationId]), g);
    }
  }

  lemma ApplyFreezes(t: Tables, call: Call, g: string)
    requires Inv(t)
    ensures Frozen(t, Apply(t, call).tables, g)
  {
    match call
    case BeginCall(plan) => BeginFreezes(t, plan, g);
    case WriteCall(plan, record) => WriteFreezes(t, plan, record, g);
    case ReconcileCall(plan) => ReconcileFreezes(t, plan, g);
    case ActivateCall(op, q) => ActivationFreezes(t, op, q, g);
  }

  lemma {:induction false} RunFreezes(t: Tables, calls: seq<Call>, g: string)
    requires Inv(t) && AllLegal(calls)
    ensures Frozen(t, Run(t, calls), g)
  {
    if calls != [] {
      var before, call := Run(t, calls[..|calls| - 1]), calls[|calls| - 1];
      RunKeeps(t, calls[..|calls| - 1]);
      RunFreezes(t, calls[..|calls| - 1], g);
      ApplyFreezes(before, call, g);
    }
  }

  /** A token issued in any reachable state answers every read the same after every further run. */
  lemma PinnedReadsAreStable(before: seq<Call>, after: seq<Call>, featureSet: string, key: Key, definitionDigest: string,
                             requestTime: int, maximumAge: Option<int>)
    requires AllLegal(before) && AllLegal(after)
    ensures
      var t, t' := Run(EMPTY, before), Run(Run(EMPTY, before), after);
      var token := PinReader(t, featureSet);
      token.Some? ==>
        && Read(t', token.value, key, definitionDigest, requestTime, maximumAge)
           == Read(t, token.value, key, definitionDigest, requestTime, maximumAge)
        && Serves(t.candidates, token.value.generationId, featureSet)
        && Materialized(t, t.candidates[token.value.generationId].plan)
  {
    InitialHolds();
    RunKeeps(EMPTY, before);
    var t := Run(EMPTY, before);
    if PinReader(t, featureSet).Some? {
      var g := PinReader(t, featureSet).value.generationId;
      PinnedIsServed(t, featureSet);
      RunFreezes(t, after, g);
      FrozenReadsStay(t, Run(t, after), PinReader(t, featureSet).value, key, definitionDigest, requestTime, maximumAge);
    }
  }

  lemma PinnedIsServed(t: Tables, featureSet: string)
    requires Inv(t) && PinReader(t, featureSet).Some?
    ensures var g := PinReader(t, featureSet).value.generationId;
      Serves(t.candidates, g, featureSet) && Materialized(t, t.candidates[g].plan)
  {
    var pointer := PointerOf(t.pointers, featureSet);
    assert PointerGood(t.candidates, featureSet, pointer);
    assert Shows(t.candidates, pointer.generation.value, featureSet);
    SealedIsMaterialized(t, pointer.generation.value);
  }

  lemma FrozenReadsStay(t: Tables, t': Tables, token: ReaderToken, key: Key, definitionDigest: string, requestTime: int, maximumAge: Option<int>)
    requires Serves(t.candidates, token.generationId, token.featureSet) && Frozen(t, t', token.generationId)
    ensures Read(t', token, key, definitionDigest, requestTime, maximumAge) == Read(t, token, key, definitionDigest, requestTime, maximumAge)
  {
  }

  /** What a pinned read answers for a key, from the plan of the pinned generation. */
  function Answer(r: OnlineRecord, definitionDigest: string, requestTime: int, maximumAge: Option<int>): Served {
    if r.definitionDigest != definitionDigest then Served.DefinitionMismatch
    else if r.expiresAt <= requestTime then Expired
    else if maximumAge.Some? && maximumAge.value < requestTime - r.knowledgeCutoff then Stale
    else FoundValue(r.value)
  }

  /** Serving is exact: a pinned read answers with the plan's own record for the key, and `ABSENT`
      exactly when the plan has none. */
  lemma PinnedReadsServeThePlan(calls: seq<Call>, featureSet: string, key: Key, definitionDigest: string, requestTime: int, maximumAge: Option<int>)
    requires AllLegal(calls) && PinReader(Run(EMPTY, calls), featureSet).Some?
    ensures
      var t := Run(EMPTY, calls);
      var token := PinReader(t, featureSet).value;
      var served := Read(t, token, key, definitionDigest, requestTime, maximumAge);
      && token.generationId in t.candidates
      && (var records := t.candidates[token.generationId].plan.records;
          && (served == Absent <==> forall r | r in records :: r.EntityKey() != key)
          && (forall r | r in records && r.EntityKey() == key :: served == Answer(r, definitionDigest, requestTime, maximumAge)))
  {
    InitialHolds();
    RunKeeps(EMPTY, calls);
    var t := Run(EMPTY, calls);
    var g := PinReader(t, featureSet).value.generationId;
    PinnedIsServed(t, featureSet);
    assert CandidateHolds(g, t.candidates[g]);
    ServedFromPlan(t, PinReader(t, featureSet).value, key, definitionDigest, requestTime, maximumAge);
  }

  /** What a reader is owed for an offline row `v` under definition `d`: the row's own number, as
      far as decimal text holds it, until it expires or is too old. */
  ghost predicate ServesRow(served: Served, v: FeatureValue, d: FeatureDefinition, definitionDigest: string, requestTime: int, maximumAge: Option<int>) {
    if v.definitionDigest != definitionDigest then served == Served.DefinitionMismatch
    else if v.eventTime + d.ttlSeconds <= requestTime then served == Expired
    else if maximumAge.Some? && maximumAge.value < requestTime - v.knowledgeTime then served == Stale
    else served.Found?
         && (Denotes(served.value, v.value)
             <==> v.value.Null? || d.valueType.IntegerType? || Decimals.Fits(NumberOf(v.value)))
  }

  lemma AnswerServesRow(envelope: Envelope, definitions: seq<FeatureDefinition>, rows: seq<FeatureValue>, v: FeatureValue,
                        definitionDigest: string, requestTime: int, maximumAge: Option<int>)
    requires Recordable(definitions, v)
    ensures ServesRow(Answer(RecordOf(envelope, definitions, rows, v), definitionDigest, requestTime, maximumAge), v,
                      DefinitionByDigest(definitions, v.definitionDigest).value, definitionDigest, requestTime, maximumAge)
  {
    hide Denotes;
    hide Decode;
    hide Encode;
    DecodeInvertsEncodeIff(DefinitionByDigest(definitions, v.definitionDigest).value.valueType, v.value);
  }

  /** From offline row to served value: when the pinned generation's plan is that of some offline
      rows, every row is served, and with its own number exactly when decimal text holds it. */
  lemma PinnedReadsServeTheRows(calls: seq<Call>, featureSet: string, definitions: seq<FeatureDefinition>, values: seq<FeatureValue>,
                                v: FeatureValue, definitionDigest: string, requestTime: int, maximumAge: Option<int>)
    requires AllLegal(calls) && PinReader(Run(EMPTY, calls), featureSet).Some?
    requires var g := PinReader(Run(EMPTY, calls), featureSet).value.generationId;
             g in Run(EMPTY, calls).candidates
             && IsPlanOf(Run(EMPTY, calls).candidates[g].plan, Run(EMPTY, calls).candidates[g].plan.envelope, definitions, values)
    requires v in values
    ensures
      var t := Run(EMPTY, calls);
      var served := Read(t, PinReader(t, featureSet).value, KeyOf(v), definitionDigest, requestTime, maximumAge);
      var d := DefinitionByDigest(definitions, v.definitionDigest);
      d.Some? && ServesRow(served, v, d.value, definitionDigest, requestTime, maximumAge)
  {
    hide ServesRow;
    hide Answer;
    hide Run;
    hide Read;
    hide AllLegal;
    hide WellFormed;
    hide OnlyFrom;
    PinnedReadsServeThePlan(calls, featureSet, KeyOf(v), definitionDigest, requestTime, maximumAge);
    var plan := Run(EMPTY, calls).candidates[PinReader(Run(EMPTY, calls), featureSet).value.generationId].plan;
    var rows := plan.offlineRowsDigest.content;
    assert v in rows;
    var r := RecordOf(plan.envelope, definitions, rows, v);
    assert r in plan.records && r.EntityKey() == KeyOf(v);
    AnswerServesRow(plan.envelope, definitions, rows, v, definitionDigest, requestTime, maximumAge);
  }

  lemma ServedFromPlan(t: Tables, token: ReaderToken, key: Key, definitionDigest: string, requestTime: int, maximumAge: Option<int>)
    requires Serves(t.candidates, token.generationId, token.featureSet) && CandidateHolds(token.generationId, t.candidates[token.generationId])
    ensures
      var served := Read(t, token, key, definitionDigest, requestTime, maximumAge);
      var records := t.candidates[token.generationId].plan.records;
      && (served == Absent <==> forall r | r in records :: r.EntityKey() != key)
      && (forall r | r in records && r.EntityKey() == key :: served == Answer(r, definitionDigest, requestTime, maximumAge))
  {
    SealedServesThePlan(t.candidates[token.generationId], token.generationId);
    hide CandidateHolds;
    var c := t.candidates[token.generationId];
    if key in c.records {
      assert c.records[key] in c.plan.records && c.records[key].EntityKey() == key;
    }
  }

  lemma SealedServesThePlan(c: Candidate, g: string)
    requires CandidateHolds(g, c) && c.state != Writing
    ensures forall r | r in c.plan.records :: r.EntityKey() in c.records && c.records[r.EntityKey()] == r
    ensures forall k | k in c.records :: c.records[k] in c.plan.records && c.records[k].EntityKey() == k
  {
    forall r | r in c.plan.records ensures r.EntityKey() in c.records && c.records[r.EntityKey()] == r {
      assert c.records[r.EntityKey()] in c.plan.records;
    }
  }

  // ---- Activation happens at most once ----------------------------------------------------------------------

  /** No generation is ever activated twice, under any feature set or operation. */
  lemma NoGenerationIsActivatedTwice(calls: seq<Call>, f: string, v: int, f': string, v': int)
    requires AllLegal(calls)
    ensures
      var history, history' := PointerOf(Run(EMPTY, calls).pointers, f).history, PointerOf(Run(EMPTY, calls).pointers, f').history;
      v in history && v' in history' && history[v].toGeneration == history'[v'].toGeneration ==> f == f' && v == v'
  {
    InitialHolds();
    RunKeeps(EMPTY, calls);
    var t := Run(EMPTY, calls);
    assert PointerGood(t.candidates, f, PointerOf(t.pointers, f)) && PointerGood(t.candidates, f', PointerOf(t.pointers, f'));
  }

  lemma SameVersionSameActivation(operations: map<string, Operation>, pointers: map<string, Pointer>, op: string, op': string,
                                  f: string, v: int, v': int)
    requires Commits(operations, pointers, op, f, v) && Commits(operations, pointers, op', f, v')
    ensures operations[op].requestDigest.expectedVersion == operations[op'].requestDigest.expectedVersion ==> op == op'
  {
  }

  /** Each activation moved exactly one version of one pointer, and of all that expected one
      version of one pointer at most one committed. */
  lemma OneActivationPerVersion(calls: seq<Call>, op: string, op': string)
    requires AllLegal(calls)
    ensures
      var operations := Run(EMPTY, calls).operations;
      op in operations && op' in operations && operations[op].Activate? && operations[op'].Activate? && op != op' ==>
        || operations[op].requestDigest.featureSet != operations[op'].requestDigest.featureSet
        || operations[op].requestDigest.expectedVersion != operations[op'].requestDigest.expectedVersion
  {
    InitialHolds();
    RunKeeps(EMPTY, calls);
    var t := Run(EMPTY, calls);
    if op in t.operations && op' in t.operations && t.operations[op].Activate? && t.operations[op'].Activate? {
      var a, a' := t.operations[op].result, t.operations[op'].result;
      assert Commits(t.operations, t.pointers, op, a.request.featureSet, a.pointerVersion);
      assert Commits(t.operations, t.pointers, op', a'.request.featureSet, a'.pointerVersion);
      if a.request.featureSet == a'.request.featureSet {
        SameVersionSameActivation(t.operations, t.pointers, op, op', a.request.featureSet, a.pointerVersion, a'.pointerVersion);
      }
    }
  }

  predicate KeepsActivation(t: Tables, t': Tables, operationId: string) {
    operationId in t.operations && t.operations[operationId].Activate? ==>
      operationId in t'.operations && t'.operations[operationId] == t.operations[operationId]
  }

  lemma ReconciledKeepsActivation(t: Tables, plan: Plan, problem: Option<Error>, operationId: string)
    requires plan.generationId in t.candidates
    ensures KeepsActivation(t, Reconciled(t, plan, problem).tables, operationId)
  {
  }

  lemma ActivationStays(t: Tables, call: Call, operationId: string)
    ensures KeepsActivation(t, Apply(t, call).tables, operationId)
  {
    match call
    case BeginCall(plan) =>
    case WriteCall(plan, record) =>
    case ReconcileCall(plan) =>
      if plan.generationId in t.candidates {
        ReconciledKeepsActivation(t, plan, Reconciliation(t.candidates[plan.generationId]), operationId);
      }
    case ActivateCall(op, q) => OnlyCommitsChange(t, op, q);
  }

  lemma {:induction false} ActivationStaysForever(t: Tables, calls: seq<Call>, operationId: string)
    requires operationId in t.operations && t.operations[operationId].Activate?
    ensures operationId in Run(t, calls).operations && Run(t, calls).operations[operationId] == t.operations[operationId]
  {
    if calls != [] {
      ActivationStaysForever(t, calls[..|calls| - 1], operationId);
      ActivationStays(Run(t, calls[..|calls| - 1]), calls[|calls| - 1], operationId);
    }
  }

  /** A retry of a committed activation, however much later, returns the identical receipt and
      changes nothing. */
  lemma RetriesReturnTheActivation(before: seq<Call>, operationId: string, q: Request, after: seq<Call>)
    requires AllLegal(before) && AllLegal(after)
    ensures
      var outcome := OnActivate(Run(EMPTY, before), operationId, q);
      outcome.reply.Activated? ==>
        var later := Run(outcome.tables, after);
        OnActivate(later, operationId, q) == Outcome(later, outcome.reply)
  {
    InitialHolds();
    RunKeeps(EMPTY, before);
    var t := Run(EMPTY, before);
    var outcome := OnActivate(t, operationId, q);
    if outcome.reply.Activated? {
      OnlyCommitsChange(t, operationId, q);
      ApplyKeeps(t, ActivateCall(operationId, q));
      CommittedPlanStays(t, operationId, q, after);
      ActivationStaysForever(outcome.tables, after, operationId);
    }
  }

  lemma CommittedPlanStays(t: Tables, operationId: string, q: Request, after: seq<Call>)
    requires Inv(t) && AllLegal(after) && OnActivate(t, operationId, q).reply.Activated?
    ensures
      var t' := OnActivate(t, operationId, q).tables;
      && q.generationId in Run(t', after).candidates
      && operationId in t'.operations && t'.operations[operationId].Activate?
      && Looked(Run(t', after), q) == Looked(t, q) == t'.operations[operationId].requestDigest
  {
    var t' := OnActivate(t, operationId, q).tables;
    OnlyCommitsChange(t, operationId, q);
    ApplyKeeps(t, ActivateCall(operationId, q));
    if t' == t {
      var o := t.operations[operationId];
      assert Commits(t.operations, t.pointers, operationId, o.result.request.featureSet, o.result.pointerVersion);
      assert PointerGood(t.candidates, o.result.request.featureSet, PointerOf(t.pointers, o.result.request.featureSet));
      assert Serves(t.candidates, q.generationId, o.result.request.featureSet);
    } else {
      MoveStatesMoves(t, Looked(t, q));
    }
    RunFreezes(t', after, q.generationId);
  }
}
