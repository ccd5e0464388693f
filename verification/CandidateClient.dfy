/** One client of `DynamoOnlineRuntime` against tables it shares: other clients act between any two
    of its requests, requests and acknowledgements get lost, transactions get replayed by token. */
module CandidateClient {
  import opened Ordering
  import opened OnlinePlan
  import opened CandidateTable
  import opened CandidateScan
  import opened Traces

  datatype Fault = Delivered | LostRequest | LostReply

  /** What befalls one request: the other clients' steps before it, and its delivery. */
  datatype Weather = Weather(others: seq<Step>, fault: Fault, replayed: bool)

  datatype ClientError = RequestFailed | OtherOwner | SealLost | ScanFailed(scan: ScanError) | NoReceipt | OtherOperation

  /** `t'` comes from `t` by some run of clients' steps. */
  ghost predicate Reaches(t: Tables, t': Tables) {
    exists steps :: AllLegal(steps) && t' == Run(t, steps)
  }

  lemma ReachesItself(t: Tables)
    ensures Reaches(t, t)
  {
    assert Run(t, []) == t;
  }

  lemma ReachingKeeps(t: Tables, t': Tables)
    requires Inv(t) && Reaches(t, t')
    ensures Inv(t') && Grows(t, t')
  {
    var steps :| AllLegal(steps) && t' == Run(t, steps);
    RunKeeps(t, steps);
    RunGrows(t, steps);
  }

  function OthersOf(w: nat -> Weather): nat -> seq<Step> {
    (i: nat) => w(i).others
  }

  ghost predicate Lawful(w: nat -> Weather) {
    forall i :: AllLegal(w(i).others)
  }

  ghost predicate IsRun(trace: seq<Act<Step>>, t: Tables, t': Tables, met: seq<Step>, sent: seq<Step>) {
    IsTrace(trace, met, sent) && AllLegal(ArrivedIn(trace)) && t' == Run(t, ArrivedIn(trace))
  }

  /** A run of legal steps from `t` to `t'`: this client's, `sent`, each if it arrived, and those of
      others that it meets from request `n` up to request `m`. */
  ghost predicate Ran(t: Tables, t': Tables, w: nat -> Weather, n: nat, m: nat, sent: seq<Step>) {
    n <= m && exists trace :: IsRun(trace, t, t', Between(OthersOf(w), n, m), sent)
  }

  lemma RanReaches(t: Tables, t': Tables, w: nat -> Weather, n: nat, m: nat, sent: seq<Step>)
    requires Ran(t, t', w, n, m, sent)
    ensures Reaches(t, t')
  {
  }

  lemma LegalTwice(a: seq<Step>, b: seq<Step>)
    requires AllLegal(a) && AllLegal(b)
    ensures AllLegal(a + b)
  {
  }

  lemma RanOn(t: Tables, t': Tables, t'': Tables, w: nat -> Weather, a: nat, b: nat, c: nat, sent: seq<Step>, sent': seq<Step>)
    requires Ran(t, t', w, a, b, sent) && Ran(t', t'', w, b, c, sent')
    ensures Ran(t, t'', w, a, c, sent + sent')
  {
    var x :| IsRun(x, t, t', Between(OthersOf(w), a, b), sent);
    var y :| IsRun(y, t', t'', Between(OthersOf(w), b, c), sent');
    LegalTwice(ArrivedIn(x), ArrivedIn(y));
    hide Run;
    hide AllLegal;
    hide ArrivedIn;
    hide Between;
    hide MetIn;
    hide SentIn;
    TraceTwice(x, y);
    RunTwice(t, ArrivedIn(x), ArrivedIn(y));
    BetweenTwice(OthersOf(w), a, b, c);
    assert IsRun(x + y, t, t'', Between(OthersOf(w), a, c), sent + sent');
  }

  /** Then only others' steps, or before it. */
  lemma RanOnMet(t: Tables, t': Tables, t'': Tables, w: nat -> Weather, a: nat, b: nat, c: nat, sent: seq<Step>, sent': seq<Step>)
    requires Ran(t, t', w, a, b, sent) && Ran(t', t'', w, b, c, sent')
    ensures sent' == [] ==> Ran(t, t'', w, a, c, sent)
    ensures sent == [] ==> Ran(t, t'', w, a, c, sent')
  {
    RanOn(t, t', t'', w, a, b, c, sent, sent');
    assert sent + [] == sent && [] + sent' == sent';
  }

  lemma RanNot(t: Tables, w: nat -> Weather, n: nat)
    ensures Ran(t, t, w, n, n, [])
  {
    assert IsRun([], t, t, Between(OthersOf(w), n, n), []);
  }

  lemma RanByOthers(t: Tables, w: nat -> Weather, n: nat)
    requires AllLegal(w(n).others)
    ensures Ran(t, Run(t, w(n).others), w, n, n + 1, [])
  {
    BetweenOne(OthersOf(w), n);
    var trace := TraceOfMet(w(n).others);
    assert IsRun(trace, t, Run(t, w(n).others), w(n).others, []);
  }

  /** One conditional request, which arrives or not, after others' steps. */
  lemma RanByStep(t: Tables, w: nat -> Weather, n: nat, step: Step)
    requires AllLegal(w(n).others) && WellFormed(step.plan)
    ensures Ran(t, Run(t, w(n).others), w, n, n + 1, [step])
    ensures Ran(t, Apply(Run(t, w(n).others), step), w, n, n + 1, [step])
  {
    var met := w(n).others;
    BetweenOne(OthersOf(w), n);
    var lost := TraceOfSent(met, step, false);
    assert met + [] == met;
    assert IsRun(lost, t, Run(t, met), met, [step]);
    var trace := TraceOfSent(met, step, true);
    RunOne(t, met, step);
    assert IsRun(trace, t, Apply(Run(t, met), step), met, [step]);
  }

  /** The first `n` of the plan's records are stored. */
  predicate StoredUpTo(t: Tables, plan: Plan, n: nat) {
    forall i | 0 <= i < n && i < |plan.records| ::
      plan.records[i].StorageKey() in t.items && t.items[plan.records[i].StorageKey()] == plan.records[i]
  }

  predicate IsOwned(t: Tables, plan: Plan) {
    plan.generationId in t.owners && t.owners[plan.generationId].plan == plan
  }

  predicate IsClosed(t: Tables, plan: Plan) {
    IsOwned(t, plan) && t.owners[plan.generationId].state != Writing
  }

  lemma KnowledgeStays(t: Tables, t': Tables, plan: Plan, n: nat)
    requires Grows(t, t')
    ensures IsOwned(t, plan) ==> IsOwned(t', plan)
    ensures IsClosed(t, plan) ==> IsClosed(t', plan)
    ensures StoredUpTo(t, plan, n) ==> StoredUpTo(t', plan, n)
  {
    if IsOwned(t, plan) {
      assert MovesOn(t.owners[plan.generationId], t'.owners[plan.generationId]);
    }
  }

  lemma ActivationEffect(t: Tables, plan: Plan, q: Request)
    requires RequestFor(plan, q) && ActivateHolds(t, plan, q)
    ensures Apply(t, Activate(plan, q))
         == Tables(t.owners, t.items, t.controls, t.pointers[q.featureSet := Pointer(q.generationId, q.expectedVersion + 1)],
                   t.operations[(q.featureSet, q.operationId) := q], t.committed + {ActivationToken(q)})
  {
  }

  lemma StoredStays(t: Tables, t': Tables, plan: Plan, i: nat)
    requires Inv(t) && Reaches(t, t') && StoredUpTo(t, plan, i)
    ensures StoredUpTo(t', plan, i)
  {
    ReachingKeeps(t, t');
    KnowledgeStays(t, t', plan, i);
  }

  lemma StoredNext(t: Tables, plan: Plan, i: nat)
    requires i < |plan.records| && StoredUpTo(t, plan, i)
    requires var r := plan.records[i]; r.StorageKey() in t.items && t.items[r.StorageKey()] == r
    ensures StoredUpTo(t, plan, i + 1)
  {
  }

  lemma RecordedIsCounted(t: Tables, q: Request)
    requires Inv(t) && (q.featureSet, q.operationId) in t.operations && t.operations[(q.featureSet, q.operationId)] == q
    ensures q.featureSet in t.pointers && q.expectedVersion < t.pointers[q.featureSet].version
  {
    assert OperationHolds(t, (q.featureSet, q.operationId));
  }

  lemma ValidatedStays(t: Tables, t': Tables, plan: Plan)
    requires Inv(t) && Reaches(t, t') && OwnerIs(t, plan, Validated)
    ensures Inv(t') && Published(t', plan)
  {
    ReachingKeeps(t, t');
    assert MovesOn(t.owners[plan.generationId], t'.owners[plan.generationId]);
    ValidatedIsPublished(t', plan);
  }

  lemma RanStays(t: Tables, t': Tables, plan: Plan, w: nat -> Weather, n: nat, m: nat, sent: seq<Step>)
    requires Inv(t) && Ran(t, t', w, n, m, sent)
    ensures IsOwned(t, plan) ==> IsOwned(t', plan)
    ensures IsClosed(t, plan) ==> IsClosed(t', plan)
  {
    RanReaches(t, t', w, n, m, sent);
    ReachingKeeps(t, t');
    KnowledgeStays(t, t', plan, 0);
  }

  /** The generation of a plan is validated and exactly materialized. */
  ghost predicate Published(t: Tables, plan: Plan) {
    && OwnerIs(t, plan, Validated)
    && t.owners[plan.generationId].receipt == Some(ReceiptOf(plan))
    && (plan.envelope.featureSet, plan.generationId) in t.controls
    && t.controls[(plan.envelope.featureSet, plan.generationId)] == ReceiptOf(plan)
    && ItemsOf(t, plan.generationId) == set r | r in plan.records
  }

  lemma ValidatedIsPublished(t: Tables, plan: Plan)
    requires Inv(t) && OwnerIs(t, plan, Validated)
    ensures Published(t, plan)
  {
    assert OwnerHolds(t, plan.generationId);
    SealedHoldsThePlan(t, plan.generationId);
  }

  /** Every request is delivered, and nobody else acts. */
  predicate IsCalm(w: Weather) {
    w.others == [] && w.fault == Delivered
  }

  ghost predicate Calm(w: nat -> Weather) {
    forall i :: IsCalm(w(i))
  }

  ghost predicate AllDelivered(w: nat -> Weather) {
    forall i :: w(i).fault == Delivered
  }

  /** Another plan goes by the generation's name. */
  predicate OwnedByOther(t: Tables, plan: Plan) {
    plan.generationId in t.owners && t.owners[plan.generationId].plan != plan
  }

  /** Nothing else is stored under the first `n` of the plan's keys. */
  predicate ClearUpTo(t: Tables, plan: Plan, n: nat) {
    forall i | 0 <= i < n && i < |plan.records| :: Clear(t, plan.records[i])
  }

  predicate Clear(t: Tables, r: OnlineRecord) {
    r.StorageKey() in t.items ==> t.items[r.StorageKey()] == r
  }

  predicate Unobstructed(t: Tables, plan: Plan) {
    !OwnedByOther(t, plan) && ClearUpTo(t, plan, |plan.records|)
  }

  function PlanKeys(plan: Plan): set<Key> {
    set r | r in plan.records :: r.StorageKey()
  }

  /** How large the table is once the plan's records are in it. */
  function SizeWith(items: map<Key, OnlineRecord>, plan: Plan): nat {
    |items.Keys + PlanKeys(plan)|
  }

  /** Items were added under the plan's keys only. */
  predicate AddedOnly(t: Tables, t': Tables, plan: Plan) {
    t'.items.Keys <= t.items.Keys + PlanKeys(plan)
  }

  lemma ClosedHolds(t: Tables, plan: Plan)
    requires Inv(t) && IsClosed(t, plan)
    ensures PlanKeys(plan) <= t.items.Keys
  {
    assert OwnerHolds(t, plan.generationId);
    assert Complete(t, plan);
  }

  lemma ClosedSize(t: Tables, t': Tables, plan: Plan)
    requires Inv(t) && Reaches(t, t') && IsClosed(t', plan) && AddedOnly(t, t', plan)
    ensures |t'.items| == SizeWith(t.items, plan)
  {
    ReachingKeeps(t, t');
    ClosedHolds(t', plan);
    hide Inv;
    hide Reaches;
    hide IsClosed;
    hide PlanKeys;
    assert t.items.Keys <= t'.items.Keys;
    assert t'.items.Keys == t.items.Keys + PlanKeys(plan);
    assert |t'.items| == |t'.items.Keys|;
  }

  /** Of the items under the plan's keys, exactly the first `n` are new since `t`. */
  ghost predicate Wrote(t: Tables, t': Tables, plan: Plan, n: nat) {
    && t'.owners == t.owners && ClearUpTo(t, plan, n)
    && forall i | n <= i < |plan.records| :: Clear(t', plan.records[i]) == Clear(t, plan.records[i])
  }

  lemma WroteNext(t: Tables, t': Tables, t'': Tables, plan: Plan, n: nat)
    requires WellFormed(plan) && n < |plan.records| && Wrote(t, t', plan, n) && Clear(t', plan.records[n])
    requires t''.owners == t'.owners && t''.items == t'.items[plan.records[n].StorageKey() := plan.records[n]]
    ensures Wrote(t, t'', plan, n + 1)
  {
    KeyOrder(set r | r in plan.records :: r.StorageKey());
    forall i | n < i < |plan.records| ensures Clear(t'', plan.records[i]) == Clear(t, plan.records[i]) {
      assert plan.records[n] in plan.records && plan.records[i] in plan.records;
      assert StorageLess(plan.records[n], plan.records[i]) && !(StorageLess(plan.records[n], plan.records[i]) && StorageLess(plan.records[i], plan.records[n]));
    }
  }

  lemma ClosedIsUnobstructed(t: Tables, plan: Plan)
    requires Inv(t) && IsClosed(t, plan)
    ensures Unobstructed(t, plan)
  {
    assert OwnerHolds(t, plan.generationId);
    assert Complete(t, plan);
    assert forall i | 0 <= i < |plan.records| :: plan.records[i] in plan.records;
  }

  // ---- The scan of a shared table ---------------------------------------------------------------------------

  /** However other clients go on between pages, a closed generation is frozen for the scan. */
  lemma ClosedIsFrozenForScan(t: Tables, plan: Plan, later: nat -> Tables)
    requires Inv(t) && IsClosed(t, plan) && WellFormed(plan) && forall n :: Reaches(t, later(n))
    ensures FrozenDuring(plan, (n: nat) => later(n).items)
  {
    var tables: nat -> map<Key, OnlineRecord> := (n: nat) => later(n).items;
    forall n: nat, r ensures Matching(tables(n), plan, r) <==> r in plan.records {
      ReachingKeeps(t, later(n));
      KnowledgeStays(t, later(n), plan, 0);
      assert OwnerHolds(later(n), plan.generationId);
      if r.StorageKey() in later(n).items { assert ItemHolds(later(n), r.StorageKey()); }
    }
  }

  /** The scan of a generation this client has just closed, by an honest service, with nobody else about. */
  lemma HonestScanOf(start: Tables, t: Tables, plan: Plan, rank: Key -> int, pages: nat -> ScanPage)
    requires Inv(start) && Inv(t) && Reaches(start, t) && IsClosed(t, plan) && WellFormed(plan) && AddedOnly(start, t, plan)
    requires HonestPages(plan, rank, t.items, pages)
    ensures Accepts(plan, pages) <==> SizeWith(start.items, plan) < PAGE_LIMIT * Budget(plan)
  {
    hide HonestPages;
    hide Accepts;
    ReachesItself(t);
    var later: nat -> Tables := (n: nat) => t;
    ClosedIsFrozenForScan(t, plan, later);
    StillIsFrozen(plan, t.items, (n: nat) => later(n).items);
    ClosedSize(start, t, plan);
    HonestScanFitsIff(plan, rank, t.items, pages);
  }

  lemma StillIsFrozen(plan: Plan, table: map<Key, OnlineRecord>, tables: nat -> map<Key, OnlineRecord>)
    requires FrozenDuring(plan, tables) && tables(0) == table
    ensures FrozenDuring(plan, Still(table))
  {
    forall n: nat, r ensures Matching(Still(table)(n), plan, r) <==> r in plan.records {
      assert Matching(tables(0), plan, r) <==> r in plan.records;
    }
  }

  /** Honest pages, over tables that any clients' steps lead to while the scan goes on. */
  ghost predicate HonestDuring(t: Tables, plan: Plan, rank: Key -> int, later: nat -> Tables, pages: nat -> ScanPage) {
    (forall n :: Reaches(t, later(n))) && AllHonest(plan, rank, (n: nat) => later(n).items, pages)
  }

  ghost predicate EndsInBudget(plan: Plan, pages: nat -> ScanPage) {
    exists n | 0 <= n < Budget(plan) :: EndsAt(pages, n)
  }

  /** The scan of a closed generation, by an honest service, whatever other clients do meanwhile. */
  lemma ClosedScanIff(t: Tables, plan: Plan, rank: Key -> int, later: nat -> Tables, pages: nat -> ScanPage)
    requires Inv(t) && IsClosed(t, plan) && WellFormed(plan) && HonestDuring(t, plan, rank, later, pages)
    ensures Accepts(plan, pages) <==> EndsInBudget(plan, pages)
  {
    ClosedIsFrozenForScan(t, plan, later);
    HonestScanIff(plan, rank, (n: nat) => later(n).items, pages);
  }

  // ---- What one client sends ----------------------------------------------------------------------------------

  /** How far `materialize` came: whether it sent the owner, how many records, the seal, the validation. */
  datatype Progress = Progress(acquired: bool, written: nat, sealed: bool, validated: bool)

  function WritesOf(plan: Plan, n: nat): seq<Step>
    requires n <= |plan.records|
  {
    seq(n, i requires 0 <= i < n => Write(plan, plan.records[i]))
  }

  function StepsOf(plan: Plan, done: Progress): seq<Step>
    requires done.written <= |plan.records|
  {
    (if done.acquired then [Acquire(plan)] else []) + WritesOf(plan, done.written)
    + (if done.sealed then [Seal(plan)] else []) + if done.validated then [Validate(plan)] else []
  }

  lemma OneMoreWrite(plan: Plan, n: nat)
    requires n < |plan.records|
    ensures WritesOf(plan, n + 1) == WritesOf(plan, n) + [Write(plan, plan.records[n])]
  {
  }

  lemma StepsGrow(plan: Plan, done: Progress)
    requires done.written <= |plan.records| && !done.validated
    ensures StepsOf(plan, Progress(false, 0, false, false)) == []
    ensures StepsOf(plan, done.(validated := true)) == StepsOf(plan, done) + [Validate(plan)]
    ensures !done.sealed ==> StepsOf(plan, done.(sealed := true)) == StepsOf(plan, done) + [Seal(plan)]
    ensures !done.sealed && done.written == 0 ==>
      && StepsOf(plan, done) == if done.acquired then [Acquire(plan)] else []
    ensures !done.sealed ==> StepsOf(plan, done) == StepsOf(plan, done.(written := 0)) + WritesOf(plan, done.written)
  {
  }

  class DynamoOnlineRuntime {
    var owners: map<string, Owner>
    var items: map<Key, OnlineRecord>
    var controls: map<(string, string), Receipt>
    var pointers: map<string, Pointer>
    var operations: map<(string, string), Request>
    var committed: set<Token>

    function Db(): Tables
      reads this
    {
      Tables(owners, items, controls, pointers, operations, committed)
    }

    method Others(w: nat -> Weather, n: nat)
      requires Lawful(w) && Inv(Db())
      modifies this
      ensures Inv(Db()) && Ran(old(Db()), Db(), w, n, n + 1, []) && Db() == Run(old(Db()), w(n).others)
      ensures w(n).others == [] ==> Db() == old(Db())
    {
      var t := Run(Db(), w(n).others);
      RanByOthers(Db(), w, n);
      RunKeeps(Db(), w(n).others);
      owners, items, controls, pointers, operations, committed :=
        t.owners, t.items, t.controls, t.pointers, t.operations, t.committed;
    }

    /** `_owner`: a strongly consistent read of the owner item, checked against the plan. */
    method ReadOwner(plan: Plan, w: nat -> Weather, n: nat) returns (r: Result<Option<Owner>, ClientError>)
      requires Lawful(w) && Inv(Db())
      modifies this
      ensures Inv(Db()) && Ran(old(Db()), Db(), w, n, n + 1, [])
      ensures r.Ok? && r.value.Some? ==> IsOwned(Db(), plan) && r.value.value == owners[plan.generationId]
      ensures r.Ok? && r.value.None? ==> plan.generationId !in owners
      ensures w(n).fault == Delivered ==> (r.Ok? <==> !OwnedByOther(Db(), plan))
      ensures IsCalm(w(n)) ==> Db() == old(Db())
    {
      Others(w, n);
      if w(n).fault != Delivered { return Err(RequestFailed); }
      if plan.generationId !in owners { return Ok(None); }
      if owners[plan.generationId].plan != plan { return Err(OtherOwner); }
      r := Ok(Some(owners[plan.generationId]));
    }

    /** The conditional put of the owner item. */
    method PutOwner(plan: Plan, w: nat -> Weather, n: nat) returns (ok: bool)
      requires Lawful(w) && Inv(Db()) && WellFormed(plan)
      modifies this
      ensures Inv(Db()) && Ran(old(Db()), Db(), w, n, n + 1, [Acquire(plan)])
      ensures ok ==> OwnerIs(Db(), plan, Writing)
      ensures IsCalm(w(n)) ==> Db() == Apply(old(Db()), Acquire(plan)) && ok == (plan.generationId !in old(Db()).owners)
    {
      RanByStep(Db(), w, n, Acquire(plan));
      Others(w, n);
      AcquireKeeps(Db(), plan);
      if w(n).fault == LostRequest || plan.generationId in owners { return false; }
      owners := owners[plan.generationId := Owner(plan, Writing, None)];
      ok := w(n).fault == Delivered;
    }

    method AcquireOwner(plan: Plan, w: nat -> Weather) returns (r: Result<OwnerState, ClientError>, next: nat, ghost sent: bool)
      requires Lawful(w) && Inv(Db()) && WellFormed(plan)
      modifies this
      ensures Inv(Db()) && Ran(old(Db()), Db(), w, 0, next, if sent then [Acquire(plan)] else [])
      ensures r.Ok? ==> IsOwned(Db(), plan) && (r.value != Writing ==> IsClosed(Db(), plan))
      ensures Calm(w) ==> Db().items == old(Db()).items && (r.Ok? <==> !OwnedByOther(old(Db()), plan))
      ensures Calm(w) && r.Ok? ==> OwnerIs(Db(), plan, r.value)
      ensures AllDelivered(w) && IsClosed(old(Db()), plan) ==> r.Ok? && r.value != Writing
    {
      hide Ran;
      hide Inv;
      ghost var start := Db();
      var current := ReadOwner(plan, w, 0);
      next, sent := 1, false;
      RanStays(start, Db(), plan, w, 0, 1, []);
      if current.Err? { return Err(current.error), next, sent; }
      if current.value.Some? { return Ok(current.value.value.state), next, sent; }
      ghost var t := Db();
      var ok := PutOwner(plan, w, 1);
      next, sent := 2, true;
      RanOnMet(start, t, Db(), w, 0, 1, 2, [], [Acquire(plan)]);
      if ok { return Ok(Writing), next, sent; }
      ghost var t' := Db();
      current := ReadOwner(plan, w, 2);
      next := 3;
      RanOnMet(start, t', Db(), w, 0, 2, 3, [Acquire(plan)], []);
      if current.Err? || current.value.None? { return Err(RequestFailed), next, sent; }
      r := Ok(current.value.value.state);
    }

    /** One record transaction: owner check and conditional put, replayed if its token committed. */
    method WriteRecord(plan: Plan, record: OnlineRecord, w: nat -> Weather, n: nat) returns (ok: bool)
      requires Lawful(w) && Inv(Db()) && WellFormed(plan) && record in plan.records
      modifies this
      ensures Inv(Db()) && Ran(old(Db()), Db(), w, n, n + 1, [Write(plan, record)])
      ensures ok ==> record.StorageKey() in items && items[record.StorageKey()] == record
      ensures IsCalm(w(n)) && OwnerIs(old(Db()), plan, Writing) ==>
                && ok == Clear(old(Db()), record) && owners == old(owners)
                && items == if ok then old(items)[record.StorageKey() := record] else old(items)
    {
      RanByStep(Db(), w, n, Write(plan, record));
      Others(w, n);
      ghost var t := Db();
      WriteKeeps(t, plan, record);
      if w(n).fault == LostRequest { return false; }
      if RecordToken(plan, record) in committed && w(n).replayed {
        assert TokenHolds(t, RecordToken(plan, record));
        return w(n).fault == Delivered;
      }
      if !WriteHolds(Db(), plan, record) { return false; }
      items, committed := items[record.StorageKey() := record], committed + {RecordToken(plan, record)};
      ok := w(n).fault == Delivered;
    }

    /** The conditional update to SEALED. Its caller knows that all records are stored, or that
        the generation is closed already: without that this would not be a client's step. */
    method UpdateToSealed(plan: Plan, w: nat -> Weather, n: nat) returns (ok: bool)
      requires Lawful(w) && Inv(Db()) && WellFormed(plan)
      requires IsClosed(Db(), plan) || StoredUpTo(Db(), plan, |plan.records|)
      modifies this
      ensures Inv(Db()) && Ran(old(Db()), Db(), w, n, n + 1, [Seal(plan)])
      ensures IsCalm(w(n)) && IsOwned(old(Db()), plan) ==> IsClosed(Db(), plan) && items == old(items)
    {
      hide Inv;
      hide Reaches;
      hide Ran;
      ghost var start := Db();
      RanByStep(start, w, n, Seal(plan));
      Others(w, n);
      ghost var t := Db();
      RanReaches(start, t, w, n, n + 1, []);
      ReachingKeeps(start, t);
      KnowledgeStays(start, t, plan, |plan.records|);
      SealKeeps(t, plan);
      if w(n).fault == LostRequest || !OwnerIs(Db(), plan, Writing) { return false; }
      assert Complete(t, plan);
      owners := owners[plan.generationId := Owner(plan, Sealed, None)];
      ok := w(n).fault == Delivered;
    }

    /** `_seal`: the update, and a reading that must show it. */
    method SealGeneration(plan: Plan, w: nat -> Weather, n: nat) returns (r: Result<(), ClientError>, next: nat)
      requires Lawful(w) && Inv(Db()) && WellFormed(plan)
      requires IsClosed(Db(), plan) || StoredUpTo(Db(), plan, |plan.records|)
      modifies this
      ensures Inv(Db()) && Ran(old(Db()), Db(), w, n, next, [Seal(plan)])
      ensures r.Ok? ==> IsClosed(Db(), plan)
      ensures Calm(w) && IsOwned(old(Db()), plan) ==> r.Ok? && items == old(items)
    {
      hide Inv;
      hide Ran;
      ghost var start := Db();
      var ok := UpdateToSealed(plan, w, n);
      next := n + 1;
      if !ok {
        ghost var t := Db();
        var current := ReadOwner(plan, w, n + 1);
        next := n + 2;
        RanOnMet(start, t, Db(), w, n, n + 1, n + 2, [Seal(plan)], []);
        if current.Err? || current.value.None? || current.value.value.state == Writing { return Err(RequestFailed), next; }
      }
      ghost var t', before := Db(), next;
      var current := ReadOwner(plan, w, next);
      next := next + 1;
      RanOnMet(start, t', Db(), w, n, before, next, [Seal(plan)], []);
      if current.Err? { return Err(current.error), next; }
      if current.value.None? || current.value.value.state == Writing { return Err(SealLost), next; }
      r := Ok(());
    }

    /** Write one record; `false` when the write failed because the generation is closed. */
    method WriteOrStop(plan: Plan, record: OnlineRecord, w: nat -> Weather, n: nat) returns (r: Result<bool, ClientError>, next: nat)
      requires Lawful(w) && Inv(Db()) && WellFormed(plan) && record in plan.records
      modifies this
      ensures Inv(Db()) && Ran(old(Db()), Db(), w, n, next, [Write(plan, record)])
      ensures r.Ok? && r.value ==> record.StorageKey() in items && items[record.StorageKey()] == record
      ensures r.Ok? && !r.value ==> IsClosed(Db(), plan)
      ensures Calm(w) && OwnerIs(old(Db()), plan, Writing) ==>
                && (r.Ok? <==> Clear(old(Db()), record)) && owners == old(owners)
                && (r.Ok? ==> r.value && items == old(items)[record.StorageKey() := record])
    {
      hide Inv;
      hide Ran;
      ghost var start := Db();
      var ok := WriteRecord(plan, record, w, n);
      next := n + 1;
      if ok { return Ok(true), next; }
      ghost var t := Db();
      var current := ReadOwner(plan, w, n + 1);
      next := n + 2;
      RanOnMet(start, t, Db(), w, n, n + 1, n + 2, [Write(plan, record)], []);
      if current.Err? { return Err(current.error), next; }
      if current.value.None? || current.value.value.state == Writing { return Err(RequestFailed), next; }
      r := Ok(false);
    }

    /** Write every record, unless another writer closes the generation first. */
    method WriteAll(plan: Plan, w: nat -> Weather, n: nat) returns (r: Result<(), ClientError>, next: nat, ghost written: nat)
      requires Lawful(w) && Inv(Db()) && WellFormed(plan)
      modifies this
      ensures written <= |plan.records|
      ensures Inv(Db()) && Ran(old(Db()), Db(), w, n, next, WritesOf(plan, written))
      ensures r.Ok? ==> IsClosed(Db(), plan) || StoredUpTo(Db(), plan, |plan.records|)
      ensures Calm(w) && OwnerIs(old(Db()), plan, Writing) ==>
                && (r.Ok? <==> ClearUpTo(old(Db()), plan, |plan.records|)) && owners == old(owners)
                && (r.Ok? ==> AddedOnly(old(Db()), Db(), plan))
    {
      hide Inv;
      hide Ran;
      hide Reaches;
      assert WritesOf(plan, 0) == [];
      hide WritesOf;
      ghost var start := Db();
      ghost var calm := Calm(w) && OwnerIs(start, plan, Writing);
      RanNot(start, w, n);
      next, written := n, 0;
      for i := 0 to |plan.records|
        invariant Inv(Db()) && Ran(start, Db(), w, n, next, WritesOf(plan, i)) && StoredUpTo(Db(), plan, i)
        invariant calm ==> Wrote(start, Db(), plan, i) && AddedOnly(start, Db(), plan)
      {
        ghost var t, before := Db(), next;
        var stored;
        stored, next := WriteOrStop(plan, plan.records[i], w, next);
        written := i + 1;
        RanOn(start, t, Db(), w, n, before, next, WritesOf(plan, i), [Write(plan, plan.records[i])]);
        OneMoreWrite(plan, i);
        RanReaches(t, Db(), w, before, next, [Write(plan, plan.records[i])]);
        StoredStays(t, Db(), plan, i);
        if stored.Err? { return Err(stored.error), next, written; }
        if !stored.value { return Ok(()), next, written; }
        StoredNext(Db(), plan, i);
        if calm { WroteNext(start, t, Db(), plan, i); }
      }
      written := |plan.records|;
      r := Ok(());
    }

    /** The validation transaction: owner to VALIDATED and the control item, together. */
    method TransactValidation(plan: Plan, w: nat -> Weather, n: nat) returns (ok: bool)
      requires Lawful(w) && Inv(Db()) && WellFormed(plan)
      modifies this
      ensures Inv(Db()) && Ran(old(Db()), Db(), w, n, n + 1, [Validate(plan)])
      ensures ok ==> OwnerIs(Db(), plan, Validated)
      ensures w(n).fault == Delivered && IsClosed(old(Db()), plan) ==> OwnerIs(Db(), plan, Validated)
      ensures IsCalm(w(n)) ==> items == old(items)
    {
      hide Ran;
      hide Reaches;
      ghost var start := Db();
      RanByStep(start, w, n, Validate(plan));
      Others(w, n);
      ghost var t := Db();
      RanStays(start, t, plan, w, n, n + 1, []);
      ValidateKeeps(t, plan);
      if w(n).fault == LostRequest { return false; }
      if ValidationToken(plan) in committed && w(n).replayed {
        assert TokenHolds(t, ValidationToken(plan));
        return w(n).fault == Delivered;
      }
      assert OwnerIs(t, plan, Sealed) ==> ControlHolds(t, (plan.envelope.featureSet, plan.generationId));
      if !ValidateHolds(Db(), plan) { return false; }
      owners := owners[plan.generationId := Owner(plan, Validated, Some(ReceiptOf(plan)))];
      controls := controls[(plan.envelope.featureSet, plan.generationId) := ReceiptOf(plan)];
      committed := committed + {ValidationToken(plan)};
      ok := w(n).fault == Delivered;
    }

    /** The validation transaction, or a reading that shows it happened. */
    method ValidateOrConfirm(plan: Plan, w: nat -> Weather, n: nat) returns (r: Result<(), ClientError>, next: nat)
      requires Lawful(w) && Inv(Db()) && WellFormed(plan)
      modifies this
      ensures Inv(Db()) && Ran(old(Db()), Db(), w, n, next, [Validate(plan)])
      ensures r.Ok? ==> OwnerIs(Db(), plan, Validated)
      ensures AllDelivered(w) && IsClosed(old(Db()), plan) ==> r.Ok?
      ensures Calm(w) ==> items == old(items)
    {
      hide Ran;
      hide Reaches;
      ghost var start := Db();
      var ok := TransactValidation(plan, w, n);
      next := n + 1;
      if !ok {
        ghost var t := Db();
        var current := ReadOwner(plan, w, n + 1);
        next := n + 2;
        RanOnMet(start, t, Db(), w, n, n + 1, n + 2, [Validate(plan)], []);
        RanReaches(t, Db(), w, n + 1, n + 2, []);
        if OwnerIs(t, plan, Validated) { ValidatedStays(t, Db(), plan); }
        assert OwnerHolds(Db(), plan.generationId);
        if current.Err? || current.value.None? || current.value.value.state != Validated
           || current.value.value.receipt != Some(ReceiptOf(plan)) { return Err(RequestFailed), next; }
      }
      r := Ok(());
    }

    /** From a scanned, sealed generation to its durable receipt. */
    method Certify(plan: Plan, w: nat -> Weather, n: nat) returns (r: Result<Receipt, ClientError>, next: nat, ghost sent: bool)
      requires Lawful(w) && Inv(Db()) && WellFormed(plan)
      modifies this
      ensures Inv(Db()) && Ran(old(Db()), Db(), w, n, next, if sent then [Validate(plan)] else [])
      ensures r.Ok? ==> sent && r.value == ReceiptOf(plan) && Published(Db(), plan)
      ensures AllDelivered(w) && IsClosed(old(Db()), plan) ==> r.Ok?
      ensures Calm(w) ==> items == old(items)
    {
      hide Ran;
      hide Reaches;
      hide Inv;
      ghost var start := Db();
      var owner := ReadOwner(plan, w, n);
      next, sent := n + 1, false;
      RanStays(start, Db(), plan, w, n, n + 1, []);
      if owner.Err? || owner.value.None? { return Err(RequestFailed), next, sent; }
      ghost var t := Db();
      var validated;
      validated, next := ValidateOrConfirm(plan, w, next);
      sent := true;
      RanOnMet(start, t, Db(), w, n, n + 1, next, [], [Validate(plan)]);
      if validated.Err? { return Err(validated.error), next, sent; }
      ghost var t', before := Db(), next;
      Others(w, next);
      var fault := w(next).fault;
      next := next + 1;
      RanOnMet(start, t', Db(), w, n, before, next, [Validate(plan)], []);
      RanReaches(t', Db(), w, before, next, []);
      ValidatedStays(t', Db(), plan);
      var key := (plan.envelope.featureSet, plan.generationId);
      if fault != Delivered || key !in controls || controls[key] != ReceiptOf(plan) { return Err(NoReceipt), next, sent; }
      r := Ok(ReceiptOf(plan));
    }

    /** Acquire, write and seal, up to a closed generation. */
    method CloseGeneration(plan: Plan, w: nat -> Weather) returns (r: Result<(), ClientError>, next: nat, ghost done: Progress)
      requires Lawful(w) && Inv(Db()) && WellFormed(plan)
      modifies this
      ensures done.written <= |plan.records| && !done.validated
      ensures Inv(Db()) && Ran(old(Db()), Db(), w, 0, next, StepsOf(plan, done))
      ensures r.Ok? ==> IsClosed(Db(), plan)
      ensures AllDelivered(w) && IsClosed(old(Db()), plan) ==> r.Ok?
      ensures Calm(w) ==> (r.Ok? <==> Unobstructed(old(Db()), plan))
      ensures Calm(w) && r.Ok? ==> AddedOnly(old(Db()), Db(), plan)
    {
      hide Ran;
      hide Inv;
      hide Reaches;
      hide StepsOf;
      ghost var start := Db();
      var acquired;
      ghost var sent;
      acquired, next, sent := AcquireOwner(plan, w);
      done := Progress(sent, 0, false, false);
      StepsGrow(plan, done);
      if acquired.Err? { return Err(acquired.error), next, done; }
      ghost var t, before := Db(), next;
      assert Calm(w) ==> ClearUpTo(t, plan, |plan.records|) == ClearUpTo(start, plan, |plan.records|);
      if acquired.value != Writing {
        ClosedIsUnobstructed(t, plan);
        return Ok(()), next, done;
      }
      var written;
      ghost var n;
      written, next, n := WriteAll(plan, w, next);
      RanOn(start, t, Db(), w, 0, before, next, StepsOf(plan, done), WritesOf(plan, n));
      done := done.(written := n);
      StepsGrow(plan, done);
      RanReaches(t, Db(), w, before, next, WritesOf(plan, n));
      ReachingKeeps(t, Db());
      KnowledgeStays(t, Db(), plan, 0);
      if written.Err? { return Err(written.error), next, done; }
      ghost var t', before' := Db(), next;
      r, next := SealGeneration(plan, w, next);
      RanOn(start, t', Db(), w, 0, before', next, StepsOf(plan, done), [Seal(plan)]);
      done := done.(sealed := true);
    }

    /** `materialize`. `pages` are the scan's responses, whatever they are. Its effect is that of its
        own plan's requests, in their order, between exactly the others' steps it meets; a receipt
        means exact publication. With every request delivered and the generation closed it succeeds,
        whatever others do, exactly when the scan accepts: with an honest service, exactly when the
        scan ends in its budget. Undisturbed, it succeeds exactly when the generation and its keys
        are not another's and the scan accepts; and with an honest service exactly when, beside that,
        the whole table with the plan in it is small enough for the plan's request budget. */
    method Materialize(plan: Plan, w: nat -> Weather, pages: nat -> ScanPage, ghost rank: Key -> int, ghost later: nat -> Tables)
      returns (r: Result<Receipt, ClientError>, next: nat, ghost done: Progress)
      requires Lawful(w) && Inv(Db()) && WellFormed(plan)
      modifies this
      ensures done.written <= |plan.records|
      ensures Inv(Db()) && Ran(old(Db()), Db(), w, 0, next, StepsOf(plan, done))
      ensures r.Ok? ==> done.validated && r.value == ReceiptOf(plan) && Published(Db(), plan) && Accepts(plan, pages)
      ensures AllDelivered(w) && IsClosed(old(Db()), plan) ==> (r.Ok? <==> Accepts(plan, pages))
      ensures AllDelivered(w) && IsClosed(old(Db()), plan) && HonestDuring(old(Db()), plan, rank, later, pages) ==>
                (r.Ok? <==> EndsInBudget(plan, pages))
      ensures Calm(w) ==> (r.Ok? <==> Unobstructed(old(Db()), plan) && Accepts(plan, pages))
      ensures Calm(w) && HonestPages(plan, rank, Db().items, pages) ==>
                (r.Ok? <==> Unobstructed(old(Db()), plan) && SizeWith(old(items), plan) < PAGE_LIMIT * Budget(plan))
    {
      hide Inv;
      hide Ran;
      hide Reaches;
      hide StepsOf;
      hide HonestDuring;
      hide EndsInBudget;
      hide Unobstructed;
      hide Published;
      hide HonestPages;
      hide Accepts;
      hide AddedOnly;
      hide SizeWith;
      hide Budget;
      ghost var start := Db();
      if IsClosed(start, plan) && HonestDuring(start, plan, rank, later, pages) { ClosedScanIff(start, plan, rank, later, pages); }
      var closed;
      closed, next, done := CloseGeneration(plan, w);
      if closed.Err? { return Err(closed.error), next, done; }
      ghost var t, before := Db(), next;
      RanReaches(start, t, w, 0, next, StepsOf(plan, done));
      if Calm(w) && HonestPages(plan, rank, Db().items, pages) { HonestScanOf(start, t, plan, rank, pages); }
      var owner := ReadOwner(plan, w, next);
      next := next + 1;
      RanOnMet(start, t, Db(), w, 0, before, next, StepsOf(plan, done), []);
      RanStays(t, Db(), plan, w, before, next, []);
      if owner.Err? || owner.value.None? || owner.value.value.state == Writing { return Err(RequestFailed), next, done; }
      var scanned := Records(plan, pages);
      if scanned.Err? { return Err(ScanFailed(scanned.error)), next, done; }
      ghost var t', before' := Db(), next;
      ghost var sent;
      r, next, sent := Certify(plan, w, next);
      StepsGrow(plan, done);
      RanOn(start, t', Db(), w, 0, before', next, StepsOf(plan, done), if sent then [Validate(plan)] else []);
      assert StepsOf(plan, done) + [] == StepsOf(plan, done);
      done := done.(validated := sent);
    }

    /** `replay`: the durable operation item, if it is exactly this request's. */
    method ReadOperation(q: Request, w: nat -> Weather, n: nat) returns (r: Result<bool, ClientError>)
      requires Lawful(w) && Inv(Db())
      modifies this
      ensures Inv(Db()) && Ran(old(Db()), Db(), w, n, n + 1, [])
      ensures r.Ok? && r.value ==> (q.featureSet, q.operationId) in operations && operations[(q.featureSet, q.operationId)] == q
      ensures IsCalm(w(n)) ==> Db() == old(Db()) && (r == Ok(false) <==> (q.featureSet, q.operationId) !in operations)
      ensures IsCalm(w(n)) && (q.featureSet, q.operationId) in operations ==> (r.Ok? <==> operations[(q.featureSet, q.operationId)] == q)
    {
      Others(w, n);
      if w(n).fault != Delivered { return Err(RequestFailed); }
      var key := (q.featureSet, q.operationId);
      if key !in operations { return Ok(false); }
      if operations[key] != q { return Err(OtherOperation); }
      r := Ok(true);
    }

    method TransactActivation(plan: Plan, q: Request, w: nat -> Weather, n: nat) returns (ok: bool)
      requires Lawful(w) && Inv(Db()) && WellFormed(plan) && RequestFor(plan, q)
      modifies this
      ensures Inv(Db()) && Ran(old(Db()), Db(), w, n, n + 1, [Activate(plan, q)])
      ensures ok ==> (q.featureSet, q.operationId) in operations && operations[(q.featureSet, q.operationId)] == q
      ensures IsCalm(w(n)) && (q.featureSet, q.operationId) !in old(Db()).operations ==>
                && ok == ActivateHolds(old(Db()), plan, q) && (!ok ==> Db() == old(Db()))
                && (ok ==> pointers == old(pointers)[q.featureSet := Pointer(q.generationId, q.expectedVersion + 1)])
    {
      hide Ran;
      RanByStep(Db(), w, n, Activate(plan, q));
      Others(w, n);
      ghost var t := Db();
      ActivateKeeps(t, plan, q);
      if w(n).fault == LostRequest { return false; }
      if ActivationToken(q) in committed && w(n).replayed {
        assert TokenHolds(t, ActivationToken(q));
        return w(n).fault == Delivered;
      }
      if !ActivateHolds(Db(), plan, q) { return false; }
      ActivationEffect(t, plan, q);
      pointers := pointers[q.featureSet := Pointer(q.generationId, q.expectedVersion + 1)];
      operations := operations[(q.featureSet, q.operationId) := q];
      committed := committed + {ActivationToken(q)};
      assert Db() == Apply(t, Activate(plan, q));
      ok := w(n).fault == Delivered;
    }

    /** The activation transaction, or a reading that shows it happened. */
    method ActivateOrConfirm(plan: Plan, q: Request, w: nat -> Weather, n: nat) returns (r: Result<(), ClientError>, next: nat)
      requires Lawful(w) && Inv(Db()) && WellFormed(plan) && RequestFor(plan, q)
      modifies this
      ensures Inv(Db()) && Ran(old(Db()), Db(), w, n, next, [Activate(plan, q)])
      ensures r.Ok? ==> (q.featureSet, q.operationId) in operations && operations[(q.featureSet, q.operationId)] == q
      ensures Calm(w) && (q.featureSet, q.operationId) !in old(Db()).operations ==>
                (r.Ok? <==> ActivateHolds(old(Db()), plan, q))
    {
      hide Ran;
      hide Inv;
      ghost var start := Db();
      var ok := TransactActivation(plan, q, w, n);
      next := n + 1;
      if !ok {
        ghost var t := Db();
        var confirmed := ReadOperation(q, w, n + 1);
        next := n + 2;
        RanOnMet(start, t, Db(), w, n, n + 1, n + 2, [Activate(plan, q)], []);
        if confirmed.Err? { return Err(confirmed.error), next; }
        if !confirmed.value { return Err(RequestFailed), next; }
      }
      r := Ok(());
    }

    /** `activate`: success means the operation is recorded, with exactly this request, and so (by
        OneActivationPerVersion) moved the pointer once from what it expected. Its effect is that of
        this one request. Undisturbed, it succeeds exactly on a replay or when every condition holds. */
    method ActivateGeneration(plan: Plan, q: Request, w: nat -> Weather) returns (r: Result<int, ClientError>, next: nat, ghost sent: bool)
      requires Lawful(w) && Inv(Db()) && WellFormed(plan) && RequestFor(plan, q)
      modifies this
      ensures Inv(Db()) && Ran(old(Db()), Db(), w, 0, next, if sent then [Activate(plan, q)] else [])
      ensures r.Ok? ==> r.value == q.expectedVersion + 1
      ensures r.Ok? ==> (q.featureSet, q.operationId) in operations && operations[(q.featureSet, q.operationId)] == q
      ensures r.Ok? ==> q.featureSet in pointers && q.expectedVersion < pointers[q.featureSet].version
      ensures Calm(w) ==>
                (r.Ok? <==>
                   var key, operations := (q.featureSet, q.operationId), old(Db()).operations;
                   if key in operations then operations[key] == q else ActivateHolds(old(Db()), plan, q))
    {
      hide Ran;
      hide Inv;
      ghost var start := Db();
      var done := ReadOperation(q, w, 0);
      next, sent := 1, false;
      if done.Err? { return Err(done.error), next, sent; }
      if !done.value {
        ghost var t := Db();
        var activated;
        activated, next := ActivateOrConfirm(plan, q, w, 1);
        sent := true;
        RanOnMet(start, t, Db(), w, 0, 1, next, [], [Activate(plan, q)]);
        if activated.Err? { return Err(activated.error), next, sent; }
      }
      RecordedIsCounted(Db(), q);
      r := Ok(q.expectedVersion + 1);
    }
  }
}
