/** The DynamoDB tables of `DynamoOnlineRuntime` (`src/featureforge/aws_runtime.py`) and the
    writes its clients make. Each conditional write or transaction is one atomic step; a run is any
    interleaving of any number of clients' steps, crashes included. */
module CandidateTable {
  import opened Ordering
  import opened OnlinePlan

  datatype OwnerState = Writing | Sealed | Validated

  /** Item `GENERATION#g` / `OWNER` of the control table. */
  datatype Owner = Owner(plan: Plan, state: OwnerState, receipt: Option<Receipt>)

  /** Item `CONTROL#f` / `ACTIVE`. */
  datatype Pointer = Pointer(generation: string, version: int)

  /** An activation request; the item `CONTROL#f` / `OP#id` carries its digest. */
  datatype Request = Request(
    featureSet: string,
    generationId: string,
    expectedGeneration: Option<string>,
    expectedVersion: int,
    operationId: string,
    receiptDigest: Receipt)

  /** `ClientRequestToken`s, digests of what they name. */
  datatype Token = RecordToken(plan: Plan, record: OnlineRecord) | ValidationToken(plan: Plan) | ActivationToken(request: Request)

  datatype Tables = Tables(
    owners: map<string, Owner>,
    items: map<Key, OnlineRecord>,
    controls: map<(string, string), Receipt>,
    pointers: map<string, Pointer>,
    operations: map<(string, string), Request>,
    committed: set<Token>)

  const EMPTY := Tables(map[], map[], map[], map[], map[], {})

  // ---- Conditions of the writes -----------------------------------------------------------------------------

  predicate OwnerIs(t: Tables, plan: Plan, state: OwnerState) {
    && plan.generationId in t.owners
    && t.owners[plan.generationId].plan == plan && t.owners[plan.generationId].state == state
  }

  /** The owner check and the conditional put of one record transaction. */
  predicate WriteHolds(t: Tables, plan: Plan, record: OnlineRecord) {
    && OwnerIs(t, plan, Writing)
    && (record.StorageKey() in t.items ==> t.items[record.StorageKey()] == record)
  }

  predicate ValidateHolds(t: Tables, plan: Plan) {
    var key := (plan.envelope.featureSet, plan.generationId);
    && OwnerIs(t, plan, Sealed)
    && (key in t.controls ==> t.controls[key] == ReceiptOf(plan))
  }

  /** The pointer condition: absent for the first activation, else both expected values. */
  predicate PointerIs(t: Tables, q: Request) {
    if q.expectedGeneration == None && q.expectedVersion == 0 then q.featureSet !in t.pointers
    else q.expectedGeneration.Some? && q.featureSet in t.pointers
         && t.pointers[q.featureSet] == Pointer(q.expectedGeneration.value, q.expectedVersion)
  }

  predicate ActivateHolds(t: Tables, plan: Plan, q: Request) {
    var key := (q.featureSet, q.generationId);
    && key in t.controls && t.controls[key] == q.receiptDigest
    && PointerIs(t, q)
    && (q.featureSet, q.operationId) !in t.operations
    && OwnerIs(t, plan, Validated) && t.owners[plan.generationId].receipt == Some(q.receiptDigest)
  }

  /** The request `activate` builds for a plan. */
  predicate RequestFor(plan: Plan, q: Request) {
    q.featureSet == plan.envelope.featureSet && q.generationId == plan.generationId && 0 <= q.expectedVersion
  }

  // ---- Steps -----------------------------------------------------------------------------------------------

  datatype Step =
    | Acquire(plan: Plan)
    | Write(plan: Plan, record: OnlineRecord)
    | Seal(plan: Plan)
    | Validate(plan: Plan)
    | Activate(plan: Plan, request: Request)

  /** Every record of the plan is stored. */
  predicate Complete(t: Tables, plan: Plan) {
    forall r | r in plan.records :: r.StorageKey() in t.items && t.items[r.StorageKey()] == r
  }

  /** What the clients' writes do. A client seals only a complete generation: that is a property
      of its program, and CandidateClient proves it. */
  function Apply(t: Tables, step: Step): Tables {
    match step
    case Acquire(plan) =>
      if plan.generationId in t.owners then t else t.(owners := t.owners[plan.generationId := Owner(plan, Writing, None)])
    case Write(plan, record) =>
      if record in plan.records && WriteHolds(t, plan, record)
      then t.(items := t.items[record.StorageKey() := record], committed := t.committed + {RecordToken(plan, record)}) else t
    case Seal(plan) =>
      if OwnerIs(t, plan, Writing) && Complete(t, plan)
      then t.(owners := t.owners[plan.generationId := Owner(plan, Sealed, None)]) else t
    case Validate(plan) =>
      if ValidateHolds(t, plan)
      then t.(owners := t.owners[plan.generationId := Owner(plan, Validated, Some(ReceiptOf(plan)))],
              controls := t.controls[(plan.envelope.featureSet, plan.generationId) := ReceiptOf(plan)],
              committed := t.committed + {ValidationToken(plan)}) else t
    case Activate(plan, q) =>
      if RequestFor(plan, q) && ActivateHolds(t, plan, q)
      then t.(pointers := t.pointers[q.featureSet := Pointer(q.generationId, q.expectedVersion + 1)],
              operations := t.operations[(q.featureSet, q.operationId) := q],
              committed := t.committed + {ActivationToken(q)}) else t
  }

  ghost predicate AllLegal(steps: seq<Step>) {
    forall step | step in steps :: WellFormed(step.plan)
  }

  function Run(t: Tables, steps: seq<Step>): Tables {
    if steps == [] then t else Apply(Run(t, steps[..|steps| - 1]), steps[|steps| - 1])
  }

  lemma RunOne(t: Tables, steps: seq<Step>, step: Step)
    ensures Run(t, steps + [step]) == Apply(Run(t, steps), step)
  {
    assert (steps + [step])[..|steps|] == steps;
  }

  lemma {:induction false} RunTwice(t: Tables, a: seq<Step>, b: seq<Step>)
    ensures Run(t, a + b) == Run(Run(t, a), b)
  {
    if b == [] {
      assert a + b == a;
    } else {
      var last := |b| - 1;
      RunTwice(t, a, b[..last]);
      assert a + b == (a + b[..last]) + [b[last]];
      RunOne(t, a + b[..last], b[last]);
    }
  }

  // ---- Invariant -------------------------------------------------------------------------------------------

  ghost predicate OwnerHolds(t: Tables, g: string) {
    g in t.owners ==>
      var owner := t.owners[g];
      && WellFormed(owner.plan) && owner.plan.generationId == g
      && (owner.state != Writing ==> Complete(t, owner.plan))
      && (owner.receipt == if owner.state == Validated then Some(ReceiptOf(owner.plan)) else None)
      && (owner.state == Validated ==>
            var key := (owner.plan.envelope.featureSet, g);
            key in t.controls && t.controls[key] == ReceiptOf(owner.plan))
  }

  /** Every stored item was written under its generation's owner. */
  predicate ItemHolds(t: Tables, k: Key) {
    k in t.items ==>
      var r := t.items[k];
      r.StorageKey() == k && r.generationId in t.owners && r in t.owners[r.generationId].plan.records
  }

  predicate ControlHolds(t: Tables, key: (string, string)) {
    key in t.controls ==>
      key.1 in t.owners && t.owners[key.1].state == Validated && key.0 == t.owners[key.1].plan.envelope.featureSet
  }

  /** The active generation is validated. */
  predicate PointerHolds(t: Tables, f: string) {
    f in t.pointers ==>
      && 1 <= t.pointers[f].version
      && t.pointers[f].generation in t.owners
      && t.owners[t.pointers[f].generation].state == Validated
      && t.owners[t.pointers[f].generation].plan.envelope.featureSet == f
  }

  predicate OperationHolds(t: Tables, key: (string, string)) {
    key in t.operations ==>
      var q := t.operations[key];
      key == (q.featureSet, q.operationId) && key.0 in t.pointers && 0 <= q.expectedVersion < t.pointers[key.0].version
  }

  predicate OperationsDiffer(t: Tables, key: (string, string), key': (string, string)) {
    key in t.operations && key' in t.operations && key.0 == key'.0 && key != key' ==>
      t.operations[key].expectedVersion != t.operations[key'].expectedVersion
  }

  /** Each operation moved the pointer from its own expected version. */
  ghost predicate OperationsHold(t: Tables) {
    && (forall key {:trigger OperationHolds(t, key)} :: OperationHolds(t, key))
    && (forall key, key' {:trigger OperationsDiffer(t, key, key')} :: OperationsDiffer(t, key, key'))
  }

  predicate TokenHolds(t: Tables, token: Token) {
    match token
    case RecordToken(plan, r) =>
      && r.StorageKey() in t.items && t.items[r.StorageKey()] == r
      && plan.generationId in t.owners && t.owners[plan.generationId].plan == plan
    case ValidationToken(plan) => OwnerIs(t, plan, Validated)
    case ActivationToken(q) => (q.featureSet, q.operationId) in t.operations && t.operations[(q.featureSet, q.operationId)] == q
  }

  ghost predicate Inv(t: Tables) {
    && (forall g {:trigger OwnerHolds(t, g)} :: OwnerHolds(t, g))
    && (forall k {:trigger ItemHolds(t, k)} :: ItemHolds(t, k))
    && (forall key {:trigger ControlHolds(t, key)} :: ControlHolds(t, key))
    && (forall f {:trigger PointerHolds(t, f)} :: PointerHolds(t, f))
    && (forall token {:trigger TokenHolds(t, token)} | token in t.committed :: TokenHolds(t, token))
    && OperationsHold(t)
  }

  /** The items a consistent, exhaustive read of the generation would find. */
  ghost function ItemsOf(t: Tables, g: string): set<OnlineRecord> {
    set k | k in t.items && t.items[k].generationId == g :: t.items[k]
  }

  /** A sealed or validated generation holds exactly the plan's records. */
  lemma SealedHoldsThePlan(t: Tables, g: string)
    requires Inv(t) && g in t.owners && t.owners[g].state != Writing
    ensures ItemsOf(t, g) == set r | r in t.owners[g].plan.records
  {
    var plan := t.owners[g].plan;
    assert OwnerHolds(t, g);
    forall r | r in plan.records ensures r in ItemsOf(t, g) {
      assert t.items[r.StorageKey()] == r;
    }
    forall r | r in ItemsOf(t, g) ensures r in plan.records {
      var k :| k in t.items && t.items[k].generationId == g && r == t.items[k];
      assert ItemHolds(t, k);
    }
  }

  // ---- Every step keeps the invariant ----------------------------------------------------------------------

  /** What a step leaves alone: owners keep their plans and only move on, items and controls stay. */
  ghost predicate Grows(t: Tables, t': Tables) {
    && (forall g | g in t.owners :: g in t'.owners && t'.owners[g].plan == t.owners[g].plan && MovesOn(t.owners[g], t'.owners[g]))
    && (forall k | k in t.items :: k in t'.items && t'.items[k] == t.items[k])
    && (forall key | key in t.controls :: key in t'.controls && t'.controls[key] == t.controls[key])
    && (forall key | key in t.operations :: key in t'.operations && t'.operations[key] == t.operations[key])
    && t.committed <= t'.committed
  }

  /** WRITING, then SEALED, then VALIDATED. */
  predicate MovesOn(owner: Owner, owner': Owner) {
    || owner' == owner
    || (owner.state == Writing && owner'.state in {Sealed, Validated})
    || (owner.state == Sealed && owner'.state == Validated)
  }

  lemma AcquireGrows(t: Tables, plan: Plan)
    ensures Grows(t, Apply(t, Acquire(plan)))
  {
  }

  lemma WriteGrows(t: Tables, plan: Plan, record: OnlineRecord)
    ensures Grows(t, Apply(t, Write(plan, record)))
  {
  }

  lemma SealGrows(t: Tables, plan: Plan)
    ensures Grows(t, Apply(t, Seal(plan)))
  {
  }

  lemma ValidateGrows(t: Tables, plan: Plan)
    ensures Grows(t, Apply(t, Validate(plan)))
  {
  }

  lemma ActivateGrows(t: Tables, plan: Plan, q: Request)
    ensures Grows(t, Apply(t, Activate(plan, q)))
  {
  }

  lemma StepGrows(t: Tables, step: Step)
    ensures Grows(t, Apply(t, step))
  {
    match step
    case Acquire(plan) => AcquireGrows(t, plan);
    case Write(plan, record) => WriteGrows(t, plan, record);
    case Seal(plan) => SealGrows(t, plan);
    case Validate(plan) => ValidateGrows(t, plan);
    case Activate(plan, q) => ActivateGrows(t, plan, q);
  }

  /** Tokens, items and pointers stay justified while the tables grow. */
  lemma GrowthKeeps(t: Tables, t': Tables)
    requires Inv(t) && Grows(t, t')
    ensures forall k | k in t.items :: ItemHolds(t', k)
    ensures forall token | token in t.committed :: TokenHolds(t', token)
    ensures forall f | f in t.pointers && f in t'.pointers && t'.pointers[f] == t.pointers[f] :: PointerHolds(t', f)
  {
    forall k | k in t.items ensures ItemHolds(t', k) {
      assert ItemHolds(t, k);
    }
    forall token | token in t.committed ensures TokenHolds(t', token) {
      assert TokenHolds(t, token);
    }
    forall f | f in t.pointers && f in t'.pointers && t'.pointers[f] == t.pointers[f] ensures PointerHolds(t', f) {
      assert PointerHolds(t, f);
    }
  }

  lemma OwnerStays(t: Tables, t': Tables, g: string)
    requires Inv(t) && Grows(t, t') && g in t.owners && t'.owners[g] == t.owners[g]
    ensures OwnerHolds(t', g)
  {
    assert OwnerHolds(t, g);
  }

  lemma SameOperations(t: Tables, t': Tables)
    requires OperationsHold(t) && t'.operations == t.operations && t'.pointers == t.pointers
    ensures OperationsHold(t')
  {
    forall key ensures OperationHolds(t', key) {
      assert OperationHolds(t, key);
    }
    forall key, key' ensures OperationsDiffer(t', key, key') {
      assert OperationsDiffer(t, key, key');
    }
  }

  /** All owners but `g` are as they were. */
  ghost predicate OtherOwnersSame(t: Tables, t': Tables, g: string) {
    forall h | h in t'.owners && h != g :: h in t.owners && t'.owners[h] == t.owners[h]
  }

  lemma OwnersKeep(t: Tables, t': Tables, g: string)
    requires Inv(t) && Grows(t, t') && OtherOwnersSame(t, t', g) && OwnerHolds(t', g)
    ensures forall h {:trigger OwnerHolds(t', h)} :: OwnerHolds(t', h)
  {
    forall h ensures OwnerHolds(t', h) {
      if h in t'.owners && h != g {
        OwnerStays(t, t', h);
      }
    }
  }

  /** A step that leaves pointers and operations alone keeps the invariant when it keeps its own
      owner, the controls, and what is new among items and tokens. */
  lemma StepKeeps(t: Tables, t': Tables, g: string)
    requires Inv(t) && Grows(t, t') && t'.pointers == t.pointers && t'.operations == t.operations
    requires OtherOwnersSame(t, t', g) && OwnerHolds(t', g)
    requires forall key {:trigger ControlHolds(t', key)} :: ControlHolds(t', key)
    requires forall k | k in t'.items && k !in t.items :: ItemHolds(t', k)
    requires forall token | token in t'.committed && token !in t.committed :: TokenHolds(t', token)
    ensures Inv(t')
  {
    hide OwnerHolds;
    hide ControlHolds;
    hide Grows;
    SameOperations(t, t');
    GrowthKeeps(t, t');
    OwnersKeep(t, t', g);
  }

  lemma AcquireKeeps(t: Tables, plan: Plan)
    requires Inv(t) && WellFormed(plan)
    ensures Inv(Apply(t, Acquire(plan)))
  {
    hide WellFormed;
    var t' := Apply(t, Acquire(plan));
    AcquireGrows(t, plan);
    AcquireOwner(t, plan);
    forall key ensures ControlHolds(t', key) {
      assert ControlHolds(t, key);
    }
    StepKeeps(t, t', plan.generationId);
  }

  lemma AcquireOwner(t: Tables, plan: Plan)
    requires OwnerHolds(t, plan.generationId) && WellFormed(plan)
    ensures OwnerHolds(Apply(t, Acquire(plan)), plan.generationId)
    ensures OtherOwnersSame(t, Apply(t, Acquire(plan)), plan.generationId)
  {
    hide WellFormed;
  }

  lemma WriteKeeps(t: Tables, plan: Plan, record: OnlineRecord)
    requires Inv(t)
    ensures Inv(Apply(t, Write(plan, record)))
  {
    var t' := Apply(t, Write(plan, record));
    assert OwnerHolds(t, plan.generationId);
    WriteGrows(t, plan, record);
    WriteItem(t, plan, record);
    hide OwnerHolds;
    hide Grows;
    forall key ensures ControlHolds(t', key) {
      assert ControlHolds(t, key);
    }
    WriteOwner(t, t', plan, record);
    StepKeeps(t, t', plan.generationId);
  }

  lemma WriteOwner(t: Tables, t': Tables, plan: Plan, record: OnlineRecord)
    requires Inv(t) && Grows(t, t') && t' == Apply(t, Write(plan, record))
    ensures OwnerHolds(t', plan.generationId) && OtherOwnersSame(t, t', plan.generationId)
  {
    assert OwnerHolds(t, plan.generationId);
    if plan.generationId in t.owners { OwnerStays(t, t', plan.generationId); }
  }

  lemma WriteItem(t: Tables, plan: Plan, record: OnlineRecord)
    requires OwnerHolds(t, plan.generationId)
    ensures var t' := Apply(t, Write(plan, record));
      && (forall k | k in t'.items && k !in t.items :: ItemHolds(t', k))
      && (forall token | token in t'.committed && token !in t.committed :: TokenHolds(t', token))
  {
  }

  lemma SealOwner(t: Tables, plan: Plan)
    requires OwnerHolds(t, plan.generationId)
    ensures OwnerHolds(Apply(t, Seal(plan)), plan.generationId)
    ensures OtherOwnersSame(t, Apply(t, Seal(plan)), plan.generationId)
  {
    hide WellFormed;
  }

  lemma SealControl(t: Tables, plan: Plan, key: (string, string))
    requires ControlHolds(t, key)
    ensures ControlHolds(Apply(t, Seal(plan)), key)
  {
    hide Complete;
  }

  lemma SealKeeps(t: Tables, plan: Plan)
    requires Inv(t)
    ensures Inv(Apply(t, Seal(plan)))
  {
    var t' := Apply(t, Seal(plan));
    assert OwnerHolds(t, plan.generationId);
    forall key ensures ControlHolds(t', key) {
      assert ControlHolds(t, key);
      SealControl(t, plan, key);
    }
    SealOwner(t, plan);
    SealGrows(t, plan);
    StepKeeps(t, t', plan.generationId);
  }

  lemma ValidateOwner(t: Tables, plan: Plan)
    requires OwnerHolds(t, plan.generationId)
    ensures OwnerHolds(Apply(t, Validate(plan)), plan.generationId)
    ensures OtherOwnersSame(t, Apply(t, Validate(plan)), plan.generationId)
  {
    hide WellFormed;
  }

  lemma ValidateKeeps(t: Tables, plan: Plan)
    requires Inv(t)
    ensures Inv(Apply(t, Validate(plan)))
  {
    var t' := Apply(t, Validate(plan));
    assert OwnerHolds(t, plan.generationId);
    forall key ensures ControlHolds(t', key) {
      assert ControlHolds(t, key);
      ValidateControl(t, plan, key);
    }
    ValidateOwner(t, plan);
    ValidateGrows(t, plan);
    StepKeeps(t, t', plan.generationId);
  }

  lemma ValidateControl(t: Tables, plan: Plan, key: (string, string))
    requires ControlHolds(t, key) && OwnerHolds(t, plan.generationId)
    ensures ControlHolds(Apply(t, Validate(plan)), key)
  {
    hide Complete;
    hide WellFormed;
  }

  lemma OperationsMove(t: Tables, plan: Plan, q: Request)
    requires OperationsHold(t) && PointerHolds(t, q.featureSet)
    ensures OperationsHold(Apply(t, Activate(plan, q)))
  {
    var t' := Apply(t, Activate(plan, q));
    forall key ensures OperationHolds(t', key) {
      assert OperationHolds(t, key);
    }
    forall key, key' ensures OperationsDiffer(t', key, key') {
      assert OperationHolds(t, key) && OperationHolds(t, key') && OperationsDiffer(t, key, key');
    }
  }

  lemma PointersMove(t: Tables, plan: Plan, q: Request)
    requires forall f {:trigger PointerHolds(t, f)} :: PointerHolds(t, f)
    ensures forall f :: PointerHolds(Apply(t, Activate(plan, q)), f)
  {
    forall f ensures PointerHolds(Apply(t, Activate(plan, q)), f) {
      assert PointerHolds(t, f);
    }
  }

  lemma ActivateKeeps(t: Tables, plan: Plan, q: Request)
    requires Inv(t)
    ensures Inv(Apply(t, Activate(plan, q)))
  {
    var t' := Apply(t, Activate(plan, q));
    ActivateGrows(t, plan, q);
    GrowthKeeps(t, t');
    forall g ensures OwnerHolds(t', g) {
      if g in t.owners { OwnerStays(t, t', g); }
    }
    forall key ensures ControlHolds(t', key) {
      assert ControlHolds(t, key);
    }
    PointersMove(t, plan, q);
    assert PointerHolds(t, q.featureSet);
    OperationsMove(t, plan, q);
  }

  lemma ApplyKeeps(t: Tables, step: Step)
    requires Inv(t) && WellFormed(step.plan)
    ensures Inv(Apply(t, step))
  {
    match step
    case Acquire(plan) => AcquireKeeps(t, plan);
    case Write(plan, record) => WriteKeeps(t, plan, record);
    case Seal(plan) => SealKeeps(t, plan);
    case Validate(plan) => ValidateKeeps(t, plan);
    case Activate(plan, q) => ActivateKeeps(t, plan, q);
  }

  lemma InitialHolds()
    ensures Inv(EMPTY)
  {
  }

  /** In every reachable state a SEALED or VALIDATED generation is complete, every stored item is
      its owner's, and every active generation is validated. */
  lemma {:induction false} RunKeeps(t: Tables, steps: seq<Step>)
    requires Inv(t) && AllLegal(steps)
    ensures Inv(Run(t, steps))
  {
    if steps != [] {
      RunKeeps(t, steps[..|steps| - 1]);
      ApplyKeeps(Run(t, steps[..|steps| - 1]), steps[|steps| - 1]);
    }
  }

  lemma GrowsOn(t: Tables, t': Tables, t'': Tables)
    requires Grows(t, t') && Grows(t', t'')
    ensures Grows(t, t'')
  {
    forall g | g in t.owners
      ensures g in t''.owners && t''.owners[g].plan == t.owners[g].plan && MovesOn(t.owners[g], t''.owners[g])
    {
      assert g in t'.owners && MovesOn(t.owners[g], t'.owners[g]) && MovesOn(t'.owners[g], t''.owners[g]);
    }
  }

  lemma {:induction false} RunGrows(t: Tables, steps: seq<Step>)
    ensures Grows(t, Run(t, steps))
  {
    if steps != [] {
      var before := Run(t, steps[..|steps| - 1]);
      RunGrows(t, steps[..|steps| - 1]);
      StepGrows(before, steps[|steps| - 1]);
      GrowsOn(t, before, Run(t, steps));
    }
  }

  /** Once a generation is SEALED its items are the plan's records, and no later run of any
      number of clients changes them, its plan, or moves it back. */
  lemma SealedIsFrozen(before: seq<Step>, after: seq<Step>, g: string)
    requires AllLegal(before) && AllLegal(after)
    ensures
      var t, t' := Run(EMPTY, before), Run(Run(EMPTY, before), after);
      g in t.owners && t.owners[g].state != Writing ==>
        && g in t'.owners && t'.owners[g].plan == t.owners[g].plan && MovesOn(t.owners[g], t'.owners[g])
        && ItemsOf(t', g) == ItemsOf(t, g) == set r | r in t.owners[g].plan.records
  {
    InitialHolds();
    var t, t' := Run(EMPTY, before), Run(Run(EMPTY, before), after);
    RunKeeps(EMPTY, before);
    RunKeeps(t, after);
    RunGrows(t, after);
    if g in t.owners && t.owners[g].state != Writing {
      SealedHoldsThePlan(t, g);
      SealedHoldsThePlan(t', g);
    }
  }

  /** In every reachable state the active generation of a feature set holds exactly the records
      of the plan it was validated for. */
  lemma ActiveIsComplete(steps: seq<Step>, f: string)
    requires AllLegal(steps)
    ensures
      var t := Run(EMPTY, steps);
      f in t.pointers ==>
        var g := t.pointers[f].generation;
        && g in t.owners && t.owners[g].state == Validated && t.owners[g].plan.envelope.featureSet == f
        && ItemsOf(t, g) == set r | r in t.owners[g].plan.records
  {
    InitialHolds();
    RunKeeps(EMPTY, steps);
    var t := Run(EMPTY, steps);
    assert PointerHolds(t, f);
    if f in t.pointers {
      SealedHoldsThePlan(t, t.pointers[f].generation);
    }
  }

  /** Of all activations of one feature set that expected one pointer version, at most one is
      recorded; and once recorded it stays, whatever runs later. */
  lemma OneActivationPerVersion(before: seq<Step>, after: seq<Step>, key: (string, string), key': (string, string))
    requires AllLegal(before)
    ensures
      var t, t' := Run(EMPTY, before), Run(Run(EMPTY, before), after);
      && (key in t.operations && key' in t.operations && key.0 == key'.0 && key != key' ==>
            t.operations[key].expectedVersion != t.operations[key'].expectedVersion)
      && (key in t.operations ==> key in t'.operations && t'.operations[key] == t.operations[key])
  {
    InitialHolds();
    RunKeeps(EMPTY, before);
    RunGrows(Run(EMPTY, before), after);
    assert OperationsDiffer(Run(EMPTY, before), key, key');
  }
}
