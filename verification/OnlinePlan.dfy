/** Materialization plans: `build_materialization_plan` and the value encoding of
    `src/featureforge/online.py`, and the projector's `project_online_records`. */
module OnlinePlan {
  import opened Ordering
  import opened Model
  import Decimals

  /** The typed stored value; a float feature is stored as decimal text. */
  datatype OnlineValue = NullKind | IntegerKind(integer: int) | FloatKind(decimal: string)

  /** A stored value read back: Python's `int | float | None`, a float being the number its text denotes. */
  datatype Decoded = NoValue | Whole(i: int) | Numeric(number: Decimals.Number)

  datatype PlanError =
    | MissingIdentity | NegativeTime | Empty | DefinitionCollision | DuplicateKey | SeveralGenerations
    | DefinitionMismatch | WrongValueType

  /** What the caller adds to the offline rows. */
  datatype Envelope = Envelope(featureSet: string, operationId: string, sourceDigest: string, materializedAt: int)
  {
    predicate Valid() {
      featureSet != "" && operationId != "" && sourceDigest != "" && 0 <= materializedAt
    }
  }

  /** A record and its digest determine each other, so the record stands for both. */
  datatype OnlineRecord = OnlineRecord(
    envelope: Envelope,
    generationId: string,
    customerId: string,
    featureName: string,
    definitionDigest: string,
    value: OnlineValue,
    eventCutoff: int,
    knowledgeCutoff: int,
    offlineRowsDigest: Digest<seq<FeatureValue>>,
    expiresAt: int)
  {
    function EntityKey(): Key {
      (customerId, featureName)
    }

    function StorageKey(): Key {
      ("ENTITY#" + customerId + GenerationSuffix(generationId), "FEATURE#" + featureName + DefinitionSuffix(definitionDigest))
    }
  }

  function GenerationSuffix(generationId: string): string {
    "#GEN#" + generationId
  }

  function DefinitionSuffix(definitionDigest: string): string {
    "#DEF#" + definitionDigest
  }

  /** Two plans are equal iff their `plan_digest`s are. */
  datatype Plan = Plan(
    envelope: Envelope,
    generationId: string,
    offlineRowsDigest: Digest<seq<FeatureValue>>,
    definitionSetDigest: Digest<set<string>>,
    records: seq<OnlineRecord>)

  /** A validation receipt: its other fields are fields of the plan. */
  datatype Receipt = Receipt(actualCount: nat, actualDigest: seq<OnlineRecord>, planDigest: Plan)

  /** The one receipt a plan can get. */
  function ReceiptOf(plan: Plan): Receipt {
    Receipt(|plan.records|, plan.records, plan)
  }

  /** `definition_digest` is a SHA-256 in hexadecimal. */
  const DIGEST_LENGTH: nat := 64

  predicate EntityLess(a: OnlineRecord, b: OnlineRecord) {
    KeyLess(a.EntityKey(), b.EntityKey())
  }

  predicate StorageLess(a: OnlineRecord, b: OnlineRecord) {
    KeyLess(a.StorageKey(), b.StorageKey())
  }

  predicate RowLess(a: FeatureValue, b: FeatureValue) {
    KeyLess(KeyOf(a), KeyOf(b))
  }

  /** `Decimal(str(x))` of a float: which decimal Python prints for it is left open. */
  const PRINTED: real -> Decimals.Number

  /** `Decimal(str(x))` of a feature value. */
  function NumberOf(v: Value): Decimals.Number
    requires !v.Null?
  {
    match v
    case Integer(i) => Decimals.Number(i < 0, if i < 0 then -i else i, 0)
    case Float(r) => PRINTED(r)
  }

  function Encode(valueType: ValueType, v: Value): Option<OnlineValue> {
    if v.Null? then Some(NullKind)
    else if valueType.IntegerType? then (if v.Integer? then Some(IntegerKind(v.i)) else None)
    else Some(FloatKind(Decimals.Canonical(NumberOf(v))))
  }

  /** `None` stands for the error on a text that is no plain decimal. */
  function Decode(o: OnlineValue): Option<Decoded> {
    match o
    case NullKind => Some(NoValue)
    case IntegerKind(i) => Some(Whole(i))
    case FloatKind(text) => if Decimals.IsPlain(text) then Some(Numeric(Decimals.Parse(text))) else None
  }

  /** The definition a digest selects; a later one replaces an earlier one. */
  function DefinitionByDigest(definitions: seq<FeatureDefinition>, digest: string): Option<FeatureDefinition> {
    if definitions == [] then None else
      var last := |definitions| - 1;
      if definitions[last].definitionDigest == digest then Some(definitions[last])
      else DefinitionByDigest(definitions[..last], digest)
  }

  lemma {:induction false} DefinitionFound(definitions: seq<FeatureDefinition>, digest: string)
    ensures var r := DefinitionByDigest(definitions, digest);
      if r.Some? then r.value in definitions && r.value.definitionDigest == digest
      else forall d | d in definitions :: d.definitionDigest != digest
  {
    if definitions != [] {
      var last := |definitions| - 1;
      DefinitionFound(definitions[..last], digest);
      assert definitions == definitions[..last] + [definitions[last]];
    }
  }

  predicate Recordable(definitions: seq<FeatureDefinition>, v: FeatureValue) {
    var d := DefinitionByDigest(definitions, v.definitionDigest);
    d.Some? && Encode(d.value.valueType, v.value).Some?
  }

  function RecordOf(envelope: Envelope, definitions: seq<FeatureDefinition>, rows: seq<FeatureValue>, v: FeatureValue): OnlineRecord
    requires Recordable(definitions, v)
  {
    var d := DefinitionByDigest(definitions, v.definitionDigest).value;
    OnlineRecord(envelope, v.generationId, v.customerId, v.featureName, v.definitionDigest,
                 Encode(d.valueType, v.value).value, v.eventTime, v.knowledgeTime, Digest(rows), v.eventTime + d.ttlSeconds)
  }

  // ---- What a plan is ----------------------------------------------------------------------------------

  ghost predicate DistinctKeys(values: seq<FeatureValue>) {
    forall i, j | 0 <= i < j < |values| :: KeyOf(values[i]) != KeyOf(values[j])
  }

  ghost predicate DistinctDigests(definitions: seq<FeatureDefinition>) {
    forall i, j | 0 <= i < j < |definitions| :: definitions[i].definitionDigest != definitions[j].definitionDigest
  }

  ghost predicate OneGeneration(values: seq<FeatureValue>) {
    forall v, w | v in values && w in values :: v.generationId == w.generationId
  }

  predicate Defined(definitions: seq<FeatureDefinition>, v: FeatureValue) {
    Recordable(definitions, v) && DefinitionByDigest(definitions, v.definitionDigest).value.name == v.featureName
  }

  ghost predicate Presentable(envelope: Envelope, definitions: seq<FeatureDefinition>, values: seq<FeatureValue>) {
    && envelope.Valid() && definitions != [] && values != []
    && DistinctDigests(definitions) && DistinctKeys(values) && OneGeneration(values)
  }

  ghost predicate Acceptable(envelope: Envelope, definitions: seq<FeatureDefinition>, values: seq<FeatureValue>) {
    Presentable(envelope, definitions, values) && forall v | v in values :: Defined(definitions, v)
  }

  /** What every plan the store is given looks like. */
  ghost predicate WellFormed(plan: Plan) {
    && plan.records != []
    && (forall r | r in plan.records ::
          r.envelope == plan.envelope && r.generationId == plan.generationId && |r.definitionDigest| == DIGEST_LENGTH)
    && (forall r, s | r in plan.records && s in plan.records && r.EntityKey() == s.EntityKey() :: r == s)
    && Increasing(plan.records, StorageLess)
  }

  /** Every row has its record. */
  ghost predicate Covers(records: seq<OnlineRecord>, envelope: Envelope, definitions: seq<FeatureDefinition>, rows: seq<FeatureValue>) {
    forall v | v in rows :: Recordable(definitions, v) && RecordOf(envelope, definitions, rows, v) in records
  }

  ghost predicate IsRowRecord(r: OnlineRecord, envelope: Envelope, definitions: seq<FeatureDefinition>, rows: seq<FeatureValue>) {
    exists v :: v in rows && Recordable(definitions, v) && r == RecordOf(envelope, definitions, rows, v)
  }

  /** Every record is that of a row. */
  ghost predicate OnlyFrom(records: seq<OnlineRecord>, envelope: Envelope, definitions: seq<FeatureDefinition>, rows: seq<FeatureValue>) {
    forall r {:trigger IsRowRecord(r, envelope, definitions, rows)} | r in records :: IsRowRecord(r, envelope, definitions, rows)
  }

  /** The plan of the rows: one record a row, in storage-key order, and nothing else. */
  ghost predicate IsPlanOf(plan: Plan, envelope: Envelope, definitions: seq<FeatureDefinition>, values: seq<FeatureValue>)
  {
    var rows := plan.offlineRowsDigest.content;
    && values != [] && plan.envelope == envelope && plan.generationId == values[0].generationId
    && plan.definitionSetDigest == Digest(set d | d in definitions :: d.definitionDigest)
    && (forall v :: v in rows <==> v in values) && Increasing(rows, RowLess)
    && WellFormed(plan) && Covers(plan.records, envelope, definitions, rows) && OnlyFrom(plan.records, envelope, definitions, rows)
  }

  // ---- Storage keys --------------------------------------------------------------------------------------

  lemma SameSuffix(a: string, b: string, x: string, y: string)
    requires a + x == b + y && |x| == |y|
    ensures a == b && x == y
  {
    assert a == (a + x)[..|a|] && b == (b + y)[..|b|];
    assert x == (a + x)[|a|..] && y == (b + y)[|b|..];
  }

  lemma PartitionKeyIdentifies(r: OnlineRecord, s: OnlineRecord)
    requires r.generationId == s.generationId
    ensures r.StorageKey().0 == s.StorageKey().0 <==> r.customerId == s.customerId
  {
    if r.StorageKey().0 == s.StorageKey().0 {
      SameSuffix("ENTITY#" + r.customerId, "ENTITY#" + s.customerId, GenerationSuffix(r.generationId), GenerationSuffix(s.generationId));
      assert r.customerId == ("ENTITY#" + r.customerId)[7..] == ("ENTITY#" + s.customerId)[7..] == s.customerId;
    }
  }

  /** Storage keys identify the entity key within one generation. */
  lemma StorageKeyIdentifies(r: OnlineRecord, s: OnlineRecord)
    requires r.generationId == s.generationId && |r.definitionDigest| == |s.definitionDigest|
    requires r.StorageKey() == s.StorageKey()
    ensures r.EntityKey() == s.EntityKey()
  {
    PartitionKeyIdentifies(r, s);
    SameSuffix("FEATURE#" + r.featureName, "FEATURE#" + s.featureName, DefinitionSuffix(r.definitionDigest), DefinitionSuffix(s.definitionDigest));
    assert r.featureName == ("FEATURE#" + r.featureName)[8..] == ("FEATURE#" + s.featureName)[8..] == s.featureName;
  }

  ghost predicate Within<T(!new)>(a: seq<T>, b: seq<T>) {
    forall x | x in a :: x in b
  }

  lemma SameRows(rows: seq<FeatureValue>, rows': seq<FeatureValue>)
    requires Increasing(rows, RowLess) && Increasing(rows', RowLess)
    requires forall v :: v in rows <==> v in rows'
    ensures rows == rows'
  {
    KeyOrder(set v | v in rows :: KeyOf(v));
    assert forall i | 0 <= i < |rows| :: rows[i] in rows;
    assert forall i | 0 <= i < |rows'| :: rows'[i] in rows';
    IncreasingIsUnique(rows, rows', RowLess);
  }

  lemma SameRecords(records: seq<OnlineRecord>, records': seq<OnlineRecord>)
    requires Increasing(records, StorageLess) && Increasing(records', StorageLess)
    requires Within(records, records') && Within(records', records)
    ensures records == records'
  {
    KeyOrder(set r | r in records :: r.StorageKey());
    assert forall i | 0 <= i < |records| :: records[i] in records;
    assert forall i | 0 <= i < |records'| :: records'[i] in records';
    IncreasingIsUnique(records, records', StorageLess);
  }

  // ---- Building ------------------------------------------------------------------------------------------

  lemma DigestsCollide(definitions: seq<FeatureDefinition>, index: map<string, FeatureDefinition>)
    requires index.Keys == set d | d in definitions :: d.definitionDigest
    ensures |index| == |definitions| <==> DistinctDigests(definitions)
  {
    var digests := seq(|definitions|, i requires 0 <= i < |definitions| => definitions[i].definitionDigest);
    assert forall i | 0 <= i < |definitions| :: digests[i] == definitions[i].definitionDigest;
    assert index.Keys == Elements(digests);
    DistinctCount(digests);
  }

  lemma KeysCollide(rows: seq<FeatureValue>)
    ensures |set v | v in rows :: KeyOf(v)| == |rows| <==> DistinctKeys(rows)
  {
    var keys := seq(|rows|, i requires 0 <= i < |rows| => KeyOf(rows[i]));
    assert forall i | 0 <= i < |rows| :: keys[i] == KeyOf(rows[i]);
    assert (set v | v in rows :: KeyOf(v)) == Elements(keys);
    DistinctCount(keys);
  }

  lemma OneIdentity(rows: seq<FeatureValue>)
    requires rows != []
    ensures |set v | v in rows :: v.generationId| == 1 <==> OneGeneration(rows)
  {
    var ids := set v | v in rows :: v.generationId;
    assert rows[0].generationId in ids;
    if |ids| == 1 {
      assert |ids - {rows[0].generationId}| == 0;
      assert forall v | v in rows :: v.generationId in ids && v.generationId !in ids - {rows[0].generationId};
    }
    if OneGeneration(rows) {
      assert ids == {rows[0].generationId};
    }
  }

  lemma SortedRowsKeepKeys(values: seq<FeatureValue>)
    ensures DistinctKeys(StableSort(values, RowLess)) <==> DistinctKeys(values)
    ensures OneGeneration(StableSort(values, RowLess)) <==> OneGeneration(values)
    ensures forall v :: v in StableSort(values, RowLess) <==> v in values
    ensures |StableSort(values, RowLess)| == |values|
  {
    var rows := StableSort(values, RowLess);
    StableSortElements(values, RowLess);
    assert |multiset(rows)| == |multiset(values)|;
    KeysCollide(values);
    KeysCollide(rows);
    assert (set v | v in rows :: KeyOf(v)) == (set v | v in values :: KeyOf(v));
  }

  method IndexDefinitions(definitions: seq<FeatureDefinition>) returns (index: map<string, FeatureDefinition>)
    ensures index.Keys == set d | d in definitions :: d.definitionDigest
    ensures forall g | g in index :: DefinitionByDigest(definitions, g) == Some(index[g])
  {
    index := map[];
    for i := 0 to |definitions|
      invariant index.Keys == set d | d in definitions[..i] :: d.definitionDigest
      invariant forall g | g in index :: DefinitionByDigest(definitions[..i], g) == Some(index[g])
    {
      assert definitions[..i + 1] == definitions[..i] + [definitions[i]];
      assert definitions[..i + 1][..i] == definitions[..i];
      index := index[definitions[i].definitionDigest := definitions[i]];
    }
    assert definitions[..|definitions|] == definitions;
  }

  /** The records appended by the loops, in row order. */
  ghost predicate Appended(records: seq<OnlineRecord>, envelope: Envelope, definitions: seq<FeatureDefinition>,
                           rows: seq<FeatureValue>, n: nat)
  {
    && |records| == n <= |rows|
    && forall i | 0 <= i < n :: Recordable(definitions, rows[i]) && records[i] == RecordOf(envelope, definitions, rows, rows[i])
  }

  lemma AppendedRecords(records: seq<OnlineRecord>, envelope: Envelope, definitions: seq<FeatureDefinition>, rows: seq<FeatureValue>)
    requires Appended(records, envelope, definitions, rows, |rows|)
    requires DistinctKeys(rows) && OneGeneration(rows)
    requires forall d | d in definitions :: |d.definitionDigest| == DIGEST_LENGTH
    ensures var sorted := StableSort(records, StorageLess);
      && Increasing(sorted, StorageLess) && |sorted| == |rows|
      && Covers(sorted, envelope, definitions, rows) && OnlyFrom(sorted, envelope, definitions, rows)
  {
    forall i, j | 0 <= i < j < |records| ensures records[i].StorageKey() != records[j].StorageKey() {
      assert rows[i] in rows && rows[j] in rows;
      assert records[i].EntityKey() == KeyOf(rows[i]) && records[j].EntityKey() == KeyOf(rows[j]);
      DefinitionFound(definitions, rows[i].definitionDigest);
      DefinitionFound(definitions, rows[j].definitionDigest);
      if records[i].StorageKey() == records[j].StorageKey() {
        StorageKeyIdentifies(records[i], records[j]);
      }
    }
    SortByKey(records, (r: OnlineRecord) => r.StorageKey(), StorageLess);
    var sorted := StableSort(records, StorageLess);
    forall v | v in rows ensures Recordable(definitions, v) && RecordOf(envelope, definitions, rows, v) in sorted {
      var i :| 0 <= i < |rows| && rows[i] == v;
      assert records[i] in records;
    }
    forall r | r in sorted ensures IsRowRecord(r, envelope, definitions, rows) {
      assert r in records;
      var i :| 0 <= i < |records| && records[i] == r;
      assert rows[i] in rows;
    }
  }

  lemma SortedIsWellFormed(plan: Plan, envelope: Envelope, definitions: seq<FeatureDefinition>, rows: seq<FeatureValue>)
    requires rows != [] && plan.envelope == envelope && plan.generationId == rows[0].generationId
    requires DistinctKeys(rows) && OneGeneration(rows)
    requires forall d | d in definitions :: |d.definitionDigest| == DIGEST_LENGTH
    requires Increasing(plan.records, StorageLess)
    requires Covers(plan.records, envelope, definitions, rows) && OnlyFrom(plan.records, envelope, definitions, rows)
    ensures WellFormed(plan)
  {
    assert rows[0] in rows;
    assert plan.records != [];
    forall r, s | r in plan.records && s in plan.records && r.EntityKey() == s.EntityKey() ensures r == s {
      assert IsRowRecord(r, envelope, definitions, rows);
      var v :| v in rows && Recordable(definitions, v) && r == RecordOf(envelope, definitions, rows, v);
      assert IsRowRecord(s, envelope, definitions, rows);
      var w :| w in rows && Recordable(definitions, w) && s == RecordOf(envelope, definitions, rows, w);
      assert KeyOf(v) == KeyOf(w);
      var i :| 0 <= i < |rows| && rows[i] == v;
      var j :| 0 <= j < |rows| && rows[j] == w;
    }
    forall r | r in plan.records
      ensures r.envelope == plan.envelope && r.generationId == plan.generationId && |r.definitionDigest| == DIGEST_LENGTH
    {
      assert IsRowRecord(r, envelope, definitions, rows);
      var v :| v in rows && Recordable(definitions, v) && r == RecordOf(envelope, definitions, rows, v);
      DefinitionFound(definitions, v.definitionDigest);
    }
  }

  method AppendRecords(envelope: Envelope, definitions: seq<FeatureDefinition>, index: map<string, FeatureDefinition>,
                       generationId: string, rows: seq<FeatureValue>)
    returns (r: Result<seq<OnlineRecord>, PlanError>)
    requires index.Keys == set d | d in definitions :: d.definitionDigest
    requires forall g | g in index :: DefinitionByDigest(definitions, g) == Some(index[g])
    requires forall v | v in rows :: v.generationId == generationId
    ensures r.Ok? <==> forall v | v in rows :: Defined(definitions, v)
    ensures r.Ok? ==> Appended(r.value, envelope, definitions, rows, |rows|)
  {
    hide Encode;
    var records: seq<OnlineRecord> := [];
    for i := 0 to |rows|
      invariant Appended(records, envelope, definitions, rows, i)
      invariant forall j | 0 <= j < i :: Defined(definitions, rows[j])
    {
      var v := rows[i];
      assert v in rows;
      DefinitionFound(definitions, v.definitionDigest);
      if v.definitionDigest !in index || index[v.definitionDigest].name != v.featureName { return Err(DefinitionMismatch); }
      var d := index[v.definitionDigest];
      var encoded := Encode(d.valueType, v.value);
      if encoded.None? { return Err(WrongValueType); }
      records := records + [OnlineRecord(envelope, generationId, v.customerId, v.featureName, v.definitionDigest,
                                         encoded.value, v.eventTime, v.knowledgeTime, Digest(rows), v.eventTime + d.ttlSeconds)];
    }
    r := Ok(records);
  }

  method Assemble(envelope: Envelope, definitions: seq<FeatureDefinition>, rows: seq<FeatureValue>, records: seq<OnlineRecord>)
    returns (plan: Plan)
    requires rows != [] && Increasing(rows, RowLess) && DistinctKeys(rows) && OneGeneration(rows)
    requires forall d | d in definitions :: |d.definitionDigest| == DIGEST_LENGTH
    requires Appended(records, envelope, definitions, rows, |rows|)
    ensures IsPlanOf(plan, envelope, definitions, rows) && plan.offlineRowsDigest == Digest(rows)
  {
    AppendedRecords(records, envelope, definitions, rows);
    plan := Plan(envelope, rows[0].generationId, Digest(rows), Digest(set d | d in definitions :: d.definitionDigest),
                 StableSort(records, StorageLess));
    SortedIsWellFormed(plan, envelope, definitions, rows);
  }

  /** The checks made before any record is built. */
  method CheckInputs(envelope: Envelope, definitions: seq<FeatureDefinition>, values: seq<FeatureValue>) returns (problem: Option<PlanError>)
    ensures problem.None? <==> Presentable(envelope, definitions, values)
  {
    if envelope.featureSet == "" || envelope.operationId == "" || envelope.sourceDigest == "" { return Some(MissingIdentity); }
    if envelope.materializedAt < 0 { return Some(NegativeTime); }
    if definitions == [] || values == [] { return Some(Empty); }
    var index := IndexDefinitions(definitions);
    DigestsCollide(definitions, index);
    if |index| != |definitions| { return Some(DefinitionCollision); }
    var rows := StableSort(values, RowLess);
    SortedRowsKeepKeys(values);
    KeysCollide(rows);
    if |set v | v in rows :: KeyOf(v)| != |rows| { return Some(DuplicateKey); }
    OneIdentity(rows);
    if |set v | v in rows :: v.generationId| != 1 { return Some(SeveralGenerations); }
    problem := None;
  }

  method BuildMaterializationPlan(envelope: Envelope, definitions: seq<FeatureDefinition>, values: seq<FeatureValue>)
    returns (r: Result<Plan, PlanError>)
    requires forall d | d in definitions :: |d.definitionDigest| == DIGEST_LENGTH
    ensures r.Ok? <==> Acceptable(envelope, definitions, values)
    ensures r.Ok? ==> IsPlanOf(r.value, envelope, definitions, values)
  {
    var problem := CheckInputs(envelope, definitions, values);
    if problem.Some? { return Err(problem.value); }
    var rows := StableSort(values, RowLess);
    SortedRowsKeepKeys(values);
    SortByKey(values, KeyOf, RowLess);
    assert rows[0] in rows && values[0] in rows;
    var index := IndexDefinitions(definitions);
    var appended := AppendRecords(envelope, definitions, index, rows[0].generationId, rows);
    if appended.Err? { return Err(appended.error); }
    var plan := Assemble(envelope, definitions, rows, appended.value);
    r := Ok(plan);
  }

  /** The plan is determined by the set of rows and of definitions: their order is immaterial. */
  lemma PlanIsUnique(p: Plan, q: Plan, envelope: Envelope, definitions: seq<FeatureDefinition>, values: seq<FeatureValue>,
                     definitions': seq<FeatureDefinition>, values': seq<FeatureValue>)
    requires Acceptable(envelope, definitions, values) && Acceptable(envelope, definitions', values')
    requires IsPlanOf(p, envelope, definitions, values) && IsPlanOf(q, envelope, definitions', values')
    requires (forall v :: v in values <==> v in values') && (forall d :: d in definitions <==> d in definitions')
    ensures p == q
  {
    var rows := p.offlineRowsDigest.content;
    SameRows(rows, q.offlineRowsDigest.content);
    assert values[0] in values' && values'[0] in values;
    SamePlanRecords(p.records, q.records, envelope, definitions, definitions', rows);
    assert (set d | d in definitions :: d.definitionDigest) == (set d | d in definitions' :: d.definitionDigest);
  }

  lemma SamePlanRecords(a: seq<OnlineRecord>, b: seq<OnlineRecord>, envelope: Envelope, definitions: seq<FeatureDefinition>,
                        definitions': seq<FeatureDefinition>, rows: seq<FeatureValue>)
    requires DistinctDigests(definitions) && DistinctDigests(definitions') && (forall d :: d in definitions <==> d in definitions')
    requires Covers(a, envelope, definitions, rows) && OnlyFrom(a, envelope, definitions, rows) && Increasing(a, StorageLess)
    requires Covers(b, envelope, definitions', rows) && OnlyFrom(b, envelope, definitions', rows) && Increasing(b, StorageLess)
    ensures a == b
  {
    RecordsWithin(a, b, envelope, definitions, definitions', rows);
    RecordsWithin(b, a, envelope, definitions', definitions, rows);
    SameRecords(a, b);
  }

  lemma SameDefinition(definitions: seq<FeatureDefinition>, definitions': seq<FeatureDefinition>, digest: string)
    requires DistinctDigests(definitions) && (forall d :: d in definitions <==> d in definitions')
    ensures DefinitionByDigest(definitions, digest) == DefinitionByDigest(definitions', digest)
  {
    var found, found' := DefinitionByDigest(definitions, digest), DefinitionByDigest(definitions', digest);
    DefinitionFound(definitions, digest);
    DefinitionFound(definitions', digest);
    if found.Some? {
      assert found.value in definitions';
      var i :| 0 <= i < |definitions| && definitions[i] == found.value;
      var j :| 0 <= j < |definitions| && definitions[j] == found'.value;
    } else {
      assert forall d | d in definitions' :: d in definitions;
    }
  }

  lemma RecordsWithin(a: seq<OnlineRecord>, b: seq<OnlineRecord>, envelope: Envelope, definitions: seq<FeatureDefinition>,
                      definitions': seq<FeatureDefinition>, rows: seq<FeatureValue>)
    requires DistinctDigests(definitions) && DistinctDigests(definitions') && (forall d :: d in definitions <==> d in definitions')
    requires OnlyFrom(a, envelope, definitions, rows) && Covers(b, envelope, definitions', rows)
    ensures Within(a, b)
  {
    forall r | r in a ensures r in b {
      assert IsRowRecord(r, envelope, definitions, rows);
      var v :| v in rows && Recordable(definitions, v) && r == RecordOf(envelope, definitions, rows, v);
      SameDefinition(definitions, definitions', v.definitionDigest);
      assert RecordOf(envelope, definitions', rows, v) in b;
    }
  }

  // ---- The projector's records --------------------------------------------------------------------------

  ghost predicate Projectable(envelope: Envelope, definitions: seq<FeatureDefinition>, values: seq<FeatureValue>) {
    && envelope.Valid() && values != [] && DistinctKeys(values)
    && forall v | v in values :: Recordable(definitions, v)
  }

  method EncodeExpected(valueType: ValueType, raw: Value) returns (r: Option<OnlineValue>)
    ensures r == Encode(valueType, raw)
  {
    if raw == Null { return Some(NullKind); }
    if valueType == IntegerType {
      if !raw.Integer? { return None; }
      return Some(IntegerKind(raw.i));
    }
    r := Some(FloatKind(Decimals.Canonical(NumberOf(raw))));
  }

  method ProjectRows(envelope: Envelope, definitions: seq<FeatureDefinition>, index: map<string, FeatureDefinition>,
                     ordered: seq<FeatureValue>)
    returns (r: Result<seq<OnlineRecord>, PlanError>)
    requires index.Keys == set d | d in definitions :: d.definitionDigest
    requires forall g | g in index :: DefinitionByDigest(definitions, g) == Some(index[g])
    ensures r.Ok? <==> forall v | v in ordered :: Recordable(definitions, v)
    ensures r.Ok? ==> Appended(r.value, envelope, definitions, ordered, |ordered|)
  {
    hide Encode;
    var result: seq<OnlineRecord> := [];
    for i := 0 to |ordered|
      invariant Appended(result, envelope, definitions, ordered, i)
    {
      var row := ordered[i];
      assert row in ordered;
      DefinitionFound(definitions, row.definitionDigest);
      if row.definitionDigest !in index { return Err(DefinitionMismatch); }
      var d := index[row.definitionDigest];
      var encoded := EncodeExpected(d.valueType, row.value);
      if encoded.None? { return Err(WrongValueType); }
      result := result + [OnlineRecord(envelope, row.generationId, row.customerId, row.featureName, row.definitionDigest,
                                       encoded.value, row.eventTime, row.knowledgeTime, Digest(ordered), row.eventTime + d.ttlSeconds)];
    }
    r := Ok(result);
  }

  /** `project_online_records`: no definition-name, collision or generation check of its own. */
  method ProjectOnlineRecords(envelope: Envelope, definitions: seq<FeatureDefinition>, featureRows: seq<FeatureValue>)
    returns (r: Result<seq<OnlineRecord>, PlanError>)
    ensures r.Ok? <==> Projectable(envelope, definitions, featureRows)
    ensures r.Ok? ==> exists records ::
      && Appended(records, envelope, definitions, StableSort(featureRows, RowLess), |featureRows|)
      && r.value == StableSort(records, StorageLess)
  {
    if !envelope.Valid() { return Err(MissingIdentity); }
    var ordered := StableSort(featureRows, RowLess);
    SortedRowsKeepKeys(featureRows);
    if ordered == [] { return Err(Empty); }
    KeysCollide(ordered);
    if |set v | v in ordered :: KeyOf(v)| != |ordered| { return Err(DuplicateKey); }
    var index := IndexDefinitions(definitions);
    var result := ProjectRows(envelope, definitions, index, ordered);
    if result.Err? { return Err(result.error); }
    r := Ok(StableSort(result.value, StorageLess));
  }

  /** Whatever the planner accepts, the independent projector accepts, and it yields exactly the
      plan's records, in the plan's order. */
  lemma ProjectorYieldsThePlan(plan: Plan, envelope: Envelope, definitions: seq<FeatureDefinition>, values: seq<FeatureValue>,
                               records: seq<OnlineRecord>)
    requires Acceptable(envelope, definitions, values) && IsPlanOf(plan, envelope, definitions, values)
    requires forall d | d in definitions :: |d.definitionDigest| == DIGEST_LENGTH
    requires Appended(records, envelope, definitions, StableSort(values, RowLess), |values|)
    ensures Projectable(envelope, definitions, values)
    ensures StableSort(records, StorageLess) == plan.records
  {
    assert forall v | v in values :: Defined(definitions, v);
    var rows := StableSort(values, RowLess);
    SortedRowsKeepKeys(values);
    SortByKey(values, KeyOf, RowLess);
    SameRows(rows, plan.offlineRowsDigest.content);
    AppendedRecords(records, envelope, definitions, rows);
    SamePlanRecords(StableSort(records, StorageLess), plan.records, envelope, definitions, definitions, rows);
  }

  // ---- Entity order against storage order ------------------------------------------------------------

  lemma {:induction false} CommonPrefix(p: string, a: string, b: string)
    ensures StringLess(p + a, p + b) <==> StringLess(a, b)
  {
    if p != "" {
      assert (p + a)[1..] == p[1..] + a && (p + b)[1..] == p[1..] + b;
      CommonPrefix(p[1..], a, b);
    } else {
      assert p + a == a && p + b == b;
    }
  }

  /** Appending suffixes can only turn around the order of a string and its own extension. */
  lemma {:induction false} SuffixesKeepOrder(a: string, b: string, x: string, y: string)
    requires StringLess(a, b)
    ensures StringLess(a + x, b + y) <==> (a <= b ==> StringLess(x, b[|a|..] + y))
  {
    if a == "" {
      assert a + x == x && b[|a|..] == b;
    } else {
      assert (a + x)[1..] == a[1..] + x && (b + y)[1..] == b[1..] + y;
      if a[0] == b[0] {
        SuffixesKeepOrder(a[1..], b[1..], x, y);
        assert a <= b <==> a[1..] <= b[1..];
        assert a <= b ==> b[1..][|a| - 1..] == b[|a|..];
      }
    }
  }

  /** For `r` before `s` in entity order: their storage keys are in the same order. The only
      danger is an identity extended by another one below the `#` that ends it in the key. */
  predicate NoInversion(r: OnlineRecord, s: OnlineRecord) {
    if r.customerId != s.customerId then
      r.customerId <= s.customerId ==>
        StringLess(GenerationSuffix(r.generationId), s.customerId[|r.customerId|..] + GenerationSuffix(s.generationId))
    else
      r.featureName <= s.featureName ==>
        StringLess(DefinitionSuffix(r.definitionDigest), s.featureName[|r.featureName|..] + DefinitionSuffix(s.definitionDigest))
  }

  lemma StorageFollowsEntity(r: OnlineRecord, s: OnlineRecord)
    requires r.generationId == s.generationId && |r.definitionDigest| == |s.definitionDigest|
    requires EntityLess(r, s)
    ensures StorageLess(r, s) <==> NoInversion(r, s)
  {
    var g, g' := GenerationSuffix(r.generationId), GenerationSuffix(s.generationId);
    var d, d' := DefinitionSuffix(r.definitionDigest), DefinitionSuffix(s.definitionDigest);
    assert "ENTITY#" + r.customerId + g == "ENTITY#" + (r.customerId + g);
    assert "ENTITY#" + s.customerId + g' == "ENTITY#" + (s.customerId + g');
    assert "FEATURE#" + r.featureName + d == "FEATURE#" + (r.featureName + d);
    assert "FEATURE#" + s.featureName + d' == "FEATURE#" + (s.featureName + d');
    CommonPrefix("ENTITY#", r.customerId + g, s.customerId + g');
    CommonPrefix("FEATURE#", r.featureName + d, s.featureName + d');
    if r.customerId != s.customerId {
      SuffixesKeepOrder(r.customerId, s.customerId, g, g');
      PartitionKeyIdentifies(r, s);
    } else {
      StringLessAsymmetric(r.StorageKey().0, s.StorageKey().0);
      StringLessAsymmetric(r.customerId, s.customerId);
      SuffixesKeepOrder(r.featureName, s.featureName, d, d');
    }
  }

  ghost predicate InversionFree(records: seq<OnlineRecord>) {
    forall r, s | r in records && s in records && EntityLess(r, s) :: NoInversion(r, s)
  }

  /** The plan's records are in entity order too iff no two of its identities invert. */
  lemma OrdersAgreeIff(plan: Plan)
    requires WellFormed(plan)
    ensures Increasing(plan.records, EntityLess) <==> InversionFree(plan.records)
  {
    hide EntityLess;
    hide StorageLess;
    hide NoInversion;
    var records := plan.records;
    if Increasing(records, EntityLess) {
      forall r, s | r in records && s in records && EntityLess(r, s) ensures NoInversion(r, s) {
        var i :| 0 <= i < |records| && records[i] == r;
        var j :| 0 <= j < |records| && records[j] == s;
        RecordOrders(r, s);
        RecordOrders(r, r);
        assert i < j;
        StorageFollowsEntity(r, s);
      }
    }
    if InversionFree(records) {
      forall i, j | 0 <= i < j < |records| ensures EntityLess(records[i], records[j]) {
        assert records[i] in records && records[j] in records && StorageLess(records[i], records[j]);
        EntityFollowsStorage(records[i], records[j]);
      }
    }
  }

  lemma RecordOrders(r: OnlineRecord, s: OnlineRecord)
    ensures !(EntityLess(r, s) && EntityLess(s, r)) && !(StorageLess(r, s) && StorageLess(s, r))
    ensures r.EntityKey() != s.EntityKey() ==> EntityLess(r, s) || EntityLess(s, r)
  {
    KeyOrder({r.EntityKey(), s.EntityKey()});
    KeyOrder({r.StorageKey(), s.StorageKey()});
  }

  lemma EntityFollowsStorage(r: OnlineRecord, s: OnlineRecord)
    requires r.generationId == s.generationId && |r.definitionDigest| == |s.definitionDigest|
    requires StorageLess(r, s) && (r.EntityKey() == s.EntityKey() ==> r == s) && (EntityLess(s, r) ==> NoInversion(s, r))
    ensures EntityLess(r, s)
  {
    RecordOrders(r, s);
    if EntityLess(s, r) {
      StorageFollowsEntity(s, r);
    }
  }

  /** All characters sort above `#`. */
  predicate AboveHash(id: string) {
    forall i | 0 <= i < |id| :: '#' < id[i]
  }

  lemma AboveHashIsEnough(plan: Plan)
    requires WellFormed(plan)
    requires forall r | r in plan.records :: AboveHash(r.customerId) && AboveHash(r.featureName)
    ensures Increasing(plan.records, EntityLess)
  {
    forall r, s | r in plan.records && s in plan.records && EntityLess(r, s) ensures NoInversion(r, s) {
      if r.customerId < s.customerId {
        assert s.customerId[|r.customerId|] > '#';
      } else if r.customerId == s.customerId && r.featureName <= s.featureName {
        StringLessAsymmetric(r.customerId, s.customerId);
        StringLessAsymmetric(r.featureName, s.featureName);
        assert r.featureName != s.featureName;
        assert s.featureName[|r.featureName|] > '#';
      }
    }
    OrdersAgreeIff(plan);
  }

  // ---- A plan whose two orders differ ---------------------------------------------------------------------

  function SomeDigest(): string {
    seq(DIGEST_LENGTH, _ => '0')
  }

  function CountDefinition(): FeatureDefinition {
    FeatureDefinition("n", 1, IntegerType, 60, TransactionCount, None, "", Integer(0), SomeDigest())
  }

  function CountOf(customerId: string): FeatureValue {
    FeatureValue(customerId, "n", Integer(0), 0, 0, SomeDigest(), "g")
  }

  const INVERTED_ENVELOPE := Envelope("f", "o", "s", 0)

  /** One feature of the customers `a` and `a!`. */
  function InvertedRows(): seq<FeatureValue> {
    [CountOf("a"), CountOf("a!")]
  }

  function CountRecord(customerId: string): OnlineRecord {
    OnlineRecord(INVERTED_ENVELOPE, "g", customerId, "n", SomeDigest(), IntegerKind(0), 0, 0, Digest(InvertedRows()), 60)
  }

  function InvertedPlan(): Plan {
    Plan(INVERTED_ENVELOPE, "g", Digest(InvertedRows()), Digest({SomeDigest()}), [CountRecord("a!"), CountRecord("a")])
  }

  lemma CountIsRecorded(customerId: string)
    ensures Defined([CountDefinition()], CountOf(customerId))
    ensures RecordOf(INVERTED_ENVELOPE, [CountDefinition()], InvertedRows(), CountOf(customerId)) == CountRecord(customerId)
  {
    hide SomeDigest;
    assert DefinitionByDigest([CountDefinition()], SomeDigest()) == Some(CountDefinition());
  }

  lemma CustomersInvert()
    ensures EntityLess(CountRecord("a"), CountRecord("a!")) && !EntityLess(CountRecord("a!"), CountRecord("a"))
    ensures StorageLess(CountRecord("a!"), CountRecord("a"))
    ensures RowLess(CountOf("a"), CountOf("a!"))
  {
    var r, s := CountRecord("a"), CountRecord("a!");
    assert "a!"[1..] == "!";
    assert StringLess("a", "a!") by {
      assert StringLess("a"[1..], "a!"[1..]);
    }
    StringLessAsymmetric("a", "a!");
    assert !NoInversion(r, s) by {
      assert !StringLess("#GEN#g", "!#GEN#g");
      assert "!" + GenerationSuffix("g") == "!#GEN#g" && GenerationSuffix("g") == "#GEN#g";
    }
    StorageFollowsEntity(r, s);
    assert r.StorageKey().0 != s.StorageKey().0 by {
      assert |r.StorageKey().0| != |s.StorageKey().0|;
    }
    StringLessConnected(r.StorageKey().0, s.StorageKey().0);
  }

  lemma InvertedPlanIsWellFormed()
    ensures WellFormed(InvertedPlan())
  {
    hide StorageLess;
    CustomersInvert();
    assert |SomeDigest()| == DIGEST_LENGTH;
    assert |"a"| != |"a!"|;
    assert InvertedPlan().records[0] == CountRecord("a!") && InvertedPlan().records[1] == CountRecord("a");
  }

  /** Accepted rows whose plan is not in entity order. */
  lemma AnInvertedPlan()
    ensures CountDefinition().Valid() && |CountDefinition().definitionDigest| == DIGEST_LENGTH
    ensures Acceptable(INVERTED_ENVELOPE, [CountDefinition()], InvertedRows())
    ensures IsPlanOf(InvertedPlan(), INVERTED_ENVELOPE, [CountDefinition()], InvertedRows())
    ensures !Increasing(InvertedPlan().records, EntityLess)
  {
    var definitions, rows, records := [CountDefinition()], InvertedRows(), InvertedPlan().records;
    CountIsRecorded("a");
    CountIsRecorded("a!");
    CustomersInvert();
    InvertedPlanIsWellFormed();
    assert |"a"| != |"a!"|;
    assert rows[0] == CountOf("a") && rows[1] == CountOf("a!");
    assert records[0] == CountRecord("a!") && records[1] == CountRecord("a");
    hide WellFormed;
    hide RecordOf;
    hide StorageLess;
    hide EntityLess;
    hide SomeDigest;
    forall r {:trigger IsRowRecord(r, INVERTED_ENVELOPE, definitions, rows)} | r in records
      ensures IsRowRecord(r, INVERTED_ENVELOPE, definitions, rows)
    {
      assert CountOf("a") in rows && CountOf("a!") in rows;
    }
    assert (set d | d in definitions :: d.definitionDigest) == {SomeDigest()};
  }

  /** The decoded value is the encoded one: nothing, the same integer, or the same number. */
  predicate Denotes(d: Decoded, v: Value) {
    match d
    case NoValue => v.Null?
    case Whole(i) => v == Integer(i)
    case Numeric(n) => !v.Null? && Decimals.SameNumber(n, NumberOf(v))
  }

  /** Encoding is refused exactly for a number of the wrong type. What is stored always decodes,
      to a float exactly under a float definition; and it decodes to the feature's own number
      exactly when that number has at most 28 significant digits or is stored as an integer. */
  lemma DecodeInvertsEncodeIff(valueType: ValueType, v: Value)
    ensures Encode(valueType, v).None? <==> valueType.IntegerType? && v.Float?
    ensures Encode(valueType, v).Some? ==>
      var d := Decode(Encode(valueType, v).value);
      && d.Some? && (d.value.Numeric? <==> valueType.FloatType? && !v.Null?)
      && (Denotes(d.value, v) <==> v.Null? || valueType.IntegerType? || Decimals.Fits(NumberOf(v)))
  {
    hide Decimals.Canonical;
    hide Decimals.Parse;
    hide Decimals.Fits;
    hide Decimals.IsPlain;
    hide Decimals.SameNumber;
    hide NumberOf;
    if valueType.FloatType? && !v.Null? {
      Decimals.ParseInvertsCanonicalIff(NumberOf(v));
    }
  }

  /** The condition is needed: two different integers are stored alike under a float definition. */
  lemma LongIntegersAreStoredAlike(c: nat)
    requires c == Decimals.Pow10(Decimals.PRECISION - 1)
    ensures Integer(10 * c + 1) != Integer(10 * c + 2)
    ensures Encode(FloatType, Integer(10 * c + 1)) == Encode(FloatType, Integer(10 * c + 2))
  {
    Decimals.LongIntegersCollide(c);
  }
}
