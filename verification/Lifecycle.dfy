/** The generation lifecycle of `src/featureforge/lifecycle.py`: each method is one SQLite
    transaction, a function of the tables. Any number of clients, crashes between calls and
    lost acknowledgements are the runs over these calls. */
module Lifecycle {
  import opened Ordering
  import opened Model

  datatype Status = Created | Building | Validating | Ready | Active | Retired | Failed

  datatype Kind = Activate | Rollback

  /** A digest stands for its content throughout: fields named after digests hold it. */
  datatype Artifact = Artifact(kind: string, metadata: string, rows: seq<FeatureValue>)

  datatype GenerationManifest = GenerationManifest(
    contract: string,
    generationId: string,
    candidateCount: int,
    candidateDigest: seq<FeatureValue>,
    codeTree: string,
    eventCutoff: int,
    knowledgeCutoff: int,
    expectedPredecessor: Option<string>,
    datasetManifestDigest: Artifact,
    definitionSetDigest: Artifact,
    labelSnapshotDigest: Artifact,
    sourceSnapshotDigest: Artifact)

  datatype Receipt = Receipt(
    generationId: string,
    manifestDigest: GenerationManifest,
    expectedArtifactId: string,
    expectedArtifactDigest: Artifact,
    actualCount: nat,
    actualDigest: seq<FeatureValue>,
    linksValid: bool,
    candidateMatchesManifest: bool,
    matched: bool)

  datatype Candidate = Candidate(row: FeatureValue, ttlSeconds: int)

  /** A `generations` row joined with the `candidate_values` and `validation_receipts` rows
      that reference it. */
  datatype Generation = Generation(
    manifest: GenerationManifest,
    status: Status,
    validationDigest: Option<Receipt>,
    candidates: map<Key, Candidate>,
    receipt: Option<Receipt>)

  datatype Request = Request(generationId: string, expectedGeneration: Option<string>, expectedVersion: int, kind: Kind)

  datatype Publication = Publication(fromGeneration: Option<string>, generationId: string, kind: Kind, pointerVersion: int)

  datatype Operation = Operation(requestDigest: Request, result: Publication)

  datatype HistoryEntry = HistoryEntry(fromGeneration: Option<string>, toGeneration: string, kind: Kind, operationId: string)

  datatype Tables = Tables(
    definitions: map<string, FeatureDefinition>,
    artifacts: map<(string, string), Artifact>,
    generations: map<string, Generation>,
    activeGeneration: Option<string>,
    pointerVersion: int,
    operations: map<string, Operation>,
    history: map<int, HistoryEntry>)

  const EMPTY := Tables(map[], map[], map[], None, 0, map[], map[])

  datatype Error =
    | MissingKey | BadManifest | StateConflict | ArtifactConflict | DefinitionConflict | IntegrityError
    | IdempotencyConflict | PointerMoved | TargetMissing | TargetNotEligible | NotValidated | ReceiptInconsistent
    | CandidateChanged | WrongPredecessor | PinnedGenerationUnavailable

  datatype Reply =
    | Done
    | Written
    | Replayed
    | Validated(receipt: Receipt)
    | Published(publication: Publication)
    | Raised(error: Error)

  /** A transaction: the tables after it and what it returns; a raised error rolls back. */
  datatype Outcome = Outcome(tables: Tables, reply: Reply)

  function Fail(t: Tables, e: Error): Outcome {
    Outcome(t, Raised(e))
  }

  // ---- Transactions --------------------------------------------------------------------------------

  function OnRegister(t: Tables, d: FeatureDefinition): Outcome {
    if exists k | k in t.definitions :: t.definitions[k].name == d.name && t.definitions[k].version == d.version then
      if d.definitionDigest in t.definitions && t.definitions[d.definitionDigest] == d then Outcome(t, Replayed)
      else Fail(t, DefinitionConflict)
    else if d.definitionDigest in t.definitions then Fail(t, DefinitionConflict)
    else Outcome(t.(definitions := t.definitions[d.definitionDigest := d]), Written)
  }

  function OnArtifact(t: Tables, artifactId: string, artifact: Artifact): Outcome {
    var key := (artifact.kind, artifactId);
    if key in t.artifacts then
      if t.artifacts[key] != artifact then Fail(t, ArtifactConflict) else Outcome(t, Replayed)
    else Outcome(t.(artifacts := t.artifacts[key := artifact]), Written)
  }

  predicate GoodManifest(m: GenerationManifest) {
    && m.generationId != "" && m.contract == "generation-manifest-v1" && m.codeTree != ""
    && 0 <= m.candidateCount && 0 <= m.eventCutoff && 0 <= m.knowledgeCutoff
  }

  function OnCreate(t: Tables, m: GenerationManifest): Outcome {
    if !GoodManifest(m) then Fail(t, BadManifest)
    else if m.generationId in t.generations then Fail(t, IntegrityError)
    else Outcome(t.(generations := t.generations[m.generationId := Generation(m, Created, None, map[], None)]), Done)
  }

  function With(t: Tables, g: string, generation: Generation): Tables {
    t.(generations := t.generations[g := generation])
  }

  function OnBegin(t: Tables, g: string): Outcome {
    if g !in t.generations then Fail(t, MissingKey)
    else if t.generations[g].status == Building then Outcome(t, Done)
    else if t.generations[g].status != Created then Fail(t, StateConflict)
    else Outcome(With(t, g, t.generations[g].(status := Building)), Done)
  }

  function PutValue(definitions: map<string, FeatureDefinition>, g: string, rows: map<Key, Candidate>, v: FeatureValue)
    : Result<map<Key, Candidate>, Error>
  {
    var key := (v.customerId, v.featureName);
    if v.generationId != g || v.definitionDigest !in definitions then Err(ArtifactConflict)
    else if key in rows then if rows[key].row != v then Err(ArtifactConflict) else Ok(rows)
    else Ok(rows[key := Candidate(v, definitions[v.definitionDigest].ttlSeconds)])
  }

  /** The values in turn, stopping at the first conflict. */
  function PutValues(definitions: map<string, FeatureDefinition>, g: string, rows: map<Key, Candidate>, values: seq<FeatureValue>)
    : Result<map<Key, Candidate>, Error>
  {
    if values == [] then Ok(rows) else
      var last := |values| - 1;
      var before :- PutValues(definitions, g, rows, values[..last]);
      PutValue(definitions, g, before, values[last])
  }

  function OnPut(t: Tables, g: string, values: seq<FeatureValue>): Outcome {
    if g !in t.generations then Fail(t, MissingKey)
    else if t.generations[g].status != Building then Fail(t, StateConflict)
    else
      var before := t.generations[g].candidates;
      var rows := PutValues(t.definitions, g, before, values);
      if rows.Err? then Fail(t, rows.error)
      else Outcome(With(t, g, t.generations[g].(candidates := rows.value)), if rows.value != before then Written else Replayed)
  }

  function OnSeal(t: Tables, g: string): Outcome {
    if g !in t.generations then Fail(t, MissingKey)
    else if t.generations[g].status != Building then Fail(t, StateConflict)
    else Outcome(With(t, g, t.generations[g].(status := Validating)), Done)
  }

  /** `SELECT ... ORDER BY customer_id, feature_name` */
  function CandidateRows(generation: Generation): (r: seq<FeatureValue>)
    ensures |r| == |generation.candidates|
  {
    var rows := generation.candidates;
    KeyOrder(rows.Keys);
    var keys := Sorted(rows.Keys, KeyLess);
    assert |keys| == |rows|;
    seq(|keys|, i requires 0 <= i < |keys| => assert keys[i] in keys; rows[keys[i]].row)
  }

  predicate HasArtifact(artifacts: map<(string, string), Artifact>, kind: string, digest: Artifact) {
    exists k | k in artifacts :: k.0 == kind && artifacts[k] == digest
  }

  predicate LinksValid(artifacts: map<(string, string), Artifact>, m: GenerationManifest) {
    && HasArtifact(artifacts, "training-dataset", m.datasetManifestDigest)
    && HasArtifact(artifacts, "definition-set", m.definitionSetDigest)
    && HasArtifact(artifacts, "labels", m.labelSnapshotDigest)
    && HasArtifact(artifacts, "source", m.sourceSnapshotDigest)
  }

  predicate MatchesManifest(rows: seq<FeatureValue>, m: GenerationManifest) {
    |rows| == m.candidateCount && rows == m.candidateDigest
  }

  function ReceiptFor(artifacts: map<(string, string), Artifact>, generation: Generation, g: string, expectedArtifactId: string): Receipt
    requires ("expected-current", expectedArtifactId) in artifacts
  {
    var expected := artifacts[("expected-current", expectedArtifactId)];
    var rows := CandidateRows(generation);
    var links, matches := LinksValid(artifacts, generation.manifest), MatchesManifest(rows, generation.manifest);
    Receipt(g, generation.manifest, expectedArtifactId, expected, |rows|, rows, links, matches,
            rows == expected.rows && matches && links)
  }

  function Judged(generation: Generation, receipt: Receipt): Generation {
    generation.(status := if receipt.matched then Ready else Status.Failed,
                receipt := Some(receipt), validationDigest := Some(receipt))
  }

  function OnValidate(t: Tables, g: string, expectedArtifactId: string): Outcome {
    if g !in t.generations then Fail(t, MissingKey)
    else if t.generations[g].status != Validating then Fail(t, StateConflict)
    else if ("expected-current", expectedArtifactId) !in t.artifacts then Fail(t, MissingKey)
    else if t.generations[g].receipt.Some? then Fail(t, IntegrityError)
    else
      var receipt := ReceiptFor(t.artifacts, t.generations[g], g, expectedArtifactId);
      Outcome(With(t, g, Judged(t.generations[g], receipt)), Validated(receipt))
  }

  /** The receipt and the manifest still describe the stored rows. */
  predicate StillMatches(generation: Generation) {
    && generation.receipt.Some?
    && (var rows, receipt := CandidateRows(generation), generation.receipt.value;
        && receipt.matched && receipt.actualCount == |rows| && receipt.actualDigest == rows
        && MatchesManifest(rows, generation.manifest))
  }

  /** The checks `publish` makes of its target, in order; `None` when all pass. */
  function TargetGuard(generation: Generation, kind: Kind, expectedGeneration: Option<string>): Option<Error> {
    if generation.status != (if kind == Activate then Ready else Retired) then Some(TargetNotEligible)
    else if generation.validationDigest.None? then Some(NotValidated)
    else if generation.receipt != generation.validationDigest then Some(ReceiptInconsistent)
    else if !StillMatches(generation) then Some(CandidateChanged)
    else if kind == Activate && generation.manifest.expectedPredecessor != expectedGeneration then Some(WrongPredecessor)
    else None
  }

  function PublishGuard(t: Tables, q: Request): Option<Error> {
    if t.activeGeneration != q.expectedGeneration || t.pointerVersion != q.expectedVersion then Some(PointerMoved)
    else if q.generationId !in t.generations then Some(TargetMissing)
    else TargetGuard(t.generations[q.generationId], q.kind, q.expectedGeneration)
  }

  function PublicationOf(q: Request): Publication {
    Publication(q.expectedGeneration, q.generationId, q.kind, q.expectedVersion + 1)
  }

  /** Retire the former generation, then activate the target. */
  function MoveStatus(generations: map<string, Generation>, former: Option<string>, target: string): map<string, Generation>
    requires target in generations
  {
    var retired := if former.Some? && former.value != target && former.value in generations
                   then generations[former.value := generations[former.value].(status := Retired)] else generations;
    retired[target := retired[target].(status := Active)]
  }

  /** The committed writes, once every check has passed. */
  function Commit(t: Tables, operationId: string, q: Request): Tables
    requires q.generationId in t.generations
  {
    t.(activeGeneration := Some(q.generationId),
       pointerVersion := t.pointerVersion + 1,
       generations := MoveStatus(t.generations, t.activeGeneration, q.generationId),
       history := t.history[q.expectedVersion + 1 := HistoryEntry(t.activeGeneration, q.generationId, q.kind, operationId)],
       operations := t.operations[operationId := Operation(q, PublicationOf(q))])
  }

  predicate HistoryTaken(history: map<int, HistoryEntry>, operationId: string, v: int) {
    v in history || exists u | u in history :: history[u].operationId == operationId
  }

  function OnPublish(t: Tables, operationId: string, q: Request): Outcome {
    if operationId in t.operations then
      if t.operations[operationId].requestDigest != q then Fail(t, IdempotencyConflict)
      else Outcome(t, Published(t.operations[operationId].result))
    else
      var guard := PublishGuard(t, q);
      if guard.Some? then Fail(t, guard.value)
      else if HistoryTaken(t.history, operationId, q.expectedVersion + 1) then Fail(t, IntegrityError)
      else Outcome(Commit(t, operationId, q), Published(PublicationOf(q)))
  }

  predicate Readable(generations: map<string, Generation>, g: string) {
    g in generations && generations[g].status in {Active, Retired}
  }

  datatype ReaderToken = ReaderToken(generationId: string, pointerVersion: int)

  function PinReader(t: Tables): Result<ReaderToken, Error> {
    if t.activeGeneration.None? then Err(PinnedGenerationUnavailable)
    else Ok(ReaderToken(t.activeGeneration.value, t.pointerVersion))
  }

  function ReadPinned(t: Tables, token: ReaderToken, customerId: string, featureName: string, requestTime: int): Result<Value, Error> {
    if !Readable(t.generations, token.generationId) then Err(PinnedGenerationUnavailable)
    else
      var rows, key := t.generations[token.generationId].candidates, (customerId, featureName);
      if key !in rows then Err(MissingKey)
      else if requestTime >= rows[key].row.eventTime + rows[key].ttlSeconds then Ok(Null)
      else Ok(rows[key].row.value)
  }

  // ---- Runs ------------------------------------------------------------------------------------------

  datatype Call =
    | RegisterCall(definition: FeatureDefinition)
    | ArtifactCall(artifactId: string, artifact: Artifact)
    | CreateCall(manifest: GenerationManifest)
    | BeginCall(generationId: string)
    | PutCall(generationId: string, values: seq<FeatureValue>)
    | SealCall(generationId: string)
    | ValidateCall(generationId: string, expectedArtifactId: string)
    | PublishCall(operationId: string, request: Request)

  function Apply(t: Tables, call: Call): Tables {
    match call
    case RegisterCall(d) => OnRegister(t, d).tables
    case ArtifactCall(id, a) => OnArtifact(t, id, a).tables
    case CreateCall(m) => OnCreate(t, m).tables
    case BeginCall(g) => OnBegin(t, g).tables
    case PutCall(g, values) => OnPut(t, g, values).tables
    case SealCall(g) => OnSeal(t, g).tables
    case ValidateCall(g, id) => OnValidate(t, g, id).tables
    case PublishCall(op, q) => OnPublish(t, op, q).tables
  }

  function Run(t: Tables, calls: seq<Call>): Tables {
    if calls == [] then t else Apply(Run(t, calls[..|calls| - 1]), calls[|calls| - 1])
  }

  // ---- Invariant -----------------------------------------------------------------------------------

  predicate Eligible(status: Status) {
    status in {Ready, Active, Retired}
  }

  /** A receipt comes with a verdict, and a generation that passed still matches its own. */
  predicate GenerationHolds(generation: Generation) {
    && (generation.receipt.Some? ==> Eligible(generation.status) || generation.status == Status.Failed)
    && (Eligible(generation.status) ==>
          && generation.receipt == generation.validationDigest && StillMatches(generation)
          && generation.receipt.value.actualDigest == generation.receipt.value.expectedArtifactDigest.rows)
  }

  ghost predicate GenerationsHold(generations: map<string, Generation>) {
    forall g {:trigger GenerationHolds(generations[g])} | g in generations :: GenerationHolds(generations[g])
  }

  predicate IsActive(generations: map<string, Generation>, g: string) {
    g in generations && generations[g].status == Active
  }

  /** Exactly the pointed-to generation is ACTIVE, and there is none iff the version is 0. */
  ghost predicate PointerHolds(generations: map<string, Generation>, active: Option<string>, version: int) {
    && 0 <= version
    && (active.None? <==> version == 0)
    && (forall g {:trigger IsActive(generations, g)} :: IsActive(generations, g) <==> active == Some(g))
  }

  /** The target of the publication that set pointer version `v`. */
  function PointedAt(history: map<int, HistoryEntry>, v: int): Option<string> {
    if v in history then Some(history[v].toGeneration) else None
  }

  predicate Linked(history: map<int, HistoryEntry>, v: int) {
    v in history ==> history[v].fromGeneration == PointedAt(history, v - 1)
  }

  /** One entry per version, each starting where the previous one ended. */
  ghost predicate HistoryHolds(history: map<int, HistoryEntry>, active: Option<string>, version: int) {
    && (forall v :: v in history <==> 1 <= v <= version)
    && (forall v {:trigger Linked(history, v)} :: Linked(history, v))
    && PointedAt(history, version) == active
  }

  /** An activation starts from the predecessor its target was built for. */
  predicate Declared(generations: map<string, Generation>, entry: HistoryEntry) {
    && entry.toGeneration in generations
    && (entry.kind == Activate ==> generations[entry.toGeneration].manifest.expectedPredecessor == entry.fromGeneration)
  }

  ghost predicate ActivationsDeclared(generations: map<string, Generation>, history: map<int, HistoryEntry>) {
    forall v {:trigger Declared(generations, history[v])} | v in history :: Declared(generations, history[v])
  }

  /** Operation `operationId` is the one that set pointer version `v`. */
  predicate Commits(operations: map<string, Operation>, history: map<int, HistoryEntry>, operationId: string, v: int) {
    && operationId in operations && v in history
    && (var entry := history[v];
        && entry.operationId == operationId
        && operations[operationId].result == Publication(entry.fromGeneration, entry.toGeneration, entry.kind, v)
        && operations[operationId].requestDigest == Request(entry.toGeneration, entry.fromGeneration, v - 1, entry.kind))
  }

  /** Operations and history entries are in one-to-one correspondence. */
  ghost predicate OperationsHold(operations: map<string, Operation>, history: map<int, HistoryEntry>) {
    && (forall op {:trigger Commits(operations, history, op, operations[op].result.pointerVersion)} | op in operations ::
          Commits(operations, history, op, operations[op].result.pointerVersion))
    && (forall v {:trigger Commits(operations, history, history[v].operationId, v)} | v in history ::
          Commits(operations, history, history[v].operationId, v))
  }

  ghost predicate PublicationsHold(t: Tables) {
    && PointerHolds(t.generations, t.activeGeneration, t.pointerVersion)
    && HistoryHolds(t.history, t.activeGeneration, t.pointerVersion)
    && ActivationsDeclared(t.generations, t.history)
    && OperationsHold(t.operations, t.history)
  }

  ghost predicate Inv(t: Tables) {
    GenerationsHold(t.generations) && PublicationsHold(t)
  }

  // ---- Every call keeps the invariant ----------------------------------------------------------------

  lemma InitialHolds()
    ensures Inv(EMPTY)
  {
  }

  /** What `begin_build`, writes, sealing and validation may do to a generation: its manifest
      stays, it does not enter or leave ACTIVE, published rows stay, and it still holds. */
  predicate Advances(before: Generation, after: Generation) {
    && after.manifest == before.manifest
    && (after.status == Active <==> before.status == Active)
    && (before.status in {Active, Retired} ==> after == before)
    && (GenerationHolds(before) ==> GenerationHolds(after))
  }

  /** The tables after a call other than `publish`, as far as publication can see. */
  ghost predicate Quiet(t: Tables, t': Tables, g: string) {
    && t'.activeGeneration == t.activeGeneration && t'.pointerVersion == t.pointerVersion
    && t'.history == t.history && t'.operations == t.operations
    && (t'.generations == t.generations
        || (g !in t.generations && exists m :: t'.generations == t.generations[g := Generation(m, Created, None, map[], None)])
        || (g in t.generations && exists after :: Advances(t.generations[g], after) && t'.generations == t.generations[g := after]))
  }

  lemma QuietCallKeeps(t: Tables, t': Tables, g: string)
    requires Inv(t) && Quiet(t, t', g)
    ensures Inv(t')
  {
    forall x | x in t'.generations ensures GenerationHolds(t'.generations[x]) {
      if x in t.generations { assert GenerationHolds(t.generations[x]); }
    }
    forall x ensures IsActive(t'.generations, x) <==> t'.activeGeneration == Some(x) {
      assert IsActive(t.generations, x) <==> t.activeGeneration == Some(x);
    }
    forall v | v in t'.history ensures Declared(t'.generations, t'.history[v]) {
      assert Declared(t.generations, t.history[v]);
    }
  }

  lemma PutIsQuiet(t: Tables, g: string, values: seq<FeatureValue>)
    ensures Quiet(t, OnPut(t, g, values).tables, g)
  {
    var t' := OnPut(t, g, values).tables;
    if t' != t { assert Advances(t.generations[g], t'.generations[g]); }
  }

  lemma ValidateIsQuiet(t: Tables, g: string, expectedArtifactId: string)
    ensures Quiet(t, OnValidate(t, g, expectedArtifactId).tables, g)
  {
    var t' := OnValidate(t, g, expectedArtifactId).tables;
    if t' != t {
      var receipt := ReceiptFor(t.artifacts, t.generations[g], g, expectedArtifactId);
      assert CandidateRows(Judged(t.generations[g], receipt)) == CandidateRows(t.generations[g]);
      assert Advances(t.generations[g], t'.generations[g]);
    }
  }

  lemma BuildIsQuiet(t: Tables, g: string)
    ensures Quiet(t, OnBegin(t, g).tables, g)
    ensures Quiet(t, OnSeal(t, g).tables, g)
  {
    if g in t.generations {
      var before := t.generations[g];
      assert before.status == Created ==> Advances(before, before.(status := Building));
      assert before.status == Building ==> Advances(before, before.(status := Validating));
    }
  }

  /** The generation a call other than `publish` concerns. */
  function Subject(call: Call): string {
    match call
    case CreateCall(m) => m.generationId
    case BeginCall(g) => g
    case PutCall(g, _) => g
    case SealCall(g) => g
    case ValidateCall(g, _) => g
    case _ => ""
  }

  lemma CallIsQuiet(t: Tables, call: Call)
    requires !call.PublishCall?
    ensures Quiet(t, Apply(t, call), Subject(call))
  {
    match call
    case BeginCall(g) => BuildIsQuiet(t, g);
    case SealCall(g) => BuildIsQuiet(t, g);
    case PutCall(g, values) => PutIsQuiet(t, g, values);
    case ValidateCall(g, id) => ValidateIsQuiet(t, g, id);
    case _ =>
  }

  /** In every reachable state, the guard against a candidate changed after validation cannot
      fire, nor can the missing-receipt guards or the two history constraints. */
  lemma PublishNeverFindsTampering(t: Tables, operationId: string, q: Request)
    requires Inv(t)
    ensures OnPublish(t, operationId, q).reply !in {Raised(CandidateChanged), Raised(NotValidated), Raised(ReceiptInconsistent), Raised(IntegrityError)}
  {
    if q.generationId in t.generations { assert GenerationHolds(t.generations[q.generationId]); }
    if operationId !in t.operations {
      forall v | v in t.history ensures t.history[v].operationId != operationId {
        assert Commits(t.operations, t.history, t.history[v].operationId, v);
      }
    }
  }

  ghost predicate Committed(t: Tables, operationId: string, q: Request) {
    operationId !in t.operations && OnPublish(t, operationId, q).reply.Published?
  }

  lemma OnlyCommitsChange(t: Tables, operationId: string, q: Request)
    ensures Committed(t, operationId, q) || OnPublish(t, operationId, q).tables == t
  {
  }

  /** What a committed publication found. */
  lemma PublishFinds(t: Tables, operationId: string, q: Request)
    requires Inv(t) && Committed(t, operationId, q)
    ensures q.generationId in t.generations && t.generations[q.generationId].status in {Ready, Retired}
    ensures q.expectedGeneration == t.activeGeneration != Some(q.generationId) && q.expectedVersion == t.pointerVersion
    ensures q.kind == Activate ==> t.generations[q.generationId].manifest.expectedPredecessor == t.activeGeneration
    ensures OnPublish(t, operationId, q).tables == Commit(t, operationId, q)
  {
    assert PublishGuard(t, q).None?;
    assert IsActive(t.generations, q.generationId) <==> t.activeGeneration == Some(q.generationId);
  }

  lemma MoveStatusMoves(generations: map<string, Generation>, former: Option<string>, target: string, version: int)
    requires target in generations && former != Some(target)
    requires PointerHolds(generations, former, version)
    ensures PointerHolds(MoveStatus(generations, former, target), Some(target), version + 1)
    ensures MoveStatus(generations, former, target).Keys == generations.Keys
    ensures forall g | g in generations ::
              var moved := MoveStatus(generations, former, target)[g];
              if g == target then moved == generations[g].(status := Active)
              else if former == Some(g) then moved == generations[g].(status := Retired)
              else moved == generations[g]
  {
    assert former.Some? ==> IsActive(generations, former.value);
    assert forall g :: IsActive(generations, g) <==> former == Some(g);
  }

  lemma MoveStatusHolds(generations: map<string, Generation>, former: Option<string>, target: string)
    requires target in generations && Eligible(generations[target].status) && GenerationsHold(generations)
    requires former.Some? ==> IsActive(generations, former.value)
    ensures GenerationsHold(MoveStatus(generations, former, target))
  {
    var moved := MoveStatus(generations, former, target);
    forall g | g in moved ensures GenerationHolds(moved[g]) {
      assert GenerationHolds(generations[g]) && (former == Some(g) ==> IsActive(generations, g));
    }
  }

  lemma HistoryExtends(t: Tables, operationId: string, q: Request)
    requires HistoryHolds(t.history, t.activeGeneration, t.pointerVersion) && OperationsHold(t.operations, t.history)
    requires 0 <= t.pointerVersion && operationId !in t.operations && q.generationId in t.generations
    requires q.expectedGeneration == t.activeGeneration && q.expectedVersion == t.pointerVersion
    ensures
      var t' := Commit(t, operationId, q);
      HistoryHolds(t'.history, t'.activeGeneration, t'.pointerVersion) && OperationsHold(t'.operations, t'.history)
  {
    var t' := Commit(t, operationId, q);
    var n := t.pointerVersion + 1;
    assert n !in t.history;
    forall v ensures Linked(t'.history, v) {
      assert Linked(t.history, v);
    }
    forall v | v in t'.history ensures Commits(t'.operations, t'.history, t'.history[v].operationId, v) {
      if v != n { assert Commits(t.operations, t.history, t.history[v].operationId, v); }
    }
    forall op | op in t'.operations ensures Commits(t'.operations, t'.history, op, t'.operations[op].result.pointerVersion) {
      if op != operationId { assert Commits(t.operations, t.history, op, t.operations[op].result.pointerVersion); }
    }
  }

  lemma ActivationDeclared(t: Tables, operationId: string, q: Request)
    requires ActivationsDeclared(t.generations, t.history)
    requires q.generationId in t.generations && t.activeGeneration != Some(q.generationId)
    requires PointerHolds(t.generations, t.activeGeneration, t.pointerVersion)
    requires q.kind == Activate ==> t.generations[q.generationId].manifest.expectedPredecessor == t.activeGeneration
    ensures ActivationsDeclared(Commit(t, operationId, q).generations, Commit(t, operationId, q).history)
  {
    MoveStatusMoves(t.generations, t.activeGeneration, q.generationId, t.pointerVersion);
    var t' := Commit(t, operationId, q);
    forall v | v in t'.history ensures Declared(t'.generations, t'.history[v]) {
      if v != q.expectedVersion + 1 { assert Declared(t.generations, t.history[v]); }
    }
  }

  lemma PublishKeeps(t: Tables, operationId: string, q: Request)
    requires Inv(t)
    ensures Inv(OnPublish(t, operationId, q).tables)
  {
    OnlyCommitsChange(t, operationId, q);
    if Committed(t, operationId, q) {
      PublishFinds(t, operationId, q);
      MoveStatusMoves(t.generations, t.activeGeneration, q.generationId, t.pointerVersion);
      HistoryExtends(t, operationId, q);
      ActivationDeclared(t, operationId, q);
      assert t.activeGeneration.Some? ==> IsActive(t.generations, t.activeGeneration.value);
      MoveStatusHolds(t.generations, t.activeGeneration, q.generationId);
    }
  }

  lemma ApplyKeeps(t: Tables, call: Call)
    requires Inv(t)
    ensures Inv(Apply(t, call))
  {
    if call.PublishCall? {
      PublishKeeps(t, call.operationId, call.request);
    } else {
      CallIsQuiet(t, call);
      QuietCallKeeps(t, Apply(t, call), Subject(call));
    }
  }

  /** In every reachable state: exactly the pointed-to generation is ACTIVE, the history is one
      contiguous chain that only grows, every operation names its one entry, and every READY, ACTIVE or RETIRED
      generation still matches its receipt and manifest. */
  lemma {:induction false} RunKeeps(t: Tables, calls: seq<Call>)
    requires Inv(t)
    ensures Inv(Run(t, calls)) && PastStays(t.history, Run(t, calls).history)
  {
    if calls != [] {
      var before, call := Run(t, calls[..|calls| - 1]), calls[|calls| - 1];
      RunKeeps(t, calls[..|calls| - 1]);
      ApplyKeeps(before, call);
      ApplyKeepsPast(before, call);
    }
  }

  /** Pointer history is only ever appended to. */
  ghost predicate PastStays(past: map<int, HistoryEntry>, history: map<int, HistoryEntry>) {
    forall v | v in past :: v in history && history[v] == past[v]
  }

  lemma ApplyKeepsPast(t: Tables, call: Call)
    requires Inv(t)
    ensures PastStays(t.history, Apply(t, call).history)
  {
    PointerMovesByPublication(t, call);
  }

  // ---- Published rows never change -------------------------------------------------------------------

  ghost predicate Frozen(t: Tables, t': Tables, g: string) {
    Readable(t.generations, g) ==>
      Readable(t'.generations, g) && t'.generations[g].candidates == t.generations[g].candidates
  }

  lemma CommitFreezes(t: Tables, operationId: string, q: Request, g: string)
    requires q.generationId in t.generations
    requires PointerHolds(t.generations, t.activeGeneration, t.pointerVersion) && t.activeGeneration != Some(q.generationId)
    ensures Frozen(t, Commit(t, operationId, q), g)
  {
    MoveStatusMoves(t.generations, t.activeGeneration, q.generationId, t.pointerVersion);
  }

  lemma PublishFreezes(t: Tables, operationId: string, q: Request, g: string)
    requires Inv(t)
    ensures Frozen(t, OnPublish(t, operationId, q).tables, g)
  {
    OnlyCommitsChange(t, operationId, q);
    if Committed(t, operationId, q) {
      PublishFinds(t, operationId, q);
      CommitFreezes(t, operationId, q, g);
    }
  }

  lemma QuietFreezes(t: Tables, t': Tables, subject: string, g: string)
    requires Quiet(t, t', subject)
    ensures Frozen(t, t', g)
  {
  }

  lemma ApplyFreezes(t: Tables, call: Call, g: string)
    requires Inv(t)
    ensures Frozen(t, Apply(t, call), g)
  {
    if call.PublishCall? {
      PublishFreezes(t, call.operationId, call.request, g);
    } else {
      CallIsQuiet(t, call);
      QuietFreezes(t, Apply(t, call), Subject(call), g);
    }
  }

  lemma {:induction false} RunFreezes(t: Tables, calls: seq<Call>, g: string)
    requires Inv(t)
    ensures Frozen(t, Run(t, calls), g)
  {
    if calls != [] {
      var before := Run(t, calls[..|calls| - 1]);
      RunKeeps(t, calls[..|calls| - 1]);
      RunFreezes(t, calls[..|calls| - 1], g);
      ApplyFreezes(before, calls[|calls| - 1], g);
    }
  }

  /** Pinned-read stability: a token issued in any reachable state answers every key and
      request time the same after every further run of calls, by any clients, and all its
      answers come from the one generation it names. */
  lemma PinnedReadsAreStable(before: seq<Call>, after: seq<Call>, customerId: string, featureName: string, requestTime: int)
    ensures
      var t := Run(EMPTY, before);
      var token := PinReader(t);
      token.Ok? ==>
        && ReadPinned(Run(t, after), token.value, customerId, featureName, requestTime)
           == ReadPinned(t, token.value, customerId, featureName, requestTime)
        && ReadPinned(t, token.value, customerId, featureName, requestTime) != Err(PinnedGenerationUnavailable)
  {
    InitialHolds();
    var t := Run(EMPTY, before);
    RunKeeps(EMPTY, before);
    if t.activeGeneration.Some? {
      assert IsActive(t.generations, t.activeGeneration.value);
      RunFreezes(t, after, t.activeGeneration.value);
    }
  }

  /** What a pinned reader sees is what validation compared: the stored rows are the expected
      artifact's rows, in order. */
  lemma PinnedRowsWereValidated(calls: seq<Call>)
    ensures
      var t := Run(EMPTY, calls);
      PinReader(t).Ok? ==>
        var g := PinReader(t).value.generationId;
        && g in t.generations && t.generations[g].receipt.Some? && t.generations[g].receipt.value.matched
        && CandidateRows(t.generations[g]) == t.generations[g].receipt.value.expectedArtifactDigest.rows
  {
    InitialHolds();
    RunKeeps(EMPTY, calls);
    var t := Run(EMPTY, calls);
    if t.activeGeneration.Some? {
      assert IsActive(t.generations, t.activeGeneration.value) && GenerationHolds(t.generations[t.activeGeneration.value]);
    }
  }

  // ---- What a pinned read serves ---------------------------------------------------------------------

  /** A stored row is under its own key, with the time to live of its registered definition. */
  predicate RowHolds(definitions: map<string, FeatureDefinition>, key: Key, c: Candidate) {
    && KeyOf(c.row) == key && c.row.definitionDigest in definitions
    && c.ttlSeconds == definitions[c.row.definitionDigest].ttlSeconds
  }

  ghost predicate RowsHold(definitions: map<string, FeatureDefinition>, candidates: map<Key, Candidate>) {
    forall key | key in candidates :: RowHolds(definitions, key, candidates[key])
  }

  ghost predicate AllRowsHold(t: Tables) {
    forall g {:trigger RowsHold(t.definitions, t.generations[g].candidates)} | g in t.generations ::
      RowsHold(t.definitions, t.generations[g].candidates)
  }

  lemma {:induction false} PutValuesHold(definitions: map<string, FeatureDefinition>, g: string, rows: map<Key, Candidate>, values: seq<FeatureValue>)
    requires RowsHold(definitions, rows)
    ensures PutValues(definitions, g, rows, values).Ok? ==> RowsHold(definitions, PutValues(definitions, g, rows, values).value)
  {
    if values != [] {
      PutValuesHold(definitions, g, rows, values[..|values| - 1]);
    }
  }

  /** Every stored row stays, and definitions stay as registered. */
  ghost predicate KeepsRows(t: Tables, t': Tables) {
    && (forall d | d in t.definitions :: d in t'.definitions && t'.definitions[d] == t.definitions[d])
    && (forall g | g in t'.generations ::
          t'.generations[g].candidates == if g in t.generations then t.generations[g].candidates else map[])
  }

  lemma KeptRowsHold(t: Tables, t': Tables)
    requires AllRowsHold(t) && KeepsRows(t, t')
    ensures AllRowsHold(t')
  {
    forall g | g in t'.generations ensures RowsHold(t'.definitions, t'.generations[g].candidates) {
      if g in t.generations { assert RowsHold(t.definitions, t.generations[g].candidates); }
    }
  }

  lemma PutRowsHold(t: Tables, g: string, values: seq<FeatureValue>)
    requires AllRowsHold(t)
    ensures AllRowsHold(OnPut(t, g, values).tables)
  {
    var t' := OnPut(t, g, values).tables;
    if g in t.generations {
      assert RowsHold(t.definitions, t.generations[g].candidates);
      PutValuesHold(t.definitions, g, t.generations[g].candidates, values);
    }
    forall x | x in t'.generations ensures RowsHold(t'.definitions, t'.generations[x].candidates) {
      if x != g { assert RowsHold(t.definitions, t.generations[x].candidates); }
    }
  }

  lemma PublishKeepsRows(t: Tables, operationId: string, q: Request)
    requires Inv(t)
    ensures KeepsRows(t, OnPublish(t, operationId, q).tables)
  {
    OnlyCommitsChange(t, operationId, q);
    if Committed(t, operationId, q) {
      PublishFinds(t, operationId, q);
      MoveStatusMoves(t.generations, t.activeGeneration, q.generationId, t.pointerVersion);
    }
  }

  lemma ValidateKeepsRows(t: Tables, g: string, expectedArtifactId: string)
    ensures KeepsRows(t, OnValidate(t, g, expectedArtifactId).tables)
  {
    hide ReceiptFor;
  }

  lemma CreateKeepsRows(t: Tables, m: GenerationManifest)
    ensures KeepsRows(t, OnCreate(t, m).tables)
  {
    hide GoodManifest;
  }

  lemma BeginKeepsRows(t: Tables, g: string)
    ensures KeepsRows(t, OnBegin(t, g).tables)
  {
  }

  lemma SealKeepsRows(t: Tables, g: string)
    ensures KeepsRows(t, OnSeal(t, g).tables)
  {
  }

  lemma RegisterKeepsRows(t: Tables, d: FeatureDefinition)
    ensures KeepsRows(t, OnRegister(t, d).tables)
  {
  }

  lemma ArtifactKeepsRows(t: Tables, id: string, a: Artifact)
    ensures KeepsRows(t, OnArtifact(t, id, a).tables)
  {
  }

  lemma OtherCallsKeepRows(t: Tables, call: Call)
    requires !call.PutCall? && !call.PublishCall?
    ensures KeepsRows(t, Apply(t, call))
  {
    hide KeepsRows;
    match call
    case ValidateCall(g, id) => ValidateKeepsRows(t, g, id);
    case CreateCall(m) => CreateKeepsRows(t, m);
    case BeginCall(g) => BeginKeepsRows(t, g);
    case SealCall(g) => SealKeepsRows(t, g);
    case RegisterCall(d) => RegisterKeepsRows(t, d);
    case ArtifactCall(id, a) => ArtifactKeepsRows(t, id, a);
  }

  lemma {:induction false} RunRowsHold(t: Tables, calls: seq<Call>)
    requires Inv(t) && AllRowsHold(t)
    ensures AllRowsHold(Run(t, calls))
  {
    if calls != [] {
      var before, call := Run(t, calls[..|calls| - 1]), calls[|calls| - 1];
      RunKeeps(t, calls[..|calls| - 1]);
      RunRowsHold(t, calls[..|calls| - 1]);
      if call.PutCall? {
        PutRowsHold(before, call.generationId, call.values);
      } else {
        if call.PublishCall? {
          PublishKeepsRows(before, call.operationId, call.request);
        } else {
          OtherCallsKeepRows(before, call);
        }
        KeptRowsHold(before, Apply(before, call));
      }
    }
  }

  lemma RowsAreTheTable(generation: Generation, definitions: map<string, FeatureDefinition>, row: FeatureValue)
    requires RowsHold(definitions, generation.candidates)
    ensures row in CandidateRows(generation) <==> KeyOf(row) in generation.candidates && generation.candidates[KeyOf(row)].row == row
  {
    var rows := generation.candidates;
    KeyOrder(rows.Keys);
    var keys, sorted := Sorted(rows.Keys, KeyLess), CandidateRows(generation);
    forall i | 0 <= i < |sorted| ensures KeyOf(sorted[i]) == keys[i] && sorted[i] == rows[keys[i]].row {
      assert keys[i] in keys && RowHolds(definitions, keys[i], rows[keys[i]]);
    }
    if KeyOf(row) in rows && rows[KeyOf(row)].row == row {
      assert KeyOf(row) in keys;
      var i :| 0 <= i < |keys| && keys[i] == KeyOf(row);
      assert sorted[i] == row;
    }
  }

  /** Serving is exact: a pinned read answers with the row that validation found in the expected
      artifact, until its definition's time to live has passed since its event cutoff. */
  lemma PinnedReadsServeExpectedRows(calls: seq<Call>, row: FeatureValue, requestTime: int)
    requires PinReader(Run(EMPTY, calls)).Ok?
    ensures
      var t := Run(EMPTY, calls);
      var token := PinReader(t).value;
      && token.generationId in t.generations && t.generations[token.generationId].receipt.Some?
      && (row in t.generations[token.generationId].receipt.value.expectedArtifactDigest.rows ==>
            && row.definitionDigest in t.definitions
            && ReadPinned(t, token, row.customerId, row.featureName, requestTime)
               == Ok(if requestTime < row.eventTime + t.definitions[row.definitionDigest].ttlSeconds then row.value else Null))
  {
    InitialHolds();
    RunKeeps(EMPTY, calls);
    RunRowsHold(EMPTY, calls);
    PinnedRowsWereValidated(calls);
    var t := Run(EMPTY, calls);
    var g := PinReader(t).value.generationId;
    assert IsActive(t.generations, g);
    assert RowsHold(t.definitions, t.generations[g].candidates);
    RowsAreTheTable(t.generations[g], t.definitions, row);
    if row in CandidateRows(t.generations[g]) {
      assert RowHolds(t.definitions, KeyOf(row), t.generations[g].candidates[KeyOf(row)]);
    }
  }

  // ---- Publication happens at most once --------------------------------------------------------------

  lemma OperationsStay(t: Tables, call: Call, operationId: string)
    requires operationId in t.operations
    ensures operationId in Apply(t, call).operations && Apply(t, call).operations[operationId] == t.operations[operationId]
  {
  }

  lemma {:induction false} OperationsStayForever(t: Tables, calls: seq<Call>, operationId: string)
    requires operationId in t.operations
    ensures operationId in Run(t, calls).operations && Run(t, calls).operations[operationId] == t.operations[operationId]
  {
    if calls != [] {
      OperationsStayForever(t, calls[..|calls| - 1], operationId);
      OperationsStay(Run(t, calls[..|calls| - 1]), calls[|calls| - 1], operationId);
    }
  }

  /** Once an operation has committed, whatever happens in between, an identical retry returns
      the identical receipt and changes nothing; a different request under its name is refused. */
  lemma RetriesReturnTheReceipt(t: Tables, operationId: string, q: Request, calls: seq<Call>, q': Request)
    requires OnPublish(t, operationId, q).reply.Published?
    ensures
      var later := Run(OnPublish(t, operationId, q).tables, calls);
      OnPublish(later, operationId, q')
      == Outcome(later, if q' == q then OnPublish(t, operationId, q).reply else Raised(IdempotencyConflict))
  {
    OperationsStayForever(OnPublish(t, operationId, q).tables, calls, operationId);
  }

  /** In every reachable state an operation has set at most one pointer version, and of all
      operations that expected one and the same pointer version at most one committed. */
  lemma OneCommitPerOperationAndVersion(calls: seq<Call>, op: string, op': string, v: int, v': int)
    requires var t := Run(EMPTY, calls);
      Commits(t.operations, t.history, op, v) && Commits(t.operations, t.history, op', v')
    ensures op == op' <==> v == v'
    ensures var t := Run(EMPTY, calls);
      t.operations[op].requestDigest.expectedVersion == t.operations[op'].requestDigest.expectedVersion ==> op == op'
  {
    InitialHolds();
    RunKeeps(EMPTY, calls);
  }

  ghost predicate PointerMoves(t: Tables, t': Tables, operationId: string, q: Request) {
    && operationId !in t.operations
    && t'.pointerVersion == t.pointerVersion + 1 == q.expectedVersion + 1
    && q.expectedGeneration == t.activeGeneration && t'.activeGeneration == Some(q.generationId)
    && t'.history == t.history[t'.pointerVersion := HistoryEntry(t.activeGeneration, q.generationId, q.kind, operationId)]
    && q.generationId in t.generations
    && (q.kind == Activate ==> t.generations[q.generationId].manifest.expectedPredecessor == t.activeGeneration)
  }

  ghost predicate PointerStays(t: Tables, t': Tables) {
    t'.pointerVersion == t.pointerVersion && t'.activeGeneration == t.activeGeneration && t'.history == t.history
  }

  lemma PublicationMovesPointer(t: Tables, operationId: string, q: Request)
    requires Inv(t)
    ensures
      var t' := OnPublish(t, operationId, q).tables;
      if Committed(t, operationId, q) then PointerMoves(t, t', operationId, q) else PointerStays(t, t')
  {
    OnlyCommitsChange(t, operationId, q);
    if Committed(t, operationId, q) {
      PublishFinds(t, operationId, q);
      CommitMovesPointer(t, operationId, q);
    }
  }

  lemma CommitMovesPointer(t: Tables, operationId: string, q: Request)
    requires q.generationId in t.generations && operationId !in t.operations
    requires q.expectedGeneration == t.activeGeneration && q.expectedVersion == t.pointerVersion
    requires q.kind == Activate ==> t.generations[q.generationId].manifest.expectedPredecessor == t.activeGeneration
    ensures PointerMoves(t, Commit(t, operationId, q), operationId, q)
  {
  }

  /** Every step of any run either leaves the pointer and its history or is a publication that
      advances them by one version from exactly what it expected; an activation only to a
      generation built for that predecessor. */
  lemma PointerMovesByPublication(t: Tables, call: Call)
    requires Inv(t)
    ensures
      || PointerStays(t, Apply(t, call))
      || (call.PublishCall? && PointerMoves(t, Apply(t, call), call.operationId, call.request))
  {
    if call.PublishCall? {
      PublicationMovesPointer(t, call.operationId, call.request);
    } else {
      CallIsQuiet(t, call);
    }
  }

  // ---- The store -------------------------------------------------------------------------------------

  /** The store itself: its tables are updated in place, one transaction a method. */
  class LifecycleStore {
    var definitions: map<string, FeatureDefinition>
    var artifacts: map<(string, string), Artifact>
    var generations: map<string, Generation>
    var activeGeneration: Option<string>
    var pointerVersion: int
    var operations: map<string, Operation>
    var history: map<int, HistoryEntry>

    function Db(): Tables
      reads this
    {
      Tables(definitions, artifacts, generations, activeGeneration, pointerVersion, operations, history)
    }

    constructor ()
      ensures Db() == EMPTY && Inv(Db())
    {
      definitions, artifacts, generations := map[], map[], map[];
      activeGeneration, pointerVersion := None, 0;
      operations, history := map[], map[];
      new;
      InitialHolds();
    }

    method RegisterDefinition(d: FeatureDefinition) returns (reply: Reply)
      modifies `definitions
      ensures Outcome(Db(), reply) == OnRegister(old(Db()), d)
    {
      if exists k | k in definitions :: definitions[k].name == d.name && definitions[k].version == d.version {
        if d.definitionDigest !in definitions || definitions[d.definitionDigest] != d { return Raised(DefinitionConflict); }
        return Replayed;
      }
      if d.definitionDigest in definitions { return Raised(DefinitionConflict); }
      definitions := definitions[d.definitionDigest := d];
      reply := Written;
    }

    method PutArtifact(artifactId: string, artifact: Artifact) returns (reply: Reply)
      modifies `artifacts
      ensures Outcome(Db(), reply) == OnArtifact(old(Db()), artifactId, artifact)
    {
      var key := (artifact.kind, artifactId);
      if key in artifacts {
        if artifacts[key] != artifact { return Raised(ArtifactConflict); }
        return Replayed;
      }
      artifacts := artifacts[key := artifact];
      reply := Written;
    }

    method CreateGeneration(m: GenerationManifest) returns (reply: Reply)
      modifies `generations
      ensures Outcome(Db(), reply) == OnCreate(old(Db()), m)
    {
      if !GoodManifest(m) { return Raised(BadManifest); }
      if m.generationId in generations { return Raised(IntegrityError); }
      generations := generations[m.generationId := Generation(m, Created, None, map[], None)];
      reply := Done;
    }

    method BeginBuild(g: string) returns (reply: Reply)
      modifies `generations
      ensures Outcome(Db(), reply) == OnBegin(old(Db()), g)
    {
      if g !in generations { return Raised(MissingKey); }
      var status := generations[g].status;
      if status == Building { return Done; }
      if status != Created { return Raised(StateConflict); }
      generations := generations[g := generations[g].(status := Building)];
      reply := Done;
    }

    /** Values are written one at a time; the first conflict rolls the whole batch back. */
    method PutCandidateBatch(g: string, values: seq<FeatureValue>) returns (reply: Reply)
      modifies `generations
      ensures Outcome(Db(), reply) == OnPut(old(Db()), g, values)
    {
      if g !in generations { return Raised(MissingKey); }
      if generations[g].status != Building { return Raised(StateConflict); }
      var stored := generations[g].candidates;
      var rows, outcome := stored, Replayed;
      for i := 0 to |values|
        invariant PutValues(definitions, g, stored, values[..i]) == Ok(rows)
        invariant rows.Keys >= stored.Keys
        invariant outcome == if rows.Keys == stored.Keys then Replayed else Written
        invariant forall k | k in stored :: rows[k] == stored[k]
      {
        assert values[..i + 1][..i] == values[..i];
        var v, key := values[i], (values[i].customerId, values[i].featureName);
        if v.generationId != g || v.definitionDigest !in definitions || (key in rows && rows[key].row != v) {
          PutValuesStops(definitions, g, stored, values, i + 1);
          return Raised(ArtifactConflict);
        }
        if key !in rows {
          rows := rows[key := Candidate(v, definitions[v.definitionDigest].ttlSeconds)];
          outcome := Written;
          assert key in rows.Keys;
        }
      }
      assert values[..|values|] == values;
      assert rows.Keys == stored.Keys ==> rows == stored;
      generations := generations[g := generations[g].(candidates := rows)];
      reply := outcome;
    }

    method SealCandidate(g: string) returns (reply: Reply)
      modifies `generations
      ensures Outcome(Db(), reply) == OnSeal(old(Db()), g)
    {
      if g !in generations { return Raised(MissingKey); }
      if generations[g].status != Building { return Raised(StateConflict); }
      generations := generations[g := generations[g].(status := Validating)];
      reply := Done;
    }

    method ValidateCandidate(g: string, expectedArtifactId: string) returns (reply: Reply)
      modifies `generations
      ensures Outcome(Db(), reply) == OnValidate(old(Db()), g, expectedArtifactId)
    {
      hide ReceiptFor;
      if g !in generations { return Raised(MissingKey); }
      if generations[g].status != Validating { return Raised(StateConflict); }
      if ("expected-current", expectedArtifactId) !in artifacts { return Raised(MissingKey); }
      if generations[g].receipt.Some? { return Raised(IntegrityError); }
      var receipt := ReceiptFor(artifacts, generations[g], g, expectedArtifactId);
      generations := generations[g := generations[g].(receipt := Some(receipt))];
      var status := if receipt.matched then Ready else Status.Failed;
      generations := generations[g := generations[g].(status := status, validationDigest := Some(receipt))];
      reply := Validated(receipt);
    }

    method Publish(operationId: string, q: Request) returns (reply: Reply)
      modifies `activeGeneration, `pointerVersion, `generations, `history, `operations
      ensures Outcome(Db(), reply) == OnPublish(old(Db()), operationId, q)
    {
      if operationId in operations {
        if operations[operationId].requestDigest != q { return Raised(IdempotencyConflict); }
        return Published(operations[operationId].result);
      }
      var current := activeGeneration;
      if current != q.expectedGeneration || pointerVersion != q.expectedVersion { return Raised(PointerMoved); }
      if q.generationId !in generations { return Raised(TargetMissing); }
      var guard := TargetGuard(generations[q.generationId], q.kind, q.expectedGeneration);
      if guard.Some? { return Raised(guard.value); }
      if HistoryTaken(history, operationId, q.expectedVersion + 1) { return Raised(IntegrityError); }
      activeGeneration, pointerVersion := Some(q.generationId), pointerVersion + 1;
      if current.Some? && current.value != q.generationId && current.value in generations {
        generations := generations[current.value := generations[current.value].(status := Retired)];
      }
      generations := generations[q.generationId := generations[q.generationId].(status := Active)];
      var result := Publication(current, q.generationId, q.kind, q.expectedVersion + 1);
      history := history[q.expectedVersion + 1 := HistoryEntry(current, q.generationId, q.kind, operationId)];
      operations := operations[operationId := Operation(q, result)];
      reply := Published(result);
    }
  }

  lemma {:induction false} PutValuesStops(definitions: map<string, FeatureDefinition>, g: string, rows: map<Key, Candidate>,
                                          values: seq<FeatureValue>, n: nat)
    requires n <= |values| && PutValues(definitions, g, rows, values[..n]).Err?
    ensures PutValues(definitions, g, rows, values) == Err(ArtifactConflict)
    decreases |values|
  {
    assert n > 0 by { assert values[..0] == []; }
    if n == |values| {
      assert values[..n] == values;
      if PutValues(definitions, g, rows, values[..n - 1]).Err? {
        assert values[..n - 1][..n - 1] == values[..n - 1];
        PutValuesStops(definitions, g, rows, values[..n - 1], n - 1);
      }
    } else {
      var last := |values| - 1;
      assert values[..last][..n] == values[..n];
      PutValuesStops(definitions, g, rows, values[..last], n);
    }
  }
}
