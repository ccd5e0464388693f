/** The leakage-safe training dataset: `src/featureforge/dataset.py`. */
module Dataset {
  import opened Ordering
  import opened Model
  import opened Temporal
  import opened Computation

  datatype Cell = Text(text: string) | Number(number: int) | Flag(flag: bool) | Feature(value: Value)

  type TrainingRow = map<string, Cell>

  datatype DatasetError = NegativeAsOf | Row(error: ComputationError)

  const AS_OF := "dataset_as_of"

  function EffectiveCutoff(request: Label, asOf: int): int {
    if request.predictionKnowledgeTime <= asOf then request.predictionKnowledgeTime else asOf
  }

  function LabelColumns(request: Label, asOf: int): TrainingRow {
    map[
      "customer_id" := Text(request.customerId),
      "label" := Number(request.value),
      "label_id" := Text(request.labelId),
      "label_time" := Number(request.labelTime),
      "event_cutoff" := Number(request.labelTime),
      "prediction_knowledge_cutoff" := Number(request.predictionKnowledgeTime),
      AS_OF := Number(asOf),
      "knowledge_cutoff" := Number(EffectiveCutoff(request, asOf)),
      "knowledge_truncated_by_dataset_as_of" := Flag(asOf < request.predictionKnowledgeTime)
    ]
  }

  /** `row[feature.feature_name] = feature.value`, in order: a later or equal name wins. */
  function WithFeatures(row: TrainingRow, values: seq<FeatureValue>): TrainingRow {
    if values == [] then row else
      var last := |values| - 1;
      WithFeatures(row, values[..last])[values[last].featureName := Feature(values[last].value)]
  }

  ghost function TrainingRowOf(generationId: string, request: Label, definitions: seq<FeatureDefinition>,
                               h: set<PaymentEvent>, asOf: int): Result<TrainingRow, ComputationError>
    requires Unambiguous(h)
  {
    var values :- MaterializedRows(generationId, definitions, h, [request.customerId], request.labelTime, EffectiveCutoff(request, asOf));
    Ok(WithFeatures(LabelColumns(request, asOf), values))
  }

  ghost predicate AreTrainingRows(rows: seq<TrainingRow>, generationId: string, labels: seq<Label>,
                                  definitions: seq<FeatureDefinition>, h: set<PaymentEvent>, asOf: int)
    requires Unambiguous(h)
  {
    |rows| == |labels|
    && forall i | 0 <= i < |labels| :: TrainingRowOf(generationId, labels[i], definitions, h, asOf) == Ok(rows[i])
  }

  lemma WithNext(row: TrainingRow, values: seq<FeatureValue>, j: nat)
    requires j < |values|
    ensures WithFeatures(row, values[..j + 1]) == WithFeatures(row, values[..j])[values[j].featureName := Feature(values[j].value)]
  {
    assert values[..j + 1][..j] == values[..j];
  }

  lemma SortedSingle(c: string)
    ensures StableSort([c], StringLess) == [c]
  {
    assert [c][..0] == [];
  }

  method BuildRow(generationId: string, request: Label, definitions: seq<FeatureDefinition>, events: seq<PaymentEvent>, asOf: int)
    returns (r: Result<TrainingRow, ComputationError>)
    requires request.Valid() && 0 <= asOf
    ensures r.Ok? ==> Unambiguous(History(events))
    ensures Unambiguous(History(events)) ==> r == TrainingRowOf(generationId, request, definitions, History(events), asOf)
  {
    hide Unambiguous;
    hide History;
    hide StableSort;
    hide MaterializedRows;
    hide LabelColumns;
    hide WithFeatures;
    var knowledgeCutoff := EffectiveCutoff(request, asOf);
    SortedSingle(request.customerId);
    var values :- Materialize(generationId, definitions, events, [request.customerId], request.labelTime, knowledgeCutoff);
    var row := LabelColumns(request, asOf);
    NoFeatures(row);
    for j := 0 to |values|
      invariant row == WithFeatures(LabelColumns(request, asOf), values[..j])
    {
      WithNext(LabelColumns(request, asOf), values, j);
      row := row[values[j].featureName := Feature(values[j].value)];
    }
    assert values[..|values|] == values;
    r := Ok(row);
  }

  lemma NoFeatures(row: TrainingRow)
    ensures WithFeatures(row, []) == row
  {
  }

  // ---- The manifest --------------------------------------------------------------------------

  const CUTOFF_COLUMNS: set<string> := {"label_id", "event_cutoff", AS_OF, "prediction_knowledge_cutoff", "knowledge_cutoff",
                                        "knowledge_truncated_by_dataset_as_of"}

  /** One entry of `row_cutoffs`. */
  datatype RowCutoff = RowCutoff(labelId: Cell, eventCutoff: Cell, asOf: Cell, prediction: Cell, effective: Cell, truncated: Cell)

  datatype DatasetManifest = DatasetManifest(
    generationId: string,
    asOf: int,
    definitionDigests: seq<string>,
    labelIds: seq<string>,
    rowCount: nat,
    rowCutoffs: seq<RowCutoff>,
    rowsDigest: Digest<seq<TrainingRow>>)

  datatype TrainingDataset = TrainingDataset(rows: seq<TrainingRow>, manifest: DatasetManifest)

  /** The cutoffs as the finished row shows them. */
  function CutoffOf(row: TrainingRow): RowCutoff
    requires CUTOFF_COLUMNS <= row.Keys
  {
    RowCutoff(row["label_id"], row["event_cutoff"], row[AS_OF], row["prediction_knowledge_cutoff"], row["knowledge_cutoff"],
              row["knowledge_truncated_by_dataset_as_of"])
  }

  /** The cutoffs the request's row was computed at. */
  function OwnCutoff(request: Label, asOf: int): RowCutoff {
    RowCutoff(Text(request.labelId), Number(request.labelTime), Number(asOf), Number(request.predictionKnowledgeTime),
              Number(EffectiveCutoff(request, asOf)), Flag(asOf < request.predictionKnowledgeTime))
  }

  /** No feature goes by the name of a cutoff column. */
  predicate CutoffNamesFree(definitions: seq<FeatureDefinition>) {
    forall d | d in definitions :: d.name !in CUTOFF_COLUMNS
  }

  lemma {:induction false} ColumnsStay(row: TrainingRow, values: seq<FeatureValue>)
    ensures row.Keys <= WithFeatures(row, values).Keys
    ensures forall k | k in row && forall v | v in values :: v.featureName != k :: WithFeatures(row, values)[k] == row[k]
    ensures forall v | v in values :: v.featureName in WithFeatures(row, values) && WithFeatures(row, values)[v.featureName].Feature?
  {
    if values != [] {
      var last := |values| - 1;
      ColumnsStay(row, values[..last]);
      assert values == values[..last] + [values[last]];
    }
  }

  /** The values are named by the definitions: each by one, and each has one. */
  ghost predicate NamedBy(values: seq<FeatureValue>, definitions: seq<FeatureDefinition>) {
    && (forall v | v in values :: Names(definitions, v.featureName))
    && (forall d | d in definitions :: HasValue(values, d.name))
  }

  ghost predicate Names(definitions: seq<FeatureDefinition>, name: string) {
    exists d :: d in definitions && d.name == name
  }

  ghost predicate HasValue(values: seq<FeatureValue>, name: string) {
    exists v :: v in values && v.featureName == name
  }

  lemma NamedNext(values: seq<FeatureValue>, definitions: seq<FeatureDefinition>, v: FeatureValue, d: FeatureDefinition)
    requires NamedBy(values, definitions) && v.featureName == d.name
    ensures NamedBy(values + [v], definitions + [d])
  {
    var values', definitions' := values + [v], definitions + [d];
    assert v in values' && d in definitions';
    forall w | w in values' ensures Names(definitions', w.featureName) {
      if w in values {
        assert Names(definitions, w.featureName);
        var e :| e in definitions && e.name == w.featureName;
        assert e in definitions';
      }
    }
    forall e | e in definitions' ensures HasValue(values', e.name) {
      if e in definitions {
        assert HasValue(values, e.name);
        var w :| w in values && w.featureName == e.name;
        assert w in values';
      }
    }
  }

  lemma {:induction false} CustomerRowsAreNamed(generationId: string, definitions: seq<FeatureDefinition>, known: seq<PaymentEvent>,
                                                customerId: string, eventCutoff: int, k: int)
    requires CustomerRows(generationId, definitions, known, customerId, eventCutoff, k).Ok?
    ensures NamedBy(CustomerRows(generationId, definitions, known, customerId, eventCutoff, k).value, definitions)
  {
    hide Compute;
    hide NamedBy;
    if definitions == [] {
      NothingNamed();
    } else {
      var last := |definitions| - 1;
      CustomerRowsAreNamed(generationId, definitions[..last], known, customerId, eventCutoff, k);
      var rows := CustomerRows(generationId, definitions[..last], known, customerId, eventCutoff, k).value;
      var all := CustomerRows(generationId, definitions, known, customerId, eventCutoff, k).value;
      NamedNext(rows, definitions[..last], all[|rows|], definitions[last]);
      assert definitions == definitions[..last] + [definitions[last]];
    }
  }

  lemma NothingNamed()
    ensures NamedBy([], [])
  {
  }

  lemma OneCustomerIsNamed(generationId: string, definitions: seq<FeatureDefinition>, h: set<PaymentEvent>, customerId: string,
                           eventCutoff: int, k: int)
    requires Unambiguous(h) && MaterializedRows(generationId, definitions, h, [customerId], eventCutoff, k).Ok?
    ensures NamedBy(MaterializedRows(generationId, definitions, h, [customerId], eventCutoff, k).value, definitions)
  {
    hide CustomerRows;
    hide SelectedInOrder;
    hide Unambiguous;
    assert [customerId][..0] == [];
    assert MaterializedRows(generationId, definitions, h, [], eventCutoff, k) == Ok([]);
    CustomerRowsAreNamed(generationId, definitions, SelectedInOrder(h, customerId, eventCutoff, k), customerId, eventCutoff, k);
  }

  lemma NamedRowShowsCutoffsIff(request: Label, definitions: seq<FeatureDefinition>, values: seq<FeatureValue>, asOf: int)
    requires NamedBy(values, definitions)
    ensures var row := WithFeatures(LabelColumns(request, asOf), values);
            CUTOFF_COLUMNS <= row.Keys && (CutoffOf(row) == OwnCutoff(request, asOf) <==> CutoffNamesFree(definitions))
  {
    hide WithFeatures;
    ColumnsStay(LabelColumns(request, asOf), values);
    if CutoffNamesFree(definitions) {
      forall v | v in values ensures v.featureName !in CUTOFF_COLUMNS {
        assert Names(definitions, v.featureName);
      }
    } else {
      var d :| d in definitions && d.name in CUTOFF_COLUMNS;
      assert HasValue(values, d.name);
      var v :| v in values && v.featureName == d.name;
    }
  }

  /** A row shows the cutoffs it was computed at, each as the request's own entry, exactly when no
      feature has the name of a cutoff column. */
  lemma RowShowsItsCutoffsIff(generationId: string, request: Label, definitions: seq<FeatureDefinition>, h: set<PaymentEvent>, asOf: int)
    requires Unambiguous(h) && TrainingRowOf(generationId, request, definitions, h, asOf).Ok?
    ensures var row := TrainingRowOf(generationId, request, definitions, h, asOf).value;
            CUTOFF_COLUMNS <= row.Keys && (CutoffOf(row) == OwnCutoff(request, asOf) <==> CutoffNamesFree(definitions))
  {
    hide MaterializedRows;
    hide WithFeatures;
    hide CutoffOf;
    hide Unambiguous;
    hide CutoffNamesFree;
    var k := EffectiveCutoff(request, asOf);
    var values := MaterializedRows(generationId, definitions, h, [request.customerId], request.labelTime, k).value;
    OneCustomerIsNamed(generationId, definitions, h, request.customerId, request.labelTime, k);
    NamedRowShowsCutoffsIff(request, definitions, values, asOf);
  }

  /** The condition is needed: a feature of such a name replaces the cutoff the manifest records. */
  lemma FeatureHidesCutoff(request: Label, asOf: int, v: FeatureValue)
    requires v.featureName == "knowledge_cutoff"
    ensures var row := WithFeatures(LabelColumns(request, asOf), [v]);
            CUTOFF_COLUMNS <= row.Keys && CutoffOf(row).effective == Feature(v.value) && CutoffOf(row) != OwnCutoff(request, asOf)
  {
    ColumnsStay(LabelColumns(request, asOf), [v]);
    assert [v][..0] == [];
  }

  method MakeManifest(generationId: string, ordered: seq<Label>, definitions: seq<FeatureDefinition>, rows: seq<TrainingRow>, asOf: int)
    returns (manifest: DatasetManifest)
    requires forall i | 0 <= i < |rows| :: CUTOFF_COLUMNS <= rows[i].Keys
    ensures IsManifest(manifest, generationId, ordered, definitions, rows, asOf)
  {
    var digests: seq<string>, labelIds: seq<string>, cutoffs: seq<RowCutoff> := [], [], [];
    for i := 0 to |definitions|
      invariant |digests| == i && forall j | 0 <= j < i :: digests[j] == definitions[j].definitionDigest
    {
      digests := digests + [definitions[i].definitionDigest];
    }
    for i := 0 to |ordered|
      invariant |labelIds| == i && forall j | 0 <= j < i :: labelIds[j] == ordered[j].labelId
    {
      labelIds := labelIds + [ordered[i].labelId];
    }
    for i := 0 to |rows|
      invariant |cutoffs| == i && forall j | 0 <= j < i :: cutoffs[j] == CutoffOf(rows[j])
    {
      cutoffs := cutoffs + [CutoffOf(rows[i])];
    }
    assert digests == DigestsOf(definitions);
    manifest := DatasetManifest(generationId, asOf, StableSort(digests, StringLess), labelIds, |rows|, cutoffs, Digest(rows));
  }

  function DigestsOf(definitions: seq<FeatureDefinition>): seq<string> {
    seq(|definitions|, i requires 0 <= i < |definitions| => definitions[i].definitionDigest)
  }

  /** The manifest binds the rows, label by label with the cutoffs each row shows, and the definitions. */
  ghost predicate IsManifest(manifest: DatasetManifest, generationId: string, ordered: seq<Label>, definitions: seq<FeatureDefinition>,
                             rows: seq<TrainingRow>, asOf: int)
  {
    && manifest.generationId == generationId && manifest.asOf == asOf
    && multiset(manifest.definitionDigests) == multiset(DigestsOf(definitions))
    && manifest.definitionDigests == StableSort(DigestsOf(definitions), StringLess)
    && |manifest.labelIds| == |ordered| && (forall i | 0 <= i < |ordered| :: manifest.labelIds[i] == ordered[i].labelId)
    && manifest.rowCount == |manifest.rowCutoffs| == |rows|
    && (forall i | 0 <= i < |rows| :: CUTOFF_COLUMNS <= rows[i].Keys && manifest.rowCutoffs[i] == CutoffOf(rows[i]))
    && manifest.rowsDigest == Digest(rows)
  }

  predicate LabelLess(a: Label, b: Label) {
    StringLess(a.labelId, b.labelId)
  }

  /** The manifest records the cutoffs each row was computed at. */
  ghost predicate CutoffsAreOwn(manifest: DatasetManifest, ordered: seq<Label>, asOf: int) {
    |manifest.rowCutoffs| == |ordered| && forall i | 0 <= i < |ordered| :: manifest.rowCutoffs[i] == OwnCutoff(ordered[i], asOf)
  }

  /** One row per label, in label order, under a manifest that binds them; it fails exactly when some
      row cannot be computed. The manifest's cutoffs are the rows' own exactly when no feature takes
      the name of a cutoff column. */
  method BuildTrainingDataset(generationId: string, labels: seq<Label>, definitions: seq<FeatureDefinition>,
                              events: seq<PaymentEvent>, asOf: int)
    returns (r: Result<TrainingDataset, DatasetError>)
    requires forall i | 0 <= i < |labels| :: labels[i].Valid()
    ensures r.Ok? ==> 0 <= asOf
    ensures r.Ok? && labels != [] ==> Unambiguous(History(events))
    ensures r.Ok? && Unambiguous(History(events)) ==>
      AreTrainingRows(r.value.rows, generationId, StableSort(labels, LabelLess), definitions, History(events), asOf)
    ensures r.Ok? ==> IsManifest(r.value.manifest, generationId, StableSort(labels, LabelLess), definitions, r.value.rows, asOf)
    ensures r.Ok? ==>
      (CutoffsAreOwn(r.value.manifest, StableSort(labels, LabelLess), asOf) <==> labels == [] || CutoffNamesFree(definitions))
    ensures r.Err? && 0 <= asOf && Unambiguous(History(events)) ==>
      exists request | request in labels :: TrainingRowOf(generationId, request, definitions, History(events), asOf).Err?
  {
    hide TrainingRowOf;
    hide Unambiguous;
    hide History;
    if asOf < 0 {
      return Err(NegativeAsOf);
    }
    var ordered := StableSort(labels, LabelLess);
    SameElements(ordered, labels);
    SameElements(labels, ordered);
    var rows: seq<TrainingRow> := [];
    for i := 0 to |ordered|
      invariant |rows| == i && forall j | 0 <= j < i :: CUTOFF_COLUMNS <= rows[j].Keys
      invariant Unambiguous(History(events)) ==>
        AreTrainingRows(rows, generationId, ordered[..i], definitions, History(events), asOf)
      invariant 0 < i ==> Unambiguous(History(events))
    {
      assert ordered[i] in labels;
      var row := BuildRow(generationId, ordered[i], definitions, events, asOf);
      if row.Err? {
        return Err(DatasetError.Row(row.error));
      }
      RowHasColumns(generationId, ordered[i], definitions, History(events), asOf);
      rows := rows + [row.value];
    }
    assert ordered[..|ordered|] == ordered;
    var manifest := MakeManifest(generationId, ordered, definitions, rows, asOf);
    assert |ordered| == |multiset(labels)| == |labels|;
    if ordered != [] {
      ManifestCutoffs(manifest, generationId, ordered, definitions, History(events), rows, asOf);
    }
    r := Ok(TrainingDataset(rows, manifest));
  }

  lemma RowHasColumns(generationId: string, request: Label, definitions: seq<FeatureDefinition>, h: set<PaymentEvent>, asOf: int)
    requires Unambiguous(h) && TrainingRowOf(generationId, request, definitions, h, asOf).Ok?
    ensures CUTOFF_COLUMNS <= TrainingRowOf(generationId, request, definitions, h, asOf).value.Keys
  {
    var values := MaterializedRows(generationId, definitions, h, [request.customerId], request.labelTime, EffectiveCutoff(request, asOf)).value;
    ColumnsStay(LabelColumns(request, asOf), values);
  }

  lemma ManifestCutoffs(manifest: DatasetManifest, generationId: string, ordered: seq<Label>, definitions: seq<FeatureDefinition>,
                        h: set<PaymentEvent>, rows: seq<TrainingRow>, asOf: int)
    requires Unambiguous(h) && IsManifest(manifest, generationId, ordered, definitions, rows, asOf) && ordered != []
    requires AreTrainingRows(rows, generationId, ordered, definitions, h, asOf)
    ensures CutoffsAreOwn(manifest, ordered, asOf) <==> CutoffNamesFree(definitions)
  {
    hide TrainingRowOf;
    hide CutoffNamesFree;
    forall i | 0 <= i < |ordered| ensures manifest.rowCutoffs[i] == OwnCutoff(ordered[i], asOf) <==> CutoffNamesFree(definitions) {
      RowShowsItsCutoffsIff(generationId, ordered[i], definitions, h, asOf);
    }
    assert manifest.rowCutoffs[0] == OwnCutoff(ordered[0], asOf) <==> CutoffNamesFree(definitions);
  }

  lemma SameElements<T>(a: seq<T>, b: seq<T>)
    requires multiset(a) == multiset(b)
    ensures forall x | x in a :: x in b
  {
    forall x | x in a ensures x in b {
      assert x in multiset(a);
    }
  }

  // ---- Leakage freedom -----------------------------------------------------------------------

  /** A training row is a function of the revisions knowable at its effective cutoff: whatever
      is learned later, corrections and retractions included, leaves the row as it was. */
  lemma NoLeakage(generationId: string, request: Label, definitions: seq<FeatureDefinition>,
                  h: set<PaymentEvent>, h': set<PaymentEvent>, asOf: int)
    requires Unambiguous(h) && Unambiguous(h')
    requires forall e: PaymentEvent :: e.knowledgeTime <= request.predictionKnowledgeTime && e.knowledgeTime <= asOf ==> (e in h <==> e in h')
    ensures TrainingRowOf(generationId, request, definitions, h, asOf) == TrainingRowOf(generationId, request, definitions, h', asOf)
  {
    var k := EffectiveCutoff(request, asOf);
    assert Known(h, k) == Known(h', k);
    RowsAreKnowable(generationId, definitions, h, h', [request.customerId], request.labelTime, k);
  }

  /** The rows record different snapshots and agree in every other column. */
  predicate AgreeButForAsOf(a: TrainingRow, b: TrainingRow) {
    && AS_OF in a && AS_OF in b
    && (forall k | k in a && k != AS_OF :: k in b && a[k] == b[k])
    && (forall k | k in b && k != AS_OF :: k in a)
  }

  /** Extracting the dataset at any later snapshot changes no column but the recorded snapshot. */
  lemma LaterSnapshotChangesNothing(generationId: string, request: Label, definitions: seq<FeatureDefinition>,
                                    h: set<PaymentEvent>, asOf: int, asOf': int)
    requires Unambiguous(h)
    requires request.predictionKnowledgeTime <= asOf && request.predictionKnowledgeTime <= asOf'
    ensures
      var row := TrainingRowOf(generationId, request, definitions, h, asOf);
      var row' := TrainingRowOf(generationId, request, definitions, h, asOf');
      row.Ok? == row'.Ok? && (row.Ok? ==> AgreeButForAsOf(row.value, row'.value))
  {
    var values := MaterializedRows(generationId, definitions, h, [request.customerId], request.labelTime, request.predictionKnowledgeTime);
    if values.Ok? {
      FeaturesKeepAgreement(LabelColumns(request, asOf), LabelColumns(request, asOf'), values.value);
    }
  }

  lemma {:induction false} FeaturesKeepAgreement(a: TrainingRow, b: TrainingRow, values: seq<FeatureValue>)
    requires AgreeButForAsOf(a, b)
    ensures AgreeButForAsOf(WithFeatures(a, values), WithFeatures(b, values))
  {
    if values != [] {
      FeaturesKeepAgreement(a, b, values[..|values| - 1]);
    }
  }

  /** The event-time cut comes after the choice of revision: an event whose latest knowable
      revision was moved past the cutoff, or retracted, contributes no older revision instead. */
  lemma NoResurrection(h: set<PaymentEvent>, e: PaymentEvent, customerId: string, eventCutoff: int, k: int)
    requires Unambiguous(h) && IsLatest(h, e, k)
    requires e.eventTime > eventCutoff || e.operation.Retract?
    ensures forall f | f in Selected(h, customerId, eventCutoff, k) :: f.eventId != e.eventId
  {
    forall f | f in Selected(h, customerId, eventCutoff, k) && f.eventId == e.eventId ensures false {
      LatestIsUnique(h, e, f, k);
    }
  }
}
