/** The independent expected-state projector, feature rows: `src/featureforge/expected.py`. */
module Projector {
  import opened Ordering
  import opened Model
  import opened Temporal

  datatype ExpectedError = InvalidIdentities | RevisionIdentity | CustomerDrift | AmbiguousClock | UnsupportedComputation

  function Paid(candidates: seq<PaymentEvent>): seq<PaymentEvent> {
    Filter(candidates, (e: PaymentEvent) => e.status == Some(Succeeded))
  }

  function TotalPaid(paid: seq<PaymentEvent>): int {
    if paid == [] then 0
    else (if paid[0].amountCents.Some? then paid[0].amountCents.value else 0) + TotalPaid(paid[1..])
  }

  function Failures(candidates: seq<PaymentEvent>): nat {
    |Filter(candidates, (e: PaymentEvent) => e.status == Some(Failed))|
  }

  function LastTime(events: seq<PaymentEvent>): int
    requires events != []
  {
    if |events| == 1 then events[0].eventTime else
      var rest := LastTime(events[1..]);
      if events[0].eventTime > rest then events[0].eventTime else rest
  }

  function RiskOf(e: PaymentEvent): real {
    if e.merchantRisk.Some? then e.merchantRisk.value else 0.0
  }

  function TopRisk(events: seq<PaymentEvent>): real
    requires events != []
  {
    if |events| == 1 then RiskOf(events[0]) else
      var rest := TopRisk(events[1..]);
      if RiskOf(events[0]) > rest then RiskOf(events[0]) else rest
  }

  /** The projected value over the candidates of one customer and definition. */
  function Projected(d: FeatureDefinition, candidates: seq<PaymentEvent>, eventCutoff: int): Result<Value, ExpectedError> {
    match d.computation
    case TransactionCount => Ok(Integer(|candidates|))
    case SuccessfulSpendCents =>
      var paid := Paid(candidates);
      Ok(if paid != [] then Integer(TotalPaid(paid)) else d.emptyDefault)
    case FailedPaymentRatio =>
      Ok(if candidates != [] then Float(Failures(candidates) as real / |candidates| as real) else d.emptyDefault)
    case HoursSinceSuccess =>
      var paid := Paid(candidates);
      Ok(if paid != [] then Float((eventCutoff - LastTime(paid)) as real / 3600.0) else d.emptyDefault)
    case MaxMerchantRisk =>
      Ok(if candidates != [] then Float(TopRisk(candidates)) else d.emptyDefault)
    case Unsupported(_) => Err(UnsupportedComputation)
  }

  predicate Visible(e: PaymentEvent, customerId: string, eventCutoff: int) {
    e.operation.Upsert? && e.customerId == customerId && e.eventTime <= eventCutoff
  }

  predicate Windowed(d: FeatureDefinition, e: PaymentEvent, eventCutoff: int) {
    d.windowSeconds.None? || e.eventTime > eventCutoff - d.windowSeconds.value
  }

  /** `current.values()`: the latest knowable revisions, in event order. */
  ghost function Current(h: set<PaymentEvent>, k: int): seq<PaymentEvent>
    requires Unambiguous(h)
  {
    var latest := set e | e in h && IsLatest(h, e, k);
    RevisionOrder(latest);
    Sorted(latest, RevisionLess)
  }

  function CandidatesOf(current: seq<PaymentEvent>, d: FeatureDefinition, customerId: string, eventCutoff: int): seq<PaymentEvent> {
    Filter(Filter(current, (e: PaymentEvent) => Visible(e, customerId, eventCutoff)),
           (e: PaymentEvent) => Windowed(d, e, eventCutoff))
  }

  /** The rows of the customers, each with every definition in order, or the first error. */
  function ProjectedRows(current: seq<PaymentEvent>, definitions: seq<FeatureDefinition>, customers: seq<string>,
                         generationId: string, eventCutoff: int, k: int): Result<seq<FeatureValue>, ExpectedError>
  {
    if customers == [] then Ok([]) else
      var last := |customers| - 1;
      var rows :- ProjectedRows(current, definitions, customers[..last], generationId, eventCutoff, k);
      var more :- CustomerProjection(current, definitions, customers[last], generationId, eventCutoff, k);
      Ok(rows + more)
  }

  function CustomerProjection(current: seq<PaymentEvent>, definitions: seq<FeatureDefinition>, customerId: string,
                              generationId: string, eventCutoff: int, k: int): Result<seq<FeatureValue>, ExpectedError>
  {
    if definitions == [] then Ok([]) else
      var last := |definitions| - 1;
      var d := definitions[last];
      var rows :- CustomerProjection(current, definitions[..last], customerId, generationId, eventCutoff, k);
      var value :- Projected(d, CandidatesOf(current, d, customerId, eventCutoff), eventCutoff);
      Ok(rows + [FeatureValue(customerId, d.name, value, eventCutoff, k, d.definitionDigest, generationId)])
  }

  /** The projector's own reading of the revision history; it agrees with the production one. */
  method IndexRevisions(events: seq<PaymentEvent>) returns (r: Result<set<PaymentEvent>, ExpectedError>)
    ensures r.Ok? <==> Unambiguous(History(events))
    ensures r.Ok? ==> r.value == History(events)
  {
    hide Indexed;
    hide Unambiguous;
    var revisions: map<string, PaymentEvent> := map[];
    var customers: map<string, string> := map[];
    var clocks: map<(string, int), string> := map[];
    NothingIndexed(events);
    for n := 0 to |events|
      invariant Indexed(History(events[..n]), revisions, customers, clocks)
    {
      var event := events[n];
      if event.revisionId in revisions {
        if revisions[event.revisionId] != event {
          StepRejects(events, n, revisions, customers, clocks, RevisionReused);
          return Err(RevisionIdentity);
        }
        StepReplays(events, n, revisions, customers, clocks);
      } else {
        var clock := (event.eventId, event.knowledgeTime);
        if event.eventId in customers && customers[event.eventId] != event.customerId {
          StepRejects(events, n, revisions, customers, clocks, CustomerChanged);
          return Err(CustomerDrift);
        }
        if clock in clocks && clocks[clock] != event.revisionId {
          StepRejects(events, n, revisions, customers, clocks, ConflictingRevisions);
          return Err(AmbiguousClock);
        }
        StepExtends(events, n, revisions, customers, clocks);
        customers := customers[event.eventId := event.customerId];
        clocks := clocks[clock := event.revisionId];
        revisions := revisions[event.revisionId := event];
      }
    }
    assert events[..|events|] == events;
    IndexedIsUnambiguous(History(events), revisions, customers, clocks);
    r := Ok(revisions.Values);
  }

  method CurrentState(h: set<PaymentEvent>, k: int) returns (current: seq<PaymentEvent>)
    requires Unambiguous(h)
    ensures current == Current(h, k)
  {
    RevisionOrder(h);
    var normalized := Sorted(h, RevisionLess);
    var latest: map<string, PaymentEvent> := map[];
    for n := 0 to |normalized|
      invariant HoldsLatest(History(normalized[..n]), latest, k)
    {
      NormalizedPrefix(h, n);
      HistoryStep(normalized, n);
      HoldsLatestStep(History(normalized[..n]), latest, normalized[n], k);
      if normalized[n].knowledgeTime <= k {
        latest := latest[normalized[n].eventId := normalized[n]];
      }
    }
    assert normalized[..|normalized|] == normalized && History(normalized) == h;
    HeldAreLatest(h, latest, k);
    assert latest.Values == set e | e in h && IsLatest(h, e, k);
    RevisionOrder(latest.Values);
    current := Sorted(latest.Values, RevisionLess);
  }

  method ProjectCustomer(current: seq<PaymentEvent>, definitions: seq<FeatureDefinition>, customerId: string,
                         generationId: string, eventCutoff: int, k: int)
    returns (r: Result<seq<FeatureValue>, ExpectedError>)
    ensures r == CustomerProjection(current, definitions, customerId, generationId, eventCutoff, k)
  {
    var visible := Filter(current, (e: PaymentEvent) => Visible(e, customerId, eventCutoff));
    var rows: seq<FeatureValue> := [];
    for i := 0 to |definitions|
      invariant CustomerProjection(current, definitions[..i], customerId, generationId, eventCutoff, k) == Ok(rows)
    {
      var d := definitions[i];
      assert definitions[..i + 1][..i] == definitions[..i] && definitions[..i + 1][i] == d;
      var candidates := Filter(visible, (e: PaymentEvent) => Windowed(d, e, eventCutoff));
      var value := Projected(d, candidates, eventCutoff);
      if value.Err? {
        FirstProjectionErrorStays(current, definitions, i + 1, customerId, generationId, eventCutoff, k);
        return Err(value.error);
      }
      rows := rows + [FeatureValue(customerId, d.name, value.value, eventCutoff, k, d.definitionDigest, generationId)];
    }
    assert definitions[..|definitions|] == definitions;
    r := Ok(rows);
  }

  lemma {:induction false} FirstProjectionErrorStays(current: seq<PaymentEvent>, definitions: seq<FeatureDefinition>, n: nat,
                                                     customerId: string, generationId: string, eventCutoff: int, k: int)
    requires n <= |definitions|
    requires CustomerProjection(current, definitions[..n], customerId, generationId, eventCutoff, k).Err?
    ensures CustomerProjection(current, definitions, customerId, generationId, eventCutoff, k)
         == CustomerProjection(current, definitions[..n], customerId, generationId, eventCutoff, k)
    decreases |definitions| - n
  {
    if n == |definitions| {
      assert definitions[..n] == definitions;
    } else {
      assert definitions[..n + 1][..n] == definitions[..n];
      FirstProjectionErrorStays(current, definitions, n + 1, customerId, generationId, eventCutoff, k);
    }
  }

  lemma {:induction false} FirstCustomerStays(current: seq<PaymentEvent>, definitions: seq<FeatureDefinition>, customers: seq<string>,
                                              n: nat, generationId: string, eventCutoff: int, k: int)
    requires n <= |customers|
    requires ProjectedRows(current, definitions, customers[..n], generationId, eventCutoff, k).Err?
    ensures ProjectedRows(current, definitions, customers, generationId, eventCutoff, k)
         == ProjectedRows(current, definitions, customers[..n], generationId, eventCutoff, k)
    decreases |customers| - n
  {
    if n == |customers| {
      assert customers[..n] == customers;
    } else {
      assert customers[..n + 1][..n] == customers[..n];
      FirstCustomerStays(current, definitions, customers, n + 1, generationId, eventCutoff, k);
    }
  }

  /** What `project_feature_rows` returns: each customer once, in order, the definitions by name. */
  ghost function Projection(definitions: seq<FeatureDefinition>, h: set<PaymentEvent>, customerIds: seq<string>,
                            generationId: string, eventCutoff: int, k: int): Result<seq<FeatureValue>, ExpectedError>
    requires Unambiguous(h)
  {
    StringOrder(set c | c in customerIds);
    ProjectedRows(Current(h, k), StableSort(definitions, NameLess), Sorted((set c | c in customerIds), StringLess),
                  generationId, eventCutoff, k)
  }

  method ProjectFeatureRows(definitions: seq<FeatureDefinition>, events: seq<PaymentEvent>, customerIds: seq<string>,
                            generationId: string, eventCutoff: int, knowledgeCutoff: int)
    returns (r: Result<seq<FeatureValue>, ExpectedError>)
    ensures r.Ok? ==> Unambiguous(History(events)) && generationId != "" && 0 <= eventCutoff && 0 <= knowledgeCutoff
    ensures Unambiguous(History(events)) && generationId != "" && 0 <= eventCutoff && 0 <= knowledgeCutoff ==>
      r == Projection(definitions, History(events), customerIds, generationId, eventCutoff, knowledgeCutoff)
  {
    hide Unambiguous;
    hide StableSort;
    hide Sorted;
    hide Current;
    StringOrder(set c | c in customerIds);
    if generationId == "" || eventCutoff < 0 || knowledgeCutoff < 0 {
      return Err(InvalidIdentities);
    }
    var h :- IndexRevisions(events);
    var current := CurrentState(h, knowledgeCutoff);
    var customers := Sorted((set c | c in customerIds), StringLess);
    var ordered := StableSort(definitions, NameLess);
    var rows: seq<FeatureValue> := [];
    for i := 0 to |customers|
      invariant ProjectedRows(current, ordered, customers[..i], generationId, eventCutoff, knowledgeCutoff) == Ok(rows)
    {
      assert customers[..i + 1][..i] == customers[..i] && customers[..i + 1][i] == customers[i];
      var more := ProjectCustomer(current, ordered, customers[i], generationId, eventCutoff, knowledgeCutoff);
      if more.Err? {
        FirstCustomerStays(current, ordered, customers, i + 1, generationId, eventCutoff, knowledgeCutoff);
        return Err(more.error);
      }
      rows := rows + more.value;
    }
    assert customers[..|customers|] == customers;
    r := Ok(rows);
  }
}
