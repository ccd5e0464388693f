/** The shared computation library: `src/featureforge/computation.py`. */
module Computation {
  import opened Ordering
  import opened Model
  import opened Temporal

  datatype ComputationError = UnknownComputation | FeatureTypeError | Temporal(error: TemporalError)

  function Window(events: seq<PaymentEvent>, cutoff: int, seconds: Option<int>): seq<PaymentEvent> {
    match seconds
    case None => events
    case Some(w) => Filter(events, (e: PaymentEvent) => e.eventTime > cutoff - w)
  }

  function Succeeded(events: seq<PaymentEvent>): seq<PaymentEvent> {
    Filter(events, (e: PaymentEvent) => e.status == Some(Status.Succeeded))
  }

  function Amounts(events: seq<PaymentEvent>): (r: seq<int>) {
    if events == [] then []
    else (if events[0].amountCents.Some? then [events[0].amountCents.value] else []) + Amounts(events[1..])
  }

  function Times(events: seq<PaymentEvent>): (r: seq<real>)
    ensures |r| == |events|
  {
    if events == [] then [] else [events[0].eventTime as real] + Times(events[1..])
  }

  function Risks(events: seq<PaymentEvent>): (r: seq<real>) {
    if events == [] then []
    else (if events[0].merchantRisk.Some? then [events[0].merchantRisk.value] else []) + Risks(events[1..])
  }

  function FailedCount(events: seq<PaymentEvent>): nat {
    if events == [] then 0
    else (if events[0].status == Some(Failed) then 1 else 0) + FailedCount(events[1..])
  }

  function Sum(s: seq<int>): int {
    if s == [] then 0 else s[0] + Sum(s[1..])
  }

  function Max(s: seq<real>): (m: real)
    requires s != []
    ensures m in s && forall x | x in s :: x <= m
  {
    if |s| == 1 then s[0] else
      var m := Max(s[1..]);
      assert s == [s[0]] + s[1..];
      if s[0] <= m then m else s[0]
  }

  /** The value before its declared type is checked. */
  function RawValue(d: FeatureDefinition, candidates: seq<PaymentEvent>, cutoff: int): Result<Value, ComputationError> {
    match d.computation
    case TransactionCount => Ok(Integer(|candidates|))
    case SuccessfulSpendCents =>
      var amounts := Amounts(Succeeded(candidates));
      Ok(if amounts != [] then Integer(Sum(amounts)) else d.emptyDefault)
    case FailedPaymentRatio =>
      Ok(if candidates != [] then Float(FailedCount(candidates) as real / |candidates| as real) else d.emptyDefault)
    case HoursSinceSuccess =>
      var successes := Times(Succeeded(candidates));
      Ok(if successes != [] then Float((cutoff as real - Max(successes)) / 3600.0) else d.emptyDefault)
    case MaxMerchantRisk =>
      var risks := Risks(candidates);
      Ok(if risks != [] then Float(Max(risks)) else d.emptyDefault)
    case Unsupported(_) => Err(UnknownComputation)
  }

  function Compute(d: FeatureDefinition, events: seq<PaymentEvent>, cutoff: int): Result<Value, ComputationError> {
    var value :- RawValue(d, Window(events, cutoff, d.windowSeconds), cutoff);
    if d.valueType.IntegerType? && value.Float? then Err(FeatureTypeError) else Ok(value)
  }

  // ---- Materialization ---------------------------------------------------------------------

  ghost function SelectedInOrder(h: set<PaymentEvent>, customerId: string, eventCutoff: int, k: int): seq<PaymentEvent>
    requires Unambiguous(h)
  {
    var selected := Selected(h, customerId, eventCutoff, k);
    BusinessOrder(selected);
    Sorted(selected, BusinessLess)
  }

  /** The rows of one customer, one per definition, or the first computation error. */
  function CustomerRows(generationId: string, definitions: seq<FeatureDefinition>, known: seq<PaymentEvent>,
                        customerId: string, eventCutoff: int, k: int): Result<seq<FeatureValue>, ComputationError>
  {
    if definitions == [] then Ok([]) else
      var last := |definitions| - 1;
      var d := definitions[last];
      var rows :- CustomerRows(generationId, definitions[..last], known, customerId, eventCutoff, k);
      var value :- Compute(d, known, eventCutoff);
      Ok(rows + [FeatureValue(customerId, d.name, value, eventCutoff, k, d.definitionDigest, generationId)])
  }

  ghost function MaterializedRows(generationId: string, definitions: seq<FeatureDefinition>, h: set<PaymentEvent>,
                                  customers: seq<string>, eventCutoff: int, k: int): Result<seq<FeatureValue>, ComputationError>
    requires Unambiguous(h)
  {
    if customers == [] then Ok([]) else
      var last := |customers| - 1;
      var rows :- MaterializedRows(generationId, definitions, h, customers[..last], eventCutoff, k);
      var known := SelectedInOrder(h, customers[last], eventCutoff, k);
      var more :- CustomerRows(generationId, definitions, known, customers[last], eventCutoff, k);
      Ok(rows + more)
  }

  /** What `materialize` returns: the customers sorted, repeated ones repeated, the definitions as given. */
  ghost function Materialized(generationId: string, definitions: seq<FeatureDefinition>, h: set<PaymentEvent>,
                              customerIds: seq<string>, eventCutoff: int, k: int): Result<seq<FeatureValue>, ComputationError>
    requires Unambiguous(h)
  {
    MaterializedRows(generationId, definitions, h, StableSort(customerIds, StringLess), eventCutoff, k)
  }

  method ComputeCustomer(generationId: string, definitions: seq<FeatureDefinition>, known: seq<PaymentEvent>,
                         customerId: string, eventCutoff: int, k: int)
    returns (r: Result<seq<FeatureValue>, ComputationError>)
    ensures r == CustomerRows(generationId, definitions, known, customerId, eventCutoff, k)
  {
    var values: seq<FeatureValue> := [];
    for i := 0 to |definitions|
      invariant CustomerRows(generationId, definitions[..i], known, customerId, eventCutoff, k) == Ok(values)
    {
      var d := definitions[i];
      assert definitions[..i + 1][..i] == definitions[..i] && definitions[..i + 1][i] == d;
      var value := Compute(d, known, eventCutoff);
      if value.Err? {
        FirstErrorStays(generationId, definitions, i + 1, known, customerId, eventCutoff, k);
        return Err(value.error);
      }
      values := values + [FeatureValue(customerId, d.name, value.value, eventCutoff, k, d.definitionDigest, generationId)];
    }
    assert definitions[..|definitions|] == definitions;
    r := Ok(values);
  }

  lemma {:induction false} FirstErrorStays(generationId: string, definitions: seq<FeatureDefinition>, n: nat,
                                           known: seq<PaymentEvent>, customerId: string, eventCutoff: int, k: int)
    requires n <= |definitions|
    requires CustomerRows(generationId, definitions[..n], known, customerId, eventCutoff, k).Err?
    ensures CustomerRows(generationId, definitions, known, customerId, eventCutoff, k)
         == CustomerRows(generationId, definitions[..n], known, customerId, eventCutoff, k)
  {
    hide Compute;
    if n == |definitions| {
      assert definitions[..n] == definitions;
    } else {
      var last := |definitions| - 1;
      assert definitions[..last][..n] == definitions[..n];
      FirstErrorStays(generationId, definitions[..last], n, known, customerId, eventCutoff, k);
    }
  }

  lemma {:induction false} FirstCustomerErrorStays(generationId: string, definitions: seq<FeatureDefinition>, h: set<PaymentEvent>,
                                                   customers: seq<string>, n: nat, eventCutoff: int, k: int)
    requires Unambiguous(h) && n <= |customers|
    requires MaterializedRows(generationId, definitions, h, customers[..n], eventCutoff, k).Err?
    ensures MaterializedRows(generationId, definitions, h, customers, eventCutoff, k)
         == MaterializedRows(generationId, definitions, h, customers[..n], eventCutoff, k)
    decreases |customers| - n
  {
    if n == |customers| {
      assert customers[..n] == customers;
    } else {
      ghost var more := customers[..n + 1];
      assert more[..n] == customers[..n];
      assert MaterializedRows(generationId, definitions, h, more, eventCutoff, k)
          == MaterializedRows(generationId, definitions, h, customers[..n], eventCutoff, k);
      FirstCustomerErrorStays(generationId, definitions, h, customers, n + 1, eventCutoff, k);
    }
  }

  method Materialize(generationId: string, definitions: seq<FeatureDefinition>, events: seq<PaymentEvent>,
                     customerIds: seq<string>, eventCutoff: int, knowledgeCutoff: int)
    returns (r: Result<seq<FeatureValue>, ComputationError>)
    ensures r.Ok? && customerIds != [] ==> Unambiguous(History(events)) && 0 <= eventCutoff && 0 <= knowledgeCutoff
    ensures Unambiguous(History(events)) && 0 <= eventCutoff && 0 <= knowledgeCutoff ==>
      r == Materialized(generationId, definitions, History(events), customerIds, eventCutoff, knowledgeCutoff)
  {
    hide CustomerRows;
    hide StableSort;
    hide SelectedInOrder;
    hide Unambiguous;
    hide History;
    var customers := StableSort(customerIds, StringLess);
    ghost var h := History(events);
    var values: seq<FeatureValue> := [];
    for i := 0 to |customers|
      invariant 0 < i ==> Unambiguous(h) && 0 <= eventCutoff && 0 <= knowledgeCutoff
      invariant Unambiguous(h) ==>
        MaterializedRows(generationId, definitions, h, customers[..i], eventCutoff, knowledgeCutoff) == Ok(values)
    {
      var known := SelectEvents(events, customers[i], eventCutoff, knowledgeCutoff);
      if known.Err? {
        return Err(Temporal(known.error));
      }
      SelectedIsOrdered(known.value, h, customers[i], eventCutoff, knowledgeCutoff);
      assert customers[..i + 1][..i] == customers[..i] && customers[..i + 1][i] == customers[i];
      var rows := ComputeCustomer(generationId, definitions, known.value, customers[i], eventCutoff, knowledgeCutoff);
      if rows.Err? {
        FirstCustomerErrorStays(generationId, definitions, h, customers, i + 1, eventCutoff, knowledgeCutoff);
        return Err(rows.error);
      }
      values := values + rows.value;
    }
    assert customers[..|customers|] == customers;
    r := Ok(values);
  }

  lemma SelectedIsOrdered(known: seq<PaymentEvent>, h: set<PaymentEvent>, customerId: string, eventCutoff: int, k: int)
    requires Unambiguous(h) && Increasing(known, BusinessLess)
    requires History(known) == Selected(h, customerId, eventCutoff, k)
    ensures known == SelectedInOrder(h, customerId, eventCutoff, k)
  {
    var selected := Selected(h, customerId, eventCutoff, k);
    BusinessOrder(selected);
    SortedIsUnique(known, selected, BusinessLess);
  }

  // ---- Values depend on the knowable history alone -------------------------------------------

  lemma {:induction false} RowsAreKnowable(generationId: string, definitions: seq<FeatureDefinition>, h: set<PaymentEvent>,
                                           h': set<PaymentEvent>, customers: seq<string>, eventCutoff: int, k: int)
    requires Unambiguous(h) && Unambiguous(h') && Known(h, k) == Known(h', k)
    ensures MaterializedRows(generationId, definitions, h, customers, eventCutoff, k)
         == MaterializedRows(generationId, definitions, h', customers, eventCutoff, k)
  {
    if customers != [] {
      var last := |customers| - 1;
      RowsAreKnowable(generationId, definitions, h, h', customers[..last], eventCutoff, k);
      SelectionIsKnowable(h, h', customers[last], eventCutoff, k);
    }
  }
}
