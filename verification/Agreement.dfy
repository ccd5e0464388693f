/** Three implementations, one meaning: the Python library, the Spark expressions and the
    independent projector compute the same rows from every accepted history. */
module Agreement {
  import opened Ordering
  import opened Model
  import opened Temporal
  import opened SparkRuntime
  import opened Incremental
  import C = Computation
  import P = Projector

  /** The meaning they share, defaults untouched. */
  function Meaning(d: FeatureDefinition, rows: seq<PaymentEvent>, eventCutoff: int): Value {
    match d.computation
    case TransactionCount => Integer(|rows|)
    case SuccessfulSpendCents => Coalesce(SumColumn(rows, PaidAmount), (x: int) => Integer(x), d.emptyDefault)
    case FailedPaymentRatio =>
      var failures := SumColumn(rows, FailureFlag);
      if failures.Some? && |rows| > 0 then Float(failures.value as real / |rows| as real) else d.emptyDefault
    case HoursSinceSuccess =>
      Coalesce(MaxColumn(rows, SuccessTime), (x: real) => Float((eventCutoff as real - x) / 3600.0), d.emptyDefault)
    case _ => Coalesce(MaxColumn(rows, (e: PaymentEvent) => e.merchantRisk), (x: real) => Float(x), d.emptyDefault)
  }

  /** Spark's typed output column: a double where the feature is a float. */
  function Typed(d: FeatureDefinition, v: Value): Value {
    if d.valueType.FloatType? then AsDouble(v) else v
  }

  ghost predicate Payments(rows: seq<PaymentEvent>) {
    forall e | e in rows :: e.Valid() && e.operation.Upsert?
  }

  // ---- Each form against the meaning, on the same rows -----------------------------------------------

  lemma {:induction false} PythonSumsMatch(rows: seq<PaymentEvent>)
    requires Payments(rows)
    ensures var amounts := C.Amounts(C.Succeeded(rows));
            SumColumn(rows, PaidAmount) == if amounts == [] then None else Some(C.Sum(amounts))
  {
    if rows != [] {
      assert rows[0].Valid();
      PythonSumsMatch(rows[1..]);
      var paid := C.Succeeded(rows[1..]);
      if rows[0].status == Some(Succeeded) {
        assert C.Succeeded(rows) == [rows[0]] + paid;
        assert C.Amounts(C.Succeeded(rows))[1..] == C.Amounts(paid);
      } else {
        assert C.Succeeded(rows) == paid;
      }
    }
  }

  lemma {:induction false} SumsMatch(rows: seq<PaymentEvent>)
    requires Payments(rows)
    ensures SumColumn(rows, PaidAmount) == if P.Paid(rows) == [] then None else Some(P.TotalPaid(P.Paid(rows)))
  {
    if rows != [] {
      assert rows[0].Valid();
      SumsMatch(rows[1..]);
      if rows[0].status == Some(Succeeded) {
        assert P.Paid(rows) == [rows[0]] + P.Paid(rows[1..]);
      } else {
        assert P.Paid(rows) == P.Paid(rows[1..]);
      }
    }
  }

  lemma {:induction false} FailuresMatch(rows: seq<PaymentEvent>)
    ensures SumColumn(rows, FailureFlag) == if rows == [] then None else Some(C.FailedCount(rows))
    ensures C.FailedCount(rows) == P.Failures(rows)
  {
    if rows != [] {
      FailuresMatch(rows[1..]);
    }
  }

  lemma MaxOfCons(x: real, rest: seq<real>)
    ensures C.Max([x] + rest) == if rest == [] then x else if x <= C.Max(rest) then C.Max(rest) else x
  {
    assert ([x] + rest)[1..] == rest;
  }

  lemma {:induction false} PythonTimesMatch(rows: seq<PaymentEvent>)
    ensures var times := C.Times(C.Succeeded(rows));
            MaxColumn(rows, SuccessTime) == if times == [] then None else Some(C.Max(times))
  {
    if rows != [] {
      PythonTimesMatch(rows[1..]);
      var paid := C.Succeeded(rows[1..]);
      if rows[0].status == Some(Succeeded) {
        assert C.Succeeded(rows)[1..] == paid;
        assert C.Times(C.Succeeded(rows)) == [rows[0].eventTime as real] + C.Times(paid);
        MaxOfCons(rows[0].eventTime as real, C.Times(paid));
      } else {
        assert C.Succeeded(rows) == paid;
      }
    }
  }

  lemma {:induction false} ProjectedTimesMatch(rows: seq<PaymentEvent>)
    ensures MaxColumn(rows, SuccessTime) == if P.Paid(rows) == [] then None else Some(P.LastTime(P.Paid(rows)) as real)
  {
    if rows != [] {
      ProjectedTimesMatch(rows[1..]);
      var paid := P.Paid(rows[1..]);
      if rows[0].status == Some(Succeeded) {
        assert P.Paid(rows) == [rows[0]] + paid && P.Paid(rows)[1..] == paid;
      } else {
        assert P.Paid(rows) == paid;
      }
    }
  }

  lemma {:induction false} RisksMatch(rows: seq<PaymentEvent>)
    requires Payments(rows)
    ensures MaxColumn(rows, (e: PaymentEvent) => e.merchantRisk) == if C.Risks(rows) == [] then None else Some(C.Max(C.Risks(rows)))
    ensures MaxColumn(rows, (e: PaymentEvent) => e.merchantRisk) == if rows == [] then None else Some(P.TopRisk(rows))
  {
    if rows != [] {
      assert rows[0].Valid();
      assert Payments(rows[1..]);
      RisksMatch(rows[1..]);
    }
  }

  lemma FormsHaveTheMeaning(d: FeatureDefinition, rows: seq<PaymentEvent>, eventCutoff: int)
    requires Payments(rows) && d.Valid() && Supported(d.computation) && d.valueType == ComputationType(d.computation)
    ensures C.RawValue(d, rows, eventCutoff) == Ok(Meaning(d, rows, eventCutoff))
    ensures P.Projected(d, rows, eventCutoff) == Ok(Meaning(d, rows, eventCutoff))
    ensures Aggregate(d, rows, eventCutoff) == Typed(d, Meaning(d, rows, eventCutoff))
    ensures d.valueType.IntegerType? ==> !Meaning(d, rows, eventCutoff).Float?
  {
    match d.computation
    case TransactionCount =>
    case SuccessfulSpendCents => PythonSumsMatch(rows); SumsMatch(rows);
    case FailedPaymentRatio => FailuresMatch(rows);
    case HoursSinceSuccess => PythonTimesMatch(rows); ProjectedTimesMatch(rows);
    case MaxMerchantRisk => RisksMatch(rows);
  }

  lemma MeaningIgnoresRowOrder(d: FeatureDefinition, a: seq<PaymentEvent>, b: seq<PaymentEvent>, eventCutoff: int)
    requires Distinct(a) && Distinct(b) && Elements(a) == Elements(b)
    ensures Meaning(d, a, eventCutoff) == Meaning(d, b, eventCutoff)
  {
    ColumnsIgnoreRowOrder(a, b, PaidAmount, SuccessTime);
    ColumnsIgnoreRowOrder(a, b, FailureFlag, (e: PaymentEvent) => e.merchantRisk);
  }

  // ---- The three forms read the same rows --------------------------------------------------------------

  lemma IncreasingIsDistinct(h: set<PaymentEvent>, s: seq<PaymentEvent>, less: (PaymentEvent, PaymentEvent) -> bool)
    requires StrictOrderOn(h, less) && Increasing(s, less) && forall e | e in s :: e in h
    ensures Distinct(s)
  {
    forall i, j | 0 <= i < j < |s| ensures s[i] != s[j] {
      assert less(s[i], s[j]) && s[i] in h && s[j] in h;
    }
  }

  lemma SparkRows(h: set<PaymentEvent>, d: FeatureDefinition, customerId: string, eventCutoff: int, k: int)
    requires Unambiguous(h)
    ensures Distinct(Eligible(Normalized(h), d, customerId, eventCutoff, k))
    ensures forall e :: e in Eligible(Normalized(h), d, customerId, eventCutoff, k)
                   <==> IsState(h, e, k) && e.customerId == customerId && InWindow(d, e, eventCutoff)
  {
    RevisionOrder(h);
    EligibleIsOrdered(h, d, customerId, eventCutoff, k);
    IncreasingIsDistinct(h, Eligible(Normalized(h), d, customerId, eventCutoff, k), RevisionLess);
    forall e ensures e in Eligible(Normalized(h), d, customerId, eventCutoff, k)
                <==> IsState(h, e, k) && e.customerId == customerId && InWindow(d, e, eventCutoff)
    {
      EligibleIsState(h, d, customerId, eventCutoff, k, e);
    }
  }

  lemma PythonRows(h: set<PaymentEvent>, d: FeatureDefinition, customerId: string, eventCutoff: int, k: int)
    requires Unambiguous(h)
    ensures var rows := C.Window(C.SelectedInOrder(h, customerId, eventCutoff, k), eventCutoff, d.windowSeconds);
            Distinct(rows) && forall e :: e in rows <==> IsState(h, e, k) && e.customerId == customerId && InWindow(d, e, eventCutoff)
  {
    hide Unambiguous;
    hide IsState;
    hide C.SelectedInOrder;
    SelectedRows(h, customerId, eventCutoff, k);
    var known := C.SelectedInOrder(h, customerId, eventCutoff, k);
    if d.windowSeconds.Some? {
      var w := d.windowSeconds.value;
      FilterKeepsDistinct(known, (e: PaymentEvent) => e.eventTime > eventCutoff - w);
    }
  }

  lemma SelectedRows(h: set<PaymentEvent>, customerId: string, eventCutoff: int, k: int)
    requires Unambiguous(h)
    ensures var known := C.SelectedInOrder(h, customerId, eventCutoff, k);
            Distinct(known) && forall e :: e in known <==> IsState(h, e, k) && e.customerId == customerId && e.eventTime <= eventCutoff
  {
    var selected := Selected(h, customerId, eventCutoff, k);
    BusinessOrder(selected);
    IncreasingIsDistinct(selected, C.SelectedInOrder(h, customerId, eventCutoff, k), BusinessLess);
  }

  lemma CurrentRows(h: set<PaymentEvent>, k: int)
    requires Unambiguous(h)
    ensures Distinct(P.Current(h, k)) && forall e :: e in P.Current(h, k) <==> IsLatest(h, e, k)
  {
    var latest := set e | e in h && IsLatest(h, e, k);
    RevisionOrder(latest);
    IncreasingIsDistinct(latest, P.Current(h, k), RevisionLess);
  }

  lemma ProjectorRows(h: set<PaymentEvent>, d: FeatureDefinition, customerId: string, eventCutoff: int, k: int)
    requires Unambiguous(h)
    ensures var rows := P.CandidatesOf(P.Current(h, k), d, customerId, eventCutoff);
            Distinct(rows) && forall e :: e in rows <==> IsState(h, e, k) && e.customerId == customerId && InWindow(d, e, eventCutoff)
  {
    hide Unambiguous;
    hide P.Current;
    hide IsLatest;
    hide Distinct;
    CurrentRows(h, k);
    var current := P.Current(h, k);
    var visible := Filter(current, (e: PaymentEvent) => P.Visible(e, customerId, eventCutoff));
    FilterKeepsDistinct(current, (e: PaymentEvent) => P.Visible(e, customerId, eventCutoff));
    FilterKeepsDistinct(visible, (e: PaymentEvent) => P.Windowed(d, e, eventCutoff));
    assert P.CandidatesOf(current, d, customerId, eventCutoff) == Filter(visible, (e: PaymentEvent) => P.Windowed(d, e, eventCutoff));
    forall e ensures e in P.CandidatesOf(current, d, customerId, eventCutoff)
                <==> e in current && P.Visible(e, customerId, eventCutoff) && P.Windowed(d, e, eventCutoff)
    {
    }
  }

  /** For every accepted history, customer, definition and pair of cutoffs: the Python value and
      the projected value are equal, and Spark's is that value in its output column type. */
  lemma ValuesAgree(h: set<PaymentEvent>, d: FeatureDefinition, customerId: string, eventCutoff: int, k: int)
    requires Unambiguous(h) && forall e | e in h :: e.Valid()
    requires d.Valid() && Supported(d.computation) && d.valueType == ComputationType(d.computation)
    ensures C.Compute(d, C.SelectedInOrder(h, customerId, eventCutoff, k), eventCutoff).Ok?
    ensures
      var value := C.Compute(d, C.SelectedInOrder(h, customerId, eventCutoff, k), eventCutoff).value;
      && P.Projected(d, P.CandidatesOf(P.Current(h, k), d, customerId, eventCutoff), eventCutoff) == Ok(value)
      && ValueFor(Normalized(h), d, customerId, eventCutoff, k) == Typed(d, value)
  {
    var spark := Eligible(Normalized(h), d, customerId, eventCutoff, k);
    var python := C.Window(C.SelectedInOrder(h, customerId, eventCutoff, k), eventCutoff, d.windowSeconds);
    var projected := P.CandidatesOf(P.Current(h, k), d, customerId, eventCutoff);
    SparkRows(h, d, customerId, eventCutoff, k);
    PythonRows(h, d, customerId, eventCutoff, k);
    ProjectorRows(h, d, customerId, eventCutoff, k);
    hide Unambiguous;
    hide IsState;
    assert Elements(spark) == Elements(python) == Elements(projected);
    FormsHaveTheMeaning(d, spark, eventCutoff);
    FormsHaveTheMeaning(d, python, eventCutoff);
    FormsHaveTheMeaning(d, projected, eventCutoff);
    MeaningIgnoresRowOrder(d, spark, python, eventCutoff);
    MeaningIgnoresRowOrder(d, projected, python, eventCutoff);
  }

  lemma IdenticalUnlessCast(d: FeatureDefinition, h: set<PaymentEvent>, customerId: string, eventCutoff: int, k: int)
    requires d.Valid() && Supported(d.computation) && d.valueType == ComputationType(d.computation)
    requires Unambiguous(h) && (forall e | e in h :: e.Valid()) && !(d.valueType.FloatType? && d.emptyDefault.Integer?)
    ensures C.Compute(d, C.SelectedInOrder(h, customerId, eventCutoff, k), eventCutoff)
         == Ok(ValueFor(Normalized(h), d, customerId, eventCutoff, k))
  {
    var rows := C.Window(C.SelectedInOrder(h, customerId, eventCutoff, k), eventCutoff, d.windowSeconds);
    ValuesAgree(h, d, customerId, eventCutoff, k);
    PythonRows(h, d, customerId, eventCutoff, k);
    hide Unambiguous;
    hide C.SelectedInOrder;
    hide ValueFor;
    if d.valueType.FloatType? { FloatMeaning(d, rows, eventCutoff); }
    FormsHaveTheMeaning(d, rows, eventCutoff);
  }

  lemma CastOfEmpty(d: FeatureDefinition)
    requires d.Valid() && Supported(d.computation) && d.valueType == ComputationType(d.computation)
    requires d.valueType.FloatType? && d.emptyDefault.Integer?
    ensures C.Compute(d, C.SelectedInOrder({}, "c", 0, 0), 0) != Ok(ValueFor(Normalized({}), d, "c", 0, 0))
  {
    ValuesAgree({}, d, "c", 0, 0);
    PythonRows({}, d, "c", 0, 0);
    var rows := C.Window(C.SelectedInOrder({}, "c", 0, 0), 0, d.windowSeconds);
    assert forall e :: e !in rows;
    assert rows == [];
    FormsHaveTheMeaning(d, rows, 0);
    assert Meaning(d, rows, 0) == d.emptyDefault;
  }

  /** The Spark rows repeat the Python rows exactly, for every history, unless the definition is
      a float feature whose empty default was given as an integer: Python keeps `0`, Spark writes `0.0`. */
  lemma SparkIsIdenticalIff(d: FeatureDefinition)
    requires d.Valid() && Supported(d.computation) && d.valueType == ComputationType(d.computation)
    ensures
      (forall h: set<PaymentEvent>, customerId, eventCutoff: int, k: int
         | Unambiguous(h) && (forall e | e in h :: e.Valid()) ::
         C.Compute(d, C.SelectedInOrder(h, customerId, eventCutoff, k), eventCutoff)
         == Ok(ValueFor(Normalized(h), d, customerId, eventCutoff, k)))
      <==> !(d.valueType.FloatType? && d.emptyDefault.Integer?)
  {
    hide C.Compute;
    hide C.SelectedInOrder;
    hide ValueFor;
    if d.valueType.FloatType? && d.emptyDefault.Integer? {
      CastOfEmpty(d);
    } else {
      forall h: set<PaymentEvent>, customerId, eventCutoff: int, k: int | Unambiguous(h) && (forall e | e in h :: e.Valid())
        ensures C.Compute(d, C.SelectedInOrder(h, customerId, eventCutoff, k), eventCutoff)
             == Ok(ValueFor(Normalized(h), d, customerId, eventCutoff, k))
      {
        IdenticalUnlessCast(d, h, customerId, eventCutoff, k);
      }
    }
  }

  lemma FloatMeaning(d: FeatureDefinition, rows: seq<PaymentEvent>, eventCutoff: int)
    requires d.valueType == ComputationType(d.computation)
    requires d.valueType.FloatType? ==> !d.emptyDefault.Integer?
    ensures Typed(d, Meaning(d, rows, eventCutoff)) == Meaning(d, rows, eventCutoff)
  {
  }

  // ---- Whole tables ----------------------------------------------------------------------------------------

  ghost predicate TypedDefinitions(definitions: seq<FeatureDefinition>) {
    forall d | d in definitions :: d.Valid() && Supported(d.computation) && d.valueType == ComputationType(d.computation)
  }

  lemma {:induction false} CustomersAgree(h: set<PaymentEvent>, definitions: seq<FeatureDefinition>, customerId: string,
                                          generationId: string, eventCutoff: int, k: int)
    requires Unambiguous(h) && (forall e | e in h :: e.Valid()) && TypedDefinitions(definitions)
    ensures
      var rows := P.CustomerProjection(P.Current(h, k), definitions, customerId, generationId, eventCutoff, k);
      var python := C.CustomerRows(generationId, definitions, C.SelectedInOrder(h, customerId, eventCutoff, k), customerId, eventCutoff, k);
      rows.Ok? && python.Ok? && rows.value == python.value
  {
    if definitions != [] {
      var last := |definitions| - 1;
      CustomersAgree(h, definitions[..last], customerId, generationId, eventCutoff, k);
      ValuesAgree(h, definitions[last], customerId, eventCutoff, k);
    }
  }

  /** Over the same lists the Python rows and the projected rows are the same sequence. */
  lemma {:induction false} RowsAgree(h: set<PaymentEvent>, definitions: seq<FeatureDefinition>, customers: seq<string>,
                                     generationId: string, eventCutoff: int, k: int)
    requires Unambiguous(h) && (forall e | e in h :: e.Valid()) && TypedDefinitions(definitions)
    ensures
      var rows := P.ProjectedRows(P.Current(h, k), definitions, customers, generationId, eventCutoff, k);
      var python := C.MaterializedRows(generationId, definitions, h, customers, eventCutoff, k);
      rows.Ok? && python.Ok? && rows.value == python.value
  {
    if customers != [] {
      var last := |customers| - 1;
      RowsAgree(h, definitions, customers[..last], generationId, eventCutoff, k);
      CustomersAgree(h, definitions, customers[last], generationId, eventCutoff, k);
    }
  }

  // ---- The two functions ---------------------------------------------------------------------------------------

  /** The definitions in the order of their names. */
  ghost predicate InNameOrder(definitions: seq<FeatureDefinition>) {
    NonDecreasing(definitions, NameLess)
  }

  lemma NamesAreWeaklyOrdered()
    ensures WeakOrder(NameLess)
  {
    StringsAreWeaklyOrdered();
    forall a: FeatureDefinition, b: FeatureDefinition, c: FeatureDefinition | NameLess(a, c) ensures NameLess(a, b) || NameLess(b, c) {
      assert StringLess(a.name, c.name) ==> StringLess(a.name, b.name) || StringLess(b.name, c.name);
    }
  }

  function PythonRow(known: seq<PaymentEvent>, d: FeatureDefinition, customerId: string, generationId: string, eventCutoff: int, k: int): FeatureValue {
    var value := C.Compute(d, known, eventCutoff);
    FeatureValue(customerId, d.name, if value.Ok? then value.value else Null, eventCutoff, k, d.definitionDigest, generationId)
  }

  lemma {:induction false} CustomerRowsAt(definitions: seq<FeatureDefinition>, known: seq<PaymentEvent>, customerId: string,
                                          generationId: string, eventCutoff: int, k: int)
    requires C.CustomerRows(generationId, definitions, known, customerId, eventCutoff, k).Ok?
    ensures var rows := C.CustomerRows(generationId, definitions, known, customerId, eventCutoff, k).value;
            && |rows| == |definitions|
            && forall i | 0 <= i < |rows| :: rows[i] == PythonRow(known, definitions[i], customerId, generationId, eventCutoff, k)
  {
    hide C.Compute;
    if definitions != [] {
      CustomerRowsAt(definitions[..|definitions| - 1], known, customerId, generationId, eventCutoff, k);
    }
  }

  ghost predicate IsPythonRow(v: FeatureValue, h: set<PaymentEvent>, definitions: seq<FeatureDefinition>, customers: seq<string>,
                              generationId: string, eventCutoff: int, k: int)
    requires Unambiguous(h)
  {
    v.customerId in customers
    && exists d | d in definitions :: v == PythonRow(C.SelectedInOrder(h, v.customerId, eventCutoff, k), d, v.customerId, generationId, eventCutoff, k)
  }

  lemma CustomerMembers(h: set<PaymentEvent>, definitions: seq<FeatureDefinition>, c: string, generationId: string, eventCutoff: int, k: int,
                        v: FeatureValue)
    requires Unambiguous(h)
    requires C.CustomerRows(generationId, definitions, C.SelectedInOrder(h, c, eventCutoff, k), c, eventCutoff, k).Ok?
    ensures v in C.CustomerRows(generationId, definitions, C.SelectedInOrder(h, c, eventCutoff, k), c, eventCutoff, k).value
       <==> IsPythonRow(v, h, definitions, [c], generationId, eventCutoff, k)
  {
    hide C.SelectedInOrder;
    hide C.CustomerRows;
    hide C.Compute;
    var known := C.SelectedInOrder(h, c, eventCutoff, k);
    var rows := C.CustomerRows(generationId, definitions, known, c, eventCutoff, k).value;
    CustomerRowsAt(definitions, known, c, generationId, eventCutoff, k);
    if v in rows {
      var i :| 0 <= i < |rows| && rows[i] == v;
      assert definitions[i] in definitions;
    }
    if IsPythonRow(v, h, definitions, [c], generationId, eventCutoff, k) {
      var d :| d in definitions && v == PythonRow(known, d, c, generationId, eventCutoff, k);
      var i :| 0 <= i < |definitions| && definitions[i] == d;
      assert rows[i] == v;
    }
  }

  /** The Python rows: as many as customers and definitions, one of each for each. */
  lemma {:induction false} PythonMembers(h: set<PaymentEvent>, definitions: seq<FeatureDefinition>, customers: seq<string>,
                                         generationId: string, eventCutoff: int, k: int)
    requires Unambiguous(h) && C.MaterializedRows(generationId, definitions, h, customers, eventCutoff, k).Ok?
    ensures var rows := C.MaterializedRows(generationId, definitions, h, customers, eventCutoff, k).value;
            && |rows| == |customers| * |definitions|
            && forall v :: v in rows <==> IsPythonRow(v, h, definitions, customers, generationId, eventCutoff, k)
  {
    hide C.SelectedInOrder;
    hide C.CustomerRows;
    hide PythonRow;
    if customers != [] {
      var last := |customers| - 1;
      var known := C.SelectedInOrder(h, customers[last], eventCutoff, k);
      PythonMembers(h, definitions, customers[..last], generationId, eventCutoff, k);
      CustomerRowsAt(definitions, known, customers[last], generationId, eventCutoff, k);
      assert |customers| * |definitions| == last * |definitions| + |definitions|;
      assert customers == customers[..last] + [customers[last]];
      forall v ensures v in C.MaterializedRows(generationId, definitions, h, customers, eventCutoff, k).value
                  <==> IsPythonRow(v, h, definitions, customers, generationId, eventCutoff, k)
      {
        CustomerMembers(h, definitions, customers[last], generationId, eventCutoff, k, v);
      }
    }
  }

  lemma MoreRows(a: nat, b: nat, n: nat)
    requires a < b && n > 0
    ensures a * n < b * n
  {
  }

  /** Equal rows of the last customer come from definitions of equal names. */
  lemma LastRowsName(h: set<PaymentEvent>, definitions: seq<FeatureDefinition>, definitions': seq<FeatureDefinition>, customers: seq<string>,
                     generationId: string, eventCutoff: int, k: int)
    requires Unambiguous(h) && customers != [] && |definitions| == |definitions'|
    requires C.MaterializedRows(generationId, definitions, h, customers, eventCutoff, k).Ok?
    requires C.MaterializedRows(generationId, definitions', h, customers, eventCutoff, k)
          == C.MaterializedRows(generationId, definitions, h, customers, eventCutoff, k)
    ensures forall i | 0 <= i < |definitions| :: definitions[i].name == definitions'[i].name
  {
    hide C.SelectedInOrder;
    hide C.CustomerRows;
    hide C.Compute;
    var last := |customers| - 1;
    var known := C.SelectedInOrder(h, customers[last], eventCutoff, k);
    CustomerRowsAt(definitions, known, customers[last], generationId, eventCutoff, k);
    CustomerRowsAt(definitions', known, customers[last], generationId, eventCutoff, k);
    var a, a' := C.MaterializedRows(generationId, definitions, h, customers[..last], eventCutoff, k).value,
                 C.MaterializedRows(generationId, definitions', h, customers[..last], eventCutoff, k).value;
    var b, b' := C.CustomerRows(generationId, definitions, known, customers[last], eventCutoff, k).value,
                 C.CustomerRows(generationId, definitions', known, customers[last], eventCutoff, k).value;
    assert a + b == a' + b' && |b| == |b'|;
    forall i | 0 <= i < |definitions| ensures definitions[i].name == definitions'[i].name {
      assert (a + b)[|a| + i] == b[i] && (a' + b')[|a'| + i] == b'[i];
    }
  }

  /** The two sorts of the customers: the same elements, the same sequence iff no customer is repeated. */
  lemma CustomerLists(customerIds: seq<string>)
    ensures StrictOrderOn((set c | c in customerIds), StringLess)
    ensures forall c :: c in StableSort(customerIds, StringLess) <==> c in Sorted((set c | c in customerIds), StringLess)
    ensures |StableSort(customerIds, StringLess)| == |Sorted((set c | c in customerIds), StringLess)| <==> Distinct(customerIds)
    ensures Distinct(customerIds) ==> StableSort(customerIds, StringLess) == Sorted((set c | c in customerIds), StringLess)
  {
    var all := set c | c in customerIds;
    StringOrder(all);
    assert all == Elements(customerIds);
    StableSortElements(customerIds, StringLess);
    DistinctCount(customerIds);
    SortedIsDistinct(all);
    DistinctCount(Sorted(all, StringLess));
    assert |multiset(StableSort(customerIds, StringLess))| == |multiset(customerIds)|;
    if Distinct(customerIds) {
      StableSortIsIncreasing(customerIds, all, StringLess);
      SortedIsUnique(StableSort(customerIds, StringLess), all, StringLess);
    }
  }

  /** What `materialize` and `project_feature_rows` make of the same arguments: both succeed, with the same
      set of rows, whatever the order and repetition of definitions and customers. */
  lemma SameRows(h: set<PaymentEvent>, definitions: seq<FeatureDefinition>, customerIds: seq<string>, generationId: string,
                 eventCutoff: int, k: int)
    requires Unambiguous(h) && (forall e | e in h :: e.Valid()) && TypedDefinitions(definitions)
    ensures
      var python := C.Materialized(generationId, definitions, h, customerIds, eventCutoff, k);
      var projected := P.Projection(definitions, h, customerIds, generationId, eventCutoff, k);
      && python.Ok? && projected.Ok? && forall v :: v in python.value <==> v in projected.value
  {
    hide C.MaterializedRows;
    hide P.ProjectedRows;
    hide PythonRow;
    hide C.SelectedInOrder;
    hide P.Current;
    CustomerLists(customerIds);
    StableSortElements(definitions, NameLess);
    var ordered, customers := StableSort(definitions, NameLess), StableSort(customerIds, StringLess);
    var once := Sorted((set c | c in customerIds), StringLess);
    hide StableSort;
    hide Sorted;
    RowsAgree(h, definitions, customers, generationId, eventCutoff, k);
    RowsAgree(h, ordered, once, generationId, eventCutoff, k);
    PythonMembers(h, definitions, customers, generationId, eventCutoff, k);
    PythonMembers(h, ordered, once, generationId, eventCutoff, k);
    forall v ensures IsPythonRow(v, h, definitions, customers, generationId, eventCutoff, k)
                <==> IsPythonRow(v, h, ordered, once, generationId, eventCutoff, k)
    {
    }
  }

  /** Over lists of the same definitions and customers, the second in order and once each. */
  lemma SequencesAgreeIff(h: set<PaymentEvent>, definitions: seq<FeatureDefinition>, ordered: seq<FeatureDefinition>, customers: seq<string>,
                          once: seq<string>, generationId: string, eventCutoff: int, k: int)
    requires Unambiguous(h) && |definitions| == |ordered| && (customers == [] ==> once == [])
    requires C.MaterializedRows(generationId, definitions, h, customers, eventCutoff, k).Ok?
    requires C.MaterializedRows(generationId, ordered, h, once, eventCutoff, k).Ok?
    requires InNameOrder(ordered) && (InNameOrder(definitions) ==> definitions == ordered)
    requires |customers| == |once| ==> customers == once
    ensures C.MaterializedRows(generationId, definitions, h, customers, eventCutoff, k) == C.MaterializedRows(generationId, ordered, h, once, eventCutoff, k)
       <==> definitions == [] || customers == [] || (InNameOrder(definitions) && |customers| == |once|)
  {
    hide IsPythonRow;
    PythonMembers(h, definitions, customers, generationId, eventCutoff, k);
    PythonMembers(h, ordered, once, generationId, eventCutoff, k);
    hide C.MaterializedRows;
    if definitions != [] && customers != [] {
      if |customers| < |once| { MoreRows(|customers|, |once|, |definitions|); }
      if |once| < |customers| { MoreRows(|once|, |customers|, |definitions|); }
      if C.MaterializedRows(generationId, definitions, h, customers, eventCutoff, k) == C.MaterializedRows(generationId, ordered, h, once, eventCutoff, k) {
        LastRowsName(h, definitions, ordered, customers, generationId, eventCutoff, k);
      }
    }
  }

  /** And the same sequence exactly when the definitions are given in name order and no customer is
      repeated, or there are no rows at all. */
  lemma PythonIsProjectorIff(h: set<PaymentEvent>, definitions: seq<FeatureDefinition>, customerIds: seq<string>, generationId: string,
                             eventCutoff: int, k: int)
    requires Unambiguous(h) && (forall e | e in h :: e.Valid()) && TypedDefinitions(definitions)
    ensures
      var python := C.Materialized(generationId, definitions, h, customerIds, eventCutoff, k);
      var projected := P.Projection(definitions, h, customerIds, generationId, eventCutoff, k);
      && python.Ok? && projected.Ok?
      && (python.value == projected.value
          <==> definitions == [] || customerIds == [] || (InNameOrder(definitions) && Distinct(customerIds)))
  {
    hide C.MaterializedRows;
    hide P.ProjectedRows;
    hide P.Current;
    CustomerLists(customerIds);
    NamesAreWeaklyOrdered();
    StableSortOrders(definitions, NameLess);
    if InNameOrder(definitions) { StableSortKeeps(definitions, NameLess); }
    StableSortElements(definitions, NameLess);
    var ordered, customers := StableSort(definitions, NameLess), StableSort(customerIds, StringLess);
    assert |multiset(ordered)| == |multiset(definitions)| && |multiset(customers)| == |multiset(customerIds)|;
    var once := Sorted((set c | c in customerIds), StringLess);
    hide StableSort;
    hide Sorted;
    hide TypedDefinitions;
    hide Unambiguous;
    hide NonDecreasing;
    RowsAgree(h, definitions, customers, generationId, eventCutoff, k);
    RowsAgree(h, ordered, once, generationId, eventCutoff, k);
    SequencesAgreeIff(h, definitions, ordered, customers, once, generationId, eventCutoff, k);
  }

  /** On distinct names the projector's order of definitions is Spark's. */
  lemma DefinitionOrders(definitions: seq<FeatureDefinition>)
    requires DistinctNames(definitions)
    ensures StableSort(definitions, NameLess) == ByName(definitions)
  {
    NameOrder(definitions);
    var ordered := StableSort(definitions, NameLess);
    assert Distinct(definitions);
    StableSortIsIncreasing(definitions, Elements(definitions), NameLess);
    StableSortElements(definitions, NameLess);
    SortedIsUnique(ordered, Elements(definitions), NameLess);
  }

  ghost predicate RowsIncrease(rows: seq<FeatureValue>) {
    forall i, j | 0 <= i < j < |rows| :: KeyLess(KeyOf(rows[i]), KeyOf(rows[j]))
  }

  /** Each projected row carries its definition's projected value. */
  ghost predicate IsProjectedRow(v: FeatureValue, current: seq<PaymentEvent>, definitions: seq<FeatureDefinition>,
                                 generationId: string, eventCutoff: int, k: int)
  {
    exists d | d in definitions :: IsProjectionOf(v, current, d, generationId, eventCutoff, k)
  }

  ghost predicate IsProjectionOf(v: FeatureValue, current: seq<PaymentEvent>, d: FeatureDefinition,
                                 generationId: string, eventCutoff: int, k: int)
  {
    var value := P.Projected(d, P.CandidatesOf(current, d, v.customerId, eventCutoff), eventCutoff);
    value.Ok? && v == FeatureValue(v.customerId, d.name, value.value, eventCutoff, k, d.definitionDigest, generationId)
  }

  lemma {:induction false} CustomerKeys(current: seq<PaymentEvent>, definitions: seq<FeatureDefinition>, customerId: string,
                                        generationId: string, eventCutoff: int, k: int)
    requires Increasing(definitions, NameLess)
    requires P.CustomerProjection(current, definitions, customerId, generationId, eventCutoff, k).Ok?
    ensures
      var rows := P.CustomerProjection(current, definitions, customerId, generationId, eventCutoff, k).value;
      && |rows| == |definitions|
      && forall i | 0 <= i < |rows| ::
           rows[i].customerId == customerId && IsProjectionOf(rows[i], current, definitions[i], generationId, eventCutoff, k)
  {
    if definitions != [] {
      CustomerKeys(current, definitions[..|definitions| - 1], customerId, generationId, eventCutoff, k);
    }
  }

  /** The projected table lists every key once, in the order Spark collects them. */
  lemma {:induction false} ProjectionKeys(current: seq<PaymentEvent>, definitions: seq<FeatureDefinition>, customers: seq<string>,
                                          generationId: string, eventCutoff: int, k: int)
    requires Increasing(definitions, NameLess) && Increasing(customers, StringLess)
    requires P.ProjectedRows(current, definitions, customers, generationId, eventCutoff, k).Ok?
    ensures
      var rows := P.ProjectedRows(current, definitions, customers, generationId, eventCutoff, k).value;
      && RowsIncrease(rows)
      && (forall v | v in rows :: KeyOf(v) in KeySet(customers, definitions))
      && (forall key | key in KeySet(customers, definitions) :: exists v | v in rows :: KeyOf(v) == key)
      && (forall v | v in rows :: IsProjectedRow(v, current, definitions, generationId, eventCutoff, k))
  {
    if customers != [] {
      var last := |customers| - 1;
      var c := customers[last];
      ProjectionKeys(current, definitions, customers[..last], generationId, eventCutoff, k);
      CustomerKeys(current, definitions, c, generationId, eventCutoff, k);
      var before := P.ProjectedRows(current, definitions, customers[..last], generationId, eventCutoff, k).value;
      var more := P.CustomerProjection(current, definitions, c, generationId, eventCutoff, k).value;
      AppendCustomer(before, more, definitions, customers);
      forall v | v in more ensures IsProjectedRow(v, current, definitions, generationId, eventCutoff, k) {
        var i :| 0 <= i < |more| && more[i] == v;
        assert definitions[i] in definitions;
      }
    }
  }

  lemma AppendIncreases(before: seq<FeatureValue>, more: seq<FeatureValue>, definitions: seq<FeatureDefinition>, customers: seq<string>)
    requires customers != [] && Increasing(definitions, NameLess) && Increasing(customers, StringLess)
    requires RowsIncrease(before) && forall v | v in before :: v.customerId in customers[..|customers| - 1]
    requires |more| == |definitions|
    requires forall i | 0 <= i < |more| :: KeyOf(more[i]) == (customers[|customers| - 1], definitions[i].name)
    ensures RowsIncrease(before + more)
  {
    var last := |customers| - 1;
    var rows := before + more;
    forall i, j | 0 <= i < j < |rows| ensures KeyLess(KeyOf(rows[i]), KeyOf(rows[j])) {
      if i < |before| <= j {
        assert before[i] in before;
        var n :| 0 <= n < last && customers[n] == before[i].customerId;
      } else if |before| <= i {
        assert NameLess(definitions[i - |before|], definitions[j - |before|]);
      }
    }
  }

  lemma AppendKeys(before: seq<FeatureValue>, more: seq<FeatureValue>, definitions: seq<FeatureDefinition>, customers: seq<string>, key: Key)
    requires customers != [] && |more| == |definitions|
    requires (exists v | v in before :: KeyOf(v) == key) <==> key in KeySet(customers[..|customers| - 1], definitions)
    requires forall i | 0 <= i < |more| :: KeyOf(more[i]) == (customers[|customers| - 1], definitions[i].name)
    ensures (exists v | v in before + more :: KeyOf(v) == key) <==> key in KeySet(customers, definitions)
  {
    var last := |customers| - 1;
    assert customers == customers[..last] + [customers[last]];
    if exists v | v in before + more :: KeyOf(v) == key {
      var v :| v in before + more && KeyOf(v) == key;
      if v in before {
        var c, d :| c in customers[..last] && d in definitions && key == (c, d.name);
        assert c in customers;
      } else {
        var i :| 0 <= i < |more| && more[i] == v;
        assert customers[last] in customers && definitions[i] in definitions;
      }
    }
    if key in KeySet(customers, definitions) && key !in KeySet(customers[..last], definitions) {
      var c, d :| c in customers && d in definitions && key == (c, d.name);
      var i :| 0 <= i < |definitions| && definitions[i] == d;
      assert more[i] in before + more;
    }
    if key in KeySet(customers[..last], definitions) {
      var v :| v in before && KeyOf(v) == key;
      assert v in before + more;
    }
  }

  lemma AppendCustomer(before: seq<FeatureValue>, more: seq<FeatureValue>, definitions: seq<FeatureDefinition>, customers: seq<string>)
    requires customers != [] && Increasing(definitions, NameLess) && Increasing(customers, StringLess)
    requires var initial := customers[..|customers| - 1];
             && RowsIncrease(before)
             && (forall v | v in before :: KeyOf(v) in KeySet(initial, definitions))
             && (forall key | key in KeySet(initial, definitions) :: exists v | v in before :: KeyOf(v) == key)
    requires |more| == |definitions|
    requires forall i | 0 <= i < |more| :: KeyOf(more[i]) == (customers[|customers| - 1], definitions[i].name)
    ensures RowsIncrease(before + more)
    ensures forall v | v in before + more :: KeyOf(v) in KeySet(customers, definitions)
    ensures forall key | key in KeySet(customers, definitions) :: exists v | v in before + more :: KeyOf(v) == key
  {
    forall v | v in before ensures v.customerId in customers[..|customers| - 1] {
      assert KeyOf(v) in KeySet(customers[..|customers| - 1], definitions);
    }
    AppendIncreases(before, more, definitions, customers);
    hide KeySet;
    hide RowsIncrease;
    hide Increasing;
    forall v | v in before + more ensures KeyOf(v) in KeySet(customers, definitions) {
      AppendKeys(before, more, definitions, customers, KeyOf(v));
    }
    forall key | key in KeySet(customers, definitions) ensures exists v | v in before + more :: KeyOf(v) == key {
      AppendKeys(before, more, definitions, customers, key);
    }
  }

  ghost function Keys(rows: seq<FeatureValue>): (keys: seq<Key>)
    ensures |keys| == |rows| && forall i | 0 <= i < |rows| :: keys[i] == KeyOf(rows[i])
  {
    seq(|rows|, i requires 0 <= i < |rows| => KeyOf(rows[i]))
  }

  lemma KeysAreOrdered(rows: seq<FeatureValue>, definitions: seq<FeatureDefinition>, customers: seq<string>)
    requires RowsIncrease(rows)
    requires forall v | v in rows :: KeyOf(v) in KeySet(customers, definitions)
    requires forall key | key in KeySet(customers, definitions) :: exists v | v in rows :: KeyOf(v) == key
    ensures Keys(rows) == OrderedKeys(customers, definitions)
  {
    KeyOrder(KeySet(customers, definitions));
    var keys := Keys(rows);
    forall key ensures key in keys <==> key in KeySet(customers, definitions) {
      if key in keys {
        var i :| 0 <= i < |keys| && keys[i] == key;
        assert rows[i] in rows;
      }
      if key in KeySet(customers, definitions) {
        var v :| v in rows && KeyOf(v) == key;
        var i :| 0 <= i < |rows| && rows[i] == v;
        assert keys[i] == key;
      }
    }
    SortedIsUnique(keys, KeySet(customers, definitions), KeyLess);
  }

  /** What the projector returns of distinct names and any customers: the keys of Spark's table, in its order. */
  lemma ProjectionIsOrdered(h: set<PaymentEvent>, definitions: seq<FeatureDefinition>, customerIds: seq<string>,
                            generationId: string, eventCutoff: int, k: int)
    requires Unambiguous(h) && (forall e | e in h :: e.Valid())
    requires GoodDefinitions(definitions) && forall d | d in definitions :: d.Valid()
    ensures
      var rows := P.Projection(definitions, h, customerIds, generationId, eventCutoff, k);
      && rows.Ok? && Keys(rows.value) == OrderedKeys(InOrder(customerIds), ByName(definitions))
      && forall v | v in rows.value :: IsProjectedRow(v, P.Current(h, k), ByName(definitions), generationId, eventCutoff, k)
  {
    var defs, customers, current := ByName(definitions), InOrder(customerIds), P.Current(h, k);
    NameOrder(definitions);
    DistinctNamesCount(definitions);
    StringOrder(Elements(customerIds));
    DefinitionOrders(definitions);
    assert Elements(customerIds) == set c | c in customerIds;
    hide Unambiguous;
    hide P.Current;
    hide StableSort;
    hide Sorted;
    hide KeySet;
    hide RowsIncrease;
    hide IsProjectedRow;
    RowsAgree(h, defs, customers, generationId, eventCutoff, k);
    ProjectionKeys(current, defs, customers, generationId, eventCutoff, k);
    KeysAreOrdered(P.ProjectedRows(current, defs, customers, generationId, eventCutoff, k).value, defs, customers);
  }

  /** The whole Spark table, row by row, is what `project_feature_rows` returns of the same arguments, in
      Spark's column types. */
  lemma SparkTableIsProjected(values: seq<FeatureValue>, h: set<PaymentEvent>, definitions: seq<FeatureDefinition>,
                              customerIds: seq<string>, generationId: string, eventCutoff: int, k: int)
    requires Accepted(definitions, h, customerIds, eventCutoff, k)
    requires (forall e | e in h :: e.Valid()) && (forall d | d in definitions :: d.Valid())
    requires IsFullTable(values, generationId, ByName(definitions), Normalized(h), InOrder(customerIds), eventCutoff, k)
    ensures
      var rows := P.Projection(definitions, h, customerIds, generationId, eventCutoff, k);
      && rows.Ok? && |rows.value| == |values|
      && forall i | 0 <= i < |values| ::
           && values[i].featureName in DefinitionByName(ByName(definitions))
           && values[i] == rows.value[i].(value := Typed(DefinitionByName(ByName(definitions))[values[i].featureName], rows.value[i].value))
  {
    hide P.Projection;
    hide P.Current;
    hide IsProjectedRow;
    hide OrderedKeys;
    hide RowFor;
    hide Typed;
    ProjectionIsOrdered(h, definitions, customerIds, generationId, eventCutoff, k);
    var rows := P.Projection(definitions, h, customerIds, generationId, eventCutoff, k).value;
    hide Unambiguous;
    hide ByName;
    forall i | 0 <= i < |values|
      ensures values[i].featureName in DefinitionByName(ByName(definitions))
      ensures values[i] == rows[i].(value := Typed(DefinitionByName(ByName(definitions))[values[i].featureName], rows[i].value))
    {
      assert KeyOf(rows[i]) == OrderedKeys(InOrder(customerIds), ByName(definitions))[i];
      assert rows[i] in rows;
      SparkRowIsProjected(h, definitions, generationId, eventCutoff, k, rows[i]);
      RowForKey(KeyOf(rows[i]), generationId, ByName(definitions), Normalized(h), eventCutoff, k);
    }
  }

  lemma RowForKey(key: Key, generationId: string, defs: seq<FeatureDefinition>, events: seq<PaymentEvent>, eventCutoff: int, k: int)
    requires key.1 in DefinitionByName(defs)
    ensures RowFor(key, generationId, defs, events, eventCutoff, k).featureName == key.1
  {
  }

  lemma SparkRowIsProjected(h: set<PaymentEvent>, definitions: seq<FeatureDefinition>, generationId: string, eventCutoff: int,
                            k: int, row: FeatureValue)
    requires Unambiguous(h) && GoodDefinitions(definitions)
    requires (forall e | e in h :: e.Valid()) && (forall d | d in definitions :: d.Valid())
    requires IsProjectedRow(row, P.Current(h, k), ByName(definitions), generationId, eventCutoff, k)
    ensures row.featureName in DefinitionByName(ByName(definitions))
    ensures RowFor(KeyOf(row), generationId, ByName(definitions), Normalized(h), eventCutoff, k)
         == row.(value := Typed(DefinitionByName(ByName(definitions))[row.featureName], row.value))
  {
    var defs := ByName(definitions);
    CanonicalInputsAreFixed(definitions, h);
    DistinctNamesCount(definitions);
    var d :| d in defs && IsProjectionOf(row, P.Current(h, k), d, generationId, eventCutoff, k);
    var named := DefinitionByName(defs)[row.featureName];
    NamesIdentify(defs, d, named);
    assert d in definitions;
    ValuesAgree(h, d, row.customerId, eventCutoff, k);
  }
}
