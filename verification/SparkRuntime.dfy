/** The Spark computation path of `src/featureforge/spark_runtime.py`: validation, the
    relational expressions, and the full rebuild. A frame is a sequence of rows whose order
    no aggregate depends on (see ValueIgnoresRowOrder). */
module SparkRuntime {
  import opened Ordering
  import opened Model
  import opened Temporal

  const ARTIFACT_CONTRACT := "spark-offline-generation-v1"
  const MAX_LOCAL_INPUT_ROWS := 1_000_000
  const MAX_LOCAL_OUTPUT_ROWS := 100_000

  datatype SparkError =
    | GenerationIdentity | NegativeCutoffs | NoDefinitions | DuplicateDefinition | UnsupportedComputation
    | OutputType | CustomerIdentities | AmbiguousHistory | InputLimit | OutputLimit
    | TargetPrecedesBase | PairFraction
    | UnsupportedContract | IdentityMismatch | RowCountMismatch | RowDigestMismatch | EventCutoffDiffers
    | UnboundRows | IncompatibleDefinitions | IncompatibleCustomers | IncompatibleKeyset

  datatype Manifest = Manifest(
    contract: string,
    generationId: string,
    eventCutoff: int,
    knowledgeCutoff: int,
    definitionSetDigest: Digest<seq<FeatureDefinition>>,
    sourceDigest: Digest<seq<PaymentEvent>>,
    customerDigest: Digest<seq<string>>,
    rowCount: nat,
    rowsDigest: Digest<seq<FeatureValue>>)

  datatype SparkBuild = SparkBuild(generationId: string, values: seq<FeatureValue>, manifest: Manifest)

  predicate IsAlphanumeric(c: char) {
    'A' <= c <= 'Z' || 'a' <= c <= 'z' || '0' <= c <= '9'
  }

  predicate ValidGenerationId(id: string) {
    1 <= |id| <= 128 && IsAlphanumeric(id[0])
    && forall i | 0 <= i < |id| :: IsAlphanumeric(id[i]) || id[i] in {'.', '_', '-'}
  }

  // ---- Input validation ----------------------------------------------------------------------

  predicate Supported(c: Computation) {
    !c.Unsupported?
  }

  function ComputationType(c: Computation): ValueType {
    match c
    case TransactionCount => IntegerType
    case SuccessfulSpendCents => IntegerType
    case _ => FloatType
  }

  ghost predicate DistinctNames(definitions: seq<FeatureDefinition>) {
    forall i, j | 0 <= i < j < |definitions| :: definitions[i].name != definitions[j].name
  }

  ghost predicate GoodDefinitions(definitions: seq<FeatureDefinition>) {
    && definitions != [] && DistinctNames(definitions)
    && forall d | d in definitions :: Supported(d.computation) && d.valueType == ComputationType(d.computation)
  }

  ghost predicate GoodCustomers(customers: seq<string>) {
    Distinct(customers) && "" !in customers
  }

  ghost predicate Accepted(definitions: seq<FeatureDefinition>, h: set<PaymentEvent>, customers: seq<string>,
                           eventCutoff: int, knowledgeCutoff: int)
  {
    && 0 <= eventCutoff && 0 <= knowledgeCutoff
    && GoodDefinitions(definitions) && GoodCustomers(customers) && Unambiguous(h)
    && |h| <= MAX_LOCAL_INPUT_ROWS && |customers| * |definitions| <= MAX_LOCAL_OUTPUT_ROWS
  }

  lemma NameOrder(definitions: seq<FeatureDefinition>)
    requires DistinctNames(definitions)
    ensures StrictOrderOn(Elements(definitions), NameLess)
  {
    forall a, b | a in definitions && b in definitions && a != b ensures NameLess(a, b) || NameLess(b, a) {
      StringLessConnected(a.name, b.name);
    }
    forall a, b | a in definitions && b in definitions ensures !(NameLess(a, b) && NameLess(b, a)) {
      StringLessAsymmetric(a.name, b.name);
    }
    forall a, b, c | a in definitions && b in definitions && c in definitions && NameLess(a, b) && NameLess(b, c)
      ensures NameLess(a, c)
    {
      StringLessTransitive(a.name, b.name, c.name);
    }
  }

  ghost function ByName(definitions: seq<FeatureDefinition>): seq<FeatureDefinition>
    requires DistinctNames(definitions)
  {
    NameOrder(definitions);
    Sorted(Elements(definitions), NameLess)
  }

  ghost function InOrder(customers: seq<string>): seq<string> {
    StringOrder(Elements(customers));
    Sorted(Elements(customers), StringLess)
  }

  method ValidateDefinitions(definitions: seq<FeatureDefinition>) returns (r: Result<(), SparkError>)
    ensures r.Ok? <==> GoodDefinitions(definitions)
  {
    if definitions == [] {
      return Err(NoDefinitions);
    }
    var identities: set<(string, int)> := {};
    var names: set<string> := {};
    for i := 0 to |definitions|
      invariant names == set j | 0 <= j < i :: definitions[j].name
      invariant forall id | id in identities :: id.0 in names
      invariant DistinctNames(definitions[..i])
      invariant forall j | 0 <= j < i ::
        Supported(definitions[j].computation) && definitions[j].valueType == ComputationType(definitions[j].computation)
    {
      var d := definitions[i];
      if (d.name, d.version) in identities || d.name in names {
        ghost var j :| 0 <= j < i && definitions[j].name == d.name;
        return Err(DuplicateDefinition);
      }
      if !Supported(d.computation) {
        return Err(UnsupportedComputation);
      }
      if d.valueType != ComputationType(d.computation) {
        return Err(OutputType);
      }
      identities := identities + {(d.name, d.version)};
      names := names + {d.name};
    }
    assert definitions[..|definitions|] == definitions;
    r := Ok(());
  }

  /** Accepts exactly the inputs of `Accepted`, and returns them in canonical order. */
  method ValidateInputs(definitions: seq<FeatureDefinition>, events: seq<PaymentEvent>, customerIds: seq<string>,
                        eventCutoff: int, knowledgeCutoff: int)
    returns (r: Result<(seq<FeatureDefinition>, seq<PaymentEvent>, seq<string>), SparkError>)
    ensures r.Ok? <==> Accepted(definitions, History(events), customerIds, eventCutoff, knowledgeCutoff)
    ensures r.Ok? ==> r.value == (ByName(definitions), Normalized(History(events)), InOrder(customerIds))
  {
    if eventCutoff < 0 || knowledgeCutoff < 0 {
      return Err(NegativeCutoffs);
    }
    var _ :- ValidateDefinitions(definitions);
    var distinct := Elements(customerIds);
    DistinctCount(customerIds);
    if |distinct| != |customerIds| || "" in distinct {
      return Err(CustomerIdentities);
    }
    var normalized := NormalizeEvents(events);
    if normalized.Err? {
      return Err(AmbiguousHistory);
    }
    RevisionOrder(History(events));
    if |normalized.value| > MAX_LOCAL_INPUT_ROWS {
      return Err(InputLimit);
    }
    if |distinct| * |definitions| > MAX_LOCAL_OUTPUT_ROWS {
      return Err(OutputLimit);
    }
    NameOrder(definitions);
    StringOrder(distinct);
    r := Ok((Sorted(Elements(definitions), NameLess), normalized.value, Sorted(distinct, StringLess)));
  }

  // ---- Relational expressions -----------------------------------------------------------------

  /** `row_number()` over the revisions of one event, latest first, is one. */
  predicate RankedFirst(events: seq<PaymentEvent>, e: PaymentEvent, cutoff: int) {
    e.knowledgeTime <= cutoff
    && forall f | f in events && f.knowledgeTime <= cutoff && f.eventId == e.eventId ::
         f == e || f.knowledgeTime < e.knowledgeTime
         || (f.knowledgeTime == e.knowledgeTime && StringLess(f.revisionId, e.revisionId))
  }

  function AuthoritativeEvents(events: seq<PaymentEvent>, cutoff: int): seq<PaymentEvent> {
    Filter(events, (e: PaymentEvent) => RankedFirst(events, e, cutoff) && e.operation.Upsert?)
  }

  predicate InWindow(d: FeatureDefinition, e: PaymentEvent, eventCutoff: int) {
    e.eventTime <= eventCutoff && (d.windowSeconds.Some? ==> e.eventTime > eventCutoff - d.windowSeconds.value)
  }

  /** The rows the left join gives one customer for one definition. */
  function Eligible(events: seq<PaymentEvent>, d: FeatureDefinition, customerId: string, eventCutoff: int, cutoff: int)
    : seq<PaymentEvent>
  {
    Filter(AuthoritativeEvents(events, cutoff),
           (e: PaymentEvent) => e.customerId == customerId && InWindow(d, e, eventCutoff))
  }

  /** `F.sum` over a nullable column: null when no row has a value. */
  function SumColumn(rows: seq<PaymentEvent>, column: PaymentEvent -> Option<int>): Option<int> {
    if rows == [] then None else Plus(column(rows[0]), SumColumn(rows[1..], column))
  }

  function Plus(a: Option<int>, b: Option<int>): Option<int> {
    if a.None? then b else if b.None? then a else Some(a.value + b.value)
  }

  /** `F.max` over a nullable column. */
  function MaxColumn(rows: seq<PaymentEvent>, column: PaymentEvent -> Option<real>): Option<real> {
    if rows == [] then None else Larger(column(rows[0]), MaxColumn(rows[1..], column))
  }

  function Larger(a: Option<real>, b: Option<real>): Option<real> {
    if a.None? then b else if b.None? then a else if a.value <= b.value then b else a
  }

  /** `F.lit(value).cast("double")` */
  function AsDouble(v: Value): Value {
    if v.Integer? then Float(v.i as real) else v
  }

  function Coalesce<T>(column: Option<T>, wrap: T -> Value, default: Value): Value {
    if column.Some? then wrap(column.value) else default
  }

  function PaidAmount(e: PaymentEvent): Option<int> {
    if e.status == Some(Succeeded) then e.amountCents else None
  }

  function FailureFlag(e: PaymentEvent): Option<int> {
    if e.status == Some(Failed) then Some(1) else Some(0)
  }

  function SuccessTime(e: PaymentEvent): Option<real> {
    if e.status == Some(Succeeded) then Some(e.eventTime as real) else None
  }

  function Aggregate(d: FeatureDefinition, rows: seq<PaymentEvent>, eventCutoff: int): Value {
    match d.computation
    case TransactionCount => Integer(|rows|)
    case SuccessfulSpendCents => Coalesce(SumColumn(rows, PaidAmount), (x: int) => Integer(x), d.emptyDefault)
    case FailedPaymentRatio =>
      var failures := SumColumn(rows, FailureFlag);
      if |rows| > 0 then Float((if failures.Some? then failures.value else 0) as real / |rows| as real)
      else AsDouble(d.emptyDefault)
    case HoursSinceSuccess =>
      Coalesce(MaxColumn(rows, SuccessTime), (x: real) => Float((eventCutoff as real - x) / 3600.0), AsDouble(d.emptyDefault))
    case _ => Coalesce(MaxColumn(rows, (e: PaymentEvent) => e.merchantRisk), (x: real) => Float(x), AsDouble(d.emptyDefault))
  }

  /** What Spark computes for one customer and definition at a knowledge frontier. */
  function ValueFor(events: seq<PaymentEvent>, d: FeatureDefinition, customerId: string, eventCutoff: int, cutoff: int): Value {
    Aggregate(d, Eligible(events, d, customerId, eventCutoff, cutoff), eventCutoff)
  }

  // ---- Rows do not depend on frame order -------------------------------------------------------

  lemma {:induction false} SumWithout(rows: seq<PaymentEvent>, j: nat, column: PaymentEvent -> Option<int>)
    requires j < |rows|
    ensures SumColumn(rows, column) == Plus(column(rows[j]), SumColumn(rows[..j] + rows[j + 1..], column))
  {
    if j > 0 {
      SumWithout(rows[1..], j - 1, column);
      assert (rows[..j] + rows[j + 1..])[1..] == rows[1..][..j - 1] + rows[1..][j..];
    } else {
      assert rows[..j] + rows[j + 1..] == rows[1..];
    }
  }

  lemma {:induction false} MaxWithout(rows: seq<PaymentEvent>, j: nat, column: PaymentEvent -> Option<real>)
    requires j < |rows|
    ensures MaxColumn(rows, column) == Larger(column(rows[j]), MaxColumn(rows[..j] + rows[j + 1..], column))
  {
    if j > 0 {
      MaxWithout(rows[1..], j - 1, column);
      assert (rows[..j] + rows[j + 1..])[1..] == rows[1..][..j - 1] + rows[1..][j..];
    } else {
      assert rows[..j] + rows[j + 1..] == rows[1..];
    }
  }

  lemma SameElementsWithout(a: seq<PaymentEvent>, b: seq<PaymentEvent>) returns (j: nat)
    requires a != [] && Distinct(a) && Distinct(b) && Elements(a) == Elements(b)
    ensures j < |b| && b[j] == a[0]
    ensures Distinct(a[1..]) && Distinct(b[..j] + b[j + 1..])
    ensures Elements(a[1..]) == Elements(b[..j] + b[j + 1..])
  {
    assert a[0] in Elements(a);
    j :| 0 <= j < |b| && b[j] == a[0];
    var rest := b[..j] + b[j + 1..];
    forall x ensures x in a[1..] <==> x in rest {
      if x in a[1..] {
        assert x in Elements(a) && x != a[0];
        var k :| 0 <= k < |b| && b[k] == x;
        assert rest[if k < j then k else k - 1] == x;
      }
      if x in rest {
        assert x in Elements(b) && x != b[j];
      }
    }
  }

  /** The aggregates see a set of rows: their order is immaterial. */
  lemma {:induction false} ColumnsIgnoreRowOrder(a: seq<PaymentEvent>, b: seq<PaymentEvent>,
                                                 sums: PaymentEvent -> Option<int>, maxima: PaymentEvent -> Option<real>)
    requires Distinct(a) && Distinct(b) && Elements(a) == Elements(b)
    ensures |a| == |b|
    ensures SumColumn(a, sums) == SumColumn(b, sums)
    ensures MaxColumn(a, maxima) == MaxColumn(b, maxima)
  {
    DistinctCount(a);
    DistinctCount(b);
    if a != [] {
      var j := SameElementsWithout(a, b);
      ColumnsIgnoreRowOrder(a[1..], b[..j] + b[j + 1..], sums, maxima);
      SumWithout(b, j, sums);
      MaxWithout(b, j, maxima);
    }
  }

  lemma ValueIgnoresRowOrder(d: FeatureDefinition, a: seq<PaymentEvent>, b: seq<PaymentEvent>, eventCutoff: int)
    requires Distinct(a) && Distinct(b) && Elements(a) == Elements(b)
    ensures Aggregate(d, a, eventCutoff) == Aggregate(d, b, eventCutoff)
  {
    ColumnsIgnoreRowOrder(a, b, PaidAmount, SuccessTime);
    ColumnsIgnoreRowOrder(a, b, FailureFlag, (e: PaymentEvent) => e.merchantRisk);
  }

  // ---- Full rebuild ------------------------------------------------------------------------------

  function KeySet(customers: seq<string>, definitions: seq<FeatureDefinition>): set<Key> {
    set c, d | c in customers && d in definitions :: (c, d.name)
  }

  /** `{definition.name: definition for definition in defs}` */
  function DefinitionByName(definitions: seq<FeatureDefinition>): (m: map<string, FeatureDefinition>)
    ensures forall d | d in definitions :: d.name in m
    ensures forall n | n in m :: m[n] in definitions && m[n].name == n
  {
    if definitions == [] then map[] else
      var last := |definitions| - 1;
      assert definitions == definitions[..last] + [definitions[last]];
      DefinitionByName(definitions[..last])[definitions[last].name := definitions[last]]
  }

  lemma KeyHasDefinition(customers: seq<string>, defs: seq<FeatureDefinition>, key: Key)
    requires key in KeySet(customers, defs)
    ensures key.1 in DefinitionByName(defs)
  {
  }

  /** The row a full rebuild at `cutoff` holds for one key. */
  function RowFor(key: Key, generationId: string, definitions: seq<FeatureDefinition>, events: seq<PaymentEvent>,
                  eventCutoff: int, cutoff: int): FeatureValue
    requires key.1 in DefinitionByName(definitions)
  {
    var d := DefinitionByName(definitions)[key.1];
    FeatureValue(key.0, key.1, ValueFor(events, d, key.0, eventCutoff, cutoff), eventCutoff, cutoff, d.definitionDigest, generationId)
  }

  ghost function OrderedKeys(customers: seq<string>, definitions: seq<FeatureDefinition>): seq<Key> {
    KeyOrder(KeySet(customers, definitions));
    Sorted(KeySet(customers, definitions), KeyLess)
  }

  /** `values` is the complete canonical table of one knowledge frontier. */
  ghost predicate IsFullTable(values: seq<FeatureValue>, generationId: string, definitions: seq<FeatureDefinition>,
                              events: seq<PaymentEvent>, customers: seq<string>, eventCutoff: int, cutoff: int)
  {
    var keys := OrderedKeys(customers, definitions);
    |values| == |keys|
    && forall i | 0 <= i < |keys| ::
         keys[i].1 in DefinitionByName(definitions)
         && values[i] == RowFor(keys[i], generationId, definitions, events, eventCutoff, cutoff)
  }

  function ManifestOf(generationId: string, definitions: seq<FeatureDefinition>, events: seq<PaymentEvent>,
                      customers: seq<string>, values: seq<FeatureValue>, eventCutoff: int, cutoff: int): Manifest
  {
    Manifest(ARTIFACT_CONTRACT, generationId, eventCutoff, cutoff, Digest(definitions), Digest(events),
             Digest(customers), |values|, Digest(values))
  }

  // ---- Joins and groups ----------------------------------------------------------------------------

  datatype JoinedRow = JoinedRow(customer: string, event: Option<PaymentEvent>)

  /** One customer's side of a left join: without a match it keeps one row, of nulls. */
  function Joined(customer: string, matches: seq<PaymentEvent>): seq<JoinedRow> {
    if matches == [] then [JoinedRow(customer, None)]
    else seq(|matches|, i requires 0 <= i < |matches| => JoinedRow(customer, Some(matches[i])))
  }

  /** `customers.join(authoritative, join_condition, "left")` */
  function LeftJoin(customers: seq<string>, events: seq<PaymentEvent>, d: FeatureDefinition, eventCutoff: int, cutoff: int): seq<JoinedRow> {
    if customers == [] then [] else
      var last := |customers| - 1;
      LeftJoin(customers[..last], events, d, eventCutoff, cutoff)
      + Joined(customers[last], Eligible(events, d, customers[last], eventCutoff, cutoff))
  }

  /** The events of one group. A row of nulls has none: it adds nothing to a count, a sum of amounts
      or a maximum, and the sum of failures is read only where the count is positive. */
  function GroupOf(rows: seq<JoinedRow>, customer: string): seq<PaymentEvent> {
    if rows == [] then [] else
      var last := |rows| - 1;
      GroupOf(rows[..last], customer)
      + if rows[last].customer == customer && rows[last].event.Some? then [rows[last].event.value] else []
  }

  function Groups(rows: seq<JoinedRow>): set<string> {
    set row | row in rows :: row.customer
  }

  lemma {:induction false} GroupOfBoth(a: seq<JoinedRow>, b: seq<JoinedRow>, customer: string)
    ensures GroupOf(a + b, customer) == GroupOf(a, customer) + GroupOf(b, customer)
  {
    if b == [] {
      assert a + b == a;
    } else {
      var last := |b| - 1;
      GroupOfBoth(a, b[..last], customer);
      assert (a + b)[..|a + b| - 1] == a + b[..last];
    }
  }

  lemma JoinedPrefix(customer: string, matches: seq<PaymentEvent>)
    requires |matches| > 1
    ensures Joined(customer, matches)[..|matches| - 1] == Joined(customer, matches[..|matches| - 1])
    ensures |Joined(customer, matches)| == |matches|
    ensures Joined(customer, matches)[|matches| - 1] == JoinedRow(customer, Some(matches[|matches| - 1]))
  {
  }

  lemma OneRowGroup(row: JoinedRow, customer: string)
    ensures GroupOf([row], customer) == if row.customer == customer && row.event.Some? then [row.event.value] else []
  {
    assert [row][..0] == [];
    assert GroupOf([], customer) == [];
  }

  lemma {:induction false} GroupOfJoined(customer: string, matches: seq<PaymentEvent>, other: string)
    ensures GroupOf(Joined(customer, matches), other) == if other == customer then matches else []
    decreases |matches|
  {
    if |matches| <= 1 {
      OneRowGroup(Joined(customer, matches)[0], other);
      assert Joined(customer, matches) == [Joined(customer, matches)[0]];
    } else {
      hide Joined;
      JoinedPrefix(customer, matches);
      GroupOfJoined(customer, matches[..|matches| - 1], other);
      assert matches == matches[..|matches| - 1] + [matches[|matches| - 1]];
    }
  }

  lemma OneGroup(customer: string, matches: seq<PaymentEvent>)
    ensures Groups(Joined(customer, matches)) == {customer}
  {
    var rows := Joined(customer, matches);
    assert rows[0].customer == customer && rows[0] in rows;
    assert forall row | row in rows :: row.customer == customer;
  }

  lemma GroupsOfBoth(a: seq<JoinedRow>, b: seq<JoinedRow>)
    ensures Groups(a + b) == Groups(a) + Groups(b)
  {
    assert forall row :: row in a + b <==> row in a || row in b;
  }

  /** The join has exactly the customers as groups. */
  lemma {:induction false} JoinGroups(customers: seq<string>, events: seq<PaymentEvent>, d: FeatureDefinition, eventCutoff: int, cutoff: int)
    ensures Groups(LeftJoin(customers, events, d, eventCutoff, cutoff)) == Elements(customers)
  {
    hide Eligible;
    hide Joined;
    if customers != [] {
      var last := |customers| - 1;
      var matches := Eligible(events, d, customers[last], eventCutoff, cutoff);
      JoinGroups(customers[..last], events, d, eventCutoff, cutoff);
      OneGroup(customers[last], matches);
      GroupsOfBoth(LeftJoin(customers[..last], events, d, eventCutoff, cutoff), Joined(customers[last], matches));
      LastElement(customers);
    }
  }

  lemma LastElement(s: seq<string>)
    requires s != []
    ensures Elements(s) == Elements(s[..|s| - 1]) + {s[|s| - 1]}
  {
    assert s == s[..|s| - 1] + [s[|s| - 1]];
  }

  /** Each group of the join holds the customer's eligible events. */
  lemma {:induction false} JoinGroupOf(customers: seq<string>, events: seq<PaymentEvent>, d: FeatureDefinition, eventCutoff: int, cutoff: int,
                                       customer: string)
    requires Distinct(customers)
    ensures GroupOf(LeftJoin(customers, events, d, eventCutoff, cutoff), customer)
         == if customer in customers then Eligible(events, d, customer, eventCutoff, cutoff) else []
  {
    hide Eligible;
    hide Joined;
    hide GroupOf;
    if customers == [] {
      EmptyGroup(customer);
    } else {
      var last := |customers| - 1;
      var matches := Eligible(events, d, customers[last], eventCutoff, cutoff);
      JoinGroupOf(customers[..last], events, d, eventCutoff, cutoff, customer);
      GroupOfJoined(customers[last], matches, customer);
      GroupOfBoth(LeftJoin(customers[..last], events, d, eventCutoff, cutoff), Joined(customers[last], matches), customer);
      assert customers == customers[..last] + [customers[last]];
    }
  }

  lemma EmptyGroup(customer: string)
    ensures GroupOf([], customer) == []
  {
  }

  /** A row of the frame, before it is declared as a feature value of a generation. */
  datatype ComputedRow = ComputedRow(customer: string, feature: string, value: Value, definitionDigest: string)
  {
    function RowKey(): Key {
      (customer, feature)
    }

    function Declared(generationId: string, eventCutoff: int, cutoff: int): FeatureValue {
      FeatureValue(customer, feature, value, eventCutoff, cutoff, definitionDigest, generationId)
    }
  }

  predicate ComputedLess(a: ComputedRow, b: ComputedRow) {
    KeyLess(a.RowKey(), b.RowKey())
  }

  function RowOf(d: FeatureDefinition, customer: string, events: seq<PaymentEvent>, eventCutoff: int, cutoff: int): ComputedRow {
    ComputedRow(customer, d.name, ValueFor(events, d, customer, eventCutoff, cutoff), d.definitionDigest)
  }

  /** One row for each of `customers`, in any order, and no other. */
  ghost predicate AreGroupRows(rows: seq<ComputedRow>, d: FeatureDefinition, customers: set<string>, events: seq<PaymentEvent>, eventCutoff: int, cutoff: int) {
    && |rows| == |customers|
    && (forall r | r in rows :: r.customer in customers && r == RowOf(d, r.customer, events, eventCutoff, cutoff))
    && (forall c | c in customers :: RowOf(d, c, events, eventCutoff, cutoff) in rows)
  }

  /** `grouped.agg(...)`: one row a group. Spark promises no order of groups, and none is assumed. */
  method GroupRows(d: FeatureDefinition, customers: seq<string>, events: seq<PaymentEvent>, eventCutoff: int, cutoff: int) returns (rows: seq<ComputedRow>)
    requires Distinct(customers)
    ensures AreGroupRows(rows, d, Elements(customers), events, eventCutoff, cutoff)
  {
    hide ValueFor;
    hide Aggregate;
    hide GroupOf;
    hide LeftJoin;
    hide AreGroupRows;
    var joined := LeftJoin(customers, events, d, eventCutoff, cutoff);
    JoinGroups(customers, events, d, eventCutoff, cutoff);
    var remaining := Groups(joined);
    rows := [];
    NoGroupRows(d, events, eventCutoff, cutoff);
    assert Elements(customers) - remaining == {};
    while remaining != {}
      invariant remaining <= Elements(customers)
      invariant AreGroupRows(rows, d, Elements(customers) - remaining, events, eventCutoff, cutoff)
      decreases |remaining|
    {
      var c :| c in remaining;
      GroupGivesValue(d, customers, events, eventCutoff, cutoff, c);
      NextGroupRow(rows, d, Elements(customers) - remaining, c, events, eventCutoff, cutoff);
      assert Elements(customers) - (remaining - {c}) == Elements(customers) - remaining + {c};
      rows := rows + [ComputedRow(c, d.name, Aggregate(d, GroupOf(joined, c), eventCutoff), d.definitionDigest)];
      remaining := remaining - {c};
    }
    assert Elements(customers) - remaining == Elements(customers);
  }

  lemma NoGroupRows(d: FeatureDefinition, events: seq<PaymentEvent>, eventCutoff: int, cutoff: int)
    ensures AreGroupRows([], d, {}, events, eventCutoff, cutoff)
  {
  }

  lemma NextGroupRow(rows: seq<ComputedRow>, d: FeatureDefinition, done: set<string>, c: string, events: seq<PaymentEvent>, eventCutoff: int, cutoff: int)
    requires AreGroupRows(rows, d, done, events, eventCutoff, cutoff) && c !in done
    ensures AreGroupRows(rows + [RowOf(d, c, events, eventCutoff, cutoff)], d, done + {c}, events, eventCutoff, cutoff)
  {
    hide ValueFor;
  }

  lemma GroupGivesValue(d: FeatureDefinition, customers: seq<string>, events: seq<PaymentEvent>, eventCutoff: int, cutoff: int, c: string)
    requires Distinct(customers) && c in customers
    ensures ValueFor(events, d, c, eventCutoff, cutoff)
         == Aggregate(d, GroupOf(LeftJoin(customers, events, d, eventCutoff, cutoff), c), eventCutoff)
  {
    hide Aggregate;
    JoinGroupOf(customers, events, d, eventCutoff, cutoff, c);
  }

  /** The union of all definitions' rows: one row for each customer and definition, in any order. */
  ghost predicate IsFrame(frame: seq<ComputedRow>, defs: seq<FeatureDefinition>, customers: seq<string>, events: seq<PaymentEvent>,
                          eventCutoff: int, cutoff: int)
  {
    && (forall i, j | 0 <= i < j < |frame| :: frame[i].RowKey() != frame[j].RowKey())
    && (forall r | r in frame :: IsComputed(r, defs, customers, events, eventCutoff, cutoff))
    && (forall c, d | c in customers && d in defs :: RowOf(d, c, events, eventCutoff, cutoff) in frame)
  }

  ghost predicate IsComputed(r: ComputedRow, defs: seq<FeatureDefinition>, customers: seq<string>, events: seq<PaymentEvent>,
                             eventCutoff: int, cutoff: int)
  {
    r.customer in customers && exists d :: d in defs && r == RowOf(d, r.customer, events, eventCutoff, cutoff)
  }

  method ComputedRows(defs: seq<FeatureDefinition>, customers: seq<string>, events: seq<PaymentEvent>, eventCutoff: int, cutoff: int)
    returns (frame: seq<ComputedRow>)
    requires Distinct(customers) && DistinctNames(defs)
    ensures IsFrame(frame, defs, customers, events, eventCutoff, cutoff)
  {
    hide IsFrame;
    hide AreGroupRows;
    frame := [];
    NoFrame(customers, events, eventCutoff, cutoff);
    for n := 0 to |defs|
      invariant IsFrame(frame, defs[..n], customers, events, eventCutoff, cutoff)
    {
      var rows := GroupRows(defs[n], customers, events, eventCutoff, cutoff);
      NextFrame(frame, rows, defs, n, customers, events, eventCutoff, cutoff);
      frame := frame + rows;
    }
    assert defs[..|defs|] == defs;
  }

  lemma NoFrame(customers: seq<string>, events: seq<PaymentEvent>, eventCutoff: int, cutoff: int)
    ensures IsFrame([], [], customers, events, eventCutoff, cutoff)
  {
  }

  lemma GroupRowsAreDistinct(rows: seq<ComputedRow>, d: FeatureDefinition, customers: set<string>, events: seq<PaymentEvent>, eventCutoff: int, cutoff: int)
    requires AreGroupRows(rows, d, customers, events, eventCutoff, cutoff)
    ensures forall i, j | 0 <= i < j < |rows| :: rows[i].RowKey() != rows[j].RowKey()
  {
    hide RowOf;
    var names := seq(|rows|, i requires 0 <= i < |rows| => rows[i].customer);
    assert Elements(names) == customers by {
      forall c | c in customers ensures c in names {
        var i :| 0 <= i < |rows| && rows[i] == RowOf(d, c, events, eventCutoff, cutoff);
        RowOfCustomer(d, c, events, eventCutoff, cutoff);
        assert names[i] == c;
      }
      forall c | c in names ensures c in customers {
        var i :| 0 <= i < |names| && names[i] == c;
        assert rows[i] in rows;
      }
    }
    DistinctCount(names);
    forall i, j | 0 <= i < j < |rows| ensures rows[i].RowKey() != rows[j].RowKey() {
      assert names[i] != names[j];
    }
  }

  lemma RowOfCustomer(d: FeatureDefinition, c: string, events: seq<PaymentEvent>, eventCutoff: int, cutoff: int)
    ensures RowOf(d, c, events, eventCutoff, cutoff).customer == c && RowOf(d, c, events, eventCutoff, cutoff).feature == d.name
  {
  }

  lemma RowsOfBoth(frame: seq<ComputedRow>, rows: seq<ComputedRow>, name: string)
    requires forall i, j | 0 <= i < j < |frame| :: frame[i].RowKey() != frame[j].RowKey()
    requires forall i, j | 0 <= i < j < |rows| :: rows[i].RowKey() != rows[j].RowKey()
    requires (forall r | r in frame :: r.feature != name) && forall r | r in rows :: r.feature == name
    ensures forall i, j | 0 <= i < j < |frame + rows| :: (frame + rows)[i].RowKey() != (frame + rows)[j].RowKey()
  {
    forall i, j | 0 <= i < j < |frame + rows| ensures (frame + rows)[i].RowKey() != (frame + rows)[j].RowKey() {
      if i < |frame| <= j {
        assert frame[i] in frame && rows[j - |frame|] in rows;
      }
    }
  }

  lemma ComputedStays(r: ComputedRow, defs: seq<FeatureDefinition>, n: nat, customers: seq<string>, events: seq<PaymentEvent>,
                      eventCutoff: int, cutoff: int)
    requires n < |defs| && DistinctNames(defs) && IsComputed(r, defs[..n], customers, events, eventCutoff, cutoff)
    ensures r.feature != defs[n].name && IsComputed(r, defs[..n + 1], customers, events, eventCutoff, cutoff)
  {
    hide ValueFor;
    var e :| e in defs[..n] && r == RowOf(e, r.customer, events, eventCutoff, cutoff);
    assert e in defs[..n + 1];
  }

  lemma ComputedNext(r: ComputedRow, defs: seq<FeatureDefinition>, n: nat, customers: seq<string>, events: seq<PaymentEvent>,
                     eventCutoff: int, cutoff: int)
    requires n < |defs| && r.customer in customers && r == RowOf(defs[n], r.customer, events, eventCutoff, cutoff)
    ensures r.feature == defs[n].name && IsComputed(r, defs[..n + 1], customers, events, eventCutoff, cutoff)
  {
    hide ValueFor;
    assert defs[n] in defs[..n + 1];
  }

  lemma NextFrame(frame: seq<ComputedRow>, rows: seq<ComputedRow>, defs: seq<FeatureDefinition>, n: nat, customers: seq<string>,
                  events: seq<PaymentEvent>, eventCutoff: int, cutoff: int)
    requires n < |defs| && DistinctNames(defs) && IsFrame(frame, defs[..n], customers, events, eventCutoff, cutoff)
    requires AreGroupRows(rows, defs[n], Elements(customers), events, eventCutoff, cutoff)
    ensures IsFrame(frame + rows, defs[..n + 1], customers, events, eventCutoff, cutoff)
  {
    hide RowOf;
    hide IsComputed;
    GroupRowsAreDistinct(rows, defs[n], Elements(customers), events, eventCutoff, cutoff);
    hide DistinctNames;
    forall r | r in rows ensures r.feature == defs[n].name && IsComputed(r, defs[..n + 1], customers, events, eventCutoff, cutoff) {
      ComputedNext(r, defs, n, customers, events, eventCutoff, cutoff);
    }
    forall r | r in frame ensures r.feature != defs[n].name && IsComputed(r, defs[..n + 1], customers, events, eventCutoff, cutoff) {
      ComputedStays(r, defs, n, customers, events, eventCutoff, cutoff);
    }
    RowsOfBoth(frame, rows, defs[n].name);
    forall c, d | c in customers && d in defs[..n + 1] ensures RowOf(d, c, events, eventCutoff, cutoff) in frame + rows {
      assert defs[..n + 1] == defs[..n] + [defs[n]];
      if d == defs[n] {
        assert RowOf(d, c, events, eventCutoff, cutoff) in rows;
      } else {
        assert d in defs[..n];
      }
    }
  }

  function FrameKeys(frame: seq<ComputedRow>): seq<Key> {
    seq(|frame|, i requires 0 <= i < |frame| => frame[i].RowKey())
  }

  function DeclaredRows(frame: seq<ComputedRow>, generationId: string, eventCutoff: int, cutoff: int): seq<FeatureValue> {
    seq(|frame|, i requires 0 <= i < |frame| => frame[i].Declared(generationId, eventCutoff, cutoff))
  }

  /** Ordered by key, the frame lists the keys of the table, each row that of its key. */
  lemma OrderedFrame(frame: seq<ComputedRow>, collected: seq<ComputedRow>, generationId: string, defs: seq<FeatureDefinition>,
                     customers: seq<string>, events: seq<PaymentEvent>, eventCutoff: int, cutoff: int)
    requires DistinctNames(defs) && IsFrame(frame, defs, customers, events, eventCutoff, cutoff)
    requires Increasing(collected, ComputedLess) && forall r :: r in collected <==> r in frame
    ensures IsFullTable(DeclaredRows(collected, generationId, eventCutoff, cutoff), generationId, defs, events, customers, eventCutoff, cutoff)
  {
    var keys := FrameKeys(collected);
    forall i | 0 <= i < |collected|
      ensures keys[i] in KeySet(customers, defs) && keys[i].1 in DefinitionByName(defs)
      ensures collected[i].Declared(generationId, eventCutoff, cutoff) == RowFor(keys[i], generationId, defs, events, eventCutoff, cutoff)
    {
      assert collected[i] in frame;
      ComputedIsRowFor(collected[i], generationId, defs, customers, events, eventCutoff, cutoff);
    }
    forall key ensures key in keys <==> key in KeySet(customers, defs) {
      if key in KeySet(customers, defs) {
        var c, d :| c in customers && d in defs && key == (c, d.name);
        var r := RowOf(d, c, events, eventCutoff, cutoff);
        assert r in collected;
        var i :| 0 <= i < |collected| && collected[i] == r;
        assert keys[i] == key;
      }
    }
    KeyOrder(KeySet(customers, defs));
    SortedIsUnique(keys, KeySet(customers, defs), KeyLess);
  }

  lemma ComputedIsRowFor(r: ComputedRow, generationId: string, defs: seq<FeatureDefinition>, customers: seq<string>, events: seq<PaymentEvent>,
                         eventCutoff: int, cutoff: int)
    requires DistinctNames(defs) && IsComputed(r, defs, customers, events, eventCutoff, cutoff)
    ensures r.RowKey() in KeySet(customers, defs) && r.RowKey().1 in DefinitionByName(defs)
    ensures r.Declared(generationId, eventCutoff, cutoff) == RowFor(r.RowKey(), generationId, defs, events, eventCutoff, cutoff)
  {
    hide ValueFor;
    var d :| d in defs && r == RowOf(d, r.customer, events, eventCutoff, cutoff);
    var named := DefinitionByName(defs)[d.name];
    NamesIdentify(defs, d, named);
  }

  lemma NamesIdentify(defs: seq<FeatureDefinition>, d: FeatureDefinition, e: FeatureDefinition)
    requires DistinctNames(defs) && d in defs && e in defs && d.name == e.name
    ensures d == e
  {
    var i :| 0 <= i < |defs| && defs[i] == d;
    var j :| 0 <= j < |defs| && defs[j] == e;
    assert defs[i].name == defs[j].name;
  }

  method FullRebuild(generationId: string, definitions: seq<FeatureDefinition>, events: seq<PaymentEvent>,
                     customerIds: seq<string>, eventCutoff: int, knowledgeCutoff: int)
    returns (r: Result<SparkBuild, SparkError>)
    ensures r.Ok? <==>
      && ValidGenerationId(generationId)
      && Accepted(definitions, History(events), customerIds, eventCutoff, knowledgeCutoff)
    ensures r.Ok? ==>
      var defs, normalized, customers := ByName(definitions), Normalized(History(events)), InOrder(customerIds);
      && IsFullTable(r.value.values, generationId, defs, normalized, customers, eventCutoff, knowledgeCutoff)
      && r.value == SparkBuild(generationId, r.value.values,
                               ManifestOf(generationId, defs, normalized, customers, r.value.values, eventCutoff, knowledgeCutoff))
  {
    hide IsFullTable;
    hide Accepted;
    hide StableSort;
    hide IsFrame;
    hide Unambiguous;
    if !ValidGenerationId(generationId) {
      return Err(GenerationIdentity);
    }
    var inputs :- ValidateInputs(definitions, events, customerIds, eventCutoff, knowledgeCutoff);
    var (defs, normalized, customers) := inputs;
    AcceptedIsDistinct(definitions, History(events), customerIds, eventCutoff, knowledgeCutoff);
    CanonicalInputsAreDistinct(definitions, customerIds);
    var frame := ComputedRows(defs, customers, normalized, eventCutoff, knowledgeCutoff);
    SortFrame(frame, defs, customers, normalized, eventCutoff, knowledgeCutoff);
    var collected := StableSort(frame, ComputedLess);
    OrderedFrame(frame, collected, generationId, defs, customers, normalized, eventCutoff, knowledgeCutoff);
    var values: seq<FeatureValue> := [];
    for i := 0 to |collected|
      invariant |values| == i
      invariant forall j | 0 <= j < i :: values[j] == collected[j].Declared(generationId, eventCutoff, knowledgeCutoff)
    {
      values := values + [collected[i].Declared(generationId, eventCutoff, knowledgeCutoff)];
    }
    assert values == DeclaredRows(collected, generationId, eventCutoff, knowledgeCutoff);
    r := Ok(SparkBuild(generationId, values,
                       ManifestOf(generationId, defs, normalized, customers, values, eventCutoff, knowledgeCutoff)));
  }

  lemma AcceptedIsDistinct(definitions: seq<FeatureDefinition>, h: set<PaymentEvent>, customers: seq<string>, eventCutoff: int, cutoff: int)
    requires Accepted(definitions, h, customers, eventCutoff, cutoff)
    ensures DistinctNames(definitions) && Unambiguous(h)
  {
  }

  lemma CanonicalInputsAreDistinct(definitions: seq<FeatureDefinition>, customerIds: seq<string>)
    requires DistinctNames(definitions)
    ensures DistinctNames(ByName(definitions)) && Distinct(InOrder(customerIds))
  {
    NameOrder(definitions);
    StringOrder(Elements(customerIds));
    DistinctCount(InOrder(customerIds));
    assert Elements(InOrder(customerIds)) == Elements(customerIds);
    var defs := ByName(definitions);
    forall i, j | 0 <= i < j < |defs| ensures defs[i].name != defs[j].name {
      assert NameLess(defs[i], defs[j]);
      StringLessAsymmetric(defs[i].name, defs[j].name);
    }
  }

  lemma SortFrame(frame: seq<ComputedRow>, defs: seq<FeatureDefinition>, customers: seq<string>, events: seq<PaymentEvent>, eventCutoff: int, cutoff: int)
    requires IsFrame(frame, defs, customers, events, eventCutoff, cutoff)
    ensures Increasing(StableSort(frame, ComputedLess), ComputedLess)
    ensures forall r :: r in StableSort(frame, ComputedLess) <==> r in frame
  {
    SortByKey(frame, (r: ComputedRow) => r.RowKey(), ComputedLess);
  }
}
