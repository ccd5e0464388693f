/** Parity decisions: `compare_online_records` of `src/featureforge/expected.py`. */
module Comparison {
  import opened Ordering
  import opened Model
  import opened OnlinePlan

  datatype Reason = Missing | Extra | SemanticMismatch | EnvelopeMismatch | Ineligible | AggregateMismatch

  datatype CompareError = DuplicateKeys | UnknownKeys

  datatype Report = Report(
    missing: seq<Key>,
    extra: seq<Key>,
    semantic: seq<Key>,
    envelope: seq<Key>,
    ineligible: seq<Key>,
    aggregateMismatch: bool,
    reasons: set<Reason>,
    passed: bool)

  type Table = map<Key, OnlineRecord>

  ghost predicate DistinctEntities(rows: seq<OnlineRecord>) {
    forall i, j | 0 <= i < j < |rows| :: rows[i].EntityKey() != rows[j].EntityKey()
  }

  function KeysOf(rows: seq<OnlineRecord>): set<Key> {
    set r | r in rows :: r.EntityKey()
  }

  /** The later of two rows with one key wins. */
  function TableOf(rows: seq<OnlineRecord>): (m: Table)
    ensures m.Keys == KeysOf(rows)
  {
    if rows == [] then map[] else
      var last := |rows| - 1;
      assert rows == rows[..last] + [rows[last]];
      TableOf(rows[..last])[rows[last].EntityKey() := rows[last]]
  }

  lemma EntitiesCollide(rows: seq<OnlineRecord>)
    ensures |TableOf(rows)| == |rows| <==> DistinctEntities(rows)
  {
    hide TableOf;
    var keys := seq(|rows|, i requires 0 <= i < |rows| => rows[i].EntityKey());
    assert forall i | 0 <= i < |rows| :: keys[i] == rows[i].EntityKey();
    assert TableOf(rows).Keys == Elements(keys);
    assert |TableOf(rows)| == |TableOf(rows).Keys|;
    hide KeysOf;
    hide Elements;
    DistinctCount(keys);
  }

  /** The fields a served value means anything by. */
  predicate SameMeaning(a: OnlineRecord, b: OnlineRecord) {
    && a.customerId == b.customerId && a.featureName == b.featureName && a.value == b.value
    && a.definitionDigest == b.definitionDigest && a.eventCutoff == b.eventCutoff && a.knowledgeCutoff == b.knowledgeCutoff
    && a.generationId == b.generationId && a.envelope.sourceDigest == b.envelope.sourceDigest && a.expiresAt == b.expiresAt
  }

  /** Neither expired nor, given a maximum age, stale at the request time. */
  predicate EligibleAt(r: OnlineRecord, requestTime: Option<int>, maximumAge: Option<int>) {
    requestTime.Some? ==>
      && requestTime.value < r.expiresAt
      && (maximumAge.Some? ==> requestTime.value - r.knowledgeCutoff <= maximumAge.value)
  }

  /** What a passing report certifies, for the keys selected. */
  ghost predicate Certified(expected: seq<OnlineRecord>, actual: seq<OnlineRecord>, selected: set<Key>,
                            requestTime: Option<int>, maximumAge: Option<int>)
  {
    && expected == actual
    && forall r | r in actual && r.EntityKey() in selected :: EligibleAt(r, requestTime, maximumAge)
  }

  function Selection(expected: seq<OnlineRecord>, actual: seq<OnlineRecord>, sample: Option<seq<Key>>): set<Key> {
    if sample.None? then KeysOf(expected) + KeysOf(actual) else Elements(sample.value)
  }

  /** The comparison is defined: neither side repeats a key, and a sample names known ones. */
  ghost predicate Comparable(expected: seq<OnlineRecord>, actual: seq<OnlineRecord>, sample: Option<seq<Key>>) {
    && DistinctEntities(expected) && DistinctEntities(actual)
    && Selection(expected, actual, sample) <= KeysOf(expected) + KeysOf(actual)
  }

  /** Exactly the selected keys that only one side has, in key order. */
  ghost predicate MembershipIsTrue(report: Report, expected: seq<OnlineRecord>, actual: seq<OnlineRecord>, selected: set<Key>) {
    && (forall k :: k in report.missing <==> k in selected && k in KeysOf(expected) && k !in KeysOf(actual))
    && (forall k :: k in report.extra <==> k in selected && k in KeysOf(actual) && k !in KeysOf(expected))
    && Increasing(report.missing, KeyLess) && Increasing(report.extra, KeyLess)
  }

  /** The lists of the selected keys that both sides have say what is true of their two records. */
  ghost predicate PairIsTrue(report: Report, e: OnlineRecord, a: OnlineRecord, requestTime: Option<int>, maximumAge: Option<int>) {
    && (e.EntityKey() in report.semantic <==> !SameMeaning(e, a))
    && (e.EntityKey() in report.envelope <==> e != a)
    && (e.EntityKey() in report.ineligible <==> !EligibleAt(a, requestTime, maximumAge))
  }

  ghost predicate PairsAreTrue(report: Report, expected: seq<OnlineRecord>, actual: seq<OnlineRecord>, selected: set<Key>,
                               requestTime: Option<int>, maximumAge: Option<int>)
  {
    && (forall e, a {:trigger PairIsTrue(report, e, a, requestTime, maximumAge)}
          | e in expected && a in actual && e.EntityKey() == a.EntityKey() && e.EntityKey() in selected ::
          PairIsTrue(report, e, a, requestTime, maximumAge))
    && (forall k | k in report.semantic || k in report.envelope || k in report.ineligible ::
          k in selected && k in KeysOf(expected) && k in KeysOf(actual))
    && Increasing(report.semantic, KeyLess) && Increasing(report.envelope, KeyLess) && Increasing(report.ineligible, KeyLess)
  }

  /** Each reason is given exactly when its list is not empty, and only no reason passes. */
  ghost predicate ReasonsAreTrue(report: Report) {
    && (Missing in report.reasons <==> report.missing != [])
    && (Extra in report.reasons <==> report.extra != [])
    && (SemanticMismatch in report.reasons <==> report.semantic != [])
    && (EnvelopeMismatch in report.reasons <==> report.envelope != [])
    && (Ineligible in report.reasons <==> report.ineligible != [])
    && (AggregateMismatch in report.reasons <==> report.aggregateMismatch)
    && (report.passed <==> report.reasons == {})
  }

  /** What the comparison reports of the selected keys. */
  ghost predicate IsReport(report: Report, expected: seq<OnlineRecord>, actual: seq<OnlineRecord>, selected: set<Key>,
                           requestTime: Option<int>, maximumAge: Option<int>)
  {
    && MembershipIsTrue(report, expected, actual, selected)
    && PairsAreTrue(report, expected, actual, selected, requestTime, maximumAge)
    && (report.aggregateMismatch <==> expected != actual)
    && ReasonsAreTrue(report)
  }

  function InKeyOrder(keys: set<Key>): (r: seq<Key>)
    ensures forall k :: k in r <==> k in keys
    ensures |r| == |keys| && Increasing(r, KeyLess)
  {
    KeyOrder(keys);
    Sorted(keys, KeyLess)
  }

  lemma AppendsInOrder(keys: seq<Key>, i: nat, found: seq<Key>)
    requires i < |keys| && Increasing(keys, KeyLess) && Increasing(found, KeyLess)
    requires forall k | k in found :: k in keys[..i]
    ensures Increasing(found + [keys[i]], KeyLess)
  {
    forall j | 0 <= j < |found| ensures KeyLess(found[j], keys[i]) {
      assert found[j] in keys[..i];
    }
  }

  /** The rows both sides have, compared key by key. */
  method CompareCommon(wanted: Table, observed: Table, common: seq<Key>, requestTime: Option<int>, maximumAge: Option<int>)
    returns (semantic: seq<Key>, envelope: seq<Key>, ineligible: seq<Key>)
    requires forall k | k in common :: k in wanted && k in observed
    requires Increasing(common, KeyLess)
    ensures Increasing(semantic, KeyLess) && Increasing(envelope, KeyLess) && Increasing(ineligible, KeyLess)
    ensures forall k :: k in semantic <==> k in common && !SameMeaning(wanted[k], observed[k])
    ensures forall k :: k in envelope <==> k in common && wanted[k] != observed[k]
    ensures forall k :: k in ineligible <==> k in common && !EligibleAt(observed[k], requestTime, maximumAge)
  {
    hide SameMeaning;
    semantic, envelope, ineligible := [], [], [];
    for i := 0 to |common|
      invariant Increasing(semantic, KeyLess) && Increasing(envelope, KeyLess) && Increasing(ineligible, KeyLess)
      invariant forall k :: k in semantic <==> k in common[..i] && !SameMeaning(wanted[k], observed[k])
      invariant forall k :: k in envelope <==> k in common[..i] && wanted[k] != observed[k]
      invariant forall k :: k in ineligible <==> k in common[..i] && !EligibleAt(observed[k], requestTime, maximumAge)
    {
      var key := common[i];
      assert common[..i + 1] == common[..i] + [key];
      AppendsInOrder(common, i, semantic);
      AppendsInOrder(common, i, envelope);
      AppendsInOrder(common, i, ineligible);
      if !SameMeaning(wanted[key], observed[key]) { semantic := semantic + [key]; }
      if wanted[key] != observed[key] { envelope := envelope + [key]; }
      if requestTime.Some? {
        if requestTime.value >= observed[key].expiresAt {
          ineligible := ineligible + [key];
        } else if maximumAge.Some? && requestTime.value - observed[key].knowledgeCutoff > maximumAge.value {
          ineligible := ineligible + [key];
        }
      }
    }
    assert common[..|common|] == common;
  }

  lemma {:induction false} TableHolds(rows: seq<OnlineRecord>, k: Key)
    requires DistinctEntities(rows)
    ensures k in TableOf(rows) <==> exists r :: r in rows && r.EntityKey() == k
    ensures k in TableOf(rows) ==> TableOf(rows)[k] in rows && TableOf(rows)[k].EntityKey() == k
    ensures forall r | r in rows && r.EntityKey() == k :: k in TableOf(rows) && TableOf(rows)[k] == r
  {
    if rows != [] {
      var last := |rows| - 1;
      assert rows == rows[..last] + [rows[last]];
      TableHolds(rows[..last], k);
      forall r | r in rows && r.EntityKey() == k ensures k in TableOf(rows) && TableOf(rows)[k] == r {
        var i :| 0 <= i < |rows| && rows[i] == r;
      }
    }
  }

  /** The comparison is defined exactly on distinctly keyed inputs and known sample keys. Its lists
      and reasons are exactly the true ones, and it passes exactly when the two sequences are equal
      and no selected record is ineligible. */
  method CompareOnlineRecords(expected: seq<OnlineRecord>, actual: seq<OnlineRecord>, sample: Option<seq<Key>>,
                              requestTime: Option<int>, maximumAge: Option<int>)
    returns (r: Result<Report, CompareError>)
    ensures r.Ok? <==> Comparable(expected, actual, sample)
    ensures r.Ok? ==> IsReport(r.value, expected, actual, Selection(expected, actual, sample), requestTime, maximumAge)
    ensures r.Ok? ==> (r.value.passed <==> Certified(expected, actual, Selection(expected, actual, sample), requestTime, maximumAge))
  {
    hide IsReport;
    hide Certified;
    var wanted, observed := TableOf(expected), TableOf(actual);
    EntitiesCollide(expected);
    EntitiesCollide(actual);
    if |wanted| != |expected| || |observed| != |actual| { return Err(DuplicateKeys); }
    var selected := Selection(expected, actual, sample);
    if selected - (wanted.Keys + observed.Keys) != {} {
      assert !(selected <= wanted.Keys + observed.Keys);
      return Err(UnknownKeys);
    }
    assert selected <= wanted.Keys + observed.Keys by {
      forall k | k in selected ensures k in wanted.Keys + observed.Keys {
        assert k !in selected - (wanted.Keys + observed.Keys);
      }
    }
    var report := BuildReport(expected, actual, selected, requestTime, maximumAge);
    ReportCertifies(report, expected, actual, selected, requestTime, maximumAge);
    r := Ok(report);
  }

  function ReasonsFor(missing: seq<Key>, extra: seq<Key>, semantic: seq<Key>, envelope: seq<Key>, ineligible: seq<Key>,
                      aggregateMismatch: bool): set<Reason>
  {
    (if missing != [] then {Missing} else {}) + (if extra != [] then {Extra} else {})
    + (if semantic != [] then {SemanticMismatch} else {}) + (if envelope != [] then {EnvelopeMismatch} else {})
    + (if ineligible != [] then {Ineligible} else {}) + (if aggregateMismatch then {AggregateMismatch} else {})
  }

  method BuildReport(expected: seq<OnlineRecord>, actual: seq<OnlineRecord>, selected: set<Key>, requestTime: Option<int>, maximumAge: Option<int>)
    returns (report: Report)
    requires DistinctEntities(expected) && DistinctEntities(actual)
    ensures IsReport(report, expected, actual, selected, requestTime, maximumAge)
  {
    hide DistinctEntities;
    hide SameMeaning;
    hide EligibleAt;
    hide PairsAreTrue;
    hide ReasonsAreTrue;
    hide ReasonsFor;
    hide MembershipIsTrue;
    hide KeysOf;
    hide Increasing;
    var wanted, observed := TableOf(expected), TableOf(actual);
    hide TableOf;
    var missing := InKeyOrder(set k | k in selected && k in wanted && k !in observed);
    var extra := InKeyOrder(set k | k in selected && k in observed && k !in wanted);
    var common := InKeyOrder(set k | k in selected && k in wanted && k in observed);
    var semantic, envelope, ineligible := CompareCommon(wanted, observed, common, requestTime, maximumAge);
    var aggregateMismatch := expected != actual;
    var reasons := ReasonsFor(missing, extra, semantic, envelope, ineligible, aggregateMismatch);
    report := Report(missing, extra, semantic, envelope, ineligible, aggregateMismatch, reasons, reasons == {});
    ReasonsFollow(report);
    MembershipFollows(report, expected, actual, selected);
    PairsFollow(report, expected, actual, selected, common, requestTime, maximumAge);
  }

  lemma MembershipFollows(report: Report, expected: seq<OnlineRecord>, actual: seq<OnlineRecord>, selected: set<Key>)
    requires forall k :: k in report.missing <==> k in selected && k in TableOf(expected) && k !in TableOf(actual)
    requires forall k :: k in report.extra <==> k in selected && k in TableOf(actual) && k !in TableOf(expected)
    requires Increasing(report.missing, KeyLess) && Increasing(report.extra, KeyLess)
    ensures MembershipIsTrue(report, expected, actual, selected)
  {
    hide TableOf;
    hide KeysOf;
    hide Increasing;
  }

  lemma ReasonsFollow(report: Report)
    requires report.reasons
          == ReasonsFor(report.missing, report.extra, report.semantic, report.envelope, report.ineligible, report.aggregateMismatch)
    requires report.passed <==> report.reasons == {}
    ensures ReasonsAreTrue(report)
  {
  }

  /** The lists follow the two tables; the tables hold the records. */
  lemma PairsFollow(report: Report, expected: seq<OnlineRecord>, actual: seq<OnlineRecord>, selected: set<Key>, common: seq<Key>,
                    requestTime: Option<int>, maximumAge: Option<int>)
    requires DistinctEntities(expected) && DistinctEntities(actual)
    requires forall k :: k in common <==> k in selected && k in TableOf(expected) && k in TableOf(actual)
    requires forall k :: k in report.semantic <==> k in common && !SameMeaning(TableOf(expected)[k], TableOf(actual)[k])
    requires forall k :: k in report.envelope <==> k in common && TableOf(expected)[k] != TableOf(actual)[k]
    requires forall k :: k in report.ineligible <==> k in common && !EligibleAt(TableOf(actual)[k], requestTime, maximumAge)
    requires Increasing(report.semantic, KeyLess) && Increasing(report.envelope, KeyLess) && Increasing(report.ineligible, KeyLess)
    ensures PairsAreTrue(report, expected, actual, selected, requestTime, maximumAge)
  {
    hide SameMeaning;
    hide EligibleAt;
    hide TableOf;
    hide DistinctEntities;
    hide Increasing;
    forall e, a | e in expected && a in actual && e.EntityKey() == a.EntityKey() && e.EntityKey() in selected
      ensures PairIsTrue(report, e, a, requestTime, maximumAge)
    {
      TableHolds(expected, e.EntityKey());
      TableHolds(actual, e.EntityKey());
    }
  }

  /** A report that finds nothing certifies equality and eligibility, and only then. */
  lemma ReportCertifies(report: Report, expected: seq<OnlineRecord>, actual: seq<OnlineRecord>, selected: set<Key>,
                        requestTime: Option<int>, maximumAge: Option<int>)
    requires IsReport(report, expected, actual, selected, requestTime, maximumAge)
    requires DistinctEntities(expected) && DistinctEntities(actual)
    ensures report.passed <==> Certified(expected, actual, selected, requestTime, maximumAge)
  {
    NoReasonIff(report);
    if expected == actual {
      NothingDiffers(report, expected, selected, requestTime, maximumAge);
      EmptyIff(report.ineligible);
      IneligibleIff(report, expected, selected, requestTime, maximumAge);
    }
  }

  lemma NoReasonIff(report: Report)
    requires ReasonsAreTrue(report)
    ensures report.passed <==>
              report.missing == [] && report.extra == [] && report.semantic == [] && report.envelope == [] && report.ineligible == []
              && !report.aggregateMismatch
  {
    if report.reasons != {} {
      var reason :| reason in report.reasons;
      match reason
      case Missing =>
      case Extra =>
      case SemanticMismatch =>
      case EnvelopeMismatch =>
      case Ineligible =>
      case AggregateMismatch =>
    }
  }

  /** Against itself a table misses nothing and differs in nothing. */
  lemma NothingDiffers(report: Report, rows: seq<OnlineRecord>, selected: set<Key>, requestTime: Option<int>, maximumAge: Option<int>)
    requires IsReport(report, rows, rows, selected, requestTime, maximumAge)
    ensures report.missing == [] && report.extra == [] && report.semantic == [] && report.envelope == []
  {
    hide EligibleAt;
    EmptyIff(report.missing);
    EmptyIff(report.extra);
    EmptyIff(report.semantic);
    EmptyIff(report.envelope);
    forall r | r in rows && r.EntityKey() in selected ensures r.EntityKey() !in report.semantic && r.EntityKey() !in report.envelope {
      assert PairIsTrue(report, r, r, requestTime, maximumAge);
    }
  }

  /** Against itself the ineligible keys are those of the selected ineligible rows. */
  lemma IneligibleIff(report: Report, rows: seq<OnlineRecord>, selected: set<Key>, requestTime: Option<int>, maximumAge: Option<int>)
    requires IsReport(report, rows, rows, selected, requestTime, maximumAge)
    ensures (forall k :: k !in report.ineligible)
       <==> forall r | r in rows && r.EntityKey() in selected :: EligibleAt(r, requestTime, maximumAge)
  {
    hide EligibleAt;
    forall r | r in rows && r.EntityKey() in selected
      ensures r.EntityKey() in report.ineligible <==> !EligibleAt(r, requestTime, maximumAge)
    {
      assert PairIsTrue(report, r, r, requestTime, maximumAge);
    }
  }

  lemma EmptyIff<T(!new)>(s: seq<T>)
    ensures s == [] <==> forall x :: x !in s
  {
    if s != [] {
      assert s[0] in s;
    }
  }

  /** A sampled comparison passes exactly when the exhaustive one finds nothing but ineligible
      records outside the sample: the aggregate digest covers every row, eligibility only the sampled. */
  lemma SampleDecides(sampled: Report, full: Report, expected: seq<OnlineRecord>, actual: seq<OnlineRecord>, sample: seq<Key>,
                      requestTime: Option<int>, maximumAge: Option<int>)
    requires Comparable(expected, actual, Some(sample))
    requires IsReport(sampled, expected, actual, Elements(sample), requestTime, maximumAge)
    requires IsReport(full, expected, actual, Selection(expected, actual, None), requestTime, maximumAge)
    ensures sampled.passed <==> !full.aggregateMismatch && forall k | k in full.ineligible :: k !in sample
    ensures requestTime.None? ==> (sampled.passed <==> full.passed)
  {
    ReportCertifies(sampled, expected, actual, Elements(sample), requestTime, maximumAge);
    ReportCertifies(full, expected, actual, Selection(expected, actual, None), requestTime, maximumAge);
    if expected == actual {
      SampledIneligible(full, expected, sample, requestTime, maximumAge);
    }
  }

  lemma SampledIneligible(full: Report, rows: seq<OnlineRecord>, sample: seq<Key>, requestTime: Option<int>, maximumAge: Option<int>)
    requires DistinctEntities(rows) && IsReport(full, rows, rows, Selection(rows, rows, None), requestTime, maximumAge)
    ensures (forall k | k in full.ineligible :: k !in sample)
       <==> forall r | r in rows && r.EntityKey() in Elements(sample) :: EligibleAt(r, requestTime, maximumAge)
  {
    hide EligibleAt;
    forall r | r in rows ensures r.EntityKey() in full.ineligible <==> !EligibleAt(r, requestTime, maximumAge) {
      assert r.EntityKey() in KeysOf(rows);
      assert PairIsTrue(full, r, r, requestTime, maximumAge);
    }
  }
}
