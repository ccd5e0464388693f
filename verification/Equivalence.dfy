/** Incremental equals full: one step exactly, and every chain of knowledge frontiers. */
module Equivalence {
  import opened Ordering
  import opened Model
  import opened Temporal
  import opened SparkRuntime
  import opened Incremental

  /** The inputs of one build, full or incremental. */
  datatype Request = Request(
    generationId: string,
    definitions: seq<FeatureDefinition>,
    events: seq<PaymentEvent>,
    customerIds: seq<string>,
    knowledgeCutoff: int,
    maximumPairFraction: real)
  {
    ghost function Revisions(): set<PaymentEvent> {
      History(events)
    }

    predicate Valid() {
      forall i | 0 <= i < |events| :: events[i].Valid()
    }
  }

  /** `build` is what `full_rebuild` returns for the request. */
  ghost predicate IsFullBuild(build: SparkBuild, q: Request, eventCutoff: int) {
    ValidGenerationId(q.generationId) && HoldsFullTable(build, q, eventCutoff)
  }

  /** The rows and the manifest of a full rebuild, under whatever generation id. */
  ghost predicate HoldsFullTable(build: SparkBuild, q: Request, eventCutoff: int) {
    && Accepted(q.definitions, q.Revisions(), q.customerIds, eventCutoff, q.knowledgeCutoff)
    && (var defs, normalized, customers := ByName(q.definitions), Normalized(q.Revisions()), InOrder(q.customerIds);
        && IsFullTable(build.values, q.generationId, defs, normalized, customers, eventCutoff, q.knowledgeCutoff)
        && build == SparkBuild(q.generationId, build.values,
                               ManifestOf(q.generationId, defs, normalized, customers, build.values, eventCutoff, q.knowledgeCutoff)))
  }

  ghost predicate IsStep(build: SparkBuild, plan: AffectedScopePlan, q: Request, base: SparkBuild, eventCutoff: int) {
    IsIncrementalBuild(build, plan, q.generationId, q.definitions, q.Revisions(), q.customerIds, base, eventCutoff,
                       q.knowledgeCutoff, q.maximumPairFraction)
  }

  /** The predecessor holds, for one key, what the given history says of its own frontier. */
  ghost predicate HoldsAt(base: seq<FeatureValue>, key: Key, defs: seq<FeatureDefinition>, events: seq<PaymentEvent>,
                          eventCutoff: int, baseCutoff: int)
  {
    && key in ByKey(base) && key.1 in DefinitionByName(defs)
    && (var d := DefinitionByName(defs)[key.1];
        && ByKey(base)[key].value == ValueFor(events, d, key.0, eventCutoff, baseCutoff)
        && ByKey(base)[key].definitionDigest == d.definitionDigest)
  }

  /** The predecessor is right about every key the step preserves. The step itself checks the
      predecessor's definitions and customers, but not that it was built from this history. */
  ghost predicate PreservedKeysHold(plan: AffectedScopePlan, q: Request, base: SparkBuild, eventCutoff: int)
    requires GoodDefinitions(q.definitions) && Unambiguous(q.Revisions())
  {
    var defs := ByName(q.definitions);
    forall key | key in KeySet(InOrder(q.customerIds), defs) && key !in plan.affectedPairs ::
      HoldsAt(base.values, key, defs, Normalized(q.Revisions()), eventCutoff, base.manifest.knowledgeCutoff)
  }

  lemma KeyIndex(customers: seq<string>, defs: seq<FeatureDefinition>)
    ensures forall key :: key in OrderedKeys(customers, defs) <==> key in KeySet(customers, defs)
  {
    KeyOrder(KeySet(customers, defs));
  }

  /** A preserved value is the target's value exactly when it was right at the base. */
  lemma PreservedIsTarget(plan: AffectedScopePlan, q: Request, base: SparkBuild, eventCutoff: int, key: Key)
    requires GoodDefinitions(q.definitions) && Unambiguous(q.Revisions())
    requires IsPlan(plan, q.definitions, q.Revisions(), eventCutoff, base.manifest.knowledgeCutoff, q.knowledgeCutoff, q.maximumPairFraction)
    requires key in ByKey(base.values) && key.1 in DefinitionByName(ByName(q.definitions)) && key !in plan.affectedPairs
    ensures Reenvelope(ByKey(base.values)[key], q.generationId, eventCutoff, q.knowledgeCutoff)
         == RowFor(key, q.generationId, ByName(q.definitions), Normalized(q.Revisions()), eventCutoff, q.knowledgeCutoff)
       <==> HoldsAt(base.values, key, ByName(q.definitions), Normalized(q.Revisions()), eventCutoff, base.manifest.knowledgeCutoff)
  {
    DistinctNamesCount(q.definitions);
    var d := DefinitionByName(ByName(q.definitions))[key.1];
    assert d in q.definitions && d.name == key.1 && (key.0, d.name) == key;
    ScopeIsSound(q.definitions, q.Revisions(), d, key.0, eventCutoff, base.manifest.knowledgeCutoff, q.knowledgeCutoff);
  }

  lemma StepMerges(build: SparkBuild, plan: AffectedScopePlan, q: Request, base: SparkBuild, eventCutoff: int)
    requires IsStep(build, plan, q, base, eventCutoff) && plan.mode.IncrementalMode?
    ensures GoodDefinitions(q.definitions) && Unambiguous(q.Revisions())
    ensures IsPlan(plan, q.definitions, q.Revisions(), eventCutoff, base.manifest.knowledgeCutoff, q.knowledgeCutoff, q.maximumPairFraction)
    ensures IsMergedTable(build.values, base.values, Elements(plan.affectedPairs), q.generationId, ByName(q.definitions),
                          Normalized(q.Revisions()), InOrder(q.customerIds), eventCutoff, q.knowledgeCutoff)
  {
    hide IsMergedTable;
    hide IsPlan;
  }

  /** The row is the target's exactly if its key was recomputed or right at the base. */
  ghost predicate IsRightIff(row: FeatureValue, key: Key, affected: seq<Key>, generationId: string, defs: seq<FeatureDefinition>,
                             events: seq<PaymentEvent>, base: seq<FeatureValue>, eventCutoff: int, baseCutoff: int, cutoff: int)
  {
    && key.1 in DefinitionByName(defs)
    && (row == RowFor(key, generationId, defs, events, eventCutoff, cutoff)
        <==> key in affected || HoldsAt(base, key, defs, events, eventCutoff, baseCutoff))
  }

  ghost predicate RowsAreRightIff(values: seq<FeatureValue>, affected: seq<Key>, generationId: string, defs: seq<FeatureDefinition>,
                                  events: seq<PaymentEvent>, customers: seq<string>, base: seq<FeatureValue>, eventCutoff: int,
                                  baseCutoff: int, cutoff: int)
  {
    var keys := OrderedKeys(customers, defs);
    |values| == |keys|
    && forall i | 0 <= i < |keys| ::
         IsRightIff(values[i], keys[i], affected, generationId, defs, events, base, eventCutoff, baseCutoff, cutoff)
  }

  lemma MergedRowIsRightIff(plan: AffectedScopePlan, q: Request, base: SparkBuild, eventCutoff: int, key: Key, row: FeatureValue)
    requires GoodDefinitions(q.definitions) && Unambiguous(q.Revisions())
    requires IsPlan(plan, q.definitions, q.Revisions(), eventCutoff, base.manifest.knowledgeCutoff, q.knowledgeCutoff, q.maximumPairFraction)
    requires IsMergedRow(row, key, base.values, Elements(plan.affectedPairs), q.generationId, ByName(q.definitions),
                         Normalized(q.Revisions()), eventCutoff, q.knowledgeCutoff)
    ensures IsRightIff(row, key, plan.affectedPairs, q.generationId, ByName(q.definitions), Normalized(q.Revisions()), base.values,
                       eventCutoff, base.manifest.knowledgeCutoff, q.knowledgeCutoff)
  {
    hide IsPlan;
    hide HoldsAt;
    hide RowFor;
    hide Reenvelope;
    hide Unambiguous;
    if key !in plan.affectedPairs {
      PreservedIsTarget(plan, q, base, eventCutoff, key);
    }
  }

  lemma MergedRows(build: SparkBuild, plan: AffectedScopePlan, q: Request, base: SparkBuild, eventCutoff: int)
    requires IsStep(build, plan, q, base, eventCutoff) && plan.mode.IncrementalMode?
    ensures GoodDefinitions(q.definitions) && Unambiguous(q.Revisions())
    ensures RowsAreRightIff(build.values, plan.affectedPairs, q.generationId, ByName(q.definitions), Normalized(q.Revisions()),
                            InOrder(q.customerIds), base.values, eventCutoff, base.manifest.knowledgeCutoff, q.knowledgeCutoff)
  {
    StepMerges(build, plan, q, base, eventCutoff);
    hide IsStep;
    hide IsPlan;
    hide Unambiguous;
    hide IsRightIff;
    hide IsMergedRow;
    var keys := OrderedKeys(InOrder(q.customerIds), ByName(q.definitions));
    forall i | 0 <= i < |keys|
      ensures IsRightIff(build.values[i], keys[i], plan.affectedPairs, q.generationId, ByName(q.definitions), Normalized(q.Revisions()),
                         base.values, eventCutoff, base.manifest.knowledgeCutoff, q.knowledgeCutoff)
    {
      MergedRowIsRightIff(plan, q, base, eventCutoff, keys[i], build.values[i]);
    }
  }

  /** Such a table is the full one exactly when every preserved key was right at the base. */
  lemma FullIffPreservedRight(values: seq<FeatureValue>, affected: seq<Key>, generationId: string, defs: seq<FeatureDefinition>,
                              events: seq<PaymentEvent>, customers: seq<string>, base: seq<FeatureValue>, eventCutoff: int,
                              baseCutoff: int, cutoff: int)
    requires RowsAreRightIff(values, affected, generationId, defs, events, customers, base, eventCutoff, baseCutoff, cutoff)
    ensures IsFullTable(values, generationId, defs, events, customers, eventCutoff, cutoff)
       <==> forall key | key in KeySet(customers, defs) && key !in affected :: HoldsAt(base, key, defs, events, eventCutoff, baseCutoff)
  {
    hide HoldsAt;
    hide RowFor;
    KeyIndex(customers, defs);
    var keys := OrderedKeys(customers, defs);
    hide OrderedKeys;
    hide KeySet;
    if IsFullTable(values, generationId, defs, events, customers, eventCutoff, cutoff) {
      forall key | key in KeySet(customers, defs) && key !in affected ensures HoldsAt(base, key, defs, events, eventCutoff, baseCutoff) {
        var i :| 0 <= i < |keys| && keys[i] == key;
        assert IsRightIff(values[i], keys[i], affected, generationId, defs, events, base, eventCutoff, baseCutoff, cutoff);
      }
    }
    if forall key | key in KeySet(customers, defs) && key !in affected :: HoldsAt(base, key, defs, events, eventCutoff, baseCutoff) {
      forall i | 0 <= i < |keys|
        ensures keys[i].1 in DefinitionByName(defs) && values[i] == RowFor(keys[i], generationId, defs, events, eventCutoff, cutoff)
      {
        assert keys[i] in KeySet(customers, defs);
        assert IsRightIff(values[i], keys[i], affected, generationId, defs, events, base, eventCutoff, baseCutoff, cutoff);
      }
    }
  }

  lemma StepIsFullTableIff(build: SparkBuild, plan: AffectedScopePlan, q: Request, base: SparkBuild, eventCutoff: int)
    requires IsStep(build, plan, q, base, eventCutoff)
    ensures HoldsFullTable(build, q, eventCutoff) <==> plan.mode.FullMode? || PreservedKeysHold(plan, q, base, eventCutoff)
  {
    hide IsFullTable;
    hide HoldsAt;
    hide IsPlan;
    hide Unambiguous;
    if plan.mode.IncrementalMode? {
      MergedRows(build, plan, q, base, eventCutoff);
      FullIffPreservedRight(build.values, plan.affectedPairs, q.generationId, ByName(q.definitions), Normalized(q.Revisions()),
                            InOrder(q.customerIds), base.values, eventCutoff, base.manifest.knowledgeCutoff, q.knowledgeCutoff);
    }
  }

  /** One incremental step yields the full rebuild of its target exactly when every key it
      preserves held the right value at the base frontier, and its generation id is one that
      `full_rebuild` takes: with no key affected the step itself never looks at the id. */
  lemma IncrementalIsFullIff(build: SparkBuild, plan: AffectedScopePlan, q: Request, base: SparkBuild, eventCutoff: int)
    requires IsStep(build, plan, q, base, eventCutoff)
    ensures IsFullBuild(build, q, eventCutoff) <==>
      && (plan.mode.FullMode? || PreservedKeysHold(plan, q, base, eventCutoff))
      && (plan.affectedPairs != [] || ValidGenerationId(q.generationId))
  {
    hide ValidGenerationId;
    StepIsFullTableIff(build, plan, q, base, eventCutoff);
    PlanIsDetermined(plan, q.definitions, q.Revisions(), eventCutoff, base.manifest.knowledgeCutoff, q.knowledgeCutoff, q.maximumPairFraction);
    if plan.affectedPairs != [] {
      assert plan.affectedPairs[0] in Elements(plan.affectedPairs);
    }
  }

  lemma ValueIsKnowable(h: set<PaymentEvent>, h': set<PaymentEvent>, d: FeatureDefinition, customerId: string, eventCutoff: int, k: int)
    requires Unambiguous(h) && Unambiguous(h') && Known(h, k) == Known(h', k)
    ensures ValueFor(Normalized(h), d, customerId, eventCutoff, k) == ValueFor(Normalized(h'), d, customerId, eventCutoff, k)
  {
    var a, b := Eligible(Normalized(h), d, customerId, eventCutoff, k), Eligible(Normalized(h'), d, customerId, eventCutoff, k);
    forall e ensures e in a <==> e in b {
      EligibleIsState(h, d, customerId, eventCutoff, k, e);
      EligibleIsState(h', d, customerId, eventCutoff, k, e);
      LatestIsKnowable(h, h', e, k);
    }
    EligibleIsOrdered(h, d, customerId, eventCutoff, k);
    EligibleIsOrdered(h', d, customerId, eventCutoff, k);
    SameEligible(h, a, b);
  }

  lemma SharedInputs(build: SparkBuild, plan: AffectedScopePlan, q: Request, base: SparkBuild, p: Request, eventCutoff: int)
    requires IsStep(build, plan, q, base, eventCutoff) && plan.mode.IncrementalMode?
    requires HoldsFullTable(base, p, eventCutoff)
    ensures DistinctNames(p.definitions) && DistinctNames(q.definitions)
    ensures Unambiguous(p.Revisions()) && Unambiguous(q.Revisions())
    ensures ByName(p.definitions) == ByName(q.definitions) && InOrder(p.customerIds) == InOrder(q.customerIds)
    ensures base.manifest.knowledgeCutoff == p.knowledgeCutoff
    ensures IsFullTable(base.values, p.generationId, ByName(q.definitions), Normalized(p.Revisions()), InOrder(q.customerIds),
                        eventCutoff, p.knowledgeCutoff)
  {
    hide Unambiguous;
    hide IsFullTable;
    hide IsMergedTable;
    hide ByKey;
    hide ByName;
    hide InOrder;
    hide Sorted;
    hide IsPlan;
    PlanIsDetermined(plan, q.definitions, q.Revisions(), eventCutoff, base.manifest.knowledgeCutoff, q.knowledgeCutoff, q.maximumPairFraction);
  }

  /** A predecessor built from any history that agrees on what was knowable at its frontier
      satisfies the condition. */
  lemma AgreeingPredecessorHolds(build: SparkBuild, plan: AffectedScopePlan, q: Request, base: SparkBuild, p: Request, eventCutoff: int)
    requires IsStep(build, plan, q, base, eventCutoff) && plan.mode.IncrementalMode?
    requires HoldsFullTable(base, p, eventCutoff)
    requires Known(p.Revisions(), p.knowledgeCutoff) == Known(q.Revisions(), p.knowledgeCutoff)
    ensures PreservedKeysHold(plan, q, base, eventCutoff)
  {
    SharedInputs(build, plan, q, base, p, eventCutoff);
    hide IsStep;
    hide HoldsFullTable;
    hide Unambiguous;
    hide IsFullTable;
    hide ByKey;
    hide ValueFor;
    hide Known;
    var defs, customers := ByName(q.definitions), InOrder(q.customerIds);
    forall key | key in KeySet(customers, defs)
      ensures HoldsAt(base.values, key, defs, Normalized(q.Revisions()), eventCutoff, base.manifest.knowledgeCutoff)
    {
      FullTableHoldsKey(base.values, p.generationId, defs, Normalized(p.Revisions()), customers, eventCutoff, p.knowledgeCutoff, key);
      ValueIsKnowable(p.Revisions(), q.Revisions(), DefinitionByName(defs)[key.1], key.0, eventCutoff, p.knowledgeCutoff);
    }
  }

  // ---- Progress ---------------------------------------------------------------------------------------

  /** The same definitions and customers, in any order. */
  ghost predicate SameTable(p: Request, q: Request) {
    Elements(p.definitions) == Elements(q.definitions) && Elements(p.customerIds) == Elements(q.customerIds)
  }

  /** What a maintenance step after `p` demands of its own request `q`. */
  ghost predicate NextAccepted(p: Request, q: Request, eventCutoff: int) {
    && PlanAccepted(q.definitions, q.Revisions(), eventCutoff, p.knowledgeCutoff, q.knowledgeCutoff, q.maximumPairFraction)
    && Accepted(q.definitions, q.Revisions(), q.customerIds, eventCutoff, q.knowledgeCutoff)
    && (SameTable(p, q)
        || TakesFullMode(q.definitions, q.Revisions(), eventCutoff, p.knowledgeCutoff, q.knowledgeCutoff, q.maximumPairFraction))
    && (AffectedPairs(q.definitions, q.Revisions(), eventCutoff, p.knowledgeCutoff, q.knowledgeCutoff) == {}
        || ValidGenerationId(q.generationId))
  }

  ghost predicate Accepts(base: SparkBuild, q: Request, eventCutoff: int) {
    StepAccepted(q.generationId, q.definitions, q.Revisions(), q.customerIds, base, eventCutoff, q.knowledgeCutoff, q.maximumPairFraction)
  }

  lemma FullTableKeys(values: seq<FeatureValue>, generationId: string, defs: seq<FeatureDefinition>, events: seq<PaymentEvent>,
                      customers: seq<string>, eventCutoff: int, cutoff: int)
    requires IsFullTable(values, generationId, defs, events, customers, eventCutoff, cutoff)
    ensures ByKey(values).Keys == KeySet(customers, defs)
  {
    hide ValueFor;
    hide ByKey;
    var keys := OrderedKeys(customers, defs);
    KeyIndex(customers, defs);
    forall key ensures key in ByKey(values) <==> key in KeySet(customers, defs) {
      if key in KeySet(customers, defs) {
        FullTableHoldsKey(values, generationId, defs, events, customers, eventCutoff, cutoff, key);
      }
      if key in ByKey(values) {
        var i :| 0 <= i < |values| && values[i] == ByKey(values)[key];
        assert keys[i] == key;
      }
    }
  }

  lemma RowsAreBound(values: seq<FeatureValue>, generationId: string, defs: seq<FeatureDefinition>, events: seq<PaymentEvent>,
                     customers: seq<string>, eventCutoff: int, cutoff: int)
    requires IsFullTable(values, generationId, defs, events, customers, eventCutoff, cutoff)
    ensures forall v | v in values :: v.generationId == generationId && v.eventTime == eventCutoff && v.knowledgeTime == cutoff
  {
    hide ValueFor;
    hide OrderedKeys;
    var keys := OrderedKeys(customers, defs);
    forall v | v in values ensures v.generationId == generationId && v.eventTime == eventCutoff && v.knowledgeTime == cutoff {
      var i :| 0 <= i < |values| && values[i] == v;
      assert keys[i].1 in DefinitionByName(defs);
    }
  }

  lemma FullTableIsBound(base: SparkBuild, p: Request, eventCutoff: int)
    requires HoldsFullTable(base, p, eventCutoff)
    ensures BoundToManifest(base, eventCutoff)
  {
    hide IsFullTable;
    hide Unambiguous;
    RowsAreBound(base.values, p.generationId, ByName(p.definitions), Normalized(p.Revisions()), InOrder(p.customerIds), eventCutoff, p.knowledgeCutoff);
  }

  lemma SameTableSameOrder(p: Request, q: Request)
    requires DistinctNames(p.definitions) && DistinctNames(q.definitions)
    ensures SameTable(p, q)
       <==> ByName(p.definitions) == ByName(q.definitions) && InOrder(p.customerIds) == InOrder(q.customerIds)
  {
    NameOrder(p.definitions);
    NameOrder(q.definitions);
    StringOrder(Elements(p.customerIds));
    StringOrder(Elements(q.customerIds));
    assert Elements(ByName(p.definitions)) == Elements(p.definitions) && Elements(ByName(q.definitions)) == Elements(q.definitions);
    assert Elements(InOrder(p.customerIds)) == Elements(p.customerIds) && Elements(InOrder(q.customerIds)) == Elements(q.customerIds);
  }

  lemma FullBaseIsCompatibleIff(base: SparkBuild, p: Request, q: Request, eventCutoff: int)
    requires HoldsFullTable(base, p, eventCutoff) && DistinctNames(q.definitions)
    ensures CompatibleBase(base, q.definitions, q.customerIds) <==> SameTable(p, q)
  {
    hide ByKey;
    hide KeySet;
    hide Unambiguous;
    hide IsFullTable;
    hide Sorted;
    SameTableSameOrder(p, q);
    hide SameTable;
    hide InOrder;
    hide ByName;
    FullTableKeys(base.values, p.generationId, ByName(p.definitions), Normalized(p.Revisions()), InOrder(p.customerIds),
                  eventCutoff, p.knowledgeCutoff);
  }

  /** Progress: over a predecessor that holds a full table, a step succeeds exactly when its own
      request meets what is demanded of it; nothing about the predecessor can get in the way. */
  lemma FullBaseStepsIff(base: SparkBuild, p: Request, q: Request, eventCutoff: int)
    requires HoldsFullTable(base, p, eventCutoff)
    ensures Accepts(base, q, eventCutoff) <==> NextAccepted(p, q, eventCutoff)
  {
    FullTableIsBound(base, p, eventCutoff);
    if GoodDefinitions(q.definitions) {
      FullBaseIsCompatibleIff(base, p, q, eventCutoff);
    }
  }

  // ---- Chains of frontiers --------------------------------------------------------------------------

  /** A run of maintenance: a full rebuild, then any number of incremental rebuilds. */
  ghost predicate IsChain(builds: seq<SparkBuild>, plans: seq<AffectedScopePlan>, requests: seq<Request>, eventCutoff: int) {
    && |builds| == |requests| == |plans| + 1
    && IsFullBuild(builds[0], requests[0], eventCutoff)
    && forall i | 0 < i < |builds| :: IsStep(builds[i], plans[i - 1], requests[i], builds[i - 1], eventCutoff)
  }

  /** Each request's history only adds to what its predecessor's frontier already knew. */
  ghost predicate Agreeing(requests: seq<Request>) {
    forall i | 0 < i < |requests| ::
      Known(requests[i - 1].Revisions(), requests[i - 1].knowledgeCutoff) == Known(requests[i].Revisions(), requests[i - 1].knowledgeCutoff)
  }

  /** The conditions on the requests alone under which the whole chain is built. */
  ghost predicate ChainAccepted(requests: seq<Request>, eventCutoff: int) {
    && requests != [] && ValidGenerationId(requests[0].generationId)
    && Accepted(requests[0].definitions, requests[0].Revisions(), requests[0].customerIds, eventCutoff, requests[0].knowledgeCutoff)
    && forall i | 0 < i < |requests| :: NextAccepted(requests[i - 1], requests[i], eventCutoff)
  }

  lemma StepKeepsFull(build: SparkBuild, plan: AffectedScopePlan, q: Request, base: SparkBuild, p: Request, eventCutoff: int)
    requires IsStep(build, plan, q, base, eventCutoff) && HoldsFullTable(base, p, eventCutoff)
    requires Known(p.Revisions(), p.knowledgeCutoff) == Known(q.Revisions(), p.knowledgeCutoff)
    ensures HoldsFullTable(build, q, eventCutoff)
  {
    if plan.mode.IncrementalMode? {
      AgreeingPredecessorHolds(build, plan, q, base, p, eventCutoff);
    }
    StepIsFullTableIff(build, plan, q, base, eventCutoff);
  }

  /** Every build of the chain, whichever mode each step took, holds the rows of the full rebuild
      of its own request and every manifest field that binds them; it is that full rebuild
      exactly when `full_rebuild` takes the request's generation id. */
  lemma {:induction false} ChainIsFull(builds: seq<SparkBuild>, plans: seq<AffectedScopePlan>, requests: seq<Request>, eventCutoff: int, n: nat)
    requires IsChain(builds, plans, requests, eventCutoff) && Agreeing(requests) && n < |builds|
    ensures HoldsFullTable(builds[n], requests[n], eventCutoff)
    ensures IsFullBuild(builds[n], requests[n], eventCutoff) <==> ValidGenerationId(requests[n].generationId)
  {
    hide ValidGenerationId;
    hide HoldsFullTable;
    hide IsStep;
    hide Known;
    if n > 0 {
      ChainIsFull(builds, plans, requests, eventCutoff, n - 1);
      StepKeepsFull(builds[n], plans[n - 1], requests[n], builds[n - 1], requests[n - 1], eventCutoff);
    }
  }

  /** Maintenance over a sequence of frontiers: the first request is rebuilt in full, every later
      one incrementally over the build before it. */
  method Maintain(requests: seq<Request>, eventCutoff: int) returns (r: Result<(seq<SparkBuild>, seq<AffectedScopePlan>), SparkError>)
    requires requests != [] && forall i | 0 <= i < |requests| :: requests[i].Valid()
    ensures r.Ok? ==> IsChain(r.value.0, r.value.1, requests, eventCutoff)
    ensures Agreeing(requests) ==> (r.Ok? <==> ChainAccepted(requests, eventCutoff))
    ensures Agreeing(requests) && r.Ok? ==> forall n | 0 <= n < |requests| ::
      IsFullBuild(r.value.0[n], requests[n], eventCutoff) <==> ValidGenerationId(requests[n].generationId)
  {
    hide ValidGenerationId;
    hide HoldsFullTable;
    hide NextAccepted;
    hide Accepted;
    hide IsStep;
    hide Agreeing;
    hide Accepts;
    var build :- FirstBuild(requests[0], eventCutoff);
    var builds, plans := [build], [];
    for n := 1 to |requests|
      invariant IsChain(builds, plans, requests[..n], eventCutoff)
      invariant Agreeing(requests) ==> forall i | 0 < i < n :: NextAccepted(requests[i - 1], requests[i], eventCutoff)
    {
      if Agreeing(requests) {
        AgreeingPrefix(requests, n);
        ChainIsFull(builds, plans, requests[..n], eventCutoff, n - 1);
        FullBaseStepsIff(builds[n - 1], requests[n - 1], requests[n], eventCutoff);
      }
      var step :- NextBuild(builds[n - 1], requests[n], eventCutoff);
      ChainStep(builds, plans, requests, n, step.0, step.1, eventCutoff);
      builds, plans := builds + [step.0], plans + [step.1];
    }
    assert requests[..|requests|] == requests;
    if Agreeing(requests) {
      forall n | 0 <= n < |requests|
        ensures IsFullBuild(builds[n], requests[n], eventCutoff) <==> ValidGenerationId(requests[n].generationId)
      {
        ChainIsFull(builds, plans, requests, eventCutoff, n);
      }
    }
    r := Ok((builds, plans));
  }

  lemma AgreeingPrefix(requests: seq<Request>, n: nat)
    requires Agreeing(requests) && n <= |requests|
    ensures Agreeing(requests[..n])
  {
    hide Known;
  }

  lemma ChainStep(builds: seq<SparkBuild>, plans: seq<AffectedScopePlan>, requests: seq<Request>, n: nat, build: SparkBuild,
                  plan: AffectedScopePlan, eventCutoff: int)
    requires 0 < n < |requests| && IsChain(builds, plans, requests[..n], eventCutoff)
    requires IsStep(build, plan, requests[n], builds[n - 1], eventCutoff)
    ensures IsChain(builds + [build], plans + [plan], requests[..n + 1], eventCutoff)
  {
    hide IsStep;
    hide IsFullBuild;
    var builds', plans', requests' := builds + [build], plans + [plan], requests[..n + 1];
    forall i | 0 < i < |builds'| ensures IsStep(builds'[i], plans'[i - 1], requests'[i], builds'[i - 1], eventCutoff) {
      if i < n {
        assert IsStep(builds[i], plans[i - 1], requests[..n][i], builds[i - 1], eventCutoff);
      }
    }
    assert builds'[0] == builds[0] && requests'[0] == requests[..n][0];
  }

  method FirstBuild(q: Request, eventCutoff: int) returns (r: Result<SparkBuild, SparkError>)
    ensures r.Ok? <==>
      && ValidGenerationId(q.generationId)
      && Accepted(q.definitions, q.Revisions(), q.customerIds, eventCutoff, q.knowledgeCutoff)
    ensures r.Ok? ==> IsFullBuild(r.value, q, eventCutoff)
  {
    r := FullRebuild(q.generationId, q.definitions, q.events, q.customerIds, eventCutoff, q.knowledgeCutoff);
  }

  method NextBuild(base: SparkBuild, q: Request, eventCutoff: int) returns (r: Result<(SparkBuild, AffectedScopePlan), SparkError>)
    requires q.Valid()
    ensures r.Ok? <==> Accepts(base, q, eventCutoff)
    ensures r.Ok? ==> IsStep(r.value.0, r.value.1, q, base, eventCutoff)
  {
    r := IncrementalRebuild(q.generationId, q.definitions, q.events, q.customerIds, base, eventCutoff, q.knowledgeCutoff,
                            q.maximumPairFraction);
  }

  /** A full rebuild leaves no choice: two builds of one request are the same build. */
  lemma FullBuildIsUnique(a: SparkBuild, b: SparkBuild, q: Request, eventCutoff: int)
    requires IsFullBuild(a, q, eventCutoff) && IsFullBuild(b, q, eventCutoff)
    ensures a == b
  {
    FullTableIsUnique(a.values, b.values, q.generationId, ByName(q.definitions), Normalized(q.Revisions()), InOrder(q.customerIds),
                      eventCutoff, q.knowledgeCutoff);
  }

  lemma FullTableIsUnique(values: seq<FeatureValue>, values': seq<FeatureValue>, generationId: string, definitions: seq<FeatureDefinition>,
                          events: seq<PaymentEvent>, customers: seq<string>, eventCutoff: int, cutoff: int)
    requires IsFullTable(values, generationId, definitions, events, customers, eventCutoff, cutoff)
    requires IsFullTable(values', generationId, definitions, events, customers, eventCutoff, cutoff)
    ensures values == values'
  {
    forall i | 0 <= i < |values| ensures values[i] == values'[i] {
      assert OrderedKeys(customers, definitions)[i].1 in DefinitionByName(definitions);
    }
  }

  // ---- Where it fails ---------------------------------------------------------------------------------

  const STALE_EVENT := PaymentEvent("e", "c", 5, 5, Some(7), Some(Succeeded), Some(0.5), "r", Upsert)
  const COUNT := FeatureDefinition("n", 1, IntegerType, 60, TransactionCount, None, "", Integer(0), "d")

  lemma SingleNames()
    ensures GoodDefinitions([COUNT]) && ByName([COUNT]) == [COUNT] && DefinitionByName([COUNT])["n"] == COUNT
  {
    NameOrder([COUNT]);
    SortedIsUnique([COUNT], Elements([COUNT]), NameLess);
    assert COUNT in [COUNT];
    assert DefinitionByName([COUNT]) == map["n" := COUNT];
  }

  lemma SingleCustomers()
    ensures InOrder(["c"]) == ["c"]
  {
    StringOrder(Elements(["c"]));
    SortedIsUnique(["c"], Elements(["c"]), StringLess);
  }

  lemma SingleKeys()
    ensures OrderedKeys(["c"], [COUNT]) == [("c", "n")] && KeySet(["c"], [COUNT]) == {("c", "n")}
  {
    assert COUNT in [COUNT] && "c" in ["c"];
    assert KeySet(["c"], [COUNT]) == {("c", "n")};
    KeyOrder(KeySet(["c"], [COUNT]));
    SortedIsUnique([("c", "n")], KeySet(["c"], [COUNT]), KeyLess);
  }

  lemma SingleTable()
    ensures GoodDefinitions([COUNT]) && ByName([COUNT]) == [COUNT] && InOrder(["c"]) == ["c"]
    ensures OrderedKeys(["c"], [COUNT]) == [("c", "n")] && KeySet(["c"], [COUNT]) == {("c", "n")}
    ensures DefinitionByName([COUNT])["n"] == COUNT
  {
    SingleNames();
    SingleCustomers();
    SingleKeys();
  }

  /** The table of customer `c` that counts no event. */
  function ZeroRows(generationId: string): seq<FeatureValue> {
    [FeatureValue("c", "n", Integer(0), 10, 10, "d", generationId)]
  }

  function ZeroBuild(generationId: string, events: seq<PaymentEvent>): SparkBuild {
    SparkBuild(generationId, ZeroRows(generationId),
               ManifestOf(generationId, [COUNT], events, ["c"], ZeroRows(generationId), 10, 10))
  }

  function ZeroRequest(generationId: string, events: seq<PaymentEvent>): Request {
    Request(generationId, [COUNT], events, ["c"], 10, 0.75)
  }

  lemma ZeroBaseIsFull()
    ensures IsFullBuild(ZeroBuild("a", Normalized({})), ZeroRequest("a", []), 10)
  {
    SingleTable();
    EligibleIsOrdered({}, COUNT, "c", 10, 10);
    assert Eligible(Normalized({}), COUNT, "c", 10, 10) == [];
    assert ZeroRequest("a", []).Revisions() == {};
  }

  lemma NothingChanges(h: set<PaymentEvent>, k: int)
    ensures forall id :: !ChangedBetween(h, id, k, k)
    ensures forall key :: !Affected([COUNT], h, 10, k, k, key)
    ensures AffectedPairs([COUNT], h, 10, k, k) == {}
  {
  }

  lemma NoShare(customers: nat)
    ensures PairFractionOf(0, customers, 1) == 0.0
  {
  }

  lemma ZeroShare(h: set<PaymentEvent>)
    requires h == {} || h == {STALE_EVENT}
    ensures |EventCustomers(h)| <= 1 && !TakesFullMode([COUNT], h, 10, 10, 10, 0.75)
  {
    assert EventCustomers(h) == if h == {} then {} else {"c"};
    NothingChanges(h, 10);
    NoShare(|EventCustomers(h)|);
  }

  lemma ZeroPlanIsAccepted(h: set<PaymentEvent>)
    requires h == {} || h == {STALE_EVENT}
    ensures PlanAccepted([COUNT], h, 10, 10, 10, 0.75) && Accepted([COUNT], h, ["c"], 10, 10)
    ensures !TakesFullMode([COUNT], h, 10, 10, 10, 0.75)
  {
    hide TakesFullMode;
    hide EventCustomers;
    SingleNames();
    ZeroShare(h);
    assert |[COUNT]| == 1;
  }

  lemma ZeroPlan(h: set<PaymentEvent>)
    requires h == {} || h == {STALE_EVENT}
    ensures IsPlan(AffectedScopePlan(10, 10, IncrementalMode, [], [], Digest(Normalized(h))), [COUNT], h, 10, 10, 10, 0.75)
  {
    SingleTable();
    NothingChanges(h, 10);
    NoShare(|EventCustomers(h)|);
  }

  lemma ZeroKey(generationId: string)
    ensures ByKey(ZeroRows(generationId)) == map[("c", "n") := FeatureValue("c", "n", Integer(0), 10, 10, "d", generationId)]
  {
    assert ByKey([]) == map[];
    assert ZeroRows(generationId)[..0] == [];
  }

  lemma ZeroMerge(h: set<PaymentEvent>, generationId: string)
    requires Unambiguous(h)
    ensures IsMergedTable(ZeroRows(generationId), ZeroRows("a"), {}, generationId, [COUNT], Normalized(h), ["c"], 10, 10)
    ensures ByKey(ZeroRows("a")).Keys == KeySet(["c"], [COUNT])
  {
    SingleTable();
    ZeroKey("a");
    hide ValueFor;
    hide Normalized;
    hide Unambiguous;
    var keys := OrderedKeys(["c"], [COUNT]);
    assert keys == [("c", "n")] && |keys| == 1;
    assert keys[0] in ByKey(ZeroRows("a"));
    assert ZeroRows(generationId)[0] == Reenvelope(ByKey(ZeroRows("a"))[keys[0]], generationId, 10, 10);
  }

  /** Over the empty base, a step at the same frontier is accepted whatever its generation id. */
  lemma ZeroStep(events: seq<PaymentEvent>, generationId: string) returns (build: SparkBuild, plan: AffectedScopePlan)
    requires events == [] || events == [STALE_EVENT]
    ensures History(events) == {} || History(events) == {STALE_EVENT}
    ensures Unambiguous(History(events)) && build == ZeroBuild(generationId, Normalized(History(events)))
    ensures IsStep(build, plan, ZeroRequest(generationId, events), ZeroBuild("a", Normalized({})), 10)
  {
    var h := History(events);
    assert h == if events == [] then {} else {STALE_EVENT};
    SingleTable();
    build := ZeroBuild(generationId, Normalized(h));
    plan := AffectedScopePlan(10, 10, IncrementalMode, [], [], Digest(Normalized(h)));
    ZeroBaseIsFull();
    FullTableIsBound(ZeroBuild("a", Normalized({})), ZeroRequest("a", []), 10);
    ZeroPlanIsAccepted(h);
    ZeroPlan(h);
    NothingChanges(h, 10);
    ZeroMerge(h, generationId);
    assert Elements(plan.affectedPairs) == {};
  }

  /** A predecessor built from an empty history passes every check of a step over the history
      `{STALE_EVENT}` at the same frontier, and its stale zero is published as the count of one event. */
  lemma StalePredecessorIsPreserved() returns (base: SparkBuild, build: SparkBuild, plan: AffectedScopePlan)
    ensures IsFullBuild(base, ZeroRequest("a", []), 10)
    ensures IsStep(build, plan, ZeroRequest("b", [STALE_EVENT]), base, 10)
    ensures build.values == [FeatureValue("c", "n", Integer(0), 10, 10, "d", "b")]
    ensures ValueFor(Normalized({STALE_EVENT}), COUNT, "c", 10, 10) == Integer(1)
  {
    hide IsStep;
    hide ManifestOf;
    base := ZeroBuild("a", Normalized({}));
    ZeroBaseIsFull();
    build, plan := ZeroStep([STALE_EVENT], "b");
    OneEligible();
  }

  /** A step that affects no key publishes under an id that `full_rebuild` refuses. */
  lemma UncheckedIdIsPublished() returns (base: SparkBuild, build: SparkBuild, plan: AffectedScopePlan)
    ensures IsFullBuild(base, ZeroRequest("a", []), 10)
    ensures IsStep(build, plan, ZeroRequest("", []), base, 10)
    ensures Agreeing([ZeroRequest("a", []), ZeroRequest("", [])])
    ensures build.generationId == "" && HoldsFullTable(build, ZeroRequest("", []), 10)
    ensures !IsFullBuild(build, ZeroRequest("", []), 10)
  {
    hide IsStep;
    hide HoldsFullTable;
    hide Known;
    hide ManifestOf;
    base := ZeroBuild("a", Normalized({}));
    ZeroBaseIsFull();
    build, plan := ZeroStep([], "");
    StepKeepsFull(build, plan, ZeroRequest("", []), base, ZeroRequest("a", []), 10);
  }

  lemma OneEligible()
    ensures Eligible(Normalized({STALE_EVENT}), COUNT, "c", 10, 10) == [STALE_EVENT]
  {
    forall e ensures e in Eligible(Normalized({STALE_EVENT}), COUNT, "c", 10, 10) <==> e in [STALE_EVENT] {
      EligibleIsState({STALE_EVENT}, COUNT, "c", 10, 10, e);
    }
    EligibleIsOrdered({STALE_EVENT}, COUNT, "c", 10, 10);
    SameEligible({STALE_EVENT}, Eligible(Normalized({STALE_EVENT}), COUNT, "c", 10, 10), [STALE_EVENT]);
  }
}
