/** Incremental maintenance of `src/featureforge/spark_runtime.py`: the affected-scope planner,
    the incremental rebuild, and the theorem that incremental equals full. */
module Incremental {
  import opened Ordering
  import opened Model
  import opened Temporal
  import opened SparkRuntime

  datatype Mode = IncrementalMode | FullMode

  datatype AffectedScopePlan = AffectedScopePlan(
    baseKnowledgeCutoff: int,
    targetKnowledgeCutoff: int,
    mode: Mode,
    affectedPairs: seq<Key>,
    reasons: seq<string>,
    sourceDigest: Digest<seq<PaymentEvent>>)

  // ---- The state of logical events at a frontier ------------------------------------------------

  /** `e` is the knowable, unretracted state of its logical event at `k`. */
  ghost predicate IsState(h: set<PaymentEvent>, e: PaymentEvent, k: int) {
    IsLatest(h, e, k) && e.operation.Upsert?
  }

  ghost function StateOf(h: set<PaymentEvent>, id: string, k: int): (r: Option<PaymentEvent>)
    ensures r.Some? ==> r.value.eventId == id && IsState(h, r.value, k)
    ensures r.None? ==> forall e | e in h && e.eventId == id :: !IsState(h, e, k)
  {
    if exists e | e in h && e.eventId == id :: IsState(h, e, k) then
      var e :| e in h && e.eventId == id && IsState(h, e, k);
      Some(e)
    else None
  }

  lemma StateIsUnique(h: set<PaymentEvent>, e: PaymentEvent, k: int)
    requires Unambiguous(h) && IsState(h, e, k)
    ensures StateOf(h, e.eventId, k) == Some(e)
  {
    LatestIsUnique(h, e, StateOf(h, e.eventId, k).value, k);
  }

  /** A dictionary and `dict.get`: a retracted event and an absent one read the same. */
  type StateMap = map<string, Option<PaymentEvent>>

  function Get(m: StateMap, id: string): Option<PaymentEvent> {
    if id in m then m[id] else None
  }

  ghost predicate HoldsState(h: set<PaymentEvent>, m: StateMap, k: int) {
    && (forall e | e in h && e.knowledgeTime <= k :: e.eventId in m)
    && (forall id | id in m :: HoldsEvent(h, id, m[id], k))
  }

  ghost predicate HoldsEvent(h: set<PaymentEvent>, id: string, entry: Option<PaymentEvent>, k: int) {
    exists e | e in h :: e.eventId == id && IsLatest(h, e, k) && entry == Entry(e)
  }

  function Entry(e: PaymentEvent): Option<PaymentEvent> {
    if e.operation.Retract? then None else Some(e)
  }

  lemma HoldsStateStep(h: set<PaymentEvent>, m: StateMap, e: PaymentEvent, k: int)
    requires HoldsState(h, m, k)
    requires forall f | f in h :: RevisionLess(f, e)
    ensures e.knowledgeTime <= k ==> HoldsState(h + {e}, m[e.eventId := Entry(e)], k)
    ensures e.knowledgeTime > k ==> HoldsState(h + {e}, m, k)
  {
    var h' := h + {e};
    forall f | f in h && f.eventId == e.eventId ensures f.knowledgeTime <= e.knowledgeTime {
      StringLessAsymmetric(f.eventId, e.eventId);
    }
    forall id | id in m && (id != e.eventId || e.knowledgeTime > k) ensures HoldsEvent(h', id, m[id], k) {
      var f :| f in h && f.eventId == id && IsLatest(h, f, k) && m[id] == Entry(f);
      assert IsLatest(h', f, k);
    }
    if e.knowledgeTime <= k {
      assert IsLatest(h', e, k);
      assert HoldsEvent(h', e.eventId, Entry(e), k);
    }
  }

  lemma GetIsState(h: set<PaymentEvent>, m: StateMap, k: int, id: string)
    requires Unambiguous(h) && HoldsState(h, m, k)
    ensures Get(m, id) == StateOf(h, id, k)
  {
    if id in m {
      assert HoldsEvent(h, id, m[id], k);
      var e :| e in h && e.eventId == id && IsLatest(h, e, k) && m[id] == Entry(e);
      if StateOf(h, id, k).Some? {
        LatestIsUnique(h, e, StateOf(h, id, k).value, k);
      } else {
        assert !IsState(h, e, k);
      }
    }
  }

  /** Reading `m` gives the state of every logical event at `k`. */
  ghost predicate IsStateMap(m: StateMap, h: set<PaymentEvent>, k: int) {
    forall id :: Get(m, id) == StateOf(h, id, k)
  }

  method StateByEvent(events: seq<PaymentEvent>, cutoff: int, ghost h: set<PaymentEvent>) returns (m: StateMap)
    requires Unambiguous(h) && events == Normalized(h)
    ensures IsStateMap(m, h, cutoff)
  {
    m := map[];
    RevisionOrder(h);
    for n := 0 to |events|
      invariant HoldsState(History(events[..n]), m, cutoff)
    {
      NormalizedPrefix(h, n);
      HistoryStep(events, n);
      HoldsStateStep(History(events[..n]), m, events[n], cutoff);
      if events[n].knowledgeTime <= cutoff {
        m := m[events[n].eventId := Entry(events[n])];
      }
    }
    assert events[..|events|] == events && History(events) == h;
    forall id ensures Get(m, id) == StateOf(h, id, cutoff) {
      GetIsState(h, m, cutoff, id);
    }
  }

  // ---- Affected scope ---------------------------------------------------------------------------

  function Candidates(prior: Option<PaymentEvent>, current: Option<PaymentEvent>): set<PaymentEvent> {
    (if prior.Some? then {prior.value} else {}) + (if current.Some? then {current.value} else {})
  }

  /** The keys one changed event can reach: either state may enter the definition's window. */
  function EventPairs(definitions: seq<FeatureDefinition>, prior: Option<PaymentEvent>, current: Option<PaymentEvent>,
                      eventCutoff: int): set<Key>
  {
    set d, v | d in definitions && v in Candidates(prior, current)
               && exists e :: e in Candidates(prior, current) && InWindow(d, e, eventCutoff)
             :: (v.customerId, d.name)
  }

  ghost predicate Affected(definitions: seq<FeatureDefinition>, h: set<PaymentEvent>, eventCutoff: int,
                           baseCutoff: int, targetCutoff: int, key: Key)
  {
    exists id :: ChangedBetween(h, id, baseCutoff, targetCutoff)
      && key in EventPairs(definitions, StateOf(h, id, baseCutoff), StateOf(h, id, targetCutoff), eventCutoff)
  }

  /** The affected keys: each is a customer of some revision, with a definition's name. */
  ghost function AffectedPairs(definitions: seq<FeatureDefinition>, h: set<PaymentEvent>, eventCutoff: int,
                               baseCutoff: int, targetCutoff: int): set<Key>
  {
    set e, d | e in h && d in definitions
               && Affected(definitions, h, eventCutoff, baseCutoff, targetCutoff, (e.customerId, d.name))
             :: (e.customerId, d.name)
  }

  ghost predicate ChangedBetween(h: set<PaymentEvent>, id: string, baseCutoff: int, targetCutoff: int) {
    StateOf(h, id, baseCutoff) != StateOf(h, id, targetCutoff)
  }

  function CustomersOf(events: seq<PaymentEvent>): set<string> {
    set e | e in events :: e.customerId
  }

  const THRESHOLD_REASON := "affected-scope-threshold"

  function Reason(id: string): string {
    "revision-change:" + id
  }

  ghost function EventCustomers(h: set<PaymentEvent>): set<string> {
    set e | e in h :: e.customerId
  }

  function PairFractionOf(pairs: nat, customers: nat, definitions: nat): real {
    var total := customers * definitions;
    if total != 0 then pairs as real / total as real else 0.0
  }

  ghost predicate PlanAccepted(definitions: seq<FeatureDefinition>, h: set<PaymentEvent>, eventCutoff: int,
                               baseCutoff: int, targetCutoff: int, maximumPairFraction: real)
  {
    && 0 <= baseCutoff <= targetCutoff && 0 <= eventCutoff
    && GoodDefinitions(definitions) && Unambiguous(h)
    && |h| <= MAX_LOCAL_INPUT_ROWS
    && |EventCustomers(h)| * |definitions| <= MAX_LOCAL_OUTPUT_ROWS
    && 0.0 < maximumPairFraction <= 1.0
  }

  /** The plan names the frontiers, exactly the affected keys, and one reason per changed event;
      it demands a full rebuild when the affected share of all keys exceeds the threshold. */
  ghost predicate IsPlan(plan: AffectedScopePlan, definitions: seq<FeatureDefinition>, h: set<PaymentEvent>, eventCutoff: int,
                         baseCutoff: int, targetCutoff: int, maximumPairFraction: real)
    requires Unambiguous(h)
  {
    && plan.baseKnowledgeCutoff == baseCutoff && plan.targetKnowledgeCutoff == targetCutoff
    && plan.sourceDigest == Digest(Normalized(h))
    && (forall key :: key in plan.affectedPairs <==> Affected(definitions, h, eventCutoff, baseCutoff, targetCutoff, key))
    && Increasing(plan.affectedPairs, KeyLess)
    && (forall id :: ChangedBetween(h, id, baseCutoff, targetCutoff) ==> Reason(id) in plan.reasons)
    && (forall reason | reason in plan.reasons ::
          (reason == THRESHOLD_REASON && plan.mode.FullMode?) || IsReason(reason, h, baseCutoff, targetCutoff))
    && (plan.mode.FullMode? <==>
          PairFractionOf(|plan.affectedPairs|, |EventCustomers(h)|, |definitions|) > maximumPairFraction)
  }

  /** The share of affected keys exceeds the threshold, so the planner demands a full rebuild. */
  ghost predicate TakesFullMode(definitions: seq<FeatureDefinition>, h: set<PaymentEvent>, eventCutoff: int,
                                baseCutoff: int, targetCutoff: int, maximumPairFraction: real)
  {
    PairFractionOf(|AffectedPairs(definitions, h, eventCutoff, baseCutoff, targetCutoff)|, |EventCustomers(h)|, |definitions|)
    > maximumPairFraction
  }

  lemma AffectedPairsAreAffected(definitions: seq<FeatureDefinition>, h: set<PaymentEvent>, eventCutoff: int,
                                 baseCutoff: int, targetCutoff: int, key: Key)
    ensures key in AffectedPairs(definitions, h, eventCutoff, baseCutoff, targetCutoff)
       <==> Affected(definitions, h, eventCutoff, baseCutoff, targetCutoff, key)
    ensures Affected(definitions, h, eventCutoff, baseCutoff, targetCutoff, key) ==> key.0 in EventCustomers(h)
  {
    if Affected(definitions, h, eventCutoff, baseCutoff, targetCutoff, key) {
      var id :| ChangedBetween(h, id, baseCutoff, targetCutoff)
        && key in EventPairs(definitions, StateOf(h, id, baseCutoff), StateOf(h, id, targetCutoff), eventCutoff);
      var d, v :| d in definitions && v in Candidates(StateOf(h, id, baseCutoff), StateOf(h, id, targetCutoff))
        && key == (v.customerId, d.name);
      assert v in h;
    }
  }

  /** A plan's pairs and mode are determined by the inputs. */
  lemma PlanIsDetermined(plan: AffectedScopePlan, definitions: seq<FeatureDefinition>, h: set<PaymentEvent>, eventCutoff: int,
                         baseCutoff: int, targetCutoff: int, maximumPairFraction: real)
    requires Unambiguous(h) && IsPlan(plan, definitions, h, eventCutoff, baseCutoff, targetCutoff, maximumPairFraction)
    ensures Elements(plan.affectedPairs) == AffectedPairs(definitions, h, eventCutoff, baseCutoff, targetCutoff)
    ensures plan.mode.FullMode? <==> TakesFullMode(definitions, h, eventCutoff, baseCutoff, targetCutoff, maximumPairFraction)
  {
    hide Affected;
    hide PairFractionOf;
    var pairs := AffectedPairs(definitions, h, eventCutoff, baseCutoff, targetCutoff);
    forall key ensures key in Elements(plan.affectedPairs) <==> key in pairs {
      AffectedPairsAreAffected(definitions, h, eventCutoff, baseCutoff, targetCutoff, key);
    }
    IncreasingKeysCount(plan.affectedPairs);
  }

  lemma IncreasingKeysCount(keys: seq<Key>)
    requires Increasing(keys, KeyLess)
    ensures |Elements(keys)| == |keys|
  {
    KeyOrder(Elements(keys));
    DistinctCount(keys);
  }

  ghost predicate ArePairsOf(pairs: set<Key>, defs: seq<FeatureDefinition>, changed: seq<string>, base: StateMap,
                             target: StateMap, eventCutoff: int)
  {
    forall key :: key in pairs <==> exists i | 0 <= i < |changed| ::
      key in EventPairs(defs, Get(base, changed[i]), Get(target, changed[i]), eventCutoff)
  }

  ghost predicate AreReasonsOf(reasons: set<string>, changed: seq<string>) {
    forall reason :: reason in reasons <==> exists i | 0 <= i < |changed| :: reason == Reason(changed[i])
  }

  method AffectedPairsOf(defs: seq<FeatureDefinition>, changed: seq<string>, base: StateMap, target: StateMap, eventCutoff: int)
    returns (pairs: set<Key>, reasons: set<string>)
    ensures ArePairsOf(pairs, defs, changed, base, target, eventCutoff)
    ensures AreReasonsOf(reasons, changed)
  {
    pairs, reasons := {}, {};
    for i := 0 to |changed|
      invariant forall key :: key in pairs <==> exists j | 0 <= j < i ::
        key in EventPairs(defs, Get(base, changed[j]), Get(target, changed[j]), eventCutoff)
      invariant forall reason :: reason in reasons <==> exists j | 0 <= j < i :: reason == Reason(changed[j])
    {
      var prior, current := Get(base, changed[i]), Get(target, changed[i]);
      var candidates := Candidates(prior, current);
      var found: set<Key> := {};
      for n := 0 to |defs|
        invariant found == EventPairs(defs[..n], prior, current, eventCutoff)
      {
        assert defs[..n + 1] == defs[..n] + [defs[n]];
        if exists e :: e in candidates && InWindow(defs[n], e, eventCutoff) {
          found := found + set v | v in candidates :: (v.customerId, defs[n].name);
        }
      }
      assert defs[..|defs|] == defs;
      pairs := pairs + found;
      reasons := reasons + {Reason(changed[i])};
    }
  }

  lemma SortedIsDistinct(s: set<string>)
    ensures StrictOrderOn(s, StringLess) && Distinct(Sorted(s, StringLess)) && Elements(Sorted(s, StringLess)) == s
  {
    StringOrder(s);
    var r := Sorted(s, StringLess);
    DistinctCount(r);
    assert Elements(r) == s;
  }

  lemma DistinctNamesCount(definitions: seq<FeatureDefinition>)
    requires DistinctNames(definitions)
    ensures |ByName(definitions)| == |definitions|
    ensures forall d :: d in ByName(definitions) <==> d in definitions
  {
    NameOrder(definitions);
    DistinctCount(definitions);
  }

  lemma ChangedAreFound(h: set<PaymentEvent>, base: StateMap, target: StateMap, baseCutoff: int, targetCutoff: int, changed: seq<string>)
    requires IsStateMap(base, h, baseCutoff) && IsStateMap(target, h, targetCutoff)
    requires forall id :: id in changed <==> id in base.Keys + target.Keys && Get(base, id) != Get(target, id)
    ensures forall id :: ChangedBetween(h, id, baseCutoff, targetCutoff) <==> id in changed
  {
  }

  lemma EventPairsIgnoreOrder(a: seq<FeatureDefinition>, b: seq<FeatureDefinition>, prior: Option<PaymentEvent>,
                              current: Option<PaymentEvent>, eventCutoff: int)
    requires forall d :: d in a <==> d in b
    ensures EventPairs(a, prior, current, eventCutoff) == EventPairs(b, prior, current, eventCutoff)
  {
  }

  lemma PairsAreAffected(definitions: seq<FeatureDefinition>, defs: seq<FeatureDefinition>, h: set<PaymentEvent>,
                         base: StateMap, target: StateMap, eventCutoff: int, baseCutoff: int, targetCutoff: int,
                         changed: seq<string>, pairs: set<Key>)
    requires forall d :: d in definitions <==> d in defs
    requires IsStateMap(base, h, baseCutoff) && IsStateMap(target, h, targetCutoff)
    requires forall id :: ChangedBetween(h, id, baseCutoff, targetCutoff) <==> id in changed
    requires ArePairsOf(pairs, defs, changed, base, target, eventCutoff)
    ensures AreAffected(pairs, definitions, h, eventCutoff, baseCutoff, targetCutoff)
  {
    forall key ensures key in pairs <==> Affected(definitions, h, eventCutoff, baseCutoff, targetCutoff, key) {
      if key in pairs {
        var i :| 0 <= i < |changed| && key in EventPairs(defs, Get(base, changed[i]), Get(target, changed[i]), eventCutoff);
        var id := changed[i];
        EventPairsIgnoreOrder(definitions, defs, StateOf(h, id, baseCutoff), StateOf(h, id, targetCutoff), eventCutoff);
        assert ChangedBetween(h, id, baseCutoff, targetCutoff);
      }
      if Affected(definitions, h, eventCutoff, baseCutoff, targetCutoff, key) {
        var id :| ChangedBetween(h, id, baseCutoff, targetCutoff)
          && key in EventPairs(definitions, StateOf(h, id, baseCutoff), StateOf(h, id, targetCutoff), eventCutoff);
        EventPairsIgnoreOrder(definitions, defs, StateOf(h, id, baseCutoff), StateOf(h, id, targetCutoff), eventCutoff);
        var i :| 0 <= i < |changed| && changed[i] == id;
        assert key in EventPairs(defs, Get(base, changed[i]), Get(target, changed[i]), eventCutoff);
      }
    }
  }

  ghost predicate AreAffected(pairs: set<Key>, definitions: seq<FeatureDefinition>, h: set<PaymentEvent>, eventCutoff: int,
                              baseCutoff: int, targetCutoff: int)
  {
    forall key :: key in pairs <==> Affected(definitions, h, eventCutoff, baseCutoff, targetCutoff, key)
  }

  ghost predicate AreReasons(reasons: set<string>, h: set<PaymentEvent>, baseCutoff: int, targetCutoff: int) {
    && (forall id :: ChangedBetween(h, id, baseCutoff, targetCutoff) ==> Reason(id) in reasons)
    && (forall reason | reason in reasons :: IsReason(reason, h, baseCutoff, targetCutoff))
  }

  ghost predicate IsReason(reason: string, h: set<PaymentEvent>, baseCutoff: int, targetCutoff: int) {
    exists id :: reason == Reason(id) && ChangedBetween(h, id, baseCutoff, targetCutoff)
  }

  lemma ReasonsAreReasons(reasons: set<string>, h: set<PaymentEvent>, baseCutoff: int, targetCutoff: int, changed: seq<string>)
    requires forall id :: ChangedBetween(h, id, baseCutoff, targetCutoff) <==> id in changed
    requires AreReasonsOf(reasons, changed)
    ensures AreReasons(reasons, h, baseCutoff, targetCutoff)
  {
    forall id | ChangedBetween(h, id, baseCutoff, targetCutoff) ensures Reason(id) in reasons {
      var i :| 0 <= i < |changed| && changed[i] == id;
    }
    forall reason | reason in reasons ensures IsReason(reason, h, baseCutoff, targetCutoff) {
      var i :| 0 <= i < |changed| && reason == Reason(changed[i]);
      assert ChangedBetween(h, changed[i], baseCutoff, targetCutoff);
    }
  }

  lemma ScopeIsExact(definitions: seq<FeatureDefinition>, defs: seq<FeatureDefinition>, h: set<PaymentEvent>,
                     base: StateMap, target: StateMap, eventCutoff: int, baseCutoff: int, targetCutoff: int,
                     changed: seq<string>, pairs: set<Key>, reasons: set<string>)
    requires forall d :: d in definitions <==> d in defs
    requires IsStateMap(base, h, baseCutoff) && IsStateMap(target, h, targetCutoff)
    requires forall id :: id in changed <==> id in base.Keys + target.Keys && Get(base, id) != Get(target, id)
    requires ArePairsOf(pairs, defs, changed, base, target, eventCutoff) && AreReasonsOf(reasons, changed)
    ensures AreAffected(pairs, definitions, h, eventCutoff, baseCutoff, targetCutoff)
    ensures AreReasons(reasons, h, baseCutoff, targetCutoff)
  {
    ChangedAreFound(h, base, target, baseCutoff, targetCutoff, changed);
    PairsAreAffected(definitions, defs, h, base, target, eventCutoff, baseCutoff, targetCutoff, changed, pairs);
    ReasonsAreReasons(reasons, h, baseCutoff, targetCutoff, changed);
  }

  method AffectedScope(definitions: seq<FeatureDefinition>, defs: seq<FeatureDefinition>, normalized: seq<PaymentEvent>,
                       ghost h: set<PaymentEvent>, eventCutoff: int, baseCutoff: int, targetCutoff: int)
    returns (pairs: set<Key>, reasons: set<string>)
    requires Unambiguous(h) && normalized == Normalized(h)
    requires forall d :: d in definitions <==> d in defs
    ensures AreAffected(pairs, definitions, h, eventCutoff, baseCutoff, targetCutoff)
    ensures AreReasons(reasons, h, baseCutoff, targetCutoff)
  {
    var base := StateByEvent(normalized, baseCutoff, h);
    var target := StateByEvent(normalized, targetCutoff, h);
    var changedIds := set id | id in base.Keys + target.Keys && Get(base, id) != Get(target, id);
    StringOrder(changedIds);
    var changed := Sorted(changedIds, StringLess);
    pairs, reasons := AffectedPairsOf(defs, changed, base, target, eventCutoff);
    ScopeIsExact(definitions, defs, h, base, target, eventCutoff, baseCutoff, targetCutoff, changed, pairs, reasons);
  }

  function MakePlan(baseCutoff: int, targetCutoff: int, mode: Mode, pairs: set<Key>, reasons: set<string>,
                    normalized: seq<PaymentEvent>): (plan: AffectedScopePlan)
    ensures plan == AffectedScopePlan(baseCutoff, targetCutoff, mode, plan.affectedPairs, plan.reasons, Digest(normalized))
    ensures Increasing(plan.affectedPairs, KeyLess) && |plan.affectedPairs| == |pairs|
    ensures forall key :: key in plan.affectedPairs <==> key in pairs
    ensures forall reason :: reason in plan.reasons <==> reason in reasons
  {
    KeyOrder(pairs);
    StringOrder(reasons);
    AffectedScopePlan(baseCutoff, targetCutoff, mode, Sorted(pairs, KeyLess), Sorted(reasons, StringLess), Digest(normalized))
  }

  method DecideMode(ghost definitions: seq<FeatureDefinition>, normalized: seq<PaymentEvent>, ghost h: set<PaymentEvent>,
                    pairs: set<Key>, reasons: set<string>, customers: nat, defs: nat, ghost eventCutoff: int, baseCutoff: int, targetCutoff: int,
                    maximumPairFraction: real)
    returns (r: Result<AffectedScopePlan, SparkError>)
    requires Unambiguous(h) && normalized == Normalized(h) && customers == |EventCustomers(h)| && defs == |definitions|
    requires AreAffected(pairs, definitions, h, eventCutoff, baseCutoff, targetCutoff)
    requires AreReasons(reasons, h, baseCutoff, targetCutoff)
    ensures r.Ok? <==> 0.0 < maximumPairFraction <= 1.0
    ensures r.Ok? ==> IsPlan(r.value, definitions, h, eventCutoff, baseCutoff, targetCutoff, maximumPairFraction)
  {
    var fraction := PairFractionOf(|pairs|, customers, defs);
    if !(0.0 < maximumPairFraction <= 1.0) {
      return Err(PairFraction);
    }
    var plan := MakePlan(baseCutoff, targetCutoff, IncrementalMode, pairs, reasons, normalized);
    if fraction > maximumPairFraction {
      plan := MakePlan(baseCutoff, targetCutoff, FullMode, pairs, reasons + {THRESHOLD_REASON}, normalized);
    }
    r := Ok(plan);
  }

  lemma NormalizedCustomers(h: set<PaymentEvent>)
    requires Unambiguous(h)
    ensures CustomersOf(Normalized(h)) == EventCustomers(h)
  {
    RevisionOrder(h);
    assert forall e :: e in Normalized(h) <==> e in h;
  }

  method PlanAffectedScope(definitions: seq<FeatureDefinition>, events: seq<PaymentEvent>, eventCutoff: int,
                           baseKnowledgeCutoff: int, targetKnowledgeCutoff: int, maximumPairFraction: real)
    returns (r: Result<AffectedScopePlan, SparkError>)
    requires forall i | 0 <= i < |events| :: events[i].Valid()
    ensures r.Ok? <==> PlanAccepted(definitions, History(events), eventCutoff, baseKnowledgeCutoff, targetKnowledgeCutoff, maximumPairFraction)
    ensures r.Ok? ==> IsPlan(r.value, definitions, History(events), eventCutoff, baseKnowledgeCutoff, targetKnowledgeCutoff, maximumPairFraction)
  {
    if baseKnowledgeCutoff < 0 {
      return Err(NegativeCutoffs);
    }
    if baseKnowledgeCutoff > targetKnowledgeCutoff {
      return Err(TargetPrecedesBase);
    }
    hide Unambiguous;
    hide GoodDefinitions;
    hide Sorted;
    ghost var h := History(events);
    SortedIsDistinct(CustomersOf(events));
    assert CustomersOf(events) == EventCustomers(h);
    var inputs :- ValidateInputs(definitions, events, Sorted(CustomersOf(events), StringLess), eventCutoff, targetKnowledgeCutoff);
    var (defs, normalized, _) := inputs;
    DistinctNamesCount(definitions);
    RevisionOrder(h);
    var pairs, reasons := AffectedScope(definitions, defs, normalized, h, eventCutoff, baseKnowledgeCutoff, targetKnowledgeCutoff);
    var customers := CustomersOf(normalized);
    NormalizedCustomers(h);
    r := DecideMode(definitions, normalized, h, pairs, reasons, |customers|, |defs|, eventCutoff,
                    baseKnowledgeCutoff, targetKnowledgeCutoff, maximumPairFraction);
  }

  // ---- Incremental rebuild ------------------------------------------------------------------------

  /** `{(value.customer_id, value.feature_name): value for value in values}` */
  function ByKey(values: seq<FeatureValue>): (m: map<Key, FeatureValue>)
    ensures forall i | 0 <= i < |values| :: (values[i].customerId, values[i].featureName) in m
    ensures forall k | k in m :: (m[k].customerId, m[k].featureName) == k && m[k] in values
  {
    if values == [] then map[] else
      var last := |values| - 1;
      assert values == values[..last] + [values[last]];
      ByKey(values[..last])[(values[last].customerId, values[last].featureName) := values[last]]
  }

  /** A preserved value, declared again at the target generation and frontier. */
  function Reenvelope(source: FeatureValue, generationId: string, eventCutoff: int, cutoff: int): FeatureValue {
    source.(eventTime := eventCutoff, knowledgeTime := cutoff, generationId := generationId)
  }

  /** The predecessor's rows are those its manifest declares, at its frontier. */
  predicate BoundToManifest(base: SparkBuild, eventCutoff: int) {
    && base.manifest.contract == ARTIFACT_CONTRACT
    && base.manifest.generationId == base.generationId
    && base.manifest.rowCount == |base.values|
    && base.manifest.rowsDigest == Digest(base.values)
    && base.manifest.eventCutoff == eventCutoff
    && forall v | v in base.values ::
         v.generationId == base.generationId && v.eventTime == eventCutoff && v.knowledgeTime == base.manifest.knowledgeCutoff
  }

  /** Affected keys come from the target frontier, every other key from the predecessor. */
  ghost predicate IsMergedTable(values: seq<FeatureValue>, base: seq<FeatureValue>, affected: set<Key>, generationId: string,
                                defs: seq<FeatureDefinition>, events: seq<PaymentEvent>, customers: seq<string>,
                                eventCutoff: int, targetCutoff: int)
  {
    var keys := OrderedKeys(customers, defs);
    |values| == |keys|
    && forall i | 0 <= i < |keys| ::
         IsMergedRow(values[i], keys[i], base, affected, generationId, defs, events, eventCutoff, targetCutoff)
  }

  ghost predicate IsMergedRow(row: FeatureValue, key: Key, base: seq<FeatureValue>, affected: set<Key>, generationId: string,
                              defs: seq<FeatureDefinition>, events: seq<PaymentEvent>, eventCutoff: int, targetCutoff: int)
  {
    && key.1 in DefinitionByName(defs) && key in ByKey(base)
    && row == if key in affected
              then RowFor(key, generationId, defs, events, eventCutoff, targetCutoff)
              else Reenvelope(ByKey(base)[key], generationId, eventCutoff, targetCutoff)
  }

  method CheckPredecessor(base: SparkBuild, eventCutoff: int) returns (r: Result<(), SparkError>)
    ensures r.Ok? <==> BoundToManifest(base, eventCutoff)
  {
    if base.manifest.contract != ARTIFACT_CONTRACT {
      return Err(UnsupportedContract);
    }
    if base.manifest.generationId != base.generationId {
      return Err(IdentityMismatch);
    }
    if base.manifest.rowCount != |base.values| {
      return Err(RowCountMismatch);
    }
    if base.manifest.rowsDigest != Digest(base.values) {
      return Err(RowDigestMismatch);
    }
    if base.manifest.eventCutoff != eventCutoff {
      return Err(EventCutoffDiffers);
    }
    if exists v | v in base.values ::
         v.generationId != base.generationId || v.eventTime != eventCutoff || v.knowledgeTime != base.manifest.knowledgeCutoff {
      return Err(UnboundRows);
    }
    r := Ok(());
  }

  lemma AffectedKeysAreRecomputed(affected: set<Key>, defs: seq<FeatureDefinition>, customers: seq<string>, key: Key)
    requires key in affected && key in KeySet(customers, defs)
    ensures key in KeySet(InOrder(SortedCustomers(affected)), defs)
  {
    SortedIsDistinct(set k | k in affected :: k.0);
    SortedIsDistinct(Elements(SortedCustomers(affected)));
    var c, d :| c in customers && d in defs && key == (c, d.name);
    assert key.0 in SortedCustomers(affected);
    assert key.0 in InOrder(SortedCustomers(affected));
  }

  function SortedCustomers(affected: set<Key>): seq<string> {
    StringOrder(set k | k in affected :: k.0);
    Sorted((set k | k in affected :: k.0), StringLess)
  }

  lemma FullTableHoldsKey(values: seq<FeatureValue>, generationId: string, defs: seq<FeatureDefinition>, events: seq<PaymentEvent>,
                          customers: seq<string>, eventCutoff: int, cutoff: int, key: Key)
    requires IsFullTable(values, generationId, defs, events, customers, eventCutoff, cutoff)
    requires key in KeySet(customers, defs)
    ensures key in ByKey(values) && key.1 in DefinitionByName(defs)
    ensures ByKey(values)[key] == RowFor(key, generationId, defs, events, eventCutoff, cutoff)
  {
    hide ValueFor;
    KeyOrder(KeySet(customers, defs));
    var keys := OrderedKeys(customers, defs);
    var i :| 0 <= i < |keys| && keys[i] == key;
    assert (values[i].customerId, values[i].featureName) == key;
    var v := ByKey(values)[key];
    var j :| 0 <= j < |values| && values[j] == v;
    assert keys[j] == key;
  }

  /** The recomputed table holds the target row of every affected key. */
  ghost predicate HoldsAffected(recomputed: map<Key, FeatureValue>, affected: set<Key>, generationId: string, defs: seq<FeatureDefinition>,
                                events: seq<PaymentEvent>, customers: seq<string>, eventCutoff: int, cutoff: int)
  {
    forall key | key in affected && key in KeySet(customers, defs) ::
      && key in recomputed && key.1 in DefinitionByName(defs)
      && recomputed[key] == RowFor(key, generationId, defs, events, eventCutoff, cutoff)
  }

  /** Either source row, declared again at the target, is the merged row of its key. */
  lemma MergedRow(key: Key, base: seq<FeatureValue>, recomputed: map<Key, FeatureValue>, affected: set<Key>, generationId: string,
                  defs: seq<FeatureDefinition>, events: seq<PaymentEvent>, customers: seq<string>, eventCutoff: int, cutoff: int)
    requires key in KeySet(customers, defs) && key in ByKey(base)
    requires HoldsAffected(recomputed, affected, generationId, defs, events, customers, eventCutoff, cutoff)
    ensures key in affected ==> key in recomputed
    ensures var source := if key in affected then recomputed[key] else ByKey(base)[key];
            IsMergedRow(Reenvelope(source, generationId, eventCutoff, cutoff), key, base, affected, generationId, defs, events,
                        eventCutoff, cutoff)
  {
    KeyHasDefinition(customers, defs, key);
  }

  method Merge(base: SparkBuild, recomputed: map<Key, FeatureValue>, affected: set<Key>, generationId: string,
               defs: seq<FeatureDefinition>, ghost events: seq<PaymentEvent>, customers: seq<string>, eventCutoff: int, targetCutoff: int)
    returns (combined: seq<FeatureValue>)
    requires ByKey(base.values).Keys == KeySet(customers, defs)
    requires HoldsAffected(recomputed, affected, generationId, defs, events, customers, eventCutoff, targetCutoff)
    ensures IsMergedTable(combined, base.values, affected, generationId, defs, events, customers, eventCutoff, targetCutoff)
  {
    hide HoldsAffected;
    hide Reenvelope;
    hide ByKey;
    hide MergedUpTo;
    hide Sorted;
    hide KeySet;
    var baseByKey := ByKey(base.values);
    KeyOrder(KeySet(customers, defs));
    var keys := Sorted(KeySet(customers, defs), KeyLess);
    combined := [];
    NothingMerged(keys, base.values, affected, generationId, defs, events, eventCutoff, targetCutoff);
    for i := 0 to |keys|
      invariant MergedUpTo(combined, keys, i, base.values, affected, generationId, defs, events, eventCutoff, targetCutoff)
    {
      assert keys[i] in KeySet(customers, defs);
      MergedRow(keys[i], base.values, recomputed, affected, generationId, defs, events, customers, eventCutoff, targetCutoff);
      var source := if keys[i] in affected then recomputed[keys[i]] else baseByKey[keys[i]];
      var row := Reenvelope(source, generationId, eventCutoff, targetCutoff);
      MergedNext(combined, keys, i, row, base.values, affected, generationId, defs, events, eventCutoff, targetCutoff);
      combined := combined + [row];
    }
    AllMerged(combined, base.values, affected, generationId, defs, events, customers, eventCutoff, targetCutoff);
  }

  /** The first `n` keys have their merged rows. */
  ghost predicate MergedUpTo(values: seq<FeatureValue>, keys: seq<Key>, n: nat, base: seq<FeatureValue>, affected: set<Key>, generationId: string,
                             defs: seq<FeatureDefinition>, events: seq<PaymentEvent>, eventCutoff: int, targetCutoff: int)
    requires n <= |keys|
  {
    |values| == n
    && forall i | 0 <= i < n :: IsMergedRow(values[i], keys[i], base, affected, generationId, defs, events, eventCutoff, targetCutoff)
  }

  lemma NothingMerged(keys: seq<Key>, base: seq<FeatureValue>, affected: set<Key>, generationId: string,
                      defs: seq<FeatureDefinition>, events: seq<PaymentEvent>, eventCutoff: int, targetCutoff: int)
    ensures MergedUpTo([], keys, 0, base, affected, generationId, defs, events, eventCutoff, targetCutoff)
  {
  }

  lemma MergedNext(values: seq<FeatureValue>, keys: seq<Key>, n: nat, row: FeatureValue, base: seq<FeatureValue>, affected: set<Key>,
                   generationId: string, defs: seq<FeatureDefinition>, events: seq<PaymentEvent>, eventCutoff: int, targetCutoff: int)
    requires n < |keys| && MergedUpTo(values, keys, n, base, affected, generationId, defs, events, eventCutoff, targetCutoff)
    requires IsMergedRow(row, keys[n], base, affected, generationId, defs, events, eventCutoff, targetCutoff)
    ensures MergedUpTo(values + [row], keys, n + 1, base, affected, generationId, defs, events, eventCutoff, targetCutoff)
  {
    hide IsMergedRow;
  }

  lemma AllMerged(values: seq<FeatureValue>, base: seq<FeatureValue>, affected: set<Key>, generationId: string,
                  defs: seq<FeatureDefinition>, events: seq<PaymentEvent>, customers: seq<string>, eventCutoff: int, targetCutoff: int)
    requires MergedUpTo(values, OrderedKeys(customers, defs), |OrderedKeys(customers, defs)|, base, affected, generationId, defs, events,
                        eventCutoff, targetCutoff)
    ensures IsMergedTable(values, base, affected, generationId, defs, events, customers, eventCutoff, targetCutoff)
  {
    hide IsMergedRow;
    hide OrderedKeys;
  }

  lemma CanonicalInputsAreFixed(definitions: seq<FeatureDefinition>, h: set<PaymentEvent>)
    requires DistinctNames(definitions) && Unambiguous(h)
    ensures DistinctNames(ByName(definitions)) && ByName(ByName(definitions)) == ByName(definitions)
    ensures History(Normalized(h)) == h
  {
    NameOrder(definitions);
    RevisionOrder(h);
    CanonicalInputsAreDistinct(definitions, []);
    assert Elements(ByName(definitions)) == Elements(definitions);
  }

  /** The customers of the affected keys are customers of revisions, so the scope planner has
      already accepted all that their own full rebuild checks but the generation id. */
  lemma AffectedCustomersAreAccepted(definitions: seq<FeatureDefinition>, h: set<PaymentEvent>, affected: set<Key>, eventCutoff: int,
                                     baseCutoff: int, targetCutoff: int, maximumPairFraction: real)
    requires PlanAccepted(definitions, h, eventCutoff, baseCutoff, targetCutoff, maximumPairFraction)
    requires forall e | e in h :: e.Valid()
    requires forall k | k in affected :: k.0 in EventCustomers(h)
    ensures Accepted(ByName(definitions), h, SortedCustomers(affected), eventCutoff, targetCutoff)
  {
    hide Unambiguous;
    hide EventCustomers;
    hide SortedCustomers;
    hide ByName;
    CanonicalInputsAreFixed(definitions, h);
    DistinctNamesCount(definitions);
    AffectedCustomersAreGood(h, affected);
    Scaled(|SortedCustomers(affected)|, |EventCustomers(h)|, |definitions|);
  }

  lemma AffectedCustomersAreGood(h: set<PaymentEvent>, affected: set<Key>)
    requires forall e | e in h :: e.Valid()
    requires forall k | k in affected :: k.0 in EventCustomers(h)
    ensures GoodCustomers(SortedCustomers(affected)) && |SortedCustomers(affected)| <= |EventCustomers(h)|
  {
    var names := set k | k in affected :: k.0;
    SortedIsDistinct(names);
    DistinctCount(SortedCustomers(affected));
    assert names <= EventCustomers(h);
    SubsetSize(names, EventCustomers(h));
    assert "" !in EventCustomers(h);
  }

  lemma Scaled(a: nat, b: nat, n: nat)
    requires a <= b
    ensures a * n <= b * n
  {
  }

  /** The rows of the affected keys, by a full rebuild of the affected customers alone: it can be
      refused for the generation id only, and with nothing affected for nothing at all. */
  method RecomputeAffected(generationId: string, definitions: seq<FeatureDefinition>, defs: seq<FeatureDefinition>,
                           normalized: seq<PaymentEvent>, ghost h: set<PaymentEvent>, ghost customers: seq<string>,
                           affected: set<Key>, eventCutoff: int, ghost baseCutoff: int, targetCutoff: int,
                           ghost maximumPairFraction: real)
    returns (r: Result<map<Key, FeatureValue>, SparkError>)
    requires PlanAccepted(definitions, h, eventCutoff, baseCutoff, targetCutoff, maximumPairFraction)
    requires forall e | e in h :: e.Valid()
    requires forall k | k in affected :: k.0 in EventCustomers(h)
    requires defs == ByName(definitions) && normalized == Normalized(h)
    ensures r.Ok? <==> affected == {} || ValidGenerationId(generationId)
    ensures r.Ok? ==> HoldsAffected(r.value, affected, generationId, defs, normalized, customers, eventCutoff, targetCutoff)
  {
    hide ValidGenerationId;
    CanonicalInputsAreFixed(definitions, h);
    AffectedCustomersAreAccepted(definitions, h, affected, eventCutoff, baseCutoff, targetCutoff, maximumPairFraction);
    var affectedCustomers := SortedCustomers(affected);
    SortedIsDistinct(set k | k in affected :: k.0);
    if affectedCustomers == [] {
      assert forall k | k in affected :: k.0 in affectedCustomers;
      return Ok(map[]);
    }
    assert affected != {} by {
      assert affectedCustomers[0] in Elements(affectedCustomers);
    }
    var recomputed :- FullRebuild(generationId, defs, normalized, affectedCustomers, eventCutoff, targetCutoff);
    forall key | key in affected && key in KeySet(customers, defs)
      ensures key in ByKey(recomputed.values) && key.1 in DefinitionByName(defs)
      ensures ByKey(recomputed.values)[key] == RowFor(key, generationId, defs, normalized, eventCutoff, targetCutoff)
    {
      AffectedKeysAreRecomputed(affected, defs, customers, key);
      FullTableHoldsKey(recomputed.values, generationId, defs, normalized, InOrder(affectedCustomers), eventCutoff, targetCutoff, key);
    }
    r := Ok(ByKey(recomputed.values));
  }

  /** What an incremental-mode step demands of its predecessor beside its own manifest. */
  ghost predicate CompatibleBase(base: SparkBuild, definitions: seq<FeatureDefinition>, customerIds: seq<string>)
    requires DistinctNames(definitions)
  {
    && base.manifest.definitionSetDigest == Digest(ByName(definitions))
    && base.manifest.customerDigest == Digest(InOrder(customerIds))
    && ByKey(base.values).Keys == KeySet(InOrder(customerIds), ByName(definitions))
  }

  /** When `incremental_rebuild` succeeds. The generation id is looked at only by a full rebuild,
      and a step that affects no key performs none. */
  ghost predicate StepAccepted(generationId: string, definitions: seq<FeatureDefinition>, h: set<PaymentEvent>, customerIds: seq<string>,
                               base: SparkBuild, eventCutoff: int, targetCutoff: int, maximumPairFraction: real)
  {
    var baseCutoff := base.manifest.knowledgeCutoff;
    && BoundToManifest(base, eventCutoff)
    && PlanAccepted(definitions, h, eventCutoff, baseCutoff, targetCutoff, maximumPairFraction)
    && Accepted(definitions, h, customerIds, eventCutoff, targetCutoff)
    && (TakesFullMode(definitions, h, eventCutoff, baseCutoff, targetCutoff, maximumPairFraction)
        || CompatibleBase(base, definitions, customerIds))
    && (AffectedPairs(definitions, h, eventCutoff, baseCutoff, targetCutoff) == {} || ValidGenerationId(generationId))
  }

  /** What a successful incremental rebuild returns. */
  ghost predicate IsIncrementalBuild(build: SparkBuild, plan: AffectedScopePlan, generationId: string,
                                     definitions: seq<FeatureDefinition>, h: set<PaymentEvent>, customerIds: seq<string>,
                                     base: SparkBuild, eventCutoff: int, targetCutoff: int, maximumPairFraction: real)
  {
    && StepAccepted(generationId, definitions, h, customerIds, base, eventCutoff, targetCutoff, maximumPairFraction)
    && IsPlan(plan, definitions, h, eventCutoff, base.manifest.knowledgeCutoff, targetCutoff, maximumPairFraction)
    && (var defs, normalized, customers := ByName(definitions), Normalized(h), InOrder(customerIds);
        && build == SparkBuild(generationId, build.values,
                               ManifestOf(generationId, defs, normalized, customers, build.values, eventCutoff, targetCutoff))
        && if plan.mode.FullMode? then
             IsFullTable(build.values, generationId, defs, normalized, customers, eventCutoff, targetCutoff)
           else
             IsMergedTable(build.values, base.values, Elements(plan.affectedPairs), generationId, defs, normalized,
                           customers, eventCutoff, targetCutoff))
  }

  lemma NoPairsNoFullMode(definitions: seq<FeatureDefinition>, h: set<PaymentEvent>, eventCutoff: int,
                          baseCutoff: int, targetCutoff: int, maximumPairFraction: real)
    requires 0.0 < maximumPairFraction
    requires TakesFullMode(definitions, h, eventCutoff, baseCutoff, targetCutoff, maximumPairFraction)
    ensures AffectedPairs(definitions, h, eventCutoff, baseCutoff, targetCutoff) != {}
  {
  }

  method IncrementalRebuild(generationId: string, definitions: seq<FeatureDefinition>, events: seq<PaymentEvent>,
                            customerIds: seq<string>, base: SparkBuild, eventCutoff: int, targetKnowledgeCutoff: int,
                            maximumPairFraction: real)
    returns (r: Result<(SparkBuild, AffectedScopePlan), SparkError>)
    requires forall i | 0 <= i < |events| :: events[i].Valid()
    ensures r.Ok? <==> StepAccepted(generationId, definitions, History(events), customerIds, base, eventCutoff,
                                    targetKnowledgeCutoff, maximumPairFraction)
    ensures r.Ok? ==> IsIncrementalBuild(r.value.0, r.value.1, generationId, definitions, History(events), customerIds,
                                         base, eventCutoff, targetKnowledgeCutoff, maximumPairFraction)
  {
    hide Accepted;
    hide TakesFullMode;
    hide AffectedPairs;
    hide IsFullTable;
    hide IsMergedTable;
    hide BoundToManifest;
    hide CompatibleBase;
    hide ValidGenerationId;
    var _ :- CheckPredecessor(base, eventCutoff);
    var plan :- PlanAffectedScope(definitions, events, eventCutoff, base.manifest.knowledgeCutoff, targetKnowledgeCutoff,
                                  maximumPairFraction);
    ghost var h := History(events);
    PlanIsDetermined(plan, definitions, h, eventCutoff, base.manifest.knowledgeCutoff, targetKnowledgeCutoff, maximumPairFraction);
    if plan.mode.FullMode? {
      NoPairsNoFullMode(definitions, h, eventCutoff, base.manifest.knowledgeCutoff, targetKnowledgeCutoff, maximumPairFraction);
      var target :- FullRebuild(generationId, definitions, events, customerIds, eventCutoff, targetKnowledgeCutoff);
      return Ok((target, plan));
    }
    var merged :- MergeTarget(generationId, definitions, events, customerIds, base, plan, eventCutoff, targetKnowledgeCutoff,
                              maximumPairFraction);
    r := Ok((merged, plan));
  }

  method MergeTarget(generationId: string, definitions: seq<FeatureDefinition>, events: seq<PaymentEvent>,
                     customerIds: seq<string>, base: SparkBuild, plan: AffectedScopePlan, eventCutoff: int, targetCutoff: int,
                     ghost maximumPairFraction: real)
    returns (r: Result<SparkBuild, SparkError>)
    requires forall i | 0 <= i < |events| :: events[i].Valid()
    requires PlanAccepted(definitions, History(events), eventCutoff, base.manifest.knowledgeCutoff, targetCutoff, maximumPairFraction)
    requires IsPlan(plan, definitions, History(events), eventCutoff, base.manifest.knowledgeCutoff, targetCutoff, maximumPairFraction)
    ensures r.Ok? <==>
      && Accepted(definitions, History(events), customerIds, eventCutoff, targetCutoff)
      && CompatibleBase(base, definitions, customerIds)
      && (Elements(plan.affectedPairs) == {} || ValidGenerationId(generationId))
    ensures r.Ok? ==>
      var defs, normalized, customers := ByName(definitions), Normalized(History(events)), InOrder(customerIds);
      && r.value == SparkBuild(generationId, r.value.values,
                               ManifestOf(generationId, defs, normalized, customers, r.value.values, eventCutoff, targetCutoff))
      && IsMergedTable(r.value.values, base.values, Elements(plan.affectedPairs), generationId, defs, normalized,
                       customers, eventCutoff, targetCutoff)
  {
    hide Accepted;
    hide IsMergedTable;
    hide HoldsAffected;
    hide ValidGenerationId;
    var affected := Elements(plan.affectedPairs);
    ghost var h := History(events);
    var inputs :- ValidateInputs(definitions, events, customerIds, eventCutoff, targetCutoff);
    var (defs, normalized, customers) := inputs;
    if base.manifest.definitionSetDigest != Digest(defs) {
      return Err(IncompatibleDefinitions);
    }
    if base.manifest.customerDigest != Digest(customers) {
      return Err(IncompatibleCustomers);
    }
    if ByKey(base.values).Keys != KeySet(customers, defs) {
      return Err(IncompatibleKeyset);
    }
    forall key | key in affected ensures key.0 in EventCustomers(h) {
      AffectedPairsAreAffected(definitions, h, eventCutoff, base.manifest.knowledgeCutoff, targetCutoff, key);
    }
    var recomputed :- RecomputeAffected(generationId, definitions, defs, normalized, h, customers, affected,
                                        eventCutoff, base.manifest.knowledgeCutoff, targetCutoff, maximumPairFraction);
    var combined := Merge(base, recomputed, affected, generationId, defs, normalized, customers, eventCutoff, targetCutoff);
    r := Ok(SparkBuild(generationId, combined,
                       ManifestOf(generationId, defs, normalized, customers, combined, eventCutoff, targetCutoff)));
  }

  // ---- Incremental equals full ----------------------------------------------------------------------

  /** Scope soundness: a key outside the affected pairs has the same rows to aggregate, and so
      the same value, at both frontiers; for every computation, with corrections that move event
      time across a window edge and with retractions. */
  lemma ScopeIsSound(definitions: seq<FeatureDefinition>, h: set<PaymentEvent>, d: FeatureDefinition, customerId: string,
                     eventCutoff: int, baseCutoff: int, targetCutoff: int)
    requires Unambiguous(h) && d in definitions
    requires !Affected(definitions, h, eventCutoff, baseCutoff, targetCutoff, (customerId, d.name))
    ensures Eligible(Normalized(h), d, customerId, eventCutoff, baseCutoff) == Eligible(Normalized(h), d, customerId, eventCutoff, targetCutoff)
    ensures ValueFor(Normalized(h), d, customerId, eventCutoff, baseCutoff) == ValueFor(Normalized(h), d, customerId, eventCutoff, targetCutoff)
  {
    var a, b := Eligible(Normalized(h), d, customerId, eventCutoff, baseCutoff), Eligible(Normalized(h), d, customerId, eventCutoff, targetCutoff);
    forall e ensures e in a <==> e in b {
      EligibleIsState(h, d, customerId, eventCutoff, baseCutoff, e);
      EligibleIsState(h, d, customerId, eventCutoff, targetCutoff, e);
      if e in a && e !in b {
        UnaffectedStateStays(definitions, h, d, e, eventCutoff, baseCutoff, targetCutoff, baseCutoff);
      }
      if e in b && e !in a {
        UnaffectedStateStays(definitions, h, d, e, eventCutoff, baseCutoff, targetCutoff, targetCutoff);
      }
    }
    EligibleIsOrdered(h, d, customerId, eventCutoff, baseCutoff);
    EligibleIsOrdered(h, d, customerId, eventCutoff, targetCutoff);
    SameEligible(h, a, b);
  }

  lemma EligibleIsState(h: set<PaymentEvent>, d: FeatureDefinition, customerId: string, eventCutoff: int, k: int, e: PaymentEvent)
    requires Unambiguous(h)
    ensures e in Eligible(Normalized(h), d, customerId, eventCutoff, k)
       <==> IsState(h, e, k) && e.customerId == customerId && InWindow(d, e, eventCutoff)
  {
    RevisionOrder(h);
    var events := Normalized(h);
    assert forall f :: f in events <==> f in h;
    if IsState(h, e, k) {
      forall f | f in events && f.knowledgeTime <= k && f.eventId == e.eventId
        ensures f == e || f.knowledgeTime < e.knowledgeTime
      {
        assert !ClockConflict(f, e) && !RevisionConflict(f, e);
      }
      assert RankedFirst(events, e, k);
    }
    if e in events && RankedFirst(events, e, k) {
      assert IsLatest(h, e, k);
    }
  }

  lemma EligibleIsOrdered(h: set<PaymentEvent>, d: FeatureDefinition, customerId: string, eventCutoff: int, k: int)
    requires Unambiguous(h)
    ensures Increasing(Eligible(Normalized(h), d, customerId, eventCutoff, k), RevisionLess)
    ensures forall e | e in Eligible(Normalized(h), d, customerId, eventCutoff, k) :: e in h
  {
    RevisionOrder(h);
    var events := Normalized(h);
    FilterKeepsOrder(events, (e: PaymentEvent) => RankedFirst(events, e, k) && e.operation.Upsert?, RevisionLess);
    FilterKeepsOrder(AuthoritativeEvents(events, k), (e: PaymentEvent) => e.customerId == customerId && InWindow(d, e, eventCutoff), RevisionLess);
  }

  lemma SameEligible(h: set<PaymentEvent>, a: seq<PaymentEvent>, b: seq<PaymentEvent>)
    requires Unambiguous(h) && forall e | e in a :: e in h
    requires Increasing(a, RevisionLess) && Increasing(b, RevisionLess)
    requires forall e :: e in a <==> e in b
    ensures a == b
  {
    RevisionOrder(h);
    IncreasingIsUnique(a, b, RevisionLess);
  }

  lemma UnaffectedStateStays(definitions: seq<FeatureDefinition>, h: set<PaymentEvent>, d: FeatureDefinition, e: PaymentEvent,
                             eventCutoff: int, baseCutoff: int, targetCutoff: int, k: int)
    requires Unambiguous(h) && d in definitions && (k == baseCutoff || k == targetCutoff)
    requires !Affected(definitions, h, eventCutoff, baseCutoff, targetCutoff, (e.customerId, d.name))
    requires IsState(h, e, k) && InWindow(d, e, eventCutoff)
    ensures IsState(h, e, baseCutoff) && IsState(h, e, targetCutoff)
  {
    StateIsUnique(h, e, k);
    var prior, current := StateOf(h, e.eventId, baseCutoff), StateOf(h, e.eventId, targetCutoff);
    assert e in Candidates(prior, current);
    assert (e.customerId, d.name) in EventPairs(definitions, prior, current, eventCutoff);
    assert !ChangedBetween(h, e.eventId, baseCutoff, targetCutoff);
  }
}
