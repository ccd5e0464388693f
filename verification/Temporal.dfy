/** Revision normalization and bitemporal selection: `src/featureforge/temporal.py`. */
module Temporal {
  import opened Ordering
  import opened Model

  datatype TemporalError = RevisionReused | CustomerChanged | ConflictingRevisions | NegativeCutoff

  // ---- Ambiguity -------------------------------------------------------------------------

  predicate RevisionConflict(a: PaymentEvent, b: PaymentEvent) {
    a.revisionId == b.revisionId && a != b
  }

  predicate CustomerConflict(a: PaymentEvent, b: PaymentEvent) {
    a.eventId == b.eventId && a.customerId != b.customerId
  }

  predicate ClockConflict(a: PaymentEvent, b: PaymentEvent) {
    a.eventId == b.eventId && a.knowledgeTime == b.knowledgeTime && a.revisionId != b.revisionId
  }

  predicate Conflict(a: PaymentEvent, b: PaymentEvent, error: TemporalError) {
    match error
    case RevisionReused => RevisionConflict(a, b)
    case CustomerChanged => CustomerConflict(a, b)
    case ConflictingRevisions => ClockConflict(a, b)
    case NegativeCutoff => false
  }

  /** A history that can be read without inventing an order between its revisions. */
  ghost predicate Unambiguous(h: set<PaymentEvent>) {
    forall a, b | a in h && b in h ::
      !RevisionConflict(a, b) && !CustomerConflict(a, b) && !ClockConflict(a, b)
  }

  function History(events: seq<PaymentEvent>): (h: set<PaymentEvent>)
    ensures forall e :: e in h <==> e in events
  {
    set e | e in events
  }

  // ---- Canonical order ---------------------------------------------------------------------

  /** `(event_id, knowledge_time, revision_id)` */
  predicate RevisionLess(a: PaymentEvent, b: PaymentEvent) {
    StringLess(a.eventId, b.eventId)
    || (a.eventId == b.eventId
        && (a.knowledgeTime < b.knowledgeTime
            || (a.knowledgeTime == b.knowledgeTime && StringLess(a.revisionId, b.revisionId))))
  }

  /** `(event_time, event_id, revision_id)` */
  predicate BusinessLess(a: PaymentEvent, b: PaymentEvent) {
    a.eventTime < b.eventTime
    || (a.eventTime == b.eventTime
        && (StringLess(a.eventId, b.eventId)
            || (a.eventId == b.eventId && StringLess(a.revisionId, b.revisionId))))
  }

  lemma RevisionOrder(h: set<PaymentEvent>)
    requires Unambiguous(h)
    ensures StrictOrderOn(h, RevisionLess)
  {
    forall a, b | a in h && b in h ensures !(RevisionLess(a, b) && RevisionLess(b, a)) {
      StringLessAsymmetric(a.eventId, b.eventId);
      StringLessAsymmetric(a.revisionId, b.revisionId);
    }
    forall a, b | a in h && b in h && a != b ensures RevisionLess(a, b) || RevisionLess(b, a) {
      if a.eventId != b.eventId { StringLessConnected(a.eventId, b.eventId); }
      assert !RevisionConflict(a, b);
      StringLessConnected(a.revisionId, b.revisionId);
    }
    forall a, b, c | a in h && b in h && c in h && RevisionLess(a, b) && RevisionLess(b, c)
      ensures RevisionLess(a, c)
    {
      RevisionLessTransitive(a, b, c);
    }
  }

  lemma RevisionLessTransitive(a: PaymentEvent, b: PaymentEvent, c: PaymentEvent)
    requires RevisionLess(a, b) && RevisionLess(b, c)
    ensures RevisionLess(a, c)
  {
    if StringLess(a.eventId, b.eventId) && StringLess(b.eventId, c.eventId) {
      StringLessTransitive(a.eventId, b.eventId, c.eventId);
    }
    if StringLess(a.revisionId, b.revisionId) && StringLess(b.revisionId, c.revisionId) {
      StringLessTransitive(a.revisionId, b.revisionId, c.revisionId);
    }
  }

  lemma BusinessOrder(h: set<PaymentEvent>)
    requires Unambiguous(h)
    ensures StrictOrderOn(h, BusinessLess)
  {
    forall a, b | a in h && b in h ensures !(BusinessLess(a, b) && BusinessLess(b, a)) {
      StringLessAsymmetric(a.eventId, b.eventId);
      StringLessAsymmetric(a.revisionId, b.revisionId);
    }
    forall a, b | a in h && b in h && a != b ensures BusinessLess(a, b) || BusinessLess(b, a) {
      if a.eventId != b.eventId { StringLessConnected(a.eventId, b.eventId); }
      assert !RevisionConflict(a, b);
      StringLessConnected(a.revisionId, b.revisionId);
    }
    forall a, b, c | a in h && b in h && c in h && BusinessLess(a, b) && BusinessLess(b, c)
      ensures BusinessLess(a, c)
    {
      BusinessLessTransitive(a, b, c);
    }
  }

  lemma BusinessLessTransitive(a: PaymentEvent, b: PaymentEvent, c: PaymentEvent)
    requires BusinessLess(a, b) && BusinessLess(b, c)
    ensures BusinessLess(a, c)
  {
    if StringLess(a.eventId, b.eventId) && StringLess(b.eventId, c.eventId) {
      StringLessTransitive(a.eventId, b.eventId, c.eventId);
    }
    if StringLess(a.revisionId, b.revisionId) && StringLess(b.revisionId, c.revisionId) {
      StringLessTransitive(a.revisionId, b.revisionId, c.revisionId);
    }
  }

  ghost function Normalized(h: set<PaymentEvent>): (r: seq<PaymentEvent>)
    requires Unambiguous(h)
  {
    RevisionOrder(h);
    Sorted(h, RevisionLess)
  }

  ghost predicate IndexesEvent(e: PaymentEvent, revisions: map<string, PaymentEvent>,
                               customers: map<string, string>, clocks: map<(string, int), string>)
  {
    && e.revisionId in revisions && revisions[e.revisionId] == e
    && e.eventId in customers && customers[e.eventId] == e.customerId
    && (e.eventId, e.knowledgeTime) in clocks && clocks[(e.eventId, e.knowledgeTime)] == e.revisionId
  }

  ghost predicate HasEvent(h: set<PaymentEvent>, eventId: string) {
    exists e | e in h :: e.eventId == eventId
  }

  ghost predicate HasClock(h: set<PaymentEvent>, clock: (string, int)) {
    exists e | e in h :: (e.eventId, e.knowledgeTime) == clock
  }

  /** What the three dictionaries of `normalize_events` hold after the revisions `h`. */
  ghost predicate Indexed(h: set<PaymentEvent>, revisions: map<string, PaymentEvent>,
                          customers: map<string, string>, clocks: map<(string, int), string>)
  {
    && (forall e | e in h :: IndexesEvent(e, revisions, customers, clocks))
    && (forall k | k in revisions :: revisions[k] in h && revisions[k].revisionId == k)
    && (forall k | k in customers :: HasEvent(h, k))
    && (forall k | k in clocks :: HasClock(h, k))
  }

  lemma IndexedIsUnambiguous(h: set<PaymentEvent>, revisions: map<string, PaymentEvent>,
                             customers: map<string, string>, clocks: map<(string, int), string>)
    requires Indexed(h, revisions, customers, clocks)
    ensures Unambiguous(h) && revisions.Values == h
  {
    forall a, b | a in h && b in h
      ensures !RevisionConflict(a, b) && !CustomerConflict(a, b) && !ClockConflict(a, b)
    {
      assert IndexesEvent(a, revisions, customers, clocks) && IndexesEvent(b, revisions, customers, clocks);
    }
    forall e | e in h ensures e in revisions.Values {
      assert IndexesEvent(e, revisions, customers, clocks);
    }
  }

  lemma HistoryStep(events: seq<PaymentEvent>, n: nat)
    requires n < |events|
    ensures History(events[..n + 1]) == History(events[..n]) + {events[n]}
  {
    assert events[..n + 1] == events[..n] + [events[n]];
  }

  lemma EventsStayIndexed(revisions: map<string, PaymentEvent>,
                          customers: map<string, string>, clocks: map<(string, int), string>, event: PaymentEvent, e: PaymentEvent)
    requires e == event || IndexesEvent(e, revisions, customers, clocks)
    requires event.revisionId !in revisions
    requires event.eventId in customers ==> customers[event.eventId] == event.customerId
    requires var clock := (event.eventId, event.knowledgeTime);
             clock in clocks ==> clocks[clock] == event.revisionId
    ensures IndexesEvent(e, revisions[event.revisionId := event], customers[event.eventId := event.customerId],
                         clocks[(event.eventId, event.knowledgeTime) := event.revisionId])
  {
  }

  lemma EventStays(h: set<PaymentEvent>, event: PaymentEvent, eventId: string)
    requires eventId == event.eventId || HasEvent(h, eventId)
    ensures HasEvent(h + {event}, eventId)
  {
    if eventId == event.eventId {
      assert event in h + {event};
    } else {
      var e :| e in h && e.eventId == eventId;
      assert e in h + {event};
    }
  }

  lemma ClockStays(h: set<PaymentEvent>, event: PaymentEvent, clock: (string, int))
    requires clock == (event.eventId, event.knowledgeTime) || HasClock(h, clock)
    ensures HasClock(h + {event}, clock)
  {
    if clock == (event.eventId, event.knowledgeTime) {
      assert event in h + {event};
    } else {
      var e :| e in h && (e.eventId, e.knowledgeTime) == clock;
      assert e in h + {event};
    }
  }

  lemma IndexedStep(h: set<PaymentEvent>, revisions: map<string, PaymentEvent>,
                    customers: map<string, string>, clocks: map<(string, int), string>, event: PaymentEvent)
    requires Indexed(h, revisions, customers, clocks)
    requires event.revisionId !in revisions
    requires event.eventId in customers ==> customers[event.eventId] == event.customerId
    requires var clock := (event.eventId, event.knowledgeTime);
             clock in clocks ==> clocks[clock] == event.revisionId
    ensures Indexed(h + {event}, revisions[event.revisionId := event], customers[event.eventId := event.customerId],
                    clocks[(event.eventId, event.knowledgeTime) := event.revisionId])
  {
    hide IndexesEvent;
    hide HasEvent;
    hide HasClock;
    var clock := (event.eventId, event.knowledgeTime);
    forall e | e in h + {event}
      ensures IndexesEvent(e, revisions[event.revisionId := event], customers[event.eventId := event.customerId],
                           clocks[clock := event.revisionId])
    {
      EventsStayIndexed(revisions, customers, clocks, event, e);
    }
    forall k | k in customers[event.eventId := event.customerId] ensures HasEvent(h + {event}, k) {
      EventStays(h, event, k);
    }
    forall k | k in clocks[clock := event.revisionId] ensures HasClock(h + {event}, k) {
      ClockStays(h, event, k);
    }
  }

  lemma Rejects(events: seq<PaymentEvent>, a: PaymentEvent, b: PaymentEvent, error: TemporalError)
    requires a in events && b in events && Conflict(a, b, error)
    ensures Rejected(events, error) && !Unambiguous(History(events))
  {
  }

  /** Two revisions in the input conflict in the way the error names. */
  ghost predicate Rejected(events: seq<PaymentEvent>, error: TemporalError) {
    exists a, b | a in events && b in events :: Conflict(a, b, error)
  }

  lemma NothingIndexed(events: seq<PaymentEvent>)
    ensures Indexed(History(events[..0]), map[], map[], map[])
  {
  }

  /** The revision's identity, customer or clock is in the dictionaries with other content. */
  predicate Clashes(event: PaymentEvent, revisions: map<string, PaymentEvent>, customers: map<string, string>,
                    clocks: map<(string, int), string>, error: TemporalError)
  {
    match error
    case RevisionReused => event.revisionId in revisions && revisions[event.revisionId] != event
    case CustomerChanged => event.eventId in customers && customers[event.eventId] != event.customerId
    case ConflictingRevisions =>
      var clock := (event.eventId, event.knowledgeTime);
      clock in clocks && clocks[clock] != event.revisionId
    case NegativeCutoff => false
  }

  /** A clash with the dictionaries is a conflict with an earlier revision. */
  lemma StepRejects(events: seq<PaymentEvent>, n: nat, revisions: map<string, PaymentEvent>, customers: map<string, string>,
                    clocks: map<(string, int), string>, error: TemporalError)
    requires n < |events| && Indexed(History(events[..n]), revisions, customers, clocks)
    requires Clashes(events[n], revisions, customers, clocks, error)
    ensures Rejected(events, error) && !Unambiguous(History(events))
  {
    hide Unambiguous;
    var seen, event := History(events[..n]), events[n];
    if error == RevisionReused {
      assert revisions[event.revisionId] in seen;
      Rejects(events, revisions[event.revisionId], event, error);
    } else if error == CustomerChanged {
      assert HasEvent(seen, event.eventId);
      var e :| e in seen && e.eventId == event.eventId;
      assert IndexesEvent(e, revisions, customers, clocks);
      Rejects(events, e, event, error);
    } else {
      assert HasClock(seen, (event.eventId, event.knowledgeTime));
      var e :| e in seen && (e.eventId, e.knowledgeTime) == (event.eventId, event.knowledgeTime);
      assert IndexesEvent(e, revisions, customers, clocks);
      Rejects(events, e, event, error);
    }
  }

  lemma StepReplays(events: seq<PaymentEvent>, n: nat, revisions: map<string, PaymentEvent>, customers: map<string, string>,
                    clocks: map<(string, int), string>)
    requires n < |events| && Indexed(History(events[..n]), revisions, customers, clocks)
    requires events[n].revisionId in revisions && revisions[events[n].revisionId] == events[n]
    ensures Indexed(History(events[..n + 1]), revisions, customers, clocks)
  {
    HistoryStep(events, n);
    assert events[n] in History(events[..n]);
    assert History(events[..n + 1]) == History(events[..n]);
  }

  lemma StepExtends(events: seq<PaymentEvent>, n: nat, revisions: map<string, PaymentEvent>, customers: map<string, string>,
                    clocks: map<(string, int), string>)
    requires n < |events| && Indexed(History(events[..n]), revisions, customers, clocks)
    requires events[n].revisionId !in revisions
    requires !Clashes(events[n], revisions, customers, clocks, CustomerChanged)
    requires !Clashes(events[n], revisions, customers, clocks, ConflictingRevisions)
    ensures Indexed(History(events[..n + 1]), revisions[events[n].revisionId := events[n]],
                    customers[events[n].eventId := events[n].customerId],
                    clocks[(events[n].eventId, events[n].knowledgeTime) := events[n].revisionId])
  {
    HistoryStep(events, n);
    IndexedStep(History(events[..n]), revisions, customers, clocks, events[n]);
  }

  /** Accepts exactly the unambiguous histories, whatever their input order; the answer
      depends on the set of revisions alone, so replays and permutations cannot change it. */
  method NormalizeEvents(events: seq<PaymentEvent>) returns (r: Result<seq<PaymentEvent>, TemporalError>)
    ensures r.Ok? <==> Unambiguous(History(events))
    ensures r.Ok? ==> r.value == Normalized(History(events))
    ensures r.Err? ==> Rejected(events, r.error)
  {
    hide Indexed;
    hide Unambiguous;
    var revisions: map<string, PaymentEvent> := map[];
    var customers: map<string, string> := map[];
    var clocks: map<(string, int), string> := map[];
    NothingIndexed(events);
    for n := 0 to |events|
      invariant Indexed(History(events[..n]), revisions, customers, clocks)
    {
      var event := events[n];
      if event.revisionId in revisions {
        if revisions[event.revisionId] != event {
          StepRejects(events, n, revisions, customers, clocks, RevisionReused);
          return Err(RevisionReused);
        }
        StepReplays(events, n, revisions, customers, clocks);
      } else {
        if event.eventId in customers && customers[event.eventId] != event.customerId {
          StepRejects(events, n, revisions, customers, clocks, CustomerChanged);
          return Err(CustomerChanged);
        }
        var clock := (event.eventId, event.knowledgeTime);
        if clock in clocks && clocks[clock] != event.revisionId {
          StepRejects(events, n, revisions, customers, clocks, ConflictingRevisions);
          return Err(ConflictingRevisions);
        }
        StepExtends(events, n, revisions, customers, clocks);
        customers := customers[event.eventId := event.customerId];
        clocks := clocks[clock := event.revisionId];
        revisions := revisions[event.revisionId := event];
      }
    }
    assert events[..|events|] == events;
    IndexedIsUnambiguous(History(events), revisions, customers, clocks);
    RevisionOrder(History(events));
    r := Ok(Sorted(revisions.Values, RevisionLess));
  }

  // ---- Selection ---------------------------------------------------------------------------

  /** `e` is the latest revision of its logical event knowable at `k`. */
  predicate IsLatest(h: set<PaymentEvent>, e: PaymentEvent, k: int) {
    && e in h && e.knowledgeTime <= k
    && forall f | f in h && f.eventId == e.eventId && f.knowledgeTime <= k :: f.knowledgeTime <= e.knowledgeTime
  }

  /** The point-in-time rule: latest knowable revision first, then retraction, customer and
      business time. A revision moved past the event cutoff does not uncover an older one. */
  function Selected(h: set<PaymentEvent>, customerId: string, eventCutoff: int, k: int): set<PaymentEvent> {
    set e | e in h && IsLatest(h, e, k) && e.operation.Upsert?
            && e.customerId == customerId && e.eventTime <= eventCutoff
  }

  /** The knowable part of a history. */
  function Known(h: set<PaymentEvent>, k: int): set<PaymentEvent> {
    set e | e in h && e.knowledgeTime <= k
  }

  lemma LatestIsUnique(h: set<PaymentEvent>, a: PaymentEvent, b: PaymentEvent, k: int)
    requires Unambiguous(h)
    requires IsLatest(h, a, k) && IsLatest(h, b, k) && a.eventId == b.eventId
    ensures a == b
  {
    assert !ClockConflict(a, b) && !RevisionConflict(a, b);
  }

  lemma LatestExists(h: set<PaymentEvent>, f: PaymentEvent, k: int) returns (e: PaymentEvent)
    requires f in h && f.knowledgeTime <= k
    ensures IsLatest(h, e, k) && e.eventId == f.eventId
    decreases k - f.knowledgeTime
  {
    if IsLatest(h, f, k) {
      e := f;
    } else {
      var g :| g in h && g.eventId == f.eventId && g.knowledgeTime <= k && f.knowledgeTime < g.knowledgeTime;
      e := LatestExists(h, g, k);
    }
  }

  /** Selection sees nothing of a history but the revisions knowable at the cutoff. */
  lemma SelectionIsKnowable(h: set<PaymentEvent>, h': set<PaymentEvent>, customerId: string, eventCutoff: int, k: int)
    requires Known(h, k) == Known(h', k)
    ensures Selected(h, customerId, eventCutoff, k) == Selected(h', customerId, eventCutoff, k)
  {
    forall e ensures IsLatest(h, e, k) <==> IsLatest(h', e, k) {
      LatestIsKnowable(h, h', e, k);
    }
  }

  lemma LatestIsKnowable(h: set<PaymentEvent>, h': set<PaymentEvent>, e: PaymentEvent, k: int)
    requires Known(h, k) == Known(h', k)
    ensures IsLatest(h, e, k) <==> IsLatest(h', e, k)
  {
    assert forall f :: f in h && f.knowledgeTime <= k <==> f in Known(h, k);
    assert forall f :: f in h' && f.knowledgeTime <= k <==> f in Known(h', k);
  }

  /** The `latest` dictionary after the revisions `h`. */
  ghost predicate HoldsLatest(h: set<PaymentEvent>, latest: map<string, PaymentEvent>, k: int) {
    && (forall id | id in latest :: latest[id].eventId == id && IsLatest(h, latest[id], k))
    && (forall e | e in h && e.knowledgeTime <= k :: e.eventId in latest)
  }

  lemma HoldsLatestStep(h: set<PaymentEvent>, latest: map<string, PaymentEvent>, e: PaymentEvent, k: int)
    requires HoldsLatest(h, latest, k)
    requires forall f | f in h :: RevisionLess(f, e)
    ensures e.knowledgeTime <= k ==> HoldsLatest(h + {e}, latest[e.eventId := e], k)
    ensures e.knowledgeTime > k ==> HoldsLatest(h + {e}, latest, k)
  {
    if e.knowledgeTime <= k {
      forall f | f in h && f.eventId == e.eventId ensures f.knowledgeTime <= e.knowledgeTime {
        StringLessAsymmetric(f.eventId, e.eventId);
      }
    }
  }

  lemma HeldAreLatest(h: set<PaymentEvent>, latest: map<string, PaymentEvent>, k: int)
    requires Unambiguous(h) && HoldsLatest(h, latest, k)
    ensures forall e :: e in latest.Values <==> IsLatest(h, e, k)
  {
    forall e | IsLatest(h, e, k) ensures e in latest.Values {
      LatestIsUnique(h, e, latest[e.eventId], k);
    }
  }

  lemma NormalizedPrefix(h: set<PaymentEvent>, n: nat)
    requires Unambiguous(h) && n < |Normalized(h)|
    ensures forall f | f in History(Normalized(h)[..n]) :: RevisionLess(f, Normalized(h)[n])
  {
    RevisionOrder(h);
  }

  method SelectEvents(events: seq<PaymentEvent>, customerId: string, eventCutoff: int, knowledgeCutoff: int)
    returns (r: Result<seq<PaymentEvent>, TemporalError>)
    ensures r.Ok? <==> 0 <= eventCutoff && 0 <= knowledgeCutoff && Unambiguous(History(events))
    ensures r.Ok? ==>
      && Increasing(r.value, BusinessLess)
      && History(r.value) == Selected(History(events), customerId, eventCutoff, knowledgeCutoff)
  {
    if eventCutoff < 0 || knowledgeCutoff < 0 {
      return Err(NegativeCutoff);
    }
    var normalized :- NormalizeEvents(events);
    ghost var h := History(events);
    RevisionOrder(h);
    hide Unambiguous;
    hide Sorted;
    var latest: map<string, PaymentEvent> := map[];
    for n := 0 to |normalized|
      invariant HoldsLatest(History(normalized[..n]), latest, knowledgeCutoff)
    {
      NormalizedPrefix(h, n);
      HistoryStep(normalized, n);
      HoldsLatestStep(History(normalized[..n]), latest, normalized[n], knowledgeCutoff);
      if normalized[n].knowledgeTime <= knowledgeCutoff {
        latest := latest[normalized[n].eventId := normalized[n]];
      }
    }
    assert normalized[..|normalized|] == normalized;
    assert History(normalized) == h;
    HeldAreLatest(h, latest, knowledgeCutoff);
    var selected := set e | e in latest.Values && e.operation.Upsert?
                            && e.customerId == customerId && e.eventTime <= eventCutoff;
    BusinessOrder(selected);
    r := Ok(Sorted(selected, BusinessLess));
  }
}
