/** Task authorities of `src/featureforge/aws_runtime.py`: the in-memory `TaskLedger`, and
    `DynamoTaskLedger`, many workers' conditional writes to one table, which refines it. */
module TaskLedger {
  import opened Ordering
  import opened Tasks
  import opened Traces

  datatype TaskState = Started | Completed

  /** A task item; a result's digest stands for the result. */
  datatype TaskRecord = TaskRecord(contract: string, manifestDigest: string, requestDigest: Payload, state: TaskState, result: Option<TaskResult>)
  {
    predicate SameTask(other: TaskRecord) {
      contract == other.contract && manifestDigest == other.manifestDigest && requestDigest == other.requestDigest
    }

    /** What `task_request` makes. */
    predicate IsRequest() {
      state == Started && result == None
    }
  }

  type TaskKey = (string, string)

  datatype TaskError = IdentityReused | NotStarted | DifferentResult | TransportFailed | NoDurableWinner | RaceLost | NoReceipt

  datatype Reply = Given(record: TaskRecord) | Raised(error: TaskError)

  type Records = map<TaskKey, TaskRecord>

  datatype Outcome = Outcome(records: Records, reply: Reply)

  // ---- The in-memory operations ---------------------------------------------------------------------------

  function OnBegin(t: Records, key: TaskKey, record: TaskRecord): Outcome {
    if key !in t then Outcome(t[key := record], Given(record))
    else if !t[key].SameTask(record) then Outcome(t, Raised(IdentityReused))
    else Outcome(t, Given(t[key]))
  }

  function Done(record: TaskRecord, result: TaskResult): TaskRecord {
    record.(state := Completed, result := Some(result))
  }

  function OnComplete(t: Records, key: TaskKey, result: TaskResult): Outcome {
    if key !in t then Outcome(t, Raised(NotStarted))
    else if t[key].state == Completed then
      if t[key].result != Some(result) then Outcome(t, Raised(DifferentResult)) else Outcome(t, Given(t[key]))
    else Outcome(t[key := Done(t[key], result)], Given(Done(t[key], result)))
  }

  datatype Op = BeginOp(key: TaskKey, record: TaskRecord) | CompleteOp(key: TaskKey, result: TaskResult)

  function Perform(t: Records, op: Op): Outcome {
    match op
    case BeginOp(key, record) => OnBegin(t, key, record)
    case CompleteOp(key, result) => OnComplete(t, key, result)
  }

  function Run(t: Records, ops: seq<Op>): Records {
    if ops == [] then t else Perform(Run(t, ops[..|ops| - 1]), ops[|ops| - 1]).records
  }

  ghost predicate AllRequests(ops: seq<Op>) {
    forall op | op in ops && op.BeginOp? :: op.record.IsRequest()
  }

  /** The deterministic in-memory authority. */
  class MemoryLedger {
    var records: Records

    constructor ()
      ensures records == map[]
    {
      records := map[];
    }

    method Begin(key: TaskKey, record: TaskRecord) returns (reply: Reply)
      modifies this
      ensures Outcome(records, reply) == OnBegin(old(records), key, record)
    {
      if key !in records {
        records := records[key := record];
        return Given(record);
      }
      var current := records[key];
      if current.contract != record.contract || current.manifestDigest != record.manifestDigest
         || current.requestDigest != record.requestDigest { return Raised(IdentityReused); }
      reply := Given(current);
    }

    method Complete(key: TaskKey, result: TaskResult) returns (reply: Reply)
      modifies this
      ensures Outcome(records, reply) == OnComplete(old(records), key, result)
    {
      if key !in records { return Raised(NotStarted); }
      var current := records[key];
      if current.state == Completed {
        if current.result != Some(result) { return Raised(DifferentResult); }
        return Given(current);
      }
      var updated := current.(result := Some(result), state := Completed);
      records := records[key := updated];
      reply := Given(updated);
    }
  }

  // ---- What never changes --------------------------------------------------------------------------------------

  /** A completed record has its result, a started one has none. */
  predicate RecordHolds(record: TaskRecord) {
    record.result.Some? <==> record.state == Completed
  }

  ghost predicate Inv(t: Records) {
    forall key | key in t :: RecordHolds(t[key])
  }

  /** Tasks are never removed, never change identity, and once completed never change at all. */
  ghost predicate Grows(t: Records, t': Records) {
    forall key | key in t ::
      && key in t' && t'[key].SameTask(t[key])
      && (t[key].state == Completed ==> t'[key] == t[key])
  }

  lemma PerformGrows(t: Records, op: Op)
    ensures Grows(t, Perform(t, op).records)
    ensures Inv(t) && (op.BeginOp? ==> op.record.IsRequest()) ==> Inv(Perform(t, op).records)
  {
  }

  /** In every interleaving a COMPLETED task keeps its result digest for ever. */
  lemma {:induction false} RunGrows(t: Records, ops: seq<Op>)
    ensures Grows(t, Run(t, ops))
    ensures Inv(t) && AllRequests(ops) ==> Inv(Run(t, ops))
  {
    if ops != [] {
      RunGrows(t, ops[..|ops| - 1]);
      PerformGrows(Run(t, ops[..|ops| - 1]), ops[|ops| - 1]);
    }
  }

  lemma {:induction false} RunTwice(t: Records, a: seq<Op>, b: seq<Op>)
    ensures Run(t, a + b) == Run(Run(t, a), b)
  {
    if b == [] {
      assert a + b == a;
    } else {
      var last := |b| - 1;
      RunTwice(t, a, b[..last]);
      assert (a + b)[..|a + b| - 1] == a + b[..last];
    }
  }

  // ---- The DynamoDB ledger ----------------------------------------------------------------------------------------

  datatype Fault = Delivered | LostRequest | LostReply

  /** What befalls one request: the other workers' operations before it, and its delivery. */
  datatype Weather = Weather(others: seq<Op>, fault: Fault)

  ghost predicate AllDelivered(w: nat -> Weather) {
    forall i :: w(i).fault == Delivered
  }

  function OthersOf(w: nat -> Weather): nat -> seq<Op> {
    (i: nat) => w(i).others
  }

  /** The other workers' operations met by the first `requests` requests, in their order. */
  ghost function Meets(w: nat -> Weather, requests: nat): seq<Op> {
    Between(OthersOf(w), 0, requests)
  }

  /** The states that up to three requests meet, when this call itself changes nothing. */
  lemma MeetsStep(t: Records, w: nat -> Weather)
    ensures Run(t, Meets(w, 1)) == Run(t, w(0).others)
    ensures Run(t, Meets(w, 2)) == Run(Run(t, w(0).others), w(1).others)
    ensures Run(t, Meets(w, 3)) == Run(Run(Run(t, w(0).others), w(1).others), w(2).others)
  {
    BetweenOne(OthersOf(w), 0);
    assert Meets(w, 2) == Meets(w, 1) + w(1).others && Meets(w, 3) == Meets(w, 2) + w(2).others;
    RunTwice(t, Meets(w, 1), w(1).others);
    RunTwice(t, Meets(w, 2), w(2).others);
  }

  /** What a call leaves behind and answers, when it is the one in-memory operation `op`, done at the
      moment of its last request, after exactly the others' operations it met by then. A call whose
      last request failed answers nothing, and did `op` iff that was its write, with the reply lost. */
  ghost predicate Explained(start: Records, w: nat -> Weather, requests: nat, op: Op, reply: Reply, end: Records) {
    && 1 <= requests <= 3 && (requests > 1 ==> w(0).fault == Delivered) && (requests > 2 ==> w(1).fault == Delivered)
    && (var moment := Run(start, Meets(w, requests));
        if w(requests - 1).fault == Delivered then Outcome(end, reply) == Perform(moment, op)
        else
          && reply == Raised(TransportFailed)
          && end == if requests == 2 && w(1).fault == LostReply then Perform(moment, op).records else moment)
  }

  /** So to the other workers a call is at most one operation more among theirs, and what they meet of
      it is again a run of requests. */
  lemma ExplainedIsARun(start: Records, w: nat -> Weather, requests: nat, op: Op, reply: Reply, end: Records)
    requires Explained(start, w, requests, op, reply, end)
    ensures
      var own := if w(requests - 1).fault == Delivered || (requests == 2 && w(1).fault == LostReply) then [op] else [];
      end == Run(start, Meets(w, requests) + own)
  {
    var met := Meets(w, requests);
    assert met + [] == met;
    assert (met + [op])[..|met + [op]| - 1] == met;
  }

  lemma ExplainedAlone(start: Records, w: nat -> Weather, requests: nat, op: Op, reply: Reply, end: Records)
    requires Explained(start, w, requests, op, reply, end)
    ensures AllDelivered(w) ==> reply != Raised(TransportFailed)
    ensures AllDelivered(w) && Quiet(OthersOf(w)) ==> Outcome(end, reply) == Perform(start, op)
  {
    if Quiet(OthersOf(w)) {
      QuietBetween(OthersOf(w), 0, requests);
      assert Run(start, []) == start;
    }
  }

  class DynamoTaskLedger {
    var items: Records

    method Others(w: Weather)
      requires AllRequests(w.others)
      modifies this
      ensures items == Run(old(items), w.others)
      ensures Grows(old(items), items) && (old(Inv(items)) ==> Inv(items))
    {
      RunGrows(items, w.others);
      items := Run(items, w.others);
    }

    /** `_read`: a consistent read, or a transport error. */
    method Read(key: TaskKey, w: Weather) returns (ok: bool, current: Option<TaskRecord>)
      requires AllRequests(w.others)
      modifies this
      ensures items == Run(old(items), w.others)
      ensures Grows(old(items), items) && (old(Inv(items)) ==> Inv(items))
      ensures ok <==> w.fault == Delivered
      ensures ok ==> current == if key in items then Some(items[key]) else None
    {
      Others(w);
      ok := w.fault == Delivered;
      current := if ok && key in items then Some(items[key]) else None;
    }

    /** The put on condition that the item is absent. */
    method PutAbsent(key: TaskKey, record: TaskRecord, w: Weather) returns (delivered: bool, held: bool)
      requires AllRequests(w.others) && Inv(items) && record.IsRequest()
      modifies this
      ensures Inv(items)
      ensures delivered <==> w.fault == Delivered
      ensures
        var moment := Run(old(items), w.others);
        && (delivered ==> held == (key !in moment))
        && items == if w.fault != LostRequest && key !in moment then moment[key := record] else moment
    {
      Others(w);
      delivered, held := w.fault == Delivered, key !in items;
      if w.fault != LostRequest && held { items := items[key := record]; }
    }

    /** The update on condition that it is still the STARTED record that was read. */
    method UpdateStarted(key: TaskKey, current: TaskRecord, result: TaskResult, w: Weather)
      returns (delivered: bool, held: bool, updated: Option<TaskRecord>)
      requires AllRequests(w.others) && Inv(items)
      requires key in items && items[key].SameTask(current)
      modifies this
      ensures Inv(items)
      ensures delivered <==> w.fault == Delivered
      ensures
        var moment := Run(old(items), w.others);
        && key in moment
        && (delivered ==> held == (moment[key].state == Started))
        && (delivered && held ==> updated == Some(Done(moment[key], result)))
        && items == if w.fault != LostRequest && moment[key].state == Started then moment[key := Done(moment[key], result)] else moment
    {
      Others(w);
      delivered, held, updated := w.fault == Delivered, items[key].state == Started && items[key].SameTask(current), None;
      if w.fault != LostRequest && held {
        items := items[key := Done(items[key], result)];
        updated := Some(items[key]);
      }
    }

    /** `begin`: one in-memory `begin`, done after exactly the others' operations that its requests
        met; a refused put always has a durable winner. */
    method Begin(key: TaskKey, record: TaskRecord, w: nat -> Weather) returns (reply: Reply, ghost requests: nat)
      requires (forall i :: AllRequests(w(i).others)) && Inv(items) && record.IsRequest()
      modifies this
      ensures Inv(items)
      ensures Explained(old(items), w, requests, BeginOp(key, record), reply, items)
      ensures reply != Raised(NoDurableWinner)
      ensures AllDelivered(w) ==> reply != Raised(TransportFailed)
      ensures AllDelivered(w) && Quiet(OthersOf(w)) ==> Outcome(items, reply) == OnBegin(old(items), key, record)
    {
      hide Explained;
      ghost var start := items;
      reply, requests := AskBegin(key, record, w);
      ExplainedAlone(start, w, requests, BeginOp(key, record), reply, items);
    }

    /** The requests of `begin`. */
    method AskBegin(key: TaskKey, record: TaskRecord, w: nat -> Weather) returns (reply: Reply, ghost requests: nat)
      requires (forall i :: AllRequests(w(i).others)) && Inv(items) && record.IsRequest()
      modifies this
      ensures Inv(items)
      ensures Explained(old(items), w, requests, BeginOp(key, record), reply, items)
      ensures reply != Raised(NoDurableWinner)
    {
      hide Run;
      hide Meets;
      hide Inv;
      hide AllRequests;
      MeetsStep(items, w);
      var ok, current := Read(key, w(0));
      requests := 1;
      if !ok { return Raised(TransportFailed), requests; }
      if current.None? {
        var delivered, held := PutAbsent(key, record, w(1));
        requests := 2;
        if !delivered { return Raised(TransportFailed), requests; }
        if held { return Given(record), requests; }
        ok, current := Read(key, w(2));
        requests := 3;
        if !ok { return Raised(TransportFailed), requests; }
        if current.None? { return Raised(NoDurableWinner), requests; }
      }
      reply := if current.value.SameTask(record) then Given(current.value) else Raised(IdentityReused);
    }

    /** `complete`: one in-memory `complete`, in the same way; it never loses its race unexplained. */
    method Complete(key: TaskKey, result: TaskResult, w: nat -> Weather) returns (reply: Reply, ghost requests: nat)
      requires (forall i :: AllRequests(w(i).others)) && Inv(items)
      modifies this
      ensures Inv(items)
      ensures Explained(old(items), w, requests, CompleteOp(key, result), reply, items)
      ensures reply !in {Raised(RaceLost), Raised(NoReceipt)}
      ensures AllDelivered(w) ==> reply != Raised(TransportFailed)
      ensures AllDelivered(w) && Quiet(OthersOf(w)) ==> Outcome(items, reply) == OnComplete(old(items), key, result)
    {
      hide Explained;
      ghost var start := items;
      reply, requests := AskComplete(key, result, w);
      ExplainedAlone(start, w, requests, CompleteOp(key, result), reply, items);
    }

    /** The requests of `complete`. */
    method AskComplete(key: TaskKey, result: TaskResult, w: nat -> Weather) returns (reply: Reply, ghost requests: nat)
      requires (forall i :: AllRequests(w(i).others)) && Inv(items)
      modifies this
      ensures Inv(items)
      ensures Explained(old(items), w, requests, CompleteOp(key, result), reply, items)
      ensures reply !in {Raised(RaceLost), Raised(NoReceipt)}
    {
      hide Run;
      hide Meets;
      hide Inv;
      hide AllRequests;
      MeetsStep(items, w);
      var ok, current := Read(key, w(0));
      requests := 1;
      if !ok { return Raised(TransportFailed), requests; }
      if current.None? { return Raised(NotStarted), requests; }
      if current.value.state == Completed {
        reply := if current.value.result != Some(result) then Raised(DifferentResult) else Given(current.value);
        return;
      }
      var delivered, held, updated := UpdateStarted(key, current.value, result, w(1));
      requests := 2;
      if !delivered { return Raised(TransportFailed), requests; }
      if held {
        if updated.None? || updated.value.state != Completed { return Raised(NoReceipt), requests; }
        return Given(updated.value), requests;
      }
      var replay;
      ok, replay := Read(key, w(2));
      requests := 3;
      if !ok { return Raised(TransportFailed), requests; }
      if replay.None? || replay.value.state != Completed { return Raised(RaceLost), requests; }
      reply := if replay.value.result != Some(result) then Raised(DifferentResult) else Given(replay.value);
    }
  }
}
