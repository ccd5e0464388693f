/** Create-once publication: `src/featureforge/s3_immutable.py` and `publish_outputs` of
    `jobs/glue_point_in_time.py`. Writes carry `If-None-Match: *` (section 13.1.2 of RFC 9110). */
module S3Immutable {
  import opened Ordering
  import opened Traces

  /** An object's bytes: opaque output bytes, or a commit receipt naming other objects. */
  datatype Body = Output(bytes: string) | Commit(generationId: string, launch: string, rows: Authority, manifest: Authority)

  /** A key, the version the service gave it, and the bytes its checksum stands for. */
  datatype Authority = Authority(key: string, version: string, content: Body)

  datatype Object = Object(version: string, body: Body, kmsKey: string)

  type Bucket = map<string, Object>

  const MAX_PUBLISH_ATTEMPTS := 3

  /** The authority's object is there, with exactly its version and bytes. */
  predicate Names(t: Bucket, a: Authority) {
    a.key in t && t[a.key].version == a.version && t[a.key].body == a.content
  }

  /** What a commit receipt promises. */
  predicate Backed(t: Bucket, body: Body) {
    body.Commit? ==> Names(t, body.rows) && Names(t, body.manifest)
  }

  // ---- Publishers' writes ------------------------------------------------------------------------------------

  /** A create-only write. A publisher writes a commit receipt only when both objects it names are
      there: a property of its program, which `PublishOutputs` below is proved to have. */
  datatype Put = Put(key: string, stored: Object)

  function Apply(t: Bucket, put: Put): Bucket {
    if put.key !in t && Backed(t, put.stored.body) then t[put.key := put.stored] else t
  }

  function Run(t: Bucket, puts: seq<Put>): Bucket {
    if puts == [] then t else Apply(Run(t, puts[..|puts| - 1]), puts[|puts| - 1])
  }

  /** Objects are never overwritten or removed. */
  ghost predicate Grows(t: Bucket, t': Bucket) {
    forall key | key in t :: key in t' && t'[key] == t[key]
  }

  /** Whatever a receipt names exists. */
  ghost predicate Inv(t: Bucket) {
    forall key | key in t :: Backed(t, t[key].body)
  }

  lemma BackingStays(t: Bucket, t': Bucket, body: Body)
    requires Grows(t, t') && Backed(t, body)
    ensures Backed(t', body)
  {
  }

  lemma {:induction false} RunKeeps(t: Bucket, puts: seq<Put>)
    requires Inv(t)
    ensures Inv(Run(t, puts)) && Grows(t, Run(t, puts))
  {
    if puts != [] {
      var before, put := Run(t, puts[..|puts| - 1]), puts[|puts| - 1];
      RunKeeps(t, puts[..|puts| - 1]);
      var after := Apply(before, put);
      forall key | key in after ensures Backed(after, after[key].body) {
        BackingStays(before, after, after[key].body);
      }
    }
  }

  lemma {:induction false} RunTwice(t: Bucket, a: seq<Put>, b: seq<Put>)
    ensures Run(t, a + b) == Run(Run(t, a), b)
  {
    if b == [] {
      assert a + b == a;
    } else {
      var last := |b| - 1;
      RunTwice(t, a, b[..last]);
      assert (a + b)[..|a + b| - 1] == a + b[..last];
    }
  }

  /** If a commit receipt is ever visible, the objects it names are there with exactly those bytes
      and versions, then and after every further run. */
  lemma CommitImpliesOutputs(before: seq<Put>, after: seq<Put>, key: string)
    requires key in Run(map[], before) && Run(map[], before)[key].body.Commit?
    ensures
      var t, t' := Run(map[], before), Run(Run(map[], before), after);
      && key in t' && t'[key] == t[key]
      && Names(t', t[key].body.rows) && Names(t', t[key].body.manifest)
  {
    RunKeeps(map[], before);
    RunKeeps(Run(map[], before), after);
    BackingStays(Run(map[], before), Run(Run(map[], before), after), Run(map[], before)[key].body);
  }

  /** Authorities returned for one key, at whatever moments of a run, agree. */
  lemma ReturnsAgree(t: Bucket, puts: seq<Put>, a: Authority, b: Authority)
    requires Inv(t) && Names(t, a) && Names(Run(t, puts), b) && a.key == b.key
    ensures a == b
  {
    RunKeeps(t, puts);
  }

  // ---- One publisher among others ------------------------------------------------------------------------------

  /** How one request fares. `Conflict` is a refused concurrent write, `Terminal` any error that is
      not retried. */
  datatype Fault = Delivered | LostRequest | LostReply | Conflict | Terminal

  datatype Weather = Weather(others: seq<Put>, fault: Fault, version: string)

  datatype PublishError = Terminated | DifferentBytes | BadResponse | Exhausted | BadManifest | BadPrefix

  datatype PutOutcome = Created(version: string) | Retryable | Stopped

  ghost predicate AllDelivered(w: nat -> Weather) {
    forall i :: w(i).fault == Delivered
  }

  function OthersOf(w: nat -> Weather): nat -> seq<Put> {
    (i: nat) => w(i).others
  }

  /** Whether a write takes effect, if its condition holds. */
  predicate Arrives(w: Weather) {
    w.fault == Delivered || w.fault == LostReply
  }

  /** From `t` to `t'` by the writes `sent` of this publisher and those of others that it meets from
      request `n` up to request `m`. */
  ghost predicate Ran(t: Bucket, t': Bucket, w: nat -> Weather, n: nat, m: nat, sent: seq<Put>) {
    n <= m && exists trace :: IsTrace(trace, Between(OthersOf(w), n, m), sent) && t' == Run(t, ArrivedIn(trace))
  }

  lemma RanKeeps(t: Bucket, t': Bucket, w: nat -> Weather, n: nat, m: nat, sent: seq<Put>)
    requires Inv(t) && Ran(t, t', w, n, m, sent)
    ensures Inv(t') && Grows(t, t')
  {
    var trace :| IsTrace(trace, Between(OthersOf(w), n, m), sent) && t' == Run(t, ArrivedIn(trace));
    RunKeeps(t, ArrivedIn(trace));
  }

  lemma RanOn(t: Bucket, t': Bucket, t'': Bucket, w: nat -> Weather, a: nat, b: nat, c: nat, sent: seq<Put>, sent': seq<Put>)
    requires Ran(t, t', w, a, b, sent) && Ran(t', t'', w, b, c, sent')
    ensures Ran(t, t'', w, a, c, sent + sent')
  {
    var x :| IsTrace(x, Between(OthersOf(w), a, b), sent) && t' == Run(t, ArrivedIn(x));
    var y :| IsTrace(y, Between(OthersOf(w), b, c), sent') && t'' == Run(t', ArrivedIn(y));
    TraceTwice(x, y);
    RunTwice(t, ArrivedIn(x), ArrivedIn(y));
    BetweenTwice(OthersOf(w), a, b, c);
    assert IsTrace(x + y, Between(OthersOf(w), a, c), sent + sent');
  }

  /** Then only others' writes. */
  lemma RanOnMet(t: Bucket, t': Bucket, t'': Bucket, w: nat -> Weather, a: nat, b: nat, c: nat, sent: seq<Put>)
    requires Ran(t, t', w, a, b, sent) && Ran(t', t'', w, b, c, [])
    ensures Ran(t, t'', w, a, c, sent)
  {
    RanOn(t, t', t'', w, a, b, c, sent, []);
    assert sent + [] == sent;
  }

  lemma RanNot(t: Bucket, w: nat -> Weather, n: nat)
    ensures Ran(t, t, w, n, n, [])
  {
    assert Run(t, []) == t && IsTrace([], Between(OthersOf(w), n, n), []);
  }

  lemma RanByOthers(t: Bucket, w: nat -> Weather, n: nat)
    ensures Ran(t, Run(t, w(n).others), w, n, n + 1, [])
  {
    BetweenOne(OthersOf(w), n);
    var trace := TraceOfMet(w(n).others);
  }

  /** One conditional write, after others' writes. */
  lemma RanByWrite(t: Bucket, w: nat -> Weather, n: nat, put: Put)
    ensures Ran(t, if Arrives(w(n)) then Apply(Run(t, w(n).others), put) else Run(t, w(n).others), w, n, n + 1, [put])
  {
    BetweenOne(OthersOf(w), n);
    var trace := TraceOfSent(w(n).others, put, Arrives(w(n)));
    assert (w(n).others + [put])[..|w(n).others|] == w(n).others;
    assert w(n).others + [] == w(n).others;
  }

  /** The writes are all of these bytes to this key. */
  predicate IsFor(sent: seq<Put>, key: string, body: Body, kmsKey: string) {
    forall put | put in sent :: put == Put(key, Object(put.stored.version, body, kmsKey))
  }

  /** An object this publisher takes for its own: same bytes and key, and a version to pin. */
  predicate IsOwn(o: Object, body: Body, kmsKey: string) {
    o.body == body && o.kmsKey == kmsKey && o.version != "" && o.version != "null"
  }

  predicate OwnAt(t: Bucket, key: string, body: Body, kmsKey: string) {
    key in t && IsOwn(t[key], body, kmsKey)
  }

  lemma OwnStays(t: Bucket, t': Bucket, key: string, body: Body, kmsKey: string)
    requires Grows(t, t') && key in t
    ensures OwnAt(t', key, body, kmsKey) == OwnAt(t, key, body, kmsKey) && t'[key] == t[key]
  {
  }

  predicate EndsWithSlash(prefix: string) {
    prefix != "" && prefix[|prefix| - 1] == '/'
  }

  /** The receipt over the rows and the manifest that are stored. */
  function ReceiptOver(t: Bucket, prefix: string, generationId: string, launch: string, rows: Body, manifest: Body): Body
    requires prefix + "rows.json" in t && prefix + "manifest.json" in t
  {
    Commit(generationId, launch, Authority(prefix + "rows.json", t[prefix + "rows.json"].version, rows),
           Authority(prefix + "manifest.json", t[prefix + "manifest.json"].version, manifest))
  }

  /** All three objects are there and this publisher's own, the receipt naming the other two. */
  predicate Published(t: Bucket, prefix: string, generationId: string, launch: string, rows: Body, manifest: Body, kmsKey: string) {
    && OwnAt(t, prefix + "rows.json", rows, kmsKey) && OwnAt(t, prefix + "manifest.json", manifest, kmsKey)
    && OwnAt(t, prefix + "output-authority.json", ReceiptOver(t, prefix, generationId, launch, rows, manifest), kmsKey)
  }

  class Publisher {
    var objects: Bucket

    method Others(w: Weather)
      requires Inv(objects)
      modifies this
      ensures objects == Run(old(objects), w.others) && Inv(objects) && Grows(old(objects), objects)
    {
      RunKeeps(objects, w.others);
      objects := Run(objects, w.others);
    }

    /** The conditional create. */
    method CreateOnly(key: string, body: Body, kmsKey: string, w: nat -> Weather, n: nat) returns (outcome: PutOutcome)
      requires Inv(objects) && Backed(objects, body)
      modifies this
      ensures Inv(objects) && Grows(old(objects), objects)
      ensures Ran(old(objects), objects, w, n, n + 1, [Put(key, Object(w(n).version, body, kmsKey))])
      ensures outcome.Created? ==> key in objects && objects[key] == Object(outcome.version, body, kmsKey)
      ensures w(n).fault == Delivered ==> key in objects && !outcome.Stopped?
      ensures w(n).fault == Delivered && w(n).others == [] ==>
                objects == if key in old(objects) then old(objects) else old(objects)[key := Object(w(n).version, body, kmsKey)]
    {
      ghost var start, put := objects, Put(key, Object(w(n).version, body, kmsKey));
      Others(w(n));
      BackingStays(start, objects, body);
      RanByWrite(start, w, n, put);
      RanKeeps(start, if Arrives(w(n)) then Apply(objects, put) else objects, w, n, n + 1, [put]);
      hide Ran;
      hide Inv;
      if w(n).fault == Terminal { return Stopped; }
      if w(n).fault == LostRequest || w(n).fault == Conflict || key in objects { return Retryable; }
      objects := objects[key := Object(w(n).version, body, kmsKey)];
      outcome := if w(n).fault == Delivered then Created(w(n).version) else Retryable;
    }

    method Read(key: string, w: nat -> Weather, n: nat) returns (ok: bool, found: Option<Object>)
      requires Inv(objects)
      modifies this
      ensures Inv(objects) && Grows(old(objects), objects) && Ran(old(objects), objects, w, n, n + 1, [])
      ensures ok <==> w(n).fault == Delivered
      ensures ok ==> found == if key in objects then Some(objects[key]) else None
      ensures w(n).others == [] ==> objects == old(objects)
    {
      RanByOthers(objects, w, n);
      Others(w(n));
      ok := w(n).fault == Delivered;
      found := if ok && key in objects then Some(objects[key]) else None;
    }

    /** `_reconcile_existing`, from request `n` up to `next`: `None` when there is no object; else its
        exact authority, or an error when its bytes or its response are not this publisher's. */
    method ReconcileExisting(key: string, body: Body, kmsKey: string, w: nat -> Weather, n: nat)
      returns (r: Result<Option<Authority>, PublishError>, next: nat)
      requires Inv(objects)
      modifies this
      ensures Inv(objects) && Grows(old(objects), objects) && n < next && Ran(old(objects), objects, w, n, next, [])
      ensures r.Ok? && r.value.Some? ==> r.value.value.key == key && r.value.value.content == body && Names(objects, r.value.value)
      ensures r.Ok? && r.value.Some? ==> IsOwn(objects[key], body, kmsKey)
      ensures w(n).fault == w(n + 1).fault == Delivered && key in old(objects) ==>
                (r.Ok? <==> IsOwn(objects[key], body, kmsKey)) && (r.Ok? ==> r.value.Some?)
      ensures Quiet(OthersOf(w)) ==> objects == old(objects)
    {
      hide Ran;
      hide Inv;
      ghost var start := objects;
      assert Quiet(OthersOf(w)) ==> OthersOf(w)(n) == [] && OthersOf(w)(n + 1) == [];
      var ok, found := Read(key, w, n);
      next := n + 1;
      if !ok { return Err(Terminated), next; }
      if found.None? { return Ok(None), next; }
      if found.value.body != body { return Err(DifferentBytes), next; }
      if found.value.version == "" || found.value.version == "null" || found.value.kmsKey != kmsKey { return Err(BadResponse), next; }
      ghost var t := objects;
      var ok', exact := Read(key, w, n + 1);
      next := n + 2;
      RanOnMet(start, t, objects, w, n, n + 1, n + 2, []);
      if !ok' || exact.None? { return Err(Terminated), next; }
      if exact.value.body != body { return Err(DifferentBytes), next; }
      if exact.value.version != found.value.version || exact.value.kmsKey != kmsKey { return Err(BadResponse), next; }
      r := Ok(Some(Authority(key, found.value.version, body)));
    }

    /** One conditional write, and what an ambiguous or refused one reveals; `None` to try again. */
    method Attempt(key: string, body: Body, kmsKey: string, w: nat -> Weather, n: nat)
      returns (r: Result<Option<Authority>, PublishError>, next: nat)
      requires Inv(objects) && Backed(objects, body)
      modifies this
      ensures Inv(objects) && Grows(old(objects), objects)
      ensures n < next && Ran(old(objects), objects, w, n, next, [Put(key, Object(w(n).version, body, kmsKey))])
      ensures r.Ok? && r.value.Some? ==> r.value.value.key == key && r.value.value.content == body && Names(objects, r.value.value)
      ensures r.Ok? && r.value.Some? ==> IsOwn(objects[key], body, kmsKey)
      ensures AllDelivered(w) ==> key in objects && (r.Ok? <==> IsOwn(objects[key], body, kmsKey)) && (r.Ok? ==> r.value.Some?)
      ensures AllDelivered(w) && Quiet(OthersOf(w)) ==>
                objects == if key in old(objects) then old(objects) else old(objects)[key := Object(w(n).version, body, kmsKey)]
    {
      hide Ran;
      hide Run;
      hide Inv;
      ghost var start, put := objects, Put(key, Object(w(n).version, body, kmsKey));
      assert Quiet(OthersOf(w)) ==> OthersOf(w)(n) == [];
      var outcome := CreateOnly(key, body, kmsKey, w, n);
      next := n + 1;
      if outcome.Created? {
        if outcome.version == "" || outcome.version == "null" { return Err(BadResponse), next; }
        return Ok(Some(Authority(key, outcome.version, body))), next;
      }
      if outcome.Stopped? { return Err(Terminated), next; }
      ghost var t := objects;
      r, next := ReconcileExisting(key, body, kmsKey, w, n + 1);
      RanOnMet(start, t, objects, w, n, n + 1, next, [put]);
    }

    /** `put_immutable_output`: its whole effect is that of at most three conditional writes, all of
        these bytes to this key, between exactly the others' writes it meets. Success means the key
        holds exactly these bytes at the returned version, whoever wrote them. When every request is
        delivered it succeeds exactly when the object there is this publisher's own. */
    method PutImmutableOutput(key: string, body: Body, kmsKey: string, w: nat -> Weather, n: nat)
      returns (r: Result<Authority, PublishError>, next: nat, ghost sent: seq<Put>)
      requires Inv(objects) && Backed(objects, body)
      modifies this
      ensures Inv(objects) && Grows(old(objects), objects)
      ensures Ran(old(objects), objects, w, n, next, sent)
      ensures |sent| <= MAX_PUBLISH_ATTEMPTS && IsFor(sent, key, body, kmsKey)
      ensures r.Ok? ==> r.value.key == key && r.value.content == body && Names(objects, r.value)
      ensures r.Ok? ==> IsOwn(objects[key], body, kmsKey)
      ensures AllDelivered(w) ==> key in objects && (r.Ok? <==> IsOwn(objects[key], body, kmsKey))
      ensures AllDelivered(w) && Quiet(OthersOf(w)) ==>
                objects == if key in old(objects) then old(objects) else old(objects)[key := Object(w(n).version, body, kmsKey)]
    {
      hide IsOwn;
      ghost var start := objects;
      RanNot(start, w, n);
      next, sent := n, [];
      for attempt := 0 to MAX_PUBLISH_ATTEMPTS
        invariant Inv(objects) && Grows(start, objects) && Ran(start, objects, w, n, next, sent)
        invariant |sent| == attempt && IsFor(sent, key, body, kmsKey)
        invariant attempt == 0 ==> objects == start && next == n
        invariant AllDelivered(w) ==> attempt == 0
      {
        ghost var t, before := objects, next;
        BackingStays(start, t, body);
        var tried;
        tried, next := Attempt(key, body, kmsKey, w, next);
        ghost var put := Put(key, Object(w(before).version, body, kmsKey));
        RanOn(start, t, objects, w, n, before, next, sent, [put]);
        sent := sent + [put];
        if tried.Err? { return Err(tried.error), next, sent; }
        if tried.value.Some? { return Ok(tried.value.value), next, sent; }
      }
      r := Err(Exhausted);
    }

    /** The rows, then the manifest. */
    method PublishBoth(prefix: string, rows: Body, manifest: Body, kmsKey: string, w: nat -> Weather)
      returns (r: Result<(Authority, Authority), PublishError>, next: nat, ghost rowsSent: seq<Put>, ghost manifestSent: seq<Put>)
      requires Inv(objects) && rows.Output? && manifest.Output?
      modifies this
      ensures Inv(objects) && Grows(old(objects), objects)
      ensures Ran(old(objects), objects, w, 0, next, rowsSent + manifestSent)
      ensures |rowsSent| <= MAX_PUBLISH_ATTEMPTS && IsFor(rowsSent, prefix + "rows.json", rows, kmsKey)
      ensures |manifestSent| <= MAX_PUBLISH_ATTEMPTS && IsFor(manifestSent, prefix + "manifest.json", manifest, kmsKey)
      ensures manifestSent != [] || r.Ok? ==> OwnAt(objects, prefix + "rows.json", rows, kmsKey)
      ensures r.Ok? ==>
        && OwnAt(objects, prefix + "manifest.json", manifest, kmsKey)
        && r.value.0 == Authority(prefix + "rows.json", r.value.0.version, rows) && Names(objects, r.value.0)
        && r.value.1 == Authority(prefix + "manifest.json", r.value.1.version, manifest) && Names(objects, r.value.1)
      ensures AllDelivered(w) ==>
        (r.Ok? <==> OwnAt(objects, prefix + "rows.json", rows, kmsKey) && OwnAt(objects, prefix + "manifest.json", manifest, kmsKey))
    {
      hide IsOwn;
      hide Ran;
      hide Inv;
      ghost var start := objects;
      var rowsPut, manifestPut;
      manifestSent := [];
      rowsPut, next, rowsSent := PutImmutableOutput(prefix + "rows.json", rows, kmsKey, w, 0);
      assert rowsSent + [] == rowsSent;
      if rowsPut.Err? { return Err(rowsPut.error), next, rowsSent, manifestSent; }
      ghost var t, before := objects, next;
      manifestPut, next, manifestSent := PutImmutableOutput(prefix + "manifest.json", manifest, kmsKey, w, next);
      RanOn(start, t, objects, w, 0, before, next, rowsSent, manifestSent);
      OwnStays(t, objects, prefix + "rows.json", rows, kmsKey);
      if manifestPut.Err? { return Err(manifestPut.error), next, rowsSent, manifestSent; }
      r := Ok((rowsPut.value, manifestPut.value));
    }

    /** `publish_outputs`: rows, then manifest, then the receipt that names both, each in at most
        three conditional writes. `bound` is the check that the manifest binds its generation and
        rows. Wherever it stops, it has sent no receipt before both outputs were stored. When every
        request is delivered it succeeds exactly when the inputs are good and all three objects,
        whoever wrote them, are its own. */
    method PublishOutputs(prefix: string, generationId: string, launch: string, rows: Body, manifest: Body, bound: bool,
                          kmsKey: string, w: nat -> Weather)
      returns (r: Result<(Authority, Body), PublishError>, next: nat,
               ghost rowsSent: seq<Put>, ghost manifestSent: seq<Put>, ghost receiptSent: seq<Put>)
      requires Inv(objects) && rows.Output? && manifest.Output?
      modifies this
      ensures Inv(objects) && Grows(old(objects), objects)
      ensures Ran(old(objects), objects, w, 0, next, rowsSent + manifestSent + receiptSent)
      ensures |rowsSent| <= MAX_PUBLISH_ATTEMPTS && IsFor(rowsSent, prefix + "rows.json", rows, kmsKey)
      ensures |manifestSent| <= MAX_PUBLISH_ATTEMPTS && IsFor(manifestSent, prefix + "manifest.json", manifest, kmsKey)
      ensures manifestSent != [] ==> OwnAt(objects, prefix + "rows.json", rows, kmsKey)
      ensures receiptSent != [] ==>
        && |receiptSent| <= MAX_PUBLISH_ATTEMPTS
        && OwnAt(objects, prefix + "rows.json", rows, kmsKey) && OwnAt(objects, prefix + "manifest.json", manifest, kmsKey)
        && IsFor(receiptSent, prefix + "output-authority.json", ReceiptOver(objects, prefix, generationId, launch, rows, manifest), kmsKey)
      ensures r.Ok? ==>
        var (authority, receipt) := r.value;
        && receipt.Commit? && receipt.generationId == generationId && receipt.launch == launch
        && authority == Authority(prefix + "output-authority.json", authority.version, receipt) && Names(objects, authority)
        && receipt.rows == Authority(prefix + "rows.json", receipt.rows.version, rows) && Names(objects, receipt.rows)
        && receipt.manifest == Authority(prefix + "manifest.json", receipt.manifest.version, manifest) && Names(objects, receipt.manifest)
      ensures r.Ok? ==> Published(objects, prefix, generationId, launch, rows, manifest, kmsKey)
      ensures AllDelivered(w) ==>
        (r.Ok? <==> EndsWithSlash(prefix) && bound && Published(objects, prefix, generationId, launch, rows, manifest, kmsKey))
    {
      hide IsOwn;
      hide Ran;
      hide Inv;
      ghost var start := objects;
      next, rowsSent, manifestSent, receiptSent := 0, [], [], [];
      RanNot(start, w, 0);
      assert rowsSent + manifestSent + receiptSent == [];
      if prefix == "" || prefix[|prefix| - 1] != '/' { return Err(BadPrefix), next, [], [], []; }
      if !bound { return Err(BadManifest), next, [], [], []; }
      var both, receiptPut;
      both, next, rowsSent, manifestSent := PublishBoth(prefix, rows, manifest, kmsKey, w);
      assert rowsSent + manifestSent + [] == rowsSent + manifestSent;
      if both.Err? { return Err(both.error), next, rowsSent, manifestSent, receiptSent; }
      ghost var t, before := objects, next;
      var receipt := Commit(generationId, launch, both.value.0, both.value.1);
      assert receipt == ReceiptOver(t, prefix, generationId, launch, rows, manifest);
      receiptPut, next, receiptSent := PutImmutableOutput(prefix + "output-authority.json", receipt, kmsKey, w, next);
      RanOn(start, t, objects, w, 0, before, next, rowsSent + manifestSent, receiptSent);
      OwnStays(t, objects, prefix + "rows.json", rows, kmsKey);
      OwnStays(t, objects, prefix + "manifest.json", manifest, kmsKey);
      BackingStays(t, objects, receipt);
      if receiptPut.Err? { return Err(receiptPut.error), next, rowsSent, manifestSent, receiptSent; }
      r := Ok((receiptPut.value, receipt));
    }
  }
}
