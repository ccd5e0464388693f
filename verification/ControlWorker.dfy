/** Task dispatch of `src/featureforge/control_worker.py`: what each task demands of the durable
    results before it, with any number of workers dispatching, crashing and replaying at once. */
module ControlWorker {
  import opened Ordering
  import opened Tasks
  import L = TaskLedger
  import opened Traces

  const ORDER: seq<string> := ["VALIDATE", "START_GLUE", "RECORD_GLUE", "MATERIALIZE_ONLINE", "PARITY", "ACTIVATE", "COMPLETE"]

  predicate Completed(t: L.Records, run: string, task: string) {
    (run, task) in t && t[(run, task)].state == L.Completed && t[(run, task)].result.Some?
  }

  /** `_prior`: the durable result of a task completed under this very manifest. */
  function Prior(t: L.Records, run: string, task: string, manifest: string): Option<TaskResult> {
    if Completed(t, run, task) && t[(run, task)].manifestDigest == manifest then t[(run, task)].result else None
  }

  predicate Known(t: L.Records, run: string, task: string, manifest: string, result: TaskResult) {
    Prior(t, run, task, manifest) == Some(result)
  }

  /** The plan `_plan` rebuilds from the durable results of VALIDATE and RECORD_GLUE. */
  function PlanFrom(manifest: string, admission: TaskResult, glue: TaskResult, context: Payload): PlanInputs
    requires admission.Admission? && glue.GlueOutput?
  {
    PlanInputs(manifest, admission.frozenExpected, glue.onlinePayload, context.featureSet, context.materializedAt)
  }

  /** The evidence each completed task rests on: which earlier results there are, and how it agrees
      with them. */
  predicate Justified(t: L.Records, run: string, task: string, manifest: string, result: TaskResult) {
    var admission, launch := Prior(t, run, "VALIDATE", manifest), Prior(t, run, "START_GLUE", manifest);
    var glue, online := Prior(t, run, "RECORD_GLUE", manifest), Prior(t, run, "MATERIALIZE_ONLINE", manifest);
    var parity, activation := Prior(t, run, "PARITY", manifest), Prior(t, run, "ACTIVATE", manifest);
    if task == "VALIDATE" then result.Admission?
    else if !(admission.Some? && admission.value.Admission?) then false
    else if task == "START_GLUE" then result.GlueLaunch?
    else if task == "RECORD_GLUE" then
      && launch.Some? && launch.value.GlueLaunch? && result.GlueOutput?
      && result.glueJobRunId == launch.value.jobRunId && result.launch == launch.value.launchToken
    else if !(glue.Some? && glue.value.GlueOutput?) then false
    else if task == "MATERIALIZE_ONLINE" then
      result.Materialization? && result.plan == PlanFrom(manifest, admission.value, glue.value, result.context)
    else if !(online.Some? && online.value.Materialization?) then false
    else if task == "PARITY" then
      result.Parity? && result.parityPlan == online.value.plan && result.parityReceipt == online.value.receipt
    else if !(parity.Some? && parity.value.Parity?) then false
    else if task == "ACTIVATE" then
      && result.Activation? && parity.value.eligible
      && result.activated == online.value.plan && result.activationReceipt == online.value.receipt
    else if task == "COMPLETE" then
      && launch.Some? && activation.Some? && activation.value.Activation? && result.Completion?
      && result.admission == admission.value.admissionDigest
      && result.authorities == glue.value.outputs + [admission.value.frozenExpected, parity.value.parityReport]
    else false
  }

  // ---- Steps of all workers ----------------------------------------------------------------------------------

  datatype Step =
    | Start(run: string, task: string, record: L.TaskRecord)
    | Finish(run: string, task: string, manifest: string, result: TaskResult)

  /** A worker finishes a task only with a justified result, under the manifest it began with: a
      property of its program, which `Dispatch` below is proved to have. */
  function Apply(t: L.Records, step: Step): L.Records {
    match step
    case Start(run, task, record) => if record.IsRequest() then L.OnBegin(t, (run, task), record).records else t
    case Finish(run, task, manifest, result) =>
      if (run, task) in t && t[(run, task)].manifestDigest == manifest && Justified(t, run, task, manifest, result)
      then L.OnComplete(t, (run, task), result).records else t
  }

  function Run(t: L.Records, steps: seq<Step>): L.Records {
    if steps == [] then t else Apply(Run(t, steps[..|steps| - 1]), steps[|steps| - 1])
  }

  predicate TaskHolds(t: L.Records, run: string, task: string) {
    Completed(t, run, task) ==> Justified(t, run, task, t[(run, task)].manifestDigest, t[(run, task)].result.value)
  }

  ghost predicate Inv(t: L.Records) {
    L.Inv(t) && forall run, task {:trigger TaskHolds(t, run, task)} :: TaskHolds(t, run, task)
  }

  lemma KnownStays(t: L.Records, t': L.Records, run: string, task: string, manifest: string)
    requires L.Grows(t, t')
    ensures Prior(t, run, task, manifest).Some? ==> Prior(t', run, task, manifest) == Prior(t, run, task, manifest)
  {
  }

  lemma JustifiedStays(t: L.Records, t': L.Records, run: string, task: string, manifest: string, result: TaskResult)
    requires L.Grows(t, t') && Justified(t, run, task, manifest, result)
    ensures Justified(t', run, task, manifest, result)
  {
    hide Prior;
    KnownStays(t, t', run, "VALIDATE", manifest);
    KnownStays(t, t', run, "START_GLUE", manifest);
    KnownStays(t, t', run, "RECORD_GLUE", manifest);
    KnownStays(t, t', run, "MATERIALIZE_ONLINE", manifest);
    KnownStays(t, t', run, "PARITY", manifest);
    KnownStays(t, t', run, "ACTIVATE", manifest);
  }

  lemma ApplyGrows(t: L.Records, step: Step)
    ensures L.Grows(t, Apply(t, step)) && (L.Inv(t) ==> L.Inv(Apply(t, step)))
  {
    match step
    case Start(run, task, record) => L.PerformGrows(t, L.BeginOp((run, task), record));
    case Finish(run, task, manifest, result) => L.PerformGrows(t, L.CompleteOp((run, task), result));
  }

  lemma ApplyKeeps(t: L.Records, step: Step)
    requires Inv(t)
    ensures Inv(Apply(t, step))
  {
    var t' := Apply(t, step);
    ApplyGrows(t, step);
    forall run, task ensures TaskHolds(t', run, task) {
      assert TaskHolds(t, run, task);
      if Completed(t', run, task) {
        var record := t'[(run, task)];
        if Completed(t, run, task) {
          JustifiedStays(t, t', run, task, record.manifestDigest, record.result.value);
        } else {
          assert step.Finish? && step.run == run && step.task == task && step.result == record.result.value;
          JustifiedStays(t, t', run, task, record.manifestDigest, record.result.value);
        }
      }
    }
  }

  lemma {:induction false} RunKeeps(t: L.Records, steps: seq<Step>)
    requires Inv(t)
    ensures Inv(Run(t, steps)) && L.Grows(t, Run(t, steps))
  {
    if steps != [] {
      var before := Run(t, steps[..|steps| - 1]);
      RunKeeps(t, steps[..|steps| - 1]);
      ApplyKeeps(before, steps[|steps| - 1]);
      ApplyGrows(before, steps[|steps| - 1]);
      GrowsOn(t, before, Run(t, steps));
    }
  }

  lemma GrowsOn(t: L.Records, t': L.Records, t'': L.Records)
    requires L.Grows(t, t') && L.Grows(t', t'')
    ensures L.Grows(t, t'')
  {
  }

  // ---- What every reachable ledger satisfies --------------------------------------------------------------------

  lemma DirectPrerequisite(t: L.Records, run: string, i: nat)
    requires Inv(t) && 0 < i < |ORDER| && Completed(t, run, ORDER[i])
    ensures Completed(t, run, ORDER[i - 1])
    ensures t[(run, ORDER[i - 1])].manifestDigest == t[(run, ORDER[i])].manifestDigest
  {
    assert TaskHolds(t, run, ORDER[i]);
  }

  /** The completed tasks of a run are downward closed under their order and all bind one
      manifest digest, whatever replays, crashes and concurrent workers there were. */
  lemma {:induction false} CompletedTasksAreClosed(steps: seq<Step>, run: string, i: nat, j: nat)
    requires i <= j < |ORDER| && Completed(Run(map[], steps), run, ORDER[j])
    ensures var t := Run(map[], steps);
      Completed(t, run, ORDER[i]) && t[(run, ORDER[i])].manifestDigest == t[(run, ORDER[j])].manifestDigest
    decreases j
  {
    RunKeeps(map[], steps);
    if i < j {
      DirectPrerequisite(Run(map[], steps), run, j);
      CompletedTasksAreClosed(steps, run, i, j - 1);
    }
  }

  /** Activation is completed only over eligible durable parity of exactly the plan and receipt that
      were materialized, from the rows recorded of exactly the job that was launched. */
  lemma ActivationRestsOnEvidence(steps: seq<Step>, run: string)
    requires Completed(Run(map[], steps), run, "ACTIVATE")
    ensures
      var t := Run(map[], steps);
      var manifest, result := t[(run, "ACTIVATE")].manifestDigest, t[(run, "ACTIVATE")].result.value;
      exists admission, launch, glue, online, parity: TaskResult ::
        && Known(t, run, "VALIDATE", manifest, admission) && admission.Admission?
        && Known(t, run, "START_GLUE", manifest, launch) && launch.GlueLaunch?
        && Known(t, run, "RECORD_GLUE", manifest, glue) && glue.GlueOutput? && glue.glueJobRunId == launch.jobRunId
        && Known(t, run, "MATERIALIZE_ONLINE", manifest, online) && online.Materialization?
        && online.plan == PlanFrom(manifest, admission, glue, online.context)
        && Known(t, run, "PARITY", manifest, parity) && parity.Parity? && parity.eligible && parity.parityPlan == online.plan
        && result.Activation? && result.activated == online.plan && result.activationReceipt == online.receipt
  {
    RunKeeps(map[], steps);
    var t := Run(map[], steps);
    var manifest := t[(run, "ACTIVATE")].manifestDigest;
    assert TaskHolds(t, run, "ACTIVATE");
    var admission := Prior(t, run, "VALIDATE", manifest).value;
    var parity := Prior(t, run, "PARITY", manifest).value;
    assert TaskHolds(t, run, "PARITY");
    var online := Prior(t, run, "MATERIALIZE_ONLINE", manifest).value;
    assert TaskHolds(t, run, "MATERIALIZE_ONLINE");
    var glue := Prior(t, run, "RECORD_GLUE", manifest).value;
    assert TaskHolds(t, run, "RECORD_GLUE");
    var launch := Prior(t, run, "START_GLUE", manifest).value;
    assert Known(t, run, "VALIDATE", manifest, admission) && Known(t, run, "START_GLUE", manifest, launch);
    assert Known(t, run, "RECORD_GLUE", manifest, glue) && Known(t, run, "MATERIALIZE_ONLINE", manifest, online);
    assert Known(t, run, "PARITY", manifest, parity);
  }

  // ---- One worker among others ----------------------------------------------------------------------------------

  datatype Fault = Delivered | LostRequest | LostReply

  datatype Weather = Weather(others: seq<Step>, fault: Fault)

  /** `output-authority.json` as read back: whether it binds source, contract and digests, and
      what it names. */
  datatype OutputAuthority = OutputAuthority(intact: bool, launchToken: string, rows: string, objects: seq<string>)

  datatype Report = Report(passed: bool, digest: string)

  /** What the other services answer during one dispatch; `None` or `false` for a failure. */
  datatype External = External(
    currentAdmission: bool,
    admissionDigest: Option<string>,
    frozenExpected: string,
    launch: Option<TaskResult>,
    output: Option<OutputAuthority>,
    rowsMatchFrozen: bool,
    materialized: Option<string>,
    actualReadable: bool,
    report: Option<Report>,
    reportObject: string,
    parityDigest: string,
    storedReport: Option<Report>,
    activated: Option<int>,
    outputsReadable: bool,
    receiptFits: bool)

  datatype WorkerError = Unsupported | BadPayload | Denied | LedgerFailed(ledger: L.TaskError) | ServiceFailed | TooLarge

  function OthersOf(w: nat -> Weather): nat -> seq<Step> {
    (i: nat) => w(i).others
  }

  ghost predicate IsRun(trace: seq<Act<Step>>, t: L.Records, t': L.Records, met: seq<Step>, sent: seq<Step>) {
    IsTrace(trace, met, sent) && t' == Run(t, ArrivedIn(trace))
  }

  ghost predicate Went(t: L.Records, t': L.Records, w: nat -> Weather, n: nat, m: nat, sent: seq<Step>) {
    n <= m && exists trace :: IsRun(trace, t, t', Between(OthersOf(w), n, m), sent)
  }

  /** From `t` to `t'` by this worker's steps, `sent`, each if it arrived, and those of others that it
      meets from request `n` up to request `m`. */
  ghost predicate Ran(t: L.Records, t': L.Records, w: nat -> Weather, n: nat, m: nat, sent: seq<Step>) {
    Went(t, t', w, n, m, sent) && L.Grows(t, t') && Inv(t')
  }

  lemma {:induction false} RunTwice(t: L.Records, a: seq<Step>, b: seq<Step>)
    ensures Run(t, a + b) == Run(Run(t, a), b)
  {
    if b == [] {
      assert a + b == a;
    } else {
      var last := |b| - 1;
      RunTwice(t, a, b[..last]);
      assert (a + b)[..|a + b| - 1] == a + b[..last];
    }
  }

  lemma RanNot(t: L.Records, w: nat -> Weather, n: nat)
    requires Inv(t)
    ensures Ran(t, t, w, n, n, [])
  {
    assert IsRun([], t, t, Between(OthersOf(w), n, n), []);
  }

  lemma RanByOthers(t: L.Records, w: nat -> Weather, n: nat)
    requires Inv(t)
    ensures Ran(t, Run(t, w(n).others), w, n, n + 1, [])
  {
    RunKeeps(t, w(n).others);
    BetweenOne(OthersOf(w), n);
    var trace := TraceOfMet(w(n).others);
    assert IsRun(trace, t, Run(t, w(n).others), w(n).others, []);
  }

  /** One conditional request, which arrives or not, after others' steps. */
  lemma RanByStep(t: L.Records, w: nat -> Weather, n: nat, step: Step)
    requires Inv(t)
    ensures Ran(t, Run(t, w(n).others), w, n, n + 1, [step])
    ensures Ran(t, Apply(Run(t, w(n).others), step), w, n, n + 1, [step])
  {
    var met := w(n).others;
    BetweenOne(OthersOf(w), n);
    RunKeeps(t, met);
    assert met + [] == met && (met + [step])[..|met|] == met;
    RunKeeps(t, met + [step]);
    hide Inv;
    hide Apply;
    var lost := TraceOfSent(met, step, false);
    assert IsRun(lost, t, Run(t, met), met, [step]);
    var trace := TraceOfSent(met, step, true);
    assert IsRun(trace, t, Apply(Run(t, met), step), met, [step]);
  }

  lemma RanOn(t: L.Records, t': L.Records, t'': L.Records, w: nat -> Weather, a: nat, b: nat, c: nat, sent: seq<Step>, sent': seq<Step>)
    requires Ran(t, t', w, a, b, sent) && Ran(t', t'', w, b, c, sent')
    ensures Ran(t, t'', w, a, c, sent + sent')
  {
    GrowsOn(t, t', t'');
    var x :| IsRun(x, t, t', Between(OthersOf(w), a, b), sent);
    var y :| IsRun(y, t', t'', Between(OthersOf(w), b, c), sent');
    hide Run;
    hide Inv;
    hide L.Grows;
    hide ArrivedIn;
    hide Between;
    hide MetIn;
    hide SentIn;
    TraceTwice(x, y);
    RunTwice(t, ArrivedIn(x), ArrivedIn(y));
    BetweenTwice(OthersOf(w), a, b, c);
    assert IsRun(x + y, t, t'', Between(OthersOf(w), a, c), sent + sent');
  }

  /** Then only others' steps, or before it. */
  lemma RanOnMet(t: L.Records, t': L.Records, t'': L.Records, w: nat -> Weather, a: nat, b: nat, c: nat, sent: seq<Step>, sent': seq<Step>)
    requires Ran(t, t', w, a, b, sent) && Ran(t', t'', w, b, c, sent')
    ensures sent' == [] ==> Ran(t, t'', w, a, c, sent)
    ensures sent == [] ==> Ran(t, t'', w, a, c, sent')
  {
    RanOn(t, t', t'', w, a, b, c, sent, sent');
    assert sent + [] == sent && [] + sent' == sent';
  }

  /** The first `n` tasks are durably completed under the manifest. */
  predicate AllPrior(t: L.Records, run: string, manifest: string, n: nat) {
    forall j | 0 <= j < n && j < |ORDER| :: Prior(t, run, ORDER[j], manifest).Some?
  }

  lemma PriorsStay(t: L.Records, t': L.Records, run: string, manifest: string, n: nat)
    requires L.Grows(t, t')
    ensures Prior(t, run, "VALIDATE", manifest).Some? ==> Prior(t', run, "VALIDATE", manifest) == Prior(t, run, "VALIDATE", manifest)
    ensures Prior(t, run, "RECORD_GLUE", manifest).Some? ==> Prior(t', run, "RECORD_GLUE", manifest) == Prior(t, run, "RECORD_GLUE", manifest)
    ensures AllPrior(t, run, manifest, n) ==> AllPrior(t', run, manifest, n)
  {
    KnownStays(t, t', run, "VALIDATE", manifest);
    KnownStays(t, t', run, "RECORD_GLUE", manifest);
    forall j | 0 <= j < n && j < |ORDER| && Prior(t, run, ORDER[j], manifest).Some? ensures Prior(t', run, ORDER[j], manifest).Some? {
      KnownStays(t, t', run, ORDER[j], manifest);
    }
  }

  lemma CompletionIsJustified(t: L.Records, run: string, manifest: string, admission: TaskResult, glue: TaskResult, parity: TaskResult)
    requires Inv(t) && AllPrior(t, run, manifest, 6)
    requires Known(t, run, "VALIDATE", manifest, admission) && admission.Admission?
    requires Known(t, run, "RECORD_GLUE", manifest, glue) && glue.GlueOutput?
    requires Known(t, run, "PARITY", manifest, parity) && parity.Parity?
    ensures Justified(t, run, "COMPLETE", manifest,
                      Completion(admission.admissionDigest, glue.outputs + [admission.frozenExpected, parity.parityReport]))
  {
    assert TaskHolds(t, run, "MATERIALIZE_ONLINE") && TaskHolds(t, run, "ACTIVATE");
    assert Prior(t, run, ORDER[1], manifest).Some? && Prior(t, run, ORDER[3], manifest).Some? && Prior(t, run, ORDER[5], manifest).Some?;
  }

  /** Every ledger request is delivered, and no other worker acts. */
  predicate IsCalm(w: Weather) {
    w.others == [] && w.fault == Delivered
  }

  ghost predicate Calm(w: nat -> Weather) {
    forall i :: IsCalm(w(i))
  }

  // What each task demands: of its durable evidence, its payload, and what the other services answer.

  predicate HasAdmission(t: L.Records, run: string, manifest: string) {
    Prior(t, run, "VALIDATE", manifest).Some? && Prior(t, run, "VALIDATE", manifest).value.Admission?
  }

  lemma AdmissionStays(t: L.Records, t': L.Records, run: string, manifest: string)
    requires L.Grows(t, t') && HasAdmission(t, run, manifest)
    ensures HasAdmission(t', run, manifest)
  {
    KnownStays(t, t', run, "VALIDATE", manifest);
  }

  predicate Plannable(t: L.Records, run: string, manifest: string, context: Payload, x: External) {
    var glue := Prior(t, run, "RECORD_GLUE", manifest);
    && HasAdmission(t, run, manifest) && glue.Some? && glue.value.GlueOutput?
    && context.onlinePayload == glue.value.onlinePayload && x.rowsMatchFrozen
  }

  predicate CanStartGlue(t: L.Records, run: string, manifest: string, payload: Payload, x: External) {
    && HasAdmission(t, run, manifest) && payload.executionId == Prior(t, run, "VALIDATE", manifest).value.executionId
    && x.launch.Some? && x.launch.value.GlueLaunch?
  }

  predicate CanRecordGlue(t: L.Records, run: string, manifest: string, payload: Payload, x: External) {
    var launch := Prior(t, run, "START_GLUE", manifest);
    && launch.Some? && launch.value.GlueLaunch?
    && payload.jobRunId == launch.value.jobRunId != "" && payload.jobName == launch.value.jobName && payload.jobState == "SUCCEEDED"
    && x.output.Some? && x.output.value.intact && x.output.value.launchToken == launch.value.launchToken
  }

  predicate CanMaterialize(t: L.Records, run: string, manifest: string, payload: Payload, x: External) {
    Plannable(t, run, manifest, payload, x) && x.materialized.Some?
  }

  predicate CanCompare(t: L.Records, run: string, manifest: string, payload: Payload, x: External) {
    var online := Prior(t, run, "MATERIALIZE_ONLINE", manifest);
    && online.Some? && online.value.Materialization? && online.value.context == payload
    && Plannable(t, run, manifest, payload, x) && x.actualReadable && x.report.Some?
    && payload.requestTime.Some? && payload.maximumAge.Some?
    && 0 <= payload.maximumAge.value && payload.materializedAt <= payload.requestTime.value
  }

  predicate CanActivate(t: L.Records, run: string, manifest: string, payload: Payload, x: External) {
    var parity, online := Prior(t, run, "PARITY", manifest), Prior(t, run, "MATERIALIZE_ONLINE", manifest);
    && parity.Some? && parity.value.Parity? && parity.value.eligible && parity.value.parityDigest == payload.parityDigest
    && x.storedReport == Some(Report(true, parity.value.reportDigest))
    && online.Some? && online.value.Materialization?
    && Plannable(t, run, manifest, online.value.context, x) && x.actualReadable
    && 0 <= payload.expectedVersion && (payload.expectedGeneration.None? ==> payload.expectedVersion == 0)
    && x.activated.Some?
  }

  predicate CanComplete(t: L.Records, run: string, manifest: string, payload: Payload, x: External) {
    var glue, parity := Prior(t, run, "RECORD_GLUE", manifest), Prior(t, run, "PARITY", manifest);
    && AllPrior(t, run, manifest, 6) && HasAdmission(t, run, manifest)
    && glue.Some? && glue.value.GlueOutput? && parity.Some? && parity.value.Parity?
    && payload.outputs == glue.value.outputs
    && |Prior(t, run, "VALIDATE", manifest).value.admissionDigest| == 64 && x.outputsReadable
  }

  predicate Executable(t: L.Records, run: string, task: string, manifest: string, payload: Payload, x: External) {
    if task == "START_GLUE" then CanStartGlue(t, run, manifest, payload, x)
    else if task == "RECORD_GLUE" then CanRecordGlue(t, run, manifest, payload, x)
    else if task == "MATERIALIZE_ONLINE" then CanMaterialize(t, run, manifest, payload, x)
    else if task == "PARITY" then CanCompare(t, run, manifest, payload, x)
    else if task == "ACTIVATE" then CanActivate(t, run, manifest, payload, x)
    else CanComplete(t, run, manifest, payload, x)
  }

  function Request(manifest: string, payload: Payload): L.TaskRecord {
    L.TaskRecord("stage6-task-v1", manifest, payload, L.Started, None)
  }

  /** A dispatch replays a task completed for the same request, or executes an admissible one. */
  predicate Dispatchable(t: L.Records, run: string, task: string, manifest: string, payload: Payload, x: External) {
    && task in ORDER
    && ((run, task) in t ==> t[(run, task)].SameTask(Request(manifest, payload)))
    && (if task == "VALIDATE" then IsBoundedIdentity(payload.executionId) && x.admissionDigest.Some?
        else HasAdmission(t, run, manifest) && x.currentAdmission)
    && (Completed(t, run, task)
        || (x.receiptFits && (task == "VALIDATE" || Executable(t, run, task, manifest, payload, x))))
  }

  /** Starting a task tells nothing yet to the tasks after it. */
  lemma StartingKeepsPriors(t: L.Records, run: string, task: string, record: L.TaskRecord, manifest: string, payload: Payload, x: External)
    requires (run, task) !in t && record.IsRequest()
    ensures var t' := t[(run, task) := record];
      Executable(t', run, task, manifest, payload, x) == Executable(t, run, task, manifest, payload, x)
  {
    var t' := t[(run, task) := record];
    forall other ensures Prior(t', run, other, manifest) == Prior(t, run, other, manifest) {
    }
    hide Prior;
  }

  lemma AdmissionIsJustified(t: L.Records, run: string, manifest: string, result: TaskResult)
    requires result.Admission?
    ensures Justified(t, run, "VALIDATE", manifest, result)
  {
  }

  /** The start of the task, and then perhaps its completion. */
  predicate IsOwn(sent: seq<Step>, run: string, task: string, manifest: string, payload: Payload) {
    && |sent| <= 2
    && (|sent| > 0 ==> sent[0] == Start(run, task, Request(manifest, payload)))
    && (|sent| > 1 ==> sent[1].Finish? && sent[1] == Finish(run, task, manifest, sent[1].result))
  }

  class Worker {
    var records: L.Records

    method Others(w: nat -> Weather, n: nat)
      requires Inv(records)
      modifies this
      ensures Ran(old(records), records, w, n, n + 1, []) && records == Run(old(records), w(n).others)
      ensures w(n).others == [] ==> records == old(records)
    {
      RanByOthers(records, w, n);
      records := Run(records, w(n).others);
    }

    method ReadPrior(run: string, task: string, manifest: string, w: nat -> Weather, n: nat) returns (r: Result<TaskResult, WorkerError>)
      requires Inv(records)
      modifies this
      ensures Ran(old(records), records, w, n, n + 1, [])
      ensures r.Ok? ==> Known(records, run, task, manifest, r.value)
      ensures IsCalm(w(n)) ==> records == old(records) && (r.Ok? <==> Prior(records, run, task, manifest).Some?)
    {
      Others(w, n);
      if w(n).fault != Delivered { return Err(LedgerFailed(L.TransportFailed)); }
      if (run, task) !in records { return Err(Denied); }
      var record := records[(run, task)];
      if record.state != L.Completed || record.manifestDigest != manifest || record.result.None? { return Err(Denied); }
      r := Ok(record.result.value);
    }

    /** `_plan`: admission and recorded rows are read again, and must agree with the payload. */
    method RebuildPlan(run: string, manifest: string, context: Payload, x: External, w: nat -> Weather, n: nat)
      returns (r: Result<PlanInputs, WorkerError>, next: nat)
      requires Inv(records)
      modifies this
      ensures Ran(old(records), records, w, n, next, [])
      ensures r.Ok? ==> exists admission, glue: TaskResult ::
        && Known(records, run, "VALIDATE", manifest, admission) && admission.Admission?
        && Known(records, run, "RECORD_GLUE", manifest, glue) && glue.GlueOutput?
        && r.value == PlanFrom(manifest, admission, glue, context)
      ensures r.Ok? ==> Plannable(records, run, manifest, context, x)
      ensures Calm(w) ==> records == old(records) && (r.Ok? <==> Plannable(records, run, manifest, context, x))
    {
      hide Went;
      var admission := ReadPrior(run, "VALIDATE", manifest, w, n);
      next := n + 1;
      if admission.Err? { return Err(admission.error), next; }
      ghost var t := records;
      var glue := ReadPrior(run, "RECORD_GLUE", manifest, w, n + 1);
      next := n + 2;
      RanOnMet(old(records), t, records, w, n, n + 1, n + 2, [], []);
      KnownStays(t, records, run, "VALIDATE", manifest);
      if glue.Err? { return Err(glue.error), next; }
      if !admission.value.Admission? || !glue.value.GlueOutput? { return Err(Denied), next; }
      if context.onlinePayload != glue.value.onlinePayload || !x.rowsMatchFrozen { return Err(Denied), next; }
      r := Ok(PlanInputs(manifest, admission.value.frozenExpected, context.onlinePayload, context.featureSet, context.materializedAt));
    }

    method ExecuteStartGlue(run: string, manifest: string, payload: Payload, x: External, w: nat -> Weather, n: nat)
      returns (r: Result<TaskResult, WorkerError>, next: nat)
      requires Inv(records)
      modifies this
      ensures Ran(old(records), records, w, n, next, [])
      ensures r.Ok? ==> Justified(records, run, "START_GLUE", manifest, r.value) && CanStartGlue(records, run, manifest, payload, x)
      ensures r.Ok? ==> r.value == x.launch.value
      ensures Calm(w) ==> records == old(records) && (r.Ok? <==> CanStartGlue(records, run, manifest, payload, x))
    {
      var admitted := ReadPrior(run, "VALIDATE", manifest, w, n);
      next := n + 1;
      if admitted.Err? { return Err(admitted.error), next; }
      if !admitted.value.Admission? || payload.executionId != admitted.value.executionId { return Err(Denied), next; }
      if x.launch.None? || !x.launch.value.GlueLaunch? { return Err(ServiceFailed), next; }
      r := Ok(x.launch.value);
    }

    method ExecuteRecordGlue(run: string, manifest: string, payload: Payload, x: External, w: nat -> Weather, n: nat)
      returns (r: Result<TaskResult, WorkerError>, next: nat)
      requires Inv(records)
      requires Prior(records, run, "VALIDATE", manifest).Some? && Prior(records, run, "VALIDATE", manifest).value.Admission?
      modifies this
      ensures Ran(old(records), records, w, n, next, [])
      ensures r.Ok? ==> Justified(records, run, "RECORD_GLUE", manifest, r.value) && CanRecordGlue(records, run, manifest, payload, x)
      ensures Calm(w) ==> records == old(records) && (r.Ok? <==> CanRecordGlue(records, run, manifest, payload, x))
    {
      var launched := ReadPrior(run, "START_GLUE", manifest, w, n);
      next := n + 1;
      KnownStays(old(records), records, run, "VALIDATE", manifest);
      if launched.Err? { return Err(launched.error), next; }
      if !launched.value.GlueLaunch? { return Err(Denied), next; }
      if payload.jobRunId != launched.value.jobRunId || payload.jobName != launched.value.jobName { return Err(Denied), next; }
      if payload.jobState != "SUCCEEDED" { return Err(Denied), next; }
      if payload.jobRunId == "" { return Err(BadPayload), next; }
      if x.output.None? || !x.output.value.intact || x.output.value.launchToken != launched.value.launchToken { return Err(ServiceFailed), next; }
      r := Ok(GlueOutput(payload.jobRunId, x.output.value.launchToken, x.output.value.rows, x.output.value.objects));
    }

    method ExecuteMaterialize(run: string, manifest: string, payload: Payload, x: External, w: nat -> Weather, n: nat)
      returns (r: Result<TaskResult, WorkerError>, next: nat)
      requires Inv(records)
      modifies this
      ensures Ran(old(records), records, w, n, next, [])
      ensures r.Ok? ==> Justified(records, run, "MATERIALIZE_ONLINE", manifest, r.value) && CanMaterialize(records, run, manifest, payload, x)
      ensures Calm(w) ==> records == old(records) && (r.Ok? <==> CanMaterialize(records, run, manifest, payload, x))
    {
      var plan;
      plan, next := RebuildPlan(run, manifest, payload, x, w, n);
      if plan.Err? { return Err(plan.error), next; }
      if x.materialized.None? { return Err(ServiceFailed), next; }
      r := Ok(Materialization(plan.value, x.materialized.value, payload));
    }

    method ExecuteParity(run: string, manifest: string, payload: Payload, x: External, w: nat -> Weather, n: nat)
      returns (r: Result<TaskResult, WorkerError>, next: nat)
      requires Inv(records)
      modifies this
      ensures Ran(old(records), records, w, n, next, [])
      ensures r.Ok? ==> Justified(records, run, "PARITY", manifest, r.value) && CanCompare(records, run, manifest, payload, x)
      ensures Calm(w) ==> records == old(records) && (r.Ok? <==> CanCompare(records, run, manifest, payload, x))
      ensures r.Ok? ==> r.value.Parity? && (r.value.eligible <==> x.report.Some? && x.report.value.passed)
    {
      hide Went;
      var prior := ReadPrior(run, "MATERIALIZE_ONLINE", manifest, w, n);
      next := n + 1;
      if prior.Err? { return Err(prior.error), next; }
      if !prior.value.Materialization? || prior.value.context != payload { return Err(Denied), next; }
      ghost var t := records;
      var plan;
      plan, next := RebuildPlan(run, manifest, payload, x, w, next);
      RanOnMet(old(records), t, records, w, n, n + 1, next, [], []);
      KnownStays(t, records, run, "MATERIALIZE_ONLINE", manifest);
      if plan.Err? { return Err(plan.error), next; }
      if !x.actualReadable { return Err(ServiceFailed), next; }
      if payload.requestTime.None? || payload.maximumAge.None? || payload.maximumAge.value < 0
         || payload.requestTime.value < payload.materializedAt { return Err(BadPayload), next; }
      if x.report.None? { return Err(ServiceFailed), next; }
      assert TaskHolds(records, run, "MATERIALIZE_ONLINE");
      r := Ok(Parity(x.report.value.passed, x.report.value.digest, x.reportObject, x.parityDigest, plan.value, prior.value.receipt));
    }

    method ExecuteActivate(run: string, manifest: string, payload: Payload, x: External, w: nat -> Weather, n: nat)
      returns (r: Result<TaskResult, WorkerError>, next: nat)
      requires Inv(records)
      modifies this
      ensures Ran(old(records), records, w, n, next, [])
      ensures r.Ok? ==> Justified(records, run, "ACTIVATE", manifest, r.value) && CanActivate(records, run, manifest, payload, x)
      ensures Calm(w) ==> records == old(records) && (r.Ok? <==> CanActivate(records, run, manifest, payload, x))
    {
      hide Went;
      hide L.Grows;
      hide L.Inv;
      var parity := ReadPrior(run, "PARITY", manifest, w, n);
      next := n + 1;
      if parity.Err? { return Err(parity.error), next; }
      if !parity.value.Parity? || !parity.value.eligible || parity.value.parityDigest != payload.parityDigest { return Err(Denied), next; }
      if x.storedReport.None? || x.storedReport.value.digest != parity.value.reportDigest || !x.storedReport.value.passed { return Err(Denied), next; }
      ghost var t := records;
      var online := ReadPrior(run, "MATERIALIZE_ONLINE", manifest, w, n + 1);
      next := n + 2;
      RanOnMet(old(records), t, records, w, n, n + 1, n + 2, [], []);
      KnownStays(t, records, run, "PARITY", manifest);
      if online.Err? { return Err(online.error), next; }
      if !online.value.Materialization? { return Err(Denied), next; }
      ghost var t' := records;
      var plan;
      plan, next := RebuildPlan(run, manifest, online.value.context, x, w, next);
      RanOnMet(old(records), t', records, w, n, n + 2, next, [], []);
      KnownStays(t', records, run, "PARITY", manifest);
      KnownStays(t', records, run, "MATERIALIZE_ONLINE", manifest);
      if plan.Err? { return Err(plan.error), next; }
      if !x.actualReadable { return Err(ServiceFailed), next; }
      if payload.expectedVersion < 0 || (payload.expectedGeneration.None? && payload.expectedVersion != 0) { return Err(BadPayload), next; }
      if x.activated.None? { return Err(ServiceFailed), next; }
      assert TaskHolds(records, run, "MATERIALIZE_ONLINE");
      r := Ok(Activation(plan.value, online.value.receipt, x.activated.value));
    }

    /** Every earlier task is durably completed under this manifest. */
    method ReadAllPriors(run: string, manifest: string, w: nat -> Weather, n: nat) returns (r: Option<WorkerError>, next: nat)
      requires Inv(records)
      modifies this
      ensures Ran(old(records), records, w, n, next, [])
      ensures r.None? ==> AllPrior(records, run, manifest, 6)
      ensures Calm(w) ==> records == old(records) && (r.None? <==> AllPrior(records, run, manifest, 6))
    {
      ghost var start := records;
      hide Went;
      RanNot(start, w, n);
      next := n;
      for i := 0 to 6
        invariant next == n + i && Ran(start, records, w, n, next, []) && AllPrior(records, run, manifest, i)
        invariant Calm(w) ==> records == start
      {
        ghost var t := records;
        var prior := ReadPrior(run, ORDER[i], manifest, w, next);
        RanOnMet(start, t, records, w, n, next, next + 1, [], []);
        next := next + 1;
        PriorsStay(t, records, run, manifest, i);
        if prior.Err? { return Some(prior.error), next; }
      }
      r := None;
    }

    method ExecuteComplete(run: string, manifest: string, payload: Payload, x: External, w: nat -> Weather, n: nat)
      returns (r: Result<TaskResult, WorkerError>, next: nat)
      requires Inv(records)
      modifies this
      ensures Ran(old(records), records, w, n, next, [])
      ensures r.Ok? ==> Justified(records, run, "COMPLETE", manifest, r.value) && CanComplete(records, run, manifest, payload, x)
      ensures Calm(w) ==> records == old(records) && (r.Ok? <==> CanComplete(records, run, manifest, payload, x))
    {
      hide Justified;
      hide Prior;
      hide Went;
      ghost var start := records;
      var missing;
      missing, next := ReadAllPriors(run, manifest, w, n);
      if missing.Some? { return Err(missing.value), next; }
      ghost var t := records;
      var admission := ReadPrior(run, "VALIDATE", manifest, w, next);
      RanOnMet(start, t, records, w, n, next, next + 1, [], []);
      next := next + 1;
      PriorsStay(t, records, run, manifest, 6);
      if admission.Err? { return Err(admission.error), next; }
      ghost var t' := records;
      var glue := ReadPrior(run, "RECORD_GLUE", manifest, w, next);
      RanOnMet(start, t', records, w, n, next, next + 1, [], []);
      next := next + 1;
      PriorsStay(t', records, run, manifest, 6);
      if glue.Err? { return Err(glue.error), next; }
      ghost var t'' := records;
      var parity := ReadPrior(run, "PARITY", manifest, w, next);
      RanOnMet(start, t'', records, w, n, next, next + 1, [], []);
      next := next + 1;
      PriorsStay(t'', records, run, manifest, 6);
      if parity.Err? { return Err(parity.error), next; }
      if !admission.value.Admission? || !glue.value.GlueOutput? || !parity.value.Parity? { return Err(Denied), next; }
      if payload.outputs != glue.value.outputs { return Err(Denied), next; }
      if |admission.value.admissionDigest| != 64 { return Err(BadPayload), next; }
      if !x.outputsReadable { return Err(ServiceFailed), next; }
      r := Ok(Completion(admission.value.admissionDigest, payload.outputs + [admission.value.frozenExpected, parity.value.parityReport]));
      CompletionIsJustified(records, run, manifest, admission.value, glue.value, parity.value);
    }

    /** Admission is verified, and its expected state frozen, before the ledger is even asked to begin. */
    method ExecuteValidate(payload: Payload, x: External) returns (r: Result<TaskResult, WorkerError>)
      ensures r.Ok? <==> IsBoundedIdentity(payload.executionId) && x.admissionDigest.Some?
      ensures r.Ok? ==> r.value.Admission? && r.value.executionId == payload.executionId
    {
      if !IsBoundedIdentity(payload.executionId) { return Err(BadPayload); }
      if x.admissionDigest.None? { return Err(ServiceFailed); }
      r := Ok(Admission(payload.executionId, x.admissionDigest.value, x.frozenExpected));
    }

    method Execute(run: string, task: string, manifest: string, payload: Payload, x: External, w: nat -> Weather, n: nat)
      returns (r: Result<TaskResult, WorkerError>, next: nat)
      requires Inv(records) && task in ORDER && task != "VALIDATE"
      requires Prior(records, run, "VALIDATE", manifest).Some? && Prior(records, run, "VALIDATE", manifest).value.Admission?
      modifies this
      ensures Ran(old(records), records, w, n, next, [])
      ensures r.Ok? ==> Justified(records, run, task, manifest, r.value) && Executable(records, run, task, manifest, payload, x)
      ensures Calm(w) ==> records == old(records) && (r.Ok? <==> Executable(records, run, task, manifest, payload, x))
    {
      hide Justified;
      hide CanStartGlue;
      hide CanRecordGlue;
      hide CanMaterialize;
      hide CanCompare;
      hide CanActivate;
      hide CanComplete;
      if task == "START_GLUE" {
        r, next := ExecuteStartGlue(run, manifest, payload, x, w, n);
      } else if task == "RECORD_GLUE" {
        r, next := ExecuteRecordGlue(run, manifest, payload, x, w, n);
      } else if task == "MATERIALIZE_ONLINE" {
        r, next := ExecuteMaterialize(run, manifest, payload, x, w, n);
      } else if task == "PARITY" {
        r, next := ExecuteParity(run, manifest, payload, x, w, n);
      } else if task == "ACTIVATE" {
        r, next := ExecuteActivate(run, manifest, payload, x, w, n);
      } else {
        r, next := ExecuteComplete(run, manifest, payload, x, w, n);
      }
    }

    /** One atomic ledger `begin`. */
    method BeginTask(run: string, task: string, started: L.TaskRecord, w: nat -> Weather, n: nat) returns (r: Result<L.TaskRecord, WorkerError>)
      requires Inv(records) && started.IsRequest()
      modifies this
      ensures Ran(old(records), records, w, n, n + 1, [Start(run, task, started)])
      ensures r.Ok? ==> (run, task) in records && records[(run, task)] == r.value && r.value.SameTask(started)
      ensures IsCalm(w(n)) ==>
                && records == L.OnBegin(old(records), (run, task), started).records
                && (r.Ok? <==> (run, task) in old(records) ==> old(records)[(run, task)].SameTask(started))
    {
      hide Went;
      RanByStep(records, w, n, Start(run, task, started));
      Others(w, n);
      if w(n).fault == LostRequest { return Err(LedgerFailed(L.TransportFailed)); }
      var outcome := L.OnBegin(records, (run, task), started);
      records := outcome.records;
      if w(n).fault != Delivered { return Err(LedgerFailed(L.TransportFailed)); }
      if outcome.reply.Raised? { return Err(LedgerFailed(outcome.reply.error)); }
      r := Ok(outcome.reply.record);
    }

    /** One atomic ledger `complete`, of a result its evidence justifies. */
    method CompleteTask(run: string, task: string, manifest: string, result: TaskResult, w: nat -> Weather, n: nat)
      returns (r: Result<L.TaskRecord, WorkerError>)
      requires Inv(records) && (run, task) in records && records[(run, task)].manifestDigest == manifest
      requires Justified(records, run, task, manifest, result)
      modifies this
      ensures Ran(old(records), records, w, n, n + 1, [Finish(run, task, manifest, result)])
      ensures r.Ok? ==> Known(records, run, task, manifest, result) && r.value == records[(run, task)]
      ensures IsCalm(w(n)) && old(records)[(run, task)].state == L.Started ==> r.Ok?
    {
      hide Went;
      RanByStep(records, w, n, Finish(run, task, manifest, result));
      Others(w, n);
      JustifiedStays(old(records), records, run, task, manifest, result);
      if w(n).fault == LostRequest { return Err(LedgerFailed(L.TransportFailed)); }
      var outcome := L.OnComplete(records, (run, task), result);
      records := outcome.records;
      if w(n).fault != Delivered { return Err(LedgerFailed(L.TransportFailed)); }
      if outcome.reply.Raised? { return Err(LedgerFailed(outcome.reply.error)); }
      r := Ok(outcome.reply.record);
    }

    /** What `dispatch` does before it begins the task: admission is computed, or read and still current. */
    method Preflight(run: string, task: string, manifest: string, payload: Payload, x: External, w: nat -> Weather)
      returns (r: Result<Option<TaskResult>, WorkerError>)
      requires Inv(records)
      modifies this
      ensures Ran(old(records), records, w, 0, 1, [])
      ensures r.Ok? && task == "VALIDATE" ==> r.value.Some? && r.value.value.Admission?
      ensures r.Ok? && task != "VALIDATE" ==> r.value.None? && HasAdmission(records, run, manifest)
      ensures Calm(w) ==> records == old(records)
      ensures Calm(w) ==>
        (r.Ok? <==> if task == "VALIDATE"
                    then ((run, task) in records ==> records[(run, task)].SameTask(Request(manifest, payload)))
                         && IsBoundedIdentity(payload.executionId) && x.admissionDigest.Some?
                    else HasAdmission(records, run, manifest) && x.currentAdmission)
    {
      hide Went;
      if task == "VALIDATE" {
        Others(w, 0);
        if w(0).fault != Delivered { return Err(LedgerFailed(L.TransportFailed)); }
        if (run, task) in records && !records[(run, task)].SameTask(Request(manifest, payload)) { return Err(LedgerFailed(L.IdentityReused)); }
        var executed := ExecuteValidate(payload, x);
        if executed.Err? { return Err(executed.error); }
        return Ok(Some(executed.value));
      }
      var validated := ReadPrior(run, "VALIDATE", manifest, w, 0);
      if validated.Err? { return Err(validated.error); }
      if !validated.value.Admission? || !x.currentAdmission { return Err(Denied); }
      r := Ok(None);
    }

    /** From a begun task to its completion. */
    method Fulfil(run: string, task: string, manifest: string, payload: Payload, x: External, admitted: Option<TaskResult>,
                  w: nat -> Weather, n: nat)
      returns (r: Result<L.TaskRecord, WorkerError>, next: nat, ghost sent: seq<Step>)
      requires Inv(records) && task in ORDER && (run, task) in records && records[(run, task)].SameTask(Request(manifest, payload))
      requires if task == "VALIDATE" then admitted.Some? && admitted.value.Admission?
               else admitted.None? && HasAdmission(records, run, manifest)
      modifies this
      ensures Ran(old(records), records, w, n, next, sent)
      ensures sent == [] || (|sent| == 1 && sent[0].Finish? && sent == [Finish(run, task, manifest, sent[0].result)])
      ensures r.Ok? ==>
        && |sent| == 1 && Known(records, run, task, manifest, sent[0].result)
        && r.value == records[(run, task)] && r.value.SameTask(Request(manifest, payload))
      ensures Calm(w) && old(records)[(run, task)].state == L.Started ==>
        (r.Ok? <==> x.receiptFits && (task == "VALIDATE" || Executable(old(records), run, task, manifest, payload, x)))
    {
      hide Justified;
      hide Executable;
      hide Went;
      ghost var start := records;
      RanNot(start, w, n);
      next, sent := n, [];
      var result: TaskResult;
      if admitted.Some? {
        result := admitted.value;
        AdmissionIsJustified(records, run, manifest, result);
      } else {
        var executed;
        executed, next := Execute(run, task, manifest, payload, x, w, n);
        if executed.Err? { return Err(executed.error), next, sent; }
        result := executed.value;
      }
      if !x.receiptFits { return Err(TooLarge), next, sent; }
      ghost var t, before := records, next;
      r := CompleteTask(run, task, manifest, result, w, next);
      next, sent := next + 1, [Finish(run, task, manifest, result)];
      RanOnMet(start, t, records, w, n, before, next, [], sent);
    }

    /** `dispatch`: what it sends to the ledger is the start of its own task and then its completion
        with a result, between exactly the others' steps it meets; so the closure and evidence of
        completed tasks hold over any number of dispatches. What it returns is the durable completed
        record, under this manifest and with its evidence. Undisturbed, it returns one exactly when
        the request replays a completed task or every demand on it is met. */
    method Dispatch(run: string, task: string, manifest: string, payload: Payload, x: External, w: nat -> Weather)
      returns (r: Result<L.TaskRecord, WorkerError>, next: nat, ghost sent: seq<Step>)
      requires Inv(records)
      modifies this
      ensures Ran(old(records), records, w, 0, next, sent)
      ensures IsOwn(sent, run, task, manifest, payload)
      ensures r.Ok? && |sent| > 1 ==> r.value.result == Some(sent[1].result)
      ensures r.Ok? ==>
        && task in ORDER && Completed(records, run, task) && records[(run, task)] == r.value
        && r.value.manifestDigest == manifest && r.value.requestDigest == payload
        && Justified(records, run, task, manifest, r.value.result.value)
      ensures Calm(w) ==> (r.Ok? <==> Dispatchable(old(records), run, task, manifest, payload, x))
    {
      hide Justified;
      hide Executable;
      hide Went;
      hide L.Grows;
      hide HasAdmission;
      ghost var start := records;
      RanNot(start, w, 0);
      next, sent := 0, [];
      if task !in ORDER { return Err(Unsupported), next, sent; }
      var started := Request(manifest, payload);
      var admitted := Preflight(run, task, manifest, payload, x, w);
      next := 1;
      if admitted.Err? { return Err(admitted.error), next, sent; }
      ghost var t := records;
      var replay := BeginTask(run, task, started, w, 1);
      next, sent := 2, [Start(run, task, started)];
      RanOnMet(start, t, records, w, 0, 1, 2, [], sent);
      if HasAdmission(t, run, manifest) { AdmissionStays(t, records, run, manifest); }
      if replay.Err? { return Err(replay.error), next, sent; }
      assert TaskHolds(records, run, task);
      if (run, task) !in t { StartingKeepsPriors(t, run, task, started, manifest, payload, x); }
      if replay.value.state == L.Completed {
        if replay.value.result.None? { return Err(BadPayload), next, sent; }
        return Ok(replay.value), next, sent;
      }
      ghost var t' := records;
      ghost var finish;
      r, next, finish := Fulfil(run, task, manifest, payload, x, admitted.value, w, 2);
      RanOn(start, t', records, w, 0, 2, next, sent, finish);
      sent := sent + finish;
      assert TaskHolds(records, run, task);
    }
  }
}
