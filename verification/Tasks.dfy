/** The managed tasks of a run, their payloads and their durable results, as
    `src/featureforge/control_worker.py` exchanges them with its ledger. */
module Tasks {
  import opened Ordering

  /** The fields of a dispatch payload that the worker reads. */
  datatype Payload = Payload(
    executionId: string,
    jobRunId: string,
    jobName: string,
    jobState: string,
    onlinePayload: string,
    featureSet: string,
    materializedAt: int,
    requestTime: Option<int>,
    maximumAge: Option<int>,
    parityDigest: string,
    expectedGeneration: Option<string>,
    expectedVersion: int,
    outputs: seq<string>)

  /** All that a materialization plan is built from; its digest stands for it. */
  datatype PlanInputs = PlanInputs(manifestDigest: string, frozenExpected: string, onlinePayload: string, featureSet: string, materializedAt: int)

  datatype TaskResult =
    | Admission(executionId: string, admissionDigest: string, frozenExpected: string)
    | GlueLaunch(jobName: string, jobRunId: string, launchToken: string)
    | GlueOutput(glueJobRunId: string, launch: string, onlinePayload: string, outputs: seq<string>)
    | Materialization(plan: PlanInputs, receipt: string, context: Payload)
    | Parity(eligible: bool, reportDigest: string, parityReport: string, parityDigest: string, parityPlan: PlanInputs, parityReceipt: string)
    | Activation(activated: PlanInputs, activationReceipt: string, pointerVersion: int)
    | Completion(admission: string, authorities: seq<string>)
}
