/** Domain records of `src/featureforge/model.py`. `Valid` is what the constructors accept. */
module Model {
  import opened Ordering

  /** A SHA-256 over canonical JSON, taken to be injective: it stands for its content. */
  datatype Digest<+T> = Digest(content: T)

  datatype Operation = Upsert | Retract

  datatype Status = Succeeded | Failed

  datatype PaymentEvent = PaymentEvent(
    eventId: string,
    customerId: string,
    eventTime: int,
    knowledgeTime: int,
    amountCents: Option<int>,
    status: Option<Status>,
    merchantRisk: Option<real>,
    revisionId: string,
    operation: Operation)
  {
    predicate Valid() {
      && eventId != "" && customerId != "" && revisionId != ""
      && 0 <= eventTime <= knowledgeTime
      && match operation
         case Retract => amountCents.None? && status.None? && merchantRisk.None?
         case Upsert =>
           && amountCents.Some? && 0 <= amountCents.value
           && status.Some?
           && merchantRisk.Some? && 0.0 <= merchantRisk.value <= 1.0
    }
  }

  datatype ValueType = IntegerType | FloatType

  /** A feature value: Python's `int | float | None`. */
  datatype Value = Null | Integer(i: int) | Float(r: real)

  /** The five computations of `SUPPORTED_COMPUTATIONS`, or a name outside that set. */
  datatype Computation =
    | TransactionCount
    | SuccessfulSpendCents
    | FailedPaymentRatio
    | HoursSinceSuccess
    | MaxMerchantRisk
    | Unsupported(name: string)

  /** `definitionDigest` is the digest property of the definition, carried as data. */
  datatype FeatureDefinition = FeatureDefinition(
    name: string,
    version: int,
    valueType: ValueType,
    ttlSeconds: int,
    computation: Computation,
    windowSeconds: Option<int>,
    description: string,
    emptyDefault: Value,
    definitionDigest: string)
  {
    predicate Valid() {
      && 1 <= version && 0 < ttlSeconds
      && (windowSeconds.Some? ==> 0 < windowSeconds.value)
      && (valueType.IntegerType? ==> !emptyDefault.Float?)
    }
  }

  predicate NameLess(a: FeatureDefinition, b: FeatureDefinition) {
    StringLess(a.name, b.name)
  }

  datatype FeatureValue = FeatureValue(
    customerId: string,
    featureName: string,
    value: Value,
    eventTime: int,
    knowledgeTime: int,
    definitionDigest: string,
    generationId: string)

  function KeyOf(v: FeatureValue): Key {
    (v.customerId, v.featureName)
  }

  datatype Label = Label(
    labelId: string,
    customerId: string,
    labelTime: int,
    value: int,
    predictionKnowledgeTime: int)
  {
    predicate Valid() {
      labelId != "" && customerId != "" && 0 <= predictionKnowledgeTime <= labelTime
    }
  }
}
