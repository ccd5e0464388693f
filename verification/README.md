# FeatureForge: a verified model

FeatureForge is a bitemporal feature platform. Payment-event revisions carry an event time and a
knowledge time; features are computed from what was knowable at a cutoff, by three independent
paths and incrementally; the results are published as immutable generations through several
stores whose clients may run at once, crash, retry, and lose acknowledgements after a commit.

This project models that core in Dafny and proves what it is for.

* **Meaning of a feature row** (`Temporal`, `Computation`, `SparkRuntime`, `Projector`,
  `Agreement`, `Dataset`). Normalization rejects exactly the ambiguous histories; the Python path,
  the relational (Spark) path and the standard-library projector compute the same rows; training
  rows depend on nothing learned after their effective cutoff.
* **Incremental maintenance** (`Incremental`, `Equivalence`). The planned scope contains every key
  whose value changes; `incremental_rebuild` succeeds exactly under stated conditions, and what it
  returns equals a full rebuild exactly when the keys it preserves were right at the base frontier
  and its generation id is one a full rebuild takes. So maintenance over a chain of frontiers
  succeeds exactly when its requests are acceptable, and yields each request's full rebuild.
* **Publication in SQLite** (`Lifecycle`, `OnlinePlan`, `OnlineStore`, `OnlineClient`) and in
  DynamoDB (`CandidateTable`, `CandidateScan`, `CandidateClient`). Each transaction or conditional
  request is one atomic step; properties are invariants over all runs of all clients' steps.
* **Control plane** (`TaskLedger`, `Tasks`, `ControlWorker`, `GlueLaunch`, `S3Immutable`). `Traces` holds what
  one client among others sends and meets.
* **Comparison and encoding** (`Comparison`, `Decimals`). `Ordering` and `Model` hold the orders
  and the domain records.

How things are represented:

* A digest is injective: it stands for the content it digests. Identities are strings, compared by
  code point. Integers are unbounded, ratios, hours and risks are reals. Which decimal Python prints
  for a float is left open (`OnlinePlan.PRINTED`): every theorem holds for any.
* A method that fills dictionaries, lists or tables in loops is a method with loops; a store is a
  class whose fields are its tables, each method being proved to do what a function of the old
  tables says (`OnPublish`, `OnReconcile`, ...), about which the invariants are then proved. Where a
  table only ever joins another by its key (`candidate_values` and `validation_receipts` with
  `generations`), the model keeps the joined record.
* Concurrency: a *run* is any sequence of any clients' atomic steps. A client program that makes
  several requests takes as parameters what happens around each of them: the other clients' steps
  before it and how it is delivered (in full, lost before it took effect, lost after). Its contract
  holds for all of these, and says that its own effect on the shared state is a run of the very steps
  it sends, between exactly the others' steps it meets; so any number of such clients interleaved are
  covered by the theorems about runs. A crash is a
  program that stops early.

Where the code does something its documentation or a reader might not expect, the model follows the
code, and the project gives the exact condition and a counterexample:

* `incremental_rebuild` compares the predecessor's definitions and customers but not its source
  digest: a predecessor built from another history is accepted and its stale values are published
  (`Equivalence.StalePredecessorIsPreserved`; exact condition `Equivalence.IncrementalIsFullIff`).
* A step that affects no key performs no full rebuild, and only that looks at the generation id: an
  id that `full_rebuild` refuses is published (`Equivalence.UncheckedIdIsPublished`; exact condition
  `Equivalence.IncrementalIsFullIff`).
* A feature named like a cutoff column replaces that column, and the dataset manifest takes its
  cutoffs from the finished rows (`Dataset.FeatureHidesCutoff`; exact condition
  `Dataset.RowShowsItsCutoffsIff`).
* The exact scan has a request budget that grows with the plan only, but crosses the whole shared
  table, a hundred items a request: it succeeds iff the table, other generations included, holds
  fewer than 100 (n + 2) items for a plan of n records (`CandidateScan.HonestScanFitsIff`).
* `LocalOnlineStore.reconcile` digests records in `(customer_id, feature_name)` order, the plan in
  `(partition_key, sort_key)` order. The completing call succeeds iff no identity of the plan is
  extended by another one below the `#` that ends it in the key (`OnlineStore.CompletionIff`,
  `OnlinePlan.OrdersAgreeIff`); characters above `#` suffice, and the customers `a` and `a!` fail
  (`OnlinePlan.AnInvertedPlan`, `OnlineStore.InvertedPlanNeverCompletes`).
* The transaction token of `DurableGlueLauncher` replays one reservation to every overlapping bearer
  of an invocation id, and each of them launches. At most three physical calls are made, through all
  crashes and retries, exactly when no two invocations that may overlap share an id; one retried later
  under its own id is harmless (`GlueLaunch.BoundHoldsIff`, `GlueLaunch.SharingBreaksTheBound`).
* `materialize` keeps the order of definitions and repeats a repeated customer, `project_feature_rows`
  sorts by name and takes each customer once: the rows are always the same as a set, and the same
  sequence exactly when the definitions come in name order and no customer is repeated
  (`Agreement.SameRows`, `Agreement.PythonIsProjectorIff`).
* Spark casts a float feature's values to double, integer empty defaults included, where the Python
  paths keep the integer: the same number, not always the same type (`Agreement.SparkIsIdenticalIff`).
* `normalize` rounds a decimal to 28 significant digits, so the canonical string keeps a number iff
  it fits (`Decimals.ParseInvertsCanonicalIff`), a float feature's stored value decodes to the
  feature's own number iff that number fits (`OnlinePlan.DecodeInvertsEncodeIff`), and two long
  integers may be stored alike (`OnlinePlan.LongIntegersAreStoredAlike`).
* A training row's own `dataset_as_of` column of course follows the snapshot, so a later snapshot
  leaves every other column unchanged (`Dataset.LaterSnapshotChangesNothing`).

## Model

| member | source | states |
|---|---|---|
| Temporal.NormalizeEvents | src/featureforge/temporal.py:14-53 | accepts exactly the unambiguous histories, whatever the input order; the result is the sorted set of revisions; an error names a real conflicting pair |
| Temporal.SelectEvents | src/featureforge/temporal.py:56-82 | the latest knowable revision of each event, then cut by retraction, customer and event time, in business order; fails iff the history is ambiguous or a cutoff negative |
| Temporal.NormalizedPrefix | src/featureforge/temporal.py:48-70 | normalized revisions of one event come in knowledge order, so overwriting keeps the latest |
| Temporal.LatestIsKnowable | src/featureforge/temporal.py:67-70 | the latest revision at a frontier depends only on revisions known by then |
| Computation.ComputeCustomer | src/featureforge/computation.py:40-79 | one customer's rows, value by value, or the first computation or type error |
| Computation.Materialize | src/featureforge/computation.py:82-111 | the rows of all customers in order over one history, or the first error |
| Computation.RowsAreKnowable | src/featureforge/computation.py:82-111 | rows depend only on the revisions knowable at the knowledge cutoff |
| Dataset.BuildRow | src/featureforge/dataset.py:32-58 | one training row: features at the label time and the effective cutoff, later columns overwriting |
| Dataset.BuildTrainingDataset | src/featureforge/dataset.py:19-82 | one row per label in label order, under a manifest that binds rows, labels, definitions and each row's cutoffs; fails only when some row cannot be computed |
| Dataset.RowShowsItsCutoffsIff | src/featureforge/dataset.py:60-72 | the cutoffs the manifest takes from a row are those the row was computed at iff no feature has a cutoff column's name |
| Dataset.FeatureHidesCutoff | src/featureforge/dataset.py:56-72 | a feature of such a name replaces the recorded cutoff |
| Dataset.NoLeakage | src/featureforge/dataset.py:32-58 | histories agreeing on revisions known by min(prediction cutoff, dataset_as_of) give the identical training row |
| Dataset.LaterSnapshotChangesNothing | src/featureforge/dataset.py:32-58 | any snapshot at or above the prediction cutoff gives the same row but for the snapshot column |
| Dataset.NoResurrection | src/featureforge/temporal.py:65-82 | an event whose latest knowable revision is retracted or moved past the cutoff contributes nothing, older revisions included |
| SparkRuntime.ValidateDefinitions | src/featureforge/spark_runtime.py:175-191 | accepts exactly nonempty, distinctly named definitions of supported computations and matching types |
| SparkRuntime.ValidateInputs | src/featureforge/spark_runtime.py:163-203 | accepts exactly the good inputs and returns definitions by name, normalized events and sorted customers |
| SparkRuntime.ColumnsIgnoreRowOrder | src/featureforge/spark_runtime.py:284-315 | the sum and max aggregates do not depend on row order |
| SparkRuntime.ValueIgnoresRowOrder | src/featureforge/spark_runtime.py:284-334 | no aggregate of a window depends on the order of its rows |
| SparkRuntime.JoinGroups | src/featureforge/spark_runtime.py:283-290 | the left join has exactly the customers as groups, those without events included |
| SparkRuntime.JoinGroupOf | src/featureforge/spark_runtime.py:283-290 | each group of the join holds exactly the customer's eligible events |
| SparkRuntime.ComputedRows | src/featureforge/spark_runtime.py:267-341 | the union of the grouped frames has one row per customer and definition, its value that of the window, in whatever order |
| SparkRuntime.FullRebuild | src/featureforge/spark_runtime.py:343-422 | succeeds exactly on a valid id and accepted inputs; one row per customer and feature in key order, each the value of its window, under a manifest that binds them |
| Incremental.StateByEvent | src/featureforge/spark_runtime.py:425-430 | maps every event to its latest knowable revision, or to nothing when that is a retraction |
| Incremental.PlanAffectedScope | src/featureforge/spark_runtime.py:433-500 | accepts exactly ordered frontiers over good inputs and a valid fraction; the affected pairs are those of changed events and of window crossings, and the mode follows the fraction |
| Incremental.ScopeIsSound | src/featureforge/spark_runtime.py:433-475 | a pair outside the scope has the same value at base and target frontier, for every computation, correction and retraction |
| Incremental.ScopeIsExact | src/featureforge/spark_runtime.py:433-475 | the collected pairs are exactly those some changed event affects |
| Incremental.CheckPredecessor | src/featureforge/spark_runtime.py:517-537 | passes exactly when the predecessor's manifest has the contract, identity, row count, row digest and event cutoff of its rows, and every row its frontier |
| Incremental.PlanIsDetermined | src/featureforge/spark_runtime.py:459-499 | the inputs determine a plan's pairs and mode |
| Incremental.RecomputeAffected | src/featureforge/spark_runtime.py:578-590 | the target rows of the affected keys; past the planner it can be refused for the generation id alone, and not even for that when nothing is affected |
| Incremental.MergeTarget | src/featureforge/spark_runtime.py:557-642 | succeeds exactly on accepted inputs over a predecessor of these definitions, customers and keys, with a valid id when some key is affected; the merged table under its manifest |
| Incremental.Merge | src/featureforge/spark_runtime.py:606-619 | recomputed rows for the affected keys, re-enveloped predecessor rows for the others, in key order |
| Incremental.IncrementalRebuild | src/featureforge/spark_runtime.py:503-642 | succeeds exactly when the predecessor is bound, scope and inputs are accepted, the predecessor fits or the mode is full, and the id is valid or nothing is affected; what it then returns in either mode |
| Equivalence.IncrementalIsFullIff | src/featureforge/spark_runtime.py:503-642 | a step yields the full rebuild exactly when the mode is full or every preserved key was right at the base frontier, and some key is affected or the id is valid |
| Equivalence.AgreeingPredecessorHolds | src/featureforge/spark_runtime.py:557-619 | a predecessor from any history that agrees on what its frontier knew is right on every preserved key |
| Equivalence.FullBaseStepsIff | src/featureforge/spark_runtime.py:503-590 | over a predecessor that holds a full table, a step succeeds exactly when its own request is acceptable after the predecessor's |
| Equivalence.ChainIsFull | src/featureforge/spark_runtime.py:503-642 | every build of a chain of frontiers holds its own request's full table and manifest, and is its full rebuild exactly when the id is valid |
| Equivalence.Maintain | src/featureforge/spark_runtime.py:343-642 | folding incremental rebuilds over agreeing histories succeeds exactly when the requests are acceptable, and yields each request's full rebuild |
| Equivalence.FullBuildIsUnique | src/featureforge/spark_runtime.py:343-422 | a request has one full build |
| Equivalence.StalePredecessorIsPreserved | src/featureforge/spark_runtime.py:557-619 | a concrete predecessor of another history passes every check and its stale value is published |
| Equivalence.UncheckedIdIsPublished | src/featureforge/spark_runtime.py:578-642 | a concrete step that affects no key publishes under an id a full rebuild refuses |
| Projector.IndexRevisions | src/featureforge/expected.py:56-74 | the projector refuses exactly the ambiguous histories |
| Projector.CurrentState | src/featureforge/expected.py:76-82 | the latest knowable revision of each event, in event order |
| Projector.ProjectFeatureRows | src/featureforge/expected.py:43-145 | the projected rows of all customers in their order, or the first error |
| Agreement.FormsHaveTheMeaning | src/featureforge/computation.py:40-68 | the Python, Spark and projector forms of each computation equal one meaning on the same window |
| Agreement.ValuesAgree | src/featureforge/spark_runtime.py:255-334 | on every accepted history the projector's value is the Python one, and the Spark one up to the declared type |
| Agreement.SparkIsIdenticalIff | src/featureforge/spark_runtime.py:267-340 | Spark's value is identical, type included, on all histories iff the definition is not a float one with an integer default |
| Agreement.SameRows | src/featureforge/expected.py:84-145 | of the same arguments, in any order and repetition, `materialize` and `project_feature_rows` both succeed with the same set of rows |
| Agreement.PythonIsProjectorIff | src/featureforge/expected.py:84-145 | with the same sequence iff definitions come in name order and no customer is repeated, or there are no rows |
| Agreement.RowsAgree | src/featureforge/computation.py:93-110 | over the same sorted lists the two forms yield the same sequence |
| Agreement.SparkTableIsProjected | src/featureforge/spark_runtime.py:267-340 | the full Spark table is what the projector returns of the same arguments, row by row, typed |
| Lifecycle.LifecycleStore.RegisterDefinition | src/featureforge/lifecycle.py:179-204 | immutable definitions: written once, replayed, or refused |
| Lifecycle.LifecycleStore.PutArtifact | src/featureforge/lifecycle.py:206-236 | immutable artifacts: written once, replayed, or refused |
| Lifecycle.LifecycleStore.CreateGeneration | src/featureforge/lifecycle.py:266-297 | a generation is created once, from a well-formed manifest |
| Lifecycle.LifecycleStore.BeginBuild | src/featureforge/lifecycle.py:299-309 | only a created generation starts building; replays change nothing |
| Lifecycle.LifecycleStore.PutCandidateBatch | src/featureforge/lifecycle.py:311-349 | the batch is stored value by value, and not at all when one value conflicts |
| Lifecycle.LifecycleStore.SealCandidate | src/featureforge/lifecycle.py:351-358 | only a building generation is sealed for validation |
| Lifecycle.LifecycleStore.ValidateCandidate | src/featureforge/lifecycle.py:368-430 | the receipt compares stored rows, expected rows, manifest and links, and decides READY or FAILED |
| Lifecycle.LifecycleStore.Publish | src/featureforge/lifecycle.py:438-562 | replay, every guard in order, and the committed writes to pointer, statuses, history and operations |
| Lifecycle.RunKeeps | src/featureforge/lifecycle.py:299-562 | in every reachable state exactly the pointed-to generation is ACTIVE, history is one chain of the pointer's length that is only appended to, activations follow the declared predecessor, and eligible generations still match receipt and manifest |
| Lifecycle.PublishNeverFindsTampering | src/featureforge/lifecycle.py:484-514 | the guards against a changed candidate, a missing receipt and a taken history entry cannot fire |
| Lifecycle.PinnedReadsAreStable | src/featureforge/lifecycle.py:564-599 | a token's answer for any key and time never changes, whatever runs later |
| Lifecycle.PinnedRowsWereValidated | src/featureforge/lifecycle.py:368-430 | the pinned generation's rows are the expected artifact's rows |
| Lifecycle.PinnedReadsServeExpectedRows | src/featureforge/lifecycle.py:570-599 | a pinned read returns the validated row's value until its registered time to live has passed |
| Lifecycle.RetriesReturnTheReceipt | src/featureforge/lifecycle.py:455-473 | a retry after any run returns the identical receipt and changes nothing; another request under the same identity is refused |
| Lifecycle.OneCommitPerOperationAndVersion | src/featureforge/lifecycle.py:455-553 | an operation sets one pointer version, and of all that expected one version at most one committed |
| Lifecycle.PointerMovesByPublication | src/featureforge/lifecycle.py:515-553 | each step leaves the pointer or advances it by one version from what the request expected |
| OnlinePlan.CheckInputs | src/featureforge/online.py:242-262 | the checks made before any record is built |
| OnlinePlan.BuildMaterializationPlan | src/featureforge/online.py:233-338 | accepts exactly nonempty, distinctly keyed, defined, encodable values of one generation; one record per value, in storage-key order, and nothing else |
| OnlinePlan.PlanIsUnique | src/featureforge/online.py:233-338 | the plan does not depend on the order of definitions or values |
| OnlinePlan.StorageKeyIdentifies | src/featureforge/online.py:144-150 | within a generation a storage key determines customer and feature |
| OnlinePlan.ProjectOnlineRecords | src/featureforge/expected.py:148-211 | accepts exactly distinctly keyed, encodable rows and returns their records in storage-key order |
| OnlinePlan.ProjectorYieldsThePlan | src/featureforge/expected.py:148-211 | whatever the planner accepts the projector accepts, and yields exactly the plan's records |
| OnlinePlan.StorageFollowsEntity | src/featureforge/online.py:144-150 | when two records' storage keys keep the order of their entity keys |
| OnlinePlan.OrdersAgreeIff | src/featureforge/online.py:313-316 | the plan is in entity order iff no two of its identities invert |
| OnlinePlan.AboveHashIsEnough | src/featureforge/online.py:313-316 | identities of characters above `#` never invert |
| OnlinePlan.AnInvertedPlan | src/featureforge/online.py:233-338 | accepted rows of the customers `a` and `a!` whose plan is not in entity order |
| OnlinePlan.DecodeInvertsEncodeIff | src/featureforge/online.py:93-124 | encoding is refused exactly for a float under an integer definition; what is stored decodes, to the feature's own number iff it is stored as an integer or has at most 28 significant digits |
| OnlinePlan.LongIntegersAreStoredAlike | src/featureforge/online.py:93-104 | two different integers are stored alike under a float definition |
| OnlineStore.RunKeeps | src/featureforge/online.py:812-1181 | in every reachable state stored records are their plan's, sealed candidates are complete under the plan's receipt, each feature set has exactly its pointed-to generation ACTIVE and a chained history |
| OnlineStore.EveryReceiptIsTheReceipt | src/featureforge/online.py:947-1030 | after any interrupted, resumed and concurrent calls, every returned receipt is the plan's, over exactly the plan's records |
| OnlineStore.CompletionIff | src/featureforge/online.py:957-982 | the completing call succeeds iff all records are stored and no identities invert |
| OnlineStore.InvertedPlanNeverCompletes | src/featureforge/online.py:957-982 | for that accepted plan it fails after every run, those that stored every record included |
| OnlineStore.NothingIsEverCorrupt | src/featureforge/online.py:848-883 | the guards against conflicting, changed or late records cannot fire |
| OnlineStore.PinnedReadsAreStable | src/featureforge/online.py:1280-1399 | a token's answers never change, whatever runs later |
| OnlineStore.PinnedReadsServeThePlan | src/featureforge/online.py:1286-1381 | a pinned read answers with the plan's own record for the key, and ABSENT iff there is none |
| OnlineStore.PinnedReadsServeTheRows | src/featureforge/online.py:1286-1381 | every offline row of the plan is served, until it expires or is too old, and with its own number iff decimal text holds it |
| OnlineStore.NoGenerationIsActivatedTwice | src/featureforge/online.py:1083-1181 | no generation appears twice in any pointer history |
| OnlineStore.OneActivationPerVersion | src/featureforge/online.py:1083-1181 | of all activations that expected one version of one pointer at most one committed |
| OnlineStore.RetriesReturnTheActivation | src/featureforge/online.py:1083-1086 | a retry of a committed activation, however late, returns the identical receipt |
| OnlineClient.LocalOnlineStore.BeginMaterialization | src/featureforge/online.py:812-846 | admission of a plan, its replay, and its conflicts |
| OnlineClient.LocalOnlineStore.WriteRecord | src/featureforge/online.py:848-883 | one record written, replayed or refused |
| OnlineClient.LocalOnlineStore.MissingRecords | src/featureforge/online.py:885-897 | exactly the plan's records whose keys are not stored, in plan order |
| OnlineClient.LocalOnlineStore.CandidatePage | src/featureforge/online.py:899-930 | one keyset page after a cursor, and the next cursor |
| OnlineClient.LocalOnlineStore.CandidateRecords | src/featureforge/online.py:932-945 | for every page size the pages together are the sorted whole |
| OnlineClient.LocalOnlineStore.Reconcile | src/featureforge/online.py:947-1016 | both comparisons, the receipt, and the sealing writes |
| OnlineClient.LocalOnlineStore.Materialize | src/featureforge/online.py:1018-1030 | with any calls of other clients before each of its transactions its effect is that of its own admission, writes of what was missing, in plan order, and reconciliation, as far as it came, between exactly the calls it meets; a receipt means exact materialization; alone, it succeeds iff its names are free and its orders agree |
| OnlineClient.LocalOnlineStore.Activate | src/featureforge/online.py:1049-1181 | replay, every guard, and the committed writes |
| CandidateTable.RunKeeps | src/featureforge/aws_runtime.py:471-549 | in every reachable state a closed generation is complete, every item is its owner's, every active generation is validated, every token justified |
| CandidateTable.SealedHoldsThePlan | src/featureforge/aws_runtime.py:521-549 | a closed generation holds exactly the plan's records |
| CandidateTable.SealedIsFrozen | src/featureforge/aws_runtime.py:471-549 | owners move only WRITING, SEALED, VALIDATED under one plan, and a closed generation's items never change |
| CandidateTable.ActiveIsComplete | src/featureforge/aws_runtime.py:691-747 | the active generation holds exactly the records it was validated for |
| CandidateTable.OneActivationPerVersion | src/featureforge/aws_runtime.py:691-747 | of all activations that expected one version at most one is recorded, and it stays recorded |
| CandidateScan.CheckPage | src/featureforge/aws_runtime.py:577-600 | a page is accepted iff its items are intact, the plan's, and new |
| CandidateScan.Records | src/featureforge/aws_runtime.py:551-618 | for all responses the scan stops within its budget, accepts iff the pages carry exactly the plan's records, and returns them in plan order |
| CandidateScan.HonestScanIff | src/featureforge/aws_runtime.py:551-618 | over a frozen generation, with any other writes between pages, an honest service's scan is accepted iff it ends within the budget |
| CandidateScan.HonestScanFitsIff | src/featureforge/aws_runtime.py:562-618 | over a still table it is accepted iff the whole table is smaller than what the budget examines |
| CandidateClient.ClosedIsFrozenForScan | src/featureforge/aws_runtime.py:633-637 | however other clients go on between pages, a closed generation is frozen for the scan |
| CandidateClient.ClosedScanIff | src/featureforge/aws_runtime.py:551-618 | an honest scan of a closed generation, whatever other clients do between its pages, accepts iff it ends in its request budget |
| CandidateClient.DynamoOnlineRuntime.AcquireOwner | src/featureforge/aws_runtime.py:490-510 | success means the generation is owned by exactly this plan |
| CandidateClient.DynamoOnlineRuntime.WriteRecord | src/featureforge/aws_runtime.py:521-532 | success, replayed or not, means the record is stored |
| CandidateClient.DynamoOnlineRuntime.SealGeneration | src/featureforge/aws_runtime.py:534-549 | called only over a complete or closed generation; success means it is closed |
| CandidateClient.DynamoOnlineRuntime.Materialize | src/featureforge/aws_runtime.py:620-689 | under any interference its effect is that of its own plan's requests, in their order, between exactly the others' steps it meets, and a receipt means exact, validated publication; over a closed generation with every request delivered it succeeds, whatever others do, iff the scan accepts, with an honest service iff the scan ends in its budget; undisturbed, it succeeds iff the generation and its keys are not another plan's and the scan accepts, with an honest service iff the table with the plan in it is small enough |
| CandidateClient.DynamoOnlineRuntime.ActivateGeneration | src/featureforge/aws_runtime.py:691-747 | success means exactly this operation is recorded, and its pointer has moved; its effect is that of this one request between the others' steps it meets; undisturbed, it succeeds iff it is a replay or every condition holds |
| TaskLedger.MemoryLedger.Begin | src/featureforge/aws_runtime.py:416-426 | the in-memory begin |
| TaskLedger.MemoryLedger.Complete | src/featureforge/aws_runtime.py:428-444 | the in-memory complete |
| TaskLedger.RunGrows | src/featureforge/aws_runtime.py:410-448 | in every interleaving a task keeps its identity, and a completed one its result |
| TaskLedger.ExplainedIsARun | src/featureforge/aws_runtime.py:362-407 | to the other workers such a call is at most one operation more, after those it met |
| TaskLedger.DynamoTaskLedger.Begin | src/featureforge/aws_runtime.py:362-380 | under any interference it is exactly one in-memory begin, done at its last request after exactly the others' operations its requests met; when a request is lost it did that begin iff only the reply of its write was lost; a refused put always finds its winner |
| TaskLedger.DynamoTaskLedger.Complete | src/featureforge/aws_runtime.py:382-407 | under any interference it is exactly one in-memory complete, in the same way; the lost-race and no-receipt errors are unreachable |
| GlueLaunch.LaunchesAreBounded | src/featureforge/glue_launch.py:165-288 | in every reachable world at most three physical calls and one more per replayed grant acted on, under tokens of one binding, each under its own reserved slot, and distinct ones when no grant was replayed |
| GlueLaunch.BoundHoldsIff | src/featureforge/glue_launch.py:165-288 | over all runs of invocations with given ids and possible overlaps at most three calls are made iff no two that may overlap share an id |
| GlueLaunch.ReplayNeedsOverlap | src/featureforge/glue_launch.py:168-223 | a replayed grant is acted on only by an invocation that read the slot before another bearer of its id reserved it |
| GlueLaunch.RanIsBounded | src/featureforge/glue_launch.py:99-288 | an invocation that joins such a run keeps the bound |
| GlueLaunch.ReplayBreaksTheBound | src/featureforge/glue_launch.py:199-238 | any run with a replayed grant acted on goes on to three calls beside it |
| GlueLaunch.SharingBreaksTheBound | src/featureforge/glue_launch.py:168-238 | two invocations that may overlap and share an id, with two later ones, make four calls |
| GlueLaunch.DurableGlueLauncher.ClaimAuthority | src/featureforge/glue_launch.py:148-164 | success means the run's authority is this binding |
| GlueLaunch.DurableGlueLauncher.ReserveSlot | src/featureforge/glue_launch.py:193-234 | a grant is a fresh reservation or the replay of another's, and fresh when no other bearer of the id is about |
| GlueLaunch.DurableGlueLauncher.CallGlue | src/featureforge/glue_launch.py:235-259 | exactly one physical call per grant, whatever comes of it |
| GlueLaunch.DurableGlueLauncher.LaunchJob | src/featureforge/glue_launch.py:235-287 | the exact world after the one call, others' steps and the record of its job, if its slot is still open |
| GlueLaunch.DurableGlueLauncher.RecordJob | src/featureforge/glue_launch.py:266-287 | the completing update succeeds exactly when the slot is still this id's open reservation |
| GlueLaunch.DurableGlueLauncher.TrySlot | src/featureforge/glue_launch.py:165-287 | a slot gives its completed job, a launch of its own, or nothing when another invocation consumed it; at most one call, and none on a replayed grant when no other bearer of the id is about |
| GlueLaunch.DurableGlueLauncher.Start | src/featureforge/glue_launch.py:99-288 | under any interference its effect is its own steps, under its own id, between the others' steps it meets, with at most one physical call of its own, and none on a replayed grant when no other bearer of its id is about; a returned job was started under this binding; undisturbed, it succeeds iff the authority is its own to claim and a slot is available |
| ControlWorker.RunKeeps | src/featureforge/control_worker.py:204-261 | in every reachable ledger every completed task has its evidence |
| ControlWorker.CompletedTasksAreClosed | src/featureforge/control_worker.py:263-636 | completed tasks are downward closed in their order and bind one manifest digest |
| ControlWorker.ActivationRestsOnEvidence | src/featureforge/control_worker.py:525-586 | a completed activation rests on eligible parity of the very plan and receipt materialized from the rows of the launched job |
| ControlWorker.Worker.RebuildPlan | src/featureforge/control_worker.py:91-202 | the plan is rebuilt from the durable admission and recorded rows of the same manifest |
| ControlWorker.Worker.ExecuteStartGlue | src/featureforge/control_worker.py:362-371 | whatever other workers do, a launch only for the execution that was durably admitted; undisturbed, exactly then |
| ControlWorker.Worker.ExecuteMaterialize | src/featureforge/control_worker.py:457-469 | a materialization of exactly the plan of the admitted and recorded rows |
| ControlWorker.Worker.ExecuteRecordGlue | src/featureforge/control_worker.py:372-456 | a recorded output is that of the launched job under its launch token |
| ControlWorker.Worker.ExecuteParity | src/featureforge/control_worker.py:470-524 | parity is of the materialized plan and receipt, and eligible iff the report passed |
| ControlWorker.Worker.ExecuteActivate | src/featureforge/control_worker.py:525-586 | whatever other workers do, activation only over eligible durable parity and a stored report that passed under its digest; undisturbed, exactly then |
| ControlWorker.Worker.ExecuteComplete | src/featureforge/control_worker.py:587-635 | completion only over all six earlier tasks, naming exactly their outputs |
| ControlWorker.Worker.Dispatch | src/featureforge/control_worker.py:204-261 | what it sends to the ledger is the start of its own task and then its completion, between exactly the others' steps it meets, and it returns the durable completed record with its evidence; undisturbed, it returns one iff the request replays a completed task or meets every demand made of it |
| S3Immutable.RunKeeps | src/featureforge/s3_immutable.py:90-142 | objects are never overwritten, and whatever a receipt names exists |
| S3Immutable.CommitImpliesOutputs | jobs/glue_point_in_time.py:64-79 | if a commit receipt is visible, the objects it names exist with exactly those bytes and versions, then and for ever |
| S3Immutable.ReturnsAgree | src/featureforge/s3_immutable.py:90-142 | authorities returned for one key at any moments agree on version and bytes |
| S3Immutable.Publisher.ReconcileExisting | src/featureforge/s3_immutable.py:60-87 | an existing object is accepted only with exactly these bytes and its pinned version |
| S3Immutable.Publisher.PutImmutableOutput | src/featureforge/s3_immutable.py:90-142 | its whole effect is that of at most three conditional writes, all of these bytes to this key, between exactly the others' writes it meets; success means the key holds exactly these bytes at the returned version; with every request delivered it succeeds iff the object there has these bytes, this KMS key and a version to pin |
| S3Immutable.Publisher.PublishOutputs | jobs/glue_point_in_time.py:28-79 | at most three writes each of rows, manifest and the receipt that names both, in this order; wherever it stops it has sent no receipt before both outputs were stored; with every request delivered it succeeds iff the inputs are good and all three objects are its own |
| Comparison.CompareOnlineRecords | src/featureforge/expected.py:243-332 | defined exactly on distinct keys and known samples; each list holds exactly the selected keys it names, in order, each reason is given iff its list is not empty, and it passes iff the sequences are equal and no selected record is ineligible |
| Comparison.SampleDecides | src/featureforge/expected.py:266-316 | a sampled report passes iff the exhaustive one finds nothing but ineligible records outside the sample; without a request time they pass together |
| Decimals.CanonicalIff | src/featureforge/online.py:77-90 | within 28 significant digits equal numbers, and only they, give equal strings |
| Decimals.ParseInvertsCanonicalIff | src/featureforge/online.py:107-124 | reading a canonical decimal gives the number back iff it has at most 28 significant digits |
| Decimals.LongIntegersCollide | src/featureforge/online.py:86-86 | beyond the precision different integers share one string |

## Left out

- Terraform, plan execution, qualification and evidence tools (`tools/*`): plumbing over fixed constants.
- JSON rendering, SHA-256 and service request validation: digests are taken as injective, requests as well formed.
- The SQLite engine and schema migration: transactions are atomic steps over tables as maps.
- Spark sessions, physical plans, partition diagnostics, and the generation files of `write_generation` and `read_generation`.
- `record_activation_decision` and `activate_with_decision`: the persisted decision only adds a field to the activation request, which the model carries.
- `record_retry_attempt`, `RetryPolicy` and `capacity_report`: records about retries and sizes, not about values.
- `candidate_write_projection`: the size preflight refuses some plans before any request is made; it decides nothing afterwards.
- `store.py`, `parity.py`, `managed.py` cost arithmetic and `stage6_live.py`: members that are easy beside these.
- The `diagnostics` and `incremental` blocks of a build manifest: they report work done, not rows, and a full build's differ.
- Floating-point rounding: computed values are reals.
- OnlinePlan.Decode: reads plain decimal text, which is all that is ever stored; other spellings `Decimal` accepts (exponents, spaces, `NaN`) count as unreadable, and the last rounding to a float is left out.
- Field-by-field parsing of service responses (`_task_record`, `_authority`, bodies and checksums): a response is delivered with its content or it is an error.
- ControlWorker.Worker.Dispatch: the launch, the materialization and the activation are answers of other services, not calls of the launcher of `GlueLaunch` or the runtime of `CandidateClient`; which answers are demanded, and what is recorded of them, is modelled.
- CandidateTable.SealedIsFrozen: like `ActiveIsComplete` and `SealedHoldsThePlan` it is about clients' steps; the service's own expiry of items by `expires_at` (infra/terraform/main.tf:227-230), which may delete expired items of a sealed or active generation, is not modelled.
- CandidateScan.HonestScanFitsIff: a page ends after a hundred items, never before at the service's size limit for a response.
- Admission, frozen expected state and parity evidence in `ControlWorker`: their contents are what the services answer; which answers are demanded, and that results agree with them, is modelled.
- Lifecycle.LifecycleStore.RegisterDefinition: two lookups and the insert are one step, although they commit one by one: both columns are unique, so a lost race between them only raises an integrity error and changes nothing.
- Lifecycle.LifecycleStore.PutArtifact: the check and the insert are one step, because a lost race between them only raises an integrity error and changes nothing.
- The deployed Glue job's own settings, and the launch request's fields: both are checked before anything is reserved, and the request is part of the binding.
- `deterministic_stratified_sample`: any sample of known keys is allowed instead.
