# EC2 instance operator: reconcile logic in Dafny

This project models the reconcile core of a Kubernetes operator. The operator keeps one
`Ec2Instance` custom resource in step with one AWS EC2 instance. It has three layers:

- **DerefString** (`helpers.dfy`, module `Helpers`). It turns an optional SDK string into the
  string shown in the status. A nil pointer becomes the literal `"<nil>"`.
- **The provider client** (`aws.dfy`, module `Aws`). This is aws.go with every SDK call
  replaced by its outcome. `CheckEC2InstanceExists` classifies a describe result into
  (exists, record, error). `CreateEc2Instance` maps the run, running-wait and describe
  outcomes to (info, error) and projects the record into a `CreatedInstanceInfo`.
  `DeleteEc2Instance` maps the terminate and terminated-wait outcomes to (deleted, error).
  The functions are total: every unchecked dereference in the source (an empty slice indexed
  at 0, a nil pointer dereferenced) becomes an explicit `Panic(site)` outcome (`goruntime.dfy`).
- **The reconciler** (`controller.dfy`, module `Controller`). The class `Ec2InstanceReconciler`
  holds the API server's copy of the resource in `store` and a log of every call issued in
  `calls`. Its `Reconcile` method edits a local copy step by step, as the Go code does. It
  writes to the store only at `Update` (metadata: finalizers and spec, because the resource has
  a status subresource) and `UpdateStatus` (status only). Its result is proved equal to the
  function `Pass`. An `Env` supplies the outcome of every external call, and the pass runs the
  modelled aws.go functions on those outcomes. `Pass` therefore reaches the same crash sites.

`traces.dfy` (module `Traces`) runs passes in sequence, interleaved with user delete requests.
It proves properties that hold across passes. A user's delete request is handled by
`Traces.RequestDeletion`, which stands for the API server rather than any code of the operator:
a resource without finalizers is removed at once, otherwise its deletion timestamp is set once.
`scenarios.dfy` holds concrete runs.

Where the code departs from what the operator is meant to do, the model follows the code:

- A describe error other than not-found clears all six status fields and requeues.
- A clean "not found / not running" keeps `InstanceID`, sets `State` to `"Unknown"` and returns
  without a requeue. The error from that status write is dropped.
- An absent optional field projects to `"<nil>"`, not `""`.
- A described record with no public DNS name makes creation panic at the print of
  `*PublicDnsName`. So a record with an id, a state and two IPs but no DNS names never reaches the status
  (`Aws.RecordWithoutDnsDoesNotProjectToEmpty`).
- The finalizer is appended on every creation-path pass. `RemoveFinalizer` drops every copy.
- "At most one instance is launched per resource" does not hold as written, for three reasons:
  - RunInstances launches an instance, and then the running-wait or the follow-up describe fails,
    or creation crashes (a nil public DNS name, say). The pass returns before any status write,
    `InstanceID` stays empty, and the next pass launches again
    (`Scenarios.LaunchedButUnrecordedIsRepeated`, `Scenarios.WaitTimeoutCreatesTwice`).
  - A status write lost after a successful launch leaves `InstanceID` empty, so the next pass
    launches again (`Scenarios.LostStatusWriteCreatesTwice`).
  - A transient describe error clears the status of a running instance, so the pass after that
    launches again (`Scenarios.TransientDescribeErrorCreatesTwice`).

  What the code does guarantee, given that every `Get` returns the last persisted copy, is
  `Traces.PersistedIdBlocksRecreation`.

## Model

| member | source | states |
|---|---|---|
| `Helpers.DerefString` | utils/helpers/helper.go:5-10 | total; a present pointer yields its string, nil yields "<nil>"; the result is "" only for a present "" |
| `Helpers.DerefStringNotInjective` | utils/helpers/helper.go:6-9 | nil and a present "<nil>" project to the same text |
| `Helpers.DerefStringInjectiveOnPresent` | utils/helpers/helper.go:5-10 | equal projections come from equal inputs, except nil versus a present "<nil>" |
| `Strings.Contains` | internal/controller/aws.go:52 | true exactly when the substring occurs at some position |
| `GoRuntime.Wrap` | internal/controller/aws.go:96 | a wrapped error's text is the prefix followed by the cause's text |
| `Aws.ExistsQuery` | internal/controller/aws.go:39-47 | the existence query lists only the given id and the single filter instance-state-name = running |
| `Aws.ExistsQuerySelectsRunningInstance` | internal/controller/aws.go:39-47 | that query selects a record exactly when it has that id and is running |
| `Aws.CheckEC2InstanceExists` | internal/controller/aws.go:34-66 | a not-found error gives (false, nil, nil); any other error gives (false, nil, err); no reservations gives (false, nil, nil); otherwise (true, first instance of first reservation, nil); a first reservation without instances panics; exists holds exactly when a record is returned |
| `Aws.NotFoundMessageIsNoInstance` | internal/controller/aws.go:52-53 | any error text containing "InvalidInstanceID.NotFound" is classified as "no instance, no error" |
| `Aws.RunRequest` | internal/controller/aws.go:81-89 | the run request asks for exactly one instance (MinCount = MaxCount = 1) from the spec's AMI, type, key pair and subnet |
| `Aws.ProjectInfo` | internal/controller/aws.go:161-169 | InstanceID from the run record, State from the described record, the four address and DNS fields through DerefString |
| `Aws.CreateEc2Instance` | internal/controller/aws.go:69-180 | never both info and error; (nil, nil) exactly when the run returned no instance; a run failure, or a wait or describe failure after a run record with an id, gives the matching wrapped error and no info; it panics exactly when one of the unchecked dereferences fails, and names which (no run id; after a successful wait and describe: no described instance, no public DNS name, no state); an info is the projection of the described record and needs every call to succeed |
| `Aws.CreateSucceedsExactlyWhen` | internal/controller/aws.go:93-179 | an info is returned exactly when run, wait and describe succeed, the run record has an id, and the described record has a state and a public DNS name |
| `Aws.RecordWithoutDnsDoesNotProjectToEmpty` | internal/controller/aws.go:139 | a described record without DNS names makes creation panic, and its projection would show "<nil>" |
| `Aws.DeleteEc2Instance` | internal/controller/aws.go:182-229 | deleted exactly when no error is returned (never (false, nil)); (true, nil) exactly when termination was accepted with a state and the terminated-wait succeeded; an empty terminate answer panics |
| `Resource.StatusOf` | internal/controller/ec2instance_controller.go:138-143 | each of the six status fields equals the same field of the info |
| `Resource.WithoutFinalizer` | internal/controller/ec2instance_controller.go:77 | the token is gone, every other entry is kept with its multiplicity, and nothing is added |
| `Resource.WithoutFinalizerKeepsOrder` | internal/controller/ec2instance_controller.go:77 | removal keeps the order of the remaining entries: removing from a concatenation removes from each part |
| `Resource.RemoveFinalizer` | internal/controller/ec2instance_controller.go:77 | the one-pass compaction returns exactly the list without the token |
| `Resource.AppendThenRemove` | internal/controller/ec2instance_controller.go:123 | appending one more copy and then removing the token gives the same list as removing it from the original |
| `Controller.PersistMetadata` | internal/controller/ec2instance_controller.go:78 | an update writes finalizers and spec only; a resource being deleted with no finalizer left is removed |
| `Controller.PersistStatus` | internal/controller/ec2instance_controller.go:145 | a status update writes the status only |
| `Controller.Pass` | internal/controller/ec2instance_controller.go:52-154 | a pass never changes the spec or the deletion timestamp; it removes the resource only when it is being deleted and termination was confirmed; it issues a run request only for a live resource without an id, after a successful Get |
| `Controller.DeletionPass` | internal/controller/ec2instance_controller.go:67-85 | the terminate call comes first and only terminate and update calls follow; status and spec are kept; the store changes only after a confirmed termination and a successful persist |
| `Controller.VerificationPass` | internal/controller/ec2instance_controller.go:89-119 | the describe of the recorded id comes first and only status writes follow; only the status changes; the id is lost only to a describe error other than not-found, which clears the whole status |
| `Controller.CreationPass` | internal/controller/ec2instance_controller.go:121-153 | the finalizer list with one more token is written first; a run request is issued exactly when that write succeeds; a failed write leaves the store as it was |
| `Controller.Ec2InstanceReconciler.constructor` | internal/controller/ec2instance_controller.go:33-37 | the reconciler starts from the given stored resource with no calls issued |
| `Controller.Ec2InstanceReconciler.Get` | internal/controller/ec2instance_controller.go:55-56 | the stored copy; NotFound exactly when nothing is stored; an injected failure otherwise |
| `Controller.Ec2InstanceReconciler.Update` | internal/controller/ec2instance_controller.go:124 | on success the store holds the new metadata; on failure it is unchanged; the write is logged |
| `Controller.Ec2InstanceReconciler.UpdateStatus` | internal/controller/ec2instance_controller.go:145 | on success the store holds the new status; on failure it is unchanged; the write is logged |
| `Controller.Ec2InstanceReconciler.Reconcile` | internal/controller/ec2instance_controller.go:52-154 | the new store, the calls issued and the outcome are exactly those of `Pass` |
| `Controller.GetOutcomes` | internal/controller/ec2instance_controller.go:56-64 | a missing resource ends with an empty result and no error; any other Get error is returned with an empty result; nothing is called or written |
| `Controller.DeletionTakesPrecedence` | internal/controller/ec2instance_controller.go:67-85 | a resource being deleted goes to the deletion branch whatever its status: terminate first, never describe, run or status write |
| `Controller.DeletionFailureKeepsFinalizer` | internal/controller/ec2instance_controller.go:69-74 | a failed delete leaves the store and the finalizers untouched, writes nothing, and requeues with the delete's own error (or carries the delete's crash) |
| `Controller.DeletionAfterConfirmedTermination` | internal/controller/ec2instance_controller.go:76-84 | after a confirmed termination every copy of the token is dropped and persisted (the resource is removed if no finalizer is left); a failed persist requeues with the error and changes nothing |
| `Controller.FinalizerLeavesOnlyAfterConfirmedTermination` | internal/controller/ec2instance_controller.go:67-85 | a pass removes the token from the store only in the deletion branch, after a confirmed termination and a successful persist |
| `Controller.CreateOnlyWithoutInstanceID` | internal/controller/ec2instance_controller.go:89-131 | a run request is issued only for a resource that is not being deleted and has an empty InstanceID, and for such a resource exactly when the finalizer persist succeeds |
| `Controller.FinalizerPersistedBeforeCreate` | internal/controller/ec2instance_controller.go:123-131 | the token is appended (one more copy) and persisted before the run request; a failed persist ends the pass without a run and requeues with the error |
| `Controller.CreationOutcomes` | internal/controller/ec2instance_controller.go:131-153 | after a create with info, all six status fields equal the info and are persisted, and the pass requeues after 1s; a create error is returned with an empty result and no status write; (nil, nil) panics |
| `Controller.DescribeErrorClearsStatus` | internal/controller/ec2instance_controller.go:94-102 | a describe error that is not not-found clears all six fields, persists them, and requeues with the persist's error |
| `Controller.ClearedStatusLeadsToCreation` | internal/controller/ec2instance_controller.go:94-129 | once the cleared status is persisted, the next pass starts the creation path |
| `Controller.VerificationWithoutError` | internal/controller/ec2instance_controller.go:104-118 | not running: the id is kept, State becomes "Unknown", PublicIP "", and the write error is ignored; running and "Unknown": State and PublicIP come from the record, and a missing state or IP panics; running otherwise: no write; none requeues |
| `Controller.NotFoundKeepsInstanceID` | internal/controller/ec2instance_controller.go:104-110 | a not-found describe (error code or empty answer) keeps InstanceID, marks "Unknown", and launches nothing |
| `Traces.PassKeepsFinalizerGuard` | internal/controller/ec2instance_controller.go:121-145 | every pass keeps the guard "a resource that records an instance and is not being deleted carries the token" |
| `Traces.RunKeepsFinalizerGuard` | internal/controller/ec2instance_controller.go:52-154 | the guard holds after any run of passes and delete requests that starts from a guarded store |
| `Traces.RemovalOnlyAfterConfirmedTermination` | internal/controller/ec2instance_controller.go:67-85 | a resource carrying the token loses it, or is removed, only in a run where some reconcile step was a deletion pass (Get succeeded, the resource was being deleted) whose terminate was confirmed |
| `Traces.PassKeepsDeletion` | internal/controller/ec2instance_controller.go:67-85 | no pass clears a deletion timestamp or brings back a removed resource |
| `Traces.NoCreateOnceDeletionRequested` | internal/controller/ec2instance_controller.go:67-131 | once deletion is requested, no later pass issues a run request |
| `Traces.PassKeepsSettled` | internal/controller/ec2instance_controller.go:89-119 | without a describe error, a pass keeps a resource settled (recording an id, being deleted, or gone), and a live resource keeps the very same id |
| `Traces.PersistedIdBlocksRecreation` | internal/controller/ec2instance_controller.go:89-131 | once an id is persisted, no later pass issues a run request while no describe fails with an error other than not-found |
| `Scenarios.EndToEnd` | internal/controller/ec2instance_controller.go:52-154 | create "i-abc" and persist its status, then request deletion, then a pass terminates it, drops the finalizer, and the resource is removed |
| `Scenarios.LostStatusWriteCreatesTwice` | internal/controller/ec2instance_controller.go:131-150 | a status write lost after a successful launch leads to a second run request |
| `Scenarios.LaunchedButUnrecordedIsRepeated` | internal/controller/ec2instance_controller.go:131-135 | when RunInstances reports an instance with an id and the wait or describe then fails, or creation crashes, the next pass issues a second run request |
| `Scenarios.WaitTimeoutCreatesTwice` | internal/controller/aws.go:116-122 | a running-wait that times out after launch leads to a second run request |
| `Scenarios.TransientDescribeErrorCreatesTwice` | internal/controller/ec2instance_controller.go:93-102 | a throttling error on describe clears a running instance's status, and the following pass launches a second instance |

## Left out

- `awsClient` (credentials read from the environment, SDK configuration, `os.Exit` on failure) is process I/O. Every SDK call is an outcome supplied in `Env`.
- The waiters' wall-clock bounds (3 minutes for running, 5 for terminated) are not modelled, because time is not. A timeout is one more wait error.
- Logging and `fmt.Print*` have no behaviour. The exception is the dereferences inside the print at aws.go:139 and the logs at aws.go:108 and aws.go:202, which are modelled as crash sites.
- The running-wait and follow-up describe inside creation are outcomes. Only the run request is recorded in `calls`, and the waiter's own query is not.
- Describe filters other than `instance-state-name` have no semantics in `Aws.Selects`, because the code sends no other filter.
- The Kubernetes client is abstracted as outcomes on the stored copy. Optimistic-concurrency conflicts, watches, dispatch and `SetupWithManager` are left out. A conflict is an update error.
- `Env.getErr` stands for a Get failure other than NotFound. NotFound is the store holding nothing.
- `Get` always returns the last persisted copy. A cache-backed client can return an older copy (for instance one taken before the last status write), which the model does not capture; `Traces.PersistedIdBlocksRecreation` relies on it.
- Controller-runtime's panic recovery and backoff scheduling are outside the pass. A pass that panics ends in `Panicked(site)`, and the writes made before the panic stay.
- Concurrency across resources and the worker pool are left out. Passes over one resource are serialised, as the dispatcher guarantees.
- Context cancellation is not a separate case. It appears as the error outcome of the call it interrupts.
- The declared types in api/v1/ec2instance_types.go do not define the record shape. The model uses the field names the controller and aws.go read and write.
