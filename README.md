# Workflow client status merge

A model of `WorkflowClient.Get` from the agent's persistence client of the Kubeflow Pipelines
on Tekton backend. `Get` looks a PipelineRun up in the informer's cache and classifies a failed
lookup as not-found or generic. When the run has child references, it scans them once for
`TaskRun` and `Run` children. It then lists only the kinds it saw, selecting by the run-id label.
Each fetched list becomes a fresh map from item name to the item's `tekton.dev/pipelineTask` label
and status, and that map is written into `Status.TaskRuns` or `Status.Runs`. A failed list call
aborts with an internal-server error and no record.

Modules:

- `Wrappers`: `Option` and `Result`.
- `Util`: the error codes, the error shapes `Get` returns and the run-id label key.
- `Tekton`: the API objects involved. The PipelineRun is a class, because `Get` writes into it in place.
- `WorkflowClient`: the operations and their properties.

The cache lookup and the two list calls are inputs to `Get`:

- `lookup` is a `Result<PipelineRun, LookupError>`, and its error carries `isNotFound`.
- `taskRunList` and `runList` are the results the clientset would return.

A list result is consulted only when `Get` issues that query. `Get` returns the queries it issued,
in order, with their namespace and label selector. `Get` is a method with the source's loops:

- `ScanChildKinds` is the flag-setting loop.
- `BuildStatusMap` is the map-building loop.
- `MergeChildStatuses` makes the in-place writes to the record's status.

These are proved against the functions `IssuedQueries`, `Reconcile` and `CachedStatusAfterGet`.
The lemmas state the listed properties about those functions.

Three behaviours of the code are worth noting:

- The maps are keyed by the items the live list returns, not by the child references.
- The Run query is not issued when the TaskRun query already failed.
- `Get` writes into the object the cache handed out. See "## Findings".

## Model

| member | source | states |
|---|---|---|
| WorkflowClient.ClassifyLookupError | backend/src/agent/persistence/client/workflow_client.go:64-70 | the code is NOT_FOUND exactly when the lookup error is a not-found error, GENERIC exactly otherwise |
| WorkflowClient.KindOf | backend/src/agent/persistence/client/workflow_client.go:77-83 | a kind string is a TaskRun child iff it is "TaskRun", a Run child iff it is "Run"; anything else falls to the ignored default |
| WorkflowClient.ScanChildKinds | backend/src/agent/persistence/client/workflow_client.go:75-84 | after one pass, hasTaskRun holds iff some child has kind "TaskRun" and hasRun iff some child has kind "Run" |
| WorkflowClient.LabelValue | backend/src/agent/persistence/client/workflow_client.go:90 | a label lookup yields the label's value when present and the empty string when absent, as Go's map index does |
| WorkflowClient.RunIdSelectorSelectsRunId | backend/src/agent/persistence/client/workflow_client.go:89-90 | the selector `key=value` reads back, split at its first '=', as the run-id label key and the run's own run-id label value |
| WorkflowClient.Entry | backend/src/agent/persistence/client/workflow_client.go:98-101 | an item's entry carries the item's `tekton.dev/pipelineTask` label (or "" when absent) and the item's status |
| WorkflowClient.LastIndexOf | backend/src/agent/persistence/client/workflow_client.go:97-98 | for a name that occurs in the list, the position of the item that carries it with no later item carrying it |
| WorkflowClient.StatusMap | backend/src/agent/persistence/client/workflow_client.go:96-102 | the map built by inserting the items in order has exactly the item names as keys |
| WorkflowClient.StatusMapIsLastWins | backend/src/agent/persistence/client/workflow_client.go:97-102 | the insertion-built map equals the map sending each name to the entry of the last item with that name |
| WorkflowClient.BuildStatusMap | backend/src/agent/persistence/client/workflow_client.go:96-102 | the loop's map has exactly the item names as keys and maps each name to the entry of its last item |
| WorkflowClient.IssuedQueries | backend/src/agent/persistence/client/workflow_client.go:87-108 | a TaskRun list is issued iff child references exist and one is a TaskRun; a Run list iff one is a Run and the TaskRun list did not fail first; every query is in the request namespace with the run-id selector; TaskRuns come before Runs |
| WorkflowClient.Reconcile | backend/src/agent/persistence/client/workflow_client.go:74-121 | nil or empty child references leave the status unchanged; the call fails iff a consulted list failed, with the internal-server error naming the kind that failed (TaskRuns checked first); on success only TaskRuns and Runs change, each set to the fetched map exactly when children of that kind exist |
| WorkflowClient.CachedStatusAfterGet | backend/src/agent/persistence/client/workflow_client.go:103-119 | the status left in the looked-up object: the merged status on success; its base and child references never change; after a failed call Runs is untouched and the status differs only when a TaskRun fetch succeeded, by exactly that fetch's TaskRuns map |
| WorkflowClient.RunIdSelector | backend/src/agent/persistence/client/workflow_client.go:89-90 | the selector is the run-id label key, then '=', then the run's run-id label value ("" when the label is absent); the Run query at lines 106-107 uses the same selector |
| WorkflowClient.MergeChildStatuses | backend/src/agent/persistence/client/workflow_client.go:74-121 | the scan, fetches and writes issue exactly IssuedQueries, return no error iff Reconcile succeeds (else its error), leave the labels alone and leave the status as CachedStatusAfterGet |
| WorkflowClient.Get | backend/src/agent/persistence/client/workflow_client.go:61-124 | a failed lookup returns no record, no query and the classified custom error with namespace and name; otherwise the merged record itself on success, or no record and the internal-server error, with the cached object updated in place |
| WorkflowClient.GetFromCopy | backend/src/agent/persistence/client/workflow_client.go:61-124 | the same results as Get, but the cached object is unchanged and the merged record is a fresh object with the cached identity and labels |
| WorkflowClient.MergedMapsAreLastWins | backend/src/agent/persistence/client/workflow_client.go:96-119 | after a successful merge, each fetched kind's map has exactly the list's item names as keys, each name mapped to its last item's pipelineTask label and status |
| WorkflowClient.OnlyKindPresenceMatters | backend/src/agent/persistence/client/workflow_client.go:75-84 | two child lists with the same kinds present give the same queries, the same error and the same maps |
| WorkflowClient.UnknownKindIgnored | backend/src/agent/persistence/client/workflow_client.go:82-83 | inserting a child of an unrecognised kind anywhere changes no query, no error and no map |
| WorkflowClient.ReconcileIdempotent | backend/src/agent/persistence/client/workflow_client.go:74-121 | merging an already merged status against the same list results returns it unchanged |
| WorkflowClient.FailedRunFetchLeavesCacheMerged | backend/src/agent/persistence/client/workflow_client.go:103-111 | with a TaskRun and a Run child, a good TaskRun list and a failing Run list, the call fails with "can't fetch runs" while the cached status has gained the TaskRuns map |
| WorkflowClient.SingleTaskRunScenario | backend/src/agent/persistence/client/workflow_client.go:87-104 | one TaskRun child and one listed TaskRun "step-a" labelled "train" give TaskRuns = {"step-a": ("train", its status)}, Runs left unset and the Run list never consulted |

## Left out

- `AddEventHandler`, `HasSynced` and the `informer`/lister internals: they pass straight through to client-go caches, which are not part of this model.
- `NewWorkflowClient` only stores its two fields, so the model has no client object: `Get` takes the lookup and list results as inputs.
- The clientset list calls, `context.Background()` and the network: each list call is an input `Result`, fixed per kind. The model does not check that the store returns only items carrying the run-id label.
- `DeepCopy` of the item statuses: datatype values cannot alias, so the copy is implicit.
- The formatting of messages by `util.NewCustomError` and `util.NewInternalServerError`: an error carries its code, the namespace and name (or the fixed message) and its cause.
- `util.NewWorkflow` is the identity wrapper around the PipelineRun object.
- `util.LabelKeyWorkflowRunId` is defined in backend/src/common/util, which is not part of this model. Its value is taken as `pipeline/runid`.
- Status payloads are opaque field maps. `PipelineRunTaskRunStatus` and `PipelineRunRunStatus` share one shape, `ChildStatus`.
- Go's map iteration order and pointer identity beyond the one cached object are not modelled.
- Concurrency is not modelled, including concurrent callers writing into the same cached object.

## Findings

| source | as written | input that shows it | evidently intended | confidence | as-written member | corrected member |
|---|---|---|---|---|---|---|
| backend/src/agent/persistence/client/workflow_client.go:63-119 | the merged maps are written into the object the lister returned, which is the informer cache's shared copy | a run with one TaskRun and one Run child, a successful TaskRun list and a failing Run list: `Get` returns an internal-server error, but the cached PipelineRun now holds the TaskRuns map | objects from a lister are read-only, so the record should be copied before the merge; the cache is then never changed and a failed call leaves no trace | medium, not executed | WorkflowClient.FailedRunFetchLeavesCacheMerged | WorkflowClient.GetFromCopy |
