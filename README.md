# Deployment-state reconciliation of a Keptn workload instance

This project models, in Dafny, the step of the Keptn lifecycle operator that decides whether
the resource deployed for a `KeptnWorkloadInstance` is running and records the answer in the
instance's `Status.DeploymentStatus`.

The step has three parts:

- **Kind dispatch.** A switch on `Spec.ResourceReference.Kind` selects a checker for `Pod`,
  `ReplicaSet`, `StatefulSet` or `DaemonSet`. Any other kind yields `false` with
  `ErrUnsupportedWorkloadInstanceResourceReference`.
- **Running-state checkers.** ReplicaSet and StatefulSet are running when the declared replica
  count equals the available replica count. A DaemonSet is running when the desired-scheduled count
  equals the ready count. A Pod is running when the first pod of the namespace's list with the
  referenced UID is in phase `Running`. A missing UID gives "not running" and no error.
  Every client error is passed on with `false`.
- **Status reducer.** A checker error returns `(StateUnknown, err)`. It assigns nothing and
  writes nothing. Otherwise `DeploymentStatus` becomes `StateSucceeded` or `StateProgressing`, and
  the status is written once. A failed write returns `(StateUnknown, writeErr)`.

Files:

- `wrappers.dfy` (module `Wrappers`): `Option` and `Result`.
- `kube.dfy` (module `Kube`): the Kubernetes fields the step reads; 32-bit counts as `int32`.
  The read side of the API client is a `Cluster` value: a `Get` answer per kind and key, and a
  pod `List` answer per namespace. Each answer is either an object or an `ApiError`.
- `keptn.dfy` (module `Keptn`): `KeptnState`, `ResourceReference`, the step's `Error`, and the
  `KeptnWorkloadInstance` class. Its `deploymentStatus` field is updated in place.
- `reconcile_deploymentstate.dfy` (module `ReconcileDeploymentState`):
  - the dispatcher and the three count checkers, as functions;
  - the Pod checker, as a loop method proved against a function;
  - the reducer, as a function `Reduce`;
  - the `Reconciler` class. Its `ReconcileDeployment` method mutates the instance and logs each
    status write in `statusUpdates`. Its contract ties the result and the new state to
    `Reduce(Dispatch(...))`.

Two consequences of the code's order of operations:

- `DeploymentStatus` is assigned before the status write and is not rolled back when the write
  fails. `ReconcileDeployment` states this: after a failed write the field holds the new value,
  and the write is logged.
- The step recomputes the state on every pass and never reads the previous value, so nothing
  stops a regression from Succeeded to Progressing.

## Model

| member | source | states |
|---|---|---|
| ReconcileDeploymentState.ClassifyKind | operator/controllers/keptnworkloadinstance/reconcile_deploymentstate.go:19-30 | each of the four kind strings selects its own case, exactly and case-sensitively; every other string, and only those, is unsupported |
| ReconcileDeploymentState.IsReplicaSetRunning | operator/controllers/keptnworkloadinstance/reconcile_deploymentstate.go:48-55 | if the Get by reference name and instance namespace fails, the result is that error with `false`; if it succeeds, there is no error and the result is running exactly when spec replicas equal available replicas |
| ReconcileDeploymentState.IsStatefulSetRunning | operator/controllers/keptnworkloadinstance/reconcile_deploymentstate.go:82-89 | same as for the ReplicaSet, using the StatefulSet Get: the error is passed on with `false`, otherwise running iff spec replicas equal available replicas |
| ReconcileDeploymentState.IsDaemonSetRunning | operator/controllers/keptnworkloadinstance/reconcile_deploymentstate.go:57-64 | a Get error is passed on with `false`; otherwise running iff desired-scheduled equals number-ready |
| ReconcileDeploymentState.FirstIndexOf | operator/controllers/keptnworkloadinstance/reconcile_deploymentstate.go:71-72 | the index the scan stops at: no earlier pod has the UID, and the pod there has it, unless the index is the list length (no pod has the UID) |
| ReconcileDeploymentState.PodRunningResult | operator/controllers/keptnworkloadinstance/reconcile_deploymentstate.go:66-80 | a List error is passed on with `false`; otherwise there is no error, and the result is running iff the first pod with the reference UID exists and is in phase Running; when no pod has the UID the result is `(false, no error)` |
| ReconcileDeploymentState.IsPodRunning | operator/controllers/keptnworkloadinstance/reconcile_deploymentstate.go:66-80 | the loop with early returns gives exactly `PodRunningResult`; its invariant is that no pod before the current one has the UID |
| ReconcileDeploymentState.LaterPodsIgnored | operator/controllers/keptnworkloadinstance/reconcile_deploymentstate.go:71-77 | once a pod with the UID is in the list, appending more pods changes neither the stopping index nor the answer |
| ReconcileDeploymentState.Dispatch | operator/controllers/keptnworkloadinstance/reconcile_deploymentstate.go:19-30 | every checker's error comes with `false`; the unsupported-kind error arises iff the kind is unsupported, and then the result is exactly `(false, ErrUnsupported…)`; each supported kind gives exactly its checker's answer |
| ReconcileDeploymentState.Reduce | operator/controllers/keptnworkloadinstance/reconcile_deploymentstate.go:32-45 | a checker error gives `(StateUnknown, that error)` with nothing assigned or written; otherwise Succeeded is assigned iff running, Progressing iff not running, and Unknown never is; the error is absent iff checker and write both succeed; a failed write gives `(StateUnknown, write error)` with the new status already assigned; on success the returned state is the assigned one and is never Unknown |
| ReconcileDeploymentState.Reconciler.UpdateStatus | operator/controllers/keptnworkloadinstance/reconcile_deploymentstate.go:41 | one status write carrying the instance's current `DeploymentStatus` is appended to the log; it fails exactly when the API server's answer is an error, and then returns that error |
| ReconcileDeploymentState.Reconciler.ReconcileDeployment | operator/controllers/keptnworkloadinstance/reconcile_deploymentstate.go:15-46 | return value and error are `Reduce(Dispatch(snapshot, reference, namespace), write answer)`; with nothing to assign, the status field and the write log are unchanged; otherwise the field holds the assigned value and exactly that one write is logged, whether it succeeds or not; an unsupported kind returns `(StateUnknown, ErrUnsupported…)` and changes nothing; on success the returned state is the field's value and is not Unknown |
| ReconcileDeploymentState.Reconciler.ReconcileTwice | operator/controllers/keptnworkloadinstance/reconcile_deploymentstate.go:15-46 | two passes over the same snapshot with successful writes return the same state and error; on success they log the same status value twice, and after a checker error nothing is logged |
| ReconcileDeploymentState.RunningExamples | operator/controllers/keptnworkloadinstance/reconcile_deploymentstate.go:48-89 | 3/3 replicas run and 3/2 do not; 5/5 DaemonSet pods ready run and 5/4 do not; a Running first match runs, a Pending first match does not even if a later pod with the same UID runs, and an absent UID gives `(false, no error)`; a failing Get gives its error with `false` |

## Left out

- The controller-runtime client (`Client.Get`, `Client.List`, `Status().Update`) is network I/O
  into library code. Its answers are inputs: the `Cluster` snapshot for reads, and a
  `writeResult` parameter for the status write. The write's response is not decoded back into
  the instance, so after a successful write `DeploymentStatus` keeps the value that was sent,
  and that is the state returned.
- `context.Context` cancellation and deadlines are not modelled. A cancelled call is one more `ApiError` answer.
- Concurrency between reconciliations, requeueing and the watch machinery are not part of this step.
- Kubernetes objects keep only the fields the step reads: pod UID and `Status.Phase`, the replica
  counts, and the DaemonSet's scheduled and ready counts.
- The nil dereference of `*Spec.Replicas` (lines 54 and 88) is not modelled. The declared replica
  count is always present in the model, so the panic on a nil pointer is outside it.
- `KeptnState` has only the three values this step produces. The other lifecycle states of the
  `common` package are not part of this model. This step never reads the previous value.
- `KeptnWorkloadInstance` keeps only the namespace, the resource reference and
  `DeploymentStatus`. The other status fields are not touched by this step.
- The status write is logged as the value of `DeploymentStatus` it carries. What the API server
  persists after a failed write is not modelled.
