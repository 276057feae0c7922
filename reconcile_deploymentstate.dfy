/**
 * The deployment-state step of the workload-instance reconciler: decide from
 * one snapshot of the cluster whether the deployed resource is running, record
 * the result in the instance's `DeploymentStatus` and write the status back.
 */
module ReconcileDeploymentState {
  import opened Wrappers
  import opened Kube
  import opened Keptn

  // ---------------------------------------------------------------------------
  // Kind dispatch
  // ---------------------------------------------------------------------------

  /** The cases of the switch on `ResourceReference.Kind`. */
  datatype Kind = KindPod | KindReplicaSet | KindStatefulSet | KindDaemonSet | Unsupported(kind: string)

  /** Which case of the switch a kind string selects; the match is exact and case-sensitive. */
  function ClassifyKind(kind: string): (k: Kind)
    ensures k == KindPod <==> kind == "Pod"
    ensures k == KindReplicaSet <==> kind == "ReplicaSet"
    ensures k == KindStatefulSet <==> kind == "StatefulSet"
    ensures k == KindDaemonSet <==> kind == "DaemonSet"
    ensures k.Unsupported? <==> kind !in {"Pod", "ReplicaSet", "StatefulSet", "DaemonSet"}
    ensures k.Unsupported? ==> k.kind == kind
  {
    if kind == "Pod" then KindPod
    else if kind == "ReplicaSet" then KindReplicaSet
    else if kind == "StatefulSet" then KindStatefulSet
    else if kind == "DaemonSet" then KindDaemonSet
    else Unsupported(kind)
  }

  /** What a running-state checker returns: `(isRunning, err)`. */
  datatype RunningResult = RunningResult(isRunning: bool, err: Option<Error>)

  // ---------------------------------------------------------------------------
  // Running-state checkers
  // ---------------------------------------------------------------------------

  /** A ReplicaSet runs once every replica it asks for is available. */
  function IsReplicaSetRunning(cluster: Cluster, resource: ResourceReference, namespace: string): (r: RunningResult)
    ensures var got := cluster.getReplicaSet(NamespacedName(resource.name, namespace));
      && (r.err.Some? <==> got.Err?)
      && (got.Err? ==> r.err == Some(Api(got.error)) && !r.isRunning)
      && (r.isRunning <==> got.Ok? && got.value.specReplicas == got.value.availableReplicas)
  {
    match cluster.getReplicaSet(NamespacedName(resource.name, namespace))
    case Err(e) => RunningResult(false, Some(Api(e)))
    case Ok(rep) => RunningResult(rep.specReplicas == rep.availableReplicas, None)
  }

  /** A StatefulSet runs once every replica it asks for is available. */
  function IsStatefulSetRunning(cluster: Cluster, resource: ResourceReference, namespace: string): (r: RunningResult)
    ensures var got := cluster.getStatefulSet(NamespacedName(resource.name, namespace));
      && (r.err.Some? <==> got.Err?)
      && (got.Err? ==> r.err == Some(Api(got.error)) && !r.isRunning)
      && (r.isRunning <==> got.Ok? && got.value.specReplicas == got.value.availableReplicas)
  {
    match cluster.getStatefulSet(NamespacedName(resource.name, namespace))
    case Err(e) => RunningResult(false, Some(Api(e)))
    case Ok(sts) => RunningResult(sts.specReplicas == sts.availableReplicas, None)
  }

  /** A DaemonSet runs once it is ready on every node it should be scheduled on. */
  function IsDaemonSetRunning(cluster: Cluster, resource: ResourceReference, namespace: string): (r: RunningResult)
    ensures var got := cluster.getDaemonSet(NamespacedName(resource.name, namespace));
      && (r.err.Some? <==> got.Err?)
      && (got.Err? ==> r.err == Some(Api(got.error)) && !r.isRunning)
      && (r.isRunning <==> got.Ok? && got.value.desiredNumberScheduled == got.value.numberReady)
  {
    match cluster.getDaemonSet(NamespacedName(resource.name, namespace))
    case Err(e) => RunningResult(false, Some(Api(e)))
    case Ok(ds) => RunningResult(ds.desiredNumberScheduled == ds.numberReady, None)
  }

  /** The position of the first pod with the given UID, or `|pods|` if there is none. */
  function FirstIndexOf(pods: seq<Pod>, uid: string): (i: nat)
    ensures i <= |pods|
    ensures forall j :: 0 <= j < i ==> pods[j].uid != uid
    ensures i < |pods| ==> pods[i].uid == uid
  {
    if pods == [] then 0
    else if pods[0].uid == uid then 0
    else 1 + FirstIndexOf(pods[1..], uid)
  }

  /** The first pod of the list with UID `uid` exists and is in phase Running. */
  ghost predicate FirstMatchRuns(pods: seq<Pod>, uid: string)
  {
    exists i :: 0 <= i < |pods| && pods[i].uid == uid && pods[i].phase == PodRunning &&
      forall j :: 0 <= j < i ==> pods[j].uid != uid
  }

  /** What the Pod checker answers, as a function of the snapshot. */
  function PodRunningResult(cluster: Cluster, resource: ResourceReference, namespace: string): (r: RunningResult)
    ensures var listed := cluster.listPods(namespace);
      && (r.err.Some? <==> listed.Err?)
      && (listed.Err? ==> r.err == Some(Api(listed.error)) && !r.isRunning)
      && (listed.Ok? ==> (r.isRunning <==> FirstMatchRuns(listed.value, resource.uid)))
      && (listed.Ok? && (forall p :: p in listed.value ==> p.uid != resource.uid) ==> r == RunningResult(false, None))
  {
    match cluster.listPods(namespace)
    case Err(e) => RunningResult(false, Some(Api(e)))
    case Ok(pods) =>
      var i := FirstIndexOf(pods, resource.uid);
      RunningResult(i < |pods| && pods[i].phase == PodRunning, None)
  }

  /** Lists the pods of the namespace and looks at the first one with the referenced UID. */
  method IsPodRunning(cluster: Cluster, resource: ResourceReference, namespace: string)
      returns (isRunning: bool, err: Option<Error>)
    ensures RunningResult(isRunning, err) == PodRunningResult(cluster, resource, namespace)
  {
    var podList := cluster.listPods(namespace);
    if podList.Err? {
      return false, Some(Api(podList.error));
    }
    var items := podList.value;
    for i := 0 to |items|
      invariant forall j :: 0 <= j < i ==> items[j].uid != resource.uid
    {
      var p := items[i];
      if p.uid == resource.uid {
        if p.phase == PodRunning {
          return true, None;
        }
        return false, None;
      }
    }
    return false, None;
  }

  /** The scan stops at the first pod with the UID: pods listed after it, even
      ones with the same UID, do not change the answer. */
  lemma LaterPodsIgnored(pods: seq<Pod>, later: seq<Pod>, uid: string)
    requires exists i :: 0 <= i < |pods| && pods[i].uid == uid
    ensures FirstIndexOf(pods + later, uid) == FirstIndexOf(pods, uid)
    ensures FirstMatchRuns(pods + later, uid) <==> FirstMatchRuns(pods, uid)
  {
    var i := FirstIndexOf(pods, uid);
    assert (pods + later)[i] == pods[i];
    assert FirstIndexOf(pods + later, uid) == i;
  }

  /** The result of the switch: the checker the kind selects, or the unsupported-kind error. */
  function Dispatch(cluster: Cluster, resource: ResourceReference, namespace: string): (r: RunningResult)
    ensures r.err.Some? ==> !r.isRunning
    ensures r.err == Some(ErrUnsupportedWorkloadInstanceResourceReference) <==> ClassifyKind(resource.kind).Unsupported?
    ensures ClassifyKind(resource.kind).Unsupported? ==> r == RunningResult(false, Some(ErrUnsupportedWorkloadInstanceResourceReference))
    ensures ClassifyKind(resource.kind) == KindPod ==> r == PodRunningResult(cluster, resource, namespace)
    ensures ClassifyKind(resource.kind) == KindReplicaSet ==> r == IsReplicaSetRunning(cluster, resource, namespace)
    ensures ClassifyKind(resource.kind) == KindStatefulSet ==> r == IsStatefulSetRunning(cluster, resource, namespace)
    ensures ClassifyKind(resource.kind) == KindDaemonSet ==> r == IsDaemonSetRunning(cluster, resource, namespace)
  {
    match ClassifyKind(resource.kind)
    case KindPod => PodRunningResult(cluster, resource, namespace)
    case KindReplicaSet => IsReplicaSetRunning(cluster, resource, namespace)
    case KindStatefulSet => IsStatefulSetRunning(cluster, resource, namespace)
    case KindDaemonSet => IsDaemonSetRunning(cluster, resource, namespace)
    case Unsupported(_) => RunningResult(false, Some(ErrUnsupportedWorkloadInstanceResourceReference))
  }

  // ---------------------------------------------------------------------------
  // Status reducer
  // ---------------------------------------------------------------------------

  /** The returned `(state, err)` and the value assigned to `DeploymentStatus`
      and written (`None`: nothing assigned, no write issued). */
  datatype Outcome = Outcome(state: KeptnState, err: Option<Error>, written: Option<KeptnState>)

  /** How the checker's answer and the outcome of the status write, when one is
      issued, decide what the step returns and records. */
  function Reduce(r: RunningResult, writeResult: Option<ApiError>): (o: Outcome)
    ensures r.err.Some? ==> o == Outcome(StateUnknown, r.err, None)
    ensures o.written == Some(StateSucceeded) <==> r.err.None? && r.isRunning
    ensures o.written == Some(StateProgressing) <==> r.err.None? && !r.isRunning
    ensures o.written != Some(StateUnknown)
    ensures o.err.None? <==> r.err.None? && writeResult.None?
    ensures o.err.Some? ==> o.state == StateUnknown
    ensures o.err.None? ==> o.written == Some(o.state) && o.state != StateUnknown
    ensures r.err.None? && writeResult.Some? ==> o.err == Some(Api(writeResult.value)) && o.written.Some?
  {
    if r.err.Some? then Outcome(StateUnknown, r.err, None)
    else
      var status := if r.isRunning then StateSucceeded else StateProgressing;
      match writeResult
      case Some(e) => Outcome(StateUnknown, Some(Api(e)), Some(status))
      case None => Outcome(status, None, Some(status))
  }

  /** The reconciler: the read side of its client is one snapshot of the cluster;
      `statusUpdates` logs every status write it issues, in order. */
  class Reconciler {
    const cluster: Cluster
    var statusUpdates: seq<KeptnState>

    constructor (cluster: Cluster)
      ensures this.cluster == cluster
      ensures statusUpdates == []
    {
      this.cluster := cluster;
      statusUpdates := [];
    }

    /** `Status().Update`: sends the instance's current status; `result` is the
        API server's answer. */
    method UpdateStatus(wi: KeptnWorkloadInstance, result: Option<ApiError>) returns (err: Option<Error>)
      modifies this
      ensures statusUpdates == old(statusUpdates) + [wi.deploymentStatus]
      ensures err.None? <==> result.None?
      ensures result.Some? ==> err == Some(Api(result.value))
    {
      statusUpdates := statusUpdates + [wi.deploymentStatus];
      err := if result.Some? then Some(Api(result.value)) else None;
    }

    /** `reconcileDeployment`; `writeResult` is what the API server answers to
        the status write, should one be issued. */
    method ReconcileDeployment(wi: KeptnWorkloadInstance, writeResult: Option<ApiError>)
        returns (state: KeptnState, err: Option<Error>)
      modifies this, wi
      ensures var o := Reduce(Dispatch(cluster, wi.resourceReference, wi.namespace), writeResult);
        && state == o.state && err == o.err
        && (o.written.None? ==> wi.deploymentStatus == old(wi.deploymentStatus) && statusUpdates == old(statusUpdates))
        && (o.written.Some? ==> wi.deploymentStatus == o.written.value && statusUpdates == old(statusUpdates) + [o.written.value])
      ensures ClassifyKind(wi.resourceReference.kind).Unsupported? ==>
        && state == StateUnknown && err == Some(ErrUnsupportedWorkloadInstanceResourceReference)
        && wi.deploymentStatus == old(wi.deploymentStatus) && statusUpdates == old(statusUpdates)
      ensures err.None? ==> state == wi.deploymentStatus && state != StateUnknown
    {
      var isRunning: bool;
      var checkErr: Option<Error>;
      match ClassifyKind(wi.resourceReference.kind) {
        case KindPod =>
          isRunning, checkErr := IsPodRunning(cluster, wi.resourceReference, wi.namespace);
        case KindReplicaSet =>
          var r := IsReplicaSetRunning(cluster, wi.resourceReference, wi.namespace);
          isRunning, checkErr := r.isRunning, r.err;
        case KindStatefulSet =>
          var r := IsStatefulSetRunning(cluster, wi.resourceReference, wi.namespace);
          isRunning, checkErr := r.isRunning, r.err;
        case KindDaemonSet =>
          var r := IsDaemonSetRunning(cluster, wi.resourceReference, wi.namespace);
          isRunning, checkErr := r.isRunning, r.err;
        case Unsupported(_) =>
          isRunning, checkErr := false, Some(ErrUnsupportedWorkloadInstanceResourceReference);
      }

      if checkErr.Some? {
        return StateUnknown, checkErr;
      }
      if isRunning {
        wi.deploymentStatus := StateSucceeded;
      } else {
        wi.deploymentStatus := StateProgressing;
      }

      err := UpdateStatus(wi, writeResult);
      if err.Some? {
        return StateUnknown, err;
      }
      return wi.deploymentStatus, None;
    }

    /** Two passes over the same snapshot, both writes succeeding: the second pass
        does not depend on what the first one recorded, so both return the same
        state and issue the same write. */
    method ReconcileTwice(wi: KeptnWorkloadInstance)
        returns (first: KeptnState, firstErr: Option<Error>, second: KeptnState, secondErr: Option<Error>)
      modifies this, wi
      ensures first == second && firstErr == secondErr
      ensures firstErr.None? ==> statusUpdates == old(statusUpdates) + [first, first]
      ensures firstErr.Some? ==> statusUpdates == old(statusUpdates)
    {
      first, firstErr := ReconcileDeployment(wi, None);
      second, secondErr := ReconcileDeployment(wi, None);
    }
  }

  /** The running predicates on the counts 3/3, 3/2, 5/5 and 5/4, and the Pod
      checker on a running pod, a pending pod and an absent UID. */
  lemma RunningExamples(ref: ResourceReference)
    ensures var ok := Cluster(_ => Ok(ReplicaSet(3, 3)), _ => Ok(StatefulSet(3, 3)), _ => Ok(DaemonSet(5, 5)),
                              _ => Ok([Pod("a", "Pending"), Pod(ref.uid, PodRunning)]));
      && IsReplicaSetRunning(ok, ref, "ns") == RunningResult(true, None)
      && IsStatefulSetRunning(ok, ref, "ns") == RunningResult(true, None)
      && IsDaemonSetRunning(ok, ref, "ns") == RunningResult(true, None)
      && (ref.uid != "a" ==> PodRunningResult(ok, ref, "ns") == RunningResult(true, None))
    ensures var short := Cluster(_ => Ok(ReplicaSet(3, 2)), _ => Ok(StatefulSet(3, 2)), _ => Ok(DaemonSet(5, 4)),
                                 _ => Ok([Pod(ref.uid, "Pending"), Pod(ref.uid, PodRunning)]));
      && IsReplicaSetRunning(short, ref, "ns") == RunningResult(false, None)
      && IsStatefulSetRunning(short, ref, "ns") == RunningResult(false, None)
      && IsDaemonSetRunning(short, ref, "ns") == RunningResult(false, None)
      && PodRunningResult(short, ref, "ns") == RunningResult(false, None)
    ensures var absent := Cluster(_ => Err(ApiError("NotFound")), _ => Err(ApiError("NotFound")),
                                  _ => Err(ApiError("NotFound")), _ => Ok([]));
      && PodRunningResult(absent, ref, "ns") == RunningResult(false, None)
      && IsReplicaSetRunning(absent, ref, "ns") == RunningResult(false, Some(Api(ApiError("NotFound"))))
  {
    var pods := [Pod("a", "Pending"), Pod(ref.uid, PodRunning)];
    if ref.uid != "a" {
      assert pods[1..] == [Pod(ref.uid, PodRunning)];
      assert FirstIndexOf(pods, ref.uid) == 1;
    }
  }
}
