/**
 * The few Kubernetes objects the deployment-state check reads, and the
 * read side of the API client, reduced to abstract answers.
 */
module Kube {
  import opened Wrappers

  /** Kubernetes counts are 32-bit signed integers. */
  newtype int32 = x: int | -0x8000_0000 <= x < 0x8000_0000

  /** Any failure reported by the API server or the client library: not found,
      forbidden, cancelled context, timeout, ... */
  datatype ApiError = ApiError(reason: string)

  datatype NamespacedName = NamespacedName(name: string, namespace: string)

  /** `Spec.Replicas` and `Status.AvailableReplicas` of an apps/v1 ReplicaSet. */
  datatype ReplicaSet = ReplicaSet(specReplicas: int32, availableReplicas: int32)

  /** `Spec.Replicas` and `Status.AvailableReplicas` of an apps/v1 StatefulSet. */
  datatype StatefulSet = StatefulSet(specReplicas: int32, availableReplicas: int32)

  /** `Status.DesiredNumberScheduled` and `Status.NumberReady` of an apps/v1 DaemonSet. */
  datatype DaemonSet = DaemonSet(desiredNumberScheduled: int32, numberReady: int32)

  /** The UID and `Status.Phase` of a core/v1 Pod. */
  datatype Pod = Pod(uid: string, phase: string)

  /** core/v1 `PodRunning`. */
  const PodRunning: string := "Running"

  /** One snapshot of what the cluster answers: a `Get` of each workload kind by
      name and namespace, and a `List` of the pods of a namespace. */
  datatype Cluster = Cluster(
    getReplicaSet: NamespacedName -> Result<ReplicaSet, ApiError>,
    getStatefulSet: NamespacedName -> Result<StatefulSet, ApiError>,
    getDaemonSet: NamespacedName -> Result<DaemonSet, ApiError>,
    listPods: string -> Result<seq<Pod>, ApiError>)
}
