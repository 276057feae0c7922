/**
 * The Keptn lifecycle types the deployment-state check reads and writes.
 */
module Keptn {
  import opened Wrappers
  import opened Kube

  /** The deployment states this step produces. */
  datatype KeptnState = StateUnknown | StateProgressing | StateSucceeded

  /** `Spec.ResourceReference` of a workload instance: the Pod, ReplicaSet,
      StatefulSet or DaemonSet that was deployed for it. */
  datatype ResourceReference = ResourceReference(uid: string, kind: string, name: string)

  /** The errors this step returns: the sentinel for an unsupported kind, or an
      error of the API client passed on unchanged. */
  datatype Error =
    | ErrUnsupportedWorkloadInstanceResourceReference
    | Api(cause: ApiError)

  /** A workload instance record. Only `Status.DeploymentStatus` is updated in place. */
  class KeptnWorkloadInstance {
    const namespace: string
    const resourceReference: ResourceReference
    var deploymentStatus: KeptnState

    constructor (namespace: string, resourceReference: ResourceReference, deploymentStatus: KeptnState)
      ensures this.namespace == namespace
      ensures this.resourceReference == resourceReference
      ensures this.deploymentStatus == deploymentStatus
    {
      this.namespace := namespace;
      this.resourceReference := resourceReference;
      this.deploymentStatus := deploymentStatus;
    }
  }
}
