/**
 * The Tekton API objects the workflow client reads and writes, reduced to the
 * fields it touches. Status payloads whose inner structure the client never
 * inspects are kept as opaque field maps.
 */
module Tekton {
  import opened Wrappers

  /** A status payload the client only copies (a TaskRun's or Run's status, the rest of a PipelineRun's status). */
  datatype Payload = Payload(fields: map<string, string>)

  /** One entry of a PipelineRun's Status.ChildReferences. */
  datatype ChildReference = ChildReference(kind: string, name: string)

  /** One item of a TaskRun or Run list result. */
  datatype SubRecord = SubRecord(name: string, labels: map<string, string>, status: Payload)

  /** A PipelineRunTaskRunStatus or PipelineRunRunStatus: the two have the same shape. */
  datatype ChildStatus = ChildStatus(pipelineTaskName: string, status: Payload)

  /**
   * A PipelineRun's status. The None case of each Option is Go's nil: a nil
   * childReferences slice, or a TaskRuns / Runs map that was never set.
   */
  datatype PipelineRunStatus = PipelineRunStatus(
    base: Payload,
    childReferences: Option<seq<ChildReference>>,
    taskRuns: Option<map<string, ChildStatus>>,
    runs: Option<map<string, ChildStatus>>)

  /** A PipelineRun object, as the informer's cache hands out a pointer to it. */
  class PipelineRun {
    const namespace: string
    const name: string
    var labels: map<string, string>
    var status: PipelineRunStatus

    constructor (namespace: string, name: string, labels: map<string, string>, status: PipelineRunStatus)
      ensures this.namespace == namespace && this.name == name
      ensures this.labels == labels && this.status == status
    {
      this.namespace := namespace;
      this.name := name;
      this.labels := labels;
      this.status := status;
    }
  }

  /** The child-reference kind of a TaskRun child. */
  const TaskRunKind: string := "TaskRun"

  /** The child-reference kind of a (custom task) Run child. */
  const RunKind: string := "Run"

  /** The label naming the pipeline task a TaskRun or Run was created for. */
  const PipelineTaskLabelKey: string := "tekton.dev/pipelineTask"

  /** The two typed collections the client lists: v1beta1 TaskRuns and v1alpha1 Runs. */
  datatype Resource = TaskRunResource | RunResource

  /** A list call issued to the clientset. */
  datatype ListQuery = ListQuery(resource: Resource, namespace: string, labelSelector: string)
}
