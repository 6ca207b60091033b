/** The data the controller, the gRPC handler and the driver exchange through
    the API server: the LMEvalJob record, the job's pod and status messages. */
module Types {
  import opened Options

  type Time = nat

  /** The part of a job's metadata that never changes. */
  datatype Identity = Identity(apiVersion: string, kind: string, namespace: string,
                               name: string, uid: string)

  /** Unset is the empty string a newly created status holds. */
  datatype JobState = Unset | New | Scheduled | Running | Complete | Cancelled

  datatype Reason = UnsetReason | NoReason | SucceedReason | FailedReason | CancelledReason

  datatype Status = Status(
    podName: string,
    state: JobState,
    reason: Reason,
    message: string,
    lastScheduleTime: Option<Time>,
    completeTime: Option<Time>,
    results: string)

  const EMPTY_STATUS := Status("", Unset, UnsetReason, "", None, None, "")

  datatype Job = Job(id: Identity, version: nat, finalizer: bool, deleting: bool, status: Status)

  datatype OwnerRef = OwnerRef(apiVersion: string, kind: string, name: string, uid: string,
                               controller: bool)

  datatype Terminated = Terminated(exitCode: int, reason: string)

  datatype ContainerStatus = ContainerStatus(name: string, terminated: Option<Terminated>)

  /** The metadata and status of a pod; `containers` is None while the kubelet
      has not reported any container status. */
  datatype Pod = Pod(namespace: string, name: string, owners: seq<OwnerRef>,
                     containers: Option<seq<ContainerStatus>>)

  /** The payload of an UpdateStatus call. */
  datatype Message = Message(state: JobState, reason: Reason, text: string, results: Option<string>)

  datatype Error = NotFound(text: string) | Conflict(text: string)
                 | AlreadyExists(text: string) | Other(text: string)

  predicate Matches(ref: OwnerRef, id: Identity) {
    ref.apiVersion == id.apiVersion && ref.kind == id.kind && ref.name == id.name
  }

  predicate OwnedBy(pod: Pod, id: Identity) {
    exists i :: 0 <= i < |pod.owners| && Matches(pod.owners[i], id)
  }

  /** The pod the controller creates for a job; its manifest is in PodManifest. */
  function NewPod(id: Identity): Pod {
    Pod(id.namespace, id.name, [OwnerRef(id.apiVersion, id.kind, id.name, id.uid, true)], None)
  }

  /** How the first container called "main" ended, if it did. */
  function FirstMain(cs: seq<ContainerStatus>): Option<Terminated> {
    if cs == [] then None
    else if cs[0].name == "main" then cs[0].terminated
    else FirstMain(cs[1..])
  }

  function MainExit(pod: Pod): Option<Terminated> {
    match pod.containers
    case None => None
    case Some(cs) => FirstMain(cs)
  }

  /** What an UpdateStatus call makes of a status. */
  function ApplyMessage(st: Status, m: Message): Status {
    st.(state := m.state,
    reason := m.reason,
    message := if m.text != "" then m.text else st.message,
    results := if m.results.Some? then m.results.value else st.results)
  }
}
