/** The reconcile worker as an automaton over its conversation with the API
    server. A `Pc` is a point at which a handler waits for an answer and carries
    the in-memory job at that point; `Request` is the call it has made and
    `Resume` what it does with the answer. Conversations.dfy proves which whole
    conversations these are, Controller.dfy that the imperative handlers hold them. */
module Handlers {
  import opened Options
  import opened Types

  datatype Request =
    | GetJob
    | Update(job: Job)
    | UpdateStatus(job: Job)
    | CreatePod(pod: Pod)
    | GetPod(name: string)
    | DeletePod(name: string)
    | Now

  datatype Response = Ok | Err(error: Error) | JobIs(job: Job) | PodIs(pod: Pod) | TimeIs(time: Time)

  /** ctrl.Result and error: nothing further, requeue after the interval, or an error. */
  datatype Result = Done | Requeue | Failed(error: Error)

  datatype Pc =
    | Fetch
    | AttachFinalizer(job: Job)
    | ReadClock(job: Job)
    | Create(job: Job, at: Time)
    | RecordCreateFailure(job: Job, cause: Error)
    | RecordScheduled(job: Job)
    | Inspect(job: Job)
    | RecordPodGone(job: Job, cause: Error)
    | RecordPodDone(job: Job)
    | ReadFinishClock(job: Job)
    | RecordFinish(job: Job)
    | InspectCancelled(job: Job)
    | DeleteCancelled(job: Job)
    | RecordCancel(job: Job)
    | DeleteForRemoval(job: Job)
    | DetachFinalizer(job: Job)
    | Returned(result: Result)
    | Stuck

  const OWNER_ERROR := Other("pod doesn't have proper entry in the OwnerReferences")

  function WithState(job: Job, state: JobState): Job {
    job.(status := job.status.(state := state))
  }

  function Concluded(job: Job, reason: Reason): Job {
    job.(status := job.status.(state := Complete, reason := reason))
  }

  function Failing(job: Job, text: string): Job {
    job.(status := job.status.(state := Complete, reason := FailedReason, message := text))
  }

  /** Reconcile once the job has been fetched. */
  function Dispatch(job: Job): Pc {
    if job.deleting then
      if !job.finalizer then Returned(Done)
      else if job.status.state != Complete || job.status.reason != CancelledReason then
        DeleteForRemoval(job)
      else
        DetachFinalizer(job.(finalizer := false))
    else if job.status.lastScheduleTime.None? then
      DispatchNew(WithState(job, New))
    else
      match job.status.state
      case New => DispatchNew(job)
      case Scheduled => Inspect(job)
      case Running => Inspect(job)
      case Complete =>
        if job.status.completeTime.None? then ReadFinishClock(job) else Returned(Done)
      case Cancelled => InspectCancelled(job)
      case Unset => Returned(Done)
  }

  function DispatchNew(job: Job): Pc {
    if !job.finalizer then AttachFinalizer(job.(finalizer := true)) else ReadClock(job)
  }

  function RequestAt(pc: Pc): Option<Request> {
    match pc
    case Fetch => Some(GetJob)
    case AttachFinalizer(job) => Some(Update(job))
    case ReadClock(_) => Some(Now)
    case Create(job, _) => Some(CreatePod(NewPod(job.id)))
    case RecordCreateFailure(job, _) => Some(UpdateStatus(job))
    case RecordScheduled(job) => Some(UpdateStatus(job))
    case Inspect(job) => Some(GetPod(job.id.name))
    case RecordPodGone(job, _) => Some(UpdateStatus(job))
    case RecordPodDone(job) => Some(UpdateStatus(job))
    case ReadFinishClock(_) => Some(Now)
    case RecordFinish(job) => Some(UpdateStatus(job))
    case InspectCancelled(job) => Some(GetPod(job.id.name))
    case DeleteCancelled(job) => Some(DeletePod(job.status.podName))
    case RecordCancel(job) => Some(UpdateStatus(job))
    case DeleteForRemoval(job) => Some(DeletePod(job.status.podName))
    case DetachFinalizer(job) => Some(Update(job))
    case Returned(_) => None
    case Stuck => None
  }

  /** getPod: the pod, provided one of its owner references names the job. */
  function FoundPod(r: Response, id: Identity): Option<Pod> {
    if r.PodIs? && OwnedBy(r.pod, id) then Some(r.pod) else None
  }

  function PodError(r: Response): Error {
    if r.Err? then r.error else OWNER_ERROR
  }

  function OnAck(r: Response, ok: Pc): Pc {
    if r.Ok? then ok else if r.Err? then Returned(Failed(r.error)) else Stuck
  }

  function Resume(pc: Pc, r: Response): Pc {
    match pc
    case Fetch =>
      if r.JobIs? then Dispatch(r.job)
      else if r.Err? then Returned(if r.error.NotFound? then Done else Failed(r.error))
      else Stuck
    case AttachFinalizer(_) => OnAck(r, Returned(Done))
    case ReadClock(job) => if r.TimeIs? then Create(job, r.time) else Stuck
    case Create(job, at) =>
      if r.Ok? then
        RecordScheduled(job.(status := job.status.(state := Scheduled, podName := job.id.name,
                                                   lastScheduleTime := Some(at))))
      else if r.Err? then RecordCreateFailure(Failing(job, r.error.text), r.error)
      else Stuck
    case RecordCreateFailure(_, cause) => if r.Ok? || r.Err? then Returned(Failed(cause)) else Stuck
    case RecordScheduled(_) => OnAck(r, Returned(Requeue))
    case Inspect(job) => if r.PodIs? || r.Err? then Inspected(job, r) else Stuck
    case RecordPodGone(_, cause) => OnAck(r, Returned(Failed(cause)))
    case RecordPodDone(_) => OnAck(r, Returned(Done))
    case ReadFinishClock(job) =>
      if r.TimeIs? then RecordFinish(job.(status := job.status.(completeTime := Some(r.time)))) else Stuck
    case RecordFinish(_) => if r.Ok? || r.Err? then Returned(Done) else Stuck
    case InspectCancelled(job) =>
      if FoundPod(r, job.id).Some? then DeleteCancelled(Concluded(job, CancelledReason))
      else if r.PodIs? || r.Err? then RecordCancel(Failing(job, PodError(r).text))
      else Stuck
    case DeleteCancelled(job) => OnAck(r, RecordCancel(job))
    case RecordCancel(_) => OnAck(r, Returned(Done))
    case DeleteForRemoval(job) => if r.Ok? || r.Err? then DetachFinalizer(job.(finalizer := false)) else Stuck
    case DetachFinalizer(_) => OnAck(r, Returned(Done))
    case Returned(_) => Stuck
    case Stuck => Stuck
  }

  /** checkScheduledPod after its pod lookup. */
  function Inspected(job: Job, r: Response): Pc {
    match FoundPod(r, job.id)
    case None => RecordPodGone(Failing(job, PodError(r).text), PodError(r))
    case Some(pod) =>
      match MainExit(pod)
      case None => Returned(Requeue)
      case Some(end) =>
        RecordPodDone(if end.exitCode == 0 then Concluded(job, SucceedReason) else Failing(job, end.reason))
  }

  /** The point reached from `pc` after the given answers. */
  function Drive(pc: Pc, answers: seq<Response>): Pc {
    if answers == [] then pc
    else Resume(Drive(pc, answers[..|answers| - 1]), answers[|answers| - 1])
  }

  /** Points from which the handler writes the job's status. */
  predicate WritesStatus(pc: Pc) {
    RequestAt(pc).Some? && RequestAt(pc).value.UpdateStatus?
  }

  predicate WritesMetadata(pc: Pc) {
    RequestAt(pc).Some? && RequestAt(pc).value.Update?
  }

  /** What a handler that read `base` can hold at each point. */
  ghost predicate Coherent(base: Job, pc: Pc) {
    var st := base.status;
    var unseen := !base.deleting && (st.lastScheduleTime.None? || st.state == New);
    var settled := !base.deleting && st.lastScheduleTime.Some?;
    match pc
    case Fetch => false
    case AttachFinalizer(job) =>
      unseen && !base.finalizer && job == WithState(base, New).(finalizer := true)
    case ReadClock(job) => unseen && base.finalizer && job == WithState(base, New)
    case Create(job, at) => unseen && base.finalizer && job == WithState(base, New)
    case RecordCreateFailure(job, cause) =>
      unseen && base.finalizer && job == Failing(base, cause.text)
    case RecordScheduled(job) =>
      && unseen && base.finalizer && job.status.lastScheduleTime.Some?
      && job == base.(status := st.(state := Scheduled, podName := base.id.name,
                                    lastScheduleTime := job.status.lastScheduleTime))
    case Inspect(job) => settled && st.state in {Scheduled, Running} && job == base
    case RecordPodGone(job, cause) =>
      settled && st.state in {Scheduled, Running} && job == Failing(base, cause.text)
    case RecordPodDone(job) =>
      && settled && st.state in {Scheduled, Running}
      && (job == Concluded(base, SucceedReason) || job == Failing(base, job.status.message))
    case ReadFinishClock(job) => settled && st.state == Complete && st.completeTime.None? && job == base
    case RecordFinish(job) =>
      && settled && st.state == Complete && st.completeTime.None? && job.status.completeTime.Some?
      && job == base.(status := st.(completeTime := job.status.completeTime))
    case InspectCancelled(job) => settled && st.state == Cancelled && job == base
    case DeleteCancelled(job) => settled && st.state == Cancelled && job == Concluded(base, CancelledReason)
    case RecordCancel(job) =>
      && settled && st.state == Cancelled
      && (job == Concluded(base, CancelledReason) || job == Failing(base, job.status.message))
    case DeleteForRemoval(job) =>
      base.deleting && base.finalizer && job == base && !(st.state == Complete && st.reason == CancelledReason)
    case DetachFinalizer(job) => base.deleting && base.finalizer && job == base.(finalizer := false)
    case Returned(_) => true
    case Stuck => true
  }

  /** Whatever the answers, a handler only ever holds the job it fetched with the
      edits of its own branch. */
  lemma {:induction false} DriveCoherent(base: Job, answers: seq<Response>)
    ensures Coherent(base, Drive(Dispatch(base), answers))
  {
    if answers != [] {
      DriveCoherent(base, answers[..|answers| - 1]);
    }
  }

  lemma DriveSnoc(pc: Pc, answers: seq<Response>, r: Response)
    ensures Drive(pc, answers + [r]) == Resume(Drive(pc, answers), r)
  {
    assert (answers + [r])[..|answers|] == answers;
  }
}
