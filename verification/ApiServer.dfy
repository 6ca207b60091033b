/** The job object the controller edits in memory, and the client it talks to. */
module ApiServer {
  import opened Options
  import opened Types
  import opened Handlers
  import opened Conversations

  class LMEvalJob {
    var id: Identity
    var version: nat
    var finalizer: bool
    var deleting: bool
    var podName: string
    var state: JobState
    var reason: Reason
    var message: string
    var lastScheduleTime: Option<Time>
    var completeTime: Option<Time>
    var results: string

    constructor () {
      id := Identity("", "", "", "", "");
      version, finalizer, deleting := 0, false, false;
      podName, state, reason, message := "", Unset, UnsetReason, "";
      lastScheduleTime, completeTime, results := None, None, "";
    }

    /** The job as a value. */
    function Value(): Job
      reads this
    {
      Job(id, version, finalizer, deleting,
          Status(podName, state, reason, message, lastScheduleTime, completeTime, results))
    }

    method Fill(job: Job)
      modifies this
      ensures Value() == job
    {
      id, version, finalizer, deleting := job.id, job.version, job.finalizer, job.deleting;
      podName, state, reason, message := job.status.podName, job.status.state, job.status.reason, job.status.message;
      lastScheduleTime, completeTime, results :=
        job.status.lastScheduleTime, job.status.completeTime, job.status.results;
    }
  }

  function AnswerOf(err: Option<Error>): Response {
    match err
    case None => Ok
    case Some(e) => Err(e)
  }

  function JobAnswer(err: Option<Error>, job: Job): Response {
    match err
    case None => JobIs(job)
    case Some(e) => Err(e)
  }

  function PodAnswer(err: Option<Error>, pod: Pod): Response {
    match err
    case None => PodIs(pod)
    case Some(e) => Err(e)
  }

  /** What the API server may answer is anything; `turns` is the conversation so
      far. */
  class Client {
    ghost var turns: seq<Turn>

    constructor ()
      ensures turns == []
    {
      turns := [];
    }

    method Get(job: LMEvalJob) returns (err: Option<Error>)
      modifies this, job
      ensures turns == old(turns) + [Turn(GetJob, JobAnswer(err, job.Value()))]
    {
      var stored: Job := *;
      err := *;
      if err.None? {
        job.Fill(stored);
      }
      turns := turns + [Turn(GetJob, JobAnswer(err, job.Value()))];
    }

    method Update(job: LMEvalJob) returns (err: Option<Error>)
      modifies this
      ensures turns == old(turns) + [Turn(Request.Update(job.Value()), AnswerOf(err))]
    {
      err := *;
      turns := turns + [Turn(Request.Update(job.Value()), AnswerOf(err))];
    }

    method UpdateStatus(job: LMEvalJob) returns (err: Option<Error>)
      modifies this
      ensures turns == old(turns) + [Turn(Request.UpdateStatus(job.Value()), AnswerOf(err))]
    {
      err := *;
      turns := turns + [Turn(Request.UpdateStatus(job.Value()), AnswerOf(err))];
    }

    method CreatePod(pod: Pod) returns (err: Option<Error>)
      modifies this
      ensures turns == old(turns) + [Turn(Request.CreatePod(pod), AnswerOf(err))]
    {
      err := *;
      turns := turns + [Turn(Request.CreatePod(pod), AnswerOf(err))];
    }

    method GetPod(name: string) returns (pod: Pod, err: Option<Error>)
      modifies this
      ensures turns == old(turns) + [Turn(Request.GetPod(name), PodAnswer(err, pod))]
    {
      pod, err := *, *;
      turns := turns + [Turn(Request.GetPod(name), PodAnswer(err, pod))];
    }

    method DeletePod(name: string) returns (err: Option<Error>)
      modifies this
      ensures turns == old(turns) + [Turn(Request.DeletePod(name), AnswerOf(err))]
    {
      err := *;
      turns := turns + [Turn(Request.DeletePod(name), AnswerOf(err))];
    }

    method Now() returns (t: Time)
      modifies this
      ensures turns == old(turns) + [Turn(Request.Now, TimeIs(t))]
    {
      t := *;
      turns := turns + [Turn(Request.Now, TimeIs(t))];
    }
  }
}
