/** The imperative reconcile handlers. Whatever the API server answers, they hold
    exactly the conversations of Conversations.dfy, and so those of the automaton. */
module Controller {
  import opened Options
  import opened Types
  import opened Handlers
  import opened Conversations
  import opened ApiServer

  method IsOwned(pod: Pod, id: Identity) returns (owned: bool)
    ensures owned == OwnedBy(pod, id)
  {
    for i := 0 to |pod.owners|
      invariant forall k :: 0 <= k < i ==> !Matches(pod.owners[k], id)
    {
      if Matches(pod.owners[i], id) {
        return true;
      }
    }
    return false;
  }

  /** createPod's metadata: named after the job and owned by it. */
  method PodFor(job: LMEvalJob) returns (pod: Pod)
    ensures pod == NewPod(job.id) && OwnedBy(pod, job.id)
  {
    var owner := OwnerRef(job.id.apiVersion, job.id.kind, job.id.name, job.id.uid, true);
    pod := Pod(job.id.namespace, job.id.name, [owner], None);
    assert Matches(pod.owners[0], job.id);
  }

  /** slices.IndexFunc for the container called "main". */
  method MainIndex(cs: seq<ContainerStatus>) returns (index: int)
    ensures -1 <= index < |cs|
    ensures index == -1 ==> FirstMain(cs).None? && forall k :: 0 <= k < |cs| ==> cs[k].name != "main"
    ensures index != -1 ==> FirstMain(cs) == cs[index].terminated && cs[index].name == "main"
    ensures index != -1 ==> forall k :: 0 <= k < index ==> cs[k].name != "main"
  {
    for i := 0 to |cs|
      invariant FirstMain(cs) == FirstMain(cs[i..])
      invariant forall k :: 0 <= k < i ==> cs[k].name != "main"
    {
      if cs[i].name == "main" {
        return i;
      }
      assert cs[i..][1..] == cs[i + 1..];
    }
    return -1;
  }

  class LMEvalJobReconciler {
    const client: Client

    constructor (client: Client)
      ensures this.client == client
    {
      this.client := client;
    }

    method Reconcile() returns (result: Result)
      requires client.turns == []
      modifies client
      ensures Reconciles(client.turns, result)
      ensures After(client.turns) == Returned(result)
    {
      var job := new LMEvalJob();
      var err := client.Get(job);
      if err.Some? {
        result := if err.value.NotFound? then Done else Failed(err.value);
      } else if job.deleting {
        result := HandleDeletion(job);
      } else {
        if job.lastScheduleTime.None? {
          job.state := New;
        }
        match job.state {
          case New => result := HandleNewCR(job);
          case Scheduled => result := CheckScheduledPod(job);
          case Running => result := CheckScheduledPod(job);
          case Complete => result := HandleComplete(job);
          case Cancelled => result := HandleCancel(job);
          case Unset => result := Done;
        }
      }
      ReconcilesExactly(client.turns, result);
    }

    method HandleDeletion(job: LMEvalJob) returns (result: Result)
      modifies client, job
      ensures old(client.turns) <= client.turns
      ensures Deletes(old(job.Value()), client.turns[|old(client.turns)|..], result)
    {
      if job.finalizer {
        if job.state != Complete || job.reason != CancelledReason {
          var ignored := client.DeletePod(job.podName);
        }
        job.finalizer := false;
        var err := client.Update(job);
        if err.Some? {
          return Failed(err.value);
        }
      }
      return Done;
    }

    method HandleNewCR(job: LMEvalJob) returns (result: Result)
      modifies client, job
      ensures old(client.turns) <= client.turns
      ensures Starts(old(job.Value()), client.turns[|old(client.turns)|..], result)
    {
      if !job.finalizer {
        job.finalizer := true;
        var err := client.Update(job);
        return if err.Some? then Failed(err.value) else Done;
      }
      var currentTime := client.Now();
      result := SchedulePod(job, currentTime);
    }

    /** The rest of handleNewCR: create the pod and record how that went. */
    method SchedulePod(job: LMEvalJob, currentTime: Time) returns (result: Result)
      modifies client, job
      ensures old(client.turns) <= client.turns
      ensures Records(old(job.Value()), currentTime, client.turns[|old(client.turns)|..], result)
    {
      var pod := PodFor(job);
      var err := client.CreatePod(pod);
      if err.Some? {
        job.state, job.reason, job.message := Complete, FailedReason, err.value.text;
        var ignored := client.UpdateStatus(job);
        return Failed(err.value);
      }
      job.state, job.podName, job.lastScheduleTime := Scheduled, pod.name, Some(currentTime);
      err := client.UpdateStatus(job);
      return if err.Some? then Failed(err.value) else Requeue;
    }

    method CheckScheduledPod(job: LMEvalJob) returns (result: Result)
      modifies client, job
      ensures old(client.turns) <= client.turns
      ensures Checks(old(job.Value()), client.turns[|old(client.turns)|..], result)
    {
      var pod, err := GetPod(job);
      if err.Some? {
        job.state, job.reason, job.message := Complete, FailedReason, err.value.text;
        var err' := client.UpdateStatus(job);
        return if err'.Some? then Failed(err'.value) else Failed(err.value);
      }
      if pod.containers.None? {
        return Requeue;
      }
      var mainIndex := MainIndex(pod.containers.value);
      if mainIndex == -1 || pod.containers.value[mainIndex].terminated.None? {
        return Requeue;
      }
      var end := pod.containers.value[mainIndex].terminated.value;
      job.state := Complete;
      if end.exitCode == 0 {
        job.reason := SucceedReason;
      } else {
        job.reason := FailedReason;
        job.message := end.reason;
      }
      err := client.UpdateStatus(job);
      return if err.Some? then Failed(err.value) else Done;
    }

    method GetPod(job: LMEvalJob) returns (pod: Pod, err: Option<Error>)
      modifies client
      ensures exists r: Response ::
                && client.turns == old(client.turns) + [Turn(Request.GetPod(job.id.name), r)]
                && if err.None? then r == PodIs(pod) && Owned(pod, job.id) else Missing(r, job.id, err.value)
    {
      pod, err := client.GetPod(job.id.name);
      ghost var r := PodAnswer(err, pod);
      if err.None? {
        var owned := IsOwned(pod, job.id);
        OwnedExactly(pod, job.id);
        if !owned {
          err := Some(OWNER_ERROR);
        }
      }
    }

    method HandleComplete(job: LMEvalJob) returns (result: Result)
      modifies client, job
      ensures old(client.turns) <= client.turns
      ensures Finishes(old(job.Value()), client.turns[|old(client.turns)|..], result)
    {
      if job.completeTime.None? {
        var current := client.Now();
        job.completeTime := Some(current);
        var ignored := client.UpdateStatus(job);
      }
      return Done;
    }

    method HandleCancel(job: LMEvalJob) returns (result: Result)
      modifies client, job
      ensures old(client.turns) <= client.turns
      ensures Cancels(old(job.Value()), client.turns[|old(client.turns)|..], result)
    {
      var _, err := GetPod(job);
      if err.Some? {
        job.state, job.reason, job.message := Complete, FailedReason, err.value.text;
      } else {
        job.state, job.reason := Complete, CancelledReason;
        err := client.DeletePod(job.podName);
        if err.Some? {
          return Failed(err.value);
        }
      }
      err := client.UpdateStatus(job);
      return if err.Some? then Failed(err.value) else Done;
    }
  }
}
