/** What Reconcile, updateStatus and the driver's Run say and hear, as whole
    conversations: which requests, with which jobs in them, and what is returned
    after which answers. The automata hold exactly these. */
module Conversations {
  import opened Options
  import opened Types
  import opened Handlers

  /** A request with its answer. */
  datatype Turn = Turn(request: Request, response: Response)

  /** Where the reconcile automaton stands after a turn; Stuck once anything was
      asked but what was due. */
  function Next(pc: Pc, turn: Turn): Pc {
    if RequestAt(pc) == Some(turn.request) then Resume(pc, turn.response) else Stuck
  }

  function After(turns: seq<Turn>): Pc {
    if turns == [] then Fetch else Next(After(turns[..|turns| - 1]), turns[|turns| - 1])
  }

  lemma AfterSnoc(turns: seq<Turn>, turn: Turn)
    ensures After(turns + [turn]) == Next(After(turns), turn)
  {
    assert (turns + [turn])[..|turns|] == turns;
  }

  // The conversations of Reconcile

  predicate Acknowledged(r: Response) {
    r.Ok? || r.Err?
  }

  /** A last request: its error is returned, or else `ok`. */
  predicate Last(turns: seq<Turn>, request: Request, ok: Result, result: Result) {
    && |turns| == 1 && turns[0].request == request && Acknowledged(turns[0].response)
    && result == if turns[0].response.Err? then Failed(turns[0].response.error) else ok
  }

  /** A deleted job: its pod is deleted, unless it was cancelled, and then the
      finalizer is removed whatever that answered. */
  predicate Deletes(job: Job, turns: seq<Turn>, result: Result) {
    var removal := Update(job.(finalizer := false));
    if !job.finalizer then turns == [] && result == Done
    else if job.status.state == Complete && job.status.reason == CancelledReason then Last(turns, removal, Done, result)
    else
      && |turns| == 2 && turns[0].request == DeletePod(job.status.podName) && Acknowledged(turns[0].response)
      && Last(turns[1..], removal, Done, result)
  }

  /** A job shown as new: only its finalizer is attached; or its pod is created and that is
      recorded, with the time asked for before, or the failure is. */
  predicate Starts(job: Job, turns: seq<Turn>, result: Result) {
    if !job.finalizer then
      Last(turns, Update(job.(finalizer := true)), Done, result)
    else
      && turns != [] && turns[0].request == Now && turns[0].response.TimeIs?
      && Records(job, turns[0].response.time, turns[1..], result)
  }

  predicate Records(job: Job, at: Time, turns: seq<Turn>, result: Result) {
    var pod := Pod(job.id.namespace, job.id.name,
                   [OwnerRef(job.id.apiVersion, job.id.kind, job.id.name, job.id.uid, true)], None);
    && |turns| == 2 && turns[0].request == CreatePod(pod)
    && match turns[0].response
       case Ok =>
         Last(turns[1..], UpdateStatus(job.(status := job.status.(
                                            state := Scheduled, podName := job.id.name,
                                            lastScheduleTime := Some(at)))), Requeue, result)
       case Err(e) =>
         && turns[1].request == UpdateStatus(job.(status := job.status.(
                                                  state := Complete, reason := FailedReason, message := e.text)))
         && Acknowledged(turns[1].response) && result == Failed(e)
       case _ => false
  }

  /** The pod is the job's: an owner reference has its API version, kind and name. */
  predicate Owned(pod: Pod, id: Identity) {
    exists i :: 0 <= i < |pod.owners| && pod.owners[i].apiVersion == id.apiVersion
                && pod.owners[i].kind == id.kind && pod.owners[i].name == id.name
  }

  /** The error of a lookup that does not yield the job's pod. */
  predicate Missing(r: Response, id: Identity, e: Error) {
    match r
    case PodIs(pod) => !Owned(pod, id) && e == Other("pod doesn't have proper entry in the OwnerReferences")
    case Err(error) => e == error
    case _ => false
  }

  predicate StoresFailure(turns: seq<Turn>, job: Job, text: string) {
    && |turns| == 1 && Acknowledged(turns[0].response)
    && turns[0].request == UpdateStatus(job.(status := job.status.(
                                             state := Complete, reason := FailedReason, message := text)))
  }

  /** A scheduled job: nothing until its main container has ended, and then its
      end; a pod that is not found is stored and returned as an error. */
  ghost predicate Checks(job: Job, turns: seq<Turn>, result: Result) {
    && turns != [] && turns[0].request == GetPod(job.id.name)
    && var r, rest := turns[0].response, turns[1..];
       if r.PodIs? && Owned(r.pod, job.id) then
         match MainExit(r.pod)
         case None => rest == [] && result == Requeue
         case Some(end) =>
           if end.exitCode == 0 then
             Last(rest, UpdateStatus(job.(status := job.status.(state := Complete, reason := SucceedReason))),
                  Done, result)
           else
             && StoresFailure(rest, job, end.reason)
             && Last(rest, rest[0].request, Done, result)
       else
         exists e :: && Missing(r, job.id, e) && StoresFailure(rest, job, e.text)
                     && Last(rest, rest[0].request, Failed(e), result)
  }

  /** A complete job: the time asked for is stored, once, and an error dropped. */
  predicate Finishes(job: Job, turns: seq<Turn>, result: Result) {
    && result == Done
    && if job.status.completeTime.Some? then turns == []
       else
         && |turns| == 2 && turns[0].request == Now && turns[0].response.TimeIs?
         && turns[1].request == UpdateStatus(job.(status := job.status.(
                                                  completeTime := Some(turns[0].response.time))))
         && Acknowledged(turns[1].response)
  }

  /** A cancelled job: its pod is deleted, and only then the cancellation stored; a
      pod that is not found is stored as a failure. */
  ghost predicate Cancels(job: Job, turns: seq<Turn>, result: Result) {
    && turns != [] && turns[0].request == GetPod(job.id.name)
    && var r, rest := turns[0].response, turns[1..];
       if r.PodIs? && Owned(r.pod, job.id) then
         && rest != [] && rest[0].request == DeletePod(job.status.podName) && Acknowledged(rest[0].response)
         && if rest[0].response.Err? then |rest| == 1 && result == Failed(rest[0].response.error)
            else
              Last(rest[1..], UpdateStatus(job.(status := job.status.(state := Complete, reason := CancelledReason))),
                   Done, result)
       else
         exists e :: && Missing(r, job.id, e) && StoresFailure(rest, job, e.text)
                     && Last(rest, rest[0].request, Done, result)
  }

  /** A whole Reconcile: a job that is gone is no error. */
  ghost predicate Reconciles(turns: seq<Turn>, result: Result) {
    && turns != [] && turns[0].request == GetJob
    && match turns[0].response
       case Err(e) => |turns| == 1 && result == if e.NotFound? then Done else Failed(e)
       case JobIs(job) =>
         var rest := turns[1..];
         if job.deleting then Deletes(job, rest, result)
         else if job.status.lastScheduleTime.None? || job.status.state == New then
           Starts(job.(status := job.status.(state := New)), rest, result)
         else
           (match job.status.state
            case Scheduled => Checks(job, rest, result)
            case Running => Checks(job, rest, result)
            case Complete => Finishes(job, rest, result)
            case Cancelled => Cancels(job, rest, result)
            case _ => rest == [] && result == Done)
       case _ => false
  }

  // The conversations of updateStatus

  /** A status with the message in it: no text and no results leave what is there. */
  predicate Edited(st: Status, st': Status, m: Message) {
    && st'.state == m.state && st'.reason == m.reason
    && st'.message == (if m.text == "" then st.message else m.text)
    && st'.results == (match m.results case None => st.results case Some(results) => results)
    && st'.podName == st.podName && st'.lastScheduleTime == st.lastScheduleTime && st'.completeTime == st.completeTime
  }

  predicate Spaces(s: string) {
    forall i :: 0 <= i < |s| ==> s[i] == ' '
  }

  /** A whole updateStatus: nothing is asked without names; else the job is looked
      up and the edited status saved, once, and any error returned. */
  predicate Updates(jobName: string, jobNamespace: string, m: Message, turns: seq<Turn>, err: Option<Error>) {
    if Spaces(jobName) || Spaces(jobNamespace) then
      turns == [] && err == Some(Other("JobName or JobNameSpace is empty"))
    else
      && turns != [] && turns[0].request == GetJob
      && match turns[0].response
         case Err(e) => |turns| == 1 && err == Some(e)
         case JobIs(job) =>
           && |turns| == 2 && turns[1].request.UpdateStatus? && Acknowledged(turns[1].response)
           && var saved := turns[1].request.job;
              && saved == job.(status := saved.status) && Edited(job.status, saved.status, m)
              && err == if turns[1].response.Err? then Some(turns[1].response.error) else None
         case _ => false
  }

  /** The answer is one to this request. */
  predicate Fits(turn: Turn) {
    match turn.request
    case GetJob => turn.response.JobIs? || turn.response.Err?
    case GetPod(_) => turn.response.PodIs? || turn.response.Err?
    case Now => turn.response.TimeIs?
    case _ => Acknowledged(turn.response)
  }

  // The automaton holds exactly Reconcile's conversations

  function Follow(pc: Pc, turns: seq<Turn>): Pc
    decreases |turns|
  {
    if turns == [] then pc else Follow(Next(pc, turns[0]), turns[1..])
  }

  lemma {:induction false} FollowSnoc(pc: Pc, turns: seq<Turn>, turn: Turn)
    ensures Follow(pc, turns + [turn]) == Next(Follow(pc, turns), turn)
    decreases |turns|
  {
    if turns == [] {
      assert ([turn])[1..] == [] && [] + [turn] == [turn];
    } else {
      assert (turns + [turn])[1..] == turns[1..] + [turn];
      FollowSnoc(Next(pc, turns[0]), turns[1..], turn);
    }
  }

  lemma {:induction false} AfterFollows(turns: seq<Turn>)
    ensures After(turns) == Follow(Fetch, turns)
  {
    if turns != [] {
      var n := |turns| - 1;
      AfterFollows(turns[..n]);
      assert turns == turns[..n] + [turns[n]];
      FollowSnoc(Fetch, turns[..n], turns[n]);
    }
  }

  lemma {:induction false} Over(pc: Pc, turns: seq<Turn>)
    requires pc.Returned? || pc.Stuck?
    ensures turns != [] ==> Follow(pc, turns) == Stuck
    decreases |turns|
  {
    if |turns| > 1 {
      Over(Stuck, turns[1..]);
    }
  }

  /** A point that ends with its next answer. */
  lemma EndsNext(pc: Pc, turns: seq<Turn>)
    requires RequestAt(pc).Some? && forall r :: Resume(pc, r).Returned? || Resume(pc, r).Stuck?
    ensures Follow(pc, turns).Returned? <==>
              |turns| == 1 && RequestAt(pc) == Some(turns[0].request) && Resume(pc, turns[0].response).Returned?
    ensures Follow(pc, turns).Returned? ==> Follow(pc, turns) == Resume(pc, turns[0].response)
  {
    if turns != [] {
      Over(Next(pc, turns[0]), turns[1..]);
    }
  }

  lemma Stops(pc: Pc, turns: seq<Turn>)
    requires turns != [] && (Next(pc, turns[0]).Returned? || Next(pc, turns[0]).Stuck?)
    ensures Follow(pc, turns).Returned? <==> |turns| == 1 && Next(pc, turns[0]).Returned?
    ensures |turns| == 1 ==> Follow(pc, turns) == Next(pc, turns[0])
  {
    Over(Next(pc, turns[0]), turns[1..]);
  }

  lemma DeletesExactly(job: Job, turns: seq<Turn>, result: Result)
    requires job.deleting
    ensures Follow(Dispatch(job), turns) == Returned(result) <==> Deletes(job, turns, result)
  {
    if !job.finalizer {
      Over(Returned(Done), turns);
    } else if job.status.state == Complete && job.status.reason == CancelledReason {
      EndsNext(DetachFinalizer(job.(finalizer := false)), turns);
    } else if turns != [] {
      if Next(DeleteForRemoval(job), turns[0]).Stuck? {
        Stops(DeleteForRemoval(job), turns);
      } else {
        EndsNext(DetachFinalizer(job.(finalizer := false)), turns[1..]);
      }
    }
  }

  lemma StartsExactly(job: Job, turns: seq<Turn>, result: Result)
    requires !job.deleting && (job.status.lastScheduleTime.None? || job.status.state == New)
    ensures Follow(Dispatch(job), turns) == Returned(result)
            <==> Starts(job.(status := job.status.(state := New)), turns, result)
  {
    var unseen := job.(status := job.status.(state := New));
    if !job.finalizer {
      EndsNext(AttachFinalizer(unseen.(finalizer := true)), turns);
    } else if turns != [] {
      var pc := Next(ReadClock(unseen), turns[0]);
      if pc.Stuck? {
        Stops(ReadClock(unseen), turns);
      } else if |turns| > 1 {
        CreationEnds(unseen, turns[0].response.time, turns[1..], result);
      }
    }
  }

  lemma CreationEnds(job: Job, at: Time, turns: seq<Turn>, result: Result)
    requires turns != []
    ensures Follow(Create(job, at), turns) == Returned(result) <==> Records(job, at, turns, result)
  {
    var pc := Create(job, at);
    if Next(pc, turns[0]).Stuck? {
      Stops(pc, turns);
    } else {
      EndsNext(Next(pc, turns[0]), turns[1..]);
    }
  }

  lemma OwnedExactly(pod: Pod, id: Identity)
    ensures Owned(pod, id) <==> OwnedBy(pod, id)
  {
    if i :| 0 <= i < |pod.owners| && Matches(pod.owners[i], id) {
      assert pod.owners[i].kind == id.kind;
    }
    if i :| 0 <= i < |pod.owners| && pod.owners[i].apiVersion == id.apiVersion
            && pod.owners[i].kind == id.kind && pod.owners[i].name == id.name {
      assert Matches(pod.owners[i], id);
    }
  }

  lemma ChecksExactly(job: Job, turns: seq<Turn>, result: Result)
    requires !job.deleting && job.status.lastScheduleTime.Some? && job.status.state in {Scheduled, Running}
    ensures Follow(Dispatch(job), turns) == Returned(result) <==> Checks(job, turns, result)
  {
    if turns != [] {
      var r, pc := turns[0].response, Next(Inspect(job), turns[0]);
      if r.PodIs? {
        OwnedExactly(r.pod, job.id);
      }
      if pc.Stuck? || pc.Returned? {
        Stops(Inspect(job), turns);
      } else {
        EndsNext(pc, turns[1..]);
        assert FoundPod(r, job.id).None? ==> Missing(r, job.id, PodError(r));
      }
    }
  }

  lemma FinishesExactly(job: Job, turns: seq<Turn>, result: Result)
    requires !job.deleting && job.status.lastScheduleTime.Some? && job.status.state == Complete
    ensures Follow(Dispatch(job), turns) == Returned(result) <==> Finishes(job, turns, result)
  {
    if job.status.completeTime.Some? {
      Over(Returned(Done), turns);
    } else if turns != [] {
      var pc := Next(ReadFinishClock(job), turns[0]);
      if pc.Stuck? {
        Stops(ReadFinishClock(job), turns);
      } else {
        EndsNext(pc, turns[1..]);
      }
    }
  }

  lemma CancelsExactly(job: Job, turns: seq<Turn>, result: Result)
    requires !job.deleting && job.status.lastScheduleTime.Some? && job.status.state == Cancelled
    ensures Follow(Dispatch(job), turns) == Returned(result) <==> Cancels(job, turns, result)
  {
    if turns != [] {
      var r, pc := turns[0].response, Next(InspectCancelled(job), turns[0]);
      if r.PodIs? {
        OwnedExactly(r.pod, job.id);
      }
      if pc.Stuck? {
        Stops(InspectCancelled(job), turns);
      } else if pc.RecordCancel? {
        EndsNext(pc, turns[1..]);
        assert Missing(r, job.id, PodError(r));
      } else if |turns| > 1 {
        var pc' := Next(pc, turns[1]);
        if pc'.RecordCancel? {
          EndsNext(pc', turns[1..][1..]);
        } else {
          Stops(pc, turns[1..]);
        }
      }
    }
  }

  /** The automaton returns a result after exactly the conversations of Reconcile. */
  lemma ReconcilesExactly(turns: seq<Turn>, result: Result)
    ensures After(turns) == Returned(result) <==> Reconciles(turns, result)
  {
    AfterFollows(turns);
    if turns != [] {
      var r, rest := turns[0].response, turns[1..];
      if turns[0].request != GetJob || !r.JobIs? {
        Stops(Fetch, turns);
      } else if r.job.deleting {
        DeletesExactly(r.job, rest, result);
      } else if r.job.status.lastScheduleTime.None? || r.job.status.state == New {
        StartsExactly(r.job, rest, result);
      } else {
        match r.job.status.state
        case Scheduled => ChecksExactly(r.job, rest, result);
        case Running => ChecksExactly(r.job, rest, result);
        case Complete => FinishesExactly(r.job, rest, result);
        case Cancelled => CancelsExactly(r.job, rest, result);
        case Unset => Over(Returned(Done), rest);
      }
    }
  }
}
