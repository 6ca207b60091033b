/** Why the guarantees carry their conditions: runs that break them without. */
module Anomalies {
  import opened Options
  import opened Types
  import opened Handlers
  import opened Calls
  import opened Protocol
  import opened Snapshots
  import opened Commits
  import opened Cleanup
  import opened DriverEvidence
  import opened Wakeup
  import opened Guarantees
  import opened Failures

  // Stretches of a run

  const WORK := WorkerStep(Works)

  lemma Take(w: World, l: Label) returns (w': World)
    requires Reachable(w) && Enabled(w, l)
    ensures w' == Apply(w, l) && Reachable(w')
  {
    ReachableStep(w, l);
    w' := Apply(w, l);
  }

  /** The ledger but for its counters. */
  predicate SameLedger(l: Ledger, l': Ledger) {
    l'.swallowed == l.swallowed && l'.deleteFault == l.deleteFault
  }

  /** A reconcile starts: the worker takes the job from the queue and fetches it. */
  lemma Starts(w: World) returns (w': World)
    requires Reachable(w) && w.worker.Idle? && w.api.queued && w.api.job.Some?
    requires RequestAt(Dispatch(w.api.job.value)).Some?
    ensures Reachable(w')
    ensures w' == w.(api := w.api.(queued := false), worker := Busy(Dispatch(w.api.job.value), w.api.job, []))
  {
    RecordedIsNoted(w);
    w' := Take(w, Dequeue);
    w' := Fetches(w');
  }

  lemma RecordedIsNoted(w: World)
    requires Reachable(w)
    ensures Recorded(w.api.job) ==> w.ledger.scheduled
  {
    ReachableInv(w);
  }

  lemma Fetches(w: World) returns (w': World)
    requires Reachable(w) && w.worker == Busy(Fetch, None, []) && w.api.job.Some?
    requires RequestAt(Dispatch(w.api.job.value)).Some?
    requires Recorded(w.api.job) ==> w.ledger.scheduled
    ensures Reachable(w') && w' == w.(worker := Busy(Dispatch(w.api.job.value), w.api.job, []))
  {
    assert WorkerExchange(w, Works) == (w.api, JobIs(w.api.job.value));
    assert WorkerLedger(w, Fetch, w.api.job, Works) == w.ledger;
    w' := Take(w, WORK);
  }

  /** A write is turned down since the stored job has a newer version. */
  lemma Conflicts(w: World) returns (w': World)
    requires Reachable(w) && w.worker.Busy? && w.api.job.Some?
    requires w.worker.pc.RecordScheduled? || w.worker.pc.RecordCancel?
    requires w.worker.pc.job.version != w.api.job.value.version
    ensures Reachable(w') && w' == w.(worker := Idle, backoff := true)
  {
    RecordedIsNoted(w);
    w' := Take(w, WORK);
  }

  lemma Touched(w: World) returns (w': World)
    requires Reachable(w) && w.api.job.Some?
    ensures Reachable(w')
    ensures var j := w.api.job.value;
            w' == w.(api := w.api.(job := Some(j.(version := j.version + 1)), queued := true, trail := w'.api.trail))
  {
    w' := Take(w, Touch);
  }

  /** The pod's deletion is refused, and handleDeletion goes on. */
  lemma GoesOn(w: World) returns (w': World)
    requires Reachable(w) && w.worker.Busy? && w.worker.pc.DeleteForRemoval?
    ensures Reachable(w') && w'.api == w.api && w'.worker.Busy?
    ensures w'.worker.pc == DetachFinalizer(w.worker.pc.job.(finalizer := false))
    ensures w.ledger.scheduled ==> w'.ledger.scheduled
  {
    w' := Take(w, WorkerStep(Refused("timeout")));
  }

  lemma Detaches(w: World) returns (w': World)
    requires Reachable(w) && w.worker.Busy? && w.worker.pc.DetachFinalizer?
    requires w.api.job.Some? && w.api.job.value.deleting && !w.worker.pc.job.finalizer
    requires w.worker.pc.job.version == w.api.job.value.version
    ensures Reachable(w') && w'.api == w.api.(job := None, trail := w'.api.trail)
    ensures w.ledger.scheduled ==> w'.ledger.scheduled
  {
    w' := Take(w, WORK);
  }

  /** The completion time cannot be stored, and nobody is told. */
  lemma FinishRefused(w: World) returns (w': World)
    requires Reachable(w) && w.worker.Busy? && w.worker.pc.RecordFinish?
    ensures Reachable(w') && w'.api == w.api && w'.worker.Idle? && w'.timer == w.timer && w'.backoff == w.backoff
  {
    w' := Take(w, WorkerStep(Refused("timeout")));
  }

  /** The worker asks for the time or the pod. */
  lemma Asks(w: World) returns (w': World)
    requires Reachable(w) && w.worker.Busy? && RequestAt(w.worker.pc).Some?
    requires RequestAt(w.worker.pc).value.Now? || RequestAt(w.worker.pc) == Some(GetPod(w.api.id.name))
    requires RequestAt(Resume(w.worker.pc, Reply(w))).Some?
    ensures Reachable(w')
    ensures w' == w.(worker := Busy(Resume(w.worker.pc, Reply(w)), w.worker.base, w.worker.answers + [Reply(w)]))
  {
    RecordedIsNoted(w);
    assert WorkerExchange(w, Works) == (w.api, Reply(w));
    w' := Take(w, WORK);
  }

  function Reply(w: World): Response
    requires w.worker.Busy? && RequestAt(w.worker.pc).Some?
  {
    if RequestAt(w.worker.pc).value.Now? then TimeIs(w.api.now)
    else if w.api.pod.Some? then PodIs(w.api.pod.value)
    else Err(NotFound("not found"))
  }

  /** The worker creates the pod, or finds its name taken. */
  lemma Creates(w: World) returns (w': World)
    requires Reachable(w) && w.worker.Busy? && w.worker.pc.Create?
    ensures Reachable(w')
    ensures var r := if w.api.pod.Some? then Err(AlreadyExists("already exists")) else Ok;
            && w'.worker.Busy? && w'.worker.pc == Resume(w.worker.pc, r) && w'.worker.base == w.worker.base
            && w' == w.(worker := w'.worker, api := w'.api)
            && w'.api == if w.api.pod.Some? then w.api
                         else w.api.(pod := Some(NewPod(w.worker.pc.job.id)), driver := At(SendRunning),
                                     creations := w.api.creations + 1)
  {
    RecordedIsNoted(w);
    assert WorkerExchange(w, Works) == ServeCreate(w.api, NewPod(w.worker.pc.job.id));
    w' := Take(w, WORK);
  }

  lemma SaveIsServed(w: World)
    requires w.worker.Busy? && WritesStatus(w.worker.pc) && w.api.job.Some?
    requires w.worker.pc.job.version == w.api.job.value.version
    requires w.worker.pc.job.status != w.api.job.value.status
    ensures WorkerExchange(w, Works).1 == Ok
    ensures WorkerExchange(w, Works).0
            == w.api.(job := Committed(w.api.job.value, w.worker.pc), queued := true,
                      trail := WorkerExchange(w, Works).0.trail)
  {
    assert RequestAt(w.worker.pc) == Some(UpdateStatus(w.worker.pc.job));
  }

  /** The worker stores a changed status on the job it read. */
  lemma Saves(w: World) returns (w': World)
    requires Reachable(w) && w.worker.Busy? && WritesStatus(w.worker.pc) && w.api.job.Some?
    requires w.worker.pc.job.version == w.api.job.value.version
    requires w.worker.pc.job.status != w.api.job.value.status
    ensures Reachable(w') && w'.worker.Idle?
    ensures w'.api == w.api.(job := Committed(w.api.job.value, w.worker.pc), queued := true, trail := w'.api.trail)
    ensures w' == w.(api := w'.api, worker := Idle, timer := w'.timer, backoff := w'.backoff, ledger := w'.ledger)
    ensures SameLedger(w.ledger, w'.ledger)
    ensures var result := Resume(w.worker.pc, Ok).result;
            w'.timer == (w.timer || result.Requeue?) && w'.backoff == (w.backoff || result.Failed?)
  {
    SaveIsServed(w);
    w' := Take(w, WORK);
  }

  /** A status call looks the job up and stores the changed status at once. */
  lemma Lands(w: World, i: nat) returns (w': World)
    requires Reachable(w) && i < |w.calls| && w.calls[i].pc.Lookup? && w.api.job.Some?
    requires ApplyMessage(w.api.job.value.status, w.calls[i].msg) != w.api.job.value.status
    ensures Reachable(w')
    ensures w'.api == w.api.(job := Called(w.api.job.value, w.calls[i].msg), queued := true, trail := w'.api.trail)
    ensures w'.calls == w.calls[i := Call(w.calls[i].msg, w.calls[i].fromDriver, Answered(None), w.api.job)]
    ensures w'.effects == CallEffects(w.effects, w.calls[i])
    ensures w' == w.(api := w'.api, calls := w'.calls, effects := w'.effects, ledger := w'.ledger)
    ensures SameLedger(w.ledger, w'.ledger)
  {
    ReachableInv(w);
    assert CallHolds(w, w.calls[i]);
    w' := Looks(w, i);
    w' := Stores(w', i);
  }

  lemma Stores(w: World, i: nat) returns (w': World)
    requires Reachable(w) && i < |w.calls| && w.api.job.Some? && w.calls[i].base == w.api.job
    requires var j := w.api.job.value;
             && w.calls[i].pc == Save(j.(status := ApplyMessage(j.status, w.calls[i].msg)))
             && ApplyMessage(j.status, w.calls[i].msg) != j.status
    ensures Reachable(w')
    ensures w'.api == w.api.(job := Called(w.api.job.value, w.calls[i].msg), queued := true, trail := w'.api.trail)
    ensures w'.calls == w.calls[i := Call(w.calls[i].msg, w.calls[i].fromDriver, Answered(None), w.api.job)]
    ensures w'.effects == CallEffects(w.effects, w.calls[i])
    ensures w' == w.(api := w'.api, calls := w'.calls, effects := w'.effects, ledger := w'.ledger)
    ensures SameLedger(w.ledger, w'.ledger)
  {
    var (api, r) := CallExchange(w, i, Works);
    assert r == Ok && api == Store(w.api, w.calls[i].pc.job, ByCall(w.calls[i].msg));
    w' := Take(w, CallStep(i, Works));
  }

  lemma Looks(w: World, i: nat) returns (w': World)
    requires Reachable(w) && i < |w.calls| && w.calls[i].pc == Lookup(w.calls[i].msg) && w.api.job.Some?
    ensures Reachable(w')
    ensures var c, j := w.calls[i], w.api.job.value;
            w' == w.(calls := w.calls[i := Call(c.msg, c.fromDriver,
                                                Save(j.(status := ApplyMessage(j.status, c.msg))), w.api.job)])
  {
    w' := Take(w, CallStep(i, Works));
  }

  lemma Sends(w: World) returns (w': World)
    requires Reachable(w) && Enabled(w, DriverSend)
    ensures Reachable(w')
    ensures var pc, n, msg := w.api.driver.pc, |w.calls|, Outgoing(w.api.driver.pc);
            && w' == w.(api := w.api.(driver := Awaiting(pc, n)), calls := w.calls + [Call(msg, true, Lookup(msg), None)],
                        evidence := w'.evidence)
            && w'.evidence.programOk == w.evidence.programOk && w'.evidence.gathered == w.evidence.gathered
  {
    w' := Take(w, DriverSend);
  }

  lemma Hears(w: World) returns (w': World)
    requires Reachable(w) && w.api.driver.Awaiting? && Granted(w, Some(w.api.driver.call))
    ensures Reachable(w') && w' == w.(api := w.api.(driver := At(DriverResume(w.api.driver.pc, Fine("")))))
  {
    w' := Take(w, DriverReply);
  }

  lemma Performs(w: World, o: Outcome) returns (w': World)
    requires Reachable(w) && Enabled(w, DriverWork(o))
    ensures Reachable(w')
    ensures w' == w.(api := w.api.(driver := At(DriverResume(w.api.driver.pc, o))), evidence := w'.evidence)
    ensures var e, e', pc := w.evidence, w'.evidence, w.api.driver.pc;
            && e'.programOk == (e.programOk || (pc.Execute? && o.Fine?))
            && e'.gathered == e.gathered + if pc.ReadResults? && o.Fine? then {o.results} else {}
  {
    w' := Take(w, DriverWork(o));
  }

  /** The driver sends its message, the call lands, and the driver hears of it. */
  lemma Reports(w: World) returns (w': World)
    requires Reachable(w) && Enabled(w, DriverSend) && w.api.job.Some?
    requires ApplyMessage(w.api.job.value.status, Outgoing(w.api.driver.pc)) != w.api.job.value.status
    ensures Reachable(w')
    ensures var pc, n := w.api.driver.pc, |w.calls|;
            && w'.api == w.api.(job := Called(w.api.job.value, Outgoing(pc)), queued := true,
                                driver := At(DriverResume(pc, Fine(""))), trail := w'.api.trail)
            && |w'.calls| == n + 1 && w'.calls[..n] == w.calls
            && w'.effects == CallEffects(w.effects, w'.calls[n])
            && w'.calls[n].msg == Outgoing(pc) && w'.calls[n].fromDriver
    ensures w' == w.(api := w'.api, calls := w'.calls, effects := w'.effects, evidence := w'.evidence, ledger := w'.ledger)
    ensures w'.evidence.programOk == w.evidence.programOk && w'.evidence.gathered == w.evidence.gathered
    ensures SameLedger(w.ledger, w'.ledger)
  {
    w' := Sends(w);
    w' := Lands(w', |w.calls|);
    w' := Hears(w');
  }

  function Outgoing(pc: DriverPc): Message {
    if pc.SendComplete? then pc.msg else RUNNING_MESSAGE
  }

  // Concrete runs

  const ID := Identity("v1beta1", "LMEvalJob", "ns", "job", "uid")

  function JobAt(version: nat, finalizer: bool, status: Status): Option<Job> {
    Some(Job(ID, version, finalizer, false, status))
  }

  const SCHEDULED := EMPTY_STATUS.(state := Scheduled, podName := "job", lastScheduleTime := Some(0))

  predicate Untold(w: World) {
    && w.calls == [] && w.evidence == Evidence(false, {}, None, None) && w.effects == Effects(false, None, false)
    && !w.ledger.swallowed && !w.ledger.deleteFault
  }

  lemma Begins() returns (w: World)
    ensures Reachable(w) && Untold(w) && w.worker.Idle? && !w.timer && !w.backoff && !w.ledger.scheduled
    ensures w.api == Cluster(ID, JobAt(0, false, EMPTY_STATUS), None, Off, true, 0, 0, [])
  {
    w := World(Cluster(ID, JobAt(0, false, EMPTY_STATUS), None, Off, true, 0, 0, []), Idle, false, false, [],
               Evidence(false, {}, None, None), Effects(false, None, false), Ledger(false, 0, 0, false, false));
    assert Init(w);
    assert IsRun([w], []) && [w][0] == w;
  }

  /** The first reconcile attaches the finalizer. */
  lemma Attached() returns (w: World)
    ensures Reachable(w) && Untold(w) && w.worker.Idle? && !w.timer && !w.backoff && !w.ledger.scheduled
    ensures w.api == Cluster(ID, JobAt(1, true, EMPTY_STATUS), None, Off, true, 0, 0, w.api.trail)
  {
    w := Begins();
    w := Starts(w);
    assert w.worker.pc.AttachFinalizer?;
    w := Take(w, WORK);
  }

  /** The second reconcile has created the pod and is about to record it. */
  lemma Created() returns (w: World)
    ensures Reachable(w) && Untold(w) && !w.timer && !w.backoff && !w.ledger.scheduled
    ensures w.worker.Busy? && w.worker.pc == RecordScheduled(Job(ID, 1, true, false, SCHEDULED))
    ensures w.api == Cluster(ID, JobAt(1, true, EMPTY_STATUS), Some(NewPod(ID)), At(SendRunning), false, 0, 1,
                             w.api.trail)
  {
    w := Attached();
    w := Starts(w);
    w := Asks(w);
    w := Creates(w);
  }

  lemma Recording() returns (w: World)
    ensures Reachable(w) && Untold(w) && w.worker.Idle? && w.timer && !w.backoff
    ensures w.api == Cluster(ID, JobAt(2, true, SCHEDULED), Some(NewPod(ID)), At(SendRunning), true, 0, 1, w.api.trail)
  {
    w := Created();
    w := Saves(w);
  }

  const GONE := SCHEDULED.(state := Complete, reason := FailedReason, message := "not found")

  lemma LossSeen() returns (w: World)
    ensures Reachable(w) && w.timer && !w.backoff
    ensures w.api == Cluster(ID, JobAt(2, true, SCHEDULED), None, Off, false, 0, 1, w.api.trail)
    ensures w.worker.Busy? && w.worker.pc == RecordPodGone(Failing(w.api.job.value, "not found"), NotFound("not found"))
  {
    w := Recording();
    w := Take(w, LosePod);
    w := Starts(w);
    w := Asks(w);
  }

  /** The pod is lost and the job marked as failed. */
  lemma PodLost() returns (w: World)
    ensures Reachable(w) && w.worker.Idle? && !w.timer && !w.backoff
    ensures w.api == Cluster(ID, JobAt(3, true, GONE), None, Off, true, 0, 1, w.api.trail)
  {
    w := LossSeen();
    w := Saves(w);
    w := Take(w, FireBackoff);
    w := Take(w, FireTimer);
  }

  /** Without the condition of NoLostWakeup: a completion write refused for
      another reason than a conflict leaves the job without its completion time,
      and with no reconcile to come. */
  lemma SwallowedErrorLosesWakeup() returns (w: World)
    ensures Reachable(w) && NeedsWork(w.api.job) && !Pending(w)
  {
    w := PodLost();
    w := Starts(w);
    w := Asks(w);
    w := FinishRefused(w);
  }

  lemma Unprotected() returns (w: World)
    ensures Reachable(w) && w.worker.Idle? && w.api.queued && w.api.id == ID && w.api.pod == Some(NewPod(ID))
    ensures w.api.job == Some(Job(ID, 3, true, true, SCHEDULED))
  {
    w := Recording();
    w := Take(w, UserDelete);
  }

  /** Without the condition of PodsAreCleanedUp: handleDeletion removes the
      finalizer even when the pod's deletion was refused. */
  lemma RefusedDeletionLeavesPod() returns (w: World)
    ensures Reachable(w) && w.api.job.None? && w.ledger.scheduled && OwnPod(w.api)
  {
    w := Unprotected();
    RecordedIsNoted(w);
    w := Starts(w);
    w := GoesOn(w);
    w := Detaches(w);
    NewPodIsOwned(ID);
  }

  /** handleCancel deletes the pod. */
  lemma Kills(w: World) returns (w': World)
    requires Reachable(w) && w.worker.Busy? && w.worker.pc.DeleteCancelled? && OwnPod(w.api)
    requires w.worker.pc.job.status.podName == w.api.id.name && w.api.id.name != ""
    ensures Reachable(w') && w'.api == w.api.(pod := None, driver := Off, queued := true)
    ensures w'.worker.Busy? && w'.worker.pc == RecordCancel(w.worker.pc.job)
  {
    w' := Take(w, WORK);
  }

  const CANCEL := Message(Cancelled, CancelledReason, "", None)
  const CANCELLED := SCHEDULED.(state := Cancelled, reason := CancelledReason)

  lemma CancelAsked() returns (w: World)
    ensures Reachable(w) && w.worker.Idle?
    ensures w.api == Cluster(ID, JobAt(3, true, CANCELLED), Some(NewPod(ID)), At(SendRunning), true, 0, 1, w.api.trail)
  {
    w := Recording();
    w := Take(w, CancelRequest(CANCEL));
    w := Lands(w, 0);
  }

  lemma CancelOvertaken() returns (w: World)
    ensures Reachable(w) && w.worker.Idle?
    ensures w.api == Cluster(ID, JobAt(4, true, CANCELLED), None, Off, true, 0, 1, w.api.trail)
  {
    w := CancelAsked();
    NewPodIsOwned(ID);
    w := Starts(w);
    w := Asks(w);
    w := Kills(w);
    w := Touched(w);
    w := Conflicts(w);
  }

  lemma CancelRetried() returns (w: World)
    ensures Reachable(w) && w.api.job == JobAt(4, true, CANCELLED) && w.api.pod.None?
    ensures w.worker.Busy? && w.worker.pc == RecordCancel(Failing(w.api.job.value, "not found"))
  {
    w := CancelOvertaken();
    w := Starts(w);
    w := Asks(w);
  }

  /** A cancellation whose write is overtaken is stored as a failure: on the
      retry the pod the controller has deleted itself counts as missing. */
  lemma CancellationEndsAsFailure() returns (w: World)
    ensures Reachable(w) && w.api.job.Some? && w.api.pod.None?
    ensures w.api.job.value.status.state == Complete && w.api.job.value.status.reason == FailedReason
  {
    w := CancelRetried();
    w := Saves(w);
  }

  /** The lookup of the pod to cancel is refused. */
  lemma Misses(w: World, text: string) returns (w': World)
    requires Reachable(w) && w.worker.Busy? && w.worker.pc.InspectCancelled?
    ensures Reachable(w') && w'.api == w.api
    ensures w'.worker.Busy? && w'.worker.pc == RecordCancel(Failing(w.worker.pc.job, text))
  {
    w' := Take(w, WorkerStep(Refused(text)));
  }

  lemma LookupRefused() returns (w: World)
    ensures Reachable(w) && w.worker.Busy?
    ensures w.api == Cluster(ID, JobAt(3, true, CANCELLED), Some(NewPod(ID)), At(SendRunning), false, 0, 1, w.api.trail)
    ensures w.worker.pc == RecordCancel(Failing(w.api.job.value, "timeout"))
  {
    w := CancelAsked();
    w := Starts(w);
    w := Misses(w, "timeout");
  }

  /** A cancellation stored as a failure leaves the pod and its driver alive: any
      error of the lookup counts as a missing pod. */
  lemma CancellationLeavesPodRunning() returns (w: World)
    ensures Reachable(w) && w.api.job.Some? && OwnPod(w.api) && w.api.driver == At(SendRunning)
    ensures w.api.job.value.status.state == Complete && w.api.job.value.status.reason == FailedReason
  {
    w := LookupRefused();
    w := Saves(w);
    NewPodIsOwned(ID);
  }

  /** The driver's Running message lands before the recording write. */
  lemma RunningFirst() returns (w: World)
    ensures Reachable(w) && w.worker.Busy? && w.worker.pc == RecordScheduled(Job(ID, 1, true, false, SCHEDULED))
    ensures w.api == Cluster(ID, JobAt(2, true, ANNOUNCED), Some(NewPod(ID)), At(Execute), true, 0, 1, w.api.trail)
    ensures !w.ledger.scheduled
  {
    w := Created();
    w := Reports(w);
    ReachableInv(w);
  }

  /** Nobody interferes and nothing fails, and yet the job's pod becomes an orphan:
      the driver is faster than the write that records its pod. */
  lemma DriverOvertakesRecording() returns (w: World)
    ensures Reachable(w) && Orphaned(w)
  {
    w := RunningFirst();
    w := Conflicts(w);
    NewPodIsOwned(ID);
  }

  /** A user's edit overtakes the recording write. */
  lemma Unrecorded() returns (w: World)
    ensures Reachable(w) && Untold(w) && w.worker.Idle? && !w.ledger.scheduled && OwnPod(w.api)
    ensures w.api == Cluster(ID, JobAt(2, true, EMPTY_STATUS), Some(NewPod(ID)), At(SendRunning), true, 0, 1,
                             w.api.trail)
  {
    w := Created();
    w := Touched(w);
    w := Conflicts(w);
    NewPodIsOwned(ID);
  }

  const ANNOUNCED := EMPTY_STATUS.(state := Running, reason := NoReason, message := RUNNING_MESSAGE.text)
  const SUCCEEDED := ApplyMessage(ANNOUNCED, SuccessMessage("{}"))

  /** The driver announces itself, runs the program and gathers the results. */
  lemma GatheredUnrecorded() returns (w: World)
    ensures Reachable(w) && w.worker.Idle? && !w.effects.cancelled && Proves(w.evidence, "{}")
    ensures w.api == Cluster(ID, JobAt(3, true, ANNOUNCED), Some(NewPod(ID)), At(SendComplete(SuccessMessage("{}"))),
                             true, 0, 1, w.api.trail)
  {
    w := Unrecorded();
    w := Reports(w);
    w := Performs(w, Fine(""));
    w := Performs(w, Fine("{}"));
  }

  /** The driver reports its success. */
  lemma ReportedUnrecorded() returns (w: World)
    ensures Reachable(w) && w.worker.Idle? && w.api.queued && w.api.pod == Some(NewPod(ID)) && w.api.id == ID
    ensures w.api.job == JobAt(4, true, SUCCEEDED) && w.api.creations == 1
    ensures w.effects.verdict == Some(SuccessMessage("{}")) && Proves(w.evidence, "{}") && !w.effects.cancelled
  {
    w := GatheredUnrecorded();
    w := Reports(w);
  }

  lemma Retrying() returns (w: World)
    ensures Reachable(w) && w.api.creations == 1 && Proves(w.evidence, "{}") && !w.effects.cancelled
    ensures w.effects.verdict == Some(SuccessMessage("{}")) && w.api.job == JobAt(4, true, SUCCEEDED)
    ensures w.api.pod.Some? && w.worker.Busy? && w.worker.pc == Create(WithState(w.api.job.value, New), w.api.now)
  {
    w := ReportedUnrecorded();
    w := Starts(w);
    w := Asks(w);
  }

  lemma Retried() returns (w: World)
    ensures Reachable(w) && w.api.creations == 1 && Proves(w.evidence, "{}") && !w.effects.cancelled
    ensures w.effects.verdict == Some(SuccessMessage("{}")) && w.api.job == JobAt(4, true, SUCCEEDED)
    ensures w.worker.Busy? && w.worker.pc.RecordCreateFailure?
    ensures w.worker.pc.job == Failing(w.api.job.value, "already exists")
  {
    w := Retrying();
    w := Creates(w);
  }

  /** Without recorded scheduling VerdictStands fails: a success that was proven
      and stored is overwritten by a failure, since the next reconcile takes the
      job for a new one and cannot create its pod again. */
  lemma UnrecordedSuccessIsOverwritten() returns (w: World)
    ensures Reachable(w) && w.api.creations == 1 && Proves(w.evidence, "{}") && !w.effects.cancelled
    ensures w.effects.verdict == Some(SuccessMessage("{}"))
    ensures w.api.job.Some? && w.api.job.value.status.state == Complete
    ensures w.api.job.value.status.reason == FailedReason
  {
    w := Retried();
    w := Saves(w);
  }

  /** The orphaned pod of a successful driver is deleted, and the next reconcile
      creates another one. */
  lemma Recreating() returns (w: World)
    ensures Reachable(w) && w.api.creations == 1 && Proves(w.evidence, "{}") && !w.effects.cancelled
    ensures w.api.job == JobAt(4, true, SUCCEEDED) && w.api.pod.None? && w.worker.Busy?
    ensures w.worker.pc == Create(WithState(w.api.job.value, New), w.api.now)
  {
    w := ReportedUnrecorded();
    w := Take(w, LosePod);
    w := Starts(w);
    w := Asks(w);
  }

  lemma Recreated() returns (w: World)
    ensures Reachable(w) && w.api.creations == 2 && Proves(w.evidence, "{}") && !w.effects.cancelled
    ensures w.api.job == JobAt(4, true, SUCCEEDED) && w.worker.Busy?
    ensures w.worker.pc == RecordScheduled(Job(ID, 4, true, false, SUCCEEDED.(
                                               state := Scheduled, podName := "job", lastScheduleTime := Some(w.api.now))))
  {
    w := Recreating();
    w := Creates(w);
  }

  /** A success that was proven and stored is overwritten by the scheduling of a
      second pod. */
  lemma UnrecordedSuccessIsRerun() returns (w: World)
    ensures Reachable(w) && w.api.creations == 2 && Proves(w.evidence, "{}") && !w.effects.cancelled
    ensures w.api.job.Some? && w.api.job.value.status.state == Scheduled
  {
    w := Recreated();
    w := Saves(w);
  }

  // A cancel request that comes too early

  const EARLY_CANCEL := EMPTY_STATUS.(state := Cancelled, reason := CancelledReason)

  lemma CancelBeforePod() returns (w: World)
    ensures Reachable(w) && w.worker.Idle? && w.effects.cancelled
    ensures w.api == Cluster(ID, JobAt(2, true, EARLY_CANCEL), None, Off, true, 0, 0, w.api.trail)
  {
    w := Attached();
    w := Take(w, CancelRequest(CANCEL));
    w := Lands(w, 0);
  }

  lemma CreatedDespiteCancel() returns (w: World)
    ensures Reachable(w) && w.effects.cancelled && w.worker.Busy?
    ensures w.api == Cluster(ID, JobAt(2, true, EARLY_CANCEL), Some(NewPod(ID)), At(SendRunning), false, 0, 1,
                             w.api.trail)
    ensures w.worker.pc == RecordScheduled(Job(ID, 2, true, false, EARLY_CANCEL.(
                                               state := Scheduled, podName := "job", lastScheduleTime := Some(0))))
  {
    w := CancelBeforePod();
    w := Starts(w);
    w := Asks(w);
    w := Creates(w);
  }

  /** An accepted cancel request is lost: the job was not scheduled yet, so the
      controller takes it for a new one and starts its pod. */
  lemma EarlyCancelIsLost() returns (w: World)
    ensures Reachable(w) && w.effects.cancelled && OwnPod(w.api) && w.api.driver == At(SendRunning)
    ensures w.api.job.Some? && w.api.job.value.status.state == Scheduled
  {
    w := CreatedDespiteCancel();
    w := Saves(w);
    NewPodIsOwned(ID);
  }

  // A success that was never achieved

  /** The first driver's pod is lost after it has sent its Running message. */
  lemma FirstLost() returns (w: World)
    ensures Reachable(w) && w.worker.Idle? && !w.evidence.programOk
    ensures w.calls == [Call(RUNNING_MESSAGE, true, Lookup(RUNNING_MESSAGE), None)]
    ensures w.api == Cluster(ID, JobAt(2, true, EMPTY_STATUS), None, Off, true, 0, 1, w.api.trail)
  {
    w := Unrecorded();
    w := Take(w, DriverSend);
    w := Take(w, LosePod);
  }

  /** The first driver's Running call is still under way when its pod is lost and
      a second one is created and recorded. */
  lemma SecondPod() returns (w: World)
    ensures Reachable(w) && w.worker.Idle? && !w.evidence.programOk
    ensures w.calls == [Call(RUNNING_MESSAGE, true, Lookup(RUNNING_MESSAGE), None)]
    ensures w.api == Cluster(ID, JobAt(3, true, SCHEDULED), Some(NewPod(ID)), At(SendRunning), true, 0, 2, w.api.trail)
  {
    w := FirstLost();
    w := Starts(w);
    w := Asks(w);
    w := Creates(w);
    w := Saves(w);
  }

  const RERUN := SCHEDULED.(state := Running, reason := NoReason, message := RUNNING_MESSAGE.text)
  const BROKEN := RERUN.(state := Complete, reason := FailedReason, message := "exit status 1")
  const STALE := BROKEN.(state := Running, reason := NoReason, message := RUNNING_MESSAGE.text)
  const EXITED := Some([ContainerStatus("main", Some(Terminated(0, "Completed")))])

  lemma SecondAnnounced() returns (w: World)
    ensures Reachable(w) && w.worker.Idle? && !w.evidence.programOk
    ensures |w.calls| == 2 && w.calls[0] == Call(RUNNING_MESSAGE, true, Lookup(RUNNING_MESSAGE), None)
    ensures w.api == Cluster(ID, JobAt(4, true, RERUN), Some(NewPod(ID)), At(Execute), true, 0, 2, w.api.trail)
  {
    w := SecondPod();
    var calls := w.calls;
    w := Reports(w);
    assert w.calls[0] == w.calls[..1][0] == calls[0];
  }

  lemma SecondFailed() returns (w: World)
    ensures Reachable(w) && w.worker.Idle? && !w.evidence.programOk
    ensures |w.calls| == 2 && w.calls[0] == Call(RUNNING_MESSAGE, true, Lookup(RUNNING_MESSAGE), None)
    ensures w.api == Cluster(ID, JobAt(4, true, RERUN), Some(NewPod(ID)),
                             At(SendComplete(FailureMessage("exit status 1"))), true, 0, 2, w.api.trail)
  {
    w := SecondAnnounced();
    w := Performs(w, Problem("exit status 1"));
  }

  /** The second driver reports that the program failed, and exits with 0. */
  lemma SecondReport() returns (w: World)
    ensures Reachable(w) && w.worker.Idle? && !w.evidence.programOk
    ensures |w.calls| == 3 && w.calls[0] == Call(RUNNING_MESSAGE, true, Lookup(RUNNING_MESSAGE), None)
    ensures w.api == Cluster(ID, JobAt(5, true, BROKEN), Some(NewPod(ID)), At(Exit(0)), true, 0, 2, w.api.trail)
  {
    w := SecondFailed();
    var calls := w.calls;
    w := Reports(w);
    assert w.calls[0] == w.calls[..2][0] == calls[0];
  }

  lemma SecondExit() returns (w: World)
    ensures Reachable(w) && w.worker.Idle? && !w.evidence.programOk && w.api.queued
    ensures w.api.id == ID && w.api.job == JobAt(6, true, STALE)
    ensures w.api.pod == Some(NewPod(ID).(containers := EXITED))
  {
    w := SecondReport();
    w := Take(w, Kubelet(EXITED));
    w := Lands(w, 0);
  }

  lemma ExitSeen() returns (w: World)
    ensures Reachable(w) && !w.evidence.programOk && w.api.job == JobAt(6, true, STALE)
    ensures w.worker.Busy? && w.worker.pc == RecordPodDone(Concluded(w.api.job.value, SucceedReason))
  {
    w := SecondExit();
    w := Starts(w);
    assert w.worker.pc.Inspect?;
    assert OwnedBy(w.api.pod.value, ID) by {
      assert Matches(w.api.pod.value.owners[0], ID);
    }
    w := Asks(w);
  }

  /** Without the condition of NoFalseSuccess: after a second creation, the first
      driver's late Running message hides the failure the second one reported,
      and the controller stores the exit code 0 as a success. */
  lemma SecondPodFakesSuccess() returns (w: World)
    ensures Reachable(w) && !w.evidence.programOk
    ensures w.api.job.Some? && w.api.job.value.status.state == Complete
    ensures w.api.job.value.status.reason == SucceedReason
  {
    w := ExitSeen();
    w := Saves(w);
  }
}
