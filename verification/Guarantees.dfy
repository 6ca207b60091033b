/** The protocol's guarantees, for every reachable world and every run. */
module Guarantees {
  import opened Options
  import opened Types
  import opened Handlers
  import opened Calls
  import opened Protocol
  import opened Commits
  import opened Lifecycle
  import opened Cleanup
  import opened DriverEvidence
  import opened Verdict
  import opened Wakeup

  ghost predicate Inv(w: World) {
    && Base(w) && WakeupInv(w) && QuietInv(w)
    && (w.api.creations <= 1 ==> Known(w) && StoredKnown(w) && HeldKnown(w) && OneText(w))
  }

  lemma InitInv(w: World)
    requires Init(w)
    ensures Inv(w)
  {}

  lemma InvStep(w: World, l: Label)
    requires Inv(w) && Enabled(w, l)
    ensures Inv(Apply(w, l))
  {
    BaseStep(w, l);
    WakeupStep(w, l);
    QuietStep(w, l);
    DriverInPodStep(w, l);
    if Apply(w, l).api.creations <= 1 {
      VerdictStep(w, l);
      OneTextStep(w, l);
    }
  }

  lemma {:induction false} RunInv(ws: seq<World>, ls: seq<Label>, i: nat)
    requires IsRun(ws, ls) && i < |ws|
    ensures Inv(ws[i])
  {
    if i == 0 {
      InitInv(ws[0]);
    } else {
      RunInv(ws, ls, i - 1);
      assert Enabled(ws[i - 1], ls[i - 1]) && ws[i - 1 + 1] == Apply(ws[i - 1], ls[i - 1]);
      InvStep(ws[i - 1], ls[i - 1]);
    }
  }

  lemma ReachableInv(w: World)
    requires Reachable(w)
    ensures Inv(w)
  {
    var ws, ls :| IsRun(ws, ls) && ws[|ls|] == w;
    RunInv(ws, ls, |ls|);
  }

  // The verdict

  /** No false success: if the pod was created at most once, a stored success
      is the driver's success report as it took effect, sent after the program
      succeeded, and the stored results are the one text that was gathered. */
  lemma NoFalseSuccess(w: World)
    requires Reachable(w) && w.api.creations <= 1
    requires w.api.job.Some?
    requires w.api.job.value.status.state == Complete && w.api.job.value.status.reason == SucceedReason
    ensures w.effects.verdict.Some? && Shows(w.api.job.value.status, w.effects.verdict.value)
    ensures w.evidence.programOk && w.evidence.gathered == {w.api.job.value.status.results}
  {
    ReachableInv(w);
    assert w.calls[w.evidence.completeCall.value].fromDriver;
    assert w.api.job.value.status.results in w.evidence.gathered;
  }

  /** The driver's container exits with 0 only after its report has taken effect;
      so the success checkScheduledPod reads off an exit code is never stored. */
  lemma ExitZeroIsTooLate(w: World, fault: Fault)
    requires Reachable(w) && w.api.creations <= 1
    ensures OwnPod(w.api) && MainExit(w.api.pod.value).Some? && MainExit(w.api.pod.value).value.exitCode == 0 ==>
              w.effects.verdict.Some?
    ensures w.worker.Busy? && w.worker.pc.RecordPodDone? && w.worker.pc.job.status.reason == SucceedReason ==>
              ApplyWorker(w, fault).api.job == w.api.job && WorkerExchange(w, fault).1.Err?
  {
    ReachableInv(w);
    if w.worker.Busy? && w.worker.pc.RecordPodDone? && w.worker.pc.job.status.reason == SucceedReason {
      SuccessNeverCommits(w, fault);
    }
  }

  predicate SameVerdict(st: Status, st': Status) {
    st'.state == st.state && st'.reason == st.reason && st'.message == st.message && st'.results == st.results
  }

  /** Once scheduling is recorded, no step of the controller changes the verdict of
      a Complete job, whatever was created or cancelled before. With one creation
      and no cancellation that verdict is the driver's report from the moment it
      has taken effect. */
  lemma VerdictStands(w: World, fault: Fault)
    requires Reachable(w) && Recorded(w.api.job)
    ensures w.api.creations <= 1 && w.effects.verdict.Some? && !w.effects.cancelled ==>
              w.api.job.value.status.state == Complete && Shows(w.api.job.value.status, w.effects.verdict.value)
    ensures w.api.job.value.status.state == Complete && w.worker.Busy? && RequestAt(w.worker.pc).Some? ==>
              var job := ApplyWorker(w, fault).api.job;
              job.Some? ==> SameVerdict(w.api.job.value.status, job.value.status)
  {
    ReachableInv(w);
    if w.api.creations <= 1 && w.effects.verdict.Some? {
      assert IsReport(w.calls[w.evidence.completeCall.value].msg);
    }
    if w.worker.Busy? && RequestAt(w.worker.pc).Some? {
      WorkerCommits(w, fault);
      if Writes(w.worker.pc) {
        HeldJob(w);
      }
    }
  }

  // The stamps

  lemma StampStep(w: World, l: Label)
    requires Inv(w) && Enabled(w, l)
    ensures var st, job := w.api.job, Apply(w, l).api.job;
            job.Some? ==>
              && st.Some?
              && (st.value.status.lastScheduleTime.Some? ==>
                    job.value.status.lastScheduleTime == st.value.status.lastScheduleTime)
              && (st.value.status.completeTime.Some? ==> job.value.status.completeTime == st.value.status.completeTime)
  {
    EachJobStep(w, l);
    if l.WorkerStep? && !w.worker.pc.Fetch? {
      HeldJob(w);
    }
  }

  /** Nothing but the Create point creates pods. */
  lemma OnlyCreateCreates(w: World, l: Label)
    requires Inv(w) && Enabled(w, l) && Apply(w, l).api.creations != w.api.creations
    ensures l.WorkerStep? && w.worker.pc.Create? && Apply(w, l).api.pod == Some(NewPod(w.api.id))
    ensures w.api.creations < Apply(w, l).api.creations && !w.ledger.scheduled
  {
    if l.WorkerStep? {
      WorkerPodRequest(w);
      PodExchange(w.api, RequestAt(w.worker.pc).value, l.fault, ByWorker(w.worker.answers));
      if w.worker.pc.Create? {
        CreationGuard(w);
      }
    } else if l.CallStep? {
      PodExchange(w.api, CallRequest(w.calls[l.call].pc).value, l.fault, ByCall(w.calls[l.call].msg));
    }
  }

  /** The schedule and completion times are written once, in this order, and no
      pod is created after the schedule time is stored. New is never stored. */
  lemma {:induction false} StampsAreWriteOnce(ws: seq<World>, ls: seq<Label>, i: nat, j: nat)
    requires IsRun(ws, ls) && i <= j < |ws|
    requires ws[j].api.job.Some?
    ensures ws[i].api.job.Some?
    ensures var st, st' := ws[i].api.job.value.status, ws[j].api.job.value.status;
            && (st.lastScheduleTime.Some? ==>
                  st'.lastScheduleTime == st.lastScheduleTime && ws[j].api.creations == ws[i].api.creations)
            && (st.completeTime.Some? ==>
                  && st'.completeTime == st.completeTime
                  && st.lastScheduleTime.Some? && st.lastScheduleTime.value <= st.completeTime.value)
            && st'.state != New
    decreases j
  {
    RunInv(ws, ls, j);
    if i < j {
      var k := j - 1;
      RunInv(ws, ls, k);
      assert Enabled(ws[k], ls[k]) && ws[k + 1] == Apply(ws[k], ls[k]);
      StampStep(ws[k], ls[k]);
      if ws[k + 1].api.creations != ws[k].api.creations {
        OnlyCreateCreates(ws[k], ls[k]);
      }
      StampsAreWriteOnce(ws, ls, i, k);
    }
  }

  // Creation, cancellation and deletion of the pod

  /** Whenever a pod is created, the stored job still exists and holds the
      finalizer, even if a user has deleted it meanwhile; and getPod accepts the
      new pod as the job's own. */
  lemma FinalizerGuardsCreation(w: World, l: Label)
    requires Reachable(w) && Enabled(w, l) && Apply(w, l).api.creations > w.api.creations
    ensures w.api.job.Some? && w.api.job.value.finalizer && !Recorded(w.api.job)
    ensures FoundPod(PodIs(Apply(w, l).api.pod.value), w.api.id).Some?
  {
    ReachableInv(w);
    OnlyCreateCreates(w, l);
    CreationGuard(w);
    NewPodIsOwned(w.api.id);
  }

  /** PodName names the pod exactly when scheduling is recorded; a job stored as
      cancelled has no pod left, which is why handleDeletion may skip deleting
      it; and no recorded pod outlives the finalizer unless its deletion was
      refused. */
  lemma PodsAreCleanedUp(w: World)
    requires Reachable(w)
    ensures w.api.job.Some? ==>
              var st := w.api.job.value.status;
              && (st.podName == w.api.id.name <==> Recorded(w.api.job))
              && (st.podName == "" <==> !Recorded(w.api.job))
              && (st.state == Complete && st.reason == CancelledReason ==> !OwnPod(w.api))
    ensures w.api.job.None? && w.ledger.scheduled && OwnPod(w.api) ==> w.ledger.deleteFault
  {
    ReachableInv(w);
  }

  // The work queue

  /** No lost wake-up: a job that needs work is being reconciled, queued, or
      waiting on a timer, unless a completion write was refused for some other
      reason than a conflict. */
  lemma NoLostWakeup(w: World)
    requires Reachable(w) && NeedsWork(w.api.job) && !w.ledger.swallowed
    ensures w.worker.Busy? || w.api.queued || w.timer || w.backoff
  {
    ReachableInv(w);
  }

  /** After scheduling is recorded, the controller commits at most two status
      writes more than the status calls do, and while the job is stored it still
      has at most its rank to go. */
  lemma ControllerWritesAreBounded(w: World)
    requires Reachable(w)
    ensures w.ledger.workerWrites <= w.ledger.callWrites + 2
    ensures Recorded(w.api.job) ==>
              w.ledger.workerWrites + Rank(w.api.job.value.status) <= w.ledger.callWrites + 2
  {
    ReachableInv(w);
  }
}
