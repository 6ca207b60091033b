/** Exactly when the protocol fails to do what one would expect of it: by which
    step a job is stranded, a false success stored, a pod never recorded, a
    verdict overwritten, a pod left behind, or a cancellation stored as a failure. */
module Failures {
  import opened Types
  import opened Handlers
  import opened Calls
  import opened Protocol
  import opened Snapshots
  import opened Commits
  import opened Lifecycle
  import opened Cleanup
  import opened DriverEvidence
  import opened Wakeup
  import opened Guarantees

  /** A run passes through reachable worlds. */
  lemma RunStep(ws: seq<World>, ls: seq<Label>, i: nat)
    requires IsRun(ws, ls) && i < |ls|
    ensures Reachable(ws[i]) && Reachable(ws[i + 1])
    ensures Enabled(ws[i], ls[i]) && ws[i + 1] == Apply(ws[i], ls[i])
  {
    var ws', ls' := ws[..i + 1], ls[..i];
    assert Enabled(ws[i], ls[i]);
    assert IsRun(ws', ls') && ws'[|ls'|] == ws[i];
    ReachableStep(ws[i], ls[i]);
  }

  // Stranded jobs

  /** A stranded job stays so until something queues it. */
  lemma StrandedStays(w: World, l: Label)
    requires Reachable(w) && Enabled(w, l) && Stranded(w) && Recorded(w.api.job) && !Apply(w, l).api.queued
    ensures Stranded(Apply(w, l)) && Recorded(Apply(w, l).api.job)
  {
    ReachableInv(w);
    EachJobStep(w, l);
    if l.CallStep? {
      ExchangeFrame(w.api, CallRequest(w.calls[l.call].pc).value, l.fault, ByCall(w.calls[l.call].msg));
    }
  }

  lemma DroppedIsRecorded(w: World, l: Label)
    requires Reachable(w) && Enabled(w, l) && DropsWakeup(w, l)
    ensures Stranded(Apply(w, l)) && Recorded(Apply(w, l).api.job)
  {
    ReachableInv(w);
    HeldJob(w);
    StrandsExactly(w, l);
    WorkerCommits(w, l.fault);
  }

  lemma {:induction false} StrandedUntil(ws: seq<World>, ls: seq<Label>, i: nat, j: nat)
    requires IsRun(ws, ls) && i < j < |ws| && DropsWakeup(ws[i], ls[i])
    requires forall k :: i < k <= j ==> !ws[k].api.queued
    ensures Stranded(ws[j]) && Recorded(ws[j].api.job)
    decreases j
  {
    var k := j - 1;
    RunStep(ws, ls, k);
    if i == k {
      DroppedIsRecorded(ws[k], ls[k]);
    } else {
      StrandedUntil(ws, ls, i, k);
      StrandedStays(ws[k], ls[k]);
    }
  }

  lemma StrandedHow(w: World, l: Label)
    requires Reachable(w) && Enabled(w, l) && Stranded(Apply(w, l))
    ensures Stranded(w) || DropsWakeup(w, l)
    ensures !Apply(w, l).api.queued
  {
    ReachableInv(w);
    if !Stranded(w) {
      StrandsExactly(w, l);
    }
  }

  lemma {:induction false} StrandedSince(ws: seq<World>, ls: seq<Label>, j: nat) returns (i: nat)
    requires IsRun(ws, ls) && j < |ws| && Stranded(ws[j])
    ensures i < j && DropsWakeup(ws[i], ls[i]) && forall k :: i < k <= j ==> !ws[k].api.queued
    decreases j
  {
    assert j > 0;
    i := j - 1;
    RunStep(ws, ls, i);
    StrandedHow(ws[i], ls[i]);
    if Stranded(ws[i]) {
      i := StrandedSince(ws, ls, i);
    }
  }

  /** No wake-up is ever lost but in one way: in every run, a job that needs work
      has nothing pending exactly when handleComplete's write was refused while
      nothing else was pending, and nothing has queued the job since. */
  lemma StrandedExactly(ws: seq<World>, ls: seq<Label>, j: nat)
    requires IsRun(ws, ls) && j < |ws|
    ensures Stranded(ws[j])
            <==> exists i :: 0 <= i < j && DropsWakeup(ws[i], ls[i]) && forall k :: i < k <= j ==> !ws[k].api.queued
  {
    if Stranded(ws[j]) {
      var i := StrandedSince(ws, ls, j);
    }
    if i :| 0 <= i < j && DropsWakeup(ws[i], ls[i]) && forall k :: i < k <= j ==> !ws[k].api.queued {
      StrandedUntil(ws, ls, i, j);
    }
  }

  // False successes

  /** A stored success whose results no driver has gathered after a successful
      program. */
  predicate FalseSuccess(w: World) {
    && w.api.job.Some? && w.api.job.value.status.state == Complete && w.api.job.value.status.reason == SucceedReason
    && !Proves(w.evidence, w.api.job.value.status.results)
  }

  /** checkScheduledPod stores the driver's exit code 0 on the job it read. */
  predicate StoresExitZero(w: World, l: Label) {
    && l.WorkerStep? && !l.fault.Refused? && w.worker.Busy? && w.worker.base == w.api.job
    && w.worker.pc.RecordPodDone? && w.worker.pc.job.status.reason == SucceedReason
  }

  lemma EvidenceGrows(w: World, l: Label, results: string)
    requires Enabled(w, l)
    ensures Proves(w.evidence, results) ==> Proves(Apply(w, l).evidence, results)
    ensures l.WorkerStep? || l.CallStep? ==> Apply(w, l).evidence == w.evidence
  {}

  lemma FalseByWorker(w: World, fault: Fault)
    requires Inv(w) && w.worker.Busy? && RequestAt(w.worker.pc).Some? && !FalseSuccess(w)
    ensures FalseSuccess(ApplyWorker(w, fault))
            <==> StoresExitZero(w, WorkerStep(fault)) && !Proves(w.evidence, w.worker.pc.job.status.results)
  {
    WorkerCommits(w, fault);
    if Writes(w.worker.pc) {
      HeldJob(w);
      WorkerLands(w, fault);
    }
  }

  lemma FalseByOthers(w: World, l: Label)
    requires Inv(w) && Enabled(w, l) && !l.WorkerStep? && !FalseSuccess(w)
    ensures !FalseSuccess(Apply(w, l))
  {
    EachJobStep(w, l);
    if w.api.job.Some? {
      EvidenceGrows(w, l, w.api.job.value.status.results);
    }
    if l.CallStep? {
      assert MessageOk(w.calls[l.call]);
      assert w.calls[l.call].fromDriver ==> Backed(w.evidence, w.calls[l.call].msg);
    }
  }

  /** However many pods are created, a step makes the stored success a false one
      exactly when it is checkScheduledPod's own write of an exit code 0, onto the
      job it read, with results no driver has gathered. */
  lemma FalseSuccessExactly(w: World, l: Label)
    requires Reachable(w) && Enabled(w, l) && !FalseSuccess(w)
    ensures FalseSuccess(Apply(w, l))
            <==> StoresExitZero(w, l) && !Proves(w.evidence, w.worker.pc.job.status.results)
  {
    ReachableInv(w);
    if l.WorkerStep? {
      FalseByWorker(w, l.fault);
    } else {
      FalseByOthers(w, l);
    }
  }

  /** So every false success of a run goes back to such a write. */
  lemma {:induction false} FalseSuccessOrigin(ws: seq<World>, ls: seq<Label>, j: nat) returns (i: nat)
    requires IsRun(ws, ls) && j < |ws| && FalseSuccess(ws[j])
    ensures i < j && StoresExitZero(ws[i], ls[i]) && !Proves(ws[i].evidence, ws[i].worker.pc.job.status.results)
    ensures 1 < ws[j].api.creations
    decreases j
  {
    assert j > 0;
    i := j - 1;
    RunStep(ws, ls, i);
    if FalseSuccess(ws[i]) {
      i := FalseSuccessOrigin(ws, ls, i);
    } else {
      FalseSuccessExactly(ws[i], ls[i]);
    }
    if ws[j].api.creations <= 1 {
      NoFalseSuccess(ws[j]);
    }
  }

  // Pods that are never recorded

  /** The write that records a created pod lands exactly if it is not refused and
      the job is still the one the handler read. */
  lemma RecordedExactly(w: World, fault: Fault)
    requires Reachable(w) && w.worker.Busy? && w.worker.pc.RecordScheduled?
    ensures Recorded(ApplyWorker(w, fault).api.job) <==> !fault.Refused? && w.worker.base == w.api.job
  {
    ReachableInv(w);
    HeldJob(w);
    WorkerLands(w, fault);
  }

  /** The pod exists, unrecorded, and no handler is about to record it; how this
      comes about is LosesPod. */
  predicate Orphaned(w: World) {
    && OwnPod(w.api) && !w.ledger.scheduled
    && !(w.worker.Busy? && w.worker.pc.RecordScheduled?)
  }

  lemma OrphanIsUnrecorded(w: World)
    requires Inv(w) && Orphaned(w) && w.api.job.Some?
    ensures w.api.job.value.status.lastScheduleTime.None? && w.api.job.value.status.completeTime.None?
  {}

  lemma OrphanByOthers(w: World, l: Label)
    requires Inv(w) && Orphaned(w) && Enabled(w, l) && !l.LosePod? && !l.WorkerStep?
    ensures Orphaned(Apply(w, l))
  {
    DriverInPodStep(w, l);
    if l.CallStep? {
      CallKeepsPod(w, l.call, l.fault);
    } else {
      OthersKeepPod(w, l);
    }
  }

  lemma OrphanStep(w: World, l: Label)
    requires Inv(w) && Orphaned(w) && Enabled(w, l) && !l.LosePod?
    ensures Orphaned(Apply(w, l))
  {
    if l.WorkerStep? {
      OrphanByWorker(w, l.fault);
    } else {
      OrphanByOthers(w, l);
    }
  }

  /** An orphan cannot be created again, nor deleted by its empty pod name. */
  lemma OrphanSurvives(w: World, fault: Fault)
    requires Inv(w) && Orphaned(w) && w.worker.Busy? && RequestAt(w.worker.pc).Some?
    ensures ApplyWorker(w, fault).api.pod == w.api.pod && ApplyWorker(w, fault).api.id == w.api.id
    ensures w.worker.pc.Create? ==> !WorkerExchange(w, fault).1.Ok?
  {
    if !w.worker.pc.Fetch? {
      HeldJob(w);
    }
    var req := RequestAt(w.worker.pc).value;
    if req.DeletePod? {
      assert req.name == "";
    }
  }

  lemma OrphanByWorker(w: World, fault: Fault)
    requires Inv(w) && Orphaned(w) && w.worker.Busy? && RequestAt(w.worker.pc).Some?
    ensures Orphaned(ApplyWorker(w, fault))
  {
    OrphanSurvives(w, fault);
    WorkerCommits(w, fault);
    if !w.worker.pc.Fetch? {
      HeldJob(w);
    }
  }

  /** Once the recording write has failed, scheduling is never recorded and the
      job never gets its completion time, as long as the pod is not deleted
      behind the controller's back; no later reconcile repairs it. */
  lemma {:induction false} OrphanIsNeverRecorded(ws: seq<World>, ls: seq<Label>, i: nat, j: nat)
    requires IsRun(ws, ls) && i <= j < |ws| && Orphaned(ws[i])
    requires forall k :: i <= k < j ==> !ls[k].LosePod?
    ensures Orphaned(ws[j])
    ensures ws[j].api.job.Some? ==>
              ws[j].api.job.value.status.lastScheduleTime.None? && ws[j].api.job.value.status.completeTime.None?
    decreases j
  {
    if i < j {
      var k := j - 1;
      OrphanIsNeverRecorded(ws, ls, i, k);
      RunStep(ws, ls, k);
      RunInv(ws, ls, k);
      OrphanStep(ws[k], ls[k]);
    }
    RunInv(ws, ls, j);
    if ws[j].api.job.Some? {
      OrphanIsUnrecorded(ws[j]);
    }
  }

  /** A pod's creation goes unnoticed: its answer is lost; or the write that
      records it is refused or overtaken; or the controller stops before it. */
  predicate LosesPod(w: World, l: Label) {
    && w.worker.Busy?
    && match l
       case WorkerStep(fault) =>
         || (w.worker.pc.Create? && w.api.pod.None? && fault.ReplyLost?)
         || (w.worker.pc.RecordScheduled? && OwnPod(w.api) && (fault.Refused? || w.worker.base != w.api.job))
       case Restart => w.worker.pc.RecordScheduled? && OwnPod(w.api)
       case _ => false
  }

  lemma OrphanedByRecording(w: World, fault: Fault)
    requires Inv(w) && w.worker.Busy? && w.worker.pc.RecordScheduled?
    ensures Orphaned(ApplyWorker(w, fault)) <==> LosesPod(w, WorkerStep(fault))
    ensures !w.ledger.scheduled
  {
    HeldJob(w);
    WorkerLands(w, fault);
    WritesEnd(w, fault);
    WriteKeepsPod(w, fault);
  }

  lemma OrphanedByCreation(w: World, fault: Fault)
    requires Inv(w) && w.worker.Busy? && w.worker.pc.Create? && !Orphaned(w)
    ensures Orphaned(ApplyWorker(w, fault)) <==> LosesPod(w, WorkerStep(fault))
  {
    HeldJob(w);
    CreationGuard(w);
    NewPodIsOwned(w.api.id);
  }

  lemma NotOrphanedOtherwise(w: World, fault: Fault)
    requires Inv(w) && w.worker.Busy? && RequestAt(w.worker.pc).Some? && !Orphaned(w)
    requires !w.worker.pc.RecordScheduled? && !w.worker.pc.Create?
    ensures !Orphaned(ApplyWorker(w, fault))
  {
    PodExchange(w.api, RequestAt(w.worker.pc).value, fault, ByWorker(w.worker.answers));
    ExchangeFrame(w.api, RequestAt(w.worker.pc).value, fault, ByWorker(w.worker.answers));
  }

  lemma WriteKeepsPod(w: World, fault: Fault)
    requires w.worker.Busy? && Writes(w.worker.pc)
    ensures ApplyWorker(w, fault).api.pod == w.api.pod && ApplyWorker(w, fault).api.id == w.api.id
  {}

  lemma CallKeepsPod(w: World, i: nat, fault: Fault)
    requires i < |w.calls| && CallRequest(w.calls[i].pc).Some?
    ensures var w' := ApplyCall(w, i, fault);
            w'.api.driver == w.api.driver && w'.ledger.scheduled == w.ledger.scheduled && w'.worker == w.worker
  {}

  lemma OthersKeepPod(w: World, l: Label)
    requires Enabled(w, l) && !l.WorkerStep? && !l.LosePod? && !l.CallStep?
    ensures var w' := Apply(w, l);
            && w'.api.driver.Off? == w.api.driver.Off? && w'.ledger.scheduled == w.ledger.scheduled
            && (w'.worker == w.worker || l.Restart? || w.worker.Idle?)
            && (l.Restart? || l.Dequeue? ==> w'.worker.Idle? || w'.worker.pc.Fetch?)
  {}

  lemma OrphanedByOthers(w: World, l: Label)
    requires Inv(w) && Enabled(w, l) && !l.WorkerStep? && !Orphaned(w)
    ensures Orphaned(Apply(w, l)) <==> LosesPod(w, l)
  {
    DriverInPodStep(w, l);
    if l.LosePod? {
      assert Apply(w, l).api.driver.Off?;
    } else if l.CallStep? {
      CallKeepsPod(w, l.call, l.fault);
    } else {
      OthersKeepPod(w, l);
      if w.worker.Busy? && w.worker.pc.RecordScheduled? {
        OrphanedByRecording(w, Works);
      }
    }
  }

  /** The job's pod becomes an orphan exactly in these ways. */
  lemma OrphanedExactly(w: World, l: Label)
    requires Reachable(w) && Enabled(w, l) && !Orphaned(w)
    ensures Orphaned(Apply(w, l)) <==> LosesPod(w, l)
  {
    ReachableInv(w);
    if !l.WorkerStep? {
      OrphanedByOthers(w, l);
    } else if w.worker.pc.RecordScheduled? {
      OrphanedByRecording(w, l.fault);
    } else if w.worker.pc.Create? {
      OrphanedByCreation(w, l.fault);
    } else {
      NotOrphanedOtherwise(w, l.fault);
    }
  }

  // Overwritten verdicts

  /** The controller takes an unscheduled job for a new one: it records a pod, or
      the failure of a creation, on the job it read. */
  predicate StartsAnew(w: World, l: Label) {
    && l.WorkerStep? && !l.fault.Refused? && w.worker.Busy? && w.worker.base == w.api.job && w.api.job.Some?
    && (w.worker.pc.RecordScheduled? || w.worker.pc.RecordCreateFailure?)
  }

  lemma StartsAnewUnscheduled(w: World, l: Label)
    requires Reachable(w) && Enabled(w, l) && StartsAnew(w, l)
    ensures !Recorded(w.api.job)
  {
    ReachableInv(w);
    HeldJob(w);
  }

  /** The verdict it writes differs from the one that is stored. */
  predicate OverwritesVerdict(w: World, l: Label) {
    && StartsAnew(w, l)
    && (w.worker.pc.RecordCreateFailure? ==>
          var st := w.api.job.value.status;
          st.reason != FailedReason || st.message != w.worker.pc.cause.text)
  }

  /** What a worker's write to the job it read would make of a stored verdict. */
  lemma VerdictAfterWrite(w: World)
    requires Inv(w) && w.api.job.Some? && w.api.job.value.status.state == Complete
    requires w.worker.Busy? && Writes(w.worker.pc) && w.worker.base == w.api.job
    ensures var job := Committed(w.api.job.value, w.worker.pc);
            job.Some? && !SameVerdict(w.api.job.value.status, job.value.status)
            <==> OverwritesVerdict(w, WorkerStep(Works))
  {
    HeldJob(w);
  }

  lemma OverwrittenByWorker(w: World, fault: Fault)
    requires Inv(w) && w.api.job.Some? && w.api.job.value.status.state == Complete
    requires w.worker.Busy? && RequestAt(w.worker.pc).Some?
    ensures var job := ApplyWorker(w, fault).api.job;
            job.Some? && !SameVerdict(w.api.job.value.status, job.value.status)
            <==> OverwritesVerdict(w, WorkerStep(fault))
  {
    WorkerCommits(w, fault);
    if Writes(w.worker.pc) {
      WorkerLands(w, fault);
      if w.worker.base == w.api.job {
        VerdictAfterWrite(w);
      }
    }
  }

  /** A status call that takes effect says something else than is stored. */
  predicate ReportsOtherwise(w: World, l: Label)
    requires Enabled(w, l) && w.api.job.Some?
  {
    var st := w.api.job.value.status;
    l.CallStep? && TakesEffect(w, l.call, l.fault) && !SameVerdict(st, ApplyMessage(st, w.calls[l.call].msg))
  }

  /** A step changes the verdict of a Complete job exactly in two ways, however many
      pods are created and whoever asks for a cancellation: a status call that says
      otherwise takes effect, or the controller takes the job for a new one; the
      latter only while scheduling is not recorded. */
  lemma OverwrittenExactly(w: World, l: Label)
    requires Reachable(w) && Enabled(w, l) && w.api.job.Some? && w.api.job.value.status.state == Complete
    ensures var job := Apply(w, l).api.job;
            job.Some? && !SameVerdict(w.api.job.value.status, job.value.status)
            <==> OverwritesVerdict(w, l) || ReportsOtherwise(w, l)
    ensures OverwritesVerdict(w, l) ==> !Recorded(w.api.job)
  {
    ReachableInv(w);
    if l.WorkerStep? {
      OverwrittenByWorker(w, l.fault);
      if OverwritesVerdict(w, l) {
        StartsAnewUnscheduled(w, l);
      }
    } else if l.CallStep? {
      CallCommits(w, l.call, l.fault);
    } else {
      EachJobStep(w, l);
    }
  }

  // Pods left behind

  /** handleDeletion leaves a recorded pod behind exactly if its deletion was
      refused. */
  lemma PodSurvivesExactly(w: World, fault: Fault)
    requires Reachable(w) && w.worker.Busy? && w.worker.pc.DeleteForRemoval? && Recorded(w.worker.base)
    ensures OwnPod(ApplyWorker(w, fault).api) <==> OwnPod(w.api) && fault.Refused?
    ensures ApplyWorker(w, fault).worker.Busy? && ApplyWorker(w, fault).worker.pc.DetachFinalizer?
  {
    ReachableInv(w);
    HeldJob(w);
    assert RequestAt(w.worker.pc).value == DeletePod(w.api.id.name);
    PodExchange(w.api, RequestAt(w.worker.pc).value, fault, ByWorker(w.worker.answers));
  }

  /** The job is gone, the pod that was recorded for it is not. */
  predicate Leftover(w: World) {
    w.api.job.None? && w.ledger.scheduled && OwnPod(w.api)
  }

  /** The finalizer's removal goes through. */
  predicate RemovesJob(w: World, l: Label) {
    && l.WorkerStep? && !l.fault.Refused? && w.worker.Busy? && w.worker.pc.DetachFinalizer?
    && w.worker.base == w.api.job
  }

  /** A pod is left behind exactly when the finalizer of its recorded job is
      removed while it still exists. */
  lemma LeftBehindExactly(w: World, l: Label)
    requires Reachable(w) && Enabled(w, l) && !Leftover(w)
    ensures Leftover(Apply(w, l)) <==> RemovesJob(w, l) && Recorded(w.api.job) && OwnPod(w.api)
  {
    ReachableInv(w);
    if l.WorkerStep? {
      LeftByWorker(w, l.fault);
    } else {
      EachJobStep(w, l);
      DriverInPodStep(w, l);
    }
  }

  lemma LeftByWorker(w: World, fault: Fault)
    requires Inv(w) && w.worker.Busy? && RequestAt(w.worker.pc).Some? && !Leftover(w)
    ensures Leftover(ApplyWorker(w, fault))
            <==> RemovesJob(w, WorkerStep(fault)) && Recorded(w.api.job) && OwnPod(w.api)
  {
    WorkerCommits(w, fault);
    if Writes(w.worker.pc) {
      HeldJob(w);
      WorkerLands(w, fault);
      WriteKeepsPod(w, fault);
    } else if w.worker.pc.Create? {
      CreationGuard(w);
    } else {
      PodExchange(w.api, RequestAt(w.worker.pc).value, fault, ByWorker(w.worker.answers));
      ExchangeFrame(w.api, RequestAt(w.worker.pc).value, fault, ByWorker(w.worker.answers));
    }
  }

  lemma ReachesDetach(w: World, fault: Fault)
    requires Inv(w) && w.worker.Busy? && RequestAt(w.worker.pc).Some?
    requires var w' := ApplyWorker(w, fault);
             w'.worker.Busy? && w'.worker.pc.DetachFinalizer? && Recorded(w'.worker.base) && OwnPod(w'.api)
    ensures w.worker.pc.DeleteForRemoval? && fault.Refused? && OwnPod(w.api)
    ensures ApplyWorker(w, fault).worker.base == w.worker.base
  {
    if w.worker.pc.DeleteForRemoval? {
      HeldJob(w);
      assert RequestAt(w.worker.pc).value == DeletePod(w.api.id.name);
      PodExchange(w.api, RequestAt(w.worker.pc).value, fault, ByWorker(w.worker.answers));
    } else if !w.worker.pc.Fetch? {
      NoShortcut(w.worker.pc, WorkerExchange(w, fault).1);
    }
  }

  predicate Detaching(w: World) {
    w.worker.Busy? && w.worker.pc.DetachFinalizer? && Recorded(w.worker.base) && OwnPod(w.api)
  }

  predicate RefusesDeletion(w: World, l: Label) {
    l.WorkerStep? && l.fault.Refused? && w.worker.Busy? && w.worker.pc.DeleteForRemoval? && OwnPod(w.api)
  }

  lemma DetachingBefore(w: World, l: Label)
    requires Reachable(w) && Enabled(w, l) && Detaching(Apply(w, l))
    ensures RefusesDeletion(w, l) || Detaching(w)
    ensures w.worker.Busy? && w.worker.base == Apply(w, l).worker.base
  {
    ReachableInv(w);
    if l.WorkerStep? {
      ReachesDetach(w, l.fault);
    } else {
      StepFrame(w, l);
      DriverInPodStep(w, l);
    }
  }

  /** Where the round that is about to remove the finalizer had its deletion of
      the pod refused. */
  lemma {:induction false} RefusedBefore(ws: seq<World>, ls: seq<Label>, j: nat) returns (i: nat)
    requires IsRun(ws, ls) && j < |ws| && Detaching(ws[j])
    ensures i < j && RefusesDeletion(ws[i], ls[i]) && ws[i].worker.base == ws[j].worker.base
    decreases j
  {
    assert j > 0 by {
      assert ws[j].worker.Busy?;
    }
    i := j - 1;
    RunStep(ws, ls, i);
    DetachingBefore(ws[i], ls[i]);
    if !RefusesDeletion(ws[i], ls[i]) {
      i := RefusedBefore(ws, ls, i);
    }
  }

  /** So in every run a recorded pod that outlives its job goes back to one round
      of handleDeletion: its deletion of the pod was refused, and it removed the
      finalizer nevertheless. */
  lemma {:induction false} LeftoverOrigin(ws: seq<World>, ls: seq<Label>, j: nat) returns (i: nat, k: nat)
    requires IsRun(ws, ls) && j < |ws| && Leftover(ws[j])
    ensures i < k < j && RefusesDeletion(ws[i], ls[i]) && RemovesJob(ws[k], ls[k])
    ensures ws[k].worker.base == ws[i].worker.base
    decreases j
  {
    assert j > 0;
    k := j - 1;
    RunStep(ws, ls, k);
    if Leftover(ws[k]) {
      i, k := LeftoverOrigin(ws, ls, k);
    } else {
      LeftBehindExactly(ws[k], ls[k]);
      i := RefusedBefore(ws, ls, k);
    }
  }

  // Cancellations

  /** handleCancel's lookup works and finds the job's pod. */
  predicate FindsPod(w: World, l: Label) {
    l.WorkerStep? && l.fault.Works? && OwnPod(w.api)
  }

  /** handleCancel goes on to delete the pod exactly if its lookup worked and found
      it; after any other answer, a refused or lost one too, it takes the pod for
      gone and goes on to store a failure. */
  lemma LookupDecides(w: World, fault: Fault)
    requires Reachable(w) && w.worker.Busy? && w.worker.pc.InspectCancelled?
    ensures var w' := ApplyWorker(w, fault);
            && w'.api == w.api && w'.worker.Busy? && w'.worker.base == w.worker.base
            && (w'.worker.pc.DeleteCancelled? <==> FindsPod(w, WorkerStep(fault)))
            && (w'.worker.pc.DeleteCancelled? || (w'.worker.pc.RecordCancel?
                                                  && w'.worker.pc.job.status.reason == FailedReason))
  {
    ReachableInv(w);
    HeldJob(w);
  }

  /** Only a lookup leads to the deletion, and only these two to the write. */
  lemma CancelPath(pc: Pc, r: Response)
    ensures Resume(pc, r).DeleteCancelled? ==> pc.InspectCancelled?
    ensures Resume(pc, r).RecordCancel? ==>
              pc.InspectCancelled? || (pc.DeleteCancelled? && Resume(pc, r).job == pc.job)
    ensures !pc.Fetch? && pc.DeleteCancelled? ==> !Resume(pc, r).DeleteCancelled?
  {}

  /** Past its lookup, a cancelling handler holds the reason the lookup decided. */
  predicate Decided(pc: Pc, found: bool) {
    && (pc.DeleteCancelled? || pc.RecordCancel?)
    && pc.job.status.state == Complete
    && (pc.DeleteCancelled? ==> found)
    && pc.job.status.reason == if found then CancelledReason else FailedReason
  }

  predicate LooksUp(w: World, l: Label) {
    l.WorkerStep? && w.worker.Busy? && w.worker.pc.InspectCancelled?
  }

  lemma DecidedAfterLookup(w: World, fault: Fault)
    requires Reachable(w) && w.worker.Busy? && w.worker.pc.InspectCancelled?
    ensures Decided(ApplyWorker(w, fault).worker.pc, FindsPod(w, WorkerStep(fault)))
    ensures ApplyWorker(w, fault).worker.base == w.worker.base
  {
    ReachableInv(w);
    HeldJob(w);
    LookupDecides(w, fault);
  }

  predicate Cancelling(w: World) {
    w.worker.Busy? && (w.worker.pc.DeleteCancelled? || w.worker.pc.RecordCancel?)
  }

  lemma CancellingBefore(w: World, l: Label)
    requires Reachable(w) && Enabled(w, l) && Cancelling(Apply(w, l)) && !LooksUp(w, l)
    ensures Cancelling(w) && Apply(w, l).worker.base == w.worker.base
    ensures Apply(w, l).worker.pc == w.worker.pc
            || (w.worker.pc.DeleteCancelled? && Apply(w, l).worker.pc == RecordCancel(w.worker.pc.job))
  {
    ReachableInv(w);
    if l.WorkerStep? {
      CancelPath(w.worker.pc, WorkerExchange(w, l.fault).1);
    } else {
      StepFrame(w, l);
    }
  }

  lemma {:induction false} LookupBefore(ws: seq<World>, ls: seq<Label>, j: nat) returns (i: nat)
    requires IsRun(ws, ls) && j < |ws| && Cancelling(ws[j])
    ensures i < j && LooksUp(ws[i], ls[i])
    ensures ws[i].worker.base == ws[j].worker.base && Decided(ws[j].worker.pc, FindsPod(ws[i], ls[i]))
    decreases j
  {
    assert j > 0;
    i := j - 1;
    RunStep(ws, ls, i);
    if LooksUp(ws[i], ls[i]) {
      DecidedAfterLookup(ws[i], ls[i].fault);
    } else {
      CancellingBefore(ws[i], ls[i]);
      i := LookupBefore(ws, ls, i);
    }
  }

  lemma CancellationCommits(w: World, fault: Fault, found: bool)
    requires Reachable(w) && w.worker.Busy? && w.worker.pc.RecordCancel? && Decided(w.worker.pc, found)
    requires ApplyWorker(w, fault).api.job != w.api.job
    ensures w.worker.base == w.api.job && ApplyWorker(w, fault).api.job.Some?
    ensures var st := ApplyWorker(w, fault).api.job.value.status;
            st.state == Complete && st.reason == if found then CancelledReason else FailedReason
  {
    ReachableInv(w);
    WorkerCommits(w, fault);
  }

  /** In every run, a cancellation that handleCancel stores is stored as Complete,
      and as Cancelled exactly if the lookup of the same round worked and found the
      job's pod; otherwise as Failed. */
  lemma CancelledExactly(ws: seq<World>, ls: seq<Label>, j: nat) returns (i: nat)
    requires IsRun(ws, ls) && j < |ls| && ls[j].WorkerStep? && ws[j].worker.Busy?
    requires ws[j].worker.pc.RecordCancel? && ws[j + 1].api.job != ws[j].api.job
    ensures i < j && LooksUp(ws[i], ls[i]) && ws[i].worker.base == ws[j].worker.base == ws[j].api.job
    ensures ws[j + 1].api.job.Some?
    ensures var st := ws[j + 1].api.job.value.status;
            && st.state == Complete
            && (st.reason == CancelledReason <==> FindsPod(ws[i], ls[i]))
            && (st.reason == FailedReason <==> !FindsPod(ws[i], ls[i]))
  {
    RunStep(ws, ls, j);
    i := LookupBefore(ws, ls, j);
    CancellationCommits(ws[j], ls[j].fault, FindsPod(ws[i], ls[i]));
  }

  /** handleCancel's own write goes through. */
  predicate CompletesCancel(w: World, l: Label) {
    l.WorkerStep? && !l.fault.Refused? && w.worker.Busy? && w.worker.pc.RecordCancel? && w.worker.base == w.api.job
  }

  predicate DriverReports(w: World, l: Label)
    requires Enabled(w, l)
  {
    l.CallStep? && w.calls[l.call].fromDriver && TakesEffect(w, l.call, l.fault)
  }

  lemma CancelLeftByWorker(w: World, fault: Fault)
    requires Inv(w) && w.api.job.Some? && w.api.job.value.status.state == Cancelled
    requires w.worker.Busy? && RequestAt(w.worker.pc).Some?
    ensures var job := ApplyWorker(w, fault).api.job;
            job.Some? && job.value.status.state != Cancelled
            <==> CompletesCancel(w, WorkerStep(fault)) || StartsAnew(w, WorkerStep(fault))
  {
    WorkerCommits(w, fault);
    if Writes(w.worker.pc) {
      HeldJob(w);
      WorkerLands(w, fault);
    }
  }

  /** A stored cancel request gives way to another state exactly in three ways:
      handleCancel completes it; or it is lost, since the controller takes the job
      for a new one, only while scheduling is not recorded, or since a message of a
      driver takes effect after it. */
  lemma CancelLeftExactly(w: World, l: Label)
    requires Reachable(w) && Enabled(w, l) && w.api.job.Some? && w.api.job.value.status.state == Cancelled
    ensures var job := Apply(w, l).api.job;
            job.Some? && job.value.status.state != Cancelled
            <==> CompletesCancel(w, l) || StartsAnew(w, l) || DriverReports(w, l)
    ensures StartsAnew(w, l) ==> !Recorded(w.api.job)
  {
    ReachableInv(w);
    if l.WorkerStep? {
      CancelLeftByWorker(w, l.fault);
      if StartsAnew(w, l) {
        StartsAnewUnscheduled(w, l);
      }
    } else if l.CallStep? {
      CallCommits(w, l.call, l.fault);
      assert MessageOk(w.calls[l.call]);
    } else {
      EachJobStep(w, l);
    }
  }
}
