/** What the stored verdict means while the job's pod has been created at most
    once: no false success, and the driver's verdict stands. */
module Verdict {
  import opened Options
  import opened Types
  import opened Handlers
  import opened Calls
  import opened Protocol
  import opened Snapshots
  import opened Commits
  import opened Lifecycle
  import opened Cleanup
  import opened DriverEvidence

  /** The status carries everything the message says. */
  predicate Shows(st: Status, m: Message) {
    && st.state == m.state && st.reason == m.reason
    && (m.text != "" ==> st.message == m.text)
    && (m.results.Some? ==> st.results == m.results.value)
  }

  /** A stored status against the messages that took effect. */
  predicate Fits(job: Option<Job>, f: Effects) {
    job.Some? ==>
      var st := job.value.status;
      && (st.state == Running ==> f.running && f.verdict.None?)
      && (st.state == Scheduled ==> !f.running)
      && (f.verdict.Some? ==> st.state == Complete || st.state == Cancelled)
      && (st.state == Complete && st.reason == SucceedReason ==> f.verdict.Some? && Shows(st, f.verdict.value))
      && (Recorded(job) && f.verdict.Some? && !f.cancelled ==> Shows(st, f.verdict.value))
  }

  predicate StoredKnown(w: World) {
    Fits(w.api.job, w.effects)
  }

  ghost predicate HeldKnown(w: World) {
    w.worker.Busy? && w.worker.base.Some? ==>
      && (w.worker.pc.RecordScheduled? && w.effects.running && w.api.job.Some? ==>
            w.worker.base.value.version < w.api.job.value.version)
      && (w.worker.pc.RecordPodDone? && w.worker.pc.job.status.reason == SucceedReason ==> w.effects.verdict.Some?)
  }

  ghost predicate Base(w: World) {
    SnapshotInv(w) && LifecycleInv(w) && CleanupInv(w) && ReportsProven(w)
  }

  lemma BaseStep(w: World, l: Label)
    requires Base(w) && Enabled(w, l)
    ensures Base(Apply(w, l))
  {
    SnapshotsStep(w, l);
    LifecycleStep(w, l);
    CleanupStep(w, l);
    ReportsProvenStep(w, l);
  }

  /** checkScheduledPod's own success is never stored: when it has seen the exit
      code 0 the driver's report has taken effect, so the job is not the one that
      was read any more. */
  lemma SuccessNeverCommits(w: World, fault: Fault)
    requires Base(w) && Known(w) && StoredKnown(w) && HeldKnown(w)
    requires w.worker.Busy? && w.worker.pc.RecordPodDone? && w.worker.pc.job.status.reason == SucceedReason
    ensures ApplyWorker(w, fault).api.job == w.api.job
    ensures fault.Works? ==> WorkerExchange(w, fault).1.Err?
  {
    HeldJob(w);
    WorkerCommits(w, fault);
  }

  /** What a handler writes to an unscheduled job it read agrees with what is
      known; so does what it writes to a scheduled one. */
  lemma NewWriteAgrees(w: World)
    requires Base(w) && Known(w) && StoredKnown(w) && HeldKnown(w)
    requires w.worker.Busy? && Writes(w.worker.pc) && w.api.job.Some? && w.worker.base == w.api.job
    requires w.worker.pc.RecordScheduled? || w.worker.pc.RecordCreateFailure? || WritesMetadata(w.worker.pc)
    ensures Fits(Committed(w.api.job.value, w.worker.pc), w.effects)
  {
    HeldJob(w);
  }

  lemma OldWriteAgrees(w: World)
    requires Base(w) && Known(w) && StoredKnown(w)
    requires w.worker.Busy? && WritesStatus(w.worker.pc) && w.api.job.Some? && w.worker.base == w.api.job
    requires !w.worker.pc.RecordScheduled? && !w.worker.pc.RecordCreateFailure?
    requires !(w.worker.pc.RecordPodDone? && w.worker.pc.job.status.reason == SucceedReason)
    ensures Fits(Committed(w.api.job.value, w.worker.pc), w.effects)
  {
    HeldJob(w);
  }

  lemma StoredByWorker(w: World, fault: Fault)
    requires Base(w) && Known(w) && StoredKnown(w) && HeldKnown(w)
    requires w.worker.Busy? && RequestAt(w.worker.pc).Some?
    ensures StoredKnown(ApplyWorker(w, fault))
  {
    var job := ApplyWorker(w, fault).api.job;
    WorkerCommits(w, fault);
    if job != w.api.job {
      if w.worker.pc.RecordPodDone? && w.worker.pc.job.status.reason == SucceedReason {
        SuccessNeverCommits(w, fault);
      } else if w.worker.pc.RecordScheduled? || w.worker.pc.RecordCreateFailure? || WritesMetadata(w.worker.pc) {
        NewWriteAgrees(w);
      } else {
        OldWriteAgrees(w);
      }
    }
  }

  /** A driver's message takes effect once. */
  lemma FirstEffect(w: World, i: nat, fault: Fault)
    requires Base(w) && Known(w) && i < |w.calls| && CallRequest(w.calls[i].pc).Some?
    requires TakesEffect(w, i, fault) && w.calls[i].fromDriver
    ensures w.effects.verdict.None?
    ensures w.calls[i].msg == RUNNING_MESSAGE ==> !w.effects.running
    ensures w.calls[i].msg != RUNNING_MESSAGE ==> IsReport(w.calls[i].msg)
  {}

  lemma StoredByCall(w: World, i: nat, fault: Fault)
    requires Base(w) && Known(w) && StoredKnown(w)
    requires i < |w.calls| && CallRequest(w.calls[i].pc).Some?
    ensures StoredKnown(ApplyCall(w, i, fault))
  {
    CallCommits(w, i, fault);
    assert MessageOk(w.calls[i]);
    if TakesEffect(w, i, fault) && w.calls[i].fromDriver {
      FirstEffect(w, i, fault);
    }
  }

  lemma HeldByCall(w: World, i: nat, fault: Fault)
    requires Base(w) && Known(w) && StoredKnown(w) && HeldKnown(w)
    requires i < |w.calls| && CallRequest(w.calls[i].pc).Some?
    ensures HeldKnown(ApplyCall(w, i, fault))
  {
    CallCommits(w, i, fault);
    assert MessageOk(w.calls[i]);
    if TakesEffect(w, i, fault) && w.calls[i].fromDriver {
      FirstEffect(w, i, fault);
    }
  }

  /** An exit code 0 read off the job's own pod is the driver's. */
  lemma InspectedExit(w: World, fault: Fault)
    requires Base(w) && Known(w) && w.worker.Busy? && w.worker.pc.Inspect?
    ensures var pc' := Resume(w.worker.pc, WorkerExchange(w, fault).1);
            pc'.RecordPodDone? && pc'.job.status.reason == SucceedReason ==> w.effects.verdict.Some?
  {
    HeldJob(w);
    var r := WorkerExchange(w, fault).1;
    assert r.PodIs? ==> r.pod == w.api.pod.value;
  }

  lemma OnlyInspectReads(pc: Pc, r: Response)
    ensures Resume(pc, r).RecordPodDone? ==> pc.Inspect?
    ensures Resume(pc, r).RecordScheduled? ==> pc.Create? && r.Ok?
  {}

  lemma HeldByWorker(w: World, fault: Fault)
    requires Base(w) && w.worker.Busy? && RequestAt(w.worker.pc).Some?
    requires Known(w)
    requires ApplyWorker(w, fault).api.creations <= 1
    ensures HeldKnown(ApplyWorker(w, fault))
  {
    var pc, r := w.worker.pc, WorkerExchange(w, fault).1;
    OnlyInspectReads(pc, r);
    if pc.Create? {
      assert r.Ok? ==> w.api.creations == 0;
    } else if pc.Inspect? {
      InspectedExit(w, fault);
    }
  }

  lemma KeptByOthers(w: World, l: Label)
    requires Base(w) && StoredKnown(w) && HeldKnown(w) && Enabled(w, l) && !l.WorkerStep? && !l.CallStep?
    ensures StoredKnown(Apply(w, l)) && HeldKnown(Apply(w, l))
  {
    EachJobStep(w, l);
    StepFrame(w, l);
    assert Apply(w, l).effects == w.effects;
  }

  lemma VerdictStep(w: World, l: Label)
    requires Base(w) && Enabled(w, l)
    requires w.api.creations <= 1 ==> Known(w) && StoredKnown(w) && HeldKnown(w)
    requires Apply(w, l).api.creations <= 1
    ensures Known(Apply(w, l)) && StoredKnown(Apply(w, l)) && HeldKnown(Apply(w, l))
  {
    DriverInPodStep(w, l);
    KnownStep(w, l);
    if l.WorkerStep? {
      StoredByWorker(w, l.fault);
      HeldByWorker(w, l.fault);
    } else if l.CallStep? {
      StoredByCall(w, l.call, l.fault);
      HeldByCall(w, l.call, l.fault);
    } else {
      KeptByOthers(w, l);
    }
  }
}
