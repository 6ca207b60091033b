/** The lifecycle stamps and the finalizer, over every interleaving. */
module Lifecycle {
  import opened Types
  import opened Handlers
  import opened Calls
  import opened Protocol
  import opened Snapshots
  import opened Commits

  predicate StoredOk(j: Job, now: Time) {
    var st := j.status;
    && st.state != New
    && (j.deleting ==> j.finalizer)
    && st.podName == (if st.lastScheduleTime.None? then "" else j.id.name)
    && (st.lastScheduleTime.Some? ==>
          && j.finalizer && st.lastScheduleTime.value <= now
          && st.state in {Scheduled, Running, Complete, Cancelled})
    && (st.completeTime.Some? ==>
          st.lastScheduleTime.Some? && st.lastScheduleTime.value <= st.completeTime.value <= now)
  }

  /** What nobody but the worker writes. */
  predicate SameMarks(base: Job, job: Job) {
    && base.finalizer == job.finalizer
    && base.status.lastScheduleTime == job.status.lastScheduleTime
    && base.status.completeTime == job.status.completeTime
    && (base.deleting ==> job.deleting)
  }

  ghost predicate StampOk(base: Job, pc: Pc, now: Time) {
    match pc
    case Create(_, at) => at <= now
    case RecordScheduled(job) => job.status.lastScheduleTime.Some? && job.status.lastScheduleTime.value <= now
    case RecordFinish(job) =>
      && base.status.lastScheduleTime.Some? && job.status.completeTime.Some?
      && base.status.lastScheduleTime.value <= job.status.completeTime.value <= now
    case _ => true
  }

  ghost predicate WorkerStamps(w: World) {
    w.worker.Busy? && w.worker.base.Some? ==>
      var base := w.worker.base.value;
      && StoredOk(base, w.api.now) && StampOk(base, w.worker.pc, w.api.now)
      && (w.api.job.Some? ==> SameMarks(base, w.api.job.value))
      && (base.finalizer ==> w.api.job.Some?)
  }

  predicate IsReport(m: Message) {
    m.state == Complete && (m.reason == SucceedReason || m.reason == FailedReason)
  }

  predicate MessageOk(c: Call) {
    if c.fromDriver then c.msg == RUNNING_MESSAGE || IsReport(c.msg) else c.msg.state == Cancelled
  }

  ghost predicate LifecycleInv(w: World) {
    && (w.api.job.Some? ==> StoredOk(w.api.job.value, w.api.now))
    && WorkerStamps(w)
    && (forall i :: 0 <= i < |w.calls| ==> MessageOk(w.calls[i]))
    && DriverReportOk(w.api.driver)
    && ScheduledOk(w)
  }

  lemma ClockAdvances(w: World, l: Label)
    requires Enabled(w, l)
    ensures w.api.now <= Apply(w, l).api.now
  {
    if l.WorkerStep? {
      ExchangeFrame(w.api, RequestAt(w.worker.pc).value, l.fault, ByWorker(w.worker.answers));
    } else if l.CallStep? {
      ExchangeFrame(w.api, CallRequest(w.calls[l.call].pc).value, l.fault, ByCall(w.calls[l.call].msg));
    }
  }

  /** What a handler writes to the job it read is well-formed. */
  lemma CommittedOk(job: Job, pc: Pc, now: Time)
    requires Coherent(job, pc) && Writes(pc) && StoredOk(job, now) && StampOk(job, pc, now)
    ensures Committed(job, pc).Some? ==> StoredOk(Committed(job, pc).value, now)
  {}

  lemma WrittenOk(w: World, fault: Fault)
    requires SnapshotInv(w) && LifecycleInv(w) && w.worker.Busy? && RequestAt(w.worker.pc).Some?
    ensures var job := ApplyWorker(w, fault).api.job; job.Some? ==> StoredOk(job.value, w.api.now)
  {
    WorkerCommits(w, fault);
    if Writes(w.worker.pc) {
      HeldJob(w);
      CommittedOk(w.worker.base.value, w.worker.pc, w.api.now);
    }
  }

  /** Each committed write leaves a well-formed job. */
  lemma StoredStep(w: World, l: Label)
    requires SnapshotInv(w) && LifecycleInv(w) && Enabled(w, l)
    ensures var w' := Apply(w, l); w'.api.job.Some? ==> StoredOk(w'.api.job.value, w'.api.now)
  {
    ClockAdvances(w, l);
    if l.WorkerStep? {
      WrittenOk(w, l.fault);
    } else {
      EachJobStep(w, l);
      if l.CallStep? {
        assert MessageOk(w.calls[l.call]);
      }
    }
  }

  /** Only the worker's own writes touch the marks it relies on. */
  lemma MarksStep(w: World, l: Label, base: Job)
    requires SnapshotInv(w) && Enabled(w, l) && !l.WorkerStep?
    requires w.api.job.Some? ==> SameMarks(base, w.api.job.value)
    requires base.finalizer ==> w.api.job.Some?
    ensures var w' := Apply(w, l);
            (w'.api.job.Some? ==> SameMarks(base, w'.api.job.value)) && (base.finalizer ==> w'.api.job.Some?)
  {
    EachJobStep(w, l);
  }

  /** A handler goes on only as long as it has not written. */
  lemma WritesEnd(w: World, fault: Fault)
    requires SnapshotInv(w) && w.worker.Busy? && RequestAt(w.worker.pc).Some? && Writes(w.worker.pc)
    ensures ApplyWorker(w, fault).worker.Idle?
  {
    WorkerCommits(w, fault);
  }

  lemma ContinuingWorker(w: World, fault: Fault)
    requires SnapshotInv(w) && w.worker.Busy? && RequestAt(w.worker.pc).Some?
    ensures var w' := ApplyWorker(w, fault);
            && w'.api.now == w.api.now
            && (w'.worker.Busy? ==>
                  && !Writes(w.worker.pc) && w'.api.job == w.api.job
                  && (w.worker.pc.Fetch? ==> w.api.job.Some? && w'.worker.base == w.api.job
                                             && w'.worker.pc == Dispatch(w.api.job.value))
                  && (!w.worker.pc.Fetch? ==>
                        && w'.worker.base == w.worker.base
                        && exists r :: w'.worker.pc == Resume(w.worker.pc, r)
                                       && (r.TimeIs? ==> r.time == w.api.now)))
  {
    var pc := w.worker.pc;
    ExchangeFrame(w.api, RequestAt(pc).value, fault, ByWorker(w.worker.answers));
    if Writes(pc) {
      WritesEnd(w, fault);
    } else {
      OthersKeepJob(w.api, RequestAt(pc).value, fault, ByWorker(w.worker.answers));
      var r := WorkerExchange(w, fault).1;
      assert r.TimeIs? ==> r.time == w.api.now;
      assert !pc.Fetch? && !Resume(pc, r).Returned? ==> ApplyWorker(w, fault).worker.pc == Resume(pc, r);
    }
  }

  lemma StampResumes(base: Job, pc: Pc, r: Response, now: Time)
    requires Coherent(base, pc) && StoredOk(base, now) && StampOk(base, pc, now)
    requires r.TimeIs? ==> r.time == now
    ensures StampOk(base, Resume(pc, r), now)
  {}

  lemma StampsByWorker(w: World, fault: Fault)
    requires SnapshotInv(w) && LifecycleInv(w) && w.worker.Busy? && RequestAt(w.worker.pc).Some?
    ensures WorkerStamps(ApplyWorker(w, fault))
  {
    var w' := ApplyWorker(w, fault);
    ContinuingWorker(w, fault);
    if w'.worker.Busy? && !w.worker.pc.Fetch? {
      HeldJob(w);
      var r :| w'.worker.pc == Resume(w.worker.pc, r) && (r.TimeIs? ==> r.time == w.api.now);
      StampResumes(w.worker.base.value, w.worker.pc, r, w.api.now);
    }
  }

  lemma WorkerStampsStep(w: World, l: Label)
    requires SnapshotInv(w) && LifecycleInv(w) && Enabled(w, l)
    ensures WorkerStamps(Apply(w, l))
  {
    if l.WorkerStep? {
      StampsByWorker(w, l.fault);
    } else {
      ClockAdvances(w, l);
      StepFrame(w, l);
      if w.worker.Busy? && w.worker.base.Some? {
        MarksStep(w, l, w.worker.base.value);
      }
    }
  }

  lemma MessagesStep(w: World, l: Label)
    requires LifecycleInv(w) && Enabled(w, l)
    ensures var w' := Apply(w, l); forall i :: 0 <= i < |w'.calls| ==> MessageOk(w'.calls[i])
  {
    if l.WorkerStep? {
      ExchangeFrame(w.api, RequestAt(w.worker.pc).value, l.fault, ByWorker(w.worker.answers));
    } else if l.CallStep? {
      ExchangeFrame(w.api, CallRequest(w.calls[l.call].pc).value, l.fault, ByCall(w.calls[l.call].msg));
    }
  }

  predicate DriverReportOk(d: Driver) {
    !d.Off? && d.pc.SendComplete? ==> IsReport(d.pc.msg)
  }

  lemma DriverReportByOthers(w: World, l: Label)
    requires DriverReportOk(w.api.driver) && Enabled(w, l) && !l.WorkerStep? && !l.CallStep?
    ensures DriverReportOk(Apply(w, l).api.driver)
  {}

  lemma DriverReportStep(w: World, l: Label)
    requires DriverReportOk(w.api.driver) && Enabled(w, l)
    ensures DriverReportOk(Apply(w, l).api.driver)
  {
    if l.WorkerStep? {
      ExchangeFrame(w.api, RequestAt(w.worker.pc).value, l.fault, ByWorker(w.worker.answers));
    } else if l.CallStep? {
      ExchangeFrame(w.api, CallRequest(w.calls[l.call].pc).value, l.fault, ByCall(w.calls[l.call].msg));
    } else {
      DriverReportByOthers(w, l);
    }
  }

  predicate ScheduledOk(w: World) {
    && (w.ledger.scheduled ==> w.api.job.None? || Recorded(w.api.job))
    && (Recorded(w.api.job) ==> w.ledger.scheduled)
  }

  lemma ScheduledStep(w: World, l: Label)
    requires SnapshotInv(w) && LifecycleInv(w) && Enabled(w, l)
    ensures ScheduledOk(Apply(w, l))
  {
    EachJobStep(w, l);
    if l.WorkerStep? && !w.worker.pc.Fetch? {
      HeldJob(w);
    }
  }

  lemma LifecycleStep(w: World, l: Label)
    requires SnapshotInv(w) && LifecycleInv(w) && Enabled(w, l)
    ensures LifecycleInv(Apply(w, l))
  {
    StoredStep(w, l);
    WorkerStampsStep(w, l);
    MessagesStep(w, l);
    DriverReportStep(w, l);
    ScheduledStep(w, l);
  }
}
