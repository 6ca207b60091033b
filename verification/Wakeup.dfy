/** The work queue: a job that still needs work is never forgotten, and the
    controller's own writes do not keep it busy. */
module Wakeup {
  import opened Options
  import opened Types
  import opened Handlers
  import opened Calls
  import opened Protocol
  import opened Snapshots
  import opened Commits
  import opened Lifecycle

  predicate NeedsWork(job: Option<Job>) {
    job.Some? &&
    if job.value.deleting then job.value.finalizer
    else !(job.value.status.state == Complete && job.value.status.completeTime.Some?)
  }

  predicate Pending(w: World) {
    w.worker.Busy? || w.api.queued || w.timer || w.backoff
  }

  /** Nothing will ever look at the job again by itself. */
  predicate Stranded(w: World) {
    NeedsWork(w.api.job) && !Pending(w)
  }

  /** A worker holding an outdated job will be followed by another reconcile. */
  predicate StaleQueued(w: World) {
    w.worker.Busy? && w.worker.base.Some? && w.api.job.Some? && w.worker.base != w.api.job ==> w.api.queued
  }

  predicate WakeupInv(w: World) {
    (!w.ledger.swallowed ==> !Stranded(w)) && StaleQueued(w)
  }

  /** A write that is not refused queues the job or removes it, even if its answer
      is lost; unless it changes nothing, which only the write of a failed creation
      can come to. */
  lemma AcknowledgedWrite(w: World, fault: Fault)
    requires SnapshotInv(w) && LifecycleInv(w) && StaleQueued(w)
    requires w.worker.Busy? && Writes(w.worker.pc) && !fault.Refused?
    ensures var api := WorkerExchange(w, fault).0;
            || api.job.None? || api.queued
            || (w.worker.pc.RecordCreateFailure? && w.worker.base == w.api.job
                && w.worker.pc.job.status == w.worker.base.value.status)
  {
    HeldJob(w);
    ExchangeFrame(w.api, RequestAt(w.worker.pc).value, fault, ByWorker(w.worker.answers));
    WorkerLands(w, fault);
  }

  /** handleComplete's write is refused, and nothing else is pending. */
  predicate DropsWakeup(w: World, l: Label) {
    && l.WorkerStep? && w.worker.Busy? && w.worker.pc.RecordFinish? && l.fault.Refused?
    && !w.api.queued && !w.timer && !w.backoff
  }

  lemma WriteStrands(w: World, fault: Fault)
    requires SnapshotInv(w) && LifecycleInv(w) && StaleQueued(w)
    requires w.worker.Busy? && RequestAt(w.worker.pc).Some? && Writes(w.worker.pc)
    ensures StaleQueued(ApplyWorker(w, fault))
    ensures Stranded(ApplyWorker(w, fault)) <==> DropsWakeup(w, WorkerStep(fault))
  {
    var pc := w.worker.pc;
    ExchangeFrame(w.api, RequestAt(pc).value, fault, ByWorker(w.worker.answers));
    WritesEnd(w, fault);
    WorkerCommits(w, fault);
    if fault.Refused? {
      HeldJob(w);
    } else {
      AcknowledgedWrite(w, fault);
    }
  }

  lemma ReadStrands(w: World, fault: Fault)
    requires SnapshotInv(w) && LifecycleInv(w) && StaleQueued(w)
    requires w.worker.Busy? && RequestAt(w.worker.pc).Some? && !Writes(w.worker.pc)
    ensures StaleQueued(ApplyWorker(w, fault)) && !Stranded(ApplyWorker(w, fault))
  {
    var pc := w.worker.pc;
    ExchangeFrame(w.api, RequestAt(pc).value, fault, ByWorker(w.worker.answers));
    WorkerResumes(w, fault);
    OthersKeepJob(w.api, RequestAt(pc).value, fault, ByWorker(w.worker.answers));
    if !pc.Fetch? {
      HeldJob(w);
    }
  }

  lemma StaleQueuedStep(w: World, l: Label)
    requires SnapshotInv(w) && LifecycleInv(w) && StaleQueued(w) && Enabled(w, l)
    ensures StaleQueued(Apply(w, l))
  {
    if l.WorkerStep? {
      if Writes(w.worker.pc) {
        WriteStrands(w, l.fault);
      } else {
        ReadStrands(w, l.fault);
      }
    } else if l.CallStep? {
      ExchangeFrame(w.api, CallRequest(w.calls[l.call].pc).value, l.fault, ByCall(w.calls[l.call].msg));
    }
  }

  /** A step strands a job exactly when it is the refusal of a completion write,
      which handleComplete does not pass on, with nothing else pending. */
  lemma StrandsExactly(w: World, l: Label)
    requires SnapshotInv(w) && LifecycleInv(w) && StaleQueued(w) && Enabled(w, l) && !Stranded(w)
    ensures Stranded(Apply(w, l)) <==> DropsWakeup(w, l)
  {
    if l.WorkerStep? {
      if Writes(w.worker.pc) {
        WriteStrands(w, l.fault);
      } else {
        ReadStrands(w, l.fault);
      }
    } else if l.CallStep? {
      ExchangeFrame(w.api, CallRequest(w.calls[l.call].pc).value, l.fault, ByCall(w.calls[l.call].msg));
    }
  }

  lemma WakeupStep(w: World, l: Label)
    requires SnapshotInv(w) && LifecycleInv(w) && WakeupInv(w) && Enabled(w, l)
    ensures WakeupInv(Apply(w, l))
  {
    StaleQueuedStep(w, l);
    if !Stranded(w) {
      StrandsExactly(w, l);
    }
  }

  /** How many status writes the controller still owes a scheduled job. */
  function Rank(st: Status): nat {
    (if st.state == Complete then 0 else 1) + (if st.completeTime.None? then 1 else 0)
  }

  predicate QuietInv(w: World) {
    && (w.api.job.Some? && !Recorded(w.api.job) ==> w.ledger.workerWrites == 0 && w.ledger.callWrites == 0)
    && (Recorded(w.api.job) ==>
          w.ledger.workerWrites + Rank(w.api.job.value.status) <= w.ledger.callWrites + 2)
    && w.ledger.workerWrites <= w.ledger.callWrites + 2
  }

  lemma QuietByWorker(w: World, fault: Fault)
    requires SnapshotInv(w) && LifecycleInv(w) && QuietInv(w) && w.worker.Busy? && RequestAt(w.worker.pc).Some?
    ensures QuietInv(ApplyWorker(w, fault))
  {
    WorkerCommits(w, fault);
    if !w.worker.pc.Fetch? {
      HeldJob(w);
    }
  }

  lemma QuietStep(w: World, l: Label)
    requires SnapshotInv(w) && LifecycleInv(w) && QuietInv(w) && Enabled(w, l)
    ensures QuietInv(Apply(w, l))
  {
    if l.WorkerStep? {
      QuietByWorker(w, l.fault);
    } else {
      EachJobStep(w, l);
    }
  }
}
