/** Every committed write is its handler's write to the job as stored at that
    moment, although the handler read the job earlier. */
module Commits {
  import opened Options
  import opened Types
  import opened Handlers
  import opened Calls
  import opened Protocol
  import opened Snapshots

  predicate Writes(pc: Pc) {
    WritesStatus(pc) || WritesMetadata(pc)
  }

  /** The stored job after the write a handler at `pc` makes to `job`. */
  function Committed(job: Job, pc: Pc): Option<Job>
    requires Writes(pc)
  {
    if WritesStatus(pc) then Some(job.(status := pc.job.status, version := job.version + 1))
    else if job.deleting && !pc.job.finalizer then None
    else Some(job.(finalizer := pc.job.finalizer, version := job.version + 1))
  }

  function Called(job: Job, msg: Message): Option<Job> {
    Some(job.(status := ApplyMessage(job.status, msg), version := job.version + 1))
  }

  lemma HeldJob(w: World)
    requires SnapshotInv(w) && w.worker.Busy? && !w.worker.pc.Fetch?
    ensures Coherent(w.worker.base.value, w.worker.pc)
    ensures Writes(w.worker.pc) ==>
              w.worker.pc.job.version == w.worker.base.value.version && w.worker.pc.job.id == w.api.id
  {
    DriveCoherent(w.worker.base.value, w.worker.answers);
  }

  predicate SameVersion(c: Cluster, job: Job) {
    c.job.Some? && c.job.value.version == job.version
  }

  lemma StatusCommits(c: Cluster, job: Job, fault: Fault, action: Action)
    ensures var (c1, r) := Exchange(c, UpdateStatus(job), fault, action);
            && (c1.job == c.job
                || (SameVersion(c, job)
                    && c1.job == Some(c.job.value.(status := job.status, version := c.job.value.version + 1))))
            && (r.Ok? ==> SameVersion(c, job) && (c1.job != c.job || job.status == c.job.value.status))
            && (r.Err? && fault.Works? ==> !SameVersion(c, job))
            && (r.Ok? || r.Err?)
  {}

  lemma MetadataCommits(c: Cluster, job: Job, fault: Fault, action: Action)
    ensures var (c1, r) := Exchange(c, Update(job), fault, action);
            && (c1.job == c.job
                || (SameVersion(c, job)
                    && c1.job == if c.job.value.deleting && !job.finalizer then None
                                 else Some(c.job.value.(finalizer := job.finalizer, version := c.job.value.version + 1))))
            && (r.Ok? ==> SameVersion(c, job) && (c1.job != c.job || job.finalizer == c.job.value.finalizer))
            && (r.Err? && fault.Works? ==> !SameVersion(c, job))
            && (r.Ok? || r.Err?)
  {}

  lemma OthersKeepJob(c: Cluster, req: Request, fault: Fault, action: Action)
    requires !req.Update? && !req.UpdateStatus?
    ensures Exchange(c, req, fault, action).0.job == c.job
  {}

  /** The worker's write lands only on the job it had read; it is acknowledged
      only if it lands or changes nothing, and turned down by a working server
      only if the stored job has moved on. */
  lemma WorkerCommits(w: World, fault: Fault)
    requires SnapshotInv(w) && w.worker.Busy? && RequestAt(w.worker.pc).Some?
    ensures var pc, (api, r) := w.worker.pc, WorkerExchange(w, fault);
            && (api.job == w.api.job
                || (Writes(pc) && w.worker.base == w.api.job && w.api.job.Some?
                    && api.job == Committed(w.api.job.value, pc)))
            && (Writes(pc) ==> r.Ok? || r.Err?)
            && (Writes(pc) && r.Ok? ==>
                  && w.api.job.Some? && w.worker.base == w.api.job
                  && (api.job != w.api.job
                      || if WritesStatus(pc) then pc.job.status == w.api.job.value.status
                         else pc.job.finalizer == w.api.job.value.finalizer))
            && (Writes(pc) && r.Err? && fault.Works? ==> w.worker.base != w.api.job)
  {
    var pc, action := w.worker.pc, ByWorker(w.worker.answers);
    if Writes(pc) {
      HeldJob(w);
      if WritesStatus(pc) {
        StatusCommits(w.api, pc.job, fault, action);
      } else {
        MetadataCommits(w.api, pc.job, fault, action);
      }
    } else {
      OthersKeepJob(w.api, RequestAt(pc).value, fault, action);
    }
  }

  /** A write that changes the job lands exactly if it is not refused and the job
      is still the one that was read. */
  lemma WorkerLands(w: World, fault: Fault)
    requires SnapshotInv(w) && w.worker.Busy? && RequestAt(w.worker.pc).Some? && Writes(w.worker.pc)
    ensures var pc, base, job := w.worker.pc, w.worker.base, WorkerExchange(w, fault).0.job;
            && (fault.Refused? || base != w.api.job ==> job == w.api.job)
            && (!fault.Refused? && base == w.api.job && w.api.job.Some?
                && (if WritesStatus(pc) then pc.job.status != base.value.status
                    else pc.job.finalizer != base.value.finalizer) ==>
                  job == Committed(w.api.job.value, pc))
  {
    WorkerCommits(w, fault);
    WorkerCommits(w, Works);
  }

  /** A status call's write lands only on the job it had read. */
  lemma CallCommits(w: World, i: nat, fault: Fault)
    requires SnapshotInv(w) && i < |w.calls| && CallRequest(w.calls[i].pc).Some?
    ensures var c, job := w.calls[i], CallExchange(w, i, fault).0.job;
            && (job == w.api.job
                || (c.pc.Save? && c.base == w.api.job && w.api.job.Some? && job == Called(w.api.job.value, c.msg)))
            && (TakesEffect(w, i, fault) ==>
                  && w.api.job.Some? && c.base == w.api.job
                  && job == if ApplyMessage(w.api.job.value.status, c.msg) == w.api.job.value.status then w.api.job
                            else Called(w.api.job.value, c.msg))
            && (job != w.api.job ==> TakesEffect(w, i, fault))
  {
    assert CallHolds(w, w.calls[i]);
  }

  /** How one step can change the stored job. */
  ghost predicate JobStep(w: World, l: Label, job: Option<Job>) {
    job != w.api.job ==>
      && w.api.job.Some?
      && var j := w.api.job.value;
         match l
         case Touch => job == Some(j.(version := j.version + 1))
         case UserDelete => job == if j.finalizer then Some(j.(deleting := true, version := j.version + 1)) else None
         case WorkerStep(_) =>
           w.worker.Busy? && Writes(w.worker.pc) && w.worker.base == w.api.job && job == Committed(j, w.worker.pc)
         case CallStep(i, _) =>
           i < |w.calls| && w.calls[i].pc.Save? && w.calls[i].base == w.api.job && job == Called(j, w.calls[i].msg)
         case _ => false
  }

  lemma EachJobStep(w: World, l: Label)
    requires SnapshotInv(w) && Enabled(w, l)
    ensures JobStep(w, l, Apply(w, l).api.job)
  {
    if l.WorkerStep? {
      WorkerCommits(w, l.fault);
    } else if l.CallStep? {
      CallCommits(w, l.call, l.fault);
    }
  }
}
