/** Optimistic concurrency: what a held snapshot says about the stored job. */
module Snapshots {
  import opened Options
  import opened Types
  import opened Handlers
  import opened Calls
  import opened Protocol

  /** The stored job only moves to higher versions, or disappears. */
  predicate Advances(before: Option<Job>, after: Option<Job>) {
    after.Some? ==> before.Some? && (after == before || before.value.version < after.value.version)
  }

  /** A snapshot is of the stored job or of an older version of it. */
  predicate SnapshotOf(base: Job, job: Option<Job>) {
    job.Some? ==> base == job.value || base.version < job.value.version
  }

  ghost predicate WorkerHolds(w: World) {
    w.worker.Busy? ==>
      var Busy(pc, base, answers) := w.worker;
      if pc.Fetch? then base.None? && answers == []
      else
        && base.Some? && base.value.id == w.api.id && SnapshotOf(base.value, w.api.job)
        && pc == Drive(Dispatch(base.value), answers) && RequestAt(pc).Some?
  }

  ghost predicate CallHolds(w: World, c: Call) {
    match c.pc
    case Lookup(msg) => msg == c.msg
    case Save(job) =>
      && c.base.Some? && c.base.value.id == w.api.id && SnapshotOf(c.base.value, w.api.job)
      && job == c.base.value.(status := ApplyMessage(c.base.value.status, c.msg))
    case Answered(_) => true
  }

  ghost predicate SnapshotInv(w: World) {
    && w.api.id.name != ""
    && (w.api.job.Some? ==> w.api.job.value.id == w.api.id)
    && WorkerHolds(w)
    && forall i :: 0 <= i < |w.calls| ==> CallHolds(w, w.calls[i])
  }

  /** What no answer of the API server touches. */
  predicate ServerFrame(c: Cluster, c1: Cluster) {
    && Advances(c.job, c1.job)
    && (c.job.Some? && c1.job.Some? ==> c1.job.value.id == c.job.value.id)
    && c1.id == c.id && c1.now == c.now && (c.queued ==> c1.queued)
    && (c1.job.Some? && c1.job != c.job ==> c1.queued)
    && (c1.driver == c.driver || c1.driver == Off || c1.driver == At(SendRunning))
  }

  lemma ServeFrame(c: Cluster, req: Request, action: Action)
    ensures ServerFrame(c, Serve(c, req, action).0)
  {
    match req
    case GetJob =>
    case Update(job) => assert ServerFrame(c, ServeMetadata(c, job, action).0);
    case UpdateStatus(job) => assert ServerFrame(c, ServeStatus(c, job, action).0);
    case CreatePod(pod) => assert ServerFrame(c, ServeCreate(c, pod).0);
    case GetPod(_) =>
    case DeletePod(name) => assert ServerFrame(c, ServeDelete(c, name).0);
    case Now =>
  }

  lemma ExchangeFrame(c: Cluster, req: Request, fault: Fault, action: Action)
    ensures ServerFrame(c, Exchange(c, req, fault, action).0)
  {
    ServeFrame(c, req, action);
  }

  /** Every step, of whichever actor, only moves the stored job forward. */
  lemma JobAdvances(w: World, l: Label)
    requires Enabled(w, l)
    ensures Advances(w.api.job, Apply(w, l).api.job)
  {
    if l.WorkerStep? {
      ExchangeFrame(w.api, RequestAt(w.worker.pc).value, l.fault, ByWorker(w.worker.answers));
    } else if l.CallStep? {
      ExchangeFrame(w.api, CallRequest(w.calls[l.call].pc).value, l.fault, ByCall(w.calls[l.call].msg));
    }
  }

  /** The worker resumes with an answer its handler understands. */
  lemma WorkerResumes(w: World, fault: Fault)
    requires SnapshotInv(w) && w.worker.Busy? && RequestAt(w.worker.pc).Some?
    ensures var pc' := Resume(w.worker.pc, WorkerExchange(w, fault).1);
            pc'.Returned? || RequestAt(pc').Some?
  {}

  lemma FetchKeepsSnapshots(w: World, fault: Fault)
    requires SnapshotInv(w) && w.worker.Busy? && w.worker.pc.Fetch?
    ensures WorkerHolds(ApplyWorker(w, fault))
  {
    WorkerResumes(w, fault);
  }

  lemma RoundKeepsSnapshots(w: World, fault: Fault)
    requires SnapshotInv(w) && w.worker.Busy? && RequestAt(w.worker.pc).Some? && !w.worker.pc.Fetch?
    ensures WorkerHolds(ApplyWorker(w, fault))
  {
    var Busy(pc, base, answers) := w.worker;
    ExchangeFrame(w.api, RequestAt(pc).value, fault, ByWorker(answers));
    WorkerResumes(w, fault);
    DriveSnoc(Dispatch(base.value), answers, WorkerExchange(w, fault).1);
  }

  lemma WorkerKeepsSnapshots(w: World, fault: Fault)
    requires SnapshotInv(w) && w.worker.Busy? && RequestAt(w.worker.pc).Some?
    ensures WorkerHolds(ApplyWorker(w, fault))
  {
    if w.worker.pc.Fetch? {
      FetchKeepsSnapshots(w, fault);
    } else {
      RoundKeepsSnapshots(w, fault);
    }
  }

  predicate Framed(w: World, l: Label, w': World) {
    && w'.api.id == w.api.id
    && (w'.api.job.Some? ==> w.api.job.Some? && w'.api.job.value.id == w.api.job.value.id)
    && (l.WorkerStep? || w'.worker == w.worker || w'.worker.Idle? || w'.worker == Busy(Fetch, None, []))
    && |w.calls| <= |w'.calls|
    && forall i :: 0 <= i < |w.calls| && !(l.CallStep? && l.call == i) ==> w'.calls[i] == w.calls[i]
  }

  lemma FramedByOthers(w: World, l: Label)
    requires Enabled(w, l) && !l.WorkerStep? && !l.CallStep?
    ensures Framed(w, l, Apply(w, l))
  {}

  /** What a step leaves of the worker and the calls, unless it is their own. */
  lemma StepFrame(w: World, l: Label)
    requires Enabled(w, l)
    ensures Framed(w, l, Apply(w, l))
  {
    if l.WorkerStep? {
      ExchangeFrame(w.api, RequestAt(w.worker.pc).value, l.fault, ByWorker(w.worker.answers));
    } else if l.CallStep? {
      ExchangeFrame(w.api, CallRequest(w.calls[l.call].pc).value, l.fault, ByCall(w.calls[l.call].msg));
    } else {
      FramedByOthers(w, l);
    }
  }

  lemma CallKeepsSnapshot(w: World, i: nat, fault: Fault)
    requires SnapshotInv(w) && i < |w.calls| && CallRequest(w.calls[i].pc).Some?
    ensures CallHolds(ApplyCall(w, i, fault), ApplyCall(w, i, fault).calls[i])
  {
    assert CallHolds(w, w.calls[i]);
    ExchangeFrame(w.api, CallRequest(w.calls[i].pc).value, fault, ByCall(w.calls[i].msg));
  }

  lemma NewCallHolds(w: World, l: Label, i: nat)
    requires Enabled(w, l) && |w.calls| <= i < |Apply(w, l).calls|
    ensures CallHolds(Apply(w, l), Apply(w, l).calls[i])
  {}

  lemma SnapshotsStep(w: World, l: Label)
    requires SnapshotInv(w) && Enabled(w, l)
    ensures SnapshotInv(Apply(w, l))
  {
    var w' := Apply(w, l);
    JobAdvances(w, l);
    StepFrame(w, l);
    if l.WorkerStep? {
      WorkerKeepsSnapshots(w, l.fault);
    }
    forall i | 0 <= i < |w'.calls| ensures CallHolds(w', w'.calls[i]) {
      if i >= |w.calls| {
        NewCallHolds(w, l, i);
      } else if l.CallStep? && l.call == i {
        CallKeepsSnapshot(w, i, l.fault);
      } else {
        assert CallHolds(w, w.calls[i]);
      }
    }
  }
}
