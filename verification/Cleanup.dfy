/** Cancellation and deletion: when the job's pod is known to be gone. */
module Cleanup {
  import opened Types
  import opened Handlers
  import opened Calls
  import opened Protocol
  import opened Snapshots
  import opened Commits
  import opened Lifecycle

  predicate OwnPod(c: Cluster) {
    c.pod.Some? && OwnedBy(c.pod.value, c.id)
  }

  /** The driver lives exactly as long as the pod the controller created, and
      the kubelet reports its exit code. */
  predicate DriverInPod(c: Cluster) {
    && (OwnPod(c) <==> !c.driver.Off?)
    && (OwnPod(c) ==> 1 <= c.creations)
    && (OwnPod(c) && MainExit(c.pod.value).Some? ==> c.driver == At(Exit(MainExit(c.pod.value).value.exitCode)))
  }

  predicate CancelledClean(c: Cluster) {
    c.job.Some? && c.job.value.status.state == Complete && c.job.value.status.reason == CancelledReason ==>
      Recorded(c.job) && !OwnPod(c)
  }

  predicate RemovedClean(w: World) {
    w.api.job.None? && w.ledger.scheduled && !w.ledger.deleteFault ==> !OwnPod(w.api)
  }

  ghost predicate WorkerClean(w: World) {
    w.worker.Busy? ==>
      && (w.worker.pc.RecordCancel? && w.worker.pc.job.status.reason == CancelledReason ==> !OwnPod(w.api))
      && (w.worker.pc.DetachFinalizer? && w.worker.base.Some? && Recorded(w.worker.base) && !w.ledger.deleteFault ==>
            !OwnPod(w.api))
  }

  ghost predicate CleanupInv(w: World) {
    DriverInPod(w.api) && CancelledClean(w.api) && RemovedClean(w) && WorkerClean(w)
  }

  lemma NewPodIsOwned(id: Identity)
    ensures OwnedBy(NewPod(id), id)
  {
    assert Matches(NewPod(id).owners[0], id);
  }

  lemma PodServed(c: Cluster, req: Request, action: Action)
    requires DriverInPod(c) && (req.CreatePod? ==> req.pod == NewPod(c.id))
    ensures var c1 := Serve(c, req, action).0;
            && DriverInPod(c1) && c.creations <= c1.creations
            && (!req.CreatePod? ==> c1.creations == c.creations && (OwnPod(c1) ==> OwnPod(c)))
            && (!req.CreatePod? && !req.DeletePod? ==> c1.pod == c.pod && c1.driver == c.driver)
            && (req == DeletePod(c.id.name) && c.id.name != "" ==> !OwnPod(c1))
  {
    match req
    case CreatePod(pod) => NewPodIsOwned(c.id);
    case DeletePod(name) => assert ServeDelete(c, name).0.pod == c.pod || ServeDelete(c, name).0.pod.None?;
    case Update(job) => assert ServeMetadata(c, job, action).0.pod == c.pod;
    case UpdateStatus(job) => assert ServeStatus(c, job, action).0.pod == c.pod;
    case _ =>
  }

  /** The only way for the pod to appear is the creation by the New branch. */
  lemma PodExchange(c: Cluster, req: Request, fault: Fault, action: Action)
    requires DriverInPod(c)
    requires req.CreatePod? ==> req.pod == NewPod(c.id)
    ensures DriverInPod(Exchange(c, req, fault, action).0)
    ensures c.creations <= Exchange(c, req, fault, action).0.creations
    ensures !req.CreatePod? ==>
              var c1 := Exchange(c, req, fault, action).0;
              c1.creations == c.creations && (OwnPod(c1) ==> OwnPod(c))
    ensures !req.CreatePod? && !req.DeletePod? ==>
              var c1 := Exchange(c, req, fault, action).0;
              c1.pod == c.pod && c1.driver == c.driver
    ensures req == DeletePod(c.id.name) && c.id.name != "" && !fault.Refused? ==>
              !OwnPod(Exchange(c, req, fault, action).0)
  {
    PodServed(c, req, action);
    var c1 := Exchange(c, req, fault, action).0;
    assert c1 == c || c1 == Serve(c, req, action).0;
  }

  lemma WorkerPodRequest(w: World)
    requires SnapshotInv(w) && w.worker.Busy? && RequestAt(w.worker.pc).Some?
    ensures RequestAt(w.worker.pc).value.CreatePod? ==> RequestAt(w.worker.pc).value.pod == NewPod(w.api.id)
  {
    if !w.worker.pc.Fetch? {
      HeldJob(w);
    }
  }

  lemma DriverInPodByWorker(w: World, fault: Fault)
    requires SnapshotInv(w) && DriverInPod(w.api) && w.worker.Busy? && RequestAt(w.worker.pc).Some?
    ensures var w' := ApplyWorker(w, fault);
            && DriverInPod(w'.api) && w.api.creations <= w'.api.creations && w'.api.id == w.api.id
            && (!w.worker.pc.Create? && OwnPod(w'.api) ==> OwnPod(w.api))
  {
    WorkerPodRequest(w);
    PodExchange(w.api, RequestAt(w.worker.pc).value, fault, ByWorker(w.worker.answers));
    ExchangeFrame(w.api, RequestAt(w.worker.pc).value, fault, ByWorker(w.worker.answers));
  }

  lemma DriverInPodByCall(w: World, i: nat, fault: Fault)
    requires DriverInPod(w.api) && i < |w.calls| && CallRequest(w.calls[i].pc).Some?
    ensures var w' := ApplyCall(w, i, fault);
            && DriverInPod(w'.api) && w.api.creations <= w'.api.creations && w'.api.id == w.api.id
            && (OwnPod(w'.api) ==> OwnPod(w.api))
  {
    PodExchange(w.api, CallRequest(w.calls[i].pc).value, fault, ByCall(w.calls[i].msg));
    ExchangeFrame(w.api, CallRequest(w.calls[i].pc).value, fault, ByCall(w.calls[i].msg));
  }

  predicate DriverMoves(l: Label) {
    l.DriverSend? || l.DriverReply? || l.DriverGiveUp? || l.DriverWork? || l.DriverCrash?
  }

  lemma DriverInPodByDriver(w: World, l: Label)
    requires DriverInPod(w.api) && Enabled(w, l) && DriverMoves(l)
    ensures DriverInPod(Apply(w, l).api) && Apply(w, l).api.id == w.api.id && Apply(w, l).api.pod == w.api.pod
    ensures Apply(w, l).api.creations == w.api.creations
  {}

  lemma DriverInPodByOthers(w: World, l: Label)
    requires DriverInPod(w.api) && Enabled(w, l) && !l.WorkerStep? && !l.CallStep? && !DriverMoves(l)
    ensures var w' := Apply(w, l);
            && DriverInPod(w'.api) && w'.api.creations == w.api.creations && w'.api.id == w.api.id
            && (OwnPod(w'.api) ==> OwnPod(w.api))
  {
    var c, c1 := w.api, Apply(w, l).api;
    if !l.LosePod? && !l.ForeignPod? && !l.Kubelet? {
      assert c1.pod == c.pod && c1.driver == c.driver && c1.id == c.id && c1.creations == c.creations;
    } else if l.Kubelet? {
      assert c1.pod.value.owners == c.pod.value.owners && c1.driver == c.driver;
    }
  }

  lemma DriverInPodStep(w: World, l: Label)
    requires SnapshotInv(w) && DriverInPod(w.api) && Enabled(w, l)
    ensures DriverInPod(Apply(w, l).api) && w.api.creations <= Apply(w, l).api.creations
    ensures !(l.WorkerStep? && w.worker.pc.Create?) && OwnPod(Apply(w, l).api) ==> OwnPod(w.api)
    ensures Apply(w, l).api.id == w.api.id
  {
    if l.WorkerStep? {
      DriverInPodByWorker(w, l.fault);
    } else if l.CallStep? {
      DriverInPodByCall(w, l.call, l.fault);
    } else if DriverMoves(l) {
      DriverInPodByDriver(w, l);
    } else {
      DriverInPodByOthers(w, l);
    }
  }

  /** Creating a pod presupposes a stored job without a schedule time, and with
      the finalizer. */
  lemma CreationGuard(w: World)
    requires SnapshotInv(w) && LifecycleInv(w) && w.worker.Busy? && w.worker.pc.Create?
    ensures w.api.job.Some? && w.api.job.value.finalizer && !Recorded(w.api.job)
  {
    HeldJob(w);
  }

  lemma CancelledCleanStep(w: World, l: Label)
    requires SnapshotInv(w) && LifecycleInv(w) && CleanupInv(w) && Enabled(w, l)
    ensures CancelledClean(Apply(w, l).api)
  {
    EachJobStep(w, l);
    DriverInPodStep(w, l);
    if l.WorkerStep? {
      if w.worker.pc.Create? {
        CreationGuard(w);
      }
      if !w.worker.pc.Fetch? {
        HeldJob(w);
      }
    } else if l.CallStep? {
      assert MessageOk(w.calls[l.call]);
    }
  }

  lemma RemovedCleanStep(w: World, l: Label)
    requires SnapshotInv(w) && LifecycleInv(w) && CleanupInv(w) && Enabled(w, l)
    ensures RemovedClean(Apply(w, l))
  {
    EachJobStep(w, l);
    DriverInPodStep(w, l);
    if l.WorkerStep? {
      if w.worker.pc.Create? {
        CreationGuard(w);
      }
      if !w.worker.pc.Fetch? {
        HeldJob(w);
      }
    }
  }

  /** A fetched job goes straight to the finalizer's removal only if it was
      stored as cancelled. */
  lemma FetchedClean(w: World, fault: Fault)
    requires SnapshotInv(w) && CleanupInv(w) && w.worker.Busy? && w.worker.pc.Fetch?
    ensures WorkerClean(ApplyWorker(w, fault))
  {
    var r := WorkerExchange(w, fault).1;
    assert r.JobIs? ==> r.job == w.api.job.value;
  }

  lemma DeletedClean(w: World, fault: Fault)
    requires SnapshotInv(w) && LifecycleInv(w) && CleanupInv(w)
    requires w.worker.Busy? && (w.worker.pc.DeleteCancelled? || w.worker.pc.DeleteForRemoval?)
    ensures WorkerClean(ApplyWorker(w, fault))
  {
    HeldJob(w);
    PodExchange(w.api, RequestAt(w.worker.pc).value, fault, ByWorker(w.worker.answers));
    assert Recorded(w.worker.base) ==> RequestAt(w.worker.pc).value == DeletePod(w.api.id.name);
  }

  lemma NoShortcut(pc: Pc, r: Response)
    requires !pc.Fetch? && !pc.DeleteCancelled? && !pc.DeleteForRemoval?
    ensures !Resume(pc, r).DetachFinalizer?
    ensures Resume(pc, r).RecordCancel? ==> Resume(pc, r).job.status.reason == FailedReason
  {}

  /** A handler reaches the cancellation write or the finalizer's removal only
      past the pod's deletion, or having read that it had happened. */
  lemma ReachesClean(w: World, fault: Fault)
    requires SnapshotInv(w) && LifecycleInv(w) && CleanupInv(w) && w.worker.Busy? && RequestAt(w.worker.pc).Some?
    ensures WorkerClean(ApplyWorker(w, fault))
  {
    if w.worker.pc.Fetch? {
      FetchedClean(w, fault);
    } else if w.worker.pc.DeleteCancelled? || w.worker.pc.DeleteForRemoval? {
      DeletedClean(w, fault);
    } else {
      NoShortcut(w.worker.pc, WorkerExchange(w, fault).1);
    }
  }

  lemma WorkerCleanStep(w: World, l: Label)
    requires SnapshotInv(w) && LifecycleInv(w) && CleanupInv(w) && Enabled(w, l)
    ensures WorkerClean(Apply(w, l))
  {
    if l.WorkerStep? {
      ReachesClean(w, l.fault);
    } else {
      DriverInPodStep(w, l);
      StepFrame(w, l);
    }
  }

  lemma CleanupStep(w: World, l: Label)
    requires SnapshotInv(w) && LifecycleInv(w) && CleanupInv(w) && Enabled(w, l)
    ensures CleanupInv(Apply(w, l))
  {
    DriverInPodStep(w, l);
    CancelledCleanStep(w, l);
    RemovedCleanStep(w, l);
    WorkerCleanStep(w, l);
  }
}
