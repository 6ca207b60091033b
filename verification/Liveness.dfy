/** From the job's creation to its completion: what a fair run brings about in
    which nobody interferes and no request of the controller fails. */
module Liveness {
  import opened Types
  import opened Handlers
  import opened Protocol
  import opened Snapshots
  import opened Commits
  import opened Lifecycle
  import opened Cleanup
  import opened Verdict
  import opened Wakeup
  import opened Guarantees
  import opened Failures
  import opened Termination

  /** Neither a user nor anybody else interferes, and the controller neither stops
      nor has a request fail. The driver may do anything, and its calls may fail. */
  predicate Calm(l: Label) {
    match l
    case Touch => false
    case UserDelete => false
    case LosePod => false
    case ForeignPod(_) => false
    case Restart => false
    case CancelRequest(_) => false
    case WorkerStep(fault) => fault.Works?
    case _ => true
  }

  ghost predicate CalmRun(t: nat -> World, l: nat -> Label) {
    Behaviour(t, l) && Fair(t, l) && forall i: nat :: Calm(l(i))
  }

  /** A write of the driver's has landed between the creation of the pod and the
      write that is to record it. */
  predicate Overtaken(w: World) {
    w.worker.Busy? && w.worker.pc.RecordScheduled? && w.worker.base != w.api.job
  }

  // Up to the recorded scheduling

  predicate Bare(w: World) {
    w.api.pod.None? && w.api.driver.Off? && w.calls == []
  }

  /** On the way to recording the job's pod, with nobody in the way. */
  ghost predicate Starting(w: World) {
    && Inv(w) && w.api.job.Some? && !w.api.job.value.deleting && !Recorded(w.api.job)
    && !w.timer && !w.backoff
    && if w.worker.Idle? then Bare(w) && w.api.queued
       else
         match w.worker.pc
         case Fetch => Bare(w)
         case AttachFinalizer(_) => Bare(w) && w.worker.base == w.api.job
         case ReadClock(_) => Bare(w) && w.worker.base == w.api.job
         case Create(_, _) => Bare(w) && w.worker.base == w.api.job
         case RecordScheduled(_) => w.worker.base == w.api.job
         case _ => false
  }

  function StartsLeft(w: World): nat {
    (if w.api.job.Some? && w.api.job.value.finalizer then 0 else 10)
    + if w.worker.Idle? then 7 else StepsLeft(w.worker.pc)
  }

  lemma StartingReads(w: World)
    requires Starting(w) && w.worker.Busy? && !Writes(w.worker.pc)
    ensures Starting(ApplyWorker(w, Works)) && StartsLeft(ApplyWorker(w, Works)) < StartsLeft(w)
  {
    InvStep(w, WorkerStep(Works));
    if !w.worker.pc.Fetch? {
      HeldJob(w);
    }
  }

  lemma StartingWrites(w: World)
    requires Starting(w) && w.worker.Busy? && Writes(w.worker.pc)
    ensures var w' := ApplyWorker(w, Works);
            Recorded(w'.api.job) || (Starting(w') && StartsLeft(w') < StartsLeft(w))
  {
    InvStep(w, WorkerStep(Works));
    HeldJob(w);
    WorkerLands(w, Works);
    ExchangeFrame(w.api, RequestAt(w.worker.pc).value, Works, ByWorker(w.worker.answers));
    WriteKeepsPod(w, Works);
    WritesEnd(w, Works);
  }

  lemma StartingByOthers(w: World, l: Label)
    requires Starting(w) && Enabled(w, l) && Calm(l) && !l.WorkerStep? && !l.Dequeue?
    ensures var w' := Apply(w, l);
            !ControllerMoves(l) && (Overtaken(w') || (Starting(w') && StartsLeft(w') <= StartsLeft(w)))
  {
    InvStep(w, l);
    EachJobStep(w, l);
  }

  lemma StartingStep(w: World, l: Label)
    requires Starting(w) && Enabled(w, l) && Calm(l)
    ensures var w' := Apply(w, l);
            || Recorded(w'.api.job) || Overtaken(w')
            || (Starting(w') && StartsLeft(w') <= StartsLeft(w)
                && (ControllerMoves(l) ==> StartsLeft(w') < StartsLeft(w)))
  {
    if l.WorkerStep? {
      if Writes(w.worker.pc) {
        StartingWrites(w);
      } else {
        StartingReads(w);
      }
    } else if l.Dequeue? {
      InvStep(w, l);
    } else {
      StartingByOthers(w, l);
    }
  }

  /** From a starting world, one of the next controller moves records scheduling or
      comes closer to it. */
  lemma {:induction false} NextStart(t: nat -> World, l: nat -> Label, i: nat, j: nat) returns (k: nat)
    requires CalmRun(t, l) && (forall m: nat :: !Overtaken(t(m))) && i <= j && ControllerMoves(l(j))
    requires Starting(t(i))
    ensures i < k && (Recorded(t(k).api.job) || (Starting(t(k)) && StartsLeft(t(k)) < StartsLeft(t(i))))
    decreases j - i
  {
    assert Enabled(t(i), l(i)) && t(i + 1) == Apply(t(i), l(i));
    StartingStep(t(i), l(i));
    k := i + 1;
    if !Recorded(t(k).api.job) && !ControllerMoves(l(i)) {
      k := NextStart(t, l, k, j);
    }
  }

  lemma {:induction false} GetsRecorded(t: nat -> World, l: nat -> Label, i: nat) returns (m: nat)
    requires CalmRun(t, l) && (forall k: nat :: !Overtaken(t(k))) && Starting(t(i))
    ensures Recorded(t(m).api.job)
    decreases StartsLeft(t(i))
  {
    assert Pending(t(i));
    var j: nat :| i <= j && ControllerMoves(l(j));
    m := NextStart(t, l, i, j);
    if !Recorded(t(m).api.job) {
      m := GetsRecorded(t, l, m);
    }
  }

  lemma InitIsStarting(w: World)
    requires Init(w) && w.api.pod.None?
    ensures Starting(w)
  {
    InitInv(w);
  }

  // What keeps scheduling from being recorded

  /** The job is there and stays, and its pod is there when it is to be recorded. */
  ghost predicate Undisturbed(w: World) {
    && Inv(w) && w.api.job.Some? && !w.api.job.value.deleting
    && (w.worker.Busy? && w.worker.pc.RecordScheduled? ==> OwnPod(w.api) && !w.ledger.scheduled)
  }

  lemma UndisturbedByWorker(w: World)
    requires Undisturbed(w) && w.worker.Busy? && RequestAt(w.worker.pc).Some?
    ensures Undisturbed(ApplyWorker(w, Works))
  {
    InvStep(w, WorkerStep(Works));
    WorkerCommits(w, Works);
    if !w.worker.pc.Fetch? {
      HeldJob(w);
    }
    OnlyInspectReads(w.worker.pc, WorkerExchange(w, Works).1);
    if w.worker.pc.Create? {
      CreationGuard(w);
      NewPodIsOwned(w.api.id);
    }
  }

  lemma UndisturbedStep(w: World, l: Label)
    requires Undisturbed(w) && Enabled(w, l) && Calm(l)
    ensures Undisturbed(Apply(w, l))
  {
    if l.WorkerStep? {
      UndisturbedByWorker(w);
    } else {
      InvStep(w, l);
      EachJobStep(w, l);
      if l.CallStep? {
        CallKeepsPod(w, l.call, l.fault);
      } else {
        OthersKeepPod(w, l);
      }
    }
  }

  /** There is a pod, but it will never be recorded. */
  ghost predicate Doomed(w: World) {
    OwnPod(w.api) && !w.ledger.scheduled && (Orphaned(w) || Overtaken(w))
  }

  lemma DoomedStep(w: World, l: Label)
    requires Inv(w) && Doomed(w) && Enabled(w, l) && Calm(l)
    ensures Doomed(Apply(w, l))
  {
    if Orphaned(w) {
      OrphanStep(w, l);
    } else if l.WorkerStep? {
      OrphanedByRecording(w, Works);
    } else {
      InvStep(w, l);
      JobAdvances(w, l);
      if l.CallStep? {
        CallKeepsPod(w, l.call, l.fault);
      } else {
        OthersKeepPod(w, l);
      }
    }
  }

  /** Somebody else's pod has taken the name. */
  ghost predicate Blocked(w: World) {
    && w.api.pod.Some? && !OwnPod(w.api) && !w.ledger.scheduled
    && !(w.worker.Busy? && w.worker.pc.RecordScheduled?)
  }

  lemma BlockedByWorker(w: World)
    requires Undisturbed(w) && Blocked(w) && w.worker.Busy? && RequestAt(w.worker.pc).Some?
    ensures Blocked(ApplyWorker(w, Works))
  {
    WorkerCommits(w, Works);
    if !w.worker.pc.Fetch? {
      HeldJob(w);
    }
    OnlyInspectReads(w.worker.pc, WorkerExchange(w, Works).1);
  }

  lemma BlockedStep(w: World, l: Label)
    requires Undisturbed(w) && Blocked(w) && Enabled(w, l) && Calm(l)
    ensures Blocked(Apply(w, l))
  {
    if l.WorkerStep? {
      BlockedByWorker(w);
    } else {
      DriverInPodStep(w, l);
      if l.CallStep? {
        CallKeepsPod(w, l.call, l.fault);
      } else {
        OthersKeepPod(w, l);
      }
    }
  }

  lemma {:induction false} CalmIsUndisturbed(t: nat -> World, l: nat -> Label, i: nat)
    requires CalmRun(t, l)
    ensures Undisturbed(t(i))
  {
    if i == 0 {
      InitInv(t(0));
    } else {
      var k := i - 1;
      CalmIsUndisturbed(t, l, k);
      assert Enabled(t(k), l(k)) && t(k + 1) == Apply(t(k), l(k));
      UndisturbedStep(t(k), l(k));
    }
  }

  lemma {:induction false} StaysDoomed(t: nat -> World, l: nat -> Label, i: nat, k: nat)
    requires CalmRun(t, l) && i <= k && Doomed(t(i))
    ensures Doomed(t(k)) && !Recorded(t(k).api.job)
    decreases k
  {
    BehaviourInv(t, l, k);
    if i < k {
      var j := k - 1;
      StaysDoomed(t, l, i, j);
      BehaviourInv(t, l, j);
      assert Enabled(t(j), l(j)) && t(j + 1) == Apply(t(j), l(j));
      DoomedStep(t(j), l(j));
    }
  }

  lemma {:induction false} StaysBlocked(t: nat -> World, l: nat -> Label, k: nat)
    requires CalmRun(t, l) && t(0).api.pod.Some?
    ensures Blocked(t(k)) && !Recorded(t(k).api.job)
  {
    CalmIsUndisturbed(t, l, k);
    if k > 0 {
      var j := k - 1;
      StaysBlocked(t, l, j);
      CalmIsUndisturbed(t, l, j);
      assert Enabled(t(j), l(j)) && t(j + 1) == Apply(t(j), l(j));
      BlockedStep(t(j), l(j));
    }
  }

  lemma {:induction false} StaysRecorded(t: nat -> World, l: nat -> Label, i: nat, k: nat)
    requires CalmRun(t, l) && i <= k && Recorded(t(i).api.job)
    ensures Recorded(t(k).api.job)
    decreases k
  {
    if i < k {
      var j := k - 1;
      StaysRecorded(t, l, i, j);
      CalmIsUndisturbed(t, l, j);
      CalmIsUndisturbed(t, l, k);
      assert Enabled(t(j), l(j)) && t(j + 1) == Apply(t(j), l(j));
      StampStep(t(j), l(j));
    }
  }

  /** In a fair run from the job's creation in which nobody interferes and no
      request of the controller fails, scheduling gets recorded exactly if the
      pod's name is free and no write of the driver's overtakes the recording. */
  lemma ScheduledExactly(t: nat -> World, l: nat -> Label)
    requires CalmRun(t, l)
    ensures (exists m: nat :: Recorded(t(m).api.job))
            <==> t(0).api.pod.None? && forall i: nat :: !Overtaken(t(i))
  {
    if t(0).api.pod.None? && forall i: nat :: !Overtaken(t(i)) {
      InitIsStarting(t(0));
      var m := GetsRecorded(t, l, 0);
    }
    if m: nat :| Recorded(t(m).api.job) {
      if t(0).api.pod.Some? {
        StaysBlocked(t, l, m);
      }
      forall i: nat ensures !Overtaken(t(i)) {
        if Overtaken(t(i)) {
          NotYetRecorded(t, l, i, m);
        }
      }
    }
  }

  lemma NotYetRecorded(t: nat -> World, l: nat -> Label, i: nat, m: nat)
    requires CalmRun(t, l) && Overtaken(t(i))
    ensures !Recorded(t(m).api.job)
  {
    CalmIsUndisturbed(t, l, i);
    if i <= m {
      StaysDoomed(t, l, i, m);
    } else if Recorded(t(m).api.job) {
      StaysRecorded(t, l, m, i);
    }
  }

  // Up to the completion

  /** The driver's end is known: the kubelet has reported it, or the driver's own
      report is stored on the scheduled job. */
  predicate EndKnown(w: World) {
    || (OwnPod(w.api) && MainExit(w.api.pod.value).Some?)
    || (Recorded(w.api.job) && w.api.job.value.status.state == Complete)
  }

  lemma {:induction false} NeverStranded(t: nat -> World, l: nat -> Label, i: nat)
    requires CalmRun(t, l)
    ensures Inv(t(i)) && !Stranded(t(i))
  {
    BehaviourInv(t, l, i);
    if i > 0 {
      var k := i - 1;
      NeverStranded(t, l, k);
      assert Enabled(t(k), l(k)) && t(k + 1) == Apply(t(k), l(k));
      StrandsExactly(t(k), l(k));
    }
  }

  lemma {:induction false} StartingOrRecorded(t: nat -> World, l: nat -> Label, i: nat)
    requires CalmRun(t, l) && t(0).api.pod.None? && forall k: nat :: !Overtaken(t(k))
    ensures Starting(t(i)) || Recorded(t(i).api.job)
  {
    if i == 0 {
      InitIsStarting(t(0));
    } else {
      var k := i - 1;
      StartingOrRecorded(t, l, k);
      assert Enabled(t(k), l(k)) && t(k + 1) == Apply(t(k), l(k));
      if Recorded(t(k).api.job) {
        StaysRecorded(t, l, k, i);
      } else {
        StartingStep(t(k), l(k));
      }
    }
  }

  ghost predicate CompleteFrom(t: nat -> World, m: nat) {
    forall k: nat :: m <= k ==>
      var job := t(k).api.job;
      job.Some? && job.value.status.state == Complete && job.value.status.completeTime.Some?
  }

  /** In such a run whose pod has a free name and whose recording is not overtaken,
      the job is for good Complete with its completion time, once the driver has
      halted, its end is known and its calls are over. */
  lemma CalmRunsComplete(t: nat -> World, l: nat -> Label, n: nat) returns (m: nat)
    requires CalmRun(t, l) && t(0).api.pod.None? && forall i: nat :: !Overtaken(t(i))
    requires SilentFrom(l, n) && EndKnown(t(n))
    ensures n <= m && CompleteFrom(t, m)
  {
    NeverStranded(t, l, n);
    StartingOrRecorded(t, l, n);
    m := ClosingFinishes(t, l, n);
    forall k: nat | m <= k
      ensures t(k).api.job.Some? && t(k).api.job.value.status.state == Complete
              && t(k).api.job.value.status.completeTime.Some?
    {
      CalmIsUndisturbed(t, l, k);
      assert Finished(t(k).api.job);
    }
  }
}
