/** Once the other actors have fallen silent: which fair runs bring the job to
    Complete with its completion time, or to its removal. */
module Termination {
  import opened Options
  import opened Types
  import opened Handlers
  import opened Protocol
  import opened Snapshots
  import opened Commits
  import opened Lifecycle
  import opened Cleanup
  import opened Wakeup
  import opened Guarantees

  predicate ControllerMoves(l: Label) {
    l.Dequeue? || l.FireTimer? || l.FireBackoff? || (l.WorkerStep? && l.fault.Works?)
  }

  /** The kubelet has reported the driver's end, or there is no driver left. */
  predicate Ended(c: Cluster) {
    OwnPod(c) ==> MainExit(c.pod.value).Some?
  }

  /** The job is being deleted; or it is scheduled, and it is cancelled or complete
      or its driver's end is known. */
  predicate Ready(w: World) {
    w.api.job.Some? ==>
      || w.api.job.value.deleting
      || (Recorded(w.api.job) && (w.api.job.value.status.state in {Complete, Cancelled} || Ended(w.api)))
  }

  /** The round under way makes the job ready: it is about to record a pod whose
      end is known, to store the end of one, or to delete one. */
  predicate Underway(w: World) {
    && w.worker.Busy?
    && match w.worker.pc
       case RecordScheduled(_) => w.worker.base == w.api.job && Ended(w.api)
       case RecordPodGone(_, _) => w.worker.base == w.api.job
       case RecordPodDone(_) => w.worker.base == w.api.job
       case InspectCancelled(_) => true
       case DeleteCancelled(_) => true
       case _ => false
  }

  predicate Finished(job: Option<Job>) {
    job.Some? ==>
      job.value.status.state == Complete && job.value.status.completeTime.Some? && !job.value.deleting
  }

  // The measure

  function JobRank(job: Option<Job>): nat {
    if job.None? then 0
    else if job.value.deleting then 1
    else if !Recorded(job) then 3
    else if job.value.status.state == Complete then 1
    else 2
  }

  function StepsLeft(pc: Pc): nat {
    match pc
    case Fetch => 6
    case ReadClock(_) => 4
    case Create(_, _) => 3
    case InspectCancelled(_) => 3
    case Inspect(_) => 2
    case ReadFinishClock(_) => 2
    case DeleteCancelled(_) => 2
    case DeleteForRemoval(_) => 2
    case _ => 1
  }

  /** The round cannot achieve anything: the job has changed since it was read,
      or the pod to cancel is already gone. */
  predicate Wasted(w: World) {
    && w.worker.Busy? && w.worker.base.Some?
    && (w.worker.base != w.api.job || (w.worker.pc.DeleteCancelled? && w.api.pod.None?))
  }

  function Flags(w: World): nat {
    (if w.timer then 2 else 0) + (if w.backoff then 2 else 0) + (if w.api.queued then 1 else 0)
  }

  function Measure(w: World): nat {
    1000 * JobRank(w.api.job) + Flags(w)
    + if w.worker.Idle? then 200 else (if Wasted(w) then 500 else 0) + 20 * StepsLeft(w.worker.pc)
  }

  ghost predicate Closing(w: World) {
    Inv(w) && (Ready(w) || Underway(w)) && !Stranded(w)
  }

  lemma FlagsBound(w: World)
    ensures Flags(w) <= 5
  {}

  lemma HandlersAdvance(pc: Pc, r: Response)
    requires RequestAt(pc).Some? && RequestAt(Resume(pc, r)).Some?
    ensures StepsLeft(Resume(pc, r)) < StepsLeft(pc)
  {}

  /** A step within a round brings the round's end closer. */
  lemma RoundContinues(w: World)
    requires Closing(w) && w.worker.Busy? && RequestAt(w.worker.pc).Some?
    requires ApplyWorker(w, Works).worker.Busy?
    ensures Measure(ApplyWorker(w, Works)) < Measure(w)
  {
    var w', pc := ApplyWorker(w, Works), w.worker.pc;
    ContinuingWorker(w, Works);
    WorkerResumes(w, Works);
    HandlersAdvance(pc, WorkerExchange(w, Works).1);
    FlagsBound(w');
    assert w'.timer == w.timer && w'.backoff == w.backoff;
    if !pc.Fetch? && Wasted(w') {
      if w'.worker.pc.DeleteCancelled? {
        assert pc.InspectCancelled?;
      }
    }
  }

  /** A round whose write was turned down had been overtaken. */
  lemma RoundEnds(w: World)
    requires Closing(w) && NeedsWork(w.api.job) && w.worker.Busy? && RequestAt(w.worker.pc).Some?
    requires ApplyWorker(w, Works).worker.Idle? && NeedsWork(ApplyWorker(w, Works).api.job)
    ensures Wasted(w) || JobRank(ApplyWorker(w, Works).api.job) < JobRank(w.api.job)
  {
    if !w.worker.pc.Fetch? {
      HeldJob(w);
      if Writes(w.worker.pc) {
        WriteEndsRound(w);
      } else if w.worker.pc.DeleteCancelled? {
        assert RequestAt(w.worker.pc).value == DeletePod(w.api.id.name);
      }
    }
  }

  lemma WriteEndsRound(w: World)
    requires Closing(w) && NeedsWork(w.api.job) && w.worker.Busy? && Writes(w.worker.pc)
    requires NeedsWork(ApplyWorker(w, Works).api.job)
    ensures Wasted(w) || JobRank(ApplyWorker(w, Works).api.job) < JobRank(w.api.job)
  {
    HeldJob(w);
    WorkerLands(w, Works);
  }

  lemma RankKept(w: World)
    requires Closing(w) && w.worker.Busy? && RequestAt(w.worker.pc).Some?
    ensures JobRank(ApplyWorker(w, Works).api.job) <= JobRank(w.api.job)
  {
    WorkerCommits(w, Works);
    if !w.worker.pc.Fetch? {
      HeldJob(w);
    }
  }

  lemma MoveDecreases(w: World, l: Label)
    requires Closing(w) && NeedsWork(w.api.job) && Enabled(w, l) && ControllerMoves(l)
    requires NeedsWork(Apply(w, l).api.job)
    ensures Measure(Apply(w, l)) < Measure(w)
  {
    if l.WorkerStep? {
      var w' := ApplyWorker(w, Works);
      if w'.worker.Busy? {
        RoundContinues(w);
      } else {
        RoundEnds(w);
        RankKept(w);
        FlagsBound(w');
      }
    }
  }

  lemma ReadyKept(w: World)
    requires Closing(w) && Ready(w) && w.worker.Busy? && RequestAt(w.worker.pc).Some?
    ensures Ready(ApplyWorker(w, Works))
  {
    EachJobStep(w, WorkerStep(Works));
    if w.worker.pc.Create? {
      CreationGuard(w);
    } else {
      WorkerPodKept(w);
    }
    if !w.worker.pc.Fetch? {
      HeldJob(w);
    }
  }

  lemma UnderwayKept(w: World)
    requires Closing(w) && Underway(w)
    ensures Ready(ApplyWorker(w, Works)) || Underway(ApplyWorker(w, Works))
  {
    WorkerPodKept(w);
    HeldJob(w);
    WorkerCommits(w, Works);
    if w.worker.pc.DeleteCancelled? {
      assert RequestAt(w.worker.pc).value == DeletePod(w.api.id.name);
    }
  }

  lemma ClosingStep(w: World, l: Label)
    requires Closing(w) && Enabled(w, l) && (ControllerMoves(l) || l.Tick?)
    ensures Closing(Apply(w, l))
  {
    InvStep(w, l);
    StrandsExactly(w, l);
    if l.WorkerStep? {
      if Ready(w) {
        ReadyKept(w);
      } else {
        UnderwayKept(w);
      }
    }
  }

  /** Neither ready nor on the way there: nobody but the driver can help. */
  ghost predicate Waiting(w: World) {
    Inv(w) && !Ready(w) && !Underway(w)
  }

  lemma WriteKeepsWaiting(w: World)
    requires Waiting(w) && w.worker.Busy? && RequestAt(w.worker.pc).Some? && Writes(w.worker.pc)
    ensures !Ready(ApplyWorker(w, Works)) && !Underway(ApplyWorker(w, Works))
  {
    HeldJob(w);
    WritesEnd(w, Works);
    WorkerCommits(w, Works);
    WorkerPodKept(w);
  }

  lemma ReadKeepsWaiting(w: World)
    requires Waiting(w) && w.worker.Busy? && RequestAt(w.worker.pc).Some? && !Writes(w.worker.pc)
    ensures !Ready(ApplyWorker(w, Works)) && !Underway(ApplyWorker(w, Works))
  {
    ContinuingWorker(w, Works);
    OthersKeepJob(w.api, RequestAt(w.worker.pc).value, Works, ByWorker(w.worker.answers));
    if !w.worker.pc.Fetch? {
      HeldJob(w);
    }
    if w.worker.pc.Create? {
      NewPodIsOwned(w.api.id);
    }
  }

  lemma WaitingStep(w: World, l: Label)
    requires Waiting(w) && Enabled(w, l) && (ControllerMoves(l) || l.Tick?)
    ensures Waiting(Apply(w, l))
  {
    InvStep(w, l);
    if l.WorkerStep? {
      if Writes(w.worker.pc) {
        WriteKeepsWaiting(w);
      } else {
        ReadKeepsWaiting(w);
      }
    }
  }

  lemma FinishedStep(w: World, l: Label)
    requires Inv(w) && Finished(w.api.job) && Enabled(w, l) && (ControllerMoves(l) || l.Tick?)
    ensures Finished(Apply(w, l).api.job)
  {
    EachJobStep(w, l);
    if l.WorkerStep? && !w.worker.pc.Fetch? {
      HeldJob(w);
    }
  }

  /** The worker does not touch what the kubelet reported. */
  lemma WorkerPodKept(w: World)
    requires SnapshotInv(w) && w.worker.Busy? && RequestAt(w.worker.pc).Some? && !w.worker.pc.Create?
    ensures var api := ApplyWorker(w, Works).api; api.pod == w.api.pod || api.pod.None?
  {}

  // Fair behaviours

  ghost predicate Behaviour(t: nat -> World, l: nat -> Label) {
    Init(t(0)) && forall i: nat :: Enabled(t(i), l(i)) && t(i + 1) == Apply(t(i), l(i))
  }

  /** From `n` on only the controller and the clock move, and no call is refused:
      drivers have halted, and calls, users and faults are finitely many. */
  ghost predicate SilentFrom(l: nat -> Label, n: nat) {
    forall i: nat :: n <= i ==> l(i).Tick? || ControllerMoves(l(i))
  }

  /** While something is pending, the controller eventually moves. */
  ghost predicate Fair(t: nat -> World, l: nat -> Label) {
    forall i: nat :: Pending(t(i)) ==> exists j: nat :: i <= j && ControllerMoves(l(j))
  }

  lemma {:induction false} BehaviourInv(t: nat -> World, l: nat -> Label, i: nat)
    requires Behaviour(t, l)
    ensures Inv(t(i))
  {
    if i == 0 {
      InitInv(t(0));
    } else {
      BehaviourInv(t, l, i - 1);
      assert Enabled(t(i - 1), l(i - 1)) && t(i - 1 + 1) == Apply(t(i - 1), l(i - 1));
      InvStep(t(i - 1), l(i - 1));
    }
  }

  /** From `i`, some later controller move makes the measure smaller, or the job
      needs no more work. */
  lemma {:induction false} NextMove(t: nat -> World, l: nat -> Label, n: nat, i: nat, j: nat) returns (k: nat)
    requires Behaviour(t, l) && SilentFrom(l, n) && n <= i <= j && ControllerMoves(l(j))
    requires Closing(t(i)) && NeedsWork(t(i).api.job)
    ensures i < k && Closing(t(k))
    ensures !NeedsWork(t(k).api.job) || Measure(t(k)) < Measure(t(i))
    decreases j - i
  {
    assert Enabled(t(i), l(i)) && t(i + 1) == Apply(t(i), l(i));
    ClosingStep(t(i), l(i));
    if ControllerMoves(l(i)) {
      k := i + 1;
      if NeedsWork(t(k).api.job) {
        MoveDecreases(t(i), l(i));
      }
    } else {
      assert l(i).Tick?;
      k := NextMove(t, l, n, i + 1, j);
    }
  }

  lemma {:induction false} Descends(t: nat -> World, l: nat -> Label, n: nat, i: nat) returns (m: nat)
    requires Behaviour(t, l) && SilentFrom(l, n) && Fair(t, l) && n <= i && Closing(t(i))
    ensures i <= m && !NeedsWork(t(m).api.job) && Inv(t(m))
    decreases Measure(t(i))
  {
    if !NeedsWork(t(i).api.job) {
      m := i;
    } else {
      assert Pending(t(i));
      var j: nat :| i <= j && ControllerMoves(l(j));
      var k := NextMove(t, l, n, i, j);
      if NeedsWork(t(k).api.job) {
        m := Descends(t, l, n, k);
      } else {
        m := k;
      }
    }
  }

  lemma {:induction false} StaysFinished(t: nat -> World, l: nat -> Label, n: nat, m: nat, k: nat)
    requires Behaviour(t, l) && SilentFrom(l, n) && n <= m <= k && Finished(t(m).api.job)
    ensures Finished(t(k).api.job)
    decreases k
  {
    if m < k {
      var i := k - 1;
      StaysFinished(t, l, n, m, i);
      BehaviourInv(t, l, i);
      assert Enabled(t(i), l(i)) && t(i + 1) == Apply(t(i), l(i));
      FinishedStep(t(i), l(i));
    }
  }

  /** The job is not about to be ready, or nothing will look at it again. */
  ghost predicate Hopeless(w: World) {
    Inv(w) && (Waiting(w) || Stranded(w))
  }

  lemma HopelessStep(w: World, l: Label)
    requires Hopeless(w) && Enabled(w, l) && (ControllerMoves(l) || l.Tick?)
    ensures Hopeless(Apply(w, l))
  {
    InvStep(w, l);
    if Waiting(w) {
      WaitingStep(w, l);
    }
  }

  lemma HopelessIsUnfinished(w: World)
    requires Hopeless(w)
    ensures !Finished(w.api.job)
  {}

  lemma {:induction false} NeverFinishes(t: nat -> World, l: nat -> Label, n: nat, k: nat)
    requires Behaviour(t, l) && SilentFrom(l, n) && n <= k && Hopeless(t(n))
    ensures Hopeless(t(k)) && !Finished(t(k).api.job)
    decreases k
  {
    if n < k {
      var i := k - 1;
      NeverFinishes(t, l, n, i);
      assert Enabled(t(i), l(i)) && t(i + 1) == Apply(t(i), l(i));
      HopelessStep(t(i), l(i));
    }
    HopelessIsUnfinished(t(k));
  }

  ghost predicate FinishedFrom(t: nat -> World, m: nat) {
    forall k: nat :: m <= k ==> Finished(t(k).api.job)
  }

  lemma ClosingFinishes(t: nat -> World, l: nat -> Label, n: nat) returns (m: nat)
    requires Behaviour(t, l) && SilentFrom(l, n) && Fair(t, l) && Closing(t(n))
    ensures n <= m && FinishedFrom(t, m)
  {
    m := Descends(t, l, n, n);
    assert t(m).api.job.Some? ==> StoredOk(t(m).api.job.value, t(m).api.now);
    forall k: nat | m <= k ensures Finished(t(k).api.job) {
      StaysFinished(t, l, n, m, k);
    }
  }

  /** Termination: of the fair runs in which, from some moment on, everyone but the
      controller is silent, exactly those bring the job to its end, removed for
      good or for good Complete with its completion time, in which at that moment
      the job is ready or about to be, and not stranded. */
  lemma FairRunsFinish(t: nat -> World, l: nat -> Label, n: nat)
    requires Behaviour(t, l) && SilentFrom(l, n) && Fair(t, l)
    ensures (exists m: nat :: n <= m && FinishedFrom(t, m))
            <==> (Ready(t(n)) || Underway(t(n))) && !Stranded(t(n))
  {
    BehaviourInv(t, l, n);
    if Closing(t(n)) {
      var m := ClosingFinishes(t, l, n);
    } else if m: nat :| n <= m && FinishedFrom(t, m) {
      NeverFinishes(t, l, n, m);
    }
  }

  // After the end

  /** A reconcile of a job that is gone or finished asks for nothing more: not even
      the NotFound error of its fetch comes back. */
  lemma FinishedIsLeftAlone(w: World)
    requires Reachable(w) && Finished(w.api.job) && w.worker.Busy? && w.worker.pc.Fetch?
    ensures var w' := ApplyWorker(w, Works);
            w'.worker.Idle? && w'.timer == w.timer && w'.backoff == w.backoff && w'.api == w.api
  {
    ReachableInv(w);
  }

  /** What may still stir the controller. */
  function Commotion(w: World): nat {
    (if w.timer then 10 else 0) + (if w.backoff then 10 else 0) + (if w.api.queued then 5 else 0)
    + if w.worker.Idle? then 0 else if w.worker.pc.Fetch? then 3 else 100 * StepsLeft(w.worker.pc)
  }

  lemma CommotionFalls(w: World, l: Label)
    requires Inv(w) && Finished(w.api.job) && Enabled(w, l) && ControllerMoves(l)
    ensures Commotion(Apply(w, l)) < Commotion(w)
  {
    if l.WorkerStep? && !w.worker.pc.Fetch? {
      WorkerResumes(w, Works);
      var pc' := Resume(w.worker.pc, WorkerExchange(w, Works).1);
      if !pc'.Returned? {
        HandlersAdvance(w.worker.pc, WorkerExchange(w, Works).1);
      }
    }
  }

  lemma TickKeepsCommotion(w: World)
    ensures Commotion(Apply(w, Tick)) == Commotion(w)
  {}

  lemma {:induction false} NextStir(t: nat -> World, l: nat -> Label, n: nat, i: nat, j: nat) returns (k: nat)
    requires Behaviour(t, l) && SilentFrom(l, n) && n <= i <= j && ControllerMoves(l(j)) && Finished(t(i).api.job)
    ensures i < k && Finished(t(k).api.job) && Commotion(t(k)) < Commotion(t(i))
    decreases j - i
  {
    BehaviourInv(t, l, i);
    k := i + 1;
    assert Enabled(t(i), l(i)) && t(k) == Apply(t(i), l(i));
    FinishedStep(t(i), l(i));
    if ControllerMoves(l(i)) {
      CommotionFalls(t(i), l(i));
    } else {
      TickKeepsCommotion(t(i));
      k := NextStir(t, l, n, k, j);
    }
  }

  lemma {:induction false} GoesQuiet(t: nat -> World, l: nat -> Label, n: nat, i: nat) returns (m: nat)
    requires Behaviour(t, l) && SilentFrom(l, n) && Fair(t, l) && n <= i && Finished(t(i).api.job)
    ensures i <= m && !Pending(t(m))
    decreases Commotion(t(i))
  {
    if !Pending(t(i)) {
      m := i;
    } else {
      var j: nat :| i <= j && ControllerMoves(l(j));
      var k := NextStir(t, l, n, i, j);
      m := GoesQuiet(t, l, n, k);
    }
  }

  lemma {:induction false} StaysQuiet(t: nat -> World, l: nat -> Label, n: nat, m: nat, k: nat)
    requires Behaviour(t, l) && SilentFrom(l, n) && n <= m <= k && !Pending(t(m))
    ensures !Pending(t(k))
    decreases k
  {
    if m < k {
      var i := k - 1;
      StaysQuiet(t, l, n, m, i);
      assert Enabled(t(i), l(i)) && t(i + 1) == Apply(t(i), l(i));
    }
  }

  /** Once a job is gone, or Complete with its time, and everyone but the controller
      is silent, the controller leaves it alone: from some moment on nothing is
      running, queued, on a timer or in backoff. */
  lemma FinishedRunsGoQuiet(t: nat -> World, l: nat -> Label, n: nat) returns (m: nat)
    requires Behaviour(t, l) && SilentFrom(l, n) && Fair(t, l) && Finished(t(n).api.job)
    ensures n <= m && forall k: nat :: m <= k ==> !Pending(t(k))
  {
    m := GoesQuiet(t, l, n, n);
    forall k: nat | m <= k ensures !Pending(t(k)) {
      StaysQuiet(t, l, n, m, k);
    }
  }
}
