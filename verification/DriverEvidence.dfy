/** What the driver's messages prove, and which of them took effect. */
module DriverEvidence {
  import opened Options
  import opened Types
  import opened Handlers
  import opened Calls
  import opened Protocol
  import opened Snapshots
  import opened Lifecycle
  import opened Cleanup

  /** Some driver saw its program succeed and then gathered this text. */
  predicate Proves(e: Evidence, results: string) {
    e.programOk && results in e.gathered
  }

  predicate Backed(e: Evidence, m: Message) {
    m.reason == SucceedReason ==> m.results.Some? && Proves(e, m.results.value)
  }

  /** A success report is sent only after the program succeeded and the results
      it carries were gathered, by whichever driver. */
  ghost predicate ReportsProven(w: World) {
    && (w.api.driver.Awaiting? ==> w.api.driver.pc.SendRunning? || w.api.driver.pc.SendComplete?)
    && (!w.api.driver.Off? ==>
          && (w.api.driver.pc.ReadResults? ==> w.evidence.programOk)
          && (w.api.driver.pc.SendComplete? ==> Backed(w.evidence, w.api.driver.pc.msg)))
    && forall i :: 0 <= i < |w.calls| && w.calls[i].fromDriver ==> Backed(w.evidence, w.calls[i].msg)
  }

  lemma ReportsProvenByServer(w: World, l: Label)
    requires ReportsProven(w) && Enabled(w, l) && (l.WorkerStep? || l.CallStep?)
    ensures ReportsProven(Apply(w, l))
  {
    if l.WorkerStep? {
      ExchangeFrame(w.api, RequestAt(w.worker.pc).value, l.fault, ByWorker(w.worker.answers));
    } else {
      ExchangeFrame(w.api, CallRequest(w.calls[l.call].pc).value, l.fault, ByCall(w.calls[l.call].msg));
    }
  }

  lemma ReportsProvenByDriver(w: World, l: Label)
    requires ReportsProven(w) && Enabled(w, l)
    requires DriverMoves(l)
    ensures ReportsProven(Apply(w, l))
  {}

  lemma ReportsProvenStep(w: World, l: Label)
    requires ReportsProven(w) && Enabled(w, l)
    ensures ReportsProven(Apply(w, l))
  {
    if l.WorkerStep? || l.CallStep? {
      ReportsProvenByServer(w, l);
    } else if DriverMoves(l) {
      ReportsProvenByDriver(w, l);
    } else {
      assert Apply(w, l).evidence == w.evidence;
    }
  }

  /** With at most one pod ever created, at most one text is gathered. */
  predicate OneText(w: World) {
    && (forall s, t :: s in w.evidence.gathered && t in w.evidence.gathered ==> s == t)
    && (w.api.creations == 0 || Early(w.api.driver) ==> w.evidence.gathered == {})
  }

  predicate Early(d: Driver) {
    !d.Off? && (d.pc.SendRunning? || d.pc.Execute? || d.pc.ReadResults?)
  }

  lemma OneTextByWorker(w: World, fault: Fault)
    requires SnapshotInv(w) && DriverInPod(w.api) && w.worker.Busy? && RequestAt(w.worker.pc).Some?
    requires w.api.creations <= 1 ==> OneText(w)
    requires ApplyWorker(w, fault).api.creations <= 1
    ensures OneText(ApplyWorker(w, fault))
  {
    WorkerPodRequest(w);
    PodExchange(w.api, RequestAt(w.worker.pc).value, fault, ByWorker(w.worker.answers));
    assert ApplyWorker(w, fault).evidence == w.evidence;
  }

  lemma OneTextByDriver(w: World, l: Label)
    requires OneText(w) && ReportsProven(w) && Enabled(w, l) && !l.WorkerStep? && !l.CallStep?
    requires DriverInPod(w.api) && w.api.creations <= 1
    ensures OneText(Apply(w, l))
  {}

  lemma OneTextStep(w: World, l: Label)
    requires SnapshotInv(w) && DriverInPod(w.api) && ReportsProven(w) && Enabled(w, l)
    requires w.api.creations <= 1 ==> OneText(w)
    requires Apply(w, l).api.creations <= 1
    ensures OneText(Apply(w, l))
  {
    DriverInPodStep(w, l);
    if l.WorkerStep? {
      OneTextByWorker(w, l.fault);
    } else if l.CallStep? {
      CallStepCalls(w, l.call, l.fault);
    } else {
      OneTextByDriver(w, l);
    }
  }

  predicate Granted(w: World, i: Option<nat>) {
    i.Some? && i.value < |w.calls| && w.calls[i.value].pc == Answered(None)
  }

  predicate IsRunningCall(w: World, i: nat) {
    i < |w.calls| && w.calls[i].fromDriver && w.calls[i].msg == RUNNING_MESSAGE
  }

  predicate IsReportCall(w: World, i: nat) {
    i < |w.calls| && w.calls[i].fromDriver && IsReport(w.calls[i].msg)
  }

  /** With at most one pod ever created, the driver's calls are its Running call
      and, after that was granted, its report. */
  ghost predicate KnownCalls(w: World) {
    var e := w.evidence;
    && (forall i :: 0 <= i < |w.calls| && w.calls[i].fromDriver ==>
                      (e.runningCall == Some(i) && IsRunningCall(w, i)) || (e.completeCall == Some(i) && IsReportCall(w, i)))
    && (e.runningCall.Some? ==> IsRunningCall(w, e.runningCall.value))
    && (e.completeCall.Some? ==> IsReportCall(w, e.completeCall.value) && Granted(w, e.runningCall))
    && (w.api.creations == 0 ==> e.runningCall.None?)
  }

  ghost predicate KnownEffects(w: World) {
    var e, f := w.evidence, w.effects;
    && (Granted(w, e.runningCall) ==> f.running)
    && (f.running ==> e.runningCall.Some? && e.runningCall.value < |w.calls| && w.calls[e.runningCall.value].pc.Answered?)
    && (Granted(w, e.completeCall) ==> f.verdict.Some?)
    && (f.verdict.Some? ==>
          && e.completeCall.Some? && e.completeCall.value < |w.calls|
          && w.calls[e.completeCall.value].pc.Answered?
          && f.verdict.value == w.calls[e.completeCall.value].msg)
  }

  ghost predicate KnownDriver(w: World) {
    var e, d := w.evidence, w.api.driver;
    match d
    case Off => true
    case At(pc) =>
      (match pc
       case SendRunning => e.runningCall.None?
       case Exit(code) => code == 0 ==> w.effects.verdict.Some?
       case _ => e.completeCall.None? && Granted(w, e.runningCall))
    case Awaiting(pc, n) =>
      if pc.SendRunning? then e.runningCall == Some(n) && e.completeCall.None?
      else pc.SendComplete? && e.completeCall == Some(n)
  }

  ghost predicate Known(w: World) {
    KnownCalls(w) && KnownEffects(w) && KnownDriver(w)
  }

  /** A call step touches no other call, and grants its own only with effect. */
  lemma CallStepCalls(w: World, i: nat, fault: Fault)
    requires SnapshotInv(w) && i < |w.calls| && CallRequest(w.calls[i].pc).Some?
    ensures var w' := ApplyCall(w, i, fault);
            && |w'.calls| == |w.calls|
            && (forall k :: 0 <= k < |w.calls| && k != i ==> w'.calls[k] == w.calls[k])
            && w'.calls[i].msg == w.calls[i].msg && w'.calls[i].fromDriver == w.calls[i].fromDriver
            && (w'.calls[i].pc == Answered(None) ==> TakesEffect(w, i, fault))
            && (TakesEffect(w, i, fault) ==> w'.calls[i].pc.Answered?)
            && w'.api.driver == w.api.driver && w'.evidence == w.evidence && w'.api.creations == w.api.creations
  {}

  lemma KnownByCall(w: World, i: nat, fault: Fault)
    requires SnapshotInv(w) && Known(w) && i < |w.calls| && CallRequest(w.calls[i].pc).Some?
    ensures Known(ApplyCall(w, i, fault))
  {
    CallStepCalls(w, i, fault);
    var w' := ApplyCall(w, i, fault);
    var e := w.evidence;
    assert w.calls[i].fromDriver ==> e.runningCall == Some(i) || e.completeCall == Some(i);
    assert e.completeCall == Some(i) ==> IsReportCall(w, i);
    assert e.runningCall == Some(i) ==> IsRunningCall(w, i);
    assert forall k :: 0 <= k < |w.calls| && w.calls[k].fromDriver ==>
        (e.runningCall == Some(k) && IsRunningCall(w', k)) || (e.completeCall == Some(k) && IsReportCall(w', k));
  }

  lemma KnownBySend(w: World)
    requires LifecycleInv(w) && Known(w) && DriverInPod(w.api) && Enabled(w, DriverSend)
    ensures Known(ApplySend(w))
  {
    var w' := ApplySend(w);
    assert forall i :: 0 <= i < |w.calls| ==> w'.calls[i] == w.calls[i];
    assert w.api.driver.pc.SendComplete? ==> IsReport(w.api.driver.pc.msg);
  }

  lemma KnownByReply(w: World)
    requires Known(w) && Enabled(w, DriverReply)
    ensures Known(Apply(w, DriverReply))
  {
    var pc, n, ok := w.api.driver.pc, w.api.driver.call, w.calls[w.api.driver.call].pc.error.None?;
    var w' := Apply(w, DriverReply);
    assert w'.calls == w.calls;
    if ok {
      assert Granted(w, Some(n));
    }
  }

  lemma KnownByDriver(w: World, l: Label)
    requires Known(w) && Enabled(w, l)
    requires l.DriverGiveUp? || l.DriverWork? || l.DriverCrash?
    ensures Known(Apply(w, l))
  {
    var w' := Apply(w, l);
    assert w'.calls == w.calls && w'.evidence.completeCall == w.evidence.completeCall
           && w'.evidence.runningCall == w.evidence.runningCall;
  }

  lemma WorkerLeavesDriver(w: World, fault: Fault)
    requires SnapshotInv(w) && DriverInPod(w.api) && w.worker.Busy? && RequestAt(w.worker.pc).Some?
    ensures var w' := ApplyWorker(w, fault);
            && w'.calls == w.calls && w'.evidence == w.evidence && w'.effects == w.effects
            && w.api.creations <= w'.api.creations
            && if w'.api.creations == w.api.creations then w'.api.driver == w.api.driver || w'.api.driver.Off?
               else w'.api.driver == At(SendRunning)
  {
    WorkerPodRequest(w);
    PodExchange(w.api, RequestAt(w.worker.pc).value, fault, ByWorker(w.worker.answers));
    ExchangeFrame(w.api, RequestAt(w.worker.pc).value, fault, ByWorker(w.worker.answers));
  }

  lemma KnownByWorker(w: World, fault: Fault)
    requires SnapshotInv(w) && DriverInPod(w.api) && w.worker.Busy? && RequestAt(w.worker.pc).Some?
    requires w.api.creations <= 1 ==> Known(w)
    requires ApplyWorker(w, fault).api.creations <= 1
    ensures Known(ApplyWorker(w, fault))
  {
    WorkerLeavesDriver(w, fault);
    if ApplyWorker(w, fault).api.creations == w.api.creations {
      KnownByOthers(w, ApplyWorker(w, fault));
    }
  }

  /** The remaining steps leave the calls and their effects alone. */
  lemma OthersKeepCalls(w: World, l: Label)
    requires Enabled(w, l) && !l.WorkerStep? && !l.CallStep?
    requires !l.DriverSend? && !l.DriverReply? && !l.DriverGiveUp? && !l.DriverWork? && !l.DriverCrash?
    ensures var w' := Apply(w, l);
            && |w.calls| <= |w'.calls| && w'.evidence == w.evidence && w'.effects == w.effects
            && (forall i :: 0 <= i < |w.calls| ==> w'.calls[i] == w.calls[i])
            && (forall i :: |w.calls| <= i < |w'.calls| ==> !w'.calls[i].fromDriver)
            && (w'.api.driver == w.api.driver || w'.api.driver.Off?) && w'.api.creations == w.api.creations
  {}

  lemma KnownByOthers(w: World, w': World)
    requires Known(w)
    requires |w.calls| <= |w'.calls| && w'.evidence == w.evidence && w'.effects == w.effects
    requires forall i :: 0 <= i < |w.calls| ==> w'.calls[i] == w.calls[i]
    requires forall i :: |w.calls| <= i < |w'.calls| ==> !w'.calls[i].fromDriver
    requires w'.api.driver == w.api.driver || w'.api.driver.Off?
    requires w'.api.creations == w.api.creations
    ensures Known(w')
  {}

  lemma KnownStep(w: World, l: Label)
    requires SnapshotInv(w) && LifecycleInv(w) && DriverInPod(w.api) && Enabled(w, l)
    requires w.api.creations <= 1 ==> Known(w)
    requires Apply(w, l).api.creations <= 1
    ensures Known(Apply(w, l))
  {
    DriverInPodStep(w, l);
    if l.WorkerStep? {
      KnownByWorker(w, l.fault);
    } else if l.CallStep? {
      KnownByCall(w, l.call, l.fault);
    } else if l.DriverSend? {
      KnownBySend(w);
    } else if l.DriverReply? {
      KnownByReply(w);
    } else if l.DriverGiveUp? || l.DriverWork? || l.DriverCrash? {
      KnownByDriver(w, l);
    } else {
      OthersKeepCalls(w, l);
      KnownByOthers(w, Apply(w, l));
    }
  }
}
