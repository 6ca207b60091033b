/** Where what is stored comes from, in every run: the times from clock readings
    in the same round, the results from messages that took effect, and a driver's
    report from what its program and its walk came to. */
module Origins {
  import opened Options
  import opened Types
  import opened Handlers
  import opened Calls
  import opened Conversations
  import opened Protocol
  import opened Snapshots
  import opened Commits
  import opened Lifecycle
  import opened Cleanup
  import opened DriverEvidence
  import opened Guarantees
  import opened Failures

  // The times

  /** The handler is about to store `t` as the completion time. */
  predicate HoldsFinish(w: World, t: Time) {
    w.worker.Busy? && w.worker.pc.RecordFinish? && w.worker.pc.job.status.completeTime == Some(t)
  }

  /** The handler has read `t` off the clock as the schedule time. */
  predicate HoldsSchedule(w: World, t: Time) {
    && w.worker.Busy?
    && match w.worker.pc
       case Create(_, at) => at == t
       case RecordScheduled(job) => job.status.lastScheduleTime == Some(t)
       case _ => false
  }

  /** A handler on a complete job reads the clock. */
  predicate ReadsFinish(w: World, l: Label, t: Time) {
    && l.WorkerStep? && w.worker.Busy? && w.worker.pc.ReadFinishClock? && w.api.now == t
    && w.worker.base.Some? && w.worker.base.value.status.state == Complete
  }

  /** A handler on an unscheduled job reads the clock. */
  predicate ReadsSchedule(w: World, l: Label, t: Time) {
    && l.WorkerStep? && w.worker.Busy? && w.worker.pc.ReadClock? && w.api.now == t
    && w.worker.base.Some? && w.worker.base.value.status.lastScheduleTime.None?
  }

  /** The times a handler holds are those it was answered. */
  lemma TimePath(pc: Pc, r: Response)
    ensures Resume(pc, r).RecordFinish? ==>
              pc.ReadFinishClock? && r.TimeIs? && Resume(pc, r).job.status.completeTime == Some(r.time)
    ensures Resume(pc, r).Create? ==> pc.ReadClock? && r.TimeIs? && Resume(pc, r).at == r.time
    ensures Resume(pc, r).RecordScheduled? ==>
              pc.Create? && Resume(pc, r).job.status.lastScheduleTime == Some(pc.at)
  {}

  lemma TimeAnswered(w: World, fault: Fault)
    requires w.worker.Busy? && RequestAt(w.worker.pc).Some?
    ensures RequestAt(w.worker.pc).value.Now? ==> WorkerExchange(w, fault).1 == TimeIs(w.api.now)
    ensures var w' := ApplyWorker(w, fault);
            w'.worker.Busy? ==>
              && w'.worker.pc == Resume(w.worker.pc, WorkerExchange(w, fault).1)
              && (!w.worker.pc.Fetch? ==> w'.worker.base == w.worker.base)
  {}

  lemma BaseHeld(w: World)
    requires Reachable(w) && w.worker.Busy? && (w.worker.pc.ReadFinishClock? || w.worker.pc.ReadClock?)
    ensures w.worker.base.Some?
    ensures w.worker.pc.ReadFinishClock? ==> w.worker.base.value.status.state == Complete
    ensures w.worker.pc.ReadClock? ==> w.worker.base.value.status.lastScheduleTime.None?
  {
    ReachableInv(w);
    HeldJob(w);
  }

  lemma FinishByWorker(w: World, fault: Fault, t: Time)
    requires Reachable(w) && w.worker.Busy? && RequestAt(w.worker.pc).Some? && HoldsFinish(ApplyWorker(w, fault), t)
    ensures ReadsFinish(w, WorkerStep(fault), t) && ApplyWorker(w, fault).worker.base == w.worker.base
  {
    TimeAnswered(w, fault);
    TimePath(w.worker.pc, WorkerExchange(w, fault).1);
    BaseHeld(w);
  }

  lemma ScheduleByWorker(w: World, fault: Fault, t: Time)
    requires Reachable(w) && w.worker.Busy? && RequestAt(w.worker.pc).Some? && HoldsSchedule(ApplyWorker(w, fault), t)
    ensures ReadsSchedule(w, WorkerStep(fault), t) || HoldsSchedule(w, t)
    ensures ApplyWorker(w, fault).worker.base == w.worker.base
  {
    TimeAnswered(w, fault);
    TimePath(w.worker.pc, WorkerExchange(w, fault).1);
    if w.worker.pc.ReadClock? {
      BaseHeld(w);
    }
  }

  lemma {:induction false} FinishRead(ws: seq<World>, ls: seq<Label>, j: nat, t: Time) returns (i: nat)
    requires IsRun(ws, ls) && j < |ws| && HoldsFinish(ws[j], t)
    ensures i < j && ReadsFinish(ws[i], ls[i], t) && ws[i].worker.base == ws[j].worker.base
    decreases j
  {
    assert j > 0;
    i := j - 1;
    RunStep(ws, ls, i);
    if ls[i].WorkerStep? {
      FinishByWorker(ws[i], ls[i].fault, t);
    } else {
      StepFrame(ws[i], ls[i]);
      i := FinishRead(ws, ls, i, t);
    }
  }

  lemma {:induction false} ScheduleRead(ws: seq<World>, ls: seq<Label>, j: nat, t: Time) returns (i: nat)
    requires IsRun(ws, ls) && j < |ws| && HoldsSchedule(ws[j], t)
    ensures i < j && ReadsSchedule(ws[i], ls[i], t) && ws[i].worker.base == ws[j].worker.base
    decreases j
  {
    assert j > 0;
    i := j - 1;
    RunStep(ws, ls, i);
    if ls[i].WorkerStep? {
      ScheduleByWorker(ws[i], ls[i].fault, t);
    } else {
      StepFrame(ws[i], ls[i]);
    }
    if !ReadsSchedule(ws[i], ls[i], t) {
      i := ScheduleRead(ws, ls, i, t);
    }
  }

  lemma NewFinish(w: World, l: Label, t: Time)
    requires Reachable(w) && Enabled(w, l) && w.api.job.Some? && Apply(w, l).api.job.Some?
    requires Apply(w, l).api.job.value.status.completeTime == Some(t) != w.api.job.value.status.completeTime
    ensures l.WorkerStep? && HoldsFinish(w, t) && w.worker.base == w.api.job
  {
    ReachableInv(w);
    EachJobStep(w, l);
    if l.WorkerStep? {
      HeldJob(w);
    }
  }

  lemma NewSchedule(w: World, l: Label, t: Time)
    requires Reachable(w) && Enabled(w, l) && w.api.job.Some? && Apply(w, l).api.job.Some?
    requires Apply(w, l).api.job.value.status.lastScheduleTime == Some(t) != w.api.job.value.status.lastScheduleTime
    ensures l.WorkerStep? && HoldsSchedule(w, t) && w.worker.base == w.api.job
  {
    ReachableInv(w);
    EachJobStep(w, l);
    if l.WorkerStep? {
      HeldJob(w);
    }
  }

  lemma {:induction false} VersionsGrow(ws: seq<World>, ls: seq<Label>, i: nat, j: nat)
    requires IsRun(ws, ls) && i <= j < |ws| && ws[j].api.job.Some?
    ensures ws[i].api.job.Some? && (ws[i].api.job == ws[j].api.job
                                    || ws[i].api.job.value.version < ws[j].api.job.value.version)
    decreases j
  {
    if i < j {
      var k := j - 1;
      RunStep(ws, ls, k);
      JobAdvances(ws[k], ls[k]);
      VersionsGrow(ws, ls, i, k);
    }
  }

  lemma HoldsNewest(w: World)
    requires Reachable(w) && w.worker.Busy? && w.worker.base.Some?
    ensures w.api.job.Some? ==> w.worker.base == w.api.job || w.worker.base.value.version < w.api.job.value.version
  {
    ReachableInv(w);
  }

  /** A completion time that is stored was read off the clock by the handler that
      stores it, when the same, already complete job was stored. */
  lemma CompletionTimeIsRead(ws: seq<World>, ls: seq<Label>, j: nat, t: Time) returns (i: nat)
    requires IsRun(ws, ls) && j < |ls| && ws[j].api.job.Some? && ws[j + 1].api.job.Some?
    requires ws[j + 1].api.job.value.status.completeTime == Some(t) != ws[j].api.job.value.status.completeTime
    ensures i < j && ls[i].WorkerStep? && ws[i].api.now == t && ws[i].api.job == ws[j].api.job
    ensures ws[j].api.job.value.status.state == Complete
  {
    RunStep(ws, ls, j);
    NewFinish(ws[j], ls[j], t);
    i := FinishRead(ws, ls, j, t);
    VersionsGrow(ws, ls, i, j);
    RunStep(ws, ls, i);
    HoldsNewest(ws[i]);
  }

  /** A schedule time that is stored was read off the clock by the handler that
      stores it, before the pod's creation, when the same job was stored. */
  lemma ScheduleTimeIsRead(ws: seq<World>, ls: seq<Label>, j: nat, t: Time) returns (i: nat)
    requires IsRun(ws, ls) && j < |ls| && ws[j].api.job.Some? && ws[j + 1].api.job.Some?
    requires ws[j + 1].api.job.value.status.lastScheduleTime == Some(t) != ws[j].api.job.value.status.lastScheduleTime
    ensures i < j && ls[i].WorkerStep? && ws[i].api.now == t && ws[i].api.job == ws[j].api.job
    ensures !Recorded(ws[j].api.job)
  {
    RunStep(ws, ls, j);
    NewSchedule(ws[j], ls[j], t);
    i := ScheduleRead(ws, ls, j, t);
    VersionsGrow(ws, ls, i, j);
    RunStep(ws, ls, i);
    HoldsNewest(ws[i]);
  }

  // The results

  /** What a status call that takes effect leaves: without a text the message is
      kept, without results the results, and the controller's fields always. */
  lemma EffectOfCall(w: World, i: nat, fault: Fault)
    requires Reachable(w) && i < |w.calls| && CallRequest(w.calls[i].pc).Some? && TakesEffect(w, i, fault)
    ensures w.api.job.Some? && ApplyCall(w, i, fault).api.job.Some?
    ensures Edited(w.api.job.value.status, ApplyCall(w, i, fault).api.job.value.status, w.calls[i].msg)
  {
    ReachableInv(w);
    CallCommits(w, i, fault);
  }

  /** The call carries results, and they are stored. */
  predicate Delivers(w: World, l: Label, results: string)
    requires Enabled(w, l)
  {
    l.CallStep? && TakesEffect(w, l.call, l.fault) && w.calls[l.call].msg.results == Some(results)
  }

  /** Stored results change exactly when a call that carries others takes effect:
      neither the controller nor a call without results touches them. */
  lemma ResultsChangeExactly(w: World, l: Label)
    requires Reachable(w) && Enabled(w, l) && w.api.job.Some? && Apply(w, l).api.job.Some?
    ensures var before, after := w.api.job.value.status.results, Apply(w, l).api.job.value.status.results;
            && (after != before ==> Delivers(w, l, after))
            && (forall results :: Delivers(w, l, results) ==> after == results)
  {
    ReachableInv(w);
    if l.CallStep? {
      CallCommits(w, l.call, l.fault);
      if TakesEffect(w, l.call, l.fault) {
        EffectOfCall(w, l.call, l.fault);
      }
    } else {
      EachJobStep(w, l);
      if l.WorkerStep? && !w.worker.pc.Fetch? {
        HeldJob(w);
      }
    }
  }

  /** So in every run results that are stored came with a call. */
  lemma {:induction false} ResultsOrigin(ws: seq<World>, ls: seq<Label>, j: nat) returns (i: nat)
    requires IsRun(ws, ls) && j < |ws| && ws[j].api.job.Some? && ws[j].api.job.value.status.results != ""
    ensures i < j && Enabled(ws[i], ls[i]) && Delivers(ws[i], ls[i], ws[j].api.job.value.status.results)
    decreases j
  {
    assert j > 0;
    i := j - 1;
    RunStep(ws, ls, i);
    JobAdvances(ws[i], ls[i]);
    if ws[i].api.job.value.status.results == ws[j].api.job.value.status.results {
      i := ResultsOrigin(ws, ls, i);
    } else {
      ResultsChangeExactly(ws[i], ls[i]);
    }
  }

  // The reports

  /** A driver is about to send the message, or has sent it. */
  ghost predicate Carries(w: World, m: Message) {
    || (!w.api.driver.Off? && w.api.driver.pc == SendComplete(m))
    || exists k :: 0 <= k < |w.calls| && w.calls[k].fromDriver && w.calls[k].msg == m
  }

  /** The driver's program, or the walk after it, ends this way. */
  predicate ComesTo(w: World, l: Label, o: Outcome) {
    l == DriverWork(o) && w.api.driver.At? && (w.api.driver.pc.Execute? || w.api.driver.pc.ReadResults?)
  }

  /** What a report tells about the driver's program and walk. */
  predicate Tells(w: World, l: Label, m: Message) {
    if m.reason == FailedReason then ComesTo(w, l, Problem(m.text))
    else m.results.Some? && ComesTo(w, l, Fine(m.results.value)) && w.api.driver.pc.ReadResults?
  }

  lemma CarriesByServer(w: World, l: Label, m: Message)
    requires Enabled(w, l) && (l.WorkerStep? || l.CallStep?) && IsReport(m) && Carries(Apply(w, l), m)
    ensures Carries(w, m)
  {
    if l.WorkerStep? {
      ExchangeFrame(w.api, RequestAt(w.worker.pc).value, l.fault, ByWorker(w.worker.answers));
      assert Apply(w, l).calls == w.calls;
    } else {
      ExchangeFrame(w.api, CallRequest(w.calls[l.call].pc).value, l.fault, ByCall(w.calls[l.call].msg));
    }
  }

  lemma DriverWaits(w: World)
    requires Reachable(w) && w.api.driver.Awaiting?
    ensures w.api.driver.pc.SendRunning? || w.api.driver.pc.SendComplete?
  {
    ReachableInv(w);
  }

  lemma CarriesByDriver(w: World, l: Label, m: Message)
    requires Reachable(w) && Enabled(w, l) && DriverMoves(l) && IsReport(m) && Carries(Apply(w, l), m)
    ensures Carries(w, m) || Tells(w, l, m)
  {
    if w.api.driver.Awaiting? {
      DriverWaits(w);
    }
    var w' := Apply(w, l);
    if l.DriverSend? {
      assert forall k :: 0 <= k < |w.calls| ==> w'.calls[k] == w.calls[k];
    } else {
      assert w'.calls == w.calls;
    }
  }

  lemma CarriesByOthers(w: World, l: Label, m: Message)
    requires Enabled(w, l) && !DriverMoves(l) && !l.WorkerStep? && !l.CallStep? && Carries(Apply(w, l), m)
    ensures Carries(w, m)
  {
    OthersKeepCalls(w, l);
  }

  /** In every run, a driver's report of a failure carries the error its program or
      its walk ended with, and a report of a success the text its walk ended with. */
  lemma {:induction false} ReportOrigin(ws: seq<World>, ls: seq<Label>, j: nat, m: Message) returns (i: nat)
    requires IsRun(ws, ls) && j < |ws| && IsReport(m) && Carries(ws[j], m)
    ensures i < j && Tells(ws[i], ls[i], m)
    decreases j
  {
    assert j > 0;
    i := j - 1;
    RunStep(ws, ls, i);
    var w, l := ws[i], ls[i];
    if l.WorkerStep? || l.CallStep? {
      CarriesByServer(w, l, m);
    } else if DriverMoves(l) {
      CarriesByDriver(w, l, m);
    } else {
      CarriesByOthers(w, l, m);
    }
    if !Tells(w, l, m) {
      i := ReportOrigin(ws, ls, i, m);
    }
  }
}
