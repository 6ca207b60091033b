/** Background threads racing with cancel requests over the shared job table. */
module JobRaces {
  import opened Options
  import opened JobTable

  datatype Process = NotStarted | Alive | Dead(code: int)

  /** A thread with its process; `cancelledAt` is where the thread was when its
      job's cancel flag was first set, `lateWaits` how many waits ended after that. */
  datatype Thread = Thread(local: Local, process: Process, cancelledAt: Option<Point>, lateWaits: nat)

  datatype Table = Table(jobs: map<TaskId, Task>, threads: map<TaskId, Thread>)

  datatype Label =
    | Submit(id: TaskId, args: seq<string>)
    | Cancel(id: TaskId)
    | Exit(id: TaskId, code: int)          // the process ends by itself
    | Step(id: TaskId, text: string)       // the thread takes a step; `text` is its stderr

  /** What the thread finds at its next deed. */
  function Found(job: Task, th: Thread): Fact {
    match DeedAt(th.local)
    case Some(ReadCancel) => Flag(job.cancel)
    case Some(WaitTen) => if th.process.Dead? then Exited(th.process.code) else TimedOut
    case Some(AwaitExit) => if th.process.Dead? then Exited(th.process.code) else Nothing
    case _ => Nothing
  }

  function StepProcess(th: Thread): Process {
    match DeedAt(th.local)
    case Some(StartProcess) => Alive
    case Some(KillProcess) => if th.process.Alive? then Dead(-9) else th.process
    case _ => th.process
  }

  function StepJob(job: Task, th: Thread, text: string): Task {
    match DeedAt(th.local)
    case Some(SetStatus(status)) => job.(status := status)
    case Some(SetError) => job.(error := text)
    case _ => job
  }

  function StepThread(job: Task, th: Thread): Thread {
    Thread(Advance(th.local, Found(job, th)), StepProcess(th), th.cancelledAt,
           th.lateWaits + if th.local.at == Wait && job.cancel then 1 else 0)
  }

  predicate Enabled(t: Table, l: Label) {
    match l
    case Submit(id, _) => id !in t.jobs && id !in t.threads
    case Cancel(id) => true
    case Exit(id, _) => id in t.threads && t.threads[id].process.Alive?
    case Step(id, _) =>
      && id in t.jobs && id in t.threads && t.threads[id].local.at != Finished
      && (t.threads[id].local.at == Close ==> t.threads[id].process.Dead?)
  }

  function Apply(t: Table, l: Label): Table
    requires Enabled(t, l)
  {
    match l
    case Submit(id, args) =>
      Table(t.jobs[id := NewTask(args)], t.threads[id := Thread(Local(Launch, None), NotStarted, None, 0)])
    case Cancel(id) =>
      if id !in t.jobs then t
      else
        Table(t.jobs[id := t.jobs[id].(cancel := true)],
              if id in t.threads && !t.jobs[id].cancel then
                t.threads[id := t.threads[id].(cancelledAt := Some(t.threads[id].local.at))]
              else t.threads)
    case Exit(id, code) => t.(threads := t.threads[id := t.threads[id].(process := Dead(code))])
    case Step(id, text) =>
      Table(t.jobs[id := StepJob(t.jobs[id], t.threads[id], text)],
            t.threads[id := StepThread(t.jobs[id], t.threads[id])])
  }

  /** The service's table. The background threads are its ghost part. */
  class Jobs {
    var jobs: map<TaskId, Task>
    ghost var threads: map<TaskId, Thread>

    constructor ()
      ensures Value() == Table(map[], map[])
    {
      jobs, threads := map[], map[];
    }

    ghost function Value(): Table
      reads this
    {
      Table(jobs, threads)
    }

    /** submit_job; `taskId` is the UUID drawn for it. */
    method SubmitJob(request: map<string, string>, taskId: TaskId)
      modifies this
      ensures taskId in jobs && InOrder(jobs[taskId].args, RequestPairs(request))
      ensures var l := Submit(taskId, jobs[taskId].args);
              Enabled(old(Value()), l) ==> Value() == Apply(old(Value()), l)
      ensures jobs == old(jobs)[taskId := Task(Running, jobs[taskId].args, false, "")]
    {
      var args := CommandArgs(RequestPairs(request));
      CommandArgsInOrder(RequestPairs(request));
      jobs := jobs[taskId := Task(Running, args, false, "")];
      threads := threads[taskId := Thread(Local(Launch, None), NotStarted, None, 0)];
    }

    /** cancel_job; false stands for the answer 404. */
    method CancelJob(taskId: TaskId) returns (found: bool)
      modifies this
      ensures found <==> taskId in old(jobs)
      ensures found ==> jobs == old(jobs)[taskId := old(jobs)[taskId].(cancel := true)]
      ensures Value() == Apply(old(Value()), Cancel(taskId))
    {
      if taskId !in jobs {
        return false;
      }
      if taskId in threads && !jobs[taskId].cancel {
        threads := threads[taskId := threads[taskId].(cancelledAt := Some(threads[taskId].local.at))];
      }
      jobs := jobs[taskId := jobs[taskId].(cancel := true)];
      return true;
    }
  }

  /** The flag was first set between the two checks of a thread that found it
      clear at the first. */
  predicate Missed(th: Thread) {
    th.cancelledAt == Some(Close) || th.cancelledAt == Some(SecondCheck)
  }

  predicate KnowsExit(th: Thread) {
    th.local.returncode.Some? ==> th.process == Dead(th.local.returncode.value)
  }

  /** The job as the thread left it before its last check. */
  predicate Undecided(job: Task, th: Thread) {
    if job.status == Cancelled then job.cancel && !Missed(th)
    else job.status == Running && (job.cancel ==> Missed(th))
  }

  predicate TaskInv(job: Task, th: Thread) {
    && (th.cancelledAt.Some? <==> job.cancel)
    && KnowsExit(th)
    && th.lateWaits <= 1 && (!job.cancel ==> th.lateWaits == 0)
    && match th.local.at
       case Launch => job.status == Running && th.process.NotStarted? && th.local.returncode.None? && th.lateWaits == 0
                      && !Missed(th)
       case TestCancel => job.status == Running && !th.process.NotStarted? && !Missed(th)
       case TestReturn => job.status == Running && !th.process.NotStarted? && th.lateWaits == 0 && !Missed(th)
       case Wait => job.status == Running && !th.process.NotStarted? && th.local.returncode.None? && th.lateWaits == 0
                    && !Missed(th)
       case FirstCheck => job.status == Running && (job.cancel || th.local.returncode.Some?)
                          && !th.process.NotStarted? && !Missed(th)
       case Kill => job.status == Running && job.cancel && !th.process.NotStarted? && !Missed(th)
       case MarkCancelled => job.status == Running && job.cancel && th.process.Dead? && !Missed(th)
       case Close => th.process.Dead? && Undecided(job, th)
       case SecondCheck => th.local.returncode.Some? && Undecided(job, th)
       case MarkFailed => job.status == Running && th.local.returncode.Some? && th.local.returncode.value != 0 && !Missed(th)
       case StoreError => job.status == Failed && th.local.returncode.Some? && th.local.returncode.value != 0 && !Missed(th)
       case MarkComplete => job.status == Running && th.local.returncode == Some(0) && !Missed(th)
       case Finished =>
         && th.local.returncode.Some?
         && match job.status
            case Running => Missed(th)
            case Cancelled => job.cancel && !Missed(th)
            case Failed => th.local.returncode.value != 0 && !Missed(th)
            case Complete => th.local.returncode.value == 0 && !Missed(th)
  }

  ghost predicate Inv(t: Table) {
    && t.jobs.Keys == t.threads.Keys
    && forall id :: id in t.jobs ==> TaskInv(t.jobs[id], t.threads[id])
  }

  lemma StepKeeps(job: Task, th: Thread, text: string)
    requires TaskInv(job, th) && th.local.at != Finished && (th.local.at == Close ==> th.process.Dead?)
    ensures TaskInv(StepJob(job, th, text), StepThread(job, th))
  {}

  lemma CancelKeeps(job: Task, th: Thread)
    requires TaskInv(job, th)
    ensures TaskInv(job.(cancel := true), if job.cancel then th else th.(cancelledAt := Some(th.local.at)))
  {}

  lemma InvStep(t: Table, l: Label)
    requires Inv(t) && Enabled(t, l)
    ensures Inv(Apply(t, l))
  {
    var t' := Apply(t, l);
    match l
    case Submit(id, args) =>
    case Cancel(id) =>
      if id in t.jobs {
        CancelKeeps(t.jobs[id], t.threads[id]);
      }
    case Exit(id, code) =>
    case Step(id, text) => StepKeeps(t.jobs[id], t.threads[id], text);
  }

  ghost predicate IsRun(ts: seq<Table>, ls: seq<Label>) {
    && |ts| == |ls| + 1 && ts[0] == Table(map[], map[])
    && forall i :: 0 <= i < |ls| ==> Enabled(ts[i], ls[i]) && ts[i + 1] == Apply(ts[i], ls[i])
  }

  lemma {:induction false} RunInv(ts: seq<Table>, ls: seq<Label>, i: nat)
    requires IsRun(ts, ls) && i < |ts|
    ensures Inv(ts[i])
  {
    if i > 0 {
      RunInv(ts, ls, i - 1);
      assert Enabled(ts[i - 1], ls[i - 1]) && ts[i - 1 + 1] == Apply(ts[i - 1], ls[i - 1]);
      InvStep(ts[i - 1], ls[i - 1]);
    }
  }

  predicate Touches(l: Label, id: TaskId) {
    l.id == id
  }

  /** A thread, a cancellation or a submission never touches another task. */
  lemma OthersUntouched(t: Table, l: Label, id: TaskId)
    requires Enabled(t, l) && !Touches(l, id)
    ensures var t' := Apply(t, l);
            && (id in t'.jobs <==> id in t.jobs) && (id in t'.threads <==> id in t.threads)
            && (id in t.jobs ==> t'.jobs[id] == t.jobs[id])
            && (id in t.threads ==> t'.threads[id] == t.threads[id])
  {}

  lemma DecidedStep(t: Table, l: Label, id: TaskId)
    requires Inv(t) && Enabled(t, l) && id in t.jobs
    ensures var t' := Apply(t, l);
            && id in t'.jobs
            && (t.jobs[id].status != Running ==> t'.jobs[id].status == t.jobs[id].status)
            && (t.jobs[id].cancel ==> t'.jobs[id].cancel)
            && t'.jobs[id].args == t.jobs[id].args
  {
    if !Touches(l, id) {
      OthersUntouched(t, l, id);
    }
  }

  /** A task leaves "running" at most once, a cancel request is never lost, and
      the arguments never change, in every run of any number of tasks. */
  lemma {:induction false} StatusIsDecidedOnce(ts: seq<Table>, ls: seq<Label>, i: nat, j: nat, id: TaskId)
    requires IsRun(ts, ls) && i <= j < |ts| && id in ts[i].jobs
    ensures id in ts[j].jobs && ts[j].jobs[id].args == ts[i].jobs[id].args
    ensures ts[i].jobs[id].status != Running ==> ts[j].jobs[id].status == ts[i].jobs[id].status
    ensures ts[i].jobs[id].cancel ==> ts[j].jobs[id].cancel
    decreases j
  {
    if i < j {
      StatusIsDecidedOnce(ts, ls, i, j - 1, id);
      RunInv(ts, ls, j - 1);
      assert Enabled(ts[j - 1], ls[j - 1]) && ts[j - 1 + 1] == Apply(ts[j - 1], ls[j - 1]);
      DecidedStep(ts[j - 1], ls[j - 1], id);
    }
  }

  /** What a status promises, and how long a cancelled job's thread still waits. */
  lemma StatusIsTruthful(ts: seq<Table>, ls: seq<Label>, i: nat, id: TaskId)
    requires IsRun(ts, ls) && i < |ts| && id in ts[i].jobs
    ensures id in ts[i].threads
    ensures var job, th := ts[i].jobs[id], ts[i].threads[id];
            && (job.status == Complete ==> th.local.returncode == Some(0) && th.process == Dead(0))
            && (job.status == Failed ==> th.local.returncode.Some? && th.local.returncode.value != 0
                                         && th.process == Dead(th.local.returncode.value))
            && (job.status == Cancelled ==> job.cancel && th.process.Dead?)
            && th.lateWaits <= 1
  {
    RunInv(ts, ls, i);
    assert TaskInv(ts[i].jobs[id], ts[i].threads[id]);
  }

  /** When the thread is done the process is dead, and the job is still "running",
      for good, exactly when the cancel flag was first set between the two checks. */
  lemma StuckExactlyBetweenChecks(ts: seq<Table>, ls: seq<Label>, i: nat, j: nat, id: TaskId)
    requires IsRun(ts, ls) && i <= j < |ts| && id in ts[i].jobs
    requires id in ts[i].threads && ts[i].threads[id].local.at == Finished
    ensures ts[i].threads[id].process.Dead?
    ensures ts[i].jobs[id].status == Running <==> Missed(ts[i].threads[id])
    ensures id in ts[j].jobs && ts[j].jobs[id].status == ts[i].jobs[id].status
    ensures id in ts[j].threads && ts[j].threads[id].local.at == Finished
    decreases j
  {
    RunInv(ts, ls, i);
    assert TaskInv(ts[i].jobs[id], ts[i].threads[id]);
    if i < j {
      StuckExactlyBetweenChecks(ts, ls, i, j - 1, id);
      assert Enabled(ts[j - 1], ls[j - 1]) && ts[j - 1 + 1] == Apply(ts[j - 1], ls[j - 1]);
      FinishedStep(ts[j - 1], ls[j - 1], id);
    }
  }

  lemma FinishedStep(t: Table, l: Label, id: TaskId)
    requires Enabled(t, l) && id in t.jobs && id in t.threads && t.threads[id].local.at == Finished
    ensures var t' := Apply(t, l);
            id in t'.jobs && id in t'.threads && t'.threads[id].local.at == Finished
            && t'.jobs[id].status == t.jobs[id].status
  {
    if !Touches(l, id) {
      OthersUntouched(t, l, id);
    }
  }

  /** No thread is ever stuck waiting in the with block: by then its process is
      dead. */
  lemma CloseNeverBlocks(ts: seq<Table>, ls: seq<Label>, i: nat, id: TaskId)
    requires IsRun(ts, ls) && i < |ts| && id in ts[i].jobs && id in ts[i].threads
    requires ts[i].threads[id].local.at != Finished
    ensures Enabled(ts[i], Step(id, ""))
  {
    RunInv(ts, ls, i);
    assert TaskInv(ts[i].jobs[id], ts[i].threads[id]);
  }

  /** A task's error text is stored exactly by its own thread, once it has failed,
      and is the text on the process's stderr. */
  lemma ErrorIsStderr(t: Table, l: Label, id: TaskId)
    requires Inv(t) && Enabled(t, l) && id in t.jobs
    ensures Apply(t, l).jobs[id].error != t.jobs[id].error ==>
              l.Step? && l.id == id && t.threads[id].local.at == StoreError
    ensures l.Step? && l.id == id && t.threads[id].local.at == StoreError ==>
              Apply(t, l).jobs[id].error == l.text && t.jobs[id].status == Failed
  {
    if !Touches(l, id) {
      OthersUntouched(t, l, id);
    }
  }

  /** A thread comes to its end with a failed task only by storing that text. */
  lemma FailedStep(t: Table, l: Label, id: TaskId)
    requires Inv(t) && Enabled(t, l) && id in t.jobs
    requires Apply(t, l).threads[id].local.at == Finished && Apply(t, l).jobs[id].status == Failed
    ensures (t.threads[id].local.at == Finished && t.jobs[id].status == Failed)
            || (l.Step? && l.id == id && t.threads[id].local.at == StoreError)
  {
    InvStep(t, l);
    if !Touches(l, id) {
      OthersUntouched(t, l, id);
    }
  }

  lemma IdsStay(t: Table, l: Label, id: TaskId)
    requires Inv(t) && Enabled(t, l) && id in Apply(t, l).jobs && Apply(t, l).threads[id].local.at == Finished
    ensures id in t.jobs
  {
    InvStep(t, l);
  }

  /** In every run, the error of a failed task whose thread is done is the stderr
      text that thread has read. */
  lemma {:induction false} FailureIsExplained(ts: seq<Table>, ls: seq<Label>, j: nat, id: TaskId) returns (i: nat)
    requires IsRun(ts, ls) && j < |ts| && id in ts[j].jobs && id in ts[j].threads
    requires ts[j].threads[id].local.at == Finished && ts[j].jobs[id].status == Failed
    ensures i < j && ls[i] == Step(id, ts[j].jobs[id].error)
    decreases j
  {
    assert j > 0;
    i := j - 1;
    RunInv(ts, ls, i);
    assert Enabled(ts[i], ls[i]) && ts[i + 1] == Apply(ts[i], ls[i]);
    IdsStay(ts[i], ls[i], id);
    FailedStep(ts[i], ls[i], id);
    ErrorIsStderr(ts[i], ls[i], id);
    if ts[i].threads[id].local.at == Finished {
      i := FailureIsExplained(ts, ls, i, id);
    }
  }

  // The window exists

  lemma Extend(ts: seq<Table>, ls: seq<Label>, l: Label) returns (ts': seq<Table>, ls': seq<Label>)
    requires IsRun(ts, ls) && Enabled(ts[|ls|], l)
    ensures IsRun(ts', ls') && ts'[|ls'|] == Apply(ts[|ls|], l)
  {
    ts', ls' := ts + [Apply(ts[|ls|], l)], ls + [l];
  }

  predicate Only(t: Table, job: Task, th: Thread) {
    t == Table(map["t" := job], map["t" := th])
  }

  lemma UntilExit() returns (ts: seq<Table>, ls: seq<Label>)
    ensures IsRun(ts, ls) && Only(ts[|ls|], NewTask([]), Thread(Local(TestCancel, None), Dead(0), None, 0))
  {
    ts, ls := [Table(map[], map[])], [];
    ts, ls := Extend(ts, ls, Submit("t", []));
    ts, ls := Extend(ts, ls, Step("t", ""));
    ts, ls := Extend(ts, ls, Exit("t", 0));
  }

  lemma UntilWaited() returns (ts: seq<Table>, ls: seq<Label>)
    ensures IsRun(ts, ls) && Only(ts[|ls|], NewTask([]), Thread(Local(TestCancel, Some(0)), Dead(0), None, 0))
  {
    ts, ls := UntilExit();
    ts, ls := Extend(ts, ls, Step("t", ""));
    ts, ls := Extend(ts, ls, Step("t", ""));
    ts, ls := Extend(ts, ls, Step("t", ""));
  }

  lemma UntilClose() returns (ts: seq<Table>, ls: seq<Label>)
    ensures IsRun(ts, ls) && Only(ts[|ls|], NewTask([]), Thread(Local(Close, Some(0)), Dead(0), None, 0))
  {
    ts, ls := UntilWaited();
    ts, ls := Extend(ts, ls, Step("t", ""));
    ts, ls := Extend(ts, ls, Step("t", ""));
    ts, ls := Extend(ts, ls, Step("t", ""));
  }

  /** A run that loses a successful task: its process ended with 0, but a late
      cancel request leaves it "running" for good. */
  lemma LateCancelLosesTask() returns (ts: seq<Table>, ls: seq<Label>)
    ensures IsRun(ts, ls)
    ensures Only(ts[|ls|], NewTask([]).(cancel := true), Thread(Local(Finished, Some(0)), Dead(0), Some(Close), 0))
  {
    ts, ls := UntilClose();
    ts, ls := Extend(ts, ls, Cancel("t"));
    assert Only(ts[|ls|], NewTask([]).(cancel := true), Thread(Local(Close, Some(0)), Dead(0), Some(Close), 0));
    ts, ls := Extend(ts, ls, Step("t", ""));
    ts, ls := Extend(ts, ls, Step("t", ""));
  }
}
