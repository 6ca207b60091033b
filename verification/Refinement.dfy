/** Interleaved handlers refine handlers that run atomically, one after another,
    in the order in which they commit. */
module Refinement {
  import opened Options
  import opened Types
  import opened Handlers
  import opened Calls
  import opened Protocol
  import opened Snapshots
  import opened Commits

  /** A whole Reconcile on `job` in one step: fetch, the handler's conversation
      with the given answers, and its write. The pod and the clock are not part of
      the versioned record, so their answers are those the handler was given, not
      asked for again at the commit. */
  function AtomicReconcile(job: Job, answers: seq<Response>): Option<Job> {
    var pc := Drive(Resume(Fetch, JobIs(job)), answers);
    if Writes(pc) then Committed(job, pc) else Some(job)
  }

  /** A whole updateStatus on `job` in one step. */
  function AtomicUpdateStatus(job: Job, msg: Message): Option<Job> {
    var pc := CallResume(Lookup(msg), JobIs(job));
    Some(job.(status := pc.job.status, version := job.version + 1))
  }

  function Atomic(stored: Option<Job>, action: Action): Option<Job> {
    if stored.None? then None
    else
      var job := stored.value;
      match action
      case ByWorker(answers) => AtomicReconcile(job, answers)
      case ByCall(msg) => AtomicUpdateStatus(job, msg)
      case ByUser(deleting) =>
        if !deleting then Some(job.(version := job.version + 1))
        else if job.finalizer then Some(job.(deleting := true, version := job.version + 1))
        else None
  }

  /** The stored jobs of a run that executes the actions atomically. */
  function AtomicRun(first: Option<Job>, actions: seq<Action>): (jobs: seq<Option<Job>>)
    ensures |jobs| == |actions| + 1
  {
    if actions == [] then [first]
    else
      var n := |actions| - 1;
      var before := AtomicRun(first, actions[..n]);
      before + [Atomic(before[n], actions[n])]
  }

  function Actions(trail: seq<Commit>): (actions: seq<Action>)
    ensures |actions| == |trail|
  {
    seq(|trail|, i requires 0 <= i < |trail| => trail[i].action)
  }

  /** The stored jobs a run goes through, each change once. */
  function StoredHistory(ws: seq<World>): (jobs: seq<Option<Job>>)
    requires ws != []
    ensures jobs != [] && jobs[|jobs| - 1] == ws[|ws| - 1].api.job
  {
    var n := |ws| - 1;
    if n == 0 then [ws[0].api.job]
    else
      var before := StoredHistory(ws[..n]);
      if ws[n].api.job == ws[n - 1].api.job then before else before + [ws[n].api.job]
  }

  /** The trail grows by the action that changed the stored job, and that action
      run atomically on the stored job yields the same. */
  predicate TrailStep(c: Cluster, c1: Cluster) {
    if c1.job == c.job then c1.trail == c.trail
    else
      && |c1.trail| == |c.trail| + 1 && c1.trail[..|c.trail|] == c.trail
      && c1.job == Atomic(c.job, c1.trail[|c.trail|].action)
  }

  predicate Extends(c: Cluster, c1: Cluster, action: Action) {
    if c1.job == c.job then c1.trail == c.trail else c1.trail == c.trail + [Commit(action, c1.job)]
  }

  lemma ExchangeExtends(c: Cluster, req: Request, fault: Fault, action: Action)
    ensures Extends(c, Exchange(c, req, fault, action).0, action)
  {}

  lemma WorkerTrailStep(w: World, fault: Fault)
    requires SnapshotInv(w) && w.worker.Busy? && RequestAt(w.worker.pc).Some?
    ensures TrailStep(w.api, ApplyWorker(w, fault).api)
  {
    ExchangeExtends(w.api, RequestAt(w.worker.pc).value, fault, ByWorker(w.worker.answers));
    WorkerCommits(w, fault);
  }

  lemma CallTrailStep(w: World, i: nat, fault: Fault)
    requires SnapshotInv(w) && i < |w.calls| && CallRequest(w.calls[i].pc).Some?
    ensures TrailStep(w.api, ApplyCall(w, i, fault).api)
  {
    ExchangeExtends(w.api, CallRequest(w.calls[i].pc).value, fault, ByCall(w.calls[i].msg));
    CallCommits(w, i, fault);
  }

  /** The worker's commit is the atomic Reconcile of the job stored at that
      moment: the job it had read is still the stored one. */
  lemma EachTrailStep(w: World, l: Label)
    requires SnapshotInv(w) && Enabled(w, l)
    ensures TrailStep(w.api, Apply(w, l).api)
  {
    if l.WorkerStep? {
      WorkerTrailStep(w, l.fault);
    } else if l.CallStep? {
      CallTrailStep(w, l.call, l.fault);
    }
  }

  lemma {:induction false} RunSnapshots(ws: seq<World>, ls: seq<Label>, i: nat)
    requires IsRun(ws, ls) && i < |ws|
    ensures SnapshotInv(ws[i])
  {
    if i > 0 {
      RunSnapshots(ws, ls, i - 1);
      assert Enabled(ws[i - 1], ls[i - 1]) && ws[i - 1 + 1] == Apply(ws[i - 1], ls[i - 1]);
      SnapshotsStep(ws[i - 1], ls[i - 1]);
    }
  }

  lemma RunPrefix(ws: seq<World>, ls: seq<Label>)
    requires IsRun(ws, ls) && ls != []
    ensures IsRun(ws[..|ls|], ls[..|ls| - 1])
  {}

  /** Linearizability: every interleaved run of reconciles, status calls, drivers
      and users goes through exactly the stored jobs of the run in which each
      committing handler executes atomically at its commit, in commit order. */
  lemma {:induction false} InterleavingRefinesAtomic(ws: seq<World>, ls: seq<Label>)
    requires IsRun(ws, ls)
    ensures StoredHistory(ws) == AtomicRun(ws[0].api.job, Actions(ws[|ls|].api.trail))
  {
    var n := |ls|;
    if n > 0 {
      RunPrefix(ws, ls);
      InterleavingRefinesAtomic(ws[..n], ls[..n - 1]);
      RunSnapshots(ws, ls, n - 1);
      assert Enabled(ws[n - 1], ls[n - 1]) && ws[n - 1 + 1] == Apply(ws[n - 1], ls[n - 1]);
      EachTrailStep(ws[n - 1], ls[n - 1]);
      var before, after := Actions(ws[n - 1].api.trail), Actions(ws[n].api.trail);
      if ws[n].api.job == ws[n - 1].api.job {
        assert after == before;
      } else {
        assert after[..|before|] == before;
      }
    } else {
      assert Actions(ws[0].api.trail) == [];
    }
  }
}
