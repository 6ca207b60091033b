/** One job's life as a labelled step system: the reconcile worker, the status
    calls in flight, the driver in the pod, the work queue, and the API server
    that holds the job and the pod.

    The API server: an update succeeds only on the stored version, touches only
    its own half of the object (metadata or status), and raises the version and
    queues the job exactly when it changes something. A call may also be refused,
    or take effect while its answer is lost. Pods are named after the job, are
    never restarted, and the driver lives in the pod the controller created. */
module Protocol {
  import opened Options
  import opened Types
  import opened Handlers
  import opened Calls

  /** `base` is the job as fetched, `answers` what the API server said since. */
  datatype Worker = Idle | Busy(pc: Pc, base: Option<Job>, answers: seq<Response>)

  datatype Call = Call(msg: Message, fromDriver: bool, pc: CallPc, base: Option<Job>)

  datatype Driver = Off | At(pc: DriverPc) | Awaiting(pc: DriverPc, call: nat)

  /** Works, is refused, or works while its answer is lost. */
  datatype Fault = Works | Refused(text: string) | ReplyLost(text: string)

  /** One committed write, by the handler that made it. */
  datatype Action = ByWorker(answers: seq<Response>) | ByCall(msg: Message) | ByUser(deleting: bool)

  /** The API server's view: the job, the pod and the driver running in it. The
      trail lists the committed writes in commit order, each with the job it left. */
  datatype Cluster = Cluster(
    id: Identity,
    job: Option<Job>,
    pod: Option<Pod>,
    driver: Driver,
    queued: bool,
    now: Time,
    creations: nat,
    trail: seq<Commit>)

  datatype Commit = Commit(action: Action, job: Option<Job>)

  /** What drivers did; no step depends on it. */
  datatype Evidence = Evidence(
    programOk: bool,              // some driver saw its program succeed ...
    gathered: set<string>,        // ... and after it gathered these results
    runningCall: Option<nat>,     // the last driver's Running call
    completeCall: Option<nat>)    // the last driver's Complete call

  /** Which messages took effect; no step depends on it. */
  datatype Effects = Effects(
    running: bool,                // a driver's Running message
    verdict: Option<Message>,     // the last driver's Complete message that did
    cancelled: bool)              // a cancel request

  /** What the worker did; no step depends on it. */
  datatype Ledger = Ledger(
    scheduled: bool,              // a schedule time was stored
    workerWrites: nat,            // status writes committed by the worker after that
    callWrites: nat,              // status writes committed by calls after that
    swallowed: bool,              // handleComplete's write was refused
    deleteFault: bool)            // handleDeletion's pod deletion was refused

  datatype World = World(
    api: Cluster,
    worker: Worker,
    timer: bool, backoff: bool,
    calls: seq<Call>,
    evidence: Evidence,
    effects: Effects,
    ledger: Ledger)

  datatype Label =
    | Tick                            // the clock advances
    | Touch                           // a user edits the job's metadata or spec
    | UserDelete                      // a user deletes the job
    | LosePod                         // someone else, or the garbage collector, deletes the pod
    | ForeignPod(pod: Pod)            // someone else takes the pod's name
    | Kubelet(containers: Option<seq<ContainerStatus>>)
    | Dequeue                         // the worker takes the job from the queue
    | FireTimer
    | FireBackoff
    | WorkerStep(fault: Fault)
    | Restart                         // the controller loses its queue and starts over
    | CancelRequest(msg: Message)
    | CallStep(call: nat, fault: Fault)
    | DriverSend
    | DriverReply
    | DriverGiveUp                    // the call's deadline passes
    | DriverWork(outcome: Outcome)    // the program, then the results
    | DriverCrash(code: int)

  // The API server

  function Record(c: Cluster, job: Option<Job>, action: Action): Cluster {
    c.(job := job, trail := c.trail + [Commit(action, job)])
  }

  /** Store a job: nothing happens when it is what is stored already. */
  function Store(c: Cluster, job: Job, action: Action): Cluster
    requires c.job.Some?
  {
    if job == c.job.value then c
    else Record(c, Some(job.(version := job.version + 1)), action).(queued := true)
  }

  function ServeStatus(c: Cluster, job: Job, action: Action): (Cluster, Response) {
    if c.job.None? then (c, Err(NotFound("not found")))
    else if job.version != c.job.value.version then (c, Err(Conflict("the object has been modified")))
    else (Store(c, c.job.value.(status := job.status), action), Ok)
  }

  function ServeMetadata(c: Cluster, job: Job, action: Action): (Cluster, Response) {
    if c.job.None? then (c, Err(NotFound("not found")))
    else if job.version != c.job.value.version then (c, Err(Conflict("the object has been modified")))
    else if c.job.value.deleting && !job.finalizer then (Record(c, None, action), Ok)
    else (Store(c, c.job.value.(finalizer := job.finalizer), action), Ok)
  }

  function ServeCreate(c: Cluster, pod: Pod): (Cluster, Response) {
    if c.pod.Some? then (c, Err(AlreadyExists("already exists")))
    else (c.(pod := Some(pod), driver := At(SendRunning), creations := c.creations + 1), Ok)
  }

  /** Deletion events of the job's own pods queue the job. */
  function RemovePod(c: Cluster): Cluster
    requires c.pod.Some?
  {
    c.(pod := None, driver := Off, queued := c.queued || OwnedBy(c.pod.value, c.id))
  }

  function ServeDelete(c: Cluster, name: string): (Cluster, Response) {
    if name == "" then (c, Err(Other("resource name may not be empty")))
    else if name != c.id.name || c.pod.None? then (c, Err(NotFound("not found")))
    else (RemovePod(c), Ok)
  }

  function Serve(c: Cluster, req: Request, action: Action): (Cluster, Response) {
    match req
    case GetJob => (c, if c.job.Some? then JobIs(c.job.value) else Err(NotFound("not found")))
    case Update(job) => ServeMetadata(c, job, action)
    case UpdateStatus(job) => ServeStatus(c, job, action)
    case CreatePod(pod) => ServeCreate(c, pod)
    case GetPod(name) =>
      (c, if c.pod.Some? && name == c.id.name then PodIs(c.pod.value) else Err(NotFound("not found")))
    case DeletePod(name) => ServeDelete(c, name)
    case Now => (c, TimeIs(c.now))
  }

  function Exchange(c: Cluster, req: Request, fault: Fault, action: Action): (Cluster, Response) {
    if fault.Works? || req.Now? then Serve(c, req, action)
    else if fault.Refused? then (c, Err(Other(fault.text)))
    else (Serve(c, req, action).0, Err(Other(fault.text)))
  }

  // The worker

  /** What the API server makes of the worker's request, and its answer. */
  function WorkerExchange(w: World, fault: Fault): (Cluster, Response)
    requires w.worker.Busy? && RequestAt(w.worker.pc).Some?
  {
    Exchange(w.api, RequestAt(w.worker.pc).value, fault, ByWorker(w.worker.answers))
  }

  function Recorded(job: Option<Job>): bool {
    job.Some? && job.value.status.lastScheduleTime.Some?
  }

  function WorkerLedger(w: World, pc: Pc, job: Option<Job>, fault: Fault): Ledger {
    var l := w.ledger;
    Ledger(
      l.scheduled || Recorded(job),
      l.workerWrites + (if Recorded(w.api.job) && WritesStatus(pc) && job != w.api.job then 1 else 0),
      l.callWrites,
      l.swallowed || (pc.RecordFinish? && fault.Refused?),
      l.deleteFault || (pc.DeleteForRemoval? && fault.Refused?))
  }

  function ApplyWorker(w: World, fault: Fault): World
    requires w.worker.Busy? && RequestAt(w.worker.pc).Some?
  {
    var Busy(pc, base, answers) := w.worker;
    var (api, r) := WorkerExchange(w, fault);
    var pc' := Resume(pc, r);
    var worker :=
      if pc'.Returned? then Idle
      else if pc.Fetch? then Busy(pc', w.api.job, [])
      else Busy(pc', base, answers + [r]);
    World(api, worker,
          w.timer || (pc'.Returned? && pc'.result.Requeue?),
          w.backoff || (pc'.Returned? && pc'.result.Failed?),
          w.calls, w.evidence, w.effects, WorkerLedger(w, pc, api.job, fault))
  }

  // The calls

  function CallExchange(w: World, i: nat, fault: Fault): (Cluster, Response)
    requires i < |w.calls| && CallRequest(w.calls[i].pc).Some?
  {
    Exchange(w.api, CallRequest(w.calls[i].pc).value, fault, ByCall(w.calls[i].msg))
  }

  /** The call's write was accepted, whatever its client heard. */
  function TakesEffect(w: World, i: nat, fault: Fault): bool
    requires i < |w.calls| && CallRequest(w.calls[i].pc).Some?
  {
    w.calls[i].pc.Save? && !fault.Refused? && CallExchange(w, i, Works).1.Ok?
  }

  function CallEffects(e: Effects, c: Call): Effects {
    if !c.fromDriver then e.(cancelled := true)
    else if c.msg.state == Running then e.(running := true)
    else e.(verdict := Some(c.msg))
  }

  function ApplyCall(w: World, i: nat, fault: Fault): World
    requires i < |w.calls| && CallRequest(w.calls[i].pc).Some?
  {
    var c := w.calls[i];
    var (api, r) := CallExchange(w, i, fault);
    var pc' := CallResume(c.pc, r);
    var counted := if Recorded(w.api.job) && api.job != w.api.job then 1 else 0;
    w.(api := api,
    calls := w.calls[i := Call(c.msg, c.fromDriver, pc', if pc'.Save? then w.api.job else c.base)],
    effects := if TakesEffect(w, i, fault) then CallEffects(w.effects, c) else w.effects,
    ledger := w.ledger.(callWrites := w.ledger.callWrites + counted))
  }

  // The driver

  function WithDriver(w: World, driver: Driver): World {
    w.(api := w.api.(driver := driver))
  }

  function ApplySend(w: World): World
    requires w.api.driver.At?
  {
    var pc, n := w.api.driver.pc, |w.calls|;
    var msg := if pc.SendComplete? then pc.msg else RUNNING_MESSAGE;
    WithDriver(w, Awaiting(pc, n)).(
    calls := w.calls + [Call(msg, true, Lookup(msg), None)],
    evidence := if pc.SendComplete? then w.evidence.(completeCall := Some(n))
                else w.evidence.(runningCall := Some(n)))
  }

  function ApplyWork(w: World, o: Outcome): World
    requires w.api.driver.At?
  {
    var pc, e := w.api.driver.pc, w.evidence;
    WithDriver(w, At(DriverResume(pc, o))).(
    evidence := e.(programOk := e.programOk || (pc.Execute? && o.Fine?),
                   gathered := e.gathered + if pc.ReadResults? && o.Fine? then {o.results} else {}))
  }

  // Steps

  predicate Enabled(w: World, l: Label) {
    var Cluster(id, job, pod, driver, queued, _, _, _) := w.api;
    match l
    case Tick => true
    case Touch => job.Some?
    case UserDelete => job.Some? && !job.value.deleting
    case LosePod => pod.Some?
    case ForeignPod(foreign) => pod.None? && !OwnedBy(foreign, id)
    case Kubelet(cs) =>
      && pod.Some?
      && (OwnedBy(pod.value, id) ==>
            var end := MainExit(pod.value.(containers := cs));
            end.Some? ==> driver == At(Exit(end.value.exitCode)))
    case Dequeue => w.worker.Idle? && queued
    case FireTimer => w.timer
    case FireBackoff => w.backoff
    case WorkerStep(_) => w.worker.Busy? && RequestAt(w.worker.pc).Some?
    case Restart => true
    case CancelRequest(msg) => msg.state == Cancelled
    case CallStep(i, _) => i < |w.calls| && CallRequest(w.calls[i].pc).Some?
    case DriverSend => driver.At? && (driver.pc.SendRunning? || driver.pc.SendComplete?)
    case DriverReply => driver.Awaiting? && driver.call < |w.calls| && w.calls[driver.call].pc.Answered?
    case DriverGiveUp => driver.Awaiting?
    case DriverWork(_) => driver.At? && (driver.pc.Execute? || driver.pc.ReadResults?)
    case DriverCrash(code) => code != 0 && !driver.Off? && !(driver.At? && driver.pc.Exit?)
  }

  function Apply(w: World, l: Label): World
    requires Enabled(w, l)
  {
    var c := w.api;
    match l
    case Tick => w.(api := c.(now := c.now + 1))
    case Touch =>
      w.(api := Record(c, Some(c.job.value.(version := c.job.value.version + 1)), ByUser(false)).(queued := true))
    case UserDelete =>
      w.(api := if c.job.value.finalizer then Store(c, c.job.value.(deleting := true), ByUser(true))
                else Record(c, None, ByUser(true)))
    case LosePod => w.(api := RemovePod(c))
    case ForeignPod(pod) => w.(api := c.(pod := Some(pod)))
    case Kubelet(cs) => w.(api := c.(pod := Some(c.pod.value.(containers := cs))))
    case Dequeue => w.(worker := Busy(Fetch, None, []), api := c.(queued := false))
    case FireTimer => w.(timer := false, api := c.(queued := true))
    case FireBackoff => w.(backoff := false, api := c.(queued := true))
    case WorkerStep(fault) => ApplyWorker(w, fault)
    case Restart => w.(worker := Idle, timer := false, backoff := false, api := c.(queued := c.job.Some?))
    case CancelRequest(msg) => w.(calls := w.calls + [Call(msg, false, Lookup(msg), None)])
    case CallStep(i, fault) => ApplyCall(w, i, fault)
    case DriverSend => ApplySend(w)
    case DriverReply =>
      var ok := w.calls[c.driver.call].pc.error.None?;
      WithDriver(w, At(DriverResume(c.driver.pc, if ok then Fine("") else Problem(""))))
    case DriverGiveUp => WithDriver(w, At(DriverResume(c.driver.pc, Problem("deadline exceeded"))))
    case DriverWork(o) => ApplyWork(w, o)
    case DriverCrash(code) => WithDriver(w, At(Exit(code)))
  }

  /** A job the user has just created; its pod's name may already be taken. */
  ghost predicate Init(w: World) {
    var c := w.api;
    && c.id.name != ""
    && c.job.Some? && c.job.value.id == c.id && !c.job.value.deleting && c.job.value.status == EMPTY_STATUS
    && (c.pod.Some? ==> !OwnedBy(c.pod.value, c.id))
    && c.driver == Off && c.queued && c.creations == 0 && c.trail == []
    && w.worker == Idle && !w.timer && !w.backoff && w.calls == []
    && w.evidence == Evidence(false, {}, None, None)
    && w.effects == Effects(false, None, false)
    && w.ledger == Ledger(false, 0, 0, false, false)
  }

  /** The worlds a run passes through after `w`, one per label. */
  ghost predicate IsRun(ws: seq<World>, ls: seq<Label>) {
    && |ws| == |ls| + 1
    && Init(ws[0])
    && forall i :: 0 <= i < |ls| ==> Enabled(ws[i], ls[i]) && ws[i + 1] == Apply(ws[i], ls[i])
  }

  ghost predicate Reachable(w: World) {
    exists ws, ls :: IsRun(ws, ls) && ws[|ls|] == w
  }

  lemma ReachableStep(w: World, l: Label)
    requires Reachable(w) && Enabled(w, l)
    ensures Reachable(Apply(w, l))
  {
    var ws, ls :| IsRun(ws, ls) && ws[|ls|] == w;
    var ws', ls' := ws + [Apply(w, l)], ls + [l];
    assert IsRun(ws', ls') && ws'[|ls'|] == Apply(w, l);
  }
}
