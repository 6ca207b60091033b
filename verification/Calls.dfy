/** The two other programs that take part in a job's life, as automata over
    their conversations: the gRPC status handler in the controller process and
    the driver in the job's pod. StatusService.dfy and Driver.dfy prove that the
    imperative code follows them. */
module Calls {
  import opened Options
  import opened Types
  import opened Handlers

  /** updateStatus: look the job up, save the changed status, answer the client. */
  datatype CallPc = Lookup(msg: Message) | Save(job: Job) | Answered(error: Option<Error>)

  const EMPTY_NAME_ERROR := Other("JobName or JobNameSpace is empty")

  /** strings.Trim(s, " ") == "". */
  predicate Blank(s: string) {
    forall i :: 0 <= i < |s| ==> s[i] == ' '
  }

  function Open(jobName: string, jobNamespace: string, msg: Message): CallPc {
    if Blank(jobName) || Blank(jobNamespace) then Answered(Some(EMPTY_NAME_ERROR)) else Lookup(msg)
  }

  function CallRequest(pc: CallPc): Option<Request> {
    match pc
    case Lookup(_) => Some(GetJob)
    case Save(job) => Some(UpdateStatus(job))
    case Answered(_) => None
  }

  function CallResume(pc: CallPc, r: Response): CallPc {
    match pc
    case Lookup(msg) =>
      if r.JobIs? then Save(r.job.(status := ApplyMessage(r.job.status, msg)))
      else Answered(Some(ErrorOf(r)))
    case Save(_) => Answered(if r.Ok? then None else Some(ErrorOf(r)))
    case Answered(_) => pc
  }

  /** Where a call stands after a turn of its conversation; None once anything was
      asked but what was due. */
  function CallNext(pc: Option<CallPc>, asked: Request, answer: Response): Option<CallPc> {
    if pc.Some? && CallRequest(pc.value) == Some(asked) then Some(CallResume(pc.value, answer)) else None
  }

  function ErrorOf(r: Response): Error {
    if r.Err? then r.error else Other("")
  }

  /** The driver: announce Running, run the program, gather the results, report,
      exit. An unsuccessful UpdateStatus call ends it with exit code 1. */
  datatype DriverPc = SendRunning | Execute | ReadResults | SendComplete(msg: Message) | Exit(code: int)

  /** The outcome of a driver step: an error text, or success with the results read. */
  datatype Outcome = Fine(results: string) | Problem(text: string)

  const RUNNING_MESSAGE := Message(Running, NoReason, "update status from the driver: running", None)

  function SuccessMessage(results: string): Message {
    Message(Complete, SucceedReason, "update status from the driver: completed", Some(results))
  }

  function FailureMessage(text: string): Message {
    Message(Complete, FailedReason, text, None)
  }

  datatype DriverRequest = Send(msg: Message) | RunProgram | GatherResults

  function DriverRequestAt(pc: DriverPc): Option<DriverRequest> {
    match pc
    case SendRunning => Some(Send(RUNNING_MESSAGE))
    case Execute => Some(RunProgram)
    case ReadResults => Some(GatherResults)
    case SendComplete(msg) => Some(Send(msg))
    case Exit(_) => None
  }

  function DriverResume(pc: DriverPc, o: Outcome): DriverPc {
    match pc
    case SendRunning => if o.Fine? then Execute else Exit(1)
    case Execute => if o.Fine? then ReadResults else SendComplete(FailureMessage(o.text))
    case ReadResults => SendComplete(if o.Fine? then SuccessMessage(o.results) else FailureMessage(o.text))
    case SendComplete(_) => Exit(if o.Fine? then 0 else 1)
    case Exit(_) => pc
  }
}
