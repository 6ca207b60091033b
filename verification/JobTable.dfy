/** The Flask service's job table: submission, cancellation, and the background
    thread as an automaton over what it reads and does. */
module JobTable {
  import opened Options

  datatype TaskStatus = Running | Failed | Cancelled | Complete

  datatype Task = Task(status: TaskStatus, args: seq<string>, cancel: bool, error: string)

  type TaskId = string

  // Submission

  const NOVALUE_ARGS := ["--check_integrity", "--write_out", "--log_samples", "--trust_remote_code", "--show_config"]

  datatype Pair = Pair(name: string, value: Option<string>)

  function Provided(pairs: seq<Pair>): (given: seq<Pair>)
    ensures forall i :: 0 <= i < |given| ==> given[i].value.Some?
  {
    if pairs == [] then []
    else
      var rest := Provided(pairs[1..]);
      if pairs[0].value.Some? then [pairs[0]] + rest else rest
  }

  function Items(p: Pair): seq<string>
    requires p.value.Some?
  {
    if p.name in NOVALUE_ARGS then [p.name, p.name] else [p.name, p.value.value]
  }

  function Flatten(given: seq<Pair>): seq<string>
    requires forall i :: 0 <= i < |given| ==> given[i].value.Some?
  {
    if given == [] then [] else Items(given[0]) + Flatten(given[1..])
  }

  function CommandArgs(pairs: seq<Pair>): seq<string> {
    Flatten(Provided(pairs))
  }

  /** The i-th provided argument fills two places: its name, and its value or, for
      an argument without a value, its name once more. */
  lemma {:induction false} FlattenAt(given: seq<Pair>, i: nat)
    requires i < |given| && forall k :: 0 <= k < |given| ==> given[k].value.Some?
    ensures |Flatten(given)| == 2 * |given|
    ensures Flatten(given)[2 * i] == given[i].name
    ensures Flatten(given)[2 * i + 1]
            == if given[i].name in NOVALUE_ARGS then given[i].name else given[i].value.value
  {
    if i > 0 {
      FlattenAt(given[1..], i - 1);
    } else if |given| > 1 {
      FlattenAt(given[1..], 0);
    }
  }

  /** How many of the first k pairs have a value. */
  function GivenBefore(pairs: seq<Pair>, k: nat): (n: nat)
    requires k <= |pairs|
    ensures n <= k
  {
    if k == 0 then 0 else (if pairs[0].value.Some? then 1 else 0) + GivenBefore(pairs[1..], k - 1)
  }

  /** An argument is kept exactly when the request provides it, each one once and
      all of them in the order of the list. */
  lemma {:induction false} ProvidedExactly(pairs: seq<Pair>)
    ensures |Provided(pairs)| == GivenBefore(pairs, |pairs|)
    ensures forall k :: 0 <= k < |pairs| && pairs[k].value.Some? ==>
                          && GivenBefore(pairs, k) < |Provided(pairs)|
                          && Provided(pairs)[GivenBefore(pairs, k)] == pairs[k]
    ensures forall p :: p in Provided(pairs) <==> p in pairs && p.value.Some?
  {
    if pairs != [] {
      var rest := pairs[1..];
      ProvidedExactly(rest);
      forall k | 0 <= k < |pairs| && pairs[k].value.Some?
        ensures GivenBefore(pairs, k) < |Provided(pairs)| && Provided(pairs)[GivenBefore(pairs, k)] == pairs[k]
      {
        if k > 0 {
          assert rest[k - 1] == pairs[k];
        }
      }
      assert forall p :: p in pairs <==> p == pairs[0] || p in rest;
    }
  }

  /** The arguments are the provided pairs, in order, two places each: the name,
      and the value or, for an argument without a value, the name once more. */
  ghost predicate InOrder(args: seq<string>, pairs: seq<Pair>) {
    && |args| == 2 * GivenBefore(pairs, |pairs|)
    && forall k :: 0 <= k < |pairs| && pairs[k].value.Some? ==>
         var i := 2 * GivenBefore(pairs, k);
         && i + 1 < |args| && args[i] == pairs[k].name
         && args[i + 1] == if pairs[k].name in NOVALUE_ARGS then pairs[k].name else pairs[k].value.value
  }

  lemma CommandArgsInOrder(pairs: seq<Pair>)
    ensures InOrder(CommandArgs(pairs), pairs)
  {
    var given := Provided(pairs);
    ProvidedExactly(pairs);
    if given != [] {
      FlattenAt(given, 0);
    }
    forall k | 0 <= k < |pairs| && pairs[k].value.Some?
      ensures var i := 2 * GivenBefore(pairs, k);
              && i + 1 < |CommandArgs(pairs)| && CommandArgs(pairs)[i] == pairs[k].name
              && CommandArgs(pairs)[i + 1]
                 == if pairs[k].name in NOVALUE_ARGS then pairs[k].name else pairs[k].value.value
    {
      FlattenAt(given, GivenBefore(pairs, k));
    }
  }

  function Lookup(request: map<string, string>, field: string): Option<string> {
    if field in request then Some(request[field]) else None
  }

  function RequestPairs(request: map<string, string>): seq<Pair> {
    [Pair("--model", Lookup(request, "model")),
     Pair("--model_args", Lookup(request, "model_args")),
     Pair("--tasks", Lookup(request, "tasks")),
     Pair("--num_fewshot", Lookup(request, "num_fewshot")),
     Pair("--gen_kwargs", Lookup(request, "gen_kwargs")),
     Pair("--output_path", Lookup(request, "output_path")),
     Pair("--log_samples", Lookup(request, "log_samples")),
     Pair("--limit", Lookup(request, "limit")),
     Pair("--use_cache", Lookup(request, "use_cache")),
     Pair("--decontamination_ngrams_path", Lookup(request, "decontamination_ngrams_path")),
     Pair("--check_integrity", Lookup(request, "check_integrity")),
     Pair("--write_out", Lookup(request, "write_out")),
     Pair("--show_config", Lookup(request, "show_config")),
     Pair("--include_path", Lookup(request, "include_path"))]
  }

  /** The fields a request may have, in the order of the command line. */
  const FIELDS := ["model", "model_args", "tasks", "num_fewshot", "gen_kwargs", "output_path", "log_samples", "limit",
                   "use_cache", "decontamination_ngrams_path", "check_integrity", "write_out", "show_config",
                   "include_path"]

  /** The option of that name gets the field's value. */
  predicate Named(p: Pair, field: string, request: map<string, string>) {
    && p.name == "--" + field
    && p.value == if field in request then Some(request[field]) else None
  }

  lemma ModelFieldsAreNamed(request: map<string, string>)
    ensures Named(RequestPairs(request)[0], "model", request)
    ensures Named(RequestPairs(request)[1], "model_args", request)
    ensures Named(RequestPairs(request)[2], "tasks", request)
  {}

  lemma SamplingFieldsAreNamed(request: map<string, string>)
    ensures Named(RequestPairs(request)[3], "num_fewshot", request)
    ensures Named(RequestPairs(request)[4], "gen_kwargs", request)
    ensures Named(RequestPairs(request)[5], "output_path", request)
  {}

  lemma LimitFieldsAreNamed(request: map<string, string>)
    ensures Named(RequestPairs(request)[6], "log_samples", request)
    ensures Named(RequestPairs(request)[7], "limit", request)
    ensures Named(RequestPairs(request)[8], "use_cache", request)
  {}

  lemma LongestOption()
    ensures "--" + "decontamination_ngrams_path" == "--decontamination_ngrams_path"
  {}

  lemma PathFieldIsNamed(request: map<string, string>)
    ensures Named(RequestPairs(request)[9], "decontamination_ngrams_path", request)
  {
    LongestOption();
  }

  lemma CheckFieldIsNamed(request: map<string, string>)
    ensures Named(RequestPairs(request)[10], "check_integrity", request)
  {}

  lemma ShowFieldsAreNamed(request: map<string, string>)
    ensures Named(RequestPairs(request)[11], "write_out", request)
    ensures Named(RequestPairs(request)[12], "show_config", request)
    ensures Named(RequestPairs(request)[13], "include_path", request)
  {}

  /** Every field goes to the option of its own name. */
  lemma FieldsAreNamed(request: map<string, string>, k: nat)
    requires k < |FIELDS|
    ensures |RequestPairs(request)| == |FIELDS| && Named(RequestPairs(request)[k], FIELDS[k], request)
  {
    if k < 3 {
      ModelFieldsAreNamed(request);
    } else if k < 6 {
      SamplingFieldsAreNamed(request);
    } else if k < 9 {
      LimitFieldsAreNamed(request);
    } else if k == 9 {
      PathFieldIsNamed(request);
    } else if k == 10 {
      CheckFieldIsNamed(request);
    } else {
      ShowFieldsAreNamed(request);
    }
  }

  /** So a field of the request stands on the command line after the option of its
      name; one whose option takes no value puts the option there twice. */
  lemma FieldIsOnLine(request: map<string, string>, k: nat) returns (i: nat)
    requires k < |FIELDS| && FIELDS[k] in request
    ensures var args, option := CommandArgs(RequestPairs(request)), "--" + FIELDS[k];
            && 2 * i + 1 < |args| && args[2 * i] == option
            && args[2 * i + 1] == if option in ["--check_integrity", "--write_out", "--log_samples",
                                                "--trust_remote_code", "--show_config"]
                                  then option else request[FIELDS[k]]
  {
    FieldsAreNamed(request, k);
    i := OptionIsOnLine(RequestPairs(request), k);
  }

  lemma OptionIsOnLine(pairs: seq<Pair>, k: nat) returns (i: nat)
    requires k < |pairs| && pairs[k].value.Some?
    ensures var args, option := CommandArgs(pairs), pairs[k].name;
            && 2 * i + 1 < |args| && args[2 * i] == option
            && args[2 * i + 1] == if option in NOVALUE_ARGS then option else pairs[k].value.value
  {
    CommandArgsInOrder(pairs);
    i := GivenBefore(pairs, k);
  }

  function NewTask(args: seq<string>): Task {
    Task(Running, args, false, "")
  }

  // The background thread

  datatype Point =
    | Launch            // start the process
    | TestCancel        // the loop reads the cancel flag ...
    | TestReturn        // ... and the return code
    | Wait              // wait ten seconds for the process
    | FirstCheck        // the flag, before the output is closed
    | Kill
    | MarkCancelled
    | Close             // leaving the with block waits for the process
    | SecondCheck       // the flag, for the other outcomes
    | MarkFailed
    | StoreError
    | MarkComplete
    | Finished

  datatype Deed = StartProcess | ReadCancel | WaitTen | KillProcess | SetStatus(status: TaskStatus) | AwaitExit | SetError

  datatype Fact = Nothing | Flag(raised: bool) | Exited(code: int) | TimedOut

  /** Where the thread is, with the return code it knows. */
  datatype Local = Local(at: Point, returncode: Option<int>)

  function DeedAt(t: Local): Option<Deed> {
    match t.at
    case Launch => Some(StartProcess)
    case TestCancel => Some(ReadCancel)
    case TestReturn => None
    case Wait => Some(WaitTen)
    case FirstCheck => Some(ReadCancel)
    case Kill => Some(KillProcess)
    case MarkCancelled => Some(SetStatus(Cancelled))
    case Close => Some(AwaitExit)
    case SecondCheck => Some(ReadCancel)
    case MarkFailed => Some(SetStatus(Failed))
    case StoreError => Some(SetError)
    case MarkComplete => Some(SetStatus(Complete))
    case Finished => None
  }

  function Advance(t: Local, f: Fact): Local {
    match t.at
    case Launch => t.(at := TestCancel)
    case TestCancel => t.(at := if f == Flag(true) then FirstCheck else TestReturn)
    case TestReturn => t.(at := if t.returncode.None? then Wait else FirstCheck)
    case Wait => if f.Exited? then Local(TestCancel, Some(f.code)) else t.(at := TestCancel)
    case FirstCheck => t.(at := if f == Flag(true) then Kill else Close)
    case Kill => t.(at := MarkCancelled)
    case MarkCancelled => t.(at := Close)
    case Close => if f.Exited? then Local(SecondCheck, Some(f.code)) else t
    case SecondCheck =>
      t.(at := if f == Flag(true) then Finished
               else if t.returncode == Some(0) then MarkComplete else MarkFailed)
    case MarkFailed => t.(at := StoreError)
    case StoreError => t.(at := Finished)
    case MarkComplete => t.(at := Finished)
    case Finished => t
  }

  /** A step of the loop that only looks at a local variable. */
  function Settle(t: Local): Local {
    if t.at == TestReturn then Advance(t, Nothing) else t
  }

  datatype Turn = Turn(deed: Deed, fact: Fact)

  /** Where the thread stands after a deed; None once a deed was not due. */
  function Next(t: Option<Local>, turn: Turn): Option<Local> {
    if t.Some? && DeedAt(t.value) == Some(turn.deed) then Some(Settle(Advance(t.value, turn.fact))) else None
  }

  function WaitFact(returncode: Option<int>): Fact {
    match returncode
    case None => TimedOut
    case Some(code) => Exited(code)
  }

  /** The thread's surroundings: the shared table and the process, which outlives
      at most `patience` waits. `local` is where the automaton stands after the
      thread's deeds so far. */
  class Surroundings {
    ghost var local: Option<Local>
    var patience: nat

    constructor (patience: nat)
      ensures local == Some(Local(Launch, None)) && this.patience == patience
    {
      local, this.patience := Some(Local(Launch, None)), patience;
    }

    method Do(deed: Deed)
      modifies this`local
      ensures local == Next(old(local), Turn(deed, Nothing))
    {
      local := Next(local, Turn(deed, Nothing));
    }

    method CancelRequested() returns (raised: bool)
      modifies this`local
      ensures local == Next(old(local), Turn(ReadCancel, Flag(raised)))
    {
      raised := *;
      local := Next(local, Turn(ReadCancel, Flag(raised)));
    }

    method WaitTenSeconds() returns (returncode: Option<int>)
      modifies this
      ensures local == Next(old(local), Turn(WaitTen, WaitFact(returncode)))
      ensures returncode.None? ==> patience < old(patience)
    {
      returncode := *;
      if returncode.None? && patience == 0 {
        returncode := Some(0);
      }
      if returncode.None? {
        patience := patience - 1;
      }
      local := Next(local, Turn(WaitTen, WaitFact(returncode)));
    }

    method WaitForExit() returns (code: int)
      modifies this`local
      ensures local == Next(old(local), Turn(AwaitExit, Exited(code)))
    {
      code := *;
      local := Next(local, Turn(AwaitExit, Exited(code)));
    }
  }

  /** _background_task: whatever it finds, it does what the automaton prescribes,
      and comes to its end once the process does. */
  method BackgroundTask(s: Surroundings)
    requires s.local == Some(Local(Launch, None))
    modifies s
    ensures s.local.Some? && s.local.value.at == Finished
  {
    s.Do(StartProcess);
    RunProcess(s);
    var code := s.WaitForExit();
    RecordOutcome(s, code);
  }

  /** The body of the with block. */
  method RunProcess(s: Surroundings)
    requires s.local == Some(Local(TestCancel, None))
    modifies s
    ensures s.local.Some? && s.local.value.at == Close
  {
    var returncode: Option<int> := None;
    var cancel := s.CancelRequested();
    while !cancel && returncode.None?
      invariant s.local == Some(Local(if cancel || returncode.Some? then FirstCheck else Wait, returncode))
      decreases if returncode.Some? then 0 else 1, s.patience
    {
      returncode := s.WaitTenSeconds();
      cancel := s.CancelRequested();
    }
    cancel := s.CancelRequested();
    if cancel {
      s.Do(KillProcess);
      s.Do(SetStatus(Cancelled));
    }
  }

  /** What follows the with block. */
  method RecordOutcome(s: Surroundings, code: int)
    requires s.local == Some(Local(SecondCheck, Some(code)))
    modifies s
    ensures s.local.Some? && s.local.value.at == Finished
  {
    var cancel := s.CancelRequested();
    if !cancel {
      if code != 0 {
        s.Do(SetStatus(Failed));
        s.Do(SetError);
      } else {
        s.Do(SetStatus(Complete));
      }
    }
  }
}
