/** The imperative driver, its conversation with the status service, the program
    and the output directory, and the automaton of Calls.dfy. */
module Driver {
  import opened Options
  import opened Types
  import opened Calls

  datatype DriverTurn = DriverTurn(request: DriverRequest, outcome: Outcome)

  /** Where the driver stands after a turn; None once anything was done but what
      was due. */
  function DriverNext(pc: Option<DriverPc>, turn: DriverTurn): Option<DriverPc> {
    if pc.Some? && DriverRequestAt(pc.value) == Some(turn.request) then Some(DriverResume(pc.value, turn.outcome))
    else None
  }

  function DriverAfter(turns: seq<DriverTurn>): Option<DriverPc> {
    if turns == [] then Some(SendRunning)
    else DriverNext(DriverAfter(turns[..|turns| - 1]), turns[|turns| - 1])
  }

  // The conversations of Run

  function ErrorIn(o: Outcome): Option<string> {
    match o
    case Fine(_) => None
    case Problem(text) => Some(text)
  }

  /** The report, whose error is Run's. */
  predicate Reports(turns: seq<DriverTurn>, m: Message, err: Option<string>) {
    && |turns| == 1 && turns[0].request == Send(m)
    && err == ErrorIn(turns[0].outcome)
  }

  /** The end of a Run: the results are gathered after a successful program, and
      the report is a success with exactly the results, also empty ones, if both
      went well, and a failure with the error text otherwise. */
  predicate Completes(execErr: Option<string>, turns: seq<DriverTurn>, err: Option<string>) {
    match execErr
    case Some(text) => Reports(turns, Message(Complete, FailedReason, text, None), err)
    case None =>
      && turns != [] && turns[0].request == GatherResults
      && match turns[0].outcome
         case Problem(text) => Reports(turns[1..], Message(Complete, FailedReason, text, None), err)
         case Fine(results) =>
           Reports(turns[1..], Message(Complete, SucceedReason, "update status from the driver: completed",
                                       Some(results)), err)
  }

  /** A whole Run: Running is announced, and if that was accepted the program runs
      and is reported on. */
  predicate Runs(turns: seq<DriverTurn>, err: Option<string>) {
    && turns != []
    && turns[0].request == Send(Message(Running, NoReason, "update status from the driver: running", None))
    && match turns[0].outcome
       case Problem(text) => |turns| == 1 && err == Some(text)
       case Fine(_) =>
         && |turns| >= 2 && turns[1].request == RunProgram
         && Completes(ErrorIn(turns[1].outcome), turns[2..], err)
  }

  function Follow(pc: Option<DriverPc>, turns: seq<DriverTurn>): Option<DriverPc>
    decreases |turns|
  {
    if turns == [] then pc else Follow(DriverNext(pc, turns[0]), turns[1..])
  }

  lemma {:induction false} FollowSnoc(pc: Option<DriverPc>, turns: seq<DriverTurn>, turn: DriverTurn)
    ensures Follow(pc, turns + [turn]) == DriverNext(Follow(pc, turns), turn)
    decreases |turns|
  {
    if turns == [] {
      assert [turn][1..] == [] && [] + [turn] == [turn];
    } else {
      assert (turns + [turn])[1..] == turns[1..] + [turn];
      FollowSnoc(DriverNext(pc, turns[0]), turns[1..], turn);
    }
  }

  lemma {:induction false} AfterFollows(turns: seq<DriverTurn>)
    ensures DriverAfter(turns) == Follow(Some(SendRunning), turns)
  {
    if turns != [] {
      var n := |turns| - 1;
      AfterFollows(turns[..n]);
      assert turns == turns[..n] + [turns[n]];
      FollowSnoc(Some(SendRunning), turns[..n], turns[n]);
    }
  }

  lemma {:induction false} Over(pc: Option<DriverPc>, turns: seq<DriverTurn>)
    requires pc.Some? ==> pc.value.Exit?
    ensures turns != [] ==> Follow(pc, turns).None?
    decreases |turns|
  {
    if |turns| > 1 {
      Over(None, turns[1..]);
    }
  }

  function ExitCode(err: Option<string>): int {
    if err.None? then 0 else 1
  }

  lemma ReportsExactly(m: Message, turns: seq<DriverTurn>, code: int)
    ensures Follow(Some(SendComplete(m)), turns) == Some(Exit(code))
            <==> exists err :: Reports(turns, m, err) && code == ExitCode(err)
  {
    if turns != [] {
      Over(DriverNext(Some(SendComplete(m)), turns[0]), turns[1..]);
      var err := ErrorIn(turns[0].outcome);
      assert Reports(turns, m, err) <==> |turns| == 1 && turns[0].request == Send(m);
    }
  }

  lemma CompletesExactly(execErr: Option<string>, turns: seq<DriverTurn>, code: int)
    ensures Follow(Some(DriverResume(Execute, OutcomeOf(execErr))), turns) == Some(Exit(code))
            <==> exists err :: Completes(execErr, turns, err) && code == ExitCode(err)
  {
    if execErr.Some? {
      ReportsExactly(FailureMessage(execErr.value), turns, code);
      assert forall err :: Completes(execErr, turns, err)
                           <==> Reports(turns, FailureMessage(execErr.value), err);
    } else if turns != [] {
      if turns[0].request != GatherResults {
        Over(None, turns[1..]);
      } else {
        var m := DriverResume(ReadResults, turns[0].outcome).msg;
        ReportsExactly(m, turns[1..], code);
        assert forall err :: Completes(execErr, turns, err) <==> Reports(turns[1..], m, err);
      }
    }
  }

  lemma RunsProgramExactly(turns: seq<DriverTurn>, first: DriverTurn, code: int)
    requires first.request == Send(RUNNING_MESSAGE) && first.outcome.Fine?
    ensures Follow(Some(Execute), turns) == Some(Exit(code))
            <==> exists err :: Runs([first] + turns, err) && code == ExitCode(err)
  {
    var all := [first] + turns;
    if turns != [] {
      assert all[2..] == turns[1..];
      if turns[0].request != RunProgram {
        Over(None, turns[1..]);
      } else {
        var execErr := ErrorIn(turns[0].outcome);
        CompletesExactly(execErr, turns[1..], code);
        assert DriverResume(Execute, turns[0].outcome) == DriverResume(Execute, OutcomeOf(execErr));
        assert forall err :: Runs(all, err) <==> Completes(execErr, turns[1..], err);
      }
    }
  }

  /** The driver's automaton exits after exactly the conversations of Run, with 0
      exactly if Run had no error. */
  lemma RunsExactly(turns: seq<DriverTurn>, code: int)
    ensures DriverAfter(turns) == Some(Exit(code)) <==> exists err :: Runs(turns, err) && code == ExitCode(err)
  {
    AfterFollows(turns);
    if turns != [] {
      var pc := DriverNext(Some(SendRunning), turns[0]);
      if pc == Some(Execute) {
        RunsProgramExactly(turns[1..], turns[0], code);
        assert [turns[0]] + turns[1..] == turns;
      } else {
        Over(pc, turns[1..]);
        if pc.Some? && |turns| == 1 {
          assert Runs(turns, Some(turns[0].outcome.text));
        }
      }
    }
  }

  // The results

  /** An entry of the walk over the output directory. */
  datatype Entry = Broken(text: string)          // the walk reports an error
                 | Directory                     // skipped
                 | Other                         // does not match result*.json
                 | Unreadable                    // matches, but cannot be read
                 | Results(content: string)

  /** The content of the last readable match, or the first error of the walk. */
  function Gathered(entries: seq<Entry>): Outcome {
    if entries == [] then Fine("")
    else
      var n := |entries| - 1;
      match Gathered(entries[..n])
      case Problem(text) => Problem(text)
      case Fine(results) =>
        match entries[n]
        case Broken(text) => Problem(text)
        case Results(content) => Fine(content)
        case _ => Fine(results)
  }

  lemma {:induction false} GatheredStops(entries: seq<Entry>, i: nat)
    requires i <= |entries| && Gathered(entries[..i]).Problem?
    ensures Gathered(entries) == Gathered(entries[..i])
  {
    if i == |entries| {
      assert entries[..i] == entries;
    } else {
      var n := |entries| - 1;
      assert entries[..n][..i] == entries[..i];
      GatheredStops(entries[..n], i);
    }
  }

  /** A success yields the results of the last readable match, whatever came
      before it. */
  lemma {:induction false} GatheredIsLast(entries: seq<Entry>, k: nat)
    requires k < |entries| && entries[k].Results?
    requires forall i :: 0 <= i < |entries| ==> !entries[i].Broken?
    requires forall i :: k < i < |entries| ==> !entries[i].Results?
    ensures Gathered(entries) == Fine(entries[k].content)
  {
    var n := |entries| - 1;
    if k < n {
      GatheredIsLast(entries[..n], k);
    } else {
      NoBreakNoProblem(entries[..n]);
    }
  }

  lemma {:induction false} NoBreakNoProblem(entries: seq<Entry>)
    requires forall i :: 0 <= i < |entries| ==> !entries[i].Broken?
    ensures Gathered(entries).Fine?
  {
    if entries != [] {
      NoBreakNoProblem(entries[..|entries| - 1]);
    }
  }

  /** What the walk comes to: its first error; or else the last readable match, or
      nothing if there is none. */
  ghost predicate Gathers(entries: seq<Entry>, outcome: Outcome) {
    match outcome
    case Problem(text) =>
      exists k :: && 0 <= k < |entries| && entries[k] == Broken(text)
                  && forall i :: 0 <= i < k ==> !entries[i].Broken?
    case Fine(results) =>
      && (forall i :: 0 <= i < |entries| ==> !entries[i].Broken?)
      && ((results == "" && forall i :: 0 <= i < |entries| ==> !entries[i].Results?)
          || exists k :: && 0 <= k < |entries| && entries[k] == Results(results)
                         && forall i :: k < i < |entries| ==> !entries[i].Results?)
  }

  /** One more entry. */
  lemma GathersMore(before: seq<Entry>, e: Entry, results: string)
    requires Gathers(before, Fine(results))
    ensures Gathers(before + [e], match e case Broken(text) => Problem(text)
                                          case Results(content) => Fine(content)
                                          case _ => Fine(results))
  {
    var entries, n := before + [e], |before|;
    assert entries[n] == e && forall i :: 0 <= i < n ==> entries[i] == before[i];
    if !e.Broken? && !e.Results? {
      if k :| 0 <= k < n && before[k] == Results(results) && forall i :: k < i < n ==> !before[i].Results? {
        assert entries[k] == Results(results);
      }
    }
  }

  lemma GathersStops(before: seq<Entry>, e: Entry, text: string)
    requires Gathers(before, Problem(text))
    ensures Gathers(before + [e], Problem(text))
  {
    var entries := before + [e];
    var k :| 0 <= k < |before| && before[k] == Broken(text) && forall i :: 0 <= i < k ==> !before[i].Broken?;
    assert entries[k] == Broken(text) && forall i :: 0 <= i < k ==> entries[i] == before[i];
  }

  lemma {:induction false} GatheredSatisfies(entries: seq<Entry>)
    ensures Gathers(entries, Gathered(entries))
  {
    if entries != [] {
      var n := |entries| - 1;
      GatheredSatisfies(entries[..n]);
      assert entries == entries[..n] + [entries[n]];
      match Gathered(entries[..n])
      case Problem(text) => GathersStops(entries[..n], entries[n], text);
      case Fine(results) => GathersMore(entries[..n], entries[n], results);
    }
  }

  lemma GathersOnce(entries: seq<Entry>, a: Outcome, b: Outcome)
    requires Gathers(entries, a) && Gathers(entries, b)
    ensures a == b
  {
    if a.Problem? && b.Problem? {
      var i :| 0 <= i < |entries| && entries[i] == Broken(a.text) && forall h :: 0 <= h < i ==> !entries[h].Broken?;
      var k :| 0 <= k < |entries| && entries[k] == Broken(b.text) && forall h :: 0 <= h < k ==> !entries[h].Broken?;
      assert i == k;
    }
  }

  lemma GatheredExactly(entries: seq<Entry>, outcome: Outcome)
    ensures Gathered(entries) == outcome <==> Gathers(entries, outcome)
  {
    GatheredSatisfies(entries);
    if Gathers(entries, outcome) {
      GathersOnce(entries, Gathered(entries), outcome);
    }
  }

  /** The callback of filepath.WalkDir overwrites `results` and stops the walk at
      an error. */
  method GetResults(entries: seq<Entry>) returns (outcome: Outcome)
    ensures outcome == Gathered(entries) && Gathers(entries, outcome)
  {
    GatheredSatisfies(entries);
    var results := "";
    for i := 0 to |entries|
      invariant Gathered(entries[..i]) == Fine(results)
    {
      assert entries[..i + 1][..i] == entries[..i];
      match entries[i] {
        case Broken(text) =>
          GatheredStops(entries, i + 1);
          return Problem(text);
        case Results(content) => results := content;
        case _ =>
      }
    }
    assert entries[..|entries|] == entries;
    return Fine(results);
  }

  /** The world around the driver; `turns` is what it has done and heard so far. */
  class Host {
    ghost var turns: seq<DriverTurn>

    constructor ()
      ensures turns == []
    {
      turns := [];
    }

    /** UpdateStatus over gRPC, with its deadline. */
    method Call(msg: Message) returns (err: Option<string>)
      modifies this
      ensures turns == old(turns) + [DriverTurn(Send(msg), OutcomeOf(err))]
    {
      err := *;
      turns := turns + [DriverTurn(Send(msg), OutcomeOf(err))];
    }

    method Exec() returns (err: Option<string>)
      modifies this
      ensures turns == old(turns) + [DriverTurn(RunProgram, OutcomeOf(err))]
    {
      err := *;
      turns := turns + [DriverTurn(RunProgram, OutcomeOf(err))];
    }

    method Walk() returns (entries: seq<Entry>)
      modifies this
      ensures turns == old(turns) + [DriverTurn(GatherResults, Gathered(entries))]
    {
      entries := *;
      turns := turns + [DriverTurn(GatherResults, Gathered(entries))];
    }
  }

  function OutcomeOf(err: Option<string>): Outcome {
    match err
    case None => Fine("")
    case Some(text) => Problem(text)
  }

  class JobDriver {
    const host: Host

    constructor (host: Host)
      ensures this.host == host
    {
      this.host := host;
    }

    /** Run and the exit code main derives from its error. */
    method RunToExit() returns (exitCode: int)
      requires host.turns == []
      modifies host
      ensures DriverAfter(host.turns) == Some(Exit(exitCode))
      ensures (exitCode == 0 && Runs(host.turns, None)) || (exitCode == 1 && exists text :: Runs(host.turns, Some(text)))
    {
      exitCode := 0;
      var err := Run();
      if err.Some? {
        exitCode := 1;
      }
      RunsExactly(host.turns, exitCode);
    }

    method Run() returns (err: Option<string>)
      requires host.turns == []
      modifies host
      ensures Runs(host.turns, err)
    {
      err := host.Call(RUNNING_MESSAGE);
      if err.Some? {
        return err;
      }
      var execErr := host.Exec();
      err := UpdateCompleteStatus(execErr);
    }

    /** The results are gathered only after a successful program; then the report. */
    method UpdateCompleteStatus(execErr: Option<string>) returns (err: Option<string>)
      modifies host
      ensures old(host.turns) <= host.turns
      ensures Completes(execErr, host.turns[|old(host.turns)|..], err)
    {
      var newStatus := Message(Complete, SucceedReason, "update status from the driver: completed", None);
      if execErr.Some? {
        newStatus := newStatus.(reason := FailedReason, text := execErr.value);
      } else {
        var entries := host.Walk();
        var outcome := GetResults(entries);
        match outcome {
          case Problem(text) => newStatus := newStatus.(reason := FailedReason, text := text);
          case Fine(results) => newStatus := newStatus.(results := Some(results));
        }
      }
      err := host.Call(newStatus);
    }
  }
}
