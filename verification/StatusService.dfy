/** The imperative gRPC status handler, its conversation and the automaton of
    Calls.dfy; it tells its client about every failure. */
module StatusService {
  import opened Options
  import opened Types
  import opened Calls
  import opened Conversations
  import opened ApiServer

  /** Where a call stands after a conversation. */
  function CallAfter(start: CallPc, trace: seq<Turn>): Option<CallPc> {
    if trace == [] then Some(start)
    else
      var n := |trace| - 1;
      CallNext(CallAfter(start, trace[..n]), trace[n].request, trace[n].response)
  }

  method IsBlank(s: string) returns (blank: bool)
    ensures blank == Spaces(s)
  {
    for i := 0 to |s|
      invariant forall k :: 0 <= k < i ==> s[k] == ' '
    {
      if s[i] != ' ' {
        return false;
      }
    }
    return true;
  }

  datatype ResponseCode = OK | ERROR

  class UpdateStatusServer {
    const client: Client

    constructor (client: Client)
      ensures this.client == client
    {
      this.client := client;
    }

    /** The reconciler's updateStatus. */
    method UpdateJob(jobName: string, jobNamespace: string, newStatus: Message) returns (err: Option<Error>)
      requires client.turns == []
      modifies client
      ensures Updates(jobName, jobNamespace, newStatus, client.turns, err)
    {
      var noName := IsBlank(jobName);
      var noNamespace := IsBlank(jobNamespace);
      if noName || noNamespace {
        return Some(EMPTY_NAME_ERROR);
      }
      var job := new LMEvalJob();
      err := client.Get(job);
      if err.Some? {
        return err;
      }
      ApplyTo(job, newStatus);
      err := client.UpdateStatus(job);
    }

    /** The edits of updateStatus. */
    static method ApplyTo(job: LMEvalJob, newStatus: Message)
      modifies job
      ensures job.Value() == old(job.Value()).(status := job.Value().status)
      ensures Edited(old(job.Value()).status, job.Value().status, newStatus)
    {
      job.state := newStatus.state;
      job.reason := newStatus.reason;
      if newStatus.text != "" {
        job.message := newStatus.text;
      }
      if newStatus.results.Some? {
        job.results := newStatus.results.value;
      }
    }

    /** The service method: code, text and error agree, and the error is the
        outcome of the call. */
    method UpdateStatus(jobName: string, jobNamespace: string, newStatus: Message)
      returns (code: ResponseCode, text: string, err: Option<Error>)
      requires client.turns == []
      modifies client
      ensures Updates(jobName, jobNamespace, newStatus, client.turns, err)
      ensures CallAfter(Open(jobName, jobNamespace, newStatus), client.turns) == Some(Answered(err))
      ensures code == OK <==> err.None?
      ensures text == if err.Some? then err.value.text else "updated the job status successfully"
    {
      code, text := OK, "updated the job status successfully";
      err := UpdateJob(jobName, jobNamespace, newStatus);
      UpdatesExactly(jobName, jobNamespace, newStatus, client.turns, err);
      if err.Some? {
        code := ERROR;
        text := err.value.text;
      }
    }
  }

  lemma EditedExactly(st: Status, st': Status, m: Message)
    ensures Edited(st, st', m) <==> st' == ApplyMessage(st, m)
  {}

  lemma {:induction false} NothingAfter(pc: Option<CallPc>, start: CallPc, turns: seq<Turn>, n: nat)
    requires n <= |turns| && CallAfter(start, turns[..n]) == pc && (pc.None? || pc.value.Answered?)
    ensures n < |turns| ==> CallAfter(start, turns).None?
  {
    if n < |turns| {
      var k := |turns| - 1;
      assert n <= k && turns[..k][..n] == turns[..n];
      NothingAfter(pc, start, turns[..k], n);
      if n == k {
        assert turns[..k] == turns[..n];
      }
    }
  }

  lemma CallAfterOne(start: CallPc, turns: seq<Turn>)
    requires turns != []
    ensures CallAfter(start, turns[..1]) == CallNext(Some(start), turns[0].request, turns[0].response)
  {
    assert turns[..1][..0] == [];
  }

  lemma CallAfterTwo(start: CallPc, turns: seq<Turn>)
    requires |turns| >= 2
    ensures CallAfter(start, turns[..2])
            == CallNext(CallNext(Some(start), turns[0].request, turns[0].response), turns[1].request, turns[1].response)
  {
    assert turns[..2][..1] == turns[..1];
    CallAfterOne(start, turns);
  }

  /** The automaton of a status call answers after exactly the conversations of
      updateStatus: in particular, without an error only after it has stored the
      edited status. */
  lemma UpdatesExactly(jobName: string, jobNamespace: string, m: Message, turns: seq<Turn>, err: Option<Error>)
    requires forall i :: 0 <= i < |turns| ==> Fits(turns[i])
    ensures CallAfter(Open(jobName, jobNamespace, m), turns) == Some(Answered(err))
            <==> Updates(jobName, jobNamespace, m, turns, err)
  {
    var start := Open(jobName, jobNamespace, m);
    if turns != [] {
      CallAfterOne(start, turns);
      if start.Answered? {
        NothingAfter(Some(start), start, turns, 0);
      } else {
        var first := CallAfter(start, turns[..1]);
        assert turns[..|turns|] == turns;
        if first.None? || first.value.Answered? {
          NothingAfter(first, start, turns, 1);
        } else if |turns| >= 2 {
          CallAfterTwo(start, turns);
          NothingAfter(CallAfter(start, turns[..2]), start, turns, 2);
          var job := turns[0].response.job;
          if turns[1].request.UpdateStatus? {
            EditedExactly(job.status, turns[1].request.job.status, m);
          }
        }
      }
    }
  }
}
