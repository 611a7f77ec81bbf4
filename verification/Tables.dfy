/** The rows of the runs table, what each statement on a row does to it, and the
    processes that hold a claim or a decision in their hands. */
module Tables {
  import opened Diary

  datatype Status = Queued | Running | Paused | Completed | Failed

  datatype Origin = Origin(run: RunId, at: nat)

  /** A row of the runs table. `created` is the order of insertion. */
  datatype Run = Run(
    agent: string, input: Value, status: Status, created: nat,
    owner: Option<string>, expiry: Option<int>, token: nat, parent: Option<Origin>)

  function NewRun(agent: string, input: Value, status: Status, created: nat, parent: Option<Origin>): Run {
    Run(agent, input, status, created, None, None, 0, parent)
  }

  /** The number of events a run was born with: the copied prefix and the patch. */
  function Floor(run: Run): nat {
    if run.parent.Some? then run.parent.value.at + 1 else 0
  }

  // ----- UPDATE runs SET ... WHERE run_id = ... -----

  function Claimed(run: Run, worker: string, expiry: int): Run {
    run.(status := Running, owner := Some(worker), expiry := Some(expiry), token := run.token + 1)
  }

  predicate Beats(run: Run, worker: string) {
    run.owner == Some(worker) && run.status == Running
  }

  function Beaten(run: Run, worker: string, expiry: int): Run {
    if Beats(run, worker) then run.(expiry := Some(expiry)) else run
  }

  predicate Lapsed(run: Run, now: int) {
    run.status == Running && run.expiry.Some? && run.expiry.value < now
  }

  function Swept(run: Run, now: int): Run {
    if Lapsed(run, now) then run.(status := Queued, owner := None, expiry := None) else run
  }

  predicate Held(run: Run, token: nat) {
    run.token == token && run.status == Running
  }

  function CompletedBy(run: Run, token: nat): Run {
    if Held(run, token) then run.(status := Completed) else run
  }

  function ParkedBy(run: Run, token: nat, status: Status): Run {
    if Held(run, token) then run.(status := status, owner := None, expiry := None) else run
  }
}
