/** The law of leases: whose a claimed run is, for how long, and how that ends. */
module Leases {
  import opened Diary
  import opened Tables

  /** A heartbeat of some worker, with the expiry that it asks for. */
  datatype Pulse = Pulse(worker: string, until: int)

  /** The row after these heartbeats, in turn. */
  function Pulsed(run: Run, pulses: seq<Pulse>): Run {
    if pulses == [] then run
    else
      var last := pulses[|pulses| - 1];
      Beaten(Pulsed(run, pulses[..|pulses| - 1]), last.worker, last.until)
  }

  /** How long the lease of `worker` lasts: until what its last heartbeat asked for, or else its claim. */
  function LeaseEnd(worker: string, claimed: int, pulses: seq<Pulse>): int {
    if pulses == [] then claimed
    else
      var last := pulses[|pulses| - 1];
      if last.worker == worker then last.until else LeaseEnd(worker, claimed, pulses[..|pulses| - 1])
  }

  lemma {:induction false} LeasedRow(run: Run, worker: string, claimed: int, pulses: seq<Pulse>)
    ensures Pulsed(Claimed(run, worker, claimed), pulses)
         == run.(status := Running, owner := Some(worker), token := run.token + 1,
                 expiry := Some(LeaseEnd(worker, claimed, pulses)))
  {
    if pulses != [] {
      LeasedRow(run, worker, claimed, pulses[..|pulses| - 1]);
    }
  }

  /** After a claim and any heartbeats of anyone: a heartbeat succeeds if and only if it is the
      owner's; a sweep takes the run away if and only if the lease has run out, and changes
      nothing before; and the life of the claim, and no other, can settle the run. */
  lemma LeaseLaw(run: Run, worker: string, claimed: int, pulses: seq<Pulse>, other: string, now: int, token: nat)
    ensures var row := Pulsed(Claimed(run, worker, claimed), pulses);
      && (Beats(row, other) <==> other == worker)
      && (Swept(row, now) == row <==> now <= LeaseEnd(worker, claimed, pulses))
      && (Held(row, token) <==> token == run.token + 1)
  {
    LeasedRow(run, worker, claimed, pulses);
  }

  /** A row whose lease was given up. */
  predicate Released(run: Run) {
    run.status != Running
  }

  /** The ways a lease is given up, and the row they leave: the sweep after it ran out,
      completion, which keeps the lease in the row, and parking. */
  lemma WaysToRelease(run: Run, worker: string, claimed: int, pulses: seq<Pulse>, now: int, status: Status)
    requires status == Failed || status == Paused
    ensures var row, token := Pulsed(Claimed(run, worker, claimed), pulses), run.token + 1;
      var bare := run.(owner := None, expiry := None, token := token);
      && (now > LeaseEnd(worker, claimed, pulses) ==> Swept(row, now) == bare.(status := Queued))
      && CompletedBy(row, token) == row.(status := Status.Completed)
      && ParkedBy(row, token, status) == bare.(status := status)
      && Released(CompletedBy(row, token)) && Released(ParkedBy(row, token, status))
  {
    LeasedRow(run, worker, claimed, pulses);
  }

  /** A lease that was given up is not taken up again by a heartbeat, a sweep or a settlement of
      whoever held it; the token stays, so only a new claim makes the old holder stale. */
  lemma {:induction false} ReleasedForGood(run: Run, pulses: seq<Pulse>, worker: string, now: int, token: nat)
    requires Released(run)
    ensures Pulsed(run, pulses) == run && !Beats(run, worker)
    ensures Swept(run, now) == run && CompletedBy(run, token) == run && ParkedBy(run, token, Failed) == run
  {
    if pulses != [] {
      ReleasedForGood(run, pulses[..|pulses| - 1], worker, now, token);
    }
  }

  /** The next claim fences the old life out: it can neither settle the run, nor, unless it is
      of the same worker, extend the lease. */
  lemma ReclaimFences(run: Run, worker: string, claimed: int, next: string, expiry: int, pulses: seq<Pulse>)
    ensures var row := Pulsed(Claimed(Claimed(run, worker, claimed), next, expiry), pulses);
      && !Held(row, run.token + 1)
      && (Beats(row, worker) <==> worker == next)
  {
    LeasedRow(Claimed(run, worker, claimed), next, expiry, pulses);
  }
}
