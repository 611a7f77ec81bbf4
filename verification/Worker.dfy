/** The worker: it claims a run, lives it under the token of the claim, settles its row, and
    drains the queue. */
module Workers {
  import opened Diary
  import opened Engine
  import opened Timelines
  import opened Tables
  import opened Store
  import opened Databases
  import opened Models
  import opened Lives
  import opened Contexts
  import opened Runner

  /** What the worker leaves of the runs table when a life under `token` has met its fate. */
  function Settled(d: Db, r: RunId, token: nat, fate: Fate): Db
    requires r in d.runs
  {
    match fate
    case Returned(_) => WithRow(d, r, CompletedBy(d.runs[r], token))
    case AgentRaised => WithRow(d, r, ParkedBy(d.runs[r], token, Failed))
    case Stopped(why) =>
      match why
      case Killed => d
      case Refused(StaleFence) => d
      case PausedForApproval(_) => WithRow(d, r, ParkedBy(d.runs[r], token, Paused))
      case _ => WithRow(d, r, ParkedBy(d.runs[r], token, Failed))
  }

  /** _execute. The life may be killed, or fenced out: then nothing is settled. */
  method Execute(db: Database, r: RunId, token: nat, a: Agent, llm: Llm,
                 effects: (string, seq<Commit>) -> Attempted, crash: Crash) returns (fate: Fate, ghost end: Snap)
    requires r in db.runs && Dense(Rows(db.Contents(), r))
    modifies db, llm
    ensures var s := Snap(old(db.Contents()), Events(DiaryOf(Rows(old(db.Contents()), r))), old(llm.calls));
      Lived(Lives.Env(r, Some(token), llm, effects, crash), a, s, end, fate)
    ensures end.db.runs == old(db.runs) && db.Contents() == Settled(end.db, r, token, fate)
    ensures forall q :: q in old(db.runs) && q != r ==> q in db.runs && db.runs[q] == old(db.runs)[q]
    ensures var row := old(db.runs)[r];
      r in db.runs &&
      if row.token != token || row.status != Running || fate == Stopped(Killed) || fate == Stopped(Refused(StaleFence))
      then db.runs[r] == row
      else if fate.Returned? then db.runs[r] == row.(status := Status.Completed)
      else if fate.Stopped? && fate.why.PausedForApproval?
      then db.runs[r] == row.(status := Paused, owner := None, expiry := None)
      else db.runs[r] == row.(status := Failed, owner := None, expiry := None)
  {
    var ctx := new Context(db, r, llm, Some(token), effects, crash);
    ghost var s := ctx.Snapshot();
    fate := LiveOnce(a, ctx);
    end := ctx.Snapshot();
    LivedTouches(ctx.Env(), a, s, end, fate, r);
    match fate {
      case Returned(_) => db.Complete(r, token);
      case AgentRaised => db.Park(r, token, Failed);
      case Stopped(why) =>
        match why {
          case Killed =>
          case Refused(StaleFence) =>
          case PausedForApproval(_) => db.Park(r, token, Paused);
          case _ => db.Park(r, token, Failed);
        }
    }
  }

  lemma LivedTouches(env: Env, a: Agent, s: Snap, u: Snap, fate: Fate, r: RunId)
    requires Lived(env, a, s, u, fate)
    ensures u.db.runs == s.db.runs && (r != env.id ==> Rows(u.db, r) == Rows(s.db, r))
  {
    hide Replay, Grew;
    var n: nat, m :| Grew(env, a, s, m, n) && Fits(env, a, s, n, m, u, fate);
    TouchesOwnOnly(env, a, s, m, n, r);
  }

  /** A life that holds the lease and is never killed ends by settling its row. */
  lemma LoneLifeSettles(env: Env, a: Agent, s: Snap, u: Snap, fate: Fate)
    requires Lived(env, a, s, u, fate) && Sole(env, s) && env.crash == Never && env.lease.Some?
    ensures Sole(env, u)
    ensures fate.Stopped? ==> fate.why != Killed && fate.why != Refused(StaleFence)
    ensures fate.Returned? <==> NeedOf(a, u.seen).Finish?
    ensures fate.Stopped? && fate.why.PausedForApproval? <==> NeedOf(a, u.seen).Await?
    ensures !NeedOf(a, u.seen).Intend? && !NeedOf(a, u.seen).Request?
  {
    hide NeedOf, Grew, Refusal, BreakOf, DiesAfter, Attempt;
    var n: nat, m :| Grew(env, a, s, m, n) && Fits(env, a, s, n, m, u, fate);
    GrewSole(env, a, s, m, n);
    SoleIsNotRefused(env, m);
    assert !DiesAfter(env, m.seen) by { NeverDies(env, m.seen); }
    if BreakOf(env, NeedOf(a, m.seen), m).Some? {
      BreakCauses(env, NeedOf(a, m.seen), m);
      if NeedOf(a, m.seen).Perform? {
        SoleIsNotFenced(env, m, NeedOf(a, m.seen).fn);
      }
    }
    LivedTouches(env, a, s, u, fate, env.id);
  }

  lemma NeverDies(env: Env, seen: seq<Event>)
    requires env.crash == Never
    ensures !DiesAfter(env, seen)
  {
  }

  lemma SoleIsNotFenced(env: Env, m: Snap, fn: string)
    requires Sole(env, m)
    ensures Attempt(env, m, fn) != Err(StaleFence)
  {
  }

  predicate Settles(status: Status) {
    status == Status.Completed || status == Failed || status == Paused
  }

  ghost predicate AllDense(d: Db) {
    forall r :: r in d.runs ==> Dense(Rows(d, r))
  }

  function Queue(d: Db, agent: string): set<RunId> {
    set r | r in d.runs && d.runs[r].status == Queued && d.runs[r].agent == agent
  }

  /** The status of a run that a life settled is what its diary says of the agent. */
  ghost predicate Earned(a: Agent, d: Db, r: RunId) {
    && r in d.runs && Dense(Rows(d, r)) && Settles(d.runs[r].status)
    && var need := NeedOf(a, Events(DiaryOf(Rows(d, r))));
       && (d.runs[r].status == Status.Completed <==> need.Finish?)
       && (d.runs[r].status == Paused <==> need.Await?)
       && (d.runs[r].status == Failed <==> need.Fail? || need.Diverge? || need.Call? || need.Perform?)
  }

  /** What a claim and a settled life leave of a row: a new token and status, and the lease only
      if the run was completed. */
  predicate ServedRow(before: Run, after: Run, worker: string, expiry: int) {
    var kept := after.status == Status.Completed;
    after == before.(status := after.status, token := before.token + 1,
                     owner := if kept then Some(worker) else None, expiry := if kept then Some(expiry) else None)
  }

  /** One claim and one life of a lone worker: exactly that run leaves the queue, for good. */
  lemma OneServed(
    d: Db, r: RunId, worker: string, expiry: int, env: Env, a: Agent, s: Snap, u: Snap, fate: Fate, agent: string)
    requires NextClaim(d, r, Some(agent)) && AllDense(d)
    requires s.db == WithRow(d, r, Claimed(d.runs[r], worker, expiry))
    requires env.id == r && env.lease == Some(d.runs[r].token + 1) && env.crash == Never
    requires s.seen == Events(DiaryOf(Rows(d, r))) && Lived(env, a, s, u, fate)
    ensures r in u.db.runs
    ensures var e := Settled(u.db, r, d.runs[r].token + 1, fate);
      && AllDense(e) && e.runs.Keys == d.runs.Keys
      && ServedRow(d.runs[r], e.runs[r], worker, expiry) && Earned(a, e, r)
      && (forall q :: q in d.runs && q != r ==> e.runs[q] == d.runs[q] && Rows(e, q) == Rows(d, q))
      && Queue(e, agent) == Queue(d, agent) - {r}
  {
    hide Lived, Dense, ReadEvents, NeedOf, Settled, Queue, DiaryOf, Events, ServedRow;
    ClaimedIsSole(d, r, worker, expiry, env, s, agent);
    LoneLifeSettles(env, a, s, u, fate);
    forall q ensures u.db.runs == s.db.runs && (q != r ==> Rows(u.db, q) == Rows(s.db, q)) {
      LivedTouches(env, a, s, u, fate, q);
    }
    SettlesRow(u.db, r, d.runs[r].token + 1, fate);
    var e := Settled(u.db, r, d.runs[r].token + 1, fate);
    forall q ensures Rows(e, q) == if q == r then Rows(u.db, r) else Rows(d, q) {
      assert Rows(e, q) == Rows(u.db, q) && Rows(s.db, q) == Rows(d, q);
    }
    LeavesQueue(d, e, r, agent);
    assert ServedRow(d.runs[r], e.runs[r], worker, expiry) by {
      SettlesServed(u.db, r, d.runs[r], worker, expiry, fate);
    }
  }

  lemma SettlesServed(d: Db, r: RunId, before: Run, worker: string, expiry: int, fate: Fate)
    requires r in d.runs && d.runs[r] == Claimed(before, worker, expiry)
    requires fate.Stopped? ==> fate.why != Killed && fate.why != Refused(StaleFence)
    ensures ServedRow(before, Settled(d, r, before.token + 1, fate).runs[r], worker, expiry)
  {
  }

  /** A fresh claim makes the worker the only one that can write to the run. */
  lemma ClaimedIsSole(d: Db, r: RunId, worker: string, expiry: int, env: Env, s: Snap, agent: string)
    requires NextClaim(d, r, Some(agent)) && AllDense(d)
    requires s.db == WithRow(d, r, Claimed(d.runs[r], worker, expiry))
    requires env.id == r && env.lease == Some(d.runs[r].token + 1)
    requires s.seen == Events(DiaryOf(Rows(d, r)))
    ensures Sole(env, s) && Held(s.db.runs[r], d.runs[r].token + 1)
    ensures d.runs[r].agent == agent
  {
    hide Dense;
    assert Rows(s.db, r) == Rows(d, r);
  }

  lemma LeavesQueue(d: Db, e: Db, r: RunId, agent: string)
    requires e.runs.Keys == d.runs.Keys && r in d.runs && Settles(e.runs[r].status)
    requires forall q :: q in d.runs && q != r ==> e.runs[q] == d.runs[q]
    ensures Queue(e, agent) == Queue(d, agent) - {r}
  {
  }

  lemma SettlesRow(d: Db, r: RunId, token: nat, fate: Fate)
    requires r in d.runs && Held(d.runs[r], token)
    requires fate.Stopped? ==> fate.why != Killed && fate.why != Refused(StaleFence)
    ensures var e := Settled(d, r, token, fate);
      && e.events == d.events && r in e.runs && e.runs == d.runs[r := e.runs[r]]
      && Settles(e.runs[r].status)
      && (e.runs[r].status == Status.Completed <==> fate.Returned?)
      && (e.runs[r].status == Paused <==> fate.Stopped? && fate.why.PausedForApproval?)
  {
  }

  /** Of what `before` had queued for the agent, precisely the runs in `served` have been
      served, each once and oldest first. */
  ghost predicate Served(a: Agent, before: Db, now: Db, agent: string, served: seq<RunId>) {
    && now.runs.Keys == before.runs.Keys
    && (forall r :: r in served ==> r in Queue(before, agent) && Earned(a, now, r))
    && (forall r :: r in Queue(now, agent) <==> r in Queue(before, agent) && r !in served)
    && (forall r :: r in before.runs && r !in served ==> r in now.runs && now.runs[r] == before.runs[r])
    && (forall i, j :: 0 <= i < j < |served| ==> served[i] != served[j])
    && (forall i, j :: 0 <= i < j < |served| && served[i] in before.runs && served[j] in before.runs ==>
          before.runs[served[i]].created <= before.runs[served[j]].created)
    && (forall r, q :: r in served && q in Queue(now, agent) ==> before.runs[r].created <= before.runs[q].created)
  }

  lemma ServesOneMore(a: Agent, before: Db, d: Db, e: Db, agent: string, served: seq<RunId>, r: RunId)
    requires Served(a, before, d, agent, served) && r in Queue(d, agent) && r in d.runs
    requires forall q :: q in Queue(d, agent) ==> q in d.runs && d.runs[r].created <= d.runs[q].created
    requires e.runs.Keys == d.runs.Keys && Earned(a, e, r)
    requires forall q :: q in d.runs && q != r ==> e.runs[q] == d.runs[q] && Rows(e, q) == Rows(d, q)
    requires Queue(e, agent) == Queue(d, agent) - {r}
    ensures Served(a, before, e, agent, served + [r])
  {
    hide Queue, Earned;
    var more := served + [r];
    forall q | q in served ensures Earned(a, e, q) {
      EarnedStays(a, d, e, q);
    }
    assert forall q :: q in more <==> q in served || q == r;
    assert r !in served;
    forall q | q in Queue(d, agent) ensures q in before.runs && d.runs[q] == before.runs[q] {
      assert q !in served && q in Queue(before, agent);
    }
  }

  /** The i-th served run was claimed by the worker with the i-th reading of the clock. */
  ghost predicate RowsServed(before: Db, now: Db, worker: string, expiries: nat -> int, served: seq<RunId>) {
    forall i :: 0 <= i < |served| ==>
      && served[i] in before.runs && served[i] in now.runs
      && ServedRow(before.runs[served[i]], now.runs[served[i]], worker, expiries(i))
  }

  lemma OneMoreRow(
    a: Agent, before: Db, d: Db, e: Db, agent: string, worker: string, expiries: nat -> int,
    served: seq<RunId>, r: RunId)
    requires Served(a, before, d, agent, served) && RowsServed(before, d, worker, expiries, served)
    requires r in Queue(d, agent) && r in d.runs && e.runs.Keys == d.runs.Keys
    requires forall q :: q in d.runs && q != r ==> e.runs[q] == d.runs[q]
    requires ServedRow(d.runs[r], e.runs[r], worker, expiries(|served|))
    ensures RowsServed(before, e, worker, expiries, served + [r])
  {
    hide Earned, ServedRow, Queue;
    assert r !in served && d.runs[r] == before.runs[r];
    forall i | 0 <= i < |served| ensures served[i] != r && e.runs[served[i]] == d.runs[served[i]] {
      assert served[i] in served;
    }
  }

  lemma EarnedStays(a: Agent, d: Db, e: Db, q: RunId)
    requires Earned(a, d, q) && e.runs.Keys == d.runs.Keys
    requires q in d.runs ==> e.runs[q] == d.runs[q] && Rows(e, q) == Rows(d, q)
    ensures Earned(a, e, q)
  {
    hide NeedOf, Dense, Settles;
  }

  lemma {:induction false} CountDistinct(served: seq<RunId>, queue: set<RunId>)
    requires forall i, j :: 0 <= i < j < |served| ==> served[i] != served[j]
    requires forall r :: r in served <==> r in queue
    ensures |served| == |queue|
  {
    if served == [] {
      assert queue == {};
    } else {
      var last := served[|served| - 1];
      assert last in queue;
      forall r ensures r in served[..|served| - 1] <==> r in queue - {last} {
        if r in served && r != last {
          var i :| 0 <= i < |served| && served[i] == r;
          assert served[..|served| - 1][i] == r;
        }
      }
      CountDistinct(served[..|served| - 1], queue - {last});
    }
  }

  /** What a worker is started with: its agent, how the model of each life behaves, and what
      effects come to. */
  datatype Job = Job(
    agent: string, code: Agent, model: (nat, string) -> Completion, effects: (string, seq<Commit>) -> Attempted)

  /** One turn of the loop of a lone worker: the oldest queued run, if any, is claimed and
      lived, and leaves the queue. */
  method ServeNext(db: Database, worker: string, job: Job, expiry: int) returns (served: Option<RunId>)
    requires AllDense(db.Contents())
    modifies db
    ensures served.None? ==> db.Contents() == old(db.Contents()) && Queue(db.Contents(), job.agent) == {}
    ensures served.Some? ==>
      var d, e, r := old(db.Contents()), db.Contents(), served.value;
      && r in d.runs && r in Queue(d, job.agent)
      && (forall q :: q in Queue(d, job.agent) ==> q in d.runs && d.runs[r].created <= d.runs[q].created)
      && AllDense(e) && e.runs.Keys == d.runs.Keys && Earned(job.code, e, r)
      && ServedRow(d.runs[r], e.runs[r], worker, expiry)
      && (forall q :: q in d.runs && q != r ==> e.runs[q] == d.runs[q] && Rows(e, q) == Rows(d, q))
      && Queue(e, job.agent) == Queue(d, job.agent) - {r}
  {
    hide Lived, Dense, Settled, AllDense, Replay, Earned, DiaryOf, Events, ServedRow;
    ghost var d := db.Contents();
    var claim := db.ClaimRun(worker, expiry, Some(job.agent));
    if claim.None? {
      return None;
    }
    var (r, token) := claim.value;
    assert Dense(Rows(db.Contents(), r)) by { DenseRow(d, db.Contents(), r); }
    var llm := new Llm.Other(job.model);
    ghost var s := Snap(db.Contents(), Events(DiaryOf(Rows(db.Contents(), r))), llm.calls);
    var fate, end := Execute(db, r, token, job.code, llm, job.effects, Never);
    ghost var env := Lives.Env(r, Some(token), llm, job.effects, Never);
    OneServed(d, r, worker, expiry, env, job.code, s, end, fate, job.agent);
    served := Some(r);
  }

  /** run_worker with run_forever=False, alone: it returns after exactly one life for each
      queued run of its agent, oldest first, and leaves each of them completed, failed or
      paused; no other row of runs is touched. `expiries` are the readings of the clock. */
  method RunWorker(db: Database, worker: string, job: Job, expiries: nat -> int) returns (served: seq<RunId>)
    requires AllDense(db.Contents())
    modifies db
    ensures AllDense(db.Contents()) && Queue(db.Contents(), job.agent) == {}
    ensures Served(job.code, old(db.Contents()), db.Contents(), job.agent, served)
    ensures |served| == |Queue(old(db.Contents()), job.agent)|
    ensures RowsServed(old(db.Contents()), db.Contents(), worker, expiries, served)
  {
    hide AllDense, Earned, Dense, Queue, ServedRow, Served;
    served := [];
    ghost var before := db.Contents();
    NoneServed(job.code, before, job.agent);
    while true
      invariant AllDense(db.Contents()) && Served(job.code, before, db.Contents(), job.agent, served)
      invariant RowsServed(before, db.Contents(), worker, expiries, served)
      decreases |Queue(db.Contents(), job.agent)|
    {
      ghost var d := db.Contents();
      var next := ServeNext(db, worker, job, expiries(|served|));
      if next.None? {
        AllServed(job.code, before, d, job.agent, served);
        CountDistinct(served, Queue(before, job.agent));
        return;
      }
      OneMoreRow(job.code, before, d, db.Contents(), job.agent, worker, expiries, served, next.value);
      ServesOneMore(job.code, before, d, db.Contents(), job.agent, served, next.value);
      served := served + [next.value];
    }
  }

  lemma NoneServed(a: Agent, d: Db, agent: string)
    ensures Served(a, d, d, agent, [])
  {
  }

  lemma DenseRow(d: Db, e: Db, r: RunId)
    requires AllDense(d) && r in d.runs && e.events == d.events
    ensures Dense(Rows(e, r))
  {
    assert Rows(e, r) == Rows(d, r);
  }

  lemma AllServed(a: Agent, before: Db, d: Db, agent: string, served: seq<RunId>)
    requires Served(a, before, d, agent, served) && Queue(d, agent) == {}
    ensures forall r :: r in served <==> r in Queue(before, agent)
    ensures forall i, j :: 0 <= i < j < |served| ==> served[i] != served[j]
  {
    hide Queue;
  }
}
