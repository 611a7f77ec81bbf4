/** The database as an object: the tables are fields that each operation of Timefork
    changes in place, in one committed transaction or not at all. */
module Databases {
  import opened Diary
  import opened Tables
  import opened Store

  class Database {
    var runs: map<RunId, Run>
    var events: map<RunId, map<nat, Entry>>
    var keys: map<string, Value>
    var journal: seq<Commit>

    ghost function Contents(): Db
      reads this
    {
      Db(runs, events, keys, journal)
    }

    constructor ()
      ensures Contents() == Empty
    {
      runs, events, keys, journal := map[], map[], map[], [];
    }

    // ----- the diary -----

    function Diary(r: RunId): map<nat, Entry>
      reads this
    {
      if r in events then events[r] else map[]
    }

    /** read_events: each row of the run once, by increasing seq. */
    method ReadEvents(r: RunId) returns (rows: seq<Row>)
      ensures |rows| == |Diary(r)| && forall i, j :: 0 <= i < j < |rows| ==> rows[i].slot < rows[j].slot
      ensures forall slot, e :: Row(slot, e) in rows <==> slot in Diary(r) && Diary(r)[slot] == e
      ensures rows == Store.ReadEvents(Rows(Contents(), r))
    {
      rows := Store.ReadEvents(Diary(r));
      ReadsAll(Diary(r));
    }

    method CreateRun(r: RunId, agent: string, input: Value)
      requires r !in runs
      modifies this
      ensures runs == old(runs)[r := Run(agent, input, Running, |old(runs)|, None, None, 0, None)]
      ensures events == old(events) && keys == old(keys) && journal == old(journal)
      ensures Contents() == Insert(old(Contents()), r, agent, input, Running)
    {
      runs := runs[r := NewRun(agent, input, Running, |runs|, None)];
    }

    /** append_event. Without a lease the insert is unfenced. */
    method AppendEvent(r: RunId, slot: nat, e: Event, lease: Option<nat>) returns (error: Option<Error>)
      modifies this
      ensures error == Some(StaleFence) <==> lease.Some? && (r in runs ==> runs[r].token != lease.value)
      ensures error == Some(UnknownRun) <==> lease.None? && r !in runs
      ensures error == Some(Duplicate) <==> error != Some(StaleFence) && r in runs && slot in old(Diary(r))
      ensures error.None? ==> Diary(r) == old(Diary(r))[slot := Entry(e, if lease.Some? then lease.value else 0)]
      ensures error.None? ==> slot !in old(Diary(r)) && forall q :: q != r ==> Diary(q) == old(Diary(q))
      ensures runs == old(runs) && keys == old(keys) && journal == old(journal)
      ensures var after := Store.AppendEvent(old(Contents()), r, slot, e, lease);
        if after.Ok? then error.None? && Contents() == after.value
        else error == Some(after.error) && Contents() == old(Contents())
    {
      var token := 0;
      if lease.Some? {
        var held := r in runs && runs[r].token == lease.value;
        if !held {
          return Some(StaleFence);
        }
        token := lease.value;
      }
      if r !in runs {
        return Some(UnknownRun);  // the foreign key of events
      }
      if slot in Diary(r) {
        return Some(Duplicate);   // its primary key
      }
      events := events[r := Diary(r)[slot := Entry(e, token)]];
      error := None;
    }

    /** _perform_once: the lease check, the lookup of the key, the effect, the key and the
        completion, in one transaction, which is rolled back if the effect raises. `effect` is
        what running `fn` now comes to; `dies` says that the process is killed just before
        the commit. */
    method PerformOnce(
      r: RunId, intent: nat, slot: nat, fn: string, effect: seq<Commit> -> Attempted, lease: Option<nat>, dies: bool)
      returns (result: Result<Value>)
      modifies this
      ensures result == Err(StaleFence) <==> lease.Some? && (r in runs ==> runs[r].token != lease.value)
      ensures result.Ok? <==>
        && result != Err(StaleFence) && r in runs && slot !in old(Diary(r))
        && (MakeKey(r, intent) in old(keys) || effect(old(journal)).Yields?)
      ensures result == Err(EffectRaised) <==>
        result != Err(StaleFence) && MakeKey(r, intent) !in old(keys) && effect(old(journal)).Throws?
      ensures result == Err(UnknownRun) ==> lease.None? && r !in runs
      ensures result.Ok? && MakeKey(r, intent) in old(keys) ==>
        result.value == old(keys)[MakeKey(r, intent)] && keys == old(keys) && journal == old(journal)
      ensures result.Ok? && MakeKey(r, intent) !in old(keys) ==> effect(old(journal)) == Yields(result.value)
      ensures result.Ok? && MakeKey(r, intent) !in old(keys) && !dies ==>
        && keys == old(keys)[MakeKey(r, intent) := result.value]
        && journal == old(journal) + [Commit(r, intent, fn, result.value)]
      ensures result.Ok? && !dies ==>
        Diary(r) == old(Diary(r))[slot := Entry(ToolCompleted(MakeKey(r, intent), result.value),
                                                if lease.Some? then lease.value else 0)]
      ensures runs == old(runs) && forall q :: q != r ==> Diary(q) == old(Diary(q))
      ensures result.Err? || dies ==> events == old(events) && keys == old(keys) && journal == old(journal)
      ensures var after := Store.PerformOnce(old(Contents()), r, intent, slot, fn, effect(old(journal)), lease);
        if after.Err? then result == Err(after.error) && Contents() == old(Contents())
        else result == Ok(after.value.1) && Contents() == if dies then old(Contents()) else after.value.0
    {
      if lease.Some? {
        var held := r in runs && runs[r].token == lease.value;
        if !held {
          return Err(StaleFence);
        }
      }
      var key := MakeKey(r, intent);
      var value, stagedKeys, stagedJournal;
      if key in keys {
        value, stagedKeys, stagedJournal := keys[key], keys, journal;
      } else {
        var attempt := effect(journal);
        match attempt {
          case Yields(v) => value := v;
          case Violates => return Err(Duplicate);
          case Throws => return Err(EffectRaised);
        }
        stagedKeys, stagedJournal := keys[key := value], journal + [Commit(r, intent, fn, value)];
      }
      if r !in runs {
        return Err(UnknownRun);
      }
      if slot in Diary(r) {
        return Err(Duplicate);
      }
      result := Ok(value);
      if !dies {
        events := events[r := Diary(r)[slot := Entry(ToolCompleted(key, value), Stamp(lease))]];
        keys, journal := stagedKeys, stagedJournal;
      }
    }

    method SetRunStatus(r: RunId, status: Status) returns (error: Option<Error>)
      modifies this
      ensures error == if r in old(runs) then None else Some(UnknownRun)
      ensures runs == if r in old(runs) then old(runs)[r := old(runs)[r].(status := status)] else old(runs)
      ensures events == old(events) && keys == old(keys) && journal == old(journal)
      ensures var after := SetStatus(old(Contents()), r, status);
        if after.Ok? then error.None? && Contents() == after.value
        else error == Some(after.error) && Contents() == old(Contents())
    {
      if r !in runs {
        return Some(UnknownRun);
      }
      runs := runs[r := runs[r].(status := status)];
      error := None;
    }

    // ----- the queue -----

    method EnqueueRun(r: RunId, agent: string, input: Value)
      requires r !in runs
      modifies this
      ensures runs == old(runs)[r := Run(agent, input, Queued, |old(runs)|, None, None, 0, None)]
      ensures events == old(events) && keys == old(keys) && journal == old(journal)
      ensures Contents() == Insert(old(Contents()), r, agent, input, Queued)
    {
      runs := runs[r := NewRun(agent, input, Queued, |runs|, None)];
    }

    /** claim_run, for the given agent or for any. The claim goes to the oldest queued run. */
    method ClaimRun(worker: string, expiry: int, agent: Option<string>) returns (claim: Option<(RunId, nat)>)
      modifies this
      ensures claim.None? ==> runs == old(runs)
      ensures claim.None? ==>
        forall r :: r in runs && runs[r].status == Queued ==> agent.Some? && runs[r].agent != agent.value
      ensures claim.Some? ==>
        var r := claim.value.0;
        && r in old(runs) && old(runs)[r].status == Queued && (agent.Some? ==> old(runs)[r].agent == agent.value)
        && (forall q :: q in old(runs) && old(runs)[q].status == Queued
                        && (agent.Some? ==> old(runs)[q].agent == agent.value) ==>
              old(runs)[r].created <= old(runs)[q].created)
        && claim.value.1 == old(runs)[r].token + 1
        && runs == old(runs)[r := old(runs)[r].(status := Running, owner := Some(worker), expiry := Some(expiry),
                                                token := claim.value.1)]
      ensures events == old(events) && keys == old(keys) && journal == old(journal)
      ensures claim.None? ==> Contents() == old(Contents()) && forall r :: !Claimable(old(Contents()), r, agent)
      ensures claim.Some? ==>
        var (r, token) := claim.value;
        && NextClaim(old(Contents()), r, agent)
        && Contents() == WithRow(old(Contents()), r, Claimed(old(runs)[r], worker, expiry))
        && token == runs[r].token
    {
      var queued := set r | r in runs && runs[r].status == Queued && (agent.Some? ==> runs[r].agent == agent.value);
      if queued == {} {
        assert forall r :: r in runs && runs[r].status == Queued && (agent.Some? ==> runs[r].agent == agent.value) ==>
            r in queued;
        return None;
      }
      Oldest(runs, queued);
      var r :| r in queued && forall q :: q in queued ==> runs[r].created <= runs[q].created;
      assert forall q :: q in runs && Claimable(Contents(), q, agent) ==> q in queued;
      runs := runs[r := Claimed(runs[r], worker, expiry)];
      claim := Some((r, runs[r].token));
    }

    method Heartbeat(r: RunId, worker: string, expiry: int) returns (alive: bool)
      modifies this
      ensures alive <==> r in old(runs) && old(runs)[r].status == Running && old(runs)[r].owner == Some(worker)
      ensures runs == if alive then old(runs)[r := old(runs)[r].(expiry := Some(expiry))] else old(runs)
      ensures events == old(events) && keys == old(keys) && journal == old(journal)
      ensures alive <==> r in old(runs) && Beats(old(runs)[r], worker)
      ensures Contents() ==
        if alive then WithRow(old(Contents()), r, Beaten(old(runs)[r], worker, expiry)) else old(Contents())
    {
      alive := r in runs && runs[r].owner == Some(worker) && runs[r].status == Running;
      if alive {
        runs := runs[r := runs[r].(expiry := Some(expiry))];
      }
    }

    method SweepExpired(now: int) returns (requeued: set<RunId>)
      modifies this
      ensures forall r :: r in requeued <==>
        && r in old(runs) && old(runs)[r].status == Running
        && old(runs)[r].expiry.Some? && old(runs)[r].expiry.value < now
      ensures runs.Keys == old(runs).Keys
      ensures forall r :: r in old(runs) ==>
        runs[r] ==
          if r in requeued then old(runs)[r].(status := Queued, owner := None, expiry := None) else old(runs)[r]
      ensures events == old(events) && keys == old(keys) && journal == old(journal)
      ensures requeued == set r | r in old(runs) && Lapsed(old(runs)[r], now)
      ensures Contents() == SweepAll(old(Contents()), now)
    {
      requeued := set r | r in runs && Lapsed(runs[r], now);
      runs := map r | r in runs ::
        if r in requeued then runs[r].(status := Queued, owner := None, expiry := None) else runs[r];
    }

    method ReadLeaseToken(r: RunId) returns (token: nat)
      requires r in runs
      ensures token == runs[r].token
    {
      token := runs[r].token;
    }

    /** The last statement of a life that returned: complete the run if the lease is still held. */
    method Complete(r: RunId, token: nat)
      modifies this
      ensures runs ==
        if r in old(runs) && old(runs)[r].token == token && old(runs)[r].status == Running then
          old(runs)[r := old(runs)[r].(status := Status.Completed)]
        else old(runs)
      ensures events == old(events) && keys == old(keys) && journal == old(journal)
      ensures Contents() ==
        if r in old(runs) then WithRow(old(Contents()), r, CompletedBy(old(runs)[r], token)) else old(Contents())
    {
      if r in runs && runs[r].token == token && runs[r].status == Running {
        runs := runs[r := runs[r].(status := Completed)];
      }
      assert r in runs ==> runs == runs[r := runs[r]];
    }

    /** _park. */
    method Park(r: RunId, token: nat, status: Status)
      modifies this
      ensures runs ==
        if r in old(runs) && old(runs)[r].token == token && old(runs)[r].status == Running then
          old(runs)[r := old(runs)[r].(status := status, owner := None, expiry := None)]
        else old(runs)
      ensures events == old(events) && keys == old(keys) && journal == old(journal)
      ensures Contents() ==
        if r in old(runs) then WithRow(old(Contents()), r, ParkedBy(old(runs)[r], token, status)) else old(Contents())
    {
      if r in runs && runs[r].token == token && runs[r].status == Running {
        runs := runs[r := runs[r].(status := status, owner := None, expiry := None)];
      }
      assert r in runs ==> runs == runs[r := runs[r]];
    }

    // ----- approvals and forks -----

    /** grant_approval: two commits, the answer and then the requeue. */
    method GrantApproval(r: RunId, approved: bool) returns (result: Result<nat>)
      modifies this
      ensures result == Err(NotAwaitingApproval) <==> !EndsOnRequest(old(Diary(r)))
      ensures result.Ok? ==>
        && r in old(runs) && runs == old(runs)[r := old(runs)[r].(status := Queued)]
        && result.value == |old(Diary(r))| + 1 && result.value !in old(Diary(r))
        && Diary(r) == old(Diary(r))[result.value := Entry(Approval(approved), 0)]
      ensures result.Err? ==> runs == old(runs) && events == old(events)
      ensures keys == old(keys) && journal == old(journal) && forall q :: q != r ==> Diary(q) == old(Diary(q))
      ensures var rows := Store.ReadEvents(Rows(old(Contents()), r));
        if |rows| == 0 || !rows[|rows| - 1].entry.event.ApprovalRequested? then
          result == Err(NotAwaitingApproval) && Contents() == old(Contents())
        else
          var after := Store.AppendEvent(old(Contents()), r, |rows| + 1, Approval(approved), None);
          if after.Err? then result == Err(after.error) && Contents() == old(Contents())
          else result == Ok(|rows| + 1) && Contents() == WithRow(after.value, r, old(runs)[r].(status := Queued))
    {
      var rows := ReadEvents(r);
      LastRow(Diary(r));
      if |rows| == 0 || !rows[|rows| - 1].entry.event.ApprovalRequested? {
        return Err(NotAwaitingApproval);
      }
      var slot := |rows| + 1;
      var error := AppendEvent(r, slot, Approval(approved), None);
      if error.Some? {
        return Err(error.value);
      }
      error := SetRunStatus(r, Queued);
      result := Ok(slot);
    }

    /** fork_run, with the id `child` drawn for the new run. */
    method ForkRun(parent: RunId, at: nat, patch: Config, child: RunId) returns (error: Option<Error>)
      requires child !in runs
      modifies this
      ensures error == Some(UnknownRun) <==> parent !in old(runs)
      ensures error.None? <==>
        && parent in old(runs) && 1 <= at <= |old(Diary(parent))| && at in old(Diary(parent))
        && !old(Diary(parent))[at].event.ToolIntent? && !old(Diary(parent))[at].event.ApprovalRequested?
      ensures error.Some? && error != Some(UnknownRun) ==> error == Some(InvalidForkPoint)
      ensures error.None? ==>
        runs == old(runs)[child := Run(old(runs)[parent].agent, old(runs)[parent].input, Queued, |old(runs)|,
                                       None, None, 0, Some(Origin(parent, at)))]
      ensures error.None? ==>
        forall i :: i in Diary(child) <==> i == at + 1 || (i in old(Diary(parent)) && i <= at)
      ensures error.None? ==>
        forall i :: i in Diary(child) ==>
          Diary(child)[i] == Entry(if i == at + 1 then PatchApplied(patch) else old(Diary(parent))[i].event, 0)
      ensures forall q :: q != child ==> Diary(q) == old(Diary(q))
      ensures error.Some? ==> runs == old(runs) && events == old(events)
      ensures keys == old(keys) && journal == old(journal)
      ensures var after := Fork(old(Contents()), parent, at, patch, child);
        if after.Ok? then error.None? && Contents() == after.value
        else error == Some(after.error) && Contents() == old(Contents())
    {
      hide CopiedPrefix, NewRun;
      if parent !in runs {
        return Some(UnknownRun);
      }
      var copied := Diary(parent);
      if !(1 <= at <= |copied|) {
        return Some(InvalidForkPoint);
      }
      if at !in copied || copied[at].event.ToolIntent? || copied[at].event.ApprovalRequested? {
        return Some(InvalidForkPoint);
      }
      CopiedRows(copied, at, patch);
      NewRow(runs[parent].agent, runs[parent].input, |runs|, Origin(parent, at));
      var row := NewRun(runs[parent].agent, runs[parent].input, Queued, |runs|, Some(Origin(parent, at)));
      InsertFork(child, row, copied, at, patch);
      error := None;
    }

    /** The three inserts of fork_run: the row, the copied prefix, the patch. */
    method InsertFork(child: RunId, row: Run, copied: map<nat, Entry>, at: nat, patch: Config)
      modifies this`runs, this`events
      ensures runs == old(runs)[child := row]
      ensures events == old(events)[child := CopiedPrefix(copied, at)[at + 1 := Entry(PatchApplied(patch), 0)]]
    {
      hide CopiedPrefix;
      runs := runs[child := row];
      events := events[child := CopiedPrefix(copied, at)];
      var slot: nat := at + 1;
      events := events[child := Diary(child)[slot := Entry(PatchApplied(patch), 0)]];
    }

    /** parent_of: no row, or where the run was forked from, if it was. */
    method ParentOf(r: RunId) returns (found: Option<Option<Origin>>)
      ensures found.Some? <==> r in runs
      ensures found.Some? ==> found.value == runs[r].parent
    {
      found := if r in runs then Some(runs[r].parent) else None;
    }
  }

  /** The last row of the diary, by seq, is a request for approval. */
  ghost predicate EndsOnRequest(m: map<nat, Entry>) {
    exists last :: last in m && (forall i :: i in m ==> i <= last) && m[last].event.ApprovalRequested?
  }

  lemma NewRow(agent: string, input: Value, created: nat, origin: Origin)
    ensures NewRun(agent, input, Queued, created, Some(origin))
         == Run(agent, input, Queued, created, None, None, 0, Some(origin))
  {
  }

  lemma CopiedRows(m: map<nat, Entry>, at: nat, patch: Config)
    ensures var copy := CopiedPrefix(m, at)[at + 1 := Entry(PatchApplied(patch), 0)];
      && (forall i :: i in copy <==> i == at + 1 || (i in m && i <= at))
      && (forall i :: i in copy ==> copy[i] == Entry(if i == at + 1 then PatchApplied(patch) else m[i].event, 0))
  {
  }

  lemma LastRow(m: map<nat, Entry>)
    ensures var rows := Store.ReadEvents(m);
      && |rows| == |m|
      && (EndsOnRequest(m) <==> |rows| > 0 && rows[|rows| - 1].entry.event.ApprovalRequested?)
  {
    ReadsAll(m);
    var rows := Store.ReadEvents(m);
    if |rows| > 0 {
      var last := rows[|rows| - 1];
      assert Row(last.slot, last.entry) in rows;
      forall i | i in m ensures i <= last.slot {
        assert Row(i, m[i]) in rows;
      }
    }
  }

  /** A non-empty set of runs has an oldest one. */
  lemma {:induction false} Oldest(runs: map<RunId, Run>, rs: set<RunId>)
    requires rs != {} && forall r :: r in rs ==> r in runs
    ensures exists r :: r in rs && forall q :: q in rs ==> runs[r].created <= runs[q].created
  {
    var x :| x in rs;
    var rest := rs - {x};
    assert forall q :: q in rs ==> q == x || q in rest;
    if rest != {} {
      Oldest(runs, rest);
      var r :| r in rest && forall q :: q in rest ==> runs[r].created <= runs[q].created;
      var least := if runs[x].created <= runs[r].created then x else r;
      assert least in rs && forall q :: q in rs ==> runs[least].created <= runs[q].created;
    }
  }
}
