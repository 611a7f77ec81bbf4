/** What Timefork promises of a fleet, in every state it can reach. */
module Guarantees {
  import opened Diary
  import opened Engine
  import opened Traces
  import opened Timelines
  import opened Tables
  import opened Protocol
  import opened Store
  import opened Fleet
  import opened FleetSafety
  import Progress
  import Safety

  ghost predicate Reachable(code: Code, f: State) {
    exists fs, steps :: Execution(code, fs, steps) && fs[|steps|] == f
  }

  lemma ReachableIsSafe(code: Code, f: State)
    requires Reachable(code, f)
    ensures FleetInv(code, f)
  {
    hide FleetInv;
    var fs, steps :| Execution(code, fs, steps) && fs[|steps|] == f;
    AlwaysSafe(code, fs, steps, |steps|);
  }

  /** The agent and the cell of a run of a reachable state. */
  lemma CellOf(code: Code, f: State, r: RunId) returns (a: Agent, c: Cell)
    requires Reachable(code, f) && r in f.db.runs
    ensures AllKnown(f) && Owned(f) && Lineage(f)
    ensures a == code(f.db.runs[r].agent) && c == View(f, r) && c.id == r && c.run == f.db.runs[r] && Inv(a, c)
  {
    hide Inv;
    ReachableIsSafe(code, f);
    a, c := code(f.db.runs[r].agent), View(f, r);
  }

  // ----- exactly once -----

  lemma {:induction false} JournalIncreases(journal: seq<Commit>, r: RunId, i: nat, j: nat)
    requires Increasing(CommitsOf(journal, r)) && i < j < |journal| && journal[i].run == journal[j].run == r
    ensures journal[i].slot < journal[j].slot
    decreases |journal|
  {
    var last := |journal| - 1;
    var rest := CommitsOf(journal[..last], r);
    if j < last {
      assert Increasing(rest) by {
        assert forall k :: 0 <= k < |rest| ==> CommitsOf(journal, r)[k] == rest[k];
      }
      JournalIncreases(journal[..last], r, i, j);
    } else {
      InCommits(journal[..last], r, i);
      var k :| 0 <= k < |rest| && rest[k] == journal[i];
      assert CommitsOf(journal, r)[k] == journal[i] && CommitsOf(journal, r)[|rest|] == journal[j];
    }
  }

  lemma {:induction false} InCommits(journal: seq<Commit>, r: RunId, i: nat)
    requires i < |journal| && journal[i].run == r
    ensures exists k :: 0 <= k < |CommitsOf(journal, r)| && CommitsOf(journal, r)[k] == journal[i]
  {
    var last := |journal| - 1;
    var rest := CommitsOf(journal[..last], r);
    if i < last {
      InCommits(journal[..last], r, i);
      var k :| 0 <= k < |rest| && rest[k] == journal[i];
      assert CommitsOf(journal, r)[k] == journal[i];
    } else {
      assert CommitsOf(journal, r)[|rest|] == journal[i];
    }
  }

  lemma {:induction false} FromJournal(journal: seq<Commit>, r: RunId, c: Commit)
    requires c in CommitsOf(journal, r)
    ensures c in journal && c.run == r
  {
    var last := |journal| - 1;
    if c in CommitsOf(journal[..last], r) {
      FromJournal(journal[..last], r, c);
    } else {
      assert c == journal[last];
    }
  }

  /** Exactly once: no effect, identified by the run that announced it and the seq of its
      TOOL_INTENT, has committed twice. */
  lemma NeverTwice(code: Code, f: State, i: nat, j: nat)
    requires Reachable(code, f) && i < j < |f.db.journal|
    ensures f.db.journal[i].run != f.db.journal[j].run || f.db.journal[i].slot != f.db.journal[j].slot
  {
    hide Replay;
    if f.db.journal[i].run == f.db.journal[j].run {
      var r := f.db.journal[i].run;
      ReachableIsSafe(code, f);
      var a, c := CellOf(code, f, r);
      PerformedSound(a, r, Events(c.diary), Start, Floor(c.run));
      JournalIncreases(f.db.journal, r, i, j);
    }
  }

  /** Run `r` announced an effect at `slot` itself, and its completion is recorded. */
  ghost predicate RecordedByRun(f: State, r: RunId, slot: nat)
    requires Known(f, r)
  {
    Floor(f.db.runs[r]) < slot && RecordsEffect(Events(View(f, r).diary), slot)
  }

  lemma CommitAt(a: Agent, c: Cell, slot: nat)
    requires Inv(a, c)
    ensures (exists k :: 0 <= k < |c.commits| && c.commits[k].slot == slot) <==>
              Floor(c.run) < slot && RecordsEffect(Events(c.diary), slot)
    ensures forall k :: 0 <= k < |c.commits| && c.commits[k].slot == slot ==>
              slot < |c.diary| && c.commits[k].run == c.id
              && Events(c.diary)[slot] == ToolCompleted(MakeKey(c.id, slot), c.commits[k].result)
  {
    hide Replay, Performed, Gated, Billed, Stamped, Leased;
    var h, floor := Events(c.diary), Floor(c.run);
    PerformedSound(a, c.id, h, Start, floor);
    assert forall k :: 0 <= k < |c.commits| ==> c.commits[k] in c.commits;
    if floor < slot && RecordsEffect(h, slot) {
      var k := PerformedComplete(a, c.id, h, Start, floor, slot);
      assert c.commits[k].slot == slot;
    }
  }

  /** An effect has committed exactly when its run's diary shows its completion. */
  lemma CommittedIffRecorded(code: Code, f: State, r: RunId, slot: nat)
    requires Reachable(code, f) && r in f.db.runs
    ensures Known(f, r)
    ensures (exists i :: 0 <= i < |f.db.journal| && f.db.journal[i].run == r && f.db.journal[i].slot == slot)
            <==> RecordedByRun(f, r, slot)
  {
    hide Inv, CommitsOf;
    var a, c := CellOf(code, f, r);
    CommitAt(a, c, slot);
    if i :| 0 <= i < |f.db.journal| && f.db.journal[i].run == r && f.db.journal[i].slot == slot {
      InCommits(f.db.journal, r, i);
    }
    if k :| 0 <= k < |c.commits| && c.commits[k].slot == slot {
      FromJournal(f.db.journal, r, c.commits[k]);
    }
  }

  /** completed_keys has the key of (r, slot) exactly when the diary of `r` has a TOOL_INTENT
      at `slot` that `r` wrote, completed at the next seq with that key and that result. */
  lemma KeyIffCompleted(code: Code, f: State, r: RunId, slot: nat)
    requires Reachable(code, f) && r in f.db.runs
    ensures Known(f, r)
    ensures MakeKey(r, slot) in f.db.keys <==> RecordedByRun(f, r, slot)
    ensures MakeKey(r, slot) in f.db.keys ==>
              Events(View(f, r).diary)[slot] == ToolCompleted(MakeKey(r, slot), f.db.keys[MakeKey(r, slot)])
  {
    hide Inv, CommitsOf, KeysOf;
    var a, c := CellOf(code, f, r);
    var key := MakeKey(r, slot);
    assert KeyOf(key, r);
    assert c.keys == KeysOf(c.commits) by { ExactKeys(a, c); }
    KeysOfDomain(c.commits, r, slot);
    CommitAt(a, c, slot);
    if key in f.db.keys {
      KeysOfValue(c.commits, r, slot);
    }
  }

  lemma ExactKeys(a: Agent, c: Cell)
    requires Inv(a, c)
    ensures c.keys == KeysOf(c.commits)
  {
  }

  lemma {:induction false} KeysOfValue(cs: seq<Commit>, run: RunId, slot: nat)
    requires MakeKey(run, slot) in KeysOf(cs)
    ensures exists i :: 0 <= i < |cs| && cs[i].run == run && cs[i].slot == slot
              && KeysOf(cs)[MakeKey(run, slot)] == cs[i].result
  {
    var last := |cs| - 1;
    if MakeKey(run, slot) == MakeKey(cs[last].run, cs[last].slot) {
      KeyInjective(run, slot, cs[last].run, cs[last].slot);
    } else {
      KeysOfValue(cs[..last], run, slot);
      var i :| 0 <= i < last && cs[..last][i].run == run && cs[..last][i].slot == slot
            && KeysOf(cs[..last])[MakeKey(run, slot)] == cs[..last][i].result;
      assert cs[..last][i] == cs[i];
    }
  }

  /** Every TOOL_COMPLETED of every diary, the copies in forks of forks included, carries the
      result that completed_keys stores under its key. */
  lemma {:induction false} CompletionsAreStored(code: Code, f: State, r: RunId, i: nat)
    requires Reachable(code, f) && r in f.db.runs
    requires Known(f, r) && i < |View(f, r).diary| && View(f, r).diary[i].event.ToolCompleted?
    ensures var e := View(f, r).diary[i].event; e.key in f.db.keys && f.db.keys[e.key] == e.result
    decreases f.db.runs[r].created
  {
    hide Inv, Replay, KeysFor, CommitsOf, Dense, Reachable, Owned;
    var a, c := CellOf(code, f, r);
    if i < Floor(c.run) {
      assert Copies(f, r);
      var Origin(parent, at) := f.db.runs[r].parent.value;
      assert Events(c.diary)[..at] == Events(View(f, parent).diary)[..at];
      assert i != at;
      assert c.diary[i].event == Events(c.diary)[..at][i] == View(f, parent).diary[i].event;
      CompletionsAreStored(code, f, parent, i);
    } else {
      OwnCompletion(a, c, i);
      KeyIffCompleted(code, f, r, i);
      assert RecordedByRun(f, r, i);
    }
  }

  lemma OwnCompletion(a: Agent, c: Cell, i: nat)
    requires Inv(a, c) && Floor(c.run) <= i < |c.diary| && c.diary[i].event.ToolCompleted?
    ensures Floor(c.run) < i && RecordsEffect(Events(c.diary), i) && c.diary[i].event.key == MakeKey(c.id, i)
  {
    hide Replay, Performed, Stamped, Leased, Gated, Billed;
    var h := Events(c.diary);
    TraceParses(a, h);
    CompletionFollowsIntent(h, 0, i);
  }

  /** A completed run's diary is the agent's whole trace, up to patches it ended before;
      its commits are precisely the effects of that trace which were not inherited. */
  lemma CompletedIsWhole(code: Code, f: State, r: RunId)
    requires Reachable(code, f) && r in f.db.runs && f.db.runs[r].status == Completed
    ensures Known(f, r)
    ensures var a, h := code(f.db.runs[r].agent), Events(View(f, r).diary);
      && Replay(a, h, Start).need.Finish?
      && AllPatches(h, Replay(a, h, Start).at.cursor)
      && CommitsOf(f.db.journal, r) == Performed(a, r, h, Start, Floor(f.db.runs[r]))
  {
    hide Replay, Performed, Stamped, Leased, Billed;
    var a, c := CellOf(code, f, r);
  }

  /** _perform_once never gets to commit a stored result again: when the key is there,
      the completion is there too, so the insert fails. */
  lemma ReuseNeverCommits(code: Code, f: State, r: RunId, l: nat, outcome: Attempted)
    requires Reachable(code, f) && LiveIn(f, r, l) && f.lives[l].run == r
    requires LifeNeed(code(f.db.runs[r].agent), f.lives[l].it).Perform?
    requires MakeKey(r, |f.lives[l].it.phase.seen|) in f.db.keys
    ensures var life := f.lives[l].it;
      PerformOnce(f.db, r, |life.phase.seen|, |life.phase.seen| + 1,
                  LifeNeed(code(f.db.runs[r].agent), life).fn, outcome, Some(life.token)).Err?
  {
    hide Inv, Replay, KeysFor, CommitsOf, ReadEvents, Events, Dense, RecordedByRun, PerformOnce;
    var a, c := CellOf(code, f, r);
    var life := f.lives[l].it;
    var slot := |life.phase.seen|;
    KeyIffCompleted(code, f, r, slot);
    assert slot < |c.diary| by { EffectInside(f, r, slot); }
    RowThere(f, r, slot);
    TakenSlotFails(f.db, r, slot, LifeNeed(a, life).fn, outcome, Some(life.token));
  }

  lemma TakenSlotFails(db: Db, r: RunId, slot: nat, fn: string, outcome: Attempted, lease: Option<nat>)
    requires slot + 1 in Rows(db, r)
    ensures PerformOnce(db, r, slot, slot + 1, fn, outcome, lease).Err?
  {
  }

  lemma EffectInside(f: State, r: RunId, slot: nat)
    requires Known(f, r) && RecordedByRun(f, r, slot)
    ensures slot < |View(f, r).diary|
  {
  }

  lemma RowThere(f: State, r: RunId, slot: nat)
    requires Known(f, r) && slot < |View(f, r).diary|
    ensures slot + 1 in Rows(f.db, r)
  {
  }

  // ----- fencing -----

  /** A worker that is about to append and whose token is current has seen the whole
      diary, so its insert finds the next seq free; with a stale token the transaction is
      refused and no table changes. */
  lemma WriterIsCaughtUpOrFenced(code: Code, f: State, r: RunId, l: nat)
    requires Reachable(code, f) && Enables(code, f, Local(r, Write(l)))
    ensures var life, g := f.lives[l].it, Next(code, f, Local(r, Write(l)));
      if life.token == f.db.runs[r].token then
        && life.phase.seen == Events(View(f, r).diary)
        && AppendEvent(f.db, r, |life.phase.seen| + 1,
                       WrittenEvent(r, life.phase.seen, LifeNeed(code(f.db.runs[r].agent), life), life.phase.hand),
                       Some(life.token)) == Ok(g.db)
      else
        && (forall slot, e :: AppendEvent(f.db, r, slot, e, Some(life.token)) == Err(StaleFence))
        && g.db == f.db && l !in g.lives
  {
    hide Inv, Replay, KeysFor, CommitsOf, WriteIt, Dense;
    var a, c := CellOf(code, f, r);
    assert f.lives[l].it == c.lives[l];
    if f.lives[l].it.token == f.db.runs[r].token {
      Safety.WriterCaughtUp(a, c, l);
      NextIsFree(f, r);
      WriteLands(a, f, r, l);
    } else {
      WriteFenced(a, f, r, l);
    }
  }

  lemma WriteLands(a: Agent, f: State, r: RunId, l: nat)
    requires LiveIn(f, r, l) && WritesAlone(LifeNeed(a, f.lives[l].it), f.lives[l].it.phase.hand)
    requires f.lives[l].it.token == f.db.runs[r].token && |f.lives[l].it.phase.seen| + 1 !in Rows(f.db, r)
    ensures var life := f.lives[l].it;
      AppendEvent(f.db, r, |life.phase.seen| + 1,
                  WrittenEvent(r, life.phase.seen, LifeNeed(a, life), life.phase.hand), Some(life.token))
        == Ok(WriteIt(a, f, r, l).db)
  {
    hide Replay;
  }

  lemma WriteFenced(a: Agent, f: State, r: RunId, l: nat)
    requires LiveIn(f, r, l) && WritesAlone(LifeNeed(a, f.lives[l].it), f.lives[l].it.phase.hand)
    requires f.lives[l].it.token != f.db.runs[r].token
    ensures WriteIt(a, f, r, l).db == f.db && l !in WriteIt(a, f, r, l).lives
    ensures forall slot, e :: AppendEvent(f.db, r, slot, e, Some(f.lives[l].it.token)) == Err(StaleFence)
  {
    hide Replay;
  }

  lemma NextIsFree(f: State, r: RunId)
    requires Known(f, r)
    ensures |Events(View(f, r).diary)| + 1 !in Rows(f.db, r)
  {
  }

  /** Likewise for an effect. With the current token it commits together with its completion,
      at the next free seq, or what it raised rolls everything back. */
  lemma EffectIsCaughtUpOrFenced(code: Code, f: State, r: RunId, l: nat, outcome: Attempted)
    requires Reachable(code, f) && LiveIn(f, r, l) && f.lives[l].run == r
    requires LifeNeed(code(f.db.runs[r].agent), f.lives[l].it).Perform?
    ensures Known(f, r)
    ensures var life, fn := f.lives[l].it, LifeNeed(code(f.db.runs[r].agent), f.lives[l].it).fn;
      var intent := |life.phase.seen|;
      var done := PerformOnce(f.db, r, intent, intent + 1, fn, outcome, Some(life.token));
      && (outcome.Yields? ==> ActIt(code(f.db.runs[r].agent), f, r, l, outcome.result).db
                              == if done.Ok? then done.value.0 else f.db)
      && if life.token != f.db.runs[r].token then done == Err(StaleFence)
      else
        && life.phase.seen == Events(View(f, r).diary)
        && (outcome.Yields? ==>
              done == Ok((WithEffect(f.db, r, intent, fn, outcome.result, life.token), outcome.result)))
        && (outcome.Violates? ==> done == Err(Duplicate))
        && (outcome.Throws? ==> done == Err(EffectRaised))
  {
    hide Reachable, NeedOf, View, Dense, MakeKey, PerformOnce, WithEffect;
    var a := code(f.db.runs[r].agent);
    var intent, fn, token := |f.lives[l].it.phase.seen|, LifeNeed(a, f.lives[l].it).fn, f.lives[l].it.token;
    RunIsKnown(code, f, r);
    if token == f.db.runs[r].token {
      CurrentWriter(code, f, r, l);
      PerformLands(f.db, r, intent, fn, outcome, token);
    } else {
      PerformIsFenced(f.db, r, intent, intent + 1, fn, outcome, token);
    }
    if outcome.Yields? {
      ActFollows(a, f, r, l, outcome.result);
    }
  }

  /** The step of the fleet takes over what the transaction made of the tables. */
  lemma ActFollows(a: Agent, f: State, r: RunId, l: nat, v: Value)
    requires LiveIn(f, r, l) && LifeNeed(a, f.lives[l].it).Perform?
    ensures var life := f.lives[l].it;
      var intent := |life.phase.seen|;
      var done := PerformOnce(f.db, r, intent, intent + 1, LifeNeed(a, life).fn, Yields(v), Some(life.token));
      && (done.Ok? ==> ActIt(a, f, r, l, v).db == done.value.0)
      && (done == Err(StaleFence) ==> ActIt(a, f, r, l, v).db == f.db)
  {
    hide NeedOf, MakeKey, PerformOnce;
  }

  lemma RunIsKnown(code: Code, f: State, r: RunId)
    requires Reachable(code, f) && r in f.db.runs
    ensures Known(f, r)
  {
    hide Inv;
    ReachableIsSafe(code, f);
  }

  /** A life that must write and holds the current token has seen all, and finds its seq and
      its key free. */
  lemma CurrentWriter(code: Code, f: State, r: RunId, l: nat)
    requires Reachable(code, f) && LiveIn(f, r, l) && f.lives[l].run == r
    requires Writes(LifeNeed(code(f.db.runs[r].agent), f.lives[l].it)) && f.lives[l].it.token == f.db.runs[r].token
    ensures Known(f, r) && f.lives[l].it.phase.seen == Events(View(f, r).diary)
    ensures |f.lives[l].it.phase.seen| + 1 !in Rows(f.db, r) && MakeKey(r, |f.lives[l].it.phase.seen|) !in f.db.keys
  {
    hide Inv, NeedOf, View, Dense, Rows, MakeKey, Reachable;
    var a, c := CellOfLife(code, f, l);
    SameRow(f, r);
    WriterFacts(a, c, l);
    Safety.WriterCaughtUp(a, c, l);
    NextIsFree(f, r);
    KeyIsFree(f, r, |c.diary|);
  }

  /** The tables after an effect, its key and its completion committed. */
  function WithEffect(db: Db, r: RunId, intent: nat, fn: string, v: Value, token: nat): Db {
    var key := MakeKey(r, intent);
    db.(keys := db.keys[key := v], journal := db.journal + [Commit(r, intent, fn, v)],
        events := db.events[r := Rows(db, r)[intent + 1 := Entry(ToolCompleted(key, v), token)]])
  }

  lemma PerformLands(db: Db, r: RunId, intent: nat, fn: string, outcome: Attempted, token: nat)
    requires r in db.runs && db.runs[r].token == token
    requires intent + 1 !in Rows(db, r) && MakeKey(r, intent) !in db.keys
    ensures var done := PerformOnce(db, r, intent, intent + 1, fn, outcome, Some(token));
      && (outcome.Yields? ==> done == Ok((WithEffect(db, r, intent, fn, outcome.result, token), outcome.result)))
      && (outcome.Violates? ==> done == Err(Duplicate))
      && (outcome.Throws? ==> done == Err(EffectRaised))
  {
    hide MakeKey;
  }

  /** A life in which the model or an effect raises changes one thing: its run is parked as
      failed, if it still holds the lease. */
  lemma RaisingParksOnly(code: Code, f: State, r: RunId, l: nat)
    requires Reachable(code, f) && Enables(code, f, Local(r, Throw(l)))
    ensures var run, g := f.db.runs[r], Next(code, f, Local(r, Throw(l)));
      && g.db == f.db.(runs := f.db.runs[r := g.db.runs[r]]) && l !in g.lives
      && g.db.runs[r] ==
           if Held(run, f.lives[l].it.token) then run.(status := Failed, owner := None, expiry := None) else run
  {
    hide Replay, KeysFor, CommitsOf, Dense, Reachable;
  }

  /** No two lives of a run hold the same token, so one at most can write. */
  lemma OneWriter(code: Code, f: State, l: nat, m: nat)
    requires Reachable(code, f) && l in f.lives && m in f.lives && l != m && f.lives[l].run == f.lives[m].run
    ensures f.lives[l].it.token != f.lives[m].it.token
  {
    hide NeedOf, Gated, Billed, Exact, Stamped, Diarized, LifeOk, FleetInv, Lineage, Reachable;
    var r := f.lives[l].run;
    var a, c := CellOfLife(code, f, l);
    ViewLife(f, r, m);
  }

  lemma CellOfLife(code: Code, f: State, l: nat) returns (a: Agent, c: Cell)
    requires Reachable(code, f) && l in f.lives
    ensures var r := f.lives[l].run;
      r in f.db.runs && Known(f, r) && c == View(f, r) && a == code(f.db.runs[r].agent) && Inv(a, c)
      && c.run == f.db.runs[r] && l in c.lives && c.lives[l] == f.lives[l].it
  {
    hide Inv;
    ReachableIsSafe(code, f);
    var r := f.lives[l].run;
    a, c := CellOf(code, f, r);
    ViewLife(f, r, l);
  }

  /** No life holds a token from the future, and none can write to a run that is paused,
      completed or failed. */
  lemma NoWriterAtRest(code: Code, f: State, l: nat)
    requires Reachable(code, f) && l in f.lives
    ensures f.lives[l].run in f.db.runs
    ensures var run := f.db.runs[f.lives[l].run];
      && f.lives[l].it.token <= run.token
      && (Safety.IsFinal(run.status) ==> f.lives[l].it.token < run.token)
  {
    hide NeedOf, Gated, Billed, Exact, Stamped, Diarized, Reachable;
    var a, c := CellOfLife(code, f, l);
    assert LifeOk(a, c.run, Events(c.diary), c.lives[l]);
  }

  /** Along the diary the non-zero lease tokens never decrease, and none is from the future. */
  lemma TokensInOrder(code: Code, f: State, r: RunId, i: nat, j: nat)
    requires Reachable(code, f) && r in f.db.runs && i <= j < |Rows(f.db, r)|
    ensures Known(f, r)
    ensures var d := View(f, r).diary;
      && d[j].token <= f.db.runs[r].token
      && (d[j].token != 0 ==> d[i].token <= d[j].token)
      && (j < Floor(f.db.runs[r]) ==> d[j].token == 0)
  {
    hide Replay, Performed, Gated, Billed, Leased, Exact, Diarized;
    var a, c := CellOf(code, f, r);
  }

  // ----- diaries -----

  /** Every diary is numbered densely, parses as complete operations with at most one
      half-open one at its tail, and the unchanged agent never diverges on it, nor on
      what any life, however stale, has seen of it. */
  lemma DiariesReplay(code: Code, f: State, r: RunId)
    requires Reachable(code, f) && r in f.db.runs
    ensures Known(f, r)
    ensures var a, h := code(f.db.runs[r].agent), Events(View(f, r).diary);
      && WellFormed(h, 0)
      && !NeedOf(a, h).Diverge?
      && forall l :: l in f.lives && f.lives[l].run == r && f.lives[l].it.phase.Live? ==>
           !LifeNeed(a, f.lives[l].it).Diverge? && f.lives[l].it.phase.seen <= h
  {
    hide Replay, Performed, Gated, Billed, Stamped, Exact;
    var a, c := CellOf(code, f, r);
    TraceParses(a, Events(c.diary));
    forall l | l in f.lives && f.lives[l].run == r && f.lives[l].it.phase.Live?
      ensures !LifeNeed(a, f.lives[l].it).Diverge? && f.lives[l].it.phase.seen <= Events(c.diary)
    {
      assert LifeOk(a, c.run, Events(c.diary), c.lives[l]);
    }
  }

  // ----- approvals and liveness of the queue -----

  /** No lost approval: a paused run waits for an answer, unless a grant that has already
      recorded it is about to requeue the run. */
  lemma NoLostApproval(code: Code, f: State, r: RunId)
    requires Reachable(code, f) && r in f.db.runs && f.db.runs[r].status == Paused
    ensures Known(f, r)
    ensures var h := Events(View(f, r).diary);
      || (|h| > 0 && h[|h| - 1].ApprovalRequested?)
      || exists g :: g in f.grants && f.grants[g].run == r && f.grants[g].it.Recorded?
  {
    hide Inv, Replay, KeysFor, CommitsOf, Dense, Events, Owned, Lineage, Reachable;
    var a, c := CellOf(code, f, r);
    PausedFor(a, c);
    if InFlight(c) {
      var g :| g in c.grants && c.grants[g].Recorded?;
      assert f.grants[g].it == c.grants[g];
    }
  }

  lemma PausedFor(a: Agent, c: Cell)
    requires Inv(a, c) && c.run.status == Paused
    ensures AwaitsDecision(Events(c.diary)) || InFlight(c)
  {
    hide Replay, Performed, Exact, Stamped, Leased, Billed;
    NeedsAtTheEnd(a, Events(c.diary), Start);
  }

  /** The step takes an unfinished run out of the state it is in, or is about to. */
  ghost predicate Unblocks(f: State, r: RunId, step: Step)
    requires r in f.db.runs
  {
    var run := f.db.runs[r];
    && (run.status == Queued ==> step.Local? && step.run == r && step.act.Claim?)
    && (run.status == Running ==> step.Sweeping? && run.owner.Some? && Lapsed(run, step.now))
    && (run.status == Paused ==> step.Local? && step.run == r && (step.act.Decide? || step.act.Requeue?))
  }

  /** No orphaned run: a run that is not completed or failed is queued and can be claimed, or
      runs under a lease that a sweep can take away, or is paused where a human can decide or
      a grant is about to requeue it. */
  lemma NoOrphan(code: Code, f: State, r: RunId) returns (step: Step)
    requires Reachable(code, f) && r in f.db.runs
    requires f.db.runs[r].status != Completed && f.db.runs[r].status != Failed
    ensures Enables(code, f, step) && Unblocks(f, r, step)
  {
    hide Inv, Enables, View, Known, Reachable;
    var a, c := CellOf(code, f, r);
    assert Known(f, r);
    Progress.NotOrphaned(a, c);
    if f.db.runs[r].status == Queued {
      var l := Progress.FreshId(f.lives.Keys);
      step := Local(r, Claim(l, "w", 0));
      ClaimReady(code, f, r, l);
    } else if f.db.runs[r].status == Running {
      step := Sweeping(c.run.expiry.value + 1);
      SweepReady(code, f, step.now);
    } else if InFlight(c) {
      step := RequeueReady(code, f, r);
    } else {
      var g := Progress.FreshId(f.grants.Keys);
      step := Local(r, Decide(g, true));
      DecideReady(code, f, r, g);
    }
  }

  lemma ClaimReady(code: Code, f: State, r: RunId, l: nat)
    requires Known(f, r) && f.db.runs[r].status == Queued && l !in f.lives
    ensures Enables(code, f, Local(r, Claim(l, "w", 0)))
  {
    hide Dense;
  }

  lemma SweepReady(code: Code, f: State, now: int)
    ensures Enables(code, f, Sweeping(now))
  {
  }

  lemma RequeueReady(code: Code, f: State, r: RunId) returns (step: Step)
    requires Known(f, r) && InFlight(View(f, r))
    ensures Enables(code, f, step) && step.Local? && step.run == r && step.act.Requeue?
  {
    hide Dense;
    var g :| g in View(f, r).grants && View(f, r).grants[g].Recorded?;
    step := Local(r, Requeue(g));
  }

  lemma DecideReady(code: Code, f: State, r: RunId, g: nat)
    requires Known(f, r) && AwaitsDecision(Events(View(f, r).diary)) && g !in f.grants
    ensures Enables(code, f, Local(r, Decide(g, true)))
  {
    hide Dense, Events;
  }

  // ----- forks -----

  /** fork_run accepts a cut exactly when the child would replay through the patch. */
  lemma ForkAcceptsExactly(code: Code, f: State, parent: RunId, at: nat, patch: Config, child: RunId)
    requires Reachable(code, f) && parent in f.db.runs
    ensures Known(f, parent)
    ensures var a, h := code(f.db.runs[parent].agent), Events(View(f, parent).diary);
      && (Fork(f.db, parent, at, patch, child).Ok? <==> 1 <= at <= |h| && Trace(a, Cut(h, at, patch)))
      && (1 <= at <= |h| && Fork(f.db, parent, at, patch, child).Err? ==>
            NeedOf(a, Cut(h, at, patch)) == Diverge(at + 1))
  {
    hide Trace, Replay, Inv, Fork;
    var a, c := CellOf(code, f, parent);
    ForkOkIff(f, parent, at, patch, child);
    if 1 <= at <= |c.diary| {
      assert Trace(a, Events(c.diary)) by { CellTraces(a, c); }
      ForkGuardExact(a, Events(c.diary), at, patch);
    }
  }

  lemma CellTraces(a: Agent, c: Cell)
    requires Inv(a, c)
    ensures Trace(a, Events(c.diary))
  {
    hide Replay, Performed;
  }

  lemma ForkOkIff(f: State, parent: RunId, at: nat, patch: Config, child: RunId)
    requires Known(f, parent)
    ensures var h := Events(View(f, parent).diary);
      Fork(f.db, parent, at, patch, child).Ok? <==> 1 <= at <= |h| && !HalfOpen(h[at - 1])
  {
  }

  /** Free prefix: a life of a fork taken at k, of a fork of a fork likewise, calls the model,
      runs effects and appends only beyond its first k + 1 events. */
  lemma PrefixIsFree(code: Code, f: State, r: RunId, act: Action)
    requires Reachable(code, f) && Enables(code, f, Local(r, act)) && f.db.runs[r].parent.Some?
    requires act.Consult? || act.Write? || act.Act?
    ensures |f.lives[act.life].it.phase.seen| + 1 >= f.db.runs[r].parent.value.at + 2
    ensures act.Act? ==> |f.lives[act.life].it.phase.seen| >= f.db.runs[r].parent.value.at + 2
  {
    hide Inv, Replay;
    var a, c := CellOf(code, f, r);
    assert f.lives[act.life].it == c.lives[act.life];
    BeyondFloor(a, c, act.life);
  }

  lemma BeyondFloor(a: Agent, c: Cell, l: nat)
    requires Inv(a, c) && IsLive(c, l)
    ensures |c.lives[l].phase.seen| >= Floor(c.run)
    ensures LifeNeed(a, c.lives[l]).Perform? ==> |c.lives[l].phase.seen| > Floor(c.run)
  {
    hide Replay, Performed, Billed, Stamped, Exact, Gated;
    var h, seen := Events(c.diary), c.lives[l].phase.seen;
    assert LifeOk(a, c.run, h, c.lives[l]);
    NeedsAtTheEnd(a, seen, Start);
    if Floor(c.run) > 0 && |seen| == Floor(c.run) {
      assert seen[|seen| - 1] == h[|seen| - 1];
    }
  }

  /** No effect of the inherited prefix is ever executed for the fork. */
  lemma InheritedNeverRuns(code: Code, f: State, i: nat)
    requires Reachable(code, f) && i < |f.db.journal|
    ensures var c := f.db.journal[i];
      c.run in f.db.runs && (f.db.runs[c.run].parent.Some? ==> c.slot > f.db.runs[c.run].parent.value.at + 1)
  {
    hide Inv;
    ReachableIsSafe(code, f);
    var r := f.db.journal[i].run;
    assert r in f.db.runs;
    var a, c := CellOf(code, f, r);
    CommittedIffRecorded(code, f, r, f.db.journal[i].slot);
  }

  // ----- the bill -----

  /** The model bill of a run, exactly: one call for each LLM_CALLED that the run recorded
      itself, one for each life that holds an answer now, and one for each that was lost with
      an answer in its hand. So the calls are at least the recorded ones and at most that and
      the lost lives; and when no life is under way no prompt was ever paid for twice exactly
      when no life ended between the model's answer and its record. */
  lemma BillIsExact(code: Code, f: State, r: RunId)
    requires Reachable(code, f) && r in f.db.runs
    ensures Known(f, r)
    ensures var own, bill := OwnCalls(Events(View(f, r).diary), Floor(f.db.runs[r])), BillOf(f.bills, r);
      && bill.calls == own + |InHand(Its(f.lives, r))| + bill.spilled && bill.spilled <= bill.lost
      && own <= bill.calls <= own + bill.lost + |Its(f.lives, r)|
      && (Its(f.lives, r) == map[] ==> bill.calls <= own + bill.lost && (bill.calls == own <==> bill.spilled == 0))
  {
    hide Replay, Performed, Stamped, Exact, Gated, Leased, OwnCalls;
    var a, c := CellOf(code, f, r);
    InHandFew(c.lives);
  }

  lemma InHandFew(lives: map<nat, Life>)
    ensures |InHand(lives)| <= |lives|
  {
    SubsetFew(InHand(lives), lives.Keys);
  }

  lemma {:induction false} SubsetFew(s: set<nat>, t: set<nat>)
    requires s <= t
    ensures |s| <= |t|
  {
    assert t == s + (t - s);
  }
}
