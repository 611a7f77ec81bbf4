/** No run is ever orphaned: from every reachable state of a run there are enabled actions
    of a sweeper, one fresh worker and a human that bring it to its end. */
module Progress {
  import opened Diary
  import opened Engine
  import opened Traces
  import opened Timelines
  import opened Tables
  import opened Protocol
  import Safety

  /** `acts` can be taken one after another from `c`. */
  predicate Can(a: Agent, c: Cell, acts: seq<Action>)
    decreases |acts|
  {
    acts == [] || (Enabled(a, c, acts[0]) && Can(a, Do(a, c, acts[0]), acts[1..]))
  }

  function After(a: Agent, c: Cell, acts: seq<Action>): Cell
    requires Can(a, c, acts)
    decreases |acts|
  {
    if acts == [] then c else After(a, Do(a, c, acts[0]), acts[1..])
  }

  lemma First(a: Agent, c: Cell, act: Action, rest: seq<Action>)
    requires Enabled(a, c, act) && Can(a, Do(a, c, act), rest)
    ensures Can(a, c, [act] + rest) && After(a, c, [act] + rest) == After(a, Do(a, c, act), rest)
  {
    hide Do, Enabled;
    assert ([act] + rest)[1..] == rest;
  }

  predicate Over(c: Cell) {
    c.run.status == Completed || c.run.status == Failed
  }

  /** A run that is over stays as it is, unless a grant that was late requeues it. */
  lemma OverUnlessRequeued(a: Agent, c: Cell, act: Action)
    requires Inv(a, c) && Over(c) && Enabled(a, c, act)
    ensures var d := Do(a, c, act);
      && d.run.status == (if act.Requeue? then Queued else c.run.status)
      && d.diary == c.diary && d.commits == c.commits
  {
    hide Inv, NeedOf, MakeKey, WrittenEvent;
    OverFacts(a, c);
    if act.Record? && c.grants[act.grant].slot > |c.diary| {
      DecidedLast(a, c, act.grant);
    }
  }

  /** No life holds the token of a run that is over, and its diary asks no one for anything. */
  lemma OverFacts(a: Agent, c: Cell)
    requires Inv(a, c) && Over(c)
    ensures forall l :: l in c.lives ==> c.lives[l].token != c.run.token
    ensures !NeedOf(a, Events(c.diary)).Await?
  {
    hide NeedOf, Performed, Exact, Stamped, Billed, Diarized, LifeOk;
  }

  /** A decision to be inserted at the end of the diary answers the question there. */
  lemma DecidedLast(a: Agent, c: Cell, g: nat)
    requires Inv(a, c) && g in c.grants && c.grants[g].Decided? && c.grants[g].slot > |c.diary|
    ensures NeedOf(a, Events(c.diary)).Await?
  {
    hide NeedOf, Performed, Exact, Stamped, Billed, Leased;
    AwaitsItsQuestion(a, c);
  }

  /** A run that has not ended is in a state that some process of the fleet acts on: it is
      queued, running under a lease that can lapse, paused on a question a human can answer,
      or about to be requeued by a grant. */
  lemma NotOrphaned(a: Agent, c: Cell)
    requires Inv(a, c) && !Over(c)
    ensures
      || c.run.status == Queued
      || (c.run.status == Running && c.run.owner.Some? && c.run.expiry.Some?)
      || (c.run.status == Paused && AwaitsDecision(Events(c.diary)))
      || (c.run.status == Paused && InFlight(c))
  {
    hide Replay, Performed, Stamped, Leased, Exact, Billed;
    NeedsAtTheEnd(a, Events(c.diary), Start);
  }

  lemma FreshId(ids: set<nat>) returns (n: nat)
    ensures n !in ids
  {
    n := 0;
    var rest := ids;
    while rest != {}
      invariant rest <= ids
      invariant forall i :: i in ids && i !in rest ==> i < n
      decreases rest
    {
      var x :| x in rest;
      n := if n <= x then x + 1 else n;
      rest := rest - {x};
    }
  }

  // ----- a worker that holds the current lease, alone -----

  /** The life `l` holds the lease, has seen everything and has nothing in hand. */
  ghost predicate Drives(a: Agent, c: Cell, l: nat) {
    && Inv(a, c) && c.run.status == Running
    && l in c.lives && c.lives[l].token == c.run.token
    && c.lives[l].phase == Live(Events(c.diary), None)
  }

  ghost function RankOf(a: Agent, c: Cell): int {
    Rank(a, Replay(a, Events(c.diary), Start))
  }

  lemma RankFalls(a: Agent, h: seq<Event>, e: Event)
    requires Answers(NeedOf(a, h), e)
    ensures 0 < Rank(a, Replay(a, h, Start))
    ensures Rank(a, Replay(a, h + [e], Start)) < Rank(a, Replay(a, h, Start))
  {
    HaltsWithinBound(a, h, Start);
    Resume(a, h, Start, e);
    var u := Answered(Replay(a, h, Start), e);
    if u.Go? {
      HaltsWithinBound(a, h + [e], u.next);
    }
  }

  /** What one more write of the driving life leads to. */
  lemma WriteDrives(a: Agent, c: Cell, l: nat, act: Action, e: Event)
    requires Inv(a, c) && c.run.status == Running && IsLive(c, l) && c.lives[l].token == c.run.token
    requires c.lives[l].phase.seen == Events(c.diary)
    requires Enabled(a, c, act) && Answers(NeedOf(a, Events(c.diary)), e)
    requires Do(a, c, act) == Appended(c, l, e).(keys := Do(a, c, act).keys, commits := Do(a, c, act).commits)
    ensures Drives(a, Do(a, c, act), l) && RankOf(a, Do(a, c, act)) < RankOf(a, c) && 0 < RankOf(a, c)
  {
    hide Inv, Do, Enabled, Replay, Rank, Answers;
    Safety.Keeps(a, c, act);
    EventsAppend(c.diary, Entry(e, c.lives[l].token));
    RankFalls(a, Events(c.diary), e);
  }

  /** A driving life that is due to write does so, after consulting the model if need be. */
  lemma OneWrite(a: Agent, c: Cell, l: nat) returns (acts: seq<Action>)
    requires Drives(a, c, l) && Writes(NeedOf(a, Events(c.diary)))
    ensures Can(a, c, acts) && Drives(a, After(a, c, acts), l)
    ensures RankOf(a, After(a, c, acts)) < RankOf(a, c) && 0 < RankOf(a, c)
  {
    hide Inv, Replay, Drives;
    var need, seen := NeedOf(a, Events(c.diary)), Events(c.diary);
    assert IsLive(c, l) && c.lives[l].phase == Live(seen, None) && Inv(a, c) && c.run.status == Running
        && c.lives[l].token == c.run.token by { DrivesFacts(a, c, l); }
    if need.Call? {
      acts := CallWrites(a, c, l);
    } else if need.Perform? {
      assert MakeKey(c.id, |c.diary|) !in c.keys by { FreshKey(a, c); }
      var act := Act(l, "");
      WriteDrives(a, c, l, act, ToolCompleted(MakeKey(c.id, |c.diary|), ""));
      First(a, c, act, []);
      acts := [act] + [];
    } else {
      var act := Write(l);
      WriteDrives(a, c, l, act, WrittenEvent(c.id, seen, need, None));
      First(a, c, act, []);
      acts := [act] + [];
    }
  }

  lemma DrivesFacts(a: Agent, c: Cell, l: nat)
    requires Drives(a, c, l)
    ensures IsLive(c, l) && c.lives[l].phase == Live(Events(c.diary), None) && Inv(a, c) && c.run.status == Running
    ensures c.lives[l].token == c.run.token
  {
    hide Inv;
  }

  lemma FreshKey(a: Agent, c: Cell)
    requires Inv(a, c)
    ensures MakeKey(c.id, |c.diary|) !in c.keys
  {
    hide Replay, Performed, Gated, Billed, Stamped, Leased;
    Safety.KeyIsFresh(a, c);
  }

  lemma CallWrites(a: Agent, c: Cell, l: nat) returns (acts: seq<Action>)
    requires Drives(a, c, l) && NeedOf(a, Events(c.diary)).Call?
    ensures Can(a, c, acts) && Drives(a, After(a, c, acts), l)
    ensures RankOf(a, After(a, c, acts)) < RankOf(a, c) && 0 < RankOf(a, c)
  {
    hide Inv, Replay, Drives;
    DrivesFacts(a, c, l);
    var seen := Events(c.diary);
    var consult := Consult(l, "");
    var d := Do(a, c, consult);
    Safety.Keeps(a, c, consult);
    assert d.lives[l].phase == Live(seen, Some(""));
    WriteDrives(a, d, l, Write(l), WrittenEvent(d.id, seen, NeedOf(a, seen), Some("")));
    First(a, d, Write(l), []);
    First(a, c, consult, [Write(l)] + []);
    acts := [consult] + ([Write(l)] + []);
  }

  // ----- the whole way -----

  /** The driving life ends: the run is over, or paused with the human's answer missing. */
  lemma Settles(a: Agent, c: Cell, l: nat)
    requires Drives(a, c, l) && !Writes(NeedOf(a, Events(c.diary)))
    ensures Enabled(a, c, End(l))
    ensures var d := Do(a, c, End(l));
      Inv(a, d) && d.diary == c.diary && (Over(d) || (d.run.status == Paused && NeedOf(a, Events(c.diary)).Await?))
  {
    hide Inv, NeedOf, Drives;
    DrivesFacts(a, c, l);
    Safety.Keeps(a, c, End(l));
    assert !NeedOf(a, Events(c.diary)).Diverge? by { CellReplays(a, c); }
  }

  lemma CellReplays(a: Agent, c: Cell)
    requires Inv(a, c)
    ensures !NeedOf(a, Events(c.diary)).Diverge?
  {
    hide Replay, Performed;
  }

  /** From every state of a run its end can be reached. */
  lemma CanFinish(a: Agent, c: Cell) returns (acts: seq<Action>)
    requires Inv(a, c)
    ensures Can(a, c, acts) && Over(After(a, c, acts))
  {
    hide Inv;
    var rank := RankOf(a, c);
    acts := FinishFrom(a, c, if rank < 0 then 0 else rank);
  }

  /** Measured by the events still to come, and by how far the run is from being claimed. */
  lemma {:induction false} FinishFrom(a: Agent, c: Cell, rank: nat) returns (acts: seq<Action>)
    requires Inv(a, c) && RankOf(a, c) <= rank
    ensures Can(a, c, acts) && Over(After(a, c, acts))
    decreases rank, 3
  {
    hide Inv, Replay, Do, Enabled, Rank;
    if Over(c) {
      acts := [];
    } else if c.run.status == Queued {
      acts := FinishQueued(a, c, rank);
    } else {
      NotOrphaned(a, c);
      if c.run.status == Running {
        var act := Sweep(c.run.expiry.value + 1);
        SweepQueues(a, c);
        var rest := FinishQueued(a, Do(a, c, act), rank);
        First(a, c, act, rest);
        acts := [act] + rest;
      } else if AwaitsDecision(Events(c.diary)) {
        acts := FinishPaused(a, c, rank);
      } else {
        var g :| g in c.grants && c.grants[g].Recorded?;
        RequeueQueues(a, c, g);
        var rest := FinishQueued(a, Do(a, c, Requeue(g)), rank);
        First(a, c, Requeue(g), rest);
        acts := [Requeue(g)] + rest;
      }
    }
  }

  lemma SweepQueues(a: Agent, c: Cell)
    requires Inv(a, c) && c.run.status == Running && c.run.expiry.Some?
    ensures var act := Sweep(c.run.expiry.value + 1);
      && Enabled(a, c, act) && Inv(a, Do(a, c, act))
      && Do(a, c, act).run.status == Queued && Do(a, c, act).diary == c.diary
  {
    hide Inv, DoWrite, DoAct, DoEnd, DoRecord, NeedOf;
    Safety.Keeps(a, c, Sweep(c.run.expiry.value + 1));
  }

  lemma RequeueQueues(a: Agent, c: Cell, g: nat)
    requires Inv(a, c) && g in c.grants && c.grants[g].Recorded?
    ensures Enabled(a, c, Requeue(g))
    ensures var d := Do(a, c, Requeue(g)); Inv(a, d) && d.run.status == Queued && d.diary == c.diary
  {
    hide Inv, DoWrite, DoAct, DoEnd, DoRecord, NeedOf;
    Safety.Keeps(a, c, Requeue(g));
  }

  lemma DecideReady(a: Agent, c: Cell, g: nat)
    requires Inv(a, c) && AwaitsDecision(Events(c.diary)) && g !in c.grants
    ensures Enabled(a, c, Decide(g, true))
    ensures var d := Do(a, c, Decide(g, true));
      Inv(a, d) && d.diary == c.diary && g in d.grants && d.grants[g] == Decided(|c.diary| + 1, true)
  {
    hide Inv, DoWrite, DoAct, DoEnd, DoRecord, NeedOf;
    Safety.Keeps(a, c, Decide(g, true));
  }

  lemma RecordReady(a: Agent, c: Cell, g: nat)
    requires Inv(a, c) && g in c.grants && c.grants[g] == Decided(|c.diary| + 1, true)
    ensures Enabled(a, c, Record(g))
    ensures var d := Do(a, c, Record(g));
      Inv(a, d) && Events(d.diary) == Events(c.diary) + [Approval(true)] && g in d.grants && d.grants[g].Recorded?
  {
    hide Inv, Do;
    EventsAppend(c.diary, Entry(Approval(true), 0));
    RecordLands(a, c, g);
    Safety.Keeps(a, c, Record(g));
  }

  lemma RecordLands(a: Agent, c: Cell, g: nat)
    requires g in c.grants && c.grants[g] == Decided(|c.diary| + 1, true)
    ensures Enabled(a, c, Record(g))
    ensures var d := Do(a, c, Record(g));
      d.diary == c.diary + [Entry(Approval(true), 0)] && g in d.grants && d.grants[g].Recorded?
  {
  }

  /** A human answers the question: two commits, and the run is queued one event further. */
  lemma AnswerQueues(a: Agent, c: Cell, g: nat)
    requires Inv(a, c) && AwaitsDecision(Events(c.diary)) && g !in c.grants
    ensures var acts := [Decide(g, true)] + ([Record(g)] + ([Requeue(g)] + []));
      && Can(a, c, acts)
      && var d := After(a, c, acts);
      && Inv(a, d) && d.run.status == Queued && Events(d.diary) == Events(c.diary) + [Approval(true)]
  {
    hide Inv, Do, Enabled;
    DecideReady(a, c, g);
    var c1 := Do(a, c, Decide(g, true));
    RecordReady(a, c1, g);
    var c2 := Do(a, c1, Record(g));
    RequeueQueues(a, c2, g);
    First(a, c2, Requeue(g), []);
    First(a, c1, Record(g), [Requeue(g)] + []);
    First(a, c, Decide(g, true), [Record(g)] + ([Requeue(g)] + []));
  }

  lemma JoinActs(a: Agent, c: Cell, xs: seq<Action>, ys: seq<Action>)
    requires Can(a, c, xs) && Can(a, After(a, c, xs), ys)
    ensures Can(a, c, xs + ys) && After(a, c, xs + ys) == After(a, After(a, c, xs), ys)
    decreases |xs|
  {
    hide Do, Enabled;
    if xs == [] {
      assert xs + ys == ys;
    } else {
      JoinActs(a, Do(a, c, xs[0]), xs[1..], ys);
      assert (xs + ys)[1..] == xs[1..] + ys;
    }
  }

  lemma AwaitsItsQuestion(a: Agent, c: Cell)
    requires Inv(a, c) && AwaitsDecision(Events(c.diary))
    ensures NeedOf(a, Events(c.diary)).Await?
  {
    hide Performed, Exact, Stamped, Leased, Gated, Billed, Replay;
    EndsOnQuestion(a, Events(c.diary), Start);
  }

  lemma {:induction false} FinishPaused(a: Agent, c: Cell, rank: nat) returns (acts: seq<Action>)
    requires Inv(a, c) && AwaitsDecision(Events(c.diary)) && RankOf(a, c) <= rank
    ensures Can(a, c, acts) && Over(After(a, c, acts))
    decreases rank, 0
  {
    hide Inv, Replay, Do, Enabled, Rank;
    var g := FreshId(c.grants.Keys);
    AnswerQueues(a, c, g);
    AwaitsItsQuestion(a, c);
    RankFalls(a, Events(c.diary), Approval(true));
    var first := [Decide(g, true)] + ([Record(g)] + ([Requeue(g)] + []));
    var d := After(a, c, first);
    var rest := FinishQueued(a, d, rank - 1);
    JoinActs(a, c, first, rest);
    acts := first + rest;
  }

  /** A fresh worker claims the run and reads its diary. */
  lemma ClaimDrives(a: Agent, c: Cell, l: nat)
    requires Inv(a, c) && c.run.status == Queued && l !in c.lives
    ensures var acts := [Claim(l, "w", 0)] + ([Build(l)] + []);
      Can(a, c, acts) && Drives(a, After(a, c, acts), l) && After(a, c, acts).diary == c.diary
  {
    hide Inv;
    var c1 := Do(a, c, Claim(l, "w", 0));
    Safety.Keeps(a, c, Claim(l, "w", 0));
    Safety.Keeps(a, c1, Build(l));
    First(a, c1, Build(l), []);
    First(a, c, Claim(l, "w", 0), [Build(l)] + []);
  }

  lemma {:induction false} FinishQueued(a: Agent, c: Cell, rank: nat) returns (acts: seq<Action>)
    requires Inv(a, c) && c.run.status == Queued && RankOf(a, c) <= rank
    ensures Can(a, c, acts) && Over(After(a, c, acts))
    decreases rank, 2
  {
    hide Inv, Replay, Do, Enabled, Rank, Drives;
    var l := FreshId(c.lives.Keys);
    ClaimDrives(a, c, l);
    var first := [Claim(l, "w", 0)] + ([Build(l)] + []);
    var rest := FinishDriven(a, After(a, c, first), l, rank);
    JoinActs(a, c, first, rest);
    acts := first + rest;
  }

  lemma {:induction false} FinishDriven(a: Agent, c: Cell, l: nat, rank: nat) returns (acts: seq<Action>)
    requires Drives(a, c, l) && RankOf(a, c) <= rank
    ensures Can(a, c, acts) && Over(After(a, c, acts))
    decreases rank, 1
  {
    hide Inv, Replay, Do, Enabled, Rank, Drives;
    if Writes(NeedOf(a, Events(c.diary))) {
      var first := OneWrite(a, c, l);
      var rest := FinishDriven(a, After(a, c, first), l, rank - 1);
      JoinActs(a, c, first, rest);
      acts := first + rest;
    } else {
      Settles(a, c, l);
      var d := Do(a, c, End(l));
      var rest := [];
      if !Over(d) {
        NeedsAtTheEnd(a, Events(c.diary), Start);
        rest := FinishPaused(a, d, rank);
      }
      First(a, c, End(l), rest);
      acts := [End(l)] + rest;
    }
  }
}
