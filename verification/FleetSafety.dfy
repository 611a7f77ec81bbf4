/** The shared tables come apart into runs: each step of the fleet is one action of one
    run, and every reachable state of the fleet satisfies the invariant of every run. */
module FleetSafety {
  import opened Diary
  import opened Engine
  import opened Traces
  import opened Timelines
  import opened Tables
  import opened Protocol
  import opened Store
  import opened Fleet
  import Safety

  // ----- tables seen from one run -----

  lemma KeysForInsert(keys: map<string, Value>, r: RunId, slot: nat, v: Value, q: RunId)
    ensures KeysFor(keys[MakeKey(r, slot) := v], q) ==
            if q == r then KeysFor(keys, q)[MakeKey(r, slot) := v] else KeysFor(keys, q)
  {
    var k := MakeKey(r, slot);
    assert KeyOf(k, r);
    if q != r && KeyOf(k, q) {
      var n: nat :| k == MakeKey(q, n);
      KeyInjective(r, slot, q, n);
    }
  }

  lemma CommitsOfAppend(journal: seq<Commit>, c: Commit, q: RunId)
    ensures CommitsOf(journal + [c], q) == CommitsOf(journal, q) + if c.run == q then [c] else []
  {
    assert (journal + [c])[..|journal|] == journal;
  }

  lemma ItsUpdate<T>(m: map<nat, Of<T>>, l: nat, r: RunId, x: T, q: RunId)
    requires l in m ==> m[l].run == r
    ensures Its(m[l := Of(r, x)], q) == if q == r then Its(m, q)[l := x] else Its(m, q)
  {
  }

  lemma ItsOwn<T>(m: map<nat, Of<T>>, l: nat, r: RunId)
    requires l in m && m[l].run == r
    ensures l in Its(m, r) && Its(m, r)[l] == m[l].it
  {
  }

  lemma ItsRemove<T>(m: map<nat, Of<T>>, l: nat, r: RunId, q: RunId)
    requires l in m && m[l].run == r
    ensures Its(m - {l}, q) == if q == r then Its(m, q) - {l} else Its(m, q)
  {
  }

  lemma HistoryRead(f: State, r: RunId)
    requires Known(f, r)
    ensures var rows := ReadEvents(Rows(f.db, r));
      && |rows| == |View(f, r).diary|
      && seq(|rows|, i requires 0 <= i < |rows| => rows[i].entry.event) == Events(View(f, r).diary)
  {
    ReadsDense(Rows(f.db, r));
  }

  lemma ViewLife(f: State, r: RunId, l: nat)
    requires Known(f, r) && l in f.lives && f.lives[l].run == r
    ensures l in View(f, r).lives && View(f, r).lives[l] == f.lives[l].it
  {
  }

  lemma ViewGrant(f: State, r: RunId, g: nat)
    requires Known(f, r) && g in f.grants && f.grants[g].run == r
    ensures g in View(f, r).grants && View(f, r).grants[g] == f.grants[g].it
  {
  }

  // ----- a local step is an action of its run -----

  /** Exactly run `r` moved, and it moved to `c`. */
  ghost predicate Moves(f: State, g: State, r: RunId, c: Cell)
    requires AllKnown(f)
  {
    && g.db.runs.Keys == f.db.runs.Keys
    && (forall q :: q in f.db.runs ==> Known(g, q) && View(g, q) == if q == r then c else View(f, q))
  }

  /** Run `r` moved to `c`, and its rows alone changed. */
  lemma MovesBy(f: State, g: State, r: RunId, c: Cell)
    requires AllKnown(f) && r in f.db.runs && c.id == r
    requires g.db.runs == f.db.runs[r := c.run] && g.db.keys == f.db.keys && g.db.journal == f.db.journal
    requires forall q :: q != r ==> Rows(g.db, q) == Rows(f.db, q)
    requires Dense(Rows(g.db, r)) && DiaryOf(Rows(g.db, r)) == c.diary
    requires c.keys == KeysFor(f.db.keys, r) && c.commits == CommitsOf(f.db.journal, r)
    requires forall q :: Its(g.lives, q) == if q == r then c.lives else Its(f.lives, q)
    requires forall q :: Its(g.grants, q) == if q == r then c.grants else Its(f.grants, q)
    requires forall q :: BillOf(g.bills, q) == if q == r then c.bill else BillOf(f.bills, q)
    ensures Moves(f, g, r, c)
  {
    hide KeysFor, CommitsOf, Its, BillOf, Dense, DiaryOf, Rows;
    forall q | q in f.db.runs ensures Known(g, q) && View(g, q) == if q == r then c else View(f, q) {
      assert Known(f, q);
    }
  }

  lemma ClaimMoves(f: State, r: RunId, l: nat, worker: string, expiry: int)
    requires AllKnown(f) && r in f.db.runs && l !in f.lives
    ensures var c := View(f, r);
      Moves(f, ClaimIt(f, r, l, worker, expiry), r,
            c.(run := Claimed(c.run, worker, expiry), lives := c.lives[l := Life(worker, c.run.token + 1, Fresh)]))
  {
    hide KeysFor, CommitsOf, ReadEvents, Its, Events, Moves, BillOf, DiaryOf, Dense;
    var c, life := View(f, r), Life(worker, f.db.runs[r].token + 1, Fresh);
    var lives := f.lives[l := Of(r, life)];
    forall q ensures Its(lives, q) == if q == r then Its(f.lives, q)[l := life] else Its(f.lives, q) {
      ItsUpdate(f.lives, l, r, life, q);
    }
    MovesBy(f, ClaimIt(f, r, l, worker, expiry), r,
            c.(run := Claimed(c.run, worker, expiry), lives := c.lives[l := life]));
  }

  lemma BeatMoves(f: State, r: RunId, worker: string, expiry: int)
    requires AllKnown(f) && r in f.db.runs
    ensures var c := View(f, r);
      Moves(f, BeatIt(f, r, worker, expiry), r, c.(run := Beaten(c.run, worker, expiry)))
  {
    hide KeysFor, CommitsOf, ReadEvents, Its, Events;
  }

  lemma DecideMoves(f: State, r: RunId, g: nat, approved: bool)
    requires AllKnown(f) && r in f.db.runs && g !in f.grants
    ensures var c := View(f, r);
      Moves(f, DecideIt(f, r, g, approved), r, c.(grants := c.grants[g := Decided(|c.diary| + 1, approved)]))
  {
    hide KeysFor, CommitsOf, ReadEvents, Its, Events, Moves, BillOf, DiaryOf, Dense;
    HistoryRead(f, r);
    var c, grant := View(f, r), Decided(|View(f, r).diary| + 1, approved);
    var grants := f.grants[g := Of(r, grant)];
    forall q ensures Its(grants, q) == if q == r then Its(f.grants, q)[g := grant] else Its(f.grants, q) {
      ItsUpdate(f.grants, g, r, grant, q);
    }
    assert f.db.runs[r := f.db.runs[r]] == f.db.runs;
    MovesBy(f, DecideIt(f, r, g, approved), r, c.(grants := c.grants[g := grant]));
  }

  lemma DuplicateMoves(f: State, r: RunId, g: nat)
    requires AllKnown(f) && r in f.db.runs && g in f.grants && f.grants[g].run == r
    ensures var c := View(f, r); Moves(f, f.(grants := f.grants - {g}), r, c.(grants := c.grants - {g}))
  {
    hide KeysFor, CommitsOf, ReadEvents, Its, Events;
    forall q | q in f.db.runs
      ensures Its(f.grants - {g}, q) == if q == r then Its(f.grants, q) - {g} else Its(f.grants, q)
    {
      ItsRemove(f.grants, g, r, q);
    }
  }

  lemma AnswerMoves(f: State, r: RunId, g: nat, e: Event)
    requires AllKnown(f) && r in f.db.runs && g in f.grants && f.grants[g].run == r
    ensures var c, db := View(f, r), AppendEvent(f.db, r, |View(f, r).diary| + 1, e, None);
      db.Ok? && Moves(f, f.(db := db.value, grants := f.grants[g := Of(r, Recorded)]), r,
                      c.(diary := c.diary + [Entry(e, 0)], grants := c.grants[g := Recorded]))
  {
    hide KeysFor, CommitsOf, ReadEvents, Its, Events, Moves, BillOf, DiaryOf, Dense;
    var c, grants := View(f, r), f.grants[g := Of(r, Recorded)];
    DenseAppend(Rows(f.db, r), Entry(e, 0));
    forall q ensures Its(grants, q) == if q == r then Its(f.grants, q)[g := Recorded] else Its(f.grants, q) {
      ItsUpdate(f.grants, g, r, Recorded, q);
    }
    var db := AppendEvent(f.db, r, |c.diary| + 1, e, None).value;
    assert f.db.runs[r := f.db.runs[r]] == f.db.runs;
    MovesBy(f, f.(db := db, grants := grants), r,
            c.(diary := c.diary + [Entry(e, 0)], grants := c.grants[g := Recorded]));
  }

  lemma RecordMoves(f: State, r: RunId, g: nat)
    requires AllKnown(f) && r in f.db.runs && g in f.grants && f.grants[g].run == r && f.grants[g].it.Decided?
    requires 1 <= f.grants[g].it.slot <= |View(f, r).diary| + 1
    ensures g in View(f, r).grants && View(f, r).grants[g].Decided?
    ensures Moves(f, RecordIt(f, r, g), r, DoRecord(View(f, r), g))
  {
    hide Moves, View, AppendEvent, Dense, Rows;
    ViewGrant(f, r, g);
    var grant := f.grants[g].it;
    if grant.slot <= |View(f, r).diary| {
      SlotTaken(f, r, grant.slot, Approval(grant.approved));
      DuplicateMoves(f, r, g);
    } else {
      AnswerMoves(f, r, g, Approval(grant.approved));
    }
  }

  lemma SlotTaken(f: State, r: RunId, slot: nat, e: Event)
    requires Known(f, r) && 1 <= slot <= |View(f, r).diary|
    ensures AppendEvent(f.db, r, slot, e, None).Err?
  {
  }

  lemma RequeueMoves(f: State, r: RunId, g: nat)
    requires AllKnown(f) && r in f.db.runs && g in f.grants && f.grants[g].run == r
    ensures var c := View(f, r);
      Moves(f, RequeueIt(f, r, g), r, c.(run := c.run.(status := Queued), grants := c.grants - {g}))
  {
    hide KeysFor, CommitsOf, ReadEvents, Its, Events, Moves, DiaryOf, Dense;
    var c := View(f, r);
    forall q ensures Its(f.grants - {g}, q) == if q == r then Its(f.grants, q) - {g} else Its(f.grants, q) {
      ItsRemove(f.grants, g, r, q);
    }
    MovesBy(f, RequeueIt(f, r, g), r, c.(run := c.run.(status := Queued), grants := c.grants - {g}));
  }

  lemma BuildMoves(f: State, r: RunId, l: nat)
    requires AllKnown(f) && r in f.db.runs && l in f.lives && f.lives[l].run == r
    ensures var c := View(f, r);
      Moves(f, BuildIt(f, r, l), r, c.(lives := c.lives[l := c.lives[l].(phase := Live(Events(c.diary), None))]))
  {
    hide KeysFor, CommitsOf, ReadEvents;
    HistoryRead(f, r);
    forall q | q in f.db.runs {
      ItsUpdate(f.lives, l, r, f.lives[l].it.(phase := Live(Events(View(f, r).diary), None)), q);
    }
  }

  lemma ConsultMoves(f: State, r: RunId, l: nat, answer: string)
    requires AllKnown(f) && LiveIn(f, r, l) && f.lives[l].run == r
    ensures var c := View(f, r);
      Moves(f, ConsultIt(f, r, l, answer), r,
            c.(lives := c.lives[l := c.lives[l].(phase := Live(c.lives[l].phase.seen, Some(answer)))],
               bill := c.bill.(calls := c.bill.calls + 1)))
  {
    hide KeysFor, CommitsOf, ReadEvents;
    var life := f.lives[l].it;
    forall q | q in f.db.runs {
      ItsUpdate(f.lives, l, r, life.(phase := Live(life.phase.seen, Some(answer))), q);
    }
  }

  lemma SettleMoves(f: State, r: RunId, l: nat, run: Run)
    requires AllKnown(f) && r in f.db.runs && l in f.lives && f.lives[l].run == r
    ensures Moves(f, f.(db := WithRow(f.db, r, run), lives := f.lives - {l}), r, Without(View(f, r).(run := run), l))
  {
    hide KeysFor, CommitsOf, ReadEvents, Its, Events, Moves, DiaryOf, Dense;
    forall q ensures Its(f.lives - {l}, q) == if q == r then Its(f.lives, q) - {l} else Its(f.lives, q) {
      ItsRemove(f.lives, l, r, q);
    }
    MovesBy(f, f.(db := WithRow(f.db, r, run), lives := f.lives - {l}), r, Without(View(f, r).(run := run), l));
  }

  /** The bill of the run that moved is charged, and no other. */
  lemma BillMoves(f: State, g: State, r: RunId, c: Cell, bill: Bill)
    requires AllKnown(f) && r in f.db.runs && Moves(f, g, r, c) && g.bills == f.bills
    ensures Moves(f, g.(bills := f.bills[r := bill]), r, c.(bill := bill))
  {
    hide KeysFor, CommitsOf, Its, Dense, DiaryOf, Rows;
    var h := g.(bills := f.bills[r := bill]);
    forall q | q in f.db.runs
      ensures Known(h, q) && View(h, q) == View(g, q).(bill := if q == r then bill else BillOf(f.bills, q))
    {
      assert Known(g, q);
    }
  }

  lemma SameRow(f: State, r: RunId)
    requires Known(f, r)
    ensures WithRow(f.db, r, f.db.runs[r]) == f.db
    ensures View(f, r).run == f.db.runs[r] && View(f, r).bill == BillOf(f.bills, r) && View(f, r).id == r
  {
  }

  lemma LoseMoves(f: State, r: RunId, l: nat)
    requires AllKnown(f) && r in f.db.runs && l in f.lives && f.lives[l].run == r
    ensures l in View(f, r).lives && Moves(f, LoseLife(f, l), r, Lose(View(f, r), l))
  {
    hide Moves, View, WithRow, Dense, BillOf, Charged;
    SettleMoves(f, r, l, f.db.runs[r]);
    SameRow(f, r);
    ViewLife(f, r, l);
    BillMoves(f, f.(lives := f.lives - {l}), r, Without(View(f, r), l), Charged(BillOf(f.bills, r), f.lives[l].it));
  }

  lemma EndMoves(a: Agent, f: State, r: RunId, l: nat)
    requires AllKnown(f) && LiveIn(f, r, l) && f.lives[l].run == r && Enabled(a, View(f, r), End(l))
    ensures Moves(f, EndIt(a, f, r, l), r, DoEnd(a, View(f, r), l))
  {
    hide Replay, Moves;
    SettleMoves(f, r, l, EndIt(a, f, r, l).db.runs[r]);
  }

  lemma BreakMoves(f: State, r: RunId, l: nat)
    requires AllKnown(f) && r in f.db.runs && l in f.lives && f.lives[l].run == r
    ensures l in View(f, r).lives && Moves(f, BreakLife(f, r, l), r, Broken(View(f, r), l))
  {
    hide Moves, WithRow, Dense, KeysFor, CommitsOf, Its, BillOf, DiaryOf;
    ItsOwn(f.lives, l, r);
    SameRow(f, r);
    SettleMoves(f, r, l, ParkedBy(f.db.runs[r], f.lives[l].it.token, Failed));
  }

  /** An event that the current life appends at the end of its diary moves its run only. */
  lemma AppendMoves(f: State, r: RunId, l: nat, e: Event)
    requires AllKnown(f) && LiveIn(f, r, l) && f.lives[l].run == r
    requires f.lives[l].it.token == f.db.runs[r].token
    ensures var db := AppendEvent(f.db, r, |View(f, r).diary| + 1, e, Some(f.lives[l].it.token));
      db.Ok? && Moves(f, SeeMore(f, r, l, db.value, e), r, Appended(View(f, r), l, e))
  {
    hide KeysFor, CommitsOf, ReadEvents, Its, Events, Moves, BillOf, DiaryOf, Dense;
    var life, c := f.lives[l].it, View(f, r);
    DenseAppend(Rows(f.db, r), Entry(e, life.token));
    assert c.lives[l] == life by { ItsOwn(f.lives, l, r); }
    var next := life.(phase := Live(life.phase.seen + [e], None));
    var lives := f.lives[l := Of(r, next)];
    forall q ensures Its(lives, q) == if q == r then Its(f.lives, q)[l := next] else Its(f.lives, q) {
      ItsUpdate(f.lives, l, r, next, q);
    }
    var db := AppendEvent(f.db, r, |c.diary| + 1, e, Some(life.token)).value;
    assert f.db.runs[r := f.db.runs[r]] == f.db.runs;
    MovesBy(f, SeeMore(f, r, l, db, e), r, Appended(c, l, e));
  }

  lemma WriteMoves(a: Agent, f: State, r: RunId, l: nat)
    requires AllKnown(f) && LiveIn(f, r, l) && f.lives[l].run == r
    requires WritesAlone(LifeNeed(a, f.lives[l].it), f.lives[l].it.phase.hand)
    requires f.lives[l].it.token == f.db.runs[r].token ==> |f.lives[l].it.phase.seen| == |View(f, r).diary|
    ensures Enabled(a, View(f, r), Write(l))
    ensures Moves(f, WriteIt(a, f, r, l), r, DoWrite(a, View(f, r), l))
  {
    hide Moves, View, NeedOf, MakeKey, WrittenEvent, Dense, Rows, AppendEvent;
    ViewLife(f, r, l);
    SameRow(f, r);
    var life := f.lives[l].it;
    var e := WrittenEvent(r, life.phase.seen, LifeNeed(a, life), life.phase.hand);
    if life.token == f.db.runs[r].token {
      AppendMoves(f, r, l, e);
    } else {
      AppendIsFenced(f.db, r, |life.phase.seen| + 1, e, life.token);
      LoseMoves(f, r, l);
    }
  }

  lemma AppendIsFenced(db: Db, r: RunId, slot: nat, e: Event, token: nat)
    requires r in db.runs && db.runs[r].token != token
    ensures AppendEvent(db, r, slot, e, Some(token)) == Err(StaleFence)
  {
  }

  lemma PerformIsFenced(db: Db, r: RunId, intent: nat, slot: nat, fn: string, outcome: Attempted, token: nat)
    requires r in db.runs && db.runs[r].token != token
    ensures PerformOnce(db, r, intent, slot, fn, outcome, Some(token)) == Err(StaleFence)
  {
  }

  /** The effect tables move with the run that committed, and with no other. */
  lemma EffectMoves(f: State, g: State, r: RunId, c: Cell, slot: nat, fn: string, v: Value)
    requires AllKnown(f) && Moves(f, g, r, c)
    requires r in f.db.runs && c.keys == KeysFor(f.db.keys, r) && c.commits == CommitsOf(f.db.journal, r)
    requires g.db.keys == f.db.keys && g.db.journal == f.db.journal
    ensures var h := g.(db := g.db.(keys := f.db.keys[MakeKey(r, slot) := v],
                                    journal := f.db.journal + [Commit(r, slot, fn, v)]));
      Moves(f, h, r, c.(keys := c.keys[MakeKey(r, slot) := v], commits := c.commits + [Commit(r, slot, fn, v)]))
  {
    hide MakeKey, KeysFor, CommitsOf;
    var commit := Commit(r, slot, fn, v);
    var keys, journal := f.db.keys[MakeKey(r, slot) := v], f.db.journal + [commit];
    var h := g.(db := g.db.(keys := keys, journal := journal));
    forall q | q in f.db.runs
      ensures KeysFor(keys, q) == if q == r then c.keys[MakeKey(r, slot) := v] else KeysFor(f.db.keys, q)
      ensures CommitsOf(journal, q) == if q == r then c.commits + [commit] else CommitsOf(f.db.journal, q)
      ensures Known(h, q) && View(h, q) == View(g, q).(keys := KeysFor(keys, q), commits := CommitsOf(journal, q))
    {
      assert Known(g, q);
      KeysForInsert(f.db.keys, r, slot, v, q);
      CommitsOfAppend(f.db.journal, commit, q);
    }
  }

  lemma ActMoves(a: Agent, f: State, r: RunId, l: nat, outcome: Value)
    requires AllKnown(f) && LiveIn(f, r, l) && f.lives[l].run == r && LifeNeed(a, f.lives[l].it).Perform?
    requires f.lives[l].it.token == f.db.runs[r].token ==>
      |f.lives[l].it.phase.seen| == |View(f, r).diary| && MakeKey(r, |View(f, r).diary|) !in View(f, r).keys
    ensures Enabled(a, View(f, r), Act(l, outcome))
    ensures Moves(f, ActIt(a, f, r, l, outcome), r, DoAct(a, View(f, r), l, outcome))
  {
    hide Moves, View, NeedOf, MakeKey, Dense, Rows, PerformOnce;
    ViewLife(f, r, l);
    SameRow(f, r);
    var life := f.lives[l].it;
    var intent, fn := |life.phase.seen|, LifeNeed(a, life).fn;
    if life.token == f.db.runs[r].token {
      PerformMoves(f, r, l, fn, outcome);
    } else {
      PerformIsFenced(f.db, r, intent, intent + 1, fn, Yields(outcome), life.token);
      LoseMoves(f, r, l);
    }
  }

  lemma KeyIsFree(f: State, r: RunId, slot: nat)
    requires Known(f, r) && MakeKey(r, slot) !in View(f, r).keys
    ensures MakeKey(r, slot) !in f.db.keys
  {
    hide MakeKey;
    assert KeyOf(MakeKey(r, slot), r);
  }

  /** The current life performs the effect that the last event of the diary announced. */
  lemma PerformMoves(f: State, r: RunId, l: nat, fn: string, v: Value)
    requires AllKnown(f) && LiveIn(f, r, l) && f.lives[l].run == r && f.lives[l].it.token == f.db.runs[r].token
    requires MakeKey(r, |View(f, r).diary|) !in View(f, r).keys && IsLive(View(f, r), l)
    ensures var c, slot := View(f, r), |View(f, r).diary|;
      var key, done := MakeKey(r, slot), PerformOnce(f.db, r, slot, slot + 1, fn, Yields(v), Some(f.lives[l].it.token));
      && done.Ok? && done.value.1 == v
      && Moves(f, SeeMore(f, r, l, done.value.0, ToolCompleted(key, v)), r,
               Appended(c, l, ToolCompleted(key, v)).(
                 keys := c.keys[key := v], commits := c.commits + [Commit(r, slot, fn, v)]))
  {
    hide Moves, NeedOf, MakeKey, DiaryOf, Its, BillOf, CommitsOf, Dense, KeysFor, KeyOf;
    var c, token := View(f, r), f.lives[l].it.token;
    var slot := |c.diary|;
    var key := MakeKey(r, slot);
    assert key !in f.db.keys by { KeyIsFree(f, r, slot); }
    var e := ToolCompleted(key, v);
    AppendMoves(f, r, l, e);
    var g := SeeMore(f, r, l, AppendEvent(f.db, r, slot + 1, e, Some(token)).value, e);
    EffectMoves(f, g, r, Appended(c, l, e), slot, fn, v);
  }

  /** What the invariant says of a life that is about to write. */
  lemma WriterFacts(a: Agent, c: Cell, l: nat)
    requires Inv(a, c) && IsLive(c, l) && Writes(LifeNeed(a, c.lives[l])) && c.lives[l].token == c.run.token
    ensures |c.lives[l].phase.seen| == |c.diary| && MakeKey(c.id, |c.diary|) !in c.keys
  {
    hide Replay, Performed, Gated, Billed, Stamped;
    Safety.WriterCaughtUp(a, c, l);
    Safety.KeyIsFresh(a, c);
  }

  lemma DecisionFacts(a: Agent, c: Cell, g: nat)
    requires Inv(a, c) && g in c.grants && c.grants[g].Decided?
    ensures 1 <= c.grants[g].slot <= |c.diary| + 1
  {
    hide Replay, Performed, Leased, Billed, Stamped, Exact;
  }

  predicate OfRowOrGrant(act: Action) {
    act.Claim? || act.Beat? || act.Decide? || act.Record? || act.Requeue?
  }

  lemma RowOrGrantMoves(a: Agent, f: State, r: RunId, act: Action)
    requires AllKnown(f) && r in f.db.runs && Inv(a, View(f, r)) && Enabled(a, View(f, r), act) && OfRowOrGrant(act)
    requires (act.Claim? ==> act.life !in f.lives) && (act.Decide? ==> act.grant !in f.grants)
    ensures Moves(f, LocalStep(a, f, r, act), r, Do(a, View(f, r), act))
  {
    hide Inv, Moves, View, Dense, NeedOf, AwaitsDecision, ClaimIt, BeatIt, DecideIt;
    if act.Record? || act.Requeue? {
      HeldGrantMoves(a, f, r, act);
    } else {
      SameRow(f, r);
      match act {
        case Claim(l, worker, expiry) => ClaimMoves(f, r, l, worker, expiry);
        case Beat(worker, expiry) => BeatMoves(f, r, worker, expiry);
        case Decide(g, approved) => DecideMoves(f, r, g, approved);
      }
    }
  }

  lemma HeldGrantMoves(a: Agent, f: State, r: RunId, act: Action)
    requires AllKnown(f) && r in f.db.runs && Inv(a, View(f, r)) && Enabled(a, View(f, r), act)
    requires act.Record? || act.Requeue?
    ensures Moves(f, LocalStep(a, f, r, act), r, Do(a, View(f, r), act))
  {
    hide Inv, Moves, View, RecordIt, RequeueIt, DoRecord, Dense;
    GrantIsHeld(f, r, act.grant);
    match act {
      case Record(g) =>
        DecisionFacts(a, View(f, r), g);
        RecordMoves(f, r, g);
      case Requeue(g) => RequeueMoves(f, r, g);
    }
  }

  lemma GrantIsHeld(f: State, r: RunId, g: nat)
    requires Known(f, r) && g in View(f, r).grants
    ensures g in f.grants && f.grants[g].run == r && f.grants[g].it == View(f, r).grants[g]
  {
  }

  /** A step of the fleet on a run is exactly one action of that run; no other run notices. */
  lemma LocalMoves(a: Agent, f: State, r: RunId, act: Action)
    requires AllKnown(f) && r in f.db.runs && Inv(a, View(f, r)) && Enabled(a, View(f, r), act) && !act.Sweep?
    requires (act.Claim? ==> act.life !in f.lives) && (act.Decide? ==> act.grant !in f.grants)
    ensures Moves(f, LocalStep(a, f, r, act), r, Do(a, View(f, r), act))
  {
    hide *;
    if OfRowOrGrant(act) {
      RowOrGrantMoves(a, f, r, act);
    } else {
      LifeMoves(a, f, r, act);
    }
  }

  lemma LifeMoves(a: Agent, f: State, r: RunId, act: Action)
    requires AllKnown(f) && r in f.db.runs && Inv(a, View(f, r)) && Enabled(a, View(f, r), act)
    requires !act.Sweep? && !OfRowOrGrant(act)
    ensures Moves(f, LocalStep(a, f, r, act), r, Do(a, View(f, r), act))
  {
    hide Inv, Moves, View, NeedOf, Dense, BuildIt, ConsultIt, WriteIt, ActIt, EndIt, LoseLife, BreakLife;
    hide DoWrite, DoAct, DoEnd, Lose, Broken;
    LifeIsHeld(f, r, act.life);
    SameRow(f, r);
    match act {
      case Build(l) => BuildMoves(f, r, l);
      case Consult(l, answer) => ConsultMoves(f, r, l, answer);
      case Write(l) =>
        if f.lives[l].it.token == f.db.runs[r].token { WriterFacts(a, View(f, r), l); }
        WriteMoves(a, f, r, l);
      case Act(l, outcome) =>
        if f.lives[l].it.token == f.db.runs[r].token { WriterFacts(a, View(f, r), l); }
        ActMoves(a, f, r, l, outcome);
      case End(l) => EndMoves(a, f, r, l);
      case Throw(l) => BreakMoves(f, r, l);
      case Die(l) => LoseMoves(f, r, l);
    }
  }

  lemma LifeIsHeld(f: State, r: RunId, l: nat)
    requires Known(f, r) && l in View(f, r).lives
    ensures l in f.lives && f.lives[l].run == r && f.lives[l].it == View(f, r).lives[l]
  {
  }

  // ----- the invariant of the fleet -----

  /** Whatever is new in `g` belongs to run `r`. */
  ghost predicate AddsOnly(f: State, g: State, r: RunId) {
    && g.db.runs.Keys == f.db.runs.Keys
    && (forall q :: q in g.db.events ==> q in f.db.events || q == r)
    && (forall k :: k in g.db.keys ==> k in f.db.keys || KeyOf(k, r))
    && (g.db.journal == f.db.journal || exists c: Commit :: c.run == r && g.db.journal == f.db.journal + [c])
    && (forall l :: l in g.lives ==> g.lives[l].run == r || (l in f.lives && g.lives[l] == f.lives[l]))
    && (forall n :: n in g.grants ==> g.grants[n].run == r || (n in f.grants && g.grants[n] == f.grants[n]))
    && (forall q :: q in g.bills ==> q in f.bills || q == r)
  }

  lemma ActAdds(a: Agent, f: State, r: RunId, l: nat, outcome: Value)
    requires LiveIn(f, r, l) && f.lives[l].run == r && LifeNeed(a, f.lives[l].it).Perform?
    ensures AddsOnly(f, ActIt(a, f, r, l, outcome), r)
  {
    hide NeedOf, MakeKey, PerformOnce;
    var life := f.lives[l].it;
    var intent, fn := |life.phase.seen|, LifeNeed(a, life).fn;
    PerformAdds(f.db, r, intent, fn, outcome, Some(life.token));
  }

  /** `after` is `db` with rows, keys and commits of run `r` only. */
  ghost predicate TablesAdd(db: Db, after: Db, r: RunId) {
    && after.runs == db.runs
    && (forall q :: q in after.events ==> q in db.events || q == r)
    && (forall k :: k in after.keys ==> k in db.keys || KeyOf(k, r))
    && (after.journal == db.journal || exists c: Commit :: c.run == r && after.journal == db.journal + [c])
  }

  lemma PerformAdds(db: Db, r: RunId, intent: nat, fn: string, v: Value, lease: Option<nat>)
    ensures var done := PerformOnce(db, r, intent, intent + 1, fn, Yields(v), lease);
      done.Ok? ==> TablesAdd(db, done.value.0, r)
  {
    hide MakeKey, KeyOf;
    assert KeyOf(MakeKey(r, intent), r) by { KeyIsOf(r, intent); }
    var c := Commit(r, intent, fn, v);
    assert c.run == r;
  }

  lemma KeyIsOf(r: RunId, slot: nat)
    ensures KeyOf(MakeKey(r, slot), r)
  {
    hide MakeKey;
  }

  lemma WriteAdds(a: Agent, f: State, r: RunId, l: nat)
    requires LiveIn(f, r, l) && f.lives[l].run == r
    requires WritesAlone(LifeNeed(a, f.lives[l].it), f.lives[l].it.phase.hand)
    ensures AddsOnly(f, WriteIt(a, f, r, l), r)
  {
    hide Replay;
  }

  lemma LocalAdds(a: Agent, f: State, r: RunId, act: Action)
    requires Known(f, r) && Enabled(a, View(f, r), act)
    ensures AddsOnly(f, LocalStep(a, f, r, act), r)
  {
    hide Replay, ReadEvents;
    if act.Act? {
      ActAdds(a, f, r, act.life, act.result);
    } else if act.Write? {
      WriteAdds(a, f, r, act.life);
    } else if IsLifeAction(act) {
      LifeAdds(a, f, r, act);
    } else {
      RowAdds(a, f, r, act);
    }
  }

  predicate IsLifeAction(act: Action) {
    act.Build? || act.Consult? || act.End? || act.Throw? || act.Die?
  }

  lemma LifeAdds(a: Agent, f: State, r: RunId, act: Action)
    requires Known(f, r) && Enabled(a, View(f, r), act) && IsLifeAction(act)
    ensures AddsOnly(f, LocalStep(a, f, r, act), r)
  {
    hide Replay, ReadEvents;
  }

  lemma RecordAdds(f: State, r: RunId, g: nat)
    requires g in f.grants && f.grants[g].run == r && f.grants[g].it.Decided?
    ensures AddsOnly(f, RecordIt(f, r, g), r)
  {
  }

  lemma RowAdds(a: Agent, f: State, r: RunId, act: Action)
    requires Known(f, r) && Enabled(a, View(f, r), act) && !IsLifeAction(act) && !act.Act? && !act.Write?
    ensures AddsOnly(f, LocalStep(a, f, r, act), r)
  {
    hide NeedOf, ReadEvents, Dense, RecordIt, View, AwaitsDecision;
    if act.Record? || act.Requeue? {
      GrantIsHeld(f, r, act.grant);
    }
    match act {
      case Claim(l, worker, expiry) => assert AddsOnly(f, ClaimIt(f, r, l, worker, expiry), r);
      case Beat(worker, expiry) => assert AddsOnly(f, BeatIt(f, r, worker, expiry), r);
      case Sweep(_) => assert AddsOnly(f, f, r);
      case Decide(g, approved) => assert AddsOnly(f, DecideIt(f, r, g, approved), r);
      case Record(g) => RecordAdds(f, r, g);
      case Requeue(g) => assert AddsOnly(f, RequeueIt(f, r, g), r);
    }
  }

  lemma OwnedAfter(f: State, g: State, r: RunId)
    requires Owned(f) && r in f.db.runs && AddsOnly(f, g, r)
    ensures Owned(g)
  {
    forall k | k in g.db.keys ensures exists q :: q in g.db.runs && KeyOf(k, q) {
      if k in f.db.keys {
        var q :| q in f.db.runs && KeyOf(k, q);
        assert q in g.db.runs;
      }
    }
  }

  lemma KeysStayOwned(f: State, g: State)
    requires Owned(f) && g.db.keys == f.db.keys && forall r :: r in f.db.runs ==> r in g.db.runs
    ensures forall k :: k in g.db.keys ==> exists r :: r in g.db.runs && KeyOf(k, r)
  {
    forall k | k in g.db.keys ensures exists r :: r in g.db.runs && KeyOf(k, r) {
      var q :| q in f.db.runs && KeyOf(k, q);
      assert q in g.db.runs;
    }
  }

  ghost predicate SameRun(c: Cell, d: Cell) {
    d.id == c.id && d.run.parent == c.run.parent && d.run.created == c.run.created && d.run.agent == c.run.agent
  }

  lemma IdentityKept(a: Agent, c: Cell, act: Action)
    requires Enabled(a, c, act)
    ensures SameRun(c, Do(a, c, act))
  {
    hide NeedOf, MakeKey, WrittenEvent, DoWrite, DoAct, DoEnd, DoRecord, SameRun;
    match act {
      case Write(l) => WriteSameRun(a, c, l);
      case Act(l, v) => ActSameRun(a, c, l, v);
      case End(l) => EndSameRun(a, c, l);
      case Record(g) => RecordSameRun(c, g);
      case _ => QuietSameRun(a, c, act);
    }
  }

  lemma WriteSameRun(a: Agent, c: Cell, l: nat)
    requires Enabled(a, c, Write(l))
    ensures SameRun(c, DoWrite(a, c, l))
  {
    hide NeedOf, MakeKey, WrittenEvent;
  }

  lemma ActSameRun(a: Agent, c: Cell, l: nat, v: Value)
    requires Enabled(a, c, Act(l, v))
    ensures SameRun(c, DoAct(a, c, l, v))
  {
    hide NeedOf, MakeKey;
  }

  lemma EndSameRun(a: Agent, c: Cell, l: nat)
    requires Enabled(a, c, End(l))
    ensures SameRun(c, DoEnd(a, c, l))
  {
    hide NeedOf;
  }

  lemma RecordSameRun(c: Cell, g: nat)
    requires g in c.grants && c.grants[g].Decided?
    ensures SameRun(c, DoRecord(c, g))
  {
  }

  lemma QuietSameRun(a: Agent, c: Cell, act: Action)
    requires Enabled(a, c, act) && !act.Write? && !act.Act? && !act.End? && !act.Record?
    ensures SameRun(c, Do(a, c, act))
  {
    hide NeedOf, DoWrite, DoAct, DoEnd, DoRecord;
  }

  /** A diary is only ever appended to; lineage and age of a run are fixed at its birth. */
  lemma OnlyAppends(a: Agent, c: Cell, act: Action)
    requires Enabled(a, c, act)
    ensures var d := Do(a, c, act);
      d.id == c.id && c.diary <= d.diary && d.run.parent == c.run.parent && d.run.created == c.run.created
      && d.run.agent == c.run.agent && c.run.token <= d.run.token
  {
    hide Do, Enabled;
    IdentityKept(a, c, act);
    Safety.ActionTokens(a, c, act);
  }

  /** Run `q` is still there, with the same ancestry and at least the same diary. */
  ghost predicate RunExtends(f: State, g: State, q: RunId) {
    && Known(f, q) && Known(g, q)
    && g.db.runs[q].parent == f.db.runs[q].parent && g.db.runs[q].created == f.db.runs[q].created
    && g.db.runs[q].agent == f.db.runs[q].agent
    && View(f, q).diary <= View(g, q).diary
  }

  ghost predicate Extends(f: State, g: State) {
    AllKnown(f) && AllKnown(g) && forall q :: q in f.db.runs ==> RunExtends(f, g, q)
  }

  lemma CopiesKept(f: State, g: State, q: RunId)
    requires Extends(f, g) && q in f.db.runs && f.db.runs[q].parent.Some? && Copies(f, q)
    ensures Copies(g, q)
  {
    var Origin(parent, at) := f.db.runs[q].parent.value;
    var c, d := View(f, q).diary, View(g, q).diary;
    var p, o := View(f, parent).diary, View(g, parent).diary;
    assert Events(d)[..at] == Events(c)[..at];
    assert Events(o)[..at] == Events(p)[..at];
    assert d[at] == c[at];
  }

  lemma LineageKept(f: State, g: State)
    requires Lineage(f) && Extends(f, g) && |f.db.runs| <= |g.db.runs|
    requires forall q :: q in g.db.runs && q !in f.db.runs ==>
      g.db.runs[q].created < |g.db.runs| && (g.db.runs[q].parent.Some? ==> Copies(g, q))
    ensures Lineage(g)
  {
    forall q | q in g.db.runs && g.db.runs[q].parent.Some? ensures Copies(g, q) {
      if q in f.db.runs {
        CopiesKept(f, g, q);
      }
    }
  }

  lemma MovesExtends(f: State, g: State, r: RunId, d: Cell)
    requires AllKnown(f) && r in f.db.runs && Moves(f, g, r, d)
    requires d.run.parent == f.db.runs[r].parent && d.run.created == f.db.runs[r].created
    requires d.run.agent == f.db.runs[r].agent && View(f, r).diary <= d.diary
    ensures Extends(f, g) && |g.db.runs| == |f.db.runs| && g.db.runs.Keys == f.db.runs.Keys
  {
    hide View, Known, Moves, Extends;
    assert |f.db.runs| == |f.db.runs.Keys| && |g.db.runs| == |g.db.runs.Keys|;
    MovesNoRun(f, g, r, d);
    forall q | q in f.db.runs ensures RunExtends(f, g, q) {
      RowMoved(f, g, r, d, q);
    }
    AllExtend(f, g);
  }

  lemma MovesNoRun(f: State, g: State, r: RunId, d: Cell)
    requires AllKnown(f) && Moves(f, g, r, d)
    ensures g.db.runs.Keys == f.db.runs.Keys
  {
    hide View, Known;
  }

  lemma AllExtend(f: State, g: State)
    requires AllKnown(f) && g.db.runs.Keys == f.db.runs.Keys && forall q :: q in f.db.runs ==> RunExtends(f, g, q)
    ensures Extends(f, g)
  {
    hide View;
    assert forall q :: q in g.db.runs ==> q in f.db.runs && RunExtends(f, g, q);
  }

  lemma RowMoved(f: State, g: State, r: RunId, d: Cell, q: RunId)
    requires AllKnown(f) && r in f.db.runs && Moves(f, g, r, d) && q in f.db.runs
    ensures Known(f, q) && q in g.db.runs && Known(g, q) && View(g, q) == (if q == r then d else View(f, q))
    ensures g.db.runs[q] == if q == r then d.run else f.db.runs[q]
  {
    hide View;
    assert Known(f, q) && Known(g, q);
    ViewRow(f, q);
    ViewRow(g, q);
  }

  /** If one run moved, and moved to a good cell, all runs are good. */
  lemma AllGood(code: Code, f: State, g: State, r: RunId, d: Cell)
    requires AllKnown(f) && r in f.db.runs && Moves(f, g, r, d)
    requires forall q :: q in f.db.runs ==> Inv(code(f.db.runs[q].agent), View(f, q))
    requires d.run.agent == f.db.runs[r].agent && Inv(code(f.db.runs[r].agent), d)
    ensures AllKnown(g) && forall q :: q in g.db.runs ==> Inv(code(g.db.runs[q].agent), View(g, q))
  {
    hide Inv;
    forall q | q in g.db.runs ensures Known(g, q) && Inv(code(g.db.runs[q].agent), View(g, q)) {
      assert View(g, q).run == g.db.runs[q];
    }
  }

  lemma LocalKeeps(code: Code, f: State, r: RunId, act: Action)
    requires FleetInv(code, f) && Enables(code, f, Local(r, act))
    ensures FleetInv(code, LocalStep(code(f.db.runs[r].agent), f, r, act))
  {
    hide Inv, Lineage, Owned, Do, LocalStep, Enabled, AddsOnly, Moves, View;
    var a := code(f.db.runs[r].agent);
    var g, d := LocalStep(a, f, r, act), Do(a, View(f, r), act);
    LocalAdds(a, f, r, act);
    OwnedAfter(f, g, r);
    LocalMoves(a, f, r, act);
    OnlyAppends(a, View(f, r), act);
    ViewRow(f, r);
    MovesExtends(f, g, r, d);
    assert forall q :: q in g.db.runs <==> q in f.db.runs;
    LineageKept(f, g);
    Safety.Keeps(a, View(f, r), act);
    AllGood(code, f, g, r, d);
  }

  lemma ViewRow(f: State, r: RunId)
    requires Known(f, r)
    ensures View(f, r).run == f.db.runs[r]
  {
  }

  // ----- births and sweeps -----

  /** A run is born with what it inherited, and nothing of its own. */
  lemma Born(a: Agent, c: Cell)
    requires Diarized(a, c.run, Events(c.diary)) && Floor(c.run) == |c.diary|
    requires c.run.status == Queued && c.run.token == 0 && forall i :: 0 <= i < |c.diary| ==> c.diary[i].token == 0
    requires c.keys == map[] && c.commits == [] && c.lives == map[] && c.grants == map[] && c.bill == Bill(0, 0, 0)
    ensures Inv(a, c)
  {
    hide Replay;
    ForkPerformedNothing(a, c.id, Events(c.diary));
    assert InHand(c.lives) == {};
  }

  lemma {:induction false} NoCommits(journal: seq<Commit>, r: RunId)
    requires forall i :: 0 <= i < |journal| ==> journal[i].run != r
    ensures CommitsOf(journal, r) == []
  {
    if journal != [] {
      NoCommits(journal[..|journal| - 1], r);
    }
  }

  /** A run id that is not in the runs table appears in no other table. */
  lemma Stranger(f: State, r: RunId)
    requires Owned(f) && r !in f.db.runs
    ensures Rows(f.db, r) == map[] && KeysFor(f.db.keys, r) == map[] && CommitsOf(f.db.journal, r) == []
    ensures Its(f.lives, r) == map[] && Its(f.grants, r) == map[] && BillOf(f.bills, r) == Bill(0, 0, 0)
  {
    NoCommits(f.db.journal, r);
    forall k | k in f.db.keys ensures !KeyOf(k, r) {
      var q :| q in f.db.runs && KeyOf(k, q);
      if KeyOf(k, r) {
        var m: nat :| k == MakeKey(q, m);
        var n: nat :| k == MakeKey(r, n);
        KeyInjective(q, m, r, n);
      }
    }
  }

  /** `g` is `f` with the new run `r`. */
  ghost predicate Bears(f: State, g: State, r: RunId) {
    && AllKnown(f) && r !in f.db.runs && g.db.runs.Keys == f.db.runs.Keys + {r} && Known(g, r)
    && (forall q :: q in f.db.runs ==> g.db.runs[q] == f.db.runs[q] && Rows(g.db, q) == Rows(f.db, q))
    && (forall q :: q in g.db.events ==> q in f.db.events || q == r)
    && g.db.keys == f.db.keys && g.db.journal == f.db.journal
    && g.lives == f.lives && g.grants == f.grants && g.bills == f.bills
  }

  lemma BearsExtends(f: State, g: State, r: RunId)
    requires Bears(f, g, r)
    ensures Extends(f, g) && |g.db.runs| == |f.db.runs| + 1
    ensures forall q :: q in f.db.runs ==> View(g, q) == View(f, q)
  {
    assert |g.db.runs.Keys| == |f.db.runs.Keys| + 1;
    assert |g.db.runs| == |g.db.runs.Keys| && |f.db.runs| == |f.db.runs.Keys|;
    forall q | q in f.db.runs ensures Known(g, q) && View(g, q) == View(f, q) {
      assert Known(f, q);
    }
  }

  lemma BearsOwned(f: State, g: State, r: RunId)
    requires Owned(f) && Bears(f, g, r)
    ensures Owned(g)
  {
    KeysStayOwned(f, g);
  }

  lemma BearsKeeps(code: Code, f: State, g: State, r: RunId)
    requires FleetInv(code, f) && Bears(f, g, r)
    requires Inv(code(g.db.runs[r].agent), View(g, r)) && g.db.runs[r].created == |f.db.runs|
    requires g.db.runs[r].parent.Some? ==> Copies(g, r)
    ensures FleetInv(code, g)
  {
    hide Inv, Copies, Owned, Lineage, View;
    BearsExtends(f, g, r);
    BearsOwned(f, g, r);
    assert forall q :: q in g.db.runs <==> q in f.db.runs || q == r;
    LineageKept(f, g);
    forall q | q in g.db.runs ensures Inv(code(g.db.runs[q].agent), View(g, q)) {
      if q in f.db.runs {
        assert View(g, q) == View(f, q);
      }
    }
  }

  lemma EnqueueBears(f: State, r: RunId, agent: string, input: Value)
    requires AllKnown(f) && Owned(f) && r !in f.db.runs
    ensures var g := f.(db := Insert(f.db, r, agent, input, Queued));
      && Bears(f, g, r)
      && View(g, r) ==
           Cell(r, NewRun(agent, input, Queued, |f.db.runs|, None), [], map[], [], map[], map[], Bill(0, 0, 0))
  {
    hide Bears, KeysFor, CommitsOf, Its, BillOf;
    Stranger(f, r);
    var g := f.(db := Insert(f.db, r, agent, input, Queued));
    RowBears(f, r, g.db.runs[r], f.db.events);
    BearsKnows(f, g, r);
    assert DiaryOf(Rows(g.db, r)) == [];
  }

  lemma BearsKnows(f: State, g: State, r: RunId)
    requires Bears(f, g, r)
    ensures Known(g, r)
  {
  }

  lemma EnqueueKeeps(code: Code, f: State, r: RunId, agent: string, input: Value)
    requires FleetInv(code, f) && r !in f.db.runs
    ensures FleetInv(code, f.(db := Insert(f.db, r, agent, input, Queued)))
  {
    hide Inv, Lineage, Copies, Trace, FleetInv, View;
    var g := f.(db := Insert(f.db, r, agent, input, Queued));
    InvParts(code, f);
    EnqueueBears(f, r, agent, input);
    EmptyTrace(code(agent));
    assert Events(View(g, r).diary) == [];
    Born(code(agent), View(g, r));
    BearsKeeps(code, f, g, r);
  }

  lemma InvParts(code: Code, f: State)
    requires FleetInv(code, f)
    ensures Owned(f) && AllKnown(f) && Lineage(f)
  {
  }

  lemma ForkTables(db: Db, parent: RunId, at: nat, patch: Config, child: RunId)
    requires child !in db.runs && parent in db.runs && Dense(Rows(db, parent))
    requires Fork(db, parent, at, patch, child).Ok?
    ensures var after, p := Fork(db, parent, at, patch, child).value, db.runs[parent];
      && 1 <= at <= |Rows(db, parent)|
      && after.runs == db.runs[child := NewRun(p.agent, p.input, Queued, |db.runs|, Some(Origin(parent, at)))]
      && after.events == db.events[child := Rows(after, child)]
      && after.keys == db.keys && after.journal == db.journal
      && Dense(Rows(after, child))
      && Events(DiaryOf(Rows(after, child))) == Cut(Events(DiaryOf(Rows(db, parent))), at, patch)
      && forall i :: 0 <= i < |Rows(after, child)| ==> DiaryOf(Rows(after, child))[i].token == 0
  {
    ForkDiary(Rows(db, parent), at, patch);
  }

  /** A new row in runs, and perhaps a new diary in events. */
  lemma RowBears(f: State, r: RunId, row: Run, events: map<RunId, map<nat, Entry>>)
    requires AllKnown(f) && r !in f.db.runs
    requires forall q :: q in events ==> q in f.db.events || q == r
    requires forall q :: q in f.db.events && q != r ==> q in events && events[q] == f.db.events[q]
    requires r in events ==> Dense(events[r])
    ensures Bears(f, f.(db := f.db.(runs := f.db.runs[r := row], events := events)), r)
  {
    hide Dense;
    assert r !in events ==> Dense(map[]) by { EmptyIsDense(); }
  }

  lemma EmptyIsDense()
    ensures Dense(map[])
  {
  }

  lemma ForkedFrom(db: Db, parent: RunId, at: nat, patch: Config, child: RunId)
    requires Fork(db, parent, at, patch, child).Ok?
    ensures parent in db.runs
  {
  }

  lemma ForkBears(f: State, parent: RunId, at: nat, patch: Config, child: RunId)
    requires AllKnown(f) && Owned(f) && child !in f.db.runs && Fork(f.db, parent, at, patch, child).Ok?
    ensures var g, p := f.(db := Fork(f.db, parent, at, patch, child).value), f.db.runs[parent];
      && Bears(f, g, child)
      && g.db.runs[child] == NewRun(p.agent, p.input, Queued, |f.db.runs|, Some(Origin(parent, at)))
      && Known(g, parent) && Rows(g.db, parent) == Rows(f.db, parent)
      && 1 <= at <= |Rows(f.db, parent)|
      && Events(DiaryOf(Rows(g.db, child))) == Cut(Events(DiaryOf(Rows(f.db, parent))), at, patch)
      && (forall i :: 0 <= i < |Rows(g.db, child)| ==> DiaryOf(Rows(g.db, child))[i].token == 0)
  {
    hide Fork, Cut, Events, Dense, DiaryOf, Bears;
    assert Known(f, parent) by { ForkedFrom(f.db, parent, at, patch, child); }
    ForkTables(f.db, parent, at, patch, child);
    var after := Fork(f.db, parent, at, patch, child).value;
    assert after == f.db.(runs := after.runs, events := after.events);
    RowBears(f, child, after.runs[child], after.events);
    BearsFacts(f, f.(db := after), child, parent);
  }

  lemma BearsFacts(f: State, g: State, r: RunId, q: RunId)
    requires Bears(f, g, r) && q in f.db.runs
    ensures Known(g, q) && Rows(g.db, q) == Rows(f.db, q)
  {
    hide Dense;
    assert Known(f, q);
  }

  lemma ForkCopies(f: State, parent: RunId, at: nat, patch: Config, child: RunId)
    requires AllKnown(f) && Owned(f) && Lineage(f) && child !in f.db.runs && Fork(f.db, parent, at, patch, child).Ok?
    ensures var g := f.(db := Fork(f.db, parent, at, patch, child).value);
      child in g.db.runs && g.db.runs[child].parent == Some(Origin(parent, at)) && Copies(g, child)
  {
    hide Fork, Dense, KeysFor, CommitsOf, Its, BillOf;
    var g := f.(db := Fork(f.db, parent, at, patch, child).value);
    ForkBears(f, parent, at, patch, child);
    OlderThanNew(f, parent);
    var h, c := Events(View(f, parent).diary), Events(View(g, child).diary);
    assert c == Cut(h, at, patch);
    assert c[..at] == h[..at] && c[at] == PatchApplied(patch);
    assert Known(g, parent);
  }

  lemma ForkBorn(a: Agent, f: State, parent: RunId, at: nat, patch: Config, child: RunId)
    requires AllKnown(f) && Owned(f) && child !in f.db.runs && Fork(f.db, parent, at, patch, child).Ok?
    requires Inv(a, View(f, parent))
    ensures var g := f.(db := Fork(f.db, parent, at, patch, child).value); Bears(f, g, child) && Inv(a, View(g, child))
  {
    hide Replay, Trace, Exact, Stamped, Leased, Gated, Billed, Fork, Dense, KeysFor, CommitsOf, Its, BillOf, DiaryOf;
    var g := f.(db := Fork(f.db, parent, at, patch, child).value);
    ForkBears(f, parent, at, patch, child);
    ForkPointBoundary(f, parent, at, patch, child);
    Stranger(f, child);
    var h, c := Events(View(f, parent).diary), View(g, child);
    ForkGuardExact(a, h, at, patch);
    assert Events(c.diary) == Cut(h, at, patch) && Events(c.diary)[at] == PatchApplied(patch);
    Born(a, c);
  }

  lemma ForkKeeps(code: Code, f: State, parent: RunId, at: nat, patch: Config, child: RunId)
    requires FleetInv(code, f) && child !in f.db.runs && Fork(f.db, parent, at, patch, child).Ok?
    ensures FleetInv(code, f.(db := Fork(f.db, parent, at, patch, child).value))
  {
    hide Inv, Owned, Lineage, Copies, Bears;
    ForkBorn(code(f.db.runs[parent].agent), f, parent, at, patch, child);
    ForkCopies(f, parent, at, patch, child);
    BearsKeeps(code, f, f.(db := Fork(f.db, parent, at, patch, child).value), child);
  }

  lemma OlderThanNew(f: State, r: RunId)
    requires Lineage(f) && r in f.db.runs
    ensures f.db.runs[r].created < |f.db.runs|
  {
  }

  lemma AnyPatchForks(db: Db, parent: RunId, at: nat, patch: Config, child: RunId)
    ensures Fork(db, parent, at, patch, child).Ok? <==> Fork(db, parent, at, map[], child).Ok?
  {
  }

  /** fork_run looks at the event at the cut: it is not the first half of an operation. */
  lemma ForkPointBoundary(f: State, parent: RunId, at: nat, patch: Config, child: RunId)
    requires AllKnown(f) && Fork(f.db, parent, at, patch, child).Ok?
    ensures 1 <= at <= |View(f, parent).diary| && !HalfOpen(Events(View(f, parent).diary)[at - 1])
  {
  }

  lemma SweepMoves(f: State, now: int)
    requires AllKnown(f)
    ensures var g := f.(db := SweepAll(f.db, now));
      && g.db.runs.Keys == f.db.runs.Keys && |g.db.runs| == |f.db.runs|
      && forall q :: q in f.db.runs ==>
           && g.db.runs[q] == Swept(f.db.runs[q], now) && Known(g, q)
           && View(g, q) == View(f, q).(run := Swept(f.db.runs[q], now))
  {
    hide KeysFor, CommitsOf, ReadEvents, Its, Events, DiaryOf, Dense;
    var g := f.(db := SweepAll(f.db, now));
    assert |f.db.runs| == |f.db.runs.Keys| && |g.db.runs| == |g.db.runs.Keys|;
    forall q | q in f.db.runs ensures Known(g, q) && Rows(g.db, q) == Rows(f.db, q) {
      assert Known(f, q);
    }
  }

  lemma SweepExtends(f: State, now: int)
    requires AllKnown(f)
    ensures Extends(f, f.(db := SweepAll(f.db, now)))
  {
    hide View, Dense, Extends;
    SweepMoves(f, now);
    AllExtend(f, f.(db := SweepAll(f.db, now)));
  }

  lemma SweepGood(code: Code, f: State, now: int, q: RunId)
    requires FleetInv(code, f) && q in f.db.runs
    ensures var g := f.(db := SweepAll(f.db, now));
      q in g.db.runs && Known(g, q) && Inv(code(g.db.runs[q].agent), View(g, q))
  {
    hide Inv, Lineage, Owned, View, Do;
    SweepMoves(f, now);
    var a := code(f.db.runs[q].agent);
    ViewRow(f, q);
    SweptRow(a, View(f, q), now);
    Safety.Keeps(a, View(f, q), Sweep(now));
  }

  lemma SweepKeeps(code: Code, f: State, now: int)
    requires FleetInv(code, f)
    ensures FleetInv(code, f.(db := SweepAll(f.db, now)))
  {
    hide Inv, Lineage, View, Owned, FleetInv;
    var g := f.(db := SweepAll(f.db, now));
    InvParts(code, f);
    SweepMoves(f, now);
    SweepExtends(f, now);
    assert Owned(g) by { SweepOwned(f, now); }
    assert Lineage(g) by { LineageKept(f, g); }
    forall q | q in g.db.runs ensures Known(g, q) && Inv(code(g.db.runs[q].agent), View(g, q)) {
      SweepGood(code, f, now, q);
    }
    Whole(code, g);
  }

  lemma SweepOwned(f: State, now: int)
    requires Owned(f)
    ensures Owned(f.(db := SweepAll(f.db, now)))
  {
    KeysStayOwned(f, f.(db := SweepAll(f.db, now)));
  }

  lemma Whole(code: Code, f: State)
    requires Owned(f) && Lineage(f) && AllKnown(f)
    requires forall q :: q in f.db.runs ==> Inv(code(f.db.runs[q].agent), View(f, q))
    ensures FleetInv(code, f)
  {
  }

  lemma SweptRow(a: Agent, c: Cell, now: int)
    ensures Enabled(a, c, Sweep(now)) && Do(a, c, Sweep(now)) == c.(run := Swept(c.run, now))
    ensures Swept(c.run, now).parent == c.run.parent && Swept(c.run, now).created == c.run.created
    ensures Swept(c.run, now).agent == c.run.agent
  {
  }

  /** Every step of the fleet keeps the invariant of every run. */
  lemma StepKeeps(code: Code, f: State, step: Step)
    requires FleetInv(code, f) && Enables(code, f, step)
    ensures FleetInv(code, Next(code, f, step))
  {
    hide FleetInv, LocalStep, View, Enabled;
    match step {
      case Local(r, act) => LocalKeeps(code, f, r, act);
      case Enqueue(r, agent, input) => EnqueueKeeps(code, f, r, agent, input);
      case Forking(parent, at, patch, child) => ForkKeeps(code, f, parent, at, patch, child);
      case Sweeping(now) => SweepKeeps(code, f, now);
    }
  }

  /** The main theorem: in every state of every execution of the fleet, whatever the
      interleaving, every run satisfies its invariant. */
  lemma {:induction false} AlwaysSafe(code: Code, fs: seq<State>, steps: seq<Step>, i: nat)
    requires Execution(code, fs, steps) && i < |fs|
    ensures FleetInv(code, fs[i])
  {
    hide FleetInv, Next, Enables;
    if i == 0 {
      InitiallySafe(code);
    } else {
      AlwaysSafe(code, fs, steps, i - 1);
      assert Enables(code, fs[i - 1], steps[i - 1]) && fs[i - 1 + 1] == Next(code, fs[i - 1], steps[i - 1]);
      StepKeeps(code, fs[i - 1], steps[i - 1]);
    }
  }

  lemma InitiallySafe(code: Code)
    ensures FleetInv(code, Initial)
  {
  }
}
