/** Crash transparency in the fleet: when what the model, the effects and the humans answer is
    deterministic, the diary and the commits of every run are at all times those of its one
    uninterrupted life so far, whatever crashed, raised, froze, thawed or raced. */
module Transparency {
  import opened Diary
  import opened Engine
  import opened Traces
  import opened Timelines
  import opened Tables
  import opened Protocol
  import opened Store
  import opened Fleet
  import opened FleetSafety
  import Progress
  import Safety

  // ----- one run -----

  /** The run as it was born: empty, or the copied prefix and the patch of a fork. */
  ghost function Birth(c: Cell): Timeline
    requires Floor(c.run) <= |c.diary|
  {
    Timeline(Events(c.diary)[..Floor(c.run)], [])
  }

  ghost predicate OnCourse(a: Agent, world: World, c: Cell) {
    Floor(c.run) <= |c.diary| &&
    exists n: nat :: Grown(a, c.id, world, Birth(c), n) == Timeline(Events(c.diary), c.commits)
  }

  /** The answers and decisions not yet recorded are the world's. */
  ghost predicate HandsTrue(a: Agent, world: World, lives: map<nat, Life>) {
    forall l :: l in lives && lives[l].phase.Live? && lives[l].phase.hand.Some? ==>
      LifeNeed(a, lives[l]).Call? && world.model(LifeNeed(a, lives[l]).prompt) == lives[l].phase.hand
  }

  ghost predicate GrantsTrue(world: World, grants: map<nat, Grant>) {
    forall g :: g in grants && grants[g].Decided? ==> grants[g].approved == world.human(grants[g].slot)
  }

  function Story(c: Cell): Timeline {
    Timeline(Events(c.diary), c.commits)
  }

  /** A run that failed is at the end of its life, unless something raised that need not have. */
  ghost predicate FailsTrue(a: Agent, world: World, c: Cell) {
    c.run.status == Failed && !world.flaky ==> Ended(a, world, Story(c))
  }

  ghost predicate TrueTo(a: Agent, world: World, c: Cell) {
    && OnCourse(a, world, c) && HandsTrue(a, world, c.lives) && GrantsTrue(world, c.grants)
    && FailsTrue(a, world, c)
  }

  /** What the world answers in this action is what `world` says. */
  predicate Abides(a: Agent, world: World, c: Cell, act: Action)
    requires Enabled(a, c, act)
  {
    match act
    case Consult(l, answer) => world.model(LifeNeed(a, c.lives[l]).prompt) == Some(answer)
    case Act(l, result) =>
      c.lives[l].token == c.run.token ==> world.effect(LifeNeed(a, c.lives[l]).fn, c.commits) == Some(result)
    case Throw(l) =>
      c.lives[l].token == c.run.token && !world.flaky ==> Raises(world, c.commits, LifeNeed(a, c.lives[l]))
    case Decide(_, approved) => approved == world.human(|c.diary| + 1)
    case _ => true
  }

  lemma StaysOnCourse(a: Agent, world: World, c: Cell, d: Cell)
    requires OnCourse(a, world, c)
    requires d.id == c.id && d.diary == c.diary && d.commits == c.commits && d.run.parent == c.run.parent
    ensures OnCourse(a, world, d)
  {
    hide Replay;
    var n: nat :| Grown(a, c.id, world, Birth(c), n) == Timeline(Events(c.diary), c.commits);
    assert Birth(d) == Birth(c);
    assert Grown(a, d.id, world, Birth(d), n) == Timeline(Events(d.diary), d.commits);
  }

  /** The next event of the uninterrupted life came. */
  lemma GrowsOnCourse(a: Agent, world: World, c: Cell, d: Cell, e: Event, token: nat)
    requires OnCourse(a, world, c) && Growable(NeedOf(a, Events(c.diary)))
    requires !Raises(world, c.commits, NeedOf(a, Events(c.diary)))
    requires e == NextEvent(c.id, world, Timeline(Events(c.diary), c.commits), NeedOf(a, Events(c.diary)))
    requires d.id == c.id && d.run.parent == c.run.parent && d.diary == c.diary + [Entry(e, token)]
    requires d.commits == (if NeedOf(a, Events(c.diary)).Perform? then
                             c.commits + [Commit(c.id, |c.diary|, NeedOf(a, Events(c.diary)).fn, e.result)]
                           else c.commits)
    ensures OnCourse(a, world, d)
  {
    hide Replay, NextEvent;
    EventsAppend(c.diary, Entry(e, token));
    var n: nat :| Grown(a, c.id, world, Birth(c), n) == Timeline(Events(c.diary), c.commits);
    assert Events(d.diary)[..Floor(c.run)] == Events(c.diary)[..Floor(c.run)];
    assert Birth(d) == Birth(c);
    assert Grown(a, d.id, world, Birth(d), n + 1) == Timeline(Events(d.diary), d.commits);
  }

  lemma WriteTrue(a: Agent, world: World, c: Cell, l: nat)
    requires Inv(a, c) && TrueTo(a, world, c) && Enabled(a, c, Write(l))
    ensures OnCourse(a, world, Do(a, c, Write(l)))
  {
    hide Inv, Replay, OnCourse;
    var life, d := c.lives[l], Do(a, c, Write(l));
    if life.token == c.run.token {
      Safety.WriterCaughtUp(a, c, l);
      var e := WrittenEvent(c.id, life.phase.seen, LifeNeed(a, life), life.phase.hand);
      GrowsOnCourse(a, world, c, d, e, life.token);
    } else {
      StaysOnCourse(a, world, c, d);
    }
  }

  lemma ActTrue(a: Agent, world: World, c: Cell, l: nat, result: Value)
    requires Inv(a, c) && TrueTo(a, world, c) && Enabled(a, c, Act(l, result)) && Abides(a, world, c, Act(l, result))
    ensures OnCourse(a, world, Do(a, c, Act(l, result)))
  {
    hide Inv, Replay, OnCourse;
    var life, d := c.lives[l], Do(a, c, Act(l, result));
    if life.token == c.run.token {
      WriterFacts(a, c, l);
      Safety.WriterCaughtUp(a, c, l);
      GrowsOnCourse(a, world, c, d, ToolCompleted(MakeKey(c.id, |c.diary|), result), life.token);
    } else {
      StaysOnCourse(a, world, c, d);
    }
  }

  lemma RecordTrue(a: Agent, world: World, c: Cell, g: nat)
    requires Inv(a, c) && TrueTo(a, world, c) && Enabled(a, c, Record(g))
    ensures OnCourse(a, world, Do(a, c, Record(g)))
  {
    hide Replay, OnCourse, Exact, Stamped, Leased, Billed;
    var grant, d := c.grants[g], Do(a, c, Record(g));
    if grant.slot <= |c.diary| {
      StaysOnCourse(a, world, c, d);
    } else {
      assert grant.slot == |c.diary| + 1 && c.diary[|c.diary| - 1].event.ApprovalRequested?;
      EndsOnQuestion(a, Events(c.diary), Start);
      GrowsOnCourse(a, world, c, d, Approval(grant.approved), 0);
    }
  }

  lemma QuietTrue(a: Agent, world: World, c: Cell, act: Action)
    requires OnCourse(a, world, c) && Enabled(a, c, act) && !act.Write? && !act.Act? && !act.Record?
    ensures OnCourse(a, world, Do(a, c, act))
  {
    hide Replay, OnCourse;
    StaysOnCourse(a, world, c, Do(a, c, act));
  }

  /** Only a model call puts an answer in hand. */
  predicate NoNewHands(ls: map<nat, Life>, ms: map<nat, Life>) {
    forall l :: l in ms && ms[l].phase.Live? && ms[l].phase.hand.Some? ==> l in ls && ms[l] == ls[l]
  }

  /** A run is failed by what the agent, the model or an effect raised, and nothing after that
      changes its diary or its commits. */
  lemma FailsTruly(a: Agent, world: World, c: Cell, act: Action)
    requires Inv(a, c) && FailsTrue(a, world, c) && Enabled(a, c, act) && Abides(a, world, c, act)
    ensures FailsTrue(a, world, Do(a, c, act))
  {
    hide Inv, Enabled, Do, Abides;
    if c.run.status == Failed {
      Progress.OverUnlessRequeued(a, c, act);
    } else if act.End? {
      EndFailsTruly(a, world, c, act.life);
    } else if act.Throw? {
      ThrowFailsTruly(a, world, c, act.life);
    } else {
      OnlyRaisingFails(a, c, act);
    }
  }

  lemma EndFailsTruly(a: Agent, world: World, c: Cell, l: nat)
    requires Inv(a, c) && Enabled(a, c, End(l)) && c.run.status != Failed
    ensures FailsTrue(a, world, Do(a, c, End(l)))
  {
    hide NeedOf, Performed, Exact, Stamped, Billed, Diarized;
    Safety.EndingHand(a, c, l);
    assert LifeOk(a, c.run, Events(c.diary), c.lives[l]);
  }

  lemma ThrowFailsTruly(a: Agent, world: World, c: Cell, l: nat)
    requires Inv(a, c) && Enabled(a, c, Throw(l)) && Abides(a, world, c, Throw(l)) && c.run.status != Failed
    ensures FailsTrue(a, world, Do(a, c, Throw(l)))
  {
    hide Inv, NeedOf;
    if Held(c.run, c.lives[l].token) {
      Safety.WriterCaughtUp(a, c, l);
    }
  }

  lemma OnlyRaisingFails(a: Agent, c: Cell, act: Action)
    requires Inv(a, c) && Enabled(a, c, act) && !act.End? && !act.Throw? && c.run.status != Failed
    ensures Do(a, c, act).run.status != Failed
  {
    hide Inv, NeedOf, MakeKey, WrittenEvent;
    if (act.Write? || act.Act?) && c.lives[act.life].token == c.run.token {
      Safety.WriterCaughtUp(a, c, act.life);
    }
  }

  lemma HandsOnlyByConsulting(a: Agent, c: Cell, act: Action)
    requires Enabled(a, c, act) && !act.Consult?
    ensures NoNewHands(c.lives, Do(a, c, act).lives)
  {
    hide NeedOf, MakeKey, WrittenEvent, DoWrite, DoAct, DoEnd, DoRecord, NoNewHands;
    match act {
      case Write(l) => HandsAfterWrite(a, c, l);
      case Act(l, result) => HandsAfterAct(a, c, l, result);
      case End(l) => HandsAfterEnd(a, c, l);
      case Record(g) => HandsAfterRecord(c, g);
      case _ => HandsAfterOther(a, c, act);
    }
  }

  lemma HandsAfterWrite(a: Agent, c: Cell, l: nat)
    requires Enabled(a, c, Write(l))
    ensures NoNewHands(c.lives, DoWrite(a, c, l).lives)
  {
    hide NeedOf, MakeKey, WrittenEvent;
  }

  lemma HandsAfterAct(a: Agent, c: Cell, l: nat, result: Value)
    requires Enabled(a, c, Act(l, result))
    ensures NoNewHands(c.lives, DoAct(a, c, l, result).lives)
  {
    hide NeedOf, MakeKey;
  }

  lemma HandsAfterEnd(a: Agent, c: Cell, l: nat)
    requires Enabled(a, c, End(l))
    ensures NoNewHands(c.lives, DoEnd(a, c, l).lives)
  {
    hide NeedOf;
  }

  lemma HandsAfterRecord(c: Cell, g: nat)
    requires g in c.grants && c.grants[g].Decided?
    ensures NoNewHands(c.lives, DoRecord(c, g).lives)
  {
  }

  lemma HandsAfterOther(a: Agent, c: Cell, act: Action)
    requires Enabled(a, c, act) && !act.Consult? && !act.Write? && !act.Act? && !act.End? && !act.Record?
    ensures NoNewHands(c.lives, Do(a, c, act).lives)
  {
    hide NeedOf, DoWrite, DoAct, DoEnd, DoRecord;
  }

  lemma HandsStayTrue(a: Agent, world: World, c: Cell, act: Action)
    requires HandsTrue(a, world, c.lives) && Enabled(a, c, act) && Abides(a, world, c, act)
    ensures HandsTrue(a, world, Do(a, c, act).lives)
  {
    hide NeedOf, DoWrite, DoAct, DoEnd, DoRecord;
    if !act.Consult? {
      HandsOnlyByConsulting(a, c, act);
    }
  }

  lemma GrantsStayTrue(a: Agent, world: World, c: Cell, act: Action)
    requires GrantsTrue(world, c.grants) && Enabled(a, c, act) && Abides(a, world, c, act)
    ensures GrantsTrue(world, Do(a, c, act).grants)
  {
    hide Replay, MakeKey, WrittenEvent;
  }

  /** Every action of the fleet in which the world answers as `world` says keeps a run on the
      course of its uninterrupted life. */
  lemma StaysTrue(a: Agent, world: World, c: Cell, act: Action)
    requires Inv(a, c) && TrueTo(a, world, c) && Enabled(a, c, act) && Abides(a, world, c, act)
    ensures TrueTo(a, world, Do(a, c, act))
  {
    hide Inv, OnCourse, HandsTrue, GrantsTrue, FailsTrue, Enabled, Do, Abides;
    FailsTruly(a, world, c, act);
    HandsStayTrue(a, world, c, act);
    GrantsStayTrue(a, world, c, act);
    match act {
      case Write(l) => WriteTrue(a, world, c, l);
      case Act(l, result) => ActTrue(a, world, c, l, result);
      case Record(g) => RecordTrue(a, world, c, g);
      case _ => QuietTrue(a, world, c, act);
    }
  }

  lemma BornTrue(a: Agent, world: World, c: Cell)
    requires Floor(c.run) == |c.diary| && c.commits == [] && c.lives == map[] && c.grants == map[]
    requires c.run.status != Failed
    ensures TrueTo(a, world, c)
  {
    assert Events(c.diary)[..|c.diary|] == Events(c.diary);
    assert Grown(a, c.id, world, Birth(c), 0) == Timeline(Events(c.diary), c.commits);
  }

  // ----- the fleet -----

  /** The deterministic surroundings of each run. */
  type Worlds = RunId -> World

  ghost predicate StepAbides(code: Code, worlds: Worlds, f: State, step: Step)
    requires Enables(code, f, step)
  {
    step.Local? ==> Abides(code(f.db.runs[step.run].agent), worlds(step.run), View(f, step.run), step.act)
  }

  /** An execution in which every step abides by the world of its run. */
  ghost predicate Abiding(code: Code, worlds: Worlds, fs: seq<State>, steps: seq<Step>) {
    && Execution(code, fs, steps)
    && forall i :: 0 <= i < |steps| ==> StepAbides(code, worlds, fs[i], steps[i])
  }

  ghost predicate AllTrue(code: Code, worlds: Worlds, f: State) {
    AllKnown(f) && forall r :: r in f.db.runs ==> TrueTo(code(f.db.runs[r].agent), worlds(r), View(f, r))
  }

  lemma LocalTrue(code: Code, worlds: Worlds, f: State, r: RunId, act: Action)
    requires FleetInv(code, f) && AllTrue(code, worlds, f)
    requires Enables(code, f, Local(r, act)) && StepAbides(code, worlds, f, Local(r, act))
    ensures AllTrue(code, worlds, Next(code, f, Local(r, act)))
  {
    hide Inv, Lineage, Owned, Do, LocalStep, Enabled, Moves, View, Abides, TrueTo;
    var a := code(f.db.runs[r].agent);
    LocalMoves(a, f, r, act);
    OnlyAppends(a, View(f, r), act);
    ViewRow(f, r);
    StaysTrue(a, worlds(r), View(f, r), act);
    OneMovedTrue(code, worlds, f, LocalStep(a, f, r, act), r, Do(a, View(f, r), act));
  }

  lemma OneMovedTrue(code: Code, worlds: Worlds, f: State, g: State, r: RunId, d: Cell)
    requires AllTrue(code, worlds, f) && r in f.db.runs && Moves(f, g, r, d)
    requires d.run.agent == f.db.runs[r].agent && TrueTo(code(f.db.runs[r].agent), worlds(r), d)
    ensures AllTrue(code, worlds, g)
  {
    hide TrueTo, Dense;
    forall q | q in g.db.runs ensures Known(g, q) && TrueTo(code(g.db.runs[q].agent), worlds(q), View(g, q)) {
      assert View(g, q).run == g.db.runs[q];
    }
  }

  lemma OneBornTrue(code: Code, worlds: Worlds, f: State, g: State, r: RunId)
    requires AllTrue(code, worlds, f) && Bears(f, g, r)
    requires TrueTo(code(g.db.runs[r].agent), worlds(r), View(g, r))
    ensures AllTrue(code, worlds, g)
  {
    hide TrueTo, Dense, View;
    BearsExtends(f, g, r);
    forall q | q in g.db.runs ensures Known(g, q) && TrueTo(code(g.db.runs[q].agent), worlds(q), View(g, q)) {
      assert q == r || q in f.db.runs;
    }
  }

  lemma EnqueueTrue(code: Code, worlds: Worlds, f: State, r: RunId, agent: string, input: Value)
    requires FleetInv(code, f) && AllTrue(code, worlds, f) && r !in f.db.runs
    ensures AllTrue(code, worlds, f.(db := Insert(f.db, r, agent, input, Queued)))
  {
    hide Inv, AllTrue, View, FleetInv, Bears, TrueTo;
    var g := f.(db := Insert(f.db, r, agent, input, Queued));
    InvParts(code, f);
    EnqueueBears(f, r, agent, input);
    BearsKnows(f, g, r);
    BornTrue(code(agent), worlds(r), View(g, r));
    OneBornTrue(code, worlds, f, g, r);
  }

  lemma ForkTrue(code: Code, worlds: Worlds, f: State, parent: RunId, at: nat, patch: Config, child: RunId)
    requires FleetInv(code, f) && AllTrue(code, worlds, f)
    requires child !in f.db.runs && Fork(f.db, parent, at, patch, child).Ok?
    ensures AllTrue(code, worlds, f.(db := Fork(f.db, parent, at, patch, child).value))
  {
    hide Inv, AllTrue, FleetInv, Bears, TrueTo, Fork, Dense, DiaryOf, KeysFor, CommitsOf, Its, BillOf;
    var g := f.(db := Fork(f.db, parent, at, patch, child).value);
    InvParts(code, f);
    ForkBears(f, parent, at, patch, child);
    BearsKnows(f, g, child);
    Stranger(f, child);
    SameTables(f, g, child);
    assert |View(g, child).diary| == at + 1;
    BornTrue(code(g.db.runs[child].agent), worlds(child), View(g, child));
    OneBornTrue(code, worlds, f, g, child);
  }

  lemma SameTables(f: State, g: State, r: RunId)
    requires Bears(f, g, r)
    ensures g.db.keys == f.db.keys && g.db.journal == f.db.journal
    ensures g.lives == f.lives && g.grants == f.grants && g.bills == f.bills
  {
  }

  lemma SweepTrue(code: Code, worlds: Worlds, f: State, now: int)
    requires FleetInv(code, f) && AllTrue(code, worlds, f)
    ensures AllTrue(code, worlds, f.(db := SweepAll(f.db, now)))
  {
    hide Inv, Lineage, Owned, View, TrueTo, Do, Enabled, Abides, Dense;
    SweepMoves(f, now);
    var g := f.(db := SweepAll(f.db, now));
    forall q | q in g.db.runs ensures Known(g, q) && TrueTo(code(g.db.runs[q].agent), worlds(q), View(g, q)) {
      var a := code(f.db.runs[q].agent);
      ViewRow(f, q);
      SweptRow(a, View(f, q), now);
      SweepAbides(a, worlds(q), View(f, q), now);
      StaysTrue(a, worlds(q), View(f, q), Sweep(now));
    }
  }

  lemma SweepAbides(a: Agent, world: World, c: Cell, now: int)
    ensures Enabled(a, c, Sweep(now)) && Abides(a, world, c, Sweep(now))
  {
  }

  lemma StepTrue(code: Code, worlds: Worlds, f: State, step: Step)
    requires FleetInv(code, f) && AllTrue(code, worlds, f)
    requires Enables(code, f, step) && StepAbides(code, worlds, f, step)
    ensures AllTrue(code, worlds, Next(code, f, step))
  {
    hide AllTrue, FleetInv, LocalStep, View, Enabled, Abides;
    match step {
      case Local(r, act) => LocalTrue(code, worlds, f, r, act);
      case Enqueue(r, agent, input) => EnqueueTrue(code, worlds, f, r, agent, input);
      case Forking(parent, at, patch, child) =>
        AnyPatchForks(f.db, parent, at, patch, child);
        ForkTrue(code, worlds, f, parent, at, patch, child);
      case Sweeping(now) => SweepTrue(code, worlds, f, now);
    }
  }

  lemma {:induction false} AlwaysTrue(code: Code, worlds: Worlds, fs: seq<State>, steps: seq<Step>, i: nat)
    requires Abiding(code, worlds, fs, steps) && i < |fs|
    ensures FleetInv(code, fs[i]) && AllTrue(code, worlds, fs[i])
  {
    hide FleetInv, AllTrue, Next, Enables, StepAbides;
    AlwaysSafe(code, fs, steps, i);
    if i == 0 {
      assert AllTrue(code, worlds, Initial) by { InitiallyTrue(code, worlds); }
    } else {
      AlwaysTrue(code, worlds, fs, steps, i - 1);
      assert Enables(code, fs[i - 1], steps[i - 1]) && fs[i - 1 + 1] == Next(code, fs[i - 1], steps[i - 1]);
      StepTrue(code, worlds, fs[i - 1], steps[i - 1]);
    }
  }

  lemma InitiallyTrue(code: Code, worlds: Worlds)
    ensures AllTrue(code, worlds, Initial)
  {
  }

  // ----- transparency -----

  lemma PartOfLife(a: Agent, world: World, c: Cell)
    requires OnCourse(a, world, c)
    ensures var whole := Lifetime(a, c.id, world, Birth(c));
      && Events(c.diary) <= whole.diary && c.commits <= whole.commits
      && (Ended(a, world, Story(c)) <==> Story(c) == whole)
  {
    hide Replay, Grown, Lifetime;
    var n: nat :| Grown(a, c.id, world, Birth(c), n) == Timeline(Events(c.diary), c.commits);
    LifetimeExtends(a, c.id, world, Birth(c), n);
  }

  /** At every moment of every execution, with any number of workers, crashes, sweeps, zombies
      and grants, and whatever raises, the diary and the committed effects of a run are a part
      of its one uninterrupted life from the start on; and they are the whole of it exactly
      when the agent has ended or the world raises at what it asks for. */
  lemma AlwaysOnCourse(code: Code, worlds: Worlds, fs: seq<State>, steps: seq<Step>, i: nat, r: RunId)
    requires Abiding(code, worlds, fs, steps) && i < |fs| && r in fs[i].db.runs
    ensures Known(fs[i], r)
    ensures var a, c := code(fs[i].db.runs[r].agent), View(fs[i], r);
      && Floor(c.run) <= |c.diary|
      && var whole := Lifetime(a, r, worlds(r), Birth(c));
         && Events(c.diary) <= whole.diary && CommitsOf(fs[i].db.journal, r) <= whole.commits
         && (Ended(a, worlds(r), Story(c)) <==> Story(c) == whole)
  {
    hide Inv, Lifetime, Next, Enables, Abiding, Owned, Lineage;
    AlwaysTrue(code, worlds, fs, steps, i);
    PartOfLife(code(fs[i].db.runs[r].agent), worlds(r), View(fs[i], r));
  }

  /** Crash transparency: a run that is completed has exactly the diary and the committed
      effects of its one uninterrupted life, and so has a run that is failed, unless the world
      is flaky and the model or an effect raised at a moment of its own. */
  lemma CrashTransparent(code: Code, worlds: Worlds, fs: seq<State>, steps: seq<Step>, i: nat, r: RunId)
    requires Abiding(code, worlds, fs, steps) && i < |fs| && r in fs[i].db.runs
    ensures Known(fs[i], r)
    ensures var run, a, c := fs[i].db.runs[r], code(fs[i].db.runs[r].agent), View(fs[i], r);
      var need := NeedOf(a, Events(c.diary));
      && Floor(c.run) <= |c.diary|
      && (run.status == Completed || (run.status == Failed && (!worlds(r).flaky || need.Fail?)) ==>
            Timeline(Events(c.diary), CommitsOf(fs[i].db.journal, r)) == Lifetime(a, r, worlds(r), Birth(c)))
      && (run.status == Failed && !need.Fail? ==> need.Call? || need.Perform?)
  {
    hide Inv, TrueTo, Lifetime, Next, Enables, Abiding, Owned, Lineage;
    AlwaysTrue(code, worlds, fs, steps, i);
    OverIsWhole(code(fs[i].db.runs[r].agent), worlds(r), View(fs[i], r));
  }

  lemma OverIsWhole(a: Agent, world: World, c: Cell)
    requires Inv(a, c) && TrueTo(a, world, c)
    ensures Floor(c.run) <= |c.diary|
    ensures var need := NeedOf(a, Events(c.diary));
      && (c.run.status == Completed || (c.run.status == Failed && (!world.flaky || need.Fail?)) ==>
            Story(c) == Lifetime(a, c.id, world, Birth(c)))
      && (c.run.status == Failed && !need.Fail? ==> need.Call? || need.Perform?)
  {
    hide Replay, Performed, Lifetime, Grown, Exact, Stamped, Leased, Billed;
    PartOfLife(a, world, c);
  }

  /** Two histories of a run that was born alike, however differently they were interrupted,
      end alike: completed, or failed in a world that is not flaky. */
  lemma HistoriesAgree(
    code: Code, worlds: Worlds, fs: seq<State>, steps: seq<Step>, gs: seq<State>, others: seq<Step>,
    r: RunId, i: nat, j: nat)
    requires Abiding(code, worlds, fs, steps) && i < |fs| && r in fs[i].db.runs
    requires Abiding(code, worlds, gs, others) && j < |gs| && r in gs[j].db.runs
    requires fs[i].db.runs[r].agent == gs[j].db.runs[r].agent
    requires BornAlike(fs[i], gs[j], r)
    requires fs[i].db.runs[r].status == Completed || (fs[i].db.runs[r].status == Failed && !worlds(r).flaky)
    requires gs[j].db.runs[r].status == Completed || (gs[j].db.runs[r].status == Failed && !worlds(r).flaky)
    ensures Known(fs[i], r) && Known(gs[j], r)
    ensures Events(View(fs[i], r).diary) == Events(View(gs[j], r).diary)
    ensures CommitsOf(fs[i].db.journal, r) == CommitsOf(gs[j].db.journal, r)
  {
    hide Lifetime, Abiding, NeedOf;
    CrashTransparent(code, worlds, fs, steps, i, r);
    CrashTransparent(code, worlds, gs, others, j, r);
  }

  /** The run was enqueued, or forked with the same prefix and patch. */
  ghost predicate BornAlike(f: State, g: State, r: RunId) {
    && Known(f, r) && Known(g, r)
    && Floor(f.db.runs[r]) <= |View(f, r).diary| && Floor(g.db.runs[r]) <= |View(g, r).diary|
    && Birth(View(f, r)) == Birth(View(g, r))
  }

  /** A run that was enqueued is born empty. */
  lemma EnqueuedAlike(f: State, g: State, r: RunId)
    requires Known(f, r) && Known(g, r) && f.db.runs[r].parent.None? && g.db.runs[r].parent.None?
    ensures BornAlike(f, g, r)
  {
    assert Birth(View(f, r)) == Timeline([], []) == Birth(View(g, r));
  }
}
