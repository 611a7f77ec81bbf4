/** The crash harness: a run is lived again and again, each life in a new process that may be
    killed at an injected point, until a last one is left alone. */
module Chaos {
  import opened Diary
  import opened Engine
  import opened Traces
  import opened Timelines
  import opened Tables
  import opened Protocol
  import opened Store
  import opened Fleet
  import opened Databases
  import opened Models
  import opened Lives
  import opened Contexts
  import opened Runner
  import FleetSafety
  import Safety

  // ----- the surroundings -----

  /** The harness: a seed for the model, effects, and a human who decides by place. */
  datatype Setup = Setup(
    seed: int, reply: (string, string) -> string, stream: nat -> string,
    effects: (string, seq<Commit>) -> Attempted, human: nat -> bool)

  function ValueOf(attempt: Attempted): Option<Value> {
    if attempt.Yields? then Some(attempt.result) else None
  }

  /** A seeded mock always answers; an effect may raise, but then it always does. */
  ghost function WorldOf(s: Setup): World {
    World((p: string) => Some(s.reply(SeedText(s.seed, p), p)), (fn, cs) => ValueOf(s.effects(fn, cs)), s.human, false)
  }

  /** The effects of run `id` depend only on what its own effects have done. */
  ghost predicate OwnEffects(s: Setup, id: RunId) {
    forall fn, journal :: s.effects(fn, journal) == s.effects(fn, CommitsOf(journal, id))
  }

  /** What the life works with behaves as the world says. */
  ghost predicate Obeys(env: Env, world: World) {
    && (forall n, p :: world.model(p) ==
          var c := env.llm.AnswerAt(n, p); if c.Completed? then Some(c.text) else None)
    && (forall fn, journal :: world.effect(fn, CommitsOf(journal, env.id)) == ValueOf(env.effects(fn, journal)))
  }

  // ----- a lone life follows the uninterrupted one -----

  lemma LandsIsGrow(env: Env, a: Agent, world: World, s: Snap, m: Snap)
    requires Alone(env, s) && Obeys(env, world) && Lands(env, NeedOf(a, s.seen), s, m)
    ensures Timeline(m.seen, CommitsOf(m.db.journal, env.id))
         == Grow(a, env.id, world, Timeline(s.seen, CommitsOf(s.db.journal, env.id)))
  {
    hide Replay, Alone, CommitsOf, MakeKey;
    var need, e := NeedOf(a, s.seen), m.seen[|s.seen|];
    assert m.seen == s.seen + [e];
    if need.Perform? {
      assert MakeKey(env.id, |s.seen|) !in s.db.keys by { NoKeyYet(env, s); }
      FleetSafety.CommitsOfAppend(s.db.journal, Commit(env.id, |s.seen|, need.fn, e.result), env.id);
    }
  }

  lemma NoKeyYet(env: Env, s: Snap)
    requires Alone(env, s)
    ensures MakeKey(env.id, |s.seen|) !in s.db.keys
  {
  }

  lemma {:induction false} GrewIsGrown(
    env: Env, a: Agent, world: World, s: Snap, u: Snap, birth: Timeline, k: nat, n: nat)
    requires Alone(env, s) && Obeys(env, world) && Grew(env, a, s, u, n)
    requires Timeline(s.seen, CommitsOf(s.db.journal, env.id)) == Grown(a, env.id, world, birth, k)
    ensures Alone(env, u)
    ensures Timeline(u.seen, CommitsOf(u.db.journal, env.id)) == Grown(a, env.id, world, birth, k + n)
    decreases n
  {
    hide Replay, Lands, Alone, Grow, Obeys, CommitsOf, BreakOf, DiesAfter;
    if n > 0 {
      var m :| Lands(env, NeedOf(a, s.seen), s, m) && GoesOn(env, n - 1, m.seen) && Grew(env, a, m, u, n - 1);
      StaysAlone(env, NeedOf(a, s.seen), s, m);
      LandsIsGrow(env, a, world, s, m);
      GrewIsGrown(env, a, world, m, u, birth, k + 1, n - 1);
    }
  }

  /** The model is billed once for each call that a life recorded. */
  lemma {:induction false} GrewBills(env: Env, a: Agent, s: Snap, u: Snap, n: nat)
    requires Grew(env, a, s, u, n)
    ensures u.calls - s.calls == OwnCalls(u.seen, 0) - OwnCalls(s.seen, 0)
    decreases n
  {
    hide Replay, Lands, BreakOf, DiesAfter;
    if n > 0 {
      var m :| Lands(env, NeedOf(a, s.seen), s, m) && GoesOn(env, n - 1, m.seen) && Grew(env, a, m, u, n - 1);
      LandBills(env, NeedOf(a, s.seen), s, m);
      GrewBills(env, a, m, u, n - 1);
    }
  }

  lemma LandBills(env: Env, need: Need, s: Snap, m: Snap)
    requires Lands(env, need, s, m)
    ensures m.calls - s.calls == OwnCalls(m.seen, 0) - OwnCalls(s.seen, 0)
  {
    var e := m.seen[|s.seen|];
    assert m.seen == s.seen + [e];
    Safety.CallsAppend(s.seen, e, 0);
  }

  // ----- the state of the run between lives -----

  ghost function TimelineIn(d: Db, id: RunId): Timeline
    requires Dense(Rows(d, id))
  {
    Timeline(Events(DiaryOf(Rows(d, id))), CommitsOf(d.journal, id))
  }

  const Unborn := Timeline([], [])

  /** The run is at some point of its uninterrupted life, and nobody else has its keys. */
  ghost predicate OnTrack(a: Agent, world: World, d: Db, id: RunId) {
    && id in d.runs && Dense(Rows(d, id))
    && (forall slot: nat :: MakeKey(id, slot) in d.keys ==> slot < |Rows(d, id)|)
    && exists n: nat :: Grown(a, id, world, Unborn, n) == TimelineIn(d, id)
  }

  ghost function CallsIn(d: Db, id: RunId): nat
    requires Dense(Rows(d, id))
  {
    OwnCalls(Events(DiaryOf(Rows(d, id))), 0)
  }

  ghost predicate OthersSame(d: Db, e: Db, id: RunId) {
    && e.runs.Keys == d.runs.Keys
    && forall r :: r != id ==> Rows(e, r) == Rows(d, r) && (r in d.runs ==> e.runs[r] == d.runs[r])
  }

  /** What the fate of a lone life says of its timeline. */
  ghost predicate EndsAs(a: Agent, world: World, t: Timeline, crash: Crash, fate: Fate) {
    var need := NeedOf(a, t.diary);
    match fate
    case Returned(output) => need == Finish(output)
    case AgentRaised => need.Fail?
    case Stopped(why) =>
      match why
      case PausedForApproval(question) => need == Await(question)
      case Killed => crash != Never
      case Divergence(_) => false
      case _ => Raises(world, t.commits, need)
  }

  /** A lone life breaks off if it is killed, or if the world raises, and not otherwise. */
  lemma BreaksByTheWorld(env: Env, a: Agent, world: World, m: Snap)
    requires Obeys(env, world) && Alone(env, m) && BreakOf(env, NeedOf(a, m.seen), m).Some?
    ensures var b := BreakOf(env, NeedOf(a, m.seen), m).value;
      && EndsAs(a, world, Timeline(m.seen, CommitsOf(m.db.journal, env.id)), env.crash, Stopped(b.why))
      && (b.paid > 0 ==> b.why == Killed)
  {
    hide NeedOf, CommitsOf;
    var need := NeedOf(a, m.seen);
    BreakCauses(env, need, m);
    SoleIsNotRefused(env, m);
    if need.Perform? {
      assert MakeKey(env.id, |m.seen|) !in m.db.keys by { NoKeyYet(env, m); }
      AttemptByTheWorld(env, m, need.fn);
    }
  }

  lemma AttemptByTheWorld(env: Env, m: Snap, fn: string)
    requires Sole(env, m) && MakeKey(env.id, |m.seen|) !in m.db.keys
    ensures Attempt(env, m, fn).Err? <==> ValueOf(env.effects(fn, m.db.journal)).None?
  {
    SoleIsNotRefused(env, m);
  }

  /** What any life, killed or not, leaves behind. */
  lemma EndOfLife(env: Env, a: Agent, world: World, s: Snap, u: Snap, fate: Fate)
    requires Lived(env, a, s, u, fate) && Obeys(env, world)
    requires env.lease.None? && OnTrack(a, world, s.db, env.id) && TimelineIn(s.db, env.id).diary == s.seen
    ensures OnTrack(a, world, u.db, env.id) && TimelineIn(u.db, env.id).diary == u.seen
    ensures u.db.runs == s.db.runs && OthersSame(s.db, u.db, env.id)
    ensures |s.seen| <= |u.seen|
    ensures EndsAs(a, world, TimelineIn(u.db, env.id), env.crash, fate)
    ensures var own := OwnCalls(u.seen, 0) - OwnCalls(s.seen, 0);
      own <= u.calls - s.calls <= own + (if fate == Stopped(Killed) then 1 else 0)
  {
    hide NeedOf, Grew, Grown, CommitsOf, Obeys, OwnCalls, BreakOf, DiesAfter, OthersSame;
    var n: nat, m :| Grew(env, a, s, m, n) && Fits(env, a, s, n, m, u, fate);
    LifeKeepsTrack(env, a, world, s, m, n);
    GrewBills(env, a, s, m, n);
    assert !NeedOf(a, m.seen).Diverge? by { OnTrackReplays(a, world, m.db, env.id); }
    if BreakOf(env, NeedOf(a, m.seen), m).Some? {
      BreaksByTheWorld(env, a, world, m);
      BreakCauses(env, NeedOf(a, m.seen), m);
    }
    assert u.db == m.db && u.seen == m.seen;
    assert fate == Stopped(Killed) ==> env.crash != Never by { DiesOnlyByCrash(env, m.seen); }
  }

  lemma DiesOnlyByCrash(env: Env, seen: seq<Event>)
    ensures DiesAfter(env, seen) ==> env.crash != Never
  {
  }

  lemma OnTrackReplays(a: Agent, world: World, d: Db, id: RunId)
    requires OnTrack(a, world, d, id)
    ensures !NeedOf(a, TimelineIn(d, id).diary).Diverge?
  {
    hide Replay, Grown, CommitsOf;
    var n: nat :| Grown(a, id, world, Unborn, n) == TimelineIn(d, id);
    EmptyTrace(a);
    GrownTraces(a, id, world, Unborn, n);
    assert Trace(a, TimelineIn(d, id).diary);
  }

  lemma LifeKeepsTrack(env: Env, a: Agent, world: World, s: Snap, m: Snap, n: nat)
    requires Grew(env, a, s, m, n) && Obeys(env, world)
    requires env.lease.None? && OnTrack(a, world, s.db, env.id) && TimelineIn(s.db, env.id).diary == s.seen
    ensures Alone(env, m) && OnTrack(a, world, m.db, env.id) && TimelineIn(m.db, env.id).diary == m.seen
    ensures m.db.runs == s.db.runs && OthersSame(s.db, m.db, env.id) && s.seen <= m.seen
  {
    hide Replay, Grew, Grown, CommitsOf, Obeys;
    var k: nat :| Grown(a, env.id, world, Unborn, k) == TimelineIn(s.db, env.id);
    assert Alone(env, s);
    GrewIsGrown(env, a, world, s, m, Unborn, k, n);
    forall r
      ensures m.db.runs == s.db.runs && s.seen <= m.seen && (r != env.id ==> Rows(m.db, r) == Rows(s.db, r))
    {
      TouchesOwnOnly(env, a, s, m, n, r);
    }
    assert Grown(a, env.id, world, Unborn, k + n) == TimelineIn(m.db, env.id);
  }

  // ----- the harness -----

  /** run_one_life: a new process, a new model with the same seed, a new Context. */
  method OneLife(db: Database, a: Agent, id: RunId, setup: Setup, crash: Crash) returns (fate: Fate, calls: nat)
    requires OwnEffects(setup, id) && OnTrack(a, WorldOf(setup), db.Contents(), id)
    modifies db
    ensures OnTrack(a, WorldOf(setup), db.Contents(), id) && OthersSame(old(db.Contents()), db.Contents(), id)
    ensures |Rows(old(db.Contents()), id)| <= |Rows(db.Contents(), id)|
    ensures EndsAs(a, WorldOf(setup), TimelineIn(db.Contents(), id), crash, fate)
    ensures id in old(db.runs) && id in db.runs
    ensures db.runs[id] == if fate.Returned? then old(db.runs)[id].(status := Status.Completed) else old(db.runs)[id]
    ensures var own := CallsIn(db.Contents(), id) - CallsIn(old(db.Contents()), id);
      own <= calls <= own + (if fate == Stopped(Killed) then 1 else 0)
  {
    var llm := new Llm.Mock(None, Some(setup.seed), setup.stream, setup.reply);
    var ctx := new Context(db, id, llm, None, setup.effects, crash);
    ghost var s := ctx.Snapshot();
    fate := LiveOnce(a, ctx);
    calls := llm.calls;
    assert Obeys(ctx.Env(), WorldOf(setup)) by { SetupObeys(ctx.Env(), setup); }
    EndOfLife(ctx.Env(), a, WorldOf(setup), s, ctx.Snapshot(), fate);
    if fate.Returned? {
      ghost var d := db.Contents();
      var error := db.SetRunStatus(id, Status.Completed);
      StatusKeepsTrack(a, WorldOf(setup), d, id, Status.Completed);
    }
  }

  lemma SetupObeys(env: Env, setup: Setup)
    requires OwnEffects(setup, env.id) && env.effects == setup.effects
    requires Seeded(env.llm) && env.llm.seed == Some(setup.seed) && env.llm.reply == setup.reply
    ensures Obeys(env, WorldOf(setup))
  {
    hide CommitsOf, SeedText;
    assert forall fn, journal :: setup.effects(fn, journal) == setup.effects(fn, CommitsOf(journal, env.id));
  }

  lemma StatusKeepsTrack(a: Agent, world: World, d: Db, id: RunId, status: Status)
    requires OnTrack(a, world, d, id)
    ensures SetStatus(d, id, status).Ok?
    ensures var e := SetStatus(d, id, status).value;
      && OnTrack(a, world, e, id) && OthersSame(d, e, id)
      && Rows(e, id) == Rows(d, id) && TimelineIn(e, id) == TimelineIn(d, id)
  {
    hide Replay, Grown;
    var e := SetStatus(d, id, status).value;
    assert Rows(e, id) == Rows(d, id) && TimelineIn(e, id) == TimelineIn(d, id);
  }

  lemma AwaitsAtTheEnd(a: Agent, h: seq<Event>)
    requires NeedOf(a, h).Await?
    ensures |h| > 0 && h[|h| - 1].ApprovalRequested?
  {
    NeedsAtTheEnd(a, h, Start);
  }

  /** A human's answer to the question that a run waits on is its next event. */
  lemma AnswerKeepsTrack(a: Agent, world: World, d: Db, id: RunId, e: Db)
    requires OnTrack(a, world, d, id) && NeedOf(a, TimelineIn(d, id).diary).Await?
    requires var n := |Rows(d, id)|; AppendEvent(d, id, n + 1, Approval(world.human(n + 1)), None) == Ok(e)
    ensures OnTrack(a, world, e, id) && OthersSame(d, e, id)
    ensures |Rows(e, id)| == |Rows(d, id)| + 1 && CallsIn(e, id) == CallsIn(d, id)
  {
    hide Replay, CommitsOf, Grow, OwnCalls;
    var rows, n := Rows(d, id), |Rows(d, id)|;
    var entry := Entry(Approval(world.human(n + 1)), 0);
    DenseAppend(rows, entry);
    EventsAppend(DiaryOf(rows), entry);
    assert Rows(e, id) == rows[n + 1 := entry];
    Safety.CallsAppend(Events(DiaryOf(rows)), entry.event, 0);
    var k: nat :| Grown(a, id, world, Unborn, k) == TimelineIn(d, id);
    GrowsByAnswer(a, id, world, TimelineIn(d, id));
    assert Grown(a, id, world, Unborn, k + 1) == TimelineIn(e, id);
  }

  lemma GrowsByAnswer(a: Agent, id: RunId, world: World, t: Timeline)
    requires NeedOf(a, t.diary).Await?
    ensures Grow(a, id, world, t) == Timeline(t.diary + [Approval(world.human(|t.diary| + 1))], t.commits)
  {
  }

  /** What grant_approval finds when the run waits on a question. */
  lemma GrantFinds(a: Agent, world: World, d: Db, id: RunId, decision: bool)
    requires OnTrack(a, world, d, id) && NeedOf(a, TimelineIn(d, id).diary).Await?
    ensures id in d.runs && Dense(Rows(d, id))
    ensures var rows := Store.ReadEvents(Rows(d, id));
      && |rows| == |Rows(d, id)| > 0 && rows[|rows| - 1].entry.event.ApprovalRequested?
      && AppendEvent(d, id, |rows| + 1, Approval(decision), None).Ok?
      && AppendEvent(d, id, |rows| + 1, Approval(decision), None).value.runs == d.runs
  {
    hide Replay, Grown, CommitsOf;
    ReadsDense(Rows(d, id));
    AwaitsAtTheEnd(a, TimelineIn(d, id).diary);
  }

  /** The human of the harness: grant_approval, decided by the place of the question. */
  method Answer(db: Database, a: Agent, id: RunId, setup: Setup)
    requires OnTrack(a, WorldOf(setup), db.Contents(), id)
    requires NeedOf(a, TimelineIn(db.Contents(), id).diary).Await?
    modifies db
    ensures OnTrack(a, WorldOf(setup), db.Contents(), id) && OthersSame(old(db.Contents()), db.Contents(), id)
    ensures |Rows(db.Contents(), id)| == |Rows(old(db.Contents()), id)| + 1
    ensures CallsIn(db.Contents(), id) == CallsIn(old(db.Contents()), id)
  {
    hide OnTrack, Replay, CommitsOf, OwnCalls, NeedOf, Dense, DiaryOf, Events, Rows;
    hide Store.SetStatus, WithRow;
    hide Store.ReadEvents, AppendEvent, OthersSame;
    ghost var d, world := db.Contents(), WorldOf(setup);
    GrantFinds(a, world, d, id, setup.human(|Rows(d, id)| + 1));
    var rows := db.ReadEvents(id);
    ghost var e := AppendEvent(d, id, |rows| + 1, Approval(setup.human(|rows| + 1)), None).value;
    var result := db.GrantApproval(id, setup.human(|rows| + 1));
    RequeuedStatus(e, id);
    AnswerKeepsTrack(a, world, d, id, e);
    StatusKeepsTrack(a, world, e, id, Queued);
    SameOthers(d, e, db.Contents(), id);
  }

  lemma RequeuedStatus(d: Db, id: RunId)
    requires id in d.runs
    ensures SetStatus(d, id, Queued) == Ok(WithRow(d, id, d.runs[id].(status := Queued)))
  {
  }

  lemma SameAsItself(d: Db, id: RunId)
    ensures OthersSame(d, d, id)
  {
  }

  lemma OthersSinceBirth(b: Db, d: Db, e: Db, id: RunId)
    requires id !in b.runs && id in d.runs && d.events == b.events && d.runs == b.runs[id := d.runs[id]]
    requires OthersSame(d, e, id)
    ensures id in e.runs
    ensures forall r :: r != id ==> Rows(e, r) == Rows(b, r)
    ensures forall r :: r in b.runs ==> r in e.runs && e.runs[r] == b.runs[r]
  {
  }

  lemma SameOthers(d: Db, e: Db, f: Db, id: RunId)
    requires OthersSame(d, e, id) && OthersSame(e, f, id)
    ensures OthersSame(d, f, id)
  {
    hide Rows;
  }

  lemma TrackFacts(a: Agent, world: World, d: Db, id: RunId)
    requires OnTrack(a, world, d, id)
    ensures id in d.runs && Dense(Rows(d, id))
    ensures var t := TimelineIn(d, id);
      && |t.diary| <= |Lifetime(a, id, world, Unborn).diary|
      && (Ended(a, world, t) ==> t == Lifetime(a, id, world, Unborn))
  {
    hide Replay, Grown;
    var n: nat :| Grown(a, id, world, Unborn, n) == TimelineIn(d, id);
    LifetimeExtends(a, id, world, Unborn, n);
  }

  lemma FreshIsOnTrack(a: Agent, world: World, d: Db, id: RunId)
    requires id in d.runs && id !in d.events && CommitsOf(d.journal, id) == []
    requires forall slot: nat :: MakeKey(id, slot) !in d.keys
    ensures OnTrack(a, world, d, id) && CallsIn(d, id) == 0
  {
    assert Rows(d, id) == map[];
    assert Dense(Rows(d, id));
    assert Grown(a, id, world, Unborn, 0) == TimelineIn(d, id);
  }

  /** The harness launches the run again after a life with this fate. */
  predicate Resumes(fate: Fate) {
    fate.Stopped? && (fate.why == Killed || fate.why.PausedForApproval?)
  }

  /** One round of the harness: a life, and the human's answer if the life paused for it. */
  method Round(db: Database, a: Agent, id: RunId, setup: Setup, crash: Crash) returns (fate: Fate, calls: nat)
    requires OwnEffects(setup, id) && OnTrack(a, WorldOf(setup), db.Contents(), id)
    modifies db
    ensures OnTrack(a, WorldOf(setup), db.Contents(), id) && OthersSame(old(db.Contents()), db.Contents(), id)
    ensures |Rows(old(db.Contents()), id)| <= |Rows(db.Contents(), id)|
    ensures Resumes(fate) && fate.why != Killed ==> |Rows(old(db.Contents()), id)| < |Rows(db.Contents(), id)|
    ensures fate == Stopped(Killed) ==> crash != Never
    ensures !Resumes(fate) ==> EndsAs(a, WorldOf(setup), TimelineIn(db.Contents(), id), crash, fate)
    ensures fate.Returned? ==> db.runs[id].status == Status.Completed
    ensures var own := CallsIn(db.Contents(), id) - CallsIn(old(db.Contents()), id);
      own <= calls <= own + (if fate == Stopped(Killed) then 1 else 0)
  {
    hide OnTrack, NeedOf, CommitsOf, OwnCalls, DiaryOf, Events, Dense, WorldOf, Rows;
    ghost var d := db.Contents();
    assert id in d.runs && Dense(Rows(d, id)) by { TrackFacts(a, WorldOf(setup), d, id); }
    fate, calls := OneLife(db, a, id, setup, crash);
    if fate.Stopped? && fate.why.PausedForApproval? {
      ghost var s := db.Contents();
      Answer(db, a, id, setup);
      SameOthers(d, s, db.Contents(), id);
    }
  }

  /** The chaos certificate: however the lives of a run are killed, the last one leaves the
      diary, the effects and the output of its one uninterrupted life, or raises where that
      does, and the model was called once per recorded call, and at most once more per killed
      life. */
  method Certify(db: Database, a: Agent, id: RunId, name: string, input: Value, setup: Setup, crashes: seq<Crash>)
    returns (fate: Fate, bill: nat, kills: nat)
    requires id !in db.runs && id !in db.events && CommitsOf(db.journal, id) == []
    requires OwnEffects(setup, id) && forall slot: nat :: MakeKey(id, slot) !in db.keys
    modifies db
    ensures id in db.runs && Dense(Rows(db.Contents(), id))
    ensures TimelineIn(db.Contents(), id) == Lifetime(a, id, WorldOf(setup), Unborn)
    ensures !Resumes(fate) && EndsAs(a, WorldOf(setup), TimelineIn(db.Contents(), id), Never, fate)
    ensures fate.Returned? ==> db.runs[id].status == Status.Completed
    ensures CallsIn(db.Contents(), id) <= bill <= CallsIn(db.Contents(), id) + kills && kills <= |crashes|
    ensures forall r :: r != id ==> Rows(db.Contents(), r) == Rows(old(db.Contents()), r)
    ensures forall r :: r in old(db.runs) ==> r in db.runs && db.runs[r] == old(db.runs)[r]
  {
    hide OnTrack, NeedOf, CommitsOf, CallsIn, Lifetime, Grown, DiaryOf, Events, Dense, MakeKey;
    hide OthersSame, WorldOf, Rows;
    hide EndsAs;
    ghost var before, world := db.Contents(), WorldOf(setup);
    db.CreateRun(id, name, input);
    FreshIsOnTrack(a, world, db.Contents(), id);
    ghost var d := db.Contents();
    SameAsItself(d, id);
    bill, kills := 0, 0;
    var i := 0;
    TrackFacts(a, world, d, id);
    while true
      invariant 0 <= i <= |crashes| && kills <= i
      invariant OnTrack(a, world, db.Contents(), id) && OthersSame(d, db.Contents(), id)
      invariant id in db.runs && Dense(Rows(db.Contents(), id))
      invariant |Rows(db.Contents(), id)| <= |Lifetime(a, id, world, Unborn).diary|
      invariant CallsIn(db.Contents(), id) <= bill <= CallsIn(db.Contents(), id) + kills
      decreases |crashes| - i, |Lifetime(a, id, world, Unborn).diary| - |Rows(db.Contents(), id)|
    {
      ghost var s := db.Contents();
      var calls;
      var crash := if i < |crashes| then crashes[i] else Never;
      fate, calls := Round(db, a, id, setup, crash);
      SameOthers(d, s, db.Contents(), id);
      TrackFacts(a, world, db.Contents(), id);
      bill := bill + calls;
      if !Resumes(fate) {
        OthersSinceBirth(before, d, db.Contents(), id);
        FinalFate(a, world, db.Contents(), id, crash, fate);
        return;
      }
      if fate.why == Killed {
        kills := kills + 1;
      }
      if i < |crashes| {
        i := i + 1;
      }
    }
  }

  /** A life that is not launched again was the end of the run. */
  lemma FinalFate(a: Agent, world: World, d: Db, id: RunId, crash: Crash, fate: Fate)
    requires OnTrack(a, world, d, id) && !Resumes(fate) && EndsAs(a, world, TimelineIn(d, id), crash, fate)
    ensures TimelineIn(d, id) == Lifetime(a, id, world, Unborn) && EndsAs(a, world, TimelineIn(d, id), Never, fate)
  {
    hide Replay, Lifetime, DiaryOf, CommitsOf, OnTrack;
    TrackFacts(a, world, d, id);
  }
}
